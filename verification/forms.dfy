/** The submitted form: the entries of a `FormData` copied into a plain
    object, one string per field name (a later entry of the same name wins). */
module Forms {

  type Form = map<string, string>

  /** `data[key]` inside a template literal or used as a property key: an
      absent field reads as the text "undefined". */
  function Interpolate(form: Form, key: string): string {
    if key in form then form[key] else "undefined"
  }

  /** `data[key] || ''`: an absent or empty field reads as the empty string. */
  function OrEmpty(form: Form, key: string): string {
    if key in form then form[key] else ""
  }

  /** `data[key]` is truthy: present and not the empty string. */
  predicate Truthy(form: Form, key: string) {
    key in form && form[key] != ""
  }
}
