/** The form validator: required fields first, in configured order, then
    the e-mail pattern, then the phone pattern. The regular-expression
    engine is a parameter: `test(pattern, s)` stands for
    `new RegExp(pattern).test(s)`, a search that need not cover all of `s`. */
module Validation {
  import opened Strings
  import opened Forms

  /** The validation settings of the application configuration. */
  datatype ValidationConfig = ValidationConfig(required: seq<string>, emailPattern: string, phonePattern: string)

  const EmailError: string := "Invalid email format"
  const PhoneError: string := "Invalid phone format"

  function RequiredMessage(field: string): string {
    field + " is required"
  }

  /** `!data[field] || data[field].trim() === ''` */
  predicate IsBlank(form: Form, field: string) {
    !Truthy(form, field) || Trim(form[field]) == ""
  }

  /** A field is blank exactly when it is absent or consists of whitespace only. */
  lemma BlankMeansWhitespace(form: Form, field: string)
    ensures IsBlank(form, field) <==> field !in form || AllWhitespace(form[field])
  {
  }

  /** One message per blank field of `fields`, in the order of `fields`. */
  function RequiredErrors(form: Form, fields: seq<string>): (errs: seq<string>)
    ensures |errs| <= |fields|
    ensures errs == [] <==> forall i :: 0 <= i < |fields| ==> !IsBlank(form, fields[i])
  {
    if fields == [] then
      []
    else
      var rest := RequiredErrors(form, fields[1..]);
      assert forall i :: 1 <= i < |fields| ==> fields[i] == fields[1..][i - 1];
      if IsBlank(form, fields[0]) then [RequiredMessage(fields[0])] + rest else rest
  }

  /** Every blank field of the list has its message. */
  lemma {:induction false} RequiredErrorsComplete(form: Form, fields: seq<string>, i: nat)
    requires i < |fields| && IsBlank(form, fields[i])
    ensures RequiredMessage(fields[i]) in RequiredErrors(form, fields)
  {
    if i > 0 {
      assert fields[1..][i - 1] == fields[i];
      RequiredErrorsComplete(form, fields[1..], i - 1);
    }
  }

  /** Every message names a blank field of the list. */
  lemma {:induction false} RequiredErrorsSound(form: Form, fields: seq<string>, e: string)
    requires e in RequiredErrors(form, fields)
    ensures exists i :: 0 <= i < |fields| && IsBlank(form, fields[i]) && e == RequiredMessage(fields[i])
  {
    if IsBlank(form, fields[0]) && e == RequiredMessage(fields[0]) {
      assert 0 < |fields|;
    } else {
      RequiredErrorsSound(form, fields[1..], e);
      var i :| 0 <= i < |fields[1..]| && IsBlank(form, fields[1..][i]) && e == RequiredMessage(fields[1..][i]);
      assert fields[i + 1] == fields[1..][i];
    }
  }

  /** Errors keep the configured order: the errors for `a + b` are those for
      `a` followed by those for `b`. */
  lemma {:induction false} RequiredErrorsAppend(form: Form, a: seq<string>, b: seq<string>)
    ensures RequiredErrors(form, a + b) == RequiredErrors(form, a) + RequiredErrors(form, b)
  {
    if a == [] {
      assert a + b == b;
    } else {
      assert (a + b)[0] == a[0];
      assert (a + b)[1..] == a[1..] + b;
      RequiredErrorsAppend(form, a[1..], b);
    }
  }

  /** A single field produces its message exactly when it is blank. */
  lemma RequiredErrorsSingle(form: Form, field: string)
    ensures RequiredErrors(form, [field]) == (if IsBlank(form, field) then [RequiredMessage(field)] else [])
  {
  }

  /** No required-field message can be mistaken for a pattern error: the
      former end in 'd', the latter in 't'. */
  lemma PatternErrorsAreNotRequiredMessages(field: string)
    ensures RequiredMessage(field) != EmailError
    ensures RequiredMessage(field) != PhoneError
  {
    var m := RequiredMessage(field);
    assert m[|m| - 1] == 'd';
  }

  lemma {:induction false} PatternErrorsNotAmongRequired(form: Form, fields: seq<string>)
    ensures EmailError !in RequiredErrors(form, fields)
    ensures PhoneError !in RequiredErrors(form, fields)
  {
    if fields != [] {
      PatternErrorsAreNotRequiredMessages(fields[0]);
      PatternErrorsNotAmongRequired(form, fields[1..]);
    }
  }

  function EmailErrors(form: Form, cfg: ValidationConfig, test: (string, string) -> bool): seq<string> {
    if Truthy(form, "mail") && !test(cfg.emailPattern, form["mail"]) then [EmailError] else []
  }

  function PhoneErrors(form: Form, cfg: ValidationConfig, test: (string, string) -> bool): seq<string> {
    if Truthy(form, "phone") && !test(cfg.phonePattern, form["phone"]) then [PhoneError] else []
  }

  /** `validateForm`: the required-field messages, then at most one e-mail
      error, then at most one phone error. */
  function Validate(form: Form, cfg: ValidationConfig, test: (string, string) -> bool): (errs: seq<string>)
    ensures |RequiredErrors(form, cfg.required)| <= |errs|
    ensures errs[..|RequiredErrors(form, cfg.required)|] == RequiredErrors(form, cfg.required)
    ensures EmailError in errs <==> Truthy(form, "mail") && !test(cfg.emailPattern, form["mail"])
    ensures PhoneError in errs <==> Truthy(form, "phone") && !test(cfg.phonePattern, form["phone"])
    ensures EmailError in errs && PhoneError in errs ==>
              errs == RequiredErrors(form, cfg.required) + [EmailError, PhoneError]
    ensures |errs| == |RequiredErrors(form, cfg.required)|
                      + (if Truthy(form, "mail") && !test(cfg.emailPattern, form["mail"]) then 1 else 0)
                      + (if Truthy(form, "phone") && !test(cfg.phonePattern, form["phone"]) then 1 else 0)
    ensures |errs| <= |cfg.required| + 2
  {
    var req := RequiredErrors(form, cfg.required);
    var email := EmailErrors(form, cfg, test);
    var phone := PhoneErrors(form, cfg, test);
    PatternErrorsNotAmongRequired(form, cfg.required);
    ErrorListShape(req, email, phone);
    req + email + phone
  }

  /** Where the two pattern errors sit in the concatenated list. */
  lemma ErrorListShape(req: seq<string>, email: seq<string>, phone: seq<string>)
    requires EmailError !in req && PhoneError !in req
    requires email == [] || email == [EmailError]
    requires phone == [] || phone == [PhoneError]
    ensures (req + email + phone)[..|req|] == req
    ensures EmailError in req + email + phone <==> email != []
    ensures PhoneError in req + email + phone <==> phone != []
  {
    assert (req + email + phone)[..|req|] == req;
    assert EmailError != PhoneError;
  }

  /** With a bad e-mail and an acceptable or empty phone, the list is the
      required-field messages followed by the one e-mail error. */
  lemma OneEmailError(form: Form, cfg: ValidationConfig, test: (string, string) -> bool)
    requires Truthy(form, "mail") && !test(cfg.emailPattern, form["mail"])
    requires Truthy(form, "phone") ==> test(cfg.phonePattern, form["phone"])
    ensures Validate(form, cfg, test) == RequiredErrors(form, cfg.required) + [EmailError]
  {
    var errs := Validate(form, cfg, test);
    var req := RequiredErrors(form, cfg.required);
    assert errs == errs[..|req|] + errs[|req|..];
    assert errs[|req|..] == [errs[|req|]];
  }

  /** The form passes exactly when every required field is filled in and
      every non-empty e-mail and phone matches its pattern. */
  lemma ValidIff(form: Form, cfg: ValidationConfig, test: (string, string) -> bool)
    ensures Validate(form, cfg, test) == [] <==>
              && (forall i :: 0 <= i < |cfg.required| ==> !IsBlank(form, cfg.required[i]))
              && (Truthy(form, "mail") ==> test(cfg.emailPattern, form["mail"]))
              && (Truthy(form, "phone") ==> test(cfg.phonePattern, form["phone"]))
  {
  }

  /** An empty or absent e-mail or phone is never reported, whatever the patterns. */
  lemma EmptyContactNeverReported(form: Form, cfg: ValidationConfig, test: (string, string) -> bool)
    requires OrEmpty(form, "mail") == "" && OrEmpty(form, "phone") == ""
    ensures Validate(form, cfg, test) == RequiredErrors(form, cfg.required)
  {
  }

  /** `test` searches `s` for a piece that `whole` accepts entirely. */
  ghost predicate SearchesWith(test: (string, string) -> bool, whole: (string, string) -> bool) {
    forall p, s :: test(p, s) <==> exists i, j :: 0 <= i <= j <= |s| && whole(p, s[i..j])
  }

  /** Because `test` is an unanchored search, an e-mail field passes as soon
      as it merely contains some text the pattern accepts as a whole. */
  lemma UnanchoredSearchAcceptsContainingText(form: Form, cfg: ValidationConfig,
                                              test: (string, string) -> bool,
                                              whole: (string, string) -> bool, address: string)
    requires SearchesWith(test, whole)
    requires whole(cfg.emailPattern, address)
    requires "mail" in form && IsSubstring(form["mail"], address)
    ensures EmailError !in Validate(form, cfg, test)
  {
    var mail := form["mail"];
    var i :| OccursAt(mail, address, i);
    assert whole(cfg.emailPattern, mail[i..i + |address|]);
    assert test(cfg.emailPattern, mail);
  }
}
