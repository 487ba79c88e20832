/** The three signature languages and the detection of a language from the
    target of a language-switch link. */
module Languages {
  import opened Strings

  datatype Lang = Fr | De | It

  /** The code under which a language is keyed in the translation tables. */
  function Code(l: Lang): string {
    match l
    case Fr => "fr"
    case De => "de"
    case It => "it"
  }

  /** The order of the signature lines: French, German, Italian. */
  const SignatureOrder: seq<Lang> := [Fr, De, It]

  ghost predicate MentionsFrench(href: string) {
    IsSubstring(href, "FR") || IsSubstring(href, "fr")
  }

  ghost predicate MentionsItalian(href: string) {
    IsSubstring(href, "IT") || IsSubstring(href, "it")
  }

  /** Classifies a link by substring: French wins over Italian, and German
      is the fallback. Only the all-lower and all-upper spellings count. */
  function LangFromHref(href: string): (lang: Lang)
    ensures lang == Fr <==> MentionsFrench(href)
    ensures lang == It <==> !MentionsFrench(href) && MentionsItalian(href)
    ensures lang == De <==> !MentionsFrench(href) && !MentionsItalian(href)
  {
    if Includes(href, "FR") || Includes(href, "fr") then Fr
    else if Includes(href, "IT") || Includes(href, "it") then It
    else De
  }

  /** A language's own code is classified as that language. */
  lemma CodeRoundTrip(l: Lang)
    ensures LangFromHref(Code(l)) == l
  {
    match l
    case Fr =>
      assert OccursAt("fr", "fr", 0);
    case De =>
      NotIn2("de", "FR");
      NotIn2("de", "fr");
      NotIn2("de", "IT");
      NotIn2("de", "it");
    case It =>
      assert OccursAt("it", "it", 0);
      NotIn2("it", "FR");
      NotIn2("it", "fr");
  }

  /** A two-character text contains another two-character text only if they are equal. */
  lemma NotIn2(s: string, t: string)
    requires |s| == 2 && |t| == 2 && s != t
    ensures !IsSubstring(s, t)
  {
    assert s[0..2] == s;
  }

  /** A link naming both French and Italian is classified as French. */
  lemma FrenchTakesPrecedence(href: string)
    requires MentionsFrench(href) && MentionsItalian(href)
    ensures LangFromHref(href) == Fr
  {
  }

  /** Mixed-case spellings are not recognised: "Fr" falls back to German. */
  lemma MixedCaseIsGerman()
    ensures LangFromHref("Fr") == De
  {
    NotIn2("Fr", "FR");
    NotIn2("Fr", "fr");
    NotIn2("Fr", "IT");
    NotIn2("Fr", "it");
  }
}
