/** The signature composer: three localized role/sector lines and the
    content of the signature block they are placed in. */
module Composer {
  import opened Outcomes
  import opened Strings
  import opened Forms
  import opened Languages
  import opened Translations

  /** The two role keys whose lines carry neither a subsector nor the ", "
      separator. */
  const CommissionLead: string := "Responsable de commission"
  const NoRole: string := "none"

  predicate DropsSubSector(role: string) {
    role == CommissionLead || role == NoRole
  }

  /** The subsector as it appears in the lines of the given role. */
  function ShownSubSector(role: string, subSector: string): string {
    if DropsSubSector(role) then "" else subSector
  }

  /** The text between role and sector. */
  function Separator(role: string): string {
    if DropsSubSector(role) then "" else ", "
  }

  /** One signature line. It is blank exactly when both the role and the
      sector text are blank; for the two sentinel roles it is the role text
      followed directly by the sector text, and otherwise the role text, the
      subsector after a single space (when there is one), ", " and the
      sector text. */
  function SignatureLine(roleText: string, sectorText: string, role: string, subSector: string): (line: string)
    ensures line == "" <==> roleText == "" && sectorText == ""
    ensures DropsSubSector(role) ==> line == roleText + sectorText
    ensures !DropsSubSector(role) && line != "" ==>
              line == roleText + (if subSector != "" then " " + subSector else "") + ", " + sectorText
  {
    if roleText != "" || sectorText != "" then
      var shown := ShownSubSector(role, subSector);
      roleText + (if shown != "" then " " + shown else "") + Separator(role) + sectorText
    else
      ""
  }

  /** Reads the subsector back out of a line, knowing its role and sector
      texts: the text between the role text plus one space and the ", "
      before the sector text, or "" when the line is too short to hold one. */
  function SubSectorOf(line: string, roleText: string, sectorText: string): string {
    if |roleText| + 3 + |sectorText| <= |line| then line[|roleText| + 1..|line| - |sectorText| - 2] else ""
  }

  /** A non-blank line determines the subsector that was shown in it: the
      subsector for an ordinary role, and nothing for the two sentinel roles,
      whatever was typed. */
  lemma SubSectorRecoverable(roleText: string, sectorText: string, role: string, subSector: string)
    requires roleText != "" || sectorText != ""
    ensures SubSectorOf(SignatureLine(roleText, sectorText, role, subSector), roleText, sectorText)
            == ShownSubSector(role, subSector)
  {
  }

  /** The three lines, one per language in the order French, German, Italian. */
  function SignatureLines(roleTexts: Texts, sectorTexts: Texts, role: string, subSector: string): (lines: seq<string>)
    ensures |lines| == |SignatureOrder| == 3
    ensures forall i :: 0 <= i < 3 ==>
              lines[i] == SignatureLine(roleTexts.Get(SignatureOrder[i]), sectorTexts.Get(SignatureOrder[i]), role, subSector)
  {
    [ SignatureLine(roleTexts.fr, sectorTexts.fr, role, subSector),
      SignatureLine(roleTexts.de, sectorTexts.de, role, subSector),
      SignatureLine(roleTexts.it, sectorTexts.it, role, subSector) ]
  }

  /** For a sentinel role no line contains anything but role and sector text. */
  lemma SentinelLinesIgnoreSubSector(roleTexts: Texts, sectorTexts: Texts, role: string, subSector: string, other: string)
    requires DropsSubSector(role)
    ensures SignatureLines(roleTexts, sectorTexts, role, subSector) == SignatureLines(roleTexts, sectorTexts, role, other)
    ensures forall i :: 0 <= i < 3 ==>
              SignatureLines(roleTexts, sectorTexts, role, subSector)[i]
              == roleTexts.Get(SignatureOrder[i]) + sectorTexts.Get(SignatureOrder[i])
  {
  }

  /** The name paragraph: the first name, then " / " and the scout name when one is given. */
  function DisplayName(firstname: string, pfadiName: string): (name: string)
    ensures |firstname| <= |name| && name[..|firstname|] == firstname
    ensures name == firstname <==> pfadiName == ""
    ensures pfadiName != "" ==> name[|firstname|..] == " / " + pfadiName
  {
    firstname + (if pfadiName != "" then " / " + pfadiName else "")
  }

  /** The signature settings of the application configuration. */
  datatype SignatureConfig = SignatureConfig(logoPath: string, logoHeight: string, fontFamily: string,
                                             fontSize: string, websiteUrl: string)

  /** The content of the signature block, field by field. The texts are
      placed into the markup as they are: nothing is escaped. */
  datatype Signature = Signature(logoPath: string, logoHeight: string, fontFamily: string, fontSize: string,
                                 name: string, lines: seq<string>, phone: string, mail: string, website: string)
  {
    /** The three contact paragraphs below the lines. */
    function Contacts(): seq<string> {
      [phone, mail, website]
    }

    /** The paragraphs of the block in document order. */
    function Paragraphs(): seq<string> {
      [name] + lines + Contacts()
    }
  }

  /** `buildSignatureHTML`: looks up the texts for the submitted role, gender
      and sector, composes the three lines and fills the block. It throws
      exactly when the submitted role is in the table but lacks a language. */
  function BuildSignature(form: Form, cfg: SignatureConfig, roles: RoleTable, sectors: SectorTable): (r: Result<Signature>)
    ensures r.TypeError? <==>
              Interpolate(form, "role") in roles && exists l: Lang :: Code(l) !in roles[Interpolate(form, "role")]
    ensures r.Ok? ==>
              && |r.value.lines| == 3
              && r.value.name == DisplayName(Interpolate(form, "firstname"), OrEmpty(form, "pfadiName"))
              && r.value.phone == OrEmpty(form, "phone")
              && r.value.mail == OrEmpty(form, "mail")
              && r.value.website == cfg.websiteUrl
              && r.value.logoPath == cfg.logoPath && r.value.logoHeight == cfg.logoHeight
              && r.value.fontFamily == cfg.fontFamily && r.value.fontSize == cfg.fontSize
    ensures r.Ok? ==> forall i :: 0 <= i < 3 ==>
              var l := SignatureOrder[i];
              var role := Interpolate(form, "role");
              r.value.lines[i] == SignatureLine(RoleTranslations(roles, role, Interpolate(form, "gender")).value.Get(l),
                                                SectorTranslations(sectors, Interpolate(form, "Comission")).Get(l),
                                                role, OrEmpty(form, "subSector"))
  {
    var role := Interpolate(form, "role");
    var sector := Interpolate(form, "Comission");
    var subSector := OrEmpty(form, "subSector");
    var gender := Interpolate(form, "gender");
    match RoleTranslations(roles, role, gender)
    case TypeError => TypeError
    case Ok(roleTexts) =>
      var lines := SignatureLines(roleTexts, SectorTranslations(sectors, sector), role, subSector);
      Ok(Signature(cfg.logoPath, cfg.logoHeight, cfg.fontFamily, cfg.fontSize,
                   DisplayName(Interpolate(form, "firstname"), OrEmpty(form, "pfadiName")),
                   lines, OrEmpty(form, "phone"), OrEmpty(form, "mail"), cfg.websiteUrl))
  }

  /** Whatever the keys, the block always has seven paragraphs: the name,
      three signature lines, phone, e-mail and website. */
  lemma SevenParagraphs(form: Form, cfg: SignatureConfig, roles: RoleTable, sectors: SectorTable)
    requires BuildSignature(form, cfg, roles, sectors).Ok?
    ensures var p := BuildSignature(form, cfg, roles, sectors).value.Paragraphs();
            && |p| == 7
            && p[4] == OrEmpty(form, "phone") && p[5] == OrEmpty(form, "mail") && p[6] == cfg.websiteUrl
  {
  }

  /** With an unknown role and an unknown sector the block still renders,
      with three blank lines. */
  lemma UnknownKeysGiveBlankLines(form: Form, cfg: SignatureConfig, roles: RoleTable, sectors: SectorTable)
    requires Interpolate(form, "role") !in roles && Interpolate(form, "Comission") !in sectors
    ensures BuildSignature(form, cfg, roles, sectors).Ok?
    ensures BuildSignature(form, cfg, roles, sectors).value.lines == ["", "", ""]
  {
  }

  /** With an unknown sector the lines still carry the role text. */
  lemma UnknownSectorKeepsRole(form: Form, cfg: SignatureConfig, roles: RoleTable, sectors: SectorTable, i: nat)
    requires Interpolate(form, "Comission") !in sectors
    requires BuildSignature(form, cfg, roles, sectors).Ok? && i < 3
    ensures var roleText := RoleTranslations(roles, Interpolate(form, "role"), Interpolate(form, "gender")).value.Get(SignatureOrder[i]);
            var line := BuildSignature(form, cfg, roles, sectors).value.lines[i];
            && |roleText| <= |line| && line[..|roleText|] == roleText
            && (roleText == "" <==> line == "")
  {
    var role := Interpolate(form, "role");
    var l := SignatureOrder[i];
    var roleText := RoleTranslations(roles, role, Interpolate(form, "gender")).value.Get(l);
    var sectorText := SectorTranslations(sectors, Interpolate(form, "Comission")).Get(l);
    assert sectorText == "";
    var line := SignatureLine(roleText, sectorText, role, OrEmpty(form, "subSector"));
    assert BuildSignature(form, cfg, roles, sectors).value.lines[i] == line;
    LineStartsWithRole(roleText, sectorText, role, OrEmpty(form, "subSector"));
  }

  /** Every line begins with its role text. */
  lemma LineStartsWithRole(roleText: string, sectorText: string, role: string, subSector: string)
    ensures var line := SignatureLine(roleText, sectorText, role, subSector);
            |roleText| <= |line| && line[..|roleText|] == roleText
  {
  }

  // ----- Rendering -----

  function Para(text: string): string {
    "<p>" + text + "</p>"
  }

  function ParaSeq(texts: seq<string>): string {
    if texts == [] then "" else Para(texts[0]) + ParaSeq(texts[1..])
  }

  function Head(sig: Signature): string {
    "<table id=\"t01\"><tr><th><img src=\"" + sig.logoPath + "\" alt=\"Mova logo\" height=\"" + sig.logoHeight + "\"></th><th>"
  }

  const Tail: string := "</th></tr></table>"

  /** The total length of a list of texts. */
  function TotalLength(texts: seq<string>): nat {
    if texts == [] then 0 else |texts[0]| + TotalLength(texts[1..])
  }

  lemma {:induction false} ParaSeqLength(texts: seq<string>)
    ensures |ParaSeq(texts)| == 7 * |texts| + TotalLength(texts)
  {
    if texts != [] {
      ParaSeqLength(texts[1..]);
    }
  }

  lemma {:induction false} TotalLengthAppend(a: seq<string>, b: seq<string>)
    ensures TotalLength(a + b) == TotalLength(a) + TotalLength(b)
  {
    if a == [] {
      assert a + b == b;
    } else {
      assert (a + b)[0] == a[0];
      assert (a + b)[1..] == a[1..] + b;
      TotalLengthAppend(a[1..], b);
    }
  }

  /** The markup of a block with its inline styles left out. It opens with
      the logo header and closes the table, and it is exactly as long as the
      paragraph texts plus the fixed tags: seven characters of `<p>`/`</p>`
      per paragraph and two `<br>`. So every text is inserted as it is,
      with nothing escaped or dropped. */
  function Render(sig: Signature): (html: string)
    ensures |Head(sig)| + |Tail| <= |html|
    ensures html[..|Head(sig)|] == Head(sig)
    ensures html[|html| - |Tail|..] == Tail
    ensures |html| == |Head(sig)| + |Tail| + 8 + 7 * |sig.Paragraphs()| + TotalLength(sig.Paragraphs())
  {
    var html := Head(sig) + Para(sig.name) + "<br>" + ParaSeq(sig.lines) + "<br>" + ParaSeq(sig.Contacts()) + Tail;
    ParaSeqLength(sig.lines);
    ParaSeqLength(sig.Contacts());
    TotalLengthAppend([sig.name], sig.lines);
    TotalLengthAppend([sig.name] + sig.lines, sig.Contacts());
    assert TotalLength([sig.name]) == |sig.name|;
    html
  }

  lemma ConcatOccurs(a: string, m: string, b: string)
    ensures IsSubstring(a + m + b, m)
  {
    assert (a + m + b)[|a|..|a| + |m|] == m;
    assert OccursAt(a + m + b, m, |a|);
  }

  lemma SubstringOfPart(a: string, m: string, b: string, t: string)
    requires IsSubstring(m, t)
    ensures IsSubstring(a + m + b, t)
  {
    var i :| OccursAt(m, t, i);
    assert (a + m + b)[|a| + i..|a| + i + |t|] == m[i..i + |t|];
    assert OccursAt(a + m + b, t, |a| + i);
  }

  lemma {:induction false} ParaSeqContains(texts: seq<string>, k: nat)
    requires k < |texts|
    ensures IsSubstring(ParaSeq(texts), Para(texts[k]))
  {
    if k == 0 {
      ConcatOccurs("", Para(texts[0]), ParaSeq(texts[1..]));
      assert "" + Para(texts[0]) + ParaSeq(texts[1..]) == ParaSeq(texts);
    } else {
      ParaSeqContains(texts[1..], k - 1);
      SubstringOfPart(Para(texts[0]), ParaSeq(texts[1..]), "", Para(texts[k]));
      assert Para(texts[0]) + ParaSeq(texts[1..]) + "" == ParaSeq(texts);
    }
  }

  lemma NameRendered(sig: Signature)
    ensures IsSubstring(Render(sig), Para(sig.name))
  {
    var rest := "<br>" + ParaSeq(sig.lines) + "<br>" + ParaSeq(sig.Contacts()) + Tail;
    assert Render(sig) == Head(sig) + Para(sig.name) + rest;
    ConcatOccurs(Head(sig), Para(sig.name), rest);
  }

  lemma LineRendered(sig: Signature, k: nat)
    requires k < |sig.lines|
    ensures IsSubstring(Render(sig), Para(sig.lines[k]))
  {
    var before := Head(sig) + Para(sig.name) + "<br>";
    var after := "<br>" + ParaSeq(sig.Contacts()) + Tail;
    assert Render(sig) == before + ParaSeq(sig.lines) + after;
    ParaSeqContains(sig.lines, k);
    SubstringOfPart(before, ParaSeq(sig.lines), after, Para(sig.lines[k]));
  }

  lemma ContactRendered(sig: Signature, k: nat)
    requires k < 3
    ensures IsSubstring(Render(sig), Para(sig.Contacts()[k]))
  {
    var before := Head(sig) + Para(sig.name) + "<br>" + ParaSeq(sig.lines) + "<br>";
    assert Render(sig) == before + ParaSeq(sig.Contacts()) + Tail;
    ParaSeqContains(sig.Contacts(), k);
    SubstringOfPart(before, ParaSeq(sig.Contacts()), Tail, Para(sig.Contacts()[k]));
  }

  /** Every paragraph of the block appears in the markup verbatim, as its
      own `<p>` element: the name, each line, the phone, the e-mail and the
      website can all be read back unaltered. */
  lemma RenderedVerbatim(sig: Signature, k: nat)
    requires k < |sig.Paragraphs()|
    ensures IsSubstring(Render(sig), Para(sig.Paragraphs()[k]))
  {
    var n := |sig.lines|;
    if k == 0 {
      NameRendered(sig);
    } else if k <= n {
      assert sig.Paragraphs()[k] == sig.lines[k - 1];
      LineRendered(sig, k - 1);
    } else {
      assert sig.Paragraphs()[k] == sig.Contacts()[k - n - 1];
      ContactRendered(sig, k - n - 1);
    }
  }

  lemma PrefixOfParagraph(html: string, text: string, prefix: string)
    requires IsSubstring(html, Para(text))
    requires |prefix| <= |text| && text[..|prefix|] == prefix
    ensures IsSubstring(html, prefix)
  {
    var i :| OccursAt(html, Para(text), i);
    assert |Para(text)| == |text| + 7;
    var window := html[i..i + |Para(text)|];
    assert window == Para(text);
    assert window[3..3 + |prefix|] == prefix;
    forall k | 0 <= k < |prefix| ensures html[i + 3 + k] == prefix[k] {
      assert html[i + 3 + k] == window[3 + k];
    }
    assert html[i + 3..i + 3 + |prefix|] == prefix;
    assert OccursAt(html, prefix, i + 3);
  }

  /** The first name, phone and e-mail typed into the form reappear verbatim
      in the rendered markup. */
  lemma ContactFieldsSurviveRendering(form: Form, cfg: SignatureConfig, roles: RoleTable, sectors: SectorTable)
    requires BuildSignature(form, cfg, roles, sectors).Ok?
    ensures var html := Render(BuildSignature(form, cfg, roles, sectors).value);
            && IsSubstring(html, Interpolate(form, "firstname"))
            && IsSubstring(html, Para(OrEmpty(form, "phone")))
            && IsSubstring(html, Para(OrEmpty(form, "mail")))
  {
    var sig := BuildSignature(form, cfg, roles, sectors).value;
    NameRendered(sig);
    PrefixOfParagraph(Render(sig), sig.name, Interpolate(form, "firstname"));
    ContactRendered(sig, 0);
    ContactRendered(sig, 1);
  }
}
