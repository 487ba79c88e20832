/** The role and sector translation tables and the lookups the composer and
    the option lists make into them. Unknown keys degrade to empty text; a
    role entry that lacks a language, however, makes the lookup throw. */
module Translations {
  import opened Outcomes
  import opened Languages

  /** role key -> language code -> gender key -> role name */
  type RoleTable = map<string, map<string, map<string, string>>>

  /** sector key -> language code -> sector name */
  type SectorTable = map<string, map<string, string>>

  /** One text per signature language. */
  datatype Texts = Texts(fr: string, de: string, it: string) {
    function Get(l: Lang): string {
      match l
      case Fr => fr
      case De => de
      case It => it
    }
  }

  const NoTexts: Texts := Texts("", "", "")

  /** `table[key] || ''` on a table of strings. */
  function EntryOrEmpty(table: map<string, string>, key: string): string {
    if key in table then table[key] else ""
  }

  /** The role's name in every language for the given gender. An unknown
      role yields empty text everywhere; a known role whose entry lacks one
      of the three languages throws. */
  function RoleTranslations(roles: RoleTable, role: string, gender: string): (r: Result<Texts>)
    ensures role !in roles ==> r == Ok(NoTexts)
    ensures role in roles ==>
      (r.Ok? <==> forall l: Lang :: Code(l) in roles[role])
    ensures role in roles && r.Ok? ==>
      forall l: Lang :: r.value.Get(l) == EntryOrEmpty(roles[role][Code(l)], gender)
  {
    if role !in roles then
      Ok(NoTexts)
    else
      var byLang := roles[role];
      if "fr" in byLang && "de" in byLang && "it" in byLang then
        Ok(Texts(EntryOrEmpty(byLang["fr"], gender),
                 EntryOrEmpty(byLang["de"], gender),
                 EntryOrEmpty(byLang["it"], gender)))
      else
        assert Code(if "fr" !in byLang then Fr else if "de" !in byLang then De else It) !in byLang;
        TypeError
  }

  /** The sector's name in every language; an unknown sector or a missing
      language yields empty text, never an error. */
  function SectorTranslations(sectors: SectorTable, sector: string): (r: Texts)
    ensures sector !in sectors ==> r == NoTexts
    ensures forall l: Lang ::
              r.Get(l) == (if sector in sectors then EntryOrEmpty(sectors[sector], Code(l)) else "")
  {
    if sector !in sectors then
      NoTexts
    else
      var byLang := sectors[sector];
      Texts(EntryOrEmpty(byLang, "fr"), EntryOrEmpty(byLang, "de"), EntryOrEmpty(byLang, "it"))
  }

  /** The German display names of the known role keys. */
  const GermanRoleNames: map<string, string> := map[
    "Responsable de camp" := "Lagerleiter",
    "Responsable de commission" := "Ressortleiter",
    "Responsable de sous commission" := "Bereichsleiter",
    "Responsable de sous sous commission" := "Teilbereichsleiter",
    "Colaborateur" := "Mitarbeiter",
    "none" := "-"
  ]

  /** `roleMap[roleKey] || roleKey`: the German display name of a known
      role key, and any other key unchanged. */
  function GermanRoleDisplayName(roleKey: string): (name: string)
    ensures roleKey in GermanRoleNames ==> name == GermanRoleNames[roleKey]
    ensures roleKey !in GermanRoleNames ==> name == roleKey
  {
    if roleKey in GermanRoleNames && GermanRoleNames[roleKey] != "" then
      GermanRoleNames[roleKey]
    else
      roleKey
  }

  /** The six known keys map to pairwise different, non-empty names. */
  lemma GermanNamesDistinct(a: string, b: string)
    requires a in GermanRoleNames && b in GermanRoleNames && a != b
    ensures GermanRoleDisplayName(a) != GermanRoleDisplayName(b)
    ensures GermanRoleDisplayName(a) != ""
  {
  }

  /** "none" is shown as a dash, and a name that is not a key is its own display name. */
  lemma NoneShownAsDash()
    ensures GermanRoleDisplayName("none") == "-"
    ensures GermanRoleDisplayName("Colaborateur") == "Mitarbeiter"
    ensures GermanRoleDisplayName("Mitarbeiter") == "Mitarbeiter"
  {
  }

  /** A lenient reference lookup, `roles[role]?.[lang]?.[gender] ?? ''`:
      anything missing on the way reads as the empty string. */
  function LenientRoleText(roles: RoleTable, role: string, l: Lang, gender: string): string {
    if role in roles && Code(l) in roles[role] && gender in roles[role][Code(l)]
    then roles[role][Code(l)][gender]
    else ""
  }

  /** The role lookup agrees with the lenient reference whenever it returns,
      and it throws exactly where the reference would quietly give '' for a
      known role because that role lacks a language. */
  lemma RoleTranslationsVersusLenient(roles: RoleTable, role: string, gender: string)
    ensures RoleTranslations(roles, role, gender).Ok? ==>
              forall l: Lang :: RoleTranslations(roles, role, gender).value.Get(l) == LenientRoleText(roles, role, l, gender)
    ensures RoleTranslations(roles, role, gender).TypeError? <==>
              role in roles && exists l: Lang :: Code(l) !in roles[role] && LenientRoleText(roles, role, l, gender) == ""
  {
    var r := RoleTranslations(roles, role, gender);
    if r.Ok? {
      forall l: Lang ensures r.value.Get(l) == LenientRoleText(roles, role, l, gender) {
        if role in roles {
          assert r.value.Get(l) == EntryOrEmpty(roles[role][Code(l)], gender);
        }
      }
    }
  }

  /** `table` with the sector's name in one language set to `name`. */
  function SetSectorName(sectors: SectorTable, sector: string, l: Lang, name: string): SectorTable {
    var byLang := if sector in sectors then sectors[sector] else map[];
    sectors[sector := byLang[Code(l) := name]]
  }

  /** Each sector text depends only on its own table entry: setting one
      sector's name in one language changes that text alone. */
  lemma SectorLookupLocal(sectors: SectorTable, sector: string, l: Lang, name: string)
    ensures SectorTranslations(SetSectorName(sectors, sector, l, name), sector).Get(l) == name
    ensures forall l': Lang :: l' != l ==>
              SectorTranslations(SetSectorName(sectors, sector, l, name), sector).Get(l')
              == (if sector in sectors then SectorTranslations(sectors, sector).Get(l') else "")
    ensures forall other :: other != sector ==>
              SectorTranslations(SetSectorName(sectors, sector, l, name), other) == SectorTranslations(sectors, other)
  {
    var updated := SetSectorName(sectors, sector, l, name);
    forall l': Lang | l' != l
      ensures SectorTranslations(updated, sector).Get(l')
              == (if sector in sectors then SectorTranslations(sectors, sector).Get(l') else "")
    {
      assert Code(l') != Code(l);
    }
  }

  /** Unknown role and sector keys contribute nothing in any language. */
  lemma UnknownKeysAreBlank(roles: RoleTable, sectors: SectorTable, role: string, gender: string, sector: string)
    requires role !in roles && sector !in sectors
    ensures RoleTranslations(roles, role, gender).Ok?
    ensures forall l: Lang :: RoleTranslations(roles, role, gender).value.Get(l) == ""
    ensures forall l: Lang :: SectorTranslations(sectors, sector).Get(l) == ""
  {
  }
}
