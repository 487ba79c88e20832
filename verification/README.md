# Email-signature generator — Dafny model

This project models the pure logic of `SignatureGenerator`, the browser controller of a form-to-signature
tool for a scout camp organisation. A user picks a role, a gender and a sector (commission), types a
subsector, a first name, a scout name, a phone number and an e-mail address, and the tool composes a
signature block. The block holds three role/sector lines, one each in French, German and Italian.

The model covers these parts of the controller:

- **Language detection** (`Languages`). A language-switch link is classified as `fr`, `it` or `de` by
  substring.
- **Translation lookups** (`Translations`). These are the role table (role → language → gender → name), the
  sector table (sector → language → name), and the fixed German display names of the role keys.
- **Form validation** (`Validation`). Required fields are checked in configured order, after JavaScript
  `trim()`. Then the e-mail pattern is checked, then the phone pattern.
- **Signature composition** (`Composer`). It builds the three lines with their separator and subsector
  policy, and the name paragraph. It then builds the content of the signature block and a rendering of
  that block with its styles left out.
- **Subsector visibility** (`SubSector`). Changing the role hides and clears the subsector input, or
  shows it.
- **Submission** (`Generator`). The form is validated, and then the signature is composed.

The support modules are these:

- `Strings` models `String.prototype.includes` and `String.prototype.trim`, the latter with the
  ECMAScript whitespace set.
- `Forms` models how a missing form field reads: it reads as `undefined`, which a template literal
  prints as the text "undefined".
- `Outcomes` holds `Option` and a `Result` whose failure is a thrown `TypeError`.

The regular-expression engine is not modelled. Validation takes a parameter `test(pattern, s)` that
stands for `new RegExp(pattern).test(s)`.

Points where the code behaves differently from what one might expect:

- A role entry that lacks one of the three languages makes the role lookup **throw**. The code reads
  `roleData.fr[gender]` without a guard. Only unknown keys, missing genders and missing sector languages
  degrade to `''`.
- Language detection is **not** case-insensitive. Only `fr`/`FR` and `it`/`IT` are recognised, so `"Fr"`
  gives `de`.
- `RegExp.test` searches for a match anywhere in the text; it does not require the whole text to
  match. The lemma `Validation.UnanchoredSearchAcceptsContainingText` shows the consequence for an
  e-mail pattern without `^`/`$` anchors: a mail field passes as soon as it contains an address the
  pattern accepts. The configured pattern itself is not part of the model, so whether the deployed
  pattern is anchored is left open.
- The required-field list is read from `config.form.validation.required`.
- Two different sentinels are kept as written. The composer drops the subsector and the `", "`
  separator for both `'Responsable de commission'` and `'none'`. The subsector input is hidden only for
  `'Responsable de commission'`.

## Model

| member | source | states |
|---|---|---|
| Strings.Includes | src/js/main.js:67-68 | `s.includes(t)` is true exactly when `t` occurs as a contiguous piece of `s` |
| Strings.Trim | src/js/main.js:189 | `trim()` returns a piece of the input with no whitespace at either end; it is empty exactly when the input is all ECMAScript whitespace |
| Strings.TrimRemovesOnlyEdges | src/js/main.js:189 | the trimmed text sits in the input with only whitespace before it and only whitespace after it, so only leading and trailing whitespace is removed |
| Languages.LangFromHref | src/js/main.js:66-70 | the result is `fr` iff the link contains "FR" or "fr"; `it` iff not French and it contains "IT" or "it"; `de` iff it contains neither |
| Languages.CodeRoundTrip | src/js/main.js:66-70 | a language's own code ("fr", "de", "it") is classified as that language |
| Languages.FrenchTakesPrecedence | src/js/main.js:67-68 | a link that mentions both French and Italian is classified as French |
| Languages.MixedCaseIsGerman | src/js/main.js:67-69 | the mixed-case "Fr" is not recognised and falls back to German |
| Translations.RoleTranslations | src/js/main.js:286-295 | unknown role: empty text in all three languages; known role: throws exactly when one of the three language entries is missing, and otherwise gives, per language, the gender's entry or `''` when the gender is missing |
| Translations.SectorTranslations | src/js/main.js:297-306 | per language, the sector's entry, or `''` when the sector or that language is missing; it never throws |
| Translations.RoleTranslationsVersusLenient | src/js/main.js:286-295 | whenever the role lookup returns, it agrees in every language with the lenient lookup that reads anything missing as `''`; it throws exactly when the role is known but lacks a language, where the lenient lookup would give `''` |
| Translations.SectorLookupLocal | src/js/main.js:297-306 | setting one sector's name in one language changes that sector's text in that language to the new name, leaves its other languages as they were, and leaves every other sector unchanged |
| Translations.GermanRoleDisplayName | src/js/main.js:145-155 | the six listed keys give their German names, and any other key is returned unchanged |
| Translations.GermanNamesDistinct | src/js/main.js:146-153 | the six display names are non-empty and pairwise different, so the fallback to the key itself never applies to a listed key |
| Translations.NoneShownAsDash | src/js/main.js:145-155 | `'none'` is shown as `'-'`, `'Colaborateur'` as `'Mitarbeiter'`, and an unlisted key such as `'Mitarbeiter'` as itself |
| Translations.UnknownKeysAreBlank | src/js/main.js:286-306 | an unknown role and an unknown sector give `''` in every language, without throwing |
| Validation.BlankMeansWhitespace | src/js/main.js:189 | a field counts as missing exactly when it is absent or consists of whitespace only |
| Validation.RequiredErrors | src/js/main.js:187-192 | there are no more messages than listed fields, and there are none iff no listed field is blank |
| Validation.RequiredErrorsComplete | src/js/main.js:188-191 | every blank listed field has its `"<field> is required"` message |
| Validation.RequiredErrorsSound | src/js/main.js:188-191 | every message is the `"<field> is required"` message of a blank listed field |
| Validation.RequiredErrorsAppend | src/js/main.js:188-192 | the messages for `a + b` are those for `a` followed by those for `b`, so the messages keep the configured field order |
| Validation.RequiredErrorsSingle | src/js/main.js:189-191 | one field yields its message once if it is blank and nothing otherwise |
| Validation.PatternErrorsAreNotRequiredMessages | src/js/main.js:190-201 | no `"<field> is required"` message equals either pattern error text |
| Validation.PatternErrorsNotAmongRequired | src/js/main.js:188-201 | the required-field messages never contain either pattern error |
| Validation.Validate | src/js/main.js:184-205 | required-field messages come first; "Invalid email format" appears iff the mail is non-empty and fails its test; "Invalid phone format" appears iff the phone is non-empty and fails its test; when both appear they close the list in that order; the list is exactly as long as the required-field messages plus one per failing pattern, so nothing else is added |
| Validation.OneEmailError | src/js/main.js:194-202 | with a bad mail and an acceptable or empty phone, the list is exactly the required-field messages followed by one "Invalid email format" |
| Validation.ValidIff | src/js/main.js:184-205 | no errors iff every required field is non-blank and every non-empty mail and phone passes its test |
| Validation.EmptyContactNeverReported | src/js/main.js:194-202 | with an empty or absent mail and phone, only required-field messages can appear, whatever the patterns |
| Validation.UnanchoredSearchAcceptsContainingText | src/js/main.js:194-197 | when `test` is a search, a mail that merely contains an accepted address raises no e-mail error |
| Composer.SignatureLine | src/js/main.js:253-261 | a line is blank iff both texts are blank; for the two sentinel roles it is role text then sector text; otherwise it is role text, then `" " + subSector` when non-empty, then `", "`, then sector text |
| Composer.SubSectorRecoverable | src/js/main.js:241-257 | from a non-blank line and its role and sector texts, one can read back the subsector shown, and that is nothing for the sentinel roles |
| Composer.SignatureLines | src/js/main.js:249-262 | exactly three lines, the i-th built from the texts of the i-th language of French, German, Italian |
| Composer.SentinelLinesIgnoreSubSector | src/js/main.js:241-247 | for `'Responsable de commission'` and `'none'`, the lines do not depend on the subsector and each is role text followed by sector text |
| Composer.DisplayName | src/js/main.js:271 | the name starts with the first name; it equals the first name iff the scout name is empty, and otherwise continues with `" / " + pfadiName` |
| Composer.BuildSignature | src/js/main.js:230-284 | throws iff the role is known but lacks a language; otherwise three lines from the looked-up texts, the display name, phone and mail (or `''`), and the configured website, logo and font |
| Composer.SevenParagraphs | src/js/main.js:271-279 | the block always has seven paragraphs: name, three lines, and then phone, mail and website in that order |
| Composer.UnknownKeysGiveBlankLines | src/js/main.js:236-262 | with an unknown role and an unknown sector the block still renders, with three blank lines |
| Composer.UnknownSectorKeepsRole | src/js/main.js:253-258 | with an unknown sector each line begins with the role text, and it is blank iff the role text is |
| Composer.LineStartsWithRole | src/js/main.js:257 | every line begins with its role text |
| Composer.Render | src/js/main.js:264-283 | the markup opens with the logo header and ends by closing the table, and its length is exactly the paragraph texts plus seven tag characters per paragraph and two `<br>`: every text is inserted raw, nothing escaped or dropped (inline styles left out) |
| Composer.NameRendered | src/js/main.js:271 | the name paragraph appears verbatim in the markup |
| Composer.LineRendered | src/js/main.js:273-275 | each signature line appears verbatim in the markup as its own paragraph |
| Composer.ContactRendered | src/js/main.js:277-279 | the phone, mail and website paragraphs appear verbatim in the markup |
| Composer.RenderedVerbatim | src/js/main.js:264-283 | every paragraph of the block appears unaltered, with no escaping, as a `<p>` element of the markup |
| Composer.ContactFieldsSurviveRendering | src/js/main.js:271-278 | the submitted first name, phone and mail can be found verbatim in the markup |
| SubSector.HandleRoleChange | src/js/main.js:171-182 | with no input nothing happens; `'Responsable de commission'` hides the input and empties it; any other role shows it and keeps its value |
| SubSector.RoleChangeIdempotent | src/js/main.js:171-182 | selecting the same role twice has the effect of selecting it once |
| SubSector.CommissionLeadErasesHistory | src/js/main.js:176-178 | after `'Responsable de commission'` the input is hidden and empty, whatever role came before |
| SubSector.ErasedTextNotRestored | src/js/main.js:176-181 | text erased by `'Responsable de commission'` does not come back when another role is chosen: the input reappears empty |
| SubSector.CommissionLeadAgrees | src/js/main.js:176-178 | for `'Responsable de commission'` the input is emptied, and the lines would drop any subsector anyway |
| SubSector.NoneRoleShowsInputButLinesDropIt | src/js/main.js:244-247 | for role `'none'` the input stays visible and keeps its text, yet the composed lines leave that text out |
| SubSector.OrdinaryRoleShowsInput | src/js/main.js:179-181 | for any non-sentinel role the input is visible and its text is exactly the subsector shown in the lines |
| Generator.Submit | src/js/main.js:207-228 | the submission is refused with the generic notice iff validation reports errors; it crashes iff the form is valid and the role lookup throws; otherwise it displays the composed signature |
| Generator.DisplayedMeansValid | src/js/main.js:216-224 | a displayed signature comes from a form whose required fields are all filled in and whose non-empty mail and phone passed their tests, and it has three lines |

## Left out

- `loadConfigurations` and `init` (src/js/main.js:9-36) are left out. They are asynchronous `fetch` and JSON parsing. The configuration and the tables are parameters instead.
- `setupEventListeners`, `updateLanguage`, `updateUIText`, `updateRoleOptions`, `updateSectorOptions` and `displaySignature` are left out because they query and change the DOM. Note that `updateRoleOptions` always shows the German display name, whatever the current language (src/js/main.js:137-139).
- `copySignatureHTML`, `resetForm`, `showError`, `showSuccess` and `showNotification` are left out. They use the clipboard, page reload, DOM and timers.
- The regular-expression engine is left out: `test` is an uninterpreted parameter. A pattern that `new RegExp` rejects with a `SyntaxError` is not modelled.
- The markup is modelled as the `Signature` content fields plus a rendering without inline CSS and layout whitespace. As in the code, the rendering inserts every text raw, with no HTML escaping.
- Translations.GermanRoleDisplayName: keys inherited from `Object.prototype` (such as `"toString"`) are not modelled. The tables and the role map are plain finite maps, so such a key behaves like any other unknown key.
- Translations.RoleTranslations: table values are strings only. A JSON value of another type (a number, `null`) cannot be represented.
- Strings.Trim: characters are Unicode scalar values, so JavaScript strings holding lone UTF-16 surrogates are not represented.
