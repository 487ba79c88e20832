/** A form submission: validation, then composition of the signature. */
module Generator {
  import opened Outcomes
  import opened Forms
  import opened Translations
  import opened Validation
  import opened Composer

  /** The single notice shown for any validation failure. */
  const FailureNotice: string := "Please fill in all required fields correctly"

  /** What a submission leads to: the failure notice, the signature block,
      or an uncaught `TypeError` from the role lookup. */
  datatype Submission = Refused(notice: string) | Displayed(signature: Signature) | Crashed

  /** `generateSignature` with the DOM parts taken out. */
  function Submit(form: Form, vcfg: ValidationConfig, scfg: SignatureConfig,
                  roles: RoleTable, sectors: SectorTable, test: (string, string) -> bool): (r: Submission)
    ensures r.Refused? <==> Validate(form, vcfg, test) != []
    ensures r.Refused? ==> r.notice == FailureNotice
    ensures r.Crashed? <==> Validate(form, vcfg, test) == [] && BuildSignature(form, scfg, roles, sectors).TypeError?
    ensures r.Displayed? ==> BuildSignature(form, scfg, roles, sectors) == Ok(r.signature)
  {
    if Validate(form, vcfg, test) != [] then
      Refused(FailureNotice)
    else
      match BuildSignature(form, scfg, roles, sectors)
      case TypeError => Crashed
      case Ok(sig) => Displayed(sig)
  }

  /** A displayed signature was built from a form whose required fields are
      all filled in and whose non-empty e-mail and phone passed their tests. */
  lemma DisplayedMeansValid(form: Form, vcfg: ValidationConfig, scfg: SignatureConfig,
                            roles: RoleTable, sectors: SectorTable, test: (string, string) -> bool)
    requires Submit(form, vcfg, scfg, roles, sectors, test).Displayed?
    ensures forall i :: 0 <= i < |vcfg.required| ==> !IsBlank(form, vcfg.required[i])
    ensures Truthy(form, "mail") ==> test(vcfg.emailPattern, form["mail"])
    ensures Truthy(form, "phone") ==> test(vcfg.phonePattern, form["phone"])
    ensures |Submit(form, vcfg, scfg, roles, sectors, test).signature.lines| == 3
  {
  }
}
