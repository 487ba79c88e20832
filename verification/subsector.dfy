/** The subsector input's reaction to a change of the selected role. */
module SubSector {
  import opened Outcomes
  import opened Composer

  /** The subsector input: whether it is displayed, and what it holds. */
  datatype SubSectorInput = SubSectorInput(visible: bool, value: string)

  /** `handleRoleChange`: the commission-lead role hides and clears the
      input; every other role shows it and keeps what it holds. A page
      without the input is left alone. */
  function HandleRoleChange(input: Option<SubSectorInput>, role: string): (r: Option<SubSectorInput>)
    ensures r.None? <==> input.None?
    ensures input.Some? && role == CommissionLead ==> r.value == SubSectorInput(false, "")
    ensures input.Some? && role != CommissionLead ==> r.value == input.value.(visible := true)
  {
    match input
    case None => None
    case Some(field) =>
      if role == CommissionLead then Some(SubSectorInput(false, "")) else Some(field.(visible := true))
  }

  /** Selecting the same role twice is the same as selecting it once. */
  lemma RoleChangeIdempotent(input: Option<SubSectorInput>, role: string)
    ensures HandleRoleChange(HandleRoleChange(input, role), role) == HandleRoleChange(input, role)
  {
  }

  /** Selecting the commission lead erases the input whatever was selected before. */
  lemma CommissionLeadErasesHistory(input: SubSectorInput, earlier: string)
    ensures HandleRoleChange(HandleRoleChange(Some(input), earlier), CommissionLead)
            == HandleRoleChange(Some(input), CommissionLead)
  {
  }

  /** Text erased by the commission lead is not restored when another role
      is selected afterwards: the input reappears empty. */
  lemma ErasedTextNotRestored(input: SubSectorInput, later: string)
    requires later != CommissionLead
    ensures HandleRoleChange(HandleRoleChange(Some(input), CommissionLead), later) == Some(SubSectorInput(true, ""))
  {
  }

  /** For the commission lead the input and the composer agree: the input is
      emptied, and the lines would drop whatever it held anyway. */
  lemma CommissionLeadAgrees(input: SubSectorInput, typed: string)
    ensures HandleRoleChange(Some(input), CommissionLead).value.value == ""
    ensures ShownSubSector(CommissionLead, typed) == ""
  {
  }

  /** For role "none" the two disagree: the input stays visible and keeps
      its text, yet the composed lines leave that text out. */
  lemma NoneRoleShowsInputButLinesDropIt(input: SubSectorInput)
    requires input.value != ""
    ensures HandleRoleChange(Some(input), NoRole).value.visible
    ensures HandleRoleChange(Some(input), NoRole).value.value == input.value
    ensures ShownSubSector(NoRole, HandleRoleChange(Some(input), NoRole).value.value) == ""
  {
  }

  /** For any other role, a visible subsector is the one shown in the lines. */
  lemma OrdinaryRoleShowsInput(input: SubSectorInput, role: string)
    requires !DropsSubSector(role)
    ensures HandleRoleChange(Some(input), role).value.visible
    ensures ShownSubSector(role, HandleRoleChange(Some(input), role).value.value) == input.value
  {
  }
}
