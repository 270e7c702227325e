/** The project card (src/components/projects/project-card.tsx): the assignee's avatar initials
    and the name shown beside it. */
module ProjectCard {
  import opened Wrappers
  import opened Types
  import opened Text

  /** `getInitials(name?)`: "?" for a missing or empty name, otherwise the shared initials rule. */
  function CardInitials(name: Option<string>): (r: string)
    ensures !TruthyString(name) ==> r == "?"
    ensures TruthyString(name) ==> |r| <= 2 && r == Initials(name.value)
  {
    if !TruthyString(name) then "?" else Initials(name.value)
  }

  /** The "Assigned To" column: the first word of the assignee's name, or "Unassigned". */
  function AssigneeLabel(p: Project): (r: string)
    ensures p.assignedTo.None? ==> r == "Unassigned"
    ensures p.assignedTo.Some? ==>
      ' ' !in r && |r| <= |p.assignedTo.value.name| && r == p.assignedTo.value.name[..|r|] &&
      (|r| < |p.assignedTo.value.name| ==> p.assignedTo.value.name[|r|] == ' ')
  {
    if p.assignedTo.None? then "Unassigned" else FirstToken(p.assignedTo.value.name)
  }
}
