/** The project detail page (src/pages/ProjectDetail.tsx): the route id, who may change the
    status, the guards in front of the status and delete requests, and the small formatting
    helpers. The page reads the server's project record and a signed-in user with a numeric
    id, as it expects them. */
module ProjectDetail {
  import opened Wrappers
  import opened Types
  import opened Text
  import opened Dto

  /** A JavaScript value that is `undefined`, `NaN` or a number. */
  datatype NumberValue = Undefined | NaN | Num(n: int)

  /** `idString ? parseInt(idString, 10) : undefined`. */
  function RouteId(idString: Option<string>): (r: NumberValue)
    ensures !TruthyString(idString) <==> r == Undefined
    ensures TruthyString(idString) ==>
      (r == NaN <==> ParseInt(idString.value).None?) &&
      (r.Num? ==> ParseInt(idString.value) == Some(r.n))
  {
    if !TruthyString(idString) then Undefined
    else match ParseInt(idString.value)
      case None => NaN
      case Some(n) => Num(n)
  }

  /** `!!id`: `undefined`, `NaN` and 0 are falsy. */
  predicate Truthy(id: NumberValue)
  {
    id.Num? && id.n != 0
  }

  /** The project query runs only for a defined id that is a number: `!!id && !isNaN(id)`. */
  predicate QueryEnabled(id: NumberValue)
  {
    Truthy(id) && !id.NaN?
  }

  /** A route id written as a positive number always enables the query. */
  lemma PositiveRouteIdEnablesQuery(n: nat)
    requires n > 0
    ensures RouteId(Some(NatToString(n))) == Num(n)
    ensures QueryEnabled(RouteId(Some(NatToString(n))))
  {
    ParseIntOfNatToString(n);
  }

  /** `project?.assignedToId`, and `currentUser?.id`, as JavaScript values: a missing record gives
      `undefined`, a server `null` gives `null`. */
  datatype IdValue = UndefinedId | NullId | IdNum(n: int)

  function AssigneeIdValue(project: Option<ProjectDto>): IdValue
  {
    if project.None? then UndefinedId
    else if project.value.assignedToId.None? then NullId
    else IdNum(project.value.assignedToId.value)
  }

  function UserIdValue(currentUserId: Option<int>): IdValue
  {
    if currentUserId.None? then UndefinedId else IdNum(currentUserId.value)
  }

  /** `canUpdateStatus = isManager || project?.assignedToId === currentUser?.id`. */
  function CanUpdateStatus(isManager: bool, project: Option<ProjectDto>, currentUserId: Option<int>): (r: bool)
  {
    isManager || AssigneeIdValue(project) == UserIdValue(currentUserId)
  }

  /** The intended rule, for a loaded project and the signed-in user's numeric id: a manager may
      always change the status, anybody else only when the project is assigned to them. An
      unassigned project (`null`) is nobody's. */
  lemma CanUpdateStatusOfLoadedProject(isManager: bool, p: ProjectDto, currentUserId: Option<int>)
    ensures CanUpdateStatus(isManager, Some(p), currentUserId) <==>
            isManager || (currentUserId.Some? && p.assignedToId == currentUserId)
  {
  }

  /** As written, `useAuth()` provides no `currentUser` (the context holds `user`), so its id is
      `undefined`, which no loaded project's assignee equals: only managers may change a status. */
  lemma {:induction false} StatusUpdateManagersOnly(isManager: bool, p: ProjectDto)
    ensures CanUpdateStatus(isManager, Some(p), None) <==> isManager
  {
    assert UserIdValue(None) == UndefinedId;
    assert AssigneeIdValue(Some(p)) != UndefinedId;
  }

  /** `handleUpdateStatus`: the request `(id, status)` it sends, if any. */
  function UpdateStatusRequest(updatedStatus: Option<ProjectStatus>, id: NumberValue): (r: Option<(int, ProjectStatus)>)
    ensures r.Some? <==> updatedStatus.Some? && Truthy(id)
    ensures r.Some? ==> r.value == (id.n, updatedStatus.value)
  {
    if updatedStatus.Some? && Truthy(id) then Some((id.n, updatedStatus.value)) else None
  }

  /** `handleDeleteProject`: the id it deletes, if any. */
  function DeleteRequest(id: NumberValue): (r: Option<int>)
    ensures r.Some? <==> Truthy(id)
    ensures r.Some? ==> r.value == id.n && r.value != 0
  {
    if Truthy(id) then Some(id.n) else None
  }

  /** Id 0 (the route "/projects/0") never sends a status change or a delete. */
  lemma ZeroIdSendsNothing(status: Option<ProjectStatus>)
    ensures UpdateStatusRequest(status, RouteId(Some("0"))) == None
    ensures DeleteRequest(RouteId(Some("0"))) == None
  {
    assert TrimStart("0") == "0";
    assert LeadingDigits("0") == "0";
  }

  /** `formatDate`: "N/A" for a missing or empty string; otherwise the formatted date, or the
      string itself when formatting throws (`format` returns `None`). */
  function FormatDate(dateString: Option<string>, format: string -> Option<string>): (r: string)
    ensures !TruthyString(dateString) ==> r == "N/A"
    ensures TruthyString(dateString) && format(dateString.value).None? ==> r == dateString.value
    ensures TruthyString(dateString) && format(dateString.value).Some? ==> r == format(dateString.value).value
  {
    if !TruthyString(dateString) then "N/A"
    else match format(dateString.value)
      case None => dateString.value
      case Some(s) => s
  }

  /** `firstName?.[0] || ""`. */
  function FirstLetter(name: Option<string>): (r: string)
    ensures |r| <= 1
    ensures TruthyString(name) ==> r == [name.value[0]]
  {
    if TruthyString(name) then [name.value[0]] else ""
  }

  /** `getInitials(firstName, lastName)`: the two first letters upper-cased, or "?" when both
      names are missing or empty. */
  function DetailInitials(firstName: Option<string>, lastName: Option<string>): (r: string)
    ensures !TruthyString(firstName) && !TruthyString(lastName) ==> r == "?"
    ensures TruthyString(firstName) && TruthyString(lastName) ==>
      r == [UpperChar(firstName.value[0]), UpperChar(lastName.value[0])]
    ensures 1 <= |r| <= 2
  {
    var letters := Upper(FirstLetter(firstName) + FirstLetter(lastName));
    if letters == "" then "?" else letters
  }

  /** The controls of the page header. */
  datatype Control = UpdateStatus | Edit | Delete

  /** "Update Status" for whoever may change the status; "Edit" and "Delete" for managers only. */
  function Controls(isManager: bool, canUpdateStatus: bool): (r: set<Control>)
    ensures UpdateStatus in r <==> canUpdateStatus
    ensures Edit in r <==> isManager
    ensures Delete in r <==> isManager
  {
    (if canUpdateStatus then {UpdateStatus} else {}) + (if isManager then {Edit, Delete} else {})
  }

  /** A manager always sees all three controls. */
  lemma ManagerSeesEverything(project: Option<ProjectDto>, currentUserId: Option<int>)
    ensures Controls(true, CanUpdateStatus(true, project, currentUserId)) == {UpdateStatus, Edit, Delete}
  {
  }
}
