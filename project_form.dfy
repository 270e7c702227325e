/** The create/edit project form (src/pages/ProjectForm.tsx): the validation schema, the default
    values, filling the form from an existing project, and the request it submits. Calendar
    dates are day numbers counted from 1970-01-01; `formatDay` is `format(date, "yyyy-MM-dd")`
    and `dateOf` is `new Date(s)` for a string. */
module ProjectForm {
  import opened Wrappers
  import opened Types
  import opened Text
  import opened Dto

  /** A date field: not picked, an invalid `Date`, or a day. */
  datatype FormDate = NoDate | InvalidDate | Day(day: int)

  /** A text field's value: `undefined`, `null` (a JSON `null` copied from the server), or text. */
  datatype FormText = Undefined | Null | Text(text: string)

  datatype FormValues = FormValues(
    name: string,
    description: FormText,
    startDate: FormDate,
    endDate: FormDate,
    assignedToId: Option<int>,
    priority: Option<PriorityLevel>)

  datatype FieldError = FieldError(field: string, message: string)

  /** A form that passed the schema. */
  datatype ValidForm = ValidForm(
    name: string,
    description: Option<string>,
    startDate: int,
    endDate: int,
    assignedToId: Option<int>,
    priority: PriorityLevel)

  function DateErrors(field: string, d: FormDate, required: string): (r: seq<FieldError>)
    ensures r == [] <==> d.Day?
  {
    match d
    case NoDate => [FieldError(field, required)]
    case InvalidDate => [FieldError(field, "Invalid date")]
    case Day(_) => []
  }

  /** The error of `z.string().optional()` for a `null` value. */
  const NullDescription := FieldError("description", "Expected string, received null")

  /** The field checks of the object schema, in field order. */
  function FieldErrors(v: FormValues): (r: seq<FieldError>)
    ensures r == [] <==>
      3 <= |v.name| <= 100 && !v.description.Null? && v.startDate.Day? && v.endDate.Day? &&
      v.priority.Some?
  {
    (if |v.name| < 3 then [FieldError("name", "Project name must be at least 3 characters")]
     else if |v.name| > 100 then [FieldError("name", "String must contain at most 100 character(s)")]
     else []) +
    (if v.description.Null? then [NullDescription] else []) +
    DateErrors("startDate", v.startDate, "Start date is required.") +
    DateErrors("endDate", v.endDate, "End date is required.") +
    (if v.priority.None? then [FieldError("priority", "Priority is required.")] else [])
  }

  /** The error of the schema's refinement on the dates. */
  const EndBeforeStart := FieldError("endDate", "End date cannot be before start date.")

  /** Whether the refinement runs: every field whose failure aborts parsing (the description's
      type, the two dates and the priority) has parsed; a name that is too short or too long does
      not stop it. */
  predicate RefinementRuns(v: FormValues)
  {
    !v.description.Null? && v.startDate.Day? && v.endDate.Day? && v.priority.Some?
  }

  /** The parsed description: `undefined` stays absent. */
  function DescriptionValue(d: FormText): Option<string>
  {
    if d.Text? then Some(d.text) else None
  }

  /** `projectSchema`: the field errors in field order, followed by the refinement's end-date
      error when the refinement runs and the end date is before the start date. */
  function Validate(v: FormValues): (r: Result<ValidForm, seq<FieldError>>)
    ensures r.Success? <==>
      3 <= |v.name| <= 100 && !v.description.Null? && v.startDate.Day? && v.endDate.Day? &&
      v.priority.Some? && v.endDate.day >= v.startDate.day
    ensures r.Success? ==>
      r.value == ValidForm(v.name, DescriptionValue(v.description), v.startDate.day, v.endDate.day,
                           v.assignedToId, v.priority.value)
    ensures r.Failure? ==> r.error != [] && FieldErrors(v) <= r.error
    ensures (r.Failure? && EndBeforeStart in r.error) <==>
      RefinementRuns(v) && v.endDate.day < v.startDate.day
    ensures FieldErrors(v) == [] && r.Failure? ==> r.error == [EndBeforeStart]
  {
    var errors := FieldErrors(v) +
      (if RefinementRuns(v) && v.endDate.day < v.startDate.day then [EndBeforeStart] else []);
    assert EndBeforeStart !in FieldErrors(v);
    if errors != [] then Failure(errors)
    else Success(ValidForm(v.name, DescriptionValue(v.description), v.startDate.day, v.endDate.day,
                           v.assignedToId, v.priority.value))
  }

  /** A name that is too short does not hide the date order: both errors are reported. */
  lemma ShortNameAndEndBeforeStart()
    ensures Validate(FormValues("ab", Undefined, Day(5), Day(3), None, Some(HIGH))).error ==
      [FieldError("name", "Project name must be at least 3 characters"), EndBeforeStart]
  {
  }

  /** The empty form the page starts with. */
  const Defaults := FormValues("", Text(""), NoDate, NoDate, None, Some(MEDIUM))

  /** The defaults are medium priority and otherwise empty, so they cannot be submitted as they
      are. */
  lemma DefaultsRejected()
    ensures Defaults.priority == Some(MEDIUM) && Defaults.assignedToId.None?
    ensures Validate(Defaults).Failure?
    ensures FieldError("name", "Project name must be at least 3 characters") in Validate(Defaults).error
  {
  }

  /** The body of the create and update requests. */
  datatype ProjectRequest = ProjectRequest(
    name: string,
    description: string,
    startDate: string,
    endDate: string,
    assignedToId: Option<int>,
    priority: PriorityLevel)

  /** `projectData` in `onSubmit`. */
  function Payload(f: ValidForm, formatDay: int -> string): (r: ProjectRequest)
    ensures r.name == f.name && r.assignedToId == f.assignedToId && r.priority == f.priority
    ensures !TruthyString(f.description) ==> r.description == ""
    ensures TruthyString(f.description) ==> r.description == f.description.value
    ensures r.startDate == formatDay(f.startDate) && r.endDate == formatDay(f.endDate)
  {
    ProjectRequest(f.name, if TruthyString(f.description) then f.description.value else "",
                   formatDay(f.startDate), formatDay(f.endDate), f.assignedToId, f.priority)
  }

  /** The request `onSubmit` issues: an update of the route's project in edit mode, a create
      otherwise. */
  datatype Submission = Create(body: ProjectRequest) | Update(id: Option<int>, body: ProjectRequest)

  /** `isEditMode = !!projectId`. */
  predicate IsEditMode(projectId: Option<string>)
  {
    TruthyString(projectId)
  }

  function Submit(projectId: Option<string>, f: ValidForm, formatDay: int -> string): (r: Submission)
    ensures r.Update? <==> IsEditMode(projectId)
    ensures r.Update? ==> r.id == ParseIntAuto(projectId.value)
    ensures r.body == Payload(f, formatDay)
  {
    if IsEditMode(projectId) then Update(ParseIntAuto(projectId.value), Payload(f, formatDay))
    else Create(Payload(f, formatDay))
  }

  /** `new Date(s)` for a date the server may send as `null`: `new Date(null)` is the epoch, day 0. */
  function DateField(s: Option<string>, dateOf: string -> Option<int>): (r: FormDate)
    ensures s.None? ==> r == Day(0)
    ensures s.Some? && dateOf(s.value).Some? ==> r == Day(dateOf(s.value).value)
    ensures s.Some? && dateOf(s.value).None? ==> r == InvalidDate
  {
    if s.None? then Day(0)
    else match dateOf(s.value)
      case None => InvalidDate
      case Some(d) => Day(d)
  }

  /** The description as the server sends it: `null` or text. */
  function DescriptionField(d: Option<string>): FormText
  {
    if d.Some? then Text(d.value) else Null
  }

  /** `form.reset(...)` from the loaded project; a `null` assignee becomes `undefined`, while a
      `null` description is kept as `null`. */
  function FromProject(p: ProjectDto, dateOf: string -> Option<int>): (v: FormValues)
    ensures v.name == p.name && v.assignedToId == p.assignedToId
    ensures v.description.Null? <==> p.description.None?
    ensures v.description.Text? ==> v.description.text == p.description.value
    ensures v.priority == Some(p.priority)
    ensures v.startDate == DateField(p.startDate, dateOf) && v.endDate == DateField(p.endDate, dateOf)
  {
    FormValues(p.name, DescriptionField(p.description), DateField(p.startDate, dateOf), DateField(p.endDate, dateOf),
               p.assignedToId, Some(p.priority))
  }

  /** Opening a valid project for editing and saving it unchanged sends back its name,
      description, assignee and priority. */
  lemma EditRoundTrip(p: ProjectDto, dateOf: string -> Option<int>, formatDay: int -> string)
    requires Validate(FromProject(p, dateOf)).Success?
    ensures var body := Payload(Validate(FromProject(p, dateOf)).value, formatDay);
            body.name == p.name && body.assignedToId == p.assignedToId && body.priority == p.priority &&
            body.description == (if TruthyString(p.description) then p.description.value else "")
  {
  }

  /** A project stored without a description cannot be saved from the edit form as loaded: the
      schema reports the `null`, and the refinement does not run. */
  lemma NullDescriptionBlocksEdit(p: ProjectDto, dateOf: string -> Option<int>)
    requires p.description.None?
    ensures var r := Validate(FromProject(p, dateOf));
            r.Failure? && NullDescription in r.error && EndBeforeStart !in r.error
  {
    var v := FromProject(p, dateOf);
    var name := if |v.name| < 3 then [FieldError("name", "Project name must be at least 3 characters")]
                else if |v.name| > 100 then [FieldError("name", "String must contain at most 100 character(s)")]
                else [];
    assert FieldErrors(v)[|name|] == NullDescription;
  }
}
