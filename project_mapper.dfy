/** `ProjectMapper`: entity to transfer object, request to a new entity, and the partial update
    of an entity from a request. */
module ProjectMapper {
  import opened Wrappers
  import opened Types
  import opened Entities
  import opened BackendDto

  /** Java's string conversion in a concatenation: `null` prints as "null". */
  function JavaString(s: Option<string>): (r: string)
    ensures s.Some? ==> r == s.value
    ensures s.None? ==> r == "null"
  {
    if s.Some? then s.value else "null"
  }

  /** `toDto`. */
  function ToDto(p: ProjectRow): (d: ProjectDto)
    ensures d.id == p.id && d.name == p.name && d.description == p.description
    ensures d.startDate == p.startDate && d.endDate == p.endDate
    ensures d.priority == p.priority && d.status == p.status
    ensures d.assignedToId.None? <==> p.assignedTo.None?
    ensures d.assignedToName.None? <==> p.assignedTo.None?
    ensures p.assignedTo.Some? ==>
      d.assignedToId == Some(p.assignedTo.value.id) &&
      d.assignedToName == Some(JavaString(p.assignedTo.value.firstName) + " " + JavaString(p.assignedTo.value.lastName))
  {
    ProjectDto(p.id, p.name, p.description, p.startDate, p.endDate,
               if p.assignedTo.Some? then Some(p.assignedTo.value.id) else None,
               if p.assignedTo.Some? then Some(JavaString(p.assignedTo.value.firstName) + " " + JavaString(p.assignedTo.value.lastName)) else None,
               p.priority, p.status)
  }

  /** The user stub `toEntity` and `updateEntity` attach: only the id is set. */
  function Stub(id: int): Assignee
  {
    Assignee(id, None, None, None)
  }

  /** The entity `toEntity` builds. */
  function RequestRow(q: ProjectRequest): (r: ProjectRow)
    ensures r.id.None? && r.status == Some(NOT_STARTED)
    ensures r.name == q.name && r.description == q.description && r.priority == q.priority
    ensures r.startDate == q.startDate && r.endDate == q.endDate
    ensures r.assignedTo.Some? <==> q.assignedToId.Some?
    ensures r.assignedTo.Some? ==> r.assignedTo.value == Stub(q.assignedToId.value)
  {
    NewProject.(name := q.name, description := q.description, startDate := q.startDate,
                endDate := q.endDate, priority := q.priority,
                assignedTo := if q.assignedToId.Some? then Some(Stub(q.assignedToId.value)) else None)
  }

  method ToEntity(q: ProjectRequest) returns (project: ProjectEntity)
    ensures fresh(project)
    ensures project.Row() == RequestRow(q)
  {
    project := new ProjectEntity();
    project.name := q.name;
    project.description := q.description;
    project.startDate := q.startDate;
    project.endDate := q.endDate;
    project.priority := q.priority;
    if q.assignedToId.Some? {
      project.assignedTo := Some(Stub(q.assignedToId.value));
    }
  }

  /** The entity after `updateEntity`. */
  function Updated(r: ProjectRow, q: ProjectRequest): (u: ProjectRow)
    ensures u.id == r.id && u.status == r.status
    ensures u.name == (if q.name.Some? then q.name else r.name)
    ensures u.description == (if q.description.Some? then q.description else r.description)
    ensures u.startDate == (if q.startDate.Some? then q.startDate else r.startDate)
    ensures u.endDate == (if q.endDate.Some? then q.endDate else r.endDate)
    ensures u.priority == (if q.priority.Some? then q.priority else r.priority)
    ensures u.assignedTo == (if q.assignedToId.Some? then Some(Stub(q.assignedToId.value)) else r.assignedTo)
  {
    r.(name := if q.name.Some? then q.name else r.name,
       description := if q.description.Some? then q.description else r.description,
       startDate := if q.startDate.Some? then q.startDate else r.startDate,
       endDate := if q.endDate.Some? then q.endDate else r.endDate,
       priority := if q.priority.Some? then q.priority else r.priority,
       assignedTo := if q.assignedToId.Some? then Some(Stub(q.assignedToId.value)) else r.assignedTo)
  }

  method UpdateEntity(project: ProjectEntity, q: ProjectRequest)
    modifies project
    ensures project.Row() == Updated(old(project.Row()), q)
  {
    if q.name.Some? {
      project.name := q.name;
    }
    if q.description.Some? {
      project.description := q.description;
    }
    if q.startDate.Some? {
      project.startDate := q.startDate;
    }
    if q.endDate.Some? {
      project.endDate := q.endDate;
    }
    if q.priority.Some? {
      project.priority := q.priority;
    }
    if q.assignedToId.Some? {
      project.assignedTo := Some(Stub(q.assignedToId.value));
    }
  }

  /** Applying the same request twice is applying it once. */
  lemma UpdateIdempotent(r: ProjectRow, q: ProjectRequest)
    ensures Updated(Updated(r, q), q) == Updated(r, q)
  {
  }

  /** A request whose fields are all `null` changes nothing. */
  lemma EmptyUpdateIsNoop(r: ProjectRow)
    ensures Updated(r, ProjectRequest(None, None, None, None, None, None)) == r
  {
  }
}
