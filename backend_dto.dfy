/** The backend's transfer objects and request bodies (model/dto): what the services return and
    accept. Fields Java may leave `null` are `Option`s; dates are day numbers. */
module BackendDto {
  import opened Wrappers
  import opened Types

  datatype ProjectDto = ProjectDto(
    id: Option<int>,
    name: Option<string>,
    description: Option<string>,
    startDate: Option<int>,
    endDate: Option<int>,
    assignedToId: Option<int>,
    assignedToName: Option<string>,
    priority: Option<PriorityLevel>,
    status: Option<ProjectStatus>)

  /** A user as the API shows it; there is no password field. */
  datatype UserDto = UserDto(
    id: Option<int>,
    username: Option<string>,
    email: Option<string>,
    firstName: Option<string>,
    lastName: Option<string>,
    role: Option<UserRole>,
    enabled: bool)

  datatype ProjectRequest = ProjectRequest(
    name: Option<string>,
    description: Option<string>,
    startDate: Option<int>,
    endDate: Option<int>,
    assignedToId: Option<int>,
    priority: Option<PriorityLevel>)

  datatype UserRequest = UserRequest(
    username: Option<string>,
    password: Option<string>,
    email: Option<string>,
    firstName: Option<string>,
    lastName: Option<string>,
    role: Option<UserRole>)

  /** A page of results and the size of the whole list. */
  datatype Page<T> = Page(content: seq<T>, totalElements: nat)

  /** Spring's page request: page number and page size (at least 1). */
  datatype Pageable = Pageable(page: nat, size: nat)

  function Offset(p: Pageable): nat
  {
    p.page * p.size
  }
}
