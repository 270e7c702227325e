/** The records the server sends (ProjectDto.java and the user DTO of UserMapper.java), as the
    reports, project detail and project form pages read them. Ids are numbers; a Java `null` is
    `None`; dates are the ISO date strings the server writes. */
module Dto {
  import opened Wrappers
  import opened Types

  datatype ProjectDto = ProjectDto(
    id: int,
    name: string,
    description: Option<string>,
    startDate: Option<string>,
    endDate: Option<string>,
    assignedToId: Option<int>,
    assignedToName: Option<string>,
    priority: PriorityLevel,
    status: ProjectStatus)

  datatype UserDto = UserDto(
    id: int,
    username: string,
    email: string,
    firstName: Option<string>,
    lastName: Option<string>,
    role: UserRole,
    enabled: bool)
}
