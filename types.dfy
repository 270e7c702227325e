/** The client's shared enums and records (src/types/index.ts). Optional fields (`?:`) are `Option`s,
    `User | null` is `Option<User>`, and dates stay the ISO strings the records carry. */
module Types {
  import opened Wrappers

  datatype UserRole = MANAGER | EMPLOYEE

  datatype PriorityLevel = LOW | MEDIUM | HIGH | URGENT

  datatype ProjectStatus = NOT_STARTED | IN_PROGRESS | COMPLETED

  datatype User = User(
    id: string,
    name: string,
    email: string,
    role: UserRole,
    avatar: Option<string>,
    department: Option<string>,
    title: Option<string>)

  datatype Project = Project(
    id: string,
    name: string,
    description: string,
    startDate: string,
    endDate: string,
    assignedTo: Option<User>,
    priority: PriorityLevel,
    status: ProjectStatus,
    createdAt: string,
    updatedAt: string)
}
