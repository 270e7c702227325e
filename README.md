# Sprint Stride Dash — a Dafny model

Sprint Stride Dash is a project-management dashboard. A React front end lists, searches, filters and
pages projects and users. It shows status and workload reports and keeps a signed-in session. A
Spring back end stores projects and users and enforces who may create, change and see them. This
project models the deterministic core of both halves and proves what each part promises.

**Front end**
- `HttpClient`: the request headers, the normalised endpoint and how a response is classified.
  A response is either null, the envelope's data, the parsed value, the raw text or an error.
- `AuthContext`, `MockAuthApi`, `ProtectedRoute`, `AppRoutes` and `SidebarNav`: the client session
  and access control. The session is restored, signed in and signed out against a key/value store.
  A mock login issues a token that parses back to the user's id. The route guard and route table
  decide what each path shows, and the sidebar filters the navigation by role.
- `ApiStore` and `MockData`: the in-memory project and user stores, with their create, update,
  delete, search and filter operations, and the fixture data with its aggregates.
- `Pagination`, `ProjectsPage`, `TasksPage`, `Dashboard`, `Reports`, `UsersPage` and
  `ProjectDetail`: the list views. They cover role scoping, search, filters, toggles, grouping,
  sorting, counts, workloads, deadlines, page slices and the page window.
- `ProjectForm`, `UserFormDialog`, `Settings` and `ProjectCard`: the form schemas, the submitted
  payloads, the create-or-edit dispatch, theme persistence and initials.

**Back end**
- `Entities`, `Repositories`, `ProjectMapper` and `UserMapper`: the JPA entities with their
  `@PrePersist` defaults, repositories as maps from id to row, and the mappers.
- `ProjectService` and `UserService`: the service rules. A thrown exception is a `Failure` value,
  and a failure leaves the repository unchanged.
- `ExceptionHandler`: the exception-to-status table.
- `SecurityUtils`, `AuditAware` and `DataInitializer`: the security helpers and admin seeding.

Imperative code is modelled in imperative form:
- the auth provider, the API stores, the projects page state and the theme settings are classes;
- entities, repositories and services are classes;
- counting loops are methods with loop invariants.

Each method is proved against a specification function, and the properties are lemmas about
those functions. Shared helpers live in `Wrappers`, `Seqs`, `Sorting`, `Text` and `Storage`.

Some things are parameters rather than modelled code:
- the browser's `localStorage` is a `map<string, string>`;
- `fetch`, the clock, JSON parsing, date parsing and formatting, the password encoder, the email
  check of the schema library and random timestamps.

Each front-end file is modelled against the types it assumes itself, even where files disagree
with one another. Examples: the paged `getAll` results that Reports.tsx and ProjectForm.tsx expect,
and the backend-shaped transfer objects of ProjectDetail.tsx.

## Model

| member | source | states |
|---|---|---|
| AuthContext.ManagerIsAuthenticated | src/context/AuthContext.tsx:93-94 | a manager session is always an authenticated one |
| AuthContext.Restored | src/context/AuthContext.tsx:46-57 | loading ends; no stored entry leaves the session as it was; a parsable entry fills the user slot; an unparsable one is removed from storage |
| AuthContext.FindByEmail | src/context/AuthContext.tsx:65 | finds a mock user exactly when one has the email ignoring case, and the one found has it |
| AuthContext.LoginStarted | src/context/AuthContext.tsx:60 | `login` first sets the loading flag and changes nothing else |
| AuthContext.LoginFinished | src/context/AuthContext.tsx:64-78 | loading ends; success sets the found user and stores it under "sprintstride_user"; failure leaves user and storage unchanged |
| AuthContext.LoginSucceedsIff | src/context/AuthContext.tsx:65-67 | a login succeeds exactly when some mock user's email matches ignoring case and the password is "password" |
| AuthContext.LoggedOut | src/context/AuthContext.tsx:82-86 | the user slot is cleared and the stored entry removed; every other stored key and the loading flag are unchanged |
| AuthContext.LogoutIdempotent | src/context/AuthContext.tsx:82-86 | logging out twice is logging out once |
| AuthContext.LoginSurvivesReload | src/context/AuthContext.tsx:46-57 | when parse inverts stringify, the user a successful login stores is the user the next startup restores |
| AuthContext.AuthProvider.constructor | src/context/AuthContext.tsx:42-43 | the provider starts with no user and loading set |
| AuthContext.AuthProvider.Restore | src/context/AuthContext.tsx:46-57 | the mount effect moves the state to the restored session |
| AuthContext.AuthProvider.BeginLogin | src/context/AuthContext.tsx:59-60 | the state becomes the login-started session |
| AuthContext.AuthProvider.CompleteLogin | src/context/AuthContext.tsx:64-78 | the timer callback moves the state to the finished session and resolves with its verdict |
| AuthContext.AuthProvider.Login | src/context/AuthContext.tsx:59-80 | `login` run to completion: started, then finished, resolving with the verdict |
| AuthContext.AuthProvider.Logout | src/context/AuthContext.tsx:82-86 | the state becomes the logged-out session |
| MockAuthApi.FindByUsername | src/services/mockAuthApi.ts:36-38 | finds a mock user exactly when one has the username ignoring case, and the one found has it |
| MockAuthApi.Login | src/services/mockAuthApi.ts:33-60 | fails with 401 "Invalid username or password" exactly when the username is unknown or the password is not "yourpassword"; success carries the token "mock-jwt-token-" + id, type "Bearer" and the user's fields |
| MockAuthApi.Logout | src/services/mockAuthApi.ts:62-69 | always succeeds with null data |
| MockAuthApi.GetCurrentUser | src/services/mockAuthApi.ts:71-97 | no token gives 401 "Not authenticated"; a token whose id, read by a radix-less `parseInt` (so "0x1" is 1), matches no user gives 404 "User not found"; success returns the user with the token's id |
| MockAuthApi.TokenUserIdRoundTrip | src/services/mockAuthApi.ts:83 | the id read back from "mock-jwt-token-" + id is id |
| MockAuthApi.LoginThenCurrentUser | src/services/mockAuthApi.ts:52-96 | after storing the token of a successful login under "token", `getCurrentUser` returns the user who logged in |
| ProtectedRoute.Decide | src/components/auth/protected-route.tsx:11-35 | the spinner exactly while loading; "/login" exactly when signed out; "/dashboard" exactly when a non-manager meets a manager-only guard; the layout otherwise |
| ProtectedRoute.DefaultGuardAdmitsAnyUser | src/components/auth/protected-route.tsx:11-28 | without `requiresManager`, every signed-in user gets the layout once loading is over |
| ProtectedRoute.ManagerPassesEveryGuard | src/components/auth/protected-route.tsx:26-28 | a manager passes every guard once loading is over |
| AppRoutes.RouteForSegments | src/App.tsx:29-50 | "/login" and the catch-all are unguarded, "/dashboard" and "/users" need a manager, every other page a signed-in user |
| AppRoutes.ScreenFor | src/App.tsx:29-50 | an unguarded route always shows its page, and a guarded one shows only its own page |
| AppRoutes.RouteTable | src/App.tsx:30-49 | each of the eleven path shapes maps to its page and guard, "new" outranking ":id", and anything else to the not-found page |
| AppRoutes.LoginPathUnguarded | src/App.tsx:30 | "/login" is the login page with no guard |
| AppRoutes.DashboardPathManagerOnly | src/App.tsx:44-45 | "/dashboard" is the dashboard under the manager-only guard |
| AppRoutes.EditPathNotFound | src/App.tsx:35-49 | "/projects/edit/:id", the target of ProjectDetail's Edit button, matches no route |
| AppRoutes.DashboardRedirectLoops | src/App.tsx:44-45 | as written, a signed-in non-manager at "/dashboard" is redirected to "/dashboard" again |
| AppRoutes.IntendedRouteOf | src/App.tsx:33-47 | the corrected table guards "/dashboard" by sign-in only and agrees with the written table elsewhere |
| AppRoutes.IntendedRedirectsSettle | src/components/auth/protected-route.tsx:22-28 | with the corrected table, following any redirect once lands on a page that is shown |
| ApiStore.Ids | src/services/api.ts:17 | the id list has one entry per record, in order, each the record's own id |
| ApiStore.MaxIdNumber | src/services/api.ts:28 | the number carried by every id in use is at most the result |
| ApiStore.NextId | src/services/api.ts:28 | the id a new project or user receives is not among the ids already stored (corrected form of `p${length + 1}`) |
| ApiStore.NextIdAsWritten | src/services/api.ts:28 | while no stored number exceeds the list's length, the corrected id equals the id the code writes, prefix plus length plus one |
| ApiStore.IdNumberOfWrittenNewId | src/services/api.ts:28 | the id written for a list of length n carries the number n + 1 |
| ApiStore.WrittenNewIdKeepsBound | src/services/api.ts:28-33 | while no stored number exceeds the list's length, the written id is not in use, and after it is pushed no number exceeds the new length |
| ApiStore.WrittenNewIdCollides | src/services/api.ts:28 | after deleting "p1" from ["p1", "p2"], the written id for the next create is "p2", which is still in use |
| ApiStore.DistinctAppend | src/services/api.ts:32 | pushing a record whose id is not in use keeps every id distinct |
| ApiStore.NewProject | src/services/api.ts:26-31 | the created project carries the given id and the same time as createdAt and updatedAt |
| ApiStore.MergeProject | src/services/api.ts:43-47 | the spread merge always refreshes updatedAt and keeps the id unless the patch has one |
| ApiStore.MergeEmptyPatch | src/services/api.ts:43-47 | an empty patch changes only updatedAt |
| ApiStore.MergeStatusPatch | src/services/api.ts:53-56 | `updateStatus` changes the status and updatedAt and nothing else |
| ApiStore.MergeIdempotent | src/services/api.ts:43-47 | merging the same patch twice gives what merging it once gives |
| ApiStore.FilterProjects | src/services/api.ts:88-112 | a project is in the result exactly when it is stored and passes the status, priority, assignee and date-range checks |
| ApiStore.EmptyFiltersKeepAll | src/services/api.ts:90-111 | with no filter, empty lists and an empty assignee, every project is kept in order |
| ApiStore.AssigneeFilterIsExact | src/services/api.ts:100-102 | filtering by an assignee id returns only projects assigned to that id |
| ApiStore.ProjectStore.GetAll | src/services/api.ts:10-13 | returns the stored list unchanged |
| ApiStore.ProjectStore.GetById | src/services/api.ts:15-22 | fails with "Project with id … not found" exactly when no project has the id; otherwise returns the first project with it |
| ApiStore.ProjectStore.Create | src/services/api.ts:24-34 | appends the new project under "p" plus the old length plus one and leaves earlier projects untouched; while no stored number exceeds the length, that id is fresh and ids stay distinct and bounded |
| ApiStore.ProjectStore.CreateFresh | src/services/api.ts:24-34 | the corrected create: appends the new project under an id not in use and keeps ids distinct, whatever was deleted before |
| ApiStore.ProjectStore.Update | src/services/api.ts:36-51 | a missing id fails and changes nothing; otherwise only the first matching entry is replaced by the merge |
| ApiStore.ProjectStore.UpdateStatus | src/services/api.ts:53-56 | as `update` with a patch holding only the status |
| ApiStore.ProjectStore.Delete | src/services/api.ts:58-66 | a missing id fails and changes nothing; otherwise the first matching entry is removed and the others keep their order |
| ApiStore.ProjectStore.SearchAll | src/services/api.ts:68-78 | returns the stored projects whose name or description contains the query, ignoring case |
| ApiStore.ProjectStore.FilterAll | src/services/api.ts:80-113 | returns the filtered stored projects |
| ApiStore.DeleteRemovesId | src/services/api.ts:58-66 | when ids are distinct, no project with the deleted id remains and the rest stay distinct |
| ApiStore.NewUser | src/services/api.ts:134-137 | the created user carries the given id |
| ApiStore.MergeUser | src/services/api.ts:149-152 | the spread merge keeps the id unless the patch has one |
| ApiStore.MergeUserLaws | src/services/api.ts:149-152 | an empty patch changes nothing, and merging a patch twice is merging it once |
| ApiStore.Employees | src/services/api.ts:182-185 | a user is in the result exactly when stored with role EMPLOYEE |
| ApiStore.Managers | src/services/api.ts:187-190 | a user is in the result exactly when stored with role MANAGER |
| ApiStore.RolesPartitionUsers | src/services/api.ts:182-190 | employees and managers are subsequences of the users whose sizes add up to the user count |
| ApiStore.UserStore.GetAll | src/services/api.ts:118-121 | returns the stored list unchanged |
| ApiStore.UserStore.GetById | src/services/api.ts:123-130 | fails with "User with id … not found" exactly when no user has the id; otherwise returns the first user with it |
| ApiStore.UserStore.Create | src/services/api.ts:132-140 | appends the new user under "u" plus the old length plus one; while no stored number exceeds the length, that id is fresh and ids stay distinct and bounded |
| ApiStore.UserStore.CreateFresh | src/services/api.ts:132-140 | the corrected create: appends the new user under an id not in use and keeps ids distinct |
| ApiStore.UserStore.Update | src/services/api.ts:142-156 | a missing id fails and changes nothing; otherwise only the first matching entry is replaced |
| ApiStore.UserStore.Delete | src/services/api.ts:158-166 | a missing id fails and changes nothing; otherwise the first matching entry is removed, order kept |
| ApiStore.UserStore.SearchAll | src/services/api.ts:168-180 | returns the stored users matching the query in name, email, department or title, ignoring case |
| ApiStore.UserStore.GetEmployees | src/services/api.ts:182-185 | returns the employees of the stored list |
| ApiStore.UserStore.GetManagers | src/services/api.ts:187-190 | returns the managers of the stored list |
| ApiStore.ProjectStore.constructor | src/services/api.ts:3 | the store starts out holding exactly the given fixture projects |
| ApiStore.UserStore.constructor | src/services/api.ts:3 | the store starts out holding exactly the given fixture users |
| HttpClient.NormalizeEndpoint | src/services/httpClient.ts:36 | the endpoint always starts with "/", and is unchanged when it already did |
| HttpClient.NormalizeEndpointIdempotent | src/services/httpClient.ts:36 | normalising twice is normalising once |
| HttpClient.Url | src/services/httpClient.ts:37 | every request URL starts with "http://localhost:8080/api/" |
| HttpClient.BuildHeaders | src/services/httpClient.ts:12-26 | JSON content type and accept headers always; `Authorization` exactly when a token is stored, as the stored type (default "Bearer") and the token; no other header |
| HttpClient.MergeHeaders | src/services/httpClient.ts:39-42 | custom headers win, built ones survive otherwise, nothing else is added |
| HttpClient.BuildConfig | src/services/httpClient.ts:46-55 | the method and merged headers are passed on; a body is sent exactly when data is truthy and the method is not GET |
| HttpClient.Classify | src/services/httpClient.ts:63-114 | the request fails exactly on a non-OK status that is not 204 and has no "0" content length, always with "Request failed with status N" |
| HttpClient.Request | src/services/httpClient.ts:29-121 | a rejected `fetch` rejects the request with the same error; a response is classified |
| HttpClient.ShorthandBodies | src/services/httpClient.ts:124-139 | `get` and `delete` send no body; `post`, `put` and `patch` send the data when it is truthy |
| HttpClient.NoContentIsNull | src/services/httpClient.ts:64-73 | a 204 answer or a content length of "0" resolves to null whatever the status |
| HttpClient.BlankBody | src/services/httpClient.ts:78-84 | a blank body resolves to null on an OK status and fails otherwise |
| HttpClient.ServerMessageReplaced | src/services/httpClient.ts:92-110 | the server's own error message is caught by the surrounding catch and replaced by the status text |
| HttpClient.EnvelopeUnwrapped | src/services/httpClient.ts:98-100 | an OK envelope with `success` and `data` resolves to its data |
| HttpClient.PlainJsonReturned | src/services/httpClient.ts:103-113 | an OK JSON body that is not an envelope resolves to itself, except `null`, whose property access throws and yields the raw text |
| HttpClient.UnparsableBodyIsText | src/services/httpClient.ts:105-113 | an OK body that does not parse resolves to its raw text |
| Search.SearchProjects | src/services/api.ts:68-78 | a project is kept exactly when the query is empty or occurs, ignoring case, in its name or description |
| Search.SearchUsers | src/services/api.ts:168-180 | a user is kept exactly when the query is empty or occurs, ignoring case, in name, email, department or title |
| Search.EmptyProjectQueryKeepsAll | src/services/api.ts:70 | the empty query returns the whole project list |
| Search.EmptyUserQueryKeepsAll | src/services/api.ts:170 | the empty query returns the whole user list |
| Search.SearchIsSubsequence | src/services/api.ts:73-77 | searching only drops records and keeps the rest in order |
| Search.SearchIgnoresQueryCase | src/services/api.ts:72 | a query and its lower-cased form select the same projects |
| SidebarNav.VisibleItems | src/components/layout/sidebar-nav.tsx:125-126 | an item is shown exactly when it is in the table and is not manager-only or the user is a manager |
| SidebarNav.NavTable | src/components/layout/sidebar-nav.tsx:34-71 | six items, of which exactly "Users" is manager-only |
| SidebarNav.ManagerSeesAll | src/components/layout/sidebar-nav.tsx:125-126 | a manager sees the whole table in order |
| SidebarNav.OthersSeeFive | src/components/layout/sidebar-nav.tsx:125-126 | anyone else sees the five other items in table order |
| SidebarNav.ShownIsSubsequence | src/components/layout/sidebar-nav.tsx:125-126 | the shown items are the table with items dropped, never reordered |
| SidebarNav.DashboardOfferedToEveryone | src/components/layout/sidebar-nav.tsx:35-39 | the "Dashboard" link is shown to every user, manager or not |
| ProjectCounts.StatusCount | src/services/mockData.ts:197-199 | the number of projects with a status never exceeds the list's length |
| ProjectCounts.PriorityCount | src/services/mockData.ts:200-201 | the number of projects with a priority never exceeds the list's length |
| ProjectCounts.StatusCountsAddUp | src/services/mockData.ts:196-199 | not started, in progress and completed add up to the number of projects |
| ProjectCounts.PriorityCountsAddUp | src/services/mockData.ts:215-220 | the four priority counts add up to the number of projects |
| ProjectCounts.AssignedTo | src/services/mockData.ts:231 | a project is selected exactly when listed and its assignee's id equals the given one |
| ProjectCounts.AssignedToIsSubsequence | src/services/mockData.ts:231 | the selection is an order-preserving sublist, and with a given id holds only assigned projects |
| ProjectCounts.LoadOf | src/services/mockData.ts:231 | a user's load never exceeds the number of projects |
| ProjectCounts.HitsAtMostOne | src/services/mockData.ts:231 | a project counts towards at most one of several distinct users |
| ProjectCounts.TotalLoadBounded | src/services/mockData.ts:227-232 | the loads of distinct users add up to at most the number of projects |
| Pagination.Window | src/components/ui/pagination.tsx:17-23 | the first page of the window is never negative |
| Pagination.Pages | src/components/ui/pagination.tsx:25 | at most five consecutive pages from the window's start; exactly five when there are that many pages; all pages when there are fewer; the current page among them |
| Pagination.StepTargets | src/components/ui/pagination.tsx:29-86 | on a valid page both arrows target valid pages, one step away unless disabled, and an arrow is disabled exactly when it would stay put |
| Pagination.Label | src/components/ui/pagination.tsx:60 | each button's label reads back as its 1-based page number |
| Pagination.Middle | src/components/ui/pagination.tsx:53-62 | one page button per window page, in order |
| Pagination.WindowBounds | src/components/ui/pagination.tsx:17-25 | on a valid page the window lies inside the pages and contains the current one |
| Pagination.ItemsWellFormed | src/components/ui/pagination.tsx:38-77 | on a valid page the picker starts at page 1, ends at the last page, shows consecutive buttons, and puts an ellipsis only over a real gap |
| Pagination.ShortcutRules | src/components/ui/pagination.tsx:38-77 | the first-page button appears exactly when the window starts after page 1, its ellipsis exactly after page 2; symmetrically at the end |
| MockData.CreateMockProject | src/services/mockData.ts:63-88 | the eight arguments are copied into the record unchanged; only the two timestamps come from the generator |
| MockData.MockProjects | src/services/mockData.ts:91-192 | the fixture holds ten projects |
| MockData.FixtureUserIds | src/services/mockData.ts:5-60 | the fixture users carry the ids "1" to "6" in order |
| MockData.FixtureUserIdsDistinct | src/services/mockData.ts:5-60 | the user ids are pairwise distinct |
| MockData.TenIdsDistinct | src/services/mockData.ts:91-192 | ten projects with the ids "p1" to "p10" in order have pairwise distinct ids |
| MockData.FixtureProjectIdsDistinct | src/services/mockData.ts:91-192 | the project ids "p1" to "p10" are pairwise distinct |
| MockData.FixtureUserFound | src/services/mockData.ts:98 | looking a fixture user up by its own id finds that very user, so each assignee is the user with the cited id |
| MockData.StatisticsOf | src/services/mockData.ts:195-206 | the three status counts add up to the total, urgent and high together and the upcoming deadlines never exceed it, and the employee count is the number of EMPLOYEE users |
| MockData.StatusBars | src/services/mockData.ts:210-214 | three bars whose values add up to the three status counts |
| MockData.StatusBarsCoverProjects | src/services/mockData.ts:195-214 | the status bars add up to the number of projects |
| MockData.PriorityBars | src/services/mockData.ts:215-220 | four bars whose values add up to the number of projects |
| MockData.LoadBars | src/services/mockData.ts:229-232 | one bar per user, in order, named after the user and counting the projects assigned to that user's id |
| MockData.EmployeeProjectLoad | src/services/mockData.ts:227-232 | one bar per EMPLOYEE user, in order, with that employee's project count |
| MockData.LoadBarsTotal | src/services/mockData.ts:227-232 | the bars add up to the total load of the users' ids |
| MockData.EmployeeLoadBounded | src/services/mockData.ts:227-232 | with distinct employee ids the loads never add up to more than the number of projects |
| Dashboard.MyProjects | src/pages/Dashboard.tsx:55-57 | a project is the user's exactly when listed and assigned to the user's id; the list keeps the original order |
| Dashboard.StatsOf | src/pages/Dashboard.tsx:60-81 | the total is the number of projects and the three status counts add up to it |
| Dashboard.MyStatsWithinAll | src/pages/Dashboard.tsx:60-81 | each count of the employee view is at most the same count of the manager view |
| Dashboard.Upcoming | src/pages/Dashboard.tsx:83-91 | exactly the unfinished projects whose valid end date lies strictly within the coming week, each as often as in the input (a permutation of the filtered list), sorted by end date, soonest first |
| Dashboard.MyUpcoming | src/pages/Dashboard.tsx:93-95 | exactly the upcoming deadlines of the user's own projects |
| Dashboard.MyUpcomingIsSubsequence | src/pages/Dashboard.tsx:93-95 | the user's deadlines are the full list with other projects taken out, so still soonest first |
| Dashboard.OverviewDeadlines | src/pages/Dashboard.tsx:234 | at most three deadlines, the first ones of the list |
| Dashboard.ProjectsTab | src/pages/Dashboard.tsx:253 | at most six projects, the first ones of the list |
| ProjectsPage.Toggle | src/pages/Projects.tsx:144-150 | the value is present afterwards exactly when it was absent, every other value keeps its membership, and an absent value is appended |
| ProjectsPage.ToggleTwice | src/pages/Projects.tsx:144-160 | toggling the same value twice gives back the same set of values |
| ProjectsPage.ChangeFilters | src/pages/Projects.tsx:141-167 | a status or priority change toggles that list, an assignee change toggles between the id and "", an unknown type changes nothing |
| ProjectsPage.BaseProjects | src/pages/Projects.tsx:77-79 | a manager sees every project, anyone else exactly the projects assigned to their id |
| ProjectsPage.ApplyFilters | src/pages/Projects.tsx:94-110 | a project survives exactly when it passes each filter that is set |
| ProjectsPage.NoActiveFilterKeepsAll | src/pages/Projects.tsx:94-110 | with no active filter the filter steps return the list unchanged |
| ProjectsPage.ClearedFiltersInactive | src/pages/Projects.tsx:169-184 | after clearing, the active filter count is 0 |
| ProjectsPage.ApplyFiltersIsSubsequence | src/pages/Projects.tsx:94-110 | filtering only drops projects and keeps the rest in order |
| ProjectsPage.SortProjects | src/pages/Projects.tsx:113-126 | the sorted list is a permutation of the filtered list, ordered by the selected key |
| ProjectsPage.UnknownSortKeepsOrder | src/pages/Projects.tsx:123-124 | an unknown sort key keeps the filtered order |
| ProjectsPage.TotalPages | src/pages/Projects.tsx:129 | the smallest number of nine-project pages that hold the list; zero exactly for an empty list |
| ProjectsPage.PageSlice | src/pages/Projects.tsx:130-134 | a page holds at most nine projects, and a valid page holds the projects at its positions of the list |
| ProjectsPage.PagesCoverList | src/pages/Projects.tsx:129-134 | the pages read one after the other give back the list's prefix, so together they cover the list |
| ProjectsPage.PagerEntryFor | src/pages/Projects.tsx:391-420 | a page gets a link exactly when it is the first, the last or within one of the current page, and an ellipsis exactly in the two gap positions otherwise |
| ProjectsPage.PagerAroundCurrent | src/pages/Projects.tsx:391-420 | on a valid page the first, last, current and neighbouring pages are linked and the pages strictly between are not |
| ProjectsPage.Visible | src/pages/Projects.tsx:77-134 | every shown project passes the role scope, the search and every set filter, and at most nine are shown |
| ProjectsPage.ProjectsPageState.constructor | src/pages/Projects.tsx:55-63 | no filters, no search, newest first, page 1 |
| ProjectsPage.ProjectsPageState.HandleFilterChange | src/pages/Projects.tsx:141-167 | the filters change as described and the page goes back to 1; search and sort are kept |
| ProjectsPage.ProjectsPageState.ClearFilters | src/pages/Projects.tsx:169-176 | the filters are emptied and the page goes back to 1 |
| ProjectsPage.ProjectsPageState.SetSearchQuery | src/pages/Projects.tsx:210-215 | the query changes and the page goes back to 1 |
| ProjectsPage.ProjectsPageState.SetSortBy | src/pages/Projects.tsx:219 | only the sort key changes |
| ProjectsPage.ProjectsPageState.HandlePageChange | src/pages/Projects.tsx:136-139 | only the page changes |
| ProjectsPage.ProjectsPageState.ClearAll | src/pages/Projects.tsx:453-457 | search and filters are emptied together and the page goes back to 1 |
| TasksPage.PageProjects | src/pages/Tasks.tsx:56 | the fetched page's content, or nothing before a page has arrived |
| TasksPage.TotalPages | src/pages/Tasks.tsx:57-58 | the smallest number of nine-project pages that hold the reported total; 0 before a page has arrived |
| TasksPage.Group | src/pages/Tasks.tsx:61-69 | a project is in a group exactly when it is on the page with that status |
| TasksPage.GroupsPartition | src/pages/Tasks.tsx:61-69 | the three groups' sizes add up to the page's size and every project sits in the group of its status |
| TasksPage.FilterBySearch | src/pages/Tasks.tsx:72-81 | an empty query keeps everything; otherwise a project is kept exactly when its name or description contains the query ignoring case |
| TasksPage.PriorityRank | src/pages/Tasks.tsx:94-99 | every weight lies between 0 and 3 |
| TasksPage.PriorityRankOrdered | src/pages/Tasks.tsx:94-99 | the weights increase from LOW to URGENT and no two priorities share one |
| TasksPage.SortProjects | src/pages/Tasks.tsx:84-107 | a permutation of the list ordered by the selected key |
| TasksPage.PrioritySortDescending | src/pages/Tasks.tsx:93-102 | the "priority" order puts more urgent projects first |
| TasksPage.UnknownSortKeepsOrder | src/pages/Tasks.tsx:103-104 | an unknown sort choice keeps the fetched order |
| TasksPage.Shown | src/pages/Tasks.tsx:110-112 | a tab shows exactly the page's projects of its status that match the search |
| TasksPage.NoMatchingTasksIff | src/pages/Tasks.tsx:246-252 | the "No matching tasks" card appears exactly when the page is not empty and none of its projects matches the search |
| TasksPage.EmptySearchShowsPage | src/pages/Tasks.tsx:110-112 | with an empty search the three tabs together hold the whole page |
| UsersPage.FilteredUsers | src/pages/Users.tsx:46-56 | everybody for an empty query; otherwise exactly the users whose name, email, or present department or title contains the query ignoring case, in list order |
| ProjectCard.CardInitials | src/components/projects/project-card.tsx:18-26 | "?" for a missing or empty name, otherwise at most two upper-cased initials |
| ProjectCard.AssigneeLabel | src/components/projects/project-card.tsx:47-58 | "Unassigned" without an assignee, otherwise the assignee's name up to (not including) its first space, or the whole name when it has none |
| Text.Initials | src/pages/Users.tsx:59-66 | at most two characters, none of them a lower-case letter |
| Text.InitialsOfTwoWords | src/pages/Users.tsx:59-66 | "First Last" gives the two upper-cased first letters |
| Text.InitialsOfOneWord | src/pages/Users.tsx:59-66 | a single word gives its upper-cased first letter |
| Text.FirstToken | src/components/projects/project-card.tsx:54 | the text before the first space: a prefix of the name containing no space |
| Text.ParseIntOfNatToString | src/pages/ProjectDetail.tsx:57 | `parseInt` reads the decimal text of every natural number back as that number |
| Text.ParseIntAuto | src/services/mockAuthApi.ts:83 | a radix-less `parseInt` reads like base 10 unless "0x" or "0X" follows the sign, and then gives NaN exactly when no hexadecimal digit follows the prefix |
| Text.ParseIntAutoOfNatToString | src/services/mockAuthApi.ts:83 | a radix-less `parseInt` also reads the decimal text of every natural number back as that number |
| Text.ParseIntAutoReadsHex | src/pages/ProjectForm.tsx:72 | "0x1a" is 26 to a radix-less `parseInt` but 0 to `parseInt(s, 10)` |
| ProjectDetail.RouteId | src/pages/ProjectDetail.tsx:57 | a missing or empty route parameter gives `undefined`, text `parseInt` rejects gives `NaN`, anything else the number `parseInt` reads |
| ProjectDetail.PositiveRouteIdEnablesQuery | src/pages/ProjectDetail.tsx:57-68 | the route "/projects/n" for a positive n yields n and enables the project query |
| ProjectDetail.CanUpdateStatusOfLoadedProject | src/pages/ProjectDetail.tsx:124-126 | the intended rule: given the signed-in user's numeric id, a loaded project's status may be changed exactly by a manager or by the user it is assigned to; an unassigned project is nobody's |
| ProjectDetail.StatusUpdateManagersOnly | src/pages/ProjectDetail.tsx:124-126 | as written, the user id is `undefined` (the auth context has no `currentUser`), so only managers may change a loaded project's status |
| ProjectDetail.UpdateStatusRequest | src/pages/ProjectDetail.tsx:109-116 | a status request is sent exactly when a status is chosen and the id is truthy, with that id and status |
| ProjectDetail.DeleteRequest | src/pages/ProjectDetail.tsx:118-122 | a delete is sent exactly when the id is truthy, never for id 0 |
| ProjectDetail.ZeroIdSendsNothing | src/pages/ProjectDetail.tsx:109-122 | on the route "/projects/0" neither a status change nor a delete is sent |
| ProjectDetail.FormatDate | src/pages/ProjectDetail.tsx:129-137 | "N/A" for a missing or empty date, the formatted date when formatting succeeds, the input itself when it throws |
| ProjectDetail.FirstLetter | src/pages/ProjectDetail.tsx:141-142 | at most one character: the name's first one when the name is present and non-empty |
| ProjectDetail.DetailInitials | src/pages/ProjectDetail.tsx:140-144 | "?" when both names are missing or empty, the two upper-cased first letters when both are present, always one or two characters |
| ProjectDetail.Controls | src/pages/ProjectDetail.tsx:206-291 | "Update Status" exactly for whoever may change the status, "Edit" and "Delete" exactly for managers |
| ProjectDetail.ManagerSeesEverything | src/pages/ProjectDetail.tsx:206-291 | a manager always sees all three controls |
| ProjectForm.DateErrors | src/pages/ProjectForm.tsx:51-52 | a date field has no error exactly when a day was picked; a missing one gets the "required" message |
| ProjectForm.FieldErrors | src/pages/ProjectForm.tsx:48-54 | no field error exactly when the name has 3 to 100 characters, the description is not `null`, both dates are days and a priority is set |
| ProjectForm.Validate | src/pages/ProjectForm.tsx:48-58 | the schema accepts exactly the forms with valid fields and an end date not before the start date, passing their values through; otherwise the field errors come first, and the end-date refinement error is among them exactly when the description, both dates and the priority parsed and the end is before the start, even with a bad name; for valid fields it is the only error |
| ProjectForm.ShortNameAndEndBeforeStart | src/pages/ProjectForm.tsx:48-58 | a two-letter name with the end before the start reports the name error and then the end-date error |
| ProjectForm.DefaultsRejected | src/pages/ProjectForm.tsx:85-95 | the initial values are medium priority with no assignee and are rejected, with the name-length error among the errors |
| ProjectForm.Payload | src/pages/ProjectForm.tsx:137-146 | the request carries the form's name, assignee and priority, an empty description for a missing one and the formatted dates |
| ProjectForm.Submit | src/pages/ProjectForm.tsx:137-155 | an update of the route's id read by a radix-less `parseInt` exactly in edit mode (a non-empty route id), a create otherwise, both with the same body |
| ProjectForm.DateField | src/pages/ProjectForm.tsx:103-104 | a present string becomes the day it parses to, or an invalid date when it does not parse; a `null` date becomes the epoch, day 0 |
| ProjectForm.FromProject | src/pages/ProjectForm.tsx:97-109 | the reset form carries the project's name, assignee and priority and its parsed dates; the description is its text, or `null` exactly when the server sent none |
| ProjectForm.EditRoundTrip | src/pages/ProjectForm.tsx:97-146 | editing a valid project and saving it unchanged sends back its name, description, assignee and priority |
| ProjectForm.NullDescriptionBlocksEdit | src/pages/ProjectForm.tsx:48-58 | a project loaded with a `null` description fails the schema with the "Expected string, received null" error, and the date refinement does not run |
| Settings.ProfileErrors | src/pages/Settings.tsx:46-52 | no error exactly when the name has at least 2 characters, the email is valid and a bio has at most 500 characters; at most three errors |
| Settings.ProfileDefaults | src/pages/Settings.tsx:85-94 | the profile form starts from the signed-in user's name and email with an empty bio, and is empty without a user |
| Settings.ParseTheme | src/pages/Settings.tsx:60-62 | exactly "light", "dark" and "system" parse, each to the theme of that name |
| Settings.StartupTheme | src/pages/Settings.tsx:71-82 | a non-empty stored theme wins whatever it says; otherwise "system" when the system prefers dark, else "light" |
| Settings.StoredAfter | src/pages/Settings.tsx:140-151 | "system" removes the stored theme, light or dark stores its name, and no other key changes |
| Settings.ThemeSurvivesReload | src/pages/Settings.tsx:71-151 | light and dark come back after a reload; "system" comes back as "system" only when the system prefers dark and as "light" otherwise |
| Settings.ReloadKeepsDarkness | src/pages/Settings.tsx:71-151 | whatever was submitted, the reloaded theme parses and agrees with the "dark" class the submit set |
| Settings.ThemeSettings.constructor | src/pages/Settings.tsx:71-82 | mounting sets the theme state to the start-up theme and leaves storage and the class list alone |
| Settings.ThemeSettings.SubmitAppearance | src/pages/Settings.tsx:134-155 | the state becomes the chosen theme, the "dark" class is set for dark or for system on a dark system, and storage is updated as `StoredAfter` says |
| Settings.AvatarFallback | src/pages/Settings.tsx:158-196 | "U" without a user or name, otherwise the name's initials |
| UserFormDialog.SchemaErrors | src/components/users/user-form-dialog.tsx:26-33 | no error exactly when the username has 3 to 50 characters, a given password at least 6 and the email is valid |
| UserFormDialog.Defaults | src/components/users/user-form-dialog.tsx:52-62 | the password starts absent when editing and empty when creating; without a user the form is empty with the EMPLOYEE role |
| UserFormDialog.FromUser | src/components/users/user-form-dialog.tsx:65-76 | the reset form carries the user's username, email and role and no password |
| UserFormDialog.FreshCreateFormRejected | src/components/users/user-form-dialog.tsx:26-62 | the fresh create form's empty password is already a schema error |
| UserFormDialog.OnSubmit | src/components/users/user-form-dialog.tsx:107-134 | a password error exactly when none was typed while creating; an update exactly in edit mode with a truthy user id, a create otherwise; the body carries the values, names and password only when non-empty, and the role defaulted |
| Reports.ContentOr | src/pages/Reports.tsx:52 | a missing response gives the empty list, a present one its content |
| Reports.StatusTalliesAddUp | src/pages/Reports.tsx:67-83 | the three status tallies add up to the number of projects |
| Reports.PriorityTalliesAddUp | src/pages/Reports.tsx:85-103 | the four priority tallies add up to the number of projects |
| Reports.StatusData | src/pages/Reports.tsx:67-83 | the counting loop yields, in chart order, each status with the number of projects having it, and the bars sum to the number of projects |
| Reports.PriorityData | src/pages/Reports.tsx:85-103 | the counting loop yields, in chart order, each priority with the number of projects having it, and the bars sum to the number of projects |
| Reports.Employees | src/pages/Reports.tsx:63-65 | exactly the listed users with the EMPLOYEE role; none without data |
| Reports.AssignedProjects | src/pages/Reports.tsx:109-111 | exactly the projects assigned to the employee's id |
| Reports.WorkloadOf | src/pages/Reports.tsx:108-130 | the entry's total is the number of the employee's projects and equals the sum of its per-status counts, each the tally of that status among them; the name has no space |
| Reports.UnnamedEmployeeShownByUsername | src/pages/Reports.tsx:113-118 | an employee with neither first nor last name is shown by the first word of the username |
| Reports.Workloads | src/pages/Reports.tsx:108-130 | one entry per employee, in employee order, each that employee's workload |
| Reports.SortedWorkloads | src/pages/Reports.tsx:132 | sorting by descending total orders the totals and keeps each entry's sum |
| Reports.WorkloadData | src/pages/Reports.tsx:105-133 | empty without employees; otherwise one entry per employee (the same entries, reordered), totals descending, each total the sum of its status counts |
| Reports.UpcomingDeadlines | src/pages/Reports.tsx:218-239 | exactly the non-completed projects with a valid end date in [now, next week], both ends included, each as often as in the input (a permutation of the filtered list), in ascending end date |
| Reports.CompletionPercentage | src/pages/Reports.tsx:247-251 | 0 without projects; otherwise the percentage rounded half up, at most 100 when completed does not exceed total, and 100 when all are completed |
| Reports.RoundedPercentBounds | src/pages/Reports.tsx:250 | the integer rounding formula lies within half a unit of the exact percentage and within 0 to 100 |
| Reports.CompletionRate | src/pages/Reports.tsx:241-251 | the completion card is at most 100, and 0 for no projects |
| SecurityUtils.CurrentUsername | backendcode/src/main/java/com/example/projectmanagement/security/SecurityUtils.java:9-15 | a username exactly when there is an authentication whose principal is a `UserDetails`, and then that principal's username |
| SecurityUtils.AnyMatch | backendcode/src/main/java/com/example/projectmanagement/security/SecurityUtils.java:20-21 | true exactly when some authority equals the target |
| SecurityUtils.IsManager | backendcode/src/main/java/com/example/projectmanagement/security/SecurityUtils.java:17-24 | true exactly when a `UserDetails` principal holds the authority "ROLE_MANAGER" |
| SecurityUtils.ManagerHasUsername | backendcode/src/main/java/com/example/projectmanagement/security/SecurityUtils.java:9-24 | whoever counts as a manager also has a current username |
| AuditAware.CurrentAuditor | backendcode/src/main/java/com/example/projectmanagement/config/AuditAwareImpl.java:15-21 | always an auditor: the current username when there is one, "SYSTEM" otherwise |
| AuditAware.SystemWithoutUserDetails | backendcode/src/main/java/com/example/projectmanagement/config/AuditAwareImpl.java:15-21 | without an authentication, or with a principal that is not a `UserDetails`, the auditor is "SYSTEM" |
| Entities.ProjectPrePersisted | backendcode/src/main/java/com/example/projectmanagement/model/entity/Project.java:46-51 | a missing status becomes NOT_STARTED and nothing else changes |
| Entities.ProjectPrePersistIdempotent | backendcode/src/main/java/com/example/projectmanagement/model/entity/Project.java:46-51 | running the hook twice is running it once |
| Entities.ProjectEntity.constructor | backendcode/src/main/java/com/example/projectmanagement/model/entity/Project.java:18-44 | a new project has only its status set, to NOT_STARTED |
| Entities.ProjectEntity.Load | backendcode/src/main/java/com/example/projectmanagement/model/entity/Project.java:18-44 | an entity loaded from a stored row holds exactly that row |
| Entities.ProjectEntity.PrePersist | backendcode/src/main/java/com/example/projectmanagement/model/entity/Project.java:46-51 | the entity's new state is the hooked state of its old one |
| Entities.UserPrePersisted | backendcode/src/main/java/com/example/projectmanagement/model/entity/User.java:47-52 | a missing role becomes EMPLOYEE and nothing else changes |
| Entities.UserPrePersistIdempotent | backendcode/src/main/java/com/example/projectmanagement/model/entity/User.java:47-52 | running the hook twice is running it once |
| Entities.AssigneeOf | backendcode/src/main/java/com/example/projectmanagement/model/entity/Project.java:34-36 | the project's view of a user carries that user's id, username and names |
| Entities.UserEntity.constructor | backendcode/src/main/java/com/example/projectmanagement/model/entity/User.java:18-45 | a new user is enabled and has no other field set |
| Entities.UserEntity.Load | backendcode/src/main/java/com/example/projectmanagement/model/entity/User.java:18-45 | an entity loaded from a stored row holds exactly that row |
| Entities.UserEntity.PrePersist | backendcode/src/main/java/com/example/projectmanagement/model/entity/User.java:47-52 | the entity's new state is the hooked state of its old one |
| ProjectMapper.JavaString | backendcode/src/main/java/com/example/projectmanagement/service/mapper/ProjectMapper.java:21 | a present name prints as itself, a `null` one as "null" |
| ProjectMapper.ToDto | backendcode/src/main/java/com/example/projectmanagement/service/mapper/ProjectMapper.java:12-25 | the transfer object copies every field; the assignee id and name are present exactly when the project has an assignee, the name being "first last" with Java's `null` printing |
| ProjectMapper.RequestRow | backendcode/src/main/java/com/example/projectmanagement/service/mapper/ProjectMapper.java:27-42 | a new project without id, status NOT_STARTED, the request's fields, and an id-only user stub exactly when the request names an assignee |
| ProjectMapper.ToEntity | backendcode/src/main/java/com/example/projectmanagement/service/mapper/ProjectMapper.java:27-42 | `toEntity` returns a fresh entity whose state is the request row |
| ProjectMapper.Updated | backendcode/src/main/java/com/example/projectmanagement/service/mapper/ProjectMapper.java:44-65 | each non-null request field replaces the entity's, each null one keeps it; id and status never change |
| ProjectMapper.UpdateEntity | backendcode/src/main/java/com/example/projectmanagement/service/mapper/ProjectMapper.java:44-65 | the entity's new state is the updated old state |
| ProjectMapper.UpdateIdempotent | backendcode/src/main/java/com/example/projectmanagement/service/mapper/ProjectMapper.java:44-65 | applying the same request twice is applying it once |
| ProjectMapper.EmptyUpdateIsNoop | backendcode/src/main/java/com/example/projectmanagement/service/mapper/ProjectMapper.java:44-65 | a request whose fields are all `null` changes nothing |
| UserMapper.ToDto | backendcode/src/main/java/com/example/projectmanagement/service/mapper/UserMapper.java:11-21 | the transfer object copies every field except the password |
| UserMapper.ToDtoIgnoresPassword | backendcode/src/main/java/com/example/projectmanagement/service/mapper/UserMapper.java:11-21 | two users differing only in password map to the same transfer object |
| UserMapper.RequestRow | backendcode/src/main/java/com/example/projectmanagement/service/mapper/UserMapper.java:23-31 | a new enabled user without id or password, carrying the request's username, email, names and role |
| UserMapper.ToEntity | backendcode/src/main/java/com/example/projectmanagement/service/mapper/UserMapper.java:23-31 | `toEntity` returns a fresh entity whose state is the request row |
| UserMapper.Updated | backendcode/src/main/java/com/example/projectmanagement/service/mapper/UserMapper.java:33-46 | non-null names, email and role replace the user's; id, username, password and enabled never change |
| UserMapper.UpdateEntity | backendcode/src/main/java/com/example/projectmanagement/service/mapper/UserMapper.java:33-46 | the entity's new state is the updated old state |
| UserMapper.UpdateIdempotent | backendcode/src/main/java/com/example/projectmanagement/service/mapper/UserMapper.java:33-46 | applying the same request twice is applying it once |
| UserMapper.EmptyUpdateIsNoop | backendcode/src/main/java/com/example/projectmanagement/service/mapper/UserMapper.java:33-46 | a request with only username and password changes nothing |
| ExceptionHandler.ErrorMapKeys | backendcode/src/main/java/com/example/projectmanagement/controller/advice/GlobalExceptionHandler.java:52-62 | a field is a key of the validation error map exactly when some error names it |
| ExceptionHandler.ErrorMapLastWins | backendcode/src/main/java/com/example/projectmanagement/controller/advice/GlobalExceptionHandler.java:54-59 | a field's message is that of its last error, since each `put` overwrites |
| ExceptionHandler.CollectErrors | backendcode/src/main/java/com/example/projectmanagement/controller/advice/GlobalExceptionHandler.java:54-59 | the `forEach` loop builds exactly the error map of the field errors |
| ExceptionHandler.Handle | backendcode/src/main/java/com/example/projectmanagement/controller/advice/GlobalExceptionHandler.java:22-68 | not found gives 404, unauthorized access 403, invalid request 400, conflict 409, each with its message; bad credentials 401, validation 400 with the field map, anything else 500, each with its fixed text |
| ExceptionHandler.HandledStatuses | backendcode/src/main/java/com/example/projectmanagement/controller/advice/GlobalExceptionHandler.java:22-68 | every response is an error status; 403 exactly for unauthorized access, 401 exactly for bad credentials, and only validation failures carry a field map |
| Repositories.Listing | backendcode/src/main/java/com/example/projectmanagement/service/impl/ProjectServiceImpl.java:102 | the listing holds exactly the stored rows with ids in range, at most one per id |
| Repositories.ProjectRepository.constructor | backendcode/src/main/java/com/example/projectmanagement/repository/ProjectRepository.java:11-15 | the repository starts empty, handing out identity 1 first |
| Repositories.ProjectRepository.FindAll | backendcode/src/main/java/com/example/projectmanagement/service/impl/ProjectServiceImpl.java:102 | `findAll` lists exactly the stored projects |
| Repositories.ProjectRepository.Save | backendcode/src/main/java/com/example/projectmanagement/service/impl/ProjectServiceImpl.java:48 | saving a new entity runs its hook, gives it the next identity and stores it there; saving a loaded one overwrites its row; the entity ends up as the stored row |
| Repositories.UserRepository.constructor | backendcode/src/main/java/com/example/projectmanagement/service/impl/UserServiceImpl.java:22-26 | the repository starts empty, handing out identity 1 first |
| Repositories.UserRepository.FindAll | backendcode/src/main/java/com/example/projectmanagement/service/impl/UserServiceImpl.java:84-86 | `findAll` lists exactly the stored users |
| Repositories.UserRepository.FindByUsername | backendcode/src/main/java/com/example/projectmanagement/service/impl/UserServiceImpl.java:90-94 | a user is found exactly when one has the name (a `null` name matches a user without one), and it is a stored user with that name |
| Repositories.UserRepository.Save | backendcode/src/main/java/com/example/projectmanagement/service/impl/UserServiceImpl.java:38-40 | saving a new entity runs its hook, gives it the next identity and stores it there; saving a loaded one overwrites its row |
| ProjectService.AssignedNeedsBoth | backendcode/src/main/java/com/example/projectmanagement/service/impl/ProjectServiceImpl.java:143-147 | an unassigned project is nobody's, and no project is anybody's without a signed-in user |
| ProjectService.CreatedRow | backendcode/src/main/java/com/example/projectmanagement/service/impl/ProjectServiceImpl.java:35-49 | the created project gets the new id, status NOT_STARTED, the request's fields and the looked-up user as assignee |
| ProjectService.UpdatedRow | backendcode/src/main/java/com/example/projectmanagement/service/impl/ProjectServiceImpl.java:53-70 | an update keeps id and status, takes each non-null request field, and takes the looked-up user as assignee when one is named |
| ProjectService.UpdateTwiceIsUpdateOnce | backendcode/src/main/java/com/example/projectmanagement/service/impl/ProjectServiceImpl.java:53-70 | sending the same update twice stores the same row as sending it once |
| ProjectService.Dtos | backendcode/src/main/java/com/example/projectmanagement/service/impl/ProjectServiceImpl.java:129-131 | one transfer object per project, in order |
| ProjectService.ProjectService.constructor | backendcode/src/main/java/com/example/projectmanagement/service/impl/ProjectServiceImpl.java:27-31 | the service works on the given repositories |
| ProjectService.ProjectService.CreateProject | backendcode/src/main/java/com/example/projectmanagement/service/impl/ProjectServiceImpl.java:35-49 | non-managers are refused first, then an unknown assignee is not found; success exactly otherwise, storing the created row under the next id; a failure stores nothing |
| ProjectService.ProjectService.UpdateProject | backendcode/src/main/java/com/example/projectmanagement/service/impl/ProjectServiceImpl.java:53-70 | non-managers are refused, then an unknown project, then an unknown assignee is not found; success exactly otherwise, replacing only that row; a failure stores nothing |
| ProjectService.ProjectService.DeleteProject | backendcode/src/main/java/com/example/projectmanagement/service/impl/ProjectServiceImpl.java:74-83 | non-managers are refused, then an unknown id is not found; success exactly otherwise, removing exactly that id |
| ProjectService.ProjectService.GetProjectById | backendcode/src/main/java/com/example/projectmanagement/service/impl/ProjectServiceImpl.java:87-96 | an unknown id is not found before any role check; a found project is returned exactly to a manager or its assignee, as its transfer object |
| ProjectService.ProjectService.UpdateProjectStatus | backendcode/src/main/java/com/example/projectmanagement/service/impl/ProjectServiceImpl.java:109-119 | an unknown id is not found, then callers other than a manager or the assignee are refused; success exactly otherwise, changing only that project's status |
| ProjectService.ProjectService.GetUserProjects | backendcode/src/main/java/com/example/projectmanagement/service/impl/ProjectServiceImpl.java:123-141 | "User not found" without a stored caller; otherwise the page of the caller's projects with their total, and an unexpected error exactly when the offset lies past the end |
| ProjectService.ProjectService.GetAllProjects | backendcode/src/main/java/com/example/projectmanagement/service/impl/ProjectServiceImpl.java:100-105 | a manager gets a page of all projects with their total, anyone else the page of their own |
| ProjectService.ProjectService.UserPageIsOwn | backendcode/src/main/java/com/example/projectmanagement/service/impl/ProjectServiceImpl.java:123-147 | a page of the caller's projects holds at most the page size, each a stored project assigned to the caller |
| UserService.CreatedUser | backendcode/src/main/java/com/example/projectmanagement/service/impl/UserServiceImpl.java:30-41 | the created user gets the new id, the encoded password, the request's username, email and names, is enabled, and has EMPLOYEE when no role was given |
| UserService.UpdatedUser | backendcode/src/main/java/com/example/projectmanagement/service/impl/UserServiceImpl.java:45-63 | an update keeps id, username and enabled, encodes a new password only when one is given, and otherwise applies the mapper's update |
| UserService.CreatePreservesUnique | backendcode/src/main/java/com/example/projectmanagement/service/impl/UserServiceImpl.java:30-41 | storing a user whose username and email are both unused keeps usernames and emails unique |
| UserService.UpdatePreservesUnique | backendcode/src/main/java/com/example/projectmanagement/service/impl/UserServiceImpl.java:45-63 | an update that passed the email check keeps usernames and emails unique |
| UserService.UserDtos | backendcode/src/main/java/com/example/projectmanagement/service/impl/UserServiceImpl.java:85 | one transfer object per user, in order |
| UserService.UserService.constructor | backendcode/src/main/java/com/example/projectmanagement/service/impl/UserServiceImpl.java:22-26 | the service works on the given repository |
| UserService.UserService.CreateUser | backendcode/src/main/java/com/example/projectmanagement/service/impl/UserServiceImpl.java:30-41 | a taken username is a conflict, checked before a taken email; success exactly otherwise, storing the created user under the next id; a failure stores nothing; uniqueness is preserved |
| UserService.UserService.UpdateUser | backendcode/src/main/java/com/example/projectmanagement/service/impl/UserServiceImpl.java:45-63 | an unknown id is not found, then anyone but a manager or the user themselves is refused, then a changed email already in use is a conflict; success exactly otherwise, replacing only that row and preserving uniqueness |
| UserService.UserService.DeleteUser | backendcode/src/main/java/com/example/projectmanagement/service/impl/UserServiceImpl.java:67-72 | success exactly for a stored id, removing exactly that id; otherwise not found with nothing removed |
| UserService.UserService.GetUserById | backendcode/src/main/java/com/example/projectmanagement/service/impl/UserServiceImpl.java:76-80 | the stored user's transfer object exactly when the id is stored, not found otherwise |
| UserService.UserService.GetAllUsers | backendcode/src/main/java/com/example/projectmanagement/service/impl/UserServiceImpl.java:84-86 | a page of at most the page size from the list of all users, with their total |
| UserService.UserService.GetCurrentUser | backendcode/src/main/java/com/example/projectmanagement/service/impl/UserServiceImpl.java:90-94 | success exactly when a stored user has the caller's username, and then the result is that stored user's DTO; "User not found" otherwise |
| DataInitializer.Admin | backendcode/src/main/java/com/example/projectmanagement/config/DataInitializer.java:24-31 | the administrator is the enabled manager "admin" with email "admin@example.com" and the encoded password "admin123" |
| DataInitializer.Seeded | backendcode/src/main/java/com/example/projectmanagement/config/DataInitializer.java:21-36 | an empty user table receives exactly the administrator; a non-empty one is left alone; either way it is not empty afterwards |
| DataInitializer.SeedIdempotent | backendcode/src/main/java/com/example/projectmanagement/config/DataInitializer.java:21-36 | a second start-up adds nothing |
| DataInitializer.Run | backendcode/src/main/java/com/example/projectmanagement/config/DataInitializer.java:21-36 | `run` leaves the repository holding the seeded users |

## Left out

- React rendering, toasts, navigation calls, dialogs and query caching are UI plumbing. Only the decisions and data inside the components are modelled.
- The simulated latency (`setTimeout` in src/services/api.ts, src/context/AuthContext.tsx and src/pages/Settings.tsx) is dropped. Every operation is synchronous.
- `fetch`, CORS mode and console logging are I/O. A response is a status, a Content-Length and a body text, and JSON parsing is an abstract `Option`.
- Dates are integers. `parseISO`, `new Date(...)`, `format(...)` and date-fns calendar arithmetic are parameters, and "now" is a parameter.
- The monthly and weekly series of src/pages/Reports.tsx:135-216 are left out. They are date-fns calendar arithmetic over the current date.
- Floating point is not modelled. `Math.round(completed / total * 100)` is the exact quotient rounded half up, and the chart percent labels are left out.
- `localeCompare` is an abstract rank parameter wherever names are sorted.
- Case conversion covers ASCII letters only.
- The email checks of the schema library are the parameter `isEmail`, because the library's regular expression is not part of this model.
- The password encoder is the parameter `encode`, and the random timestamps of the fixtures are the parameter `stamp`.
- The status select's label in src/pages/ProjectDetail.tsx:235-244 is presentation only and is not modelled.
- The notification form and `onProfileSubmit` in src/pages/Settings.tsx only wait and show a toast, so they are left out.
- Controllers, `AuthServiceImpl`, `CorsConfig`, the service and repository interfaces and the DTO classes are Spring wiring and foreign calls. `@PreAuthorize` and Bean Validation are not modelled.
- src/services/authApi.ts, src/pages/Login.tsx, the badge and stat-card components, the build configuration and `ProjectManagementApplication` are not part of this model. They are thin wrappers, presentation or tooling.
- Repository listings come in ascending id order. The database's order is unspecified, and ascending id is the order rows are inserted.
- Identity values come from a counter, as `GenerationType.IDENTITY` hands them out. The count behind `userRepository.count()` is the size of the map.
- Repositories.ProjectRepository.Save: saving an entity whose id is not stored (a JPA merge that inserts) is excluded by a precondition. The services only save new entities or loaded ones.
- A project's assignee is a copy of the user's id, username and names, taken when the project is saved. JPA would follow the reference, so a later rename of the user is not reflected in the model.
- The `cascade = CascadeType.ALL` on `User.assignedProjects` is not modelled. `deleteUser` leaves that user's projects in place.
- A stored user or assignee without a username or email would make Java fail on a null dereference in `updateUser` and `isUserAssignedToProject`. The model treats such a record as nobody's and compares emails as optional values.
- `handleValidationExceptions` casts every error to `FieldError`. The `ClassCastException` that an object-level error would raise is not modelled, because the model's validation failures carry field errors only.
- The `(int)` cast of the page offset and an overflow of offset plus size are not modelled. Offsets and sizes are unbounded naturals.
- The fields of the `Auditable` base class, which is not part of this model, are not stored in the rows. Only the auditor value `AuditAwareImpl` supplies is modelled.
- ExceptionHandler.Handle: the text of `ResourceNotFoundException(resource, field, value)` is formatted by the exception class, which is not part of this model. It is the parameter `missingMessage`.
- AuthContext.MockUsers: the avatar image URLs of the two built-in accounts are left out (`None`). Nothing in the session logic reads them.
- The assignee select's change handler in src/pages/ProjectForm.tsx:332 is widget wiring and is not modelled. Its values are decimal user ids, which Text.ParseIntAutoOfNatToString reads back unchanged.
- AuthContext.Decoded: `JSON.parse` of the stored entry is modelled as a user, `null` or a throw. A stored primitive such as "123" would parse to a truthy non-user that the source sets as the user; that case is not modelled.
- MockData.MockProjects: its contract states only the number of fixture projects. Per-project facts were too costly to state with the long fixture strings. Id distinctness is proved separately by MockData.FixtureProjectIdsDistinct.

## Findings

| source | as written | input that shows it | evidently intended | confidence | as-written member | corrected member |
|---|---|---|---|---|---|---|
| src/App.tsx:44-45 | "/dashboard" is guarded with `requiresManager`, and a non-manager who fails that guard is redirected to "/dashboard" (src/components/auth/protected-route.tsx:26-28) | a signed-in EMPLOYEE opens "/dashboard", where src/pages/Login.tsx:53 sends every user after login | "/dashboard" needs sign-in only, since the page has an employee view and the sidebar offers it to everyone; every redirect then lands on a page that is shown | not executed; the redirect target equals the guarded path | AppRoutes.DashboardRedirectLoops | AppRoutes.IntendedRedirectsSettle |
| src/pages/ProjectDetail.tsx:54 | `currentUser` is read from `useAuth()`, but the context (src/context/AuthContext.tsx:5-12, 88-95) provides `user` and no `currentUser`; so `project?.assignedToId === currentUser?.id` at line 125 compares with `undefined` | an employee opens a project assigned to them: the assignee id is a number, `currentUser?.id` is `undefined`, and "Update Status" is not shown | the assigned user may change the status, as the comment at line 124 says, with the signed-in user's id | not executed; follows from the context's type and value | ProjectDetail.StatusUpdateManagersOnly | ProjectDetail.CanUpdateStatusOfLoadedProject |
| src/services/api.ts:28 | a new project's id is "p" followed by the list's length plus one; users get "u" the same way at line 136 | the store holds "p1" and "p2"; "p1" is deleted; the next create gets "p2", which is still in use | a fresh id not already in the store; both stores' `Create` keep the written formula, and their `CreateFresh` use the corrected id | not executed; follows from the id formula and `splice` | ApiStore.WrittenNewIdCollides | ApiStore.ProjectStore.CreateFresh |
