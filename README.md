# Task controller guard layer — a Dafny model

This project models the authorization and workflow guards of the
tasks-app REST controller (`TaskController`). Each mutating handler there
checks a fixed sequence of guards before it makes exactly one change
through the task service:

- the role that `@PreAuthorize` demands (`ROLE_ADMIN` for create, update,
  remove and change-state; `ROLE_USER` for resolution, progress and
  comments);
- an ownership test: owner of a project (create, update, remove,
  change-state), owner of the task (resolution), or owner of the task OR
  of its project (progress);
- for resolution and progress, a guard that refuses a `CLOSED` task.

A failed guard raises an exception and nothing is written. The read
handlers (`doGetTasks`, `doGetTaskById`, `doGetCommentById`) are not
guarded at all.

Files and modules:

- `domain.dfy` (`Domain`): callers and roles, tasks, comments, request
  bodies, Java's `int` and `byte`, and the error kinds: `AccessDenied`
  (the `@PreAuthorize` refusal), `NotFound` (`InstanceNotFoundException`),
  `DuplicatedResource` (`DuplicatedResourceException`, which the controller
  raises when an ownership test fails) and `InvalidState`
  (`InalidStateException`).
- `javacast.dfy` (`JavaCast`): the `(byte)` cast applied to the progress value.
- `authorization.dfy` (`Authorization`): the decision table. For every
  operation it gives the required role, the ownership rule and whether
  `CLOSED` blocks it, and `Permits` combines role AND ownership.
- `handlers.dfy` (`Handlers`): the task and project services as an abstract
  store. Tasks, comments and project owners are maps, and new ids come from
  counters. Each mutating handler is a function of the store. It runs its
  guards in the controller's order, and its contract states when it succeeds
  (against the decision table), which error each failure gives, that a
  failure leaves the store unchanged, and the one change a success makes.
  `Run` handles a sequence of requests.
- `controller.dfy` (`Controller`): class `TaskController`. Its fields are the
  services' maps and counters. Each handler is a method that checks its
  guards on locals and then updates one map. Its postcondition ties the new
  state and the answer to the matching `Handlers` function, and it keeps the
  store invariant `Valid`.
- `properties.dfy` (`Properties`): which error comes first, what the `CLOSED`
  guard does and does not block, idempotence of change-state, a worked
  scenario, and lemmas by induction over request sequences.

Four facts about the controller that the model makes explicit:

- Progress is not range-checked. The controller stores
  `(byte) progress.asInt()`, so 101 is stored as 101 and 200 as -56
  (`ProgressIsNotRangeChecked`).
- For resolution and progress, the ownership test runs before the `CLOSED`
  guard. A caller who is not allowed to change the task therefore gets
  `DuplicatedResource`, not `InvalidState` (`OwnershipReportedBeforeClosed`,
  `Scenario`).
- Every failed ownership test is raised as `DuplicatedResourceException`;
  there is no separate "forbidden" exception.
- Update checks ownership of the project named in the request body, not of
  the task's current project. An admin who owns some project can therefore
  move into it a task from a project they do not own
  (`UpdateCheckedAgainstBodyProject`).

## Model

| member | source | states |
|---|---|---|
| `JavaCast.ToByte` | app/src/main/java/com/tasks/rest/TaskController.java:198 | `(byte) v` is the byte value congruent to `v` modulo 256 |
| `JavaCast.ToByteIdentity` | app/src/main/java/com/tasks/rest/TaskController.java:198 | the cast leaves `v` unchanged exactly when `v` lies in -128..127 |
| `JavaCast.ToByteSamples` | app/src/main/java/com/tasks/rest/TaskController.java:198 | 0, 100 and 101 survive the cast; 128, 200, 256 and 300 wrap to -128, -56, 0 and 44 |
| `Authorization.OnlyReadsAreUnguarded` | app/src/main/java/com/tasks/rest/TaskController.java:57-226 | an operation is allowed to a caller with no role and no ownership exactly when it is one of the three reads |
| `Authorization.ProjectOwnerMayProgressButNotResolve` | app/src/main/java/com/tasks/rest/TaskController.java:162-188 | for a ROLE_USER caller, owning the project permits a progress change but not a resolution change |
| `Handlers.CreateTask` | app/src/main/java/com/tasks/rest/TaskController.java:79-91 | succeeds iff the caller has ROLE_ADMIN and owns the project named in the body; missing role is AccessDenied, an unknown project NotFound, a project owned by someone else DuplicatedResource; on failure the store is unchanged; on success the new task takes the next id, with the body's fields and the service's initial workflow values |
| `Handlers.UpdateTask` | app/src/main/java/com/tasks/rest/TaskController.java:101-111 | succeeds iff ROLE_ADMIN, the caller owns the project named in the body, and the task exists; missing role is AccessDenied; DuplicatedResource whenever the body's project exists but is not the caller's, even for an unknown task; NotFound for an unknown body project, or an owned body project and an unknown task; on success only the body's fields change and state, resolution and progress are kept |
| `Handlers.RemoveTask` | app/src/main/java/com/tasks/rest/TaskController.java:120-129 | succeeds iff ROLE_ADMIN, the task exists and the caller owns the task's project; missing role is AccessDenied; an unknown task is NotFound before any ownership test; DuplicatedResource exactly when the task exists and its project is someone else's; on success exactly that task is removed |
| `Handlers.ChangeState` | app/src/main/java/com/tasks/rest/TaskController.java:138-149 | succeeds iff ROLE_ADMIN, the task exists and the caller owns its project, whatever the current state; missing role is AccessDenied, an unknown task NotFound, a task in someone else's project DuplicatedResource; on success only the state field changes |
| `Handlers.ChangeResolution` | app/src/main/java/com/tasks/rest/TaskController.java:158-174 | succeeds iff ROLE_USER, the caller owns the task (project ownership does not count) and the task is not CLOSED (the decision table's CLOSED guard); NotFound, DuplicatedResource and InvalidState are each characterised; on success only the resolution changes |
| `Handlers.ChangeProgress` | app/src/main/java/com/tasks/rest/TaskController.java:181-199 | succeeds iff ROLE_USER, the caller owns the task or its project, and the task is not CLOSED (the decision table's CLOSED guard); InvalidState only for an otherwise allowed caller; on success only the progress changes, to the byte cast of the value |
| `Handlers.CreateComment` | app/src/main/java/com/tasks/rest/TaskController.java:208-215 | succeeds iff ROLE_USER and the task exists, with no ownership test; missing role is AccessDenied, an unknown task NotFound; the comment's author is the caller; on failure nothing changes |
| `Controller.TaskController.constructor` | app/src/main/java/com/tasks/rest/TaskController.java:43-50 | starts with no tasks or comments, the given project owners, and a valid store |
| `Controller.TaskController.DoGetTasks` | app/src/main/java/com/tasks/rest/TaskController.java:57-61 | a blank or absent owner gives every task; otherwise exactly the tasks whose owner is the given name |
| `Controller.TaskController.DoGetTaskById` | app/src/main/java/com/tasks/rest/TaskController.java:68-71 | the stored task for a known id, NotFound otherwise; no role needed |
| `Controller.TaskController.DoGetCommentById` | app/src/main/java/com/tasks/rest/TaskController.java:223-226 | the stored comment for a known id, NotFound otherwise; no role needed |
| `Controller.TaskController.DoCreateTask` | app/src/main/java/com/tasks/rest/TaskController.java:78-92 | new state and answer are those of `Handlers.CreateTask`; the store stays valid |
| `Controller.TaskController.DoUpdateTask` | app/src/main/java/com/tasks/rest/TaskController.java:100-112 | new state and answer are those of `Handlers.UpdateTask`; the store stays valid |
| `Controller.TaskController.DoRemoveTaskById` | app/src/main/java/com/tasks/rest/TaskController.java:119-130 | new state and answer are those of `Handlers.RemoveTask`; the store stays valid |
| `Controller.TaskController.DoChangeTaskState` | app/src/main/java/com/tasks/rest/TaskController.java:137-150 | new state and answer are those of `Handlers.ChangeState`; the store stays valid |
| `Controller.TaskController.DoChangeTaskResolution` | app/src/main/java/com/tasks/rest/TaskController.java:157-175 | new state and answer are those of `Handlers.ChangeResolution`; the store stays valid |
| `Controller.TaskController.DoChangeTaskProgress` | app/src/main/java/com/tasks/rest/TaskController.java:181-200 | new state and answer are those of `Handlers.ChangeProgress`, with project ownership consulted only when the caller does not own the task; the store stays valid |
| `Controller.TaskController.DoCreateTaskComment` | app/src/main/java/com/tasks/rest/TaskController.java:207-216 | new state and answer are those of `Handlers.CreateComment`; the store stays valid |
| `Properties.MissingTaskReportedBeforeOwnership` | app/src/main/java/com/tasks/rest/TaskController.java:122-143 | for an admin, an unknown id makes remove and change-state answer NotFound and change nothing, whoever asks |
| `Properties.UpdateCheckedAgainstBodyProject` | app/src/main/java/com/tasks/rest/TaskController.java:104-110 | a body naming a project the caller does not own is refused even for an unknown task; a body naming one the caller owns moves the task into it, whoever owns its current project |
| `Properties.OwnershipReportedBeforeClosed` | app/src/main/java/com/tasks/rest/TaskController.java:162-196 | on a CLOSED task, resolution gives DuplicatedResource to a non-owner and InvalidState to the owner; progress gives InvalidState to task or project owners and DuplicatedResource to others; nothing changes |
| `Properties.ChangeStateReopens` | app/src/main/java/com/tasks/rest/TaskController.java:142-149 | an admin who owns the project can move a CLOSED task to any state, and resolution and progress are kept |
| `Properties.ChangeStateIdempotent` | app/src/main/java/com/tasks/rest/TaskController.java:142-149 | repeating a successful change-state gives the same answer and changes nothing more |
| `Properties.ProgressIsNotRangeChecked` | app/src/main/java/com/tasks/rest/TaskController.java:194-198 | an allowed progress change stores 101 as 101, 200 as -56 and -1 as -1 |
| `Properties.Scenario` | app/src/main/java/com/tasks/rest/TaskController.java:138-198 | alice (task owner) sets resolution and progress, bob (project owner) sets progress, carol is refused, bob closes the task, then alice meets InvalidState and carol DuplicatedResource |
| `Properties.ApplyPreservesValid` | app/src/main/java/com/tasks/rest/TaskController.java:82-212 | every handler keeps tasks and comments under fresh ids and every task in a known project |
| `Properties.RunPreservesValid` | app/src/main/java/com/tasks/rest/TaskController.java:82-212 | any sequence of requests keeps the store valid |
| `Properties.MissingRoleChangesNothing` | app/src/main/java/com/tasks/rest/TaskController.java:79-208 | a request without the role its operation requires leaves the store unchanged |
| `Properties.UnauthorizedRequestsChangeNothing` | app/src/main/java/com/tasks/rest/TaskController.java:79-208 | a sequence of requests that all lack their required role leaves the store unchanged |
| `Properties.FrozenStep` | app/src/main/java/com/tasks/rest/TaskController.java:138-196 | a request that is not an admin's change-state of the CLOSED task to another state keeps it CLOSED with the same resolution and progress, or absent; refused or re-closing change-state requests included |
| `Properties.FrozenRun` | app/src/main/java/com/tasks/rest/TaskController.java:138-196 | the same over any sequence of such requests |
| `Properties.ClosedTaskStaysClosed` | app/src/main/java/com/tasks/rest/TaskController.java:138-196 | once CLOSED, a task stays CLOSED with the same resolution and progress, whoever sends requests, until an admin asks to move it to a state other than CLOSED |
| `Properties.NonAdminStep` | app/src/main/java/com/tasks/rest/TaskController.java:79-148 | a request from a caller without ROLE_ADMIN changes no task's existence, name, description, type, owner, project or state |
| `Properties.NonAdminsOnlyTouchWorkflow` | app/src/main/java/com/tasks/rest/TaskController.java:79-148 | the same over any sequence of requests from non-admins: only resolutions, progress and comments can change |

## Left out

- Token handling: `JwtTokenProvider` is not part of this model. The name
  `getUser(token).getName()` yields, and the request principal used for
  comments, are both the given `Caller.name`.
- Spring Security configuration (`WebSecurityConfig.java`), the browser-side
  `UserService.js`, HTTP status codes, response bodies, `Location` URIs and
  Swagger annotations: plumbing with no guard logic.
- Role hierarchy: roles are a set and `hasRole` is literal membership;
  whether ROLE_ADMIN implies ROLE_USER is not visible.
- Parsing of request values: `TaskState.valueOf` / `TaskResolution.valueOf`
  on an unknown name, and `TextNode.asInt` on non-numeric text, are not
  modelled. Handlers receive the parsed state, resolution or `int`.
- Service internals that are not visible. `TasksService.update` and
  `TasksService.addComment` declare `InalidStateException`, but the
  condition is unknown, so it is not raised. An unknown task given to
  update or addComment, or an unknown project given to
  `ProjectService.isOwner`, is taken to raise NotFound. Whether removing a
  task removes its comments is unknown; comments are kept. A new task's
  initial state, resolution and progress are a parameter of the store
  (`Defaults`). Ids come from counters.
- `doGetTasks` returns the tasks as a set: the order in which the services
  iterate is not modelled.
- Ids are Java `Long`s and are modelled as unbounded integers, so a
  negative id is simply unknown (NotFound); 64-bit overflow of the id
  counters is not modelled. A state name is either `CLOSED` or another
  name, never both.
- Concurrency and transactional atomicity of the read-then-write
  sequences: the model handles one request at a time.
