/**
 * The entities the task controller works with: callers, tasks, comments,
 * the request bodies (DTOs) it receives and the errors it raises.
 */
module Domain {

  /** Ids are Java `Long`s: any integer may be asked for. */
  type TaskId = int
  type ProjectId = int
  type CommentId = int
  type UserName = string

  /** Java's `int`, the type `TextNode.asInt()` returns. */
  newtype Int32 = x: int | -0x8000_0000 <= x < 0x8000_0000

  /** Java's signed `byte`, the type a task's progress is stored in. */
  newtype Int8 = x: int | -0x80 <= x < 0x80

  /** The two authorities that `@PreAuthorize("hasRole(...)")` tests for. */
  datatype Role = RoleUser | RoleAdmin

  /** The authenticated caller: the subject name carried by the bearer token
      (or the request principal) and the roles granted to it. */
  datatype Caller = Caller(name: UserName, roles: set<Role>)

  /** Task state: `CLOSED` is the one value the controller inspects; every
      other value of the enumeration is carried by its name. */
  datatype TaskState = Closed | Other(name: OtherStateName)

  /** The name of a state other than CLOSED. */
  type OtherStateName = s: string | s != "CLOSED" witness "OPEN"

  datatype TaskResolution = Resolution(name: string)

  datatype Task = Task(
    id: TaskId,
    name: string,
    description: string,
    kind: string,
    owner: UserName,
    project: ProjectId,
    state: TaskState,
    resolution: TaskResolution,
    progress: Int8)

  datatype Comment = Comment(id: CommentId, taskId: TaskId, author: UserName, text: string)

  /** Request body of task creation and update. */
  datatype TaskDto = TaskDto(name: string, description: string, kind: string, owner: UserName, project: ProjectId)

  /** Request body of comment creation. */
  datatype CommentDto = CommentDto(taskId: TaskId, text: string)

  /** Workflow values a freshly created task starts with (chosen by the task service). */
  datatype Defaults = Defaults(state: TaskState, resolution: TaskResolution, progress: Int8)

  datatype Error =
    | AccessDenied        // the role required by `@PreAuthorize` is missing
    | NotFound            // InstanceNotFoundException
    | DuplicatedResource  // DuplicatedResourceException, raised when an ownership check fails
    | InvalidState        // InalidStateException, raised for a CLOSED task

  datatype Result<T> = Ok(value: T) | Err(error: Error)

  datatype Option<T> = None | Some(value: T)
}
