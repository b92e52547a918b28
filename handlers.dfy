/**
 * The task controller's handlers as functions of an abstract store: each
 * one runs its guards in the order the controller does and, when all pass,
 * makes exactly one change to the store. A failed guard leaves the store
 * as it was. The task and project services are modelled as map lookups
 * and map updates.
 */
module Handlers {
  import opened Domain
  import opened JavaCast
  import opened Authorization

  /** What the task and project services hold: tasks and comments by id,
      the owner of every project, the next free ids, and the workflow
      values a new task starts with. */
  datatype Store = Store(
    tasks: map<TaskId, Task>,
    projects: map<ProjectId, UserName>,
    comments: map<CommentId, Comment>,
    nextTaskId: nat,
    nextCommentId: nat,
    defaults: Defaults)

  /** The store after a handler ran, and what the handler answered. */
  datatype Outcome<T> = Outcome(store: Store, result: Result<T>)

  /** Every entity is stored under its own id, ids below the next free one
      are the only ones in use, and every task belongs to a known project. */
  ghost predicate Valid(st: Store)
  {
    && (forall id :: id in st.tasks ==>
          0 <= id < st.nextTaskId && st.tasks[id].id == id && st.tasks[id].project in st.projects)
    && (forall id :: id in st.comments ==> 0 <= id < st.nextCommentId && st.comments[id].id == id)
  }

  // Ownership relations, as the contracts below state them.

  predicate OwnsProjectOf(st: Store, project: ProjectId, name: UserName)
  {
    project in st.projects && st.projects[project] == name
  }

  predicate OwnsTaskOf(st: Store, id: TaskId, name: UserName)
  {
    id in st.tasks && st.tasks[id].owner == name
  }

  // The service calls the controller makes.

  /** `ProjectService.isOwner`: owner-field equality; an unknown project is NotFound. */
  function IsProjectOwner(st: Store, project: ProjectId, name: UserName): Result<bool>
  {
    if project in st.projects then Ok(st.projects[project] == name) else Err(NotFound)
  }

  /** `TasksService.isOwner`: owner-field equality; an unknown task is NotFound. */
  function IsTaskOwner(st: Store, id: TaskId, name: UserName): Result<bool>
  {
    if id in st.tasks then Ok(st.tasks[id].owner == name) else Err(NotFound)
  }

  /** `TasksService.findById`. */
  function FindById(st: Store, id: TaskId): Result<Task>
  {
    if id in st.tasks then Ok(st.tasks[id]) else Err(NotFound)
  }

  function Fail<T>(st: Store, e: Error): Outcome<T>
  {
    Outcome(st, Err(e))
  }

  /** The task `TasksService.create` builds from a request body. */
  function NewTask(id: TaskId, dto: TaskDto, defaults: Defaults): Task
  {
    Task(id, dto.name, dto.description, dto.kind, dto.owner, dto.project,
         defaults.state, defaults.resolution, defaults.progress)
  }

  /** `doCreateTask`: ROLE_ADMIN, then ownership of the project named in the body. */
  function CreateTask(st: Store, caller: Caller, dto: TaskDto): (o: Outcome<Task>)
    ensures o.result.Ok? <==> Permits(CreateTaskOp, caller, false, OwnsProjectOf(st, dto.project, caller.name))
    ensures o.result == Err(AccessDenied) <==> !HasRequiredRole(CreateTaskOp, caller)
    ensures o.result == Err(NotFound) <==> HasRequiredRole(CreateTaskOp, caller) && dto.project !in st.projects
    ensures o.result == Err(DuplicatedResource) <==>
              HasRequiredRole(CreateTaskOp, caller) && dto.project in st.projects && !OwnsProjectOf(st, dto.project, caller.name)
    ensures o.result.Err? ==> o.store == st
    ensures o.result.Ok? ==>
              && o.result.value == NewTask(st.nextTaskId, dto, st.defaults)
              && o.store == st.(tasks := st.tasks[st.nextTaskId := o.result.value],
                                nextTaskId := st.nextTaskId + 1)
  {
    if RoleAdmin !in caller.roles then Fail(st, AccessDenied)
    else match IsProjectOwner(st, dto.project, caller.name)
      case Err(e) => Fail(st, e)
      case Ok(isOwner) =>
        if !isOwner then Fail(st, DuplicatedResource)
        else
          var task := NewTask(st.nextTaskId, dto, st.defaults);
          Outcome(st.(tasks := st.tasks[task.id := task], nextTaskId := st.nextTaskId + 1), Ok(task))
  }

  /** `doUpdateTask`: ROLE_ADMIN, then ownership of the project named in the
      body (not of the task's current project), then the update, which
      fails for an unknown task. */
  function UpdateTask(st: Store, caller: Caller, id: TaskId, dto: TaskDto): (o: Outcome<Task>)
    ensures o.result.Ok? <==>
              id in st.tasks && Permits(UpdateTaskOp, caller, false, OwnsProjectOf(st, dto.project, caller.name))
    ensures o.result == Err(AccessDenied) <==> !HasRequiredRole(UpdateTaskOp, caller)
    ensures o.result == Err(DuplicatedResource) <==>
              HasRequiredRole(UpdateTaskOp, caller) && dto.project in st.projects && !OwnsProjectOf(st, dto.project, caller.name)
    ensures o.result == Err(NotFound) <==>
              && HasRequiredRole(UpdateTaskOp, caller)
              && (dto.project !in st.projects || (OwnsProjectOf(st, dto.project, caller.name) && id !in st.tasks))
    ensures o.result.Err? ==> o.store == st
    ensures o.result.Ok? ==>
              && id in st.tasks
              && o.result.value == st.tasks[id].(name := dto.name, description := dto.description,
                                                 kind := dto.kind, owner := dto.owner, project := dto.project)
              && o.store == st.(tasks := st.tasks[id := o.result.value])
  {
    if RoleAdmin !in caller.roles then Fail(st, AccessDenied)
    else match IsProjectOwner(st, dto.project, caller.name)
      case Err(e) => Fail(st, e)
      case Ok(isOwner) =>
        if !isOwner then Fail(st, DuplicatedResource)
        else match FindById(st, id)
          case Err(e) => Fail(st, e)
          case Ok(old_) =>
            var task := old_.(name := dto.name, description := dto.description,
                              kind := dto.kind, owner := dto.owner, project := dto.project);
            Outcome(st.(tasks := st.tasks[id := task]), Ok(task))
  }

  /** `doRemoveTaskById`: ROLE_ADMIN, then the task lookup, then ownership of
      the task's project. */
  function RemoveTask(st: Store, caller: Caller, id: TaskId): (o: Outcome<()>)
    ensures o.result.Ok? <==>
              id in st.tasks && Permits(RemoveTaskOp, caller, false, OwnsProjectOf(st, st.tasks[id].project, caller.name))
    ensures o.result == Err(AccessDenied) <==> !HasRequiredRole(RemoveTaskOp, caller)
    ensures o.result == Err(NotFound) <==>
              HasRequiredRole(RemoveTaskOp, caller) && (id !in st.tasks || st.tasks[id].project !in st.projects)
    ensures o.result == Err(DuplicatedResource) <==>
              && HasRequiredRole(RemoveTaskOp, caller) && id in st.tasks && st.tasks[id].project in st.projects
              && !OwnsProjectOf(st, st.tasks[id].project, caller.name)
    ensures o.result.Err? ==> o.store == st
    ensures o.result.Ok? ==> o.store == st.(tasks := st.tasks - {id})
  {
    if RoleAdmin !in caller.roles then Fail(st, AccessDenied)
    else match FindById(st, id)
      case Err(e) => Fail(st, e)
      case Ok(task) =>
        match IsProjectOwner(st, task.project, caller.name)
        case Err(e) => Fail(st, e)
        case Ok(isOwner) =>
          if !isOwner then Fail(st, DuplicatedResource)
          else Outcome(st.(tasks := st.tasks - {id}), Ok(()))
  }

  /** `doChangeTaskState`: ROLE_ADMIN, the task lookup, ownership of the
      task's project; the current state is not consulted. */
  function ChangeState(st: Store, caller: Caller, id: TaskId, state: TaskState): (o: Outcome<Task>)
    ensures o.result.Ok? <==>
              id in st.tasks && Permits(ChangeStateOp, caller, false, OwnsProjectOf(st, st.tasks[id].project, caller.name))
    ensures o.result == Err(AccessDenied) <==> !HasRequiredRole(ChangeStateOp, caller)
    ensures o.result == Err(NotFound) <==>
              HasRequiredRole(ChangeStateOp, caller) && (id !in st.tasks || st.tasks[id].project !in st.projects)
    ensures o.result == Err(DuplicatedResource) <==>
              && HasRequiredRole(ChangeStateOp, caller) && id in st.tasks && st.tasks[id].project in st.projects
              && !OwnsProjectOf(st, st.tasks[id].project, caller.name)
    ensures o.result.Err? ==> o.store == st
    ensures o.result.Ok? ==>
              && id in st.tasks
              && o.result.value == st.tasks[id].(state := state)
              && o.store == st.(tasks := st.tasks[id := o.result.value])
  {
    if RoleAdmin !in caller.roles then Fail(st, AccessDenied)
    else match FindById(st, id)
      case Err(e) => Fail(st, e)
      case Ok(task) =>
        match IsProjectOwner(st, task.project, caller.name)
        case Err(e) => Fail(st, e)
        case Ok(isOwner) =>
          if !isOwner then Fail(st, DuplicatedResource)
          else
            var changed := task.(state := state);
            Outcome(st.(tasks := st.tasks[id := changed]), Ok(changed))
  }

  /** `doChangeTaskResolution`: ROLE_USER, task ownership, then the CLOSED guard. */
  function ChangeResolution(st: Store, caller: Caller, id: TaskId, resolution: TaskResolution): (o: Outcome<Task>)
    ensures o.result.Ok? <==>
              && id in st.tasks
              && Permits(ChangeResolutionOp, caller, OwnsTaskOf(st, id, caller.name),
                         OwnsProjectOf(st, st.tasks[id].project, caller.name))
              && !(BlockedWhenClosed(ChangeResolutionOp) && st.tasks[id].state == Closed)
    ensures o.result == Err(AccessDenied) <==> !HasRequiredRole(ChangeResolutionOp, caller)
    ensures o.result == Err(NotFound) <==> HasRequiredRole(ChangeResolutionOp, caller) && id !in st.tasks
    ensures o.result == Err(DuplicatedResource) <==>
              HasRequiredRole(ChangeResolutionOp, caller) && id in st.tasks && !OwnsTaskOf(st, id, caller.name)
    ensures o.result == Err(InvalidState) <==>
              HasRequiredRole(ChangeResolutionOp, caller) && OwnsTaskOf(st, id, caller.name) && st.tasks[id].state == Closed
    ensures o.result.Err? ==> o.store == st
    ensures o.result.Ok? ==>
              && id in st.tasks
              && o.result.value == st.tasks[id].(resolution := resolution)
              && o.store == st.(tasks := st.tasks[id := o.result.value])
  {
    if RoleUser !in caller.roles then Fail(st, AccessDenied)
    else match IsTaskOwner(st, id, caller.name)
      case Err(e) => Fail(st, e)
      case Ok(isOwner) =>
        match FindById(st, id)
        case Err(e) => Fail(st, e)
        case Ok(task) =>
          if !isOwner then Fail(st, DuplicatedResource)
          else if task.state == Closed then Fail(st, InvalidState)
          else
            var changed := task.(resolution := resolution);
            Outcome(st.(tasks := st.tasks[id := changed]), Ok(changed))
  }

  /** `doChangeTaskProgress`: ROLE_USER, task ownership or (only when that
      fails) ownership of the task's project, then the CLOSED guard; the
      value stored is the received `int` cast to a byte. */
  function ChangeProgress(st: Store, caller: Caller, id: TaskId, progress: Int32): (o: Outcome<Task>)
    ensures o.result.Ok? <==>
              && id in st.tasks
              && Permits(ChangeProgressOp, caller, OwnsTaskOf(st, id, caller.name),
                         OwnsProjectOf(st, st.tasks[id].project, caller.name))
              && !(BlockedWhenClosed(ChangeProgressOp) && st.tasks[id].state == Closed)
    ensures o.result == Err(AccessDenied) <==> !HasRequiredRole(ChangeProgressOp, caller)
    ensures o.result == Err(NotFound) <==>
              && HasRequiredRole(ChangeProgressOp, caller)
              && (id !in st.tasks || (!OwnsTaskOf(st, id, caller.name) && st.tasks[id].project !in st.projects))
    ensures o.result == Err(InvalidState) <==>
              && HasRequiredRole(ChangeProgressOp, caller) && id in st.tasks
              && (OwnsTaskOf(st, id, caller.name) || OwnsProjectOf(st, st.tasks[id].project, caller.name))
              && st.tasks[id].state == Closed
    ensures o.result.Err? ==> o.store == st
    ensures o.result.Ok? ==>
              && id in st.tasks
              && o.result.value == st.tasks[id].(progress := ToByte(progress))
              && o.store == st.(tasks := st.tasks[id := o.result.value])
  {
    if RoleUser !in caller.roles then Fail(st, AccessDenied)
    else match IsTaskOwner(st, id, caller.name)
      case Err(e) => Fail(st, e)
      case Ok(ownsTask) =>
        match FindById(st, id)
        case Err(e) => Fail(st, e)
        case Ok(task) =>
          var isOwner :=
            if ownsTask then Ok(true) else IsProjectOwner(st, task.project, caller.name);
          match isOwner
          case Err(e) => Fail(st, e)
          case Ok(allowed) =>
            if !allowed then Fail(st, DuplicatedResource)
            else if task.state == Closed then Fail(st, InvalidState)
            else
              var changed := task.(progress := ToByte(progress));
              Outcome(st.(tasks := st.tasks[id := changed]), Ok(changed))
  }

  /** `doCreateTaskComment`: ROLE_USER only; the author is the caller. */
  function CreateComment(st: Store, caller: Caller, dto: CommentDto): (o: Outcome<Comment>)
    ensures o.result.Ok? <==> Permits(CreateCommentOp, caller, false, false) && dto.taskId in st.tasks
    ensures o.result == Err(AccessDenied) <==> !HasRequiredRole(CreateCommentOp, caller)
    ensures o.result == Err(NotFound) <==> HasRequiredRole(CreateCommentOp, caller) && dto.taskId !in st.tasks
    ensures o.result.Err? ==> o.store == st
    ensures o.result.Ok? ==>
              && o.result.value == Comment(st.nextCommentId, dto.taskId, caller.name, dto.text)
              && o.store == st.(comments := st.comments[st.nextCommentId := o.result.value],
                                nextCommentId := st.nextCommentId + 1)
  {
    if RoleUser !in caller.roles then Fail(st, AccessDenied)
    else if dto.taskId !in st.tasks then Fail(st, NotFound)
    else
      var comment := Comment(st.nextCommentId, dto.taskId, caller.name, dto.text);
      Outcome(st.(comments := st.comments[comment.id := comment], nextCommentId := st.nextCommentId + 1),
              Ok(comment))
  }

  // Sequences of requests.

  /** A mutating request body, one per handler that writes. */
  datatype Action =
    | Create(dto: TaskDto)
    | Update(id: TaskId, dto: TaskDto)
    | Remove(id: TaskId)
    | SetState(id: TaskId, state: TaskState)
    | SetResolution(id: TaskId, resolution: TaskResolution)
    | SetProgress(id: TaskId, progress: Int32)
    | PostComment(comment: CommentDto)

  datatype Request = Request(caller: Caller, action: Action)

  /** The row of the decision table a request falls under. */
  function OperationOf(action: Action): Operation
  {
    match action
    case Create(_) => CreateTaskOp
    case Update(_, _) => UpdateTaskOp
    case Remove(_) => RemoveTaskOp
    case SetState(_, _) => ChangeStateOp
    case SetResolution(_, _) => ChangeResolutionOp
    case SetProgress(_, _) => ChangeProgressOp
    case PostComment(_) => CreateCommentOp
  }

  /** The store after one request, successful or not. */
  function Apply(st: Store, req: Request): Store
  {
    match req.action
    case Create(dto) => CreateTask(st, req.caller, dto).store
    case Update(id, dto) => UpdateTask(st, req.caller, id, dto).store
    case Remove(id) => RemoveTask(st, req.caller, id).store
    case SetState(id, state) => ChangeState(st, req.caller, id, state).store
    case SetResolution(id, resolution) => ChangeResolution(st, req.caller, id, resolution).store
    case SetProgress(id, progress) => ChangeProgress(st, req.caller, id, progress).store
    case PostComment(comment) => CreateComment(st, req.caller, comment).store
  }

  /** The store after the requests, handled one after another. */
  function Run(st: Store, reqs: seq<Request>): Store
    decreases |reqs|
  {
    if reqs == [] then st else Run(Apply(st, reqs[0]), reqs[1..])
  }
}
