/**
 * The task controller as an object over the services' shared state. Each
 * handler checks its guards on locals and only then makes its one change
 * to the task (or comment) map; its contract ties the new state and the
 * answer to the corresponding function of module Handlers, whose
 * contracts state the decision table. The read handlers take no caller:
 * they are not guarded.
 */
module Controller {
  import opened Domain
  import opened JavaCast
  import opened Handlers

  /** Characters `Character.isWhitespace` accepts. */
  const Whitespace: set<char> :=
    {' ', '\t', '\n', '\U{B}', '\U{C}', '\r', '\U{1C}', '\U{1D}', '\U{1E}', '\U{1F}',
     '\U{1680}', '\U{2000}', '\U{2001}', '\U{2002}', '\U{2003}', '\U{2004}', '\U{2005}',
     '\U{2006}', '\U{2008}', '\U{2009}', '\U{200A}', '\U{2028}', '\U{2029}', '\U{205F}',
     '\U{3000}'}

  /** `StringUtils.isBlank`: absent, empty or whitespace only. */
  predicate IsBlank(s: Option<string>)
  {
    match s
    case None => true
    case Some(text) => forall i :: 0 <= i < |text| ==> text[i] in Whitespace
  }

  class TaskController {
    var tasks: map<TaskId, Task>
    var projects: map<ProjectId, UserName>
    var comments: map<CommentId, Comment>
    var nextTaskId: nat
    var nextCommentId: nat
    const defaults: Defaults

    /** The services' state as a value. */
    function Snapshot(): Store
      reads this
    {
      Store(tasks, projects, comments, nextTaskId, nextCommentId, defaults)
    }

    ghost predicate Valid()
      reads this
    {
      Handlers.Valid(Snapshot())
    }

    constructor (projects: map<ProjectId, UserName>, defaults: Defaults)
      ensures Valid()
      ensures Snapshot() == Store(map[], projects, map[], 0, 0, defaults)
    {
      this.tasks := map[];
      this.projects := projects;
      this.comments := map[];
      this.nextTaskId := 0;
      this.nextCommentId := 0;
      this.defaults := defaults;
    }

    /** `doGetTasks`: the tasks of `owner` when it is not blank, else all tasks. */
    method DoGetTasks(owner: Option<string>) returns (r: set<Task>)
      ensures IsBlank(owner) ==> r == tasks.Values
      ensures !IsBlank(owner) ==> forall t :: t in r <==> t in tasks.Values && Some(t.owner) == owner
    {
      if IsBlank(owner) {
        r := tasks.Values;
      } else {
        r := set t | t in tasks.Values && Some(t.owner) == owner;
      }
    }

    /** `doGetTaskById`. */
    method DoGetTaskById(id: TaskId) returns (r: Result<Task>)
      ensures r.Ok? <==> id in tasks
      ensures r.Ok? ==> r.value == tasks[id]
      ensures r.Err? ==> r.error == NotFound
    {
      if id in tasks {
        r := Ok(tasks[id]);
      } else {
        r := Err(NotFound);
      }
    }

    /** `doGetCommentById`. */
    method DoGetCommentById(id: CommentId) returns (r: Result<Comment>)
      ensures r.Ok? <==> id in comments
      ensures r.Ok? ==> r.value == comments[id]
      ensures r.Err? ==> r.error == NotFound
    {
      if id in comments {
        r := Ok(comments[id]);
      } else {
        r := Err(NotFound);
      }
    }

    method DoCreateTask(caller: Caller, dto: TaskDto) returns (r: Result<Task>)
      requires Valid()
      modifies this
      ensures Valid()
      ensures Snapshot() == CreateTask(old(Snapshot()), caller, dto).store
      ensures r == CreateTask(old(Snapshot()), caller, dto).result
    {
      if RoleAdmin !in caller.roles {
        return Err(AccessDenied);
      }
      if dto.project !in projects {
        return Err(NotFound);
      }
      var isOwner := projects[dto.project] == caller.name;
      if !isOwner {
        return Err(DuplicatedResource);
      }
      var newTask := NewTask(nextTaskId, dto, defaults);
      tasks := tasks[newTask.id := newTask];
      nextTaskId := nextTaskId + 1;
      r := Ok(newTask);
    }

    method DoUpdateTask(caller: Caller, id: TaskId, dto: TaskDto) returns (r: Result<Task>)
      requires Valid()
      modifies this
      ensures Valid()
      ensures Snapshot() == UpdateTask(old(Snapshot()), caller, id, dto).store
      ensures r == UpdateTask(old(Snapshot()), caller, id, dto).result
    {
      if RoleAdmin !in caller.roles {
        return Err(AccessDenied);
      }
      if dto.project !in projects {
        return Err(NotFound);
      }
      var isOwner := projects[dto.project] == caller.name;
      if !isOwner {
        return Err(DuplicatedResource);
      }
      if id !in tasks {
        return Err(NotFound);
      }
      var updatedTask := tasks[id].(name := dto.name, description := dto.description,
                                    kind := dto.kind, owner := dto.owner, project := dto.project);
      tasks := tasks[id := updatedTask];
      r := Ok(updatedTask);
    }

    method DoRemoveTaskById(caller: Caller, id: TaskId) returns (r: Result<()>)
      requires Valid()
      modifies this
      ensures Valid()
      ensures Snapshot() == RemoveTask(old(Snapshot()), caller, id).store
      ensures r == RemoveTask(old(Snapshot()), caller, id).result
    {
      if RoleAdmin !in caller.roles {
        return Err(AccessDenied);
      }
      if id !in tasks {
        return Err(NotFound);
      }
      var task := tasks[id];
      if task.project !in projects {
        return Err(NotFound);
      }
      var isOwner := projects[task.project] == caller.name;
      if !isOwner {
        return Err(DuplicatedResource);
      }
      tasks := tasks - {id};
      r := Ok(());
    }

    method DoChangeTaskState(caller: Caller, id: TaskId, state: TaskState) returns (r: Result<Task>)
      requires Valid()
      modifies this
      ensures Valid()
      ensures Snapshot() == ChangeState(old(Snapshot()), caller, id, state).store
      ensures r == ChangeState(old(Snapshot()), caller, id, state).result
    {
      if RoleAdmin !in caller.roles {
        return Err(AccessDenied);
      }
      if id !in tasks {
        return Err(NotFound);
      }
      var task := tasks[id];
      if task.project !in projects {
        return Err(NotFound);
      }
      var isOwner := projects[task.project] == caller.name;
      if !isOwner {
        return Err(DuplicatedResource);
      }
      task := task.(state := state);
      tasks := tasks[id := task];
      r := Ok(task);
    }

    method DoChangeTaskResolution(caller: Caller, id: TaskId, resolution: TaskResolution) returns (r: Result<Task>)
      requires Valid()
      modifies this
      ensures Valid()
      ensures Snapshot() == ChangeResolution(old(Snapshot()), caller, id, resolution).store
      ensures r == ChangeResolution(old(Snapshot()), caller, id, resolution).result
    {
      if RoleUser !in caller.roles {
        return Err(AccessDenied);
      }
      if id !in tasks {
        return Err(NotFound);
      }
      var isOwner := tasks[id].owner == caller.name;
      var task := tasks[id];
      if !isOwner {
        return Err(DuplicatedResource);
      }
      if task.state == Closed {
        return Err(InvalidState);
      }
      task := task.(resolution := resolution);
      tasks := tasks[id := task];
      r := Ok(task);
    }

    method DoChangeTaskProgress(caller: Caller, id: TaskId, progress: Int32) returns (r: Result<Task>)
      requires Valid()
      modifies this
      ensures Valid()
      ensures Snapshot() == ChangeProgress(old(Snapshot()), caller, id, progress).store
      ensures r == ChangeProgress(old(Snapshot()), caller, id, progress).result
    {
      if RoleUser !in caller.roles {
        return Err(AccessDenied);
      }
      if id !in tasks {
        return Err(NotFound);
      }
      var isOwner := tasks[id].owner == caller.name;
      var task := tasks[id];
      if !isOwner {
        // the project owner is asked only when the caller does not own the task
        if task.project !in projects {
          return Err(NotFound);
        }
        isOwner := projects[task.project] == caller.name;
      }
      if !isOwner {
        return Err(DuplicatedResource);
      }
      if task.state == Closed {
        return Err(InvalidState);
      }
      task := task.(progress := ToByte(progress));
      tasks := tasks[id := task];
      r := Ok(task);
    }

    method DoCreateTaskComment(caller: Caller, dto: CommentDto) returns (r: Result<Comment>)
      requires Valid()
      modifies this
      ensures Valid()
      ensures Snapshot() == CreateComment(old(Snapshot()), caller, dto).store
      ensures r == CreateComment(old(Snapshot()), caller, dto).result
    {
      if RoleUser !in caller.roles {
        return Err(AccessDenied);
      }
      if dto.taskId !in tasks {
        return Err(NotFound);
      }
      var newComment := Comment(nextCommentId, dto.taskId, caller.name, dto.text);
      comments := comments[newComment.id := newComment];
      nextCommentId := nextCommentId + 1;
      r := Ok(newComment);
    }
  }
}
