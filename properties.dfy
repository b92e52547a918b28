/**
 * Properties of the task controller's guard layer: which error a request
 * meets first, what the CLOSED guard does and does not block, and what
 * whole sequences of requests can and cannot change.
 */
module Properties {
  import opened Domain
  import opened JavaCast
  import opened Authorization
  import opened Handlers

  // Error precedence

  /** Remove and change-state look the task up before asking who owns its
      project: an unknown id is NotFound whoever asks, and nothing changes. */
  lemma MissingTaskReportedBeforeOwnership(st: Store, caller: Caller, id: TaskId, state: TaskState)
    requires RoleAdmin in caller.roles && id !in st.tasks
    ensures RemoveTask(st, caller, id) == Outcome(st, Err(NotFound))
    ensures ChangeState(st, caller, id, state) == Outcome(st, Err(NotFound))
  {
  }

  /** Update checks the project named in the request body, before it even
      looks the task up: a body naming a project the caller does not own is
      refused even for an unknown task, and a body naming one the caller
      owns moves the task there whoever owns its current project. */
  lemma UpdateCheckedAgainstBodyProject(st: Store, caller: Caller, id: TaskId, dto: TaskDto)
    requires RoleAdmin in caller.roles
    ensures dto.project in st.projects && st.projects[dto.project] != caller.name ==>
              UpdateTask(st, caller, id, dto) == Outcome(st, Err(DuplicatedResource))
    ensures OwnsProjectOf(st, dto.project, caller.name) && id in st.tasks ==>
              && UpdateTask(st, caller, id, dto).result.Ok?
              && UpdateTask(st, caller, id, dto).store.tasks[id].project == dto.project
  {
  }

  /** Resolution and progress report a failed ownership check before the
      CLOSED guard: a CLOSED task answers InvalidState only to a caller who
      would otherwise be allowed. Project ownership does not count for a
      resolution change. */
  lemma OwnershipReportedBeforeClosed(st: Store, caller: Caller, id: TaskId,
                                      resolution: TaskResolution, progress: Int32)
    requires RoleUser in caller.roles && id in st.tasks && st.tasks[id].state == Closed
    requires Valid(st)
    ensures st.tasks[id].owner != caller.name ==>
              ChangeResolution(st, caller, id, resolution) == Outcome(st, Err(DuplicatedResource))
    ensures st.tasks[id].owner == caller.name ==>
              ChangeResolution(st, caller, id, resolution) == Outcome(st, Err(InvalidState))
    ensures OwnsTaskOf(st, id, caller.name) || OwnsProjectOf(st, st.tasks[id].project, caller.name) ==>
              ChangeProgress(st, caller, id, progress) == Outcome(st, Err(InvalidState))
    ensures !OwnsTaskOf(st, id, caller.name) && !OwnsProjectOf(st, st.tasks[id].project, caller.name) ==>
              ChangeProgress(st, caller, id, progress) == Outcome(st, Err(DuplicatedResource))
  {
  }

  // The workflow

  /** Change-state has no workflow guard: an admin who owns the task's
      project may move it out of CLOSED, and only the state changes. */
  lemma ChangeStateReopens(st: Store, caller: Caller, id: TaskId, state: TaskState)
    requires RoleAdmin in caller.roles && id in st.tasks && st.tasks[id].state == Closed
    requires OwnsProjectOf(st, st.tasks[id].project, caller.name)
    ensures var o := ChangeState(st, caller, id, state);
            && o.result == Ok(st.tasks[id].(state := state))
            && o.store.tasks[id].resolution == st.tasks[id].resolution
            && o.store.tasks[id].progress == st.tasks[id].progress
  {
  }

  /** Setting the same state twice is accepted both times and the second
      call changes nothing. */
  lemma ChangeStateIdempotent(st: Store, caller: Caller, id: TaskId, state: TaskState)
    requires ChangeState(st, caller, id, state).result.Ok?
    ensures var once := ChangeState(st, caller, id, state);
            ChangeState(once.store, caller, id, state) == once
  {
  }

  /** Progress accepts any integer and stores its low byte: there is no
      0..100 range check, so 101 is stored as is and 200 wraps to -56. */
  lemma ProgressIsNotRangeChecked(st: Store, caller: Caller, id: TaskId)
    requires ChangeProgress(st, caller, id, 0).result.Ok?
    ensures ChangeProgress(st, caller, id, 101).result.value.progress == 101
    ensures ChangeProgress(st, caller, id, 200).result.value.progress == -56
    ensures ChangeProgress(st, caller, id, -1).result.value.progress == -1
  {
  }

  // A worked scenario: alice owns task 7 of project 3, which bob owns.

  function ScenarioStore(): Store
  {
    var t7 := Task(7, "T7", "", "BUG", "alice", 3, Other("OPEN"), Resolution("UNRESOLVED"), 0);
    Store(map[7 := t7], map[3 := "bob"], map[], 8, 0, Defaults(Other("OPEN"), Resolution("UNRESOLVED"), 0))
  }

  lemma Scenario()
    ensures Valid(ScenarioStore())
    ensures var alice := Caller("alice", {RoleUser});
            var bob := Caller("bob", {RoleUser, RoleAdmin});
            var carol := Caller("carol", {RoleUser});
            var s0 := ScenarioStore();
            var r1 := ChangeResolution(s0, alice, 7, Resolution("FIXED"));
            var r2 := ChangeProgress(r1.store, alice, 7, 50);
            var r3 := ChangeProgress(r2.store, bob, 7, 80);
            var r4 := ChangeProgress(r3.store, carol, 7, 10);
            var r5 := ChangeState(r4.store, bob, 7, Closed);
            var r6 := ChangeResolution(r5.store, alice, 7, Resolution("WONTFIX"));
            var r7 := ChangeResolution(r5.store, carol, 7, Resolution("WONTFIX"));
            && r1.result.Ok? && r1.store.tasks[7].resolution == Resolution("FIXED")
            && r2.result.Ok? && r2.store.tasks[7].progress == 50
            && r3.result.Ok? && r3.store.tasks[7].progress == 80
            && r4 == Outcome(r3.store, Err(DuplicatedResource))
            && r5.result.Ok? && r5.store.tasks[7].state == Closed
            && r6 == Outcome(r5.store, Err(InvalidState))
            && r7 == Outcome(r5.store, Err(DuplicatedResource))
  {
  }

  // Sequences of requests

  /** Every handler keeps the store well formed. */
  lemma ApplyPreservesValid(st: Store, req: Request)
    requires Valid(st)
    ensures Valid(Apply(st, req))
  {
  }

  lemma {:induction false} RunPreservesValid(st: Store, reqs: seq<Request>)
    requires Valid(st)
    ensures Valid(Run(st, reqs))
    decreases |reqs|
  {
    if reqs != [] {
      ApplyPreservesValid(st, reqs[0]);
      RunPreservesValid(Apply(st, reqs[0]), reqs[1..]);
    }
  }

  /** A request whose caller lacks the role its operation requires changes nothing. */
  lemma MissingRoleChangesNothing(st: Store, req: Request)
    requires !HasRequiredRole(OperationOf(req.action), req.caller)
    ensures Apply(st, req) == st
  {
  }

  /** Requests none of whose callers hold the role their operation requires
      leave the store exactly as it was. */
  lemma {:induction false} UnauthorizedRequestsChangeNothing(st: Store, reqs: seq<Request>)
    requires forall i :: 0 <= i < |reqs| ==> !HasRequiredRole(OperationOf(reqs[i].action), reqs[i].caller)
    ensures Run(st, reqs) == st
    decreases |reqs|
  {
    if reqs != [] {
      MissingRoleChangesNothing(st, reqs[0]);
      UnauthorizedRequestsChangeNothing(st, reqs[1..]);
    }
  }

  /** Task `t` is absent or, if present, CLOSED with the given resolution and
      progress; and its id can no longer be handed to a new task. */
  ghost predicate FrozenAs(st: Store, t: TaskId, was: Task)
  {
    && t < st.nextTaskId
    && (t in st.tasks ==>
          && st.tasks[t].state == Closed
          && st.tasks[t].resolution == was.resolution
          && st.tasks[t].progress == was.progress)
  }

  /** A change-state request for `t` that could take it out of CLOSED:
      sent by an admin and naming a state other than CLOSED. */
  ghost predicate MayReopen(req: Request, t: TaskId)
  {
    && req.action.SetState? && req.action.id == t
    && RoleAdmin in req.caller.roles && req.action.state != Closed
  }

  lemma FrozenStep(st: Store, req: Request, t: TaskId, was: Task)
    requires FrozenAs(st, t, was) && !MayReopen(req, t)
    ensures FrozenAs(Apply(st, req), t, was)
  {
  }

  lemma {:induction false} FrozenRun(st: Store, reqs: seq<Request>, t: TaskId, was: Task)
    requires FrozenAs(st, t, was)
    requires forall i :: 0 <= i < |reqs| ==> !MayReopen(reqs[i], t)
    ensures FrozenAs(Run(st, reqs), t, was)
    decreases |reqs|
  {
    if reqs != [] {
      FrozenStep(st, reqs[0], t, was);
      FrozenRun(Apply(st, reqs[0]), reqs[1..], t, was);
    }
  }

  /** Once a task is CLOSED, it stays CLOSED with the same resolution and
      progress, whoever sends requests, until an admin asks to move it to
      another state; refused or re-closing change-state requests do not
      free it. The task may be removed, but its id is never reused. */
  lemma ClosedTaskStaysClosed(st: Store, reqs: seq<Request>, t: TaskId)
    requires Valid(st) && t in st.tasks && st.tasks[t].state == Closed
    requires forall i :: 0 <= i < |reqs| ==> !MayReopen(reqs[i], t)
    ensures var end := Run(st, reqs);
            t in end.tasks ==>
              && end.tasks[t].state == Closed
              && end.tasks[t].resolution == st.tasks[t].resolution
              && end.tasks[t].progress == st.tasks[t].progress
  {
    FrozenRun(st, reqs, t, st.tasks[t]);
  }

  /** The parts of the task map only admins can change: which tasks exist,
      and each task's name, description, type, owner, project and state. */
  ghost predicate SameAdminFields(a: Store, b: Store)
  {
    && a.tasks.Keys == b.tasks.Keys
    && a.nextTaskId == b.nextTaskId
    && forall id :: id in a.tasks ==>
         var x, y := a.tasks[id], b.tasks[id];
         x.(resolution := y.resolution, progress := y.progress) == y
  }

  lemma NonAdminStep(st: Store, req: Request)
    requires RoleAdmin !in req.caller.roles
    ensures SameAdminFields(st, Apply(st, req))
  {
  }

  /** Without ROLE_ADMIN no sequence of requests creates, updates or removes
      a task or changes its state: only resolutions, progress and comments
      can change. */
  lemma {:induction false} NonAdminsOnlyTouchWorkflow(st: Store, reqs: seq<Request>)
    requires forall i :: 0 <= i < |reqs| ==> RoleAdmin !in reqs[i].caller.roles
    ensures SameAdminFields(st, Run(st, reqs))
    decreases |reqs|
  {
    if reqs != [] {
      var next := Apply(st, reqs[0]);
      NonAdminStep(st, reqs[0]);
      NonAdminsOnlyTouchWorkflow(next, reqs[1..]);
      var end := Run(next, reqs[1..]);
      forall id | id in st.tasks
        ensures var x, z := st.tasks[id], end.tasks[id];
                x.(resolution := z.resolution, progress := z.progress) == z
      {
        var x, y, z := st.tasks[id], next.tasks[id], end.tasks[id];
        assert x.(resolution := y.resolution, progress := y.progress) == y;
        assert y.(resolution := z.resolution, progress := z.progress) == z;
      }
    }
  }
}
