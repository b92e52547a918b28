/**
 * The authorization decision table of the task controller: for every
 * operation, the role `@PreAuthorize` demands, the ownership relation the
 * handler tests, and whether a CLOSED task blocks it. The handlers in
 * module Handlers check these guards one after another; their contracts
 * are stated against this table.
 */
module Authorization {
  import opened Domain

  datatype Operation =
    | GetTasksOp | GetTaskOp | GetCommentOp
    | CreateTaskOp | UpdateTaskOp | RemoveTaskOp | ChangeStateOp
    | ChangeResolutionOp | ChangeProgressOp | CreateCommentOp

  /** The ownership relation an operation demands of its caller. */
  datatype OwnershipRule =
    | Anyone
    | OwnsProject             // the caller owns the project concerned
    | OwnsTask                // the caller is the task's owner
    | OwnsTaskOrProject       // either of the two

  function RequiredRole(op: Operation): Option<Role>
  {
    match op
    case GetTasksOp | GetTaskOp | GetCommentOp => None
    case CreateTaskOp | UpdateTaskOp | RemoveTaskOp | ChangeStateOp => Some(RoleAdmin)
    case ChangeResolutionOp | ChangeProgressOp | CreateCommentOp => Some(RoleUser)
  }

  function Rule(op: Operation): OwnershipRule
  {
    match op
    case GetTasksOp | GetTaskOp | GetCommentOp | CreateCommentOp => Anyone
    case CreateTaskOp | UpdateTaskOp | RemoveTaskOp | ChangeStateOp => OwnsProject
    case ChangeResolutionOp => OwnsTask
    case ChangeProgressOp => OwnsTaskOrProject
  }

  /** Operations that a CLOSED task refuses. */
  predicate BlockedWhenClosed(op: Operation)
  {
    op == ChangeResolutionOp || op == ChangeProgressOp
  }

  predicate HasRequiredRole(op: Operation, caller: Caller)
  {
    match RequiredRole(op)
    case None => true
    case Some(role) => role in caller.roles
  }

  /** Role AND ownership, given whether the caller owns the task and the project concerned. */
  predicate Permits(op: Operation, caller: Caller, ownsTask: bool, ownsProject: bool)
  {
    && HasRequiredRole(op, caller)
    && match Rule(op)
       case Anyone => true
       case OwnsProject => ownsProject
       case OwnsTask => ownsTask
       case OwnsTaskOrProject => ownsTask || ownsProject
  }

  /** Only the reads are open to everybody; every operation that writes
      needs a role, and every one except comment creation an ownership. */
  lemma {:induction false} OnlyReadsAreUnguarded(op: Operation)
    ensures (forall caller: Caller :: Permits(op, caller, false, false))
            <==> op in {GetTasksOp, GetTaskOp, GetCommentOp}
  {
    var nobody := Caller("", {});
    if op !in {GetTasksOp, GetTaskOp, GetCommentOp} {
      assert !Permits(op, nobody, false, false);
    }
  }

  /** Project ownership is enough for progress but not for resolution. */
  lemma ProjectOwnerMayProgressButNotResolve(caller: Caller)
    requires RoleUser in caller.roles
    ensures Permits(ChangeProgressOp, caller, false, true)
    ensures !Permits(ChangeResolutionOp, caller, false, true)
  {
  }
}
