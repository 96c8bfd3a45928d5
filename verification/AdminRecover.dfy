/** The operator's forced recovery: its refusals, in order, and the claim behind them. */
module AdminRecover {
  import opened Wrappers
  import opened Recovery
  import opened Leases

  datatype ExecutionStatus = Running | Completed | Failed

  /** What the store answers; a read that fails is None. */
  datatype Reads = Reads(
    journal: Option<Option<RunJournal>>, execution: Option<Option<ExecutionStatus>>, pending: Option<bool>,
    checkpoints: Option<seq<RunCheckpoint>>)

  datatype Reply =
    | NotFound
    | StoreError
    | ApprovalPending
    | RunCompleted
    | ReplayInputRedacted
    | RunActive
    | ShuttingDown
    | Recovering(fence: nat)

  /** The run may be replayed by force, as far as its rows tell. */
  predicate Replayable(r: Reads) {
    && r.journal.Some? && r.journal.value.Some? && r.execution.Some? && r.execution.value.Some?
    && r.pending == Some(false) && r.execution.value.value != Completed
    && r.checkpoints.Some? && !DurableReplayInput(r.journal.value.value, r.checkpoints.value).replayUnsafe
  }

  /** The first refusal before the claim. */
  function Refusal(r: Reads): (refusal: Option<Reply>)
    ensures refusal.None? <==> Replayable(r)
  {
    if r.journal.None? then Some(StoreError)
    else if r.journal.value.None? then Some(NotFound)
    else if r.execution.None? then Some(StoreError)
    else if r.execution.value.None? then Some(NotFound)
    else if r.pending.None? then Some(StoreError)
    else if r.pending.value then Some(ApprovalPending)
    else if r.execution.value.value == Completed then Some(RunCompleted)
    else if r.checkpoints.None? then Some(StoreError)
    else if DurableReplayInput(r.journal.value.value, r.checkpoints.value).replayUnsafe then Some(ReplayInputRedacted)
    else None
  }

  /** Both rows of the run are there. */
  predicate Found(r: Reads) {
    r.journal.Some? && r.journal.value.Some? && r.execution.Some? && r.execution.value.Some?
  }

  /**
   Which refusal is given: a run without a row is not found; an unfinished approval goes
   before a completed status, and that before a redacted value; a read that fails is an
   error of the store, unless an earlier read has decided already.
   */
  lemma RefusalInFull(r: Reads)
    ensures var refusal := Refusal(r);
            && (refusal == Some(NotFound) <==>
                  r.journal == Some(None) || (r.journal.Some? && r.journal.value.Some? && r.execution == Some(None)))
            && (refusal == Some(ApprovalPending) <==> Found(r) && r.pending == Some(true))
            && (refusal == Some(RunCompleted) <==> Found(r) && r.pending == Some(false) && r.execution == Some(Some(Completed)))
            && (refusal == Some(ReplayInputRedacted) <==>
                  Found(r) && r.pending == Some(false) && r.execution != Some(Some(Completed)) && r.checkpoints.Some?
                  && (if r.checkpoints.value == [] then r.journal.value.value.replayUnsafe
                      else r.checkpoints.value[|r.checkpoints.value| - 1].replayUnsafe))
            && (refusal == Some(StoreError) <==>
                  || r.journal.None? || (r.journal.value.Some? && r.execution.None?)
                  || (Found(r) && (r.pending.None? || (r.pending == Some(false) && r.execution != Some(Some(Completed)) && r.checkpoints.None?))))
  {
  }

  /**
   serveAdminRunRecover behind its configuration checks. `starts` says whether the
   process still starts background work.
   */
  method ServeAdminRunRecover(leases: LeaseStore, name: string, holder: string, ttl: int, now: int, answers: Reads, starts: bool)
    returns (reply: Reply)
    requires Key(name, holder) == Ok((name, holder)) && ttl > 0
    modifies leases
    ensures reply.Recovering? <==> Replayable(answers) && Acquirable(old(leases.Row(name)), now) && starts
    ensures !Replayable(answers) ==> reply == Refusal(answers).value && leases.rows == old(leases.rows)
    ensures Replayable(answers) && !Acquirable(old(leases.Row(name)), now) ==> reply == RunActive && leases.rows == old(leases.rows)
    ensures reply.Recovering? ==>
              && leases.Row(name) == Some(AcquiredLease(old(leases.Row(name)), holder, ttl, now))
              && reply.fence == leases.Row(name).value.fence
    ensures Replayable(answers) && Acquirable(old(leases.Row(name)), now) && !starts ==>
              && reply == ShuttingDown && Acquirable(leases.Row(name), now)
              && Fence(leases.Row(name)) == Fence(old(leases.Row(name))) + 1
    ensures forall other | other != name :: leases.Row(other) == old(leases.Row(other))
  {
    if answers.journal.None? {
      return StoreError;
    }
    if answers.journal.value.None? {
      return NotFound;
    }
    if answers.execution.None? {
      return StoreError;
    }
    if answers.execution.value.None? {
      return NotFound;
    }
    if answers.pending.None? {
      return StoreError;
    }
    if answers.pending.value {
      return ApprovalPending;
    }
    if answers.execution.value.value == Completed {
      return RunCompleted;
    }
    if answers.checkpoints.None? {
      return StoreError;
    }
    if DurableReplayInput(answers.journal.value.value, answers.checkpoints.value).replayUnsafe {
      return ReplayInputRedacted;
    }
    var claim := leases.AcquireLease(name, holder, ttl, now);
    var (lease, acquired) := claim.value;
    if !acquired {
      return RunActive;
    }
    if !starts {
      var _ := leases.ReleaseLease(name, holder, lease.fence, now);
      return ShuttingDown;
    }
    return Recovering(lease.fence);
  }
}
