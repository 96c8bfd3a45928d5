/**
 The status of the execution: what moves it, and what a failed run needs to run again.
 */
module EngineStatus {
  import opened Wrappers
  import opened Plans
  import opened Recovery
  import opened Leases
  import opened Engine
  import G = EngineLegs
  import T = EngineTransparency

  /** The event that a step logs. */
  predicate Logs(w: World, w': World) {
    |w'.log| == |w.log| + 1
  }

  /** A leg starts a replay that an operator has forced. */
  predicate Forces(w: World, e: Event) {
    e.ReplayStarted? && e.leg < |w.legs| && w.legs[e.leg].kind == Recovered(true)
  }

  /** A denied approval, a refused recovery, and a recovery that has lost its lease fail a run. */
  predicate GivesUp(w: World, a: Action) {
    || (a.Deny? && a.l in w.waiting)
    || (a.FailRun? && a.ok && a.l < |w.legs| && w.legs[a.l].alive && w.legs[a.l].phase.FailingRun?)
    || (a.ReleaseLease? && w.At(a.l, Releasing) && w.legs[a.l].kind.Recovered? && w.legs[a.l].lost)
  }

  /**
   A saved outcome is the status; a run begins with its start and again with a forced
   replay; only a running execution is failed by anything else, and nothing else moves it.
   */
  predicate StatusGoes(w: World, w': World, a: Action) {
    w'.status ==
      if Logs(w, w') && w'.log[|w.log|].Saved? then (if w'.log[|w.log|].completed then Completed else Failed)
      else if Logs(w, w') && Forces(w, w'.log[|w.log|]) then Running
      else if a.StartRun? && a.saved && w.At(a.l, Starting) then Running
      else if w.status == Running && GivesUp(w, a) then Failed
      else w.status
  }

  lemma EnvironmentStatus(sys: System, w: World, a: Action)
    requires a.Tick? || a.Beat? || a.Crash? || a.Approve? || a.Deny? || a.Sweep? || a.OtherReserves?
    ensures StatusGoes(w, ApplyEnvironment(sys, w, a), a)
  {
    hide World.PrunedRows, Holds, RenewedRow;
  }

  lemma EntryStatus(sys: System, w: World, a: Action)
    requires a.StartRun? || a.AcquireLease? || a.GiveUp? || a.WriteJournal? || a.Resume?
    ensures StatusGoes(w, ApplyEntry(sys, w, a), a)
  {
    hide System.Journal, World.ResolvedKey, AcquiredLease, Acquirable;
  }

  lemma DecidedStatus(w: World, l: nat, k: nat, verdict: Verdict, a: Action)
    requires w.At(l, Deciding) && w.legs[l].kind.Recovered? && a.Decide?
    ensures StatusGoes(w, Decided(w, l, k, verdict), a)
  {
  }

  lemma DecideStatus(sys: System, w: World, a: Action)
    requires a.Decide?
    ensures StatusGoes(w, ApplyRecovery(sys, w, a), a)
  {
    hide ListsCheckpoints, ListsIntents, DeploymentGoSized, ReplayVerdict, DurableReplayInput, Decided, StatusGoes;
    var w' := ApplyRecovery(sys, w, a);
    if w' == w || !a.ok || w.waiting != {} {
      assert w'.status == w.status && w'.log == w.log;
      SameStatus(w, w', a);
    } else {
      DecidedStatus(w, a.l, DurableReplayInput(w.legs[a.l].snapshot.value, a.checkpoints).resumeIndex,
                    ReplayVerdict(sys.id, a.deployment, w.legs[a.l].snapshot.value, a.checkpoints, a.intents, w.legs[a.l].kind.forced), a);
    }
  }

  lemma SameStatus(w: World, w': World, a: Action)
    requires w'.status == w.status && w'.log == w.log && !GivesUp(w, a) && !a.StartRun?
    ensures StatusGoes(w, w', a)
  {
  }

  lemma RecoveryStatus(sys: System, w: World, a: Action)
    requires a.Scan? || a.Claim? || a.Decide? || a.FailRun? || a.PruneRun?
    ensures StatusGoes(w, ApplyRecovery(sys, w, a), a)
  {
    hide World.PrunedRows, ListsCheckpoints, ListsIntents, DeploymentGoSized, ReplayVerdict, DurableReplayInput, AcquiredLease, Acquirable, Decided;
    if a.Decide? {
      DecideStatus(sys, w, a);
    }
  }

  lemma LoopStatus(sys: System, w: World, a: Action)
    requires !GivesUp(w, a) && !a.StartRun?
    ensures StatusGoes(w, ApplyLoop(sys, w, a), a)
  {
    hide System.Checkpoint, Advanced;
  }

  lemma TerminalStatus(sys: System, w: World, a: Action)
    requires !GivesUp(w, a) && !a.StartRun?
    ensures StatusGoes(w, ApplyTerminal(sys, w, a), a)
  {
    hide TerminalTool, World.ResolvedKey, Holds, RenewedRow;
  }

  lemma FinishStatus(sys: System, w: World, a: Action)
    requires a.ResolveKey? || a.Emit? || a.Save? || a.PruneJournal? || a.ReleaseLease?
    ensures StatusGoes(w, ApplyFinish(sys, w, a), a)
  {
    hide World.PrunedRows, World.ResolvedKey, ReleasedRow;
  }

  lemma StatusStep(sys: System, w: World, a: Action)
    ensures StatusGoes(w, Apply(sys, w, a), a)
  {
    hide StatusGoes, ApplyEnvironment, ApplyEntry, ApplyRecovery, ApplyLoop, ApplyTerminal, ApplyFinish;
    if a.Tick? || a.Beat? || a.Crash? || a.Approve? || a.Deny? || a.Sweep? || a.OtherReserves? {
      EnvironmentStatus(sys, w, a);
    } else if a.StartRun? || a.AcquireLease? || a.GiveUp? || a.WriteJournal? || a.Resume? {
      EntryStatus(sys, w, a);
    } else if a.Scan? || a.Claim? || a.Decide? || a.FailRun? || a.PruneRun? {
      RecoveryStatus(sys, w, a);
    } else if a.ResolveKey? || a.Emit? || a.Save? || a.PruneJournal? || a.ReleaseLease? {
      FinishStatus(sys, w, a);
    } else {
      LoopStatus(sys, w, a);
      TerminalStatus(sys, w, a);
    }
  }
  // ---------- over whole runs ----------

  predicate NoneStarts(w: World) {
    forall l | 0 <= l < |w.legs| :: !w.legs[l].phase.Starting?
  }

  lemma FirstStatus(sys: System, w: World, a: Action)
    requires T.Inv(sys, w) && w.status == NoExecution && Apply(sys, w, a).status != NoExecution
    ensures NoneStarts(Apply(sys, w, a))
  {
    var w' := Apply(sys, w, a);
    hide Apply, T.LogTransparent, T.RowsOk;
    G.ApplyMoves(sys, w, a);
    forall l | 0 <= l < |w'.legs|
      ensures !w'.legs[l].phase.Starting?
    {
      if w'.legs[l].phase.Starting? {
        StartsAlone(sys, w, w', l);
        MoverStands(sys, w, a);
      }
    }
  }

  lemma StartsAlone(sys: System, w: World, w': World, l: nat)
    requires T.Inv(sys, w) && G.LegsGo(w, w') && l < |w'.legs| && w'.legs[l].phase.Starting?
    ensures l == 0 && |w.legs| == 1 && w.legs[0].phase.Starting?
  {
    hide T.LogTransparent, T.RowsOk;
    if l < |w.legs| {
      assert T.LegOk(sys, w.legs[l], l, |w.legs|, w.rows);
    }
  }

  lemma MoverStands(sys: System, w: World, a: Action)
    requires |w.legs| == 1 && w.legs[0].phase.Starting? && w.status == NoExecution
    ensures var w' := Apply(sys, w, a); w'.status != w.status ==> |w'.legs| > 0 && !w'.legs[0].phase.Starting?
  {
    hide StatusGoes, ListsCheckpoints, ListsIntents, DeploymentGoSized, ReplayVerdict, DurableReplayInput, Decided, World.PrunedRows,
      World.ResolvedKey, AcquiredLease, Acquirable, RenewedRow, ReleasedRow, TerminalTool, System.Checkpoint, System.Journal, Advanced;
    if a.StartRun? || a.AcquireLease? || a.GiveUp? || a.WriteJournal? || a.Resume? {
      EntryMoves(sys, w, a);
    } else if a.ResolveKey? || a.Emit? || a.Save? || a.PruneJournal? || a.ReleaseLease? {
      FinishStands(sys, w, a);
    } else {
      RestStands(sys, w, a);
    }
  }

  lemma EntryMoves(sys: System, w: World, a: Action)
    requires |w.legs| == 1 && w.legs[0].phase.Starting? && w.status == NoExecution
    requires a.StartRun? || a.AcquireLease? || a.GiveUp? || a.WriteJournal? || a.Resume?
    ensures var w' := Apply(sys, w, a); w'.status != w.status ==> |w'.legs| > 0 && !w'.legs[0].phase.Starting?
  {
    hide System.Journal, World.ResolvedKey, AcquiredLease, Acquirable;
  }

  lemma FinishStands(sys: System, w: World, a: Action)
    requires |w.legs| == 1 && w.legs[0].phase.Starting?
    requires a.ResolveKey? || a.Emit? || a.Save? || a.PruneJournal? || a.ReleaseLease?
    ensures Apply(sys, w, a) == w
  {
    hide World.PrunedRows, World.ResolvedKey, ReleasedRow;
  }

  lemma RestStands(sys: System, w: World, a: Action)
    requires |w.legs| == 1 && w.legs[0].phase.Starting? && w.status == NoExecution
    requires !(a.StartRun? || a.AcquireLease? || a.GiveUp? || a.WriteJournal? || a.Resume?)
    requires !(a.ResolveKey? || a.Emit? || a.Save? || a.PruneJournal? || a.ReleaseLease?)
    ensures Apply(sys, w, a).status == w.status
  {
    hide ListsCheckpoints, ListsIntents, DeploymentGoSized, ReplayVerdict, DurableReplayInput, Decided, World.PrunedRows, AcquiredLease,
      Acquirable, RenewedRow, TerminalTool, System.Checkpoint, Advanced, World.ResolvedKey;
  }

  lemma {:induction false} NoLegStarts(sys: System, holder: string, reserved: bool, now: int, trace: seq<World>, acts: seq<Action>, n: nat)
    requires T.WellFormed(sys) && IsRun(sys, Init(sys, holder, reserved, now), trace, acts) && n <= |acts| && trace[n].status != NoExecution
    ensures NoneStarts(trace[n])
  {
    hide Apply, T.WellFormed;
    var start := Init(sys, holder, reserved, now);
    assert n > 0;
    G.OneApart(sys, start, trace, acts, n - 1);
    T.InitHolds(sys, holder, reserved, now);
    hide Init;
    if trace[n - 1].status != NoExecution {
      NoLegStarts(sys, holder, reserved, now, trace, acts, n - 1);
      hide G.EventsGo;
      G.ApplyMoves(sys, trace[n - 1], acts[n - 1]);
    } else {
      RunIsExec(sys, start, trace, acts, n - 1);
      hide T.Inv, NoneStarts;
      T.ExecKeeps(sys, start, acts[..n - 1]);
      FirstStatus(sys, trace[n - 1], acts[n - 1]);
    }
  }

  /** A replay that an operator has forced starts in the log behind position n. */
  predicate ForcedSince(w: World, n: nat) {
    exists q | n <= q < |w.log| && w.log[q].ReplayStarted? && w.log[q].leg < |w.legs| :: w.legs[w.log[q].leg].kind == Recovered(true)
  }

  lemma ForcedStays(w: World, w': World, n: nat)
    requires G.Moves(w, w') && ForcedSince(w, n)
    ensures ForcedSince(w', n)
  {
    var q :| n <= q < |w.log| && w.log[q].ReplayStarted? && w.log[q].leg < |w.legs| && w.legs[w.log[q].leg].kind == Recovered(true);
    assert w'.log[q] == w.log[q];
  }

  /** A run that has completed or failed runs again only after a replay that an operator has forced. */
  lemma {:induction false} SettledNeedsForce(sys: System, holder: string, reserved: bool, now: int, trace: seq<World>, acts: seq<Action>,
                                             n: nat, m: nat)
    requires T.WellFormed(sys) && IsRun(sys, Init(sys, holder, reserved, now), trace, acts) && n <= m <= |acts|
    requires trace[n].status == Completed || trace[n].status == Failed
    ensures trace[m].status != NoExecution && |trace[n].log| <= |trace[m].log|
    ensures trace[m].status == Running ==> ForcedSince(trace[m], |trace[n].log|)
    decreases m - n
  {
    hide Apply, Init, T.WellFormed;
    if n < m {
      SettledNeedsForce(sys, holder, reserved, now, trace, acts, n, m - 1);
      NoLegStarts(sys, holder, reserved, now, trace, acts, m - 1);
      G.OneApart(sys, Init(sys, holder, reserved, now), trace, acts, m - 1);
      G.ApplyMoves(sys, trace[m - 1], acts[m - 1]);
      StatusStep(sys, trace[m - 1], acts[m - 1]);
      if trace[m].status == Running {
        if trace[m - 1].status == Running {
          hide ForcedSince, G.Moves, StatusGoes;
          ForcedStays(trace[m - 1], trace[m], |trace[n].log|);
        } else {
          ForcedNow(trace[m - 1], trace[m], acts[m - 1], |trace[n].log|);
        }
      }
    }
  }

  lemma ForcedNow(w: World, w': World, a: Action, n: nat)
    requires G.Moves(w, w') && StatusGoes(w, w', a) && NoneStarts(w) && w.status != Running && w'.status == Running && n <= |w.log|
    ensures ForcedSince(w', n)
  {
    assert Forces(w, w'.log[|w.log|]);
  }
}
