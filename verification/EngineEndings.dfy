/**
 How legs end: every failure of a run is settled in the store, and a live run whose calls
 are answered never ends in silence.
 */
module EngineEndings {
  import opened Wrappers
  import opened Plans
  import opened Recovery
  import opened Leases
  import opened Engine
  import E = EngineEvidence
  import G = EngineLegs
  import P = EngineProgress

  // ---------- failures ----------

  /** The ways in which a run fails before it has proved its completion. */
  predicate Fails(w: World, a: Action, l: nat) {
    || (a == StartRun(l, true, false) && w.At(l, Starting))
    || (a.AcquireLease? && a.l == l && w.At(l, Acquiring) && w.legs[l].kind.Live?
        && (!a.reachable || (w.lease.Some? && w.lease.value.expiresAt >= w.now)))
    || (a == WriteJournal(l, false) && w.At(l, Journaling))
    || (a == FailStep(l) && w.At(l, InStep))
    || (a.Confirm? && a.l == l && w.At(l, Confirming) && Disowned(w, l, a.answer))
    || (a.EndTerminal? && a.l == l && !a.ok && w.Inside(l, InTerminal))
    || (a.Prove? && a.l == l && w.At(l, Proving) && Disowned(w, l, a.answer))
  }

  /** The leg cannot prove that the lease is its own. */
  predicate Disowned(w: World, l: nat, answer: Answer)
    requires l < |w.legs|
  {
    || w.legs[l].lost || answer != Answered || w.lease.None?
    || w.lease.value.holder != w.legs[l].holder || w.lease.value.fence != w.legs[l].fence
  }

  /** The terminal had delivered. */
  predicate Delivered(w: World, l: nat)
    requires l < |w.legs|
  {
    w.legs[l].phase.Proving? && w.legs[l].terminalDone
  }

  /** Leg l stands in the phase; journal, checkpoints and approvals are as they were. */
  predicate Same(w: World, w': World, l: nat, phase: Phase) {
    && l < |w.legs| && w'.At(l, phase) && w'.legs[l].holder == w.legs[l].holder && w'.legs[l].fence == w.legs[l].fence
    && w'.rows.journal == w.rows.journal && w'.rows.checkpoints == w.rows.checkpoints && w'.now == w.now && w'.lease == w.lease
    && w'.waiting == w.waiting
  }

  lemma EntryFails(sys: System, w: World, a: Action, l: nat)
    requires l < |w.legs| && Fails(w, a, l) && (a.StartRun? || a.AcquireLease? || a.WriteJournal?)
    ensures var w' := Apply(sys, w, a); Same(w, w', l, Resolving(false, false)) && w'.key == w.key
  {
    hide System.Journal, AcquiredLease, World.ResolvedKey;
  }

  lemma StepFails(sys: System, w: World, l: nat)
    requires w.At(l, InStep)
    ensures var w' := Apply(sys, w, FailStep(l)); Same(w, w', l, Resolving(false, false)) && w'.key == w.key
  {
  }

  lemma ConfirmFails(sys: System, w: World, l: nat, answer: Answer)
    requires w.At(l, Confirming) && Disowned(w, l, answer)
    ensures var w' := Apply(sys, w, Confirm(l, answer)); Same(w, w', l, Resolving(false, false)) && w'.key == w.key
  {
    hide RenewedRow;
  }

  lemma ProofFails(sys: System, w: World, l: nat, answer: Answer)
    requires w.At(l, Proving) && Disowned(w, l, answer)
    ensures var w' := Apply(sys, w, Prove(l, answer)); Same(w, w', l, Resolving(false, w.legs[l].terminalDone)) && w'.key == w.key
  {
    hide RenewedRow;
  }

  lemma TerminalFails(sys: System, w: World, l: nat, definite: bool)
    requires w.Inside(l, InTerminal)
    ensures var w' := Apply(sys, w, EndTerminal(l, false, definite)); Same(w, w', l, Resolving(false, false)) && w'.key == w.key
  {
    hide TerminalTool;
  }

  lemma FailPoint(sys: System, w: World, a: Action, l: nat)
    requires l < |w.legs| && Fails(w, a, l)
    ensures var w' := Apply(sys, w, a); Same(w, w', l, Resolving(false, Delivered(w, l))) && w'.key == w.key
  {
    hide Apply, Same;
    if a.FailStep? {
      StepFails(sys, w, l);
    } else if a.EndTerminal? {
      TerminalFails(sys, w, l, a.definite);
    } else if a.Confirm? {
      ConfirmFails(sys, w, l, a.answer);
    } else if a.Prove? {
      ProofFails(sys, w, l, a.answer);
    } else {
      EntryFails(sys, w, a, l);
    }
  }

  function Settled(key: Option<TriggerKey>, success: bool): Option<TriggerKey> {
    if key == Some(TriggerKey(true, Pending)) then Some(TriggerKey(true, if success then Succeeded else FailedOutcome)) else key
  }

  lemma ResolveStep(sys: System, w: World, l: nat, s: bool)
    requires w.At(l, Resolving(false, s))
    ensures var w' := Apply(sys, w, ResolveKey(l, true)); Same(w, w', l, Emitting(false, true)) && w'.key == Settled(w.key, s) && w'.rows == w.rows
  {
  }

  lemma EmitStep(sys: System, w: World, l: nat)
    requires w.At(l, Emitting(false, true))
    ensures var w' := Apply(sys, w, Emit(l, true)); Same(w, w', l, Saving(false, true)) && w'.key == w.key && w'.rows == w.rows
  {
  }

  lemma SaveStep(sys: System, w: World, l: nat)
    requires w.At(l, Saving(false, true))
    ensures var w' := Apply(sys, w, Save(l, true));
            Same(w, w', l, Pruning(false)) && w'.key == w.key && w'.rows == w.rows && w'.status == Failed
  {
  }

  lemma PruneStep(sys: System, w: World, l: nat)
    requires w.At(l, Pruning(false))
    ensures var w' := Apply(sys, w, PruneJournal(l, true));
            Same(w, w', l, Releasing) && w'.key == w.key && w'.rows == w.rows && w'.status == w.status
  {
    hide World.PrunedRows;
  }

  lemma ReleaseStep(sys: System, w: World, l: nat)
    requires w.At(l, Releasing) && w.status == Failed
    ensures var w' := Apply(sys, w, ReleaseLease(l, true));
            w'.At(l, Ended) && w'.key == w.key && w'.rows == w.rows && w'.status == Failed && w'.lease == Freed(w, l)
  {
  }

  /** Key, event, status, tables and lease, each answered. */
  function Closing(l: nat): seq<Action> {
    [ResolveKey(l, true), Emit(l, true), Save(l, true), PruneJournal(l, true), ReleaseLease(l, true)]
  }

  lemma SameFacts(w: World, w': World, l: nat, phase: Phase)
    requires Same(w, w', l, phase)
    ensures l < |w.legs| && w'.At(l, phase) && w'.legs[l].holder == w.legs[l].holder && w'.legs[l].fence == w.legs[l].fence
    ensures w'.lease == w.lease && w'.now == w.now && w'.rows.journal == w.rows.journal && w'.rows.checkpoints == w.rows.checkpoints
  {
  }

  lemma SavesFailure(sys: System, w: World, l: nat, s: bool)
    requires w.At(l, Resolving(false, s))
    ensures var w' := Apply(sys, Apply(sys, Apply(sys, w, ResolveKey(l, true)), Emit(l, true)), Save(l, true));
            Same(w, w', l, Pruning(false)) && w'.key == Settled(w.key, s) && w'.rows == w.rows && w'.status == Failed
  {
    hide Apply, Settled, Same;
    ResolveStep(sys, w, l, s);
    var w1 := Apply(sys, w, ResolveKey(l, true));
    SameFacts(w, w1, l, Emitting(false, true));
    EmitStep(sys, w1, l);
    var w2 := Apply(sys, w1, Emit(l, true));
    SameFacts(w1, w2, l, Saving(false, true));
    SaveStep(sys, w2, l);
    SameTwice(w, w1, w2, l, Emitting(false, true), Saving(false, true));
    SameTwice(w, w2, Apply(sys, w2, Save(l, true)), l, Saving(false, true), Pruning(false));
  }

  lemma SameTwice(w: World, w1: World, w2: World, l: nat, phase: Phase, phase': Phase)
    requires Same(w, w1, l, phase) && Same(w1, w2, l, phase')
    ensures Same(w, w2, l, phase')
  {
  }

  lemma GoesFree(sys: System, w: World, l: nat)
    requires w.At(l, Pruning(false)) && w.status == Failed
    ensures var w' := Apply(sys, Apply(sys, w, PruneJournal(l, true)), ReleaseLease(l, true));
            && w'.At(l, Ended) && w'.key == w.key && w'.rows == w.rows && w'.status == Failed && w'.lease == Freed(w, l)
  {
    hide Apply, Same;
    PruneStep(sys, w, l);
    var w1 := Apply(sys, w, PruneJournal(l, true));
    SameFacts(w, w1, l, Releasing);
    ReleaseStep(sys, w1, l);
  }

  /** The lease behind the release of leg l: expired if it was still its own. */
  function Freed(w: World, l: nat): Option<Lease>
    requires l < |w.legs|
  {
    if w.legs[l].fence > 0 && w.lease.Some? && w.lease.value.holder == w.legs[l].holder && w.lease.value.fence == w.legs[l].fence
    then Some(w.lease.value.(expiresAt := w.now - SECOND)) else w.lease
  }

  lemma Closes(sys: System, w: World, l: nat, s: bool)
    requires w.At(l, Resolving(false, s))
    ensures var w' := Exec(sys, w, Closing(l));
            w'.At(l, Ended) && w'.key == Settled(w.key, s) && w'.rows == w.rows && w'.status == Failed && w'.lease == Freed(w, l)
  {
    hide Apply, Settled, Exec, Same;
    P.FiveActions(sys, w, Closing(l));
    SavesFailure(sys, w, l, s);
    var w3 := Apply(sys, Apply(sys, Apply(sys, w, ResolveKey(l, true)), Emit(l, true)), Save(l, true));
    SameFacts(w, w3, l, Pruning(false));
    GoesFree(sys, w3, l);
  }

  /**
   However a run fails, when the store answers its finish: it is saved as failed, its key
   is failed too unless the terminal had delivered, its journal and checkpoints stay for
   the operator, and a lease that is still its own is released.
   */
  lemma FailuresSettle(sys: System, w: World, a: Action, l: nat)
    requires l < |w.legs| && Fails(w, a, l)
    ensures var w' := Exec(sys, w, [a] + Closing(l));
            && w'.At(l, Ended) && w'.status == Failed
            && w'.rows.journal == w.rows.journal && w'.rows.checkpoints == w.rows.checkpoints
            && w'.key == (if w.key == Some(TriggerKey(true, Pending)) then
                            Some(TriggerKey(true, if w.legs[l].phase.Proving? && w.legs[l].terminalDone then Succeeded else FailedOutcome))
                          else w.key)
            && w'.lease == Freed(w, l)
  {
    hide Apply, Exec, Fails, Closing;
    FailPoint(sys, w, a, l);
    SameFacts(w, Apply(sys, w, a), l, Resolving(false, Delivered(w, l)));
    hide Same;
    ExecCons(sys, w, a, Closing(l));
    Closes(sys, Apply(sys, w, a), l, Delivered(w, l));
  }

  // ---------- no silent end ----------

  /** The calls of a start and of a finish are answered, and the live leg is not suspended. */
  predicate Answers(a: Action) {
    && (a.StartRun? ==> a.saved) && (a.ResolveKey? ==> a.ok) && (a.Emit? ==> a.ok) && (a.Save? ==> a.ok)
    && a != Suspend(0)
  }

  predicate KeyDone(w: World) {
    w.key != Some(TriggerKey(true, Pending))
  }

  ghost predicate IsSaved(w: World) {
    exists completed :: Saved(0, completed) in w.log
  }

  /** How far the live leg has settled its run. */
  ghost predicate Settling(w: World) {
    && |w.legs| > 0 && w.legs[0].kind == Live
    && var phase := w.legs[0].phase;
       && !phase.Scanned? && !phase.Deciding? && !phase.FailingRun? && !phase.PruningRun?
       && (phase.Emitting? ==> phase.clean) && (phase.Saving? ==> phase.clean)
       && (phase.Emitting? || phase.Saving? || phase.Pruning? || phase.Releasing? || phase.Ended? ==> KeyDone(w))
       && (phase.Pruning? || phase.Releasing? || phase.Ended? ==> IsSaved(w))
  }

  /** What every step keeps. */
  predicate Keeps(w: World, w': World) {
    w.log <= w'.log && (KeyDone(w) ==> KeyDone(w')) && |w.legs| <= |w'.legs|
  }

  lemma StepKeeps(sys: System, w: World, a: Action)
    ensures Keeps(w, Apply(sys, w, a))
  {
    hide Apply, G.LegGoes, G.EventsGo, E.Resolves;
    E.KeyStep(sys, w, a);
    G.ApplyMoves(sys, w, a);
  }

  lemma Untouched(w: World, w': World)
    requires Settling(w) && Keeps(w, w') && w'.legs[0].kind == Live && w'.legs[0].phase == w.legs[0].phase
    ensures Settling(w')
  {
    if IsSaved(w) {
      var completed :| Saved(0, completed) in w.log;
      assert Saved(0, completed) in w'.log;
    }
  }

  /** The live leg moves without an outcome to settle yet. */
  lemma StillRuns(w: World, w': World)
    requires Settling(w) && Keeps(w, w') && w'.legs[0].kind == Live
    requires var phase := w'.legs[0].phase;
             !phase.Scanned? && !phase.Deciding? && (phase.Resolving? || !G.Finishing(phase))
    ensures Settling(w')
  {
  }

  lemma ResolveSettles(sys: System, w: World)
    requires Settling(w) && w.legs[0].phase.Resolving?
    ensures Settling(Apply(sys, w, ResolveKey(0, true)))
  {
  }

  lemma EmitSettles(sys: System, w: World)
    requires Settling(w) && w.legs[0].phase.Emitting?
    ensures Settling(Apply(sys, w, Emit(0, true)))
  {
  }

  lemma SaveSettles(sys: System, w: World)
    requires Settling(w) && w.legs[0].phase.Saving?
    ensures Settling(Apply(sys, w, Save(0, true)))
  {
    var w' := Apply(sys, w, Save(0, true));
    if w.legs[0].alive {
      assert w'.log[|w.log|] == Saved(0, w.legs[0].phase.completed);
    }
  }

  lemma SavedStays(w: World, w': World)
    requires IsSaved(w) && w.log <= w'.log
    ensures IsSaved(w')
  {
    var completed :| Saved(0, completed) in w.log;
    assert Saved(0, completed) in w'.log;
  }

  lemma PruneSettles(sys: System, w: World, ok: bool)
    requires Settling(w) && w.legs[0].phase.Pruning?
    ensures Settling(Apply(sys, w, PruneJournal(0, ok)))
  {
    hide World.PrunedRows, IsSaved;
    SavedStays(w, Apply(sys, w, PruneJournal(0, ok)));
  }

  lemma ReleaseSettles(sys: System, w: World, reachable: bool)
    requires Settling(w) && w.legs[0].phase.Releasing?
    ensures Settling(Apply(sys, w, ReleaseLease(0, reachable)))
  {
    hide ReleasedRow, IsSaved;
    SavedStays(w, Apply(sys, w, ReleaseLease(0, reachable)));
  }

  /** The finish call is none of the live leg's own. */
  predicate ForOthers(w: World, a: Action)
    requires |w.legs| > 0 && (a.ResolveKey? || a.Emit? || a.Save? || a.PruneJournal? || a.ReleaseLease?)
  {
    a.l == 0 ==>
      var phase := w.legs[0].phase;
      && (a.ResolveKey? ==> !phase.Resolving?) && (a.Emit? ==> !phase.Emitting?) && (a.Save? ==> !phase.Saving?)
      && (a.PruneJournal? ==> !phase.Pruning?) && (a.ReleaseLease? ==> !phase.Releasing?)
  }

  lemma OthersWrite(sys: System, w: World, a: Action)
    requires |w.legs| > 0 && (a.ResolveKey? || a.Emit? || a.Save?) && ForOthers(w, a)
    ensures Apply(sys, w, a).legs[0] == w.legs[0]
  {
    hide World.ResolvedKey;
  }

  lemma OthersFinish(sys: System, w: World, a: Action)
    requires |w.legs| > 0 && (a.ResolveKey? || a.Emit? || a.Save? || a.PruneJournal? || a.ReleaseLease?) && ForOthers(w, a)
    ensures Apply(sys, w, a).legs[0] == w.legs[0]
  {
    if a.PruneJournal? || a.ReleaseLease? {
      hide World.PrunedRows, ReleasedRow;
    } else {
      OthersWrite(sys, w, a);
    }
  }

  lemma FinishSettles(sys: System, w: World, a: Action)
    requires Settling(w) && Answers(a) && (a.ResolveKey? || a.Emit? || a.Save? || a.PruneJournal? || a.ReleaseLease?)
    ensures Settling(Apply(sys, w, a))
  {
    assert |w.legs| > 0 && w.legs[0].kind == Live;
    hide Apply, Settling, KeyDone;
    if a.l == 0 && a.PruneJournal? && w.legs[0].phase.Pruning? {
      PruneSettles(sys, w, a.ok);
    } else if a.l == 0 && a.ReleaseLease? && w.legs[0].phase.Releasing? {
      ReleaseSettles(sys, w, a.reachable);
    } else if a.l == 0 && a.ResolveKey? && w.legs[0].phase.Resolving? {
      ResolveSettles(sys, w);
    } else if a.l == 0 && a.Emit? && w.legs[0].phase.Emitting? {
      EmitSettles(sys, w);
    } else if a.l == 0 && a.Save? && w.legs[0].phase.Saving? {
      SaveSettles(sys, w);
    } else {
      OthersFinish(sys, w, a);
      StepKeeps(sys, w, a);
      Untouched(w, Apply(sys, w, a));
    }
  }

  /** The live leg stays where it is, or goes on without coming to its finish or as far as the first call of it. */
  predicate GoesOn(w: World, w': World)
    requires |w.legs| > 0
  {
    && |w'.legs| > 0 && w'.legs[0].kind == w.legs[0].kind
    && var phase := w'.legs[0].phase;
       phase == w.legs[0].phase || (!phase.Scanned? && !phase.Deciding? && (phase.Resolving? || !G.Finishing(phase)))
  }

  lemma EnvironmentGoesOn(sys: System, w: World, a: Action)
    requires Settling(w)
    ensures GoesOn(w, ApplyEnvironment(sys, w, a))
  {
    hide KeyDone, IsSaved, World.PrunedRows, RenewedRow, Holds;
  }

  lemma EntryGoesOn(sys: System, w: World, a: Action)
    requires Settling(w) && Answers(a)
    ensures GoesOn(w, ApplyEntry(sys, w, a))
  {
    hide KeyDone, IsSaved, World.ResolvedKey, AcquiredLease, Acquirable, System.Journal;
  }

  lemma RecoveryGoesOn(sys: System, w: World, a: Action)
    requires Settling(w)
    ensures GoesOn(w, ApplyRecovery(sys, w, a))
  {
    hide KeyDone, IsSaved, World.PrunedRows, AcquiredLease, Acquirable, ListsCheckpoints, ListsIntents, DeploymentGoSized, ReplayVerdict,
      DurableReplayInput, Decided;
    if a.Decide? && w.At(a.l, Deciding) && w.legs[a.l].kind.Recovered? && w.legs[a.l].snapshot.Some? {
      DecidedLeaves(w, a.l, DurableReplayInput(w.legs[a.l].snapshot.value, a.checkpoints).resumeIndex,
                    ReplayVerdict(sys.id, a.deployment, w.legs[a.l].snapshot.value, a.checkpoints, a.intents, w.legs[a.l].kind.forced));
    }
  }

  lemma DecidedLeaves(w: World, l: nat, k: nat, verdict: Verdict)
    requires l < |w.legs| && w.legs[l].kind.Recovered? && w.legs[0].kind.Live?
    ensures Decided(w, l, k, verdict).legs[0] == w.legs[0] && |Decided(w, l, k, verdict).legs| == |w.legs|
  {
  }

  lemma LoopGoesOn(sys: System, w: World, a: Action)
    requires Settling(w) && Answers(a)
    ensures GoesOn(w, ApplyLoop(sys, w, a))
  {
    hide KeyDone, IsSaved, System.Checkpoint, Advanced;
  }

  lemma TerminalGoesOn(sys: System, w: World, a: Action)
    requires Settling(w)
    ensures GoesOn(w, ApplyTerminal(sys, w, a))
  {
    if a.Confirm? || a.Prove? {
      ProofGoesOn(sys, w, a);
    } else {
      hide KeyDone, IsSaved, TerminalTool, World.ResolvedKey;
    }
  }

  lemma ProofGoesOn(sys: System, w: World, a: Action)
    requires Settling(w) && (a.Confirm? || a.Prove?)
    ensures GoesOn(w, ApplyTerminal(sys, w, a))
  {
    hide KeyDone, IsSaved, RenewedRow, Holds;
  }

  lemma StepSettles(sys: System, w: World, a: Action)
    requires Settling(w) && Answers(a)
    ensures Settling(Apply(sys, w, a))
  {
    if a.ResolveKey? || a.Emit? || a.Save? || a.PruneJournal? || a.ReleaseLease? {
      hide Apply, Settling;
      FinishSettles(sys, w, a);
    } else {
      assert |w.legs| > 0 && w.legs[0].kind == Live;
      hide Settling, GoesOn, ApplyEnvironment, ApplyEntry, ApplyRecovery, ApplyLoop, ApplyTerminal;
      EnvironmentGoesOn(sys, w, a);
      EntryGoesOn(sys, w, a);
      RecoveryGoesOn(sys, w, a);
      LoopGoesOn(sys, w, a);
      TerminalGoesOn(sys, w, a);
      StepKeeps(sys, w, a);
      GoneOn(w, Apply(sys, w, a));
    }
  }

  lemma GoneOn(w: World, w': World)
    requires Settling(w) && Keeps(w, w') && GoesOn(w, w')
    ensures Settling(w')
  {
    if w'.legs[0].phase == w.legs[0].phase {
      Untouched(w, w');
    } else {
      StillRuns(w, w');
    }
  }

  /**
   A live run whose start and finish are answered, and that is not suspended, never ends in
   silence: when its leg has come to its end, its outcome is saved and its key is settled.
   */
  lemma {:induction false} NoSilentEnd(sys: System, holder: string, reserved: bool, now: int, trace: seq<World>, acts: seq<Action>, n: nat)
    requires IsRun(sys, Init(sys, holder, reserved, now), trace, acts) && n <= |acts| && forall i | 0 <= i < n :: Answers(acts[i])
    ensures Settling(trace[n])
    ensures trace[n].legs[0].phase.Ended? ==>
              && (exists completed :: Saved(0, completed) in trace[n].log)
              && trace[n].key != Some(TriggerKey(true, Pending))
  {
    hide Apply;
    if n > 0 {
      NoSilentEnd(sys, holder, reserved, now, trace, acts, n - 1);
      G.OneApart(sys, Init(sys, holder, reserved, now), trace, acts, n - 1);
      StepSettles(sys, trace[n - 1], acts[n - 1]);
    }
  }
}
