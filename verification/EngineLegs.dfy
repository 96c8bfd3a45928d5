/**
 How legs move: forward only, from their entry through their steps to their finish. What
 a leg has lost, left behind or finished stays so in every run.
 */
module EngineLegs {
  import opened Wrappers
  import opened Plans
  import opened Recovery
  import opened Leases
  import opened Engine
  import T = EngineTransparency

  /** The leg has behind it the call that makes it an owner. */
  predicate Entered(phase: Phase) {
    !phase.Starting? && !phase.Acquiring? && !phase.Scanned?
  }

  /** The leg has its end before it: nothing of the plan is run any more. */
  predicate Finishing(phase: Phase) {
    || phase.Resolving? || phase.Emitting? || phase.Saving? || phase.Pruning?
    || phase.FailingRun? || phase.PruningRun? || phase.Releasing? || phase.Ended?
  }

  /** The leg stands in front of a Pipe. */
  predicate AtPipe(leg: Leg) {
    && leg.cursor.Some? && leg.cursor.value.local < |leg.cursor.value.steps|
    && leg.cursor.value.steps[leg.cursor.value.local].kind == StepPipe
  }

  /** A renewing leg has entered; a parked one has its end before it and stands in a Pipe on its first go. */
  predicate LegOk(leg: Leg) {
    && (leg.gated && leg.phase == InStep ==> AtPipe(leg))
    && (leg.gated ==> Entered(leg.phase))
    && (leg.renewing ==> Entered(leg.phase))
    && (leg.parked ==> Finishing(leg.phase) && AtPipe(leg) && !leg.cursor.value.resuming)
  }

  /** One step of a leg, or of anybody else. */
  predicate LegGoes(leg: Leg, leg': Leg) {
    && leg'.kind == leg.kind && leg'.holder == leg.holder
    && (leg'.alive ==> leg.alive)
    && (leg'.phase.Starting? ==> leg.phase.Starting?)
    && (Entered(leg.phase) ==> Entered(leg'.phase))
    && (Finishing(leg.phase) ==> Finishing(leg'.phase) && leg'.cursor == leg.cursor && (leg'.parked ==> leg.parked))
    && (leg.lost ==> leg'.lost && (leg'.parked ==> leg.parked))
    && (Entered(leg.phase) && !leg.renewing ==> !leg'.renewing)
    && (leg.phase.Ended? ==> leg'.phase.Ended?)
    && (LegOk(leg) ==> LegOk(leg'))
  }

  /** A leg that has just been added. */
  predicate IsNew(leg: Leg) {
    LegOk(leg) && !leg.parked && !leg.lost && !Finishing(leg.phase) && !leg.phase.Starting?
  }

  predicate LegsGo(w: World, w': World) {
    && |w.legs| <= |w'.legs|
    && (forall l | 0 <= l < |w.legs| :: LegGoes(w.legs[l], w'.legs[l]))
    && (forall l | |w.legs| <= l < |w'.legs| :: IsNew(w'.legs[l]))
  }

  /** The event is work of the plan, or the way to it. */
  predicate IsWork(e: Event) {
    e.Acquired? || e.StepBegan? || e.CallBegan? || e.TerminalBegan? || e.ReplayStarted?
  }

  predicate Renews(e: Event) {
    e.Renewed? || e.Proved?
  }

  /** Only a leg that has not come to its end works, and only one that still renews, or has lost nothing, renews. */
  predicate EventsGo(w: World, w': World) {
    && w.log <= w'.log
    && forall q | |w.log| <= q < |w'.log| ::
         var e := w'.log[q];
         && (IsWork(e) ==> e.leg < |w.legs| && !Finishing(w.legs[e.leg].phase))
         && (Renews(e) ==> e.leg < |w.legs| && (w.legs[e.leg].renewing || !w.legs[e.leg].lost))
  }

  predicate Moves(w: World, w': World) {
    LegsGo(w, w') && EventsGo(w, w')
  }

  lemma Still(w: World)
    ensures Moves(w, w)
  {
  }

  /** Only leg l moves, and logs at most one event. */
  lemma OneLeg(w: World, w': World, l: nat)
    requires l < |w.legs| == |w'.legs| && w'.legs == w.legs[l := w'.legs[l]] && LegGoes(w.legs[l], w'.legs[l])
    requires w'.log == w.log || (|w'.log| == |w.log| + 1 && w.log <= w'.log && w'.log[|w.log|].leg == l)
    requires w'.log != w.log && IsWork(w'.log[|w.log|]) ==> !Finishing(w.legs[l].phase)
    requires w'.log != w.log && Renews(w'.log[|w.log|]) ==> w.legs[l].renewing || !w.legs[l].lost
    ensures Moves(w, w')
  {
  }

  lemma EnvironmentMoves(sys: System, w: World, a: Action)
    ensures Moves(w, ApplyEnvironment(sys, w, a))
  {
    hide World.PrunedRows, Moves;
    var w' := ApplyEnvironment(sys, w, a);
    if a.Beat? && a.l < |w.legs| {
      OneLeg(w, w', a.l);
    } else if a.Crash? && a.l < |w.legs| {
      OneLeg(w, w', a.l);
    } else {
      SameLegs(w, w');
    }
  }

  lemma SameLegs(w: World, w': World)
    requires w'.legs == w.legs && w'.log == w.log
    ensures Moves(w, w')
  {
  }

  lemma OneMoreLeg(w: World, w': World)
    requires |w'.legs| == |w.legs| + 1 && w'.log == w.log
    requires forall l | 0 <= l < |w.legs| :: LegGoes(w.legs[l], w'.legs[l])
    requires IsNew(w'.legs[|w.legs|])
    ensures Moves(w, w')
  {
  }

  lemma StartRunMoves(sys: System, w: World, l: nat, saved: bool, emitted: bool)
    ensures Moves(w, ApplyEntry(sys, w, StartRun(l, saved, emitted)))
  {
    hide System.Journal, AcquiredLease, Acquirable, World.ResolvedKey, Moves;
    var w' := ApplyEntry(sys, w, StartRun(l, saved, emitted));
    if w' == w {
      Still(w);
    } else {
      OneLeg(w, w', l);
    }
  }

  lemma AcquireLeaseMoves(sys: System, w: World, l: nat, reachable: bool)
    ensures Moves(w, ApplyEntry(sys, w, AcquireLease(l, reachable)))
  {
    hide System.Journal, AcquiredLease, Acquirable, World.ResolvedKey, Moves;
    var w' := ApplyEntry(sys, w, AcquireLease(l, reachable));
    if w' == w {
      Still(w);
    } else {
      OneLeg(w, w', l);
    }
  }

  lemma GiveUpMoves(sys: System, w: World, l: nat)
    ensures Moves(w, ApplyEntry(sys, w, GiveUp(l)))
  {
    hide System.Journal, AcquiredLease, Acquirable, World.ResolvedKey, Moves;
    var w' := ApplyEntry(sys, w, GiveUp(l));
    if w' == w {
      Still(w);
    } else {
      OneLeg(w, w', l);
    }
  }

  lemma WriteJournalMoves(sys: System, w: World, l: nat, ok: bool)
    ensures Moves(w, ApplyEntry(sys, w, WriteJournal(l, ok)))
  {
    hide System.Journal, AcquiredLease, Acquirable, World.ResolvedKey, Moves;
    var w' := ApplyEntry(sys, w, WriteJournal(l, ok));
    if w' == w {
      Still(w);
    } else {
      OneLeg(w, w', l);
    }
  }

  lemma ResumeMoves(sys: System, w: World, l: nat)
    ensures Moves(w, ApplyEntry(sys, w, Resume(l)))
  {
    hide Moves;
    var w' := ApplyEntry(sys, w, Resume(l));
    if w' == w {
      Still(w);
    } else {
      OneMoreLeg(w, w');
    }
  }

  lemma IdleEntry(sys: System, w: World, a: Action)
    requires !a.StartRun? && !a.AcquireLease? && !a.GiveUp? && !a.WriteJournal? && !a.Resume?
    ensures Moves(w, ApplyEntry(sys, w, a))
  {
    hide Moves;
    Still(w);
  }

  lemma EntryMoves(sys: System, w: World, a: Action)
    ensures Moves(w, ApplyEntry(sys, w, a))
  {
    hide Moves, ApplyEntry;
    match a
    case StartRun(l, saved, emitted) => StartRunMoves(sys, w, l, saved, emitted);
    case AcquireLease(l, reachable) => AcquireLeaseMoves(sys, w, l, reachable);
    case GiveUp(l) => GiveUpMoves(sys, w, l);
    case WriteJournal(l, ok) => WriteJournalMoves(sys, w, l, ok);
    case Resume(l) => ResumeMoves(sys, w, l);
    case _ =>
      IdleEntry(sys, w, a);
  }

  lemma ClaimMoves(sys: System, w: World, l: nat)
    ensures Moves(w, ApplyRecovery(sys, w, Claim(l)))
  {
    hide World.PrunedRows, AcquiredLease, Acquirable, Moves;
    var w' := ApplyRecovery(sys, w, Claim(l));
    if w' == w {
      Still(w);
    } else {
      OneLeg(w, w', l);
    }
  }

  lemma FailRunMoves(sys: System, w: World, l: nat, ok: bool)
    ensures Moves(w, ApplyRecovery(sys, w, FailRun(l, ok)))
  {
    hide World.PrunedRows, AcquiredLease, Acquirable, Moves;
    var w' := ApplyRecovery(sys, w, FailRun(l, ok));
    if w' == w {
      Still(w);
    } else {
      OneLeg(w, w', l);
    }
  }

  lemma PruneRunMoves(sys: System, w: World, l: nat, ok: bool)
    ensures Moves(w, ApplyRecovery(sys, w, PruneRun(l, ok)))
  {
    hide World.PrunedRows, AcquiredLease, Acquirable, Moves;
    var w' := ApplyRecovery(sys, w, PruneRun(l, ok));
    if w' == w {
      Still(w);
    } else {
      OneLeg(w, w', l);
    }
  }

  lemma ScanMoves(sys: System, w: World, holder: string, force: bool)
    ensures Moves(w, ApplyRecovery(sys, w, Scan(holder, force)))
  {
    hide ListsCheckpoints, DurableReplayInput, Moves;
    var w' := ApplyRecovery(sys, w, Scan(holder, force));
    if w' == w {
      Still(w);
    } else {
      OneMoreLeg(w, w');
    }
  }

  lemma DecidedMoves(w: World, l: nat, k: nat, verdict: Verdict)
    requires w.At(l, Deciding) && w.legs[l].kind.Recovered?
    ensures Moves(w, Decided(w, l, k, verdict))
  {
    hide Moves;
    OneLeg(w, Decided(w, l, k, verdict), l);
  }

  lemma DecideMoves(sys: System, w: World, a: Action)
    requires a.Decide?
    ensures Moves(w, ApplyRecovery(sys, w, a))
  {
    hide ListsCheckpoints, ListsIntents, DeploymentGoSized, ReplayVerdict, DurableReplayInput, Moves, Decided;
    var w' := ApplyRecovery(sys, w, a);
    if w' == w {
      Still(w);
    } else if !a.ok || w.waiting != {} {
      OneLeg(w, w', a.l);
    } else {
      DecidedMoves(w, a.l, DurableReplayInput(w.legs[a.l].snapshot.value, a.checkpoints).resumeIndex,
                   ReplayVerdict(sys.id, a.deployment, w.legs[a.l].snapshot.value, a.checkpoints, a.intents, w.legs[a.l].kind.forced));
    }
  }

  lemma IdleRecovery(sys: System, w: World, a: Action)
    requires !a.Claim? && !a.FailRun? && !a.PruneRun? && !a.Scan? && !a.Decide?
    ensures Moves(w, ApplyRecovery(sys, w, a))
  {
    hide Moves;
    Still(w);
  }

  lemma RecoveryMoves(sys: System, w: World, a: Action)
    ensures Moves(w, ApplyRecovery(sys, w, a))
  {
    hide Moves, ApplyRecovery;
    match a
    case Claim(l) => ClaimMoves(sys, w, l);
    case FailRun(l, ok) => FailRunMoves(sys, w, l, ok);
    case PruneRun(l, ok) => PruneRunMoves(sys, w, l, ok);
    case Scan(holder, force) => ScanMoves(sys, w, holder, force);
    case Decide(_, _, _, _, _) => DecideMoves(sys, w, a);
    case _ =>
      IdleRecovery(sys, w, a);
  }

  lemma LoopMoves(sys: System, w: World, a: Action)
    ensures Moves(w, ApplyLoop(sys, w, a))
  {
    hide System.Checkpoint, Advanced, Moves;
    var w' := ApplyLoop(sys, w, a);
    if w' == w {
      Still(w);
    } else {
      OneLeg(w, w', a.l);
    }
  }

  lemma ConfirmMoves(sys: System, w: World, l: nat, answer: Answer)
    ensures Moves(w, ApplyTerminal(sys, w, Confirm(l, answer)))
  {
    hide TerminalTool, World.ResolvedKey, Holds, RenewedRow, Moves;
    var w' := ApplyTerminal(sys, w, Confirm(l, answer));
    if w' == w {
      Still(w);
    } else {
      OneLeg(w, w', l);
    }
  }

  lemma BeginTerminalMoves(sys: System, w: World, l: nat)
    ensures Moves(w, ApplyTerminal(sys, w, BeginTerminal(l)))
  {
    hide TerminalTool, World.ResolvedKey, Holds, RenewedRow, Moves;
    var w' := ApplyTerminal(sys, w, BeginTerminal(l));
    if w' == w {
      Still(w);
    } else {
      OneLeg(w, w', l);
    }
  }

  lemma EndTerminalMoves(sys: System, w: World, l: nat, ok: bool, definite: bool)
    ensures Moves(w, ApplyTerminal(sys, w, EndTerminal(l, ok, definite)))
  {
    hide TerminalTool, World.ResolvedKey, Holds, RenewedRow, Moves;
    var w' := ApplyTerminal(sys, w, EndTerminal(l, ok, definite));
    if w' == w {
      Still(w);
    } else {
      OneLeg(w, w', l);
    }
  }

  lemma SettleMoves(sys: System, w: World, l: nat, ok: bool)
    ensures Moves(w, ApplyTerminal(sys, w, Settle(l, ok)))
  {
    hide TerminalTool, World.ResolvedKey, Holds, RenewedRow, Moves;
    var w' := ApplyTerminal(sys, w, Settle(l, ok));
    if w' == w {
      Still(w);
    } else {
      OneLeg(w, w', l);
    }
  }

  lemma StopRenewerMoves(sys: System, w: World, l: nat)
    ensures Moves(w, ApplyTerminal(sys, w, StopRenewer(l)))
  {
    hide TerminalTool, World.ResolvedKey, Holds, RenewedRow, Moves;
    var w' := ApplyTerminal(sys, w, StopRenewer(l));
    if w' == w {
      Still(w);
    } else {
      OneLeg(w, w', l);
    }
  }

  lemma ProveMoves(sys: System, w: World, l: nat, answer: Answer)
    ensures Moves(w, ApplyTerminal(sys, w, Prove(l, answer)))
  {
    hide TerminalTool, World.ResolvedKey, Holds, RenewedRow, Moves;
    var w' := ApplyTerminal(sys, w, Prove(l, answer));
    if w' == w {
      Still(w);
    } else {
      OneLeg(w, w', l);
    }
  }

  lemma IdleTerminal(sys: System, w: World, a: Action)
    requires !a.Confirm? && !a.BeginTerminal? && !a.EndTerminal? && !a.Settle? && !a.StopRenewer? && !a.Prove?
    ensures Moves(w, ApplyTerminal(sys, w, a))
  {
    hide Moves;
    Still(w);
  }

  lemma TerminalMoves(sys: System, w: World, a: Action)
    ensures Moves(w, ApplyTerminal(sys, w, a))
  {
    hide Moves, ApplyTerminal;
    match a
    case Confirm(l, answer) => ConfirmMoves(sys, w, l, answer);
    case BeginTerminal(l) => BeginTerminalMoves(sys, w, l);
    case EndTerminal(l, ok, definite) => EndTerminalMoves(sys, w, l, ok, definite);
    case Settle(l, ok) => SettleMoves(sys, w, l, ok);
    case StopRenewer(l) => StopRenewerMoves(sys, w, l);
    case Prove(l, answer) => ProveMoves(sys, w, l, answer);
    case _ =>
      IdleTerminal(sys, w, a);
  }

  lemma ResolveKeyMoves(sys: System, w: World, l: nat, ok: bool)
    ensures Moves(w, ApplyFinish(sys, w, ResolveKey(l, ok)))
  {
    hide World.PrunedRows, World.ResolvedKey, ReleasedRow, Moves;
    var w' := ApplyFinish(sys, w, ResolveKey(l, ok));
    if w' == w {
      Still(w);
    } else {
      OneLeg(w, w', l);
    }
  }

  lemma EmitMoves(sys: System, w: World, l: nat, ok: bool)
    ensures Moves(w, ApplyFinish(sys, w, Emit(l, ok)))
  {
    hide World.PrunedRows, World.ResolvedKey, ReleasedRow, Moves;
    var w' := ApplyFinish(sys, w, Emit(l, ok));
    if w' == w {
      Still(w);
    } else {
      OneLeg(w, w', l);
    }
  }

  lemma SaveMoves(sys: System, w: World, l: nat, ok: bool)
    ensures Moves(w, ApplyFinish(sys, w, Save(l, ok)))
  {
    hide World.PrunedRows, World.ResolvedKey, ReleasedRow, Moves;
    var w' := ApplyFinish(sys, w, Save(l, ok));
    if w' == w {
      Still(w);
    } else {
      OneLeg(w, w', l);
    }
  }

  lemma PruneJournalMoves(sys: System, w: World, l: nat, ok: bool)
    ensures Moves(w, ApplyFinish(sys, w, PruneJournal(l, ok)))
  {
    hide World.PrunedRows, World.ResolvedKey, ReleasedRow, Moves;
    var w' := ApplyFinish(sys, w, PruneJournal(l, ok));
    if w' == w {
      Still(w);
    } else {
      OneLeg(w, w', l);
    }
  }

  lemma ReleaseLeaseMoves(sys: System, w: World, l: nat, reachable: bool)
    ensures Moves(w, ApplyFinish(sys, w, ReleaseLease(l, reachable)))
  {
    hide World.PrunedRows, World.ResolvedKey, ReleasedRow, Moves;
    var w' := ApplyFinish(sys, w, ReleaseLease(l, reachable));
    if w' == w {
      Still(w);
    } else {
      OneLeg(w, w', l);
    }
  }

  lemma IdleFinish(sys: System, w: World, a: Action)
    requires !a.ResolveKey? && !a.Emit? && !a.Save? && !a.PruneJournal? && !a.ReleaseLease?
    ensures Moves(w, ApplyFinish(sys, w, a))
  {
    hide Moves;
    Still(w);
  }

  lemma FinishMoves(sys: System, w: World, a: Action)
    ensures Moves(w, ApplyFinish(sys, w, a))
  {
    hide Moves, ApplyFinish;
    match a
    case ResolveKey(l, ok) => ResolveKeyMoves(sys, w, l, ok);
    case Emit(l, ok) => EmitMoves(sys, w, l, ok);
    case Save(l, ok) => SaveMoves(sys, w, l, ok);
    case PruneJournal(l, ok) => PruneJournalMoves(sys, w, l, ok);
    case ReleaseLease(l, reachable) => ReleaseLeaseMoves(sys, w, l, reachable);
    case _ =>
      IdleFinish(sys, w, a);
  }

  lemma ApplyMoves(sys: System, w: World, a: Action)
    ensures Moves(w, Apply(sys, w, a))
  {
    hide Moves, ApplyEnvironment, ApplyEntry, ApplyRecovery, ApplyLoop, ApplyTerminal, ApplyFinish;
    EnvironmentMoves(sys, w, a);
    EntryMoves(sys, w, a);
    RecoveryMoves(sys, w, a);
    LoopMoves(sys, w, a);
    TerminalMoves(sys, w, a);
    FinishMoves(sys, w, a);
  }
  // ---------- over whole runs ----------

  lemma OneApart(sys: System, start: World, trace: seq<World>, acts: seq<Action>, i: nat)
    requires IsRun(sys, start, trace, acts) && i < |acts|
    ensures trace[i + 1] == Apply(sys, trace[i], acts[i])
  {
  }

  lemma {:induction false} LegsAreOk(sys: System, holder: string, reserved: bool, now: int, trace: seq<World>, acts: seq<Action>, n: nat)
    requires IsRun(sys, Init(sys, holder, reserved, now), trace, acts) && n <= |acts|
    ensures forall l | 0 <= l < |trace[n].legs| :: LegOk(trace[n].legs[l])
  {
    hide Apply, LegOk;
    if n == 0 {
      StartIsOk(sys, holder, reserved, now, trace, acts);
    } else {
      LegsAreOk(sys, holder, reserved, now, trace, acts, n - 1);
      OneApart(sys, Init(sys, holder, reserved, now), trace, acts, n - 1);
      ApplyMoves(sys, trace[n - 1], acts[n - 1]);
      assert forall l | 0 <= l < |trace[n - 1].legs| :: LegGoes(trace[n - 1].legs[l], trace[n].legs[l]);
    }
  }

  lemma StartIsOk(sys: System, holder: string, reserved: bool, now: int, trace: seq<World>, acts: seq<Action>)
    requires IsRun(sys, Init(sys, holder, reserved, now), trace, acts)
    ensures trace[0] == Init(sys, holder, reserved, now) && forall l | 0 <= l < |trace[0].legs| :: LegOk(trace[0].legs[l])
  {
  }

  lemma {:induction false} LegGoesOn(sys: System, start: World, trace: seq<World>, acts: seq<Action>, n: nat, m: nat, l: nat)
    requires IsRun(sys, start, trace, acts) && n <= m <= |acts| && l < |trace[n].legs|
    ensures l < |trace[m].legs| && LegGoes(trace[n].legs[l], trace[m].legs[l]) && trace[n].log <= trace[m].log
    decreases m - n
  {
    hide Apply, LegOk, Entered;
    if n < m {
      LegGoesOn(sys, start, trace, acts, n, m - 1, l);
      OneApart(sys, start, trace, acts, m - 1);
      ApplyMoves(sys, trace[m - 1], acts[m - 1]);
    }
  }

  /** From point n on, the leg logs nothing of the given kinds. */
  predicate Quiet(before: World, after: World, l: nat, work: bool) {
    forall q | |before.log| <= q < |after.log| && after.log[q].leg == l :: if work then !IsWork(after.log[q]) else !Renews(after.log[q])
  }

  lemma QuietStep(w: World, w1: World, w2: World, l: nat, work: bool)
    requires l < |w1.legs| && w.log <= w1.log && Moves(w1, w2) && Quiet(w, w1, l, work)
    requires if work then Finishing(w1.legs[l].phase) else w1.legs[l].lost && !w1.legs[l].renewing
    ensures Quiet(w, w2, l, work)
  {
    hide LegsGo;
    forall q | |w.log| <= q < |w2.log| && w2.log[q].leg == l
      ensures if work then !IsWork(w2.log[q]) else !Renews(w2.log[q])
    {
      if q < |w1.log| {
        assert w2.log[q] == w1.log[q];
      }
    }
  }

  /**
   A leg that has come to its finish only finishes: in no later world of the run has it
   acquired a lease, begun a step, a call or a terminal, or started a replay.
   */
  lemma {:induction false} FinishingLegsOnlyFinish(sys: System, start: World, trace: seq<World>, acts: seq<Action>, n: nat, m: nat, l: nat)
    requires IsRun(sys, start, trace, acts) && n <= m <= |acts| && l < |trace[n].legs| && Finishing(trace[n].legs[l].phase)
    ensures l < |trace[m].legs| && Finishing(trace[m].legs[l].phase) && trace[n].log <= trace[m].log
    ensures forall q | |trace[n].log| <= q < |trace[m].log| && trace[m].log[q].leg == l :: !IsWork(trace[m].log[q])
    decreases m - n
  {
    hide Apply, Moves, LegOk, Finishing;
    LegGoesOn(sys, start, trace, acts, n, m, l);
    if n < m {
      FinishingLegsOnlyFinish(sys, start, trace, acts, n, m - 1, l);
      OneApart(sys, start, trace, acts, m - 1);
      ApplyMoves(sys, trace[m - 1], acts[m - 1]);
      QuietStep(trace[n], trace[m - 1], trace[m], l, true);
    }
  }

  lemma {:induction false} QuietOn(sys: System, start: World, trace: seq<World>, acts: seq<Action>, n: nat, m: nat, l: nat)
    requires IsRun(sys, start, trace, acts) && n <= m <= |acts| && l < |trace[n].legs|
    requires trace[n].legs[l].lost && !trace[n].legs[l].renewing && Entered(trace[n].legs[l].phase)
    ensures trace[n].log <= trace[m].log && Quiet(trace[n], trace[m], l, false)
    decreases m - n
  {
    hide Apply, Moves, LegOk, Entered;
    LegGoesOn(sys, start, trace, acts, n, m, l);
    if n < m {
      QuietOn(sys, start, trace, acts, n, m - 1, l);
      LegGoesOn(sys, start, trace, acts, n, m - 1, l);
      OneApart(sys, start, trace, acts, m - 1);
      ApplyMoves(sys, trace[m - 1], acts[m - 1]);
      QuietStep(trace[n], trace[m - 1], trace[m], l, false);
    }
  }

  lemma BeatLoses(sys: System, w: World, l: nat, answer: Answer)
    requires l < |w.legs| && LegOk(w.legs[l]) && Apply(sys, w, Beat(l, answer)).log == w.log + [LeaseLost(l)]
    ensures var leg := Apply(sys, w, Beat(l, answer)).legs[l]; leg.lost && !leg.renewing && Entered(leg.phase)
  {
    assert (w.log + [Renewed(l, w.legs[l].fence)])[|w.log|] != (w.log + [LeaseLost(l)])[|w.log|];
  }

  /** A background renewal that fails is the last one: the leg renews and proves nothing in any later world. */
  lemma LossIsFinal(sys: System, holder: string, reserved: bool, now: int, trace: seq<World>, acts: seq<Action>, n: nat, m: nat,
                    l: nat, answer: Answer)
    requires IsRun(sys, Init(sys, holder, reserved, now), trace, acts) && n < m <= |acts| && l < |trace[n].legs|
    requires acts[n] == Beat(l, answer) && trace[n + 1].log == trace[n].log + [LeaseLost(l)]
    ensures trace[n + 1].log <= trace[m].log
    ensures forall q | |trace[n + 1].log| <= q < |trace[m].log| && trace[m].log[q].leg == l ::
              !trace[m].log[q].Renewed? && !trace[m].log[q].Proved?
  {
    hide Apply, LegOk, Entered, Init;
    var start := Init(sys, holder, reserved, now);
    LegsAreOk(sys, holder, reserved, now, trace, acts, n);
    OneApart(sys, start, trace, acts, n);
    BeatLoses(sys, trace[n], l, answer);
    LegGoesOn(sys, start, trace, acts, n, n + 1, l);
    QuietOn(sys, start, trace, acts, n + 1, m, l);
  }

  /** A leg that has lost its lease is not parked any more: its run is not suspended but fails. */
  lemma LostLegsDoNotPark(sys: System, start: World, trace: seq<World>, acts: seq<Action>, n: nat, m: nat, l: nat)
    requires IsRun(sys, start, trace, acts) && n <= m <= |acts| && l < |trace[n].legs| && trace[n].legs[l].lost
    ensures l < |trace[m].legs| && trace[m].legs[l].lost && (trace[m].legs[l].parked ==> trace[n].legs[l].parked)
  {
    LegGoesOn(sys, start, trace, acts, n, m, l);
  }

  /** In every run, what is suspended is a Pipe of the plan with the value of the fold in front of it, and no continuation. */
  lemma OnlyPipesSuspend(sys: System, holder: string, reserved: bool, now: int, trace: seq<World>, acts: seq<Action>, l: nat)
    requires T.WellFormed(sys) && IsRun(sys, Init(sys, holder, reserved, now), trace, acts)
    requires l < |trace[|acts|].legs| && trace[|acts|].legs[l].parked
    ensures var c := trace[|acts|].legs[l].cursor;
            && c.Some? && !c.value.resuming && c.value.Index() < sys.count
            && sys.plan.steps[c.value.Index()].kind == StepPipe && c.value.current == sys.Value(c.value.Index())
  {
    var w := trace[|acts|];
    var start := Init(sys, holder, reserved, now);
    LegsAreOk(sys, holder, reserved, now, trace, acts, |acts|);
    RunEnds(sys, start, trace, acts);
    T.InitHolds(sys, holder, reserved, now);
    hide Apply, Exec, IsRun, System.Value, T.LogTransparent, T.RowsOk, T.WellFormed, Init;
    T.ExecKeeps(sys, start, acts);
    assert T.LegOk(sys, w.legs[l], l, |w.legs|, w.rows);
  }
}
