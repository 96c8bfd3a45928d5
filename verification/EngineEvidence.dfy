/**
 Evidence on every exit path: what a leg must have done before it prunes its journal,
 settles the trigger key or abandons its run.
 */
module EngineEvidence {
  import opened Wrappers
  import opened Recovery
  import opened Leases
  import opened Engine

  /** The terminal of the leg succeeded; a leg without a terminal function proved its lease instead. */
  ghost predicate Delivered(sys: System, log: seq<Event>, l: nat) {
    TerminalDone(l) in log || (sys.bare && exists f :: Proved(l, f) in log)
  }

  ghost predicate Justified(sys: System, log: seq<Event>, e: Event) {
    match e
    case TerminalDone(l) => exists index, input, effectful :: TerminalBegan(l, index, input, effectful) in log
    case KeyResolved(l, success) => if success then Delivered(sys, log, l) else TerminalDone(l) !in log
    case Saved(l, completed) => completed ==> Delivered(sys, log, l)
    case Pruned(l) => Saved(l, true) in log && Emitted(l) in log && KeyResolved(l, true) in log
    case AbandonPruned(l) => Abandoned(l) in log
    case _ => true
  }

  ghost predicate History(sys: System, log: seq<Event>) {
    forall q | 0 <= q < |log| :: Justified(sys, log[..q], log[q])
  }

  predicate AfterTerminal(phase: Phase) {
    || phase.Settling? || phase.Stopping? || phase.Proving? || phase.Resolving? || phase.Emitting? || phase.Saving?
    || phase.Pruning? || phase.Releasing? || phase.Ended?
  }

  /** Delivered, or about to prove the lease of a leg without a terminal function. */
  predicate Delivering(sys: System, leg: Leg) {
    leg.terminalDone || sys.bare
  }

  predicate HasDelivered(sys: System, leg: Leg, l: nat, log: seq<Event>) {
    leg.terminalDone || (sys.bare && Proved(l, leg.fence) in log)
  }

  ghost predicate LegLog(sys: System, leg: Leg, l: nat, log: seq<Event>) {
    && (leg.terminalDone <==> TerminalDone(l) in log)
    && (leg.terminalDone ==> AfterTerminal(leg.phase))
    && match leg.phase
       case InTerminal => exists index, input, effectful :: TerminalBegan(l, index, input, effectful) in log
       case Settling => leg.terminalDone
       case Stopping => Delivering(sys, leg)
       case Proving => Delivering(sys, leg)
       case Resolving(completed, success) =>
         (completed ==> success) && (if success then HasDelivered(sys, leg, l, log) else !leg.terminalDone)
       case Emitting(completed, clean) =>
         completed ==> HasDelivered(sys, leg, l, log) && (clean ==> KeyResolved(l, true) in log)
       case Saving(completed, clean) =>
         completed ==> HasDelivered(sys, leg, l, log) && (clean ==> KeyResolved(l, true) in log && Emitted(l) in log)
       case Pruning(completed) =>
         completed ==> HasDelivered(sys, leg, l, log) && Saved(l, true) in log && Emitted(l) in log && KeyResolved(l, true) in log
       case FailingRun(abandoned) => abandoned ==> Abandoned(l) in log
       case PruningRun => Abandoned(l) in log
       case _ => true
  }

  ghost predicate Inv(sys: System, w: World) {
    && (forall l | 0 <= l < |w.legs| :: LegLog(sys, w.legs[l], l, w.log))
    && (forall q | 0 <= q < |w.log| :: w.log[q].leg < |w.legs|)
    && History(sys, w.log)
  }

  // ---------- steps of one leg ----------

  lemma HistoryGrows(sys: System, log: seq<Event>, e: Event)
    requires History(sys, log) && Justified(sys, log, e)
    ensures History(sys, log + [e])
  {
    forall q | 0 <= q < |log + [e]|
      ensures Justified(sys, (log + [e])[..q], (log + [e])[q])
    {
      assert (log + [e])[..q] == log[..q];
      assert log[..|log|] == log;
    }
  }

  lemma EventStep(sys: System, w: World, w': World, l: nat, leg: Leg, e: Event)
    requires Inv(sys, w) && l < |w.legs|
    requires w'.legs == w.legs[l := leg] && w'.log == w.log + [e] && e.leg == l
    requires Justified(sys, w.log, e) && LegLog(sys, leg, l, w'.log)
    ensures Inv(sys, w')
  {
    HistoryGrows(sys, w.log, e);
    forall m | 0 <= m < |w.legs| && m != l
      ensures LegLog(sys, w'.legs[m], m, w'.log)
    {
      assert LegLog(sys, w.legs[m], m, w.log);
      assert forall x: Event :: x.leg == m ==> (x in w'.log <==> x in w.log);
    }
  }

  lemma QuietStep(sys: System, w: World, w': World, l: nat, leg: Leg)
    requires Inv(sys, w) && l < |w.legs|
    requires w'.legs == w.legs[l := leg] && w'.log == w.log
    requires LegLog(sys, leg, l, w.log)
    ensures Inv(sys, w')
  {
  }

  /** A phase that claims nothing. */
  predicate Plain(phase: Phase) {
    || phase.Starting? || phase.Acquiring? || phase.Journaling? || phase.Scanned? || phase.Deciding? || phase.Looping?
    || phase.InStep? || phase.Confirming? || phase.AtTerminal? || phase.Releasing? || phase.Ended?
  }

  predicate Silent(e: Event) {
    !e.TerminalDone? && !e.KeyResolved? && !e.Pruned? && !e.AbandonPruned? && (e.Saved? ==> !e.completed)
  }

  /** An event that needs no evidence, of a leg that goes to a phase that claims nothing or stays. */
  lemma SilentEvent(sys: System, w: World, w': World, l: nat, leg: Leg, e: Event)
    requires Inv(sys, w) && l < |w.legs|
    requires w'.legs == w.legs[l := leg] && w'.log == w.log + [e] && e.leg == l && Silent(e)
    requires leg.terminalDone == w.legs[l].terminalDone && (leg.fence == w.legs[l].fence || Plain(leg.phase))
    requires leg.phase == w.legs[l].phase
             || (Plain(leg.phase) && (AfterTerminal(w.legs[l].phase) ==> AfterTerminal(leg.phase)))
    ensures Inv(sys, w')
  {
    assert LegLog(sys, w.legs[l], l, w.log);
    assert forall x: Event :: x != e ==> (x in w'.log <==> x in w.log);
    assert LegLog(sys, leg, l, w'.log);
    EventStep(sys, w, w', l, leg, e);
  }

  lemma SilentStep(sys: System, w: World, w': World, l: nat, leg: Leg)
    requires Inv(sys, w) && l < |w.legs|
    requires w'.legs == w.legs[l := leg] && w'.log == w.log
    requires leg.terminalDone == w.legs[l].terminalDone && leg.fence == w.legs[l].fence
    requires leg.phase == w.legs[l].phase
             || ((Plain(leg.phase) || (leg.phase == Resolving(false, false) && !AfterTerminal(w.legs[l].phase)))
                 && (AfterTerminal(w.legs[l].phase) ==> AfterTerminal(leg.phase)))
    ensures Inv(sys, w')
  {
    assert LegLog(sys, w.legs[l], l, w.log);
  }

  // ---------- every action keeps the invariant ----------

  lemma ConfirmKeeps(sys: System, w: World, l: nat, answer: Answer)
    requires Inv(sys, w)
    ensures Inv(sys, ApplyTerminal(sys, w, Confirm(l, answer)))
  {
    hide World.PrunedRows, World.ResolvedKey, TerminalTool, System.Journal;
    var w' := ApplyTerminal(sys, w, Confirm(l, answer));
    if w' != w {
      assert LegLog(sys, w.legs[l], l, w.log);
      hide Inv;
      if |w'.log| > |w.log| {
        var e := w'.log[|w.log|];
        assert w'.log == w.log + [e];
        assert forall x: Event :: x != e ==> (x in w'.log <==> x in w.log);
        assert e in w'.log;
        EventStep(sys, w, w', l, w'.legs[l], e);
      } else {
        assert w'.log == w.log;
        QuietStep(sys, w, w', l, w'.legs[l]);
      }
    }
  }

  lemma BeginTerminalKeeps(sys: System, w: World, l: nat)
    requires Inv(sys, w)
    ensures Inv(sys, ApplyTerminal(sys, w, BeginTerminal(l)))
  {
    hide World.PrunedRows, World.ResolvedKey, TerminalTool, System.Journal;
    var w' := ApplyTerminal(sys, w, BeginTerminal(l));
    if w' != w {
      assert LegLog(sys, w.legs[l], l, w.log);
      hide Inv;
      var e := w'.log[|w.log|];
      assert w'.log == w.log + [e];
      assert forall x: Event :: x != e ==> (x in w'.log <==> x in w.log);
      assert e in w'.log;
      EventStep(sys, w, w', l, w'.legs[l], e);
    }
  }

  lemma EndTerminalKeeps(sys: System, w: World, l: nat, ok: bool, definite: bool)
    requires Inv(sys, w)
    ensures Inv(sys, ApplyTerminal(sys, w, EndTerminal(l, ok, definite)))
  {
    hide World.PrunedRows, World.ResolvedKey, TerminalTool, System.Journal;
    var w' := ApplyTerminal(sys, w, EndTerminal(l, ok, definite));
    if w' != w {
      assert LegLog(sys, w.legs[l], l, w.log);
      hide Inv;
      if |w'.log| > |w.log| {
        var e := TerminalDone(l);
        assert w'.log == w.log + [e];
        assert forall x: Event :: x != e ==> (x in w'.log <==> x in w.log);
        assert e in w'.log;
        EventStep(sys, w, w', l, w'.legs[l], e);
      } else {
        assert w'.log == w.log;
        QuietStep(sys, w, w', l, w'.legs[l]);
      }
    }
  }

  lemma SettleKeeps(sys: System, w: World, l: nat, ok: bool)
    requires Inv(sys, w)
    ensures Inv(sys, ApplyTerminal(sys, w, Settle(l, ok)))
  {
    hide World.PrunedRows, World.ResolvedKey, TerminalTool, System.Journal;
    var w' := ApplyTerminal(sys, w, Settle(l, ok));
    if w' != w {
      assert LegLog(sys, w.legs[l], l, w.log);
      hide Inv;
      if |w'.log| > |w.log| {
        var e := KeyResolved(l, true);
        assert w'.log == w.log + [e];
        assert forall x: Event :: x != e ==> (x in w'.log <==> x in w.log);
        assert e in w'.log;
        EventStep(sys, w, w', l, w'.legs[l], e);
      } else {
        assert w'.log == w.log;
        QuietStep(sys, w, w', l, w'.legs[l]);
      }
    }
  }

  lemma StopKeeps(sys: System, w: World, l: nat)
    requires Inv(sys, w)
    ensures Inv(sys, ApplyTerminal(sys, w, StopRenewer(l)))
  {
    hide World.PrunedRows, World.ResolvedKey, TerminalTool, System.Journal;
    var w' := ApplyTerminal(sys, w, StopRenewer(l));
    if w' != w {
      assert LegLog(sys, w.legs[l], l, w.log);
      hide Inv;
      var e := RenewerStopped(l);
      assert w'.log == w.log + [e];
      assert forall x: Event :: x != e ==> (x in w'.log <==> x in w.log);
      assert e in w'.log;
      EventStep(sys, w, w', l, w'.legs[l], e);
    }
  }

  lemma ProveStep(sys: System, w: World, w': World, l: nat, leg: Leg, e: Event)
    requires Inv(sys, w) && l < |w.legs| && w.legs[l].phase.Proving?
    requires w'.legs == w.legs[l := leg] && w'.log == w.log + [e] && leg == w.legs[l].(lost := leg.lost, phase := leg.phase)
    requires if e == Proved(l, leg.fence) then leg.phase == Resolving(true, true)
             else e == LeaseLost(l) && leg.phase == Resolving(false, leg.terminalDone)
    ensures Inv(sys, w')
  {
    assert LegLog(sys, w.legs[l], l, w.log);
    hide Inv;
    assert forall x: Event :: x != e ==> (x in w'.log <==> x in w.log);
    assert e in w'.log;
    EventStep(sys, w, w', l, leg, e);
  }

  lemma ProveKeeps(sys: System, w: World, l: nat, answer: Answer)
    requires Inv(sys, w)
    ensures Inv(sys, ApplyTerminal(sys, w, Prove(l, answer)))
  {
    var w' := ApplyTerminal(sys, w, Prove(l, answer));
    if w' != w {
      if Owns(w, w.legs[l], answer) {
        hide Inv;
        ProveStep(sys, w, w', l, w'.legs[l], Proved(l, w.legs[l].fence));
      } else if answer == TimedOut {
        assert LegLog(sys, w.legs[l], l, w.log);
        hide Inv;
        assert w'.log == w.log;
        QuietStep(sys, w, w', l, w'.legs[l]);
      } else {
        hide Inv;
        ProveStep(sys, w, w', l, w'.legs[l], LeaseLost(l));
      }
    }
  }

  lemma ResolveKeyKeeps(sys: System, w: World, l: nat, ok: bool)
    requires Inv(sys, w)
    ensures Inv(sys, ApplyFinish(sys, w, ResolveKey(l, ok)))
  {
    hide World.PrunedRows, World.ResolvedKey;
    var w' := ApplyFinish(sys, w, ResolveKey(l, ok));
    if w' != w {
      assert LegLog(sys, w.legs[l], l, w.log);
      hide Inv;
      if |w'.log| > |w.log| {
        var e := KeyResolved(l, w.legs[l].phase.success);
        assert w'.log == w.log + [e];
        assert forall x: Event :: x != e ==> (x in w'.log <==> x in w.log);
        assert e in w'.log;
        EventStep(sys, w, w', l, w'.legs[l], e);
      } else {
        assert w'.log == w.log;
        QuietStep(sys, w, w', l, w'.legs[l]);
      }
    }
  }

  lemma EmitKeeps(sys: System, w: World, l: nat, ok: bool)
    requires Inv(sys, w)
    ensures Inv(sys, ApplyFinish(sys, w, Emit(l, ok)))
  {
    hide World.PrunedRows, World.ResolvedKey;
    var w' := ApplyFinish(sys, w, Emit(l, ok));
    if w' != w {
      assert LegLog(sys, w.legs[l], l, w.log);
      hide Inv;
      if |w'.log| > |w.log| {
        var e := Emitted(l);
        assert w'.log == w.log + [e];
        assert forall x: Event :: x != e ==> (x in w'.log <==> x in w.log);
        assert e in w'.log;
        EventStep(sys, w, w', l, w'.legs[l], e);
      } else {
        assert w'.log == w.log;
        QuietStep(sys, w, w', l, w'.legs[l]);
      }
    }
  }

  lemma SavedStep(sys: System, w: World, w': World, l: nat, leg: Leg)
    requires Inv(sys, w) && l < |w.legs| && w.legs[l].phase.Saving?
    requires var phase := w.legs[l].phase;
             && w'.legs == w.legs[l := leg] && w'.log == w.log + [Saved(l, phase.completed)]
             && leg == w.legs[l].(phase := if phase.clean then Pruning(phase.completed) else Releasing)
    ensures Inv(sys, w')
  {
    var e := Saved(l, w.legs[l].phase.completed);
    assert LegLog(sys, w.legs[l], l, w.log);
    assert forall x: Event :: x != e ==> (x in w'.log <==> x in w.log);
    assert e in w'.log;
    assert Justified(sys, w.log, e);
    assert LegLog(sys, leg, l, w'.log);
    hide Inv;
    EventStep(sys, w, w', l, leg, e);
  }

  lemma SaveKeeps(sys: System, w: World, l: nat, ok: bool)
    requires Inv(sys, w)
    ensures Inv(sys, ApplyFinish(sys, w, Save(l, ok)))
  {
    var w' := ApplyFinish(sys, w, Save(l, ok));
    if w' != w {
      hide Inv, World.PrunedRows, World.ResolvedKey;
      if ok {
        SavedStep(sys, w, w', l, w'.legs[l]);
      } else {
        SilentStep(sys, w, w', l, w'.legs[l]);
      }
    }
  }

  lemma PrunedStep(sys: System, w: World, w': World, l: nat, leg: Leg)
    requires Inv(sys, w) && l < |w.legs| && w.legs[l].phase == Pruning(true)
    requires w'.legs == w.legs[l := leg] && w'.log == w.log + [Pruned(l)] && leg == w.legs[l].(phase := Releasing)
    ensures Inv(sys, w')
  {
    assert LegLog(sys, w.legs[l], l, w.log);
    hide Inv;
    PrunedLeg(sys, w.legs[l], l, w.log);
    hide LegLog, Justified;
    EventStep(sys, w, w', l, leg, Pruned(l));
  }

  lemma PrunedLeg(sys: System, leg: Leg, l: nat, log: seq<Event>)
    requires LegLog(sys, leg, l, log) && leg.phase == Pruning(true)
    ensures Justified(sys, log, Pruned(l)) && LegLog(sys, leg.(phase := Releasing), l, log + [Pruned(l)])
  {
    assert TerminalDone(l) in log + [Pruned(l)] <==> TerminalDone(l) in log;
  }

  lemma PruneJournalKeeps(sys: System, w: World, l: nat, ok: bool)
    requires Inv(sys, w)
    ensures Inv(sys, ApplyFinish(sys, w, PruneJournal(l, ok)))
  {
    var w' := ApplyFinish(sys, w, PruneJournal(l, ok));
    if w' != w {
      hide Inv, World.PrunedRows, World.ResolvedKey;
      if ok && w.legs[l].phase.completed {
        PrunedStep(sys, w, w', l, w'.legs[l]);
      } else {
        SilentStep(sys, w, w', l, w'.legs[l]);
      }
    }
  }

  lemma ReleaseKeeps(sys: System, w: World, l: nat, reachable: bool)
    requires Inv(sys, w)
    ensures Inv(sys, ApplyFinish(sys, w, ReleaseLease(l, reachable)))
  {
    hide World.PrunedRows, World.ResolvedKey;
    var w' := ApplyFinish(sys, w, ReleaseLease(l, reachable));
    if w' != w {
      assert LegLog(sys, w.legs[l], l, w.log);
      hide Inv;
      if |w'.log| > |w.log| {
        var e := Released(l);
        assert w'.log == w.log + [e];
        assert forall x: Event :: x != e ==> (x in w'.log <==> x in w.log);
        assert e in w'.log;
        EventStep(sys, w, w', l, w'.legs[l], e);
      } else {
        assert w'.log == w.log;
        QuietStep(sys, w, w', l, w'.legs[l]);
      }
    }
  }

  lemma StartKeeps(sys: System, w: World, l: nat, saved: bool, emitted: bool)
    requires Inv(sys, w)
    ensures Inv(sys, ApplyEntry(sys, w, StartRun(l, saved, emitted)))
  {
    hide World.PrunedRows, World.ResolvedKey, System.Journal;
    var w' := ApplyEntry(sys, w, StartRun(l, saved, emitted));
    if w' != w {
      assert LegLog(sys, w.legs[l], l, w.log);
      hide Inv;
      if |w'.log| > |w.log| {
        var e := KeyResolved(l, false);
        assert w'.log == w.log + [e];
        assert forall x: Event :: x != e ==> (x in w'.log <==> x in w.log);
        assert e in w'.log;
        EventStep(sys, w, w', l, w'.legs[l], e);
      } else {
        assert w'.log == w.log;
        QuietStep(sys, w, w', l, w'.legs[l]);
      }
    }
  }

  lemma FailRunKeeps(sys: System, w: World, l: nat, ok: bool)
    requires Inv(sys, w)
    ensures Inv(sys, ApplyRecovery(sys, w, FailRun(l, ok)))
  {
    hide World.PrunedRows, World.ResolvedKey, Decided, ReplayVerdict, DurableReplayInput;
    var w' := ApplyRecovery(sys, w, FailRun(l, ok));
    if w' != w {
      assert LegLog(sys, w.legs[l], l, w.log);
      hide Inv;
      assert w'.log == w.log;
      QuietStep(sys, w, w', l, w'.legs[l]);
    }
  }

  lemma PruneRunKeeps(sys: System, w: World, l: nat, ok: bool)
    requires Inv(sys, w)
    ensures Inv(sys, ApplyRecovery(sys, w, PruneRun(l, ok)))
  {
    hide World.PrunedRows, World.ResolvedKey, Decided, ReplayVerdict, DurableReplayInput;
    var w' := ApplyRecovery(sys, w, PruneRun(l, ok));
    if w' != w {
      assert LegLog(sys, w.legs[l], l, w.log);
      hide Inv;
      if |w'.log| > |w.log| {
        var e := AbandonPruned(l);
        assert w'.log == w.log + [e];
        assert forall x: Event :: x != e ==> (x in w'.log <==> x in w.log);
        assert e in w'.log;
        EventStep(sys, w, w', l, w'.legs[l], e);
      } else {
        assert w'.log == w.log;
        QuietStep(sys, w, w', l, w'.legs[l]);
      }
    }
  }

  lemma BeatKeeps(sys: System, w: World, a: Action)
    requires Inv(sys, w) && (a.Beat? || a.Crash?)
    ensures Inv(sys, ApplyEnvironment(sys, w, a))
  {
    hide Inv;
    var w' := ApplyEnvironment(sys, w, a);
    if w' != w {
      if a.Beat? {
        SilentEvent(sys, w, w', a.l, w'.legs[a.l], w'.log[|w.log|]);
      } else {
        SilentStep(sys, w, w', a.l, w'.legs[a.l]);
      }
    }
  }

  lemma EnvironmentKeeps(sys: System, w: World, a: Action)
    requires Inv(sys, w)
    ensures Inv(sys, ApplyEnvironment(sys, w, a))
  {
    if a.Beat? || a.Crash? {
      hide Inv;
      BeatKeeps(sys, w, a);
    } else {
      var w' := ApplyEnvironment(sys, w, a);
      assert w'.legs == w.legs && w'.log == w.log;
    }
  }

  lemma AcquireKeeps(sys: System, w: World, a: Action)
    requires Inv(sys, w) && (a.AcquireLease? || a.Claim?)
    ensures Inv(sys, Apply(sys, w, a))
  {
    hide Inv, ApplyEnvironment, ApplyLoop, ApplyTerminal, ApplyFinish, Decided, ReplayVerdict, System.Journal, World.ResolvedKey;
    var w' := Apply(sys, w, a);
    if w' != w {
      if |w'.log| > |w.log| {
        SilentEvent(sys, w, w', a.l, w'.legs[a.l], w'.log[|w.log|]);
      } else {
        SilentStep(sys, w, w', a.l, w'.legs[a.l]);
      }
    }
  }

  lemma EnterKeeps(sys: System, w: World, a: Action)
    requires Inv(sys, w) && (a.GiveUp? || a.WriteJournal?)
    ensures Inv(sys, ApplyEntry(sys, w, a))
  {
    hide Inv, System.Journal;
    var w' := ApplyEntry(sys, w, a);
    if w' != w {
      SilentStep(sys, w, w', a.l, w'.legs[a.l]);
    }
  }

  lemma NewLegStep(sys: System, w: World, w': World, leg: Leg)
    requires Inv(sys, w)
    requires w'.legs == w.legs + [leg] && w'.log == w.log
    requires !leg.terminalDone && (leg.phase.Acquiring? || leg.phase.Scanned?)
    ensures Inv(sys, w')
  {
    assert forall x: Event :: x in w.log ==> x.leg < |w.legs|;
    assert LegLog(sys, leg, |w.legs|, w.log);
  }

  lemma ResumeKeeps(sys: System, w: World, l: nat)
    requires Inv(sys, w)
    ensures Inv(sys, ApplyEntry(sys, w, Resume(l)))
  {
    hide Inv;
    var w' := ApplyEntry(sys, w, Resume(l));
    if w' != w {
      var middle := w.(legs := w.legs[l := w.legs[l].(parked := false)]);
      SilentStep(sys, w, middle, l, middle.legs[l]);
      NewLegStep(sys, middle, w', w'.legs[|w.legs|]);
    }
  }

  lemma EntryKeeps(sys: System, w: World, a: Action)
    requires Inv(sys, w)
    ensures Inv(sys, ApplyEntry(sys, w, a))
  {
    hide Inv;
    match a {
      case AcquireLease(_, _) => AcquireKeeps(sys, w, a);
      case Resume(l) => ResumeKeeps(sys, w, l);
      case StartRun(l, saved, emitted) => StartKeeps(sys, w, l, saved, emitted);
      case GiveUp(_) => EnterKeeps(sys, w, a);
      case WriteJournal(_, _) => EnterKeeps(sys, w, a);
      case _ =>
    }
  }

  lemma AbandonedStep(sys: System, w: World, w': World, l: nat, leg: Leg)
    requires Inv(sys, w) && l < |w.legs| && w.legs[l].phase.Deciding?
    requires w'.legs == w.legs[l := leg] && w'.log == w.log + [Abandoned(l)] && leg == w.legs[l].(phase := FailingRun(true))
    ensures Inv(sys, w')
  {
    var e := Abandoned(l);
    assert LegLog(sys, w.legs[l], l, w.log);
    assert forall x: Event :: x != e ==> (x in w'.log <==> x in w.log);
    assert e in w'.log;
    EventStep(sys, w, w', l, leg, e);
  }

  lemma RefusedStep(sys: System, w: World, w': World, l: nat, leg: Leg, events: seq<Event>)
    requires Inv(sys, w) && l < |w.legs| && w.legs[l].phase.Deciding? && |events| <= 1
    requires events != [] ==> events[0].leg == l && Silent(events[0])
    requires w'.legs == w.legs[l := leg] && w'.log == w.log + events && leg == w.legs[l].(phase := FailingRun(false))
    ensures Inv(sys, w')
  {
    assert LegLog(sys, w.legs[l], l, w.log);
    if events != [] {
      var e := events[0];
      assert w'.log == w.log + [e];
      assert forall x: Event :: x != e ==> (x in w'.log <==> x in w.log);
      EventStep(sys, w, w', l, leg, e);
    } else {
      assert w'.log == w.log;
    }
  }

  lemma DecidedKeeps(sys: System, w: World, l: nat, resumeIndex: nat, verdict: Verdict)
    requires Inv(sys, w) && w.At(l, Deciding) && w.legs[l].kind.Recovered?
    ensures Inv(sys, Decided(w, l, resumeIndex, verdict))
  {
    hide Inv;
    var w' := Decided(w, l, resumeIndex, verdict);
    match verdict {
      case ReplayUnsafe => RefusedStep(sys, w, w', l, w'.legs[l], [ReplayRefused(l, resumeIndex)]);
      case Indeterminate => RefusedStep(sys, w, w', l, w'.legs[l], []);
      case Replay(_, point) => SilentEvent(sys, w, w', l, w'.legs[l], ReplayStarted(l, point.resumeIndex, point.input));
      case _ => AbandonedStep(sys, w, w', l, w'.legs[l]);
    }
  }

  lemma DecideKeeps(sys: System, w: World, a: Action)
    requires Inv(sys, w) && a.Decide?
    ensures Inv(sys, ApplyRecovery(sys, w, a))
  {
    hide Inv, Decided, ReplayVerdict, DurableReplayInput, ListsIntents, ListsCheckpoints, DeploymentGoSized;
    var w' := ApplyRecovery(sys, w, a);
    if w' != w {
      var leg := w.legs[a.l];
      if !a.ok || w.waiting != {} {
        SilentStep(sys, w, w', a.l, w'.legs[a.l]);
      } else {
        DecidedKeeps(sys, w, a.l, DurableReplayInput(leg.snapshot.value, a.checkpoints).resumeIndex,
                     ReplayVerdict(sys.id, a.deployment, leg.snapshot.value, a.checkpoints, a.intents, leg.kind.forced));
      }
    }
  }

  lemma ScanKeeps(sys: System, w: World, a: Action)
    requires Inv(sys, w) && a.Scan?
    ensures Inv(sys, ApplyRecovery(sys, w, a))
  {
    hide Inv, DurableReplayInput;
    var w' := ApplyRecovery(sys, w, a);
    if w' != w {
      NewLegStep(sys, w, w', w'.legs[|w.legs|]);
    }
  }

  lemma RecoveryKeeps(sys: System, w: World, a: Action)
    requires Inv(sys, w)
    ensures Inv(sys, ApplyRecovery(sys, w, a))
  {
    hide Inv;
    match a {
      case Scan(_, _) => ScanKeeps(sys, w, a);
      case Claim(_) => AcquireKeeps(sys, w, a);
      case Decide(_, _, _, _, _) => DecideKeeps(sys, w, a);
      case FailRun(l, ok) => FailRunKeeps(sys, w, l, ok);
      case PruneRun(l, ok) => PruneRunKeeps(sys, w, l, ok);
      case _ =>
    }
  }

  lemma CallKeeps(sys: System, w: World, a: Action)
    requires Inv(sys, w) && (a.BeginCall? || a.EndCall? || a.BeginStep?)
    ensures Inv(sys, ApplyLoop(sys, w, a))
  {
    var w' := ApplyLoop(sys, w, a);
    if w' != w {
      if a.EndCall? {
        assert w'.legs == w.legs && w'.log == w.log;
      } else {
        hide Inv;
        SilentEvent(sys, w, w', a.l, w'.legs[a.l], w'.log[|w.log|]);
      }
    }
  }

  lemma StepKeeps(sys: System, w: World, a: Action)
    requires Inv(sys, w) && (a.Gate? || a.Suspend? || a.EndStep? || a.FailStep? || a.EndLoop?)
    ensures Inv(sys, ApplyLoop(sys, w, a))
  {
    hide Inv, Advanced, System.Checkpoint;
    var w' := ApplyLoop(sys, w, a);
    if w' != w {
      SilentStep(sys, w, w', a.l, w'.legs[a.l]);
    }
  }

  lemma LoopKeeps(sys: System, w: World, a: Action)
    requires Inv(sys, w)
    ensures Inv(sys, ApplyLoop(sys, w, a))
  {
    hide Inv;
    match a {
      case BeginCall(_, _, _) => CallKeeps(sys, w, a);
      case EndCall(_, _) => CallKeeps(sys, w, a);
      case BeginStep(_) => CallKeeps(sys, w, a);
      case Gate(_) => StepKeeps(sys, w, a);
      case Suspend(_) => StepKeeps(sys, w, a);
      case EndStep(_) => StepKeeps(sys, w, a);
      case FailStep(_) => StepKeeps(sys, w, a);
      case EndLoop(_) => StepKeeps(sys, w, a);
      case _ =>
    }
  }

  lemma TerminalKeeps(sys: System, w: World, a: Action)
    requires Inv(sys, w)
    ensures Inv(sys, ApplyTerminal(sys, w, a))
  {
    hide Inv;
    match a {
      case Confirm(l, answer) => ConfirmKeeps(sys, w, l, answer);
      case Prove(l, answer) => ProveKeeps(sys, w, l, answer);
      case StopRenewer(l) => StopKeeps(sys, w, l);
      case BeginTerminal(l) => BeginTerminalKeeps(sys, w, l);
      case EndTerminal(l, ok, definite) => EndTerminalKeeps(sys, w, l, ok, definite);
      case Settle(l, ok) => SettleKeeps(sys, w, l, ok);
      case _ =>
    }
  }

  lemma FinishKeeps(sys: System, w: World, a: Action)
    requires Inv(sys, w)
    ensures Inv(sys, ApplyFinish(sys, w, a))
  {
    hide Inv;
    match a {
      case ResolveKey(l, ok) => ResolveKeyKeeps(sys, w, l, ok);
      case Emit(l, ok) => EmitKeeps(sys, w, l, ok);
      case Save(l, ok) => SaveKeeps(sys, w, l, ok);
      case PruneJournal(l, ok) => PruneJournalKeeps(sys, w, l, ok);
      case ReleaseLease(l, reachable) => ReleaseKeeps(sys, w, l, reachable);
      case _ =>
    }
  }

  lemma ApplyKeeps(sys: System, w: World, a: Action)
    requires Inv(sys, w)
    ensures Inv(sys, Apply(sys, w, a))
  {
    hide Inv, ApplyEnvironment, ApplyEntry, ApplyRecovery, ApplyLoop, ApplyTerminal, ApplyFinish;
    EnvironmentKeeps(sys, w, a);
    EntryKeeps(sys, w, a);
    RecoveryKeeps(sys, w, a);
    LoopKeeps(sys, w, a);
    TerminalKeeps(sys, w, a);
    FinishKeeps(sys, w, a);
  }

  lemma {:induction false} ExecKeeps(sys: System, w: World, acts: seq<Action>)
    requires Inv(sys, w)
    ensures Inv(sys, Exec(sys, w, acts))
    decreases |acts|
  {
    hide Apply;
    if acts != [] {
      ExecKeeps(sys, w, acts[..|acts| - 1]);
      ApplyKeeps(sys, Exec(sys, w, acts[..|acts| - 1]), acts[|acts| - 1]);
    }
  }

  // ---------- the theorems ----------

  lemma RunHolds(sys: System, holder: string, reserved: bool, now: int, acts: seq<Action>)
    ensures Inv(sys, Exec(sys, Init(sys, holder, reserved, now), acts))
  {
    hide Apply;
    ExecKeeps(sys, Init(sys, holder, reserved, now), acts);
  }

  /**
   In every run: a leg resolves its trigger key as succeeded only once its terminal has
   returned success, and never as failed afterwards; the same holds of Completed.
   */
  lemma OutcomesAreEvidenced(sys: System, holder: string, reserved: bool, now: int, trace: seq<World>, acts: seq<Action>, q: nat)
    requires IsRun(sys, Init(sys, holder, reserved, now), trace, acts)
    requires q < |trace[|acts|].log|
    ensures var log := trace[|acts|].log;
            match log[q]
            case KeyResolved(l, success) => if success then Delivered(sys, log[..q], l) else TerminalDone(l) !in log[..q]
            case Saved(l, completed) => completed ==> Delivered(sys, log[..q], l)
            case _ => true
  {
    RunEnds(sys, Init(sys, holder, reserved, now), trace, acts);
    hide Exec, Init, LegLog;
    RunHolds(sys, holder, reserved, now, acts);
    assert Justified(sys, Exec(sys, Init(sys, holder, reserved, now), acts).log[..q],
                     Exec(sys, Init(sys, holder, reserved, now), acts).log[q]);
  }

  /** What a leg must have behind it when the run's journal goes. */
  ghost predicate PruneEvidence(sys: System, log: seq<Event>, l: nat) {
    || (Saved(l, true) in log && Emitted(l) in log && KeyResolved(l, true) in log && Delivered(sys, log, l))
    || Abandoned(l) in log
  }

  /** The journal stays, unless an action of a leg that has come to its prune takes it. */
  predicate JournalGoes(w: World, w': World, a: Action) {
    w.rows.journal.Some? && w'.rows.journal.None? && !a.Sweep? ==>
      && (a.PruneJournal? || a.PruneRun?) && a.l < |w.legs| && w.PrunedRows() == NO_ROWS
      && (a.PruneJournal? ==> w.legs[a.l].phase == Pruning(true))
      && (a.PruneRun? ==> w.legs[a.l].phase == PruningRun)
  }

  lemma JournalEnvironment(sys: System, w: World, a: Action)
    ensures JournalGoes(w, ApplyEnvironment(sys, w, a), a)
  {
  }

  lemma JournalEntry(sys: System, w: World, a: Action)
    ensures JournalGoes(w, ApplyEntry(sys, w, a), a)
  {
    hide System.Journal, World.ResolvedKey;
  }

  lemma JournalRecovery(sys: System, w: World, a: Action)
    ensures JournalGoes(w, ApplyRecovery(sys, w, a), a)
  {
    hide Decided, ReplayVerdict, DurableReplayInput, ListsCheckpoints, ListsIntents, DeploymentGoSized;
    if a.Decide? {
      DecidedKeepsRows(sys, w, a);
    }
  }

  lemma JournalLoop(sys: System, w: World, a: Action)
    ensures JournalGoes(w, ApplyLoop(sys, w, a), a)
  {
    hide System.Checkpoint, Advanced;
  }

  lemma JournalTerminal(sys: System, w: World, a: Action)
    ensures JournalGoes(w, ApplyTerminal(sys, w, a), a)
  {
    hide TerminalTool, World.ResolvedKey;
  }

  lemma JournalFinish(sys: System, w: World, a: Action)
    ensures JournalGoes(w, ApplyFinish(sys, w, a), a)
  {
    hide World.ResolvedKey;
  }

  lemma OnlyPrunesLoseTheJournal(sys: System, w: World, a: Action)
    ensures JournalGoes(w, Apply(sys, w, a), a)
  {
    hide JournalGoes, ApplyEnvironment, ApplyEntry, ApplyRecovery, ApplyLoop, ApplyTerminal, ApplyFinish;
    JournalEnvironment(sys, w, a);
    JournalEntry(sys, w, a);
    JournalRecovery(sys, w, a);
    JournalLoop(sys, w, a);
    JournalTerminal(sys, w, a);
    JournalFinish(sys, w, a);
  }

  lemma DecidedKeepsRows(sys: System, w: World, a: Action)
    requires a.Decide?
    ensures ApplyRecovery(sys, w, a).rows == w.rows
  {
    hide ReplayVerdict, DurableReplayInput, ListsIntents, ListsCheckpoints, DeploymentGoSized;
  }

  /**
   Retention apart, an execution loses its journal only when it is Completed or Failed
   with no approval waiting, and then one leg completed it, with its events emitted and
   its trigger key resolved as succeeded after a successful terminal, or abandoned it.
   */
  lemma PruneNeedsEvidence(sys: System, holder: string, reserved: bool, now: int, trace: seq<World>, acts: seq<Action>, a: Action)
    requires IsRun(sys, Init(sys, holder, reserved, now), trace, acts)
    requires var w := trace[|acts|];
             w.rows.journal.Some? && Apply(sys, w, a).rows.journal.None? && !a.Sweep?
    ensures var w := trace[|acts|];
            && (w.status == Completed || w.status == Failed) && w.waiting == {}
            && (a.PruneJournal? || a.PruneRun?) && PruneEvidence(sys, w.log, a.l)
  {
    RunEnds(sys, Init(sys, holder, reserved, now), trace, acts);
    hide Exec, Init, Apply;
    RunHolds(sys, holder, reserved, now, acts);
    hide Inv, PruneEvidence;
    PruneAt(sys, trace[|acts|], a);
  }

  lemma PruneAt(sys: System, w: World, a: Action)
    requires Inv(sys, w) && w.rows.journal.Some? && Apply(sys, w, a).rows.journal.None? && !a.Sweep?
    ensures (w.status == Completed || w.status == Failed) && w.waiting == {}
    ensures (a.PruneJournal? || a.PruneRun?) && PruneEvidence(sys, w.log, a.l)
  {
    hide Apply;
    OnlyPrunesLoseTheJournal(sys, w, a);
    assert LegLog(sys, w.legs[a.l], a.l, w.log);
    hide Inv;
  }

  /** The retention sweep takes the tables of completed and failed executions, unless an approval of theirs is pending. */
  lemma SweepIsExact(sys: System, w: World)
    ensures var w' := Apply(sys, w, Sweep);
            && w' == w.(rows := w'.rows)
            && w'.rows == if w.rows.journal.Some? && w.waiting == {} && (w.status == Completed || w.status == Failed) then NO_ROWS else w.rows
  {
  }

  // ---------- the trigger key ----------

  predicate KeySucceeded(w: World) {
    w.key == Some(TriggerKey(true, Succeeded))
  }

  ghost predicate KeyInv(sys: System, w: World) {
    KeySucceeded(w) ==> exists l: nat :: KeyResolved(l, true) in w.log
  }

  /** The step logs that the key of this execution is resolved. */
  predicate Resolves(w: World, w': World, success: bool) {
    |w'.log| == |w.log| + 1 && w'.log[|w.log|].KeyResolved? && w'.log[|w.log|].success == success
  }

  /**
   First write wins: only a pending key of this execution is resolved, as the log says; a
   failed one is reopened by another execution, and nothing else moves a key.
   */
  predicate KeyGoes(w: World, w': World, a: Action) {
    && w.log <= w'.log
    && w'.key ==
         if w.key == Some(TriggerKey(true, Pending)) then
           Some(TriggerKey(true, if Resolves(w, w', true) then Succeeded else if Resolves(w, w', false) then FailedOutcome else Pending))
         else if w.key.Some? && w.key.value.outcome == FailedOutcome && a == OtherReserves then Some(TriggerKey(false, Pending))
         else w.key
  }

  lemma KeyEnvironment(sys: System, w: World, a: Action)
    ensures KeyGoes(w, ApplyEnvironment(sys, w, a), a)
  {
    hide World.PrunedRows;
  }

  lemma KeyEntry(sys: System, w: World, a: Action)
    requires a != OtherReserves
    ensures KeyGoes(w, ApplyEntry(sys, w, a), a)
  {
    hide System.Journal;
  }

  lemma KeyRecovery(sys: System, w: World, a: Action)
    requires a != OtherReserves
    ensures KeyGoes(w, ApplyRecovery(sys, w, a), a)
  {
    hide World.PrunedRows, ListsCheckpoints, ListsIntents, DeploymentGoSized, ReplayVerdict, DurableReplayInput;
  }

  lemma KeyLoop(sys: System, w: World, a: Action)
    requires a != OtherReserves
    ensures KeyGoes(w, ApplyLoop(sys, w, a), a)
  {
    hide System.Checkpoint, Advanced;
  }

  lemma KeyTerminal(sys: System, w: World, a: Action)
    requires a != OtherReserves
    ensures KeyGoes(w, ApplyTerminal(sys, w, a), a)
  {
    hide TerminalTool;
  }

  lemma KeyFinish(sys: System, w: World, a: Action)
    requires a != OtherReserves
    ensures KeyGoes(w, ApplyFinish(sys, w, a), a)
  {
    hide World.PrunedRows;
  }

  lemma KeyStep(sys: System, w: World, a: Action)
    ensures KeyGoes(w, Apply(sys, w, a), a)
  {
    hide KeyGoes, ApplyEnvironment, ApplyEntry, ApplyRecovery, ApplyLoop, ApplyTerminal, ApplyFinish;
    KeyEnvironment(sys, w, a);
    if a != OtherReserves {
      KeyEntry(sys, w, a);
      KeyRecovery(sys, w, a);
      KeyLoop(sys, w, a);
      KeyTerminal(sys, w, a);
      KeyFinish(sys, w, a);
    }
  }

  lemma {:induction false} SucceededKeyStays(sys: System, w: World, acts: seq<Action>)
    requires KeySucceeded(w)
    ensures KeySucceeded(Exec(sys, w, acts))
    decreases |acts|
  {
    hide Apply;
    if acts != [] {
      SucceededKeyStays(sys, w, acts[..|acts| - 1]);
      KeyStep(sys, Exec(sys, w, acts[..|acts| - 1]), acts[|acts| - 1]);
    }
  }

  lemma {:induction false} KeyHolds(sys: System, w: World, acts: seq<Action>)
    requires KeyInv(sys, w)
    ensures KeyInv(sys, Exec(sys, w, acts))
    decreases |acts|
  {
    hide Apply;
    if acts != [] {
      KeyHolds(sys, w, acts[..|acts| - 1]);
      var before := Exec(sys, w, acts[..|acts| - 1]);
      KeyStep(sys, before, acts[|acts| - 1]);
      var after := Exec(sys, w, acts);
      if KeySucceeded(after) && !KeySucceeded(before) {
        assert after.log[|before.log|] == KeyResolved(after.log[|before.log|].leg, true);
      } else if KeySucceeded(before) {
        var l: nat :| KeyResolved(l, true) in before.log;
        assert KeyResolved(l, true) in after.log;
      }
    }
  }

  /** A key that this execution succeeded belongs to a terminal that succeeded, and stays so for good. */
  lemma SucceededKeyIsDelivered(sys: System, holder: string, reserved: bool, now: int, trace: seq<World>, acts: seq<Action>,
                                later: seq<Action>)
    returns (l: nat)
    requires IsRun(sys, Init(sys, holder, reserved, now), trace, acts) && KeySucceeded(trace[|acts|])
    ensures Delivered(sys, trace[|acts|].log, l)
    ensures KeySucceeded(Exec(sys, trace[|acts|], later))
  {
    hide Apply;
    var w0 := Init(sys, holder, reserved, now);
    RunEnds(sys, w0, trace, acts);
    KeyHolds(sys, w0, acts);
    RunHolds(sys, holder, reserved, now, acts);
    SucceededKeyStays(sys, trace[|acts|], later);
    hide Exec, Init, LegLog;
    l := SucceededLeg(sys, trace[|acts|]);
  }

  lemma SucceededLeg(sys: System, w: World) returns (l: nat)
    requires Inv(sys, w) && KeyInv(sys, w) && KeySucceeded(w)
    ensures Delivered(sys, w.log, l)
  {
    l :| KeyResolved(l, true) in w.log;
    var q :| 0 <= q < |w.log| && w.log[q] == KeyResolved(l, true);
    hide LegLog;
    assert Justified(sys, w.log[..q], w.log[q]);
  }
}
