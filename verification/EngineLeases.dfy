/**
 Lease discipline of every leg of an execution, live, resumed or recovered: who may
 own the lease when, and what a leg must have proved before it writes Completed.
 Every lease event of a run is justified by the events before it.
 */
module EngineLeases {
  import opened Wrappers
  import opened Recovery
  import opened Leases
  import opened Engine

  predicate Fenced(e: Event) {
    e.Acquired? || e.Renewed? || e.Proved?
  }

  predicate FencesAtMost(log: seq<Event>, fence: nat) {
    forall i | 0 <= i < |log| && Fenced(log[i]) :: log[i].fence <= fence
  }

  predicate FencesBelow(log: seq<Event>, fence: nat) {
    forall i | 0 <= i < |log| && Fenced(log[i]) :: log[i].fence < fence
  }

  /** The renewer was not stopped and nothing was released. */
  predicate MayRenew(log: seq<Event>, l: nat) {
    RenewerStopped(l) !in log && Released(l) !in log
  }

  /** What the events before it owe to a lease event. */
  ghost predicate Justified(log: seq<Event>, e: Event) {
    match e
    case Acquired(l, fence) => FencesBelow(log, fence) && forall f :: Acquired(l, f) !in log
    case Renewed(l, fence) => Acquired(l, fence) in log && FencesAtMost(log, fence) && MayRenew(log, l)
    case RenewerStopped(l) => MayRenew(log, l)
    case Proved(l, fence) =>
      && Acquired(l, fence) in log && FencesAtMost(log, fence)
      && RenewerStopped(l) in log && LeaseLost(l) !in log && Released(l) !in log
    case Saved(l, completed) =>
      completed ==> LeaseLost(l) !in log && Released(l) !in log && exists f :: Proved(l, f) in log
    case LeaseLost(l) => Released(l) !in log && forall f :: Proved(l, f) !in log
    case Released(l) => Released(l) !in log
    case _ => true
  }

  ghost predicate History(log: seq<Event>) {
    forall q | 0 <= q < |log| :: Justified(log[..q], log[q])
  }

  // ---------- the invariant ----------

  predicate BeforeLease(phase: Phase) {
    phase.Starting? || phase.Acquiring? || phase.Scanned?
  }

  predicate AfterStop(phase: Phase) {
    || phase.Proving? || phase.Resolving? || phase.Emitting? || phase.Saving? || phase.Pruning?
    || phase.Releasing? || phase.Ended?
  }

  /** On the way to Completed. */
  predicate Completing(phase: Phase) {
    || (phase.Resolving? && phase.completed)
    || (phase.Emitting? && phase.completed)
    || (phase.Saving? && phase.completed)
  }

  ghost predicate LegLog(leg: Leg, l: nat, log: seq<Event>) {
    && (forall f :: Acquired(l, f) in log <==> leg.fence == f > 0)
    && (leg.lost <==> LeaseLost(l) in log)
    && (Released(l) in log ==> leg.phase == Ended && !leg.renewing)
    && (RenewerStopped(l) in log ==> !leg.renewing && AfterStop(leg.phase))
    && (leg.phase == Proving ==> RenewerStopped(l) in log && Proved(l, leg.fence) !in log)
    && (Completing(leg.phase) ==> Proved(l, leg.fence) in log && !leg.lost)
    && (BeforeLease(leg.phase) ==> leg.fence == 0 && !leg.renewing && !leg.lost)
    && (forall f :: Proved(l, f) in log ==> f == leg.fence && RenewerStopped(l) in log)
  }

  ghost predicate Inv(w: World) {
    && (w.lease.Some? ==> w.lease.value.fence > 0)
    && FencesAtMost(w.log, Fence(w.lease))
    && (forall l | 0 <= l < |w.legs| :: LegLog(w.legs[l], l, w.log) && w.legs[l].fence <= Fence(w.lease))
    && (forall l, m | 0 <= l < m < |w.legs| && w.legs[l].fence > 0 :: w.legs[l].fence != w.legs[m].fence)
    && (forall q | 0 <= q < |w.log| :: w.log[q].leg < |w.legs|)
    && History(w.log)
  }

  // ---------- steps of one leg ----------

  lemma HistoryGrows(log: seq<Event>, e: Event)
    requires History(log) && Justified(log, e)
    ensures History(log + [e])
  {
    forall q | 0 <= q < |log + [e]|
      ensures Justified((log + [e])[..q], (log + [e])[q])
    {
      assert (log + [e])[..q] == log[..q];
      assert log[..|log|] == log;
    }
  }

  lemma OtherLeg(log: seq<Event>, e: Event, leg: Leg, m: nat)
    requires LegLog(leg, m, log) && e.leg != m
    ensures LegLog(leg, m, log + [e])
  {
    assert forall x: Event :: x.leg == m ==> (x in log + [e] <==> x in log);
  }

  /** One event of one leg. */
  lemma EventStep(w: World, w': World, l: nat, leg: Leg, e: Event)
    requires Inv(w) && l < |w.legs|
    requires w'.legs == w.legs[l := leg] && w'.log == w.log + [e] && e.leg == l
    requires w'.lease.Some? ==> w'.lease.value.fence > 0
    requires Fence(w'.lease) >= Fence(w.lease) && (Fenced(e) ==> e.fence <= Fence(w'.lease))
    requires leg.fence == w.legs[l].fence || Fence(w.lease) < leg.fence == Fence(w'.lease)
    requires Justified(w.log, e) && LegLog(leg, l, w'.log)
    ensures Inv(w')
  {
    hide LegLog, Justified;
    HistoryGrows(w.log, e);
    hide History;
    forall m | 0 <= m < |w.legs| && m != l
      ensures LegLog(w'.legs[m], m, w'.log)
    {
      OtherLeg(w.log, e, w.legs[m], m);
    }
  }

  /** Nothing but the phase of one leg changes, and to one that claims no more. */
  predicate Quiet(leg: Leg, leg': Leg) {
    && leg'.fence == leg.fence && leg'.lost == leg.lost && leg'.renewing == leg.renewing
    && (leg.phase == Ended ==> leg'.phase == Ended)
    && (AfterStop(leg.phase) ==> AfterStop(leg'.phase))
    && (leg'.phase == Proving ==> leg.phase == Proving)
    && (Completing(leg'.phase) ==> Completing(leg.phase))
    && (BeforeLease(leg'.phase) ==> BeforeLease(leg.phase))
  }

  predicate Silent(e: Event) {
    !Fenced(e) && !e.LeaseLost? && !e.RenewerStopped? && !e.Released? && (e.Saved? ==> !e.completed)
  }

  lemma QuietEvent(w: World, w': World, l: nat, leg: Leg, e: Event)
    requires Inv(w) && l < |w.legs|
    requires w'.legs == w.legs[l := leg] && w'.log == w.log + [e] && e.leg == l && w'.lease == w.lease
    requires Quiet(w.legs[l], leg) && Silent(e)
    ensures Inv(w')
  {
    assert LegLog(w.legs[l], l, w.log);
    assert forall x: Event :: x != e ==> (x in w'.log <==> x in w.log);
    assert LegLog(leg, l, w'.log);
    EventStep(w, w', l, leg, e);
  }

  lemma QuietStep(w: World, w': World, l: nat, leg: Leg)
    requires Inv(w) && l < |w.legs|
    requires w'.legs == w.legs[l := leg] && w'.log == w.log && w'.lease == w.lease
    requires Quiet(w.legs[l], leg)
    ensures Inv(w')
  {
    assert LegLog(w.legs[l], l, w.log);
  }

  /** A new leg has no history. */
  lemma NewLegStep(w: World, w': World, leg: Leg)
    requires Inv(w)
    requires w'.legs == w.legs + [leg] && w'.log == w.log && w'.lease == w.lease
    requires leg.fence == 0 && !leg.lost && !leg.renewing && BeforeLease(leg.phase)
    ensures Inv(w')
  {
    var n := |w.legs|;
    assert forall x: Event :: x in w.log ==> x.leg < n;
    assert LegLog(leg, n, w.log);
  }

  lemma AcquireStep(sys: System, w: World, w': World, l: nat, leg: Leg)
    requires Inv(w) && l < |w.legs| && BeforeLease(w.legs[l].phase) && Acquirable(w.lease, w.now)
    requires var lease := AcquiredLease(w.lease, w.legs[l].holder, sys.ttl, w.now);
             && w'.lease == Some(lease) && w'.legs == w.legs[l := leg] && w'.log == w.log + [Acquired(l, lease.fence)]
             && leg.fence == lease.fence && !leg.lost
    requires !AfterStop(leg.phase) && !BeforeLease(leg.phase)
    ensures Inv(w')
  {
    var e := Acquired(l, Fence(w'.lease));
    assert LegLog(w.legs[l], l, w.log);
    assert forall x: Event :: x != e ==> (x in w'.log <==> x in w.log);
    assert e in w'.log;
    assert LegLog(leg, l, w'.log);
    assert Justified(w.log, e);
    EventStep(w, w', l, leg, e);
  }

  // ---------- every action keeps the invariant ----------

  lemma RenewStep(sys: System, w: World, w': World, l: nat, leg: Leg, e: Event)
    requires Inv(w) && l < |w.legs| && Holds(w.lease, leg.holder, leg.fence)
    requires w'.lease == RenewedRow(w.lease, leg.holder, leg.fence, sys.ttl, w.now)
    requires w'.legs == w.legs[l := leg] && w'.log == w.log + [e] && leg == w.legs[l].(phase := leg.phase)
    requires e == Renewed(l, leg.fence)
    requires (w.legs[l].renewing && leg == w.legs[l])
             || (!AfterStop(w.legs[l].phase) && !AfterStop(leg.phase) && !BeforeLease(leg.phase))
    ensures Inv(w')
  {
    assert LegLog(w.legs[l], l, w.log);
    assert forall x: Event :: x != e ==> (x in w'.log <==> x in w.log);
    assert e in w'.log;
    assert LegLog(leg, l, w'.log);
    assert Justified(w.log, e);
    EventStep(w, w', l, leg, e);
  }

  lemma ProveStep(sys: System, w: World, w': World, l: nat, leg: Leg, e: Event)
    requires Inv(w) && l < |w.legs| && Holds(w.lease, leg.holder, leg.fence)
    requires w'.lease == RenewedRow(w.lease, leg.holder, leg.fence, sys.ttl, w.now)
    requires w'.legs == w.legs[l := leg] && w'.log == w.log + [e] && leg == w.legs[l].(phase := leg.phase)
    requires e == Proved(l, leg.fence) && !leg.lost && w.legs[l].phase == Proving && leg.phase == Resolving(true, true)
    ensures Inv(w')
  {
    assert LegLog(w.legs[l], l, w.log);
    assert forall x: Event :: x != e ==> (x in w'.log <==> x in w.log);
    assert e in w'.log;
    assert LegLog(leg, l, w'.log);
    assert Justified(w.log, e);
    EventStep(w, w', l, leg, e);
  }

  predicate Loses(leg: Leg, leg': Leg) {
    && leg'.fence == leg.fence && leg'.lost && (leg'.renewing ==> leg.renewing)
    && (|| (leg.renewing && leg'.phase == leg.phase && leg'.phase != Proving && !BeforeLease(leg'.phase))
        || ((leg.phase.Confirming? || leg.phase.Proving?) && leg'.phase.Resolving? && !leg'.phase.completed))
  }

  lemma LostLeg(leg: Leg, leg': Leg, l: nat, log: seq<Event>)
    requires LegLog(leg, l, log) && Loses(leg, leg')
    ensures LegLog(leg', l, log + [LeaseLost(l)]) && Justified(log, LeaseLost(l))
  {
    var e, log' := LeaseLost(l), log + [LeaseLost(l)];
    assert forall x: Event :: x != e ==> (x in log' <==> x in log);
    assert e in log';
  }

  lemma LoseStep(w: World, w': World, l: nat, leg: Leg)
    requires Inv(w) && l < |w.legs| && Loses(w.legs[l], leg)
    requires w'.lease == w.lease && w'.legs == w.legs[l := leg] && w'.log == w.log + [LeaseLost(l)]
    ensures Inv(w')
  {
    assert LegLog(w.legs[l], l, w.log);
    LostLeg(w.legs[l], leg, l, w.log);
    hide LegLog, Justified;
    EventStep(w, w', l, leg, LeaseLost(l));
  }

  lemma BeatKeeps(sys: System, w: World, l: nat, answer: Answer)
    requires Inv(w)
    ensures Inv(ApplyEnvironment(sys, w, Beat(l, answer)))
  {
    var w' := ApplyEnvironment(sys, w, Beat(l, answer));
    if l < |w.legs| && w.legs[l].alive && w.legs[l].renewing {
      assert LegLog(w.legs[l], l, w.log);
      hide Inv;
      if answer == Answered && Holds(w.lease, w.legs[l].holder, w.legs[l].fence) {
        RenewStep(sys, w, w', l, w.legs[l], Renewed(l, w.legs[l].fence));
      } else {
        LoseStep(w, w', l, w'.legs[l]);
      }
    }
  }

  lemma AcquireKeeps(sys: System, w: World, l: nat, reachable: bool)
    requires Inv(w)
    ensures Inv(ApplyEntry(sys, w, AcquireLease(l, reachable)))
  {
    var w' := ApplyEntry(sys, w, AcquireLease(l, reachable));
    if w' != w {
      assert LegLog(w.legs[l], l, w.log);
      hide Inv, LegLog;
      if reachable && Acquirable(w.lease, w.now) {
        AcquireStep(sys, w, w', l, w'.legs[l]);
      } else {
        QuietStep(w, w', l, w'.legs[l]);
      }
    }
  }

  lemma ClaimKeeps(sys: System, w: World, l: nat)
    requires Inv(w)
    ensures Inv(ApplyRecovery(sys, w, Claim(l)))
  {
    var w' := ApplyRecovery(sys, w, Claim(l));
    if w' != w {
      assert LegLog(w.legs[l], l, w.log);
      hide Inv, LegLog;
      if Acquirable(w.lease, w.now) {
        AcquireStep(sys, w, w', l, w'.legs[l]);
      } else {
        QuietStep(w, w', l, w'.legs[l]);
      }
    }
  }

  lemma ConfirmKeeps(sys: System, w: World, a: Action)
    requires Inv(w) && (a.Confirm? || a.Prove?)
    ensures Inv(ApplyTerminal(sys, w, a))
  {
    hide Inv;
    var w' := ApplyTerminal(sys, w, a);
    if w' != w {
      var leg := w.legs[a.l];
      if Owns(w, leg, a.answer) {
        if a.Prove? {
          ProveStep(sys, w, w', a.l, w'.legs[a.l], Proved(a.l, leg.fence));
        } else {
          RenewStep(sys, w, w', a.l, w'.legs[a.l], Renewed(a.l, leg.fence));
        }
      } else if a.answer == TimedOut {
        QuietStep(w, w', a.l, w'.legs[a.l]);
      } else {
        LoseStep(w, w', a.l, w'.legs[a.l]);
      }
    }
  }

  lemma StopStep(w: World, w': World, l: nat, leg: Leg, e: Event)
    requires Inv(w) && l < |w.legs|
    requires w'.legs == w.legs[l := leg] && w'.log == w.log + [e] && Fence(w'.lease) == Fence(w.lease)
    requires w'.lease.Some? ==> w'.lease.value.fence > 0
    requires e == RenewerStopped(l) && w.legs[l].phase == Stopping && leg == w.legs[l].(renewing := false, phase := Proving)
    ensures Inv(w')
  {
    assert LegLog(w.legs[l], l, w.log);
    assert forall x: Event :: x != e ==> (x in w'.log <==> x in w.log);
    assert e in w'.log;
    assert LegLog(leg, l, w'.log);
    assert Justified(w.log, e);
    EventStep(w, w', l, leg, e);
  }

  lemma ReleaseStep(w: World, w': World, l: nat, leg: Leg, e: Event)
    requires Inv(w) && l < |w.legs|
    requires w'.legs == w.legs[l := leg] && w'.log == w.log + [e] && Fence(w'.lease) == Fence(w.lease)
    requires w'.lease.Some? ==> w'.lease.value.fence > 0
    requires e == Released(l) && w.legs[l].phase == Releasing && leg == w.legs[l].(renewing := false, phase := Ended)
    ensures Inv(w')
  {
    assert LegLog(w.legs[l], l, w.log);
    assert forall x: Event :: x != e ==> (x in w'.log <==> x in w.log);
    assert e in w'.log;
    assert LegLog(leg, l, w'.log);
    assert Justified(w.log, e);
    EventStep(w, w', l, leg, e);
  }

  lemma CompleteStep(w: World, w': World, l: nat, leg: Leg, e: Event)
    requires Inv(w) && l < |w.legs|
    requires w'.legs == w.legs[l := leg] && w'.log == w.log + [e] && w'.lease == w.lease
    requires e == Saved(l, true) && w.legs[l].phase.Saving? && w.legs[l].phase.completed
    requires leg == w.legs[l].(phase := leg.phase) && (leg.phase.Pruning? || leg.phase.Releasing?)
    ensures Inv(w')
  {
    LegOfInv(w, l);
    hide Inv;
    assert forall x: Event :: x != e ==> (x in w'.log <==> x in w.log);
    CompletedLeg(w.legs[l], leg, l, w.log, e);
    hide LegLog, Justified;
    EventStep(w, w', l, leg, e);
  }

  lemma LegOfInv(w: World, l: nat)
    requires Inv(w) && l < |w.legs|
    ensures LegLog(w.legs[l], l, w.log) && (w.lease.Some? ==> w.lease.value.fence > 0)
  {
  }

  lemma CompletedLeg(leg: Leg, leg': Leg, l: nat, log: seq<Event>, e: Event)
    requires LegLog(leg, l, log) && e == Saved(l, true) && leg.phase.Saving? && leg.phase.completed
    requires leg' == leg.(phase := leg'.phase) && (leg'.phase.Pruning? || leg'.phase.Releasing?)
    ensures LegLog(leg', l, log + [e]) && Justified(log, e)
  {
    assert forall x: Event :: x != e ==> (x in log + [e] <==> x in log);
    assert Proved(l, leg.fence) in log;
  }

  lemma StopKeeps(sys: System, w: World, l: nat)
    requires Inv(w)
    ensures Inv(ApplyTerminal(sys, w, StopRenewer(l)))
  {
    var w' := ApplyTerminal(sys, w, StopRenewer(l));
    if w' != w {
      assert w'.lease == w.lease;
      hide Inv;
      StopStep(w, w', l, w'.legs[l], RenewerStopped(l));
    }
  }

  lemma SaveKeeps(sys: System, w: World, l: nat, ok: bool)
    requires Inv(w)
    ensures Inv(ApplyFinish(sys, w, Save(l, ok)))
  {
    var w' := ApplyFinish(sys, w, Save(l, ok));
    if w' != w {
      assert w'.lease == w.lease;
      hide Inv;
      if ok && w.legs[l].phase.completed {
        CompleteStep(w, w', l, w'.legs[l], Saved(l, true));
      } else if ok {
        QuietEvent(w, w', l, w'.legs[l], Saved(l, false));
      } else {
        QuietStep(w, w', l, w'.legs[l]);
      }
    }
  }

  lemma ReleaseKeeps(sys: System, w: World, l: nat, reachable: bool)
    requires Inv(w)
    ensures Inv(ApplyFinish(sys, w, ReleaseLease(l, reachable)))
  {
    var w' := ApplyFinish(sys, w, ReleaseLease(l, reachable));
    if w' != w {
      assert Fence(w'.lease) == Fence(w.lease) && (w'.lease.Some? ==> w'.lease.value.fence > 0);
      hide Inv;
      if w.legs[l].fence > 0 {
        ReleaseStep(w, w', l, w'.legs[l], Released(l));
      } else {
        UnleasedEnds(w, w', l, w'.legs[l]);
      }
    }
  }

  lemma UnleasedEnds(w: World, w': World, l: nat, leg: Leg)
    requires Inv(w) && l < |w.legs| && w.legs[l].phase == Releasing
    requires w'.legs == w.legs[l := leg] && w'.log == w.log && w'.lease == w.lease
    requires leg == w.legs[l].(renewing := false, phase := Ended)
    ensures Inv(w')
  {
    assert LegLog(w.legs[l], l, w.log);
  }

  lemma QuietKeeps(w: World, w': World, l: nat)
    requires Inv(w) && l < |w.legs| && |w'.legs| == |w.legs| && w'.lease == w.lease
    requires w'.legs == w.legs[l := w'.legs[l]] && Quiet(w.legs[l], w'.legs[l])
    requires w'.log == w.log || (|w'.log| == |w.log| + 1 && w'.log == w.log + [w'.log[|w.log|]]
                                 && w'.log[|w.log|].leg == l && Silent(w'.log[|w.log|]))
    ensures Inv(w')
  {
    hide Inv;
    if w'.log == w.log {
      QuietStep(w, w', l, w'.legs[l]);
    } else {
      QuietEvent(w, w', l, w'.legs[l], w'.log[|w.log|]);
    }
  }

  /** The world keeps what the invariant reads. */
  lemma SameLegs(w: World, w': World)
    requires Inv(w) && w'.lease == w.lease && w'.legs == w.legs && w'.log == w.log
    ensures Inv(w')
  {
  }

  /** A call leaves its leg where it is. */
  lemma CallStep(w: World, w': World, l: nat, e: Event)
    requires Inv(w) && l < |w.legs| && e.leg == l && Silent(e)
    requires w'.lease == w.lease && w'.legs == w.legs && w'.log == w.log + [e]
    ensures Inv(w')
  {
    hide Inv;
    QuietEvent(w, w', l, w.legs[l], e);
  }

  lemma EnvironmentKeeps(sys: System, w: World, a: Action)
    requires Inv(w)
    ensures Inv(ApplyEnvironment(sys, w, a))
  {
    hide Inv;
    var w' := ApplyEnvironment(sys, w, a);
    if a.Beat? {
      BeatKeeps(sys, w, a.l, a.answer);
    } else if a.Crash? {
      if w' != w {
        QuietStep(w, w', a.l, w'.legs[a.l]);
      }
    } else {
      SameLegs(w, w');
    }
  }

  lemma StartKeeps(sys: System, w: World, a: Action)
    requires Inv(w) && a.StartRun?
    ensures Inv(ApplyEntry(sys, w, a))
  {
    hide Inv;
    var w' := ApplyEntry(sys, w, a);
    if w' != w {
      if a.saved {
        QuietStep(w, w', a.l, w'.legs[a.l]);
      } else {
        QuietEvent(w, w', a.l, w'.legs[a.l], KeyResolved(a.l, false));
      }
    }
  }

  lemma WriteJournalKeeps(sys: System, w: World, a: Action)
    requires Inv(w) && (a.WriteJournal? || a.GiveUp?)
    ensures Inv(ApplyEntry(sys, w, a))
  {
    hide Inv, System.Journal;
    var w' := ApplyEntry(sys, w, a);
    if w' != w {
      QuietStep(w, w', a.l, w'.legs[a.l]);
    }
  }

  lemma ResumeKeeps(sys: System, w: World, l: nat)
    requires Inv(w)
    ensures Inv(ApplyEntry(sys, w, Resume(l)))
  {
    hide Inv;
    var w' := ApplyEntry(sys, w, Resume(l));
    if w' != w {
      var middle := w.(legs := w.legs[l := w.legs[l].(parked := false)]);
      QuietStep(w, middle, l, middle.legs[l]);
      NewLegStep(middle, w', w'.legs[|w.legs|]);
    }
  }

  lemma EntryKeeps(sys: System, w: World, a: Action)
    requires Inv(w)
    ensures Inv(ApplyEntry(sys, w, a))
  {
    hide Inv;
    match a {
      case AcquireLease(l, reachable) => AcquireKeeps(sys, w, l, reachable);
      case Resume(l) => ResumeKeeps(sys, w, l);
      case StartRun(_, _, _) => StartKeeps(sys, w, a);
      case GiveUp(_) => WriteJournalKeeps(sys, w, a);
      case WriteJournal(_, _) => WriteJournalKeeps(sys, w, a);
      case _ =>
    }
  }

  lemma DecidedKeeps(w: World, l: nat, resumeIndex: nat, verdict: Verdict)
    requires Inv(w) && w.At(l, Deciding) && w.legs[l].kind.Recovered?
    ensures Inv(Decided(w, l, resumeIndex, verdict))
  {
    hide Inv;
    QuietKeeps(w, Decided(w, l, resumeIndex, verdict), l);
  }

  lemma DecideKeeps(sys: System, w: World, a: Action)
    requires Inv(w) && a.Decide?
    ensures Inv(ApplyRecovery(sys, w, a))
  {
    hide Inv, Decided, ReplayVerdict, DurableReplayInput, ListsIntents, ListsCheckpoints, DeploymentGoSized;
    var w' := ApplyRecovery(sys, w, a);
    if w' != w {
      var leg := w.legs[a.l];
      if !a.ok || w.waiting != {} {
        QuietStep(w, w', a.l, w'.legs[a.l]);
      } else {
        DecidedKeeps(w, a.l, DurableReplayInput(leg.snapshot.value, a.checkpoints).resumeIndex,
                     ReplayVerdict(sys.id, a.deployment, leg.snapshot.value, a.checkpoints, a.intents, leg.kind.forced));
      }
    }
  }

  lemma FailRunKeeps(sys: System, w: World, a: Action)
    requires Inv(w) && (a.FailRun? || a.PruneRun?)
    ensures Inv(ApplyRecovery(sys, w, a))
  {
    hide Inv;
    var w' := ApplyRecovery(sys, w, a);
    if w' != w {
      QuietKeeps(w, w', a.l);
    }
  }

  lemma ScanKeeps(sys: System, w: World, a: Action)
    requires Inv(w) && a.Scan?
    ensures Inv(ApplyRecovery(sys, w, a))
  {
    hide Inv, DurableReplayInput;
    var w' := ApplyRecovery(sys, w, a);
    if w' != w {
      NewLegStep(w, w', w'.legs[|w.legs|]);
    }
  }

  lemma RecoveryKeeps(sys: System, w: World, a: Action)
    requires Inv(w)
    ensures Inv(ApplyRecovery(sys, w, a))
  {
    hide Inv;
    match a {
      case Scan(_, _) => ScanKeeps(sys, w, a);
      case Claim(l) => ClaimKeeps(sys, w, l);
      case Decide(_, _, _, _, _) => DecideKeeps(sys, w, a);
      case FailRun(_, _) => FailRunKeeps(sys, w, a);
      case PruneRun(_, _) => FailRunKeeps(sys, w, a);
      case _ =>
    }
  }

  lemma CallKeeps(sys: System, w: World, a: Action)
    requires Inv(w) && (a.BeginCall? || a.EndCall?)
    ensures Inv(ApplyLoop(sys, w, a))
  {
    hide Inv;
    var w' := ApplyLoop(sys, w, a);
    if w' != w {
      if a.BeginCall? {
        CallStep(w, w', a.l, CallBegan(a.l, w.legs[a.l].cursor.value.Index(), a.effect));
      } else {
        SameLegs(w, w');
      }
    }
  }

  lemma BeginStepKeeps(sys: System, w: World, a: Action)
    requires Inv(w) && a.BeginStep?
    ensures Inv(ApplyLoop(sys, w, a))
  {
    hide Inv;
    var w' := ApplyLoop(sys, w, a);
    if w' != w {
      QuietEvent(w, w', a.l, w'.legs[a.l], w'.log[|w.log|]);
    }
  }

  lemma StepKeeps(sys: System, w: World, a: Action)
    requires Inv(w) && (a.Gate? || a.Suspend? || a.EndStep? || a.FailStep? || a.EndLoop?)
    ensures Inv(ApplyLoop(sys, w, a))
  {
    hide Inv, Advanced, System.Checkpoint;
    var w' := ApplyLoop(sys, w, a);
    if w' != w {
      QuietStep(w, w', a.l, w'.legs[a.l]);
    }
  }

  lemma LoopKeeps(sys: System, w: World, a: Action)
    requires Inv(w)
    ensures Inv(ApplyLoop(sys, w, a))
  {
    hide Inv;
    match a {
      case BeginCall(_, _, _) => CallKeeps(sys, w, a);
      case EndCall(_, _) => CallKeeps(sys, w, a);
      case BeginStep(_) => BeginStepKeeps(sys, w, a);
      case Gate(_) => StepKeeps(sys, w, a);
      case Suspend(_) => StepKeeps(sys, w, a);
      case EndStep(_) => StepKeeps(sys, w, a);
      case FailStep(_) => StepKeeps(sys, w, a);
      case EndLoop(_) => StepKeeps(sys, w, a);
      case _ =>
    }
  }

  lemma TerminalKeeps(sys: System, w: World, a: Action)
    requires Inv(w)
    ensures Inv(ApplyTerminal(sys, w, a))
  {
    hide Inv;
    match a {
      case Confirm(_, _) => ConfirmKeeps(sys, w, a);
      case Prove(_, _) => ConfirmKeeps(sys, w, a);
      case StopRenewer(l) => StopKeeps(sys, w, l);
      case BeginTerminal(_) => ApplyingKeeps(sys, w, a);
      case EndTerminal(_, _, _) => AppliedKeeps(sys, w, a);
      case Settle(_, _) => SettleKeeps(sys, w, a);
      case _ =>
    }
  }

  lemma ApplyingKeeps(sys: System, w: World, a: Action)
    requires Inv(w) && a.BeginTerminal?
    ensures Inv(ApplyTerminal(sys, w, a))
  {
    hide Inv, TerminalTool;
    var w' := ApplyTerminal(sys, w, a);
    if w' != w {
      QuietKeeps(w, w', a.l);
    }
  }

  lemma AppliedKeeps(sys: System, w: World, a: Action)
    requires Inv(w) && a.EndTerminal?
    ensures Inv(ApplyTerminal(sys, w, a))
  {
    hide Inv, TerminalTool;
    var w' := ApplyTerminal(sys, w, a);
    if w' != w {
      QuietKeeps(w, w', a.l);
    }
  }

  lemma SettleKeeps(sys: System, w: World, a: Action)
    requires Inv(w) && a.Settle?
    ensures Inv(ApplyTerminal(sys, w, a))
  {
    hide Inv;
    var w' := ApplyTerminal(sys, w, a);
    if w' != w {
      QuietKeeps(w, w', a.l);
    }
  }

  lemma FinishKeeps(sys: System, w: World, a: Action)
    requires Inv(w)
    ensures Inv(ApplyFinish(sys, w, a))
  {
    hide Inv;
    match a {
      case Save(l, ok) => SaveKeeps(sys, w, l, ok);
      case ReleaseLease(l, reachable) => ReleaseKeeps(sys, w, l, reachable);
      case ResolveKey(_, _) => OutcomeKeeps(sys, w, a);
      case Emit(_, _) => OutcomeKeeps(sys, w, a);
      case PruneJournal(_, _) => OutcomeKeeps(sys, w, a);
      case _ =>
    }
  }

  lemma OutcomeKeeps(sys: System, w: World, a: Action)
    requires Inv(w) && (a.ResolveKey? || a.Emit? || a.PruneJournal?)
    ensures Inv(ApplyFinish(sys, w, a))
  {
    hide Inv;
    var w' := ApplyFinish(sys, w, a);
    if w' != w {
      QuietKeeps(w, w', a.l);
    }
  }

  lemma {:induction false} ExecKeeps(sys: System, w: World, acts: seq<Action>)
    requires Inv(w)
    ensures Inv(Exec(sys, w, acts))
    decreases |acts|
  {
    if acts != [] {
      var a := acts[|acts| - 1];
      ExecKeeps(sys, w, acts[..|acts| - 1]);
      var before := Exec(sys, w, acts[..|acts| - 1]);
      hide Inv, ApplyEnvironment, ApplyEntry, ApplyRecovery, ApplyLoop, ApplyTerminal, ApplyFinish;
      EnvironmentKeeps(sys, before, a);
      EntryKeeps(sys, before, a);
      RecoveryKeeps(sys, before, a);
      LoopKeeps(sys, before, a);
      TerminalKeeps(sys, before, a);
      FinishKeeps(sys, before, a);
    }
  }

  // ---------- the theorems ----------

  lemma RunHolds(sys: System, holder: string, reserved: bool, now: int, acts: seq<Action>)
    ensures Inv(Exec(sys, Init(sys, holder, reserved, now), acts))
  {
    hide Apply;
    ExecKeeps(sys, Init(sys, holder, reserved, now), acts);
  }

  predicate OwnsRow(w: World, l: nat)
    requires l < |w.legs|
  {
    Holds(w.lease, w.legs[l].holder, w.legs[l].fence)
  }

  /**
   Whatever happens, at most one leg of an execution owns its lease, under the fence
   of its own acquisition; fences strictly increase from one acquisition to the next,
   and no renewal or proof ever succeeds under a fence that another leg has passed.
   */
  lemma OwnershipIsExclusive(sys: System, holder: string, reserved: bool, now: int, trace: seq<World>, acts: seq<Action>, l: nat, m: nat)
    requires IsRun(sys, Init(sys, holder, reserved, now), trace, acts)
    ensures var w := trace[|acts|];
            && (l < |w.legs| && m < |w.legs| && OwnsRow(w, l) && OwnsRow(w, m) ==> l == m)
            && (forall p, q | 0 <= p < q < |w.log| && Fenced(w.log[p]) && Fenced(w.log[q]) ::
                  w.log[p].fence <= w.log[q].fence && (w.log[q].Acquired? ==> w.log[p].fence < w.log[q].fence))
  {
    RunEnds(sys, Init(sys, holder, reserved, now), trace, acts);
    hide Exec, Init, LegLog;
    RunHolds(sys, holder, reserved, now, acts);
    var w := Exec(sys, Init(sys, holder, reserved, now), acts);
    forall p, q | 0 <= p < q < |w.log| && Fenced(w.log[p]) && Fenced(w.log[q])
      ensures w.log[p].fence <= w.log[q].fence && (w.log[q].Acquired? ==> w.log[p].fence < w.log[q].fence)
    {
      assert Justified(w.log[..q], w.log[q]);
      assert w.log[..q][p] == w.log[p];
    }
  }

  /** The events that a completion rests on. */
  ghost predicate Rests(log: seq<Event>, q: nat, acquired: nat, stopped: nat, proved: nat)
    requires q < |log| && log[q].Saved?
  {
    var l := log[q].leg;
    && acquired < proved < q && stopped < proved
    && log[stopped] == RenewerStopped(l) && log[proved].Proved? && log[proved].leg == l
    && log[acquired] == Acquired(l, log[proved].fence)
    && (forall i | acquired < i < proved :: !log[i].Acquired?)
    && (forall i | stopped < i < |log| :: !(log[i].Renewed? && log[i].leg == l))
    && LeaseLost(l) !in log
    && Released(l) !in log[..q]
  }

  lemma CompletionEvents(log: seq<Event>, q: nat) returns (acquired: nat, stopped: nat, proved: nat)
    requires History(log) && q < |log| && log[q].Saved? && log[q].completed
    ensures acquired < proved < q && stopped < proved
    ensures log[stopped] == RenewerStopped(log[q].leg) && log[proved].Proved? && log[proved].leg == log[q].leg
    ensures log[acquired] == Acquired(log[q].leg, log[proved].fence)
    ensures LeaseLost(log[q].leg) !in log[..q] && Released(log[q].leg) !in log[..q]
  {
    var l := log[q].leg;
    assert Justified(log[..q], log[q]);
    var f :| Proved(l, f) in log[..q];
    proved :| 0 <= proved < q && log[..q][proved] == Proved(l, f);
    assert Justified(log[..proved], log[proved]);
    acquired :| 0 <= acquired < proved && log[..proved][acquired] == Acquired(l, f);
    stopped :| 0 <= stopped < proved && log[..proved][stopped] == RenewerStopped(l);
  }

  /** An earlier event is in the prefix that a later one was justified by. */
  lemma JustifiedAfter(log: seq<Event>, p: nat, q: nat)
    requires History(log) && p < q < |log|
    ensures Justified(log[..q], log[q]) && log[..q][p] == log[p] && log[p] in log[..q]
  {
  }

  lemma NoTakeover(log: seq<Event>, acquired: nat, proved: nat, i: nat)
    requires History(log) && acquired < i < proved < |log|
    requires log[acquired].Acquired? && log[proved].Proved? && log[proved].fence == log[acquired].fence
    ensures !log[i].Acquired?
  {
    JustifiedAfter(log, acquired, i);
    JustifiedAfter(log, i, proved);
  }

  lemma NoRenewal(log: seq<Event>, stopped: nat, i: nat)
    requires History(log) && stopped < i < |log| && log[stopped].RenewerStopped? && log[i].leg == log[stopped].leg
    ensures !log[i].Renewed?
  {
    JustifiedAfter(log, stopped, i);
  }

  lemma NoLoss(log: seq<Event>, proved: nat, i: nat)
    requires History(log) && proved < i < |log| && log[proved].Proved?
    ensures log[i] != LeaseLost(log[proved].leg)
  {
    JustifiedAfter(log, proved, i);
  }

  lemma CompletionRests(log: seq<Event>, q: nat) returns (acquired: nat, stopped: nat, proved: nat)
    requires History(log) && q < |log| && log[q].Saved? && log[q].completed
    ensures Rests(log, q, acquired, stopped, proved)
  {
    acquired, stopped, proved := CompletionEvents(log, q);
    var l := log[q].leg;
    forall i | acquired < i < proved
      ensures !log[i].Acquired?
    {
      NoTakeover(log, acquired, proved, i);
    }
    forall i | stopped < i < |log| && log[i].leg == l
      ensures !log[i].Renewed?
    {
      NoRenewal(log, stopped, i);
    }
    forall i | 0 <= i < |log|
      ensures log[i] != LeaseLost(l)
    {
      if i > proved {
        NoLoss(log, proved, i);
      } else {
        assert log[..q][i] == log[i];
      }
    }
    hide History;
  }

  /**
   Completed is written only by a leg that renewed its lease under its own fence once
   its renewer had stopped, with no takeover between its acquisition and that proof;
   such a leg never marks a loss, and has not released its lease before it completes.
   */
  lemma CompletionIsProved(sys: System, holder: string, reserved: bool, now: int, trace: seq<World>, acts: seq<Action>, q: nat)
    returns (acquired: nat, stopped: nat, proved: nat)
    requires IsRun(sys, Init(sys, holder, reserved, now), trace, acts)
    requires var log := trace[|acts|].log;
             q < |log| && log[q].Saved? && log[q].completed
    ensures Rests(trace[|acts|].log, q, acquired, stopped, proved)
  {
    RunEnds(sys, Init(sys, holder, reserved, now), trace, acts);
    hide Exec, Init, LegLog, Rests, History, Justified;
    RunHolds(sys, holder, reserved, now, acts);
    acquired, stopped, proved := CompletionRests(Exec(sys, Init(sys, holder, reserved, now), acts).log, q);
  }

  /** A leg releases its lease at most once, and never renews or proves it afterwards. */
  lemma NoRenewalAfterRelease(sys: System, holder: string, reserved: bool, now: int, trace: seq<World>, acts: seq<Action>, p: nat, q: nat)
    requires IsRun(sys, Init(sys, holder, reserved, now), trace, acts)
    requires var log := trace[|acts|].log;
             p < q < |log| && log[p].Released? && log[q].leg == log[p].leg
    ensures var e := trace[|acts|].log[q];
            !e.Renewed? && !e.Proved? && !e.Released? && !e.LeaseLost? && !(e.Saved? && e.completed)
  {
    RunEnds(sys, Init(sys, holder, reserved, now), trace, acts);
    hide Exec, Init, LegLog;
    RunHolds(sys, holder, reserved, now, acts);
    var log := Exec(sys, Init(sys, holder, reserved, now), acts).log;
    assert Justified(log[..q], log[q]);
    assert log[..q][p] == log[p];
  }
}
