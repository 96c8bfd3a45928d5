/**
 What a decision to replay can repeat, exactly. A claimed run that is decided can begin
 an effect again if and only if it is replayed and an effect has begun at or behind its
 resume index; so the guard of EngineOnce cannot be weakened.
 */
module EngineReplay {
  import opened Wrappers
  import opened Recovery
  import opened Leases
  import opened Engine
  import opened EngineOnce
  import L = EngineLeases
  import T = EngineTransparency

  // ---------- what one action can do to one leg ----------

  /** Nothing that the leg does any more is an effect. */
  predicate Spent(phase: Phase) {
    phase.FailingRun? || phase.PruningRun? || phase.Releasing? || phase.Ended?
  }

  predicate Undecided(phase: Phase) {
    phase.Scanned? || phase.Deciding?
  }

  predicate Placed(leg: Leg) {
    leg.cursor.Some? && !BeforePlan(leg.phase)
  }

  /** Neither this leg nor any other can bring a lost lease back. */
  predicate Lapsed(lease: Option<Lease>, leg: Leg) {
    leg.lost || (!Holds(lease, leg.holder, leg.fence) && leg.fence <= Fence(lease))
  }

  predicate LeaseGoes(lease: Option<Lease>, lease': Option<Lease>) {
    || lease' == lease
    || Fence(lease') > Fence(lease)
    || (lease.Some? && lease'.Some? && lease'.value.fence == lease.value.fence && lease'.value.holder == lease.value.holder)
  }

  /** An effect of a leg is a call of its current step, or its confirmed terminal. */
  predicate Rooted(leg: Leg, e: Event) {
    && Placed(leg) && !Spent(leg.phase)
    && (e.CallBegan? ==> e.index == leg.cursor.value.Index())
    && (e.TerminalBegan? ==> leg.phase.AtTerminal? && e.index == |leg.cursor.value.plan.steps|)
  }

  predicate PhaseGoes(lease: Option<Lease>, leg: Leg, leg': Leg) {
    && leg'.holder == leg.holder && (leg.lost ==> leg'.lost)
    && (!leg.phase.Acquiring? && !leg.phase.Scanned? ==> leg'.fence == leg.fence)
    && (Undecided(leg'.phase) ==> Undecided(leg.phase))
    && (Spent(leg.phase) ==> Spent(leg'.phase))
    && (Placed(leg) ==> Placed(leg') && leg'.cursor.value.Index() >= leg.cursor.value.Index())
    && (leg'.phase.AtTerminal? ==>
          leg.phase.AtTerminal? || (!leg.lost && Holds(lease, leg.holder, leg.fence)))
  }

  predicate Goes(w: World, w': World) {
    && |w.legs| <= |w'.legs| && w.log <= w'.log && LeaseGoes(w.lease, w'.lease)
    && (forall l | 0 <= l < |w.legs| :: PhaseGoes(w.lease, w.legs[l], w'.legs[l]))
    && (forall q | |w.log| <= q < |w'.log| && Effectful(w'.log[q]) ::
          var l := w'.log[q].leg; l < |w.legs| && Rooted(w.legs[l], w'.log[q]))
  }

  /** One leg moves, and no effect begins. */
  lemma LegGoes(w: World, w': World, l: nat, leg: Leg, events: seq<Event>)
    requires l < |w.legs| && w'.legs == w.legs[l := leg] && w'.log == w.log + events
    requires NoEffects(events) && LeaseGoes(w.lease, w'.lease) && PhaseGoes(w.lease, w.legs[l], leg)
    ensures Goes(w, w')
  {
    hide LeaseGoes;
  }

  lemma EnvironmentGoes(sys: System, w: World, a: Action)
    ensures Goes(w, ApplyEnvironment(sys, w, a))
  {
  }

  lemma Still(w: World)
    ensures Goes(w, w)
  {
  }

  lemma ResumeGoes(sys: System, w: World, l: nat)
    ensures Goes(w, ApplyEntry(sys, w, Resume(l)))
  {
    hide System.Journal;
  }

  lemma EntryGoes(sys: System, w: World, a: Action)
    ensures Goes(w, ApplyEntry(sys, w, a))
  {
    hide Goes, System.Journal, World.ResolvedKey;
    var w' := ApplyEntry(sys, w, a);
    if w' == w {
      Still(w);
    } else if a.Resume? {
      ResumeGoes(sys, w, a.l);
    } else if a.AcquireLease? {
      AcquireGoes(sys, w, a.l, a.reachable);
    } else {
      var events := w'.log[|w.log|..];
      assert w'.log == w.log + events;
      LegGoes(w, w', a.l, w'.legs[a.l], events);
    }
  }

  lemma AcquireGoes(sys: System, w: World, l: nat, reachable: bool)
    ensures Goes(w, ApplyEntry(sys, w, AcquireLease(l, reachable)))
  {
    hide Goes;
    var w' := ApplyEntry(sys, w, AcquireLease(l, reachable));
    if w' == w {
      Still(w);
    } else {
      var events := w'.log[|w.log|..];
      assert w'.log == w.log + events;
      LegGoes(w, w', l, w'.legs[l], events);
    }
  }

  lemma DecidedGoes(w: World, l: nat, resumeIndex: nat, verdict: Verdict)
    requires w.At(l, Deciding) && w.legs[l].kind.Recovered?
    ensures Goes(w, Decided(w, l, resumeIndex, verdict))
  {
    var w' := Decided(w, l, resumeIndex, verdict);
    var events := w'.log[|w.log|..];
    assert w'.log == w.log + events;
    LegGoes(w, w', l, w'.legs[l], events);
  }

  lemma DecideGoes(sys: System, w: World, a: Action)
    requires a.Decide?
    ensures Goes(w, ApplyRecovery(sys, w, a))
  {
    hide Goes, Decided, ReplayVerdict, DurableReplayInput, ListsCheckpoints, ListsIntents, DeploymentGoSized;
    var w' := ApplyRecovery(sys, w, a);
    if w' == w {
      Still(w);
    } else if !a.ok || w.waiting != {} {
      LegGoes(w, w', a.l, w'.legs[a.l], []);
    } else {
      DecidedGoes(w, a.l, DurableReplayInput(w.legs[a.l].snapshot.value, a.checkpoints).resumeIndex,
                  ReplayVerdict(sys.id, a.deployment, w.legs[a.l].snapshot.value, a.checkpoints, a.intents, w.legs[a.l].kind.forced));
    }
  }

  lemma RecoveryGoes(sys: System, w: World, a: Action)
    ensures Goes(w, ApplyRecovery(sys, w, a))
  {
    hide DurableReplayInput, ListsCheckpoints;
    if a.Decide? {
      DecideGoes(sys, w, a);
    } else if a.Scan? {
    } else {
      ClaimGoes(sys, w, a);
    }
  }

  lemma ClaimGoes(sys: System, w: World, a: Action)
    requires !a.Decide? && !a.Scan?
    ensures Goes(w, ApplyRecovery(sys, w, a))
  {
    hide Goes;
    var w' := ApplyRecovery(sys, w, a);
    if w' == w {
      Still(w);
    } else {
      var events := w'.log[|w.log|..];
      assert w'.log == w.log + events;
      LegGoes(w, w', a.l, w'.legs[a.l], events);
    }
  }

  lemma CallGoes(sys: System, w: World, a: Action)
    requires a.BeginCall? || a.EndCall?
    ensures Goes(w, ApplyLoop(sys, w, a))
  {
  }

  lemma EndStepGoes(sys: System, w: World, l: nat)
    ensures Goes(w, ApplyLoop(sys, w, EndStep(l)))
  {
    hide Goes, System.Checkpoint;
    var w' := ApplyLoop(sys, w, EndStep(l));
    if w' == w {
      Still(w);
    } else {
      assert w'.legs[l].cursor.value.Index() == w.legs[l].cursor.value.Index() + 1;
      LegGoes(w, w', l, w'.legs[l], []);
    }
  }

  lemma LoopGoes(sys: System, w: World, a: Action)
    ensures Goes(w, ApplyLoop(sys, w, a))
  {
    hide Goes, System.Checkpoint;
    var w' := ApplyLoop(sys, w, a);
    if w' == w {
      Still(w);
    } else if a.BeginCall? || a.EndCall? {
      CallGoes(sys, w, a);
    } else if a.EndStep? {
      EndStepGoes(sys, w, a.l);
    } else {
      var events := w'.log[|w.log|..];
      assert w'.log == w.log + events;
      LegGoes(w, w', a.l, w'.legs[a.l], events);
    }
  }

  lemma BeginTerminalGoes(sys: System, w: World, l: nat)
    ensures Goes(w, ApplyTerminal(sys, w, BeginTerminal(l)))
  {
    hide TerminalTool;
  }

  lemma ConfirmGoes(sys: System, w: World, a: Action)
    requires a.Confirm?
    ensures Goes(w, ApplyTerminal(sys, w, a))
  {
    hide Goes;
    var w' := ApplyTerminal(sys, w, a);
    if w' == w {
      Still(w);
    } else {
      var events := w'.log[|w.log|..];
      assert w'.log == w.log + events;
      LegGoes(w, w', a.l, w'.legs[a.l], events);
    }
  }

  lemma ProveGoes(sys: System, w: World, a: Action)
    requires a.Prove?
    ensures Goes(w, ApplyTerminal(sys, w, a))
  {
    hide Goes, Owns;
    var w' := ApplyTerminal(sys, w, a);
    if w' == w {
      Still(w);
    } else {
      var events := w'.log[|w.log|..];
      assert w'.log == w.log + events;
      LegGoes(w, w', a.l, w'.legs[a.l], events);
    }
  }

  lemma TerminalGoes(sys: System, w: World, a: Action)
    ensures Goes(w, ApplyTerminal(sys, w, a))
  {
    hide Goes, TerminalTool, Owns;
    var w' := ApplyTerminal(sys, w, a);
    if w' == w {
      Still(w);
    } else if a.BeginTerminal? {
      BeginTerminalGoes(sys, w, a.l);
    } else if a.Confirm? {
      ConfirmGoes(sys, w, a);
    } else if a.Prove? {
      ProveGoes(sys, w, a);
    } else {
      var events := w'.log[|w.log|..];
      assert w'.log == w.log + events;
      LegGoes(w, w', a.l, w'.legs[a.l], events);
    }
  }

  lemma FinishGoes(sys: System, w: World, a: Action)
    ensures Goes(w, ApplyFinish(sys, w, a))
  {
    hide Goes, World.ResolvedKey, World.PrunedRows;
    var w' := ApplyFinish(sys, w, a);
    if w' == w {
      Still(w);
    } else {
      var events := w'.log[|w.log|..];
      assert w'.log == w.log + events;
      LegGoes(w, w', a.l, w'.legs[a.l], events);
    }
  }

  lemma ApplyGoes(sys: System, w: World, a: Action)
    ensures Goes(w, Apply(sys, w, a))
  {
    hide Goes, ApplyEnvironment, ApplyEntry, ApplyRecovery, ApplyLoop, ApplyTerminal, ApplyFinish;
    EnvironmentGoes(sys, w, a);
    EntryGoes(sys, w, a);
    RecoveryGoes(sys, w, a);
    LoopGoes(sys, w, a);
    TerminalGoes(sys, w, a);
    FinishGoes(sys, w, a);
  }

  // ---------- a leg that is not decided has begun nothing ----------

  predicate NoEffectOf(log: seq<Event>, l: nat) {
    forall q | 0 <= q < |log| && Effectful(log[q]) :: log[q].leg != l
  }

  predicate Fresh(w: World) {
    && (forall q | 0 <= q < |w.log| && Effectful(w.log[q]) :: w.log[q].leg < |w.legs|)
    && (forall l: nat | l < |w.legs| && Undecided(w.legs[l].phase) :: NoEffectOf(w.log, l))
  }

  lemma FreshKeeps(w: World, w': World)
    requires Fresh(w) && Goes(w, w')
    ensures Fresh(w')
  {
    hide LeaseGoes;
    forall q | 0 <= q < |w'.log| && Effectful(w'.log[q])
      ensures w'.log[q].leg < |w'.legs|
      ensures w'.log[q].leg < |w.legs|
      ensures forall l: nat | l < |w'.legs| && Undecided(w'.legs[l].phase) :: w'.log[q].leg != l
    {
      if q < |w.log| {
        assert w'.log[q] == w.log[q];
      }
    }
  }

  lemma {:induction false} FreshHolds(sys: System, w: World, acts: seq<Action>)
    requires Fresh(w)
    ensures Fresh(Exec(sys, w, acts))
    decreases |acts|
  {
    hide Apply, Goes, Fresh;
    if acts != [] {
      var n := |acts| - 1;
      FreshHolds(sys, w, acts[..n]);
      ApplyGoes(sys, Exec(sys, w, acts[..n]), acts[n]);
      FreshKeeps(Exec(sys, w, acts[..n]), Exec(sys, w, acts));
    }
  }

  // ---------- what a decided leg can still begin ----------

  /**
   Leg l stands at or behind index k for good: what it has begun since the n-th event lies
   there, and its terminal only begins if its lease was its own.
   */
  predicate Tracks(sys: System, w: World, l: nat, n: nat, k: nat, owns: bool) {
    && l < |w.legs| && n <= |w.log|
    && (Spent(w.legs[l].phase) || (Placed(w.legs[l]) && w.legs[l].cursor.value.Index() >= k))
    && (!owns ==> Lapsed(w.lease, w.legs[l]) && !w.legs[l].phase.AtTerminal?)
    && (forall q | n <= q < |w.log| && Effectful(w.log[q]) && w.log[q].leg == l ::
          w.log[q].index >= k && (w.log[q].index < sys.count || owns))
  }

  lemma StaysLapsed(lease: Option<Lease>, lease': Option<Lease>, leg: Leg, leg': Leg)
    requires Lapsed(lease, leg) && LeaseGoes(lease, lease') && PhaseGoes(lease, leg, leg')
    requires !leg.phase.Acquiring? && !leg.phase.Scanned? && !leg.phase.AtTerminal?
    ensures Lapsed(lease', leg') && !leg'.phase.AtTerminal?
  {
  }

  /** An effect of a placed leg is a call at its index or the terminal at the end of the plan. */
  lemma RootedIndex(sys: System, w: World, l: nat, e: Event)
    requires T.Inv(sys, w) && l < |w.legs| && Rooted(w.legs[l], e) && Effectful(e)
    requires T.Transparent(sys, e)
    ensures e.index >= w.legs[l].cursor.value.Index()
    ensures e.index < sys.count || w.legs[l].phase.AtTerminal?
  {
    T.Facts(sys, w, l);
  }

  lemma TracksKeeps(sys: System, w: World, w': World, l: nat, n: nat, k: nat, owns: bool)
    requires Tracks(sys, w, l, n, k, owns) && Goes(w, w') && T.Inv(sys, w) && T.LogTransparent(sys, w'.log)
    ensures Tracks(sys, w', l, n, k, owns)
  {
    hide T.Inv, T.Transparent, LeaseGoes, Lapsed;
    assert PhaseGoes(w.lease, w.legs[l], w'.legs[l]);
    if !owns {
      StaysLapsed(w.lease, w'.lease, w.legs[l], w'.legs[l]);
    }
    forall q | n <= q < |w'.log| && Effectful(w'.log[q]) && w'.log[q].leg == l
      ensures w'.log[q].index >= k && (w'.log[q].index < sys.count || owns)
    {
      if q < |w.log| {
        assert w'.log[q] == w.log[q];
      } else {
        assert T.Transparent(sys, w'.log[q]);
        RootedIndex(sys, w, l, w'.log[q]);
      }
    }
  }

  lemma {:induction false} TracksHolds(sys: System, w: World, acts: seq<Action>, l: nat, n: nat, k: nat, owns: bool)
    requires T.WellFormed(sys) && T.Inv(sys, w) && Tracks(sys, w, l, n, k, owns)
    ensures Tracks(sys, Exec(sys, w, acts), l, n, k, owns)
    ensures w.log <= Exec(sys, w, acts).log
    decreases |acts|
  {
    hide Apply, T.WellFormed, Tracks, LeaseGoes, PhaseGoes, Rooted, Effectful;
    if acts != [] {
      var m := |acts| - 1;
      var before := Exec(sys, w, acts[..m]);
      TracksHolds(sys, w, acts[..m], l, n, k, owns);
      T.ExecKeeps(sys, w, acts[..m]);
      T.ExecKeeps(sys, w, acts);
      ApplyGoes(sys, before, acts[m]);
      TracksKeeps(sys, before, Exec(sys, w, acts), l, n, k, owns);
    }
  }

  // ---------- what a decision can repeat ----------

  /** Leg l begins an effect that had already begun before the n-th event. */
  predicate Repeats(log: seq<Event>, n: nat, l: nat) {
    exists p, q :: 0 <= p < n <= q < |log| && log[q].leg == l && Again(log[p], log[q])
  }

  /** An effect that a leg at index k can still reach: the terminal only with its own lease. */
  predicate Reachable(sys: System, log: seq<Event>, k: nat, owns: bool) {
    exists q :: 0 <= q < |log| && Effectful(log[q]) && log[q].index >= k && (log[q].index < sys.count || owns)
  }

  /** The decision replays, and an effect lies ahead of it. */
  ghost predicate Repeatable(sys: System, w: World, l: nat, d: Deployment, points: seq<RunCheckpoint>, intents: seq<ToolIntent>)
    requires l < |w.legs| && w.legs[l].kind.Recovered? && w.legs[l].snapshot.Some?
  {
    var point := DurableReplayInput(w.legs[l].snapshot.value, points);
    && T.Deployed(sys, d) && !DurableRunClientGone(sys.plan)
    && !point.replayUnsafe && (w.legs[l].kind.forced || !T.Blocked(intents, point.resumeIndex))
    && Reachable(sys, w.log, point.resumeIndex, Owns(w, w.legs[l], Answered))
  }

  /** A decision that does not replay leaves its leg spent. */
  lemma RefusedIsSpent(sys: System, w: World, l: nat, resumeIndex: nat, verdict: Verdict)
    requires w.At(l, Deciding) && w.legs[l].kind.Recovered? && !verdict.Replay?
    ensures Tracks(sys, Decided(w, l, resumeIndex, verdict), l, |w.log|, sys.count + 1, true)
  {
  }

  lemma ReplayTracks(sys: System, w: World, l: nat, resumeIndex: nat, verdict: Verdict)
    requires w.At(l, Deciding) && w.legs[l].kind.Recovered? && verdict.Replay?
    requires w.legs[l].fence <= Fence(w.lease)
    ensures Tracks(sys, Decided(w, l, resumeIndex, verdict), l, |w.log|, verdict.point.resumeIndex, Owns(w, w.legs[l], Answered))
  {
  }

  /** Beyond the plan there is no effect. */
  lemma NothingBeyond(sys: System, w: World, l: nat, n: nat)
    requires T.Inv(sys, w) && Tracks(sys, w, l, n, sys.count + 1, true)
    ensures !Repeats(w.log, n, l)
  {
    forall q | n <= q < |w.log| && Effectful(w.log[q])
      ensures w.log[q].leg != l
    {
      assert T.Transparent(sys, w.log[q]);
    }
  }

  lemma NothingReachable(sys: System, w: World, log: seq<Event>, l: nat, k: nat, owns: bool)
    requires Tracks(sys, w, l, |log|, k, owns) && log <= w.log && !Reachable(sys, log, k, owns)
    ensures !Repeats(w.log, |log|, l)
  {
    forall p, q | 0 <= p < |log| <= q < |w.log| && w.log[q].leg == l
      ensures !Again(w.log[p], w.log[q])
    {
      assert w.log[p] == log[p];
    }
  }

  /** The decision in terms of the system: what it resumes with, and its verdict. */
  lemma DecisionFacts(sys: System, w: World, l: nat, d: Deployment, points: seq<RunCheckpoint>, intents: seq<ToolIntent>)
      returns (point: ReplayPoint, verdict: Verdict)
    requires T.WellFormed(sys) && DeploymentGoSized(d) && T.Inv(sys, w) && T.MayDecide(w, l, points, intents)
    ensures w.legs[l].snapshot.value == sys.Journal()
    ensures point == DurableReplayInput(sys.Journal(), points) && point.resumeIndex <= sys.count
    ensures verdict == ReplayVerdict(sys.id, d, sys.Journal(), points, intents, w.legs[l].kind.forced)
    ensures verdict.Replay? <==> T.Deployed(sys, d) && !DurableRunClientGone(sys.plan) && !point.replayUnsafe
                                 && (w.legs[l].kind.forced || !T.Blocked(intents, point.resumeIndex))
    ensures verdict.Replay? ==> verdict == Verdict.Replay(sys.plan, point)
    ensures Apply(sys, w, Decide(l, d, points, intents, true)) == Decided(w, l, point.resumeIndex, verdict)
  {
    hide ReplayVerdict, T.WellFormed, DeploymentGoSized, ListsCheckpoints, ListsIntents, Decided, System.Journal, System.Value, T.Blocked,
      T.Deployed, T.Inv, DurableReplayInput;
    T.LegFacts(sys, w, l);
    T.ReplayPointFacts(sys, points, w.rows.checkpoints);
    T.VerdictIsExact(sys, d, points, intents, w.legs[l].kind.forced);
    point := DurableReplayInput(sys.Journal(), points);
    verdict := ReplayVerdict(sys.id, d, sys.Journal(), points, intents, w.legs[l].kind.forced);
  }

  /** A decision that could repeat nothing repeats nothing, whatever happens afterwards. */
  lemma SafeDecision(sys: System, w: World, l: nat, d: Deployment, points: seq<RunCheckpoint>, intents: seq<ToolIntent>,
                     more: seq<Action>)
    requires T.WellFormed(sys) && DeploymentGoSized(d) && T.Inv(sys, w) && T.MayDecide(w, l, points, intents)
    requires w.legs[l].fence <= Fence(w.lease) && !Repeatable(sys, w, l, d, points, intents)
    ensures !Repeats(Exec(sys, Apply(sys, w, Decide(l, d, points, intents, true)), more).log, |w.log|, l)
  {
    hide T.WellFormed, DeploymentGoSized, ListsCheckpoints, ListsIntents, System.Journal, T.Blocked, T.Inv, Tracks, Reachable, Repeats, Exec,
      Apply, ReplayVerdict, Owns;
    var point, verdict := DecisionFacts(sys, w, l, d, points, intents);
    var a := Decide(l, d, points, intents, true);
    var w1 := Apply(sys, w, a);
    TransparentStep(sys, w, a);
    T.ExecKeeps(sys, w1, more);
    LogGrows(w, l, point.resumeIndex, verdict);
    hide Decided;
    if verdict.Replay? {
      var owns := Owns(w, w.legs[l], Answered);
      ReplayTracks(sys, w, l, point.resumeIndex, verdict);
      TracksHolds(sys, w1, more, l, |w.log|, point.resumeIndex, owns);
      NothingReachable(sys, Exec(sys, w1, more), w.log, l, point.resumeIndex, owns);
    } else {
      RefusedIsSpent(sys, w, l, point.resumeIndex, verdict);
      TracksHolds(sys, w1, more, l, |w.log|, sys.count + 1, true);
      NothingBeyond(sys, Exec(sys, w1, more), l, |w.log|);
    }
  }

  lemma TransparentStep(sys: System, w: World, a: Action)
    requires T.WellFormed(sys) && T.Inv(sys, w)
    ensures T.Inv(sys, Apply(sys, w, a))
  {
    hide T.WellFormed, T.Inv, Apply;
    T.ExecKeeps(sys, w, [a]);
    ExecCons(sys, w, a, []);
    assert [a] + [] == [a];
  }

  lemma LogGrows(w: World, l: nat, resumeIndex: nat, verdict: Verdict)
    requires l < |w.legs| && w.legs[l].kind.Recovered?
    ensures w.log <= Decided(w, l, resumeIndex, verdict).log
  {
  }

  // ---------- the replay that repeats an effect ----------

  /** Work of a leg: no time passes, and nothing is scanned, decided or resumed. */
  predicate Work(a: Action) {
    !a.Tick? && !a.Scan? && !a.Decide? && !a.Resume?
  }

  predicate AllWork(acts: seq<Action>) {
    forall a | a in acts :: Work(a)
  }

  /** The leg is the same but for its place, and the lease has not moved. */
  predicate Same(w: World, w': World, l: nat) {
    && l < |w.legs| && l < |w'.legs| && w'.lease == w.lease && w.log <= w'.log
    && w'.legs[l].holder == w.legs[l].holder && w'.legs[l].fence == w.legs[l].fence
    && w'.legs[l].kind == w.legs[l].kind && w'.legs[l].lost == w.legs[l].lost
  }

  /** The leg is about to begin step i, or the terminal behind the last step. */
  predicate Stands(sys: System, w: World, l: nat, i: nat, phase: Phase) {
    && w.Inside(l, phase) && T.OnTrack(sys, w.legs[l].cursor.value)
    && w.legs[l].cursor.value.Index() == i && !w.legs[l].cursor.value.resuming
  }

  lemma PassStep(sys: System, w: World, l: nat, i: nat)
    requires Stands(sys, w, l, i, Looping) && i < sys.count
    ensures var w' := Apply(sys, Apply(sys, w, BeginStep(l)), EndStep(l));
            Same(w, w', l) && Stands(sys, w', l, i + 1, Looping)
  {
    hide Apply, Same, Stands;
    BeginPass(sys, w, l, i);
    var w1 := Apply(sys, w, BeginStep(l));
    EndPass(sys, w1, l, i);
    SameTwice(w, w1, Apply(sys, w1, EndStep(l)), l);
  }

  lemma BeginPass(sys: System, w: World, l: nat, i: nat)
    requires Stands(sys, w, l, i, Looping) && i < sys.count
    ensures var w' := Apply(sys, w, BeginStep(l)); Same(w, w', l) && Stands(sys, w', l, i, InStep)
  {
    hide T.OnTrack;
    OnTrackFacts(sys, w.legs[l].cursor.value);
  }

  lemma EndPass(sys: System, w: World, l: nat, i: nat)
    requires Stands(sys, w, l, i, InStep) && i < sys.count
    ensures var w' := Apply(sys, w, EndStep(l)); Same(w, w', l) && Stands(sys, w', l, i + 1, Looping)
  {
    hide T.OnTrack, System.Checkpoint;
    OnTrackFacts(sys, w.legs[l].cursor.value);
    T.AdvancedStaysOnTrack(sys, w.legs[l].cursor.value);
  }

  lemma OnTrackFacts(sys: System, c: Cursor)
    requires T.OnTrack(sys, c)
    ensures c.plan == sys.plan && c.local <= |c.steps| && c.Index() <= sys.count
    ensures c.local < |c.steps| <==> c.Index() < sys.count
  {
  }

  lemma {:induction false} PassSteps(sys: System, w: World, l: nat, k: nat, i: nat) returns (acts: seq<Action>)
    requires Stands(sys, w, l, k, Looping) && k <= i <= sys.count
    ensures AllWork(acts)
    ensures var w' := Exec(sys, w, acts); Same(w, w', l) && Stands(sys, w', l, i, Looping)
    decreases i - k
  {
    hide Stands, Same, Apply;
    if k == i {
      acts := [];
      StaysSame(sys, w, l, k);
    } else {
      PassStep(sys, w, l, k);
      var w1 := Apply(sys, w, BeginStep(l));
      var w2 := Apply(sys, w1, EndStep(l));
      var rest := PassSteps(sys, w2, l, k + 1, i);
      acts := [BeginStep(l)] + ([EndStep(l)] + rest);
      ExecCons(sys, w, BeginStep(l), [EndStep(l)] + rest);
      ExecCons(sys, w1, EndStep(l), rest);
      SameTwice(w, w2, Exec(sys, w, acts), l);
    }
  }

  lemma StaysSame(sys: System, w: World, l: nat, i: nat)
    requires Stands(sys, w, l, i, Looping)
    ensures Same(w, w, l)
  {
  }

  lemma SameTwice(w: World, w1: World, w2: World, l: nat)
    requires Same(w, w1, l) && Same(w1, w2, l)
    ensures Same(w, w2, l)
  {
  }

  /** Step i begins once more, and with it a side-effecting call. */
  lemma CallAgain(sys: System, w: World, l: nat, i: nat, id: string)
    requires Stands(sys, w, l, i, Looping) && i < sys.count
    ensures var w' := Exec(sys, w, [BeginStep(l), BeginCall(l, id, SideEffecting)]);
            w.log <= w'.log && w'.log != [] && w'.log[|w'.log| - 1] == CallBegan(l, i, SideEffecting) && |w.log| < |w'.log|
  {
    hide T.OnTrack;
    OnTrackFacts(sys, w.legs[l].cursor.value);
    var w1 := Apply(sys, w, BeginStep(l));
    assert Stands(sys, w1, l, i, InStep) && w.log <= w1.log;
    var call := BeginCall(l, id, SideEffecting);
    var w2 := Apply(sys, w1, call);
    assert w2.log == w1.log + [CallBegan(l, i, SideEffecting)];
    hide Apply;
    ExecCons(sys, w, BeginStep(l), [call]);
    ExecCons(sys, w1, call, []);
    assert [call] + [] == [call];
  }

  /** In front of the terminal, with its own lease. */
  predicate Ends(sys: System, w: World, l: nat, phase: Phase) {
    && w.Inside(l, phase) && w.legs[l].cursor.value.plan == sys.plan
    && w.legs[l].cursor.value.local == |w.legs[l].cursor.value.steps|
    && w.legs[l].kind.Recovered? && Owns(w, w.legs[l], Answered)
  }

  lemma EndLoopAgain(sys: System, w: World, l: nat)
    requires Ends(sys, w, l, Looping)
    ensures var w' := Apply(sys, w, EndLoop(l)); w.log <= w'.log && Ends(sys, w', l, Confirming)
  {
  }

  lemma ConfirmAgain(sys: System, w: World, l: nat)
    requires Ends(sys, w, l, Confirming)
    ensures var w' := Apply(sys, w, Confirm(l, Answered)); w.log <= w'.log && Ends(sys, w', l, AtTerminal)
  {
  }

  lemma BeginAgain(sys: System, w: World, l: nat)
    requires Ends(sys, w, l, AtTerminal)
    ensures var w' := Apply(sys, w, BeginTerminal(l));
            w'.log == w.log + [TerminalBegan(l, sys.count, w.legs[l].cursor.value.current, TerminalTool(sys.plan.terminal).Some?)]
  {
    hide TerminalTool;
  }

  predicate TerminalOf(sys: System, e: Event, l: nat) {
    e.TerminalBegan? && e.leg == l && e.index == sys.count && e.effectful == TerminalTool(sys.plan.terminal).Some?
  }

  /** With its own lease the leg confirms and begins the terminal once more. */
  lemma TerminalAgain(sys: System, w: World, l: nat)
    requires Ends(sys, w, l, Looping)
    ensures var w' := Exec(sys, w, [EndLoop(l), Confirm(l, Answered), BeginTerminal(l)]);
            w.log <= w'.log && |w.log| < |w'.log| && TerminalOf(sys, w'.log[|w'.log| - 1], l)
  {
    hide TerminalTool, Apply, Ends;
    EndLoopAgain(sys, w, l);
    var w1 := Apply(sys, w, EndLoop(l));
    ConfirmAgain(sys, w1, l);
    var w2 := Apply(sys, w1, Confirm(l, Answered));
    BeginAgain(sys, w2, l);
    ExecCons(sys, w, EndLoop(l), [Confirm(l, Answered), BeginTerminal(l)]);
    ExecCons(sys, w1, Confirm(l, Answered), [BeginTerminal(l)]);
    ExecCons(sys, w2, BeginTerminal(l), []);
    assert [BeginTerminal(l)] + [] == [BeginTerminal(l)];
    assert [EndLoop(l)] + [Confirm(l, Answered), BeginTerminal(l)] == [EndLoop(l), Confirm(l, Answered), BeginTerminal(l)];
    assert [Confirm(l, Answered)] + [BeginTerminal(l)] == [Confirm(l, Answered), BeginTerminal(l)];
  }

  lemma StandsAtEnd(sys: System, w: World, l: nat)
    requires Stands(sys, w, l, sys.count, Looping) && w.legs[l].kind.Recovered? && Owns(w, w.legs[l], Answered)
    ensures Ends(sys, w, l, Looping)
  {
  }

  lemma ReplayStands(sys: System, w: World, l: nat, point: ReplayPoint)
    requires w.At(l, Deciding) && w.legs[l].kind.Recovered? && point.resumeIndex <= sys.count
    requires T.Inv(sys, Decided(w, l, point.resumeIndex, Verdict.Replay(sys.plan, point)))
    ensures var w' := Decided(w, l, point.resumeIndex, Verdict.Replay(sys.plan, point));
            Same(w, w', l) && Stands(sys, w', l, point.resumeIndex, Looping)
  {
    hide T.Inv;
    var w' := Decided(w, l, point.resumeIndex, Verdict.Replay(sys.plan, point));
    T.Facts(sys, w', l);
  }

  /** The last event of the log repeats an earlier one. */
  lemma LastRepeats(sys: System, log: seq<Event>, log': seq<Event>, l: nat, p: nat)
    requires log <= log' && |log| < |log'| && p < |log| && log'[|log'| - 1].leg == l && Again(log[p], log'[|log'| - 1])
    ensures Repeats(log', |log|, l)
  {
    assert log'[p] == log[p];
    var q := |log'| - 1;
    assert 0 <= p < |log| <= q < |log'| && log'[q].leg == l && Again(log'[p], log'[q]);
  }

  lemma EffectFacts(sys: System, w: World, l: nat, p: nat)
    requires T.Inv(sys, w) && Fresh(w) && w.At(l, Deciding) && p < |w.log| && Effectful(w.log[p])
    ensures w.log[p].leg != l && w.log[p].index <= sys.count
    ensures w.log[p].index == sys.count ==> w.log[p].TerminalBegan? && TerminalTool(sys.plan.terminal).Some?
  {
    assert T.Transparent(sys, w.log[p]);
    assert NoEffectOf(w.log, l);
  }

  /** A leg that stands at index k works its way to index i and begins an effect there. */
  lemma ReachesAgain(sys: System, w: World, l: nat, k: nat, i: nat) returns (more: seq<Action>)
    requires Stands(sys, w, l, k, Looping) && k <= i <= sys.count && w.legs[l].kind.Recovered?
    requires i == sys.count ==> Owns(w, w.legs[l], Answered)
    ensures AllWork(more)
    ensures var log := Exec(sys, w, more).log;
            && w.log <= log && |w.log| < |log|
            && var e := log[|log| - 1];
               if i < sys.count then e == CallBegan(l, i, SideEffecting) else TerminalOf(sys, e, l)
  {
    hide Stands, Exec, Apply;
    var steps := PassSteps(sys, w, l, k, i);
    var w1 := Exec(sys, w, steps);
    var last := if i < sys.count then [BeginStep(l), BeginCall(l, "", SideEffecting)]
                else [EndLoop(l), Confirm(l, Answered), BeginTerminal(l)];
    if i < sys.count {
      CallAgain(sys, w1, l, i, "");
    } else {
      StandsAtEnd(sys, w1, l);
      TerminalAgain(sys, w1, l);
    }
    ExecJoins(sys, w, steps, last);
    more := steps + last;
  }

  /** Whatever has begun and can be reached is begun again by a replay that simply works. */
  lemma RepeatingDecision(sys: System, w: World, l: nat, d: Deployment, points: seq<RunCheckpoint>, intents: seq<ToolIntent>)
      returns (more: seq<Action>)
    requires T.WellFormed(sys) && DeploymentGoSized(d) && T.Inv(sys, w) && Fresh(w) && T.MayDecide(w, l, points, intents)
    requires Repeatable(sys, w, l, d, points, intents)
    ensures AllWork(more)
    ensures Repeats(Exec(sys, Apply(sys, w, Decide(l, d, points, intents, true)), more).log, |w.log|, l)
  {
    hide T.WellFormed, DeploymentGoSized, ListsCheckpoints, ListsIntents, System.Journal, T.Blocked, T.Inv, Fresh, Repeats, Exec, Apply,
      ReplayVerdict, Stands, TerminalTool;
    var point, verdict := DecisionFacts(sys, w, l, d, points, intents);
    var k := point.resumeIndex;
    var p :| 0 <= p < |w.log| && Effectful(w.log[p]) && w.log[p].index >= k
             && (w.log[p].index < sys.count || Owns(w, w.legs[l], Answered));
    EffectFacts(sys, w, l, p);
    var w1 := Apply(sys, w, Decide(l, d, points, intents, true));
    TransparentStep(sys, w, Decide(l, d, points, intents, true));
    ReplayStands(sys, w, l, point);
    hide Decided;
    more := ReachesAgain(sys, w1, l, k, w.log[p].index);
    LastRepeats(sys, w.log, Exec(sys, w1, more).log, l, p);
  }

  // ---------- the theorems ----------

  lemma RunFacts(sys: System, holder: string, reserved: bool, now: int, trace: seq<World>, acts: seq<Action>)
    requires IsRun(sys, Init(sys, holder, reserved, now), trace, acts) && T.WellFormed(sys)
    ensures var w := trace[|acts|]; T.Inv(sys, w) && L.Inv(w) && Fresh(w)
  {
    var w0 := Init(sys, holder, reserved, now);
    InitIsOk(sys, holder, reserved, now);
    assert Fresh(w0);
    hide Init, Fresh, L.Inv, T.Inv;
    RunEnds(sys, w0, trace, acts);
    T.ExecKeeps(sys, w0, acts);
    L.ExecKeeps(sys, w0, acts);
    FreshHolds(sys, w0, acts);
  }

  /**
   In every run whatsoever, a claimed leg that is decided can begin an effect again if
   and only if the plan and build are deployed, the client can be served, the resume
   value is clean, no row at or behind the resume index is open or non-idempotent (or the
   decision is forced), and an effect has begun there; a terminal needs the leg's own lease.
   */
  lemma DecisionIsExact(sys: System, holder: string, reserved: bool, now: int, trace: seq<World>, acts: seq<Action>,
                        l: nat, d: Deployment, points: seq<RunCheckpoint>, intents: seq<ToolIntent>)
    requires IsRun(sys, Init(sys, holder, reserved, now), trace, acts) && T.WellFormed(sys) && DeploymentGoSized(d)
    requires T.MayDecide(trace[|acts|], l, points, intents)
    ensures var w := trace[|acts|];
            (exists more :: Repeats(Exec(sys, w, [Decide(l, d, points, intents, true)] + more).log, |w.log|, l))
              <==> Repeatable(sys, w, l, d, points, intents)
  {
    RunFacts(sys, holder, reserved, now, trace, acts);
    var w := trace[|acts|];
    var a := Decide(l, d, points, intents, true);
    LeaseAbove(w, l);
    hide Init, Apply, Exec, Repeats, Repeatable, T.Inv, L.Inv, Fresh, DeploymentGoSized, T.WellFormed, IsRun;
    if Repeatable(sys, w, l, d, points, intents) {
      var more := RepeatingDecision(sys, w, l, d, points, intents);
      ExecCons(sys, w, a, more);
      assert Repeats(Exec(sys, w, [a] + more).log, |w.log|, l);
    } else {
      forall more
        ensures !Repeats(Exec(sys, w, [a] + more).log, |w.log|, l)
      {
        SafeDecision(sys, w, l, d, points, intents, more);
        ExecCons(sys, w, a, more);
      }
    }
  }

  lemma LeaseAbove(w: World, l: nat)
    requires L.Inv(w) && l < |w.legs|
    ensures w.legs[l].fence <= Fence(w.lease)
  {
  }

  /** Mere work of the legs is always guarded. */
  lemma WorkIsGuarded(sys: System, w: World, acts: seq<Action>)
    requires AllWork(acts)
    ensures GuardedRun(sys, w, acts)
  {
    hide Exec;
    forall n | 0 <= n < |acts|
      ensures Guarded(Exec(sys, w, acts[..n]), acts[n])
    {
      assert Work(acts[n]);
    }
  }

  lemma RepeatsIsNotOnce(log: seq<Event>, n: nat, l: nat)
    requires Repeats(log, n, l)
    ensures !Once(log)
  {
  }

  /** The leg can be decided with a replay as its outcome, but for the rows of its effects. */
  ghost predicate WouldReplay(sys: System, w: World, a: Action) {
    && a.Decide? && a.ok && DeploymentGoSized(a.deployment) && T.MayDecide(w, a.l, a.checkpoints, a.intents)
    && T.Deployed(sys, a.deployment) && !DurableRunClientGone(sys.plan)
    && !DurableReplayInput(w.legs[a.l].snapshot.value, a.checkpoints).replayUnsafe
    && !w.legs[a.l].lost
  }

  lemma ShelteredIsSafe(sys: System, w: World, a: Action, more: seq<Action>)
    requires T.WellFormed(sys) && sys.ttl > 0 && Inv(w) && L.Inv(w) && T.Inv(sys, w)
    requires a.Decide? && Sheltered(w, a) && GuardedRun(sys, Apply(sys, w, a), more)
    ensures Once(Exec(sys, Apply(sys, w, a), more).log)
  {
    assert Guarded(w, a);
    hide T.WellFormed, Inv, L.Inv, T.Inv, Apply, Guarded, Sheltered;
    var w1 := Apply(sys, w, a);
    ApplyKeeps(sys, w, a);
    TransparentStep(sys, w, a);
    L.ExecKeeps(sys, w, [a]);
    ExecCons(sys, w, a, []);
    assert [a] + [] == [a];
    ExecKeeps(sys, w1, more);
    OnceOf(Exec(sys, w1, more));
  }

  lemma UnshelteredRepeats(sys: System, w: World, a: Action) returns (more: seq<Action>)
    requires T.WellFormed(sys) && Inv(w) && T.Inv(sys, w) && Fresh(w) && WouldReplay(sys, w, a) && !Sheltered(w, a)
    ensures GuardedRun(sys, Apply(sys, w, a), more)
    ensures !Once(Exec(sys, Apply(sys, w, a), more).log)
  {
    hide T.WellFormed, T.Inv, Fresh, Apply, Exec, Guarded, Once, Repeats, ListsCheckpoints, ListsIntents, T.Blocked, DeploymentGoSized,
      DurableReplayInput;
    assert LegOnce(w.legs[a.l], a.l, w.lease, w.now, w.log);
    hide Inv;
    var k := DurableReplayInput(w.legs[a.l].snapshot.value, a.checkpoints).resumeIndex;
    var p :| 0 <= p < |w.log| && Effectful(w.log[p]) && w.log[p].index >= k;
    assert Reachable(sys, w.log, k, true);
    more := RepeatingDecision(sys, w, a.l, a.deployment, a.checkpoints, a.intents);
    var w1 := Apply(sys, w, a);
    WorkIsGuarded(sys, w1, more);
    RepeatsIsNotOnce(Exec(sys, w1, more).log, |w.log|, a.l);
  }

  /**
   The guard of at most once cannot be weakened: after any guarded run, a decision that
   would replay is sheltered if and only if no guarded continuation repeats an effect.
   */
  lemma GuardIsExact(sys: System, holder: string, reserved: bool, now: int, trace: seq<World>, acts: seq<Action>, a: Action)
    requires T.WellFormed(sys) && sys.ttl > 0
    requires IsRun(sys, Init(sys, holder, reserved, now), trace, acts) && forall n | 0 <= n < |acts| :: Guarded(trace[n], acts[n])
    requires WouldReplay(sys, trace[|acts|], a)
    ensures var w' := Apply(sys, trace[|acts|], a);
            Sheltered(trace[|acts|], a) <==> forall more | GuardedRun(sys, w', more) :: Once(Exec(sys, w', more).log)
  {
    RunFacts(sys, holder, reserved, now, trace, acts);
    GuardedHolds(sys, holder, reserved, now, trace, acts);
    var w := trace[|acts|];
    var w' := Apply(sys, w, a);
    hide Init, Apply, Exec, Once, Sheltered, Guarded, T.Inv, L.Inv, Inv, Fresh, T.WellFormed, IsRun, GuardedRun;
    if Sheltered(w, a) {
      assert a.Decide?;
      forall more | GuardedRun(sys, w', more)
        ensures Once(Exec(sys, w', more).log)
      {
        ShelteredIsSafe(sys, w, a, more);
      }
    } else {
      var more := UnshelteredRepeats(sys, w, a);
      assert GuardedRun(sys, w', more) && !Once(Exec(sys, w', more).log);
    }
  }

  /**
   A decision on tables that have gone in the meantime repeats an effect in some guarded
   continuation if and only if any effect has begun at all.
   */
  lemma GoneRowsRepeat(sys: System, holder: string, reserved: bool, now: int, trace: seq<World>, acts: seq<Action>, a: Action)
    requires T.WellFormed(sys) && sys.ttl > 0
    requires IsRun(sys, Init(sys, holder, reserved, now), trace, acts) && forall n | 0 <= n < |acts| :: Guarded(trace[n], acts[n])
    requires WouldReplay(sys, trace[|acts|], a) && trace[|acts|].rows == NO_ROWS
    ensures var w' := Apply(sys, trace[|acts|], a);
            (exists more :: GuardedRun(sys, w', more) && !Once(Exec(sys, w', more).log))
              <==> exists q :: 0 <= q < |trace[|acts|].log| && Effectful(trace[|acts|].log[q])
  {
    GuardIsExact(sys, holder, reserved, now, trace, acts, a);
    NoRowsShelterNothing(trace[|acts|], a);
    hide IsRun, Guarded, GuardedRun, Once, Exec, Apply, Sheltered;
  }

  lemma NoRowsShelterNothing(w: World, a: Action)
    requires a.Decide? && a.ok && T.MayDecide(w, a.l, a.checkpoints, a.intents) && w.rows == NO_ROWS
    ensures Sheltered(w, a) <==> NoEffects(w.log)
  {
    ListsOnlyRows(a.checkpoints, map[], a.intents, map[]);
  }

  lemma ListsOnlyRows(points: seq<RunCheckpoint>, m: map<nat, RunCheckpoint>, intents: seq<ToolIntent>, rows: map<string, ToolIntent>)
    requires ListsCheckpoints(points, m) && ListsIntents(intents, rows)
    ensures (points != [] ==> m != map[]) && (intents != [] ==> rows != map[])
  {
    if points != [] {
      assert points[0].stepIndex in m;
    }
    if intents != [] {
      assert intents[0] in rows.Values;
    }
  }
}
