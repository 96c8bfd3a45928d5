/**
 At most once: a side-effecting call or an effectful terminal that has begun is never
 begun again by an automatic replay, provided that processes stop when they crash, that
 nothing is forced or resumed from memory, and that every decision to replay is
 sheltered: whatever has begun at or behind the resume index has left a row that blocks it.
 */
module EngineOnce {
  import opened Wrappers
  import opened Recovery
  import opened Leases
  import opened Engine
  import L = EngineLeases
  import T = EngineTransparency

  /** A Push or file Sink terminal, or a side-effecting tool call, begins. */
  predicate Effectful(e: Event) {
    (e.CallBegan? && e.effect == SideEffecting) || (e.TerminalBegan? && e.effectful)
  }

  /** The leg may still begin effects. */
  predicate Acting(leg: Leg) {
    leg.alive && (leg.phase.Journaling? || leg.phase.Deciding? || leg.phase.Looping? || leg.phase.InStep?
                  || leg.phase.Confirming? || leg.phase.AtTerminal?)
  }

  // ---------- what the environment has to respect ----------

  /** A process that can still act renews in time; a crashed one does not act. */
  predicate Timely(w: World, a: Action) {
    a.Tick? ==>
      forall l | 0 <= l < |w.legs| && Acting(w.legs[l]) :: w.lease.Some? && w.now + a.elapsed <= w.lease.value.expiresAt
  }

  /** Everything that has begun lies before the index. */
  predicate EffectsBelow(log: seq<Event>, index: nat) {
    forall q | 0 <= q < |log| && Effectful(log[q]) :: log[q].index < index
  }

  /** A decision that could replay an effect finds a row that forbids it. */
  ghost predicate Sheltered(w: World, a: Action) {
    a.Decide? && a.ok && T.MayDecide(w, a.l, a.checkpoints, a.intents) ==>
      var k := DurableReplayInput(w.legs[a.l].snapshot.value, a.checkpoints).resumeIndex;
      EffectsBelow(w.log, k) || T.Blocked(a.intents, k)
  }

  ghost predicate Guarded(w: World, a: Action) {
    && Timely(w, a)
    && Sheltered(w, a)
    && !(a.Scan? && a.force)
    && !a.Resume?
  }

  ghost predicate GuardedRun(sys: System, w: World, acts: seq<Action>) {
    forall n | 0 <= n < |acts| :: Guarded(Exec(sys, w, acts[..n]), acts[n])
  }

  // ---------- the invariant ----------

  /** The second effect repeats the first: same index, and not two calls of one leg in one step. */
  predicate Again(first: Event, second: Event) {
    && Effectful(first) && Effectful(second) && first.index == second.index
    && !(first.CallBegan? && second.CallBegan? && first.leg == second.leg)
  }

  predicate Once(log: seq<Event>) {
    forall p, q | 0 <= p < q < |log| :: !Again(log[p], log[q])
  }

  predicate Secure(lease: Option<Lease>, now: int, leg: Leg) {
    Holds(lease, leg.holder, leg.fence) && now <= lease.value.expiresAt
  }

  predicate NoEffects(log: seq<Event>) {
    forall q | 0 <= q < |log| :: !Effectful(log[q])
  }

  /** Only the leg's own calls may stand at the index. */
  predicate EffectsUpTo(log: seq<Event>, index: nat, l: nat) {
    forall q | 0 <= q < |log| && Effectful(log[q]) ::
      log[q].index < index || (log[q].index == index && log[q].leg == l && log[q].CallBegan?)
  }

  /** Effects lie behind the place where an acting leg stands. */
  predicate Place(leg: Leg, l: nat, log: seq<Event>) {
    Acting(leg) && leg.cursor.Some? ==>
      if leg.phase.InStep? then EffectsUpTo(log, leg.cursor.value.Index(), l) else EffectsBelow(log, leg.cursor.value.Index())
  }

  predicate BeforePlan(phase: Phase) {
    phase.Starting? || phase.Acquiring? || phase.Journaling? || phase.Scanned? || phase.Deciding?
  }

  predicate LegOnce(leg: Leg, l: nat, lease: Option<Lease>, now: int, log: seq<Event>) {
    && (leg.kind == Live || leg.kind == Recovered(false))
    && (Acting(leg) ==> Secure(lease, now, leg))
    && (T.BeforeJournal(leg) ==> NoEffects(log))
    && Place(leg, l, log)
    && (BeforePlan(leg.phase) ==> leg.cursor.None?)
    && (leg.phase.Scanned? || leg.phase.Deciding? ==> leg.kind.Recovered?)
  }

  predicate Inv(w: World) {
    && (forall l | 0 <= l < |w.legs| :: LegOnce(w.legs[l], l, w.lease, w.now, w.log))
    && Once(w.log)
  }

  // ---------- steps ----------

  /** A leg moves and the lease stays good for the legs that act; nothing effectful begins. */
  lemma LegStep(w: World, w': World, l: nat, leg: Leg, events: seq<Event>)
    requires Inv(w) && l < |w.legs|
    requires w'.legs == w.legs[l := leg] && w'.log == w.log + events && w'.now == w.now && NoEffects(events)
    requires forall m | 0 <= m < |w.legs| && m != l && Acting(w.legs[m]) :: Secure(w'.lease, w.now, w.legs[m])
    requires LegOnce(leg, l, w'.lease, w.now, w.log)
    ensures Inv(w')
  {
    assert forall q | 0 <= q < |w'.log| && Effectful(w'.log[q]) :: q < |w.log| && w'.log[q] == w.log[q];
    assert LegOnce(leg, l, w'.lease, w.now, w'.log);
    forall m | 0 <= m < |w.legs| && m != l
      ensures LegOnce(w'.legs[m], m, w'.lease, w'.now, w'.log)
    {
      assert LegOnce(w.legs[m], m, w.lease, w.now, w.log);
    }
  }

  /** Leases and tables stay; the leg ends, waits or goes on where it stands. */
  lemma QuietStep(w: World, w': World, l: nat, leg: Leg, events: seq<Event>)
    requires Inv(w) && l < |w.legs|
    requires w'.legs == w.legs[l := leg] && w'.log == w.log + events && w'.now == w.now && NoEffects(events)
    requires w'.lease == w.lease
    requires leg.kind == w.legs[l].kind && leg.cursor == w.legs[l].cursor && leg.fence == w.legs[l].fence && leg.holder == w.legs[l].holder
    requires Acting(leg) ==> Acting(w.legs[l]) && (leg.phase.InStep? || !w.legs[l].phase.InStep?)
    requires T.BeforeJournal(leg) ==> T.BeforeJournal(w.legs[l])
    requires BeforePlan(leg.phase) ==> BeforePlan(w.legs[l].phase)
    requires leg.phase.Scanned? || leg.phase.Deciding? ==> leg.phase == w.legs[l].phase
    ensures Inv(w')
  {
    assert LegOnce(w.legs[l], l, w.lease, w.now, w.log);
    assert LegOnce(leg, l, w.lease, w.now, w.log);
    LegStep(w, w', l, leg, events);
  }

  lemma RenewStep(sys: System, w: World, w': World, l: nat, leg: Leg, events: seq<Event>)
    requires Inv(w) && l < |w.legs| && sys.ttl > 0
    requires w'.legs == w.legs[l := leg] && w'.log == w.log + events && w'.now == w.now && NoEffects(events)
    requires w'.lease == RenewedRow(w.lease, w.legs[l].holder, w.legs[l].fence, sys.ttl, w.now)
    requires leg == w.legs[l].(phase := leg.phase)
    requires leg.phase == w.legs[l].phase || (w.legs[l].phase.Confirming? && leg.phase.AtTerminal?)
             || (!Acting(leg) && !BeforePlan(leg.phase))
    ensures Inv(w')
  {
    assert LegOnce(w.legs[l], l, w.lease, w.now, w.log);
    forall m | 0 <= m < |w.legs| && Acting(w.legs[m])
      ensures Secure(w'.lease, w.now, w.legs[m])
    {
      assert LegOnce(w.legs[m], m, w.lease, w.now, w.log);
    }
    LegStep(w, w', l, leg, events);
  }

  /** An expired or released lease has no acting owner. */
  lemma AcquireStep(sys: System, w: World, w': World, l: nat, leg: Leg, events: seq<Event>)
    requires Inv(w) && l < |w.legs| && sys.ttl > 0 && Acquirable(w.lease, w.now)
    requires w'.legs == w.legs[l := leg] && w'.log == w.log + events && w'.now == w.now && NoEffects(events)
    requires w'.lease == Some(AcquiredLease(w.lease, leg.holder, sys.ttl, w.now))
    requires leg.fence == w'.lease.value.fence && leg.kind == w.legs[l].kind && leg.cursor == w.legs[l].cursor
    requires leg.phase.Deciding? ==> w.legs[l].phase.Scanned?
    requires !leg.phase.Scanned? && BeforePlan(leg.phase) && BeforePlan(w.legs[l].phase) && (T.BeforeJournal(leg) ==> T.BeforeJournal(w.legs[l]))
    ensures Inv(w')
  {
    assert LegOnce(w.legs[l], l, w.lease, w.now, w.log);
    forall m | 0 <= m < |w.legs|
      ensures !Acting(w.legs[m])
    {
      assert LegOnce(w.legs[m], m, w.lease, w.now, w.log);
    }
    LegStep(w, w', l, leg, events);
  }

  lemma SameLegs(w: World, w': World)
    requires Inv(w)
    requires w'.legs == w.legs && w'.log == w.log && w'.lease == w.lease && w'.now == w.now
    ensures Inv(w')
  {
  }

  lemma TickStep(w: World, elapsed: nat)
    requires Inv(w) && Timely(w, Tick(elapsed))
    ensures Inv(w.(now := w.now + elapsed))
  {
    forall l | 0 <= l < |w.legs|
      ensures LegOnce(w.legs[l], l, w.lease, w.now + elapsed, w.log)
    {
      assert LegOnce(w.legs[l], l, w.lease, w.now, w.log);
    }
  }

  /** The lease tells at most one leg that it may act. */
  lemma OneActor(w: World, l: nat, m: nat)
    requires Inv(w) && L.Inv(w) && l < |w.legs| && m < |w.legs| && Acting(w.legs[m])
    requires Holds(w.lease, w.legs[l].holder, w.legs[l].fence)
    ensures l == m
  {
    assert LegOnce(w.legs[m], m, w.lease, w.now, w.log);
  }

  lemma ReleaseStep(w: World, w': World, l: nat, leg: Leg, events: seq<Event>)
    requires Inv(w) && L.Inv(w) && l < |w.legs| && w.legs[l].phase.Releasing?
    requires w'.legs == w.legs[l := leg] && w'.log == w.log + events && w'.now == w.now && NoEffects(events)
    requires w'.lease == w.lease || w'.lease == ReleasedRow(w.lease, w.legs[l].holder, w.legs[l].fence, w.now)
    requires leg == w.legs[l].(renewing := leg.renewing, phase := Ended)
    ensures Inv(w')
  {
    assert LegOnce(w.legs[l], l, w.lease, w.now, w.log);
    forall m | 0 <= m < |w.legs| && m != l && Acting(w.legs[m])
      ensures Secure(w'.lease, w.now, w.legs[m])
    {
      assert LegOnce(w.legs[m], m, w.lease, w.now, w.log);
      if Holds(w.lease, w.legs[l].holder, w.legs[l].fence) {
        OneActor(w, l, m);
      }
    }
    LegStep(w, w', l, leg, events);
  }

  // ---------- effects ----------

  lemma OnceGrows(log: seq<Event>, e: Event, l: nat)
    requires Once(log) && Effectful(e) && e.leg == l
    requires if e.CallBegan? then EffectsUpTo(log, e.index, l) else EffectsBelow(log, e.index)
    ensures Once(log + [e])
  {
  }

  /** A leg that begins an effect is the only one that acts. */
  lemma EffectStep(w: World, w': World, l: nat, leg: Leg, e: Event)
    requires Inv(w) && L.Inv(w) && l < |w.legs| && Acting(w.legs[l]) && !T.BeforeJournal(leg)
    requires forall m | 0 <= m < |w.legs| && m != l :: !T.BeforeJournal(w.legs[m])
    requires w'.legs == w.legs[l := leg] && w'.log == w.log + [e] && w'.lease == w.lease && w'.now == w.now
    requires Once(w'.log)
    requires leg.kind == w.legs[l].kind && !BeforePlan(leg.phase) && leg.holder == w.legs[l].holder && leg.fence == w.legs[l].fence
    requires Place(leg, l, w'.log)
    ensures Inv(w')
  {
    assert LegOnce(w.legs[l], l, w.lease, w.now, w.log);
    forall m | 0 <= m < |w.legs| && m != l
      ensures LegOnce(w'.legs[m], m, w'.lease, w'.now, w'.log)
    {
      assert LegOnce(w.legs[m], m, w.lease, w.now, w.log);
      if Acting(w.legs[m]) {
        OneActor(w, l, m);
      }
    }
  }

  // ---------- every guarded action keeps the invariant ----------

  lemma BeatKeeps(sys: System, w: World, l: nat, answer: Answer)
    requires Inv(w) && sys.ttl > 0
    ensures Inv(ApplyEnvironment(sys, w, Beat(l, answer)))
  {
    hide Inv;
    var w' := ApplyEnvironment(sys, w, Beat(l, answer));
    if w' != w {
      if answer == Answered && Holds(w.lease, w.legs[l].holder, w.legs[l].fence) {
        assert w'.legs == w.legs[l := w.legs[l]];
        RenewStep(sys, w, w', l, w.legs[l], [Renewed(l, w.legs[l].fence)]);
      } else {
        QuietStep(w, w', l, w'.legs[l], [LeaseLost(l)]);
      }
    }
  }

  lemma CrashKeeps(sys: System, w: World, l: nat)
    requires Inv(w)
    ensures Inv(ApplyEnvironment(sys, w, Crash(l)))
  {
    hide Inv;
    var w' := ApplyEnvironment(sys, w, Crash(l));
    if w' != w {
      QuietStep(w, w', l, w'.legs[l], []);
    }
  }

  lemma EnvironmentKeeps(sys: System, w: World, a: Action)
    requires Inv(w) && Guarded(w, a) && sys.ttl > 0
    ensures Inv(ApplyEnvironment(sys, w, a))
  {
    hide Inv;
    match a {
      case Tick(elapsed) => TickStep(w, elapsed);
      case Beat(l, answer) => BeatKeeps(sys, w, l, answer);
      case Crash(l) => CrashKeeps(sys, w, l);
      case _ => SameLegs(w, ApplyEnvironment(sys, w, a));
    }
  }

  lemma StartKeeps(sys: System, w: World, a: Action)
    requires Inv(w) && (a.StartRun? || a.GiveUp?)
    ensures Inv(ApplyEntry(sys, w, a))
  {
    hide Inv;
    var w' := ApplyEntry(sys, w, a);
    if w' != w {
      var events := w'.log[|w.log|..];
      assert w'.log == w.log + events;
      QuietStep(w, w', a.l, w'.legs[a.l], events);
    }
  }

  lemma AcquireKeeps(sys: System, w: World, l: nat, reachable: bool)
    requires Inv(w) && T.Inv(sys, w) && sys.ttl > 0
    ensures Inv(ApplyEntry(sys, w, AcquireLease(l, reachable)))
  {
    hide T.Inv, T.RowsOk, T.OnTrack;
    var w' := ApplyEntry(sys, w, AcquireLease(l, reachable));
    if w' != w {
      T.Facts(sys, w, l);
      assert LegOnce(w.legs[l], l, w.lease, w.now, w.log);
      hide Inv;
      if reachable && Acquirable(w.lease, w.now) {
        AcquireStep(sys, w, w', l, w'.legs[l], [Acquired(l, w'.lease.value.fence)]);
      } else {
        QuietStep(w, w', l, w'.legs[l], []);
      }
    }
  }

  lemma WriteJournalKeeps(sys: System, w: World, l: nat, ok: bool)
    requires Inv(w) && T.Inv(sys, w)
    ensures Inv(ApplyEntry(sys, w, WriteJournal(l, ok)))
  {
    var w' := ApplyEntry(sys, w, WriteJournal(l, ok));
    if w' != w {
      T.Facts(sys, w, l);
      assert LegOnce(w.legs[l], l, w.lease, w.now, w.log);
      hide Inv, T.Inv;
      if ok {
        LegStep(w, w', l, w'.legs[l], []);
      } else {
        QuietStep(w, w', l, w'.legs[l], []);
      }
    }
  }

  lemma EntryKeeps(sys: System, w: World, a: Action)
    requires Inv(w) && T.Inv(sys, w) && Guarded(w, a) && sys.ttl > 0
    ensures Inv(ApplyEntry(sys, w, a))
  {
    hide Inv, T.Inv;
    match a {
      case AcquireLease(l, reachable) => AcquireKeeps(sys, w, l, reachable);
      case WriteJournal(l, ok) => WriteJournalKeeps(sys, w, l, ok);
      case StartRun(_, _, _) => StartKeeps(sys, w, a);
      case GiveUp(_) => StartKeeps(sys, w, a);
      case _ =>
    }
  }

  lemma ScanKeeps(sys: System, w: World, a: Action)
    requires Inv(w) && a.Scan? && !a.force
    ensures Inv(ApplyRecovery(sys, w, a))
  {
    hide DurableReplayInput;
    var w' := ApplyRecovery(sys, w, a);
    if w' != w {
      var n := |w.legs|;
      assert LegOnce(w'.legs[n], n, w'.lease, w'.now, w'.log);
      forall m | 0 <= m < n
        ensures LegOnce(w'.legs[m], m, w'.lease, w'.now, w'.log)
      {
        assert LegOnce(w.legs[m], m, w.lease, w.now, w.log);
      }
    }
  }

  lemma ClaimKeeps(sys: System, w: World, l: nat)
    requires Inv(w) && sys.ttl > 0
    ensures Inv(ApplyRecovery(sys, w, Claim(l)))
  {
    var w' := ApplyRecovery(sys, w, Claim(l));
    if w' != w {
      assert LegOnce(w.legs[l], l, w.lease, w.now, w.log);
      hide Inv;
      if Acquirable(w.lease, w.now) {
        AcquireStep(sys, w, w', l, w'.legs[l], [Acquired(l, w'.lease.value.fence)]);
      } else {
        QuietStep(w, w', l, w'.legs[l], []);
      }
    }
  }

  lemma FailRunKeeps(sys: System, w: World, a: Action)
    requires Inv(w) && (a.FailRun? || a.PruneRun?)
    ensures Inv(ApplyRecovery(sys, w, a))
  {
    hide Inv;
    var w' := ApplyRecovery(sys, w, a);
    if w' != w {
      var events := w'.log[|w.log|..];
      assert w'.log == w.log + events;
      QuietStep(w, w', a.l, w'.legs[a.l], events);
    }
  }

  lemma DecidedKeeps(sys: System, w: World, l: nat, resumeIndex: nat, verdict: Verdict)
    requires Inv(w) && w.At(l, Deciding) && w.legs[l].kind.Recovered?
    requires verdict.Replay? ==> verdict.point.resumeIndex == resumeIndex <= |verdict.plan.steps| && EffectsBelow(w.log, resumeIndex)
    ensures Inv(Decided(w, l, resumeIndex, verdict))
  {
    hide Inv;
    var w' := Decided(w, l, resumeIndex, verdict);
    var events := w'.log[|w.log|..];
    assert w'.log == w.log + events;
    if verdict.Replay? {
      DecidedReplays(w, w', l, events);
    } else {
      QuietStep(w, w', l, w'.legs[l], events);
    }
  }

  lemma DecidedReplays(w: World, w': World, l: nat, events: seq<Event>)
    requires Inv(w) && w.At(l, Deciding) && l < |w'.legs| && w'.legs[l].cursor.Some?
    requires w'.legs == w.legs[l := w.legs[l].(cursor := w'.legs[l].cursor, phase := Looping)]
    requires w'.log == w.log + events && NoEffects(events) && w'.now == w.now && w'.lease == w.lease && w'.rows == w.rows
    requires EffectsBelow(w.log, w'.legs[l].cursor.value.Index())
    ensures Inv(w')
  {
    assert LegOnce(w.legs[l], l, w.lease, w.now, w.log);
    forall m | 0 <= m < |w.legs| && Acting(w.legs[m])
      ensures Secure(w.lease, w.now, w.legs[m])
    {
      assert LegOnce(w.legs[m], m, w.lease, w.now, w.log);
    }
    LegStep(w, w', l, w'.legs[l], events);
  }

  lemma DecideKeeps(sys: System, w: World, a: Action)
    requires Inv(w) && T.WellFormed(sys) && T.Inv(sys, w) && Sheltered(w, a) && a.Decide?
    ensures Inv(ApplyRecovery(sys, w, a))
  {
    hide T.WellFormed, T.LegOk, T.Inv, T.CheckpointsOk, Decided, ReplayVerdict, DurableReplayInput, ListsIntents, ListsCheckpoints,
      DeploymentGoSized, System.Journal, System.Value, Once, LegOnce, T.Blocked;
    var w' := ApplyRecovery(sys, w, a);
    if w' != w {
      T.LegFacts(sys, w, a.l);
      NotForced(w, a.l);
      hide Inv;
      if !a.ok || w.waiting != {} {
        QuietStep(w, w', a.l, w'.legs[a.l], []);
      } else {
        var point := DurableReplayInput(sys.Journal(), a.checkpoints);
        var verdict := ReplayVerdict(sys.id, a.deployment, sys.Journal(), a.checkpoints, a.intents, false);
        T.ReplayPointFacts(sys, a.checkpoints, w.rows.checkpoints);
        T.VerdictIsExact(sys, a.deployment, a.checkpoints, a.intents, false);
        DecidedKeeps(sys, w, a.l, point.resumeIndex, verdict);
      }
    }
  }

  lemma NotForced(w: World, l: nat)
    requires Inv(w) && l < |w.legs|
    ensures w.legs[l].kind == Live || w.legs[l].kind == Recovered(false)
  {
    assert LegOnce(w.legs[l], l, w.lease, w.now, w.log);
  }

  lemma RecoveryKeeps(sys: System, w: World, a: Action)
    requires Inv(w) && T.WellFormed(sys) && T.Inv(sys, w) && Guarded(w, a) && sys.ttl > 0
    ensures Inv(ApplyRecovery(sys, w, a))
  {
    hide Inv, T.Inv, T.WellFormed;
    match a {
      case Scan(_, _) => ScanKeeps(sys, w, a);
      case Claim(l) => ClaimKeeps(sys, w, l);
      case Decide(_, _, _, _, _) => DecideKeeps(sys, w, a);
      case FailRun(_, _) => FailRunKeeps(sys, w, a);
      case PruneRun(_, _) => FailRunKeeps(sys, w, a);
      case _ =>
    }
  }

  lemma BeginCallKeeps(sys: System, w: World, l: nat, id: string, effect: Effect)
    requires Inv(w) && L.Inv(w) && T.Inv(sys, w)
    ensures Inv(ApplyLoop(sys, w, BeginCall(l, id, effect)))
  {
    var w' := ApplyLoop(sys, w, BeginCall(l, id, effect));
    if w' != w {
      T.Facts(sys, w, l);
      assert LegOnce(w.legs[l], l, w.lease, w.now, w.log);
      OnceOf(w);
      var e := CallBegan(l, w.legs[l].cursor.value.Index(), effect);
      hide Inv, L.Inv, T.Inv, T.RowsOk, T.OnTrack, LegOnce;
      if effect == SideEffecting {
        OnceGrows(w.log, e, l);
      } else {
        assert Once(w.log + [e]);
      }
      assert w'.legs == w.legs[l := w.legs[l]];
      EffectStep(w, w', l, w.legs[l], e);
    }
  }

  lemma OnceOf(w: World)
    requires Inv(w)
    ensures Once(w.log)
  {
  }

  lemma EndStepKeeps(sys: System, w: World, l: nat)
    requires Inv(w)
    ensures Inv(ApplyLoop(sys, w, EndStep(l)))
  {
    hide System.Checkpoint;
    var w' := ApplyLoop(sys, w, EndStep(l));
    if w' != w {
      assert LegOnce(w.legs[l], l, w.lease, w.now, w.log);
      assert w'.legs[l].cursor.value.Index() == w.legs[l].cursor.value.Index() + 1;
      AllSecure(w);
      hide Inv;
      LegStep(w, w', l, w'.legs[l], []);
    }
  }

  lemma AllSecure(w: World)
    requires Inv(w)
    ensures forall m | 0 <= m < |w.legs| && Acting(w.legs[m]) :: Secure(w.lease, w.now, w.legs[m])
  {
    forall m | 0 <= m < |w.legs| && Acting(w.legs[m])
      ensures Secure(w.lease, w.now, w.legs[m])
    {
      assert LegOnce(w.legs[m], m, w.lease, w.now, w.log);
    }
  }

  lemma StepKeeps(sys: System, w: World, a: Action)
    requires Inv(w) && (a.BeginStep? || a.Gate? || a.Suspend? || a.FailStep? || a.EndLoop?)
    ensures Inv(ApplyLoop(sys, w, a))
  {
    hide Inv;
    var w' := ApplyLoop(sys, w, a);
    if w' != w {
      var events := w'.log[|w.log|..];
      assert w'.log == w.log + events;
      QuietStep(w, w', a.l, w'.legs[a.l], events);
    }
  }

  lemma LoopKeeps(sys: System, w: World, a: Action)
    requires Inv(w) && L.Inv(w) && T.Inv(sys, w) && Guarded(w, a)
    ensures Inv(ApplyLoop(sys, w, a))
  {
    hide Inv, L.Inv, T.Inv;
    match a {
      case BeginCall(l, id, effect) => BeginCallKeeps(sys, w, l, id, effect);
      case EndCall(l, id) => SameLegs(w, ApplyLoop(sys, w, a));
      case EndStep(l) => EndStepKeeps(sys, w, l);
      case BeginStep(_) => StepKeeps(sys, w, a);
      case Gate(_) => StepKeeps(sys, w, a);
      case Suspend(_) => StepKeeps(sys, w, a);
      case FailStep(_) => StepKeeps(sys, w, a);
      case EndLoop(_) => StepKeeps(sys, w, a);
      case _ =>
    }
  }

  lemma ConfirmKeeps(sys: System, w: World, a: Action)
    requires Inv(w) && sys.ttl > 0 && a.Confirm?
    ensures Inv(ApplyTerminal(sys, w, a))
  {
    hide Inv;
    var w' := ApplyTerminal(sys, w, a);
    if w' != w {
      var events := w'.log[|w.log|..];
      assert w'.log == w.log + events;
      if Owns(w, w.legs[a.l], a.answer) {
        RenewStep(sys, w, w', a.l, w'.legs[a.l], events);
      } else {
        QuietStep(w, w', a.l, w'.legs[a.l], events);
      }
    }
  }

  lemma ProveKeeps(sys: System, w: World, a: Action)
    requires Inv(w) && sys.ttl > 0 && a.Prove?
    ensures Inv(ApplyTerminal(sys, w, a))
  {
    hide Inv;
    var w' := ApplyTerminal(sys, w, a);
    if w' != w {
      var events := w'.log[|w.log|..];
      assert w'.log == w.log + events;
      if Owns(w, w.legs[a.l], a.answer) {
        RenewStep(sys, w, w', a.l, w'.legs[a.l], events);
      } else {
        QuietStep(w, w', a.l, w'.legs[a.l], events);
      }
    }
  }

  lemma BeginTerminalKeeps(sys: System, w: World, l: nat)
    requires Inv(w) && L.Inv(w) && T.Inv(sys, w)
    ensures Inv(ApplyTerminal(sys, w, BeginTerminal(l)))
  {
    hide TerminalTool;
    var w' := ApplyTerminal(sys, w, BeginTerminal(l));
    if w' != w {
      T.Facts(sys, w, l);
      assert LegOnce(w.legs[l], l, w.lease, w.now, w.log);
      var c := w.legs[l].cursor.value;
      var e := TerminalBegan(l, |c.plan.steps|, c.current, TerminalTool(c.plan.terminal).Some?);
      assert c.Index() == sys.count == |c.plan.steps|;
      assert w'.log == w.log + [e];
      OnceOf(w);
      hide Inv, L.Inv, T.Inv, T.RowsOk, T.OnTrack, LegOnce;
      if e.effectful {
        OnceGrows(w.log, e, l);
      } else {
        assert Once(w.log + [e]);
      }
      EffectStep(w, w', l, w'.legs[l], e);
    }
  }

  lemma EndTerminalKeeps(sys: System, w: World, l: nat, ok: bool, definite: bool)
    requires Inv(w)
    ensures Inv(ApplyTerminal(sys, w, EndTerminal(l, ok, definite)))
  {
    hide TerminalTool;
    var w' := ApplyTerminal(sys, w, EndTerminal(l, ok, definite));
    if w' != w {
      hide Inv;
      QuietStep(w, w', l, w'.legs[l], if ok then [TerminalDone(l)] else []);
    }
  }

  lemma SettleKeeps(sys: System, w: World, a: Action)
    requires Inv(w) && (a.Settle? || a.StopRenewer?)
    ensures Inv(ApplyTerminal(sys, w, a))
  {
    hide Inv;
    var w' := ApplyTerminal(sys, w, a);
    if w' != w {
      var events := w'.log[|w.log|..];
      assert w'.log == w.log + events;
      QuietStep(w, w', a.l, w'.legs[a.l], events);
    }
  }

  lemma TerminalKeeps(sys: System, w: World, a: Action)
    requires Inv(w) && L.Inv(w) && T.Inv(sys, w) && Guarded(w, a) && sys.ttl > 0
    ensures Inv(ApplyTerminal(sys, w, a))
  {
    hide Inv, L.Inv, T.Inv;
    match a {
      case Confirm(_, _) => ConfirmKeeps(sys, w, a);
      case Prove(_, _) => ProveKeeps(sys, w, a);
      case BeginTerminal(l) => BeginTerminalKeeps(sys, w, l);
      case EndTerminal(l, ok, definite) => EndTerminalKeeps(sys, w, l, ok, definite);
      case Settle(_, _) => SettleKeeps(sys, w, a);
      case StopRenewer(_) => SettleKeeps(sys, w, a);
      case _ =>
    }
  }

  lemma ReleaseKeeps(sys: System, w: World, l: nat, reachable: bool)
    requires Inv(w) && L.Inv(w)
    ensures Inv(ApplyFinish(sys, w, ReleaseLease(l, reachable)))
  {
    hide Inv, L.Inv;
    var w' := ApplyFinish(sys, w, ReleaseLease(l, reachable));
    if w' != w {
      var events := w'.log[|w.log|..];
      assert w'.log == w.log + events;
      ReleaseStep(w, w', l, w'.legs[l], events);
    }
  }

  lemma OutcomeKeeps(sys: System, w: World, a: Action)
    requires Inv(w) && (a.ResolveKey? || a.Emit? || a.Save? || a.PruneJournal?)
    ensures Inv(ApplyFinish(sys, w, a))
  {
    hide Inv;
    var w' := ApplyFinish(sys, w, a);
    if w' != w {
      var events := w'.log[|w.log|..];
      assert w'.log == w.log + events;
      QuietStep(w, w', a.l, w'.legs[a.l], events);
    }
  }

  lemma FinishKeeps(sys: System, w: World, a: Action)
    requires Inv(w) && L.Inv(w)
    ensures Inv(ApplyFinish(sys, w, a))
  {
    hide Inv, L.Inv;
    match a {
      case ReleaseLease(l, reachable) => ReleaseKeeps(sys, w, l, reachable);
      case ResolveKey(_, _) => OutcomeKeeps(sys, w, a);
      case Emit(_, _) => OutcomeKeeps(sys, w, a);
      case Save(_, _) => OutcomeKeeps(sys, w, a);
      case PruneJournal(_, _) => OutcomeKeeps(sys, w, a);
      case _ =>
    }
  }

  lemma ApplyKeeps(sys: System, w: World, a: Action)
    requires Inv(w) && L.Inv(w) && T.Inv(sys, w) && T.WellFormed(sys) && Guarded(w, a) && sys.ttl > 0
    ensures Inv(Apply(sys, w, a))
  {
    hide Inv, L.Inv, T.Inv, T.WellFormed, Guarded, ApplyEnvironment, ApplyEntry, ApplyRecovery, ApplyLoop, ApplyTerminal, ApplyFinish;
    EnvironmentKeeps(sys, w, a);
    EntryKeeps(sys, w, a);
    RecoveryKeeps(sys, w, a);
    LoopKeeps(sys, w, a);
    TerminalKeeps(sys, w, a);
    FinishKeeps(sys, w, a);
  }

  lemma {:induction false} ExecKeeps(sys: System, w: World, acts: seq<Action>)
    requires T.WellFormed(sys) && sys.ttl > 0
    requires Inv(w) && L.Inv(w) && T.Inv(sys, w) && GuardedRun(sys, w, acts)
    ensures Inv(Exec(sys, w, acts))
    decreases |acts|
  {
    hide Inv, L.Inv, T.Inv, T.WellFormed, Guarded, Apply;
    if acts != [] {
      var n := |acts| - 1;
      var before := Exec(sys, w, acts[..n]);
      forall i | 0 <= i < n
        ensures Guarded(Exec(sys, w, acts[..n][..i]), acts[..n][i])
      {
        assert acts[..n][..i] == acts[..i];
      }
      ExecKeeps(sys, w, acts[..n]);
      L.ExecKeeps(sys, w, acts[..n]);
      T.ExecKeeps(sys, w, acts[..n]);
      assert Guarded(before, acts[n]);
      ApplyKeeps(sys, before, acts[n]);
    }
  }

  // ---------- the theorem ----------

  lemma InitIsOk(sys: System, holder: string, reserved: bool, now: int)
    ensures var w0 := Init(sys, holder, reserved, now);
            Inv(w0) && L.Inv(w0) && T.Inv(sys, w0) && !exists l | 0 <= l < |w0.legs| :: w0.legs[l].kind.Recovered?
  {
    T.InitHolds(sys, holder, reserved, now);
    hide T.Inv;
  }

  lemma GuardedHolds(sys: System, holder: string, reserved: bool, now: int, trace: seq<World>, acts: seq<Action>)
    requires T.WellFormed(sys) && sys.ttl > 0
    requires IsRun(sys, Init(sys, holder, reserved, now), trace, acts) && forall n | 0 <= n < |acts| :: Guarded(trace[n], acts[n])
    ensures Inv(trace[|acts|])
  {
    var w0 := Init(sys, holder, reserved, now);
    InitIsOk(sys, holder, reserved, now);
    hide Apply, Init, Inv, L.Inv, T.Inv, T.WellFormed, Guarded;
    RunEnds(sys, w0, trace, acts);
    forall n | 0 <= n < |acts|
      ensures Guarded(Exec(sys, w0, acts[..n]), acts[n])
    {
      RunIsExec(sys, w0, trace, acts, n);
      assert Guarded(trace[n], acts[n]);
    }
    ExecKeeps(sys, w0, acts);
  }

  /**
   In every run whose processes stop when they crash, without force or resumes from
   memory, whose decisions are all sheltered: two effects at one index are calls that one
   leg made in one step. No side-effecting call is repeated by a later leg, and an
   effectful terminal begins at most once.
   */
  lemma AtMostOnce(sys: System, holder: string, reserved: bool, now: int, trace: seq<World>, acts: seq<Action>)
    requires T.WellFormed(sys) && sys.ttl > 0
    requires IsRun(sys, Init(sys, holder, reserved, now), trace, acts) && forall n | 0 <= n < |acts| :: Guarded(trace[n], acts[n])
    ensures Once(trace[|acts|].log)
  {
    GuardedHolds(sys, holder, reserved, now, trace, acts);
    OnceOf(trace[|acts|]);
  }
}
