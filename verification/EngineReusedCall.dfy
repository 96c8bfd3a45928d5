/**
 Why a step must not use a call id twice: an intent row is keyed by its call id, so an
 idempotent call hides the side-effecting one before it. Adapters that number the calls of
 each response from zero do that in every step with two such turns.
 */
module EngineReusedCall {
  import opened Wrappers
  import opened PlanHash
  import opened Namespaces
  import opened Recovery
  import opened Leases
  import opened Engine
  import opened EngineOnce
  import opened EngineEffects
  import S = EngineStaleClaim
  import T = EngineTransparency

  /**
   Two turns of one step use the same id, for a side effect and then for an idempotent
   call; both complete. The process crashes, its lease expires, and the run is recovered.
   */
  function ReuseRun(sys: System, id: string, scanner: string, d: Deployment): seq<Action> {
    [StartRun(0, true, true), AcquireLease(0, true), WriteJournal(0, true), BeginStep(0),
     BeginCall(0, id, SideEffecting), EndCall(0, id), BeginCall(0, id, Idempotent), EndCall(0, id),
     Crash(0), Tick(if sys.ttl < 0 then 0 else sys.ttl + 1), Scan(scanner, false), Claim(1),
     Decide(1, d, [], [ToolIntent(0, Idempotent, true)], true), BeginStep(1), BeginCall(1, id, SideEffecting)]
  }

  /** The place in the run of the call that hides the side effect. */
  const HIDES: nat := 6

  // ---------- where the run stands ----------

  /** One live leg at the first step, whose only intents are the given ones. */
  predicate Calling(sys: System, w: World, phase: Phase, intents: map<string, ToolIntent>) {
    && |w.legs| == 1 && w.legs[0].alive && w.legs[0].phase == phase && w.legs[0].kind == Live
    && w.legs[0].cursor == Some(Cursor(sys.plan, sys.plan.steps, 0, 0, 0, sys.input, false))
    && w.waiting == {} && w.status == Running && w.rows == Rows(Some(sys.Journal()), map[], intents)
    && w.lease.Some? && w.lease.value.expiresAt == w.now + sys.ttl
  }

  predicate Called(w: World) {
    CallBegan(0, 0, SideEffecting) in w.log
  }

  predicate Hidden(sys: System, w: World, id: string) {
    w.waiting == {} && w.status == Running
    && w.rows == Rows(Some(sys.Journal()), map[], map[id := ToolIntent(0, Idempotent, true)]) && Called(w)
  }

  lemma EntryRuns(sys: System, holder: string, now: int)
    ensures var w := Exec(sys, Init(sys, holder, false, now), [StartRun(0, true, true), AcquireLease(0, true), WriteJournal(0, true)]);
            Calling(sys, w, Looping, map[])
  {
    hide System.Journal, Apply;
    var acts := [StartRun(0, true, true), AcquireLease(0, true), WriteJournal(0, true)];
    var w0 := Init(sys, holder, false, now);
    S.ExecHead(sys, w0, acts);
    S.StartStep(sys, holder, false, now);
    var w1 := Apply(sys, w0, acts[0]);
    S.ExecHead(sys, w1, acts[1..]);
    S.AcquireStep(sys, w1, holder);
    var w2 := Apply(sys, w1, acts[1]);
    S.ExecHead(sys, w2, acts[2..]);
    S.JournalStep(sys, w2, holder);
    assert acts[2..][1..] == [];
  }

  lemma StepBegins(sys: System, w: World)
    requires Calling(sys, w, Looping, map[]) && sys.count > 0
    ensures Calling(sys, Apply(sys, w, BeginStep(0)), InStep, map[])
  {
    hide System.Journal;
  }

  lemma CallBegins(sys: System, w: World, intents: map<string, ToolIntent>, id: string, effect: Effect)
    requires Calling(sys, w, InStep, intents) && effect != ReadOnly
    ensures var w' := Apply(sys, w, BeginCall(0, id, effect));
            && Calling(sys, w', InStep, intents[id := ToolIntent(0, effect, false)])
            && (effect == SideEffecting || Called(w) ==> Called(w'))
  {
    hide System.Journal;
  }

  lemma CallEnds(sys: System, w: World, intents: map<string, ToolIntent>, id: string)
    requires Calling(sys, w, InStep, intents) && id in intents && Called(w)
    ensures var w' := Apply(sys, w, EndCall(0, id));
            Calling(sys, w', InStep, intents[id := intents[id].(completed := true)]) && Called(w')
  {
    hide System.Journal;
  }

  lemma Crashes(sys: System, w: World, id: string)
    requires Calling(sys, w, InStep, map[id := ToolIntent(0, Idempotent, true)]) && Called(w)
    ensures var w' := Apply(sys, w, Crash(0));
            && Hidden(sys, w', id) && |w'.legs| == 1 && !w'.legs[0].alive
            && w'.lease.Some? && w'.lease.value.expiresAt == w'.now + sys.ttl
  {
    hide System.Journal;
  }

  lemma Expires(sys: System, w: World, id: string)
    requires Hidden(sys, w, id) && |w.legs| == 1 && !w.legs[0].alive
    requires w.lease.Some? && w.lease.value.expiresAt == w.now + sys.ttl
    ensures var w' := Apply(sys, w, Tick(if sys.ttl < 0 then 0 else sys.ttl + 1));
            Hidden(sys, w', id) && |w'.legs| == 1 && Acquirable(w'.lease, w'.now)
  {
    hide System.Journal;
  }

  lemma Scans(sys: System, w: World, id: string, scanner: string)
    requires Hidden(sys, w, id) && |w.legs| == 1 && Acquirable(w.lease, w.now)
    ensures var w' := Apply(sys, w, Scan(scanner, false));
            && Hidden(sys, w', id) && Acquirable(w'.lease, w'.now)
            && |w'.legs| == 2 && w'.legs[1] == NewLeg(Recovered(false), scanner, Some(sys.Journal()), Scanned)
  {
    hide System.Journal;
  }

  predicate Claimed(sys: System, w: World, id: string) {
    && Hidden(sys, w, id) && |w.legs| == 2 && w.At(1, Deciding) && w.legs[1].kind == Recovered(false)
    && w.legs[1].snapshot == Some(sys.Journal())
  }

  lemma Claims(sys: System, w: World, id: string, scanner: string)
    requires Hidden(sys, w, id) && Acquirable(w.lease, w.now)
    requires |w.legs| == 2 && w.legs[1] == NewLeg(Recovered(false), scanner, Some(sys.Journal()), Scanned)
    ensures Claimed(sys, Apply(sys, w, Claim(1)), id)
  {
    hide System.Journal;
  }

  /** The completed idempotent row blocks nothing: the step is replayed from its start. */
  lemma VerdictReplays(sys: System, d: Deployment)
    requires T.WellFormed(sys) && DeploymentGoSized(d) && T.Deployed(sys, d) && !DurableRunClientGone(sys.plan)
    requires sys.redact(sys.input) == sys.input
    ensures ReplayVerdict(sys.id, d, sys.Journal(), [], [ToolIntent(0, Idempotent, true)], false)
              == Verdict.Replay(sys.plan, ReplayPoint(0, sys.input, false))
  {
    hide DurablePlanHash, DurablePlanKey, ReplayVerdict, T.WellFormed, DeploymentGoSized;
    T.VerdictIsExact(sys, d, [], [ToolIntent(0, Idempotent, true)], false);
  }

  lemma Decides(sys: System, w: World, id: string, d: Deployment)
    requires T.WellFormed(sys) && DeploymentGoSized(d) && T.Deployed(sys, d) && !DurableRunClientGone(sys.plan)
    requires sys.redact(sys.input) == sys.input && Claimed(sys, w, id)
    ensures var w' := Apply(sys, w, Decide(1, d, [], [ToolIntent(0, Idempotent, true)], true));
            && w'.Inside(1, Looping) && Called(w')
            && w'.legs[1].cursor == Some(Cursor(sys.plan, sys.plan.steps, 0, 0, 0, sys.input, false))
  {
    hide System.Journal, ReplayVerdict, DeploymentGoSized, T.WellFormed;
    VerdictReplays(sys, d);
    ListsOne(id, ToolIntent(0, Idempotent, true));
    assert sys.plan.steps[0..] == sys.plan.steps;
    var w' := Apply(sys, w, Decide(1, d, [], [ToolIntent(0, Idempotent, true)], true));
    assert w' == Decided(w, 1, DurableReplayInput(sys.Journal(), []).resumeIndex, Verdict.Replay(sys.plan, ReplayPoint(0, sys.input, false)));
  }

  lemma ListsOne(id: string, intent: ToolIntent)
    ensures ListsIntents([intent], map[id := intent])
  {
    assert map[id := intent][id] in map[id := intent].Values;
  }

  lemma StepsAgain(sys: System, w: World)
    requires w.Inside(1, Looping) && Called(w) && sys.count > 0
    requires w.legs[1].cursor == Some(Cursor(sys.plan, sys.plan.steps, 0, 0, 0, sys.input, false))
    ensures var w' := Apply(sys, w, BeginStep(1));
            && w'.Inside(1, InStep) && Called(w')
            && w'.legs[1].cursor == Some(Cursor(sys.plan, sys.plan.steps, 0, 0, 0, sys.input, false))
  {
  }

  lemma CallsAgain(sys: System, w: World, id: string)
    requires w.Inside(1, InStep) && Called(w)
    requires w.legs[1].cursor == Some(Cursor(sys.plan, sys.plan.steps, 0, 0, 0, sys.input, false))
    ensures !Once(Apply(sys, w, BeginCall(1, id, SideEffecting)).log)
  {
    var log := Apply(sys, w, BeginCall(1, id, SideEffecting)).log;
    var p :| 0 <= p < |w.log| && w.log[p] == CallBegan(0, 0, SideEffecting);
    var q := |log| - 1;
    assert log[p] == w.log[p] && log[q] == CallBegan(1, 0, SideEffecting);
    assert Again(log[p], log[q]);
  }

  // ---------- the run ----------

  /** The world in front of the n-th action. */
  ghost function Before(sys: System, holder: string, now: int, acts: seq<Action>, n: nat): World
    requires n <= |acts|
  {
    Exec(sys, Init(sys, holder, false, now), acts[..n])
  }

  lemma NextWorld(sys: System, holder: string, now: int, acts: seq<Action>, n: nat)
    requires n < |acts|
    ensures Before(sys, holder, now, acts, n + 1) == Apply(sys, Before(sys, holder, now, acts, n), acts[n])
  {
    hide Apply;
    assert acts[..n + 1][..n] == acts[..n];
  }

  /** Up to the crash: the side effect has begun, and its row is gone. */
  lemma CallsRun(sys: System, holder: string, scanner: string, now: int, id: string, d: Deployment)
    requires sys.count > 0
    ensures var acts := ReuseRun(sys, id, scanner, d);
            && Calling(sys, Before(sys, holder, now, acts, 4), InStep, map[])
            && Calling(sys, Before(sys, holder, now, acts, 8), InStep, map[id := ToolIntent(0, Idempotent, true)])
            && Called(Before(sys, holder, now, acts, 8))
  {
    hide Apply, Calling, Called, Before, System.Journal;
    var acts := ReuseRun(sys, id, scanner, d);
    BeforeIsExec(sys, holder, now, acts, 3);
    assert acts[..3] == [StartRun(0, true, true), AcquireLease(0, true), WriteJournal(0, true)];
    EntryRuns(sys, holder, now);
    NextWorld(sys, holder, now, acts, 3);
    StepBegins(sys, Before(sys, holder, now, acts, 3));
    NextWorld(sys, holder, now, acts, 4);
    CallBegins(sys, Before(sys, holder, now, acts, 4), map[], id, SideEffecting);
    NextWorld(sys, holder, now, acts, 5);
    CallEnds(sys, Before(sys, holder, now, acts, 5), map[][id := ToolIntent(0, SideEffecting, false)], id);
    NextWorld(sys, holder, now, acts, 6);
    var first := map[][id := ToolIntent(0, SideEffecting, false)][id := ToolIntent(0, SideEffecting, true)];
    CallBegins(sys, Before(sys, holder, now, acts, 6), first, id, Idempotent);
    NextWorld(sys, holder, now, acts, 7);
    CallEnds(sys, Before(sys, holder, now, acts, 7), first[id := ToolIntent(0, Idempotent, false)], id);
    assert first[id := ToolIntent(0, Idempotent, false)][id := ToolIntent(0, Idempotent, true)] == map[id := ToolIntent(0, Idempotent, true)];
  }

  lemma BeforeIsExec(sys: System, holder: string, now: int, acts: seq<Action>, n: nat)
    requires n <= |acts|
    ensures Before(sys, holder, now, acts, n) == Exec(sys, Init(sys, holder, false, now), acts[..n])
  {
  }

  /** Up to the decision: the journal stands, and nobody acts while the lease expires. */
  lemma RecoveryRuns(sys: System, holder: string, scanner: string, now: int, id: string, d: Deployment)
    requires sys.count > 0
    ensures var acts := ReuseRun(sys, id, scanner, d);
            && |Before(sys, holder, now, acts, 9).legs| == 1 && !Before(sys, holder, now, acts, 9).legs[0].alive
            && Claimed(sys, Before(sys, holder, now, acts, 12), id)
  {
    hide Apply, Calling, Called, Hidden, Before, System.Journal;
    var acts := ReuseRun(sys, id, scanner, d);
    CallsRun(sys, holder, scanner, now, id, d);
    NextWorld(sys, holder, now, acts, 8);
    Crashes(sys, Before(sys, holder, now, acts, 8), id);
    NextWorld(sys, holder, now, acts, 9);
    Expires(sys, Before(sys, holder, now, acts, 9), id);
    NextWorld(sys, holder, now, acts, 10);
    Scans(sys, Before(sys, holder, now, acts, 10), id, scanner);
    NextWorld(sys, holder, now, acts, 11);
    Claims(sys, Before(sys, holder, now, acts, 11), id, scanner);
  }

  lemma OrderlyBut(sys: System, holder: string, scanner: string, now: int, id: string, d: Deployment, n: nat)
    requires sys.count > 0
    requires n < |ReuseRun(sys, id, scanner, d)| && n != HIDES
    ensures var acts := ReuseRun(sys, id, scanner, d); Orderly(Before(sys, holder, now, acts, n), acts[n])
  {
    hide Before, System.Journal;
    CallsRun(sys, holder, scanner, now, id, d);
    RecoveryRuns(sys, holder, scanner, now, id, d);
  }

  /**
   For every plan with a step and a client that can be served: in the run above the journal
   stands, every process is crash-stop and nothing is forced or resumed; the one action
   amiss is the call that uses the id again, and the side effect begins twice.
   */
  lemma ReusedCallIdRepeats(sys: System, holder: string, scanner: string, now: int, id: string, d: Deployment)
    requires T.WellFormed(sys) && DeploymentGoSized(d) && T.Deployed(sys, d) && !DurableRunClientGone(sys.plan)
    requires sys.count > 0 && sys.redact(sys.input) == sys.input
    ensures var acts := ReuseRun(sys, id, scanner, d);
            && !Once(Exec(sys, Init(sys, holder, false, now), acts).log)
            && forall n | 0 <= n < |acts| && n != HIDES :: Orderly(Exec(sys, Init(sys, holder, false, now), acts[..n]), acts[n])
  {
    hide Apply, Exec, Init, Orderly, Claimed, System.Journal, T.WellFormed, DeploymentGoSized, Once;
    var acts := ReuseRun(sys, id, scanner, d);
    RecoveryRuns(sys, holder, scanner, now, id, d);
    NextWorld(sys, holder, now, acts, 12);
    Decides(sys, Before(sys, holder, now, acts, 12), id, d);
    NextWorld(sys, holder, now, acts, 13);
    StepsAgain(sys, Before(sys, holder, now, acts, 13));
    NextWorld(sys, holder, now, acts, 14);
    CallsAgain(sys, Before(sys, holder, now, acts, 14), id);
    assert acts[..15] == acts;
    forall n | 0 <= n < |acts| && n != HIDES
      ensures Orderly(Exec(sys, Init(sys, holder, false, now), acts[..n]), acts[n])
    {
      OrderlyBut(sys, holder, scanner, now, id, d, n);
    }
  }
}
