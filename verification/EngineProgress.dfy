/**
 What the engine can always bring to an end: a live run from its start, and a claimed run
 from any world in which nothing forbids its replay.
 */
module EngineProgress {
  import opened Wrappers
  import opened Plans
  import opened Recovery
  import opened Leases
  import opened Engine
  import EngineReplay
  import L = EngineLeases
  import S = EngineStaleClaim
  import T = EngineTransparency

  // ---------- from the last step to the end ----------

  /** The leg is behind its last step, owns its lease and has lost nothing. */
  predicate On(sys: System, w: World, l: nat, phase: Phase) {
    && w.Inside(l, phase) && w.legs[l].cursor.value.plan == sys.plan
    && w.legs[l].cursor.value.local == |w.legs[l].cursor.value.steps|
    && w.legs[l].fence > 0 && !w.legs[l].lost && Holds(w.lease, w.legs[l].holder, w.legs[l].fence)
  }

  /** One action of the leg: nothing but its phase, the lease's expiry, the key and the intents moves. */
  predicate Onward(sys: System, w: World, w': World, l: nat, phase: Phase) {
    && On(sys, w', l, phase) && l < |w.legs| && w'.legs[l].cursor == w.legs[l].cursor && w'.legs[l].kind == w.legs[l].kind
    && w'.now == w.now && w'.waiting == w.waiting && w'.rows.journal == w.rows.journal && w.log <= w'.log
    && (w'.key == w.key || w'.key == w.ResolvedKey(true))
  }

  lemma EndLoopGoes(sys: System, w: World, l: nat)
    requires On(sys, w, l, Looping)
    ensures Onward(sys, w, Apply(sys, w, EndLoop(l)), l, Confirming)
  {
    hide World.ResolvedKey;
  }

  lemma ConfirmGoesOn(sys: System, w: World, l: nat)
    requires On(sys, w, l, Confirming)
    ensures Onward(sys, w, Apply(sys, w, Confirm(l, Answered)), l, if w.legs[l].kind.Live? && sys.bare then Stopping else AtTerminal)
  {
    hide World.ResolvedKey;
  }

  lemma BeginTerminalGoesOn(sys: System, w: World, l: nat)
    requires On(sys, w, l, AtTerminal)
    ensures var w', current := Apply(sys, w, BeginTerminal(l)), w.legs[l].cursor.value.current;
            Onward(sys, w, w', l, InTerminal)
            && exists effectful :: TerminalBegan(l, sys.count, current, effectful) in w'.log
  {
    hide World.ResolvedKey, TerminalTool;
    var w', c := Apply(sys, w, BeginTerminal(l)), w.legs[l].cursor.value;
    assert w'.log[|w.log|] == TerminalBegan(l, sys.count, c.current, TerminalTool(c.plan.terminal).Some?);
  }

  lemma EndTerminalGoesOn(sys: System, w: World, l: nat)
    requires On(sys, w, l, InTerminal)
    ensures Onward(sys, w, Apply(sys, w, EndTerminal(l, true, true)), l, Settling)
  {
    hide World.ResolvedKey, TerminalTool;
  }

  lemma SettleGoesOn(sys: System, w: World, l: nat)
    requires On(sys, w, l, Settling)
    ensures var w' := Apply(sys, w, Settle(l, true)); Onward(sys, w, w', l, Stopping) && w'.key == w.ResolvedKey(true)
  {
    hide World.ResolvedKey;
  }

  lemma StopGoesOn(sys: System, w: World, l: nat)
    requires On(sys, w, l, Stopping)
    ensures Onward(sys, w, Apply(sys, w, StopRenewer(l)), l, Proving)
  {
    hide World.ResolvedKey;
  }

  lemma ProveGoesOn(sys: System, w: World, l: nat)
    requires On(sys, w, l, Proving)
    ensures Onward(sys, w, Apply(sys, w, Prove(l, Answered)), l, Resolving(true, true))
  {
    hide World.ResolvedKey;
  }

  lemma ResolveGoesOn(sys: System, w: World, l: nat)
    requires On(sys, w, l, Resolving(true, true))
    ensures var w' := Apply(sys, w, ResolveKey(l, true)); Onward(sys, w, w', l, Emitting(true, true)) && w'.key == w.ResolvedKey(true)
  {
    hide World.ResolvedKey;
  }

  lemma EmitGoesOn(sys: System, w: World, l: nat)
    requires On(sys, w, l, Emitting(true, true))
    ensures Onward(sys, w, Apply(sys, w, Emit(l, true)), l, Saving(true, true))
  {
    hide World.ResolvedKey;
  }

  lemma SaveGoesOn(sys: System, w: World, l: nat)
    requires On(sys, w, l, Saving(true, true))
    ensures var w' := Apply(sys, w, Save(l, true)); Onward(sys, w, w', l, Pruning(true)) && w'.status == Completed
  {
    hide World.ResolvedKey;
  }

  /** The run is over: completed, its tables gone, its key succeeded and its lease free. */
  predicate Over(w: World) {
    && w.status == Completed && w.rows == NO_ROWS && Acquirable(w.lease, w.now)
    && (w.key.Some? && w.key.value.mine ==> w.key.value.outcome != Pending)
  }

  lemma PruneGoesOn(sys: System, w: World, l: nat)
    requires On(sys, w, l, Pruning(true)) && w.status == Completed && w.waiting == {} && w.rows.journal.Some?
    ensures var w' := Apply(sys, w, PruneJournal(l, true));
            && On(sys, w', l, Releasing) && w'.status == Completed && w'.rows == NO_ROWS && w'.key == w.key && w.log <= w'.log
  {
  }

  lemma ReleaseEnds(sys: System, w: World, l: nat)
    requires On(sys, w, l, Releasing) && w.status == Completed && w.rows == NO_ROWS
    requires w.key.Some? && w.key.value.mine ==> w.key.value.outcome != Pending
    ensures var w' := Apply(sys, w, ReleaseLease(l, true)); Over(w') && w.log <= w'.log && w'.key == w.key
  {
  }

  lemma PruneAndRelease(sys: System, w: World, l: nat)
    requires On(sys, w, l, Pruning(true)) && w.status == Completed && w.waiting == {} && w.rows.journal.Some?
    requires w.key.Some? && w.key.value.mine ==> w.key.value.outcome != Pending
    ensures var w' := Apply(sys, Apply(sys, w, PruneJournal(l, true)), ReleaseLease(l, true)); Over(w') && w.log <= w'.log && w'.key == w.key
  {
    hide Apply, On, Over;
    PruneGoesOn(sys, w, l);
    ReleaseEnds(sys, Apply(sys, w, PruneJournal(l, true)), l);
  }

  lemma OnwardTwice(sys: System, w: World, w1: World, w2: World, l: nat, phase: Phase, phase': Phase)
    requires Onward(sys, w, w1, l, phase) && Onward(sys, w1, w2, l, phase')
    ensures Onward(sys, w, w2, l, phase')
  {
  }

  /** Loop, confirmation and terminal. */
  function Delivery(l: nat): seq<Action> {
    [EndLoop(l), Confirm(l, Answered), BeginTerminal(l), EndTerminal(l, true, true), Settle(l, true)]
  }

  lemma Delivers(sys: System, w: World, l: nat)
    requires On(sys, w, l, Looping) && !(w.legs[l].kind.Live? && sys.bare)
    ensures var w' := Exec(sys, w, Delivery(l));
            Onward(sys, w, w', l, Stopping)
            && exists effectful :: TerminalBegan(l, sys.count, w.legs[l].cursor.value.current, effectful) in w'.log
  {
    hide Apply, On, Onward, World.ResolvedKey;
    var acts := Delivery(l);
    EndLoopGoes(sys, w, l);
    var w1 := Apply(sys, w, acts[0]);
    OnwardFacts(sys, w, w1, l, Confirming);
    ConfirmGoesOn(sys, w1, l);
    var w2 := Apply(sys, w1, acts[1]);
    OnwardTwice(sys, w, w1, w2, l, Confirming, AtTerminal);
    OnwardFacts(sys, w, w2, l, AtTerminal);
    BeginTerminalGoesOn(sys, w2, l);
    var w3 := Apply(sys, w2, acts[2]);
    OnwardTwice(sys, w, w2, w3, l, AtTerminal, InTerminal);
    OnwardFacts(sys, w, w3, l, InTerminal);
    EndTerminalGoesOn(sys, w3, l);
    var w4 := Apply(sys, w3, acts[3]);
    OnwardTwice(sys, w, w3, w4, l, InTerminal, Settling);
    OnwardFacts(sys, w, w4, l, Settling);
    OnwardFacts(sys, w3, w4, l, Settling);
    SettleGoesOn(sys, w4, l);
    var w5 := Apply(sys, w4, acts[4]);
    OnwardTwice(sys, w, w4, w5, l, Settling, Stopping);
    OnwardFacts(sys, w4, w5, l, Stopping);
    FiveActions(sys, w, acts);
    assert forall e | e in w3.log :: e in w5.log;
  }

  lemma OnwardFacts(sys: System, w: World, w': World, l: nat, phase: Phase)
    requires Onward(sys, w, w', l, phase)
    ensures On(sys, w', l, phase) && w.log <= w'.log && w'.waiting == w.waiting && w'.rows.journal == w.rows.journal
    ensures l < |w.legs| && l < |w'.legs| && w'.legs[l].kind == w.legs[l].kind && w'.legs[l].cursor == w.legs[l].cursor
    ensures w.legs[l].cursor.Some?
  {
  }

  lemma FiveActions(sys: System, w: World, acts: seq<Action>)
    requires |acts| == 5
    ensures Exec(sys, w, acts) == Apply(sys, Apply(sys, Apply(sys, Apply(sys, Apply(sys, w, acts[0]), acts[1]), acts[2]), acts[3]), acts[4])
  {
    hide Apply;
    S.ExecHead(sys, w, acts);
    S.ExecHead(sys, Apply(sys, w, acts[0]), acts[1..]);
    S.ExecHead(sys, Apply(sys, Apply(sys, w, acts[0]), acts[1]), acts[2..]);
    S.ExecHead(sys, Apply(sys, Apply(sys, Apply(sys, w, acts[0]), acts[1]), acts[2]), acts[3..]);
    S.ExecHead(sys, Apply(sys, Apply(sys, Apply(sys, Apply(sys, w, acts[0]), acts[1]), acts[2]), acts[3]), acts[4..]);
    assert acts[4..][1..] == [];
  }

  /** Proof, outcome, event and status. */
  function Finish(l: nat): seq<Action> {
    [StopRenewer(l), Prove(l, Answered), ResolveKey(l, true), Emit(l, true), Save(l, true)]
  }

  lemma Finishes(sys: System, w: World, l: nat)
    requires On(sys, w, l, Stopping)
    ensures var w' := Exec(sys, w, Finish(l));
            && Onward(sys, w, w', l, Pruning(true)) && w'.status == Completed
            && (w'.key.Some? && w'.key.value.mine ==> w'.key.value.outcome != Pending)
  {
    hide Apply, On, Onward, World.ResolvedKey;
    var acts := Finish(l);
    StopGoesOn(sys, w, l);
    var w1 := Apply(sys, w, acts[0]);
    OnwardFacts(sys, w, w1, l, Proving);
    ProveGoesOn(sys, w1, l);
    var w2 := Apply(sys, w1, acts[1]);
    OnwardTwice(sys, w, w1, w2, l, Proving, Resolving(true, true));
    OnwardFacts(sys, w, w2, l, Resolving(true, true));
    ResolveGoesOn(sys, w2, l);
    var w3 := Apply(sys, w2, acts[2]);
    OnwardTwice(sys, w, w2, w3, l, Resolving(true, true), Emitting(true, true));
    OnwardFacts(sys, w, w3, l, Emitting(true, true));
    EmitGoesOn(sys, w3, l);
    var w4 := Apply(sys, w3, acts[3]);
    OnwardTwice(sys, w, w3, w4, l, Emitting(true, true), Saving(true, true));
    OnwardFacts(sys, w, w4, l, Saving(true, true));
    SaveGoesOn(sys, w4, l);
    var w5 := Apply(sys, w4, acts[4]);
    OnwardTwice(sys, w, w4, w5, l, Saving(true, true), Pruning(true));
    FiveActions(sys, w, acts);
    KeyIsResolved(sys, w2, w3, w4, w5, l);
  }

  lemma KeyIsResolved(sys: System, w2: World, w3: World, w4: World, w5: World, l: nat)
    requires w3.key == w2.ResolvedKey(true)
    requires Onward(sys, w3, w4, l, Saving(true, true)) && Onward(sys, w4, w5, l, Pruning(true))
    ensures w5.key.Some? && w5.key.value.mine ==> w5.key.value.outcome != Pending
  {
    hide On;
  }

  lemma ToStop(sys: System, w: World, l: nat) returns (first: seq<Action>)
    requires On(sys, w, l, Looping)
    ensures var w' := Exec(sys, w, first);
            && Onward(sys, w, w', l, Stopping)
            && (!(w.legs[l].kind.Live? && sys.bare) ==>
                  exists effectful :: TerminalBegan(l, sys.count, w.legs[l].cursor.value.current, effectful) in w'.log)
  {
    var bare := w.legs[l].kind.Live? && sys.bare;
    hide Apply, On, Onward, Delivery, Exec;
    if bare {
      first := [EndLoop(l), Confirm(l, Answered)];
      BareGoes(sys, w, l);
    } else {
      first := Delivery(l);
      Delivers(sys, w, l);
    }
  }

  /** From behind its last step a leg that owns its lease can complete the run. */
  lemma Completes(sys: System, w: World, l: nat) returns (acts: seq<Action>)
    requires On(sys, w, l, Looping) && w.waiting == {} && w.rows.journal.Some?
    ensures var w' := Exec(sys, w, acts);
            && Over(w') && w.log <= w'.log
            && (!(w.legs[l].kind.Live? && sys.bare) ==>
                  exists effectful :: TerminalBegan(l, sys.count, w.legs[l].cursor.value.current, effectful) in w'.log)
  {
    hide Apply, On, Onward, World.ResolvedKey, Over, Delivery, Finish, Exec;
    var first := ToStop(sys, w, l);
    var w1 := Exec(sys, w, first);
    OnwardFacts(sys, w, w1, l, Stopping);
    Finishes(sys, w1, l);
    var w2 := Exec(sys, w1, Finish(l));
    OnwardFacts(sys, w1, w2, l, Pruning(true));
    PruneAndRelease(sys, w2, l);
    var last := [PruneJournal(l, true), ReleaseLease(l, true)];
    TwoActions(sys, w2, PruneJournal(l, true), ReleaseLease(l, true));
    acts := first + (Finish(l) + last);
    ExecJoins(sys, w, first, Finish(l) + last);
    ExecJoins(sys, w1, Finish(l), last);
    assert forall e | e in w1.log :: e in Exec(sys, w, acts).log;
  }

  lemma TwoActions(sys: System, w: World, a: Action, b: Action)
    ensures Exec(sys, w, [a, b]) == Apply(sys, Apply(sys, w, a), b)
  {
    hide Apply;
    S.ExecHead(sys, w, [a, b]);
    S.ExecHead(sys, Apply(sys, w, a), [a, b][1..]);
    assert [a, b][1..][1..] == [];
  }

  lemma BareGoes(sys: System, w: World, l: nat)
    requires On(sys, w, l, Looping) && w.legs[l].kind.Live? && sys.bare
    ensures Onward(sys, w, Exec(sys, w, [EndLoop(l), Confirm(l, Answered)]), l, Stopping)
  {
    hide Apply, On, Onward;
    EndLoopGoes(sys, w, l);
    var w1 := Apply(sys, w, EndLoop(l));
    OnwardFacts(sys, w, w1, l, Confirming);
    ConfirmGoesOn(sys, w1, l);
    OnwardTwice(sys, w, w1, Apply(sys, w1, Confirm(l, Answered)), l, Confirming, Stopping);
    TwoActions(sys, w, EndLoop(l), Confirm(l, Answered));
  }

  // ---------- the live run ----------

  predicate Begins(sys: System, w: World, l: nat, output: string) {
    exists effectful :: TerminalBegan(l, sys.count, output, effectful) in w.log
  }

  /** A leg at the head of its steps that owns its lease completes the run with the fold's value. */
  lemma CompletesFrom(sys: System, w: World, l: nat, k: nat) returns (acts: seq<Action>)
    requires EngineReplay.Stands(sys, w, l, k, Looping) && k <= sys.count && w.waiting == {} && w.rows.journal.Some?
    requires w.legs[l].fence > 0 && !w.legs[l].lost && Holds(w.lease, w.legs[l].holder, w.legs[l].fence)
    ensures var w' := Exec(sys, w, acts);
            Over(w') && (!(w.legs[l].kind.Live? && sys.bare) ==> Begins(sys, w', l, sys.Value(sys.count)))
  {
    hide Apply, On, Exec, Over, T.OnTrack, System.Value;
    var steps := PassRest(sys, w, l, k);
    var w1 := Exec(sys, w, steps);
    StandsOn(sys, w, w1, l);
    var rest := Completes(sys, w1, l);
    acts := steps + rest;
    ExecJoins(sys, w, steps, rest);
  }

  /** As EngineReplay.PassSteps to the end of the plan, with the approvals and the journal in view. */
  lemma PassRest(sys: System, w: World, l: nat, k: nat) returns (acts: seq<Action>)
    requires EngineReplay.Stands(sys, w, l, k, Looping) && k <= sys.count && w.waiting == {} && w.rows.journal.Some?
    ensures var w' := Exec(sys, w, acts);
            EngineReplay.Same(w, w', l) && EngineReplay.Stands(sys, w', l, sys.count, Looping) && w'.waiting == {} && w'.rows.journal.Some?
    decreases sys.count - k
  {
    hide EngineReplay.Stands, EngineReplay.Same, Apply;
    if k == sys.count {
      acts := [];
      EngineReplay.StaysSame(sys, w, l, k);
    } else {
      EngineReplay.PassStep(sys, w, l, k);
      PassKeeps(sys, w, l);
      var w1 := Apply(sys, w, BeginStep(l));
      var w2 := Apply(sys, w1, EndStep(l));
      var rest := PassRest(sys, w2, l, k + 1);
      acts := [BeginStep(l)] + ([EndStep(l)] + rest);
      ExecCons(sys, w, BeginStep(l), [EndStep(l)] + rest);
      ExecCons(sys, w1, EndStep(l), rest);
      EngineReplay.SameTwice(w, w2, Exec(sys, w, acts), l);
    }
  }

  lemma PassKeeps(sys: System, w: World, l: nat)
    ensures var w' := Apply(sys, Apply(sys, w, BeginStep(l)), EndStep(l));
            w'.waiting == w.waiting && w'.rows.journal == w.rows.journal
  {
  }

  lemma StandsOn(sys: System, w: World, w': World, l: nat)
    requires EngineReplay.Same(w, w', l) && EngineReplay.Stands(sys, w', l, sys.count, Looping)
    requires w.legs[l].fence > 0 && !w.legs[l].lost && Holds(w.lease, w.legs[l].holder, w.legs[l].fence)
    ensures On(sys, w', l, Looping) && w'.legs[l].cursor.value.current == sys.Value(sys.count) && w'.legs[l].kind == w.legs[l].kind
  {
  }

  lemma LiveEntry(sys: System, holder: string, reserved: bool, now: int)
    ensures var w := Exec(sys, Init(sys, holder, reserved, now), [StartRun(0, true, true), AcquireLease(0, true), WriteJournal(0, true)]);
            && EngineReplay.Stands(sys, w, 0, 0, Looping) && w.legs[0].kind == Live && w.waiting == {} && w.rows.journal.Some?
            && w.legs[0].fence > 0 && !w.legs[0].lost && Holds(w.lease, w.legs[0].holder, w.legs[0].fence)
  {
    hide System.Journal, Apply;
    var acts := [StartRun(0, true, true), AcquireLease(0, true), WriteJournal(0, true)];
    var w0 := Init(sys, holder, reserved, now);
    S.ExecHead(sys, w0, acts);
    S.StartStep(sys, holder, reserved, now);
    var w1 := Apply(sys, w0, acts[0]);
    S.ExecHead(sys, w1, acts[1..]);
    S.AcquireStep(sys, w1, holder);
    var w2 := Apply(sys, w1, acts[1]);
    S.ExecHead(sys, w2, acts[2..]);
    S.JournalStep(sys, w2, holder);
    assert acts[2..][1..] == [];
    assert sys.plan.steps[0..] == sys.plan.steps;
  }

  /**
   Every plan can run to its end: the live run delivers the fold of all its steps, and
   leaves a completed execution, no tables, a resolved key and a free lease.
   */
  lemma LiveRunCompletes(sys: System, holder: string, reserved: bool, now: int) returns (acts: seq<Action>)
    ensures var w := Exec(sys, Init(sys, holder, reserved, now), acts);
            Over(w) && (sys.bare || Begins(sys, w, 0, sys.Value(sys.count)))
  {
    hide Apply, Exec, Over, Init;
    var entry := [StartRun(0, true, true), AcquireLease(0, true), WriteJournal(0, true)];
    LiveEntry(sys, holder, reserved, now);
    var rest := CompletesFrom(sys, Exec(sys, Init(sys, holder, reserved, now), entry), 0, 0);
    acts := entry + rest;
    ExecJoins(sys, Init(sys, holder, reserved, now), entry, rest);
  }

  // ---------- the recovery ----------

  /** Nothing in the rows or the deployment forbids a replay, on the fields of the plan and the rows alone. */
  ghost predicate MayRecover(sys: System, w: World, d: Deployment, points: seq<RunCheckpoint>, intents: seq<ToolIntent>, force: bool) {
    && (if force then w.status != Completed && w.status != NoExecution else w.status == Running)
    && w.rows.journal.Some? && w.waiting == {} && (w.lease.Some? ==> w.lease.value.expiresAt < w.now)
    && ListsCheckpoints(points, w.rows.checkpoints) && ListsIntents(intents, w.rows.intents)
    && sys.plan in d.plans && sys.build == d.build && DeploymentGoSized(d)
    && !(sys.plan.terminal.kind == TerminalReply && (sys.plan.terminal.sse || !sys.plan.terminal.async))
    && (force || forall i | 0 <= i < |intents| :: intents[i].stepIndex >= ResumesAt(points) ==> intents[i].completed && intents[i].effect == Idempotent)
    && |w.rows.checkpoints| <= sys.count && sys.redact(sys.Value(|w.rows.checkpoints|)) == sys.Value(|w.rows.checkpoints|)
  }

  lemma ScanAndClaim(sys: System, w: World, scanner: string, force: bool)
    requires T.Inv(sys, w) && w.rows.journal.Some? && w.waiting == {} && (w.lease.Some? ==> w.lease.value.expiresAt < w.now)
    requires if force then w.status != Completed && w.status != NoExecution else w.status == Running
    requires |w.rows.checkpoints| <= sys.count && sys.redact(sys.Value(|w.rows.checkpoints|)) == sys.Value(|w.rows.checkpoints|)
    ensures var l := |w.legs|;
            var w' := Apply(sys, Apply(sys, w, Scan(scanner, force)), Claim(l));
            && w'.At(l, Deciding) && w'.legs[l].kind == Recovered(force) && w'.legs[l].snapshot == w.rows.journal && !w'.legs[l].lost
            && w'.legs[l].fence > 0 && Holds(w'.lease, w'.legs[l].holder, w'.legs[l].fence)
            && w'.rows == w.rows && w'.waiting == {} && w'.log == w.log + [Acquired(l, w'.legs[l].fence)]
  {
    hide ListsCheckpoints, DurableReplayInput, T.Inv, System.Journal, System.Value;
    JournalIs(sys, w);
    forall points | ListsCheckpoints(points, w.rows.checkpoints)
      ensures !DurableReplayInput(w.rows.journal.value, points).replayUnsafe
    {
      PointSafety(sys, w, points);
    }
    ScanEnlists(sys, w, scanner, force);
    ClaimOwns(sys, Apply(sys, w, Scan(scanner, force)), |w.legs|);
    hide Apply;
  }

  lemma JournalIs(sys: System, w: World)
    requires T.Inv(sys, w) && w.rows.journal.Some?
    ensures w.rows.journal.value == sys.Journal()
  {
    hide System.Journal;
  }

  lemma ScanEnlists(sys: System, w: World, scanner: string, force: bool)
    requires w.rows.journal.Some? && w.waiting == {}
    requires if force then w.status != Completed && w.status != NoExecution else w.status == Running
    requires forall points | ListsCheckpoints(points, w.rows.checkpoints) :: !DurableReplayInput(w.rows.journal.value, points).replayUnsafe
    ensures Apply(sys, w, Scan(scanner, force)) == w.(legs := w.legs + [NewLeg(Recovered(force), scanner, w.rows.journal, Scanned)])
  {
    hide ListsCheckpoints, DurableReplayInput;
  }

  lemma ClaimOwns(sys: System, w: World, l: nat)
    requires w.At(l, Scanned) && (w.lease.Some? ==> w.lease.value.expiresAt < w.now)
    ensures var w' := Apply(sys, w, Claim(l));
            && w'.At(l, Deciding) && w'.legs[l].kind == w.legs[l].kind && w'.legs[l].snapshot == w.legs[l].snapshot
            && w'.legs[l].lost == w.legs[l].lost && w'.legs[l].fence > 0 && Holds(w'.lease, w'.legs[l].holder, w'.legs[l].fence)
            && w'.rows == w.rows && w'.waiting == w.waiting && w'.log == w.log + [Acquired(l, w'.legs[l].fence)]
  {
  }

  /** The rows in the order of their steps. */
  lemma ListingLists(m: map<nat, RunCheckpoint>, k: nat)
    requires (forall j: nat :: j in m <==> j < k) && forall j | j in m :: m[j].stepIndex == j
    ensures (forall j: nat | j < k :: j in m) && ListsCheckpoints(seq(k, i requires 0 <= i < k && i in m => m[i]), m)
  {
    var points := seq(k, i requires 0 <= i < k && i in m => m[i]);
    forall j | j in m
      ensures exists i | 0 <= i < |points| :: points[i] == m[j]
    {
      assert points[j] == m[j];
    }
  }

  lemma SomeListing(sys: System, w: World) returns (points: seq<RunCheckpoint>)
    requires T.Inv(sys, w) && w.rows.journal.Some?
    ensures ListsCheckpoints(points, w.rows.checkpoints)
  {
    RowsHold(sys, w);
    T.PrefixOf(sys, w.rows.checkpoints);
    hide System.Value, T.Inv, ListsCheckpoints;
    var m, k := w.rows.checkpoints, |w.rows.checkpoints|;
    ListingLists(m, k);
    points := seq(k, i requires 0 <= i < k && i in m => m[i]);
  }

  /**
   An unfinished run can be enlisted by force if and only if the value it would resume with,
   the fold behind its last checkpoint, was stored unredacted.
   */
  lemma ForcedScanIsExact(sys: System, w: World, scanner: string)
    requires T.Inv(sys, w) && w.rows.journal.Some? && w.waiting == {} && w.status != Completed && w.status != NoExecution
    ensures |w.rows.checkpoints| <= sys.count
    ensures |Apply(sys, w, Scan(scanner, true)).legs| > |w.legs|
            <==> sys.redact(sys.Value(|w.rows.checkpoints|)) == sys.Value(|w.rows.checkpoints|)
  {
    hide DurableReplayInput, T.Inv, System.Journal, System.Value, ListsCheckpoints;
    JournalIs(sys, w);
    var listing := SomeListing(sys, w);
    CountIsIndex(sys, w, listing);
    forall points | ListsCheckpoints(points, w.rows.checkpoints)
      ensures DurableReplayInput(w.rows.journal.value, points).replayUnsafe
              <==> sys.redact(sys.Value(|w.rows.checkpoints|)) != sys.Value(|w.rows.checkpoints|)
    {
      PointSafety(sys, w, points);
    }
  }

  lemma DecidesToReplay(sys: System, w: World, l: nat, d: Deployment, points: seq<RunCheckpoint>, intents: seq<ToolIntent>)
    requires T.WellFormed(sys) && T.Inv(sys, w) && w.rows.journal.Some? && T.MayDecide(w, l, points, intents)
    requires w.legs[l].fence > 0 && !w.legs[l].lost && Holds(w.lease, w.legs[l].holder, w.legs[l].fence)
    requires sys.plan in d.plans && sys.build == d.build && DeploymentGoSized(d)
    requires !(sys.plan.terminal.kind == TerminalReply && (sys.plan.terminal.sse || !sys.plan.terminal.async))
    requires w.legs[l].kind.forced
             || forall i | 0 <= i < |intents| :: intents[i].stepIndex >= ResumesAt(points) ==> intents[i].completed && intents[i].effect == Idempotent
    requires |w.rows.checkpoints| <= sys.count
    requires sys.redact(sys.Value(|w.rows.checkpoints|)) == sys.Value(|w.rows.checkpoints|)
    ensures var w' := Apply(sys, w, Decide(l, d, points, intents, true));
            && EngineReplay.Stands(sys, w', l, |w.rows.checkpoints|, Looping) && EngineReplay.Same(w, w', l)
            && w'.rows == w.rows && w'.waiting == w.waiting
  {
    hide T.WellFormed, T.Inv, DeploymentGoSized, ListsCheckpoints, ListsIntents, System.Journal, System.Value, ReplayVerdict, Decided, T.Blocked,
      DurableReplayInput, DurableRunClientGone;
    var point, verdict := EngineReplay.DecisionFacts(sys, w, l, d, points, intents);
    CountIsIndex(sys, w, points);
    ClientStays(sys.plan);
    if !w.legs[l].kind.forced {
      NothingBlocks(intents, point.resumeIndex);
    }
    PointSafety(sys, w, points);
    EngineReplay.TransparentStep(sys, w, Decide(l, d, points, intents, true));
    EngineReplay.ReplayStands(sys, w, l, point);
    DecidedRows(w, l, point.resumeIndex, verdict);
  }

  lemma DecidedRows(w: World, l: nat, k: nat, verdict: Verdict)
    requires l < |w.legs| && w.legs[l].kind.Recovered?
    ensures Decided(w, l, k, verdict).rows == w.rows && Decided(w, l, k, verdict).waiting == w.waiting
  {
  }

  lemma ClientStays(plan: Plan)
    requires !(plan.terminal.kind == TerminalReply && (plan.terminal.sse || !plan.terminal.async))
    ensures !DurableRunClientGone(plan)
  {
  }

  lemma NothingBlocks(intents: seq<ToolIntent>, k: nat)
    requires forall i | 0 <= i < |intents| :: intents[i].stepIndex >= k ==> intents[i].completed && intents[i].effect == Idempotent
    ensures !T.Blocked(intents, k)
  {
  }

  lemma CountIsIndex(sys: System, w: World, points: seq<RunCheckpoint>)
    requires T.Inv(sys, w) && w.rows.journal.Some? && ListsCheckpoints(points, w.rows.checkpoints)
    ensures |w.rows.checkpoints| <= sys.count
    ensures DurableReplayInput(sys.Journal(), points).resumeIndex == |w.rows.checkpoints| == ResumesAt(points)
  {
    hide System.Journal, ListsCheckpoints;
    RowsHold(sys, w);
    T.PrefixOf(sys, w.rows.checkpoints);
    T.ResumeIndexIsCount(sys, points, w.rows.checkpoints);
  }

  lemma RowsHold(sys: System, w: World)
    requires T.Inv(sys, w) && w.rows.journal.Some?
    ensures T.CheckpointsOk(sys, w.rows.checkpoints) && T.Contiguous(w.rows.checkpoints)
  {
  }

  lemma PointSafety(sys: System, w: World, points: seq<RunCheckpoint>)
    requires T.Inv(sys, w) && w.rows.journal.Some? && ListsCheckpoints(points, w.rows.checkpoints) && |w.rows.checkpoints| <= sys.count
    ensures DurableReplayInput(sys.Journal(), points).replayUnsafe
            <==> sys.redact(sys.Value(|w.rows.checkpoints|)) != sys.Value(|w.rows.checkpoints|)
  {
    hide System.Journal, ListsCheckpoints, DurableReplayInput;
    CountIsIndex(sys, w, points);
    RowsHold(sys, w);
    T.ReplayPointFacts(sys, points, w.rows.checkpoints);
  }

  /**
   Wherever a run has got to, if its lease has expired and nothing in its rows or in the
   deployment forbids it, a recovery can scan, claim and replay it to its end: it delivers
   the fold of the whole plan and leaves what an undisturbed run leaves. An operator can
   force it also for a failed run and past its intents.
   */
  lemma RecoveryCompletes(sys: System, holder: string, reserved: bool, now: int, trace: seq<World>, acts: seq<Action>,
                          scanner: string, force: bool, d: Deployment, points: seq<RunCheckpoint>, intents: seq<ToolIntent>)
      returns (more: seq<Action>)
    requires T.WellFormed(sys) && IsRun(sys, Init(sys, holder, reserved, now), trace, acts)
    requires MayRecover(sys, trace[|acts|], d, points, intents, force)
    ensures var w' := Exec(sys, trace[|acts|], more);
            Over(w') && Begins(sys, w', |trace[|acts|].legs|, sys.Value(sys.count))
  {
    var w := trace[|acts|];
    var l := |w.legs|;
    RunEnds(sys, Init(sys, holder, reserved, now), trace, acts);
    T.InitHolds(sys, holder, reserved, now);
    hide Init, Apply, Exec, Over, T.Inv, T.WellFormed, IsRun, System.Value, Begins, DeploymentGoSized, ListsCheckpoints, ListsIntents,
      EngineReplay.Stands;
    T.ExecKeeps(sys, Init(sys, holder, reserved, now), acts);
    ScanAndClaim(sys, w, scanner, force);
    var w1 := Apply(sys, w, Scan(scanner, force));
    var w2 := Apply(sys, w1, Claim(l));
    EngineReplay.TransparentStep(sys, w, Scan(scanner, force));
    EngineReplay.TransparentStep(sys, w1, Claim(l));
    var decide := Decide(l, d, points, intents, true);
    DecidesToReplay(sys, w2, l, d, points, intents);
    var w3 := Apply(sys, w2, decide);
    var rest := CompletesFrom(sys, w3, l, |w.rows.checkpoints|);
    more := [Scan(scanner, force)] + ([Claim(l)] + ([decide] + rest));
    ExecCons(sys, w, Scan(scanner, force), [Claim(l)] + ([decide] + rest));
    ExecCons(sys, w1, Claim(l), [decide] + rest);
    ExecCons(sys, w2, decide, rest);
  }

  /** A world like w in which a leg has died and time has passed. */
  lemma CrashPasses(sys: System, w: World, l: nat, elapsed: nat)
    requires l < |w.legs|
    ensures var w' := Apply(sys, Apply(sys, w, Crash(l)), Tick(elapsed));
            && w' == w.(now := w.now + elapsed, legs := w'.legs) && |w'.legs| == |w.legs| && !w'.legs[l].alive
  {
  }

  /**
   A crash costs nothing but time: wherever a leg of a running execution dies, once its lease
   has run out, and if nothing in the rows or in the deployment forbids it, a recovery takes
   the run to its end with the fold of the whole plan.
   */
  lemma CrashedRunCompletes(sys: System, holder: string, reserved: bool, now: int, trace: seq<World>, acts: seq<Action>, l: nat, elapsed: nat,
                            scanner: string, d: Deployment, points: seq<RunCheckpoint>, intents: seq<ToolIntent>)
      returns (more: seq<Action>)
    requires T.WellFormed(sys) && IsRun(sys, Init(sys, holder, reserved, now), trace, acts) && l < |trace[|acts|].legs|
    requires MayRecover(sys, trace[|acts|].(now := trace[|acts|].now + elapsed), d, points, intents, false)
    ensures var w' := Exec(sys, trace[|acts|], [Crash(l), Tick(elapsed)] + more);
            Over(w') && Begins(sys, w', |trace[|acts|].legs|, sys.Value(sys.count))
  {
    var w, start := trace[|acts|], Init(sys, holder, reserved, now);
    var w1 := Apply(sys, w, Crash(l));
    var w2 := Apply(sys, w1, Tick(elapsed));
    CrashPasses(sys, w, l, elapsed);
    var longer, acts' := trace + [w1, w2], acts + [Crash(l), Tick(elapsed)];
    assert MayRecover(sys, w2, d, points, intents, false);
    hide Apply, Exec, Init, Over, Begins, T.WellFormed, MayRecover, System.Value;
    RunGrows(sys, start, trace, acts, [Crash(l), Tick(elapsed)]);
    more := RecoveryCompletes(sys, holder, reserved, now, longer, acts', scanner, false, d, points, intents);
    TwoActions(sys, w, Crash(l), Tick(elapsed));
    ExecJoins(sys, w, [Crash(l), Tick(elapsed)], more);
  }

  lemma RunGrows(sys: System, start: World, trace: seq<World>, acts: seq<Action>, more: seq<Action>)
    requires IsRun(sys, start, trace, acts) && |more| == 2
    ensures var w1 := Apply(sys, trace[|acts|], more[0]); IsRun(sys, start, trace + [w1, Apply(sys, w1, more[1])], acts + more)
  {
    hide Apply;
  }

  // ---------- the approved run ----------

  /** The leg is a continuation in front of its suspended step; `owned` once it holds the lease. */
  predicate Continues(sys: System, w: World, r: nat, phase: Phase, owned: bool) {
    && w.Inside(r, phase) && w.legs[r].kind.Resumed? && !w.legs[r].lost && w.waiting == {} && w.rows.journal.Some?
    && T.OnTrack(sys, w.legs[r].cursor.value) && w.legs[r].cursor.value.resuming
    && (owned ==> w.legs[r].fence > 0 && Holds(w.lease, w.legs[r].holder, w.legs[r].fence))
    && (!owned ==> Acquirable(w.lease, w.now))
  }

  lemma ResumeOpens(sys: System, w: World, l: nat)
    requires T.Inv(sys, w) && l < |w.legs| && w.legs[l].alive && w.legs[l].parked && l in w.approved
    requires w.waiting == {} && w.rows.journal.Some? && Acquirable(w.lease, w.now)
    ensures Continues(sys, Apply(sys, w, Resume(l)), |w.legs|, Acquiring, false)
  {
    hide T.LogTransparent, T.RowsOk, System.Value, System.Journal;
    assert T.LegOk(sys, w.legs[l], l, |w.legs|, w.rows);
  }

  lemma ResumeAcquires(sys: System, w: World, r: nat)
    requires Continues(sys, w, r, Acquiring, false)
    ensures Continues(sys, Apply(sys, w, AcquireLease(r, true)), r, InStep, true)
  {
    hide T.OnTrack;
  }

  lemma ResumeEnds(sys: System, w: World, r: nat)
    requires Continues(sys, w, r, InStep, true)
    ensures var w' := Apply(sys, w, EndStep(r));
            && EngineReplay.Stands(sys, w', r, w.legs[r].cursor.value.Index() + 1, Looping) && w'.legs[r].kind == Resumed
            && w.legs[r].cursor.value.Index() + 1 <= sys.count && w'.waiting == {} && w'.rows.journal.Some?
            && w'.legs[r].fence > 0 && !w'.legs[r].lost && Holds(w'.lease, w'.legs[r].holder, w'.legs[r].fence)
  {
    hide System.Checkpoint, System.Value;
    T.AdvancedStaysOnTrack(sys, w.legs[r].cursor.value);
  }

  /**
   An approved run can always be taken to its end: while its lease is free, the
   continuation of the suspended leg finishes the step, runs the rest of the plan,
   delivers the fold of all its steps and leaves what an undisturbed run leaves.
   */
  lemma ResumeCompletes(sys: System, holder: string, reserved: bool, now: int, trace: seq<World>, acts: seq<Action>, l: nat)
      returns (more: seq<Action>)
    requires T.WellFormed(sys) && IsRun(sys, Init(sys, holder, reserved, now), trace, acts)
    requires var w := trace[|acts|];
             && l < |w.legs| && w.legs[l].alive && w.legs[l].parked && l in w.approved && w.waiting == {}
             && w.rows.journal.Some? && (w.lease.Some? ==> w.lease.value.expiresAt < w.now)
    ensures var w' := Exec(sys, trace[|acts|], more);
            Over(w') && Begins(sys, w', |trace[|acts|].legs|, sys.Value(sys.count))
  {
    var w := trace[|acts|];
    var r := |w.legs|;
    RunEnds(sys, Init(sys, holder, reserved, now), trace, acts);
    T.InitHolds(sys, holder, reserved, now);
    hide Init, Apply, Exec, Over, T.Inv, T.WellFormed, T.OnTrack, IsRun, System.Value, Begins, EngineReplay.Stands;
    T.ExecKeeps(sys, Init(sys, holder, reserved, now), acts);
    ResumeOpens(sys, w, l);
    var w1 := Apply(sys, w, Resume(l));
    ResumeAcquires(sys, w1, r);
    var w2 := Apply(sys, w1, AcquireLease(r, true));
    ResumeEnds(sys, w2, r);
    var w3 := Apply(sys, w2, EndStep(r));
    var rest := CompletesFrom(sys, w3, r, w2.legs[r].cursor.value.Index() + 1);
    more := [Resume(l)] + ([AcquireLease(r, true)] + ([EndStep(r)] + rest));
    ExecCons(sys, w, Resume(l), [AcquireLease(r, true)] + ([EndStep(r)] + rest));
    ExecCons(sys, w1, AcquireLease(r, true), [EndStep(r)] + rest);
    ExecCons(sys, w2, EndStep(r), rest);
  }

  // ---------- a refused and a parked run ----------

  predicate Abandoned(verdict: Verdict) {
    verdict.PlanMissing? || verdict.PlanHashMismatch? || verdict.ClientGone?
  }

  lemma DecidedFails(w: World, l: nat, k: nat, verdict: Verdict)
    requires w.At(l, Deciding) && w.legs[l].kind.Recovered? && !verdict.Replay?
    ensures var w' := Decided(w, l, k, verdict);
            w'.At(l, FailingRun(Abandoned(verdict))) && w'.rows == w.rows && w'.status == w.status && w'.waiting == w.waiting
  {
  }

  lemma FailsOnce(sys: System, w: World, l: nat, abandoned: bool)
    requires w.At(l, FailingRun(abandoned))
    ensures var w' := Apply(sys, w, FailRun(l, true));
            && w'.At(l, if abandoned then PruningRun else Releasing) && w'.rows == w.rows && w'.waiting == w.waiting
            && w'.status == (if w.status == Running then Failed else w.status)
  {
  }

  lemma PrunesOnce(sys: System, w: World, l: nat)
    requires w.At(l, PruningRun) || w.At(l, Releasing)
    ensures var w' := Apply(sys, w, PruneRun(l, true));
            && w'.At(l, Releasing) && w'.status == w.status
            && w'.rows == if w.At(l, PruningRun) then w.PrunedRows() else w.rows
  {
  }

  lemma RefusedSteps(sys: System, w: World, l: nat, k: nat, verdict: Verdict)
    requires w.At(l, Deciding) && w.legs[l].kind.Recovered? && w.waiting == {} && !verdict.Replay?
    ensures var w' := Apply(sys, Apply(sys, Decided(w, l, k, verdict), FailRun(l, true)), PruneRun(l, true));
            && w'.At(l, Releasing) && w'.status == (if w.status == Running then Failed else w.status)
            && w'.rows == (if Abandoned(verdict) && w.rows.journal.Some? && w.status != NoExecution then NO_ROWS else w.rows)
  {
    hide Apply, Decided, Abandoned;
    var w1 := Decided(w, l, k, verdict);
    DecidedFails(w, l, k, verdict);
    FailsOnce(sys, w1, l, Abandoned(verdict));
    PrunesOnce(sys, Apply(sys, w1, FailRun(l, true)), l);
  }

  /**
   A decision that does not replay fails a running execution; its tables go if and only if
   its plan or build is not deployed or its client is gone, and stay for the operator if
   its value was redacted or an intent holds it back.
   */
  lemma RefusalIsFinal(sys: System, w: World, l: nat, d: Deployment, points: seq<RunCheckpoint>, intents: seq<ToolIntent>)
    requires T.WellFormed(sys) && DeploymentGoSized(d) && T.Inv(sys, w) && T.MayDecide(w, l, points, intents)
    requires w.rows.journal.Some? && w.status != NoExecution
    ensures var verdict := ReplayVerdict(sys.id, d, sys.Journal(), points, intents, w.legs[l].kind.forced);
            var w' := Apply(sys, Apply(sys, Apply(sys, w, Decide(l, d, points, intents, true)), FailRun(l, true)), PruneRun(l, true));
            !verdict.Replay? ==>
              && w'.At(l, Releasing) && w'.status == (if w.status == Running then Failed else w.status)
              && w'.rows == if sys.plan !in d.plans || sys.build != d.build
                               || (sys.plan.terminal.kind == TerminalReply && (sys.plan.terminal.sse || !sys.plan.terminal.async))
                            then NO_ROWS else w.rows
  {
    hide Apply, T.WellFormed, T.Inv, DeploymentGoSized, ListsCheckpoints, ListsIntents, System.Journal, ReplayVerdict, Decided,
      DurableReplayInput, T.Blocked;
    var point, verdict := EngineReplay.DecisionFacts(sys, w, l, d, points, intents);
    T.VerdictIsExact(sys, d, points, intents, w.legs[l].kind.forced);
    if !verdict.Replay? {
      RefusedSteps(sys, w, l, point.resumeIndex, verdict);
    }
  }

  /** While an approval is pending, recovery, automatic or forced, neither enlists nor touches the run. */
  lemma ParkedIsLeftAlone(sys: System, w: World, a: Action)
    requires w.waiting != {} && (a.Scan? || a.Decide?)
    ensures var w' := Apply(sys, w, a);
            && w'.status == w.status && w'.rows == w.rows && w'.log == w.log && w'.lease == w.lease && |w'.legs| == |w.legs|
            && (w' != w ==> a.Decide? && w'.At(a.l, Releasing))
  {
    hide ReplayVerdict, DurableReplayInput, ListsCheckpoints, ListsIntents, DeploymentGoSized, Decided;
  }

  /** Recovery enlists no completed run, and without force only a running one. */
  lemma OnlyUnfinishedRuns(sys: System, w: World, holder: string, force: bool)
    requires |Apply(sys, w, Scan(holder, force)).legs| > |w.legs|
    ensures w.rows.journal.Some? && w.waiting == {} && w.status != Completed && w.status != NoExecution && (!force ==> w.status == Running)
  {
    hide ListsCheckpoints, DurableReplayInput;
  }
}
