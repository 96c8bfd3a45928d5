/**
 Why a claimed run must still have its journal when it is decided: the scan reads the
 journal and the status, the claim comes later and reads neither again. A run that
 completes in between is replayed from its start.
 */
module EngineStaleClaim {
  import opened Wrappers
  import opened PlanHash
  import opened Namespaces
  import opened Recovery
  import opened Leases
  import opened Engine
  import opened EngineOnce
  import opened EngineEffects
  import T = EngineTransparency

  /** A plan of a terminal alone, whose input was journaled without redaction. */
  predicate TerminalOnly(sys: System) {
    && sys.plan.steps == [] && TerminalTool(sys.plan.terminal).Some?
    && sys.redact(sys.input) == sys.input && !sys.bare
  }

  /** The live run up to its journal; a second replica scans it then. */
  function Entry(scanner: string): seq<Action> {
    [StartRun(0, true, true), AcquireLease(0, true), WriteJournal(0, true), Scan(scanner, false)]
  }

  const DELIVERY: seq<Action> :=
    [EndLoop(0), Confirm(0, Answered), BeginTerminal(0), EndTerminal(0, true, true), Settle(0, true), StopRenewer(0),
     Prove(0, Answered)]

  const FINISH: seq<Action> :=
    [ResolveKey(0, true), Emit(0, true), Save(0, true), PruneJournal(0, true), ReleaseLease(0, true)]

  function Replay(sys: System): seq<Action> {
    [Claim(1), Decide(1, Deployment([sys.plan], sys.build), [], [], true), EndLoop(1), Confirm(1, Answered), BeginTerminal(1)]
  }

  function StaleRun(sys: System, scanner: string): seq<Action> {
    Entry(scanner) + DELIVERY + FINISH + Replay(sys)
  }

  lemma ExecHead(sys: System, w: World, acts: seq<Action>)
    requires acts != []
    ensures Exec(sys, w, acts) == Exec(sys, Apply(sys, w, acts[0]), acts[1..])
  {
    hide Apply;
    assert acts == [acts[0]] + acts[1..];
    ExecCons(sys, w, acts[0], acts[1..]);
  }

  // ---------- where the run stands ----------

  predicate Standing(sys: System, leg: Leg, kind: Kind, phase: Phase) {
    && leg.alive && leg.phase == phase && leg.kind == kind && !leg.lost && leg.fence > 0
    && leg.cursor == Some(Cursor(sys.plan, [], 0, 0, 0, sys.input, false))
  }

  predicate Waiting(sys: System, leg: Leg) {
    leg.alive && leg.phase == Scanned && leg.kind == Recovered(false) && leg.snapshot == Some(sys.Journal()) && !leg.lost
  }

  /** The live leg is in the given phase, the scanned one still waits. */
  predicate First(sys: System, w: World, phase: Phase) {
    && |w.legs| == 2 && Standing(sys, w.legs[0], Live, phase) && Waiting(sys, w.legs[1])
    && Holds(w.lease, w.legs[0].holder, w.legs[0].fence)
    && w.waiting == {} && w.rows.journal.Some?
  }

  predicate Began(w: World, sys: System, l: nat) {
    TerminalBegan(l, 0, sys.input, true) in w.log
  }

  lemma StartStep(sys: System, holder: string, reserved: bool, now: int)
    ensures var w := Apply(sys, Init(sys, holder, reserved, now), StartRun(0, true, true));
            w == Init(sys, holder, reserved, now).(status := Running, legs := [NewLeg(Live, holder, None, Acquiring)])
  {
  }

  lemma AcquireStep(sys: System, w: World, holder: string)
    requires w.legs == [NewLeg(Live, holder, None, Acquiring)] && w.lease.None?
    ensures Apply(sys, w, AcquireLease(0, true))
              == w.(lease := Some(Lease(holder, 1, w.now + sys.ttl)), log := w.log + [Acquired(0, 1)],
                    legs := [NewLeg(Live, holder, None, Journaling).(fence := 1, renewing := true)])
  {
  }

  lemma JournalStep(sys: System, w: World, holder: string)
    requires w.legs == [NewLeg(Live, holder, None, Journaling).(fence := 1, renewing := true)]
    ensures Apply(sys, w, WriteJournal(0, true))
              == w.(rows := w.rows.(journal := Some(sys.Journal())),
                    legs := [NewLeg(Live, holder, None, Looping).(fence := 1, renewing := true,
                      cursor := Some(Cursor(sys.plan, sys.plan.steps, 0, 0, 0, sys.input, false)))])
  {
    hide System.Journal;
    assert Apply(sys, w, WriteJournal(0, true)).log == w.log;
  }

  lemma ScanStep(sys: System, w: World, scanner: string)
    requires w.rows.journal.Some? && w.waiting == {} && w.status == Running
    ensures Apply(sys, w, Scan(scanner, false)) == w.(legs := w.legs + [NewLeg(Recovered(false), scanner, w.rows.journal, Scanned)])
  {
  }

  lemma EntryRuns(sys: System, holder: string, scanner: string, now: int)
    requires TerminalOnly(sys)
    ensures First(sys, Exec(sys, Init(sys, holder, false, now), Entry(scanner)), Looping)
  {
    hide System.Journal, Apply;
    var w0 := Init(sys, holder, false, now);
    var acts := Entry(scanner);
    ExecHead(sys, w0, acts);
    StartStep(sys, holder, false, now);
    var w1 := Apply(sys, w0, acts[0]);
    ExecHead(sys, w1, acts[1..]);
    AcquireStep(sys, w1, holder);
    var w2 := Apply(sys, w1, acts[1]);
    ExecHead(sys, w2, acts[2..]);
    JournalStep(sys, w2, holder);
    var w3 := Apply(sys, w2, acts[2]);
    ExecHead(sys, w3, acts[3..]);
    ScanStep(sys, w3, scanner);
    assert acts[3..][1..] == [];
  }

  lemma EndLoopStep(sys: System, w: World)
    requires TerminalOnly(sys) && First(sys, w, Looping)
    ensures First(sys, Apply(sys, w, EndLoop(0)), Confirming) && w.log <= Apply(sys, w, EndLoop(0)).log
  {
    hide System.Journal, World.ResolvedKey, TerminalTool;
    var w' := Apply(sys, w, EndLoop(0));
    assert w'.legs == w.legs[0 := w'.legs[0]];
  }

  lemma ConfirmStep(sys: System, w: World)
    requires TerminalOnly(sys) && First(sys, w, Confirming)
    ensures First(sys, Apply(sys, w, Confirm(0, Answered)), AtTerminal) && w.log <= Apply(sys, w, Confirm(0, Answered)).log
  {
    hide System.Journal, World.ResolvedKey, TerminalTool;
    var w' := Apply(sys, w, Confirm(0, Answered));
    assert w'.legs == w.legs[0 := w'.legs[0]];
  }

  lemma BeginTerminalStep(sys: System, w: World)
    requires TerminalOnly(sys) && First(sys, w, AtTerminal)
    ensures First(sys, Apply(sys, w, BeginTerminal(0)), InTerminal) && w.log <= Apply(sys, w, BeginTerminal(0)).log
    ensures Began(Apply(sys, w, BeginTerminal(0)), sys, 0)
  {
    hide System.Journal, World.ResolvedKey, TerminalTool;
    var w' := Apply(sys, w, BeginTerminal(0));
    assert w'.legs == w.legs[0 := w'.legs[0]];
  }

  lemma EndTerminalStep(sys: System, w: World)
    requires TerminalOnly(sys) && First(sys, w, InTerminal)
    ensures First(sys, Apply(sys, w, EndTerminal(0, true, true)), Settling) && w.log <= Apply(sys, w, EndTerminal(0, true, true)).log
  {
    hide System.Journal, World.ResolvedKey, TerminalTool;
    var w' := Apply(sys, w, EndTerminal(0, true, true));
    assert w'.legs == w.legs[0 := w'.legs[0]];
  }

  lemma SettleStep(sys: System, w: World)
    requires TerminalOnly(sys) && First(sys, w, Settling)
    ensures First(sys, Apply(sys, w, Settle(0, true)), Stopping) && w.log <= Apply(sys, w, Settle(0, true)).log
  {
    hide System.Journal, World.ResolvedKey, TerminalTool;
    var w' := Apply(sys, w, Settle(0, true));
    assert w'.legs == w.legs[0 := w'.legs[0]];
  }

  lemma StopStep(sys: System, w: World)
    requires TerminalOnly(sys) && First(sys, w, Stopping)
    ensures First(sys, Apply(sys, w, StopRenewer(0)), Proving) && w.log <= Apply(sys, w, StopRenewer(0)).log
  {
    hide System.Journal, World.ResolvedKey, TerminalTool;
    var w' := Apply(sys, w, StopRenewer(0));
    assert w'.legs == w.legs[0 := w'.legs[0]];
  }

  lemma ProveStep(sys: System, w: World)
    requires TerminalOnly(sys) && First(sys, w, Proving)
    ensures First(sys, Apply(sys, w, Prove(0, Answered)), Resolving(true, true)) && w.log <= Apply(sys, w, Prove(0, Answered)).log
  {
    hide System.Journal, World.ResolvedKey, TerminalTool;
    var w' := Apply(sys, w, Prove(0, Answered));
    assert w'.legs == w.legs[0 := w'.legs[0]];
  }

  lemma ResolveStep(sys: System, w: World)
    requires TerminalOnly(sys) && First(sys, w, Resolving(true, true))
    ensures First(sys, Apply(sys, w, ResolveKey(0, true)), Emitting(true, true)) && w.log <= Apply(sys, w, ResolveKey(0, true)).log
  {
    hide System.Journal, World.ResolvedKey, TerminalTool;
    var w' := Apply(sys, w, ResolveKey(0, true));
    assert w'.legs == w.legs[0 := w'.legs[0]];
  }

  lemma EmitStep(sys: System, w: World)
    requires TerminalOnly(sys) && First(sys, w, Emitting(true, true))
    ensures First(sys, Apply(sys, w, Emit(0, true)), Saving(true, true)) && w.log <= Apply(sys, w, Emit(0, true)).log
  {
    hide System.Journal, World.ResolvedKey, TerminalTool;
    var w' := Apply(sys, w, Emit(0, true));
    assert w'.legs == w.legs[0 := w'.legs[0]];
  }

  lemma SaveStep(sys: System, w: World)
    requires TerminalOnly(sys) && First(sys, w, Saving(true, true))
    ensures First(sys, Apply(sys, w, Save(0, true)), Pruning(true)) && w.log <= Apply(sys, w, Save(0, true)).log
    ensures Apply(sys, w, Save(0, true)).status == Completed
  {
    hide System.Journal, World.ResolvedKey, TerminalTool;
    var w' := Apply(sys, w, Save(0, true));
    assert w'.legs == w.legs[0 := w'.legs[0]];
  }

  /** The live run is over and its tables are gone; the scanned leg still waits. */
  predicate Over(sys: System, w: World) {
    |w.legs| == 2 && Waiting(sys, w.legs[1]) && w.rows == NO_ROWS && w.waiting == {} && Began(w, sys, 0)
  }

  /** The second leg, in the given phase, owns the lease. */
  predicate Second(sys: System, w: World, phase: Phase) {
    && |w.legs| == 2 && Standing(sys, w.legs[1], Recovered(false), phase)
    && Holds(w.lease, w.legs[1].holder, w.legs[1].fence) && Began(w, sys, 0)
  }

  lemma PruneStep(sys: System, w: World)
    requires First(sys, w, Pruning(true)) && w.status == Completed && Began(w, sys, 0)
    ensures var w' := Apply(sys, w, PruneJournal(0, true));
            Over(sys, w') && w'.legs[0].alive && w'.legs[0].phase == Releasing && w'.legs[0].fence > 0
            && Holds(w'.lease, w'.legs[0].holder, w'.legs[0].fence)
  {
    hide System.Journal;
    var w' := Apply(sys, w, PruneJournal(0, true));
    assert w'.legs == w.legs[0 := w'.legs[0]];
  }

  lemma ReleaseStep(sys: System, w: World)
    requires Over(sys, w) && w.legs[0].alive && w.legs[0].phase == Releasing && w.legs[0].fence > 0
    requires Holds(w.lease, w.legs[0].holder, w.legs[0].fence)
    ensures var w' := Apply(sys, w, ReleaseLease(0, true)); Over(sys, w') && Acquirable(w'.lease, w'.now)
  {
    hide System.Journal;
    var w' := Apply(sys, w, ReleaseLease(0, true));
    assert w'.legs == w.legs[0 := w'.legs[0]];
  }

  lemma ClaimStep(sys: System, w: World)
    requires Over(sys, w) && Acquirable(w.lease, w.now)
    ensures var w' := Apply(sys, w, Claim(1));
            && |w'.legs| == 2 && w'.At(1, Deciding) && w'.rows == NO_ROWS && w'.waiting == {} && Began(w', sys, 0)
            && w'.legs[1].kind == Recovered(false) && w'.legs[1].snapshot == Some(sys.Journal())
            && !w'.legs[1].lost && w'.legs[1].fence > 0 && Holds(w'.lease, w'.legs[1].holder, w'.legs[1].fence)
  {
    hide System.Journal;
    var w' := Apply(sys, w, Claim(1));
    assert w'.legs == w.legs[1 := w'.legs[1]];
  }

  lemma VerdictReplays(sys: System)
    requires T.WellFormed(sys) && TerminalOnly(sys)
    ensures DeploymentGoSized(Deployment([sys.plan], sys.build))
    ensures ReplayVerdict(sys.id, Deployment([sys.plan], sys.build), sys.Journal(), [], [], false)
              == Verdict.Replay(sys.plan, ReplayPoint(0, sys.input, false))
  {
    hide GoSized, CollisionFree, PlanFields, DurablePlanHash, DurablePlanKey;
    var d := Deployment([sys.plan], sys.build);
    T.VerdictIsExact(sys, d, [], [], false);
  }

  lemma DecideStep(sys: System, w: World)
    requires T.WellFormed(sys) && TerminalOnly(sys)
    requires |w.legs| == 2 && w.At(1, Deciding) && w.rows == NO_ROWS && w.waiting == {} && Began(w, sys, 0)
    requires w.legs[1].kind == Recovered(false) && w.legs[1].snapshot == Some(sys.Journal())
    requires !w.legs[1].lost && w.legs[1].fence > 0 && Holds(w.lease, w.legs[1].holder, w.legs[1].fence)
    ensures Second(sys, Apply(sys, w, Decide(1, Deployment([sys.plan], sys.build), [], [], true)), Looping)
  {
    hide System.Journal, ReplayVerdict, DeploymentGoSized, T.WellFormed;
    VerdictReplays(sys);
    var w' := Apply(sys, w, Decide(1, Deployment([sys.plan], sys.build), [], [], true));
    assert w' == Decided(w, 1, DurableReplayInput(sys.Journal(), []).resumeIndex, Verdict.Replay(sys.plan, ReplayPoint(0, sys.input, false)));
  }

  lemma SecondEnds(sys: System, w: World)
    requires TerminalOnly(sys) && Second(sys, w, Looping)
    ensures Second(sys, Apply(sys, w, EndLoop(1)), Confirming)
  {
    var w' := Apply(sys, w, EndLoop(1));
    assert w'.legs == w.legs[1 := w'.legs[1]];
  }

  lemma SecondConfirms(sys: System, w: World)
    requires TerminalOnly(sys) && Second(sys, w, Confirming)
    ensures Second(sys, Apply(sys, w, Confirm(1, Answered)), AtTerminal)
  {
    var w' := Apply(sys, w, Confirm(1, Answered));
    assert w'.legs == w.legs[1 := w'.legs[1]];
  }

  lemma SecondDelivers(sys: System, w: World)
    requires TerminalOnly(sys) && Second(sys, w, AtTerminal)
    ensures var w' := Apply(sys, w, BeginTerminal(1)); Began(w', sys, 0) && Began(w', sys, 1)
  {
    hide TerminalTool;
  }

  lemma DeliveryRuns(sys: System, w: World)
    requires TerminalOnly(sys) && First(sys, w, Looping)
    ensures var w' := Exec(sys, w, DELIVERY); First(sys, w', Resolving(true, true)) && Began(w', sys, 0)
  {
    hide Apply, First, TerminalOnly;
    var acts := DELIVERY;
    ExecHead(sys, w, acts);
    EndLoopStep(sys, w);
    var w1 := Apply(sys, w, acts[0]);
    ExecHead(sys, w1, acts[1..]);
    ConfirmStep(sys, w1);
    var w2 := Apply(sys, w1, acts[1]);
    ExecHead(sys, w2, acts[2..]);
    BeginTerminalStep(sys, w2);
    var w3 := Apply(sys, w2, acts[2]);
    ExecHead(sys, w3, acts[3..]);
    EndTerminalStep(sys, w3);
    var w4 := Apply(sys, w3, acts[3]);
    ExecHead(sys, w4, acts[4..]);
    SettleStep(sys, w4);
    var w5 := Apply(sys, w4, acts[4]);
    ExecHead(sys, w5, acts[5..]);
    StopStep(sys, w5);
    var w6 := Apply(sys, w5, acts[5]);
    ExecHead(sys, w6, acts[6..]);
    ProveStep(sys, w6);
    assert acts[6..][1..] == [];
  }

  lemma FinishRuns(sys: System, w: World)
    requires TerminalOnly(sys) && First(sys, w, Resolving(true, true)) && Began(w, sys, 0)
    ensures var w' := Exec(sys, w, FINISH); Over(sys, w') && Acquirable(w'.lease, w'.now)
  {
    hide Apply, First, TerminalOnly, Over;
    var acts := FINISH;
    ExecHead(sys, w, acts);
    ResolveStep(sys, w);
    var w1 := Apply(sys, w, acts[0]);
    ExecHead(sys, w1, acts[1..]);
    EmitStep(sys, w1);
    var w2 := Apply(sys, w1, acts[1]);
    ExecHead(sys, w2, acts[2..]);
    SaveStep(sys, w2);
    var w3 := Apply(sys, w2, acts[2]);
    ExecHead(sys, w3, acts[3..]);
    PruneStep(sys, w3);
    var w4 := Apply(sys, w3, acts[3]);
    ExecHead(sys, w4, acts[4..]);
    ReleaseStep(sys, w4);
    assert acts[4..][1..] == [];
  }

  lemma ReplayRuns(sys: System, w: World)
    requires T.WellFormed(sys) && TerminalOnly(sys) && Over(sys, w) && Acquirable(w.lease, w.now)
    ensures var w' := Exec(sys, w, Replay(sys)); Began(w', sys, 0) && Began(w', sys, 1)
  {
    hide Apply, TerminalOnly, Over, Second, T.WellFormed, Began, System.Journal;
    var acts := Replay(sys);
    ExecHead(sys, w, acts);
    ClaimStep(sys, w);
    var w1 := Apply(sys, w, acts[0]);
    ExecHead(sys, w1, acts[1..]);
    DecideStep(sys, w1);
    var w2 := Apply(sys, w1, acts[1]);
    ExecHead(sys, w2, acts[2..]);
    SecondEnds(sys, w2);
    var w3 := Apply(sys, w2, acts[2]);
    ExecHead(sys, w3, acts[3..]);
    SecondConfirms(sys, w3);
    var w4 := Apply(sys, w3, acts[3]);
    ExecHead(sys, w4, acts[4..]);
    SecondDelivers(sys, w4);
    assert acts[4..][1..] == [];
  }

  /**
   For every plan of an effectful terminal alone there is a run without a crash, a
   pause, a call, an approval or a forced recovery in which the terminal begins twice,
   in two different legs: only the decision on a run whose journal had gone is amiss.
   */
  lemma StaleClaimRepeatsTheTerminal(sys: System, holder: string, scanner: string, now: int)
    requires T.WellFormed(sys) && TerminalOnly(sys)
    ensures var w := Exec(sys, Init(sys, holder, false, now), StaleRun(sys, scanner));
            Began(w, sys, 0) && Began(w, sys, 1) && !Once(w.log)
    ensures forall a | a in StaleRun(sys, scanner) && !a.Decide? :: forall w: World :: Orderly(w, a)
  {
    hide Apply, TerminalOnly, First, Over, T.WellFormed;
    var w0 := Init(sys, holder, false, now);
    EntryRuns(sys, holder, scanner, now);
    ExecJoins(sys, w0, Entry(scanner), DELIVERY);
    DeliveryRuns(sys, Exec(sys, w0, Entry(scanner)));
    ExecJoins(sys, w0, Entry(scanner) + DELIVERY, FINISH);
    FinishRuns(sys, Exec(sys, w0, Entry(scanner) + DELIVERY));
    ExecJoins(sys, w0, Entry(scanner) + DELIVERY + FINISH, Replay(sys));
    ReplayRuns(sys, Exec(sys, w0, Entry(scanner) + DELIVERY + FINISH));
    hide Exec, Init;
    TwiceIsNotOnce(sys, Exec(sys, w0, StaleRun(sys, scanner)));
  }

  lemma TwiceIsNotOnce(sys: System, w: World)
    requires Began(w, sys, 0) && Began(w, sys, 1)
    ensures !Once(w.log)
  {
    var p :| 0 <= p < |w.log| && w.log[p] == TerminalBegan(0, 0, sys.input, true);
    var q :| 0 <= q < |w.log| && w.log[q] == TerminalBegan(1, 0, sys.input, true);
    assert p < q || q < p;
  }
}
