/**
 The durable run engine as a step machine, for one execution: the shared store, the
 legs that run the execution (the live run, recovery replays, approved resumes) and
 the environment. Each action is one store call, or the local work between two store
 calls, of http_runtime.go, durable_recovery.go and runtime_http_resume.go. An action
 that is not enabled leaves the world as it is, so a run is any sequence of actions.
 */
module Engine {
  import opened Wrappers
  import opened Plans
  import opened PlanHash
  import opened Recovery
  import opened Leases

  // ---------- the system under execution ----------

  /**
   `run` is the effect of one step on the value that flows through the pipeline,
   `redact` the credential scrubbing of stored values. `bare` says that the live run
   has no terminal function, as for an asynchronous Reply.
   */
  datatype System = System(
    id: Identity, plan: Plan, build: string, input: string,
    run: (Step, string) -> string, redact: string -> string, ttl: int, bare: bool)
  {
    const count: nat := |plan.steps|

    /** The uninterrupted left fold: the value in front of step i. */
    function Value(i: nat): string
      requires i <= count
    {
      if i == 0 then input else run(plan.steps[i - 1], Value(i - 1))
    }

    function Checkpoint(i: nat, output: string): RunCheckpoint {
      RunCheckpoint(i, redact(output), redact(output) != output)
    }

    function Journal(): RunJournal {
      RunJournal(id.Key(plan), id.Hash(plan, build), redact(input), redact(input) != input)
    }
  }

  /** The output tool of a terminal that leaves an intent: Push and file Sink. */
  function TerminalTool(t: Terminal): Option<string> {
    if t.kind == TerminalPush && t.pushWebhookURL != "" then Some("ouvrier_push_webhook")
    else if t.kind == TerminalPush && t.pushQueueURI != "" then Some("ouvrier_push_queue")
    else if t.kind == TerminalSink && t.sinkFilePath != "" then Some("ouvrier_sink_file")
    else None
  }

  // ---------- legs ----------

  datatype Kind = Live | Recovered(forced: bool) | Resumed

  datatype Phase =
    | Starting
    | Acquiring
    | Journaling
    | Scanned
    | Deciding
    | Looping
    | InStep
    | Confirming
    | AtTerminal
    | InTerminal
    | Settling
    | Stopping
    | Proving
    | Resolving(completed: bool, success: bool)
    | Emitting(completed: bool, clean: bool)
    | Saving(completed: bool, clean: bool)
    | Pruning(completed: bool)
    | FailingRun(abandoned: bool)
    | PruningRun
    | Releasing
    | Ended

  /**
   Where a leg stands in its plan: the sliced step list, the checkpoint offset, the
   idempotency offset, the loop index and the current value of runStepsResult;
   `resuming` while the step is the continuation of a suspended one.
   */
  datatype Cursor = Cursor(
    plan: Plan, steps: seq<Step>, base: nat, position: nat, local: nat, current: string, resuming: bool)
  {
    /** The index of the current step in the original plan. */
    function Index(): nat {
      base + local
    }
  }

  datatype Leg = Leg(
    kind: Kind, alive: bool, holder: string, fence: nat, renewing: bool, lost: bool,
    snapshot: Option<RunJournal>, cursor: Option<Cursor>, gated: bool, parked: bool,
    terminalDone: bool, phase: Phase)

  // ---------- the store and the world ----------

  datatype Status = NoExecution | Running | Completed | Failed

  datatype Outcome = Pending | Succeeded | FailedOutcome

  /** The trigger key; `mine` while the reservation belongs to this execution. */
  datatype TriggerKey = TriggerKey(mine: bool, outcome: Outcome)

  datatype Event =
    | Acquired(leg: nat, fence: nat)
    | Renewed(leg: nat, fence: nat)
    | LeaseLost(leg: nat)
    | RenewerStopped(leg: nat)
    | Proved(leg: nat, fence: nat)
    | Released(leg: nat)
    | StepBegan(leg: nat, index: nat, position: nat, step: Step, input: string)
    | CallBegan(leg: nat, index: nat, effect: Effect)
    | TerminalBegan(leg: nat, index: nat, input: string, effectful: bool)
    | TerminalDone(leg: nat)
    | KeyResolved(leg: nat, success: bool)
    | Emitted(leg: nat)
    | Saved(leg: nat, completed: bool)
    | Pruned(leg: nat)
    | Abandoned(leg: nat)
    | AbandonPruned(leg: nat)
    | ReplayRefused(leg: nat, index: nat)
    | ReplayStarted(leg: nat, index: nat, input: string)

  /** The journal tables of one execution. */
  datatype Rows = Rows(journal: Option<RunJournal>, checkpoints: map<nat, RunCheckpoint>, intents: map<string, ToolIntent>)

  const NO_ROWS := Rows(None, map[], map[])

  datatype World = World(
    now: int, lease: Option<Lease>, status: Status, rows: Rows,
    waiting: set<nat>, approved: set<nat>, key: Option<TriggerKey>, legs: seq<Leg>, log: seq<Event>)
  {
    predicate At(l: nat, phase: Phase) {
      l < |legs| && legs[l].alive && legs[l].phase == phase
    }

    /** The leg is in the given phase and inside its plan. */
    predicate Inside(l: nat, phase: Phase) {
      At(l, phase) && legs[l].cursor.Some?
    }

    predicate HasStep(l: nat, phase: Phase) {
      Inside(l, phase) && legs[l].cursor.value.local < |legs[l].cursor.value.steps|
    }

    function Put(l: nat, leg: Leg, events: seq<Event>): World
      requires l < |legs|
    {
      this.(legs := legs[l := leg], log := log + events)
    }

    /** PruneRunJournal and the retention sweep: terminal, unparked executions only. */
    function PrunedRows(): Rows {
      if rows.journal.Some? && (status == Completed || status == Failed) && waiting == {} then NO_ROWS else rows
    }

    /** ResolveIdempotencyByExecution: pending reservations of this execution only. */
    function ResolvedKey(success: bool): Option<TriggerKey> {
      if key.Some? && key.value.mine && key.value.outcome == Pending then
        Some(TriggerKey(true, if success then Succeeded else FailedOutcome))
      else key
    }
  }

  function NewLeg(kind: Kind, holder: string, snapshot: Option<RunJournal>, phase: Phase): Leg {
    Leg(kind, true, holder, 0, false, false, snapshot, None, false, false, false, phase)
  }

  /** A world before the live run starts; its trigger key may be reserved already. */
  function Init(sys: System, holder: string, reserved: bool, now: int): World {
    World(now, None, NoExecution, NO_ROWS, {}, {}, if reserved then Some(TriggerKey(true, Pending)) else None,
          [NewLeg(Live, holder, None, Starting)], [])
  }

  // ---------- actions ----------

  /** What a lease call comes back with. */
  datatype Answer = Answered | Unreachable | TimedOut

  datatype Action =
    // environment
    | Tick(elapsed: nat)
    | Beat(l: nat, answer: Answer)
    | Crash(l: nat)
    | Approve(l: nat)
    | Deny(l: nat)
    | Sweep
    | OtherReserves
    // entry of a leg
    | StartRun(l: nat, saved: bool, emitted: bool)
    | AcquireLease(l: nat, reachable: bool)
    | GiveUp(l: nat)
    | WriteJournal(l: nat, ok: bool)
    | Scan(holder: string, force: bool)
    | Claim(l: nat)
    | Decide(l: nat, deployment: Deployment, checkpoints: seq<RunCheckpoint>, intents: seq<ToolIntent>, ok: bool)
    | FailRun(l: nat, ok: bool)
    | PruneRun(l: nat, ok: bool)
    | Resume(l: nat)
    // step loop
    | BeginStep(l: nat)
    | BeginCall(l: nat, id: string, effect: Effect)
    | EndCall(l: nat, id: string)
    | Gate(l: nat)
    | Suspend(l: nat)
    | EndStep(l: nat)
    | FailStep(l: nat)
    | EndLoop(l: nat)
    // terminal and final proof
    | Confirm(l: nat, answer: Answer)
    | BeginTerminal(l: nat)
    | EndTerminal(l: nat, ok: bool, definite: bool)
    | Settle(l: nat, ok: bool)
    | StopRenewer(l: nat)
    | Prove(l: nat, answer: Answer)
    // finish
    | ResolveKey(l: nat, ok: bool)
    | Emit(l: nat, ok: bool)
    | Save(l: nat, ok: bool)
    | PruneJournal(l: nat, ok: bool)
    | ReleaseLease(l: nat, reachable: bool)

  /** What RunCheckpoints returns: every row, in ascending step order. */
  ghost predicate ListsCheckpoints(points: seq<RunCheckpoint>, m: map<nat, RunCheckpoint>) {
    && (forall i | 0 <= i < |points| :: points[i].stepIndex in m && m[points[i].stepIndex] == points[i])
    && (forall k | k in m :: exists i | 0 <= i < |points| :: points[i] == m[k])
    && (forall i, j | 0 <= i < j < |points| :: points[i].stepIndex < points[j].stepIndex)
  }

  /** What ToolIntents returns: every row, in some order. */
  ghost predicate ListsIntents(rows: seq<ToolIntent>, m: map<string, ToolIntent>) {
    && (forall i | 0 <= i < |rows| :: rows[i] in m.Values)
    && (forall id | id in m :: m[id] in rows)
  }

  ghost function Apply(sys: System, w: World, a: Action): World {
    match a
    case Tick(_) => ApplyEnvironment(sys, w, a)
    case Beat(_, _) => ApplyEnvironment(sys, w, a)
    case Crash(_) => ApplyEnvironment(sys, w, a)
    case Approve(_) => ApplyEnvironment(sys, w, a)
    case Deny(_) => ApplyEnvironment(sys, w, a)
    case Sweep => ApplyEnvironment(sys, w, a)
    case OtherReserves => ApplyEnvironment(sys, w, a)
    case StartRun(_, _, _) => ApplyEntry(sys, w, a)
    case AcquireLease(_, _) => ApplyEntry(sys, w, a)
    case GiveUp(_) => ApplyEntry(sys, w, a)
    case WriteJournal(_, _) => ApplyEntry(sys, w, a)
    case Scan(_, _) => ApplyRecovery(sys, w, a)
    case Claim(_) => ApplyRecovery(sys, w, a)
    case Decide(_, _, _, _, _) => ApplyRecovery(sys, w, a)
    case FailRun(_, _) => ApplyRecovery(sys, w, a)
    case PruneRun(_, _) => ApplyRecovery(sys, w, a)
    case Resume(_) => ApplyEntry(sys, w, a)
    case BeginStep(_) => ApplyLoop(sys, w, a)
    case BeginCall(_, _, _) => ApplyLoop(sys, w, a)
    case EndCall(_, _) => ApplyLoop(sys, w, a)
    case Gate(_) => ApplyLoop(sys, w, a)
    case Suspend(_) => ApplyLoop(sys, w, a)
    case EndStep(_) => ApplyLoop(sys, w, a)
    case FailStep(_) => ApplyLoop(sys, w, a)
    case EndLoop(_) => ApplyLoop(sys, w, a)
    case Confirm(_, _) => ApplyTerminal(sys, w, a)
    case BeginTerminal(_) => ApplyTerminal(sys, w, a)
    case EndTerminal(_, _, _) => ApplyTerminal(sys, w, a)
    case Settle(_, _) => ApplyTerminal(sys, w, a)
    case StopRenewer(_) => ApplyTerminal(sys, w, a)
    case Prove(_, _) => ApplyTerminal(sys, w, a)
    case ResolveKey(_, _) => ApplyFinish(sys, w, a)
    case Emit(_, _) => ApplyFinish(sys, w, a)
    case Save(_, _) => ApplyFinish(sys, w, a)
    case PruneJournal(_, _) => ApplyFinish(sys, w, a)
    case ReleaseLease(_, _) => ApplyFinish(sys, w, a)
  }

  ghost function Exec(sys: System, w: World, acts: seq<Action>): World
    decreases |acts|
  {
    if acts == [] then w else Apply(sys, Exec(sys, w, acts[..|acts| - 1]), acts[|acts| - 1])
  }

  /** A run: the worlds it passes through, one action apart. */
  ghost predicate IsRun(sys: System, start: World, trace: seq<World>, acts: seq<Action>) {
    |trace| == |acts| + 1 && trace[0] == start && forall i | 0 <= i < |acts| :: trace[i + 1] == Apply(sys, trace[i], acts[i])
  }

  lemma {:induction false} RunIsExec(sys: System, start: World, trace: seq<World>, acts: seq<Action>, n: nat)
    requires IsRun(sys, start, trace, acts) && n <= |acts|
    ensures trace[n] == Exec(sys, start, acts[..n])
  {
    hide Apply;
    if n > 0 {
      RunIsExec(sys, start, trace, acts, n - 1);
      assert acts[..n][..n - 1] == acts[..n - 1];
    }
  }

  lemma RunEnds(sys: System, start: World, trace: seq<World>, acts: seq<Action>)
    requires IsRun(sys, start, trace, acts)
    ensures trace[|acts|] == Exec(sys, start, acts)
  {
    hide Apply, Exec;
    RunIsExec(sys, start, trace, acts, |acts|);
    assert acts[..|acts|] == acts;
  }

  lemma {:induction false} ExecJoins(sys: System, w: World, acts: seq<Action>, more: seq<Action>)
    ensures Exec(sys, w, acts + more) == Exec(sys, Exec(sys, w, acts), more)
    decreases |more|
  {
    hide Apply;
    if more == [] {
      assert acts + more == acts;
    } else {
      var n := |more| - 1;
      ExecJoins(sys, w, acts, more[..n]);
      assert (acts + more)[..|acts + more| - 1] == acts + more[..n];
    }
  }

  lemma ExecCons(sys: System, w: World, a: Action, acts: seq<Action>)
    ensures Exec(sys, w, [a] + acts) == Exec(sys, Apply(sys, w, a), acts)
  {
    hide Apply;
    assert [a][..0] == [];
    assert Exec(sys, w, [a]) == Apply(sys, w, a);
    ExecJoins(sys, w, [a], acts);
  }

  // ---------- environment ----------

  ghost function ApplyEnvironment(sys: System, w: World, a: Action): World {
    match a
    case Tick(elapsed) => w.(now := w.now + elapsed)
    // One tick of the background renewer: any doubt loses the lease and ends the renewer.
    case Beat(l, answer) =>
      if l < |w.legs| && w.legs[l].alive && w.legs[l].renewing then
        var leg := w.legs[l];
        if answer == Answered && Holds(w.lease, leg.holder, leg.fence) then
          w.(lease := RenewedRow(w.lease, leg.holder, leg.fence, sys.ttl, w.now)).Put(l, leg, [Renewed(l, leg.fence)])
        else
          w.Put(l, leg.(renewing := false, lost := true), [LeaseLost(l)])
      else w
    case Crash(l) =>
      if l < |w.legs| then w.Put(l, w.legs[l].(alive := false, parked := false), []) else w
    case Approve(l) =>
      if l in w.waiting then w.(waiting := w.waiting - {l}, approved := w.approved + {l}) else w
    // A denied call is a governed failure of its execution.
    case Deny(l) =>
      if l in w.waiting then
        w.(waiting := w.waiting - {l}, status := if w.status == Running then Failed else w.status)
      else w
    case Sweep => w.(rows := w.PrunedRows())
    // A failed key is available to another execution.
    case OtherReserves =>
      if w.key.Some? && w.key.value.outcome == FailedOutcome then w.(key := Some(TriggerKey(false, Pending))) else w
    case _ => w
  }

  // ---------- entry of the live and the resumed leg ----------

  ghost function ApplyEntry(sys: System, w: World, a: Action): World {
    match a
    case StartRun(l, saved, emitted) =>
      if w.At(l, Starting) then
        if !saved then w.(key := w.ResolvedKey(false)).Put(l, w.legs[l].(phase := Ended), [KeyResolved(l, false)])
        else w.(status := Running).Put(l, w.legs[l].(phase := if emitted then Acquiring else Resolving(false, false)), [])
      else w
    case AcquireLease(l, reachable) =>
      if w.At(l, Acquiring) then
        var leg := w.legs[l];
        if reachable && Acquirable(w.lease, w.now) then
          var lease := AcquiredLease(w.lease, leg.holder, sys.ttl, w.now);
          w.(lease := Some(lease)).Put(l,
            leg.(fence := lease.fence, renewing := true, phase := if leg.kind.Live? then Journaling else InStep),
            [Acquired(l, lease.fence)])
        // The live run fails; the resumed leg tries again.
        else if leg.kind.Live? then w.Put(l, leg.(phase := Resolving(false, false)), [])
        else w
      else w
    case GiveUp(l) =>
      if w.At(l, Acquiring) && w.legs[l].kind.Resumed? then w.Put(l, w.legs[l].(phase := Ended), []) else w
    case WriteJournal(l, ok) =>
      if w.At(l, Journaling) then
        if ok then
          w.(rows := w.rows.(journal := Some(sys.Journal()))).Put(l,
            w.legs[l].(cursor := Some(Cursor(sys.plan, sys.plan.steps, 0, 0, 0, sys.input, false)), phase := Looping), [])
        else w.Put(l, w.legs[l].(phase := Resolving(false, false)), [])
      else w
    // The continuation of a suspended step, taken from the registry once.
    case Resume(l) =>
      if l < |w.legs| && w.legs[l].alive && w.legs[l].parked && w.legs[l].cursor.Some? && l in w.approved then
        var resumed := NewLeg(Resumed, w.legs[l].holder, w.legs[l].snapshot, Acquiring)
          .(cursor := Some(w.legs[l].cursor.value.(resuming := true)));
        w.(legs := w.legs[l := w.legs[l].(parked := false)] + [resumed])
      else w
    case _ => w
  }

  // ---------- entry of a recovery leg ----------

  ghost function ApplyRecovery(sys: System, w: World, a: Action): World {
    match a
    // The reads before the claim: the journal row, the execution status, the approvals.
    case Scan(holder, force) =>
      if w.rows.journal.Some? && w.waiting == {}
         && (if force then
               w.status != Completed && w.status != NoExecution
               && forall points | ListsCheckpoints(points, w.rows.checkpoints) ::
                    !DurableReplayInput(w.rows.journal.value, points).replayUnsafe
             else w.status == Running)
      then w.(legs := w.legs + [NewLeg(Recovered(force), holder, w.rows.journal, Scanned)])
      else w
    case Claim(l) =>
      if w.At(l, Scanned) then
        var leg := w.legs[l];
        if Acquirable(w.lease, w.now) then
          var lease := AcquiredLease(w.lease, leg.holder, sys.ttl, w.now);
          w.(lease := Some(lease)).Put(l, leg.(fence := lease.fence, renewing := true, phase := Deciding),
                                       [Acquired(l, lease.fence)])
        else w.Put(l, leg.(phase := Ended), [])
      else w
    case Decide(l, d, points, rows, ok) =>
      if w.At(l, Deciding) && w.legs[l].kind.Recovered? && w.legs[l].snapshot.Some? && DeploymentGoSized(d)
         && ListsCheckpoints(points, w.rows.checkpoints) && ListsIntents(rows, w.rows.intents)
      then
        var leg := w.legs[l];
        if !ok || w.waiting != {} then w.Put(l, leg.(phase := Releasing), [])
        else Decided(w, l, DurableReplayInput(leg.snapshot.value, points).resumeIndex,
                     ReplayVerdict(sys.id, d, leg.snapshot.value, points, rows, leg.kind.forced))
      else w
    // failDurableRunExecution, then the prune of an abandoned run.
    case FailRun(l, ok) =>
      if l < |w.legs| && w.legs[l].alive && w.legs[l].phase.FailingRun? then
        w.(status := if ok && w.status == Running then Failed else w.status).Put(l,
          w.legs[l].(phase := if w.legs[l].phase.abandoned then PruningRun else Releasing), [])
      else w
    case PruneRun(l, ok) =>
      if w.At(l, PruningRun) then
        if ok then w.(rows := w.PrunedRows()).Put(l, w.legs[l].(phase := Releasing), [AbandonPruned(l)])
        else w.Put(l, w.legs[l].(phase := Releasing), [])
      else w
    case _ => w
  }

  /** What recoverClaimedDurableRun does on each verdict; a refusal names the index it would resume from. */
  function Decided(w: World, l: nat, resumeIndex: nat, verdict: Verdict): World
    requires l < |w.legs| && w.legs[l].kind.Recovered?
  {
    var leg := w.legs[l];
    match verdict
    case PlanMissing => w.Put(l, leg.(phase := FailingRun(true)), [Abandoned(l)])
    case PlanHashMismatch => w.Put(l, leg.(phase := FailingRun(true)), [Abandoned(l)])
    case ClientGone => w.Put(l, leg.(phase := FailingRun(true)), [Abandoned(l)])
    case ReplayUnsafe => w.Put(l, leg.(phase := FailingRun(false)), [ReplayRefused(l, resumeIndex)])
    case Indeterminate => w.Put(l, leg.(phase := FailingRun(false)), [])
    case Replay(plan, point) =>
      var k := if point.resumeIndex <= |plan.steps| then point.resumeIndex else |plan.steps|;
      var cursor := Cursor(plan, plan.steps[k..], point.resumeIndex, point.resumeIndex, 0, point.input, false);
      w.(status := if leg.kind.forced then Running else w.status).Put(l, leg.(cursor := Some(cursor), phase := Looping),
        [ReplayStarted(l, point.resumeIndex, point.input)])
  }

  // ---------- the step loop ----------

  ghost function ApplyLoop(sys: System, w: World, a: Action): World {
    match a
    case BeginStep(l) =>
      if w.HasStep(l, Looping) then
        var leg, c := w.legs[l], w.legs[l].cursor.value;
        w.Put(l, leg.(phase := InStep, gated := false),
              [StepBegan(l, c.Index(), c.position + c.local, c.steps[c.local], c.current)])
      else w
    // The intent row of a non-read call is written before the call; the same id re-opens its row.
    case BeginCall(l, id, effect) =>
      if w.Inside(l, InStep) && !effect.ReadOnly? then
        var index := w.legs[l].cursor.value.Index();
        w.(rows := w.rows.(intents := w.rows.intents[id := ToolIntent(index, effect, false)]),
           log := w.log + [CallBegan(l, index, effect)])
      else w
    case EndCall(l, id) =>
      if w.At(l, InStep) && id in w.rows.intents then
        w.(rows := w.rows.(intents := w.rows.intents[id := w.rows.intents[id].(completed := true)]))
      else w
    // A gated call records a pending approval, then the step comes back suspended.
    case Gate(l) =>
      if w.HasStep(l, InStep) && w.legs[l].cursor.value.steps[w.legs[l].cursor.value.local].kind == StepPipe then
        w.(waiting := w.waiting + {l}).Put(l, w.legs[l].(gated := true), [])
      else w
    // A resumed step that is gated once more is no suspended plan: it can only fail.
    case Suspend(l) =>
      if w.Inside(l, InStep) && w.legs[l].gated && !w.legs[l].lost && !w.legs[l].cursor.value.resuming then
        w.Put(l, w.legs[l].(parked := true, phase := Releasing), [])
      else w
    case EndStep(l) =>
      if w.HasStep(l, InStep) then
        var leg, c := w.legs[l], w.legs[l].cursor.value;
        var output := sys.run(c.steps[c.local], c.current);
        w.(rows := w.rows.(checkpoints := w.rows.checkpoints[c.Index() := sys.Checkpoint(c.Index(), output)])).Put(l,
          leg.(cursor := Some(Advanced(c, output)), phase := Looping), [])
      else w
    case FailStep(l) =>
      if w.At(l, InStep) then w.Put(l, w.legs[l].(phase := Resolving(false, false)), []) else w
    case EndLoop(l) =>
      if w.Inside(l, Looping) && w.legs[l].cursor.value.local == |w.legs[l].cursor.value.steps| then
        w.Put(l, w.legs[l].(phase := Confirming), [])
      else w
    case _ => w
  }

  /** After a resumed step the remaining steps run in a fresh loop with offset bases. */
  function Advanced(c: Cursor, output: string): Cursor
    requires c.local < |c.steps|
  {
    if c.resuming then
      Cursor(c.plan, c.steps[c.local + 1..], c.base + c.local + 1, c.position + c.local + 1, 0, output, false)
    else c.(local := c.local + 1, current := output)
  }

  // ---------- the terminal and the final proof of ownership ----------

  predicate Owns(w: World, leg: Leg, answer: Answer) {
    !leg.lost && answer == Answered && Holds(w.lease, leg.holder, leg.fence)
  }

  function Unproved(leg: Leg, answer: Answer): Leg {
    if answer == TimedOut then leg else leg.(lost := true)
  }

  ghost function ApplyTerminal(sys: System, w: World, a: Action): World {
    match a
    case Confirm(l, answer) =>
      if w.At(l, Confirming) then
        var leg := w.legs[l];
        if Owns(w, leg, answer) then
          w.(lease := RenewedRow(w.lease, leg.holder, leg.fence, sys.ttl, w.now)).Put(l,
            leg.(phase := if leg.kind.Live? && sys.bare then Stopping else AtTerminal), [Renewed(l, leg.fence)])
        else w.Put(l, Unproved(leg, answer).(phase := Resolving(false, false)), if answer == TimedOut then [] else [LeaseLost(l)])
      else w
    case BeginTerminal(l) =>
      if w.Inside(l, AtTerminal) then
        var leg, c := w.legs[l], w.legs[l].cursor.value;
        var index := |c.plan.steps|;
        var tool := TerminalTool(c.plan.terminal);
        var rows := if tool.Some? then w.rows.(intents := w.rows.intents[tool.value := ToolIntent(index, SideEffecting, false)]) else w.rows;
        w.(rows := rows).Put(l, leg.(phase := InTerminal), [TerminalBegan(l, index, c.current, tool.Some?)])
      else w
    // A definite outcome completes the intent; an indefinite failure leaves it open.
    case EndTerminal(l, ok, definite) =>
      if w.Inside(l, InTerminal) then
        var leg := w.legs[l];
        var tool := TerminalTool(leg.cursor.value.plan.terminal);
        var rows :=
          if (ok || definite) && tool.Some? && tool.value in w.rows.intents then
            w.rows.(intents := w.rows.intents[tool.value := w.rows.intents[tool.value].(completed := true)])
          else w.rows;
        w.(rows := rows).Put(l, leg.(terminalDone := ok, phase := if ok then Settling else Resolving(false, false)),
                             if ok then [TerminalDone(l)] else [])
      else w
    case Settle(l, ok) =>
      if w.At(l, Settling) then
        if ok then w.(key := w.ResolvedKey(true)).Put(l, w.legs[l].(phase := Stopping), [KeyResolved(l, true)])
        else w.Put(l, w.legs[l].(phase := Stopping), [])
      else w
    case StopRenewer(l) =>
      if w.At(l, Stopping) then
        w.Put(l, w.legs[l].(renewing := false, phase := Proving), [RenewerStopped(l)])
      else w
    case Prove(l, answer) =>
      if w.At(l, Proving) then
        var leg := w.legs[l];
        if Owns(w, leg, answer) then
          w.(lease := RenewedRow(w.lease, leg.holder, leg.fence, sys.ttl, w.now)).Put(l,
            leg.(phase := Resolving(true, true)), [Proved(l, leg.fence)])
        else
          w.Put(l, Unproved(leg, answer).(phase := Resolving(false, leg.terminalDone)),
                if answer == TimedOut then [] else [LeaseLost(l)])
      else w
    case _ => w
  }

  // ---------- the finish ----------

  ghost function ApplyFinish(sys: System, w: World, a: Action): World {
    match a
    case ResolveKey(l, ok) =>
      if l < |w.legs| && w.legs[l].alive && w.legs[l].phase.Resolving? then
        var phase := w.legs[l].phase;
        var next := w.legs[l].(phase := Emitting(phase.completed, ok));
        if ok then w.(key := w.ResolvedKey(phase.success)).Put(l, next, [KeyResolved(l, phase.success)])
        else w.Put(l, next, [])
      else w
    case Emit(l, ok) =>
      if l < |w.legs| && w.legs[l].alive && w.legs[l].phase.Emitting? then
        var phase := w.legs[l].phase;
        w.Put(l, w.legs[l].(phase := Saving(phase.completed, phase.clean && ok)), if ok then [Emitted(l)] else [])
      else w
    case Save(l, ok) =>
      if l < |w.legs| && w.legs[l].alive && w.legs[l].phase.Saving? then
        var phase := w.legs[l].phase;
        var next := w.legs[l].(phase := if ok && phase.clean then Pruning(phase.completed) else Releasing);
        if ok then
          w.(status := if phase.completed then Completed else Failed).Put(l, next, [Saved(l, phase.completed)])
        else w.Put(l, next, [])
      else w
    // Only a completed run loses its own journal; the retention sweep is a separate action.
    case PruneJournal(l, ok) =>
      if l < |w.legs| && w.legs[l].alive && w.legs[l].phase.Pruning? then
        var next := w.legs[l].(phase := Releasing);
        if ok && w.legs[l].phase.completed then w.(rows := w.PrunedRows()).Put(l, next, [Pruned(l)])
        else w.Put(l, next, [])
      else w
    // The deferred release; a recovery leg that lost its lease fails its run first.
    case ReleaseLease(l, reachable) =>
      if w.At(l, Releasing) then
        var leg := w.legs[l];
        var status := if leg.kind.Recovered? && leg.lost && w.status == Running then Failed else w.status;
        var next := leg.(renewing := false, phase := Ended);
        if reachable && leg.fence > 0 then
          w.(status := status, lease := ReleasedRow(w.lease, leg.holder, leg.fence, w.now)).Put(l, next, [Released(l)])
        else w.(status := status).Put(l, next, if leg.fence > 0 then [Released(l)] else [])
      else w
    case _ => w
  }
}
