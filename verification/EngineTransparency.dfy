/**
 Crash transparency: however often a run crashes, is claimed, suspended and resumed,
 by any number of legs in any interleaving, every step and the terminal see the value
 of the uninterrupted fold, and the checkpoints of a journaled run are a prefix of it.
 */
module EngineTransparency {
  import opened Wrappers
  import opened Plans
  import opened PlanHash
  import opened Namespaces
  import opened Recovery
  import opened Leases
  import opened Engine

  ghost predicate WellFormed(sys: System) {
    CollisionFree(sys.id.digest) && GoSized(PlanFields(sys.plan, sys.build))
  }

  /** What one logged event has to say about the values it saw. */
  predicate Transparent(sys: System, e: Event) {
    match e
    case StepBegan(_, index, position, step, input) =>
      index < sys.count && position == index && step == sys.plan.steps[index] && input == sys.Value(index)
    case TerminalBegan(_, index, input, effectful) =>
      index == sys.count && input == sys.Value(sys.count) && effectful == TerminalTool(sys.plan.terminal).Some?
    case CallBegan(_, index, _) => index < sys.count
    case ReplayStarted(_, index, input) =>
      index <= sys.count && input == sys.Value(index) && sys.redact(input) == input
    case ReplayRefused(_, index) =>
      index <= sys.count && sys.redact(sys.Value(index)) != sys.Value(index)
    case _ => true
  }

  predicate LogTransparent(sys: System, log: seq<Event>) {
    forall q | 0 <= q < |log| :: Transparent(sys, log[q])
  }

  predicate CheckpointsOk(sys: System, m: map<nat, RunCheckpoint>) {
    forall k | k in m :: k < sys.count && m[k] == sys.Checkpoint(k, sys.Value(k + 1))
  }

  predicate Contiguous(m: map<nat, RunCheckpoint>) {
    forall k, j: nat | k in m && j < k :: j in m
  }

  predicate Checkpointed(m: map<nat, RunCheckpoint>, count: nat) {
    forall j: nat | j < count :: j in m
  }

  /** The cursor stands where the uninterrupted run would stand, with its value. */
  predicate OnTrack(sys: System, c: Cursor) {
    && c.plan == sys.plan
    && c.position == c.base <= sys.count
    && c.steps == sys.plan.steps[c.base..]
    && c.local <= |c.steps|
    && c.current == sys.Value(c.Index())
    && (c.resuming ==> c.local < |c.steps|)
  }

  predicate BeforeJournal(leg: Leg) {
    leg.kind.Live? && (leg.phase.Starting? || leg.phase.Acquiring? || leg.phase.Journaling?)
  }

  /** What the phase of a leg promises about its cursor. */
  predicate PhaseOk(leg: Leg) {
    && (leg.phase.Starting? || leg.phase.Journaling? ==> leg.kind.Live?)
    && (leg.parked ==> leg.phase.Releasing? || leg.phase.Ended?)
    && (leg.phase == InStep || leg.parked || (!leg.kind.Live? && leg.phase == Acquiring) ==>
          leg.cursor.Some? && leg.cursor.value.local < |leg.cursor.value.steps|)
    && (leg.phase.Confirming? || leg.phase.AtTerminal? ==>
          leg.cursor.Some? && leg.cursor.value.local == |leg.cursor.value.steps|)
  }

  predicate LegOk(sys: System, leg: Leg, l: nat, count: nat, rows: Rows) {
    && PhaseOk(leg)
    && (leg.snapshot.Some? ==> leg.snapshot.value == sys.Journal())
    && (leg.kind.Live? ==> l == 0)
    && (BeforeJournal(leg) ==> count == 1 && rows == NO_ROWS)
    && (leg.cursor.Some? ==> OnTrack(sys, leg.cursor.value))
    && (leg.cursor.Some? && rows.journal.Some? ==> Checkpointed(rows.checkpoints, leg.cursor.value.Index()))
  }

  predicate RowsOk(sys: System, rows: Rows) {
    && CheckpointsOk(sys, rows.checkpoints)
    && (rows.journal.Some? ==> rows.journal.value == sys.Journal() && Contiguous(rows.checkpoints))
  }

  predicate Inv(sys: System, w: World) {
    && LogTransparent(sys, w.log)
    && RowsOk(sys, w.rows)
    && forall l | 0 <= l < |w.legs| :: LegOk(sys, w.legs[l], l, |w.legs|, w.rows)
  }

  // ---------- steps that touch one leg ----------

  /** The tables lose nothing that a leg relies on. */
  predicate RowsKept(rows: Rows, rows': Rows) {
    || rows' == NO_ROWS
    || (rows'.journal == rows.journal && rows.checkpoints.Keys <= rows'.checkpoints.Keys)
  }

  lemma LegStep(sys: System, w: World, w': World, l: nat, leg: Leg, events: seq<Event>)
    requires Inv(sys, w) && l < |w.legs|
    requires w'.legs == w.legs[l := leg] && w'.log == w.log + events && LogTransparent(sys, events)
    requires RowsOk(sys, w'.rows) && (|w.legs| == 1 || RowsKept(w.rows, w'.rows))
    requires LegOk(sys, leg, l, |w.legs|, w'.rows)
    ensures Inv(sys, w')
  {
    forall i | 0 <= i < |w'.legs|
      ensures LegOk(sys, w'.legs[i], i, |w'.legs|, w'.rows)
    {
      assert LegOk(sys, w.legs[i], i, |w.legs|, w.rows);
    }
  }

  /** A leg that keeps its place in the plan and goes to a phase that promises no more. */
  lemma PhaseStep(sys: System, w: World, w': World, l: nat, leg: Leg, events: seq<Event>)
    requires Inv(sys, w) && l < |w.legs|
    requires w'.legs == w.legs[l := leg] && w'.log == w.log + events && LogTransparent(sys, events)
    requires w'.rows == w.rows || w'.rows == NO_ROWS
    requires leg.cursor == w.legs[l].cursor && leg.snapshot == w.legs[l].snapshot && leg.kind == w.legs[l].kind
    requires PhaseOk(w.legs[l]) ==> PhaseOk(leg)
    requires BeforeJournal(leg) ==> BeforeJournal(w.legs[l])
    ensures Inv(sys, w')
  {
    forall i | 0 <= i < |w'.legs|
      ensures LegOk(sys, w'.legs[i], i, |w'.legs|, w'.rows)
    {
      assert LegOk(sys, w.legs[i], i, |w.legs|, w.rows);
    }
  }

  /** A change of the tables alone that keeps checkpoints. */
  lemma RowsStep(sys: System, w: World, w': World, events: seq<Event>)
    requires Inv(sys, w)
    requires w'.legs == w.legs && w'.log == w.log + events && LogTransparent(sys, events)
    requires w'.rows == NO_ROWS || (w'.rows.journal == w.rows.journal && w'.rows.checkpoints == w.rows.checkpoints)
    requires w'.rows != w.rows && w'.rows != NO_ROWS ==> forall i | 0 <= i < |w.legs| :: !BeforeJournal(w.legs[i])
    ensures Inv(sys, w')
  {
    forall i | 0 <= i < |w'.legs|
      ensures LegOk(sys, w'.legs[i], i, |w'.legs|, w'.rows)
    {
      assert LegOk(sys, w.legs[i], i, |w.legs|, w.rows);
    }
  }

  /** A new leg never is a live one; the journal has been written before it came. */
  lemma NewLegStep(sys: System, w: World, w': World, leg: Leg)
    requires Inv(sys, w)
    requires w'.legs == w.legs + [leg] && w'.log == w.log && w'.rows == w.rows
    requires forall i | 0 <= i < |w.legs| :: !BeforeJournal(w.legs[i])
    requires LegOk(sys, leg, |w.legs|, |w.legs| + 1, w.rows)
    ensures Inv(sys, w')
  {
    forall i | 0 <= i < |w.legs|
      ensures LegOk(sys, w'.legs[i], i, |w'.legs|, w'.rows)
    {
      assert LegOk(sys, w.legs[i], i, |w.legs|, w.rows);
    }
  }

  lemma Facts(sys: System, w: World, l: nat)
    requires Inv(sys, w) && l < |w.legs|
    ensures RowsOk(sys, w.rows) && LegOk(sys, w.legs[l], l, |w.legs|, w.rows)
    ensures !BeforeJournal(w.legs[l]) ==> forall i | 0 <= i < |w.legs| :: !BeforeJournal(w.legs[i])
  {
    forall i | 0 <= i < |w.legs|
      ensures BeforeJournal(w.legs[i]) ==> |w.legs| == 1
    {
      assert LegOk(sys, w.legs[i], i, |w.legs|, w.rows);
    }
  }

  // ---------- every action keeps the invariant ----------

  lemma InitHolds(sys: System, holder: string, reserved: bool, now: int)
    ensures Inv(sys, Init(sys, holder, reserved, now))
  {
  }

  lemma EnvironmentKeeps(sys: System, w: World, a: Action)
    requires Inv(sys, w)
    ensures Inv(sys, ApplyEnvironment(sys, w, a))
  {
    hide Inv;
    var w' := ApplyEnvironment(sys, w, a);
    var events := w'.log[|w.log|..];
    assert w'.log == w.log + events;
    if a.Beat? || a.Crash? {
      if w' != w {
        PhaseStep(sys, w, w', a.l, w'.legs[a.l], events);
      }
    } else {
      RowsStep(sys, w, w', events);
    }
  }

  lemma OutcomeKeeps(sys: System, w: World, a: Action)
    requires Inv(sys, w) && (a.ResolveKey? || a.Emit? || a.Save?)
    ensures Inv(sys, ApplyFinish(sys, w, a))
  {
    hide Inv, LegOk, RowsOk, World.ResolvedKey;
    var w' := ApplyFinish(sys, w, a);
    if w' != w {
      var events := w'.log[|w.log|..];
      assert w'.log == w.log + events;
      PhaseStep(sys, w, w', a.l, w'.legs[a.l], events);
    }
  }

  lemma ReleaseKeeps(sys: System, w: World, a: Action)
    requires Inv(sys, w) && (a.PruneJournal? || a.ReleaseLease?)
    ensures Inv(sys, ApplyFinish(sys, w, a))
  {
    hide Inv, LegOk, RowsOk;
    var w' := ApplyFinish(sys, w, a);
    if w' != w {
      var events := w'.log[|w.log|..];
      assert w'.log == w.log + events;
      PhaseStep(sys, w, w', a.l, w'.legs[a.l], events);
    }
  }

  lemma FinishKeeps(sys: System, w: World, a: Action)
    requires Inv(sys, w)
    ensures Inv(sys, ApplyFinish(sys, w, a))
  {
    hide Inv;
    match a {
      case ResolveKey(_, _) => OutcomeKeeps(sys, w, a);
      case Emit(_, _) => OutcomeKeeps(sys, w, a);
      case Save(_, _) => OutcomeKeeps(sys, w, a);
      case PruneJournal(_, _) => ReleaseKeeps(sys, w, a);
      case ReleaseLease(_, _) => ReleaseKeeps(sys, w, a);
      case _ =>
    }
  }

  lemma BeginTerminalKeeps(sys: System, w: World, l: nat)
    requires Inv(sys, w)
    ensures Inv(sys, ApplyTerminal(sys, w, BeginTerminal(l)))
  {
    hide Inv, System.Journal, System.Checkpoint;
    var w' := ApplyTerminal(sys, w, BeginTerminal(l));
    if w' != w {
      Facts(sys, w, l);
      var c := w.legs[l].cursor.value;
      assert c.Index() == sys.count;
      LegStep(sys, w, w', l, w'.legs[l], [TerminalBegan(l, sys.count, c.current, TerminalTool(c.plan.terminal).Some?)]);
    }
  }

  lemma EndTerminalKeeps(sys: System, w: World, l: nat, ok: bool, definite: bool)
    requires Inv(sys, w)
    ensures Inv(sys, ApplyTerminal(sys, w, EndTerminal(l, ok, definite)))
  {
    hide Inv, LegOk, RowsOk;
    var w' := ApplyTerminal(sys, w, EndTerminal(l, ok, definite));
    if w' != w {
      Facts(sys, w, l);
      var middle := w.(rows := w'.rows);
      RowsStep(sys, w, middle, []);
      PhaseStep(sys, middle, w', l, w'.legs[l], if ok then [TerminalDone(l)] else []);
    }
  }

  lemma ConfirmKeeps(sys: System, w: World, a: Action)
    requires Inv(sys, w) && (a.Confirm?)
    ensures Inv(sys, ApplyTerminal(sys, w, a))
  {
    hide Inv, LegOk, RowsOk, Owns;
    var w' := ApplyTerminal(sys, w, a);
    if w' != w {
      var events := w'.log[|w.log|..];
      assert w'.log == w.log + events;
      PhaseStep(sys, w, w', a.l, w'.legs[a.l], events);
    }
  }

  lemma ProveKeeps(sys: System, w: World, a: Action)
    requires Inv(sys, w) && (a.Prove?)
    ensures Inv(sys, ApplyTerminal(sys, w, a))
  {
    hide Inv, LegOk, RowsOk, Owns;
    var w' := ApplyTerminal(sys, w, a);
    if w' != w {
      var events := w'.log[|w.log|..];
      assert w'.log == w.log + events;
      PhaseStep(sys, w, w', a.l, w'.legs[a.l], events);
    }
  }

  lemma SettleKeeps(sys: System, w: World, a: Action)
    requires Inv(sys, w) && (a.Settle? || a.StopRenewer?)
    ensures Inv(sys, ApplyTerminal(sys, w, a))
  {
    hide Inv, LegOk, RowsOk;
    var w' := ApplyTerminal(sys, w, a);
    if w' != w {
      var events := w'.log[|w.log|..];
      assert w'.log == w.log + events;
      PhaseStep(sys, w, w', a.l, w'.legs[a.l], events);
    }
  }

  lemma TerminalKeeps(sys: System, w: World, a: Action)
    requires Inv(sys, w)
    ensures Inv(sys, ApplyTerminal(sys, w, a))
  {
    hide Inv;
    match a {
      case BeginTerminal(l) => BeginTerminalKeeps(sys, w, l);
      case EndTerminal(l, ok, definite) => EndTerminalKeeps(sys, w, l, ok, definite);
      case Confirm(_, _) => ConfirmKeeps(sys, w, a);
      case Prove(_, _) => ProveKeeps(sys, w, a);
      case Settle(_, _) => SettleKeeps(sys, w, a);
      case StopRenewer(_) => SettleKeeps(sys, w, a);
      case _ =>
    }
  }

  lemma AdvancedStaysOnTrack(sys: System, c: Cursor)
    requires OnTrack(sys, c) && c.local < |c.steps|
    ensures var c' := Advanced(c, sys.run(c.steps[c.local], c.current));
            OnTrack(sys, c') && c'.Index() == c.Index() + 1
    ensures c.Index() < sys.count && c.steps[c.local] == sys.plan.steps[c.Index()]
    ensures sys.run(c.steps[c.local], c.current) == sys.Value(c.Index() + 1)
  {
    var c' := Advanced(c, sys.run(c.steps[c.local], c.current));
    assert c'.steps == sys.plan.steps[c'.base..];
  }

  lemma CheckpointKeepsRows(sys: System, rows: Rows, i: nat, output: string)
    requires RowsOk(sys, rows) && i < sys.count && output == sys.Value(i + 1)
    requires rows.journal.Some? ==> Checkpointed(rows.checkpoints, i)
    ensures RowsOk(sys, rows.(checkpoints := rows.checkpoints[i := sys.Checkpoint(i, output)]))
  {
  }

  lemma EndedStep(sys: System, w: World, w': World, l: nat)
    requires Inv(sys, w) && w.HasStep(l, InStep)
    requires var c := w.legs[l].cursor.value;
             var output := sys.run(c.steps[c.local], c.current);
             && w'.legs == w.legs[l := w.legs[l].(cursor := Some(Advanced(c, output)), phase := Looping)] && w'.log == w.log
             && w'.rows == w.rows.(checkpoints := w.rows.checkpoints[c.Index() := sys.Checkpoint(c.Index(), output)])
    ensures Inv(sys, w')
  {
    hide Inv, RowsOk, OnTrack, Advanced, System.Journal, System.Value;
    Facts(sys, w, l);
    var c := w.legs[l].cursor.value;
    AdvancedStaysOnTrack(sys, c);
    CheckpointKeepsRows(sys, w.rows, c.Index(), sys.run(c.steps[c.local], c.current));
    LegStep(sys, w, w', l, w'.legs[l], []);
  }

  lemma EndStepKeeps(sys: System, w: World, l: nat)
    requires Inv(sys, w)
    ensures Inv(sys, ApplyLoop(sys, w, EndStep(l)))
  {
    hide Inv, Advanced, System.Checkpoint;
    var w' := ApplyLoop(sys, w, EndStep(l));
    if w' != w {
      EndedStep(sys, w, w', l);
    }
  }

  lemma BeginStepKeeps(sys: System, w: World, l: nat)
    requires Inv(sys, w)
    ensures Inv(sys, ApplyLoop(sys, w, BeginStep(l)))
  {
    hide Inv, RowsOk, System.Journal, System.Value;
    var w' := ApplyLoop(sys, w, BeginStep(l));
    if w' != w {
      Facts(sys, w, l);
      var c := w.legs[l].cursor.value;
      AdvancedStaysOnTrack(sys, c);
      LegStep(sys, w, w', l, w'.legs[l], [StepBegan(l, c.Index(), c.position + c.local, c.steps[c.local], c.current)]);
    }
  }

  lemma BeginCallKeeps(sys: System, w: World, l: nat, id: string, effect: Effect)
    requires Inv(sys, w)
    ensures Inv(sys, ApplyLoop(sys, w, BeginCall(l, id, effect)))
  {
    hide Inv, RowsOk, System.Journal, System.Value;
    var w' := ApplyLoop(sys, w, BeginCall(l, id, effect));
    if w' != w {
      Facts(sys, w, l);
      RowsStep(sys, w, w', [CallBegan(l, w.legs[l].cursor.value.Index(), effect)]);
    }
  }

  lemma LoopKeeps(sys: System, w: World, a: Action)
    requires Inv(sys, w)
    ensures Inv(sys, ApplyLoop(sys, w, a))
  {
    hide Inv, LegOk, RowsOk;
    var w' := ApplyLoop(sys, w, a);
    if a.EndStep? {
      EndStepKeeps(sys, w, a.l);
    } else if a.BeginStep? {
      BeginStepKeeps(sys, w, a.l);
    } else if w' != w {
      var events := w'.log[|w.log|..];
      assert w'.log == w.log + events;
      Facts(sys, w, a.l);
      if a.BeginCall? {
        BeginCallKeeps(sys, w, a.l, a.id, a.effect);
      } else if a.EndCall? {
        RowsStep(sys, w, w', events);
      } else if a.EndLoop? {
        EndLoopKeeps(sys, w, a.l);
      } else {
        PhaseStep(sys, w, w', a.l, w'.legs[a.l], events);
      }
    }
  }

  lemma EndLoopKeeps(sys: System, w: World, l: nat)
    requires Inv(sys, w)
    ensures Inv(sys, ApplyLoop(sys, w, EndLoop(l)))
  {
    hide Inv, RowsOk, OnTrack;
    var w' := ApplyLoop(sys, w, EndLoop(l));
    if w' != w {
      Facts(sys, w, l);
      LegStep(sys, w, w', l, w'.legs[l], []);
    }
  }

  lemma WriteJournalKeeps(sys: System, w: World, l: nat, ok: bool)
    requires Inv(sys, w)
    ensures Inv(sys, ApplyEntry(sys, w, WriteJournal(l, ok)))
  {
    hide Inv;
    var w' := ApplyEntry(sys, w, WriteJournal(l, ok));
    if w' != w {
      Facts(sys, w, l);
      assert sys.plan.steps[0..] == sys.plan.steps;
      LegStep(sys, w, w', l, w'.legs[l], []);
    }
  }

  lemma ResumeKeeps(sys: System, w: World, l: nat)
    requires Inv(sys, w)
    ensures Inv(sys, ApplyEntry(sys, w, Resume(l)))
  {
    hide Inv, RowsOk;
    var w' := ApplyEntry(sys, w, Resume(l));
    if w' != w {
      Facts(sys, w, l);
      var middle := w.(legs := w.legs[l := w.legs[l].(parked := false)]);
      PhaseStep(sys, w, middle, l, middle.legs[l], []);
      Facts(sys, middle, l);
      NewLegStep(sys, middle, w', w'.legs[|w.legs|]);
    }
  }

  lemma StartKeeps(sys: System, w: World, a: Action)
    requires Inv(sys, w) && (a.StartRun?)
    ensures Inv(sys, ApplyEntry(sys, w, a))
  {
    hide Inv, RowsOk, LegOk, System.Journal, World.ResolvedKey;
    var w' := ApplyEntry(sys, w, a);
    if w' != w {
      var events := w'.log[|w.log|..];
      assert w'.log == w.log + events;
      PhaseStep(sys, w, w', a.l, w'.legs[a.l], events);
    }
  }

  lemma AcquireKeeps(sys: System, w: World, a: Action)
    requires Inv(sys, w) && (a.AcquireLease? || a.GiveUp?)
    ensures Inv(sys, ApplyEntry(sys, w, a))
  {
    hide Inv, RowsOk, LegOk, System.Journal, World.ResolvedKey;
    var w' := ApplyEntry(sys, w, a);
    if w' != w {
      var events := w'.log[|w.log|..];
      assert w'.log == w.log + events;
      PhaseStep(sys, w, w', a.l, w'.legs[a.l], events);
    }
  }

  lemma EntryKeeps(sys: System, w: World, a: Action)
    requires Inv(sys, w)
    ensures Inv(sys, ApplyEntry(sys, w, a))
  {
    hide Inv;
    match a {
      case WriteJournal(l, ok) => WriteJournalKeeps(sys, w, l, ok);
      case Resume(l) => ResumeKeeps(sys, w, l);
      case StartRun(_, _, _) => StartKeeps(sys, w, a);
      case AcquireLease(_, _) => AcquireKeeps(sys, w, a);
      case GiveUp(_) => AcquireKeeps(sys, w, a);
      case _ =>
    }
  }

  // ---------- recovery ----------

  /** The value that a replay needs is the fold's value exactly when it was stored unredacted. */
  lemma ReplayPointFacts(sys: System, points: seq<RunCheckpoint>, m: map<nat, RunCheckpoint>)
    requires ListsCheckpoints(points, m) && CheckpointsOk(sys, m)
    ensures var point := DurableReplayInput(sys.Journal(), points);
            && point.resumeIndex <= sys.count
            && (point.replayUnsafe <==> sys.redact(sys.Value(point.resumeIndex)) != sys.Value(point.resumeIndex))
            && (!point.replayUnsafe ==> point.input == sys.Value(point.resumeIndex))
            && (Contiguous(m) ==> Checkpointed(m, point.resumeIndex))
            && (forall k | k in m :: k < point.resumeIndex)
  {
    hide DurablePlanHash, DurablePlanKey;
    LastPointIsHighest(points, m);
    if points != [] {
      var last := points[|points| - 1];
      assert last == sys.Checkpoint(last.stepIndex, sys.Value(last.stepIndex + 1));
    }
  }

  lemma LastPointIsHighest(points: seq<RunCheckpoint>, m: map<nat, RunCheckpoint>)
    requires ListsCheckpoints(points, m)
    requires forall k | k in m :: m[k].stepIndex == k
    ensures points == [] <==> m == map[]
    ensures points != [] ==>
              var last := points[|points| - 1];
              last.stepIndex in m && m[last.stepIndex] == last && forall k | k in m :: k <= last.stepIndex
  {
    forall k | k in m
      ensures points != [] && k <= points[|points| - 1].stepIndex
    {
      var i :| 0 <= i < |points| && points[i] == m[k];
      assert i < |points| - 1 ==> points[i].stepIndex < points[|points| - 1].stepIndex;
    }
    if points != [] {
      assert points[|points| - 1].stepIndex in m;
    }
  }

  /** Some intent row at or behind the resume index is open or not idempotent. */
  predicate Blocked(intents: seq<ToolIntent>, resumeIndex: nat) {
    exists i | 0 <= i < |intents| :: Blocks(intents[i], resumeIndex)
  }

  predicate Deployed(sys: System, d: Deployment) {
    sys.plan in d.plans && sys.build == d.build
  }

  /** The verdict on a journaled run of the system, check by check. */
  lemma VerdictIsExact(sys: System, d: Deployment, points: seq<RunCheckpoint>, intents: seq<ToolIntent>, force: bool)
    requires WellFormed(sys) && DeploymentGoSized(d)
    ensures var verdict := ReplayVerdict(sys.id, d, sys.Journal(), points, intents, force);
            var point := DurableReplayInput(sys.Journal(), points);
            if !Deployed(sys, d) then verdict.PlanMissing? || verdict.PlanHashMismatch?
            else if DurableRunClientGone(sys.plan) then verdict.ClientGone?
            else if point.replayUnsafe then verdict.ReplayUnsafe?
            else if !force && Blocked(intents, point.resumeIndex) then verdict.Indeterminate?
            else verdict == Verdict.Replay(sys.plan, point)
  {
    hide PlanFields, DurablePlanKey, PlanForJournal;
    LookupFindsIdenticalPlan(sys.id, d, sys.Journal(), sys.plan, sys.build);
  }

  lemma ReplayKeeps(sys: System, w: World, w': World, l: nat, point: ReplayPoint)
    requires Inv(sys, w) && w.At(l, Deciding)
    requires point.resumeIndex <= sys.count && !point.replayUnsafe
    requires point.input == sys.Value(point.resumeIndex) == sys.redact(point.input)
    requires Contiguous(w.rows.checkpoints) ==> Checkpointed(w.rows.checkpoints, point.resumeIndex)
    requires w'.rows == w.rows && w'.log == w.log + [ReplayStarted(l, point.resumeIndex, point.input)]
    requires var k := point.resumeIndex;
             w'.legs == w.legs[l := w.legs[l].(cursor := Some(Cursor(sys.plan, sys.plan.steps[k..], k, k, 0, point.input, false)),
                                                phase := Looping)]
    ensures Inv(sys, w')
  {
    hide Inv, System.Journal, System.Checkpoint, System.Value, CheckpointsOk;
    Facts(sys, w, l);
    LegStep(sys, w, w', l, w'.legs[l], [ReplayStarted(l, point.resumeIndex, point.input)]);
  }

  lemma DecidedKeeps(sys: System, w: World, l: nat, verdict: Verdict, point: ReplayPoint)
    requires Inv(sys, w) && w.At(l, Deciding) && w.legs[l].kind.Recovered?
    requires point.resumeIndex <= sys.count
    requires point.replayUnsafe <==> sys.redact(sys.Value(point.resumeIndex)) != sys.Value(point.resumeIndex)
    requires !point.replayUnsafe ==> point.input == sys.Value(point.resumeIndex)
    requires Contiguous(w.rows.checkpoints) ==> Checkpointed(w.rows.checkpoints, point.resumeIndex)
    requires verdict.Replay? ==> verdict.plan == sys.plan && verdict.point == point && !point.replayUnsafe
    requires verdict.ReplayUnsafe? ==> point.replayUnsafe
    ensures Inv(sys, Decided(w, l, point.resumeIndex, verdict))
  {
    hide Inv, LegOk, RowsOk, OnTrack, Contiguous, Checkpointed, System.Journal, System.Value;
    var w' := Decided(w, l, point.resumeIndex, verdict);
    if verdict.Replay? {
      ReplayKeeps(sys, w, w', l, point);
    } else {
      var events := w'.log[|w.log|..];
      assert w'.log == w.log + events;
      PhaseStep(sys, w, w', l, w'.legs[l], events);
    }
  }

  lemma DecideKeeps(sys: System, w: World, l: nat, d: Deployment, points: seq<RunCheckpoint>, intents: seq<ToolIntent>, ok: bool)
    requires WellFormed(sys) && Inv(sys, w)
    ensures Inv(sys, ApplyRecovery(sys, w, Decide(l, d, points, intents, ok)))
  {
    hide Inv, LegOk, RowsOk, OnTrack, CheckpointsOk, Contiguous, System.Journal, System.Value, ReplayVerdict,
      DurableReplayInput, ListsIntents, ListsCheckpoints, Decided, DeploymentGoSized;
    var w' := ApplyRecovery(sys, w, Decide(l, d, points, intents, ok));
    if w' != w {
      LegFacts(sys, w, l);
      var forced := w.legs[l].kind.forced;
      ReplayPointFacts(sys, points, w.rows.checkpoints);
      VerdictIsExact(sys, d, points, intents, forced);
      if ok && w.waiting == {} {
        DecidedKeeps(sys, w, l, ReplayVerdict(sys.id, d, sys.Journal(), points, intents, forced),
                     DurableReplayInput(sys.Journal(), points));
      } else {
        PhaseStep(sys, w, w', l, w'.legs[l], []);
      }
    }
  }

  lemma LegFacts(sys: System, w: World, l: nat)
    requires Inv(sys, w) && l < |w.legs|
    ensures w.legs[l].snapshot.Some? ==> w.legs[l].snapshot.value == sys.Journal()
    ensures CheckpointsOk(sys, w.rows.checkpoints)
  {
    hide System.Journal;
    Facts(sys, w, l);
  }

  lemma ScanKeeps(sys: System, w: World, holder: string, force: bool)
    requires Inv(sys, w)
    ensures Inv(sys, ApplyRecovery(sys, w, Scan(holder, force)))
  {
    var w' := ApplyRecovery(sys, w, Scan(holder, force));
    if w' != w {
      forall i | 0 <= i < |w.legs|
        ensures !BeforeJournal(w.legs[i])
      {
        assert LegOk(sys, w.legs[i], i, |w.legs|, w.rows);
      }
      NewLegStep(sys, w, w', w'.legs[|w.legs|]);
    }
  }

  lemma ClaimKeeps(sys: System, w: World, a: Action)
    requires Inv(sys, w) && (a.Claim?)
    ensures Inv(sys, ApplyRecovery(sys, w, a))
  {
    hide Inv, LegOk, RowsOk, ReplayVerdict, DurableReplayInput, Decided;
    var w' := ApplyRecovery(sys, w, a);
    if w' != w {
      var events := w'.log[|w.log|..];
      assert w'.log == w.log + events;
      PhaseStep(sys, w, w', a.l, w'.legs[a.l], events);
    }
  }

  lemma FailRunKeeps(sys: System, w: World, a: Action)
    requires Inv(sys, w) && (a.FailRun? || a.PruneRun?)
    ensures Inv(sys, ApplyRecovery(sys, w, a))
  {
    hide Inv, LegOk, RowsOk, ReplayVerdict, DurableReplayInput, Decided;
    var w' := ApplyRecovery(sys, w, a);
    if w' != w {
      var events := w'.log[|w.log|..];
      assert w'.log == w.log + events;
      PhaseStep(sys, w, w', a.l, w'.legs[a.l], events);
    }
  }

  lemma RecoveryKeeps(sys: System, w: World, a: Action)
    requires WellFormed(sys) && Inv(sys, w)
    ensures Inv(sys, ApplyRecovery(sys, w, a))
  {
    hide Inv, WellFormed;
    match a {
      case Scan(holder, force) => ScanKeeps(sys, w, holder, force);
      case Decide(l, d, points, intents, ok) => DecideKeeps(sys, w, l, d, points, intents, ok);
      case Claim(_) => ClaimKeeps(sys, w, a);
      case FailRun(_, _) => FailRunKeeps(sys, w, a);
      case PruneRun(_, _) => FailRunKeeps(sys, w, a);
      case _ =>
    }
  }

  lemma {:induction false} ExecKeeps(sys: System, w: World, acts: seq<Action>)
    requires WellFormed(sys) && Inv(sys, w)
    ensures Inv(sys, Exec(sys, w, acts))
    decreases |acts|
  {
    if acts != [] {
      var a := acts[|acts| - 1];
      ExecKeeps(sys, w, acts[..|acts| - 1]);
      var before := Exec(sys, w, acts[..|acts| - 1]);
      hide Inv, ApplyEnvironment, ApplyEntry, ApplyRecovery, ApplyLoop, ApplyTerminal, ApplyFinish, WellFormed;
      EnvironmentKeeps(sys, before, a);
      EntryKeeps(sys, before, a);
      RecoveryKeeps(sys, before, a);
      LoopKeeps(sys, before, a);
      TerminalKeeps(sys, before, a);
      FinishKeeps(sys, before, a);
    }
  }

  // ---------- the theorems ----------

  /** A finite downward-closed set of indices is an initial segment. */
  lemma {:induction false} DownwardClosed(s: set<nat>)
    requires forall k, j: nat | k in s && j < k :: j in s
    ensures forall i: nat :: i in s <==> i < |s|
  {
    if s != {} {
      var top := Highest(s);
      DownwardClosed(s - {top});
      var last: nat := |s| - 1;
      assert last in s - {top} <==> last < |s - {top}|;
      assert top in s - {top} <==> top < |s - {top}|;
    }
  }

  lemma {:induction false} Highest(s: set<nat>) returns (top: nat)
    requires s != {}
    ensures top in s && forall i | i in s :: i <= top
  {
    top :| top in s;
    if s != {top} {
      var rest := Highest(s - {top});
      assert forall i | i in s :: i == top || i in s - {top};
      if rest > top {
        top := rest;
      }
    }
  }

  /**
   Any run, however it is crashed, claimed, suspended, resumed and interleaved:
   every step that begins sees the fold's value at its own index and is the original
   plan's step there, under its own idempotency position; the terminal sees the fold
   of the whole plan; a replay starts from the fold and is refused only for a redacted
   value; and while the journal stands, the checkpoints are exactly the first k of the
   uninterrupted run.
   */
  lemma CrashTransparency(sys: System, holder: string, reserved: bool, now: int, trace: seq<World>, acts: seq<Action>)
    requires IsRun(sys, Init(sys, holder, reserved, now), trace, acts)
    requires WellFormed(sys)
    ensures var w := trace[|acts|];
            && LogTransparent(sys, w.log)
            && (w.rows.journal.Some? ==>
                  var k := |w.rows.checkpoints|;
                  && k <= sys.count
                  && (forall i | 0 <= i < k :: i in w.rows.checkpoints
                        && w.rows.checkpoints[i] == sys.Checkpoint(i, sys.Value(i + 1)))
                  && (forall i | i in w.rows.checkpoints :: i < k))
  {
    RunEnds(sys, Init(sys, holder, reserved, now), trace, acts);
    InitHolds(sys, holder, reserved, now);
    ExecKeeps(sys, Init(sys, holder, reserved, now), acts);
    var w := Exec(sys, Init(sys, holder, reserved, now), acts);
    if w.rows.journal.Some? {
      PrefixOf(sys, w.rows.checkpoints);
    }
  }

  lemma PrefixOf(sys: System, m: map<nat, RunCheckpoint>)
    requires CheckpointsOk(sys, m) && Contiguous(m)
    ensures forall i: nat :: i in m <==> i < |m|
    ensures |m| <= sys.count
  {
    DownwardClosed(m.Keys);
    assert |m.Keys| == |m|;
    assert sys.count in m.Keys <==> sys.count < |m|;
  }

  /**
   What a claimed run says when it is decided, given its journaled plan and build, a
   client that can be served and no parked approval: it is refused exactly when the value
   it needs was redacted; it is held back exactly when that value is clean and an intent
   blocks it; and else, exactly, it resumes behind its last checkpoint with the fold's value.
   */
  lemma RefusalIsExact(sys: System, holder: string, reserved: bool, now: int, trace: seq<World>, acts: seq<Action>,
                       l: nat, d: Deployment, points: seq<RunCheckpoint>, intents: seq<ToolIntent>)
    requires IsRun(sys, Init(sys, holder, reserved, now), trace, acts)
    requires WellFormed(sys) && DeploymentGoSized(d)
    requires MayDecide(trace[|acts|], l, points, intents) && trace[|acts|].rows.journal.Some?
    requires Deployed(sys, d) && !DurableRunClientGone(sys.plan)
    ensures var w := trace[|acts|];
            var k := |w.rows.checkpoints|;
            k <= sys.count && Says(sys, w, l, d, points, intents, k)
  {
    RunEnds(sys, Init(sys, holder, reserved, now), trace, acts);
    hide Apply, ReplayVerdict, PlanFields, ListsIntents, ListsCheckpoints, Says;
    var w := Exec(sys, Init(sys, holder, reserved, now), acts);
    InitHolds(sys, holder, reserved, now);
    ExecKeeps(sys, Init(sys, holder, reserved, now), acts);
    Facts(sys, w, l);
    PrefixOf(sys, w.rows.checkpoints);
    ResumeIndexIsCount(sys, points, w.rows.checkpoints);
    DecisionSays(sys, w, l, d, points, intents);
  }

  /** A claimed leg with its journal snapshot that reads all rows and finds no approval pending. */
  ghost predicate MayDecide(w: World, l: nat, points: seq<RunCheckpoint>, intents: seq<ToolIntent>) {
    && w.At(l, Deciding) && w.legs[l].kind.Recovered? && w.legs[l].snapshot.Some? && w.waiting == {}
    && ListsCheckpoints(points, w.rows.checkpoints) && ListsIntents(intents, w.rows.intents)
  }

  /** The one event of a decision that would resume at index k. */
  ghost predicate Says(sys: System, w: World, l: nat, d: Deployment, points: seq<RunCheckpoint>, intents: seq<ToolIntent>, k: nat)
    requires l < |w.legs| && w.legs[l].kind.Recovered? && k <= sys.count
  {
    var log := Apply(sys, w, Decide(l, d, points, intents, true)).log;
    var clean := sys.redact(sys.Value(k)) == sys.Value(k);
    var held := !w.legs[l].kind.forced && Blocked(intents, k);
    && |w.log| <= |log| && log[..|w.log|] == w.log
    && var said := log[|w.log|..];
       && (!clean <==> said == [ReplayRefused(l, k)])
       && (clean && held <==> said == [])
       && (clean && !held <==> said == [ReplayStarted(l, k, sys.Value(k))])
  }

  lemma DecisionSays(sys: System, w: World, l: nat, d: Deployment, points: seq<RunCheckpoint>, intents: seq<ToolIntent>)
    requires WellFormed(sys) && DeploymentGoSized(d) && Inv(sys, w) && MayDecide(w, l, points, intents)
    requires Deployed(sys, d) && !DurableRunClientGone(sys.plan)
    ensures var k := DurableReplayInput(sys.Journal(), points).resumeIndex;
            k <= sys.count && Says(sys, w, l, d, points, intents, k)
  {
    hide PlanFields, ReplayVerdict, ListsCheckpoints, ListsIntents, WellFormed, DeploymentGoSized, Decided,
      System.Value, System.Journal, DurableReplayInput;
    LegFacts(sys, w, l);
    ReplayPointFacts(sys, points, w.rows.checkpoints);
    var forced := w.legs[l].kind.forced;
    VerdictIsExact(sys, d, points, intents, forced);
    var point := DurableReplayInput(sys.Journal(), points);
    var verdict := ReplayVerdict(sys.id, d, sys.Journal(), points, intents, forced);
    assert Apply(sys, w, Decide(l, d, points, intents, true)) == Decided(w, l, point.resumeIndex, verdict);
    DecidedLog(w, l, point.resumeIndex, verdict);
  }

  lemma DecidedLog(w: World, l: nat, resumeIndex: nat, verdict: Verdict)
    requires l < |w.legs| && w.legs[l].kind.Recovered?
    ensures var log := Decided(w, l, resumeIndex, verdict).log;
            && |w.log| <= |log| && log[..|w.log|] == w.log
            && (verdict.ReplayUnsafe? ==> log[|w.log|..] == [ReplayRefused(l, resumeIndex)])
            && (verdict.Replay? ==> log[|w.log|..] == [ReplayStarted(l, verdict.point.resumeIndex, verdict.point.input)])
            && (verdict.Indeterminate? ==> log[|w.log|..] == [])
  {
  }

  lemma ResumeIndexIsCount(sys: System, points: seq<RunCheckpoint>, m: map<nat, RunCheckpoint>)
    requires ListsCheckpoints(points, m) && CheckpointsOk(sys, m) && (forall i: nat :: i in m <==> i < |m|)
    ensures DurableReplayInput(sys.Journal(), points).resumeIndex == |m|
  {
    hide DurablePlanHash, DurablePlanKey;
    LastPointIsHighest(points, m);
    if points != [] {
      var last: nat := |m| - 1;
      assert last in m;
    }
  }

  /**
   The idempotency namespace under which a step runs, `below` being the way from the
   step to a tool inside it.
   */
  function StepNamespace(sys: System, position: nat, step: Step, below: seq<Hop>): string {
    Namespace(sys.id.digest, sys.id.Key(sys.plan), [StepHop(position, step)] + below)
  }

  /**
   Two steps that begin anywhere in a run, in the original, a resumed or a replayed
   leg, give the same path the same namespace if and only if they are the same step of
   the original plan.
   */
  lemma NamespacesAreStable(sys: System, holder: string, reserved: bool, now: int, trace: seq<World>, acts: seq<Action>, p: nat, q: nat,
                            below: seq<Hop>)
    requires IsRun(sys, Init(sys, holder, reserved, now), trace, acts)
    requires WellFormed(sys)
    requires var log := trace[|acts|].log;
             && p < |log| && q < |log| && log[p].StepBegan? && log[q].StepBegan?
             && PathGoSized(sys.id.digest, sys.id.Key(sys.plan), [StepHop(log[p].position, log[p].step)] + below)
             && PathGoSized(sys.id.digest, sys.id.Key(sys.plan), [StepHop(log[q].position, log[q].step)] + below)
    ensures var log := trace[|acts|].log;
            log[p].index == log[q].index <==>
              StepNamespace(sys, log[p].position, log[p].step, below) == StepNamespace(sys, log[q].position, log[q].step, below)
  {
    RunEnds(sys, Init(sys, holder, reserved, now), trace, acts);
    CrashTransparency(sys, holder, reserved, now, trace, acts);
    var log := Exec(sys, Init(sys, holder, reserved, now), acts).log;
    hide Exec, Init, Namespace, DurablePlanKey;
    assert Transparent(sys, log[p]) && Transparent(sys, log[q]);
    hide PathGoSized;
    var path, path' := [StepHop(log[p].position, log[p].step)] + below, [StepHop(log[q].position, log[q].step)] + below;
    var key := sys.id.Key(sys.plan);
    if Namespace(sys.id.digest, key, path) == Namespace(sys.id.digest, key, path') {
      NamespaceSeparates(sys.id.digest, key, path, key, path');
      assert path[0] == path'[0];
    }
  }
}
