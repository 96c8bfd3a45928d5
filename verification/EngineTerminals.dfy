/**
 What the terminal of a plan leaves behind, on the fields of the plan alone: the row that
 a delivery opens before it begins, what closes it, and what it forbids afterwards.
 */
module EngineTerminals {
  import opened Wrappers
  import opened Plans
  import opened Recovery
  import opened Leases
  import opened Engine
  import opened EngineOnce
  import opened EngineEffects
  import L = EngineLeases
  import T = EngineTransparency

  /** The terminal reaches out of the process: a webhook, a queue or a file. */
  predicate ReachesOut(t: Terminal) {
    || (t.kind == TerminalPush && (t.pushWebhookURL != "" || t.pushQueueURI != ""))
    || (t.kind == TerminalSink && t.sinkFilePath != "")
  }

  /** The output tool that runs such a terminal; a webhook goes before a queue. */
  function OutputTool(t: Terminal): string {
    if t.kind == TerminalSink then "ouvrier_sink_file"
    else if t.pushWebhookURL != "" then "ouvrier_push_webhook"
    else "ouvrier_push_queue"
  }

  /**
   A Push with a webhook URL or queue URI and a Sink with a file path open a side-effecting
   row behind the last step before they begin; a Reply, a Push without a destination and a
   Sink that only logs write no row.
   */
  lemma BeginLeavesRow(sys: System, w: World, l: nat)
    requires w.Inside(l, AtTerminal)
    ensures var c := w.legs[l].cursor.value;
            var w' := Apply(sys, w, BeginTerminal(l));
            && w'.rows == (if ReachesOut(c.plan.terminal) then
                             w.rows.(intents := w.rows.intents[OutputTool(c.plan.terminal) := ToolIntent(|c.plan.steps|, SideEffecting, false)])
                           else w.rows)
            && |w'.log| == |w.log| + 1 && w.log <= w'.log && w'.log[|w.log|].TerminalBegan?
            && (Effectful(w'.log[|w.log|]) <==> ReachesOut(c.plan.terminal))
  {
  }

  /** The row is closed by a success or a definite failure and stays open otherwise; either way it stays side-effecting. */
  lemma EndClosesRow(sys: System, w: World, l: nat, ok: bool, definite: bool)
    requires w.Inside(l, InTerminal) && ReachesOut(w.legs[l].cursor.value.plan.terminal)
    requires OutputTool(w.legs[l].cursor.value.plan.terminal) in w.rows.intents
    ensures var tool := OutputTool(w.legs[l].cursor.value.plan.terminal);
            var w' := Apply(sys, w, EndTerminal(l, ok, definite));
            w'.rows == if ok || definite then w.rows.(intents := w.rows.intents[tool := w.rows.intents[tool].(completed := true)]) else w.rows
  {
  }

  /** What has been begun by terminals, by the plan's own fields. */
  lemma TerminalsAreEffects(sys: System, w: World)
    requires T.Inv(sys, w)
    ensures forall q | 0 <= q < |w.log| && w.log[q].TerminalBegan? ::
              w.log[q].index == sys.count && (Effectful(w.log[q]) <==> ReachesOut(sys.plan.terminal))
  {
    forall q | 0 <= q < |w.log| && w.log[q].TerminalBegan?
      ensures w.log[q].index == sys.count && (Effectful(w.log[q]) <==> ReachesOut(sys.plan.terminal))
    {
      assert T.Transparent(sys, w.log[q]);
    }
  }

  /**
   A webhook, a queue message or a file is delivered at most once: in every guarded run of
   a plan whose terminal reaches out, at most one terminal begins.
   */
  lemma DeliversAtMostOnce(sys: System, holder: string, reserved: bool, now: int, trace: seq<World>, acts: seq<Action>)
    requires T.WellFormed(sys) && sys.ttl > 0 && ReachesOut(sys.plan.terminal)
    requires IsRun(sys, Init(sys, holder, reserved, now), trace, acts) && forall n | 0 <= n < |acts| :: Guarded(trace[n], acts[n])
    ensures var log := trace[|acts|].log;
            forall p, q | 0 <= p < q < |log| :: !(log[p].TerminalBegan? && log[q].TerminalBegan?)
  {
    var w := trace[|acts|];
    AtMostOnce(sys, holder, reserved, now, trace, acts);
    RunEnds(sys, Init(sys, holder, reserved, now), trace, acts);
    T.InitHolds(sys, holder, reserved, now);
    hide Init, Apply, T.Inv, T.WellFormed, Guarded, IsRun, Effectful, ReachesOut, Once;
    T.ExecKeeps(sys, Init(sys, holder, reserved, now), acts);
    TerminalsAreEffects(sys, w);
    forall p, q | 0 <= p < q < |w.log| && w.log[p].TerminalBegan? && w.log[q].TerminalBegan?
      ensures Again(w.log[p], w.log[q])
    {
    }
    NoPair(w.log);
  }

  lemma NoPair(log: seq<Event>)
    requires Once(log)
    requires forall p, q | 0 <= p < q < |log| && log[p].TerminalBegan? && log[q].TerminalBegan? :: Again(log[p], log[q])
    ensures forall p, q | 0 <= p < q < |log| :: !(log[p].TerminalBegan? && log[q].TerminalBegan?)
  {
  }

  /** The decision does not replay. */
  ghost predicate HeldBack(sys: System, w: World, l: nat, d: Deployment, points: seq<RunCheckpoint>, intents: seq<ToolIntent>)
  {
    forall k: nat, input :: ReplayStarted(l, k, input) in Apply(sys, w, Decide(l, d, points, intents, true)).log ==>
                              ReplayStarted(l, k, input) in w.log
  }

  /** A row that blocks from its step on holds back every decision that would begin at or before it. */
  lemma RowHoldsBack(sys: System, w: World, l: nat, d: Deployment, points: seq<RunCheckpoint>, intents: seq<ToolIntent>, id: string)
    requires T.WellFormed(sys) && DeploymentGoSized(d) && T.Inv(sys, w) && T.MayDecide(w, l, points, intents)
    requires w.legs[l].kind == Recovered(false) && id in w.rows.intents
    requires ResumesAt(points) <= w.rows.intents[id].stepIndex
    requires !w.rows.intents[id].completed || w.rows.intents[id].effect != Idempotent
    ensures HeldBack(sys, w, l, d, points, intents)
  {
    hide ReplayVerdict, T.WellFormed, DeploymentGoSized, ListsCheckpoints, Decided, System.Journal, T.Inv, T.Deployed, DurableReplayInput;
    T.LegFacts(sys, w, l);
    T.VerdictIsExact(sys, d, points, intents, false);
    ResumeIndex(sys.Journal(), points);
    var i :| 0 <= i < |intents| && intents[i] == w.rows.intents[id];
    var k := DurableReplayInput(sys.Journal(), points).resumeIndex;
    assert T.Blocked(intents, k);
    var verdict := ReplayVerdict(sys.id, d, sys.Journal(), points, intents, false);
    assert Apply(sys, w, Decide(l, d, points, intents, true)) == Decided(w, l, k, verdict);
    NoReplayLogged(w, l, k, verdict);
  }

  lemma ResumeIndex(journal: RunJournal, points: seq<RunCheckpoint>)
    ensures DurableReplayInput(journal, points).resumeIndex == ResumesAt(points)
  {
  }

  lemma NoReplayLogged(w: World, l: nat, k: nat, verdict: Verdict)
    requires l < |w.legs| && w.legs[l].kind.Recovered? && !verdict.Replay?
    ensures var log := Decided(w, l, k, verdict).log;
            forall n: nat, input :: ReplayStarted(l, n, input) in log ==> ReplayStarted(l, n, input) in w.log
  {
  }

  /**
   Once a delivery has begun, no automatic recovery replays the run while its journal stands:
   whatever the delivery came to, its row holds every decision back.
   */
  lemma DeliveryIsNotReplayed(sys: System, holder: string, reserved: bool, now: int, trace: seq<World>, acts: seq<Action>,
                              l: nat, d: Deployment, points: seq<RunCheckpoint>, intents: seq<ToolIntent>, q: nat)
    requires T.WellFormed(sys) && sys.ttl > 0 && ReachesOut(sys.plan.terminal) && DeploymentGoSized(d)
    requires IsRun(sys, Init(sys, holder, reserved, now), trace, acts) && forall n | 0 <= n < |acts| :: Orderly(trace[n], acts[n])
    requires var w := trace[|acts|];
             && w.rows.journal.Some? && q < |w.log| && w.log[q].TerminalBegan?
             && T.MayDecide(w, l, points, intents) && w.legs[l].kind == Recovered(false)
    ensures HeldBack(sys, trace[|acts|], l, d, points, intents)
  {
    var w := trace[|acts|];
    DistinctCallsSuffice(sys, holder, reserved, now, trace, acts);
    RunEnds(sys, Init(sys, holder, reserved, now), trace, acts);
    T.InitHolds(sys, holder, reserved, now);
    hide Init, Apply, T.Inv, T.WellFormed, Orderly, IsRun, ReachesOut, HeldBack, DeploymentGoSized, ListsCheckpoints, ListsIntents, System.Journal;
    T.ExecKeeps(sys, Init(sys, holder, reserved, now), acts);
    TerminalsAreEffects(sys, w);
    PointsAreBehind(sys, w, points);
    var id :| id in w.rows.intents && w.rows.intents[id].stepIndex == sys.count && Blocks(w.rows.intents[id], sys.count);
    RowHoldsBack(sys, w, l, d, points, intents, id);
  }

  /** No checkpoint is written for the terminal. */
  lemma PointsAreBehind(sys: System, w: World, points: seq<RunCheckpoint>)
    requires T.Inv(sys, w) && ListsCheckpoints(points, w.rows.checkpoints)
    ensures sys.count !in w.rows.checkpoints && ResumesAt(points) <= sys.count
  {
    if points != [] {
      var last := points[|points| - 1];
      assert last.stepIndex in w.rows.checkpoints && w.rows.checkpoints[last.stepIndex] == last;
    }
  }

  // ---------- calls that are still open ----------

  /** The action may write the row of the call id: the calls of that id, or the terminal under its own name. */
  predicate Touches(sys: System, a: Action, id: string) {
    || ((a.BeginCall? || a.EndCall?) && a.id == id)
    || ((a.BeginTerminal? || a.EndTerminal?) && ReachesOut(sys.plan.terminal) && id == OutputTool(sys.plan.terminal))
  }

  /** The row stands as it was, or all rows have gone. */
  predicate RowStays(w: World, w': World, id: string) {
    w'.rows == NO_ROWS || (id in w.rows.intents ==> id in w'.rows.intents && w'.rows.intents[id] == w.rows.intents[id])
  }

  lemma LoopKeepsRow(sys: System, w: World, a: Action, id: string)
    requires !Touches(sys, a, id)
    ensures RowStays(w, ApplyLoop(sys, w, a), id)
  {
    hide System.Checkpoint, Advanced;
  }

  lemma BeginKeepsRow(sys: System, w: World, l: nat, id: string)
    requires T.Inv(sys, w) && !Touches(sys, BeginTerminal(l), id)
    ensures RowStays(w, ApplyTerminal(sys, w, BeginTerminal(l)), id)
  {
    if l < |w.legs| {
      T.Facts(sys, w, l);
    }
    hide T.Inv, T.RowsOk;
  }

  lemma EndKeepsRow(sys: System, w: World, l: nat, ok: bool, definite: bool, id: string)
    requires T.Inv(sys, w) && !Touches(sys, EndTerminal(l, ok, definite), id)
    ensures RowStays(w, ApplyTerminal(sys, w, EndTerminal(l, ok, definite)), id)
  {
    if l < |w.legs| {
      T.Facts(sys, w, l);
    }
    hide T.Inv, T.RowsOk;
  }

  lemma CalmKeepsRow(w: World, w': World, id: string)
    requires Calm(w, w')
    ensures RowStays(w, w', id)
  {
  }

  lemma JournalKeepsRow(sys: System, w: World, l: nat, ok: bool, id: string)
    ensures RowStays(w, Apply(sys, w, WriteJournal(l, ok)), id)
  {
    hide System.Journal;
  }

  lemma ApplyKeepsRow(sys: System, w: World, a: Action, id: string)
    requires T.Inv(sys, w) && !Touches(sys, a, id)
    ensures RowStays(w, Apply(sys, w, a), id)
  {
    hide T.Inv, RowStays, Touches, Calm, ApplyEnvironment, ApplyEntry, ApplyRecovery, ApplyLoop, ApplyTerminal, ApplyFinish;
    match a {
      case WriteJournal(l, ok) => JournalKeepsRow(sys, w, l, ok, id);
      case BeginCall(_, _, _) => LoopKeepsRow(sys, w, a, id);
      case EndCall(_, _) => LoopKeepsRow(sys, w, a, id);
      case EndStep(_) => LoopKeepsRow(sys, w, a, id);
      case BeginTerminal(l) => BeginKeepsRow(sys, w, l, id);
      case EndTerminal(l, ok, definite) => EndKeepsRow(sys, w, l, ok, definite, id);
      case _ =>
        CalmApply(sys, w, a);
        CalmKeepsRow(w, Apply(sys, w, a), id);
    }
  }

  /** A call of the current step that may change something. */
  predicate Calls(w: World, l: nat, effect: Effect) {
    w.Inside(l, InStep) && effect != ReadOnly
  }

  lemma CallOpensRow(sys: System, w: World, l: nat, id: string, effect: Effect)
    requires Calls(w, l, effect)
    ensures var w' := Apply(sys, w, BeginCall(l, id, effect));
            id in w'.rows.intents && w'.rows.intents[id] == ToolIntent(w.legs[l].cursor.value.Index(), effect, false)
  {
  }

  lemma {:induction false} RowIsOpen(sys: System, holder: string, reserved: bool, now: int, trace: seq<World>, acts: seq<Action>,
                                     n: nat, m: nat, l: nat, id: string, effect: Effect)
    requires T.WellFormed(sys) && IsRun(sys, Init(sys, holder, reserved, now), trace, acts) && n < m <= |acts|
    requires acts[n] == BeginCall(l, id, effect) && Calls(trace[n], l, effect)
    requires forall i | n < i < |acts| :: !Touches(sys, acts[i], id)
    requires forall i | n < i <= |acts| :: trace[i].rows.journal.Some?
    ensures id in trace[m].rows.intents
            && trace[m].rows.intents[id] == ToolIntent(trace[n].legs[l].cursor.value.Index(), effect, false)
    decreases m
  {
    hide Init, Apply, T.WellFormed, T.Inv, Touches;
    if m == n + 1 {
      CallOpensRow(sys, trace[n], l, id, effect);
    } else {
      RowIsOpen(sys, holder, reserved, now, trace, acts, n, m - 1, l, id, effect);
      RunIsExec(sys, Init(sys, holder, reserved, now), trace, acts, m - 1);
      T.InitHolds(sys, holder, reserved, now);
      T.ExecKeeps(sys, Init(sys, holder, reserved, now), acts[..m - 1]);
      ApplyKeepsRow(sys, trace[m - 1], acts[m - 1], id);
    }
  }

  /**
   A side-effecting or idempotent call whose outcome is not known holds recovery back: as
   long as nothing closes it or uses its id again, the journal stands and its step is not
   checkpointed, no automatic decision replays the run.
   */
  lemma OpenCallHoldsBack(sys: System, holder: string, reserved: bool, now: int, trace: seq<World>, acts: seq<Action>,
                          n: nat, caller: nat, id: string, effect: Effect,
                          l: nat, d: Deployment, points: seq<RunCheckpoint>, intents: seq<ToolIntent>)
    requires T.WellFormed(sys) && DeploymentGoSized(d) && IsRun(sys, Init(sys, holder, reserved, now), trace, acts) && n < |acts|
    requires acts[n] == BeginCall(caller, id, effect) && Calls(trace[n], caller, effect)
    requires forall i | n < i < |acts| :: !Touches(sys, acts[i], id)
    requires forall i | n < i <= |acts| :: trace[i].rows.journal.Some?
    requires var w := trace[|acts|];
             && T.MayDecide(w, l, points, intents) && w.legs[l].kind == Recovered(false)
             && trace[n].legs[caller].cursor.value.Index() !in w.rows.checkpoints
    ensures HeldBack(sys, trace[|acts|], l, d, points, intents)
  {
    var w := trace[|acts|];
    hide Init, Apply, T.WellFormed, T.Inv, Touches, HeldBack, DeploymentGoSized, ListsIntents, ListsCheckpoints;
    RowIsOpen(sys, holder, reserved, now, trace, acts, n, |acts|, caller, id, effect);
    RunEnds(sys, Init(sys, holder, reserved, now), trace, acts);
    T.InitHolds(sys, holder, reserved, now);
    T.ExecKeeps(sys, Init(sys, holder, reserved, now), acts);
    PointsBefore(sys, w, points, trace[n].legs[caller].cursor.value.Index());
    RowHoldsBack(sys, w, l, d, points, intents, id);
  }

  /** While the journal stands, everything before the last checkpoint is checkpointed. */
  lemma PointsBefore(sys: System, w: World, points: seq<RunCheckpoint>, index: nat)
    requires T.Inv(sys, w) && w.rows.journal.Some? && ListsCheckpoints(points, w.rows.checkpoints) && index !in w.rows.checkpoints
    ensures ResumesAt(points) <= index
  {
    hide System.Journal, System.Checkpoint;
    if points != [] {
      var last := points[|points| - 1];
      assert last.stepIndex in w.rows.checkpoints;
      assert T.Contiguous(w.rows.checkpoints);
    }
  }

  /**
   A call that ends closes its row, under its own step and effect: an idempotent one holds
   no replay back any more, a side-effecting one every replay from its step or before it.
   */
  lemma EndedCallSettles(sys: System, w: World, l: nat, id: string, resumeIndex: nat)
    requires w.At(l, InStep) && id in w.rows.intents
    ensures var w' := Apply(sys, w, EndCall(l, id));
            && w' == w.(rows := w'.rows) && w'.rows.journal == w.rows.journal && w'.rows.checkpoints == w.rows.checkpoints
            && w'.rows.intents.Keys == w.rows.intents.Keys
            && (forall other | other in w.rows.intents && other != id :: w'.rows.intents[other] == w.rows.intents[other])
            && (Blocks(w'.rows.intents[id], resumeIndex)
                <==> w.rows.intents[id].stepIndex >= resumeIndex && w.rows.intents[id].effect != Idempotent)
  {
    var w' := Apply(sys, w, EndCall(l, id));
    assert w'.rows.intents[id] == w.rows.intents[id].(completed := true);
  }
}
