/**
 The rows that shelter a replay: while the journal stands, every effect that has begun is
 checkpointed or has left a side-effecting intent, unless a step uses the id of a
 side-effecting call again for an idempotent one. From this come the guards that the
 code could check, under which every decision is sheltered.
 */
module EngineEffects {
  import opened Wrappers
  import opened Recovery
  import opened Leases
  import opened Engine
  import opened EngineOnce
  import L = EngineLeases
  import T = EngineTransparency

  /** Within one step, the id of a side-effecting call does not come back for another effect. */
  predicate CallIdKept(w: World, a: Action) {
    a.BeginCall? && w.Inside(a.l, InStep) && a.id in w.rows.intents ==>
      IsEvidence(w.rows.intents[a.id], w.legs[a.l].cursor.value.Index()) ==> a.effect == SideEffecting
  }

  predicate IsEvidence(intent: ToolIntent, index: nat) {
    intent.stepIndex == index && intent.effect == SideEffecting
  }

  predicate Evidenced(rows: Rows, index: nat) {
    index in rows.checkpoints || exists id | id in rows.intents :: IsEvidence(rows.intents[id], index)
  }

  /** While the journal stands, every effect has left its checkpoint or its intent. */
  predicate Evidence(rows: Rows, log: seq<Event>) {
    rows.journal.Some? ==> forall q | 0 <= q < |log| && Effectful(log[q]) :: Evidenced(rows, log[q].index)
  }

  // ---------- every action that keeps call ids keeps the evidence ----------

  /** Tables stay or are pruned, and nothing effectful begins. */
  ghost predicate Calm(w: World, w': World) {
    && (w'.rows == w.rows || w'.rows == NO_ROWS)
    && w.log <= w'.log && NoEffects(w'.log[|w.log|..])
  }

  lemma CalmKeeps(w: World, w': World)
    requires Evidence(w.rows, w.log) && Calm(w, w')
    ensures Evidence(w'.rows, w'.log)
  {
    assert w'.log == w.log + w'.log[|w.log|..];
  }

  lemma CalmEnvironment(sys: System, w: World, a: Action)
    ensures Calm(w, ApplyEnvironment(sys, w, a))
  {
  }

  lemma CalmEntry(sys: System, w: World, a: Action)
    requires !a.WriteJournal?
    ensures Calm(w, ApplyEntry(sys, w, a))
  {
    hide System.Journal;
  }

  lemma CalmRecovery(sys: System, w: World, a: Action)
    ensures Calm(w, ApplyRecovery(sys, w, a))
  {
    hide ReplayVerdict, DurableReplayInput, ListsCheckpoints, ListsIntents, DeploymentGoSized;
  }

  lemma CalmLoop(sys: System, w: World, a: Action)
    requires !a.BeginCall? && !a.EndCall? && !a.EndStep?
    ensures Calm(w, ApplyLoop(sys, w, a))
  {
  }

  lemma CalmTerminal(sys: System, w: World, a: Action)
    requires !a.BeginTerminal? && !a.EndTerminal?
    ensures Calm(w, ApplyTerminal(sys, w, a))
  {
  }

  lemma CalmFinish(sys: System, w: World, a: Action)
    ensures Calm(w, ApplyFinish(sys, w, a))
  {
  }

  /** A write of the intent of a call or of the terminal hides no evidence. */
  lemma EvidenceGrows(rows: Rows, log: seq<Event>, id: string, intent: ToolIntent)
    requires Evidence(rows, log)
    requires rows.journal.Some? ==> T.Checkpointed(rows.checkpoints, intent.stepIndex)
    requires forall q | 0 <= q < |log| && Effectful(log[q]) :: log[q].index <= intent.stepIndex
    requires id in rows.intents && IsEvidence(rows.intents[id], intent.stepIndex) ==> intent.effect == SideEffecting
    ensures Evidence(rows.(intents := rows.intents[id := intent]), log)
  {
    var rows' := rows.(intents := rows.intents[id := intent]);
    if rows.journal.Some? {
      forall q | 0 <= q < |log| && Effectful(log[q])
        ensures Evidenced(rows', log[q].index)
      {
        var index := log[q].index;
        assert Evidenced(rows, index);
        if index !in rows.checkpoints {
          var other :| other in rows.intents && IsEvidence(rows.intents[other], index);
          if other == id {
            assert index == intent.stepIndex;
            assert IsEvidence(rows'.intents[id], index);
          } else {
            assert IsEvidence(rows'.intents[other], index);
          }
        }
      }
    }
  }

  lemma EvidenceOfEvent(rows: Rows, log: seq<Event>, e: Event, id: string)
    requires Evidence(rows, log)
    requires Effectful(e) ==> id in rows.intents && IsEvidence(rows.intents[id], e.index)
    ensures Evidence(rows, log + [e])
  {
  }

  /** Completing an intent changes neither its step nor its effect. */
  lemma CompletionKeepsEvidence(rows: Rows, log: seq<Event>, id: string)
    requires Evidence(rows, log) && id in rows.intents
    ensures Evidence(rows.(intents := rows.intents[id := rows.intents[id].(completed := true)]), log)
  {
    var rows' := rows.(intents := rows.intents[id := rows.intents[id].(completed := true)]);
    if rows.journal.Some? {
      forall q | 0 <= q < |log| && Effectful(log[q])
        ensures Evidenced(rows', log[q].index)
      {
        var index := log[q].index;
        if index !in rows.checkpoints {
          var other :| other in rows.intents && IsEvidence(rows.intents[other], index);
          assert IsEvidence(rows'.intents[other], index);
        }
      }
    }
  }

  lemma CheckpointKeepsEvidence(rows: Rows, log: seq<Event>, index: nat, point: RunCheckpoint)
    requires Evidence(rows, log)
    ensures Evidence(rows.(checkpoints := rows.checkpoints[index := point]), log)
  {
    var rows' := rows.(checkpoints := rows.checkpoints[index := point]);
    if rows.journal.Some? {
      forall q | 0 <= q < |log| && Effectful(log[q])
        ensures Evidenced(rows', log[q].index)
      {
        var index' := log[q].index;
        if index' !in rows.checkpoints {
          var other :| other in rows.intents && IsEvidence(rows.intents[other], index');
          assert IsEvidence(rows'.intents[other], index');
        }
      }
    }
  }

  lemma TerminalEvidence(rows: Rows, log: seq<Event>, e: Event, tool: string)
    requires Evidence(rows, log) && e.TerminalBegan? && EffectsBelow(log, e.index)
    requires rows.journal.Some? ==> T.Checkpointed(rows.checkpoints, e.index)
    ensures Evidence(rows.(intents := rows.intents[tool := ToolIntent(e.index, SideEffecting, false)]), log + [e])
  {
    var intent := ToolIntent(e.index, SideEffecting, false);
    EvidenceGrows(rows, log, tool, intent);
    EvidenceOfEvent(rows.(intents := rows.intents[tool := intent]), log, e, tool);
  }

  lemma JournalStarts(sys: System, w: World, a: Action)
    requires Inv(w) && T.Inv(sys, w) && Evidence(w.rows, w.log) && a.WriteJournal?
    ensures var w' := Apply(sys, w, a); Evidence(w'.rows, w'.log)
  {
    var w' := Apply(sys, w, a);
    if w' != w {
      T.Facts(sys, w, a.l);
      assert LegOnce(w.legs[a.l], a.l, w.lease, w.now, w.log);
      assert w'.log == w.log;
    }
  }

  lemma CallKeeps(sys: System, w: World, l: nat, id: string, effect: Effect)
    requires Inv(w) && T.Inv(sys, w) && Evidence(w.rows, w.log) && CallIdKept(w, BeginCall(l, id, effect))
    ensures var w' := Apply(sys, w, BeginCall(l, id, effect)); Evidence(w'.rows, w'.log)
  {
    var w' := Apply(sys, w, BeginCall(l, id, effect));
    if w' != w {
      T.Facts(sys, w, l);
      assert LegOnce(w.legs[l], l, w.lease, w.now, w.log);
      var index := w.legs[l].cursor.value.Index();
      hide Inv, T.Inv, T.RowsOk, T.OnTrack, LegOnce;
      EvidenceGrows(w.rows, w.log, id, ToolIntent(index, effect, false));
      EvidenceOfEvent(w'.rows, w.log, CallBegan(l, index, effect), id);
    }
  }

  lemma StepKeeps(sys: System, w: World, a: Action)
    requires Evidence(w.rows, w.log) && (a.EndCall? || a.EndStep?)
    ensures var w' := Apply(sys, w, a); Evidence(w'.rows, w'.log)
  {
    hide System.Checkpoint, Evidence, Advanced;
    var w' := Apply(sys, w, a);
    if w' != w {
      if a.EndCall? {
        CompletionKeepsEvidence(w.rows, w.log, a.id);
      } else {
        var index := w.legs[a.l].cursor.value.Index();
        CheckpointKeepsEvidence(w.rows, w.log, index, w'.rows.checkpoints[index]);
        assert w'.log == w.log;
      }
    }
  }

  lemma BeginTerminalKeeps(sys: System, w: World, l: nat)
    requires Inv(w) && T.Inv(sys, w) && Evidence(w.rows, w.log)
    ensures var w' := Apply(sys, w, BeginTerminal(l)); Evidence(w'.rows, w'.log)
  {
    hide TerminalTool;
    var w' := Apply(sys, w, BeginTerminal(l));
    if w' != w {
      T.Facts(sys, w, l);
      assert LegOnce(w.legs[l], l, w.lease, w.now, w.log);
      var c := w.legs[l].cursor.value;
      var tool := TerminalTool(c.plan.terminal);
      var e := TerminalBegan(l, |c.plan.steps|, c.current, tool.Some?);
      assert c.Index() == sys.count == |c.plan.steps|;
      assert w'.log == w.log + [e];
      hide Inv, T.Inv, T.RowsOk, T.OnTrack, LegOnce;
      if tool.Some? {
        TerminalEvidence(w.rows, w.log, e, tool.value);
      }
    }
  }

  lemma EndTerminalKeeps(sys: System, w: World, l: nat, ok: bool, definite: bool)
    requires Evidence(w.rows, w.log)
    ensures var w' := Apply(sys, w, EndTerminal(l, ok, definite)); Evidence(w'.rows, w'.log)
  {
    hide TerminalTool;
    var w' := Apply(sys, w, EndTerminal(l, ok, definite));
    if w' != w {
      var tool := TerminalTool(w.legs[l].cursor.value.plan.terminal);
      if w'.rows != w.rows {
        CompletionKeepsEvidence(w.rows, w.log, tool.value);
      }
      hide Apply, ApplyTerminal;
      var events := w'.log[|w.log|..];
      assert w'.log == w.log + events;
    }
  }

  lemma EvidenceKeeps(sys: System, w: World, a: Action)
    requires Inv(w) && T.Inv(sys, w) && Evidence(w.rows, w.log) && CallIdKept(w, a)
    ensures var w' := Apply(sys, w, a); Evidence(w'.rows, w'.log)
  {
    hide Inv, T.Inv, Evidence, CallIdKept, Calm, Apply;
    match a {
      case WriteJournal(_, _) => JournalStarts(sys, w, a);
      case BeginCall(l, id, effect) => CallKeeps(sys, w, l, id, effect);
      case EndCall(_, _) => StepKeeps(sys, w, a);
      case EndStep(_) => StepKeeps(sys, w, a);
      case BeginTerminal(l) => BeginTerminalKeeps(sys, w, l);
      case EndTerminal(l, ok, definite) => EndTerminalKeeps(sys, w, l, ok, definite);
      case _ =>
        CalmApply(sys, w, a);
        CalmKeeps(w, Apply(sys, w, a));
    }
  }

  lemma CalmApply(sys: System, w: World, a: Action)
    requires !a.WriteJournal? && !a.BeginCall? && !a.EndCall? && !a.EndStep? && !a.BeginTerminal? && !a.EndTerminal?
    ensures Calm(w, Apply(sys, w, a))
  {
    hide Calm, ApplyEnvironment, ApplyEntry, ApplyRecovery, ApplyLoop, ApplyTerminal, ApplyFinish;
    CalmEnvironment(sys, w, a);
    CalmEntry(sys, w, a);
    CalmRecovery(sys, w, a);
    CalmLoop(sys, w, a);
    CalmTerminal(sys, w, a);
    CalmFinish(sys, w, a);
  }

  // ---------- standing rows shelter a decision ----------

  /** Unblocked intents and the last checkpoint put every effect behind the resume index. */
  lemma ReplayIsAhead(rows: Rows, log: seq<Event>, intents: seq<ToolIntent>, resumeIndex: nat)
    requires Evidence(rows, log) && rows.journal.Some? && ListsIntents(intents, rows.intents)
    requires forall k | k in rows.checkpoints :: k < resumeIndex
    requires forall i | 0 <= i < |intents| :: !Blocks(intents[i], resumeIndex)
    ensures EffectsBelow(log, resumeIndex)
  {
    hide ListsIntents;
    forall q | 0 <= q < |log| && Effectful(log[q])
      ensures log[q].index < resumeIndex
    {
      var index := log[q].index;
      assert Evidenced(rows, index);
      if index !in rows.checkpoints {
        var id :| id in rows.intents && IsEvidence(rows.intents[id], index);
        var i := ListedAt(intents, rows.intents, id);
      }
    }
  }

  lemma ListedAt(intents: seq<ToolIntent>, m: map<string, ToolIntent>, id: string) returns (i: nat)
    requires ListsIntents(intents, m) && id in m
    ensures i < |intents| && intents[i] == m[id]
  {
    i :| 0 <= i < |intents| && intents[i] == m[id];
  }

  /** What the code could check: the journal stands, and no call hides another. */
  predicate Orderly(w: World, a: Action) {
    && Timely(w, a)
    && CallIdKept(w, a)
    && (a.Decide? && w.At(a.l, Deciding) ==> w.rows.journal.Some?)
    && !(a.Scan? && a.force)
    && !a.Resume?
  }

  lemma StandingRowsShelter(sys: System, w: World, a: Action)
    requires T.Inv(sys, w) && Evidence(w.rows, w.log) && Orderly(w, a)
    ensures Guarded(w, a)
  {
    hide T.Inv, Evidence, ListsIntents, DurableReplayInput, Timely, CallIdKept, System.Journal;
    if a.Decide? && a.ok && T.MayDecide(w, a.l, a.checkpoints, a.intents) {
      T.LegFacts(sys, w, a.l);
      T.ReplayPointFacts(sys, a.checkpoints, w.rows.checkpoints);
      var k := DurableReplayInput(sys.Journal(), a.checkpoints).resumeIndex;
      if !T.Blocked(a.intents, k) {
        ReplayIsAhead(w.rows, w.log, a.intents, k);
      }
    }
  }

  ghost predicate OrderlyRun(sys: System, w: World, acts: seq<Action>) {
    forall n | 0 <= n < |acts| :: Orderly(Exec(sys, w, acts[..n]), acts[n])
  }

  lemma {:induction false} OrderlyHolds(sys: System, w: World, acts: seq<Action>)
    requires T.WellFormed(sys) && sys.ttl > 0
    requires Inv(w) && L.Inv(w) && T.Inv(sys, w) && Evidence(w.rows, w.log) && OrderlyRun(sys, w, acts)
    ensures var w' := Exec(sys, w, acts); GuardedRun(sys, w, acts) && Evidence(w'.rows, w'.log)
    decreases |acts|
  {
    hide Inv, L.Inv, T.Inv, T.WellFormed, Apply, Orderly, Guarded, Evidence;
    if acts != [] {
      var n := |acts| - 1;
      var before := Exec(sys, w, acts[..n]);
      forall i | 0 <= i < n
        ensures Orderly(Exec(sys, w, acts[..n][..i]), acts[..n][i])
      {
        assert acts[..n][..i] == acts[..i];
      }
      OrderlyHolds(sys, w, acts[..n]);
      ExecKeeps(sys, w, acts[..n]);
      T.ExecKeeps(sys, w, acts[..n]);
      assert Orderly(before, acts[n]);
      StandingRowsShelter(sys, before, acts[n]);
      KeepsIds(before, acts[n]);
      EvidenceKeeps(sys, before, acts[n]);
      forall i | 0 <= i < |acts|
        ensures Guarded(Exec(sys, w, acts[..i]), acts[i])
      {
        if i < n {
          assert acts[..n][..i] == acts[..i];
          assert Guarded(Exec(sys, w, acts[..n][..i]), acts[..n][i]);
        }
      }
    }
  }

  lemma KeepsIds(w: World, a: Action)
    requires Orderly(w, a)
    ensures CallIdKept(w, a)
  {
  }

  // ---------- the theorems ----------

  lemma InitHasEvidence(sys: System, holder: string, reserved: bool, now: int)
    ensures var w0 := Init(sys, holder, reserved, now); Evidence(w0.rows, w0.log)
  {
  }

  /**
   If a claimed run still has its journal whenever it is decided, and no step uses the id
   of a side-effecting call for another effect, then nothing effectful is repeated, and
   while the journal stands every effect that has begun is checkpointed or has left an
   intent that forbids an automatic replay from its step.
   */
  lemma DistinctCallsSuffice(sys: System, holder: string, reserved: bool, now: int, trace: seq<World>, acts: seq<Action>)
    requires T.WellFormed(sys) && sys.ttl > 0
    requires IsRun(sys, Init(sys, holder, reserved, now), trace, acts) && forall n | 0 <= n < |acts| :: Orderly(trace[n], acts[n])
    ensures var w := trace[|acts|];
            && Once(w.log)
            && (w.rows.journal.Some? ==>
                  forall q | 0 <= q < |w.log| && Effectful(w.log[q]) ::
                    var index := w.log[q].index;
                    index in w.rows.checkpoints || exists id | id in w.rows.intents ::
                      w.rows.intents[id].stepIndex == index && Blocks(w.rows.intents[id], index))
  {
    var w0 := Init(sys, holder, reserved, now);
    InitIsOk(sys, holder, reserved, now);
    InitHasEvidence(sys, holder, reserved, now);
    hide Apply, Init, Inv, L.Inv, T.Inv, T.WellFormed, Orderly, Evidence;
    RunEnds(sys, w0, trace, acts);
    forall n | 0 <= n < |acts|
      ensures Orderly(Exec(sys, w0, acts[..n]), acts[n])
    {
      RunIsExec(sys, w0, trace, acts, n);
      assert Orderly(trace[n], acts[n]);
    }
    OrderlyHolds(sys, w0, acts);
    ExecKeeps(sys, w0, acts);
    OnceOf(trace[|acts|]);
    EvidenceBlocks(trace[|acts|]);
  }

  lemma EvidenceBlocks(w: World)
    requires Evidence(w.rows, w.log)
    ensures w.rows.journal.Some? ==>
              forall q | 0 <= q < |w.log| && Effectful(w.log[q]) ::
                var index := w.log[q].index;
                index in w.rows.checkpoints || exists id | id in w.rows.intents ::
                  w.rows.intents[id].stepIndex == index && Blocks(w.rows.intents[id], index)
  {
    if w.rows.journal.Some? {
      forall q | 0 <= q < |w.log| && Effectful(w.log[q])
        ensures var index := w.log[q].index;
                index in w.rows.checkpoints || exists id | id in w.rows.intents ::
                  w.rows.intents[id].stepIndex == index && Blocks(w.rows.intents[id], index)
      {
        assert Evidenced(w.rows, w.log[q].index);
      }
    }
  }

  // ---------- the execution status as the guard ----------

  /** A running execution that recovery has looked at still has its journal. */
  predicate RunningJournaled(w: World) {
    w.status == Running && (exists l | 0 <= l < |w.legs| :: w.legs[l].kind.Recovered?) ==> w.rows.journal.Some?
  }

  /** As Orderly, but for a guard that the code could check by reading the status again. */
  predicate OrderlyWhileRunning(w: World, a: Action) {
    && Timely(w, a)
    && CallIdKept(w, a)
    && (a.Decide? && w.At(a.l, Deciding) ==> w.status == Running)
    && !(a.Scan? && a.force)
    && !a.Resume?
  }

  ghost predicate OrderlyWhileRunningRun(sys: System, w: World, acts: seq<Action>) {
    forall n | 0 <= n < |acts| :: OrderlyWhileRunning(Exec(sys, w, acts[..n]), acts[n])
  }

  /** Status and journal either stay, or the status leaves Running first; legs keep their kinds. */
  predicate StatusGoes(w: World, w': World) {
    && |w.legs| <= |w'.legs| && (forall l | 0 <= l < |w.legs| :: w'.legs[l].kind == w.legs[l].kind)
    && (w'.status == Running ==> w.status == Running)
    && (w.rows.journal.Some? && w'.rows.journal.None? ==> w'.status != Running)
    && (forall l | |w.legs| <= l < |w'.legs| :: w'.legs[l].kind.Recovered? ==> w'.rows.journal.Some?)
  }

  lemma StatusEnvironment(sys: System, w: World, a: Action)
    ensures StatusGoes(w, ApplyEnvironment(sys, w, a))
  {
  }

  lemma StatusEntry(sys: System, w: World, a: Action)
    requires !a.StartRun?
    ensures StatusGoes(w, ApplyEntry(sys, w, a))
  {
    hide System.Journal;
  }

  lemma StatusDecided(w: World, l: nat, resumeIndex: nat, verdict: Verdict)
    requires w.At(l, Deciding) && w.legs[l].kind == Recovered(false)
    ensures StatusGoes(w, Decided(w, l, resumeIndex, verdict))
  {
  }

  lemma StatusDecide(sys: System, w: World, a: Action)
    requires Inv(w) && a.Decide?
    ensures StatusGoes(w, ApplyRecovery(sys, w, a))
  {
    hide Inv, StatusGoes, Decided, Evidence, Once, ReplayVerdict, DurableReplayInput, ListsCheckpoints, ListsIntents, DeploymentGoSized;
    var w' := ApplyRecovery(sys, w, a);
    if w' != w && a.ok && w.waiting == {} {
      NotForced(w, a.l);
      StatusDecided(w, a.l, DurableReplayInput(w.legs[a.l].snapshot.value, a.checkpoints).resumeIndex,
                    ReplayVerdict(sys.id, a.deployment, w.legs[a.l].snapshot.value, a.checkpoints, a.intents, false));
    } else {
      StatusSkips(w, w', a.l);
    }
  }

  lemma StatusSkips(w: World, w': World, l: nat)
    requires w' == w || (l < |w.legs| && w' == w.Put(l, w.legs[l].(phase := Releasing), []))
    ensures StatusGoes(w, w')
  {
  }

  lemma StatusRecovery(sys: System, w: World, a: Action)
    requires Inv(w) && !(a.Scan? && a.force)
    ensures StatusGoes(w, ApplyRecovery(sys, w, a))
  {
    hide Inv, Decided, ReplayVerdict, DurableReplayInput, ListsCheckpoints, ListsIntents, DeploymentGoSized;
    if a.Decide? {
      StatusDecide(sys, w, a);
    }
  }

  lemma StatusLoop(sys: System, w: World, a: Action)
    ensures StatusGoes(w, ApplyLoop(sys, w, a))
  {
    hide System.Checkpoint, Advanced;
  }

  lemma StatusTerminal(sys: System, w: World, a: Action)
    ensures StatusGoes(w, ApplyTerminal(sys, w, a))
  {
    hide TerminalTool;
  }

  lemma StatusFinish(sys: System, w: World, a: Action)
    ensures StatusGoes(w, ApplyFinish(sys, w, a))
  {
  }

  lemma StatusStep(sys: System, w: World, a: Action)
    requires RunningJournaled(w) && StatusGoes(w, Apply(sys, w, a))
    ensures RunningJournaled(Apply(sys, w, a))
  {
    hide Apply;
  }

  lemma StartStep(sys: System, w: World, a: Action)
    requires RunningJournaled(w) && T.Inv(sys, w) && a.StartRun?
    ensures RunningJournaled(Apply(sys, w, a))
  {
    var w' := Apply(sys, w, a);
    if w' != w {
      T.Facts(sys, w, a.l);
    }
  }

  lemma RunningStep(sys: System, w: World, a: Action)
    requires RunningJournaled(w) && Inv(w) && T.Inv(sys, w) && !(a.Scan? && a.force)
    ensures RunningJournaled(Apply(sys, w, a))
  {
    hide Inv, T.Inv, RunningJournaled, StatusGoes, ApplyEnvironment, ApplyEntry, ApplyRecovery, ApplyLoop, ApplyTerminal, ApplyFinish;
    if a.StartRun? {
      StartStep(sys, w, a);
    } else {
      StatusEnvironment(sys, w, a);
      StatusEntry(sys, w, a);
      StatusRecovery(sys, w, a);
      StatusLoop(sys, w, a);
      StatusTerminal(sys, w, a);
      StatusFinish(sys, w, a);
      StatusStep(sys, w, a);
    }
  }

  lemma DecidersAreRecovered(w: World, a: Action)
    requires Inv(w) && RunningJournaled(w) && OrderlyWhileRunning(w, a)
    ensures Orderly(w, a)
  {
    if a.Decide? && w.At(a.l, Deciding) {
      assert LegOnce(w.legs[a.l], a.l, w.lease, w.now, w.log);
      assert w.legs[a.l].kind.Recovered?;
    }
  }

  lemma {:induction false} RunningHolds(sys: System, w: World, acts: seq<Action>)
    requires T.WellFormed(sys) && sys.ttl > 0
    requires Inv(w) && L.Inv(w) && T.Inv(sys, w) && Evidence(w.rows, w.log) && RunningJournaled(w)
    requires OrderlyWhileRunningRun(sys, w, acts)
    ensures OrderlyRun(sys, w, acts) && RunningJournaled(Exec(sys, w, acts))
    decreases |acts|
  {
    hide Inv, L.Inv, T.Inv, T.WellFormed, Apply, Timely, CallIdKept, Evidence, RunningJournaled, Orderly, OrderlyWhileRunning;
    if acts != [] {
      var n := |acts| - 1;
      forall i | 0 <= i < n
        ensures OrderlyWhileRunning(Exec(sys, w, acts[..n][..i]), acts[..n][i])
      {
        assert acts[..n][..i] == acts[..i];
      }
      RunningHolds(sys, w, acts[..n]);
      OrderlyHolds(sys, w, acts[..n]);
      ExecKeeps(sys, w, acts[..n]);
      T.ExecKeeps(sys, w, acts[..n]);
      var before := Exec(sys, w, acts[..n]);
      assert OrderlyWhileRunning(before, acts[n]);
      DecidersAreRecovered(before, acts[n]);
      NoForce(before, acts[n]);
      RunningStep(sys, before, acts[n]);
      forall i | 0 <= i < |acts|
        ensures Orderly(Exec(sys, w, acts[..i]), acts[i])
      {
        if i < n {
          assert acts[..n][..i] == acts[..i];
          assert Orderly(Exec(sys, w, acts[..n][..i]), acts[..n][i]);
        } else {
          assert acts[..i] == acts[..n];
          assert Orderly(before, acts[n]);
        }
      }
    }
  }

  lemma NoForce(w: World, a: Action)
    requires OrderlyWhileRunning(w, a)
    ensures !(a.Scan? && a.force)
  {
  }

  /** The same guarantee, if every decision is made while the execution is still running. */
  lemma AtMostOnceWhileRunning(sys: System, holder: string, reserved: bool, now: int, trace: seq<World>, acts: seq<Action>)
    requires T.WellFormed(sys) && sys.ttl > 0
    requires IsRun(sys, Init(sys, holder, reserved, now), trace, acts)
    requires forall n | 0 <= n < |acts| :: OrderlyWhileRunning(trace[n], acts[n])
    ensures Once(trace[|acts|].log)
  {
    var w0 := Init(sys, holder, reserved, now);
    InitIsOk(sys, holder, reserved, now);
    InitHasEvidence(sys, holder, reserved, now);
    assert RunningJournaled(w0);
    hide Apply, Init, Inv, L.Inv, T.Inv, T.WellFormed, RunningJournaled, Once, Orderly, OrderlyWhileRunning, Evidence;
    forall n | 0 <= n < |acts|
      ensures OrderlyWhileRunning(Exec(sys, w0, acts[..n]), acts[n])
    {
      RunIsExec(sys, w0, trace, acts, n);
      assert OrderlyWhileRunning(trace[n], acts[n]);
    }
    RunningHolds(sys, w0, acts);
    forall n | 0 <= n < |acts|
      ensures Orderly(trace[n], acts[n])
    {
      RunIsExec(sys, w0, trace, acts, n);
      assert Orderly(Exec(sys, w0, acts[..n]), acts[n]);
    }
    DistinctCallsSuffice(sys, holder, reserved, now, trace, acts);
  }
}
