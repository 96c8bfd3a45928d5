/**
 The engine's actions and the imperative code they stand for: runs of the step loop, of
 the resume closure and of the finish in RunLoop are sequences of actions of the engine.
 */
module EngineRefinement {
  import opened Wrappers
  import opened Plans
  import opened Recovery
  import opened Engine
  import R = RunLoop

  /** The effects of the step loop in the system. */
  function EffectsOf(sys: System): R.Effects {
    R.Effects(sys.run, sys.redact)
  }

  function Event(l: nat, s: R.Started): Engine.Event {
    StepBegan(l, s.index, s.position, s.step, s.input)
  }

  function Events(l: nat, started: seq<R.Started>): seq<Engine.Event> {
    seq(|started|, i requires 0 <= i < |started| => Event(l, started[i]))
  }

  // ---------- the step loop ----------

  /** n steps begin and end. */
  function Steps(l: nat, n: nat): seq<Action> {
    if n == 0 then [] else Steps(l, n - 1) + [BeginStep(l), EndStep(l)]
  }

  /** The leg is at the head of a loop over the steps of its cursor. */
  predicate AtLoop(w: World, l: nat) {
    w.Inside(l, Looping) && w.legs[l].cursor.value.local == 0 && !w.legs[l].cursor.value.resuming
  }

  /** The world after n steps of the loop, as RunStepsResult has it. */
  predicate Looped(sys: System, w: World, w': World, l: nat, n: nat)
    requires AtLoop(w, l) && n <= |w.legs[l].cursor.value.steps|
  {
    var e, c := EffectsOf(sys), w.legs[l].cursor.value;
    && w'.Inside(l, Looping) && |w'.legs| == |w.legs|
    && w'.legs[l].cursor.value == c.(local := n, current := e.Fold(c.steps[..n], c.current))
    && w'.legs == w.legs[l := w'.legs[l]] && w'.legs[l].lost == w.legs[l].lost
    && w'.rows == w.rows.(checkpoints := e.Written(w.rows.checkpoints, c.steps, c.current, c.base, n))
    && w'.log == w.log + Events(l, e.Begun(c.steps, c.current, c.base, c.position, n))
    && w'.lease == w.lease && w'.now == w.now && w'.waiting == w.waiting
  }

  lemma ExecTwo(sys: System, w: World, acts: seq<Action>, a: Action, b: Action)
    ensures Exec(sys, w, acts + [a, b]) == Apply(sys, Apply(sys, Exec(sys, w, acts), a), b)
  {
    hide Apply;
    assert (acts + [a, b])[..|acts| + 1] == acts + [a];
    assert (acts + [a])[..|acts|] == acts;
  }

  /** One pass of the loop, at any place in it. */
  predicate Passed(sys: System, w: World, w': World, l: nat)
    requires w.HasStep(l, Looping)
  {
    var c := w.legs[l].cursor.value;
    var output := sys.run(c.steps[c.local], c.current);
    && w'.Inside(l, Looping) && w'.legs == w.legs[l := w'.legs[l]] && w'.legs[l].lost == w.legs[l].lost
    && w'.legs[l].cursor.value == c.(local := c.local + 1, current := output)
    && w'.rows == w.rows.(checkpoints := w.rows.checkpoints[c.Index() := sys.Checkpoint(c.Index(), output)])
    && w'.log == w.log + [StepBegan(l, c.Index(), c.position + c.local, c.steps[c.local], c.current)]
    && w'.lease == w.lease && w'.now == w.now && w'.waiting == w.waiting
  }

  lemma OneStep(sys: System, w: World, l: nat)
    requires w.HasStep(l, Looping) && !w.legs[l].cursor.value.resuming
    ensures Passed(sys, w, Apply(sys, Apply(sys, w, BeginStep(l)), EndStep(l)), l)
  {
    hide System.Checkpoint;
    var w1 := Apply(sys, w, BeginStep(l));
    assert w1.HasStep(l, InStep) && w1.legs[l].cursor == w.legs[l].cursor;
  }

  lemma LoopedOnce(sys: System, w: World, l: nat)
    requires AtLoop(w, l)
    ensures Looped(sys, w, w, l, 0)
  {
    var e, c := EffectsOf(sys), w.legs[l].cursor.value;
    R.NoStepYet(e, w.rows.checkpoints, c.steps, c.current, c.base, c.position);
    assert w.legs == w.legs[l := w.legs[l]];
  }

  lemma LoopedMore(sys: System, w: World, w1: World, w2: World, l: nat, n: nat)
    requires AtLoop(w, l) && n < |w.legs[l].cursor.value.steps| && Looped(sys, w, w1, l, n)
    requires Passed(sys, w1, w2, l)
    ensures Looped(sys, w, w2, l, n + 1)
  {
    var e, c := EffectsOf(sys), w.legs[l].cursor.value;
    R.OneStepMore(e, w.rows.checkpoints, c.steps, c.current, c.base, c.position, n);
    LoopedRows(sys, w, w1, w2, l, n);
    LoopedLog(sys, w, w1, w2, l, n);
    hide R.Effects.Written, R.Effects.Begun, R.Effects.Fold;
  }

  lemma LoopedRows(sys: System, w: World, w1: World, w2: World, l: nat, n: nat)
    requires AtLoop(w, l) && n < |w.legs[l].cursor.value.steps| && Looped(sys, w, w1, l, n)
    requires Passed(sys, w1, w2, l)
    ensures var e, c := EffectsOf(sys), w.legs[l].cursor.value;
            w2.rows == w.rows.(checkpoints := e.Written(w.rows.checkpoints, c.steps, c.current, c.base, n + 1))
  {
    var e, c := EffectsOf(sys), w.legs[l].cursor.value;
    R.OneStepMore(e, w.rows.checkpoints, c.steps, c.current, c.base, c.position, n);
    hide R.Effects.Written, R.Effects.Begun, R.Effects.Fold;
  }

  lemma LoopedLog(sys: System, w: World, w1: World, w2: World, l: nat, n: nat)
    requires AtLoop(w, l) && n < |w.legs[l].cursor.value.steps| && Looped(sys, w, w1, l, n)
    requires Passed(sys, w1, w2, l)
    ensures var e, c := EffectsOf(sys), w.legs[l].cursor.value;
            w2.log == w.log + Events(l, e.Begun(c.steps, c.current, c.base, c.position, n + 1))
  {
    var e, c := EffectsOf(sys), w.legs[l].cursor.value;
    R.OneStepMore(e, w.rows.checkpoints, c.steps, c.current, c.base, c.position, n);
    hide R.Effects.Written, R.Effects.Begun, R.Effects.Fold;
    var begun := e.Begun(c.steps, c.current, c.base, c.position, n);
    var last := R.Started(c.base + n, c.position + n, c.steps[n], e.Fold(c.steps[..n], c.current));
    assert Events(l, begun + [last]) == Events(l, begun) + [Event(l, last)];
  }

  /** n finished steps of the loop are n pairs of actions, and nothing else. */
  lemma {:induction false} LoopRefines(sys: System, w: World, l: nat, n: nat)
    requires AtLoop(w, l) && n <= |w.legs[l].cursor.value.steps|
    ensures Looped(sys, w, Exec(sys, w, Steps(l, n)), l, n)
  {
    hide Apply, System.Checkpoint, R.Effects.Written, R.Effects.Begun, R.Effects.Fold;
    if n == 0 {
      LoopedOnce(sys, w, l);
    } else {
      LoopRefines(sys, w, l, n - 1);
      var w1 := Exec(sys, w, Steps(l, n - 1));
      ExecTwo(sys, w, Steps(l, n - 1), BeginStep(l), EndStep(l));
      OneStep(sys, w1, l);
      LoopedMore(sys, w, w1, Exec(sys, w, Steps(l, n)), l, n - 1);
    }
  }

  // ---------- how a loop ends ----------

  /** The place that a parked leg keeps, as the resume closure captures it. */
  function ContinuationOf(c: Cursor): R.Continuation
    requires c.local < |c.steps|
  {
    R.Continuation(c.steps[c.local], c.steps[c.local + 1..], c.local, c.base, c.position, c.current)
  }

  /** The actions behind the n-th finished step. */
  function Ending(l: nat, end: R.RunEnd): seq<Action> {
    match end
    case Completed(_) => [EndLoop(l)]
    case Failed => [BeginStep(l), FailStep(l)]
    case Suspended(_) => [BeginStep(l), Gate(l), Suspend(l)]
  }

  /** What RunStepsResult says of its end. Only Pipes are gated, and a lost lease lets nothing be parked. */
  predicate Ends(sys: System, leg: Leg, n: nat, end: R.RunEnd)
    requires leg.cursor.Some?
  {
    var e, c := EffectsOf(sys), leg.cursor.value;
    n <= |c.steps| &&
    match end
    case Completed(output) => n == |c.steps| && output == e.Fold(c.steps, c.current)
    case Failed => n < |c.steps|
    case Suspended(continuation) =>
      && n < |c.steps| && c.steps[n].kind == StepPipe && !leg.lost
      && continuation == R.Continuation(c.steps[n], c.steps[n + 1..], n, c.base, c.position, e.Fold(c.steps[..n], c.current))
  }

  /** Where the leg is when the loop has ended so. */
  predicate Ended(w: World, l: nat, end: R.RunEnd) {
    match end
    case Completed(output) => w.Inside(l, Confirming) && w.legs[l].cursor.value.current == output
    case Failed => w.At(l, Resolving(false, false))
    case Suspended(continuation) =>
      && w.Inside(l, Releasing) && w.legs[l].parked && l in w.waiting
      && w.legs[l].cursor.value.local < |w.legs[l].cursor.value.steps|
      && ContinuationOf(w.legs[l].cursor.value) == continuation
  }

  /** The step that fails or is suspended has begun, and is logged as such. */
  predicate BeganLast(w: World, w': World, l: nat, end: R.RunEnd)
    requires w.Inside(l, Looping)
  {
    var c := w.legs[l].cursor.value;
    w'.rows == w.rows
    && (end.Completed? ==> w'.log == w.log)
    && (!end.Completed? ==> c.local < |c.steps|
                            && w'.log == w.log + [StepBegan(l, c.Index(), c.position + c.local, c.steps[c.local], c.current)])
  }

  lemma CompletedEnd(sys: System, w: World, l: nat, output: string)
    requires w.Inside(l, Looping) && w.legs[l].cursor.value.local == |w.legs[l].cursor.value.steps|
    requires w.legs[l].cursor.value.current == output
    ensures var w' := Exec(sys, w, Ending(l, R.Completed(output)));
            Ended(w', l, R.Completed(output)) && BeganLast(w, w', l, R.Completed(output))
  {
    assert [EndLoop(l)][..0] == [];
    assert Exec(sys, w, [EndLoop(l)]) == Apply(sys, w, EndLoop(l));
  }

  lemma FailedEnd(sys: System, w: World, l: nat)
    requires w.HasStep(l, Looping)
    ensures var w' := Exec(sys, w, Ending(l, R.Failed)); Ended(w', l, R.Failed) && BeganLast(w, w', l, R.Failed)
  {
    var w1 := Apply(sys, w, BeginStep(l));
    var w2 := Apply(sys, w1, FailStep(l));
    assert w2.log == w1.log;
    assert Ended(w2, l, R.Failed) && BeganLast(w, w2, l, R.Failed);
    hide Apply;
    assert [] + [BeginStep(l), FailStep(l)] == [BeginStep(l), FailStep(l)];
    ExecTwo(sys, w, [], BeginStep(l), FailStep(l));
  }

  lemma BeginsLast(sys: System, w: World, l: nat)
    requires w.HasStep(l, Looping)
    ensures var w', c := Apply(sys, w, BeginStep(l)), w.legs[l].cursor.value;
            && w'.HasStep(l, InStep) && w'.legs[l].cursor == w.legs[l].cursor && w'.legs[l].lost == w.legs[l].lost && w'.rows == w.rows
            && w'.log == w.log + [StepBegan(l, c.Index(), c.position + c.local, c.steps[c.local], c.current)]
  {
  }

  lemma GatesLast(sys: System, w: World, l: nat)
    requires w.HasStep(l, InStep) && w.legs[l].cursor.value.steps[w.legs[l].cursor.value.local].kind == StepPipe
    ensures var w' := Apply(sys, w, Gate(l));
            && w'.HasStep(l, InStep) && w'.legs[l].cursor == w.legs[l].cursor && w'.legs[l].gated && w'.legs[l].lost == w.legs[l].lost
            && w'.rows == w.rows && w'.log == w.log && l in w'.waiting
  {
  }

  lemma SuspendsLast(sys: System, w: World, l: nat)
    requires w.HasStep(l, InStep) && w.legs[l].gated && !w.legs[l].lost && !w.legs[l].cursor.value.resuming
    ensures var w' := Apply(sys, w, Suspend(l));
            && w'.Inside(l, Releasing) && w'.legs[l].cursor == w.legs[l].cursor && w'.legs[l].parked
            && w'.rows == w.rows && w'.log == w.log && w'.waiting == w.waiting
  {
  }

  lemma SuspendedEnd(sys: System, w: World, l: nat)
    requires w.HasStep(l, Looping) && !w.legs[l].cursor.value.resuming && !w.legs[l].lost
    requires w.legs[l].cursor.value.steps[w.legs[l].cursor.value.local].kind == StepPipe
    ensures var end := R.Suspended(ContinuationOf(w.legs[l].cursor.value));
            var w' := Exec(sys, w, Ending(l, end)); Ended(w', l, end) && BeganLast(w, w', l, end)
  {
    hide Apply;
    BeginsLast(sys, w, l);
    var w1 := Apply(sys, w, BeginStep(l));
    GatesLast(sys, w1, l);
    var w2 := Apply(sys, w1, Gate(l));
    SuspendsLast(sys, w2, l);
    ExecTwo(sys, w1, [], Gate(l), Suspend(l));
    ExecCons(sys, w, BeginStep(l), [Gate(l), Suspend(l)]);
    assert [] + [Gate(l), Suspend(l)] == [Gate(l), Suspend(l)];
    assert [BeginStep(l)] + [Gate(l), Suspend(l)] == [BeginStep(l), Gate(l), Suspend(l)];
  }

  lemma EndingRuns(sys: System, w: World, w1: World, l: nat, n: nat, end: R.RunEnd)
    requires AtLoop(w, l) && Ends(sys, w.legs[l], n, end) && Looped(sys, w, w1, l, n)
    ensures var w' := Exec(sys, w1, Ending(l, end)); Ended(w', l, end) && BeganLast(w1, w', l, end)
  {
    var c := w.legs[l].cursor.value;
    hide Apply, R.Effects.Written, R.Effects.Begun, R.Effects.Fold, Exec, Ended, BeganLast;
    match end {
      case Completed(output) =>
        assert c.steps[..n] == c.steps;
        CompletedEnd(sys, w1, l, output);
      case Failed => FailedEnd(sys, w1, l);
      case Suspended(_) => SuspendedEnd(sys, w1, l);
    }
  }

  lemma LastEvent(sys: System, w: World, w1: World, w2: World, l: nat, n: nat, end: R.RunEnd)
    requires AtLoop(w, l) && Ends(sys, w.legs[l], n, end) && Looped(sys, w, w1, l, n) && BeganLast(w1, w2, l, end)
    ensures var e, c := EffectsOf(sys), w.legs[l].cursor.value;
            w2.log == w.log + Events(l, e.Begun(c.steps, c.current, c.base, c.position, if n < |c.steps| then n + 1 else n))
  {
    var e, c := EffectsOf(sys), w.legs[l].cursor.value;
    if n < |c.steps| {
      R.OneStepMore(e, w.rows.checkpoints, c.steps, c.current, c.base, c.position, n);
      hide R.Effects.Written, R.Effects.Begun, R.Effects.Fold;
      var begun := e.Begun(c.steps, c.current, c.base, c.position, n);
      var last := R.Started(c.base + n, c.position + n, c.steps[n], e.Fold(c.steps[..n], c.current));
      assert Events(l, begun + [last]) == Events(l, begun) + [Event(l, last)];
    }
  }

  /**
   Whatever RunStepsResult comes to after n finished steps, the engine comes to as well:
   the same checkpoints are written, the same steps have begun, and the leg confirms its
   lease with the output, fails, or is parked with the closure's continuation.
   */
  lemma RunStepsRefines(sys: System, w: World, l: nat, n: nat, end: R.RunEnd)
    requires AtLoop(w, l) && Ends(sys, w.legs[l], n, end)
    ensures var e, c := EffectsOf(sys), w.legs[l].cursor.value;
            var w' := Exec(sys, w, Steps(l, n) + Ending(l, end));
            && w'.rows == w.rows.(checkpoints := e.Written(w.rows.checkpoints, c.steps, c.current, c.base, n))
            && w'.log == w.log + Events(l, e.Begun(c.steps, c.current, c.base, c.position, if n < |c.steps| then n + 1 else n))
            && Ended(w', l, end)
  {
    hide Apply, Exec, Ended, R.Effects.Written, R.Effects.Begun, R.Effects.Fold;
    LoopRefines(sys, w, l, n);
    ExecJoins(sys, w, Steps(l, n), Ending(l, end));
    var w1 := Exec(sys, w, Steps(l, n));
    var w2 := Exec(sys, w1, Ending(l, end));
    EndingRuns(sys, w, w1, l, n, end);
    LastEvent(sys, w, w1, w2, l, n, end);
  }

  // ---------- the resume closure ----------

  /** The closure's step is done, and its remaining steps stand in a fresh loop. */
  predicate Resumed(sys: System, w: World, w': World, l: nat)
    requires w.HasStep(l, InStep)
  {
    var k := ContinuationOf(w.legs[l].cursor.value);
    var output := sys.run(k.step, k.current);
    && AtLoop(w', l) && w'.log == w.log
    && w'.legs[l].cursor.value.steps == k.remaining && w'.legs[l].cursor.value.current == output
    && w'.legs[l].cursor.value.base == k.base + k.index + 1 && w'.legs[l].cursor.value.position == k.position + k.index + 1
    && w'.rows == w.rows.(checkpoints := w.rows.checkpoints[k.base + k.index := sys.Checkpoint(k.base + k.index, output)])
  }

  lemma ResumedStep(sys: System, w: World, l: nat)
    requires w.HasStep(l, InStep) && w.legs[l].cursor.value.resuming
    ensures Resumed(sys, w, Apply(sys, w, EndStep(l)), l)
  {
    hide System.Checkpoint;
    var w' := Apply(sys, w, EndStep(l));
    assert w'.log == w.log;
  }

  lemma ResumedLoop(sys: System, w: World, w1: World, w2: World, l: nat, n: nat)
    requires w.HasStep(l, InStep) && Resumed(sys, w, w1, l) && n <= |w1.legs[l].cursor.value.steps| && Looped(sys, w1, w2, l, n)
    ensures var e, k := EffectsOf(sys), ContinuationOf(w.legs[l].cursor.value);
            && w2.rows == w.rows.(checkpoints :=
                 e.Written(w.rows.checkpoints, [k.step] + k.remaining, k.current, k.base + k.index, n + 1))
            && w2.log == w.log + Events(l, e.Begun(k.remaining, sys.run(k.step, k.current), k.base + k.index + 1, k.position + k.index + 1, n))
  {
    var e, k := EffectsOf(sys), ContinuationOf(w.legs[l].cursor.value);
    R.ResumedWrites(e, k, w.rows.checkpoints, n);
    assert e.Checkpoint(k.base + k.index, sys.run(k.step, k.current)) == sys.Checkpoint(k.base + k.index, sys.run(k.step, k.current));
    hide R.Effects.Written, R.Effects.Begun, R.Effects.Fold;
  }

  /** The resumed leg writes and begins what the resume closure does. */
  lemma ResumeRefines(sys: System, w: World, l: nat, n: nat)
    requires w.HasStep(l, InStep) && w.legs[l].cursor.value.resuming
    requires n <= |ContinuationOf(w.legs[l].cursor.value).remaining|
    ensures var e, k := EffectsOf(sys), ContinuationOf(w.legs[l].cursor.value);
            var w' := Exec(sys, w, [EndStep(l)] + Steps(l, n));
            && w'.rows == w.rows.(checkpoints :=
                 e.Written(w.rows.checkpoints, [k.step] + k.remaining, k.current, k.base + k.index, n + 1))
            && w'.log == w.log + Events(l, e.Begun(k.remaining, sys.run(k.step, k.current), k.base + k.index + 1, k.position + k.index + 1, n))
  {
    hide Apply, Exec, Looped, R.Effects.Written, R.Effects.Begun, R.Effects.Fold;
    ResumedStep(sys, w, l);
    var w1 := Apply(sys, w, EndStep(l));
    ExecCons(sys, w, EndStep(l), Steps(l, n));
    LoopRefines(sys, w1, l, n);
    ResumedLoop(sys, w, w1, Exec(sys, w1, Steps(l, n)), l, n);
  }

  // ---------- the finish ----------

  /** A write of the finish as the engine logs it. */
  function Logged(l: nat, write: R.Write): Engine.Event {
    match write
    case KeyWrite(success) => KeyResolved(l, success)
    case EventWrite(_) => Emitted(l)
    case StateWrite(status) => Saved(l, status.CompletedStatus?)
    case PruneWrite => Pruned(l)
  }

  function LoggedAll(l: nat, writes: seq<R.Write>): seq<Engine.Event> {
    seq(|writes|, i requires 0 <= i < |writes| => Logged(l, writes[i]))
  }

  function OutcomeOf(o: Engine.Outcome): R.Outcome {
    match o
    case Pending => R.Pending
    case Succeeded => R.Succeeded
    case FailedOutcome => R.FailedOutcome
  }

  /** The reservation of this execution, as Finish knows it. */
  function KeyOf(w: World): Option<R.Outcome> {
    if w.key.Some? && w.key.value.mine then Some(OutcomeOf(w.key.value.outcome)) else None
  }

  function Finishing(l: nat, resolveOk: bool, emitOk: bool, saveOk: bool, pruneOk: bool): seq<Action> {
    [ResolveKey(l, resolveOk), Emit(l, emitOk), Save(l, saveOk), PruneJournal(l, pruneOk)]
  }

  lemma ResolveRefines(sys: System, w: World, l: nat, completed: bool, success: bool, ok: bool)
    requires w.At(l, Resolving(completed, success))
    ensures var w' := Apply(sys, w, ResolveKey(l, ok));
            && w'.At(l, Emitting(completed, ok)) && w'.status == w.status && w'.rows == w.rows && w'.waiting == w.waiting
            && w'.log == w.log + (if ok then [KeyResolved(l, success)] else [])
            && KeyOf(w') == (if ok then R.ResolvedKey(KeyOf(w), success) else KeyOf(w))
  {
  }

  lemma EmitRefines(sys: System, w: World, l: nat, completed: bool, clean: bool, ok: bool)
    requires w.At(l, Emitting(completed, clean))
    ensures var w' := Apply(sys, w, Emit(l, ok));
            && w'.At(l, Saving(completed, clean && ok)) && w'.status == w.status && w'.rows == w.rows && w'.waiting == w.waiting
            && w'.log == w.log + (if ok then [Emitted(l)] else []) && w'.key == w.key
  {
  }

  lemma SaveRefines(sys: System, w: World, l: nat, completed: bool, clean: bool, ok: bool)
    requires w.At(l, Saving(completed, clean))
    ensures var w' := Apply(sys, w, Save(l, ok));
            && w'.At(l, if ok && clean then Pruning(completed) else Releasing) && w'.rows == w.rows && w'.waiting == w.waiting
            && w'.status == (if ok then (if completed then Engine.Completed else Engine.Failed) else w.status)
            && w'.log == w.log + (if ok then [Saved(l, completed)] else []) && w'.key == w.key
  {
  }

  lemma PruneRefines(sys: System, w: World, l: nat, completed: bool, clean: bool, ok: bool)
    requires w.At(l, if clean then Pruning(completed) else Releasing)
    requires clean && completed ==> w.status == Engine.Completed
    ensures var w' := Apply(sys, w, PruneJournal(l, ok));
            && w'.At(l, Releasing) && w'.key == w.key && w'.status == w.status
            && w'.log == w.log + (if clean && completed && ok then [Pruned(l)] else [])
            && w'.rows == (if clean && completed && ok && w.waiting == {} && w.rows.journal.Some? then NO_ROWS else w.rows)
  {
  }

  /**
   A finish is the engine's four actions in a row: the same writes in the same order, the
   same outcome of the key, the same status, and the journal goes in the same case, as
   long as no approval is pending.
   */
  lemma FinishRefines(sys: System, w: World, l: nat, completed: bool, success: bool,
                      resolveOk: bool, emitOk: bool, saveOk: bool, pruneOk: bool)
    requires w.At(l, Resolving(completed, success))
    ensures var w' := Exec(sys, w, Finishing(l, resolveOk, emitOk, saveOk, pruneOk));
            && w'.At(l, Releasing)
            && w'.log == w.log + LoggedAll(l, R.FinishWrites(completed, success, resolveOk, emitOk, saveOk, pruneOk))
            && KeyOf(w') == (if resolveOk then R.ResolvedKey(KeyOf(w), success) else KeyOf(w))
            && w'.status == (if saveOk then (if completed then Engine.Completed else Engine.Failed) else w.status)
            && w'.rows == (if resolveOk && emitOk && saveOk && completed && pruneOk && w.waiting == {} && w.rows.journal.Some?
                           then NO_ROWS else w.rows)
  {
    hide Apply, Exec, KeyOf, R.FinishWrites;
    var w1 := Apply(sys, w, ResolveKey(l, resolveOk));
    var w2 := Apply(sys, w1, Emit(l, emitOk));
    var w3 := Apply(sys, w2, Save(l, saveOk));
    ResolveRefines(sys, w, l, completed, success, resolveOk);
    EmitRefines(sys, w1, l, completed, resolveOk, emitOk);
    SaveRefines(sys, w2, l, completed, resolveOk && emitOk, saveOk);
    PruneRefines(sys, w3, l, completed, resolveOk && emitOk && saveOk, pruneOk);
    FourActions(sys, w, l, resolveOk, emitOk, saveOk, pruneOk);
    KeysEqual(w1, Exec(sys, w, Finishing(l, resolveOk, emitOk, saveOk, pruneOk)));
    FinishLog(l, completed, success, resolveOk, emitOk, saveOk, pruneOk);
  }

  lemma FourActions(sys: System, w: World, l: nat, resolveOk: bool, emitOk: bool, saveOk: bool, pruneOk: bool)
    ensures Exec(sys, w, Finishing(l, resolveOk, emitOk, saveOk, pruneOk))
              == Apply(sys, Apply(sys, Apply(sys, Apply(sys, w, ResolveKey(l, resolveOk)), Emit(l, emitOk)), Save(l, saveOk)),
                       PruneJournal(l, pruneOk))
  {
    hide Apply;
    var first := [ResolveKey(l, resolveOk), Emit(l, emitOk)];
    ExecTwo(sys, w, [], ResolveKey(l, resolveOk), Emit(l, emitOk));
    ExecTwo(sys, w, first, Save(l, saveOk), PruneJournal(l, pruneOk));
    assert Finishing(l, resolveOk, emitOk, saveOk, pruneOk) == first + [Save(l, saveOk), PruneJournal(l, pruneOk)];
    assert [] + first == first;
  }

  lemma KeysEqual(w: World, w': World)
    requires w'.key == w.key
    ensures KeyOf(w') == KeyOf(w)
  {
  }

  lemma FinishLog(l: nat, completed: bool, success: bool, resolveOk: bool, emitOk: bool, saveOk: bool, pruneOk: bool)
    ensures LoggedAll(l, R.FinishWrites(completed, success, resolveOk, emitOk, saveOk, pruneOk))
              == (if resolveOk then [KeyResolved(l, success)] else []) + (if emitOk then [Emitted(l)] else [])
                 + (if saveOk then [Saved(l, completed)] else [])
                 + (if resolveOk && emitOk && saveOk && completed && pruneOk then [Pruned(l)] else [])
  {
  }
}
