/**
 Concurrent composition: the fan-out of Parallel and Map behind a semaphore, as a
 machine whose schedules are all interleavings, and the ordered output it is encoded to.
 */
module Composition {
  import opened Wrappers

  /** compositionOutcome: a failed run keeps the output it got to. */
  datatype Outcome = Outcome(output: string, err: Option<string>)

  const CANCELED := "context canceled"

  predicate IsError(o: Outcome) {
    o.err.Some?
  }

  /** `run` is what the i-th pipeline comes to when nothing interrupts it. */
  datatype Fan = Fan(count: nat, concurrency: int, partialOK: bool, run: nat -> Outcome) {
    /** The clamped semaphore size: what was asked for, but at least one and at most one for each run. */
    function Limit(): (n: nat)
      ensures n >= 1 && (concurrency >= 1 ==> n <= concurrency) && (concurrency < 1 ==> n == 1) && (count > 0 ==> n <= count)
      ensures 1 <= concurrency <= count ==> n == concurrency
      ensures concurrency >= count > 0 ==> n == count
    {
      if concurrency <= 0 then 1 else if concurrency > count && count > 0 then count else concurrency
    }

    ghost predicate AllSucceed() {
      forall i: nat | i < count :: !IsError(run(i))
    }
  }

  datatype Phase = Waiting | Inside | Done

  /** `writes` lists the slots in the order in which they were written. */
  datatype World = World(phases: seq<Phase>, outcomes: seq<Option<Outcome>>, cancelled: bool, interrupted: bool, writes: seq<nat>) {
    predicate At(i: nat, phase: Phase) {
      i < |phases| && i < |outcomes| && phases[i] == phase
    }

    function Write(i: nat, o: Outcome): World
      requires i < |phases| && i < |outcomes|
    {
      this.(phases := phases[i := Done], outcomes := outcomes[i := Some(o)], writes := writes + [i])
    }

    predicate ContextDone() {
      cancelled || interrupted
    }
  }

  function Start(fan: Fan): World {
    World(seq(fan.count, _ => Waiting), seq(fan.count, _ => None), false, false, [])
  }

  datatype Action =
    | Enter(i: nat)
    | GiveUp(i: nat)
    | Finish(i: nat, cutShort: Option<Outcome>)
    | Interrupt

  function Count(phases: seq<Phase>, phase: Phase): nat {
    if phases == [] then 0
    else Count(phases[..|phases| - 1], phase) + if phases[|phases| - 1] == phase then 1 else 0
  }

  function Apply(fan: Fan, w: World, a: Action): World {
    match a
    case Enter(i) =>
      if w.At(i, Waiting) && Count(w.phases, Inside) < fan.Limit() then w.(phases := w.phases[i := Inside]) else w
    case GiveUp(i) => if w.At(i, Waiting) && w.ContextDone() then w.Write(i, Outcome("", Some(CANCELED))) else w
    // A done context may cut a run short with an error; a failure cancels the siblings unless PartialOK.
    case Finish(i, cutShort) =>
      if w.At(i, Inside) && (cutShort.Some? ==> w.ContextDone() && IsError(cutShort.value)) then
        var outcome := if cutShort.Some? then cutShort.value else fan.run(i);
        var w' := w.Write(i, outcome);
        if IsError(outcome) && !fan.partialOK then w'.(cancelled := true) else w'
      else w
    // The caller's own context ends.
    case Interrupt => w.(interrupted := true)
  }

  function Exec(fan: Fan, w: World, acts: seq<Action>): World
    decreases |acts|
  {
    if acts == [] then w else Apply(fan, Exec(fan, w, acts[..|acts| - 1]), acts[|acts| - 1])
  }

  predicate AllDone(w: World) {
    forall i | 0 <= i < |w.phases| :: w.phases[i] == Done
  }

  // ---------- the invariant ----------

  lemma {:induction false} CountUpdate(phases: seq<Phase>, i: nat, phase: Phase, q: Phase)
    requires i < |phases|
    ensures Count(phases[i := phase], q) == Count(phases, q) - (if phases[i] == q then 1 else 0) + (if phase == q then 1 else 0)
  {
    var n := |phases| - 1;
    if i < n {
      CountUpdate(phases[..n], i, phase, q);
      assert phases[i := phase][..n] == phases[..n][i := phase];
    } else {
      assert phases[i := phase][..n] == phases[..n];
    }
  }

  lemma {:induction false} CountZero(phases: seq<Phase>, phase: Phase)
    ensures Count(phases, phase) == 0 <==> forall i | 0 <= i < |phases| :: phases[i] != phase
  {
    if phases != [] {
      CountZero(phases[..|phases| - 1], phase);
    }
  }

  predicate OutcomeOk(fan: Fan, w: World, i: nat, o: Outcome) {
    || o == fan.run(i)
    || (IsError(o) && w.ContextDone())
  }

  predicate SomeFailed(fan: Fan, w: World) {
    exists i | 0 <= i < |w.outcomes| && i < fan.count && IsError(fan.run(i)) :: w.outcomes[i] == Some(fan.run(i))
  }

  predicate Inv(fan: Fan, w: World) {
    && |w.phases| == |w.outcomes| == fan.count
    && Count(w.phases, Inside) <= fan.Limit()
    && (forall i | 0 <= i < fan.count ::
          && (w.phases[i] == Done <==> w.outcomes[i].Some?)
          && (w.phases[i] == Done <==> i in w.writes)
          && (w.outcomes[i].Some? ==> OutcomeOk(fan, w, i, w.outcomes[i].value)))
    && (forall p, q | 0 <= p < q < |w.writes| :: w.writes[p] != w.writes[q])
    && (w.cancelled && !w.interrupted ==> !fan.partialOK && SomeFailed(fan, w))
  }

  lemma WriteStep(fan: Fan, w: World, w': World, i: nat, o: Outcome)
    requires Inv(fan, w) && i < fan.count && w.phases[i] != Done && OutcomeOk(fan, w', i, o)
    requires w' == w.Write(i, o).(cancelled := w'.cancelled) && (w.cancelled ==> w'.cancelled)
    requires w'.cancelled && !w.cancelled && !w.interrupted ==> !fan.partialOK && IsError(o) && o == fan.run(i)
    ensures Inv(fan, w')
  {
    CountUpdate(w.phases, i, Done, Inside);
    assert i in w'.writes;
    assert forall j | 0 <= j < fan.count && j != i :: (j in w'.writes <==> j in w.writes) && w'.outcomes[j] == w.outcomes[j];
    if w'.cancelled && !w.interrupted {
      if w.cancelled {
        var k :| 0 <= k < |w.outcomes| && k < fan.count && IsError(fan.run(k)) && w.outcomes[k] == Some(fan.run(k));
        assert w'.outcomes[k] == Some(fan.run(k));
      } else {
        assert w'.outcomes[i] == Some(fan.run(i));
      }
    }
  }

  lemma Step(fan: Fan, w: World, a: Action)
    requires Inv(fan, w)
    ensures Inv(fan, Apply(fan, w, a))
  {
    var w' := Apply(fan, w, a);
    if w' != w {
      match a {
        case Interrupt =>
        case Enter(i) => CountUpdate(w.phases, i, Inside, Inside);
        case GiveUp(i) => WriteStep(fan, w, w', i, w'.outcomes[i].value);
        case Finish(i, _) => WriteStep(fan, w, w', i, w'.outcomes[i].value);
      }
    }
  }

  lemma {:induction false} Holds(fan: Fan, acts: seq<Action>)
    ensures Inv(fan, Exec(fan, Start(fan), acts))
    decreases |acts|
  {
    hide Apply;
    if acts == [] {
      CountZero(Start(fan).phases, Inside);
    } else {
      Holds(fan, acts[..|acts| - 1]);
      Step(fan, Exec(fan, Start(fan), acts[..|acts| - 1]), acts[|acts| - 1]);
    }
  }

  lemma {:induction false} NotInterrupted(fan: Fan, acts: seq<Action>)
    requires Interrupt !in acts
    ensures !Exec(fan, Start(fan), acts).interrupted
    decreases |acts|
  {
    if acts != [] {
      NotInterrupted(fan, acts[..|acts| - 1]);
    }
  }

  // ---------- the theorems ----------

  /**
   In every state of every schedule: at most the clamped number of runs, and every slot
   is written at most once, by its own run or a cancellation.
   */
  lemma BoundedAndWrittenOnce(fan: Fan, acts: seq<Action>)
    ensures var w := Exec(fan, Start(fan), acts);
            && Count(w.phases, Inside) <= (if fan.concurrency < 1 then 1 else fan.concurrency) && Count(w.phases, Inside) <= fan.count
            && (forall p, q | 0 <= p < q < |w.writes| :: w.writes[p] != w.writes[q])
            && |w.phases| == |w.outcomes| == fan.count
            && (forall i | 0 <= i < fan.count :: w.phases[i] == Done <==> i in w.writes)
            && (forall i | 0 <= i < fan.count && w.outcomes[i].Some? ::
                  w.outcomes[i].value == fan.run(i) || (IsError(w.outcomes[i].value) && w.ContextDone()))
  {
    Holds(fan, acts);
    CountAtMost(Exec(fan, Start(fan), acts).phases, Inside);
  }

  lemma {:induction false} CountAtMost(phases: seq<Phase>, phase: Phase)
    ensures Count(phases, phase) <= |phases|
  {
    if phases != [] {
      CountAtMost(phases[..|phases| - 1], phase);
    }
  }

  /** The bound is reached: as many runs as were asked for, and as there are, can be inside together. */
  lemma {:induction false} BoundIsReached(fan: Fan, n: nat) returns (acts: seq<Action>)
    requires n <= fan.count && n <= if fan.concurrency < 1 then 1 else fan.concurrency
    ensures OnlyRuns(acts)
    ensures var w := Exec(fan, Start(fan), acts);
            && Count(w.phases, Inside) == n && |w.phases| == |w.outcomes| == fan.count
            && forall i | n <= i < fan.count :: w.phases[i] == Waiting
  {
    if n == 0 {
      acts := [];
      CountZero(Start(fan).phases, Inside);
    } else {
      var before := BoundIsReached(fan, n - 1);
      var w := Exec(fan, Start(fan), before);
      acts := before + [Enter(n - 1)];
      ExecSnoc(fan, Start(fan), before, Enter(n - 1));
      CountUpdate(w.phases, n - 1, Inside, Inside);
    }
  }

  /** Some written outcome is an error. */
  predicate SomeError(w: World) {
    exists i | 0 <= i < |w.outcomes| :: w.outcomes[i].Some? && IsError(w.outcomes[i].value)
  }

  /**
   Without an interruption from outside, the siblings are cancelled if and only if some
   run has ended in an error and PartialOK does not stand.
   */
  lemma {:induction false} CancellationIsExact(fan: Fan, acts: seq<Action>)
    requires Interrupt !in acts
    ensures var w := Exec(fan, Start(fan), acts); w.cancelled <==> !fan.partialOK && SomeError(w)
    decreases |acts|
  {
    if acts != [] {
      var n := |acts| - 1;
      CancellationIsExact(fan, acts[..n]);
      NotInterrupted(fan, acts[..n]);
      Holds(fan, acts[..n]);
      CancelStep(fan, Exec(fan, Start(fan), acts[..n]), acts[n]);
    }
  }

  lemma CancelStep(fan: Fan, w: World, a: Action)
    requires Inv(fan, w) && !w.interrupted && !a.Interrupt? && (w.cancelled <==> !fan.partialOK && SomeError(w))
    ensures var w' := Apply(fan, w, a); w'.cancelled <==> !fan.partialOK && SomeError(w')
  {
    var w' := Apply(fan, w, a);
    if w' != w && !a.Enter? {
      assert w'.outcomes[a.i].Some?;
      if SomeError(w) {
        var k :| 0 <= k < |w.outcomes| && w.outcomes[k].Some? && IsError(w.outcomes[k].value);
        assert w.phases[k] == Done;
        assert w'.outcomes[k] == w.outcomes[k];
      }
      if SomeError(w') {
        var k :| 0 <= k < |w'.outcomes| && w'.outcomes[k].Some? && IsError(w'.outcomes[k].value);
        assert k != a.i ==> w'.outcomes[k] == w.outcomes[k];
      }
    } else {
      assert w'.outcomes == w.outcomes;
    }
  }

  /** The outcomes of a finished composition, in order. */
  function Results(w: World): seq<Outcome>
    requires forall i | 0 <= i < |w.outcomes| :: w.outcomes[i].Some?
  {
    seq(|w.outcomes|, i requires 0 <= i < |w.outcomes| => w.outcomes[i].value)
  }

  predicate Finished(fan: Fan, acts: seq<Action>) {
    AllDone(Exec(fan, Start(fan), acts))
  }

  /**
   Every schedule that finishes without an interruption from outside gives each slot
   its own outcome, if all runs succeed, or under PartialOK, whatever its siblings do.
   */
  lemma ScheduleDoesNotMatter(fan: Fan, acts: seq<Action>)
    requires Finished(fan, acts) && Interrupt !in acts && (fan.partialOK || fan.AllSucceed())
    ensures var w := Exec(fan, Start(fan), acts);
            |w.outcomes| == fan.count && forall i | 0 <= i < fan.count :: w.outcomes[i] == Some(fan.run(i))
  {
    Holds(fan, acts);
    NotInterrupted(fan, acts);
  }

  /** Without an interruption from outside, a finished composition reports an error if and only if some run fails. */
  lemma FailureIsReported(fan: Fan, acts: seq<Action>)
    requires Finished(fan, acts) && Interrupt !in acts
    ensures var w := Exec(fan, Start(fan), acts);
            (exists i | 0 <= i < |w.outcomes| :: w.outcomes[i].Some? && IsError(w.outcomes[i].value)) <==> !fan.AllSucceed()
  {
    Holds(fan, acts);
    NotInterrupted(fan, acts);
    var w := Exec(fan, Start(fan), acts);
    hide Exec;
    if !fan.AllSucceed() {
      var i: nat :| i < fan.count && IsError(fan.run(i));
      assert OutcomeOk(fan, w, i, w.outcomes[i].value);
      assert w.outcomes[i].Some? && IsError(w.outcomes[i].value);
    }
  }

  /** How much is left to do. */
  function Left(w: World): nat {
    2 * Count(w.phases, Waiting) + Count(w.phases, Inside)
  }

  lemma EnterMoves(fan: Fan, w: World, i: nat)
    requires w.At(i, Waiting) && Count(w.phases, Inside) < fan.Limit()
    ensures Left(Apply(fan, w, Enter(i))) < Left(w)
  {
    CountUpdate(w.phases, i, Inside, Waiting);
    CountUpdate(w.phases, i, Inside, Inside);
    hide Count;
  }

  lemma FinishMoves(fan: Fan, w: World, i: nat)
    requires w.At(i, Inside)
    ensures Left(Apply(fan, w, Finish(i, None))) < Left(w)
  {
    CountUpdate(w.phases, i, Done, Waiting);
    CountUpdate(w.phases, i, Done, Inside);
    hide Count;
  }

  lemma SomeMove(fan: Fan, w: World) returns (a: Action)
    requires Inv(fan, w) && !AllDone(w)
    ensures a.Enter? || a.Finish?
    ensures Left(Apply(fan, w, a)) < Left(w)
  {
    CountZero(w.phases, Inside);
    hide Count, Left, Apply, OutcomeOk, SomeFailed;
    var i: nat :| i < |w.phases| && w.phases[i] != Done;
    if Count(w.phases, Inside) == 0 {
      a := Enter(i);
      assert w.phases[i] == Waiting;
      EnterMoves(fan, w, i);
    } else {
      var j: nat :| j < |w.phases| && w.phases[j] == Inside;
      a := Finish(j, None);
      FinishMoves(fan, w, j);
    }
  }

  predicate OnlyRuns(acts: seq<Action>) {
    forall a | a in acts :: a.Enter? || a.Finish?
  }

  /** No deadlock: every schedule can be finished, merely by letting runs enter and finish. */
  lemma {:induction false} CanFinish(fan: Fan, acts: seq<Action>) returns (more: seq<Action>)
    ensures OnlyRuns(more) && Finished(fan, acts + more)
    decreases Left(Exec(fan, Start(fan), acts))
  {
    hide Apply, Inv, AllDone, Left, Exec;
    if Finished(fan, acts) {
      more := [];
      assert acts + [] == acts;
    } else {
      Holds(fan, acts);
      var a := SomeMove(fan, Exec(fan, Start(fan), acts));
      ExecSnoc(fan, Start(fan), acts, a);
      var rest := CanFinish(fan, acts + [a]);
      more := [a] + rest;
      assert acts + more == acts + [a] + rest;
    }
  }

  /** What a slot comes to when nothing more is let in: a waiting run is cancelled, a running one cut short. */
  predicate CutOff(fan: Fan, w: World, w': World, error: string) {
    && |w.phases| == |w.outcomes| == |w'.outcomes| == fan.count
    && forall i | 0 <= i < fan.count ::
         w'.outcomes[i] == match w.phases[i]
                           case Waiting => Some(Outcome("", Some("context canceled")))
                           case Inside => Some(Outcome("", Some(error)))
                           case Done => w.outcomes[i]
  }

  lemma CutOffOne(fan: Fan, w: World, error: string) returns (a: Action)
    requires Inv(fan, w) && w.ContextDone() && !AllDone(w)
    ensures var w1 := Apply(fan, w, a);
            && !a.Enter? && w1.ContextDone() && Left(w1) < Left(w)
            && forall w' | CutOff(fan, w1, w', error) :: CutOff(fan, w, w', error)
  {
    hide Left;
    var i :| 0 <= i < |w.phases| && w.phases[i] != Done;
    a := if w.phases[i] == Waiting then GiveUp(i) else Finish(i, Some(Outcome("", Some(error))));
    LeftFalls(w, i);
  }

  lemma LeftFalls(w: World, i: nat)
    requires i < |w.phases| && w.phases[i] != Done
    ensures forall w1: World | w1.phases == w.phases[i := Done] :: Left(w1) < Left(w)
  {
    hide Count;
    forall w1: World | w1.phases == w.phases[i := Done]
      ensures Left(w1) < Left(w)
    {
      CountUpdate(w.phases, i, Done, Waiting);
      CountUpdate(w.phases, i, Done, Inside);
    }
  }

  /**
   Once the context is done, by a failed sibling or the caller's own end, nothing more need
   run: the composition can be finished with every waiting run cancelled, every running one
   cut short, and the outcomes that are there left as they are.
   */
  lemma {:induction false} StopsEarly(fan: Fan, acts: seq<Action>, error: string) returns (more: seq<Action>)
    requires Exec(fan, Start(fan), acts).ContextDone()
    ensures (forall a | a in more :: !a.Enter?) && Finished(fan, acts + more)
    ensures CutOff(fan, Exec(fan, Start(fan), acts), Exec(fan, Start(fan), acts + more), error)
    decreases Left(Exec(fan, Start(fan), acts))
  {
    hide Apply, Left, Exec;
    Holds(fan, acts);
    var w := Exec(fan, Start(fan), acts);
    if AllDone(w) {
      more := [];
      assert acts + [] == acts;
    } else {
      var a := CutOffOne(fan, w, error);
      ExecSnoc(fan, Start(fan), acts, a);
      var rest := StopsEarly(fan, acts + [a], error);
      more := [a] + rest;
      assert acts + more == acts + [a] + rest;
    }
  }

  /** The end of the caller's context stops a composition at any point. */
  lemma InterruptStops(fan: Fan, acts: seq<Action>, error: string) returns (more: seq<Action>)
    ensures (forall a | a in more :: !a.Enter?) && Finished(fan, acts + [Interrupt] + more)
    ensures CutOff(fan, Exec(fan, Start(fan), acts), Exec(fan, Start(fan), acts + [Interrupt] + more), error)
  {
    ExecSnoc(fan, Start(fan), acts, Interrupt);
    hide Exec, CutOff;
    more := StopsEarly(fan, acts + [Interrupt], error);
    SameSlots(fan, Exec(fan, Start(fan), acts), Exec(fan, Start(fan), acts + [Interrupt]), Exec(fan, Start(fan), acts + [Interrupt] + more), error);
  }

  lemma SameSlots(fan: Fan, w: World, w1: World, w': World, error: string)
    requires w1 == w.(interrupted := w1.interrupted) && CutOff(fan, w1, w', error)
    ensures CutOff(fan, w, w', error)
  {
  }

  lemma ExecSnoc(fan: Fan, w: World, acts: seq<Action>, a: Action)
    ensures Exec(fan, w, acts + [a]) == Apply(fan, Exec(fan, w, acts), a)
  {
    hide Apply;
    assert (acts + [a])[..|acts|] == acts;
  }

  // ---------- the output ----------

  /** `json` decodes an output that is valid JSON; any other output is a JSON string. */
  datatype Json = Text(text: string) | Decoded(source: string) | Good(output: Json) | Bad(error: string)

  function OutputJSONValue(json: string -> Option<Json>, output: string): Json {
    if json(output).Some? then json(output).value else Text(output)
  }

  function Item(json: string -> Option<Json>, o: Outcome, partialOK: bool): Json {
    if !partialOK then OutputJSONValue(json, o.output)
    else
      match o.err
      case Some(e) => Bad(e)
      case None => Good(OutputJSONValue(json, o.output))
  }

  function Items(json: string -> Option<Json>, outcomes: seq<Outcome>, partialOK: bool): seq<Json> {
    seq(|outcomes|, i requires 0 <= i < |outcomes| => Item(json, outcomes[i], partialOK))
  }

  /** The encoded items of a finished composition do not depend on its schedule. */
  lemma OutputIsDeterministic(fan: Fan, json: string -> Option<Json>, acts: seq<Action>, acts': seq<Action>)
    requires fan.partialOK || fan.AllSucceed()
    requires Finished(fan, acts) && Interrupt !in acts && Finished(fan, acts') && Interrupt !in acts'
    ensures var (w, w') := (Exec(fan, Start(fan), acts), Exec(fan, Start(fan), acts'));
            && (forall i | 0 <= i < |w.outcomes| :: w.outcomes[i].Some?) && (forall i | 0 <= i < |w'.outcomes| :: w'.outcomes[i].Some?)
            && Items(json, Results(w), fan.partialOK) == Items(json, Results(w'), fan.partialOK)
            && |Results(w)| == fan.count
  {
    ScheduleDoesNotMatter(fan, acts);
    ScheduleDoesNotMatter(fan, acts');
    hide Exec;
    var w, w' := Exec(fan, Start(fan), acts), Exec(fan, Start(fan), acts');
    assert Results(w) == Results(w');
  }

  method EncodeCompositionOutput(json: string -> Option<Json>, outcomes: seq<Outcome>, partialOK: bool) returns (items: array<Json>)
    ensures fresh(items) && items[..] == Items(json, outcomes, partialOK)
    ensures items.Length == |outcomes| && forall i | 0 <= i < |outcomes| ::
              var output := if json(outcomes[i].output).Some? then json(outcomes[i].output).value else Text(outcomes[i].output);
              items[i] == (if !partialOK then output else if outcomes[i].err.Some? then Bad(outcomes[i].err.value) else Good(output))
  {
    items := new Json[|outcomes|](_ => Text(""));
    for i := 0 to |outcomes|
      invariant forall j | 0 <= j < i :: items[j] == Item(json, outcomes[j], partialOK)
    {
      items[i] := Item(json, outcomes[i], partialOK);
    }
  }

  method FirstCompositionError(outcomes: seq<Outcome>) returns (first: Option<Outcome>)
    ensures first.None? <==> forall i | 0 <= i < |outcomes| :: !IsError(outcomes[i])
    ensures first.Some? ==> IsError(first.value) && exists i | 0 <= i < |outcomes| ::
              outcomes[i] == first.value && forall j | 0 <= j < i :: !IsError(outcomes[j])
  {
    for i := 0 to |outcomes|
      invariant forall j | 0 <= j < i :: !IsError(outcomes[j])
    {
      if IsError(outcomes[i]) {
        return Some(outcomes[i]);
      }
    }
    return None;
  }
}
