/**
 The whole stream worker: any number of deliveries in flight together, each counted,
 reserved, run and answered in its own small steps. What Stream says of one delivery and
 StreamKeys of the reservations holds of every interleaved trace.
 */
module StreamTrace {
  import opened Wrappers
  import opened Stream
  import K = StreamKeys

  /** What is left to do of a delivery whose run has been decided. */
  datatype Plan = Plan(answers: Answers, todo: seq<Effect>)

  /** A delivery is counted first; its plan is made when its run has been decided. */
  datatype Work = Work(attempt: nat, plan: Option<Plan>)

  datatype Entry =
    | Began(delivery: nat, id: string)
    | Cleared(delivery: nat, id: string)
    | Key(delivery: nat, event: K.Event)
    | Did(delivery: nat, effect: Effect)

  datatype World = World(keys: K.World, counts: map<string, nat>, works: seq<Work>, queue: seq<nat>, log: seq<Entry>) {
    function Id(d: nat): string
      requires d < |keys.deliveries|
    {
      keys.deliveries[d].id
    }
  }

  const START := World(K.START, map[], [], [], [])

  datatype Action =
    | Receive(id: string)
    | Begin(d: nat)
    | Reservation(a: K.Action)
    | Handle(d: nat, answers: Answers)
    | Perform(d: nat)

  function Mover(a: K.Action): nat {
    match a
    case Arrive(_) => 0
    case Reserve(d, _, _, _) => d
    case Start(d, _, _, _) => d
    case LookUp(d, _, _, _) => d
    case Settle(d, _) => d
    case End(d, _, _) => d
  }

  function Apply(t: Trigger, w: World, a: Action): World {
    match a
    case Receive(id) => w.(keys := K.Apply(w.keys, K.Arrive(id)), works := w.works + [Work(0, None)])
    case Begin(d) =>
      if d < |w.works| && d < |w.keys.deliveries| && w.works[d].attempt == 0 then
        var attempt := NextAttempt(w.counts, w.Id(d));
        w.(counts := if w.Id(d) == "" then w.counts else w.counts[w.Id(d) := attempt],
           works := w.works[d := Work(attempt, None)], log := w.log + [Began(d, w.Id(d))])
      else w
    case Reservation(k) =>
      var d := Mover(k);
      if !k.Arrive? && d < |w.works| && w.works[d].attempt > 0 then
        var keys := K.Apply(w.keys, k);
        w.(keys := keys, log := w.log + if |keys.log| > |w.keys.log| then [Key(d, keys.log[|keys.log| - 1])] else [])
      else w
    // What the run came to is known: the counter is cleared or kept, and the effects are due.
    case Handle(d, answers) =>
      if d < |w.works| && d < |w.keys.deliveries| && w.works[d].plan.None? && w.works[d].attempt > 0 && w.keys.deliveries[d].phase.Decided? then
        var attempt, result := w.works[d].attempt, w.keys.deliveries[d].phase.result;
        var clears := Clears(t, attempt, result) && w.Id(d) != "";
        w.(counts := if clears then w.counts - {w.Id(d)} else w.counts,
           works := w.works[d := Work(attempt, Some(Plan(answers, Effects(t, attempt, result, answers))))],
           log := w.log + if clears then [Cleared(d, w.Id(d))] else [])
      else w
    // One call to the broker, the queue or the event store.
    case Perform(d) =>
      if d < |w.works| && w.works[d].plan.Some? && w.works[d].plan.value.todo != [] then
        var plan := w.works[d].plan.value;
        var effect := plan.todo[0];
        w.(works := w.works[d := w.works[d].(plan := Some(plan.(todo := plan.todo[1..])))],
           queue := if effect == Routed(true) then w.queue + [d] else w.queue,
           log := w.log + [Did(d, effect)])
      else w
  }

  /** A run: the worlds it passes through, one action apart. */
  ghost predicate IsRun(t: Trigger, trace: seq<World>, acts: seq<Action>) {
    |trace| == |acts| + 1 && trace[0] == START && forall i | 0 <= i < |acts| :: trace[i + 1] == Apply(t, trace[i], acts[i])
  }

  // ---------- what a trace says of one delivery ----------

  /** What one delivery did, in order. */
  function Doings(log: seq<Entry>, d: nat): seq<Effect> {
    if log == [] then []
    else
      var last := log[|log| - 1];
      Doings(log[..|log| - 1], d) + if last.Did? && last.delivery == d then [last.effect] else []
  }

  /** Deliveries of the message that began since its counter was last cleared. */
  function Since(log: seq<Entry>, id: string): nat {
    if log == [] then 0
    else
      var last, before := log[|log| - 1], Since(log[..|log| - 1], id);
      if last.Began? && last.id == id then before + 1
      else if last.Cleared? && last.id == id then 0
      else before
  }

  /** The attempt with which delivery d began. */
  ghost predicate IsAttempt(log: seq<Entry>, d: nat, id: string, attempt: nat) {
    exists c :: 0 <= c < |log| && log[c] == Began(d, id) && attempt == if id == "" then 1 else Since(log[..c + 1], id)
  }

  /** What an ack rests on: a run of this delivery, the success of another one, or the queue. */
  ghost predicate Rests(t: Trigger, log: seq<Entry>, d: nat, id: string) {
    || Did(d, Routed(true)) in log
    || (!t.manualAck && (Key(d, K.RunEnded(d, id, true)) in log
                         || exists owner: nat :: owner != d && Key(owner, K.KeySucceeded(owner, id)) in log))
  }

  /** Every ack of the trace rests on what stands before it. */
  ghost predicate AcksRest(t: Trigger, w: World) {
    forall q | 0 <= q < |w.log| && w.log[q].Did? && w.log[q].effect.Acked? ::
      w.log[q].delivery < |w.keys.deliveries| && Rests(t, w.log[..q], w.log[q].delivery, w.Id(w.log[q].delivery))
  }

  /** The delivery has been handled, and its outcome clears the counter of its message. */
  predicate HasCleared(t: Trigger, w: World, d: nat)
    requires d < |w.works| == |w.keys.deliveries|
  {
    && w.Id(d) != "" && w.works[d].plan.Some? && w.keys.deliveries[d].phase.Decided?
    && Clears(t, w.works[d].attempt, w.keys.deliveries[d].phase.result)
  }

  /** A delivery has done the beginning of what its attempt, its run and its answers ask for. */
  ghost predicate WorkOk(t: Trigger, w: World, d: nat)
    requires d < |w.works| == |w.keys.deliveries|
  {
    var work := w.works[d];
    && (work.attempt == 0 ==> w.keys.deliveries[d].phase.Arrived? && work.plan.None?)
    && (work.attempt > 0 ==> IsAttempt(w.log, d, w.Id(d), work.attempt))
    && (work.plan.None? ==> Doings(w.log, d) == [])
    && (Cleared(d, w.Id(d)) in w.log <==> HasCleared(t, w, d))
    && (work.plan.Some? ==>
          && w.keys.deliveries[d].phase.Decided?
          && Doings(w.log, d) + work.plan.value.todo
               == Effects(t, work.attempt, w.keys.deliveries[d].phase.result, work.plan.value.answers))
  }

  ghost predicate Counters(w: World) {
    forall id | id != "" :: Count(w.counts, id) == Since(w.log, id)
  }

  /** The queue holds the routed deliveries, and every key event is in the trace. */
  ghost predicate Kept(w: World) {
    && (forall d :: d in w.queue <==> Did(d, Routed(true)) in w.log)
    && (forall e | e in w.keys.log :: Key(e.delivery, e) in w.log)
  }

  ghost predicate Inv(t: Trigger, w: World) {
    && K.Inv(w.keys) && |w.works| == |w.keys.deliveries|
    && (forall d | 0 <= d < |w.works| :: WorkOk(t, w, d))
    && Counters(w) && Kept(w) && AcksRest(t, w)
    && (forall e | e in w.log :: e.delivery < |w.works|)
  }

  // ---------- a log that grows by one entry ----------

  lemma DoingsGrow(log: seq<Entry>, e: Entry, d: nat)
    ensures Doings(log + [e], d) == Doings(log, d) + if e.Did? && e.delivery == d then [e.effect] else []
  {
    assert (log + [e])[..|log|] == log;
  }

  lemma SinceGrows(log: seq<Entry>, e: Entry, id: string)
    ensures Since(log + [e], id) == if e.Began? && e.id == id then Since(log, id) + 1
                                    else if e.Cleared? && e.id == id then 0 else Since(log, id)
  {
    assert (log + [e])[..|log|] == log;
  }

  lemma AttemptStays(log: seq<Entry>, e: Entry, d: nat, id: string, attempt: nat)
    requires IsAttempt(log, d, id, attempt)
    ensures IsAttempt(log + [e], d, id, attempt)
  {
    var c :| 0 <= c < |log| && log[c] == Began(d, id) && attempt == if id == "" then 1 else Since(log[..c + 1], id);
    assert (log + [e])[..c + 1] == log[..c + 1];
    assert (log + [e])[c] == Began(d, id);
  }

  lemma AttemptBegins(log: seq<Entry>, d: nat, id: string)
    ensures IsAttempt(log + [Began(d, id)], d, id, if id == "" then 1 else Since(log, id) + 1)
  {
    var log' := log + [Began(d, id)];
    SinceGrows(log, Began(d, id), id);
    assert log'[|log|] == Began(d, id) && log'[..|log| + 1] == log';
  }

  /** The trace goes on; what it did not touch is as it was. */
  lemma WorkStays(t: Trigger, w: World, w': World, d: nat, e: Entry)
    requires |w'.works| == |w'.keys.deliveries| && |w.works| == |w.keys.deliveries| && d < |w.works| && d < |w'.works|
    requires WorkOk(t, w, d) && w'.works[d] == w.works[d] && w'.log == w.log + [e] && w'.Id(d) == w.Id(d)
    requires w'.keys.deliveries[d].phase == w.keys.deliveries[d].phase
             || (w.works[d].attempt > 0 && !w.keys.deliveries[d].phase.Decided?)
    requires !(e.Did? && e.delivery == d) && !(e.Cleared? && e.delivery == d)
    ensures WorkOk(t, w', d)
  {
    hide Effects, Clears;
    DoingsGrow(w.log, e, d);
    if w.works[d].attempt > 0 {
      AttemptStays(w.log, e, d, w.Id(d), w.works[d].attempt);
    }
  }

  lemma AcksGrow(t: Trigger, w: World, w': World, e: Entry)
    requires AcksRest(t, w) && w'.log == w.log + [e]
    requires |w.keys.deliveries| <= |w'.keys.deliveries| && forall d: nat | d < |w.keys.deliveries| :: w'.Id(d) == w.Id(d)
    requires e.Did? && e.effect.Acked? ==> e.delivery < |w.keys.deliveries| && Rests(t, w.log, e.delivery, w.Id(e.delivery))
    ensures AcksRest(t, w')
  {
    hide Rests;
    forall q | 0 <= q < |w'.log| && w'.log[q].Did? && w'.log[q].effect.Acked?
      ensures w'.log[q].delivery < |w'.keys.deliveries| && Rests(t, w'.log[..q], w'.log[q].delivery, w'.Id(w'.log[q].delivery))
    {
      if q < |w.log| {
        assert w'.log[q] == w.log[q] && w'.log[..q] == w.log[..q];
      } else {
        assert w'.log[..q] == w.log;
      }
    }
  }

  lemma CountersGrow(w: World, w': World, e: Entry)
    requires Counters(w) && w'.log == w.log + [e]
    requires forall id | id != "" ::
               Count(w'.counts, id) == if e.Began? && e.id == id then Count(w.counts, id) + 1
                                       else if e.Cleared? && e.id == id then 0 else Count(w.counts, id)
    ensures Counters(w')
  {
    forall id | id != ""
      ensures Count(w'.counts, id) == Since(w'.log, id)
    {
      SinceGrows(w.log, e, id);
    }
  }

  // ---------- every action keeps the invariant ----------

  lemma ReceiveStep(t: Trigger, w: World, id: string)
    requires Inv(t, w)
    ensures Inv(t, Apply(t, w, Receive(id)))
  {
    hide K.Inv, Counters, Effects;
    var w' := Apply(t, w, Receive(id));
    K.Step(w.keys, K.Arrive(id));
    var n := |w.works|;
    NoDoings(w.log, n);
    forall d | 0 <= d < n
      ensures WorkOk(t, w', d)
    {
      assert WorkOk(t, w, d);
    }
    assert Counters(w') by {
      SameCounters(w, w');
    }
  }

  lemma SameCounters(w: World, w': World)
    requires Counters(w) && w'.counts == w.counts && w'.log == w.log
    ensures Counters(w')
  {
  }

  lemma {:induction false} NoDoings(log: seq<Entry>, d: nat)
    requires forall e | e in log :: e.delivery < d
    ensures Doings(log, d) == []
  {
    if log != [] {
      NoDoings(log[..|log| - 1], d);
      assert log[|log| - 1] in log;
    }
  }

  lemma BeginStep(t: Trigger, w: World, d: nat)
    requires Inv(t, w)
    ensures Inv(t, Apply(t, w, Begin(d)))
  {
    hide K.Inv, Effects, Rests;
    var w' := Apply(t, w, Begin(d));
    if w' != w {
      var e := Began(d, w.Id(d));
      assert WorkOk(t, w, d);
      AcksGrow(t, w, w', e);
      CountersGrow(w, w', e);
      AttemptBegins(w.log, d, w.Id(d));
      DoingsGrow(w.log, e, d);
      hide AcksRest, Doings, IsAttempt;
      forall m | 0 <= m < |w.works| && m != d
        ensures WorkOk(t, w', m)
      {
        WorkStays(t, w, w', m, e);
      }
      hide WorkOk, Counters;
      assert Kept(w');
    }
  }

  /** A reservation step moves one delivery, never a decided one, and logs at most one event of it. */
  lemma KeysMove(w: K.World, a: K.Action)
    requires !a.Arrive?
    ensures var w', d := K.Apply(w, a), Mover(a);
            && |w'.deliveries| == |w.deliveries| && (forall e | 0 <= e < |w.deliveries| :: w'.deliveries[e].id == w.deliveries[e].id)
            && (forall e | 0 <= e < |w.deliveries| && (e != d || w.deliveries[e].phase.Decided?) ::
                  w'.deliveries[e].phase == w.deliveries[e].phase)
            && (w'.log == w.log || (|w'.log| == |w.log| + 1 && w.log <= w'.log && w'.log[|w.log|].delivery == d))
  {
  }

  /** As WorkStays, when nothing is logged. */
  lemma WorkWaits(t: Trigger, w: World, w': World, d: nat)
    requires |w'.works| == |w'.keys.deliveries| && |w.works| == |w.keys.deliveries| && d < |w.works| && d < |w'.works|
    requires WorkOk(t, w, d) && w'.works[d] == w.works[d] && w'.log == w.log && w'.Id(d) == w.Id(d)
    requires w'.keys.deliveries[d].phase == w.keys.deliveries[d].phase
             || (w.works[d].attempt > 0 && !w.keys.deliveries[d].phase.Decided?)
    ensures WorkOk(t, w', d)
  {
    hide Effects;
  }

  lemma ReservationStep(t: Trigger, w: World, a: K.Action)
    requires Inv(t, w)
    ensures Inv(t, Apply(t, w, Reservation(a)))
  {
    hide K.Inv, K.Apply, Effects, Rests;
    var d := Mover(a);
    var w' := Apply(t, w, Reservation(a));
    if !a.Arrive? && d < |w.works| && w.works[d].attempt > 0 {
      KeysMove(w.keys, a);
      K.Step(w.keys, a);
      if w'.keys.log == w.keys.log {
        assert w'.log == w.log;
        forall m | 0 <= m < |w.works|
          ensures WorkOk(t, w', m)
        {
          WorkWaits(t, w, w', m);
        }
        SameCounters(w, w');
      } else {
        var e := Key(d, w'.keys.log[|w'.keys.log| - 1]);
        assert w'.log == w.log + [e];
        AcksGrow(t, w, w', e);
        CountersGrow(w, w', e);
        hide AcksRest, Counters;
        forall m | 0 <= m < |w.works|
          ensures WorkOk(t, w', m)
        {
          WorkStays(t, w, w', m, e);
        }
        hide WorkOk;
        assert Kept(w');
      }
    }
  }

  lemma HandleStep(t: Trigger, w: World, d: nat, answers: Answers)
    requires Inv(t, w)
    ensures Inv(t, Apply(t, w, Handle(d, answers)))
  {
    hide K.Inv, Effects, Rests, Clears, Counters, WorkOk, Kept, AcksRest;
    var w' := Apply(t, w, Handle(d, answers));
    if w' != w {
      HandledWork(t, w, d, answers);
      if w'.log == w.log {
        SameCounters(w, w');
        assert AcksRest(t, w') && Kept(w') by {
          SameLog(t, w, w');
        }
      } else {
        CountersGrow(w, w', Cleared(d, w.Id(d)));
        AcksGrow(t, w, w', Cleared(d, w.Id(d)));
        KeptGrows(w, w', Cleared(d, w.Id(d)));
      }
    }
  }

  lemma SameLog(t: Trigger, w: World, w': World)
    requires AcksRest(t, w) && Kept(w) && w'.log == w.log && w'.keys == w.keys && w'.queue == w.queue
    ensures AcksRest(t, w') && Kept(w')
  {
    hide Rests;
  }

  lemma KeptGrows(w: World, w': World, e: Entry)
    requires Kept(w) && w'.log == w.log + [e] && w'.keys == w.keys && w'.queue == w.queue && !e.Did?
    ensures Kept(w')
  {
  }

  lemma HandledWork(t: Trigger, w: World, d: nat, answers: Answers)
    requires Inv(t, w) && Apply(t, w, Handle(d, answers)) != w
    ensures var w' := Apply(t, w, Handle(d, answers));
            |w'.works| == |w'.keys.deliveries| && forall m | 0 <= m < |w'.works| :: WorkOk(t, w', m)
  {
    hide K.Inv, Effects, Clears, Counters, Kept, AcksRest, IsAttempt, Doings;
    var w' := Apply(t, w, Handle(d, answers));
    assert WorkOk(t, w, d);
    var e := Cleared(d, w.Id(d));
    forall m | 0 <= m < |w.works|
      ensures WorkOk(t, w', m)
    {
      if w'.log == w.log {
        if m != d {
          WorkWaits(t, w, w', m);
        }
      } else if m != d {
        WorkStays(t, w, w', m, e);
      } else {
        AttemptStays(w.log, e, d, w.Id(d), w.works[d].attempt);
        DoingsGrow(w.log, e, d);
      }
    }
  }

  lemma {:induction false} DoingsAreLogged(log: seq<Entry>, d: nat, effect: Effect)
    requires effect in Doings(log, d)
    ensures Did(d, effect) in log
  {
    var last := log[|log| - 1];
    if !(last.Did? && last.delivery == d && last.effect == effect) {
      DoingsAreLogged(log[..|log| - 1], d, effect);
    }
  }

  /** A successful or duplicate delivery rests on the event that says so. */
  lemma ResultRests(t: Trigger, w: World, d: nat)
    requires K.Inv(w.keys) && Kept(w) && d < |w.keys.deliveries| && !t.manualAck
    requires w.keys.deliveries[d].phase == K.Decided(RanOk) || w.keys.deliveries[d].phase == K.Decided(AlreadySucceeded)
    ensures Rests(t, w.log, d, w.Id(d))
  {
    var id := w.Id(d);
    assert K.DeliveryOk(w.keys, d);
    if w.keys.deliveries[d].phase == K.Decided(AlreadySucceeded) {
      assert K.KeyOk(w.keys, id);
      var owner := w.keys.keys[id].exec;
      assert K.KeySucceeded(owner, id) in w.keys.log;
      assert Key(owner, K.KeySucceeded(owner, id)) in w.log;
    } else {
      assert K.RunEnded(d, id, true) in w.keys.log;
    }
  }

  lemma NextAckRests(t: Trigger, w: World, d: nat)
    requires Inv(t, w) && d < |w.works| && w.works[d].plan.Some? && w.works[d].plan.value.todo != []
    requires w.works[d].plan.value.todo[0].Acked?
    ensures Rests(t, w.log, d, w.Id(d))
  {
    hide K.Inv, Effects, Counters, AcksRest, Doings;
    assert WorkOk(t, w, d);
    var work, result := w.works[d], w.keys.deliveries[d].phase.result;
    var done := Doings(w.log, d);
    var effects := Effects(t, work.attempt, result, work.plan.value.answers);
    AcksAreJustified(t, work.attempt, result, work.plan.value.answers);
    assert effects[|done|] == work.plan.value.todo[0] && effects[..|done|] == done;
    if Routed(true) in done {
      DoingsAreLogged(w.log, d, Routed(true));
    } else {
      ResultRests(t, w, d);
    }
  }

  lemma PerformStep(t: Trigger, w: World, d: nat)
    requires Inv(t, w)
    ensures Inv(t, Apply(t, w, Perform(d)))
  {
    hide K.Inv, Effects, Rests, Counters, WorkOk, Kept, AcksRest;
    var w' := Apply(t, w, Perform(d));
    if w' != w {
      var effect := w.works[d].plan.value.todo[0];
      PerformedWork(t, w, d);
      if effect.Acked? {
        NextAckRests(t, w, d);
      }
      CountersGrow(w, w', Did(d, effect));
      AcksGrow(t, w, w', Did(d, effect));
      Queued(w, w', d, effect);
    }
  }

  lemma Queued(w: World, w': World, d: nat, effect: Effect)
    requires Kept(w) && w'.log == w.log + [Did(d, effect)] && w'.keys == w.keys
    requires w'.queue == if effect == Routed(true) then w.queue + [d] else w.queue
    ensures Kept(w')
  {
  }

  lemma PerformedWork(t: Trigger, w: World, d: nat)
    requires Inv(t, w) && Apply(t, w, Perform(d)) != w
    ensures var w' := Apply(t, w, Perform(d));
            |w'.works| == |w'.keys.deliveries| && forall m | 0 <= m < |w'.works| :: WorkOk(t, w', m)
  {
    hide K.Inv, Effects, Clears, Counters, Kept, AcksRest, IsAttempt, Doings;
    var w' := Apply(t, w, Perform(d));
    assert WorkOk(t, w, d);
    var todo := w.works[d].plan.value.todo;
    var e := Did(d, todo[0]);
    AttemptStays(w.log, e, d, w.Id(d), w.works[d].attempt);
    DoingsGrow(w.log, e, d);
    assert Doings(w'.log, d) + todo[1..] == Doings(w.log, d) + todo;
    forall m | 0 <= m < |w.works|
      ensures WorkOk(t, w', m)
    {
      if m != d {
        WorkStays(t, w, w', m, e);
      }
    }
  }

  lemma {:induction false} Holds(t: Trigger, trace: seq<World>, acts: seq<Action>, n: nat)
    requires IsRun(t, trace, acts) && n <= |acts|
    ensures Inv(t, trace[n])
  {
    if n > 0 {
      Holds(t, trace, acts, n - 1);
      var w, a := trace[n - 1], acts[n - 1];
      hide Inv, Apply;
      match a {
        case Receive(id) => ReceiveStep(t, w, id);
        case Begin(d) => BeginStep(t, w, d);
        case Reservation(k) => ReservationStep(t, w, k);
        case Handle(d, answers) => HandleStep(t, w, d, answers);
        case Perform(d) => PerformStep(t, w, d);
      }
    }
  }

  // ---------- the theorems ----------

  /**
   In every interleaved trace, every ack of a delivery stands behind the end of its own
   run without an error, the success of another delivery of the same message, or the
   entry of the message into the dead-letter queue; and what the queue holds is what was
   routed there.
   */
  lemma AcksAreSafe(t: Trigger, trace: seq<World>, acts: seq<Action>)
    requires IsRun(t, trace, acts)
    ensures AcksRest(t, trace[|acts|])
    ensures forall d :: d in trace[|acts|].queue <==> Did(d, Routed(true)) in trace[|acts|].log
  {
    Holds(t, trace, acts, |acts|);
  }

  /**
   In every interleaved trace each delivery does, in order, a beginning of what the handling
   of one delivery prescribes, under the attempt that counts the deliveries of its message
   since the counter was last cleared.
   */
  lemma TraceProjects(t: Trigger, trace: seq<World>, acts: seq<Action>, d: nat)
    requires IsRun(t, trace, acts)
    requires d < |trace[|acts|].works| == |trace[|acts|].keys.deliveries| && trace[|acts|].works[d].plan.Some?
    ensures var w := trace[|acts|];
            && w.keys.deliveries[d].phase.Decided? && IsAttempt(w.log, d, w.Id(d), w.works[d].attempt)
            && Doings(w.log, d) <= Effects(t, w.works[d].attempt, w.keys.deliveries[d].phase.result, w.works[d].plan.value.answers)
  {
    Holds(t, trace, acts, |acts|);
    hide K.Inv, Effects, IsAttempt, Counters, Kept, AcksRest;
    assert WorkOk(t, trace[|acts|], d);
  }

  /** Whatever is interleaved, no delivery is nacked behind a successful ack, unless the trigger dead-letters without a limit. */
  lemma AckIsFinalInTraces(t: Trigger, trace: seq<World>, acts: seq<Action>, d: nat)
    requires IsRun(t, trace, acts) && !(t.DeadLetters() && t.maxAttempts <= 0)
    requires d < |trace[|acts|].works|
    ensures NoNackAfterAck(Doings(trace[|acts|].log, d))
  {
    Holds(t, trace, acts, |acts|);
    var w := trace[|acts|];
    assert WorkOk(t, w, d);
    if w.works[d].plan.Some? {
      var effects := Effects(t, w.works[d].attempt, w.keys.deliveries[d].phase.result, w.works[d].plan.value.answers);
      AckIsFinal(t, w.works[d].attempt);
      assert NoNackAfterAck(effects);
      hide Effects;
      forall p, q | 0 <= p < q < |Doings(w.log, d)| && Doings(w.log, d)[p] == Acked(true)
        ensures !Doings(w.log, d)[q].Nacked?
      {
        assert effects[p] == Doings(w.log, d)[p] && effects[q] == Doings(w.log, d)[q];
      }
    }
  }

  /**
   The retry budget of a message under any interleaving: a failed delivery that is through
   with its work was nacked if fewer than the limit of deliveries had begun since the
   counter was last cleared, and was dead-lettered and cleared the counter otherwise.
   */
  lemma BudgetInTraces(t: Trigger, trace: seq<World>, acts: seq<Action>, d: nat)
    requires IsRun(t, trace, acts) && t.maxAttempts > 0
    requires d < |trace[|acts|].works| == |trace[|acts|].keys.deliveries|
    requires var w := trace[|acts|];
             && w.works[d].plan.Some? && w.works[d].plan.value.todo == []
             && w.keys.deliveries[d].phase == K.Decided(RunFailed) && w.Id(d) != ""
    ensures var w, id := trace[|acts|], trace[|acts|].Id(d);
            exists c :: 0 <= c < |w.log| && w.log[c] == Began(d, id)
              && var k, answers := Since(w.log[..c + 1], id), w.works[d].plan.value.answers;
                 && Doings(w.log, d) == (if k < t.maxAttempts then [Redelivered(k), Nacked(answers.nack)]
                                         else DeadLetterEffects(t, k, answers.ack, answers))
                 && (Cleared(d, id) in w.log <==> k >= t.maxAttempts)
  {
    Holds(t, trace, acts, |acts|);
    var w := trace[|acts|];
    hide K.Inv, Counters, Kept, AcksRest, DeadLetterEffects;
    assert WorkOk(t, w, d);
    var id := w.Id(d);
    var c :| 0 <= c < |w.log| && w.log[c] == Began(d, id) && w.works[d].attempt == Since(w.log[..c + 1], id);
    assert Doings(w.log, d) + [] == Doings(w.log, d);
  }

  /**
   In every trace, a successful delivery that is through with its work has acked, unless
   acks are manual; and no delivery ends in silence but an interrupted one and a success
   under manual acks.
   */
  lemma SuccessIsAcked(t: Trigger, trace: seq<World>, acts: seq<Action>, d: nat)
    requires IsRun(t, trace, acts)
    requires d < |trace[|acts|].works| == |trace[|acts|].keys.deliveries|
    requires var w := trace[|acts|];
             w.works[d].plan.Some? && w.works[d].plan.value.todo == [] && w.keys.deliveries[d].phase.Decided?
    ensures var w := trace[|acts|];
            var result := w.keys.deliveries[d].phase.result;
            var ok := result == RanOk || result == AlreadySucceeded;
            && (ok && !t.manualAck ==> Did(d, Acked(w.works[d].plan.value.answers.ack)) in w.log)
            && (Doings(w.log, d) == [] <==> result == Interrupted || (ok && t.manualAck))
  {
    Holds(t, trace, acts, |acts|);
    var w := trace[|acts|];
    hide K.Inv, Counters, Kept, AcksRest, Effects;
    assert WorkOk(t, w, d);
    var work, result := w.works[d], w.keys.deliveries[d].phase.result;
    assert Doings(w.log, d) + [] == Doings(w.log, d);
    AttemptIsPositive(t, w, d);
    EffectsAreExact(t, work.attempt, result, work.plan.value.answers);
    if (result == RanOk || result == AlreadySucceeded) && !t.manualAck {
      DoingsAreLogged(w.log, d, Acked(work.plan.value.answers.ack));
    }
  }

  lemma AttemptIsPositive(t: Trigger, w: World, d: nat)
    requires d < |w.works| == |w.keys.deliveries| && WorkOk(t, w, d) && w.works[d].plan.Some?
    ensures w.works[d].attempt > 0
  {
  }

  // ---------- every delivery comes to an end ----------

  function Exec(t: Trigger, w: World, acts: seq<Action>): World
    decreases |acts|
  {
    if acts == [] then w else Exec(t, Apply(t, w, acts[0]), acts[1..])
  }

  predicate Done(w: World, d: nat) {
    d < |w.works| && w.works[d].plan.Some? && w.works[d].plan.value.todo == []
  }

  /** How far a delivery is from being decided. */
  function Rank(w: World, d: nat): nat
    requires d < |w.works| == |w.keys.deliveries|
  {
    if w.works[d].plan.Some? then 0
    else
      match w.keys.deliveries[d].phase
      case Arrived => if w.works[d].attempt == 0 then 5 else 4
      case Reserved(_) => 3
      case Conflicted => 3
      case Running(_, _) => 2
      case Decided(_) => 1
  }

  /** What brings a delivery on when everything answers and its run succeeds. */
  function Next(w: World, d: nat, answers: Answers): Action
    requires d < |w.works| == |w.keys.deliveries|
  {
    if w.works[d].plan.Some? then Perform(d)
    else if w.works[d].attempt == 0 then Begin(d)
    else
      match w.keys.deliveries[d].phase
      case Arrived => Reservation(K.Reserve(d, true, true, false))
      case Reserved(_) => Reservation(K.Start(d, true, true, false))
      case Conflicted => Reservation(K.LookUp(d, true, true, false))
      case Running(_, _) => Reservation(K.End(d, RanOk, true))
      case Decided(_) => Handle(d, answers)
  }

  predicate Regular(w: World, d: nat) {
    && d < |w.works| == |w.keys.deliveries|
    && (w.works[d].attempt == 0 ==> w.keys.deliveries[d].phase.Arrived? && w.works[d].plan.None?)
  }

  lemma NextMoves(t: Trigger, w: World, d: nat, answers: Answers)
    requires Regular(w, d) && !Done(w, d)
    ensures var w' := Apply(t, w, Next(w, d, answers));
            && Regular(w', d)
            && (Rank(w', d) < Rank(w, d)
                || (Rank(w', d) == Rank(w, d) == 0 && w'.works[d].plan.Some? && w.works[d].plan.Some?
                    && |w'.works[d].plan.value.todo| < |w.works[d].plan.value.todo|))
  {
    hide Effects, Clears;
  }

  function Todo(w: World, d: nat): nat {
    if d < |w.works| && w.works[d].plan.Some? then |w.works[d].plan.value.todo| else 0
  }

  /** From every world, a received delivery can be handled to its last effect. */
  lemma {:induction false} Ends(t: Trigger, w: World, d: nat, answers: Answers) returns (more: seq<Action>)
    requires Regular(w, d)
    ensures Done(Exec(t, w, more), d)
    decreases if d < |w.works| == |w.keys.deliveries| then Rank(w, d) else 0, Todo(w, d)
  {
    hide Apply, Next, Rank, Regular;
    if Done(w, d) {
      more := [];
    } else {
      NextMoves(t, w, d, answers);
      RegularFacts(w, d);
      var a := Next(w, d, answers);
      var w1 := Apply(t, w, a);
      RegularFacts(w1, d);
      var rest := Ends(t, w1, d, answers);
      more := [a] + rest;
      assert more[1..] == rest;
    }
  }

  lemma RegularFacts(w: World, d: nat)
    requires Regular(w, d)
    ensures d < |w.works| == |w.keys.deliveries|
  {
  }

  /** No delivery of any trace is stuck: each can be brought to its last effect, whatever the others do. */
  lemma DeliveriesCanEnd(t: Trigger, trace: seq<World>, acts: seq<Action>, d: nat, answers: Answers) returns (more: seq<Action>)
    requires IsRun(t, trace, acts) && d < |trace[|acts|].works|
    ensures Done(Exec(t, trace[|acts|], more), d)
  {
    Holds(t, trace, acts, |acts|);
    assert WorkOk(t, trace[|acts|], d);
    more := Ends(t, trace[|acts|], d, answers);
  }
}
