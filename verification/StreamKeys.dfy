/**
 Stream idempotency: the reservation that a delivery makes before its plan runs, under
 any interleaving of deliveries of the same and of other messages.
 */
module StreamKeys {
  import opened Wrappers
  import opened Stream

  datatype Outcome = Pending | Succeeded | Failed

  datatype Record = Record(exec: nat, outcome: Outcome)

  /** Where a delivery stands; its index is the execution it mints. */
  datatype Phase =
    | Arrived
    | Reserved(retrying: bool)
    | Conflicted
    | Running(keyed: bool, settled: bool)
    | Decided(result: RunResult)

  datatype Delivery = Delivery(id: string, phase: Phase)

  datatype Event =
    | RunBegan(delivery: nat, id: string)
    | KeySucceeded(delivery: nat, id: string)
    | RunEnded(delivery: nat, id: string, ok: bool)

  datatype World = World(keys: map<string, Record>, deliveries: seq<Delivery>, log: seq<Event>) {
    predicate At(d: nat, phase: Phase) {
      d < |deliveries| && deliveries[d].phase == phase
    }

    function Put(d: nat, phase: Phase): World
      requires d < |deliveries|
    {
      this.(deliveries := deliveries[d := deliveries[d].(phase := phase)])
    }

    function Log(e: Event): World {
      this.(log := log + [e])
    }

    /** The reservation belongs to the delivery and is still open. */
    predicate Open(d: nat)
      requires d < |deliveries|
    {
      deliveries[d].id in keys && keys[deliveries[d].id] == Record(d, Pending)
    }

    function Resolve(d: nat, outcome: Outcome): World
      requires d < |deliveries|
    {
      if Open(d) then this.(keys := keys[deliveries[d].id := Record(d, outcome)]) else this
    }
  }

  const START := World(map[], [], [])

  /** `ok` says whether the store or the event store answers the call, `done` that the context has ended. */
  datatype Action =
    | Arrive(id: string)
    | Reserve(d: nat, lookupOk: bool, ok: bool, done: bool)
    | Start(d: nat, saveOk: bool, resolveOk: bool, done: bool)
    | LookUp(d: nat, ok: bool, emitOk: bool, done: bool)
    | Settle(d: nat, success: bool)
    | End(d: nat, result: RunResult, resolveOk: bool)

  /** A failed call, which an ended context turns into an interruption. */
  function Failure(done: bool): Phase {
    Decided(if done then Interrupted else RunFailed)
  }

  function Apply(w: World, a: Action): World {
    match a
    case Arrive(id) => w.(deliveries := w.deliveries + [Delivery(id, Arrived)])
    // Without an ID there is no reservation; else ReserveIdempotency, which takes over a failed key only.
    case Reserve(d, lookupOk, ok, done) =>
      if w.At(d, Arrived) then
        var id := w.deliveries[d].id;
        if id == "" then w.Put(d, Running(false, false)).Log(RunBegan(d, id))
        else if !lookupOk || !ok then w.Put(d, Failure(done))
        else if id in w.keys && w.keys[id].outcome != Failed then w.Put(d, Conflicted)
        else w.(keys := w.keys[id := Record(d, Pending)]).Put(d, Reserved(id in w.keys))
      else w
    // The session is saved and the decision emitted before the run begins; a failure gives the key back.
    case Start(d, saveOk, resolveOk, done) =>
      if d < |w.deliveries| && w.deliveries[d].phase.Reserved? then
        if saveOk then w.Put(d, Running(true, false)).Log(RunBegan(d, w.deliveries[d].id))
        else (if resolveOk then w.Resolve(d, Failed) else w).Put(d, Failure(done))
      else w
    case LookUp(d, ok, emitOk, done) =>
      if w.At(d, Conflicted) then
        var id := w.deliveries[d].id;
        if !ok || !emitOk || id !in w.keys then w.Put(d, Failure(done))
        else
          match w.keys[id].outcome
          case Succeeded => w.Put(d, Decided(AlreadySucceeded))
          case Pending => w.Put(d, Decided(StillPending))
          case Failed => w.Put(d, Decided(RunFailed))
      else w
    // The run resolves its own key, once; a success only after its terminal.
    case Settle(d, success) =>
      if w.At(d, Running(true, false)) then
        if success then w.Resolve(d, Succeeded).Put(d, Running(true, true)).Log(KeySucceeded(d, w.deliveries[d].id))
        else w.Resolve(d, Failed).Put(d, Running(true, true))
      else w
    // After a failed run the caller resolves the key as failed, unless it is resolved already.
    case End(d, result, resolveOk) =>
      if d < |w.deliveries| && w.deliveries[d].phase.Running? && (result == RanOk || result == RunFailed || result == Interrupted) then
        (if w.deliveries[d].phase.keyed && result != RanOk && resolveOk then w.Resolve(d, Failed) else w)
          .Put(d, Decided(result)).Log(RunEnded(d, w.deliveries[d].id, result == RanOk))
      else w
  }

  /** A run: the worlds it passes through, one action apart. */
  ghost predicate IsRun(trace: seq<World>, acts: seq<Action>) {
    |trace| == |acts| + 1 && trace[0] == START && forall i | 0 <= i < |acts| :: trace[i + 1] == Apply(trace[i], acts[i])
  }

  // ---------- the invariant ----------

  predicate IsSucceeded(w: World, id: string) {
    id in w.keys && w.keys[id].outcome == Succeeded
  }

  /** A reserved delivery, and a running one that has not settled its key, own it. */
  ghost predicate DeliveryOk(w: World, d: nat)
    requires d < |w.deliveries|
  {
    var delivery := w.deliveries[d];
    match delivery.phase
    case Reserved(_) => delivery.id != "" && w.Open(d)
    case Running(keyed, settled) => if keyed then delivery.id != "" && (!settled ==> w.Open(d)) else delivery.id == ""
    case Arrived => Foreign(w, d)
    case Conflicted => delivery.id != "" && delivery.id in w.keys && Foreign(w, d)
    case Decided(AlreadySucceeded) => IsSucceeded(w, delivery.id) && Foreign(w, d)
    case Decided(RanOk) => RunEnded(d, delivery.id, true) in w.log
    case _ => true
  }

  /** The delivery has never reserved its key. */
  predicate Foreign(w: World, d: nat)
    requires d < |w.deliveries|
  {
    w.deliveries[d].id in w.keys ==> w.keys[w.deliveries[d].id].exec != d
  }

  ghost predicate KeyOk(w: World, id: string)
    requires id in w.keys
  {
    && id != "" && w.keys[id].exec < |w.deliveries| && w.deliveries[w.keys[id].exec].id == id
    && (w.keys[id].outcome == Succeeded ==> KeySucceeded(w.keys[id].exec, id) in w.log)
  }

  /** After a success of a message, no run of it begins and no other one succeeds. */
  ghost predicate SucceedsOnce(log: seq<Event>) {
    forall p, q | 0 <= p < q < |log| && log[p].KeySucceeded? && log[q].id == log[p].id :: !log[q].RunBegan? && !log[q].KeySucceeded?
  }

  ghost predicate Inv(w: World) {
    && (forall d | 0 <= d < |w.deliveries| :: DeliveryOk(w, d))
    && (forall id | id in w.keys :: KeyOk(w, id))
    && (forall q | 0 <= q < |w.log| && w.log[q].KeySucceeded? :: w.log[q].id != "" && IsSucceeded(w, w.log[q].id))
    && SucceedsOnce(w.log)
  }

  /** What a move of delivery d may write: its own key, and one event. */
  predicate Allowed(w: World, d: nat, record: Option<Record>, events: seq<Event>)
    requires d < |w.deliveries|
  {
    var id := w.deliveries[d].id;
    && (record.Some? ==> id != "" && record.value.exec == d && (id in w.keys ==> w.Open(d) || w.keys[id].outcome == Failed))
    && (events == [] || events == [RunBegan(d, id)] || events == [RunEnded(d, id, true)] || events == [RunEnded(d, id, false)] || events == [KeySucceeded(d, id)])
    && (events == [RunBegan(d, id)] ==> !IsSucceeded(w, id))
    && (record == Some(Record(d, Succeeded)) <==> events == [KeySucceeded(d, id)])
  }

  function Moved(w: World, d: nat, phase: Phase, record: Option<Record>, events: seq<Event>): World
    requires d < |w.deliveries|
  {
    World(if record.Some? then w.keys[w.deliveries[d].id := record.value] else w.keys,
          w.deliveries[d := w.deliveries[d].(phase := phase)], w.log + events)
  }

  lemma MoveStep(w: World, d: nat, phase: Phase, record: Option<Record>, events: seq<Event>)
    requires Inv(w) && d < |w.deliveries| && Allowed(w, d, record, events)
    requires DeliveryOk(Moved(w, d, phase, record, events), d)
    ensures Inv(Moved(w, d, phase, record, events))
  {
    var w', id := Moved(w, d, phase, record, events), w.deliveries[d].id;
    forall e | 0 <= e < |w'.deliveries| && e != d
      ensures DeliveryOk(w', e)
    {
      assert DeliveryOk(w, e);
    }
    forall k | k in w'.keys
      ensures KeyOk(w', k)
    {
      assert k in w.keys ==> KeyOk(w, k);
      assert forall e: Event :: e in w.log ==> e in w'.log;
      assert events != [] ==> events[0] in w'.log;
    }
    LogStep(w, d, record, events);
  }

  lemma LogStep(w: World, d: nat, record: Option<Record>, events: seq<Event>)
    requires Inv(w) && d < |w.deliveries| && Allowed(w, d, record, events)
    ensures SucceedsOnce(w.log + events)
    ensures var w' := Moved(w, d, Arrived, record, events);
            forall q | 0 <= q < |w'.log| && w'.log[q].KeySucceeded? :: w'.log[q].id != "" && IsSucceeded(w', w'.log[q].id)
  {
    var id := w.deliveries[d].id;
    if events != [] && id in w.keys {
      assert KeyOk(w, id);
    }
  }

  lemma ReserveStep(w: World, a: Action)
    requires Inv(w) && a.Reserve?
    ensures Inv(Apply(w, a))
  {
    var w' := Apply(w, a);
    if w' != w {
      var d, id := a.d, w.deliveries[a.d].id;
      var record := if w'.keys == w.keys then None else Some(Record(d, Pending));
      var events := if id == "" then [RunBegan(d, id)] else [];
      assert id in w.keys ==> KeyOk(w, id);
      assert DeliveryOk(w, d);
      assert w' == Moved(w, d, w'.deliveries[d].phase, record, events);
      MoveStep(w, d, w'.deliveries[d].phase, record, events);
    }
  }

  lemma StartStep(w: World, a: Action)
    requires Inv(w) && (a.Start? || a.LookUp?)
    ensures Inv(Apply(w, a))
  {
    var w' := Apply(w, a);
    if w' != w {
      var d, id := a.d, w.deliveries[a.d].id;
      assert DeliveryOk(w, d);
      var record := if w'.keys == w.keys then None else Some(Record(d, Failed));
      var events := if a.Start? && a.saveOk then [RunBegan(d, id)] else [];
      assert w' == Moved(w, d, w'.deliveries[d].phase, record, events);
      MoveStep(w, d, w'.deliveries[d].phase, record, events);
    }
  }

  lemma SettleStep(w: World, a: Action)
    requires Inv(w) && (a.Settle? || a.End?)
    ensures Inv(Apply(w, a))
  {
    var w' := Apply(w, a);
    if w' != w {
      var d, id := a.d, w.deliveries[a.d].id;
      assert DeliveryOk(w, d);
      var record := if w'.keys == w.keys then None else Some(w'.keys[id]);
      var events := if a.End? then [RunEnded(d, id, a.result == RanOk)] else if a.success then [KeySucceeded(d, id)] else [];
      assert w' == Moved(w, d, w'.deliveries[d].phase, record, events);
      MoveStep(w, d, w'.deliveries[d].phase, record, events);
    }
  }

  lemma ArriveStep(w: World, id: string)
    requires Inv(w)
    ensures Inv(Apply(w, Arrive(id)))
  {
    var w' := Apply(w, Arrive(id));
    forall d | 0 <= d < |w'.deliveries|
      ensures DeliveryOk(w', d)
    {
      assert d < |w.deliveries| ==> DeliveryOk(w, d);
    }
    forall k | k in w'.keys
      ensures KeyOk(w', k)
    {
      assert KeyOk(w, k);
    }
  }

  lemma Step(w: World, a: Action)
    requires Inv(w)
    ensures Inv(Apply(w, a))
  {
    hide Inv, Apply;
    match a {
      case Arrive(id) => ArriveStep(w, id);
      case Reserve(_, _, _, _) => ReserveStep(w, a);
      case Start(_, _, _, _) => StartStep(w, a);
      case LookUp(_, _, _, _) => StartStep(w, a);
      case Settle(_, _) => SettleStep(w, a);
      case End(_, _, _) => SettleStep(w, a);
    }
  }

  lemma {:induction false} Holds(trace: seq<World>, acts: seq<Action>, n: nat)
    requires IsRun(trace, acts) && n <= |acts|
    ensures Inv(trace[n])
  {
    if n > 0 {
      Holds(trace, acts, n - 1);
      hide Inv, Apply;
      Step(trace[n - 1], acts[n - 1]);
    }
  }

  // ---------- the theorems ----------

  /** A delivery with an ID whose run has not settled its key. */
  predicate Runs(w: World, d: nat) {
    w.At(d, Running(true, false)) || w.At(d, Reserved(true)) || w.At(d, Reserved(false))
  }

  /**
   Under any interleaving of deliveries: no two of one message hold its reservation
   together, a message succeeds at most once and never runs again afterwards, and a
   delivery is taken for a duplicate only if another one has succeeded.
   */
  lemma OneRunPerMessage(trace: seq<World>, acts: seq<Action>, d: nat, e: nat)
    requires IsRun(trace, acts)
    ensures var w := trace[|acts|];
            && SucceedsOnce(w.log)
            && (Runs(w, d) && Runs(w, e) && w.deliveries[d].id == w.deliveries[e].id ==> d == e)
            && (w.At(d, Decided(AlreadySucceeded)) ==>
                  exists owner: nat :: owner != d && KeySucceeded(owner, w.deliveries[d].id) in w.log)
  {
    Holds(trace, acts, |acts|);
    var w := trace[|acts|];
    if d < |w.deliveries| {
      assert DeliveryOk(w, d);
      if w.At(d, Decided(AlreadySucceeded)) {
        assert KeyOk(w, w.deliveries[d].id);
      }
    }
    if e < |w.deliveries| {
      assert DeliveryOk(w, e);
    }
  }

  // ---------- what a delivery comes to ----------

  /**
   When the stores answer, a message whose key is absent or has failed runs, in every world:
   the key is its own, and its run begins; it is a retry if and only if the key is there.
   */
  lemma FreeKeyRuns(w: World, d: nat, resolveOk: bool, done: bool)
    requires w.At(d, Arrived) && w.deliveries[d].id != ""
    requires var id := w.deliveries[d].id; id in w.keys ==> w.keys[id].outcome == Failed
    ensures Apply(w, Reserve(d, true, true, done)).At(d, Reserved(w.deliveries[d].id in w.keys))
    ensures var id := w.deliveries[d].id;
            Apply(Apply(w, Reserve(d, true, true, done)), Start(d, true, resolveOk, done))
              == World(w.keys[id := Record(d, Pending)], w.deliveries[d := Delivery(id, Running(true, false))], w.log + [RunBegan(d, id)])
  {
    var w1 := Apply(w, Reserve(d, true, true, done));
    assert w1.deliveries[d].phase == Reserved(w.deliveries[d].id in w.keys);
  }

  /** A message without an ID runs at once, and owns no key. */
  lemma NamelessRuns(w: World, d: nat, lookupOk: bool, ok: bool, done: bool)
    requires w.At(d, Arrived) && w.deliveries[d].id == ""
    ensures Apply(w, Reserve(d, lookupOk, ok, done))
              == World(w.keys, w.deliveries[d := Delivery("", Running(false, false))], w.log + [RunBegan(d, "")])
  {
  }

  /** A message whose key is taken is parked while it is pending, and a duplicate once it has succeeded; nothing runs. */
  lemma TakenKeyDecides(w: World, d: nat, done: bool)
    requires w.At(d, Arrived) && w.deliveries[d].id != "" && w.deliveries[d].id in w.keys
    requires w.keys[w.deliveries[d].id].outcome != Failed
    ensures var id := w.deliveries[d].id;
            Apply(Apply(w, Reserve(d, true, true, done)), LookUp(d, true, true, done))
              == World(w.keys, w.deliveries[d := Delivery(id, Decided(if w.keys[id].outcome == Pending then StillPending else AlreadySucceeded))],
                       w.log)
  {
    var w1 := Apply(w, Reserve(d, true, true, done));
    assert w1.deliveries[d].phase == Conflicted;
  }

  /** A failed run that resolves its key gives it back, and the next delivery of the message runs. */
  lemma RedeliveryRuns(w: World, d: nat, e: nat, result: RunResult, done: bool)
    requires w.At(d, Running(true, false)) && w.Open(d) && w.deliveries[d].id != "" && (result == RunFailed || result == Interrupted)
    requires e != d && w.At(e, Arrived) && w.deliveries[e].id == w.deliveries[d].id
    ensures var w' := Apply(Apply(Apply(w, End(d, result, true)), Reserve(e, true, true, done)), Start(e, true, true, done));
            && w'.At(d, Decided(result)) && w'.At(e, Running(true, false)) && w'.log == w.log + [RunEnded(d, w.deliveries[d].id, false)]
                 + [RunBegan(e, w.deliveries[e].id)]
  {
    var w1 := Apply(w, End(d, result, true));
    assert w1.At(e, Arrived) && w1.keys[w.deliveries[d].id] == Record(d, Failed);
    FreeKeyRuns(w1, e, true, done);
  }

  /** A run that cannot be started gives its key back, and nothing has begun. */
  lemma FailedStartGivesBack(w: World, d: nat, done: bool)
    requires d < |w.deliveries| && w.deliveries[d].phase.Reserved? && w.Open(d)
    ensures var w', id := Apply(w, Start(d, false, true, done)), w.deliveries[d].id;
            && w'.keys == w.keys[id := Record(d, Failed)] && w'.log == w.log
            && w'.At(d, Decided(if done then Interrupted else RunFailed))
  {
  }

  /** A run resolves its own pending key once, and says so in the log exactly when it succeeds. */
  lemma RunSettlesKey(w: World, d: nat, success: bool)
    requires w.At(d, Running(true, false)) && w.Open(d)
    ensures var w', id := Apply(w, Settle(d, success)), w.deliveries[d].id;
            && w'.keys == w.keys[id := Record(d, if success then Succeeded else Failed)]
            && w'.log == w.log + (if success then [KeySucceeded(d, id)] else [])
            && w'.At(d, Running(true, true))
  {
  }

  /** A run that ends well leaves every key as it settled it; a failed one fails its key if that is still open. */
  lemma EndLeavesKey(w: World, d: nat, result: RunResult, resolveOk: bool)
    requires d < |w.deliveries| && w.deliveries[d].phase.Running? && w.deliveries[d].phase.keyed
    requires result == RanOk || result == RunFailed || result == Interrupted
    ensures var w', id := Apply(w, End(d, result, resolveOk)), w.deliveries[d].id;
            && w'.keys == (if id in w.keys && w.keys[id] == Record(d, Pending) && result != RanOk && resolveOk
                           then w.keys[id := Record(d, Failed)] else w.keys)
            && w'.log == w.log + [RunEnded(d, id, result == RanOk)] && w'.At(d, Decided(result))
  {
  }

  /**
   A call that is not answered decides the delivery at once, as interrupted when its context
   has ended and else as failed: nothing has run, and no key is touched that is not its own.
   */
  lemma UnansweredDecides(w: World, a: Action)
    requires match a
             case Reserve(d, lookupOk, ok, _) => w.At(d, Arrived) && w.deliveries[d].id != "" && (!lookupOk || !ok)
             case LookUp(d, ok, emitOk, _) => w.At(d, Conflicted) && (!ok || !emitOk)
             case Start(d, saveOk, resolveOk, _) => d < |w.deliveries| && w.deliveries[d].phase.Reserved? && w.Open(d) && !saveOk && !resolveOk
             case _ => false
    ensures Apply(w, a) == w.(deliveries := w.deliveries[a.d := w.deliveries[a.d].(phase := Decided(if a.done then Interrupted else RunFailed))])
  {
  }

  // ---------- failures without a run ----------

  /** The stores answer every call. */
  predicate Answers(a: Action) {
    match a
    case Reserve(_, lookupOk, ok, _) => lookupOk && ok
    case Start(_, saveOk, _, _) => saveOk
    case LookUp(_, ok, emitOk, _) => ok && emitOk
    case _ => true
  }

  /** The key that delivery d had met pending or succeeded has failed by the time it looks it up. */
  predicate LateFailure(w: World, a: Action, d: nat) {
    && a.LookUp? && a.d == d && w.At(d, Conflicted)
    && w.deliveries[d].id in w.keys && w.keys[w.deliveries[d].id].outcome == Failed
  }

  /** What the trace so far says of delivery d; `late` says that such a failure has struck it. */
  ghost predicate Told(w: World, d: nat, late: bool) {
    if d >= |w.deliveries| then !late && forall id :: RunBegan(d, id) !in w.log
    else
      var id := w.deliveries[d].id;
      match w.deliveries[d].phase
      case Running(_, _) => !late && RunBegan(d, id) in w.log
      case Decided(result) =>
        if late then result == RunFailed && RunBegan(d, id) !in w.log else result == RunFailed ==> RunBegan(d, id) in w.log
      case _ => !late && RunBegan(d, id) !in w.log
  }

  lemma ToldApart(w: World, a: Action, d: nat, late: bool)
    requires Told(w, d, late) && !a.Arrive? && a.d != d
    ensures Told(Apply(w, a), d, late || LateFailure(w, a, d))
  {
    var w' := Apply(w, a);
    assert forall id :: RunBegan(d, id) in w'.log <==> RunBegan(d, id) in w.log;
  }

  lemma ToldOn(w: World, a: Action, d: nat, late: bool)
    requires Inv(w) && Told(w, d, late) && Answers(a)
    ensures Told(Apply(w, a), d, late || LateFailure(w, a, d))
  {
    if !a.Arrive? && a.d != d {
      ToldApart(w, a, d, late);
    } else {
      if d < |w.deliveries| {
        assert DeliveryOk(w, d);
      }
      hide Inv, DeliveryOk;
    }
  }

  lemma {:induction false} TraceTold(trace: seq<World>, acts: seq<Action>, n: nat, d: nat)
    requires IsRun(trace, acts) && n <= |acts| && forall i | 0 <= i < |acts| :: Answers(acts[i])
    ensures Told(trace[n], d, exists i :: 0 <= i < n && LateFailure(trace[i], acts[i], d))
  {
    if n > 0 {
      TraceTold(trace, acts, n - 1, d);
      Holds(trace, acts, n - 1);
      var late := exists i :: 0 <= i < n - 1 && LateFailure(trace[i], acts[i], d);
      ToldOn(trace[n - 1], acts[n - 1], d, late);
      hide Told, Apply, LateFailure, Inv;
      assert (exists i :: 0 <= i < n && LateFailure(trace[i], acts[i], d)) <==> (late || LateFailure(trace[n - 1], acts[n - 1], d));
    }
  }

  /**
   In every run with answering stores, a delivery is decided as failed without its own run
   if and only if the key that it met taken was failed by its owner before it looked it up.
   */
  lemma FailureNeedsARun(trace: seq<World>, acts: seq<Action>, d: nat)
    requires IsRun(trace, acts) && forall i | 0 <= i < |acts| :: Answers(acts[i])
    requires d < |trace[|acts|].deliveries|
    ensures var w := trace[|acts|];
            (w.At(d, Decided(RunFailed)) && RunBegan(d, w.deliveries[d].id) !in w.log)
              <==> (exists i :: 0 <= i < |acts| && LateFailure(trace[i], acts[i], d))
  {
    TraceTold(trace, acts, |acts|, d);
  }

  /** Two deliveries of one message: the second meets the first one's key, the first one fails, the second looks. */
  function LateRun(id: string): seq<Action> {
    [Arrive(id), Arrive(id), Reserve(0, true, true, false), Start(0, true, true, false), Reserve(1, true, true, false),
     Settle(0, false), LookUp(1, true, true, false)]
  }

  function Exec(w: World, acts: seq<Action>): World
    decreases |acts|
  {
    if acts == [] then w else Exec(Apply(w, acts[0]), acts[1..])
  }

  /** Such a run exists for every message: the second delivery fails without having run. */
  lemma LateFailureHappens(id: string)
    requires id != ""
    ensures var w := Exec(START, LateRun(id)); w.At(1, Decided(RunFailed)) && RunBegan(1, id) !in w.log && forall a | a in LateRun(id) :: Answers(a)
  {
    var acts := LateRun(id);
    var w2 := Apply(Apply(START, acts[0]), acts[1]);
    assert w2 == World(map[], [Delivery(id, Arrived), Delivery(id, Arrived)], []);
    FreeKeyRuns(w2, 0, true, false);
    var w4 := Apply(Apply(w2, acts[2]), acts[3]);
    var w5 := Apply(w4, acts[4]);
    assert w5.deliveries[1].phase == Conflicted && w5.log == [RunBegan(0, id)] && w5.Open(0);
    var w6 := Apply(w5, acts[5]);
    assert w6.keys[id] == Record(0, Failed) && w6.At(1, Conflicted) && w6.log == [RunBegan(0, id)];
    var w7 := Apply(w6, acts[6]);
    assert w7.log == w6.log;
    hide Apply;
    SevenActions(START, acts);
  }

  lemma SevenActions(w: World, acts: seq<Action>)
    requires |acts| == 7
    ensures Exec(w, acts) == Apply(Apply(Apply(Apply(Apply(Apply(Apply(w, acts[0]), acts[1]), acts[2]), acts[3]), acts[4]), acts[5]), acts[6])
  {
    hide Apply;
    var w1 := Apply(w, acts[0]);
    var w2 := Apply(w1, acts[1]);
    var w3 := Apply(w2, acts[2]);
    var w4 := Apply(w3, acts[3]);
    var w5 := Apply(w4, acts[4]);
    var w6 := Apply(w5, acts[5]);
    assert Exec(w, acts) == Exec(w1, acts[1..]);
    assert Exec(w1, acts[1..]) == Exec(w2, acts[1..][1..]) && acts[1..][1..] == acts[2..];
    assert Exec(w2, acts[2..]) == Exec(w3, acts[2..][1..]) && acts[2..][1..] == acts[3..];
    assert Exec(w3, acts[3..]) == Exec(w4, acts[3..][1..]) && acts[3..][1..] == acts[4..];
    assert Exec(w4, acts[4..]) == Exec(w5, acts[4..][1..]) && acts[4..][1..] == acts[5..];
    assert Exec(w5, acts[5..]) == Exec(w6, acts[5..][1..]) && acts[5..][1..] == acts[6..];
    assert Exec(w6, acts[6..]) == Exec(Apply(w6, acts[6]), acts[6..][1..]) && acts[6..][1..] == [];
  }
}
