/**
 Stream delivery: the retry budget, acknowledgement and dead-lettering of one message,
 the dead-letter queue and its replay.
 */
module Stream {
  import opened Wrappers

  datatype Message = Message(id: string, body: string)

  /** `hasQueue` says that the runtime has a dead-letter queue at all. */
  datatype Trigger = Trigger(dlqTarget: string, hasQueue: bool, maxAttempts: int, manualAck: bool) {
    predicate DeadLetters() {
      dlqTarget != "" && hasQueue
    }
  }

  /** What one run of the plan for a delivery comes to. */
  datatype RunResult = RanOk | AlreadySucceeded | StillPending | RunFailed | Interrupted

  /** How broker, queue and event store answer the calls of one delivery, in order. */
  datatype Answers = Answers(ack: bool, ackAgain: bool, nack: bool, route: bool, emit: bool)

  datatype Effect =
    | Acked(ok: bool)
    | Nacked(ok: bool)
    | Routed(ok: bool)
    | Redelivered(attempt: int)
    | DeadLettered(attempt: int)

  // ---------- the handling of one delivery ----------

  function DeadLetterEffects(t: Trigger, attempt: int, ack: bool, answers: Answers): seq<Effect> {
    if !t.DeadLetters() then [DeadLettered(attempt)]
    else if !answers.route then [Routed(false), Nacked(answers.nack)]
    else [Routed(true), Acked(ack), DeadLettered(attempt)]
  }

  function SuccessEffects(t: Trigger, attempt: int, answers: Answers): seq<Effect> {
    if t.manualAck then []
    else if answers.ack then [Acked(true)]
    else [Acked(false)] + DeadLetterEffects(t, attempt, answers.ackAgain, answers)
  }

  function FailureEffects(t: Trigger, attempt: int, answers: Answers): seq<Effect> {
    if t.maxAttempts <= 0 then DeadLetterEffects(t, attempt, answers.ack, answers) + [Nacked(answers.nack)]
    else if attempt < t.maxAttempts then [Redelivered(attempt), Nacked(answers.nack)]
    else DeadLetterEffects(t, attempt, answers.ack, answers)
  }

  function Effects(t: Trigger, attempt: int, result: RunResult, answers: Answers): seq<Effect> {
    match result
    case StillPending => [Redelivered(attempt), Nacked(answers.nack)]
    case Interrupted => []
    case RunFailed => FailureEffects(t, attempt, answers)
    case _ => SuccessEffects(t, attempt, answers)
  }

  predicate Clears(t: Trigger, attempt: int, result: RunResult) {
    result == RanOk || result == AlreadySucceeded || (result == RunFailed && attempt >= t.maxAttempts)
  }

  predicate DeadLetterErrs(t: Trigger, ack: bool, answers: Answers) {
    if t.DeadLetters() then !answers.route || !ack || !answers.emit else !answers.emit
  }

  /** Handling the delivery comes back with an error, which ends the whole stream loop. */
  predicate Errs(t: Trigger, attempt: int, result: RunResult, answers: Answers) {
    match result
    case StillPending => !answers.emit || !answers.nack
    case Interrupted => true
    case RunFailed =>
      if t.maxAttempts <= 0 then DeadLetterErrs(t, answers.ack, answers) || !answers.nack
      else if attempt < t.maxAttempts then !answers.emit || !answers.nack
      else DeadLetterErrs(t, answers.ack, answers)
    case _ => !t.manualAck && !answers.ack && DeadLetterErrs(t, answers.ackAgain, answers)
  }

  /** The delivery reaches the dead-letter queue. */
  predicate Routes(t: Trigger, attempt: int, result: RunResult, answers: Answers) {
    && t.DeadLetters() && answers.route
    && match result
       case RunFailed => attempt >= t.maxAttempts
       case StillPending => false
       case Interrupted => false
       case _ => !t.manualAck && !answers.ack
  }

  function Count(counts: map<string, nat>, id: string): nat {
    if id in counts then counts[id] else 0
  }

  function NextAttempt(counts: map<string, nat>, id: string): nat {
    if id == "" then 1 else Count(counts, id) + 1
  }

  function NextCounts(counts: map<string, nat>, t: Trigger, id: string, result: RunResult): map<string, nat> {
    if id == "" then counts
    else if Clears(t, NextAttempt(counts, id), result) then counts - {id}
    else counts[id := NextAttempt(counts, id)]
  }

  class StreamAttemptTracker {
    var counts: map<string, nat>

    constructor ()
      ensures counts == map[]
    {
      counts := map[];
    }

    /** Messages without an ID cannot be correlated: every delivery is the first. */
    method Next(id: string) returns (attempt: nat)
      modifies this
      ensures attempt == NextAttempt(old(counts), id)
      ensures counts == if id == "" then old(counts) else old(counts)[id := attempt]
    {
      if id == "" {
        return 1;
      }
      counts := counts[id := (if id in counts then counts[id] else 0) + 1];
      return counts[id];
    }

    method Clear(id: string)
      modifies this
      ensures counts == if id == "" then old(counts) else old(counts) - {id}
    {
      if id == "" {
        return;
      }
      counts := counts - {id};
    }
  }

  class MemoryStreamDLQ {
    var messages: map<string, seq<Message>>

    constructor ()
      ensures messages == map[]
    {
      messages := map[];
    }

    function Held(target: string): seq<Message>
      reads this
    {
      if target in messages then messages[target] else []
    }

    method Route(target: string, message: Message)
      modifies this
      ensures Held(target) == old(Held(target)) + [message]
      ensures forall other | other != target :: Held(other) == old(Held(other))
    {
      messages := messages[target := (if target in messages then messages[target] else []) + [message]];
    }

    method Drain(target: string) returns (drained: seq<Message>)
      modifies this
      ensures drained == old(Held(target)) && Held(target) == []
      ensures forall other | other != target :: Held(other) == old(Held(other))
    {
      drained := if target in messages then messages[target] else [];
      messages := messages - {target};
    }
  }

  class StreamWorker {
    const trigger: Trigger
    const attempts: StreamAttemptTracker
    const dlq: MemoryStreamDLQ
    var log: seq<Effect>

    constructor (trigger: Trigger, attempts: StreamAttemptTracker, dlq: MemoryStreamDLQ)
      ensures this.trigger == trigger && this.attempts == attempts && this.dlq == dlq && log == []
    {
      this.trigger, this.attempts, this.dlq, log := trigger, attempts, dlq, [];
    }

    method DeadLetterStreamMessage(message: Message, attempt: int, ack: bool, answers: Answers) returns (err: bool)
      modifies this, dlq
      ensures log == old(log) + DeadLetterEffects(trigger, attempt, ack, answers)
      ensures dlq.Held(trigger.dlqTarget) ==
                old(dlq.Held(trigger.dlqTarget)) + if trigger.DeadLetters() && answers.route then [message] else []
      ensures err <==> DeadLetterErrs(trigger, ack, answers)
    {
      if trigger.dlqTarget == "" || !trigger.hasQueue {
        log := log + [DeadLettered(attempt)];
        return !answers.emit;
      }
      log := log + [Routed(answers.route)];
      if !answers.route {
        log := log + [Nacked(answers.nack)];
        return true;
      }
      dlq.Route(trigger.dlqTarget, message);
      log := log + [Acked(ack)];
      log := log + [DeadLettered(attempt)];
      return !ack || !answers.emit;
    }

    method AckSuccess(message: Message, attempt: int, answers: Answers) returns (err: bool)
      modifies this, attempts, dlq
      ensures log == old(log) + SuccessEffects(trigger, attempt, answers)
      ensures err <==> Errs(trigger, attempt, RanOk, answers)
      ensures attempts.counts == if message.id == "" then old(attempts.counts) else old(attempts.counts) - {message.id}
      ensures dlq.Held(trigger.dlqTarget) == old(dlq.Held(trigger.dlqTarget))
                + if Routes(trigger, attempt, RanOk, answers) then [message] else []
    {
      hide DeadLetterEffects;
      attempts.Clear(message.id);
      if trigger.manualAck {
        return false;
      }
      log := log + [Acked(answers.ack)];
      if !answers.ack {
        err := DeadLetterStreamMessage(message, attempt, answers.ackAgain, answers);
        return err;
      }
      return false;
    }

    method RetryOrDeadLetter(message: Message, attempt: int, answers: Answers) returns (err: bool)
      requires attempt > 0
      modifies this, attempts, dlq
      ensures log == old(log) + FailureEffects(trigger, attempt, answers)
      ensures err <==> Errs(trigger, attempt, RunFailed, answers)
      ensures attempts.counts == if message.id == "" || attempt < trigger.maxAttempts then old(attempts.counts)
                                 else old(attempts.counts) - {message.id}
      ensures dlq.Held(trigger.dlqTarget) == old(dlq.Held(trigger.dlqTarget))
                + if Routes(trigger, attempt, RunFailed, answers) then [message] else []
    {
      hide DeadLetterEffects;
      if trigger.maxAttempts <= 0 {
        attempts.Clear(message.id);
        err := DeadLetterStreamMessage(message, attempt, answers.ack, answers);
        log := log + [Nacked(answers.nack)];
        return err || !answers.nack;
      }
      if attempt < trigger.maxAttempts {
        log := log + [Redelivered(attempt), Nacked(answers.nack)];
        return !answers.emit || !answers.nack;
      }
      attempts.Clear(message.id);
      err := DeadLetterStreamMessage(message, attempt, answers.ack, answers);
    }

    /** One delivery, from the count of its attempt to the last answer of the broker. */
    method ProcessStreamMessage(message: Message, result: RunResult, answers: Answers) returns (err: bool)
      modifies this, attempts, dlq
      ensures log == old(log) + Effects(trigger, NextAttempt(old(attempts.counts), message.id), result, answers)
      ensures err <==> Errs(trigger, NextAttempt(old(attempts.counts), message.id), result, answers)
      ensures attempts.counts == NextCounts(old(attempts.counts), trigger, message.id, result)
      ensures dlq.Held(trigger.dlqTarget) == old(dlq.Held(trigger.dlqTarget))
                + if Routes(trigger, NextAttempt(old(attempts.counts), message.id), result, answers) then [message] else []
    {
      hide SuccessEffects, FailureEffects, DeadLetterEffects;
      var attempt := attempts.Next(message.id);
      if result == StillPending {
        log := log + [Redelivered(attempt), Nacked(answers.nack)];
        return !answers.emit || !answers.nack;
      }
      if result == RanOk || result == AlreadySucceeded {
        err := AckSuccess(message, attempt, answers);
        return err;
      }
      if result == Interrupted {
        return true;
      }
      err := RetryOrDeadLetter(message, attempt, answers);
    }
  }

  // ---------- acknowledgement ----------

  /** Every ack rests on a successful run, an earlier success, or the dead-letter queue. */
  predicate AcksJustified(t: Trigger, result: RunResult, effects: seq<Effect>) {
    forall q | 0 <= q < |effects| && effects[q].Acked? ::
      ((result == RanOk || result == AlreadySucceeded) && !t.manualAck) || Routed(true) in effects[..q]
  }

  /** The delivery is given up: its failure met the limit, or its ack failed. */
  predicate GivenUp(t: Trigger, attempt: nat, result: RunResult, answers: Answers) {
    || (result == RunFailed && attempt >= t.maxAttempts)
    || ((result == RanOk || result == AlreadySucceeded) && !t.manualAck && !answers.ack)
  }

  /**
   What one delivery does, effect by effect: a success is acked at once, unless acks are
   manual; what is given up goes to the queue, if there is one, and is acked there; a
   pending or retried delivery is nacked, and so is one that the queue refuses.
   */
  lemma EffectsAreExact(t: Trigger, attempt: nat, result: RunResult, answers: Answers)
    requires attempt > 0
    ensures var e := Effects(t, attempt, result, answers);
            var ok, up := result == RanOk || result == AlreadySucceeded, GivenUp(t, attempt, result, answers);
            var queued := t.dlqTarget != "" && t.hasQueue;
            && (ok && !t.manualAck ==> e != [] && e[0] == Acked(answers.ack) && (answers.ack ==> |e| == 1))
            && (e == [] <==> result == Interrupted || (ok && t.manualAck))
            && (Acked(true) in e || Acked(false) in e <==> (ok && !t.manualAck) || (up && queued && answers.route))
            && (Routed(true) in e <==> up && queued && answers.route)
            && (Routed(false) in e <==> up && queued && !answers.route)
            && (Nacked(true) in e || Nacked(false) in e <==>
                  result == StillPending || (result == RunFailed && (attempt < t.maxAttempts || t.maxAttempts <= 0))
                  || (up && queued && !answers.route))
            && (Redelivered(attempt) in e <==> result == StillPending || (result == RunFailed && attempt < t.maxAttempts))
            && (DeadLettered(attempt) in e <==> up && !(queued && !answers.route))
  {
  }

  /**
   Handling a delivery ends the stream loop if and only if it was interrupted, or a nack, a
   routing, an event or an ack has failed that no dead-lettering makes up for.
   */
  lemma ErrorsAreExact(t: Trigger, attempt: nat, result: RunResult, answers: Answers)
    requires attempt > 0
    ensures var e := Effects(t, attempt, result, answers);
            var ok := result == RanOk || result == AlreadySucceeded;
            Errs(t, attempt, result, answers) <==>
              (|| result == Interrupted || Nacked(false) in e || Routed(false) in e
               || Acked(false) in (if ok && e != [] then e[1..] else e)
               || (!answers.emit && (Redelivered(attempt) in e || DeadLettered(attempt) in e)))
  {
    EffectsAreExact(t, attempt, result, answers);
    var e := Effects(t, attempt, result, answers);
    if (result == RanOk || result == AlreadySucceeded) && !t.manualAck && !answers.ack {
      assert e[1..] == DeadLetterEffects(t, attempt, answers.ackAgain, answers);
    }
  }

  /** One delivery counts for its own message alone, and a success or a failure at the limit clears the count. */
  lemma CountsAreExact(counts: map<string, nat>, t: Trigger, id: string, result: RunResult, other: string)
    requires id != ""
    ensures var after, attempt := NextCounts(counts, t, id, result), Count(counts, id) + 1;
            var clears := result == RanOk || result == AlreadySucceeded || (result == RunFailed && attempt >= t.maxAttempts);
            && Count(after, id) == (if clears then 0 else attempt)
            && (other != id ==> Count(after, other) == Count(counts, other))
  {
  }

  predicate NoNackAfterAck(effects: seq<Effect>) {
    forall p, q | 0 <= p < q < |effects| && effects[p] == Acked(true) :: !effects[q].Nacked?
  }

  lemma AcksAreJustified(t: Trigger, attempt: nat, result: RunResult, answers: Answers)
    ensures AcksJustified(t, result, Effects(t, attempt, result, answers))
  {
    var effects := Effects(t, attempt, result, answers);
    forall q | 0 <= q < |effects| && effects[q].Acked?
      ensures ((result == RanOk || result == AlreadySucceeded) && !t.manualAck) || Routed(true) in effects[..q]
    {
      if result == RunFailed {
        assert effects[0] == Routed(true) && q == 1;
        assert effects[..q][0] == Routed(true);
      }
    }
  }

  /**
   No successful ack is followed by a nack, whatever the run and the broker answer, if
   and only if the trigger does not dead-letter without a retry limit.
   */
  lemma AckIsFinal(t: Trigger, attempt: nat)
    requires attempt > 0
    ensures (forall result, answers :: NoNackAfterAck(Effects(t, attempt, result, answers)))
              <==> !(t.DeadLetters() && t.maxAttempts <= 0)
  {
    if t.DeadLetters() && t.maxAttempts <= 0 {
      var answers := Answers(true, true, true, true, true);
      var effects := Effects(t, attempt, RunFailed, answers);
      assert effects == [Routed(true), Acked(true), DeadLettered(attempt), Nacked(true)];
      assert effects[1] == Acked(true) && effects[3].Nacked?;
      assert !NoNackAfterAck(effects);
    }
  }

  // ---------- the retry budget ----------

  /** One handled delivery: its message, what its run came to, and how the broker answered. */
  datatype Handled = Handled(id: string, result: RunResult, answers: Answers)

  /** Deliveries of any messages, one after another: the counters after them, and the effects of each. */
  function Deliver(t: Trigger, counts: map<string, nat>, ds: seq<Handled>): (map<string, nat>, seq<seq<Effect>>) {
    if ds == [] then (counts, [])
    else
      var n := |ds| - 1;
      var (before, effects) := Deliver(t, counts, ds[..n]);
      (NextCounts(before, t, ds[n].id, ds[n].result),
       effects + [Effects(t, NextAttempt(before, ds[n].id), ds[n].result, ds[n].answers)])
  }

  function Of(ds: seq<Handled>, id: string): nat {
    if ds == [] then 0 else Of(ds[..|ds| - 1], id) + if ds[|ds| - 1].id == id then 1 else 0
  }

  /** Failed and pending deliveries all count. */
  predicate Counted(result: RunResult) {
    result == RunFailed || result == StillPending
  }

  /** The deliveries of the message fail or stay pending, and no failure meets the limit. */
  predicate BelowLimit(t: Trigger, id: string, ds: seq<Handled>) {
    forall i | 0 <= i < |ds| && ds[i].id == id ::
      Counted(ds[i].result) && (ds[i].result == RunFailed ==> Of(ds[..i + 1], id) < t.maxAttempts)
  }

  lemma {:induction false} WithinBudget(t: Trigger, id: string, counts: map<string, nat>, ds: seq<Handled>)
    requires id != "" && id !in counts && t.maxAttempts > 0 && BelowLimit(t, id, ds)
    ensures var (after, effects) := Deliver(t, counts, ds);
            && Count(after, id) == Of(ds, id)
            && |effects| == |ds|
            && forall i | 0 <= i < |ds| && ds[i].id == id ::
                 effects[i] == [Redelivered(Of(ds[..i + 1], id)), Nacked(ds[i].answers.nack)]
    decreases |ds|
  {
    if ds != [] {
      var n := |ds| - 1;
      forall i | 0 <= i < n && ds[i].id == id
        ensures Of(ds[..n][..i + 1], id) == Of(ds[..i + 1], id)
      {
        assert ds[..n][..i + 1] == ds[..i + 1];
      }
      assert ds[..n + 1] == ds;
      WithinBudget(t, id, counts, ds[..n]);
    }
  }

  /**
   With limit k, whatever other messages come in between and however the broker answers:
   failed and pending deliveries of a message are nacked, until a failure is its k-th or
   later delivery since the counter was clear; that one is dead-lettered and clears it.
   Against the code's comment, pending deliveries use up the budget.
   */
  lemma {:induction false} RetryBudget(t: Trigger, id: string, counts: map<string, nat>, ds: seq<Handled>, last: Answers)
    requires id != "" && id !in counts && t.maxAttempts > 0 && BelowLimit(t, id, ds)
    ensures var (after, effects) := Deliver(t, counts, ds + [Handled(id, RunFailed, last)]);
            var k := Of(ds, id) + 1;
            && |effects| == |ds| + 1
            && (forall i | 0 <= i < |ds| && ds[i].id == id ::
                  effects[i] == [Redelivered(Of(ds[..i + 1], id)), Nacked(ds[i].answers.nack)])
            && effects[|ds|] == (if k >= t.maxAttempts then DeadLetterEffects(t, k, last.ack, last) else [Redelivered(k), Nacked(last.nack)])
            && (id in after <==> k < t.maxAttempts)
  {
    WithinBudget(t, id, counts, ds);
    assert (ds + [Handled(id, RunFailed, last)])[..|ds|] == ds;
  }

  // ---------- replay ----------

  /** The first message that fails to run, or the number of messages. */
  function FirstFailure(runs: seq<bool>): (n: nat)
    ensures n <= |runs| && (n < |runs| ==> !runs[n]) && forall i | 0 <= i < n :: runs[i]
  {
    if runs == [] then 0 else if runs[0] then 1 + FirstFailure(runs[1..]) else 0
  }

  /** What was reprocessed and what is held again are all messages only if nothing was dropped. */
  lemma KeptIsAll(messages: seq<Message>, n: nat, held: seq<Message>)
    requires n < |messages| && (held == [messages[n]] || held == [])
    ensures (messages[..n] + held == messages) <==> (n == |messages| - 1 && held != [])
  {
    assert messages[..n] + held == messages ==> |messages[..n] + held| == |messages|;
    if n == |messages| - 1 && held != [] {
      assert messages == messages[..n] + [messages[n]];
    }
  }

  /**
   ReplayStreamDLQ; runs[i] is what the i-th drained message comes to, `route` what routing it back does.
   It loses nothing if and only if all succeed, or the first failure is the last message and goes back.
   */
  method ReplayStreamDLQ(t: Trigger, dlq: MemoryStreamDLQ, runs: seq<bool>, route: bool) returns (replayed: nat, ok: bool)
    requires |runs| == |dlq.Held(t.dlqTarget)|
    modifies dlq
    ensures !t.DeadLetters() ==> replayed == 0 && ok && dlq.messages == old(dlq.messages)
    ensures t.DeadLetters() ==>
              && replayed == FirstFailure(runs)
              && (ok <==> replayed == |runs|)
              && dlq.Held(t.dlqTarget) == (if replayed < |runs| && route then [old(dlq.Held(t.dlqTarget))[replayed]] else [])
              && ((old(dlq.Held(t.dlqTarget))[..replayed] + dlq.Held(t.dlqTarget) == old(dlq.Held(t.dlqTarget)))
                    <==> (replayed == |runs| || (replayed == |runs| - 1 && route)))
    ensures forall other | other != t.dlqTarget :: dlq.Held(other) == old(dlq.Held(other))
  {
    if !t.hasQueue || t.dlqTarget == "" {
      return 0, true;
    }
    var messages := dlq.Drain(t.dlqTarget);
    replayed := 0;
    assert runs[0..] == runs;
    while replayed < |messages|
      invariant 0 <= replayed <= |messages|
      invariant FirstFailure(runs) == replayed + FirstFailure(runs[replayed..])
      invariant dlq.Held(t.dlqTarget) == []
      invariant forall other | other != t.dlqTarget :: dlq.Held(other) == old(dlq.Held(other))
    {
      assert runs[replayed..][1..] == runs[replayed + 1..];
      if !runs[replayed] {
        if route {
          dlq.Route(t.dlqTarget, messages[replayed]);
        }
        KeptIsAll(messages, replayed, dlq.Held(t.dlqTarget));
        return replayed, false;
      }
      replayed := replayed + 1;
    }
    assert messages[..replayed] + [] == messages;
    ok := true;
  }
}
