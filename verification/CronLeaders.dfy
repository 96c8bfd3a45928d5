/**
 Cron leadership: any number of replicas of one plan, each a follower polling its
 lease or a leader firing ticks, over one lease row and one table of fire keys. Each
 action is one store call, one clock reading or one end of a fire.
 */
module CronLeaders {
  import opened Wrappers
  import opened Leases

  /** `next` is the schedule; the zero time of the source is None. */
  datatype Schedule = Schedule(next: int -> Option<int>, ttl: int)

  /** What both schedules of the source satisfy. */
  ghost predicate Forward(s: Schedule) {
    forall at: int :: s.next(at).Some? ==> s.next(at).value > at
  }

  datatype Phase =
    | Polling
    | Choosing
    | Waiting(next: int)
    | Idle
    | Due(next: int)
    | Reserving(next: int)
    | Spawning(id: nat)
    | Leaving
    | Draining
    | Releasing

  datatype Replica = Replica(alive: bool, holder: string, phase: Phase, fence: nat, renewing: bool, clock: int)

  datatype Status = Held | InFlight | Fired | FiredAndFailed

  /** One reserved tick; its index is the execution that reserved it. */
  datatype Fire = Fire(replica: nat, fence: nat, tick: int, status: Status)

  datatype Outcome = Pending | Succeeded | Failed

  datatype Reservation = Reservation(owner: nat, outcome: Outcome)

  datatype Event =
    | Renewed(replica: nat, fence: nat)
    | Spawned(replica: nat, fence: nat, id: nat)
    | Finished(replica: nat, fence: nat, id: nat)
    | RenewerStopped(replica: nat, fence: nat)
    | Released(replica: nat, fence: nat)

  datatype World = World(
    now: int, lease: Option<Lease>, keys: map<int, Reservation>, fires: seq<Fire>, replicas: seq<Replica>, log: seq<Event>)
  {
    predicate At(r: nat) {
      r < |replicas| && replicas[r].alive
    }

    predicate Owns(r: nat)
      requires r < |replicas|
    {
      Holds(lease, replicas[r].holder, replicas[r].fence)
    }

    function Put(r: nat, phase: Phase): World
      requires r < |replicas|
    {
      this.(replicas := replicas[r := replicas[r].(phase := phase)])
    }

    function Log(e: Event): World {
      this.(log := log + [e])
    }

    function Renew(r: nat, ttl: int): World
      requires r < |replicas|
    {
      this.(lease := RenewedRow(lease, replicas[r].holder, replicas[r].fence, ttl, now)).Log(Renewed(r, replicas[r].fence))
    }

    /** ReserveIdempotency: a new key, or one whose last run failed. */
    predicate Free(tick: int) {
      tick !in keys || keys[tick].outcome == Failed
    }

    predicate Drained(r: nat)
      requires r < |replicas|
    {
      forall id | 0 <= id < |fires| :: fires[id].replica == r && fires[id].fence == replicas[r].fence ==> fires[id].status != InFlight
    }
  }

  function Init(holders: seq<string>, now: int): World {
    World(now, None, map[], [], seq(|holders|, i requires 0 <= i < |holders| => Replica(true, holders[i], Polling, 0, false, now)), [])
  }

  datatype Action =
    | Tick(elapsed: nat)
    | Crash(r: nat)
    | Acquire(r: nat, reachable: bool)
    | Beat(r: nat, reachable: bool)
    | Choose(r: nat, at: int)
    | Leave(r: nat)
    | TimerFires(r: nat, at: int)
    | Confirm(r: nat, reachable: bool)
    | Reserve(r: nat, session: bool, reachable: bool, ctxDone: bool)
    | Spawn(r: nat, worker: bool)
    | Finish(id: nat, success: bool, resolved: bool)
    | StopRenewer(r: nat)
    | Drain(r: nat)
    | Release(r: nat, reachable: bool)

  function Apply(s: Schedule, w: World, a: Action): World {
    match a
    case Tick(elapsed) => w.(now := w.now + elapsed)
    case Crash(r) => if w.At(r) then w.(replicas := w.replicas[r := w.replicas[r].(alive := false)]) else w
    // The follower.
    case Acquire(r, reachable) =>
      if w.At(r) && w.replicas[r].phase == Polling && reachable && Acquirable(w.lease, w.now) then
        var lease := AcquiredLease(w.lease, w.replicas[r].holder, s.ttl, w.now);
        w.(lease := Some(lease), replicas := w.replicas[r := w.replicas[r].(phase := Choosing, fence := lease.fence, renewing := true)])
      else w
    // The background renewer closes `lost` and ends on the first failure.
    case Beat(r, reachable) =>
      if w.At(r) && w.replicas[r].renewing then
        if reachable && w.Owns(r) then w.Renew(r, s.ttl)
        else w.(replicas := w.replicas[r := w.replicas[r].(renewing := false)])
      else w
    // The leader: the next tick after a reading of a clock that does not go back.
    case Choose(r, at) =>
      if w.At(r) && w.replicas[r].phase == Choosing && at >= w.replicas[r].clock then
        var next := s.next(at);
        w.(replicas := w.replicas[r := w.replicas[r].(clock := at, phase := if next.Some? then Waiting(next.value) else Idle)])
      else w
    // Cancelled, or the renewer has lost the lease.
    case Leave(r) =>
      if w.At(r) && (w.replicas[r].phase.Waiting? || w.replicas[r].phase.Idle?) then w.Put(r, Leaving) else w
    case TimerFires(r, at) =>
      if w.At(r) && w.replicas[r].phase.Waiting? && at >= w.replicas[r].phase.next && at >= w.replicas[r].clock then
        w.(replicas := w.replicas[r := w.replicas[r].(clock := at, phase := Due(w.replicas[r].phase.next))])
      else w
    case Confirm(r, reachable) =>
      if w.At(r) && w.replicas[r].phase.Due? then
        if reachable && w.Owns(r) then w.Renew(r, s.ttl).Put(r, Reserving(w.replicas[r].phase.next)) else w.Put(r, Leaving)
      else w
    case Reserve(r, session, reachable, ctxDone) =>
      if w.At(r) && w.replicas[r].phase.Reserving? then
        var tick := w.replicas[r].phase.next;
        if !session then w.Put(r, Choosing)
        else if reachable && w.Free(tick) then
          w.(keys := w.keys[tick := Reservation(|w.fires|, Pending)], fires := w.fires + [Fire(r, w.replicas[r].fence, tick, Held)])
            .Put(r, Spawning(|w.fires|))
        else if !reachable && ctxDone then w.Put(r, Leaving)
        else w.Put(r, Choosing)
      else w
    case Spawn(r, worker) =>
      if w.At(r) && w.replicas[r].phase.Spawning? && w.replicas[r].phase.id < |w.fires| then
        var id := w.replicas[r].phase.id;
        if worker then
          w.(fires := w.fires[id := w.fires[id].(status := InFlight)]).Put(r, Choosing).Log(Spawned(r, w.replicas[r].fence, id))
        else w.Put(r, Leaving)
      else w
    // The run resolves its key; a store that does not answer leaves it pending.
    case Finish(id, success, resolved) =>
      if id < |w.fires| && w.fires[id].status == InFlight then
        var fire := w.fires[id];
        var mine := fire.tick in w.keys && w.keys[fire.tick] == Reservation(id, Pending);
        w.(fires := w.fires[id := fire.(status := if success then Fired else FiredAndFailed)],
           keys := if mine && resolved then w.keys[fire.tick := Reservation(id, if success then Succeeded else Failed)] else w.keys)
          .Log(Finished(fire.replica, fire.fence, id))
      else w
    // The teardown, last defer first.
    case StopRenewer(r) =>
      if w.At(r) && w.replicas[r].phase == Leaving then
        w.(replicas := w.replicas[r := w.replicas[r].(renewing := false, phase := Draining)]).Log(RenewerStopped(r, w.replicas[r].fence))
      else w
    case Drain(r) =>
      if w.At(r) && w.replicas[r].phase == Draining && w.Drained(r) then w.Put(r, Releasing) else w
    case Release(r, reachable) =>
      if w.At(r) && w.replicas[r].phase == Releasing then
        var leader := w.replicas[r];
        w.(lease := if reachable then ReleasedRow(w.lease, leader.holder, leader.fence, w.now) else w.lease,
           replicas := w.replicas[r := leader.(phase := Polling)])
          .Log(Released(r, leader.fence))
      else w
  }

  function Exec(s: Schedule, w: World, acts: seq<Action>): World
    decreases |acts|
  {
    if acts == [] then w else Apply(s, Exec(s, w, acts[..|acts| - 1]), acts[|acts| - 1])
  }

  /** A run: the worlds it passes through, one action apart. */
  ghost predicate IsRun(s: Schedule, start: World, trace: seq<World>, acts: seq<Action>) {
    |trace| == |acts| + 1 && trace[0] == start && forall i | 0 <= i < |acts| :: trace[i + 1] == Apply(s, trace[i], acts[i])
  }

  lemma {:induction false} RunIsExec(s: Schedule, start: World, trace: seq<World>, acts: seq<Action>, n: nat)
    requires IsRun(s, start, trace, acts) && n <= |acts|
    ensures trace[n] == Exec(s, start, acts[..n])
  {
    hide Apply;
    if n > 0 {
      RunIsExec(s, start, trace, acts, n - 1);
      assert acts[..n][..n - 1] == acts[..n - 1];
    }
  }

  lemma RunEnds(s: Schedule, start: World, trace: seq<World>, acts: seq<Action>)
    requires IsRun(s, start, trace, acts)
    ensures trace[|acts|] == Exec(s, start, acts)
  {
    hide Apply, Exec;
    RunIsExec(s, start, trace, acts, |acts|);
    assert acts[..|acts|] == acts;
  }

  // ---------- one fire per tick ----------

  /** A reserved tick that has not failed holds its key. */
  predicate KeysOk(w: World) {
    && (forall id | 0 <= id < |w.fires| && w.fires[id].status != FiredAndFailed ::
          w.fires[id].tick in w.keys && w.keys[w.fires[id].tick].owner == id && w.keys[w.fires[id].tick].outcome != Failed)
    && (forall r | 0 <= r < |w.replicas| && w.replicas[r].phase.Spawning? :: SpawnsOwn(w, r, w.replicas[r].phase.id))
  }

  predicate SpawnsOwn(w: World, r: nat, id: nat) {
    id < |w.fires| && w.fires[id].status == Held && w.fires[id].replica == r
  }

  lemma KeysReserve(s: Schedule, w: World, a: Action)
    requires KeysOk(w) && (a.Reserve? || a.Spawn? || a.Finish?)
    ensures KeysOk(Apply(s, w, a))
  {
  }

  lemma KeysStep(s: Schedule, w: World, a: Action)
    requires KeysOk(w)
    ensures KeysOk(Apply(s, w, a))
  {
    if a.Reserve? || a.Spawn? || a.Finish? {
      KeysReserve(s, w, a);
    } else {
      var w' := Apply(s, w, a);
      assert w'.fires == w.fires && w'.keys == w.keys;
    }
  }

  lemma {:induction false} KeysHold(s: Schedule, w: World, acts: seq<Action>)
    requires KeysOk(w)
    ensures KeysOk(Exec(s, w, acts))
    decreases |acts|
  {
    hide Apply;
    if acts != [] {
      KeysHold(s, w, acts[..|acts| - 1]);
      KeysStep(s, Exec(s, w, acts[..|acts| - 1]), acts[|acts| - 1]);
    }
  }

  /**
   Over any number of replicas, leaders and crashes, at most one fire of a tick is
   reserved, in flight or finished without a failure; in particular no two are in
   flight together.
   */
  lemma OneFirePerTick(s: Schedule, holders: seq<string>, now: int, trace: seq<World>, acts: seq<Action>, i: nat, j: nat)
    requires IsRun(s, Init(holders, now), trace, acts)
    requires var w := trace[|acts|];
             && i < |w.fires| && j < |w.fires| && w.fires[i].tick == w.fires[j].tick
             && w.fires[i].status != FiredAndFailed && w.fires[j].status != FiredAndFailed
    ensures i == j
  {
    RunEnds(s, Init(holders, now), trace, acts);
    hide Apply;
    KeysHold(s, Init(holders, now), acts);
  }

  // ---------- ticks of one term ----------

  predicate LeaseOk(w: World) {
    && (w.lease.Some? ==> w.lease.value.fence > 0)
    && (forall r | 0 <= r < |w.replicas| :: w.replicas[r].fence <= Fence(w.lease))
    && (forall r, q | 0 <= r < q < |w.replicas| && w.replicas[r].fence > 0 :: w.replicas[r].fence != w.replicas[q].fence)
    && (forall id | 0 <= id < |w.fires| :: 0 < w.fires[id].fence <= Fence(w.lease))
    && (forall r | 0 <= r < |w.replicas| && w.replicas[r].phase != Polling :: w.replicas[r].fence > 0)
  }

  /** Where the leader stands with regard to a tick of its own term. */
  predicate Behind(leader: Replica, tick: int) {
    match leader.phase
    case Waiting(next) => tick <= leader.clock < next
    case Due(next) => tick < next <= leader.clock
    case Reserving(next) => tick < next <= leader.clock
    case _ => tick <= leader.clock
  }

  predicate Ready(leader: Replica) {
    match leader.phase
    case Waiting(next) => leader.clock < next
    case Due(next) => next <= leader.clock
    case Reserving(next) => next <= leader.clock
    case _ => true
  }

  predicate TermOk(w: World) {
    && LeaseOk(w)
    && (forall i, j | 0 <= i < j < |w.fires| && w.fires[i].fence == w.fires[j].fence :: w.fires[i].tick < w.fires[j].tick)
    && (forall r | 0 <= r < |w.replicas| :: Ready(w.replicas[r]))
    && (forall r, id | 0 <= r < |w.replicas| && 0 <= id < |w.fires| && w.fires[id].fence == w.replicas[r].fence ::
          w.fires[id].replica == r && Behind(w.replicas[r], w.fires[id].tick))
  }

  lemma LeaseStep(s: Schedule, w: World, a: Action)
    requires LeaseOk(w)
    ensures LeaseOk(Apply(s, w, a))
    ensures Fence(w.lease) <= Fence(Apply(s, w, a).lease)
  {
    var w' := Apply(s, w, a);
    if a.Acquire? || a.Reserve? {
      AcquireKeepsLease(s, w, a);
    } else {
      RestKeepsFences(s, w, a);
    }
  }

  lemma AcquireKeepsLease(s: Schedule, w: World, a: Action)
    requires LeaseOk(w) && (a.Acquire? || a.Reserve?)
    ensures LeaseOk(Apply(s, w, a))
    ensures Fence(w.lease) <= Fence(Apply(s, w, a).lease)
  {
  }

  /** Every other action leaves all fences alone. */
  lemma RestKeepsFences(s: Schedule, w: World, a: Action)
    requires !a.Acquire? && !a.Reserve?
    ensures var w' := Apply(s, w, a);
            && Fence(w'.lease) == Fence(w.lease) && (w'.lease.Some? <==> w.lease.Some?)
            && |w'.replicas| == |w.replicas| && |w'.fires| == |w.fires|
            && (forall r | 0 <= r < |w.replicas| :: w'.replicas[r].fence == w.replicas[r].fence)
            && (forall r | 0 <= r < |w.replicas| && w'.replicas[r].phase != Polling :: w.replicas[r].phase != Polling)
            && (forall id | 0 <= id < |w.fires| :: w'.fires[id] == w.fires[id].(status := w'.fires[id].status))
  {
  }

  lemma ReserveKeepsTerm(s: Schedule, w: World, a: Action)
    requires TermOk(w) && a.Reserve?
    ensures TermOk(Apply(s, w, a))
  {
    LeaseStep(s, w, a);
    hide LeaseOk;
  }

  lemma AcquireKeepsTerm(s: Schedule, w: World, a: Action)
    requires TermOk(w) && a.Acquire?
    ensures TermOk(Apply(s, w, a))
  {
    LeaseStep(s, w, a);
    var w' := Apply(s, w, a);
    forall r, id | 0 <= r < |w'.replicas| && 0 <= id < |w'.fires| && w'.fires[id].fence == w'.replicas[r].fence
      ensures w'.fires[id].replica == r && Behind(w'.replicas[r], w'.fires[id].tick)
    {
      assert w.fires[id].fence <= Fence(w.lease);
    }
  }

  lemma TermStep(s: Schedule, w: World, a: Action)
    requires TermOk(w) && Forward(s)
    ensures TermOk(Apply(s, w, a))
  {
    if a.Reserve? {
      ReserveKeepsTerm(s, w, a);
    } else if a.Acquire? {
      AcquireKeepsTerm(s, w, a);
    } else {
      LeaseStep(s, w, a);
      RestKeepsFences(s, w, a);
      RestMovesForward(s, w, a);
    }
  }

  lemma RestMovesForward(s: Schedule, w: World, a: Action)
    requires Forward(s) && !a.Acquire? && !a.Reserve?
    requires forall r | 0 <= r < |w.replicas| :: Ready(w.replicas[r])
    ensures var w' := Apply(s, w, a);
            forall r | 0 <= r < |w.replicas| :: r < |w'.replicas| && Ready(w'.replicas[r])
              && forall tick: int :: Behind(w.replicas[r], tick) ==> Behind(w'.replicas[r], tick)
  {
  }

  lemma {:induction false} TermHolds(s: Schedule, w: World, acts: seq<Action>)
    requires TermOk(w) && Forward(s)
    ensures TermOk(Exec(s, w, acts))
    decreases |acts|
  {
    hide Apply;
    if acts != [] {
      TermHolds(s, w, acts[..|acts| - 1]);
      TermStep(s, Exec(s, w, acts[..|acts| - 1]), acts[|acts| - 1]);
    }
  }

  /** Within one leadership term the ticks strictly increase, and all of them are fired by one replica. */
  lemma TicksIncrease(s: Schedule, holders: seq<string>, now: int, trace: seq<World>, acts: seq<Action>, i: nat, j: nat)
    requires IsRun(s, Init(holders, now), trace, acts)
    requires Forward(s)
    requires var w := trace[|acts|]; i < j < |w.fires| && w.fires[i].fence == w.fires[j].fence
    ensures var w := trace[|acts|]; w.fires[i].tick < w.fires[j].tick
  {
    RunEnds(s, Init(holders, now), trace, acts);
    hide Apply;
    TermHolds(s, Init(holders, now), acts);
  }

  /**
   What the end of a fire leaves of its tick: a success that is recorded keeps the tick for
   good, a recorded failure frees it for another fire, and an unanswered store leaves it pending.
   */
  lemma FireEndsTick(s: Schedule, w: World, id: nat, success: bool, resolved: bool)
    requires KeysOk(w) && id < |w.fires| && w.fires[id].status == InFlight
    requires w.fires[id].tick in w.keys && w.keys[w.fires[id].tick] == Reservation(id, Pending)
    ensures var w', tick := Apply(s, w, Finish(id, success, resolved)), w.fires[id].tick;
            && w'.fires == w.fires[id := w.fires[id].(status := if success then Fired else FiredAndFailed)]
            && tick in w'.keys && w'.keys[tick].owner == id
            && w'.keys[tick].outcome == (if !resolved then Pending else if success then Succeeded else Failed)
            && w'.keys.Keys == w.keys.Keys && forall other | other in w.keys && other != tick :: w'.keys[other] == w.keys[other]
  {
  }

  /** A tick is reserved if and only if it is new or its last run has failed, and then by one held fire. */
  lemma ReserveTakesTick(s: Schedule, w: World, r: nat, tick: int, ctxDone: bool)
    requires w.At(r) && w.replicas[r].phase == Reserving(tick)
    ensures var w' := Apply(s, w, Reserve(r, true, true, ctxDone));
            if tick !in w.keys || w.keys[tick].outcome == Failed then
              w'.fires == w.fires + [Fire(r, w.replicas[r].fence, tick, Held)] && w'.keys == w.keys[tick := Reservation(|w.fires|, Pending)]
              && w'.replicas[r].phase == Spawning(|w.fires|)
            else w'.fires == w.fires && w'.keys == w.keys && w'.replicas[r].phase == Choosing
  {
  }

  // ---------- how long a term lasts ----------

  /** The lease changes hands when it has expired, is renewed for its owner, or is released by it. */
  predicate LeaseGoes(s: Schedule, w: World, w': World) {
    || w'.lease == w.lease
    || w.lease.None? || w.lease.value.expiresAt < w.now
    || w'.lease == Some(Lease(w.lease.value.holder, w.lease.value.fence, w.now + s.ttl))
    || exists r :: 0 <= r < |w.replicas| && w.replicas[r].fence == w.lease.value.fence && Released(r, w.replicas[r].fence) in w'.log
  }

  lemma ApplyMoves(s: Schedule, w: World, a: Action)
    ensures var w' := Apply(s, w, a); LeaseGoes(s, w, w') && w.now <= w'.now && w.log <= w'.log && |w'.replicas| == |w.replicas|
  {
    var w' := Apply(s, w, a);
    if a.Release? && w'.lease != w.lease {
      assert w'.log[|w.log|] == Released(a.r, w.replicas[a.r].fence);
    }
  }

  /** A follower meets an absent or expired lease, or a leader renews its own. */
  predicate Wins(w: World, a: Action, r: nat) {
    && w.At(r)
    && if a == Action.Acquire(r, true) then w.replicas[r].phase == Polling && (w.lease.Some? ==> w.lease.value.expiresAt < w.now)
       else
         && ((a == Beat(r, true) && w.replicas[r].renewing) || (a == Confirm(r, true) && w.replicas[r].phase.Due?))
         && w.lease.Some? && w.lease.value.holder == w.replicas[r].holder && w.lease.value.fence == w.replicas[r].fence > 0
  }

  /** Leader r holds the lease as it was granted, or longer. */
  predicate Reigns(w: World, r: nat, holder: string, fence: nat, until: int) {
    && w.lease.Some? && w.lease.value.holder == holder && w.lease.value.fence == fence && w.lease.value.expiresAt >= until
    && r < |w.replicas| && w.replicas[r].fence == fence > 0
  }

  /** Only an acquisition gives a replica another fence. */
  lemma FenceStays(s: Schedule, w: World, a: Action, r: nat)
    requires r < |w.replicas|
    ensures var w' := Apply(s, w, a);
            r < |w'.replicas| && (w'.replicas[r].fence == w.replicas[r].fence || w.lease.None? || w.lease.value.expiresAt < w.now)
  {
  }

  lemma NotBefore(log: seq<Event>, log': seq<Event>, e: Event)
    requires log <= log' && e !in log'
    ensures e !in log
  {
  }

  lemma ReignsOn(s: Schedule, w: World, a: Action, r: nat, holder: string, fence: nat, from: int)
    requires Reigns(w, r, holder, fence, from + s.ttl) && from <= w.now <= from + s.ttl && Released(r, fence) !in Apply(s, w, a).log
    requires forall r, q | 0 <= r < q < |w.replicas| && w.replicas[r].fence > 0 :: w.replicas[r].fence != w.replicas[q].fence
    ensures Reigns(Apply(s, w, a), r, holder, fence, from + s.ttl)
  {
    ApplyMoves(s, w, a);
    FenceStays(s, w, a, r);
    hide Apply;
  }

  /**
   A leader that has just acquired or renewed its lease keeps it for the whole ttl, unless
   it releases it itself: until then no other replica can acquire it, whatever they do.
   */
  lemma {:induction false} TermLasts(s: Schedule, holders: seq<string>, now: int, trace: seq<World>, acts: seq<Action>, n: nat, m: nat, r: nat)
    requires IsRun(s, Init(holders, now), trace, acts) && n < m <= |acts|
    requires Wins(trace[n], acts[n], r)
    requires r < |trace[n].replicas| && r < |trace[n + 1].replicas| && trace[m].now <= trace[n].now + s.ttl
    requires Released(r, trace[n + 1].replicas[r].fence) !in trace[m].log
    ensures Reigns(trace[m], r, trace[n].replicas[r].holder, trace[n + 1].replicas[r].fence, trace[n].now + s.ttl)
    ensures trace[n].now <= trace[m].now && !Acquirable(trace[m].lease, trace[m].now)
    decreases m
  {
    hide Apply, Wins;
    if m > n + 1 {
      var w, a, fence := trace[m - 1], acts[m - 1], trace[n + 1].replicas[r].fence;
      assert trace[m - 1 + 1] == Apply(s, w, a);
      ApplyMoves(s, w, a);
      NotBefore(w.log, trace[m].log, Released(r, fence));
      TermLasts(s, holders, now, trace, acts, n, m - 1, r);
      FencesApart(s, holders, now, trace, acts, m - 1);
      ReignsOn(s, w, a, r, trace[n].replicas[r].holder, fence, trace[n].now);
    } else {
      assert trace[n + 1] == Apply(s, trace[n], acts[n]);
      WinsReigns(s, trace[n], acts[n], r);
    }
  }

  lemma WinsReigns(s: Schedule, w: World, a: Action, r: nat)
    requires Wins(w, a, r)
    ensures var w' := Apply(s, w, a);
            w'.now == w.now && r < |w'.replicas| && Reigns(w', r, w.replicas[r].holder, w'.replicas[r].fence, w.now + s.ttl)
  {
  }

  lemma FencesApart(s: Schedule, holders: seq<string>, now: int, trace: seq<World>, acts: seq<Action>, n: nat)
    requires IsRun(s, Init(holders, now), trace, acts) && n <= |acts|
    ensures var w := trace[n];
            forall r, q | 0 <= r < q < |w.replicas| && w.replicas[r].fence > 0 :: w.replicas[r].fence != w.replicas[q].fence
  {
    RunIsExec(s, Init(holders, now), trace, acts, n);
    hide Apply;
    LeaseHolds(s, Init(holders, now), acts[..n]);
  }

  lemma {:induction false} LeaseHolds(s: Schedule, w: World, acts: seq<Action>)
    requires LeaseOk(w)
    ensures LeaseOk(Exec(s, w, acts))
    decreases |acts|
  {
    hide Apply, LeaseOk;
    if acts != [] {
      LeaseHolds(s, w, acts[..|acts| - 1]);
      LeaseStep(s, Exec(s, w, acts[..|acts| - 1]), acts[|acts| - 1]);
    }
  }

  // ---------- teardown ----------

  /** What the events before it owe to an event of one leadership term. */
  ghost predicate Justified(log: seq<Event>, e: Event) {
    match e
    case Renewed(r, f) => RenewerStopped(r, f) !in log && Released(r, f) !in log
    case Spawned(r, f, _) => RenewerStopped(r, f) !in log && Released(r, f) !in log
    case Released(r, f) =>
      && RenewerStopped(r, f) in log && Released(r, f) !in log
      && forall id :: Spawned(r, f, id) in log ==> Finished(r, f, id) in log
    case _ => true
  }

  ghost predicate History(log: seq<Event>) {
    forall q | 0 <= q < |log| :: Justified(log[..q], log[q])
  }

  predicate Stopped(phase: Phase) {
    phase.Draining? || phase.Releasing? || phase.Polling?
  }

  ghost predicate TermLog(leader: Replica, r: nat, log: seq<Event>) {
    && (RenewerStopped(r, leader.fence) in log ==> Stopped(leader.phase))
    && (Released(r, leader.fence) in log ==> leader.phase.Polling?)
    && (leader.phase.Draining? || leader.phase.Releasing? ==> RenewerStopped(r, leader.fence) in log)
    && (leader.phase.Releasing? ==> forall id :: Spawned(r, leader.fence, id) in log ==> Finished(r, leader.fence, id) in log)
    && (leader.renewing ==> !Stopped(leader.phase))
  }

  /** A spawned fire runs until its end is logged. */
  predicate FireLog(fires: seq<Fire>, e: Event, log: seq<Event>) {
    e.Spawned? ==>
      && e.id < |fires| && fires[e.id].replica == e.replica && fires[e.id].fence == e.fence
      && (fires[e.id].status == InFlight || Finished(e.replica, e.fence, e.id) in log)
  }

  ghost predicate LogOk(w: World) {
    && LeaseOk(w)
    && History(w.log)
    && (forall e | e in w.log :: e.fence <= Fence(w.lease) && FireLog(w.fires, e, w.log))
    && (forall r | 0 <= r < |w.replicas| :: TermLog(w.replicas[r], r, w.log))
    && (forall r | 0 <= r < |w.replicas| && w.replicas[r].phase.Spawning? :: SpawnsOwnTerm(w, r))
  }

  predicate SpawnsOwnTerm(w: World, r: nat)
    requires r < |w.replicas| && w.replicas[r].phase.Spawning?
  {
    SpawnsOwn(w, r, w.replicas[r].phase.id) && w.fires[w.replicas[r].phase.id].fence == w.replicas[r].fence
  }

  lemma HistoryGrows(log: seq<Event>, e: Event)
    requires History(log) && Justified(log, e)
    ensures History(log + [e])
  {
    forall q | 0 <= q < |log + [e]|
      ensures Justified((log + [e])[..q], (log + [e])[q])
    {
      assert (log + [e])[..q] == log[..q];
      assert log[..|log|] == log;
    }
  }

  /** One replica moves on, without an event. */
  lemma MoveStep(s: Schedule, w: World, a: Action)
    requires LogOk(w)
    requires a.Tick? || a.Crash? || a.Choose? || a.Leave? || a.TimerFires?
    ensures LogOk(Apply(s, w, a))
  {
    LeaseStep(s, w, a);
    hide LeaseOk;
  }

  lemma AcquireStep(s: Schedule, w: World, a: Action)
    requires LogOk(w) && a.Acquire?
    ensures LogOk(Apply(s, w, a))
  {
    LeaseStep(s, w, a);
    var w' := Apply(s, w, a);
    if w' != w {
      assert forall e | e in w.log :: e.fence < w'.replicas[a.r].fence;
      hide LeaseOk;
    }
  }

  lemma ReserveStep(s: Schedule, w: World, a: Action)
    requires LogOk(w) && a.Reserve?
    ensures LogOk(Apply(s, w, a))
  {
    LeaseStep(s, w, a);
    hide LeaseOk;
  }

  lemma DrainStep(s: Schedule, w: World, a: Action)
    requires LogOk(w) && a.Drain?
    ensures LogOk(Apply(s, w, a))
  {
    LeaseStep(s, w, a);
    hide LeaseOk;
    var w' := Apply(s, w, a);
    if w' != w {
      var f := w.replicas[a.r].fence;
      forall id | Spawned(a.r, f, id) in w.log
        ensures Finished(a.r, f, id) in w.log
      {
        assert FireLog(w.fires, Spawned(a.r, f, id), w.log);
      }
    }
  }

  /** The replica in hand logs an event; fires keep their place. */
  lemma Logged(w: World, w': World, r: nat, e: Event)
    requires LogOk(w) && LeaseOk(w') && Fence(w.lease) <= Fence(w'.lease)
    requires r < |w.replicas| && |w'.replicas| == |w.replicas| && w'.replicas == w.replicas[r := w'.replicas[r]]
    requires w'.log == w.log + [e] && e.replica == r && e.fence == w.replicas[r].fence == w'.replicas[r].fence
    requires |w'.fires| == |w.fires|
    requires forall x | x in w'.log :: FireLog(w'.fires, x, w'.log)
    requires forall q | 0 <= q < |w'.replicas| && w'.replicas[q].phase.Spawning? :: SpawnsOwnTerm(w', q)
    requires Justified(w.log, e) && TermLog(w'.replicas[r], r, w'.log)
    ensures LogOk(w')
  {
    HistoryGrows(w.log, e);
    assert forall x: Event :: x != e ==> (x in w'.log <==> x in w.log);
    forall q | 0 <= q < |w.replicas| && q != r
      ensures TermLog(w'.replicas[q], q, w'.log)
    {
      assert TermLog(w.replicas[q], q, w.log);
    }
    assert w.replicas[r].fence <= Fence(w.lease);
  }

  lemma RenewalStep(s: Schedule, w: World, a: Action)
    requires LogOk(w) && (a.Beat? || a.Confirm?)
    ensures LogOk(Apply(s, w, a))
  {
    LeaseStep(s, w, a);
    var w' := Apply(s, w, a);
    if w' != w && w'.log != w.log {
      var e := w'.log[|w.log|];
      assert w'.log == w.log + [e];
      assert forall x: Event :: x != e ==> (x in w'.log <==> x in w.log);
      assert TermLog(w.replicas[a.r], a.r, w.log);
      assert w'.replicas == w.replicas[a.r := w'.replicas[a.r]];
      hide LeaseOk, LogOk;
      LogFacts(w);
      Logged(w, w', a.r, e);
    } else {
      hide LeaseOk;
    }
  }

  lemma TeardownStep(s: Schedule, w: World, a: Action)
    requires LogOk(w) && (a.StopRenewer? || a.Release?)
    ensures LogOk(Apply(s, w, a))
  {
    LeaseStep(s, w, a);
    var w' := Apply(s, w, a);
    if w' != w && w'.log != w.log {
      var e := w'.log[|w.log|];
      assert w'.log == w.log + [e];
      assert forall x: Event :: x != e ==> (x in w'.log <==> x in w.log);
      assert TermLog(w.replicas[a.r], a.r, w.log);
      assert w'.replicas == w.replicas[a.r := w'.replicas[a.r]];
      hide LeaseOk, LogOk;
      LogFacts(w);
      Logged(w, w', a.r, e);
    } else {
      hide LeaseOk;
    }
  }

  lemma LogFacts(w: World)
    requires LogOk(w)
    ensures forall x | x in w.log :: FireLog(w.fires, x, w.log)
    ensures forall q | 0 <= q < |w.replicas| && w.replicas[q].phase.Spawning? :: SpawnsOwnTerm(w, q)
  {
  }

  lemma SpawnStep(s: Schedule, w: World, a: Action)
    requires LogOk(w) && KeysOk(w) && a.Spawn?
    ensures LogOk(Apply(s, w, a))
  {
    LeaseStep(s, w, a);
    var w' := Apply(s, w, a);
    if w' != w {
      if a.worker {
        var id := w.replicas[a.r].phase.id;
        var e := Spawned(a.r, w.replicas[a.r].fence, id);
        assert SpawnsOwnTerm(w, a.r);
        assert TermLog(w.replicas[a.r], a.r, w.log);
        assert w'.log == w.log + [e];
        assert forall x: Event :: x != e ==> (x in w'.log <==> x in w.log);
        hide LeaseOk;
        forall q | 0 <= q < |w'.replicas| && w'.replicas[q].phase.Spawning?
          ensures SpawnsOwnTerm(w', q)
        {
          assert SpawnsOwnTerm(w, q);
        }
        forall x | x in w'.log
          ensures FireLog(w'.fires, x, w'.log)
        {
          if x != e {
            assert FireLog(w.fires, x, w.log);
          }
        }
        Logged(w, w', a.r, e);
      } else {
        hide LeaseOk;
      }
    }
  }

  lemma FinishStep(s: Schedule, w: World, a: Action)
    requires LogOk(w) && a.Finish?
    ensures LogOk(Apply(s, w, a))
  {
    LeaseStep(s, w, a);
    var w' := Apply(s, w, a);
    if w' != w {
      var fire := w.fires[a.id];
      var e := Finished(fire.replica, fire.fence, a.id);
      assert w'.log == w.log + [e];
      assert fire.fence <= Fence(w.lease);
      assert forall x: Event :: x != e ==> (x in w'.log <==> x in w.log);
      hide LeaseOk;
      forall x | x in w'.log
        ensures FireLog(w'.fires, x, w'.log)
      {
        if x != e {
          assert FireLog(w.fires, x, w.log);
        }
      }
      HistoryGrows(w.log, e);
      forall q | 0 <= q < |w.replicas|
        ensures TermLog(w'.replicas[q], q, w'.log)
      {
        assert TermLog(w.replicas[q], q, w.log);
      }
      forall q | 0 <= q < |w'.replicas| && w'.replicas[q].phase.Spawning?
        ensures SpawnsOwnTerm(w', q)
      {
        assert SpawnsOwnTerm(w, q);
      }
    }
  }

  lemma LogStep(s: Schedule, w: World, a: Action)
    requires LogOk(w) && KeysOk(w)
    ensures LogOk(Apply(s, w, a))
  {
    hide LogOk, KeysOk, Apply;
    match a {
      case Acquire(_, _) => AcquireStep(s, w, a);
      case Reserve(_, _, _, _) => ReserveStep(s, w, a);
      case Drain(_) => DrainStep(s, w, a);
      case Spawn(_, _) => SpawnStep(s, w, a);
      case Finish(_, _, _) => FinishStep(s, w, a);
      case Beat(_, _) => RenewalStep(s, w, a);
      case Confirm(_, _) => RenewalStep(s, w, a);
      case StopRenewer(_) => TeardownStep(s, w, a);
      case Release(_, _) => TeardownStep(s, w, a);
      case _ => MoveStep(s, w, a);
    }
  }

  lemma {:induction false} LogHolds(s: Schedule, w: World, acts: seq<Action>)
    requires LogOk(w) && KeysOk(w)
    ensures LogOk(Exec(s, w, acts))
    decreases |acts|
  {
    hide Apply, LogOk, KeysOk;
    if acts != [] {
      LogHolds(s, w, acts[..|acts| - 1]);
      KeysHold(s, w, acts[..|acts| - 1]);
      LogStep(s, Exec(s, w, acts[..|acts| - 1]), acts[|acts| - 1]);
    }
  }

  /**
   On every return of a leader: its lease is released only after its renewer is dead
   and every fire it spawned has finished, and afterwards it neither renews nor fires
   under that fence again.
   */
  lemma ReleaseComesLast(s: Schedule, holders: seq<string>, now: int, trace: seq<World>, acts: seq<Action>, q: nat)
    requires IsRun(s, Init(holders, now), trace, acts)
    requires var log := trace[|acts|].log; q < |log| && log[q].Released?
    ensures var log := trace[|acts|].log;
            var (r, f) := (log[q].replica, log[q].fence);
            && RenewerStopped(r, f) in log[..q]
            && (forall id :: Spawned(r, f, id) in log[..q] ==> Finished(r, f, id) in log[..q])
            && (forall i | q < i < |log| && log[i].replica == r && log[i].fence == f :: !log[i].Renewed? && !log[i].Spawned?)
  {
    RunEnds(s, Init(holders, now), trace, acts);
    hide Apply;
    InitIsOk(holders, now);
    hide TermLog, FireLog;
    LogHolds(s, Init(holders, now), acts);
    var log := Exec(s, Init(holders, now), acts).log;
    hide Exec, Init;
    assert Justified(log[..q], log[q]);
    forall i | q < i < |log| && log[i].replica == log[q].replica && log[i].fence == log[q].fence
      ensures !log[i].Renewed? && !log[i].Spawned?
    {
      assert Justified(log[..i], log[i]);
      assert log[..i][q] == log[q];
    }
  }

  // ---------- overlap ----------

  /** A fire in flight on a living replica. */
  predicate Live(w: World, id: nat) {
    id < |w.fires| && w.fires[id].status == InFlight && w.At(w.fires[id].replica)
  }

  /** Between the renewal before a fire and its spawn. */
  predicate Firing(w: World, r: nat) {
    w.At(r) && (w.replicas[r].phase.Reserving? || w.replicas[r].phase.Spawning?)
  }

  /** No lease expires under a leader that fires or still has a fire in flight. */
  ghost predicate InTime(w: World, a: Action) {
    a.Tick? && ((exists id: nat :: Live(w, id)) || (exists r: nat :: Firing(w, r))) ==>
      w.lease.Some? && w.now + a.elapsed <= w.lease.value.expiresAt
  }

  ghost predicate InTimeRun(s: Schedule, w: World, acts: seq<Action>) {
    forall n | 0 <= n < |acts| :: InTime(Exec(s, w, acts[..n]), acts[n])
  }

  predicate Current(w: World, fence: nat) {
    w.lease.Some? && w.lease.value.fence == fence && w.now <= w.lease.value.expiresAt
  }

  ghost predicate OverlapOk(w: World) {
    && (forall id: nat | Live(w, id) ::
          && Current(w, w.fires[id].fence) && w.replicas[w.fires[id].replica].fence == w.fires[id].fence
          && !w.replicas[w.fires[id].replica].phase.Polling?)
    && (forall r: nat :: Firing(w, r) ==> Current(w, w.replicas[r].fence))
    && (forall r | 0 <= r < |w.replicas| && w.replicas[r].phase.Releasing? :: w.Drained(r))
  }

  lemma OverlapStep(s: Schedule, w: World, a: Action)
    requires OverlapOk(w) && KeysOk(w) && LogOk(w) && TermOk(w) && s.ttl > 0 && InTime(w, a)
    ensures OverlapOk(Apply(s, w, a))
  {
    hide LogOk, KeysOk, TermOk, OverlapOk, Apply, Steady;
    match a {
      case Tick(_) => OverlapTick(s, w, a);
      case Spawn(_, _) => OverlapSpawn(s, w, a);
      case Release(_, _) => OverlapRelease(s, w, a);
      case Acquire(_, _) => OverlapAcquire(s, w, a);
      case _ =>
        RestIsSteady(s, w, a);
        SteadyKeeps(w, Apply(s, w, a));
    }
  }

  lemma OverlapTick(s: Schedule, w: World, a: Action)
    requires OverlapOk(w) && a.Tick? && InTime(w, a)
    ensures OverlapOk(Apply(s, w, a))
  {
    var w' := Apply(s, w, a);
    forall id: nat | Live(w', id)
      ensures Live(w, id)
    {
    }
    forall r: nat | Firing(w', r)
      ensures Firing(w, r)
    {
    }
  }

  lemma OverlapSpawn(s: Schedule, w: World, a: Action)
    requires OverlapOk(w) && LogOk(w) && TermOk(w) && a.Spawn?
    ensures OverlapOk(Apply(s, w, a))
  {
    var w' := Apply(s, w, a);
    if w' != w {
      assert SpawnsOwnTerm(w, a.r);
      assert Firing(w, a.r);
      hide LogOk, TermOk;
      forall id: nat | Live(w', id)
        ensures Current(w', w'.fires[id].fence) && w'.replicas[w'.fires[id].replica].fence == w'.fires[id].fence
                && !w'.replicas[w'.fires[id].replica].phase.Polling?
      {
        assert id == w.replicas[a.r].phase.id || Live(w, id);
      }
      forall r: nat | Firing(w', r)
        ensures Current(w', w'.replicas[r].fence)
      {
        assert Firing(w, r);
      }
      SpawnKeepsDrained(s, w, a);
    }
  }

  lemma SpawnKeepsDrained(s: Schedule, w: World, a: Action)
    requires OverlapOk(w) && LogOk(w) && a.Spawn?
    ensures var w' := Apply(s, w, a);
            forall r | 0 <= r < |w'.replicas| && w'.replicas[r].phase.Releasing? :: w'.Drained(r)
  {
    var w' := Apply(s, w, a);
    if w' != w {
      assert SpawnsOwnTerm(w, a.r);
      hide LogOk;
      forall r | 0 <= r < |w'.replicas| && w'.replicas[r].phase.Releasing?
        ensures w'.Drained(r)
      {
        assert w.Drained(r) && r != a.r;
      }
    }
  }

  lemma OverlapRelease(s: Schedule, w: World, a: Action)
    requires OverlapOk(w) && TermOk(w) && a.Release?
    ensures OverlapOk(Apply(s, w, a))
  {
    var w' := Apply(s, w, a);
    if w' != w {
      assert w.Drained(a.r);
      assert forall r: nat | r < |w.replicas| && r != a.r && w.replicas[r].fence > 0 :: w.replicas[r].fence != w.replicas[a.r].fence;
      hide TermOk;
      forall id: nat | Live(w', id)
        ensures w'.fires[id].replica != a.r && w.fires[id].fence != w.replicas[a.r].fence && Live(w, id)
      {
        assert Live(w, id);
      }
      forall r: nat | Firing(w', r)
        ensures r != a.r && w.replicas[r].fence != w.replicas[a.r].fence && Firing(w, r)
      {
        assert Firing(w, r);
      }
      forall r | 0 <= r < |w'.replicas| && w'.replicas[r].phase.Releasing?
        ensures w'.Drained(r)
      {
        assert w.Drained(r);
      }
    }
  }

  /** An expired or released lease has neither fires in flight nor a leader about to fire. */
  lemma OverlapAcquire(s: Schedule, w: World, a: Action)
    requires OverlapOk(w) && a.Acquire?
    ensures OverlapOk(Apply(s, w, a))
  {
    var w' := Apply(s, w, a);
    if w' != w {
      forall id: nat | Live(w', id)
        ensures false
      {
        assert Live(w, id);
      }
      forall r: nat | Firing(w', r)
        ensures false
      {
        assert Firing(w, r);
      }
      forall r | 0 <= r < |w'.replicas| && w'.replicas[r].phase.Releasing?
        ensures w'.Drained(r)
      {
        assert w.Drained(r);
      }
    }
  }

  /** What the other actions do to leases, replicas and fires, as far as overlap goes. */
  ghost predicate Steady(w: World, w': World) {
    && w'.now == w.now && |w'.replicas| == |w.replicas| && |w.fires| <= |w'.fires|
    && (forall fence: nat :: Current(w, fence) ==> Current(w', fence))
    && (forall r | 0 <= r < |w.replicas| ::
          && (w'.replicas[r].alive ==> w.replicas[r].alive)
          && w'.replicas[r].fence == w.replicas[r].fence
          && (w'.replicas[r].phase.Polling? ==> w.replicas[r].phase.Polling?)
          && (w'.replicas[r].phase.Releasing? ==> w.replicas[r].phase.Releasing? || w.Drained(r))
          && (Firing(w', r) ==> Firing(w, r) || Current(w', w'.replicas[r].fence)))
    && (forall id | 0 <= id < |w.fires| ::
          w'.fires[id] == w.fires[id].(status := w'.fires[id].status) && (w'.fires[id].status == InFlight ==> w.fires[id].status == InFlight))
    && (forall id | |w.fires| <= id < |w'.fires| :: w'.fires[id].status == Held)
  }

  lemma RestIsSteady(s: Schedule, w: World, a: Action)
    requires s.ttl > 0 && !a.Tick? && !a.Spawn? && !a.Release? && !a.Acquire?
    ensures Steady(w, Apply(s, w, a))
  {
  }

  lemma SteadyKeeps(w: World, w': World)
    requires OverlapOk(w) && Steady(w, w')
    ensures OverlapOk(w')
  {
    forall id: nat | Live(w', id)
      ensures Live(w, id)
    {
    }
    forall r | 0 <= r < |w'.replicas| && w'.replicas[r].phase.Releasing?
      ensures w'.Drained(r)
    {
      assert w.Drained(r);
    }
    forall r: nat | Firing(w', r)
      ensures Current(w', w'.replicas[r].fence)
    {
      assert Firing(w, r) ==> Current(w, w.replicas[r].fence);
    }
  }

  lemma {:induction false} OverlapHolds(s: Schedule, w: World, acts: seq<Action>)
    requires OverlapOk(w) && KeysOk(w) && LogOk(w) && TermOk(w) && Forward(s) && s.ttl > 0 && InTimeRun(s, w, acts)
    ensures OverlapOk(Exec(s, w, acts))
    decreases |acts|
  {
    hide Apply, OverlapOk, KeysOk, LogOk, TermOk, InTime, Forward;
    if acts != [] {
      var n := |acts| - 1;
      forall i | 0 <= i < n
        ensures InTime(Exec(s, w, acts[..n][..i]), acts[..n][i])
      {
        assert acts[..n][..i] == acts[..i];
      }
      OverlapHolds(s, w, acts[..n]);
      KeysHold(s, w, acts[..n]);
      LogHolds(s, w, acts[..n]);
      TermHolds(s, w, acts[..n]);
      assert InTime(Exec(s, w, acts[..n]), acts[n]);
      OverlapStep(s, Exec(s, w, acts[..n]), acts[n]);
    }
  }

  /** What an in-time run leaves behind. */
  ghost predicate Sound(w: World) {
    OverlapOk(w) && KeysOk(w) && LogOk(w) && TermOk(w)
  }

  lemma InTimeFacts(s: Schedule, holders: seq<string>, now: int, trace: seq<World>, acts: seq<Action>)
    requires IsRun(s, Init(holders, now), trace, acts)
    requires Forward(s) && s.ttl > 0 && forall n | 0 <= n < |acts| :: InTime(trace[n], acts[n])
    ensures Sound(trace[|acts|])
  {
    RunEnds(s, Init(holders, now), trace, acts);
    var w0 := Init(holders, now);
    InitIsOk(holders, now);
    hide Apply, OverlapOk, KeysOk, LogOk, TermOk, InTime, Init;
    forall n | 0 <= n < |acts|
      ensures InTime(Exec(s, w0, acts[..n]), acts[n])
    {
      RunIsExec(s, w0, trace, acts, n);
      assert InTime(trace[n], acts[n]);
    }
    SoundHolds(s, w0, acts);
  }

  lemma SoundHolds(s: Schedule, w: World, acts: seq<Action>)
    requires Sound(w) && Forward(s) && s.ttl > 0 && InTimeRun(s, w, acts)
    ensures Sound(Exec(s, w, acts))
  {
    hide Apply, Exec, OverlapOk, KeysOk, LogOk, TermOk, InTimeRun;
    OverlapHolds(s, w, acts);
    KeysHold(s, w, acts);
    LogHolds(s, w, acts);
    TermHolds(s, w, acts);
  }

  /**
   As long as no lease expires under a leader that fires or drains, all fires in flight
   on living replicas belong to one leadership term, the current one.
   */
  lemma LeadersDoNotOverlap(s: Schedule, holders: seq<string>, now: int, trace: seq<World>, acts: seq<Action>, i: nat, j: nat)
    requires IsRun(s, Init(holders, now), trace, acts)
    requires Forward(s) && s.ttl > 0 && forall n | 0 <= n < |acts| :: InTime(trace[n], acts[n])
    requires var w := trace[|acts|]; Live(w, i) && Live(w, j)
    ensures var w := trace[|acts|];
            w.fires[i].fence == w.fires[j].fence == Fence(w.lease) && w.fires[i].replica == w.fires[j].replica
  {
    InTimeFacts(s, holders, now, trace, acts);
    CurrentTermOnly(trace[|acts|], i, j);
  }

  lemma InitIsOk(holders: seq<string>, now: int)
    ensures var w0 := Init(holders, now); OverlapOk(w0) && KeysOk(w0) && LogOk(w0) && TermOk(w0)
  {
  }

  lemma CurrentTermOnly(w: World, i: nat, j: nat)
    requires OverlapOk(w) && TermOk(w) && Live(w, i) && Live(w, j)
    ensures w.fires[i].fence == w.fires[j].fence == Fence(w.lease) && w.fires[i].replica == w.fires[j].replica
  {
    assert Current(w, w.fires[i].fence) && Current(w, w.fires[j].fence);
  }

  // ---------- a lease that expires under a fire ----------

  /** Fires in flight on living replicas in two leadership terms. */
  ghost predicate Overlaps(w: World) {
    exists i: nat, j: nat :: Live(w, i) && Live(w, j) && w.fires[i].fence != w.fires[j].fence
  }

  predicate TickFree(acts: seq<Action>) {
    forall a | a in acts :: !a.Tick?
  }

  lemma {:induction false} ExecJoins(s: Schedule, w: World, acts: seq<Action>, more: seq<Action>)
    ensures Exec(s, w, acts + more) == Exec(s, Exec(s, w, acts), more)
    decreases |more|
  {
    hide Apply;
    if more == [] {
      assert acts + more == acts;
    } else {
      var n := |more| - 1;
      ExecJoins(s, w, acts, more[..n]);
      assert (acts + more)[..|acts + more| - 1] == acts + more[..n];
    }
  }

  lemma ExecCons(s: Schedule, w: World, a: Action, acts: seq<Action>)
    ensures Exec(s, w, [a] + acts) == Exec(s, Apply(s, w, a), acts)
  {
    hide Apply;
    assert [a][..0] == [];
    assert Exec(s, w, [a]) == Apply(s, w, a);
    ExecJoins(s, w, [a], acts);
  }

  /** Only replica r and its fires move; its clock and all keys stay. */
  predicate Apart(w: World, w': World, r: nat) {
    && w.At(r) && w'.At(r) && w'.replicas == w.replicas[r := w'.replicas[r]]
    && w'.now == w.now && w'.lease == w.lease && w'.keys == w.keys
    && w'.replicas[r].holder == w.replicas[r].holder && w'.replicas[r].clock == w.replicas[r].clock
    && |w'.fires| == |w.fires| && (forall id | 0 <= id < |w.fires| && w.fires[id].replica != r :: w'.fires[id] == w.fires[id])
    && (forall id | 0 <= id < |w.fires| && w.fires[id].replica == r :: w'.fires[id].replica == r)
    && w.log <= w'.log
  }

  /** How far a replica is from following. */
  function Rank(phase: Phase): nat {
    match phase
    case Polling => 0
    case Releasing => 1
    case Draining => 2
    case Leaving => 3
    case Waiting(_) => 4
    case Idle => 4
    case Due(_) => 4
    case Spawning(_) => 4
    case Choosing => 5
    case Reserving(_) => 6
  }

  function Open(w: World, r: nat): set<int> {
    set id | 0 <= id < |w.fires| && w.fires[id].replica == r && w.fires[id].status == InFlight
  }

  predicate MaySpawn(w: World, r: nat) {
    w.At(r) && (w.replicas[r].phase.Spawning? ==> w.replicas[r].phase.id < |w.fires|)
  }

  /** The way out of each phase: what the replica was about to do comes to nothing. */
  function WayOut(w: World, r: nat, open: nat): Action
    requires w.At(r)
  {
    match w.replicas[r].phase
    case Polling => Leave(r)
    case Choosing => Choose(r, w.replicas[r].clock)
    case Waiting(_) => Leave(r)
    case Idle => Leave(r)
    case Due(_) => Confirm(r, false)
    case Reserving(_) => Reserve(r, false, false, false)
    case Spawning(_) => Spawn(r, false)
    case Leaving => StopRenewer(r)
    case Draining => if w.Drained(r) then Drain(r) else Finish(open, true, false)
    case Releasing => Action.Release(r, false)
  }

  lemma PhaseOut(s: Schedule, w: World, r: nat, open: nat)
    requires MaySpawn(w, r) && w.replicas[r].phase != Polling && (w.replicas[r].phase == Draining ==> w.Drained(r))
    ensures var w' := Apply(s, w, WayOut(w, r, open));
            Apart(w, w', r) && MaySpawn(w', r) && Rank(w'.replicas[r].phase) < Rank(w.replicas[r].phase)
  {
  }

  lemma FireOut(s: Schedule, w: World, r: nat, open: nat)
    requires w.At(r) && w.replicas[r].phase == Draining && open in Open(w, r)
    ensures var w' := Apply(s, w, Finish(open, true, false));
            Apart(w, w', r) && MaySpawn(w', r) && w'.replicas == w.replicas && Open(w', r) == Open(w, r) - {open}
  {
  }

  lemma StepsOut(s: Schedule, w: World, r: nat, open: nat)
    requires MaySpawn(w, r) && w.replicas[r].phase != Polling
    requires !w.Drained(r) ==> open in Open(w, r)
    ensures var w' := Apply(s, w, WayOut(w, r, open));
            && Apart(w, w', r) && MaySpawn(w', r)
            && (Rank(w'.replicas[r].phase) < Rank(w.replicas[r].phase)
                || (w'.replicas[r].phase == w.replicas[r].phase && Open(w', r) == Open(w, r) - {open} && open in Open(w, r)))
  {
    if w.replicas[r].phase == Draining && !w.Drained(r) {
      FireOut(s, w, r, open);
    } else {
      PhaseOut(s, w, r, open);
    }
    hide Apply, Apart, MaySpawn, World.Drained;
  }

  lemma ApartTwice(w: World, w1: World, w2: World, r: nat)
    requires Apart(w, w1, r) && Apart(w1, w2, r)
    ensures Apart(w, w2, r)
  {
  }

  /** From wherever it stands, a living replica can come back to following. */
  lemma {:induction false} BecomesFollower(s: Schedule, w: World, r: nat) returns (more: seq<Action>)
    requires MaySpawn(w, r)
    ensures TickFree(more)
    ensures var w' := Exec(s, w, more); Apart(w, w', r) && w'.replicas[r].phase == Polling
    decreases Rank(w.replicas[r].phase), |Open(w, r)|
  {
    if w.replicas[r].phase == Polling {
      more := [];
    } else {
      var open: nat := 0;
      if !w.Drained(r) {
        open :| open < |w.fires| && w.fires[open].replica == r && w.fires[open].fence == w.replicas[r].fence
                && w.fires[open].status == InFlight;
      }
      StepsOut(s, w, r, open);
      var a := WayOut(w, r, open);
      var w1 := Apply(s, w, a);
      hide Apply, Apart, Open, MaySpawn;
      var rest := BecomesFollower(s, w1, r);
      more := [a] + rest;
      ExecCons(s, w, a, rest);
      ApartTwice(w, w1, Exec(s, w, more), r);
    }
  }

  /** The replica can choose a tick that nobody has reserved, or whose run has failed. */
  predicate CanFire(s: Schedule, w: World, r: nat, at: int) {
    && w.At(r) && at >= w.replicas[r].clock && s.next(at).Some?
    && var tick := s.next(at).value; tick !in w.keys || w.keys[tick].outcome == Failed
  }

  /** A leader that owns the lease reads its clock at `at` and fires the next tick. */
  function FireOnce(s: Schedule, r: nat, at: int): seq<Action>
    requires s.next(at).Some?
  {
    var tick := s.next(at).value;
    [Choose(r, at), TimerFires(r, if tick > at then tick else at), Confirm(r, true), Reserve(r, true, true, false), Spawn(r, true)]
  }

  predicate Leads(w: World, r: nat) {
    w.At(r) && w.replicas[r].phase == Choosing && w.Owns(r)
  }

  /** One more fire, of replica r, under a lease that it has just renewed. */
  predicate HasFired(w: World, w': World, r: nat, tick: int, ttl: int) {
    && r < |w.replicas| && w'.fires == w.fires + [Fire(r, w.replicas[r].fence, tick, InFlight)]
    && w'.keys.Keys == w.keys.Keys + {tick}
    && Leads(w', r) && w'.replicas == w.replicas[r := w'.replicas[r]] && w'.now == w.now && w.log <= w'.log
    && w'.replicas[r].fence == w.replicas[r].fence && Fence(w'.lease) == Fence(w.lease)
    && w'.lease.Some? && w'.lease.value.expiresAt == w'.now + ttl
  }

  lemma Renews(s: Schedule, w: World, r: nat, at: int)
    requires Leads(w, r) && CanFire(s, w, r, at)
    ensures var tick := s.next(at).value;
            var w' := Apply(s, Apply(s, Apply(s, w, Choose(r, at)), TimerFires(r, if tick > at then tick else at)), Confirm(r, true));
            && w'.replicas == w.replicas[r := w.replicas[r].(phase := Reserving(tick), clock := w'.replicas[r].clock)]
            && w'.now == w.now && w'.fires == w.fires && w'.keys == w.keys && w'.Owns(r) && w'.At(r) && w.log <= w'.log
            && w'.lease.value.fence == w.lease.value.fence && w'.lease.value.expiresAt == w'.now + s.ttl
  {
    var tick := s.next(at).value;
    var w1 := Apply(s, w, Choose(r, at));
    assert w1.replicas[r].phase == Waiting(tick);
    var w2 := Apply(s, w1, TimerFires(r, if tick > at then tick else at));
    assert w2.replicas[r].phase == Due(tick);
  }

  lemma Spawns(s: Schedule, w: World, r: nat, tick: int)
    requires w.At(r) && w.replicas[r].phase == Reserving(tick) && w.Free(tick)
    ensures var w' := Apply(s, Apply(s, w, Reserve(r, true, true, false)), Spawn(r, true));
            && w'.fires == w.fires + [Fire(r, w.replicas[r].fence, tick, InFlight)]
            && w'.replicas == w.replicas[r := w.replicas[r].(phase := Choosing)]
            && w'.now == w.now && w'.lease == w.lease && w'.keys.Keys == w.keys.Keys + {tick} && w.log <= w'.log
  {
    var w1 := Apply(s, w, Reserve(r, true, true, false));
    assert w1.replicas[r].phase == Spawning(|w.fires|);
  }

  lemma Fires(s: Schedule, w: World, r: nat, at: int)
    requires Leads(w, r) && CanFire(s, w, r, at)
    ensures HasFired(w, Exec(s, w, FireOnce(s, r, at)), r, s.next(at).value, s.ttl)
  {
    var tick := s.next(at).value;
    var a0, a1, a2, a3, a4 := Choose(r, at), TimerFires(r, if tick > at then tick else at), Confirm(r, true),
      Reserve(r, true, true, false), Spawn(r, true);
    Renews(s, w, r, at);
    hide Apply;
    var w1 := Apply(s, w, a0);
    var w2 := Apply(s, w1, a1);
    var w3 := Apply(s, w2, a2);
    var w4 := Apply(s, w3, a3);
    Spawns(s, w3, r, tick);
    ExecCons(s, w, a0, [a1, a2, a3, a4]);
    ExecCons(s, w1, a1, [a2, a3, a4]);
    ExecCons(s, w2, a2, [a3, a4]);
    ExecCons(s, w3, a3, [a4]);
    ExecCons(s, w4, a4, []);
    assert [a0] + [a1, a2, a3, a4] == FireOnce(s, r, at) && [a1] + [a2, a3, a4] == [a1, a2, a3, a4];
    assert [a2] + [a3, a4] == [a2, a3, a4] && [a3] + [a4] == [a3, a4] && [a4] + [] == [a4];
  }

  lemma TakesOver(s: Schedule, w: World, r: nat)
    requires w.At(r) && w.replicas[r].phase == Polling && Acquirable(w.lease, w.now)
    ensures var w' := Apply(s, w, Action.Acquire(r, true));
            && Leads(w', r) && w'.now == w.now && w'.keys == w.keys && w'.fires == w.fires && w'.log == w.log
            && w'.replicas == w.replicas[r := w'.replicas[r]] && w'.replicas[r].clock == w.replicas[r].clock
            && w'.replicas[r].fence == Fence(w.lease) + 1
  {
  }

  /** A replica that takes over an expired lease fires beside the fire in flight. */
  lemma Overtakes(s: Schedule, w: World, i: nat, r: nat, at: int) returns (more: seq<Action>)
    requires Live(w, i) && Acquirable(w.lease, w.now) && w.fires[i].fence <= Fence(w.lease)
    requires MaySpawn(w, r) && r != w.fires[i].replica && CanFire(s, w, r, at)
    ensures TickFree(more)
    ensures var w' := Exec(s, w, more);
            Overlaps(w') && Live(w', i) && w'.At(r) && w'.replicas == w.replicas[r := w'.replicas[r]]
  {
    hide Apply, Exec, Overlaps;
    var steps := BecomesFollower(s, w, r);
    var w1 := Exec(s, w, steps);
    TakesOver(s, w1, r);
    var acquire := Action.Acquire(r, true);
    var w2 := Apply(s, w1, acquire);
    Fires(s, w2, r, at);
    more := steps + ([acquire] + FireOnce(s, r, at));
    ExecJoins(s, w, steps, [acquire] + FireOnce(s, r, at));
    ExecCons(s, w1, acquire, FireOnce(s, r, at));
    TwoTerms(w, Exec(s, w, more), i, |w.fires|);
  }

  lemma TwoTerms(w: World, w': World, i: nat, j: nat)
    requires Live(w, i) && |w.fires| <= |w'.fires| && w'.fires[i] == w.fires[i] && w'.At(w.fires[i].replica)
    requires Live(w', j) && w'.fires[j].fence != w.fires[i].fence
    ensures Overlaps(w') && Live(w', i)
  {
    assert Live(w', i);
  }

  lemma RunFacts(s: Schedule, holders: seq<string>, now: int, trace: seq<World>, acts: seq<Action>)
    requires IsRun(s, Init(holders, now), trace, acts)
    ensures var w := trace[|acts|]; KeysOk(w) && LogOk(w)
  {
    RunEnds(s, Init(holders, now), trace, acts);
    InitIsOk(holders, now);
    hide Apply, KeysOk, LogOk, Init;
    KeysHold(s, Init(holders, now), acts);
    LogHolds(s, Init(holders, now), acts);
  }

  lemma FenceFacts(w: World, i: nat, r: nat)
    requires KeysOk(w) && LogOk(w) && i < |w.fires| && w.At(r)
    ensures w.fires[i].fence <= Fence(w.lease) && MaySpawn(w, r)
  {
  }

  /**
   For every schedule, ttl and set of replicas, in every run: once a lease has expired
   under a fire in flight on a living replica, any other living replica that can choose a
   free tick can fire it beside the first, without any time passing.
   */
  lemma ExpiryLetsLeadersOverlap(s: Schedule, holders: seq<string>, now: int, trace: seq<World>, acts: seq<Action>,
                                 i: nat, r: nat, at: int)
    requires IsRun(s, Init(holders, now), trace, acts)
    requires var w := trace[|acts|];
             Live(w, i) && Acquirable(w.lease, w.now) && r != w.fires[i].replica && CanFire(s, w, r, at)
    ensures exists more :: TickFree(more) && Overlaps(Exec(s, trace[|acts|], more))
  {
    RunFacts(s, holders, now, trace, acts);
    FenceFacts(trace[|acts|], i, r);
    hide Apply, Exec, KeysOk, LogOk, Overlaps;
    var more := Overtakes(s, trace[|acts|], i, r, at);
  }

  lemma NoTickIsInTime(s: Schedule, w: World, acts: seq<Action>)
    requires TickFree(acts)
    ensures InTimeRun(s, w, acts)
  {
    hide Exec;
    forall n | 0 <= n < |acts|
      ensures InTime(Exec(s, w, acts[..n]), acts[n])
    {
      assert acts[n] in acts;
    }
  }

  lemma OneTermOnly(w: World)
    requires OverlapOk(w)
    ensures !Overlaps(w)
  {
    forall i: nat, j: nat | Live(w, i) && Live(w, j)
      ensures w.fires[i].fence == w.fires[j].fence
    {
      assert Current(w, w.fires[i].fence) && Current(w, w.fires[j].fence);
    }
  }

  lemma SoundStep(s: Schedule, w: World, a: Action)
    requires Sound(w) && Forward(s) && s.ttl > 0 && InTime(w, a)
    ensures Sound(Apply(s, w, a))
  {
    hide Apply, OverlapOk, KeysOk, LogOk, TermOk, InTime;
    OverlapStep(s, w, a);
    KeysStep(s, w, a);
    LogStep(s, w, a);
    TermStep(s, w, a);
  }

  /**
   The condition of LeadersDoNotOverlap cannot be weakened: while a fire is in flight and
   another living replica can choose a free tick, letting time pass is in time if and only
   if no in-time continuation has fires of two terms in flight.
   */
  lemma ExpiryIsExact(s: Schedule, holders: seq<string>, now: int, trace: seq<World>, acts: seq<Action>,
                      elapsed: nat, i: nat, r: nat, at: int)
    requires IsRun(s, Init(holders, now), trace, acts)
    requires Forward(s) && s.ttl > 0 && forall n | 0 <= n < |acts| :: InTime(trace[n], acts[n])
    requires var w := trace[|acts|]; Live(w, i) && r != w.fires[i].replica && CanFire(s, w, r, at)
    ensures var w' := Apply(s, trace[|acts|], Tick(elapsed));
            InTime(trace[|acts|], Tick(elapsed)) <==> forall more | InTimeRun(s, w', more) :: !Overlaps(Exec(s, w', more))
  {
    InTimeFacts(s, holders, now, trace, acts);
    var w := trace[|acts|];
    var w' := Apply(s, w, Tick(elapsed));
    if InTime(w, Tick(elapsed)) {
      hide Apply, Exec, OverlapOk, KeysOk, LogOk, TermOk, InTime, InTimeRun, Overlaps, IsRun, Forward;
      SoundStep(s, w, Tick(elapsed));
      forall more | InTimeRun(s, w', more)
        ensures !Overlaps(Exec(s, w', more))
      {
        SoundHolds(s, w', more);
        OneTermOnly(Exec(s, w', more));
      }
    } else {
      assert Acquirable(w'.lease, w'.now) && Live(w', i) && CanFire(s, w', r, at);
      FenceFacts(w, i, r);
      assert MaySpawn(w', r);
      hide Apply, Exec, OverlapOk, KeysOk, LogOk, TermOk, InTime, InTimeRun, Overlaps, IsRun, Forward, MaySpawn, CanFire;
      var more := Overtakes(s, w', i, r, at);
      NoTickIsInTime(s, w', more);
      assert InTimeRun(s, w', more) && Overlaps(Exec(s, w', more));
    }
  }

  // ---------- a drain that outlasts the lease ----------

  /** The leader leaves and stops its renewer; then its lease runs out. */
  function Departs(clock: int, ttl: int): seq<Action> {
    [Choose(0, clock), Leave(0), StopRenewer(0), Tick(if ttl < 0 then 0 else ttl + 1)]
  }

  lemma FirstLeads(s: Schedule, holders: seq<string>, now: int)
    requires |holders| >= 2
    ensures var w := Apply(s, Init(holders, now), Action.Acquire(0, true));
            && Leads(w, 0) && w.replicas[0].fence == 1 && w.keys == map[] && w.fires == [] && w.replicas[0].clock == now
            && |w.replicas| == |holders| && w.replicas[1] == Replica(true, holders[1], Polling, 0, false, now)
  {
  }

  /** Only the phase of the first replica, its renewer and the log have moved. */
  predicate Departing(w: World, w': World) {
    && w.At(0) && w'.At(0) && w'.replicas == w.replicas[0 := w'.replicas[0]]
    && w'.fires == w.fires && w'.keys == w.keys && w'.lease == w.lease && w'.now == w.now
  }

  lemma ChoosesOnly(s: Schedule, w: World)
    requires w.At(0) && w.replicas[0].phase == Choosing
    ensures var w' := Apply(s, w, Choose(0, w.replicas[0].clock));
            Departing(w, w') && (w'.replicas[0].phase.Waiting? || w'.replicas[0].phase.Idle?)
  {
  }

  lemma LeavesOnly(s: Schedule, w: World)
    requires w.At(0) && (w.replicas[0].phase.Waiting? || w.replicas[0].phase.Idle?)
    ensures var w' := Apply(s, w, Leave(0)); Departing(w, w') && w'.replicas[0].phase == Leaving
  {
  }

  lemma StopsOnly(s: Schedule, w: World)
    requires w.At(0) && w.replicas[0].phase == Leaving
    ensures var w' := Apply(s, w, StopRenewer(0)); Departing(w, w') && w'.replicas[0].phase == Draining
  {
  }

  lemma Elapses(s: Schedule, w: World, elapsed: nat)
    ensures Apply(s, w, Tick(elapsed)) == w.(now := w.now + elapsed)
  {
  }

  lemma DepartsFrom(s: Schedule, w: World)
    requires Leads(w, 0) && w.lease.value.expiresAt == w.now + s.ttl
    ensures var w' := Exec(s, w, Departs(w.replicas[0].clock, s.ttl));
            && w'.At(0) && w'.replicas == w.replicas[0 := w'.replicas[0]] && w'.replicas[0].phase == Draining
            && w'.fires == w.fires && w'.keys == w.keys && Acquirable(w'.lease, w'.now) && Fence(w'.lease) == Fence(w.lease)
  {
    hide Apply;
    var a0, a1, a2, a3 := Choose(0, w.replicas[0].clock), Leave(0), StopRenewer(0), Tick(if s.ttl < 0 then 0 else s.ttl + 1);
    ChoosesOnly(s, w);
    var w1 := Apply(s, w, a0);
    LeavesOnly(s, w1);
    var w2 := Apply(s, w1, a1);
    StopsOnly(s, w2);
    var w3 := Apply(s, w2, a2);
    Elapses(s, w3, a3.elapsed);
    ExecCons(s, w, a0, [a1, a2, a3]);
    ExecCons(s, w1, a1, [a2, a3]);
    ExecCons(s, w2, a2, [a3]);
    ExecCons(s, w3, a3, []);
    assert [a0] + [a1, a2, a3] == Departs(w.replicas[0].clock, s.ttl) && [a1] + [a2, a3] == [a1, a2, a3];
    assert [a2] + [a3] == [a2, a3] && [a3] + [] == [a3];
  }

  /**
   For every schedule with two ticks, every ttl and any two or more replicas there is a run
   in which a leader that no longer renews still drains its fire while another term fires.
   */
  lemma DrainCanOutlastTheLease(s: Schedule, holders: seq<string>, now: int, at: int, at': int)
    requires |holders| >= 2 && now <= at && now <= at'
    requires s.next(at).Some? && s.next(at').Some? && s.next(at) != s.next(at')
    ensures exists acts :: var w := Exec(s, Init(holders, now), acts);
              Overlaps(w) && w.At(0) && w.replicas[0].phase == Draining && Live(w, 0)
  {
    hide Apply, Exec, FireOnce, Departs, Init, Overlaps;
    var w0 := Init(holders, now);
    var acquire := Action.Acquire(0, true);
    FirstLeads(s, holders, now);
    var w1 := Apply(s, w0, acquire);
    Fires(s, w1, 0, at);
    var w2 := Exec(s, w1, FireOnce(s, 0, at));
    DepartsFrom(s, w2);
    var departs := Departs(w2.replicas[0].clock, s.ttl);
    var w3 := Exec(s, w2, departs);
    var rest := Overtakes(s, w3, 0, 1, at');
    var acts := [acquire] + (FireOnce(s, 0, at) + (departs + rest));
    ExecCons(s, w0, acquire, FireOnce(s, 0, at) + (departs + rest));
    ExecJoins(s, w1, FireOnce(s, 0, at), departs + rest);
    ExecJoins(s, w2, departs, rest);
    var w4 := Exec(s, w0, acts);
    assert Overlaps(w4) && w4.At(0) && w4.replicas[0].phase == Draining;
  }
}
