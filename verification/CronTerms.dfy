/**
 How a leadership term is kept: the renewer of a leader runs from its acquisition on, and a
 leader whose renewals come through in time is never displaced.
 */
module CronTerms {
  import opened Wrappers
  import opened Leases
  import opened CronLeaders

  /** The lease is the replica's own. */
  predicate OwnsLease(w: World, r: nat)
    requires r < |w.replicas|
  {
    w.lease.Some? && w.lease.value.holder == w.replicas[r].holder && w.lease.value.fence == w.replicas[r].fence
  }

  /** A living follower reaches the store and finds the lease absent or expired. */
  predicate WinsLease(w: World, a: Action, r: nat) {
    w.At(r) && a == Action.Acquire(r, true) && w.replicas[r].phase == Polling && (w.lease.Some? ==> w.lease.value.expiresAt < w.now)
  }

  /** The renewer ends: stopped by its leader, or with a renewal that fails. */
  predicate RenewerEnds(w: World, a: Action, r: nat) {
    && w.At(r)
    && ((a == StopRenewer(r) && w.replicas[r].phase == Leaving) || (a.Beat? && a.r == r && (!a.reachable || !OwnsLease(w, r))))
  }

  /** A renewer starts when its replica wins the lease, ends as above, and otherwise runs on. */
  predicate RenewerGoes(w: World, w': World, a: Action, r: nat) {
    && r < |w.replicas| && r < |w'.replicas|
    && (w'.replicas[r].renewing <==> WinsLease(w, a, r) || (w.replicas[r].renewing && !RenewerEnds(w, a, r)))
    && (!WinsLease(w, a, r) ==> w'.replicas[r].fence == w.replicas[r].fence)
    && w'.replicas[r].holder == w.replicas[r].holder && (w'.replicas[r].alive ==> w.replicas[r].alive)
  }

  lemma RenewerStep(s: Schedule, w: World, a: Action, r: nat)
    requires r < |w.replicas|
    ensures RenewerGoes(w, Apply(s, w, a), a, r)
  {
    hide World.Drained, World.Free;
  }

  /**
   A tick that cannot be reserved is skipped without a trace; its leader goes on leading,
   unless the store does not answer because the leader's own context has ended.
   */
  lemma SkippedTick(s: Schedule, w: World, r: nat, session: bool, reachable: bool, ctxDone: bool)
    requires w.At(r) && w.replicas[r].phase.Reserving?
    requires var tick := w.replicas[r].phase.next;
             !session || !reachable || (tick in w.keys && w.keys[tick].outcome != Failed)
    ensures var phase := if session && !reachable && ctxDone then Leaving else Choosing;
            Apply(s, w, Reserve(r, session, reachable, ctxDone)) == w.(replicas := w.replicas[r := w.replicas[r].(phase := phase)])
  {
  }

  /**
   When a leader dies, its term ends with its lease: once that has run out, any living
   follower takes over under the next fence, and renews from then on.
   */
  lemma FollowerTakesOver(s: Schedule, w: World, r: nat, q: nat, elapsed: nat)
    requires r != q && r < |w.replicas| && w.At(q) && w.replicas[q].phase == Polling
    requires w.lease.Some? ==> w.lease.value.expiresAt < w.now + elapsed
    ensures var w' := Apply(s, Apply(s, Apply(s, w, Crash(r)), Tick(elapsed)), Action.Acquire(q, true));
            && !w'.At(r) && w'.At(q) && w'.replicas[q] == w.replicas[q].(phase := Choosing, fence := Fence(w.lease) + 1, renewing := true)
            && w'.lease == Some(Lease(w.replicas[q].holder, Fence(w.lease) + 1, w.now + elapsed + s.ttl))
            && w'.fires == w.fires && w'.keys == w.keys
  {
  }

  // ---------- a leader that renews in time ----------

  lemma OneApart(s: Schedule, start: World, trace: seq<World>, acts: seq<Action>, i: nat)
    requires IsRun(s, start, trace, acts) && i < |acts|
    ensures trace[i + 1] == Apply(s, trace[i], acts[i])
  {
  }

  lemma {:induction false} ReplicasStay(s: Schedule, start: World, trace: seq<World>, acts: seq<Action>, n: nat, m: nat, r: nat)
    requires IsRun(s, start, trace, acts) && n <= m <= |acts| && r < |trace[n].replicas|
    ensures r < |trace[m].replicas| && trace[m].replicas[r].holder == trace[n].replicas[r].holder
    ensures trace[m].replicas[r].alive ==> trace[n].replicas[r].alive
    ensures trace[n].log <= trace[m].log
    decreases m - n
  {
    hide Apply;
    if n < m {
      ReplicasStay(s, start, trace, acts, n, m - 1, r);
      OneApart(s, start, trace, acts, m - 1);
      RenewerStep(s, trace[m - 1], acts[m - 1], r);
      ApplyMoves(s, trace[m - 1], acts[m - 1]);
    }
  }

  /** At every moment up to m, the acquisition at n or a renewal that came through lies at most the ttl back. */
  ghost predicate Fed(s: Schedule, trace: seq<World>, acts: seq<Action>, n: nat, m: nat, r: nat)
    requires |trace| == |acts| + 1 && m <= |acts|
  {
    forall i | n < i <= m :: exists k | n <= k < i :: (k == n || acts[k] == Beat(r, true)) && trace[i].now <= trace[k].now + s.ttl
  }

  /** Between n and m, no renewal of the replica fails to reach the store, and its renewer is not stopped. */
  predicate Undisturbed(acts: seq<Action>, n: nat, m: nat, r: nat)
    requires m <= |acts|
  {
    forall i | n < i < m :: acts[i] != Beat(r, false) && acts[i] != StopRenewer(r)
  }

  lemma FedNow(s: Schedule, trace: seq<World>, acts: seq<Action>, n: nat, m: nat, r: nat) returns (k: nat)
    requires |trace| == |acts| + 1 && n < m <= |acts| && Fed(s, trace, acts, n, m, r)
    ensures n <= k < m && (k == n || acts[k] == Beat(r, true)) && trace[m].now <= trace[k].now + s.ttl
    ensures Fed(s, trace, acts, n, m - 1, r) && Fed(s, trace, acts, n, k, r)
  {
    k :| n <= k < m && (k == n || acts[k] == Beat(r, true)) && trace[m].now <= trace[k].now + s.ttl;
  }

  lemma FirstFence(s: Schedule, holders: seq<string>, now: int, trace: seq<World>, acts: seq<Action>, n: nat, r: nat)
    requires IsRun(s, Init(holders, now), trace, acts) && n < |acts| && WinsLease(trace[n], acts[n], r)
    ensures Wins(trace[n], acts[n], r) && r < |trace[n + 1].replicas| && trace[n + 1].replicas[r].renewing && trace[n + 1].replicas[r].fence > 0
  {
    hide World.Drained, World.Free;
    OneApart(s, Init(holders, now), trace, acts, n);
  }

  lemma Sooner(w: World, r: nat, holder: string, fence: nat, until: int)
    requires Reigns(w, r, holder, fence, until) && w.now <= until
    ensures Reigns(w, r, holder, fence, w.now) && w.replicas[r].fence == fence
  {
  }

  lemma BeatWins(s: Schedule, w: World, r: nat, holder: string, fence: nat)
    requires Reigns(w, r, holder, fence, w.now) && w.replicas[r].renewing && w.At(r) && w.replicas[r].holder == holder
    ensures Wins(w, Beat(r, true), r) && r < |Apply(s, w, Beat(r, true)).replicas|
    ensures Apply(s, w, Beat(r, true)).replicas[r].fence == fence
  {
  }

  lemma RenewsOn(s: Schedule, w: World, a: Action, r: nat, holder: string, fence: nat)
    requires Reigns(w, r, holder, fence, w.now) && w.replicas[r].renewing && w.replicas[r].holder == holder
    requires a != Beat(r, false) && a != StopRenewer(r)
    ensures r < |Apply(s, w, a).replicas| && Apply(s, w, a).replicas[r].renewing
  {
    ApplyMoves(s, w, a);
    hide Apply, LeaseGoes;
    RenewerStep(s, w, a, r);
  }

  /** A renewal that came through at most the ttl ago still stands. */
  lemma ReignsFrom(s: Schedule, holders: seq<string>, now: int, trace: seq<World>, acts: seq<Action>, k: nat, m: nat, r: nat,
                   holder: string, fence: nat)
    requires IsRun(s, Init(holders, now), trace, acts) && k < m <= |acts| && acts[k] == Beat(r, true)
    requires r < |trace[k].replicas| && r < |trace[m].replicas| && trace[m].replicas[r].alive
    requires Reigns(trace[k], r, holder, fence, trace[k].now) && trace[k].replicas[r].renewing && trace[k].replicas[r].holder == holder
    requires trace[m].now <= trace[k].now + s.ttl && Released(r, fence) !in trace[m].log
    ensures Reigns(trace[m], r, holder, fence, trace[m].now) && !Acquirable(trace[m].lease, trace[m].now)
  {
    hide Apply, Wins, Acquirable, Reigns, Init;
    ReplicasStay(s, Init(holders, now), trace, acts, k, m, r);
    OneApart(s, Init(holders, now), trace, acts, k);
    BeatWins(s, trace[k], r, holder, fence);
    TermLasts(s, holders, now, trace, acts, k, m, r);
    Sooner(trace[m], r, holder, fence, trace[k].now + s.ttl);
  }

  /** One step on, the renewer still runs. */
  lemma RenewsAt(s: Schedule, holders: seq<string>, now: int, trace: seq<World>, acts: seq<Action>, m: nat, r: nat, holder: string, fence: nat)
    requires IsRun(s, Init(holders, now), trace, acts) && 0 < m <= |acts| && r < |trace[m - 1].replicas|
    requires Reigns(trace[m - 1], r, holder, fence, trace[m - 1].now) && trace[m - 1].replicas[r].renewing
    requires trace[m - 1].replicas[r].holder == holder && acts[m - 1] != Beat(r, false) && acts[m - 1] != StopRenewer(r)
    ensures r < |trace[m].replicas| && trace[m].replicas[r].renewing
  {
    hide Apply, Reigns, Init;
    OneApart(s, Init(holders, now), trace, acts, m - 1);
    RenewsOn(s, trace[m - 1], acts[m - 1], r, holder, fence);
  }

  lemma {:induction false} FedReigns(s: Schedule, holders: seq<string>, now: int, trace: seq<World>, acts: seq<Action>, n: nat, m: nat, r: nat)
    requires IsRun(s, Init(holders, now), trace, acts) && n < m <= |acts|
    requires WinsLease(trace[n], acts[n], r) && Fed(s, trace, acts, n, m, r) && Undisturbed(acts, n, m, r)
    requires r < |trace[n + 1].replicas| && r < |trace[m].replicas| && trace[m].replicas[r].alive
    requires Released(r, trace[n + 1].replicas[r].fence) !in trace[m].log
    ensures r < |trace[n].replicas| && !Acquirable(trace[m].lease, trace[m].now)
    ensures Reigns(trace[m], r, trace[n].replicas[r].holder, trace[n + 1].replicas[r].fence, trace[m].now)
    decreases m, 1
  {
    hide Apply, Wins, Acquirable, Reigns, Fed;
    FirstFence(s, holders, now, trace, acts, n, r);
    var start, holder, fence := Init(holders, now), trace[n].replicas[r].holder, trace[n + 1].replicas[r].fence;
    var k := FedNow(s, trace, acts, n, m, r);
    hide WinsLease, Init;
    if k == n {
      TermLasts(s, holders, now, trace, acts, n, m, r);
      Sooner(trace[m], r, holder, fence, trace[n].now + s.ttl);
    } else {
      Earlier(s, start, trace, acts, n, k, m, r, fence);
      FedReigns(s, holders, now, trace, acts, n, k, r);
      FedRenews(s, holders, now, trace, acts, n, k, r);
      ReignsFrom(s, holders, now, trace, acts, k, m, r, holder, fence);
    }
  }

  lemma {:induction false} FedRenews(s: Schedule, holders: seq<string>, now: int, trace: seq<World>, acts: seq<Action>, n: nat, m: nat, r: nat)
    requires IsRun(s, Init(holders, now), trace, acts) && n < m <= |acts|
    requires WinsLease(trace[n], acts[n], r) && Fed(s, trace, acts, n, m, r) && Undisturbed(acts, n, m, r)
    requires r < |trace[n + 1].replicas| && r < |trace[m].replicas| && trace[m].replicas[r].alive
    requires Released(r, trace[n + 1].replicas[r].fence) !in trace[m].log
    ensures trace[m].replicas[r].renewing
    decreases m, 0
  {
    hide Apply, Wins, Acquirable, Reigns, Fed;
    FirstFence(s, holders, now, trace, acts, n, r);
    var start, holder, fence := Init(holders, now), trace[n].replicas[r].holder, trace[n + 1].replicas[r].fence;
    if m > n + 1 {
      Earlier(s, start, trace, acts, n, m - 1, m, r, fence);
      var k := FedNow(s, trace, acts, n, m, r);
      hide WinsLease, Init;
      FedReigns(s, holders, now, trace, acts, n, m - 1, r);
      FedRenews(s, holders, now, trace, acts, n, m - 1, r);
      RenewsAt(s, holders, now, trace, acts, m, r, holder, fence);
    }
  }

  /**
   A replica that has won the lease, and whose renewals come through at least once in every
   ttl, owns the lease under one fence until it stops its renewer or dies: no other replica
   ever finds the lease free, however the others and their stores behave.
   */
  lemma FedLeaderStays(s: Schedule, holders: seq<string>, now: int, trace: seq<World>, acts: seq<Action>, n: nat, m: nat, r: nat)
    requires IsRun(s, Init(holders, now), trace, acts) && n < m <= |acts|
    requires WinsLease(trace[n], acts[n], r) && Fed(s, trace, acts, n, m, r) && Undisturbed(acts, n, m, r)
    requires r < |trace[n + 1].replicas| && r < |trace[m].replicas| && trace[m].replicas[r].alive
    requires Released(r, trace[n + 1].replicas[r].fence) !in trace[m].log
    ensures r < |trace[n].replicas| && trace[m].replicas[r].renewing && !Acquirable(trace[m].lease, trace[m].now)
    ensures Reigns(trace[m], r, trace[n].replicas[r].holder, trace[n + 1].replicas[r].fence, trace[m].now)
  {
    hide *;
    FedReigns(s, holders, now, trace, acts, n, m, r);
    FedRenews(s, holders, now, trace, acts, n, m, r);
  }

  /** What holds of a replica at m held of it at i. */
  lemma Earlier(s: Schedule, start: World, trace: seq<World>, acts: seq<Action>, n: nat, i: nat, m: nat, r: nat, fence: nat)
    requires IsRun(s, start, trace, acts) && n <= i <= m <= |acts| && r < |trace[n].replicas| && r < |trace[m].replicas|
    requires trace[m].replicas[r].alive && Released(r, fence) !in trace[m].log
    ensures r < |trace[i].replicas| && trace[i].replicas[r].alive && trace[i].replicas[r].holder == trace[n].replicas[r].holder
    ensures Released(r, fence) !in trace[i].log
  {
    hide Apply;
    ReplicasStay(s, start, trace, acts, n, i, r);
    ReplicasStay(s, start, trace, acts, i, m, r);
    NotBefore(trace[i].log, trace[m].log, Released(r, fence));
  }
}
