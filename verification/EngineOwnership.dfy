/**
 How long a leg owns its execution: from every acquisition, renewal and proof on, the
 lease is its own for the whole ttl, whatever the other legs and the environment do.
 */
module EngineOwnership {
  import opened Wrappers
  import opened Recovery
  import opened Leases
  import opened Engine
  import G = EngineLegs
  import L = EngineLeases

  /** The lease changes hands when it has expired, is renewed for its owner, or is released by it. */
  predicate LeaseGoes(sys: System, w: World, w': World) {
    || w'.lease == w.lease
    || w.lease.None? || w.lease.value.expiresAt < w.now
    || w'.lease == Some(Lease(w.lease.value.holder, w.lease.value.fence, w.now + sys.ttl))
    || exists l :: 0 <= l < |w.legs| && w.legs[l].fence == w.lease.value.fence && Released(l) in w'.log
  }

  /** An event that says that leg l owns the lease now. */
  predicate Grants(e: Event, l: nat, fence: nat) {
    e == Acquired(l, fence) || e == Renewed(l, fence) || e == Proved(l, fence)
  }

  /** Whoever is granted the lease has it for the ttl. */
  predicate Granted(sys: System, w: World, w': World) {
    forall q | |w.log| <= q < |w'.log| && L.Fenced(w'.log[q]) ::
      var l := w'.log[q].leg;
      l < |w.legs| && w'.lease == Some(Lease(w.legs[l].holder, w'.log[q].fence, w.now + sys.ttl))
  }

  predicate Moves(sys: System, w: World, w': World) {
    w.now <= w'.now && w.log <= w'.log && LeaseGoes(sys, w, w') && Granted(sys, w, w')
  }

  lemma EnvironmentMoves(sys: System, w: World, a: Action)
    ensures Moves(sys, w, ApplyEnvironment(sys, w, a))
  {
  }

  lemma EntryMoves(sys: System, w: World, a: Action)
    ensures Moves(sys, w, ApplyEntry(sys, w, a))
  {
    hide System.Journal;
  }

  lemma RecoveryMoves(sys: System, w: World, a: Action)
    ensures Moves(sys, w, ApplyRecovery(sys, w, a))
  {
    hide ReplayVerdict, DurableReplayInput, ListsCheckpoints, ListsIntents, DeploymentGoSized;
  }

  lemma LoopMoves(sys: System, w: World, a: Action)
    ensures Moves(sys, w, ApplyLoop(sys, w, a))
  {
    hide System.Checkpoint, Advanced;
  }

  lemma TerminalMoves(sys: System, w: World, a: Action)
    ensures Moves(sys, w, ApplyTerminal(sys, w, a))
  {
    hide TerminalTool;
  }

  lemma ReleaseMoves(sys: System, w: World, l: nat, reachable: bool)
    ensures Moves(sys, w, ApplyFinish(sys, w, ReleaseLease(l, reachable)))
  {
    var w' := ApplyFinish(sys, w, ReleaseLease(l, reachable));
    if w'.lease != w.lease {
      assert w'.log[|w.log|] == Released(l);
    }
  }

  lemma FinishMoves(sys: System, w: World, a: Action)
    ensures Moves(sys, w, ApplyFinish(sys, w, a))
  {
    if a.ReleaseLease? {
      ReleaseMoves(sys, w, a.l, a.reachable);
    }
  }

  lemma ApplyMoves(sys: System, w: World, a: Action)
    ensures Moves(sys, w, Apply(sys, w, a))
  {
    hide Moves, ApplyEnvironment, ApplyEntry, ApplyRecovery, ApplyLoop, ApplyTerminal, ApplyFinish;
    EnvironmentMoves(sys, w, a);
    EntryMoves(sys, w, a);
    RecoveryMoves(sys, w, a);
    LoopMoves(sys, w, a);
    TerminalMoves(sys, w, a);
    FinishMoves(sys, w, a);
  }

  /** The fence of a leg is the one it acquired. */
  lemma FenceOf(w: World, l: nat, fence: nat)
    requires L.Inv(w) && Acquired(l, fence) in w.log
    ensures l < |w.legs| && w.legs[l].fence == fence > 0
  {
    var q :| 0 <= q < |w.log| && w.log[q] == Acquired(l, fence);
    assert w.log[q].leg < |w.legs|;
    assert L.LegLog(w.legs[l], l, w.log);
  }

  lemma GrantIsAcquired(w: World, q: nat, l: nat, fence: nat)
    requires L.Inv(w) && q < |w.log| && Grants(w.log[q], l, fence)
    ensures Acquired(l, fence) in w.log
  {
    assert L.Justified(w.log[..q], w.log[q]);
  }

  /** The lease stands as it was granted, or longer. */
  predicate Stands(w: World, holder: string, fence: nat, until: int) {
    w.lease.Some? && w.lease.value.holder == holder && w.lease.value.fence == fence && w.lease.value.expiresAt >= until
  }

  lemma StandsOn(sys: System, w: World, w': World, l: nat, holder: string, fence: nat, from: int)
    requires Moves(sys, w, w') && L.Inv(w) && Acquired(l, fence) in w.log
    requires from <= w.now <= from + sys.ttl && Stands(w, holder, fence, from + sys.ttl) && Released(l) !in w'.log
    ensures Stands(w', holder, fence, from + sys.ttl)
  {
    FenceOf(w, l, fence);
    forall m | 0 <= m < |w.legs| && w.legs[m].fence == fence
      ensures m == l
    {
    }
  }

  lemma NotBefore(log: seq<Event>, log': seq<Event>, e: Event)
    requires log <= log' && e !in log'
    ensures e !in log
  {
  }

  lemma RunInv(sys: System, holder: string, reserved: bool, now: int, trace: seq<World>, acts: seq<Action>, n: nat)
    requires IsRun(sys, Init(sys, holder, reserved, now), trace, acts) && n <= |acts|
    ensures L.Inv(trace[n])
  {
    RunIsExec(sys, Init(sys, holder, reserved, now), trace, acts, n);
    hide L.LegLog, L.History, Apply;
    L.RunHolds(sys, holder, reserved, now, acts[..n]);
  }

  /**
   In every run: from the action that grants a leg its lease on, until the ttl is over
   or that leg releases it, the leg owns the lease and nobody can acquire it.
   */
  lemma {:induction false} OwnershipLasts(sys: System, holder: string, reserved: bool, now: int, trace: seq<World>, acts: seq<Action>,
                                          n: nat, m: nat, l: nat, fence: nat)
    requires IsRun(sys, Init(sys, holder, reserved, now), trace, acts)
    requires n < m <= |acts| && |trace[n].log| < |trace[n + 1].log| && Grants(trace[n + 1].log[|trace[n].log|], l, fence)
    requires trace[m].now <= trace[n].now + sys.ttl && Released(l) !in trace[m].log
    ensures l < |trace[n].legs| && trace[n].now <= trace[m].now && Acquired(l, fence) in trace[m].log
    ensures Stands(trace[m], trace[n].legs[l].holder, fence, trace[n].now + sys.ttl)
    ensures !Acquirable(trace[m].lease, trace[m].now)
    decreases m
  {
    hide Apply, Init, L.Inv;
    OneApart(sys, Init(sys, holder, reserved, now), trace, acts, m - 1);
    ApplyMoves(sys, trace[m - 1], acts[m - 1]);
    RunInv(sys, holder, reserved, now, trace, acts, m);
    if m == n + 1 {
      GrantIsAcquired(trace[m], |trace[n].log|, l, fence);
    } else {
      RunInv(sys, holder, reserved, now, trace, acts, m - 1);
      NotBefore(trace[m - 1].log, trace[m].log, Released(l));
      OwnershipLasts(sys, holder, reserved, now, trace, acts, n, m - 1, l, fence);
      StandsOn(sys, trace[m - 1], trace[m], l, trace[n].legs[l].holder, fence, trace[n].now);
    }
  }

  lemma OneApart(sys: System, start: World, trace: seq<World>, acts: seq<Action>, i: nat)
    requires IsRun(sys, start, trace, acts) && i < |acts|
    ensures trace[i + 1] == Apply(sys, trace[i], acts[i])
  {
  }

  // ---------- an owner that renews in time ----------

  /** A renewer ends only when its leg stops it, or with a renewal that fails. */
  predicate RenewerEnds(w: World, a: Action, l: nat)
    requires l < |w.legs|
  {
    || a == StopRenewer(l) || (a.ReleaseLease? && a.l == l)
    || (a.Beat? && a.l == l && (a.answer != Answered || !Stands(w, w.legs[l].holder, w.legs[l].fence, w.now)))
  }

  /** The renewer of leg l runs on. */
  predicate RunsOn(w: World, w': World, l: nat) {
    l < |w.legs| && l < |w'.legs| && (w.legs[l].renewing ==> w'.legs[l].renewing && w'.legs[l].fence == w.legs[l].fence)
  }

  lemma EnvironmentRunsOn(sys: System, w: World, a: Action, l: nat)
    requires l < |w.legs| && !RenewerEnds(w, a, l)
    ensures RunsOn(w, ApplyEnvironment(sys, w, a), l)
  {
    hide World.PrunedRows;
  }

  lemma EntryRunsOn(sys: System, w: World, a: Action, l: nat)
    requires l < |w.legs| && G.LegOk(w.legs[l])
    ensures RunsOn(w, ApplyEntry(sys, w, a), l)
  {
    hide System.Journal, World.ResolvedKey;
  }

  lemma RecoveryRunsOn(sys: System, w: World, a: Action, l: nat)
    requires l < |w.legs| && G.LegOk(w.legs[l])
    ensures RunsOn(w, ApplyRecovery(sys, w, a), l)
  {
    hide World.PrunedRows, ListsCheckpoints, ListsIntents, DeploymentGoSized, ReplayVerdict, DurableReplayInput;
  }

  lemma LoopRunsOn(sys: System, w: World, a: Action, l: nat)
    requires l < |w.legs|
    ensures RunsOn(w, ApplyLoop(sys, w, a), l)
  {
    hide System.Checkpoint, Advanced;
  }

  lemma TerminalRunsOn(sys: System, w: World, a: Action, l: nat)
    requires l < |w.legs| && a != StopRenewer(l)
    ensures RunsOn(w, ApplyTerminal(sys, w, a), l)
  {
    hide TerminalTool, World.ResolvedKey, RenewedRow;
  }

  lemma FinishRunsOn(sys: System, w: World, a: Action, l: nat)
    requires l < |w.legs| && !(a.ReleaseLease? && a.l == l)
    ensures RunsOn(w, ApplyFinish(sys, w, a), l)
  {
    hide World.PrunedRows, World.ResolvedKey, ReleasedRow;
  }

  lemma StepRunsOn(sys: System, w: World, a: Action, l: nat)
    requires l < |w.legs| && G.LegOk(w.legs[l]) && !RenewerEnds(w, a, l)
    ensures RunsOn(w, Apply(sys, w, a), l)
  {
    hide RunsOn, G.LegOk, ApplyEnvironment, ApplyEntry, ApplyRecovery, ApplyLoop, ApplyTerminal, ApplyFinish;
    EnvironmentRunsOn(sys, w, a, l);
    EntryRunsOn(sys, w, a, l);
    RecoveryRunsOn(sys, w, a, l);
    LoopRunsOn(sys, w, a, l);
    TerminalRunsOn(sys, w, a, l);
    FinishRunsOn(sys, w, a, l);
  }

  /** At every moment up to m, the acquisition at n or an answered renewal lies at most the ttl back. */
  ghost predicate Fed(sys: System, trace: seq<World>, acts: seq<Action>, n: nat, m: nat, l: nat)
    requires |trace| == |acts| + 1 && m <= |acts|
  {
    forall i | n < i <= m :: exists k | n <= k < i :: (k == n || acts[k] == Beat(l, Answered)) && trace[i].now <= trace[k].now + sys.ttl
  }

  /** Between n and m the leg does not stop its renewer, and no renewal of it goes unanswered. */
  predicate Undisturbed(acts: seq<Action>, n: nat, m: nat, l: nat)
    requires m <= |acts|
  {
    forall i | n < i < m ::
      acts[i] != StopRenewer(l) && !(acts[i].ReleaseLease? && acts[i].l == l) && !(acts[i].Beat? && acts[i].l == l && acts[i].answer != Answered)
  }

  lemma FedNow(sys: System, trace: seq<World>, acts: seq<Action>, n: nat, m: nat, l: nat) returns (k: nat)
    requires |trace| == |acts| + 1 && n < m <= |acts| && Fed(sys, trace, acts, n, m, l)
    ensures n <= k < m && (k == n || acts[k] == Beat(l, Answered)) && trace[m].now <= trace[k].now + sys.ttl
    ensures Fed(sys, trace, acts, n, m - 1, l) && Fed(sys, trace, acts, n, k, l)
  {
    k :| n <= k < m && (k == n || acts[k] == Beat(l, Answered)) && trace[m].now <= trace[k].now + sys.ttl;
  }

  lemma Sooner(w: World, holder: string, fence: nat, until: int)
    requires Stands(w, holder, fence, until) && w.now <= until
    ensures Stands(w, holder, fence, w.now) && !Acquirable(w.lease, w.now)
  {
  }

  /** What holds of a leg at m held of it at i. */
  lemma Earlier(sys: System, start: World, trace: seq<World>, acts: seq<Action>, n: nat, i: nat, m: nat, l: nat)
    requires IsRun(sys, start, trace, acts) && n <= i <= m <= |acts| && l < |trace[n].legs| && l < |trace[m].legs|
    requires trace[m].legs[l].alive && Released(l) !in trace[m].log
    ensures l < |trace[i].legs| && trace[i].legs[l].alive && trace[i].legs[l].holder == trace[n].legs[l].holder && Released(l) !in trace[i].log
  {
    hide Apply, G.LegOk, G.Entered, G.Finishing;
    G.LegGoesOn(sys, start, trace, acts, n, i, l);
    G.LegGoesOn(sys, start, trace, acts, i, m, l);
    NotBefore(trace[i].log, trace[m].log, Released(l));
  }

  lemma BeatGrants(sys: System, w: World, l: nat, holder: string, fence: nat)
    requires l < |w.legs| && w.legs[l].alive && w.legs[l].renewing && w.legs[l].holder == holder && w.legs[l].fence == fence
    requires Stands(w, holder, fence, w.now)
    ensures var w' := Apply(sys, w, Beat(l, Answered)); |w.log| < |w'.log| && Grants(w'.log[|w.log|], l, fence)
  {
  }

  /** An answered renewal at most the ttl ago still stands. */
  lemma StandsFrom(sys: System, holder: string, reserved: bool, now: int, trace: seq<World>, acts: seq<Action>, k: nat, m: nat,
                   l: nat, owner: string, fence: nat)
    requires IsRun(sys, Init(sys, holder, reserved, now), trace, acts) && k < m <= |acts| && acts[k] == Beat(l, Answered)
    requires l < |trace[k].legs| && trace[k].legs[l].alive && trace[k].legs[l].renewing
    requires trace[k].legs[l].holder == owner && trace[k].legs[l].fence == fence && Stands(trace[k], owner, fence, trace[k].now)
    requires trace[m].now <= trace[k].now + sys.ttl && Released(l) !in trace[m].log
    ensures Stands(trace[m], owner, fence, trace[m].now) && !Acquirable(trace[m].lease, trace[m].now)
  {
    hide Apply, Init, Acquirable, Stands;
    OneApart(sys, Init(sys, holder, reserved, now), trace, acts, k);
    BeatGrants(sys, trace[k], l, owner, fence);
    hide Grants;
    OwnershipLasts(sys, holder, reserved, now, trace, acts, k, m, l, fence);
    Sooner(trace[m], owner, fence, trace[k].now + sys.ttl);
  }

  lemma RenewsAt(sys: System, holder: string, reserved: bool, now: int, trace: seq<World>, acts: seq<Action>, m: nat, l: nat, fence: nat)
    requires IsRun(sys, Init(sys, holder, reserved, now), trace, acts) && 0 < m <= |acts| && l < |trace[m - 1].legs|
    requires trace[m - 1].legs[l].renewing && trace[m - 1].legs[l].fence == fence && !RenewerEnds(trace[m - 1], acts[m - 1], l)
    ensures l < |trace[m].legs| && trace[m].legs[l].renewing && trace[m].legs[l].fence == fence
  {
    hide Apply, Init, RenewerEnds, G.LegOk;
    OneApart(sys, Init(sys, holder, reserved, now), trace, acts, m - 1);
    G.LegsAreOk(sys, holder, reserved, now, trace, acts, m - 1);
    StepRunsOn(sys, trace[m - 1], acts[m - 1], l);
  }

  /** The step acquires the lease for leg l. */
  predicate JustAcquired(w: World, w': World, l: nat, fence: nat) {
    |w'.log| == |w.log| + 1 && w'.log[|w.log|] == Acquired(l, fence)
  }

  /** Whoever acquires the lease renews it from then on. */
  predicate StartsRenewing(w: World, w': World) {
    |w'.log| == |w.log| + 1 && w'.log[|w.log|].Acquired? ==>
      var l, fence := w'.log[|w.log|].leg, w'.log[|w.log|].fence;
      l < |w.legs| && l < |w'.legs| && w'.legs[l].renewing && w'.legs[l].fence == fence && w'.legs[l].holder == w.legs[l].holder
  }

  lemma EntryStarts(sys: System, w: World, a: Action)
    ensures StartsRenewing(w, ApplyEntry(sys, w, a))
  {
    hide System.Journal, World.ResolvedKey, Acquirable;
  }

  lemma RecoveryStarts(sys: System, w: World, a: Action)
    ensures StartsRenewing(w, ApplyRecovery(sys, w, a))
  {
    hide World.PrunedRows, ListsCheckpoints, ListsIntents, DeploymentGoSized, ReplayVerdict, DurableReplayInput, Acquirable;
  }

  lemma NoOtherAcquires(sys: System, w: World, a: Action)
    ensures StartsRenewing(w, ApplyEnvironment(sys, w, a)) && StartsRenewing(w, ApplyLoop(sys, w, a))
  {
    hide World.PrunedRows, System.Checkpoint, Advanced, Holds, RenewedRow;
  }

  lemma NoLateAcquires(sys: System, w: World, a: Action)
    ensures StartsRenewing(w, ApplyTerminal(sys, w, a)) && StartsRenewing(w, ApplyFinish(sys, w, a))
  {
    hide World.PrunedRows, World.ResolvedKey, TerminalTool, Holds, RenewedRow, ReleasedRow;
  }

  lemma AcquirerRenews(sys: System, w: World, a: Action)
    ensures StartsRenewing(w, Apply(sys, w, a))
  {
    hide StartsRenewing, ApplyEnvironment, ApplyEntry, ApplyRecovery, ApplyLoop, ApplyTerminal, ApplyFinish;
    EntryStarts(sys, w, a);
    RecoveryStarts(sys, w, a);
    NoOtherAcquires(sys, w, a);
    NoLateAcquires(sys, w, a);
  }

  /** An acquisition of a run makes its leg a renewing owner. */
  lemma AcquiredAt(sys: System, start: World, trace: seq<World>, acts: seq<Action>, n: nat, l: nat, fence: nat)
    requires IsRun(sys, start, trace, acts) && n < |acts| && JustAcquired(trace[n], trace[n + 1], l, fence)
    ensures l < |trace[n].legs| && l < |trace[n + 1].legs| && trace[n + 1].legs[l].renewing
    ensures trace[n + 1].legs[l].fence == fence && trace[n + 1].legs[l].holder == trace[n].legs[l].holder
  {
    hide Apply;
    OneApart(sys, start, trace, acts, n);
    AcquirerRenews(sys, trace[n], acts[n]);
  }

  lemma {:induction false} FedStands(sys: System, holder: string, reserved: bool, now: int, trace: seq<World>, acts: seq<Action>,
                                     n: nat, m: nat, l: nat, fence: nat)
    requires IsRun(sys, Init(sys, holder, reserved, now), trace, acts) && n < m <= |acts| && JustAcquired(trace[n], trace[n + 1], l, fence)
    requires Fed(sys, trace, acts, n, m, l) && Undisturbed(acts, n, m, l)
    requires l < |trace[m].legs| && trace[m].legs[l].alive && Released(l) !in trace[m].log
    ensures l < |trace[n].legs| && !Acquirable(trace[m].lease, trace[m].now)
    ensures Stands(trace[m], trace[n].legs[l].holder, fence, trace[m].now)
    decreases m, 1
  {
    hide Apply, Init, Acquirable, Stands, Fed;
    AcquiredAt(sys, Init(sys, holder, reserved, now), trace, acts, n, l, fence);
    var k := FedNow(sys, trace, acts, n, m, l);
    if k == n {
      OwnershipLasts(sys, holder, reserved, now, trace, acts, n, m, l, fence);
      Sooner(trace[m], trace[n].legs[l].holder, fence, trace[n].now + sys.ttl);
    } else {
      Earlier(sys, Init(sys, holder, reserved, now), trace, acts, n, k, m, l);
      FedStands(sys, holder, reserved, now, trace, acts, n, k, l, fence);
      FedRenews(sys, holder, reserved, now, trace, acts, n, k, l, fence);
      StandsFrom(sys, holder, reserved, now, trace, acts, k, m, l, trace[n].legs[l].holder, fence);
    }
  }

  lemma {:induction false} FedRenews(sys: System, holder: string, reserved: bool, now: int, trace: seq<World>, acts: seq<Action>,
                                     n: nat, m: nat, l: nat, fence: nat)
    requires IsRun(sys, Init(sys, holder, reserved, now), trace, acts) && n < m <= |acts| && JustAcquired(trace[n], trace[n + 1], l, fence)
    requires Fed(sys, trace, acts, n, m, l) && Undisturbed(acts, n, m, l)
    requires l < |trace[m].legs| && trace[m].legs[l].alive && Released(l) !in trace[m].log
    ensures trace[m].legs[l].renewing && trace[m].legs[l].fence == fence
    decreases m, 0
  {
    hide Apply, Init, Acquirable, Stands, Fed;
    AcquiredAt(sys, Init(sys, holder, reserved, now), trace, acts, n, l, fence);
    if m > n + 1 {
      Earlier(sys, Init(sys, holder, reserved, now), trace, acts, n, m - 1, m, l);
      var k := FedNow(sys, trace, acts, n, m, l);
      FedStands(sys, holder, reserved, now, trace, acts, n, m - 1, l, fence);
      FedRenews(sys, holder, reserved, now, trace, acts, n, m - 1, l, fence);
      RenewsAt(sys, holder, reserved, now, trace, acts, m, l, fence);
    }
  }

  /**
   No run is taken from an owner that renews in time: from its acquisition on, as long as
   some renewal is answered in every ttl and the leg neither dies nor stops its renewer, the
   lease stays its own under one fence, and no recovery can claim the run.
   */
  lemma RenewedRunIsNotTaken(sys: System, holder: string, reserved: bool, now: int, trace: seq<World>, acts: seq<Action>,
                             n: nat, m: nat, l: nat, fence: nat)
    requires IsRun(sys, Init(sys, holder, reserved, now), trace, acts) && n < m <= |acts| && JustAcquired(trace[n], trace[n + 1], l, fence)
    requires Fed(sys, trace, acts, n, m, l) && Undisturbed(acts, n, m, l)
    requires l < |trace[m].legs| && trace[m].legs[l].alive && Released(l) !in trace[m].log
    ensures l < |trace[n].legs| && trace[m].legs[l].renewing && Stands(trace[m], trace[n].legs[l].holder, fence, trace[m].now)
    ensures forall claimer | trace[m].At(claimer, Scanned) ::
              (Apply(sys, trace[m], Claim(claimer)).At(claimer, Ended) && Apply(sys, trace[m], Claim(claimer)).lease == trace[m].lease)
  {
    hide Init, Fed;
    FedStands(sys, holder, reserved, now, trace, acts, n, m, l, fence);
    FedRenews(sys, holder, reserved, now, trace, acts, n, m, l, fence);
    forall claimer | trace[m].At(claimer, Scanned)
      ensures Apply(sys, trace[m], Claim(claimer)).At(claimer, Ended) && Apply(sys, trace[m], Claim(claimer)).lease == trace[m].lease
    {
      ClaimFails(sys, trace[m], claimer);
    }
  }

  lemma ClaimFails(sys: System, w: World, l: nat)
    requires w.At(l, Scanned) && !Acquirable(w.lease, w.now)
    ensures Apply(sys, w, Claim(l)).At(l, Ended) && Apply(sys, w, Claim(l)).lease == w.lease
  {
  }
}
