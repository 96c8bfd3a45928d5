/**
 Suspended runs: when the continuation of a parked leg can still run, and what a denial
 leaves of its run.
 */
module EngineApprovals {
  import opened Wrappers
  import opened Plans
  import opened Recovery
  import opened Leases
  import opened Engine
  import G = EngineLegs
  import S = EngineStatus
  import T = EngineTransparency

  /** The continuation of the leg can start now. */
  predicate Resumable(w: World, l: nat) {
    l < |w.legs| && w.legs[l].alive && w.legs[l].parked && w.legs[l].cursor.Some? && l in w.approved
  }

  /** Only gates ask, only answers settle. */
  predicate ApprovalsGo(w: World, w': World, a: Action) {
    if a.Gate? || a.Approve? || a.Deny? then
      && (w'.waiting == w.waiting || w'.waiting == w.waiting + {a.l} || w'.waiting == w.waiting - {a.l})
      && (a.l in w'.waiting && a.l !in w.waiting ==> a.l < |w.legs| && !G.Finishing(w.legs[a.l].phase))
      && (w'.approved == w.approved || (a.l in w.waiting && w'.approved == w.approved + {a.l}))
    else w'.waiting == w.waiting && w'.approved == w.approved
  }

  lemma EntryApprovals(sys: System, w: World, a: Action)
    ensures ApplyEntry(sys, w, a).waiting == w.waiting && ApplyEntry(sys, w, a).approved == w.approved
  {
    hide System.Journal, World.ResolvedKey, AcquiredLease, Acquirable;
  }

  lemma DecidedApprovals(w: World, l: nat, k: nat, verdict: Verdict)
    requires l < |w.legs| && w.legs[l].kind.Recovered?
    ensures Decided(w, l, k, verdict).waiting == w.waiting && Decided(w, l, k, verdict).approved == w.approved
  {
  }

  lemma RecoveryApprovals(sys: System, w: World, a: Action)
    ensures ApplyRecovery(sys, w, a).waiting == w.waiting && ApplyRecovery(sys, w, a).approved == w.approved
  {
    hide World.PrunedRows, ListsCheckpoints, ListsIntents, DeploymentGoSized, ReplayVerdict, DurableReplayInput, AcquiredLease, Acquirable, Decided;
    if a.Decide? && w.At(a.l, Deciding) && w.legs[a.l].kind.Recovered? && w.legs[a.l].snapshot.Some? {
      DecidedApprovals(w, a.l, DurableReplayInput(w.legs[a.l].snapshot.value, a.checkpoints).resumeIndex,
                       ReplayVerdict(sys.id, a.deployment, w.legs[a.l].snapshot.value, a.checkpoints, a.intents, w.legs[a.l].kind.forced));
    }
  }

  lemma TerminalApprovals(sys: System, w: World, a: Action)
    ensures ApplyTerminal(sys, w, a).waiting == w.waiting && ApplyTerminal(sys, w, a).approved == w.approved
  {
    hide TerminalTool, World.ResolvedKey, Holds, RenewedRow;
  }

  lemma FinishApprovals(sys: System, w: World, a: Action)
    ensures ApplyFinish(sys, w, a).waiting == w.waiting && ApplyFinish(sys, w, a).approved == w.approved
  {
    hide World.PrunedRows, World.ResolvedKey, ReleasedRow;
  }

  lemma ApprovalStep(sys: System, w: World, a: Action)
    ensures ApprovalsGo(w, Apply(sys, w, a), a)
  {
    hide ApplyEntry, ApplyRecovery, ApplyTerminal, ApplyFinish, System.Checkpoint, Advanced, World.PrunedRows, Holds, RenewedRow;
    EntryApprovals(sys, w, a);
    RecoveryApprovals(sys, w, a);
    TerminalApprovals(sys, w, a);
    FinishApprovals(sys, w, a);
  }

  /** What comes of a leg at its finish: it neither asks again nor parks again. */
  predicate Settles(w: World, w': World, l: nat) {
    && l < |w.legs| && l < |w'.legs| && G.Finishing(w'.legs[l].phase) && w'.legs[l].cursor == w.legs[l].cursor
    && (w'.legs[l].alive ==> w.legs[l].alive) && (w'.legs[l].parked ==> w.legs[l].parked)
    && (l in w'.waiting ==> l in w.waiting) && (l in w'.approved ==> l in w.waiting || l in w.approved)
  }

  lemma SettlesStep(w: World, w': World, a: Action, l: nat)
    requires G.Moves(w, w') && ApprovalsGo(w, w', a) && l < |w.legs| && G.Finishing(w.legs[l].phase)
    ensures Settles(w, w', l)
  {
    hide G.EventsGo, G.Entered, G.LegOk, G.Finishing;
    assert G.LegGoes(w.legs[l], w'.legs[l]);
  }

  lemma {:induction false} SettlesOn(sys: System, w: World, later: seq<Action>, l: nat)
    requires l < |w.legs| && G.Finishing(w.legs[l].phase)
    ensures Settles(w, Exec(sys, w, later), l)
    decreases |later|
  {
    hide Apply, G.Finishing, G.Moves, ApprovalsGo;
    if later != [] {
      var n := |later| - 1;
      SettlesOn(sys, w, later[..n], l);
      var before := Exec(sys, w, later[..n]);
      G.ApplyMoves(sys, before, later[n]);
      ApprovalStep(sys, before, later[n]);
      SettlesStep(before, Apply(sys, before, later[n]), later[n], l);
    }
  }

  lemma ApproveOpens(sys: System, w: World, l: nat)
    requires l < |w.legs| && w.legs[l].alive && w.legs[l].parked && w.legs[l].cursor.Some? && l in w.waiting
    ensures Resumable(Exec(sys, w, [Approve(l)]), l)
  {
    assert [Approve(l)][..0] == [];
    assert Exec(sys, w, []) == w;
  }

  lemma GateParks(sys: System, w: World, l: nat)
    requires w.Inside(l, InStep) && !w.legs[l].lost && !w.legs[l].cursor.value.resuming && G.AtPipe(w.legs[l])
    ensures var w' := Apply(sys, Apply(sys, w, Gate(l)), Suspend(l));
            && w'.At(l, Releasing) && w'.legs[l].parked && w'.legs[l].cursor == w.legs[l].cursor && l in w'.waiting
            && w'.rows == w.rows && w'.status == w.status && w'.log == w.log && w'.approved == w.approved
  {
  }

  /**
   A Pipe can be suspended at its first gated call, as long as its lease is not lost: the leg
   is parked with its value, nothing is written, and an approval lets it continue.
   */
  lemma PipesCanSuspend(sys: System, w: World, l: nat)
    requires w.Inside(l, InStep) && !w.legs[l].lost && !w.legs[l].cursor.value.resuming && G.AtPipe(w.legs[l])
    ensures var w' := Apply(sys, Apply(sys, w, Gate(l)), Suspend(l));
            && w'.At(l, Releasing) && w'.legs[l].parked && w'.legs[l].cursor == w.legs[l].cursor
            && w'.rows == w.rows && w'.status == w.status && w'.log == w.log
            && Resumable(Exec(sys, w', [Approve(l)]), l)
  {
    hide Apply, Exec, Resumable;
    GateParks(sys, w, l);
    ApproveOpens(sys, Apply(sys, Apply(sys, w, Gate(l)), Suspend(l)), l);
  }

  lemma Witnessed(sys: System, w: World, l: nat, later: seq<Action>)
    requires Resumable(Exec(sys, w, later), l)
    ensures exists acts :: Resumable(Exec(sys, w, acts), l)
  {
    hide Apply, Resumable;
  }

  lemma ParkedFacts(sys: System, holder: string, reserved: bool, now: int, trace: seq<World>, acts: seq<Action>, l: nat)
    requires IsRun(sys, Init(sys, holder, reserved, now), trace, acts) && l < |trace[|acts|].legs| && trace[|acts|].legs[l].parked
    ensures G.Finishing(trace[|acts|].legs[l].phase) && trace[|acts|].legs[l].cursor.Some?
  {
    hide Apply, Init, G.Finishing;
    G.LegsAreOk(sys, holder, reserved, now, trace, acts, |acts|);
  }

  /**
   Wherever a run has got to, the continuation of a parked leg can still come to run if and
   only if its process is alive and its approval is pending or given.
   */
  lemma ContinuationIsExact(sys: System, holder: string, reserved: bool, now: int, trace: seq<World>, acts: seq<Action>, l: nat)
    requires IsRun(sys, Init(sys, holder, reserved, now), trace, acts) && l < |trace[|acts|].legs| && trace[|acts|].legs[l].parked
    ensures (exists later :: Resumable(Exec(sys, trace[|acts|], later), l))
            <==> trace[|acts|].legs[l].alive && (l in trace[|acts|].waiting || l in trace[|acts|].approved)
  {
    var w := trace[|acts|];
    hide Apply, Init, IsRun;
    ParkedFacts(sys, holder, reserved, now, trace, acts, l);
    hide G.Finishing;
    forall later | Resumable(Exec(sys, w, later), l)
      ensures w.legs[l].alive && (l in w.waiting || l in w.approved)
    {
      SettlesOn(sys, w, later, l);
    }
    if w.legs[l].alive && l in w.approved {
      Witnessed(sys, w, l, []);
    } else if w.legs[l].alive && l in w.waiting {
      ApproveOpens(sys, w, l);
      Witnessed(sys, w, l, [Approve(l)]);
    }
  }

  lemma ResumeUnparks(sys: System, w: World, l: nat)
    requires Resumable(w, l) && G.Finishing(w.legs[l].phase)
    ensures var w' := Apply(sys, w, Resume(l));
            && |w'.legs| == |w.legs| + 1 && w'.legs[|w.legs|].kind == Resumed
            && !w'.legs[l].parked && G.Finishing(w'.legs[l].phase)
  {
  }

  lemma ResumeIsIdle(sys: System, w: World, l: nat)
    ensures !Resumable(w, l) ==> Apply(sys, w, Resume(l)) == w
  {
  }

  /** A continuation is taken up once: after its resume, no later one of the leg does anything. */
  lemma ResumesOnce(sys: System, holder: string, reserved: bool, now: int, trace: seq<World>, acts: seq<Action>, l: nat, later: seq<Action>)
    requires IsRun(sys, Init(sys, holder, reserved, now), trace, acts) && Resumable(trace[|acts|], l)
    ensures var w' := Apply(sys, trace[|acts|], Resume(l));
            && |w'.legs| == |trace[|acts|].legs| + 1 && w'.legs[|trace[|acts|].legs|].kind == Resumed
            && Apply(sys, Exec(sys, w', later), Resume(l)) == Exec(sys, w', later)
  {
    hide Apply, Init;
    ParkedFacts(sys, holder, reserved, now, trace, acts, l);
    ResumeUnparks(sys, trace[|acts|], l);
    hide G.Finishing;
    var w' := Apply(sys, trace[|acts|], Resume(l));
    SettlesOn(sys, w', later, l);
    ResumeIsIdle(sys, Exec(sys, w', later), l);
  }

  lemma DenyRefuses(sys: System, w: World, l: nat)
    requires l < |w.legs| && G.Finishing(w.legs[l].phase) && l in w.waiting && l !in w.approved
    ensures var w' := Apply(sys, w, Deny(l));
            && w' == w.(waiting := w.waiting - {l}, status := w'.status)
            && w'.status == if w.status == Running then Failed else w.status
  {
  }

  /**
   The denial of a parked leg is final: it fails the running execution and nothing else;
   the leg is never resumed, and the execution runs again only when an operator forces it.
   */
  lemma DenialIsFinal(sys: System, holder: string, reserved: bool, now: int, trace: seq<World>, acts: seq<Action>, n: nat, m: nat, l: nat)
    requires T.WellFormed(sys) && IsRun(sys, Init(sys, holder, reserved, now), trace, acts) && n < m <= |acts| && acts[n] == Deny(l)
    requires l < |trace[n].legs| && trace[n].legs[l].parked && l in trace[n].waiting && l !in trace[n].approved && trace[n].status == Running
    ensures trace[n + 1] == trace[n].(waiting := trace[n].waiting - {l}, status := Failed)
    ensures !Resumable(trace[m], l)
    ensures |trace[n].log| <= |trace[m].log| && (trace[m].status == Running ==> S.ForcedSince(trace[m], |trace[n].log|))
  {
    var start := Init(sys, holder, reserved, now);
    hide Apply, Init, T.WellFormed, S.ForcedSince;
    G.LegsAreOk(sys, holder, reserved, now, trace, acts, n);
    G.OneApart(sys, start, trace, acts, n);
    DenyRefuses(sys, trace[n], l);
    S.SettledNeedsForce(sys, holder, reserved, now, trace, acts, n + 1, m);
    hide G.Finishing, G.LegOk;
    RunContinues(sys, start, trace, acts, n + 1, m);
    SettlesOn(sys, trace[n + 1], acts[n + 1..m], l);
  }

  lemma {:induction false} RunContinues(sys: System, start: World, trace: seq<World>, acts: seq<Action>, n: nat, m: nat)
    requires IsRun(sys, start, trace, acts) && n <= m <= |acts|
    ensures trace[m] == Exec(sys, trace[n], acts[n..m])
    decreases m - n
  {
    hide Apply;
    if n < m {
      RunContinues(sys, start, trace, acts, n, m - 1);
      assert acts[n..m][..m - 1 - n] == acts[n..m - 1];
    }
  }
}
