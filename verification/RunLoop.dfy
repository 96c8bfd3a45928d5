/**
 The step loop of http_runtime.go as it runs: checkpoints written one by one, the
 continuation of a suspended step with its shifted offsets, the finish of an execution,
 and the registry of suspended continuations.
 */
module RunLoop {
  import opened Wrappers
  import opened Plans
  import opened Recovery

  /** What a step does to the value, and the scrubbing of stored values. */
  datatype Effects = Effects(run: (Step, string) -> string, redact: string -> string) {
    /** The uninterrupted left fold. */
    function Fold(steps: seq<Step>, input: string): string {
      if steps == [] then input else run(steps[|steps| - 1], Fold(steps[..|steps| - 1], input))
    }

    function Checkpoint(index: nat, output: string): RunCheckpoint {
      RunCheckpoint(index, redact(output), redact(output) != output)
    }

    /** The checkpoints after the first n steps of a loop with the given base. */
    function Written(m: map<nat, RunCheckpoint>, steps: seq<Step>, input: string, base: nat, n: nat): map<nat, RunCheckpoint>
      requires n <= |steps|
    {
      if n == 0 then m
      else Written(m, steps, input, base, n - 1)[base + n - 1 := Checkpoint(base + n - 1, Fold(steps[..n], input))]
    }

    /** The first n steps as they begin. */
    function Begun(steps: seq<Step>, input: string, base: nat, position: nat, n: nat): (begun: seq<Started>)
      requires n <= |steps|
      ensures |begun| == n
    {
      if n == 0 then []
      else Begun(steps, input, base, position, n - 1)
             + [Started(base + n - 1, position + n - 1, steps[n - 1], Fold(steps[..n - 1], input))]
    }
  }

  lemma {:induction false} FoldJoins(e: Effects, before: seq<Step>, after: seq<Step>, input: string)
    ensures e.Fold(before + after, input) == e.Fold(after, e.Fold(before, input))
    decreases |after|
  {
    if after == [] {
      assert before + after == before;
    } else {
      var n := |after| - 1;
      FoldJoins(e, before, after[..n], input);
      assert (before + after)[..|before + after| - 1] == before + after[..n];
    }
  }

  lemma NoStepYet(e: Effects, m: map<nat, RunCheckpoint>, steps: seq<Step>, input: string, base: nat, position: nat)
    ensures e.Fold(steps[..0], input) == input && e.Written(m, steps, input, base, 0) == m && e.Begun(steps, input, base, position, 0) == []
  {
  }

  lemma OneStepMore(e: Effects, m: map<nat, RunCheckpoint>, steps: seq<Step>, input: string, base: nat, position: nat, i: nat)
    requires i < |steps|
    ensures var current := e.Fold(steps[..i], input);
            var output := e.run(steps[i], current);
            && e.Fold(steps[..i + 1], input) == output
            && e.Written(m, steps, input, base, i + 1) == e.Written(m, steps, input, base, i)[base + i := e.Checkpoint(base + i, output)]
            && e.Begun(steps, input, base, position, i + 1)
                 == e.Begun(steps, input, base, position, i) + [Started(base + i, position + i, steps[i], current)]
  {
    assert steps[..i + 1][..i] == steps[..i];
  }

  /** How one step comes out: done, failed, suspended, or done with a checkpoint that could not be written. */
  datatype StepEnd = Done | Fails | Suspends | Unwritten

  datatype RunEnd =
    | Completed(output: string)
    | Failed
    | Suspended(continuation: Continuation)

  /** The resume closure of a suspended step: what it captured. */
  datatype Continuation = Continuation(step: Step, remaining: seq<Step>, index: nat, base: nat, position: nat, current: string)

  /** A started step: its checkpoint index, the position in its namespace, its input. */
  datatype Started = Started(index: nat, position: nat, step: Step, input: string)

  class Journal {
    const effects: Effects
    var checkpoints: map<nat, RunCheckpoint>
    var started: seq<Started>

    constructor (effects: Effects)
      ensures this.effects == effects && checkpoints == map[] && started == []
    {
      this.effects, checkpoints, started := effects, map[], [];
    }

    /** The loop of runStepsResult; `ends` says how each step comes out. */
    method RunStepsResult(steps: seq<Step>, input: string, base: nat, position: nat, ends: nat -> StepEnd)
      returns (end: RunEnd, ghost n: nat)
      modifies this
      ensures n <= |steps| && (forall i | 0 <= i < n :: ends(i) == Done)
      ensures checkpoints == effects.Written(old(checkpoints), steps, input, base, n)
      ensures started == old(started) + effects.Begun(steps, input, base, position, if n < |steps| then n + 1 else n)
      ensures end.Completed? ==> n == |steps| && end.output == effects.Fold(steps, input)
      ensures end.Failed? ==> n < |steps| && (ends(n) == Fails || ends(n) == Unwritten)
      ensures end.Suspended? ==>
                && n < |steps| && ends(n) == Suspends
                && end.continuation == Continuation(steps[n], steps[n + 1..], n, base, position, effects.Fold(steps[..n], input))
    {
      hide *;
      var current := input;
      n := 0;
      NoStepYet(effects, checkpoints, steps, input, base, position);
      for i := 0 to |steps|
        invariant n == i && current == effects.Fold(steps[..i], input)
        invariant forall j | 0 <= j < i :: ends(j) == Done
        invariant checkpoints == effects.Written(old(checkpoints), steps, input, base, i)
        invariant started == old(started) + effects.Begun(steps, input, base, position, i)
      {
        OneStepMore(effects, old(checkpoints), steps, input, base, position, i);
        assert old(started) + (effects.Begun(steps, input, base, position, i) + [Started(base + i, position + i, steps[i], current)])
            == old(started) + effects.Begun(steps, input, base, position, i) + [Started(base + i, position + i, steps[i], current)];
        started := started + [Started(base + i, position + i, steps[i], current)];
        if ends(i) == Suspends {
          return Suspended(Continuation(steps[i], steps[i + 1..], i, base, position, current)), n;
        }
        if ends(i) == Fails || ends(i) == Unwritten {
          return Failed, n;
        }
        current := effects.run(steps[i], current);
        checkpoints := checkpoints[base + i := effects.Checkpoint(base + i, current)];
        n := n + 1;
      }
      assert steps[..|steps|] == steps;
      return Completed(current), n;
    }

    /**
     The resume closure: `first` says how the suspended step comes out. Done, it is
     checkpointed under its own index, and the remaining steps run in a fresh loop with
     both offsets moved behind it; gated once more it is no suspended plan and fails.
     */
    method Resume(c: Continuation, first: StepEnd, ends: nat -> StepEnd) returns (end: RunEnd, ghost n: nat)
      modifies this
      ensures n <= |c.remaining| && (forall i | 0 <= i < n :: ends(i) == Done)
      ensures first != Done ==> end == Failed && n == 0 && checkpoints == old(checkpoints) && started == old(started)
      ensures first == Done ==>
                checkpoints == effects.Written(old(checkpoints), [c.step] + c.remaining, c.current, c.base + c.index, n + 1)
      ensures first == Done ==>
                started == old(started) + effects.Begun(c.remaining, effects.run(c.step, c.current), c.base + c.index + 1,
                                                        c.position + c.index + 1, if n < |c.remaining| then n + 1 else n)
      ensures end.Completed? ==> first == Done && n == |c.remaining| && end.output == effects.Fold([c.step] + c.remaining, c.current)
      ensures end.Failed? && first == Done ==> n < |c.remaining| && (ends(n) == Fails || ends(n) == Unwritten)
      ensures end.Suspended? ==>
                && first == Done && n < |c.remaining| && ends(n) == Suspends
                && var next := end.continuation;
                   && next.step == c.remaining[n] && next.remaining == c.remaining[n + 1..]
                   && next.base + next.index == c.base + c.index + 1 + n
                   && next.position + next.index == c.position + c.index + 1 + n
                   && next.current == effects.Fold(([c.step] + c.remaining)[..n + 1], c.current)
    {
      if first != Done {
        return Failed, 0;
      }
      var output := effects.run(c.step, c.current);
      checkpoints := checkpoints[c.base + c.index := effects.Checkpoint(c.base + c.index, output)];
      if c.remaining == [] {
        ResumedFold(effects, c, 0);
        ResumedWrites(effects, c, old(checkpoints), 0);
        assert [c.step] + c.remaining == ([c.step] + c.remaining)[..1];
        return Completed(output), 0;
      }
      end, n := RunStepsResult(c.remaining, output, c.base + c.index + 1, c.position + c.index + 1, ends);
      ResumedFold(effects, c, n);
      ResumedWrites(effects, c, old(checkpoints), n);
      assert n == |c.remaining| ==> c.remaining[..n] == c.remaining && ([c.step] + c.remaining)[..n + 1] == [c.step] + c.remaining;
    }
  }

  lemma {:induction false} ResumedWrites(e: Effects, c: Continuation, before: map<nat, RunCheckpoint>, n: nat)
    requires n <= |c.remaining|
    ensures var index := c.base + c.index;
            var output := e.run(c.step, c.current);
            e.Written(before, [c.step] + c.remaining, c.current, index, n + 1)
              == e.Written(before[index := e.Checkpoint(index, output)], c.remaining, output, index + 1, n)
  {
    ResumedFold(e, c, n);
    var all := [c.step] + c.remaining;
    if n == 0 {
      assert e.Written(before, all, c.current, c.base + c.index, 0) == before;
    } else {
      ResumedWrites(e, c, before, n - 1);
    }
  }

  /** What a written prefix means: exactly the checkpoints of the fold, all others as before. */
  lemma {:induction false} WrittenIsPrefix(e: Effects, before: map<nat, RunCheckpoint>, steps: seq<Step>, input: string,
                                           base: nat, n: nat, k: nat)
    requires n <= |steps|
    ensures var after := e.Written(before, steps, input, base, n);
            if base <= k < base + n then k in after && after[k] == e.Checkpoint(k, e.Fold(steps[..k - base + 1], input))
            else (k in after <==> k in before) && (k in before ==> after[k] == before[k])
  {
    if n > 0 {
      WrittenIsPrefix(e, before, steps, input, base, n - 1, k);
    }
  }

  lemma ResumedFold(e: Effects, c: Continuation, i: nat)
    requires i <= |c.remaining|
    ensures e.Fold(([c.step] + c.remaining)[..i + 1], c.current) == e.Fold(c.remaining[..i], e.run(c.step, c.current))
  {
    assert ([c.step] + c.remaining)[..i + 1] == [c.step] + c.remaining[..i];
    assert [c.step][..0] == [];
    assert e.Fold([c.step], c.current) == e.run(c.step, e.Fold([], c.current));
    FoldJoins(e, [c.step], c.remaining[..i], c.current);
  }

  /**
   A run that is suspended once and then resumed to its end comes to the fold of the
   original steps, and its continuation stands where the original loop stood.
   */
  lemma SuspensionIsTransparent(e: Effects, steps: seq<Step>, input: string, n: nat)
    requires n < |steps|
    ensures e.Fold([steps[n]] + steps[n + 1..], e.Fold(steps[..n], input)) == e.Fold(steps, input)
  {
    FoldJoins(e, steps[..n], [steps[n]] + steps[n + 1..], input);
    assert steps == steps[..n] + ([steps[n]] + steps[n + 1..]);
  }

  // ---------- finishing an execution ----------

  datatype Status = Running | CompletedStatus | FailedStatus

  datatype Outcome = Pending | Succeeded | FailedOutcome

  datatype Write = KeyWrite(success: bool) | EventWrite(completed: bool) | StateWrite(status: Status) | PruneWrite

  /** The writes of a finish, in their order. */
  function FinishWrites(completed: bool, triggerSuccess: bool, resolveOk: bool, emitOk: bool, saveOk: bool, pruneOk: bool): seq<Write> {
    (if resolveOk then [KeyWrite(triggerSuccess)] else [])
    + (if emitOk then [EventWrite(completed)] else [])
    + (if saveOk then [StateWrite(if completed then CompletedStatus else FailedStatus)] else [])
    + (if resolveOk && emitOk && saveOk && completed && pruneOk then [PruneWrite] else [])
  }

  /** Only a pending reservation is resolved. */
  function ResolvedKey(key: Option<Outcome>, success: bool): Option<Outcome> {
    if key == Some(Pending) then Some(if success then Succeeded else FailedOutcome) else key
  }

  /** The store's rows of one execution that a finish may write, and the writes in their order. */
  class Execution {
    var status: Status
    var key: Option<Outcome>
    var journaled: bool
    var writes: seq<Write>

    constructor (key: Option<Outcome>)
      ensures status == Running && this.key == key && journaled && writes == []
    {
      status, this.key, journaled, writes := Running, key, true, [];
    }

    /** Only a pending reservation is resolved. */
    method ResolveTriggerIdempotency(success: bool, ok: bool)
      modifies this`key, this`writes
      ensures key == if ok then ResolvedKey(old(key), success) else old(key)
      ensures writes == if ok then old(writes) + [KeyWrite(success)] else old(writes)
    {
      if ok {
        writes := writes + [KeyWrite(success)];
        if key == Some(Pending) {
          key := Some(if success then Succeeded else FailedOutcome);
        }
      }
    }

    /**
     finishPipelineExecutionWithTriggerOutcome, in the order of its writes; the answers
     say which store calls succeed. The journal goes only behind everything else.
     */
    method Finish(completed: bool, triggerSuccess: bool, resolveOk: bool, emitOk: bool, saveOk: bool, pruneOk: bool)
      returns (ok: bool)
      requires completed ==> triggerSuccess
      modifies this
      ensures key == if resolveOk then ResolvedKey(old(key), triggerSuccess) else old(key)
      ensures status == if saveOk then (if completed then CompletedStatus else FailedStatus) else old(status)
      ensures ok <==> resolveOk && emitOk && saveOk
      ensures journaled == (old(journaled) && !(ok && completed && pruneOk))
      ensures writes == old(writes) + FinishWrites(completed, triggerSuccess, resolveOk, emitOk, saveOk, pruneOk)
      ensures old(key) == Some(Succeeded) ==> key == Some(Succeeded)
      ensures !journaled && old(journaled) ==> status == CompletedStatus && key != Some(Pending)
    {
      ResolveTriggerIdempotency(triggerSuccess, resolveOk);
      if emitOk {
        writes := writes + [EventWrite(completed)];
      }
      if saveOk {
        status := if completed then CompletedStatus else FailedStatus;
        writes := writes + [StateWrite(status)];
      }
      ok := resolveOk && emitOk && saveOk;
      if ok && completed && pruneOk {
        journaled := false;
        writes := writes + [PruneWrite];
      }
    }
  }

  // ---------- suspended continuations ----------

  class ApprovalResumeRegistry {
    var resumes: map<string, Continuation>

    constructor ()
      ensures resumes == map[]
    {
      resumes := map[];
    }

    method Store(approvalID: string, resume: Continuation)
      modifies this
      ensures resumes == if approvalID == "" then old(resumes) else old(resumes)[approvalID := resume]
    {
      if approvalID == "" {
        return;
      }
      resumes := resumes[approvalID := resume];
    }

    /** A continuation is handed out once. */
    method Take(approvalID: string) returns (resume: Option<Continuation>)
      modifies this
      ensures resume == if approvalID in old(resumes) && approvalID != "" then Some(old(resumes)[approvalID]) else None
      ensures resume.Some? ==> approvalID !in resumes && resumes == old(resumes) - {approvalID}
      ensures resume.None? ==> resumes == old(resumes)
    {
      if approvalID == "" {
        return None;
      }
      if approvalID in resumes {
        resume := Some(resumes[approvalID]);
        resumes := resumes - {approvalID};
      } else {
        resume := None;
      }
    }

    /** A continuation that cannot be started goes back into the registry. */
    method StartApprovedResume(approvalID: string, starts: bool) returns (started: Option<Continuation>)
      modifies this
      ensures started.Some? <==> starts && approvalID != "" && approvalID in old(resumes)
      ensures started.Some? ==> started.value == old(resumes)[approvalID] && resumes == old(resumes) - {approvalID}
      ensures started.None? ==> resumes == old(resumes)
    {
      var resume := Take(approvalID);
      if resume.None? {
        return None;
      }
      if !starts {
        Store(approvalID, resume.value);
        return None;
      }
      return resume;
    }
  }
}
