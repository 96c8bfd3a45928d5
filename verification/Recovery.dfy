/**
 The replay policy of durable_recovery.go: which plan a journal row belongs to,
 where a replay resumes and with which value, and what forbids it.
 */
module Recovery {
  import opened Wrappers
  import opened Plans
  import opened PlanHash
  import opened Namespaces

  datatype RunJournal = RunJournal(planKey: string, planHash: string, input: string, replayUnsafe: bool)

  datatype RunCheckpoint = RunCheckpoint(stepIndex: nat, output: string, replayUnsafe: bool)

  datatype Effect = ReadOnly | Idempotent | SideEffecting

  datatype ToolIntent = ToolIntent(stepIndex: nat, effect: Effect, completed: bool)

  /** What plan lookup needs to know of the recovering process. */
  datatype Deployment = Deployment(plans: seq<Plan>, build: string)

  /** The fixed functions of the system: digest, URI display. */
  datatype Identity = Identity(digest: string -> string, display: string -> string) {
    function Key(plan: Plan): string {
      DurablePlanKey(display, plan.trigger)
    }

    function Hash(plan: Plan, build: string): string {
      DurablePlanHash(digest, plan, build)
    }

    predicate Exact(plan: Plan, build: string, journal: RunJournal) {
      Key(plan) == journal.planKey && Hash(plan, build) == journal.planHash
    }
  }

  // ---------- plan lookup ----------

  function FirstExact(id: Identity, plans: seq<Plan>, build: string, journal: RunJournal): Option<Plan> {
    if plans == [] then None
    else if id.Exact(plans[0], build, journal) then Some(plans[0])
    else FirstExact(id, plans[1..], build, journal)
  }

  function FirstKeyed(id: Identity, plans: seq<Plan>, journal: RunJournal): Option<Plan> {
    if plans == [] then None
    else if id.Key(plans[0]) == journal.planKey then Some(plans[0])
    else FirstKeyed(id, plans[1..], journal)
  }

  /** An exact key-and-hash match wherever it stands, otherwise the first key match. */
  function PlanForJournal(id: Identity, d: Deployment, journal: RunJournal): Option<Plan> {
    var exact := FirstExact(id, d.plans, d.build, journal);
    if exact.Some? then exact else FirstKeyed(id, d.plans, journal)
  }

  /** durablePlanForJournal, as its loop runs. */
  method DurablePlanForJournal(id: Identity, d: Deployment, journal: RunJournal) returns (found: Option<Plan>)
    ensures found == PlanForJournal(id, d, journal)
  {
    var keyMatch: Option<Plan> := None;
    var i := 0;
    assert d.plans[0..] == d.plans;
    while i < |d.plans|
      invariant 0 <= i <= |d.plans|
      invariant FirstExact(id, d.plans, d.build, journal) == FirstExact(id, d.plans[i..], d.build, journal)
      invariant FirstKeyed(id, d.plans, journal) == if keyMatch.Some? then keyMatch else FirstKeyed(id, d.plans[i..], journal)
    {
      var plan := d.plans[i];
      assert d.plans[i..][1..] == d.plans[i + 1..];
      i := i + 1;
      if id.Key(plan) != journal.planKey {
        continue;
      }
      if id.Hash(plan, d.build) == journal.planHash {
        return Some(plan);
      }
      if keyMatch.None? {
        keyMatch := Some(plan);
      }
    }
    return keyMatch;
  }

  lemma {:induction false} FirstExactFinds(id: Identity, plans: seq<Plan>, build: string, journal: RunJournal)
    ensures FirstExact(id, plans, build, journal).Some? <==> exists plan :: plan in plans && id.Exact(plan, build, journal)
    ensures FirstExact(id, plans, build, journal).Some? ==>
              var plan := FirstExact(id, plans, build, journal).value; plan in plans && id.Exact(plan, build, journal)
  {
    if plans != [] {
      FirstExactFinds(id, plans[1..], build, journal);
      assert forall plan :: plan in plans <==> plan == plans[0] || plan in plans[1..];
    }
  }

  // ---------- where a replay resumes ----------

  datatype ReplayPoint = ReplayPoint(resumeIndex: nat, input: string, replayUnsafe: bool)

  function DurableReplayInput(journal: RunJournal, checkpoints: seq<RunCheckpoint>): ReplayPoint {
    if checkpoints == [] then ReplayPoint(0, journal.input, journal.replayUnsafe)
    else
      var last := checkpoints[|checkpoints| - 1];
      ReplayPoint(last.stepIndex + 1, last.output, last.replayUnsafe)
  }

  predicate DurableRunClientGone(plan: Plan) {
    plan.terminal.kind == TerminalReply && (plan.terminal.sse || !plan.terminal.async)
  }

  // ---------- intents ----------

  predicate Blocks(intent: ToolIntent, resumeIndex: nat) {
    intent.stepIndex >= resumeIndex && (!intent.completed || intent.effect != Idempotent)
  }

  /** durableReplayBlockingIntent: the first intent that forbids an automatic replay. */
  method DurableReplayBlockingIntent(intents: seq<ToolIntent>, resumeIndex: nat) returns (found: Option<ToolIntent>)
    ensures found.None? <==> forall intent | intent in intents :: !Blocks(intent, resumeIndex)
    ensures found.Some? ==> exists i | 0 <= i < |intents| ::
              found.value == intents[i] && Blocks(intents[i], resumeIndex)
              && forall j | 0 <= j < i :: !Blocks(intents[j], resumeIndex)
  {
    var i := 0;
    while i < |intents|
      invariant 0 <= i <= |intents|
      invariant forall j | 0 <= j < i :: !Blocks(intents[j], resumeIndex)
    {
      var intent := intents[i];
      if intent.stepIndex >= resumeIndex {
        if !intent.completed {
          assert intent in intents && Blocks(intent, resumeIndex);
          return Some(intent);
        }
        if intent.effect != Idempotent {
          assert intent in intents && Blocks(intent, resumeIndex);
          return Some(intent);
        }
      }
      i := i + 1;
    }
    assert forall intent | intent in intents :: exists j | 0 <= j < |intents| :: intents[j] == intent;
    return None;
  }

  // ---------- the verdict on one claimed run ----------

  datatype Verdict =
    | PlanMissing
    | PlanHashMismatch
    | ClientGone
    | ReplayUnsafe
    | Indeterminate
    | Replay(plan: Plan, point: ReplayPoint)

  function ReplayVerdict(id: Identity, d: Deployment, journal: RunJournal, checkpoints: seq<RunCheckpoint>,
                         intents: seq<ToolIntent>, force: bool): Verdict {
    match PlanForJournal(id, d, journal)
    case None => PlanMissing
    case Some(plan) =>
      if id.Hash(plan, d.build) != journal.planHash then PlanHashMismatch
      else if DurableRunClientGone(plan) then ClientGone
      else
        var point := DurableReplayInput(journal, checkpoints);
        if point.replayUnsafe then ReplayUnsafe
        else if !force && exists i | 0 <= i < |intents| :: Blocks(intents[i], point.resumeIndex) then Indeterminate
        else Replay(plan, point)
  }

  /** The checks of recoverClaimedDurableRun in the order in which they run. */
  method RecoverClaimedDurableRun(id: Identity, d: Deployment, journal: RunJournal, checkpoints: seq<RunCheckpoint>,
                                  intents: seq<ToolIntent>, force: bool) returns (verdict: Verdict)
    ensures verdict == ReplayVerdict(id, d, journal, checkpoints, intents, force)
  {
    var plan := DurablePlanForJournal(id, d, journal);
    if plan.None? {
      return PlanMissing;
    }
    if id.Hash(plan.value, d.build) != journal.planHash {
      return PlanHashMismatch;
    }
    if DurableRunClientGone(plan.value) {
      return ClientGone;
    }
    var point := DurableReplayInput(journal, checkpoints);
    if point.replayUnsafe {
      return ReplayUnsafe;
    }
    if !force {
      var blocking := DurableReplayBlockingIntent(intents, point.resumeIndex);
      if blocking.Some? {
        return Indeterminate;
      }
    }
    return Replay(plan.value, point);
  }

  // ---------- replay only under an identical contract ----------

  ghost predicate DeploymentGoSized(d: Deployment) {
    forall plan | plan in d.plans :: GoSized(PlanFields(plan, d.build))
  }

  /** Whatever lookup returns with the journaled hash is the journaled plan of the journaled build. */
  lemma LookupFindsIdenticalPlan(id: Identity, d: Deployment, journal: RunJournal, plan: Plan, build: string)
    requires CollisionFree(id.digest) && id.Exact(plan, build, journal)
    requires GoSized(PlanFields(plan, build)) && DeploymentGoSized(d)
    ensures var found := PlanForJournal(id, d, journal);
            && (found.Some? && id.Hash(found.value, d.build) == journal.planHash <==> plan in d.plans && build == d.build)
            && (found.Some? && id.Hash(found.value, d.build) == journal.planHash ==> found.value == plan)
  {
    hide PlanFields, GoSized, DurablePlanKey;
    FirstExactFinds(id, d.plans, d.build, journal);
    forall candidate | candidate in d.plans && id.Hash(candidate, d.build) == journal.planHash
      ensures candidate == plan && build == d.build
    {
      FingerprintIdentifiesPlan(id.digest, candidate, d.build, plan, build);
    }
    KeyedIsDeployed(id, d.plans, journal);
  }

  /**
   A run passes the plan checks if and only if the recovering process has the
   journaled plan itself and the same worker build; whenever it is replayed, it is
   replayed with that plan.
   */
  lemma ReplayOnlyIdenticalContract(id: Identity, d: Deployment, journal: RunJournal, checkpoints: seq<RunCheckpoint>,
                                    intents: seq<ToolIntent>, force: bool, plan: Plan, build: string)
    requires CollisionFree(id.digest) && id.Exact(plan, build, journal)
    requires GoSized(PlanFields(plan, build)) && DeploymentGoSized(d)
    ensures var verdict := ReplayVerdict(id, d, journal, checkpoints, intents, force);
            && (verdict.PlanMissing? || verdict.PlanHashMismatch? <==> !(plan in d.plans && build == d.build))
            && (verdict.Replay? ==> verdict.plan == plan && plan in d.plans && build == d.build)
  {
    hide PlanFields, DurablePlanKey, PlanForJournal;
    LookupFindsIdenticalPlan(id, d, journal, plan, build);
  }

  lemma {:induction false} KeyedIsDeployed(id: Identity, plans: seq<Plan>, journal: RunJournal)
    ensures FirstKeyed(id, plans, journal).Some? ==> FirstKeyed(id, plans, journal).value in plans
  {
    if plans != [] {
      KeyedIsDeployed(id, plans[1..], journal);
    }
  }

  lemma {:induction false} FirstKeyedFinds(id: Identity, plans: seq<Plan>, journal: RunJournal)
    ensures FirstKeyed(id, plans, journal).Some? <==> exists plan :: plan in plans && id.Key(plan) == journal.planKey
  {
    if plans != [] {
      FirstKeyedFinds(id, plans[1..], journal);
      assert forall plan :: plan in plans <==> plan == plans[0] || plan in plans[1..];
    }
  }

  /** Some deployed plan has the trigger. */
  ghost predicate Served(display: string -> string, plans: seq<Plan>, t: Trigger) {
    exists plan :: plan in plans && SameTrigger(display, plan.trigger, t)
  }

  ghost predicate VerbsAreWords(plans: seq<Plan>) {
    forall plan | plan in plans :: VerbIsWord(plan.trigger)
  }

  lemma PlanIsServed(id: Identity, d: Deployment, journal: RunJournal, plan: Plan)
    requires id.Key(plan) == journal.planKey && VerbIsWord(plan.trigger) && VerbsAreWords(d.plans)
    ensures PlanForJournal(id, d, journal).Some? <==> Served(id.display, d.plans, plan.trigger)
  {
    hide DurablePlanKey, SameTrigger, VerbIsWord;
    FirstExactFinds(id, d.plans, d.build, journal);
    FirstKeyedFinds(id, d.plans, journal);
    forall other | other in d.plans
      ensures id.Key(other) == journal.planKey <==> SameTrigger(id.display, other.trigger, plan.trigger)
    {
      KeySeparates(id.display, other.trigger, plan.trigger);
    }
  }

  /** Where the replay of a run would begin: behind its last checkpoint. */
  function ResumesAt(checkpoints: seq<RunCheckpoint>): nat {
    if checkpoints == [] then 0 else checkpoints[|checkpoints| - 1].stepIndex + 1
  }

  /**
   The verdict on the run of a plan, on the fields of the plan and the rows alone: no plan
   with its trigger; another plan or build; a synchronous or streamed Reply, whose client
   is gone; a redacted resume value; an open or non-idempotent intent at or behind the
   resume index, unless forced; else a replay with the stored value.
   */
  lemma VerdictInFull(id: Identity, d: Deployment, journal: RunJournal, checkpoints: seq<RunCheckpoint>,
                      intents: seq<ToolIntent>, force: bool, plan: Plan, build: string)
    requires CollisionFree(id.digest) && id.Exact(plan, build, journal)
    requires GoSized(PlanFields(plan, build)) && DeploymentGoSized(d) && VerbIsWord(plan.trigger) && VerbsAreWords(d.plans)
    ensures var k, last := ResumesAt(checkpoints), |checkpoints| - 1;
            ReplayVerdict(id, d, journal, checkpoints, intents, force) ==
              if !Served(id.display, d.plans, plan.trigger) then PlanMissing
              else if plan !in d.plans || build != d.build then PlanHashMismatch
              else if plan.terminal.kind == TerminalReply && (plan.terminal.sse || !plan.terminal.async) then ClientGone
              else if (if checkpoints == [] then journal.replayUnsafe else checkpoints[last].replayUnsafe) then ReplayUnsafe
              else if !force && exists i | 0 <= i < |intents| ::
                        intents[i].stepIndex >= k && (!intents[i].completed || intents[i].effect == SideEffecting || intents[i].effect == ReadOnly)
              then Indeterminate
              else Verdict.Replay(plan, ReplayPoint(k, if checkpoints == [] then journal.input else checkpoints[last].output, false))
  {
    hide PlanFields, DurablePlanKey, PlanForJournal, Served, VerbsAreWords, VerbIsWord, GoSized;
    PlanIsServed(id, d, journal, plan);
    LookupFindsIdenticalPlan(id, d, journal, plan, build);
    BlockingFields(intents, ResumesAt(checkpoints));
  }

  lemma BlockingFields(intents: seq<ToolIntent>, k: nat)
    ensures (exists i | 0 <= i < |intents| :: Blocks(intents[i], k)) <==>
            (exists i | 0 <= i < |intents| ::
               intents[i].stepIndex >= k && (!intents[i].completed || intents[i].effect == SideEffecting || intents[i].effect == ReadOnly))
  {
    forall i | 0 <= i < |intents|
      ensures Blocks(intents[i], k) <==>
              (intents[i].stepIndex >= k && (!intents[i].completed || intents[i].effect == SideEffecting || intents[i].effect == ReadOnly))
    {
    }
  }
}
