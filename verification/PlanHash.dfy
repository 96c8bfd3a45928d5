/**
 The plan fingerprint of durable_runs.go. The bytes fed to the hash are a
 sequence of length-prefixed fields; `PlanFields` is that sequence and `Frames`
 its byte encoding. The lemmas show that the encoding loses nothing.
 */
module PlanHash {
  import opened Wrappers
  import opened Text
  import opened Plans

  // ---------- length-prefixed fields ----------

  function Pow256(k: nat): (p: nat)
    ensures p > 0
  {
    if k == 0 then 1 else 256 * Pow256(k - 1)
  }

  /** binary.BigEndian.PutUint64 for width 8. */
  function BigEndian(n: nat, width: nat): (s: string)
    ensures |s| == width
  {
    if width == 0 then [] else BigEndian(n / 256, width - 1) + [(n % 256) as char]
  }

  function Frame(field: string): string {
    BigEndian(|field|, 8) + field
  }

  function Frames(fields: seq<string>): string {
    if fields == [] then [] else Frame(fields[0]) + Frames(fields[1..])
  }

  /** Every field has a length that an unsigned 64-bit size can hold, as every Go string has. */
  ghost predicate GoSized(fields: seq<string>) {
    forall i | 0 <= i < |fields| :: |fields[i]| < Pow256(8)
  }

  /** What bytes say when the most significant one goes first. */
  function BytesValue(s: string): nat {
    if s == "" then 0 else 256 * BytesValue(s[..|s| - 1]) + s[|s| - 1] as nat
  }

  lemma {:induction false} BigEndianReads(n: nat, width: nat)
    requires n < Pow256(width)
    ensures BytesValue(BigEndian(n, width)) == n
  {
    if width > 0 {
      var s := BigEndian(n, width);
      assert s[..|s| - 1] == BigEndian(n / 256, width - 1);
      BigEndianReads(n / 256, width - 1);
    }
  }

  lemma BigEndianInjective(m: nat, n: nat, width: nat)
    requires m < Pow256(width) && n < Pow256(width)
    requires BigEndian(m, width) == BigEndian(n, width)
    ensures m == n
  {
    BigEndianReads(m, width);
    BigEndianReads(n, width);
  }

  lemma {:induction false} FramesAppend(xs: seq<string>, ys: seq<string>)
    ensures Frames(xs + ys) == Frames(xs) + Frames(ys)
  {
    if xs == [] {
      assert xs + ys == ys;
    } else {
      assert (xs + ys)[1..] == xs[1..] + ys;
      FramesAppend(xs[1..], ys);
    }
  }

  /** Length prefixes leave no delimiter collision: the fields can be read back. */
  lemma {:induction false} FramesInjective(xs: seq<string>, ys: seq<string>)
    requires GoSized(xs) && GoSized(ys)
    requires Frames(xs) == Frames(ys)
    ensures xs == ys
  {
    if xs != [] && ys != [] {
      var x, y := xs[0], ys[0];
      Associate(BigEndian(|x|, 8), x, Frames(xs[1..]));
      Associate(BigEndian(|y|, 8), y, Frames(ys[1..]));
      Split(BigEndian(|x|, 8), BigEndian(|y|, 8), x + Frames(xs[1..]), y + Frames(ys[1..]));
      BigEndianInjective(|x|, |y|, 8);
      Split(x, y, Frames(xs[1..]), Frames(ys[1..]));
      FramesInjective(xs[1..], ys[1..]);
    }
  }

  lemma Split<T>(a: seq<T>, b: seq<T>, r: seq<T>, s: seq<T>)
    requires |a| == |b| && a + r == b + s
    ensures a == b && r == s
  {
    assert a == (a + r)[..|a|] && b == (b + s)[..|b|];
    assert r == (a + r)[|a|..] && s == (b + s)[|b|..];
  }

  lemma Associate<T>(a: seq<T>, b: seq<T>, c: seq<T>)
    ensures (a + b) + c == a + (b + c)
  {
  }

  // ---------- fields of a plan ----------

  function Each<T>(f: T -> seq<string>, xs: seq<T>): seq<string> {
    if xs == [] then [] else f(xs[0]) + Each(f, xs[1..])
  }

  function Counted<T>(tag: string, f: T -> seq<string>, xs: seq<T>): seq<string> {
    [tag, Itoa(|xs|)] + Each(f, xs)
  }

  function StringField(value: string): seq<string> {
    [value]
  }

  function StringFields(tag: string, values: seq<string>): seq<string> {
    Counted(tag, StringField, values)
  }

  function ToolFields(tool: Tool): seq<string> {
    ["tool", tool.name, tool.description, tool.inputSchema, tool.argumentName, tool.effect,
     tool.idempotencyKey, FormatBool(tool.requiresApproval), Itoa(tool.timeout)]
    + StringFields("side-effects", tool.sideEffects)
  }

  function BashFields(bash: BashTool): seq<string> {
    ["bash", bash.name, bash.sandboxRoot, Itoa(bash.timeout), Itoa(bash.maxOutputBytes),
     FormatBool(bash.unsafeHostExecution)]
    + StringFields("allowed-env", bash.allowedEnv)
  }

  function SkillFields(name: string): seq<string> {
    ["skill", name]
  }

  function ServerFields(name: string): seq<string> {
    ["mcp", name]
  }

  function SchemaFields(schema: Option<ResultSchema>): seq<string> {
    match schema
    case None => ["schema", "absent"]
    case Some(s) => ["schema", "present", s.name, s.typePackage, s.typeName, s.jsonSchema]
  }

  function RetryFields(retry: Option<Retry>): seq<string> {
    match retry
    case None => ["retry", "absent"]
    case Some(r) => ["retry", "present", Itoa(r.providerRetries), Itoa(r.backoff)]
  }

  function BudgetFields(b: Budget): seq<string> {
    ["budget", Itoa(b.maxIterations), Itoa(b.maxTokens), b.maxCostUSD, Itoa(b.maxWallClock)]
  }

  function StepHead(step: Step, depth: nat, index: nat): (fields: seq<string>)
    ensures |fields| == 10
  {
    ["step", Itoa(depth), Itoa(index), StepKindText(step.kind), step.goal, step.model,
     Itoa(step.concurrency), FormatBool(step.partialOK), FormatBool(step.noCache),
     FormatBool(step.sequentialTools)]
  }

  /** The part of a step written before its nested pipelines of subagents. */
  function StepFront(step: Step): seq<string> {
    StringFields("fallback", step.fallback)
    + (Counted("tools", ToolFields, step.tools)
    + (Counted("bash-tools", BashFields, step.bash)
    + (Counted("skills", SkillFields, step.skills)
    + Counted("mcp-servers", ServerFields, step.mcpServers))))
  }

  /** The part of a step between its subagents and its branches. */
  function StepMiddle(step: Step): seq<string> {
    SchemaFields(step.resultSchema) + (RetryFields(step.retry) + BudgetFields(step.budget))
  }

  function StepFields(step: Step, depth: nat, index: nat): seq<string>
    decreases step
  {
    StepHead(step, depth, index)
    + (StepFront(step)
    + ((["subagents", Itoa(|step.subAgents|)] + SubAgentsFrom(step.subAgents, depth, 0))
    + (StepMiddle(step)
    + ((["branches", Itoa(|step.branches|)] + BranchesFrom(step.branches, depth, 0))
    + (["map"] + StepsFields(step.mapPipeline.steps, depth + 1))))))
  }

  function StepsFields(steps: seq<Step>, depth: nat): seq<string>
    decreases steps, |steps| + 1
  {
    ["steps", Itoa(depth), Itoa(|steps|)] + StepsFrom(steps, depth, 0)
  }

  function StepsFrom(steps: seq<Step>, depth: nat, i: nat): seq<string>
    requires i <= |steps|
    decreases steps, |steps| - i
  {
    if i == |steps| then [] else StepFields(steps[i], depth, i) + StepsFrom(steps, depth, i + 1)
  }

  function SubAgentsFrom(agents: seq<SubAgent>, depth: nat, i: nat): seq<string>
    requires i <= |agents|
    decreases agents, |agents| - i
  {
    if i == |agents| then [] else
      (SubAgentHead(agents[i]) + StepsFields(agents[i].pipeline.steps, depth + 1))
      + SubAgentsFrom(agents, depth, i + 1)
  }

  function SubAgentHead(agent: SubAgent): seq<string> {
    ["subagent", agent.name, Itoa(agent.maxParallel), FormatBool(agent.partialOK)]
  }

  function BranchesFrom(branches: seq<Pipeline>, depth: nat, i: nat): seq<string>
    requires i <= |branches|
    decreases branches, |branches| - i
  {
    if i == |branches| then [] else
      (["branch"] + StepsFields(branches[i].steps, depth + 1)) + BranchesFrom(branches, depth, i + 1)
  }

  function TriggerFields(t: Trigger): seq<string> {
    ["trigger", TriggerKindText(t.kind), t.verb, t.path, t.expr, t.value, t.uri,
     Itoa(t.workerPool), t.idempotencyHeader, t.signatureEnv, t.signatureHeader, t.dlqTarget,
     Itoa(t.maxAttempts), Itoa(t.maxInFlight), t.ackPolicy]
  }

  function TerminalHead(t: Terminal): seq<string> {
    ["terminal", TerminalKindText(t.kind), FormatBool(t.async), FormatBool(t.sse),
     FormatBool(t.sinkLog), t.sinkFilePath, t.pushWebhookURL, t.pushQueueURI]
  }

  function PlanHead(build: string): seq<string> {
    ["ouvrier-durable-plan", "v3", "worker-build", build]
  }

  function PlanFields(plan: Plan, build: string): seq<string> {
    PlanHead(build)
    + (TriggerFields(plan.trigger)
    + (StepsFields(plan.steps, 0)
    + (TerminalHead(plan.terminal) + SchemaFields(plan.terminal.resultSchema))))
  }

  // ---------- every writer can be cancelled in front of any continuation ----------

  ghost predicate Cancels<T(!new)>(f: T -> seq<string>) {
    forall x: T, y: T, r: seq<string>, s: seq<string> ::
      f(x) + r == f(y) + s ==> x == y && r == s
  }

  lemma {:induction false} EachCancels<T(!new)>(f: T -> seq<string>, xs: seq<T>, ys: seq<T>, r: seq<string>, s: seq<string>)
    requires Cancels(f) && |xs| == |ys|
    requires Each(f, xs) + r == Each(f, ys) + s
    ensures xs == ys && r == s
  {
    if xs == [] {
      assert Each(f, xs) + r == r && Each(f, ys) + s == s;
    } else {
      Associate(f(xs[0]), Each(f, xs[1..]), r);
      Associate(f(ys[0]), Each(f, ys[1..]), s);
      assert f(xs[0]) + (Each(f, xs[1..]) + r) == f(ys[0]) + (Each(f, ys[1..]) + s);
      EachCancels(f, xs[1..], ys[1..], r, s);
      assert xs == [xs[0]] + xs[1..] && ys == [ys[0]] + ys[1..];
    }
  }

  lemma CountedCancels<T(!new)>(tag: string, f: T -> seq<string>, xs: seq<T>, ys: seq<T>, r: seq<string>, s: seq<string>)
    requires Cancels(f)
    requires Counted(tag, f, xs) + r == Counted(tag, f, ys) + s
    ensures xs == ys && r == s
  {
    CountCancels(tag, |xs|, |ys|, Each(f, xs), Each(f, ys), r, s);
    EachCancels(f, xs, ys, r, s);
  }

  lemma CountCancels(tag: string, m: nat, n: nat, a: seq<string>, b: seq<string>, r: seq<string>, s: seq<string>)
    requires ([tag, Itoa(m)] + a) + r == ([tag, Itoa(n)] + b) + s
    ensures m == n && a + r == b + s
  {
    Associate([tag, Itoa(m)], a, r);
    Associate([tag, Itoa(n)], b, s);
    Split([tag, Itoa(m)], [tag, Itoa(n)], a + r, b + s);
    assert [tag, Itoa(m)][1] == [tag, Itoa(n)][1];
    ItoaInjective(m, n);
  }

  lemma NameFieldsCancel()
    ensures Cancels(StringField) && Cancels(SkillFields) && Cancels(ServerFields)
  {
    forall x: string, y: string, r: seq<string>, s: seq<string> | StringField(x) + r == StringField(y) + s
      ensures x == y && r == s
    {
      Split(StringField(x), StringField(y), r, s);
    }
    forall x: string, y: string, r: seq<string>, s: seq<string> | SkillFields(x) + r == SkillFields(y) + s
      ensures x == y && r == s
    {
      Split(SkillFields(x), SkillFields(y), r, s);
      assert SkillFields(x)[1] == SkillFields(y)[1];
    }
    forall x: string, y: string, r: seq<string>, s: seq<string> | ServerFields(x) + r == ServerFields(y) + s
      ensures x == y && r == s
    {
      Split(ServerFields(x), ServerFields(y), r, s);
      assert ServerFields(x)[1] == ServerFields(y)[1];
    }
  }

  lemma ToolFieldsCancel()
    ensures Cancels(ToolFields)
  {
    forall x: Tool, y: Tool, r: seq<string>, s: seq<string> | ToolFields(x) + r == ToolFields(y) + s
      ensures x == y && r == s
    {
      var a, b := ToolFields(x)[..9], ToolFields(y)[..9];
      var c, d := StringFields("side-effects", x.sideEffects), StringFields("side-effects", y.sideEffects);
      assert ToolFields(x) == a + c && ToolFields(y) == b + d;
      Associate(a, c, r);
      Associate(b, d, s);
      Split(a, b, c + r, d + s);
      NameFieldsCancel();
      CountedCancels("side-effects", StringField, x.sideEffects, y.sideEffects, r, s);
      assert forall k | 0 <= k < 9 :: a[k] == b[k];
      assert a[1] == x.name && b[1] == y.name && a[2] == x.description && b[2] == y.description;
      assert a[3] == x.inputSchema && b[3] == y.inputSchema && a[4] == x.argumentName && b[4] == y.argumentName;
      assert a[5] == x.effect && b[5] == y.effect && a[6] == x.idempotencyKey && b[6] == y.idempotencyKey;
      assert a[7] == FormatBool(x.requiresApproval) && b[7] == FormatBool(y.requiresApproval);
      assert a[8] == Itoa(x.timeout) && b[8] == Itoa(y.timeout);
      ItoaInjective(x.timeout, y.timeout);
    }
  }

  lemma BashFieldsCancel()
    ensures Cancels(BashFields)
  {
    forall x: BashTool, y: BashTool, r: seq<string>, s: seq<string> | BashFields(x) + r == BashFields(y) + s
      ensures x == y && r == s
    {
      var a, b := BashFields(x)[..6], BashFields(y)[..6];
      var c, d := StringFields("allowed-env", x.allowedEnv), StringFields("allowed-env", y.allowedEnv);
      assert BashFields(x) == a + c && BashFields(y) == b + d;
      Associate(a, c, r);
      Associate(b, d, s);
      Split(a, b, c + r, d + s);
      NameFieldsCancel();
      CountedCancels("allowed-env", StringField, x.allowedEnv, y.allowedEnv, r, s);
      assert a[1] == x.name && b[1] == y.name && a[2] == x.sandboxRoot && b[2] == y.sandboxRoot;
      assert a[3] == Itoa(x.timeout) && b[3] == Itoa(y.timeout);
      assert a[4] == Itoa(x.maxOutputBytes) && b[4] == Itoa(y.maxOutputBytes);
      assert a[5] == FormatBool(x.unsafeHostExecution) && b[5] == FormatBool(y.unsafeHostExecution);
      ItoaInjective(x.timeout, y.timeout);
      ItoaInjective(x.maxOutputBytes, y.maxOutputBytes);
    }
  }

  lemma SchemaCancels(x: Option<ResultSchema>, y: Option<ResultSchema>, r: seq<string>, s: seq<string>)
    requires SchemaFields(x) + r == SchemaFields(y) + s
    ensures x == y && r == s
  {
    var a, b := SchemaFields(x), SchemaFields(y);
    assert (a + r)[1] == a[1] && (b + s)[1] == b[1];
    Split(a, b, r, s);
    if x.Some? {
      assert a[2] == b[2] && a[3] == b[3] && a[4] == b[4] && a[5] == b[5];
    }
  }

  lemma RetryCancels(x: Option<Retry>, y: Option<Retry>, r: seq<string>, s: seq<string>)
    requires RetryFields(x) + r == RetryFields(y) + s
    ensures x == y && r == s
  {
    var a, b := RetryFields(x), RetryFields(y);
    assert (a + r)[1] == a[1] && (b + s)[1] == b[1];
    Split(a, b, r, s);
    if x.Some? {
      assert a[2] == b[2] && a[3] == b[3];
      ItoaInjective(x.value.providerRetries, y.value.providerRetries);
      ItoaInjective(x.value.backoff, y.value.backoff);
    }
  }

  lemma BudgetInjective(x: Budget, y: Budget)
    requires BudgetFields(x) == BudgetFields(y)
    ensures x == y
  {
    var a, b := BudgetFields(x), BudgetFields(y);
    assert a[1] == b[1] && a[2] == b[2] && a[3] == b[3] && a[4] == b[4];
    ItoaInjective(x.maxIterations, y.maxIterations);
    ItoaInjective(x.maxTokens, y.maxTokens);
    ItoaInjective(x.maxWallClock, y.maxWallClock);
  }

  lemma StepMiddleCancels(x: Step, y: Step, r: seq<string>, s: seq<string>)
    requires StepMiddle(x) + r == StepMiddle(y) + s
    ensures x.resultSchema == y.resultSchema && x.retry == y.retry && x.budget == y.budget && r == s
  {
    var x1, y1 := RetryFields(x.retry) + BudgetFields(x.budget), RetryFields(y.retry) + BudgetFields(y.budget);
    Associate(SchemaFields(x.resultSchema), x1, r);
    Associate(SchemaFields(y.resultSchema), y1, s);
    SchemaCancels(x.resultSchema, y.resultSchema, x1 + r, y1 + s);
    Associate(RetryFields(x.retry), BudgetFields(x.budget), r);
    Associate(RetryFields(y.retry), BudgetFields(y.budget), s);
    RetryCancels(x.retry, y.retry, BudgetFields(x.budget) + r, BudgetFields(y.budget) + s);
    Split(BudgetFields(x.budget), BudgetFields(y.budget), r, s);
    BudgetInjective(x.budget, y.budget);
  }

  lemma StepHeadInjective(x: Step, y: Step, depth: nat, index: nat)
    requires StepHead(x, depth, index) == StepHead(y, depth, index)
    ensures x.kind == y.kind && x.goal == y.goal && x.model == y.model && x.concurrency == y.concurrency
    ensures x.partialOK == y.partialOK && x.noCache == y.noCache && x.sequentialTools == y.sequentialTools
  {
    var a, b := StepHead(x, depth, index), StepHead(y, depth, index);
    assert a[3] == b[3] && a[4] == b[4] && a[5] == b[5] && a[6] == b[6] && a[7] == b[7] && a[8] == b[8] && a[9] == b[9];
    ItoaInjective(x.concurrency, y.concurrency);
  }

  lemma StepFrontCancels(x: Step, y: Step, r: seq<string>, s: seq<string>)
    requires StepFront(x) + r == StepFront(y) + s
    ensures x.fallback == y.fallback && x.tools == y.tools && x.bash == y.bash
    ensures x.skills == y.skills && x.mcpServers == y.mcpServers && r == s
  {
    var x4, y4 := Counted("mcp-servers", ServerFields, x.mcpServers), Counted("mcp-servers", ServerFields, y.mcpServers);
    var x3, y3 := Counted("skills", SkillFields, x.skills), Counted("skills", SkillFields, y.skills);
    var x2, y2 := Counted("bash-tools", BashFields, x.bash), Counted("bash-tools", BashFields, y.bash);
    var x1, y1 := Counted("tools", ToolFields, x.tools), Counted("tools", ToolFields, y.tools);
    NameFieldsCancel();
    ToolFieldsCancel();
    BashFieldsCancel();
    Associate(StringFields("fallback", x.fallback), x1 + (x2 + (x3 + x4)), r);
    Associate(StringFields("fallback", y.fallback), y1 + (y2 + (y3 + y4)), s);
    CountedCancels("fallback", StringField, x.fallback, y.fallback, (x1 + (x2 + (x3 + x4))) + r, (y1 + (y2 + (y3 + y4))) + s);
    Associate(x1, x2 + (x3 + x4), r);
    Associate(y1, y2 + (y3 + y4), s);
    CountedCancels("tools", ToolFields, x.tools, y.tools, (x2 + (x3 + x4)) + r, (y2 + (y3 + y4)) + s);
    Associate(x2, x3 + x4, r);
    Associate(y2, y3 + y4, s);
    CountedCancels("bash-tools", BashFields, x.bash, y.bash, (x3 + x4) + r, (y3 + y4) + s);
    Associate(x3, x4, r);
    Associate(y3, y4, s);
    CountedCancels("skills", SkillFields, x.skills, y.skills, x4 + r, y4 + s);
    CountedCancels("mcp-servers", ServerFields, x.mcpServers, y.mcpServers, r, s);
  }

  lemma {:induction false} StepCancels(x: Step, y: Step, depth: nat, index: nat, r: seq<string>, s: seq<string>)
    requires StepFields(x, depth, index) + r == StepFields(y, depth, index) + s
    ensures x == y && r == s
    decreases x
  {
    hide StepHead, StepFront, StepMiddle, StepsFields, SubAgentsFrom, BranchesFrom;
    var xm, ym := StepsFields(x.mapPipeline.steps, depth + 1), StepsFields(y.mapPipeline.steps, depth + 1);
    var x4, y4 := ["map"] + xm, ["map"] + ym;
    var xb, yb := BranchesFrom(x.branches, depth, 0), BranchesFrom(y.branches, depth, 0);
    var x3, y3 := (["branches", Itoa(|x.branches|)] + xb) + x4, (["branches", Itoa(|y.branches|)] + yb) + y4;
    var x2, y2 := StepMiddle(x) + x3, StepMiddle(y) + y3;
    var xa, ya := SubAgentsFrom(x.subAgents, depth, 0), SubAgentsFrom(y.subAgents, depth, 0);
    var x1, y1 := (["subagents", Itoa(|x.subAgents|)] + xa) + x2, (["subagents", Itoa(|y.subAgents|)] + ya) + y2;
    var x0, y0 := StepFront(x) + x1, StepFront(y) + y1;

    Associate(StepHead(x, depth, index), x0, r);
    Associate(StepHead(y, depth, index), y0, s);
    Split(StepHead(x, depth, index), StepHead(y, depth, index), x0 + r, y0 + s);
    StepHeadInjective(x, y, depth, index);

    Associate(StepFront(x), x1, r);
    Associate(StepFront(y), y1, s);
    StepFrontCancels(x, y, x1 + r, y1 + s);

    Associate(["subagents", Itoa(|x.subAgents|)] + xa, x2, r);
    Associate(["subagents", Itoa(|y.subAgents|)] + ya, y2, s);
    CountCancels("subagents", |x.subAgents|, |y.subAgents|, xa, ya, x2 + r, y2 + s);
    SubAgentsCancel(x.subAgents, y.subAgents, depth, 0, x2 + r, y2 + s);

    Associate(StepMiddle(x), x3, r);
    Associate(StepMiddle(y), y3, s);
    StepMiddleCancels(x, y, x3 + r, y3 + s);

    Associate(["branches", Itoa(|x.branches|)] + xb, x4, r);
    Associate(["branches", Itoa(|y.branches|)] + yb, y4, s);
    CountCancels("branches", |x.branches|, |y.branches|, xb, yb, x4 + r, y4 + s);
    BranchesCancel(x.branches, y.branches, depth, 0, x4 + r, y4 + s);

    Associate(["map"], xm, r);
    Associate(["map"], ym, s);
    Split(["map"], ["map"], xm + r, ym + s);
    StepsCancel(x.mapPipeline.steps, y.mapPipeline.steps, depth + 1, r, s);
  }

  lemma {:induction false} StepsCancel(xs: seq<Step>, ys: seq<Step>, depth: nat, r: seq<string>, s: seq<string>)
    requires StepsFields(xs, depth) + r == StepsFields(ys, depth) + s
    ensures xs == ys && r == s
    decreases xs, |xs| + 1
  {
    var a, b := ["steps", Itoa(depth), Itoa(|xs|)], ["steps", Itoa(depth), Itoa(|ys|)];
    Associate(a, StepsFrom(xs, depth, 0), r);
    Associate(b, StepsFrom(ys, depth, 0), s);
    Split(a, b, StepsFrom(xs, depth, 0) + r, StepsFrom(ys, depth, 0) + s);
    assert a[2] == b[2];
    ItoaInjective(|xs|, |ys|);
    StepsFromCancels(xs, ys, depth, 0, r, s);
  }

  lemma {:induction false} StepsFromCancels(xs: seq<Step>, ys: seq<Step>, depth: nat, i: nat, r: seq<string>, s: seq<string>)
    requires i <= |xs| == |ys|
    requires StepsFrom(xs, depth, i) + r == StepsFrom(ys, depth, i) + s
    ensures r == s && forall k | i <= k < |xs| :: xs[k] == ys[k]
    decreases xs, |xs| - i
  {
    hide StepFields;
    if i == |xs| {
      assert StepsFrom(xs, depth, i) + r == r && StepsFrom(ys, depth, i) + s == s;
    } else {
      Associate(StepFields(xs[i], depth, i), StepsFrom(xs, depth, i + 1), r);
      Associate(StepFields(ys[i], depth, i), StepsFrom(ys, depth, i + 1), s);
      StepCancels(xs[i], ys[i], depth, i, StepsFrom(xs, depth, i + 1) + r, StepsFrom(ys, depth, i + 1) + s);
      StepsFromCancels(xs, ys, depth, i + 1, r, s);
    }
  }

  lemma {:induction false} SubAgentsCancel(xs: seq<SubAgent>, ys: seq<SubAgent>, depth: nat, i: nat, r: seq<string>, s: seq<string>)
    requires i <= |xs| == |ys|
    requires SubAgentsFrom(xs, depth, i) + r == SubAgentsFrom(ys, depth, i) + s
    ensures r == s && forall k | i <= k < |xs| :: xs[k] == ys[k]
    decreases xs, |xs| - i
  {
    if i == |xs| {
      assert SubAgentsFrom(xs, depth, i) + r == r && SubAgentsFrom(ys, depth, i) + s == s;
    } else {
      var x, y := xs[i], ys[i];
      var xr, yr := SubAgentsFrom(xs, depth, i + 1), SubAgentsFrom(ys, depth, i + 1);
      var xp, yp := StepsFields(x.pipeline.steps, depth + 1), StepsFields(y.pipeline.steps, depth + 1);
      Associate(SubAgentHead(x) + xp, xr, r);
      Associate(SubAgentHead(y) + yp, yr, s);
      Associate(SubAgentHead(x), xp, xr + r);
      Associate(SubAgentHead(y), yp, yr + s);
      Split(SubAgentHead(x), SubAgentHead(y), xp + (xr + r), yp + (yr + s));
      assert SubAgentHead(x)[1] == SubAgentHead(y)[1] && SubAgentHead(x)[2] == SubAgentHead(y)[2]
          && SubAgentHead(x)[3] == SubAgentHead(y)[3];
      ItoaInjective(x.maxParallel, y.maxParallel);
      StepsCancel(x.pipeline.steps, y.pipeline.steps, depth + 1, xr + r, yr + s);
      SubAgentsCancel(xs, ys, depth, i + 1, r, s);
    }
  }

  lemma {:induction false} BranchesCancel(xs: seq<Pipeline>, ys: seq<Pipeline>, depth: nat, i: nat, r: seq<string>, s: seq<string>)
    requires i <= |xs| == |ys|
    requires BranchesFrom(xs, depth, i) + r == BranchesFrom(ys, depth, i) + s
    ensures r == s && forall k | i <= k < |xs| :: xs[k] == ys[k]
    decreases xs, |xs| - i
  {
    if i == |xs| {
      assert BranchesFrom(xs, depth, i) + r == r && BranchesFrom(ys, depth, i) + s == s;
    } else {
      var xr, yr := BranchesFrom(xs, depth, i + 1), BranchesFrom(ys, depth, i + 1);
      var xp, yp := StepsFields(xs[i].steps, depth + 1), StepsFields(ys[i].steps, depth + 1);
      Associate(["branch"] + xp, xr, r);
      Associate(["branch"] + yp, yr, s);
      Associate(["branch"], xp, xr + r);
      Associate(["branch"], yp, yr + s);
      Split(["branch"], ["branch"], xp + (xr + r), yp + (yr + s));
      StepsCancel(xs[i].steps, ys[i].steps, depth + 1, xr + r, yr + s);
      BranchesCancel(xs, ys, depth, i + 1, r, s);
    }
  }

  lemma TriggerInjective(x: Trigger, y: Trigger)
    requires TriggerFields(x) == TriggerFields(y)
    ensures x == y
  {
    var a, b := TriggerFields(x), TriggerFields(y);
    assert a[1] == b[1] && a[2] == b[2] && a[3] == b[3] && a[4] == b[4] && a[5] == b[5] && a[6] == b[6] && a[7] == b[7];
    assert a[8] == b[8] && a[9] == b[9] && a[10] == b[10] && a[11] == b[11] && a[12] == b[12] && a[13] == b[13] && a[14] == b[14];
    ItoaInjective(x.workerPool, y.workerPool);
    ItoaInjective(x.maxAttempts, y.maxAttempts);
    ItoaInjective(x.maxInFlight, y.maxInFlight);
  }

  lemma TerminalHeadInjective(x: Terminal, y: Terminal)
    requires TerminalHead(x) == TerminalHead(y)
    ensures x == y.(resultSchema := x.resultSchema)
  {
    var a, b := TerminalHead(x), TerminalHead(y);
    assert a[1] == b[1] && a[2] == b[2] && a[3] == b[3] && a[4] == b[4] && a[5] == b[5] && a[6] == b[6] && a[7] == b[7];
  }

  /** Equal field sequences come from equal plans and equal builds, at any nesting depth. */
  lemma PlanFieldsInjective(p: Plan, b: string, q: Plan, c: string)
    requires PlanFields(p, b) == PlanFields(q, c)
    ensures p == q && b == c
  {
    var p2, q2 := SchemaFields(p.terminal.resultSchema), SchemaFields(q.terminal.resultSchema);
    var p1, q1 := TerminalHead(p.terminal) + p2, TerminalHead(q.terminal) + q2;
    var p0, q0 := StepsFields(p.steps, 0) + p1, StepsFields(q.steps, 0) + q1;
    Split(PlanHead(b), PlanHead(c), TriggerFields(p.trigger) + p0, TriggerFields(q.trigger) + q0);
    assert PlanHead(b)[3] == PlanHead(c)[3];
    Split(TriggerFields(p.trigger), TriggerFields(q.trigger), p0, q0);
    TriggerInjective(p.trigger, q.trigger);
    StepsCancel(p.steps, q.steps, 0, p1, q1);
    Split(TerminalHead(p.terminal), TerminalHead(q.terminal), p2, q2);
    TerminalHeadInjective(p.terminal, q.terminal);
    assert p2 + [] == p2 && q2 + [] == q2;
    SchemaCancels(p.terminal.resultSchema, q.terminal.resultSchema, [], []);
  }

  // ---------- the digest ----------

  /** SHA-256 followed by hex, taken as a collision-free function. */
  ghost predicate CollisionFree(digest: string -> string) {
    forall a: string, b: string :: digest(a) == digest(b) ==> a == b
  }

  function DurablePlanHash(digest: string -> string, plan: Plan, build: string): string {
    digest(Frames(PlanFields(plan, build)))
  }

  /** The fingerprint names the whole replay contract: plan and worker build. */
  lemma FingerprintIdentifiesPlan(digest: string -> string, p: Plan, b: string, q: Plan, c: string)
    requires CollisionFree(digest)
    requires GoSized(PlanFields(p, b)) && GoSized(PlanFields(q, c))
    requires DurablePlanHash(digest, p, b) == DurablePlanHash(digest, q, c)
    ensures p == q && b == c
  {
    assert Frames(PlanFields(p, b)) == Frames(PlanFields(q, c));
    FramesInjective(PlanFields(p, b), PlanFields(q, c));
    PlanFieldsInjective(p, b, q, c);
  }
}
