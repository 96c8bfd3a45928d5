/**
 The writers of durable_runs.go as they run: each appends to a hash input, field
 by field. Every method is proved to append exactly the field sequence of `PlanHash`.
 */
module PlanHashWriter {
  import opened Wrappers
  import opened Text
  import opened Plans
  import opened PlanHash

  /** Appending two field sequences one after the other appends their concatenation. */
  lemma AppendTwice(written: string, a: seq<string>, b: seq<string>)
    ensures written + Frames(a + b) == (written + Frames(a)) + Frames(b)
  {
    FramesAppend(a, b);
    Associate(written, Frames(a), Frames(b));
  }

  class HashInput {
    var written: string

    constructor ()
      ensures written == ""
    {
      written := "";
    }

    method WriteFields(fields: seq<string>)
      modifies this
      ensures written == old(written) + Frames(fields)
    {
      var i := 0;
      while i < |fields|
        invariant 0 <= i <= |fields|
        invariant written + Frames(fields[i..]) == old(written) + Frames(fields)
      {
        ghost var before := written;
        written := written + BigEndian(|fields[i]|, 8);
        written := written + fields[i];
        Associate(before, BigEndian(|fields[i]|, 8), fields[i]);
        AppendTwice(before, [fields[i]], fields[i + 1..]);
        assert fields[i..] == [fields[i]] + fields[i + 1..];
        assert Frames([fields[i]]) == Frame(fields[i]) + [] == Frame(fields[i]);
        i := i + 1;
      }
    }

    method WriteStrings(tag: string, values: seq<string>)
      modifies this
      ensures written == old(written) + Frames(StringFields(tag, values))
    {
      ghost var start := written;
      WriteFields([tag, Itoa(|values|)]);
      AppendTwice(start, [tag, Itoa(|values|)], Each(StringField, values));
      var i := 0;
      assert values[0..] == values;
      while i < |values|
        invariant 0 <= i <= |values|
        invariant written + Frames(Each(StringField, values[i..])) == start + Frames(StringFields(tag, values))
      {
        AppendTwice(written, [values[i]], Each(StringField, values[i + 1..]));
        assert values[i..][1..] == values[i + 1..];
        WriteFields([values[i]]);
        i := i + 1;
      }
    }

    method WriteTools(tools: seq<Tool>)
      modifies this
      ensures written == old(written) + Frames(Counted("tools", ToolFields, tools))
    {
      ghost var start := written;
      WriteFields(["tools", Itoa(|tools|)]);
      AppendTwice(start, ["tools", Itoa(|tools|)], Each(ToolFields, tools));
      var i := 0;
      assert tools[0..] == tools;
      while i < |tools|
        invariant 0 <= i <= |tools|
        invariant written + Frames(Each(ToolFields, tools[i..])) == start + Frames(Counted("tools", ToolFields, tools))
      {
        var tool := tools[i];
        AppendTwice(written, ToolFields(tool), Each(ToolFields, tools[i + 1..]));
        assert tools[i..][1..] == tools[i + 1..];
        var own := ["tool", tool.name, tool.description, tool.inputSchema, tool.argumentName, tool.effect,
                    tool.idempotencyKey, FormatBool(tool.requiresApproval), Itoa(tool.timeout)];
        AppendTwice(written, own, StringFields("side-effects", tool.sideEffects));
        WriteFields(own);
        WriteStrings("side-effects", tool.sideEffects);
        i := i + 1;
      }
    }

    method WriteBash(bashes: seq<BashTool>)
      modifies this
      ensures written == old(written) + Frames(Counted("bash-tools", BashFields, bashes))
    {
      ghost var start := written;
      WriteFields(["bash-tools", Itoa(|bashes|)]);
      AppendTwice(start, ["bash-tools", Itoa(|bashes|)], Each(BashFields, bashes));
      var i := 0;
      assert bashes[0..] == bashes;
      while i < |bashes|
        invariant 0 <= i <= |bashes|
        invariant written + Frames(Each(BashFields, bashes[i..])) == start + Frames(Counted("bash-tools", BashFields, bashes))
      {
        var bash := bashes[i];
        AppendTwice(written, BashFields(bash), Each(BashFields, bashes[i + 1..]));
        assert bashes[i..][1..] == bashes[i + 1..];
        var own := ["bash", bash.name, bash.sandboxRoot, Itoa(bash.timeout), Itoa(bash.maxOutputBytes),
                    FormatBool(bash.unsafeHostExecution)];
        AppendTwice(written, own, StringFields("allowed-env", bash.allowedEnv));
        WriteFields(own);
        WriteStrings("allowed-env", bash.allowedEnv);
        i := i + 1;
      }
    }

    method WriteSkills(skills: seq<string>)
      modifies this
      ensures written == old(written) + Frames(Counted("skills", SkillFields, skills))
    {
      ghost var start := written;
      WriteFields(["skills", Itoa(|skills|)]);
      AppendTwice(start, ["skills", Itoa(|skills|)], Each(SkillFields, skills));
      var i := 0;
      assert skills[0..] == skills;
      while i < |skills|
        invariant 0 <= i <= |skills|
        invariant written + Frames(Each(SkillFields, skills[i..])) == start + Frames(Counted("skills", SkillFields, skills))
      {
        AppendTwice(written, SkillFields(skills[i]), Each(SkillFields, skills[i + 1..]));
        assert skills[i..][1..] == skills[i + 1..];
        WriteFields(["skill", skills[i]]);
        i := i + 1;
      }
    }

    method WriteServers(servers: seq<string>)
      modifies this
      ensures written == old(written) + Frames(Counted("mcp-servers", ServerFields, servers))
    {
      ghost var start := written;
      WriteFields(["mcp-servers", Itoa(|servers|)]);
      AppendTwice(start, ["mcp-servers", Itoa(|servers|)], Each(ServerFields, servers));
      var i := 0;
      assert servers[0..] == servers;
      while i < |servers|
        invariant 0 <= i <= |servers|
        invariant written + Frames(Each(ServerFields, servers[i..])) == start + Frames(Counted("mcp-servers", ServerFields, servers))
      {
        AppendTwice(written, ServerFields(servers[i]), Each(ServerFields, servers[i + 1..]));
        assert servers[i..][1..] == servers[i + 1..];
        WriteFields(["mcp", servers[i]]);
        i := i + 1;
      }
    }

    method WriteResultSchema(schema: Option<ResultSchema>)
      modifies this
      ensures written == old(written) + Frames(SchemaFields(schema))
    {
      if schema.None? {
        WriteFields(["schema", "absent"]);
        return;
      }
      var s := schema.value;
      WriteFields(["schema", "present", s.name, s.typePackage, s.typeName, s.jsonSchema]);
    }

    /** The writes of one step up to its subagents. */
    method WriteStepFront(step: Step)
      modifies this
      ensures written == old(written) + Frames(StepFront(step))
    {
      var servers := Counted("mcp-servers", ServerFields, step.mcpServers);
      var skills := Counted("skills", SkillFields, step.skills);
      var bash := Counted("bash-tools", BashFields, step.bash);
      var tools := Counted("tools", ToolFields, step.tools);
      AppendTwice(written, StringFields("fallback", step.fallback), tools + (bash + (skills + servers)));
      WriteStrings("fallback", step.fallback);
      AppendTwice(written, tools, bash + (skills + servers));
      WriteTools(step.tools);
      AppendTwice(written, bash, skills + servers);
      WriteBash(step.bash);
      AppendTwice(written, skills, servers);
      WriteSkills(step.skills);
      WriteServers(step.mcpServers);
    }

    /** The writes of one step between its subagents and its branches. */
    method WriteStepMiddle(step: Step)
      modifies this
      ensures written == old(written) + Frames(StepMiddle(step))
    {
      AppendTwice(written, SchemaFields(step.resultSchema), RetryFields(step.retry) + BudgetFields(step.budget));
      WriteResultSchema(step.resultSchema);
      AppendTwice(written, RetryFields(step.retry), BudgetFields(step.budget));
      if step.retry.None? {
        WriteFields(["retry", "absent"]);
      } else {
        WriteFields(["retry", "present", Itoa(step.retry.value.providerRetries), Itoa(step.retry.value.backoff)]);
      }
      WriteFields(BudgetFields(step.budget));
    }

    method WriteSteps(steps: seq<Step>, depth: nat)
      modifies this
      ensures written == old(written) + Frames(StepsFields(steps, depth))
      decreases steps, |steps| + 1
    {
      hide StepFields;
      ghost var start := written;
      var head := ["steps", Itoa(depth), Itoa(|steps|)];
      WriteFields(head);
      AppendTwice(start, head, StepsFrom(steps, depth, 0));
      var i := 0;
      while i < |steps|
        invariant 0 <= i <= |steps|
        invariant written + Frames(StepsFrom(steps, depth, i)) == start + Frames(StepsFields(steps, depth))
      {
        AppendTwice(written, StepFields(steps[i], depth, i), StepsFrom(steps, depth, i + 1));
        WriteStep(steps[i], depth, i);
        i := i + 1;
      }
    }

    method WriteStep(step: Step, depth: nat, index: nat)
      modifies this
      ensures written == old(written) + Frames(StepFields(step, depth, index))
      decreases step
    {
      hide StepFront, StepMiddle, StepsFields, SubAgentsFrom, BranchesFrom, Frames;
      var head := StepHead(step, depth, index);
      ghost var mapped := ["map"] + StepsFields(step.mapPipeline.steps, depth + 1);
      ghost var branches := ["branches", Itoa(|step.branches|)] + BranchesFrom(step.branches, depth, 0);
      ghost var agents := ["subagents", Itoa(|step.subAgents|)] + SubAgentsFrom(step.subAgents, depth, 0);
      AppendTwice(written, head, StepFront(step) + (agents + (StepMiddle(step) + (branches + mapped))));
      WriteFields(head);
      AppendTwice(written, StepFront(step), agents + (StepMiddle(step) + (branches + mapped)));
      WriteStepFront(step);
      AppendTwice(written, agents, StepMiddle(step) + (branches + mapped));
      WriteSubAgents(step.subAgents, depth);
      AppendTwice(written, StepMiddle(step), branches + mapped);
      WriteStepMiddle(step);
      AppendTwice(written, branches, mapped);
      WriteBranches(step.branches, depth);
      AppendTwice(written, ["map"], StepsFields(step.mapPipeline.steps, depth + 1));
      WriteFields(["map"]);
      WriteSteps(step.mapPipeline.steps, depth + 1);
    }

    method WriteSubAgents(agents: seq<SubAgent>, depth: nat)
      modifies this
      ensures written == old(written) + Frames(["subagents", Itoa(|agents|)] + SubAgentsFrom(agents, depth, 0))
      decreases agents, |agents| + 1
    {
      hide StepsFields;
      ghost var start := written;
      WriteFields(["subagents", Itoa(|agents|)]);
      AppendTwice(start, ["subagents", Itoa(|agents|)], SubAgentsFrom(agents, depth, 0));
      var i := 0;
      while i < |agents|
        invariant 0 <= i <= |agents|
        invariant written + Frames(SubAgentsFrom(agents, depth, i))
               == start + Frames(["subagents", Itoa(|agents|)] + SubAgentsFrom(agents, depth, 0))
      {
        ghost var nested := StepsFields(agents[i].pipeline.steps, depth + 1);
        AppendTwice(written, SubAgentHead(agents[i]) + nested, SubAgentsFrom(agents, depth, i + 1));
        AppendTwice(written, SubAgentHead(agents[i]), nested);
        WriteFields(SubAgentHead(agents[i]));
        WriteSteps(agents[i].pipeline.steps, depth + 1);
        i := i + 1;
      }
    }

    method WriteBranches(branches: seq<Pipeline>, depth: nat)
      modifies this
      ensures written == old(written) + Frames(["branches", Itoa(|branches|)] + BranchesFrom(branches, depth, 0))
      decreases branches, |branches| + 1
    {
      hide StepsFields;
      ghost var start := written;
      WriteFields(["branches", Itoa(|branches|)]);
      AppendTwice(start, ["branches", Itoa(|branches|)], BranchesFrom(branches, depth, 0));
      var i := 0;
      while i < |branches|
        invariant 0 <= i <= |branches|
        invariant written + Frames(BranchesFrom(branches, depth, i))
               == start + Frames(["branches", Itoa(|branches|)] + BranchesFrom(branches, depth, 0))
      {
        ghost var nested := StepsFields(branches[i].steps, depth + 1);
        AppendTwice(written, ["branch"] + nested, BranchesFrom(branches, depth, i + 1));
        AppendTwice(written, ["branch"], nested);
        WriteFields(["branch"]);
        WriteSteps(branches[i].steps, depth + 1);
        i := i + 1;
      }
    }
  }

  /** durablePlanHashWithBuildIdentity: hash what the writers produced. */
  method HashPlan(digest: string -> string, plan: Plan, build: string) returns (hash: string)
    ensures hash == DurablePlanHash(digest, plan, build)
  {
    hide StepsFields, TriggerFields, SchemaFields, TerminalHead, Frames;
    var input := new HashInput();
    ghost var tail := TerminalHead(plan.terminal) + SchemaFields(plan.terminal.resultSchema);
    ghost var middle := StepsFields(plan.steps, 0) + tail;
    assert "" + Frames(PlanFields(plan, build)) == Frames(PlanFields(plan, build));
    AppendTwice("", PlanHead(build), TriggerFields(plan.trigger) + middle);
    input.WriteFields(PlanHead(build));
    AppendTwice(input.written, TriggerFields(plan.trigger), middle);
    input.WriteFields(TriggerFields(plan.trigger));
    AppendTwice(input.written, StepsFields(plan.steps, 0), tail);
    input.WriteSteps(plan.steps, 0);
    AppendTwice(input.written, TerminalHead(plan.terminal), SchemaFields(plan.terminal.resultSchema));
    input.WriteFields(TerminalHead(plan.terminal));
    input.WriteResultSchema(plan.terminal.resultSchema);
    hash := digest(input.written);
  }
}
