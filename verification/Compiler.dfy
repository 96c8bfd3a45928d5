/**
 The plan compiler: a sequence of nodes is split into pipelines, each a From, then
 steps, then a terminal, and each becomes one plan.
 */
module Compiler {
  import opened Wrappers
  import P = Plans

  datatype Schema = Schema(name: string, typ: Option<string>, jsonSchema: string)

  datatype Step = Step(kind: P.StepKind, goal: string, schema: Option<Schema>)

  datatype Terminal = Terminal(kind: P.TerminalKind, target: string, schema: Option<Schema>)

  /** The options of From, as far as triggers restrict them. */
  datatype Options = Options(
    signatureEnv: string, signatureHeader: string, idempotencyHeader: string,
    dlqTarget: string, maxAttempts: int, maxInFlight: int, ackPolicy: string)

  datatype Plan = Plan(trigger: P.TriggerKind, source: string, options: Options, steps: seq<Step>, terminal: Terminal)

  /**
   A node; `valid` is its own validation, and what it compiles to is absent when
   compiling it fails.
   */
  datatype Node =
    | Nil
    | From(valid: bool, trigger: Option<P.TriggerKind>, source: string, options: Options)
    | Stage(valid: bool, step: Option<Step>)
    | End(valid: bool, terminal: Option<Terminal>)
    | Unknown(valid: bool)

  datatype CompileError =
    | PipelineEmpty
    | FirstNodeNotFrom(index: nat)
    | InvalidNode(index: nat)
    | NodeFails(index: nat)
    | IncompatibleTriggerOption(index: nat)
    | TerminalMissing(index: nat)
    | IncompatibleTerminal(index: nat)
    | MultipleTerminals(index: nat)
    | TerminalNotLast(index: nat)

  // ---------- checks of single nodes ----------

  predicate OptionsFit(kind: P.TriggerKind, o: Options) {
    && (kind == P.TriggerHTTP || kind == P.TriggerWebhook || (o.signatureEnv == "" && o.signatureHeader == "" && o.idempotencyHeader == ""))
    && (kind == P.TriggerStream || (o.dlqTarget == "" && o.maxAttempts <= 0 && o.maxInFlight <= 0 && o.ackPolicy == ""))
  }

  /** Routes read the signature and idempotency options, streams the delivery options, and cron neither. */
  function ValidateTriggerOptionCompatibility(kind: P.TriggerKind, o: Options): (ok: bool)
    ensures ok <==> OptionsFit(kind, o)
    ensures kind == P.TriggerHTTP || kind == P.TriggerWebhook ==>
              (ok <==> o.dlqTarget == "" && o.maxAttempts <= 0 && o.maxInFlight <= 0 && o.ackPolicy == "")
    ensures kind == P.TriggerStream ==> (ok <==> o.signatureEnv == "" && o.signatureHeader == "" && o.idempotencyHeader == "")
    ensures kind == P.TriggerCron ==>
              (ok <==> o.signatureEnv == "" && o.signatureHeader == "" && o.idempotencyHeader == ""
                       && o.dlqTarget == "" && o.maxAttempts <= 0 && o.maxInFlight <= 0 && o.ackPolicy == "")
  {
    var httpLike := kind == P.TriggerHTTP || kind == P.TriggerWebhook;
    var streamLike := kind == P.TriggerStream;
    if !httpLike && (o.signatureEnv != "" || o.signatureHeader != "") then false
    else if !httpLike && o.idempotencyHeader != "" then false
    else if !streamLike && (o.dlqTarget != "" || o.maxAttempts > 0) then false
    else if !streamLike && o.maxInFlight > 0 then false
    else streamLike || o.ackPolicy == ""
  }

  predicate CompatibleResultSchemas(left: Schema, right: Schema) {
    if left.typ.Some? || right.typ.Some? then left.typ == right.typ
    else if left.jsonSchema != "" || right.jsonSchema != "" then left.jsonSchema == right.jsonSchema
    else left.name == right.name
  }

  predicate TerminalFits(kind: P.TriggerKind, t: Terminal) {
    t.kind == P.TerminalReply ==> kind == P.TriggerHTTP
  }

  /** A JSON Reply hands its schema to a last Pipe without one, and must agree with that of any other. */
  function Reconcile(steps: seq<Step>, t: Terminal): Option<seq<Step>> {
    if t.kind != P.TerminalReply || t.schema.None? || steps == [] then Some(steps)
    else
      var last := steps[|steps| - 1];
      if last.kind != P.StepPipe then Some(steps)
      else if last.schema.None? then Some(steps[|steps| - 1 := last.(schema := t.schema)])
      else if CompatibleResultSchemas(last.schema.value, t.schema.value) then Some(steps)
      else None
  }

  // ---------- the compiler ----------

  function NextStart(nodes: seq<Node>, next: nat): Option<CompileError> {
    if next >= |nodes| then None
    else
      match nodes[next]
      case Nil => Some(InvalidNode(next))
      case From(_, _, _, _) => None
      case End(_, _) => Some(MultipleTerminals(next))
      case _ => Some(TerminalNotLast(next))
  }

  /** From node i on, with the plan so far, to the terminal; the plan and the index behind it. */
  function Scan(nodes: seq<Node>, i: nat, plan: Plan): Result<(Plan, nat), CompileError>
    decreases |nodes| - i
  {
    if i >= |nodes| then Err(TerminalMissing(i))
    else if nodes[i].Nil? then Err(InvalidNode(i))
    else if !nodes[i].valid then Err(NodeFails(i))
    else
      match nodes[i]
      case From(_, _, _, _) => Err(TerminalMissing(i))
      case Stage(_, step) =>
        if step.None? then Err(NodeFails(i)) else Scan(nodes, i + 1, plan.(steps := plan.steps + [step.value]))
      case End(_, terminal) =>
        if terminal.None? then Err(NodeFails(i))
        else if !TerminalFits(plan.trigger, terminal.value) then Err(IncompatibleTerminal(i))
        else
          var steps := Reconcile(plan.steps, terminal.value);
          if steps.None? then Err(IncompatibleTerminal(i))
          else if NextStart(nodes, i + 1).Some? then Err(NextStart(nodes, i + 1).value)
          else Ok((plan.(steps := steps.value, terminal := terminal.value), i + 1))
      case _ => Err(InvalidNode(i))
  }

  const NO_TERMINAL := Terminal(P.TerminalReply, "", None)

  function CompileAt(nodes: seq<Node>, start: nat): Result<(Plan, nat), CompileError>
    requires start < |nodes| && nodes[start].From?
  {
    var from := nodes[start];
    if !from.valid || from.trigger.None? then Err(NodeFails(start))
    else if !OptionsFit(from.trigger.value, from.options) then Err(IncompatibleTriggerOption(start))
    else Scan(nodes, start + 1, Plan(from.trigger.value, from.source, from.options, [], NO_TERMINAL))
  }

  lemma {:induction false} ScanMovesOn(nodes: seq<Node>, i: nat, plan: Plan)
    ensures Scan(nodes, i, plan).Ok? ==> i < Scan(nodes, i, plan).value.1 <= |nodes|
    decreases |nodes| - i
  {
    if i < |nodes| && nodes[i].Stage? && nodes[i].step.Some? {
      ScanMovesOn(nodes, i + 1, plan.(steps := plan.steps + [nodes[i].step.value]));
    }
  }

  function CompileFrom(nodes: seq<Node>, i: nat): Result<seq<Plan>, CompileError>
    requires i <= |nodes|
    decreases |nodes| - i
  {
    if i == |nodes| then Ok([])
    else if nodes[i].Nil? then Err(InvalidNode(i))
    else if !nodes[i].From? then Err(FirstNodeNotFrom(i))
    else
      match CompileAt(nodes, i)
      case Err(e) => Err(e)
      case Ok((plan, next)) =>
        ScanMovesOn(nodes, i + 1, Plan(nodes[i].trigger.value, nodes[i].source, nodes[i].options, [], NO_TERMINAL));
        match CompileFrom(nodes, next)
        case Err(e) => Err(e)
        case Ok(plans) => Ok([plan] + plans)
  }

  function Compile(nodes: seq<Node>): Result<seq<Plan>, CompileError> {
    if nodes == [] then Err(PipelineEmpty)
    else if !nodes[0].From? then Err(FirstNodeNotFrom(0))
    else CompileFrom(nodes, 0)
  }

  method CompilePlanAt(nodes: seq<Node>, start: nat) returns (r: Result<(Plan, nat), CompileError>)
    requires start < |nodes| && nodes[start].From?
    ensures r == CompileAt(nodes, start)
  {
    var from := nodes[start];
    if !from.valid || from.trigger.None? {
      return Err(NodeFails(start));
    }
    var ok := ValidateTriggerOptionCompatibility(from.trigger.value, from.options);
    if !ok {
      return Err(IncompatibleTriggerOption(start));
    }
    var plan := Plan(from.trigger.value, from.source, from.options, [], NO_TERMINAL);
    var i := start + 1;
    while i < |nodes|
      invariant start < i <= |nodes|
      invariant CompileAt(nodes, start) == Scan(nodes, i, plan)
      invariant plan.trigger == from.trigger.value
    {
      var node := nodes[i];
      if node.Nil? {
        return Err(InvalidNode(i));
      }
      if !node.valid {
        return Err(NodeFails(i));
      }
      match node {
        case From(_, _, _, _) => return Err(TerminalMissing(i));
        case Stage(_, step) =>
          if step.None? {
            return Err(NodeFails(i));
          }
          plan := plan.(steps := plan.steps + [step.value]);
        case End(_, terminal) =>
          if terminal.None? {
            return Err(NodeFails(i));
          }
          if !TerminalFits(plan.trigger, terminal.value) {
            return Err(IncompatibleTerminal(i));
          }
          var steps := Reconcile(plan.steps, terminal.value);
          if steps.None? {
            return Err(IncompatibleTerminal(i));
          }
          var stray := NextStart(nodes, i + 1);
          if stray.Some? {
            return Err(stray.value);
          }
          return Ok((plan.(steps := steps.value, terminal := terminal.value), i + 1));
        case Unknown(_) => return Err(InvalidNode(i));
      }
      i := i + 1;
    }
    return Err(TerminalMissing(|nodes|));
  }

  method CompilePlans(nodes: seq<Node>) returns (r: Result<seq<Plan>, CompileError>)
    ensures r == Compile(nodes)
  {
    if nodes == [] {
      return Err(PipelineEmpty);
    }
    if !nodes[0].From? {
      return Err(FirstNodeNotFrom(0));
    }
    var plans: seq<Plan> := [];
    var i := 0;
    assert forall rest: seq<Plan> :: plans + rest == rest;
    while i < |nodes|
      invariant i <= |nodes|
      invariant Compile(nodes) == match CompileFrom(nodes, i)
                                  case Err(e) => Err(e)
                                  case Ok(rest) => Ok(plans + rest)
      decreases |nodes| - i
    {
      if nodes[i].Nil? {
        return Err(InvalidNode(i));
      }
      if !nodes[i].From? {
        return Err(FirstNodeNotFrom(i));
      }
      var one := CompilePlanAt(nodes, i);
      if one.Err? {
        return Err(one.error);
      }
      ScanMovesOn(nodes, i + 1, Plan(nodes[i].trigger.value, nodes[i].source, nodes[i].options, [], NO_TERMINAL));
      var (plan, next) := one.value;
      ghost var rest := CompileFrom(nodes, next);
      assert rest.Ok? ==> plans + ([plan] + rest.value) == plans + [plan] + rest.value;
      plans := plans + [plan];
      i := next;
    }
    assert plans + [] == plans;
    return Ok(plans);
  }

  // ---------- the grammar ----------

  predicate IsStage(node: Node) {
    node.Stage? && node.valid && node.step.Some?
  }

  function StepsOf(nodes: seq<Node>): seq<Step>
    requires forall i | 0 <= i < |nodes| :: IsStage(nodes[i])
  {
    seq(|nodes|, i requires 0 <= i < |nodes| && IsStage(nodes[i]) => nodes[i].step.value)
  }

  /** From (Pipe | Parallel | Map)* (Reply | Push | Sink), every part valid and fitting its trigger. */
  predicate IsPipeline(nodes: seq<Node>) {
    && |nodes| >= 2
    && nodes[0].From? && nodes[0].valid && nodes[0].trigger.Some? && OptionsFit(nodes[0].trigger.value, nodes[0].options)
    && (forall i | 0 < i < |nodes| - 1 :: IsStage(nodes[i]))
    && var last := nodes[|nodes| - 1];
       last.End? && last.valid && last.terminal.Some? && TerminalFits(nodes[0].trigger.value, last.terminal.value)
       && Reconcile(StepsOf(nodes[1..|nodes| - 1]), last.terminal.value).Some?
  }

  function PlanOf(nodes: seq<Node>): Plan
    requires IsPipeline(nodes)
  {
    var terminal := nodes[|nodes| - 1].terminal.value;
    Plan(nodes[0].trigger.value, nodes[0].source, nodes[0].options,
         Reconcile(StepsOf(nodes[1..|nodes| - 1]), terminal).value, terminal)
  }

  function Flatten(parts: seq<seq<Node>>): seq<Node> {
    if parts == [] then [] else parts[0] + Flatten(parts[1..])
  }

  /** The plans are those of consecutive pipelines that make up the nodes, in order. */
  predicate Partitions(parts: seq<seq<Node>>, nodes: seq<Node>, plans: seq<Plan>) {
    && Flatten(parts) == nodes && |parts| == |plans|
    && forall k | 0 <= k < |parts| :: IsPipeline(parts[k]) && plans[k] == PlanOf(parts[k])
  }

  lemma {:induction false} ScanReads(nodes: seq<Node>, start: nat, i: nat, plan: Plan, end: nat)
    requires start < i <= end < |nodes|
    requires forall k | i <= k < end :: IsStage(nodes[k])
    requires nodes[end].End? && nodes[end].valid && nodes[end].terminal.Some? && TerminalFits(plan.trigger, nodes[end].terminal.value)
    requires NextStart(nodes, end + 1).None?
    ensures var steps := Reconcile(plan.steps + StepsOf(nodes[i..end]), nodes[end].terminal.value);
            && (steps.Some? ==> Scan(nodes, i, plan) == Ok((plan.(steps := steps.value, terminal := nodes[end].terminal.value), end + 1)))
            && (steps.None? ==> Scan(nodes, i, plan).Err?)
    decreases end - i
  {
    if i == end {
      assert plan.steps + StepsOf(nodes[i..end]) == plan.steps;
    } else {
      var plan' := plan.(steps := plan.steps + [nodes[i].step.value]);
      ScanReads(nodes, start, i + 1, plan', end);
      assert plan.steps + StepsOf(nodes[i..end]) == plan'.steps + StepsOf(nodes[i + 1..end]);
    }
  }

  /** A scan that succeeds has read stages up to a fitting terminal, with another From or nothing behind it. */
  lemma {:induction false} ScanStops(nodes: seq<Node>, i: nat, plan: Plan) returns (end: nat)
    requires Scan(nodes, i, plan).Ok?
    ensures i <= end < |nodes| && Scan(nodes, i, plan).value.1 == end + 1
    ensures forall k | i <= k < end :: IsStage(nodes[k])
    ensures nodes[end].End? && nodes[end].valid && nodes[end].terminal.Some? && TerminalFits(plan.trigger, nodes[end].terminal.value)
    ensures NextStart(nodes, end + 1).None?
    decreases |nodes| - i
  {
    if nodes[i].Stage? {
      end := ScanStops(nodes, i + 1, plan.(steps := plan.steps + [nodes[i].step.value]));
    } else {
      end := i;
    }
  }

  lemma SliceOfSlice(nodes: seq<Node>, start: nat, end: nat)
    requires start + 2 <= end <= |nodes|
    ensures nodes[start..end][1..end - start - 1] == nodes[start + 1..end - 1]
  {
    var x, y := nodes[start..end][1..end - start - 1], nodes[start + 1..end - 1];
    assert |x| == |y|;
    forall k | 0 <= k < |x|
      ensures x[k] == y[k]
    {
      assert x[k] == nodes[start..end][k + 1] == nodes[start + k + 1];
    }
  }

  /** One pipeline compiles exactly when it is one, and then to its plan. */
  lemma CompileAtReads(nodes: seq<Node>, start: nat, end: nat)
    requires start < end <= |nodes| && IsPipeline(nodes[start..end]) && NextStart(nodes, end).None?
    ensures nodes[start].From? && CompileAt(nodes, start) == Ok((PlanOf(nodes[start..end]), end))
  {
    var part := nodes[start..end];
    assert part[0] == nodes[start] && part[|part| - 1] == nodes[end - 1];
    SliceOfSlice(nodes, start, end);
    assert forall k | start + 1 <= k < end - 1 :: nodes[k] == part[k - start];
    var from := nodes[start];
    var empty := Plan(from.trigger.value, from.source, from.options, [], NO_TERMINAL);
    ScanReads(nodes, start, start + 1, empty, end - 1);
    assert empty.steps + StepsOf(nodes[start + 1..end - 1]) == StepsOf(part[1..|part| - 1]);
  }

  lemma CompileAtIsPipeline(nodes: seq<Node>, start: nat)
    requires start < |nodes| && nodes[start].From? && CompileAt(nodes, start).Ok?
    ensures var (plan, end) := CompileAt(nodes, start).value;
            && start < end <= |nodes| && NextStart(nodes, end).None?
            && IsPipeline(nodes[start..end]) && plan == PlanOf(nodes[start..end])
  {
    var from := nodes[start];
    var empty := Plan(from.trigger.value, from.source, from.options, [], NO_TERMINAL);
    var last := ScanStops(nodes, start + 1, empty);
    ScanReads(nodes, start, start + 1, empty, last);
    var part := nodes[start..last + 1];
    assert part[0] == nodes[start] && part[|part| - 1] == nodes[last];
    assert nodes[start + 1..last] == part[1..|part| - 1];
    assert empty.steps + StepsOf(nodes[start + 1..last]) == StepsOf(part[1..|part| - 1]);
  }

  lemma {:induction false} CompileFromPartitions(nodes: seq<Node>, i: nat) returns (parts: seq<seq<Node>>)
    requires i <= |nodes| && CompileFrom(nodes, i).Ok?
    ensures Partitions(parts, nodes[i..], CompileFrom(nodes, i).value)
    decreases |nodes| - i
  {
    if i == |nodes| {
      parts := [];
    } else {
      CompileAtIsPipeline(nodes, i);
      var (plan, next) := CompileAt(nodes, i).value;
      var rest := CompileFromPartitions(nodes, next);
      parts := [nodes[i..next]] + rest;
      assert parts[1..] == rest;
      assert nodes[i..] == nodes[i..next] + nodes[next..];
    }
  }

  lemma {:induction false} PartitionsCompile(nodes: seq<Node>, i: nat, parts: seq<seq<Node>>, plans: seq<Plan>)
    requires i <= |nodes| && Partitions(parts, nodes[i..], plans)
    ensures CompileFrom(nodes, i) == Ok(plans)
    decreases |parts|
  {
    if parts != [] {
      var next := i + |parts[0]|;
      var rest := parts[1..];
      assert nodes[i..] == parts[0] + Flatten(rest);
      assert nodes[i..next] == parts[0] && nodes[next..] == Flatten(rest);
      if rest != [] {
        assert Flatten(rest) == rest[0] + Flatten(rest[1..]);
        assert rest[0] == parts[1] && nodes[next..][0] == parts[1][0];
      }
      CompileAtReads(nodes, i, next);
      PartitionsCompile(nodes, next, rest, plans[1..]);
      assert plans == [plans[0]] + plans[1..];
    }
  }

  /**
   Compilation succeeds exactly on the non-empty sequences that are made up of
   consecutive pipelines, and returns the plan of each of them, in order.
   */
  lemma CompilerIsExact(nodes: seq<Node>, plans: seq<Plan>)
    ensures Compile(nodes) == Ok(plans) <==> nodes != [] && exists parts :: Partitions(parts, nodes, plans)
  {
    assert nodes[0..] == nodes;
    if Compile(nodes) == Ok(plans) {
      var parts := CompileFromPartitions(nodes, 0);
      assert Partitions(parts, nodes, plans);
    }
    if nodes != [] && exists parts :: Partitions(parts, nodes, plans) {
      var parts :| Partitions(parts, nodes, plans);
      PartitionsCompile(nodes, 0, parts, plans);
      assert parts[0][0] == nodes[0];
    }
  }

  // ---------- back from plans to nodes ----------

  /** The nodes that a plan stands for. */
  function Unfold(plan: Plan): seq<Node> {
    [From(true, Some(plan.trigger), plan.source, plan.options)]
    + seq(|plan.steps|, i requires 0 <= i < |plan.steps| => Stage(true, Some(plan.steps[i])))
    + [End(true, Some(plan.terminal))]
  }

  function UnfoldAll(plans: seq<Plan>): seq<Node> {
    if plans == [] then [] else Unfold(plans[0]) + UnfoldAll(plans[1..])
  }

  /** A Pipe without a schema that takes the one of the JSON Reply behind it. */
  predicate TakesSchema(node: Node, next: Node, node': Node) {
    && node.Stage? && node.step.Some? && node.step.value.kind == P.StepPipe && node.step.value.schema.None?
    && next.End? && next.terminal.Some? && next.terminal.value.kind == P.TerminalReply && next.terminal.value.schema.Some?
    && node' == node.(step := Some(node.step.value.(schema := next.terminal.value.schema)))
  }

  /** Node by node the same, but for schemas taken from a Reply. */
  predicate SameNodes(nodes: seq<Node>, nodes': seq<Node>) {
    && |nodes'| == |nodes|
    && forall i | 0 <= i < |nodes| :: nodes'[i] == nodes[i] || (i + 1 < |nodes| && TakesSchema(nodes[i], nodes[i + 1], nodes'[i]))
  }

  /** Every Pipe in front of a JSON Reply has a schema that agrees with it. */
  predicate SchemasAgree(nodes: seq<Node>) {
    forall i | 0 <= i < |nodes| - 1 && nodes[i].Stage? && nodes[i + 1].End? ::
      nodes[i].step.Some? && nodes[i + 1].terminal.Some?
      && var step, terminal := nodes[i].step.value, nodes[i + 1].terminal.value;
         step.kind == P.StepPipe && terminal.kind == P.TerminalReply && terminal.schema.Some? ==>
           step.schema.Some? && CompatibleResultSchemas(step.schema.value, terminal.schema.value)
  }

  /** Reconciliation touches nothing but a missing schema of a last Pipe, and is done once. */
  lemma ReconciledSteps(steps: seq<Step>, t: Terminal)
    requires Reconcile(steps, t).Some?
    ensures var steps' := Reconcile(steps, t).value;
            && |steps'| == |steps| && Reconcile(steps', t) == Some(steps')
            && (forall i | 0 <= i < |steps| - 1 :: steps'[i] == steps[i])
  {
  }

  /** A pipeline is refused for its schemas if and only if a JSON Reply follows a Pipe with a schema of its own that disagrees. */
  lemma ReconcileRefuses(steps: seq<Step>, t: Terminal)
    ensures Reconcile(steps, t).None? <==>
              (&& t.kind == P.TerminalReply && t.schema.Some? && steps != []
               && var last := steps[|steps| - 1];
                  last.kind == P.StepPipe && last.schema.Some? && !CompatibleResultSchemas(last.schema.value, t.schema.value))
  {
  }

  /** The unfolded plan, node by node. */
  lemma UnfoldAt(plan: Plan)
    ensures var part := Unfold(plan);
            && |part| == |plan.steps| + 2 && part[0] == From(true, Some(plan.trigger), plan.source, plan.options)
            && part[|part| - 1] == End(true, Some(plan.terminal))
            && (forall i | 0 < i < |part| - 1 :: part[i] == Stage(true, Some(plan.steps[i - 1])))
            && (forall i | 0 < i < |part| - 1 :: IsStage(part[i])) && StepsOf(part[1..|part| - 1]) == plan.steps
  {
    var part := Unfold(plan);
    assert forall i | 0 < i < |part| - 1 :: part[i] == Stage(true, Some(plan.steps[i - 1]));
  }

  lemma UnfoldIsPipeline(part: seq<Node>)
    requires IsPipeline(part)
    ensures IsPipeline(Unfold(PlanOf(part))) && PlanOf(Unfold(PlanOf(part))) == PlanOf(part)
  {
    var plan := PlanOf(part);
    UnfoldAt(plan);
    ReconciledSteps(StepsOf(part[1..|part| - 1]), plan.terminal);
    hide Reconcile, OptionsFit, TerminalFits, Unfold;
  }

  /** The nodes of a pipeline in terms of its steps. */
  lemma PipelineAt(part: seq<Node>)
    requires IsPipeline(part)
    ensures var steps := StepsOf(part[1..|part| - 1]);
            && |steps| == |part| - 2 && (forall i | 0 < i < |part| - 1 :: part[i] == Stage(true, Some(steps[i - 1])))
            && part[0] == From(true, Some(PlanOf(part).trigger), PlanOf(part).source, PlanOf(part).options)
            && part[|part| - 1] == End(true, Some(PlanOf(part).terminal))
  {
    assert forall i | 0 < i < |part| - 1 :: part[1..|part| - 1][i - 1] == part[i];
  }

  lemma UnfoldOne(part: seq<Node>)
    requires IsPipeline(part)
    ensures SameNodes(part, Unfold(PlanOf(part))) && SchemasAgree(Unfold(PlanOf(part)))
  {
    var plan := PlanOf(part);
    UnfoldAt(plan);
    PipelineAt(part);
    ReconciledSteps(StepsOf(part[1..|part| - 1]), plan.terminal);
    if |part| > 2 {
      ReconciledLast(StepsOf(part[1..|part| - 1]), plan.terminal);
    }
    hide IsPipeline, PlanOf, Unfold, Reconcile, StepsOf;
  }

  /** The last step keeps its schema, or takes that of the Reply, and agrees with it. */
  lemma ReconciledLast(steps: seq<Step>, t: Terminal)
    requires Reconcile(steps, t).Some? && steps != []
    ensures var last, last' := steps[|steps| - 1], Reconcile(steps, t).value[|steps| - 1];
            && (last' == last || TakesSchema(Stage(true, Some(last)), End(true, Some(t)), Stage(true, Some(last'))))
            && (last'.kind == P.StepPipe && t.kind == P.TerminalReply && t.schema.Some? ==>
                  last'.schema.Some? && CompatibleResultSchemas(last'.schema.value, t.schema.value))
  {
  }

  lemma SameJoins(a: seq<Node>, a': seq<Node>, b: seq<Node>, b': seq<Node>)
    requires SameNodes(a, a') && SameNodes(b, b')
    ensures SameNodes(a + b, a' + b')
  {
    hide TakesSchema;
    var all, all' := a + b, a' + b';
    forall i | 0 <= i < |all|
      ensures all'[i] == all[i] || (i + 1 < |all| && TakesSchema(all[i], all[i + 1], all'[i]))
    {
      if i < |a| {
        assert all[i] == a[i] && all'[i] == a'[i];
        assert i + 1 < |a| ==> all[i + 1] == a[i + 1];
      } else {
        assert all[i] == b[i - |a|] && all'[i] == b'[i - |a|];
        assert i + 1 < |all| ==> all[i + 1] == b[i + 1 - |a|];
      }
    }
  }

  lemma AgreeJoins(a: seq<Node>, b: seq<Node>)
    requires SchemasAgree(a) && SchemasAgree(b) && (a != [] ==> a[|a| - 1].End?)
    ensures SchemasAgree(a + b)
  {
    var all := a + b;
    forall i | 0 <= i < |all| - 1 && all[i].Stage? && all[i + 1].End?
      ensures all[i].step.Some? && all[i + 1].terminal.Some?
              && var step, terminal := all[i].step.value, all[i + 1].terminal.value;
                 step.kind == P.StepPipe && terminal.kind == P.TerminalReply && terminal.schema.Some? ==>
                   step.schema.Some? && CompatibleResultSchemas(step.schema.value, terminal.schema.value)
    {
      if i < |a| {
        assert all[i] == a[i];
        assert i + 1 < |a| ==> all[i + 1] == a[i + 1];
      } else {
        assert all[i] == b[i - |a|] && all[i + 1] == b[i + 1 - |a|];
      }
    }
  }

  lemma {:induction false} UnfoldParts(parts: seq<seq<Node>>, nodes: seq<Node>, plans: seq<Plan>) returns (parts': seq<seq<Node>>)
    requires Partitions(parts, nodes, plans)
    ensures Partitions(parts', UnfoldAll(plans), plans)
    ensures SameNodes(nodes, UnfoldAll(plans)) && SchemasAgree(UnfoldAll(plans))
    decreases |parts|
  {
    if parts == [] {
      parts' := [];
    } else {
      var rest := UnfoldParts(parts[1..], Flatten(parts[1..]), plans[1..]);
      UnfoldOne(parts[0]);
      UnfoldIsPipeline(parts[0]);
      UnfoldAt(plans[0]);
      SameJoins(parts[0], Unfold(plans[0]), Flatten(parts[1..]), UnfoldAll(plans[1..]));
      AgreeJoins(Unfold(plans[0]), UnfoldAll(plans[1..]));
      parts' := [Unfold(plans[0])] + rest;
      assert parts'[1..] == rest;
      hide IsPipeline, PlanOf, SameNodes, SchemasAgree, Unfold;
      forall k | 0 <= k < |parts'|
        ensures IsPipeline(parts'[k]) && plans[k] == PlanOf(parts'[k])
      {
        if k > 0 {
          assert parts'[k] == rest[k - 1] && plans[k] == plans[1..][k - 1];
        }
      }
    }
  }

  /**
   No node is dropped, moved or used twice: the compiled plans unfold to the same nodes in
   the same order, but for a Pipe that takes the schema of its Reply; all schemas agree
   then, and the unfolded nodes compile to the same plans.
   */
  lemma NodesAreConserved(nodes: seq<Node>)
    requires Compile(nodes).Ok?
    ensures var plans := Compile(nodes).value;
            && SameNodes(nodes, UnfoldAll(plans)) && SchemasAgree(UnfoldAll(plans))
            && Compile(UnfoldAll(plans)) == Ok(plans)
  {
    hide Compile, SameNodes, SchemasAgree, IsPipeline, PlanOf;
    var plans := Compile(nodes).value;
    CompilerIsExact(nodes, plans);
    var parts :| Partitions(parts, nodes, plans);
    var parts' := UnfoldParts(parts, nodes, plans);
    SameLength(nodes, UnfoldAll(plans));
    CompilerIsExact(UnfoldAll(plans), plans);
  }

  lemma SameLength(nodes: seq<Node>, nodes': seq<Node>)
    requires SameNodes(nodes, nodes')
    ensures nodes == [] <==> nodes' == []
  {
  }
}
