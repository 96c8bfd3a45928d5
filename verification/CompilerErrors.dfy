/**
 Where the compiler finds fault: an error names the first node that no continuation could
 mend, and what is wrong with it.
 */
module CompilerErrors {
  import opened Wrappers
  import opened Compiler
  import P = Plans

  /** Some continuation compiles. */
  ghost predicate Viable(nodes: seq<Node>) {
    exists more :: Compile(nodes + more).Ok?
  }

  /** Two node sequences with the same first n nodes. */
  predicate Agree(nodes: seq<Node>, nodes': seq<Node>, n: nat) {
    n <= |nodes| && n <= |nodes'| && forall k | 0 <= k < n :: nodes'[k] == nodes[k]
  }

  /** A From that everything fits, and a terminal that fits everything. */
  const FROM := From(true, Some(P.TriggerCron), "", Options("", "", "", "", 0, 0, ""))
  const PUSH := End(true, Some(Terminal(P.TerminalPush, "", None)))

  /** What the error says of the node that it names. */
  predicate Names(nodes: seq<Node>, e: CompileError) {
    match e
    case PipelineEmpty => nodes == []
    case FirstNodeNotFrom(i) => i == 0 && i < |nodes| && !nodes[i].From?
    case InvalidNode(i) => i < |nodes| && (nodes[i].Nil? || (nodes[i].Unknown? && nodes[i].valid))
    case NodeFails(i) =>
      && i < |nodes| && !nodes[i].Nil?
      && (!nodes[i].valid || (nodes[i].From? && nodes[i].trigger.None?) || (nodes[i].Stage? && nodes[i].step.None?)
          || (nodes[i].End? && nodes[i].terminal.None?))
    case IncompatibleTriggerOption(i) => i < |nodes| && nodes[i].From? && nodes[i].trigger.Some?
    case TerminalMissing(i) => 0 < i && (i == |nodes| || (i < |nodes| && nodes[i].From?)) && !nodes[i - 1].End?
    case IncompatibleTerminal(i) =>
      i < |nodes| && nodes[i].End? && nodes[i].terminal.Some? && nodes[i].terminal.value.kind == P.TerminalReply
    case MultipleTerminals(i) => 0 < i < |nodes| && nodes[i - 1].End? && nodes[i].End?
    case TerminalNotLast(i) => 0 < i < |nodes| && nodes[i - 1].End? && (nodes[i].Stage? || nodes[i].Unknown?)
  }

  // ---------- the scan of one pipeline ----------

  lemma {:induction false} ScanNames(nodes: seq<Node>, i: nat, plan: Plan)
    requires Scan(nodes, i, plan).Err? && 0 < i <= |nodes| && !nodes[i - 1].End?
    ensures var e := Scan(nodes, i, plan).error; !e.PipelineEmpty? && i <= e.index <= |nodes| && Names(nodes, e)
    decreases |nodes| - i
  {
    if i < |nodes| && nodes[i].Stage? && nodes[i].valid && nodes[i].step.Some? {
      ScanNames(nodes, i + 1, plan.(steps := plan.steps + [nodes[i].step.value]));
    }
  }

  /** A faulty scan stops at the same node whatever comes behind it. */
  lemma {:induction false} ScanIsLocal(nodes: seq<Node>, nodes': seq<Node>, i: nat, plan: Plan)
    requires Scan(nodes, i, plan).Err? && 0 < i <= |nodes| && !nodes[i - 1].End?
    requires !Scan(nodes, i, plan).error.PipelineEmpty? && Agree(nodes, nodes', Scan(nodes, i, plan).error.index + 1)
    ensures Scan(nodes', i, plan) == Scan(nodes, i, plan)
    decreases |nodes| - i
  {
    ScanNames(nodes, i, plan);
    if i < |nodes| && nodes[i].Stage? && nodes[i].valid && nodes[i].step.Some? {
      ScanIsLocal(nodes, nodes', i + 1, plan.(steps := plan.steps + [nodes[i].step.value]));
    }
  }

  /** A scan that succeeds needs nothing behind its pipeline but a place to begin again. */
  lemma {:induction false} ScanAgrees(nodes: seq<Node>, nodes': seq<Node>, i: nat, plan: Plan)
    requires Scan(nodes, i, plan).Ok? && Agree(nodes, nodes', Scan(nodes, i, plan).value.1)
    requires NextStart(nodes', Scan(nodes, i, plan).value.1).None?
    ensures Scan(nodes', i, plan) == Scan(nodes, i, plan)
    decreases |nodes| - i
  {
    ScanMovesOn(nodes, i, plan);
    if nodes[i].Stage? {
      ScanAgrees(nodes, nodes', i + 1, plan.(steps := plan.steps + [nodes[i].step.value]));
    }
  }

  /** Up to its fault, a scan can be completed: as it stands, or with a Push. */
  lemma {:induction false} ScanCompletes(nodes: seq<Node>, i: nat, plan: Plan) returns (more: seq<Node>)
    requires Scan(nodes, i, plan).Err? && 0 < i <= |nodes| && !nodes[i - 1].End?
    ensures var e := Scan(nodes, i, plan).error;
            && !e.PipelineEmpty? && e.index <= |nodes|
            && var nodes' := nodes[..e.index] + more; Scan(nodes', i, plan).Ok? && Scan(nodes', i, plan).value.1 == |nodes'|
    decreases |nodes| - i
  {
    ScanNames(nodes, i, plan);
    var e := Scan(nodes, i, plan).error;
    if i < |nodes| && nodes[i].Stage? && nodes[i].valid && nodes[i].step.Some? {
      more := ScanCompletes(nodes, i + 1, plan.(steps := plan.steps + [nodes[i].step.value]));
    } else if e.index == i {
      more := [PUSH];
      var nodes' := nodes[..i] + more;
      assert nodes'[i] == PUSH && |nodes'| == i + 1;
      assert NextStart(nodes', i + 1).None?;
    } else {
      more := [];
      var nodes' := nodes[..e.index] + more;
      assert nodes'[i] == nodes[i] && |nodes'| == i + 1;
      assert NextStart(nodes', i + 1).None?;
    }
  }

  // ---------- all pipelines ----------

  lemma {:induction false} FromNames(nodes: seq<Node>, i: nat)
    requires i <= |nodes| && CompileFrom(nodes, i).Err? && (i < |nodes| ==> nodes[i].From?)
    ensures var e := CompileFrom(nodes, i).error; !e.PipelineEmpty? && i <= e.index <= |nodes| && Names(nodes, e)
    decreases |nodes| - i
  {
    var from := nodes[i];
    if from.valid && from.trigger.Some? && OptionsFit(from.trigger.value, from.options) {
      var plan := Plan(from.trigger.value, from.source, from.options, [], NO_TERMINAL);
      if Scan(nodes, i + 1, plan).Err? {
        ScanNames(nodes, i + 1, plan);
      } else {
        ScanMovesOn(nodes, i + 1, plan);
        ScanEndsAtStart(nodes, i + 1, plan);
        FromNames(nodes, Scan(nodes, i + 1, plan).value.1);
      }
    }
  }

  lemma {:induction false} ScanEndsAtStart(nodes: seq<Node>, i: nat, plan: Plan)
    requires Scan(nodes, i, plan).Ok?
    ensures var next := Scan(nodes, i, plan).value.1; i < next <= |nodes| && NextStart(nodes, next).None? && (next < |nodes| ==> nodes[next].From?)
    decreases |nodes| - i
  {
    ScanMovesOn(nodes, i, plan);
    if nodes[i].Stage? {
      ScanEndsAtStart(nodes, i + 1, plan.(steps := plan.steps + [nodes[i].step.value]));
    }
  }

  lemma {:induction false} FromIsLocal(nodes: seq<Node>, nodes': seq<Node>, i: nat)
    requires i < |nodes| && CompileFrom(nodes, i).Err? && nodes[i].From?
    requires !CompileFrom(nodes, i).error.PipelineEmpty? && Agree(nodes, nodes', CompileFrom(nodes, i).error.index + 1)
    requires i <= CompileFrom(nodes, i).error.index
    ensures i < |nodes'| && CompileFrom(nodes', i) == CompileFrom(nodes, i)
    decreases |nodes| - i
  {
    FromNames(nodes, i);
    var from, e := nodes[i], CompileFrom(nodes, i).error;
    if from.valid && from.trigger.Some? && OptionsFit(from.trigger.value, from.options) {
      var plan := Plan(from.trigger.value, from.source, from.options, [], NO_TERMINAL);
      if Scan(nodes, i + 1, plan).Err? {
        ScanIsLocal(nodes, nodes', i + 1, plan);
      } else {
        ScanEndsAtStart(nodes, i + 1, plan);
        var next := Scan(nodes, i + 1, plan).value.1;
        assert CompileFrom(nodes, |nodes|) == Ok([]);
        FromNames(nodes, next);
        ScanAgrees(nodes, nodes', i + 1, plan);
        FromIsLocal(nodes, nodes', next);
      }
    }
  }

  lemma {:induction false} FromCompletes(nodes: seq<Node>, i: nat) returns (more: seq<Node>)
    requires i < |nodes| && CompileFrom(nodes, i).Err? && nodes[i].From?
    ensures var e := CompileFrom(nodes, i).error;
            && !e.PipelineEmpty? && i <= e.index <= |nodes| && (e.index == i ==> more == [])
            && var nodes' := nodes[..e.index] + more; i <= |nodes'| && CompileFrom(nodes', i).Ok?
    decreases |nodes| - i
  {
    FromNames(nodes, i);
    var from, e := nodes[i], CompileFrom(nodes, i).error;
    if from.valid && from.trigger.Some? && OptionsFit(from.trigger.value, from.options) {
      var plan := Plan(from.trigger.value, from.source, from.options, [], NO_TERMINAL);
      if Scan(nodes, i + 1, plan).Err? {
        ScanNames(nodes, i + 1, plan);
        more := ScanCompletes(nodes, i + 1, plan);
        var nodes' := nodes[..e.index] + more;
        assert nodes'[i] == nodes[i];
        assert CompileFrom(nodes', |nodes'|) == Ok([]);
      } else {
        more := FromContinues(nodes, i, plan);
      }
    } else {
      more := [];
      assert |nodes[..e.index] + more| == i;
    }
  }

  lemma {:induction false} FromContinues(nodes: seq<Node>, i: nat, plan: Plan) returns (more: seq<Node>)
    requires i < |nodes| && CompileFrom(nodes, i).Err? && nodes[i].From? && nodes[i].valid && nodes[i].trigger.Some?
    requires OptionsFit(nodes[i].trigger.value, nodes[i].options)
    requires plan == Plan(nodes[i].trigger.value, nodes[i].source, nodes[i].options, [], NO_TERMINAL) && Scan(nodes, i + 1, plan).Ok?
    ensures var e := CompileFrom(nodes, i).error;
            && !e.PipelineEmpty? && i < e.index <= |nodes|
            && var nodes' := nodes[..e.index] + more; i <= |nodes'| && CompileFrom(nodes', i).Ok?
    decreases |nodes| - i, 0
  {
    ScanEndsAtStart(nodes, i + 1, plan);
    var next, e := Scan(nodes, i + 1, plan).value.1, CompileFrom(nodes, i).error;
    assert CompileFrom(nodes, |nodes|) == Ok([]);
    more := FromCompletes(nodes, next);
    var nodes' := nodes[..e.index] + more;
    assert nodes'[i] == nodes[i];
    assert NextStart(nodes', next).None? by {
      if e.index > next {
        assert nodes'[next] == nodes[next];
      }
    }
    ScanAgrees(nodes, nodes', i + 1, plan);
  }

  // ---------- the theorem ----------

  /**
   An error of the compiler names the first dead end: what stands before the node could
   still be completed, nothing that begins with the node itself could, and the node has
   the fault that the error says. A sequence that merely ends too early names its end.
   */
  lemma ErrorIsFirstDeadEnd(nodes: seq<Node>)
    requires nodes != [] && Compile(nodes).Err?
    ensures var e := Compile(nodes).error;
            && !e.PipelineEmpty? && e.index <= |nodes| && Names(nodes, e)
            && Viable(nodes[..e.index])
            && (e.index < |nodes| ==> !Viable(nodes[..e.index + 1]))
  {
    var e := Compile(nodes).error;
    if !nodes[0].From? {
      EmptyIsViable();
      assert nodes[..0] == [];
      forall more
        ensures Compile(nodes[..1] + more).Err?
      {
        assert (nodes[..1] + more)[0] == nodes[0];
      }
    } else {
      FromNames(nodes, 0);
      var more := FromCompletes(nodes, 0);
      if e.index == 0 {
        EmptyIsViable();
        assert nodes[..0] == [];
      } else {
        assert (nodes[..e.index] + more)[0] == nodes[0];
        assert Compile(nodes[..e.index] + more).Ok?;
      }
      if e.index < |nodes| {
        var stem := nodes[..e.index + 1];
        forall rest
          ensures Compile(stem + rest).Err?
        {
          StaysFaulty(nodes, rest);
        }
      }
    }
  }

  lemma StaysFaulty(nodes: seq<Node>, rest: seq<Node>)
    requires nodes != [] && nodes[0].From? && Compile(nodes).Err?
    requires !Compile(nodes).error.PipelineEmpty? && Compile(nodes).error.index < |nodes|
    ensures Compile(nodes[..Compile(nodes).error.index + 1] + rest) == Compile(nodes)
  {
    var n := Compile(nodes).error.index + 1;
    var nodes' := nodes[..n] + rest;
    assert forall k | 0 <= k < n :: nodes'[k] == nodes[k];
    FromIsLocal(nodes, nodes', 0);
  }

  lemma EmptyIsViable()
    ensures Viable([])
  {
    var nodes := [FROM, PUSH];
    assert NextStart(nodes, 2).None?;
    var plan := Plan(P.TriggerCron, "", FROM.options, [], NO_TERMINAL);
    assert Scan(nodes, 1, plan).Ok? && Scan(nodes, 1, plan).value.1 == 2;
    assert CompileFrom(nodes, 2) == Ok([]);
    assert CompileFrom(nodes, 0).Ok?;
    assert [] + nodes == nodes;
    assert Compile([] + nodes).Ok?;
  }

  // ---------- what fits ----------

  /** The strongest identity that a schema carries. */
  datatype Identity = ByType(typ: string) | ByJson(json: string) | ByName(name: string)

  function IdentityOf(s: Schema): Identity {
    if s.typ.Some? then ByType(s.typ.value) else if s.jsonSchema != "" then ByJson(s.jsonSchema) else ByName(s.name)
  }

  /** Schemas are compatible if and only if they have the same identity, so compatibility is an equivalence. */
  lemma CompatibilityIsIdentity(left: Schema, right: Schema)
    ensures CompatibleResultSchemas(left, right) <==> IdentityOf(left) == IdentityOf(right)
  {
  }

  /** In compiled plans a Reply answers an HTTP request, and every option belongs to its trigger. */
  lemma CompiledPlansFit(nodes: seq<Node>, k: nat)
    requires Compile(nodes).Ok? && k < |Compile(nodes).value|
    ensures var plan := Compile(nodes).value[k];
            var request := plan.trigger == P.TriggerHTTP || plan.trigger == P.TriggerWebhook;
            && (plan.terminal.kind == P.TerminalReply ==> plan.trigger == P.TriggerHTTP)
            && (plan.options.signatureEnv != "" || plan.options.signatureHeader != "" || plan.options.idempotencyHeader != "" ==> request)
            && (plan.trigger != P.TriggerStream ==>
                  plan.options.dlqTarget == "" && plan.options.maxAttempts <= 0 && plan.options.maxInFlight <= 0 && plan.options.ackPolicy == "")
  {
    hide Compile, Reconcile;
    var plans := Compile(nodes).value;
    CompilerIsExact(nodes, plans);
    var parts :| Partitions(parts, nodes, plans);
    assert IsPipeline(parts[k]) && plans[k] == PlanOf(parts[k]);
  }
}
