/**
 Compiled plans: the fields of internal/runtime/plan.go that belong to the replay
 contract. Go function values are left out, since the fingerprint covers them
 through the build identity, and a MaxCostUSD is kept as its shortest decimal text.
 */
module Plans {
  import opened Wrappers

  datatype TriggerKind = TriggerHTTP | TriggerCron | TriggerWebhook | TriggerStream

  function TriggerKindText(k: TriggerKind): string {
    match k
    case TriggerHTTP => "http"
    case TriggerCron => "cron"
    case TriggerWebhook => "webhook"
    case TriggerStream => "stream"
  }

  datatype Trigger = Trigger(
    kind: TriggerKind, verb: string, path: string, expr: string, value: string, uri: string,
    workerPool: int, idempotencyHeader: string, signatureEnv: string, signatureHeader: string,
    dlqTarget: string, maxAttempts: int, maxInFlight: int, ackPolicy: string)

  datatype StepKind = StepPipe | StepParallel | StepMap

  function StepKindText(k: StepKind): string {
    match k
    case StepPipe => "pipe"
    case StepParallel => "parallel"
    case StepMap => "map"
  }

  datatype Tool = Tool(
    name: string, description: string, inputSchema: string, argumentName: string, effect: string,
    idempotencyKey: string, requiresApproval: bool, timeout: int, sideEffects: seq<string>)

  datatype BashTool = BashTool(
    name: string, sandboxRoot: string, timeout: int, maxOutputBytes: int,
    unsafeHostExecution: bool, allowedEnv: seq<string>)

  datatype ResultSchema = ResultSchema(name: string, typePackage: string, typeName: string, jsonSchema: string)

  datatype Retry = Retry(providerRetries: int, backoff: int)

  datatype Budget = Budget(maxIterations: int, maxTokens: int, maxCostUSD: string, maxWallClock: int)

  datatype Pipeline = Pipeline(steps: seq<Step>)

  datatype SubAgent = SubAgent(name: string, pipeline: Pipeline, maxParallel: int, partialOK: bool)

  datatype Step = Step(
    kind: StepKind, goal: string, model: string, concurrency: int, partialOK: bool, noCache: bool,
    sequentialTools: bool, fallback: seq<string>, tools: seq<Tool>, bash: seq<BashTool>,
    skills: seq<string>, mcpServers: seq<string>, subAgents: seq<SubAgent>,
    resultSchema: Option<ResultSchema>, retry: Option<Retry>, budget: Budget,
    branches: seq<Pipeline>, mapPipeline: Pipeline)

  datatype TerminalKind = TerminalReply | TerminalPush | TerminalSink

  function TerminalKindText(k: TerminalKind): string {
    match k
    case TerminalReply => "reply"
    case TerminalPush => "push"
    case TerminalSink => "sink"
  }

  datatype Terminal = Terminal(
    kind: TerminalKind, async: bool, sse: bool, resultSchema: Option<ResultSchema>,
    sinkLog: bool, sinkFilePath: string, pushWebhookURL: string, pushQueueURI: string)

  datatype Plan = Plan(trigger: Trigger, steps: seq<Step>, terminal: Terminal)
}
