/** One agent run (agent/graph.go): the ReAct loop with its approval gate, and the sub-agents that a
    tool call can start (agent/subagent.go, agent/deepagent.go). */
module Graphs {
  import opened Values
  import opened ToolMessages
  import Audit
  import Schema
  import Stores
  import Text
  import Validation

  const MAX_ITERATIONS := 20

  datatype State = State(messages: seq<Message>, threadId: string, iteration: int, final: string)

  type Store = Stores.Files<State>

  datatype Input = Input(messages: seq<Message>, threadId: string)

  datatype ToolCall = ToolCall(id: string, name: string, arguments: string)

  datatype Config = Config(
    prompt: string, skills: string, tools: map<string, Schema.Parameters>, interrupts: map<string, bool>,
    includeArgs: bool, json: Json, hashText: string -> string, dir: string)

  /* ---------- The outside world ---------- */

  /** Everything that answers a run: the model, the approver, the tools, the disk and the clock. A call
      may start a sub-agent, which has a script of its own. A model that has no reply left fails. */
  datatype Script = Script(stamp: nat, loadOk: bool, replies: seq<Reply>)

  datatype Reply = ModelFails | Reply(content: string, steps: seq<Step>, saveOk: bool)

  /** One tool call of a reply, with what the world answers to it if it is asked. */
  datatype Step = Step(
    call: ToolCall, approval: Approval, answer: Answer, schemaError: string,
    requestIO: Audit.LogIO, decisionIO: Audit.LogIO)

  datatype Approval = Granted(decision: string) | Denied(decision: string, error: string)

  datatype Answer = Returns(data: Data) | Fails(error: string) | Spawns(sub: Script, merge: Merge)

  /** Merging the answer of a sub-agent into the files of its parent. */
  datatype Merge = Merged(data: Data) | NotMerged(error: string)

  /* ---------- What a run does ---------- */

  /** What the event sink receives. */
  datatype Event =
    | ModelCalled(iteration: int, failed: bool)
    | AssistantSaid(content: string, iteration: int)
    | ToolCalled(tool: string, arguments: string, iteration: int)
    | HitlRequested(ctx: Ctx, tool: string, callId: string)
    | HitlDecided(ctx: Ctx, tool: string, callId: string, decision: string, approved: bool, error: string)
    | ToolReturned(result: ToolResult)
    | FinalAnswer(messages: seq<Message>, final: string, threadId: string, requestId: string)
    | RunFailed(cause: AgentError)

  /** What a run does to the world outside, in order. */
  datatype Action =
    | Logged(entry: Audit.Entry, io: Audit.LogIO)
    | Asked(ctx: Ctx, call: ToolCall, approval: Approval)
    | Called(call: ToolCall, args: Option<Object>)
    | Saved(threadId: string, state: State, ok: bool)
    | Remembered(threadId: string, result: ToolResult)

  datatype Ctx = Ctx(threadId: string, requestId: string, iteration: int)

  datatype ErrorKind = CheckpointLoad | LlmInvoke | MaxIterations

  datatype AgentError = AgentError(kind: ErrorKind, threadId: string, requestId: string) {
    function Code(): string {
      match kind
      case CheckpointLoad => "checkpoint_load_error"
      case LlmInvoke => "llm_invoke_error"
      case MaxIterations => "max_iterations_reached"
    }

    function Message(): string {
      match kind
      case CheckpointLoad => "failed to load checkpoint"
      case LlmInvoke => "failed to invoke llm"
      case MaxIterations => "max iterations reached"
    }

    /** AgentError.Error */
    function Text(): string {
      if requestId != "" then
        Message() + " (code=" + Code() + " thread=" + threadId + " request=" + requestId + ")"
      else
        Message() + " (code=" + Code() + ")"
    }
  }

  datatype Outcome =
    | Finished(messages: seq<Message>, final: string, threadId: string, requestId: string)
    | Failed(error: AgentError)

  datatype Tally = Tally(iteration: int, modelCalls: nat, modelErrors: nat, toolCalls: nat, toolErrors: nat)

  /** What has happened in a run so far. */
  datatype Progress = Progress(events: seq<Event>, actions: seq<Action>, tally: Tally)

  datatype RunResult = RunResult(outcome: Outcome, did: Progress, store: Store)

  /* ---------- Parts ---------- */

  function NewRequestId(threadId: string, stamp: nat): (id: string)
    ensures (if threadId != "" then threadId else "run") + "-" <= id
  {
    (if threadId != "" then threadId else "run") + "-" + Text.Decimal(stamp)
  }

  /** Requests of a thread at different times have different IDs. */
  lemma {:induction false} RequestIdsDiffer(threadId: string, a: nat, b: nat)
    requires NewRequestId(threadId, a) == NewRequestId(threadId, b)
    ensures a == b
  {
    var prefix := (if threadId != "" then threadId else "run") + "-";
    assert Text.Decimal(a) == NewRequestId(threadId, a)[|prefix|..] &&
      Text.Decimal(b) == NewRequestId(threadId, b)[|prefix|..];
    Text.DecimalInjective(a, b);
  }

  predicate ShouldInterrupt(cfg: Config, tool: string) {
    tool in cfg.interrupts && cfg.interrupts[tool]
  }

  function ParseArgs(cfg: Config, arguments: string): Option<Object> {
    if arguments == "" then None
    else
      match cfg.json.parse(arguments)
      case Some(Map(args)) => Some(args)
      case _ => None
  }

  /** Arguments are logged only on request: decoded if they are JSON, else as they are. */
  function AuditArgs(cfg: Config, arguments: string): Any {
    if !cfg.includeArgs then Nil
    else
      match cfg.json.parse(arguments)
      case Some(v) => v
      case None => Str(arguments)
  }

  function RequestEntry(cfg: Config, ctx: Ctx, call: ToolCall): Audit.Entry {
    Audit.Entry(Audit.ZERO_TIME, "hitl_request", call.name, call.id, ctx.threadId, ctx.requestId, ctx.iteration,
                AuditArgs(cfg, call.arguments), cfg.hashText(call.arguments), "", false, "", "", "")
  }

  function DecisionEntry(ctx: Ctx, call: ToolCall, approval: Approval): Audit.Entry {
    Audit.Entry(Audit.ZERO_TIME, "hitl_decision", call.name, call.id, ctx.threadId, ctx.requestId, ctx.iteration,
                Nil, "", approval.decision, approval.Granted?, if approval.Denied? then approval.error else "", "", "")
  }

  function Decided(ctx: Ctx, call: ToolCall, approval: Approval): Event {
    HitlDecided(ctx, call.name, call.id, approval.decision, approval.Granted?,
                if approval.Denied? then approval.error else "")
  }

  function RejectedResult(call: ToolCall, error: string): ToolResult {
    ToolResult(call.name, call.id, false, NoData, error, HITL_REJECTED)
  }

  datatype CallOutcome = Success(data: Data) | Failure(error: string)

  function ExecutedResult(call: ToolCall, outcome: CallOutcome): ToolResult {
    match outcome
    case Success(data) => ToolResult(call.name, call.id, true, data, "", "")
    case Failure(error) => ToolResult(call.name, call.id, false, NoData, error, EXECUTION_ERROR)
  }

  /** The result as it is emitted, before its data or its error are filled in. */
  function Announced(call: ToolCall, outcome: CallOutcome): ToolResult {
    ToolResult(call.name, call.id, outcome.Success?, NoData, "", "")
  }

  function DescriptionOf(args: Option<Object>): string {
    if args.Some? then StringAt(args.value, "description") else ""
  }

  /** The options of a sub-agent are those of its parent, but for the prompt. */
  function SubConfig(cfg: Config, description: string): Config {
    cfg.(prompt := "You are a focused sub-agent. Task: " + description + "\n\n" + cfg.skills)
  }

  function SubInput(description: string): Input {
    Input([Message("user", description)], "")
  }

  function ToolMessage(cfg: Config, r: ToolResult): Message {
    Message("tool", FormatToolMessage(cfg.json, r))
  }

  function ToolSchema(cfg: Config, tool: string): Object
    requires tool in cfg.tools
  {
    Schema.GenerateParametersSchema(cfg.tools[tool])
  }

  /** What is asked of the arguments of a tool is what the tool declares. */
  lemma {:induction false} ToolDeclaresSchema(cfg: Config, tool: string)
    requires tool in cfg.tools
    ensures
      var schema := ToolSchema(cfg, tool);
      match cfg.tools[tool]
      case ReadySchema(ready) => schema == ready
      case GoTyped(StructT(fields)) => schema == Schema.StructSchema(fields)
      case GoTyped(PtrT(StructT(fields))) => schema == Schema.StructSchema(fields)
      case _ => forall args :: Validation.SchemaAccepts(Some(schema), args)
  {
    Schema.ParametersAsk(cfg.tools[tool]);
  }

  /** A call of a registered tool with arguments that the schema of the tool accepts. */
  predicate Accepts(cfg: Config, step: Step) {
    step.call.name in cfg.tools &&
    Validation.SchemaAccepts(Some(ToolSchema(cfg, step.call.name)), ParseArgs(cfg, step.call.arguments))
  }

  /* ---------- Specification ---------- */

  /** What a piece of a turn adds to the run. */
  datatype Block = Block(
    events: seq<Event>, actions: seq<Action>, results: seq<ToolResult>, toolCalls: nat, toolErrors: nat, store: Store)

  function Nothing(store: Store): Block {
    Block([], [], [], 0, 0, store)
  }

  function Then(a: Block, b: Block): Block {
    Block(a.events + b.events, a.actions + b.actions, a.results + b.results,
          a.toolCalls + b.toolCalls, a.toolErrors + b.toolErrors, b.store)
  }

  function Messages(cfg: Config, results: seq<ToolResult>): seq<Message> {
    seq(|results|, i requires 0 <= i < |results| => ToolMessage(cfg, results[i]))
  }

  datatype Made = Made(outcome: CallOutcome, actions: seq<Action>, store: Store)

  /** The call of a tool whose arguments were accepted. */
  function MakeCallSpec(cfg: Config, store: Store, step: Step, args: Option<Object>): Made
    decreases step, 0
  {
    var made := [Called(step.call, args)];
    match step.answer
    case Returns(data) => Made(Success(data), made, store)
    case Fails(error) => Made(Failure(error), made, store)
    case Spawns(sub, merge) =>
      var description := DescriptionOf(args);
      if description == "" then Made(Failure("description is required"), made, store)
      else
        var r := RunSpec(SubConfig(cfg, description), store, SubInput(description), sub);
        Made(SubOutcome(r.outcome, merge), made + r.did.actions, r.store)
  }

  /** A call that is let through: validated, made, reported and remembered. */
  function ExecuteSpec(cfg: Config, ctx: Ctx, store: Store, step: Step): Block
    requires step.call.name in cfg.tools
    decreases step, 1
  {
    var call, args := step.call, ParseArgs(cfg, step.call.arguments);
    var made :=
      if Validation.SchemaAccepts(Some(ToolSchema(cfg, call.name)), args) then MakeCallSpec(cfg, store, step, args)
      else Made(Failure(step.schemaError), [], store);
    Report(ctx, call, made)
  }

  function SubOutcome(outcome: Outcome, merge: Merge): CallOutcome {
    match outcome
    case Failed(error) => Failure(error.Text())
    case Finished(_, _, _, _) =>
      match merge
      case Merged(data) => Success(data)
      case NotMerged(error) => Failure(error)
  }

  function Report(ctx: Ctx, call: ToolCall, made: Made): Block {
    var result := ExecutedResult(call, made.outcome);
    Block([ToolReturned(Announced(call, made.outcome))], made.actions + [Remembered(ctx.threadId, result)],
          [result], 1, if made.outcome.Success? then 0 else 1, made.store)
  }

  /** The approval gate: request, question, decision. */
  function Gate(cfg: Config, ctx: Ctx, store: Store, step: Step): Block {
    var call := step.call;
    Block([HitlRequested(ctx, call.name, call.id), Decided(ctx, call, step.approval)],
          [Logged(RequestEntry(cfg, ctx, call), step.requestIO), Asked(ctx, call, step.approval),
           Logged(DecisionEntry(ctx, call, step.approval), step.decisionIO)],
          [], 0, 0, store)
  }

  /** What comes before a call that is made. */
  function GateActions(cfg: Config, ctx: Ctx, store: Store, step: Step): seq<Action> {
    if ShouldInterrupt(cfg, step.call.name) then Gate(cfg, ctx, store, step).actions else []
  }

  function CallSpec(cfg: Config, ctx: Ctx, store: Store, step: Step): Block
    decreases step, 2
  {
    var call := step.call;
    if call.name !in cfg.tools then Nothing(store)
    else
      var seen := Nothing(store).(events := [ToolCalled(call.name, call.arguments, ctx.iteration)]);
      if !ShouldInterrupt(cfg, call.name) then Then(seen, ExecuteSpec(cfg, ctx, store, step))
      else
        var gated := Then(seen, Gate(cfg, ctx, store, step));
        match step.approval
        case Denied(_, error) => Then(gated, Block([], [], [RejectedResult(call, error)], 0, 1, store))
        case Granted(_) => Then(gated, ExecuteSpec(cfg, ctx, store, step))
  }

  /** All calls of one turn. */
  function TurnSpec(cfg: Config, ctx: Ctx, store: Store, steps: seq<Step>): Block
    decreases steps
  {
    if steps == [] then Nothing(store)
    else
      var first := CallSpec(cfg, ctx, store, steps[0]);
      Then(first, TurnSpec(cfg, ctx, first.store, steps[1..]))
  }

  /** A run that goes on after what has happened so far; the last iteration number is the one shown. */
  function Resume(p: Progress, r: RunResult): RunResult {
    r.(did := Progress(p.events + r.did.events, p.actions + r.did.actions,
                       Tally(r.did.tally.iteration, p.tally.modelCalls + r.did.tally.modelCalls,
                             p.tally.modelErrors + r.did.tally.modelErrors,
                             p.tally.toolCalls + r.did.tally.toolCalls, p.tally.toolErrors + r.did.tally.toolErrors)))
  }

  function Said(content: string, iteration: int): seq<Event> {
    if content == "" then [] else [AssistantSaid(content, iteration)]
  }

  function SaveSpec(cfg: Config, store: Store, threadId: string, state: State, io: bool): (Store, bool) {
    Stores.WriteTo(cfg.dir, store, "", threadId, state, io)
  }

  /** The state after a turn that does not end the run. */
  function AfterTurn(cfg: Config, state: State, content: string, results: seq<ToolResult>): State {
    state.(iteration := state.iteration + 1,
           messages := state.messages + [Message("assistant", content)] + Messages(cfg, results))
  }

  function AfterAnswer(state: State, content: string): State {
    state.(iteration := state.iteration + 1, messages := state.messages + [Message("assistant", content)],
           final := content)
  }

  /** What one iteration adds when the model fails, answers, or takes a turn. */
  function FailedCall(n: int): Progress {
    Progress([ModelCalled(n, true)], [], Tally(n, 1, 1, 0, 0))
  }

  function GivenAnswer(n: int, finished: Outcome, saved: Action): Progress
    requires finished.Finished?
  {
    Progress([ModelCalled(n, false), AssistantSaid(finished.final, n),
              FinalAnswer(finished.messages, finished.final, finished.threadId, finished.requestId)],
             [saved], Tally(n, 1, 0, 0, 0))
  }

  function TakenTurn(n: int, content: string, turn: Block, saved: Action): Progress {
    Progress([ModelCalled(n, false)] + Said(content, n) + turn.events, turn.actions + [saved],
             Tally(n, 1, 0, turn.toolCalls, turn.toolErrors))
  }

  /** The thread and the request of a run. */
  datatype Request = Request(threadId: string, requestId: string)

  function ErrorFor(id: Request, kind: ErrorKind): Outcome {
    Failed(AgentError(kind, id.threadId, id.requestId))
  }

  /** A run after one more reply. */
  datatype Iterated = Iterated(state: State, did: Progress, store: Store)

  /** A reply with content and no calls: the final answer, and its checkpoint. */
  function AnswerSpec(cfg: Config, id: Request, state: State, store: Store, reply: Reply): Iterated
    requires reply.Reply?
  {
    var state' := AfterAnswer(state, reply.content);
    var (store', ok) := SaveSpec(cfg, store, id.threadId, state', reply.saveOk);
    Iterated(state', GivenAnswer(state'.iteration, FinishedIn(id, state'), Saved(id.threadId, state', ok)), store')
  }

  function FinishedIn(id: Request, state: State): Outcome {
    Finished(state.messages, state.final, id.threadId, id.requestId)
  }

  /** A turn that does not end the run, and its checkpoint. */
  function TakeTurnSpec(cfg: Config, id: Request, state: State, store: Store, reply: Reply): Iterated
    requires reply.Reply?
    decreases reply
  {
    var turn := TurnSpec(cfg, Ctx(id.threadId, id.requestId, state.iteration + 1), store, reply.steps);
    var state' := AfterTurn(cfg, state, reply.content, turn.results);
    var (store', ok) := SaveSpec(cfg, turn.store, id.threadId, state', reply.saveOk);
    Iterated(state', TakenTurn(state'.iteration, reply.content, turn, Saved(id.threadId, state', ok)), store')
  }

  predicate IsAnswer(reply: Reply) {
    reply.Reply? && reply.steps == [] && reply.content != ""
  }

  /** The loop from a state on. `shown` is the iteration number that the summary would report now. */
  function LoopSpec(cfg: Config, id: Request, shown: int, state: State, store: Store, replies: seq<Reply>): RunResult
    decreases replies
  {
    if state.iteration >= MAX_ITERATIONS then
      RunResult(ErrorFor(id, MaxIterations),
                Progress([], [], Tally(shown, 0, 0, 0, 0)), store)
    else if replies == [] || replies[0].ModelFails? then
      RunResult(ErrorFor(id, LlmInvoke), FailedCall(state.iteration + 1), store)
    else if IsAnswer(replies[0]) then
      var last := AnswerSpec(cfg, id, state, store, replies[0]);
      RunResult(FinishedIn(id, last.state), last.did, last.store)
    else
      var turn := TakeTurnSpec(cfg, id, state, store, replies[0]);
      Resume(turn.did, LoopSpec(cfg, id, turn.state.iteration, turn.state, turn.store, replies[1..]))
  }

  function FreshState(cfg: Config, threadId: string): State {
    State([Message("system", cfg.prompt)], threadId, 0, "")
  }

  /** The state a run starts its loop with; None if the checkpoint cannot be loaded. */
  function StartState(cfg: Config, store: Store, input: Input, loadOk: bool): Option<State> {
    match Stores.ReadFrom(cfg.dir, store, "", input.threadId, loadOk)
    case LoadFailed => None
    case Missing =>
      var first := FreshState(cfg, input.threadId);
      Some(first.(messages := first.messages + input.messages))
    case Found(state) => Some(state.(messages := state.messages + input.messages))
  }

  function RunSpec(cfg: Config, store: Store, input: Input, script: Script): RunResult
    decreases script
  {
    var id := Request(input.threadId, NewRequestId(input.threadId, script.stamp));
    match StartState(cfg, store, input, script.loadOk)
    case None =>
      var failed := ErrorFor(id, CheckpointLoad);
      RunResult(failed, Progress([RunFailed(failed.error)], [], Tally(0, 0, 0, 0, 0)), store)
    case Some(state) => Ended(LoopSpec(cfg, id, 0, state, store, script.replies))
  }

  /** A run that fails reports its error last. */
  function Ended(r: RunResult): RunResult {
    if r.outcome.Failed? then r.(did := r.did.(events := r.did.events + [RunFailed(r.outcome.error)])) else r
  }

  /* ---------- Actions on the shared resources ---------- */

  /** The audit calls among the actions, in order. */
  function Audits(actions: seq<Action>): seq<Audit.Op> {
    if actions == [] then []
    else
      var before, a := Audits(actions[..|actions| - 1]), actions[|actions| - 1];
      if a.Logged? then before + [Audit.Log(a.entry, a.io)] else before
  }

  lemma {:induction false} LogAllSnoc(c: Audit.Codec, s: Audit.LogState, actions: seq<Action>, a: Action)
    ensures LogAll(c, s, actions + [a]) ==
      if a.Logged? then Audit.LogStep(c, LogAll(c, s, actions), a.entry, a.io).0 else LogAll(c, s, actions)
  {
    assert (actions + [a])[..|actions|] == actions;
    if a.Logged? {
      var ops, op := Audits(actions), Audit.Log(a.entry, a.io);
      assert (ops + [op])[..|ops|] == ops;
    }
  }

  lemma {:induction false} AuditsConcat(a: seq<Action>, b: seq<Action>)
    ensures Audits(a + b) == Audits(a) + Audits(b)
    decreases |b|
  {
    if b == [] {
      assert a + b == a;
    } else {
      var n := |b| - 1;
      AuditsConcat(a, b[..n]);
      assert (a + b)[..|a + b| - 1] == a + b[..n];
    }
  }

  lemma {:induction false} LogsConcat(c: Audit.Codec, s: Audit.LogState, a: seq<Audit.Op>, b: seq<Audit.Op>)
    ensures Audit.RunOps(c, s, a + b) == Audit.RunOps(c, Audit.RunOps(c, s, a), b)
    decreases |b|
  {
    if b == [] {
      assert a + b == a;
    } else {
      var n := |b| - 1;
      LogsConcat(c, s, a, b[..n]);
      assert (a + b)[..|a + b| - 1] == a + b[..n];
    }
  }

  function LogAll(c: Audit.Codec, s: Audit.LogState, actions: seq<Action>): Audit.LogState {
    Audit.RunOps(c, s, Audits(actions))
  }

  lemma {:induction false} LogAllConcat(c: Audit.Codec, s: Audit.LogState, a: seq<Action>, b: seq<Action>)
    ensures LogAll(c, s, a + b) == LogAll(c, LogAll(c, s, a), b)
  {
    AuditsConcat(a, b);
    LogsConcat(c, s, Audits(a), Audits(b));
  }

  /* ---------- The run itself ---------- */

  lemma {:induction false} ThenAssociative(a: Block, b: Block, c: Block)
    ensures Then(Then(a, b), c) == Then(a, Then(b, c))
  {
    assert (a.events + b.events) + c.events == a.events + (b.events + c.events);
    assert (a.actions + b.actions) + c.actions == a.actions + (b.actions + c.actions);
    assert (a.results + b.results) + c.results == a.results + (b.results + c.results);
  }

  /** Two stretches of a run, one after the other. */
  function Plus(p: Progress, q: Progress): Progress {
    Progress(p.events + q.events, p.actions + q.actions,
             Tally(q.tally.iteration, p.tally.modelCalls + q.tally.modelCalls, p.tally.modelErrors +
               q.tally.modelErrors,
                   p.tally.toolCalls + q.tally.toolCalls, p.tally.toolErrors + q.tally.toolErrors))
  }

  lemma {:induction false} ResumeTwice(p: Progress, q: Progress, r: RunResult)
    ensures Resume(p, Resume(q, r)) == Resume(Plus(p, q), r)
  {
    assert p.events + (q.events + r.did.events) == (p.events + q.events) + r.did.events;
    assert p.actions + (q.actions + r.did.actions) == (p.actions + q.actions) + r.did.actions;
  }

  /** The next call of a turn, taken over from what is still to do. */
  lemma {:induction false} TurnStep(cfg: Config, ctx: Ctx, acc: Block, steps: seq<Step>, i: nat)
    requires i < |steps|
    ensures
      var block := CallSpec(cfg, ctx, acc.store, steps[i]);
      Then(acc, TurnSpec(cfg, ctx, acc.store, steps[i..])) ==
        Then(Then(acc, block), TurnSpec(cfg, ctx, block.store, steps[i + 1..]))
  {
    var block := CallSpec(cfg, ctx, acc.store, steps[i]);
    assert steps[i..][1..] == steps[i + 1..];
    ThenAssociative(acc, block, TurnSpec(cfg, ctx, block.store, steps[i + 1..]));
  }

  /** One iteration of the loop, taken over from what is still to do. */
  lemma {:induction false} LoopFails(cfg: Config, id: Request, p: Progress, state: State, store: Store,
          replies: seq<Reply>)
    requires state.iteration < MAX_ITERATIONS && (replies == [] || replies[0].ModelFails?)
    ensures Resume(p, LoopSpec(cfg, id, p.tally.iteration, state, store, replies)) ==
      RunResult(ErrorFor(id, LlmInvoke), Plus(p, FailedCall(state.iteration + 1)), store)
  {
  }

  lemma {:induction false} LoopEnds(cfg: Config, id: Request, p: Progress, state: State, store: Store,
          replies: seq<Reply>)
    requires state.iteration >= MAX_ITERATIONS
    ensures Resume(p, LoopSpec(cfg, id, p.tally.iteration, state, store, replies)) ==
      RunResult(ErrorFor(id, MaxIterations), p, store)
  {
    assert p.events + [] == p.events && p.actions + [] == p.actions;
  }

  lemma {:induction false} LoopAnswers(cfg: Config, id: Request, p: Progress, state: State, store: Store,
          replies: seq<Reply>)
    requires state.iteration < MAX_ITERATIONS && replies != [] && IsAnswer(replies[0])
    ensures
      var last := AnswerSpec(cfg, id, state, store, replies[0]);
      Resume(p, LoopSpec(cfg, id, p.tally.iteration, state, store, replies)) ==
        RunResult(FinishedIn(id, last.state), Plus(p, last.did), last.store)
  {
  }

  lemma {:induction false} LoopTakesTurn(cfg: Config, id: Request, p: Progress, state: State, store: Store,
          replies: seq<Reply>)
    requires state.iteration < MAX_ITERATIONS && replies != [] && replies[0].Reply? && !IsAnswer(replies[0])
    ensures
      var turn := TakeTurnSpec(cfg, id, state, store, replies[0]);
      Resume(p, LoopSpec(cfg, id, p.tally.iteration, state, store, replies)) ==
        Resume(Plus(p, turn.did), LoopSpec(cfg, id, turn.state.iteration, turn.state, turn.store, replies[1..]))
    ensures TakeTurnSpec(cfg, id, state, store, replies[0]).did.tally.iteration
            == TakeTurnSpec(cfg, id, state, store, replies[0]).state.iteration == state.iteration + 1
  {
    var turn := TakeTurnSpec(cfg, id, state, store, replies[0]);
    ResumeTwice(p, turn.did, LoopSpec(cfg, id, turn.state.iteration, turn.state, turn.store, replies[1..]));
  }

  class Graph {
    const cfg: Config
    const checkpointer: Stores.FileStore<State>
    const audit: Audit.FileHITLAuditLogger?

    constructor (cfg: Config, checkpointer: Stores.FileStore<State>, audit: Audit.FileHITLAuditLogger?)
      ensures this.cfg == cfg && this.checkpointer == checkpointer && this.audit == audit
    {
      this.cfg, this.checkpointer, this.audit := cfg, checkpointer, audit;
    }

    /** What a graph shares with the graphs of its sub-agents and writes to. */
    ghost function Shared(): set<object> {
      {checkpointer} + LogObjects()
    }

    ghost function LogObjects(): set<object> {
      if audit == null then {} else {audit, audit.file}
    }

    ghost predicate Valid()
      reads Shared()
    {
      checkpointer.dir == cfg.dir && (audit != null && !audit.loaded ==> audit.lastHash == "")
    }

    /** The log as the audit logger sees it; None without a logger. */
    ghost function LogState(): Option<Audit.LogState>
      reads LogObjects()
    {
      if audit == null then None else Some(audit.State())
    }

    /** The log after some more actions. */
    ghost function LogAfter(s: Option<Audit.LogState>, actions: seq<Action>): Option<Audit.LogState> {
      if audit == null || s == None then s else Some(LogAll(audit.codec, s.value, actions))
    }

    lemma {:induction false} LogAfterConcat(s: Option<Audit.LogState>, a: seq<Action>, b: seq<Action>)
      ensures LogAfter(s, a + b) == LogAfter(LogAfter(s, a), b)
    {
      if audit != null && s.Some? {
        LogAllConcat(audit.codec, s.value, a, b);
      }
    }

    lemma {:induction false} LogAfterSnoc(s: Option<Audit.LogState>, actions: seq<Action>, a: Action)
      requires !a.Logged?
      ensures LogAfter(s, actions + [a]) == LogAfter(s, actions)
    {
      if audit != null && s.Some? {
        LogAllSnoc(audit.codec, s.value, actions, a);
      }
    }

    method LogHITLAudit(entry: Audit.Entry, io: Audit.LogIO)
      requires Valid()
      modifies LogObjects()
      ensures Valid()
      ensures LogState() == LogAfter(old(LogState()), [Logged(entry, io)])
    {
      if audit != null {
        LogAllSnoc(audit.codec, audit.State(), [], Logged(entry, io));
        assert [] + [Logged(entry, io)] == [Logged(entry, io)];
        var _ := audit.LogHITLEvent(entry, io);
      }
    }

    /** Waits at the gate; the answer of the approver decides whether the call goes on. */
    method PassGate(ctx: Ctx, step: Step) returns (block: Block)
      requires Valid()
      modifies LogObjects()
      ensures Valid()
      ensures block == Gate(cfg, ctx, checkpointer.files, step)
      ensures LogState() == LogAfter(old(LogState()), block.actions)
    {
      hide RequestEntry, DecisionEntry, Decided, LogAfter, LogAll;
      var tc := step.call;
      var events := [HitlRequested(ctx, tc.name, tc.id)];
      var request := Logged(RequestEntry(cfg, ctx, tc), step.requestIO);
      LogHITLAudit(request.entry, request.io);
      var asked := Asked(ctx, tc, step.approval);
      events := events + [Decided(ctx, tc, step.approval)];
      var decision := Logged(DecisionEntry(ctx, tc, step.approval), step.decisionIO);
      LogHITLAudit(decision.entry, decision.io);
      var actions := [request] + [asked] + [decision];
      LogAfterSnoc(old(LogState()), [request], asked);
      LogAfterConcat(old(LogState()), [request] + [asked], [decision]);
      block := Block(events, actions, [], 0, 0, checkpointer.files);
    }

    /** Makes a call; the `task` tool runs a sub-agent on the same checkpointer and the same log. */
    method MakeCall(step: Step, args: Option<Object>) returns (made: Made)
      requires Valid()
      modifies Shared()
      ensures Valid()
      ensures made == MakeCallSpec(cfg, old(checkpointer.files), step, args)
      ensures made.store == checkpointer.files
      ensures LogState() == LogAfter(old(LogState()), made.actions)
      decreases step, 0
    {
      var call := [Called(step.call, args)];
      assert call == [] + call;
      LogAfterSnoc(LogState(), [], call[0]);
      match step.answer {
        case Returns(data) => made := Made(Success(data), call, checkpointer.files);
        case Fails(error) => made := Made(Failure(error), call, checkpointer.files);
        case Spawns(sub, merge) =>
          var description := DescriptionOf(args);
          if description == "" {
            return Made(Failure("description is required"), call, checkpointer.files);
          }
          var subAgent := new Graph(SubConfig(cfg, description), checkpointer, audit);
          var outcome, did := subAgent.Run(SubInput(description), sub);
          made := Made(SubOutcome(outcome, merge), call + did.actions, checkpointer.files);
          LogAfterConcat(old(LogState()), call, did.actions);
      }
    }

    /** Validates the arguments and, if they are accepted, makes the call. */
    method Execute(ctx: Ctx, step: Step) returns (block: Block)
      requires Valid() && step.call.name in cfg.tools
      modifies Shared()
      ensures Valid()
      ensures block == ExecuteSpec(cfg, ctx, old(checkpointer.files), step)
      ensures block.store == checkpointer.files
      ensures LogState() == LogAfter(old(LogState()), block.actions)
      decreases step, 1
    {
      var tc := step.call;
      var args := ParseArgs(cfg, tc.arguments);
      var made := Made(Failure(step.schemaError), [], checkpointer.files);
      var valid := Validation.ValidateAgainstSchema(Some(ToolSchema(cfg, tc.name)), args);
      if valid {
        made := MakeCall(step, args);
      }
      var result := ExecutedResult(tc, made.outcome);
      LogAfterSnoc(old(LogState()), made.actions, Remembered(ctx.threadId, result));
      block := Block([ToolReturned(Announced(tc, made.outcome))], made.actions + [Remembered(ctx.threadId, result)],
                     [result], 1, if made.outcome.Success? then 0 else 1, checkpointer.files);
    }

    method HandleCall(ctx: Ctx, step: Step) returns (block: Block)
      requires Valid()
      modifies Shared()
      ensures Valid()
      ensures block == CallSpec(cfg, ctx, old(checkpointer.files), step)
      ensures block.store == checkpointer.files
      ensures LogState() == LogAfter(old(LogState()), block.actions)
      decreases step, 2
    {
      hide ExecuteSpec, Gate, RejectedResult;
      var tc := step.call;
      block := Nothing(checkpointer.files);
      if tc.name !in cfg.tools {
        return;
      }
      block := block.(events := [ToolCalled(tc.name, tc.arguments, ctx.iteration)]);
      if ShouldInterrupt(cfg, tc.name) {
        var gate := PassGate(ctx, step);
        block := Then(block, gate);
        assert block.actions == gate.actions;
        if step.approval.Denied? {
          block := Then(block, Block([], [], [RejectedResult(tc, step.approval.error)], 0, 1, checkpointer.files));
          assert block.actions == gate.actions;
          return;
        }
      }
      var executed := Execute(ctx, step);
      LogAfterConcat(old(LogState()), block.actions, executed.actions);
      block := Then(block, executed);
    }

    method RunTurn(ctx: Ctx, steps: seq<Step>) returns (turn: Block)
      requires Valid()
      modifies Shared()
      ensures Valid()
      ensures turn == TurnSpec(cfg, ctx, old(checkpointer.files), steps)
      ensures turn.store == checkpointer.files
      ensures LogState() == LogAfter(old(LogState()), turn.actions)
      decreases steps
    {
      hide CallSpec;
      turn := Nothing(checkpointer.files);
      for i := 0 to |steps|
        invariant Valid() && turn.store == checkpointer.files
        invariant Then(turn, TurnSpec(cfg, ctx, turn.store, steps[i..])) ==
          TurnSpec(cfg, ctx, old(checkpointer.files), steps)
        invariant LogState() == LogAfter(old(LogState()), turn.actions)
      {
        TurnStep(cfg, ctx, turn, steps, i);
        var block := HandleCall(ctx, steps[i]);
        LogAfterConcat(old(LogState()), turn.actions, block.actions);
        turn := Then(turn, block);
      }
    }

    /** A turn that does not end the run, and its checkpoint. */
    method TakeTurn(id: Request, start: State, reply: Reply) returns (state: State, p: Progress)
      requires Valid() && reply.Reply?
      modifies Shared()
      ensures Valid()
      ensures Iterated(state, p, checkpointer.files) == TakeTurnSpec(cfg, id, start, old(checkpointer.files), reply)
      ensures LogState() == LogAfter(old(LogState()), p.actions)
      decreases reply
    {
      hide TurnSpec, Messages, Stores.WriteTo;
      state := start.(iteration := start.iteration + 1);
      var events := [ModelCalled(state.iteration, false)];
      state := state.(messages := state.messages + [Message("assistant", reply.content)]);
      if reply.content != "" {
        events := events + [AssistantSaid(reply.content, state.iteration)];
      }
      var turn := RunTurn(Ctx(id.threadId, id.requestId, state.iteration), reply.steps);
      state := state.(messages := state.messages + Messages(cfg, turn.results));
      var ok := checkpointer.Write("", id.threadId, state, reply.saveOk);
      p := Progress(events + turn.events, turn.actions + [Saved(id.threadId, state, ok)],
                    Tally(state.iteration, 1, 0, turn.toolCalls, turn.toolErrors));
      LogAfterSnoc(old(LogState()), turn.actions, Saved(id.threadId, state, ok));
    }

    /** A reply with content and no calls: the final answer, and its checkpoint. */
    method GiveAnswer(id: Request, start: State, reply: Reply) returns (state: State, p: Progress)
      requires Valid() && reply.Reply?
      modifies Shared()
      ensures Valid()
      ensures Iterated(state, p, checkpointer.files) == AnswerSpec(cfg, id, start, old(checkpointer.files), reply)
      ensures LogState() == LogAfter(old(LogState()), p.actions)
    {
      hide Stores.WriteTo;
      state := start.(iteration := start.iteration + 1);
      var events := [ModelCalled(state.iteration, false)];
      state := state.(messages := state.messages + [Message("assistant", reply.content)]);
      events := events + [AssistantSaid(reply.content, state.iteration)];
      state := state.(final := reply.content);
      var ok := checkpointer.Write("", id.threadId, state, reply.saveOk);
      events := events + [FinalAnswer(state.messages, state.final, id.threadId, id.requestId)];
      p := Progress(events, [Saved(id.threadId, state, ok)], Tally(state.iteration, 1, 0, 0, 0));
      LogAfterSnoc(old(LogState()), [], Saved(id.threadId, state, ok));
      assert p.actions == [] + [Saved(id.threadId, state, ok)];
    }

    /** The loop of a run: at most twenty iterations in the life of the state, each one model call. */
    method Loop(id: Request, start: State, replies: seq<Reply>) returns (outcome: Outcome, did: Progress)
      requires Valid()
      modifies Shared()
      ensures Valid()
      ensures RunResult(outcome, did, checkpointer.files) ==
        LoopSpec(cfg, id, 0, start, old(checkpointer.files), replies)
      ensures LogState() == LogAfter(old(LogState()), did.actions)
      decreases replies
    {
      hide LoopSpec, TakeTurnSpec, AnswerSpec;
      did := Progress([], [], Tally(0, 0, 0, 0, 0));
      ghost var whole := LoopSpec(cfg, id, 0, start, checkpointer.files, replies);
      var state, next := start, 0;
      while state.iteration < MAX_ITERATIONS
        invariant Valid() && next <= |replies|
        invariant Resume(did, LoopSpec(cfg, id, did.tally.iteration, state, checkpointer.files, replies[next..])) ==
          whole
        invariant LogState() == LogAfter(old(LogState()), did.actions)
        decreases MAX_ITERATIONS - state.iteration
      {
        if next == |replies| || replies[next].ModelFails? {
          LoopFails(cfg, id, did, state, checkpointer.files, replies[next..]);
          LogAfterConcat(old(LogState()), did.actions, []);
          return ErrorFor(id, LlmInvoke), Plus(did, FailedCall(state.iteration + 1));
        }
        var reply := replies[next];
        if IsAnswer(reply) {
          LoopAnswers(cfg, id, did, state, checkpointer.files, replies[next..]);
          var finished, p := GiveAnswer(id, state, reply);
          LogAfterConcat(old(LogState()), did.actions, p.actions);
          return FinishedIn(id, finished), Plus(did, p);
        }
        LoopTakesTurn(cfg, id, did, state, checkpointer.files, replies[next..]);
        assert replies[next..][1..] == replies[next + 1..];
        var state', p := TakeTurn(id, state, reply);
        LogAfterConcat(old(LogState()), did.actions, p.actions);
        did, state, next := Plus(did, p), state', next + 1;
      }
      LoopEnds(cfg, id, did, state, checkpointer.files, replies[next..]);
      outcome := ErrorFor(id, MaxIterations);
    }

    /** Loads the thread, adds the input, loops; an error is the last event. */
    method Run(input: Input, script: Script) returns (outcome: Outcome, did: Progress)
      requires Valid()
      modifies Shared()
      ensures Valid()
      ensures RunResult(outcome, did, checkpointer.files) == RunSpec(cfg, old(checkpointer.files), input, script)
      ensures LogState() == LogAfter(old(LogState()), did.actions)
      decreases script
    {
      var id := Request(input.threadId, NewRequestId(input.threadId, script.stamp));
      var loaded := checkpointer.Read("", input.threadId, script.loadOk);
      did := Progress([], [], Tally(0, 0, 0, 0, 0));
      if loaded.LoadFailed? {
        outcome := ErrorFor(id, CheckpointLoad);
      } else {
        var state := if loaded.Found? then loaded.value else FreshState(cfg, input.threadId);
        state := state.(messages := state.messages + input.messages);
        outcome, did := Loop(id, state, script.replies);
      }
      if outcome.Failed? {
        did := did.(events := did.events + [RunFailed(outcome.error)]);
      }
    }
  }
}
