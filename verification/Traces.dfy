/** What every run's events and actions look like, whatever the world answers. */
module Traces {
  import opened Values
  import opened ToolMessages
  import opened Graphs
  import opened Text
  import Validation

  /* ---------- The grammar of events ---------- */

  /** Where an event stream stands; n is the iteration under way. */
  datatype Phase =
    | Start(n: int)
    | Replied(n: int)
    | Spoken(n: int, content: string)
    | Calling(n: int, tool: string)
    | Waiting(n: int, tool: string, callId: string)
    | Cleared(n: int, tool: string, callId: string)
    | Working(n: int)
    | Broken(n: int)
    | Done
    | Wrong

  /** Between two calls of a turn: a call, the next model call or the end may follow. */
  predicate Open(q: Phase) {
    q.Replied? || q.Spoken? || q.Working?
  }

  function Next(cfg: Config, id: Request, q: Phase, e: Event): Phase {
    match e
    case ModelCalled(n, failed) =>
      if (q.Start? || Open(q)) && n == q.n + 1 <= MAX_ITERATIONS then (if failed then Broken(n) else Replied(n))
        else Wrong
    case AssistantSaid(content, n) =>
      if q.Replied? && n == q.n && content != "" then Spoken(n, content) else Wrong
    case ToolCalled(tool, _, n) =>
      if Open(q) && n == q.n && tool in cfg.tools then Calling(n, tool) else Wrong
    case HitlRequested(ctx, tool, callId) =>
      if q.Calling? && q.tool == tool && ShouldInterrupt(cfg, tool) && ctx == Ctx(id.threadId, id.requestId, q.n)
      then Waiting(q.n, tool, callId) else Wrong
    case HitlDecided(ctx, tool, callId, _, approved, _) =>
      if q == Waiting(ctx.iteration, tool, callId) && ctx == Ctx(id.threadId, id.requestId, q.n)
      then (if approved then Cleared(q.n, tool, callId) else Working(q.n)) else Wrong
    case ToolReturned(r) =>
      if (q.Calling? && q.tool == r.tool && !ShouldInterrupt(cfg, r.tool))
         || (q.Cleared? && q.tool == r.tool && q.callId == r.toolCallId)
      then Working(q.n) else Wrong
    case FinalAnswer(messages, final, threadId, requestId) =>
      if q.Spoken? && final == q.content && messages != [] && messages[|messages| - 1] == Message("assistant", final)
         && Request(threadId, requestId) == id
      then Done else Wrong
    case RunFailed(error) =>
      if Request(error.threadId, error.requestId) != id then Wrong
      else
        match error.kind
        case CheckpointLoad => if q.Start? then Done else Wrong
        case LlmInvoke => if q.Broken? then Done else Wrong
        case MaxIterations => if (q.Start? || Open(q)) && q.n >= MAX_ITERATIONS then Done else Wrong
  }

  function Drive(cfg: Config, id: Request, q: Phase, events: seq<Event>): Phase {
    if events == [] then q
    else Next(cfg, id, Drive(cfg, id, q, events[..|events| - 1]), events[|events| - 1])
  }

  lemma {:induction false} DriveConcat(cfg: Config, id: Request, q: Phase, a: seq<Event>, b: seq<Event>)
    ensures Drive(cfg, id, q, a + b) == Drive(cfg, id, Drive(cfg, id, q, a), b)
    decreases |b|
  {
    hide Next;
    if b == [] {
      assert a + b == a;
    } else {
      var n := |b| - 1;
      DriveConcat(cfg, id, q, a, b[..n]);
      assert (a + b)[..|a + b| - 1] == a + b[..n];
    }
  }

  lemma {:induction false} DriveOne(cfg: Config, id: Request, q: Phase, e: Event)
    ensures Drive(cfg, id, q, [e]) == Next(cfg, id, q, e)
  {
    assert [e][..0] == [];
    assert Drive(cfg, id, q, [e][..0]) == q;
  }

  lemma {:induction false} DriveTwo(cfg: Config, id: Request, q: Phase, e: Event, f: Event)
    ensures Drive(cfg, id, q, [e, f]) == Next(cfg, id, Next(cfg, id, q, e), f)
  {
    assert [e, f] == [e] + [f];
    DriveConcat(cfg, id, q, [e], [f]);
    DriveOne(cfg, id, q, e);
    DriveOne(cfg, id, Next(cfg, id, q, e), f);
  }

  lemma {:induction false} DriveThree(cfg: Config, id: Request, q: Phase, e: Event, f: Event, g: Event)
    ensures Drive(cfg, id, q, [e, f, g]) == Next(cfg, id, Next(cfg, id, Next(cfg, id, q, e), f), g)
  {
    assert [e, f, g] == [e, f] + [g];
    DriveConcat(cfg, id, q, [e, f], [g]);
    DriveTwo(cfg, id, q, e, f);
    DriveOne(cfg, id, Next(cfg, id, Next(cfg, id, q, e), f), g);
  }

  /** The events and the counters of one call, spelled out. */
  lemma {:induction false} CallEventList(cfg: Config, ctx: Ctx, store: Store, step: Step)
    ensures
      var call := step.call;
      var block := CallSpec(cfg, ctx, store, step);
      var events := block.events;
      var called := ToolCalled(call.name, call.arguments, ctx.iteration);
      var asked := HitlRequested(ctx, call.name, call.id);
      var approved, error := step.approval.Granted?, if step.approval.Denied? then step.approval.error else "";
      var decided := HitlDecided(ctx, call.name, call.id, step.approval.decision, approved, error);
      if call.name !in cfg.tools then events == [] && block.toolCalls == block.toolErrors == 0
      else if ShouldInterrupt(cfg, call.name) && step.approval.Denied? then
        events == [called, asked, decided] && block.toolCalls == 0 && block.toolErrors == 1
      else
        && |block.results| == 1
        && var ok := block.results[0].ok;
           var returned := ToolReturned(ToolResult(call.name, call.id, ok, NoData, "", ""));
           && events == (if ShouldInterrupt(cfg, call.name) then [called, asked, decided, returned]
                         else [called, returned])
           && block.toolCalls == 1 && block.toolErrors == (if ok then 0 else 1)
  {
    hide MakeCallSpec, ToolSchema, Validation.SchemaAccepts, ParseArgs;
  }

  lemma {:induction false} RejectedWord(cfg: Config, id: Request, q: Phase, call: ToolCall, approval: Approval)
    requires Open(q) && call.name in cfg.tools && ShouldInterrupt(cfg, call.name) && approval.Denied?
    ensures
      var ctx := Ctx(id.threadId, id.requestId, q.n);
      Drive(cfg, id, q, [ToolCalled(call.name, call.arguments, q.n), HitlRequested(ctx, call.name, call.id),
                         Decided(ctx, call, approval)]) == Working(q.n)
  {
    var ctx := Ctx(id.threadId, id.requestId, q.n);
    DriveThree(cfg, id, q, ToolCalled(call.name, call.arguments, q.n), HitlRequested(ctx, call.name, call.id),
               Decided(ctx, call, approval));
  }

  lemma {:induction false} ApprovedWord(cfg: Config, id: Request, q: Phase, call: ToolCall, approval: Approval,
          r: ToolResult)
    requires Open(q) && call.name in cfg.tools && ShouldInterrupt(cfg, call.name) && approval.Granted?
    requires r.tool == call.name && r.toolCallId == call.id
    ensures
      var ctx := Ctx(id.threadId, id.requestId, q.n);
      Drive(cfg, id, q, [ToolCalled(call.name, call.arguments, q.n), HitlRequested(ctx, call.name, call.id),
                         Decided(ctx, call, approval), ToolReturned(r)]) == Working(q.n)
  {
    var ctx := Ctx(id.threadId, id.requestId, q.n);
    var e, f, g := ToolCalled(call.name, call.arguments, q.n), HitlRequested(ctx, call.name, call.id),
      Decided(ctx, call, approval);
    assert [e, f, g, ToolReturned(r)] == [e, f, g] + [ToolReturned(r)];
    DriveConcat(cfg, id, q, [e, f, g], [ToolReturned(r)]);
    DriveThree(cfg, id, q, e, f, g);
    DriveOne(cfg, id, Cleared(q.n, call.name, call.id), ToolReturned(r));
  }

  lemma {:induction false} ExecutedWord(cfg: Config, id: Request, q: Phase, call: ToolCall, r: ToolResult)
    requires Open(q) && call.name in cfg.tools && !ShouldInterrupt(cfg, call.name) && r.tool == call.name
    ensures Drive(cfg, id, q, [ToolCalled(call.name, call.arguments, q.n), ToolReturned(r)]) == Working(q.n)
  {
    DriveTwo(cfg, id, q, ToolCalled(call.name, call.arguments, q.n), ToolReturned(r));
  }

  lemma NothingDriven(cfg: Config, id: Request, q: Phase)
    ensures Drive(cfg, id, q, []) == q
  {
  }

  lemma {:induction false} CallEvents(cfg: Config, id: Request, q: Phase, store: Store, step: Step)
    requires Open(q)
    ensures Drive(cfg, id, q, CallSpec(cfg, Ctx(id.threadId, id.requestId, q.n), store, step).events)
            == if step.call.name in cfg.tools then Working(q.n) else q
  {
    var call, ctx := step.call, Ctx(id.threadId, id.requestId, q.n);
    hide CallSpec, Drive, Next;
    CallEventList(cfg, ctx, store, step);
    if call.name in cfg.tools {
      if ShouldInterrupt(cfg, call.name) && step.approval.Denied? {
        RejectedWord(cfg, id, q, call, step.approval);
      } else {
        var ok := CallSpec(cfg, ctx, store, step).results[0].ok;
        var returned := ToolResult(call.name, call.id, ok, NoData, "", "");
        if ShouldInterrupt(cfg, call.name) {
          ApprovedWord(cfg, id, q, call, step.approval, returned);
        } else {
          ExecutedWord(cfg, id, q, call, returned);
        }
      }
    } else {
      NothingDriven(cfg, id, q);
    }
  }

  lemma {:induction false} TurnEvents(cfg: Config, id: Request, q: Phase, store: Store, steps: seq<Step>)
    requires Open(q)
    ensures
      var q' := Drive(cfg, id, q, TurnSpec(cfg, Ctx(id.threadId, id.requestId, q.n), store, steps).events);
      Open(q') && q'.n == q.n
    decreases steps
  {
    if steps != [] {
      var ctx := Ctx(id.threadId, id.requestId, q.n);
      var first := CallSpec(cfg, ctx, store, steps[0]);
      CallEvents(cfg, id, q, store, steps[0]);
      var q0 := Drive(cfg, id, q, first.events);
      TurnEvents(cfg, id, q0, first.store, steps[1..]);
      DriveConcat(cfg, id, q, first.events, TurnSpec(cfg, ctx, first.store, steps[1..]).events);
    }
  }

  lemma {:induction false} LoopEvents(cfg: Config, id: Request, q: Phase, shown: int, state: State, store: Store,
          replies: seq<Reply>)
    requires (q.Start? || Open(q)) && q.n == state.iteration
    ensures Drive(cfg, id, q, Ended(LoopSpec(cfg, id, shown, state, store, replies)).did.events) == Done
    decreases replies
  {
    if state.iteration >= MAX_ITERATIONS || replies == [] || replies[0].ModelFails? {
      FailureEvents(cfg, id, q, shown, state, store, replies);
    } else if IsAnswer(replies[0]) {
      AnswerEvents(cfg, id, q, state, store, replies[0]);
    } else {
      var turn := TakeTurnSpec(cfg, id, state, store, replies[0]);
      var rest := LoopSpec(cfg, id, turn.state.iteration, turn.state, turn.store, replies[1..]);
      TakenTurnEvents(cfg, id, q, state, store, replies[0]);
      LoopEvents(cfg, id, Drive(cfg, id, q, turn.did.events), turn.state.iteration, turn.state, turn.store,
        replies[1..]);
      DriveConcat(cfg, id, q, turn.did.events, Ended(rest).did.events);
      EndedResume(turn.did, rest);
    }
  }

  lemma {:induction false} EndedResume(p: Progress, r: RunResult)
    ensures Ended(Resume(p, r)).did.events == p.events + Ended(r).did.events
  {
    if r.outcome.Failed? {
      var failed := [RunFailed(r.outcome.error)];
      assert p.events + (r.did.events + failed) == (p.events + r.did.events) + failed;
    }
  }

  lemma {:induction false} FailureEvents(cfg: Config, id: Request, q: Phase, shown: int, state: State, store: Store,
          replies: seq<Reply>)
    requires (q.Start? || Open(q)) && q.n == state.iteration
    requires state.iteration >= MAX_ITERATIONS || replies == [] || replies[0].ModelFails?
    ensures Drive(cfg, id, q, Ended(LoopSpec(cfg, id, shown, state, store, replies)).did.events) == Done
  {
    hide Drive;
    var events := Ended(LoopSpec(cfg, id, shown, state, store, replies)).did.events;
    if state.iteration >= MAX_ITERATIONS {
      assert events == [RunFailed(AgentError(MaxIterations, id.threadId, id.requestId))];
      DriveOne(cfg, id, q, RunFailed(AgentError(MaxIterations, id.threadId, id.requestId)));
    } else {
      assert events == [ModelCalled(q.n + 1, true), RunFailed(AgentError(LlmInvoke, id.threadId, id.requestId))];
      BrokenWord(cfg, id, q);
    }
  }

  lemma {:induction false} BrokenWord(cfg: Config, id: Request, q: Phase)
    requires (q.Start? || Open(q)) && q.n < MAX_ITERATIONS
    ensures Drive(cfg, id, q, [ModelCalled(q.n + 1, true),
      RunFailed(AgentError(LlmInvoke, id.threadId, id.requestId))]) == Done
  {
    DriveTwo(cfg, id, q, ModelCalled(q.n + 1, true), RunFailed(AgentError(LlmInvoke, id.threadId, id.requestId)));
  }

  lemma {:induction false} AnswerEvents(cfg: Config, id: Request, q: Phase, state: State, store: Store, reply: Reply)
    requires (q.Start? || Open(q)) && q.n == state.iteration < MAX_ITERATIONS && IsAnswer(reply)
    ensures Drive(cfg, id, q, AnswerSpec(cfg, id, state, store, reply).did.events) == Done
  {
    var events := AnswerSpec(cfg, id, state, store, reply).did.events;
    DriveThree(cfg, id, q, events[0], events[1], events[2]);
  }

  lemma {:induction false} TakenTurnEvents(cfg: Config, id: Request, q: Phase, state: State, store: Store, reply: Reply)
    requires (q.Start? || Open(q)) && q.n == state.iteration < MAX_ITERATIONS && reply.Reply?
    ensures
      var q' := Drive(cfg, id, q, TakeTurnSpec(cfg, id, state, store, reply).did.events);
      Open(q') && q'.n == state.iteration + 1
  {
    hide Drive, Next, TurnSpec;
    var n := state.iteration + 1;
    var opening := [ModelCalled(n, false)] + Said(reply.content, n);
    OpeningEvents(cfg, id, q, reply.content);
    var q' := Drive(cfg, id, q, opening);
    var turn := TurnSpec(cfg, Ctx(id.threadId, id.requestId, n), store, reply.steps).events;
    TurnEvents(cfg, id, q', store, reply.steps);
    DriveConcat(cfg, id, q, opening, turn);
  }

  lemma {:induction false} OpeningEvents(cfg: Config, id: Request, q: Phase, content: string)
    requires (q.Start? || Open(q)) && q.n < MAX_ITERATIONS
    ensures
      var q' := Drive(cfg, id, q, [ModelCalled(q.n + 1, false)] + Said(content, q.n + 1));
      Open(q') && q'.n == q.n + 1
  {
    var called := ModelCalled(q.n + 1, false);
    if content == "" {
      DriveOne(cfg, id, q, called);
      assert [called] + Said(content, q.n + 1) == [called];
    } else {
      DriveTwo(cfg, id, q, called, AssistantSaid(content, q.n + 1));
      assert [called] + Said(content, q.n + 1) == [called, AssistantSaid(content, q.n + 1)];
    }
  }

  function RequestOf(input: Input, script: Script): Request {
    Request(input.threadId, NewRequestId(input.threadId, script.stamp))
  }

  /** The events of every run are a word of the grammar. */
  lemma {:induction false} EventsFollowGrammar(cfg: Config, store: Store, input: Input, script: Script)
    ensures
      var start := StartState(cfg, store, input, script.loadOk);
      Drive(cfg, RequestOf(input, script), Start(if start.Some? then start.value.iteration else 0),
            RunSpec(cfg, store, input, script).did.events) == Done
  {
    var id := RequestOf(input, script);
    match StartState(cfg, store, input, script.loadOk)
    case None => DriveOne(cfg, id, Start(0), RunFailed(AgentError(CheckpointLoad, id.threadId, id.requestId)));
    case Some(state) => LoopEvents(cfg, id, Start(state.iteration), 0, state, store, script.replies);
  }

  predicate Terminal(e: Event) {
    e.FinalAnswer? || e.RunFailed?
  }

  /** In a word of the grammar there is one terminal event, and it comes last. */
  lemma {:induction false} OneTerminalEvent(cfg: Config, id: Request, n: int, events: seq<Event>)
    requires Drive(cfg, id, Start(n), events) == Done
    ensures events != [] && Terminal(events[|events| - 1])
    ensures forall i | 0 <= i < |events| - 1 :: !Terminal(events[i])
  {
    var last := |events| - 1;
    forall i | 0 <= i < last ensures !Terminal(events[i]) {
      NotDoneBefore(cfg, id, n, events, i + 1);
      assert events[..i + 1][..i] == events[..i] && events[..i + 1][i] == events[i];
    }
  }

  lemma {:induction false} NotDoneBefore(cfg: Config, id: Request, n: int, events: seq<Event>, k: nat)
    requires Drive(cfg, id, Start(n), events) == Done && k < |events|
    ensures Drive(cfg, id, Start(n), events[..k]) !in {Done, Wrong}
  {
    var q := Drive(cfg, id, Start(n), events[..k]);
    assert events == events[..k] + events[k..];
    DriveConcat(cfg, id, Start(n), events[..k], events[k..]);
    if q == Done || q == Wrong {
      StuckAfterEnd(cfg, id, q, events[k..]);
    }
  }

  lemma {:induction false} StuckAfterEnd(cfg: Config, id: Request, q: Phase, events: seq<Event>)
    requires q in {Done, Wrong} && events != []
    ensures Drive(cfg, id, q, events) == Wrong
  {
    var n := |events| - 1;
    if n == 0 {
      assert events == [events[0]];
      DriveOne(cfg, id, q, events[0]);
    } else {
      StuckAfterEnd(cfg, id, q, events[..n]);
    }
  }

  /* ---------- Conservation ---------- */

  datatype Kind = AnyModelCall | FailedModelCall | AnyToolCall | Rejection | AnyReturn | FailedReturn

  predicate Is(k: Kind, e: Event) {
    match k
    case AnyModelCall => e.ModelCalled?
    case FailedModelCall => e.ModelCalled? && e.failed
    case AnyToolCall => e.ToolCalled?
    case Rejection => e.HitlDecided? && !e.approved
    case AnyReturn => e.ToolReturned?
    case FailedReturn => e.ToolReturned? && !e.result.ok
  }

  /** How many events of a kind there are. */
  function Count(k: Kind, events: seq<Event>): nat {
    if events == [] then 0
    else Count(k, events[..|events| - 1]) + if Is(k, events[|events| - 1]) then 1 else 0
  }

  lemma {:induction false} CountSnoc(k: Kind, events: seq<Event>, e: Event)
    ensures Count(k, events + [e]) == Count(k, events) + if Is(k, e) then 1 else 0
  {
    assert (events + [e])[..|events|] == events;
  }

  lemma {:induction false} CountConcat(k: Kind, a: seq<Event>, b: seq<Event>)
    ensures Count(k, a + b) == Count(k, a) + Count(k, b)
    decreases |b|
  {
    if b == [] {
      assert a + b == a;
    } else {
      var n := |b| - 1;
      assert b == b[..n] + [b[n]] && a + b == (a + b[..n]) + [b[n]];
      CountConcat(k, a, b[..n]);
      CountSnoc(k, a + b[..n], b[n]);
      CountSnoc(k, b[..n], b[n]);
    }
  }

  lemma {:induction false} CountThree(k: Kind, a: Event, b: Event, c: Event)
    ensures Count(k, []) == 0
    ensures Count(k, [a]) == if Is(k, a) then 1 else 0
    ensures Count(k, [a, b]) == Count(k, [a]) + if Is(k, b) then 1 else 0
    ensures Count(k, [a, b, c]) == Count(k, [a, b]) + if Is(k, c) then 1 else 0
  {
    CountSnoc(k, [], a);
    CountSnoc(k, [a], b);
    CountSnoc(k, [a, b], c);
    assert [a] == [] + [a] && [a, b] == [a] + [b] && [a, b, c] == [a, b] + [c];
  }

  /** The counters of a summary, read off the events: every announced call was executed or rejected, and
      errors are failed calls and rejections. */
  predicate Balanced(t: Tally, events: seq<Event>) {
    && t.modelCalls == Count(AnyModelCall, events)
    && t.modelErrors == Count(FailedModelCall, events)
    && Count(AnyToolCall, events) == t.toolCalls + Count(Rejection, events)
    && t.toolErrors == Count(FailedReturn, events) + Count(Rejection, events)
    && t.toolCalls == Count(AnyReturn, events)
  }

  function TallyOf(b: Block): Tally {
    Tally(0, 0, 0, b.toolCalls, b.toolErrors)
  }

  lemma {:induction false} BalancedConcat(t: Tally, a: seq<Event>, u: Tally, b: seq<Event>)
    requires Balanced(t, a) && Balanced(u, b)
    ensures Balanced(Tally(u.iteration, t.modelCalls + u.modelCalls, t.modelErrors + u.modelErrors,
                           t.toolCalls + u.toolCalls, t.toolErrors + u.toolErrors), a + b)
  {
    hide Count;
    CountConcat(AnyModelCall, a, b);
    CountConcat(FailedModelCall, a, b);
    CountConcat(AnyToolCall, a, b);
    CountConcat(Rejection, a, b);
    CountConcat(AnyReturn, a, b);
    CountConcat(FailedReturn, a, b);
  }

  lemma {:induction false} NothingBalanced(i: int)
    ensures Balanced(Tally(i, 0, 0, 0, 0), [])
  {
  }

  lemma {:induction false} RejectedBalanced(called: Event, asked: Event, decided: Event)
    requires called.ToolCalled? && asked.HitlRequested? && decided.HitlDecided?
    ensures !decided.approved ==> Balanced(Tally(0, 0, 0, 0, 1), [called, asked, decided])
  {
    hide Count;
    forall k: Kind ensures Count(k, [called, asked, decided])
      == if k == AnyToolCall || (k == Rejection && !decided.approved) then 1 else 0
    {
      CountThree(k, called, asked, decided);
    }
  }

  lemma {:induction false} ApprovedBalanced(called: Event, asked: Event, decided: Event, r: ToolResult)
    requires called.ToolCalled? && asked.HitlRequested? && decided.HitlDecided? && decided.approved
    ensures Balanced(Tally(0, 0, 0, 1, if r.ok then 0 else 1), [called, asked, decided, ToolReturned(r)])
  {
    hide Count;
    assert [called, asked, decided, ToolReturned(r)] == [called, asked, decided] + [ToolReturned(r)];
    forall k: Kind ensures Count(k, [called, asked, decided, ToolReturned(r)])
      == if k == AnyToolCall || k == AnyReturn || (k == FailedReturn && !r.ok) then 1 else 0
    {
      CountThree(k, called, asked, decided);
      CountSnoc(k, [called, asked, decided], ToolReturned(r));
    }
  }

  lemma {:induction false} ExecutedBalanced(called: Event, r: ToolResult)
    requires called.ToolCalled?
    ensures Balanced(Tally(0, 0, 0, 1, if r.ok then 0 else 1), [called, ToolReturned(r)])
  {
    hide Count;
    forall k: Kind ensures Count(k, [called, ToolReturned(r)])
      == if k == AnyToolCall || k == AnyReturn || (k == FailedReturn && !r.ok) then 1 else 0
    {
      CountThree(k, called, ToolReturned(r), called);
    }
  }

  lemma {:induction false} CallBalanced(cfg: Config, ctx: Ctx, store: Store, step: Step)
    ensures
      var block := CallSpec(cfg, ctx, store, step);
      Balanced(TallyOf(block), block.events)
  {
    hide Count, CallSpec;
    CallEventList(cfg, ctx, store, step);
    var called := ToolCalled(step.call.name, step.call.arguments, ctx.iteration);
    var asked, decided := HitlRequested(ctx, step.call.name, step.call.id), Decided(ctx, step.call, step.approval);
    if step.call.name !in cfg.tools {
      NothingBalanced(0);
    } else if ShouldInterrupt(cfg, step.call.name) && step.approval.Denied? {
      RejectedBalanced(called, asked, decided);
    } else {
      var ok := CallSpec(cfg, ctx, store, step).results[0].ok;
      var returned := ToolResult(step.call.name, step.call.id, ok, NoData, "", "");
      if ShouldInterrupt(cfg, step.call.name) {
        ApprovedBalanced(called, asked, decided, returned);
      } else {
        ExecutedBalanced(called, returned);
      }
    }
  }

  lemma {:induction false} TurnBalanced(cfg: Config, ctx: Ctx, store: Store, steps: seq<Step>)
    ensures
      var turn := TurnSpec(cfg, ctx, store, steps);
      Balanced(TallyOf(turn), turn.events)
    decreases steps
  {
    hide Count, CallSpec;
    NothingBalanced(0);
    if steps != [] {
      var first := CallSpec(cfg, ctx, store, steps[0]);
      var rest := TurnSpec(cfg, ctx, first.store, steps[1..]);
      CallBalanced(cfg, ctx, store, steps[0]);
      TurnBalanced(cfg, ctx, first.store, steps[1..]);
      BalancedConcat(TallyOf(first), first.events, TallyOf(rest), rest.events);
    }
  }

  lemma {:induction false} TakenTurnBalanced(n: int, content: string, turn: Block, saved: Action)
    requires Balanced(TallyOf(turn), turn.events)
    ensures
      var p := TakenTurn(n, content, turn, saved);
      Balanced(p.tally, p.events)
  {
    hide Count;
    var called, said := ModelCalled(n, false), AssistantSaid(content, n);
    var opening := [called] + Said(content, n);
    assert opening == if content == "" then [called] else [called, said];
    forall k: Kind ensures Count(k, opening) == if k == AnyModelCall then 1 else 0 {
      CountThree(k, called, said, called);
    }
    BalancedConcat(Tally(n, 1, 0, 0, 0), opening, TallyOf(turn), turn.events);
  }

  lemma {:induction false} LoopBalanced(cfg: Config, id: Request, shown: int, state: State, store: Store,
          replies: seq<Reply>)
    ensures
      var did := LoopSpec(cfg, id, shown, state, store, replies).did;
      Balanced(did.tally, did.events)
    decreases replies
  {
    hide Count, TurnSpec;
    NothingBalanced(shown);
    if state.iteration < MAX_ITERATIONS {
      if replies == [] || replies[0].ModelFails? {
        var called := ModelCalled(state.iteration + 1, true);
        forall k: Kind ensures Count(k, [called]) == if Is(k, called) then 1 else 0 {
          CountThree(k, called, called, called);
        }
      } else if IsAnswer(replies[0]) {
        var events := AnswerSpec(cfg, id, state, store, replies[0]).did.events;
        forall k: Kind ensures Count(k, events) == if k == AnyModelCall then 1 else 0 {
          CountThree(k, events[0], events[1], events[2]);
        }
      } else {
        var turn := TakeTurnSpec(cfg, id, state, store, replies[0]);
        var rest := LoopSpec(cfg, id, turn.state.iteration, turn.state, turn.store, replies[1..]).did;
        var ctx := Ctx(id.threadId, id.requestId, state.iteration + 1);
        TurnBalanced(cfg, ctx, store, replies[0].steps);
        TakenTurnBalanced(turn.state.iteration, replies[0].content, TurnSpec(cfg, ctx, store, replies[0].steps),
                          turn.did.actions[|turn.did.actions| - 1]);
        LoopBalanced(cfg, id, turn.state.iteration, turn.state, turn.store, replies[1..]);
        BalancedConcat(turn.did.tally, turn.did.events, rest.tally, rest.events);
      }
    }
  }

  /** The iteration of the last model call; n if there is none. */
  function LastIteration(n: int, events: seq<Event>): int {
    if events == [] then n
    else if events[|events| - 1].ModelCalled? then events[|events| - 1].iteration
    else LastIteration(n, events[..|events| - 1])
  }

  lemma {:induction false} LastIterationConcat(n: int, a: seq<Event>, b: seq<Event>)
    ensures LastIteration(n, a + b) == LastIteration(LastIteration(n, a), b)
    decreases |b|
  {
    if b == [] {
      assert a + b == a;
    } else {
      LastIterationConcat(n, a, b[..|b| - 1]);
      assert (a + b)[..|a + b| - 1] == a + b[..|b| - 1];
    }
  }

  lemma {:induction false} LastIterationOfTurn(n: int, events: seq<Event>)
    requires Count(AnyModelCall, events) == 0
    ensures LastIteration(n, events) == n
  {
    if events != [] {
      LastIterationOfTurn(n, events[..|events| - 1]);
    }
  }

  lemma {:induction false} LastIterationThree(n: int, e: Event, f: Event, g: Event)
    requires e.ModelCalled? && !f.ModelCalled? && !g.ModelCalled?
    ensures LastIteration(n, [e]) == LastIteration(n, [e, f]) == LastIteration(n, [e, f, g]) == e.iteration
  {
    assert [e, f][..1] == [e] && [e, f, g][..2] == [e, f];
  }

  lemma {:induction false} LoopIteration(cfg: Config, id: Request, shown: int, state: State, store: Store,
          replies: seq<Reply>)
    ensures
      var did := LoopSpec(cfg, id, shown, state, store, replies).did;
      did.tally.iteration == LastIteration(shown, did.events)
    decreases replies
  {
    hide TurnSpec, SaveSpec, Count;
    if state.iteration < MAX_ITERATIONS {
      if replies == [] || replies[0].ModelFails? {
        LastIterationThree(shown, ModelCalled(state.iteration + 1, true), AssistantSaid("", 0), AssistantSaid("", 0));
      } else if IsAnswer(replies[0]) {
        var events := AnswerSpec(cfg, id, state, store, replies[0]).did.events;
        LastIterationThree(shown, events[0], events[1], events[2]);
      } else {
        var n, content := state.iteration + 1, replies[0].content;
        var taken := TakeTurnSpec(cfg, id, state, store, replies[0]);
        var turn := TurnSpec(cfg, Ctx(id.threadId, id.requestId, n), store, replies[0].steps);
        var rest := LoopSpec(cfg, id, taken.state.iteration, taken.state, taken.store, replies[1..]).did;
        var called, said := ModelCalled(n, false), AssistantSaid(content, n);
        LastIterationThree(shown, called, said, said);
        assert [called] + Said(content, n) == if content == "" then [called] else [called, said];
        TurnBalanced(cfg, Ctx(id.threadId, id.requestId, n), store, replies[0].steps);
        LastIterationOfTurn(n, turn.events);
        LastIterationConcat(shown, [called] + Said(content, n), turn.events);
        LoopIteration(cfg, id, taken.state.iteration, taken.state, taken.store, replies[1..]);
        LastIterationConcat(shown, taken.did.events, rest.events);
      }
    }
  }

  /** The summary of every run agrees with its events. */
  lemma {:induction false} SummaryMatchesEvents(cfg: Config, store: Store, input: Input, script: Script)
    ensures
      var did := RunSpec(cfg, store, input, script).did;
      Balanced(did.tally, did.events) && did.tally.iteration == LastIteration(0, did.events)
  {
    hide Count, LoopSpec;
    var id := RequestOf(input, script);
    match StartState(cfg, store, input, script.loadOk)
    case None =>
      var failed := RunFailed(AgentError(CheckpointLoad, id.threadId, id.requestId));
      forall k: Kind ensures Count(k, [failed]) == 0 {
        CountThree(k, failed, failed, failed);
      }
    case Some(state) =>
      var r := LoopSpec(cfg, id, 0, state, store, script.replies);
      LoopBalanced(cfg, id, 0, state, store, script.replies);
      LoopIteration(cfg, id, 0, state, store, script.replies);
      if r.outcome.Failed? {
        assert Ended(r).did.events[..|r.did.events|] == r.did.events;
        forall k: Kind ensures Count(k, Ended(r).did.events) == Count(k, r.did.events) {
          CountSnoc(k, r.did.events, RunFailed(r.outcome.error));
        }
      }
  }

  /** The error rate that the summary reports. */
  function ErrorRate(t: Tally): real {
    if t.toolCalls > 0 then t.toolErrors as real / t.toolCalls as real else 0.0
  }

  /** Rejections count as errors but not as calls: the reported rate stays within 1 exactly when nothing was
      executed or there are no more rejections than calls that succeeded. */
  lemma {:induction false} ErrorRateBound(t: Tally, events: seq<Event>)
    requires Balanced(t, events)
    ensures ErrorRate(t) <= 1.0 <==>
      t.toolCalls == 0 || Count(Rejection, events) <= Count(AnyReturn, events) - Count(FailedReturn, events)
  {
    hide Count;
    if t.toolCalls > 0 {
      QuotientAtMostOne(t.toolErrors as real, t.toolCalls as real);
    }
  }

  lemma {:induction false} QuotientAtMostOne(a: real, b: real)
    requires b > 0.0
    ensures a / b <= 1.0 <==> a <= b
  {
    var q := a / b;
    assert q * b == a;
    if q <= 1.0 {
      assert (1.0 - q) * b >= 0.0;
    } else {
      assert (q - 1.0) * b > 0.0;
    }
  }

  /* ---------- Every call is answered ---------- */

  /** The calls of a turn that name a registered tool, in order. */
  function Registered(cfg: Config, steps: seq<Step>): seq<Step> {
    if steps == [] then []
    else (if steps[0].call.name in cfg.tools then [steps[0]] else []) + Registered(cfg, steps[1..])
  }

  /** A call that the gate stops. */
  predicate HeldBack(cfg: Config, step: Step) {
    && step.call.name in cfg.tools && step.call.name in cfg.interrupts && cfg.interrupts[step.call.name]
    && step.approval.Denied?
  }

  predicate IsSuccess(r: ToolResult, data: Data) {
    r.ok && r.data == data && r.error == "" && r.code == ""
  }

  predicate IsFailure(r: ToolResult, code: string, error: string) {
    !r.ok && r.data == NoData && r.error == error && r.code == code
  }

  /** The result that answers a call: under its tool and its ID, the refusal of the approver or of the validator,
      or what the tool gave. */
  ghost predicate Answers(cfg: Config, step: Step, r: ToolResult) {
    && r.tool == step.call.name && r.toolCallId == step.call.id
    && if HeldBack(cfg, step) then IsFailure(r, "hitl_rejected", step.approval.error)
       else if !Accepts(cfg, step) then IsFailure(r, "tool_execution_error", step.schemaError)
       else
         match step.answer
         case Returns(data) => IsSuccess(r, data)
         case Fails(error) => IsFailure(r, "tool_execution_error", error)
         case Spawns(_, merge) => AnswersForSubAgent(merge, r)
  }

  /** The result of a call that starts a sub-agent: what merging gives, or the error that ended the sub-agent. */
  ghost predicate AnswersForSubAgent(merge: Merge, r: ToolResult) {
    || (merge.Merged? && IsSuccess(r, merge.data))
    || (merge.NotMerged? && IsFailure(r, "tool_execution_error", merge.error))
    || IsFailure(r, "tool_execution_error", "description is required")
    || exists error: AgentError :: error.threadId == "" && IsFailure(r, "tool_execution_error", error.Text())
  }

  /** A call whose answer, if it succeeds, can be printed as JSON. */
  predicate GivesJson(step: Step) {
    match step.answer
    case Returns(data) => PrintableData(data)
    case Spawns(_, Merged(data)) => PrintableData(data)
    case _ => true
  }

  /** What comes of a call that the gate lets through. */
  function OutcomeOf(cfg: Config, store: Store, step: Step): CallOutcome
    requires step.call.name in cfg.tools
  {
    var args := ParseArgs(cfg, step.call.arguments);
    if Validation.SchemaAccepts(Some(ToolSchema(cfg, step.call.name)), args)
      then MakeCallSpec(cfg, store, step, args).outcome
    else Failure(step.schemaError)
  }

  lemma {:induction false} CallResultList(cfg: Config, ctx: Ctx, store: Store, step: Step)
    ensures CallSpec(cfg, ctx, store, step).results ==
      if step.call.name !in cfg.tools then []
      else if ShouldInterrupt(cfg, step.call.name) && step.approval.Denied?
        then [RejectedResult(step.call, step.approval.error)]
      else [ExecutedResult(step.call, OutcomeOf(cfg, store, step))]
  {
    hide MakeCallSpec, Validation.SchemaAccepts, ToolSchema, ParseArgs, ExecutedResult;
  }

  lemma {:induction false} CallAnswered(cfg: Config, ctx: Ctx, store: Store, step: Step)
    ensures
      var results := CallSpec(cfg, ctx, store, step).results;
      if step.call.name in cfg.tools then |results| == 1 && Answers(cfg, step, results[0]) else results == []
  {
    hide CallSpec, MakeCallSpec, ParseArgs, ToolSchema, Validation.SchemaAccepts;
    CallResultList(cfg, ctx, store, step);
    if step.answer.Spawns? {
      SubAgentOutcome(cfg, store, step, ParseArgs(cfg, step.call.arguments));
    } else {
      PlainOutcome(cfg, store, step, ParseArgs(cfg, step.call.arguments));
    }
  }

  lemma {:induction false} PlainOutcome(cfg: Config, store: Store, step: Step, args: Option<Object>)
    requires !step.answer.Spawns?
    ensures MakeCallSpec(cfg, store, step, args).outcome ==
      if step.answer.Returns? then Success(step.answer.data) else Failure(step.answer.error)
  {
  }

  lemma {:induction false} SubAgentOutcome(cfg: Config, store: Store, step: Step, args: Option<Object>)
    requires step.answer.Spawns?
    ensures
      var outcome, merge := MakeCallSpec(cfg, store, step, args).outcome, step.answer.merge;
      || (merge.Merged? && outcome == Success(merge.data))
      || (merge.NotMerged? && outcome == Failure(merge.error))
      || outcome == Failure("description is required")
      || exists error: AgentError :: error.threadId == "" && outcome == Failure(error.Text())
  {
    hide RunSpec, AgentError.Text;
    var description := DescriptionOf(args);
    if description != "" {
      var sub, task := SubConfig(cfg, description), SubInput(description);
      var outcome := RunSpec(sub, store, task, step.answer.sub).outcome;
      OutcomeOfRun(sub, store, task, step.answer.sub);
      if outcome.Failed? {
        assert outcome.error.threadId == "";
      }
    }
  }

  /** The outcome of a run is of its thread and its request; an answer is what the last action saves or tries to,
      with the whole history. */
  predicate OutcomeFits(id: Request, r: RunResult) {
    match r.outcome
    case Failed(error) => Request(error.threadId, error.requestId) == id
    case Finished(messages, final, threadId, requestId) =>
      && Request(threadId, requestId) == id && final != ""
      && messages != [] && messages[|messages| - 1] == Message("assistant", final)
      && r.did.actions != []
      && var last := r.did.actions[|r.did.actions| - 1];
         last.Saved? && last.threadId == threadId && last.state.messages == messages && last.state.final == final
  }

  lemma {:induction false} OutcomeOfRun(cfg: Config, store: Store, input: Input, script: Script)
    ensures OutcomeFits(RequestOf(input, script), RunSpec(cfg, store, input, script))
  {
    hide LoopSpec;
    match StartState(cfg, store, input, script.loadOk)
    case None =>
    case Some(state) => LoopOutcome(cfg, RequestOf(input, script), 0, state, store, script.replies);
  }

  lemma {:induction false} LoopOutcome(cfg: Config, id: Request, shown: int, state: State, store: Store,
          replies: seq<Reply>)
    ensures OutcomeFits(id, LoopSpec(cfg, id, shown, state, store, replies))
    decreases replies
  {
    hide TakeTurnSpec, SaveSpec;
    if state.iteration < MAX_ITERATIONS && replies != [] && replies[0].Reply? && !IsAnswer(replies[0]) {
      var turn := TakeTurnSpec(cfg, id, state, store, replies[0]);
      LoopOutcome(cfg, id, turn.state.iteration, turn.state, turn.store, replies[1..]);
    }
  }

  /** How many actions the gate takes: a log call, the question, a log call. */
  function GateLength(cfg: Config, step: Step): nat {
    if step.call.name in cfg.interrupts && cfg.interrupts[step.call.name] then 3 else 0
  }

  lemma {:induction false} CallActionParts(cfg: Config, ctx: Ctx, store: Store, step: Step)
    requires step.call.name in cfg.tools
    ensures
      var block, gate := CallSpec(cfg, ctx, store, step), GateActions(cfg, ctx, store, step);
      if HeldBack(cfg, step) then block.actions == gate
      else
        var made := MakeCallSpec(cfg, store, step, ParseArgs(cfg, step.call.arguments)).actions;
        && |block.results| == 1
        && block.actions ==
             gate + (if Accepts(cfg, step) then made else []) + [Remembered(ctx.threadId, block.results[0])]
  {
    hide MakeCallSpec, ToolSchema, Validation.SchemaAccepts, ParseArgs, ExecutedResult;
    var gate := GateActions(cfg, ctx, store, step);
    var done := ExecuteSpec(cfg, ctx, store, step).actions;
    assert [] + gate == gate && [] + done == done && gate + [] == gate;
    if !HeldBack(cfg, step) {
      assert CallSpec(cfg, ctx, store, step).actions == gate + done;
    }
  }

  lemma {:induction false} CallMade(cfg: Config, ctx: Ctx, store: Store, step: Step)
    requires Accepts(cfg, step) && !HeldBack(cfg, step)
    ensures
      var block := CallSpec(cfg, ctx, store, step);
      var made := MakeCallSpec(cfg, store, step, ParseArgs(cfg, step.call.arguments));
      && block.results == [ExecutedResult(step.call, made.outcome)] && block.store == made.store
      && |block.actions| == GateLength(cfg, step) + |made.actions| + 1
      && block.actions[GateLength(cfg, step)..|block.actions| - 1] == made.actions
  {
    hide MakeCallSpec, ToolSchema, Validation.SchemaAccepts, ParseArgs, ExecutedResult;
    CallActionParts(cfg, ctx, store, step);
  }

  lemma {:induction false} LoopErrors(cfg: Config, id: Request, shown: int, state: State, store: Store,
          replies: seq<Reply>)
    ensures
      var r := LoopSpec(cfg, id, shown, state, store, replies);
      && r.did.tally.modelErrors == (if r.outcome.Failed? && r.outcome.error.kind == LlmInvoke then 1 else 0)
      && (r.outcome.Failed? ==> r.outcome.error.kind != CheckpointLoad)
    decreases replies
  {
    hide TurnSpec, SaveSpec;
    if state.iteration < MAX_ITERATIONS && replies != [] && replies[0].Reply? && !IsAnswer(replies[0]) {
      var turn := TakeTurnSpec(cfg, id, state, store, replies[0]);
      LoopErrors(cfg, id, turn.state.iteration, turn.state, turn.store, replies[1..]);
    }
  }

  /** The code of the error that ends a run tells why: its checkpoint could not be loaded, the model failed, or neither,
      and the iterations were used up. */
  lemma {:induction false} ErrorCodeTellsWhy(cfg: Config, store: Store, input: Input, script: Script)
    requires RunSpec(cfg, store, input, script).outcome.Failed?
    ensures
      var r := RunSpec(cfg, store, input, script);
      var text := r.outcome.error.Message() + " (code=" + r.outcome.error.Code() + " thread=" + input.threadId
        + " request=" + RequestOf(input, script).requestId + ")";
      && r.outcome.error.Text() == text
      && (r.outcome.error.Code(), r.outcome.error.Message()) ==
           if StartState(cfg, store, input, script.loadOk) == None
             then ("checkpoint_load_error", "failed to load checkpoint")
           else if r.did.tally.modelErrors == 1 then ("llm_invoke_error", "failed to invoke llm")
           else ("max_iterations_reached", "max iterations reached")
  {
    hide LoopSpec;
    OutcomeOfRun(cfg, store, input, script);
    var id := RequestOf(input, script);
    match StartState(cfg, store, input, script.loadOk)
    case None =>
    case Some(state) => LoopErrors(cfg, id, 0, state, store, script.replies);
  }

  /** The sub-agent of a call with a description, as it is run, and what comes of it. */
  lemma {:induction false} SubAgentAnswered(cfg: Config, ctx: Ctx, store: Store, step: Step, o: Object, d: string)
    requires Accepts(cfg, step) && !HeldBack(cfg, step) && step.answer.Spawns? && step.call.arguments != ""
    requires cfg.json.parse(step.call.arguments) == Some(Map(o))
    requires "description" in o && o["description"] == Str(d) && d != ""
    ensures
      var prompt := "You are a focused sub-agent. Task: " + d + "\n\n" + cfg.skills;
      var run := RunSpec(cfg.(prompt := prompt), store, Input([Message("user", d)], ""), step.answer.sub);
      var block, merge := CallSpec(cfg, ctx, store, step), step.answer.merge;
      && block.store == run.store && |block.results| == 1
      && GateLength(cfg, step) + 2 <= |block.actions|
      && block.actions[GateLength(cfg, step) + 1..|block.actions| - 1] == run.did.actions
      && match run.outcome
         case Failed(error) => IsFailure(block.results[0], "tool_execution_error", error.Text())
         case Finished(_, _, _, _) =>
           if merge.Merged? then IsSuccess(block.results[0], merge.data)
           else IsFailure(block.results[0], "tool_execution_error", merge.error)
  {
    hide RunSpec, CallSpec, AgentError.Text, Accepts, HeldBack, GateLength;
    CallMade(cfg, ctx, store, step);
    var made := MakeCallSpec(cfg, store, step, ParseArgs(cfg, step.call.arguments));
    var actions, g := CallSpec(cfg, ctx, store, step).actions, GateLength(cfg, step);
    assert actions[g..|actions| - 1][1..] == actions[g + 1..|actions| - 1];
    assert made.actions[1..] == RunSpec(SubConfig(cfg, d), store, SubInput(d), step.answer.sub).did.actions;
  }

  /** Without a description no sub-agent is run. */
  lemma {:induction false} SubAgentNeedsDescription(cfg: Config, ctx: Ctx, store: Store, step: Step)
    requires Accepts(cfg, step) && !HeldBack(cfg, step) && step.answer.Spawns?
    requires step.call.arguments == "" ||
      match cfg.json.parse(step.call.arguments)
      case Some(Map(o)) => "description" !in o || !o["description"].Str? || o["description"].s == ""
      case _ => true
    ensures
      var block := CallSpec(cfg, ctx, store, step);
      && block.store == store && |block.results| == 1
      && IsFailure(block.results[0], "tool_execution_error", "description is required")
  {
    hide RunSpec, CallSpec, Accepts, HeldBack;
    CallMade(cfg, ctx, store, step);
  }

  /** What a registered call does: the gate; if it is let through and accepted, the call and whatever it does; and if
      it is let through, a memory entry with its result, for the thread, last of all. */
  lemma {:induction false} CallActions(cfg: Config, ctx: Ctx, store: Store, step: Step)
    requires step.call.name in cfg.tools
    ensures
      var block, g := CallSpec(cfg, ctx, store, step), GateLength(cfg, step);
      var actions, last := block.actions, |block.actions| - 1;
      && (g == 3 ==>
            && last >= 2 && actions[0].Logged? && actions[0].io == step.requestIO
            && actions[1] == Asked(ctx, step.call, step.approval)
            && actions[2].Logged? && actions[2].io == step.decisionIO)
      && if HeldBack(cfg, step) then last == 2
         else
           && last >= g && |block.results| == 1 && actions[last] == Remembered(ctx.threadId, block.results[0])
           && if !Accepts(cfg, step) then last == g
              else
                && last > g && actions[g] == Called(step.call, ParseArgs(cfg, step.call.arguments))
                && (!step.answer.Spawns? ==> last == g + 1)
  {
    hide RunSpec, CallSpec, Accepts, ParseArgs;
    CallActionParts(cfg, ctx, store, step);
  }

  /** A turn adds one result for every registered call, in call order, and none for any other. */
  lemma {:induction false} TurnAnswersCalls(cfg: Config, ctx: Ctx, store: Store, steps: seq<Step>)
    ensures
      var results, calls := TurnSpec(cfg, ctx, store, steps).results, Registered(cfg, steps);
      |results| == |calls| && forall i | 0 <= i < |calls| :: Answers(cfg, calls[i], results[i])
    decreases steps
  {
    hide CallSpec, Answers;
    if steps != [] {
      var first := CallSpec(cfg, ctx, store, steps[0]);
      CallAnswered(cfg, ctx, store, steps[0]);
      TurnAnswersCalls(cfg, ctx, first.store, steps[1..]);
    }
  }

  ghost predicate AnsweredBy(cfg: Config, step: Step, m: Message) {
    exists r :: Answers(cfg, step, r) && m == ToolMessage(cfg, r)
  }

  lemma {:induction false} TurnHistory(cfg: Config, id: Request, state: State, store: Store, reply: Reply)
    requires reply.Reply?
    ensures TakeTurnSpec(cfg, id, state, store, reply).state.messages ==
      state.messages + [Message("assistant", reply.content)]
      + Messages(cfg, TurnSpec(cfg, Ctx(id.threadId, id.requestId, state.iteration + 1), store, reply.steps).results)
  {
    hide TurnSpec, Messages;
  }

  /** The messages that a turn adds: the assistant's, then one tool message for every registered call. */
  lemma {:induction false} TurnMessages(cfg: Config, id: Request, state: State, store: Store, reply: Reply)
    requires reply.Reply?
    ensures
      var before, after := state.messages, TakeTurnSpec(cfg, id, state, store, reply).state.messages;
      var calls := Registered(cfg, reply.steps);
      && |after| == |before| + 1 + |calls|
      && after[..|before|] == before
      && after[|before|] == Message("assistant", reply.content)
      && forall i | 0 <= i < |calls| :: AnsweredBy(cfg, calls[i], after[|before| + 1 + i])
  {
    hide TakeTurnSpec, TurnSpec, ToolMessage, Answers, Registered;
    var ctx := Ctx(id.threadId, id.requestId, state.iteration + 1);
    var results, calls := TurnSpec(cfg, ctx, store, reply.steps).results, Registered(cfg, reply.steps);
    var before, after := state.messages, TakeTurnSpec(cfg, id, state, store, reply).state.messages;
    TurnHistory(cfg, id, state, store, reply);
    TurnAnswersCalls(cfg, ctx, store, reply.steps);
    forall i | 0 <= i < |calls| ensures AnsweredBy(cfg, calls[i], after[|before| + 1 + i]) {
      assert Answers(cfg, calls[i], results[i]) && after[|before| + 1 + i] == ToolMessage(cfg, results[i]);
    }
  }

  /** What a turn adds to a history, as Anthropic gets it: for every registered call one tool result block
      with the ID of that call, in call order, that tells what came of the call; but for calls without an ID and
      data that cannot be printed. */
  lemma {:induction false} TurnIsReadBack(cfg: Config, id: Request, state: State, store: Store, reply: Reply)
    requires reply.Reply? && cfg.json.Faithful()
    ensures
      var before, after := state.messages, TakeTurnSpec(cfg, id, state, store, reply).state.messages;
      var calls := Registered(cfg, reply.steps);
      && |after| == |before| + 1 + |calls|
      && forall i | 0 <= i < |calls| && GivesJson(calls[i]) && !Blank(calls[i].call.id) ::
           IsResultOf(cfg, calls[i], after[|before| + 1 + i])
  {
    hide TakeTurnSpec, Registered, Answers, ToRequest, GivesJson, IsResultOf;
    TurnMessages(cfg, id, state, store, reply);
    var before, after := state.messages, TakeTurnSpec(cfg, id, state, store, reply).state.messages;
    var calls := Registered(cfg, reply.steps);
    forall i | 0 <= i < |calls| && GivesJson(calls[i]) && !Blank(calls[i].call.id)
      ensures IsResultOf(cfg, calls[i], after[|before| + 1 + i])
    {
      assert AnsweredBy(cfg, calls[i], after[|before| + 1 + i]);
      var r :| Answers(cfg, calls[i], r) && after[|before| + 1 + i] == ToolMessage(cfg, r);
      ResultIsReadBack(cfg, calls[i], r);
    }
  }

  /** A tool message that is sent as the result of a call. */
  ghost predicate IsResultOf(cfg: Config, step: Step, m: Message) {
    var sent := ToRequest(cfg.json, m);
    && sent.role == "user" && sent.block.ToolResultBlock? && sent.block.toolUseId == step.call.id
    && Tells(cfg, step, sent.block.text)
  }

  /** The model is told the error, if it says anything. */
  predicate TellsError(text: string, error: string) {
    text == if Blank(error) then "tool execution failed" else error
  }

  /** The model is told the data, printed again as they are read. */
  predicate TellsData(json: Json, text: string, data: Data) {
    match data
    case NoData => text == "ok"
    case JsonData(v) => text == json.print_(Decoded(json.round, v))
    case Unprintable(_) => false
  }

  /** What the model is told of a call. */
  ghost predicate Tells(cfg: Config, step: Step, text: string) {
    if HeldBack(cfg, step) then TellsError(text, step.approval.error)
    else if !Accepts(cfg, step) then TellsError(text, step.schemaError)
    else
      match step.answer
      case Returns(data) => TellsData(cfg.json, text, data)
      case Fails(error) => TellsError(text, error)
      case Spawns(_, merge) =>
        || (merge.Merged? && TellsData(cfg.json, text, merge.data))
        || (merge.NotMerged? && TellsError(text, merge.error))
        || TellsError(text, "description is required")
        || exists error: AgentError :: error.threadId == "" && TellsError(text, error.Text())
  }

  lemma {:induction false} ResultIsReadBack(cfg: Config, step: Step, r: ToolResult)
    requires cfg.json.Faithful() && Answers(cfg, step, r) && GivesJson(step) && !Blank(step.call.id)
    ensures IsResultOf(cfg, step, ToolMessage(cfg, r))
  {
    hide FormatToolMessage, ParseToolResultBlock, IsPrintable, Decoded, Accepts, Blank, AgentError.Text;
    ToolResultRoundTrip(cfg.json, r);
  }

  /* ---------- The error rate, from the calls and the approvals ---------- */

  predicate Succeeds(cfg: Config, store: Store, step: Step) {
    step.call.name in cfg.tools && !HeldBack(cfg, step) && OutcomeOf(cfg, store, step).Success?
  }

  function HeldBackOf(cfg: Config, steps: seq<Step>): nat {
    if steps == [] then 0 else (if HeldBack(cfg, steps[0]) then 1 else 0) + HeldBackOf(cfg, steps[1..])
  }

  /** How many calls of a turn succeed, each on the checkpoints that the sub-agents before it left. */
  function Successes(cfg: Config, ctx: Ctx, store: Store, steps: seq<Step>): nat
    decreases steps
  {
    if steps == [] then 0
    else
      (if Succeeds(cfg, store, steps[0]) then 1 else 0)
      + Successes(cfg, ctx, CallSpec(cfg, ctx, store, steps[0]).store, steps[1..])
  }

  lemma {:induction false} CallCounts(cfg: Config, ctx: Ctx, store: Store, step: Step)
    ensures
      var block := CallSpec(cfg, ctx, store, step);
      && block.toolCalls == (if step.call.name in cfg.tools && !HeldBack(cfg, step) then 1 else 0)
      && block.toolErrors == (if step.call.name in cfg.tools && !Succeeds(cfg, store, step) then 1 else 0)
  {
    hide MakeCallSpec, Validation.SchemaAccepts, ToolSchema, ParseArgs;
  }

  /** The counters of a turn: registered calls less those held back, and less those that succeed. */
  lemma {:induction false} TurnCounts(cfg: Config, ctx: Ctx, store: Store, steps: seq<Step>)
    ensures
      var turn, calls := TurnSpec(cfg, ctx, store, steps), |Registered(cfg, steps)|;
      turn.toolCalls == calls - HeldBackOf(cfg, steps) && turn.toolErrors == calls - Successes(cfg, ctx, store, steps)
    decreases steps
  {
    hide CallSpec, HeldBack, Succeeds;
    if steps != [] {
      var first := CallSpec(cfg, ctx, store, steps[0]);
      CallCounts(cfg, ctx, store, steps[0]);
      HeldBackIsRegistered(cfg, store, steps[0]);
      TurnCounts(cfg, ctx, first.store, steps[1..]);
    }
  }

  lemma {:induction false} HeldBackIsRegistered(cfg: Config, store: Store, step: Step)
    ensures HeldBack(cfg, step) || Succeeds(cfg, store, step) ==> step.call.name in cfg.tools
  {
  }

  /** The registered calls of the turns that a run takes, how many of them the approver holds back, and how
      many succeed. */
  datatype Calls = Calls(registered: nat, heldBack: nat, succeeded: nat)

  function LoopCalls(cfg: Config, id: Request, state: State, store: Store, replies: seq<Reply>): Calls
    decreases replies
  {
    if state.iteration >= MAX_ITERATIONS || replies == [] || replies[0].ModelFails? || IsAnswer(replies[0])
    then Calls(0, 0, 0)
    else
      var steps, turn := replies[0].steps, TakeTurnSpec(cfg, id, state, store, replies[0]);
      var rest := LoopCalls(cfg, id, turn.state, turn.store, replies[1..]);
      Calls(|Registered(cfg, steps)| + rest.registered, HeldBackOf(cfg, steps) + rest.heldBack,
            Successes(cfg, Ctx(id.threadId, id.requestId, state.iteration + 1), store, steps) + rest.succeeded)
  }

  function RunCalls(cfg: Config, store: Store, input: Input, script: Script): Calls {
    match StartState(cfg, store, input, script.loadOk)
    case None => Calls(0, 0, 0)
    case Some(state) => LoopCalls(cfg, RequestOf(input, script), state, store, script.replies)
  }

  predicate CountedBy(t: Tally, c: Calls) {
    t.toolCalls == c.registered - c.heldBack && t.toolErrors == c.registered - c.succeeded
  }

  lemma {:induction false} TakenTurnCounts(cfg: Config, id: Request, state: State, store: Store, reply: Reply)
    requires reply.Reply?
    ensures
      var t, calls := TakeTurnSpec(cfg, id, state, store, reply).did.tally, |Registered(cfg, reply.steps)|;
      && t.toolCalls == calls - HeldBackOf(cfg, reply.steps)
      && t.toolErrors == calls - Successes(cfg, Ctx(id.threadId, id.requestId, state.iteration + 1), store, reply.steps)
  {
    hide TurnSpec, Successes, HeldBackOf, Registered;
    TurnCounts(cfg, Ctx(id.threadId, id.requestId, state.iteration + 1), store, reply.steps);
  }

  lemma {:induction false} LoopCounts(cfg: Config, id: Request, shown: int, state: State, store: Store,
          replies: seq<Reply>)
    ensures CountedBy(LoopSpec(cfg, id, shown, state, store, replies).did.tally,
      LoopCalls(cfg, id, state, store, replies))
    decreases replies
  {
    hide TakeTurnSpec, Successes, HeldBackOf, Registered;
    if state.iteration < MAX_ITERATIONS && replies != [] && replies[0].Reply? && !IsAnswer(replies[0]) {
      var turn := TakeTurnSpec(cfg, id, state, store, replies[0]);
      TakenTurnCounts(cfg, id, state, store, replies[0]);
      LoopCounts(cfg, id, turn.state.iteration, turn.state, turn.store, replies[1..]);
    }
  }

  lemma {:induction false} RunCounts(cfg: Config, store: Store, input: Input, script: Script)
    ensures CountedBy(RunSpec(cfg, store, input, script).did.tally, RunCalls(cfg, store, input, script))
  {
    hide LoopSpec, LoopCalls;
    match StartState(cfg, store, input, script.loadOk)
    case None =>
    case Some(state) => LoopCounts(cfg, RequestOf(input, script), 0, state, store, script.replies);
  }

  /** The reported error rate of a run is at most 1 exactly if the approver held back all its calls, or no
      more of them than succeeded. */
  lemma {:induction false} RunErrorRate(cfg: Config, store: Store, input: Input, script: Script)
    ensures
      var c := RunCalls(cfg, store, input, script);
      ErrorRate(RunSpec(cfg, store, input, script).did.tally) <= 1.0 <==>
        c.heldBack == c.registered || c.heldBack <= c.succeeded
  {
    hide RunSpec, RunCalls;
    RunCounts(cfg, store, input, script);
    var t := RunSpec(cfg, store, input, script).did.tally;
    if t.toolCalls > 0 {
      QuotientAtMostOne(t.toolErrors as real, t.toolCalls as real);
    }
  }

  /** One call that succeeds and two that are held back: the run reports an error rate of 2. */
  lemma {:induction false} ErrorRateOfTwo(cfg: Config, store: Store, input: Input, script: Script, good: Step,
          bad: Step)
    requires StartState(cfg, store, input, script.loadOk).Some?
    requires StartState(cfg, store, input, script.loadOk).value.iteration < MAX_ITERATIONS
    requires script.replies == [Reply("", [good, bad, bad], true)]
    requires good.call.name in cfg.tools && !ShouldInterrupt(cfg, good.call.name) && good.answer.Returns?
    requires Validation.SchemaAccepts(Some(ToolSchema(cfg, good.call.name)), ParseArgs(cfg, good.call.arguments))
    requires HeldBack(cfg, bad)
    ensures RunCalls(cfg, store, input, script) == Calls(3, 2, 1)
    ensures ErrorRate(RunSpec(cfg, store, input, script).did.tally) == 2.0
  {
    hide TakeTurnSpec, RunSpec, CallSpec, Validation.SchemaAccepts, ToolSchema, ParseArgs, StartState;
    var state, id := StartState(cfg, store, input, script.loadOk).value, RequestOf(input, script);
    ThreeCalls(cfg, Ctx(id.threadId, id.requestId, state.iteration + 1), store, good, bad);
    var turn := TakeTurnSpec(cfg, id, state, store, script.replies[0]);
    assert script.replies[1..] == [];
    assert LoopCalls(cfg, id, turn.state, turn.store, []) == Calls(0, 0, 0);
    RunCounts(cfg, store, input, script);
  }

  lemma {:induction false} ThreeCalls(cfg: Config, ctx: Ctx, store: Store, good: Step, bad: Step)
    requires Succeeds(cfg, store, good) && HeldBack(cfg, bad)
    ensures
      var steps := [good, bad, bad];
      |Registered(cfg, steps)| == 3 && HeldBackOf(cfg, steps) == 2 && Successes(cfg, ctx, store, steps) == 1
  {
    hide CallSpec, OutcomeOf, ShouldInterrupt;
    var steps := [good, bad, bad];
    assert steps[1..] == [bad, bad] && [bad, bad][1..] == [bad] && [bad][1..] == [];
    var second := CallSpec(cfg, ctx, store, good).store;
    var third := CallSpec(cfg, ctx, second, bad).store;
    assert Successes(cfg, ctx, third, [bad]) == 0;
    assert Successes(cfg, ctx, second, [bad, bad]) == 0;
    assert HeldBackOf(cfg, [bad]) == 1 && |Registered(cfg, [bad])| == 1;
    assert HeldBackOf(cfg, [bad, bad]) == 2 && |Registered(cfg, [bad, bad])| == 2;
  }
}
