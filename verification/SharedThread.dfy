/** All sub-agents of all runs work on the thread with the empty ID (agent/subagent.go): they share one
    checkpoint, and with it one history and one budget. */
module SharedThread {
  import opened Values
  import opened ToolMessages
  import opened Graphs
  import opened Lifetime
  import opened Nesting
  import opened Traces
  import Stores
  import Validation

  /** A call that gets through to its sub-agent. */
  predicate Starts(cfg: Config, step: Step) {
    && Accepts(cfg, step) && (ShouldInterrupt(cfg, step.call.name) ==> step.approval.Granted?)
    && step.answer.Spawns? && Description(cfg, step) != ""
  }

  function Description(cfg: Config, step: Step): string {
    DescriptionOf(ParseArgs(cfg, step.call.arguments))
  }

  function SubRun(cfg: Config, store: Store, step: Step): RunResult
    requires step.answer.Spawns?
  {
    RunSpec(SubConfig(cfg, Description(cfg, step)), store, SubInput(Description(cfg, step)), step.answer.sub)
  }

  /** The answered model calls of the sub-agent that a call starts. */
  function SubAnswers(cfg: Config, store: Store, step: Step): int {
    if Starts(cfg, step) then Answered(SubRun(cfg, store, step)) else 0
  }

  /** If the call starts a sub-agent, the checkpoints of this can be read and written. Sub-agents of its own
      may meet with anything. */
  predicate Durable(step: Step) {
    step.answer.Spawns? ==> step.answer.sub.loadOk && SavesSucceed(step.answer.sub.replies)
  }

  predicate AllDurable(replies: seq<Reply>) {
    forall r | r in replies && r.Reply? :: forall step | step in r.steps :: Durable(step)
  }

  /** The iteration that the sub-agents have come to. */
  function Used(cfg: Config, store: Store): int {
    IterationOf(Persisted(cfg, store, ""))
  }

  /** No checkpoint has a negative iteration or one beyond the budget. */
  ghost predicate WithinBounds(store: Store) {
    forall path | path in store :: 0 <= store[path].iteration <= MAX_ITERATIONS
  }

  /* ---------- The budget ---------- */

  lemma {:induction false} CallStore(cfg: Config, ctx: Ctx, store: Store, step: Step)
    ensures CallSpec(cfg, ctx, store, step).store == if Starts(cfg, step) then SubRun(cfg, store, step).store else store
  {
    hide RunSpec, ParseArgs, Validation.SchemaAccepts, ToolSchema, MakeCallSpec, ExecutedResult;
    MadeStore(cfg, store, step, ParseArgs(cfg, step.call.arguments));
    if step.call.name in cfg.tools {
      var executed := ExecuteSpec(cfg, ctx, store, step);
      assert CallSpec(cfg, ctx, store, step).store ==
        if ShouldInterrupt(cfg, step.call.name) && step.approval.Denied? then store else executed.store;
    }
  }

  lemma {:induction false} MadeStore(cfg: Config, store: Store, step: Step, args: Option<Object>)
    ensures MakeCallSpec(cfg, store, step, args).store ==
      if step.answer.Spawns? && DescriptionOf(args) != ""
      then RunSpec(SubConfig(cfg, DescriptionOf(args)), store, SubInput(DescriptionOf(args)), step.answer.sub).store
      else store
  {
    hide RunSpec;
  }

  lemma {:induction false} SubRunStore(cfg: Config, store: Store, input: Input, script: Script)
    requires Sane(store) && input.threadId == ""
    ensures
      var r := RunSpec(cfg, store, input, script);
      r.store == Disk(cfg.dir, store, r.did.actions) && Sane(r.store)
  {
    hide RunSpec;
    var scope := Scope({""}, false, None);
    AnyScriptAdmitted(scope, script);
    RunLawful(cfg, scope, store, input, script);
  }

  lemma {:induction false} OwnSave(cfg: Config, store: Store, state: State)
    ensures
      var (store', ok) := SaveSpec(cfg, store, "", state, true);
      ok && Used(cfg, store') == state.iteration
  {
    Stores.ValidComponentMeaning("");
  }

  lemma {:induction false} OwnTurn(cfg: Config, id: Request, state: State, store: Store, reply: Reply)
    requires reply.Reply? && reply.saveOk && id.threadId == ""
    ensures
      var taken := TakeTurnSpec(cfg, id, state, store, reply);
      taken.state.iteration == state.iteration + 1 && Used(cfg, taken.store) == taken.state.iteration
  {
    hide TurnSpec, Used, SaveSpec, Messages;
    var turn := TurnSpec(cfg, Ctx("", id.requestId, state.iteration + 1), store, reply.steps);
    OwnSave(cfg, turn.store, AfterTurn(cfg, state, reply.content, turn.results));
  }

  /** Whatever sub-agents of its own have written meanwhile, a loop on the shared thread ends with a checkpoint
      that counts its own answers. */
  lemma {:induction false} OwnLoop(cfg: Config, id: Request, shown: int, state: State, store: Store,
          replies: seq<Reply>)
    requires id.threadId == "" && SavesSucceed(replies) && Used(cfg, store) == state.iteration
    ensures
      var r := LoopSpec(cfg, id, shown, state, store, replies);
      Used(cfg, r.store) == state.iteration + Answered(r)
    decreases replies
  {
    hide Used, TakeTurnSpec, SaveSpec, SavesSucceed;
    if state.iteration < MAX_ITERATIONS && replies != [] && replies[0].Reply? {
      SavesOfRest(replies);
      if IsAnswer(replies[0]) {
        OwnSave(cfg, store, AfterAnswer(state, replies[0].content));
      } else {
        var taken := TakeTurnSpec(cfg, id, state, store, replies[0]);
        OwnTurn(cfg, id, state, store, replies[0]);
        TurnIsOneCall(cfg, id, state, store, replies[0]);
        OwnLoop(cfg, id, taken.state.iteration, taken.state, taken.store, replies[1..]);
      }
    }
  }

  /** A sub-agent uses up what it is answered itself, however deep the sub-agents below it go. */
  lemma {:induction false} SubRunUses(cfg: Config, store: Store, description: string, sub: Script)
    requires Sane(store) && sub.loadOk && SavesSucceed(sub.replies)
    ensures
      var r := RunSpec(cfg, store, SubInput(description), sub);
      Used(cfg, r.store) == Used(cfg, store) + Answered(r) && Sane(r.store)
  {
    hide LoopSpec, Disk;
    var input := SubInput(description);
    Stores.ValidComponentMeaning("");
    SubRunStore(cfg, store, input, sub);
    StartIsStarted(cfg, store, input, true);
    StartedIteration(cfg, store, input);
    OwnLoop(cfg, RequestOf(input, sub), 0, Started(cfg, store, input), store, sub.replies);
  }

  lemma {:induction false} SameCheckpoints(cfg: Config, description: string, store: Store)
    ensures Used(SubConfig(cfg, description), store) == Used(cfg, store)
  {
  }

  lemma {:induction false} CallUses(cfg: Config, ctx: Ctx, store: Store, step: Step)
    requires Sane(store) && Durable(step)
    ensures
      var store' := CallSpec(cfg, ctx, store, step).store;
      Used(cfg, store') == Used(cfg, store) + SubAnswers(cfg, store, step) && Sane(store')
  {
    hide RunSpec, CallSpec, Used, Accepts, ParseArgs;
    CallStore(cfg, ctx, store, step);
    if Starts(cfg, step) {
      var sub := SubConfig(cfg, Description(cfg, step));
      SubRunUses(sub, store, Description(cfg, step), step.answer.sub);
      SameCheckpoints(cfg, Description(cfg, step), store);
      SameCheckpoints(cfg, Description(cfg, step), SubRun(cfg, store, step).store);
    }
  }

  function TurnSubAnswers(cfg: Config, ctx: Ctx, store: Store, steps: seq<Step>): int
    decreases steps
  {
    if steps == [] then 0
    else
      var store' := CallSpec(cfg, ctx, store, steps[0]).store;
      SubAnswers(cfg, store, steps[0]) + TurnSubAnswers(cfg, ctx, store', steps[1..])
  }

  lemma {:induction false} TurnUses(cfg: Config, ctx: Ctx, store: Store, steps: seq<Step>)
    requires Sane(store) && forall step | step in steps :: Durable(step)
    ensures
      var store' := TurnSpec(cfg, ctx, store, steps).store;
      Used(cfg, store') == Used(cfg, store) + TurnSubAnswers(cfg, ctx, store, steps) && Sane(store')
    decreases steps
  {
    hide CallSpec, Used, SubAnswers, Durable;
    if steps != [] {
      assert steps[0] in steps && forall x | x in steps[1..] :: x in steps;
      CallUses(cfg, ctx, store, steps[0]);
      TurnUses(cfg, ctx, CallSpec(cfg, ctx, store, steps[0]).store, steps[1..]);
    }
  }

  function LoopSubAnswers(cfg: Config, id: Request, state: State, store: Store, replies: seq<Reply>): int
    decreases replies
  {
    if state.iteration >= MAX_ITERATIONS || replies == [] || replies[0].ModelFails? || IsAnswer(replies[0]) then 0
    else
      var turn := TakeTurnSpec(cfg, id, state, store, replies[0]);
      TurnSubAnswers(cfg, Ctx(id.threadId, id.requestId, state.iteration + 1), store, replies[0].steps)
      + LoopSubAnswers(cfg, id, turn.state, turn.store, replies[1..])
  }

  lemma {:induction false} SaveUsesNothing(cfg: Config, store: Store, threadId: string, state: State, io: bool)
    requires cfg.dir != "" && Sane(store) && threadId != "" && state.iteration >= 0
    ensures
      var store' := SaveSpec(cfg, store, threadId, state, io).0;
      Used(cfg, store') == Used(cfg, store) && Sane(store')
  {
    hide Persisted, Stores.FileOf, Stores.ValidComponent;
    Stores.ValidComponentMeaning("");
    if SaveSpec(cfg, store, threadId, state, io).1 {
      PersistedWrite(cfg, store, threadId, state, "");
    }
  }

  lemma {:induction false} LoopUses(cfg: Config, id: Request, shown: int, state: State, store: Store,
          replies: seq<Reply>)
    requires cfg.dir != "" && Sane(store) && AllDurable(replies) && id.threadId != "" && state.iteration >= 0
    ensures
      var store' := LoopSpec(cfg, id, shown, state, store, replies).store;
      Used(cfg, store') == Used(cfg, store) + LoopSubAnswers(cfg, id, state, store, replies) && Sane(store')
    decreases replies
  {
    hide TurnSpec, Used, Durable, SaveSpec, TurnSubAnswers;
    if state.iteration < MAX_ITERATIONS && replies != [] && replies[0].Reply? {
      var reply := replies[0];
      if IsAnswer(reply) {
        SaveUsesNothing(cfg, store, id.threadId, AfterAnswer(state, reply.content), reply.saveOk);
      } else {
        var ctx := Ctx(id.threadId, id.requestId, state.iteration + 1);
        var turn, taken := TurnSpec(cfg, ctx, store, reply.steps), TakeTurnSpec(cfg, id, state, store, reply);
        assert reply in replies && forall x | x in replies[1..] :: x in replies;
        TurnUses(cfg, ctx, store, reply.steps);
        SaveUsesNothing(cfg, turn.store, id.threadId, taken.state, reply.saveOk);
        LoopUses(cfg, id, taken.state.iteration, taken.state, taken.store, replies[1..]);
      }
    }
  }

  /** The answered model calls of the sub-agents that a run starts itself. */
  function RunSubAnswers(cfg: Config, store: Store, input: Input, script: Script): int {
    match StartState(cfg, store, input, script.loadOk)
    case None => 0
    case Some(state) => LoopSubAnswers(cfg, RequestOf(input, script), state, store, script.replies)
  }

  lemma {:induction false} RunUses(cfg: Config, store: Store, input: Input, script: Script)
    requires cfg.dir != "" && Sane(store) && AllDurable(script.replies) && input.threadId != ""
    ensures
      var store' := RunSpec(cfg, store, input, script).store;
      Used(cfg, store') == Used(cfg, store) + RunSubAnswers(cfg, store, input, script) && Sane(store')
  {
    hide LoopSpec, LoopSubAnswers, Used, AllDurable;
    StartIsStarted(cfg, store, input, script.loadOk);
    match StartState(cfg, store, input, script.loadOk)
    case None =>
    case Some(state) => LoopUses(cfg, RequestOf(input, script), 0, state, store, script.replies);
  }

  datatype Job = Job(input: Input, script: Script)

  /** Runs one after the other, on any threads. */
  function AfterJobs(cfg: Config, store: Store, jobs: seq<Job>): Store {
    if jobs == [] then store
    else RunSpec(cfg, AfterJobs(cfg, store, jobs[..|jobs| - 1]), jobs[|jobs| - 1].input, jobs[|jobs| - 1].script).store
  }

  function AllSubAnswers(cfg: Config, store: Store, jobs: seq<Job>): int {
    if jobs == [] then 0
    else
      var before, job := jobs[..|jobs| - 1], jobs[|jobs| - 1];
      AllSubAnswers(cfg, store, before) + RunSubAnswers(cfg, AfterJobs(cfg, store, before), job.input, job.script)
  }

  lemma {:induction false} DiskWithinBounds(dir: string, store: Store, actions: seq<Action>)
    requires WithinBounds(store) && forall a | a in actions && a.Saved? :: 0 <= a.state.iteration <= MAX_ITERATIONS
    ensures WithinBounds(Disk(dir, store, actions))
    decreases |actions|
  {
    if actions != [] {
      assert actions[|actions| - 1] in actions;
      DiskWithinBounds(dir, store, actions[..|actions| - 1]);
    }
  }

  lemma {:induction false} RunKeepsBounds(cfg: Config, store: Store, input: Input, script: Script)
    requires WithinBounds(store)
    ensures WithinBounds(RunSpec(cfg, store, input, script).store)
  {
    hide RunSpec, Disk;
    var scope := Scope({input.threadId, ""}, false, None);
    assert Sane(store);
    AnyScriptAdmitted(scope, script);
    RunLawful(cfg, scope, store, input, script);
    var actions := RunSpec(cfg, store, input, script).did.actions;
    forall a | a in actions && a.Saved? ensures 0 <= a.state.iteration <= MAX_ITERATIONS {
      assert SavesIn(scope, a);
    }
    DiskWithinBounds(cfg.dir, store, actions);
  }

  lemma {:induction false} UsedWithinBounds(cfg: Config, store: Store)
    requires WithinBounds(store)
    ensures 0 <= Used(cfg, store) <= MAX_ITERATIONS && Sane(store)
  {
  }

  /** Over any runs on any named threads: the sub-agents that they start get together as many answers from the
      model as the shared checkpoint counts, never more than twenty in all. What sub-agents of theirs get is
      not counted. */
  lemma {:induction false} SubAgentsShareBudget(cfg: Config, store: Store, jobs: seq<Job>)
    requires cfg.dir != "" && WithinBounds(store)
    requires forall job | job in jobs :: job.input.threadId != "" && AllDurable(job.script.replies)
    ensures
      var store' := AfterJobs(cfg, store, jobs);
      && Used(cfg, store') == Used(cfg, store) + AllSubAnswers(cfg, store, jobs) <= 20
      && WithinBounds(store')
    decreases |jobs|
  {
    hide RunSpec, Used, RunSubAnswers, WithinBounds, AllDurable;
    UsedWithinBounds(cfg, store);
    if jobs != [] {
      var n := |jobs| - 1;
      var before := AfterJobs(cfg, store, jobs[..n]);
      assert jobs[n] in jobs && forall x | x in jobs[..n] :: x in jobs;
      SubAgentsShareBudget(cfg, store, jobs[..n]);
      UsedWithinBounds(cfg, before);
      RunUses(cfg, before, jobs[n].input, jobs[n].script);
      RunKeepsBounds(cfg, before, jobs[n].input, jobs[n].script);
      UsedWithinBounds(cfg, AfterJobs(cfg, store, jobs));
    }
  }

  /** Once the shared budget is used up, every call that starts a sub-agent fails, without a question to the
      model, and says that it has reached the maximum of iterations. */
  lemma {:induction false} SpentSubAgentsFail(cfg: Config, ctx: Ctx, store: Store, step: Step)
    requires Starts(cfg, step) && step.answer.sub.loadOk && Used(cfg, store) >= 20
    ensures SubAnswers(cfg, store, step) == 0 && SubRun(cfg, store, step).did.tally.modelCalls == 0
    ensures
      var requestId := NewRequestId("", step.answer.sub.stamp);
      var code := "max_iterations_reached";
      var error := "max iterations reached" + " (code=" + code + " thread=" + "" + " request=" + requestId + ")";
      CallSpec(cfg, ctx, store, step).results ==
        [ToolResult(step.call.name, step.call.id, false, NoData, error, "tool_execution_error")]
  {
    hide RunSpec, CallSpec, Persisted, ParseArgs, Validation.SchemaAccepts, ToolSchema, NewRequestId;
    var sub, task := SubConfig(cfg, Description(cfg, step)), SubInput(Description(cfg, step));
    SameCheckpoint(cfg, Description(cfg, step), store);
    SpentThreadIsRefused(sub, store, task, step.answer.sub);
    NoErrorsWithoutCalls(sub, store, task, step.answer.sub);
    CallResultList(cfg, ctx, store, step);
  }

  lemma {:induction false} SameCheckpoint(cfg: Config, description: string, store: Store)
    ensures Persisted(SubConfig(cfg, description), store, "") == Persisted(cfg, store, "")
  {
  }

  lemma {:induction false} NoErrorsWithoutCalls(cfg: Config, store: Store, input: Input, script: Script)
    ensures
      var t := RunSpec(cfg, store, input, script).did.tally;
      t.modelErrors <= t.modelCalls && (t.modelCalls == 0 ==> t.modelErrors == 0)
  {
    hide RunSpec;
    SummaryMatchesEvents(cfg, store, input, script);
    FailedCallsAreCalls(RunSpec(cfg, store, input, script).did.events);
  }

  lemma {:induction false} FailedCallsAreCalls(events: seq<Event>)
    ensures Count(FailedModelCall, events) <= Count(AnyModelCall, events)
  {
    if events != [] {
      FailedCallsAreCalls(events[..|events| - 1]);
    }
  }

  /* ---------- Sub-agents of sub-agents ---------- */

  /** The answered model calls of the sub-agent that a call starts, and of all sub-agents below it. */
  function CallTotal(cfg: Config, store: Store, step: Step): int
    decreases step, 0
  {
    if !Starts(cfg, step) then 0
    else
      var sub, task := SubConfig(cfg, Description(cfg, step)), SubInput(Description(cfg, step));
      SubAnswers(cfg, store, step) + RunTotal(sub, store, task, step.answer.sub)
  }

  /** The answered model calls of all sub-agents of a run, at any depth. */
  function RunTotal(cfg: Config, store: Store, input: Input, script: Script): int
    decreases script
  {
    match StartState(cfg, store, input, script.loadOk)
    case None => 0
    case Some(state) => LoopTotal(cfg, RequestOf(input, script), state, store, script.replies)
  }

  function LoopTotal(cfg: Config, id: Request, state: State, store: Store, replies: seq<Reply>): int
    decreases replies
  {
    if state.iteration >= MAX_ITERATIONS || replies == [] || replies[0].ModelFails? || IsAnswer(replies[0]) then 0
    else
      var turn := TakeTurnSpec(cfg, id, state, store, replies[0]);
      TurnTotal(cfg, Ctx(id.threadId, id.requestId, state.iteration + 1), store, replies[0].steps)
      + LoopTotal(cfg, id, turn.state, turn.store, replies[1..])
  }

  function TurnTotal(cfg: Config, ctx: Ctx, store: Store, steps: seq<Step>): int
    decreases steps
  {
    if steps == [] then 0
    else CallTotal(cfg, store, steps[0]) + TurnTotal(cfg, ctx, CallSpec(cfg, ctx, store, steps[0]).store, steps[1..])
  }

  lemma {:induction false} AnswersNotNegative(cfg: Config, store: Store, step: Step)
    ensures SubAnswers(cfg, store, step) >= 0
  {
    hide RunSpec, Starts;
    if Starts(cfg, step) {
      StartsSpawns(cfg, step);
      var sub, task := SubConfig(cfg, Description(cfg, step)), SubInput(Description(cfg, step));
      NoErrorsWithoutCalls(sub, store, task, step.answer.sub);
    }
  }

  lemma {:induction false} StartsSpawns(cfg: Config, step: Step)
    requires Starts(cfg, step)
    ensures step.answer.Spawns?
  {
  }

  lemma {:induction false} CallTotalNotNegative(cfg: Config, store: Store, step: Step)
    ensures CallTotal(cfg, store, step) >= SubAnswers(cfg, store, step) >= 0
    decreases step, 0
  {
    hide RunSpec, Accepts, SubAnswers;
    AnswersNotNegative(cfg, store, step);
    if Starts(cfg, step) {
      var sub, task := SubConfig(cfg, Description(cfg, step)), SubInput(Description(cfg, step));
      RunTotalNotNegative(sub, store, task, step.answer.sub);
    } else {
      NoAnswers(cfg, store, step);
    }
  }

  lemma {:induction false} NoAnswers(cfg: Config, store: Store, step: Step)
    requires !Starts(cfg, step)
    ensures SubAnswers(cfg, store, step) == 0
  {
  }

  lemma {:induction false} RunTotalNotNegative(cfg: Config, store: Store, input: Input, script: Script)
    ensures RunTotal(cfg, store, input, script) >= RunSubAnswers(cfg, store, input, script) >= 0
    decreases script
  {
    hide LoopSubAnswers, LoopTotal;
    match StartState(cfg, store, input, script.loadOk)
    case None =>
    case Some(state) => LoopTotalNotNegative(cfg, RequestOf(input, script), state, store, script.replies);
  }

  lemma {:induction false} LoopTotalNotNegative(cfg: Config, id: Request, state: State, store: Store,
          replies: seq<Reply>)
    ensures LoopTotal(cfg, id, state, store, replies) >= LoopSubAnswers(cfg, id, state, store, replies) >= 0
    decreases replies
  {
    hide TakeTurnSpec, TurnTotal, TurnSubAnswers;
    if state.iteration < MAX_ITERATIONS && replies != [] && replies[0].Reply? && !IsAnswer(replies[0]) {
      var turn := TakeTurnSpec(cfg, id, state, store, replies[0]);
      TurnTotalNotNegative(cfg, Ctx(id.threadId, id.requestId, state.iteration + 1), store, replies[0].steps);
      LoopTotalNotNegative(cfg, id, turn.state, turn.store, replies[1..]);
    }
  }

  lemma {:induction false} TurnTotalNotNegative(cfg: Config, ctx: Ctx, store: Store, steps: seq<Step>)
    ensures TurnTotal(cfg, ctx, store, steps) >= TurnSubAnswers(cfg, ctx, store, steps) >= 0
    decreases steps
  {
    hide CallSpec, CallTotal, SubAnswers;
    if steps != [] {
      CallTotalNotNegative(cfg, store, steps[0]);
      TurnTotalNotNegative(cfg, ctx, CallSpec(cfg, ctx, store, steps[0]).store, steps[1..]);
    }
  }

  /** The answered model calls of all sub-agents of some runs, at any depth. */
  function AllTotal(cfg: Config, store: Store, jobs: seq<Job>): int {
    if jobs == [] then 0
    else
      var before, job := jobs[..|jobs| - 1], jobs[|jobs| - 1];
      AllTotal(cfg, store, before) + RunTotal(cfg, AfterJobs(cfg, store, before), job.input, job.script)
  }

  /** No sub-agent of a sub-agent of a run gets an answer. */
  predicate NothingNested(cfg: Config, store: Store, input: Input, script: Script) {
    match StartState(cfg, store, input, script.loadOk)
    case None => true
    case Some(state) => LoopNothingNested(cfg, RequestOf(input, script), state, store, script.replies)
  }

  predicate LoopNothingNested(cfg: Config, id: Request, state: State, store: Store, replies: seq<Reply>)
    decreases replies
  {
    state.iteration >= MAX_ITERATIONS || replies == [] || replies[0].ModelFails? || IsAnswer(replies[0]) ||
    (var turn := TakeTurnSpec(cfg, id, state, store, replies[0]);
     && TurnNothingNested(cfg, Ctx(id.threadId, id.requestId, state.iteration + 1), store, replies[0].steps)
     && LoopNothingNested(cfg, id, turn.state, turn.store, replies[1..]))
  }

  predicate TurnNothingNested(cfg: Config, ctx: Ctx, store: Store, steps: seq<Step>)
    decreases steps
  {
    steps == [] ||
    (&& (Starts(cfg, steps[0]) ==> NestedTotal(cfg, store, steps[0]) == 0)
     && TurnNothingNested(cfg, ctx, CallSpec(cfg, ctx, store, steps[0]).store, steps[1..]))
  }

  /** What the sub-agents below the one that a call starts are answered. */
  function NestedTotal(cfg: Config, store: Store, step: Step): int
    requires step.answer.Spawns?
  {
    RunTotal(SubConfig(cfg, Description(cfg, step)), store, SubInput(Description(cfg, step)), step.answer.sub)
  }

  predicate AllNothingNested(cfg: Config, store: Store, jobs: seq<Job>) {
    jobs == [] ||
    (var before, job := jobs[..|jobs| - 1], jobs[|jobs| - 1];
     AllNothingNested(cfg, store, before)
     && NothingNested(cfg, AfterJobs(cfg, store, before), job.input, job.script))
  }

  lemma {:induction false} CallNested(cfg: Config, store: Store, step: Step)
    ensures
      var total, own := CallTotal(cfg, store, step), SubAnswers(cfg, store, step);
      && total >= own >= 0
      && (total == own <==> (Starts(cfg, step) ==> NestedTotal(cfg, store, step) == 0))
  {
    hide RunSpec, Accepts, SubAnswers, RunTotal;
    CallTotalNotNegative(cfg, store, step);
    if !Starts(cfg, step) {
      NoAnswers(cfg, store, step);
    }
  }

  lemma {:induction false} TurnNested(cfg: Config, ctx: Ctx, store: Store, steps: seq<Step>)
    ensures TurnTotal(cfg, ctx, store, steps) == TurnSubAnswers(cfg, ctx, store, steps)
            <==> TurnNothingNested(cfg, ctx, store, steps)
    decreases steps
  {
    hide CallSpec, CallTotal, SubAnswers, NestedTotal;
    if steps != [] {
      var store' := CallSpec(cfg, ctx, store, steps[0]).store;
      CallNested(cfg, store, steps[0]);
      TurnTotalNotNegative(cfg, ctx, store', steps[1..]);
      TurnNested(cfg, ctx, store', steps[1..]);
    }
  }

  lemma {:induction false} LoopNested(cfg: Config, id: Request, state: State, store: Store, replies: seq<Reply>)
    ensures LoopTotal(cfg, id, state, store, replies) == LoopSubAnswers(cfg, id, state, store, replies)
            <==> LoopNothingNested(cfg, id, state, store, replies)
    decreases replies
  {
    hide TakeTurnSpec, TurnTotal, TurnSubAnswers, TurnNothingNested;
    if state.iteration < MAX_ITERATIONS && replies != [] && replies[0].Reply? && !IsAnswer(replies[0]) {
      var turn := TakeTurnSpec(cfg, id, state, store, replies[0]);
      var ctx := Ctx(id.threadId, id.requestId, state.iteration + 1);
      TurnNested(cfg, ctx, store, replies[0].steps);
      TurnTotalNotNegative(cfg, ctx, store, replies[0].steps);
      LoopTotalNotNegative(cfg, id, turn.state, turn.store, replies[1..]);
      LoopNested(cfg, id, turn.state, turn.store, replies[1..]);
    }
  }

  lemma {:induction false} RunNested(cfg: Config, store: Store, input: Input, script: Script)
    ensures RunTotal(cfg, store, input, script) == RunSubAnswers(cfg, store, input, script)
            <==> NothingNested(cfg, store, input, script)
  {
    hide LoopTotal, LoopSubAnswers, LoopNothingNested;
    match StartState(cfg, store, input, script.loadOk)
    case None =>
    case Some(state) => LoopNested(cfg, RequestOf(input, script), state, store, script.replies);
  }

  lemma {:induction false} AllNested(cfg: Config, store: Store, jobs: seq<Job>)
    ensures AllTotal(cfg, store, jobs) >= AllSubAnswers(cfg, store, jobs) >= 0
    ensures AllTotal(cfg, store, jobs) == AllSubAnswers(cfg, store, jobs) <==> AllNothingNested(cfg, store, jobs)
    decreases |jobs|
  {
    hide RunSpec, RunTotal, RunSubAnswers, NothingNested;
    if jobs != [] {
      var n := |jobs| - 1;
      var before := AfterJobs(cfg, store, jobs[..n]);
      AllNested(cfg, store, jobs[..n]);
      RunTotalNotNegative(cfg, before, jobs[n].input, jobs[n].script);
      RunNested(cfg, before, jobs[n].input, jobs[n].script);
    }
  }

  /** All sub-agents of any runs on named threads, at any depth, get at least as many answers as the shared
      checkpoint gains; they get exactly as many if and only if no sub-agent of a sub-agent gets any. */
  lemma {:induction false} TotalAgainstCheckpoint(cfg: Config, store: Store, jobs: seq<Job>)
    requires cfg.dir != "" && WithinBounds(store)
    requires forall job | job in jobs :: job.input.threadId != "" && AllDurable(job.script.replies)
    ensures
      var gain := Used(cfg, AfterJobs(cfg, store, jobs)) - Used(cfg, store);
      && AllTotal(cfg, store, jobs) >= gain >= 0
      && (AllTotal(cfg, store, jobs) == gain <==> AllNothingNested(cfg, store, jobs))
  {
    hide AfterJobs, Used, AllTotal, AllSubAnswers, AllNothingNested;
    SubAgentsShareBudget(cfg, store, jobs);
    AllNested(cfg, store, jobs);
  }

  /** A call that gets another script for its sub-agent. */
  function With(step: Step, script: Script): Step
    requires step.answer.Spawns?
  {
    step.(answer := Spawns(script, step.answer.merge))
  }

  /** A model that neither says nor calls anything. */
  function Silence(n: nat): Script {
    Script(0, true, seq(n, _ => Reply("", [], true)))
  }

  lemma {:induction false} SilentLoop(cfg: Config, id: Request, shown: int, state: State, store: Store,
          replies: seq<Reply>)
    requires forall r | r in replies :: r == Reply("", [], true)
    requires state.iteration + |replies| <= MAX_ITERATIONS
    ensures Answered(LoopSpec(cfg, id, shown, state, store, replies)) == |replies|
    ensures LoopTotal(cfg, id, state, store, replies) == 0
    decreases replies
  {
    hide TurnSpec, SaveSpec;
    if replies != [] {
      assert replies[0] in replies && forall r | r in replies[1..] :: r in replies;
      var taken := TakeTurnSpec(cfg, id, state, store, replies[0]);
      TurnIsOneCall(cfg, id, state, store, replies[0]);
      SilentLoop(cfg, id, taken.state.iteration, taken.state, taken.store, replies[1..]);
    }
  }

  lemma {:induction false} OneStepTurn(cfg: Config, ctx: Ctx, store: Store, step: Step)
    ensures TurnTotal(cfg, ctx, store, [step]) == CallTotal(cfg, store, step)
    ensures TurnSubAnswers(cfg, ctx, store, [step]) == SubAnswers(cfg, store, step)
  {
    hide CallTotal, SubAnswers, CallSpec;
    assert [step][1..] == [];
  }

  lemma {:induction false} OneStepLoop(cfg: Config, id: Request, shown: int, state: State, store: Store, step: Step)
    requires state.iteration < MAX_ITERATIONS
    ensures
      var replies := OneStep(step).replies;
      && Answered(LoopSpec(cfg, id, shown, state, store, replies)) == 1
      && LoopTotal(cfg, id, state, store, replies) == CallTotal(cfg, store, step)
      && LoopSubAnswers(cfg, id, state, store, replies) == SubAnswers(cfg, store, step)
  {
    hide CallTotal, SubAnswers, TurnTotal, TurnSubAnswers, SaveSpec, TakeTurnSpec;
    var reply := Reply("", [step], true);
    TurnIsOneCall(cfg, id, state, store, reply);
    OneStepTurn(cfg, Ctx(id.threadId, id.requestId, state.iteration + 1), store, step);
    assert [reply][1..] == [];
  }

  lemma {:induction false} FreshRun(cfg: Config, input: Input, script: Script)
    requires Stores.ValidComponent(input.threadId) && script.loadOk
    ensures
      var id, state := RequestOf(input, script), Started(cfg, map[], input);
      && state.iteration == 0
      && Answered(RunSpec(cfg, map[], input, script)) == Answered(LoopSpec(cfg, id, 0, state, map[], script.replies))
      && RunTotal(cfg, map[], input, script) == LoopTotal(cfg, id, state, map[], script.replies)
      && RunSubAnswers(cfg, map[], input, script) == LoopSubAnswers(cfg, id, state, map[], script.replies)
  {
    hide LoopSpec, LoopTotal, LoopSubAnswers;
  }

  lemma {:induction false} OneStepRun(cfg: Config, input: Input, step: Step)
    requires Stores.ValidComponent(input.threadId)
    ensures Answered(RunSpec(cfg, map[], input, OneStep(step))) == 1
    ensures RunTotal(cfg, map[], input, OneStep(step)) == CallTotal(cfg, map[], step)
    ensures RunSubAnswers(cfg, map[], input, OneStep(step)) == SubAnswers(cfg, map[], step)
  {
    hide RunSpec, RunTotal, RunSubAnswers, LoopSpec, LoopTotal, LoopSubAnswers, CallTotal, SubAnswers,
      Stores.ValidComponent;
    var script := OneStep(step);
    FreshRun(cfg, input, script);
    OneStepLoop(cfg, RequestOf(input, script), 0, Started(cfg, map[], input), map[], step);
  }

  lemma {:induction false} SilentRun(cfg: Config, input: Input, n: nat)
    requires Stores.ValidComponent(input.threadId) && n <= MAX_ITERATIONS
    ensures Answered(RunSpec(cfg, map[], input, Silence(n))) == n
    ensures RunTotal(cfg, map[], input, Silence(n)) == 0
  {
    hide RunSpec, RunTotal, RunSubAnswers, LoopSpec, LoopTotal, LoopSubAnswers, Stores.ValidComponent;
    var script := Silence(n);
    FreshRun(cfg, input, script);
    SilentLoop(cfg, RequestOf(input, script), 0, Started(cfg, map[], input), map[], script.replies);
  }

  lemma {:induction false} CallOfFreshRun(cfg: Config, step: Step)
    requires Starts(cfg, step)
    ensures
      var sub, task := SubConfig(cfg, Description(cfg, step)), SubInput(Description(cfg, step));
      && SubAnswers(cfg, map[], step) == Answered(RunSpec(sub, map[], task, step.answer.sub))
      && CallTotal(cfg, map[], step) == SubAnswers(cfg, map[], step) + RunTotal(sub, map[], task, step.answer.sub)
  {
    hide RunSpec, RunTotal, Accepts;
  }

  lemma {:induction false} StartsWith(cfg: Config, description: string, step: Step, script: Script)
    requires Starts(cfg, step)
    ensures Starts(cfg, With(step, script)) && Starts(SubConfig(cfg, description), With(step, script))
  {
    hide Validation.SchemaAccepts;
  }

  /** Wherever sub-agents can be started: one that starts another one, which is answered twenty times, leaves
      a checkpoint that counts one answer of the twenty-one. */
  lemma {:induction false} NestedAnswersAreNotCounted(cfg: Config, step: Step)
    requires cfg.dir != "" && Starts(cfg, step)
    ensures
      var nested := With(step, Silence(20));
      var job := Job(Input([], "t"), OneStep(With(step, OneStep(nested))));
      && AllDurable(job.script.replies)
      && AllTotal(cfg, map[], [job]) == 21
      && Used(cfg, AfterJobs(cfg, map[], [job])) == 1
  {
    hide RunSpec, RunTotal, RunSubAnswers, Starts, SubAnswers, CallTotal, Stores.ValidComponent;
    StartsSpawns(cfg, step);
    var nested := With(step, Silence(20));
    var outer := With(step, OneStep(nested));
    var job := Job(Input([], "t"), OneStep(outer));
    var sub := SubConfig(cfg, Description(cfg, outer));
    Stores.ValidComponentMeaning("t");
    Stores.ValidComponentMeaning("");
    StartsWith(cfg, Description(cfg, outer), step, OneStep(nested));
    StartsWith(cfg, Description(cfg, outer), step, Silence(20));
    OneStepRun(cfg, job.input, outer);
    CallOfFreshRun(cfg, outer);
    OneStepRun(sub, SubInput(Description(cfg, outer)), nested);
    CallOfFreshRun(sub, nested);
    SilentRun(SubConfig(sub, Description(sub, nested)), SubInput(Description(sub, nested)), 20);
    SubAgentsShareBudget(cfg, map[], [job]);
    assert [job][..0] == [];
  }

  /* ---------- The history ---------- */

  lemma {:induction false} PromptsDiffer(cfg: Config, a: string, b: string)
    requires SubConfig(cfg, a).prompt == SubConfig(cfg, b).prompt
    ensures a == b
  {
    var front, back := "You are a focused sub-agent. Task: ", "\n\n" + cfg.skills;
    var p := SubConfig(cfg, a).prompt;
    assert p == front + a + back && p == front + b + back;
    assert |a| == |p| - |front| - |back| == |b|;
    assert a == p[|front|..|front| + |a|] && b == p[|front|..|front| + |b|];
  }

  /** A sub-agent carries on the history of the one that first took a checkpoint, with its system prompt; its
      own prompt is used exactly if there is no checkpoint yet, or it has the same description. */
  lemma {:induction false} SubAgentInheritsHistory(cfg: Config, store: Store, first: string, description: string)
    requires Persisted(cfg, store, "").Some? ==> InOrder(SubConfig(cfg, first), Persisted(cfg, store, ""))
    ensures
      var sub, p := SubConfig(cfg, description), Persisted(cfg, store, "");
      var start := StartState(sub, store, SubInput(description), true);
      && start.Some?
      && start.value.messages == Base(sub, p) + [Message("user", description)]
      && (start.value.messages[0] == Message("system", sub.prompt) <==> p == None || description == first)
  {
    Stores.ValidComponentMeaning("");
    SameCheckpoint(cfg, description, store);
    if SubConfig(cfg, description).prompt == SubConfig(cfg, first).prompt {
      PromptsDiffer(cfg, description, first);
    }
  }
}
