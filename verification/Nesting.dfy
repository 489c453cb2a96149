/** What holds of the actions of a run together with those of all sub-agents below it, at any depth. */
module Nesting {
  import opened Values
  import opened Graphs
  import Audit
  import Stores
  import Validation

  /* ---------- The gate ---------- */

  /** The call made at position i is to a registered tool, with its own arguments, which the schema of the
      tool accepts. If the tool is to interrupt, the approver has just granted this very call, and only
      the log entry of that decision lies in between. */
  predicate Permitted(cfg: Config, actions: seq<Action>, i: nat)
    requires i < |actions| && actions[i].Called?
  {
    var call := actions[i].call;
    && call.name in cfg.tools
    && ArgumentsOf(cfg, call.arguments, actions[i].args)
    && Validation.SchemaAccepts(Some(ToolSchema(cfg, call.name)), actions[i].args)
    && (call.name in cfg.interrupts && cfg.interrupts[call.name] ==>
          && i >= 2 && actions[i - 1].Logged?
          && actions[i - 2].Asked? && actions[i - 2].call == call && actions[i - 2].approval.Granted?)
  }

  /** A tool gets the object that its arguments are the text of, and nothing if they are the text of anything else. */
  predicate ArgumentsOf(cfg: Config, text: string, args: Option<Object>) {
    match args
    case Some(o) => text != "" && cfg.json.parse(text) == Some(Map(o))
    case None => text == "" || cfg.json.parse(text) == None || !cfg.json.parse(text).value.Map?
  }

  /** The question at position j: the log has the request for this call right before it, and right behind
      it the decision as the approver gave it. */
  predicate Recorded(cfg: Config, actions: seq<Action>, j: nat)
    requires j < |actions| && actions[j].Asked?
  {
    var ctx, call, approval := actions[j].ctx, actions[j].call, actions[j].approval;
    && 0 < j < |actions| - 1 && actions[j - 1].Logged? && actions[j + 1].Logged?
    && RequestRecord(cfg, actions[j - 1].entry, ctx, call)
    && DecisionRecord(actions[j + 1].entry, ctx, call, approval)
  }

  /** The request names the call, and has the hash of its arguments; these themselves only if they are to be logged,
      decoded if they are JSON. */
  predicate RequestRecord(cfg: Config, e: Audit.Entry, ctx: Ctx, call: ToolCall) {
    && e.event == "hitl_request" && OfCall(e, ctx, call)
    && e.argsHash == cfg.hashText(call.arguments)
    && e.arguments == (if !cfg.includeArgs then Nil
                       else
                         match cfg.json.parse(call.arguments)
                         case Some(v) => v
                         case None => Str(call.arguments))
    && e.decision == "" && !e.approved && e.error == ""
  }

  predicate DecisionRecord(e: Audit.Entry, ctx: Ctx, call: ToolCall, approval: Approval) {
    && e.event == "hitl_decision" && OfCall(e, ctx, call)
    && e.decision == approval.decision && (e.approved <==> approval.Granted?)
    && e.error == (if approval.Denied? then approval.error else "")
    && e.arguments == Nil && e.argsHash == ""
  }

  predicate OfCall(e: Audit.Entry, ctx: Ctx, call: ToolCall) {
    e.tool == call.name && e.toolCallId == call.id && Ctx(e.threadId, e.requestId, e.iteration) == ctx
  }

  ghost predicate Gated(cfg: Config, actions: seq<Action>) {
    && (forall i | 0 <= i < |actions| && actions[i].Called? :: Permitted(cfg, actions, i))
    && (forall j | 0 <= j < |actions| && actions[j].Asked? :: Recorded(cfg, actions, j))
  }

  lemma {:induction false} GatedConcat(cfg: Config, a: seq<Action>, b: seq<Action>)
    requires Gated(cfg, a) && Gated(cfg, b)
    ensures Gated(cfg, a + b)
  {
    hide RequestRecord, DecisionRecord, ArgumentsOf, Validation.SchemaAccepts, ToolSchema;
    var c := a + b;
    forall i | 0 <= i < |c| && c[i].Called? ensures Permitted(cfg, c, i) {
      if i < |a| {
        assert Permitted(cfg, a, i);
        assert i >= 2 ==> c[i - 1] == a[i - 1] && c[i - 2] == a[i - 2];
      } else {
        var j := i - |a|;
        assert Permitted(cfg, b, j);
        assert j >= 2 ==> c[i - 1] == b[j - 1] && c[i - 2] == b[j - 2];
      }
    }
    forall j | 0 <= j < |c| && c[j].Asked? ensures Recorded(cfg, c, j) {
      if j < |a| {
        assert Recorded(cfg, a, j);
      } else {
        assert Recorded(cfg, b, j - |a|);
        assert c[j - 1] == b[j - |a| - 1] && c[j + 1] == b[j - |a| + 1];
      }
    }
  }

  /* ---------- Log calls ---------- */

  /** A request and the decision on it. */
  predicate Matching(a: Audit.Entry, b: Audit.Entry) {
    && a.event == "hitl_request" && b.event == "hitl_decision"
    && b.tool == a.tool && b.toolCallId == a.toolCallId
    && b.threadId == a.threadId && b.requestId == a.requestId
    && b.iteration == a.iteration
  }

  predicate Pair(a: Audit.Op, b: Audit.Op) {
    a.Log? && b.Log? && Matching(a.entry, b.entry)
  }

  /** Requests and decisions alternate, every decision right behind its request. */
  predicate Paired(ops: seq<Audit.Op>) {
    ops == [] || (|ops| >= 2 && Paired(ops[..|ops| - 2]) && Pair(ops[|ops| - 2], ops[|ops| - 1]))
  }

  lemma {:induction false} PairedConcat(a: seq<Audit.Op>, b: seq<Audit.Op>)
    requires Paired(a) && Paired(b)
    ensures Paired(a + b)
    decreases |b|
  {
    if b == [] {
      assert a + b == a;
    } else {
      PairedConcat(a, b[..|b| - 2]);
      assert (a + b)[..|a + b| - 2] == a + b[..|b| - 2];
    }
  }

  /** The threads that a run and its sub-agents may write to, whether all tools, calls and decisions that the
      world comes up with have names, and what all log calls meet with, if that is always the same. */
  datatype Scope = Scope(threads: set<string>, named: bool, io: Option<Audit.LogIO>)

  /** The scope below a call: sub-agents run on the nameless thread. */
  function Below(scope: Scope): Scope {
    scope.(threads := {""})
  }

  /** A script stays in a scope. */
  predicate Admits(scope: Scope, script: Script)
    decreases script
  {
    AdmitsReplies(scope, script.replies)
  }

  predicate AdmitsReplies(scope: Scope, replies: seq<Reply>)
    decreases replies
  {
    forall r | r in replies && r.Reply? :: AdmitsSteps(scope, r.steps)
  }

  predicate AdmitsSteps(scope: Scope, steps: seq<Step>)
    decreases steps
  {
    forall step | step in steps :: AdmitsStep(scope, step)
  }

  predicate AdmitsStep(scope: Scope, step: Step)
    decreases step
  {
    && (scope.named ==> step.call.name != "" && step.call.id != "" && step.approval.decision != "")
    && (scope.io.Some? ==> step.requestIO == step.decisionIO == scope.io.value)
    && (step.answer.Spawns? ==> "" in scope.threads && Admits(Below(scope), step.answer.sub))
  }

  predicate HasNames(e: Audit.Entry) {
    e.tool != "" && e.toolCallId != "" && (e.event == "hitl_decision" ==> e.decision != "")
  }

  /** What a run puts into a log entry. */
  predicate Shaped(scope: Scope, op: Audit.Op) {
    && op.Log?
    && op.entry.event in {"hitl_request", "hitl_decision"}
    && op.entry.timestamp == Audit.ZERO_TIME
    && op.entry.threadId in scope.threads
    && op.entry.requestId != ""
    && 1 <= op.entry.iteration <= MAX_ITERATIONS
    && (scope.named ==> HasNames(op.entry))
    && (scope.io.Some? ==> op.io == scope.io.value)
  }

  /** A log call for a registered tool that is set to interrupt. */
  predicate FromGate(cfg: Config, op: Audit.Op) {
    op.Log? && op.entry.tool in cfg.tools && ShouldInterrupt(cfg, op.entry.tool)
  }

  /* ---------- Checkpoints ---------- */

  /** The store after the checkpoints among the actions. */
  function Disk(dir: string, store: Store, actions: seq<Action>): Store {
    if actions == [] then store
    else
      var before, a := Disk(dir, store, actions[..|actions| - 1]), actions[|actions| - 1];
      if a.Saved? && a.ok then before[Stores.FileOf(dir, "", a.threadId) := a.state] else before
  }

  lemma {:induction false} DiskConcat(dir: string, store: Store, a: seq<Action>, b: seq<Action>)
    ensures Disk(dir, store, a + b) == Disk(dir, Disk(dir, store, a), b)
    decreases |b|
  {
    if b == [] {
      assert a + b == a;
    } else {
      var n := |b| - 1;
      DiskConcat(dir, store, a, b[..n]);
      assert (a + b)[..|a + b| - 1] == a + b[..n];
    }
  }

  predicate SavesIn(scope: Scope, a: Action) {
    a.Saved? ==> a.threadId in scope.threads && 1 <= a.state.iteration <= MAX_ITERATIONS
  }

  ghost predicate Sane(store: Store) {
    forall path | path in store :: store[path].iteration >= 0
  }

  /* ---------- All of it ---------- */

  ghost predicate Lawful(cfg: Config, scope: Scope, store: Store, actions: seq<Action>, store': Store) {
    && Gated(cfg, actions)
    && Paired(Audits(actions))
    && (forall op | op in Audits(actions) :: Shaped(scope, op) && FromGate(cfg, op))
    && (forall a | a in actions :: SavesIn(scope, a))
    && store' == Disk(cfg.dir, store, actions)
    && Sane(store')
  }

  lemma {:induction false} LawfulConcat(cfg: Config, scope: Scope, s: Store, a: seq<Action>, s': Store,
          b: seq<Action>, s'': Store)
    requires Lawful(cfg, scope, s, a, s') && Lawful(cfg, scope, s', b, s'')
    ensures Lawful(cfg, scope, s, a + b, s'')
  {
    hide Audits, Paired, Disk, Permitted, Shaped, FromGate;
    GatedConcat(cfg, a, b);
    AuditsConcat(a, b);
    PairedConcat(Audits(a), Audits(b));
    DiskConcat(cfg.dir, s, a, b);
  }

  lemma {:induction false} LawfulNone(cfg: Config, scope: Scope, store: Store)
    requires Sane(store)
    ensures Lawful(cfg, scope, store, [], store)
  {
  }

  lemma {:induction false} LawfulSane(cfg: Config, scope: Scope, store: Store, actions: seq<Action>, store': Store)
    requires Lawful(cfg, scope, store, actions, store')
    ensures Sane(store')
  {
  }

  lemma {:induction false} LawfulRemembered(cfg: Config, scope: Scope, store: Store, a: Action)
    requires Sane(store) && a.Remembered?
    ensures Lawful(cfg, scope, store, [a], store)
  {
    OneAction(cfg.dir, store, a);
  }

  lemma {:induction false} OneAction(dir: string, store: Store, a: Action)
    ensures Audits([a]) == if a.Logged? then [Audit.Log(a.entry, a.io)] else []
    ensures Disk(dir, store, [a]) ==
      if a.Saved? && a.ok then store[Stores.FileOf(dir, "", a.threadId) := a.state] else store
  {
    assert [a][..0] == [];
    assert Audits([a][..0]) == [] && Disk(dir, store, [a][..0]) == store;
  }

  lemma {:induction false} LawfulSave(cfg: Config, scope: Scope, store: Store, threadId: string, state: State, io: bool)
    requires Sane(store) && threadId in scope.threads && 1 <= state.iteration <= MAX_ITERATIONS
    ensures
      var (store', ok) := SaveSpec(cfg, store, threadId, state, io);
      Lawful(cfg, scope, store, [Saved(threadId, state, ok)], store')
  {
    OneAction(cfg.dir, store, Saved(threadId, state, SaveSpec(cfg, store, threadId, state, io).1));
  }

  /** The thread, the request and the iteration that a call is made under. */
  ghost predicate FitCtx(scope: Scope, ctx: Ctx) {
    ctx.threadId in scope.threads && ctx.requestId != "" && 1 <= ctx.iteration <= MAX_ITERATIONS
  }

  lemma {:induction false} PairedTwo(a: Audit.Op, b: Audit.Op)
    requires Pair(a, b)
    ensures Paired([a, b])
  {
    assert [a, b][..0] == [];
    assert Paired([a, b][..0]);
  }

  lemma {:induction false} ThreeActions(dir: string, store: Store, a: Action, b: Action, c: Action)
    requires a.Logged? && b.Asked? && c.Logged?
    ensures Audits([a, b, c]) == [Audit.Log(a.entry, a.io), Audit.Log(c.entry, c.io)]
    ensures Disk(dir, store, [a, b, c]) == store
  {
    hide Audits, Disk;
    assert [a, b, c] == [a] + [b] + [c];
    OneAction(dir, store, a);
    OneAction(dir, store, b);
    OneAction(dir, store, c);
    AuditsConcat([a], [b]);
    AuditsConcat([a] + [b], [c]);
    DiskConcat(dir, store, [a], [b]);
    DiskConcat(dir, store, [a] + [b], [c]);
  }

  lemma {:induction false} LawfulGate(cfg: Config, scope: Scope, ctx: Ctx, store: Store, step: Step)
    requires Sane(store) && FitCtx(scope, ctx) && AdmitsStep(scope, step)
    requires step.call.name in cfg.tools && ShouldInterrupt(cfg, step.call.name)
    ensures Lawful(cfg, scope, store, Gate(cfg, ctx, store, step).actions, store)
  {
    hide Audits, Disk, Paired, Permitted;
    var gate := Gate(cfg, ctx, store, step).actions;
    ThreeActions(cfg.dir, store, gate[0], gate[1], gate[2]);
    PairedTwo(Audit.Log(gate[0].entry, gate[0].io), Audit.Log(gate[2].entry, gate[2].io));
  }

  /** A model that makes one call and then fails. */
  function OneStep(step: Step): Script {
    Script(0, true, [Reply("", [step], true)])
  }

  lemma ParsedArguments(cfg: Config, text: string)
    ensures ArgumentsOf(cfg, text, ParseArgs(cfg, text))
  {
  }

  /** A call with everything that permits it. */
  lemma {:induction false} LawfulCalled(cfg: Config, scope: Scope, ctx: Ctx, store: Store, step: Step)
    requires Sane(store) && FitCtx(scope, ctx) && AdmitsStep(scope, step)
    requires Accepts(cfg, step) && (ShouldInterrupt(cfg, step.call.name) ==> step.approval.Granted?)
    ensures Lawful(cfg, scope, store,
                   GateActions(cfg, ctx, store, step) + [Called(step.call, ParseArgs(cfg, step.call.arguments))], store)
  {
    hide Audits, Disk, Paired, ArgumentsOf, ParseArgs, RequestRecord, DecisionRecord, ToolSchema;
    ParsedArguments(cfg, step.call.arguments);
    var called := Called(step.call, ParseArgs(cfg, step.call.arguments));
    var gate := GateActions(cfg, ctx, store, step);
    if ShouldInterrupt(cfg, step.call.name) {
      LawfulGate(cfg, scope, ctx, store, step);
    } else {
      LawfulNone(cfg, scope, store);
    }
    OneAction(cfg.dir, store, called);
    AuditsConcat(gate, [called]);
    DiskConcat(cfg.dir, store, gate, [called]);
    assert Audits(gate) + [] == Audits(gate);
    assert Gated(cfg, gate + [called]) by {
      assert forall i | 0 <= i < |gate| :: !gate[i].Called?;
      assert (gate + [called])[|gate|] == called;
    }
  }

  /* ---------- Every run, with its sub-agents ---------- */

  lemma {:induction false} SubConfigGated(cfg: Config, description: string, actions: seq<Action>)
    requires Gated(SubConfig(cfg, description), actions)
    ensures Gated(cfg, actions)
  {
    forall i | 0 <= i < |actions| && actions[i].Called? ensures Permitted(cfg, actions, i) {
      assert Permitted(SubConfig(cfg, description), actions, i);
    }
    forall j | 0 <= j < |actions| && actions[j].Asked? ensures Recorded(cfg, actions, j) {
      assert Recorded(SubConfig(cfg, description), actions, j);
    }
  }

  lemma {:induction false} LawfulBelow(cfg: Config, description: string, scope: Scope, s: Store, actions: seq<Action>,
          s': Store)
    requires Lawful(SubConfig(cfg, description), Below(scope), s, actions, s') && "" in scope.threads
    ensures Lawful(cfg, scope, s, actions, s')
  {
    hide Audits, Paired, Disk, Gated;
    SubConfigGated(cfg, description, actions);
  }

  /** From the gate up to the end of a call, but for the memory entry. */
  lemma {:induction false} LawfulMade(cfg: Config, scope: Scope, ctx: Ctx, store: Store, step: Step)
    requires Sane(store) && FitCtx(scope, ctx) && AdmitsStep(scope, step)
    requires Accepts(cfg, step) && (ShouldInterrupt(cfg, step.call.name) ==> step.approval.Granted?)
    ensures
      var made := MakeCallSpec(cfg, store, step, ParseArgs(cfg, step.call.arguments));
      Lawful(cfg, scope, store, GateActions(cfg, ctx, store, step) + made.actions, made.store)
    decreases step, 0
  {
    hide RunSpec, Lawful;
    var args := ParseArgs(cfg, step.call.arguments);
    var before := GateActions(cfg, ctx, store, step);
    var made := MakeCallSpec(cfg, store, step, args);
    LawfulCalled(cfg, scope, ctx, store, step);
    if step.answer.Spawns? && DescriptionOf(args) != "" {
      var description := DescriptionOf(args);
      var r := RunSpec(SubConfig(cfg, description), store, SubInput(description), step.answer.sub);
      RunLawful(SubConfig(cfg, description), Below(scope), store, SubInput(description), step.answer.sub);
      LawfulBelow(cfg, description, scope, store, r.did.actions, r.store);
      LawfulConcat(cfg, scope, store, before + [Called(step.call, args)], store, r.did.actions, r.store);
      assert before + made.actions == before + [Called(step.call, args)] + r.did.actions;
    }
  }

  lemma {:induction false} LawfulCall(cfg: Config, scope: Scope, ctx: Ctx, store: Store, step: Step)
    requires Sane(store) && FitCtx(scope, ctx) && AdmitsStep(scope, step)
    ensures
      var block := CallSpec(cfg, ctx, store, step);
      Lawful(cfg, scope, store, block.actions, block.store)
    decreases step, 1
  {
    hide Lawful, MakeCallSpec;
    LawfulNone(cfg, scope, store);
    var gate := GateActions(cfg, ctx, store, step);
    if step.call.name in cfg.tools && ShouldInterrupt(cfg, step.call.name) {
      LawfulGate(cfg, scope, ctx, store, step);
    }
    if step.call.name in cfg.tools && (ShouldInterrupt(cfg, step.call.name) ==> step.approval.Granted?) {
      var args := ParseArgs(cfg, step.call.arguments);
      var executed := ExecuteSpec(cfg, ctx, store, step);
      var made := Made(Failure(step.schemaError), [], store);
      assert gate + [] == gate;
      if Accepts(cfg, step) {
        made := MakeCallSpec(cfg, store, step, args);
        LawfulMade(cfg, scope, ctx, store, step);
      }
      var remembered := executed.actions[|executed.actions| - 1];
      assert executed.actions == made.actions + [remembered] && executed.store == made.store;
      LawfulSane(cfg, scope, store, gate + made.actions, made.store);
      LawfulRemembered(cfg, scope, made.store, remembered);
      LawfulConcat(cfg, scope, store, gate + made.actions, made.store, [remembered], made.store);
      assert CallSpec(cfg, ctx, store, step).actions == gate + made.actions + [remembered];
    } else if step.call.name in cfg.tools {
      assert CallSpec(cfg, ctx, store, step).actions == gate;
    }
  }

  lemma {:induction false} LawfulTurn(cfg: Config, scope: Scope, ctx: Ctx, store: Store, steps: seq<Step>)
    requires Sane(store) && FitCtx(scope, ctx) && AdmitsSteps(scope, steps)
    ensures
      var turn := TurnSpec(cfg, ctx, store, steps);
      Lawful(cfg, scope, store, turn.actions, turn.store)
    decreases steps
  {
    hide Lawful, CallSpec;
    LawfulNone(cfg, scope, store);
    if steps != [] {
      var first := CallSpec(cfg, ctx, store, steps[0]);
      var rest := TurnSpec(cfg, ctx, first.store, steps[1..]);
      LawfulCall(cfg, scope, ctx, store, steps[0]);
      LawfulSane(cfg, scope, store, first.actions, first.store);
      LawfulTurn(cfg, scope, ctx, first.store, steps[1..]);
      LawfulConcat(cfg, scope, store, first.actions, first.store, rest.actions, rest.store);
    }
  }

  lemma {:induction false} LawfulTakenTurn(cfg: Config, scope: Scope, id: Request, state: State, store: Store,
          reply: Reply)
    requires Sane(store) && reply.Reply? && 0 <= state.iteration < MAX_ITERATIONS
    requires id.threadId in scope.threads && id.requestId != "" && AdmitsSteps(scope, reply.steps)
    ensures
      var turn := TakeTurnSpec(cfg, id, state, store, reply);
      Lawful(cfg, scope, store, turn.did.actions, turn.store)
    decreases reply
  {
    hide Lawful, TurnSpec;
    var ctx := Ctx(id.threadId, id.requestId, state.iteration + 1);
    var turn := TurnSpec(cfg, ctx, store, reply.steps);
    var state' := AfterTurn(cfg, state, reply.content, turn.results);
    var (store', ok) := SaveSpec(cfg, turn.store, id.threadId, state', reply.saveOk);
    LawfulTurn(cfg, scope, ctx, store, reply.steps);
    LawfulSane(cfg, scope, store, turn.actions, turn.store);
    LawfulSave(cfg, scope, turn.store, id.threadId, state', reply.saveOk);
    LawfulConcat(cfg, scope, store, turn.actions, turn.store, [Saved(id.threadId, state', ok)], store');
  }

  lemma {:induction false} LawfulLoop(cfg: Config, scope: Scope, id: Request, shown: int, state: State, store: Store,
          replies: seq<Reply>)
    requires Sane(store) && 0 <= state.iteration
    requires id.threadId in scope.threads && id.requestId != "" && AdmitsReplies(scope, replies)
    ensures
      var r := LoopSpec(cfg, id, shown, state, store, replies);
      Lawful(cfg, scope, store, r.did.actions, r.store)
    decreases replies
  {
    hide Lawful, TurnSpec;
    LawfulNone(cfg, scope, store);
    if state.iteration < MAX_ITERATIONS && replies != [] && replies[0].Reply? {
      if IsAnswer(replies[0]) {
        LawfulSave(cfg, scope, store, id.threadId, AfterAnswer(state, replies[0].content), replies[0].saveOk);
      } else {
        var turn := TakeTurnSpec(cfg, id, state, store, replies[0]);
        var rest := LoopSpec(cfg, id, turn.state.iteration, turn.state, turn.store, replies[1..]);
        LawfulTakenTurn(cfg, scope, id, state, store, replies[0]);
        LawfulSane(cfg, scope, store, turn.did.actions, turn.store);
        LawfulLoop(cfg, scope, id, turn.state.iteration, turn.state, turn.store, replies[1..]);
        LawfulConcat(cfg, scope, store, turn.did.actions, turn.store, rest.did.actions, rest.store);
      }
    }
  }

  /** Every run with all its sub-agents: calls are made only when permitted; requests and decisions
      alternate in the log; entries and checkpoints are those of the thread of the run, or of the
      nameless thread of sub-agents; and the store ends up as the checkpoints say. */
  lemma {:induction false} RunLawful(cfg: Config, scope: Scope, store: Store, input: Input, script: Script)
    requires Sane(store) && input.threadId in scope.threads && Admits(scope, script)
    ensures
      var r := RunSpec(cfg, store, input, script);
      Lawful(cfg, scope, store, r.did.actions, r.store)
    decreases script
  {
    hide Lawful, LoopSpec;
    var id := Request(input.threadId, NewRequestId(input.threadId, script.stamp));
    match StartState(cfg, store, input, script.loadOk)
    case None => LawfulNone(cfg, scope, store);
    case Some(state) => LawfulLoop(cfg, scope, id, 0, state, store, script.replies);
  }

  lemma {:induction false} AnyScriptAdmitted(scope: Scope, script: Script)
    requires "" in scope.threads && !scope.named && scope.io == None
    ensures Admits(scope, script)
    decreases script
  {
    forall r | r in script.replies && r.Reply? ensures AdmitsSteps(scope, r.steps) {
      forall step | step in r.steps ensures AdmitsStep(scope, step) {
        if step.answer.Spawns? {
          AnyScriptAdmitted(Below(scope), step.answer.sub);
        }
      }
    }
  }

  /** No run, and no sub-agent of it, makes a call that the gate has not just let through; and around every
      question to the approver the log has the request and the answer. */
  lemma {:induction false} NoCallWithoutApproval(cfg: Config, store: Store, input: Input, script: Script)
    requires Sane(store)
    ensures Gated(cfg, RunSpec(cfg, store, input, script).did.actions)
  {
    var scope := Scope({input.threadId, ""}, false, None);
    AnyScriptAdmitted(scope, script);
    RunLawful(cfg, scope, store, input, script);
  }
}
