/** The life of a thread: runs one after the other on one checkpoint, with failures and crashes. */
module Lifetime {
  import opened Values
  import opened ToolMessages
  import opened Graphs
  import opened Nesting
  import opened Traces
  import Stores

  /** The checkpoint of a thread. */
  function Persisted(cfg: Config, store: Store, threadId: string): Option<State> {
    match Stores.ReadFrom(cfg.dir, store, "", threadId, true)
    case Found(state) => Some(state)
    case _ => None
  }

  /** The states that were written for a thread, in order. */
  function SavedFor(threadId: string, actions: seq<Action>): seq<State> {
    if actions == [] then []
    else
      var before, a := SavedFor(threadId, actions[..|actions| - 1]), actions[|actions| - 1];
      if a.Saved? && a.ok && a.threadId == threadId then before + [a.state] else before
  }

  lemma {:induction false} SavedForConcat(t: string, a: seq<Action>, b: seq<Action>)
    ensures SavedFor(t, a + b) == SavedFor(t, a) + SavedFor(t, b)
    decreases |b|
  {
    if b == [] {
      assert a + b == a;
    } else {
      var n := |b| - 1;
      SavedForConcat(t, a, b[..n]);
      assert (a + b)[..|a + b| - 1] == a + b[..n];
    }
  }

  lemma {:induction false} SavedForOne(t: string, a: Action)
    ensures SavedFor(t, [a]) == if a.Saved? && a.ok && a.threadId == t then [a.state] else []
  {
    assert [a][..0] == [];
    assert SavedFor(t, [a][..0]) == [];
  }

  predicate NamedThreadsOnly(actions: seq<Action>, allowed: set<string>) {
    forall a | a in actions && a.Saved? :: a.threadId in allowed
  }

  lemma {:induction false} SavedForNone(t: string, actions: seq<Action>, allowed: set<string>)
    requires NamedThreadsOnly(actions, allowed) && t !in allowed
    ensures SavedFor(t, actions) == []
    decreases |actions|
  {
    if actions != [] {
      assert actions[|actions| - 1] in actions;
      SavedForNone(t, actions[..|actions| - 1], allowed);
    }
  }

  lemma {:induction false} PersistedWrite(cfg: Config, store: Store, t: string, state: State, t': string)
    requires cfg.dir != "" && Stores.ValidComponent(t) && Stores.ValidComponent(t')
    ensures Persisted(cfg, store[Stores.FileOf(cfg.dir, "", t) := state], t')
            == if t' == t then Some(state) else Persisted(cfg, store, t')
  {
    Stores.ReadAfterWrite(cfg.dir, store, "", t, state, "", t', true);
  }

  /** After any actions, the checkpoint of a thread is the last state written for it. */
  lemma {:induction false} PersistedAfter(cfg: Config, store: Store, actions: seq<Action>, t: string)
    requires cfg.dir != "" && Stores.ValidComponent(t)
    requires forall a | a in actions && a.Saved? && a.ok :: Stores.ValidComponent(a.threadId)
    ensures
      var saved := SavedFor(t, actions);
      Persisted(cfg, Disk(cfg.dir, store, actions), t) ==
        if saved == [] then Persisted(cfg, store, t) else Some(saved[|saved| - 1])
    decreases |actions|
  {
    hide Persisted, Stores.FileOf, Stores.ValidComponent;
    if actions != [] {
      var init, a := actions[..|actions| - 1], actions[|actions| - 1];
      assert a in actions && forall x | x in init :: x in actions;
      PersistedAfter(cfg, store, init, t);
      if a.Saved? && a.ok {
        PersistedWrite(cfg, Disk(cfg.dir, store, init), a.threadId, a.state, t);
      }
    }
  }

  /* ---------- One run ---------- */

  /** A run whose thread no sub-agent of it writes to. */
  predicate Alone(threadId: string, replies: seq<Reply>) {
    threadId != "" || forall r | r in replies && r.Reply? :: forall step | step in r.steps :: !step.answer.Spawns?
  }

  predicate StepsAlone(threadId: string, steps: seq<Step>) {
    threadId != "" || forall step | step in steps :: !step.answer.Spawns?
  }

  lemma {:induction false} MadeSaves(cfg: Config, store: Store, step: Step, args: Option<Object>)
    requires Sane(store)
    ensures NamedThreadsOnly(MakeCallSpec(cfg, store, step, args).actions, if step.answer.Spawns? then {""} else {})
  {
    hide RunSpec;
    if step.answer.Spawns? && DescriptionOf(args) != "" {
      SubRunSaves(SubConfig(cfg, DescriptionOf(args)), store, SubInput(DescriptionOf(args)), step.answer.sub);
    }
  }

  lemma {:induction false} CallSaves(cfg: Config, ctx: Ctx, store: Store, step: Step)
    requires Sane(store) && ctx.requestId != "" && 1 <= ctx.iteration <= MAX_ITERATIONS
    ensures
      var block := CallSpec(cfg, ctx, store, step);
      NamedThreadsOnly(block.actions, if step.answer.Spawns? then {""} else {}) && Sane(block.store)
  {
    hide MakeCallSpec, Lawful;
    var scope := Scope({ctx.threadId, ""}, false, None);
    AnyStepAdmitted(scope, step);
    LawfulCall(cfg, scope, ctx, store, step);
    LawfulSane(cfg, scope, store, CallSpec(cfg, ctx, store, step).actions, CallSpec(cfg, ctx, store, step).store);
    MadeSaves(cfg, store, step, ParseArgs(cfg, step.call.arguments));
  }

  lemma {:induction false} AnyStepAdmitted(scope: Scope, step: Step)
    requires "" in scope.threads && !scope.named && scope.io == None
    ensures AdmitsStep(scope, step)
  {
    if step.answer.Spawns? {
      AnyScriptAdmitted(Below(scope), step.answer.sub);
    }
  }

  lemma {:induction false} SubRunSaves(cfg: Config, store: Store, input: Input, script: Script)
    requires Sane(store) && input.threadId == ""
    ensures NamedThreadsOnly(RunSpec(cfg, store, input, script).did.actions, {""})
  {
    var scope := Scope({""}, false, None);
    AnyScriptAdmitted(scope, script);
    RunLawful(cfg, scope, store, input, script);
    var actions := RunSpec(cfg, store, input, script).did.actions;
    forall a | a in actions && a.Saved? ensures a.threadId in {""} {
      assert SavesIn(scope, a);
    }
  }

  lemma {:induction false} TurnSaves(cfg: Config, t: string, ctx: Ctx, store: Store, steps: seq<Step>)
    requires Sane(store) && ctx.requestId != "" && 1 <= ctx.iteration <= MAX_ITERATIONS
    requires StepsAlone(t, steps)
    ensures
      var turn := TurnSpec(cfg, ctx, store, steps);
      NamedThreadsOnly(turn.actions, {""} - {t}) && Sane(turn.store)
    decreases steps
  {
    hide CallSpec;
    if steps != [] {
      var first := CallSpec(cfg, ctx, store, steps[0]);
      CallSaves(cfg, ctx, store, steps[0]);
      assert NamedThreadsOnly(first.actions, {""} - {t});
      TurnSaves(cfg, t, ctx, first.store, steps[1..]);
    }
  }

  /** The messages that a stretch of replies adds: one for the assistant and one for every registered call. */
  function Added(cfg: Config, replies: seq<Reply>): nat {
    if replies == [] then 0
    else (if replies[0].Reply? then 1 + |Registered(cfg, replies[0].steps)| else 0) + Added(cfg, replies[1..])
  }

  /** The messages that belong to some replies: for each one what the assistant said, and an answer to every
      registered call, in call order. */
  ghost predicate Transcribes(cfg: Config, replies: seq<Reply>, messages: seq<Message>)
    decreases |replies|
  {
    if replies == [] then messages == []
    else
      var reply := replies[0];
      && reply.Reply?
      && var calls := Registered(cfg, reply.steps);
      && |messages| > |calls|
      && messages[0] == Message("assistant", reply.content)
      && (forall i | 0 <= i < |calls| :: AnsweredBy(cfg, calls[i], messages[1 + i]))
      && Transcribes(cfg, replies[1..], messages[1 + |calls|..])
  }

  /** A checkpoint taken after m replies on top of a starting state: its messages, with the transcript of those
      replies behind them. */
  ghost predicate Extends(cfg: Config, start: State, replies: seq<Reply>, s: State) {
    var m := s.iteration - start.iteration;
    && 0 < m <= |replies| && s.iteration <= MAX_ITERATIONS
    && start.messages <= s.messages
    && Transcribes(cfg, replies[..m], s.messages[|start.messages|..])
    && SameThread(start, s)
  }

  /** Of one thread; the final answer is the old one, or the last message. */
  predicate SameThread(start: State, s: State) {
    && s.threadId == start.threadId
    && (s.final == start.final ||
        (s.messages != [] && s.messages[|s.messages| - 1] == Message("assistant", s.final)))
  }

  lemma {:induction false} TranscriptLength(cfg: Config, replies: seq<Reply>, messages: seq<Message>)
    requires Transcribes(cfg, replies, messages)
    ensures |messages| == Added(cfg, replies)
    decreases |replies|
  {
    hide AnsweredBy, Registered;
    if replies != [] {
      TranscriptLength(cfg, replies[1..], messages[1 + |Registered(cfg, replies[0].steps)|..]);
    }
  }

  lemma {:induction false} OneReply(cfg: Config, reply: Reply, messages: seq<Message>)
    requires reply.Reply?
    ensures
      var calls := Registered(cfg, reply.steps);
      Transcribes(cfg, [reply], messages) <==>
        && |messages| == 1 + |calls| && messages[0] == Message("assistant", reply.content)
        && forall i | 0 <= i < |calls| :: AnsweredBy(cfg, calls[i], messages[1 + i])
  {
    hide AnsweredBy, Registered;
    assert [reply][1..] == [];
    var n := |Registered(cfg, reply.steps)|;
    if |messages| > n {
      assert Transcribes(cfg, [reply][1..], messages[1 + n..]) <==> messages[1 + n..] == [];
    }
  }

  /** Checkpoints that follow one another. */
  predicate Growing(saved: seq<State>) {
    forall i, j | 0 <= i < j < |saved| ::
      saved[i].iteration < saved[j].iteration && saved[i].messages <= saved[j].messages
  }

  lemma {:induction false} TurnGrows(cfg: Config, id: Request, state: State, store: Store, reply: Reply)
    requires reply.Reply?
    ensures
      var state' := TakeTurnSpec(cfg, id, state, store, reply).state;
      && state'.iteration == state.iteration + 1
      && state'.threadId == state.threadId && state'.final == state.final
      && state.messages <= state'.messages
      && Transcribes(cfg, [reply], state'.messages[|state.messages|..])
  {
    hide TurnSpec, Registered, AnsweredBy, Transcribes, Messages;
    TurnMessages(cfg, id, state, store, reply);
    var state' := TakeTurnSpec(cfg, id, state, store, reply).state;
    OneReply(cfg, reply, state'.messages[|state.messages|..]);
  }

  lemma {:induction false} ExtendsLater(cfg: Config, start: State, mid: State, replies: seq<Reply>, s: State)
    requires replies != [] && replies[0].Reply?
    requires mid.iteration == start.iteration + 1 && start.messages <= mid.messages
    requires mid.threadId == start.threadId && mid.final == start.final
    requires Transcribes(cfg, [replies[0]], mid.messages[|start.messages|..])
    requires Extends(cfg, mid, replies[1..], s)
    ensures Extends(cfg, start, replies, s)
  {
    hide AnsweredBy, Registered;
    var m := s.iteration - start.iteration;
    assert replies[..m][1..] == replies[1..][..m - 1];
    assert replies[..m][0] == replies[0];
    var first, whole := mid.messages[|start.messages|..], s.messages[|start.messages|..];
    OneReply(cfg, replies[0], first);
    assert whole[|first|..] == s.messages[|mid.messages|..];
    assert forall i | 0 <= i < |first| :: whole[i] == first[i];
  }

  /** The checkpoints of a loop extend its starting state, one after the other. */
  lemma {:induction false} LoopHistory(cfg: Config, id: Request, shown: int, state: State, store: Store,
          replies: seq<Reply>)
    requires Sane(store) && 0 <= state.iteration && id.requestId != "" && Alone(id.threadId, replies)
    ensures
      var saved := SavedFor(id.threadId, LoopSpec(cfg, id, shown, state, store, replies).did.actions);
      Growing(saved) && forall s | s in saved :: Extends(cfg, state, replies, s)
    decreases replies
  {
    hide TurnSpec, SavedFor, Extends, Transcribes;
    var t := id.threadId;
    NothingSaved(t);
    if state.iteration < MAX_ITERATIONS && replies != [] && replies[0].Reply? {
      if IsAnswer(replies[0]) {
        AnswerHistory(cfg, id, state, store, replies);
      } else {
        var turn := TakeTurnSpec(cfg, id, state, store, replies[0]);
        var rest := LoopSpec(cfg, id, turn.state.iteration, turn.state, turn.store, replies[1..]);
        TakenTurnHistory(cfg, id, state, store, replies);
        LoopHistory(cfg, id, turn.state.iteration, turn.state, turn.store, replies[1..]);
        SavedForConcat(t, turn.did.actions, rest.did.actions);
        ChainHistory(cfg, state, turn.state, replies, SavedFor(t, turn.did.actions), SavedFor(t, rest.did.actions));
      }
    }
  }

  lemma {:induction false} NothingSaved(t: string)
    ensures SavedFor(t, []) == []
  {
  }

  lemma {:induction false} ChainHistory(cfg: Config, start: State, mid: State, replies: seq<Reply>, first: seq<State>,
          later: seq<State>)
    requires replies != [] && replies[0].Reply?
    requires mid.iteration == start.iteration + 1 <= MAX_ITERATIONS && start.messages <= mid.messages
    requires mid.threadId == start.threadId && mid.final == start.final
    requires Transcribes(cfg, [replies[0]], mid.messages[|start.messages|..])
    requires first == [] || first == [mid]
    requires Growing(later) && forall s | s in later :: Extends(cfg, mid, replies[1..], s)
    ensures Growing(first + later) && forall s | s in first + later :: Extends(cfg, start, replies, s)
  {
    hide Transcribes;
    forall s | s in later ensures Extends(cfg, start, replies, s) {
      ExtendsLater(cfg, start, mid, replies, s);
    }
    if first != [] {
      assert replies[..1] == [replies[0]];
      assert Extends(cfg, start, replies, mid);
      forall s | s in later ensures mid.iteration < s.iteration && mid.messages <= s.messages {
        assert Extends(cfg, mid, replies[1..], s);
      }
    }
  }

  lemma {:induction false} AnswerHistory(cfg: Config, id: Request, state: State, store: Store, replies: seq<Reply>)
    requires 0 <= state.iteration < MAX_ITERATIONS && replies != [] && IsAnswer(replies[0])
    ensures
      var last := AnswerSpec(cfg, id, state, store, replies[0]);
      var saved := SavedFor(id.threadId, last.did.actions);
      && saved == (if last.did.actions[0].ok then [last.state] else [])
      && Extends(cfg, state, replies, last.state)
  {
    hide Transcribes, SavedFor, Registered, AnsweredBy, Stores.WriteTo;
    var last := AnswerSpec(cfg, id, state, store, replies[0]);
    assert last.did.actions == [last.did.actions[0]];
    SavedForOne(id.threadId, last.did.actions[0]);
    AnswerExtends(cfg, state, replies);
  }

  lemma {:induction false} AnswerExtends(cfg: Config, state: State, replies: seq<Reply>)
    requires 0 <= state.iteration < MAX_ITERATIONS && replies != [] && IsAnswer(replies[0])
    ensures Extends(cfg, state, replies, AfterAnswer(state, replies[0].content))
  {
    hide Transcribes, AnsweredBy;
    var content := replies[0].content;
    assert replies[..1] == [replies[0]];
    assert Registered(cfg, []) == [];
    OneReply(cfg, replies[0], [Message("assistant", content)]);
    assert AfterAnswer(state, content).messages[|state.messages|..] == [Message("assistant", content)];
  }

  lemma {:induction false} TakenTurnHistory(cfg: Config, id: Request, state: State, store: Store, replies: seq<Reply>)
    requires Sane(store) && 0 <= state.iteration < MAX_ITERATIONS && replies != [] && replies[0].Reply?
    requires id.requestId != "" && Alone(id.threadId, replies)
    ensures
      var turn := TakeTurnSpec(cfg, id, state, store, replies[0]);
      var saved := SavedFor(id.threadId, turn.did.actions);
      && saved == (if turn.did.actions[|turn.did.actions| - 1].ok then [turn.state] else [])
      && turn.state.iteration == state.iteration + 1
      && turn.state.threadId == state.threadId && turn.state.final == state.final
      && state.messages <= turn.state.messages
      && Transcribes(cfg, [replies[0]], turn.state.messages[|state.messages|..])
      && Sane(turn.store)
  {
    hide TurnSpec, SavedFor, Registered, Transcribes;
    var t, reply := id.threadId, replies[0];
    var ctx := Ctx(t, id.requestId, state.iteration + 1);
    var turn, taken := TurnSpec(cfg, ctx, store, reply.steps), TakeTurnSpec(cfg, id, state, store, reply);
    TurnSaves(cfg, t, ctx, store, reply.steps);
    SavedForNone(t, turn.actions, {""} - {t});
    TurnGrows(cfg, id, state, store, reply);
    var saved := taken.did.actions[|turn.actions|];
    assert taken.did.actions == turn.actions + [saved];
    SavedForConcat(t, turn.actions, [saved]);
    SavedForOne(t, saved);
  }

  /** The state that a run on a thread starts with, if its checkpoint can be read. */
  function Started(cfg: Config, store: Store, input: Input): State {
    var state := match Persisted(cfg, store, input.threadId)
                 case None => FreshState(cfg, input.threadId)
                 case Some(state) => state;
    state.(messages := state.messages + input.messages)
  }

  /** A run may be cut short after any of its actions. */
  function Executed(cfg: Config, store: Store, input: Input, script: Script, cut: nat): seq<Action> {
    var actions := RunSpec(cfg, store, input, script).did.actions;
    if cut <= |actions| then actions[..cut] else actions
  }

  /** Whatever fails in a run and wherever it stops, the checkpoint of its thread is either untouched or
      extends the state the run started with. */
  lemma {:induction false} RunExtendsThread(cfg: Config, store: Store, input: Input, script: Script, cut: nat)
    requires cfg.dir != "" && Sane(store) && Stores.ValidComponent(input.threadId)
    requires Alone(input.threadId, script.replies)
    ensures
      var done := Executed(cfg, store, input, script, cut);
      var before, after := Persisted(cfg, store, input.threadId),
        Persisted(cfg, Disk(cfg.dir, store, done), input.threadId);
      && (SavedFor(input.threadId, done) == [] ==> after == before)
      && (SavedFor(input.threadId, done) != [] ==>
            after.Some? && Extends(cfg, Started(cfg, store, input), script.replies, after.value))
  {
    hide LoopSpec, Extends, Persisted, Disk, SavedFor;
    var t := input.threadId;
    var actions, done := RunSpec(cfg, store, input, script).did.actions, Executed(cfg, store, input, script, cut);
    SavedThreadsValid(cfg, store, input, script);
    PersistedAfter(cfg, store, done, t);
    var rest := if cut <= |actions| then actions[cut..] else [];
    assert actions == done + rest;
    SavedForConcat(t, done, rest);
    RunSaves(cfg, store, input, script);
    if SavedFor(t, done) != [] {
      var s := SavedFor(t, done)[|SavedFor(t, done)| - 1];
      assert s in SavedFor(t, actions);
    }
  }

  lemma {:induction false} RunSaves(cfg: Config, store: Store, input: Input, script: Script)
    requires Sane(store) && Alone(input.threadId, script.replies)
    ensures forall s | s in SavedFor(input.threadId, RunSpec(cfg, store, input, script).did.actions) ::
      Extends(cfg, Started(cfg, store, input), script.replies, s)
  {
    hide LoopSpec, Extends, SavedFor;
    NothingSaved(input.threadId);
    var id := RequestOf(input, script);
    match StartState(cfg, store, input, script.loadOk)
    case None =>
    case Some(state) =>
      StartIsStarted(cfg, store, input, script.loadOk);
      LoopHistory(cfg, id, 0, state, store, script.replies);
  }

  lemma {:induction false} StartIsStarted(cfg: Config, store: Store, input: Input, loadOk: bool)
    ensures
      var start := StartState(cfg, store, input, loadOk);
      && (start.Some? ==> start.value == Started(cfg, store, input))
      && (start.Some? && Sane(store) ==> start.value.iteration >= 0)
      && (start == None <==> !Stores.ValidComponent(input.threadId) || !loadOk)
  {
  }

  lemma {:induction false} SavedThreadsValid(cfg: Config, store: Store, input: Input, script: Script)
    requires Sane(store) && Stores.ValidComponent(input.threadId)
    ensures forall a | a in RunSpec(cfg, store, input, script).did.actions ::
      a.Saved? ==> Stores.ValidComponent(a.threadId)
  {
    hide RunSpec;
    var scope := Scope({input.threadId, ""}, false, None);
    AnyScriptAdmitted(scope, script);
    RunLawful(cfg, scope, store, input, script);
    var actions := RunSpec(cfg, store, input, script).did.actions;
    forall a | a in actions && a.Saved? ensures Stores.ValidComponent(a.threadId) {
      assert SavesIn(scope, a);
    }
  }

  /* ---------- A whole life ---------- */

  /** One run on the thread, stopped after `cut` actions (beyond the last: not stopped). */
  datatype Visit = Visit(messages: seq<Message>, script: Script, cut: nat)

  function Executed1(cfg: Config, t: string, store: Store, v: Visit): seq<Action> {
    Executed(cfg, store, Input(v.messages, t), v.script, v.cut)
  }

  function Live(cfg: Config, t: string, store: Store, visits: seq<Visit>): Store {
    if visits == [] then store
    else
      var before, v := Live(cfg, t, store, visits[..|visits| - 1]), visits[|visits| - 1];
      Disk(cfg.dir, before, Executed1(cfg, t, before, v))
  }

  /** What the visits left in the messages of the thread: for every visit that took a checkpoint, its
      input, and an assistant message and the answers to registered calls for every reply up to its
      last checkpoint. */
  function Ledger(cfg: Config, t: string, store: Store, visits: seq<Visit>): nat {
    if visits == [] then 0
    else
      Ledger(cfg, t, store, visits[..|visits| - 1])
      + Contribution(cfg, t, Live(cfg, t, store, visits[..|visits| - 1]), visits[|visits| - 1])
  }

  function Contribution(cfg: Config, t: string, store: Store, v: Visit): nat {
    match LastCheckpoint(cfg, t, store, v)
    case None => 0
    case Some(s) =>
      |v.messages| + Added(cfg, FirstReplies(v.script,
        s.iteration - Started(cfg, store, Input(v.messages, t)).iteration))
  }

  function FirstReplies(script: Script, m: int): seq<Reply> {
    if 0 <= m <= |script.replies| then script.replies[..m] else script.replies
  }

  function LastCheckpoint(cfg: Config, t: string, store: Store, v: Visit): Option<State> {
    var saved := SavedFor(t, Executed1(cfg, t, store, v));
    if saved == [] then None else Some(saved[|saved| - 1])
  }

  predicate AllAlone(t: string, visits: seq<Visit>) {
    forall v | v in visits :: Alone(t, v.script.replies)
  }

  /** A thread in good order: its messages begin with the system prompt and its budget is not overdrawn. */
  predicate InOrder(cfg: Config, p: Option<State>) {
    p.Some? ==>
      p.value.messages != [] && p.value.messages[0] == Message("system", cfg.prompt)
      && 0 <= p.value.iteration <= MAX_ITERATIONS
  }

  function MessagesOf(p: Option<State>): seq<Message> {
    if p == None then [] else p.value.messages
  }

  function IterationOf(p: Option<State>): int {
    if p == None then 0 else p.value.iteration
  }

  /** The thread that a checkpoint names; a fresh one names its own. */
  function ThreadOf(t: string, p: Option<State>): string {
    if p == None then t else p.value.threadId
  }

  /** What a thread begins its next visit with: its checkpoint, or the system prompt. */
  function Base(cfg: Config, p: Option<State>): seq<Message> {
    if p == None then [Message("system", cfg.prompt)] else p.value.messages
  }

  /** A checkpoint that a visit leaves: what was there, the input, and the transcript of the replies so far. */
  ghost predicate Continues(cfg: Config, v: Visit, p: Option<State>, s: State) {
    var base := Base(cfg, p) + v.messages;
    && base <= s.messages
    && Transcribes(cfg, FirstReplies(v.script, s.iteration - IterationOf(p)), s.messages[|base|..])
    && IterationOf(p) < s.iteration <= MAX_ITERATIONS
  }

  lemma {:induction false} VisitContinues(cfg: Config, t: string, store: Store, v: Visit)
    requires cfg.dir != "" && Sane(store) && Stores.ValidComponent(t) && Alone(t, v.script.replies)
    ensures
      var s := LastCheckpoint(cfg, t, store, v);
      && (s.Some? ==> Continues(cfg, v, Persisted(cfg, store, t), s.value))
      && (s.Some? ==> s.value.threadId == ThreadOf(t, Persisted(cfg, store, t)))
      && Persisted(cfg, Disk(cfg.dir, store, Executed1(cfg, t, store, v)), t) ==
           if s == None then Persisted(cfg, store, t) else s
  {
    hide RunSpec, Persisted, Disk, SavedFor, Transcribes, Executed;
    var input := Input(v.messages, t);
    RunExtendsThread(cfg, store, input, v.script, v.cut);
    SavedThreadsValid(cfg, store, input, v.script);
    ExecutedPart(cfg, store, input, v.script, v.cut);
    PersistedAfter(cfg, store, Executed1(cfg, t, store, v), t);
  }

  lemma {:induction false} ExecutedPart(cfg: Config, store: Store, input: Input, script: Script, cut: nat)
    ensures forall a | a in Executed(cfg, store, input, script, cut) ::
      a in RunSpec(cfg, store, input, script).did.actions
  {
    hide RunSpec;
  }

  lemma {:induction false} ContributionOf(cfg: Config, t: string, store: Store, v: Visit)
    requires LastCheckpoint(cfg, t, store, v).Some?
    requires Continues(cfg, v, Persisted(cfg, store, t), LastCheckpoint(cfg, t, store, v).value)
    ensures
      var p, s := Persisted(cfg, store, t), LastCheckpoint(cfg, t, store, v).value;
      |s.messages| == |Base(cfg, p)| + Contribution(cfg, t, store, v)
  {
    hide Persisted, LastCheckpoint, Transcribes, FirstReplies;
    var p, s := Persisted(cfg, store, t), LastCheckpoint(cfg, t, store, v).value;
    var base := Base(cfg, p) + v.messages;
    TranscriptLength(cfg, FirstReplies(v.script, s.iteration - IterationOf(p)), s.messages[|base|..]);
    StartedIteration(cfg, store, Input(v.messages, t));
  }

  lemma {:induction false} StartedIteration(cfg: Config, store: Store, input: Input)
    ensures Started(cfg, store, input).iteration == IterationOf(Persisted(cfg, store, input.threadId))
  {
  }

  /** One visit only ever appends to the checkpoint and only ever raises its iteration, up to twenty. */
  lemma {:induction false} VisitAppends(cfg: Config, t: string, store: Store, v: Visit)
    requires cfg.dir != "" && Sane(store) && Stores.ValidComponent(t) && Alone(t, v.script.replies)
    requires InOrder(cfg, Persisted(cfg, store, t))
    ensures
      var p := Persisted(cfg, store, t);
      var store' := Disk(cfg.dir, store, Executed1(cfg, t, store, v));
      var p' := Persisted(cfg, store', t);
      && InOrder(cfg, p') && Sane(store')
      && MessagesOf(p) <= MessagesOf(p') && IterationOf(p) <= IterationOf(p')
      && (p.Some? ==> p'.Some?)
      && (LastCheckpoint(cfg, t, store, v) == None ==> p' == p)
      && (LastCheckpoint(cfg, t, store, v).Some? ==> p' == LastCheckpoint(cfg, t, store, v))
      && |MessagesOf(p')| == (if p == None && p'.Some? then 1 else |MessagesOf(p)|) + Contribution(cfg, t, store, v)
  {
    hide Persisted, Disk, LastCheckpoint, Contribution, Transcribes, Executed;
    VisitContinues(cfg, t, store, v);
    ExecutedSane(cfg, store, Input(v.messages, t), v.script, v.cut);
    if LastCheckpoint(cfg, t, store, v).Some? {
      ContributionOf(cfg, t, store, v);
    } else {
      NoContribution(cfg, t, store, v);
    }
  }

  lemma {:induction false} NoContribution(cfg: Config, t: string, store: Store, v: Visit)
    requires LastCheckpoint(cfg, t, store, v) == None
    ensures Contribution(cfg, t, store, v) == 0
  {
  }

  lemma {:induction false} ExecutedSane(cfg: Config, store: Store, input: Input, script: Script, cut: nat)
    requires Sane(store)
    ensures Sane(Disk(cfg.dir, store, Executed(cfg, store, input, script, cut)))
  {
    hide RunSpec;
    var scope := Scope({input.threadId, ""}, false, None);
    AnyScriptAdmitted(scope, script);
    RunLawful(cfg, scope, store, input, script);
    var done := Executed(cfg, store, input, script, cut);
    forall a | a in done && a.Saved? ensures a.state.iteration >= 0 {
      assert SavesIn(scope, a);
    }
    DiskSane(cfg.dir, store, done);
  }

  lemma {:induction false} DiskSane(dir: string, store: Store, actions: seq<Action>)
    requires Sane(store) && forall a | a in actions && a.Saved? :: a.state.iteration >= 0
    ensures Sane(Disk(dir, store, actions))
    decreases |actions|
  {
    if actions != [] {
      assert actions[|actions| - 1] in actions;
      DiskSane(dir, store, actions[..|actions| - 1]);
    }
  }

  /** The whole life of a thread: from no checkpoint on, through any number of runs that fail or stop
      anywhere, its messages begin with the system prompt and number exactly one more than the ledger. */
  lemma {:induction false} HistoryIsAppendOnly(cfg: Config, t: string, store: Store, visits: seq<Visit>)
    requires cfg.dir != "" && Sane(store) && Stores.ValidComponent(t) && AllAlone(t, visits)
    requires Persisted(cfg, store, t) == None
    ensures
      var p := Persisted(cfg, Live(cfg, t, store, visits), t);
      && InOrder(cfg, p) && Sane(Live(cfg, t, store, visits))
      && |MessagesOf(p)| == (if p == None then 0 else 1) + Ledger(cfg, t, store, visits)
      && ThreadOf(t, p) == t
    decreases |visits|
  {
    hide Persisted, LastCheckpoint, Contribution, Executed1, Disk, Continues;
    if visits != [] {
      var n := |visits| - 1;
      assert visits[n] in visits && forall v | v in visits[..n] :: v in visits;
      HistoryIsAppendOnly(cfg, t, store, visits[..n]);
      VisitAppends(cfg, t, Live(cfg, t, store, visits[..n]), visits[n]);
      VisitContinues(cfg, t, Live(cfg, t, store, visits[..n]), visits[n]);
    }
  }

  /** The messages of a thread, visit by visit: those of visits that took no checkpoint are not there; each of
      the others continues what was there before it. */
  ghost predicate Chronicle(cfg: Config, t: string, store: Store, visits: seq<Visit>, messages: seq<Message>)
    decreases |visits|
  {
    if visits == [] then messages == []
    else
      var init, v := visits[..|visits| - 1], visits[|visits| - 1];
      var before := Live(cfg, t, store, init);
      match LastCheckpoint(cfg, t, before, v)
      case None => Chronicle(cfg, t, store, init, messages)
      case Some(s) =>
        && messages == s.messages
        && Continues(cfg, v, Persisted(cfg, before, t), s)
        && Chronicle(cfg, t, store, init, MessagesOf(Persisted(cfg, before, t)))
  }

  /** The saved history of a thread is a chronicle of its visits, whatever failed and wherever they stopped: every
      message in it is the system prompt, input, what the assistant said, or the answer to a registered call,
      each in its place. */
  lemma {:induction false} HistoryIsChronicle(cfg: Config, t: string, store: Store, visits: seq<Visit>)
    requires cfg.dir != "" && Sane(store) && Stores.ValidComponent(t) && AllAlone(t, visits)
    requires Persisted(cfg, store, t) == None
    ensures Chronicle(cfg, t, store, visits, MessagesOf(Persisted(cfg, Live(cfg, t, store, visits), t)))
    decreases |visits|
  {
    hide Persisted, LastCheckpoint, Continues, Executed1, Disk, InOrder, Ledger, ThreadOf;
    if visits != [] {
      var n := |visits| - 1;
      assert visits[n] in visits && forall v | v in visits[..n] :: v in visits;
      HistoryIsChronicle(cfg, t, store, visits[..n]);
      HistoryIsAppendOnly(cfg, t, store, visits[..n]);
      VisitContinues(cfg, t, Live(cfg, t, store, visits[..n]), visits[n]);
    }
  }

  lemma {:induction false} WithinBudget(cfg: Config, p: Option<State>)
    requires InOrder(cfg, p)
    ensures IterationOf(p) <= MAX_ITERATIONS
  {
  }

  /** Between any two points of a life, messages are only appended and the iteration never falls. */
  lemma {:induction false} LifeOnlyGrows(cfg: Config, t: string, store: Store, visits: seq<Visit>, k: nat)
    requires cfg.dir != "" && Sane(store) && Stores.ValidComponent(t) && AllAlone(t, visits)
    requires Persisted(cfg, store, t) == None && k <= |visits|
    ensures
      var p, q := Persisted(cfg, Live(cfg, t, store, visits[..k]), t), Persisted(cfg, Live(cfg, t, store, visits), t);
      MessagesOf(p) <= MessagesOf(q) && IterationOf(p) <= IterationOf(q) <= MAX_ITERATIONS
    decreases |visits|
  {
    hide Persisted, Executed1, Disk, Contribution, Ledger, LastCheckpoint, MessagesOf, InOrder;
    HistoryIsAppendOnly(cfg, t, store, visits);
    WithinBudget(cfg, Persisted(cfg, Live(cfg, t, store, visits), t));
    if k == |visits| {
      assert visits[..k] == visits;
    } else {
      var n := |visits| - 1;
      assert visits[n] in visits && forall v | v in visits[..n] :: v in visits;
      assert visits[..n][..k] == visits[..k];
      LifeOnlyGrows(cfg, t, store, visits[..n], k);
      HistoryIsAppendOnly(cfg, t, store, visits[..n]);
      VisitAppends(cfg, t, Live(cfg, t, store, visits[..n]), visits[n]);
    }
  }

  /* ---------- Threads side by side ---------- */

  /** A visit of any thread. */
  datatype Stay = Stay(threadId: string, visit: Visit)

  function Among(cfg: Config, store: Store, stays: seq<Stay>): Store {
    if stays == [] then store
    else
      var before, s := Among(cfg, store, stays[..|stays| - 1]), stays[|stays| - 1];
      Disk(cfg.dir, before, Executed1(cfg, s.threadId, before, s.visit))
  }

  lemma {:induction false} BadThreadDoesNothing(cfg: Config, store: Store, input: Input, script: Script)
    requires !Stores.ValidComponent(input.threadId)
    ensures RunSpec(cfg, store, input, script).did.actions == []
  {
  }

  lemma {:induction false} RunSavesIn(cfg: Config, store: Store, input: Input, script: Script)
    requires Sane(store)
    ensures forall a | a in RunSpec(cfg, store, input, script).did.actions ::
      a.Saved? ==> a.threadId in {input.threadId, ""}
  {
    hide RunSpec;
    var scope := Scope({input.threadId, ""}, false, None);
    AnyScriptAdmitted(scope, script);
    RunLawful(cfg, scope, store, input, script);
    var actions := RunSpec(cfg, store, input, script).did.actions;
    forall a | a in actions && a.Saved? ensures a.threadId in {input.threadId, ""} {
      assert SavesIn(scope, a);
    }
  }

  /** A run leaves the checkpoints of all other threads alone, but for that of the nameless thread. */
  lemma {:induction false} OthersLeaveThread(cfg: Config, store: Store, stay: Stay, t: string)
    requires cfg.dir != "" && Sane(store) && Stores.ValidComponent(t) && t != "" && t != stay.threadId
    ensures
      var store' := Disk(cfg.dir, store, Executed1(cfg, stay.threadId, store, stay.visit));
      Persisted(cfg, store', t) == Persisted(cfg, store, t) && Sane(store')
  {
    hide RunSpec, Persisted, Disk, Executed;
    var input, script := Input(stay.visit.messages, stay.threadId), stay.visit.script;
    var done := Executed(cfg, store, input, script, stay.visit.cut);
    ExecutedPart(cfg, store, input, script, stay.visit.cut);
    ExecutedSane(cfg, store, input, script, stay.visit.cut);
    RunSavesIn(cfg, store, input, script);
    SavedForNone(t, done, {stay.threadId, ""});
    if Stores.ValidComponent(stay.threadId) {
      SavedThreadsValid(cfg, store, input, script);
    } else {
      BadThreadDoesNothing(cfg, store, input, script);
    }
    PersistedAfter(cfg, store, done, t);
  }

  /** What the stays on one thread left in its messages. */
  function LedgerAmong(cfg: Config, t: string, store: Store, stays: seq<Stay>): nat {
    if stays == [] then 0
    else
      var before, s := stays[..|stays| - 1], stays[|stays| - 1];
      LedgerAmong(cfg, t, store, before)
      + if s.threadId == t then Contribution(cfg, t, Among(cfg, store, before), s.visit) else 0
  }

  /** The life of a named thread among any runs on any other threads: only its own runs count. Its messages
      begin with the system prompt, number one more than its own ledger, and its budget is kept. */
  lemma {:induction false} LifeAmongOthers(cfg: Config, t: string, store: Store, stays: seq<Stay>)
    requires cfg.dir != "" && Sane(store) && Stores.ValidComponent(t) && t != "" && Persisted(cfg, store, t) == None
    ensures
      var p := Persisted(cfg, Among(cfg, store, stays), t);
      && InOrder(cfg, p) && Sane(Among(cfg, store, stays))
      && |MessagesOf(p)| == (if p == None then 0 else 1) + LedgerAmong(cfg, t, store, stays)
    decreases |stays|
  {
    hide Persisted, LastCheckpoint, Contribution, Executed1, Disk;
    if stays != [] {
      var n := |stays| - 1;
      var before := Among(cfg, store, stays[..n]);
      LifeAmongOthers(cfg, t, store, stays[..n]);
      if stays[n].threadId == t {
        VisitAppends(cfg, t, before, stays[n].visit);
      } else {
        OthersLeaveThread(cfg, before, stays[n], t);
      }
    }
  }

  /* ---------- The budget ---------- */

  predicate SavesSucceed(replies: seq<Reply>) {
    forall r | r in replies && r.Reply? :: r.saveOk
  }

  /** Model calls that were answered. */
  function Answered(r: RunResult): int {
    r.did.tally.modelCalls - r.did.tally.modelErrors
  }

  lemma {:induction false} SaveSucceeds(cfg: Config, store: Store, t: string, state: State)
    requires Stores.ValidComponent(t)
    ensures SaveSpec(cfg, store, t, state, true).1
  {
  }

  lemma {:induction false} ReplyIsSaved(cfg: Config, id: Request, state: State, store: Store, reply: Reply)
    requires reply.Reply? && reply.saveOk && Stores.ValidComponent(id.threadId)
    ensures AnswerSpec(cfg, id, state, store, reply).did.actions[0].ok
    ensures
      var actions := TakeTurnSpec(cfg, id, state, store, reply).did.actions;
      actions != [] && actions[|actions| - 1].Saved? && actions[|actions| - 1].ok
  {
    hide TurnSpec, SaveSpec;
    var turn := TurnSpec(cfg, Ctx(id.threadId, id.requestId, state.iteration + 1), store, reply.steps);
    SaveSucceeds(cfg, store, id.threadId, AfterAnswer(state, reply.content));
    SaveSucceeds(cfg, turn.store, id.threadId, AfterTurn(cfg, state, reply.content, turn.results));
  }

  /** With all checkpoints written, the answered model calls of a loop are what its last checkpoint adds to
      the iteration. */
  lemma {:induction false} LoopBudget(cfg: Config, id: Request, shown: int, state: State, store: Store,
          replies: seq<Reply>)
    requires Sane(store) && 0 <= state.iteration && id.requestId != "" && Alone(id.threadId, replies)
    requires SavesSucceed(replies) && Stores.ValidComponent(id.threadId)
    ensures
      var r := LoopSpec(cfg, id, shown, state, store, replies);
      var saved := SavedFor(id.threadId, r.did.actions);
      Answered(r) == (if saved == [] then 0 else saved[|saved| - 1].iteration - state.iteration)
    decreases replies
  {
    hide SavedFor, Extends, TakeTurnSpec, AnswerSpec, Registered, Transcribes, Stores.ValidComponent, SavesSucceed;
    var t := id.threadId;
    NothingSaved(t);
    if state.iteration < MAX_ITERATIONS && replies != [] && replies[0].Reply? {
      SavesOfRest(replies);
      ReplyIsSaved(cfg, id, state, store, replies[0]);
      if IsAnswer(replies[0]) {
        AnswerHistory(cfg, id, state, store, replies);
        AnswerIsOneCall(cfg, id, state, store, replies[0]);
      } else {
        var turn := TakeTurnSpec(cfg, id, state, store, replies[0]);
        var rest := LoopSpec(cfg, id, turn.state.iteration, turn.state, turn.store, replies[1..]);
        TakenTurnHistory(cfg, id, state, store, replies);
        TurnIsOneCall(cfg, id, state, store, replies[0]);
        LoopBudget(cfg, id, turn.state.iteration, turn.state, turn.store, replies[1..]);
        SavedForConcat(t, turn.did.actions, rest.did.actions);
      }
    }
  }

  lemma {:induction false} SavesOfRest(replies: seq<Reply>)
    requires SavesSucceed(replies) && replies != [] && replies[0].Reply?
    ensures replies[0].saveOk && SavesSucceed(replies[1..])
  {
    assert replies[0] in replies && forall r | r in replies[1..] :: r in replies;
  }

  lemma {:induction false} AnswerIsOneCall(cfg: Config, id: Request, state: State, store: Store, reply: Reply)
    requires IsAnswer(reply)
    ensures
      var last := AnswerSpec(cfg, id, state, store, reply);
      && last.did.tally.modelCalls == 1 && last.did.tally.modelErrors == 0
      && last.state.iteration == state.iteration + 1 && |last.did.actions| == 1
  {
  }

  lemma {:induction false} TurnIsOneCall(cfg: Config, id: Request, state: State, store: Store, reply: Reply)
    requires reply.Reply?
    ensures
      var tally := TakeTurnSpec(cfg, id, state, store, reply).did.tally;
      tally.modelCalls == 1 && tally.modelErrors == 0
  {
    hide TurnSpec;
  }

  /** The answered model calls over a life. */
  function TotalAnswered(cfg: Config, t: string, store: Store, visits: seq<Visit>): int {
    if visits == [] then 0
    else
      var before, v := visits[..|visits| - 1], visits[|visits| - 1];
      TotalAnswered(cfg, t, store, before)
      + Answered(RunSpec(cfg, Live(cfg, t, store, before), Input(v.messages, t), v.script))
  }

  /** A visit that is not stopped, and whose checkpoints can be read and written. */
  predicate Undisturbed(cfg: Config, t: string, store: Store, v: Visit) {
    && v.script.loadOk && SavesSucceed(v.script.replies)
    && v.cut >= |RunSpec(cfg, store, Input(v.messages, t), v.script).did.actions|
  }

  predicate AllUndisturbed(cfg: Config, t: string, store: Store, visits: seq<Visit>) {
    visits == [] ||
    (AllUndisturbed(cfg, t, store, visits[..|visits| - 1])
     && Undisturbed(cfg, t, Live(cfg, t, store, visits[..|visits| - 1]), visits[|visits| - 1]))
  }

  lemma {:induction false} VisitBudget(cfg: Config, t: string, store: Store, v: Visit)
    requires cfg.dir != "" && Sane(store) && Stores.ValidComponent(t) && Alone(t, v.script.replies)
    requires Undisturbed(cfg, t, store, v)
    ensures
      var p, p' := Persisted(cfg, store, t), Persisted(cfg, Disk(cfg.dir, store, Executed1(cfg, t, store, v)), t);
      Answered(RunSpec(cfg, store, Input(v.messages, t), v.script)) == IterationOf(p') - IterationOf(p)
  {
    hide LoopSpec, Persisted, Disk, SavedFor;
    var input := Input(v.messages, t);
    var actions := RunSpec(cfg, store, input, v.script).did.actions;
    assert Executed1(cfg, t, store, v) == actions;
    SavedThreadsValid(cfg, store, input, v.script);
    PersistedAfter(cfg, store, actions, t);
    StartIsStarted(cfg, store, input, v.script.loadOk);
    LoopBudget(cfg, RequestOf(input, v.script), 0, Started(cfg, store, input), store, v.script.replies);
  }

  /** The budget of a thread is for its whole life: over all its runs, as many model calls are answered as
      the checkpoint counts iterations, at most twenty. */
  lemma {:induction false} BudgetIsForLife(cfg: Config, t: string, store: Store, visits: seq<Visit>)
    requires cfg.dir != "" && Sane(store) && Stores.ValidComponent(t) && AllAlone(t, visits)
    requires Persisted(cfg, store, t) == None && AllUndisturbed(cfg, t, store, visits)
    ensures
      TotalAnswered(cfg, t, store, visits) ==
        IterationOf(Persisted(cfg, Live(cfg, t, store, visits), t)) <= 20
    decreases |visits|
  {
    hide Persisted, Executed1, RunSpec, Undisturbed;
    HistoryIsAppendOnly(cfg, t, store, visits);
    if visits != [] {
      var n := |visits| - 1;
      assert visits[n] in visits && forall v | v in visits[..n] :: v in visits;
      BudgetIsForLife(cfg, t, store, visits[..n]);
      HistoryIsAppendOnly(cfg, t, store, visits[..n]);
      VisitBudget(cfg, t, Live(cfg, t, store, visits[..n]), visits[n]);
    }
  }

  /* ---------- What is lost ---------- */

  /** The states that a run tried to write for a thread, in order. */
  function Attempts(t: string, actions: seq<Action>): seq<State> {
    if actions == [] then []
    else
      var before, a := Attempts(t, actions[..|actions| - 1]), actions[|actions| - 1];
      if a.Saved? && a.threadId == t then before + [a.state] else before
  }

  /** How many of them came after the last one that was written. */
  function Lost(t: string, actions: seq<Action>): nat {
    if actions == [] then 0
    else
      var before, a := Lost(t, actions[..|actions| - 1]), actions[|actions| - 1];
      if !a.Saved? || a.threadId != t then before else if a.ok then 0 else before + 1
  }

  /** Every attempt counts one iteration more than the one before it. */
  predicate Counted(base: int, attempts: seq<State>) {
    forall k | 0 <= k < |attempts| :: attempts[k].iteration == base + 1 + k
  }

  lemma {:induction false} AttemptsConcat(t: string, a: seq<Action>, b: seq<Action>)
    ensures Attempts(t, a + b) == Attempts(t, a) + Attempts(t, b)
    decreases |b|
  {
    if b == [] {
      assert a + b == a;
    } else {
      var n := |b| - 1;
      AttemptsConcat(t, a, b[..n]);
      assert (a + b)[..|a + b| - 1] == a + b[..n];
    }
  }

  lemma {:induction false} NothingAttempted(t: string)
    ensures Attempts(t, []) == []
  {
  }

  lemma {:induction false} OneAttempt(t: string, a: Action)
    ensures Attempts(t, [a]) == if a.Saved? && a.threadId == t then [a.state] else []
  {
    assert [a][..0] == [];
    assert Attempts(t, [a][..0]) == [];
  }

  lemma {:induction false} NoAttempts(t: string, actions: seq<Action>, allowed: set<string>)
    requires NamedThreadsOnly(actions, allowed) && t !in allowed
    ensures Attempts(t, actions) == []
    decreases |actions|
  {
    if actions != [] {
      assert actions[|actions| - 1] in actions;
      NoAttempts(t, actions[..|actions| - 1], allowed);
    }
  }

  lemma {:induction false} TurnAttempts(cfg: Config, id: Request, state: State, store: Store, reply: Reply)
    requires Sane(store) && 0 <= state.iteration < MAX_ITERATIONS && reply.Reply?
    requires id.requestId != "" && Alone(id.threadId, [reply])
    ensures
      var taken := TakeTurnSpec(cfg, id, state, store, reply);
      Attempts(id.threadId, taken.did.actions) == [taken.state] && Sane(taken.store)
  {
    hide TurnSpec, Attempts, Registered, Transcribes;
    var t := id.threadId;
    var ctx := Ctx(t, id.requestId, state.iteration + 1);
    var turn, taken := TurnSpec(cfg, ctx, store, reply.steps), TakeTurnSpec(cfg, id, state, store, reply);
    assert reply in [reply];
    TurnSaves(cfg, t, ctx, store, reply.steps);
    NoAttempts(t, turn.actions, {""} - {t});
    TakenTurnHistory(cfg, id, state, store, [reply]);
    var saved := taken.did.actions[|turn.actions|];
    assert taken.did.actions == turn.actions + [saved];
    AttemptsConcat(t, turn.actions, [saved]);
    OneAttempt(t, saved);
  }

  /** Every answered model call of a loop ends in one attempt to write a checkpoint, which counts it. */
  lemma {:induction false} LoopAttempts(cfg: Config, id: Request, shown: int, state: State, store: Store,
          replies: seq<Reply>)
    requires Sane(store) && 0 <= state.iteration && id.requestId != "" && Alone(id.threadId, replies)
    ensures
      var r := LoopSpec(cfg, id, shown, state, store, replies);
      var attempts := Attempts(id.threadId, r.did.actions);
      Answered(r) == |attempts| && Counted(state.iteration, attempts)
    decreases replies
  {
    hide Attempts, TakeTurnSpec, SaveSpec, Registered;
    var t := id.threadId;
    NothingAttempted(t);
    if state.iteration < MAX_ITERATIONS && replies != [] && replies[0].Reply? {
      if IsAnswer(replies[0]) {
        AnswerIsOneCall(cfg, id, state, store, replies[0]);
        var actions := AnswerSpec(cfg, id, state, store, replies[0]).did.actions;
        assert actions == [actions[0]];
        OneAttempt(t, actions[0]);
      } else {
        var turn := TakeTurnSpec(cfg, id, state, store, replies[0]);
        var rest := LoopSpec(cfg, id, turn.state.iteration, turn.state, turn.store, replies[1..]);
        TurnGrows(cfg, id, state, store, replies[0]);
        TurnAttempts(cfg, id, state, store, replies[0]);
        TurnIsOneCall(cfg, id, state, store, replies[0]);
        LoopAttempts(cfg, id, turn.state.iteration, turn.state, turn.store, replies[1..]);
        AttemptsConcat(t, turn.did.actions, rest.did.actions);
      }
    }
  }

  /** The attempts are those up to the last one that was written, and the lost ones. */
  lemma {:induction false} AttemptsKeptOrLost(t: string, actions: seq<Action>, base: int)
    requires Counted(base, Attempts(t, actions))
    ensures
      var saved := SavedFor(t, actions);
      |Attempts(t, actions)| == (if saved == [] then 0 else saved[|saved| - 1].iteration - base) + Lost(t, actions)
    decreases |actions|
  {
    if actions != [] {
      var init, a := actions[..|actions| - 1], actions[|actions| - 1];
      var before, all := Attempts(t, init), Attempts(t, actions);
      assert before <= all && (|before| < |all| ==> all[|before|] == a.state);
      AttemptsKeptOrLost(t, init, base);
    }
  }

  /** What a visit was answered up to its cut, with an attempt to write it down. */
  function AnswersOf(cfg: Config, t: string, store: Store, v: Visit): nat {
    |Attempts(t, Executed1(cfg, t, store, v))|
  }

  /** Wherever a visit stops and whatever fails in it: its answers are those that the checkpoint gains and those
      that were lost. If it is not stopped, these are all its answered model calls. */
  lemma {:induction false} VisitAnswers(cfg: Config, t: string, store: Store, v: Visit)
    requires cfg.dir != "" && Sane(store) && Stores.ValidComponent(t) && Alone(t, v.script.replies)
    ensures
      var p, p' := Persisted(cfg, store, t), Persisted(cfg, Disk(cfg.dir, store, Executed1(cfg, t, store, v)), t);
      AnswersOf(cfg, t, store, v) == IterationOf(p') - IterationOf(p) + Lost(t, Executed1(cfg, t, store, v))
    ensures
      var r := RunSpec(cfg, store, Input(v.messages, t), v.script);
      v.cut >= |r.did.actions| ==> AnswersOf(cfg, t, store, v) == Answered(r)
  {
    hide LoopSpec, Persisted, Disk, SavedFor, Attempts, Lost, Counted;
    var input := Input(v.messages, t);
    var actions, done := RunSpec(cfg, store, input, v.script).did.actions, Executed1(cfg, t, store, v);
    var rest := if v.cut <= |actions| then actions[v.cut..] else [];
    assert actions == done + rest && (v.cut >= |actions| ==> done == actions);
    AttemptsConcat(t, done, rest);
    RunAttempts(cfg, store, input, v.script);
    CountedPart(IterationOf(Persisted(cfg, store, t)), Attempts(t, done), Attempts(t, rest));
    AttemptsKeptOrLost(t, done, IterationOf(Persisted(cfg, store, t)));
    SavedThreadsValid(cfg, store, input, v.script);
    PersistedAfter(cfg, store, done, t);
  }

  lemma CountedPart(base: int, a: seq<State>, b: seq<State>)
    requires Counted(base, a + b)
    ensures Counted(base, a)
  {
    assert forall k | 0 <= k < |a| :: (a + b)[k] == a[k];
  }

  lemma {:induction false} RunAttempts(cfg: Config, store: Store, input: Input, script: Script)
    requires Sane(store) && Alone(input.threadId, script.replies)
    ensures
      var r := RunSpec(cfg, store, input, script);
      var attempts := Attempts(input.threadId, r.did.actions);
      Answered(r) == |attempts| && Counted(IterationOf(Persisted(cfg, store, input.threadId)), attempts)
  {
    hide LoopSpec;
    StartIsStarted(cfg, store, input, script.loadOk);
    StartedIteration(cfg, store, input);
    match StartState(cfg, store, input, script.loadOk)
    case None =>
    case Some(state) => LoopAttempts(cfg, RequestOf(input, script), 0, state, store, script.replies);
  }

  function AllAnswers(cfg: Config, t: string, store: Store, visits: seq<Visit>): nat {
    if visits == [] then 0
    else
      var before, v := visits[..|visits| - 1], visits[|visits| - 1];
      AllAnswers(cfg, t, store, before) + AnswersOf(cfg, t, Live(cfg, t, store, before), v)
  }

  function AllLost(cfg: Config, t: string, store: Store, visits: seq<Visit>): nat {
    if visits == [] then 0
    else
      var before, v := visits[..|visits| - 1], visits[|visits| - 1];
      AllLost(cfg, t, store, before) + Lost(t, Executed1(cfg, t, Live(cfg, t, store, before), v))
  }

  /** Over a life with any failures and crashes: the answers are as many as the checkpoint counts, at most twenty,
      and as many again as were lost with an unwritten checkpoint at the end of a visit. */
  lemma {:induction false} AnswersKeptOrLost(cfg: Config, t: string, store: Store, visits: seq<Visit>)
    requires cfg.dir != "" && Sane(store) && Stores.ValidComponent(t) && AllAlone(t, visits)
    requires Persisted(cfg, store, t) == None
    ensures
      var kept := IterationOf(Persisted(cfg, Live(cfg, t, store, visits), t));
      AllAnswers(cfg, t, store, visits) == kept + AllLost(cfg, t, store, visits) && kept <= 20
    decreases |visits|
  {
    hide Persisted, Executed1, AnswersOf, Lost;
    HistoryIsAppendOnly(cfg, t, store, visits);
    if visits != [] {
      var n := |visits| - 1;
      assert visits[n] in visits && forall v | v in visits[..n] :: v in visits;
      AnswersKeptOrLost(cfg, t, store, visits[..n]);
      HistoryIsAppendOnly(cfg, t, store, visits[..n]);
      VisitAnswers(cfg, t, Live(cfg, t, store, visits[..n]), visits[n]);
    }
  }

  /* ---------- A spent thread ---------- */

  /** Once a thread has used up its iterations, every later run on it fails without asking the model. */
  lemma {:induction false} SpentThreadIsRefused(cfg: Config, store: Store, input: Input, script: Script)
    requires Persisted(cfg, store, input.threadId).Some? && script.loadOk
    ensures
      var r := RunSpec(cfg, store, input, script);
      (Persisted(cfg, store, input.threadId).value.iteration >= 20) <==>
        (r.outcome == ErrorFor(RequestOf(input, script), MaxIterations) && r.did.tally.modelCalls == 0 &&
          r.did.actions == [])
  {
    StartIsStarted(cfg, store, input, script.loadOk);
    var state := Started(cfg, store, input);
    if state.iteration < MAX_ITERATIONS {
      LoopAsksModel(cfg, RequestOf(input, script), 0, state, store, script.replies);
    }
  }

  lemma {:induction false} LoopAsksModel(cfg: Config, id: Request, shown: int, state: State, store: Store,
          replies: seq<Reply>)
    requires state.iteration < MAX_ITERATIONS
    ensures LoopSpec(cfg, id, shown, state, store, replies).did.tally.modelCalls >= 1
  {
  }
}
