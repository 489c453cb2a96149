/** Runs and the audit log together: what any sequence of runs leaves in the log file. */
module EndToEnd {
  import opened Values
  import opened Graphs
  import opened Nesting
  import opened Lifetime
  import Audit
  import Stores
  import Validation

  /* ---------- Log calls against the strict verifier ---------- */

  /** A log call that reaches the file. */
  predicate Written(op: Audit.Op) {
    op.Log? && op.io.write.Writes? && IsJson(op.entry.arguments)
  }

  /** What the strict verifier asks of a run's entry beyond its time. */
  predicate Complete(e: Audit.Entry) {
    HasNames(e) && e.threadId != ""
  }

  /** The entries of runs: restarts of the writer, and log calls in a scope. */
  predicate FromRuns(scope: Scope, ops: seq<Audit.Op>) {
    forall op | op in ops :: op.Log? ==> Shaped(scope, op)
  }

  predicate FromGates(cfg: Config, ops: seq<Audit.Op>) {
    forall op | op in ops :: op.Log? ==> FromGate(cfg, op)
  }

  /** The clock has been set and does not go back. */
  predicate ClockRuns(start: Audit.Timestamp, ops: seq<Audit.Op>) {
    && (forall i | 0 <= i < |ops| && ops[i].Log? :: start <= ops[i].io.now && ops[i].io.now != Audit.ZERO_TIME)
    && (forall i, j | 0 <= i < j < |ops| && ops[i].Log? && ops[j].Log? :: ops[i].io.now <= ops[j].io.now)
  }

  ghost predicate StrictlyAccepted(c: Audit.Codec, s: Audit.LogState) {
    Audit.Accepted(c, Audit.Lines(s.file), true)
  }

  /** The entries in the file; none if it cannot be decoded. */
  function Entries(c: Audit.Codec, s: Audit.LogState): seq<Audit.Entry> {
    match Audit.Decode(c, Audit.Lines(s.file))
    case None => []
    case Some(es) => es
  }

  lemma {:induction false} StepWrites(c: Audit.Codec, s: Audit.LogState, op: Audit.Op)
    requires c.Sound() && Audit.InStep(c, s) && op.Log? && (s.loaded || op.io.readable)
    ensures Audit.LogStep(c, s, op.entry, op.io).1 <==> Written(op)
  {
    if s.file.Some? && !s.loaded {
      Audit.RestartAgreement(c, Audit.Lines(s.file), op.io);
    }
  }

  /** One log call of a run: the file stays strictly valid exactly if the entry is complete or not written. */
  lemma {:induction false} StepStrict(c: Audit.Codec, s: Audit.LogState, op: Audit.Op, scope: Scope)
    requires c.Sound() && Audit.InStep(c, s) && op.Log? && (s.loaded || op.io.readable) && Shaped(scope, op)
    requires Audit.EndTime(Entries(c, s)) <= op.io.now && op.io.now != Audit.ZERO_TIME
    ensures
      var s' := Audit.LogStep(c, s, op.entry, op.io).0;
      && Audit.InStep(c, s')
      && (StrictlyAccepted(c, s') <==> StrictlyAccepted(c, s) && (Written(op) ==> Complete(op.entry)))
      && Audit.EndTime(Entries(c, s')) == if Written(op) then op.io.now else Audit.EndTime(Entries(c, s))
  {
    hide Audit.LogStep, Audit.Decode, Audit.Chained;
    StepWrites(c, s, op);
    Audit.LogKeepsInStep(c, s, op.entry, op.io);
    var es := Entries(c, s);
    if Written(op) {
      Audit.StrictSnoc(es, Audit.Seal(c, op.entry, Audit.EndHash(es), op.io.now));
    }
  }

  /** Every entry that was written is complete. */
  predicate AllComplete(ops: seq<Audit.Op>) {
    forall op | op in ops && Written(op) :: Complete(op.entry)
  }

  /** Nothing so far is later than `end`. */
  predicate Until(start: Audit.Timestamp, ops: seq<Audit.Op>, end: Audit.Timestamp) {
    start <= end && forall op | op in ops && op.Log? :: op.io.now <= end
  }

  lemma {:induction false} AllCompleteSnoc(ops: seq<Audit.Op>, op: Audit.Op)
    ensures AllComplete(ops + [op]) <==> AllComplete(ops) && (Written(op) ==> Complete(op.entry))
  {
    assert forall x | x in ops + [op] :: x in ops || x == op;
    assert op in ops + [op] && forall x | x in ops :: x in ops + [op];
  }

  lemma {:induction false} ClockBefore(start: Audit.Timestamp, ops: seq<Audit.Op>, op: Audit.Op)
    requires ClockRuns(start, ops + [op])
    ensures ClockRuns(start, ops)
    ensures op.Log? ==> Until(start, ops, op.io.now) && op.io.now != Audit.ZERO_TIME
  {
    var all := ops + [op];
    assert forall i | 0 <= i < |ops| :: all[i] == ops[i];
    assert all[|ops|] == op;
  }

  /** Any log calls of runs, with restarts in between: a strictly valid file stays strictly valid exactly
      if every entry that was written is complete. */
  lemma {:induction false} OpsStrict(c: Audit.Codec, s: Audit.LogState, ops: seq<Audit.Op>, scope: Scope,
          end: Audit.Timestamp)
    requires c.Sound() && Audit.InStep(c, s) && StrictlyAccepted(c, s)
    requires Audit.LoadsSucceed(s.loaded, ops) && FromRuns(scope, ops) && ClockRuns(Audit.EndTime(Entries(c, s)), ops)
    requires Until(Audit.EndTime(Entries(c, s)), ops, end)
    ensures
      var s' := Audit.RunOps(c, s, ops);
      && Audit.InStep(c, s')
      && (StrictlyAccepted(c, s') <==> AllComplete(ops))
      && Audit.EndTime(Entries(c, s')) <= end
    decreases |ops|
  {
    hide Audit.LogStep, Audit.Decode, Audit.Chained, Audit.InStep, Audit.EndTime, Audit.LoadsSucceed,
      StrictlyAccepted, Entries, Complete, Written, AllComplete, ClockRuns;
    if ops == [] {
      NoneComplete();
    } else {
      var n := |ops| - 1;
      var init, op := ops[..n], ops[n];
      assert ops == init + [op] && op in ops;
      assert forall x | x in init :: x in ops;
      Audit.LoadsSucceedBefore(s.loaded, ops);
      Audit.RunOpsLoaded(c, s, init);
      ClockBefore(Audit.EndTime(Entries(c, s)), init, op);
      AllCompleteSnoc(init, op);
      OpsStrict(c, s, init, scope, if op.Log? then op.io.now else end);
      var t := Audit.RunOps(c, s, init);
      match op
      case Log(e, io) => StepStrict(c, t, op, scope);
      case Restart =>
        RestartKeeps(c, t);
        NothingWritten(op);
    }
  }

  /** The latest time of a log call, or the start. */
  function LastTime(start: Audit.Timestamp, ops: seq<Audit.Op>): (end: Audit.Timestamp)
    ensures Until(start, ops, end)
  {
    if ops == [] then start
    else
      var end, op := LastTime(start, ops[..|ops| - 1]), ops[|ops| - 1];
      if op.Log? && end < op.io.now then op.io.now else end
  }

  lemma {:induction false} NoneComplete()
    ensures AllComplete([])
  {
  }

  lemma {:induction false} NothingWritten(op: Audit.Op)
    requires op.Restart?
    ensures !Written(op)
  {
  }

  lemma {:induction false} RestartKeeps(c: Audit.Codec, s: Audit.LogState)
    requires Audit.InStep(c, s)
    ensures Audit.InStep(c, Audit.Restarted(s)) && Entries(c, Audit.Restarted(s)) == Entries(c, s)
    ensures StrictlyAccepted(c, Audit.Restarted(s)) <==> StrictlyAccepted(c, s)
  {
  }

  /* ---------- Sequences of runs ---------- */

  /** One run, on a fresh writer or the one before, stopped after `cut` actions (beyond the last: not). */
  datatype Session = Session(input: Input, script: Script, restart: bool, cut: nat)

  datatype World = World(store: Store, log: Audit.LogState)

  function SessionOps(cfg: Config, store: Store, s: Session): seq<Audit.Op> {
    (if s.restart then [Audit.Restart] else []) + Audits(Executed(cfg, store, s.input, s.script, s.cut))
  }

  function RunSession(cfg: Config, c: Audit.Codec, w: World, s: Session): World {
    var done := Executed(cfg, w.store, s.input, s.script, s.cut);
    World(Disk(cfg.dir, w.store, done), LogAll(c, if s.restart then Audit.Restarted(w.log) else w.log, done))
  }

  function RunSessions(cfg: Config, c: Audit.Codec, w: World, sessions: seq<Session>): World {
    if sessions == [] then w
    else RunSession(cfg, c, RunSessions(cfg, c, w, sessions[..|sessions| - 1]), sessions[|sessions| - 1])
  }

  /** All log calls and restarts of a sequence of sessions. */
  function AllOps(cfg: Config, c: Audit.Codec, w: World, sessions: seq<Session>): seq<Audit.Op> {
    if sessions == [] then []
    else
      var before := sessions[..|sessions| - 1];
      AllOps(cfg, c, w, before) + SessionOps(cfg, RunSessions(cfg, c, w, before).store, sessions[|sessions| - 1])
  }

  lemma {:induction false} SessionLog(cfg: Config, c: Audit.Codec, w: World, s: Session)
    ensures RunSession(cfg, c, w, s).log == Audit.RunOps(c, w.log, SessionOps(cfg, w.store, s))
  {
    hide Executed, Audit.LogStep;
    var done := Executed(cfg, w.store, s.input, s.script, s.cut);
    LogsConcat(c, w.log, if s.restart then [Audit.Restart] else [], Audits(done));
    assert [Audit.Restart][..0] == [];
    assert Audit.RunOps(c, w.log, [Audit.Restart]) == Audit.Restarted(Audit.RunOps(c, w.log, [Audit.Restart][..0]));
  }

  predicate SessionsAdmitted(scope: Scope, sessions: seq<Session>) {
    forall s | s in sessions :: s.input.threadId in scope.threads && Admits(scope, s.script)
  }

  lemma {:induction false} SessionsLog(cfg: Config, c: Audit.Codec, w: World, sessions: seq<Session>, scope: Scope)
    requires Sane(w.store) && SessionsAdmitted(scope, sessions)
    ensures
      var w', ops := RunSessions(cfg, c, w, sessions), AllOps(cfg, c, w, sessions);
      w'.log == Audit.RunOps(c, w.log, ops) && FromRuns(scope, ops) && FromGates(cfg, ops) && Sane(w'.store)
    decreases |sessions|
  {
    hide RunSession, SessionOps, Shaped, FromGate, Audit.LogStep;
    if sessions != [] {
      var n := |sessions| - 1;
      var init, s := sessions[..n], sessions[n];
      assert s in sessions && forall x | x in init :: x in sessions;
      SessionsLog(cfg, c, w, init, scope);
      var mid := RunSessions(cfg, c, w, init);
      SessionLog(cfg, c, mid, s);
      LogsConcat(c, w.log, AllOps(cfg, c, w, init), SessionOps(cfg, mid.store, s));
      SessionShape(cfg, c, mid, s, scope);
    }
  }

  lemma {:induction false} SessionShape(cfg: Config, c: Audit.Codec, w: World, s: Session, scope: Scope)
    requires Sane(w.store) && s.input.threadId in scope.threads && Admits(scope, s.script)
    ensures FromRuns(scope, SessionOps(cfg, w.store, s)) && FromGates(cfg, SessionOps(cfg, w.store, s))
    ensures Sane(RunSession(cfg, c, w, s).store)
  {
    hide RunSpec, Disk, Shaped, FromGate;
    var actions := RunSpec(cfg, w.store, s.input, s.script).did.actions;
    var done := Executed(cfg, w.store, s.input, s.script, s.cut);
    var rest := if s.cut <= |actions| then actions[s.cut..] else [];
    RunLawful(cfg, scope, w.store, s.input, s.script);
    assert actions == done + rest;
    AuditsConcat(done, rest);
    ExecutedSane(cfg, w.store, s.input, s.script, s.cut);
  }

  /** Start from a writer in step with its file and let any sequence of runs go by, with sub-agents, failing
      log calls, restarts and crashes: the verifier accepts the file. */
  lemma {:induction false} RunsKeepFileAccepted(cfg: Config, c: Audit.Codec, w: World, sessions: seq<Session>)
    requires c.Sound() && Sane(w.store) && Audit.InStep(c, w.log)
    requires Audit.LoadsSucceed(w.log.loaded, AllOps(cfg, c, w, sessions))
    ensures Audit.Accepted(c, Audit.Lines(RunSessions(cfg, c, w, sessions).log.file), false)
  {
    hide AllOps, RunSessions;
    var scope := Scope((set s | s in sessions :: s.input.threadId) + {""}, false, None);
    forall s | s in sessions ensures s.input.threadId in scope.threads && Admits(scope, s.script) {
      AnyScriptAdmitted(scope, s.script);
    }
    SessionsLog(cfg, c, w, sessions, scope);
    Audit.HistoryAccepted(c, w.log, AllOps(cfg, c, w, sessions));
  }

  /** The strict verifier accepts the file exactly if every entry written on the way is complete. When the
      world gives names to all tools, calls and decisions, that is: if no entry comes from a run on the
      nameless thread. */
  lemma {:induction false} RunsAgainstStrictVerifier(cfg: Config, c: Audit.Codec, w: World, sessions: seq<Session>,
          scope: Scope)
    requires c.Sound() && Sane(w.store) && Audit.InStep(c, w.log) && StrictlyAccepted(c, w.log)
    requires SessionsAdmitted(scope, sessions) && Audit.LoadsSucceed(w.log.loaded, AllOps(cfg, c, w, sessions))
    requires ClockRuns(Audit.EndTime(Entries(c, w.log)), AllOps(cfg, c, w, sessions))
    ensures StrictlyAccepted(c, RunSessions(cfg, c, w, sessions).log) <==>
      AllComplete(AllOps(cfg, c, w, sessions))
    ensures scope.named ==>
      (StrictlyAccepted(c, RunSessions(cfg, c, w, sessions).log) <==>
       forall op | op in AllOps(cfg, c, w, sessions) && Written(op) :: op.entry.threadId != "")
  {
    hide AllOps, RunSessions, Audit.RunOps, HasNames, StrictlyAccepted;
    SessionsLog(cfg, c, w, sessions, scope);
    var ops := AllOps(cfg, c, w, sessions);
    OpsStrict(c, w.log, ops, scope, LastTime(Audit.EndTime(Entries(c, w.log)), ops));
    if scope.named {
      forall op | op in AllOps(cfg, c, w, sessions) && Written(op) 
        ensures Complete(op.entry) <==> op.entry.threadId != ""
      {
        assert Shaped(scope, op);
      }
    }
  }

  /** A fresh writer on a file that is absent, or strictly valid with no blank line behind its entries. */
  lemma {:induction false} FreshWriterIsReady(c: Audit.Codec, file: Option<seq<string>>)
    requires file == None || (Audit.Accepted(c, file.value, true) && Audit.EndsInEntry(c, file.value))
    ensures
      var s := Audit.LogState(file, false, "");
      Audit.InStep(c, s) && StrictlyAccepted(c, s)
  {
    assert Audit.Decode(c, []) == Some([]);
  }

  /** Runs on named threads that start no sub-agent, in a world that names everything and with a clock
      that does not go back: whichever log calls fail, the strict verifier accepts the file they leave. */
  lemma {:induction false} NamedRunsPassStrictVerifier(
    cfg: Config, c: Audit.Codec, store: Store, file: Option<seq<string>>, sessions: seq<Session>, threads: set<string>)
    requires c.Sound() && Sane(store)
    requires file == None || (Audit.Accepted(c, file.value, true) && Audit.EndsInEntry(c, file.value))
    requires "" !in threads && SessionsAdmitted(Scope(threads, true, None), sessions)
    requires
      var w := World(store, Audit.LogState(file, false, ""));
      Audit.LoadsSucceed(w.log.loaded, AllOps(cfg, c, w, sessions)) &&
        ClockRuns(Audit.EndTime(Entries(c, w.log)), AllOps(cfg, c, w, sessions))
    ensures
      var w := World(store, Audit.LogState(file, false, ""));
      StrictlyAccepted(c, RunSessions(cfg, c, w, sessions).log)
  {
    hide AllOps, RunSessions, StrictlyAccepted, Audit.InStep, Audit.Accepted, Complete;
    var w, scope := World(store, Audit.LogState(file, false, "")), Scope(threads, true, None);
    FreshWriterIsReady(c, file);
    RunsAgainstStrictVerifier(cfg, c, w, sessions, scope);
    SessionsLog(cfg, c, w, sessions, scope);
    forall op | op in AllOps(cfg, c, w, sessions) && Written(op) ensures op.entry.threadId != "" {
      assert Shaped(scope, op);
    }
  }

  /* ---------- Sub-agents in the log ---------- */

  /** Every entry that a sub-agent logs carries the empty thread ID, at any depth. */
  lemma {:induction false} SubAgentEntriesAreNameless(cfg: Config, store: Store, description: string, sub: Script)
    requires Sane(store)
    ensures
      var did := RunSpec(SubConfig(cfg, description), store, SubInput(description), sub).did;
      forall op | op in Audits(did.actions) :: op.Log? && op.entry.threadId == ""
  {
    hide RunSpec;
    var scope := Scope({""}, false, None);
    AnyScriptAdmitted(scope, sub);
    RunLawful(SubConfig(cfg, description), scope, store, SubInput(description), sub);
    var did := RunSpec(SubConfig(cfg, description), store, SubInput(description), sub).did;
    forall op | op in Audits(did.actions) ensures op.Log? && op.entry.threadId == "" {
      assert Shaped(scope, op);
    }
  }

  /** The first thing a run does is this call. */
  predicate Begins(cfg: Config, store: Store, input: Input, script: Script, step: Step) {
    var start := StartState(cfg, store, input, script.loadOk);
    && start.Some? && start.value.iteration < MAX_ITERATIONS
    && script.replies != [] && script.replies[0].Reply?
    && script.replies[0].steps != [] && script.replies[0].steps[0] == step
  }

  function FirstCtx(cfg: Config, store: Store, input: Input, script: Script): Ctx {
    var start := StartState(cfg, store, input, script.loadOk);
    var iteration := if start.Some? then start.value.iteration + 1 else 0;
    Ctx(input.threadId, NewRequestId(input.threadId, script.stamp), iteration)
  }

  lemma {:induction false} TurnBeginsWithCall(cfg: Config, ctx: Ctx, store: Store, steps: seq<Step>)
    requires steps != []
    ensures CallSpec(cfg, ctx, store, steps[0]).actions <= TurnSpec(cfg, ctx, store, steps).actions
  {
    hide CallSpec;
  }

  lemma {:induction false} RunBeginsWithCall(cfg: Config, store: Store, input: Input, script: Script, step: Step)
    requires Begins(cfg, store, input, script, step)
    ensures CallSpec(cfg, FirstCtx(cfg, store, input, script), store, step).actions
            <= RunSpec(cfg, store, input, script).did.actions
  {
    hide CallSpec, TakeTurnSpec;
    var state := StartState(cfg, store, input, script.loadOk).value;
    var id, reply := Request(input.threadId, NewRequestId(input.threadId, script.stamp)), script.replies[0];
    TurnBeginsWithCall(cfg, FirstCtx(cfg, store, input, script), store, reply.steps);
    TakenTurnActions(cfg, id, state, store, reply);
    LoopTakesTurn(cfg, id, Progress([], [], Tally(0, 0, 0, 0, 0)), state, store, script.replies);
  }

  lemma {:induction false} TakenTurnActions(cfg: Config, id: Request, state: State, store: Store, reply: Reply)
    requires reply.Reply?
    ensures TurnSpec(cfg, Ctx(id.threadId, id.requestId, state.iteration + 1), store, reply.steps).actions
            <= TakeTurnSpec(cfg, id, state, store, reply).did.actions
  {
    hide TurnSpec;
  }

  lemma {:induction false} GatedCallIsLogged(cfg: Config, ctx: Ctx, store: Store, step: Step)
    requires step.call.name in cfg.tools && ShouldInterrupt(cfg, step.call.name)
    ensures [Logged(RequestEntry(cfg, ctx, step.call), step.requestIO)] <= CallSpec(cfg, ctx, store, step).actions
  {
    hide ExecuteSpec, RequestEntry, DecisionEntry;
  }

  /** A call, approved if it has to be, that starts a sub-agent, which makes a gated call at once, whose
      request reaches the file. */
  predicate SpawnsGatedCall(cfg: Config, store: Store, outer: Step, inner: Step) {
    var description := DescriptionOf(ParseArgs(cfg, outer.call.arguments));
    && Accepts(cfg, outer) && (ShouldInterrupt(cfg, outer.call.name) ==> outer.approval.Granted?)
    && outer.answer.Spawns? && description != ""
    && var sub, task := SubConfig(cfg, description), SubInput(description);
    && Begins(sub, store, task, outer.answer.sub, inner)
    && inner.call.name in cfg.tools && ShouldInterrupt(cfg, inner.call.name)
    && Written(Audit.Log(RequestEntry(sub, FirstCtx(sub, store, task, outer.answer.sub), inner.call), inner.requestIO))
  }

  lemma {:induction false} SpawnedCallIsLogged(cfg: Config, ctx: Ctx, store: Store, outer: Step, inner: Step)
    requires SpawnsGatedCall(cfg, store, outer, inner)
    ensures
      var description := DescriptionOf(ParseArgs(cfg, outer.call.arguments));
      var sub, task := SubConfig(cfg, description), SubInput(description);
      var a := Logged(RequestEntry(sub, FirstCtx(sub, store, task, outer.answer.sub), inner.call), inner.requestIO);
      a in CallSpec(cfg, ctx, store, outer).actions && a.entry.threadId == ""
  {
    hide RunSpec, Begins, StartState, Written, ParseArgs, RequestEntry, CallSpec, MakeCallSpec,
      Validation.SchemaAccepts, ToolSchema;
    var args := ParseArgs(cfg, outer.call.arguments);
    var sub, task := SubConfig(cfg, DescriptionOf(args)), SubInput(DescriptionOf(args));
    var ctx' := FirstCtx(sub, store, task, outer.answer.sub);
    RunBeginsWithCall(sub, store, task, outer.answer.sub, inner);
    GatedCallIsLogged(sub, ctx', store, inner);
    var below := RunSpec(sub, store, task, outer.answer.sub).did.actions;
    assert below[0] == Logged(RequestEntry(sub, ctx', inner.call), inner.requestIO);
    SpawnedActions(cfg, ctx, store, outer);
    EntryOfThread(sub, ctx', inner.call);
  }

  /** What a sub-agent does is part of the call that starts it. */
  lemma {:induction false} SpawnedActions(cfg: Config, ctx: Ctx, store: Store, outer: Step)
    requires Accepts(cfg, outer) && (ShouldInterrupt(cfg, outer.call.name) ==> outer.approval.Granted?) &&
      outer.answer.Spawns?
    requires DescriptionOf(ParseArgs(cfg, outer.call.arguments)) != ""
    ensures
      var description := DescriptionOf(ParseArgs(cfg, outer.call.arguments));
      var below := RunSpec(SubConfig(cfg, description), store, SubInput(description), outer.answer.sub).did.actions;
      forall a | a in below :: a in CallSpec(cfg, ctx, store, outer).actions
  {
    hide RunSpec, ParseArgs, Validation.SchemaAccepts, ToolSchema, RequestEntry, DecisionEntry;
    var args := ParseArgs(cfg, outer.call.arguments);
    var made, executed := MakeCallSpec(cfg, store, outer, args), ExecuteSpec(cfg, ctx, store, outer);
    assert forall a | a in made.actions :: a in executed.actions;
    assert forall a | a in executed.actions :: a in CallSpec(cfg, ctx, store, outer).actions;
  }

  lemma {:induction false} EntryOfThread(cfg: Config, ctx: Ctx, call: ToolCall)
    ensures RequestEntry(cfg, ctx, call).threadId == ctx.threadId
  {
  }

  lemma {:induction false} AuditsMember(actions: seq<Action>, a: Action)
    requires a in actions && a.Logged?
    ensures Audit.Log(a.entry, a.io) in Audits(actions)
  {
    if actions[|actions| - 1] != a {
      AuditsMember(actions[..|actions| - 1], a);
    }
  }

  /** The strict verifier does not take what the code logs for sub-agents: after a run, on whatever thread,
      whose sub-agent gets as far as the gate, it rejects the file, which it accepted before. */
  lemma {:induction false} SubAgentFailsStrictVerifier(
    cfg: Config, c: Audit.Codec, log: Audit.LogState, store: Store, input: Input, script: Script,
    outer: Step, inner: Step)
    requires c.Sound() && Sane(store) && Audit.InStep(c, log) && StrictlyAccepted(c, log)
    requires Begins(cfg, store, input, script, outer) && SpawnsGatedCall(cfg, store, outer, inner)
    requires
      var ops := Audits(RunSpec(cfg, store, input, script).did.actions);
      Audit.LoadsSucceed(log.loaded, ops) && ClockRuns(Audit.EndTime(Entries(c, log)), ops)
    ensures
      var log' := LogAll(c, log, RunSpec(cfg, store, input, script).did.actions);
      Audit.InStep(c, log') && !StrictlyAccepted(c, log')
  {
    hide RunSpec, CallSpec, Begins, Audit.InStep, StrictlyAccepted, Entries, ClockRuns, Shaped, ParseArgs, RequestEntry;
    var actions := RunSpec(cfg, store, input, script).did.actions;
    var ops, scope := Audits(actions), Scope({input.threadId, ""}, false, None);
    AnyScriptAdmitted(scope, script);
    RunLawful(cfg, scope, store, input, script);
    OpsStrict(c, log, ops, scope, LastTime(Audit.EndTime(Entries(c, log)), ops));
    RunBeginsWithCall(cfg, store, input, script, outer);
    SpawnedCallIsLogged(cfg, FirstCtx(cfg, store, input, script), store, outer, inner);
    var description := DescriptionOf(ParseArgs(cfg, outer.call.arguments));
    var sub, task := SubConfig(cfg, description), SubInput(description);
    var a := Logged(RequestEntry(sub, FirstCtx(sub, store, task, outer.answer.sub), inner.call), inner.requestIO);
    AuditsMember(actions, a);
    assert !Complete(a.entry);
  }

  lemma {:induction false} EmptyStoreStarts(cfg: Config, input: Input, script: Script, step: Step)
    requires Stores.ValidComponent(input.threadId) && script.loadOk && script.replies == [Reply("", [step], true)]
    ensures Begins(cfg, map[], input, script, step)
  {
  }

  /** A named tool that starts a sub-agent when it is called with these arguments. */
  predicate StartsSubAgent(cfg: Config, tool: string, arguments: string) {
    && tool != "" && tool in cfg.tools
    && Validation.SchemaAccepts(Some(ToolSchema(cfg, tool)), ParseArgs(cfg, arguments))
    && DescriptionOf(ParseArgs(cfg, arguments)) != ""
  }

  /** A named tool that needs approval. */
  predicate NeedsApproval(cfg: Config, tool: string) {
    tool != "" && tool in cfg.tools && ShouldInterrupt(cfg, tool)
  }

  const STEADY := Audit.LogIO(true, 1, Audit.Writes)

  function InnerStep(gated: string): Step {
    Step(ToolCall("2", gated, ""), Denied("reject", "no"), Fails(""), "", STEADY, STEADY)
  }

  function OuterStep(tool: string, arguments: string, gated: string): Step {
    var answer := Spawns(OneStep(InnerStep(gated)), NotMerged(""));
    Step(ToolCall("1", tool, arguments), Granted("ok"), answer, "", STEADY, STEADY)
  }

  lemma {:induction false} AuditArgsAreJson(cfg: Config, arguments: string)
    requires cfg.json.Decodes()
    ensures IsJson(AuditArgs(cfg, arguments))
  {
  }

  /** In every configuration with a tool that starts a sub-agent and a tool that needs approval, be it the
      same or not, there is a run whose sub-agent comes to the gate. */
  lemma {:induction false} SubAgentAtGate(cfg: Config, input: Input, tool: string, arguments: string, gated: string)
    requires StartsSubAgent(cfg, tool, arguments) && NeedsApproval(cfg, gated) && cfg.json.Decodes()
    requires Stores.ValidComponent(input.threadId)
    ensures
      var outer, inner := OuterStep(tool, arguments, gated), InnerStep(gated);
      && Begins(cfg, map[], input, OneStep(outer), outer) && SpawnsGatedCall(cfg, map[], outer, inner)
      && Admits(Scope({input.threadId, ""}, true, Some(STEADY)), OneStep(outer))
      && Admits(Scope({input.threadId, ""}, true, None), OneStep(outer))
  {
    hide Begins, Validation.SchemaAccepts, ParseArgs, Stores.ValidComponent, NewRequestId, FirstCtx, ToolSchema,
      AuditArgs;
    var outer, inner, description :=
      OuterStep(tool, arguments, gated), InnerStep(gated), DescriptionOf(ParseArgs(cfg, arguments));
    EmptyStoreStarts(cfg, input, OneStep(outer), outer);
    Stores.ValidComponentMeaning("");
    EmptyStoreStarts(SubConfig(cfg, description), SubInput(description), OneStep(inner), inner);
    AuditArgsAreJson(SubConfig(cfg, description), "");
    var scope := Scope({input.threadId, ""}, true, Some(STEADY));
    OneStepAdmitted(Below(scope), inner);
    OneStepAdmitted(scope, outer);
    OneStepAdmitted(Below(scope.(io := None)), inner);
    OneStepAdmitted(scope.(io := None), outer);
  }

  lemma {:induction false} OneStepAdmitted(scope: Scope, step: Step)
    requires AdmitsStep(scope, step)
    ensures Admits(scope, OneStep(step))
  {
  }

  lemma {:induction false} LogsOfOneSession(cfg: Config, c: Audit.Codec, w: World, s: Session)
    ensures AllOps(cfg, c, w, [s]) == SessionOps(cfg, w.store, s)
  {
    hide SessionOps, RunSession;
    assert [s][..0] == [];
  }

  /** The log calls of a session that meet with the same readable file, working disk and clock. */
  lemma {:induction false} SteadyOps(scope: Scope, ops: seq<Audit.Op>)
    requires FromRuns(scope, ops) && scope.io == Some(STEADY)
    ensures ClockRuns(Audit.ZERO_TIME, ops) && Audit.LoadsSucceed(false, ops)
  {
    forall i | 0 <= i < |ops| && ops[i].Log? ensures ops[i].io == STEADY {
      assert ops[i] in ops && Shaped(scope, ops[i]);
    }
  }

  /** Runs on named threads, with sub-agents, in a world that names everything; every writer can load the
      file; the clock runs. */
  ghost predicate NamedHistory(cfg: Config, c: Audit.Codec, store: Store, file: Option<seq<string>>,
          sessions: seq<Session>) {
    var w := World(store, Audit.LogState(file, false, ""));
    && Sane(store) && (file == None || (Audit.Accepted(c, file.value, true) && Audit.EndsInEntry(c, file.value)))
    && (forall s | s in sessions :: s.input.threadId != "")
    && SessionsAdmitted(Scope(Threads(sessions) + {""}, true, None), sessions)
    && Audit.LoadsSucceed(false, AllOps(cfg, c, w, sessions))
    && ClockRuns(Audit.EndTime(Entries(c, w.log)), AllOps(cfg, c, w, sessions))
  }

  function Threads(sessions: seq<Session>): set<string> {
    set s | s in sessions :: s.input.threadId
  }

  ghost predicate LeftStrict(cfg: Config, c: Audit.Codec, store: Store, file: Option<seq<string>>,
          sessions: seq<Session>) {
    StrictlyAccepted(c, RunSessions(cfg, c, World(store, Audit.LogState(file, false, "")), sessions).log)
  }

  ghost predicate AlwaysStrict(cfg: Config, c: Audit.Codec) {
    forall store, file, sessions | NamedHistory(cfg, c, store, file, sessions) ::
      LeftStrict(cfg, c, store, file, sessions)
  }

  lemma {:induction false} StrictWithoutApprovals(
    cfg: Config, c: Audit.Codec, store: Store, file: Option<seq<string>>, sessions: seq<Session>)
    requires c.Sound() && NamedHistory(cfg, c, store, file, sessions)
    requires forall tool :: !NeedsApproval(cfg, tool)
    ensures LeftStrict(cfg, c, store, file, sessions)
  {
    hide AllOps, RunSessions, StrictlyAccepted, Audit.InStep, Audit.Accepted, Complete, SessionsAdmitted,
      Audit.LoadsSucceed, ClockRuns, Entries;
    var w, scope := World(store, Audit.LogState(file, false, "")), Scope(Threads(sessions) + {""}, true, None);
    FreshWriterIsReady(c, file);
    RunsAgainstStrictVerifier(cfg, c, w, sessions, scope);
    SessionsLog(cfg, c, w, sessions, scope);
    NamedLogsNeedApproval(cfg, scope, AllOps(cfg, c, w, sessions));
    assert forall op | op in AllOps(cfg, c, w, sessions) :: !Written(op);
  }

  lemma {:induction false} NamedLogsNeedApproval(cfg: Config, scope: Scope, ops: seq<Audit.Op>)
    requires FromRuns(scope, ops) && FromGates(cfg, ops) && scope.named
    ensures forall op | op in ops && op.Log? :: NeedsApproval(cfg, op.entry.tool)
  {
    forall op | op in ops && op.Log? ensures NeedsApproval(cfg, op.entry.tool) {
      assert Shaped(scope, op) && FromGate(cfg, op);
    }
  }

  /** One run on a named thread, in which a sub-agent comes to the gate. */
  function GateSession(tool: string, arguments: string, gated: string, length: nat): Session {
    Session(Input([], "t"), OneStep(OuterStep(tool, arguments, gated)), false, length)
  }

  lemma {:induction false} GateSessionOps(cfg: Config, c: Audit.Codec, tool: string, arguments: string, gated: string,
          length: nat)
    requires c.Sound() && cfg.json.Decodes() && StartsSubAgent(cfg, tool, arguments) && NeedsApproval(cfg, gated)
    ensures
      var s, w := GateSession(tool, arguments, gated, length), World(map[], Audit.LogState(None, false, ""));
      && SessionsAdmitted(Scope(Threads([s]) + {""}, true, None), [s])
      && ClockRuns(Audit.ZERO_TIME, AllOps(cfg, c, w, [s])) && Audit.LoadsSucceed(false, AllOps(cfg, c, w, [s]))
      && RunSessions(cfg, c, w, [s]).log == Audit.RunOps(c, w.log, AllOps(cfg, c, w, [s]))
  {
    hide AllOps, RunSessions, Admits, Audit.LoadsSucceed, ClockRuns, Begins, SpawnsGatedCall, OuterStep, InnerStep,
      OneStep, FromRuns, FromGates, StartsSubAgent, NeedsApproval, Audit.Codec.Sound, Json.Decodes;
    var s, w := GateSession(tool, arguments, gated, length), World(map[], Audit.LogState(None, false, ""));
    var scope := Scope({"t", ""}, true, Some(STEADY));
    Stores.ValidComponentMeaning("t");
    SubAgentAtGate(cfg, Input([], "t"), tool, arguments, gated);
    assert s in [s] && Threads([s]) + {""} == {"t", ""};
    assert Sane(map[]);
    SessionsLog(cfg, c, w, [s], scope);
    SteadyOps(scope, AllOps(cfg, c, w, [s]));
  }

  lemma {:induction false} GateSessionIsNotStrict(cfg: Config, c: Audit.Codec, tool: string, arguments: string,
          gated: string)
    requires c.Sound() && cfg.json.Decodes() && StartsSubAgent(cfg, tool, arguments) && NeedsApproval(cfg, gated)
    ensures
      var length := |RunSpec(cfg, map[], Input([], "t"), OneStep(OuterStep(tool, arguments, gated))).did.actions|;
      var sessions := [GateSession(tool, arguments, gated, length)];
      NamedHistory(cfg, c, map[], None, sessions) && !LeftStrict(cfg, c, map[], None, sessions)
  {
    hide RunSpec, StrictlyAccepted, Audit.InStep, Complete, Admits, Audit.LoadsSucceed, ClockRuns, Begins,
      SpawnsGatedCall, OneStep, OuterStep, SessionsAdmitted, RunSessions, AllOps, SessionOps;
    var outer, input := OuterStep(tool, arguments, gated), Input([], "t");
    var actions := RunSpec(cfg, map[], input, OneStep(outer)).did.actions;
    var s, w := GateSession(tool, arguments, gated, |actions|), World(map[], Audit.LogState(None, false, ""));
    GateSessionOps(cfg, c, tool, arguments, gated, |actions|);
    LogsOfOneSession(cfg, c, w, s);
    WholeSession(cfg, map[], s);
    FreshWriterIsReady(c, None);
    Stores.ValidComponentMeaning("t");
    SubAgentAtGate(cfg, input, tool, arguments, gated);
    NoEntriesYet(c);
    SubAgentFailsStrictVerifier(cfg, c, w.log, map[], input, OneStep(outer), outer, InnerStep(gated));
  }

  lemma {:induction false} NoEntriesYet(c: Audit.Codec)
    ensures Audit.EndTime(Entries(c, Audit.LogState(None, false, ""))) == Audit.ZERO_TIME
  {
  }

  /** In a configuration with a tool that starts sub-agents, the strict verifier takes whatever named runs
      leave behind, exactly if no named tool needs approval. */
  lemma {:induction false} StrictExactlyWithoutApprovals(cfg: Config, c: Audit.Codec, tool: string, arguments: string)
    requires c.Sound() && cfg.json.Decodes() && StartsSubAgent(cfg, tool, arguments)
    ensures AlwaysStrict(cfg, c) <==> forall name :: !NeedsApproval(cfg, name)
  {
    hide NamedHistory, LeftStrict, StartsSubAgent, NeedsApproval;
    if forall name :: !NeedsApproval(cfg, name) {
      forall store, file, sessions | NamedHistory(cfg, c, store, file, sessions)
        ensures LeftStrict(cfg, c, store, file, sessions)
      {
        StrictWithoutApprovals(cfg, c, store, file, sessions);
      }
    } else {
      var gated :| NeedsApproval(cfg, gated);
      GateSessionIsNotStrict(cfg, c, tool, arguments, gated);
    }
  }

  lemma {:induction false} WholeSession(cfg: Config, store: Store, s: Session)
    requires !s.restart && s.cut == |RunSpec(cfg, store, s.input, s.script).did.actions|
    ensures SessionOps(cfg, store, s) == Audits(RunSpec(cfg, store, s.input, s.script).did.actions)
  {
    hide RunSpec;
    var actions := RunSpec(cfg, store, s.input, s.script).did.actions;
    assert actions[..|actions|] == actions;
    assert [] + Audits(actions) == Audits(actions);
  }

  /** An entry as it was handed in, but for what the writer adds. */
  predicate SameRecord(op: Audit.Op, sealed: Audit.Entry) {
    && op.Log?
    && sealed == op.entry.(timestamp := sealed.timestamp, prevHash := sealed.prevHash, hash := sealed.hash)
    && sealed.timestamp == (if op.entry.timestamp == 0 then op.io.now else op.entry.timestamp)
  }

  predicate AllReachFile(ops: seq<Audit.Op>) {
    forall op | op in ops :: Written(op)
  }

  /** The first k entries are old; every later one records the log call in its place. */
  ghost predicate Records(before: seq<Audit.Entry>, ops: seq<Audit.Op>, es: seq<Audit.Entry>) {
    && |es| == |before| + |ops| && before <= es
    && forall i | 0 <= i < |ops| :: SameRecord(ops[i], es[|before| + i])
  }

  lemma {:induction false} OpIsRecorded(c: Audit.Codec, s: Audit.LogState, op: Audit.Op)
    requires c.Sound() && Audit.InStep(c, s) && Written(op) && (s.loaded || op.io.readable)
    ensures
      var s' := Audit.LogStep(c, s, op.entry, op.io).0;
      && Audit.InStep(c, s')
      && |Entries(c, s')| == |Entries(c, s)| + 1 && Entries(c, s) <= Entries(c, s')
      && SameRecord(op, Entries(c, s')[|Entries(c, s)|])
  {
    hide Audit.LogStep, Audit.Decode, Audit.Chained;
    StepWrites(c, s, op);
    Audit.LogKeepsInStep(c, s, op.entry, op.io);
  }

  lemma {:induction false} OpsAreRecorded(c: Audit.Codec, s: Audit.LogState, ops: seq<Audit.Op>)
    requires c.Sound() && Audit.InStep(c, s) && AllReachFile(ops) && Audit.LoadsSucceed(s.loaded, ops)
    ensures Audit.InStep(c, Audit.RunOps(c, s, ops))
    ensures Records(Entries(c, s), ops, Entries(c, Audit.RunOps(c, s, ops)))
    decreases |ops|
  {
    hide Audit.LogStep, Audit.InStep, Audit.LoadsSucceed, Entries, SameRecord;
    if ops != [] {
      var n := |ops| - 1;
      var init, op := ops[..n], ops[n];
      assert op in ops && forall x | x in init :: x in ops;
      Audit.LoadsSucceedBefore(s.loaded, ops);
      Audit.RunOpsLoaded(c, s, init);
      OpsAreRecorded(c, s, init);
      OpIsRecorded(c, Audit.RunOps(c, s, init), op);
    }
  }

  /** Requests and decisions alternate. */
  predicate PairedEntries(es: seq<Audit.Entry>) {
    es == [] || (|es| >= 2 && PairedEntries(es[..|es| - 2]) && Matching(es[|es| - 2], es[|es| - 1]))
  }

  lemma {:induction false} PairsStayPaired(ops: seq<Audit.Op>, es: seq<Audit.Entry>)
    requires AllReachFile(ops) && Records([], ops, es) && Paired(ops)
    ensures PairedEntries(es)
    decreases |ops|
  {
    if ops != [] {
      var n := |ops| - 2;
      assert forall x | x in ops[..n] :: x in ops;
      PairsStayPaired(ops[..n], es[..n]);
      assert SameRecord(ops[n], es[n]) && SameRecord(ops[n + 1], es[n + 1]);
    }
  }

  /** When every log call of a run and its sub-agents reaches the file, the run appends to the file a
      strict alternation of requests and the decisions on them, however deep the sub-agents go. */
  lemma {:induction false} RunAppendsPairs(cfg: Config, c: Audit.Codec, s: Audit.LogState, store: Store, input: Input,
          script: Script)
    requires c.Sound() && Audit.InStep(c, s) && Sane(store)
    requires
      var ops := Audits(RunSpec(cfg, store, input, script).did.actions);
      AllReachFile(ops) && Audit.LoadsSucceed(s.loaded, ops)
    ensures
      var es, es' := Entries(c, s), Entries(c, LogAll(c, s, RunSpec(cfg, store, input, script).did.actions));
      es <= es' && PairedEntries(es'[|es|..])
  {
    hide RunSpec, Audit.InStep, Audit.RunOps, Entries, Paired, PairedEntries, SameRecord, AllReachFile,
      Audit.LoadsSucceed, Shaped;
    var scope := Scope({input.threadId, ""}, false, None);
    AnyScriptAdmitted(scope, script);
    RunLawful(cfg, scope, store, input, script);
    var ops := Audits(RunSpec(cfg, store, input, script).did.actions);
    OpsAreRecorded(c, s, ops);
    var es, es' := Entries(c, s), Entries(c, Audit.RunOps(c, s, ops));
    PairsStayPaired(ops, es'[|es|..]);
  }
}
