/** Streaming a run (agent/deepagent.go): a goroutine sends the events of the run into a channel with room
    for 32 and closes it; a consumer receives. Every interleaving of the two is a schedule of steps. */
module Streaming {
  import opened Graphs
  import opened Traces

  const CAPACITY := 32

  /** The events still to be emitted, the channel, what the consumer has got, and whether it knows the end. */
  datatype Pipe = Pipe(left: seq<Event>, buffer: seq<Event>, closed: bool, received: seq<Event>, over: bool)

  datatype Move = Send | Close | Receive | SeeClosed

  function Opened(trace: seq<Event>): Pipe {
    Pipe(trace, [], false, [], false)
  }

  /** Sending waits for room; receiving waits for an event or for the end of the channel. */
  predicate Enabled(p: Pipe, step: Move) {
    match step
    case Send => p.left != [] && !p.closed && |p.buffer| < CAPACITY
    case Close => p.left == [] && !p.closed
    case Receive => p.buffer != []
    case SeeClosed => p.buffer == [] && p.closed && !p.over
  }

  function Do(p: Pipe, step: Move): Pipe
    requires Enabled(p, step)
  {
    match step
    case Send => p.(left := p.left[1..], buffer := p.buffer + [p.left[0]])
    case Close => p.(closed := true)
    case Receive => p.(buffer := p.buffer[1..], received := p.received + [p.buffer[0]])
    case SeeClosed => p.(over := true)
  }

  /** A schedule that never takes a step that has to wait. */
  predicate Possible(p: Pipe, steps: seq<Move>)
    decreases |steps|
  {
    steps == [] || (Enabled(p, steps[0]) && Possible(Do(p, steps[0]), steps[1..]))
  }

  function After(p: Pipe, steps: seq<Move>): Pipe
    requires Possible(p, steps)
    decreases |steps|
  {
    if steps == [] then p else After(Do(p, steps[0]), steps[1..])
  }

  /** Nothing is lost, doubled or reordered, and the channel is closed only behind the last event. */
  predicate Consistent(trace: seq<Event>, p: Pipe) {
    && p.received + p.buffer + p.left == trace
    && |p.buffer| <= CAPACITY
    && (p.closed ==> p.left == [])
    && (p.over ==> p.closed && p.buffer == [])
  }

  function Work(p: Pipe): nat {
    2 * |p.left| + |p.buffer| + (if p.closed then 0 else 1) + if p.over then 0 else 1
  }

  lemma {:induction false} StepKeepsConsistent(trace: seq<Event>, p: Pipe, step: Move)
    requires Consistent(trace, p) && Enabled(p, step)
    ensures Consistent(trace, Do(p, step)) && Work(Do(p, step)) == Work(p) - 1
  {
    var q := Do(p, step);
    match step
    case Send => assert q.received + q.buffer + q.left == p.received + p.buffer + ([p.left[0]] + p.left[1..]);
    case Receive => assert q.received + q.buffer + q.left == p.received + ([p.buffer[0]] + p.buffer[1..]) + p.left;
    case _ =>
  }

  /** However producer and consumer interleave: the consumer has got a prefix of the trace, and behind it
      the channel holds at most 32 events that follow on; the schedule has not taken more steps than two
      for every event and two for the end. */
  lemma {:induction false} EveryScheduleIsConsistent(trace: seq<Event>, p: Pipe, steps: seq<Move>)
    requires Consistent(trace, p) && Possible(p, steps)
    ensures Consistent(trace, After(p, steps)) && |steps| == Work(p) - Work(After(p, steps))
    decreases |steps|
  {
    if steps != [] {
      StepKeepsConsistent(trace, p, steps[0]);
      EveryScheduleIsConsistent(trace, Do(p, steps[0]), steps[1..]);
    }
  }

  predicate Stuck(p: Pipe) {
    forall step: Move :: !Enabled(p, step)
  }

  /** A consumer that keeps receiving is never left waiting for good: a schedule that cannot go on has
      delivered the whole trace and told the consumer that it is over. */
  lemma {:induction false} DrainingDelivers(trace: seq<Event>, steps: seq<Move>)
    requires Possible(Opened(trace), steps)
    ensures
      var p := After(Opened(trace), steps);
      Stuck(p) <==> p.over
    ensures After(Opened(trace), steps).over <==> |steps| == 2 * |trace| + 2
    ensures After(Opened(trace), steps).over ==> After(Opened(trace), steps).received == trace
  {
    EveryScheduleIsConsistent(trace, Opened(trace), steps);
    var p := After(Opened(trace), steps);
    if !p.over {
      assert Enabled(p, Send) || Enabled(p, Close) || Enabled(p, Receive) || Enabled(p, SeeClosed);
    }
  }

  /* ---------- The channel of a run ---------- */

  /** One terminal event, and it comes last. */
  predicate EndsOnce(trace: seq<Event>) {
    trace != [] && Terminal(trace[|trace| - 1]) && forall i | 0 <= i < |trace| - 1 :: !Terminal(trace[i])
  }

  lemma {:induction false} RunEndsOnce(cfg: Config, store: Store, input: Input, script: Script)
    ensures EndsOnce(RunSpec(cfg, store, input, script).did.events)
  {
    hide RunSpec, Drive;
    EventsFollowGrammar(cfg, store, input, script);
    var start := StartState(cfg, store, input, script.loadOk);
    OneTerminalEvent(cfg, RequestOf(input, script), if start.Some? then start.value.iteration else 0,
                     RunSpec(cfg, store, input, script).did.events);
  }

  predicate HasEnd(events: seq<Event>) {
    exists e | e in events :: Terminal(e)
  }

  lemma {:induction false} OnlyWholeTraceHasEnd(trace: seq<Event>, front: seq<Event>, rest: seq<Event>)
    requires front + rest == trace && EndsOnce(trace)
    ensures HasEnd(front) <==> front == trace
    ensures rest == [] ==> front == trace
  {
    assert forall i | 0 <= i < |front| :: front[i] == trace[i];
    if front == trace {
      assert trace[|trace| - 1] in front;
    }
  }

  /** The stream of any run, at any moment of any schedule: a consumer that holds a terminal event holds
      the whole trace, and the channel is closed only after the terminal event went in. */
  lemma {:induction false} TerminalEventEndsStream(cfg: Config, store: Store, input: Input, script: Script,
          steps: seq<Move>)
    requires Possible(Opened(RunSpec(cfg, store, input, script).did.events), steps)
    ensures
      var trace := RunSpec(cfg, store, input, script).did.events;
      var p := After(Opened(trace), steps);
      && (HasEnd(p.received) <==> p.received == trace)
      && (p.closed ==> HasEnd(p.received + p.buffer))
      && (p.over ==> p.received == trace)
  {
    hide RunSpec, EndsOnce, HasEnd, Possible, After;
    var trace := RunSpec(cfg, store, input, script).did.events;
    var p := After(Opened(trace), steps);
    EveryScheduleIsConsistent(trace, Opened(trace), steps);
    RunEndsOnce(cfg, store, input, script);
    assert p.received + (p.buffer + p.left) == trace;
    OnlyWholeTraceHasEnd(trace, p.received, p.buffer + p.left);
    OnlyWholeTraceHasEnd(trace, p.received + p.buffer, p.left);
  }

  /* ---------- A consumer that walks away ---------- */

  predicate ByProducer(steps: seq<Move>) {
    forall step | step in steps :: step == Send || step == Close
  }

  /** What the producer does when nobody receives and there is room for all that is left. */
  function Finish(p: Pipe): seq<Move> {
    seq(|p.left|, _ => Send) + [Close]
  }

  lemma {:induction false} FinishWorks(p: Pipe)
    requires !p.closed && |p.buffer| + |p.left| <= CAPACITY
    ensures Possible(p, Finish(p)) && After(p, Finish(p)).closed && ByProducer(Finish(p))
    decreases |p.left|
  {
    if p.left == [] {
      assert Finish(p) == [Close] && [Close][1..] == [];
      assert Possible(Do(p, Close), []);
    } else {
      var q := Do(p, Send);
      assert Finish(p)[1..] == Finish(q);
      FinishWorks(q);
    }
  }

  lemma {:induction false} ProducerNeedsRoom(p: Pipe, steps: seq<Move>)
    requires Possible(p, steps) && ByProducer(steps)
    requires |p.buffer| <= CAPACITY && (p.closed ==> p.left == [])
    ensures
      var q := After(p, steps);
      && |q.buffer| + |q.left| == |p.buffer| + |p.left|
      && |q.buffer| <= CAPACITY && (q.closed ==> q.left == [])
    decreases |steps|
  {
    if steps != [] {
      assert steps[0] in steps && forall x | x in steps[1..] :: x in steps;
      ProducerNeedsRoom(Do(p, steps[0]), steps[1..]);
    }
  }

  /** When the consumer stops receiving, the goroutine can still end, and close the channel, exactly if no
      more than 32 events of the run have not been received. Otherwise it waits forever. */
  lemma {:induction false} AbandonedProducerEnds(trace: seq<Event>, steps: seq<Move>)
    requires Possible(Opened(trace), steps) && !After(Opened(trace), steps).closed
    ensures
      var p := After(Opened(trace), steps);
      (exists more :: Possible(p, more) && ByProducer(more) && After(p, more).closed)
      <==> |trace| - |p.received| <= 32
  {
    EveryScheduleIsConsistent(trace, Opened(trace), steps);
    var p := After(Opened(trace), steps);
    if |trace| - |p.received| <= CAPACITY {
      FinishWorks(p);
      var more := Finish(p);
      assert Possible(p, more) && ByProducer(more) && After(p, more).closed;
    }
    forall more | Possible(p, more) && ByProducer(more) && After(p, more).closed
      ensures |trace| - |p.received| <= CAPACITY
    {
      ProducerNeedsRoom(p, more);
    }
  }

  lemma {:induction false} CallsAndReturns(events: seq<Event>)
    ensures Count(AnyToolCall, events) + Count(AnyReturn, events) <= |events|
  {
    if events != [] {
      CallsAndReturns(events[..|events| - 1]);
    }
  }

  /** A run that executes sixteen calls has more events than the channel holds: a call, a return, and the
      terminal event. */
  lemma {:induction false} SixteenCallsAreTooMany(cfg: Config, store: Store, input: Input, script: Script)
    requires RunCalls(cfg, store, input, script).registered - RunCalls(cfg, store, input, script).heldBack >= 16
    ensures |RunSpec(cfg, store, input, script).did.events| > 32
  {
    hide RunSpec, RunCalls, Count;
    var did := RunSpec(cfg, store, input, script).did;
    RunEndsOnce(cfg, store, input, script);
    var init, last := did.events[..|did.events| - 1], did.events[|did.events| - 1];
    RunCounts(cfg, store, input, script);
    SummaryMatchesEvents(cfg, store, input, script);
    assert did.events == init + [last];
    CountSnoc(AnyToolCall, init, last);
    CountSnoc(AnyReturn, init, last);
    CallsAndReturns(init);
  }

  predicate Ungated(cfg: Config, steps: seq<Step>) {
    forall step | step in steps :: step.call.name in cfg.tools && !ShouldInterrupt(cfg, step.call.name)
  }

  lemma {:induction false} UngatedCalls(cfg: Config, steps: seq<Step>)
    requires Ungated(cfg, steps)
    ensures Registered(cfg, steps) == steps && HeldBackOf(cfg, steps) == 0
  {
    if steps != [] {
      assert steps[0] in steps && forall x | x in steps[1..] :: x in steps;
      UngatedCalls(cfg, steps[1..]);
    }
  }

  /** For instance: a turn of sixteen calls or more. If nobody receives, the producer never ends. */
  lemma {:induction false} LongTurnStallsProducer(cfg: Config, store: Store, input: Input, script: Script,
          steps: seq<Step>)
    requires StartState(cfg, store, input, script.loadOk).Some?
    requires StartState(cfg, store, input, script.loadOk).value.iteration < MAX_ITERATIONS
    requires script.replies == [Reply("", steps, true)] && |steps| >= 16 && Ungated(cfg, steps)
    ensures
      var trace := RunSpec(cfg, store, input, script).did.events;
      !exists more :: Possible(Opened(trace), more) && ByProducer(more) && After(Opened(trace), more).closed
  {
    hide RunSpec, TakeTurnSpec, Registered, HeldBackOf, Successes, Possible, After, StartState;
    var state, id := StartState(cfg, store, input, script.loadOk).value, RequestOf(input, script);
    var turn := TakeTurnSpec(cfg, id, state, store, script.replies[0]);
    UngatedCalls(cfg, steps);
    assert script.replies[1..] == [];
    assert LoopCalls(cfg, id, turn.state, turn.store, []) == Calls(0, 0, 0);
    SixteenCallsAreTooMany(cfg, store, input, script);
    NothingDone(Opened(RunSpec(cfg, store, input, script).did.events));
    AbandonedProducerEnds(RunSpec(cfg, store, input, script).did.events, []);
  }

  lemma {:induction false} NothingDone(p: Pipe)
    ensures Possible(p, []) && After(p, []) == p
  {
  }
}
