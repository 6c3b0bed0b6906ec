/**
 * The Bongo workflow machine: five states, a context record, a fixed table
 * of accepted events per state, one internally raised event and one
 * asynchronous actor whose completion comes back as a later event.
 *
 * The pure part (the raise classifier, the actor's result, the context
 * updaters and the transition table) is written as functions; the running
 * machine is the class `Machine`, whose `Send` drains a FIFO queue of raised
 * events before it returns.
 */
module BongoMachine {

  import opened Wrappers
  import opened JsString

  /** A timestamp supplied by the caller; the machine never inspects it. */
  type Timestamp = string

  datatype StateValue = Idle | Waiting | Command | Process | Done

  /** What the actor produces and what `complete` carries. */
  datatype ProcessedResult = ProcessedResult(originalData: string, processedData: string, timestamp: Timestamp)

  datatype Context = Context(
    processCount: nat,
    startTime: Option<Timestamp>,
    endTime: Option<Timestamp>,
    processedResult: Option<ProcessedResult>,
    lastCommand: Option<string>)

  /** The `{data}` input handed to the actor when `process` is entered. */
  datatype ActorInput = ActorInput(data: string)

  datatype Event =
    | Start                                  // START
    | InputSubmit(data: string)              // input.submit
    | ProcessData(data: string)              // process.data (raised)
    | ProcessCommand(data: string)           // process.command (raised)
    | Complete(result: ProcessedResult)      // complete
    | Reset                                  // RESET
    | ActorDone(output: ProcessedResult)     // the actor's successful completion
    | ActorError                             // the actor's failure

  /** The `notification` emitted to external listeners. */
  datatype Notification = Notification(data: string)

  /** The machine's observable configuration: current state, context and running actor. */
  datatype Config = Config(state: StateValue, ctx: Context, actor: Option<ActorInput>)

  /** One event's transition: the new configuration, the events it raised, the notifications it emitted. */
  datatype Microstep = Microstep(next: Config, raised: seq<Event>, emitted: seq<Notification>)

  /** The result of running a queue of events to completion. */
  datatype Settled = Settled(config: Config, emitted: seq<Notification>)

  const InitialContext := Context(0, None, None, None, None)

  const Initial := Config(Idle, InitialContext, None)

  /** The machine's own invariant: an actor runs exactly while the state is `process`. */
  predicate Consistent(c: Config)
  {
    c.state == Process <==> c.actor.Some?
  }

  /** The `on` keys of each state (for `process`, its actor's completion and failure). */
  predicate Accepts(s: StateValue, e: Event)
  {
    match s
    case Idle => e.Start?
    case Waiting => e.InputSubmit? || e.ProcessData? || e.ProcessCommand?
    case Command => e.Complete?
    case Process => e.ActorDone? || e.ActorError?
    case Done => e.Reset? || e.Start?
  }

  /**
   * `proceedToProcess`: the event raised for `input.submit`. It carries the
   * trimmed data, and is `process.command` exactly when that is "command" or "cmd".
   */
  function ProceedToProcess(data: string): (r: Event)
    ensures r.ProcessCommand? || r.ProcessData?
    ensures r.data == Trim(data)
    ensures r.ProcessCommand? <==> (Trim(data) == "command" || Trim(data) == "cmd")
  {
    var d := Trim(data);
    if d == "command" || d == "cmd" then ProcessCommand(d) else ProcessData(d)
  }

  /** `processDataActor`'s result for input `{data}`, completed at time `now`. */
  function ProcessDataActor(input: ActorInput, now: Timestamp): (r: ProcessedResult)
    ensures r.originalData == input.data
    ensures |r.processedData| == |input.data|
    ensures forall i :: 0 <= i < |input.data| ==> r.processedData[i] == UpperChar(input.data[i])
    ensures r.timestamp == now
  {
    ProcessedResult(input.data, ToUpperCase(input.data), now)
  }

  /** `processCommand`: one notification carrying the data. */
  function ProcessCommandEmit(data: string): seq<Notification>
  {
    [Notification(data)]
  }

  function IncrementCounter(ctx: Context): Context
  {
    ctx.(processCount := ctx.processCount + 1)
  }

  function StoreProcessedResult(ctx: Context, output: ProcessedResult): Context
  {
    ctx.(processedResult := Some(output))
  }

  function ResetContext(ctx: Context): Context
  {
    ctx.(processCount := 0, startTime := None, endTime := None, processedResult := None)
  }

  function RecordStartTime(ctx: Context, now: Timestamp): Context
  {
    ctx.(startTime := Some(now))
  }

  function RecordEndTime(ctx: Context, now: Timestamp): Context
  {
    ctx.(endTime := Some(now))
  }

  function Ignore(c: Config): Microstep
  {
    Microstep(c, [], [])
  }

  /** Entering `process`: `incrementCounter`, then the actor starts on `{data}`. */
  function EnterProcess(c: Config, data: string): Microstep
  {
    Microstep(Config(Process, IncrementCounter(c.ctx), Some(ActorInput(data))), [], [])
  }

  /** Entering `command`: `processCommand` emits the data; the context is untouched. */
  function EnterCommand(c: Config, data: string): Microstep
  {
    Microstep(c.(state := Command), [], ProcessCommandEmit(data))
  }

  /** The transition table applied to one event; `now` is the time the event is handled. */
  function Step(c: Config, e: Event, now: Timestamp): Microstep
  {
    match c.state
    case Idle =>
      if e.Start? then Microstep(c.(state := Waiting, ctx := RecordStartTime(c.ctx, now)), [], [])
      else Ignore(c)
    case Waiting =>
      (match e
       case InputSubmit(d) => Microstep(c, [ProceedToProcess(d)], [])
       case ProcessData(d) => EnterProcess(c, d)
       case ProcessCommand(d) => EnterCommand(c, d)
       case _ => Ignore(c))
    case Command =>
      if e.Complete? then Microstep(c.(state := Done, ctx := c.ctx.(processedResult := Some(e.result))), [], [])
      else Ignore(c)
    case Process =>
      (match e
       case ActorDone(out) => Microstep(Config(Done, RecordEndTime(StoreProcessedResult(c.ctx, out), now), None), [], [])
       case ActorError => Microstep(Config(Done, RecordEndTime(c.ctx, now), None), [], [])
       case _ => Ignore(c))
    case Done =>
      (match e
       case Reset => Microstep(c.(state := Idle, ctx := ResetContext(c.ctx)), [], [])
       case Start => Microstep(c.(state := Waiting, ctx := RecordStartTime(c.ctx, now)), [], [])
       case _ => Ignore(c))
  }

  /** A measure that every step lowers: a step raises events of less total weight than it consumes. */
  function Weight(e: Event): nat
  {
    if e.InputSubmit? then 2 else 1
  }

  function QueueWeight(q: seq<Event>): nat
  {
    if q == [] then 0 else Weight(q[0]) + QueueWeight(q[1..])
  }

  lemma {:induction false} QueueWeightAppend(a: seq<Event>, b: seq<Event>)
    ensures QueueWeight(a + b) == QueueWeight(a) + QueueWeight(b)
  {
    if a == [] {
      assert a + b == b;
    } else {
      assert (a + b)[1..] == a[1..] + b;
      QueueWeightAppend(a[1..], b);
    }
  }

  /** Only `input.submit` raises, and it raises one event that raises nothing further. */
  lemma StepRaised(c: Config, e: Event, now: Timestamp)
    ensures Step(c, e, now).raised == [] || Step(c, e, now).raised == [ProceedToProcess(e.data)]
    ensures Step(c, e, now).raised != [] ==> e.InputSubmit?
  {
    if !(c.state == Waiting && e.InputSubmit?) {
      match c.state
      case Idle =>
      case Waiting =>
      case Command =>
      case Process =>
      case Done =>
    }
  }

  /** What a step raises weighs less than the event that caused it. */
  lemma StepRaisesLess(c: Config, e: Event, now: Timestamp)
    ensures QueueWeight(Step(c, e, now).raised) < Weight(e)
  {
    StepRaised(c, e, now);
    var r := Step(c, e, now).raised;
    if r != [] {
      var x := ProceedToProcess(e.data);
      assert Weight(x) == 1;
      assert r[1..] == [];
    }
  }

  /** Processing `q` and everything it raises, in FIFO order. */
  function Drain(c: Config, q: seq<Event>, now: Timestamp): Settled
    decreases QueueWeight(q)
  {
    if q == [] then Settled(c, [])
    else
      var m := Step(c, q[0], now);
      QueueWeightAppend(q[1..], m.raised);
      StepRaisesLess(c, q[0], now);
      var rest := Drain(m.next, q[1..] + m.raised, now);
      Settled(rest.config, m.emitted + rest.emitted)
  }

  /** Draining a non-empty queue is one step followed by draining what is left plus what it raised. */
  lemma DrainUnfold(c: Config, q: seq<Event>, now: Timestamp, m: Microstep)
    requires q != [] && m == Step(c, q[0], now)
    ensures Drain(c, q, now).config == Drain(m.next, q[1..] + m.raised, now).config
    ensures Drain(c, q, now).emitted == m.emitted + Drain(m.next, q[1..] + m.raised, now).emitted
  {
  }

  /** What one step of a drain keeps: consistency, a smaller queue and the final outcome. */
  lemma DrainStep(c: Config, q: seq<Event>, now: Timestamp)
    requires q != [] && Consistent(c)
    ensures var m := Step(c, q[0], now);
            var q' := q[1..] + m.raised;
            && Consistent(m.next)
            && QueueWeight(q') < QueueWeight(q)
            && Drain(c, q, now).config == Drain(m.next, q', now).config
            && Drain(c, q, now).emitted == m.emitted + Drain(m.next, q', now).emitted
  {
    var m := Step(c, q[0], now);
    StepPreservesConsistent(c, q[0], now);
    StepRaisesLess(c, q[0], now);
    QueueWeightAppend(q[1..], m.raised);
    DrainUnfold(c, q, now, m);
  }

  lemma AppendAssoc<T>(a: seq<T>, b: seq<T>, c: seq<T>)
    ensures (a + b) + c == a + (b + c)
  {
  }

  /** One external `send(e)`, run to completion. */
  function Macrostep(c: Config, e: Event, now: Timestamp): Settled
  {
    Drain(c, [e], now)
  }

  lemma StepPreservesConsistent(c: Config, e: Event, now: Timestamp)
    requires Consistent(c)
    ensures Consistent(Step(c, e, now).next)
  {
  }

  /** The running machine. */
  class Machine {
    var state: StateValue
    var ctx: Context
    var actor: Option<ActorInput>
    var queue: seq<Event>
    /** Every notification emitted so far, in order. */
    var emitted: seq<Notification>

    function Snapshot(): Config
      reads this
    {
      Config(state, ctx, actor)
    }

    /** Between sends the queue is empty and an actor runs exactly in `process`. */
    ghost predicate Valid()
      reads this
    {
      queue == [] && Consistent(Snapshot())
    }

    constructor ()
      ensures Valid()
      ensures Snapshot() == Initial && emitted == []
    {
      state := Idle;
      ctx := InitialContext;
      actor := None;
      queue := [];
      emitted := [];
    }

    /** `send(e)` at time `now`: handle `e`, then every event raised, before returning. */
    method Send(e: Event, now: Timestamp)
      requires Valid()
      modifies this
      ensures Valid()
      ensures Snapshot() == Macrostep(old(Snapshot()), e, now).config
      ensures emitted == old(emitted) + Macrostep(old(Snapshot()), e, now).emitted
    {
      ghost var goal := Macrostep(Snapshot(), e, now);
      queue := [e];
      while queue != []
        invariant Consistent(Snapshot())
        invariant Drain(Snapshot(), queue, now).config == goal.config
        invariant old(emitted) + goal.emitted == emitted + Drain(Snapshot(), queue, now).emitted
        decreases QueueWeight(queue)
      {
        var c, q, out := Snapshot(), queue, emitted;
        var m := Step(c, q[0], now);
        DrainStep(c, q, now);
        AppendAssoc(out, m.emitted, Drain(m.next, q[1..] + m.raised, now).emitted);
        state, ctx, actor := m.next.state, m.next.ctx, m.next.actor;
        queue := q[1..] + m.raised;
        emitted := out + m.emitted;
      }
    }

    /**
     * The running `processDataActor` finishes at time `t`: its output on the
     * input it was invoked with is delivered as `onDone`, at time `now`.
     */
    method CompleteActor(t: Timestamp, now: Timestamp)
      requires Valid() && actor.Some?
      modifies this
      ensures Valid()
      ensures Snapshot() == Macrostep(old(Snapshot()), ActorDone(ProcessDataActor(old(actor).value, t)), now).config
      ensures emitted == old(emitted)
      ensures state == Done && actor == None && ctx.endTime == Some(now)
      ensures ctx.processedResult
           == Some(ProcessedResult(old(actor).value.data, ToUpperCase(old(actor).value.data), t))
    {
      ghost var c := Snapshot();
      var e := ActorDone(ProcessDataActor(actor.value, t));
      var m := Step(c, e, now);
      DrainUnfold(c, [e], now, m);
      assert [e][1..] + m.raised == [];
      Send(e, now);
    }
  }

}
