/**
 * What the Bongo machine promises, stated about its transition table
 * (`Step`) and about one run-to-completion `send` (`Macrostep`), which
 * `Machine.Send` is proved to implement.
 */
module BongoProperties {

  import opened Wrappers
  import opened JsString
  import opened BongoMachine

  /** A send whose step raises nothing settles after that one step. */
  lemma DrainSingle(c: Config, e: Event, now: Timestamp)
    requires Step(c, e, now).raised == []
    ensures Macrostep(c, e, now) == Settled(Step(c, e, now).next, Step(c, e, now).emitted)
  {
    var m := Step(c, e, now);
    DrainUnfold(c, [e], now, m);
    assert [e][1..] + m.raised == [];
  }

  /** A send whose step raises one event settles after that event's step. */
  lemma DrainRaisedOnce(c: Config, e: Event, now: Timestamp)
    requires |Step(c, e, now).raised| == 1
    requires Step(Step(c, e, now).next, Step(c, e, now).raised[0], now).raised == []
    ensures var m := Step(c, e, now);
            var m' := Step(m.next, m.raised[0], now);
            Macrostep(c, e, now) == Settled(m'.next, m.emitted + m'.emitted)
  {
    var m := Step(c, e, now);
    var x := m.raised[0];
    var m' := Step(m.next, x, now);
    DrainUnfold(c, [e], now, m);
    assert [e][1..] + m.raised == [x];
    DrainUnfold(m.next, [x], now, m');
    assert [x][1..] + m'.raised == [];
  }

  /** From `idle`, START moves to `waiting` and sets only `startTime`. */
  lemma StartFromIdle(c: Config, now: Timestamp)
    requires c.state == Idle
    ensures Macrostep(c, Start, now) == Settled(Config(Waiting, c.ctx.(startTime := Some(now)), c.actor), [])
  {
    DrainSingle(c, Start, now);
  }

  /** In `waiting`, `input.submit` changes nothing itself and raises the classified, trimmed event. */
  lemma SubmitRaisesClassified(c: Config, d: string, now: Timestamp)
    requires c.state == Waiting
    ensures Step(c, InputSubmit(d), now) == Microstep(c, [ProceedToProcess(d)], [])
  {
  }

  /**
   * The classifier in terms of the submitted text itself: white space around
   * a trimmed word does not matter, and only "command" and "cmd" are commands.
   */
  lemma ClassifyPadded(p: string, w: string, q: string)
    requires AllWhite(p) && AllWhite(q) && IsTrimmed(w)
    ensures ProceedToProcess(p + w + q)
         == if w == "command" || w == "cmd" then ProcessCommand(w) else ProcessData(w)
  {
    TrimOfPadded(p, w, q);
  }

  /**
   * The other direction of ClassifyPadded: a submission classified as a
   * command is "command" or "cmd" with only white space around it.
   */
  lemma CommandIsPaddedKeyword(d: string) returns (p: string, q: string)
    requires ProceedToProcess(d).ProcessCommand?
    ensures AllWhite(p) && AllWhite(q)
    ensures d == p + "command" + q || d == p + "cmd" + q
  {
    p, q := TrimSplit(d);
  }

  /**
   * `input.submit(d)` in `waiting`, run to completion: the raised event has
   * already moved the machine on when `send` returns, to `command` (with one
   * notification carrying the trimmed data, context untouched) or to `process`
   * (count raised by one, actor started on the trimmed data).
   */
  lemma SubmitSettles(c: Config, d: string, now: Timestamp)
    requires c.state == Waiting
    ensures var t := Trim(d);
            Macrostep(c, InputSubmit(d), now)
            == if t == "command" || t == "cmd" then
                 Settled(c.(state := Command), [Notification(t)])
               else
                 Settled(Config(Process, c.ctx.(processCount := c.ctx.processCount + 1), Some(ActorInput(t))), [])
  {
    DrainRaisedOnce(c, InputSubmit(d), now);
  }

  /**
   * The only way into `process` is `process.data` from `waiting`; entering
   * raises `processCount` by exactly one and starts one actor on `{data}`.
   */
  lemma ProcessEntry(c: Config, e: Event, now: Timestamp)
    requires c.state != Process && Step(c, e, now).next.state == Process
    ensures c.state == Waiting && e.ProcessData?
    ensures Step(c, e, now) == Microstep(
              Config(Process, c.ctx.(processCount := c.ctx.processCount + 1), Some(ActorInput(e.data))), [], [])
  {
  }

  /** `processCount` grows by one on entry to `process`, drops to 0 only on RESET from `done`. */
  lemma ProcessCountStep(c: Config, e: Event, now: Timestamp)
    ensures Step(c, e, now).next.ctx.processCount
         == if c.state == Done && e.Reset? then 0
            else if c.state == Waiting && e.ProcessData? then c.ctx.processCount + 1
            else c.ctx.processCount
  {
  }

  /** The actor's success moves `process` to `done`, storing its output and the end time. */
  lemma ActorSucceeds(c: Config, out: ProcessedResult, now: Timestamp)
    requires c.state == Process
    ensures Macrostep(c, ActorDone(out), now)
         == Settled(Config(Done, c.ctx.(processedResult := Some(out), endTime := Some(now)), None), [])
  {
    DrainSingle(c, ActorDone(out), now);
  }

  /**
   * What `done` stores is the actor's output on the very input it was
   * invoked with: the submitted data and its upper-cased copy.
   */
  lemma ActorOutputStored(c: Config, t: Timestamp, now: Timestamp)
    requires Consistent(c) && c.state == Process
    ensures Macrostep(c, ActorDone(ProcessDataActor(c.actor.value, t)), now).config.ctx.processedResult
         == Some(ProcessedResult(c.actor.value.data, ToUpperCase(c.actor.value.data), t))
  {
    ActorSucceeds(c, ProcessDataActor(c.actor.value, t), now);
  }

  /** The actor's failure moves `process` to `done`, setting only the end time. */
  lemma ActorFails(c: Config, now: Timestamp)
    requires c.state == Process
    ensures Macrostep(c, ActorError, now) == Settled(Config(Done, c.ctx.(endTime := Some(now)), None), [])
  {
    DrainSingle(c, ActorError, now);
  }

  /** A completion or failure arriving outside `process` is discarded. */
  lemma StaleCompletionIgnored(c: Config, e: Event, now: Timestamp)
    requires c.state != Process && (e.ActorDone? || e.ActorError?)
    ensures Macrostep(c, e, now) == Settled(c, [])
  {
    DrainSingle(c, e, now);
  }

  /** `process.command` in `waiting` enters `command`, emitting one notification and changing no context. */
  lemma CommandEntry(c: Config, d: string, now: Timestamp)
    requires c.state == Waiting
    ensures Macrostep(c, ProcessCommand(d), now) == Settled(c.(state := Command), [Notification(d)])
  {
    DrainSingle(c, ProcessCommand(d), now);
  }

  /** Only `complete(result)` leaves `command`; it moves to `done` and stores the result. */
  lemma CommandExit(c: Config, e: Event, now: Timestamp)
    requires c.state == Command
    ensures Macrostep(c, e, now).config.state != Command <==> e.Complete?
    ensures Macrostep(c, e, now).emitted == []
    ensures e.Complete? ==>
              Macrostep(c, e, now).config == Config(Done, c.ctx.(processedResult := Some(e.result)), c.actor)
  {
    DrainSingle(c, e, now);
  }

  /** RESET from `done` clears count, times and result, and keeps `lastCommand`. */
  lemma ResetFromDone(c: Config, now: Timestamp)
    requires c.state == Done
    ensures Macrostep(c, Reset, now)
         == Settled(Config(Idle, Context(0, None, None, None, c.ctx.lastCommand), c.actor), [])
  {
    DrainSingle(c, Reset, now);
  }

  /** START from `done` moves to `waiting` and sets only `startTime`. */
  lemma StartFromDone(c: Config, now: Timestamp)
    requires c.state == Done
    ensures Macrostep(c, Start, now) == Settled(Config(Waiting, c.ctx.(startTime := Some(now)), c.actor), [])
  {
    DrainSingle(c, Start, now);
  }

  /** A step changes nothing, raises nothing and emits nothing exactly when the state does not list the event. */
  lemma NoOpIffUnlisted(c: Config, e: Event, now: Timestamp)
    ensures Step(c, e, now) == Microstep(c, [], []) <==> !Accepts(c.state, e)
  {
  }

  /** An unlisted event sent from outside leaves state and context as they were. */
  lemma UnlistedIgnored(c: Config, e: Event, now: Timestamp)
    requires !Accepts(c.state, e)
    ensures Macrostep(c, e, now) == Settled(c, [])
  {
    NoOpIffUnlisted(c, e, now);
    DrainSingle(c, e, now);
  }

  /** Running any queue to completion keeps an actor running exactly in `process`. */
  lemma {:induction false} DrainPreservesConsistent(c: Config, q: seq<Event>, now: Timestamp)
    requires Consistent(c)
    ensures Consistent(Drain(c, q, now).config)
    decreases QueueWeight(q)
  {
    if q != [] {
      var m := Step(c, q[0], now);
      StepPreservesConsistent(c, q[0], now);
      StepRaisesLess(c, q[0], now);
      QueueWeightAppend(q[1..], m.raised);
      DrainUnfold(c, q, now, m);
      DrainPreservesConsistent(m.next, q[1..] + m.raised, now);
    }
  }

  /** No run ever touches `lastCommand`. */
  lemma {:induction false} DrainKeepsLastCommand(c: Config, q: seq<Event>, now: Timestamp)
    ensures Drain(c, q, now).config.ctx.lastCommand == c.ctx.lastCommand
    decreases QueueWeight(q)
  {
    if q != [] {
      var m := Step(c, q[0], now);
      StepRaisesLess(c, q[0], now);
      QueueWeightAppend(q[1..], m.raised);
      DrainUnfold(c, q, now, m);
      DrainKeepsLastCommand(m.next, q[1..] + m.raised, now);
    }
  }

  /** Without a RESET among the events, `processCount` never decreases, raised events included. */
  lemma {:induction false} DrainCountNeverDrops(c: Config, q: seq<Event>, now: Timestamp)
    requires forall i :: 0 <= i < |q| ==> !q[i].Reset?
    ensures Drain(c, q, now).config.ctx.processCount >= c.ctx.processCount
    decreases QueueWeight(q)
  {
    if q != [] {
      var m := Step(c, q[0], now);
      StepRaised(c, q[0], now);
      StepRaisesLess(c, q[0], now);
      QueueWeightAppend(q[1..], m.raised);
      DrainUnfold(c, q, now, m);
      ProcessCountStep(c, q[0], now);
      var q' := q[1..] + m.raised;
      forall i | 0 <= i < |q'| ensures !q'[i].Reset? {
        if i >= |q| - 1 {
          assert q'[i] == m.raised[i - (|q| - 1)];
        } else {
          assert q'[i] == q[i + 1];
        }
      }
      DrainCountNeverDrops(m.next, q', now);
    }
  }

  /** The actor on "hello" reports "hello" as original and "HELLO" as processed data. */
  lemma HelloActor(now: Timestamp)
    ensures ProcessDataActor(ActorInput("hello"), now) == ProcessedResult("hello", "HELLO", now)
  {
    var r := ProcessDataActor(ActorInput("hello"), now);
    assert r.processedData[0] == 'H' && r.processedData[1] == 'E' && r.processedData[2] == 'L';
    assert r.processedData[3] == 'L' && r.processedData[4] == 'O';
  }

  /**
   * The "hello" run from a fresh machine: START, then `input.submit("hello")`
   * lands in `process` with one run counted and the actor started on "hello";
   * the actor's completion yields `done` with "HELLO" as the processed data.
   */
  lemma HelloRun(t0: Timestamp, t1: Timestamp, t2: Timestamp, t3: Timestamp)
    ensures var s1 := Macrostep(Initial, Start, t0).config;
            var s2 := Macrostep(s1, InputSubmit("hello"), t1).config;
            var s3 := Macrostep(s2, ActorDone(ProcessDataActor(ActorInput("hello"), t2)), t3).config;
            && s2 == Config(Process, Context(1, Some(t0), None, None, None), Some(ActorInput("hello")))
            && s3 == Config(Done, Context(1, Some(t0), Some(t3), Some(ProcessedResult("hello", "HELLO", t2)), None), None)
  {
    StartFromIdle(Initial, t0);
    var s1 := Macrostep(Initial, Start, t0).config;
    assert [] + "hello" + [] == "hello";
    TrimOfPadded([], "hello", []);
    SubmitSettles(s1, "hello", t1);
    var s2 := Macrostep(s1, InputSubmit("hello"), t1).config;
    HelloActor(t2);
    ActorSucceeds(s2, ProcessDataActor(ActorInput("hello"), t2), t3);
  }

  /** Submitting " cmd " from `waiting` ends in `command`, not `process`, notifying "cmd". */
  lemma CmdRun(c: Config, now: Timestamp)
    requires c.state == Waiting
    ensures Macrostep(c, InputSubmit(" cmd "), now) == Settled(c.(state := Command), [Notification("cmd")])
  {
    assert " cmd " == " " + "cmd" + " ";
    TrimOfPadded(" ", "cmd", " ");
    SubmitSettles(c, " cmd ", now);
  }

}
