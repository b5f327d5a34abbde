/**
 * The dispatch rule of `handle_websocket_message`, as a function of the
 * state it reads: the completion watermark, the normalised record and what
 * the executor does when it runs. Its side effects are reported as a list of
 * events in the order they happen, so that the lock discipline and the
 * broadcasts can be stated about any run of the handler.
 */
module Dispatch {
  import opened Wrappers
  import opened Json

  /** An instant, as a count of ticks; `datetime` comparisons become `<` on it. */
  type Time = int

  const ProcessingNotice: string := "Processing..."
  /** The decorative suffix of a completion message: a space and U+1F680. */
  const Rocket: string := " \U{1F680}"

  /**
   * What `await agent.run()` does: it returns a history whose
   * `final_result()` may be `None`, or it raises.
   */
  datatype ExecResult = Returned(finalResult: Option<string>) | Raised

  /** The exceptions that leave the handler. */
  datatype HandlerError =
    | MissingTimestamp    // KeyError on message_object["timestamp"]
    | TimestampNotText    // TypeError from fromisoformat on a non-string
    | BadTimestamp        // ValueError from fromisoformat
    | MissingText         // KeyError on message_object["text"]
    | ExecutorRaised      // whatever agent.run() raised

  datatype Outcome = Discarded | Completed(reply: string) | Failed(error: HandlerError)

  /** The observable steps of one handler call. */
  datatype Event =
    | Acquire                   // entering `async with agent_lock`
    | Broadcast(message: string)  // `await send_message(...)`
    | Execute(task: JsonValue)    // `await agent.run()` on the agent built with the task text
    | Release                   // leaving `async with agent_lock`, on every path

  /** The two fields the handler reads from a record. */
  datatype Task = Task(text: JsonValue, timestamp: Time)

  /** One handler call: its outcome, its events, and the watermark afterwards. */
  datatype Step = Step(outcome: Outcome, events: seq<Event>, watermark: Option<Time>)

  /** `f"{result.final_result()} 🚀"`: a missing final result prints as `None`. */
  function ReplyText(finalResult: Option<string>): (s: string)
    ensures finalResult.Some? ==> s == finalResult.value + Rocket
    ensures finalResult.None? ==> s == "None" + Rocket
  {
    match finalResult
    case Some(text) => text + Rocket
    case None => "None" + Rocket
  }

  /**
   * `last_task_completed_timestamp and message_timestamp < last_task_completed_timestamp`.
   * A `datetime` is always truthy, so only an absent watermark short-circuits;
   * the comparison is strict, so a task stamped exactly at the watermark is kept.
   */
  predicate IsStale(watermark: Option<Time>, timestamp: Time)
    ensures watermark == None ==> !IsStale(watermark, timestamp)
    ensures watermark == Some(timestamp) ==> !IsStale(watermark, timestamp)
  {
    watermark.Some? && timestamp < watermark.value
  }

  /**
   * Lines 33-34 of the handler: the timestamp is read and parsed first, then
   * the text. `fromIso` is `datetime.fromisoformat` on strings.
   */
  function ReadTask(record: Record, fromIso: string -> Option<Time>): (r: Result<Task, HandlerError>)
    ensures r.Success? <==>
      && "timestamp" in record && record["timestamp"].JString?
      && fromIso(record["timestamp"].s).Some? && "text" in record
    ensures r.Success? ==>
      r.value == Task(record["text"], fromIso(record["timestamp"].s).value)
    ensures "timestamp" !in record ==> r == Failure(MissingTimestamp)
    ensures "timestamp" in record && !record["timestamp"].JString? ==> r == Failure(TimestampNotText)
    ensures "timestamp" in record && record["timestamp"].JString? && fromIso(record["timestamp"].s).None? ==>
      r == Failure(BadTimestamp)
    ensures ("timestamp" in record && record["timestamp"].JString? && fromIso(record["timestamp"].s).Some? &&
             "text" !in record) ==> r == Failure(MissingText)
    ensures r.Failure? && r.error == MissingText ==>
      "timestamp" in record && record["timestamp"].JString? && fromIso(record["timestamp"].s).Some?
  {
    if "timestamp" !in record then Failure(MissingTimestamp)
    else match record["timestamp"]
      case JString(iso) =>
        (match fromIso(iso)
         case None => Failure(BadTimestamp)
         case Some(t) =>
           if "text" !in record then Failure(MissingText)
           else Success(Task(record["text"], t)))
      case _ => Failure(TimestampNotText)
  }

  // ----- what a list of events sent and ran -----

  /** The messages broadcast, in order. */
  function Sent(events: seq<Event>): seq<string> {
    if events == [] then []
    else (if events[0].Broadcast? then [events[0].message] else []) + Sent(events[1..])
  }

  /** The tasks the executor was run on, in order. */
  function Executed(events: seq<Event>): seq<JsonValue> {
    if events == [] then []
    else (if events[0].Execute? then [events[0].task] else []) + Executed(events[1..])
  }

  lemma {:induction false} SentConcat(a: seq<Event>, b: seq<Event>)
    ensures Sent(a + b) == Sent(a) + Sent(b)
  {
    if a == [] {
      assert a + b == b;
    } else {
      assert (a + b)[0] == a[0] && (a + b)[1..] == a[1..] + b;
      SentConcat(a[1..], b);
    }
  }

  // ----- the lock, as an automaton over events -----

  /** `Violated` is reached by acquiring a held lock, releasing a free one, or acting outside it. */
  datatype LockState = Free | Held | Violated

  function LockStep(st: LockState, e: Event): LockState {
    match e
    case Acquire => if st == Free then Held else Violated
    case Release => if st == Held then Free else Violated
    case _ => if st == Held then Held else Violated
  }

  function LockAfter(st: LockState, events: seq<Event>): LockState
    decreases |events|
  {
    if events == [] then st else LockAfter(LockStep(st, events[0]), events[1..])
  }

  lemma {:induction false} LockAfterConcat(st: LockState, a: seq<Event>, b: seq<Event>)
    ensures LockAfter(st, a + b) == LockAfter(LockAfter(st, a), b)
    decreases |a|
  {
    if a == [] {
      assert a + b == b;
    } else {
      assert (a + b)[0] == a[0] && (a + b)[1..] == a[1..] + b;
      LockAfterConcat(LockStep(st, a[0]), a[1..], b);
    }
  }

  lemma {:induction false} ViolationIsFinal(events: seq<Event>)
    ensures LockAfter(Violated, events) == Violated
  {
    if events != [] {
      ViolationIsFinal(events[1..]);
    }
  }

  /**
   * In a run that never breaks the lock discipline, the executor only runs
   * while the lock is held, and by a single holder: at most one executor
   * invocation is in flight at any point.
   */
  lemma ExecuteOnlyUnderLock(events: seq<Event>, i: nat)
    requires LockAfter(Free, events) != Violated
    requires i < |events| && (events[i].Execute? || events[i].Broadcast?)
    ensures LockAfter(Free, events[..i]) == Held
  {
    var st := LockAfter(Free, events[..i]);
    assert events == events[..i] + [events[i]] + events[i + 1..];
    LockAfterConcat(Free, events[..i] + [events[i]], events[i + 1..]);
    LockAfterConcat(Free, events[..i], [events[i]]);
    if st != Held {
      ViolationIsFinal(events[i + 1..]);
      assert false;
    }
  }

  // ----- the handler -----

  /** What happens while the lock is held: the notice, the run, and the reply when there is one. */
  function Critical(text: JsonValue, execution: ExecResult): seq<Event> {
    [Broadcast(ProcessingNotice), Execute(text)] +
    match execution
    case Returned(finalResult) => [Broadcast(ReplyText(finalResult))]
    case Raised => []
  }

  /** The events of a task that passed the staleness check. */
  function DispatchEvents(text: JsonValue, execution: ExecResult): seq<Event> {
    [Acquire] + Critical(text, execution) + [Release]
  }

  lemma {:induction false} ExecutedConcat(a: seq<Event>, b: seq<Event>)
    ensures Executed(a + b) == Executed(a) + Executed(b)
  {
    if a == [] {
      assert a + b == b;
    } else {
      assert (a + b)[0] == a[0] && (a + b)[1..] == a[1..] + b;
      ExecutedConcat(a[1..], b);
    }
  }

  /** A run of events that neither takes nor gives back the lock keeps it held. */
  lemma {:induction false} StaysHeld(events: seq<Event>)
    requires forall i :: 0 <= i < |events| ==> !events[i].Acquire? && !events[i].Release?
    ensures LockAfter(Held, events) == Held
  {
    if events != [] {
      StaysHeld(events[1..]);
    }
  }

  /** The dispatch sequence runs the executor once, on the task text. */
  lemma DispatchExecutesOnce(text: JsonValue, execution: ExecResult)
    ensures Executed(DispatchEvents(text, execution)) == [text]
  {
    var c := Critical(text, execution);
    var tail := c[2..];
    assert c == [Broadcast(ProcessingNotice)] + [Execute(text)] + tail;
    assert Executed(tail) == [];
    ExecutedConcat([Acquire] + c, [Release]);
    ExecutedConcat([Acquire], c);
    ExecutedConcat([Broadcast(ProcessingNotice)] + [Execute(text)], tail);
    ExecutedConcat([Broadcast(ProcessingNotice)], [Execute(text)]);
  }

  /** The dispatch sequence announces the task, then reports the result only when there is one. */
  lemma DispatchSends(text: JsonValue, execution: ExecResult)
    ensures Sent(DispatchEvents(text, execution)) ==
      if execution.Returned? then [ProcessingNotice, ReplyText(execution.finalResult)] else [ProcessingNotice]
  {
    var c := Critical(text, execution);
    var tail := c[2..];
    assert c == [Broadcast(ProcessingNotice)] + [Execute(text)] + tail;
    assert Sent(tail) == if execution.Returned? then [ReplyText(execution.finalResult)] else [];
    SentConcat([Acquire] + c, [Release]);
    SentConcat([Acquire], c);
    SentConcat([Broadcast(ProcessingNotice)] + [Execute(text)], tail);
    SentConcat([Broadcast(ProcessingNotice)], [Execute(text)]);
  }

  /** The dispatch sequence takes the free lock and gives it back. */
  lemma DispatchReleases(text: JsonValue, execution: ExecResult)
    ensures LockAfter(Free, DispatchEvents(text, execution)) == Free
  {
    var c := Critical(text, execution);
    StaysHeld(c);
    LockAfterConcat(Free, [Acquire] + c, [Release]);
    LockAfterConcat(Free, [Acquire], c);
  }

  /**
   * One call of `handle_websocket_message(record)` with the watermark
   * `watermark`. Nothing in the handler assigns the watermark.
   */
  function Handle(watermark: Option<Time>, record: Record, fromIso: string -> Option<Time>,
                  execution: ExecResult): (r: Step)
    ensures r.watermark == watermark
  {
    match ReadTask(record, fromIso)
    case Failure(error) => Step(Failed(error), [], watermark)
    case Success(task) =>
      if IsStale(watermark, task.timestamp) then Step(Discarded, [], watermark)
      else
        var outcome := match execution
          case Returned(finalResult) => Completed(ReplyText(finalResult))
          case Raised => Failed(ExecutorRaised);
        Step(outcome, DispatchEvents(task.text, execution), watermark)
  }

  /** What one handler call does, case by case. */
  lemma HandleProperties(watermark: Option<Time>, record: Record, fromIso: string -> Option<Time>,
                         execution: ExecResult)
    // a record that cannot be read raises before anything happens
    ensures ReadTask(record, fromIso).Failure? ==>
      var r := Handle(watermark, record, fromIso, execution);
      r.outcome == Failed(ReadTask(record, fromIso).error) && r.events == []
    // a stale task is dropped: no broadcast, no executor, no lock
    ensures ReadTask(record, fromIso).Success? && IsStale(watermark, ReadTask(record, fromIso).value.timestamp) ==>
      var r := Handle(watermark, record, fromIso, execution);
      r.outcome == Discarded && r.events == []
    // an accepted task runs once under the lock, which is released on both paths
    ensures ReadTask(record, fromIso).Success? && !IsStale(watermark, ReadTask(record, fromIso).value.timestamp) ==>
      var r := Handle(watermark, record, fromIso, execution);
      && r.events != [] && r.events[0] == Acquire && r.events[|r.events| - 1] == Release
      && Executed(r.events) == [ReadTask(record, fromIso).value.text]
    // success: "Processing..." then the reply; failure: only "Processing..."
    ensures ReadTask(record, fromIso).Success? && !IsStale(watermark, ReadTask(record, fromIso).value.timestamp) ==>
      var r := Handle(watermark, record, fromIso, execution);
      match execution
      case Returned(finalResult) =>
        && r.outcome == Completed(ReplyText(finalResult))
        && Sent(r.events) == [ProcessingNotice, ReplyText(finalResult)]
      case Raised =>
        && r.outcome == Failed(ExecutorRaised)
        && Sent(r.events) == [ProcessingNotice]
    // in every case the call leaves the lock as it found it
    ensures LockAfter(Free, Handle(watermark, record, fromIso, execution).events) == Free
  {
    var read := ReadTask(record, fromIso);
    if read.Success? && !IsStale(watermark, read.value.timestamp) {
      DispatchExecutesOnce(read.value.text, execution);
      DispatchSends(read.value.text, execution);
      DispatchReleases(read.value.text, execution);
    }
  }

  // ----- many calls -----

  /** A record handed to the handler, with what the executor would do for it. */
  datatype Submission = Submission(record: Record, execution: ExecResult)

  /** The handler called on each submission in turn, the watermark threaded through. */
  function Replay(watermark: Option<Time>, subs: seq<Submission>, fromIso: string -> Option<Time>): (steps: seq<Step>)
    ensures |steps| == |subs|
  {
    if subs == [] then []
    else
      var step := Handle(watermark, subs[0].record, fromIso, subs[0].execution);
      [step] + Replay(step.watermark, subs[1..], fromIso)
  }

  /** All events of a run of steps, in order. */
  function Trace(steps: seq<Step>): seq<Event> {
    if steps == [] then [] else steps[0].events + Trace(steps[1..])
  }

  lemma {:induction false} TraceConcat(a: seq<Step>, b: seq<Step>)
    ensures Trace(a + b) == Trace(a) + Trace(b)
  {
    if a == [] {
      assert a + b == b;
    } else {
      assert (a + b)[0] == a[0] && (a + b)[1..] == a[1..] + b;
      TraceConcat(a[1..], b);
    }
  }

  /**
   * From the initial state, no submission is ever discarded: the watermark
   * starts as `None` and no call assigns it, so the staleness test never fires.
   */
  lemma {:induction false} NothingDiscardedFromStart(subs: seq<Submission>, fromIso: string -> Option<Time>, i: nat)
    requires i < |subs|
    ensures Replay(None, subs, fromIso)[i].outcome != Discarded
    ensures Replay(None, subs, fromIso)[i].watermark == None
  {
    if i > 0 {
      NothingDiscardedFromStart(subs[1..], fromIso, i - 1);
    }
  }

  /** However many calls run, each takes and gives back the lock: it is free afterwards. */
  lemma {:induction false} ReplayLeavesLockFree(watermark: Option<Time>, subs: seq<Submission>, fromIso: string -> Option<Time>)
    ensures LockAfter(Free, Trace(Replay(watermark, subs, fromIso))) == Free
  {
    if subs != [] {
      var steps := Replay(watermark, subs, fromIso);
      var step := steps[0];
      assert steps[1..] == Replay(step.watermark, subs[1..], fromIso);
      HandleProperties(watermark, subs[0].record, fromIso, subs[0].execution);
      LockAfterConcat(Free, step.events, Trace(steps[1..]));
      ReplayLeavesLockFree(step.watermark, subs[1..], fromIso);
    }
  }
}
