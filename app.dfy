/**
 * `WebSocketServer.handle_connection` with the handler that agent.py installs
 * (`set_message_handler(handle_websocket_message)`): register the client,
 * normalise each frame and hand it to the agent, and unregister the client
 * when the frames end or the handler raises.
 */
module App {
  import opened Wrappers
  import opened Json
  import opened Dispatch
  import opened Normalizer
  import Server
  import Agent

  /**
   * One inbound frame, with what the environment does while it is handled:
   * the reading of `datetime.now().isoformat()` and the behaviour of the executor.
   */
  datatype Delivery = Delivery(raw: string, nowIso: string, execution: ExecResult)

  /** The record `handle_connection` builds from a frame. */
  function RecordOf(frame: Delivery, loads: string -> ParseResult): Record {
    Normalize(frame.raw, loads(frame.raw), frame.nowIso)
  }

  /** The handler calls made for the frames of one connection; the first exception ends them. */
  function Serve(watermark: Option<Time>, frames: seq<Delivery>, loads: string -> ParseResult,
                 fromIso: string -> Option<Time>): (steps: seq<Step>)
    ensures |steps| <= |frames|
    // only the last call can raise ...
    ensures forall i :: 0 <= i < |steps| - 1 ==> !steps[i].outcome.Failed?
    // ... and frames are left unread only after a call raised
    ensures |steps| < |frames| ==> steps != [] && steps[|steps| - 1].outcome.Failed?
    decreases |frames|
  {
    if frames == [] then []
    else
      var step := Handle(watermark, RecordOf(frames[0], loads), fromIso, frames[0].execution);
      if step.outcome.Failed? then [step]
      else [step] + Serve(step.watermark, frames[1..], loads, fromIso)
  }

  /** Handling the first frame of `frames[i..]` extends the calls made so far towards `full`. */
  lemma ServeFrame(watermark: Option<Time>, frames: seq<Delivery>, loads: string -> ParseResult,
                   fromIso: string -> Option<Time>, i: nat, step: Step, done: seq<Step>, full: seq<Step>)
    requires i < |frames|
    requires step == Handle(watermark, RecordOf(frames[i], loads), fromIso, frames[i].execution)
    requires done + Serve(watermark, frames[i..], loads, fromIso) == full
    ensures step.watermark == watermark
    ensures step.outcome.Failed? ==> done + [step] == full
    ensures !step.outcome.Failed? ==> (done + [step]) + Serve(watermark, frames[i + 1..], loads, fromIso) == full
  {
    assert frames[i..][0] == frames[i] && frames[i..][1..] == frames[i + 1..];
    if !step.outcome.Failed? {
      var rest := Serve(watermark, frames[i + 1..], loads, fromIso);
      assert done + ([step] + rest) == (done + [step]) + rest;
    }
  }

  /**
   * A normalised record always has both keys, so the handler never raises a
   * `KeyError` on one; and from the initial state nothing is discarded.
   */
  lemma {:induction false} ServeOutcomes(watermark: Option<Time>, frames: seq<Delivery>, loads: string -> ParseResult,
                                         fromIso: string -> Option<Time>, i: nat)
    requires i < |Serve(watermark, frames, loads, fromIso)|
    ensures Serve(watermark, frames, loads, fromIso)[i].outcome !in {Failed(MissingTimestamp), Failed(MissingText)}
    ensures watermark == None ==> Serve(watermark, frames, loads, fromIso)[i].outcome != Discarded
    decreases |frames|
  {
    var steps := Serve(watermark, frames, loads, fromIso);
    if i > 0 {
      ServeOutcomes(steps[0].watermark, frames[1..], loads, fromIso, i - 1);
    }
  }

  /**
   * The server stamps the record itself: the frame is not a JSON object with
   * both "text" and "timestamp".
   */
  predicate ServerStamped(frame: Delivery, loads: string -> ParseResult) {
    var parsed := loads(frame.raw);
    !(parsed.Parsed? && IsTaskObject(parsed.value) && "timestamp" in parsed.value.fields)
  }

  /**
   * A record stamped by the server can be read whenever its own stamp parses,
   * so the handler call on it is discarded, completes, or fails only because
   * the executor raised, and without a watermark it is not discarded.
   */
  lemma StampedRecordReads(watermark: Option<Time>, frame: Delivery, loads: string -> ParseResult,
                           fromIso: string -> Option<Time>)
    requires ServerStamped(frame, loads) && fromIso(frame.nowIso).Some?
    ensures ReadTask(RecordOf(frame, loads), fromIso).Success?
    ensures var o := Handle(watermark, RecordOf(frame, loads), fromIso, frame.execution).outcome;
      && (o == Discarded || o.Completed? || o == Failed(ExecutorRaised))
      && (watermark == None ==> o != Discarded)
  {
    var record := RecordOf(frame, loads);
    assert record["timestamp"] == JString(frame.nowIso);
    HandleProperties(watermark, record, fromIso, frame.execution);
  }

  /**
   * When `fromIso` reads the server's own `now().isoformat()` stamps, as
   * `datetime.fromisoformat` does, a frame the server stamps never fails on its
   * timestamp: it is discarded as stale, completed, or fails only because the
   * executor raised; from the initial watermark it is always dispatched.
   */
  lemma {:induction false} ServeStamped(watermark: Option<Time>, frames: seq<Delivery>, loads: string -> ParseResult,
                                        fromIso: string -> Option<Time>, i: nat)
    requires forall k :: 0 <= k < |frames| ==> fromIso(frames[k].nowIso).Some?
    requires i < |Serve(watermark, frames, loads, fromIso)|
    requires ServerStamped(frames[i], loads)
    ensures var o := Serve(watermark, frames, loads, fromIso)[i].outcome;
      o == Discarded || o.Completed? || o == Failed(ExecutorRaised)
    ensures watermark == None ==>
      var o := Serve(watermark, frames, loads, fromIso)[i].outcome;
      o.Completed? || o == Failed(ExecutorRaised)
    decreases |frames|
  {
    var steps := Serve(watermark, frames, loads, fromIso);
    if i > 0 {
      ServeStamped(steps[0].watermark, frames[1..], loads, fromIso, i - 1);
    } else {
      StampedRecordReads(watermark, frames[0], loads, fromIso);
    }
  }

  /** One pass of the `async for` loop: normalise the frame and await the handler on it. */
  method HandleFrame(server: Server.WebSocketServer, agent: Agent.TaskAgent, frame: Delivery,
                     loads: string -> ParseResult, fromIso: string -> Option<Time>)
    returns (outcome: Outcome)
    requires agent.Valid() && agent.server == server
    modifies server`outbox, agent
    ensures agent.Valid() && agent.lastCompleted == old(agent.lastCompleted)
    ensures var step := Handle(old(agent.lastCompleted), RecordOf(frame, loads), fromIso, frame.execution);
      && outcome == step.outcome
      && agent.trace == old(agent.trace) + step.events
      && Server.Delivered(old(server.outbox), server.outbox, server.connectedClients, Sent(step.events))
  {
    var record := Normalize(frame.raw, loads(frame.raw), frame.nowIso);
    outcome := agent.HandleWebsocketMessage(record, fromIso, frame.execution);
  }

  /** The outcome of each call, in order. */
  function Outcomes(steps: seq<Step>): (r: seq<Outcome>)
    ensures |r| == |steps| && forall k :: 0 <= k < |steps| ==> r[k] == steps[k].outcome
  {
    seq(|steps|, k requires 0 <= k < |steps| => steps[k].outcome)
  }

  lemma TraceAppend(done: seq<Step>, step: Step)
    ensures Trace(done + [step]) == Trace(done) + step.events
  {
    assert Trace([step]) == step.events by {
      assert [step][1..] == [];
    }
    TraceConcat(done, [step]);
  }

  lemma SentAppend(done: seq<Step>, step: Step)
    ensures Sent(Trace(done + [step])) == Sent(Trace(done)) + Sent(step.events)
  {
    TraceAppend(done, step);
    SentConcat(Trace(done), step.events);
  }

  lemma OutcomesAppend(done: seq<Step>, step: Step)
    ensures Outcomes(done + [step]) == Outcomes(done) + [step.outcome]
  {
  }

  /** The messages of one more handler call join those already delivered. */
  lemma DeliveredAppend(initial: map<Server.ClientId, seq<string>>,
                        before: map<Server.ClientId, seq<string>>, after: map<Server.ClientId, seq<string>>,
                        connected: set<Server.ClientId>, done: seq<Step>, step: Step)
    requires Server.Delivered(initial, before, connected, Sent(Trace(done)))
    requires Server.Delivered(before, after, connected, Sent(step.events))
    ensures Server.Delivered(initial, after, connected, Sent(Trace(done + [step])))
  {
    SentAppend(done, step);
    Server.DeliveredThen(initial, before, after, connected, Sent(Trace(done)), Sent(step.events),
                         Sent(Trace(done + [step])));
  }

  /** The events of one more handler call join the trace. */
  lemma TraceGrows(prefix: seq<Event>, done: seq<Step>, step: Step)
    ensures prefix + Trace(done) + step.events == prefix + Trace(done + [step])
  {
    TraceAppend(done, step);
  }

  /**
   * One iteration of the `async for` loop, from the calls `done` made so far:
   * the next call joins them, and its events and broadcasts join those of
   * `done` since the loop began with the trace `trace0` and the outboxes `outbox0`.
   */
  method ServeNext(server: Server.WebSocketServer, agent: Agent.TaskAgent, frames: seq<Delivery>,
                   loads: string -> ParseResult, fromIso: string -> Option<Time>, i: nat,
                   ghost watermark: Option<Time>, ghost full: seq<Step>, ghost done: seq<Step>,
                   ghost trace0: seq<Event>, ghost outbox0: map<Server.ClientId, seq<string>>)
    returns (outcome: Outcome, ghost next: seq<Step>)
    requires i < |frames|
    requires agent.Valid() && agent.server == server && agent.lastCompleted == watermark
    requires done + Serve(watermark, frames[i..], loads, fromIso) == full
    requires agent.trace == trace0 + Trace(done)
    requires Server.Delivered(outbox0, server.outbox, server.connectedClients, Sent(Trace(done)))
    modifies server`outbox, agent
    ensures agent.Valid() && agent.lastCompleted == watermark
    ensures next == done + [Handle(watermark, RecordOf(frames[i], loads), fromIso, frames[i].execution)]
    ensures outcome == Handle(watermark, RecordOf(frames[i], loads), fromIso, frames[i].execution).outcome
    ensures outcome.Failed? ==> next == full
    ensures !outcome.Failed? ==> next + Serve(watermark, frames[i + 1..], loads, fromIso) == full
    ensures agent.trace == trace0 + Trace(next)
    ensures Server.Delivered(outbox0, server.outbox, server.connectedClients, Sent(Trace(next)))
  {
    var frame := frames[i];
    ghost var before := server.outbox;
    ghost var step := Handle(watermark, RecordOf(frame, loads), fromIso, frame.execution);
    outcome := HandleFrame(server, agent, frame, loads, fromIso);
    ServeFrame(watermark, frames, loads, fromIso, i, step, done, full);
    TraceGrows(trace0, done, step);
    DeliveredAppend(outbox0, before, server.outbox, server.connectedClients, done, step);
    next := done + [step];
  }

  /** The `async for` loop over the frames of one connection; an exception from the handler ends it. */
  method ServeFrames(server: Server.WebSocketServer, agent: Agent.TaskAgent, frames: seq<Delivery>,
                     loads: string -> ParseResult, fromIso: string -> Option<Time>)
    returns (outcomes: seq<Outcome>)
    requires agent.Valid() && agent.server == server
    modifies server`outbox, agent
    ensures agent.Valid() && agent.lastCompleted == old(agent.lastCompleted)
    ensures var steps := Serve(old(agent.lastCompleted), frames, loads, fromIso);
      && outcomes == Outcomes(steps)
      && agent.trace == old(agent.trace) + Trace(steps)
      && Server.Delivered(old(server.outbox), server.outbox, server.connectedClients, Sent(Trace(steps)))
  {
    ghost var watermark := agent.lastCompleted;
    ghost var full := Serve(watermark, frames, loads, fromIso);
    ghost var done: seq<Step> := [];
    outcomes := [];
    var i := 0;
    assert frames[0..] == frames;
    while i < |frames|
      invariant 0 <= i <= |frames|
      invariant agent.Valid() && agent.lastCompleted == watermark
      invariant done + Serve(watermark, frames[i..], loads, fromIso) == full
      invariant outcomes == Outcomes(done)
      invariant agent.trace == old(agent.trace) + Trace(done)
      invariant Server.Delivered(old(server.outbox), server.outbox, server.connectedClients, Sent(Trace(done)))
      decreases |frames| - i
    {
      ghost var step := Handle(watermark, RecordOf(frames[i], loads), fromIso, frames[i].execution);
      var outcome;
      ghost var next;
      outcome, next := ServeNext(server, agent, frames, loads, fromIso, i, watermark, full, done,
                                 old(agent.trace), old(server.outbox));
      OutcomesAppend(done, step);
      done := next;
      outcomes := outcomes + [outcome];
      if outcome.Failed? {
        break;
      }
      i := i + 1;
    }
    if i == |frames| {
      assert frames[i..] == [];
      assert done + [] == done;
    }
  }

  /**
   * The client `ws` connects and sends `frames`. While its frames are being
   * handled it is a member of the registry, so it receives every broadcast
   * along with the other members; afterwards it is gone and the other members
   * are as before.
   */
  method HandleConnection(server: Server.WebSocketServer, agent: Agent.TaskAgent, ws: Server.ClientId,
                          frames: seq<Delivery>, loads: string -> ParseResult, fromIso: string -> Option<Time>)
    returns (outcomes: seq<Outcome>)
    requires agent.Valid() && agent.server == server
    modifies server`connectedClients, server`currentWebsocket, server`outbox, agent
    ensures agent.Valid() && agent.lastCompleted == old(agent.lastCompleted)
    ensures server.connectedClients == old(server.connectedClients) - {ws}
    ensures server.currentWebsocket == Some(ws)
    ensures var steps := Serve(old(agent.lastCompleted), frames, loads, fromIso);
      && outcomes == Outcomes(steps)
      && agent.trace == old(agent.trace) + Trace(steps)
      && Server.Delivered(old(server.outbox), server.outbox, old(server.connectedClients) + {ws}, Sent(Trace(steps)))
  {
    server.connectedClients := server.connectedClients + {ws};
    server.currentWebsocket := Some(ws);
    outcomes := ServeFrames(server, agent, frames, loads, fromIso);
    // finally: the client leaves the registry on every path
    server.connectedClients := server.connectedClients - {ws};
  }
}
