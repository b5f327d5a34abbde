/**
 * The module-level state of agent.py (the watermark and the lock) and the
 * handler `handle_websocket_message`, which broadcasts through the server.
 * Handler calls run one after another; the lock is a flag, and a ghost trace
 * records the events of every call so far.
 */
module Agent {
  import opened Wrappers
  import opened Json
  import opened Dispatch
  import Server

  class TaskAgent {
    /** The server whose `send_message` the handler awaits. */
    const server: Server.WebSocketServer
    /** `last_task_completed_timestamp`. */
    var lastCompleted: Option<Time>
    /** Whether `agent_lock` is held. */
    var busy: bool
    /** Every event of every handler call so far. */
    ghost var trace: seq<Event>

    /** Between handler calls the lock is free and every call so far kept the discipline. */
    ghost predicate Valid()
      reads this
    {
      !busy && LockAfter(Free, trace) == Free
    }

    /** The state at import time: no watermark, the lock free. */
    constructor (server: Server.WebSocketServer)
      ensures Valid() && this.server == server
      ensures lastCompleted == None && trace == []
    {
      this.server := server;
      lastCompleted := None;
      busy := false;
      trace := [];
    }

    /**
     * `handle_websocket_message(record)`, with `fromIso` for
     * `datetime.fromisoformat` and `execution` for what `agent.run()` does.
     * The new state is the one `Handle` describes: the watermark is unchanged,
     * and every connected client is sent exactly the messages of the call.
     */
    method HandleWebsocketMessage(record: Record, fromIso: string -> Option<Time>, execution: ExecResult)
      returns (outcome: Outcome)
      requires Valid()
      modifies this, server`outbox
      ensures Valid()
      ensures outcome == Handle(old(lastCompleted), record, fromIso, execution).outcome
      ensures trace == old(trace) + Handle(old(lastCompleted), record, fromIso, execution).events
      ensures lastCompleted == old(lastCompleted)
      ensures Server.Delivered(old(server.outbox), server.outbox, server.connectedClients,
                               Sent(Handle(old(lastCompleted), record, fromIso, execution).events))
    {
      var read := ReadTask(record, fromIso);
      if read.Failure? {
        outcome := Failed(read.error);
        return;
      }
      var task := read.value;
      if IsStale(lastCompleted, task.timestamp) {
        outcome := Discarded;
        return;
      }
      outcome := RunTask(task.text, execution);
    }

    /**
     * The `async with agent_lock:` block: announce, run the executor on the
     * task text, report its result, and release the lock on both paths.
     */
    method RunTask(text: JsonValue, execution: ExecResult) returns (outcome: Outcome)
      requires Valid()
      modifies this, server`outbox
      ensures Valid() && lastCompleted == old(lastCompleted)
      ensures outcome == match execution
        case Returned(finalResult) => Completed(ReplyText(finalResult))
        case Raised => Failed(ExecutorRaised)
      ensures trace == old(trace) + DispatchEvents(text, execution)
      ensures Server.Delivered(old(server.outbox), server.outbox, server.connectedClients,
                               Sent(DispatchEvents(text, execution)))
    {
      busy := true;
      trace := trace + [Acquire];
      outcome := Locked(text, execution);
      busy := false;
      trace := trace + Critical(text, execution) + [Release];
      assert trace == old(trace) + DispatchEvents(text, execution);
      DispatchReleases(text, execution);
      LockAfterConcat(Free, old(trace), DispatchEvents(text, execution));
    }

    /** The body of the `async with` block, run while the lock is held. */
    method Locked(text: JsonValue, execution: ExecResult) returns (outcome: Outcome)
      requires busy
      modifies server`outbox
      ensures outcome == match execution
        case Returned(finalResult) => Completed(ReplyText(finalResult))
        case Raised => Failed(ExecutorRaised)
      ensures Server.Delivered(old(server.outbox), server.outbox, server.connectedClients,
                               Sent(DispatchEvents(text, execution)))
    {
      server.SendMessage(ProcessingNotice);
      DispatchSends(text, execution);
      match execution {
        case Returned(finalResult) =>
          ghost var notified := server.outbox;
          var reply := ReplyText(finalResult);
          server.SendMessage(reply);
          Server.DeliveredThen(old(server.outbox), notified, server.outbox, server.connectedClients,
                               [ProcessingNotice], [reply], Sent(DispatchEvents(text, execution)));
          outcome := Completed(reply);
        case Raised =>
          outcome := Failed(ExecutorRaised);
      }
    }
  }
}
