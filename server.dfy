/**
 * The state of `WebSocketServer`: the registry of connected clients, the
 * listening address, and what each client has been sent. A connection is an
 * opaque handle; `client.send` is modelled as appending to that client's outbox.
 */
module Server {
  import opened Wrappers
  import Config

  /** The handle of one open connection (a `WebSocketServerProtocol`). */
  type ClientId = nat

  /** What client `c` has been sent, according to the outboxes `outbox`. */
  function ReceivedIn(outbox: map<ClientId, seq<string>>, c: ClientId): seq<string> {
    if c in outbox then outbox[c] else []
  }

  /**
   * Going from `before` to `after`, each client in `connected` was sent
   * `messages` in order, and no other client was sent anything.
   */
  ghost predicate Delivered(before: map<ClientId, seq<string>>, after: map<ClientId, seq<string>>,
                            connected: set<ClientId>, messages: seq<string>)
  {
    forall c :: ReceivedIn(after, c) == ReceivedIn(before, c) + (if c in connected then messages else [])
  }

  lemma DeliveredThen(a: map<ClientId, seq<string>>, b: map<ClientId, seq<string>>, d: map<ClientId, seq<string>>,
                      connected: set<ClientId>, first: seq<string>, second: seq<string>, total: seq<string>)
    requires Delivered(a, b, connected, first) && Delivered(b, d, connected, second)
    requires total == first + second
    ensures Delivered(a, d, connected, total)
  {
    forall c ensures ReceivedIn(d, c) == ReceivedIn(a, c) + (if c in connected then total else []) {
      assert ReceivedIn(b, c) == ReceivedIn(a, c) + (if c in connected then first else []);
    }
  }

  class WebSocketServer {
    /** `connected_clients`: the clients whose connection handler is running. */
    var connectedClients: set<ClientId>
    /** The messages each client has been sent, oldest first. */
    var outbox: map<ClientId, seq<string>>
    var host: string
    var port: int
    /** `current_websocket`: the most recently connected client. */
    var currentWebsocket: Option<ClientId>

    constructor ()
      ensures connectedClients == {} && outbox == map[]
      ensures host == Config.DefaultHost && port == Config.DefaultPort
      ensures currentWebsocket == None
    {
      connectedClients := {};
      outbox := map[];
      host := Config.DefaultHost;
      port := Config.DefaultPort;
      currentWebsocket := None;
    }

    /** Everything client `c` has been sent so far. */
    function Received(c: ClientId): seq<string>
      reads this
    {
      ReceivedIn(outbox, c)
    }

    /**
     * `initialize(host, port)`. The host is assigned first, so when `int()`
     * rejects the port text the new host stays and the port does not change.
     */
    method Initialize(hostArg: Option<string>, portArg: Option<int>, env: Config.Environment)
      returns (ok: bool)
      modifies this`host, this`port
      ensures host == Config.ResolveHost(hostArg, env)
      ensures ok == Config.ResolvePort(portArg, env).Some?
      ensures port == if ok then Config.ResolvePort(portArg, env).value else old(port)
    {
      host := Config.ResolveHost(hostArg, env);
      var p := Config.ResolvePort(portArg, env);
      ok := p.Some?;
      if ok {
        port := p.value;
      }
    }

    /**
     * `send_message(message)`: every connected client is sent the message
     * exactly once; clients that are not connected are sent nothing, so with
     * no client connected nothing happens.
     */
    method SendMessage(message: string)
      modifies this`outbox
      ensures Delivered(old(outbox), outbox, connectedClients, [message])
      ensures connectedClients == {} ==> outbox == old(outbox)
    {
      if connectedClients != {} {
        var pending := connectedClients;
        while pending != {}
          invariant pending <= connectedClients
          invariant Delivered(old(outbox), outbox, connectedClients - pending, [message])
          decreases pending
        {
          var client :| client in pending;
          outbox := outbox[client := Received(client) + [message]];
          pending := pending - {client};
        }
        assert connectedClients - pending == connectedClients;
      }
    }
  }
}
