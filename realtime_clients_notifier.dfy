/** A model of the registry of real-time clients of the Sharpbench API
    server.

    The ConcurrentDictionary of the notifier is a map from client id to
    ClientEntry. A WebSocket is reduced to its closed flag and the logs of
    the frames sent on it and of the close requests made on it; a
    TaskCompletionSource is reduced to whether its task is completed. The
    enumeration order of the dictionary is left open: the loops take the
    ids still to visit in any order. */
module SharpbenchApi {

  newtype byte = x: int | 0 <= x < 256

  datatype MessageType = Text | Binary

  /** One message sent on a socket: its payload, whether it is text or
      binary, and whether it is the final fragment of the message. */
  datatype Frame = Frame(payload: seq<byte>, messageType: MessageType, endOfMessage: bool)

  /** A close handshake started on a socket, with its status code and
      reason. */
  datatype CloseRequest = CloseRequest(status: int, reason: string)

  /** The close status "normal closure" (section 7.4.1 of RFC 6455). */
  const NormalClosure := 1000

  /** The message handed to the notifier by the job runner; only its
      payload is modelled. */
  datatype JobMessage = JobMessage(data: seq<byte>)

  datatype RawSegment = ArraySegment(buffer: seq<byte>, offset: nat, count: nat)

  /** An ArraySegment: a window of `count` bytes at `offset` in `buffer`,
      which its constructor guarantees to lie inside the array. */
  type Segment = s: RawSegment | (s.offset + s.count <= |s.buffer|) witness ArraySegment([], 0, 0)

  /** The bytes a segment covers. */
  function Bytes(s: Segment): (b: seq<byte>)
    ensures |b| == s.count
    ensures forall k :: 0 <= k < s.count ==> b[k] == s.buffer[s.offset + k]
  {
    s.buffer[s.offset .. s.offset + s.count]
  }

  /** The segment over a message's whole payload, from offset 0 for its full
      length (server/RealtimeClientsNotifier.cs:31 and 37). */
  function WholeMessage(m: JobMessage): (s: Segment)
    ensures Bytes(s) == m.data
  {
    ArraySegment(m.data, 0, |m.data|)
  }

  /** The socket of one real-time client, as the notifier sees it. */
  class WebSocket {
    /** Whether the socket's state is WebSocketState.Closed. */
    var closed: bool
    /** The frames sent on the socket, oldest first. */
    var sent: seq<Frame>
    /** The close handshakes started on the socket, oldest first. */
    var closeRequests: seq<CloseRequest>

    method SendAsync(buffer: Segment, messageType: MessageType, endOfMessage: bool)
      modifies this
      ensures sent == old(sent) + [Frame(Bytes(buffer), messageType, endOfMessage)]
      ensures closed == old(closed) && closeRequests == old(closeRequests)
    {
      sent := sent + [Frame(Bytes(buffer), messageType, endOfMessage)];
    }

    /** Starts the close handshake; once the awaited task completes, the
        socket is closed. */
    method CloseAsync(status: int, reason: string)
      modifies this
      ensures closeRequests == old(closeRequests) + [CloseRequest(status, reason)]
      ensures closed && sent == old(sent)
    {
      closeRequests := closeRequests + [CloseRequest(status, reason)];
      closed := true;
    }
  }

  /** The handle whose task a connection's request handler awaits. */
  class TaskCompletionSource {
    /** Whether the task has been completed. */
    var completed: bool

    constructor ()
      ensures !completed
    {
      completed := false;
    }

    /** Completes the task; completing it a second time throws, so callers
        must never do it. */
    method SetResult()
      requires !completed
      modifies this
      ensures completed
    {
      completed := true;
    }
  }

  /** The record stored for each registered client. */
  datatype ClientEntry = ClientEntry(clientId: string, socket: WebSocket, taskHandler: TaskCompletionSource)

  function SocketsIn(m: map<string, ClientEntry>): (sockets: set<WebSocket>)
  {
    set id | id in m :: m[id].socket
  }

  function HandlesIn(m: map<string, ClientEntry>): (handles: set<TaskCompletionSource>)
  {
    set id | id in m :: m[id].taskHandler
  }

  /** No two entries share a socket or a handle. */
  predicate Disjoint(m: map<string, ClientEntry>)
  {
    forall id, id' | id in m && id' in m && id != id' ::
      m[id].socket != m[id'].socket && m[id].taskHandler != m[id'].taskHandler
  }

  /** What the notifier can observe of an entry: its socket's state and
      logs, and whether its handle is completed. */
  datatype Observed = Observed(closed: bool, sent: seq<Frame>, closeRequests: seq<CloseRequest>, completed: bool)

  function Observe(e: ClientEntry): (o: Observed)
    reads e.socket, e.taskHandler
  {
    Observed(e.socket.closed, e.socket.sent, e.socket.closeRequests, e.taskHandler.completed)
  }

  /** What the notifier can observe of every entry of `m`. */
  function ObserveAll(m: map<string, ClientEntry>): (obs: map<string, Observed>)
    reads SocketsIn(m), HandlesIn(m)
    ensures obs.Keys == m.Keys
  {
    map id | id in m :: Observe(m[id])
  }

  /** The entries of `m` whose sockets are open according to `obs`. */
  function OpenIn(m: map<string, ClientEntry>, obs: map<string, Observed>): (open: map<string, ClientEntry>)
  {
    map id | id in m && id in obs && !obs[id].closed :: m[id]
  }

  /** An entry observed as `was` after an attempt to send `payload` to it: a
      closed socket gets nothing and its handle is completed; an open socket
      gets the payload as one complete text frame. */
  function AfterSend(was: Observed, payload: seq<byte>): (now: Observed)
  {
    if was.closed then was.(completed := true)
    else was.(sent := was.sent + [Frame(payload, Text, true)])
  }

  /** An entry observed as `was` after shutdown: its socket is closed after
      one close request with normal closure and reason "Closed", and its
      handle is completed. */
  function AfterClose(was: Observed): (now: Observed)
  {
    was.(closed := true, closeRequests := was.closeRequests + [CloseRequest(NormalClosure, "Closed")],
         completed := true)
  }

  twostate predicate Delivered(e: ClientEntry, payload: seq<byte>)
    reads e.socket, e.taskHandler
  {
    Observe(e) == AfterSend(old(Observe(e)), payload)
  }

  twostate predicate ShutDown(e: ClientEntry)
    reads e.socket, e.taskHandler
  {
    Observe(e) == AfterClose(old(Observe(e)))
  }

  /** The entries of `snapshot` still registered part way through a
      broadcast: those not visited yet, and the visited ones whose sockets
      were open. */
  function Remaining(snapshot: map<string, ClientEntry>, before: map<string, Observed>, pending: set<string>)
    : (remaining: map<string, ClientEntry>)
  {
    map id | id in snapshot && id in before && (id in pending || !before[id].closed) :: snapshot[id]
  }

  /** Once every id is visited, the registry keeps exactly the entries whose
      sockets were open. */
  lemma RemainingDone(snapshot: map<string, ClientEntry>, before: map<string, Observed>)
    ensures Remaining(snapshot, before, {}) == OpenIn(snapshot, before)
  {
  }

  lemma RemainingStep(snapshot: map<string, ClientEntry>, before: map<string, Observed>, pending: set<string>,
                      id: string)
    requires id in pending && id in snapshot && id in before
    ensures Remaining(snapshot, before, pending - {id})
         == if before[id].closed then Remaining(snapshot, before, pending) - {id}
            else Remaining(snapshot, before, pending)
  {
  }

  /** The registry of real-time clients. */
  class RealtimeClientsNotifier {
    /** realTimeClients: the registered clients by id. */
    var clients: map<string, ClientEntry>

    function Sockets(): set<WebSocket>
      reads this
    {
      SocketsIn(clients)
    }

    function Handles(): set<TaskCompletionSource>
      reads this
    {
      HandlesIn(clients)
    }

    /** Every entry is stored under its own id, with its own socket and
        handle, and no registered handle has been completed yet, so that
        completing one when its entry leaves never completes it twice. */
    ghost predicate Valid()
      reads this, Handles()
    {
      (forall id | id in clients :: clients[id].clientId == id)
      && (forall id | id in clients :: !clients[id].taskHandler.completed)
      && Disjoint(clients)
    }

    constructor ()
      ensures clients == map[] && Valid()
    {
      clients := map[];
    }

    /** Registers a client with a new handle and returns the handle's task.
        TryAdd never overwrites: when the id is already registered the
        registry is unchanged and the new handle is stored nowhere. */
    method RealTimeSyncWithClient(client: WebSocket, clientId: string) returns (task: TaskCompletionSource)
      requires Valid()
      requires clientId in clients || client !in Sockets()
      modifies this
      ensures Valid()
      ensures fresh(task) && !task.completed
      ensures clientId in old(clients) ==> clients == old(clients)
      ensures clientId !in old(clients) ==> clients == old(clients)[clientId := ClientEntry(clientId, client, task)]
    {
      var tcs := new TaskCompletionSource();
      if clientId !in clients {
        clients := clients[clientId := ClientEntry(clientId, client, tcs)];
      }
      task := tcs;
    }

    /** Sends `message` to the client registered under `clientId`, if there
        is one and its socket is open; a client whose socket is closed is
        removed and its handle completed. */
    method TrySendToClient(clientId: string, message: Segment) returns (sent: bool)
      requires Valid()
      modifies this, if clientId in clients then {clients[clientId].socket} else {}
      modifies if clientId in clients then {clients[clientId].taskHandler} else {}
      ensures Valid()
      ensures sent <==> clientId in old(clients) && !old(clients[clientId].socket.closed)
      ensures clientId !in old(clients) ==> clients == old(clients)
      ensures clientId in old(clients) ==>
        clients == if old(clients[clientId].socket.closed) then old(clients) - {clientId} else old(clients)
      ensures clientId in old(clients) ==> Delivered(old(clients)[clientId], Bytes(message))
    {
      if clientId !in clients {
        return false;
      }
      var clientEntry := clients[clientId];
      if clientEntry.socket.closed {
        clients := clients - {clientId};
        clientEntry.taskHandler.SetResult();
        return false;
      }
      clientEntry.socket.SendAsync(message, Text, true);
      return true;
    }

    /** Sends a job message to one client, as TrySendToClient does with the
        segment over the whole payload; whether it was sent is dropped. */
    method SendMessageToClient(clientId: string, message: JobMessage)
      requires Valid()
      modifies this, if clientId in clients then {clients[clientId].socket} else {}
      modifies if clientId in clients then {clients[clientId].taskHandler} else {}
      ensures Valid()
      ensures clientId !in old(clients) ==> clients == old(clients)
      ensures clientId in old(clients) ==>
        clients == if old(clients[clientId].socket.closed) then old(clients) - {clientId} else old(clients)
      ensures clientId in old(clients) ==> Delivered(old(clients)[clientId], message.data)
    {
      var data := WholeMessage(message);
      var _ := TrySendToClient(clientId, data);
    }

    /** Part way through a broadcast of `payload` over the registry
        `snapshot`, whose entries were observed as `before`: the ids in
        `pending` are still to be visited. */
    ghost predicate Broadcasting(snapshot: map<string, ClientEntry>, before: map<string, Observed>,
                                 pending: set<string>, payload: seq<byte>)
      reads this, Handles(), SocketsIn(snapshot), HandlesIn(snapshot)
    {
      snapshot.Keys == before.Keys && pending <= snapshot.Keys && Disjoint(snapshot) && Valid()
      && clients == Remaining(snapshot, before, pending)
      && (forall id | id in pending :: Observe(snapshot[id]) == before[id])
      && (forall id | id in snapshot && id !in pending :: Observe(snapshot[id]) == AfterSend(before[id], payload))
    }

    /** One visit of the broadcast loop. */
    method BroadcastTo(id: string, message: Segment, ghost snapshot: map<string, ClientEntry>,
                       ghost before: map<string, Observed>, ghost pending: set<string>)
      requires Broadcasting(snapshot, before, pending, Bytes(message)) && id in pending
      modifies this, snapshot[id].socket, snapshot[id].taskHandler
      ensures Broadcasting(snapshot, before, pending - {id}, Bytes(message))
    {
      assert clients[id] == snapshot[id];
      var _ := TrySendToClient(id, message);
      RemainingStep(snapshot, before, pending, id);
      forall i | i in snapshot && i != id
        ensures Observe(snapshot[i]) == old(Observe(snapshot[i]))
      {
        assert snapshot[i].socket != snapshot[id].socket && snapshot[i].taskHandler != snapshot[id].taskHandler;
      }
      forall i | i in snapshot && i !in pending - {id}
        ensures Observe(snapshot[i]) == AfterSend(before[i], Bytes(message))
      {
        if i != id {
          assert old(Observe(snapshot[i])) == AfterSend(before[i], Bytes(message));
        }
      }
    }

    /** Tries to send `message` to every registered client, in whatever order
        the dictionary enumerates them: the clients with open sockets each
        get it once as a complete text frame and stay registered; those with
        closed sockets are removed and their handles completed. */
    method BroadcastRawMessage(message: Segment)
      requires Valid()
      modifies this, Sockets(), Handles()
      ensures Valid()
      ensures clients == OpenIn(old(clients), old(ObserveAll(clients)))
      ensures forall id | id in old(clients) :: Delivered(old(clients)[id], Bytes(message))
    {
      ghost var snapshot := clients;
      ghost var before := ObserveAll(clients);
      var pending := clients.Keys;
      while pending != {}
        invariant Broadcasting(snapshot, before, pending, Bytes(message))
        decreases pending
      {
        var id :| id in pending;
        BroadcastTo(id, message, snapshot, before, pending);
        pending := pending - {id};
      }
      RemainingDone(snapshot, before);
      forall id | id in snapshot
        ensures Delivered(snapshot[id], Bytes(message))
      {
        assert Observe(snapshot[id]) == AfterSend(before[id], Bytes(message));
      }
    }

    /** Broadcasts a job message: the segment over its whole payload goes to
        every client. */
    method BroadcastMessage(message: JobMessage)
      requires Valid()
      modifies this, Sockets(), Handles()
      ensures Valid()
      ensures clients == OpenIn(old(clients), old(ObserveAll(clients)))
      ensures forall id | id in old(clients) :: Delivered(old(clients)[id], message.data)
    {
      var data := WholeMessage(message);
      BroadcastRawMessage(data);
    }

    /** Part way through shutdown of the registry `snapshot`, whose entries
        were observed as `before`: the ids in `pending` are still to be
        closed. */
    ghost predicate Closing(snapshot: map<string, ClientEntry>, before: map<string, Observed>, pending: set<string>)
      reads this, SocketsIn(snapshot), HandlesIn(snapshot)
    {
      snapshot.Keys == before.Keys && pending <= snapshot.Keys && Disjoint(snapshot) && clients == snapshot
      && (forall id | id in pending :: Observe(snapshot[id]) == before[id] && !before[id].completed)
      && (forall id | id in snapshot && id !in pending :: Observe(snapshot[id]) == AfterClose(before[id]))
    }

    /** One visit of the shutdown loop: close the socket, complete the
        handle. */
    method CloseEntry(id: string, ghost snapshot: map<string, ClientEntry>,
                      ghost before: map<string, Observed>, ghost pending: set<string>)
      requires Closing(snapshot, before, pending) && id in pending
      modifies snapshot[id].socket, snapshot[id].taskHandler
      ensures Closing(snapshot, before, pending - {id})
    {
      var entry := clients[id];
      entry.socket.CloseAsync(NormalClosure, "Closed");
      entry.taskHandler.SetResult();
      forall i | i in snapshot && i != id
        ensures Observe(snapshot[i]) == old(Observe(snapshot[i]))
      {
        assert snapshot[i].socket != snapshot[id].socket && snapshot[i].taskHandler != snapshot[id].taskHandler;
      }
      forall i | i in snapshot && i !in pending - {id}
        ensures Observe(snapshot[i]) == AfterClose(before[i])
      {
        if i != id {
          assert old(Observe(snapshot[i])) == AfterClose(before[i]);
        }
      }
    }

    /** Shuts every client down: each registered socket gets a close request
        with normal closure and reason "Closed" and each handle is
        completed, then the registry is emptied. */
    method CloseAllClients()
      requires Valid()
      modifies this, Sockets(), Handles()
      ensures clients == map[] && Valid()
      ensures forall id | id in old(clients) :: ShutDown(old(clients)[id])
    {
      ghost var snapshot := clients;
      ghost var before := ObserveAll(clients);
      var pending := clients.Keys;
      while pending != {}
        invariant Closing(snapshot, before, pending)
        decreases pending
      {
        var id :| id in pending;
        CloseEntry(id, snapshot, before, pending);
        pending := pending - {id};
      }
      forall id | id in snapshot
        ensures ShutDown(snapshot[id])
      {
        assert Observe(snapshot[id]) == AfterClose(before[id]);
      }
      clients := map[];
    }

    /** After CloseAllClients, a broadcast reaches nobody: no socket that was
        registered gets a frame. */
    method BroadcastAfterCloseSendsNothing(message: JobMessage)
      requires Valid()
      modifies this, Sockets(), Handles()
      ensures clients == map[]
      ensures forall id | id in old(clients) :: ShutDown(old(clients)[id])
    {
      CloseAllClients();
      BroadcastMessage(message);
    }
  }
}
