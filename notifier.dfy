/**
 * The task-update notifier: a table from a key (a task id, or the user id
 * the WebSocket server registers under) to the WebSocket last registered for
 * it. Registering replaces the previous entry and adds a close listener to
 * the socket; notifying sends a message only to a registered socket that is
 * open. Sockets are values in a map, named by a counter-issued id; what a
 * socket has been sent is kept as its log.
 */
module Notifier {
  type Key = string
  type SocketId = nat

  /** The WebSocket ready states. */
  datatype ReadyState = Connecting | Open | Closing | Closed

  /** A socket: its ready state, the messages sent on it, and the keys its close listeners remove. */
  datatype Socket = Socket(state: ReadyState, sent: seq<string>, listeners: seq<Key>)

  /**
   * What the close listeners do as written: remove every key they were
   * registered for, whichever socket that key now names.
   */
  function RemoveKeys(clients: map<Key, SocketId>, keys: seq<Key>): (r: map<Key, SocketId>)
    ensures forall k :: k in r <==> k in clients && k !in keys
    ensures forall k :: k in r ==> r[k] == clients[k]
  {
    if |keys| == 0 then clients else RemoveKeys(clients - {keys[0]}, keys[1..])
  }

  /**
   * What the close listeners of socket `sid` should do: remove a key only
   * while it still names `sid`, so that a newer registration survives.
   */
  function RemoveOwnKeys(clients: map<Key, SocketId>, keys: seq<Key>, sid: SocketId): (r: map<Key, SocketId>)
    ensures forall k :: k in r <==> k in clients && !(k in keys && clients[k] == sid)
    ensures forall k :: k in r ==> r[k] == clients[k]
  {
    if |keys| == 0 then clients
    else
      var c := if keys[0] in clients && clients[keys[0]] == sid then clients - {keys[0]} else clients;
      RemoveOwnKeys(c, keys[1..], sid)
  }

  class TaskClients {
    var clients: map<Key, SocketId>
    var sockets: map<SocketId, Socket>
    var nextSocket: nat

    /**
     * Every registered key names a known socket that is not closed and that
     * carries a close listener for that key; every socket id was issued.
     */
    ghost predicate Valid()
      reads this
    {
      && (forall id :: id in sockets ==> id < nextSocket)
      && (forall k :: k in clients ==>
            clients[k] in sockets
            && sockets[clients[k]].state != Closed
            && k in sockets[clients[k]].listeners)
    }

    constructor ()
      ensures Valid()
      ensures clients == map[] && sockets == map[]
    {
      clients := map[];
      sockets := map[];
      nextSocket := 0;
    }

    /** A client connects: a new open socket with nothing sent and no listeners. */
    method Connect() returns (sid: SocketId)
      requires Valid()
      modifies this
      ensures Valid()
      ensures sid !in old(sockets)
      ensures sockets == old(sockets)[sid := Socket(Open, [], [])]
      ensures clients == old(clients)
    {
      sid := nextSocket;
      nextSocket := nextSocket + 1;
      sockets := sockets[sid := Socket(Open, [], [])];
    }

    /** `registerTaskClient`: the key now names `sid`, and `sid` gains a close listener for the key. */
    method Register(key: Key, sid: SocketId)
      requires Valid()
      requires sid in sockets && sockets[sid].state != Closed
      modifies this
      ensures Valid()
      ensures clients == old(clients)[key := sid]
      ensures sockets == old(sockets)[sid := old(sockets)[sid].(listeners := old(sockets)[sid].listeners + [key])]
      ensures nextSocket == old(nextSocket)
    {
      clients := clients[key := sid];
      var s := sockets[sid];
      sockets := sockets[sid := s.(listeners := s.listeners + [key])];
    }

    /** `notifyTaskUpdate`: send only to a registered socket that is open; otherwise nothing happens. */
    method Notify(key: Key, message: string) returns (delivered: bool)
      requires Valid()
      modifies this
      ensures Valid()
      ensures delivered <==> key in old(clients) && old(sockets)[old(clients)[key]].state == Open
      ensures delivered ==>
        var sid := old(clients)[key];
        sockets == old(sockets)[sid := old(sockets)[sid].(sent := old(sockets)[sid].sent + [message])]
        && clients == old(clients) && nextSocket == old(nextSocket)
      ensures !delivered ==> unchanged(this)
    {
      if key !in clients {
        return false;
      }
      var sid := clients[key];
      var s := sockets[sid];
      if s.state != Open {
        return false;
      }
      sockets := sockets[sid := s.(sent := s.sent + [message])];
      delivered := true;
    }

    /** The closing handshake of a socket begins: it stops being open, and no listener runs yet. */
    method BeginClose(sid: SocketId)
      requires Valid()
      requires sid in sockets && sockets[sid].state != Closed
      modifies this
      ensures Valid()
      ensures sockets == old(sockets)[sid := old(sockets)[sid].(state := Closing)]
      ensures clients == old(clients) && nextSocket == old(nextSocket)
    {
      sockets := sockets[sid := sockets[sid].(state := Closing)];
    }

    /** The socket closes and its close listeners run in order, each deleting its key outright. */
    method CloseAsWritten(sid: SocketId)
      requires Valid()
      requires sid in sockets && sockets[sid].state != Closed
      modifies this
      ensures Valid()
      ensures sockets == old(sockets)[sid := old(sockets)[sid].(state := Closed)]
      ensures clients == RemoveKeys(old(clients), old(sockets)[sid].listeners)
      ensures nextSocket == old(nextSocket)
    {
      var keys := sockets[sid].listeners;
      var c := clients;
      var i := 0;
      while i < |keys|
        invariant 0 <= i <= |keys|
        invariant RemoveKeys(c, keys[i..]) == RemoveKeys(clients, keys)
      {
        assert keys[i..][1..] == keys[i + 1..];
        c := c - {keys[i]};
        i := i + 1;
      }
      assert keys[i..] == [];
      clients := c;
      sockets := sockets[sid := sockets[sid].(state := Closed)];
    }

    /** The socket closes and its close listeners run in order, each deleting its key only if it still names this socket. */
    method Close(sid: SocketId)
      requires Valid()
      requires sid in sockets && sockets[sid].state != Closed
      modifies this
      ensures Valid()
      ensures sockets == old(sockets)[sid := old(sockets)[sid].(state := Closed)]
      ensures clients == RemoveOwnKeys(old(clients), old(sockets)[sid].listeners, sid)
      ensures forall k :: k in old(clients) && old(clients)[k] != sid ==> k in clients && clients[k] == old(clients)[k]
      ensures forall k :: k in clients ==> clients[k] != sid
      ensures nextSocket == old(nextSocket)
    {
      var keys := sockets[sid].listeners;
      var c := clients;
      var i := 0;
      while i < |keys|
        invariant 0 <= i <= |keys|
        invariant RemoveOwnKeys(c, keys[i..], sid) == RemoveOwnKeys(clients, keys, sid)
      {
        assert keys[i..][1..] == keys[i + 1..];
        if keys[i] in c && c[keys[i]] == sid {
          c := c - {keys[i]};
        }
        i := i + 1;
      }
      assert keys[i..] == [];
      clients := c;
      sockets := sockets[sid := sockets[sid].(state := Closed)];
    }
  }

  /**
   * A user opens a second tab, whose socket replaces the first; then the first
   * tab closes. As written, its close listener removes the user's entry, so an
   * update is not delivered although the second socket is still open.
   */
  method StaleCloseAsWritten() returns (secondOpen: bool, delivered: bool)
    ensures secondOpen && !delivered
  {
    var table := new TaskClients();
    var first := table.Connect();
    table.Register("user", first);
    var second := table.Connect();
    table.Register("user", second);
    table.CloseAsWritten(first);
    secondOpen := table.sockets[second].state == Open;
    delivered := table.Notify("user", "task updated");
  }

  /** The same sequence with the corrected listener: the update reaches the second socket. */
  method StaleCloseCorrected() returns (delivered: bool, received: seq<string>)
    ensures delivered && received == ["task updated"]
  {
    var table := new TaskClients();
    var first := table.Connect();
    table.Register("user", first);
    var second := table.Connect();
    table.Register("user", second);
    table.Close(first);
    delivered := table.Notify("user", "task updated");
    received := table.sockets[second].sent;
  }

  /** Once the only socket of a key closes, by either listener, updates to that key are dropped. */
  method NotifyAfterClose() returns (asWritten: bool, corrected: bool)
    ensures !asWritten && !corrected
  {
    var a := new TaskClients();
    var s := a.Connect();
    a.Register("task", s);
    a.CloseAsWritten(s);
    asWritten := a.Notify("task", "update");
    var b := new TaskClients();
    var t := b.Connect();
    b.Register("task", t);
    b.Close(t);
    corrected := b.Notify("task", "update");
  }
}
