/** The server's presence registry: the module-level `userSocketMap` from
    user id to socket id, the `connection`, `disconnect` and `typing`
    handlers that update and read it, and the events they emit. */
module Presence {
  import opened Wrappers
  import opened Lists

  type UserId = string
  type SocketId = string

  /** What the handlers emit: `io.emit("getOnlineUsers", ids)` to everyone,
      or `io.to(socket).emit("typing", { senderId })` to one socket. */
  datatype Emission =
    | OnlineUsers(userIds: seq<UserId>)
    | TypingTo(socketId: SocketId, senderId: Option<UserId>)

  /** One accepted socket: its id, the `userId` handshake query parameter as
      the handlers' closure captured it, and `socket.userId`, which is set
      only when that parameter was truthy. */
  datatype Connection = Connection(
    socketId: SocketId,
    handshakeUserId: Option<string>,
    boundUserId: Option<UserId>)

  /** The registry as a value: the map, and the order in which its keys
      were first inserted, which `Object.keys` follows for ObjectId-shaped
      keys (24 hexadecimal digits, never an array index). */
  datatype RegistryState = RegistryState(socketOf: map<UserId, SocketId>, keyOrder: seq<UserId>)

  ghost predicate WellFormed(st: RegistryState) {
    && NoDuplicates(st.keyOrder)
    && (forall u :: u in st.socketOf <==> u in st.keyOrder)
  }

  /** Effect of a connection on the map: register when the handshake id is
      truthy; an existing key is reassigned in place. */
  function Registered(st: RegistryState, c: Connection): RegistryState {
    if Truthy(c.handshakeUserId) then
      var u := c.handshakeUserId.value;
      RegistryState(st.socketOf[u := c.socketId], AddedOnce(st.keyOrder, u))
    else st
  }

  /** Effect of a disconnect: `delete userSocketMap[userId]` with the userId
      captured at connect time, whatever socket that key now holds. */
  function Unregistered(st: RegistryState, c: Connection): RegistryState {
    var k := PropertyKey(c.handshakeUserId);
    RegistryState(st.socketOf - {k}, Without(st.keyOrder, k))
  }

  datatype RegistryEvent = Connected(conn: Connection) | Disconnected(conn: Connection)

  function Apply(st: RegistryState, e: RegistryEvent): RegistryState {
    match e
    case Connected(c) => Registered(st, c)
    case Disconnected(c) => Unregistered(st, c)
  }

  /** The registry after a sequence of connects and disconnects, starting
      empty as the server does. */
  function Replay(events: seq<RegistryEvent>): RegistryState {
    if |events| == 0 then RegistryState(map[], [])
    else Apply(Replay(events[..|events| - 1]), events[|events| - 1])
  }

  /** The socket that the most recent event concerning user `u` left
      registered, if any. */
  function LastRegistration(events: seq<RegistryEvent>, u: UserId): Option<SocketId> {
    if |events| == 0 then None
    else
      var e := events[|events| - 1];
      if e.Connected? && Truthy(e.conn.handshakeUserId) && e.conn.handshakeUserId.value == u then
        Some(e.conn.socketId)
      else if e.Disconnected? && PropertyKey(e.conn.handshakeUserId) == u then
        None
      else LastRegistration(events[..|events| - 1], u)
  }

  lemma RegisteredWellFormed(st: RegistryState, c: Connection)
    requires WellFormed(st)
    ensures WellFormed(Registered(st, c))
  {
    if Truthy(c.handshakeUserId) {
      AddedOnceProperties(st.keyOrder, c.handshakeUserId.value);
    }
  }

  lemma UnregisteredWellFormed(st: RegistryState, c: Connection)
    requires WellFormed(st)
    ensures WellFormed(Unregistered(st, c))
  {
    var k := PropertyKey(c.handshakeUserId);
    WithoutNoDuplicates(st.keyOrder, k);
    WithoutMembers(st.keyOrder, k);
  }

  /** Every reachable registry lists each online user exactly once, and the
      list is exactly the map's key set. */
  lemma {:induction false} ReplayWellFormed(events: seq<RegistryEvent>)
    ensures WellFormed(Replay(events))
  {
    if |events| > 0 {
      var before := Replay(events[..|events| - 1]);
      ReplayWellFormed(events[..|events| - 1]);
      match events[|events| - 1]
      case Connected(c) => RegisteredWellFormed(before, c);
      case Disconnected(c) => UnregisteredWellFormed(before, c);
    }
  }

  /** After any sequence of connects and disconnects, looking a user up
      gives the socket of their latest connect, unless a later disconnect
      for that user id removed it: last connect wins, and the delete is by
      user id, not by socket id. */
  lemma {:induction false} ReplayLookup(events: seq<RegistryEvent>, u: UserId)
    ensures (u in Replay(events).socketOf) <==> LastRegistration(events, u).Some?
    ensures u in Replay(events).socketOf ==>
              Replay(events).socketOf[u] == LastRegistration(events, u).value
  {
    if |events| > 0 {
      ReplayLookup(events[..|events| - 1], u);
    }
  }

  /** The live registry, updated in place by the handlers. */
  class Registry {
    var socketOf: map<UserId, SocketId>
    var keyOrder: seq<UserId>
    var emitted: seq<Emission>

    ghost predicate Valid()
      reads this
    {
      WellFormed(State())
    }

    function State(): RegistryState
      reads this
    {
      RegistryState(socketOf, keyOrder)
    }

    /** The payload of every `getOnlineUsers` broadcast: `Object.keys`. */
    function OnlineUserIds(): seq<UserId>
      reads this
    {
      keyOrder
    }

    constructor ()
      ensures Valid() && socketOf == map[] && keyOrder == [] && emitted == []
    {
      socketOf, keyOrder, emitted := map[], [], [];
    }

    /** `getReceiverSocketId(userId)`. */
    function ReceiverSocketId(userId: UserId): (r: Option<SocketId>)
      reads this
      ensures r.Some? <==> userId in socketOf
      ensures r.Some? ==> r.value == socketOf[userId]
    {
      if userId in socketOf then Some(socketOf[userId]) else None
    }

    /** The `connection` handler. */
    method Connect(socketId: SocketId, handshakeUserId: Option<string>) returns (c: Connection)
      requires Valid()
      modifies this
      ensures Valid()
      ensures c.socketId == socketId && c.handshakeUserId == handshakeUserId
      ensures c.boundUserId == if Truthy(handshakeUserId) then handshakeUserId else None
      ensures State() == Registered(old(State()), c)
      ensures Truthy(handshakeUserId) ==>
                socketOf == old(socketOf)[handshakeUserId.value := socketId]
      ensures !Truthy(handshakeUserId) ==> socketOf == old(socketOf) && keyOrder == old(keyOrder)
      ensures emitted == old(emitted) + [OnlineUsers(OnlineUserIds())]
    {
      c := Connection(socketId, handshakeUserId, None);
      if Truthy(handshakeUserId) {
        var u := handshakeUserId.value;
        if u !in socketOf {
          keyOrder := keyOrder + [u];
        }
        socketOf := socketOf[u := socketId];
        c := c.(boundUserId := Some(u));
      }
      RegisteredWellFormed(old(State()), c);
      emitted := emitted + [OnlineUsers(keyOrder)];
    }

    /** The `disconnect` handler of connection `c`. */
    method Disconnect(c: Connection)
      requires Valid()
      modifies this
      ensures Valid()
      ensures State() == Unregistered(old(State()), c)
      ensures PropertyKey(c.handshakeUserId) !in socketOf
      ensures forall u :: u != PropertyKey(c.handshakeUserId) ==>
                (u in socketOf <==> u in old(socketOf)) &&
                (u in socketOf ==> socketOf[u] == old(socketOf)[u])
      ensures emitted == old(emitted) + [OnlineUsers(OnlineUserIds())]
    {
      var k := PropertyKey(c.handshakeUserId);
      socketOf := socketOf - {k};
      keyOrder := Without(keyOrder, k);
      UnregisteredWellFormed(old(State()), c);
      emitted := emitted + [OnlineUsers(keyOrder)];
    }

    /** The `typing` handler of connection `c` for payload `{ receiverId }`:
        relay to the receiver's socket only when one is registered. */
    method Typing(c: Connection, receiverId: Option<string>)
      requires Valid()
      modifies this`emitted
      ensures Valid()
      ensures var sid := ReceiverSocketId(PropertyKey(receiverId));
              emitted == if sid.Some? && sid.value != ""
                         then old(emitted) + [TypingTo(sid.value, c.boundUserId)]
                         else old(emitted)
    {
      var sid := ReceiverSocketId(PropertyKey(receiverId));
      if sid.Some? && sid.value != "" {
        emitted := emitted + [TypingTo(sid.value, c.boundUserId)];
      }
    }
  }
}
