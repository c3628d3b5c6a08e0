/**
 * The WebSocket server's room registry (server/server.js): a module-level map
 * from room id to the set of member sockets, plus each socket's `__roomId`,
 * mutated by the `create_room`, `join_room` and `leave_room` handlers and by
 * `close`. Every handler returns the messages it sends, in order, as a list
 * of deliveries. This registry is independent of the one in rooms.js.
 */
module Server {
  import opened Options
  import opened Seqs
  import JsText

  /** A socket, by identity. */
  type SocketId = nat

  type RoomId = string

  /** `{ players: Set<socket>, createdAt }`; the set is kept in insertion order, without repeats. */
  datatype ServerRoom = ServerRoom(players: seq<SocketId>, createdAt: int)

  /**
   * A parsed inbound message: its `type`, its `requestId`, and for `join_room`
   * the text of `data.roomId` (`None` when it is missing or falsy).
   */
  datatype Inbound = Inbound(kind: Option<string>, requestId: Option<string>, roomIdField: Option<string>)

  /** What `JSON.parse` made of a raw frame; `null` parses to a message with no fields. */
  datatype Raw = Unparseable | Parsed(msg: Inbound)

  /** The messages the server sends; `now` is the server clock at the time of sending. */
  datatype Outbound =
    | Hello(now: int)
    | HeartbeatAck(requestId: Option<string>, now: int)
    | RoomCreated(requestId: Option<string>, roomId: RoomId)
    | Joined(requestId: Option<string>, roomId: RoomId)
    | Left(requestId: Option<string>, roomId: RoomId)
    | RoomUpdate(roomId: RoomId, players: nat)
    | Pong(now: int)
    | RoomNotFound(requestId: Option<string>)
    | UnknownType(requestId: Option<string>, received: Option<string>)

  /** `send(socket, message)`: one message to one socket. */
  datatype Delivery = Delivery(to: SocketId, message: Outbound)

  /** The registry's contents: `rooms` and every socket's `__roomId`. */
  datatype RegistryState = RegistryState(rooms: map<RoomId, ServerRoom>, roomOf: map<SocketId, RoomId>)

  /** The registry after a handler has run, and the messages it sent. */
  datatype Step = Step(next: RegistryState, outs: seq<Delivery>)

  /** The registry invariant: every registered room has at least one member, and none twice. */
  predicate Inv(st: RegistryState) {
    forall id :: id in st.rooms ==> st.rooms[id].players != [] && NoDuplicates(st.rooms[id].players)
  }

  // ---------------------------------------------------------------------------
  // Set operations on member lists.

  /** `players.add(socket)`: append unless already present. */
  function Add(xs: seq<SocketId>, x: SocketId): (r: seq<SocketId>)
    ensures forall y :: y in r <==> y in xs || y == x
    ensures |r| == if x in xs then |xs| else |xs| + 1
    ensures NoDuplicates(xs) ==> NoDuplicates(r)
    ensures r[..|xs|] == xs
  {
    if x in xs then xs else xs + [x]
  }

  /** `players.delete(socket)`: drop it, keeping the others in order. */
  function Remove(xs: seq<SocketId>, x: SocketId): (r: seq<SocketId>)
    ensures forall y :: y in r <==> y in xs && y != x
    ensures NoDuplicates(xs) ==> NoDuplicates(r) && |r| == if x in xs then |xs| - 1 else |xs|
    ensures x !in xs ==> r == xs
  {
    if xs == [] then []
    else
      var rest := Remove(xs[1..], x);
      assert NoDuplicates(xs) ==> xs[0] !in xs[1..];
      assert xs == [xs[0]] + xs[1..];
      if xs[0] == x then rest else [xs[0]] + rest
  }

  /** Deleting a member keeps the others in their order: the member's slot is closed up. */
  lemma {:induction false} RemoveClosesGap(xs: seq<SocketId>, x: SocketId, k: nat)
    requires NoDuplicates(xs) && k < |xs| && xs[k] == x
    ensures Remove(xs, x) == xs[..k] + xs[k + 1..]
  {
    assert xs == [xs[0]] + xs[1..];
    if k == 0 {
      assert x !in xs[1..];
    } else {
      RemoveClosesGap(xs[1..], x, k - 1);
      assert xs[1..][..k - 1] == xs[1..k];
      assert xs[1..][k..] == xs[k + 1..];
      assert [xs[0]] + xs[1..k] == xs[..k];
    }
  }

  // ---------------------------------------------------------------------------
  // The handlers, as functions of the registry.

  /** `createRoomId()`: `Math.random().toString(36).slice(2, 6).toUpperCase()`, given the rendering of the random number. */
  function CreateRoomId(rendered: string): (r: RoomId)
    requires JsText.IsRandomBase36(rendered)
    ensures |r| <= 4
    ensures forall i :: 0 <= i < |r| ==> JsText.IsUpperBase36Digit(r[i])
  {
    JsText.RandomCode(rendered, 4)
  }

  /** `broadcast(roomId, message)`: one delivery per member, in order. */
  function Deliveries(members: seq<SocketId>, message: Outbound): (r: seq<Delivery>)
    ensures |r| == |members|
    ensures forall i :: 0 <= i < |members| ==> r[i] == Delivery(members[i], message)
  {
    seq(|members|, i requires 0 <= i < |members| => Delivery(members[i], message))
  }

  /** `broadcast(roomId, message)` on the registry: nothing for an unknown room. */
  function BroadcastOf(st: RegistryState, roomId: RoomId, message: Outbound): seq<Delivery> {
    if roomId in st.rooms then Deliveries(st.rooms[roomId].players, message) else []
  }

  /** The `create_room` branch: store a one-member room under `roomId`, whatever was there. */
  function CreateStep(st: RegistryState, s: SocketId, requestId: Option<string>, roomId: RoomId, now: int): Step {
    Step(RegistryState(st.rooms[roomId := ServerRoom([s], now)], st.roomOf[s := roomId]),
         [Delivery(s, RoomCreated(requestId, roomId))])
  }

  /** The room a `join_room` asks for: `(data && data.roomId || "").toString().trim()`. */
  function JoinTarget(field: Option<string>): RoomId {
    JsText.Trim(field.GetOr(""))
  }

  /** The `join_room` branch, for the trimmed id `roomId`. */
  function JoinStep(st: RegistryState, s: SocketId, requestId: Option<string>, roomId: RoomId): Step {
    if roomId !in st.rooms then Step(st, [Delivery(s, RoomNotFound(requestId))])
    else
      var members := Add(st.rooms[roomId].players, s);
      Step(RegistryState(st.rooms[roomId := st.rooms[roomId].(players := members)], st.roomOf[s := roomId]),
           [Delivery(s, Joined(requestId, roomId))] + Deliveries(members, RoomUpdate(roomId, |members|)))
  }

  /** The guard of `leave_room` and `close`: `roomId && rooms.has(roomId)`; the empty id is falsy. */
  predicate InRegisteredRoom(st: RegistryState, s: SocketId) {
    s in st.roomOf && st.roomOf[s] != "" && st.roomOf[s] in st.rooms
  }

  /**
   * What `leave_room` and `close` share: remove the socket from its room, then
   * delete the room if it is empty or else broadcast the new member count.
   */
  function Depart(st: RegistryState, s: SocketId): (r: (map<RoomId, ServerRoom>, seq<Delivery>))
    requires InRegisteredRoom(st, s)
  {
    var roomId := st.roomOf[s];
    var rest := Remove(st.rooms[roomId].players, s);
    if rest == [] then (st.rooms - {roomId}, [])
    else (st.rooms[roomId := st.rooms[roomId].(players := rest)], Deliveries(rest, RoomUpdate(roomId, |rest|)))
  }

  /** The `leave_room` branch: a silent no-op outside a registered room. */
  function LeaveStep(st: RegistryState, s: SocketId, requestId: Option<string>): Step {
    if !InRegisteredRoom(st, s) then Step(st, [])
    else
      var (rooms, updates) := Depart(st, s);
      Step(RegistryState(rooms, st.roomOf - {s}), [Delivery(s, Left(requestId, st.roomOf[s]))] + updates)
  }

  /** The `close` handler: as `leave_room`, but with no reply, and `__roomId` is left on the dead socket. */
  function CloseStep(st: RegistryState, s: SocketId): Step {
    if !InRegisteredRoom(st, s) then Step(st, [])
    else
      var (rooms, updates) := Depart(st, s);
      Step(RegistryState(rooms, st.roomOf), updates)
  }

  /** The `message` handler: parse, then branch on `type`. */
  function Dispatch(st: RegistryState, s: SocketId, raw: Raw, rendered: string, now: int): Step
    requires JsText.IsRandomBase36(rendered)
  {
    match raw
    case Unparseable => Step(st, [])
    case Parsed(m) =>
      if m.kind == Some("heartbeat") then Step(st, [Delivery(s, HeartbeatAck(m.requestId, now))])
      else if m.kind == Some("create_room") then CreateStep(st, s, m.requestId, CreateRoomId(rendered), now)
      else if m.kind == Some("join_room") then JoinStep(st, s, m.requestId, JoinTarget(m.roomIdField))
      else if m.kind == Some("leave_room") then LeaveStep(st, s, m.requestId)
      else if m.kind == Some("ping") then Step(st, [Delivery(s, Pong(now))])
      else Step(st, [Delivery(s, UnknownType(m.requestId, m.kind))])
  }

  // ---------------------------------------------------------------------------
  // Properties of the handlers.

  /**
   * `create_room` registers a room whose only member is the creator, points
   * the creator at it and replies `room_created`; a room already stored under
   * that id is replaced, and every other room is untouched.
   */
  lemma CreateRegistersCreator(st: RegistryState, s: SocketId, requestId: Option<string>, roomId: RoomId, now: int)
    ensures var r := CreateStep(st, s, requestId, roomId, now);
            && r.next.rooms.Keys == st.rooms.Keys + {roomId}
            && r.next.rooms[roomId].players == [s]
            && r.next.roomOf == st.roomOf[s := roomId]
            && (forall id :: id in st.rooms && id != roomId ==> r.next.rooms[id] == st.rooms[id])
            && r.outs == [Delivery(s, RoomCreated(requestId, roomId))]
  {
  }

  /** `join_room` for an id not registered after trimming: an error to the caller only, and no change. */
  lemma JoinUnknownRoom(st: RegistryState, s: SocketId, requestId: Option<string>, roomId: RoomId)
    requires roomId !in st.rooms
    ensures JoinStep(st, s, requestId, roomId) == Step(st, [Delivery(s, RoomNotFound(requestId))])
  {
  }

  /**
   * `join_room` for a registered id: the caller becomes a member (once, even
   * on a rejoin) and points at the room; all other rooms, and the caller's
   * membership of any previous room, are unchanged.
   */
  lemma JoinKnownRoom(st: RegistryState, s: SocketId, requestId: Option<string>, roomId: RoomId)
    requires roomId in st.rooms
    ensures var next := JoinStep(st, s, requestId, roomId).next;
            var members := next.rooms[roomId].players;
            && next.rooms.Keys == st.rooms.Keys
            && s in members
            && (forall y :: y in members <==> y in st.rooms[roomId].players || y == s)
            && |members| == |st.rooms[roomId].players| + (if s in st.rooms[roomId].players then 0 else 1)
            && next.roomOf == st.roomOf[s := roomId]
            && (forall id :: id in st.rooms && id != roomId ==> next.rooms[id] == st.rooms[id])
  {
    var members := Add(st.rooms[roomId].players, s);
    assert JoinStep(st, s, requestId, roomId).next.rooms == st.rooms[roomId := st.rooms[roomId].(players := members)];
  }

  /** `join_room` for a registered id answers `joined`, then tells every member, the caller included, the member count. */
  lemma JoinKnownRoomReplies(st: RegistryState, s: SocketId, requestId: Option<string>, roomId: RoomId)
    requires roomId in st.rooms
    ensures var r := JoinStep(st, s, requestId, roomId);
            var members := r.next.rooms[roomId].players;
            && |r.outs| == 1 + |members|
            && r.outs[0] == Delivery(s, Joined(requestId, roomId))
            && (forall i :: 1 <= i < |r.outs| ==> r.outs[i] == Delivery(members[i - 1], RoomUpdate(roomId, |members|)))
  {
    var members := Add(st.rooms[roomId].players, s);
    var r := JoinStep(st, s, requestId, roomId);
    assert r.next.rooms[roomId].players == members;
    assert r.outs == [Delivery(s, Joined(requestId, roomId))] + Deliveries(members, RoomUpdate(roomId, |members|));
  }

  /**
   * `leave_room` from a registered room: the caller is no member any more and
   * has no room; it is answered `left`; the room is deleted exactly when it
   * became empty, otherwise its remaining members get the new count.
   */
  lemma LeaveRegisteredRoom(st: RegistryState, s: SocketId, requestId: Option<string>)
    requires Inv(st) && InRegisteredRoom(st, s)
    ensures var roomId := st.roomOf[s];
            var r := LeaveStep(st, s, requestId);
            var rest := Remove(st.rooms[roomId].players, s);
            && s !in r.next.roomOf
            && r.next.roomOf == st.roomOf - {s}
            && (roomId in r.next.rooms <==> rest != [])
            && (roomId in r.next.rooms ==>
                  s !in r.next.rooms[roomId].players && r.next.rooms[roomId].players == rest)
            && (forall id :: id in st.rooms && id != roomId ==> id in r.next.rooms && r.next.rooms[id] == st.rooms[id])
            && r.next.rooms.Keys <= st.rooms.Keys
            && r.outs[0] == Delivery(s, Left(requestId, roomId))
            && r.outs[1..] == if rest == [] then [] else Deliveries(rest, RoomUpdate(roomId, |rest|))
  {
  }

  /** `leave_room` and `close` from a socket that is not in a registered room change nothing and send nothing. */
  lemma LeaveOutsideRoomIsNoOp(st: RegistryState, s: SocketId, requestId: Option<string>)
    requires !InRegisteredRoom(st, s)
    ensures LeaveStep(st, s, requestId) == Step(st, [])
    ensures CloseStep(st, s) == Step(st, [])
  {
  }

  /** `close` does what `leave_room` does to the rooms and sends the same updates, without the `left` reply. */
  lemma CloseIsLeaveWithoutReply(st: RegistryState, s: SocketId, requestId: Option<string>)
    ensures CloseStep(st, s).next.rooms == LeaveStep(st, s, requestId).next.rooms
    ensures InRegisteredRoom(st, s) ==>
              && LeaveStep(st, s, requestId).outs == [Delivery(s, Left(requestId, st.roomOf[s]))] + CloseStep(st, s).outs
              && CloseStep(st, s).next.roomOf == st.roomOf
  {
  }

  /** Removing a socket from a room keeps the invariant: an emptied room is deleted. */
  lemma DepartKeepsInv(st: RegistryState, s: SocketId)
    requires Inv(st) && InRegisteredRoom(st, s)
    ensures Inv(RegistryState(Depart(st, s).0, st.roomOf))
    ensures forall id :: id in Depart(st, s).0 ==> id in st.rooms
  {
    var roomId := st.roomOf[s];
    var rest := Remove(st.rooms[roomId].players, s);
    assert NoDuplicates(rest);
  }

  /** `create_room` keeps the invariant: the new room has exactly its creator. */
  lemma CreateKeepsInv(st: RegistryState, s: SocketId, requestId: Option<string>, roomId: RoomId, now: int)
    requires Inv(st)
    ensures Inv(CreateStep(st, s, requestId, roomId, now).next)
  {
    var next := CreateStep(st, s, requestId, roomId, now).next;
    forall id | id in next.rooms
      ensures next.rooms[id].players != [] && NoDuplicates(next.rooms[id].players)
    {
      if id != roomId {
        assert next.rooms[id] == st.rooms[id];
      }
    }
  }

  /** `join_room` keeps the invariant: adding a member never repeats it. */
  lemma JoinKeepsInv(st: RegistryState, s: SocketId, requestId: Option<string>, roomId: RoomId)
    requires Inv(st)
    ensures Inv(JoinStep(st, s, requestId, roomId).next)
  {
    if roomId in st.rooms {
      var members := Add(st.rooms[roomId].players, s);
      var next := JoinStep(st, s, requestId, roomId).next;
      assert next.rooms == st.rooms[roomId := st.rooms[roomId].(players := members)];
      forall id | id in next.rooms
        ensures next.rooms[id].players != [] && NoDuplicates(next.rooms[id].players)
      {
        if id != roomId {
          assert next.rooms[id] == st.rooms[id];
        } else {
          assert s in members;
        }
      }
    }
  }

  /** `leave_room` and `close` keep the invariant: no registered room is left empty. */
  lemma LeaveKeepsInv(st: RegistryState, s: SocketId, requestId: Option<string>)
    requires Inv(st)
    ensures Inv(LeaveStep(st, s, requestId).next)
    ensures Inv(CloseStep(st, s).next)
  {
    if InRegisteredRoom(st, s) {
      DepartKeepsInv(st, s);
    }
  }

  /** After any handler, and after `close`, no registered room is empty and no member is listed twice. */
  lemma DispatchKeepsInv(st: RegistryState, s: SocketId, raw: Raw, rendered: string, now: int)
    requires Inv(st) && JsText.IsRandomBase36(rendered)
    ensures Inv(Dispatch(st, s, raw, rendered, now).next)
    ensures Inv(CloseStep(st, s).next)
  {
    LeaveKeepsInv(st, s, None);
    if raw.Parsed? {
      var m := raw.msg;
      if m.kind == Some("create_room") {
        CreateKeepsInv(st, s, m.requestId, CreateRoomId(rendered), now);
      } else if m.kind == Some("join_room") {
        JoinKeepsInv(st, s, m.requestId, JoinTarget(m.roomIdField));
      } else if m.kind == Some("leave_room") {
        LeaveKeepsInv(st, s, m.requestId);
      }
    }
  }

  /**
   * Only `create_room`, `join_room` and `leave_room` touch the registry. Every
   * other input gets exactly one reply, to the sender, except unparseable
   * input, which gets none: `heartbeat_ack` echoing `requestId`, `pong`, or
   * `unknown_type` carrying the received type.
   */
  lemma DispatchOtherTypes(st: RegistryState, s: SocketId, raw: Raw, rendered: string, now: int)
    requires JsText.IsRandomBase36(rendered)
    requires raw.Parsed? ==> raw.msg.kind !in {Some("create_room"), Some("join_room"), Some("leave_room")}
    ensures var r := Dispatch(st, s, raw, rendered, now);
            && r.next == st
            && (raw.Unparseable? ==> r.outs == [])
            && (raw.Parsed? ==>
                  var m := raw.msg;
                  r.outs == [Delivery(s, if m.kind == Some("heartbeat") then HeartbeatAck(m.requestId, now)
                                         else if m.kind == Some("ping") then Pong(now)
                                         else UnknownType(m.requestId, m.kind))])
  {
  }

  /** A handler's first message, if any, is its reply to the sender; an error reply is the only message and changes nothing. */
  lemma RepliesFirstErrorsAlone(st: RegistryState, s: SocketId, raw: Raw, rendered: string, now: int)
    requires JsText.IsRandomBase36(rendered)
    ensures var r := Dispatch(st, s, raw, rendered, now);
            && (r.outs != [] ==> r.outs[0].to == s)
            && (r.outs != [] && (r.outs[0].message.RoomNotFound? || r.outs[0].message.UnknownType?) ==>
                  |r.outs| == 1 && r.next == st)
  {
  }

  // ---------------------------------------------------------------------------
  // The registry object.

  /** The module-level `rooms` map and the `__roomId` field of each socket. */
  class Registry {
    var rooms: map<RoomId, ServerRoom>
    var roomOf: map<SocketId, RoomId>

    function State(): RegistryState
      reads this
    {
      RegistryState(rooms, roomOf)
    }

    ghost predicate Valid()
      reads this
    {
      Inv(State())
    }

    constructor ()
      ensures Valid() && rooms == map[] && roomOf == map[]
    {
      rooms := map[];
      roomOf := map[];
    }

    /** `broadcast(roomId, message)`: send to each member in turn. */
    method Broadcast(roomId: RoomId, message: Outbound) returns (outs: seq<Delivery>)
      ensures outs == BroadcastOf(State(), roomId, message)
    {
      outs := [];
      if roomId !in rooms {
        return;
      }
      var members := rooms[roomId].players;
      for i := 0 to |members|
        invariant outs == Deliveries(members[..i], message)
      {
        outs := outs + [Delivery(members[i], message)];
      }
      assert members[..|members|] == members;
    }

    /** The `connection` handler's greeting. */
    method Connect(s: SocketId, now: int) returns (outs: seq<Delivery>)
      ensures outs == [Delivery(s, Hello(now))]
    {
      outs := [Delivery(s, Hello(now))];
    }

    method CreateRoom(s: SocketId, requestId: Option<string>, rendered: string, now: int) returns (outs: seq<Delivery>)
      requires Valid() && JsText.IsRandomBase36(rendered)
      modifies this
      ensures Valid()
      ensures var r := CreateStep(old(State()), s, requestId, CreateRoomId(rendered), now);
              State() == r.next && outs == r.outs
    {
      var roomId := CreateRoomId(rendered);
      CreateKeepsInv(State(), s, requestId, roomId, now);
      rooms := rooms[roomId := ServerRoom([s], now)];
      roomOf := roomOf[s := roomId];
      outs := [Delivery(s, RoomCreated(requestId, roomId))];
    }

    /** The `join_room` branch once the requested id has been trimmed. */
    method JoinRoom(s: SocketId, requestId: Option<string>, roomId: RoomId) returns (outs: seq<Delivery>)
      requires Valid()
      modifies this
      ensures Valid()
      ensures var r := JoinStep(old(State()), s, requestId, roomId);
              State() == r.next && outs == r.outs
    {
      JoinKeepsInv(State(), s, requestId, roomId);
      if roomId !in rooms {
        outs := [Delivery(s, RoomNotFound(requestId))];
        return;
      }
      var members := Add(rooms[roomId].players, s);
      rooms := rooms[roomId := rooms[roomId].(players := members)];
      roomOf := roomOf[s := roomId];
      var updates := Broadcast(roomId, RoomUpdate(roomId, |members|));
      outs := [Delivery(s, Joined(requestId, roomId))] + updates;
    }

    method LeaveRoom(s: SocketId, requestId: Option<string>) returns (outs: seq<Delivery>)
      requires Valid()
      modifies this
      ensures Valid()
      ensures var r := LeaveStep(old(State()), s, requestId);
              State() == r.next && outs == r.outs
    {
      LeaveKeepsInv(State(), s, requestId);
      outs := [];
      if s in roomOf && roomOf[s] != "" && roomOf[s] in rooms {
        ghost var before := State();
        var roomId := roomOf[s];
        var rest := Remove(rooms[roomId].players, s);
        rooms := rooms[roomId := rooms[roomId].(players := rest)];
        roomOf := roomOf - {s};
        outs := [Delivery(s, Left(requestId, roomId))];
        if |rest| == 0 {
          rooms := rooms - {roomId};
        } else {
          var updates := Broadcast(roomId, RoomUpdate(roomId, |rest|));
          outs := outs + updates;
        }
        assert rooms == Depart(before, s).0;
      }
    }

    /** The `close` handler. */
    method Close(s: SocketId) returns (outs: seq<Delivery>)
      requires Valid()
      modifies this
      ensures Valid()
      ensures var r := CloseStep(old(State()), s);
              State() == r.next && outs == r.outs
    {
      LeaveKeepsInv(State(), s, None);
      outs := [];
      if s in roomOf && roomOf[s] != "" && roomOf[s] in rooms {
        ghost var before := State();
        var roomId := roomOf[s];
        var rest := Remove(rooms[roomId].players, s);
        rooms := rooms[roomId := rooms[roomId].(players := rest)];
        if |rest| == 0 {
          rooms := rooms - {roomId};
        } else {
          outs := Broadcast(roomId, RoomUpdate(roomId, |rest|));
        }
        assert rooms == Depart(before, s).0;
      }
    }

    /** The `message` handler. */
    method HandleMessage(s: SocketId, raw: Raw, rendered: string, now: int) returns (outs: seq<Delivery>)
      requires Valid() && JsText.IsRandomBase36(rendered)
      modifies this
      ensures Valid()
      ensures var r := Dispatch(old(State()), s, raw, rendered, now);
              State() == r.next && outs == r.outs
    {
      if raw.Unparseable? {
        return [];
      }
      var m := raw.msg;
      if m.kind == Some("heartbeat") {
        outs := [Delivery(s, HeartbeatAck(m.requestId, now))];
      } else if m.kind == Some("create_room") {
        outs := CreateRoom(s, m.requestId, rendered, now);
      } else if m.kind == Some("join_room") {
        var roomId := JoinTarget(m.roomIdField);
        outs := JoinRoom(s, m.requestId, roomId);
      } else if m.kind == Some("leave_room") {
        outs := LeaveRoom(s, m.requestId);
      } else if m.kind == Some("ping") {
        outs := [Delivery(s, Pong(now))];
      } else {
        outs := [Delivery(s, UnknownType(m.requestId, m.kind))];
      }
    }
  }
}
