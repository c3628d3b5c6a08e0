/**
 * Room data shapes and views (server/lib/rooms.js): composite room keys,
 * player ids, lazy game creation, the public roster/state view, the private
 * snapshot, and sends as lists of deliveries. The module-level registry
 * `rooms` (room key -> room) is passed explicitly as a map.
 */
module Rooms {
  import opened Options
  import opened Game
  import JsText

  /** The profile a client attached to its socket; every field may be missing. */
  datatype Profile = Profile(id: Option<string>, username: Option<string>,
                             discriminator: Option<string>, avatarUrl: Option<string>)

  /**
   * A connection as rooms.js sees it: a handle standing for the socket
   * object's identity, its optional `__profile`, and its transport's
   * optional remote address.
   */
  datatype Socket = Socket(handle: nat, profile: Option<Profile>, remoteAddress: Option<string>)

  datatype Phase = Lobby | Playing | Ended

  /** `room.game`: hands map a player id to that player's cards. */
  datatype GameState = GameState(phase: Phase, playersOrder: seq<string>, hands: map<string, seq<Card>>,
                                 drawPile: seq<Card>, discardTop: Option<Card>,
                                 currentTurnIndex: int, lastTurnAt: int)

  /** One roster entry; `cards` is present only once the view includes a game. */
  datatype PlayerView = PlayerView(id: Option<string>, username: Option<string>,
                                   discriminator: Option<string>, avatarUrl: Option<string>,
                                   ready: bool, cards: Option<nat>)

  /** `roomId` and `hostId` of a registered room; an unregistered key has `roomId: null` and no `hostId`. */
  datatype RoomHeader = RoomHeader(roomId: string, hostId: Option<string>)

  /** The fields the public view gains when the room has a game. */
  datatype GameView = GameView(topCard: Option<Card>, currentPlayerId: Option<string>, phase: Phase)

  datatype PublicState = PublicState(header: Option<RoomHeader>, players: seq<PlayerView>, game: Option<GameView>)

  /** `{ type: "snapshot", data: { ...public state, yourHand } }`. */
  datatype Snapshot = Snapshot(kind: string, pub: PublicState, yourHand: seq<Card>)

  /** One message handed to one socket by `send`. */
  datatype Delivery<M> = Delivery(to: Socket, message: M)

  /** A room object; rooms.js reads all of its fields and writes `game`. */
  class Room {
    var id: string
    var key: string
    var players: seq<Socket>
    var hostId: Option<string>
    var readyById: Option<set<string>>
    var game: Option<GameState>

    constructor (id: string, key: string, players: seq<Socket>, hostId: Option<string>, readyById: Option<set<string>>)
      ensures this.id == id && this.key == key && this.players == players
      ensures this.hostId == hostId && this.readyById == readyById && game == None
    {
      this.id := id;
      this.key := key;
      this.players := players;
      this.hostId := hostId;
      this.readyById := readyById;
      game := None;
    }
  }

  // ---------------------------------------------------------------------------
  // Room ids and keys.

  /** `Math.random().toString(36).slice(2, 8).toUpperCase()`, given the rendering of the random number. */
  function CreateShortRoomId(rendered: string): (r: string)
    requires JsText.IsRandomBase36(rendered)
    ensures |r| <= 6
    ensures forall i :: 0 <= i < |r| ==> JsText.IsUpperBase36Digit(r[i])
  {
    JsText.RandomCode(rendered, 6)
  }

  /** `makeRoomKey(guildId, shortId)`: the template `${guildId}:${shortId}`. */
  function MakeRoomKey(guildId: string, shortId: string): (key: string)
    ensures |key| == |guildId| + 1 + |shortId| && key[|guildId|] == ':'
    ensures key[..|guildId|] == guildId && key[|guildId| + 1..] == shortId
  {
    guildId + ":" + shortId
  }

  /** The position of the first ':' in s, or |s| when there is none. */
  function IndexOfColon(s: string): (r: nat)
    ensures r <= |s|
    ensures forall i :: 0 <= i < r ==> s[i] != ':'
    ensures r < |s| ==> s[r] == ':'
  {
    if s == [] || s[0] == ':' then 0 else 1 + IndexOfColon(s[1..])
  }

  /** Splits a key at its first ':' into the guild id and the short id. */
  function ParseRoomKey(key: string): Option<(string, string)> {
    var i := IndexOfColon(key);
    if i < |key| then Some((key[..i], key[i + 1..])) else None
  }

  /** A guild id without ':' is recovered, with the short id, from the room key. */
  lemma RoomKeyRoundTrip(guildId: string, shortId: string)
    requires forall i :: 0 <= i < |guildId| ==> guildId[i] != ':'
    ensures ParseRoomKey(MakeRoomKey(guildId, shortId)) == Some((guildId, shortId))
  {
    var key := MakeRoomKey(guildId, shortId);
    var i := IndexOfColon(key);
    assert i == |guildId|;
    assert key[..i] == guildId;
    assert key[i + 1..] == shortId;
  }

  /** For guild ids without ':', different (guild, short id) pairs never share a room key. */
  lemma MakeRoomKeyInjective(g1: string, s1: string, g2: string, s2: string)
    requires forall i :: 0 <= i < |g1| ==> g1[i] != ':'
    requires forall i :: 0 <= i < |g2| ==> g2[i] != ':'
    requires MakeRoomKey(g1, s1) == MakeRoomKey(g2, s2)
    ensures g1 == g2 && s1 == s2
  {
    RoomKeyRoundTrip(g1, s1);
    RoomKeyRoundTrip(g2, s2);
  }

  // ---------------------------------------------------------------------------
  // Player ids.

  /** JavaScript's `x || null` on an optional string: the empty string is falsy. */
  function OrNull(x: Option<string>): (r: Option<string>)
    ensures r.Some? <==> x.Some? && x.value != ""
    ensures r.Some? ==> r == x
  {
    if x == Some("") then None else x
  }

  predicate IsSeparator(c: char) {
    c == ':' || c == '.'
  }

  /** `s.replace(/[:.]/g, "")`: drop every ':' and '.'. */
  function RemoveSeparators(s: string): (r: string)
    ensures |r| <= |s|
    ensures forall i :: 0 <= i < |r| ==> !IsSeparator(r[i])
  {
    if s == [] then []
    else (if IsSeparator(s[0]) then [] else [s[0]]) + RemoveSeparators(s[1..])
  }

  /** Removing separators works piece by piece: the kept characters stay in their order. */
  lemma {:induction false} RemoveSeparatorsAppend(a: string, b: string)
    ensures RemoveSeparators(a + b) == RemoveSeparators(a) + RemoveSeparators(b)
  {
    if a == [] {
      assert a + b == b;
    } else {
      var head := if IsSeparator(a[0]) then [] else [a[0]];
      assert (a + b)[0] == a[0] && (a + b)[1..] == a[1..] + b;
      RemoveSeparatorsAppend(a[1..], b);
      assert RemoveSeparators(a + b) == head + (RemoveSeparators(a[1..]) + RemoveSeparators(b));
    }
  }

  /** A single character is dropped exactly when it is a separator. */
  lemma RemoveSeparatorsChar(c: char)
    ensures RemoveSeparators([c]) == if IsSeparator(c) then [] else [c]
  {
    assert [c][1..] == [];
  }

  /** Removing separators keeps every other character: their counts are unchanged. */
  lemma {:induction false} RemoveSeparatorsKeepsOthers(s: string, c: char)
    requires !IsSeparator(c)
    ensures multiset(RemoveSeparators(s))[c] == multiset(s)[c]
  {
    if s != [] {
      assert s == [s[0]] + s[1..];
      RemoveSeparatorsKeepsOthers(s[1..], c);
    }
  }

  /** A text without separators is unchanged. */
  lemma {:induction false} RemoveSeparatorsIdentity(s: string)
    requires forall i :: 0 <= i < |s| ==> !IsSeparator(s[i])
    ensures RemoveSeparators(s) == s
  {
    if s != [] {
      RemoveSeparatorsIdentity(s[1..]);
    }
  }

  /** The socket's profile id when it is set and non-empty. */
  function ProfileId(s: Socket): (r: Option<string>)
    ensures r.Some? <==> s.profile.Some? && s.profile.value.id.Some? && s.profile.value.id.value != ""
    ensures r.Some? ==> r == s.profile.value.id
  {
    if s.profile.Some? then OrNull(s.profile.value.id) else None
  }

  /** `socket?._socket?.remoteAddress || ""`. */
  function AddressOf(socket: Option<Socket>): string {
    if socket.Some? then socket.value.remoteAddress.GetOr("") else ""
  }

  /**
   * `getPlayerId(socket)`: the profile id if set, otherwise "anon-" followed by
   * the remote address (or "") with every ':' and '.' removed.
   */
  function GetPlayerId(socket: Option<Socket>): (id: string)
    ensures socket.Some? && ProfileId(socket.value).Some? ==> id == ProfileId(socket.value).value
    ensures socket.None? || ProfileId(socket.value).None? ==>
              && id == "anon-" + RemoveSeparators(AddressOf(socket))
              && |id| >= 5 && id[..5] == "anon-" && forall i :: 5 <= i < |id| ==> !IsSeparator(id[i])
  {
    if socket.Some? && ProfileId(socket.value).Some? then ProfileId(socket.value).value
    else "anon-" + RemoveSeparators(AddressOf(socket))
  }

  // ---------------------------------------------------------------------------
  // Lazy game creation.

  /** The game `ensureGame` creates: lobby phase, nothing dealt, turn index and time 0. */
  function NewGame(): GameState {
    GameState(Lobby, [], map[], [], None, 0, 0)
  }

  /** `ensureGame(room)`: create the game on first use, then always return the stored one. */
  method EnsureGame(room: Room) returns (g: GameState)
    modifies room`game
    ensures room.game == Some(g)
    ensures old(room.game).Some? ==> g == old(room.game).value
    ensures old(room.game).None? ==> g == NewGame()
  {
    if room.game.None? {
      room.game := Some(NewGame());
    }
    g := room.game.value;
  }

  /** Calling `ensureGame` twice returns the same game and leaves it stored. */
  method EnsureGameTwice(room: Room) returns (g1: GameState, g2: GameState)
    modifies room`game
    ensures g1 == g2 && room.game == Some(g1)
    ensures old(room.game).Some? ==> room.game == old(room.game)
  {
    g1 := EnsureGame(room);
    g2 := EnsureGame(room);
  }

  // ---------------------------------------------------------------------------
  // The public roster and state.

  /** One roster entry of `getRoomState`; falsy profile fields become null. */
  function Entry(readyById: Option<set<string>>, s: Socket): (v: PlayerView)
    ensures v.id == ProfileId(s)
    ensures s.profile.Some? ==>
              && v.username == OrNull(s.profile.value.username)
              && v.discriminator == OrNull(s.profile.value.discriminator)
              && v.avatarUrl == OrNull(s.profile.value.avatarUrl)
    ensures s.profile.None? ==> v.username.None? && v.discriminator.None? && v.avatarUrl.None?
    ensures v.ready <==> readyById.Some? && v.id.Some? && v.id.value in readyById.value
    ensures v.cards.None?
  {
    var p := if s.profile.Some? then s.profile.value else Profile(None, None, None, None);
    var id := ProfileId(s);
    PlayerView(id, OrNull(p.username), OrNull(p.discriminator), OrNull(p.avatarUrl),
               readyById.Some? && id.Some? && id.value in readyById.value, None)
  }

  function Roster(readyById: Option<set<string>>, players: seq<Socket>): (r: seq<PlayerView>)
    ensures |r| == |players|
    ensures forall i :: 0 <= i < |players| ==> r[i] == Entry(readyById, players[i])
  {
    seq(|players|, i requires 0 <= i < |players| => Entry(readyById, players[i]))
  }

  /** What `getRoomState(roomKey)` returns, as a function of the registry. */
  function RoomStateOf(rooms: map<string, Room>, roomKey: string): (st: PublicState)
    reads rooms.Values
    ensures roomKey !in rooms ==> st == PublicState(None, [], None)
    ensures roomKey in rooms ==>
              && st.header == Some(RoomHeader(rooms[roomKey].id, OrNull(rooms[roomKey].hostId)))
              && |st.players| == |rooms[roomKey].players|
              && forall i :: 0 <= i < |st.players| ==> st.players[i] == Entry(rooms[roomKey].readyById, rooms[roomKey].players[i])
    ensures st.game.None? && forall i :: 0 <= i < |st.players| ==> st.players[i].cards.None?
  {
    if roomKey !in rooms then PublicState(None, [], None)
    else
      var room := rooms[roomKey];
      PublicState(Some(RoomHeader(room.id, OrNull(room.hostId))), Roster(room.readyById, room.players), None)
  }

  /**
   * `getRoomState(roomKey)`: look the room up and push one roster entry per
   * member socket, in the set's order.
   */
  method GetRoomState(rooms: map<string, Room>, roomKey: string) returns (st: PublicState)
    ensures st == RoomStateOf(rooms, roomKey)
  {
    if roomKey !in rooms {
      return PublicState(None, [], None);
    }
    var room := rooms[roomKey];
    var players: seq<PlayerView> := [];
    for i := 0 to |room.players|
      invariant |players| == i
      invariant forall j :: 0 <= j < i ==> players[j] == Entry(room.readyById, room.players[j])
    {
      players := players + [Entry(room.readyById, room.players[i])];
    }
    st := PublicState(Some(RoomHeader(room.id, OrNull(room.hostId))), players, None);
  }

  /**
   * Readiness: entry i is ready exactly when its socket's profile has a
   * non-empty id that the room's ready set holds; so a socket without a
   * profile id is never ready.
   */
  lemma ReadyIffIdentifiedAndMarked(rooms: map<string, Room>, roomKey: string, i: nat)
    requires roomKey in rooms && i < |rooms[roomKey].players|
    ensures var room := rooms[roomKey];
            var s := room.players[i];
            RoomStateOf(rooms, roomKey).players[i].ready <==>
              ProfileId(s).Some? && room.readyById.Some? && ProfileId(s).value in room.readyById.value
    ensures ProfileId(rooms[roomKey].players[i]).None? ==> !RoomStateOf(rooms, roomKey).players[i].ready
  {
  }

  /** `playersOrder[currentTurnIndex] || null`. */
  function CurrentPlayer(g: GameState): (r: Option<string>)
    ensures r.Some? <==> 0 <= g.currentTurnIndex < |g.playersOrder| && g.playersOrder[g.currentTurnIndex] != ""
    ensures r.Some? ==> r.value == g.playersOrder[g.currentTurnIndex] && r.value in g.playersOrder
  {
    if 0 <= g.currentTurnIndex < |g.playersOrder| then OrNull(Some(g.playersOrder[g.currentTurnIndex])) else None
  }

  /** `hands.get(id)?.length || 0`: the size of the player's hand, 0 for a null id or no hand. */
  function CardCount(hands: map<string, seq<Card>>, id: Option<string>): (n: nat)
    ensures id.Some? && id.value in hands ==> n == |hands[id.value]|
    ensures id.None? || id.value !in hands ==> n == 0
  {
    if id.Some? && id.value in hands then |hands[id.value]| else 0
  }

  /** The roster with each entry's hand size added. */
  function WithCounts(players: seq<PlayerView>, hands: map<string, seq<Card>>): (r: seq<PlayerView>)
    ensures |r| == |players|
    ensures forall i :: 0 <= i < |players| ==> r[i] == players[i].(cards := Some(CardCount(hands, players[i].id)))
  {
    seq(|players|, i requires 0 <= i < |players| => players[i].(cards := Some(CardCount(hands, players[i].id))))
  }

  /**
   * `buildPublicState(room)`: the registry's state for `room.key`; when `room`
   * has a game, add the top card, the current player, the phase and each
   * entry's hand size.
   */
  function BuildPublicState(rooms: map<string, Room>, room: Room?): (st: PublicState)
    reads rooms.Values, room
    ensures var base := RoomStateOf(rooms, if room == null then "" else room.key);
            && st.header == base.header
            && |st.players| == |base.players|
            && (room == null || room.game.None? ==> st == base)
            && (room != null && room.game.Some? ==>
                  var g := room.game.value;
                  && st.game == Some(GameView(g.discardTop, CurrentPlayer(g), g.phase))
                  && forall i :: 0 <= i < |st.players| ==>
                       st.players[i] == base.players[i].(cards := Some(CardCount(g.hands, base.players[i].id))))
  {
    var base := RoomStateOf(rooms, if room == null then "" else room.key);
    if room != null && room.game.Some? then
      var g := room.game.value;
      PublicState(base.header, WithCounts(base.players, g.hands), Some(GameView(g.discardTop, CurrentPlayer(g), g.phase)))
    else base
  }

  /** Two hand maps that agree on who holds a hand and on how many cards each holds. */
  predicate SameHandSizes(h1: map<string, seq<Card>>, h2: map<string, seq<Card>>) {
    h1.Keys == h2.Keys && forall id :: id in h1 ==> |h1[id]| == |h2[id]|
  }

  /**
   * The public state never reveals a card in a hand: rooms under the same key
   * whose games differ only in the contents of equally sized hands have the
   * same public state.
   */
  lemma PublicStateHidesHands(rooms: map<string, Room>, r1: Room, r2: Room)
    requires r1.key == r2.key && r1.game.Some? && r2.game.Some?
    requires r1.game.value.(hands := map[]) == r2.game.value.(hands := map[])
    requires SameHandSizes(r1.game.value.hands, r2.game.value.hands)
    ensures BuildPublicState(rooms, r1) == BuildPublicState(rooms, r2)
  {
    var st1, st2 := BuildPublicState(rooms, r1), BuildPublicState(rooms, r2);
    var h1, h2 := r1.game.value.hands, r2.game.value.hands;
    forall i | 0 <= i < |st1.players| ensures st1.players[i] == st2.players[i] {
      var base := RoomStateOf(rooms, r1.key);
      assert CardCount(h1, base.players[i].id) == CardCount(h2, base.players[i].id);
    }
    assert CurrentPlayer(r1.game.value) == CurrentPlayer(r2.game.value);
  }

  /**
   * `buildPrivateSnapshot(room, playerId)`: the public state plus the
   * requested player's own hand, or [] when there is none.
   */
  function BuildPrivateSnapshot(rooms: map<string, Room>, room: Room?, playerId: string): (snap: Snapshot)
    reads rooms.Values, room
    ensures snap.kind == "snapshot"
    ensures snap.pub == BuildPublicState(rooms, room)
    ensures room != null && room.game.Some? && playerId in room.game.value.hands ==>
              snap.yourHand == room.game.value.hands[playerId]
    ensures room == null || room.game.None? || playerId !in room.game.value.hands ==> snap.yourHand == []
  {
    var hand := if room != null && room.game.Some? && playerId in room.game.value.hands
                then room.game.value.hands[playerId] else [];
    Snapshot("snapshot", BuildPublicState(rooms, room), hand)
  }

  /**
   * A snapshot reveals its own player's hand and no other: rooms whose games
   * differ only in the contents of other players' equally sized hands give
   * that player the same snapshot.
   */
  lemma SnapshotHidesOtherHands(rooms: map<string, Room>, r1: Room, r2: Room, playerId: string)
    requires r1.key == r2.key && r1.game.Some? && r2.game.Some?
    requires r1.game.value.(hands := map[]) == r2.game.value.(hands := map[])
    requires SameHandSizes(r1.game.value.hands, r2.game.value.hands)
    requires playerId in r1.game.value.hands ==> r1.game.value.hands[playerId] == r2.game.value.hands[playerId]
    ensures BuildPrivateSnapshot(rooms, r1, playerId) == BuildPrivateSnapshot(rooms, r2, playerId)
  {
    PublicStateHidesHands(rooms, r1, r2);
  }

  // ---------------------------------------------------------------------------
  // Sending. `send` hands one message to one socket; the transport's
  // readyState check and the JSON encoding are not modelled.

  /** `broadcast(roomKey, message)`: one delivery per member, in the set's order; none for an unknown key. */
  method Broadcast<M>(rooms: map<string, Room>, roomKey: string, message: M) returns (outs: seq<Delivery<M>>)
    ensures roomKey !in rooms ==> outs == []
    ensures roomKey in rooms ==>
              |outs| == |rooms[roomKey].players|
              && forall i :: 0 <= i < |outs| ==> outs[i] == Delivery(rooms[roomKey].players[i], message)
  {
    outs := [];
    if roomKey !in rooms {
      return;
    }
    var room := rooms[roomKey];
    for i := 0 to |room.players|
      invariant |outs| == i
      invariant forall j :: 0 <= j < i ==> outs[j] == Delivery(room.players[j], message)
    {
      outs := outs + [Delivery(room.players[i], message)];
    }
  }
}
