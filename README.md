# Card-game room server, modelled in Dafny

This project models the server side of a small multiplayer card game. The game runs as a Discord activity whose clients talk to a Node.js WebSocket server. Three parts are modelled:

- **Card rules and the deck** (`server/lib/game.js`, module `Game` in `game.dfy`):
  - The four colours and the fixed 76-card deck. `createDeck` is a method with its two nested loops. It is proved equal to a specification `Deck()`, which is laid out in blocks of 19 cards, one per colour.
  - The in-place Fisher–Yates shuffle. `shuffleInPlace` is a method on an `array`, with its decreasing swap loop. The random index of each step is a caller-supplied choice `picks[i]` in `[0, i]`.
  - The two card predicates, `cardEquals` and `canPlay`, plus the client's copy of `canPlay`.
- **Room data shapes and views** (`server/lib/rooms.js`, module `Rooms` in `rooms.dfy`):
  - Composite room keys `guild:short` and the derivation of player ids.
  - Lazy game creation. `ensureGame` mutates a `Room` object, so `Room` is a class.
  - The roster (`getRoomState`, a method with its loop), the public state and the private snapshot.
  - `broadcast`, as a list of deliveries.
  - The module-level `rooms` registry is an explicit `map<string, Room>` parameter.
- **The WebSocket server's room registry** (`server/server.js`, module `Server` in `server.dfy`):
  - The registry is a class `Registry` with two fields:
    - `rooms`: room id to members and creation time;
    - `roomOf`: each socket's `__roomId`.
  - Each handler is a method that returns the messages it sends, in order, as `Delivery(recipient, message)` records. The handlers are the connection greeting, the `message` handler's branches and the `close` handler.
  - Every method is specified by a pure step function of the registry: `CreateStep`, `JoinStep`, `LeaveStep`, `CloseStep`, `Dispatch`. The lemmas state the handlers' promises about these functions, including the registry invariant: no registered room is empty, and no member is listed twice.
  - This registry is independent of the one in `rooms.js`.

Module `JsText` (`js_text.dfy`) writes out the JavaScript string operations the code relies on:

- `slice`;
- `toUpperCase` on base-36 digits;
- the shape of `Math.random().toString(36)`;
- `trim` with ECMAScript's whitespace set.

Module `Options` holds an `Option` type, which stands for JavaScript's `null`/`undefined`. Module `Seqs` (`seqs.dfy`) holds the `NoDuplicates` predicate that `Game` and `Server` share.

The sets of sockets are modelled differently in the two registries:

- In `server.dfy`, each JavaScript `Set` of sockets is a `seq` in insertion order, the order in which `broadcast` iterates. The registry invariant `Inv` guarantees that no socket occurs twice.
- In `rooms.dfy`, `Room.players` is the iteration order of the room's set of sockets. The code that fills this set is not part of this model, so no contract there assumes the sockets are distinct. The roster and `broadcast` are stated entry by entry over whatever sequence the room holds.

The model follows the code as written, including three behaviours a reader may not expect:

- `heartbeat_ack` carries the server's own clock reading `now` and echoes only `requestId`.
- `create_room` stores the new room under its id without looking for a collision, so an older room with the same id is replaced. Its members keep pointing at that id.
- `join_room` has no check for a game in progress, and it never takes the socket out of the room it was in before.

Two consequences follow from `roomId && rooms.has(roomId)`, and the model keeps both. Math.random can return exactly 0, which renders as "0", so `createRoomId` can return "". A room stored under "" can then be joined, but no socket can ever leave it, and `close` does not remove a socket from it either.

## Model

| member | source | states |
|---|---|---|
| Game.CardEquals | server/lib/game.js:26-28 | holds exactly when both cards are present and are the same card (same colour and value) |
| Game.CardEqualsEquivalence | server/lib/game.js:26-28 | `cardEquals` is reflexive on present cards, symmetric and transitive |
| Game.CanPlay | server/lib/game.js:30-33 | false whenever either card is missing |
| Game.CanPlayProperties | server/lib/game.js:30-33 | symmetric; implied by `cardEquals`; on present cards, true iff the colours match or the values match |
| Game.CanPlayClient | client/lib/ui.js:41-44 | the client's copy agrees with `canPlay` on every input |
| Game.CreateDeck | server/lib/game.js:3-14 | the nested loops build exactly the specified deck `Deck()` |
| Game.DeckLayout | server/lib/game.js:6-12 | the deck has 76 cards; index i holds colour `COLORS[i / 19]` and value `(i % 19 + 1) / 2`, so each colour block is 0, 1, 1, ..., 9, 9 |
| Game.DeckCardsWellFormed | server/lib/game.js:1-12 | every deck card has a colour from `COLORS` and a value in 0..9 |
| Game.DeckCount | server/lib/game.js:6-12 | each colour of `COLORS` has exactly one 0 and two of each of 1..9; no other card occurs |
| Game.ShuffleInPlace | server/lib/game.js:16-24 | returns the same array; its new contents are the specified `Shuffle` of the old contents under the given choices |
| Game.Shuffle | server/lib/game.js:16-24 | keeps the length; arrays of length 0 or 1 are unchanged |
| Game.ShufflePermutes | server/lib/game.js:17-23 | for every valid choice sequence, the result is a permutation of the input (same multiset) |
| Game.StepsAt | server/lib/game.js:17-23 | once the loop has passed index i, position i keeps the element swapped there; positions above the current index are never touched again |
| Rooms.CreateShortRoomId | server/lib/rooms.js:6-8 | at most 6 characters, all upper-case base-36 digits |
| Rooms.MakeRoomKey | server/lib/rooms.js:10-12 | the key is the guild id, then ':' at position `|guildId|`, then the short id |
| Rooms.RoomKeyRoundTrip | server/lib/rooms.js:10-12 | for a guild id without ':', splitting the key at its first ':' recovers the guild id and the short id |
| Rooms.MakeRoomKeyInjective | server/lib/rooms.js:10-12 | for guild ids without ':', distinct (guild, short id) pairs give distinct keys |
| Rooms.ProfileId | server/lib/rooms.js:15 | present exactly when the socket has a profile whose id is set and non-empty, and then it is that id |
| Rooms.GetPlayerId | server/lib/rooms.js:14-16 | the profile id when it is set and non-empty; otherwise "anon-" followed by the remote address (or "") with its separators removed, so it has no ':' and no '.' |
| Rooms.RemoveSeparatorsAppend | server/lib/rooms.js:15 | removing ':' and '.' works piece by piece over a concatenation, so the kept characters stay in their order |
| Rooms.RemoveSeparatorsChar | server/lib/rooms.js:15 | a single character is dropped exactly when it is ':' or '.' |
| Rooms.RemoveSeparatorsKeepsOthers | server/lib/rooms.js:15 | removing ':' and '.' keeps every other character of the address, as often as it occurs |
| Rooms.EnsureGame | server/lib/rooms.js:18-31 | afterwards the room has a game, which is the result; an existing game is returned untouched; otherwise a fresh lobby game is stored |
| Rooms.EnsureGameTwice | server/lib/rooms.js:18-31 | calling it twice returns the same game and leaves an existing game in place |
| Rooms.Entry | server/lib/rooms.js:38-45 | an entry's id is the member's profile id; its display fields are the profile's, with empty or missing ones null; it is ready iff the id is in `readyById`; it has no card count |
| Rooms.RoomStateOf | server/lib/rooms.js:33-47 | an unregistered key gives no header and no players; a registered one gives its id, its host (or null), and entry i is the `Entry` of member socket i, in iteration order; no game fields |
| Rooms.GetRoomState | server/lib/rooms.js:33-47 | the loop builds exactly `RoomStateOf` |
| Rooms.ReadyIffIdentifiedAndMarked | server/lib/rooms.js:44 | an entry is ready iff its profile has an id and that id is in `readyById`; anonymous members are never ready |
| Rooms.CurrentPlayer | server/lib/rooms.js:54 | present iff the turn index is in range and that entry is non-empty, and then it is that entry of `playersOrder` |
| Rooms.BuildPublicState | server/lib/rooms.js:50-62 | with no room or no game it equals the roster state; with a game it adds the top card, current player and phase, and to each entry only its hand size |
| Rooms.PublicStateHidesHands | server/lib/rooms.js:52-60 | games that differ only in the contents of equally sized hands give the same public state |
| Rooms.BuildPrivateSnapshot | server/lib/rooms.js:64-73 | kind "snapshot"; the public state plus the requested player's own hand, or [] when that player has none |
| Rooms.SnapshotHidesOtherHands | server/lib/rooms.js:64-73 | a snapshot does not depend on the contents of other players' hands |
| Rooms.Broadcast | server/lib/rooms.js:81-87 | no deliveries for an unknown key; otherwise one delivery of the message per member, in order |
| JsText.RandomCode | server/server.js:36 | at most `width` upper-case base-36 characters; empty exactly when the random number was 0 |
| JsText.TrimIsMiddle | server/server.js:72 | the trimmed id is a contiguous slice of the field with only whitespace cut off each end |
| JsText.TrimIdempotent | server/server.js:72 | trimming a trimmed text changes nothing |
| Server.CreateRoomId | server/server.js:35-37 | at most 4 characters, all upper-case base-36 digits |
| Server.Add | server/server.js:78 | `Set.add`: members become the old ones plus the socket, never listed twice |
| Server.Remove | server/server.js:90 | `Set.delete`: members become the old ones without the socket; the count drops by one exactly when it was a member; a non-member leaves the list unchanged |
| Server.RemoveClosesGap | server/server.js:90 | deleting the member at position k leaves the others in their order, with that slot closed up |
| Server.CreateRegistersCreator | server/server.js:62-68 | the room under the new id has only the creator, replacing any room already there; only the creator's `__roomId` changes, so members of a replaced room keep pointing at its id; the reply is `room_created`; other rooms are unchanged |
| Server.CreateKeepsInv | server/server.js:63-65 | creating a room keeps every registered room non-empty and free of repeats |
| Server.JoinUnknownRoom | server/server.js:72-77 | an unknown trimmed id gives `room_not_found` to the caller only, and nothing changes |
| Server.JoinKnownRoom | server/server.js:78-79 | the caller is added with set semantics and points at the room; no room is added or removed; other rooms, and any previous room of the caller, are unchanged |
| Server.JoinKnownRoomReplies | server/server.js:80-81 | `joined` to the caller first, then `room_update` with the member count to every member, caller included |
| Server.JoinKeepsInv | server/server.js:78-79 | joining keeps every registered room non-empty and free of repeats |
| Server.LeaveRegisteredRoom | server/server.js:86-97 | the caller is removed and loses its room; `left` comes first; the room is deleted exactly when it became empty, otherwise the remaining members get the new count; other rooms are unchanged |
| Server.LeaveOutsideRoomIsNoOp | server/server.js:88-96 | `leave_room` and `close` from a socket without a registered room change nothing and send nothing |
| Server.CloseIsLeaveWithoutReply | server/server.js:108-117 | `close` leaves the rooms as `leave_room` does and sends the same updates, without `left`; the socket's `__roomId` is kept |
| Server.DepartKeepsInv | server/server.js:90-94 | removing a member and deleting an emptied room leaves no empty room and adds no room |
| Server.LeaveKeepsInv | server/server.js:93 | after `leave_room` or `close`, no registered room is empty |
| Server.DispatchKeepsInv | server/server.js:45-117 | every handler, and `close`, keeps every registered room non-empty and free of repeats |
| Server.DispatchOtherTypes | server/server.js:45-107 | unparseable input is dropped silently; `heartbeat`, `ping` and unknown types get exactly one reply (`heartbeat_ack` echoing `requestId`, `pong`, `unknown_type` with `received`); the registry is unchanged |
| Server.RepliesFirstErrorsAlone | server/server.js:45-107 | a handler's first message goes to the sender; an error reply is the only message, and the registry is unchanged |
| Server.Registry.constructor | server/server.js:19 | the registry starts empty and valid |
| Server.Registry.Broadcast | server/server.js:27-33 | one delivery per member of the room, in order; none for an unknown room |
| Server.Registry.Connect | server/server.js:43 | a new connection is greeted with `hello` and the current time |
| Server.Registry.CreateRoom | server/server.js:62-68 | the new registry and the messages are those of `CreateStep`; the invariant is kept |
| Server.Registry.JoinRoom | server/server.js:73-82 | the new registry and the messages are those of `JoinStep`; the invariant is kept |
| Server.Registry.LeaveRoom | server/server.js:86-97 | the new registry and the messages are those of `LeaveStep`; the invariant is kept |
| Server.Registry.Close | server/server.js:108-117 | the new registry and the messages are those of `CloseStep`; the invariant is kept |
| Server.Registry.HandleMessage | server/server.js:45-107 | the new registry and the messages are those of `Dispatch`; the invariant is kept |

## Left out

- Transport: the `readyState === 1` check in `send`, `JSON.stringify` and `socket.send` are not modelled. A send is a `Delivery` record appended to the handler's output.
- JSON parsing: it is reduced to `Unparseable`, or a message with optional `type`, `requestId` and `data.roomId`. Fields that are not strings, and the `toString()` of a non-string `roomId`, are not modelled.
- Randomness: `Math.random` is replaced by a caller-supplied value. For the shuffle, this is the choice of swap index at each step. For the room ids, it is the `toString(36)` rendering of the random number; floats are not modelled.
- Clock: `Date.now()` is the parameter `now`.
- Logging: `console.log` is not modelled.
- Server setup: the express app, the `/health` route, the HTTP server, the `WebSocketServer` setup and `listen` (server/server.js:1-16, 120-122) are outside the model.
- Other files: `api/token.js`, the token exchange with Discord, is foreign I/O. The client files (DOM rendering, Discord SDK, reconnecting socket, client state, build configuration) are not part of this model, apart from the client's `canPlayClient`.
- `userIdToRoomId` (server/lib/rooms.js:4) is declared but never used. `gameFns` (server/lib/rooms.js:89) only re-exports game functions. Neither has behaviour to model.
- `send` in rooms.js (server/lib/rooms.js:75-79) is modelled only as the `Delivery` records of `Rooms.Broadcast`.
- Identify, ready, start, play/draw/pass, a turn-timeout watchdog, ping eviction and reconnect mapping have no code in these files and are not modelled.
- Rooms.EnsureGame: the returned game is a value. Later mutation through the JavaScript alias `room.game` is not modelled.
- JsText.ToUpper: upper-cases ASCII letters only. It is applied only to base-36 digits, where this agrees with `toUpperCase`.
- Server.Registry.JoinRoom: takes the already trimmed room id. The trimming happens in `Server.Registry.HandleMessage` through `Server.JoinTarget`.
