# WhisperZone room-state engine in Dafny

This project models the server of a small chat application (`app.py`).
Clients create or join rooms addressed by six-letter codes. They exchange
messages over a real-time channel, see who is present, and can archive a
room's transcript.

The model is one sequential state machine, the class `Chat.ChatServer`. It
has five fields:

- `rooms` is the shared store (Redis in the source). It maps a room code to a
  `Room` holding the two hash fields: `members` and the ordered `messages`
  log.
- `sessions` is each client's cookie session, written by the HTTP handlers:
  `Unbound`, or `Bound(room, name)`.
- `connections` is each socket connection's own copy of its client's
  session. Flask-SocketIO's default session handling, which app.py:28 keeps,
  takes this copy when the connection opens; the disconnect handler drops
  it. The three socket handlers read the copy, so a create-room or join-room made later over HTTP does not
  reach an open connection.
- `outbox` is every event pushed to the Socket.IO transport, in order. Each
  event carries its event name and is addressed to a room or to one client.
- `archive` is every record written to the archive collection (MongoDB in
  the source), in order.

The three HTTP handlers are `CreateRoom`, `JoinRoom` and `SaveChat`. The
three Socket.IO handlers are `HandleMessage`, `HandleConnect` and
`HandleDisconnect`. Room-code allocation is `GenerateUniqueCode`. Each
method's frame names only the fields the handler writes. Its postcondition
gives the complete new value of each of those fields, for every branch.

The object invariant `Valid()` says two things. Every stored room code is six
upper-case letters. No room's member list holds a name twice. Every handler
preserves it.

Modelling choices:

- A room's `members` is a Python dict from name to `True`. Only its keys
  matter, and `list(members.keys())` lists them in insertion order. It is
  modelled as the sequence of its keys (`Membership`). `AddMember` is
  `members[name] = True` and `RemoveMember` is `del members[name]`.
- The source builds store keys as `f"room:{code}"`. A missing code formats
  as `"room:None"` (`RoomKey`). `Valid()` proves such a key never names a
  room.
- `random.choice` is replaced by a parameter, `rounds`. It holds one list of
  alphabet indices per attempt. The caller must supply some attempt that
  spells a free code. `datetime.now()` is replaced by the `timestamp`
  parameter.
- The source only ever writes the session keys "room" and "name" together.
  So a session is either unbound or bound to both.

Behaviour of `app.py` worth knowing, which the model keeps:

- Join-room checks the name before the code (app.py:62-65). So a missing
  name gives "Name is required" even when the code names no room.
- On connect, the private member list is sent with `send`. So it goes out
  under the event name "message", not "members" (app.py:135). Only the
  broadcast to the room uses "members".
- The message handler checks only that the session's room exists
  (app.py:99-101). It does not check the name. Under the bound-session
  model, a name is present whenever a room is.
- Save-chat answers with a confirmation message, not a record identifier
  (app.py:91).
- A connection keeps the session it opened with (`StaleSessionScenario`).
  If a client joins another room over HTTP while its connection is open,
  its messages still go to, and are logged in, the first room. A later
  disconnect reads the same copy, so by `HandleDisconnect`'s contract it
  removes the name from the first room.

## Model

| member | source | states |
|---|---|---|
| `RoomCodes.Letter` | app.py:34 | the pick-th letter of `ascii_uppercase` is upper case and lies `pick` places after 'A' |
| `RoomCodes.LetterIsAsciiUppercase` | app.py:34 | `Letter(pick)` is exactly the pick-th character of "ABCDEFGHIJKLMNOPQRSTUVWXYZ", the value of `string.ascii_uppercase` |
| `RoomCodes.Spell` | app.py:34 | the code one attempt draws has one letter per pick, each the letter that pick chooses, so all are upper case |
| `RoomCodes.DrawCode` | app.py:34 | joining the chosen letters, in order, yields exactly the code the picks spell |
| `Chat.ChatServer.GenerateUniqueCode` | app.py:31-37 | the code has exactly `length` upper-case letters and is not a key of the store; it is the first attempt whose code is free, and every earlier attempt named an existing room |
| `Chat.ChatServer.CreateRoom` | app.py:40-52 | a missing or empty name gives "Name is required" and changes neither store nor sessions; otherwise the new code is a six-letter code absent before, the store gains exactly that room with empty members and messages, no other room changes, and the client's session is bound to (code, name) |
| `Chat.ChatServer.JoinRoom` | app.py:57-70 | a missing or empty name gives "Name is required"; then a code naming no room (a missing code included) gives "Room does not exist"; both leave sessions unchanged; otherwise the session is bound to (code, name); the store, outbox and archive are never touched |
| `Chat.ChatServer.SaveChat` | app.py:75-91 | a missing or empty room gives "Room ID is required" and an unknown room gives "Room does not exist", neither writing a record; otherwise exactly one record (room, current log) is appended to the archive and the live store is untouched |
| `Chat.ChatServer.HandleMessage` | app.py:97-115 | reading the connection's copy of the session: if its room is not in the store, nothing is stored or emitted; otherwise exactly one "message" event goes to the room with the entry (session name, data, timestamp), and that same entry is appended to the end of that room's log, with earlier entries and every other room unchanged |
| `Chat.ChatServer.HandleConnect` | app.py:118-140 | the connection first takes its copy of the client's session; without a bound session naming an existing room, nothing changes; otherwise the room's members become the old keys plus the name, and three events follow in order: that member list to this client, the same list to the room under "members", and the room's unchanged log to this client under "previous-messages" |
| `Chat.ChatServer.HandleDisconnect` | app.py:143-159 | the closed connection's session copy is dropped; reading that copy as it was: without a bound session naming an existing room, or when the name is not a member, nothing is stored or emitted; otherwise only that name is removed from the room's members and one "members" event with the remaining list goes to the room |
| `Membership.AddMember` | app.py:130-132 | after `members[name] = True` the name is a key, the keys are exactly the old keys plus the name, old keys keep their order in front, and keys stay distinct |
| `Membership.RemoveMember` | app.py:153-156 | after deleting a name, the keys are exactly the old keys other than that name; an absent name changes nothing; keys stay distinct, and a present name shortens the list by exactly one |
| `Membership.RemoveAt` | app.py:155 | deleting the key at position i closes the gap: the keys before and after it keep their order |
| `Membership.RemoveAfterAdd` | app.py:131-155 | a name that was not a member, added by a connect and then removed by a disconnect, leaves the member list exactly as it was |
| `Membership.NoDupAppend` | app.py:131 | inserting a new key at the end keeps all keys distinct |
| `Chat.PresenceScenario` | app.py:117-159 | Alice creates a room and connects. She is sent, in order, ["alice"] under "message" to her connection, ["alice"] under "members" to the room, and an empty log under "previous-messages" to her connection. After Bob joins and connects and Alice disconnects, the room is sent ["bob"] under "members" |
| `Chat.BobJoinsAliceLeaves` | app.py:57-159 | from a room holding only Alice, with her connection open, Bob joins and connects and Alice disconnects; the last event in the outbox is "members" to that room with ["bob"] |
| `Chat.ArchiveScenario` | app.py:75-115 | Alice's "hi" is sent under "message" to her room, carrying her name, the text and the timestamp; saving the room twice gives two records, each (room, ["hi" entry]) |
| `Chat.SendAndSaveTwice` | app.py:75-115 | from an empty room and empty archive, one message and two saves leave exactly two equal archive records holding that message; the message adds exactly one event to the outbox, and that event is the message to the room |
| `Chat.StaleSessionScenario` | app.py:28-115 | two distinct rooms are created; Alice connects while bound to the first, then joins the second over HTTP; her next message is still sent to the first room |
| `Chat.ConnectRejoinAndSend` | app.py:57-115 | after connecting while bound to the first room and then joining the second, the session names the second room, yet the event the message adds last to the outbox goes to the first room, and the message is the last entry of the first room's log |

## Left out

- Flask routing, `request.json` parsing, HTTP status codes, CORS and the secret key (app.py:14-17). Results are the `Response` datatype.
- The Redis, MongoDB and Socket.IO clients and the server start-up (app.py:19-28, 161-162). They are replaced by the `rooms`, `archive` and `outbox` fields. The "room:" key prefix is dropped, and rooms are keyed by code.
- JSON serialisation of the hash fields (app.py:48-49, 113-115, 130-132, 139). Structured values are stored directly. For the same reason the `or "[]"` fallback in save-chat is not modelled: a stored `Room` always has its messages field.
- The value `True` stored under each member name. It is never read, so only the keys are modelled.
- `random.choice` and `datetime.now().strftime` (app.py:34, 106). They become the `rounds` and `timestamp` parameters. The timestamp's format is not checked.
- `Chat.ChatServer.GenerateUniqueCode`: the source retries forever. The model requires that some supplied attempt is free. A random source on which every attempt collides is not modelled.
- `join_room(room)` (app.py:127): registering the connection in the room's delivery group belongs to the transport. Events addressed `ToRoom(code)` are not resolved to recipients.
- The `except Exception` branches (app.py:53-54, 71-72, 92-93). They only catch failures of the store, archive or session calls, which the in-memory model cannot raise.
- A `ClientId` stands for one socket connection together with its session cookie. Two connections sharing one cookie (two browser tabs) cannot be expressed.
- Concurrency: the read-modify-write races between simultaneous handlers. Handlers run one at a time.
- The `KeyError` raised when a message event has no "data" field (app.py:105). `HandleMessage` takes the message text directly.
- Request fields that are JSON values other than strings (numbers, lists). Names, codes and room ids are optional strings. Python truthiness on them is `Truthy`: present and not empty.
