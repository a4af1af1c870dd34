/** The room-state engine of the chat server (app.py): the shared room store,
    the per-client session binding, the events pushed to clients and the
    archive of saved transcripts, with the three request handlers and the
    three real-time handlers that read and update them. */
module Chat {
  import opened RoomCodes
  import opened Membership

  datatype Option<T> = None | Some(value: T)

  /** Identifies one client: its session cookie and its socket connection (`request.sid`). */
  type ClientId = nat

  /** One entry of a room's log, as built by the message handler. */
  datatype Message = Message(name: Name, message: string, timestamp: string)

  /** The two fields of a room's hash in the store. */
  datatype Room = Room(members: seq<Name>, messages: seq<Message>)

  /** The session keys "room" and "name", which the source always writes together. */
  datatype Session = Unbound | Bound(room: Code, name: Name)

  /** Where an event goes: to every connection in a room, or to one connection. */
  datatype Target = ToRoom(room: Code) | ToClient(client: ClientId)

  datatype Payload =
    | ChatEntry(entry: Message)
    | MemberList(members: seq<Name>)
    | History(messages: seq<Message>)

  /** An event pushed to the transport, under its Socket.IO event name. */
  datatype Event = Event(event: string, to: Target, payload: Payload)

  /** `send(...)` emits under this name. */
  const MessageEvent: string := "message"
  const MembersEvent: string := "members"
  const PreviousMessagesEvent: string := "previous-messages"

  /** A document written to the archive collection by save-chat. */
  datatype ArchiveRecord = ArchiveRecord(roomId: Code, messages: seq<Message>)

  /** The request errors: "Name is required", "Room ID is required" and "Room does not exist". */
  datatype ApiError = NameRequired | RoomIdRequired | RoomDoesNotExist

  /** The JSON bodies of the three request handlers. */
  datatype Response = Entered(room: Code, name: Name) | ChatSaved | Failed(error: ApiError)

  /** Python truthiness of an optional string: present and not empty. */
  predicate Truthy(s: Option<string>) {
    s.Some? && s.value != ""
  }

  /** The code part of the store key `f"room:{code}"`; a missing value formats as "None". */
  function RoomKey(code: Option<Code>): string {
    if code.Some? then code.value else "None"
  }

  class ChatServer {
    /** The shared store: room code to room hash. */
    var rooms: map<Code, Room>
    /** Each client's cookie session, written by create-room and join-room;
        a client without an entry is unbound. */
    var sessions: map<ClientId, Session>
    /** Each socket connection's own copy of its client's session, taken when
        it connects and dropped when it disconnects; the socket handlers read
        this copy, so a later create-room or join-room does not reach an open
        connection. */
    var connections: map<ClientId, Session>
    /** Every event emitted so far, oldest first. */
    var outbox: seq<Event>
    /** Every archive record written so far, oldest first. */
    var archive: seq<ArchiveRecord>

    /** Every stored room was allocated under a generated code, and its members are distinct keys. */
    ghost predicate Valid()
      reads this
    {
      forall code :: code in rooms ==> IsRoomCode(code) && NoDup(rooms[code].members)
    }

    constructor ()
      ensures Valid()
      ensures rooms == map[] && sessions == map[] && connections == map[]
      ensures outbox == [] && archive == []
    {
      rooms, sessions, connections, outbox, archive := map[], map[], map[], [], [];
    }

    function SessionOf(client: ClientId): Session
      reads this
    {
      if client in sessions then sessions[client] else Unbound
    }

    /** The session a socket handler sees on this client's connection. */
    function ConnectionSession(client: ClientId): Session
      reads this
    {
      if client in connections then connections[client] else Unbound
    }

    /** `session.get("room")` inside a socket handler. */
    function SessionRoom(client: ClientId): Option<Code>
      reads this
    {
      if ConnectionSession(client).Bound? then Some(ConnectionSession(client).room) else None
    }

    /** The guards of the connect and disconnect handlers: a bound session
        with a non-empty room and name, naming a room that is in the store. */
    predicate PresenceAllowed(s: Session)
      reads this
    {
      s.Bound? && s.room != "" && s.name != "" && s.room in rooms
    }

    /** Retries random codes until one is not in the store. `rounds[k]` holds
        the picks of the k-th attempt; some attempt must spell a free code. */
    method GenerateUniqueCode(length: nat, rounds: seq<seq<nat>>) returns (code: Code)
      requires WellFormedDraws(rounds, length)
      requires exists k :: 0 <= k < |rounds| && Spell(rounds[k]) !in rooms
      ensures |code| == length && AllUppercase(code)
      ensures code !in rooms
      ensures exists k :: 0 <= k < |rounds| && code == Spell(rounds[k]) &&
                forall j :: 0 <= j < k ==> Spell(rounds[j]) in rooms
    {
      ghost var free :| 0 <= free < |rounds| && Spell(rounds[free]) !in rooms;
      var k := 0;
      code := DrawCode(rounds[k]);
      while code in rooms
        invariant 0 <= k <= free && code == Spell(rounds[k])
        invariant forall j :: 0 <= j < k ==> Spell(rounds[j]) in rooms
        decreases free - k
      {
        k := k + 1;
        code := DrawCode(rounds[k]);
      }
    }

    /** POST create-room */
    method CreateRoom(client: ClientId, name: Option<Name>, rounds: seq<seq<nat>>) returns (r: Response)
      requires Valid()
      requires WellFormedDraws(rounds, CodeLength)
      requires Truthy(name) ==> exists k :: 0 <= k < |rounds| && Spell(rounds[k]) !in rooms
      modifies this`rooms, this`sessions
      ensures Valid()
      ensures !Truthy(name) ==>
                r == Failed(NameRequired) && rooms == old(rooms) && sessions == old(sessions)
      ensures Truthy(name) ==>
                r.Entered? && r.name == name.value && IsRoomCode(r.room) &&
                r.room !in old(rooms) && rooms == old(rooms)[r.room := Room([], [])] &&
                sessions == old(sessions)[client := Bound(r.room, r.name)]
    {
      if !Truthy(name) {
        return Failed(NameRequired);
      }
      var code := GenerateUniqueCode(CodeLength, rounds);
      rooms := rooms[code := Room([], [])];
      sessions := sessions[client := Bound(code, name.value)];
      r := Entered(code, name.value);
    }

    /** POST join-room */
    method JoinRoom(client: ClientId, name: Option<Name>, code: Option<Code>) returns (r: Response)
      requires Valid()
      modifies this`sessions
      ensures Valid()
      ensures !Truthy(name) ==> r == Failed(NameRequired)
      ensures Truthy(name) && RoomKey(code) !in rooms ==> r == Failed(RoomDoesNotExist)
      ensures Truthy(name) && RoomKey(code) in rooms ==>
                code.Some? && code.value in rooms && r == Entered(code.value, name.value)
      ensures sessions == if r.Entered? then old(sessions)[client := Bound(r.room, r.name)]
                          else old(sessions)
    {
      if !Truthy(name) {
        return Failed(NameRequired);
      }
      if RoomKey(code) !in rooms {
        return Failed(RoomDoesNotExist);
      }
      // "None" is not a generated code, so a missing code never names a room.
      assert !IsRoomCode(RoomKey(None));
      sessions := sessions[client := Bound(code.value, name.value)];
      r := Entered(code.value, name.value);
    }

    /** POST save-chat */
    method SaveChat(room: Option<Code>) returns (r: Response)
      requires Valid()
      modifies this`archive
      ensures Valid()
      ensures !Truthy(room) ==> r == Failed(RoomIdRequired) && archive == old(archive)
      ensures Truthy(room) && room.value !in rooms ==>
                r == Failed(RoomDoesNotExist) && archive == old(archive)
      ensures Truthy(room) && room.value in rooms ==>
                r == ChatSaved &&
                archive == old(archive) + [ArchiveRecord(room.value, rooms[room.value].messages)]
    {
      if !Truthy(room) {
        return Failed(RoomIdRequired);
      }
      if room.value !in rooms {
        return Failed(RoomDoesNotExist);
      }
      archive := archive + [ArchiveRecord(room.value, rooms[room.value].messages)];
      r := ChatSaved;
    }

    /** The "message" event: broadcast the entry to the room, then append it to the log. */
    method HandleMessage(client: ClientId, data: string, timestamp: string)
      requires Valid()
      modifies this`rooms, this`outbox
      ensures Valid()
      ensures RoomKey(SessionRoom(client)) !in old(rooms) ==>
                rooms == old(rooms) && outbox == old(outbox)
      ensures RoomKey(SessionRoom(client)) in old(rooms) ==>
                var s := ConnectionSession(client);
                var entry := Message(s.name, data, timestamp);
                s.Bound? && s.room in old(rooms) &&
                outbox == old(outbox) + [Event(MessageEvent, ToRoom(s.room), ChatEntry(entry))] &&
                rooms == old(rooms)[s.room := old(rooms)[s.room].(messages := old(rooms)[s.room].messages + [entry])]
    {
      var room := SessionRoom(client);
      if RoomKey(room) !in rooms {
        return;
      }
      assert !IsRoomCode(RoomKey(None));
      var content := Message(ConnectionSession(client).name, data, timestamp);
      outbox := outbox + [Event(MessageEvent, ToRoom(room.value), ChatEntry(content))];
      var messages := rooms[room.value].messages;
      messages := messages + [content];
      rooms := rooms[room.value := rooms[room.value].(messages := messages)];
    }

    /** The "connect" event: the connection takes its copy of the client's
        session; then add the name to the room's members, send the member
        list to this client and to the room, then send this client the log. */
    method HandleConnect(client: ClientId)
      requires Valid()
      modifies this`connections, this`rooms, this`outbox
      ensures Valid()
      ensures connections == old(connections)[client := SessionOf(client)]
      ensures !old(PresenceAllowed(SessionOf(client))) ==> rooms == old(rooms) && outbox == old(outbox)
      ensures old(PresenceAllowed(SessionOf(client))) ==>
                var s := SessionOf(client);
                var before := old(rooms)[s.room];
                var ms := AddMember(before.members, s.name);
                rooms == old(rooms)[s.room := before.(members := ms)] &&
                outbox == old(outbox) + [Event(MessageEvent, ToClient(client), MemberList(ms)),
                                         Event(MembersEvent, ToRoom(s.room), MemberList(ms)),
                                         Event(PreviousMessagesEvent, ToClient(client), History(before.messages))]
    {
      connections := connections[client := SessionOf(client)];
      var s := ConnectionSession(client);
      if s.Unbound? || s.room == "" || s.name == "" {
        return;
      }
      if s.room !in rooms {
        return;
      }
      var members := rooms[s.room].members;
      members := AddMember(members, s.name);
      rooms := rooms[s.room := rooms[s.room].(members := members)];
      outbox := outbox + [Event(MessageEvent, ToClient(client), MemberList(members))];
      outbox := outbox + [Event(MembersEvent, ToRoom(s.room), MemberList(members))];
      var previous := rooms[s.room].messages;
      outbox := outbox + [Event(PreviousMessagesEvent, ToClient(client), History(previous))];
    }

    /** The "disconnect" event: the connection and its session copy are gone;
        if the name is a member, remove it and send the remaining members to
        the room; otherwise the store and the outbox are unchanged. */
    method HandleDisconnect(client: ClientId)
      requires Valid()
      modifies this`connections, this`rooms, this`outbox
      ensures Valid()
      ensures connections == old(connections) - {client}
      ensures !old(PresenceAllowed(ConnectionSession(client))) ==> rooms == old(rooms) && outbox == old(outbox)
      ensures old(PresenceAllowed(ConnectionSession(client))) ==>
                var s := old(ConnectionSession(client));
                var before := old(rooms)[s.room];
                if s.name in before.members then
                  var ms := RemoveMember(before.members, s.name);
                  rooms == old(rooms)[s.room := before.(members := ms)] &&
                  outbox == old(outbox) + [Event(MembersEvent, ToRoom(s.room), MemberList(ms))]
                else
                  rooms == old(rooms) && outbox == old(outbox)
    {
      var s := ConnectionSession(client);
      connections := connections - {client};
      if s.Unbound? || s.room == "" || s.name == "" {
        return;
      }
      if s.room !in rooms {
        return;
      }
      var members := rooms[s.room].members;
      if s.name in members {
        members := RemoveMember(members, s.name);
        rooms := rooms[s.room := rooms[s.room].(members := members)];
        outbox := outbox + [Event(MembersEvent, ToRoom(s.room), MemberList(members))];
      }
    }
  }

  /** Alice creates a room and connects; Bob joins and connects; Alice
      disconnects. Each connect reports the member list after its own join,
      and Alice's departure leaves Bob alone in the list sent to the room. */
  method PresenceScenario() returns (code: Code, aliceSees: seq<Event>, lastSent: Event)
    ensures IsRoomCode(code)
    ensures aliceSees == [Event(MessageEvent, ToClient(1), MemberList(["alice"])),
                          Event(MembersEvent, ToRoom(code), MemberList(["alice"])),
                          Event(PreviousMessagesEvent, ToClient(1), History([]))]
    ensures lastSent == Event(MembersEvent, ToRoom(code), MemberList(["bob"]))
  {
    var server := new ChatServer();
    var rounds := [[0, 0, 0, 0, 0, 0]];
    assert Spell(rounds[0]) !in server.rooms;
    var created := server.CreateRoom(1, Some("alice"), rounds);
    code := created.room;
    assert server.rooms == map[code := Room([], [])];
    assert server.SessionOf(1) == Bound(code, "alice") && server.PresenceAllowed(server.SessionOf(1));
    server.HandleConnect(1);
    assert AddMember([], "alice") == ["alice"];
    assert server.rooms[code] == Room(["alice"], []);
    assert server.ConnectionSession(1) == Bound(code, "alice");
    aliceSees := server.outbox;
    lastSent := BobJoinsAliceLeaves(server, code);
  }

  /** The second half of the presence scenario, from a room holding only
      Alice, whose connection is open. */
  method BobJoinsAliceLeaves(server: ChatServer, code: Code) returns (lastSent: Event)
    requires server.Valid() && IsRoomCode(code)
    requires code in server.rooms && server.rooms[code] == Room(["alice"], [])
    requires server.ConnectionSession(1) == Bound(code, "alice")
    modifies server
    ensures |server.outbox| > 0 && lastSent == server.outbox[|server.outbox| - 1]
    ensures lastSent == Event(MembersEvent, ToRoom(code), MemberList(["bob"]))
  {
    var joined := server.JoinRoom(2, Some("bob"), Some(code));
    assert server.SessionOf(2) == Bound(code, "bob") && server.PresenceAllowed(server.SessionOf(2));
    server.HandleConnect(2);
    assert "bob" !in ["alice"];
    assert AddMember(["alice"], "bob") == ["alice", "bob"];
    assert server.rooms[code] == Room(["alice", "bob"], []);
    assert server.ConnectionSession(1) == Bound(code, "alice");
    assert server.PresenceAllowed(server.ConnectionSession(1));
    Membership.RemoveAt(["alice", "bob"], 0);
    assert RemoveMember(["alice", "bob"], "alice") == ["bob"];
    server.HandleDisconnect(1);
    lastSent := server.outbox[|server.outbox| - 1];
  }

  /** A message is broadcast to the room and logged; saving twice yields two
      records of the same transcript. */
  method ArchiveScenario() returns (code: Code, sent: Event, records: seq<ArchiveRecord>)
    ensures IsRoomCode(code)
    ensures sent == Event(MessageEvent, ToRoom(code), ChatEntry(Message("alice", "hi", "2024-01-01 12:00:00")))
    ensures records == [ArchiveRecord(code, [Message("alice", "hi", "2024-01-01 12:00:00")]),
                        ArchiveRecord(code, [Message("alice", "hi", "2024-01-01 12:00:00")])]
  {
    var server := new ChatServer();
    var rounds := [[7, 8, 0, 0, 0, 0]];
    assert Spell(rounds[0]) !in server.rooms;
    var created := server.CreateRoom(1, Some("alice"), rounds);
    code := created.room;
    assert server.SessionOf(1) == Bound(code, "alice");
    server.HandleConnect(1);
    assert server.ConnectionSession(1) == Bound(code, "alice");
    assert code in server.rooms && server.rooms[code].messages == [];
    sent, records := SendAndSaveTwice(server, code);
  }

  /** The second half of the archive scenario: Alice, connected to an empty
      room with an empty archive, sends "hi" and the room is saved twice. */
  method SendAndSaveTwice(server: ChatServer, code: Code) returns (sent: Event, records: seq<ArchiveRecord>)
    requires server.Valid() && IsRoomCode(code)
    requires code in server.rooms && server.rooms[code].messages == [] && server.archive == []
    requires server.ConnectionSession(1) == Bound(code, "alice")
    modifies server
    ensures server.outbox == old(server.outbox) + [sent]
    ensures sent == Event(MessageEvent, ToRoom(code), ChatEntry(Message("alice", "hi", "2024-01-01 12:00:00")))
    ensures records == server.archive
    ensures records == [ArchiveRecord(code, [Message("alice", "hi", "2024-01-01 12:00:00")]),
                        ArchiveRecord(code, [Message("alice", "hi", "2024-01-01 12:00:00")])]
  {
    server.HandleMessage(1, "hi", "2024-01-01 12:00:00");
    sent := server.outbox[|server.outbox| - 1];
    assert server.rooms[code].messages == [Message("alice", "hi", "2024-01-01 12:00:00")];
    var first := server.SaveChat(Some(code));
    var second := server.SaveChat(Some(code));
    records := server.archive;
  }

  /** A connection keeps the session it connected with: after Alice's open
      connection joins a second room over HTTP, her message still goes to
      the first room (`ConnectRejoinAndSend` also states it is logged there). */
  method StaleSessionScenario() returns (first: Code, second: Code, sent: Event)
    ensures IsRoomCode(first) && IsRoomCode(second) && first != second
    ensures sent == Event(MessageEvent, ToRoom(first), ChatEntry(Message("alice", "hi", "t")))
  {
    var server := new ChatServer();
    var rounds := [[0, 0, 0, 0, 0, 0], [1, 0, 0, 0, 0, 0]];
    assert Spell(rounds[0]) !in server.rooms;
    var created := server.CreateRoom(1, Some("alice"), rounds);
    first := created.room;
    assert server.rooms.Keys == {first};
    assert Spell(rounds[0])[0] != Spell(rounds[1])[0];
    assert Spell(rounds[0]) !in server.rooms || Spell(rounds[1]) !in server.rooms;
    created := server.CreateRoom(2, Some("bob"), rounds);
    second := created.room;
    sent := ConnectRejoinAndSend(server, first, second);
  }

  /** The second half of the stale-session scenario: Alice, bound to `first`,
      connects, joins `second` over HTTP and sends "hi" on her connection. */
  method ConnectRejoinAndSend(server: ChatServer, first: Code, second: Code) returns (sent: Event)
    requires server.Valid() && first in server.rooms && second in server.rooms
    requires server.SessionOf(1) == Bound(first, "alice") && IsRoomCode(first)
    modifies server
    ensures |server.outbox| > 0 && sent == server.outbox[|server.outbox| - 1]
    ensures sent == Event(MessageEvent, ToRoom(first), ChatEntry(Message("alice", "hi", "t")))
    ensures server.SessionOf(1) == Bound(second, "alice")
    ensures first in server.rooms && |server.rooms[first].messages| > 0
    ensures server.rooms[first].messages[|server.rooms[first].messages| - 1] == Message("alice", "hi", "t")
  {
    server.HandleConnect(1);
    var joined := server.JoinRoom(1, Some("alice"), Some(second));
    assert server.ConnectionSession(1) == Bound(first, "alice");
    server.HandleMessage(1, "hi", "t");
    sent := server.outbox[|server.outbox| - 1];
  }
}
