/** Laws of the chat protocol that span several commands or both ends of a
    connection: what run_command keeps invariant in the two store files and
    in the client registry, what a sequence of commands leads to, and how a
    chat message travels from a client through the server and back. */
module Properties {
  import opened Common
  import opened Wire
  import opened PduRequest
  import opened PduResponse
  import opened UserRecord
  import opened ChatRoomRecord
  import opened Dispatch
  import opened Server
  import Client

  // ---------------------------------------------------------------
  // Which store each command writes

  /** Only NWUA, CHAT and BANN write the accounts file, only CHAT and BANN
      the rooms file, and REDY, LIST, MSSG and VRSN leave the registry
      alone. */
  lemma StepFrame(w: World, cmd: Command, h: HandlerId)
    ensures var w' := Step(w, cmd, h).world;
      (!(cmd.Nwua? || cmd.Chat? || cmd.Bann?) ==> w'.accounts == w.accounts) &&
      (!(cmd.Chat? || cmd.Bann?) ==> w'.rooms == w.rooms) &&
      (cmd.Redy? || cmd.List? || cmd.Mssg? || cmd.Vrsn? ==> w'.clients == w.clients)
  {
  }

  // ---------------------------------------------------------------
  // The accounts file

  function AccountNames(users: seq<User>): seq<string>
  {
    seq(|users|, i requires 0 <= i < |users| => users[i].username)
  }

  predicate Distinct(names: seq<string>)
  {
    forall i, j :: 0 <= i < j < |names| ==> names[i] != names[j]
  }

  lemma AccountNamesHas(users: seq<User>, name: string)
    ensures name in AccountNames(users) <==> HasUsername(users, name)
  {
    if HasUsername(users, name) {
      var i :| 0 <= i < |users| && users[i].username == name;
      assert AccountNames(users)[i] == name;
    }
  }

  /** BANN and CHAT rewrite one account's lists and no account's name. */
  lemma AccountUpdatesKeepNames(users: seq<User>, room: string, name: string)
    ensures AccountNames(BanInAccounts(users, room, name)) == AccountNames(users)
    ensures AccountNames(AdminInAccounts(users, name, room)) == AccountNames(users)
  {
  }

  /** No command renames or removes an account; only a sign-up adds one,
      at the end, and only under a name not yet taken. */
  lemma StepAccountNames(w: World, cmd: Command, h: HandlerId)
    ensures var names := AccountNames(Load(w.accounts));
      var names' := AccountNames(Load(Step(w, cmd, h).world.accounts));
      names' == names ||
      (cmd.Nwua? && cmd.username !in names && names' == names + [cmd.username])
  {
    StepFrame(w, cmd, h);
    var users := Load(w.accounts);
    match cmd {
      case Nwua(u, p) => SignUpAccountNames(w, u, p, h);
      case Bann(u, room, b) =>
        AccountUpdatesKeepNames(users, room, b);
        assert Load(BanResult(w, u, room, b).world.accounts) in {users, BanInAccounts(users, room, b)};
      case Chat(u, room) =>
        AccountUpdatesKeepNames(users, room, u);
        assert Load(CreateChatResult(w, u, room, h).world.accounts) in {users, AdminInAccounts(users, u, room)};
      case _ =>
    }
  }

  lemma SignUpAccountNames(w: World, u: string, p: string, h: HandlerId)
    ensures var names := AccountNames(Load(w.accounts));
      var names' := AccountNames(Load(SignUpResult(w, u, p, h).world.accounts));
      (names' == names && u in names) || (u !in names && names' == names + [u])
  {
    var users := Load(w.accounts);
    AccountNamesHas(users, u);
    if !HasUsername(users, u) {
      assert AccountNames(users + [NewUser(u, p)]) == AccountNames(users) + [u];
    }
  }

  /** createNewUserAccount's test keeps usernames unique in the accounts
      file. */
  lemma StepKeepsAccountNamesDistinct(w: World, cmd: Command, h: HandlerId)
    requires Distinct(AccountNames(Load(w.accounts)))
    ensures Distinct(AccountNames(Load(Step(w, cmd, h).world.accounts)))
  {
    StepAccountNames(w, cmd, h);
  }

  // ---------------------------------------------------------------
  // The rooms file

  /** `rooms'` keeps every room of `rooms` in place, with the same name,
      members, admins and black_users, and a banned_users list that can only
      have grown at its end. */
  predicate RoomsKept(rooms: seq<ChatRoom>, rooms': seq<ChatRoom>)
  {
    |rooms| <= |rooms'| &&
    forall i :: 0 <= i < |rooms| ==>
      rooms'[i].chatName == rooms[i].chatName && rooms'[i].users == rooms[i].users &&
      rooms'[i].admins == rooms[i].admins && rooms'[i].blackUsers == rooms[i].blackUsers &&
      rooms[i].bannedUsers <= rooms'[i].bannedUsers
  }

  /** No command removes, renames or reorders a room, or changes who is in
      it or who administers it (JOIN does not add the joiner to users);
      BANN only appends to one room's banned_users; and only CHAT adds a
      room, at the end, under a name not yet taken, with its creator as
      the only member and admin. */
  lemma StepRooms(w: World, cmd: Command, h: HandlerId)
    ensures var rooms, rooms' := Load(w.rooms), Load(Step(w, cmd, h).world.rooms);
      RoomsKept(rooms, rooms') &&
      (|rooms'| != |rooms| ==>
        cmd.Chat? && !HasRoom(rooms, cmd.chatName) &&
        rooms' == rooms + [NewChatRoom(cmd.chatName, [cmd.username], [cmd.username])])
  {
    StepFrame(w, cmd, h);
    match cmd {
      case Bann(u, room, b) => BanRooms(w, u, room, b);
      case Chat(u, room) =>
        var rooms := Load(w.rooms);
        if !HasRoom(rooms, room) {
          assert Load(CreateChatResult(w, u, room, h).world.rooms) == rooms + [NewChatRoom(room, [u], [u])];
        }
      case _ =>
    }
  }

  /** banAction appends the banned user to the first room of that name,
      when the caller administers it, and changes nothing else in the rooms
      file. */
  lemma BanRooms(w: World, u: string, room: string, b: string)
    ensures var rooms, rooms' := Load(w.rooms), Load(BanResult(w, u, room, b).world.rooms);
      var k := FirstRoom(rooms, room);
      |rooms'| == |rooms| && RoomsKept(rooms, rooms') &&
      (IsFirstRoomAdmin(rooms, room, u) ==>
        rooms' == rooms[k := rooms[k].(bannedUsers := rooms[k].bannedUsers + [b])]) &&
      (!IsFirstRoomAdmin(rooms, room, u) ==> rooms' == rooms)
  {
    var rooms := Load(w.rooms);
    var k := FirstRoom(rooms, room);
    if IsFirstRoomAdmin(rooms, room, u) {
      var rooms' := BanInRooms(rooms, room, b);
      assert rooms'[k].bannedUsers == rooms[k].bannedUsers + [b];
      assert forall i :: 0 <= i < |rooms| && i != k ==> rooms'[i] == rooms[i];
    }
  }

  /** CHAT's test keeps room names unique in the rooms file. */
  lemma StepKeepsRoomNamesDistinct(w: World, cmd: Command, h: HandlerId)
    requires Distinct(RoomNames(Load(w.rooms)))
    ensures Distinct(RoomNames(Load(Step(w, cmd, h).world.rooms)))
  {
    StepRooms(w, cmd, h);
    var rooms, rooms' := Load(w.rooms), Load(Step(w, cmd, h).world.rooms);
    if |rooms'| != |rooms| {
      forall i | 0 <= i < |rooms|
        ensures RoomNames(rooms')[i] != RoomNames(rooms')[|rooms|]
      {
        assert rooms[i].chatName != cmd.chatName;
      }
      assert RoomNames(rooms')[..|rooms|] == RoomNames(rooms);
    } else {
      assert RoomNames(rooms') == RoomNames(rooms);
    }
  }

  // ---------------------------------------------------------------
  // The client registry

  /** No command removes or reorders registry entries or changes whose
      they are; only a successful sign-up or login appends one, for that
      user and connection, with no room. */
  lemma StepRegistry(w: World, cmd: Command, h: HandlerId)
    ensures var cs, cs' := w.clients, Step(w, cmd, h).world.clients;
      |cs| <= |cs'| &&
      (forall i :: 0 <= i < |cs| ==> cs'[i].username == cs[i].username) &&
      (|cs'| != |cs| ==> (cmd.Nwua? || cmd.Auth?) && cs' == cs + [NewEntry(cmd.username, h)])
  {
    StepFrame(w, cmd, h);
    match cmd {
      case Join(u, room) => UpdateAllKeepsOwners(w.clients, u, MoveTo(room, h));
      case Kick(u, room, k) => UpdateAllKeepsOwners(w.clients, k, MoveOut);
      case Bann(u, room, b) => UpdateAllKeepsOwners(w.clients, b, MoveOut);
      case Chat(u, room) => UpdateAllKeepsOwners(w.clients, u, SeatCreator(room, h));
      case Leve(u) =>
        var k := FirstClient(w.clients, u);
        if k < |w.clients| {
          assert Step(w, cmd, h).world.clients == w.clients[k := Dispatch.Apply(LeaveAs(h), w.clients[k])];
        }
      case _ =>
    }
  }

  lemma UpdateAllKeepsOwners(cs: seq<ClientEntry>, user: string, u: EntryUpdate)
    ensures var cs' := UpdateAll(cs, user, u);
      |cs'| == |cs| && forall i :: 0 <= i < |cs| ==> cs'[i].username == cs[i].username
  {
  }

  // ---------------------------------------------------------------
  // What each handler answers

  /** `cs'` is `cs` with every entry of `user` moved into `room` on
      handler `h`, remembering the room it was in. */
  predicate MovedTo(cs: seq<ClientEntry>, cs': seq<ClientEntry>, user: string, room: string, h: HandlerId)
  {
    |cs'| == |cs| &&
    forall i :: 0 <= i < |cs| ==>
      cs'[i] == if cs[i].username == user then cs[i].(chatName := room, prevChat := Some(cs[i].chatName), handler := h)
                else cs[i]
  }

  /** `cs'` is `cs` with every entry of `user` out of its room, remembering
      the room it was in. */
  predicate MovedOut(cs: seq<ClientEntry>, cs': seq<ClientEntry>, user: string)
  {
    |cs'| == |cs| &&
    forall i :: 0 <= i < |cs| ==>
      cs'[i] == if cs[i].username == user then cs[i].(chatName := "", prevChat := Some(cs[i].chatName)) else cs[i]
  }

  /** createNewUserAccount: 110 exactly for a name not yet taken, with one
      account (empty lists) and one registry entry appended; otherwise 200
      and nothing changes. */
  lemma SignUpOutcome(w: World, u: string, p: string, h: HandlerId)
    ensures var s := SignUpResult(w, u, p, h);
      (s.outcome.Reply? && s.outcome.response.responseCode == "110" <==> !HasUsername(Load(w.accounts), u)) &&
      (HasUsername(Load(w.accounts), u) ==> s.world == w) &&
      (!HasUsername(Load(w.accounts), u) ==>
        Load(s.world.accounts) == Load(w.accounts) + [User(u, p, [], [])] &&
        s.world.rooms == w.rooms && s.world.clients == w.clients + [ClientEntry(u, "", None, h)])
  {
  }

  /** loginAuthentication: 110 and one registry entry exactly when some
      account has both the name and the password; the accounts file is
      never written. */
  lemma LoginOutcome(w: World, u: string, p: string, h: HandlerId)
    ensures var s := LoginResult(w, u, p, h);
      var valid := HasCredentials(Load(w.accounts), u, p);
      s.outcome.Reply? &&
      (s.outcome.response.responseCode == "110" <==> valid) &&
      s.world.accounts == w.accounts && s.world.rooms == w.rooms &&
      s.world.clients == (if valid then w.clients + [ClientEntry(u, "", None, h)] else w.clients)
  {
  }

  /** joinAction on a saved rooms file: 240 with nothing changed exactly
      when some room of that name bans the caller; otherwise 180, and every
      registry entry of the caller moves into the room on this handler.
      Neither file changes. */
  lemma JoinOutcome(w: World, u: string, room: string, h: HandlerId)
    requires w.rooms.Saved?
    ensures var s := JoinResult(w, u, room, h);
      var banned := BannedFrom(w.rooms.items, room, u);
      s.outcome.Reply? &&
      s.outcome.response.responseCode == (if banned then "240" else "180") &&
      s.outcome.response.parameters == [("username", u), ("chat_name", room)] &&
      s.world.accounts == w.accounts && s.world.rooms == w.rooms &&
      (banned ==> s.world == w) &&
      (!banned ==> MovedTo(w.clients, s.world.clients, u, room, h))
  {
  }

  /** kickAction: 192 exactly when the caller administers the first room
      of that name, and then every registry entry of the kicked user leaves
      its room; 260 otherwise, with nothing changed. No file changes. */
  lemma KickOutcome(w: World, u: string, room: string, k: string)
    ensures var s := KickResult(w, u, room, k);
      var admin := IsFirstRoomAdmin(Load(w.rooms), room, u);
      s.outcome.Reply? &&
      s.outcome.response.responseCode == (if admin then "192" else "260") &&
      s.world.accounts == w.accounts && s.world.rooms == w.rooms &&
      (!admin ==> s.world == w) &&
      (admin ==> MovedOut(w.clients, s.world.clients, k))
  {
  }

  /** banAction: 191 exactly when the caller administers the first room of
      that name, and then `b` is appended to that room's banned_users, the
      room to the bannedGroups of the first account of `b` (if there is
      one), both files are written, and every registry entry of `b` leaves
      its room; 250 otherwise, and then neither file is written. */
  lemma BanOutcome(w: World, u: string, room: string, b: string)
    ensures var s := BanResult(w, u, room, b);
      var rooms, users := Load(w.rooms), Load(w.accounts);
      var admin := IsFirstRoomAdmin(rooms, room, u);
      var k, a := FirstRoom(rooms, room), FirstAccount(users, b);
      s.outcome.Reply? &&
      s.outcome.response.responseCode == (if admin then "191" else "250") &&
      (!admin ==> s.world == w) &&
      (admin ==>
        s.world.rooms == Saved(rooms[k := rooms[k].(bannedUsers := rooms[k].bannedUsers + [b])]) &&
        s.world.accounts ==
          Saved(if a < |users| then users[a := users[a].(bannedGroups := users[a].bannedGroups + [room])] else users) &&
        MovedOut(w.clients, s.world.clients, b))
  {
  }

  /** listAction: 240 exactly for a blank rooms file, otherwise 130 with
      every room's name in file order; nothing changes. */
  lemma ListOutcome(w: World, u: string)
    ensures var s := ListResult(w, u);
      s.world == w && s.outcome.Reply? &&
      (s.outcome.response.responseCode == "240" <==> w.rooms.Blank?) &&
      (w.rooms.Saved? ==>
        s.outcome.response.responseCode == "130" &&
        s.outcome.response.payload.Names? &&
        |s.outcome.response.payload.names| == |w.rooms.items| &&
        forall i :: 0 <= i < |w.rooms.items| ==> s.outcome.response.payload.names[i] == w.rooms.items[i].chatName)
  {
  }

  /** leaveChat: always 190, and only the caller's first registry entry
      changes: it leaves its room, remembers it and takes this handler. */
  lemma LeaveOutcome(w: World, u: string, h: HandlerId)
    ensures var s := LeaveResult(w, u, h);
      var k := FirstClient(w.clients, u);
      s.outcome.Reply? && s.outcome.response.responseCode == "190" &&
      s.world.accounts == w.accounts && s.world.rooms == w.rooms &&
      |s.world.clients| == |w.clients| &&
      (forall i :: 0 <= i < |w.clients| && i != k ==> s.world.clients[i] == w.clients[i]) &&
      (k < |w.clients| ==>
        s.world.clients[k] == w.clients[k].(chatName := "", prevChat := Some(w.clients[k].chatName), handler := h))
  {
  }

  /** createNewChat: 230 with nothing changed for a name already taken;
      otherwise, with a saved accounts file, 170, and every registry entry
      of the creator is seated in the new room with prev_chat "". */
  lemma CreateChatOutcome(w: World, u: string, room: string, h: HandlerId)
    ensures var s := CreateChatResult(w, u, room, h);
      (HasRoom(Load(w.rooms), room) ==> s == StepResult(w, Reply(NewResponse("230", [], "", Text("Group name already exists"))))) &&
      (!HasRoom(Load(w.rooms), room) && w.accounts.Saved? ==>
        s.outcome.Reply? && s.outcome.response.responseCode == "170" &&
        |s.world.clients| == |w.clients| &&
        forall i :: 0 <= i < |w.clients| ==>
          s.world.clients[i] ==
            if w.clients[i].username == u then w.clients[i].(chatName := room, prevChat := Some(""), handler := h)
            else w.clients[i])
  {
  }

  /** The creator's adminGroups gains the room once: a list without
      duplicates stays without. */
  lemma AdminGroupOnce(groups: seq<string>, name: string)
    requires Distinct(groups)
    ensures var g := AddAdminGroup(groups, name);
      name in g && Distinct(g) && groups <= g && |g| <= |groups| + 1
  {
    var g := AddAdminGroup(groups, name);
    if name !in groups {
      forall i | 0 <= i < |groups| ensures g[i] != g[|groups|] {
        assert g[i] == groups[i];
      }
    }
  }

  // ---------------------------------------------------------------
  // Sequences of commands

  /** After a sign-up under a new name, the same name cannot sign up again,
      and it logs in exactly with the password it signed up with. */
  lemma SignUpThenLogin(w: World, u: string, p: string, h: HandlerId, q: string, h': HandlerId)
    requires !HasUsername(Load(w.accounts), u)
    ensures var s := SignUpResult(w, u, p, h);
      s.outcome == Reply(NewResponse("110", [], "CC", Text(""))) &&
      SignUpResult(s.world, u, q, h').outcome == Reply(NewResponse("200", [], "", Text(""))) &&
      (LoginResult(s.world, u, q, h').outcome == Reply(NewResponse("110", [], "CC", Text(""))) <==> q == p)
  {
    var users := Load(w.accounts);
    var users' := users + [NewUser(u, p)];
    assert users'[|users|].username == u && users'[|users|].password == p;
    if HasCredentials(users', u, q) {
      var i :| 0 <= i < |users'| && users'[i].username == u && users'[i].password == q;
      assert i == |users|;
    }
  }

  /** Once an admin of the first room called `room` has banned `b`, a JOIN
      of `b` to that room is refused with 240 and changes nothing. */
  lemma BanThenJoin(w: World, admin: string, room: string, b: string, h: HandlerId)
    requires IsFirstRoomAdmin(Load(w.rooms), room, admin)
    ensures var w' := BanResult(w, admin, room, b).world;
      JoinResult(w', b, room, h) ==
        StepResult(w', Reply(NewResponse("240", JoinParams(b, room), "CC",
          Text("You are banned from joining this group"))))
  {
    var rooms := Load(w.rooms);
    var k := FirstRoom(rooms, room);
    var rooms' := BanInRooms(rooms, room, b);
    assert rooms'[k].chatName == room && b in rooms'[k].bannedUsers;
  }

  /** A JOIN to a room no one created is accepted like any other: the
      registry moves the joiner there and the rooms file is not changed. */
  lemma JoinUnknownRoom(w: World, u: string, room: string, h: HandlerId)
    requires w.rooms.Saved? && !HasRoom(w.rooms.items, room)
    ensures var s := JoinResult(w, u, room, h);
      s.outcome.Reply? && s.outcome.response.responseCode == "180" &&
      s.world == w.(clients := UpdateAll(w.clients, u, MoveTo(room, h)))
  {
  }

  /** The creator of a new room is its first admin: the room is listed,
      the creator can kick, and its account records the admin group. */
  lemma CreatorAdministers(w: World, u: string, room: string, h: HandlerId, k: string)
    requires w.accounts.Saved? && !HasRoom(Load(w.rooms), room)
    ensures var s := CreateChatResult(w, u, room, h);
      var rooms' := Load(s.world.rooms);
      s.outcome == Reply(NewResponse("170", [], "", Text(""))) &&
      IsFirstRoomAdmin(rooms', room, u) &&
      room in RoomNames(rooms') &&
      KickResult(s.world, u, room, k).outcome.response.responseCode == "192" &&
      var users' := Load(s.world.accounts);
      var a := FirstAccount(users', u);
      (HasUsername(Load(w.accounts), u) <==> a < |users'|) && (a < |users'| ==> room in users'[a].adminGroups)
  {
    var rooms := Load(w.rooms);
    var rooms' := rooms + [NewChatRoom(room, [u], [u])];
    assert FirstRoom(rooms', room) == |rooms| by {
      FirstRoomAfter(rooms, NewChatRoom(room, [u], [u]));
    }
    assert RoomNames(rooms')[|rooms|] == room;
    var users := Load(w.accounts);
    var a := FirstAccount(users, u);
    AccountUpdatesKeepNames(users, room, u);
    FirstAccountKept(users, AdminInAccounts(users, u, room), u);
    if HasUsername(users, u) {
      var i :| 0 <= i < |users| && users[i].username == u;
      assert a <= i;
    }
  }

  /** A room appended after rooms that do not carry its name is the first
      of that name. */
  lemma {:induction false} FirstRoomAfter(rooms: seq<ChatRoom>, r: ChatRoom)
    requires !HasRoom(rooms, r.chatName)
    ensures FirstRoom(rooms + [r], r.chatName) == |rooms|
  {
    if rooms != [] {
      assert (rooms + [r])[1..] == rooms[1..] + [r];
      assert !HasRoom(rooms[1..], r.chatName) by {
        forall i | 0 <= i < |rooms[1..]| ensures rooms[1..][i].chatName != r.chatName {
          assert rooms[1..][i] == rooms[i + 1];
        }
      }
      FirstRoomAfter(rooms[1..], r);
    }
  }

  /** Accounts rewritten without renaming keep the first account of every
      name at the same index. */
  lemma FirstAccountKept(users: seq<User>, users': seq<User>, u: string)
    requires AccountNames(users') == AccountNames(users)
    ensures FirstAccount(users', u) == FirstAccount(users, u)
  {
    var a, a' := FirstAccount(users, u), FirstAccount(users', u);
    assert |users| == |AccountNames(users)| == |users'|;
    assert forall j :: 0 <= j < |users| ==> users'[j].username == AccountNames(users')[j] == users[j].username;
  }

  // ---------------------------------------------------------------
  // A chat message from one client to the others

  /** A chat message the console of a client sends is marshalled to MSSG
      and carried by the server unchanged, and the server state is not
      changed by it; the client that sent it takes the echo for its own and
      changes nothing. */
  lemma MessageTravels(w: World, self: HandlerId, room: string, msg: string, v: Client.View, rest: string)
    ensures var req := Client.MessageRequest(v.username, room, msg);
      var payload := Text(Client.FormatMessage(v.username, msg));
      Marshal(req) == Success(Mssg(payload)) &&
      Step(w, Mssg(payload), self) == StepResult(w, Reply(MessageReply(payload))) &&
      HandleFrame(w, RequestBody(req), self) ==
        RouteFrame(w, req, CreateResponseStr(MessageReply(payload)), Some("140")) &&
      var f := NextFrame(CreateResponseStr(MessageReply(payload)) + rest);
      f.Some? && Client.ReceiveFrame(v, f.value.0) == Client.Reception(v, None)
  {
    MessageDispatched(w, self, v.username, room, msg);
    Client.OwnEchoDropped(v, msg, rest);
  }

  /** The server half of MessageTravels. */
  lemma MessageDispatched(w: World, self: HandlerId, u: string, room: string, msg: string)
    ensures var req := Client.MessageRequest(u, room, msg);
      var payload := Text(Client.FormatMessage(u, msg));
      Marshal(req) == Success(Mssg(payload)) &&
      Step(w, Mssg(payload), self) == StepResult(w, Reply(MessageReply(payload))) &&
      HandleFrame(w, RequestBody(req), self) ==
        RouteFrame(w, req, CreateResponseStr(MessageReply(payload)), Some("140"))
  {
    var req := Client.MessageRequest(u, room, msg);
    assert req.version == ServerVersion;
    assert Get(req.parameters, "username") == Some(u);
    assert ParseVerb(req.command) == Some(MSSG);
    DispatchedFrame(w, req, "", self);
  }

  /** The same message as received by any client whose name has no ")":
      it is dropped exactly when that name is a prefix of the sender's
      name, and shown otherwise. */
  lemma MessageShownToOthers(sender: string, msg: string, v: Client.View, rest: string)
    requires ')' !in v.username
    ensures var r := MessageReply(Text(Client.FormatMessage(sender, msg)));
      var f := NextFrame(CreateResponseStr(r) + rest);
      f.Some? &&
      Client.ReceiveFrame(v, f.value.0) == Client.Reception(if v.username <= sender then v else Client.Show(v, r), None)
  {
    var r := MessageReply(Text(Client.FormatMessage(sender, msg)));
    Client.FrameReceived(v, r, rest);
    Client.MessageShownAsWritten(v, r, sender, msg);
  }
}
