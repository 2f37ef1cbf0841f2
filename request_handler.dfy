/** RequestHandler from request_handler.py, run step by step: each handler
    loads the files it needs, searches them with the source's loops, changes
    the registry entries in place and writes the files back whole. Every
    handler is proved to agree with its function in module Dispatch. */
module RequestHandler {
  import opened Common
  import opened Wire
  import opened PduResponse
  import opened UserRecord
  import opened ChatRoomRecord
  import opened Dispatch

  // ---------------------------------------------------------------
  // The searches over a loaded collection (for ... if ... break)

  /** createNewUserAccount's duplicate check. */
  method UsernameTaken(users: seq<User>, name: string) returns (taken: bool)
    ensures taken <==> exists i :: 0 <= i < |users| && users[i].username == name
  {
    var i := 0;
    while i < |users|
      invariant 0 <= i <= |users|
      invariant forall j :: 0 <= j < i ==> users[j].username != name
    {
      if users[i].username == name {
        return true;
      }
      i := i + 1;
    }
    return false;
  }

  /** loginAuthentication's credential check. */
  method CredentialsMatch(users: seq<User>, name: string, password: string) returns (valid: bool)
    ensures valid <==> exists i :: 0 <= i < |users| && users[i].username == name && users[i].password == password
  {
    valid := false;
    var i := 0;
    while i < |users|
      invariant 0 <= i <= |users|
      invariant !valid
      invariant forall j :: 0 <= j < i ==> !(users[j].username == name && users[j].password == password)
    {
      if users[i].username == name && users[i].password == password {
        valid := true;
        break;
      }
      i := i + 1;
    }
  }

  /** joinAction's ban check: every room of that name is consulted. */
  method BannedFromRoom(rooms: seq<ChatRoom>, name: string, user: string) returns (isBanned: bool)
    ensures isBanned <==> exists i :: 0 <= i < |rooms| && rooms[i].chatName == name && user in rooms[i].bannedUsers
  {
    isBanned := false;
    var i := 0;
    while i < |rooms|
      invariant 0 <= i <= |rooms|
      invariant !isBanned
      invariant forall j :: 0 <= j < i ==> !(rooms[j].chatName == name && user in rooms[j].bannedUsers)
    {
      if rooms[i].chatName == name && user in rooms[i].bannedUsers {
        isBanned := true;
        break;
      }
      i := i + 1;
    }
  }

  /** createNewChat's duplicate check. */
  method RoomNameTaken(rooms: seq<ChatRoom>, name: string) returns (taken: bool)
    ensures taken <==> exists i :: 0 <= i < |rooms| && rooms[i].chatName == name
  {
    var i := 0;
    while i < |rooms|
      invariant 0 <= i <= |rooms|
      invariant forall j :: 0 <= j < i ==> rooms[j].chatName != name
    {
      if rooms[i].chatName == name {
        return true;
      }
      i := i + 1;
    }
    return false;
  }

  /** The outer loop of kickAction and banAction: it stops at the first
      room with the name. */
  method FindRoom(rooms: seq<ChatRoom>, name: string) returns (k: nat)
    ensures k <= |rooms|
    ensures k < |rooms| ==> rooms[k].chatName == name
    ensures forall j :: 0 <= j < k ==> rooms[j].chatName != name
    ensures k == FirstRoom(rooms, name)
  {
    k := 0;
    while k < |rooms|
      invariant 0 <= k <= |rooms|
      invariant forall j :: 0 <= j < k ==> rooms[j].chatName != name
    {
      if rooms[k].chatName == name {
        break;
      }
      k := k + 1;
    }
  }

  /** The first account with the name (banAction, createNewChat). */
  method FindAccount(users: seq<User>, name: string) returns (k: nat)
    ensures k <= |users|
    ensures k < |users| ==> users[k].username == name
    ensures forall j :: 0 <= j < k ==> users[j].username != name
    ensures k == FirstAccount(users, name)
  {
    k := 0;
    while k < |users|
      invariant 0 <= k <= |users|
      invariant forall j :: 0 <= j < k ==> users[j].username != name
    {
      if users[k].username == name {
        break;
      }
      k := k + 1;
    }
  }

  /** The inner loop of kickAction and banAction over the room's admins. */
  method IsAdmin(admins: seq<string>, user: string) returns (found: bool)
    ensures found <==> user in admins
  {
    found := false;
    var i := 0;
    while i < |admins|
      invariant 0 <= i <= |admins|
      invariant !found
      invariant forall j :: 0 <= j < i ==> admins[j] != user
    {
      if admins[i] == user {
        found := true;
        break;
      }
      i := i + 1;
    }
  }

  /** listAction's loop collecting the room names in stored order. */
  method CollectRoomNames(rooms: seq<ChatRoom>) returns (groupList: seq<string>)
    ensures |groupList| == |rooms|
    ensures forall i :: 0 <= i < |rooms| ==> groupList[i] == rooms[i].chatName
  {
    groupList := [];
    var i := 0;
    while i < |rooms|
      invariant 0 <= i <= |rooms|
      invariant |groupList| == i
      invariant forall j :: 0 <= j < i ==> groupList[j] == rooms[j].chatName
    {
      groupList := groupList + [rooms[i].chatName];
      i := i + 1;
    }
  }

  /** createNewChat's update of adminGroups, loop as written: the loop runs
      over the original length, appends at the last index unless the name
      was found first, and an empty list gets the name afterwards. */
  method AppendAdminGroup(adminGroups: seq<string>, name: string) returns (groups: seq<string>)
    ensures name in adminGroups ==> groups == adminGroups
    ensures name !in adminGroups ==> groups == adminGroups + [name]
  {
    groups := adminGroups;
    var n := |adminGroups|;
    var i := 0;
    while i < n
      invariant 0 <= i <= n
      invariant forall j :: 0 <= j < i ==> adminGroups[j] != name
      invariant groups == if i == n && n > 0 then adminGroups + [name] else adminGroups
    {
      if groups[i] == name {
        break;
      }
      if |groups| - 1 == i {
        groups := groups + [name];
      }
      i := i + 1;
    }
    if |groups| == 0 {
      groups := groups + [name];
    }
  }

  // ---------------------------------------------------------------
  // The state every handler reads and writes

  /** The two store files and the client registry. */
  class ServerState {
    var accounts: Snapshot<User>
    var rooms: Snapshot<ChatRoom>
    var clients: seq<ClientEntry>

    function Model(): World
      reads this
    {
      World(accounts, rooms, clients)
    }

    constructor ()
      ensures Model() == InitialWorld()
    {
      accounts, rooms, clients := Blank, Blank, [];
    }

    /** for client in client_map["clients"]: if it is `user`'s, change it. */
    method UpdateEntriesOf(user: string, u: EntryUpdate)
      modifies this
      ensures clients == UpdateAll(old(clients), user, u)
      ensures accounts == old(accounts) && rooms == old(rooms)
    {
      var i := 0;
      while i < |clients|
        invariant 0 <= i <= |clients| == |old(clients)|
        invariant forall j :: 0 <= j < i ==>
          clients[j] == if old(clients)[j].username == user then Apply(u, old(clients)[j]) else old(clients)[j]
        invariant forall j :: i <= j < |clients| ==> clients[j] == old(clients)[j]
        invariant accounts == old(accounts) && rooms == old(rooms)
      {
        if clients[i].username == user {
          clients := clients[i := Apply(u, clients[i])];
        }
        i := i + 1;
      }
      assert clients == UpdateAll(old(clients), user, u);
    }

    method CreateNewUserAccount(username: string, password: string, handler: HandlerId) returns (out: Outcome)
      modifies this
      ensures StepResult(Model(), out) == SignUpResult(old(Model()), username, password, handler)
    {
      var users := Load(accounts);
      var taken := UsernameTaken(users, username);
      if taken {
        return Reply(NewResponse("200", [], "", Text("")));
      }
      users := users + [NewUser(username, password)];
      accounts := Saved(users);
      clients := clients + [NewEntry(username, handler)];
      out := Reply(NewResponse("110", [], "CC", Text("")));
    }

    method LoginAuthentication(username: string, password: string, handler: HandlerId) returns (out: Outcome)
      modifies this
      ensures StepResult(Model(), out) == LoginResult(old(Model()), username, password, handler)
    {
      var users := Load(accounts);
      if |users| == 0 {
        return Reply(NewResponse("200", [], "CC", Text("")));
      }
      var validUser := CredentialsMatch(users, username, password);
      if validUser {
        clients := clients + [NewEntry(username, handler)];
        out := Reply(NewResponse("110", [], "CC", Text("")));
      } else {
        out := Reply(NewResponse("200", [], "CC", Text("")));
      }
    }

    method ReadyAction() returns (out: Outcome)
      ensures out == Reply(ReadyReply())
    {
      out := Reply(NewResponse("100", [], "CC", Text("Ready")));
    }

    method JoinAction(username: string, room: string, handler: HandlerId) returns (out: Outcome)
      modifies this
      ensures StepResult(Model(), out) == JoinResult(old(Model()), username, room, handler)
    {
      if rooms.Blank? {
        return Raised(MalformedStore);
      }
      var allChats := rooms.items;
      var isBanned := BannedFromRoom(allChats, room, username);
      if isBanned {
        return Reply(NewResponse("240", JoinParams(username, room), "CC", Text("You are banned from joining this group")));
      }
      rooms := Saved(allChats);  // the file is written back as it was read
      UpdateEntriesOf(username, MoveTo(room, handler));
      out := Reply(NewResponse("180", JoinParams(username, room), "CC", Text(username + " has joined the group")));
    }

    method MssgAction(payload: Payload) returns (out: Outcome)
      ensures out == Reply(MessageReply(payload))
    {
      out := Reply(NewResponse("140", [], "DC", payload));
    }

    method KickAction(username: string, room: string, kicked: string) returns (out: Outcome)
      modifies this
      ensures StepResult(Model(), out) == KickResult(old(Model()), username, room, kicked)
    {
      var groups := Load(rooms);
      var isAdmin := false;
      var k := FindRoom(groups, room);
      if k < |groups| {
        isAdmin := IsAdmin(groups[k].admins, username);
      }
      if isAdmin {
        UpdateEntriesOf(kicked, MoveOut);
        out := Reply(NewResponse("192", [("kicked_user", kicked)], "CC", Text(kicked + " has been kicked from the group")));
      } else {
        out := Reply(NewResponse("260", [("username", username)], "CC", Text("You are not the admin of this group")));
      }
    }

    method BanAction(username: string, room: string, banned: string) returns (out: Outcome)
      modifies this
      ensures StepResult(Model(), out) == BanResult(old(Model()), username, room, banned)
    {
      var users := Load(accounts);
      var groups := Load(rooms);
      var isAdmin := false;
      var k := FindRoom(groups, room);
      if k < |groups| {
        isAdmin := IsAdmin(groups[k].admins, username);
        if isAdmin {
          groups := groups[k := groups[k].(bannedUsers := groups[k].bannedUsers + [banned])];
        }
      }
      if isAdmin {
        var a := FindAccount(users, banned);
        if a < |users| {
          users := users[a := users[a].(bannedGroups := users[a].bannedGroups + [room])];
        }
        accounts := Saved(users);
        rooms := Saved(groups);
        UpdateEntriesOf(banned, MoveOut);
        out := Reply(NewResponse("191", [("banned_user", banned)], "CC", Text(banned + " has been banned from the group")));
      } else {
        out := Reply(NewResponse("250", [("username", username)], "CC", Text("You are not the admin of this group")));
      }
    }

    method ListAction(username: string) returns (out: Outcome)
      ensures StepResult(Model(), out) == ListResult(Model(), username)
    {
      match rooms
      case Blank =>
        out := Reply(NewResponse("240", [("username", username)], "", Text("There are currently no groups")));
      case Saved(allChats) =>
        var groupList := CollectRoomNames(allChats);
        assert groupList == RoomNames(allChats);
        out := Reply(NewResponse("130", [("username", username)], "", Names(groupList)));
    }

    method CreateNewChat(username: string, room: string, handler: HandlerId) returns (out: Outcome)
      modifies this
      ensures StepResult(Model(), out) == CreateChatResult(old(Model()), username, room, handler)
    {
      var allChats := Load(rooms);
      var taken := RoomNameTaken(allChats, room);
      if taken {
        return Reply(NewResponse("230", [], "", Text("Group name already exists")));
      }
      allChats := allChats + [NewChatRoom(room, [username], [username])];
      rooms := Saved(allChats);
      if accounts.Blank? {
        return Raised(MalformedStore);
      }
      var users := accounts.items;
      var a := FindAccount(users, username);
      if a < |users| {
        var adminGroups := AppendAdminGroup(users[a].adminGroups, room);
        users := users[a := users[a].(adminGroups := adminGroups)];
      }
      accounts := Saved(users);
      UpdateEntriesOf(username, SeatCreator(room, handler));
      out := Reply(NewResponse("170", [], "", Text("")));
    }

    method LeaveChat(username: string, handler: HandlerId) returns (out: Outcome)
      modifies this
      ensures StepResult(Model(), out) == LeaveResult(old(Model()), username, handler)
    {
      var i := 0;
      while i < |clients|
        invariant 0 <= i <= |clients|
        invariant clients == old(clients)
        invariant forall j :: 0 <= j < i ==> clients[j].username != username
      {
        if clients[i].username == username {
          clients := clients[i := Apply(LeaveAs(handler), clients[i])];
          break;
        }
        i := i + 1;
      }
      out := Reply(NewResponse("190", [("username", username)], "", Text(username + " has left the chat room")));
    }

    method IncompatibleVersion() returns (out: Outcome)
      ensures out == Reply(VersionReply())
    {
      out := Reply(NewResponse("330", [], "CC", Text("Server is running on a different protocol version")));
    }

    /** run_command: the handler for the command, on this state. */
    method RunCommand(cmd: Command, handler: HandlerId) returns (out: Outcome)
      modifies this
      ensures StepResult(Model(), out) == Step(old(Model()), cmd, handler)
    {
      match cmd
      case Redy => out := ReadyAction();
      case Join(u, room) => out := JoinAction(u, room, handler);
      case Mssg(p) => out := MssgAction(p);
      case Kick(u, room, kicked) => out := KickAction(u, room, kicked);
      case Bann(u, room, banned) => out := BanAction(u, room, banned);
      case List(u) => out := ListAction(u);
      case Auth(u, p) => out := LoginAuthentication(u, p, handler);
      case Nwua(u, p) => out := CreateNewUserAccount(u, p, handler);
      case Chat(u, room) => out := CreateNewChat(u, room, handler);
      case Leve(u) => out := LeaveChat(u, handler);
      case Vrsn => out := IncompatibleVersion();
    }
  }
}
