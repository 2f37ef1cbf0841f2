/** What one call of RequestHandler.run_command does, as functions of the
    state it reads and writes: the accounts file, the rooms file and the
    shared client registry (client_map["clients"]). Each file is read
    whole, changed in memory and written back whole. The class in
    request_handler.dfy runs the same commands step by step and is proved
    to agree with these functions. */
module Dispatch {
  import opened Common
  import opened Wire
  import opened PduResponse
  import opened UserRecord
  import opened ChatRoomRecord

  /** An opaque reference to one connection's ChatHandler. */
  type HandlerId = nat

  /** A store file: Blank when it is missing or empty (getFileContents
      gives ""), Saved(items) once a collection has been written to it,
      even an empty one. */
  datatype Snapshot<T> = Blank | Saved(items: seq<T>)

  /** The collection a handler works on; a missing or empty file is read
      as the empty collection. */
  function Load<T>(s: Snapshot<T>): seq<T>
  {
    match s
    case Blank => []
    case Saved(items) => items
  }

  /** One entry of client_map["clients"]. prevChat is None where the
      Python code stores None. */
  datatype ClientEntry = ClientEntry(
    username: string,
    chatName: string,
    prevChat: Option<string>,
    handler: HandlerId)

  /** A request as processRequest hands it to run_command: the command and
      the entries of the `obj` dictionary that command's handler reads. */
  datatype Command =
    | Nwua(username: string, password: string)
    | Auth(username: string, password: string)
    | Redy
    | List(username: string)
    | Chat(username: string, chatName: string)
    | Join(username: string, chatName: string)
    | Leve(username: string)
    | Kick(username: string, chatName: string, kickedUser: string)
    | Bann(username: string, chatName: string, bannedUser: string)
    | Mssg(payload: Payload)
    | Vrsn

  /** The four-character token each command is sent as. */
  function CommandToken(c: Command): string
  {
    match c
    case Nwua(_, _) => "NWUA"
    case Auth(_, _) => "AUTH"
    case Redy => "REDY"
    case List(_) => "LIST"
    case Chat(_, _) => "CHAT"
    case Join(_, _) => "JOIN"
    case Leve(_) => "LEVE"
    case Kick(_, _, _) => "KICK"
    case Bann(_, _, _) => "BANN"
    case Mssg(_) => "MSSG"
    case Vrsn => "VRSN"
  }

  datatype World = World(
    accounts: Snapshot<User>,
    rooms: Snapshot<ChatRoom>,
    clients: seq<ClientEntry>)

  /** A handler either returns a response or raises. */
  datatype Outcome = Reply(response: Response) | Raised(fault: Fault)

  datatype StepResult = StepResult(world: World, outcome: Outcome)

  // ---------------------------------------------------------------
  // Lookups in the loaded collections

  predicate HasUsername(users: seq<User>, name: string)
  {
    exists i :: 0 <= i < |users| && users[i].username == name
  }

  predicate HasCredentials(users: seq<User>, name: string, password: string)
  {
    exists i :: 0 <= i < |users| && users[i].username == name && users[i].password == password
  }

  predicate HasRoom(rooms: seq<ChatRoom>, name: string)
  {
    exists i :: 0 <= i < |rooms| && rooms[i].chatName == name
  }

  /** JOIN's test: some room of that name lists the user as banned. */
  predicate BannedFrom(rooms: seq<ChatRoom>, name: string, user: string)
  {
    exists i :: 0 <= i < |rooms| && rooms[i].chatName == name && user in rooms[i].bannedUsers
  }

  /** Index of the first room called `name`, or |rooms| if there is none. */
  function FirstRoom(rooms: seq<ChatRoom>, name: string): (k: nat)
    ensures k <= |rooms|
    ensures k < |rooms| ==> rooms[k].chatName == name
    ensures forall j :: 0 <= j < k ==> rooms[j].chatName != name
  {
    if rooms == [] then 0
    else if rooms[0].chatName == name then 0
    else 1 + FirstRoom(rooms[1..], name)
  }

  /** Index of the first account called `name`, or |users| if there is none. */
  function FirstAccount(users: seq<User>, name: string): (k: nat)
    ensures k <= |users|
    ensures k < |users| ==> users[k].username == name
    ensures forall j :: 0 <= j < k ==> users[j].username != name
  {
    if users == [] then 0
    else if users[0].username == name then 0
    else 1 + FirstAccount(users[1..], name)
  }

  /** Index of the first registry entry of `user`, or |cs| if there is none. */
  function FirstClient(cs: seq<ClientEntry>, user: string): (k: nat)
    ensures k <= |cs|
    ensures k < |cs| ==> cs[k].username == user
    ensures forall j :: 0 <= j < k ==> cs[j].username != user
  {
    if cs == [] then 0
    else if cs[0].username == user then 0
    else 1 + FirstClient(cs[1..], user)
  }

  /** KICK's and BANN's test: only the first room with that name is
      consulted. */
  predicate IsFirstRoomAdmin(rooms: seq<ChatRoom>, name: string, user: string)
  {
    FirstRoom(rooms, name) < |rooms| && user in rooms[FirstRoom(rooms, name)].admins
  }

  function RoomNames(rooms: seq<ChatRoom>): seq<string>
  {
    seq(|rooms|, i requires 0 <= i < |rooms| => rooms[i].chatName)
  }

  /** CHAT's update of the creator's adminGroups: append unless present. */
  function AddAdminGroup(groups: seq<string>, name: string): seq<string>
  {
    if name in groups then groups else groups + [name]
  }

  // ---------------------------------------------------------------
  // Registry updates

  /** The in-place changes handlers make to a registry entry. */
  datatype EntryUpdate =
    | MoveOut                              // KICK, BANN: leave the room, remember it
    | MoveTo(room: string, h: HandlerId)   // JOIN
    | SeatCreator(room: string, h: HandlerId) // CHAT
    | LeaveAs(h: HandlerId)                // LEVE

  function Apply(u: EntryUpdate, e: ClientEntry): ClientEntry
  {
    match u
    case MoveOut => e.(chatName := "", prevChat := Some(e.chatName))
    case MoveTo(room, h) => e.(chatName := room, prevChat := Some(e.chatName), handler := h)
    case SeatCreator(room, h) => e.(chatName := room, prevChat := Some(""), handler := h)
    case LeaveAs(h) => e.(chatName := "", prevChat := Some(e.chatName), handler := h)
  }

  /** Every entry of `user` updated, every other entry untouched. */
  function UpdateAll(cs: seq<ClientEntry>, user: string, u: EntryUpdate): seq<ClientEntry>
  {
    seq(|cs|, i requires 0 <= i < |cs| => if cs[i].username == user then Apply(u, cs[i]) else cs[i])
  }

  /** Only the first entry of `user` updated. */
  function UpdateFirst(cs: seq<ClientEntry>, user: string, u: EntryUpdate): seq<ClientEntry>
  {
    var k := FirstClient(cs, user);
    if k < |cs| then cs[k := Apply(u, cs[k])] else cs
  }

  function NewEntry(username: string, h: HandlerId): ClientEntry
  {
    ClientEntry(username, "", None, h)
  }

  // ---------------------------------------------------------------
  // The handlers

  /** createNewUserAccount. */
  function SignUpResult(w: World, username: string, password: string, h: HandlerId): StepResult
  {
    var users := Load(w.accounts);
    if HasUsername(users, username) then
      StepResult(w, Reply(NewResponse("200", [], "", Text(""))))
    else
      StepResult(
        World(Saved(users + [NewUser(username, password)]), w.rooms, w.clients + [NewEntry(username, h)]),
        Reply(NewResponse("110", [], "CC", Text(""))))
  }

  /** loginAuthentication; it never writes the accounts file. */
  function LoginResult(w: World, username: string, password: string, h: HandlerId): StepResult
  {
    var users := Load(w.accounts);
    if |users| == 0 then
      StepResult(w, Reply(NewResponse("200", [], "CC", Text(""))))
    else if HasCredentials(users, username, password) then
      StepResult(w.(clients := w.clients + [NewEntry(username, h)]), Reply(NewResponse("110", [], "CC", Text(""))))
    else
      StepResult(w, Reply(NewResponse("200", [], "CC", Text(""))))
  }

  function ReadyReply(): Response
  {
    NewResponse("100", [], "CC", Text("Ready"))
  }

  function JoinParams(username: string, room: string): Params
  {
    [("username", username), ("chat_name", room)]
  }

  /** joinAction. The rooms file is parsed without the empty-file guard,
      so a blank rooms file raises; otherwise the file is written back
      unchanged and the room's users list is never touched. */
  function JoinResult(w: World, username: string, room: string, h: HandlerId): StepResult
  {
    match w.rooms
    case Blank => StepResult(w, Raised(MalformedStore))
    case Saved(rooms) =>
      if BannedFrom(rooms, room, username) then
        StepResult(w, Reply(NewResponse("240", JoinParams(username, room), "CC",
          Text("You are banned from joining this group"))))
      else
        StepResult(w.(clients := UpdateAll(w.clients, username, MoveTo(room, h))),
          Reply(NewResponse("180", JoinParams(username, room), "CC", Text(username + " has joined the group"))))
  }

  function MessageReply(payload: Payload): Response
  {
    NewResponse("140", [], "DC", payload)
  }

  function NotAdminText(): Payload
  {
    Text("You are not the admin of this group")
  }

  /** kickAction: no file is written; only the registry changes. */
  function KickResult(w: World, username: string, room: string, kicked: string): StepResult
  {
    if IsFirstRoomAdmin(Load(w.rooms), room, username) then
      StepResult(w.(clients := UpdateAll(w.clients, kicked, MoveOut)),
        Reply(NewResponse("192", [("kicked_user", kicked)], "CC", Text(kicked + " has been kicked from the group"))))
    else
      StepResult(w, Reply(NewResponse("260", [("username", username)], "CC", NotAdminText())))
  }

  /** The rooms after BANN: `banned` appended to the first room called `room`. */
  function BanInRooms(rooms: seq<ChatRoom>, room: string, banned: string): seq<ChatRoom>
  {
    var k := FirstRoom(rooms, room);
    if k < |rooms| then rooms[k := rooms[k].(bannedUsers := rooms[k].bannedUsers + [banned])] else rooms
  }

  /** The accounts after BANN: `room` appended to the first account of `banned`. */
  function BanInAccounts(users: seq<User>, room: string, banned: string): seq<User>
  {
    var a := FirstAccount(users, banned);
    if a < |users| then users[a := users[a].(bannedGroups := users[a].bannedGroups + [room])] else users
  }

  /** banAction: both files are written, and only when the caller is admin. */
  function BanResult(w: World, username: string, room: string, banned: string): StepResult
  {
    var rooms := Load(w.rooms);
    if IsFirstRoomAdmin(rooms, room, username) then
      StepResult(
        World(Saved(BanInAccounts(Load(w.accounts), room, banned)), Saved(BanInRooms(rooms, room, banned)),
          UpdateAll(w.clients, banned, MoveOut)),
        Reply(NewResponse("191", [("banned_user", banned)], "CC", Text(banned + " has been banned from the group"))))
    else
      StepResult(w, Reply(NewResponse("250", [("username", username)], "CC", NotAdminText())))
  }

  /** listAction: 240 only for a blank rooms file. */
  function ListResult(w: World, username: string): StepResult
  {
    match w.rooms
    case Blank =>
      StepResult(w, Reply(NewResponse("240", [("username", username)], "", Text("There are currently no groups"))))
    case Saved(rooms) =>
      StepResult(w, Reply(NewResponse("130", [("username", username)], "", Names(RoomNames(rooms)))))
  }

  /** The accounts after CHAT: the room added to the creator's first account. */
  function AdminInAccounts(users: seq<User>, username: string, room: string): seq<User>
  {
    var a := FirstAccount(users, username);
    if a < |users| then users[a := users[a].(adminGroups := AddAdminGroup(users[a].adminGroups, room))] else users
  }

  /** createNewChat. The rooms file is written before the accounts file is
      read, and the accounts file is read without the empty-file guard: a
      blank accounts file raises after the new room has been saved. */
  function CreateChatResult(w: World, username: string, room: string, h: HandlerId): StepResult
  {
    var rooms := Load(w.rooms);
    if HasRoom(rooms, room) then
      StepResult(w, Reply(NewResponse("230", [], "", Text("Group name already exists"))))
    else
      var rooms' := Saved(rooms + [NewChatRoom(room, [username], [username])]);
      match w.accounts
      case Blank => StepResult(w.(rooms := rooms'), Raised(MalformedStore))
      case Saved(users) =>
        StepResult(
          World(Saved(AdminInAccounts(users, username, room)), rooms',
            UpdateAll(w.clients, username, SeatCreator(room, h))),
          Reply(NewResponse("170", [], "", Text(""))))
  }

  /** leaveChat: only the caller's first entry changes. */
  function LeaveResult(w: World, username: string, h: HandlerId): StepResult
  {
    StepResult(w.(clients := UpdateFirst(w.clients, username, LeaveAs(h))),
      Reply(NewResponse("190", [("username", username)], "", Text(username + " has left the chat room"))))
  }

  /** incompatibleVersion. */
  function VersionReply(): Response
  {
    NewResponse("330", [], "CC", Text("Server is running on a different protocol version"))
  }

  /** run_command. */
  function Step(w: World, cmd: Command, h: HandlerId): StepResult
  {
    match cmd
    case Nwua(u, p) => SignUpResult(w, u, p, h)
    case Auth(u, p) => LoginResult(w, u, p, h)
    case Redy => StepResult(w, Reply(ReadyReply()))
    case List(u) => ListResult(w, u)
    case Chat(u, room) => CreateChatResult(w, u, room, h)
    case Join(u, room) => JoinResult(w, u, room, h)
    case Leve(u) => LeaveResult(w, u, h)
    case Kick(u, room, kicked) => KickResult(w, u, room, kicked)
    case Bann(u, room, banned) => BanResult(w, u, room, banned)
    case Mssg(p) => StepResult(w, Reply(MessageReply(p)))
    case Vrsn => StepResult(w, Reply(VersionReply()))
  }

  /** The state of a freshly started server: no files, no connections. */
  function InitialWorld(): World
  {
    World(Blank, Blank, [])
  }
}
