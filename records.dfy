/** An account as stored in the accounts file (user.py). */
module UserRecord {

  datatype User = User(
    username: string,
    password: string,
    adminGroups: seq<string>,   // rooms this user administers
    bannedGroups: seq<string>)  // rooms this user is banned from

  /** User(username, password) with both lists left at their defaults. */
  function NewUser(username: string, password: string): (u: User)
    ensures u.username == username && u.password == password
    ensures u.adminGroups == [] && u.bannedGroups == []
  {
    User(username, password, [], [])
  }
}

/** A room as stored in the rooms file (chat_room.py). */
module ChatRoomRecord {

  datatype ChatRoom = ChatRoom(
    chatName: string,
    users: seq<string>,
    admins: seq<string>,
    bannedUsers: seq<string>,
    blackUsers: seq<string>)   // reserved; nothing changes it

  /** Chat_room(groupName, users, admins) with banned_users and black_users
      left at their defaults. */
  function NewChatRoom(groupName: string, users: seq<string>, admins: seq<string>): (c: ChatRoom)
    ensures c.chatName == groupName && c.users == users && c.admins == admins
    ensures c.bannedUsers == [] && c.blackUsers == []
  {
    ChatRoom(groupName, users, admins, [], [])
  }
}
