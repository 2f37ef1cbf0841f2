# Chat Service Protocol: a verified model of the protocol engine

ChatServiceProtocol is a small text chat system. A server keeps three pieces of
state:

- an accounts file, with one record per user: name, password, the rooms the
  user administers and the rooms the user is banned from;
- a rooms file, with one record per chat room: name, members, admins, banned
  users and a reserved "black users" list;
- an in-memory registry of connections (`client_map["clients"]`). Each entry
  holds a username, the current room, the previous room and the connection's
  handler.

Clients send requests, each a five-field record (version, command, parameters,
channel, payload) serialised to one line of text ending in `"\n"`. The server
runs the command against its state and answers with a response record. The
response carries the server's version, a three-digit response code,
parameters, a channel and a payload. The server then pushes the response to
every registry entry that a four-branch delivery rule selects. Each client
updates its own state from the response code. It filters by the username the
response names, and tries to hide the echo of its own chat messages.

The model has these parts, one Dafny module each:

| module | file | models |
|---|---|---|
| `Common` | common.dfy | `Option`, `Result`, and the exceptions the Python code can raise (`Fault`) |
| `Wire` | wire.dfy | the serialiser that stands in for JSON; parameter lookup; async_chat's buffering and framing |
| `PduRequest`, `PduResponse` | pdu_request.dfy, pdu_response.dfy | the two records and `createRequestStr` / `createResponseStr` |
| `UserRecord`, `ChatRoomRecord` | records.dfy | `User` and `Chat_room` with their empty-list defaults |
| `Dispatch` | dispatch.dfy | `RequestHandler.run_command` and its action methods, as functions from a `World` (both store files and the registry) to a `StepResult` |
| `RequestHandler` | request_handler.dfy | the same actions step by step, with loops, in class `ServerState`; each method is proved to agree with its `Dispatch` function |
| `Routing` | routing.dfy | the delivery loop of `ChatHandler.found_terminator` |
| `Server` | server.dfy | `ChatServer` (version, `handle_accept`, `processRequest`, `incompatibleVersion`) and `ChatHandler` (`collect_incoming_data`, `found_terminator`) |
| `Client` | client.dfy | `ChatClient`: sending requests, collecting response text and the response-code state machine of `found_terminator` |
| `Properties` | properties.dfy | laws spanning several commands or both ends of a connection |

Modelling decisions:

- **Store files.** A file is a `Snapshot`. `Blank` stands for a missing or
  empty file, which `getFileContents` reads as `""`. `Saved(items)` stands for
  a file holding a collection, possibly an empty one. Handlers that guard
  against `""` read `Blank` as the empty collection (`Load`).
- **Unguarded reads.** JOIN parses the rooms text without that guard, and
  CHAT parses the accounts text without it. On a `Blank` file each raises, as
  the Python `json.loads("")` does: JOIN at request_handler.py:165, CHAT at
  request_handler.py:359-361. This is the fault `MalformedStore`. CHAT saves
  its new room before it raises, and the model keeps that write.
- **Exceptions.** Every exception the code can reach is a `Fault` result.
  That covers a missing parameter (`KeyError`), an unknown command (for which
  `run_command` returns `None`, which the caller then fails to parse), an
  undecodable frame, and `response_obj` undefined on the version-mismatch
  path. Nothing recovers from them. Where the Python handler dies part-way,
  partial state changes stay. In the routing loop, the entries before the
  failing one have already been pushed to and updated.
- **Handlers.** A connection's handler is an opaque `HandlerId`. A
  `handler.push(response)` is one `Delivery` in the server's delivery log, and
  the connection's pending request frames are the client's `sent` log.
- **Versions.** Each version is the string constant `"1.0"`, compared only for
  equality.

Where the documented behaviour and the code disagree, the model follows the code:

- **JOIN.** It rewrites the rooms file unchanged and never adds the user to
  the room's `users` (request_handler.py:175-192).
- **JOIN to a room that does not exist.** It is accepted (`JoinUnknownRoom`).
- **LIST.** It answers 240 only for a blank rooms file. A saved but empty
  list gets 130 with no names (request_handler.py:317-328).
- **KICK and BANN.** They check admin rights only against the first room of
  that name (request_handler.py:218-224, 267-276).
- **The client's echo test.** The client's 140 branch (`Client.Receive`,
  `Client.ChatClient.Apply`) runs the slice test of client.py:136, which also
  hides other users' messages. The intended test is kept beside it, in
  `Client.ReceiveIntended` (see "## Findings").

## Model

| member | source | states |
|---|---|---|
| UserRecord.NewUser | user.py:16-20 | username and password are stored as given; adminGroups and bannedGroups start empty |
| ChatRoomRecord.NewChatRoom | chat_room.py:16-21 | name, users and admins are stored as given; banned_users and black_users start empty |
| PduRequest.CreateRequestStr | pdu_request.py:26-29 | the request text is non-empty, ends with the terminator, and has no other terminator before it |
| PduRequest.RequestRoundTrip | pdu_request.py:18-27 | decoding a request body gives back all five fields |
| PduRequest.RequestFrameRoundTrip | pdu_request.py:26-29 | the server cuts a request stream exactly after the body, whatever follows, and decodes the same request |
| PduResponse.NewResponse | pdu_response.py:19-27 | the version is always the server's constant; code, parameters, channel and payload are the arguments |
| PduResponse.CreateResponseStr | pdu_response.py:30-33 | the response text ends with the terminator and has no other terminator before it |
| PduResponse.ResponseRoundTrip | pdu_response.py:22-31 | decoding a response body gives back all fields |
| PduResponse.ResponseFrameRoundTrip | pdu_response.py:30-33 | a response frame is cut off exactly after its body and decodes to the response built |
| PduResponse.ParseResponseStrRoundTrip | pdu_response.py:30-33 | reading back a serialised response (as server.py:73 does) gives the same response |
| Wire.Escape | pdu_request.py:27 | an escaped text holds neither the terminator nor the field end |
| Wire.UnescapeEscape | pdu_request.py:27 | unescaping an escaped text gives the text back |
| Wire.UnpackPack | pdu_request.py:27 | a packed field list unpacks to the same list |
| Wire.ParamsRoundTrip | pdu_request.py:21 | an encoded parameter dictionary decodes to the same parameters |
| Wire.PayloadRoundTrip | pdu_request.py:23 | an encoded payload, text or list of names, decodes to the same payload |
| Wire.Get | server.py:166 | a dictionary lookup finds a pair with that key, and a miss means no pair has the key |
| Wire.SplitAt | server.py:45 | it cuts at the first terminator exactly, and fails exactly when there is none |
| Wire.FrameIsolated | server.py:45 | a terminator-free body followed by a terminator is one frame, whatever follows it |
| Wire.ConcatAppend | server.py:54-61 | joining the buffer after one more chunk is the old join followed by that chunk |
| RequestHandler.UsernameTaken | request_handler.py:88-91 | the loop finds an account exactly when one has that username |
| RequestHandler.CredentialsMatch | request_handler.py:130-136 | the loop finds an account exactly when one has both that name and that password |
| RequestHandler.BannedFromRoom | request_handler.py:166-172 | the loop finds a ban exactly when a room of that name lists the user as banned |
| RequestHandler.RoomNameTaken | request_handler.py:342-344 | the loop finds a room exactly when one has that name |
| RequestHandler.FindRoom | request_handler.py:218-224 | the loop stops at the first room of that name, or past the end when there is none |
| RequestHandler.FindAccount | request_handler.py:280-284 | the loop stops at the first account of that name, or past the end |
| RequestHandler.IsAdmin | request_handler.py:220-223 | the loop finds the caller exactly when the caller is in admins |
| RequestHandler.CollectRoomNames | request_handler.py:320-322 | the list holds every room's name, in file order |
| RequestHandler.AppendAdminGroup | request_handler.py:365-374 | the room is appended to adminGroups exactly when it is not already there |
| RequestHandler.ServerState.ReadyAction | request_handler.py:155-157 | REDY answers 100 "Ready" on channel CC |
| RequestHandler.ServerState.MssgAction | request_handler.py:200-202 | MSSG answers 140 on channel DC, echoing the payload unchanged |
| RequestHandler.ServerState.ListAction | request_handler.py:313-328 | LIST changes nothing and answers as `ListResult` |
| RequestHandler.ServerState.IncompatibleVersion | request_handler.py:411-413 | VRSN answers 330 with the incompatible-version text |
| RequestHandler.ServerState.CreateNewUserAccount | request_handler.py:77-113 | the new state and the reply are those of `SignUpResult` |
| RequestHandler.ServerState.LoginAuthentication | request_handler.py:116-152 | the new state and the reply are those of `LoginResult` |
| RequestHandler.ServerState.JoinAction | request_handler.py:160-197 | the new state and the reply, or the exception on a blank rooms file, are those of `JoinResult` |
| RequestHandler.ServerState.KickAction | request_handler.py:205-244 | the new state and the reply are those of `KickResult` |
| RequestHandler.ServerState.BanAction | request_handler.py:247-310 | the new state and the reply are those of `BanResult` |
| RequestHandler.ServerState.CreateNewChat | request_handler.py:331-392 | the new state and the reply, including the partial write before a blank accounts file raises, are those of `CreateChatResult` |
| RequestHandler.ServerState.LeaveChat | request_handler.py:395-408 | the new state and the reply are those of `LeaveResult` |
| RequestHandler.ServerState.RunCommand | request_handler.py:35-58 | each command runs its own handler, as `Step` does |
| Properties.SignUpOutcome | request_handler.py:77-113 | 110 exactly for a new name, with one account (empty lists) and one entry `{username, "", None, handler}` appended; otherwise nothing changes |
| Properties.LoginOutcome | request_handler.py:116-152 | 110 and one appended entry exactly when an account matches name and password; the accounts file is never written |
| Properties.JoinOutcome | request_handler.py:160-197 | 240 with nothing changed exactly when the caller is banned from a room of that name; otherwise 180, and every entry of the caller takes the room as chat_name, its old room as prev_chat and the new handler; neither file changes |
| Properties.JoinUnknownRoom | request_handler.py:169-192 | a JOIN to a room nobody created succeeds and moves the caller's entries there |
| Properties.KickOutcome | request_handler.py:215-244 | 192 exactly when the caller administers the first room of that name, and then every entry of the kicked user gets chat_name "" and its old room as prev_chat; otherwise 260 and nothing changes; no file changes |
| Properties.BanOutcome | request_handler.py:264-310 | 191 exactly when the caller administers the first room of that name, and then the banned user is appended to that room's banned_users, the room to the bannedGroups of the banned user's first account, both files are saved, and every entry of the banned user gets chat_name "" and its old room as prev_chat; otherwise 250 and nothing changes |
| Properties.ListOutcome | request_handler.py:313-328 | 240 exactly for a blank rooms file; otherwise 130 with every room name in file order; nothing changes |
| Properties.LeaveOutcome | request_handler.py:395-408 | always 190; only the caller's first registry entry changes, leaving its room, remembering it and taking the new handler |
| Properties.CreateChatOutcome | request_handler.py:331-392 | 230 with nothing changed for a taken name; otherwise 170, and every entry of the creator is seated in the room with prev_chat "" |
| Properties.AdminGroupOnce | request_handler.py:365-374 | the creator's adminGroups gains the room once and stays free of duplicates |
| Properties.StepFrame | request_handler.py:35-58 | only NWUA, CHAT and BANN write the accounts file; only CHAT and BANN write the rooms file; REDY, LIST, MSSG and VRSN leave the registry alone |
| Properties.StepAccountNames | request_handler.py:77-113 | no command renames or removes an account; only a sign-up adds one, at the end, under a free name |
| Properties.StepKeepsAccountNamesDistinct | request_handler.py:88-91 | account usernames stay unique under every command |
| Properties.StepRooms | request_handler.py:35-58 | rooms are never removed or reordered; names, users, admins and black_users never change; banned_users only grows; only CHAT appends a room [creator]/[creator] under a free name |
| Properties.BanRooms | request_handler.py:267-276 | BANN by an admin of the first room of that name appends the banned user to that room's banned_users and changes no other room or field; by anyone else it leaves the rooms unchanged |
| Properties.StepKeepsRoomNamesDistinct | request_handler.py:342-344 | room names stay unique under every command |
| Properties.StepRegistry | request_handler.py:105-110 | no command removes, reorders or re-owns registry entries; only a successful NWUA or AUTH appends one, for that user with no room |
| Properties.SignUpThenLogin | request_handler.py:88-147 | after a sign-up the same name is refused (200) and logs in exactly with the password it signed up with |
| Properties.BanThenJoin | request_handler.py:169-197 | once banned from a room, a JOIN to it is refused with 240 and changes nothing |
| Properties.CreatorAdministers | request_handler.py:346-374 | the creator is the first room's admin, can kick in it (192), sees it listed, and its account records the admin group |
| Server.ChatServer.GetVersion | server.py:134-135 | the server's version is the protocol constant |
| Server.ChatServer.HandleAccept | server.py:139-157 | exactly one registry entry is appended: username, chat_name and prev_chat "" and the new handler |
| Server.ParseVerb | request_handler.py:35-58 | a recognised command token names exactly that command |
| Server.Marshal | server.py:161-200 | every command needs "username"; an unknown command fails exactly when username is present; a marshalled command carries the request's token |
| Server.MarshalVerb | server.py:168-196 | each command reads its own keys; a missing key is the only failure |
| Server.MarshalRecovers | server.py:161-200 | a request carrying a command's parameters marshals back to exactly that command |
| Server.ChatServer.ProcessRequest | server.py:161-200 | a marshalling failure raises with the state unchanged; otherwise the state and the reply are those of `Step` |
| Server.ChatServer.IncompatibleVersion | server.py:202-205 | the answer is the 330 reply |
| Server.ChatHandler.CollectIncomingData | server.py:54-55 | the chunk is appended; the joined buffer grows by exactly that chunk |
| Server.ChatHandler.Answer | server.py:64-76 | the version gate: the same version is marshalled and run, another gets the 330 reply and no response code |
| Server.ChatHandler.FoundTerminator | server.py:59-110 | one frame is decoded, answered and routed as `HandleFrame`; the buffer is emptied unless an exception ended the handling |
| Server.DispatchedFrame | server.py:67-73 | with matching versions, the response is the dispatcher's, routed with its own response code |
| Server.VersionGate | server.py:67-76 | a request on another version leaves both files alone, changes no registry field but prev_chat, and the frame pushed reads back as the 330 reply |
| Server.ChatServer.RouteResponse | server.py:79-107 | the registry and the delivery log become what `Route` says |
| Routing.RouteLoop | server.py:79-107 | the loop over the registry computes exactly `Route`: who is pushed to, the new registry, and the exception that stopped it |
| Routing.DecideBranches | server.py:81-107 | each of the four branches as an if-and-only-if: NWUA/AUTH for no username; AUTH/LIST/CHAT/REDY or 240 outside a room; JOIN/KICK/BANN/LEVE for the room just left, clearing prev_chat; always for the same room |
| Routing.RouteDelivers | server.py:79-107 | without an exception, the handlers pushed to are exactly those the rule selects, each once, in registry order, and each entry ends as the rule says |
| Routing.RouteKeepsFields | server.py:79-107 | routing never adds, removes or reorders entries and changes no field but prev_chat, which it can only set to None |
| Routing.RouteFaultPersists | server.py:79-107 | once an entry's test raises, later entries are neither pushed to nor changed |
| Routing.LeaverServedOnce | server.py:99-103 | an entry that just left a room gets its JOIN/KICK/BANN/LEVE response once; the same request again is not delivered to it |
| Client.ChatClient.SendPDURequest | client.py:90-92 | exactly one request frame on the client's version is pushed |
| Client.ChatClient.SendMessage | client.py:481-490 | outside a room, or for a blank line, nothing is sent; otherwise one MSSG frame with the text marked "(" + username + ") " |
| Client.ChatClient.SetUsername | client.py:255-256 | the accepted login name becomes the client's username and nothing else changes |
| Client.ChatClient.CollectIncomingData | client.py:95-96 | the chunk is appended; the joined buffer grows by exactly that chunk |
| Client.ChatClient.ProcessResponse | client.py:211-219 | the response is shown once, after the ones before |
| Client.ChatClient.FoundTerminator | client.py:100-108 | the buffer is joined and emptied, and the state becomes what `ReceiveFrame` says of the joined text, with the echo test as written |
| Client.ChatClient.Apply | client.py:110-207 | the response-code chain, with client.py:136's slice test in its 140 branch, changes the state as `Receive` says |
| Client.Classify | client.py:115-207 | every recognised response code is classified as exactly its own branch |
| Client.FrameReceived | client.py:100-108 | a server response frame reaches the chain exactly as built, whatever follows on the stream |
| Client.AuthenticationOutcome | client.py:115-117 | 110 and 200 end the wait for authentication with verdict True or False and change nothing else |
| Client.CreationOutcome | client.py:144-146 | 170 and 230 end the wait for room creation with verdict True or False and change nothing else |
| Client.RoomListOutcome | client.py:120-128 | 130 and 240 act only for this user: 130 keeps the names, success True; 240 success False; both end the wait; for another user nothing changes |
| Client.ReceiveChangesAllowed | client.py:110-207 | the wait flags change only on their own codes (130/240 and 190 only for this user); chat_name changes only on this user's 180, 191 or 192; the username never changes; a response is shown at most once |
| Client.MessageShownAsWritten | client.py:131-139 | as written, a 140 message is dropped exactly when the client's name is a prefix of the sender's name followed by ") " and the text; for a name without ")", exactly when it is a prefix of the sender's name; otherwise it is shown |
| Client.EchoAsWrittenIsPrefix | client.py:136 | the slice test holds exactly when the username is a prefix of the text after "(" |
| Client.EchoAsWrittenNames | client.py:136 | for a username without ")", the slice test on a formatted message holds exactly when the username is a prefix of the sender's name |
| Client.ReceiveCounterexample | client.py:131-139 | as written, a client "al" drops the message "hi" of user "alice", which the intended chain shows |
| Client.MessageShownUnlessOwn | client.py:131-139 | with the intended echo test, the client's own 140 echo changes nothing and another user's message is shown |
| Client.JoinedOutcome | client.py:149-152 | on 180 the joiner's own client takes the room named in the response as chat_name; every client shows the response, and no other field changes |
| Client.LeftOutcome | client.py:155-158 | on 190 every client shows the response, and the leaver's own client also sets moved_out |
| Client.RemovedOutcome | client.py:161-170 | on 191 or 192 the banned or kicked user's own client clears chat_name; every client shows the response, and no other field changes |
| Client.EchoCounterexample | client.py:136 | as written, user "al" hides a message of user "alice" that the intended test shows |
| Client.EchoAsWrittenHidesLongerNames | client.py:136 | as written, a client hides every message of a user whose name starts with its own |
| Client.OwnEchoRecognised | client.py:487 | the intended test recognises every message the client itself formatted |
| Client.OthersNotEcho | client.py:136 | the intended test never hides another user's message when neither name contains ")" |
| Properties.MessageTravels | client.py:487-490 | a chat message is marshalled to MSSG, echoed verbatim by the server with its state unchanged, and dropped by the client that sent it |
| Properties.MessageDispatched | request_handler.py:200-202 | a chat request marshals to MSSG, the server answers 140 with the payload unchanged and its state untouched, and found_terminator routes that frame with code 140 |
| Client.OwnEchoDropped | client.py:131-139 | the 140 echo of a message the client itself sent, as it arrives on the stream, is dropped and changes nothing |
| Properties.MessageShownToOthers | request_handler.py:200-202 | a client whose name has no ")" drops the echoed message frame exactly when its name is a prefix of the sender's name, and shows it otherwise |

## Left out

- Sockets, `listen`/`connect`, asyncore/asynchat event loops and the client's
  daemon thread: I/O and scheduling, not protocol logic. A push is an entry
  in a delivery log.
- The interactive console is not modelled: `initiateDialog`,
  `createOrFetchGroups`, `joinGroup`, `displayOptions`, `chatConsole`, and
  their busy-waits on the flags. It is raw_input/print I/O. Two parts of it
  are kept because the protocol depends on them: the username assignment
  after a login (`SetUsername`) and the chat-message branch (`SendMessage`).
- response_handler.py and pdu_data.py print payloads and hold no state. Their
  effect is the `displayed` log.
- Real file access and JSON. Each file is an in-memory value read and written
  whole, and the serialiser is an escaping encoder with a proved round trip,
  not JSON's exact text.
- Floating-point versions: each version is a string constant compared for
  equality.
- `handle_close` is recorded only as the `closed` flag of a 330 response. The
  socket close is not modelled.
- `ban_complete` and `ban_allowed`: found_terminator never changes them.
- Client.ChatClient: the client's free-form `obj` dictionary is modelled only
  by the three keys the code sets. They are Option fields, absent until their
  first response.
- KICK and BANN set `client["handler"].chat_name = ""`. That is an attribute
  on the handler object, which the model treats as an opaque id.
- Registry entries are values in a sequence, not aliased dictionaries. Two
  entries sharing one handler object are not related.
- Server.ChatServer.RouteResponse: the pushes are appended to the delivery
  log after the loop, in loop order. Interleaving with other connections is
  not modelled.
- Client.IsBlank: Python 2's `str.strip` whitespace is the six ASCII
  characters space, tab, newline, carriage return, vertical tab and form
  feed. Other Unicode whitespace is not treated as blank.

## Findings

| source | as written | input that shows it | evidently intended | confidence | as-written member | corrected member |
|---|---|---|---|---|---|---|
| client.py:136 | a 140 message is hidden when `chat[1:len(username)+1] == username` | a client logged in as "al" receives "(alice) hi" from user "alice": the slice is "al", so the message is hidden | hide only the client's own messages, which start with "(" + username + ") " (client.py:487) | not executed | Client.ReceiveCounterexample | Client.MessageShownUnlessOwn |
