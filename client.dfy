/** The client side of a connection (client.py): ChatClient collects the
    server's text, and on each complete response frame updates its own
    state from the response code, filtering by the username the response
    names; it also frames the requests it sends, chat messages included. */
module Client {
  import opened Common
  import opened Wire
  import opened PduRequest
  import opened PduResponse

  /** ChatClient.__version. */
  const ClientVersion: string := "1.0"

  /** s[lo:hi] in Python for non-negative bounds: both are clamped to the
      length, and a slice whose start passes its end is empty. */
  function PySlice(s: string, lo: nat, hi: nat): (r: string)
    ensures lo <= hi <= |s| ==> r == s[lo..hi]
    ensures |r| <= |s|
  {
    var a := if lo < |s| then lo else |s|;
    var b := if hi < |s| then hi else |s|;
    if a <= b then s[a..b] else []
  }

  /** The chat text the console sends for message `msg` of user `u`. */
  function FormatMessage(u: string, msg: string): string
  {
    "(" + u + ") " + msg
  }

  /** The echo test as written: chat[1:len(username)+1] == username. A list
      payload never equals a string. */
  function EchoAsWritten(u: string, p: Payload): bool
  {
    match p
    case Text(t) => PySlice(t, 1, |u| + 1) == u
    case Names(_) => false
  }

  /** The echo test as intended: the chat text starts with the marker
      "(" + username + ") " that the console puts in front of the client's
      own messages. */
  function IsOwnEcho(u: string, p: Payload): bool
  {
    var mark := "(" + u + ") ";
    p.Text? && |mark| <= |p.text| && p.text[..|mark|] == mark
  }

  /** The test as written hides the message of any user whose name starts
      with this client's name. */
  lemma {:induction false} EchoAsWrittenHidesLongerNames(u: string, v: string, msg: string)
    requires |u| <= |v| && v[..|u|] == u
    ensures EchoAsWritten(u, Text(FormatMessage(v, msg)))
  {
    var t := FormatMessage(v, msg);
    assert t[1..|u| + 1] == v[..|u|];
  }

  /** The discrepancy on one input: "al" does not see a message of "alice". */
  lemma EchoCounterexample()
    ensures EchoAsWritten("al", Text(FormatMessage("alice", "hi")))
    ensures !IsOwnEcho("al", Text(FormatMessage("alice", "hi")))
  {
    EchoAsWrittenHidesLongerNames("al", "alice", "hi");
    var t := FormatMessage("alice", "hi");
    assert t[3] == 'i';
  }

  /** The intended test recognises every message the client itself sent. */
  lemma OwnEchoRecognised(u: string, msg: string)
    ensures IsOwnEcho(u, Text(FormatMessage(u, msg)))
  {
    var mark := "(" + u + ") ";
    assert FormatMessage(u, msg)[..|mark|] == mark;
  }

  /** ...and no message of another user, as long as neither name contains
      the closing parenthesis of the marker. */
  lemma {:induction false} OthersNotEcho(u: string, v: string, msg: string)
    requires u != v && ')' !in u && ')' !in v
    ensures !IsOwnEcho(u, Text(FormatMessage(v, msg)))
  {
    var mark := "(" + u + ") ";
    var t := FormatMessage(v, msg);
    if |mark| <= |t| {
      var k: nat;
      if |u| < |v| {
        k := |u| + 1;
        assert mark[k] == ')' && t[k] == v[|u|];
      } else if |v| < |u| {
        k := |v| + 1;
        assert t[k] == ')' && mark[k] == u[|v|];
      } else {
        var j :| 0 <= j < |u| && u[j] != v[j];
        k := j + 1;
        assert mark[k] == u[j] && t[k] == v[j];
      }
      assert t[..|mark|][k] != mark[k];
    }
  }

  /** What the test as written compares: the username against the start
      of the text after "(", so it holds exactly when the username is a
      prefix of the sender's name followed by ") " and the message. */
  lemma EchoAsWrittenIsPrefix(u: string, sender: string, msg: string)
    ensures EchoAsWritten(u, Text(FormatMessage(sender, msg))) <==> u <= sender + ") " + msg
  {
    var t, rest := FormatMessage(sender, msg), sender + ") " + msg;
    assert t == "(" + rest;
    var slice := PySlice(t, 1, |u| + 1);
    if |u| + 1 <= |t| {
      assert slice == t[1..|u| + 1] == rest[..|u|];
      assert |u| <= |rest|;
    } else {
      assert slice == t[1..] == rest;
      assert |rest| < |u|;
      assert slice != u;
    }
  }

  /** For a username without ")", the test as written hides a message
      exactly when the client's name is a prefix of the sender's name: its
      own messages, and every message of a user whose name extends it. */
  lemma EchoAsWrittenNames(u: string, sender: string, msg: string)
    requires ')' !in u
    ensures EchoAsWritten(u, Text(FormatMessage(sender, msg))) <==> u <= sender
  {
    EchoAsWrittenIsPrefix(u, sender, msg);
    var rest := sender + ") " + msg;
    assert sender <= rest;
    if |u| <= |sender| {
      assert |u| <= |rest| ==> rest[..|u|] == sender[..|u|];
    } else {
      assert u[|sender|] in u;
      assert |u| <= |rest| ==> rest[..|u|][|sender|] == ')';
    }
  }

  /** Python's str.strip() == "": the text is whitespace only. */
  predicate IsBlank(msg: string)
  {
    forall i :: 0 <= i < |msg| ==> msg[i] in {' ', '\t', '\n', '\r', '\U{000B}', '\U{000C}'}
  }

  /** The MSSG request the console sends for message `msg`. */
  function MessageRequest(u: string, room: string, msg: string): Request
  {
    Request(ClientVersion, "MSSG", [("username", u), ("chat_name", room)], "DC", Text(FormatMessage(u, msg)))
  }

  /** The client state found_terminator reads and writes. The three
      Option fields are the entries of the client's "obj" dictionary, absent
      until the first response that sets them; `displayed` logs every
      processResponse call, `closed` the handle_close of a 330 response. */
  datatype View = View(
    username: string,
    chatName: string,
    groupNames: Payload,
    authenticated: Option<bool>,
    groupFetchSuccess: Option<bool>,
    groupCreated: Option<bool>,
    authenticationComplete: bool,
    createGroupRespRecv: bool,
    groupNamesReceived: bool,
    movedOut: bool,
    closed: bool,
    displayed: seq<Response>)

  function InitialView(): View
  {
    View("", "", Names([]), None, None, None, false, false, false, false, false, [])
  }

  /** The state after a response, and the KeyError that cut it short, if
      one did. */
  datatype Reception = Reception(view: View, fault: Option<Fault>)

  function Show(v: View, r: Response): View
  {
    v.(displayed := v.displayed + [r])
  }

  /** 130, the room list: kept and shown only when it answers this
      client's own LIST. */
  function ReceiveGroups(v: View, r: Response): Reception
  {
    match Get(r.parameters, "username")
    case None => Reception(v, Some(MissingKey("username")))
    case Some(u) =>
      if v.username == u then
        Reception(Show(v, r).(groupNames := r.payload, groupFetchSuccess := Some(true), groupNamesReceived := true), None)
      else Reception(v, None)
  }

  /** 180, a join: a join by this client's own user moves it to the room
      named in the response; every join is shown. */
  function ReceiveJoined(v: View, r: Response): Reception
  {
    match Get(r.parameters, "username")
    case None => Reception(v, Some(MissingKey("username")))
    case Some(u) =>
      if v.username == u then
        match Get(r.parameters, "chat_name")
        case None => Reception(v, Some(MissingKey("chat_name")))
        case Some(c) => Reception(Show(v.(chatName := c), r), None)
      else Reception(Show(v, r), None)
  }

  /** 190, a departure: shown first, then the lookup of the leaver. */
  function ReceiveLeft(v: View, r: Response): Reception
  {
    match Get(r.parameters, "username")
    case None => Reception(Show(v, r), Some(MissingKey("username")))
    case Some(u) => Reception(if u == v.username then Show(v, r).(movedOut := true) else Show(v, r), None)
  }

  /** 191 and 192, a ban or a kick of the user under `key`: when that is
      this client's own user it leaves its room; every one is shown. */
  function ReceiveRemoved(v: View, r: Response, key: string): Reception
  {
    match Get(r.parameters, key)
    case None => Reception(v, Some(MissingKey(key)))
    case Some(t) => Reception(Show(if t == v.username then v.(chatName := "") else v, r), None)
  }

  /** 240, no room list or a refused join: acted on only for this
      client's own user. */
  function ReceiveRejected(v: View, r: Response): Reception
  {
    match Get(r.parameters, "username")
    case None => Reception(v, Some(MissingKey("username")))
    case Some(u) =>
      if v.username == u then
        Reception(Show(v, r).(groupFetchSuccess := Some(false), groupNamesReceived := true), None)
      else Reception(v, None)
  }

  /** 250 and 260, a refused ban or kick: shown only to the requester. */
  function ReceiveRefused(v: View, r: Response): Reception
  {
    match Get(r.parameters, "username")
    case None => Reception(v, Some(MissingKey("username")))
    case Some(u) => Reception(if u == v.username then Show(v, r) else v, None)
  }

  /** The response codes found_terminator tests for, in the order it tests
      them; OtherCode is every other code. */
  datatype Code =
    | LoggedIn | RoomList | Chat | RoomCreated | Joined | Left | Banned | Kicked
    | LoginRefused | CreateRefused | Rejected | BanRefused | KickRefused | Closing | OtherCode

  function CodeToken(c: Code): string
  {
    match c
    case LoggedIn => "110"
    case RoomList => "130"
    case Chat => "140"
    case RoomCreated => "170"
    case Joined => "180"
    case Left => "190"
    case Banned => "191"
    case Kicked => "192"
    case LoginRefused => "200"
    case CreateRefused => "230"
    case Rejected => "240"
    case BanRefused => "250"
    case KickRefused => "260"
    case Closing => "330"
    case OtherCode => ""
  }

  /** The if-chain's tests of response_code, made once. */
  function Classify(code: string): (c: Code)
    ensures c != OtherCode ==> CodeToken(c) == code
  {
    if code == "110" then LoggedIn
    else if code == "130" then RoomList
    else if code == "140" then Chat
    else if code == "170" then RoomCreated
    else if code == "180" then Joined
    else if code == "190" then Left
    else if code == "191" then Banned
    else if code == "192" then Kicked
    else if code == "200" then LoginRefused
    else if code == "230" then CreateRefused
    else if code == "240" then Rejected
    else if code == "250" then BanRefused
    else if code == "260" then KickRefused
    else if code == "330" then Closing
    else OtherCode
  }

  lemma ClassifyToken(c: Code)
    requires c != OtherCode
    ensures Classify(CodeToken(c)) == c
  {
  }

  /** The branch of the chain that a classified code selects. */
  function ReceiveCode(v: View, r: Response, c: Code): Reception
  {
    match c
    case LoggedIn => Reception(v.(authenticated := Some(true), authenticationComplete := true), None)
    case RoomList => ReceiveGroups(v, r)
    case Chat => if EchoAsWritten(v.username, r.payload) then Reception(v, None) else Reception(Show(v, r), None)
    case RoomCreated => Reception(v.(groupCreated := Some(true), createGroupRespRecv := true), None)
    case Joined => ReceiveJoined(v, r)
    case Left => ReceiveLeft(v, r)
    case Banned => ReceiveRemoved(v, r, "banned_user")
    case Kicked => ReceiveRemoved(v, r, "kicked_user")
    case LoginRefused => Reception(v.(authenticated := Some(false), authenticationComplete := true), None)
    case CreateRefused => Reception(v.(groupCreated := Some(false), createGroupRespRecv := true), None)
    case Rejected => ReceiveRejected(v, r)
    case BanRefused => ReceiveRefused(v, r)
    case KickRefused => ReceiveRefused(v, r)
    case Closing => Reception(Show(v, r).(closed := true), None)
    case OtherCode => Reception(Show(v, r), None)
  }

  /** The response-code chain of found_terminator. */
  function Receive(v: View, r: Response): Reception
  {
    ReceiveCode(v, r, Classify(r.responseCode))
  }

  /** The chain with the echo test as intended: only the 140 branch
      differs, hiding exactly the messages marked with this client's own
      name. */
  function ReceiveIntended(v: View, r: Response): Reception
  {
    if Classify(r.responseCode) == Chat then
      if IsOwnEcho(v.username, r.payload) then Reception(v, None) else Reception(Show(v, r), None)
    else Receive(v, r)
  }

  /** found_terminator on the text of one frame. */
  function ReceiveFrame(v: View, text: string): Reception
  {
    match DecodeResponse(text)
    case None => Reception(v, Some(MalformedFrame))
    case Some(r) => Receive(v, r)
  }

  class ChatClient {
    var username: string
    var chatName: string
    var groupNames: Payload
    var authenticated: Option<bool>
    var groupFetchSuccess: Option<bool>
    var groupCreated: Option<bool>
    var authenticationComplete: bool
    var createGroupRespRecv: bool
    var groupNamesReceived: bool
    var movedOut: bool
    var closed: bool
    var displayed: seq<Response>
    /** The chunks received since the last complete frame. */
    var buffer: seq<string>
    /** Every request frame pushed to the server, in order. */
    var sent: seq<string>

    function Model(): View
      reads this
    {
      View(username, chatName, groupNames, authenticated, groupFetchSuccess, groupCreated,
        authenticationComplete, createGroupRespRecv, groupNamesReceived, movedOut, closed, displayed)
    }

    constructor ()
      ensures Model() == InitialView() && buffer == [] && sent == []
    {
      username, chatName, groupNames := "", "", Names([]);
      authenticated, groupFetchSuccess, groupCreated := None, None, None;
      authenticationComplete, createGroupRespRecv, groupNamesReceived, movedOut := false, false, false, false;
      closed, displayed := false, [];
      buffer, sent := [], [];
    }

    /** The console's `self.username = username` once the server accepted
        the login or the sign-up. */
    method SetUsername(name: string)
      modifies this
      ensures Model() == old(Model()).(username := name)
      ensures buffer == old(buffer) && sent == old(sent)
    {
      username := name;
    }

    /** sendPDURequest: frame a request on the client's version and push it. */
    method SendPDURequest(command: string, parameters: Params, channel: string, payload: Payload)
      modifies this
      ensures sent == old(sent) + [CreateRequestStr(Request(ClientVersion, command, parameters, channel, payload))]
      ensures Model() == old(Model()) && buffer == old(buffer)
    {
      sent := sent + [CreateRequestStr(Request(ClientVersion, command, parameters, channel, payload))];
    }

    /** The chat branch of the console: outside a group, or for a blank
        line, nothing is sent; otherwise the text goes out marked with the
        sender's name. */
    method SendMessage(msg: string)
      modifies this
      ensures sent == old(sent) +
        if old(chatName) == "" || IsBlank(msg) then [] else [CreateRequestStr(MessageRequest(old(username), old(chatName), msg))]
      ensures Model() == old(Model()) && buffer == old(buffer)
    {
      if chatName == "" || IsBlank(msg) {
        return;
      }
      var text := "(" + username + ") " + msg;
      SendPDURequest("MSSG", [("username", username), ("chat_name", chatName)], "DC", Text(text));
    }

    /** collect_incoming_data. */
    method CollectIncomingData(data: string)
      modifies this
      ensures buffer == old(buffer) + [data]
      ensures Concat(buffer) == Concat(old(buffer)) + data
      ensures Model() == old(Model()) && sent == old(sent)
    {
      ConcatAppend(buffer, data);
      buffer := buffer + [data];
    }

    /** processResponse: hand the response to the display. */
    method ProcessResponse(r: Response)
      modifies this
      ensures Model() == Show(old(Model()), r)
      ensures buffer == old(buffer) && sent == old(sent)
    {
      displayed := displayed + [r];
    }

    /** found_terminator: join and clear the buffer, parse the response and
        act on its code. */
    method FoundTerminator() returns (fault: Option<Fault>)
      modifies this
      ensures ReceiveFrame(old(Model()), Concat(old(buffer))) == Reception(Model(), fault)
      ensures buffer == [] && sent == old(sent)
    {
      var respStr := Concat(buffer);
      buffer := [];
      var decoded := DecodeResponse(respStr);
      if decoded.None? {
        return Some(MalformedFrame);
      }
      fault := Apply(decoded.value);
    }

    /** The response-code chain of found_terminator on a parsed response. */
    method Apply(r: Response) returns (fault: Option<Fault>)
      modifies this
      ensures Receive(old(Model()), r) == Reception(Model(), fault)
      ensures buffer == old(buffer) && sent == old(sent)
    {
      fault := None;
      match Classify(r.responseCode) {
        case LoggedIn => ApplyAuthentication(true);
        case RoomList => fault := ApplyGroups(r);
        case Chat => ApplyChat(r);
        case RoomCreated => ApplyCreation(true);
        case Joined => fault := ApplyJoined(r);
        case Left => fault := ApplyLeft(r);
        case Banned => fault := ApplyRemoved(r, "banned_user");
        case Kicked => fault := ApplyRemoved(r, "kicked_user");
        case LoginRefused => ApplyAuthentication(false);
        case CreateRefused => ApplyCreation(false);
        case Rejected => fault := ApplyRejected(r);
        case BanRefused => fault := ApplyRefused(r);
        case KickRefused => fault := ApplyRefused(r);
        case Closing =>
          ProcessResponse(r);
          closed := true;
        case OtherCode => ProcessResponse(r);
      }
    }

    /** 110 and 200: the verdict on the login or sign-up. */
    method ApplyAuthentication(ok: bool)
      modifies this
      ensures Model() == old(Model()).(authenticated := Some(ok), authenticationComplete := true)
      ensures buffer == old(buffer) && sent == old(sent)
    {
      authenticated := Some(ok);
      authenticationComplete := true;
    }

    /** 170 and 230: the verdict on the room creation. */
    method ApplyCreation(ok: bool)
      modifies this
      ensures Model() == old(Model()).(groupCreated := Some(ok), createGroupRespRecv := true)
      ensures buffer == old(buffer) && sent == old(sent)
    {
      groupCreated := Some(ok);
      createGroupRespRecv := true;
    }

    /** 140: a chat message, shown unless the echo test as written takes
        it for this client's own. */
    method ApplyChat(r: Response)
      modifies this
      ensures ReceiveCode(old(Model()), r, Chat) == Reception(Model(), None)
      ensures buffer == old(buffer) && sent == old(sent)
    {
      if !EchoAsWritten(username, r.payload) {
        ProcessResponse(r);
      }
    }

    method ApplyGroups(r: Response) returns (fault: Option<Fault>)
      modifies this
      ensures ReceiveGroups(old(Model()), r) == Reception(Model(), fault)
      ensures buffer == old(buffer) && sent == old(sent)
    {
      var u := Get(r.parameters, "username");
      if u.None? {
        return Some(MissingKey("username"));
      }
      if username == u.value {
        groupNames := r.payload;
        ProcessResponse(r);
        groupFetchSuccess := Some(true);
        groupNamesReceived := true;
      }
      fault := None;
    }

    method ApplyJoined(r: Response) returns (fault: Option<Fault>)
      modifies this
      ensures ReceiveJoined(old(Model()), r) == Reception(Model(), fault)
      ensures buffer == old(buffer) && sent == old(sent)
    {
      var u := Get(r.parameters, "username");
      if u.None? {
        return Some(MissingKey("username"));
      }
      if username == u.value {
        var c := Get(r.parameters, "chat_name");
        if c.None? {
          return Some(MissingKey("chat_name"));
        }
        chatName := c.value;
      }
      ProcessResponse(r);
      fault := None;
    }

    method ApplyLeft(r: Response) returns (fault: Option<Fault>)
      modifies this
      ensures ReceiveLeft(old(Model()), r) == Reception(Model(), fault)
      ensures buffer == old(buffer) && sent == old(sent)
    {
      ProcessResponse(r);
      var u := Get(r.parameters, "username");
      if u.None? {
        return Some(MissingKey("username"));
      }
      if u.value == username {
        movedOut := true;
      }
      fault := None;
    }

    method ApplyRemoved(r: Response, key: string) returns (fault: Option<Fault>)
      modifies this
      ensures ReceiveRemoved(old(Model()), r, key) == Reception(Model(), fault)
      ensures buffer == old(buffer) && sent == old(sent)
    {
      var t := Get(r.parameters, key);
      if t.None? {
        return Some(MissingKey(key));
      }
      if t.value == username {
        chatName := "";
      }
      ProcessResponse(r);
      fault := None;
    }

    method ApplyRejected(r: Response) returns (fault: Option<Fault>)
      modifies this
      ensures ReceiveRejected(old(Model()), r) == Reception(Model(), fault)
      ensures buffer == old(buffer) && sent == old(sent)
    {
      var u := Get(r.parameters, "username");
      if u.None? {
        return Some(MissingKey("username"));
      }
      if username == u.value {
        ProcessResponse(r);
        groupFetchSuccess := Some(false);
        groupNamesReceived := true;
      }
      fault := None;
    }

    method ApplyRefused(r: Response) returns (fault: Option<Fault>)
      modifies this
      ensures ReceiveRefused(old(Model()), r) == Reception(Model(), fault)
      ensures buffer == old(buffer) && sent == old(sent)
    {
      var u := Get(r.parameters, "username");
      if u.None? {
        return Some(MissingKey("username"));
      }
      if u.value == username {
        ProcessResponse(r);
      }
      fault := None;
    }
  }

  /** A response frame from the server reaches the response-code chain
      exactly as it was built, whatever follows it on the stream. */
  lemma FrameReceived(v: View, r: Response, rest: string)
    ensures var f := NextFrame(CreateResponseStr(r) + rest);
      f.Some? && f.value.1 == rest && ReceiveFrame(v, f.value.0) == Receive(v, r)
  {
    ResponseFrameRoundTrip(r.responseCode, r.parameters, r.channel, r.payload, rest);
    assert CreateResponseStr(r) == ResponseBody(r) + [Terminator];
    FrameIsolated(ResponseBody(r), rest);
    ResponseRoundTrip(r);
  }

  /** 110 and 200 end the wait for authentication, with the verdict. */
  lemma AuthenticationOutcome(v: View, r: Response)
    requires r.responseCode == "110" || r.responseCode == "200"
    ensures var rec := Receive(v, r);
      rec.fault == None && rec.view.authenticationComplete &&
      rec.view.authenticated == Some(r.responseCode == "110") &&
      rec.view.(authenticated := v.authenticated, authenticationComplete := v.authenticationComplete) == v
  {
  }

  /** 170 and 230 end the wait for room creation, with the verdict. */
  lemma CreationOutcome(v: View, r: Response)
    requires r.responseCode == "170" || r.responseCode == "230"
    ensures var rec := Receive(v, r);
      rec.fault == None && rec.view.createGroupRespRecv &&
      rec.view.groupCreated == Some(r.responseCode == "170") &&
      rec.view.(groupCreated := v.groupCreated, createGroupRespRecv := v.createGroupRespRecv) == v
  {
  }

  /** 130 and 240 are acted on exactly when they name this client's user:
      a 130 delivers the list, a 240 reports that there is none. */
  lemma RoomListOutcome(v: View, r: Response)
    requires r.responseCode == "130" || r.responseCode == "240"
    requires Get(r.parameters, "username").Some?
    ensures var rec := Receive(v, r);
      rec.fault == None &&
      (Get(r.parameters, "username").value == v.username ==>
        rec.view.groupNamesReceived && rec.view.displayed == v.displayed + [r] &&
        rec.view.groupFetchSuccess == Some(r.responseCode == "130") &&
        (r.responseCode == "130" ==> rec.view.groupNames == r.payload)) &&
      (Get(r.parameters, "username").value != v.username ==> rec.view == v)
  {
  }

  /** Which part of the client's state a response may change: the console
      waits on four flags and each is set only by its own responses (the
      130/240 and 190 ones only for this client's user); chat_name changes
      only on this user's join (to the joined room) and on its ban or kick
      (to ""); the username never changes; and the response is shown at
      most once, after the ones before it. */
  predicate ChangesAllowed(v: View, r: Response, c: Code, w: View)
  {
    var own := Get(r.parameters, "username") == Some(v.username);
    w.username == v.username &&
    (w.displayed == v.displayed || w.displayed == v.displayed + [r]) &&
    (w.authenticationComplete != v.authenticationComplete || w.authenticated != v.authenticated ==>
      c == LoggedIn || c == LoginRefused) &&
    (w.createGroupRespRecv != v.createGroupRespRecv || w.groupCreated != v.groupCreated ==>
      c == RoomCreated || c == CreateRefused) &&
    (w.groupNamesReceived != v.groupNamesReceived || w.groupFetchSuccess != v.groupFetchSuccess ==>
      (c == RoomList || c == Rejected) && own) &&
    (w.groupNames != v.groupNames ==> c == RoomList && own && w.groupNames == r.payload) &&
    (w.movedOut != v.movedOut ==> c == Left && own) &&
    (w.closed != v.closed ==> c == Closing) &&
    (w.chatName != v.chatName ==>
      (c == Joined && own && Get(r.parameters, "chat_name") == Some(w.chatName)) ||
      (c == Banned && Get(r.parameters, "banned_user") == Some(v.username) && w.chatName == "") ||
      (c == Kicked && Get(r.parameters, "kicked_user") == Some(v.username) && w.chatName == ""))
  }

  lemma FlagCodesChangeAllowed(v: View, r: Response, c: Code)
    requires c == LoggedIn || c == LoginRefused || c == RoomCreated || c == CreateRefused
    ensures ChangesAllowed(v, r, c, ReceiveCode(v, r, c).view)
  {
    var w := ReceiveCode(v, r, c).view;
    assert w == v.(authenticated := Some(c == LoggedIn), authenticationComplete := true) ||
           w == v.(groupCreated := Some(c == RoomCreated), createGroupRespRecv := true);
  }

  lemma ShownCodesChangeAllowed(v: View, r: Response, c: Code)
    requires c == Chat || c == Closing || c == OtherCode || c == BanRefused || c == KickRefused
    ensures ChangesAllowed(v, r, c, ReceiveCode(v, r, c).view)
  {
    var w := ReceiveCode(v, r, c).view;
    assert w == v || w == Show(v, r) || (c == Closing && w == Show(v, r).(closed := true));
  }

  lemma ListCodesChangeAllowed(v: View, r: Response, c: Code)
    requires c == RoomList || c == Rejected
    ensures ChangesAllowed(v, r, c, ReceiveCode(v, r, c).view)
  {
    var w := ReceiveCode(v, r, c).view;
    var own := Get(r.parameters, "username") == Some(v.username);
    assert w == v || (own && c == RoomList &&
      w == Show(v, r).(groupNames := r.payload, groupFetchSuccess := Some(true), groupNamesReceived := true)) ||
      (own && c == Rejected && w == Show(v, r).(groupFetchSuccess := Some(false), groupNamesReceived := true));
  }

  lemma JoinedChangeAllowed(v: View, r: Response)
    ensures ChangesAllowed(v, r, Joined, ReceiveCode(v, r, Joined).view)
  {
    var w := ReceiveCode(v, r, Joined).view;
    var own := Get(r.parameters, "username") == Some(v.username);
    assert w == v || w == Show(v, r) ||
      (own && Get(r.parameters, "chat_name") == Some(w.chatName) && w == Show(v.(chatName := w.chatName), r));
  }

  lemma LeftChangeAllowed(v: View, r: Response)
    ensures ChangesAllowed(v, r, Left, ReceiveCode(v, r, Left).view)
  {
    var w := ReceiveCode(v, r, Left).view;
    var own := Get(r.parameters, "username") == Some(v.username);
    assert w == Show(v, r) || (own && w == Show(v, r).(movedOut := true));
  }

  lemma RemovedChangeAllowed(v: View, r: Response, c: Code)
    requires c == Banned || c == Kicked
    ensures ChangesAllowed(v, r, c, ReceiveCode(v, r, c).view)
  {
    var w := ReceiveCode(v, r, c).view;
    var key := if c == Banned then "banned_user" else "kicked_user";
    assert w == v || w == Show(v, r) || (Get(r.parameters, key) == Some(v.username) && w == Show(v.(chatName := ""), r));
  }

  /** Every response, whatever its code, changes only what it may. */
  lemma ReceiveChangesAllowed(v: View, r: Response)
    ensures ChangesAllowed(v, r, Classify(r.responseCode), Receive(v, r).view)
  {
    var c := Classify(r.responseCode);
    match c {
      case LoggedIn => FlagCodesChangeAllowed(v, r, c);
      case LoginRefused => FlagCodesChangeAllowed(v, r, c);
      case RoomCreated => FlagCodesChangeAllowed(v, r, c);
      case CreateRefused => FlagCodesChangeAllowed(v, r, c);
      case Chat => ShownCodesChangeAllowed(v, r, c);
      case Closing => ShownCodesChangeAllowed(v, r, c);
      case OtherCode => ShownCodesChangeAllowed(v, r, c);
      case BanRefused => ShownCodesChangeAllowed(v, r, c);
      case KickRefused => ShownCodesChangeAllowed(v, r, c);
      case RoomList => ListCodesChangeAllowed(v, r, c);
      case Rejected => ListCodesChangeAllowed(v, r, c);
      case Joined => JoinedChangeAllowed(v, r);
      case Left => LeftChangeAllowed(v, r);
      case Banned => RemovedChangeAllowed(v, r, c);
      case Kicked => RemovedChangeAllowed(v, r, c);
    }
  }

  /** As written, a 140 message is hidden exactly when the echo test as
      written holds: for a client whose name has no ")", exactly when that
      name is a prefix of the sender's, so its own echo is hidden and so is
      every message of a user whose name extends its own; any other message
      is shown. */
  lemma MessageShownAsWritten(v: View, r: Response, sender: string, msg: string)
    requires r.responseCode == "140" && r.payload == Text(FormatMessage(sender, msg))
    ensures Receive(v, r) ==
      if v.username <= sender + ") " + msg then Reception(v, None) else Reception(Show(v, r), None)
    ensures ')' !in v.username ==>
      Receive(v, r) == if v.username <= sender then Reception(v, None) else Reception(Show(v, r), None)
  {
    EchoAsWrittenIsPrefix(v.username, sender, msg);
    if ')' !in v.username {
      EchoAsWrittenNames(v.username, sender, msg);
    }
  }

  /** The server's 140 echo of a message this client sent, arriving on
      the stream, is dropped and changes nothing. */
  lemma OwnEchoDropped(v: View, msg: string, rest: string)
    ensures var r := NewResponse("140", [], "DC", Text(FormatMessage(v.username, msg)));
      var f := NextFrame(CreateResponseStr(r) + rest);
      f.Some? && ReceiveFrame(v, f.value.0) == Reception(v, None)
  {
    var r := NewResponse("140", [], "DC", Text(FormatMessage(v.username, msg)));
    FrameReceived(v, r, rest);
    assert v.username <= v.username + ") " + msg;
    MessageShownAsWritten(v, r, v.username, msg);
  }

  /** With the intended echo test, the server's 140 echo of a message this
      client sent changes nothing, and a message of any other user (neither
      name containing ')') is shown. */
  lemma MessageShownUnlessOwn(v: View, r: Response, sender: string, msg: string)
    requires r.responseCode == "140" && r.payload == Text(FormatMessage(sender, msg))
    ensures sender == v.username ==> ReceiveIntended(v, r) == Reception(v, None)
    ensures sender != v.username && ')' !in sender && ')' !in v.username ==>
      ReceiveIntended(v, r) == Reception(Show(v, r), None)
  {
    if sender == v.username {
      OwnEchoRecognised(sender, msg);
    } else if ')' !in sender && ')' !in v.username {
      OthersNotEcho(v.username, sender, msg);
    }
  }

  /** The discrepancy in the state machine: a client logged in as "al"
      drops the message "hi" of user "alice", which the intended chain
      shows. */
  lemma ReceiveCounterexample(v: View)
    requires v.username == "al"
    ensures var r := NewResponse("140", [], "DC", Text(FormatMessage("alice", "hi")));
      Receive(v, r) == Reception(v, None) &&
      ReceiveIntended(v, r) == Reception(Show(v, r), None) &&
      Show(v, r) != v
  {
    var r := NewResponse("140", [], "DC", Text(FormatMessage("alice", "hi")));
    EchoCounterexample();
    assert |Show(v, r).displayed| == |v.displayed| + 1;
  }

  /** 180: the joiner's own client moves to the room the response names;
      every other client keeps its room; both show the response. */
  lemma JoinedOutcome(v: View, r: Response)
    requires r.responseCode == "180" && Get(r.parameters, "username").Some?
    ensures var own := Get(r.parameters, "username") == Some(v.username);
      (own && Get(r.parameters, "chat_name").Some? ==>
        Receive(v, r) == Reception(Show(v, r).(chatName := Get(r.parameters, "chat_name").value), None)) &&
      (!own ==> Receive(v, r) == Reception(Show(v, r), None))
  {
  }

  /** 190: every client shows the departure; the leaver's own client
      also records that it has moved out. */
  lemma LeftOutcome(v: View, r: Response)
    requires r.responseCode == "190" && Get(r.parameters, "username").Some?
    ensures var own := Get(r.parameters, "username") == Some(v.username);
      Receive(v, r) == Reception(Show(v, r).(movedOut := v.movedOut || own), None)
  {
  }

  /** 191 and 192: the banned or kicked user's own client leaves its room;
      every client shows the response. */
  lemma RemovedOutcome(v: View, r: Response)
    requires r.responseCode == "191" || r.responseCode == "192"
    requires var key := if r.responseCode == "191" then "banned_user" else "kicked_user";
      Get(r.parameters, key).Some?
    ensures var key := if r.responseCode == "191" then "banned_user" else "kicked_user";
      var own := Get(r.parameters, key) == Some(v.username);
      Receive(v, r) == Reception(if own then Show(v, r).(chatName := "") else Show(v, r), None)
  {
  }
}
