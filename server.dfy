/** The server side of a connection (server.py): ChatServer, which accepts
    connections, registers them and turns a request into a RequestHandler
    call, and ChatHandler, which collects one connection's incoming text,
    answers each complete frame and routes the answer to the registry's
    handlers. */
module Server {
  import opened Common
  import opened Wire
  import opened PduRequest
  import opened PduResponse
  import opened Dispatch
  import opened Routing
  import opened RequestHandler

  /** ChatServer.__version, compared with the request's "version" field. */
  const ServerVersion: string := "1.0"

  /** The command tokens processRequest and run_command recognise. */
  datatype Verb = AUTH | NWUA | LIST | CHAT | JOIN | BANN | KICK | MSSG | REDY | LEVE | VRSN

  function VerbToken(v: Verb): string
  {
    match v
    case AUTH => "AUTH"
    case NWUA => "NWUA"
    case LIST => "LIST"
    case CHAT => "CHAT"
    case JOIN => "JOIN"
    case BANN => "BANN"
    case KICK => "KICK"
    case MSSG => "MSSG"
    case REDY => "REDY"
    case LEVE => "LEVE"
    case VRSN => "VRSN"
  }

  /** The comparisons of the command with each token, in processRequest's
      order; None when the command matches none of them. */
  function ParseVerb(command: string): (r: Option<Verb>)
    ensures r.Some? ==> VerbToken(r.value) == command
  {
    if command == "AUTH" then Some(AUTH)
    else if command == "NWUA" then Some(NWUA)
    else if command == "LIST" then Some(LIST)
    else if command == "CHAT" then Some(CHAT)
    else if command == "JOIN" then Some(JOIN)
    else if command == "BANN" then Some(BANN)
    else if command == "KICK" then Some(KICK)
    else if command == "MSSG" then Some(MSSG)
    else if command == "REDY" then Some(REDY)
    else if command == "LEVE" then Some(LEVE)
    else if command == "VRSN" then Some(VRSN)
    else None
  }

  /** The token of a marshalled command. */
  function VerbOf(c: Command): (v: Verb)
    ensures VerbToken(v) == CommandToken(c)
  {
    match c
    case Nwua(_, _) => NWUA
    case Auth(_, _) => AUTH
    case Redy => REDY
    case List(_) => LIST
    case Chat(_, _) => CHAT
    case Join(_, _) => JOIN
    case Leve(_) => LEVE
    case Kick(_, _, _) => KICK
    case Bann(_, _, _) => BANN
    case Mssg(_) => MSSG
    case Vrsn => VRSN
  }

  /** Every token is recognised as itself, so None means the command is
      none of the eleven. */
  lemma ParseVerbToken(v: Verb)
    ensures ParseVerb(VerbToken(v)) == Some(v)
  {
  }

  function Require(ps: Params, key: string): (r: Result<string>)
    ensures r.Success? <==> Get(ps, key).Some?
    ensures r.Success? ==> r.value == Get(ps, key).value
    ensures r.Failure? ==> r.fault == MissingKey(key)
  {
    match Get(ps, key)
    case Some(v) => Success(v)
    case None => Failure(MissingKey(key))
  }

  /** The "obj" processRequest builds for an already recognised command:
      the parameters that command's handler reads, in processRequest's
      order. */
  function MarshalVerb(v: Verb, u: string, ps: Params, payload: Payload): (r: Result<Command>)
    ensures r.Success? ==> VerbOf(r.value) == v
    ensures r.Failure? ==> r.fault.MissingKey?
  {
    match v
    case AUTH => (match Require(ps, "password") case Failure(f) => Failure(f) case Success(p) => Success(Auth(u, p)))
    case NWUA => (match Require(ps, "password") case Failure(f) => Failure(f) case Success(p) => Success(Nwua(u, p)))
    case LIST => Success(List(u))
    case CHAT => (match Require(ps, "chat_name") case Failure(f) => Failure(f) case Success(c) => Success(Chat(u, c)))
    case JOIN => (match Require(ps, "chat_name") case Failure(f) => Failure(f) case Success(c) => Success(Join(u, c)))
    case BANN =>
      (match Require(ps, "chat_name")
       case Failure(f) => Failure(f)
       case Success(c) =>
         match Require(ps, "banned_user") case Failure(f) => Failure(f) case Success(t) => Success(Bann(u, c, t)))
    case KICK =>
      (match Require(ps, "chat_name")
       case Failure(f) => Failure(f)
       case Success(c) =>
         match Require(ps, "kicked_user") case Failure(f) => Failure(f) case Success(t) => Success(Kick(u, c, t)))
    case MSSG => Success(Mssg(payload))
    case REDY => Success(Redy)
    case LEVE => Success(Leve(u))
    case VRSN => Success(Vrsn)
  }

  /** processRequest: the "obj" handed to RequestHandler, read from the
      request's parameters. Every command needs "username"; an absent key
      raises KeyError, and a command run_command does not know makes it
      return None, which the caller then fails to parse. */
  function Marshal(req: Request): (r: Result<Command>)
    ensures r.Success? ==> ParseVerb(req.command) == Some(VerbOf(r.value)) && CommandToken(r.value) == req.command
    ensures Get(req.parameters, "username").None? ==> r == Failure(MissingKey("username"))
    ensures r == Failure(UnknownCommand(req.command)) <==>
      Get(req.parameters, "username").Some? && ParseVerb(req.command).None?
  {
    match Require(req.parameters, "username")
    case Failure(f) => Failure(f)
    case Success(u) =>
      match ParseVerb(req.command)
      case None => Failure(UnknownCommand(req.command))
      case Some(v) => MarshalVerb(v, u, req.parameters, req.payload)
  }

  /** The parameters a request for `c` carries: its arguments under the
      keys processRequest reads, with `user` as the username of the
      commands whose handler does not use it. */
  function CommandParams(c: Command, user: string): (ps: Params)
    ensures |ps| > 0 && ps[0].0 == "username"
  {
    match c
    case Nwua(u, p) => [("username", u), ("password", p)]
    case Auth(u, p) => [("username", u), ("password", p)]
    case List(u) => [("username", u)]
    case Chat(u, room) => [("username", u), ("chat_name", room)]
    case Join(u, room) => [("username", u), ("chat_name", room)]
    case Kick(u, room, k) => [("username", u), ("chat_name", room), ("kicked_user", k)]
    case Bann(u, room, b) => [("username", u), ("chat_name", room), ("banned_user", b)]
    case Leve(u) => [("username", u)]
    case Redy => [("username", user)]
    case Mssg(_) => [("username", user)]
    case Vrsn => [("username", user)]
  }

  /** The Get lookups the kick and ban requests need, one key at a time. */
  lemma TargetedRecovers(c: Command, user: string, payload: Payload)
    requires c.Kick? || c.Bann?
    ensures var ps := CommandParams(c, user);
      MarshalVerb(VerbOf(c), ps[0].1, ps, payload) == Success(c)
  {
    var ps := CommandParams(c, user);
    var key := if c.Kick? then "kicked_user" else "banned_user";
    var target := if c.Kick? then c.kickedUser else c.bannedUser;
    assert ps == [("username", ps[0].1), ("chat_name", c.chatName), (key, target)];
    assert Get(ps[1..], "chat_name") == Some(c.chatName);
    assert Get(ps[2..], key) == Some(target);
    assert Get(ps[1..], key) == Some(target);
  }

  lemma MarshalVerbRecovers(c: Command, user: string, payload: Payload)
    requires c.Mssg? ==> payload == c.payload
    ensures var ps := CommandParams(c, user);
      MarshalVerb(VerbOf(c), ps[0].1, ps, payload) == Success(c)
  {
    var ps := CommandParams(c, user);
    match c
    case Nwua(u, p) =>
      assert Get(ps[1..], "password") == Some(p);
    case Auth(u, p) =>
      assert Get(ps[1..], "password") == Some(p);
    case Redy =>
    case List(_) =>
    case Chat(u, room) =>
      assert Get(ps[1..], "chat_name") == Some(room);
    case Join(u, room) =>
      assert Get(ps[1..], "chat_name") == Some(room);
    case Leve(_) =>
    case Kick(_, _, _) =>
      TargetedRecovers(c, user, payload);
    case Bann(_, _, _) =>
      TargetedRecovers(c, user, payload);
    case Mssg(_) =>
    case Vrsn =>
  }

  /** Marshalling recovers every command from a request that carries it. */
  lemma MarshalRecovers(c: Command, user: string, version: string, channel: string, other: Payload)
    ensures var payload := if c.Mssg? then c.payload else other;
      Marshal(Request(version, CommandToken(c), CommandParams(c, user), channel, payload)) == Success(c)
  {
    var payload := if c.Mssg? then c.payload else other;
    var ps := CommandParams(c, user);
    ParseVerbToken(VerbOf(c));
    assert Get(ps, "username") == Some(ps[0].1);
    MarshalVerbRecovers(c, user, payload);
  }

  /** What answering one frame did: the new server state, the handlers the
      response was pushed to, the response frame, and the exception that
      ended the handling, if one did. */
  datatype FrameResult = FrameResult(world: World, pushed: seq<HandlerId>, frame: string, fault: Option<Fault>)

  function RouteFrame(w: World, req: Request, frame: string, code: Option<string>): FrameResult
  {
    var r := Route(w.clients, req.command, Get(req.parameters, "chat_name"), code);
    FrameResult(w.(clients := r.clients), r.pushed, frame, r.fault)
  }

  /** The response to a decoded request, before routing: the state after
      the handler ran, the response frame and the response code read back
      from it; or the exception that ended the handling. */
  datatype Answer =
    | Answered(world: World, frame: string, code: Option<string>)
    | Failed(world: World, fault: Fault)

  /** A dispatcher result as found_terminator sees it: the response is
      serialised and parsed again to read its code. */
  function AnswerStep(s: StepResult): Answer
  {
    match s.outcome
    case Raised(f) => Failed(s.world, f)
    case Reply(resp) =>
      var frame := CreateResponseStr(resp);
      var code := match ParseResponseStr(frame) case Some(o) => Some(o.responseCode) case None => None;
      Answered(s.world, frame, code)
  }

  /** The version test of found_terminator: a request on the server's
      version is marshalled and run; any other gets the 330 response and no
      response code. */
  function AnswerRequest(w: World, req: Request, self: HandlerId): Answer
  {
    if req.version == ServerVersion then
      match Marshal(req)
      case Failure(f) => Failed(w, f)
      case Success(cmd) => AnswerStep(Step(w, cmd, self))
    else Answered(w, CreateResponseStr(VersionReply()), None)
  }

  /** found_terminator on one complete frame `msg` from handler `self`. */
  function HandleFrame(w: World, msg: string, self: HandlerId): FrameResult
  {
    match DecodeRequest(msg)
    case None => FrameResult(w, [], [], Some(MalformedFrame))
    case Some(req) =>
      match AnswerRequest(w, req, self)
      case Failed(w', f) => FrameResult(w', [], [], Some(f))
      case Answered(w', frame, code) => RouteFrame(w', req, frame, code)
  }

  /** With matching versions, the response is computed by the dispatcher
      and routed with its own response code. */
  lemma DispatchedFrame(w: World, req: Request, rest: string, self: HandlerId)
    requires req.version == ServerVersion
    requires Marshal(req).Success?
    requires Step(w, Marshal(req).value, self).outcome.Reply?
    ensures var s := Step(w, Marshal(req).value, self);
      var resp := s.outcome.response;
      HandleFrame(w, RequestBody(req), self) ==
        RouteFrame(s.world, req, CreateResponseStr(resp), Some(resp.responseCode))
  {
    RequestRoundTrip(req);
    ParseResponseStrRoundTrip(Step(w, Marshal(req).value, self).outcome.response);
  }

  /** A request on another protocol version changes no account, no room and
      no registry field except prevChat, and what is pushed is the 330
      response. */
  lemma VersionGate(w: World, req: Request, self: HandlerId)
    requires req.version != ServerVersion
    ensures var r := HandleFrame(w, RequestBody(req), self);
      r.world.accounts == w.accounts && r.world.rooms == w.rooms &&
      r.frame == CreateResponseStr(VersionReply()) &&
      ParseResponseStr(r.frame) == Some(VersionReply()) &&
      |r.world.clients| == |w.clients| &&
      forall i :: 0 <= i < |w.clients| ==> r.world.clients[i].(prevChat := w.clients[i].prevChat) == w.clients[i]
  {
    RequestRoundTrip(req);
    ParseResponseStrRoundTrip(VersionReply());
    RouteKeepsFields(w.clients, req.command, Get(req.parameters, "chat_name"), None);
  }

  /** One handler.push(response). */
  datatype Delivery = Delivery(to: HandlerId, frame: string)

  function DeliveriesTo(hs: seq<HandlerId>, frame: string): seq<Delivery>
  {
    if hs == [] then [] else DeliveriesTo(hs[..|hs| - 1], frame) + [Delivery(hs[|hs| - 1], frame)]
  }

  class ChatServer {
    /** The state behind the RequestHandler calls: the two store files and
        client_map["clients"]. */
    const state: ServerState
    /** Every push so far, in order. */
    var deliveries: seq<Delivery>

    constructor ()
      ensures fresh(state) && state.Model() == InitialWorld() && deliveries == []
    {
      state := new ServerState();
      deliveries := [];
    }

    function GetVersion(): (v: string)
      ensures v == ServerVersion
    {
      ServerVersion
    }

    /** handle_accept: a new connection gets a handler and an anonymous
        registry entry whose prev_chat is "". */
    method HandleAccept(id: HandlerId) returns (h: ChatHandler)
      modifies state
      ensures fresh(h) && h.id == id && h.server == this && h.buffer == []
      ensures state.clients == old(state.clients) + [ClientEntry("", "", Some(""), id)]
      ensures state.accounts == old(state.accounts) && state.rooms == old(state.rooms)
    {
      h := new ChatHandler(id, this);
      state.clients := state.clients + [ClientEntry("", "", Some(""), id)];
    }

    /** processRequest: marshal the request, then run the command. */
    method ProcessRequest(req: Request, handler: HandlerId) returns (out: Outcome)
      modifies state
      ensures match Marshal(req)
        case Failure(f) => out == Raised(f) && state.Model() == old(state.Model())
        case Success(cmd) => StepResult(state.Model(), out) == Step(old(state.Model()), cmd, handler)
    {
      var obj := Marshal(req);
      if obj.Failure? {
        return Raised(obj.fault);
      }
      out := state.RunCommand(obj.value, handler);
    }

    /** incompatibleVersion. */
    method IncompatibleVersion() returns (out: Outcome)
      ensures out == Reply(VersionReply())
    {
      out := state.IncompatibleVersion();
    }

    /** The routing loop of found_terminator over client_map["clients"],
        with its pushes appended to the delivery log. */
    method RouteResponse(command: string, room: Option<string>, code: Option<string>, response: string)
      returns (fault: Option<Fault>)
      modifies this, state
      ensures var r := Route(old(state.clients), command, room, code);
        state.clients == r.clients && fault == r.fault &&
        deliveries == old(deliveries) + DeliveriesTo(r.pushed, response)
      ensures state.accounts == old(state.accounts) && state.rooms == old(state.rooms)
    {
      var clients, pushed;
      clients, pushed, fault := RouteLoop(state.clients, command, room, code);
      state.clients := clients;
      deliveries := deliveries + DeliveriesTo(pushed, response);
    }
  }

  class ChatHandler {
    const id: HandlerId
    const server: ChatServer
    /** The chunks received since the last complete frame. */
    var buffer: seq<string>

    constructor (id: HandlerId, server: ChatServer)
      ensures this.id == id && this.server == server && buffer == []
    {
      this.id := id;
      this.server := server;
      buffer := [];
    }

    /** collect_incoming_data. */
    method CollectIncomingData(data: string)
      modifies this
      ensures buffer == old(buffer) + [data]
      ensures Concat(buffer) == Concat(old(buffer)) + data
    {
      ConcatAppend(buffer, data);
      buffer := buffer + [data];
    }

    /** The part of found_terminator before the routing loop. */
    method Answer(req: Request) returns (a: Answer)
      modifies server.state
      ensures a == AnswerRequest(old(server.state.Model()), req, id)
      ensures server.state.Model() == a.world
    {
      var version := server.GetVersion();
      if req.version == version {
        var out := server.ProcessRequest(req, id);
        if out.Raised? {
          return Failed(server.state.Model(), out.fault);
        }
        var response := CreateResponseStr(out.response);
        var responseObj := ParseResponseStr(response);
        var code := if responseObj.Some? then Some(responseObj.value.responseCode) else None;
        a := Answered(server.state.Model(), response, code);
      } else {
        var out := server.IncompatibleVersion();
        a := Answered(server.state.Model(), CreateResponseStr(out.response), None);
      }
    }

    /** found_terminator: answer the frame held in the buffer, push the
        answer as the routing rule says, and empty the buffer. An exception
        leaves the buffer as it was. */
    method FoundTerminator() returns (fault: Option<Fault>)
      modifies this, server, server.state
      ensures var r := HandleFrame(old(server.state.Model()), Concat(old(buffer)), id);
        server.state.Model() == r.world && fault == r.fault &&
        server.deliveries == old(server.deliveries) + DeliveriesTo(r.pushed, r.frame)
      ensures buffer == if fault.None? then [] else old(buffer)
    {
      var msg := Concat(buffer);
      var decoded := DecodeRequest(msg);
      if decoded.None? {
        return Some(MalformedFrame);
      }
      var req := decoded.value;
      var a := Answer(req);
      if a.Failed? {
        return Some(a.fault);
      }
      fault := server.RouteResponse(req.command, Get(req.parameters, "chat_name"), a.code, a.frame);
      if fault.Some? {
        return;
      }
      buffer := [];
    }
  }
}
