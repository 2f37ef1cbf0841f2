/** The delivery rule of ChatHandler.found_terminator (server.py): for every
    registry entry, in registry order, whether the response is pushed to
    that entry's handler, and the one field the rule may change. */
module Routing {
  import opened Common
  import opened Dispatch

  /** What the rule does with one entry. */
  datatype Decision =
    | Deliver(updated: ClientEntry)  // push the response; the entry as it is afterwards
    | Skip
    | Crash(fault: Fault)            // the entry's test raises

  /** The four-branch rule for one entry. `room` is the request's
      parameters["chat_name"] (None when absent) and `code` the response code
      read back from the response (None on the version-mismatch path, where
      response_obj is never assigned). */
  function Decide(e: ClientEntry, command: string, room: Option<string>, code: Option<string>): Decision
  {
    if e.username == "" then
      if command in ["NWUA", "AUTH"] then Deliver(e) else Skip
    else match room
      case None => Crash(MissingKey("chat_name"))
      case Some(r) =>
        if e.chatName == "" && e.prevChat != Some(r) then
          if command in ["AUTH", "LIST", "CHAT", "REDY"] then Deliver(e)
          else match code
            case None => Crash(UndefinedResponse)
            case Some(c) => if c == "240" then Deliver(e) else Skip
        else if e.chatName == "" && e.prevChat == Some(r) then
          if command in ["JOIN", "KICK", "BANN", "LEVE"] then Deliver(e.(prevChat := None)) else Skip
        else if e.chatName == r then Deliver(e)
        else Skip
  }

  predicate Delivers(e: ClientEntry, command: string, room: Option<string>, code: Option<string>)
  {
    Decide(e, command, room, code).Deliver?
  }

  /** The entry after the rule has looked at it. */
  function After(e: ClientEntry, command: string, room: Option<string>, code: Option<string>): ClientEntry
  {
    match Decide(e, command, room, code)
    case Deliver(e') => e'
    case _ => e
  }

  datatype RouteResult = RouteResult(
    pushed: seq<HandlerId>,     // the handlers pushed to, in order
    clients: seq<ClientEntry>,  // the registry afterwards
    fault: Option<Fault>)       // the exception that stopped the loop, if any

  /** The loop over client_map["clients"]. It is defined on a prefix of the
      registry so that it reads like the loop; an exception stops it and
      leaves the remaining entries untouched. */
  function Route(cs: seq<ClientEntry>, command: string, room: Option<string>, code: Option<string>): RouteResult
    decreases |cs|
  {
    if cs == [] then RouteResult([], [], None)
    else
      var r := Route(cs[..|cs| - 1], command, room, code);
      var e := cs[|cs| - 1];
      if r.fault.Some? then RouteResult(r.pushed, r.clients + [e], r.fault)
      else match Decide(e, command, room, code)
        case Deliver(e') => RouteResult(r.pushed + [e.handler], r.clients + [e'], None)
        case Skip => RouteResult(r.pushed, r.clients + [e], None)
        case Crash(f) => RouteResult(r.pushed, r.clients + [e], Some(f))
  }

  /** The reference definition of who is pushed to: the handlers of the
      entries the rule selects, in registry order. */
  function Selected(cs: seq<ClientEntry>, command: string, room: Option<string>, code: Option<string>): seq<HandlerId>
  {
    if cs == [] then []
    else (if Delivers(cs[0], command, room, code) then [cs[0].handler] else []) + Selected(cs[1..], command, room, code)
  }

  predicate NoCrash(cs: seq<ClientEntry>, command: string, room: Option<string>, code: Option<string>)
  {
    forall i :: 0 <= i < |cs| ==> !Decide(cs[i], command, room, code).Crash?
  }

  lemma {:induction false} SelectedSnoc(cs: seq<ClientEntry>, e: ClientEntry, command: string, room: Option<string>, code: Option<string>)
    ensures Selected(cs + [e], command, room, code)
         == Selected(cs, command, room, code) + (if Delivers(e, command, room, code) then [e.handler] else [])
  {
    if cs != [] {
      assert (cs + [e])[1..] == cs[1..] + [e];
      SelectedSnoc(cs[1..], e, command, room, code);
    }
  }

  /** When no entry's test raises, the loop pushes to exactly the selected
      handlers, in registry order, and each entry ends as the rule says. */
  lemma {:induction false} RouteDelivers(cs: seq<ClientEntry>, command: string, room: Option<string>, code: Option<string>)
    requires NoCrash(cs, command, room, code)
    ensures var r := Route(cs, command, room, code);
      r.fault == None && r.pushed == Selected(cs, command, room, code) &&
      |r.clients| == |cs| && forall i :: 0 <= i < |cs| ==> r.clients[i] == After(cs[i], command, room, code)
  {
    if cs != [] {
      var init, e := cs[..|cs| - 1], cs[|cs| - 1];
      RouteDelivers(init, command, room, code);
      SelectedSnoc(init, e, command, room, code);
      assert init + [e] == cs;
      var p, r := Route(init, command, room, code), Route(cs, command, room, code);
      assert r.clients == p.clients + [After(e, command, room, code)];
      assert r.pushed == p.pushed + (if Delivers(e, command, room, code) then [e.handler] else []);
    }
  }

  /** One more turn of the loop, on entry i. */
  lemma RouteStep(cs: seq<ClientEntry>, i: nat, command: string, room: Option<string>, code: Option<string>)
    requires i < |cs| && Route(cs[..i], command, room, code).fault == None
    ensures var p := Route(cs[..i], command, room, code);
      Route(cs[..i + 1], command, room, code) ==
        match Decide(cs[i], command, room, code)
        case Deliver(e') => RouteResult(p.pushed + [cs[i].handler], p.clients + [e'], None)
        case Skip => RouteResult(p.pushed, p.clients + [cs[i]], None)
        case Crash(f) => RouteResult(p.pushed, p.clients + [cs[i]], Some(f))
  {
    assert cs[..i + 1][..i] == cs[..i];
  }

  /** Once an entry's test has raised, later entries are neither pushed to
      nor changed. */
  lemma {:induction false} RouteFaultPersists(cs: seq<ClientEntry>, n: nat, command: string, room: Option<string>, code: Option<string>)
    requires n <= |cs|
    requires Route(cs[..n], command, room, code).fault.Some?
    ensures var p := Route(cs[..n], command, room, code);
      Route(cs, command, room, code) == RouteResult(p.pushed, p.clients + cs[n..], p.fault)
  {
    if n == |cs| {
      assert cs[..n] == cs;
      assert cs[n..] == [];
    } else {
      var init := cs[..|cs| - 1];
      assert init[..n] == cs[..n];
      RouteFaultPersists(init, n, command, room, code);
      assert init[n..] + [cs[|cs| - 1]] == cs[n..];
    }
  }

  /** The rule changes no field but prevChat, and sets that only to None. */
  lemma DecideKeepsFields(e: ClientEntry, command: string, room: Option<string>, code: Option<string>)
    ensures var d := Decide(e, command, room, code);
      d.Deliver? ==> d.updated.(prevChat := e.prevChat) == e && (d.updated.prevChat == e.prevChat || d.updated.prevChat == None)
  {
  }

  /** The loop never reorders, adds or removes entries, and changes no
      field except prevChat, which it can only set to None. */
  lemma {:induction false} RouteKeepsFields(cs: seq<ClientEntry>, command: string, room: Option<string>, code: Option<string>)
    ensures var r := Route(cs, command, room, code);
      |r.clients| == |cs| &&
      forall i :: 0 <= i < |cs| ==>
        r.clients[i].(prevChat := cs[i].prevChat) == cs[i] &&
        (r.clients[i].prevChat == cs[i].prevChat || r.clients[i].prevChat == None)
  {
    if cs != [] {
      var init, e := cs[..|cs| - 1], cs[|cs| - 1];
      RouteKeepsFields(init, command, room, code);
      DecideKeepsFields(e, command, room, code);
      var p, r := Route(init, command, room, code), Route(cs, command, room, code);
      assert r.clients == p.clients + [r.clients[|cs| - 1]];
      assert r.clients[|cs| - 1] == e || r.clients[|cs| - 1] == Decide(e, command, room, code).updated;
    }
  }

  /** The four branches, each stated as an if-and-only-if. */
  lemma DecideBranches(e: ClientEntry, command: string, r: string, c: string)
    ensures e.username == "" ==>
      (Delivers(e, command, Some(r), Some(c)) <==> command == "NWUA" || command == "AUTH")
    ensures e.username != "" && e.chatName == "" && e.prevChat != Some(r) ==>
      (Delivers(e, command, Some(r), Some(c)) <==>
        command in ["AUTH", "LIST", "CHAT", "REDY"] || c == "240")
    ensures e.username != "" && e.chatName == "" && e.prevChat == Some(r) ==>
      (Delivers(e, command, Some(r), Some(c)) <==> command in ["JOIN", "KICK", "BANN", "LEVE"]) &&
      (Delivers(e, command, Some(r), Some(c)) ==> After(e, command, Some(r), Some(c)).prevChat == None)
    ensures e.username != "" && e.chatName != "" && e.chatName == r ==>
      Delivers(e, command, Some(r), Some(c))
    ensures e.username != "" && e.chatName != "" && e.chatName != r ==>
      !Delivers(e, command, Some(r), Some(c))
  {
  }

  /** An entry that has just left room r (chat_name "", prev_chat r) gets
      the JOIN, KICK, BANN or LEVE response for r once: after the loop its
      prevChat is None, and the same request routed again (with a code other
      than 240) is not delivered to it. */
  lemma {:induction false} LeaverServedOnce(cs: seq<ClientEntry>, i: nat, command: string, r: string, c: string)
    requires NoCrash(cs, command, Some(r), Some(c))
    requires i < |cs| && cs[i].username != "" && cs[i].chatName == "" && cs[i].prevChat == Some(r)
    requires command in ["JOIN", "KICK", "BANN", "LEVE"] && c != "240"
    ensures Delivers(cs[i], command, Some(r), Some(c))
    ensures var again := Route(cs, command, Some(r), Some(c)).clients;
      i < |again| && again[i].prevChat == None && !Delivers(again[i], command, Some(r), Some(c))
  {
    RouteDelivers(cs, command, Some(r), Some(c));
  }

  /** The loop of found_terminator over client_map["clients"]: each entry
      in turn is tested by the rule, updated and pushed to when selected,
      and the loop stops at the first test that raises. */
  method RouteLoop(cs: seq<ClientEntry>, command: string, room: Option<string>, code: Option<string>)
    returns (clients: seq<ClientEntry>, pushed: seq<HandlerId>, fault: Option<Fault>)
    ensures RouteResult(pushed, clients, fault) == Route(cs, command, room, code)
  {
    clients, pushed := [], [];
    var i := 0;
    while i < |cs|
      invariant 0 <= i <= |cs|
      invariant Route(cs[..i], command, room, code) == RouteResult(pushed, clients, None)
    {
      RouteStep(cs, i, command, room, code);
      var d := Decide(cs[i], command, room, code);
      if d.Crash? {
        RouteFaultPersists(cs, i + 1, command, room, code);
        return clients + [cs[i]] + cs[i + 1..], pushed, Some(d.fault);
      }
      if d.Deliver? {
        clients, pushed := clients + [d.updated], pushed + [cs[i].handler];
      } else {
        clients := clients + [cs[i]];
      }
      i := i + 1;
    }
    assert cs[..i] == cs;
    fault := None;
  }
}
