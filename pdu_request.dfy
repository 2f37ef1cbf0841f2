/** The request PDU a client sends: five fields, serialised to one body
    followed by a single '\n' terminator. */
module PduRequest {
  import opened Common
  import opened Wire

  /** PDURequest(version, command, parameters, channel, payload). */
  datatype Request = Request(
    version: string,     // the client's protocol version token
    command: string,     // four-character command, such as "JOIN"
    parameters: Params,  // command-specific parameters
    channel: string,     // "AC", "CC" or "DC"
    payload: Payload)    // chat text or data

  /** The serialised object, without its terminator. */
  function RequestBody(r: Request): (body: string)
    ensures Terminator !in body
  {
    Pack([r.version, r.command, EncodeParams(r.parameters), r.channel, EncodePayload(r.payload)])
  }

  /** createRequestStr: the body with the terminator appended. */
  function CreateRequestStr(r: Request): (s: string)
    ensures |s| > 0 && s[|s| - 1] == Terminator
    ensures Terminator !in s[..|s| - 1]
  {
    RequestBody(r) + [Terminator]
  }

  /** The receiving side's json.loads of a body; None when it is malformed. */
  function DecodeRequest(body: string): Option<Request>
  {
    match Unpack(body)
    case None => None
    case Some(fs) =>
      if |fs| != 5 then None
      else match (DecodeParams(fs[2]), DecodePayload(fs[4]))
        case (Some(ps), Some(p)) => Some(Request(fs[0], fs[1], ps, fs[3], p))
        case _ => None
  }

  lemma RequestRoundTrip(r: Request)
    ensures DecodeRequest(RequestBody(r)) == Some(r)
  {
    UnpackPack([r.version, r.command, EncodeParams(r.parameters), r.channel, EncodePayload(r.payload)]);
    ParamsRoundTrip(r.parameters);
    PayloadRoundTrip(r.payload);
  }

  /** On a stream, a serialised request is cut off exactly at its own
      terminator, and the frame decodes to the request's five fields. */
  lemma RequestFrameRoundTrip(r: Request, rest: string)
    ensures NextFrame(CreateRequestStr(r) + rest) == Some((RequestBody(r), rest))
    ensures DecodeRequest(RequestBody(r)) == Some(r)
  {
    assert CreateRequestStr(r) + rest == RequestBody(r) + [Terminator] + rest;
    FrameIsolated(RequestBody(r), rest);
    RequestRoundTrip(r);
  }
}
