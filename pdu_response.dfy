/** The response PDU the server sends: the server's fixed version and four
    fields from the caller, serialised to one body and a '\n' terminator. */
module PduResponse {
  import opened Common
  import opened Wire

  /** The class constant PDUResponse.__version. */
  const ResponseVersion: string := "1.0"

  datatype Response = Response(
    version: string,
    responseCode: string,  // three-digit response code
    parameters: Params,
    channel: string,
    payload: Payload)

  /** PDUResponse(code, parameters, channel, payload): the caller cannot
      choose the version. */
  function NewResponse(code: string, parameters: Params, channel: string, payload: Payload): (r: Response)
    ensures r.version == ResponseVersion
    ensures r.responseCode == code && r.parameters == parameters
    ensures r.channel == channel && r.payload == payload
  {
    Response(ResponseVersion, code, parameters, channel, payload)
  }

  function ResponseBody(r: Response): (body: string)
    ensures Terminator !in body
  {
    Pack([r.version, r.responseCode, EncodeParams(r.parameters), r.channel, EncodePayload(r.payload)])
  }

  /** createResponseStr: the body with the terminator appended. */
  function CreateResponseStr(r: Response): (s: string)
    ensures |s| > 0 && s[|s| - 1] == Terminator
    ensures Terminator !in s[..|s| - 1]
  {
    ResponseBody(r) + [Terminator]
  }

  function DecodeResponse(body: string): Option<Response>
  {
    match Unpack(body)
    case None => None
    case Some(fs) =>
      if |fs| != 5 then None
      else match (DecodeParams(fs[2]), DecodePayload(fs[4]))
        case (Some(ps), Some(p)) => Some(Response(fs[0], fs[1], ps, fs[3], p))
        case _ => None
  }

  /** json.loads of a whole response string as the server re-reads it:
      the text up to the terminator must decode. */
  function ParseResponseStr(s: string): Option<Response>
  {
    match NextFrame(s)
    case None => None
    case Some(p) => DecodeResponse(p.0)
  }

  lemma ResponseRoundTrip(r: Response)
    ensures DecodeResponse(ResponseBody(r)) == Some(r)
  {
    UnpackPack([r.version, r.responseCode, EncodeParams(r.parameters), r.channel, EncodePayload(r.payload)]);
    ParamsRoundTrip(r.parameters);
    PayloadRoundTrip(r.payload);
  }

  /** A constructed response, serialised and cut off a stream at its own
      terminator, decodes to the server version and the caller's four
      fields. */
  lemma ResponseFrameRoundTrip(code: string, parameters: Params, channel: string, payload: Payload, rest: string)
    ensures var r := NewResponse(code, parameters, channel, payload);
      NextFrame(CreateResponseStr(r) + rest) == Some((ResponseBody(r), rest)) &&
      DecodeResponse(ResponseBody(r)) == Some(Response(ResponseVersion, code, parameters, channel, payload))
  {
    var r := NewResponse(code, parameters, channel, payload);
    assert CreateResponseStr(r) + rest == ResponseBody(r) + [Terminator] + rest;
    FrameIsolated(ResponseBody(r), rest);
    ResponseRoundTrip(r);
  }

  lemma ParseResponseStrRoundTrip(r: Response)
    ensures ParseResponseStr(CreateResponseStr(r)) == Some(r)
  {
    assert CreateResponseStr(r) == ResponseBody(r) + [Terminator] + [];
    FrameIsolated(ResponseBody(r), []);
    ResponseRoundTrip(r);
  }
}
