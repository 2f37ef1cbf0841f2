/** The text encoding of a PDU, in place of the JSON text the programs
    exchange. Only two things about that encoding matter to the protocol:
    an encoded body never contains the frame terminator '\n', and decoding
    a body gives back exactly the fields that were encoded. This module
    provides an escaping serialiser with both properties proved:
    - inside an encoded field, '\n', ';' and '\\' are written as the
      two-character escapes "\\n", "\\s" and "\\\\";
    - a packed list of fields is the concatenation of the escaped fields,
      each followed by ';';
    - nested structure (a parameter list, a list payload) is packed first
      and then escaped again as one field of the outer list. */
module Wire {
  import opened Common

  /** The frame terminator set by set_terminator('\n') on both ends. */
  const Terminator: char := '\n'
  /** Ends every field of a packed list. */
  const FieldEnd: char := ';'
  /** Starts a two-character escape inside a field. */
  const EscapeMark: char := '\\'

  function EscapeChar(c: char): (r: string)
    ensures |r| > 0 && Terminator !in r && FieldEnd !in r
  {
    if c == '\n' then "\\n"
    else if c == ';' then "\\s"
    else if c == '\\' then "\\\\"
    else [c]
  }

  function Escape(s: string): (r: string)
    ensures Terminator !in r && FieldEnd !in r
  {
    if s == [] then [] else EscapeChar(s[0]) + Escape(s[1..])
  }

  function UnescapeCode(d: char): Option<char>
  {
    if d == 'n' then Some('\n')
    else if d == 's' then Some(';')
    else if d == '\\' then Some('\\')
    else None
  }

  /** Inverse of Escape; None for text Escape never produces. */
  function Unescape(s: string): Option<string>
  {
    if s == [] then Some([])
    else if s[0] == EscapeMark then
      if |s| < 2 then None
      else match (UnescapeCode(s[1]), Unescape(s[2..]))
        case (Some(c), Some(t)) => Some([c] + t)
        case _ => None
    else if s[0] == Terminator || s[0] == FieldEnd then None
    else match Unescape(s[1..])
      case Some(t) => Some([s[0]] + t)
      case None => None
  }

  lemma {:induction false} UnescapeEscape(s: string)
    ensures Unescape(Escape(s)) == Some(s)
  {
    if s != [] {
      var e, rest := EscapeChar(s[0]), Escape(s[1..]);
      UnescapeEscape(s[1..]);
      assert Escape(s) == e + rest;
      if |e| == 1 {
        assert (e + rest)[1..] == rest;
      } else {
        assert (e + rest)[2..] == rest;
      }
      assert [s[0]] + s[1..] == s;
    }
  }

  /** The text before the first `d` and the text after it. */
  function SplitAt(s: string, d: char): (r: Option<(string, string)>)
    ensures r.None? <==> d !in s
    ensures r.Some? ==> s == r.value.0 + [d] + r.value.1 && d !in r.value.0
  {
    if s == [] then None
    else if s[0] == d then Some(([], s[1..]))
    else match SplitAt(s[1..], d)
      case None => None
      case Some(p) => Some(([s[0]] + p.0, p.1))
  }

  /** A delimiter that does not occur in `a` ends `a` exactly. */
  lemma {:induction false} SplitAtFirst(a: string, d: char, b: string)
    requires d !in a
    ensures SplitAt(a + [d] + b, d) == Some((a, b))
  {
    if a != [] {
      SplitAtFirst(a[1..], d, b);
      assert (a + [d] + b)[1..] == a[1..] + [d] + b;
      assert [a[0]] + a[1..] == a;
    }
  }

  function Pack(fields: seq<string>): (r: string)
    ensures Terminator !in r
  {
    if fields == [] then [] else Escape(fields[0]) + [FieldEnd] + Pack(fields[1..])
  }

  function Unpack(s: string): Option<seq<string>>
    decreases |s|
  {
    if s == [] then Some([])
    else match SplitAt(s, FieldEnd)
      case None => None
      case Some(p) =>
        match (Unescape(p.0), Unpack(p.1))
        case (Some(f), Some(fs)) => Some([f] + fs)
        case _ => None
  }

  lemma {:induction false} UnpackPack(fields: seq<string>)
    ensures Unpack(Pack(fields)) == Some(fields)
  {
    if fields != [] {
      var e, rest := Escape(fields[0]), Pack(fields[1..]);
      assert Pack(fields) == e + [FieldEnd] + rest;
      SplitAtFirst(e, FieldEnd, rest);
      UnescapeEscape(fields[0]);
      UnpackPack(fields[1..]);
      assert [fields[0]] + fields[1..] == fields;
    }
  }

  /** A parameters object: key/value pairs in the order they were built.
      Every PDU the programs build has distinct keys. */
  type Params = seq<(string, string)>

  /** parameters[key]: the value of the first pair with that key. */
  function Get(ps: Params, key: string): (r: Option<string>)
    ensures r.Some? ==> (key, r.value) in ps
    ensures r.None? ==> forall i :: 0 <= i < |ps| ==> ps[i].0 != key
  {
    if ps == [] then None
    else if ps[0].0 == key then Some(ps[0].1)
    else Get(ps[1..], key)
  }

  function FlattenParams(ps: Params): (r: seq<string>)
    ensures |r| == 2 * |ps|
  {
    if ps == [] then [] else [ps[0].0, ps[0].1] + FlattenParams(ps[1..])
  }

  function PairUp(ts: seq<string>): Option<Params>
  {
    if ts == [] then Some([])
    else if |ts| == 1 then None
    else match PairUp(ts[2..])
      case None => None
      case Some(ps) => Some([(ts[0], ts[1])] + ps)
  }

  lemma {:induction false} PairUpFlatten(ps: Params)
    ensures PairUp(FlattenParams(ps)) == Some(ps)
  {
    if ps != [] {
      PairUpFlatten(ps[1..]);
      assert FlattenParams(ps)[2..] == FlattenParams(ps[1..]);
      assert [ps[0]] + ps[1..] == ps;
    }
  }

  function EncodeParams(ps: Params): string
  {
    Pack(FlattenParams(ps))
  }

  function DecodeParams(s: string): Option<Params>
  {
    match Unpack(s)
    case None => None
    case Some(ts) => PairUp(ts)
  }

  lemma ParamsRoundTrip(ps: Params)
    ensures DecodeParams(EncodeParams(ps)) == Some(ps)
  {
    UnpackPack(FlattenParams(ps));
    PairUpFlatten(ps);
  }

  /** A payload: chat text, or the list of room names that LIST returns. */
  datatype Payload = Text(text: string) | Names(names: seq<string>)

  function EncodePayload(p: Payload): string
  {
    match p
    case Text(t) => ['T'] + t
    case Names(ns) => ['L'] + Pack(ns)
  }

  function DecodePayload(s: string): Option<Payload>
  {
    if s == [] then None
    else if s[0] == 'T' then Some(Text(s[1..]))
    else if s[0] == 'L' then
      match Unpack(s[1..])
      case Some(ns) => Some(Names(ns))
      case None => None
    else None
  }

  lemma PayloadRoundTrip(p: Payload)
    ensures DecodePayload(EncodePayload(p)) == Some(p)
  {
    match p
    case Text(t) =>
      assert (['T'] + t)[1..] == t;
    case Names(ns) =>
      assert (['L'] + Pack(ns))[1..] == Pack(ns);
      UnpackPack(ns);
  }

  /** ''.join(buffer): the chunks async_chat collected, in arrival order. */
  function Concat(chunks: seq<string>): string
  {
    if chunks == [] then [] else Concat(chunks[..|chunks| - 1]) + chunks[|chunks| - 1]
  }

  lemma ConcatAppend(chunks: seq<string>, data: string)
    ensures Concat(chunks + [data]) == Concat(chunks) + data
  {
    assert (chunks + [data])[..|chunks|] == chunks;
  }

  /** How async_chat cuts a stream: the text before the first terminator
      (handed to found_terminator) and what follows it. */
  function NextFrame(stream: string): Option<(string, string)>
  {
    SplitAt(stream, Terminator)
  }

  /** A body without terminators followed by one terminator is cut off
      exactly there, whatever follows on the stream. */
  lemma FrameIsolated(body: string, rest: string)
    requires Terminator !in body
    ensures NextFrame(body + [Terminator] + rest) == Some((body, rest))
  {
    SplitAtFirst(body, Terminator, rest);
  }
}
