/** Reading frames off a byte stream that arrives in arbitrary pieces. */
module FrameReader {
  import opened Common
  import opened Framing
  import opened FrameParser
  import opened Codec
  import Routes

  datatype ReadError =
    | OrderlyClose                  // end of stream between frames
    | ClosedInPrefix
    | ClosedInBody
    | BadFrame(error: FrameError)

  datatype Read<R> = Got(result: ReadResult<R>, rest: Bytes) | Failed(error: ReadError)

  /** One frame off the front of a stream; depends on the bytes alone, not on how they arrive. */
  function ReadOne<R>(stream: Bytes, max: nat, decode: Bytes -> Option<R>): Read<R> {
    if stream == [] then Failed(OrderlyClose)
    else if |stream| < LENGTH_PREFIX_LEN then Failed(ClosedInPrefix)
    else
      match DecodeControl(stream[..LENGTH_PREFIX_LEN])
      case None => Failed(BadFrame(InvalidFrame("unknown wire kind")))
      case Some(control) =>
        if control.bodyLen == 0 || max < control.bodyLen
        then Failed(BadFrame(MessageTooLarge(control.bodyLen, max)))
        else if |stream| < LENGTH_PREFIX_LEN + control.bodyLen then Failed(ClosedInBody)
        else
          match Parse(stream[..LENGTH_PREFIX_LEN + control.bodyLen], control.bodyLen, None, decode)
          case Err(e) => Failed(BadFrame(e))
          case Ok(result) => Got(result, stream[LENGTH_PREFIX_LEN + control.bodyLen..])
  }

  /**
   A read consumes one frame exactly: it returns a result and leaves `rest` if and only if
   what comes before `rest` is one control word and a body of 1 to `max` bytes that parses.
   */
  lemma ReadOneIff<R>(frame: Bytes, rest: Bytes, max: nat, decode: Bytes -> Option<R>, result: ReadResult<R>)
    requires LENGTH_PREFIX_LEN <= |frame|
    ensures ReadOne(frame + rest, max, decode) == Got(result, rest) <==>
      1 <= |frame| - LENGTH_PREFIX_LEN <= max &&
      Parse(frame, |frame| - LENGTH_PREFIX_LEN, None, decode) == Ok(result)
  {
    var stream := frame + rest;
    assert stream[..4] == frame[..4] && stream[..|frame|] == frame && stream[|frame|..] == rest;
    if ReadOne(stream, max, decode) == Got(result, rest) {
      var n := DecodeControl(stream[..4]).value.bodyLen;
      assert |stream[4 + n..]| == |stream| - 4 - n;
      assert |frame| == 4 + n;
    }
  }

  /** A length outside 1 to `max` is refused before any of the body is looked at. */
  lemma LengthRefused<R>(word: Bytes, rest: Bytes, kind: WireKind, bodyLen: nat, max: nat, decode: Bytes -> Option<R>)
    requires bodyLen <= CONTROL_BODY_LEN_MASK && word == ControlWord(kind, bodyLen) && (bodyLen == 0 || max < bodyLen)
    ensures ReadOne(word + rest, max, decode) == Failed(BadFrame(MessageTooLarge(bodyLen, max)))
  {
    ControlRoundTrip(word, kind, bodyLen);
    assert (word + rest)[..4] == word;
  }

  // ---------------------------------------------------------------- the reader

  /** A stream that hands out any nonempty piece of what is left, and nothing only at its end. */
  class ByteSource {
    var data: Bytes

    constructor (data: Bytes)
      ensures this.data == data
    {
      this.data := data;
    }

    method Read(want: nat) returns (piece: Bytes)
      requires 0 < want
      modifies this
      ensures piece + data == old(data) && |piece| <= want
      ensures piece == [] <==> old(data) == []
    {
      if data == [] { return []; }
      var n: nat :| 1 <= n <= want && n <= |data|;
      piece := data[..n];
      data := data[n..];
    }
  }

  /** `read_exact`, and the prefix loop before it: fill `want` bytes or stop at the end of the stream. */
  method Fill(source: ByteSource, want: nat) returns (filled: Bytes)
    modifies source
    ensures filled + source.data == old(source.data)
    ensures |filled| <= want && (|filled| < want ==> source.data == [])
  {
    filled := [];
    while |filled| < want
      invariant filled + source.data == old(source.data) && |filled| <= want
      decreases want - |filled|
    {
      ghost var before := source.data;
      var piece := source.Read(want - |filled|);
      if piece == [] { return; }
      assert filled + before == (filled + piece) + source.data;
      filled := filled + piece;
    }
  }

  /** `read_message_from_tls_reader`. */
  method ReadMessage<R>(source: ByteSource, max: nat, decode: Bytes -> Option<R>)
    returns (r: Result<ReadResult<R>, ReadError>)
    modifies source
    ensures match ReadOne(old(source.data), max, decode)
      case Got(result, rest) => r == Ok(result) && source.data == rest
      case Failed(error) => r == Err(error)
  {
    ghost var stream := source.data;
    var prefix := Fill(source, LENGTH_PREFIX_LEN);
    if |prefix| < LENGTH_PREFIX_LEN {
      assert stream == prefix;
      return Err(if prefix == [] then OrderlyClose else ClosedInPrefix);
    }
    assert prefix == stream[..LENGTH_PREFIX_LEN] && source.data == stream[LENGTH_PREFIX_LEN..];
    var control := DecodeControl(prefix);
    if control.None? { return Err(BadFrame(InvalidFrame("unknown wire kind"))); }
    var bodyLen := control.value.bodyLen;
    if bodyLen == 0 || max < bodyLen { return Err(BadFrame(MessageTooLarge(bodyLen, max))); }
    ghost var afterPrefix := source.data;
    var body := Fill(source, bodyLen);
    if |body| < bodyLen {
      assert afterPrefix == body;
      return Err(ClosedInBody);
    }
    assert prefix + body == stream[..LENGTH_PREFIX_LEN + bodyLen];
    assert source.data == stream[LENGTH_PREFIX_LEN + bodyLen..];
    var parsed := Parse(prefix + body, bodyLen, None, decode);
    if parsed.Err? { return Err(BadFrame(parsed.error)); }
    return Ok(parsed.value);
  }

  // ---------------------------------------------------------------- whole streams

  datatype Transcript<R> = Transcript(results: seq<ReadResult<R>>, end: ReadError)

  /** Read until the first failure; a clean end of stream is one. */
  function ReadAll<R>(stream: Bytes, max: nat, decode: Bytes -> Option<R>): Transcript<R>
    decreases |stream|
  {
    match ReadOne(stream, max, decode)
    case Failed(error) => Transcript([], error)
    case Got(result, rest) =>
      var more := ReadAll(rest, max, decode);
      Transcript([result] + more.results, more.end)
  }

  lemma ReadAllStep<R>(stream: Bytes, max: nat, decode: Bytes -> Option<R>)
    requires ReadOne(stream, max, decode).Got?
    ensures |ReadOne(stream, max, decode).rest| < |stream|
    ensures var one := ReadOne(stream, max, decode);
      ReadAll(stream, max, decode) ==
      Transcript([one.result] + ReadAll(one.rest, max, decode).results, ReadAll(one.rest, max, decode).end)
  {
  }

  /** Reading message after message, in whatever pieces the bytes arrive, until the first failure. */
  method ReadStream<R>(source: ByteSource, max: nat, decode: Bytes -> Option<R>) returns (t: Transcript<R>)
    modifies source
    ensures t == ReadAll(old(source.data), max, decode)
  {
    ghost var stream := source.data;
    var results: seq<ReadResult<R>> := [];
    while true
      invariant ReadAll(stream, max, decode) ==
        Transcript(results + ReadAll(source.data, max, decode).results, ReadAll(source.data, max, decode).end)
      decreases |source.data|
    {
      ghost var before := source.data;
      var r := ReadMessage(source, max, decode);
      if r.Err? { return Transcript(results, r.error); }
      ReadAllStep(before, max, decode);
      assert results + ([r.value] + ReadAll(source.data, max, decode).results) ==
             (results + [r.value]) + ReadAll(source.data, max, decode).results;
      results := results + [r.value];
    }
  }

  /** A message a peer may send before routes exist and a receiver with this limit accepts. */
  ghost predicate Sendable(m: Message, max: nat) {
    InMemory(m) && TryEncode(m).Ok? && |TryEncode(m).value| - 4 <= max && Deliverable(m, None)
  }

  ghost predicate Encodable(m: Message) { InMemory(m) && TryEncode(m).Ok? }

  ghost predicate AllEncodable(ms: seq<Message>) { forall i | 0 <= i < |ms| :: Encodable(ms[i]) }

  ghost predicate AllSendable(ms: seq<Message>, max: nat) { forall i | 0 <= i < |ms| :: Sendable(ms[i], max) }

  ghost function EncodeAll(ms: seq<Message>): Bytes
    requires AllEncodable(ms)
  {
    if ms == [] then [] else TryEncode(ms[0]).value + EncodeAll(ms[1..])
  }

  ghost function DeliveredAll<R(!new)>(ms: seq<Message>, decode: Bytes -> Option<R>): seq<ReadResult<R>>
    requires forall i | 0 <= i < |ms| :: Deliverable(ms[i], None)
  {
    if ms == [] then []
    else
      ExpectedIff(ms[0], None, decode);
      [Expected(ms[0], None, decode).value] + DeliveredAll(ms[1..], decode)
  }

  /** A complete frame at the head of the stream is parsed by itself, whatever follows. */
  lemma ReadHead<R>(f: Bytes, kind: WireKind, rest: Bytes, max: nat, decode: Bytes -> Option<R>)
    requires 4 < |f| && DecodeControl(f[..4]) == Some(Control(kind, |f| - 4)) && |f| - 4 <= max
    requires Parse(f, |f| - 4, None, decode).Ok?
    ensures ReadOne(f + rest, max, decode) == Got(Parse(f, |f| - 4, None, decode).value, rest)
  {
    var stream := f + rest;
    assert stream[..4] == f[..4] && stream[..|f|] == f && stream[|f|..] == rest;
  }

  lemma ReadFrame<R(!new)>(m: Message, rest: Bytes, max: nat, decode: Bytes -> Option<R>)
    requires Sendable(m, max)
    ensures Expected(m, None, decode).Ok?
    ensures ReadOne(TryEncode(m).value + rest, max, decode) == Got(Expected(m, None, decode).value, rest)
  {
    ExpectedIff(m, None, decode);
    var f := TryEncode(m).value;
    FrameShape(m, f);
    RoundTrip(m, f, None, decode);
    ReadHead(f, KindOf(m), rest, max, decode);
  }

  /** Any list of frames, sent back to back, is read back as exactly that list. */
  lemma {:induction false} StreamRecovered<R(!new)>(ms: seq<Message>, max: nat, decode: Bytes -> Option<R>)
    requires AllSendable(ms, max)
    ensures AllEncodable(ms) && (forall i | 0 <= i < |ms| :: Deliverable(ms[i], None))
    ensures ReadAll(EncodeAll(ms), max, decode) == Transcript(DeliveredAll(ms, decode), OrderlyClose)
  {
    assert forall i | 0 <= i < |ms| :: Encodable(ms[i]) && Deliverable(ms[i], None);
    if ms != [] {
      ReadFrame(ms[0], EncodeAll(ms[1..]), max, decode);
      StreamRecovered(ms[1..], max, decode);
    }
  }

  /** Any list of frames, however its bytes are cut into pieces, is read back as exactly that list. */
  method ReadFrames<R(!new)>(source: ByteSource, ghost ms: seq<Message>, max: nat, decode: Bytes -> Option<R>)
    returns (t: Transcript<R>)
    requires AllSendable(ms, max) && source.data == EncodeAll(ms)
    modifies source
    ensures AllEncodable(ms) && (forall i | 0 <= i < |ms| :: Deliverable(ms[i], None))
    ensures t == Transcript(DeliveredAll(ms, decode), OrderlyClose)
  {
    StreamRecovered(ms, max, decode);
    t := ReadStream(source, max, decode);
  }

  /** No proper prefix of a frame yields a message. */
  lemma PrefixYieldsNothing<R(!new)>(m: Message, cut: nat, max: nat, decode: Bytes -> Option<R>)
    requires Sendable(m, max) && cut < |TryEncode(m).value|
    ensures ReadOne(TryEncode(m).value[..cut], max, decode) ==
      Failed(if cut == 0 then OrderlyClose else if cut < 4 then ClosedInPrefix else ClosedInBody)
  {
    var f := TryEncode(m).value;
    FrameShape(m, f);
    if 4 <= cut { assert f[..cut][..4] == f[..4]; }
  }

  // ---------------------------------------------------------------- one reading only

  lemma SameFields(m: Message, n: Message, f: Bytes)
    requires Framed(m, f) && Framed(n, f) && KindOf(m) == KindOf(n)
    requires m.MActorAsk? || m.MRouteBind? || m.MRoutedActorAsk? || m.MDirectAsk? || m.MActorTell?
    ensures m == n
  {
    FrameShape(m, f);
    FrameShape(n, f);
    if m.MActorAsk? {
      ActorAskFields(m, f);
      ActorAskFields(n, f);
    } else if m.MRouteBind? {
      RouteBindFields(m, f);
      RouteBindFields(n, f);
    } else if m.MRoutedActorAsk? {
      RoutedAskFields(m, f);
      RoutedAskFields(n, f);
    } else if m.MDirectAsk? {
      DirectAskFields(m, f);
      DirectAskFields(n, f);
    } else {
      ActorTellDelivered<()>(m, f);
      ActorTellDelivered<()>(n, f);
    }
  }

  /** Distinct messages have distinct frames; in particular a refusal is never a response. */
  lemma EncodeInjective(m: Message, n: Message, f: Bytes)
    requires Framed(m, f) && Framed(n, f)
    ensures m == n
  {
    FrameShape(m, f);
    FrameShape(n, f);
    if m.MActorAsk? || m.MRouteBind? || m.MRoutedActorAsk? || m.MDirectAsk? || m.MActorTell? {
      SameFields(m, n, f);
    } else if m.MGossip? {
      SplitEqual(Zeros(12), Zeros(12), m.payload, n.payload);
    } else {
      SameDelivery(m, n, f);
    }
  }

  lemma SameDelivery(m: Message, n: Message, f: Bytes)
    requires Framed(m, f) && Framed(n, f) && KindOf(m) == KindOf(n)
    requires !m.MActorAsk? && !m.MRouteBind? && !m.MRoutedActorAsk? && !m.MDirectAsk? && !m.MActorTell? && !m.MGossip?
    ensures m == n
  {
    var never: Bytes -> Option<()> := _ => None;
    RoundTrip(m, f, None, never);
    RoundTrip(n, f, None, never);
    SameMeaning(m, n, never);
  }

  lemma SameMeaning<R>(m: Message, n: Message, decode: Bytes -> Option<R>)
    requires forall x: Bytes :: decode(x).None?
    requires KindOf(m) == KindOf(n) && Expected(m, None, decode) == Expected(n, None, decode)
    requires !m.MActorAsk? && !m.MRouteBind? && !m.MRoutedActorAsk? && !m.MDirectAsk? && !m.MActorTell? && !m.MGossip?
    ensures m == n
  {
  }

  /** Two lists of messages with the same bytes are the same list. */
  lemma {:induction false} StreamUnambiguous(ms: seq<Message>, ns: seq<Message>)
    requires AllEncodable(ms) && AllEncodable(ns)
    requires EncodeAll(ms) == EncodeAll(ns)
    ensures ms == ns
  {
    if ms == [] || ns == [] {
      if ms != [] { FrameShape(ms[0], TryEncode(ms[0]).value); }
      if ns != [] { FrameShape(ns[0], TryEncode(ns[0]).value); }
    } else {
      var f, g := TryEncode(ms[0]).value, TryEncode(ns[0]).value;
      SameFirstFrame(ms[0], ns[0], f, g, EncodeAll(ms[1..]), EncodeAll(ns[1..]));
      EncodeInjective(ms[0], ns[0], f);
      StreamUnambiguous(ms[1..], ns[1..]);
    }
  }

  lemma SameFirstFrame(m: Message, n: Message, f: Bytes, g: Bytes, p: Bytes, q: Bytes)
    requires Framed(m, f) && Framed(n, g) && f + p == g + q
    ensures f == g && p == q
  {
    FrameShape(m, f);
    FrameShape(n, g);
    assert f[..4] == (f + p)[..4] && g[..4] == (g + q)[..4];
    SplitEqual(f, g, p, q);
  }
}
