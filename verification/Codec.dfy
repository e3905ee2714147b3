/** Writers and parser undo each other. */
module Codec {
  import opened Common
  import opened BigEndian
  import opened Framing
  import opened FrameParser
  import Routes

  // ---------------------------------------------------------------- what a message should deliver

  /** The result the receiver owes for a message, with no mention of where its fields lie in the frame. */
  function Expected<R>(m: Message, routes: Option<Routes.Table>, decode: Bytes -> Option<R>): Outcome<R> {
    match m
    case MGossip(payload) =>
      (match decode(payload)
       case Some(message) => Ok(Registry(message, None))
       case None => Ok(Raw(Zeros(12) + payload)))
    case MAsk(corr, payload) =>
      (match decode(payload)
       case Some(message) => Ok(Registry(message, Some(corr)))
       case None => Ok(AskRaw(corr, payload)))
    case MResponse(corr, payload) => Ok(Answer(corr, payload))
    case MNack(corr, reason) => Ok(AskNack(corr, reason))
    case MActorTell(actor, hash, payload) => Ok(Actor(3, 0, actor, hash, None, payload))
    case MActorAsk(corr, actor, hash, request, payload) =>
      if corr == 0 then Invalid("actor ask has zero correlation id")
      else Ok(Actor(4, corr, actor, hash, request, payload))
    case MRouteBind(slot, actor, hash) =>
      if routes.None? then Invalid("route bind before connection setup")
      else if !Routes.Accepts(routes.value, slot, Routes.RouteKey(actor, hash)) then Invalid("conflicting route bind")
      else Ok(RouteBound)
    case MRoutedActorAsk(corr, slot, payload) =>
      if corr == 0 then Invalid("routed actor ask has zero correlation id")
      else if routes.None? then Invalid("routed ask before connection setup")
      else
        (match Routes.Resolve(routes.value, slot)
         case None => Invalid("unknown route slot")
         case Some(key) => Ok(Actor(4, corr, key.actor, key.typeHash, None, payload)))
    case MDirectAsk(corr, request, payload) =>
      if request == 0 then Invalid("direct ask missing a nonzero request_id") else Ok(Direct(corr, request, payload))
    case MDirectResponse(corr, payload) => Ok(DirectAnswer(corr, payload))
    case MPubSub(payload) => Ok(Published(payload))
    case MStreamStart(stream, corr, total, actor, hash, chunk) =>
      Ok(Streaming(0x10, corr, StreamHeader(stream, total, |chunk| % U32_LIMIT, 0, hash, actor), chunk))
    case MStreamResponseStart(stream, corr, total, chunk) =>
      Ok(Streaming(0x13, corr, StreamHeader(stream, total, |chunk| % U32_LIMIT, 0, 0, 0), chunk))
    case MStreamData(response, stream, index, chunk) =>
      Ok(Streaming(if response then 0x14 else 0x11, 0,
                   StreamHeader(stream, 0, |chunk| % U32_LIMIT, index, 0, 0), chunk))
    case MStreamAbort(stream, reason) => Ok(Aborted(stream, reason))
  }

  // ---------------------------------------------------------------- reading fields back

  /** Reading inside a prefix does not see what follows it. */
  lemma InPrefix(x: Bytes, rest: Bytes)
    ensures forall k: nat | k + 4 <= |x| :: U32At(x + rest, k) == U32At(x, k)
    ensures forall k: nat | k + 8 <= |x| :: U64At(x + rest, k) == U64At(x, k)
  {
    forall k: nat | k + 4 <= |x| ensures U32At(x + rest, k) == U32At(x, k) {
      assert (x + rest)[k..k + 4] == x[k..k + 4];
    }
    forall k: nat | k + 8 <= |x| ensures U64At(x + rest, k) == U64At(x, k) {
      assert (x + rest)[k..k + 8] == x[k..k + 8];
    }
  }

  /** Reading the field just written gives it back. */
  lemma Last32(before: Bytes, n: U32)
    ensures U32At(before + Be32(n), |before|) == n
  {
    var b := before + Be32(n);
    assert b[|before|..|before| + 4] == Be32(n);
    ReadBe32(b, |before|, n);
  }

  lemma Last64(before: Bytes, n: U64)
    ensures U64At(before + Be64(n), |before|) == n
  {
    var b := before + Be64(n);
    assert b[|before|..|before| + 8] == Be64(n);
    ReadBe64(b, |before|, n);
  }

  lemma Only32(n: U32)
    ensures U32At(Be32(n), 0) == n
  {
    ReadBe32(Be32(n), 0, n);
  }

  lemma Only64(n: U64)
    ensures U64At(Be64(n), 0) == n
  {
    ReadBe64(Be64(n), 0, n);
  }

  lemma Append32(x: Bytes, n: U32)
    ensures forall k: nat | k + 4 <= |x| :: U32At(x + Be32(n), k) == U32At(x, k)
    ensures forall k: nat | k + 8 <= |x| :: U64At(x + Be32(n), k) == U64At(x, k)
    ensures U32At(x + Be32(n), |x|) == n
  {
    InPrefix(x, Be32(n));
    Last32(x, n);
  }

  lemma Append64(x: Bytes, n: U64)
    ensures forall k: nat | k + 4 <= |x| :: U32At(x + Be64(n), k) == U32At(x, k)
    ensures forall k: nat | k + 8 <= |x| :: U64At(x + Be64(n), k) == U64At(x, k)
    ensures U64At(x + Be64(n), |x|) == n
  {
    InPrefix(x, Be64(n));
    Last64(x, n);
  }

  /** An encoded frame: control word, fixed fields, payload. */
  ghost predicate Framed(m: Message, f: Bytes) { InMemory(m) && TryEncode(m) == Ok(f) }

  lemma FrameShape(m: Message, f: Bytes)
    requires Framed(m, f)
    ensures |f| == 4 + |Fields(m)| + |PayloadOf(m)| && |f| - 4 <= CONTROL_BODY_LEN_MASK
    ensures f[..4] == ControlWord(KindOf(m), |f| - 4)
    ensures Body(f) == Fields(m) + PayloadOf(m)
    ensures f[4 + |Fields(m)|..] == PayloadOf(m)
    ensures DecodeControl(f[..4]) == Some(Control(KindOf(m), |f| - 4))
  {
    var word := ControlWord(KindOf(m), |Fields(m)| + |PayloadOf(m)|);
    assert f == word + Fields(m) + PayloadOf(m);
    Concatenated(f, word, Fields(m), PayloadOf(m));
    ControlRoundTrip(word, KindOf(m), |f| - 4);
  }

  lemma Concatenated(f: Bytes, word: Bytes, fields: Bytes, payload: Bytes)
    requires |word| == 4 && f == word + fields + payload
    ensures |f| == 4 + |fields| + |payload| && f[..4] == word
    ensures f[4..] == fields + payload && f[4 + |fields|..] == payload
  {
  }

  /** Payloads start at a multiple of sixteen, so handing them out never fails. */
  lemma PayloadIs(m: Message, f: Bytes)
    requires Framed(m, f) && (4 + |Fields(m)|) % PAYLOAD_ALIGNMENT == 0
    ensures PayloadRange(f, 4 + |Fields(m)|, |PayloadOf(m)|) == Ok(PayloadOf(m))
  {
    FrameShape(m, f);
    var start := 4 + |Fields(m)|;
    assert f[start..start + |PayloadOf(m)|] == f[start..];
  }

  // ---------------------------------------------------------------- kind by kind

  lemma ActorTellDelivered<R>(m: Message, f: Bytes)
    requires Framed(m, f) && m.MActorTell?
    ensures ParseActorTell<R>(f) == Ok(Actor(TYPE_ACTOR_TELL, 0, m.actor, m.typeHash, None, m.payload))
  {
    FrameShape(m, f);
    PayloadIs(m, f);
    Only64(m.actor);
    Append32(Be64(m.actor), m.typeHash);
    InPrefix(Fields(m), m.payload);
  }

  lemma ActorAskFields(m: Message, f: Bytes)
    requires Framed(m, f) && m.MActorAsk?
    ensures var b := Body(f);
      && |b| == 28 + |m.payload| && AllZero(b[24..28])
      && U32At(b, 0) == m.correlation && U64At(b, 4) == m.actor && U32At(b, 12) == m.typeHash
      && U64At(b, 16) == if m.request.Some? then m.request.value else 0
  {
    FrameShape(m, f);
    var id: U64 := if m.request.Some? then m.request.value else 0;
    var x1 := Be32(m.correlation);
    var x2 := x1 + Be64(m.actor);
    var x3 := x2 + Be32(m.typeHash);
    var x4 := x3 + Be64(id);
    Only32(m.correlation);
    Append64(x1, m.actor);
    Append32(x2, m.typeHash);
    Append64(x3, id);
    InPrefix(x4, Zeros(4));
    InPrefix(x4 + Zeros(4), m.payload);
    assert Body(f)[24..28] == Zeros(4);
  }

  lemma ActorAskDelivered<R>(m: Message, f: Bytes, routes: Option<Routes.Table>, decode: Bytes -> Option<R>)
    requires Framed(m, f) && m.MActorAsk?
    ensures ParseActorAsk<R>(f) == Expected(m, routes, decode)
  {
    ActorAskFields(m, f);
    FrameShape(m, f);
    PayloadIs(m, f);
  }

  lemma RouteBindFields(m: Message, f: Bytes)
    requires Framed(m, f) && m.MRouteBind?
    ensures var b := Body(f);
      |b| == 20 && AllZero(b[16..20]) && U32At(b, 0) == m.slot && BindKey(b) == Routes.RouteKey(m.actor, m.typeHash)
  {
    FrameShape(m, f);
    var x1 := Be32(m.slot);
    var x2 := x1 + Be64(m.actor);
    var x3 := x2 + Be32(m.typeHash);
    Only32(m.slot);
    Append64(x1, m.actor);
    Append32(x2, m.typeHash);
    InPrefix(x3, Zeros(4));
    assert Body(f) == x3 + Zeros(4);
    assert Body(f)[16..20] == Zeros(4);
  }

  lemma RoutedAskFields(m: Message, f: Bytes)
    requires Framed(m, f) && m.MRoutedActorAsk?
    ensures var b := Body(f);
      |b| == 12 + |m.payload| && AllZero(b[8..12]) && U32At(b, 0) == m.correlation && U32At(b, 4) == m.slot
  {
    FrameShape(m, f);
    var x1 := Be32(m.correlation);
    var x2 := x1 + Be32(m.slot);
    Only32(m.correlation);
    Append32(x1, m.slot);
    InPrefix(x2, Zeros(4));
    InPrefix(x2 + Zeros(4), m.payload);
    assert Body(f)[8..12] == Zeros(4);
  }

  /** The frames whose fixed part is a correlation id and eight reserved bytes. */
  lemma CorrelatedFields(m: Message, f: Bytes)
    requires Framed(m, f) && (m.MAsk? || m.MResponse? || m.MDirectResponse?)
    ensures var b := Body(f);
      |b| == 12 + |m.payload| && U32At(b, 0) == m.correlation && b[4] == 0 && f[16..] == m.payload
  {
    FrameShape(m, f);
    Only32(m.correlation);
    InPrefix(Be32(m.correlation), Zeros(8));
    InPrefix(Fields(m), m.payload);
    assert Body(f)[4] == Fields(m)[4] == Zeros(8)[0];
  }

  lemma NackFields(m: Message, f: Bytes)
    requires Framed(m, f) && m.MNack?
    ensures var b := Body(f); U32At(b, 0) == m.correlation && AskNackReason(b) == Some(m.reason)
  {
    FrameShape(m, f);
    Only32(m.correlation);
    var x1 := Be32(m.correlation);
    InPrefix(x1, [1, NackCode(m.reason)]);
    InPrefix(x1 + [1, NackCode(m.reason)], Zeros(6));
    assert Body(f) == Fields(m);
    assert Fields(m)[4] == 1 && Fields(m)[5] == NackCode(m.reason);
  }

  lemma DirectAskFields(m: Message, f: Bytes)
    requires Framed(m, f) && m.MDirectAsk?
    ensures var b := Body(f);
      |b| == 12 + |m.payload| && U32At(b, 0) == m.correlation && U64At(b, 4) == m.requestId
  {
    FrameShape(m, f);
    Only32(m.correlation);
    Append64(Be32(m.correlation), m.requestId);
    InPrefix(Fields(m), m.payload);
  }

  lemma StreamStartFields(m: Message, f: Bytes)
    requires Framed(m, f) && m.MStreamStart?
    ensures var b := Body(f);
      |b| == 24 + |m.payload| && U32At(b, 0) == m.stream && U32At(b, 4) == m.correlation && U32At(b, 8) == m.total &&
      U64At(b, 12) == m.actor && U32At(b, 20) == m.typeHash && f[28..] == m.payload
  {
    FrameShape(m, f);
    var x1 := Be32(m.stream);
    var x2 := x1 + Be32(m.correlation);
    var x3 := x2 + Be32(m.total);
    var x4 := x3 + Be64(m.actor);
    Only32(m.stream);
    Append32(x1, m.correlation);
    Append32(x2, m.total);
    Append64(x3, m.actor);
    Append32(x4, m.typeHash);
    InPrefix(Fields(m), m.payload);
  }

  lemma StreamResponseStartFields(m: Message, f: Bytes)
    requires Framed(m, f) && m.MStreamResponseStart?
    ensures var b := Body(f);
      |b| == 12 + |m.payload| && U32At(b, 0) == m.stream && U32At(b, 4) == m.correlation && U32At(b, 8) == m.total &&
      f[16..] == m.payload
  {
    FrameShape(m, f);
    var x1 := Be32(m.stream);
    var x2 := x1 + Be32(m.correlation);
    Only32(m.stream);
    Append32(x1, m.correlation);
    Append32(x2, m.total);
    InPrefix(Fields(m), m.payload);
  }

  lemma StreamDataFields(m: Message, f: Bytes)
    requires Framed(m, f) && m.MStreamData?
    ensures var b := Body(f);
      |b| == 8 + |m.payload| && U32At(b, 0) == m.stream && U32At(b, 4) == m.chunk && f[12..] == m.payload
  {
    FrameShape(m, f);
    Only32(m.stream);
    Append32(Be32(m.stream), m.chunk);
    InPrefix(Fields(m), m.payload);
  }

  lemma StreamAbortFields(m: Message, f: Bytes)
    requires Framed(m, f) && m.MStreamAbort?
    ensures var b := Body(f); |b| == 8 && U32At(b, 0) == m.stream && U32At(b, 4) == m.abortReason
  {
    FrameShape(m, f);
    Only32(m.stream);
    Append32(Be32(m.stream), m.abortReason);
    assert Body(f) == Fields(m);
  }

  // ---------------------------------------------------------------- parsing what was written

  lemma PlainDelivered<R>(m: Message, f: Bytes, routes: Option<Routes.Table>, decode: Bytes -> Option<R>)
    requires Framed(m, f) && (m.MAsk? || m.MResponse? || m.MDirectResponse? || m.MNack? || m.MDirectAsk?)
    ensures ParseKind(KindOf(m), f, routes, decode) == Expected(m, routes, decode)
  {
    if m.MNack? {
      FrameShape(m, f);
      NackFields(m, f);
    } else if m.MDirectAsk? {
      PayloadIs(m, f);
      DirectAskFields(m, f);
    } else {
      CorrelatedDelivered(m, f, routes, decode);
    }
  }

  lemma CorrelatedDelivered<R>(m: Message, f: Bytes, routes: Option<Routes.Table>, decode: Bytes -> Option<R>)
    requires Framed(m, f) && (m.MAsk? || m.MResponse? || m.MDirectResponse?)
    ensures ParseKind(KindOf(m), f, routes, decode) == Expected(m, routes, decode)
  {
    PayloadIs(m, f);
    CorrelatedFields(m, f);
  }

  lemma RoutedDelivered<R>(m: Message, f: Bytes, routes: Option<Routes.Table>, decode: Bytes -> Option<R>)
    requires Framed(m, f) && (m.MRouteBind? || m.MRoutedActorAsk?)
    ensures ParseKind(KindOf(m), f, routes, decode) == Expected(m, routes, decode)
  {
    if m.MRouteBind? { BindingDelivered(m, f, routes, decode); } else { CompactDelivered(m, f, routes, decode); }
  }

  lemma BindingDelivered<R>(m: Message, f: Bytes, routes: Option<Routes.Table>, decode: Bytes -> Option<R>)
    requires Framed(m, f) && m.MRouteBind?
    ensures ParseKind(KindOf(m), f, routes, decode) == Expected(m, routes, decode)
  {
    RouteBindFields(m, f);
  }

  lemma CompactDelivered<R>(m: Message, f: Bytes, routes: Option<Routes.Table>, decode: Bytes -> Option<R>)
    requires Framed(m, f) && m.MRoutedActorAsk?
    ensures ParseKind(KindOf(m), f, routes, decode) == Expected(m, routes, decode)
  {
    RoutedAskFields(m, f);
    PayloadIs(m, f);
  }

  lemma StreamDelivered<R>(m: Message, f: Bytes, routes: Option<Routes.Table>, decode: Bytes -> Option<R>)
    requires Framed(m, f) && (m.MStreamStart? || m.MStreamResponseStart? || m.MStreamData? || m.MStreamAbort?)
    ensures ParseKind(KindOf(m), f, routes, decode) == Expected(m, routes, decode)
  {
    if m.MStreamStart? || m.MStreamResponseStart? {
      StreamStartDelivered(m, f, routes, decode);
    } else if m.MStreamData? {
      StreamDataFields(m, f);
    } else {
      StreamAbortFields(m, f);
    }
  }

  lemma StreamStartDelivered<R>(m: Message, f: Bytes, routes: Option<Routes.Table>, decode: Bytes -> Option<R>)
    requires Framed(m, f) && (m.MStreamStart? || m.MStreamResponseStart?)
    ensures ParseKind(KindOf(m), f, routes, decode) == Expected(m, routes, decode)
  {
    if m.MStreamStart? { RequestStartDelivered(m, f, routes, decode); } else { StreamResponseStartFields(m, f); }
  }

  lemma RequestStartDelivered<R>(m: Message, f: Bytes, routes: Option<Routes.Table>, decode: Bytes -> Option<R>)
    requires Framed(m, f) && m.MStreamStart?
    ensures ParseKind(KindOf(m), f, routes, decode) == Expected(m, routes, decode)
  {
    StreamStartFields(m, f);
  }

  lemma ReservedDelivered<R>(m: Message, f: Bytes, routes: Option<Routes.Table>, decode: Bytes -> Option<R>)
    requires Framed(m, f) && (m.MGossip? || m.MPubSub?)
    ensures ParseKind(KindOf(m), f, routes, decode) == Expected(m, routes, decode)
  {
    FrameShape(m, f);
    PayloadIs(m, f);
  }

  /** Parsing any encoded frame delivers exactly what its message stands for, or its one refusal. */
  lemma RoundTrip<R>(m: Message, f: Bytes, routes: Option<Routes.Table>, decode: Bytes -> Option<R>)
    requires Framed(m, f)
    ensures |f| >= 4 && Parse(f, |f| - 4, routes, decode) == Expected(m, routes, decode)
  {
    FrameShape(m, f);
    if m.MActorTell? {
      ActorTellDelivered<R>(m, f);
    } else if m.MActorAsk? {
      ActorAskDelivered(m, f, routes, decode);
    } else if m.MGossip? || m.MPubSub? {
      ReservedDelivered(m, f, routes, decode);
    } else if m.MRouteBind? || m.MRoutedActorAsk? {
      RoutedDelivered(m, f, routes, decode);
    } else if m.MStreamStart? || m.MStreamResponseStart? || m.MStreamData? || m.MStreamAbort? {
      StreamDelivered(m, f, routes, decode);
    } else {
      PlainDelivered(m, f, routes, decode);
    }
  }

  /** Which messages get through; the rest the receiver refuses. */
  predicate Deliverable(m: Message, routes: Option<Routes.Table>) {
    match m
    case MActorAsk(corr, _, _, _, _) => corr != 0
    case MRoutedActorAsk(corr, slot, _) => corr != 0 && routes.Some? && slot in routes.value.bySlot
    case MRouteBind(slot, actor, hash) =>
      routes.Some? && Routes.Accepts(routes.value, slot, Routes.RouteKey(actor, hash))
    case MDirectAsk(_, request, _) => request != 0
    case _ => true
  }

  lemma ExpectedIff<R>(m: Message, routes: Option<Routes.Table>, decode: Bytes -> Option<R>)
    ensures Expected(m, routes, decode).Ok? <==> Deliverable(m, routes)
  {
  }

  /** A writable message is delivered if and only if its ids are nonzero and its route is known. */
  lemma DeliveredIff<R>(m: Message, f: Bytes, routes: Option<Routes.Table>, decode: Bytes -> Option<R>)
    requires Framed(m, f)
    ensures |f| >= 4 && (Parse(f, |f| - 4, routes, decode).Ok? <==> Deliverable(m, routes))
  {
    RoundTrip(m, f, routes, decode);
    ExpectedIff(m, routes, decode);
  }

  // ---------------------------------------------------------------- writing back what was parsed

  lemma Slice32(b: Bytes, at: nat)
    requires at + 4 <= |b|
    ensures b[at..at + 4] == Be32(U32At(b, at))
  {
    ReadBe32(b, at, U32At(b, at));
  }

  lemma Slice64(b: Bytes, at: nat)
    requires at + 8 <= |b|
    ensures b[at..at + 8] == Be64(U64At(b, at))
  {
    ReadBe64(b, at, U64At(b, at));
  }

  /** A frame whose control word fits its length and whose body is laid out as `m` says is `m`'s frame. */
  lemma FramedIff(m: Message, f: Bytes)
    requires 4 <= |f| && DecodeControl(f[..4]) == Some(Control(KindOf(m), |f| - 4))
    requires InMemory(m) && !(m.MActorAsk? && m.request == Some(0))
    ensures Framed(m, f) <==> Body(f) == Fields(m) + PayloadOf(m)
  {
    if Framed(m, f) { FrameShape(m, f); }
    if Body(f) == Fields(m) + PayloadOf(m) { FramedFrom(m, f); }
  }

  lemma FramedFrom(m: Message, f: Bytes)
    requires 4 <= |f| && DecodeControl(f[..4]) == Some(Control(KindOf(m), |f| - 4))
    requires InMemory(m) && !(m.MActorAsk? && m.request == Some(0)) && Body(f) == Fields(m) + PayloadOf(m)
    ensures Framed(m, f)
  {
    ControlRoundTrip(f[..4], KindOf(m), |f| - 4);
    assert f == f[..4] + (Fields(m) + PayloadOf(m));
    assert f == (f[..4] + Fields(m)) + PayloadOf(m);
  }

  function Narrow(n: U64): U32 { n % U32_LIMIT }

  /** The message a result came from, when the result still carries all of it. */
  function Original<R>(r: ReadResult<R>): Option<Message> {
    match r
    case Actor(ty, corr, actor, hash, request, payload) =>
      if ty == TYPE_ACTOR_TELL then Some(MActorTell(actor, hash, payload))
      else Some(MActorAsk(corr, actor, hash, request, payload))
    case AskRaw(corr, payload) => Some(MAsk(corr, payload))
    case Answer(corr, payload) => Some(MResponse(corr, payload))
    case AskNack(corr, reason) => Some(MNack(corr, reason))
    case Published(payload) => Some(MPubSub(payload))
    case Direct(corr, request, payload) => Some(MDirectAsk(corr, request, payload))
    case DirectAnswer(corr, payload) => Some(MDirectResponse(corr, payload))
    case Aborted(stream, reason) => Some(MStreamAbort(Narrow(stream), reason))
    case Streaming(ty, corr, h, chunk) =>
      if ty == TYPE_STREAM_START
      then Some(MStreamStart(Narrow(h.stream), corr, Narrow(h.total), h.actor, h.typeHash, chunk))
      else if ty == TYPE_STREAM_RESPONSE_START
      then Some(MStreamResponseStart(Narrow(h.stream), corr, Narrow(h.total), chunk))
      else Some(MStreamData(ty == TYPE_STREAM_RESPONSE_DATA, Narrow(h.stream), h.chunkIndex, chunk))
    case _ => None
  }

  /** Kinds whose every body byte is either a field, checked to be zero, or payload. */
  predicate Strict(k: WireKind) {
    k.ActorTell? || k.ActorAsk? || k.DirectAsk? || k.StreamStart? || k.StreamResponseStart? || k.StreamData? ||
    k.StreamResponseData? || k.StreamAbort?
  }

  /** Kinds with reserved bytes the parser ignores. */
  predicate Lenient(k: WireKind) { k.Response? || k.DirectResponse? || k.PubSub? || k.Ask? }

  lemma ZeroBytes(b: Bytes)
    ensures AllZero(b) <==> b == Zeros(|b|)
  {
  }

  lemma ActorTellReencodes<R>(f: Bytes)
    requires 4 <= |f| < U64_LIMIT && DecodeControl(f[..4]) == Some(Control(ActorTell, |f| - 4))
    requires ParseActorTell<R>(f).Ok?
    ensures Framed(Original(ParseActorTell<R>(f).value).value, f)
  {
    var b := Body(f);
    Slice64(b, 0);
    Slice32(b, 8);
    var m := Original(ParseActorTell<R>(f).value).value;
    assert b == b[0..8] + b[8..12] + b[12..];
    assert m.payload == b[12..];
    FramedIff(m, f);
  }

  lemma ActorAskBody(b: Bytes)
    requires 28 <= |b| && AllZero(b[24..28])
    ensures b == Be32(U32At(b, 0)) + Be64(U64At(b, 4)) + Be32(U32At(b, 12)) + Be64(U64At(b, 16)) + Zeros(4) + b[28..]
  {
    Slice32(b, 0);
    Slice64(b, 4);
    Slice32(b, 12);
    Slice64(b, 16);
    ZeroBytes(b[24..28]);
    assert b == b[0..4] + b[4..12] + b[12..16] + b[16..24] + b[24..28] + b[28..];
  }

  lemma ActorAskReencodes<R>(f: Bytes)
    requires 4 <= |f| < U64_LIMIT && DecodeControl(f[..4]) == Some(Control(ActorAsk, |f| - 4))
    requires ParseActorAsk<R>(f).Ok?
    ensures Framed(Original(ParseActorAsk<R>(f).value).value, f)
  {
    var m := Original(ParseActorAsk<R>(f).value).value;
    ActorAskBody(Body(f));
    assert m.payload == Body(f)[28..];
    FramedIff(m, f);
  }

  lemma DirectAskReencodes<R>(f: Bytes)
    requires 4 <= |f| < U64_LIMIT && DecodeControl(f[..4]) == Some(Control(DirectAsk, |f| - 4))
    requires ParseDirectAsk<R>(f).Ok?
    ensures Framed(Original(ParseDirectAsk<R>(f).value).value, f)
  {
    var b := Body(f);
    Slice32(b, 0);
    Slice64(b, 4);
    var m := Original(ParseDirectAsk<R>(f).value).value;
    assert b == b[0..4] + b[4..12] + b[12..];
    assert m.payload == b[12..];
    FramedIff(m, f);
  }

  lemma StreamStartReencodes<R>(f: Bytes)
    requires 4 <= |f| < U64_LIMIT && DecodeControl(f[..4]) == Some(Control(StreamStart, |f| - 4))
    requires ParseStreamStart<R>(f).Ok?
    ensures Framed(Original(ParseStreamStart<R>(f).value).value, f)
  {
    StreamStartBody(Body(f));
    var m := Original(ParseStreamStart<R>(f).value).value;
    assert m.payload == Body(f)[24..];
    FramedIff(m, f);
  }

  lemma StreamStartBody(b: Bytes)
    requires 24 <= |b|
    ensures b ==
      Be32(U32At(b, 0)) + Be32(U32At(b, 4)) + Be32(U32At(b, 8)) + Be64(U64At(b, 12)) + Be32(U32At(b, 20)) + b[24..]
  {
    Slice32(b, 0);
    Slice32(b, 4);
    Slice32(b, 8);
    Slice64(b, 12);
    Slice32(b, 20);
    assert b == b[0..4] + b[4..8] + b[8..12] + b[12..20] + b[20..24] + b[24..];
  }

  lemma ThreeWords(b: Bytes)
    requires 12 <= |b|
    ensures b == Be32(U32At(b, 0)) + Be32(U32At(b, 4)) + Be32(U32At(b, 8)) + b[12..]
  {
    Slice32(b, 0);
    Slice32(b, 4);
    Slice32(b, 8);
    assert b == b[0..4] + b[4..8] + b[8..12] + b[12..];
  }

  lemma StreamResponseStartReencodes<R>(f: Bytes)
    requires 4 <= |f| < U64_LIMIT && DecodeControl(f[..4]) == Some(Control(StreamResponseStart, |f| - 4))
    requires ParseStreamResponseStart<R>(f).Ok?
    ensures Framed(Original(ParseStreamResponseStart<R>(f).value).value, f)
  {
    var b := Body(f);
    ThreeWords(b);
    var m := Original(ParseStreamResponseStart<R>(f).value).value;
    assert m == MStreamResponseStart(U32At(b, 0), U32At(b, 4), U32At(b, 8), b[12..]);
    assert Fields(m) + PayloadOf(m) == b;
    FramedIff(m, f);
  }

  lemma StreamDataReencodes<R>(f: Bytes, response: bool)
    requires 4 <= |f| < U64_LIMIT
    requires DecodeControl(f[..4]) == Some(Control(if response then StreamResponseData else StreamData, |f| - 4))
    requires ParseStreamData<R>(f, response).Ok?
    ensures Framed(Original(ParseStreamData<R>(f, response).value).value, f)
  {
    var b := Body(f);
    Slice32(b, 0);
    Slice32(b, 4);
    var m := Original(ParseStreamData<R>(f, response).value).value;
    assert b == b[0..4] + b[4..8] + b[8..];
    assert m.payload == b[8..];
    FramedIff(m, f);
  }

  lemma StreamAbortReencodes<R>(f: Bytes)
    requires 4 <= |f| < U64_LIMIT && DecodeControl(f[..4]) == Some(Control(StreamAbort, |f| - 4))
    requires ParseStreamAbort<R>(f).Ok?
    ensures Framed(Original(ParseStreamAbort<R>(f).value).value, f)
  {
    var b := Body(f);
    Slice32(b, 0);
    Slice32(b, 4);
    var m := Original(ParseStreamAbort<R>(f).value).value;
    assert b == b[0..4] + b[4..8] + [];
    FramedIff(m, f);
  }

  /** Every accepted frame of a strict kind is the one frame its message encodes to. */
  lemma Reencodes<R>(f: Bytes, kind: WireKind, routes: Option<Routes.Table>, decode: Bytes -> Option<R>)
    requires 4 <= |f| < U64_LIMIT && DecodeControl(f[..4]) == Some(Control(kind, |f| - 4)) && Strict(kind)
    requires Parse(f, |f| - 4, routes, decode).Ok?
    ensures var original := Original(Parse(f, |f| - 4, routes, decode).value);
      original.Some? && Framed(original.value, f)
  {
    if kind.ActorTell? || kind.ActorAsk? || kind.DirectAsk? {
      MessageReencodes(f, kind, routes, decode);
    } else {
      StreamReencodes(f, kind, routes, decode);
    }
  }

  lemma MessageReencodes<R>(f: Bytes, kind: WireKind, routes: Option<Routes.Table>, decode: Bytes -> Option<R>)
    requires 4 <= |f| < U64_LIMIT && DecodeControl(f[..4]) == Some(Control(kind, |f| - 4))
    requires kind.ActorTell? || kind.ActorAsk? || kind.DirectAsk?
    requires Parse(f, |f| - 4, routes, decode).Ok?
    ensures var original := Original(Parse(f, |f| - 4, routes, decode).value);
      original.Some? && Framed(original.value, f)
  {
    match kind
    case ActorTell => ActorTellReencodes<R>(f);
    case ActorAsk => ActorAskReencodes<R>(f);
    case DirectAsk => DirectAskReencodes<R>(f);
  }

  lemma StreamReencodes<R>(f: Bytes, kind: WireKind, routes: Option<Routes.Table>, decode: Bytes -> Option<R>)
    requires 4 <= |f| < U64_LIMIT && DecodeControl(f[..4]) == Some(Control(kind, |f| - 4)) && Strict(kind)
    requires !kind.ActorTell? && !kind.ActorAsk? && !kind.DirectAsk?
    requires Parse(f, |f| - 4, routes, decode).Ok?
    ensures var original := Original(Parse(f, |f| - 4, routes, decode).value);
      original.Some? && Framed(original.value, f)
  {
    match kind
    case StreamStart => StreamStartReencodes<R>(f);
    case StreamResponseStart => StreamResponseStartReencodes<R>(f);
    case StreamData => StreamDataReencodes<R>(f, false);
    case StreamResponseData => StreamDataReencodes<R>(f, true);
    case StreamAbort => StreamAbortReencodes<R>(f);
  }

  /** What the parser of a lenient kind does not look at, as the writer would have left it. */
  predicate Canonical(kind: WireKind, f: Bytes)
    requires 16 <= |f|
  {
    var b := Body(f);
    if kind.PubSub? then AllZero(b[..12])
    else if kind.Response? && b[4] == 1 then |b| == 12 && AllZero(b[6..12]) && b[5] <= 4
    else AllZero(b[4..12])
  }

  lemma SplitEqual(x: Bytes, y: Bytes, p: Bytes, q: Bytes)
    requires |x| == |y|
    ensures x + p == y + q <==> x == y && p == q
  {
    if x + p == y + q {
      assert x == (x + p)[..|x|] && y == (y + q)[..|y|];
      assert p == (x + p)[|x|..] && q == (y + q)[|y|..];
    }
  }

  lemma CorrelatedCanonical(m: Message, f: Bytes)
    requires 16 <= |f| && (m.MAsk? || m.MResponse? || m.MDirectResponse?)
    requires m.correlation == U32At(Body(f), 0) && m.payload == Body(f)[12..]
    ensures Body(f) == Fields(m) + m.payload <==> AllZero(Body(f)[4..12])
  {
    var b := Body(f);
    Slice32(b, 0);
    ZeroBytes(b[4..12]);
    assert b == (b[0..4] + b[4..12]) + b[12..];
    SplitEqual(b[0..4] + b[4..12], Be32(m.correlation) + Zeros(8), b[12..], m.payload);
    SplitEqual(b[0..4], Be32(m.correlation), b[4..12], Zeros(8));
  }

  lemma NackCanonical(m: Message, f: Bytes)
    requires 16 <= |f| && m.MNack? && Body(f)[4] == 1
    requires m.correlation == U32At(Body(f), 0) && m.reason == NackFromU8(Body(f)[5])
    ensures Body(f) == Fields(m) + [] <==> |Body(f)| == 12 && AllZero(Body(f)[6..12]) && Body(f)[5] <= 4
  {
    var b := Body(f);
    Slice32(b, 0);
    ZeroBytes(b[6..12]);
    assert Fields(m)[5] == NackCode(m.reason);
    if |b| == 12 {
      assert b == b[0..4] + [b[4], b[5]] + b[6..12];
      assert Fields(m) + [] == Fields(m);
      if b == Fields(m) { assert b[6..12] == Zeros(6); }
    }
  }

  /**
   Accepted asks, responses, direct responses and pub-sub frames re-encode to themselves exactly
   when their reserved bytes are clean.
   */
  lemma ReencodesIff<R>(f: Bytes, kind: WireKind, routes: Option<Routes.Table>, decode: Bytes -> Option<R>)
    requires 4 <= |f| < U64_LIMIT && DecodeControl(f[..4]) == Some(Control(kind, |f| - 4)) && Lenient(kind)
    requires Parse(f, |f| - 4, routes, decode).Ok? && !Parse(f, |f| - 4, routes, decode).value.Registry?
    ensures var original := Original(Parse(f, |f| - 4, routes, decode).value);
      |f| >= 16 && original.Some? && InMemory(original.value) && (Framed(original.value, f) <==> Canonical(kind, f))
  {
    var m := Original(Parse(f, |f| - 4, routes, decode).value).value;
    FramedIff(m, f);
    if m.MNack? {
      NackCanonical(m, f);
    } else if m.MPubSub? {
      ZeroBytes(Body(f)[..12]);
      assert Body(f) == Body(f)[..12] + Body(f)[12..];
      SplitEqual(Body(f)[..12], Zeros(12), Body(f)[12..], m.payload);
    } else {
      CorrelatedCanonical(m, f);
    }
  }

  /** An accepted binding is the one frame that binds what it bound. */
  lemma RouteBindReencodes<R>(f: Bytes, routes: Option<Routes.Table>)
    requires 4 <= |f| < U64_LIMIT && DecodeControl(f[..4]) == Some(Control(RouteBind, |f| - 4))
    requires ParseRouteBind<R>(f, routes).Ok?
    ensures var b := Body(f);
      |b| == 20 && Framed(MRouteBind(U32At(b, 0), BindKey(b).actor, BindKey(b).typeHash), f)
  {
    var b := Body(f);
    Slice32(b, 0);
    Slice64(b, 4);
    Slice32(b, 12);
    ZeroBytes(b[16..20]);
    assert b == b[0..4] + b[4..12] + b[12..16] + b[16..20] + [];
    FramedIff(MRouteBind(U32At(b, 0), BindKey(b).actor, BindKey(b).typeHash), f);
  }

  /** An accepted compact ask is the one frame of its correlation id, slot and payload. */
  lemma RoutedAskReencodes<R>(f: Bytes, routes: Option<Routes.Table>)
    requires 4 <= |f| < U64_LIMIT && DecodeControl(f[..4]) == Some(Control(RoutedActorAsk, |f| - 4))
    requires ParseRoutedActorAsk<R>(f, routes).Ok?
    ensures var b := Body(f);
      |b| >= 12 && Framed(MRoutedActorAsk(U32At(b, 0), U32At(b, 4), b[12..]), f)
  {
    var b := Body(f);
    Slice32(b, 0);
    Slice32(b, 4);
    ZeroBytes(b[8..12]);
    assert b == b[0..4] + b[4..8] + b[8..12] + b[12..];
    FramedIff(MRoutedActorAsk(U32At(b, 0), U32At(b, 4), b[12..]), f);
  }

  /**
   An accepted ask, decoded or raw, is the one frame of its id and payload exactly when its
   reserved bytes are zero.
   */
  lemma AskReencodesIff<R>(f: Bytes, decode: Bytes -> Option<R>)
    requires 4 <= |f| < U64_LIMIT && DecodeControl(f[..4]) == Some(Control(WireKind.Ask, |f| - 4)) &&
      ParseAsk(f, decode).Ok?
    ensures var b := Body(f); |b| >= 12 && (Framed(MAsk(U32At(b, 0), b[12..]), f) <==> AllZero(b[4..12]))
  {
    var m := MAsk(U32At(Body(f), 0), Body(f)[12..]);
    FramedIff(m, f);
    CorrelatedCanonical(m, f);
  }

  /** An accepted gossip frame is the one frame of its payload exactly when its reserved bytes are zero. */
  lemma GossipReencodesIff<R>(f: Bytes, decode: Bytes -> Option<R>)
    requires 4 <= |f| < U64_LIMIT && DecodeControl(f[..4]) == Some(Control(Gossip, |f| - 4))
    requires ParseGossip(f, decode).Ok?
    ensures var b := Body(f); |b| >= 12 && (Framed(MGossip(b[12..]), f) <==> AllZero(b[..12]))
  {
    var b := Body(f);
    ZeroBytes(b[..12]);
    assert b == b[..12] + b[12..];
    FramedIff(MGossip(b[12..]), f);
    SplitEqual(b[..12], Zeros(12), b[12..], b[12..]);
  }

  // ---------------------------------------------------------------- what the parser accepts

  /** Kinds of which every accepted frame is the frame of some message. */
  predicate Exact(k: WireKind) { Strict(k) || k.RouteBind? || k.RoutedActorAsk? }

  ghost predicate FrameOf(m: Message, kind: WireKind, f: Bytes, routes: Option<Routes.Table>) {
    KindOf(m) == kind && Framed(m, f) && Deliverable(m, routes)
  }

  /** The message an accepted frame of an exact kind was written from. */
  lemma AcceptedFrom<R>(f: Bytes, kind: WireKind, routes: Option<Routes.Table>, decode: Bytes -> Option<R>)
    returns (m: Message)
    requires 4 <= |f| < U64_LIMIT && DecodeControl(f[..4]) == Some(Control(kind, |f| - 4)) && Exact(kind)
    requires Parse(f, |f| - 4, routes, decode).Ok?
    ensures Framed(m, f)
  {
    if kind.RouteBind? {
      RouteBindReencodes<R>(f, routes);
      m := MRouteBind(U32At(Body(f), 0), BindKey(Body(f)).actor, BindKey(Body(f)).typeHash);
    } else if kind.RoutedActorAsk? {
      RoutedAskReencodes<R>(f, routes);
      m := MRoutedActorAsk(U32At(Body(f), 0), U32At(Body(f), 4), Body(f)[12..]);
    } else {
      Reencodes(f, kind, routes, decode);
      m := Original(Parse(f, |f| - 4, routes, decode).value).value;
    }
  }

  /** Of an exact kind, the parser accepts the frames of deliverable messages and nothing else. */
  lemma AcceptedIff<R>(f: Bytes, kind: WireKind, routes: Option<Routes.Table>, decode: Bytes -> Option<R>)
    requires 4 <= |f| < U64_LIMIT && DecodeControl(f[..4]) == Some(Control(kind, |f| - 4)) && Exact(kind)
    ensures Parse(f, |f| - 4, routes, decode).Ok? <==> exists m :: FrameOf(m, kind, f, routes)
  {
    if Parse(f, |f| - 4, routes, decode).Ok? {
      var m := AcceptedFrom(f, kind, routes, decode);
      FrameShape(m, f);
      DeliveredIff(m, f, routes, decode);
      assert FrameOf(m, kind, f, routes);
    } else {
      forall m ensures !FrameOf(m, kind, f, routes) {
        if Framed(m, f) { DeliveredIff(m, f, routes, decode); }
      }
    }
  }

  /** What a frame of a lenient kind says, whatever its reserved bytes hold. */
  function ReadOff(kind: WireKind, f: Bytes): Message
    requires 16 <= |f| && Lenient(kind)
  {
    var b := Body(f);
    if kind.PubSub? then MPubSub(b[12..])
    else if kind.Ask? then MAsk(U32At(b, 0), b[12..])
    else if kind.DirectResponse? then MDirectResponse(U32At(b, 0), b[12..])
    else if b[4] == 1 then MNack(U32At(b, 0), NackFromU8(b[5]))
    else MResponse(U32At(b, 0), b[12..])
  }

  /** Of a lenient kind, the parser accepts every frame with room for the header, and ignores the reserved bytes. */
  lemma LenientAcceptedIff<R>(f: Bytes, kind: WireKind, routes: Option<Routes.Table>, decode: Bytes -> Option<R>)
    requires 4 <= |f| && DecodeControl(f[..4]) == Some(Control(kind, |f| - 4)) && Lenient(kind)
    ensures Parse(f, |f| - 4, routes, decode).Ok? <==> 16 <= |f|
    ensures 16 <= |f| ==> Parse(f, |f| - 4, routes, decode) == Expected(ReadOff(kind, f), routes, decode)
  {
    if 16 <= |f| { assert f[16..] == Body(f)[12..] && f[16..16 + (|f| - 16)] == f[16..]; }
  }

  /** A response with a stray reserved byte is accepted, and is not the encoding of what it delivers. */
  lemma ReencodingFails<R>(routes: Option<Routes.Table>, decode: Bytes -> Option<R>) returns (f: Bytes)
    ensures f == ControlWord(Response, 12) + [0, 0, 0, 1, 0, 9, 0, 0, 0, 0, 0, 0]
    ensures |f| == 16 && DecodeControl(f[..4]) == Some(Control(Response, 12)) && Parse(f, 12, routes, decode).Ok?
    ensures var original := Original(Parse(f, 12, routes, decode).value);
      original.Some? && InMemory(original.value) && !Framed(original.value, f)
  {
    var word := ControlWord(Response, 12);
    f := word + [0, 0, 0, 1, 0, 9, 0, 0, 0, 0, 0, 0];
    ControlRoundTrip(word, Response, 12);
    assert f[..4] == word;
    assert Body(f)[4..12][1] == 9;
    ReencodesIff(f, Response, routes, decode);
  }
}
