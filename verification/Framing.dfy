/** The packed V5 frame layout: control word, per-kind headers and their writers. */
module Framing {
  import opened Common
  import opened BigEndian

  const LENGTH_PREFIX_LEN: nat := 4
  const CONTROL_BODY_LEN_MASK: nat := 0x7FF_FFFF
  const KIND_UNIT: nat := 0x800_0000

  datatype WireKind =
    | Gossip | Ask | Response | ActorTell | ActorAsk | StreamStart | StreamData | StreamResponseStart
    | StreamResponseData | DirectAsk | DirectResponse | PubSub | StreamAbort | RouteBind | RoutedActorAsk

  datatype FrameError =
    | MessageTooLarge(size: nat, max: nat)
    | InvalidConfig
    | InvalidFrame(why: string)

  function KindCode(k: WireKind): U8 {
    match k
    case Gossip => 0
    case Ask => 1
    case Response => 2
    case ActorTell => 3
    case ActorAsk => 4
    case StreamStart => 5
    case StreamData => 6
    case StreamResponseStart => 7
    case StreamResponseData => 8
    case DirectAsk => 9
    case DirectResponse => 10
    case PubSub => 11
    case StreamAbort => 12
    case RouteBind => 13
    case RoutedActorAsk => 14
  }

  function KindFromU8(code: nat): Option<WireKind> {
    match code
    case 0 => Some(Gossip)
    case 1 => Some(Ask)
    case 2 => Some(Response)
    case 3 => Some(ActorTell)
    case 4 => Some(ActorAsk)
    case 5 => Some(StreamStart)
    case 6 => Some(StreamData)
    case 7 => Some(StreamResponseStart)
    case 8 => Some(StreamResponseData)
    case 9 => Some(DirectAsk)
    case 10 => Some(DirectResponse)
    case 11 => Some(PubSub)
    case 12 => Some(StreamAbort)
    case 13 => Some(RouteBind)
    case 14 => Some(RoutedActorAsk)
    case _ => None
  }

  // ---------------------------------------------------------------- the control word

  datatype Control = Control(kind: WireKind, bodyLen: nat)

  function TryCheckedBodyLen(fixed: Usize, payload: Usize): Result<Usize, FrameError> {
    if fixed + payload < U64_LIMIT && fixed + payload <= CONTROL_BODY_LEN_MASK
    then Ok(fixed + payload)
    else Err(MessageTooLarge(SaturatingAdd(fixed, payload), CONTROL_BODY_LEN_MASK))
  }

  /** Kind in the top five bits, body length in the low twenty-seven. */
  function ControlWord(kind: WireKind, bodyLen: nat): Bytes
    requires bodyLen <= CONTROL_BODY_LEN_MASK
  {
    Be32(KindCode(kind) * KIND_UNIT + bodyLen)
  }

  function TryEncodeControl(kind: WireKind, bodyLen: nat): Result<Bytes, FrameError> {
    if CONTROL_BODY_LEN_MASK < bodyLen then Err(MessageTooLarge(bodyLen, CONTROL_BODY_LEN_MASK))
    else Ok(ControlWord(kind, bodyLen))
  }

  function DecodeControl(word: Bytes): Option<Control>
    requires |word| == LENGTH_PREFIX_LEN
  {
    var n := U32At(word, 0);
    match KindFromU8(n / KIND_UNIT)
    case None => None
    case Some(kind) => Some(Control(kind, n % KIND_UNIT))
  }

  lemma KindRoundTrip(k: WireKind, code: nat)
    ensures KindFromU8(KindCode(k)) == Some(k)
    ensures KindFromU8(code) == Some(k) <==> code == KindCode(k)
  {
  }

  /** A control word decodes to the kind and length it was written from, and to no other. */
  lemma ControlRoundTrip(word: Bytes, kind: WireKind, bodyLen: nat)
    requires |word| == LENGTH_PREFIX_LEN
    ensures DecodeControl(word) == Some(Control(kind, bodyLen)) <==> TryEncodeControl(kind, bodyLen) == Ok(word)
  {
    var n := U32At(word, 0);
    KindRoundTrip(kind, n / KIND_UNIT);
    assert word[0..4] == word;
    if bodyLen <= CONTROL_BODY_LEN_MASK {
      ReadBe32(word, 0, KindCode(kind) * KIND_UNIT + bodyLen);
    }
  }

  /**
   On the wire: the kind in the top five bits of the first byte, the length in the three bits
   below them and the three bytes that follow, most significant first.
   */
  lemma ControlWordBytes(kind: WireKind, bodyLen: nat)
    requires bodyLen <= CONTROL_BODY_LEN_MASK
    ensures ControlWord(kind, bodyLen) ==
      [8 * KindCode(kind) + bodyLen / 0x100_0000, bodyLen / 0x1_0000 % 256, bodyLen / 0x100 % 256, bodyLen % 256]
  {
    var n := KindCode(kind) * KIND_UNIT + bodyLen;
    LengthDigits(bodyLen);
    var top := 8 * KindCode(kind) + bodyLen / 0x100_0000;
    var w := [top, bodyLen / 0x1_0000 % 256, bodyLen / 0x100 % 256, bodyLen % 256];
    U32Bytes(w, 0);
    ReadBe32(w, 0, n);
    assert w[0..4] == w;
  }

  lemma LengthDigits(len: nat)
    requires len <= CONTROL_BODY_LEN_MASK
    ensures len / 0x100_0000 < 8
    ensures len == 0x100_0000 * (len / 0x100_0000) + 0x1_0000 * (len / 0x1_0000 % 256) +
                   0x100 * (len / 0x100 % 256) + len % 256
  {
    assert len / 0x100 / 256 == len / 0x1_0000;
    assert len / 0x1_0000 / 256 == len / 0x100_0000;
  }

  /** The kinds in the order of their numbers; every other number is unknown. */
  lemma WireNumbers(code: nat)
    ensures var kinds := [
        Gossip, Ask, Response, ActorTell, ActorAsk, StreamStart, StreamData, StreamResponseStart, StreamResponseData,
        DirectAsk, DirectResponse, PubSub, StreamAbort, RouteBind, RoutedActorAsk];
      |kinds| == 15 && KindFromU8(code) == (if code < 15 then Some(kinds[code]) else None) &&
      forall k | 0 <= k < 15 :: KindCode(kinds[k]) == k
  {
  }

  // ---------------------------------------------------------------- headers

  /** A control word followed by the fixed fields of a frame whose payload has `payloadLen` bytes. */
  function Header(kind: WireKind, fields: Bytes, payloadLen: Usize): Result<Bytes, FrameError>
    requires |fields| < U64_LIMIT
  {
    match TryCheckedBodyLen(|fields|, payloadLen)
    case Err(e) => Err(e)
    case Ok(bodyLen) => Ok(ControlWord(kind, bodyLen) + fields)
  }

  datatype NackReason = Unsupported | UnknownActor | HandlerError | NoDispatcher | Backpressure

  function NackCode(r: NackReason): U8 {
    match r
    case Unsupported => 0
    case UnknownActor => 1
    case HandlerError => 2
    case NoDispatcher => 3
    case Backpressure => 4
  }

  function NackFromU8(code: U8): NackReason {
    match code
    case 1 => UnknownActor
    case 2 => HandlerError
    case 3 => NoDispatcher
    case 4 => Backpressure
    case _ => Unsupported
  }

  /** The refusals in the order of their numbers; any other number reads as the first. */
  lemma NackNumbers(code: U8)
    ensures var reasons := [Unsupported, UnknownActor, HandlerError, NoDispatcher, Backpressure];
      NackFromU8(code) == reasons[if code < 5 then code else 0] && forall k | 0 <= k < 5 :: NackCode(reasons[k]) == k
  {
  }

  /** `ask_nack_reason`, over the bytes after the control word. */
  function AskNackReason(body: Bytes): Option<NackReason> {
    if |body| < 12 then None
    else if body[4] != 1 then None
    else Some(NackFromU8(body[5]))
  }

  /** `direct_ask_request_id`. */
  function DirectAskRequestId(body: Bytes): Option<U64> {
    if |body| < 12 then None
    else if U64At(body, 4) == 0 then None
    else Some(U64At(body, 4))
  }

  // ---------------------------------------------------------------- messages

  /** What a writer is asked to put on the wire. */
  datatype Message =
    | MGossip(payload: Bytes)
    | MAsk(correlation: U32, payload: Bytes)
    | MResponse(correlation: U32, payload: Bytes)
    | MNack(correlation: U32, reason: NackReason)
    | MActorTell(actor: U64, typeHash: U32, payload: Bytes)
    | MActorAsk(correlation: U32, actor: U64, typeHash: U32, request: Option<U64>, payload: Bytes)
    | MRouteBind(slot: U32, actor: U64, typeHash: U32)
    | MRoutedActorAsk(correlation: U32, slot: U32, payload: Bytes)
    | MDirectAsk(correlation: U32, requestId: U64, payload: Bytes)
    | MDirectResponse(correlation: U32, payload: Bytes)
    | MPubSub(payload: Bytes)
    | MStreamStart(stream: U32, correlation: U32, total: U32, actor: U64, typeHash: U32, payload: Bytes)
    | MStreamResponseStart(stream: U32, correlation: U32, total: U32, payload: Bytes)
    | MStreamData(response: bool, stream: U32, chunk: U32, payload: Bytes)
    | MStreamAbort(stream: U32, abortReason: U32)

  function KindOf(m: Message): WireKind {
    match m
    case MGossip(_) => Gossip
    case MAsk(_, _) => Ask
    case MResponse(_, _) => Response
    case MNack(_, _) => Response
    case MActorTell(_, _, _) => ActorTell
    case MActorAsk(_, _, _, _, _) => ActorAsk
    case MRouteBind(_, _, _) => RouteBind
    case MRoutedActorAsk(_, _, _) => RoutedActorAsk
    case MDirectAsk(_, _, _) => DirectAsk
    case MDirectResponse(_, _) => DirectResponse
    case MPubSub(_) => PubSub
    case MStreamStart(_, _, _, _, _, _) => StreamStart
    case MStreamResponseStart(_, _, _, _) => StreamResponseStart
    case MStreamData(response, _, _, _) => if response then StreamResponseData else StreamData
    case MStreamAbort(_, _) => StreamAbort
  }

  /** The fixed fields, one after the other. */
  function Fields(m: Message): (f: Bytes)
    ensures |f| <= 28
  {
    match m
    case MGossip(_) => Zeros(12)
    case MAsk(corr, _) => Be32(corr) + Zeros(8)
    case MResponse(corr, _) => Be32(corr) + Zeros(8)
    case MNack(corr, reason) => Be32(corr) + [1, NackCode(reason)] + Zeros(6)
    case MActorTell(actor, hash, _) => Be64(actor) + Be32(hash)
    case MActorAsk(corr, actor, hash, request, _) =>
      Be32(corr) + Be64(actor) + Be32(hash) + Be64(if request.Some? then request.value else 0) + Zeros(4)
    case MRouteBind(slot, actor, hash) => Be32(slot) + Be64(actor) + Be32(hash) + Zeros(4)
    case MRoutedActorAsk(corr, slot, _) => Be32(corr) + Be32(slot) + Zeros(4)
    case MDirectAsk(corr, request, _) => Be32(corr) + Be64(request)
    case MDirectResponse(corr, _) => Be32(corr) + Zeros(8)
    case MPubSub(_) => Zeros(12)
    case MStreamStart(stream, corr, total, actor, hash, _) =>
      Be32(stream) + Be32(corr) + Be32(total) + Be64(actor) + Be32(hash)
    case MStreamResponseStart(stream, corr, total, _) => Be32(stream) + Be32(corr) + Be32(total)
    case MStreamData(_, stream, chunk, _) => Be32(stream) + Be32(chunk)
    case MStreamAbort(stream, reason) => Be32(stream) + Be32(reason)
  }

  function PayloadOf(m: Message): Bytes {
    match m
    case MNack(_, _) => []
    case MRouteBind(_, _, _) => []
    case MStreamAbort(_, _) => []
    case _ => m.payload
  }

  /** A payload is a buffer, so its length is a `usize`. */
  predicate InMemory(m: Message) { |PayloadOf(m)| < U64_LIMIT }

  /** The frame a writer emits: its header followed by the payload. */
  function TryEncode(m: Message): Result<Bytes, FrameError>
    requires InMemory(m)
  {
    if m.MActorAsk? && m.request == Some(0) then Err(InvalidConfig)
    else
      match Header(KindOf(m), Fields(m), |PayloadOf(m)|)
      case Err(e) => Err(e)
      case Ok(header) => Ok(header + PayloadOf(m))
  }

  /** A frame is its header and then its payload; a refused header is a refused frame. */
  function Followed(header: Result<Bytes, FrameError>, payload: Bytes): Result<Bytes, FrameError> {
    match header
    case Err(e) => Err(e)
    case Ok(h) => Ok(h + payload)
  }

  /**
   A message can be framed exactly when its ask does not carry the request id zero and its
   body fits twenty-seven bits; otherwise the refusal says which, the size as the source
   computes it.
   */
  lemma EncodeIff(m: Message)
    requires InMemory(m)
    ensures var size := |Fields(m)| + |PayloadOf(m)|;
      if m.MActorAsk? && m.request == Some(0) then TryEncode(m) == Err(InvalidConfig)
      else if size < 0x800_0000 then TryEncode(m).Ok? && |TryEncode(m).value| == 4 + size
      else TryEncode(m) == Err(MessageTooLarge(if size < U64_LIMIT then size else U64_LIMIT - 1, 0x7FF_FFFF))
  {
  }

  // ---------------------------------------------------------------- writers, in place

  /** `copy_from_slice` into part of a header. */
  method CopyInto(header: array<U8>, at: nat, field: Bytes)
    requires at + |field| <= header.Length
    modifies header
    ensures header[..] == old(header[..at]) + field + old(header[at + |field|..])
  {
    var i := 0;
    while i < |field|
      invariant i <= |field|
      invariant header[..at] == old(header[..at])
      invariant header[at..at + i] == field[..i]
      invariant header[at + i..] == old(header[at + i..])
    {
      header[at + i] := field[i];
      i := i + 1;
    }
    assert header[..] == header[..at] + header[at..at + i] + header[at + i..];
  }

  /** A header with some of its fields filled in and the rest still zero. */
  ghost function Laid(control: Bytes, fields: Bytes, len: nat): Bytes
    requires |control| + |fields| <= len
  {
    control + fields + Zeros(len - |control| - |fields|)
  }

  /** `init_header`: all zero but for the control word. */
  method InitHeader(len: nat, kind: WireKind, bodyLen: nat) returns (header: array<U8>)
    requires LENGTH_PREFIX_LEN <= len && bodyLen <= CONTROL_BODY_LEN_MASK
    ensures fresh(header) && header.Length == len && header[..] == Laid(ControlWord(kind, bodyLen), [], len)
  {
    header := new U8[len](i => 0);
    assert header[..] == Zeros(len);
    CopyInto(header, 0, TryEncodeControl(kind, bodyLen).value);
    assert header[..] == ControlWord(kind, bodyLen) + Zeros(len - LENGTH_PREFIX_LEN);
  }

  /** Fill the field at offset `at`, the next one after those already laid. */
  method PutField(header: array<U8>, at: nat, field: Bytes, ghost control: Bytes, ghost fields: Bytes)
    requires |control| + |fields| == at && at + |field| <= header.Length
    requires header[..] == Laid(control, fields, header.Length)
    modifies header
    ensures header[..] == Laid(control, if fields == [] then field else fields + field, header.Length)
  {
    CopyInto(header, at, field);
  }

  method TryWriteActorTellHeader(actor: U64, typeHash: U32, payloadLen: Usize)
    returns (r: Result<Bytes, FrameError>)
    ensures r == Header(ActorTell, Be64(actor) + Be32(typeHash), payloadLen)
    ensures forall p: Bytes | |p| == payloadLen ::
      TryEncode(MActorTell(actor, typeHash, p)) == Followed(r, p)
  {
    var bodyLen := TryCheckedBodyLen(12, payloadLen);
    if bodyLen.Err? { return Err(bodyLen.error); }
    var header := InitHeader(16, ActorTell, bodyLen.value);
    ghost var control := ControlWord(ActorTell, bodyLen.value);
    PutField(header, 4, Be64(actor), control, []);
    PutField(header, 12, Be32(typeHash), control, Be64(actor));
    assert header[..] == control + (Be64(actor) + Be32(typeHash));
    return Ok(header[..]);
  }

  /** The request id, when there is one, goes into the reserved bytes before the last four. */
  method TryWriteActorAskHeader(correlation: U32, actor: U64, typeHash: U32, payloadLen: Usize, request: Option<U64>)
    returns (r: Result<Bytes, FrameError>)
    ensures r ==
      if request == Some(0) then Err(InvalidConfig)
      else Header(ActorAsk, Fields(MActorAsk(correlation, actor, typeHash, request, [])), payloadLen)
    ensures forall p: Bytes | |p| == payloadLen ::
      TryEncode(MActorAsk(correlation, actor, typeHash, request, p)) == Followed(r, p)
  {
    if request == Some(0) { return Err(InvalidConfig); }
    var bodyLen := TryCheckedBodyLen(28, payloadLen);
    if bodyLen.Err? { return Err(bodyLen.error); }
    var header := InitHeader(32, ActorAsk, bodyLen.value);
    ghost var control := ControlWord(ActorAsk, bodyLen.value);
    PutField(header, 4, Be32(correlation), control, []);
    PutField(header, 8, Be64(actor), control, Be32(correlation));
    PutField(header, 16, Be32(typeHash), control, Be32(correlation) + Be64(actor));
    ghost var named := Be32(correlation) + Be64(actor) + Be32(typeHash);
    if request.Some? {
      PutField(header, 20, Be64(request.value), control, named);
    } else {
      ZeroIsZeros(8);
      assert header[..] == Laid(control, named + Be64(0), 32);
    }
    assert header[..] == control + Fields(MActorAsk(correlation, actor, typeHash, request, []));
    return Ok(header[..]);
  }

  lemma {:induction false} ZeroIsZeros(width: nat)
    ensures Be(0, width) == Zeros(width)
  {
    if width != 0 { ZeroIsZeros(width - 1); }
  }

  method TryWriteRoutedActorAskHeader(correlation: U32, slot: U32, payloadLen: Usize)
    returns (r: Result<Bytes, FrameError>)
    ensures r == Header(RoutedActorAsk, Be32(correlation) + Be32(slot) + Zeros(4), payloadLen)
    ensures forall p: Bytes | |p| == payloadLen ::
      TryEncode(MRoutedActorAsk(correlation, slot, p)) == Followed(r, p)
  {
    var bodyLen := TryCheckedBodyLen(12, payloadLen);
    if bodyLen.Err? { return Err(bodyLen.error); }
    var header := InitHeader(16, RoutedActorAsk, bodyLen.value);
    ghost var control := ControlWord(RoutedActorAsk, bodyLen.value);
    PutField(header, 4, Be32(correlation), control, []);
    PutField(header, 8, Be32(slot), control, Be32(correlation));
    assert header[..] == control + (Be32(correlation) + Be32(slot) + Zeros(4));
    return Ok(header[..]);
  }

  method WriteRouteBindHeader(slot: U32, actor: U64, typeHash: U32) returns (frame: Bytes)
    ensures Ok(frame) == TryEncode(MRouteBind(slot, actor, typeHash))
  {
    var header := InitHeader(24, RouteBind, 20);
    ghost var control := ControlWord(RouteBind, 20);
    PutField(header, 4, Be32(slot), control, []);
    PutField(header, 8, Be64(actor), control, Be32(slot));
    PutField(header, 16, Be32(typeHash), control, Be32(slot) + Be64(actor));
    assert header[..] == control + Fields(MRouteBind(slot, actor, typeHash)) + [];
    return header[..];
  }

  /** Serves asks and responses; the source panics on any other message type. */
  method TryWriteAskResponseHeader(kind: WireKind, correlation: U32, payloadLen: Usize)
    returns (r: Result<Bytes, FrameError>)
    requires kind.Ask? || kind.Response?
    ensures r == Header(kind, Be32(correlation) + Zeros(8), payloadLen)
    ensures forall p: Bytes | |p| == payloadLen ::
      TryEncode(if kind.Ask? then MAsk(correlation, p) else MResponse(correlation, p)) == Followed(r, p)
  {
    var bodyLen := TryCheckedBodyLen(12, payloadLen);
    if bodyLen.Err? { return Err(bodyLen.error); }
    var header := InitHeader(16, kind, bodyLen.value);
    ghost var control := ControlWord(kind, bodyLen.value);
    PutField(header, 4, Be32(correlation), control, []);
    assert header[..] == control + (Be32(correlation) + Zeros(8));
    return Ok(header[..]);
  }

  /** A response frame with no payload and the refusal packed into the reserved bytes. */
  method TryWriteAskNackHeader(correlation: U32, reason: NackReason) returns (r: Result<Bytes, FrameError>)
    ensures r == TryEncode(MNack(correlation, reason))
  {
    var header := InitHeader(16, Response, 12);
    ghost var control := ControlWord(Response, 12);
    PutField(header, 4, Be32(correlation), control, []);
    header[8] := 1;
    header[9] := NackCode(reason);
    assert header[..] == control + Fields(MNack(correlation, reason)) + [];
    return Ok(header[..]);
  }

  method TryWriteDirectAskHeader(correlation: U32, requestId: U64, payloadLen: Usize)
    returns (r: Result<Bytes, FrameError>)
    ensures r == Header(DirectAsk, Be32(correlation) + Be64(requestId), payloadLen)
    ensures forall p: Bytes | |p| == payloadLen ::
      TryEncode(MDirectAsk(correlation, requestId, p)) == Followed(r, p)
  {
    var bodyLen := TryCheckedBodyLen(12, payloadLen);
    if bodyLen.Err? { return Err(bodyLen.error); }
    var header := InitHeader(16, DirectAsk, bodyLen.value);
    ghost var control := ControlWord(DirectAsk, bodyLen.value);
    PutField(header, 4, Be32(correlation), control, []);
    PutField(header, 8, Be64(requestId), control, Be32(correlation));
    assert header[..] == control + (Be32(correlation) + Be64(requestId));
    return Ok(header[..]);
  }

  method TryWriteDirectResponseHeader(correlation: U32, payloadLen: Usize)
    returns (r: Result<Bytes, FrameError>)
    ensures r == Header(DirectResponse, Be32(correlation) + Zeros(8), payloadLen)
    ensures forall p: Bytes | |p| == payloadLen ::
      TryEncode(MDirectResponse(correlation, p)) == Followed(r, p)
  {
    var bodyLen := TryCheckedBodyLen(12, payloadLen);
    if bodyLen.Err? { return Err(bodyLen.error); }
    var header := InitHeader(16, DirectResponse, bodyLen.value);
    ghost var control := ControlWord(DirectResponse, bodyLen.value);
    PutField(header, 4, Be32(correlation), control, []);
    assert header[..] == control + (Be32(correlation) + Zeros(8));
    return Ok(header[..]);
  }

  method TryWriteReservedPrefix(kind: WireKind, payloadLen: Usize) returns (r: Result<Bytes, FrameError>)
    requires kind.Gossip? || kind.PubSub?
    ensures r == Header(kind, Zeros(12), payloadLen)
    ensures forall p: Bytes | |p| == payloadLen ::
      TryEncode(if kind.Gossip? then MGossip(p) else MPubSub(p)) == Followed(r, p)
  {
    var bodyLen := TryCheckedBodyLen(12, payloadLen);
    if bodyLen.Err? { return Err(bodyLen.error); }
    var header := InitHeader(16, kind, bodyLen.value);
    assert header[..] == ControlWord(kind, bodyLen.value) + Zeros(12);
    return Ok(header[..]);
  }

  method TryWriteStreamRequestStartHeader(stream: U32, correlation: U32, total: U32, actor: U64, typeHash: U32,
    payloadLen: Usize)
    returns (r: Result<Bytes, FrameError>)
    ensures r == Header(StreamStart, Be32(stream) + Be32(correlation) + Be32(total) + Be64(actor) + Be32(typeHash),
      payloadLen)
    ensures forall p: Bytes | |p| == payloadLen ::
      TryEncode(MStreamStart(stream, correlation, total, actor, typeHash, p)) == Followed(r, p)
  {
    var bodyLen := TryCheckedBodyLen(24, payloadLen);
    if bodyLen.Err? { return Err(bodyLen.error); }
    var header := InitHeader(28, StreamStart, bodyLen.value);
    ghost var control := ControlWord(StreamStart, bodyLen.value);
    PutField(header, 4, Be32(stream), control, []);
    PutField(header, 8, Be32(correlation), control, Be32(stream));
    PutField(header, 12, Be32(total), control, Be32(stream) + Be32(correlation));
    PutField(header, 16, Be64(actor), control, Be32(stream) + Be32(correlation) + Be32(total));
    PutField(header, 24, Be32(typeHash), control, Be32(stream) + Be32(correlation) + Be32(total) + Be64(actor));
    assert header[..] == control + (Be32(stream) + Be32(correlation) + Be32(total) + Be64(actor) + Be32(typeHash));
    return Ok(header[..]);
  }

  method TryWriteStreamResponseStartHeader(stream: U32, correlation: U32, total: U32, payloadLen: Usize)
    returns (r: Result<Bytes, FrameError>)
    ensures r == Header(StreamResponseStart, Be32(stream) + Be32(correlation) + Be32(total), payloadLen)
    ensures forall p: Bytes | |p| == payloadLen ::
      TryEncode(MStreamResponseStart(stream, correlation, total, p)) == Followed(r, p)
  {
    var bodyLen := TryCheckedBodyLen(12, payloadLen);
    if bodyLen.Err? { return Err(bodyLen.error); }
    var header := InitHeader(16, StreamResponseStart, bodyLen.value);
    ghost var control := ControlWord(StreamResponseStart, bodyLen.value);
    PutField(header, 4, Be32(stream), control, []);
    PutField(header, 8, Be32(correlation), control, Be32(stream));
    PutField(header, 12, Be32(total), control, Be32(stream) + Be32(correlation));
    assert header[..] == control + (Be32(stream) + Be32(correlation) + Be32(total));
    return Ok(header[..]);
  }

  method TryWriteStreamDataHeader(response: bool, stream: U32, chunk: U32, payloadLen: Usize)
    returns (r: Result<Bytes, FrameError>)
    ensures r == Header((if response then StreamResponseData else StreamData), Be32(stream) + Be32(chunk), payloadLen)
    ensures forall p: Bytes | |p| == payloadLen ::
      TryEncode(MStreamData(response, stream, chunk, p)) == Followed(r, p)
  {
    var bodyLen := TryCheckedBodyLen(8, payloadLen);
    if bodyLen.Err? { return Err(bodyLen.error); }
    var header := InitHeader(12, (if response then StreamResponseData else StreamData), bodyLen.value);
    ghost var control := ControlWord((if response then StreamResponseData else StreamData), bodyLen.value);
    PutField(header, 4, Be32(stream), control, []);
    PutField(header, 8, Be32(chunk), control, Be32(stream));
    assert header[..] == control + (Be32(stream) + Be32(chunk));
    return Ok(header[..]);
  }

  method WriteStreamAbortHeader(stream: U32, reason: U32) returns (frame: Bytes)
    ensures Ok(frame) == TryEncode(MStreamAbort(stream, reason))
  {
    var header := InitHeader(12, StreamAbort, 8);
    ghost var control := ControlWord(StreamAbort, 8);
    PutField(header, 4, Be32(stream), control, []);
    PutField(header, 8, Be32(reason), control, Be32(stream));
    assert header[..] == control + Fields(MStreamAbort(stream, reason)) + [];
    return header[..];
  }
}
