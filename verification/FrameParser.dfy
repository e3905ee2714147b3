/** Parsing one complete V5 frame, with the route bindings of its connection. */
module FrameParser {
  import opened Common
  import opened BigEndian
  import opened Framing
  import Routes

  const PAYLOAD_ALIGNMENT: nat := 16

  const TYPE_ACTOR_TELL: U8 := 3
  const TYPE_ACTOR_ASK: U8 := 4
  const TYPE_STREAM_START: U8 := 0x10
  const TYPE_STREAM_DATA: U8 := 0x11
  const TYPE_STREAM_RESPONSE_START: U8 := 0x13
  const TYPE_STREAM_RESPONSE_DATA: U8 := 0x14

  datatype StreamHeader = StreamHeader(
    stream: U64, total: U64, chunkSize: U32, chunkIndex: U32, typeHash: U32, actor: U64)

  /** What a frame delivers; `R` stands for a decoded registry message. */
  datatype ReadResult<R> =
    | RouteBound
    | Registry(message: R, asked: Option<U32>)
    | AskRaw(correlation: U32, payload: Bytes)
    | Answer(correlation: U32, payload: Bytes)
    | AskNack(correlation: U32, reason: NackReason)
    | Raw(bytes: Bytes)
    | Published(payload: Bytes)
    | Actor(msgType: U8, correlation: U32, actor: U64, typeHash: U32, request: Option<U64>, payload: Bytes)
    | Streaming(msgType: U8, correlation: U32, header: StreamHeader, chunk: Bytes)
    | Aborted(stream: U64, abortReason: U32)
    | Direct(correlation: U32, requestId: U64, payload: Bytes)
    | DirectAnswer(correlation: U32, payload: Bytes)

  type Outcome<R> = Result<ReadResult<R>, FrameError>

  function Invalid<R>(why: string): Outcome<R> { Err(InvalidFrame(why)) }

  predicate AllZero(b: Bytes) { forall i | 0 <= i < |b| :: b[i] == 0 }

  /** `from_pooled_buffer_range` on a buffer whose start is aligned. */
  function PayloadRange(buffer: Bytes, offset: nat, len: nat): Result<Bytes, FrameError> {
    if |buffer| < offset + len then Err(InvalidFrame("payload range out of bounds"))
    else if len == 0 then Ok([])
    else if offset % PAYLOAD_ALIGNMENT != 0 then Err(InvalidFrame("misaligned payload buffer"))
    else Ok(buffer[offset..offset + len])
  }

  // ---------------------------------------------------------------- one kind at a time
  // `f` is the whole frame; its body starts after the control word.

  function Body(f: Bytes): Bytes
    requires LENGTH_PREFIX_LEN <= |f|
  {
    f[LENGTH_PREFIX_LEN..]
  }

  function ParseActorTell<R>(f: Bytes): Outcome<R>
    requires 4 <= |f|
  {
    var b := Body(f);
    if |b| < 12 then Invalid("truncated actor tell")
    else
      match PayloadRange(f, 16, |b| - 12)
      case Err(e) => Err(e)
      case Ok(payload) => Ok(Actor(TYPE_ACTOR_TELL, 0, U64At(b, 0), U32At(b, 8), None, payload))
  }

  function ParseActorAsk<R>(f: Bytes): Outcome<R>
    requires 4 <= |f|
  {
    var b := Body(f);
    if |b| < 28 then Invalid("truncated actor ask")
    else if U32At(b, 0) == 0 then Invalid("actor ask has zero correlation id")
    else if !AllZero(b[24..28]) then Invalid("noncanonical actor ask padding")
    else
      match PayloadRange(f, 32, |b| - 28)
      case Err(e) => Err(e)
      case Ok(payload) =>
        var request := U64At(b, 16);
        Ok(Actor(TYPE_ACTOR_ASK, U32At(b, 0), U64At(b, 4), U32At(b, 12),
                 if request != 0 then Some(request) else None, payload))
  }

  function ParseRoutedActorAsk<R>(f: Bytes, routes: Option<Routes.Table>): Outcome<R>
    requires 4 <= |f|
  {
    var b := Body(f);
    if |b| < 12 then Invalid("truncated routed actor ask")
    else if U32At(b, 0) == 0 then Invalid("routed actor ask has zero correlation id")
    else if !AllZero(b[8..12]) then Invalid("noncanonical routed ask padding")
    else if routes.None? then Invalid("routed ask before connection setup")
    else
      match Routes.Resolve(routes.value, U32At(b, 4))
      case None => Invalid("unknown route slot")
      case Some(key) =>
        match PayloadRange(f, 16, |b| - 12)
        case Err(e) => Err(e)
        case Ok(payload) => Ok(Actor(TYPE_ACTOR_ASK, U32At(b, 0), key.actor, key.typeHash, None, payload))
  }

  function BindKey(b: Bytes): Routes.RouteKey
    requires 20 <= |b|
  {
    Routes.RouteKey(U64At(b, 4), U32At(b, 12))
  }

  function ParseRouteBind<R>(f: Bytes, routes: Option<Routes.Table>): Outcome<R>
    requires 4 <= |f|
  {
    var b := Body(f);
    if |b| != 20 then Invalid("invalid route bind length")
    else if !AllZero(b[16..20]) then Invalid("noncanonical route bind padding")
    else if routes.None? then Invalid("route bind before connection setup")
    else if !Routes.Accepts(routes.value, U32At(b, 0), BindKey(b)) then Invalid("conflicting route bind")
    else Ok(RouteBound)
  }

  function ParseAsk<R>(f: Bytes, decode: Bytes -> Option<R>): Outcome<R>
    requires 4 <= |f|
  {
    var b := Body(f);
    if |b| < 12 then Invalid("truncated ask")
    else
      match decode(f[16..])
      case Some(message) => Ok(Registry(message, Some(U32At(b, 0))))
      case None =>
        match PayloadRange(f, 16, |b| - 12)
        case Err(e) => Err(e)
        case Ok(payload) => Ok(AskRaw(U32At(b, 0), payload))
  }

  function ParseResponse<R>(f: Bytes): Outcome<R>
    requires 4 <= |f|
  {
    var b := Body(f);
    if |b| < 12 then Invalid("truncated response")
    else
      match AskNackReason(b)
      case Some(reason) => Ok(AskNack(U32At(b, 0), reason))
      case None =>
        match PayloadRange(f, 16, |b| - 12)
        case Err(e) => Err(e)
        case Ok(payload) => Ok(Answer(U32At(b, 0), payload))
  }

  function ParseDirectAsk<R>(f: Bytes): Outcome<R>
    requires 4 <= |f|
  {
    var b := Body(f);
    if |b| < 12 then Invalid("truncated direct ask")
    else
      match DirectAskRequestId(b)
      case None => Invalid("direct ask missing a nonzero request_id")
      case Some(request) =>
        match PayloadRange(f, 16, |b| - 12)
        case Err(e) => Err(e)
        case Ok(payload) => Ok(Direct(U32At(b, 0), request, payload))
  }

  function ParseDirectResponse<R>(f: Bytes): Outcome<R>
    requires 4 <= |f|
  {
    var b := Body(f);
    if |b| < 12 then Invalid("truncated direct response")
    else
      match PayloadRange(f, 16, |b| - 12)
      case Err(e) => Err(e)
      case Ok(payload) => Ok(DirectAnswer(U32At(b, 0), payload))
  }

  function ParsePubSub<R>(f: Bytes): Outcome<R>
    requires 4 <= |f|
  {
    var b := Body(f);
    if |b| < 12 then Invalid("truncated pubsub")
    else
      match PayloadRange(f, 16, |b| - 12)
      case Err(e) => Err(e)
      case Ok(payload) => Ok(Published(payload))
  }

  function ParseGossip<R>(f: Bytes, decode: Bytes -> Option<R>): Outcome<R>
    requires 4 <= |f|
  {
    var b := Body(f);
    if |b| < 12 then Invalid("truncated gossip")
    else
      match decode(f[16..])
      case Some(message) => Ok(Registry(message, None))
      case None => Ok(Raw(b))
  }

  function ChunkSize(chunk: Bytes): U32 { |chunk| % U32_LIMIT }

  function ParseStreamStart<R>(f: Bytes): Outcome<R>
    requires 4 <= |f|
  {
    var b := Body(f);
    if |b| < 24 then Invalid("truncated stream start")
    else
      var chunk := f[28..];
      Ok(Streaming(TYPE_STREAM_START, U32At(b, 4),
                   StreamHeader(U32At(b, 0), U32At(b, 8), ChunkSize(chunk), 0, U32At(b, 20), U64At(b, 12)), chunk))
  }

  function ParseStreamResponseStart<R>(f: Bytes): Outcome<R>
    requires 4 <= |f|
  {
    var b := Body(f);
    if |b| < 12 then Invalid("truncated stream response start")
    else
      var chunk := f[16..];
      Ok(Streaming(TYPE_STREAM_RESPONSE_START, U32At(b, 4),
                   StreamHeader(U32At(b, 0), U32At(b, 8), ChunkSize(chunk), 0, 0, 0), chunk))
  }

  function ParseStreamData<R>(f: Bytes, response: bool): Outcome<R>
    requires 4 <= |f|
  {
    var b := Body(f);
    if |b| < 8 then Invalid("truncated stream data")
    else
      var chunk := f[12..];
      Ok(Streaming(if response then TYPE_STREAM_RESPONSE_DATA else TYPE_STREAM_DATA, 0,
                   StreamHeader(U32At(b, 0), 0, ChunkSize(chunk), U32At(b, 4), 0, 0), chunk))
  }

  function ParseStreamAbort<R>(f: Bytes): Outcome<R>
    requires 4 <= |f|
  {
    var b := Body(f);
    if |b| != 8 then Invalid("invalid stream abort length") else Ok(Aborted(U32At(b, 0), U32At(b, 4)))
  }

  function ParseKind<R>(kind: WireKind, f: Bytes, routes: Option<Routes.Table>, decode: Bytes -> Option<R>): Outcome<R>
    requires 4 <= |f|
  {
    match kind
    case ActorTell => ParseActorTell(f)
    case ActorAsk => ParseActorAsk(f)
    case RouteBind => ParseRouteBind(f, routes)
    case RoutedActorAsk => ParseRoutedActorAsk(f, routes)
    case Ask => ParseAsk(f, decode)
    case Response => ParseResponse(f)
    case DirectAsk => ParseDirectAsk(f)
    case DirectResponse => ParseDirectResponse(f)
    case PubSub => ParsePubSub(f)
    case Gossip => ParseGossip(f, decode)
    case StreamStart => ParseStreamStart(f)
    case StreamResponseStart => ParseStreamResponseStart(f)
    case StreamData => ParseStreamData(f, false)
    case StreamResponseData => ParseStreamData(f, true)
    case StreamAbort => ParseStreamAbort(f)
  }

  /** `parse_message_from_pooled_buffer_with_routes`, on a buffer of one control word and `msgLen` bytes. */
  function Parse<R>(f: Bytes, msgLen: nat, routes: Option<Routes.Table>, decode: Bytes -> Option<R>): Outcome<R>
    requires |f| == LENGTH_PREFIX_LEN + msgLen
  {
    match DecodeControl(f[..LENGTH_PREFIX_LEN])
    case None => Invalid("unknown wire kind")
    case Some(control) =>
      if control.bodyLen != msgLen then Invalid("control/body length mismatch")
      else ParseKind(control.kind, f, routes, decode)
  }

  /** The route table after the frame: only an accepted binding changes it. */
  function RoutesAfter(f: Bytes, routes: Option<Routes.Table>): Option<Routes.Table>
    requires 4 <= |f|
  {
    var b := Body(f);
    if routes.Some? && DecodeControl(f[..4]) == Some(Control(RouteBind, 20)) && |b| == 20 && AllZero(b[16..20])
    then Some(Routes.Bound(routes.value, U32At(b, 0), BindKey(b)))
    else routes
  }
}
