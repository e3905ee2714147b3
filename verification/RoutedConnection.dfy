/**
 Compact asks refine the long form: a sender that interns routes and a receiver that learns
 them from the same frames agree on every ask, whatever enqueues fail in between.
 */
module RoutedConnection {
  import opened Common
  import opened Framing
  import opened FrameParser
  import opened Codec
  import BigEndian
  import Routes

  // ---------------------------------------------------------------- one slot, any history

  lemma FrameRoutes(m: Message, f: Bytes, routes: Option<Routes.Table>)
    requires Framed(m, f)
    ensures |f| >= 4
    ensures RoutesAfter(f, routes) ==
      if m.MRouteBind? && routes.Some?
      then Some(Routes.Bound(routes.value, m.slot, Routes.RouteKey(m.actor, m.typeHash)))
      else routes
  {
    FrameShape(m, f);
    if m.MRouteBind? { RouteBindFields(m, f); }
  }

  /** The route table after a whole history of frames, well-formed or not. */
  function RoutesAfterAll(history: seq<Bytes>, t: Routes.Table): Routes.Table
    requires forall i | 0 <= i < |history| :: 4 <= |history[i]|
  {
    if history == [] then t
    else
      var before := RoutesAfterAll(history[..|history| - 1], t);
      match RoutesAfter(history[|history| - 1], Some(before))
      case Some(after) => after
      case None => before
  }

  /** No frame ever changes what a bound slot stands for. */
  lemma {:induction false} HistoryKeepsSlot(history: seq<Bytes>, t: Routes.Table, slot: U32)
    requires forall i | 0 <= i < |history| :: 4 <= |history[i]|
    requires Routes.Inverse(t) && slot in t.bySlot
    ensures Routes.Inverse(RoutesAfterAll(history, t))
    ensures Routes.Resolve(RoutesAfterAll(history, t), slot) == Routes.Resolve(t, slot)
  {
    if history != [] {
      var n := |history| - 1;
      HistoryKeepsSlot(history[..n], t, slot);
      var before := RoutesAfterAll(history[..n], t);
      var b := Body(history[n]);
      if |b| == 20 { Routes.BindKeeps(before, BigEndian.U32At(b, 0), BindKey(b)); }
    }
  }

  /**
   Once a binding was accepted, and after any further frames at all, a compact ask on that
   slot is delivered as the long ask naming the bound actor and type.
   */
  lemma CompactRefinesLong<R>(
      t: Routes.Table, bind: Message, history: seq<Bytes>, compact: Message, long: Message,
      f: Bytes, g: Bytes, decode: Bytes -> Option<R>)
    requires Routes.Inverse(t) && (forall i | 0 <= i < |history| :: 4 <= |history[i]|)
    requires bind.MRouteBind? && Routes.Accepts(t, bind.slot, Routes.RouteKey(bind.actor, bind.typeHash))
    requires compact.MRoutedActorAsk? && compact.slot == bind.slot && compact.correlation != 0
    requires long == MActorAsk(compact.correlation, bind.actor, bind.typeHash, None, compact.payload)
    requires Framed(compact, f) && Framed(long, g)
    ensures var t1 := Routes.Bound(t, bind.slot, Routes.RouteKey(bind.actor, bind.typeHash));
      var now := Some(RoutesAfterAll(history, t1));
      4 <= |f| && 4 <= |g| && Parse(f, |f| - 4, now, decode).Ok? &&
      Parse(f, |f| - 4, now, decode) == Parse(g, |g| - 4, now, decode)
  {
    var key := Routes.RouteKey(bind.actor, bind.typeHash);
    var t1 := Routes.Bound(t, bind.slot, key);
    Routes.BindKeeps(t, bind.slot, key);
    HistoryKeepsSlot(history, t1, bind.slot);
    var now := Some(RoutesAfterAll(history, t1));
    RoundTrip(compact, f, now, decode);
    RoundTrip(long, g, now, decode);
  }

  // ---------------------------------------------------------------- sender and receiver together

  /** A routed ask, with what its two enqueues will answer. */
  datatype RoutedAsk = RoutedAsk(
    correlation: U32, key: Routes.RouteKey, request: Option<U64>, payload: Bytes, bindQueued: bool, askQueued: bool)

  datatype Sender = Sender(table: Routes.Table, next: U32)

  /** What one ask leaves behind: the sender's state and the messages that reached the write queue. */
  datatype Sent = Sent(sender: Sender, queued: seq<Message>)

  function Queue(m: Message, accepted: bool): seq<Message> {
    if accepted && InMemory(m) && TryEncode(m).Ok? then [m] else []
  }

  function LongForm(a: RoutedAsk): Message {
    MActorAsk(a.correlation, a.key.actor, a.key.typeHash, a.request, a.payload)
  }

  /** `write_routed_actor_ask`, with the write queue's answers as given. */
  function Send(s: Sender, a: RoutedAsk, max: nat): Sent {
    if max < (if a.request.Some? then 28 else 12) + |a.payload| then Sent(s, [])
    else if a.request.Some? then Sent(s, Queue(LongForm(a), a.askQueued))
    else
      match Routes.Allocated(s.table, s.next, a.key)
      case None =>
        if max < 28 + |a.payload| then Sent(s, []) else Sent(s, Queue(LongForm(a), a.askQueued))
      case Some(Slot(slot, needsBind)) =>
        var ask := MRoutedActorAsk(a.correlation, slot, a.payload);
        if !needsBind then Sent(s, Queue(ask, a.askQueued))
        else
          var bound := Routes.Insert(s.table, slot, a.key);
          if a.bindQueued
          then Sent(Sender(bound, s.next + 1),
                    [MRouteBind(slot, a.key.actor, a.key.typeHash)] + Queue(ask, a.askQueued))
          else Sent(Sender(Routes.Removed(bound, slot, a.key), s.next + 1), [])
  }

  /** Did the ask itself, compact or long, reach the queue? */
  predicate AskReached(sent: Sent) {
    sent.queued != [] && !sent.queued[|sent.queued| - 1].MRouteBind?
  }

  // ---------------------------------------------------------------- which asks get through

  /** How a connection stands without any table: the routes it knows and the slots it has given out. */
  datatype Standing = Standing(known: set<Routes.RouteKey>, next: U32, maxRoutes: nat)

  function StandingOf(s: Sender): Standing { Standing(s.table.byKey.Keys, s.next, s.table.maxRoutes) }

  /** In full, on a known route, or on a route that has to be introduced first. */
  datatype Form = InFull | OnRoute | Introducing

  function FormOf(k: Standing, a: RoutedAsk): Form {
    if a.request.Some? then InFull
    else if a.key in k.known then OnRoute
    else if |k.known| < k.maxRoutes && 0 < k.next < U32_LIMIT - 1 then Introducing
    else InFull
  }

  /** The bytes of an ask's frame after the control word. */
  function BodySize(form: Form, a: RoutedAsk): nat { (if form.InFull? then 28 else 12) + |a.payload| }

  /** Nothing but the limits on its frame and the answers of the write queue can stop an ask. */
  predicate GetsThrough(form: Form, a: RoutedAsk, max: nat) {
    && a.request != Some(0)
    && BodySize(form, a) <= max && BodySize(form, a) < 0x800_0000
    && a.askQueued && (form.Introducing? ==> a.bindQueued)
  }

  /** An introduction uses up a slot, and makes the route known if its binding is queued. */
  function Learned(k: Standing, a: RoutedAsk, max: nat): Standing {
    if !FormOf(k, a).Introducing? || max < BodySize(Introducing, a) then k
    else Standing(if a.bindQueued then k.known + {a.key} else k.known, k.next + 1, k.maxRoutes)
  }

  lemma QueuedIff(m: Message, accepted: bool)
    requires m.MActorAsk? || m.MRoutedActorAsk?
    ensures Queue(m, accepted) != [] <==>
      accepted && !(m.MActorAsk? && m.request == Some(0)) &&
      (if m.MActorAsk? then 28 else 12) + |m.payload| < 0x800_0000
  {
    if InMemory(m) { EncodeIff(m); }
  }

  /** An ask reaches the queue, compact or in full, exactly when it gets through. */
  lemma AskReachedIff(s: Sender, a: RoutedAsk, max: nat)
    requires SenderOk(s)
    ensures AskReached(Send(s, a, max)) <==> GetsThrough(FormOf(StandingOf(s), a), a, max)
  {
    QueuedIff(LongForm(a), a.askQueued);
    var slotted := Routes.Allocated(s.table, s.next, a.key);
    if slotted.Some? { QueuedIff(MRoutedActorAsk(a.correlation, slotted.value.slot, a.payload), a.askQueued); }
  }

  lemma SendLearns(s: Sender, a: RoutedAsk, max: nat)
    requires SenderOk(s)
    ensures StandingOf(Send(s, a, max).sender) == Learned(StandingOf(s), a, max)
  {
    var slotted := Routes.Allocated(s.table, s.next, a.key);
    if slotted.Some? && slotted.value.needsBind {
      FreshBinding(s, a.key);
      assert Routes.Insert(s.table, s.next, a.key).byKey.Keys == s.table.byKey.Keys + {a.key};
    }
  }

  ghost predicate SenderOk(s: Sender) {
    Routes.Inverse(s.table) && Routes.FreshAbove(s.table, s.next) && |s.table.byKey| <= s.table.maxRoutes
  }

  /** What the receiver has after some frames: its table and the asks delivered so far. */
  datatype Received<R> = Received(table: Routes.Table, asks: seq<ReadResult<R>>)

  function Deliver<R>(asks: seq<ReadResult<R>>, r: ReadResult<R>): seq<ReadResult<R>> {
    if r.RouteBound? then asks else asks + [r]
  }

  /** The receiver parses one more frame; `None` when it is refused. */
  function Take<R>(before: Received<R>, m: Message, decode: Bytes -> Option<R>): Option<Received<R>> {
    if !InMemory(m) || TryEncode(m).Err? then None
    else
      var f := TryEncode(m).value;
      FrameShape(m, f);
      FrameRoutes(m, f, Some(before.table));
      match Parse(f, |f| - 4, Some(before.table), decode)
      case Err(_) => None
      case Ok(r) => Some(Received(RoutesAfter(f, Some(before.table)).value, Deliver(before.asks, r)))
  }

  /** The receiver parses the queued frames in order. */
  function Receive<R>(before: Received<R>, queued: seq<Message>, decode: Bytes -> Option<R>): Option<Received<R>>
    decreases |queued|
  {
    if queued == [] then Some(before)
    else
      match Receive(before, queued[..|queued| - 1], decode)
      case None => None
      case Some(r) => Take(r, queued[|queued| - 1], decode)
  }

  lemma TakeOne<R>(before: Received<R>, m: Message, decode: Bytes -> Option<R>)
    requires InMemory(m) && TryEncode(m).Ok? && Deliverable(m, Some(before.table))
    ensures Expected(m, Some(before.table), decode).Ok?
    ensures Take(before, m, decode) == Some(Received(
      if m.MRouteBind? then Routes.Bound(before.table, m.slot, Routes.RouteKey(m.actor, m.typeHash)) else before.table,
      Deliver(before.asks, Expected(m, Some(before.table), decode).value)))
  {
    ExpectedIff(m, Some(before.table), decode);
    var f := TryEncode(m).value;
    assert Framed(m, f);
    RoundTrip(m, f, Some(before.table), decode);
    FrameRoutes(m, f, Some(before.table));
  }

  lemma ReceiveOne<R>(before: Received<R>, queued: seq<Message>, m: Message, decode: Bytes -> Option<R>)
    requires Receive(before, queued, decode).Some?
    ensures Receive(before, queued + [m], decode) == Take(Receive(before, queued, decode).value, m, decode)
  {
    assert (queued + [m])[..|queued + [m]| - 1] == queued;
  }

  /** A freshly allocated slot is one the receiver accepts, and both then hold the same table. */
  lemma FreshBinding(s: Sender, key: Routes.RouteKey)
    requires SenderOk(s) && Routes.Allocated(s.table, s.next, key).Some?
    requires Routes.Allocated(s.table, s.next, key).value.needsBind
    ensures Routes.Accepts(s.table, s.next, key)
    ensures Routes.Bound(s.table, s.next, key) == Routes.Insert(s.table, s.next, key)
    ensures SenderOk(Sender(Routes.Insert(s.table, s.next, key), s.next + 1))
    ensures SenderOk(Sender(s.table, s.next + 1))
    ensures Routes.Removed(Routes.Insert(s.table, s.next, key), s.next, key) == s.table
  {
    Routes.BindKeeps(s.table, s.next, key);
    Routes.RollbackUndoes(s.table, s.next, key);
  }

  /** What the receiver should hold once an ask was sent. */
  function AfterAsk<R>(sent: Sent, a: RoutedAsk, asks: seq<ReadResult<R>>, decode: Bytes -> Option<R>): Received<R> {
    Received(sent.sender.table, if AskReached(sent) then asks + [LongDelivery(a, decode)] else asks)
  }

  /** The long form of an ask, as the parser delivers it. */
  function LongDelivery<R>(a: RoutedAsk, decode: Bytes -> Option<R>): ReadResult<R> {
    match Expected(LongForm(a), None, decode)
    case Ok(r) => r
    case Err(_) => RouteBound
  }

  lemma QueuedAsk<R>(
      before: Received<R>, queued: seq<Message>, m: Message, a: RoutedAsk, decode: Bytes -> Option<R>)
    requires a.correlation != 0 && Receive(before, queued, decode).Some?
    requires m == LongForm(a) ||
      (a.request.None? && m.MRoutedActorAsk? && m.correlation == a.correlation && m.payload == a.payload &&
       Routes.Resolve(Receive(before, queued, decode).value.table, m.slot) == Some(a.key))
    ensures var r := Receive(before, queued, decode).value;
      Receive(before, queued + Queue(m, a.askQueued), decode) ==
      Some(if Queue(m, a.askQueued) != [] then r.(asks := r.asks + [LongDelivery(a, decode)]) else r)
  {
    if Queue(m, a.askQueued) != [] {
      ReceiveOne(before, queued, m, decode);
      TakeOne(Receive(before, queued, decode).value, m, decode);
    } else {
      assert queued + [] == queued;
    }
  }

  lemma QueuedBind<R>(before: Received<R>, queued: seq<Message>, s: Sender, key: Routes.RouteKey,
    decode: Bytes -> Option<R>)
    requires SenderOk(s) && Routes.Allocated(s.table, s.next, key).Some?
    requires Routes.Allocated(s.table, s.next, key).value.needsBind
    requires Receive(before, queued, decode).Some? && Receive(before, queued, decode).value.table == s.table
    ensures Receive(before, queued + [MRouteBind(s.next, key.actor, key.typeHash)], decode) ==
      Some(Receive(before, queued, decode).value.(table := Routes.Insert(s.table, s.next, key)))
  {
    var bind := MRouteBind(s.next, key.actor, key.typeHash);
    FreshBinding(s, key);
    ReceiveOne(before, queued, bind, decode);
    TakeOne(Receive(before, queued, decode).value, bind, decode);
  }

  lemma BindThenAsk<R>(
      before: Received<R>, queued: seq<Message>, s: Sender, a: RoutedAsk, decode: Bytes -> Option<R>)
    requires SenderOk(s) && a.correlation != 0 && a.request.None? && Routes.Allocated(s.table, s.next, a.key).Some?
    requires Routes.Allocated(s.table, s.next, a.key).value.needsBind
    requires Receive(before, queued, decode).Some? && Receive(before, queued, decode).value.table == s.table
    ensures var ask := Queue(MRoutedActorAsk(a.correlation, s.next, a.payload), a.askQueued);
      var asks := Receive(before, queued, decode).value.asks;
      Receive(before, queued + ([MRouteBind(s.next, a.key.actor, a.key.typeHash)] + ask), decode) ==
      Some(Received(Routes.Insert(s.table, s.next, a.key),
                    if ask != [] then asks + [LongDelivery(a, decode)] else asks))
  {
    var bind := MRouteBind(s.next, a.key.actor, a.key.typeHash);
    var ask := MRoutedActorAsk(a.correlation, s.next, a.payload);
    QueuedBind(before, queued, s, a.key, decode);
    QueuedAsk(before, queued + [bind], ask, a, decode);
    assert queued + [bind] + Queue(ask, a.askQueued) == queued + ([bind] + Queue(ask, a.askQueued));
  }

  /** The receiver accepts everything `sent` queued and then agrees with the sender. */
  predicate Delivered<R(==)>(
      before: Received<R>, queued: seq<Message>, sent: Sent, a: RoutedAsk, decode: Bytes -> Option<R>)
    requires Receive(before, queued, decode).Some?
  {
    Receive(before, queued + sent.queued, decode) ==
    Some(AfterAsk(sent, a, Receive(before, queued, decode).value.asks, decode))
  }

  /** Sending one ask frame, or none, and nothing else. */
  lemma AskOnly<R>(
      before: Received<R>, queued: seq<Message>, sent: Sent, m: Message, a: RoutedAsk, decode: Bytes -> Option<R>)
    requires a.correlation != 0 && Receive(before, queued, decode).Some?
    requires sent.queued == Queue(m, a.askQueued) && sent.sender.table == Receive(before, queued, decode).value.table
    requires m == LongForm(a) ||
      (a.request.None? && m.MRoutedActorAsk? && m.correlation == a.correlation && m.payload == a.payload &&
       Routes.Resolve(sent.sender.table, m.slot) == Some(a.key))
    ensures Delivered(before, queued, sent, a, decode)
  {
    QueuedAsk(before, queued, m, a, decode);
    assert AskReached(sent) == (Queue(m, a.askQueued) != []);
  }

  lemma NothingDelivered<R>(before: Received<R>, queued: seq<Message>, sent: Sent, a: RoutedAsk,
    decode: Bytes -> Option<R>)
    requires Receive(before, queued, decode).Some? && sent.queued == []
    requires sent.sender.table == Receive(before, queued, decode).value.table
    ensures Delivered(before, queued, sent, a, decode)
  {
    assert queued + [] == queued;
  }

  lemma LongDelivered<R>(
      before: Received<R>, queued: seq<Message>, s: Sender, a: RoutedAsk, max: nat, decode: Bytes -> Option<R>)
    requires SenderOk(s) && a.correlation != 0 && a.request.None? && 12 + |a.payload| <= max
    requires Receive(before, queued, decode).Some? && Receive(before, queued, decode).value.table == s.table
    requires Routes.Allocated(s.table, s.next, a.key).None?
    ensures Delivered(before, queued, Send(s, a, max), a, decode)
  {
    if max < 28 + |a.payload| {
      NothingDelivered(before, queued, Send(s, a, max), a, decode);
    } else {
      AskOnly(before, queued, Send(s, a, max), LongForm(a), a, decode);
    }
  }

  lemma CompactDelivered<R>(
      before: Received<R>, queued: seq<Message>, s: Sender, a: RoutedAsk, max: nat, decode: Bytes -> Option<R>)
    requires SenderOk(s) && a.correlation != 0 && a.request.None? && 12 + |a.payload| <= max
    requires Receive(before, queued, decode).Some? && Receive(before, queued, decode).value.table == s.table
    requires Routes.Allocated(s.table, s.next, a.key).Some?
    requires !Routes.Allocated(s.table, s.next, a.key).value.needsBind
    ensures Delivered(before, queued, Send(s, a, max), a, decode)
  {
    var slot := Routes.Allocated(s.table, s.next, a.key).value.slot;
    AskOnly(before, queued, Send(s, a, max), MRoutedActorAsk(a.correlation, slot, a.payload), a, decode);
  }

  lemma BindDelivered<R>(
      before: Received<R>, queued: seq<Message>, s: Sender, a: RoutedAsk, max: nat, decode: Bytes -> Option<R>)
    requires SenderOk(s) && a.correlation != 0 && a.request.None? && 12 + |a.payload| <= max
    requires Receive(before, queued, decode).Some? && Receive(before, queued, decode).value.table == s.table
    requires Routes.Allocated(s.table, s.next, a.key).Some?
    requires Routes.Allocated(s.table, s.next, a.key).value.needsBind
    ensures Delivered(before, queued, Send(s, a, max), a, decode)
  {
    BindSent(s, a, max);
    if a.bindQueued {
      BindThenAsk(before, queued, s, a, decode);
    } else {
      NothingDelivered(before, queued, Send(s, a, max), a, decode);
    }
  }

  lemma BindSent(s: Sender, a: RoutedAsk, max: nat)
    requires SenderOk(s) && a.request.None? && 12 + |a.payload| <= max && Routes.Allocated(s.table, s.next, a.key).Some?
    requires Routes.Allocated(s.table, s.next, a.key).value.needsBind
    ensures var sent := Send(s, a, max);
      var ask := Queue(MRoutedActorAsk(a.correlation, s.next, a.payload), a.askQueued);
      if a.bindQueued
      then sent.queued == [MRouteBind(s.next, a.key.actor, a.key.typeHash)] + ask &&
           sent.sender.table == Routes.Insert(s.table, s.next, a.key) && (AskReached(sent) <==> ask != [])
      else sent.queued == [] && sent.sender.table == s.table
  {
    FreshBinding(s, a.key);
  }

  lemma SendKeepsSender(s: Sender, a: RoutedAsk, max: nat)
    requires SenderOk(s)
    ensures SenderOk(Send(s, a, max).sender)
  {
    var slotted := Routes.Allocated(s.table, s.next, a.key);
    if slotted.Some? && slotted.value.needsBind { FreshBinding(s, a.key); }
  }

  /**
   Sender and receiver hold the same table before and after every ask, every queued frame
   is accepted, and an ask is delivered, as its long form, exactly when it gets through.
   */
  lemma AskDelivered<R>(
      before: Received<R>, queued: seq<Message>, s: Sender, a: RoutedAsk, max: nat, decode: Bytes -> Option<R>)
    requires SenderOk(s) && a.correlation != 0
    requires Receive(before, queued, decode).Some? && Receive(before, queued, decode).value.table == s.table
    ensures SenderOk(Send(s, a, max).sender)
    ensures StandingOf(Send(s, a, max).sender) == Learned(StandingOf(s), a, max)
    ensures var asks := Receive(before, queued, decode).value.asks;
      Receive(before, queued + Send(s, a, max).queued, decode) ==
      Some(Received(
        Send(s, a, max).sender.table,
        if GetsThrough(FormOf(StandingOf(s), a), a, max) then asks + [LongDelivery(a, decode)] else asks))
  {
    SendLearns(s, a, max);
    AskReachedIff(s, a, max);
    SendDelivered(before, queued, s, a, max, decode);
  }

  lemma SendDelivered<R>(
      before: Received<R>, queued: seq<Message>, s: Sender, a: RoutedAsk, max: nat, decode: Bytes -> Option<R>)
    requires SenderOk(s) && a.correlation != 0
    requires Receive(before, queued, decode).Some? && Receive(before, queued, decode).value.table == s.table
    ensures SenderOk(Send(s, a, max).sender)
    ensures Delivered(before, queued, Send(s, a, max), a, decode)
  {
    SendKeepsSender(s, a, max);
    var slotted := Routes.Allocated(s.table, s.next, a.key);
    if max < (if a.request.Some? then 28 else 12) + |a.payload| {
      NothingDelivered(before, queued, Send(s, a, max), a, decode);
    } else if a.request.Some? {
      AskOnly(before, queued, Send(s, a, max), LongForm(a), a, decode);
    } else if slotted.None? {
      LongDelivered(before, queued, s, a, max, decode);
    } else if !slotted.value.needsBind {
      CompactDelivered(before, queued, s, a, max, decode);
    } else {
      BindDelivered(before, queued, s, a, max, decode);
    }
  }

  // ---------------------------------------------------------------- any number of asks

  function SendAll(s: Sender, asks: seq<RoutedAsk>, max: nat): Sent
    decreases |asks|
  {
    if asks == [] then Sent(s, [])
    else
      var before := SendAll(s, asks[..|asks| - 1], max);
      var last := Send(before.sender, asks[|asks| - 1], max);
      Sent(last.sender, before.queued + last.queued)
  }

  function LearnedAll(k: Standing, asks: seq<RoutedAsk>, max: nat): Standing
    decreases |asks|
  {
    if asks == [] then k
    else Learned(LearnedAll(k, asks[..|asks| - 1], max), asks[|asks| - 1], max)
  }

  /** The reference connection: the asks that get through, each sent in its long form. */
  function InLongForm(k: Standing, asks: seq<RoutedAsk>, max: nat): seq<Message>
    decreases |asks|
  {
    if asks == [] then []
    else
      var n := |asks| - 1;
      var earlier := InLongForm(k, asks[..n], max);
      if GetsThrough(FormOf(LearnedAll(k, asks[..n], max), asks[n]), asks[n], max)
      then earlier + [LongForm(asks[n])]
      else earlier
  }

  /** What the parser owes for each of these messages. */
  function Deliveries<R>(ms: seq<Message>, decode: Bytes -> Option<R>): seq<ReadResult<R>>
    decreases |ms|
  {
    if ms == [] then []
    else
      var earlier := Deliveries(ms[..|ms| - 1], decode);
      match Expected(ms[|ms| - 1], None, decode)
      case Ok(r) => earlier + [r]
      case Err(_) => earlier
  }

  lemma DeliveredNext<R>(ms: seq<Message>, a: RoutedAsk, decode: Bytes -> Option<R>)
    requires a.correlation != 0
    ensures Deliveries(ms + [LongForm(a)], decode) == Deliveries(ms, decode) + [LongDelivery(a, decode)]
  {
    assert (ms + [LongForm(a)])[..|ms|] == ms;
  }

  /** One more ask on both connections. */
  lemma NextAskRefines<R>(
      before: Received<R>, sent: Sent, earlier: seq<Message>, a: RoutedAsk, max: nat, decode: Bytes -> Option<R>)
    requires SenderOk(sent.sender) && a.correlation != 0
    requires Receive(before, sent.queued, decode) == Some(Received(sent.sender.table, Deliveries(earlier, decode)))
    ensures var last := Send(sent.sender, a, max);
      SenderOk(last.sender) && StandingOf(last.sender) == Learned(StandingOf(sent.sender), a, max) &&
      Receive(before, sent.queued + last.queued, decode) == Some(Received(
        last.sender.table,
        Deliveries(if GetsThrough(FormOf(StandingOf(sent.sender), a), a, max) then earlier + [LongForm(a)] else earlier,
                   decode)))
  {
    AskDelivered(before, sent.queued, sent.sender, a, max, decode);
    DeliveredNext(earlier, a, decode);
  }

  /**
   A connection that interns routes delivers, ask for ask, what one sending only the long
   forms of the asks that get through owes, and its receiver never refuses a frame, however
   many enqueues fail.
   */
  lemma {:induction false} ConnectionRefinesLongForm<R>(
      s: Sender, asks: seq<RoutedAsk>, max: nat, decode: Bytes -> Option<R>)
    requires SenderOk(s) && forall i | 0 <= i < |asks| :: asks[i].correlation != 0
    ensures SenderOk(SendAll(s, asks, max).sender)
    ensures StandingOf(SendAll(s, asks, max).sender) == LearnedAll(StandingOf(s), asks, max)
    ensures Receive(Received(s.table, []), SendAll(s, asks, max).queued, decode) ==
      Some(Received(SendAll(s, asks, max).sender.table,
                    Deliveries(InLongForm(StandingOf(s), asks, max), decode)))
    decreases |asks|
  {
    if asks != [] {
      var n := |asks| - 1;
      ConnectionRefinesLongForm(s, asks[..n], max, decode);
      var sent, earlier := SendAll(s, asks[..n], max), InLongForm(StandingOf(s), asks[..n], max);
      NextAskRefines(Received(s.table, []), sent, earlier, asks[n], max, decode);
    }
  }

  /** One more long ask on a connection that carried nothing but long asks. */
  lemma LongFormReceived<R>(t: Routes.Table, earlier: seq<Message>, a: RoutedAsk, decode: Bytes -> Option<R>)
    requires a.correlation != 0 && a.request != Some(0) && 28 + |a.payload| < 0x800_0000
    requires Receive(Received(t, []), earlier, decode) == Some(Received(t, Deliveries(earlier, decode)))
    ensures Receive(Received(t, []), earlier + [LongForm(a)], decode) ==
      Some(Received(t, Deliveries(earlier + [LongForm(a)], decode)))
  {
    EncodeIff(LongForm(a));
    ReceiveOne(Received(t, []), earlier, LongForm(a), decode);
    TakeOne(Received(t, Deliveries(earlier, decode)), LongForm(a), decode);
    DeliveredNext(earlier, a, decode);
  }

  lemma {:induction false} LongFormsReceived<R>(
      t: Routes.Table, k: Standing, asks: seq<RoutedAsk>, max: nat, decode: Bytes -> Option<R>)
    requires forall i | 0 <= i < |asks| :: asks[i].correlation != 0 && 28 + |asks[i].payload| < 0x800_0000
    ensures Receive(Received(t, []), InLongForm(k, asks, max), decode) ==
      Some(Received(t, Deliveries(InLongForm(k, asks, max), decode)))
    decreases |asks|
  {
    if asks != [] {
      var n := |asks| - 1;
      LongFormsReceived(t, k, asks[..n], max, decode);
      if GetsThrough(FormOf(LearnedAll(k, asks[..n], max), asks[n]), asks[n], max) {
        LongFormReceived(t, InLongForm(k, asks[..n], max), asks[n], decode);
      }
    }
  }

  /**
   Interning is invisible: as long as the payloads leave room for the longer header, a
   connection that sends only long asks delivers exactly the same asks in the same order.
   */
  lemma InterningIsInvisible<R>(
      s: Sender, t: Routes.Table, asks: seq<RoutedAsk>, max: nat, decode: Bytes -> Option<R>)
    requires SenderOk(s)
    requires forall i | 0 <= i < |asks| :: asks[i].correlation != 0 && 28 + |asks[i].payload| < 0x800_0000
    ensures var compact := Receive(Received(s.table, []), SendAll(s, asks, max).queued, decode);
      var long := Receive(Received(t, []), InLongForm(StandingOf(s), asks, max), decode);
      compact.Some? && long.Some? && compact.value.asks == long.value.asks
  {
    ConnectionRefinesLongForm(s, asks, max, decode);
    LongFormsReceived(t, StandingOf(s), asks, max, decode);
  }
}
