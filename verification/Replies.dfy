/**
 Replies to inbound asks: responders sharing one claim, fallbacks, and leases that reserve
 delivery budget and a reply slot before the claim. Concurrent callers interleave at every
 shared-memory access.
 */
module Replies {
  import opened Common

  const MAX_STREAM_SIZE := 64 * 1024 * 1024
  const MAX_SEMAPHORE_PERMITS := (U64_LIMIT - 1) / 8
  const REPLY_SLOT_CAP := 64
  const ASK_RESPONSE_HEADER_LEN := 12

  /**
   One inbound ask. `used` is the shared single-use guard; the counters are its history:
   claims won, frames accepted by a transport, observer calls, and the three ways a won claim
   ends without a frame: the sink or encoder refused it, its fallback was dropped, or its
   connection had closed.
   */
  datatype Ask = Ask(used: bool, claims: nat, handoffs: nat, notices: nat, refused: nat, dropped: nat, cut: nat)

  datatype Budget = Budget(jobLimit: nat, byteLimit: nat, jobs: nat, bytes: nat, cancelledLen: nat)

  datatype Connection = Connection(maxMessage: nat, free: nat, closed: bool)

  /**
   A reserved reply slot; it owns one job permit and `bytes` byte permits until recycled.
   `published` is the length of the reply stored in it.
   */
  datatype Record = Record(
    ask: nat, budget: nat, connection: nat, bytes: nat,
    published: Option<nat>, cancelled: bool, activated: bool, queued: bool, shut: bool, recycled: bool)

  /** A responder's identity: its ask, whether it carries an observer, and whether that was called. */
  datatype Who = Who(ask: nat, observed: bool, notified: bool)

  datatype Op = Plain | WithFallback | Typed

  datatype Plan = Plan(claimed: bool, budget: nat, bytes: nat, connection: nat)

  datatype Stage = Started | JobHeld | BytesHeld | Recorded(record: nat) | Vetted(record: nat)

  datatype Phase = Idle | Published | Observed | Waiting

  /** Every live handle on an ask, and where its current call stands. */
  datatype Agent =
    | Spent
    | Responder(who: Who)
    | Claimed(who: Who, op: Op)
    | Enqueuing(who: Who, op: Op, oversize: bool)
    | Fallback(who: Who)
    | Admitting(who: Who, plan: Plan, stage: Stage)
    | Lease(who: Who, lease: nat, phase: Phase)

  datatype State = State(
    asks: seq<Ask>, budgets: seq<Budget>, connections: seq<Connection>, records: seq<Record>, agents: seq<Agent>)

  datatype Action =
    | Claim(op: Op)
    | EncodeFails
    | Observe(oversize: bool)
    | Enqueue(accepted: bool)
    | Retry(accepted: bool)
    | Discard
    | Admit(plan: Plan)
    | TakeJob
    | TakeBytes
    | TakeSlot(exhausted: bool)
    | Confirm
    | WinLease
    | Publish(len: nat)
    | ObserveLease
    | Activate(wait: bool)
    | DropLease
    | Complete

  datatype Step =
    | Arrive
    | Mint(ask: nat, observed: bool)
    | Clone(agent: nat)
    | Act(agent: nat, action: Action)
    | Finish(record: nat)
    | Close(connection: nat)
    | Sweep(record: nat)

  /** What an action does to the shared permits, slots and records. */
  datatype Effect =
    | Nothing
    | JobOut(budget: nat)
    | BytesOut(budget: nat, bytes: nat)
    | Return(budget: nat, jobs: nat, bytes: nat)
    | Open(record: Record)
    | Mark(at: nat, record: Record)
    | Recycle(at: nat, record: Record)

  datatype Turn = Turn(agent: Agent, ask: Ask, effect: Effect)

  // ---------------------------------------------------------------- one action

  predicate BudgetAllowed(b: Budget) {
    0 < b.jobLimit <= MAX_SEMAPHORE_PERMITS && 0 < b.byteLimit <= MAX_SEMAPHORE_PERMITS &&
    b.cancelledLen <= MAX_STREAM_SIZE && b.cancelledLen <= b.byteLimit
  }

  /** The size checks between reserving permits and reserving a slot. */
  predicate PlanFits(bytes: nat, cancelledLen: nat, maxMessage: nat) {
    0 < bytes <= MAX_STREAM_SIZE && cancelledLen <= bytes && ASK_RESPONSE_HEADER_LEN + cancelledLen <= maxMessage
  }

  /** A failed admission returns the responder, or the claimed fallback, it started from. */
  function Refused(who: Who, plan: Plan): Agent {
    if plan.claimed then Fallback(who) else Responder(who)
  }

  function Won(ask: Ask): Ask { ask.(used := true, claims := ask.claims + 1) }

  predicate Notifies(who: Who, oversize: bool) { who.observed && !who.notified && !oversize }

  function Told(ask: Ask, who: Who, oversize: bool): Ask {
    if Notifies(who, oversize) then ask.(notices := ask.notices + 1) else ask
  }

  function Knows(who: Who, oversize: bool): Who {
    if Notifies(who, oversize) then who.(notified := true) else who
  }

  /** `activate`: the first call queues the record, unless its connection has closed. */
  function Activated(a: Agent, ask: Ask, at: nat, r: Record, closed: bool): Turn {
    if r.activated then Turn(a, ask, Mark(at, r))
    else if closed then
      Turn(a, ask.(cut := ask.cut + 1), Recycle(at, r.(activated := true, shut := true, recycled := true)))
    else Turn(a, ask.(handoffs := ask.handoffs + 1), Mark(at, r.(activated := true, queued := true)))
  }

  predicate CanReply(a: Agent, action: Action) {
    match action
    case Claim(_) => a.Responder?
    case EncodeFails => a.Claimed? && a.op.Typed?
    case Observe(_) => a.Claimed?
    case Enqueue(_) => a.Enqueuing?
    case Retry(_) => a.Fallback?
    case Discard => a.Responder? || a.Fallback?
    case _ => false
  }

  function Reply(a: Agent, ask: Ask, action: Action): Turn
    requires CanReply(a, action)
  {
    match action
    case Claim(op) => if ask.used then Turn(Spent, ask, Nothing) else Turn(Claimed(a.who, op), Won(ask), Nothing)
    case EncodeFails => Turn(Spent, ask.(refused := ask.refused + 1), Nothing)
    case Observe(oversize) =>
      Turn(Enqueuing(Knows(a.who, oversize), a.op, oversize), Told(ask, a.who, oversize), Nothing)
    case Enqueue(accepted) =>
      if accepted then Turn(Spent, ask.(handoffs := ask.handoffs + 1), Nothing)
      else if a.op.WithFallback? then Turn(Fallback(a.who), ask, Nothing)
      else Turn(Spent, ask.(refused := ask.refused + 1), Nothing)
    case Retry(accepted) =>
      if accepted then Turn(Spent, ask.(handoffs := ask.handoffs + 1), Nothing)
      else Turn(Spent, ask.(refused := ask.refused + 1), Nothing)
    case Discard =>
      if a.Responder? then Turn(Spent, ask, Nothing) else Turn(Spent, ask.(dropped := ask.dropped + 1), Nothing)
  }

  predicate CanAdmit(a: Agent, action: Action) {
    match action
    case Admit(plan) => (a.Responder? && !plan.claimed) || (a.Fallback? && plan.claimed)
    case TakeJob => a.Admitting? && a.stage.Started?
    case TakeBytes => a.Admitting? && a.stage.JobHeld?
    case TakeSlot(_) => a.Admitting? && a.stage.BytesHeld?
    case _ => false
  }

  function PlanOf(a: Agent, action: Action): Plan
    requires CanAdmit(a, action)
  {
    if action.Admit? then action.plan else a.plan
  }

  /** Admission up to the slot; `next` is the index the new record gets. */
  function Admission(a: Agent, ask: Ask, b: Budget, c: Connection, next: nat, action: Action): Turn
    requires CanAdmit(a, action)
  {
    match action
    case Admit(plan) => Turn(Admitting(a.who, plan, Started), ask, Nothing)
    case TakeJob =>
      if a.plan.bytes >= U32_LIMIT || a.plan.bytes == 0 || b.jobs == 0 then Turn(Refused(a.who, a.plan), ask, Nothing)
      else Turn(a.(stage := JobHeld), ask, JobOut(a.plan.budget))
    case TakeBytes =>
      if b.bytes < a.plan.bytes then Turn(Refused(a.who, a.plan), ask, Return(a.plan.budget, 1, 0))
      else Turn(a.(stage := BytesHeld), ask, BytesOut(a.plan.budget, a.plan.bytes))
    case TakeSlot(exhausted) =>
      if !PlanFits(a.plan.bytes, b.cancelledLen, c.maxMessage) || c.closed || c.free == 0 || exhausted
      then Turn(Refused(a.who, a.plan), ask, Return(a.plan.budget, 1, a.plan.bytes))
      else Turn(a.(stage := Recorded(next)), ask,
                Open(Record(a.who.ask, a.plan.budget, a.plan.connection, a.plan.bytes,
                            None, false, false, false, false, false)))
  }

  predicate CanLease(a: Agent, action: Action) {
    match action
    case Confirm => a.Admitting? && a.stage.Recorded?
    case WinLease => a.Admitting? && a.stage.Vetted? && !a.plan.claimed
    case Publish(_) => a.Lease? && a.phase.Idle?
    case ObserveLease => a.Lease? && a.phase.Published?
    case Activate(_) => a.Lease? && a.phase.Observed?
    case DropLease => a.Lease?
    case Complete => a.Lease? && a.phase.Waiting?
    case _ => false
  }

  predicate HasRecord(a: Agent) { a.Lease? || (a.Admitting? && (a.stage.Recorded? || a.stage.Vetted?)) }

  function RecordOf(a: Agent): nat
    requires HasRecord(a)
  {
    if a.Lease? then a.lease else a.stage.record
  }

  /** The steps that touch the reserved record `r`. */
  function Leasing(a: Agent, ask: Ask, r: Record, closed: bool, action: Action): Turn
    requires CanLease(a, action)
  {
    var at := RecordOf(a);
    match action
    case Confirm =>
      if closed then Turn(Refused(a.who, a.plan), ask, Recycle(at, r.(shut := true, recycled := true)))
      else if a.plan.claimed then Turn(Lease(a.who, at, Idle), ask, Nothing)
      else Turn(a.(stage := Vetted(at)), ask, Nothing)
    case WinLease =>
      if ask.used then Turn(Spent, ask, Recycle(at, r.(recycled := true)))
      else Turn(Lease(a.who, at, Idle), Won(ask), Nothing)
    case Publish(len) =>
      if r.cancelled || r.bytes < len then Activated(Spent, ask, at, r.(cancelled := true), closed)
      else if r.shut then Turn(Spent, ask.(cut := ask.cut + 1), Nothing)
      else if r.published.Some? then Activated(Spent, ask, at, r.(cancelled := true), closed)
      else Turn(a.(phase := Published), ask, Mark(at, r.(published := Some(len))))
    case ObserveLease =>
      Turn(a.(who := Knows(a.who, false), phase := Observed), Told(ask, a.who, false), Nothing)
    case Activate(wait) => Activated(if wait then a.(phase := Waiting) else Spent, ask, at, r, closed)
    case DropLease => Activated(Spent, ask, at, r.(cancelled := true), closed)
    case Complete => Turn(Spent, ask, Nothing)
  }

  // ---------------------------------------------------------------- the whole system

  predicate CanAct(s: State, i: nat, action: Action) {
    i < |s.agents| && !s.agents[i].Spent? && s.agents[i].who.ask < |s.asks| &&
    var a := s.agents[i];
    (CanReply(a, action) ||
     (CanAdmit(a, action) &&
      PlanOf(a, action).budget < |s.budgets| && PlanOf(a, action).connection < |s.connections|) ||
     (CanLease(a, action) && RecordOf(a) < |s.records| &&
      s.records[RecordOf(a)].connection < |s.connections| && s.records[RecordOf(a)].budget < |s.budgets| &&
      (action.Complete? ==> s.records[RecordOf(a)].recycled)))
  }

  function TurnOf(s: State, i: nat, action: Action): Turn
    requires CanAct(s, i, action)
  {
    var a := s.agents[i];
    var ask := s.asks[a.who.ask];
    if CanReply(a, action) then Reply(a, ask, action)
    else if CanAdmit(a, action) then
      var plan := PlanOf(a, action);
      Admission(a, ask, s.budgets[plan.budget], s.connections[plan.connection], |s.records|, action)
    else
      var r := s.records[RecordOf(a)];
      Leasing(a, ask, r, s.connections[r.connection].closed, action)
  }

  function GiveBack(b: Budget, jobs: nat, bytes: nat): Budget { b.(jobs := b.jobs + jobs, bytes := b.bytes + bytes) }

  function SlotBack(c: Connection): Connection { if c.closed then c else c.(free := c.free + 1) }

  predicate EffectFits(s: State, e: Effect) {
    match e
    case Nothing => true
    case JobOut(b) => b < |s.budgets| && 0 < s.budgets[b].jobs
    case BytesOut(b, n) => b < |s.budgets| && n <= s.budgets[b].bytes
    case Return(b, _, _) => b < |s.budgets|
    case Open(r) => r.budget < |s.budgets| && r.connection < |s.connections| && 0 < s.connections[r.connection].free
    case Mark(at, _) => at < |s.records|
    case Recycle(at, _) =>
      at < |s.records| && s.records[at].budget < |s.budgets| && s.records[at].connection < |s.connections|
  }

  /** `recycle_resources` runs once per record, however many paths reach it. */
  function Do(s: State, e: Effect): State
    requires EffectFits(s, e)
  {
    match e
    case Nothing => s
    case JobOut(b) => s.(budgets := s.budgets[b := s.budgets[b].(jobs := s.budgets[b].jobs - 1)])
    case BytesOut(b, n) => s.(budgets := s.budgets[b := s.budgets[b].(bytes := s.budgets[b].bytes - n)])
    case Return(b, jobs, bytes) => s.(budgets := s.budgets[b := GiveBack(s.budgets[b], jobs, bytes)])
    case Open(r) =>
      var c := s.connections[r.connection];
      s.(records := s.records + [r], connections := s.connections[r.connection := c.(free := c.free - 1)])
    case Mark(at, r) => s.(records := s.records[at := r])
    case Recycle(at, r) =>
      var was := s.records[at];
      if was.recycled then s.(records := s.records[at := r])
      else s.(records := s.records[at := r],
              budgets := s.budgets[was.budget := GiveBack(s.budgets[was.budget], 1, was.bytes)],
              connections := s.connections[was.connection := SlotBack(s.connections[was.connection])])
  }

  predicate Enabled(s: State, step: Step) {
    match step
    case Arrive => true
    case Mint(ask, _) => ask < |s.asks|
    case Clone(i) => i < |s.agents| && s.agents[i].Responder?
    case Act(i, action) => CanAct(s, i, action) && EffectFits(s, TurnOf(s, i, action).effect)
    case Finish(r) =>
      r < |s.records| && s.records[r].queued && !s.records[r].recycled &&
      EffectFits(s, Recycle(r, s.records[r]))
    case Close(c) => c < |s.connections|
    case Sweep(r) =>
      r < |s.records| && EffectFits(s, Recycle(r, s.records[r])) && s.connections[s.records[r].connection].closed
  }

  function Apply(s: State, step: Step): State
    requires Enabled(s, step)
  {
    match step
    case Arrive => s.(asks := s.asks + [Ask(false, 0, 0, 0, 0, 0, 0)])
    case Mint(ask, observed) => s.(agents := s.agents + [Responder(Who(ask, observed, false))])
    case Clone(i) => s.(agents := s.agents + [s.agents[i]])
    case Act(i, action) =>
      var turn := TurnOf(s, i, action);
      Do(s, turn.effect).(agents := s.agents[i := turn.agent], asks := s.asks[s.agents[i].who.ask := turn.ask])
    case Finish(r) => Do(s, Recycle(r, s.records[r].(recycled := true)))
    case Close(c) => s.(connections := s.connections[c := s.connections[c].(closed := true)])
    case Sweep(r) => Do(s, Recycle(r, s.records[r].(shut := true, recycled := true)))
  }

  predicate Initial(s: State) {
    s.asks == [] && s.records == [] && s.agents == [] &&
    (forall b | 0 <= b < |s.budgets| ::
       BudgetAllowed(s.budgets[b]) && s.budgets[b].jobs == s.budgets[b].jobLimit &&
         s.budgets[b].bytes == s.budgets[b].byteLimit) &&
    (forall c | 0 <= c < |s.connections| :: s.connections[c].free == REPLY_SLOT_CAP && !s.connections[c].closed)
  }

  function After(s: State, run: seq<Step>): Option<State>
    decreases |run|
  {
    if run == [] then Some(s)
    else
      match After(s, run[..|run| - 1])
      case None => None
      case Some(t) => if Enabled(t, run[|run| - 1]) then Some(Apply(t, run[|run| - 1])) else None
  }
}
