/** Lease admission: the budget, the slot table and the all-or-nothing reservation. */
module ReplyAdmission {
  import opened Common
  import opened Replies
  import opened ReplyInvariants
  import opened ReplyCalls

  datatype BudgetError = ZeroLimit | LimitTooLarge | CancelledTooLong | CancelledOverLimit

  datatype ReserveError = ReservationTooLarge | ReservationZero | JobsExhausted | BytesExhausted

  datatype AdmissionError =
    | NoHandle
    | Budgeted(error: ReserveError)
    | OutsideStreamLimit
    | CancelledLonger
    | TerminalFrameTooLarge
    | ConnectionClosed
    | SlotsExhausted
    | GenerationExhausted

  class ReplyDeliveryBudget {
    const jobLimit: nat
    const byteLimit: nat
    const cancelledLen: nat
    var jobs: nat
    var bytes: nat

    constructor (jobLimit: nat, byteLimit: nat, cancelledLen: nat)
      ensures Value() == Budget(jobLimit, byteLimit, jobLimit, byteLimit, cancelledLen)
    {
      this.jobLimit, this.byteLimit, this.cancelledLen := jobLimit, byteLimit, cancelledLen;
      jobs, bytes := jobLimit, byteLimit;
    }

    function Value(): Budget
      reads this
    {
      Budget(jobLimit, byteLimit, jobs, bytes, cancelledLen)
    }

    /** `try_reserve`: takes one job and `max` bytes, or nothing at all. */
    method TryReserve(max: Usize) returns (r: Result<(), ReserveError>)
      modifies this
      ensures r.Ok? <==> 0 < max < U32_LIMIT && 0 < old(jobs) && max <= old(bytes)
      ensures r.Ok? ==> jobs == old(jobs) - 1 && bytes == old(bytes) - max
      ensures r.Err? ==> Value() == old(Value())
      ensures r == Err(BytesExhausted) <==> 0 < max < U32_LIMIT && 0 < old(jobs) && old(bytes) < max
      ensures r == Err(JobsExhausted) <==> 0 < max < U32_LIMIT && old(jobs) == 0
      ensures r == Err(ReservationZero) <==> max == 0
      ensures r == Err(ReservationTooLarge) <==> U32_LIMIT <= max
    {
      if U32_LIMIT <= max { return Err(ReservationTooLarge); }
      if max == 0 { return Err(ReservationZero); }
      if jobs == 0 { return Err(JobsExhausted); }
      jobs := jobs - 1;
      if bytes < max {
        jobs := jobs + 1;
        return Err(BytesExhausted);
      }
      bytes := bytes - max;
      return Ok(());
    }

    method Release(n: nat)
      modifies this
      ensures Value() == GiveBack(old(Value()), 1, n)
    {
      jobs, bytes := jobs + 1, bytes + n;
    }
  }

  /** `ReplyDeliveryBudget::new`. */
  method NewBudget(jobLimit: Usize, byteLimit: Usize, cancelledLen: Usize)
    returns (r: Result<ReplyDeliveryBudget, BudgetError>)
    ensures r.Ok? <==> BudgetAllowed(Budget(jobLimit, byteLimit, jobLimit, byteLimit, cancelledLen))
    ensures r.Ok? ==>
      fresh(r.value) && r.value.Value() == Budget(jobLimit, byteLimit, jobLimit, byteLimit, cancelledLen)
    ensures r == Err(ZeroLimit) <==> jobLimit == 0 || byteLimit == 0
    ensures r == Err(LimitTooLarge) <==>
      0 < jobLimit && 0 < byteLimit && (MAX_SEMAPHORE_PERMITS < jobLimit || MAX_SEMAPHORE_PERMITS < byteLimit)
    ensures r == Err(CancelledTooLong) ==> MAX_STREAM_SIZE < cancelledLen
    ensures r == Err(CancelledOverLimit) ==> byteLimit < cancelledLen <= MAX_STREAM_SIZE
  {
    if jobLimit == 0 || byteLimit == 0 { return Err(ZeroLimit); }
    if MAX_SEMAPHORE_PERMITS < jobLimit || MAX_SEMAPHORE_PERMITS < byteLimit { return Err(LimitTooLarge); }
    if MAX_STREAM_SIZE < cancelledLen { return Err(CancelledTooLong); }
    if byteLimit < cancelledLen { return Err(CancelledOverLimit); }
    var b := new ReplyDeliveryBudget(jobLimit, byteLimit, cancelledLen);
    return Ok(b);
  }

  class ReplySlots {
    const maxMessage: nat
    var free: nat
    var closed: bool

    constructor (maxMessage: nat)
      ensures Value() == Connection(maxMessage, REPLY_SLOT_CAP, false)
    {
      this.maxMessage := maxMessage;
      free, closed := REPLY_SLOT_CAP, false;
    }

    function Value(): Connection
      reads this
    {
      Connection(maxMessage, free, closed)
    }

    method TryReserve(exhausted: bool) returns (r: Result<(), AdmissionError>)
      modifies this
      ensures r.Ok? <==> !old(closed) && 0 < old(free) && !exhausted
      ensures r == Err(ConnectionClosed) <==> old(closed)
      ensures r == Err(SlotsExhausted) <==> !old(closed) && old(free) == 0
      ensures r == Err(GenerationExhausted) <==> !old(closed) && 0 < old(free) && exhausted
      ensures Value() == if r.Ok? then old(Value()).(free := old(free) - 1) else old(Value())
    {
      if closed { return Err(ConnectionClosed); }
      if free == 0 { return Err(SlotsExhausted); }
      free := free - 1;
      if exhausted {
        free := free + 1;
        return Err(GenerationExhausted);
      }
      return Ok(());
    }
  }

  /** A reserved slot with the permits it owns. */
  class SlotRecord {
    const slots: ReplySlots
    const budget: ReplyDeliveryBudget
    const bytes: nat
    var recycled: bool

    constructor (slots: ReplySlots, budget: ReplyDeliveryBudget, bytes: nat)
      ensures this.slots == slots && this.budget == budget && this.bytes == bytes && !recycled
    {
      this.slots, this.budget, this.bytes, recycled := slots, budget, bytes, false;
    }

    /** `recycle_resources`: the first call returns everything, later calls nothing. */
    method Recycle()
      modifies this, slots, budget
      ensures recycled
      ensures budget.Value() == if old(recycled) then old(budget.Value()) else GiveBack(old(budget.Value()), 1, bytes)
      ensures slots.Value() == if old(recycled) then old(slots.Value()) else SlotBack(old(slots.Value()))
    {
      if recycled { return; }
      recycled := true;
      budget.Release(bytes);
      if !slots.closed { slots.free := slots.free + 1; }
    }
  }

  datatype Admitted =
    | Leased(who: Who, record: SlotRecord)
    | Unavailable(who: Who, error: AdmissionError)
    | ClaimUnavailable
    | FallbackUnavailable(who: Who, error: AdmissionError)

  /** What an admission needs of its budget and connection, in no particular order. */
  predicate Admissible(max: nat, b: Budget, c: Connection, exhausted: bool) {
    max < U32_LIMIT && 0 < b.jobs && max <= b.bytes && PlanFits(max, b.cancelledLen, c.maxMessage) &&
    !c.closed && 0 < c.free && !exhausted
  }

  /** The first of the checks that fails: budget, sizes, then the slot table. */
  function FirstProblem(max: Usize, b: Budget, c: Connection, exhausted: bool): (r: Option<AdmissionError>)
    ensures r.None? <==> Admissible(max, b, c, exhausted)
  {
    if U32_LIMIT <= max then Some(Budgeted(ReservationTooLarge))
    else if max == 0 then Some(Budgeted(ReservationZero))
    else if b.jobs == 0 then Some(Budgeted(JobsExhausted))
    else if b.bytes < max then Some(Budgeted(BytesExhausted))
    else if SizeRefusal(max, b.cancelledLen, c.maxMessage).Some? then SizeRefusal(max, b.cancelledLen, c.maxMessage)
    else if c.closed then Some(ConnectionClosed)
    else if c.free == 0 then Some(SlotsExhausted)
    else if exhausted then Some(GenerationExhausted)
    else None
  }

  function Refusal(who: Who, claimed: bool, error: AdmissionError): (r: Admitted)
    ensures !r.Leased? && !r.ClaimUnavailable?
  {
    if claimed then FallbackUnavailable(who, error) else Unavailable(who, error)
  }

  /**
   `reserve_for_responder`: a lease exactly when every check passes; otherwise permits, slots
   and the claim are as before, and the caller gets back what it passed in.
   */
  method ReserveForResponder(
      who: Who, handle: Option<ReplySlots>, cell: AskCell, budget: ReplyDeliveryBudget,
      max: Usize, claimed: bool, exhausted: bool)
    returns (r: Admitted)
    modifies budget, cell, if handle.Some? then {handle.value} else {}
    ensures r.Leased? <==>
      handle.Some? && Admissible(max, old(budget.Value()), old(handle.value.Value()), exhausted) &&
        (claimed || !old(cell.ask.used))
    ensures r.Leased? ==>
      var was := old(budget.Value());
      r.who == who && fresh(r.record) && !r.record.recycled && r.record.bytes == max &&
      r.record.slots == handle.value && r.record.budget == budget &&
      budget.Value() == was.(jobs := was.jobs - 1, bytes := was.bytes - max) &&
      handle.value.Value() == old(handle.value.Value()).(free := old(handle.value.free) - 1) &&
      PlanFits(max, was.cancelledLen, handle.value.maxMessage)
    ensures !r.Leased? ==>
      budget.Value() == old(budget.Value()) && (handle.Some? ==> handle.value.Value() == old(handle.value.Value()))
    ensures cell.ask == if r.Leased? && !claimed then Won(old(cell.ask)) else old(cell.ask)
    ensures r.ClaimUnavailable? <==>
      handle.Some? && Admissible(max, old(budget.Value()), old(handle.value.Value()), exhausted) && !claimed &&
        old(cell.ask.used)
    ensures handle.None? ==> r == Refusal(who, claimed, NoHandle)
    ensures handle.Some? ==>
      var problem := FirstProblem(max, old(budget.Value()), old(handle.value.Value()), exhausted);
      problem.Some? ==> r == Refusal(who, claimed, problem.value)
  {
    if handle.None? { return Refusal(who, claimed, NoHandle); }
    var slots := handle.value;
    var reserved := budget.TryReserve(max);
    if reserved.Err? { return Refusal(who, claimed, Budgeted(reserved.error)); }
    var refusal := SizeRefusal(max, budget.cancelledLen, slots.maxMessage);
    if refusal.Some? {
      budget.Release(max);
      return Refusal(who, claimed, refusal.value);
    }
    var slot := slots.TryReserve(exhausted);
    if slot.Err? {
      budget.Release(max);
      return Refusal(who, claimed, slot.error);
    }
    var record := new SlotRecord(slots, budget, max);
    if !claimed {
      var won := cell.Claim();
      if !won {
        record.Recycle();
        return ClaimUnavailable;
      }
    }
    return Leased(who, record);
  }

  /** The three size checks, in the order they are made. */
  function SizeRefusal(max: nat, cancelledLen: nat, maxMessage: nat): (r: Option<AdmissionError>)
    ensures r.None? <==> PlanFits(max, cancelledLen, maxMessage)
  {
    if max == 0 || MAX_STREAM_SIZE < max then Some(OutsideStreamLimit)
    else if max < cancelledLen then Some(CancelledLonger)
    else if maxMessage < ASK_RESPONSE_HEADER_LEN + cancelledLen then Some(TerminalFrameTooLarge)
    else None
  }

  // ---------------------------------------------------------------- the same, step by step

  function Try(s: State, i: nat, action: Action): State {
    if Enabled(s, Act(i, action)) then Apply(s, Act(i, action)) else s
  }

  /** The steps of one admission with nothing in between; steps after a refusal do nothing. */
  function Solo(s: State, i: nat, plan: Plan, exhausted: bool): State {
    var held := Try(Try(Try(s, i, Admit(plan)), i, TakeJob), i, TakeBytes);
    Try(Try(Try(held, i, TakeSlot(exhausted)), i, Confirm), i, WinLease)
  }

  predicate CanStart(s: State, i: nat, plan: Plan) {
    i < |s.agents| && (if plan.claimed then s.agents[i].Fallback? else s.agents[i].Responder?) &&
    s.agents[i].who.ask < |s.asks| && plan.budget < |s.budgets| && plan.connection < |s.connections|
  }

  function Reserved(s: State, i: nat, plan: Plan): State
    requires CanStart(s, i, plan)
    requires 0 < s.budgets[plan.budget].jobs && plan.bytes <= s.budgets[plan.budget].bytes
  {
    var b := s.budgets[plan.budget];
    s.(budgets := s.budgets[plan.budget := b.(jobs := b.jobs - 1, bytes := b.bytes - plan.bytes)],
       agents := s.agents[i := Admitting(s.agents[i].who, plan, BytesHeld)])
  }

  lemma SoloJob(s: State, i: nat, plan: Plan)
    requires CanStart(s, i, plan)
    ensures var t := Try(Try(s, i, Admit(plan)), i, TakeJob);
      var b := s.budgets[plan.budget];
      t == if 0 < plan.bytes < U32_LIMIT && 0 < b.jobs
           then s.(budgets := s.budgets[plan.budget := b.(jobs := b.jobs - 1)],
                   agents := s.agents[i := Admitting(s.agents[i].who, plan, JobHeld)])
           else s
  {
    var a := s.agents[i];
    var s1 := Try(s, i, Admit(plan));
    assert s.asks[a.who.ask := s.asks[a.who.ask]] == s.asks;
    assert s1.agents == s.agents[i := Admitting(a.who, plan, Started)];
    var s2 := Try(s1, i, TakeJob);
    assert s2.agents == s.agents || s2.agents == s.agents[i := Admitting(a.who, plan, JobHeld)];
  }

  lemma SoloPermits(s: State, i: nat, plan: Plan)
    requires CanStart(s, i, plan)
    ensures var t := Try(Try(Try(s, i, Admit(plan)), i, TakeJob), i, TakeBytes);
      var b := s.budgets[plan.budget];
      t == if 0 < plan.bytes < U32_LIMIT && 0 < b.jobs && plan.bytes <= b.bytes then Reserved(s, i, plan) else s
  {
    SoloJob(s, i, plan);
    var a := s.agents[i];
    var s2 := Try(Try(s, i, Admit(plan)), i, TakeJob);
    var s3 := Try(s2, i, TakeBytes);
    assert s2.asks[a.who.ask := s.asks[a.who.ask]] == s.asks;
    assert s3.agents == s.agents || s3.agents == s.agents[i := Admitting(a.who, plan, BytesHeld)];
    assert s3.budgets == s.budgets || s3.budgets[plan.budget].jobs + 1 == s.budgets[plan.budget].jobs;
  }

  function NewRecord(who: Who, plan: Plan): Record {
    Record(who.ask, plan.budget, plan.connection, plan.bytes, None, false, false, false, false, false)
  }

  /** All or nothing: the lease with its permits and slot, or the state as it was. */
  predicate AllOrNothing(s: State, t: State, i: nat, plan: Plan, exhausted: bool)
    requires CanStart(s, i, plan)
  {
    var who := s.agents[i].who;
    var ask := s.asks[who.ask];
    var b := s.budgets[plan.budget];
    var c := s.connections[plan.connection];
    var fits := Admissible(plan.bytes, b, c, exhausted);
    if fits && (plan.claimed || !ask.used) then
      t.asks == s.asks[who.ask := if plan.claimed then ask else Won(ask)] &&
      t.budgets == s.budgets[plan.budget := b.(jobs := b.jobs - 1, bytes := b.bytes - plan.bytes)] &&
      t.connections == s.connections[plan.connection := c.(free := c.free - 1)] &&
      t.records == s.records + [NewRecord(who, plan)] &&
      t.agents == s.agents[i := Lease(who, |s.records|, Idle)]
    else
      t.asks == s.asks && t.budgets == s.budgets && t.connections == s.connections &&
      t.agents == (if fits then s.agents[i := Spent] else s.agents) &&
      t.records == (if fits then s.records + [NewRecord(who, plan).(recycled := true)] else s.records)
  }

  /** What an admission holds once its record is made. */
  predicate HasReserved(s: State, t: State, i: nat, plan: Plan, exhausted: bool, stage: Stage)
    requires CanStart(s, i, plan)
  {
    var c := s.connections[plan.connection];
    Admissible(plan.bytes, s.budgets[plan.budget], c, exhausted) &&
    t.asks == s.asks && t.budgets == Reserved(s, i, plan).budgets &&
    t.records == s.records + [NewRecord(s.agents[i].who, plan)] &&
    t.connections == s.connections[plan.connection := c.(free := c.free - 1)] &&
    t.agents == s.agents[i := Admitting(s.agents[i].who, plan, stage)]
  }

  lemma SoloSlot(s: State, i: nat, plan: Plan, exhausted: bool)
    requires CanStart(s, i, plan)
    requires 0 < plan.bytes < U32_LIMIT && 0 < s.budgets[plan.budget].jobs && plan.bytes <= s.budgets[plan.budget].bytes
    ensures var t := Try(Reserved(s, i, plan), i, TakeSlot(exhausted));
      if Admissible(plan.bytes, s.budgets[plan.budget], s.connections[plan.connection], exhausted)
      then HasReserved(s, t, i, plan, exhausted, Recorded(|s.records|))
      else t == s
  {
    var a := s.agents[i];
    var held := Reserved(s, i, plan);
    var t := Try(held, i, TakeSlot(exhausted));
    assert held.asks[a.who.ask := s.asks[a.who.ask]] == s.asks;
    if !Admissible(plan.bytes, s.budgets[plan.budget], s.connections[plan.connection], exhausted) {
      assert t.agents == s.agents;
      assert t.budgets == s.budgets;
    } else {
      assert t.agents == s.agents[i := Admitting(a.who, plan, Recorded(|s.records|))];
    }
  }

  /** On a connection still open a claimed admission is leased, and another goes on to the claim. */
  lemma SoloConfirm(s: State, t: State, i: nat, plan: Plan, exhausted: bool)
    requires CanStart(s, i, plan) && HasReserved(s, t, i, plan, exhausted, Recorded(|s.records|))
    ensures var u := Try(t, i, Confirm);
      if plan.claimed then AllOrNothing(s, u, i, plan, exhausted) && u.agents[i].Lease?
      else HasReserved(s, u, i, plan, exhausted, Vetted(|s.records|))
  {
    var who := s.agents[i].who;
    var u := Try(t, i, Confirm);
    assert s.asks[who.ask := s.asks[who.ask]] == s.asks;
    var next := if plan.claimed then Lease(who, |s.records|, Idle) else Admitting(who, plan, Vetted(|s.records|));
    assert u.agents == s.agents[i := next];
  }

  /** The claim decides: leased, or undone and reported. */
  lemma SoloWin(s: State, t: State, i: nat, plan: Plan, exhausted: bool)
    requires CanStart(s, i, plan) && !plan.claimed && HasReserved(s, t, i, plan, exhausted, Vetted(|s.records|))
    ensures AllOrNothing(s, Try(t, i, WinLease), i, plan, exhausted)
  {
    var who := s.agents[i].who;
    var ask := s.asks[who.ask];
    var u := Try(t, i, WinLease);
    assert s.asks[who.ask := ask] == s.asks;
    if !ask.used {
      assert u.agents == s.agents[i := Lease(who, |s.records|, Idle)];
    } else {
      assert u.agents == s.agents[i := Spent];
      assert u.records == s.records + [NewRecord(who, plan).(recycled := true)];
      assert u.budgets == s.budgets;
      assert u.connections == s.connections;
    }
  }

  lemma RefusedStays(s: State, i: nat, exhausted: bool)
    requires i < |s.agents| && (s.agents[i].Responder? || s.agents[i].Fallback? || s.agents[i].Lease?)
    ensures Try(s, i, TakeSlot(exhausted)) == s && Try(s, i, Confirm) == s && Try(s, i, WinLease) == s
  {
  }

  /** Without interference the steps of an admission are all-or-nothing. */
  lemma SoloAdmission(s: State, i: nat, plan: Plan, exhausted: bool)
    requires CanStart(s, i, plan)
    ensures AllOrNothing(s, Solo(s, i, plan, exhausted), i, plan, exhausted)
  {
    SoloPermits(s, i, plan);
    var b := s.budgets[plan.budget];
    if 0 < plan.bytes < U32_LIMIT && 0 < b.jobs && plan.bytes <= b.bytes {
      SoloSlot(s, i, plan, exhausted);
      if Admissible(plan.bytes, b, s.connections[plan.connection], exhausted) {
        SoloEnds(s, Try(Reserved(s, i, plan), i, TakeSlot(exhausted)), i, plan, exhausted);
      } else {
        RefusedStays(s, i, exhausted);
      }
    } else {
      RefusedStays(s, i, exhausted);
    }
  }

  lemma SoloEnds(s: State, t: State, i: nat, plan: Plan, exhausted: bool)
    requires CanStart(s, i, plan) && HasReserved(s, t, i, plan, exhausted, Recorded(|s.records|))
    ensures AllOrNothing(s, Try(Try(t, i, Confirm), i, WinLease), i, plan, exhausted)
  {
    SoloConfirm(s, t, i, plan, exhausted);
    if plan.claimed {
      RefusedStays(Try(t, i, Confirm), i, exhausted);
    } else {
      SoloWin(s, Try(t, i, Confirm), i, plan, exhausted);
    }
  }
}
