/** What holds of replies, leases and budgets over every run. */
module ReplyRuns {
  import opened Common
  import opened Replies
  import opened ReplyInvariants
  import opened ReplySteps

  ghost predicate Reaches(start: State, run: seq<Step>, s: State) {
    Initial(start) && After(start, run) == Some(s)
  }

  lemma ReachedInv(start: State, run: seq<Step>, s: State)
    requires Reaches(start, run, s)
    ensures Inv(s)
  {
    InitialInv(start);
    RunInv(start, run);
  }

  // ---------------------------------------------------------------- one reply per ask

  lemma {:induction false} OwnerCounted(agents: seq<Agent>, i: nat, k: nat)
    requires i < |agents| && Owns(agents[i]) && agents[i].who.ask == k
    ensures 1 <= AgentSum(agents, Owners(k))
  {
    AgentMoves(agents, i, agents[i], Owners(k));
  }

  lemma TwoOwners(agents: seq<Agent>, i: nat, j: nat, k: nat)
    requires i < j < |agents| && Owns(agents[i]) && Owns(agents[j])
    requires agents[i].who.ask == k && agents[j].who.ask == k
    ensures 2 <= AgentSum(agents, Owners(k))
  {
    AgentMoves(agents, i, Spent, Owners(k));
    OwnerCounted(agents[i := Spent], j, k);
  }

  /**
   However responders are cloned, raced, retried, or turned into leases: at most one claim is
   won, at most one transport accepts a frame, the observer is called at most once, and at most
   one agent owns the claim. A won claim is owned, handed over, or lost in exactly one recorded way.
   */
  lemma AtMostOneReply(start: State, run: seq<Step>, s: State, k: nat)
    requires Reaches(start, run, s) && k < |s.asks|
    ensures var ask := s.asks[k];
      ask.handoffs <= ask.claims <= 1 && ask.notices <= ask.claims && (ask.used <==> ask.claims == 1) &&
      AgentSum(s.agents, Owners(k)) + ask.handoffs + ask.refused + ask.dropped + ask.cut == ask.claims
    ensures forall i, j | 0 <= i < j < |s.agents| && Owns(s.agents[i]) && Owns(s.agents[j]) ::
      s.agents[i].who.ask == k ==> s.agents[j].who.ask != k
  {
    ReachedInv(start, run, s);
    forall i, j | 0 <= i < j < |s.agents| && Owns(s.agents[i]) && Owns(s.agents[j]) && s.agents[i].who.ask == k
      ensures s.agents[j].who.ask != k
    {
      if s.agents[j].who.ask == k { TwoOwners(s.agents, i, j, k); }
    }
  }

  predicate AskSettled(s: State, k: nat) {
    k < |s.asks| && s.asks[k].used && AgentSum(s.agents, Owners(k)) == 0
  }

  /** An agent that owns no claim leaves a used ask alone. */
  lemma BystanderTurn(s: State, i: nat, action: Action)
    requires CanAct(s, i, action) && RecordLink(s.agents[i], s.records, s.connections)
    requires !Owns(s.agents[i]) && s.asks[s.agents[i].who.ask].used
    ensures TurnOf(s, i, action).ask == s.asks[s.agents[i].who.ask]
  {
  }

  lemma SettledStep(s: State, step: Step, k: nat)
    requires Inv(s) && Enabled(s, step) && AskSettled(s, k)
    ensures k < |Apply(s, step).asks| && Apply(s, step).asks[k] == s.asks[k] && AskSettled(Apply(s, step), k)
  {
    StepKeepsInv(s, step);
    var t := Apply(s, step);
    if step.Act? && s.agents[step.agent].who.ask == k {
      AgentMoves(s.agents, step.agent, s.agents[step.agent], Owners(k));
      assert RecordLink(s.agents[step.agent], s.records, s.connections);
      BystanderTurn(s, step.agent, step.action);
    }
    assert t.asks[k] == s.asks[k];
    assert AskOk(t.asks[k], AgentSum(t.agents, Owners(k)), AgentSum(t.agents, Unnoticed(k)));
  }

  /** Once a won claim is no longer owned, nothing in any later run touches the ask again. */
  lemma {:induction false} SettledForever(s: State, run: seq<Step>, k: nat)
    requires Inv(s) && AskSettled(s, k)
    ensures After(s, run).Some? ==> k < |After(s, run).value.asks| && After(s, run).value.asks[k] == s.asks[k]
    ensures After(s, run).Some? ==> AskSettled(After(s, run).value, k)
    decreases |run|
  {
    if run != [] {
      var n := |run| - 1;
      SettledForever(s, run[..n], k);
      RunInv(s, run[..n]);
      var t := After(s, run[..n]);
      if t.Some? && Enabled(t.value, run[n]) { SettledStep(t.value, run[n], k); }
    }
  }

  /** Handing over a reply the observer could be shown finds the observer already called. */
  lemma ObservedBeforeHandover(s: State, i: nat, action: Action)
    requires Inv(s) && Enabled(s, Act(i, action)) && s.agents[i].who.observed
    requires (action.Enqueue? && !s.agents[i].oversize) || action.Activate?
    ensures s.agents[i].who.notified && s.asks[s.agents[i].who.ask].notices == 1
    ensures Apply(s, Act(i, action)).asks[s.agents[i].who.ask].notices == 1
  {
    var k := s.agents[i].who.ask;
    assert AgentOk(s.agents[i], s.asks, |s.budgets|, |s.connections|);
    assert AskOk(s.asks[k], AgentSum(s.agents, Owners(k)), AgentSum(s.agents, Unnoticed(k)));
  }

  /** A minted responder carries its observer, not called yet; a clone is one more handle on the same ask. */
  lemma NewHandles(s: State, ask: nat, observed: bool, i: nat)
    requires ask < |s.asks| && i < |s.agents| && s.agents[i].Responder?
    ensures Enabled(s, Mint(ask, observed)) && Enabled(s, Clone(i))
    ensures Apply(s, Mint(ask, observed)) == s.(agents := s.agents + [Responder(Who(ask, observed, false))])
    ensures Apply(s, Clone(i)) == s.(agents := s.agents + [Responder(s.agents[i].who)])
  {
  }

  // ---------------------------------------------------------------- how a claim ends

  /** The lease lets go of its record: it is activated, dropped, or given a reply too long for it. */
  predicate LetsGo(a: Agent, r: Record, action: Action) {
    a.Lease? && !a.phase.Waiting? &&
    (action.Activate? || action.DropLease? || (action.Publish? && r.bytes < action.len))
  }

  /** A transport takes the frame. */
  predicate HandsOver(s: State, i: nat, action: Action)
    requires CanAct(s, i, action)
  {
    var a := s.agents[i];
    (action.Enqueue? && action.accepted) || (action.Retry? && action.accepted) ||
    (CanLease(a, action) && LetsGo(a, s.records[RecordOf(a)], action) &&
     !s.connections[s.records[RecordOf(a)].connection].closed)
  }

  /** The reply is refused for good: it cannot be encoded, or the queue refuses it and nobody keeps the claim. */
  predicate Refuses(a: Agent, action: Action) {
    action.EncodeFails? || (action.Enqueue? && !action.accepted && a.Enqueuing? && !a.op.WithFallback?) ||
    (action.Retry? && !action.accepted)
  }

  /** The connection is gone: a lease lets go of its record, or its reply finds the record shut. */
  predicate Cuts(s: State, i: nat, action: Action)
    requires CanAct(s, i, action)
  {
    var a := s.agents[i];
    CanLease(a, action) && a.Lease? && !a.phase.Waiting? &&
    var r := s.records[RecordOf(a)];
    (LetsGo(a, r, action) && s.connections[r.connection].closed) || (action.Publish? && action.len <= r.bytes && r.shut)
  }

  function Bit(b: bool): nat { if b then 1 else 0 }

  /** Each way a claim ends is counted exactly when an action ends it that way. */
  lemma EndingCounted(s: State, i: nat, action: Action)
    requires Inv(s) && Enabled(s, Act(i, action))
    ensures var a := s.agents[i];
      var was, now := s.asks[a.who.ask], Apply(s, Act(i, action)).asks[a.who.ask];
      && now.handoffs == was.handoffs + Bit(HandsOver(s, i, action))
      && now.refused == was.refused + Bit(Refuses(a, action))
      && now.dropped == was.dropped + Bit(action.Discard? && a.Fallback?)
      && now.cut == was.cut + Bit(Cuts(s, i, action))
    ensures action.Discard? ==> Apply(s, Act(i, action)).agents == s.agents[i := Spent]
  {
    assert RecordLink(s.agents[i], s.records, s.connections);
    if HasRecord(s.agents[i]) { assert RecordOk(s.records[RecordOf(s.agents[i])], s.budgets, s.connections); }
    TurnEnds(s, i, action);
  }

  lemma TurnEnds(s: State, i: nat, action: Action)
    requires CanAct(s, i, action) && RecordLink(s.agents[i], s.records, s.connections)
    ensures var a := s.agents[i];
      var was, now := s.asks[a.who.ask], TurnOf(s, i, action).ask;
      && now.handoffs == was.handoffs + Bit(HandsOver(s, i, action))
      && now.refused == was.refused + Bit(Refuses(a, action))
      && now.dropped == was.dropped + Bit(action.Discard? && a.Fallback?)
      && now.cut == was.cut + Bit(Cuts(s, i, action))
  {
  }

  // ---------------------------------------------------------------- leases

  predicate LeaseOpen(s: State, i: nat) {
    i < |s.agents| && s.agents[i].Lease? && !s.agents[i].phase.Waiting? && s.agents[i].lease < |s.records| &&
    s.records[s.agents[i].lease].connection < |s.connections| &&
    !s.connections[s.records[s.agents[i].lease].connection].closed
  }

  /**
   A lease on an open connection accepts a reply exactly when it fits the reservation, and
   stores it under its length; a longer one ends the lease with its cancellation reply queued.
   */
  lemma LeaseAccepts(s: State, i: nat, len: nat)
    requires Inv(s) && LeaseOpen(s, i) && s.agents[i].phase.Idle?
    ensures Enabled(s, Act(i, Publish(len)))
    ensures var t := Apply(s, Act(i, Publish(len)));
      var at := s.agents[i].lease;
      var r := s.records[at];
      t.agents[i] == (if len <= r.bytes then s.agents[i].(phase := Published) else Spent) &&
      t.records[at] ==
        (if len <= r.bytes then r.(published := Some(len))
         else r.(cancelled := true, activated := true, queued := true)) &&
      t.asks[s.agents[i].who.ask].handoffs ==
        s.asks[s.agents[i].who.ask].handoffs + (if len <= r.bytes then 0 else 1)
  {
    assert RecordLink(s.agents[i], s.records, s.connections);
    assert RecordOk(s.records[s.agents[i].lease], s.budgets, s.connections);
    assert AgentOk(s.agents[i], s.asks, |s.budgets|, |s.connections|);
  }

  /**
   While the connection is open a lease lets go of the claim only by queueing its record: a
   reply, a refused reply, and a dropped lease alike hand over exactly one frame. It is the
   stored reply if the lease was activated, and the cancellation reply otherwise.
   */
  lemma LeaseAlwaysDelivers(s: State, i: nat, action: Action)
    requires Inv(s) && LeaseOpen(s, i) && Enabled(s, Act(i, action))
    requires !Owns(Apply(s, Act(i, action)).agents[i])
    ensures var t := Apply(s, Act(i, action));
      t.asks[s.agents[i].who.ask].handoffs == 1 && t.records[s.agents[i].lease].queued &&
        !t.records[s.agents[i].lease].recycled &&
        t.agents[i] == (if action.Activate? && action.wait then s.agents[i].(phase := Waiting) else Spent) &&
        (t.records[s.agents[i].lease].cancelled <==> !action.Activate?) &&
        (action.Activate? ==> t.records[s.agents[i].lease].published.Some?)
  {
    StepKeepsInv(s, Act(i, action));
    var k := s.agents[i].who.ask;
    var t := Apply(s, Act(i, action));
    assert RecordLink(s.agents[i], s.records, s.connections);
    assert RecordOk(s.records[s.agents[i].lease], s.budgets, s.connections);
    assert AskOk(t.asks[k], AgentSum(t.agents, Owners(k)), AgentSum(t.agents, Unnoticed(k)));
  }

  /** A caller waiting for its reply to be written returns exactly once its record is recycled. */
  lemma WaiterReturnsIff(s: State, i: nat)
    requires Inv(s) && i < |s.agents| && s.agents[i].Lease? && s.agents[i].phase.Waiting?
    ensures s.agents[i].lease < |s.records|
    ensures Enabled(s, Act(i, Complete)) <==> s.records[s.agents[i].lease].recycled
    ensures Enabled(s, Act(i, Complete)) ==> Apply(s, Act(i, Complete)).agents == s.agents[i := Spent]
  {
    assert RecordLink(s.agents[i], s.records, s.connections);
    if s.records[s.agents[i].lease].recycled { NeverBlocked(s, i, Complete); }
  }

  /** The ready queue, as long as the slot table, always has room for a lease's record. */
  lemma ActivationHasRoom(s: State, i: nat)
    requires Inv(s) && LeaseOpen(s, i)
    ensures RecordSum(s.records, Ready(s.records[s.agents[i].lease].connection)) < REPLY_SLOT_CAP
  {
    var at := s.agents[i].lease;
    var r := s.records[at];
    assert RecordLink(s.agents[i], s.records, s.connections);
    assert RecordOk(r, s.budgets, s.connections);
    RecordMoves(s.records, at, r.(queued := true), Ready(r.connection));
    RecordMoves(s.records, at, r.(queued := true), Slots(r.connection));
    ReadyWithinSlots(s.records[at := r.(queued := true)], r.connection);
    assert ConnectionOk(s.connections[r.connection], RecordSum(s.records, Slots(r.connection)));
  }

  predicate AllOpen(s: State) { forall c | 0 <= c < |s.connections| :: !s.connections[c].closed }

  lemma OpenBefore(s: State, step: Step)
    requires Enabled(s, step) && AllOpen(Apply(s, step))
    ensures AllOpen(s)
  {
    var t := Apply(s, step);
    forall c | 0 <= c < |s.connections| ensures !s.connections[c].closed { assert !t.connections[c].closed; }
  }

  lemma OpenTurnCutsNothing(s: State, i: nat, action: Action)
    requires CanAct(s, i, action) && RecordsOk(s.records, s.budgets, s.connections) && AllOpen(s)
    ensures TurnOf(s, i, action).ask.cut == s.asks[s.agents[i].who.ask].cut
  {
    if CanLease(s.agents[i], action) {
      assert RecordOk(s.records[RecordOf(s.agents[i])], s.budgets, s.connections);
    }
  }

  predicate Uncut(asks: seq<Ask>) { forall k | 0 <= k < |asks| :: asks[k].cut == 0 }

  lemma OpenStepCutsNothing(s: State, step: Step)
    requires Inv(s) && Enabled(s, step) && AllOpen(s) && Uncut(s.asks)
    ensures Uncut(Apply(s, step).asks)
  {
    if step.Act? { OpenTurnCutsNothing(s, step.agent, step.action); }
  }

  /** No claim is lost to a closed connection unless a connection closed. */
  lemma {:induction false} CutOnlyByClosing(s: State, run: seq<Step>)
    requires Inv(s) && After(s, run).Some? && AllOpen(After(s, run).value)
    requires Uncut(s.asks)
    ensures Uncut(After(s, run).value.asks) && AllOpen(s)
    decreases |run|
  {
    if run != [] {
      var n := |run| - 1;
      var before := After(s, run[..n]).value;
      OpenBefore(before, run[n]);
      CutOnlyByClosing(s, run[..n]);
      RunInv(s, run[..n]);
      OpenStepCutsNothing(before, run[n]);
    }
  }

  /** Since `s`, connection `c` has stayed closed and was given no new record. */
  predicate ClosedSince(s: State, t: State, c: nat) {
    && c < |t.connections| && t.connections[c].closed && |s.records| <= |t.records|
    && forall r | |s.records| <= r < |t.records| :: t.records[r].connection != c
  }

  lemma StaysClosed(s: State, t: State, step: Step, c: nat)
    requires ClosedSince(s, t, c) && Enabled(t, step) && RecordsOk(t.records, t.budgets, t.connections)
    ensures ClosedSince(s, Apply(t, step), c)
  {
    if step.Act? {
      TurnRecordSafe(t, step.agent, step.action);
      EffectStaysClosed(s, t, TurnOf(t, step.agent, step.action).effect, c);
    } else if step.Finish? {
      EffectStaysClosed(s, t, Recycle(step.record, t.records[step.record].(recycled := true)), c);
    } else if step.Sweep? {
      EffectStaysClosed(s, t, Recycle(step.record, t.records[step.record].(shut := true, recycled := true)), c);
    }
  }

  lemma EffectStaysClosed(s: State, t: State, e: Effect, c: nat)
    requires ClosedSince(s, t, c) && EffectFits(t, e) && (e.Open? ==> !t.connections[e.record.connection].closed)
    requires e.Mark? || e.Recycle? ==> e.record.connection == t.records[e.at].connection
    ensures ClosedSince(s, Do(t, e), c)
  {
  }

  /** A closed connection stays closed, and no continuation reserves a record on it. */
  lemma {:induction false} ClosedTakesNone(s: State, c: nat, run: seq<Step>, t: State)
    requires Inv(s) && Enabled(s, Close(c)) && After(Apply(s, Close(c)), run) == Some(t)
    ensures ClosedSince(s, t, c)
    decreases |run|
  {
    var closed := Apply(s, Close(c));
    if run != [] {
      var n := |run| - 1;
      var before := After(closed, run[..n]).value;
      ClosedTakesNone(s, c, run[..n], before);
      StepKeepsInv(s, Close(c));
      RunInv(closed, run[..n]);
      StaysClosed(s, before, run[n], c);
    }
  }

  /** What a refused admission leaves: the responder or fallback, its permits, and no slot. */
  predicate Undone(s: State, t: State, i: nat, r: Record)
    requires i < |s.agents| && s.agents[i].Admitting? && r.budget < |s.budgets|
  {
    var a, b := s.agents[i], s.budgets[r.budget];
    && t.agents == s.agents[i := if a.plan.claimed then Fallback(a.who) else Responder(a.who)]
    && t.asks == s.asks
    && t.budgets ==
       if r.recycled then s.budgets else s.budgets[r.budget := b.(jobs := b.jobs + 1, bytes := b.bytes + r.bytes)]
  }

  /**
   An admission that finds its connection closed at the last check gets back what it started
   from: its record is recycled, and unless closing had done so already its permits return.
   */
  lemma ClosedAdmissionUndone(s: State, i: nat)
    requires i < |s.agents| && s.agents[i].Admitting? && s.agents[i].stage.Recorded? && Enabled(s, Act(i, Confirm))
    requires s.connections[s.records[RecordOf(s.agents[i])].connection].closed
    ensures var at, t := RecordOf(s.agents[i]), Apply(s, Act(i, Confirm));
      Undone(s, t, i, s.records[at]) && t.records[at].recycled
  {
    assert s.asks[s.agents[i].who.ask := s.asks[s.agents[i].who.ask]] == s.asks;
  }

  // ---------------------------------------------------------------- permits and slots

  /** Available and held permits add up to the limits, and free and reserved slots to the table. */
  lemma PermitsConserved(start: State, run: seq<Step>, s: State)
    requires Reaches(start, run, s)
    ensures forall b | 0 <= b < |s.budgets| ::
      s.budgets[b].jobs + HeldJobs(s.agents, s.records, b) == s.budgets[b].jobLimit &&
      s.budgets[b].bytes + HeldBytes(s.agents, s.records, b) == s.budgets[b].byteLimit
    ensures forall c | 0 <= c < |s.connections| && !s.connections[c].closed ::
      s.connections[c].free + RecordSum(s.records, Slots(c)) == 64
    ensures forall r | 0 <= r < |s.records| :: RecordOk(s.records[r], s.budgets, s.connections)
  {
    ReachedInv(start, run, s);
    forall b | 0 <= b < |s.budgets|
      ensures s.budgets[b].jobs + HeldJobs(s.agents, s.records, b) == s.budgets[b].jobLimit
      ensures s.budgets[b].bytes + HeldBytes(s.agents, s.records, b) == s.budgets[b].byteLimit
    {
      assert BudgetOk(s.budgets[b], HeldJobs(s.agents, s.records, b), HeldBytes(s.agents, s.records, b));
    }
    forall c | 0 <= c < |s.connections| && !s.connections[c].closed
      ensures s.connections[c].free + RecordSum(s.records, Slots(c)) == REPLY_SLOT_CAP
    {
      assert ConnectionOk(s.connections[c], RecordSum(s.records, Slots(c)));
    }
  }

  /** The replies stored under a budget, over every run, fit the bytes it has given out. */
  lemma PublishedBounded(start: State, run: seq<Step>, s: State, b: nat)
    requires Reaches(start, run, s) && b < |s.budgets|
    ensures forall r | 0 <= r < |s.records| && s.records[r].published.Some? ::
      s.records[r].published.value <= s.records[r].bytes
    ensures RecordSum(s.records, PublishedBytes(b)) + s.budgets[b].bytes <= s.budgets[b].byteLimit
  {
    ReachedInv(start, run, s);
    forall r | 0 <= r < |s.records| && s.records[r].published.Some?
      ensures s.records[r].published.value <= s.records[r].bytes
    {
      assert RecordOk(s.records[r], s.budgets, s.connections);
    }
    PublishedWithinHeld(s.records, b);
    assert BudgetOk(s.budgets[b], HeldJobs(s.agents, s.records, b), HeldBytes(s.agents, s.records, b));
  }

  /** What recycling a record gives back: one job, its bytes, and its slot unless the connection is closed. */
  predicate GivenBack(s: State, t: State, r: nat)
    requires r < |s.records| && s.records[r].budget < |s.budgets| && s.records[r].connection < |s.connections|
  {
    var was := s.records[r];
    var b, c := s.budgets[was.budget], s.connections[was.connection];
    && |t.records| == |s.records| && t.records[r].recycled
    && t.budgets == s.budgets[was.budget := b.(jobs := b.jobs + 1, bytes := b.bytes + was.bytes)]
    && t.connections == s.connections[was.connection := if c.closed then c else c.(free := c.free + 1)]
  }

  /**
   A queued record can always be finished, and a record of a closed connection swept; the
   first of these gives everything back.
   */
  lemma RecycledOnce(s: State, r: nat)
    requires Inv(s) && r < |s.records|
    ensures s.records[r].budget < |s.budgets| && s.records[r].connection < |s.connections|
    ensures s.records[r].queued && !s.records[r].recycled ==>
      Enabled(s, Finish(r)) && GivenBack(s, Apply(s, Finish(r)), r)
    ensures s.connections[s.records[r].connection].closed ==>
      Enabled(s, Sweep(r)) &&
      if s.records[r].recycled then Apply(s, Sweep(r)).budgets == s.budgets else GivenBack(s, Apply(s, Sweep(r)), r)
  {
    assert RecordOk(s.records[r], s.budgets, s.connections);
  }

  predicate Idling(s: State) {
    (forall i | 0 <= i < |s.agents| :: s.agents[i].Admitting? ==>
       s.agents[i].stage.Started? || HasRecord(s.agents[i])) &&
    (forall r | 0 <= r < |s.records| :: s.records[r].recycled)
  }

  lemma {:induction false} IdleAgentsHoldNothing(agents: seq<Agent>, m: Measure)
    requires m.Jobs? || m.ByteCount?
    requires forall i | 0 <= i < |agents| :: agents[i].Admitting? ==> agents[i].stage.Started? || HasRecord(agents[i])
    ensures AgentSum(agents, m) == 0
    decreases |agents|
  {
    if agents != [] { IdleAgentsHoldNothing(agents[..|agents| - 1], m); }
  }

  lemma {:induction false} RecycledHoldNothing(records: seq<Record>, m: Measure)
    requires forall r | 0 <= r < |records| :: records[r].recycled
    ensures RecordSum(records, m) == 0
    decreases |records|
  {
    if records != [] { RecycledHoldNothing(records[..|records| - 1], m); }
  }

  /** With no admission under way and every record recycled, every permit and slot is back. */
  lemma AllReturned(start: State, run: seq<Step>, s: State)
    requires Reaches(start, run, s) && Idling(s)
    ensures forall b | 0 <= b < |s.budgets| ::
      s.budgets[b].jobs == s.budgets[b].jobLimit && s.budgets[b].bytes == s.budgets[b].byteLimit
    ensures forall c | 0 <= c < |s.connections| && !s.connections[c].closed :: s.connections[c].free == REPLY_SLOT_CAP
  {
    PermitsConserved(start, run, s);
    forall b | 0 <= b < |s.budgets|
      ensures s.budgets[b].jobs == s.budgets[b].jobLimit && s.budgets[b].bytes == s.budgets[b].byteLimit
    {
      IdleAgentsHoldNothing(s.agents, Jobs(b));
      IdleAgentsHoldNothing(s.agents, ByteCount(b));
      RecycledHoldNothing(s.records, Jobs(b));
      RecycledHoldNothing(s.records, ByteCount(b));
    }
    forall c | 0 <= c < |s.connections| && !s.connections[c].closed ensures s.connections[c].free == REPLY_SLOT_CAP {
      RecycledHoldNothing(s.records, Slots(c));
    }
  }

  // ---------------------------------------------------------------- progress

  lemma AdmissionNotBlocked(s: State, i: nat, action: Action)
    requires i < |s.agents| && AgentOk(s.agents[i], s.asks, |s.budgets|, |s.connections|)
    requires CanAdmit(s.agents[i], action)
    requires action.Admit? ==> action.plan.budget < |s.budgets| && action.plan.connection < |s.connections|
    ensures Enabled(s, Act(i, action))
  {
  }

  lemma LeaseNotBlocked(s: State, i: nat, action: Action)
    requires i < |s.agents| && AgentOk(s.agents[i], s.asks, |s.budgets|, |s.connections|)
    requires RecordLink(s.agents[i], s.records, s.connections) && RecordsOk(s.records, s.budgets, s.connections)
    requires CanLease(s.agents[i], action) && (action.Complete? ==> s.records[RecordOf(s.agents[i])].recycled)
    ensures Enabled(s, Act(i, action))
  {
    assert RecordOk(s.records[RecordOf(s.agents[i])], s.budgets, s.connections);
  }

  /** No bookkeeping ever blocks an agent: whatever its own state allows is enabled. */
  lemma NeverBlocked(s: State, i: nat, action: Action)
    requires Inv(s) && i < |s.agents|
    requires var a := s.agents[i];
      CanReply(a, action) ||
      (CanAdmit(a, action) &&
       (action.Admit? ==> action.plan.budget < |s.budgets| && action.plan.connection < |s.connections|)) ||
      (CanLease(a, action) && (action.Complete? ==> RecordOf(a) < |s.records| && s.records[RecordOf(a)].recycled))
    ensures Enabled(s, Act(i, action))
  {
    var a := s.agents[i];
    assert AgentOk(a, s.asks, |s.budgets|, |s.connections|);
    assert RecordLink(a, s.records, s.connections);
    if CanAdmit(a, action) {
      AdmissionNotBlocked(s, i, action);
    } else if CanLease(a, action) {
      LeaseNotBlocked(s, i, action);
    }
  }
}
