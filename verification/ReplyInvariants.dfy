/** What every reachable state of the reply system keeps. */
module ReplyInvariants {
  import opened Common
  import opened Replies

  // ---------------------------------------------------------------- sums over agents and records

  datatype Measure =
    | Owners(ask: nat)
    | Unnoticed(ask: nat)
    | Jobs(budget: nat)
    | ByteCount(budget: nat)
    | PublishedBytes(budget: nat)
    | Slots(connection: nat)
    | Ready(connection: nat)

  /** The agent holds a won claim whose reply has not been handed over. */
  predicate Owns(a: Agent) {
    a.Claimed? || a.Enqueuing? || a.Fallback? || (a.Admitting? && a.plan.claimed) || (a.Lease? && !a.phase.Waiting?)
  }

  function AgentWeight(a: Agent, m: Measure): nat {
    match m
    case Owners(k) => if Owns(a) && a.who.ask == k then 1 else 0
    case Unnoticed(k) => if Owns(a) && a.who.ask == k && !a.who.notified then 1 else 0
    case Jobs(b) => if a.Admitting? && a.plan.budget == b && (a.stage.JobHeld? || a.stage.BytesHeld?) then 1 else 0
    case ByteCount(b) => if a.Admitting? && a.plan.budget == b && a.stage.BytesHeld? then a.plan.bytes else 0
    case _ => 0
  }

  function RecordWeight(r: Record, m: Measure): nat {
    match m
    case Jobs(b) => if !r.recycled && r.budget == b then 1 else 0
    case ByteCount(b) => if !r.recycled && r.budget == b then r.bytes else 0
    case PublishedBytes(b) => if !r.recycled && r.budget == b && r.published.Some? then r.published.value else 0
    case Slots(c) => if !r.recycled && r.connection == c then 1 else 0
    case Ready(c) => if !r.recycled && r.connection == c && r.queued then 1 else 0
    case _ => 0
  }

  function AgentSum(agents: seq<Agent>, m: Measure): nat
    decreases |agents|
  {
    if agents == [] then 0
    else AgentSum(agents[..|agents| - 1], m) + AgentWeight(agents[|agents| - 1], m)
  }

  function RecordSum(records: seq<Record>, m: Measure): nat
    decreases |records|
  {
    if records == [] then 0
    else RecordSum(records[..|records| - 1], m) + RecordWeight(records[|records| - 1], m)
  }

  lemma {:induction false} AgentMoves(agents: seq<Agent>, i: nat, a: Agent, m: Measure)
    requires i < |agents|
    ensures AgentWeight(agents[i], m) <= AgentSum(agents, m)
    ensures AgentSum(agents[i := a], m) == AgentSum(agents, m) - AgentWeight(agents[i], m) + AgentWeight(a, m)
    decreases |agents|
  {
    var n := |agents| - 1;
    if i == n {
      assert agents[i := a][..n] == agents[..n];
    } else {
      AgentMoves(agents[..n], i, a, m);
      assert agents[i := a][..n] == agents[..n][i := a];
    }
  }

  lemma {:induction false} RecordMoves(records: seq<Record>, i: nat, r: Record, m: Measure)
    requires i < |records|
    ensures RecordWeight(records[i], m) <= RecordSum(records, m)
    ensures RecordSum(records[i := r], m) == RecordSum(records, m) - RecordWeight(records[i], m) + RecordWeight(r, m)
    decreases |records|
  {
    var n := |records| - 1;
    if i == n {
      assert records[i := r][..n] == records[..n];
    } else {
      RecordMoves(records[..n], i, r, m);
      assert records[i := r][..n] == records[..n][i := r];
    }
  }

  lemma AgentJoins(agents: seq<Agent>, a: Agent, m: Measure)
    ensures AgentSum(agents + [a], m) == AgentSum(agents, m) + AgentWeight(a, m)
  {
    assert (agents + [a])[..|agents + [a]| - 1] == agents;
  }

  lemma RecordJoins(records: seq<Record>, r: Record, m: Measure)
    ensures RecordSum(records + [r], m) == RecordSum(records, m) + RecordWeight(r, m)
  {
    assert (records + [r])[..|records + [r]| - 1] == records;
  }

  lemma {:induction false} NoneOwn(agents: seq<Agent>, k: nat)
    requires forall i | 0 <= i < |agents| :: agents[i].Spent? || agents[i].who.ask != k
    ensures AgentSum(agents, Owners(k)) == 0 && AgentSum(agents, Unnoticed(k)) == 0
    decreases |agents|
  {
    if agents != [] { NoneOwn(agents[..|agents| - 1], k); }
  }

  lemma {:induction false} ReadyWithinSlots(records: seq<Record>, c: nat)
    ensures RecordSum(records, Ready(c)) <= RecordSum(records, Slots(c))
    decreases |records|
  {
    if records != [] { ReadyWithinSlots(records[..|records| - 1], c); }
  }

  /** Stored replies fit the byte permits their records own. */
  lemma {:induction false} PublishedWithinHeld(records: seq<Record>, b: nat)
    requires forall r | 0 <= r < |records| && records[r].published.Some? ::
      records[r].published.value <= records[r].bytes
    ensures RecordSum(records, PublishedBytes(b)) <= RecordSum(records, ByteCount(b))
    decreases |records|
  {
    if records != [] {
      var n := |records| - 1;
      assert forall r | 0 <= r < n :: records[..n][r] == records[r];
      PublishedWithinHeld(records[..n], b);
    }
  }

  // ---------------------------------------------------------------- the invariants

  /** A won claim is owned by one agent, handed over once, or lost in one recorded way. */
  predicate AskOk(ask: Ask, owners: nat, unnoticed: nat) {
    ask.claims == (if ask.used then 1 else 0) &&
    owners + ask.handoffs + ask.refused + ask.dropped + ask.cut == ask.claims &&
    ask.notices + unnoticed <= ask.claims
  }

  predicate AsksOk(asks: seq<Ask>, agents: seq<Agent>) {
    forall k | 0 <= k < |asks| :: AskOk(asks[k], AgentSum(agents, Owners(k)), AgentSum(agents, Unnoticed(k)))
  }

  predicate BudgetOk(b: Budget, jobs: nat, bytes: nat) {
    BudgetAllowed(b) && b.jobs + jobs == b.jobLimit && b.bytes + bytes == b.byteLimit
  }

  function HeldJobs(agents: seq<Agent>, records: seq<Record>, b: nat): nat {
    AgentSum(agents, Jobs(b)) + RecordSum(records, Jobs(b))
  }

  function HeldBytes(agents: seq<Agent>, records: seq<Record>, b: nat): nat {
    AgentSum(agents, ByteCount(b)) + RecordSum(records, ByteCount(b))
  }

  predicate BudgetsOk(budgets: seq<Budget>, agents: seq<Agent>, records: seq<Record>) {
    forall b | 0 <= b < |budgets| :: BudgetOk(budgets[b], HeldJobs(agents, records, b), HeldBytes(agents, records, b))
  }

  predicate ConnectionOk(c: Connection, slots: nat) {
    c.free + slots <= REPLY_SLOT_CAP && (!c.closed ==> c.free + slots == REPLY_SLOT_CAP)
  }

  predicate ConnectionsOk(connections: seq<Connection>, records: seq<Record>) {
    forall c | 0 <= c < |connections| :: ConnectionOk(connections[c], RecordSum(records, Slots(c)))
  }

  /** The cancellation reply fits the reservation and one inline frame of its connection, a stored reply the former. */
  predicate RecordOk(r: Record, budgets: seq<Budget>, connections: seq<Connection>) {
    r.budget < |budgets| && r.connection < |connections| &&
    PlanFits(r.bytes, budgets[r.budget].cancelledLen, connections[r.connection].maxMessage) &&
    (r.queued ==> r.activated) && (r.shut ==> connections[r.connection].closed) &&
    (r.published.Some? ==> r.published.value <= r.bytes)
  }

  predicate RecordsOk(records: seq<Record>, budgets: seq<Budget>, connections: seq<Connection>) {
    forall r | 0 <= r < |records| :: RecordOk(records[r], budgets, connections)
  }

  /** What an agent knows of its own record before the record is activated. */
  predicate Untouched(r: Record, closed: bool) {
    !r.activated && !r.cancelled && (r.recycled ==> closed)
  }

  predicate RecordLink(a: Agent, records: seq<Record>, connections: seq<Connection>) {
    HasRecord(a) ==>
      RecordOf(a) < |records| &&
      var r := records[RecordOf(a)];
      r.ask == a.who.ask && r.connection < |connections| &&
      (if a.Lease? && a.phase.Waiting? then r.activated else Untouched(r, connections[r.connection].closed)) &&
      (r.published.None? <==> a.Admitting? || a.phase.Idle?)
  }

  predicate RecordLinks(agents: seq<Agent>, records: seq<Record>, connections: seq<Connection>) {
    (forall i | 0 <= i < |agents| :: RecordLink(agents[i], records, connections)) &&
    (forall i, j | 0 <= i < j < |agents| && HasRecord(agents[i]) && HasRecord(agents[j]) ::
       RecordOf(agents[i]) != RecordOf(agents[j]))
  }

  /** The observer was called unless the payload was too large to show or there is none. */
  predicate Shown(a: Agent) {
    (a.Enqueuing? ==> a.who.notified || !a.who.observed || a.oversize) &&
    (a.Lease? && (a.phase.Observed? || a.phase.Waiting?) ==> a.who.notified || !a.who.observed) &&
    (a.Responder? || (a.Admitting? && !a.plan.claimed) ==> !a.who.notified)
  }

  predicate AgentOk(a: Agent, asks: seq<Ask>, budgets: nat, connections: nat) {
    !a.Spent? ==>
      a.who.ask < |asks| && (a.who.notified ==> 0 < asks[a.who.ask].notices) && Shown(a) &&
      (a.Admitting? ==> a.plan.budget < budgets && a.plan.connection < connections)
  }

  predicate AgentsOk(agents: seq<Agent>, asks: seq<Ask>, budgets: nat, connections: nat) {
    forall i | 0 <= i < |agents| :: AgentOk(agents[i], asks, budgets, connections)
  }

  predicate Inv(s: State) {
    AsksOk(s.asks, s.agents) && BudgetsOk(s.budgets, s.agents, s.records) && ConnectionsOk(s.connections, s.records) &&
    RecordsOk(s.records, s.budgets, s.connections) && RecordLinks(s.agents, s.records, s.connections) &&
    AgentsOk(s.agents, s.asks, |s.budgets|, |s.connections|)
  }

  // ---------------------------------------------------------------- asks

  lemma TurnBalances(s: State, i: nat, action: Action, owners: nat, unnoticed: nat)
    requires CanAct(s, i, action) && RecordLink(s.agents[i], s.records, s.connections)
    requires var k := s.agents[i].who.ask;
      AskOk(s.asks[k], owners, unnoticed) &&
      AgentWeight(s.agents[i], Owners(k)) <= owners && AgentWeight(s.agents[i], Unnoticed(k)) <= unnoticed
    ensures var k := s.agents[i].who.ask;
      var turn := TurnOf(s, i, action);
      AskOk(turn.ask, owners - AgentWeight(s.agents[i], Owners(k)) + AgentWeight(turn.agent, Owners(k)),
            unnoticed - AgentWeight(s.agents[i], Unnoticed(k)) + AgentWeight(turn.agent, Unnoticed(k)))
  {
  }

  lemma TurnStaysOnAsk(s: State, i: nat, action: Action)
    requires CanAct(s, i, action)
    ensures var turn := TurnOf(s, i, action); turn.agent.Spent? || turn.agent.who.ask == s.agents[i].who.ask
  {
  }

  lemma ActKeepsAsks(s: State, i: nat, action: Action)
    requires Enabled(s, Act(i, action)) && RecordLink(s.agents[i], s.records, s.connections)
    requires AsksOk(s.asks, s.agents)
    ensures AsksOk(Apply(s, Act(i, action)).asks, Apply(s, Act(i, action)).agents)
  {
    var turn := TurnOf(s, i, action);
    var t := s.agents[i].who.ask;
    TurnStaysOnAsk(s, i, action);
    forall k | 0 <= k < |s.asks|
      ensures AskOk(s.asks[t := turn.ask][k], AgentSum(s.agents[i := turn.agent], Owners(k)),
                    AgentSum(s.agents[i := turn.agent], Unnoticed(k)))
    {
      AgentMoves(s.agents, i, turn.agent, Owners(k));
      AgentMoves(s.agents, i, turn.agent, Unnoticed(k));
      if k == t { TurnBalances(s, i, action, AgentSum(s.agents, Owners(k)), AgentSum(s.agents, Unnoticed(k))); }
    }
  }

  lemma JoinKeepsAsks(asks: seq<Ask>, agents: seq<Agent>, a: Agent)
    requires a.Responder? && AsksOk(asks, agents)
    ensures AsksOk(asks, agents + [a])
  {
    forall k | 0 <= k < |asks|
      ensures AskOk(asks[k], AgentSum(agents + [a], Owners(k)), AgentSum(agents + [a], Unnoticed(k)))
    {
      AgentJoins(agents, a, Owners(k));
      AgentJoins(agents, a, Unnoticed(k));
    }
  }

  lemma SharedStep(s: State, step: Step)
    requires Enabled(s, step) && (step.Finish? || step.Close? || step.Sweep?)
    ensures Apply(s, step).asks == s.asks && Apply(s, step).agents == s.agents
  {
  }

  lemma OtherKeepsAsks(s: State, step: Step)
    requires Enabled(s, step) && !step.Act? && AsksOk(s.asks, s.agents)
    requires AgentsOk(s.agents, s.asks, |s.budgets|, |s.connections|)
    ensures AsksOk(Apply(s, step).asks, Apply(s, step).agents)
  {
    if step.Arrive? {
      NoneOwn(s.agents, |s.asks|);
    } else if step.Mint? {
      JoinKeepsAsks(s.asks, s.agents, Responder(Who(step.ask, step.observed, false)));
    } else if step.Clone? {
      JoinKeepsAsks(s.asks, s.agents, s.agents[step.agent]);
    } else {
      SharedStep(s, step);
    }
  }

  // ---------------------------------------------------------------- permits

  /** How an effect shifts a permit count away from its budget and onto the records. */
  predicate Shifts(e: Effect, records: seq<Record>, m: Measure, was: nat, now: nat) {
    match e
    case Nothing => now == was
    case JobOut(b) => now == was + if m == Jobs(b) then 1 else 0
    case BytesOut(b, n) => now == was + if m == ByteCount(b) then n else 0
    case Return(b, jobs, bytes) => was == now + if m == Jobs(b) then jobs else if m == ByteCount(b) then bytes else 0
    case Open(r) => was == now + RecordWeight(r, m)
    case Mark(at, r) => now == was && at < |records| && RecordWeight(r, m) == RecordWeight(records[at], m)
    case Recycle(at, r) => now == was && RecordWeight(r, m) == 0
  }

  /** An agent gains exactly the permits its effect takes from the budget. */
  lemma TurnShifts(s: State, i: nat, action: Action, m: Measure)
    requires CanAct(s, i, action) && (m.Jobs? || m.ByteCount?)
    ensures Shifts(TurnOf(s, i, action).effect, s.records, m,
                   AgentWeight(s.agents[i], m), AgentWeight(TurnOf(s, i, action).agent, m))
  {
  }

  function Available(b: Budget, m: Measure): nat { if m.Jobs? then b.jobs else b.bytes }

  function Limit(b: Budget, m: Measure): nat { if m.Jobs? then b.jobLimit else b.byteLimit }

  predicate MeasureOf(m: Measure, b: nat) { m == Jobs(b) || m == ByteCount(b) }

  lemma EffectConserves(s: State, e: Effect, b: nat, m: Measure, was: nat, now: nat)
    requires EffectFits(s, e) && b < |s.budgets| && MeasureOf(m, b) && Shifts(e, s.records, m, was, now)
    ensures var t := Do(s, e);
      Available(t.budgets[b], m) + now + RecordSum(t.records, m) ==
      Available(s.budgets[b], m) + was + RecordSum(s.records, m)
    ensures Do(s, e).budgets[b].cancelledLen == s.budgets[b].cancelledLen
    ensures Limit(Do(s, e).budgets[b], m) == Limit(s.budgets[b], m)
  {
    if e.Open? {
      RecordJoins(s.records, e.record, m);
    } else if e.Mark? || e.Recycle? {
      RecordMoves(s.records, e.at, e.record, m);
    }
  }

  lemma PermitsMove(s: State, i: nat, action: Action, b: nat, m: Measure)
    requires Enabled(s, Act(i, action)) && b < |s.budgets| && MeasureOf(m, b)
    ensures var t := Apply(s, Act(i, action));
      Available(t.budgets[b], m) + AgentSum(t.agents, m) + RecordSum(t.records, m) ==
      Available(s.budgets[b], m) + AgentSum(s.agents, m) + RecordSum(s.records, m)
    ensures var t := Apply(s, Act(i, action));
      Limit(t.budgets[b], m) == Limit(s.budgets[b], m) && t.budgets[b].cancelledLen == s.budgets[b].cancelledLen
  {
    var turn := TurnOf(s, i, action);
    AgentMoves(s.agents, i, turn.agent, m);
    TurnShifts(s, i, action, m);
    EffectConserves(s, turn.effect, b, m, AgentWeight(s.agents[i], m), AgentWeight(turn.agent, m));
  }

  lemma ActKeepsBudgets(s: State, i: nat, action: Action)
    requires Enabled(s, Act(i, action)) && BudgetsOk(s.budgets, s.agents, s.records)
    ensures var t := Apply(s, Act(i, action)); BudgetsOk(t.budgets, t.agents, t.records)
  {
    var t := Apply(s, Act(i, action));
    forall b | 0 <= b < |t.budgets|
      ensures BudgetOk(t.budgets[b], HeldJobs(t.agents, t.records, b), HeldBytes(t.agents, t.records, b))
    {
      PermitsMove(s, i, action, b, Jobs(b));
      PermitsMove(s, i, action, b, ByteCount(b));
    }
  }

  lemma RecycleKeepsBudgets(s: State, at: nat, r: Record)
    requires EffectFits(s, Recycle(at, r)) && r.recycled && BudgetsOk(s.budgets, s.agents, s.records)
    ensures var t := Do(s, Recycle(at, r)); BudgetsOk(t.budgets, s.agents, t.records)
  {
    var t := Do(s, Recycle(at, r));
    forall b | 0 <= b < |t.budgets|
      ensures BudgetOk(t.budgets[b], HeldJobs(s.agents, t.records, b), HeldBytes(s.agents, t.records, b))
    {
      EffectConserves(s, Recycle(at, r), b, Jobs(b), 0, 0);
      EffectConserves(s, Recycle(at, r), b, ByteCount(b), 0, 0);
    }
  }

  lemma OtherKeepsBudgets(s: State, step: Step)
    requires Enabled(s, step) && !step.Act? && BudgetsOk(s.budgets, s.agents, s.records)
    ensures var t := Apply(s, step); BudgetsOk(t.budgets, t.agents, t.records)
  {
    if step.Finish? {
      RecycleKeepsBudgets(s, step.record, s.records[step.record].(recycled := true));
    } else if step.Sweep? {
      RecycleKeepsBudgets(s, step.record, s.records[step.record].(shut := true, recycled := true));
    } else if step.Mint? || step.Clone? {
      var t := Apply(s, step);
      forall b | 0 <= b < |t.budgets|
        ensures BudgetOk(t.budgets[b], HeldJobs(t.agents, t.records, b), HeldBytes(t.agents, t.records, b))
      {
        AgentJoins(s.agents, t.agents[|s.agents|], Jobs(b));
        AgentJoins(s.agents, t.agents[|s.agents|], ByteCount(b));
      }
    }
  }

  // ---------------------------------------------------------------- slots

  /** An effect may only open, mark or recycle a record, each as the slots expect. */
  predicate SlotSafe(e: Effect, records: seq<Record>) {
    (e.Mark? ==>
       e.at < |records| && e.record.recycled == records[e.at].recycled &&
       e.record.connection == records[e.at].connection) &&
    (e.Recycle? ==> e.at < |records| && e.record.recycled) &&
    (e.Open? ==> !e.record.recycled)
  }

  lemma EffectKeepsConnections(s: State, e: Effect)
    requires EffectFits(s, e) && SlotSafe(e, s.records) && ConnectionsOk(s.connections, s.records)
    ensures ConnectionsOk(Do(s, e).connections, Do(s, e).records)
  {
    var t := Do(s, e);
    forall c | 0 <= c < |t.connections| ensures ConnectionOk(t.connections[c], RecordSum(t.records, Slots(c))) {
      if e.Open? {
        RecordJoins(s.records, e.record, Slots(c));
      } else if e.Mark? || e.Recycle? {
        RecordMoves(s.records, e.at, e.record, Slots(c));
      }
    }
  }

  lemma TurnSlotSafe(s: State, i: nat, action: Action)
    requires CanAct(s, i, action)
    ensures SlotSafe(TurnOf(s, i, action).effect, s.records)
  {
  }

  lemma KeepsConnections(s: State, step: Step)
    requires Enabled(s, step) && ConnectionsOk(s.connections, s.records)
    ensures ConnectionsOk(Apply(s, step).connections, Apply(s, step).records)
  {
    if step.Act? {
      TurnSlotSafe(s, step.agent, step.action);
      EffectKeepsConnections(s, TurnOf(s, step.agent, step.action).effect);
    } else if step.Finish? {
      EffectKeepsConnections(s, Recycle(step.record, s.records[step.record].(recycled := true)));
    } else if step.Sweep? {
      EffectKeepsConnections(s, Recycle(step.record, s.records[step.record].(shut := true, recycled := true)));
    }
  }
}
