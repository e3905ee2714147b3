/** Each step keeps the records, their links to agents, and what agents know of their asks. */
module ReplySteps {
  import opened Common
  import opened Replies
  import opened ReplyInvariants

  // ---------------------------------------------------------------- records

  /** A record's identity never changes, and its flags only move forwards. */
  predicate Continues(was: Record, now: Record, closed: bool) {
    now.ask == was.ask && now.budget == was.budget && now.connection == was.connection && now.bytes == was.bytes &&
    (now.queued ==> now.activated) && (now.shut ==> was.shut || closed) &&
    (now.published.Some? ==> now.published.value <= now.bytes)
  }

  predicate RecordSafe(e: Effect, s: State) {
    (e.Open? ==> RecordOk(e.record, s.budgets, s.connections)) &&
    (e.Mark? || e.Recycle? ==>
       e.at < |s.records| && s.records[e.at].connection < |s.connections| &&
       Continues(s.records[e.at], e.record, s.connections[s.records[e.at].connection].closed))
  }

  lemma TurnRecordSafe(s: State, i: nat, action: Action)
    requires CanAct(s, i, action) && RecordsOk(s.records, s.budgets, s.connections)
    ensures RecordSafe(TurnOf(s, i, action).effect, s)
  {
    var a := s.agents[i];
    if CanLease(a, action) {
      var r := s.records[RecordOf(a)];
      assert RecordOk(r, s.budgets, s.connections);
      LeaseContinues(a, s.asks[a.who.ask], r, s.connections[r.connection].closed, action);
    }
  }

  lemma LeaseContinues(a: Agent, ask: Ask, r: Record, closed: bool, action: Action)
    requires CanLease(a, action) && (r.queued ==> r.activated) && (r.published.Some? ==> r.published.value <= r.bytes)
    ensures var e := Leasing(a, ask, r, closed, action).effect;
      !e.Open? && (e.Mark? || e.Recycle? ==> e.at == RecordOf(a) && Continues(r, e.record, closed))
  {
  }

  lemma EffectKeepsRecords(s: State, e: Effect)
    requires EffectFits(s, e) && RecordSafe(e, s) && RecordsOk(s.records, s.budgets, s.connections)
    ensures var t := Do(s, e); RecordsOk(t.records, t.budgets, t.connections)
  {
    var t := Do(s, e);
    forall r | 0 <= r < |t.records| ensures RecordOk(t.records[r], t.budgets, t.connections) {
      if r < |s.records| { assert RecordOk(s.records[r], s.budgets, s.connections); }
    }
  }

  lemma KeepsRecords(s: State, step: Step)
    requires Enabled(s, step) && RecordsOk(s.records, s.budgets, s.connections)
    ensures var t := Apply(s, step); RecordsOk(t.records, t.budgets, t.connections)
  {
    if step.Act? {
      TurnRecordSafe(s, step.agent, step.action);
      EffectKeepsRecords(s, TurnOf(s, step.agent, step.action).effect);
    } else if step.Finish? {
      assert RecordOk(s.records[step.record], s.budgets, s.connections);
      EffectKeepsRecords(s, Recycle(step.record, s.records[step.record].(recycled := true)));
    } else if step.Sweep? {
      assert RecordOk(s.records[step.record], s.budgets, s.connections);
      EffectKeepsRecords(s, Recycle(step.record, s.records[step.record].(shut := true, recycled := true)));
    } else if step.Close? {
      var t := Apply(s, step);
      forall r | 0 <= r < |t.records| ensures RecordOk(t.records[r], t.budgets, t.connections) {
        assert RecordOk(s.records[r], s.budgets, s.connections);
      }
    }
  }

  // ---------------------------------------------------------------- links between agents and records

  /** Which record index an effect writes. */
  predicate Writes(e: Effect, records: seq<Record>, at: nat) {
    ((e.Mark? || e.Recycle?) && e.at == at) || (e.Open? && at == |records|)
  }

  /** Connections only ever close. */
  predicate OnlyCloses(was: seq<Connection>, now: seq<Connection>) {
    |now| == |was| && forall c | 0 <= c < |was| :: was[c].closed ==> now[c].closed
  }

  lemma EffectKeepsOthers(s: State, e: Effect)
    requires EffectFits(s, e)
    ensures var t := Do(s, e);
      OnlyCloses(s.connections, t.connections) && |s.records| <= |t.records| &&
      forall r | 0 <= r < |s.records| && !Writes(e, s.records, r) :: t.records[r] == s.records[r]
  {
  }

  lemma LinkStays(a: Agent, s: State, e: Effect)
    requires EffectFits(s, e) && RecordLink(a, s.records, s.connections)
    requires HasRecord(a) ==> !Writes(e, s.records, RecordOf(a))
    ensures RecordLink(a, Do(s, e).records, Do(s, e).connections)
  {
    EffectKeepsOthers(s, e);
  }

  lemma TurnLinks(s: State, i: nat, action: Action)
    requires Enabled(s, Act(i, action)) && RecordLink(s.agents[i], s.records, s.connections)
    requires RecordsOk(s.records, s.budgets, s.connections)
    ensures var turn := TurnOf(s, i, action);
      var t := Do(s, turn.effect);
      RecordLink(turn.agent, t.records, t.connections)
  {
    var a := s.agents[i];
    if CanLease(a, action) { assert RecordOk(s.records[RecordOf(a)], s.budgets, s.connections); }
  }

  /** The agent keeps its record or gets a fresh one, and writes no other. */
  lemma TurnWritesOwn(s: State, i: nat, action: Action)
    requires CanAct(s, i, action)
    ensures var a := s.agents[i];
      var turn := TurnOf(s, i, action);
      (HasRecord(turn.agent) ==>
         RecordOf(turn.agent) == |s.records| || (HasRecord(a) && RecordOf(a) == RecordOf(turn.agent))) &&
      forall at :: Writes(turn.effect, s.records, at) ==> at == |s.records| || (HasRecord(a) && RecordOf(a) == at)
  {
  }

  lemma ActKeepsLinks(s: State, i: nat, action: Action)
    requires Enabled(s, Act(i, action)) && RecordLinks(s.agents, s.records, s.connections)
    requires RecordsOk(s.records, s.budgets, s.connections)
    ensures var t := Apply(s, Act(i, action)); RecordLinks(t.agents, t.records, t.connections)
  {
    var turn := TurnOf(s, i, action);
    var t := Apply(s, Act(i, action));
    TurnWritesOwn(s, i, action);
    TurnLinks(s, i, action);
    forall j | 0 <= j < |t.agents| ensures RecordLink(t.agents[j], t.records, t.connections) {
      if j != i {
        assert RecordLink(s.agents[j], s.records, s.connections);
        assert HasRecord(s.agents[j]) && HasRecord(s.agents[i]) ==> RecordOf(s.agents[j]) != RecordOf(s.agents[i]);
        LinkStays(s.agents[j], s, turn.effect);
      }
    }
  }

  lemma OtherKeepsLinks(s: State, step: Step)
    requires Enabled(s, step) && !step.Act? && RecordLinks(s.agents, s.records, s.connections)
    requires RecordsOk(s.records, s.budgets, s.connections)
    ensures var t := Apply(s, step); RecordLinks(t.agents, t.records, t.connections)
  {
    var t := Apply(s, step);
    forall j | 0 <= j < |t.agents| ensures RecordLink(t.agents[j], t.records, t.connections) {
      if j < |s.agents| {
        assert RecordLink(s.agents[j], s.records, s.connections);
        if step.Finish? || step.Sweep? { assert RecordOk(s.records[step.record], s.budgets, s.connections); }
      }
    }
  }

  // ---------------------------------------------------------------- agents and their asks

  lemma TurnAgentOk(s: State, i: nat, action: Action)
    requires CanAct(s, i, action) && AgentOk(s.agents[i], s.asks, |s.budgets|, |s.connections|)
    ensures var turn := TurnOf(s, i, action);
      s.asks[s.agents[i].who.ask].notices <= turn.ask.notices &&
      AgentOk(turn.agent, s.asks[s.agents[i].who.ask := turn.ask], |s.budgets|, |s.connections|)
  {
  }

  lemma KeepsAgents(s: State, step: Step)
    requires Enabled(s, step) && AgentsOk(s.agents, s.asks, |s.budgets|, |s.connections|)
    ensures var t := Apply(s, step); AgentsOk(t.agents, t.asks, |t.budgets|, |t.connections|)
  {
    var t := Apply(s, step);
    if step.Act? { TurnAgentOk(s, step.agent, step.action); }
    forall j | 0 <= j < |t.agents| ensures AgentOk(t.agents[j], t.asks, |t.budgets|, |t.connections|) {
      if j < |s.agents| { assert AgentOk(s.agents[j], s.asks, |s.budgets|, |s.connections|); }
    }
  }

  // ---------------------------------------------------------------- every step, every run

  lemma StepKeepsInv(s: State, step: Step)
    requires Inv(s) && Enabled(s, step)
    ensures Inv(Apply(s, step))
  {
    KeepsConnections(s, step);
    KeepsRecords(s, step);
    KeepsAgents(s, step);
    if step.Act? {
      ActKeepsAsks(s, step.agent, step.action);
      ActKeepsBudgets(s, step.agent, step.action);
      ActKeepsLinks(s, step.agent, step.action);
    } else {
      OtherKeepsAsks(s, step);
      OtherKeepsBudgets(s, step);
      OtherKeepsLinks(s, step);
    }
  }

  lemma {:induction false} RunInv(s: State, run: seq<Step>)
    requires Inv(s)
    ensures After(s, run).Some? ==> Inv(After(s, run).value)
    decreases |run|
  {
    if run != [] {
      RunInv(s, run[..|run| - 1]);
      var t := After(s, run[..|run| - 1]);
      if t.Some? && Enabled(t.value, run[|run| - 1]) { StepKeepsInv(t.value, run[|run| - 1]); }
    }
  }

  lemma InitialInv(s: State)
    requires Initial(s)
    ensures Inv(s)
  {
  }
}
