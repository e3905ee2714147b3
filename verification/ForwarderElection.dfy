/** Every step of a shutdown call keeps each invariant. */
module ForwarderElection {
  import opened Common
  import opened Forwarder
  import opened ForwarderInvariants
  import opened ForwarderSteps

  // ---------------------------------------------------------------- ledger and workers

  lemma AbortEveryShape(ws: seq<Worker>)
    ensures Held(AbortEvery(ws)) == Held(ws) && Census(AbortEvery(ws)) == Census(ws)
    ensures SomeLast(AbortEvery(ws)) == SomeLast(ws)
  {
    var vs := AbortEvery(ws);
    HeldSame(vs, ws);
    CensusSame(vs, ws);
    assert forall i | 0 <= i < |ws| :: LastOnes(vs[i]) == LastOnes(ws[i]);
  }

  lemma ReconcileKeepsBalance(c: Config, s: State)
    requires Balanced(c, s.ledger, s.admission, Held(s.workers))
    requires WorkersOk(c, s.closed, s.admission, s.workers) && RemainingOk(c, s) && s.remaining == 0
    ensures Balanced(c, FinalizeGaps(c, s.ledger, s.admission), s.admission, Held(s.workers))
  {
    NobodyHolds(c, s.closed, s.admission, s.workers);
    FinalizeKeepsBalance(c, s.ledger, s.admission);
  }

  lemma ReconcilersAreLast(s: State, k: nat, a: ShutdownStep)
    requires CallersOk(ViewOf(s), s.callers)
    requires k in s.callers && ShutdownReady(s, s.callers[k], a) && (a.GraceReconcile? || a.ForceReconcile?)
    ensures s.closed && s.remaining == 0
  {
    assert CallerOk(ViewOf(s), s.callers[k]);
  }

  lemma ShutdownKeepsBalance(c: Config, s: State, k: nat, a: ShutdownStep)
    requires Balanced(c, s.ledger, s.admission, Held(s.workers))
    requires WorkersOk(c, s.closed, s.admission, s.workers) && RemainingOk(c, s) && CallersOk(ViewOf(s), s.callers)
    requires ShutdownEnabled(c, s, k, a)
    ensures var s' := ApplyShutdown(c, s, k, a); Balanced(c, s'.ledger, s'.admission, Held(s'.workers))
  {
    if a.GraceReconcile? || a.ForceReconcile? {
      ReconcilersAreLast(s, k, a);
      ReconcileKeepsBalance(c, s);
    }
    AbortEveryShape(s.workers);
  }

  lemma ShutdownKeepsWorkers(c: Config, s: State, k: nat, a: ShutdownStep)
    requires WorkersOk(c, s.closed, s.admission, s.workers)
    requires ShutdownEnabled(c, s, k, a)
    ensures var s' := ApplyShutdown(c, s, k, a); WorkersOk(c, s'.closed, s'.admission, s'.workers)
  {
    assert forall w | WorkerOk(c, s.closed, w) :: WorkerOk(c, true, w);
    assert forall w | WorkerOk(c, s.closed, w) :: WorkerOk(c, s.closed, w.(abortRequested := true));
  }

  lemma ShutdownKeepsRemaining(c: Config, s: State, k: nat, a: ShutdownStep)
    requires WorkersOk(c, s.closed, s.admission, s.workers) && RemainingOk(c, s) && CallersOk(ViewOf(s), s.callers)
    requires ShutdownEnabled(c, s, k, a)
    ensures RemainingOk(c, ApplyShutdown(c, s, k, a))
  {
    AbortEveryShape(s.workers);
    if a.GraceReconcile? || a.ForceReconcile? { ReconcilersAreLast(s, k, a); }
    RemainingFrame(c, s, ApplyShutdown(c, s, k, a));
  }

  lemma RemainingFrame(c: Config, s: State, s': State)
    requires RemainingOk(c, s)
    requires s'.workers == s.workers || s'.workers == AbortEvery(s.workers)
    requires Census(s'.workers) == Census(s.workers) && SomeLast(s'.workers) == SomeLast(s.workers)
    requires s'.remaining == s.remaining && s'.leftWhileOpen == s.leftWhileOpen && (s.closed ==> s'.closed)
    requires s'.ledger == s.ledger ||
      (s'.ledger.reconciled && s.remaining == 0 &&
        (s'.ledger.snapshotMidEnqueue ==> s.ledger.snapshotMidEnqueue || s.leftWhileOpen == c.workers))
    ensures RemainingOk(c, s')
  {
    assert forall i | 0 <= i < |s.workers| :: LastOnes(s'.workers[i]) == LastOnes(s.workers[i]);
  }

  lemma ShutdownKeepsLoss(c: Config, s: State, k: nat, a: ShutdownStep)
    requires LossOk(s) && CallersOk(ViewOf(s), s.callers)
    requires ShutdownEnabled(c, s, k, a)
    ensures LossOk(ApplyShutdown(c, s, k, a))
  {
    var s' := ApplyShutdown(c, s, k, a);
    if a.AbortAll? { assert CallerOk(ViewOf(s), s.callers[k]); }
    if SomePanicked(s.workers) {
      var j :| 0 <= j < |s.workers| && s.workers[j].phase.Panicked?;
      assert s'.workers[j].phase.Panicked?;
    }
  }

  lemma ShutdownKeepsJoined(c: Config, s: State, k: nat, a: ShutdownStep)
    requires JoinedOk(s.workers, s.joined)
    requires ShutdownEnabled(c, s, k, a)
    ensures var s' := ApplyShutdown(c, s, k, a); JoinedOk(s'.workers, s'.joined)
  {
  }

  // ---------------------------------------------------------------- leadership

  /** The other callers as a step leaves them: at most woken. */
  function Others(s: State, a: ShutdownStep): map<nat, Caller> {
    if Notifies(a) then map j | j in s.callers :: WakeWaiter(s.callers[j]) else s.callers
  }

  lemma OthersAlike(s: State, a: ShutdownStep)
    ensures Alike(s.callers, Others(s, a))
  {
  }

  lemma CallersAfter(c: Config, s: State, k: nat, a: ShutdownStep)
    requires ShutdownEnabled(c, s, k, a) && !a.Call?
    ensures ApplyShutdown(c, s, k, a).callers == Others(s, a)[k := NextCaller(s, s.callers[k], a)]
  {
  }

  /** Which steps gain or lose leadership. */
  lemma NextCallerHolds(s: State, p: Caller, a: ShutdownStep)
    requires ShutdownReady(s, p, a)
    ensures var p' := NextCaller(s, p, a);
      && (Holds(p') ==> Holds(p) || (a.Claim? && !s.shutdown.leader && !s.shutdown.reclaimed))
      && (Holds(p) && !Holds(p') ==> a.FinishShutdown? || a.Release?)
      && (a.FinishShutdown? || a.Release? ==> Holds(p) && !Holds(p') && (p'.Announce? || p'.ReleaseNotify?))
      && (a.Claim? && !s.shutdown.leader && !s.shutdown.reclaimed ==> Holds(p'))
      && (!a.Claim? && !a.FinishShutdown? && !a.Release? ==>
            NextShutdownState(s, p, a).leader == s.shutdown.leader &&
            NextShutdownState(s, p, a).reclaimed == s.shutdown.reclaimed)
  {
  }

  lemma UpdateLeads(m: map<nat, Caller>, k: nat, p: Caller, j: nat)
    ensures Leads(m[k := p], j) == (if j == k then Holds(p) else Leads(m, j))
    ensures Notifier(m[k := p], j) == (if j == k then p.Announce? || p.ReleaseNotify? else Notifier(m, j))
  {
  }

  /** A non-leader or the one leader moves on without gaining or losing leadership. */
  lemma SameLeader(m: map<nat, Caller>, k: nat, p: Caller, h: ShutdownState, h': ShutdownState)
    requires LeadershipOk(m, h) && h'.leader == h.leader && h'.reclaimed == h.reclaimed
    requires h.reclaimed ==> h'.terminal.Some?
    requires Holds(p) == Leads(m, k)
    ensures LeadershipOk(m[k := p], h')
  {
    var m' := m[k := p];
    forall j ensures Leads(m', j) == Leads(m, j) { UpdateLeads(m, k, p, j); }
    if h.leader && !h.reclaimed {
      var j :| Leads(m, j);
      assert Leads(m', j);
    }
  }

  lemma NewLeader(m: map<nat, Caller>, k: nat, p: Caller, h: ShutdownState)
    requires LeadershipOk(m, h) && !h.leader && !h.reclaimed && Holds(p)
    ensures LeadershipOk(m[k := p], h.(leader := true))
  {
    var m' := m[k := p];
    forall j ensures Leads(m', j) == (j == k) { UpdateLeads(m, k, p, j); }
    assert Leads(m', k);
  }

  lemma NoLeader(m: map<nat, Caller>, k: nat, p: Caller, h: ShutdownState, h': ShutdownState)
    requires LeadershipOk(m, h) && Leads(m, k) && !Holds(p)
    requires (h'.reclaimed && h'.leader && h'.terminal.Some?) || (!h'.leader && !h'.reclaimed)
    ensures LeadershipOk(m[k := p], h')
  {
    var m' := m[k := p];
    forall j ensures !Leads(m', j) { UpdateLeads(m, k, p, j); }
  }

  lemma ShutdownKeepsLeadership(c: Config, s: State, k: nat, a: ShutdownStep)
    requires LeadershipOk(s.callers, s.shutdown)
    requires ShutdownEnabled(c, s, k, a)
    ensures var s' := ApplyShutdown(c, s, k, a); LeadershipOk(s'.callers, s'.shutdown)
  {
    if a.Call? {
      SameLeader(s.callers, k, Start, s.shutdown, s.shutdown);
      return;
    }
    var p := s.callers[k];
    var p' := NextCaller(s, p, a);
    var h' := NextShutdownState(s, p, a);
    CallersAfter(c, s, k, a);
    OthersAlike(s, a);
    AlikeLeadership(s.callers, Others(s, a), s.shutdown);
    AlikeLeads(s.callers, Others(s, a), k);
    NextCallerHolds(s, p, a);
    if a.Claim? && !s.shutdown.leader && !s.shutdown.reclaimed {
      NewLeader(Others(s, a), k, p', s.shutdown);
    } else if a.FinishShutdown? || a.Release? {
      NoLeader(Others(s, a), k, p', s.shutdown, h');
    } else {
      SameLeader(Others(s, a), k, p', s.shutdown, h');
    }
  }

  // ---------------------------------------------------------------- what callers may conclude

  /** While somebody leads, every other caller claims nothing about the outcome. */
  lemma OthersIndifferent(v: View, v': View, h: ShutdownState, m: map<nat, Caller>, k: nat, j: nat)
    requires LeadershipOk(m, h) && CallersOk(v, m) && v.reclaimed == h.reclaimed
    requires Leads(m, k) && j in m && j != k
    ensures CallerOk(v', m[j])
  {
    assert !Leads(m, j);
    assert CallerOk(v, m[j]);
  }

  lemma WakeWaiterOk(v: View, p: Caller)
    ensures CallerOk(v, WakeWaiter(p)) == CallerOk(v, p)
  {
  }

  lemma LastOutMeansNoPanic(c: Config, s: State)
    requires RemainingOk(c, s) && s.remaining == 0
    ensures !SomePanicked(s.workers)
  {
    CensusZero(s.workers);
    forall i | 0 <= i < |s.workers| ensures !s.workers[i].phase.Panicked? {
      assert !Present(s.workers[i]);
    }
  }

  /** Without a recorded reason, an abnormal worker is the only way to lose a task. */
  lemma NothingLostUnexplained(c: Config, s: State)
    requires RemainingOk(c, s) && LossOk(s) && s.remaining == 0 && s.shutdown.terminal.None? && !s.dropped
    ensures !s.abnormal ==> s.ledger.lost == multiset{}
  {
    LastOutMeansNoPanic(c, s);
  }

  function NextView(v: View, p: Caller, a: ShutdownStep): View {
    var persisted :=
      if v.terminal.Some? then v.terminal
      else if a.PersistCondemned? || a.PersistForced? then Some(TimedOut)
      else if a.FinishShutdown? && p.Publish? then Some(p.result)
      else v.terminal;
    v.(closed := v.closed || a.Close?,
       terminal := persisted,
       reclaimed := v.reclaimed || a.FinishShutdown?,
       reconciled := v.reconciled || a.GraceReconcile? || a.ForceReconcile?)
  }

  lemma ShutdownView(c: Config, s: State, k: nat, a: ShutdownStep)
    requires ShutdownEnabled(c, s, k, a) && !a.Call?
    ensures ViewOf(ApplyShutdown(c, s, k, a)) == NextView(ViewOf(s), s.callers[k], a)
  {
  }

  lemma ViewKeepsTerminal(v: View, s: State, p: Caller, a: ShutdownStep)
    requires TerminalOk(v) && CallerOk(v, p) && ShutdownReady(s, p, a)
    ensures TerminalOk(NextView(v, p, a))
  {
  }

  /** The mover's own conclusions, step by step. */
  lemma OwnStepOk(s: State, p: Caller, a: ShutdownStep)
    requires CallerOk(ViewOf(s), p) && TerminalOk(ViewOf(s)) && ShutdownReady(s, p, a)
    requires Holds(p) ==> !s.shutdown.reclaimed
    requires s.shutdown.reclaimed ==> s.shutdown.terminal.Some?
    requires a.GraceReconcile? && !s.abnormal ==> s.ledger.lost == multiset{}
    ensures CallerOk(NextView(ViewOf(s), p, a), NextCaller(s, p, a))
  {
    var terminal := s.shutdown.terminal;
    assert terminal.Some? ==> terminal.value.Drained? || terminal.value.TimedOut?;
  }

  lemma OthersStayOk(v: View, v': View, h: ShutdownState, m: map<nat, Caller>, k: nat)
    requires LeadershipOk(m, h) && CallersOk(v, m) && v.reclaimed == h.reclaimed && k in m
    requires Holds(m[k]) || v' == v
    ensures forall j | j in m && j != k :: CallerOk(v', m[j])
  {
    forall j | j in m && j != k ensures CallerOk(v', m[j]) {
      if Holds(m[k]) { OthersIndifferent(v, v', h, m, k, j); }
    }
  }

  lemma QuietStep(v: View, p: Caller, s: State, a: ShutdownStep)
    requires ShutdownReady(s, p, a) && !Holds(p)
    ensures NextView(v, p, a) == v
  {
  }

  lemma MoverOk(c: Config, s: State, k: nat, a: ShutdownStep)
    requires RemainingOk(c, s) && LeadershipOk(s.callers, s.shutdown) && LossOk(s) && DropOk(s)
    requires TerminalOk(ViewOf(s)) && CallersOk(ViewOf(s), s.callers)
    requires k in s.callers && ShutdownReady(s, s.callers[k], a)
    ensures var v' := NextView(ViewOf(s), s.callers[k], a);
      TerminalOk(v') && CallerOk(v', NextCaller(s, s.callers[k], a))
  {
    var p := s.callers[k];
    assert CallerOk(ViewOf(s), p);
    if a.GraceReconcile? { NothingLostUnexplained(c, s); }
    if Holds(p) { assert Leads(s.callers, k); }
    ViewKeepsTerminal(ViewOf(s), s, p, a);
    OwnStepOk(s, p, a);
  }

  lemma BystandersOk(s: State, k: nat, a: ShutdownStep)
    requires LeadershipOk(s.callers, s.shutdown) && CallersOk(ViewOf(s), s.callers)
    requires k in s.callers && ShutdownReady(s, s.callers[k], a)
    ensures var v' := NextView(ViewOf(s), s.callers[k], a);
      forall j | j in s.callers && j != k :: CallerOk(v', Others(s, a)[j])
  {
    var p := s.callers[k];
    var v' := NextView(ViewOf(s), p, a);
    if !Holds(p) { QuietStep(ViewOf(s), p, s, a); }
    OthersStayOk(ViewOf(s), v', s.shutdown, s.callers, k);
    forall j | j in s.callers && j != k ensures CallerOk(v', Others(s, a)[j]) {
      WakeWaiterOk(v', s.callers[j]);
    }
  }

  lemma ShutdownKeepsCallers(c: Config, s: State, k: nat, a: ShutdownStep)
    requires RemainingOk(c, s) && LeadershipOk(s.callers, s.shutdown) && LossOk(s) && DropOk(s)
    requires TerminalOk(ViewOf(s)) && CallersOk(ViewOf(s), s.callers)
    requires ShutdownEnabled(c, s, k, a)
    ensures var s' := ApplyShutdown(c, s, k, a); CallersOk(ViewOf(s'), s'.callers) && TerminalOk(ViewOf(s'))
  {
    if !a.Call? {
      ShutdownView(c, s, k, a);
      CallersAfter(c, s, k, a);
      MoverOk(c, s, k, a);
      BystandersOk(s, k, a);
    }
  }

  // ---------------------------------------------------------------- handles

  lemma SwapRemoveKeepsRest(q: seq<nat>)
    requires q != []
    ensures multiset(SwapRemoveHead(q)) + multiset{q[0]} == multiset(q)
  {
    if |q| == 1 {
      assert q == [q[0]];
    } else {
      assert q == [q[0]] + q[1..|q| - 1] + [q[|q| - 1]];
    }
  }

  predicate MovesHandles(a: ShutdownStep) { a.Take? || a.Join? || a.ReturnHandles? }

  lemma NextCallerHandles(s: State, p: Caller, a: ShutdownStep)
    requires ShutdownReady(s, p, a)
    ensures var p' := NextCaller(s, p, a);
      && (!Holds(p') ==> HandlesOf(p') == [])
      && (!Holds(p) ==> HandlesOf(p) == [])
      && (!MovesHandles(a) ==> HandlesOf(p') == HandlesOf(p))
      && (MovesHandles(a) ==> Holds(p) && Holds(p'))
      && (p'.Publish? || p'.Reaping? ==> p.Reaping? || a.Take?)
      && (a.FinishShutdown? ==> p.Publish?)
  {
  }

  lemma JoinMoves(stored: seq<nat>, held: seq<nat>, joined: multiset<nat>)
    requires held != []
    ensures Spread(stored, SwapRemoveHead(held), joined + multiset{held[0]}) == Spread(stored, held, joined)
  {
    SwapRemoveKeepsRest(held);
    var rest := multiset(SwapRemoveHead(held));
    assert multiset(stored) + rest + (joined + multiset{held[0]}) ==
           multiset(stored) + (rest + multiset{held[0]}) + joined;
  }

  lemma ReturnMoves(stored: seq<nat>, held: seq<nat>, joined: multiset<nat>)
    ensures Spread(stored + held, [], joined) == Spread(stored, held, joined)
  {
  }

  lemma TakeMoves(stored: seq<nat>, joined: multiset<nat>)
    ensures Spread([], stored, joined) == Spread(stored, [], joined)
  {
  }

  lemma HandleFields(c: Config, s: State, k: nat, a: ShutdownStep)
    requires ShutdownEnabled(c, s, k, a) && !a.Call?
    ensures var p, p', s' := s.callers[k], NextCaller(s, s.callers[k], a), ApplyShutdown(c, s, k, a);
      match a
      case Join =>
        s'.stored == s.stored && HandlesOf(p') == SwapRemoveHead(p.held) && HandlesOf(p) == p.held &&
        s'.joined == s.joined + multiset{p.held[0]}
      case ReturnHandles =>
        s'.stored == s.stored + p.held && HandlesOf(p') == [] && HandlesOf(p) == p.held && s'.joined == s.joined
      case Take => s'.stored == [] && HandlesOf(p') == s.stored && HandlesOf(p) == [] && s'.joined == s.joined
      case _ => s'.stored == s.stored && HandlesOf(p') == HandlesOf(p) && s'.joined == s.joined
  {
  }

  /** How a step redistributes the handles of its caller. */
  lemma HandlesMoved(c: Config, s: State, k: nat, a: ShutdownStep)
    requires ShutdownEnabled(c, s, k, a) && !a.Call?
    ensures var s' := ApplyShutdown(c, s, k, a);
      Spread(s'.stored, HandlesOf(NextCaller(s, s.callers[k], a)), s'.joined) ==
      Spread(s.stored, HandlesOf(s.callers[k]), s.joined)
  {
    var p := s.callers[k];
    HandleFields(c, s, k, a);
    if a.Join? {
      JoinMoves(s.stored, p.held, s.joined);
    } else if a.ReturnHandles? {
      ReturnMoves(s.stored, p.held, s.joined);
    } else if a.Take? {
      TakeMoves(s.stored, s.joined);
    }
  }

  lemma HandlesUpdate(
      c: Config, m: map<nat, Caller>, m': map<nat, Caller>, k: nat, h: ShutdownState,
      stored: seq<nat>, joined: multiset<nat>, stored': seq<nat>, joined': multiset<nat>)
    requires LeadershipOk(m, h) && HandlesOk(c, m, h.reclaimed, stored, joined)
    requires k in m && k in m' && m' == m[k := m'[k]]
    requires Leads(m, k) || (forall j :: !Leads(m, j)) || (stored' == stored && joined' == joined && !Holds(m'[k]))
    requires Spread(stored', HandlesOf(m'[k]), joined') == Spread(stored, HandlesOf(m[k]), joined)
    requires !Holds(m'[k]) ==> HandlesOf(m'[k]) == []
    requires !Holds(m[k]) ==> HandlesOf(m[k]) == []
    ensures forall j | Leads(m', j) :: Spread(stored', HandlesOf(m'[j]), joined') == AllHandles(c.workers)
    ensures (forall j :: !Leads(m', j)) ==> Spread(stored', [], joined') == AllHandles(c.workers)
  {
    forall j ensures Leads(m', j) == (if j == k then Holds(m'[k]) else Leads(m, j)) { UpdateLeads(m, k, m'[k], j); }
    assert Holds(m'[k]) || Leads(m, k) ==> Spread(stored', HandlesOf(m'[k]), joined') == AllHandles(c.workers) by {
      assert Leads(m, k) || HandlesOf(m[k]) == [];
    }
    forall j | Leads(m', j) ensures Spread(stored', HandlesOf(m'[j]), joined') == AllHandles(c.workers) {
      assert j != k ==> Leads(m, j) && m'[j] == m[j] && !Leads(m, k);
    }
  }

  lemma ShutdownKeepsHandleSum(c: Config, s: State, k: nat, a: ShutdownStep)
    requires LeadershipOk(s.callers, s.shutdown) && HandlesOk(c, s.callers, s.shutdown.reclaimed, s.stored, s.joined)
    requires ShutdownEnabled(c, s, k, a) && !a.Call?
    ensures var s' := ApplyShutdown(c, s, k, a);
      (forall j | Leads(s'.callers, j) ::
        Spread(s'.stored, HandlesOf(s'.callers[j]), s'.joined) == AllHandles(c.workers)) &&
      ((forall j :: !Leads(s'.callers, j)) ==> Spread(s'.stored, [], s'.joined) == AllHandles(c.workers))
  {
    var p := s.callers[k];
    var s' := ApplyShutdown(c, s, k, a);
    CallersAfter(c, s, k, a);
    OthersAlike(s, a);
    AlikeLeadership(s.callers, Others(s, a), s.shutdown);
    AlikeHandles(c, s.callers, Others(s, a), s.shutdown.reclaimed, s.stored, s.joined);
    assert AlikeCaller(p, Others(s, a)[k]);
    AlikeLeads(s.callers, Others(s, a), k);
    NextCallerHandles(s, p, a);
    NextCallerHolds(s, p, a);
    HandlesMoved(c, s, k, a);
    HandlesUpdate(c, Others(s, a), s'.callers, k, s.shutdown, s.stored, s.joined, s'.stored, s'.joined);
  }

  lemma ShutdownKeepsStoredEmpty(c: Config, s: State, k: nat, a: ShutdownStep)
    requires LeadershipOk(s.callers, s.shutdown) && HandlesOk(c, s.callers, s.shutdown.reclaimed, s.stored, s.joined)
    requires ShutdownEnabled(c, s, k, a) && !a.Call?
    ensures var s' := ApplyShutdown(c, s, k, a);
      (forall j | j in s'.callers && (s'.callers[j].Publish? || s'.callers[j].Reaping?) :: s'.stored == []) &&
      (s'.shutdown.reclaimed ==> s'.stored == [])
  {
    var p := s.callers[k];
    var s' := ApplyShutdown(c, s, k, a);
    CallersAfter(c, s, k, a);
    NextCallerHandles(s, p, a);
    if Holds(p) { assert Leads(s.callers, k); }
    forall j | j in s'.callers && (s'.callers[j].Publish? || s'.callers[j].Reaping?) ensures s'.stored == [] {
      if j != k { assert Leads(s.callers, j); }
    }
  }

  lemma ShutdownKeepsHandles(c: Config, s: State, k: nat, a: ShutdownStep)
    requires LeadershipOk(s.callers, s.shutdown) && HandlesOk(c, s.callers, s.shutdown.reclaimed, s.stored, s.joined)
    requires ShutdownEnabled(c, s, k, a)
    ensures var s' := ApplyShutdown(c, s, k, a); HandlesOk(c, s'.callers, s'.shutdown.reclaimed, s'.stored, s'.joined)
  {
    if a.Call? {
      var m' := s.callers[k := Start];
      forall j ensures Leads(m', j) == Leads(s.callers, j) { UpdateLeads(s.callers, k, Start, j); }
    } else {
      ShutdownKeepsHandleSum(c, s, k, a);
      ShutdownKeepsStoredEmpty(c, s, k, a);
    }
  }

  // ---------------------------------------------------------------- wakeups

  /** A caller only starts to wait unwoken while it sees a leader at work. */
  lemma ParksUnderLeader(s: State, p: Caller, a: ShutdownStep)
    requires ShutdownReady(s, p, a) && NextCaller(s, p, a) == Parked(false)
    ensures a.CheckWait? && s.shutdown.leader && !s.shutdown.reclaimed && NextShutdownState(s, p, a) == s.shutdown
  {
  }

  /** Only finishing and releasing end leadership. */
  lemma LeadershipLasts(s: State, p: Caller, a: ShutdownStep)
    requires ShutdownReady(s, p, a) && !a.FinishShutdown? && !a.Release?
    ensures var h := NextShutdownState(s, p, a);
      s.shutdown.leader && !s.shutdown.reclaimed ==> h.leader && !h.reclaimed
  {
  }

  lemma QuietKeepsWaiters(c: Config, s: State, k: nat, a: ShutdownStep)
    requires WaitersOk(s.callers, s.shutdown) && ShutdownEnabled(c, s, k, a)
    requires !Notifies(a) && !a.FinishShutdown? && !a.Release? && !a.Call?
    ensures var s' := ApplyShutdown(c, s, k, a); WaitersOk(s'.callers, s'.shutdown)
  {
    var p := s.callers[k];
    var m := s.callers[k := NextCaller(s, p, a)];
    LeadershipLasts(s, p, a);
    forall j | j in m && m[j] == Parked(false)
      ensures (NextShutdownState(s, p, a).leader && !NextShutdownState(s, p, a).reclaimed) || exists n :: Notifier(m, n)
    {
      if j == k {
        ParksUnderLeader(s, p, a);
      } else if !(s.shutdown.leader && !s.shutdown.reclaimed) {
        assert s.callers[j] == Parked(false);
        var n :| Notifier(s.callers, n);
        assert Notifier(m, n);
      }
    }
  }

  /** A notification leaves no parked waiter unwoken. */
  lemma NobodyLeftParked(c: Config, s: State, k: nat, a: ShutdownStep)
    requires ShutdownEnabled(c, s, k, a) && Notifies(a)
    ensures var m := ApplyShutdown(c, s, k, a).callers; forall j | j in m :: m[j] != Parked(false)
  {
    assert forall j | j in s.callers :: WakeWaiter(s.callers[j]) != Parked(false);
  }

  lemma ShutdownKeepsWaiters(c: Config, s: State, k: nat, a: ShutdownStep)
    requires WaitersOk(s.callers, s.shutdown) && ShutdownEnabled(c, s, k, a)
    ensures var s' := ApplyShutdown(c, s, k, a); WaitersOk(s'.callers, s'.shutdown)
  {
    var s' := ApplyShutdown(c, s, k, a);
    if a.FinishShutdown? || a.Release? {
      assert Notifier(s'.callers, k);
    } else if Notifies(a) {
      NobodyLeftParked(c, s, k, a);
    } else if a.Call? {
      forall n | Notifier(s.callers, n) ensures Notifier(s'.callers, n) { }
    } else {
      QuietKeepsWaiters(c, s, k, a);
    }
  }

  lemma ShutdownKeepsLeaderWait(c: Config, s: State, k: nat, a: ShutdownStep)
    requires LeaderWaitOk(s.callers, s.remaining, s.workers)
    requires ShutdownEnabled(c, s, k, a)
    ensures var s' := ApplyShutdown(c, s, k, a); LeaderWaitOk(s'.callers, s'.remaining, s'.workers)
  {
    AbortEveryWakes(s.workers);
    var s' := ApplyShutdown(c, s, k, a);
    var awake, aborted := 0 < s.remaining || SomeLastOut(s.workers), EveryAborted(s.workers) || a.AbortAll?;
    if !a.Call? { NextLeaderWait(s, s.callers[k], a, awake); }
    forall j | j in s'.callers ensures LeaderWaitAs(s'.callers[j], awake, aborted) {
      assert j != k ==> s'.callers[j] == s.callers[j] || s'.callers[j] == WakeWaiter(s.callers[j]);
    }
  }

  predicate LeaderWaitAs(p: Caller, awake: bool, aborted: bool) {
    (p.WaitParked? && !p.woken ==> awake) && ((p.WaitParked? || p.WaitArmed?) && p.forced ==> aborted)
  }

  lemma NextLeaderWait(s: State, p: Caller, a: ShutdownStep, awake: bool)
    requires ShutdownReady(s, p, a) && LeaderWaitAs(p, awake, EveryAborted(s.workers)) && (0 < s.remaining ==> awake)
    ensures LeaderWaitAs(NextCaller(s, p, a), awake, EveryAborted(s.workers) || a.AbortAll?)
  {
  }

  lemma AbortEveryWakes(ws: seq<Worker>)
    ensures SomeLastOut(AbortEvery(ws)) == SomeLastOut(ws) && EveryAborted(AbortEvery(ws))
  {
    assert forall i | 0 <= i < |ws| :: AbortEvery(ws)[i].phase == ws[i].phase;
  }

  lemma OverIsFinal(s: State, p: Caller, a: ShutdownStep)
    requires Over(p)
    ensures !ShutdownReady(s, p, a)
  {
  }

  lemma DroppedTakesNoStep(c: Config, s: State, k: nat, a: ShutdownStep)
    requires DropOk(s) && ShutdownEnabled(c, s, k, a)
    ensures !s.dropped
  {
    if k in s.callers && Over(s.callers[k]) { OverIsFinal(s, s.callers[k], a); }
  }

  lemma ShutdownKeepsDrop(c: Config, s: State, k: nat, a: ShutdownStep)
    requires DropOk(s) && ShutdownEnabled(c, s, k, a)
    ensures DropOk(ApplyShutdown(c, s, k, a))
  {
    DroppedTakesNoStep(c, s, k, a);
    assert ApplyShutdown(c, s, k, a).dropped == s.dropped;
  }

  lemma ShutdownKeepsInv(c: Config, s: State, k: nat, a: ShutdownStep)
    requires Inv(c, s) && ShutdownEnabled(c, s, k, a)
    ensures Inv(c, ApplyShutdown(c, s, k, a))
  {
    ShutdownKeepsBalance(c, s, k, a);
    ShutdownKeepsWorkers(c, s, k, a);
    ShutdownKeepsRemaining(c, s, k, a);
    ShutdownKeepsLeadership(c, s, k, a);
    ShutdownKeepsLoss(c, s, k, a);
    ShutdownKeepsCallers(c, s, k, a);
    ShutdownKeepsDrop(c, s, k, a);
    ShutdownKeepsHandles(c, s, k, a);
    ShutdownKeepsJoined(c, s, k, a);
    ShutdownKeepsWaiters(c, s, k, a);
    ShutdownKeepsLeaderWait(c, s, k, a);
  }

  // ---------------------------------------------------------------- dropping the last owner

  lemma DropKeepsBalance(c: Config, s: State)
    requires Balanced(c, s.ledger, s.admission, Held(s.workers)) && RemainingOk(c, s)
    requires Enabled(c, s, DropOwner)
    ensures var s' := Apply(c, s, DropOwner);
      Balanced(c, s'.ledger, s'.admission, Held(s'.workers)) && RemainingOk(c, s')
  {
    AbortEveryShape(s.workers);
    var s' := Apply(c, s, DropOwner);
    assert forall i | 0 <= i < |s.workers| :: LastOnes(s'.workers[i]) == LastOnes(s.workers[i]);
  }

  lemma DropKeepsWorkers(c: Config, s: State)
    requires WorkersOk(c, s.closed, s.admission, s.workers)
    requires Enabled(c, s, DropOwner)
    ensures var s' := Apply(c, s, DropOwner); WorkersOk(c, s'.closed, s'.admission, s'.workers)
  {
    assert forall w | WorkerOk(c, s.closed, w) :: WorkerOk(c, true, w.(abortRequested := true));
  }

  lemma DropKeepsCallers(c: Config, s: State)
    requires TerminalOk(ViewOf(s)) && CallersOk(ViewOf(s), s.callers)
    requires JoinedOk(s.workers, s.joined)
    requires Enabled(c, s, DropOwner)
    ensures var s' := Apply(c, s, DropOwner);
      LossOk(s') && TerminalOk(ViewOf(s')) && CallersOk(ViewOf(s'), s'.callers) && DropOk(s') &&
      JoinedOk(s'.workers, s'.joined) && LeaderWaitOk(s'.callers, s'.remaining, s'.workers)
  {
  }

  lemma DropKeepsInv(c: Config, s: State)
    requires Inv(c, s) && Enabled(c, s, DropOwner)
    ensures Inv(c, Apply(c, s, DropOwner))
  {
    DropKeepsBalance(c, s);
    DropKeepsWorkers(c, s);
    DropKeepsCallers(c, s);
  }
}
