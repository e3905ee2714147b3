/** Each kind of step keeps each invariant. */
module ForwarderSteps {
  import opened Forwarder
  import opened ForwarderInvariants

  // ---------------------------------------------------------------- enqueue

  lemma SendKeepsBalance(c: Config, l: Ledger, a: Admission, held: multiset<TaskId>)
    requires Balanced(c, l, a, held) && a.Counted? && !l.reconciled
    ensures Balanced(c, l.(accepted := l.accepted + multiset{a.task}), Free, held + multiset{a.task})
  {
  }

  lemma SendHolds(c: Config, s: State)
    requires EnqueueEnabled(c, s, Send)
    ensures Held(ApplyEnqueue(c, s, Send).workers) == Held(s.workers) + multiset{s.admission.task}
  {
    var i := Target(c, s);
    var w := s.workers[i];
    var w' := w.(channel := w.channel + [s.admission.task]);
    HeldGrows(s.workers, i, w', multiset{s.admission.task});
  }

  lemma EnqueueKeepsBalance(c: Config, s: State, a: EnqueueStep)
    requires Balanced(c, s.ledger, s.admission, Held(s.workers))
    requires a.Send? ==> !s.ledger.reconciled
    requires EnqueueEnabled(c, s, a)
    ensures var s' := ApplyEnqueue(c, s, a); Balanced(c, s'.ledger, s'.admission, Held(s'.workers))
  {
    if a.Send? {
      SendHolds(c, s);
      SendKeepsBalance(c, s.ledger, s.admission, Held(s.workers));
    }
  }

  lemma EnqueueFindsNoReconciliation(c: Config, s: State, a: EnqueueStep)
    requires RemainingOk(c, s) && EnqueueEnabled(c, s, a) && a.Send?
    ensures !s.ledger.reconciled
  {
    CensusZero(s.workers);
    assert Present(s.workers[Target(c, s)]);
  }

  lemma EnqueueKeepsWorkers(c: Config, s: State, a: EnqueueStep)
    requires WorkersOk(c, s.closed, s.admission, s.workers) && RemainingOk(c, s)
    requires EnqueueEnabled(c, s, a)
    ensures WorkersOk(c, s.closed, ApplyEnqueue(c, s, a).admission, ApplyEnqueue(c, s, a).workers)
    ensures RemainingOk(c, ApplyEnqueue(c, s, a))
  {
    if a.Send? {
      var ws' := ApplyEnqueue(c, s, a).workers;
      CensusSame(s.workers, ws');
      if SomeLast(s.workers) {
        var i :| 0 <= i < |s.workers| && LastOnes(s.workers[i]);
        assert LastOnes(ws'[i]);
      }
    }
  }

  /** Two worker lists that differ in nothing the shutdown protocol looks at. */
  predicate SameShape(ws: seq<Worker>, vs: seq<Worker>) {
    |ws| == |vs| &&
    forall i | 0 <= i < |ws| :: vs[i].phase == ws[i].phase && vs[i].abortRequested == ws[i].abortRequested
  }

  lemma SameShapeFacts(ws: seq<Worker>, vs: seq<Worker>)
    requires SameShape(ws, vs)
    ensures SomePanicked(ws) == SomePanicked(vs)
    ensures SomeLastOut(ws) == SomeLastOut(vs)
    ensures EveryAborted(ws) == EveryAborted(vs)
    ensures forall joined | JoinedOk(ws, joined) :: JoinedOk(vs, joined)
    ensures forall n, a, b | LossExplained(ws, n, a, b) :: LossExplained(vs, n, a, b)
    ensures forall n, a, b | EarlyExitsOk(a, b, n, ws) :: EarlyExitsOk(a, b, n, vs)
  {
  }

  lemma EnqueueShape(c: Config, s: State, a: EnqueueStep)
    requires EnqueueEnabled(c, s, a)
    ensures SameShape(s.workers, ApplyEnqueue(c, s, a).workers)
  {
  }

  lemma EnqueueView(c: Config, s: State, a: EnqueueStep)
    requires EnqueueEnabled(c, s, a)
    ensures ViewOf(ApplyEnqueue(c, s, a)) == ViewOf(s)
    ensures ApplyEnqueue(c, s, a).ledger.lost == s.ledger.lost
  {
  }

  lemma EnqueueKeepsInv(c: Config, s: State, a: EnqueueStep)
    requires Inv(c, s) && EnqueueEnabled(c, s, a)
    ensures Inv(c, ApplyEnqueue(c, s, a))
  {
    if a.Send? { EnqueueFindsNoReconciliation(c, s, a); }
    EnqueueKeepsBalance(c, s, a);
    EnqueueKeepsWorkers(c, s, a);
    EnqueueShape(c, s, a);
    EnqueueView(c, s, a);
    SameShapeFacts(s.workers, ApplyEnqueue(c, s, a).workers);
  }

  // ---------------------------------------------------------------- workers

  lemma RemoveAtContents(q: seq<TaskId>, k: nat)
    requires k < |q|
    ensures multiset(q) == multiset(RemoveAt(q, k)) + multiset{q[k]}
  {
    assert q == q[..k] + [q[k]] + q[k + 1..];
  }

  lemma MoveHeadContents(from: seq<TaskId>, to: seq<TaskId>)
    requires from != []
    ensures multiset(from) + multiset(to) == multiset(from[1..]) + multiset(to + [from[0]])
  {
    assert from == [from[0]] + from[1..];
  }

  /** What a worker step takes out of the worker. */
  function Removed(w: Worker, closed: bool, a: WorkerStep): multiset<TaskId>
    requires WorkerReady(closed, w, a)
  {
    match a
    case Expire(k) => multiset{w.waiting[k]}
    case Resolve(k, _) => multiset{w.inflight[k]}
    case Exit => Contents(w)
    case Panic => Contents(w)
    case AbortHit => Contents(w)
    case _ => multiset{}
  }

  lemma RecvContents(w: Worker)
    requires w.channel != []
    ensures Contents(w.(channel := w.channel[1..], waiting := w.waiting + [w.channel[0]])) == Contents(w)
  {
    MoveHeadContents(w.channel, w.waiting);
  }

  lemma DispatchContents(w: Worker)
    requires w.waiting != []
    ensures Contents(w.(waiting := w.waiting[1..], inflight := w.inflight + [w.waiting[0]])) == Contents(w)
  {
    MoveHeadContents(w.waiting, w.inflight);
    var w' := w.(waiting := w.waiting[1..], inflight := w.inflight + [w.waiting[0]]);
    assert Contents(w') == multiset(w.channel) + (multiset(w'.waiting) + multiset(w'.inflight));
  }

  lemma ExpireContents(w: Worker, k: nat)
    requires k < |w.waiting|
    ensures Contents(w) == Contents(w.(waiting := RemoveAt(w.waiting, k))) + multiset{w.waiting[k]}
  {
    RemoveAtContents(w.waiting, k);
  }

  lemma ResolveContents(w: Worker, k: nat)
    requires k < |w.inflight|
    ensures Contents(w) == Contents(w.(inflight := RemoveAt(w.inflight, k))) + multiset{w.inflight[k]}
  {
    RemoveAtContents(w.inflight, k);
  }

  lemma DroppedContents(w: Worker, phase: WorkerPhase)
    ensures Contents(Dropped(w, phase)) == multiset{}
  {
  }

  lemma WorkerStepContents(closed: bool, last: bool, w: Worker, a: WorkerStep)
    requires WorkerReady(closed, w, a)
    ensures Contents(w) == Contents(NextWorker(closed, last, w, a)) + Removed(w, closed, a)
  {
    var w' := NextWorker(closed, last, w, a);
    if a.Recv? {
      RecvContents(w);
    } else if a.Dispatch? {
      DispatchContents(w);
    } else if a.Expire? {
      ExpireContents(w, a.index);
    } else if a.Resolve? {
      ResolveContents(w, a.index);
    } else if a.Exit? || a.Panic? || a.AbortHit? {
      DroppedContents(w, w'.phase);
    } else {
      assert w'.channel == w.channel && w'.waiting == w.waiting && w'.inflight == w.inflight;
    }
  }

  lemma ObserveKeepsBalance(c: Config, l: Ledger, a: Admission, held: multiset<TaskId>, t: TaskId, success: bool)
    requires Balanced(c, l, a, held + multiset{t}) && !l.reconciled
    ensures Balanced(c, Observe(c, l, t, success), a, held)
  {
  }

  lemma LoseKeepsBalance(c: Config, l: Ledger, a: Admission, held: multiset<TaskId>, tasks: multiset<TaskId>)
    requires Balanced(c, l, a, held + tasks) && !l.reconciled
    ensures Balanced(c, Lose(l, tasks), a, held)
  {
  }

  /** With nobody left holding a task, reconciliation reports exactly the lost ones. */
  lemma FinalizeKeepsBalance(c: Config, l: Ledger, a: Admission)
    requires Balanced(c, l, a, multiset{})
    ensures Balanced(c, FinalizeGaps(c, l, a), a, multiset{})
    ensures !l.reconciled ==> Missing(l) == |l.lost| + CountedNow(a)
  {
  }

  lemma NobodyHolds(c: Config, closed: bool, a: Admission, ws: seq<Worker>)
    requires WorkersOk(c, closed, a, ws) && Census(ws) == 0
    ensures Held(ws) == multiset{}
  {
    CensusZero(ws);
    forall i | 0 <= i < |ws| ensures Contents(ws[i]) == multiset{} {
      assert !Present(ws[i]);
    }
    HeldNone(ws);
  }

  lemma RunningMeansUnreconciled(c: Config, s: State, i: nat)
    requires RemainingOk(c, s) && i < |s.workers|
    ensures s.workers[i].phase.Running? ==> !s.ledger.reconciled
    ensures Present(s.workers[i]) ==> 0 < s.remaining
  {
    CensusZero(s.workers);
  }

  lemma LedgerKeepsBalance(
      c: Config, l: Ledger, adm: Admission, closed: bool, w: Worker, a: WorkerStep, held: multiset<TaskId>)
    requires WorkerReady(closed, w, a)
    requires Balanced(c, l, adm, held + Removed(w, closed, a))
    requires w.phase.Running? ==> !l.reconciled
    requires a.Settle? ==> held == multiset{}
    ensures Balanced(c, NextLedger(c, l, adm, closed, w, a), adm, held)
  {
    match a
    case Expire(k) => ObserveKeepsBalance(c, l, adm, held, w.waiting[k], false);
    case Resolve(k, success) => ObserveKeepsBalance(c, l, adm, held, w.inflight[k], success);
    case Exit => LoseKeepsBalance(c, l, adm, held, Contents(w));
    case Panic => LoseKeepsBalance(c, l, adm, held, Contents(w));
    case AbortHit => LoseKeepsBalance(c, l, adm, held, Contents(w));
    case Settle => FinalizeKeepsBalance(c, l, adm);
    case _ => assert held + multiset{} == held;
  }

  lemma WorkerStepHeld(c: Config, s: State, i: nat, a: WorkerStep)
    requires WorkerEnabled(c, s, i, a)
    ensures Held(s.workers) == Held(ApplyWorker(c, s, i, a).workers) + Removed(s.workers[i], s.closed, a)
  {
    var w := s.workers[i];
    var w' := NextWorker(s.closed, s.remaining == 1, w, a);
    WorkerStepContents(s.closed, s.remaining == 1, w, a);
    HeldShrinks(s.workers, i, w', Removed(w, s.closed, a));
  }

  lemma SettlingMeansNobodyHolds(c: Config, s: State, i: nat)
    requires WorkersOk(c, s.closed, s.admission, s.workers) && RemainingOk(c, s)
    requires i < |s.workers| && s.workers[i].phase.Settling?
    ensures Held(s.workers) == multiset{}
  {
    assert LastOnes(s.workers[i]);
    NobodyHolds(c, s.closed, s.admission, s.workers);
  }

  lemma WorkerKeepsBalance(c: Config, s: State, i: nat, a: WorkerStep)
    requires Balanced(c, s.ledger, s.admission, Held(s.workers))
    requires WorkersOk(c, s.closed, s.admission, s.workers) && RemainingOk(c, s)
    requires WorkerEnabled(c, s, i, a)
    ensures var s' := ApplyWorker(c, s, i, a); Balanced(c, s'.ledger, s'.admission, Held(s'.workers))
  {
    WorkerStepHeld(c, s, i, a);
    RunningMeansUnreconciled(c, s, i);
    if a.Settle? { SettlingMeansNobodyHolds(c, s, i); }
    LedgerKeepsBalance(c, s.ledger, s.admission, s.closed, s.workers[i], a, Held(ApplyWorker(c, s, i, a).workers));
  }

  lemma WorkerKeepsWorkers(c: Config, s: State, i: nat, a: WorkerStep)
    requires WorkersOk(c, s.closed, s.admission, s.workers)
    requires WorkerEnabled(c, s, i, a)
    ensures WorkersOk(c, s.closed, s.admission, ApplyWorker(c, s, i, a).workers)
  {
    assert WorkerOk(c, s.closed, s.workers[i]);
    assert WorkerOk(c, s.closed, NextWorker(s.closed, s.remaining == 1, s.workers[i], a));
  }

  lemma NextWorkerPresence(closed: bool, last: bool, w: Worker, a: WorkerStep)
    requires WorkerReady(closed, w, a)
    ensures var w' := NextWorker(closed, last, w, a);
      && Present(w') == (Present(w) && !a.Leave?)
      && (a.Leave? ==> Present(w))
      && (LastOnes(w') ==> LastOnes(w) || (a.Leave? && last))
      && (a.Settle? ==> LastOnes(w))
      && (LastOnes(w) && !a.Settle? ==> LastOnes(w'))
      && (a.Leave? && last ==> LastOnes(w'))
  {
  }

  lemma WorkerKeepsRemaining(c: Config, s: State, i: nat, a: WorkerStep)
    requires WorkersOk(c, s.closed, s.admission, s.workers)
    requires RemainingOk(c, s)
    requires WorkerEnabled(c, s, i, a)
    ensures RemainingOk(c, ApplyWorker(c, s, i, a))
  {
    var w' := NextWorker(s.closed, s.remaining == 1, s.workers[i], a);
    NextWorkerPresence(s.closed, s.remaining == 1, s.workers[i], a);
    CensusUpdate(s.workers, i, w');
    var s' := ApplyWorker(c, s, i, a);
    WorkerLedgerFlags(c, s.ledger, s.admission, s.closed, s.workers[i], a);
    LastMoves(s.workers, i, w', s'.workers, s.remaining, s'.remaining, s.ledger.reconciled, s'.ledger.reconciled);
    if a.Settle? { assert s.remaining == 0; }
  }

  lemma WorkerLedgerFlags(c: Config, l: Ledger, adm: Admission, closed: bool, w: Worker, a: WorkerStep)
    requires WorkerReady(closed, w, a)
    ensures var l' := NextLedger(c, l, adm, closed, w, a);
      l'.reconciled == (l.reconciled || a.Settle?) &&
      l'.snapshotMidEnqueue == (if a.Settle? then FinalizeGaps(c, l, adm) else l).snapshotMidEnqueue
  {
  }

  /** The last worker stays on record until the ledger is reconciled. */
  lemma LastMoves(
      ws: seq<Worker>, i: nat, w: Worker, ws': seq<Worker>, remaining: nat, remaining': nat, done: bool, done': bool)
    requires i < |ws| && ws' == ws[i := w] && remaining' <= remaining && (done ==> done')
    requires forall j | 0 <= j < |ws| && LastOnes(ws[j]) :: remaining == 0
    requires remaining == 0 ==> done || SomeLast(ws)
    requires LastOnes(w) ==> LastOnes(ws[i]) || remaining' == 0
    requires LastOnes(ws[i]) && !LastOnes(w) ==> done'
    requires remaining' == 0 && remaining != 0 ==> LastOnes(w)
    ensures forall j | 0 <= j < |ws'| && LastOnes(ws'[j]) :: remaining' == 0
    ensures remaining' == 0 ==> done' || SomeLast(ws')
  {
    if SomeLast(ws) {
      var j :| 0 <= j < |ws| && LastOnes(ws[j]);
      assert LastOnes(ws'[j]) || done';
    }
    if LastOnes(w) { assert LastOnes(ws'[i]); }
  }

  /** How a worker step can move what the callers depend on. */
  predicate WorkerView(v: View, v': View) {
    && v'.closed == v.closed && v'.terminal == v.terminal && v'.reclaimed == v.reclaimed
    && (v.reconciled ==> v'.reconciled)
    && v'.remaining <= v.remaining
    && (v.remaining == 0 ==> v'.nothingLost == v.nothingLost && v'.abnormal == v.abnormal)
  }

  lemma WorkerMovesView(c: Config, s: State, i: nat, a: WorkerStep)
    requires RemainingOk(c, s)
    requires WorkerEnabled(c, s, i, a)
    ensures WorkerView(ViewOf(s), ViewOf(ApplyWorker(c, s, i, a)))
  {
    RunningMeansUnreconciled(c, s, i);
  }

  lemma WorkerViewKeepsCallers(v: View, v': View, m: map<nat, Caller>)
    requires WorkerView(v, v') && CallersOk(v, m) && TerminalOk(v)
    ensures CallersOk(v', m) && TerminalOk(v')
  {
  }

  lemma WokenLeaderOk(v: View, m: map<nat, Caller>)
    requires CallersOk(v, m)
    ensures CallersOk(v, map k | k in m :: WakeLeader(m[k]))
  {
    forall k | k in m ensures CallerOk(v, WakeLeader(m[k])) {
      assert CallerOk(v, m[k]);
    }
  }

  lemma WorkerKeepsCallers(c: Config, s: State, i: nat, a: WorkerStep)
    requires RemainingOk(c, s) && CallersOk(ViewOf(s), s.callers) && TerminalOk(ViewOf(s))
    requires WorkerEnabled(c, s, i, a)
    ensures var s' := ApplyWorker(c, s, i, a); CallersOk(ViewOf(s'), s'.callers) && TerminalOk(ViewOf(s'))
  {
    WorkerMovesView(c, s, i, a);
    WorkerViewKeepsCallers(ViewOf(s), ViewOf(ApplyWorker(c, s, i, a)), s.callers);
    WokenLeaderOk(ViewOf(ApplyWorker(c, s, i, a)), s.callers);
  }

  lemma WorkerStepLoss(c: Config, closed: bool, last: bool, w: Worker, a: WorkerStep)
    requires WorkerOk(c, closed, w) && WorkerReady(closed, w, a)
    ensures var w' := NextWorker(closed, last, w, a);
      && w'.abortRequested == w.abortRequested
      && (a.Panic? ==> w'.phase.Panicked?)
      && (a.Exit? ==> Contents(w) == multiset{})
      && (w.phase.Panicked? ==> a.MarkAbnormal?)
      && (a.AbortHit? ==> w.abortRequested)
      && !w.phase.Gone?
      && (w.phase.LastOut? ==> a.NotifyDone?)
      && (a.Leave? && last ==> w'.phase.LastOut?)
  {
  }

  lemma WorkerKeepsLoss(c: Config, s: State, i: nat, a: WorkerStep)
    requires WorkersOk(c, s.closed, s.admission, s.workers) && LossOk(s)
    requires WorkerEnabled(c, s, i, a)
    ensures LossOk(ApplyWorker(c, s, i, a))
  {
    assert WorkerOk(c, s.closed, s.workers[i]);
    WorkerStepLoss(c, s.closed, s.remaining == 1, s.workers[i], a);
    var s' := ApplyWorker(c, s, i, a);
    var w' := NextWorker(s.closed, s.remaining == 1, s.workers[i], a);
    assert s'.workers[i] == w';
    if SomePanicked(s.workers) && !a.MarkAbnormal? {
      var j :| 0 <= j < |s.workers| && s.workers[j].phase.Panicked?;
      assert s'.workers[j].phase.Panicked?;
    }
  }

  lemma WorkerKeepsJoined(c: Config, s: State, i: nat, a: WorkerStep)
    requires WorkersOk(c, s.closed, s.admission, s.workers) && JoinedOk(s.workers, s.joined)
    requires WorkerEnabled(c, s, i, a)
    ensures JoinedOk(ApplyWorker(c, s, i, a).workers, s.joined)
  {
    assert WorkerOk(c, s.closed, s.workers[i]);
    WorkerStepLoss(c, s.closed, s.remaining == 1, s.workers[i], a);
  }

  lemma WorkerKeepsLeaderWait(c: Config, s: State, i: nat, a: WorkerStep)
    requires WorkersOk(c, s.closed, s.admission, s.workers)
    requires LeaderWaitOk(s.callers, s.remaining, s.workers)
    requires WorkerEnabled(c, s, i, a)
    ensures var s' := ApplyWorker(c, s, i, a); LeaderWaitOk(s'.callers, s'.remaining, s'.workers)
  {
    assert WorkerOk(c, s.closed, s.workers[i]);
    WorkerStepLoss(c, s.closed, s.remaining == 1, s.workers[i], a);
    var s' := ApplyWorker(c, s, i, a);
    assert s'.workers[i] == NextWorker(s.closed, s.remaining == 1, s.workers[i], a);
    assert EveryAborted(s.workers) ==> EveryAborted(s'.workers);
    if SomeLastOut(s.workers) && !a.NotifyDone? {
      var j :| 0 <= j < |s.workers| && s.workers[j].phase.LastOut?;
      assert s'.workers[j].phase.LastOut?;
    }
  }

  predicate AlikeCaller(p: Caller, p': Caller) {
    && Holds(p') == Holds(p) && HandlesOf(p') == HandlesOf(p) && Over(p') == Over(p)
    && p'.Publish? == p.Publish? && p'.Reaping? == p.Reaping?
    && (p'.Announce? || p'.ReleaseNotify?) == (p.Announce? || p.ReleaseNotify?)
    && (p' == Parked(false) ==> p == Parked(false))
  }

  /** Waking somebody changes nothing about leadership, handles or who will notify. */
  predicate Alike(m: map<nat, Caller>, m': map<nat, Caller>) {
    m'.Keys == m.Keys && forall k | k in m :: AlikeCaller(m[k], m'[k])
  }

  lemma AlikeLeads(m: map<nat, Caller>, m': map<nat, Caller>, k: nat)
    requires Alike(m, m')
    ensures Leads(m', k) == Leads(m, k)
    ensures Notifier(m', k) == Notifier(m, k)
  {
    assert (k in m') == (k in m.Keys);
    if k in m { assert AlikeCaller(m[k], m'[k]); }
  }

  lemma AlikeLeadership(m: map<nat, Caller>, m': map<nat, Caller>, h: ShutdownState)
    requires Alike(m, m') && LeadershipOk(m, h)
    ensures LeadershipOk(m', h)
  {
    forall k ensures Leads(m', k) == Leads(m, k) { AlikeLeads(m, m', k); }
    if h.leader && !h.reclaimed {
      var k :| Leads(m, k);
      assert Leads(m', k);
    }
  }

  lemma AlikeHandles(
      c: Config, m: map<nat, Caller>, m': map<nat, Caller>, reclaimed: bool, stored: seq<nat>, joined: multiset<nat>)
    requires Alike(m, m') && HandlesOk(c, m, reclaimed, stored, joined)
    ensures HandlesOk(c, m', reclaimed, stored, joined)
  {
    forall k ensures Leads(m', k) == Leads(m, k) { AlikeLeads(m, m', k); }
    assert forall k | k in m' :: AlikeCaller(m[k], m'[k]);
    forall k | Leads(m', k) ensures Spread(stored, HandlesOf(m'[k]), joined) == AllHandles(c.workers)
    {
      assert Leads(m, k);
    }
  }

  lemma AlikeWaiters(m: map<nat, Caller>, m': map<nat, Caller>, h: ShutdownState)
    requires Alike(m, m') && WaitersOk(m, h)
    ensures WaitersOk(m', h)
  {
    forall k | k in m' && m'[k] == Parked(false)
      ensures (h.leader && !h.reclaimed) || exists j :: Notifier(m', j)
    {
      assert AlikeCaller(m[k], m'[k]);
      if !(h.leader && !h.reclaimed) {
        var j :| Notifier(m, j);
        AlikeLeads(m, m', j);
      }
    }
  }

  lemma WakeLeaderAlike(m: map<nat, Caller>)
    ensures Alike(m, map k | k in m :: WakeLeader(m[k]))
    ensures Alike(m, m)
  {
  }

  lemma WorkerKeepsElection(c: Config, s: State, i: nat, a: WorkerStep)
    requires LeadershipOk(s.callers, s.shutdown) && WaitersOk(s.callers, s.shutdown)
    requires HandlesOk(c, s.callers, s.shutdown.reclaimed, s.stored, s.joined) && DropOk(s)
    requires WorkerEnabled(c, s, i, a)
    ensures var s' := ApplyWorker(c, s, i, a);
      LeadershipOk(s'.callers, s.shutdown) && WaitersOk(s'.callers, s.shutdown) &&
      HandlesOk(c, s'.callers, s.shutdown.reclaimed, s.stored, s.joined) && DropOk(s')
  {
    var s' := ApplyWorker(c, s, i, a);
    WakeLeaderAlike(s.callers);
    assert Alike(s.callers, s'.callers);
    AlikeLeadership(s.callers, s'.callers, s.shutdown);
    AlikeHandles(c, s.callers, s'.callers, s.shutdown.reclaimed, s.stored, s.joined);
    AlikeWaiters(s.callers, s'.callers, s.shutdown);
  }

  lemma AbortMeansClosed(s: State, i: nat)
    requires LossOk(s) && TerminalOk(ViewOf(s)) && DropOk(s) && i < |s.workers|
    ensures s.workers[i].abortRequested ==> s.closed
  {
  }

  lemma WorkerKeepsEarlyExits(c: Config, s: State, i: nat, a: WorkerStep)
    requires WorkersOk(c, s.closed, s.admission, s.workers)
    requires EarlyExitsOk(s.closed, s.abnormal, s.leftWhileOpen, s.workers)
    requires WorkerEnabled(c, s, i, a)
    requires s.workers[i].abortRequested ==> s.closed
    ensures var s' := ApplyWorker(c, s, i, a); EarlyExitsOk(s'.closed, s'.abnormal, s'.leftWhileOpen, s'.workers)
  {
    assert WorkerOk(c, s.closed, s.workers[i]);
  }

  lemma WorkerKeepsInv(c: Config, s: State, i: nat, a: WorkerStep)
    requires Inv(c, s) && WorkerEnabled(c, s, i, a)
    ensures Inv(c, ApplyWorker(c, s, i, a))
  {
    WorkerKeepsBalance(c, s, i, a);
    WorkerKeepsWorkers(c, s, i, a);
    WorkerKeepsRemaining(c, s, i, a);
    WorkerKeepsCallers(c, s, i, a);
    WorkerKeepsLoss(c, s, i, a);
    AbortMeansClosed(s, i);
    WorkerKeepsEarlyExits(c, s, i, a);
    WorkerKeepsJoined(c, s, i, a);
    WorkerKeepsLeaderWait(c, s, i, a);
    WorkerKeepsElection(c, s, i, a);
  }
}
