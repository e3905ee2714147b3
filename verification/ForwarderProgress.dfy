/**
 Shutdown always finishes: no reachable state is stuck, and with no new calls,
 cancellations or enqueues every run comes to an end with every call returned.
 */
module ForwarderProgress {
  import opened Forwarder
  import opened ForwarderInvariants
  import opened ForwarderSteps
  import opened ForwarderElection
  import opened ForwarderRuns

  /** Everything except new enqueues, new calls, cancellations and dropping the last owner. */
  predicate Internal(step: Step) {
    match step
    case Enqueue(a) => !a.Acquire?
    case Work(_, _) => true
    case Shutdown(_, a) => !a.Call? && !a.Cancel?
    case DropOwner => false
  }

  /** Internal steps that need nobody outside: not the network, a task's deadline or a panic. */
  predicate Driven(step: Step) {
    match step
    case Enqueue(a) => !a.Acquire?
    case Work(_, a) => a.MarkAbnormal? || a.AbortHit? || a.Leave? || a.NotifyDone? || a.Settle?
    case Shutdown(_, a) => !a.Call? && !a.Cancel?
    case DropOwner => false
  }

  // ---------------------------------------------------------------- never stuck

  lemma EnqueueFinishes(c: Config, s: State) returns (step: Step)
    requires Balanced(c, s.ledger, s.admission, Held(s.workers)) && |s.workers| == c.workers && !s.admission.Free?
    ensures Driven(step) && Enabled(c, s, step)
  {
    if s.admission.Permitted? {
      step := Enqueue(Count);
    } else if s.admission.RolledBack? {
      step := Enqueue(DropPermit);
    } else if Accepts(c, s.workers[Target(c, s)]) {
      step := Enqueue(Send);
    } else {
      step := Enqueue(RollBack);
    }
  }

  /** A worker that was told to abort, or is already on its way out, can move. */
  lemma WorkerLeaves(c: Config, s: State, i: nat) returns (step: Step)
    requires RemainingOk(c, s) && i < |s.workers| && !s.workers[i].phase.Gone?
    requires s.workers[i].phase.Running? ==> s.workers[i].abortRequested
    ensures Driven(step) && Enabled(c, s, step)
    ensures step.Work? && (step.work.AbortHit? ==> s.workers[i].phase.Running?)
  {
    RunningMeansUnreconciled(c, s, i);
    step := match s.workers[i].phase {
      case Running => Work(i, AbortHit)
      case Panicked => Work(i, MarkAbnormal)
      case Leaving => Work(i, Leave)
      case LastOut => Work(i, NotifyDone)
      case Settling => Work(i, Settle)
      case Gone => Work(i, Settle)
    };
  }

  lemma SomebodyPresent(ws: seq<Worker>) returns (i: nat)
    requires 0 < Census(ws)
    ensures i < |ws| && Present(ws[i])
  {
    CensusZero(ws);
    i :| i < |ws| && Present(ws[i]);
  }

  lemma ParkedLeaderMoves(c: Config, s: State, k: nat) returns (step: Step)
    requires RemainingOk(c, s) && LeaderWaitOk(s.callers, s.remaining, s.workers)
    requires k in s.callers && s.callers[k] == WaitParked(true, false)
    ensures Driven(step) && Enabled(c, s, step)
  {
    var i: nat;
    if 0 < s.remaining {
      i := SomebodyPresent(s.workers);
    } else {
      i :| i < |s.workers| && s.workers[i].phase.LastOut?;
    }
    step := WorkerLeaves(c, s, i);
  }

  lemma HeldHandleExists(c: Config, s: State, k: nat)
    requires HandlesOk(c, s.callers, s.shutdown.reclaimed, s.stored, s.joined)
    requires k in s.callers && s.callers[k].Reaping? && s.callers[k].held != []
    ensures s.callers[k].held[0] < c.workers
  {
    var held := s.callers[k].held;
    assert Leads(s.callers, k);
    HandleCount(c.workers, held[0]);
    assert held[0] in multiset(held);
    assert Spread(s.stored, held, s.joined)[held[0]] >= 1;
  }

  lemma ReapingLeaderMoves(c: Config, s: State, k: nat) returns (step: Step)
    requires Inv(c, s) && k in s.callers && s.callers[k].Reaping?
    ensures Driven(step) && Enabled(c, s, step)
  {
    var p := s.callers[k];
    assert CallerOk(ViewOf(s), p);
    if p.held == [] {
      step := Shutdown(k, JoinedAll);
    } else {
      HeldHandleExists(c, s, k);
      var i := p.held[0];
      if s.workers[i].phase.Gone? {
        step := Shutdown(k, Join);
      } else {
        RunningMeansUnreconciled(c, s, i);
        step := WorkerLeaves(c, s, i);
      }
    }
  }

  /** The live leader, or something it waits for, can always move. */
  lemma LeaderMoves(c: Config, s: State, k: nat) returns (step: Step)
    requires Inv(c, s) && Leads(s.callers, k)
    ensures Driven(step) && Enabled(c, s, step)
  {
    var p := s.callers[k];
    if p.Closing? && !s.admission.Free? {
      step := EnqueueFinishes(c, s);
    } else if p == WaitParked(true, false) {
      step := ParkedLeaderMoves(c, s, k);
    } else if p.Reaping? {
      step := ReapingLeaderMoves(c, s, k);
    } else {
      step := Shutdown(k, LeaderStep(p));
    }
  }

  function LeaderStep(p: Caller): ShutdownStep
    requires Holds(p)
  {
    match p
    case Closing(_) => Close
    case WaitArmed(_, _) => ReadRemaining
    case WaitParked(_, woken) => if woken then WaitWake else GraceExpire
    case Inspect => LoadAbnormal
    case Reconcile(_) => GraceReconcile
    case Condemn => PersistCondemned
    case Forcing => PersistForced
    case Aborting => AbortAll
    case ForcedReconcile => ForceReconcile
    case TakeHandles(_) => Take
    case Reaping(_, _) => JoinedAll
    case Publish(_) => FinishShutdown
    case Unwinding(_) => ReturnHandles
    case Releasing => Release
  }

  /** While some shutdown call has not returned, the forwarder can move on its own. */
  lemma NeverStuck(c: Config, s: State, k: nat) returns (step: Step)
    requires Inv(c, s) && k in s.callers && !Over(s.callers[k])
    ensures Driven(step) && Enabled(c, s, step)
  {
    var p := s.callers[k];
    if Holds(p) {
      step := LeaderMoves(c, s, k);
    } else if p == Parked(false) {
      step := SleeperIsWoken(c, s, k);
    } else {
      step := Shutdown(k, WaiterStep(p));
    }
  }

  lemma SleeperIsWoken(c: Config, s: State, k: nat) returns (step: Step)
    requires Inv(c, s) && k in s.callers && s.callers[k] == Parked(false)
    ensures Driven(step) && Enabled(c, s, step)
  {
    if s.shutdown.leader && !s.shutdown.reclaimed {
      var j :| Leads(s.callers, j);
      step := LeaderMoves(c, s, j);
    } else {
      step := NotifierMoves(c, s, k);
    }
  }

  lemma NotifierMoves(c: Config, s: State, k: nat) returns (step: Step)
    requires WaitersOk(s.callers, s.shutdown) && (s.shutdown.reclaimed || !s.shutdown.leader)
    requires k in s.callers && s.callers[k] == Parked(false)
    ensures Driven(step) && Enabled(c, s, step)
  {
    var j :| Notifier(s.callers, j);
    step := Shutdown(j, WaiterStep(s.callers[j]));
  }

  function WaiterStep(p: Caller): ShutdownStep
    requires !Holds(p) && !Over(p)
  {
    match p
    case Start => Claim
    case ToldToWait => Register
    case Registered(_) => CheckWait
    case Parked(_) => Wake
    case Announce(_) => NotifyFinished
    case ReleaseNotify => NotifyReleased
  }

  // ---------------------------------------------------------------- after the last owner

  predicate DropAborts(s: State) { s.dropped ==> EveryAborted(s.workers) }

  lemma StepKeepsAborts(c: Config, s: State, step: Step)
    requires DropAborts(s) && Enabled(c, s, step)
    ensures DropAborts(Apply(c, s, step))
  {
    match step
    case Enqueue(a) =>
    case Work(i, a) => assert ApplyWorker(c, s, i, a).workers[i].abortRequested == s.workers[i].abortRequested;
    case Shutdown(k, a) =>
    case DropOwner =>
  }

  lemma {:induction false} DroppedAborts(c: Config, run: seq<Step>, s: State)
    requires Reaches(c, run, s)
    ensures DropAborts(s)
  {
    if run != [] {
      var before := After(c, run[..|run| - 1]).value;
      DroppedAborts(c, run[..|run| - 1], before);
      StepKeepsAborts(c, before, run[|run| - 1]);
    }
  }

  /** Once the last owner is gone every worker has been told to abort, and each can go on leaving on its own. */
  lemma DroppedWorkersLeave(c: Config, run: seq<Step>, s: State, i: nat) returns (step: Step)
    requires Reaches(c, run, s) && s.dropped && i < |s.workers| && !s.workers[i].phase.Gone?
    ensures EveryAborted(s.workers)
    ensures Driven(step) && Enabled(c, s, step) && step.Work?
  {
    DroppedAborts(c, run, s);
    RunInv(c, run, s);
    step := WorkerLeaves(c, s, i);
  }

  // ---------------------------------------------------------------- every run ends

  /** Sum of `f` over the callers with identifiers below `bound`. */
  function Sum(bound: nat, m: map<nat, Caller>, f: Caller -> nat): nat {
    if bound == 0 then 0
    else Sum(bound - 1, m, f) + (if bound - 1 in m then f(m[bound - 1]) else 0)
  }

  lemma {:induction false} SumUpdate(bound: nat, m: map<nat, Caller>, k: nat, p: Caller, f: Caller -> nat)
    requires k in m
    ensures Sum(bound, m[k := p], f) + (if k < bound then f(m[k]) else 0) ==
            Sum(bound, m, f) + (if k < bound then f(p) else 0)
  {
    if bound != 0 { SumUpdate(bound - 1, m, k, p, f); }
  }

  lemma {:induction false} SumSame(bound: nat, m: map<nat, Caller>, m': map<nat, Caller>, f: Caller -> nat)
    requires m'.Keys == m.Keys && forall k | k in m :: f(m'[k]) == f(m[k])
    ensures Sum(bound, m', f) == Sum(bound, m, f)
  {
    if bound != 0 {
      SumSame(bound - 1, m, m', f);
      assert (bound - 1 in m') == (bound - 1 in m.Keys);
    }
  }

  /** How far leadership is from publication: being released, vacant, held, published. */
  ghost function Epoch(m: map<nat, Caller>, h: ShutdownState): nat {
    if h.reclaimed then 0
    else if !h.leader then 2
    else if exists k :: GivingUp(m, k) then 3 else 1
  }

  predicate GivingUp(m: map<nat, Caller>, k: nat) { k in m && (m[k].Unwinding? || m[k].Releasing?) }

  function Notifying(p: Caller): nat { if p.Announce? || p.ReleaseNotify? then 1 else 0 }

  function Woken(p: Caller): nat { if p == Parked(true) || p == Registered(true) then 1 else 0 }

  function CallerRank(epoch: nat, p: Caller): nat {
    match p
    case Start => if epoch == 2 then 1 else 4
    case ToldToWait => 3
    case Registered(_) => 2
    case Parked(_) => 1
    case Closing(_) => 40
    case WaitArmed(forced, woken) => (if forced then 22 else 32) + (if woken then 2 else 0)
    case WaitParked(forced, woken) => (if forced then 21 else 31) + (if woken then 2 else 0)
    case Inspect => 30
    case Reconcile(_) => 29
    case Condemn => 28
    case Forcing => 27
    case Aborting => 26
    case ForcedReconcile => 20
    case TakeHandles(_) => 10
    case Reaping(_, held) => 5 + |held|
    case Publish(_) => 4
    case Unwinding(held) => 5 + |held|
    case Releasing => 4
    case _ => 0
  }

  function WorkerRank(w: Worker): nat {
    4 * |w.channel| + 3 * |w.waiting| + 2 * |w.inflight| +
    (if w.sweptEmpty then 0 else 1) + (if w.rxClosed then 0 else 1) +
    match w.phase {
      case Running => 6
      case Panicked => 5
      case Leaving => 4
      case LastOut => 3
      case Settling => 2
      case Gone => 0
    }
  }

  function WorkersRank(ws: seq<Worker>): nat {
    if ws == [] then 0 else WorkersRank(ws[..|ws| - 1]) + WorkerRank(ws[|ws| - 1])
  }

  function AdmissionRank(a: Admission): nat {
    match a
    case Free => 0
    case Permitted(_) => 8
    case Counted(_) => 6
    case RolledBack(_) => 1
  }

  datatype Rank = Rank(epoch: nat, notifiers: nat, woken: nat, work: nat, callers: nat)

  ghost function RankOf(bound: nat, s: State): Rank {
    var e := Epoch(s.callers, s.shutdown);
    Rank(e, Sum(bound, s.callers, Notifying), Sum(bound, s.callers, Woken),
         WorkersRank(s.workers) + AdmissionRank(s.admission),
         Sum(bound, s.callers, p => CallerRank(e, p)) + |s.stored|)
  }

  predicate Below(a: Rank, b: Rank) {
    a.epoch < b.epoch || (a.epoch == b.epoch &&
    (a.notifiers < b.notifiers || (a.notifiers == b.notifiers &&
    (a.woken < b.woken || (a.woken == b.woken &&
    (a.work < b.work || (a.work == b.work && a.callers < b.callers)))))))
  }

  lemma {:induction false} WorkersRankUpdate(ws: seq<Worker>, i: nat, w: Worker)
    requires i < |ws|
    ensures WorkersRank(ws[i := w]) + WorkerRank(ws[i]) == WorkersRank(ws) + WorkerRank(w)
  {
    var n := |ws| - 1;
    if i == n {
      assert ws[i := w][..n] == ws[..n];
    } else {
      assert ws[i := w][..n] == ws[..n][i := w];
      WorkersRankUpdate(ws[..n], i, w);
    }
  }

  lemma {:induction false} WorkersRankSame(ws: seq<Worker>, vs: seq<Worker>)
    requires |ws| == |vs| && forall i | 0 <= i < |ws| :: WorkerRank(ws[i]) == WorkerRank(vs[i])
    ensures WorkersRank(ws) == WorkersRank(vs)
  {
    if ws != [] { WorkersRankSame(ws[..|ws| - 1], vs[..|vs| - 1]); }
  }

  lemma EnqueueDescends(c: Config, s: State, a: EnqueueStep)
    requires EnqueueEnabled(c, s, a) && !a.Acquire?
    ensures var s' := ApplyEnqueue(c, s, a);
      WorkersRank(s'.workers) + AdmissionRank(s'.admission) < WorkersRank(s.workers) + AdmissionRank(s.admission) &&
      s'.callers == s.callers && s'.shutdown == s.shutdown && s'.stored == s.stored
  {
    if a.Send? {
      var i := Target(c, s);
      var w := s.workers[i];
      WorkersRankUpdate(s.workers, i, w.(channel := w.channel + [s.admission.task]));
    }
  }

  lemma WorkerRankDescends(closed: bool, last: bool, w: Worker, a: WorkerStep)
    requires WorkerReady(closed, w, a)
    ensures WorkerRank(NextWorker(closed, last, w, a)) < WorkerRank(w)
  {
  }

  lemma WorkerDescends(c: Config, s: State, i: nat, a: WorkerStep)
    requires WorkerEnabled(c, s, i, a)
    ensures WorkersRank(ApplyWorker(c, s, i, a).workers) < WorkersRank(s.workers)
  {
    WorkerRankDescends(s.closed, s.remaining == 1, s.workers[i], a);
    WorkersRankUpdate(s.workers, i, NextWorker(s.closed, s.remaining == 1, s.workers[i], a));
  }

  lemma WakeLeaderEpoch(bound: nat, m: map<nat, Caller>, h: ShutdownState)
    ensures var m' := map k | k in m :: WakeLeader(m[k]);
      Epoch(m', h) == Epoch(m, h) && Sum(bound, m', Notifying) == Sum(bound, m, Notifying) &&
      Sum(bound, m', Woken) == Sum(bound, m, Woken)
  {
    var m' := map k | k in m :: WakeLeader(m[k]);
    assert forall k :: GivingUp(m', k) == GivingUp(m, k);
    SumSame(bound, m, m', Notifying);
    SumSame(bound, m, m', Woken);
  }

  predicate Turns(h: ShutdownState, a: ShutdownStep) {
    a.FinishShutdown? || a.Release? || (a.Claim? && !h.leader && !h.reclaimed)
  }

  /** Publishing, releasing and winning leadership each move on to a later epoch. */
  lemma TurningDescends(c: Config, s: State, k: nat, a: ShutdownStep)
    requires LeadershipOk(s.callers, s.shutdown)
    requires ShutdownEnabled(c, s, k, a) && Turns(s.shutdown, a)
    ensures var s' := ApplyShutdown(c, s, k, a); Epoch(s'.callers, s'.shutdown) < Epoch(s.callers, s.shutdown)
  {
    var s' := ApplyShutdown(c, s, k, a);
    if a.Claim? {
      forall j ensures !GivingUp(s'.callers, j) {
        assert !Leads(s.callers, j);
      }
    } else {
      assert Leads(s.callers, k);
      if a.Release? { assert GivingUp(s.callers, k); }
    }
  }

  lemma EpochSame(c: Config, s: State, k: nat, a: ShutdownStep)
    requires ShutdownEnabled(c, s, k, a) && !a.Call? && !a.Cancel? && !Turns(s.shutdown, a)
    ensures var s' := ApplyShutdown(c, s, k, a); Epoch(s'.callers, s'.shutdown) == Epoch(s.callers, s.shutdown)
  {
    var s' := ApplyShutdown(c, s, k, a);
    forall j ensures GivingUp(s'.callers, j) == GivingUp(s.callers, j) {
    }
  }

  lemma NotifyingDescends(c: Config, s: State, k: nat, a: ShutdownStep, bound: nat)
    requires ShutdownEnabled(c, s, k, a) && Notifies(a) && k < bound
    ensures Sum(bound, ApplyShutdown(c, s, k, a).callers, Notifying) < Sum(bound, s.callers, Notifying)
  {
    var woken := Others(s, a);
    assert forall j | j in s.callers :: Notifying(woken[j]) == Notifying(s.callers[j]);
    SumSame(bound, s.callers, woken, Notifying);
    CallersAfter(c, s, k, a);
    SumUpdate(bound, woken, k, NextCaller(s, s.callers[k], a), Notifying);
  }

  predicate EpochFits(e: nat, h: ShutdownState) {
    if h.reclaimed then e == 0 else if h.leader then e == 1 || e == 3 else e == 2
  }

  /** Any other step is progress for its own caller. */
  lemma CallerDescends(s: State, e: nat, p: Caller, a: ShutdownStep, stored': seq<nat>)
    requires ShutdownReady(s, p, a) && !a.Cancel? && !Turns(s.shutdown, a) && !Notifies(a)
    requires EpochFits(e, s.shutdown)
    requires stored' == if a.Take? then [] else if a.ReturnHandles? then s.stored + p.held else s.stored
    ensures var p' := NextCaller(s, p, a);
      && Notifying(p') == Notifying(p)
      && (Woken(p') < Woken(p) ||
          (Woken(p') == Woken(p) && CallerRank(e, p') + |stored'| < CallerRank(e, p) + |s.stored|))
  {
  }

  lemma WorkSame(c: Config, s: State, k: nat, a: ShutdownStep)
    requires ShutdownEnabled(c, s, k, a)
    ensures WorkersRank(ApplyShutdown(c, s, k, a).workers) == WorkersRank(s.workers)
  {
    WorkersRankSame(AbortEvery(s.workers), s.workers);
  }

  lemma OrdinaryDescends(c: Config, s: State, k: nat, a: ShutdownStep, bound: nat, e: nat)
    requires ShutdownEnabled(c, s, k, a) && !a.Call? && !a.Cancel? && !Turns(s.shutdown, a) && !Notifies(a)
    requires k < bound && EpochFits(e, s.shutdown)
    ensures var s' := ApplyShutdown(c, s, k, a);
      && Sum(bound, s'.callers, Notifying) == Sum(bound, s.callers, Notifying)
      && (Sum(bound, s'.callers, Woken) < Sum(bound, s.callers, Woken) ||
          (Sum(bound, s'.callers, Woken) == Sum(bound, s.callers, Woken) &&
           Sum(bound, s'.callers, p => CallerRank(e, p)) + |s'.stored| <
           Sum(bound, s.callers, p => CallerRank(e, p)) + |s.stored|))
  {
    var p := s.callers[k];
    var p' := NextCaller(s, p, a);
    var s' := ApplyShutdown(c, s, k, a);
    CallersAfter(c, s, k, a);
    CallerDescends(s, e, p, a, s'.stored);
    SumUpdate(bound, s.callers, k, p', Notifying);
    SumUpdate(bound, s.callers, k, p', Woken);
    SumUpdate(bound, s.callers, k, p', q => CallerRank(e, q));
  }

  lemma ShutdownDescends(c: Config, s: State, k: nat, a: ShutdownStep, bound: nat)
    requires LeadershipOk(s.callers, s.shutdown)
    requires ShutdownEnabled(c, s, k, a) && !a.Call? && !a.Cancel? && k < bound
    ensures Below(RankOf(bound, ApplyShutdown(c, s, k, a)), RankOf(bound, s))
  {
    if Turns(s.shutdown, a) {
      TurningDescends(c, s, k, a);
    } else {
      EpochSame(c, s, k, a);
      if Notifies(a) {
        NotifyingDescends(c, s, k, a, bound);
      } else {
        WorkSame(c, s, k, a);
        OrdinaryDescends(c, s, k, a, bound, Epoch(s.callers, s.shutdown));
      }
    }
  }

  lemma EnqueueStepDescends(c: Config, s: State, a: EnqueueStep, bound: nat)
    requires EnqueueEnabled(c, s, a) && !a.Acquire?
    ensures Below(RankOf(bound, ApplyEnqueue(c, s, a)), RankOf(bound, s))
  {
    EnqueueDescends(c, s, a);
  }

  lemma WorkerStepDescends(c: Config, s: State, i: nat, a: WorkerStep, bound: nat)
    requires WorkerEnabled(c, s, i, a)
    ensures Below(RankOf(bound, ApplyWorker(c, s, i, a)), RankOf(bound, s))
  {
    WorkerDescends(c, s, i, a);
    WakeLeaderEpoch(bound, s.callers, s.shutdown);
  }

  lemma SameShutdownCallers(c: Config, s: State, k: nat, a: ShutdownStep)
    requires ShutdownEnabled(c, s, k, a) && !a.Call?
    ensures ApplyShutdown(c, s, k, a).callers.Keys == s.callers.Keys
  {
  }

  lemma SameWorkerCallers(c: Config, s: State, i: nat, a: WorkerStep)
    requires WorkerEnabled(c, s, i, a)
    ensures ApplyWorker(c, s, i, a).callers.Keys == s.callers.Keys
  {
  }

  lemma SameCallers(c: Config, s: State, step: Step)
    requires Internal(step) && Enabled(c, s, step)
    ensures Apply(c, s, step).callers.Keys == s.callers.Keys
  {
    match step
    case Enqueue(a) => assert ApplyEnqueue(c, s, a).callers == s.callers;
    case Work(i, a) => SameWorkerCallers(c, s, i, a);
    case Shutdown(k, a) => SameShutdownCallers(c, s, k, a);
  }

  /** Every internal step descends, so no run of internal steps goes on forever. */
  lemma InternalStepDescends(c: Config, s: State, step: Step, bound: nat)
    requires LeadershipOk(s.callers, s.shutdown) && Internal(step) && Enabled(c, s, step)
    requires forall k | k in s.callers :: k < bound
    ensures Below(RankOf(bound, Apply(c, s, step)), RankOf(bound, s))
    ensures Apply(c, s, step).callers.Keys == s.callers.Keys
  {
    match step
    case Enqueue(a) => EnqueueStepDescends(c, s, a, bound);
    case Work(i, a) => WorkerStepDescends(c, s, i, a, bound);
    case Shutdown(k, a) => ShutdownDescends(c, s, k, a, bound);
    SameCallers(c, s, step);
  }

  predicate AllReturned(s: State) { forall k | k in s.callers :: Over(s.callers[k]) }

  /**
   Whatever internal steps are taken from here, in whatever order, they come to an end,
   and where no driven step is left every shutdown call has returned.
   */
  ghost predicate Settles(c: Config, s: State, bound: nat)
    requires Inv(c, s) && forall k | k in s.callers :: k < bound
    decreases RankOf(bound, s).epoch, RankOf(bound, s).notifiers, RankOf(bound, s).woken,
              RankOf(bound, s).work, RankOf(bound, s).callers
  {
    && ((forall step | Driven(step) :: !Enabled(c, s, step)) ==> AllReturned(s))
    && forall step | Internal(step) && Enabled(c, s, step) ::
         StepKeepsInv(c, s, step);
         InternalStepDescends(c, s, step, bound);
         Settles(c, Apply(c, s, step), bound)
  }

  lemma {:induction false} ShutdownSettles(c: Config, s: State, bound: nat)
    requires Inv(c, s) && forall k | k in s.callers :: k < bound
    ensures Settles(c, s, bound)
    decreases RankOf(bound, s).epoch, RankOf(bound, s).notifiers, RankOf(bound, s).woken,
              RankOf(bound, s).work, RankOf(bound, s).callers
  {
    if !AllReturned(s) {
      var k :| k in s.callers && !Over(s.callers[k]);
      var step := NeverStuck(c, s, k);
    }
    forall step | Internal(step) && Enabled(c, s, step)
      ensures Inv(c, Apply(c, s, step)) && Apply(c, s, step).callers.Keys == s.callers.Keys
      ensures (forall k | k in Apply(c, s, step).callers :: k < bound) && Settles(c, Apply(c, s, step), bound)
    {
      StepKeepsInv(c, s, step);
      InternalStepDescends(c, s, step, bound);
      assert forall k | k in Apply(c, s, step).callers :: k in s.callers.Keys;
      ShutdownSettles(c, Apply(c, s, step), bound);
    }
  }

  /** In every reachable state, shutdown is bound to finish. */
  lemma ReachableSettles(c: Config, run: seq<Step>, s: State, bound: nat)
    requires Reaches(c, run, s) && forall k | k in s.callers :: k < bound
    ensures Inv(c, s) && Settles(c, s, bound)
  {
    RunInv(c, run, s);
    ShutdownSettles(c, s, bound);
  }
}
