/** What holds in every state of every run of the forwarder. */
module ForwarderRuns {
  import opened Common
  import opened Forwarder
  import opened ForwarderInvariants
  import opened ForwarderSteps
  import opened ForwarderElection
  import opened ForwarderVerdict

  ghost predicate Reaches(c: Config, run: seq<Step>, s: State) { After(c, run) == Some(s) }

  lemma StepKeepsInv(c: Config, s: State, step: Step)
    requires Inv(c, s) && Enabled(c, s, step)
    ensures Inv(c, Apply(c, s, step))
  {
    match step
    case Enqueue(a) => EnqueueKeepsInv(c, s, a);
    case Work(i, a) => WorkerKeepsInv(c, s, i, a);
    case Shutdown(k, a) => ShutdownKeepsInv(c, s, k, a);
    case DropOwner => DropKeepsInv(c, s);
  }

  lemma {:induction false} RunInv(c: Config, run: seq<Step>, s: State)
    requires Reaches(c, run, s)
    ensures Inv(c, s)
  {
    if run == [] {
      InitInv(c);
    } else {
      var before := After(c, run[..|run| - 1]);
      RunInv(c, run[..|run| - 1], before.value);
      StepKeepsInv(c, before.value, run[|run| - 1]);
    }
  }

  // ---------------------------------------------------------------- conservation

  /** Enqueues of the run that returned Ok. */
  function OkEnqueues(run: seq<Step>): nat {
    if run == [] then 0
    else OkEnqueues(run[..|run| - 1]) + (if run[|run| - 1] == Enqueue(Send) then 1 else 0)
  }

  lemma WorkerCountsAccepted(c: Config, s: State, i: nat, a: WorkerStep)
    requires WorkerEnabled(c, s, i, a)
    ensures ApplyWorker(c, s, i, a).ledger.accepted == s.ledger.accepted
  {
  }

  lemma ShutdownCountsAccepted(c: Config, s: State, k: nat, a: ShutdownStep)
    requires ShutdownEnabled(c, s, k, a)
    ensures ApplyShutdown(c, s, k, a).ledger.accepted == s.ledger.accepted
  {
  }

  lemma EnqueueCountsAccepted(c: Config, s: State, a: EnqueueStep)
    requires EnqueueEnabled(c, s, a)
    ensures |ApplyEnqueue(c, s, a).ledger.accepted| == |s.ledger.accepted| + (if a.Send? then 1 else 0)
  {
  }

  lemma StepCountsAccepted(c: Config, s: State, step: Step)
    requires Enabled(c, s, step)
    ensures |Apply(c, s, step).ledger.accepted| == |s.ledger.accepted| + (if step == Enqueue(Send) then 1 else 0)
  {
    match step
    case Enqueue(a) => EnqueueCountsAccepted(c, s, a);
    case Work(i, a) => WorkerCountsAccepted(c, s, i, a);
    case Shutdown(k, a) => ShutdownCountsAccepted(c, s, k, a);
    case DropOwner =>
  }

  lemma {:induction false} AcceptedCountsOk(c: Config, run: seq<Step>, s: State)
    requires Reaches(c, run, s)
    ensures |s.ledger.accepted| == OkEnqueues(run)
  {
    if run != [] {
      var before := After(c, run[..|run| - 1]);
      AcceptedCountsOk(c, run[..|run| - 1], before.value);
      StepCountsAccepted(c, before.value, run[|run| - 1]);
    }
  }

  /** All worker tasks have ended. */
  predicate AllGone(s: State) { forall i | 0 <= i < |s.workers| :: s.workers[i].phase.Gone? }

  lemma AllGoneSettled(c: Config, s: State)
    requires Inv(c, s) && AllGone(s)
    ensures s.remaining == 0 && s.ledger.reconciled && Held(s.workers) == multiset{}
  {
    CensusZero(s.workers);
    NobodyHolds(c, s.closed, s.admission, s.workers);
  }

  /**
   Once every worker task has ended, reconciliation has run exactly once, every accepted
   task was recorded by a worker at most once, and together the completions and observer
   calls number one per accepted task, with one exception: one call too many when
   reconciliation read `admitted` between an enqueue's increment and its rollback. That
   needs every worker to have left while admission was still open.
   */
  lemma Conservation(c: Config, run: seq<Step>, s: State)
    requires Reaches(c, run, s) && AllGone(s)
    ensures |s.ledger.accepted| == OkEnqueues(run)
    ensures s.ledger.accepted == s.ledger.observed + s.ledger.lost
    ensures forall t :: s.ledger.observed[t] <= 1 && s.ledger.lost[t] <= 1
    ensures s.ledger.reconciliations == 1
    ensures s.ledger.completed == OkEnqueues(run) <==> !s.ledger.snapshotMidEnqueue
    ensures s.ledger.completed <= OkEnqueues(run) + 1
    ensures c.hasObserver ==> s.ledger.successes + s.ledger.errors == s.ledger.completed
    ensures s.ledger.snapshotMidEnqueue ==> s.leftWhileOpen == c.workers && s.abnormal
  {
    RunInv(c, run, s);
    AcceptedCountsOk(c, run, s);
    AllGoneSettled(c, s);
    forall t ensures s.ledger.observed[t] <= 1 && s.ledger.lost[t] <= 1 {
      assert s.ledger.accepted[t] == s.ledger.observed[t] + s.ledger.lost[t] + Held(s.workers)[t];
    }
  }

  /**
   If somebody was still at work when admission closed, or nobody panicked, the books are
   exact: one completion, and one observer call, per Ok enqueue.
   */
  lemma OrderlyConservation(c: Config, run: seq<Step>, s: State)
    requires Reaches(c, run, s) && AllGone(s) && (s.leftWhileOpen < c.workers || !s.abnormal)
    ensures s.ledger.completed == OkEnqueues(run) == |s.ledger.observed| + |s.ledger.lost|
    ensures c.hasObserver ==> s.ledger.successes + s.ledger.errors == OkEnqueues(run)
  {
    Conservation(c, run, s);
  }

  lemma {:induction false} HandleCount(n: nat, i: nat)
    ensures AllHandles(n)[i] == if i < n then 1 else 0
  {
    if n != 0 { HandleCount(n - 1, i); }
  }

  lemma JoinedEverything(c: Config, s: State)
    requires Inv(c, s) && s.shutdown.reclaimed
    ensures s.joined == AllHandles(c.workers) && AllGone(s)
  {
    assert forall k :: !Leads(s.callers, k);
    assert Spread(s.stored, [], s.joined) == s.joined;
    forall i | 0 <= i < |s.workers| ensures s.workers[i].phase.Gone? {
      HandleCount(c.workers, i);
      assert i in s.joined;
    }
  }

  /**
   Publishing reclamation means it: every handle was joined, every worker task ended,
   every permit is back, and the books close as in `Conservation`.
   */
  lemma ReclamationIsComplete(c: Config, run: seq<Step>, s: State)
    requires Reaches(c, run, s) && s.shutdown.reclaimed
    ensures s.shutdown.terminal.Some?
    ensures AllGone(s) && s.joined == AllHandles(c.workers) && s.stored == []
    ensures s.ledger.available == PermitLimit(c)
    ensures s.ledger.admitted == OkEnqueues(run)
    ensures !s.ledger.snapshotMidEnqueue ==> s.ledger.completed == s.ledger.admitted
  {
    RunInv(c, run, s);
    JoinedEverything(c, s);
    AllGoneSettled(c, s);
    Conservation(c, run, s);
  }

  lemma PanicMidEnqueue() returns (c: Config, run: seq<Step>, s: State)
    ensures Reaches(c, run, s) && OkEnqueues(run) == 0 && c.hasObserver
    ensures s.admission.Counted? && s.remaining == 1 && |s.workers| == 1 && s.workers[0].phase.Leaving?
    ensures s.ledger.admitted == 1 && s.ledger.completed == 0 && s.ledger.errors == 0 && !s.ledger.reconciled
  {
    c, run, s := Config(1, 128, true), [], Init(Config(1, 128, true));
    run, s := Take1(c, run, s, Enqueue(Acquire(0)));
    run, s := Take1(c, run, s, Enqueue(Count));
    run, s := Take1(c, run, s, Work(0, Panic));
    run, s := Take1(c, run, s, Work(0, MarkAbnormal));
  }

  /** The overcount does happen: a sole worker panics while an enqueue is half done. */
  lemma OvercountWitness() returns (c: Config, run: seq<Step>, s: State)
    ensures Reaches(c, run, s) && AllGone(s)
    ensures OkEnqueues(run) == 0 && s.ledger.completed == 1 && s.ledger.errors == 1
  {
    c, run, s := PanicMidEnqueue();
    run, s := Take1(c, run, s, Work(0, Leave));
    run, s := Take1(c, run, s, Work(0, NotifyDone));
    run, s := Take1(c, run, s, Work(0, Settle));
  }

  lemma Take1(c: Config, run: seq<Step>, s: State, step: Step) returns (run': seq<Step>, s': State)
    requires Reaches(c, run, s) && Enabled(c, s, step)
    ensures run' == run + [step] && s' == Apply(c, s, step)
    ensures Reaches(c, run', s')
    ensures OkEnqueues(run') == OkEnqueues(run) + (if step == Enqueue(Send) then 1 else 0)
  {
    run', s' := run + [step], Apply(c, s, step);
    assert run'[..|run'| - 1] == run;
  }

  // ---------------------------------------------------------------- bounded work

  /** Permits, plus every task still held anywhere, is always the limit. */
  lemma BoundedWork(c: Config, run: seq<Step>, s: State)
    requires Reaches(c, run, s)
    ensures s.ledger.available + PermitHeld(s.admission) + |Held(s.workers)| == PermitLimit(c)
    ensures c.capacity + MAX_INFLIGHT_PER_WORKER < U64_LIMIT ==> PermitLimit(c) == c.capacity + MAX_INFLIGHT_PER_WORKER
    ensures forall i | 0 <= i < |s.workers| ::
      |s.workers[i].inflight| <= MAX_INFLIGHT_PER_WORKER && |s.workers[i].channel| <= c.capacity
  {
    RunInv(c, run, s);
    assert forall i | 0 <= i < |s.workers| :: WorkerOk(c, s.closed, s.workers[i]);
  }

  /** The same for a forwarder as it is built, whatever sizes were asked for. */
  lemma BuiltBounded(workers: Usize, capacity: Usize, hasObserver: bool, run: seq<Step>, s: State)
    requires Reaches(Normalize(workers, capacity, hasObserver), run, s)
    ensures var room := if capacity < 128 then 128 else capacity;
      s.ledger.available + PermitHeld(s.admission) + |Held(s.workers)| ==
        SaturatingAdd(room, 16) &&
      |s.workers| == (if workers == 0 then 1 else workers) &&
      forall i | 0 <= i < |s.workers| :: |s.workers[i].inflight| <= 16 && |s.workers[i].channel| <= room
  {
    RunInv(Normalize(workers, capacity, hasObserver), run, s);
    BoundedWork(Normalize(workers, capacity, hasObserver), run, s);
  }

  /** Every worker's join handle is in exactly one place, whoever was cancelled before. */
  lemma HandleConservation(c: Config, run: seq<Step>, s: State, i: nat)
    requires Reaches(c, run, s) && i < c.workers
    ensures (forall k :: !Leads(s.callers, k)) ==> multiset(s.stored)[i] + s.joined[i] == 1
    ensures forall k | Leads(s.callers, k) ::
      multiset(s.stored)[i] + multiset(HandlesOf(s.callers[k]))[i] + s.joined[i] == 1
    ensures i in s.joined ==> i < |s.workers| && s.workers[i].phase.Gone?
  {
    RunInv(c, run, s);
    HandleCount(c.workers, i);
    if forall k :: !Leads(s.callers, k) {
      assert Spread(s.stored, [], s.joined)[i] == multiset(s.stored)[i] + s.joined[i];
    }
    forall k | Leads(s.callers, k)
      ensures multiset(s.stored)[i] + multiset(HandlesOf(s.callers[k]))[i] + s.joined[i] == 1
    {
      assert Spread(s.stored, HandlesOf(s.callers[k]), s.joined)[i] == 1;
    }
  }

  // ---------------------------------------------------------------- truthful, sticky shutdown

  lemma ReturnedAgree(c: Config, run: seq<Step>, s: State, k: nat)
    requires Reaches(c, run, s) && k in s.callers && s.callers[k].Done?
    ensures s.shutdown.reclaimed && s.shutdown.terminal == Some(s.callers[k].result)
    ensures forall j | j in s.callers && s.callers[j].Done? :: s.callers[j] == s.callers[k]
    ensures s.callers[k] == Done(Drained) ==> !s.abnormal && s.ledger.lost == multiset{}
  {
    RunInv(c, run, s);
    assert CallerOk(ViewOf(s), s.callers[k]);
    forall j | j in s.callers && s.callers[j].Done? ensures s.callers[j] == s.callers[k] {
      assert CallerOk(ViewOf(s), s.callers[j]);
    }
  }

  lemma {:induction false} RunVerdict(c: Config, run: seq<Step>, s: State)
    requires Reaches(c, run, s)
    ensures VerdictOk(s, GraceRanOut(c, run))
  {
    if run != [] {
      var before := After(c, run[..|run| - 1]).value;
      RunVerdict(c, run[..|run| - 1], before);
      RunInv(c, run[..|run| - 1], before);
      StepKeepsVerdict(c, before, run[|run| - 1], GraceRanOut(c, run[..|run| - 1]));
    }
  }

  /** A returned shutdown reports a timeout exactly when there was a reason to. */
  lemma ReturnedForCause(c: Config, run: seq<Step>, s: State, k: nat)
    requires Reaches(c, run, s) && k in s.callers && s.callers[k].Done?
    ensures s.callers[k] == Done(Drained) <==> !Excused(s, GraceRanOut(c, run))
  {
    RunInv(c, run, s);
    RunVerdict(c, run, s);
    ReturnedAgree(c, run, s, k);
    PublishedForCause(ViewOf(s), s.callers, Excused(s, GraceRanOut(c, run)), GraceRanOut(c, run));
  }

  /**
   All returned shutdown calls agree. They return Ok if and only if nobody exited
   abnormally, no accepted task was lost and no leader's grace ran out while a worker
   was still present; a worker then recorded the outcome of every accepted task.
   */
  lemma TruthfulShutdown(c: Config, run: seq<Step>, s: State, k: nat)
    requires Reaches(c, run, s) && k in s.callers && s.callers[k].Done?
    ensures s.shutdown.reclaimed && s.shutdown.terminal == Some(s.callers[k].result)
    ensures forall j | j in s.callers && s.callers[j].Done? :: s.callers[j] == s.callers[k]
    ensures s.callers[k] == Done(Drained) <==>
      !s.abnormal && s.ledger.lost == multiset{} && !GraceRanOut(c, run)
    ensures s.callers[k] == Done(Drained) ==>
      s.ledger.observed == s.ledger.accepted && s.ledger.completed == OkEnqueues(run)
  {
    ReturnedAgree(c, run, s, k);
    ReturnedForCause(c, run, s, k);
    ReclamationIsComplete(c, run, s);
    Conservation(c, run, s);
  }

  /** The forced flag says the same as the terminal result, or that the last owner is gone. */
  predicate ForcedOk(forced: bool, terminal: Option<ShutdownResult>, dropped: bool) {
    forced <==> terminal == Some(TimedOut) || dropped
  }

  lemma ForcedTurn(s: State, p: Caller, a: ShutdownStep)
    requires ShutdownReady(s, p, a) && CallerOk(ViewOf(s), p) && ForcedOk(s.forced, s.shutdown.terminal, s.dropped)
    ensures ForcedOk(s.forced || a.PersistCondemned? || a.PersistForced?,
                     NextShutdownState(s, p, a).terminal, s.dropped)
  {
    assert s.shutdown.terminal.Some? ==> s.shutdown.terminal.value.Drained? || s.shutdown.terminal.value.TimedOut?;
  }

  lemma ShutdownForces(c: Config, s: State, k: nat, a: ShutdownStep)
    requires CallersOk(ViewOf(s), s.callers) && ShutdownEnabled(c, s, k, a)
    requires ForcedOk(s.forced, s.shutdown.terminal, s.dropped)
    ensures var s' := ApplyShutdown(c, s, k, a); ForcedOk(s'.forced, s'.shutdown.terminal, s'.dropped)
  {
    if !a.Call? {
      assert CallerOk(ViewOf(s), s.callers[k]);
      ForcedTurn(s, s.callers[k], a);
    }
  }

  lemma StepForces(c: Config, s: State, step: Step)
    requires CallersOk(ViewOf(s), s.callers) && Enabled(c, s, step)
    requires ForcedOk(s.forced, s.shutdown.terminal, s.dropped)
    ensures var s' := Apply(c, s, step); ForcedOk(s'.forced, s'.shutdown.terminal, s'.dropped)
  {
    if step.Shutdown? { ShutdownForces(c, s, step.caller, step.shutdown); }
  }

  lemma {:induction false} ForcedIff(c: Config, run: seq<Step>, s: State)
    requires Reaches(c, run, s)
    ensures s.forced <==> s.shutdown.terminal == Some(TimedOut) || s.dropped
  {
    if run != [] {
      var before := After(c, run[..|run| - 1]).value;
      ForcedIff(c, run[..|run| - 1], before);
      RunInv(c, run[..|run| - 1], before);
      StepForces(c, before, run[|run| - 1]);
    }
  }

  /** What never goes back. */
  predicate Settled(s: State, s': State) {
    && (s.shutdown.terminal.Some? ==> s'.shutdown.terminal == s.shutdown.terminal)
    && (s.shutdown.reclaimed ==> s'.shutdown.reclaimed)
    && (forall j | j in s.callers && s.callers[j].Done? :: j in s'.callers && s'.callers[j] == s.callers[j])
  }

  lemma WorkerSettled(c: Config, s: State, i: nat, a: WorkerStep)
    requires WorkerEnabled(c, s, i, a)
    ensures Settled(s, ApplyWorker(c, s, i, a))
  {
  }

  lemma SettledFlags(s: State, p: Caller, a: ShutdownStep)
    requires ShutdownReady(s, p, a)
    ensures var h := NextShutdownState(s, p, a);
      (s.shutdown.terminal.Some? ==> h.terminal == s.shutdown.terminal) && (s.shutdown.reclaimed ==> h.reclaimed)
  {
  }

  lemma SettledCallers(c: Config, s: State, k: nat, a: ShutdownStep)
    requires ShutdownEnabled(c, s, k, a)
    ensures var s' := ApplyShutdown(c, s, k, a);
      forall j | j in s.callers && s.callers[j].Done? :: j in s'.callers && s'.callers[j] == s.callers[j]
  {
    if k in s.callers && s.callers[k].Done? { OverIsFinal(s, s.callers[k], a); }
  }

  lemma ShutdownSettled(c: Config, s: State, k: nat, a: ShutdownStep)
    requires ShutdownEnabled(c, s, k, a)
    ensures Settled(s, ApplyShutdown(c, s, k, a))
  {
    SettledCallers(c, s, k, a);
    if !a.Call? { SettledFlags(s, s.callers[k], a); }
  }

  lemma StepSettled(c: Config, s: State, step: Step)
    requires Enabled(c, s, step)
    ensures Settled(s, Apply(c, s, step))
  {
    match step
    case Enqueue(a) => assert Apply(c, s, step).shutdown == s.shutdown;
    case Work(i, a) => WorkerSettled(c, s, i, a);
    case Shutdown(k, a) => ShutdownSettled(c, s, k, a);
    case DropOwner =>
  }

  lemma SettledTransitive(s: State, t: State, u: State)
    requires Settled(s, t) && Settled(t, u)
    ensures Settled(s, u)
  {
  }

  /** The terminal result, publication and every returned value outlive any continuation. */
  lemma {:induction false} Sticky(c: Config, run: seq<Step>, more: seq<Step>, s: State, s': State)
    requires Reaches(c, run, s) && Reaches(c, run + more, s')
    ensures Settled(s, s')
  {
    if more == [] {
      assert run + more == run;
    } else {
      var n := |more| - 1;
      assert (run + more)[..|run + more| - 1] == run + more[..n];
      var t := After(c, run + more[..n]).value;
      Sticky(c, run, more[..n], s, t);
      StepSettled(c, t, more[n]);
      SettledTransitive(s, t, s');
    }
  }

  // ---------------------------------------------------------------- leadership

  /** At most one live leader; a parked waiter is never forgotten. */
  lemma LeadershipSafety(c: Config, run: seq<Step>, s: State)
    requires Reaches(c, run, s)
    ensures forall j, k | Leads(s.callers, j) && Leads(s.callers, k) :: j == k
    ensures forall k | k in s.callers && s.callers[k] == Parked(false) ::
      (exists j :: Leads(s.callers, j)) || (exists j :: Notifier(s.callers, j))
  {
    RunInv(c, run, s);
  }

  /** A notification that came between registering and parking still wakes the waiter. */
  lemma NotificationKept(c: Config, run: seq<Step>, s: State, k: nat)
    requires Reaches(c, run, s) && k in s.callers && s.callers[k] == Registered(true)
    ensures Enabled(c, s, Shutdown(k, CheckWait))
    ensures var s' := Apply(c, s, Shutdown(k, CheckWait));
      s'.callers[k].Done? || s'.callers[k].Start? || Enabled(c, s', Shutdown(k, Wake))
  {
    ReclaimedHasResult(c, run, s);
    KeptTurn(s, s.callers[k]);
  }

  lemma ReclaimedHasResult(c: Config, run: seq<Step>, s: State)
    requires Reaches(c, run, s)
    ensures s.shutdown.reclaimed ==> s.shutdown.terminal.Some?
  {
    RunInv(c, run, s);
  }

  lemma KeptTurn(s: State, p: Caller)
    requires p == Registered(true) && (s.shutdown.reclaimed ==> s.shutdown.terminal.Some?)
    ensures var p' := NextCaller(s, p, CheckWait); p'.Done? || p'.Start? || p' == Parked(true)
  {
  }

  /** Whoever has registered with the shutdown notifier, parked or not, is woken by a notification. */
  lemma NotificationReaches(c: Config, s: State, j: nat, a: ShutdownStep, k: nat)
    requires ShutdownEnabled(c, s, j, a) && Notifies(a) && k in s.callers && k != j
    ensures k in ApplyShutdown(c, s, j, a).callers
    ensures var p, p' := s.callers[k], ApplyShutdown(c, s, j, a).callers[k];
      (p.Registered? ==> p' == Registered(true)) && (p.Parked? ==> p' == Parked(true))
  {
  }

  /** The armed or parked leader is woken by the last worker's notification. */
  lemma DoneReaches(c: Config, s: State, i: nat, k: nat)
    requires WorkerEnabled(c, s, i, NotifyDone) && k in s.callers
    ensures k in ApplyWorker(c, s, i, NotifyDone).callers
    ensures var p, p' := s.callers[k], ApplyWorker(c, s, i, NotifyDone).callers[k];
      (p.WaitArmed? ==> p' == WaitArmed(p.forced, true)) && (p.WaitParked? ==> p' == WaitParked(p.forced, true))
  {
  }

  predicate Cancellable(p: Caller) { p.WaitParked? || (p.Reaping? && p.held != []) }

  lemma UnwindLeader(c: Config, run: seq<Step>, s: State, k: nat) returns (run': seq<Step>, s': State)
    requires Reaches(c, run, s) && k in s.callers && Cancellable(s.callers[k])
    ensures Reaches(c, run', s') && run <= run'
    ensures s'.shutdown == s.shutdown && s'.callers == s.callers[k := Releasing]
    ensures s'.stored == s.stored + HandlesOf(s.callers[k]) && s'.joined == s.joined
  {
    if s.callers[k].Reaping? {
      run', s' := UnwindReaper(c, run, s, k);
    } else {
      run', s' := Take1(c, run, s, Shutdown(k, Cancel));
    }
  }

  lemma UnwindReaper(c: Config, run: seq<Step>, s: State, k: nat) returns (run': seq<Step>, s': State)
    requires Reaches(c, run, s) && k in s.callers && s.callers[k].Reaping? && s.callers[k].held != []
    ensures Reaches(c, run', s') && run <= run'
    ensures s'.shutdown == s.shutdown && s'.callers == s.callers[k := Releasing]
    ensures s'.stored == s.stored + s.callers[k].held && s'.joined == s.joined
  {
    run', s' := Take1(c, run, s, Shutdown(k, Cancel));
    assert s' == s.(callers := s.callers[k := Unwinding(s.callers[k].held)]);
    run', s' := Take1(c, run', s', Shutdown(k, ReturnHandles));
  }

  /** The leader's unwinding: handles first, then the flag, then the notification. */
  lemma CancelLeader(c: Config, run: seq<Step>, s: State, k: nat) returns (run': seq<Step>, s': State)
    requires Reaches(c, run, s) && k in s.callers && Cancellable(s.callers[k])
    ensures Reaches(c, run', s') && run <= run'
    ensures s'.shutdown == s.shutdown.(leader := false)
    ensures s'.stored == s.stored + HandlesOf(s.callers[k]) && s'.joined == s.joined
    ensures forall j | j in s.callers && j != k :: j in s'.callers && s'.callers[j] == WakeWaiter(s.callers[j])
  {
    run', s' := UnwindLeader(c, run, s, k);
    run', s' := Take1(c, run', s', Shutdown(k, Release));
    run', s' := Take1(c, run', s', Shutdown(k, NotifyReleased));
  }

  /** Cancelling the leader at any await point lets any parked waiter take over. */
  lemma Takeover(c: Config, run: seq<Step>, s: State, k: nat, w: nat) returns (run': seq<Step>, s': State)
    requires Reaches(c, run, s) && k in s.callers && Cancellable(s.callers[k])
    requires w in s.callers && s.callers[w].Parked?
    ensures Reaches(c, run', s') && run <= run'
    ensures Leads(s'.callers, w) && s'.callers[w] == Closing(s.shutdown.terminal)
    ensures s'.stored == s.stored + HandlesOf(s.callers[k])
  {
    RunInv(c, run, s);
    assert Leads(s.callers, k);
    run', s' := CancelLeader(c, run, s, k);
    run', s' := WokenClaims(c, run', s', w);
  }

  lemma WokenClaims(c: Config, run: seq<Step>, s: State, w: nat) returns (run': seq<Step>, s': State)
    requires Reaches(c, run, s) && w in s.callers && s.callers[w] == Parked(true)
    requires !s.shutdown.leader && !s.shutdown.reclaimed
    ensures Reaches(c, run', s') && run <= run'
    ensures Leads(s'.callers, w) && s'.callers[w] == Closing(s.shutdown.terminal) && s'.stored == s.stored
  {
    run', s' := Take1(c, run, s, Shutdown(w, Wake));
    run', s' := Take1(c, run', s', Shutdown(w, Claim));
  }
}
