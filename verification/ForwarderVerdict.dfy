/** Why a shutdown times out: the causes behind the terminal result, kept by every step. */
module ForwarderVerdict {
  import opened Common
  import opened Forwarder
  import opened ForwarderInvariants
  import opened ForwarderSteps
  import opened ForwarderElection

  /** This step is a leader's grace period ending while a worker is still present. */
  predicate RunsOut(s: State, step: Step) {
    step.Shutdown? && step.shutdown.GraceExpire? && s.remaining != 0
  }

  /** Some leader's grace ran out in this run while a worker was still present. */
  predicate GraceRanOut(c: Config, run: seq<Step>) {
    run != [] &&
    (GraceRanOut(c, run[..|run| - 1]) ||
     (After(c, run[..|run| - 1]).Some? && RunsOut(After(c, run[..|run| - 1]).value, run[|run| - 1])))
  }

  /** There is a reason to report a timeout. */
  predicate Excused(s: State, ranOut: bool) { ranOut || s.abnormal || s.ledger.lost != multiset{} }

  predicate SomebodyForces(m: map<nat, Caller>) { exists k | k in m :: m[k].Forcing? }

  predicate OnItsWay(p: Caller) { p.Condemn? || p.Forcing? }

  /** A timeout is persisted or on its way only for a reason, and a grace that ran out is such a reason. */
  predicate VerdictHolds(m: map<nat, Caller>, terminal: Option<ShutdownResult>, excused: bool, ranOut: bool) {
    && (forall k | k in m && OnItsWay(m[k]) :: excused)
    && (terminal == Some(TimedOut) ==> excused)
    && (ranOut ==> terminal == Some(TimedOut) || SomebodyForces(m))
  }

  predicate VerdictOk(s: State, ranOut: bool) {
    VerdictHolds(s.callers, s.shutdown.terminal, Excused(s, ranOut), ranOut)
  }

  // ---------------------------------------------------------------- other steps

  /** A step that leaves the result alone, and of the callers changes only who is woken. */
  lemma VerdictFrame(s: State, s': State, ranOut: bool)
    requires VerdictOk(s, ranOut) && s'.shutdown == s.shutdown
    requires s'.callers.Keys == s.callers.Keys
    requires forall k | k in s.callers ::
      OnItsWay(s'.callers[k]) == OnItsWay(s.callers[k]) && s'.callers[k].Forcing? == s.callers[k].Forcing?
    requires s.abnormal ==> s'.abnormal
    requires s.ledger.lost <= s'.ledger.lost
    ensures VerdictOk(s', ranOut)
  {
    if ranOut && SomebodyForces(s.callers) {
      var k :| k in s.callers && s.callers[k].Forcing?;
      assert s'.callers[k].Forcing?;
    }
  }

  lemma EnqueueKeepsVerdict(c: Config, s: State, a: EnqueueStep, ranOut: bool)
    requires VerdictOk(s, ranOut) && EnqueueEnabled(c, s, a)
    ensures VerdictOk(ApplyEnqueue(c, s, a), ranOut)
  {
    var s' := ApplyEnqueue(c, s, a);
    assert s'.callers == s.callers && s'.shutdown == s.shutdown && s'.abnormal == s.abnormal;
    assert s'.ledger.lost == s.ledger.lost;
  }

  lemma DropKeepsVerdict(c: Config, s: State, ranOut: bool)
    requires VerdictOk(s, ranOut) && Enabled(c, s, DropOwner)
    ensures VerdictOk(Apply(c, s, DropOwner), ranOut)
  {
    var s' := Apply(c, s, DropOwner);
    assert s'.callers == s.callers && s'.shutdown == s.shutdown && s'.abnormal == s.abnormal;
    assert s'.ledger == s.ledger;
  }

  lemma WorkerLosesOnly(c: Config, l: Ledger, adm: Admission, closed: bool, w: Worker, a: WorkerStep)
    requires WorkerReady(closed, w, a)
    ensures l.lost <= NextLedger(c, l, adm, closed, w, a).lost
  {
  }

  lemma WorkerKeepsVerdict(c: Config, s: State, i: nat, a: WorkerStep, ranOut: bool)
    requires VerdictOk(s, ranOut) && WorkerEnabled(c, s, i, a)
    ensures VerdictOk(ApplyWorker(c, s, i, a), ranOut)
  {
    WorkerLosesOnly(c, s.ledger, s.admission, s.closed, s.workers[i], a);
    VerdictFrame(s, ApplyWorker(c, s, i, a), ranOut);
  }

  // ---------------------------------------------------------------- steps of a shutdown call

  /** With nobody left to hold a task, a gap in the books is a lost task. */
  lemma MissingMeansLost(c: Config, s: State)
    requires Inv(c, s) && s.closed && s.remaining == 0 && !s.ledger.reconciled && Missing(s.ledger) != 0
    ensures s.ledger.lost != multiset{}
  {
    NobodyHolds(c, s.closed, s.admission, s.workers);
  }

  /** Where the mover ends up, and whether it has a reason to be there. */
  lemma MoverTurn(s: State, k: nat, p: Caller, a: ShutdownStep, ranOut: bool)
    requires ShutdownReady(s, p, a) && CallerOk(ViewOf(s), p) && TerminalOk(ViewOf(s))
    requires Holds(p) ==> !s.shutdown.reclaimed
    requires a.GraceReconcile? && !s.ledger.reconciled && Missing(s.ledger) != 0 ==> s.ledger.lost != multiset{}
    requires OnItsWay(p) || s.shutdown.terminal == Some(TimedOut) ==> Excused(s, ranOut)
    ensures OnItsWay(NextCaller(s, p, a)) ==> Excused(s, ranOut || RunsOut(s, Shutdown(k, a)))
    ensures RunsOut(s, Shutdown(k, a)) ==> NextCaller(s, p, a).Forcing?
  {
    assert s.shutdown.terminal.Some? ==> s.shutdown.terminal.value.Drained? || s.shutdown.terminal.value.TimedOut?;
  }

  /** What the mover makes of the terminal result. */
  lemma TerminalTurn(s: State, p: Caller, a: ShutdownStep, ranOut: bool)
    requires ShutdownReady(s, p, a) && CallerOk(ViewOf(s), p)
    requires OnItsWay(p) || s.shutdown.terminal == Some(TimedOut) ==> Excused(s, ranOut)
    ensures NextShutdownState(s, p, a).terminal == Some(TimedOut) ==> Excused(s, ranOut)
    ensures s.shutdown.terminal == Some(TimedOut) || p.Forcing? ==>
      NextShutdownState(s, p, a).terminal == Some(TimedOut)
  {
    assert s.shutdown.terminal.Some? ==> s.shutdown.terminal.value.Drained? || s.shutdown.terminal.value.TimedOut?;
  }

  lemma VerdictUpdate(
    m: map<nat, Caller>, k: nat, p: Caller,
    terminal: Option<ShutdownResult>, terminal': Option<ShutdownResult>, excused: bool, ranOut: bool, now: bool)
    requires k in m && VerdictHolds(m, terminal, excused, ranOut)
    requires OnItsWay(p) || terminal' == Some(TimedOut) ==> excused || now
    requires terminal == Some(TimedOut) || m[k].Forcing? ==> terminal' == Some(TimedOut)
    requires now ==> ranOut || p.Forcing?
    ensures VerdictHolds(m[k := p], terminal', excused || now, ranOut || now)
  {
    var m' := m[k := p];
    if (ranOut || now) && terminal' != Some(TimedOut) {
      if p.Forcing? {
        assert m'[k].Forcing?;
      } else {
        var j :| j in m && m[j].Forcing?;
        assert m'[j].Forcing?;
      }
    }
  }

  lemma OthersVerdict(s: State, a: ShutdownStep, terminal: Option<ShutdownResult>, excused: bool, ranOut: bool)
    requires VerdictHolds(s.callers, terminal, excused, ranOut)
    ensures VerdictHolds(Others(s, a), terminal, excused, ranOut)
  {
    var m := Others(s, a);
    assert forall j | j in m :: j in s.callers && OnItsWay(m[j]) == OnItsWay(s.callers[j]);
    if SomebodyForces(s.callers) {
      var j :| j in s.callers && s.callers[j].Forcing?;
      assert m[j].Forcing?;
    }
  }

  /** What the mover's own step says about its next place `p'` and the next terminal result. */
  predicate MoverOkay(
    p: Caller, p': Caller, terminal: Option<ShutdownResult>, terminal': Option<ShutdownResult>,
    excused: bool, now: bool)
  {
    && (OnItsWay(p') || terminal' == Some(TimedOut) ==> excused || now)
    && (now ==> p'.Forcing?)
    && (terminal == Some(TimedOut) || p.Forcing? ==> terminal' == Some(TimedOut))
  }

  lemma MoverExcused(c: Config, s: State, k: nat, a: ShutdownStep, ranOut: bool)
    requires Inv(c, s) && VerdictOk(s, ranOut) && k in s.callers && ShutdownReady(s, s.callers[k], a)
    ensures MoverOkay(s.callers[k], NextCaller(s, s.callers[k], a), s.shutdown.terminal,
                      NextShutdownState(s, s.callers[k], a).terminal,
                      Excused(s, ranOut), RunsOut(s, Shutdown(k, a)))
  {
    assert CallerOk(ViewOf(s), s.callers[k]);
    if Holds(s.callers[k]) { assert Leads(s.callers, k); }
    if a.GraceReconcile? && !s.ledger.reconciled && Missing(s.ledger) != 0 { MissingMeansLost(c, s); }
    MoverTurn(s, k, s.callers[k], a, ranOut);
    TerminalTurn(s, s.callers[k], a, ranOut);
  }

  lemma ShutdownExcuse(c: Config, s: State, k: nat, a: ShutdownStep)
    requires ShutdownEnabled(c, s, k, a)
    ensures var s' := ApplyShutdown(c, s, k, a); s'.abnormal == s.abnormal && s'.ledger.lost == s.ledger.lost
  {
  }

  lemma MoveKeepsVerdict(c: Config, s: State, k: nat, a: ShutdownStep, ranOut: bool)
    requires VerdictOk(s, ranOut) && ShutdownEnabled(c, s, k, a) && !a.Call?
    requires MoverOkay(s.callers[k], NextCaller(s, s.callers[k], a), s.shutdown.terminal,
                       NextShutdownState(s, s.callers[k], a).terminal,
                       Excused(s, ranOut), RunsOut(s, Shutdown(k, a)))
    ensures VerdictOk(ApplyShutdown(c, s, k, a), ranOut || RunsOut(s, Shutdown(k, a)))
  {
    var p := s.callers[k];
    ShutdownExcuse(c, s, k, a);
    CallersAfter(c, s, k, a);
    OthersVerdict(s, a, s.shutdown.terminal, Excused(s, ranOut), ranOut);
    VerdictUpdate(Others(s, a), k, NextCaller(s, p, a), s.shutdown.terminal,
                  NextShutdownState(s, p, a).terminal, Excused(s, ranOut), ranOut, RunsOut(s, Shutdown(k, a)));
  }

  lemma ShutdownKeepsVerdict(c: Config, s: State, k: nat, a: ShutdownStep, ranOut: bool)
    requires Inv(c, s) && VerdictOk(s, ranOut) && ShutdownEnabled(c, s, k, a)
    ensures VerdictOk(ApplyShutdown(c, s, k, a), ranOut || RunsOut(s, Shutdown(k, a)))
  {
    if a.Call? {
      CallKeepsVerdict(s.callers, k, s.shutdown.terminal, Excused(s, ranOut), ranOut);
    } else {
      MoverExcused(c, s, k, a, ranOut);
      MoveKeepsVerdict(c, s, k, a, ranOut);
    }
  }

  lemma CallKeepsVerdict(
    m: map<nat, Caller>, k: nat, terminal: Option<ShutdownResult>, excused: bool, ranOut: bool)
    requires k !in m && VerdictHolds(m, terminal, excused, ranOut)
    ensures VerdictHolds(m[k := Start], terminal, excused, ranOut)
  {
    var m' := m[k := Start];
    assert forall j | j in m :: m'[j] == m[j];
    if SomebodyForces(m) {
      var j :| j in m && m[j].Forcing?;
      assert m'[j].Forcing?;
    }
  }

  lemma StepKeepsVerdict(c: Config, s: State, step: Step, ranOut: bool)
    requires Inv(c, s) && VerdictOk(s, ranOut) && Enabled(c, s, step)
    ensures VerdictOk(Apply(c, s, step), ranOut || RunsOut(s, step))
  {
    match step
    case Enqueue(a) => EnqueueKeepsVerdict(c, s, a, ranOut);
    case Work(i, a) => WorkerKeepsVerdict(c, s, i, a, ranOut);
    case Shutdown(k, a) => ShutdownKeepsVerdict(c, s, k, a, ranOut);
    case DropOwner => DropKeepsVerdict(c, s, ranOut);
  }

  /** Once the result is published, it is a timeout exactly when there is a reason. */
  lemma PublishedForCause(v: View, m: map<nat, Caller>, excused: bool, ranOut: bool)
    requires TerminalOk(v) && CallersOk(v, m) && v.terminal.Some?
    requires VerdictHolds(m, v.terminal, excused, ranOut)
    requires excused <==> ranOut || v.abnormal || !v.nothingLost
    ensures v.terminal == Some(Drained) <==> !excused
  {
    assert v.terminal.value.Drained? || v.terminal.value.TimedOut?;
    forall j | j in m && m[j].Forcing? ensures v.terminal == Some(TimedOut) {
      assert CallerOk(v, m[j]);
    }
  }
}
