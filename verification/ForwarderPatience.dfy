/**
 A shutdown that nobody hurries: while no worker panics or is aborted and no grace runs
 out, the workers drain what was accepted and every call returns Ok.
 */
module ForwarderPatience {
  import opened Common
  import opened Forwarder
  import opened ForwarderInvariants
  import opened ForwarderSteps
  import opened ForwarderVerdict
  import opened ForwarderRuns
  import opened ForwarderProgress

  /** Internal steps, with the network answering, but without panics, aborts or the end of a grace period. */
  predicate Patient(step: Step) {
    && Internal(step)
    && (step.Work? ==> !step.work.Panic? && !step.work.AbortHit?)
    && (step.Shutdown? ==> !step.shutdown.GraceExpire?)
  }

  // ---------------------------------------------------------------- never stuck

  /** A worker of a closed forwarder works its way out. */
  lemma WorkerDrains(c: Config, s: State, i: nat) returns (step: Step)
    requires i < |s.workers| && s.workers[i].phase.Running? && s.closed && WorkerOk(c, s.closed, s.workers[i])
    ensures Patient(step) && Enabled(c, s, step)
  {
    var w := s.workers[i];
    if w.channel != [] {
      step := Work(i, Recv);
    } else if !w.sweptEmpty {
      step := Work(i, SweepEmpty);
    } else if !w.rxClosed {
      step := Work(i, CloseRx);
    } else if w.inflight != [] {
      step := Work(i, Resolve(0, true));
    } else if w.waiting != [] {
      step := Work(i, Dispatch);
    } else {
      step := Work(i, Exit);
    }
  }

  lemma WorkerMoves(c: Config, s: State, i: nat) returns (step: Step)
    requires Inv(c, s) && s.closed && i < |s.workers| && !s.workers[i].phase.Gone?
    ensures Patient(step) && Enabled(c, s, step)
  {
    if s.workers[i].phase.Running? {
      assert WorkerOk(c, s.closed, s.workers[i]);
      step := WorkerDrains(c, s, i);
    } else {
      step := WorkerLeaves(c, s, i);
    }
  }

  lemma AbortMeansClosed(s: State, i: nat)
    requires LossOk(s) && TerminalOk(ViewOf(s)) && DropOk(s) && i < |s.workers| && s.workers[i].abortRequested
    ensures s.closed
  {
  }

  /** The worker a patient leader waits for. */
  lemma AwaitedWorker(c: Config, s: State, k: nat) returns (i: nat)
    requires Inv(c, s) && k in s.callers && s.callers[k].WaitParked? && !s.callers[k].woken
    ensures s.closed && i < |s.workers| && !s.workers[i].phase.Gone?
  {
    assert CallerOk(ViewOf(s), s.callers[k]);
    if 0 < s.remaining {
      i := SomebodyPresent(s.workers);
    } else {
      i :| i < |s.workers| && s.workers[i].phase.LastOut?;
    }
  }

  lemma InsteadOfAbort(c: Config, s: State, i: nat) returns (step: Step)
    requires Inv(c, s) && WorkerEnabled(c, s, i, AbortHit)
    ensures Patient(step) && Enabled(c, s, step)
  {
    AbortMeansClosed(s, i);
    step := WorkerMoves(c, s, i);
  }

  lemma InsteadOfForcing(c: Config, s: State, k: nat) returns (step: Step)
    requires Inv(c, s) && k in s.callers && s.callers[k].WaitParked? && !s.callers[k].woken
    ensures Patient(step) && Enabled(c, s, step)
  {
    var i := AwaitedWorker(c, s, k);
    step := WorkerMoves(c, s, i);
  }

  lemma WokenLeaderMoves(c: Config, s: State, k: nat) returns (step: Step)
    requires k in s.callers && s.callers[k].WaitParked? && s.callers[k].woken
    ensures Patient(step) && Enabled(c, s, step)
  {
    step := Shutdown(k, WaitWake);
  }

  lemma DrivenIsPatient(step: Step)
    requires Driven(step) && !(step.Work? && step.work.AbortHit?) && !(step.Shutdown? && step.shutdown.GraceExpire?)
    ensures Patient(step)
  {
  }

  lemma WithoutForcing(c: Config, s: State, k: nat) returns (step: Step)
    requires Inv(c, s) && k in s.callers && s.callers[k].WaitParked?
    ensures Patient(step) && Enabled(c, s, step)
  {
    if s.callers[k].woken {
      step := WokenLeaderMoves(c, s, k);
    } else {
      step := InsteadOfForcing(c, s, k);
    }
  }

  /** Whatever the forwarder would do on its own, it can do without hurrying anybody. */
  lemma WithPatience(c: Config, s: State, driven: Step) returns (step: Step)
    requires Inv(c, s) && Driven(driven) && Enabled(c, s, driven)
    ensures Patient(step) && Enabled(c, s, step)
  {
    match driven
    case Work(i, AbortHit) => step := InsteadOfAbort(c, s, i);
    case Shutdown(k, GraceExpire) => step := WithoutForcing(c, s, k);
    case _ =>
      DrivenIsPatient(driven);
      step := driven;
  }

  /** While some shutdown call has not returned, a patient step can be taken. */
  lemma PatienceMoves(c: Config, s: State, k: nat) returns (step: Step)
    requires Inv(c, s) && k in s.callers && !Over(s.callers[k])
    ensures Patient(step) && Enabled(c, s, step)
  {
    var driven := NeverStuck(c, s, k);
    step := WithPatience(c, s, driven);
  }

  // ---------------------------------------------------------------- nothing goes wrong

  predicate Calm(s: State) { !s.abnormal && !SomePanicked(s.workers) && s.ledger.lost == multiset{} }

  lemma CalmTurn(c: Config, l: Ledger, adm: Admission, closed: bool, last: bool, w: Worker, a: WorkerStep)
    requires WorkerReady(closed, w, a) && WorkerOk(c, closed, w) && !a.Panic? && !a.AbortHit?
    ensures !w.phase.Panicked? ==> !NextWorker(closed, last, w, a).phase.Panicked?
    ensures NextLedger(c, l, adm, closed, w, a).lost == l.lost
  {
  }

  lemma WorkKeepsCalm(c: Config, s: State, i: nat, a: WorkerStep)
    requires WorkersOk(c, s.closed, s.admission, s.workers) && Calm(s)
    requires WorkerEnabled(c, s, i, a) && !a.Panic? && !a.AbortHit?
    ensures Calm(ApplyWorker(c, s, i, a))
  {
    assert WorkerOk(c, s.closed, s.workers[i]);
    CalmTurn(c, s.ledger, s.admission, s.closed, s.remaining == 1, s.workers[i], a);
  }

  lemma EnqueueKeepsCalm(c: Config, s: State, a: EnqueueStep)
    requires Calm(s) && EnqueueEnabled(c, s, a)
    ensures Calm(ApplyEnqueue(c, s, a))
  {
  }

  lemma ShutdownKeepsCalm(c: Config, s: State, k: nat, a: ShutdownStep)
    requires Calm(s) && ShutdownEnabled(c, s, k, a)
    ensures Calm(ApplyShutdown(c, s, k, a))
  {
  }

  lemma PatienceKeepsCalm(c: Config, s: State, step: Step)
    requires WorkersOk(c, s.closed, s.admission, s.workers) && Calm(s) && Patient(step) && Enabled(c, s, step)
    ensures Calm(Apply(c, s, step))
  {
    match step
    case Enqueue(a) => EnqueueKeepsCalm(c, s, a);
    case Work(i, a) => WorkKeepsCalm(c, s, i, a);
    case Shutdown(k, a) => ShutdownKeepsCalm(c, s, k, a);
  }

  /** Cancelled, whether or not the unwinding is over. */
  predicate Quit(p: Caller) { p.Unwinding? || p.Releasing? || p.ReleaseNotify? || p.Abandoned? }

  lemma StaysTurn(s: State, p: Caller, a: ShutdownStep)
    requires ShutdownReady(s, p, a) && !a.Cancel? && !Quit(p)
    requires s.shutdown.reclaimed ==> s.shutdown.terminal.Some?
    ensures !Quit(NextCaller(s, p, a))
  {
  }

  lemma ShutdownStays(c: Config, s: State, k: nat, a: ShutdownStep, j: nat)
    requires LeadershipOk(s.callers, s.shutdown) && ShutdownEnabled(c, s, k, a) && !a.Cancel? && !a.Call?
    requires j in s.callers && !Quit(s.callers[j])
    ensures var s' := ApplyShutdown(c, s, k, a); j in s'.callers && !Quit(s'.callers[j])
  {
    if j == k { StaysTurn(s, s.callers[k], a); }
  }

  lemma PatienceStays(c: Config, s: State, step: Step, j: nat)
    requires LeadershipOk(s.callers, s.shutdown) && Patient(step) && Enabled(c, s, step)
    requires j in s.callers && !Quit(s.callers[j])
    ensures j in Apply(c, s, step).callers && !Quit(Apply(c, s, step).callers[j])
  {
    match step
    case Enqueue(a) =>
    case Work(i, a) =>
    case Shutdown(k, a) => ShutdownStays(c, s, k, a, j);
  }

  predicate AllPatient(more: seq<Step>) { forall step | step in more :: Patient(step) }

  /** `t` continues `s` calmly: nothing went wrong and nobody gave up. */
  predicate Calmly(s: State, t: State) {
    Calm(t) && forall j | j in s.callers && !Quit(s.callers[j]) :: j in t.callers && !Quit(t.callers[j])
  }

  lemma CalmlyOn(c: Config, s: State, t: State, step: Step)
    requires WorkersOk(c, t.closed, t.admission, t.workers) && LeadershipOk(t.callers, t.shutdown)
    requires Calmly(s, t) && Patient(step) && Enabled(c, t, step)
    ensures Calmly(s, Apply(c, t, step))
  {
    PatienceKeepsCalm(c, t, step);
    var t' := Apply(c, t, step);
    forall j | j in s.callers && !Quit(s.callers[j]) ensures j in t'.callers && !Quit(t'.callers[j]) {
      PatienceStays(c, t, step, j);
    }
  }

  lemma {:induction false} PatientRun(c: Config, run: seq<Step>, more: seq<Step>, s: State, s': State)
    requires Reaches(c, run, s) && Reaches(c, run + more, s') && Calm(s) && AllPatient(more)
    ensures Calmly(s, s')
  {
    if more == [] {
      assert run + more == run;
    } else {
      var n := |more| - 1;
      assert (run + more)[..|run + more| - 1] == run + more[..n];
      var t := After(c, run + more[..n]).value;
      assert more[n] in more && forall step | step in more[..n] :: step in more;
      PatientRun(c, run, more[..n], s, t);
      RunInv(c, run + more[..n], t);
      CalmlyOn(c, s, t, more[n]);
    }
  }

  lemma {:induction false} GraceKept(c: Config, run: seq<Step>, more: seq<Step>)
    requires AllPatient(more) && !GraceRanOut(c, run)
    ensures !GraceRanOut(c, run + more)
  {
    if more == [] {
      assert run + more == run;
    } else {
      var n := |more| - 1;
      assert (run + more)[..|run + more| - 1] == run + more[..n];
      assert more[n] in more && forall step | step in more[..n] :: step in more;
      GraceKept(c, run, more[..n]);
    }
  }

  /**
   From any state in which nothing has gone wrong, patient steps return only Ok, and
   where no patient step is left every call that was not cancelled has returned Ok.
   That such steps come to an end is `ForwarderProgress.ReachableSettles`.
   */
  lemma GracefulShutdown(c: Config, run: seq<Step>, more: seq<Step>, s: State, s': State)
    requires Reaches(c, run, s) && Calm(s) && !GraceRanOut(c, run)
    requires Reaches(c, run + more, s') && AllPatient(more)
    ensures forall k | k in s'.callers && s'.callers[k].Done? :: s'.callers[k] == Done(Drained)
    ensures (forall step | Patient(step) :: !Enabled(c, s', step)) ==>
      forall k | k in s.callers && !Quit(s.callers[k]) :: k in s'.callers && s'.callers[k] == Done(Drained)
  {
    PatientRun(c, run, more, s, s');
    GraceKept(c, run, more);
    RunInv(c, run + more, s');
    forall k | k in s'.callers && s'.callers[k].Done? ensures s'.callers[k] == Done(Drained) {
      ReturnedForCause(c, run + more, s', k);
    }
    if forall step | Patient(step) :: !Enabled(c, s', step) {
      forall k | k in s.callers && !Quit(s.callers[k]) ensures k in s'.callers && s'.callers[k] == Done(Drained) {
        if !Over(s'.callers[k]) {
          var step := PatienceMoves(c, s', k);
        }
      }
    }
  }
}
