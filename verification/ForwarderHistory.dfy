/** What a run of the forwarder did, read off its steps: who got which task, in which order, and how it ended. */
module ForwarderHistory {
  import opened Common
  import opened Forwarder
  import opened ForwarderInvariants
  import opened ForwarderRuns

  // ---------------------------------------------------------------- the observer

  predicate Records(step: Step) { step.Work? && (step.work.Resolve? || step.work.Expire?) }

  /** Outcomes that workers recorded in this run. */
  function Recorded(run: seq<Step>): nat {
    if run == [] then 0
    else Recorded(run[..|run| - 1]) + (if Records(run[|run| - 1]) then 1 else 0)
  }

  predicate Succeeds(step: Step) { step.Work? && step.work.Resolve? && step.work.success }

  /** How many of them were successes. */
  function Succeeded(run: seq<Step>): (n: nat)
    ensures n <= Recorded(run)
  {
    if run == [] then 0
    else Succeeded(run[..|run| - 1]) + (if Succeeds(run[|run| - 1]) then 1 else 0)
  }

  lemma StepObserves(c: Config, s: State, step: Step)
    requires Enabled(c, s, step)
    ensures var l, l' := s.ledger, Apply(c, s, step).ledger;
      && |l'.observed| == |l.observed| + (if Records(step) then 1 else 0)
      && l'.successes == l.successes + (if c.hasObserver && Succeeds(step) then 1 else 0)
  {
    match step
    case Enqueue(a) =>
    case Work(i, a) => WorkObserves(c, s.ledger, s.admission, s.closed, s.workers[i], a);
    case Shutdown(k, a) => ShutdownObserves(c, s, k, a);
    case DropOwner =>
  }

  lemma WorkObserves(c: Config, l: Ledger, adm: Admission, closed: bool, w: Worker, a: WorkerStep)
    requires WorkerReady(closed, w, a)
    ensures var l' := NextLedger(c, l, adm, closed, w, a);
      && |l'.observed| == |l.observed| + (if a.Resolve? || a.Expire? then 1 else 0)
      && l'.successes == l.successes + (if c.hasObserver && a.Resolve? && a.success then 1 else 0)
  {
  }

  lemma ShutdownObserves(c: Config, s: State, k: nat, a: ShutdownStep)
    requires ShutdownEnabled(c, s, k, a)
    ensures var l' := ApplyShutdown(c, s, k, a).ledger;
      l'.observed == s.ledger.observed && l'.successes == s.ledger.successes
  {
  }

  lemma {:induction false} ObserverHeard(c: Config, run: seq<Step>, s: State)
    requires Reaches(c, run, s)
    ensures |s.ledger.observed| == Recorded(run)
    ensures s.ledger.successes == if c.hasObserver then Succeeded(run) else 0
  {
    if run != [] {
      var before := After(c, run[..|run| - 1]).value;
      ObserverHeard(c, run[..|run| - 1], before);
      StepObserves(c, before, run[|run| - 1]);
    }
  }

  /**
   The observer hears one success per forward that succeeded, and one error for every
   other recorded outcome and, after reconciliation, for every task that was lost; the
   one error too many is the overcount of `ForwarderRuns.Conservation`.
   */
  lemma ObserverTold(c: Config, run: seq<Step>, s: State)
    requires Reaches(c, run, s)
    ensures |s.ledger.observed| == Recorded(run)
    ensures s.ledger.successes == if c.hasObserver then Succeeded(run) else 0
    ensures s.ledger.errors ==
      if !c.hasObserver then 0
      else Recorded(run) - Succeeded(run) + (if s.ledger.reconciled then |s.ledger.lost| else 0) +
           (if s.ledger.snapshotMidEnqueue then 1 else 0)
  {
    ObserverHeard(c, run, s);
    RunInv(c, run, s);
  }

  // ---------------------------------------------------------------- round robin

  predicate Attempts(step: Step) { step == Enqueue(Send) || step == Enqueue(RollBack) }

  /** Enqueues that got as far as a worker's channel, full or not. */
  function Tried(run: seq<Step>): nat {
    if run == [] then 0
    else Tried(run[..|run| - 1]) + (if Attempts(run[|run| - 1]) then 1 else 0)
  }

  function Bump(n: U64): U64 { if n + 1 == U64_LIMIT then 0 else n + 1 }

  /** The same count as the source keeps it, in a 64-bit word. */
  function Counter(run: seq<Step>): (n: U64)
    ensures Tried(run) < U64_LIMIT ==> n == Tried(run)
  {
    if run == [] then 0
    else
      var n := Counter(run[..|run| - 1]);
      if Attempts(run[|run| - 1]) then Bump(n) else n
  }

  lemma StepCounts(c: Config, s: State, step: Step)
    requires Enabled(c, s, step)
    ensures Apply(c, s, step).nextWorker ==
      if Attempts(step) then Bump(s.nextWorker) else s.nextWorker
  {
    match step
    case Enqueue(a) =>
    case Work(i, a) =>
    case Shutdown(k, a) =>
    case DropOwner =>
  }

  lemma {:induction false} CounterIs(c: Config, run: seq<Step>, s: State)
    requires Reaches(c, run, s)
    ensures s.nextWorker == Counter(run)
  {
    if run != [] {
      var before := After(c, run[..|run| - 1]).value;
      CounterIs(c, run[..|run| - 1], before);
      StepCounts(c, before, run[|run| - 1]);
    }
  }

  /** The worker whose turn it is after this run. */
  function Turn(c: Config, run: seq<Step>): nat { Counter(run) % c.workers }

  lemma NextResidue(n: nat, w: nat)
    requires 0 < w
    ensures n % w < w
    ensures (n + 1) % w == if n % w + 1 == w then 0 else n % w + 1
  {
    var q, r := n / w, n % w;
    if r + 1 == w {
      assert n + 1 == w * (q + 1) + 0;
      Residue(q + 1, 0, w);
    } else {
      assert n + 1 == w * q + (r + 1);
      Residue(q, r + 1, w);
    }
  }

  /** One attempt further, by the counter's own wrap and the number of workers. */
  lemma NextTurn(n: U64, next: U64, w: nat)
    requires 0 < w && next == Bump(n)
    ensures n % w < w
    ensures next % w == if n + 1 == U64_LIMIT || n % w + 1 == w then 0 else n % w + 1
  {
    if next == 0 {
      Residue(0, 0, w);
    } else {
      NextResidue(n, w);
    }
  }

  lemma CounterStep(run: seq<Step>, step: Step)
    ensures Counter(run + [step]) == if Attempts(step) then Bump(Counter(run)) else Counter(run)
  {
    assert (run + [step])[..|run|] == run;
  }

  lemma TurnIs(c: Config, run: seq<Step>, s: State)
    requires Reaches(c, run, s)
    ensures Target(c, s) == Turn(c, run)
    ensures Tried(run) < U64_LIMIT ==> Turn(c, run) == Tried(run) % c.workers
  {
    CounterIs(c, run, s);
  }

  lemma TurnMoves(c: Config, n: U64)
    ensures n % c.workers < c.workers
    ensures Bump(n) % c.workers ==
      if n + 1 == U64_LIMIT || n % c.workers + 1 == c.workers then 0 else n % c.workers + 1
  {
    NextTurn(n, Bump(n), c.workers);
  }

  /**
   Enqueues take the workers in turn: after the attempt at one worker it is the turn of
   the next, and after the last of the first; only the wrap of the counter itself
   starts again at worker zero.
   */
  lemma RoundRobin(c: Config, run: seq<Step>, s: State, step: Step)
    requires Reaches(c, run, s)
    ensures Target(c, s) == Turn(c, run)
    ensures Tried(run) < U64_LIMIT ==> Turn(c, run) == Tried(run) % c.workers
    ensures !Attempts(step) ==> Turn(c, run + [step]) == Turn(c, run)
    ensures Attempts(step) ==>
      Turn(c, run + [step]) ==
        if Counter(run) + 1 == U64_LIMIT || Turn(c, run) + 1 == c.workers then 0 else Turn(c, run) + 1
  {
    TurnIs(c, run, s);
    CounterStep(run, step);
    TurnMoves(c, Counter(run));
  }

  // ---------------------------------------------------------------- one enqueue

  /** An enqueue that got its permit, up to the send. */
  lemma Admitted(c: Config, run: seq<Step>, s: State, t: TaskId) returns (run': seq<Step>, s': State)
    requires Reaches(c, run, s) && Enabled(c, s, Enqueue(Acquire(t)))
    ensures Reaches(c, run', s') && run' == run + [Enqueue(Acquire(t)), Enqueue(Count)]
    ensures s' == s.(admission := Counted(t),
                     ledger := s.ledger.(available := s.ledger.available - 1, admitted := s.ledger.admitted + 1))
    ensures OkEnqueues(run') == OkEnqueues(run)
  {
    run', s' := Take1(c, run, s, Enqueue(Acquire(t)));
    run', s' := Take1(c, run', s', Enqueue(Count));
  }

  /**
   An enqueue that nobody interrupts, once it has its permit: it returns Ok and its task is
   the last in the channel of the worker whose turn it is exactly when that worker still
   receives and its channel has room; refused, it leaves no trace but the turn it used up.
   */
  lemma EnqueueIff(c: Config, run: seq<Step>, s: State, t: TaskId) returns (run': seq<Step>, s': State)
    requires Reaches(c, run, s) && Enabled(c, s, Enqueue(Acquire(t)))
    ensures Reaches(c, run', s') && run <= run' && Turn(c, run) < |s.workers|
    ensures var i := Turn(c, run);
      var w := s.workers[i];
      if w.phase.Running? && !w.rxClosed && |w.channel| < c.capacity
      then OkEnqueues(run') == OkEnqueues(run) + 1 && s'.admission.Free? &&
           s'.workers == s.workers[i := w.(channel := w.channel + [t])] &&
           s'.ledger.accepted == s.ledger.accepted + multiset{t} &&
           s'.ledger.available == s.ledger.available - 1 && s'.ledger.admitted == s.ledger.admitted + 1
      else OkEnqueues(run') == OkEnqueues(run) && s' == s.(nextWorker := Bump(s.nextWorker))
  {
    RunInv(c, run, s);
    TurnIs(c, run, s);
    TurnMoves(c, s.nextWorker);
    run', s' := Admitted(c, run, s, t);
    if Accepts(c, s.workers[Target(c, s)]) {
      run', s' := Take1(c, run', s', Enqueue(Send));
    } else {
      run', s' := RolledBackWhole(c, run', s');
    }
  }

  lemma RolledBackWhole(c: Config, run: seq<Step>, s: State) returns (run': seq<Step>, s': State)
    requires Reaches(c, run, s) && Enabled(c, s, Enqueue(RollBack))
    ensures Reaches(c, run', s') && run <= run' && OkEnqueues(run') == OkEnqueues(run)
    ensures s' == s.(admission := Free, nextWorker := Bump(s.nextWorker),
                     ledger := s.ledger.(available := s.ledger.available + 1, admitted := s.ledger.admitted - 1))
  {
    run', s' := Take1(c, run, s, Enqueue(RollBack));
    run', s' := Take1(c, run', s', Enqueue(DropPermit));
  }

  /**
   No bookkeeping holds a running worker up: it can start its next task exactly while it has
   not sixteen in flight, any waiting task can expire and any forward in flight can end, either
   way; and a worker on its way out can always go on.
   */
  lemma WorkerNeverBlocked(c: Config, run: seq<Step>, s: State, i: nat, k: nat, success: bool)
    requires Reaches(c, run, s) && i < |s.workers|
    ensures var w := s.workers[i];
      && (Enabled(c, s, Work(i, Dispatch)) <==> w.phase.Running? && w.waiting != [] && |w.inflight| != 16)
      && (Enabled(c, s, Work(i, Expire(k))) <==> w.phase.Running? && k < |w.waiting|)
      && (Enabled(c, s, Work(i, Resolve(k, success))) <==> w.phase.Running? && k < |w.inflight|)
      && (Enabled(c, s, Work(i, Recv)) <==> w.phase.Running? && w.channel != [])
      && (Enabled(c, s, Work(i, Leave)) <==> w.phase.Leaving?)
  {
    WorkerFacts(c, run, s, i);
    ReadyIff(c, s.closed, s.workers[i], k, success);
  }

  lemma ReadyIff(c: Config, closed: bool, w: Worker, k: nat, success: bool)
    requires WorkerOk(c, closed, w)
    ensures WorkerReady(closed, w, Dispatch) <==> w.phase.Running? && w.waiting != [] && |w.inflight| != 16
    ensures WorkerReady(closed, w, Expire(k)) <==> w.phase.Running? && k < |w.waiting|
    ensures WorkerReady(closed, w, Resolve(k, success)) <==> w.phase.Running? && k < |w.inflight|
    ensures WorkerReady(closed, w, Recv) <==> w.phase.Running? && w.channel != []
    ensures WorkerReady(closed, w, Leave) <==> w.phase.Leaving?
  {
  }

  lemma WorkerFacts(c: Config, run: seq<Step>, s: State, i: nat)
    requires Reaches(c, run, s) && i < |s.workers|
    ensures WorkerOk(c, s.closed, s.workers[i]) && (s.workers[i].phase.Leaving? ==> 0 < s.remaining)
  {
    RunInv(c, run, s);
    if s.workers[i].phase.Leaving? { LeaverCounted(c, s, i); }
  }

  lemma LeaverCounted(c: Config, s: State, i: nat)
    requires RemainingOk(c, s) && i < |s.workers| && s.workers[i].phase.Leaving?
    ensures 0 < s.remaining
  {
    CensusZero(s.workers);
    assert Present(s.workers[i]);
  }

  // ---------------------------------------------------------------- order of work

  /** What the latest enqueue that got a permit was given to forward. */
  function Asked(run: seq<Step>): TaskId {
    if run == [] then 0
    else
      match run[|run| - 1]
      case Enqueue(Acquire(t)) => t
      case _ => Asked(run[..|run| - 1])
  }

  /** The tasks sent to worker `i`, in the order of their enqueues. */
  function SentTo(c: Config, run: seq<Step>, i: nat): seq<TaskId> {
    if run == [] then []
    else
      var before := run[..|run| - 1];
      if run[|run| - 1] == Enqueue(Send) && Turn(c, before) == i then SentTo(c, before, i) + [Asked(before)]
      else SentTo(c, before, i)
  }

  /** A dispatch starts the forward that then is the last in flight. */
  function StartedNow(started: seq<TaskId>, w: Worker, a: WorkerStep): seq<TaskId> {
    if a.Dispatch? && w.inflight != [] then started + [w.inflight[|w.inflight| - 1]] else started
  }

  /** The forwards worker `i` started, in order. */
  function Started(c: Config, run: seq<Step>, i: nat): seq<TaskId> {
    if run == [] then []
    else
      var started, step, now := Started(c, run[..|run| - 1], i), run[|run| - 1], After(c, run);
      if step.Work? && step.worker == i && now.Some? && i < |now.value.workers| then
        StartedNow(started, now.value.workers[i], step.work)
      else started
  }

  /** `a` is what is left of `b` after dropping some elements. */
  predicate Within(a: seq<TaskId>, b: seq<TaskId>)
    decreases |b|
  {
    if a == [] then true
    else if b == [] then false
    else if a[|a| - 1] == b[|b| - 1] then Within(a[..|a| - 1], b[..|b| - 1])
    else Within(a, b[..|b| - 1])
  }

  lemma {:induction false} WithinDropLast(a: seq<TaskId>, b: seq<TaskId>)
    requires a != [] && Within(a, b)
    ensures Within(a[..|a| - 1], b)
    decreases |b|
  {
    var a', b' := a[..|a| - 1], b[..|b| - 1];
    if a[|a| - 1] == b[|b| - 1] {
      if a' != [] {
        WithinDropLast(a', b');
      }
    } else {
      WithinDropLast(a, b');
      if a' != [] && a'[|a'| - 1] == b[|b| - 1] { WithinDropLast(a', b'); }
    }
  }

  lemma {:induction false} WithinPrefix(a: seq<TaskId>, n: nat, b: seq<TaskId>)
    requires n <= |a| && Within(a, b)
    ensures Within(a[..n], b)
    decreases |a|
  {
    if n == |a| {
      assert a[..n] == a;
    } else {
      WithinDropLast(a, b);
      WithinPrefix(a[..|a| - 1], n, b);
      assert a[..|a| - 1][..n] == a[..n];
    }
  }

  lemma {:induction false} WithinRemove(a: seq<TaskId>, k: nat, b: seq<TaskId>)
    requires k < |a| && Within(a, b)
    ensures Within(RemoveAt(a, k), b)
    decreases |b|
  {
    var n := |a| - 1;
    var r := RemoveAt(a, k);
    if k == n {
      assert r == a[..n];
      WithinDropLast(a, b);
    } else if a[n] == b[|b| - 1] {
      WithinRemove(a[..n], k, b[..|b| - 1]);
      assert r[..|r| - 1] == RemoveAt(a[..n], k);
    } else {
      WithinRemove(a, k, b[..|b| - 1]);
      assert r[|r| - 1] == a[n];
    }
  }

  lemma WithinBoth(a: seq<TaskId>, b: seq<TaskId>, t: TaskId)
    requires Within(a, b)
    ensures Within(a + [t], b + [t])
  {
    assert (a + [t])[..|a|] == a && (b + [t])[..|b|] == b;
  }

  /** Everything worker `w` started, then what it will start, in order. */
  function Queue(started: seq<TaskId>, w: Worker): seq<TaskId> { started + w.waiting + w.channel }

  lemma RecvQueue(w: Worker, started: seq<TaskId>)
    requires w.channel != []
    ensures Queue(started, w.(channel := w.channel[1..], waiting := w.waiting + [w.channel[0]])) == Queue(started, w)
  {
    assert w.waiting + [w.channel[0]] + w.channel[1..] == w.waiting + w.channel;
  }

  lemma ExpireQueue(w: Worker, k: nat, started: seq<TaskId>)
    requires k < |w.waiting|
    ensures Queue(started, w.(waiting := RemoveAt(w.waiting, k))) == RemoveAt(Queue(started, w), |started| + k)
  {
  }

  lemma DispatchQueue(w: Worker, started: seq<TaskId>)
    requires w.waiting != []
    ensures Queue(started + [w.waiting[0]], w.(waiting := w.waiting[1..])) == Queue(started, w)
  {
  }

  lemma DroppedQueue(w: Worker, phase: WorkerPhase, started: seq<TaskId>)
    ensures Queue(started, Dropped(w, phase)) == Queue(started, w)[..|started|]
  {
  }

  /** One step of the worker itself: its queue loses at most expired or dropped tasks. */
  lemma QueueTurn(closed: bool, last: bool, w: Worker, a: WorkerStep, started: seq<TaskId>)
    requires WorkerReady(closed, w, a)
    ensures var w' := NextWorker(closed, last, w, a);
      var started' := StartedNow(started, w', a);
      match a {
        case Expire(k) =>
          |started| + k < |Queue(started, w)| && Queue(started', w') == RemoveAt(Queue(started, w), |started| + k)
        case Panic => Queue(started', w') == Queue(started, w)[..|started|]
        case AbortHit => Queue(started', w') == Queue(started, w)[..|started|]
        case Exit => Queue(started', w') == Queue(started, w)[..|started|]
        case _ => Queue(started', w') == Queue(started, w)
      }
  {
    var w' := NextWorker(closed, last, w, a);
    if a.Recv? {
      RecvQueue(w, started);
    } else if a.Dispatch? {
      DispatchQueue(w, started);
    } else if a.Expire? {
      ExpireQueue(w, a.index, started);
    } else if a.Exit? || a.Panic? || a.AbortHit? {
      DroppedQueue(w, w'.phase, started);
    } else {
      assert w'.channel == w.channel && w'.waiting == w.waiting;
    }
  }

  lemma StepAsks(c: Config, run: seq<Step>, s: State, step: Step)
    requires Enabled(c, s, step) && (!s.admission.Free? ==> s.admission.task == Asked(run))
    ensures var s' := Apply(c, s, step); !s'.admission.Free? ==> s'.admission.task == Asked(run + [step])
  {
    assert (run + [step])[..|run|] == run;
  }

  lemma {:induction false} AskedIs(c: Config, run: seq<Step>, s: State)
    requires Reaches(c, run, s)
    ensures !s.admission.Free? ==> s.admission.task == Asked(run)
  {
    if run != [] {
      var before := run[..|run| - 1];
      AskedIs(c, before, After(c, before).value);
      StepAsks(c, before, After(c, before).value, run[|run| - 1]);
      assert before + [run[|run| - 1]] == run;
    }
  }

  /** Steps of others leave a worker's queues alone. */
  lemma QueuesUntouched(c: Config, s: State, step: Step, i: nat)
    requires Enabled(c, s, step) && i < |s.workers|
    requires !(step.Work? && step.worker == i)
    requires !(step == Enqueue(Send) && Target(c, s) == i)
    ensures i < |Apply(c, s, step).workers|
    ensures Apply(c, s, step).workers[i].waiting == s.workers[i].waiting
    ensures Apply(c, s, step).workers[i].channel == s.workers[i].channel
  {
    match step
    case Enqueue(a) => SendElsewhere(c, s, a, i);
    case Work(j, a) =>
    case Shutdown(k, a) => AbortTouchesNoQueue(c, s, k, a, i);
    case DropOwner =>
  }

  lemma SendElsewhere(c: Config, s: State, a: EnqueueStep, i: nat)
    requires EnqueueEnabled(c, s, a) && i < |s.workers| && !(a.Send? && Target(c, s) == i)
    ensures i < |ApplyEnqueue(c, s, a).workers| && ApplyEnqueue(c, s, a).workers[i] == s.workers[i]
  {
  }

  lemma AbortTouchesNoQueue(c: Config, s: State, k: nat, a: ShutdownStep, i: nat)
    requires ShutdownEnabled(c, s, k, a) && i < |s.workers|
    ensures i < |ApplyShutdown(c, s, k, a).workers|
    ensures ApplyShutdown(c, s, k, a).workers[i].waiting == s.workers[i].waiting
    ensures ApplyShutdown(c, s, k, a).workers[i].channel == s.workers[i].channel
  {
  }

  predicate Drops(a: WorkerStep) { a.Expire? || a.Panic? || a.AbortHit? }

  /** Worker `i` dropped no task in this run: none expired, and it neither panicked nor was aborted. */
  predicate Undisturbed(run: seq<Step>, i: nat) {
    forall step | step in run && step.Work? && step.worker == i :: !Drops(step.work)
  }

  lemma UndisturbedStep(run: seq<Step>, step: Step, i: nat)
    ensures Undisturbed(run + [step], i) <==>
      Undisturbed(run, i) && !(step.Work? && step.worker == i && Drops(step.work))
  {
    assert step in run + [step] && forall x | x in run :: x in run + [step];
  }

  /** What a worker started and holds back, against what it was sent. */
  predicate Ordered(started: seq<TaskId>, w: Worker, sent: seq<TaskId>, undisturbed: bool) {
    && Within(Queue(started, w), sent)
    && (undisturbed ==> Queue(started, w) == sent)
  }

  lemma OrderedTurn(
    c: Config, closed: bool, last: bool, w: Worker, a: WorkerStep, started: seq<TaskId>, sent: seq<TaskId>, calm: bool)
    requires WorkerReady(closed, w, a) && WorkerOk(c, closed, w) && Ordered(started, w, sent, calm)
    ensures var w' := NextWorker(closed, last, w, a);
      Ordered(StartedNow(started, w', a), w', sent, calm && !Drops(a))
  {
    QueueTurn(closed, last, w, a, started);
    if a.Expire? {
      WithinRemove(Queue(started, w), |started| + a.index, sent);
    } else if a.Panic? || a.AbortHit? || a.Exit? {
      WithinPrefix(Queue(started, w), |started|, sent);
    }
  }

  lemma OrderedSend(started: seq<TaskId>, w: Worker, sent: seq<TaskId>, calm: bool, t: TaskId)
    requires Ordered(started, w, sent, calm)
    ensures Ordered(started, w.(channel := w.channel + [t]), sent + [t], calm)
  {
    assert Queue(started, w.(channel := w.channel + [t])) == Queue(started, w) + [t];
    WithinBoth(Queue(started, w), sent, t);
  }

  ghost predicate InOrder(c: Config, run: seq<Step>, s: State, i: nat) {
    i < |s.workers| && Ordered(Started(c, run, i), s.workers[i], SentTo(c, run, i), Undisturbed(run, i))
  }

  /** How one more step lengthens what was started and what was sent. */
  lemma HistoryStep(c: Config, run: seq<Step>, s: State, step: Step, i: nat)
    requires Reaches(c, run, s) && Enabled(c, s, step) && i < |Apply(c, s, step).workers|
    ensures Started(c, run + [step], i) ==
      if step.Work? && step.worker == i then StartedNow(Started(c, run, i), Apply(c, s, step).workers[i], step.work)
      else Started(c, run, i)
    ensures SentTo(c, run + [step], i) ==
      if step == Enqueue(Send) && Target(c, s) == i then SentTo(c, run, i) + [Asked(run)] else SentTo(c, run, i)
  {
    var run' := run + [step];
    assert run'[..|run'| - 1] == run && run'[|run'| - 1] == step;
    CounterIs(c, run, s);
  }

  lemma OwnStepInOrder(c: Config, run: seq<Step>, s: State, i: nat, a: WorkerStep)
    requires Reaches(c, run, s) && InOrder(c, run, s, i) && WorkerEnabled(c, s, i, a)
    requires WorkerOk(c, s.closed, s.workers[i])
    ensures InOrder(c, run + [Work(i, a)], ApplyWorker(c, s, i, a), i)
  {
    HistoryStep(c, run, s, Work(i, a), i);
    UndisturbedStep(run, Work(i, a), i);
    OrderedTurn(c, s.closed, s.remaining == 1, s.workers[i], a,
                Started(c, run, i), SentTo(c, run, i), Undisturbed(run, i));
  }

  lemma SendInOrder(c: Config, run: seq<Step>, s: State, i: nat)
    requires Reaches(c, run, s) && InOrder(c, run, s, i) && Enabled(c, s, Enqueue(Send)) && Target(c, s) == i
    ensures InOrder(c, run + [Enqueue(Send)], Apply(c, s, Enqueue(Send)), i)
  {
    HistoryStep(c, run, s, Enqueue(Send), i);
    UndisturbedStep(run, Enqueue(Send), i);
    AskedIs(c, run, s);
    OrderedSend(Started(c, run, i), s.workers[i], SentTo(c, run, i), Undisturbed(run, i), Asked(run));
  }

  lemma OtherInOrder(c: Config, run: seq<Step>, s: State, step: Step, i: nat)
    requires Reaches(c, run, s) && InOrder(c, run, s, i) && Enabled(c, s, step)
    requires !(step.Work? && step.worker == i)
    requires !(step == Enqueue(Send) && Target(c, s) == i)
    ensures InOrder(c, run + [step], Apply(c, s, step), i)
  {
    HistoryStep(c, run, s, step, i);
    UndisturbedStep(run, step, i);
    QueuesUntouched(c, s, step, i);
    assert Queue(Started(c, run, i), Apply(c, s, step).workers[i]) == Queue(Started(c, run, i), s.workers[i]);
  }

  lemma StepInOrder(c: Config, run: seq<Step>, s: State, step: Step, i: nat)
    requires Reaches(c, run, s) && InOrder(c, run, s, i) && Enabled(c, s, step)
    ensures InOrder(c, run + [step], Apply(c, s, step), i)
  {
    if step.Work? && step.worker == i {
      RunInv(c, run, s);
      assert WorkerOk(c, s.closed, s.workers[i]);
      OwnStepInOrder(c, run, s, i, step.work);
    } else if step == Enqueue(Send) && Target(c, s) == i {
      SendInOrder(c, run, s, i);
    } else {
      OtherInOrder(c, run, s, step, i);
    }
  }

  lemma {:induction false} RunInOrder(c: Config, run: seq<Step>, s: State, i: nat)
    requires Reaches(c, run, s) && i < c.workers
    ensures InOrder(c, run, s, i)
  {
    if run == [] {
      InitInOrder(c, i);
    } else {
      var prefix, step := run[..|run| - 1], run[|run| - 1];
      assert prefix + [step] == run;
      var before := After(c, prefix).value;
      RunInOrder(c, prefix, before, i);
      StepInOrder(c, prefix, before, step, i);
    }
  }

  lemma InitInOrder(c: Config, i: nat)
    requires i < c.workers
    ensures InOrder(c, [], Init(c), i)
  {
    assert Init(c).workers[i] == NewWorker();
  }

  /**
   A worker starts the tasks sent to it in the order they were sent: what it started,
   followed by what it still holds back, is what it was sent, less the tasks it
   dropped; and exactly what it was sent if it dropped none.
   */
  lemma WorkerOrder(c: Config, run: seq<Step>, s: State, i: nat)
    requires Reaches(c, run, s) && i < c.workers
    ensures i < |s.workers|
    ensures Within(Started(c, run, i) + s.workers[i].waiting + s.workers[i].channel, SentTo(c, run, i))
    ensures Undisturbed(run, i) ==>
      Started(c, run, i) + s.workers[i].waiting + s.workers[i].channel == SentTo(c, run, i)
  {
    RunInOrder(c, run, s, i);
  }
}
