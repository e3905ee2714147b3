/**
 The lifecycle of the bounded ask forwarder: admission, worker loops, the cancellable
 shutdown leader election, forced abort, join-handle reaping and the one-shot
 reconciliation of lost tasks.

 Every atomic access, every mutex-guarded region and every await-free region that no
 other task can observe half-way is one `Step`. A run is a sequence of steps from
 `Init`; cancellation is possible only where the source awaits.
 */
module Forwarder {
  import opened Common

  const MAX_INFLIGHT_PER_WORKER: nat := 16

  type TaskId = nat

  datatype ShutdownResult = Drained | TimedOut

  datatype RawConfig = Config(workers: nat, capacity: nat, hasObserver: bool)

  /** What `new_with_observer` builds with: at least one worker, capacity raised to 128. */
  type Config = c: RawConfig | 1 <= c.workers && 128 <= c.capacity < U64_LIMIT
    witness Config(1, 128, true)

  function Normalize(workers: Usize, capacity: Usize, hasObserver: bool): (c: Config) {
    Config(if workers < 1 then 1 else workers, if capacity < 128 then 128 else capacity, hasObserver)
  }

  function PermitLimit(c: Config): nat {
    SaturatingAdd(c.capacity, MAX_INFLIGHT_PER_WORKER)
  }

  // ---------------------------------------------------------------- state

  /** Where a worker task is; `Leaving` onwards its future and receiver are gone. */
  datatype WorkerPhase =
    | Running
    | Panicked     // unwound, `abnormal` not stored yet
    | Leaving      // its exit guard is about to decrement `remaining`
    | LastOut      // decremented `remaining` to zero, `done` not notified yet
    | Settling     // about to reconcile observer gaps
    | Gone         // the join handle is ready

  datatype Worker = Worker(
    phase: WorkerPhase,
    channel: seq<TaskId>,
    sweptEmpty: bool,        // the final sweep found the channel empty
    rxClosed: bool,
    waiting: seq<TaskId>,
    inflight: seq<TaskId>,
    abortRequested: bool)

  /** The enqueue holding the admission lock, if any. */
  datatype Admission =
    | Free
    | Permitted(task: TaskId)
    | Counted(task: TaskId)
    | RolledBack(task: TaskId)

  /** One `shutdown` call. */
  datatype Caller =
    | Start
    | ToldToWait
    | Registered(woken: bool)
    | Parked(woken: bool)
    | Closing(prior: Option<ShutdownResult>)
    | WaitArmed(forced: bool, woken: bool)
    | WaitParked(forced: bool, woken: bool)
    | Inspect
    | Reconcile(abnormal: bool)
    | Condemn
    | Forcing
    | Aborting
    | ForcedReconcile
    | TakeHandles(result: ShutdownResult)
    | Reaping(result: ShutdownResult, held: seq<nat>)
    | Publish(result: ShutdownResult)
    | Announce(result: ShutdownResult)
    | Unwinding(held: seq<nat>)
    | Releasing
    | ReleaseNotify
    | Done(result: ShutdownResult)
    | Abandoned

  /** The counters behind admission, completion and the observer. */
  datatype Ledger = Ledger(
    available: nat,                // permits
    admitted: nat,
    completed: nat,
    successes: nat,                // observer calls
    errors: nat,
    reconciled: bool,
    // What happened so far; the source keeps no such record and no step reads it.
    accepted: multiset<TaskId>,    // enqueues that returned Ok
    observed: multiset<TaskId>,    // tasks whose outcome a worker recorded
    lost: multiset<TaskId>,        // accepted tasks dropped with their worker
    reconciliations: nat,
    snapshotMidEnqueue: bool)      // reconciliation read `admitted` during an unfinished enqueue

  datatype ShutdownState = ShutdownState(terminal: Option<ShutdownResult>, leader: bool, reclaimed: bool)

  datatype State = State(
    admission: Admission,
    ledger: Ledger,
    nextWorker: U64,
    closed: bool,
    forced: bool,
    abnormal: bool,
    dropped: bool,                 // the last owner was dropped
    remaining: nat,
    workers: seq<Worker>,
    stored: seq<nat>,              // join handles nobody is reaping
    shutdown: ShutdownState,
    callers: map<nat, Caller>,
    joined: multiset<nat>,         // history: handles polled ready and removed
    leftWhileOpen: nat)            // history: workers that left before admission closed

  function NewWorker(): Worker {
    Worker(Running, [], false, false, [], [], false)
  }

  function Init(c: Config): State {
    State(Free,
          Ledger(PermitLimit(c), 0, 0, 0, 0, false, multiset{}, multiset{}, multiset{}, 0, false),
          0, false, false, false, false, c.workers,
          seq(c.workers, i => NewWorker()), seq(c.workers, i => i),
          ShutdownState(None, false, false), map[], multiset{}, 0)
  }

  // ---------------------------------------------------------------- steps

  datatype EnqueueStep =
    | Acquire(task: TaskId)
    | Count
    | Send
    | RollBack
    | DropPermit

  datatype WorkerStep =
    | Recv
    | SweepEmpty
    | CloseRx
    | Expire(index: nat)
    | Dispatch
    | Resolve(index: nat, success: bool)
    | Exit
    | Panic
    | MarkAbnormal
    | AbortHit
    | Leave
    | NotifyDone
    | Settle

  datatype ShutdownStep =
    | Call
    | Claim
    | Register
    | CheckWait
    | Wake
    | Close
    | ReadRemaining
    | WaitWake
    | GraceExpire
    | LoadAbnormal
    | GraceReconcile
    | PersistCondemned
    | PersistForced
    | AbortAll
    | ForceReconcile
    | Take
    | Join
    | JoinedAll
    | FinishShutdown
    | NotifyFinished
    | Cancel
    | ReturnHandles
    | Release
    | NotifyReleased

  datatype Step =
    | Enqueue(enqueue: EnqueueStep)
    | Work(worker: nat, work: WorkerStep)
    | Shutdown(caller: nat, shutdown: ShutdownStep)
    | DropOwner

  // -- admission

  predicate Accepts(c: Config, w: Worker) {
    w.phase.Running? && !w.rxClosed && |w.channel| < c.capacity
  }

  function Target(c: Config, s: State): nat { s.nextWorker % c.workers }

  predicate EnqueueEnabled(c: Config, s: State, a: EnqueueStep) {
    match a
    case Acquire(t) =>
      s.admission.Free? && !s.closed && !s.dropped && 0 < s.ledger.available && t !in s.ledger.accepted
    case Count => s.admission.Permitted?
    case Send => s.admission.Counted? && Target(c, s) < |s.workers| && Accepts(c, s.workers[Target(c, s)])
    case RollBack =>
      s.admission.Counted? && Target(c, s) < |s.workers| && !Accepts(c, s.workers[Target(c, s)]) &&
      0 < s.ledger.admitted
    case DropPermit => s.admission.RolledBack?
  }

  function ApplyEnqueue(c: Config, s: State, a: EnqueueStep): State
    requires EnqueueEnabled(c, s, a)
  {
    var l := s.ledger;
    match a
    case Acquire(t) => s.(admission := Permitted(t), ledger := l.(available := l.available - 1))
    case Count => s.(admission := Counted(s.admission.task), ledger := l.(admitted := l.admitted + 1))
    case Send =>
      var i := Target(c, s);
      var w := s.workers[i];
      s.(admission := Free,
         nextWorker := (s.nextWorker + 1) % U64_LIMIT,
         workers := s.workers[i := w.(channel := w.channel + [s.admission.task])],
         ledger := l.(accepted := l.accepted + multiset{s.admission.task}))
    case RollBack =>
      s.(admission := RolledBack(s.admission.task),
         nextWorker := (s.nextWorker + 1) % U64_LIMIT,
         ledger := l.(admitted := l.admitted - 1))
    case DropPermit => s.(admission := Free, ledger := l.(available := l.available + 1))
  }

  // -- workers

  function Contents(w: Worker): multiset<TaskId> {
    multiset(w.channel) + multiset(w.waiting) + multiset(w.inflight)
  }

  function RemoveAt(q: seq<TaskId>, k: nat): seq<TaskId>
    requires k < |q|
  {
    q[..k] + q[k + 1..]
  }

  predicate WorkerReady(closed: bool, w: Worker, a: WorkerStep) {
    match a
    case Recv => w.phase.Running? && !w.rxClosed && w.channel != []
    case SweepEmpty => w.phase.Running? && closed && !w.rxClosed && !w.sweptEmpty && w.channel == []
    case CloseRx => w.phase.Running? && w.sweptEmpty && !w.rxClosed
    case Expire(k) => w.phase.Running? && k < |w.waiting|
    case Dispatch => w.phase.Running? && |w.inflight| < MAX_INFLIGHT_PER_WORKER && w.waiting != []
    case Resolve(k, _) => w.phase.Running? && k < |w.inflight|
    case Exit => w.phase.Running? && w.rxClosed && w.waiting == [] && w.inflight == []
    case Panic => w.phase.Running?
    case MarkAbnormal => w.phase.Panicked?
    case AbortHit => w.phase.Running? && w.abortRequested
    case Leave => w.phase.Leaving?
    case NotifyDone => w.phase.LastOut?
    case Settle => w.phase.Settling?
  }

  /** Dropping a worker's future drops its receiver and every task it holds. */
  function Dropped(w: Worker, phase: WorkerPhase): Worker {
    w.(phase := phase, channel := [], waiting := [], inflight := [])
  }

  function NextWorker(closed: bool, last: bool, w: Worker, a: WorkerStep): Worker
    requires WorkerReady(closed, w, a)
  {
    match a
    case Recv => w.(channel := w.channel[1..], waiting := w.waiting + [w.channel[0]])
    case SweepEmpty => w.(sweptEmpty := true)
    case CloseRx => w.(rxClosed := true)
    case Expire(k) => w.(waiting := RemoveAt(w.waiting, k))
    case Dispatch => w.(waiting := w.waiting[1..], inflight := w.inflight + [w.waiting[0]])
    case Resolve(k, _) => w.(inflight := RemoveAt(w.inflight, k))
    case Exit => Dropped(w, Leaving)
    case Panic => Dropped(w, Panicked)
    case MarkAbnormal => w.(phase := Leaving)
    case AbortHit => Dropped(w, Leaving)
    case Leave => w.(phase := if last then LastOut else Gone)
    case NotifyDone => w.(phase := Settling)
    case Settle => w.(phase := Gone)
  }

  /** `handle_completed_forward`, together with the permit the resolved task drops. */
  function Observe(c: Config, l: Ledger, t: TaskId, success: bool): Ledger {
    l.(completed := l.completed + 1,
       available := l.available + 1,
       observed := l.observed + multiset{t},
       successes := l.successes + (if c.hasObserver && success then 1 else 0),
       errors := l.errors + (if c.hasObserver && !success then 1 else 0))
  }

  /** A dropped task gives its permit back and is never observed by its worker. */
  function Lose(l: Ledger, tasks: multiset<TaskId>): Ledger {
    l.(available := l.available + |tasks|, lost := l.lost + tasks)
  }

  function Missing(l: Ledger): nat { SaturatingSub(l.admitted, l.completed) }

  /** `finalize_observer_gaps`, which runs under the reconciliation mutex. */
  function FinalizeGaps(c: Config, l: Ledger, a: Admission): Ledger {
    if l.reconciled then l
    else
      l.(completed := l.completed + Missing(l),
         errors := l.errors + (if c.hasObserver then Missing(l) else 0),
         reconciled := true,
         reconciliations := l.reconciliations + 1,
         snapshotMidEnqueue := a.Counted?)
  }

  function NextLedger(c: Config, l: Ledger, adm: Admission, closed: bool, w: Worker, a: WorkerStep): Ledger
    requires WorkerReady(closed, w, a)
  {
    match a
    case Expire(k) => Observe(c, l, w.waiting[k], false)
    case Resolve(k, success) => Observe(c, l, w.inflight[k], success)
    case Exit => Lose(l, Contents(w))
    case Panic => Lose(l, Contents(w))
    case AbortHit => Lose(l, Contents(w))
    case Settle => FinalizeGaps(c, l, adm)
    case _ => l
  }

  /** `done.notify_waiters()`: only an armed or parked leader listens. */
  function WakeLeader(p: Caller): Caller {
    match p
    case WaitArmed(f, _) => WaitArmed(f, true)
    case WaitParked(f, _) => WaitParked(f, true)
    case _ => p
  }

  predicate WorkerEnabled(c: Config, s: State, i: nat, a: WorkerStep) {
    i < |s.workers| && WorkerReady(s.closed, s.workers[i], a) && (a.Leave? ==> 0 < s.remaining)
  }

  function ApplyWorker(c: Config, s: State, i: nat, a: WorkerStep): State
    requires WorkerEnabled(c, s, i, a)
  {
    var w := s.workers[i];
    s.(workers := s.workers[i := NextWorker(s.closed, s.remaining == 1, w, a)],
       ledger := NextLedger(c, s.ledger, s.admission, s.closed, w, a),
       abnormal := s.abnormal || a.MarkAbnormal?,
       remaining := if a.Leave? then s.remaining - 1 else s.remaining,
       leftWhileOpen := if a.Leave? && !s.closed then s.leftWhileOpen + 1 else s.leftWhileOpen,
       callers := if a.NotifyDone? then map k | k in s.callers :: WakeLeader(s.callers[k]) else s.callers)
  }

  // -- shutdown callers

  /** `shutdown_done.notify_waiters()`. */
  function WakeWaiter(p: Caller): Caller {
    match p
    case Registered(_) => Registered(true)
    case Parked(_) => Parked(true)
    case _ => p
  }

  predicate ShutdownReady(s: State, p: Caller, a: ShutdownStep) {
    match a
    case Call => false
    case Claim => p.Start?
    case Register => p.ToldToWait?
    case CheckWait => p.Registered?
    case Wake => p == Parked(true)
    case Close => p.Closing? && s.admission.Free?
    case ReadRemaining => p.WaitArmed?
    case WaitWake => p.WaitParked? && p.woken
    case GraceExpire => p.WaitParked? && !p.forced
    case LoadAbnormal => p.Inspect?
    case GraceReconcile => p.Reconcile?
    case PersistCondemned => p.Condemn?
    case PersistForced => p.Forcing?
    case AbortAll => p.Aborting?
    case ForceReconcile => p.ForcedReconcile?
    case Take => p.TakeHandles?
    case Join => p.Reaping? && p.held != [] && p.held[0] < |s.workers| && s.workers[p.held[0]].phase.Gone?
    case JoinedAll => p.Reaping? && p.held == []
    case FinishShutdown => p.Publish?
    case NotifyFinished => p.Announce?
    case Cancel => p.Parked? || p.WaitParked? || (p.Reaping? && p.held != [])
    case ReturnHandles => p.Unwinding?
    case Release => p.Releasing?
    case NotifyReleased => p.ReleaseNotify?
  }

  /** What a caller returns once reclamation is published; the source's `expect` never fires. */
  function Completed(h: ShutdownState): Caller {
    if h.terminal.Some? then Done(h.terminal.value) else Abandoned
  }

  /** `Vec::swap_remove(0)`. */
  function SwapRemoveHead(q: seq<nat>): seq<nat>
    requires q != []
  {
    if |q| == 1 then [] else [q[|q| - 1]] + q[1..|q| - 1]
  }

  function NextCaller(s: State, p: Caller, a: ShutdownStep): Caller
    requires ShutdownReady(s, p, a)
  {
    var h := s.shutdown;
    match a
    case Call => Start
    case Claim =>
      if h.reclaimed then Completed(h) else if h.leader then ToldToWait else Closing(h.terminal)
    case Register => Registered(false)
    case CheckWait =>
      if h.reclaimed then Completed(h) else if !h.leader then Start else Parked(p.woken)
    case Wake => Start
    case Close => if p.prior.None? then WaitArmed(false, false) else Forcing
    case ReadRemaining =>
      if s.remaining != 0 then WaitParked(p.forced, p.woken) else if p.forced then ForcedReconcile else Inspect
    case WaitWake => WaitArmed(p.forced, false)
    case GraceExpire => if s.remaining == 0 then Inspect else Forcing
    case LoadAbnormal => Reconcile(s.abnormal)
    case GraceReconcile =>
      if p.abnormal || (!s.ledger.reconciled && Missing(s.ledger) != 0) then Condemn else TakeHandles(Drained)
    case PersistCondemned => TakeHandles(TimedOut)
    case PersistForced => Aborting
    case AbortAll => WaitArmed(true, false)
    case ForceReconcile => TakeHandles(TimedOut)
    case Take => Reaping(p.result, s.stored)
    case Join => Reaping(p.result, SwapRemoveHead(p.held))
    case JoinedAll => Publish(p.result)
    case FinishShutdown => Announce(p.result)
    case NotifyFinished => Done(p.result)
    case Cancel => if p.Parked? then Abandoned else if p.WaitParked? then Releasing else Unwinding(p.held)
    case ReturnHandles => Releasing
    case Release => ReleaseNotify
    case NotifyReleased => Abandoned
  }

  function Persist(h: ShutdownState, result: ShutdownResult): ShutdownState {
    if h.terminal.None? then h.(terminal := Some(result)) else h
  }

  function NextShutdownState(s: State, p: Caller, a: ShutdownStep): ShutdownState
    requires ShutdownReady(s, p, a)
  {
    var h := s.shutdown;
    match a
    case Claim => if h.reclaimed then h else h.(leader := true)
    case PersistCondemned => Persist(h, TimedOut)
    case PersistForced => Persist(h, TimedOut)
    case FinishShutdown => Persist(h, p.result).(reclaimed := true)
    case Release => h.(leader := false)
    case _ => h
  }

  predicate ShutdownEnabled(c: Config, s: State, k: nat, a: ShutdownStep) {
    if a.Call? then k !in s.callers && !s.dropped else k in s.callers && ShutdownReady(s, s.callers[k], a)
  }

  function AbortEvery(ws: seq<Worker>): seq<Worker> {
    seq(|ws|, i requires 0 <= i < |ws| => ws[i].(abortRequested := true))
  }

  predicate Notifies(a: ShutdownStep) { a.NotifyFinished? || a.NotifyReleased? }

  function ApplyShutdown(c: Config, s: State, k: nat, a: ShutdownStep): State
    requires ShutdownEnabled(c, s, k, a)
  {
    if a.Call? then s.(callers := s.callers[k := Start])
    else
      var p := s.callers[k];
      var rest := if Notifies(a) then map j | j in s.callers :: WakeWaiter(s.callers[j]) else s.callers;
      s.(callers := rest[k := NextCaller(s, p, a)],
         shutdown := NextShutdownState(s, p, a),
         closed := s.closed || a.Close?,
         forced := s.forced || a.PersistCondemned? || a.PersistForced?,
         ledger := if a.GraceReconcile? || a.ForceReconcile? then FinalizeGaps(c, s.ledger, s.admission) else s.ledger,
         workers := if a.AbortAll? then AbortEvery(s.workers) else s.workers,
         stored := if a.Take? then [] else if a.ReturnHandles? then s.stored + p.held else s.stored,
         joined := if a.Join? then s.joined + multiset{p.held[0]} else s.joined)
  }

  // -- whole system

  predicate Over(p: Caller) { p.Done? || p.Abandoned? }

  predicate Enabled(c: Config, s: State, step: Step) {
    match step
    case Enqueue(a) => EnqueueEnabled(c, s, a)
    case Work(i, a) => WorkerEnabled(c, s, i, a)
    case Shutdown(k, a) => ShutdownEnabled(c, s, k, a)
    case DropOwner => !s.dropped && s.admission.Free? && forall k | k in s.callers :: Over(s.callers[k])
  }

  function Apply(c: Config, s: State, step: Step): State
    requires Enabled(c, s, step)
  {
    match step
    case Enqueue(a) => ApplyEnqueue(c, s, a)
    case Work(i, a) => ApplyWorker(c, s, i, a)
    case Shutdown(k, a) => ApplyShutdown(c, s, k, a)
    case DropOwner =>
      s.(dropped := true, closed := true, forced := true, workers := AbortEvery(s.workers))
  }

  /** The state a run reaches, or `None` when some step was not enabled. */
  function After(c: Config, run: seq<Step>): Option<State> {
    if run == [] then Some(Init(c))
    else
      match After(c, run[..|run| - 1])
      case None => None
      case Some(s) => if Enabled(c, s, run[|run| - 1]) then Some(Apply(c, s, run[|run| - 1])) else None
  }
}
