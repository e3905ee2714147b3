/**
 Matching replies to waiting asks: a ring of slots shared by requests, completers, timeouts,
 guard drops and connection teardown. Ids that agree modulo the ring size share a slot, so
 stale callers meet requests that are not theirs. Every atomic access is one step.
 */
module Correlation {
  import opened Common

  const PENDING_RESPONSES_SIZE := 8192

  datatype Phase = Empty | Waiting | Writing | Ready

  /** A published outcome and the correlation id its completer was given. */
  datatype Reply = Reply(cid: U32, value: nat)

  /**
   `response` is present while the cell is initialised; `waker` is the caller registered for
   wake-ups; `hushed` records that the phase was last stored by a cancel that restored a
   ready slot without waking anybody.
   */
  datatype Slot = Slot(phase: Phase, id: U32, response: Option<Reply>, waker: Option<nat>, hushed: bool)

  /** What the owner of a slot in the writing phase came to do. */
  datatype Job =
    | Take
    | Expire
    | Cancel(ready: bool)
    | Complete(reply: Option<nat>)

  datatype Pass = First | Second | Final

  datatype Outcome = Got(reply: Reply) | Dropped | TimedOut

  datatype Next = ThenIdle | ThenEnded(id: U32, outcome: Outcome)

  /** A caller and the access it makes next. */
  datatype Task =
    | Idle
    | Fetching(tries: nat)
    | Claiming(id: U32, tries: nat)
    | Installing(id: U32)
    | Opening(id: U32)
    | Held(id: U32)
    | Polling(id: U32, limited: bool, pass: Pass, woken: bool)
    | Looking(id: U32, limited: bool, pass: Pass, woken: bool)
    | Enrolling(id: U32, limited: bool)
    | Parked(id: U32, limited: bool, woken: bool)
    | Expiring(id: U32)
    | LastLook(id: U32)
    | Ended(id: U32, outcome: Outcome)
    | Cancelling(id: U32)
    | Seizing(id: U32, ready: bool)
    | Completing(id: U32, reply: Option<nat>)
    | Comparing(id: U32, job: Job)
    | Restoring(id: U32, job: Job)
    | Acting(id: U32, job: Job)
    | Closing(id: U32, job: Job, got: Option<Reply>)
    | Sweeping(at: nat)
    | Clearing(at: nat, ready: bool)
    | Dumping(at: nat)
    | Emptying(at: nat)
    | Ringing(at: nat, next: Next)

  datatype State = State(
    slots: seq<Slot>, tasks: seq<Task>, fetched: nat,
    published: nat, taken: nat, dropped: nat, faulted: bool, hushes: nat)

  /** What a step does to the response cell, for the books. */
  datatype Touch = NoTouch | Wrote | Read | Freed

  datatype Turn = Turn(slot: Slot, task: Task, wakes: bool, touch: Touch)

  datatype Choice =
    | Allocate
    | Finish(id: U32, reply: Option<nat>)
    | CancelSlot(at: nat)
    | Await(limited: bool)
    | Repoll
    | TimeOut
    | DropGuard
    | Disarm

  datatype Step = Act(task: nat) | Choose(task: nat, choice: Choice)

  // ---------------------------------------------------------------- one access

  function Stored(slot: Slot, phase: Phase): Slot { slot.(phase := phase, hushed := false) }

  function Still(slot: Slot, task: Task): Turn { Turn(slot, task, false, NoTouch) }

  /** `allocate`, from the claim of an empty slot to the store that opens it. */
  function Allocation(slot: Slot, t: Task): Turn
    requires t.Claiming? || t.Installing? || t.Opening?
  {
    match t
    case Claiming(id, tries) =>
      if slot.phase.Empty? then Still(Stored(slot, Writing), Installing(id)) else Still(slot, Fetching(tries))
    case Installing(id) => Turn(slot.(id := id, waker := None), Opening(id), true, NoTouch)
    case Opening(id) => Still(Stored(slot, Waiting), Held(id))
  }

  /** One poll of the waiter `me`, and its last attempt after a timeout. */
  function Waiter(slot: Slot, t: Task, me: nat): Turn
    requires t.Polling? || t.Looking? || t.Enrolling? || t.Expiring? || t.LastLook?
  {
    match t
    case Polling(id, limited, pass, woken) =>
      if slot.phase.Ready? then Still(Stored(slot, Writing), Comparing(id, Take))
      else if pass.Final? then Still(slot, LastLook(id))
      else Still(slot, Looking(id, limited, pass, woken))
    case Looking(id, limited, pass, woken) =>
      if slot.phase.Empty? then Still(slot, Ended(id, Dropped))
      else if pass.Second? then Still(slot, Parked(id, limited, woken))
      else Still(slot, Enrolling(id, limited))
    case Enrolling(id, limited) =>
      if slot.id != id then Still(slot, Ended(id, Dropped))
      else Still(slot.(waker := Some(me)), Polling(id, limited, Second, false))
    case Expiring(id) =>
      if slot.phase.Waiting? then Still(Stored(slot, Writing), Comparing(id, Expire))
      else Still(slot, Polling(id, false, Final, false))
    case LastLook(id) =>
      if slot.phase.Writing? then Still(slot, Polling(id, false, First, false))
      else Still(slot, Ended(id, if slot.phase.Empty? then Dropped else TimedOut))
  }

  /** The entry of a guard drop or of a completion. */
  function Entry(slot: Slot, t: Task): Turn
    requires t.Cancelling? || t.Seizing? || t.Completing?
  {
    match t
    case Cancelling(id) =>
      (match slot.phase
       case Waiting => Still(slot, Seizing(id, false))
       case Ready => Still(slot, Seizing(id, true))
       case Writing => Still(slot, t)
       case Empty => Still(slot, Idle))
    case Seizing(id, ready) =>
      if slot.phase == (if ready then Ready else Waiting)
      then Still(Stored(slot, Writing), Comparing(id, Cancel(ready)))
      else Still(slot, Cancelling(id))
    case Completing(id, reply) =>
      if slot.phase.Waiting? then Still(Stored(slot, Writing), Comparing(id, Complete(reply))) else Still(slot, Idle)
  }

  predicate FromReady(job: Job) { job.Take? || (job.Cancel? && job.ready) }

  /** A stale cancel about to put a ready slot back; it wakes nobody. */
  predicate Hushes(t: Task) { t.Restoring? && t.job.Cancel? && t.job.ready }

  /** The owner compares full ids and either puts the slot back or carries on. */
  function Ownership(slot: Slot, t: Task, at: nat): Turn
    requires t.Comparing? || t.Restoring?
  {
    match t
    case Comparing(id, job) =>
      if slot.id != id then Still(slot, Restoring(id, job))
      else if FromReady(job) || (job.Complete? && job.reply.Some?) then Still(slot, Acting(id, job))
      else Still(slot, Closing(id, job, None))
    case Restoring(id, job) =>
      match job
      case Take => Still(Stored(slot, Ready), Ringing(at, ThenEnded(id, Dropped)))
      case Expire => Still(Stored(slot, Waiting), Polling(id, false, Final, false))
      case Cancel(ready) =>
        if ready then Still(slot.(phase := Ready, hushed := true), Idle) else Still(Stored(slot, Waiting), Idle)
      case Complete(_) => Still(Stored(slot, Waiting), Idle)
  }

  /** The owner reads, drops or writes the cell, then stores the final phase. */
  function Conclusion(slot: Slot, t: Task, at: nat): Turn
    requires t.Acting? || t.Closing?
  {
    match t
    case Acting(id, job) =>
      if job.Complete? && job.reply.Some?
      then Turn(slot.(response := Some(Reply(id, job.reply.value))), Closing(id, job, None), false, Wrote)
      else if job.Take? then Turn(slot.(response := None), Closing(id, job, slot.response), false, Read)
      else Turn(slot.(response := None), Closing(id, job, None), false, Freed)
    case Closing(id, job, got) =>
      match job
      case Take =>
        Still(Stored(slot, Empty), Ended(id, if got.Some? then Got(got.value) else Dropped))
      case Expire => Still(Stored(slot, Empty), Ended(id, TimedOut))
      case Complete(reply) => Still(Stored(slot, if reply.Some? then Ready else Empty), Ringing(at, ThenIdle))
      case Cancel(_) => Still(Stored(slot, Empty), Ringing(at, ThenIdle))
  }

  /** `cancel_all` at one slot, and every wake-up. */
  function Teardown(slot: Slot, t: Task): Turn
    requires t.Sweeping? || t.Clearing? || t.Dumping? || t.Emptying? || t.Ringing?
  {
    match t
    case Sweeping(at) =>
      (match slot.phase
       case Waiting => Still(slot, Clearing(at, false))
       case Ready => Still(slot, Clearing(at, true))
       case Writing => Still(slot, t)
       case Empty => Still(slot, Idle))
    case Clearing(at, ready) =>
      if ready && slot.phase.Ready? then Still(Stored(slot, Writing), Dumping(at))
      else if !ready && slot.phase.Waiting? then Still(Stored(slot, Empty), Ringing(at, ThenIdle))
      else Still(slot, Sweeping(at))
    case Dumping(at) => Turn(slot.(response := None), Emptying(at), false, Freed)
    case Emptying(at) => Still(Stored(slot, Empty), Ringing(at, ThenIdle))
    case Ringing(at, next) =>
      Turn(slot.(waker := None), if next.ThenIdle? then Idle else Ended(next.id, next.outcome), true, NoTouch)
  }

  // ---------------------------------------------------------------- the whole ring

  /** Does a caller's next access go to a slot? */
  predicate Touches(t: Task) { !t.Idle? && !t.Fetching? && !t.Held? && !t.Parked? && !t.Ended? }

  function Index(t: Task, ring: nat): nat
    requires ring > 0 && !t.Idle? && !t.Fetching?
  {
    if t.Sweeping? || t.Clearing? || t.Dumping? || t.Emptying? || t.Ringing? then t.at else t.id % ring
  }

  function TurnOf(slot: Slot, t: Task, me: nat, at: nat): Turn
    requires Touches(t)
  {
    if t.Claiming? || t.Installing? || t.Opening? then Allocation(slot, t)
    else if t.Polling? || t.Looking? || t.Enrolling? || t.Expiring? || t.LastLook? then Waiter(slot, t, me)
    else if t.Cancelling? || t.Seizing? || t.Completing? then Entry(slot, t)
    else if t.Comparing? || t.Restoring? then Ownership(slot, t, at)
    else if t.Acting? || t.Closing? then Conclusion(slot, t, at)
    else Teardown(slot, t)
  }

  predicate Listens(t: Task) { ((t.Polling? || t.Looking?) && t.pass.Second?) || t.Parked? }

  function Woken(t: Task): Task { if Listens(t) then t.(woken := true) else t }

  function Wake(tasks: seq<Task>, waker: Option<nat>): seq<Task> {
    if waker.Some? && waker.value < |tasks| then tasks[waker.value := Woken(tasks[waker.value])] else tasks
  }

  /** Reading or dropping an empty cell, and overwriting a full one, are the memory errors. */
  predicate Faults(touch: Touch, response: Option<Reply>) {
    (touch.Wrote? && response.Some?) || ((touch.Read? || touch.Freed?) && response.None?)
  }

  function Fetch(s: State, i: nat, tries: nat): State
    requires i < |s.tasks|
  {
    if tries == 0 then s.(tasks := s.tasks[i := Idle])
    else
      var id := s.fetched % U32_LIMIT;
      s.(fetched := s.fetched + 1,
        tasks := s.tasks[i := if id == 0 then Fetching(tries - 1) else Claiming(id, tries - 1)])
  }

  predicate Allows(t: Task, choice: Choice, ring: nat) {
    match choice
    case Allocate => t.Idle?
    case Finish(_, _) => t.Idle?
    case CancelSlot(at) => t.Idle? && at < ring
    case Await(_) => t.Held?
    case Repoll => t.Parked?
    case TimeOut => t.Parked? && t.limited
    case DropGuard => t.Held? || t.Parked? || t.Ended?
    case Disarm => t.Ended?
  }

  function Chosen(t: Task, choice: Choice, ring: nat): Task
    requires Allows(t, choice, ring)
  {
    match choice
    case Allocate => Fetching(ring)
    case Finish(id, reply) => Completing(id, reply)
    case CancelSlot(at) => Sweeping(at)
    case Await(limited) => Polling(t.id, limited, First, false)
    case Repoll => Polling(t.id, t.limited, First, false)
    case TimeOut => Expiring(t.id)
    case DropGuard => Cancelling(t.id)
    case Disarm => Idle
  }

  predicate Enabled(s: State, step: Step) {
    step.task < |s.tasks| && |s.slots| > 0 &&
    var t := s.tasks[step.task];
    match step
    case Act(_) => t.Fetching? || (Touches(t) && Index(t, |s.slots|) < |s.slots|)
    case Choose(_, choice) => Allows(t, choice, |s.slots|)
  }

  function Apply(s: State, step: Step): State
    requires Enabled(s, step)
  {
    var i := step.task;
    var t := s.tasks[i];
    match step
    case Choose(_, choice) => s.(tasks := s.tasks[i := Chosen(t, choice, |s.slots|)])
    case Act(_) =>
      if t.Fetching? then Fetch(s, i, t.tries)
      else
        var at := Index(t, |s.slots|);
        var slot := s.slots[at];
        var turn := TurnOf(slot, t, i, at);
        State(s.slots[at := turn.slot],
              Wake(s.tasks[i := turn.task], if turn.wakes then slot.waker else None),
              s.fetched,
              s.published + (if turn.touch.Wrote? then 1 else 0),
              s.taken + (if turn.touch.Read? then 1 else 0),
              s.dropped + (if turn.touch.Freed? then 1 else 0),
              s.faulted || Faults(turn.touch, slot.response),
              s.hushes + (if Hushes(t) then 1 else 0))
  }

  /** `ring` slots and `tasks` callers, all at rest; the first id handed out is one. */
  function Init(ring: nat, tasks: nat): State {
    State(seq(ring, _ => Slot(Empty, 0, None, None, false)), seq(tasks, _ => Idle), 1, 0, 0, 0, false, 0)
  }

  function After(s: State, run: seq<Step>): Option<State>
    decreases |run|
  {
    if run == [] then Some(s)
    else
      match After(s, run[..|run| - 1])
      case None => None
      case Some(t) => if Enabled(t, run[|run| - 1]) then Some(Apply(t, run[|run| - 1])) else None
  }
}
