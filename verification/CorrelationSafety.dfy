/** Exclusive slot ownership, initialised reads and matching ids, in every run. */
module CorrelationSafety {
  import opened Common
  import opened Correlation
  import opened CorrelationReplies

  // ---------------------------------------------------------------- sums over tasks and slots

  datatype Measure = Owning(at: nat) | Filling(at: nat) | Waking(at: nat)

  /** The caller holds its slot in the writing phase. */
  predicate Owns(t: Task) {
    t.Installing? || t.Opening? || t.Comparing? || t.Restoring? || t.Acting? || t.Closing? || t.Dumping? || t.Emptying?
  }

  /** The caller owns a slot whose cell is initialised. */
  predicate Fills(t: Task) {
    ((t.Comparing? || t.Restoring? || t.Acting?) && FromReady(t.job)) ||
    (t.Closing? && t.job.Complete? && t.job.reply.Some?) || t.Dumping?
  }

  function Weight(t: Task, m: Measure, ring: nat): nat
    requires ring > 0
  {
    match m
    case Owning(at) => if Owns(t) && Index(t, ring) == at then 1 else 0
    case Filling(at) => if Fills(t) && Index(t, ring) == at then 1 else 0
    case Waking(at) => if t.Ringing? && t.at == at then 1 else 0
  }

  function Total(tasks: seq<Task>, m: Measure, ring: nat): nat
    requires ring > 0
    decreases |tasks|
  {
    if tasks == [] then 0 else Total(tasks[..|tasks| - 1], m, ring) + Weight(tasks[|tasks| - 1], m, ring)
  }

  lemma {:induction false} TaskMoves(tasks: seq<Task>, i: nat, t: Task, m: Measure, ring: nat)
    requires i < |tasks| && ring > 0
    ensures Weight(tasks[i], m, ring) <= Total(tasks, m, ring)
    ensures Total(tasks[i := t], m, ring) == Total(tasks, m, ring) - Weight(tasks[i], m, ring) + Weight(t, m, ring)
    decreases |tasks|
  {
    var n := |tasks| - 1;
    if i == n {
      assert tasks[i := t][..n] == tasks[..n];
    } else {
      TaskMoves(tasks[..n], i, t, m, ring);
      assert tasks[i := t][..n] == tasks[..n][i := t];
    }
  }

  lemma WakeWeighsNothing(tasks: seq<Task>, waker: Option<nat>, m: Measure, ring: nat)
    requires ring > 0
    ensures Total(Wake(tasks, waker), m, ring) == Total(tasks, m, ring)
  {
    if waker.Some? && waker.value < |tasks| {
      TaskMoves(tasks, waker.value, Woken(tasks[waker.value]), m, ring);
    }
  }

  lemma {:induction false} FillersOwn(tasks: seq<Task>, at: nat, ring: nat)
    requires ring > 0
    ensures Total(tasks, Filling(at), ring) <= Total(tasks, Owning(at), ring)
    decreases |tasks|
  {
    if tasks != [] { FillersOwn(tasks[..|tasks| - 1], at, ring); }
  }

  lemma OnlyOwner(tasks: seq<Task>, i: nat, j: nat, at: nat, ring: nat)
    requires ring > 0 && i < |tasks| && j < |tasks| && Total(tasks, Owning(at), ring) <= 1
    requires Owns(tasks[i]) && Index(tasks[i], ring) == at && Owns(tasks[j]) && Index(tasks[j], ring) == at
    ensures i == j
  {
    if i != j {
      TaskMoves(tasks, i, Idle, Owning(at), ring);
      TaskMoves(tasks[i := Idle], j, Idle, Owning(at), ring);
    }
  }

  function Cells(slots: seq<Slot>): nat
    decreases |slots|
  {
    if slots == [] then 0
    else Cells(slots[..|slots| - 1]) + (if slots[|slots| - 1].response.Some? then 1 else 0)
  }

  lemma {:induction false} CellMoves(slots: seq<Slot>, at: nat, slot: Slot)
    requires at < |slots|
    ensures Cells(slots[at := slot]) + (if slots[at].response.Some? then 1 else 0) ==
      Cells(slots) + (if slot.response.Some? then 1 else 0)
    decreases |slots|
  {
    var n := |slots| - 1;
    if at == n {
      assert slots[at := slot][..n] == slots[..n];
    } else {
      CellMoves(slots[..n], at, slot);
      assert slots[at := slot][..n] == slots[..n][at := slot];
    }
  }

  // ---------------------------------------------------------------- the invariants

  predicate SlotOk(slot: Slot, owners: nat, fillers: nat) {
    owners == (if slot.phase.Writing? then 1 else 0) &&
    fillers + (if slot.phase.Ready? then 1 else 0) == (if slot.response.Some? then 1 else 0) &&
    (slot.response.Some? ==> slot.response.value.cid == slot.id) && (slot.hushed ==> slot.phase.Ready?)
  }

  predicate SlotsOk(slots: seq<Slot>, tasks: seq<Task>)
    requires |slots| > 0
  {
    forall at | 0 <= at < |slots| ::
      SlotOk(slots[at], Total(tasks, Owning(at), |slots|), Total(tasks, Filling(at), |slots|))
  }

  /** The reply a closing completion is about to publish is the one it wrote. */
  predicate WroteOwn(slot: Slot, t: Task)
    requires t.Closing?
  {
    t.job.Complete? && t.job.reply.Some? ==> slot.response == Some(Reply(t.id, t.job.reply.value))
  }

  /** A task past the comparison owns a slot that carries its id; a result carries the waiter's id. */
  predicate TaskOk(t: Task, slots: seq<Slot>)
    requires |slots| > 0
  {
    (Touches(t) ==> Index(t, |slots|) < |slots|) &&
    (t.Acting? || t.Closing? ==> slots[Index(t, |slots|)].id == t.id) &&
    (t.Restoring? ==> slots[Index(t, |slots|)].id != t.id) &&
    (t.Acting? ==> FromReady(t.job) || (t.job.Complete? && t.job.reply.Some?)) &&
    (t.Closing? && t.job.Take? ==> t.got.Some? && t.got.value.cid == t.id) &&
    (t.Closing? ==> WroteOwn(slots[Index(t, |slots|)], t)) &&
    (t.Ended? && t.outcome.Got? ==> t.outcome.reply.cid == t.id) &&
    (t.Ringing? && t.next.ThenEnded? ==> t.next.outcome.Dropped?)
  }

  predicate TasksOk(tasks: seq<Task>, slots: seq<Slot>)
    requires |slots| > 0
  {
    forall i | 0 <= i < |tasks| :: TaskOk(tasks[i], slots)
  }

  predicate Booked(s: State) { s.published == s.taken + s.dropped + Cells(s.slots) && !s.faulted }

  predicate Inv(s: State) {
    |s.slots| > 0 && SlotsOk(s.slots, s.tasks) && TasksOk(s.tasks, s.slots) && Booked(s)
  }

  // ---------------------------------------------------------------- one access

  /** What a turn needs of its slot: the books, and that no other owner is filling the cell. */
  predicate TurnReady(slot: Slot, t: Task, at: nat, owners: nat, fillers: nat, ring: nat)
    requires ring > 0
  {
    SlotOk(slot, owners, fillers) && Touches(t) && Index(t, ring) == at < ring &&
    Weight(t, Owning(at), ring) <= owners && Weight(t, Filling(at), ring) <= fillers &&
    fillers - Weight(t, Filling(at), ring) <= owners - Weight(t, Owning(at), ring) &&
    (t.Acting? || t.Closing? ==> slot.id == t.id) &&
    (t.Acting? ==> FromReady(t.job) || (t.job.Complete? && t.job.reply.Some?)) &&
    (t.Closing? && t.job.Take? ==> t.got.Some? && t.got.value.cid == t.id) &&
    (t.Ringing? && t.next.ThenEnded? ==> t.next.outcome.Dropped?)
  }

  lemma TurnStays(slot: Slot, t: Task, me: nat, at: nat, ring: nat)
    requires ring > 0 && Touches(t) && Index(t, ring) == at < ring
    ensures var u := TurnOf(slot, t, me, at).task; Touches(u) ==> Index(u, ring) == at
  {
  }

  lemma TurnKeepsSlot(slot: Slot, t: Task, me: nat, at: nat, owners: nat, fillers: nat, ring: nat)
    requires ring > 0 && TurnReady(slot, t, at, owners, fillers, ring)
    ensures var turn := TurnOf(slot, t, me, at);
      SlotOk(turn.slot, owners - Weight(t, Owning(at), ring) + Weight(turn.task, Owning(at), ring),
             fillers - Weight(t, Filling(at), ring) + Weight(turn.task, Filling(at), ring))
  {
    TurnStays(slot, t, me, at, ring);
  }

  lemma TurnNeverFaults(slot: Slot, t: Task, me: nat, at: nat, owners: nat, fillers: nat, ring: nat)
    requires ring > 0 && TurnReady(slot, t, at, owners, fillers, ring)
    ensures var turn := TurnOf(slot, t, me, at);
      !Faults(turn.touch, slot.response) &&
      (if turn.slot.response.Some? then 1 else 0) + (if turn.touch.Read? || turn.touch.Freed? then 1 else 0) ==
      (if slot.response.Some? then 1 else 0) + (if turn.touch.Wrote? then 1 else 0)
  {
  }

  lemma TurnKeepsTask(slots: seq<Slot>, t: Task, me: nat, at: nat, owners: nat, fillers: nat)
    requires |slots| > 0 && at < |slots| && TurnReady(slots[at], t, at, owners, fillers, |slots|)
    ensures var turn := TurnOf(slots[at], t, me, at); TaskOk(turn.task, slots[at := turn.slot])
  {
    TurnStays(slots[at], t, me, at, |slots|);
  }

  predicate Same(a: Slot, b: Slot) { a.phase == b.phase && a.id == b.id && a.response == b.response }

  /** Nobody but its owner changes a slot that is being written. */
  lemma NonOwnerTurn(slot: Slot, t: Task, me: nat, at: nat)
    requires Touches(t) && !Owns(t) && slot.phase.Writing?
    ensures Same(TurnOf(slot, t, me, at).slot, slot)
  {
  }

  // ---------------------------------------------------------------- every step

  lemma CanTurn(s: State, i: nat)
    requires Inv(s) && Enabled(s, Act(i)) && !s.tasks[i].Fetching?
    ensures var at := Index(s.tasks[i], |s.slots|);
      TurnReady(s.slots[at], s.tasks[i], at, Total(s.tasks, Owning(at), |s.slots|),
        Total(s.tasks, Filling(at), |s.slots|), |s.slots|)
  {
    var ring := |s.slots|;
    var at := Index(s.tasks[i], ring);
    TaskMoves(s.tasks, i, Idle, Owning(at), ring);
    TaskMoves(s.tasks, i, Idle, Filling(at), ring);
    FillersOwn(s.tasks[i := Idle], at, ring);
    assert TaskOk(s.tasks[i], s.slots);
  }

  /** Tasks that change without touching a slot weigh nothing before and after. */
  lemma QuietKeepsInv(s: State, i: nat, t: Task, fetched: nat)
    requires Inv(s) && i < |s.tasks| && !Owns(s.tasks[i]) && !Owns(t) && TaskOk(t, s.slots)
    ensures Inv(s.(tasks := s.tasks[i := t], fetched := fetched))
  {
    forall at | 0 <= at < |s.slots|
      ensures SlotOk(s.slots[at], Total(s.tasks[i := t], Owning(at), |s.slots|),
        Total(s.tasks[i := t], Filling(at), |s.slots|))
    {
      TaskMoves(s.tasks, i, t, Owning(at), |s.slots|);
      TaskMoves(s.tasks, i, t, Filling(at), |s.slots|);
    }
  }

  lemma TurnKeepsSlots(s: State, i: nat)
    requires Inv(s) && Enabled(s, Act(i)) && !s.tasks[i].Fetching?
    ensures var t := Apply(s, Act(i)); SlotsOk(t.slots, t.tasks)
  {
    var ring := |s.slots|;
    var at := Index(s.tasks[i], ring);
    var turn := TurnOf(s.slots[at], s.tasks[i], i, at);
    var moved := s.tasks[i := turn.task];
    var t := Apply(s, Act(i));
    CanTurn(s, i);
    TurnKeepsSlot(s.slots[at], s.tasks[i], i, at, Total(s.tasks, Owning(at), ring), Total(s.tasks, Filling(at), ring),
      ring);
    TurnStays(s.slots[at], s.tasks[i], i, at, ring);
    forall b | 0 <= b < ring
      ensures SlotOk(t.slots[b], Total(t.tasks, Owning(b), ring), Total(t.tasks, Filling(b), ring))
    {
      TaskMoves(s.tasks, i, turn.task, Owning(b), ring);
      TaskMoves(s.tasks, i, turn.task, Filling(b), ring);
      WakeWeighsNothing(moved, if turn.wakes then s.slots[at].waker else None, Owning(b), ring);
      WakeWeighsNothing(moved, if turn.wakes then s.slots[at].waker else None, Filling(b), ring);
    }
  }

  /** Somebody else's access to an owned slot. */
  lemma OwnerElsewhere(s: State, i: nat, k: nat, at: nat)
    requires Inv(s) && i < |s.tasks| && k < |s.tasks| && i != k && at < |s.slots|
    requires Owns(s.tasks[k]) && Index(s.tasks[k], |s.slots|) == at
    requires Touches(s.tasks[i]) && Index(s.tasks[i], |s.slots|) == at
    ensures !Owns(s.tasks[i]) && Same(TurnOf(s.slots[at], s.tasks[i], i, at).slot, s.slots[at])
  {
    assert SlotOk(s.slots[at], Total(s.tasks, Owning(at), |s.slots|), Total(s.tasks, Filling(at), |s.slots|));
    TaskMoves(s.tasks, k, Idle, Owning(at), |s.slots|);
    if Owns(s.tasks[i]) { OnlyOwner(s.tasks, i, k, at, |s.slots|); }
    NonOwnerTurn(s.slots[at], s.tasks[i], i, at);
  }

  lemma TurnKeepsTasks(s: State, i: nat)
    requires Inv(s) && Enabled(s, Act(i)) && !s.tasks[i].Fetching?
    ensures var t := Apply(s, Act(i)); TasksOk(t.tasks, t.slots)
  {
    var ring := |s.slots|;
    var at := Index(s.tasks[i], ring);
    var turn := TurnOf(s.slots[at], s.tasks[i], i, at);
    var slots := s.slots[at := turn.slot];
    CanTurn(s, i);
    TurnKeepsTask(s.slots, s.tasks[i], i, at, Total(s.tasks, Owning(at), ring), Total(s.tasks, Filling(at), ring));
    var moved := s.tasks[i := turn.task];
    forall k | 0 <= k < |moved| ensures TaskOk(moved[k], slots) {
      if k != i {
        assert TaskOk(s.tasks[k], s.slots);
        if Owns(s.tasks[k]) && Index(s.tasks[k], ring) == at { OwnerElsewhere(s, i, k, at); }
      }
    }
    WakeKeepsTasks(moved, if turn.wakes then s.slots[at].waker else None, slots);
  }

  lemma WakeKeepsTasks(tasks: seq<Task>, waker: Option<nat>, slots: seq<Slot>)
    requires |slots| > 0 && TasksOk(tasks, slots)
    ensures TasksOk(Wake(tasks, waker), slots)
  {
    forall k | 0 <= k < |tasks| ensures TaskOk(Wake(tasks, waker)[k], slots) { assert TaskOk(tasks[k], slots); }
  }

  lemma TurnKeepsBooks(s: State, i: nat)
    requires Inv(s) && Enabled(s, Act(i)) && !s.tasks[i].Fetching?
    ensures Booked(Apply(s, Act(i)))
  {
    var ring := |s.slots|;
    var at := Index(s.tasks[i], ring);
    var turn := TurnOf(s.slots[at], s.tasks[i], i, at);
    CanTurn(s, i);
    TurnNeverFaults(s.slots[at], s.tasks[i], i, at, Total(s.tasks, Owning(at), ring),
      Total(s.tasks, Filling(at), ring), ring);
    CellMoves(s.slots, at, turn.slot);
  }

  lemma StepKeepsInv(s: State, step: Step)
    requires Inv(s) && Enabled(s, step)
    ensures Inv(Apply(s, step))
  {
    var t := s.tasks[step.task];
    assert TaskOk(t, s.slots);
    if step.Choose? {
      QuietKeepsInv(s, step.task, Chosen(t, step.choice, |s.slots|), s.fetched);
    } else if t.Fetching? {
      var u := Fetch(s, step.task, t.tries);
      QuietKeepsInv(s, step.task, u.tasks[step.task], u.fetched);
    } else {
      TurnKeepsSlots(s, step.task);
      TurnKeepsTasks(s, step.task);
      TurnKeepsBooks(s, step.task);
    }
  }

  lemma {:induction false} RunInv(s: State, run: seq<Step>)
    requires Inv(s)
    ensures After(s, run).Some? ==> Inv(After(s, run).value)
    decreases |run|
  {
    if run != [] {
      RunInv(s, run[..|run| - 1]);
      var t := After(s, run[..|run| - 1]);
      if t.Some? && Enabled(t.value, run[|run| - 1]) { StepKeepsInv(t.value, run[|run| - 1]); }
    }
  }

  lemma {:induction false} AtRest(tasks: seq<Task>, m: Measure, ring: nat)
    requires ring > 0 && forall i | 0 <= i < |tasks| :: tasks[i].Idle?
    ensures Total(tasks, m, ring) == 0
    decreases |tasks|
  {
    if tasks != [] { AtRest(tasks[..|tasks| - 1], m, ring); }
  }

  lemma {:induction false} NoCells(slots: seq<Slot>)
    requires forall at | 0 <= at < |slots| :: slots[at].response.None?
    ensures Cells(slots) == 0
    decreases |slots|
  {
    if slots != [] { NoCells(slots[..|slots| - 1]); }
  }

  lemma InitInv(ring: nat, tasks: nat)
    requires ring > 0
    ensures Inv(Init(ring, tasks))
  {
    var s := Init(ring, tasks);
    NoCells(s.slots);
    forall at | 0 <= at < ring
      ensures SlotOk(s.slots[at], Total(s.tasks, Owning(at), ring), Total(s.tasks, Filling(at), ring))
    {
      AtRest(s.tasks, Owning(at), ring);
      AtRest(s.tasks, Filling(at), ring);
    }
  }

  // ---------------------------------------------------------------- over whole runs

  ghost predicate Reaches(ring: nat, tasks: nat, run: seq<Step>, s: State) {
    ring > 0 && After(Init(ring, tasks), run) == Some(s)
  }

  /**
   However allocations, completions, polls, timeouts, guard drops and teardown interleave on
   aliasing ids: no uninitialised cell is read or dropped and no reply is overwritten, a slot
   being written has exactly one owner, and a published reply is taken once, dropped once, or
   still stored.
   */
  lemma MemorySafe(ring: nat, tasks: nat, run: seq<Step>, s: State)
    requires Reaches(ring, tasks, run, s)
    ensures !s.faulted && s.published == s.taken + s.dropped + Cells(s.slots)
    ensures forall i, j | 0 <= i < |s.tasks| && 0 <= j < |s.tasks| && Owns(s.tasks[i]) && Owns(s.tasks[j]) ::
      Index(s.tasks[i], ring) == Index(s.tasks[j], ring) ==> i == j
  {
    InitInv(ring, tasks);
    RunInv(Init(ring, tasks), run);
    RingSize(Init(ring, tasks), run);
    forall i, j | 0 <= i < |s.tasks| && 0 <= j < |s.tasks| && Owns(s.tasks[i]) && Owns(s.tasks[j]) &&
                  Index(s.tasks[i], ring) == Index(s.tasks[j], ring)
      ensures i == j
    {
      var at := Index(s.tasks[i], ring);
      assert TaskOk(s.tasks[i], s.slots);
      assert SlotOk(s.slots[at], Total(s.tasks, Owning(at), ring), Total(s.tasks, Filling(at), ring));
      OnlyOwner(s.tasks, i, j, at, ring);
    }
  }

  lemma {:induction false} RingSize(s: State, run: seq<Step>)
    ensures After(s, run).Some? ==> |After(s, run).value.slots| == |s.slots| && |After(s, run).value.tasks| == |s.tasks|
    decreases |run|
  {
    if run != [] { RingSize(s, run[..|run| - 1]); }
  }

  /** A waiter only ever receives a value that somebody completed its own full id with in this run. */
  lemma RightReply(ring: nat, tasks: nat, run: seq<Step>, s: State, i: nat)
    requires Reaches(ring, tasks, run, s) && i < |s.tasks| && s.tasks[i].Ended? && s.tasks[i].outcome.Got?
    ensures s.tasks[i].outcome.reply.cid == s.tasks[i].id
    ensures exists k | 0 <= k < |run| ::
      run[k].Choose? && run[k].choice == Finish(s.tasks[i].id, Some(s.tasks[i].outcome.reply.value))
  {
    var r := s.tasks[i].outcome.reply;
    ReplyWasSent(ring, tasks, run, s, i, r);
    var k :| 0 <= k < |run| && Sends(run[k], r);
    InitInv(ring, tasks);
    RunInv(Init(ring, tasks), run);
    assert TaskOk(s.tasks[i], s.slots);
  }

  // ---------------------------------------------------------------- ownership freezes a slot

  lemma OthersLeaveIt(s: State, step: Step, i: nat)
    requires Inv(s) && Enabled(s, step) && i < |s.tasks| && Owns(s.tasks[i]) && step.task != i
    ensures var at := Index(s.tasks[i], |s.slots|);
      at < |s.slots| && Same(Apply(s, step).slots[at], s.slots[at]) && Apply(s, step).tasks[i] == s.tasks[i]
  {
    var at := Index(s.tasks[i], |s.slots|);
    assert TaskOk(s.tasks[i], s.slots);
    var t := s.tasks[step.task];
    if step.Act? && !t.Fetching? && Index(t, |s.slots|) == at { OwnerElsewhere(s, step.task, i, at); }
  }

  /** While a task owns a slot, no run of the others changes its phase, id or reply. */
  lemma {:induction false} OwnedIsFrozen(s: State, run: seq<Step>, i: nat)
    requires Inv(s) && i < |s.tasks| && Owns(s.tasks[i]) && After(s, run).Some?
    requires forall k | 0 <= k < |run| :: run[k].task != i
    ensures var t := After(s, run).value;
      var at := Index(s.tasks[i], |s.slots|);
      |t.slots| == |s.slots| && at < |s.slots| && |t.tasks| == |s.tasks| &&
      Same(t.slots[at], s.slots[at]) && t.tasks[i] == s.tasks[i]
    decreases |run|
  {
    RingSize(s, run);
    if run == [] {
      assert TaskOk(s.tasks[i], s.slots);
    } else {
      var n := |run| - 1;
      OwnedIsFrozen(s, run[..n], i);
      RunInv(s, run[..n]);
      OthersLeaveIt(After(s, run[..n]).value, run[n], i);
    }
  }
}
