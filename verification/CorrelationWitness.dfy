/** Runs on the full ring in which the tracker's promises fail. */
module CorrelationWitness {
  import opened Common
  import opened Correlation
  import opened CorrelationSafety
  import opened CorrelationWakeups
  import opened CorrelationLeaks

  const RING := PENDING_RESPONSES_SIZE

  function Open(id: U32): Slot { Slot(Waiting, id, None, None, false) }

  function Free(id: U32): Slot { Slot(Empty, id, None, None, false) }

  lemma Extend(start: State, run: seq<Step>, s: State, step: Step) returns (run': seq<Step>, s': State)
    requires After(start, run) == Some(s) && Enabled(s, step)
    ensures run' == run + [step] && s' == Apply(s, step) && After(start, run') == Some(s')
  {
    run', s' := run + [step], Apply(s, step);
    assert run'[..|run'| - 1] == run;
  }

  lemma Overwritten<T>(xs: seq<T>, i: nat, a: T, b: T)
    requires i < |xs|
    ensures xs[i := a][i := b] == xs[i := b]
  {
  }

  /** One access that leaves the response cell alone and wakes nobody. */
  lemma Go(start: State, run: seq<Step>, s: State, i: nat, at: nat, slot: Slot, task: Task)
    returns (run': seq<Step>, s': State)
    requires AtRing(start, run, s) && i < |s.tasks| && Touches(s.tasks[i]) && Index(s.tasks[i], RING) == at < RING
    requires var turn := TurnOf(s.slots[at], s.tasks[i], i, at);
      turn.slot == slot && turn.task == task && turn.touch.NoTouch? && (turn.wakes ==> s.slots[at].waker.None?)
    ensures AtRing(start, run', s') && run' == run + [Act(i)]
    ensures s' == s.(slots := s.slots[at := slot], tasks := s.tasks[i := task],
                     hushes := s.hushes + if Hushes(s.tasks[i]) then 1 else 0)
  {
    run', s' := Extend(start, run, s, Act(i));
  }

  lemma Pick(start: State, run: seq<Step>, s: State, i: nat, choice: Choice, task: Task)
    returns (run': seq<Step>, s': State)
    requires AtRing(start, run, s) && i < |s.tasks| && Allows(s.tasks[i], choice, RING) &&
      Chosen(s.tasks[i], choice, RING) == task
    ensures AtRing(start, run', s') && run' == run + [Choose(i, choice)] && s' == s.(tasks := s.tasks[i := task])
  {
    run', s' := Extend(start, run, s, Choose(i, choice));
  }

  predicate AtRing(start: State, run: seq<Step>, s: State) { After(start, run) == Some(s) && |s.slots| == RING }

  lemma Claim(start: State, run: seq<Step>, s: State, i: nat) returns (run': seq<Step>, s': State)
    requires AtRing(start, run, s) && i < |s.tasks| && s.tasks[i].Idle? && 0 < s.fetched < U32_LIMIT
    ensures AtRing(start, run', s') && run <= run'
    ensures s' == s.(fetched := s.fetched + 1, tasks := s.tasks[i := Claiming(s.fetched, RING - 1)])
  {
    run', s' := Pick(start, run, s, i, Allocate, Fetching(RING));
    run', s' := FetchOne(start, run', s', i);
    assert s'.tasks == s.tasks[i := Claiming(s.fetched, RING - 1)];
  }

  lemma FetchOne(start: State, run: seq<Step>, s: State, i: nat) returns (run': seq<Step>, s': State)
    requires AtRing(start, run, s) && i < |s.tasks| && s.tasks[i] == Fetching(RING) && 0 < s.fetched < U32_LIMIT
    ensures AtRing(start, run', s') && run' == run + [Act(i)]
    ensures s' == s.(fetched := s.fetched + 1, tasks := s.tasks[i := Claiming(s.fetched, RING - 1)])
  {
    run', s' := Extend(start, run, s, Act(i));
  }

  /** A whole allocation by an idle task. */
  lemma AllocateOne(start: State, run: seq<Step>, s: State, i: nat) returns (run': seq<Step>, s': State)
    requires AtRing(start, run, s) && i < |s.tasks| && s.tasks[i].Idle? && 0 < s.fetched < U32_LIMIT
    requires s.slots[s.fetched % RING].phase.Empty? && s.slots[s.fetched % RING].response.None?
    requires s.slots[s.fetched % RING].waker.None?
    ensures AtRing(start, run', s') && run <= run'
    ensures s' == s.(fetched := s.fetched + 1, tasks := s.tasks[i := Held(s.fetched)],
                     slots := s.slots[s.fetched % RING := Open(s.fetched)])
  {
    var id := s.fetched;
    var at := id % RING;
    run', s' := Claim(start, run, s, i);
    run', s' := InstallOne(start, run', s', i, id);
    run', s' := Go(start, run', s', i, at, Open(id), Held(id));
    assert s'.tasks == s.tasks[i := Held(id)];
    assert s'.slots == s.slots[at := Open(id)];
  }

  lemma InstallOne(start: State, run: seq<Step>, s: State, i: nat, id: U32) returns (run': seq<Step>, s': State)
    requires AtRing(start, run, s) && i < |s.tasks| && s.tasks[i] == Claiming(id, RING - 1)
    requires s.slots[id % RING].phase.Empty? && s.slots[id % RING].response.None? && s.slots[id % RING].waker.None?
    ensures AtRing(start, run', s') && run <= run'
    ensures s' == s.(tasks := s.tasks[i := Opening(id)], slots := s.slots[id % RING := Open(id).(phase := Writing)])
  {
    var at := id % RING;
    var slot := Stored(s.slots[at], Writing);
    run', s' := Go(start, run, s, i, at, slot, Installing(id));
    assert s'.slots[at] == slot && s'.tasks[i] == Installing(id);
    run', s' := Go(start, run', s', i, at, slot.(id := id), Opening(id));
    Overwritten(s.tasks, i, Installing(id), Opening(id));
    Overwritten(s.slots, at, slot, slot.(id := id));
  }

  /** Dropping the guard of a request nobody else touches. */
  lemma CancelOne(start: State, run: seq<Step>, s: State, i: nat, id: U32) returns (run': seq<Step>, s': State)
    requires AtRing(start, run, s) && i < |s.tasks| && s.tasks[i] == Held(id) && s.slots[id % RING] == Open(id)
    ensures AtRing(start, run', s') && run <= run'
    ensures s' == s.(tasks := s.tasks[i := Idle], slots := s.slots[id % RING := Free(id)])
  {
    var at := id % RING;
    run', s' := SeizeOne(start, run, s, i, id);
    run', s' := Go(start, run', s', i, at, Open(id).(phase := Writing), Closing(id, Cancel(false), None));
    run', s' := CloseOne(start, run', s', i, id);
    assert s'.tasks == s.tasks[i := Idle];
    assert s'.slots == s.slots[at := Free(id)];
  }

  lemma CloseOne(start: State, run: seq<Step>, s: State, i: nat, id: U32) returns (run': seq<Step>, s': State)
    requires AtRing(start, run, s) && i < |s.tasks| && s.tasks[i] == Closing(id, Cancel(false), None)
    requires s.slots[id % RING] == Open(id).(phase := Writing)
    ensures AtRing(start, run', s') && run <= run'
    ensures s' == s.(tasks := s.tasks[i := Idle], slots := s.slots[id % RING := Free(id)])
  {
    var at := id % RING;
    run', s' := Go(start, run, s, i, at, Free(id), Ringing(at, ThenIdle));
    run', s' := Go(start, run', s', i, at, Free(id), Idle);
    assert s'.tasks == s.tasks[i := Idle];
    assert s'.slots == s.slots[at := Free(id)];
  }

  lemma SeizeOne(start: State, run: seq<Step>, s: State, i: nat, id: U32) returns (run': seq<Step>, s': State)
    requires AtRing(start, run, s) && i < |s.tasks| && s.tasks[i] == Held(id) && s.slots[id % RING] == Open(id)
    ensures AtRing(start, run', s') && run <= run'
    ensures s' == s.(tasks := s.tasks[i := Comparing(id, Cancel(false))],
                     slots := s.slots[id % RING := Open(id).(phase := Writing)])
  {
    var at := id % RING;
    run', s' := Pick(start, run, s, i, DropGuard, Cancelling(id));
    run', s' := Go(start, run', s', i, at, Open(id), Seizing(id, false));
    run', s' := Go(start, run', s', i, at, Open(id).(phase := Writing), Comparing(id, Cancel(false)));
    assert s'.tasks == s.tasks[i := Comparing(id, Cancel(false))];
    assert s'.slots == s.slots[at := Open(id).(phase := Writing)];
  }

  predicate Occupied(slot: Slot, id: U32) { (slot.phase.Waiting? || slot.phase.Writing?) && slot.id == id }

  /** A waiter looks at an occupied slot of its own and registers. */
  lemma Enrolls(start: State, run: seq<Step>, s: State, i: nat, id: U32, limited: bool)
    returns (run': seq<Step>, s': State)
    requires AtRing(start, run, s) && i < |s.tasks| && s.tasks[i] == Polling(id, limited, First, false)
    requires Occupied(s.slots[id % RING], id)
    ensures AtRing(start, run', s') && run <= run'
    ensures s' == s.(tasks := s.tasks[i := Polling(id, limited, Second, false)],
                     slots := s.slots[id % RING := s.slots[id % RING].(waker := Some(i))])
  {
    var at, slot := id % RING, s.slots[id % RING];
    run', s' := Looks(start, run, s, i, id, limited);
    run', s' := Go(start, run', s', i, at, slot.(waker := Some(i)), Polling(id, limited, Second, false));
    assert s'.tasks == s.tasks[i := Polling(id, limited, Second, false)];
  }

  lemma Looks(start: State, run: seq<Step>, s: State, i: nat, id: U32, limited: bool)
    returns (run': seq<Step>, s': State)
    requires AtRing(start, run, s) && i < |s.tasks| && s.tasks[i] == Polling(id, limited, First, false)
    requires Occupied(s.slots[id % RING], id)
    ensures AtRing(start, run', s') && run <= run' && s' == s.(tasks := s.tasks[i := Enrolling(id, limited)])
  {
    var at, slot := id % RING, s.slots[id % RING];
    run', s' := Go(start, run, s, i, at, slot, Looking(id, limited, First, false));
    assert s'.slots == s.slots && s'.tasks[i] == Looking(id, limited, First, false);
    run', s' := Go(start, run', s', i, at, slot, Enrolling(id, limited));
    Overwritten(s.tasks, i, Looking(id, limited, First, false), Enrolling(id, limited));
    assert s'.slots == s.slots;
  }

  /** It looks again, sees no change, and parks. */
  lemma Parks(start: State, run: seq<Step>, s: State, i: nat, id: U32, limited: bool)
    returns (run': seq<Step>, s': State)
    requires AtRing(start, run, s) && i < |s.tasks| && s.tasks[i] == Polling(id, limited, Second, false)
    requires Occupied(s.slots[id % RING], id)
    ensures AtRing(start, run', s') && run <= run' && s' == s.(tasks := s.tasks[i := Parked(id, limited, false)])
  {
    var at, slot := id % RING, s.slots[id % RING];
    run', s' := Go(start, run, s, i, at, slot, Looking(id, limited, Second, false));
    run', s' := Go(start, run', s', i, at, slot, Parked(id, limited, false));
    assert s'.tasks == s.tasks[i := Parked(id, limited, false)];
    assert s'.slots == s.slots;
  }

  /** Its limit passes while somebody writes the slot, and its last try finds nothing. */
  lemma LastTry(start: State, run: seq<Step>, s: State, i: nat, id: U32) returns (run': seq<Step>, s': State)
    requires AtRing(start, run, s) && i < |s.tasks| && s.tasks[i] == Parked(id, true, false)
    requires s.slots[id % RING].phase.Writing?
    ensures AtRing(start, run', s') && run <= run' && s' == s.(tasks := s.tasks[i := LastLook(id)])
  {
    run', s' := Pick(start, run, s, i, TimeOut, Expiring(id));
    run', s' := ExpiresLate(start, run', s', i, id);
    assert s'.tasks == s.tasks[i := LastLook(id)];
  }

  lemma ExpiresLate(start: State, run: seq<Step>, s: State, i: nat, id: U32) returns (run': seq<Step>, s': State)
    requires AtRing(start, run, s) && i < |s.tasks| && s.tasks[i] == Expiring(id) && s.slots[id % RING].phase.Writing?
    ensures AtRing(start, run', s') && run <= run' && s' == s.(tasks := s.tasks[i := LastLook(id)])
  {
    var at, slot := id % RING, s.slots[id % RING];
    run', s' := Go(start, run, s, i, at, slot, Polling(id, false, Final, false));
    run', s' := Go(start, run', s', i, at, slot, LastLook(id));
    assert s'.tasks == s.tasks[i := LastLook(id)];
    assert s'.slots == s.slots;
  }

  predicate Untouched(slot: Slot) { slot.phase.Empty? && slot.response.None? && slot.waker.None? }

  /** Requests come and go until ids have gone once round the ring. */
  lemma {:induction false} GoRound(start: State, run: seq<Step>, s: State, h: nat) returns (run': seq<Step>, s': State)
    requires AtRing(start, run, s) && h < |s.tasks| && s.tasks[h].Idle? && 1 < s.fetched <= RING + 1
    requires forall at | 0 <= at < RING && at != 1 :: Untouched(s.slots[at])
    ensures AtRing(start, run', s') && run <= run'
    ensures s'.tasks == s.tasks && s'.slots[1] == s.slots[1] && s'.fetched == RING + 1 && s'.hushes == s.hushes
    ensures s'.published == s.published
    decreases RING + 1 - s.fetched
  {
    if s.fetched == RING + 1 {
      run', s' := run, s;
    } else {
      run', s' := AllocateOne(start, run, s, h);
      run', s' := CancelOne(start, run', s', h, s.fetched);
      assert s'.tasks == s.tasks;
      run', s' := GoRound(start, run', s', h);
    }
  }

  /** The connection's teardown frees the first request's slot while its guard is still to be dropped. */
  lemma StaleGuard() returns (start: State, run: seq<Step>, s: State)
    ensures start == Init(RING, 4) && AtRing(start, run, s)
    ensures s.tasks == [Cancelling(1), Idle, Idle, Idle] && s.slots[1] == Free(1) && s.fetched == 2
    ensures s.hushes == 0 && s.published == 0
    ensures forall at | 0 <= at < RING && at != 1 :: s.slots[at] == Free(0)
  {
    start := Init(RING, 4);
    run, s := [], start;
    assert start.tasks == [Idle, Idle, Idle, Idle];
    run, s := AllocateOne(start, run, s, 0);
    run, s := Pick(start, run, s, 0, DropGuard, Cancelling(1));
    assert s.tasks == [Cancelling(1), Idle, Idle, Idle];
    run, s := SweepOne(start, run, s);
  }

  lemma SweepOne(start: State, run: seq<Step>, s: State) returns (run': seq<Step>, s': State)
    requires AtRing(start, run, s) && |s.tasks| == 4 && s.tasks[2].Idle? && s.slots[1] == Open(1)
    ensures AtRing(start, run', s') && s' == s.(slots := s.slots[1 := Free(1)])
  {
    run', s' := SweepStarts(start, run, s);
    run', s' := Go(start, run', s', 2, 1, Free(1), Ringing(1, ThenIdle));
    run', s' := Go(start, run', s', 2, 1, Free(1), Idle);
    assert s'.tasks == s.tasks;
    assert s'.slots == s.slots[1 := Free(1)];
  }

  lemma SweepStarts(start: State, run: seq<Step>, s: State) returns (run': seq<Step>, s': State)
    requires AtRing(start, run, s) && |s.tasks| == 4 && s.tasks[2].Idle? && s.slots[1] == Open(1)
    ensures AtRing(start, run', s') && s' == s.(tasks := s.tasks[2 := Clearing(1, false)])
  {
    run', s' := Pick(start, run, s, 2, CancelSlot(1), Sweeping(1));
    run', s' := Go(start, run', s', 2, 1, Open(1), Clearing(1, false));
    assert s'.tasks == s.tasks[2 := Clearing(1, false)];
    assert s'.slots == s.slots;
  }

  /** A second request, whose id is the ring size larger, now has the slot. */
  lemma Recycled() returns (start: State, run: seq<Step>, s: State)
    ensures start == Init(RING, 4) && AtRing(start, run, s)
    ensures s.tasks == [Cancelling(1), Held(RING + 1), Idle, Idle] && s.slots[1] == Open(RING + 1) &&
      s.fetched == RING + 2
    ensures s.hushes == 0 && s.published == 0
  {
    start, run, s := StaleGuard();
    run, s := GoRound(start, run, s, 3);
    run, s := AllocateOne(start, run, s, 1);
    assert s.tasks == [Cancelling(1), Held(RING + 1), Idle, Idle];
  }

  // ---------------------------------------------------------------- a reply nobody is woken for

  const REPLIED := Slot(Ready, RING + 1, Some(Reply(RING + 1, 7)), None, false)

  /** A completion for the second request reaches its slot. */
  lemma Delivering() returns (start: State, run: seq<Step>, s: State)
    ensures start == Init(RING, 4) && AtRing(start, run, s) && s.fetched == RING + 2
    ensures s.tasks == [Cancelling(1), Held(RING + 1), Acting(RING + 1, Complete(Some(7))), Idle]
    ensures s.slots[1] == Open(RING + 1).(phase := Writing)
  {
    start, run, s := Recycled();
    var busy := Open(RING + 1).(phase := Writing);
    run, s := Pick(start, run, s, 2, Finish(RING + 1, Some(7)), Completing(RING + 1, Some(7)));
    run, s := Go(start, run, s, 2, 1, busy, Comparing(RING + 1, Complete(Some(7))));
    run, s := Go(start, run, s, 2, 1, busy, Acting(RING + 1, Complete(Some(7))));
  }

  lemma Written() returns (start: State, run: seq<Step>, s: State)
    ensures start == Init(RING, 4) && AtRing(start, run, s) && s.fetched == RING + 2
    ensures s.tasks == [Cancelling(1), Held(RING + 1), Closing(RING + 1, Complete(Some(7)), None), Idle]
    ensures s.slots[1] == REPLIED.(phase := Writing)
  {
    start, run, s := Delivering();
    run, s := Extend(start, run, s, Act(2));
    assert s.tasks == [Cancelling(1), Held(RING + 1), Closing(RING + 1, Complete(Some(7)), None), Idle];
  }

  /** The second request's reply is published before it waits. */
  lemma Published() returns (start: State, run: seq<Step>, s: State)
    ensures start == Init(RING, 4) && AtRing(start, run, s) && s.fetched == RING + 2
    ensures s.tasks == [Cancelling(1), Held(RING + 1), Idle, Idle] && s.slots[1] == REPLIED
  {
    start, run, s := Written();
    run, s := Go(start, run, s, 2, 1, REPLIED, Ringing(1, ThenIdle));
    run, s := Go(start, run, s, 2, 1, REPLIED, Idle);
    assert s.tasks == [Cancelling(1), Held(RING + 1), Idle, Idle];
  }

  /** The stale guard drop seizes the ready slot. */
  lemma Seized() returns (start: State, run: seq<Step>, s: State)
    ensures start == Init(RING, 4) && AtRing(start, run, s) && s.fetched == RING + 2
    ensures s.tasks == [Comparing(1, Cancel(true)), Held(RING + 1), Idle, Idle] &&
      s.slots[1] == REPLIED.(phase := Writing)
  {
    start, run, s := Published();
    run, s := Go(start, run, s, 0, 1, REPLIED, Seizing(1, true));
    run, s := Go(start, run, s, 0, 1, REPLIED.(phase := Writing), Comparing(1, Cancel(true)));
  }

  /** The waiter looks, sees the slot being written, and registers. */
  lemma Registers() returns (start: State, run: seq<Step>, s: State)
    ensures start == Init(RING, 4) && AtRing(start, run, s) && s.fetched == RING + 2
    ensures s.tasks == [Comparing(1, Cancel(true)), Polling(RING + 1, false, Second, false), Idle, Idle]
    ensures s.slots[1] == REPLIED.(phase := Writing, waker := Some(1))
  {
    start, run, s := Seized();
    run, s := Pick(start, run, s, 1, Await(false), Polling(RING + 1, false, First, false));
    run, s := Enrolls(start, run, s, 1, RING + 1, false);
  }

  /** It looks again, sees no change, and parks. */
  lemma ParksMeanwhile() returns (start: State, run: seq<Step>, s: State)
    ensures start == Init(RING, 4) && AtRing(start, run, s) && s.fetched == RING + 2
    ensures s.tasks == [Comparing(1, Cancel(true)), Parked(RING + 1, false, false), Idle, Idle]
    ensures s.slots[1] == REPLIED.(phase := Writing, waker := Some(1))
  {
    start, run, s := Registers();
    run, s := Parks(start, run, s, 1, RING + 1, false);
  }

  /** Everybody is at rest, the waiter's own reply is ready, and no wake-up will come. */
  lemma StrandedWitness() returns (run: seq<Step>, s: State)
    ensures Reaches(RING, 4, run, s) && RunFresh(Init(RING, 4), run) && |s.slots| == RING
    ensures s.tasks == [Idle, Parked(RING + 1, false, false), Idle, Idle]
    ensures s.slots[(RING + 1) % RING].response == Some(Reply(RING + 1, 7)) && Stranded(s, 1)
  {
    var start: State;
    start, run, s := ParksMeanwhile();
    var watched := REPLIED.(phase := Writing, waker := Some(1));
    run, s := Go(start, run, s, 0, 1, watched, Restoring(1, Cancel(true)));
    run, s := Go(start, run, s, 0, 1, watched.(phase := Ready, hushed := true), Idle);
    assert s.tasks == [Idle, Parked(RING + 1, false, false), Idle, Idle];
    NobodyRings(s.tasks);
    FewIdsAreFresh(start, run, s);
  }

  lemma NobodyRings(tasks: seq<Task>)
    requires tasks == [Idle, Parked(RING + 1, false, false), Idle, Idle]
    ensures Total(tasks, Waking(1), RING) == 0
  {
    TaskMoves(tasks, 1, Idle, Waking(1), RING);
    AtRest(tasks[1 := Idle], Waking(1), RING);
  }

  // ---------------------------------------------------------------- a completion that misses its request

  lemma SeizedEarly() returns (start: State, run: seq<Step>, s: State)
    ensures start == Init(RING, 4) && AtRing(start, run, s) && s.published == 0
    ensures s.tasks == [Comparing(1, Cancel(false)), Held(RING + 1), Idle, Idle]
    ensures s.slots[1] == Open(RING + 1).(phase := Writing)
  {
    start, run, s := Recycled();
    run, s := Go(start, run, s, 0, 1, Open(RING + 1), Seizing(1, false));
    run, s := Go(start, run, s, 0, 1, Open(RING + 1).(phase := Writing), Comparing(1, Cancel(false)));
  }

  /**
   A completion for a waiting request finds the slot seized by the stale guard drop and reports
   failure; the slot is put back, and the request waits on with nothing published.
   */
  lemma MissedWitness() returns (before: seq<Step>, run: seq<Step>, s: State)
    ensures run == before + [Choose(2, Finish(RING + 1, Some(7))), Act(2), Act(0), Act(0)]
    ensures Reaches(RING, 4, run, s) && |s.slots| == RING
    ensures s.tasks == [Idle, Held(RING + 1), Idle, Idle] && s.published == 0
    ensures s.slots[(RING + 1) % RING] == Open(RING + 1)
  {
    var start: State;
    start, before, s := SeizedEarly();
    var busy := Open(RING + 1).(phase := Writing);
    run, s := Pick(start, before, s, 2, Finish(RING + 1, Some(7)), Completing(RING + 1, Some(7)));
    run, s := Go(start, run, s, 2, 1, busy, Idle);
    run, s := Go(start, run, s, 0, 1, busy, Restoring(1, Cancel(false)));
    run, s := Go(start, run, s, 0, 1, Open(RING + 1), Idle);
    assert s.tasks == [Idle, Held(RING + 1), Idle, Idle];
  }

  // ---------------------------------------------------------------- a slot left behind

  const HEARD := Open(1).(waker := Some(0))

  lemma FirstHeld() returns (start: State, run: seq<Step>, s: State)
    ensures start == Init(RING, 2) && AtRing(start, run, s) && s.fetched == 2
    ensures s.tasks == [Held(1), Idle] && s.slots[1] == Open(1)
  {
    start := Init(RING, 2);
    run, s := AllocateOne(start, [], start, 0);
    assert s.tasks == [Held(1), Idle];
  }

  /** A request with a limit waits. */
  lemma TimedWait() returns (start: State, run: seq<Step>, s: State)
    ensures start == Init(RING, 2) && AtRing(start, run, s) && s.fetched == 2
    ensures s.tasks == [Parked(1, true, false), Idle] && s.slots[1] == HEARD
  {
    start, run, s := FirstHeld();
    run, s := Pick(start, run, s, 0, Await(true), Polling(1, true, First, false));
    run, s := Enrolls(start, run, s, 0, 1, true);
    run, s := Parks(start, run, s, 0, 1, true);
    assert s.tasks == [Parked(1, true, false), Idle];
  }

  /** Its completion has compared ids and is about to write. */
  lemma CompletionUnderWay() returns (start: State, run: seq<Step>, s: State)
    ensures start == Init(RING, 2) && AtRing(start, run, s) && s.fetched == 2
    ensures s.tasks == [Parked(1, true, false), Acting(1, Complete(Some(7)))] && s.slots[1] == HEARD.(phase := Writing)
  {
    start, run, s := TimedWait();
    run, s := Pick(start, run, s, 1, Finish(1, Some(7)), Completing(1, Some(7)));
    run, s := Go(start, run, s, 1, 1, HEARD.(phase := Writing), Comparing(1, Complete(Some(7))));
    run, s := Go(start, run, s, 1, 1, HEARD.(phase := Writing), Acting(1, Complete(Some(7))));
    assert s.tasks == [Parked(1, true, false), Acting(1, Complete(Some(7)))];
  }

  /** The limit passes and the last try finds nothing; then the reply is written. */
  lemma JustTooLate() returns (start: State, run: seq<Step>, s: State)
    ensures start == Init(RING, 2) && AtRing(start, run, s) && s.fetched == 2
    ensures s.tasks == [LastLook(1), Closing(1, Complete(Some(7)), None)]
    ensures s.slots[1] == HEARD.(phase := Writing, response := Some(Reply(1, 7)))
  {
    start, run, s := CompletionUnderWay();
    run, s := LastTry(start, run, s, 0, 1);
    assert s.tasks == [LastLook(1), Acting(1, Complete(Some(7)))];
    run, s := Extend(start, run, s, Act(1));
    assert s.tasks == [LastLook(1), Closing(1, Complete(Some(7)), None)];
  }

  lemma GivenUp() returns (start: State, run: seq<Step>, s: State)
    ensures start == Init(RING, 2) && AtRing(start, run, s) && s.fetched == 2
    ensures s.tasks == [Idle, Ringing(1, ThenIdle)]
    ensures s.slots[1] == HEARD.(phase := Ready, response := Some(Reply(1, 7)))
  {
    start, run, s := JustTooLate();
    var ready := HEARD.(phase := Ready, response := Some(Reply(1, 7)));
    run, s := Go(start, run, s, 1, 1, ready, Ringing(1, ThenIdle));
    run, s := Go(start, run, s, 0, 1, ready, Ended(1, TimedOut));
    run, s := Pick(start, run, s, 0, Disarm, Idle);
    assert s.tasks == [Idle, Ringing(1, ThenIdle)];
  }

  /** The wait ends as timed out although its reply is ready, and is given up without a cancel. */
  lemma LeakedWitness() returns (run: seq<Step>, s: State)
    ensures Reaches(RING, 2, run, s) && RunFresh(Init(RING, 2), run) && |s.slots| == RING
    ensures s.tasks == [Idle, Idle] && s.slots[1].response == Some(Reply(1, 7)) && Leaked(s, 1)
  {
    var start: State;
    start, run, s := GivenUp();
    run, s := Extend(start, run, s, Act(1));
    assert s.tasks == [Idle, Idle];
    FewIdsAreFresh(start, run, s);
  }

  // ---------------------------------------------------------------- a limit that is lost

  const LISTED := Open(RING + 1).(waker := Some(1))

  /** The second request waits with a limit while the stale guard is still to be dropped. */
  lemma SecondWaits() returns (start: State, run: seq<Step>, s: State)
    ensures start == Init(RING, 4) && AtRing(start, run, s) && s.fetched == RING + 2
    ensures s.tasks == [Cancelling(1), Parked(RING + 1, true, false), Idle, Idle] && s.slots[1] == LISTED
  {
    start, run, s := Recycled();
    run, s := Pick(start, run, s, 1, Await(true), Polling(RING + 1, true, First, false));
    run, s := Enrolls(start, run, s, 1, RING + 1, true);
    run, s := Parks(start, run, s, 1, RING + 1, true);
  }

  /** The stale guard drop seizes the slot. */
  lemma SeizedWaiting() returns (start: State, run: seq<Step>, s: State)
    ensures start == Init(RING, 4) && AtRing(start, run, s) && s.fetched == RING + 2
    ensures s.tasks == [Comparing(1, Cancel(false)), Parked(RING + 1, true, false), Idle, Idle]
    ensures s.slots[1] == LISTED.(phase := Writing)
  {
    start, run, s := SecondWaits();
    run, s := Go(start, run, s, 0, 1, LISTED, Seizing(1, false));
    run, s := Go(start, run, s, 0, 1, LISTED.(phase := Writing), Comparing(1, Cancel(false)));
  }

  /** The limit passes, the last look finds the slot being written, and the wait starts over without a limit. */
  lemma StartsOver() returns (start: State, run: seq<Step>, s: State)
    ensures start == Init(RING, 4) && AtRing(start, run, s) && s.fetched == RING + 2
    ensures s.tasks == [Comparing(1, Cancel(false)), Parked(RING + 1, false, false), Idle, Idle]
    ensures s.slots[1] == LISTED.(phase := Writing)
  {
    start, run, s := SeizedWaiting();
    var id, busy := RING + 1, LISTED.(phase := Writing);
    run, s := LastTry(start, run, s, 1, id);
    run, s := Go(start, run, s, 1, 1, busy, Polling(id, false, First, false));
    run, s := Enrolls(start, run, s, 1, id, false);
    run, s := Parks(start, run, s, 1, id, false);
  }

  /** A wait that was given a limit is parked without one on a slot that merely waits. */
  lemma UnlimitedWitness() returns (run: seq<Step>, s: State)
    ensures Reaches(RING, 4, run, s) && RunFresh(Init(RING, 4), run) && |s.slots| == RING
    ensures s.tasks == [Idle, Parked(RING + 1, false, false), Idle, Idle] && s.slots[1] == LISTED
  {
    var start: State;
    start, run, s := StartsOver();
    run, s := Go(start, run, s, 0, 1, LISTED.(phase := Writing), Restoring(1, Cancel(false)));
    run, s := Go(start, run, s, 0, 1, LISTED, Idle);
    assert s.tasks == [Idle, Parked(RING + 1, false, false), Idle, Idle];
    FewIdsAreFresh(start, run, s);
  }
}
