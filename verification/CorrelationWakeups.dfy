/** Who will wake a parked waiter: every run, and the one way nobody does. */
module CorrelationWakeups {
  import opened Common
  import opened Correlation
  import opened CorrelationSafety

  // ---------------------------------------------------------------- ids are not shared

  /** The id a request was handed, while the request or its guard is alive. */
  function OwnId(t: Task): Option<U32> {
    if t.Idle? || t.Fetching? || t.Completing? || t.Sweeping? || t.Clearing? || t.Dumping? || t.Emptying? then None
    else if t.Comparing? || t.Restoring? || t.Acting? || t.Closing? then if t.job.Complete? then None else Some(t.id)
    else if t.Ringing? then if t.next.ThenIdle? then None else Some(t.next.id)
    else Some(t.id)
  }

  /** No two live requests have the same id. */
  predicate IdsOk(tasks: seq<Task>) {
    forall i, j | 0 <= i < j < |tasks| && OwnId(tasks[i]).Some? :: OwnId(tasks[i]) != OwnId(tasks[j])
  }

  /** The id the counter hands out next belongs to no live request. */
  predicate NextIsFresh(s: State) {
    forall i | 0 <= i < |s.tasks| :: OwnId(s.tasks[i]) != Some(s.fetched % U32_LIMIT)
  }

  predicate Fetches(s: State, step: Step) {
    step.Act? && step.task < |s.tasks| && s.tasks[step.task].Fetching? && s.tasks[step.task].tries > 0
  }

  /** Whenever an id was fetched it was fresh, however often the counter wrapped. */
  ghost predicate RunFresh(s: State, run: seq<Step>)
    decreases |run|
  {
    run == [] ||
    (RunFresh(s, run[..|run| - 1]) && After(s, run[..|run| - 1]).Some? &&
     var before := After(s, run[..|run| - 1]).value;
     (Fetches(before, run[|run| - 1]) ==> NextIsFresh(before)))
  }

  lemma TurnKeepsId(slot: Slot, t: Task, me: nat, at: nat)
    requires Touches(t)
    ensures var u := TurnOf(slot, t, me, at).task; OwnId(u) == OwnId(t) || OwnId(u).None?
  {
  }

  lemma WakeKeepsIds(tasks: seq<Task>, waker: Option<nat>)
    requires IdsOk(tasks)
    ensures IdsOk(Wake(tasks, waker))
  {
    var woken := Wake(tasks, waker);
    assert forall i | 0 <= i < |tasks| :: OwnId(woken[i]) == OwnId(tasks[i]);
  }

  lemma ReplaceKeepsIds(tasks: seq<Task>, i: nat, t: Task)
    requires IdsOk(tasks) && i < |tasks| && (OwnId(t) == OwnId(tasks[i]) || OwnId(t).None?)
    ensures IdsOk(tasks[i := t])
  {
  }

  lemma FetchKeepsIds(s: State, i: nat, tries: nat)
    requires IdsOk(s.tasks) && i < |s.tasks| && s.tasks[i] == Fetching(tries) && (tries > 0 ==> NextIsFresh(s))
    ensures IdsOk(Fetch(s, i, tries).tasks)
  {
  }

  // ---------------------------------------------------------------- listeners

  predicate Due(slot: Slot, rings: nat) { rings > 0 || slot.hushed }

  /**
   An unwoken listener is registered on a slot that is still its own, and a change it has not seen
   is due to be rung.
   */
  predicate ListenerOk(t: Task, me: nat, slot: Slot, rings: nat) {
    Listens(t) && !t.woken ==>
      slot.waker == Some(me) && slot.id == t.id &&
      (t.Looking? || t.Parked? ==> (slot.phase.Ready? ==> Due(slot, rings))) &&
      (t.Parked? ==> (slot.phase.Empty? ==> rings > 0))
  }

  predicate ListenersOk(tasks: seq<Task>, slots: seq<Slot>)
    requires |slots| > 0
  {
    forall i | 0 <= i < |tasks| && Listens(tasks[i]) ::
      ListenerOk(tasks[i], i, slots[tasks[i].id % |slots|], Total(tasks, Waking(tasks[i].id % |slots|), |slots|))
  }

  predicate HushesCounted(s: State) {
    s.hushes == 0 ==> forall at | 0 <= at < |s.slots| :: !s.slots[at].hushed
  }

  predicate WakeInv(s: State) {
    Inv(s) && IdsOk(s.tasks) && ListenersOk(s.tasks, s.slots) && HushesCounted(s)
  }

  // ---------------------------------------------------------------- one access

  /** The listener's own access. */
  lemma OwnTurnListens(slot: Slot, t: Task, me: nat, at: nat, rings: nat)
    requires Touches(t) && ListenerOk(t, me, slot, rings)
    ensures var turn := TurnOf(slot, t, me, at);
      !turn.wakes ==> ListenerOk(turn.task, me, turn.slot, rings)
    ensures var turn := TurnOf(slot, t, me, at); turn.wakes ==> !Listens(turn.task)
    ensures Listens(TurnOf(slot, t, me, at).task) ==> !t.Ringing?
  {
  }

  /** Somebody else's access to the listener's slot. */
  lemma OtherTurnListens(slot: Slot, t: Task, me: nat, at: nat, rings: nat, listener: Task, who: nat)
    requires Touches(t) && (t.Closing? ==> slot.id == t.id) && (t.Ringing? ==> rings > 0)
    requires Listens(listener) && ListenerOk(listener, who, slot, rings) && OwnId(t) != Some(listener.id) && who != me
    ensures var turn := TurnOf(slot, t, me, at);
      var now := (if t.Ringing? then rings - 1 else rings) + (if turn.task.Ringing? then 1 else 0);
      ListenerOk(if turn.wakes && slot.waker == Some(who) then Woken(listener) else listener, who, turn.slot, now)
  {
  }

  lemma TurnHushes(slot: Slot, t: Task, me: nat, at: nat)
    requires Touches(t) && TurnOf(slot, t, me, at).slot.hushed && !slot.hushed
    ensures Hushes(t)
  {
  }

  // ---------------------------------------------------------------- every step

  lemma RingsAfter(s: State, i: nat, b: nat)
    requires Inv(s) && Enabled(s, Act(i)) && !s.tasks[i].Fetching? && b < |s.slots|
    ensures var at := Index(s.tasks[i], |s.slots|);
      var turn := TurnOf(s.slots[at], s.tasks[i], i, at);
      Total(Apply(s, Act(i)).tasks, Waking(b), |s.slots|) ==
      Total(s.tasks, Waking(b), |s.slots|) -
      (if b == at && s.tasks[i].Ringing? then 1 else 0) + (if b == at && turn.task.Ringing? then 1 else 0)
    ensures Index(s.tasks[i], |s.slots|) == b && s.tasks[i].Ringing? ==> Total(s.tasks, Waking(b), |s.slots|) > 0
  {
    var ring := |s.slots|;
    var at := Index(s.tasks[i], ring);
    var turn := TurnOf(s.slots[at], s.tasks[i], i, at);
    TurnStays(s.slots[at], s.tasks[i], i, at, ring);
    TaskMoves(s.tasks, i, turn.task, Waking(b), ring);
    WakeWeighsNothing(s.tasks[i := turn.task], if turn.wakes then s.slots[at].waker else None, Waking(b), ring);
  }

  lemma ActorTask(s: State, i: nat)
    requires Enabled(s, Act(i)) && !s.tasks[i].Fetching? && Listens(Apply(s, Act(i)).tasks[i])
    ensures var at := Index(s.tasks[i], |s.slots|);
      var turn := TurnOf(s.slots[at], s.tasks[i], i, at);
      !turn.wakes && Apply(s, Act(i)).tasks[i] == turn.task && !s.tasks[i].Ringing? && !turn.task.Ringing? &&
      turn.task.id == s.tasks[i].id && at == s.tasks[i].id % |s.slots|
  {
  }

  lemma ActorListens(s: State, i: nat)
    requires WakeInv(s) && Enabled(s, Act(i)) && !s.tasks[i].Fetching?
    requires Listens(Apply(s, Act(i)).tasks[i])
    ensures var t := Apply(s, Act(i));
      var b := t.tasks[i].id % |s.slots|;
      ListenerOk(t.tasks[i], i, t.slots[b], Total(t.tasks, Waking(b), |s.slots|))
  {
    var at := Index(s.tasks[i], |s.slots|);
    ActorTask(s, i);
    RingsAfter(s, i, at);
    OwnTurnListens(s.slots[at], s.tasks[i], i, at, Total(s.tasks, Waking(at), |s.slots|));
  }

  /** How one access leaves another task: the same, or woken if it was registered and the access wakes. */
  lemma OtherTask(s: State, i: nat, k: nat)
    requires Enabled(s, Act(i)) && !s.tasks[i].Fetching? && k < |s.tasks| && k != i
    ensures var at := Index(s.tasks[i], |s.slots|);
      var turn := TurnOf(s.slots[at], s.tasks[i], i, at);
      Apply(s, Act(i)).tasks[k] ==
      if turn.wakes && s.slots[at].waker == Some(k) then Woken(s.tasks[k]) else s.tasks[k]
  {
  }

  lemma NeighbourListens(s: State, i: nat, k: nat)
    requires Inv(s) && Enabled(s, Act(i)) && !s.tasks[i].Fetching? && k < |s.tasks| && k != i && Listens(s.tasks[k])
    requires s.tasks[k].id % |s.slots| == Index(s.tasks[i], |s.slots|) && OwnId(s.tasks[i]) != OwnId(s.tasks[k])
    requires var b := s.tasks[k].id % |s.slots|; ListenerOk(s.tasks[k], k, s.slots[b],
      Total(s.tasks, Waking(b), |s.slots|))
    ensures var t := Apply(s, Act(i));
      var b := s.tasks[k].id % |s.slots|;
      ListenerOk(t.tasks[k], k, t.slots[b], Total(t.tasks, Waking(b), |s.slots|))
  {
    var at := Index(s.tasks[i], |s.slots|);
    RingsAfter(s, i, at);
    OtherTask(s, i, k);
    assert TaskOk(s.tasks[i], s.slots);
    assert OwnId(s.tasks[k]) == Some(s.tasks[k].id);
    OtherTurnListens(s.slots[at], s.tasks[i], i, at, Total(s.tasks, Waking(at), |s.slots|), s.tasks[k], k);
  }

  lemma TurnKeepsListener(s: State, i: nat, k: nat)
    requires WakeInv(s) && Enabled(s, Act(i)) && !s.tasks[i].Fetching? && k < |s.tasks|
    requires Listens(Apply(s, Act(i)).tasks[k])
    ensures var t := Apply(s, Act(i));
      var b := t.tasks[k].id % |s.slots|;
      ListenerOk(t.tasks[k], k, t.slots[b], Total(t.tasks, Waking(b), |s.slots|))
  {
    if k == i {
      ActorListens(s, i);
    } else {
      OtherTask(s, i, k);
      var b := s.tasks[k].id % |s.slots|;
      if b == Index(s.tasks[i], |s.slots|) {
        NeighbourListens(s, i, k);
      } else {
        RingsAfter(s, i, b);
      }
    }
  }

  lemma TurnKeepsHushes(s: State, i: nat)
    requires Inv(s) && HushesCounted(s) && Enabled(s, Act(i)) && !s.tasks[i].Fetching?
    ensures HushesCounted(Apply(s, Act(i)))
  {
    var at := Index(s.tasks[i], |s.slots|);
    var turn := TurnOf(s.slots[at], s.tasks[i], i, at);
    if turn.slot.hushed && !s.slots[at].hushed { TurnHushes(s.slots[at], s.tasks[i], i, at); }
  }

  lemma ActKeepsWakeInv(s: State, i: nat)
    requires WakeInv(s) && Enabled(s, Act(i)) && !s.tasks[i].Fetching?
    ensures WakeInv(Apply(s, Act(i)))
  {
    var at := Index(s.tasks[i], |s.slots|);
    var turn := TurnOf(s.slots[at], s.tasks[i], i, at);
    var t := Apply(s, Act(i));
    StepKeepsInv(s, Act(i));
    TurnKeepsHushes(s, i);
    TurnKeepsId(s.slots[at], s.tasks[i], i, at);
    ReplaceKeepsIds(s.tasks, i, turn.task);
    WakeKeepsIds(s.tasks[i := turn.task], if turn.wakes then s.slots[at].waker else None);
    forall k | 0 <= k < |t.tasks| && Listens(t.tasks[k])
      ensures ListenerOk(t.tasks[k], k, t.slots[t.tasks[k].id % |t.slots|],
                         Total(t.tasks, Waking(t.tasks[k].id % |t.slots|), |t.slots|))
    {
      TurnKeepsListener(s, i, k);
    }
  }

  /** Replacing a task that neither listens nor rings, before or after, disturbs no listener. */
  lemma QuietKeepsListeners(tasks: seq<Task>, i: nat, t: Task, slots: seq<Slot>)
    requires |slots| > 0 && ListenersOk(tasks, slots) && i < |tasks| && !Listens(t) && !t.Ringing? && !tasks[i].Ringing?
    ensures ListenersOk(tasks[i := t], slots)
  {
    var moved := tasks[i := t];
    forall k | 0 <= k < |moved| && Listens(moved[k])
      ensures ListenerOk(moved[k], k, slots[moved[k].id % |slots|],
        Total(moved, Waking(moved[k].id % |slots|), |slots|))
    {
      TaskMoves(tasks, i, t, Waking(moved[k].id % |slots|), |slots|);
      assert ListenerOk(tasks[k], k, slots[tasks[k].id % |slots|],
        Total(tasks, Waking(tasks[k].id % |slots|), |slots|));
    }
  }

  lemma StepKeepsWakeInv(s: State, step: Step)
    requires WakeInv(s) && Enabled(s, step) && (Fetches(s, step) ==> NextIsFresh(s))
    ensures WakeInv(Apply(s, step))
  {
    var i := step.task;
    if step.Choose? {
      StepKeepsInv(s, step);
      var t := Chosen(s.tasks[i], step.choice, |s.slots|);
      ReplaceKeepsIds(s.tasks, i, t);
      QuietKeepsListeners(s.tasks, i, t, s.slots);
    } else if s.tasks[i].Fetching? {
      StepKeepsInv(s, step);
      var u := Fetch(s, i, s.tasks[i].tries);
      FetchKeepsIds(s, i, s.tasks[i].tries);
      QuietKeepsListeners(s.tasks, i, u.tasks[i], s.slots);
    } else {
      ActKeepsWakeInv(s, i);
    }
  }

  lemma {:induction false} RunWakeInv(s: State, run: seq<Step>, t: State)
    requires WakeInv(s) && After(s, run) == Some(t) && RunFresh(s, run)
    ensures WakeInv(t)
    decreases |run|
  {
    if run != [] {
      RunWakeInv(s, run[..|run| - 1], After(s, run[..|run| - 1]).value);
      StepKeepsWakeInv(After(s, run[..|run| - 1]).value, run[|run| - 1]);
    }
  }

  // ---------------------------------------------------------------- over whole runs

  /** The reply is there, or the slot is gone, and no wake-up is under way. */
  predicate Stranded(s: State, i: nat) {
    |s.slots| > 0 && i < |s.tasks| && s.tasks[i].Parked? && !s.tasks[i].woken &&
    var at := s.tasks[i].id % |s.slots|;
    (s.slots[at].phase.Ready? || s.slots[at].phase.Empty?) && Total(s.tasks, Waking(at), |s.slots|) == 0
  }

  /**
   While no id is handed out that a live request still has, an unwoken parked waiter is
   registered on its own slot, and it is stranded exactly when a stale cancel was the last to
   store that slot's phase: it put a ready slot back without a wake-up, and none is under way.
   Without such a cancel nobody is stranded.
   */
  lemma StrandedIff(ring: nat, tasks: nat, run: seq<Step>, s: State, i: nat)
    requires Reaches(ring, tasks, run, s) && RunFresh(Init(ring, tasks), run)
    requires i < |s.tasks| && s.tasks[i].Parked? && !s.tasks[i].woken
    ensures |s.slots| == ring
    ensures var at := s.tasks[i].id % ring;
      s.slots[at].id == s.tasks[i].id && s.slots[at].waker == Some(i) &&
      (Stranded(s, i) <==> s.slots[at].hushed && Total(s.tasks, Waking(at), ring) == 0)
    ensures s.hushes == 0 ==> !Stranded(s, i)
  {
    InitInv(ring, tasks);
    RingSize(Init(ring, tasks), run);
    RunWakeInv(Init(ring, tasks), run, s);
    var at := s.tasks[i].id % ring;
    assert ListenerOk(s.tasks[i], i, s.slots[at], Total(s.tasks, Waking(at), ring));
    assert SlotOk(s.slots[at], Total(s.tasks, Owning(at), ring), Total(s.tasks, Filling(at), ring));
  }

  /** Live ids were handed out, and the counter has passed them. */
  predicate IdsBelow(s: State) {
    forall i | 0 <= i < |s.tasks| && OwnId(s.tasks[i]).Some? :: 1 <= OwnId(s.tasks[i]).value < s.fetched
  }

  lemma StepKeepsBelow(s: State, step: Step)
    requires IdsBelow(s) && Enabled(s, step)
    ensures IdsBelow(Apply(s, step)) && s.fetched <= Apply(s, step).fetched
  {
    var i := step.task;
    var t := Apply(s, step);
    if step.Act? && !s.tasks[i].Fetching? {
      var at := Index(s.tasks[i], |s.slots|);
      TurnKeepsId(s.slots[at], s.tasks[i], i, at);
    }
    assert forall k | 0 <= k < |s.tasks| && k != i :: OwnId(t.tasks[k]) == OwnId(s.tasks[k]);
  }

  /** Until the counter first wraps every id handed out is fresh. */
  lemma {:induction false} FewIdsAreFresh(s: State, run: seq<Step>, t: State)
    requires IdsBelow(s) && After(s, run) == Some(t) && t.fetched <= U32_LIMIT
    ensures RunFresh(s, run) && IdsBelow(t)
    decreases |run|
  {
    if run != [] {
      var before := After(s, run[..|run| - 1]).value;
      BelowAlways(s, run[..|run| - 1], before);
      StepKeepsBelow(before, run[|run| - 1]);
      FewIdsAreFresh(s, run[..|run| - 1], before);
    }
  }

  lemma {:induction false} BelowAlways(s: State, run: seq<Step>, t: State)
    requires IdsBelow(s) && After(s, run) == Some(t)
    ensures IdsBelow(t)
    decreases |run|
  {
    if run != [] {
      BelowAlways(s, run[..|run| - 1], After(s, run[..|run| - 1]).value);
      StepKeepsBelow(After(s, run[..|run| - 1]).value, run[|run| - 1]);
    }
  }
}
