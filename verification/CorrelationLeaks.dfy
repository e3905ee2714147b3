/** Which slots can be left behind, and which timed waits lose their limit. */
module CorrelationLeaks {
  import opened Common
  import opened Correlation
  import opened CorrelationSafety
  import opened CorrelationReplies
  import opened CorrelationWakeups

  // ---------------------------------------------------------------- every occupied slot is attended

  /** The id of a request that has opened its slot and has not been given up. */
  function LiveId(t: Task): Option<U32> { if t.Claiming? || t.Installing? then None else OwnId(t) }

  /** An owner that empties or renames its slot without regard to who waits there. */
  predicate Vacates(t: Task) { t.Installing? || t.Dumping? || t.Emptying? }

  predicate Attends(t: Task, slot: Slot, at: nat, ring: nat)
    requires ring > 0
  {
    (LiveId(t) == Some(slot.id) && slot.id % ring == at) || (Vacates(t) && Index(t, ring) == at)
  }

  predicate Attended(tasks: seq<Task>, slot: Slot, at: nat, ring: nat)
    requires ring > 0
  {
    exists k | 0 <= k < |tasks| :: Attends(tasks[k], slot, at, ring)
  }

  predicate AllAttended(s: State) {
    |s.slots| > 0 &&
    forall at | 0 <= at < |s.slots| && !s.slots[at].phase.Empty? :: Attended(s.tasks, s.slots[at], at, |s.slots|)
  }

  /** Giving up this request leaves nothing behind in its slot. */
  predicate Clean(s: State, i: nat)
    requires |s.slots| > 0 && i < |s.tasks| && s.tasks[i].Ended?
  {
    var at := s.tasks[i].id % |s.slots|;
    s.slots[at].phase.Empty? || s.slots[at].id != s.tasks[i].id ||
    exists k | 0 <= k < |s.tasks| :: s.tasks[k].Installing? && Index(s.tasks[k], |s.slots|) == at
  }

  predicate Disarms(s: State, step: Step) {
    step.Choose? && step.choice.Disarm? && step.task < |s.tasks| && s.tasks[step.task].Ended? && |s.slots| > 0
  }

  lemma OwnerWrites(s: State, i: nat)
    requires Inv(s) && i < |s.tasks| && Touches(s.tasks[i])
    ensures Index(s.tasks[i], |s.slots|) < |s.slots|
    ensures Owns(s.tasks[i]) ==> s.slots[Index(s.tasks[i], |s.slots|)].phase.Writing?
  {
    var at := Index(s.tasks[i], |s.slots|);
    assert TaskOk(s.tasks[i], s.slots);
    TaskMoves(s.tasks, i, Idle, Owning(at), |s.slots|);
    assert SlotOk(s.slots[at], Total(s.tasks, Owning(at), |s.slots|), Total(s.tasks, Filling(at), |s.slots|));
  }

  lemma TurnAttends(slot: Slot, t: Task, me: nat, at: nat, ring: nat)
    requires ring > 0 && Touches(t) && Index(t, ring) == at < ring
    requires (t.Restoring? ==> slot.id != t.id) && (t.Closing? ==> slot.id == t.id) && (Owns(t) ==> slot.phase.Writing?)
    ensures var turn := TurnOf(slot, t, me, at);
      !turn.slot.phase.Empty? && !Attends(turn.task, turn.slot, at, ring) ==>
      !slot.phase.Empty? && turn.slot.id == slot.id && !Attends(t, slot, at, ring)
  {
  }

  /** An access elsewhere does not end a caller's attendance at a slot. */
  lemma TurnElsewhere(slot: Slot, t: Task, me: nat, at: nat, other: Slot, b: nat, ring: nat)
    requires ring > 0 && Touches(t) && Index(t, ring) == at < ring && b != at && Attends(t, other, b, ring)
    ensures Attends(TurnOf(slot, t, me, at).task, other, b, ring)
  {
  }

  lemma WakeAttends(tasks: seq<Task>, waker: Option<nat>, slot: Slot, at: nat, ring: nat)
    requires ring > 0 && Attended(tasks, slot, at, ring)
    ensures Attended(Wake(tasks, waker), slot, at, ring)
  {
    var k :| 0 <= k < |tasks| && Attends(tasks[k], slot, at, ring);
    assert Attends(Wake(tasks, waker)[k], slot, at, ring);
  }

  lemma ActKeepsAttended(s: State, i: nat, b: nat)
    requires Inv(s) && AllAttended(s) && Enabled(s, Act(i)) && !s.tasks[i].Fetching? && b < |s.slots|
    requires !Apply(s, Act(i)).slots[b].phase.Empty?
    ensures Attended(Apply(s, Act(i)).tasks, Apply(s, Act(i)).slots[b], b, |s.slots|)
  {
    var ring := |s.slots|;
    var at := Index(s.tasks[i], ring);
    var turn := TurnOf(s.slots[at], s.tasks[i], i, at);
    var moved := s.tasks[i := turn.task];
    var slot := Apply(s, Act(i)).slots[b];
    assert TaskOk(s.tasks[i], s.slots);
    OwnerWrites(s, i);
    if b == at { TurnAttends(s.slots[at], s.tasks[i], i, at, ring); }
    if b == at && Attends(turn.task, slot, b, ring) {
      assert Attends(moved[i], slot, b, ring);
    } else {
      var k :| 0 <= k < |s.tasks| && Attends(s.tasks[k], s.slots[b], b, ring);
      if k == i { TurnElsewhere(s.slots[at], s.tasks[i], i, at, slot, b, ring); }
      assert Attends(moved[k], slot, b, ring);
    }
    WakeAttends(moved, if turn.wakes then s.slots[at].waker else None, slot, b, ring);
  }

  lemma QuietKeepsAttended(s: State, i: nat, t: Task, b: nat)
    requires AllAttended(s) && i < |s.tasks| && b < |s.slots| && !s.slots[b].phase.Empty? && !Vacates(s.tasks[i])
    requires LiveId(t) == LiveId(s.tasks[i]) || LiveId(s.tasks[i]).None? || (s.tasks[i].Ended? && Clean(s, i))
    ensures Attended(s.tasks[i := t], s.slots[b], b, |s.slots|)
  {
    var ring := |s.slots|;
    var moved := s.tasks[i := t];
    var k :| 0 <= k < |s.tasks| && Attends(s.tasks[k], s.slots[b], b, ring);
    if k == i && LiveId(t) != LiveId(s.tasks[i]) && LiveId(s.tasks[i]).Some? {
      var m :| 0 <= m < |s.tasks| && s.tasks[m].Installing? && Index(s.tasks[m], ring) == b;
      assert Attends(moved[m], s.slots[b], b, ring);
    } else {
      assert Attends(moved[k], s.slots[b], b, ring);
    }
  }

  lemma StepKeepsAttended(s: State, step: Step)
    requires Inv(s) && AllAttended(s) && Enabled(s, step) && (Disarms(s, step) ==> Clean(s, step.task))
    ensures AllAttended(Apply(s, step))
  {
    var t := Apply(s, step);
    forall b | 0 <= b < |t.slots| && !t.slots[b].phase.Empty? ensures Attended(t.tasks, t.slots[b], b, |t.slots|) {
      if step.Act? && !s.tasks[step.task].Fetching? {
        ActKeepsAttended(s, step.task, b);
      } else {
        QuietKeepsAttended(s, step.task, t.tasks[step.task], b);
      }
    }
  }

  /** Every request given up without a cancel left its slot clean. */
  ghost predicate RunClean(s: State, run: seq<Step>)
    decreases |run|
  {
    run == [] ||
    (RunClean(s, run[..|run| - 1]) && After(s, run[..|run| - 1]).Some? &&
     var before := After(s, run[..|run| - 1]).value;
     (Disarms(before, run[|run| - 1]) ==> Clean(before, run[|run| - 1].task)))
  }

  lemma {:induction false} RunKeepsAttended(s: State, run: seq<Step>, t: State)
    requires Inv(s) && AllAttended(s) && After(s, run) == Some(t) && RunClean(s, run)
    ensures AllAttended(t)
    decreases |run|
  {
    if run != [] {
      var before := After(s, run[..|run| - 1]).value;
      RunInv(s, run[..|run| - 1]);
      RunKeepsAttended(s, run[..|run| - 1], before);
      StepKeepsAttended(before, run[|run| - 1]);
    }
  }

  /** A slot waits, or holds a reply, for an id that no live request has. */
  predicate Leaked(s: State, at: nat) {
    at < |s.slots| && (s.slots[at].phase.Waiting? || s.slots[at].phase.Ready?) &&
    forall k | 0 <= k < |s.tasks| :: LiveId(s.tasks[k]) != Some(s.slots[at].id)
  }

  /** As long as requests are only given up clean, no slot is ever leaked. */
  lemma NoLeaks(ring: nat, tasks: nat, run: seq<Step>, s: State, at: nat)
    requires Reaches(ring, tasks, run, s) && RunClean(Init(ring, tasks), run)
    ensures !Leaked(s, at)
  {
    InitInv(ring, tasks);
    RunInv(Init(ring, tasks), run);
    RunKeepsAttended(Init(ring, tasks), run, s);
    if Leaked(s, at) {
      var k :| 0 <= k < |s.tasks| && Attends(s.tasks[k], s.slots[at], at, |s.slots|);
      assert SlotOk(s.slots[at], Total(s.tasks, Owning(at), |s.slots|), Total(s.tasks, Filling(at), |s.slots|));
      TaskMoves(s.tasks, k, Idle, Owning(at), |s.slots|);
    }
  }

  // ---------------------------------------------------------------- which requests end clean

  /** The request has its reply or was told its slot is gone. */
  predicate Resolved(t: Task) {
    (t.Ended? && !t.outcome.TimedOut?) || (t.Ringing? && t.next.ThenEnded?)
  }

  predicate EndsClean(t: Task, tasks: seq<Task>, slots: seq<Slot>)
    requires |slots| > 0
  {
    Resolved(t) ==>
      var id := if t.Ended? then t.id else t.next.id;
      var at := id % |slots|;
      slots[at].phase.Empty? || slots[at].id != id ||
      exists k | 0 <= k < |tasks| :: tasks[k].Installing? && Index(tasks[k], |slots|) == at
  }

  predicate AllEndClean(s: State) {
    |s.slots| > 0 && (forall i | 0 <= i < |s.tasks| :: EndsClean(s.tasks[i], s.tasks, s.slots)) &&
    (forall i | 0 <= i < |s.tasks| && s.tasks[i].Ringing? && s.tasks[i].next.ThenEnded? ::
       s.tasks[i].at == s.tasks[i].next.id % |s.slots|)
  }

  lemma TurnEndsClean(slot: Slot, t: Task, me: nat, at: nat, ring: nat)
    requires ring > 0 && Touches(t) && Index(t, ring) == at < ring && (t.Restoring? ==> slot.id != t.id)
    ensures var turn := TurnOf(slot, t, me, at);
      Resolved(turn.task) ==>
        (t.Ringing? && OwnId(turn.task) == OwnId(t) && turn.slot == slot.(waker := None)) ||
        turn.slot.phase.Empty? || turn.slot.id != OwnId(turn.task).value
    ensures var turn := TurnOf(slot, t, me, at);
      turn.task.Ringing? && turn.task.next.ThenEnded? ==> turn.task.at == turn.task.next.id % ring
  {
  }

  /** How an access can disturb a slot that is clean for somebody else's id. */
  lemma TurnKeepsClean(slot: Slot, t: Task, me: nat, at: nat, id: U32, ring: nat)
    requires ring > 0 && Touches(t) && Index(t, ring) == at < ring && OwnId(t) != Some(id)
    requires (slot.phase.Empty? || slot.id != id) && (Owns(t) ==> slot.phase.Writing?)
    ensures var turn := TurnOf(slot, t, me, at);
      turn.slot.phase.Empty? || turn.slot.id != id || turn.task.Installing?
  {
  }

  lemma ActKeepsOtherClean(s: State, i: nat, k: nat)
    requires Inv(s) && IdsOk(s.tasks) && AllEndClean(s) && Enabled(s, Act(i)) && !s.tasks[i].Fetching?
    requires k < |s.tasks| && k != i && Resolved(s.tasks[k])
    ensures EndsClean(s.tasks[k], Apply(s, Act(i)).tasks, Apply(s, Act(i)).slots)
  {
    var ring := |s.slots|;
    var at := Index(s.tasks[i], ring);
    var turn := TurnOf(s.slots[at], s.tasks[i], i, at);
    var t := Apply(s, Act(i));
    var id := OwnId(s.tasks[k]).value;
    var b := id % ring;
    assert EndsClean(s.tasks[k], s.tasks, s.slots);
    assert OwnId(s.tasks[i]) != Some(id);
    OwnerWrites(s, i);
    if m: nat :| m < |s.tasks| && s.tasks[m].Installing? && Index(s.tasks[m], ring) == b {
      if m == i { InstallRenames(s, i); } else { OtherTask(s, i, m); }
    } else if b == at {
      TurnKeepsClean(s.slots[at], s.tasks[i], i, at, id, ring);
      if turn.task.Installing? { InstallerAppears(s, i); }
    }
  }

  lemma InstallRenames(s: State, i: nat)
    requires Enabled(s, Act(i)) && s.tasks[i].Installing?
    ensures Apply(s, Act(i)).slots[Index(s.tasks[i], |s.slots|)].id == s.tasks[i].id
  {
  }

  lemma InstallerAppears(s: State, i: nat)
    requires Enabled(s, Act(i)) && Touches(s.tasks[i])
    requires var at := Index(s.tasks[i], |s.slots|); TurnOf(s.slots[at], s.tasks[i], i, at).task.Installing?
    ensures Apply(s, Act(i)).tasks[i].Installing?
    ensures Index(Apply(s, Act(i)).tasks[i], |s.slots|) == Index(s.tasks[i], |s.slots|)
  {
  }

  lemma ActKeepsOwnClean(s: State, i: nat)
    requires Inv(s) && AllEndClean(s) && Enabled(s, Act(i)) && !s.tasks[i].Fetching?
    requires Resolved(Apply(s, Act(i)).tasks[i])
    ensures EndsClean(Apply(s, Act(i)).tasks[i], Apply(s, Act(i)).tasks, Apply(s, Act(i)).slots)
  {
    var ring := |s.slots|;
    var at := Index(s.tasks[i], ring);
    var t := Apply(s, Act(i));
    assert TaskOk(s.tasks[i], s.slots);
    TurnEndsClean(s.slots[at], s.tasks[i], i, at, ring);
    ResolvedTask(s, i);
    if s.tasks[i].Ringing? {
      assert EndsClean(s.tasks[i], s.tasks, s.slots);
      if m: nat :| m < |s.tasks| && s.tasks[m].Installing? && Index(s.tasks[m], ring) == at { OtherTask(s, i, m); }
    }
  }

  lemma ResolvedTask(s: State, i: nat)
    requires Enabled(s, Act(i)) && Touches(s.tasks[i]) && Resolved(Apply(s, Act(i)).tasks[i])
    ensures var at := Index(s.tasks[i], |s.slots|);
      var u := TurnOf(s.slots[at], s.tasks[i], i, at).task;
      Apply(s, Act(i)).tasks[i] == u && OwnId(u).Some? && OwnId(u) == OwnId(s.tasks[i]) &&
      (!s.tasks[i].Ringing? ==> at == OwnId(u).value % |s.slots|)
  {
  }

  lemma ActKeepsEndClean(s: State, i: nat)
    requires Inv(s) && IdsOk(s.tasks) && AllEndClean(s) && Enabled(s, Act(i)) && !s.tasks[i].Fetching?
    ensures AllEndClean(Apply(s, Act(i)))
  {
    var at := Index(s.tasks[i], |s.slots|);
    var t := Apply(s, Act(i));
    assert TaskOk(s.tasks[i], s.slots);
    TurnEndsClean(s.slots[at], s.tasks[i], i, at, |s.slots|);
    forall k | 0 <= k < |t.tasks| ensures EndsClean(t.tasks[k], t.tasks, t.slots) {
      if Resolved(t.tasks[k]) {
        if k == i {
          ActKeepsOwnClean(s, i);
        } else {
          OtherTask(s, i, k);
          ActKeepsOtherClean(s, i, k);
        }
      }
    }
  }

  /** Replacing a task at no slot by one that is not resolved leaves every other ending clean. */
  lemma QuietKeepsEndClean(s: State, i: nat, t: Task, fetched: nat)
    requires AllEndClean(s) && i < |s.tasks| && !s.tasks[i].Installing? && !Resolved(t)
    ensures AllEndClean(s.(tasks := s.tasks[i := t], fetched := fetched))
  {
    var moved := s.tasks[i := t];
    forall k | 0 <= k < |moved| ensures EndsClean(moved[k], moved, s.slots) {
      if k != i && Resolved(moved[k]) {
        assert EndsClean(s.tasks[k], s.tasks, s.slots);
        var b := OwnId(s.tasks[k]).value % |s.slots|;
        if m: nat :| m < |s.tasks| && s.tasks[m].Installing? && Index(s.tasks[m], |s.slots|) == b {
          assert moved[m].Installing? && Index(moved[m], |s.slots|) == b;
        }
      }
    }
  }

  lemma StepKeepsEndClean(s: State, step: Step)
    requires Inv(s) && IdsOk(s.tasks) && AllEndClean(s) && Enabled(s, step)
    ensures AllEndClean(Apply(s, step))
  {
    var i := step.task;
    if step.Act? && !s.tasks[i].Fetching? {
      ActKeepsEndClean(s, i);
    } else {
      var t := Apply(s, step);
      QuietKeepsEndClean(s, i, t.tasks[i], t.fetched);
    }
  }

  lemma {:induction false} RunKeepsEndClean(s: State, run: seq<Step>, t: State)
    requires WakeInv(s) && AllEndClean(s) && After(s, run) == Some(t) && RunFresh(s, run)
    ensures AllEndClean(t)
    decreases |run|
  {
    if run != [] {
      var before := After(s, run[..|run| - 1]).value;
      RunWakeInv(s, run[..|run| - 1], before);
      RunKeepsEndClean(s, run[..|run| - 1], before);
      StepKeepsEndClean(before, run[|run| - 1]);
    }
  }

  /**
   A request that got its reply, or was told its slot is gone, can be given up without a
   cancel. So only a wait that timed out can leak its slot.
   */
  lemma ResolvedIsClean(ring: nat, tasks: nat, run: seq<Step>, s: State, i: nat)
    requires Reaches(ring, tasks, run, s) && RunFresh(Init(ring, tasks), run)
    requires i < |s.tasks| && s.tasks[i].Ended? && !s.tasks[i].outcome.TimedOut?
    ensures |s.slots| > 0 && Clean(s, i)
  {
    InitInv(ring, tasks);
    RingSize(Init(ring, tasks), run);
    RunKeepsEndClean(Init(ring, tasks), run, s);
    assert EndsClean(s.tasks[i], s.tasks, s.slots);
  }

  /**
   Giving up a request without a cancel leaks its slot exactly when the slot still waits, or
   holds a reply, under its id.
   */
  lemma DisarmLeaksIff(ring: nat, tasks: nat, run: seq<Step>, s: State, i: nat)
    requires Reaches(ring, tasks, run, s) && RunFresh(Init(ring, tasks), run)
    requires i < |s.tasks| && s.tasks[i].Ended?
    ensures |s.slots| == ring && Enabled(s, Choose(i, Disarm))
    ensures var at := s.tasks[i].id % ring;
      (Leaked(Apply(s, Choose(i, Disarm)), at) && !Leaked(s, at)) <==>
      s.slots[at].id == s.tasks[i].id && (s.slots[at].phase.Waiting? || s.slots[at].phase.Ready?)
  {
    InitInv(ring, tasks);
    RingSize(Init(ring, tasks), run);
    RunWakeInv(Init(ring, tasks), run, s);
    if s.slots[s.tasks[i].id % ring].id == s.tasks[i].id {
      LastOfItsId(s.tasks, i);
    } else {
      NotItsId(s, i);
    }
  }

  lemma LastOfItsId(tasks: seq<Task>, i: nat)
    requires IdsOk(tasks) && i < |tasks| && tasks[i].Ended?
    ensures LiveId(tasks[i]) == Some(tasks[i].id)
    ensures var rest := tasks[i := Idle]; forall k | 0 <= k < |rest| :: LiveId(rest[k]) != Some(tasks[i].id)
  {
    var rest := tasks[i := Idle];
    forall k | 0 <= k < |rest| ensures LiveId(rest[k]) != Some(tasks[i].id) {
      assert k != i ==> OwnId(tasks[k]) != OwnId(tasks[i]);
    }
  }

  lemma NotItsId(s: State, i: nat)
    requires |s.slots| > 0 && i < |s.tasks| && s.tasks[i].Ended?
    requires s.slots[s.tasks[i].id % |s.slots|].id != s.tasks[i].id
    ensures var at := s.tasks[i].id % |s.slots|; Leaked(s.(tasks := s.tasks[i := Idle]), at) ==> Leaked(s, at)
  {
    var at := s.tasks[i].id % |s.slots|;
    var t := s.(tasks := s.tasks[i := Idle]);
    if Leaked(t, at) {
      forall k | 0 <= k < |s.tasks| ensures LiveId(s.tasks[k]) != Some(s.slots[at].id) {
        assert LiveId(t.tasks[k]) != Some(s.slots[at].id);
      }
    }
  }

  // ---------------------------------------------------------------- timed waits that lose their limit

  predicate StillWaiting(t: Task) { (t.Polling? && !t.pass.Final?) || t.Looking? || t.Enrolling? || t.Parked? }

  /** Between the timeout and the verdict on it. */
  predicate Expires(t: Task) {
    t.Expiring? || t.LastLook? || (t.Polling? && t.pass.Final?) ||
    ((t.Comparing? || t.Restoring?) && t.job.Expire?)
  }

  /** After its timeout the wait found the slot being written at its last look. */
  predicate Overruns(s: State, step: Step, i: nat) {
    step == Act(i) && i < |s.tasks| && s.tasks[i].LastLook? && |s.slots| > 0 &&
    s.slots[s.tasks[i].id % |s.slots|].phase.Writing?
  }

  ghost predicate Overran(s: State, run: seq<Step>, i: nat)
    decreases |run|
  {
    run != [] &&
    (Overran(s, run[..|run| - 1], i) ||
     (After(s, run[..|run| - 1]).Some? && Overruns(After(s, run[..|run| - 1]).value, run[|run| - 1], i)))
  }

  predicate WaitOk(t: Task, overran: bool) {
    (StillWaiting(t) ==> t.limited == !overran) && (Expires(t) ==> !overran)
  }

  lemma TurnKeepsWait(slot: Slot, t: Task, me: nat, at: nat, overran: bool)
    requires Touches(t) && WaitOk(t, overran)
    ensures WaitOk(TurnOf(slot, t, me, at).task, overran || (t.LastLook? && slot.phase.Writing?))
  {
  }

  lemma StepKeepsWait(s: State, step: Step, i: nat, overran: bool)
    requires Enabled(s, step) && i < |s.tasks| && WaitOk(s.tasks[i], overran)
    requires step.Choose? && step.task == i ==> !step.choice.Await?
    ensures i < |Apply(s, step).tasks| && WaitOk(Apply(s, step).tasks[i], overran || Overruns(s, step, i))
  {
    if step == Act(i) && !s.tasks[i].Fetching? {
      var at := Index(s.tasks[i], |s.slots|);
      TurnKeepsWait(s.slots[at], s.tasks[i], i, at, overran);
    } else if step.Act? && !s.tasks[step.task].Fetching? {
      OtherTask(s, step.task, i);
    }
  }

  lemma {:induction false} RunKeepsWait(s: State, run: seq<Step>, i: nat, t: State)
    requires i < |s.tasks| && WaitOk(s.tasks[i], false) && After(s, run) == Some(t)
    requires forall k | 0 <= k < |run| && run[k].Choose? && run[k].task == i :: !run[k].choice.Await?
    ensures i < |t.tasks| && WaitOk(t.tasks[i], Overran(s, run, i))
    decreases |run|
  {
    if run != [] {
      var n := |run| - 1;
      var before := After(s, run[..n]).value;
      RunKeepsWait(s, run[..n], i, before);
      StepKeepsWait(before, run[n], i, Overran(s, run[..n], i));
    }
  }

  predicate Unhurried(t: Task) { (StillWaiting(t) ==> !t.limited) && !Late(t) }

  lemma TurnUnhurried(slot: Slot, t: Task, me: nat, at: nat)
    requires Touches(t) && Unhurried(t)
    ensures Unhurried(TurnOf(slot, t, me, at).task)
  {
  }

  lemma StepUnhurried(s: State, step: Step, i: nat)
    requires Enabled(s, step) && i < |s.tasks| && Unhurried(s.tasks[i])
    requires step.Choose? && step.task == i ==> !step.choice.Await?
    ensures i < |Apply(s, step).tasks| && Unhurried(Apply(s, step).tasks[i])
  {
    if step == Act(i) && !s.tasks[i].Fetching? {
      var at := Index(s.tasks[i], |s.slots|);
      TurnUnhurried(s.slots[at], s.tasks[i], i, at);
    } else if step.Act? && !s.tasks[step.task].Fetching? {
      OtherTask(s, step.task, i);
    }
  }

  lemma {:induction false} RunUnhurried(s: State, run: seq<Step>, i: nat, t: State)
    requires i < |s.tasks| && Unhurried(s.tasks[i]) && After(s, run) == Some(t)
    requires forall k | 0 <= k < |run| && run[k].Choose? && run[k].task == i :: !run[k].choice.Await?
    ensures i < |t.tasks| && Unhurried(t.tasks[i])
    decreases |run|
  {
    if run != [] {
      var n := |run| - 1;
      var before := After(s, run[..n]).value;
      RunUnhurried(s, run[..n], i, before);
      StepUnhurried(before, run[n], i);
    }
  }

  /** A wait that was given no limit never gets one and never reports a timeout. */
  lemma NoLimitNoTimeout(s: State, i: nat, run: seq<Step>, t: State)
    requires Enabled(s, Choose(i, Await(false))) && After(Apply(s, Choose(i, Await(false))), run) == Some(t)
    requires forall k | 0 <= k < |run| && run[k].Choose? && run[k].task == i :: !run[k].choice.Await?
    ensures i < |t.tasks| && !Enabled(t, Choose(i, TimeOut))
    ensures !(t.tasks[i].Ended? && t.tasks[i].outcome.TimedOut?)
  {
    AwaitUnhurried(s, i);
    RunUnhurried(Apply(s, Choose(i, Await(false))), run, i, t);
    UnhurriedMeans(t, i);
  }

  lemma UnhurriedMeans(t: State, i: nat)
    requires i < |t.tasks| && Unhurried(t.tasks[i])
    ensures !Enabled(t, Choose(i, TimeOut)) && !(t.tasks[i].Ended? && t.tasks[i].outcome.TimedOut?)
  {
  }

  lemma AwaitUnhurried(s: State, i: nat)
    requires Enabled(s, Choose(i, Await(false)))
    ensures i < |Apply(s, Choose(i, Await(false))).tasks| && Unhurried(Apply(s, Choose(i, Await(false))).tasks[i])
  {
  }

  /**
   A wait that was given a limit and still goes on has no limit any more exactly when, after
   its timeout, its last look found the slot being written.
   */
  lemma UnlimitedIff(s: State, i: nat, run: seq<Step>, t: State)
    requires Enabled(s, Choose(i, Await(true))) && After(Apply(s, Choose(i, Await(true))), run) == Some(t)
    requires forall k | 0 <= k < |run| && run[k].Choose? && run[k].task == i :: !run[k].choice.Await?
    ensures i < |t.tasks|
    ensures StillWaiting(t.tasks[i]) ==> (!t.tasks[i].limited <==> Overran(Apply(s, Choose(i, Await(true))), run, i))
  {
    RunKeepsWait(Apply(s, Choose(i, Await(true))), run, i, t);
  }
}
