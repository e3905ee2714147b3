/** Where a waiter's outcome comes from: every reply was handed to a completion, every timeout was asked for. */
module CorrelationReplies {
  import opened Common
  import opened Correlation

  // ---------------------------------------------------------------- replies

  predicate Sends(step: Step, r: Reply) {
    step.Choose? && step.choice == Finish(r.cid, Some(r.value))
  }

  /** Somebody completed id `r.cid` with the value `r.value` in this run. */
  predicate Sent(run: seq<Step>, r: Reply) { exists k | 0 <= k < |run| :: Sends(run[k], r) }

  predicate Delivers(t: Task, r: Reply)
    requires t.Comparing? || t.Restoring? || t.Acting? || t.Closing?
  {
    t.job == Complete(Some(r.value)) && t.id == r.cid
  }

  /** The caller has this reply in hand, on its way to the cell or from it. */
  predicate Carries(t: Task, r: Reply) {
    match t
    case Completing(id, reply) => id == r.cid && reply == Some(r.value)
    case Comparing(_, _) => Delivers(t, r)
    case Restoring(_, _) => Delivers(t, r)
    case Acting(_, _) => Delivers(t, r)
    case Closing(_, _, got) => Delivers(t, r) || got == Some(r)
    case Ended(_, outcome) => outcome == Got(r)
    case Ringing(_, next) => next.ThenEnded? && next.outcome == Got(r)
    case _ => false
  }

  /** One access moves a reply between a caller and its cell, and makes none up. */
  lemma TurnMakesNothingUp(slot: Slot, t: Task, me: nat, at: nat, r: Reply)
    requires Touches(t)
    requires var turn := TurnOf(slot, t, me, at); Carries(turn.task, r) || turn.slot.response == Some(r)
    ensures Carries(t, r) || slot.response == Some(r)
  {
  }

  ghost predicate AllSent(s: State, run: seq<Step>) {
    && (forall i, r | 0 <= i < |s.tasks| && Carries(s.tasks[i], r) :: Sent(run, r))
    && (forall at, r | 0 <= at < |s.slots| && s.slots[at].response == Some(r) :: Sent(run, r))
  }

  lemma StillSent(run: seq<Step>, step: Step, r: Reply)
    ensures Sent(run, r) || Sends(step, r) ==> Sent(run + [step], r)
  {
    var run' := run + [step];
    if Sent(run, r) {
      var k :| 0 <= k < |run| && Sends(run[k], r);
      assert Sends(run'[k], r);
    } else if Sends(step, r) {
      assert Sends(run'[|run|], r);
    }
  }

  /** A wake-up carries nothing. */
  lemma WakeCarriesNothing(tasks: seq<Task>, waker: Option<nat>, k: nat, r: Reply)
    requires k < |tasks|
    ensures |Wake(tasks, waker)| == |tasks| && Carries(Wake(tasks, waker)[k], r) == Carries(tasks[k], r)
  {
  }

  lemma ChooseKeepsSent(s: State, run: seq<Step>, i: nat, choice: Choice)
    requires AllSent(s, run) && Enabled(s, Choose(i, choice))
    ensures AllSent(Apply(s, Choose(i, choice)), run + [Choose(i, choice)])
  {
    var step := Choose(i, choice);
    var t := Apply(s, step);
    forall k, r | 0 <= k < |t.tasks| && Carries(t.tasks[k], r) ensures Sent(run + [step], r) {
      assert Carries(s.tasks[k], r) || Sends(step, r);
      StillSent(run, step, r);
    }
    forall at, r | 0 <= at < |t.slots| && t.slots[at].response == Some(r) ensures Sent(run + [step], r) {
      assert s.slots[at].response == Some(r);
      StillSent(run, step, r);
    }
  }

  lemma FetchKeepsSent(s: State, run: seq<Step>, i: nat)
    requires AllSent(s, run) && Enabled(s, Act(i)) && s.tasks[i].Fetching?
    ensures AllSent(Apply(s, Act(i)), run + [Act(i)])
  {
    var t := Apply(s, Act(i));
    forall k, r | 0 <= k < |t.tasks| && Carries(t.tasks[k], r) ensures Sent(run + [Act(i)], r) {
      assert Carries(s.tasks[k], r);
      StillSent(run, Act(i), r);
    }
    forall at, r | 0 <= at < |t.slots| && t.slots[at].response == Some(r) ensures Sent(run + [Act(i)], r) {
      assert s.slots[at].response == Some(r);
      StillSent(run, Act(i), r);
    }
  }

  /** A reply in hand or in a cell after an access was in hand or in a cell before it. */
  lemma ActMakesNothingUp(s: State, i: nat, r: Reply)
    requires Enabled(s, Act(i)) && !s.tasks[i].Fetching?
    requires var t := Apply(s, Act(i));
      (exists k | 0 <= k < |t.tasks| :: Carries(t.tasks[k], r)) ||
      (exists at | 0 <= at < |t.slots| :: t.slots[at].response == Some(r))
    ensures (exists k | 0 <= k < |s.tasks| :: Carries(s.tasks[k], r)) ||
            (exists at | 0 <= at < |s.slots| :: s.slots[at].response == Some(r))
  {
    var t := Apply(s, Act(i));
    var at := Index(s.tasks[i], |s.slots|);
    var turn := TurnOf(s.slots[at], s.tasks[i], i, at);
    if Carries(turn.task, r) || turn.slot.response == Some(r) {
      TurnMakesNothingUp(s.slots[at], s.tasks[i], i, at, r);
    } else if k :| 0 <= k < |t.tasks| && Carries(t.tasks[k], r) {
      WakeCarriesNothing(s.tasks[i := turn.task], if turn.wakes then s.slots[at].waker else None, k, r);
      assert Carries(s.tasks[k], r);
    } else {
      var b :| 0 <= b < |t.slots| && t.slots[b].response == Some(r);
      assert s.slots[b].response == Some(r);
    }
  }

  lemma ActKeepsSent(s: State, run: seq<Step>, i: nat)
    requires AllSent(s, run) && Enabled(s, Act(i)) && !s.tasks[i].Fetching?
    ensures AllSent(Apply(s, Act(i)), run + [Act(i)])
  {
    var t := Apply(s, Act(i));
    forall k, r | 0 <= k < |t.tasks| && Carries(t.tasks[k], r) ensures Sent(run + [Act(i)], r) {
      ActMakesNothingUp(s, i, r);
      StillSent(run, Act(i), r);
    }
    forall at, r | 0 <= at < |t.slots| && t.slots[at].response == Some(r) ensures Sent(run + [Act(i)], r) {
      ActMakesNothingUp(s, i, r);
      StillSent(run, Act(i), r);
    }
  }

  /** Every reply a run leaves anywhere, in a cell or in a caller's hands, was sent in that run. */
  lemma {:induction false} RepliesWereSent(ring: nat, tasks: nat, run: seq<Step>, s: State)
    requires After(Init(ring, tasks), run) == Some(s)
    ensures forall i, r | 0 <= i < |s.tasks| && Carries(s.tasks[i], r) :: Sent(run, r)
    ensures forall at, r | 0 <= at < |s.slots| && s.slots[at].response == Some(r) :: Sent(run, r)
    decreases |run|
  {
    if run != [] {
      var prefix, step := run[..|run| - 1], run[|run| - 1];
      var before := After(Init(ring, tasks), prefix).value;
      RepliesWereSent(ring, tasks, prefix, before);
      assert prefix + [step] == run;
      match step
      case Choose(i, choice) => ChooseKeepsSent(before, prefix, i, choice);
      case Act(i) =>
        if before.tasks[i].Fetching? {
          FetchKeepsSent(before, prefix, i);
        } else {
          ActKeepsSent(before, prefix, i);
        }
    }
  }

  lemma ReplyWasSent(ring: nat, tasks: nat, run: seq<Step>, s: State, i: nat, r: Reply)
    requires After(Init(ring, tasks), run) == Some(s) && i < |s.tasks| && Carries(s.tasks[i], r)
    ensures Sent(run, r)
  {
    RepliesWereSent(ring, tasks, run, s);
  }

  // ---------------------------------------------------------------- timeouts

  /** What caller `i` last chose to do. */
  function LastChoice(run: seq<Step>, i: nat): Option<Choice> {
    if run == [] then None
    else
      match run[|run| - 1]
      case Choose(j, choice) => if j == i then Some(choice) else LastChoice(run[..|run| - 1], i)
      case Act(_) => LastChoice(run[..|run| - 1], i)
  }

  /** The caller's timeout has fired and it has not gone back to waiting. */
  predicate Late(t: Task) {
    match t
    case Expiring(_) => true
    case LastLook(_) => true
    case Polling(_, _, pass, _) => pass.Final?
    case Comparing(_, job) => job.Expire?
    case Restoring(_, job) => job.Expire?
    case Acting(_, job) => job.Expire?
    case Closing(_, job, _) => job.Expire?
    case Ended(_, outcome) => outcome.TimedOut?
    case Ringing(_, next) => next.ThenEnded? && next.outcome.TimedOut?
    case _ => false
  }

  lemma TurnMakesNobodyLate(slot: Slot, t: Task, me: nat, at: nat)
    requires Touches(t) && Late(TurnOf(slot, t, me, at).task)
    ensures Late(t)
  {
  }

  lemma StepLate(s: State, run: seq<Step>, step: Step, i: nat)
    requires Enabled(s, step) && i < |s.tasks| && (Late(s.tasks[i]) ==> LastChoice(run, i) == Some(TimeOut))
    ensures i < |Apply(s, step).tasks|
    ensures Late(Apply(s, step).tasks[i]) ==> LastChoice(run + [step], i) == Some(TimeOut)
  {
    assert (run + [step])[..|run|] == run;
    if step.Act? && !s.tasks[step.task].Fetching? {
      var j := step.task;
      var at := Index(s.tasks[j], |s.slots|);
      var turn := TurnOf(s.slots[at], s.tasks[j], j, at);
      if j == i && Late(turn.task) { TurnMakesNobodyLate(s.slots[at], s.tasks[j], j, at); }
      WakeIsNotLate(s.tasks[j := turn.task], if turn.wakes then s.slots[at].waker else None, i);
    }
  }

  lemma WakeIsNotLate(tasks: seq<Task>, waker: Option<nat>, k: nat)
    requires k < |tasks|
    ensures |Wake(tasks, waker)| == |tasks| && Late(Wake(tasks, waker)[k]) == Late(tasks[k])
  {
  }

  /** A timeout that fires sets its wait on the verdict, and a request at rest can always be dropped. */
  lemma RequestCanEnd(s: State, i: nat)
    requires |s.slots| > 0 && i < |s.tasks|
    ensures Enabled(s, Choose(i, TimeOut)) ==>
      Apply(s, Choose(i, TimeOut)).tasks == s.tasks[i := Expiring(s.tasks[i].id)]
    ensures s.tasks[i].Held? || s.tasks[i].Parked? || s.tasks[i].Ended? ==> Enabled(s, Choose(i, DropGuard))
  {
  }

  /** A wait reports a timeout only if firing its timeout was the last thing its caller chose. */
  lemma {:induction false} TimeoutsWereChosen(ring: nat, tasks: nat, run: seq<Step>, s: State, i: nat)
    requires After(Init(ring, tasks), run) == Some(s) && i < tasks
    ensures i < |s.tasks| && (Late(s.tasks[i]) ==> LastChoice(run, i) == Some(TimeOut))
    decreases |run|
  {
    if run != [] {
      var prefix, step := run[..|run| - 1], run[|run| - 1];
      var before := After(Init(ring, tasks), prefix).value;
      TimeoutsWereChosen(ring, tasks, prefix, before, i);
      StepLate(before, prefix, step, i);
      assert prefix + [step] == run;
    }
  }
}
