/**
 Waking the forwarder's workers for shutdown: each worker registers with the notifier before
 it looks at the closed flag, and shutdown notifies only after it has set the flag.
 */
module ShutdownWake {
  import opened Common

  /** A worker's loop; `saw` is the closed flag as loaded, `woken` whether its registration was notified. */
  datatype Worker =
    | Top
    | Registered(woken: bool)
    | Checked(saw: bool, woken: bool)
    | Parked(saw: bool, woken: bool)

  /** A shutdown call from setting the flag to its last notification. */
  datatype Caller = Away | Closing | Announcing | Ringing(left: nat)

  datatype State = State(closed: bool, permit: bool, workers: seq<Worker>, callers: seq<Caller>)

  /** `Ring(j, i)` notifies worker `i`, if any is registered and not yet notified. */
  datatype Step = Work(worker: nat) | Call(caller: nat) | Ring(caller: nat, worker: nat)

  predicate Listens(w: Worker) { !w.Top? && !w.woken }

  predicate Enabled(s: State, step: Step) {
    match step
    case Work(i) => i < |s.workers|
    case Call(j) => j < |s.callers| && !s.callers[j].Ringing?
    case Ring(j, i) =>
      j < |s.callers| && s.callers[j].Ringing? &&
      ((i < |s.workers| && Listens(s.workers[i])) || forall k | 0 <= k < |s.workers| :: !Listens(s.workers[k]))
  }

  /** Leaving the select through any branch starts the next iteration; a stored permit is taken at registration. */
  function NextWorker(s: State, w: Worker): Worker {
    match w
    case Top => Registered(s.permit)
    case Registered(woken) => Checked(s.closed, woken)
    case Checked(saw, woken) => Parked(saw, woken)
    case Parked(_, _) => Top
  }

  function Woken(w: Worker): Worker { if w.Top? then w else w.(woken := true) }

  function Apply(s: State, step: Step): State
    requires Enabled(s, step)
  {
    match step
    case Work(i) =>
      s.(workers := s.workers[i := NextWorker(s, s.workers[i])], permit := s.permit && !s.workers[i].Top?)
    case Call(j) =>
      (match s.callers[j]
       case Away => s.(callers := s.callers[j := Closing])
       case Closing => s.(closed := true, callers := s.callers[j := Announcing])
       case Announcing =>
         s.(workers := seq(|s.workers|, i requires 0 <= i < |s.workers| => Woken(s.workers[i])),
            callers := s.callers[j := Ringing(|s.workers|)])
       case Ringing(_) => s)
    case Ring(j, i) =>
      if s.callers[j].left == 0 then s.(callers := s.callers[j := Away])
      else
        var rung := s.(callers := s.callers[j := Ringing(s.callers[j].left - 1)]);
        if i < |s.workers| && Listens(s.workers[i]) then rung.(workers := s.workers[i := Woken(s.workers[i])])
        else rung.(permit := true)
  }

  function After(s: State, run: seq<Step>): Option<State>
    decreases |run|
  {
    if run == [] then Some(s)
    else
      match After(s, run[..|run| - 1])
      case None => None
      case Some(t) => if Enabled(t, run[|run| - 1]) then Some(Apply(t, run[|run| - 1])) else None
  }

  function Init(workers: nat, callers: nat): State {
    State(false, false, seq(workers, _ => Top), seq(callers, _ => Away))
  }

  predicate Announces(s: State, j: nat) { j < |s.callers| && s.callers[j].Announcing? }

  /** Looked before the flag was set, and has not been notified. */
  predicate Unaware(w: Worker) { (w.Checked? || w.Parked?) && !w.saw && !w.woken }

  /** Whoever looked too early is notified, unless a call is just about to notify everybody. */
  ghost predicate Inv(s: State) {
    s.closed && (exists i | 0 <= i < |s.workers| :: Unaware(s.workers[i])) ==> exists j :: Announces(s, j)
  }

  lemma StepKeepsInv(s: State, step: Step)
    requires Inv(s) && Enabled(s, step)
    ensures Inv(Apply(s, step))
  {
    var t := Apply(s, step);
    if t.closed && exists i | 0 <= i < |t.workers| :: Unaware(t.workers[i]) {
      var i :| 0 <= i < |t.workers| && Unaware(t.workers[i]);
      if step.Call? && s.callers[step.caller].Closing? {
        assert Announces(t, step.caller);
      } else {
        assert Unaware(s.workers[i]);
        var j :| Announces(s, j);
        assert Announces(t, j);
      }
    }
  }

  lemma {:induction false} RunInv(s: State, run: seq<Step>, t: State)
    requires Inv(s) && After(s, run) == Some(t)
    ensures Inv(t)
    decreases |run|
  {
    if run != [] {
      RunInv(s, run[..|run| - 1], After(s, run[..|run| - 1]).value);
      StepKeepsInv(After(s, run[..|run| - 1]).value, run[|run| - 1]);
    }
  }

  /**
   No worker sleeps through shutdown: once the flag is set and no call is between setting it
   and notifying, every parked worker has seen the flag or has been notified.
   */
  lemma NoWorkerSleepsOn(workers: nat, callers: nat, run: seq<Step>, s: State, i: nat)
    requires After(Init(workers, callers), run) == Some(s) && s.closed && i < |s.workers| && s.workers[i].Parked?
    requires forall j | 0 <= j < |s.callers| :: !s.callers[j].Announcing?
    ensures s.workers[i].saw || s.workers[i].woken
  {
    RunInv(Init(workers, callers), run, s);
    assert Unaware(s.workers[i]) ==> exists j :: Announces(s, j);
  }

  /** Setting the flag is followed by a notification of everybody registered and one more for every worker. */
  lemma EveryWorkerRung(s: State, j: nat)
    requires j < |s.callers| && s.callers[j].Announcing?
    ensures Enabled(s, Call(j))
    ensures var t := Apply(s, Call(j));
      t.callers == s.callers[j := Ringing(|s.workers|)] && |t.workers| == |s.workers| &&
      forall i | 0 <= i < |s.workers| :: !Listens(t.workers[i])
  {
  }

  /** Each of these wakes one listener, or is kept if there is none. */
  lemma RingCounts(s: State, j: nat, i: nat)
    requires Enabled(s, Ring(j, i)) && s.callers[j].left > 0
    ensures var t := Apply(s, Ring(j, i));
      t.callers == s.callers[j := Ringing(s.callers[j].left - 1)] &&
      if exists k | 0 <= k < |s.workers| :: Listens(s.workers[k])
      then t.workers == s.workers[i := Woken(s.workers[i])] && Listens(s.workers[i]) && t.permit == s.permit
      else t.workers == s.workers && t.permit
  {
  }

  /** A notification kept for want of a listener goes to the next worker that registers, and to it alone. */
  lemma PermitWakesNext(s: State, i: nat)
    requires i < |s.workers| && s.workers[i].Top? && s.permit
    ensures var t := Apply(s, Work(i)); t.workers == s.workers[i := Registered(true)] && !t.permit
  {
  }

  /** And a notified worker's next look finds the flag set. */
  lemma NextLookSees(s: State, i: nat)
    requires s.closed && i < |s.workers| && s.workers[i].Parked?
    ensures var run := [Work(i), Work(i), Work(i)];
      After(s, run).Some? && i < |After(s, run).value.workers| &&
      After(s, run).value.workers[i].Checked? && After(s, run).value.workers[i].saw
  {
    var one := Apply(s, Work(i));
    var two := Apply(one, Work(i));
    assert [Work(i), Work(i), Work(i)][..2] == [Work(i), Work(i)];
    assert [Work(i), Work(i)][..1] == [Work(i)];
    assert [Work(i)][..0] == [];
    assert After(s, [Work(i)]) == Some(one);
    assert After(s, [Work(i), Work(i)]) == Some(two);
  }
}
