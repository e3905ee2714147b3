/**
 Immediate-gossip coalescing: the select arm of the gossip timer and the detached workers
 it spawns share two atomics, `inFlight` and `pending`, and the registry's notifier. Each
 atomic access is one step, so arm and workers interleave everywhere.
 */
module GossipCoalescing {
  import opened Common

  /** The select arm of the timer task. */
  datatype Arm =
    | Waiting
    | Notified      // consumed a notification, `pending` not stored yet
    | Stored        // `pending` stored, the gate not contended for yet
    | Won           // swapped the gate from open to held, worker not spawned yet

  datatype Worker =
    | Top           // about to clear `pending`
    | Claimed       // cleared it, about to begin a round
    | Round         // a round is running
    | Recheck       // the round returned, about to load `pending`
    | Releasing     // about to open the gate
    | Released      // opened it, about to load `pending` once more
    | Rearming      // saw `pending`, about to notify
    | Ended

  datatype State = State(
    permit: bool,        // the notifier holds an undelivered notification
    inFlight: bool,
    pending: bool,
    shutdown: bool,
    arm: Arm,
    workers: seq<Worker>,
    changes: nat,        // peer-list changes announced so far
    served: nat)         // how many of them the latest begun round can see

  function Init(): State { State(false, false, false, false, Waiting, [], 0, 0) }

  datatype Step =
    | Trigger            // somebody changes the peer list and notifies
    | Deliver            // the arm consumes the notification
    | StorePending
    | SwapGate
    | Spawn
    | Work(worker: nat)  // one step of a worker
    | BeginShutdown

  predicate Enabled(s: State, step: Step) {
    match step
    case Trigger => true
    case Deliver => s.arm.Waiting? && s.permit && !s.shutdown
    case StorePending => s.arm.Notified?
    case SwapGate => s.arm.Stored?
    case Spawn => s.arm.Won?
    case Work(i) => i < |s.workers| && !s.workers[i].Ended?
    case BeginShutdown => !s.shutdown
  }

  function NextWorker(s: State, w: Worker): Worker {
    match w
    case Top => Claimed
    case Claimed => if s.shutdown then Releasing else Round
    case Round => Recheck
    case Recheck => if s.pending then Top else Releasing
    case Releasing => Released
    case Released => if s.pending then Rearming else Ended
    case Rearming => Ended
    case Ended => Ended
  }

  function Apply(s: State, step: Step): State
    requires Enabled(s, step)
  {
    match step
    case Trigger => s.(changes := s.changes + 1, permit := true)
    case Deliver => s.(permit := false, arm := Notified)
    case StorePending => s.(pending := true, arm := Stored)
    case SwapGate => s.(inFlight := true, arm := if s.inFlight then Waiting else Won)
    case Spawn => s.(arm := Waiting, workers := s.workers + [Top])
    case BeginShutdown => s.(shutdown := true)
    case Work(i) =>
      var w := s.workers[i];
      s.(workers := s.workers[i := NextWorker(s, w)],
         pending := s.pending && !w.Top?,
         inFlight := s.inFlight && !w.Releasing?,
         permit := s.permit || w.Rearming?,
         served := if w.Claimed? && !s.shutdown then s.changes else s.served)
  }

  function After(run: seq<Step>): Option<State> {
    if run == [] then Some(Init())
    else
      match After(run[..|run| - 1])
      case None => None
      case Some(s) => if Enabled(s, run[|run| - 1]) then Some(Apply(s, run[|run| - 1])) else None
  }

  // ---------------------------------------------------------------- one round at a time

  predicate HoldsGate(w: Worker) { w.Top? || w.Claimed? || w.Round? || w.Recheck? || w.Releasing? }

  predicate Holder(s: State, i: nat) { i < |s.workers| && HoldsGate(s.workers[i]) }

  /** The gate is held exactly when the arm just won it or one worker holds it. */
  ghost predicate GateOk(s: State) {
    && (forall i, j | Holder(s, i) && Holder(s, j) :: i == j)
    && (s.arm.Won? ==> s.inFlight && forall i :: !Holder(s, i))
    && (forall i | Holder(s, i) :: s.inFlight)
    && (s.inFlight && !s.arm.Won? ==> exists i :: Holder(s, i))
  }

  lemma WorkKeepsGate(s: State, i: nat)
    requires GateOk(s) && Enabled(s, Work(i))
    ensures GateOk(Apply(s, Work(i)))
  {
    var s' := Apply(s, Work(i));
    assert forall j | j != i :: Holder(s', j) == Holder(s, j);
    assert Holder(s', i) == (Holder(s, i) && !s.workers[i].Releasing?);
    if s'.inFlight && !s'.arm.Won? {
      var j :| Holder(s, j);
      assert Holder(s', j);
    }
  }

  lemma ArmKeepsGate(s: State, step: Step)
    requires GateOk(s) && Enabled(s, step) && !step.Work?
    ensures GateOk(Apply(s, step))
  {
    var s' := Apply(s, step);
    if step.Spawn? {
      forall j: nat ensures Holder(s', j) == (j == |s.workers|) {
        assert !Holder(s, j);
      }
      assert Holder(s', |s.workers|);
    } else {
      assert forall j :: Holder(s', j) == Holder(s, j);
    }
  }

  // ---------------------------------------------------------------- no trigger is stranded

  predicate WillRead(w: Worker) { w.Round? || w.Recheck? || w.Releasing? || w.Released? }

  predicate AboutToServe(s: State, i: nat) {
    i < |s.workers| && (s.workers[i].Top? || s.workers[i].Claimed? || s.workers[i].Rearming?)
  }

  predicate Reader(s: State, i: nat) { i < |s.workers| && WillRead(s.workers[i]) }

  predicate ClaimedBy(s: State, i: nat) { i < |s.workers| && s.workers[i].Claimed? }

  /**
   Until a round that began after the latest change has started, the change is still on
   its way: in the notifier, in the hands of the arm, about to be served or re-announced
   by a worker, or in `pending` with a worker that has yet to read it.
   */
  ghost predicate OnItsWay(s: State) {
    || s.permit
    || !s.arm.Waiting?
    || (exists i :: AboutToServe(s, i))
    || (s.pending && exists i :: Reader(s, i))
  }

  /** Between the arm's store and its swap, a cleared `pending` was claimed by somebody. */
  ghost predicate StoredOk(s: State) {
    s.arm.Stored? && s.served < s.changes ==> s.permit || s.pending || exists i :: ClaimedBy(s, i)
  }

  ghost predicate Inv(s: State) {
    && GateOk(s)
    && s.served <= s.changes
    && (!s.shutdown && s.served < s.changes ==> OnItsWay(s))
    && (!s.shutdown ==> StoredOk(s))
  }

  lemma ArmKeepsWay(s: State, step: Step)
    requires Inv(s) && Enabled(s, step) && !step.Work? && !step.BeginShutdown? && !s.shutdown
    ensures var s' := Apply(s, step); (s'.served < s'.changes ==> OnItsWay(s')) && StoredOk(s')
  {
    var s' := Apply(s, step);
    if s'.served < s'.changes {
      match step
      case Trigger =>
      case Deliver =>
      case StorePending =>
      case SwapGate =>
        if s.inFlight && !s.permit {
          if s.pending {
            var i :| Holder(s, i);
            assert AboutToServe(s', i) || Reader(s', i);
          } else {
            var i :| ClaimedBy(s, i);
            assert AboutToServe(s', i);
          }
        }
      case Spawn => assert AboutToServe(s', |s.workers|);
    }
  }

  lemma WorkKeepsWay(s: State, i: nat)
    requires Inv(s) && Enabled(s, Work(i)) && !s.shutdown
    ensures var s' := Apply(s, Work(i)); s'.served < s'.changes ==> OnItsWay(s')
  {
    var s' := Apply(s, Work(i));
    if s'.served < s'.changes && !s.permit && s.arm.Waiting? {
      if s.workers[i].Top? {
        assert AboutToServe(s', i);
      } else if j: nat :| AboutToServe(s, j) {
        if j != i { assert AboutToServe(s', j); }
      } else {
        var j :| Reader(s, j);
        if j == i {
          assert AboutToServe(s', i) || Reader(s', i);
        } else {
          assert Reader(s', j);
        }
      }
    }
  }

  lemma WorkKeepsStored(s: State, i: nat)
    requires Inv(s) && Enabled(s, Work(i)) && !s.shutdown
    ensures StoredOk(Apply(s, Work(i)))
  {
    var s' := Apply(s, Work(i));
    if s'.arm.Stored? && s'.served < s'.changes && !s'.permit && !s'.pending {
      if s.workers[i].Top? {
        assert ClaimedBy(s', i);
      } else {
        var j :| ClaimedBy(s, j);
        assert ClaimedBy(s', j);
      }
    }
  }

  lemma StepKeepsInv(s: State, step: Step)
    requires Inv(s) && Enabled(s, step)
    ensures Inv(Apply(s, step))
  {
    if step.Work? {
      WorkKeepsGate(s, step.worker);
      if !s.shutdown {
        WorkKeepsWay(s, step.worker);
        WorkKeepsStored(s, step.worker);
      }
    } else {
      ArmKeepsGate(s, step);
      if !s.shutdown && !step.BeginShutdown? { ArmKeepsWay(s, step); }
    }
  }

  lemma {:induction false} RunInv(run: seq<Step>, s: State)
    requires After(run) == Some(s)
    ensures Inv(s)
  {
    if run != [] {
      var before := After(run[..|run| - 1]).value;
      RunInv(run[..|run| - 1], before);
      StepKeepsInv(before, run[|run| - 1]);
    }
  }

  /** At most one immediate round runs at a time. */
  lemma OneRoundAtATime(run: seq<Step>, s: State, i: nat, j: nat)
    requires After(run) == Some(s)
    requires i < |s.workers| && j < |s.workers| && s.workers[i].Round? && s.workers[j].Round?
    ensures i == j
  {
    RunInv(run, s);
    assert Holder(s, i) && Holder(s, j);
  }

  /** No change is ever stranded. */
  lemma NoTriggerStranded(run: seq<Step>, s: State)
    requires After(run) == Some(s) && !s.shutdown && s.served < s.changes
    ensures OnItsWay(s)
  {
    RunInv(run, s);
  }

  /** When nothing is left to do, every change has been seen by a round begun after it. */
  lemma QuietMeansServed(run: seq<Step>, s: State)
    requires After(run) == Some(s) && !s.shutdown
    requires forall step: Step | !step.Trigger? && !step.BeginShutdown? :: !Enabled(s, step)
    ensures s.served == s.changes
  {
    RunInv(run, s);
    assert !Enabled(s, Deliver) && !Enabled(s, StorePending) && !Enabled(s, SwapGate) && !Enabled(s, Spawn);
    forall i: nat ensures !AboutToServe(s, i) && !Reader(s, i) {
      assert !Enabled(s, Work(i));
    }
  }

  // ---------------------------------------------------------------- further rounds, and none after shutdown

  /** A worker that finds a new trigger after its round serves it with another round before it opens the gate. */
  lemma RoundAgain(s: State, i: nat)
    requires i < |s.workers| && s.workers[i].Recheck? && s.pending && !s.shutdown
    ensures var top := Apply(s, Work(i));
      var claimed := Apply(top, Work(i));
      var t := Apply(claimed, Work(i));
      t.workers[i].Round? && t.served == s.changes && t.inFlight == claimed.inFlight == top.inFlight == s.inFlight
  {
  }

  predicate InRound(s: State, i: nat) { i < |s.workers| && s.workers[i].Round? }

  lemma NoneBegins(s: State, step: Step, i: nat)
    requires s.shutdown && Enabled(s, step)
    ensures Apply(s, step).shutdown && Apply(s, step).served == s.served
    ensures InRound(Apply(s, step), i) ==> InRound(s, i)
  {
  }

  /** Once shutdown has begun no immediate round begins any more. */
  lemma {:induction false} NoRoundAfterShutdown(run: seq<Step>, more: seq<Step>, s: State, t: State, i: nat)
    requires After(run) == Some(s) && s.shutdown && After(run + more) == Some(t)
    ensures t.shutdown && t.served == s.served && (InRound(t, i) ==> InRound(s, i))
  {
    if more == [] {
      assert run + more == run;
    } else {
      var n := |more| - 1;
      assert (run + more)[..|run + more| - 1] == run + more[..n];
      NoRoundAfterShutdown(run, more[..n], s, After(run + more[..n]).value, i);
      NoneBegins(After(run + more[..n]).value, more[n], i);
    }
  }

  // ---------------------------------------------------------------- every change is served

  /** The system's own steps: no new change and no shutdown. */
  predicate Internal(step: Step) { !step.Trigger? && !step.BeginShutdown? }

  /** The step that begins a round. */
  predicate Begins(s: State, step: Step) {
    step.Work? && step.worker < |s.workers| && s.workers[step.worker].Claimed? && !s.shutdown
  }

  /** How many steps a worker, and all it can still set off, takes before a round has to begin. */
  function WorkerRank(w: Worker): nat {
    match w
    case Ended => 0
    case Claimed => 1
    case Top => 2
    case Rearming => 7
    case Released => 8
    case Releasing => 9
    case Recheck => 10
    case Round => 11
  }

  function ArmRank(arm: Arm): nat {
    match arm
    case Waiting => 0
    case Won => 3
    case Stored => 4
    case Notified => 5
  }

  function WorkersRank(ws: seq<Worker>): nat
    decreases |ws|
  {
    if ws == [] then 0 else WorkersRank(ws[..|ws| - 1]) + WorkerRank(ws[|ws| - 1])
  }

  function Rank(s: State): nat { WorkersRank(s.workers) + ArmRank(s.arm) + if s.permit then 6 else 0 }

  lemma {:induction false} RankMoves(ws: seq<Worker>, i: nat, w: Worker)
    requires i < |ws|
    ensures WorkerRank(ws[i]) <= WorkersRank(ws)
    ensures WorkersRank(ws[i := w]) == WorkersRank(ws) - WorkerRank(ws[i]) + WorkerRank(w)
    decreases |ws|
  {
    var n := |ws| - 1;
    if i == n {
      assert ws[i := w][..n] == ws[..n];
    } else {
      RankMoves(ws[..n], i, w);
      assert ws[i := w][..n] == ws[..n][i := w];
    }
  }

  /** Every internal step short of beginning a round brings the next round closer. */
  lemma StepDescends(s: State, step: Step)
    requires Enabled(s, step) && Internal(step) && !Begins(s, step) && !s.shutdown
    ensures Rank(Apply(s, step)) < Rank(s)
    ensures Apply(s, step).changes == s.changes && Apply(s, step).served == s.served && !Apply(s, step).shutdown
  {
    if step.Work? {
      RankMoves(s.workers, step.worker, NextWorker(s, s.workers[step.worker]));
    } else if step.Spawn? {
      assert (s.workers + [Top])[..|s.workers|] == s.workers;
    }
  }

  /** Where a run of further steps leads. */
  function Continue(s: State, run: seq<Step>): Option<State>
    decreases |run|
  {
    if run == [] then Some(s)
    else
      match Continue(s, run[..|run| - 1])
      case None => None
      case Some(t) => if Enabled(t, run[|run| - 1]) then Some(Apply(t, run[|run| - 1])) else None
  }

  lemma {:induction false} ServedOrCloser(s: State, run: seq<Step>, t: State)
    requires Inv(s) && !s.shutdown && Continue(s, run) == Some(t)
    requires forall k | 0 <= k < |run| :: Internal(run[k])
    ensures Inv(t) && !t.shutdown && t.changes == s.changes
    ensures t.served == s.changes || (t.served == s.served && Rank(t) + |run| <= Rank(s))
    decreases |run|
  {
    if run != [] {
      var n := |run| - 1;
      var before := Continue(s, run[..n]).value;
      ServedOrCloser(s, run[..n], before);
      StepKeepsInv(before, run[n]);
      if !Begins(before, run[n]) { StepDescends(before, run[n]); }
    }
  }

  /** While a change is not served some internal step is enabled. */
  lemma NeverStuck(s: State) returns (step: Step)
    requires Inv(s) && !s.shutdown && s.served < s.changes
    ensures Internal(step) && Enabled(s, step)
  {
    if s.permit && s.arm.Waiting? {
      step := Deliver;
    } else if s.arm.Notified? {
      step := StorePending;
    } else if s.arm.Stored? {
      step := SwapGate;
    } else if s.arm.Won? {
      step := Spawn;
    } else if i: nat :| AboutToServe(s, i) {
      step := Work(i);
    } else {
      var i: nat :| Reader(s, i);
      step := Work(i);
    }
  }

  /**
   Every change is served: from any reachable state, with no further change, the system can
   always go on until a round has begun after the latest change, and whatever order its steps
   take, one has begun after at most `Rank` of them.
   */
  lemma ServedInTime(run: seq<Step>, s: State, more: seq<Step>, t: State)
    requires After(run) == Some(s) && !s.shutdown && Continue(s, more) == Some(t)
    requires forall k | 0 <= k < |more| :: Internal(more[k])
    ensures |more| > Rank(s) ==> t.served == t.changes == s.changes
    ensures t.served < t.changes ==> exists step :: Internal(step) && Enabled(t, step)
  {
    RunInv(run, s);
    ServedOrCloser(s, more, t);
    if t.served < t.changes { var step := NeverStuck(t); }
  }
}
