/** What every step of the forwarder keeps. */
module ForwarderInvariants {
  import opened Common
  import opened Forwarder

  // ---------------------------------------------------------------- sums over workers

  /** Every task in some worker's channel, waiting queue or in-flight set. */
  function Held(ws: seq<Worker>): multiset<TaskId> {
    if ws == [] then multiset{} else Held(ws[..|ws| - 1]) + Contents(ws[|ws| - 1])
  }

  predicate Present(w: Worker) { w.phase.Running? || w.phase.Panicked? || w.phase.Leaving? }

  /** How many workers have not passed the decrement of `remaining`. */
  function Census(ws: seq<Worker>): nat {
    if ws == [] then 0 else Census(ws[..|ws| - 1]) + (if Present(ws[|ws| - 1]) then 1 else 0)
  }

  lemma {:induction false} HeldUpdateOf(ws: seq<Worker>, i: nat, w: Worker, t: TaskId)
    requires i < |ws|
    ensures Held(ws[i := w])[t] + Contents(ws[i])[t] == Held(ws)[t] + Contents(w)[t]
  {
    var n := |ws| - 1;
    var vs := ws[i := w];
    if i == n {
      assert vs[..n] == ws[..n];
    } else {
      assert vs[..n] == ws[..n][i := w];
      HeldUpdateOf(ws[..n], i, w, t);
    }
    assert Held(vs)[t] == Held(vs[..n])[t] + Contents(vs[n])[t];
    assert Held(ws)[t] == Held(ws[..n])[t] + Contents(ws[n])[t];
  }

  lemma HeldUpdate(ws: seq<Worker>, i: nat, w: Worker)
    requires i < |ws|
    ensures Held(ws[i := w]) + Contents(ws[i]) == Held(ws) + Contents(w)
  {
    forall t ensures (Held(ws[i := w]) + Contents(ws[i]))[t] == (Held(ws) + Contents(w))[t] {
      HeldUpdateOf(ws, i, w, t);
    }
  }

  lemma HeldGrows(ws: seq<Worker>, i: nat, w: Worker, extra: multiset<TaskId>)
    requires i < |ws| && Contents(w) == Contents(ws[i]) + extra
    ensures Held(ws[i := w]) == Held(ws) + extra
  {
    HeldUpdate(ws, i, w);
    forall t ensures Held(ws[i := w])[t] == (Held(ws) + extra)[t] {
      assert (Held(ws[i := w]) + Contents(ws[i]))[t] == (Held(ws) + Contents(w))[t];
    }
  }

  lemma HeldShrinks(ws: seq<Worker>, i: nat, w: Worker, gone: multiset<TaskId>)
    requires i < |ws| && Contents(ws[i]) == Contents(w) + gone
    ensures Held(ws) == Held(ws[i := w]) + gone
  {
    HeldUpdate(ws, i, w);
    forall t ensures Held(ws)[t] == (Held(ws[i := w]) + gone)[t] {
      assert (Held(ws[i := w]) + Contents(ws[i]))[t] == (Held(ws) + Contents(w))[t];
    }
  }

  lemma {:induction false} HeldSame(ws: seq<Worker>, vs: seq<Worker>)
    requires |ws| == |vs| && forall i | 0 <= i < |ws| :: Contents(ws[i]) == Contents(vs[i])
    ensures Held(ws) == Held(vs)
  {
    if ws != [] { HeldSame(ws[..|ws| - 1], vs[..|vs| - 1]); }
  }

  lemma {:induction false} HeldNone(ws: seq<Worker>)
    requires forall i | 0 <= i < |ws| :: Contents(ws[i]) == multiset{}
    ensures Held(ws) == multiset{}
  {
    if ws != [] { HeldNone(ws[..|ws| - 1]); }
  }

  lemma {:induction false} CensusUpdate(ws: seq<Worker>, i: nat, w: Worker)
    requires i < |ws|
    ensures Census(ws[i := w]) + (if Present(ws[i]) then 1 else 0) == Census(ws) + (if Present(w) then 1 else 0)
  {
    var n := |ws| - 1;
    if i == n {
      assert ws[i := w][..n] == ws[..n];
    } else {
      assert ws[i := w][..n] == ws[..n][i := w];
      CensusUpdate(ws[..n], i, w);
    }
  }

  lemma {:induction false} CensusSame(ws: seq<Worker>, vs: seq<Worker>)
    requires |ws| == |vs| && forall i | 0 <= i < |ws| :: Present(ws[i]) == Present(vs[i])
    ensures Census(ws) == Census(vs)
  {
    if ws != [] { CensusSame(ws[..|ws| - 1], vs[..|vs| - 1]); }
  }

  lemma {:induction false} CensusZero(ws: seq<Worker>)
    ensures Census(ws) <= |ws|
    ensures Census(ws) == 0 <==> forall i | 0 <= i < |ws| :: !Present(ws[i])
    ensures Census(ws) == |ws| <==> forall i | 0 <= i < |ws| :: Present(ws[i])
  {
    if ws != [] {
      var n := |ws| - 1;
      CensusZero(ws[..n]);
      assert forall i | 0 <= i < n :: ws[..n][i] == ws[i];
    }
  }

  // ---------------------------------------------------------------- the invariants

  function PermitHeld(a: Admission): nat { if a.Free? then 0 else 1 }

  function CountedNow(a: Admission): nat { if a.Counted? then 1 else 0 }

  /** Permits, `admitted`, `completed` and observer calls all tell the same story. */
  ghost predicate Balanced(c: Config, l: Ledger, a: Admission, held: multiset<TaskId>) {
    && l.available + PermitHeld(a) + |held| == PermitLimit(c)
    && l.admitted == |l.accepted| + CountedNow(a)
    && l.accepted == l.observed + l.lost + held
    && (forall t :: l.accepted[t] <= 1)
    && (!a.Free? ==> a.task !in l.accepted)
    && l.completed ==
       |l.observed| + (if l.reconciled then |l.lost| else 0) + (if l.snapshotMidEnqueue then 1 else 0)
    && (l.snapshotMidEnqueue ==> l.reconciled)
    && l.successes + l.errors == (if c.hasObserver then l.completed else 0)
    && l.reconciliations == (if l.reconciled then 1 else 0)
  }

  predicate WorkerOk(c: Config, closed: bool, w: Worker) {
    && (!w.phase.Running? ==> w.channel == [] && w.waiting == [] && w.inflight == [])
    && |w.channel| <= c.capacity
    && |w.inflight| <= MAX_INFLIGHT_PER_WORKER
    && (w.sweptEmpty ==> closed && w.channel == [])
    && (w.rxClosed ==> w.sweptEmpty)
  }

  /** The final sweep of a closed forwarder leaves nothing behind in any channel. */
  predicate WorkersOk(c: Config, closed: bool, a: Admission, ws: seq<Worker>) {
    && |ws| == c.workers
    && (closed ==> a.Free?)
    && forall i | 0 <= i < |ws| :: WorkerOk(c, closed, ws[i])
  }

  predicate LastOnes(w: Worker) { w.phase.LastOut? || w.phase.Settling? }

  predicate SomeLast(ws: seq<Worker>) { exists i | 0 <= i < |ws| :: LastOnes(ws[i]) }

  /** Reconciliation runs only after the last worker left, and then it does run. */
  ghost predicate RemainingOk(c: Config, s: State) {
    && s.remaining == Census(s.workers)
    && (s.ledger.reconciled ==> s.remaining == 0)
    && (forall i | 0 <= i < |s.workers| && LastOnes(s.workers[i]) :: s.remaining == 0)
    && (s.remaining == 0 ==> s.ledger.reconciled || SomeLast(s.workers))
    && s.leftWhileOpen + s.remaining <= c.workers
    && (!s.closed ==> s.leftWhileOpen + s.remaining == c.workers)
    && (s.ledger.snapshotMidEnqueue ==> s.leftWhileOpen == c.workers)
  }

  predicate Holds(p: Caller) {
    p.Closing? || p.WaitArmed? || p.WaitParked? || p.Inspect? || p.Reconcile? || p.Condemn? || p.Forcing? ||
    p.Aborting? || p.ForcedReconcile? || p.TakeHandles? || p.Reaping? || p.Publish? || p.Unwinding? || p.Releasing?
  }

  predicate Leads(m: map<nat, Caller>, k: nat) { k in m && Holds(m[k]) }

  /** At most one live leader, and the `leader` flag says whether there is one. */
  ghost predicate LeadershipOk(m: map<nat, Caller>, h: ShutdownState) {
    && (forall j, k | Leads(m, j) && Leads(m, k) :: j == k)
    && (forall k | Leads(m, k) :: h.leader && !h.reclaimed)
    && (h.leader && !h.reclaimed ==> exists k :: Leads(m, k))
    && (h.reclaimed ==> h.leader && h.terminal.Some?)
  }

  /** What the terminal result and the shutdown callers depend on. */
  datatype View = View(
    closed: bool, terminal: Option<ShutdownResult>, reclaimed: bool,
    remaining: nat, reconciled: bool, nothingLost: bool, abnormal: bool)

  function ViewOf(s: State): View {
    View(s.closed, s.shutdown.terminal, s.shutdown.reclaimed,
         s.remaining, s.ledger.reconciled, s.ledger.lost == multiset{}, s.abnormal)
  }

  /** No worker is still running, nothing was lost, nobody exited abnormally. */
  predicate CleanlyDrained(v: View) {
    v.remaining == 0 && v.reconciled && v.nothingLost && !v.abnormal
  }

  predicate ResultOk(v: View, r: ShutdownResult) {
    && v.closed && v.remaining == 0 && v.reconciled
    && (r.Drained? ==> v.terminal.None? && CleanlyDrained(v))
    && (r.TimedOut? ==> v.terminal == Some(TimedOut))
  }

  predicate CallerOk(v: View, p: Caller) {
    match p
    case Closing(prior) => prior == v.terminal
    case WaitArmed(forced, _) => v.closed && v.terminal == (if forced then Some(TimedOut) else None)
    case WaitParked(forced, _) => v.closed && v.terminal == (if forced then Some(TimedOut) else None)
    case Inspect => v.closed && v.terminal.None? && v.remaining == 0
    case Reconcile(abnormal) => v.closed && v.terminal.None? && v.remaining == 0 && abnormal == v.abnormal
    case Condemn => v.closed && v.terminal.None? && v.remaining == 0 && v.reconciled
    case Forcing => v.closed && v.terminal != Some(Drained)
    case Aborting => v.closed && v.terminal == Some(TimedOut)
    case ForcedReconcile => v.closed && v.terminal == Some(TimedOut) && v.remaining == 0
    case TakeHandles(r) => ResultOk(v, r)
    case Reaping(r, _) => ResultOk(v, r)
    case Publish(r) => ResultOk(v, r)
    case Announce(r) => v.reclaimed && v.terminal == Some(r)
    case Done(r) => v.reclaimed && v.terminal == Some(r)
    case _ => true
  }

  predicate CallersOk(v: View, m: map<nat, Caller>) {
    forall k | k in m :: CallerOk(v, m[k])
  }

  /** The terminal result is truthful. */
  predicate TerminalOk(v: View) {
    && (v.terminal == Some(Drained) ==> v.reclaimed && CleanlyDrained(v))
    && (v.terminal.Some? ==> v.closed)
    && (v.reclaimed ==> v.remaining == 0 && v.reconciled)
  }

  predicate DropOk(s: State) {
    s.dropped ==> s.closed && forall k | k in s.callers :: Over(s.callers[k])
  }

  predicate SomePanicked(ws: seq<Worker>) { exists i | 0 <= i < |ws| :: ws[i].phase.Panicked? }

  /** Tasks are lost only when somebody panicked or the terminal result already says so. */
  predicate LossExplained(ws: seq<Worker>, nothingLost: bool, abnormal: bool, aborted: bool) {
    && (nothingLost || abnormal || SomePanicked(ws) || aborted)
    && (forall i | 0 <= i < |ws| && ws[i].abortRequested :: aborted)
  }

  predicate LossOk(s: State) {
    LossExplained(s.workers, s.ledger.lost == multiset{}, s.abnormal,
                  s.shutdown.terminal == Some(TimedOut) || s.dropped)
  }

  /** Before admission closes, only a panic ends a worker. */
  predicate EarlyExitsOk(closed: bool, abnormal: bool, leftWhileOpen: nat, ws: seq<Worker>) {
    && (0 < leftWhileOpen ==> abnormal)
    && forall i | 0 <= i < |ws| && !ws[i].phase.Running? && !ws[i].phase.Panicked? :: closed || abnormal
  }

  function AllHandles(n: nat): multiset<nat> {
    if n == 0 then multiset{} else AllHandles(n - 1) + multiset{n - 1}
  }

  function HandlesOf(p: Caller): seq<nat> {
    match p
    case Reaping(_, held) => held
    case Unwinding(held) => held
    case _ => []
  }

  function Spread(stored: seq<nat>, held: seq<nat>, joined: multiset<nat>): multiset<nat> {
    multiset(stored) + multiset(held) + joined
  }

  /** Stored, held by the live leader or joined: every worker's handle is exactly one of these. */
  ghost predicate HandlesOk(
    c: Config, m: map<nat, Caller>, reclaimed: bool, stored: seq<nat>, joined: multiset<nat>)
  {
    && (forall k | Leads(m, k) :: Spread(stored, HandlesOf(m[k]), joined) == AllHandles(c.workers))
    && ((forall k :: !Leads(m, k)) ==> Spread(stored, [], joined) == AllHandles(c.workers))
    && (forall k | k in m && (m[k].Publish? || m[k].Reaping?) :: stored == [])
    && (reclaimed ==> stored == [])
  }

  predicate JoinedOk(ws: seq<Worker>, joined: multiset<nat>) {
    forall i | i in joined :: i < |ws| && ws[i].phase.Gone?
  }

  predicate Notifier(m: map<nat, Caller>, k: nat) { k in m && (m[k].Announce? || m[k].ReleaseNotify?) }

  /** A parked waiter always has a live leader or somebody about to wake it. */
  ghost predicate WaitersOk(m: map<nat, Caller>, h: ShutdownState) {
    forall k | k in m && m[k] == Parked(false) :: (h.leader && !h.reclaimed) || exists j :: Notifier(m, j)
  }

  predicate SomeLastOut(ws: seq<Worker>) { exists i | 0 <= i < |ws| :: ws[i].phase.LastOut? }

  predicate EveryAborted(ws: seq<Worker>) { forall i | 0 <= i < |ws| :: ws[i].abortRequested }

  /** A leader parked on `done` still has a worker that will wake it. */
  predicate LeaderWaitOk(m: map<nat, Caller>, remaining: nat, ws: seq<Worker>) {
    && (forall k | k in m && m[k].WaitParked? && !m[k].woken :: 0 < remaining || SomeLastOut(ws))
    && (forall k | k in m && (m[k].WaitParked? || m[k].WaitArmed?) && m[k].forced :: EveryAborted(ws))
  }

  ghost predicate Inv(c: Config, s: State) {
    && Balanced(c, s.ledger, s.admission, Held(s.workers))
    && WorkersOk(c, s.closed, s.admission, s.workers)
    && RemainingOk(c, s)
    && LeadershipOk(s.callers, s.shutdown)
    && LossOk(s)
    && EarlyExitsOk(s.closed, s.abnormal, s.leftWhileOpen, s.workers)
    && TerminalOk(ViewOf(s))
    && CallersOk(ViewOf(s), s.callers)
    && DropOk(s)
    && HandlesOk(c, s.callers, s.shutdown.reclaimed, s.stored, s.joined)
    && JoinedOk(s.workers, s.joined)
    && WaitersOk(s.callers, s.shutdown)
    && LeaderWaitOk(s.callers, s.remaining, s.workers)
  }

  // ---------------------------------------------------------------- the initial state

  lemma {:induction false} AllHandlesSeq(n: nat)
    ensures multiset(seq(n, i => i)) == AllHandles(n)
  {
    if n != 0 {
      AllHandlesSeq(n - 1);
      var all: seq<nat> := seq(n, i => i);
      assert all == seq(n - 1, i => i) + [n - 1];
    }
  }

  lemma InitBooks(c: Config)
    ensures var s := Init(c);
      Balanced(c, s.ledger, s.admission, Held(s.workers)) && WorkersOk(c, s.closed, s.admission, s.workers) &&
      RemainingOk(c, s)
  {
    var s := Init(c);
    HeldNone(s.workers);
    CensusZero(s.workers);
  }

  lemma InitInv(c: Config)
    ensures Inv(c, Init(c))
  {
    InitBooks(c);
    AllHandlesSeq(c.workers);
    assert forall k :: !Leads(Init(c).callers, k);
  }
}
