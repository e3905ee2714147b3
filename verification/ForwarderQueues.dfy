/** The loops a forwarding worker runs over its waiting queue, and the deadline search. */
module ForwarderQueues {
  import opened Common

  datatype ForwardTask = ForwardTask(id: nat, deadline: Option<nat>, hasTimeoutReply: bool)

  datatype ForwardOutcome = Success | Timeout | Error | ReplyUndeliverable

  datatype Completion = Completion(task: ForwardTask, outcome: ForwardOutcome)

  predicate Expired(t: ForwardTask, now: nat) { t.deadline.Some? && t.deadline.value <= now }

  /** `complete_expired_queued`; `delivers` says whether the terminal reply is enqueued. */
  function ExpireTask(t: ForwardTask, delivers: ForwardTask -> bool): Completion {
    Completion(t, if t.hasTimeoutReply && !delivers(t) then ReplyUndeliverable else Timeout)
  }

  // ---------------------------------------------------------------- what the loops compute

  /** The tasks of `q` still unexpired, in order; task `i` is judged at `clock(i)`. */
  function Live(q: seq<ForwardTask>, clock: nat -> nat): seq<ForwardTask> {
    if q == [] then []
    else
      var n := |q| - 1;
      if Expired(q[n], clock(n)) then Live(q[..n], clock) else Live(q[..n], clock) + [q[n]]
  }

  function Lapsed(q: seq<ForwardTask>, clock: nat -> nat): seq<ForwardTask> {
    if q == [] then []
    else
      var n := |q| - 1;
      if Expired(q[n], clock(n)) then Lapsed(q[..n], clock) + [q[n]] else Lapsed(q[..n], clock)
  }

  function Completions(q: seq<ForwardTask>, delivers: ForwardTask -> bool): seq<Completion> {
    seq(|q|, i requires 0 <= i < |q| => ExpireTask(q[i], delivers))
  }

  lemma Appended(q: seq<ForwardTask>, t: ForwardTask)
    ensures multiset(q + [t]) == multiset(q) + multiset{t}
  {
  }

  /** Every task is kept or completed, none is both, none is duplicated. */
  lemma {:induction false} LiveLapsedPartition(q: seq<ForwardTask>, clock: nat -> nat)
    ensures multiset(Live(q, clock)) + multiset(Lapsed(q, clock)) == multiset(q)
  {
    if q != [] {
      var n := |q| - 1;
      LiveLapsedPartition(q[..n], clock);
      assert q == q[..n] + [q[n]];
      Appended(q[..n], q[n]);
      Appended(Live(q[..n], clock), q[n]);
      Appended(Lapsed(q[..n], clock), q[n]);
    }
  }

  /** Where the kept tasks sat in the queue. */
  function LiveAt(q: seq<ForwardTask>, clock: nat -> nat): seq<nat> {
    if q == [] then []
    else
      var n := |q| - 1;
      if Expired(q[n], clock(n)) then LiveAt(q[..n], clock) else LiveAt(q[..n], clock) + [n]
  }

  /** The kept tasks stand at increasing positions, so their order is kept. */
  lemma {:induction false} LiveInOrder(q: seq<ForwardTask>, clock: nat -> nat)
    ensures var at := LiveAt(q, clock);
      && |at| == |Live(q, clock)|
      && (forall j | 0 <= j < |at| :: at[j] < |q| && q[at[j]] == Live(q, clock)[j])
      && (forall i, j | 0 <= i < j < |at| :: at[i] < at[j])
  {
    if q != [] { LiveInOrder(q[..|q| - 1], clock); }
  }

  /** Exactly the unexpired positions are kept. */
  lemma {:induction false} LiveExactly(q: seq<ForwardTask>, clock: nat -> nat, i: nat)
    ensures i in LiveAt(q, clock) <==> i < |q| && !Expired(q[i], clock(i))
  {
    if q != [] { LiveExactly(q[..|q| - 1], clock, i); }
  }

  // ---------------------------------------------------------------- the queues of one worker

  class WorkerQueues {
    var waiting: seq<ForwardTask>
    var inflight: seq<ForwardTask>
    var completions: seq<Completion>

    constructor ()
      ensures waiting == [] && inflight == [] && completions == []
    {
      waiting, inflight, completions := [], [], [];
    }

    /** `expire_waiting`: one reading of the clock for the whole pass. */
    method ExpireWaiting(now: nat, delivers: ForwardTask -> bool)
      modifies this
      ensures waiting == Live(old(waiting), _ => now)
      ensures completions == old(completions) + Completions(Lapsed(old(waiting), _ => now), delivers)
      ensures inflight == old(inflight)
    {
      ghost var clock: nat -> nat := _ => now;
      ghost var before := waiting;
      ghost var seen: nat := 0;  // tasks of `before` already judged
      var index := 0;
      while index < |waiting|
        invariant 0 <= index <= |waiting| && seen <= |before|
        invariant waiting[..index] == Live(before[..seen], clock)
        invariant waiting[index..] == before[seen..]
        invariant completions == old(completions) + Completions(Lapsed(before[..seen], clock), delivers)
        invariant inflight == old(inflight)
        decreases |waiting| - index
      {
        assert waiting[index] == before[seen];
        assert before[..seen + 1][..seen] == before[..seen];
        if waiting[index].deadline.Some? && waiting[index].deadline.value <= now {
          var task := waiting[index];
          ghost var done := Lapsed(before[..seen], clock);
          waiting := waiting[..index] + waiting[index + 1..];
          completions := completions + [ExpireTask(task, delivers)];
          assert Lapsed(before[..seen + 1], clock) == done + [task];
          assert Completions(done + [task], delivers) == Completions(done, delivers) + [ExpireTask(task, delivers)];
        } else {
          index := index + 1;
        }
        seen := seen + 1;
      }
      assert before[..seen] == before && waiting[..index] == waiting;
    }

    /**
     `dispatch_waiting`: `clock(i)` is what the clock reads when the `i`-th task is popped.
     A prefix of the queue is popped; its live tasks start in order, its lapsed ones are
     completed, and the loop stops only at the limit or with nothing left to pop.
     */
    method DispatchWaiting(limit: nat, clock: nat -> nat, delivers: ForwardTask -> bool) returns (popped: nat)
      modifies this
      ensures popped <= |old(waiting)| && waiting == old(waiting)[popped..]
      ensures inflight == old(inflight) + Live(old(waiting)[..popped], clock)
      ensures completions == old(completions) + Completions(Lapsed(old(waiting)[..popped], clock), delivers)
      ensures |old(inflight)| <= limit ==> |inflight| <= limit
      ensures waiting == [] || limit <= |inflight|
    {
      ghost var before := waiting;
      popped := 0;
      assert before[..popped] == [];
      while |inflight| < limit && waiting != []
        invariant popped <= |before| && waiting == before[popped..]
        invariant inflight == old(inflight) + Live(before[..popped], clock)
        invariant completions == old(completions) + Completions(Lapsed(before[..popped], clock), delivers)
        invariant |old(inflight)| <= limit ==> |inflight| <= limit
        decreases |waiting|
      {
        var task := waiting[0];
        assert task == before[popped];
        assert before[..popped + 1][..popped] == before[..popped];
        waiting := waiting[1..];
        if task.deadline.Some? && task.deadline.value <= clock(popped) {
          ghost var done := Lapsed(before[..popped], clock);
          completions := completions + [ExpireTask(task, delivers)];
          assert Lapsed(before[..popped + 1], clock) == done + [task];
          assert Completions(done + [task], delivers) == Completions(done, delivers) + [ExpireTask(task, delivers)];
        } else {
          inflight := inflight + [task];
        }
        popped := popped + 1;
      }
    }
  }

  /** One pass of the worker loop neither loses nor duplicates a task. */
  lemma PassConserves(q: seq<ForwardTask>, now: nat, popped: nat, clock: nat -> nat)
    requires popped <= |Live(q, _ => now)|
    ensures var kept := Live(q, _ => now);
      multiset(q) == multiset(kept[popped..]) + multiset(Live(kept[..popped], clock)) +
                     (multiset(Lapsed(q, _ => now)) + multiset(Lapsed(kept[..popped], clock)))
  {
    var kept := Live(q, _ => now);
    LiveLapsedPartition(q, _ => now);
    LiveLapsedPartition(kept[..popped], clock);
    assert kept == kept[..popped] + kept[popped..];
  }

  // ---------------------------------------------------------------- saturating deadline

  function Min(a: nat, b: nat): nat { if a <= b then a else b }

  /** `Instant::checked_add`, with `headroom` the largest representable offset in nanoseconds. */
  function CheckedAdd(startedAt: nat, offset: nat, headroom: nat): Option<nat> {
    if offset <= headroom then Some(startedAt + offset) else None
  }

  /** `saturating_deadline`, over nanoseconds. */
  method SaturatingDeadline(startedAt: nat, timeout: nat, headroom: nat) returns (deadline: nat)
    ensures timeout <= headroom ==> deadline == startedAt + timeout
    ensures startedAt <= deadline <= startedAt + Min(timeout, headroom)
    ensures headroom < timeout ==> startedAt + Min(U64_LIMIT - 1, (headroom + 1) / 2) <= deadline
  {
    var exact := CheckedAdd(startedAt, timeout, headroom);
    if exact.Some? { return exact.value; }
    var nanos := timeout;
    while 0 < nanos
      invariant nanos <= timeout
      invariant headroom < nanos || ((headroom + 1) / 2 <= nanos && headroom < U64_LIMIT - 1)
    {
      var chunk := if nanos < U64_LIMIT then nanos else U64_LIMIT - 1;
      var candidate := CheckedAdd(startedAt, chunk, headroom);
      if candidate.Some? { return candidate.value; }
      nanos := nanos / 2;
    }
    return startedAt;
  }
}
