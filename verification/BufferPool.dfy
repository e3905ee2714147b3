/**
 The receive-buffer pool: a bounded queue of idle buffers and a byte budget kept by
 compare-and-swap loops. Threads interleave at every atomic access.
 */
module BufferPool {
  import opened Common

  const MAX_POOLED_CAPACITY := 8 * 1024 * 1024
  const DEFAULT_CAPACITY := 256

  datatype Buffer = Buffer(capacity: Usize, data: Bytes)

  /** What a thread does once its reservation is released. */
  datatype Next = HandOut(buffer: Buffer, want: Usize) | Forget

  datatype Thread =
    | Quiet
    | Handed(buffer: Buffer, want: Usize)
    | Using(buffer: Buffer)
    | Owing(bytes: Usize, next: Next)
    | Releasing(bytes: Usize, next: Next, seen: Usize)
    | Wishing(buffer: Buffer)
    | Reserving(buffer: Buffer, seen: Usize)
    | Pushing(buffer: Buffer)

  datatype Pool = Pool(queue: seq<Buffer>, slots: nat, retained: Usize, budget: Usize, threads: seq<Thread>)

  datatype Step =
    | Get(thread: nat, want: Usize, given: Usize)
    | Use(thread: nat, buffer: Buffer)
    | Drop(thread: nat)
    | Return(thread: nat)
    | LoadForRelease(thread: nat)
    | SwapRelease(thread: nat, spurious: bool, grown: Usize)
    | LoadForReserve(thread: nat)
    | SwapReserve(thread: nat, spurious: bool)
    | Push(thread: nat)

  /** `reserve` grows to at least `want`; `grown` is what the allocator gave. */
  function Emptied(b: Buffer, want: Usize, grown: Usize): Buffer {
    Buffer(if b.capacity < want then grown else b.capacity, [])
  }

  predicate Enabled(p: Pool, step: Step) {
    step.thread < |p.threads| &&
    var t := p.threads[step.thread];
    match step
    case Get(_, want, given) => t.Quiet? && want <= given
    case Use(_, b) => (t.Handed? || t.Using?) && |b.data| <= b.capacity
    case Drop(_) => t.Handed? || t.Using?
    case Return(_) => t.Handed? || t.Using?
    case LoadForRelease(_) => t.Owing?
    case SwapRelease(_, _, grown) => t.Releasing? && (t.next.HandOut? ==> t.next.want <= grown)
    case LoadForReserve(_) => t.Wishing?
    case SwapReserve(_, _) => t.Reserving?
    case Push(_) => t.Pushing?
  }

  function Released(next: Next, grown: Usize): Thread {
    match next
    case HandOut(b, want) => Handed(Emptied(b, want, grown), want)
    case Forget => Quiet
  }

  function Apply(p: Pool, step: Step): Pool
    requires Enabled(p, step)
  {
    var i := step.thread;
    var t := p.threads[i];
    match step
    case Get(_, want, given) =>
      if p.queue == [] then p.(threads := p.threads[i := Handed(Buffer(given, []), want)])
      else
        var b := p.queue[0];
        p.(queue := p.queue[1..], threads := p.threads[i := Owing(b.capacity, HandOut(b, want))])
    case Use(_, b) => p.(threads := p.threads[i := Using(b)])
    case Drop(_) => p.(threads := p.threads[i := Quiet])
    case Return(_) =>
      var b := Buffer(t.buffer.capacity, []);
      p.(threads := p.threads[i := if MAX_POOLED_CAPACITY < b.capacity then Quiet else Wishing(b)])
    case LoadForRelease(_) => p.(threads := p.threads[i := Releasing(t.bytes, t.next, p.retained)])
    case SwapRelease(_, spurious, grown) =>
      if p.retained == t.seen && !spurious
      then p.(retained := SaturatingSub(t.seen, t.bytes), threads := p.threads[i := Released(t.next, grown)])
      else p.(threads := p.threads[i := Releasing(t.bytes, t.next, p.retained)])
    case LoadForReserve(_) => p.(threads := p.threads[i := Reserving(t.buffer, p.retained)])
    case SwapReserve(_, spurious) =>
      if U64_LIMIT <= t.seen + t.buffer.capacity || p.budget < t.seen + t.buffer.capacity
      then p.(threads := p.threads[i := Quiet])
      else if p.retained == t.seen && !spurious
      then p.(retained := t.seen + t.buffer.capacity, threads := p.threads[i := Pushing(t.buffer)])
      else p.(threads := p.threads[i := Reserving(t.buffer, p.retained)])
    case Push(_) =>
      if |p.queue| < p.slots then p.(queue := p.queue + [t.buffer], threads := p.threads[i := Quiet])
      else p.(threads := p.threads[i := Owing(t.buffer.capacity, Forget)])
  }

  function After(p: Pool, run: seq<Step>): Option<Pool>
    decreases |run|
  {
    if run == [] then Some(p)
    else
      match After(p, run[..|run| - 1])
      case None => None
      case Some(q) => if Enabled(q, run[|run| - 1]) then Some(Apply(q, run[|run| - 1])) else None
  }

  // ---------------------------------------------------------------- accounting

  function Capacities(queue: seq<Buffer>): nat {
    if queue == [] then 0 else queue[0].capacity + Capacities(queue[1..])
  }

  /** Bytes a thread has reserved but not pushed, or popped but not released. */
  function Charge(t: Thread): nat {
    match t
    case Owing(bytes, _) => bytes
    case Releasing(bytes, _, _) => bytes
    case Pushing(b) => b.capacity
    case _ => 0
  }

  function Charges(threads: seq<Thread>): nat
    decreases |threads|
  {
    if threads == [] then 0 else Charges(threads[..|threads| - 1]) + Charge(threads[|threads| - 1])
  }

  lemma {:induction false} ChargeMoves(threads: seq<Thread>, i: nat, t: Thread)
    requires i < |threads|
    ensures Charge(threads[i]) <= Charges(threads)
    ensures Charges(threads[i := t]) == Charges(threads) - Charge(threads[i]) + Charge(t)
    decreases |threads|
  {
    var n := |threads| - 1;
    if i == n {
      assert threads[i := t][..n] == threads[..n];
    } else {
      ChargeMoves(threads[..n], i, t);
      assert threads[i := t][..n] == threads[..n][i := t];
    }
  }

  lemma {:induction false} CapacitiesAppend(queue: seq<Buffer>, b: Buffer)
    ensures Capacities(queue + [b]) == Capacities(queue) + b.capacity
  {
    if queue == [] {
      assert queue + [b] == [b];
    } else {
      CapacitiesAppend(queue[1..], b);
      assert (queue + [b])[1..] == queue[1..] + [b];
    }
  }

  predicate Accounted(p: Pool) {
    p.retained == Capacities(p.queue) + Charges(p.threads) && p.retained <= p.budget && |p.queue| <= p.slots
  }

  predicate Poolable(b: Buffer) { b.data == [] && b.capacity <= MAX_POOLED_CAPACITY }

  /** A release always saw enough to subtract from; a buffer handed out is empty and large enough. */
  predicate ThreadOk(t: Thread) {
    match t
    case Handed(b, want) => b.data == [] && want <= b.capacity
    case Using(b) => |b.data| <= b.capacity
    case Releasing(bytes, _, seen) => bytes <= seen
    case Wishing(b) => Poolable(b)
    case Reserving(b, _) => Poolable(b)
    case Pushing(b) => Poolable(b)
    case _ => true
  }

  predicate Inv(p: Pool) {
    Accounted(p) && (forall i | 0 <= i < |p.queue| :: Poolable(p.queue[i])) &&
    (forall i | 0 <= i < |p.threads| :: ThreadOk(p.threads[i]))
  }

  lemma StepKeepsAccounts(p: Pool, step: Step)
    requires Accounted(p) && Enabled(p, step) && ThreadOk(p.threads[step.thread])
    ensures Accounted(Apply(p, step))
  {
    ChargeMoves(p.threads, step.thread, Apply(p, step).threads[step.thread]);
    if step.Push? { CapacitiesAppend(p.queue, p.threads[step.thread].buffer); }
  }

  lemma StepKeepsThread(p: Pool, step: Step)
    requires Accounted(p) && Enabled(p, step) && ThreadOk(p.threads[step.thread])
    ensures ThreadOk(Apply(p, step).threads[step.thread])
  {
    ChargeMoves(p.threads, step.thread, Quiet);
  }

  lemma StepKeepsQueue(p: Pool, step: Step)
    requires Enabled(p, step) && ThreadOk(p.threads[step.thread])
    requires forall i | 0 <= i < |p.queue| :: Poolable(p.queue[i])
    ensures forall i | 0 <= i < |Apply(p, step).queue| :: Poolable(Apply(p, step).queue[i])
  {
  }

  lemma StepKeepsInv(p: Pool, step: Step)
    requires Inv(p) && Enabled(p, step)
    ensures Inv(Apply(p, step))
  {
    StepKeepsAccounts(p, step);
    StepKeepsThread(p, step);
    StepKeepsQueue(p, step);
    var q := Apply(p, step);
    forall i | 0 <= i < |q.threads| ensures ThreadOk(q.threads[i]) {
      assert i != step.thread ==> q.threads[i] == p.threads[i];
    }
  }

  lemma {:induction false} RunInv(p: Pool, run: seq<Step>)
    requires Inv(p)
    ensures After(p, run).Some? ==> Inv(After(p, run).value)
    decreases |run|
  {
    if run != [] {
      RunInv(p, run[..|run| - 1]);
      var q := After(p, run[..|run| - 1]);
      if q.Some? && Enabled(q.value, run[|run| - 1]) { StepKeepsInv(q.value, run[|run| - 1]); }
    }
  }

  predicate Fresh(p: Pool) {
    p.retained == Capacities(p.queue) <= p.budget && |p.queue| <= p.slots &&
    (forall i | 0 <= i < |p.queue| :: p.queue[i] == Buffer(DEFAULT_CAPACITY, [])) &&
    (forall i | 0 <= i < |p.threads| :: p.threads[i].Quiet?)
  }

  lemma {:induction false} QuietOweNothing(threads: seq<Thread>)
    requires forall i | 0 <= i < |threads| :: Charge(threads[i]) == 0
    ensures Charges(threads) == 0
    decreases |threads|
  {
    if threads != [] { QuietOweNothing(threads[..|threads| - 1]); }
  }

  /**
   In every run the counter is exactly the queued capacities plus what is reserved and not yet
   pushed plus what is popped and not yet released, within the budget; no release saturates;
   every buffer handed out is empty and at least as large as asked.
   */
  lemma RetainedIsExact(start: Pool, run: seq<Step>, p: Pool)
    requires Fresh(start) && After(start, run) == Some(p)
    ensures p.retained == Capacities(p.queue) + Charges(p.threads) <= p.budget && |p.queue| <= p.slots
    ensures forall i | 0 <= i < |p.threads| && p.threads[i].Releasing? :: p.threads[i].bytes <= p.threads[i].seen
    ensures forall i | 0 <= i < |p.threads| && p.threads[i].Handed? ::
      p.threads[i].buffer.data == [] && p.threads[i].want <= p.threads[i].buffer.capacity
    ensures (forall i | 0 <= i < |p.threads| :: Charge(p.threads[i]) == 0) ==> p.retained == Capacities(p.queue)
  {
    QuietOweNothing(start.threads);
    RunInv(start, run);
    if forall i | 0 <= i < |p.threads| :: Charge(p.threads[i]) == 0 { QuietOweNothing(p.threads); }
    forall i | 0 <= i < |p.threads| ensures ThreadOk(p.threads[i]) { }
  }

  /** Losing a race does not lose the buffer: its return is given up only for want of budget, and else retried. */
  lemma RaceRetries(p: Pool, i: nat, spurious: bool)
    requires Enabled(p, SwapReserve(i, spurious))
    ensures var t, t' := p.threads[i], Apply(p, SwapReserve(i, spurious)).threads[i];
      if p.budget < t.seen + t.buffer.capacity then t'.Quiet?
      else if p.retained == t.seen && !spurious then t' == Pushing(t.buffer)
      else t' == Reserving(t.buffer, p.retained)
  {
  }

  // ---------------------------------------------------------------- a call that nobody disturbs

  predicate Alone(run: seq<Step>, i: nat) { forall step | step in run :: step.thread == i }

  lemma Onward(p: Pool, run: seq<Step>, q: Pool, step: Step) returns (run': seq<Step>, q': Pool)
    requires After(p, run) == Some(q) && Alone(run, step.thread) && Enabled(q, step)
    ensures After(p, run') == Some(q') && Alone(run', step.thread) && q' == Apply(q, step)
  {
    run', q' := run + [step], Apply(q, step);
    assert run'[..|run'| - 1] == run;
  }

  /** Undoing a reservation, or paying for a popped buffer. */
  lemma ReleaseAlone(p: Pool, run: seq<Step>, q: Pool, i: nat, grown: Usize) returns (run': seq<Step>, q': Pool)
    requires After(p, run) == Some(q) && Alone(run, i) && i < |q.threads| && q.threads[i].Owing?
    requires q.threads[i].next.HandOut? ==> q.threads[i].next.want <= grown
    requires q.threads[i].bytes <= q.retained
    ensures After(p, run') == Some(q') && Alone(run', i)
    ensures q' == q.(retained := q.retained - q.threads[i].bytes,
                     threads := q.threads[i := Released(q.threads[i].next, grown)])
  {
    var t := q.threads[i];
    run', q' := Onward(p, run, q, LoadForRelease(i));
    assert q' == q.(threads := q.threads[i := Releasing(t.bytes, t.next, q.retained)]);
    run', q' := Onward(p, run', q', SwapRelease(i, false, grown));
  }

  lemma PushAlone(p: Pool, run: seq<Step>, q: Pool, i: nat) returns (run': seq<Step>, q': Pool)
    requires After(p, run) == Some(q) && Alone(run, i) && i < |q.threads| && q.threads[i].Pushing?
    requires q.threads[i].buffer.capacity <= q.retained
    ensures After(p, run') == Some(q') && Alone(run', i)
    ensures var b := q.threads[i].buffer;
      q' == if |q.queue| < q.slots then q.(queue := q.queue + [b], threads := q.threads[i := Quiet])
            else q.(retained := q.retained - b.capacity, threads := q.threads[i := Quiet])
  {
    run', q' := Onward(p, run, q, Push(i));
    if q.slots <= |q.queue| { run', q' := ReleaseAlone(p, run', q', i, 0); }
  }

  lemma ReserveAlone(p: Pool, run: seq<Step>, q: Pool, i: nat) returns (run': seq<Step>, q': Pool)
    requires After(p, run) == Some(q) && Alone(run, i) && i < |q.threads| && q.threads[i].Wishing?
    ensures After(p, run') == Some(q') && Alone(run', i)
    ensures var b := q.threads[i].buffer;
      q' == if q.retained + b.capacity <= q.budget
            then q.(retained := q.retained + b.capacity, threads := q.threads[i := Pushing(b)])
            else q.(threads := q.threads[i := Quiet])
  {
    var b := q.threads[i].buffer;
    run', q' := Onward(p, run, q, LoadForReserve(i));
    assert q' == q.(threads := q.threads[i := Reserving(b, q.retained)]);
    run', q' := Onward(p, run', q', SwapReserve(i, false));
  }

  /**
   A buffer returned without interference joins the queue, emptied, exactly when its size,
   the budget and the queue allow; otherwise the pool is as it was.
   */
  lemma ReturnAlone(p: Pool, i: nat) returns (run: seq<Step>, q: Pool)
    requires i < |p.threads| && (p.threads[i].Handed? || p.threads[i].Using?)
    ensures After(p, run) == Some(q) && Alone(run, i) && q.threads == p.threads[i := Quiet]
    ensures var size := p.threads[i].buffer.capacity;
      if size <= 8 * 1024 * 1024 && p.retained + size <= p.budget && |p.queue| < p.slots
      then q.queue == p.queue + [Buffer(size, [])] && q.retained == p.retained + size
      else q.queue == p.queue && q.retained == p.retained
  {
    var b := Buffer(p.threads[i].buffer.capacity, []);
    run, q := Onward(p, [], p, Return(i));
    if b.capacity <= MAX_POOLED_CAPACITY {
      run, q := ReserveAlone(p, run, q, i);
      if p.retained + b.capacity <= p.budget { run, q := PushAlone(p, run, q, i); }
    }
  }

  /** A buffer taken without interference is the oldest idle one, grown only if it is too small. */
  lemma GetAlone(p: Pool, i: nat, want: Usize, grown: Usize) returns (run: seq<Step>, q: Pool)
    requires Inv(p) && i < |p.threads| && p.threads[i].Quiet? && want <= grown
    ensures After(p, run) == Some(q) && Alone(run, i) && i < |q.threads| && q.threads[i].Handed?
    ensures if p.queue == []
      then q.queue == [] && q.threads[i].buffer == Buffer(grown, []) && q.retained == p.retained
      else q.queue == p.queue[1..] && q.retained == p.retained - p.queue[0].capacity &&
           q.threads[i].buffer ==
             Buffer(if p.queue[0].capacity < want then grown else p.queue[0].capacity, [])
  {
    run, q := Onward(p, [], p, Get(i, want, grown));
    if p.queue != [] { run, q := ReleaseAlone(p, run, q, i, grown); }
  }

  // ---------------------------------------------------------------- the pool as one thread sees it

  class AlignedBytesPool {
    const slots: nat
    const budget: Usize
    var queue: seq<Buffer>
    var retained: Usize

    ghost predicate Valid()
      reads this
    {
      |queue| <= slots && retained == Capacities(queue) <= budget &&
      forall i | 0 <= i < |queue| :: Poolable(queue[i])
    }

    /** Prefills with default buffers until the pool size or the byte budget is reached. */
    constructor (poolSize: nat, budget: Usize)
      ensures Valid() && this.budget == budget
      ensures slots == if poolSize == 0 then 1 else poolSize
      ensures |queue| == if poolSize <= budget / DEFAULT_CAPACITY then poolSize else budget / DEFAULT_CAPACITY
      ensures forall i | 0 <= i < |queue| :: queue[i] == Buffer(DEFAULT_CAPACITY, [])
    {
      slots := if poolSize == 0 then 1 else poolSize;
      this.budget := budget;
      queue, retained := [], 0;
      new;
      var n := 0;
      while n < poolSize
        invariant 0 <= n <= poolSize && |queue| == n && Valid()
        invariant retained == n * DEFAULT_CAPACITY
        invariant forall i | 0 <= i < |queue| :: queue[i] == Buffer(DEFAULT_CAPACITY, [])
      {
        var reserved := TryReserve(DEFAULT_CAPACITY);
        if !reserved { break; }
        CapacitiesAppend(queue, Buffer(DEFAULT_CAPACITY, []));
        queue := queue + [Buffer(DEFAULT_CAPACITY, [])];
        n := n + 1;
      }
    }

    method TryReserve(bytes: Usize) returns (ok: bool)
      modifies this`retained
      ensures ok <==> old(retained) + bytes <= budget
      ensures retained == if ok then old(retained) + bytes else old(retained)
    {
      if U64_LIMIT <= retained + bytes || budget < retained + bytes { return false; }
      retained := retained + bytes;
      return true;
    }

    method GetBuffer(want: Usize, grown: Usize) returns (b: Buffer)
      requires Valid() && want <= grown
      modifies this
      ensures Valid() && b.data == [] && want <= b.capacity
      ensures queue == if old(queue) == [] then [] else old(queue)[1..]
      ensures b.capacity ==
        if old(queue) != [] && want <= old(queue)[0].capacity then old(queue)[0].capacity else grown
    {
      if queue == [] { return Buffer(grown, []); }
      b := queue[0];
      queue := queue[1..];
      retained := SaturatingSub(retained, b.capacity);
      b := Emptied(b, want, grown);
    }

    /** A returned buffer is pooled exactly when its size, the budget and the queue allow. */
    method ReturnBuffer(b: Buffer)
      requires Valid()
      modifies this
      ensures Valid()
      ensures var pooled := b.capacity <= MAX_POOLED_CAPACITY && old(retained) + b.capacity <= budget &&
        |old(queue)| < slots;
        queue == old(queue) + if pooled then [Buffer(b.capacity, [])] else []
    {
      var empty := Buffer(b.capacity, []);
      if MAX_POOLED_CAPACITY < empty.capacity { return; }
      var reserved := TryReserve(empty.capacity);
      if !reserved { return; }
      if |queue| < slots {
        CapacitiesAppend(queue, empty);
        queue := queue + [empty];
      } else {
        retained := SaturatingSub(retained, empty.capacity);
      }
    }

    /** A receive buffer starts zero-filled whatever its storage held before. */
    method WithLen(len: Usize, grown: Usize) returns (b: Buffer)
      requires Valid() && len <= grown
      modifies this
      ensures Valid() && b.data == Zeros(len) && len <= b.capacity
    {
      b := GetBuffer(len, grown);
      if |b.data| != len { b := b.(data := Zeros(len)); }
    }
  }
}
