/** `allocate` by a caller that nobody disturbs: which id it hands out, and when it finds no slot. */
module CorrelationAllocation {
  import opened Common
  import opened Correlation

  function IdAfter(fetched: nat, n: nat): U32
    decreases n
  {
    if n == 0 then fetched % U32_LIMIT else IdAfter(fetched + 1, n - 1)
  }

  /** The id the `n`-th fetch from here hands out. */
  function NthId(s: State, n: nat): U32 { IdAfter(s.fetched, n) }

  lemma {:induction false} IdAfterIs(fetched: nat, n: nat)
    ensures IdAfter(fetched, n) == (fetched + n) % U32_LIMIT
    decreases n
  {
    if n != 0 { IdAfterIs(fetched + 1, n - 1); }
  }

  predicate Usable(s: State, n: nat)
    requires |s.slots| > 0
  {
    NthId(s, n) != 0 && s.slots[NthId(s, n) % |s.slots|].phase.Empty?
  }

  /** Only caller `i` moves. */
  predicate Alone(run: seq<Step>, i: nat) { forall step | step in run :: step == Act(i) }

  lemma Next(s: State, run: seq<Step>, t: State, i: nat) returns (run': seq<Step>, t': State)
    requires After(s, run) == Some(t) && Alone(run, i) && Enabled(t, Act(i))
    ensures After(s, run') == Some(t') && Alone(run', i) && t' == Apply(t, Act(i))
  {
    run', t' := run + [Act(i)], Apply(t, Act(i));
    assert run'[..|run'| - 1] == run;
  }

  lemma FetchNext(t: State, i: nat)
    requires |t.slots| > 0 && i < |t.tasks| && t.tasks[i].Fetching? && t.tasks[i].tries > 0
    ensures var id, left := NthId(t, 0), t.tasks[i].tries - 1;
      Enabled(t, Act(i)) &&
      Apply(t, Act(i)) ==
        t.(fetched := t.fetched + 1, tasks := t.tasks[i := if id == 0 then Fetching(left) else Claiming(id, left)])
  {
  }

  lemma FetchOn(s: State, run: seq<Step>, t: State, i: nat) returns (run': seq<Step>, t': State)
    requires After(s, run) == Some(t) && Alone(run, i)
    requires |t.slots| > 0 && i < |t.tasks| && t.tasks[i].Fetching? && t.tasks[i].tries > 0
    ensures After(s, run') == Some(t') && Alone(run', i)
    ensures var id, left := NthId(t, 0), t.tasks[i].tries - 1;
      t' == t.(fetched := t.fetched + 1, tasks := t.tasks[i := if id == 0 then Fetching(left) else Claiming(id, left)])
  {
    FetchNext(t, i);
    run', t' := Next(s, run, t, i);
  }

  lemma ClaimFails(t: State, i: nat, at: nat)
    requires i < |t.tasks| && t.tasks[i].Claiming? && at < |t.slots| && Index(t.tasks[i], |t.slots|) == at
    requires !t.slots[at].phase.Empty?
    ensures Enabled(t, Act(i)) && Apply(t, Act(i)) == t.(tasks := t.tasks[i := Fetching(t.tasks[i].tries)])
  {
    var t' := Apply(t, Act(i));
    assert t'.slots == t.slots;
  }

  /** A fetched id that is zero, or whose slot is taken, costs one try and changes no slot. */
  lemma TryFails(s: State, run: seq<Step>, t: State, i: nat) returns (run': seq<Step>, t': State)
    requires After(s, run) == Some(t) && Alone(run, i)
    requires |t.slots| > 0 && i < |t.tasks| && t.tasks[i].Fetching? && t.tasks[i].tries > 0 && !Usable(t, 0)
    ensures After(s, run') == Some(t') && Alone(run', i)
    ensures t'.slots == t.slots && t'.fetched == t.fetched + 1
    ensures |t'.tasks| == |t.tasks| && t'.tasks[i] == Fetching(t.tasks[i].tries - 1)
  {
    run', t' := FetchOn(s, run, t, i);
    if NthId(t, 0) != 0 { run', t' := ClaimMissed(s, run', t', i, NthId(t, 0) % |t.slots|); }
  }

  lemma ClaimMissed(s: State, run: seq<Step>, t: State, i: nat, at: nat) returns (run': seq<Step>, t': State)
    requires After(s, run) == Some(t) && Alone(run, i)
    requires i < |t.tasks| && t.tasks[i].Claiming? && at < |t.slots| && Index(t.tasks[i], |t.slots|) == at
    requires !t.slots[at].phase.Empty?
    ensures After(s, run') == Some(t') && Alone(run', i)
    ensures t'.slots == t.slots && t'.fetched == t.fetched
    ensures |t'.tasks| == |t.tasks| && t'.tasks[i] == Fetching(t.tasks[i].tries)
  {
    ClaimFails(t, i, at);
    run', t' := Next(s, run, t, i);
  }

  /** The slot as a finished allocation leaves it. */
  predicate OpenedFor(s: State, t: State, i: nat, id: U32)
    requires |s.slots| > 0
  {
    && |t.slots| == |s.slots| && i < |t.tasks| && t.tasks[i] == Held(id)
    && OpenedAt(s, t, id % |s.slots|, id)
  }

  predicate OpenedAt(s: State, t: State, at: nat, id: U32)
    requires at < |s.slots| == |t.slots|
  {
    t.slots == s.slots[at := Slot(Waiting, id, s.slots[at].response, None, false)]
  }

  lemma ClaimStep(t: State, i: nat, at: nat)
    requires i < |t.tasks| && t.tasks[i].Claiming? && at < |t.slots| && Index(t.tasks[i], |t.slots|) == at
    requires t.slots[at].phase.Empty?
    ensures Enabled(t, Act(i))
    ensures Apply(t, Act(i)) == t.(slots := t.slots[at := Stored(t.slots[at], Writing)],
                                   tasks := t.tasks[i := Installing(t.tasks[i].id)])
  {
  }

  lemma InstallStep(t: State, i: nat, at: nat)
    requires i < |t.tasks| && t.tasks[i].Installing? && at < |t.slots| && Index(t.tasks[i], |t.slots|) == at
    ensures Enabled(t, Act(i))
    ensures var t' := Apply(t, Act(i));
      t'.slots == t.slots[at := t.slots[at].(id := t.tasks[i].id, waker := None)] && t'.fetched == t.fetched &&
      |t'.tasks| == |t.tasks| && t'.tasks[i] == Opening(t.tasks[i].id)
  {
  }

  lemma OpenStep(t: State, i: nat, at: nat)
    requires i < |t.tasks| && t.tasks[i].Opening? && at < |t.slots| && Index(t.tasks[i], |t.slots|) == at
    ensures Enabled(t, Act(i))
    ensures Apply(t, Act(i)) == t.(slots := t.slots[at := Stored(t.slots[at], Waiting)],
                                   tasks := t.tasks[i := Held(t.tasks[i].id)])
  {
  }

  lemma ClaimSucceeds(s: State, run: seq<Step>, t: State, i: nat, at: nat) returns (run': seq<Step>, t': State)
    requires After(s, run) == Some(t) && Alone(run, i)
    requires i < |t.tasks| && t.tasks[i].Claiming? && at < |t.slots| && Index(t.tasks[i], |t.slots|) == at
    requires t.slots[at].phase.Empty?
    ensures After(s, run') == Some(t') && Alone(run', i)
    ensures |t'.slots| == |t.slots| && OpenedAt(t, t', at, t.tasks[i].id)
    ensures i < |t'.tasks| && t'.tasks[i] == Held(t.tasks[i].id) && t'.fetched == t.fetched
  {
    ClaimStep(t, i, at);
    run', t' := Next(s, run, t, i);
    InstallStep(t', i, at);
    run', t' := Next(s, run', t', i);
    OpenStep(t', i, at);
    run', t' := Next(s, run', t', i);
  }

  lemma TrySucceeds(s: State, run: seq<Step>, t: State, i: nat) returns (run': seq<Step>, t': State)
    requires After(s, run) == Some(t) && Alone(run, i)
    requires |t.slots| > 0 && i < |t.tasks| && t.tasks[i].Fetching? && t.tasks[i].tries > 0 && Usable(t, 0)
    ensures After(s, run') == Some(t') && Alone(run', i)
    ensures OpenedFor(t, t', i, NthId(t, 0)) && t'.fetched == t.fetched + 1
  {
    run', t' := FetchOn(s, run, t, i);
    run', t' := ClaimSucceeds(s, run', t', i, NthId(t, 0) % |t.slots|);
  }

  lemma OutOfTries(s: State, run: seq<Step>, t: State, i: nat) returns (run': seq<Step>, t': State)
    requires After(s, run) == Some(t) && Alone(run, i)
    requires |t.slots| > 0 && i < |t.tasks| && t.tasks[i] == Fetching(0)
    ensures After(s, run') == Some(t') && Alone(run', i) && t' == t.(tasks := t.tasks[i := Idle])
  {
    run', t' := Next(s, run, t, i);
  }

  /** The first `n` ids were of no use; the next one was taken, or there were no tries left for it. */
  predicate Tried(t: State, t': State, i: nat, tries: nat, n: nat)
    requires |t.slots| > 0
  {
    && n <= tries && (forall m | 0 <= m < n :: !Usable(t, m))
    && if n < tries
       then Usable(t, n) && OpenedFor(t, t', i, NthId(t, n)) && t'.fetched == t.fetched + n + 1
       else t'.slots == t.slots && i < |t'.tasks| && t'.tasks[i] == Idle
  }

  /** One fetch later the same ids come one place earlier. */
  lemma TriedBefore(t: State, t1: State, t': State, i: nat, tries: nat, n: nat)
    requires |t.slots| > 0 && t1.slots == t.slots && t1.fetched == t.fetched + 1
    requires !Usable(t, 0) && 0 < tries && Tried(t1, t', i, tries - 1, n)
    ensures Tried(t, t', i, tries, n + 1)
  {
    assert NthId(t1, n) == NthId(t, n + 1);
    forall m | 0 <= m < n + 1 ensures !Usable(t, m) {
      if m > 0 { assert NthId(t1, m - 1) == NthId(t, m) && !Usable(t1, m - 1); }
    }
  }

  lemma {:induction false} AllocateOn(s: State, run: seq<Step>, t: State, i: nat, tries: nat)
    returns (run': seq<Step>, t': State, n: nat)
    requires After(s, run) == Some(t) && Alone(run, i)
    requires |t.slots| > 0 && i < |t.tasks| && t.tasks[i] == Fetching(tries) && 0 < tries && !Usable(t, 0)
    ensures After(s, run') == Some(t') && Alone(run', i)
    ensures Tried(t, t', i, tries, n)
    decreases tries, 0
  {
    var run1, t1 := TryFails(s, run, t, i);
    run', t', n := AllocateAlone(s, run1, t1, i, tries - 1);
    TriedBefore(t, t1, t', i, tries, n);
    n := n + 1;
  }

  /**
   With `tries` tries left and nobody interfering, an allocation takes the first usable id
   and opens its slot, whose cell it leaves as it was; with none among that many, it gives
   up and changes no slot.
   */
  lemma {:induction false} AllocateAlone(s: State, run: seq<Step>, t: State, i: nat, tries: nat)
    returns (run': seq<Step>, t': State, n: nat)
    requires After(s, run) == Some(t) && Alone(run, i)
    requires |t.slots| > 0 && i < |t.tasks| && t.tasks[i] == Fetching(tries)
    ensures After(s, run') == Some(t') && Alone(run', i)
    ensures Tried(t, t', i, tries, n)
    decreases tries, 1
  {
    if tries == 0 {
      run', t' := OutOfTries(s, run, t, i);
      n := 0;
    } else if Usable(t, 0) {
      run', t' := TrySucceeds(s, run, t, i);
      n := 0;
    } else {
      run', t', n := AllocateOn(s, run, t, i, tries);
    }
  }

  /** Consecutive ids, as long as the counter does not wrap among them, visit every slot of the ring. */
  lemma SweepVisits(s: State, at: nat) returns (n: nat)
    requires at < |s.slots| && s.fetched % U32_LIMIT + |s.slots| <= U32_LIMIT
    ensures n < |s.slots| && NthId(s, n) % |s.slots| == at && NthId(s, n) == s.fetched % U32_LIMIT + n
  {
    n := OffsetTo(s.fetched % U32_LIMIT, |s.slots|, at);
    IdAfterIs(s.fetched, n);
    Unwrapped(s.fetched, n);
  }

  lemma OffsetTo(first: nat, ring: nat, at: nat) returns (n: nat)
    requires at < ring
    ensures n < ring && (first + n) % ring == at
  {
    var q, r := first / ring, first % ring;
    assert first == ring * q + r;
    if r <= at {
      n := at - r;
      assert first + n == ring * q + at;
      Residue(q, at, ring);
    } else {
      n := at + ring - r;
      assert first + n == ring * (q + 1) + at;
      Residue(q + 1, at, ring);
    }
  }

  lemma Unwrapped(fetched: nat, n: nat)
    requires fetched % U32_LIMIT + n < U32_LIMIT
    ensures (fetched + n) % U32_LIMIT == fetched % U32_LIMIT + n
  {
  }

  /**
   A whole allocation that nobody disturbs, while the counter neither wraps nor starts at
   zero within one sweep: it succeeds exactly when some slot of the ring is empty.
   */
  lemma AllocateIff(s: State, i: nat) returns (run: seq<Step>, t: State)
    requires |s.slots| > 0 && Enabled(s, Choose(i, Allocate))
    requires 0 < s.fetched % U32_LIMIT && s.fetched % U32_LIMIT + |s.slots| <= U32_LIMIT
    ensures After(Apply(s, Choose(i, Allocate)), run) == Some(t) && Alone(run, i)
    ensures i < |t.tasks| && if t.tasks[i].Held? then OpenedFor(s, t, i, t.tasks[i].id) else t.tasks[i] == Idle
    ensures t.tasks[i].Held? <==> exists at | 0 <= at < |s.slots| :: s.slots[at].phase.Empty?
  {
    var first := Apply(s, Choose(i, Allocate));
    var n: nat;
    run, t, n := AllocateAlone(first, [], first, i, |s.slots|);
    if n == |s.slots| {
      forall at | 0 <= at < |s.slots| ensures !s.slots[at].phase.Empty? {
        var m := SweepVisits(first, at);
        assert !Usable(first, m);
      }
    } else {
      assert s.slots[NthId(first, n) % |s.slots|].phase.Empty?;
    }
  }

  /**
   The skipped zero costs a slot: with the counter at zero and only the slot of id zero empty,
   a whole sweep of the ring finds nothing.
   */
  lemma ZeroIsSkipped(s: State, i: nat) returns (run: seq<Step>, t: State)
    requires 0 < |s.slots| <= U32_LIMIT && s.fetched % U32_LIMIT == 0 && Enabled(s, Choose(i, Allocate))
    requires s.slots[0].phase.Empty? && forall at | 0 < at < |s.slots| :: !s.slots[at].phase.Empty?
    ensures After(Apply(s, Choose(i, Allocate)), run) == Some(t) && Alone(run, i)
    ensures i < |t.tasks| && t.tasks[i] == Idle && t.slots == s.slots
  {
    var first := Apply(s, Choose(i, Allocate));
    var n: nat;
    run, t, n := AllocateAlone(first, [], first, i, |s.slots|);
    if n < |s.slots| { NotUsable(first, n); }
  }

  lemma NotUsable(s: State, n: nat)
    requires n < |s.slots| <= U32_LIMIT && s.fetched % U32_LIMIT == 0
    requires forall at | 0 < at < |s.slots| :: !s.slots[at].phase.Empty?
    ensures !Usable(s, n)
  {
    IdAfterIs(s.fetched, n);
    Unwrapped(s.fetched, n);
    Residue(0, n, |s.slots|);
  }
}
