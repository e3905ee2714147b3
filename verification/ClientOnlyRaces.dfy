/** Concurrent client-only declarations: each access to the shared map or counter is one step. */
module ClientOnlyRaces {
  import opened Common
  import ClientOnly

  const MAX := ClientOnly.MAX_CLIENT_ONLY_PEERS

  type Peer = ClientOnly.Peer

  /** A call of `note_declared_role` and the access it makes next. */
  datatype Call =
    | Idle
    | Removing(peer: Peer)
    | Numbering(peer: Peer)
    | Counting(peer: Peer, token: U64)
    | Looking(peer: Peer, token: U64)
    | Evicting(peer: Peer, token: U64)
    | Inserting(peer: Peer, token: U64, exempt: bool)   // exempt: its peer was in the full table

  /** `displaced` counts exempt calls that found their peer gone when they inserted it. */
  datatype State = State(sessions: map<Peer, U64>, next: U64, calls: seq<Call>, displaced: nat)

  datatype Step = Declare(call: nat, peer: Peer, clientOnly: bool) | Act(call: nat, victim: Peer)

  function Init(callers: nat): State { State(map[], 0, seq(callers, _ => Idle), 0) }

  predicate Enabled(s: State, step: Step) {
    step.call < |s.calls| &&
    var c := s.calls[step.call];
    match step
    case Declare(_, _, _) => c.Idle?
    case Act(_, victim) => !c.Idle? && (c.Evicting? && s.sessions != map[] ==> victim in s.sessions)
  }

  function Apply(s: State, step: Step): State
    requires Enabled(s, step)
  {
    var i := step.call;
    match step
    case Declare(_, peer, clientOnly) =>
      s.(calls := s.calls[i := if clientOnly then Numbering(peer) else Removing(peer)])
    case Act(_, victim) =>
      match s.calls[i]
      case Removing(peer) => s.(sessions := s.sessions - {peer}, calls := s.calls[i := Idle])
      case Numbering(peer) => s.(next := ClientOnly.Bump(s.next), calls := s.calls[i := Counting(peer, s.next)])
      case Counting(peer, token) =>
        s.(calls := s.calls[i := if MAX <= |s.sessions| then Looking(peer, token) else Inserting(peer, token, false)])
      case Looking(peer, token) =>
        s.(calls := s.calls[i := if peer in s.sessions then Inserting(peer, token, true) else Evicting(peer, token)])
      case Evicting(peer, token) =>
        s.(sessions := s.sessions - {victim}, calls := s.calls[i := Inserting(peer, token, false)])
      case Inserting(peer, token, exempt) =>
        s.(sessions := s.sessions[peer := token], calls := s.calls[i := Idle],
           displaced := s.displaced + if exempt && peer !in s.sessions then 1 else 0)
  }

  function After(s: State, run: seq<Step>): Option<State>
    decreases |run|
  {
    if run == [] then Some(s)
    else
      match After(s, run[..|run| - 1])
      case None => None
      case Some(t) => if Enabled(t, run[|run| - 1]) then Some(Apply(t, run[|run| - 1])) else None
  }

  // ---------------------------------------------------------------- the bound

  predicate Pending(c: Call) { c.Inserting? && !c.exempt }

  /** Calls about to insert that have made, or needed, no room beyond their own. */
  function Inserts(calls: seq<Call>): nat
    decreases |calls|
  {
    if calls == [] then 0 else Inserts(calls[..|calls| - 1]) + (if Pending(calls[|calls| - 1]) then 1 else 0)
  }

  lemma {:induction false} InsertsMove(calls: seq<Call>, i: nat, c: Call)
    requires i < |calls|
    ensures Inserts(calls) <= |calls| && (!Pending(calls[i]) ==> Inserts(calls) < |calls|)
    ensures Inserts(calls[i := c]) + (if Pending(calls[i]) then 1 else 0) ==
      Inserts(calls) + (if Pending(c) then 1 else 0)
    decreases |calls|
  {
    var n := |calls| - 1;
    if i == n {
      assert calls[i := c][..n] == calls[..n];
      if n > 0 { InsertsMove(calls[..n], 0, calls[0]); }
    } else {
      InsertsMove(calls[..n], i, c);
      assert calls[i := c][..n] == calls[..n][i := c];
    }
  }

  predicate Bounded(s: State) { |s.sessions| + Inserts(s.calls) <= MAX - 1 + |s.calls| + s.displaced }

  lemma RemoveShrinks(m: map<Peer, U64>, p: Peer)
    ensures |m - {p}| == |m| - if p in m then 1 else 0
  {
    assert (m - {p}).Keys == m.Keys - {p};
  }

  lemma InsertGrows(m: map<Peer, U64>, p: Peer, token: U64)
    ensures |m[p := token]| == |m| + if p in m then 0 else 1
  {
    assert m[p := token].Keys == m.Keys + {p};
  }

  lemma StepKeepsBound(s: State, step: Step)
    requires Bounded(s) && Enabled(s, step)
    ensures Bounded(Apply(s, step)) && |Apply(s, step).calls| == |s.calls|
  {
    var c := s.calls[step.call];
    InsertsMove(s.calls, step.call, Apply(s, step).calls[step.call]);
    if step.Act? {
      if c.Removing? { RemoveShrinks(s.sessions, c.peer); }
      if c.Evicting? { RemoveShrinks(s.sessions, step.victim); }
      if c.Inserting? { InsertGrows(s.sessions, c.peer, c.token); }
    }
  }

  lemma {:induction false} RunKeepsBound(s: State, run: seq<Step>, t: State)
    requires Bounded(s) && After(s, run) == Some(t)
    ensures Bounded(t) && |t.calls| == |s.calls|
    decreases |run|
  {
    if run != [] {
      RunKeepsBound(s, run[..|run| - 1], After(s, run[..|run| - 1]).value);
      StepKeepsBound(After(s, run[..|run| - 1]).value, run[|run| - 1]);
    }
  }

  lemma {:induction false} NoInserts(calls: seq<Call>)
    requires forall i | 0 <= i < |calls| :: calls[i].Idle?
    ensures Inserts(calls) == 0
    decreases |calls|
  {
    if calls != [] { NoInserts(calls[..|calls| - 1]); }
  }

  /**
   With any number of concurrent callers the table exceeds its bound by at most one entry for
   each further caller and one for each displaced insertion.
   */
  lemma TableBounded(callers: nat, run: seq<Step>, s: State)
    requires callers > 0 && After(Init(callers), run) == Some(s)
    ensures |s.sessions| <= MAX + (callers - 1) + s.displaced
  {
    NoInserts(Init(callers).calls);
    RunKeepsBound(Init(callers), run, s);
  }

  // ---------------------------------------------------------------- receipts

  /** The receipt a call has drawn and not stored yet. */
  predicate Carries(c: Call, token: U64) {
    (c.Counting? || c.Looking? || c.Evicting? || c.Inserting?) && c.token == token
  }

  /** No receipt is in two places, and the counter is past all of them. */
  ghost predicate ReceiptsOk(s: State) {
    && (forall i, token: U64 | 0 <= i < |s.calls| && Carries(s.calls[i], token) :: token < s.next)
    && (forall i, j, token: U64 | 0 <= i < |s.calls| && 0 <= j < |s.calls| && Carries(s.calls[i], token) ::
          Carries(s.calls[j], token) ==> i == j)
    && (forall p | p in s.sessions :: s.sessions[p] < s.next)
    && (forall i, p | 0 <= i < |s.calls| && p in s.sessions :: !Carries(s.calls[i], s.sessions[p]))
    && (forall p, q | p in s.sessions && q in s.sessions :: s.sessions[p] == s.sessions[q] ==> p == q)
  }

  lemma StepKeepsReceipts(s: State, step: Step)
    requires ReceiptsOk(s) && Enabled(s, step) && s.next + 1 < U64_LIMIT
    ensures ReceiptsOk(Apply(s, step)) && Apply(s, step).next <= s.next + 1
  {
    var t, i := Apply(s, step), step.call;
    forall j, token: U64 | 0 <= j < |t.calls| && Carries(t.calls[j], token)
      ensures Carries(s.calls[j], token) || (j == i && token == s.next && t.next == s.next + 1)
    {
      DrawnBefore(s, step, j, token);
    }
    forall p | p in t.sessions
      ensures (p in s.sessions && t.sessions[p] == s.sessions[p]) ||
              (Carries(s.calls[i], t.sessions[p]) && !Carries(t.calls[i], t.sessions[p]) && p == s.calls[i].peer)
    {
      StoredBefore(s, step, p);
    }
  }

  lemma DrawnBefore(s: State, step: Step, j: nat, token: U64)
    requires Enabled(s, step) && s.next + 1 < U64_LIMIT
    requires j < |Apply(s, step).calls| && Carries(Apply(s, step).calls[j], token)
    ensures Carries(s.calls[j], token) ||
      (j == step.call && token == s.next && Apply(s, step).next == s.next + 1)
  {
  }

  lemma StoredBefore(s: State, step: Step, p: Peer)
    requires Enabled(s, step) && p in Apply(s, step).sessions
    ensures var t, i := Apply(s, step), step.call;
      (p in s.sessions && t.sessions[p] == s.sessions[p]) ||
      (Carries(s.calls[i], t.sessions[p]) && !Carries(t.calls[i], t.sessions[p]) && p == s.calls[i].peer)
  {
  }

  /**
   However declarations interleave, as long as the counter has not wrapped no two receipts
   drawn by calls under way or stored in the table are the same.
   */
  lemma {:induction false} ReceiptsDistinct(callers: nat, run: seq<Step>, s: State)
    requires After(Init(callers), run) == Some(s) && |run| < U64_LIMIT
    ensures ReceiptsOk(s) && s.next <= |run|
    decreases |run|
  {
    if run != [] {
      var before := After(Init(callers), run[..|run| - 1]).value;
      ReceiptsDistinct(callers, run[..|run| - 1], before);
      StepKeepsReceipts(before, run[|run| - 1]);
    }
  }

  // ---------------------------------------------------------------- one caller

  /** One caller, whose peer stays where it saw it. */
  predicate Lone(s: State) {
    |s.calls| == 1 && s.displaced == 0 && (s.calls[0].Inserting? && s.calls[0].exempt ==> s.calls[0].peer in s.sessions)
  }

  lemma LoneStep(s: State, step: Step)
    requires Lone(s) && Enabled(s, step)
    ensures Lone(Apply(s, step))
  {
  }

  lemma {:induction false} LoneRun(s: State, run: seq<Step>, t: State)
    requires Lone(s) && After(s, run) == Some(t)
    ensures Lone(t)
    decreases |run|
  {
    if run != [] {
      LoneRun(s, run[..|run| - 1], After(s, run[..|run| - 1]).value);
      LoneStep(After(s, run[..|run| - 1]).value, run[|run| - 1]);
    }
  }

  /** A lone caller displaces nobody, so its table keeps the bound itself. */
  lemma LoneCallerBounded(run: seq<Step>, s: State)
    requires After(Init(1), run) == Some(s)
    ensures s.displaced == 0 && |s.sessions| <= MAX
  {
    LoneRun(Init(1), run, s);
    TableBounded(1, run, s);
  }

  // ---------------------------------------------------------------- two callers outgrow any bound

  lemma Extend(start: State, run: seq<Step>, s: State, step: Step) returns (run': seq<Step>, s': State)
    requires After(start, run) == Some(s) && Enabled(s, step)
    ensures run' == run + [step] && s' == Apply(s, step) && After(start, run') == Some(s')
  {
    run', s' := run + [step], Apply(s, step);
    assert run'[..|run'| - 1] == run;
  }

  predicate AtRest(start: State, run: seq<Step>, s: State) { After(start, run) == Some(s) && s.calls == [Idle, Idle] }

  /** One declaration, alone, while there is room. */
  lemma Admit(start: State, run: seq<Step>, s: State, p: Peer) returns (run': seq<Step>, s': State)
    requires AtRest(start, run, s) && |s.sessions| < MAX
    ensures AtRest(start, run', s') && s'.sessions == s.sessions[p := s.next]
  {
    run', s' := Extend(start, run, s, Declare(0, p, true));
    run', s' := Extend(start, run', s', Act(0, p));
    run', s' := Extend(start, run', s', Act(0, p));
    assert s'.calls == [Inserting(p, s.next, false), Idle];
    run', s' := Extend(start, run', s', Act(0, p));
    assert s'.calls == [Idle, Idle];
  }

  /** Peers below `n` are known, and nobody else. */
  predicate Exactly(s: State, n: nat) { |s.sessions| == n && forall p | p in s.sessions :: p < n }

  lemma {:induction false} Fill(n: nat) returns (run: seq<Step>, s: State)
    requires n <= MAX
    ensures AtRest(Init(2), run, s) && Exactly(s, n) && (n > 0 ==> 0 in s.sessions)
  {
    if n == 0 {
      run, s := [], Init(2);
    } else {
      run, s := Fill(n - 1);
      InsertGrows(s.sessions, n - 1, s.next);
      run, s := Admit(Init(2), run, s, n - 1);
    }
  }

  /** A known peer is declared again and looks itself up; a new peer is declared and finds the table full. */
  lemma BothLook(start: State, run: seq<Step>, s: State, n: nat) returns (run': seq<Step>, s': State, a: U64, b: U64)
    requires AtRest(start, run, s) && Exactly(s, n) && MAX <= n && 0 in s.sessions
    ensures After(start, run') == Some(s') && s'.sessions == s.sessions
    ensures s'.calls == [Inserting(0, a, true), Evicting(n, b)]
  {
    run', s' := Extend(start, run, s, Declare(0, 0, true));
    run', s' := Extend(start, run', s', Act(0, 0));
    a := s.next;
    run', s' := Extend(start, run', s', Act(0, 0));
    run', s' := Extend(start, run', s', Act(0, 0));
    assert s'.calls == [Inserting(0, a, true), Idle];
    b := s'.next;
    run', s' := Extend(start, run', s', Declare(1, n, true));
    run', s' := Extend(start, run', s', Act(1, 0));
    run', s' := Extend(start, run', s', Act(1, 0));
    run', s' := Extend(start, run', s', Act(1, 0));
    assert s'.calls == [Inserting(0, a, true), Evicting(n, b)];
  }

  /** The new peer evicts the known one, which then inserts itself again: one entry more than before. */
  lemma Race(start: State, run: seq<Step>, s: State, n: nat) returns (run': seq<Step>, s': State)
    requires AtRest(start, run, s) && Exactly(s, n) && MAX <= n && 0 in s.sessions
    ensures AtRest(start, run', s') && Exactly(s', n + 1) && 0 in s'.sessions
  {
    var a, b;
    run', s', a, b := BothLook(start, run, s, n);
    RemoveShrinks(s.sessions, 0);
    run', s' := Extend(start, run', s', Act(1, 0));
    InsertGrows(s'.sessions, 0, a);
    run', s' := Extend(start, run', s', Act(0, 0));
    InsertGrows(s'.sessions, n, b);
    run', s' := Extend(start, run', s', Act(1, 0));
    assert s'.calls == [Idle, Idle];
  }

  /** Two callers can make the table larger than any number. */
  lemma {:induction false} OutgrownWitness(n: nat) returns (run: seq<Step>, s: State)
    requires MAX <= n
    ensures AtRest(Init(2), run, s) && Exactly(s, n) && 0 in s.sessions
    decreases n
  {
    if n == MAX {
      run, s := Fill(n);
    } else {
      run, s := OutgrownWitness(n - 1);
      run, s := Race(Init(2), run, s, n - 1);
    }
  }
}
