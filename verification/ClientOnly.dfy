/** Client-only declarations: session receipts fenced by later declarations and evictions. */
module ClientOnly {
  import opened Common

  const MAX_CLIENT_ONLY_PEERS := 4096

  type Peer = nat

  datatype Table = Table(sessions: map<Peer, U64>, next: U64)

  /** One declaration; `victim` is the entry the map yields first when one must go. */
  datatype Event = Event(peer: Peer, clientOnly: bool, victim: Peer)

  /** Does admitting the peer need an eviction? */
  predicate Crowded(t: Table, peer: Peer) {
    MAX_CLIENT_ONLY_PEERS <= |t.sessions| && peer !in t.sessions
  }

  predicate EventOk(t: Table, e: Event) { e.clientOnly && Crowded(t, e.peer) ==> e.victim in t.sessions }

  /** `fetch_add(1)`, which wraps. */
  function Bump(n: U64): U64 { if n + 1 < U64_LIMIT then n + 1 else 0 }

  function Declare(t: Table, e: Event): Table {
    if !e.clientOnly then t.(sessions := t.sessions - {e.peer})
    else
      var kept := if Crowded(t, e.peer) then t.sessions - {e.victim} else t.sessions;
      Table(kept[e.peer := t.next], Bump(t.next))
  }

  predicate IsCurrent(t: Table, peer: Peer, token: U64) { peer in t.sessions && t.sessions[peer] == token }

  function Run(h: seq<Event>): Table
    decreases |h|
  {
    if h == [] then Table(map[], 0) else Declare(Run(h[..|h| - 1]), h[|h| - 1])
  }

  ghost predicate HistoryOk(h: seq<Event>) { forall i | 0 <= i < |h| :: EventOk(Run(h[..i]), h[i]) }

  // ---------------------------------------------------------------- reference: reading the history

  /** The receipt a client-only declaration at index `i` was given. */
  function ReceiptAt(h: seq<Event>, i: nat): U64
    requires i < |h|
  {
    Run(h[..i]).next
  }

  /** Event `i` forgets or replaces whatever was known of the peer. */
  predicate Touches(h: seq<Event>, i: nat, peer: Peer)
    requires i < |h|
  {
    h[i].peer == peer || (h[i].clientOnly && Crowded(Run(h[..i]), h[i].peer) && h[i].victim == peer)
  }

  /** Declaration `i` is the peer's latest, client-only, and nothing evicted or replaced it since. */
  ghost predicate LatestReceipt(h: seq<Event>, i: nat, peer: Peer) {
    i < |h| && h[i].peer == peer && h[i].clientOnly && forall j | i < j < |h| :: !Touches(h, j, peer)
  }

  lemma LatestGrows(h: seq<Event>, i: nat, peer: Peer)
    requires h != [] && !Touches(h, |h| - 1, peer)
    ensures i < |h| - 1 ==> LatestReceipt(h, i, peer) == LatestReceipt(h[..|h| - 1], i, peer)
    ensures LatestReceipt(h, i, peer) ==> i < |h| - 1
  {
    var n := |h| - 1;
    forall j | 0 <= j < n ensures h[..n][j] == h[j] && h[..n][..j] == h[..j] { }
    forall j | 0 <= j < n ensures Touches(h[..n], j, peer) == Touches(h, j, peer) { }
  }

  /** The table holds exactly the latest untouched client-only declarations. */
  lemma {:induction false} TableIsHistory(h: seq<Event>, peer: Peer)
    ensures peer in Run(h).sessions <==> exists i :: LatestReceipt(h, i, peer)
    ensures forall i :: LatestReceipt(h, i, peer) ==> IsCurrent(Run(h), peer, ReceiptAt(h, i))
    decreases |h|
  {
    if h != [] {
      var n := |h| - 1;
      if Touches(h, n, peer) {
        if h[n].peer == peer && h[n].clientOnly { assert LatestReceipt(h, n, peer); }
        forall i | LatestReceipt(h, i, peer) ensures i == n { }
      } else {
        TableIsHistory(h[..n], peer);
        forall i | 0 <= i < n ensures h[..n][..i] == h[..i] { }
        forall i: nat ensures i < n ==> LatestReceipt(h, i, peer) == LatestReceipt(h[..n], i, peer)
                      ensures LatestReceipt(h, i, peer) ==> i < n
        {
          LatestGrows(h, i, peer);
        }
        if peer in Run(h).sessions {
          var i :| LatestReceipt(h[..n], i, peer);
          assert LatestReceipt(h, i, peer);
        }
      }
    }
  }

  /** A receipt is current exactly when it belongs to the peer's latest untouched declaration. */
  lemma CurrentIffLatest(h: seq<Event>, peer: Peer, token: U64)
    ensures IsCurrent(Run(h), peer, token) <==> exists i :: LatestReceipt(h, i, peer) && ReceiptAt(h, i) == token
  {
    TableIsHistory(h, peer);
  }

  // ---------------------------------------------------------------- receipts are never reused

  function Declarations(h: seq<Event>): nat
    decreases |h|
  {
    if h == [] then 0 else Declarations(h[..|h| - 1]) + if h[|h| - 1].clientOnly then 1 else 0
  }

  /** The counter after `n` client-only declarations. */
  function Wrapped(n: nat): U64 { if n < U64_LIMIT then n else Wrapped(n - U64_LIMIT) }

  /** A multiple of 2^64. */
  predicate WholeLaps(n: nat) { n == 0 || (U64_LIMIT <= n && WholeLaps(n - U64_LIMIT)) }

  lemma {:induction false} WrapOnce(n: nat)
    ensures Wrapped(n + 1) == Bump(Wrapped(n))
  {
    if U64_LIMIT <= n { WrapOnce(n - U64_LIMIT); }
  }

  lemma {:induction false} SameResidue(a: nat, b: nat)
    requires a <= b
    ensures Wrapped(a) == Wrapped(b) <==> WholeLaps(b - a)
    decreases b
  {
    if U64_LIMIT <= a {
      SameResidue(a - U64_LIMIT, b - U64_LIMIT);
    } else if U64_LIMIT <= b - a {
      SameResidue(a, b - U64_LIMIT);
    }
  }

  lemma {:induction false} NextIsCount(h: seq<Event>)
    ensures Run(h).next == Wrapped(Declarations(h))
    decreases |h|
  {
    if h != [] {
      var front := h[..|h| - 1];
      NextIsCount(front);
      WrapOnce(Declarations(front));
    }
  }

  lemma {:induction false} CountGrows(h: seq<Event>, i: nat)
    requires i < |h|
    ensures Declarations(h[..i]) + (if h[i].clientOnly then 1 else 0) <= Declarations(h)
    decreases |h|
  {
    if i < |h| - 1 {
      CountGrows(h[..|h| - 1], i);
      assert h[..|h| - 1][..i] == h[..i];
    }
  }

  /** Two declarations get the same receipt exactly when a multiple of 2^64 client-only ones lies between. */
  lemma SameReceiptIff(h: seq<Event>, i: nat, j: nat)
    requires i <= j < |h|
    ensures Declarations(h[..i]) <= Declarations(h[..j])
    ensures ReceiptAt(h, i) == ReceiptAt(h, j) <==> WholeLaps(Declarations(h[..j]) - Declarations(h[..i]))
  {
    if i < j { CountGrows(h[..j], i); }
    assert h[..j][..i] == h[..i];
    NextIsCount(h[..i]);
    NextIsCount(h[..j]);
    SameResidue(Declarations(h[..i]), Declarations(h[..j]));
  }

  /** Before the counter wraps, later declarations get larger receipts. */
  lemma ReceiptsDistinct(h: seq<Event>, i: nat, j: nat)
    requires i < j < |h| && h[i].clientOnly && h[j].clientOnly && Declarations(h) <= U64_LIMIT
    ensures ReceiptAt(h, i) < ReceiptAt(h, j)
  {
    CountGrows(h, j);
    CountGrows(h[..j], i);
    assert h[..j][..i] == h[..i];
    NextIsCount(h[..i]);
    NextIsCount(h[..j]);
  }

  /** A later declaration of the peer that is still its latest and got the same receipt by wrap-around. */
  ghost predicate Reissued(h: seq<Event>, from: nat, i: nat, k: nat)
    requires i < |h|
  {
    from <= k < |h| && i <= k && LatestReceipt(h, k, h[i].peer) &&
    Declarations(h[..i]) < Declarations(h[..k]) && WholeLaps(Declarations(h[..k]) - Declarations(h[..i]))
  }

  /**
   A stale receipt becomes current again exactly when the peer's latest untouched declaration
   came later and a nonzero multiple of 2^64 client-only declarations after it.
   */
  lemma StaleIff(h: seq<Event>, later: seq<Event>, i: nat)
    requires i < |h| && h[i].clientOnly && !IsCurrent(Run(h), h[i].peer, ReceiptAt(h, i))
    ensures IsCurrent(Run(h + later), h[i].peer, ReceiptAt(h, i)) <==> exists k :: Reissued(h + later, |h|, i, k)
  {
    if IsCurrent(Run(h + later), h[i].peer, ReceiptAt(h, i)) {
      var k := StaleReturns(h, later, i);
    }
    if k: nat :| Reissued(h + later, |h|, i, k) { ReissuedIsCurrent(h, later, i, k); }
  }

  lemma StaleReturns(h: seq<Event>, later: seq<Event>, i: nat) returns (k: nat)
    requires i < |h| && h[i].clientOnly && !IsCurrent(Run(h), h[i].peer, ReceiptAt(h, i))
    requires IsCurrent(Run(h + later), h[i].peer, ReceiptAt(h, i))
    ensures Reissued(h + later, |h|, i, k)
  {
    var all := h + later;
    CurrentIffLatest(all, h[i].peer, ReceiptAt(h, i));
    k :| LatestReceipt(all, k, h[i].peer) && ReceiptAt(all, k) == ReceiptAt(h, i);
    assert all[..i] == h[..i] && all[i] == h[i];
    LatestIsLater(h, later, i, k);
    ReissuedFrom(all, |h|, i, k);
  }

  lemma ReissuedIsCurrent(h: seq<Event>, later: seq<Event>, i: nat, k: nat)
    requires i < |h| && Reissued(h + later, |h|, i, k)
    ensures IsCurrent(Run(h + later), h[i].peer, ReceiptAt(h, i))
  {
    var all := h + later;
    assert all[..i] == h[..i] && all[i] == h[i];
    SameReceiptIff(all, i, k);
    TableIsHistory(all, h[i].peer);
  }

  lemma ReissuedFrom(h: seq<Event>, from: nat, i: nat, k: nat)
    requires i < from <= k < |h| && h[i].clientOnly && LatestReceipt(h, k, h[i].peer)
    requires ReceiptAt(h, k) == ReceiptAt(h, i)
    ensures Reissued(h, from, i, k)
  {
    CountGrows(h[..k], i);
    assert h[..k][..i] == h[..i];
    SameReceiptIff(h, i, k);
  }

  /** What makes a stale receipt current cannot be an old declaration. */
  lemma LatestIsLater(h: seq<Event>, later: seq<Event>, i: nat, k: nat)
    requires i < |h| && h[i].clientOnly && !IsCurrent(Run(h), h[i].peer, ReceiptAt(h, i))
    requires LatestReceipt(h + later, k, h[i].peer) && ReceiptAt(h + later, k) == ReceiptAt(h, i)
    ensures |h| <= k
  {
    var all := h + later;
    if k < |h| {
      assert all[..k] == h[..k] && all[k] == h[k];
      StillUntouched(h, later, k);
      TableIsHistory(h, h[i].peer);
    }
  }

  /** So before the counter wraps a stale receipt is never current again. */
  lemma StaleForever(h: seq<Event>, later: seq<Event>, i: nat)
    requires i < |h| && h[i].clientOnly && Declarations(h + later) <= U64_LIMIT
    requires !IsCurrent(Run(h), h[i].peer, ReceiptAt(h, i))
    ensures !IsCurrent(Run(h + later), h[i].peer, ReceiptAt(h, i))
  {
    StaleIff(h, later, i);
    if k: nat :| Reissued(h + later, |h|, i, k) { CountGrows(h + later, k); }
  }

  lemma StillUntouched(h: seq<Event>, later: seq<Event>, i: nat)
    requires i < |h| && h[i].clientOnly && LatestReceipt(h + later, i, h[i].peer)
    ensures LatestReceipt(h, i, h[i].peer)
  {
    var all := h + later;
    forall j | 0 <= j < |h| ensures all[..j] == h[..j] && all[j] == h[j] { }
    forall j | i < j < |h| ensures !Touches(h, j, h[i].peer) { assert !Touches(all, j, h[i].peer); }
  }

  /** The table never holds more than its bound. */
  lemma {:induction false} TableBounded(h: seq<Event>)
    requires HistoryOk(h)
    ensures |Run(h).sessions| <= 4096
    decreases |h|
  {
    if h != [] {
      var n := |h| - 1;
      forall i | 0 <= i < n ensures EventOk(Run(h[..n][..i]), h[..n][i]) {
        assert h[..n][..i] == h[..i] && EventOk(Run(h[..i]), h[i]);
      }
      TableBounded(h[..n]);
      DeclareBounded(Run(h[..n]), h[n]);
    }
  }

  lemma DeclareBounded(t: Table, e: Event)
    requires EventOk(t, e) && |t.sessions| <= MAX_CLIENT_ONLY_PEERS
    ensures |Declare(t, e).sessions| <= MAX_CLIENT_ONLY_PEERS
  {
    var s := t.sessions;
    if !e.clientOnly {
      assert |(s - {e.peer}).Keys| <= |s.Keys| by { Fewer((s - {e.peer}).Keys, s.Keys); }
    } else if Crowded(t, e.peer) {
      assert (s - {e.victim}).Keys == s.Keys - {e.victim};
      assert Declare(t, e).sessions.Keys == (s.Keys - {e.victim}) + {e.peer};
    } else {
      assert Declare(t, e).sessions.Keys == s.Keys + {e.peer};
    }
  }

  lemma {:induction false} Fewer(a: set<Peer>, b: set<Peer>)
    requires a <= b
    ensures |a| <= |b|
  {
    assert b == a + (b - a);
    assert |b| == |a| + |b - a|;
  }

  // ---------------------------------------------------------------- the class

  class ClientOnlyPeers {
    var sessions: map<Peer, U64>
    var nextToken: U64

    constructor ()
      ensures Value() == Run([])
    {
      sessions, nextToken := map[], 0;
    }

    function Value(): Table
      reads this
    {
      Table(sessions, nextToken)
    }

    /** `note_declared_role`; `e` says what was declared and which entry, if any, was let go. */
    method NoteDeclaredRole(peer: Peer, clientOnly: bool) returns (receipt: Option<U64>, ghost e: Event)
      modifies this
      ensures e.peer == peer && e.clientOnly == clientOnly && EventOk(old(Value()), e)
      ensures Value() == Declare(old(Value()), e)
      ensures receipt == if clientOnly then Some(old(nextToken)) else None
      ensures clientOnly ==> IsCurrent(Value(), peer, receipt.value)
    {
      e := Event(peer, clientOnly, 0);
      if !clientOnly {
        sessions := sessions - {peer};
        return None, e;
      }
      var token := nextToken;
      nextToken := Bump(nextToken);
      if MAX_CLIENT_ONLY_PEERS <= |sessions| && peer !in sessions {
        SomeEntry(sessions);
        var victim :| victim in sessions;
        e := e.(victim := victim);
        sessions := sessions - {victim};
      }
      sessions := sessions[peer := token];
      return Some(token), e;
    }

    method Contains(peer: Peer) returns (found: bool)
      ensures found <==> exists token :: IsCurrent(Value(), peer, token)
    {
      found := peer in sessions;
      if found { assert IsCurrent(Value(), peer, sessions[peer]); }
    }

    method Current(peer: Peer, receipt: U64) returns (current: bool)
      ensures current == IsCurrent(Value(), peer, receipt)
    {
      current := peer in sessions && sessions[peer] == receipt;
    }
  }

  lemma SomeEntry(m: map<Peer, U64>)
    requires 0 < |m|
    ensures exists p :: p in m
  {
    assert |m.Keys| == |m|;
    var p :| p in m.Keys;
    assert p in m;
  }
}
