/** Who owns an address: arbitration of claims, folded over any history. */
module AddrOwnership {
  import opened Common

  type Node = nat
  type Addr = nat

  datatype ClaimKind = Verified | Provisional

  /** A claim on an address, or the recorded owner of one. */
  datatype Owner = Owner(node: Node, kind: ClaimKind)

  datatype RejectReason = LocalAddress | UnverifiedAddress | VerifiedOwnerPresent | ProvisionalFirstCome

  datatype Decision = Accept | Reject(reason: RejectReason)

  function Arbitrate(current: Option<Owner>, claim: Owner, isLocal: bool): Decision {
    if isLocal then Reject(LocalAddress)
    else
      match current
      case None => if claim.kind.Provisional? then Reject(UnverifiedAddress) else Accept
      case Some(owner) =>
        if owner.node == claim.node then Accept
        else if owner.kind.Verified? then Reject(VerifiedOwnerPresent)
        else if claim.kind.Verified? then Accept
        else Reject(ProvisionalFirstCome)
  }

  function ResolvedKind(current: Option<Owner>, claim: Owner): ClaimKind {
    if current.Some? && current.value.node == claim.node && current.value.kind.Verified? then Verified else claim.kind
  }

  // ---------------------------------------------------------------- histories

  datatype Event = Event(addr: Addr, claim: Owner, isLocal: bool)

  type Table = map<Addr, Owner>

  function Lookup(t: Table, a: Addr): Option<Owner> { if a in t then Some(t[a]) else None }

  function Decide(t: Table, e: Event): Decision { Arbitrate(Lookup(t, e.addr), e.claim, e.isLocal) }

  /** An accepted claim is recorded with its resolved kind. */
  function Commit(t: Table, e: Event): Table {
    if Decide(t, e).Accept?
    then t[e.addr := Owner(e.claim.node, ResolvedKind(Lookup(t, e.addr), e.claim))]
    else t
  }

  function History(t: Table, events: seq<Event>): Table
    decreases |events|
  {
    if events == [] then t else Commit(History(t, events[..|events| - 1]), events[|events| - 1])
  }

  /** The events that carry verified claims, in order. */
  function VerifiedOnly(events: seq<Event>): seq<Event>
    decreases |events|
  {
    if events == [] then []
    else
      var last := events[|events| - 1];
      VerifiedOnly(events[..|events| - 1]) + if last.claim.kind.Verified? then [last] else []
  }

  /** The decisions on the verified claims of a history, in order. */
  function VerifiedDecisions(t: Table, events: seq<Event>): seq<Decision>
    decreases |events|
  {
    if events == [] then []
    else
      var n := |events| - 1;
      VerifiedDecisions(t, events[..n]) +
      if events[n].claim.kind.Verified? then [Decide(History(t, events[..n]), events[n])] else []
  }

  /** The first verified non-local claimant of an address. */
  function FirstVerified(events: seq<Event>, a: Addr): Option<Node>
    decreases |events|
  {
    if events == [] then None
    else
      match FirstVerified(events[..|events| - 1], a)
      case Some(n) => Some(n)
      case None =>
        var last := events[|events| - 1];
        if last.addr == a && last.claim.kind.Verified? && !last.isLocal then Some(last.claim.node) else None
  }

  /** In no state does a provisional claim change the table. */
  lemma ProvisionalInert(t: Table, e: Event)
    requires e.claim.kind.Provisional?
    ensures Commit(t, e) == t
  {
    if Decide(t, e).Accept? { assert t[e.addr := t[e.addr]] == t; }
  }

  /** Deleting every provisional claim leaves the table and every verified decision as they were. */
  lemma {:induction false} ProvisionalNonInterference(t: Table, events: seq<Event>)
    ensures History(t, events) == History(t, VerifiedOnly(events))
    ensures VerifiedDecisions(t, events) == VerifiedDecisions(t, VerifiedOnly(events))
    decreases |events|
  {
    if events != [] {
      var n := |events| - 1;
      var kept := VerifiedOnly(events[..n]);
      ProvisionalNonInterference(t, events[..n]);
      if events[n].claim.kind.Verified? {
        assert (kept + [events[n]])[..|kept|] == kept;
      } else {
        ProvisionalInert(History(t, events[..n]), events[n]);
        assert VerifiedOnly(events) == kept;
        assert VerifiedDecisions(t, events) == VerifiedDecisions(t, events[..n]);
      }
    }
  }

  /**
   Ownership in closed form: a verified owner stays; otherwise the first verified non-local
   claimant owns the address from then on; otherwise nothing changed.
   */
  lemma {:induction false} OwnerInClosedForm(t: Table, events: seq<Event>, a: Addr)
    ensures Lookup(History(t, events), a) ==
      if a in t && t[a].kind.Verified? then Some(t[a])
      else if FirstVerified(events, a).Some? then Some(Owner(FirstVerified(events, a).value, Verified))
      else Lookup(t, a)
    decreases |events|
  {
    if events != [] { OwnerInClosedForm(t, events[..|events| - 1], a); }
  }

  /** From an empty table the owner of an address is its first verified non-local claimant, forever. */
  lemma {:induction false} FirstVerifiedOwnsForever(events: seq<Event>, later: seq<Event>, a: Addr)
    ensures Lookup(History(map[], events), a) ==
      match FirstVerified(events, a) case Some(n) => Some(Owner(n, Verified)) case None => None
    ensures a in History(map[], events) ==>
      Lookup(History(map[], events + later), a) == Lookup(History(map[], events), a)
    decreases |later|
  {
    OwnerInClosedForm(map[], events, a);
    OwnerInClosedForm(map[], events + later, a);
    if later == [] {
      assert events + later == events;
    } else {
      FirstVerifiedOwnsForever(events, later[..|later| - 1], a);
      OwnerInClosedForm(map[], events + later[..|later| - 1], a);
      assert (events + later)[..|events + later| - 1] == events + later[..|later| - 1];
    }
  }

  /** A verified non-local claim is accepted exactly when its node owns the address afterwards. */
  lemma AcceptedIffOwner(t: Table, e: Event)
    requires e.claim.kind.Verified? && !e.isLocal
    ensures Decide(t, e).Accept? <==> Lookup(Commit(t, e), e.addr) == Some(Owner(e.claim.node, Verified))
  {
  }

  /**
   The first-come reason needs a provisional owner, and no history creates one: it is given
   exactly while an initial provisional owner of another node has met no verified claim.
   */
  lemma {:induction false} FirstComeIff(t: Table, events: seq<Event>, e: Event)
    ensures Decide(History(t, events), e) == Reject(ProvisionalFirstCome) <==>
      !e.isLocal && e.claim.kind.Provisional? && e.addr in t && t[e.addr].kind.Provisional? &&
      t[e.addr].node != e.claim.node && FirstVerified(events, e.addr).None?
  {
    OwnerInClosedForm(t, events, e.addr);
  }

  /**
   Every answer after a history from an empty table: a local address is refused; before the
   first verified claim only a verified claim is accepted, and after it only its claimant's,
   whatever kind the claim is of.
   */
  lemma DecisionInClosedForm(events: seq<Event>, e: Event)
    ensures Decide(History(map[], events), e) ==
      if e.isLocal then Reject(LocalAddress)
      else
        match FirstVerified(events, e.addr)
        case None => if e.claim.kind.Verified? then Accept else Reject(UnverifiedAddress)
        case Some(n) => if n == e.claim.node then Accept else Reject(VerifiedOwnerPresent)
  {
    OwnerInClosedForm(map[], events, e.addr);
  }

  /** From an empty table the first-come reason is never given. */
  lemma {:induction false} FirstComeUnreachable(events: seq<Event>, e: Event)
    ensures Decide(History(map[], events), e) != Reject(ProvisionalFirstCome)
  {
    FirstComeIff(map[], events, e);
  }
}
