/** Connection-scoped route slots: which actor and type a compact ask's slot stands for. */
module Routes {
  import opened Common

  const MAX_ROUTES_PER_CONNECTION: nat := 65536

  datatype RouteKey = RouteKey(actor: U64, typeHash: U32)

  datatype Table = Table(bySlot: map<U32, RouteKey>, byKey: map<RouteKey, U32>, maxRoutes: nat)

  function Empty(maxRoutes: nat): Table { Table(map[], map[], maxRoutes) }

  /** The two maps are inverse to each other and slot zero is never a route. */
  ghost predicate Inverse(t: Table) {
    && (forall slot | slot in t.bySlot :: t.bySlot[slot] in t.byKey && t.byKey[t.bySlot[slot]] == slot)
    && (forall key | key in t.byKey :: t.byKey[key] in t.bySlot && t.bySlot[t.byKey[key]] == key)
    && 0 !in t.bySlot
  }

  function Insert(t: Table, slot: U32, key: RouteKey): Table {
    t.(bySlot := t.bySlot[slot := key], byKey := t.byKey[key := slot])
  }

  /** Whether the receiver accepts a binding, decided in the order the source tests. */
  predicate Accepts(t: Table, slot: U32, key: RouteKey) {
    if slot == 0 then false
    else if slot in t.bySlot then t.bySlot[slot] == key
    else |t.byKey| < t.maxRoutes && (key in t.byKey ==> t.byKey[key] == slot)
  }

  function Bound(t: Table, slot: U32, key: RouteKey): Table {
    if Accepts(t, slot, key) && slot !in t.bySlot then Insert(t, slot, key) else t
  }

  function Resolve(t: Table, slot: U32): Option<RouteKey> {
    if slot in t.bySlot then Some(t.bySlot[slot]) else None
  }

  /** Binding keeps the table consistent and never changes what a bound slot means. */
  lemma BindKeeps(t: Table, slot: U32, key: RouteKey)
    requires Inverse(t)
    ensures var t' := Bound(t, slot, key);
      && Inverse(t')
      && (forall s | s in t.bySlot :: Resolve(t', s) == Resolve(t, s))
      && (Accepts(t, slot, key) ==> Resolve(t', slot) == Some(key))
      && (|t.byKey| <= t.maxRoutes ==> |t'.byKey| <= t'.maxRoutes)
  {
    var t' := Bound(t, slot, key);
    if t' != t { assert t'.byKey.Keys == t.byKey.Keys + {key}; }
  }

  /**
   The receiver accepts a binding exactly when the slot already stands for that route, or
   when slot and route are both new, the slot is not zero and there is room for one more.
   */
  lemma AcceptsIff(t: Table, slot: U32, key: RouteKey)
    requires Inverse(t)
    ensures Accepts(t, slot, key) <==>
      Resolve(t, slot) == Some(key) ||
      (slot != 0 && Resolve(t, slot).None? && key !in t.bySlot.Values && |t.byKey| < t.maxRoutes)
  {
    if key in t.byKey { assert t.bySlot[t.byKey[key]] == key; }
  }

  /** What the sender's allocator hands out: a slot and whether it still has to be bound. */
  datatype Slot = Slot(slot: U32, needsBind: bool)

  function Allocated(t: Table, next: U32, key: RouteKey): Option<Slot> {
    if key in t.byKey then Some(Slot(t.byKey[key], false))
    else if t.maxRoutes <= |t.byKey| then None
    else if next == 0 || next == U32_LIMIT - 1 then None
    else Some(Slot(next, true))
  }

  /** Slots not yet handed out are unbound. */
  ghost predicate FreshAbove(t: Table, next: U32) {
    1 <= next && forall slot | slot in t.bySlot :: slot < next
  }

  class RouteTable {
    var bySlot: map<U32, RouteKey>
    var byKey: map<RouteKey, U32>
    var nextSlot: U32
    const maxRoutes: nat

    ghost function Value(): Table
      reads this
    {
      Table(bySlot, byKey, maxRoutes)
    }

    ghost predicate Ok()
      reads this
    {
      Inverse(Value()) && FreshAbove(Value(), nextSlot) && |byKey| <= maxRoutes
    }

    constructor (maxRoutes: nat)
      ensures Value() == Empty(maxRoutes) && nextSlot == 1 && Ok()
    {
      this.maxRoutes := maxRoutes;
      bySlot, byKey, nextSlot := map[], map[], 1;
    }

    /** `new`: the table of a connection. */
    constructor New()
      ensures Value() == Empty(MAX_ROUTES_PER_CONNECTION) && nextSlot == 1 && Ok()
    {
      maxRoutes := MAX_ROUTES_PER_CONNECTION;
      bySlot, byKey, nextSlot := map[], map[], 1;
    }

    /** Receiver side; conflicting rebinding is refused and changes nothing. */
    method Bind(slot: U32, key: RouteKey) returns (ok: bool)
      requires Inverse(Value()) && |byKey| <= maxRoutes
      modifies this
      ensures ok == Accepts(old(Value()), slot, key)
      ensures Value() == Bound(old(Value()), slot, key)
      ensures Inverse(Value()) && |byKey| <= maxRoutes && nextSlot == old(nextSlot)
    {
      ghost var before := Value();
      BindKeeps(before, slot, key);
      if slot == 0 { return false; }
      if slot in bySlot { return bySlot[slot] == key; }
      if maxRoutes <= |byKey| { return false; }
      if key in byKey && byKey[key] != slot { return false; }
      bySlot := bySlot[slot := key];
      byKey := byKey[key := slot];
      return true;
    }

    /** Sender side; a fresh slot is recorded before its binding reaches the wire. */
    method SlotFor(key: RouteKey) returns (r: Option<Slot>)
      requires Ok()
      modifies this
      ensures Ok()
      ensures r == Allocated(old(Value()), old(nextSlot), key)
      ensures Value() ==
        if r.Some? && r.value.needsBind then Insert(old(Value()), r.value.slot, key) else old(Value())
      ensures nextSlot == if r.Some? && r.value.needsBind then old(nextSlot) + 1 else old(nextSlot)
    {
      if key in byKey { return Some(Slot(byKey[key], false)); }
      if maxRoutes <= |byKey| { return None; }
      if nextSlot == 0 || nextSlot == U32_LIMIT - 1 { return None; }
      var slot := nextSlot;
      ghost var keys := byKey.Keys;
      nextSlot := nextSlot + 1;
      bySlot := bySlot[slot := key];
      byKey := byKey[key := slot];
      assert byKey.Keys == keys + {key};
      return Some(Slot(slot, true));
    }

    /** Undo of a fresh allocation whose binding never reached the wire. */
    method RemoveUnbound(slot: U32, key: RouteKey)
      requires Ok()
      modifies this
      ensures Ok() && nextSlot == old(nextSlot)
      ensures Value() == Removed(old(Value()), slot, key)
    {
      if slot in bySlot && bySlot[slot] == key && key in byKey && byKey[key] == slot {
        ghost var keys := byKey.Keys;
        bySlot := bySlot - {slot};
        byKey := byKey - {key};
        assert byKey.Keys == keys - {key};
      }
    }
  }

  function Removed(t: Table, slot: U32, key: RouteKey): Table {
    if slot in t.bySlot && t.bySlot[slot] == key && key in t.byKey && t.byKey[key] == slot
    then t.(bySlot := t.bySlot - {slot}, byKey := t.byKey - {key})
    else t
  }

  /** A rolled-back allocation leaves no trace. */
  lemma RollbackUndoes(t: Table, next: U32, key: RouteKey)
    requires Inverse(t) && FreshAbove(t, next)
    requires Allocated(t, next, key).Some? && Allocated(t, next, key).value.needsBind
    ensures Removed(Insert(t, next, key), next, key) == t
  {
    var t' := Removed(Insert(t, next, key), next, key);
    assert t'.bySlot == t.bySlot;
    assert t'.byKey == t.byKey;
  }
}
