/** Reference meaning of the stock balance: for a product and a location, the
    quantity the ledger moved in minus the quantity it moved out. */
module Ledger {
  import opened Records

  /** The ledger: every recorded movement, in table order. */
  type Movements = seq<ProductMovement>

  /** Quantity movement `m` brings into location `l` for product `p`. */
  function Credit(m: ProductMovement, p: ProductId, l: LocationId): int
  {
    if m.productId == p && Names(m.toLocation, l) then m.qty else 0
  }

  /** Quantity movement `m` takes out of location `l` for product `p`. */
  function Debit(m: ProductMovement, p: ProductId, l: LocationId): int
  {
    if m.productId == p && Names(m.fromLocation, l) then m.qty else 0
  }

  function Credits(ms: Movements, p: ProductId, l: LocationId): int
  {
    if ms == [] then 0 else Credits(ms[..|ms| - 1], p, l) + Credit(ms[|ms| - 1], p, l)
  }

  function Debits(ms: Movements, p: ProductId, l: LocationId): int
  {
    if ms == [] then 0 else Debits(ms[..|ms| - 1], p, l) + Debit(ms[|ms| - 1], p, l)
  }

  /** On-hand quantity of `p` at `l`: credits minus debits, never clamped. */
  function Net(ms: Movements, p: ProductId, l: LocationId): int
  {
    Credits(ms, p, l) - Debits(ms, p, l)
  }

  /** Products that have at least one movement. */
  ghost function ProductsOf(ms: Movements): set<ProductId>
  {
    set m | m in ms :: m.productId
  }

  /** Locations some movement of `p` names on either side. */
  ghost function LocationsOf(ms: Movements, p: ProductId): set<LocationId>
  {
    (set m | m in ms && m.productId == p && Truthy(m.toLocation) :: m.toLocation.value) +
    (set m | m in ms && m.productId == p && Truthy(m.fromLocation) :: m.fromLocation.value)
  }

  /** The balance snapshot as a nested map `product -> location -> quantity`:
      one entry per touched pair, zero entries included. */
  ghost function NetBalance(ms: Movements): map<ProductId, map<LocationId, int>>
  {
    map p | p in ProductsOf(ms) :: Holdings(ms, p)
  }

  /** The inner map of `NetBalance` for one product. */
  ghost function Holdings(ms: Movements, p: ProductId): map<LocationId, int>
  {
    map l | l in LocationsOf(ms, p) :: Net(ms, p, l)
  }

  lemma {:induction false} CreditsConcat(a: Movements, b: Movements, p: ProductId, l: LocationId)
    ensures Credits(a + b, p, l) == Credits(a, p, l) + Credits(b, p, l)
    decreases |b|
  {
    if b == [] {
      assert a + b == a;
    } else {
      var n := |b| - 1;
      assert (a + b)[..|a + b| - 1] == a + b[..n];
      assert (a + b)[|a + b| - 1] == b[n];
      CreditsConcat(a, b[..n], p, l);
    }
  }

  lemma {:induction false} DebitsConcat(a: Movements, b: Movements, p: ProductId, l: LocationId)
    ensures Debits(a + b, p, l) == Debits(a, p, l) + Debits(b, p, l)
    decreases |b|
  {
    if b == [] {
      assert a + b == a;
    } else {
      var n := |b| - 1;
      assert (a + b)[..|a + b| - 1] == a + b[..n];
      assert (a + b)[|a + b| - 1] == b[n];
      DebitsConcat(a, b[..n], p, l);
    }
  }

  /** Taking the movement at `k` out of the ledger takes away exactly its own
      credit and debit. */
  lemma NetWithout(b: Movements, k: nat, p: ProductId, l: LocationId)
    requires k < |b|
    ensures Credits(b, p, l) == Credits(b[..k] + b[k + 1..], p, l) + Credit(b[k], p, l)
    ensures Debits(b, p, l) == Debits(b[..k] + b[k + 1..], p, l) + Debit(b[k], p, l)
  {
    var x := b[k];
    assert b == b[..k] + [x] + b[k + 1..];
    CreditsConcat(b[..k] + [x], b[k + 1..], p, l);
    CreditsConcat(b[..k], [x], p, l);
    CreditsConcat(b[..k], b[k + 1..], p, l);
    DebitsConcat(b[..k] + [x], b[k + 1..], p, l);
    DebitsConcat(b[..k], [x], p, l);
    DebitsConcat(b[..k], b[k + 1..], p, l);
    assert [x][..0] == [];
  }

  /** Removing the same movement from two permutations of each other leaves
      two permutations of each other. */
  lemma MultisetWithout(a: Movements, b: Movements, k: nat)
    requires a != [] && k < |b| && b[k] == a[|a| - 1]
    requires multiset(a) == multiset(b)
    ensures multiset(a[..|a| - 1]) == multiset(b[..k] + b[k + 1..])
  {
    var n, x := |a| - 1, b[k];
    var rest := b[..k] + b[k + 1..];
    assert a == a[..n] + [x];
    assert b == b[..k] + [x] + b[k + 1..];
    calc {
      multiset(a[..n]) + multiset{x};
      multiset(a);
      multiset(b);
      multiset(b[..k]) + multiset{x} + multiset(b[k + 1..]);
      multiset(rest) + multiset{x};
    }
    forall y ensures multiset(a[..n])[y] == multiset(rest)[y] {
      assert (multiset(a[..n]) + multiset{x})[y] == (multiset(rest) + multiset{x})[y];
    }
  }

  /** The net of a pair is a pure sum over the ledger: replaying the movements
      in any order gives the same quantity. */
  lemma {:induction false} NetOrderFree(a: Movements, b: Movements, p: ProductId, l: LocationId)
    requires multiset(a) == multiset(b)
    ensures Net(a, p, l) == Net(b, p, l)
    decreases |a|
  {
    if a != [] {
      var n := |a| - 1;
      var x := a[n];
      assert x in multiset(b) by {
        assert a == a[..n] + [x];
      }
      var k :| 0 <= k < |b| && b[k] == x;
      MultisetWithout(a, b, k);
      NetOrderFree(a[..n], b[..k] + b[k + 1..], p, l);
      NetWithout(b, k, p, l);
    }
  }

  /** The whole snapshot does not depend on the order of the ledger. */
  lemma BalanceOrderFree(a: Movements, b: Movements)
    requires multiset(a) == multiset(b)
    ensures NetBalance(a) == NetBalance(b)
  {
    assert forall m :: m in a <==> m in b by {
      forall m ensures m in a <==> m in b {
        assert m in a <==> m in multiset(a);
        assert m in b <==> m in multiset(b);
      }
    }
    assert ProductsOf(a) == ProductsOf(b);
    forall p | p in ProductsOf(a)
      ensures NetBalance(a)[p] == NetBalance(b)[p]
    {
      assert LocationsOf(a, p) == LocationsOf(b, p);
      forall l | l in LocationsOf(a, p)
        ensures Net(a, p, l) == Net(b, p, l)
      {
        NetOrderFree(a, b, p, l);
      }
    }
  }

  /** A movement from a location to itself credits and debits the same
      quantity there: no net changes anywhere, yet the pair gets an entry. */
  lemma SelfTransferNeutral(ms: Movements, m: ProductMovement)
    requires m.fromLocation == m.toLocation
    ensures forall p, l :: Net(ms + [m], p, l) == Net(ms, p, l)
    ensures Truthy(m.toLocation) ==>
              m.productId in NetBalance(ms + [m]) && m.toLocation.value in NetBalance(ms + [m])[m.productId]
  {
    var s := ms + [m];
    assert s[..|s| - 1] == ms;
    assert m in s;
  }

  /** The locations `m` itself names for product `q`. */
  ghost function NamedBy(m: ProductMovement, q: ProductId): set<LocationId>
  {
    (if m.productId == q && Truthy(m.toLocation) then {m.toLocation.value} else {}) +
    (if m.productId == q && Truthy(m.fromLocation) then {m.fromLocation.value} else {})
  }

  /** Every location a movement names is among the locations of the ledger. */
  lemma NamedIn(ms: Movements, j: nat, p: ProductId)
    requires j < |ms|
    ensures NamedBy(ms[j], p) <= LocationsOf(ms, p)
  {
    assert ms[j] in ms;
  }

  lemma ProductsSnoc(ms: Movements, m: ProductMovement)
    ensures ProductsOf(ms + [m]) == ProductsOf(ms) + {m.productId}
  {
    assert forall x :: x in ms + [m] <==> x in ms || x == m;
  }

  lemma LocationsSnoc(ms: Movements, m: ProductMovement, q: ProductId)
    ensures LocationsOf(ms + [m], q) == LocationsOf(ms, q) + NamedBy(m, q)
  {
    assert forall x :: x in ms + [m] <==> x in ms || x == m;
  }

  /** Appending a movement adds its own credit and debit to every pair. */
  lemma NetSnoc(ms: Movements, m: ProductMovement, p: ProductId, l: LocationId)
    ensures Credits(ms + [m], p, l) == Credits(ms, p, l) + Credit(m, p, l)
    ensures Debits(ms + [m], p, l) == Debits(ms, p, l) + Debit(m, p, l)
  {
    assert (ms + [m])[..|ms|] == ms;
  }

  /** Index of the first movement of product `p`. */
  ghost function FirstAt(ms: Movements, p: ProductId): (i: nat)
    requires p in ProductsOf(ms)
    ensures i < |ms| && ms[i].productId == p
    ensures forall j :: 0 <= j < i ==> ms[j].productId != p
    decreases |ms|
  {
    var n := |ms| - 1;
    assert ms == ms[..n] + [ms[n]];
    ProductsSnoc(ms[..n], ms[n]);
    if p in ProductsOf(ms[..n]) then FirstAt(ms[..n], p) else n
  }

  /** Index of the first movement of `p` that names `l` on either side. */
  ghost function FirstTouch(ms: Movements, p: ProductId, l: LocationId): (i: nat)
    requires l in LocationsOf(ms, p)
    ensures i < |ms|
    decreases |ms|
  {
    var n := |ms| - 1;
    LocationsSnoc(ms[..n], ms[n], p);
    assert ms == ms[..n] + [ms[n]];
    if l in LocationsOf(ms[..n], p) then FirstTouch(ms[..n], p, l) else n
  }

  /** Where location `l` first shows up among the movements of `p`: twice the
      index of the first movement of `p` naming it, plus one when that
      movement names it only as its source (the destination is handled first). */
  ghost function TouchRank(ms: Movements, p: ProductId, l: LocationId): nat
    requires l in LocationsOf(ms, p)
  {
    var i := FirstTouch(ms, p, l);
    2 * i + if Names(ms[i].toLocation, l) then 0 else 1
  }

  /** The first touch is a movement of `p` naming `l`, and no earlier one does. */
  lemma {:induction false} FirstTouchMeaning(ms: Movements, p: ProductId, l: LocationId)
    requires l in LocationsOf(ms, p)
    ensures l in NamedBy(ms[FirstTouch(ms, p, l)], p)
    ensures forall j :: 0 <= j < FirstTouch(ms, p, l) ==> l !in NamedBy(ms[j], p)
    decreases |ms|
  {
    var n := |ms| - 1;
    var s := ms[..n];
    LocationsSnoc(s, ms[n], p);
    assert ms == s + [ms[n]];
    if l in LocationsOf(s, p) {
      FirstTouchMeaning(s, p, l);
      var i := FirstTouch(s, p, l);
      assert FirstTouch(ms, p, l) == i && ms[i] == s[i];
      forall j | 0 <= j < i
        ensures l !in NamedBy(ms[j], p)
      {
        assert ms[j] == s[j];
      }
    } else {
      assert FirstTouch(ms, p, l) == n;
      assert l in NamedBy(ms[n], p);
      forall j | 0 <= j < n
        ensures l !in NamedBy(ms[j], p)
      {
        NamedIn(s, j, p);
      }
    }
  }

  /** A movement naming no location leaves every product's holdings alone. */
  lemma ExternalOnlyHoldings(ms: Movements, m: ProductMovement, q: ProductId)
    requires !Truthy(m.fromLocation) && !Truthy(m.toLocation)
    ensures Holdings(ms + [m], q) == Holdings(ms, q)
  {
    LocationsSnoc(ms, m, q);
    assert LocationsOf(ms + [m], q) == LocationsOf(ms, q);
    forall l | l in LocationsOf(ms, q)
      ensures Net(ms + [m], q, l) == Net(ms, q, l)
    {
      NetSnoc(ms, m, q, l);
    }
  }

  /** A movement naming no location changes no quantity; it only makes its
      product a key, with no locations if nothing else touches it. */
  lemma ExternalOnlyMovement(ms: Movements, m: ProductMovement)
    requires !Truthy(m.fromLocation) && !Truthy(m.toLocation)
    ensures NetBalance(ms + [m]) ==
              if m.productId in NetBalance(ms) then NetBalance(ms) else NetBalance(ms)[m.productId := map[]]
  {
    var s := ms + [m];
    ProductsSnoc(ms, m);
    var want := if m.productId in NetBalance(ms) then NetBalance(ms) else NetBalance(ms)[m.productId := map[]];
    assert NetBalance(s).Keys == want.Keys;
    forall q | q in want
      ensures NetBalance(s)[q] == want[q]
    {
      ExternalOnlyHoldings(ms, m, q);
      if q !in ProductsOf(ms) {
        assert LocationsOf(ms, q) == {};
      }
    }
  }

  /** Receipt of 10 into A, transfer of 4 from A to B, sale of 6 from B. */
  function SampleLedger(): Movements
  {
    [ProductMovement("M1", 1, None, Some("A"), "P1", 10, ""),
     ProductMovement("M2", 2, Some("A"), Some("B"), "P1", 4, ""),
     ProductMovement("M3", 3, Some("B"), None, "P1", 6, "")]
  }

  lemma SampleProducts()
    ensures ProductsOf(SampleLedger()) == {"P1"}
  {
    var ms := SampleLedger();
    var s0: Movements := [];
    assert ms == s0 + [ms[0]] + [ms[1]] + [ms[2]];
    ProductsSnoc(s0, ms[0]);
    ProductsSnoc(s0 + [ms[0]], ms[1]);
    ProductsSnoc(s0 + [ms[0]] + [ms[1]], ms[2]);
  }

  lemma SampleLocations()
    ensures LocationsOf(SampleLedger(), "P1") == {"A", "B"}
  {
    var ms := SampleLedger();
    var s0: Movements := [];
    assert ms == s0 + [ms[0]] + [ms[1]] + [ms[2]];
    LocationsSnoc(s0, ms[0], "P1");
    assert NamedBy(ms[0], "P1") == {"A"};
    assert LocationsOf(s0 + [ms[0]], "P1") == {"A"};
    LocationsSnoc(s0 + [ms[0]], ms[1], "P1");
    assert NamedBy(ms[1], "P1") == {"A", "B"};
    LocationsSnoc(s0 + [ms[0]] + [ms[1]], ms[2], "P1");
    assert NamedBy(ms[2], "P1") == {"B"};
  }

  lemma SampleNet(l: LocationId)
    ensures Net(SampleLedger(), "P1", l) ==
              (if l == "A" then 10 else 0) - (if l == "A" then 4 else 0) +
              (if l == "B" then 4 else 0) - (if l == "B" then 6 else 0)
  {
    var ms := SampleLedger();
    var s0: Movements := [];
    assert ms == s0 + [ms[0]] + [ms[1]] + [ms[2]];
    NetSnoc(s0, ms[0], "P1", l);
    NetSnoc(s0 + [ms[0]], ms[1], "P1", l);
    NetSnoc(s0 + [ms[0]] + [ms[1]], ms[2], "P1", l);
  }

  /** On the sample ledger A holds 6 and B holds -2: balances are never
      clamped at zero. */
  lemma NegativeBalanceScenario()
    ensures NetBalance(SampleLedger()) == map["P1" := map["A" := 6, "B" := -2]]
  {
    var ms := SampleLedger();
    SampleProducts();
    SampleLocations();
    SampleNet("A");
    SampleNet("B");
    assert Holdings(ms, "P1") == map["A" := 6, "B" := -2];
  }
}
