/** The stock-balance fold of the balance report and the balance API: one pass
    over the ledger that updates a nested dictionary in place, then (for the
    report) a flattening pass that drops zero entries. */
module BalanceFold {
  import opened Records
  import opened PyDict
  import opened Ledger

  /** One product's running quantities, by location. */
  type Tally = Dict<LocationId, int>

  /** `balance_data`: product -> location -> running quantity. */
  type BalanceData = Dict<ProductId, Tally>

  ghost predicate WellFormed(b: BalanceData)
  {
    Valid(b) && forall p :: p in b.entries ==> Valid(b.entries[p])
  }

  /** The running quantity, with a missing location read as 0. */
  function Current(t: Tally, l: LocationId): int
  {
    if l in t.entries then t.entries[l] else 0
  }

  /** `b[p][l] += delta` after creating `b[p][l] = 0` if needed. */
  function Bump(b: BalanceData, p: ProductId, l: LocationId, delta: int): BalanceData
    requires p in b.entries
  {
    Put(b, p, Put(b.entries[p], l, Current(b.entries[p], l) + delta))
  }

  /** The `if movement.<side>:` block: a truthy side gets `delta` added. */
  function BumpSide(b: BalanceData, p: ProductId, side: Option<LocationId>, delta: int): BalanceData
    requires p in b.entries
  {
    if Truthy(side) then Bump(b, p, side.value, delta) else b
  }

  /** `if product_id not in balance_data: balance_data[product_id] = {}` */
  function WithProduct(b: BalanceData, p: ProductId): (r: BalanceData)
    ensures p in r.entries
  {
    if p in b.entries then b else Put(b, p, Empty())
  }

  /** What one iteration of the loop does to the dictionary. */
  function Step(b: BalanceData, m: ProductMovement): BalanceData
  {
    BumpSide(BumpSide(WithProduct(b, m.productId), m.productId, m.toLocation, m.qty),
             m.productId, m.fromLocation, -m.qty)
  }

  /** The dictionary after the loop has run over `ms`. */
  function Fold(ms: Movements): BalanceData
  {
    if ms == [] then Empty() else Step(Fold(ms[..|ms| - 1]), ms[|ms| - 1])
  }

  /** Running quantity of a pair, 0 where the dictionary has no entry. */
  function Value(b: BalanceData, p: ProductId, l: LocationId): int
  {
    if p in b.entries then Current(b.entries[p], l) else 0
  }

  /** Locations recorded for `p`, none when `p` is not a key. */
  ghost function LocKeys(b: BalanceData, p: ProductId): set<LocationId>
  {
    if p in b.entries then b.entries[p].entries.Keys else {}
  }

  /** The dictionary as the API serialises it: nested maps, order dropped. */
  function Plain(b: BalanceData): map<ProductId, map<LocationId, int>>
  {
    map p | p in b.entries :: b.entries[p].entries
  }

  lemma BumpSideMeaning(b: BalanceData, p: ProductId, side: Option<LocationId>, delta: int)
    requires p in b.entries
    ensures BumpSide(b, p, side, delta).entries.Keys == b.entries.Keys
    ensures forall q :: LocKeys(BumpSide(b, p, side, delta), q) ==
                          LocKeys(b, q) + (if q == p && Truthy(side) then {side.value} else {})
    ensures forall q, k :: Value(BumpSide(b, p, side, delta), q, k) ==
                             Value(b, q, k) + (if q == p && Names(side, k) then delta else 0)
  {
  }

  lemma StepUnfold(b: BalanceData, m: ProductMovement)
    ensures Step(b, m) == BumpSide(BumpSide(WithProduct(b, m.productId), m.productId, m.toLocation, m.qty),
                                   m.productId, m.fromLocation, -m.qty)
  {
  }

  lemma WithProductMeaning(b: BalanceData, p: ProductId)
    ensures WithProduct(b, p).entries.Keys == b.entries.Keys + {p}
    ensures forall q :: LocKeys(WithProduct(b, p), q) == LocKeys(b, q)
    ensures forall q, k :: Value(WithProduct(b, p), q, k) == Value(b, q, k)
  {
  }

  /** One iteration makes the movement's product a key. */
  lemma StepProducts(b: BalanceData, m: ProductMovement)
    ensures Step(b, m).entries.Keys == b.entries.Keys + {m.productId}
  {
    var p := m.productId;
    WithProductMeaning(b, p);
    var b1 := WithProduct(b, p);
    BumpSideMeaning(b1, p, m.toLocation, m.qty);
    var b2 := BumpSide(b1, p, m.toLocation, m.qty);
    BumpSideMeaning(b2, p, m.fromLocation, -m.qty);
    StepUnfold(b, m);
  }

  /** One iteration makes the locations the movement names keys of its product. */
  lemma StepLocations(b: BalanceData, m: ProductMovement, q: ProductId)
    ensures LocKeys(Step(b, m), q) == LocKeys(b, q) + NamedBy(m, q)
  {
    var p := m.productId;
    WithProductMeaning(b, p);
    var b1 := WithProduct(b, p);
    BumpSideMeaning(b1, p, m.toLocation, m.qty);
    var b2 := BumpSide(b1, p, m.toLocation, m.qty);
    BumpSideMeaning(b2, p, m.fromLocation, -m.qty);
    StepUnfold(b, m);
  }

  /** One iteration adds the movement's credit and debit to every pair. */
  lemma StepValue(b: BalanceData, m: ProductMovement, q: ProductId, l: LocationId)
    ensures Value(Step(b, m), q, l) == Value(b, q, l) + Credit(m, q, l) - Debit(m, q, l)
  {
    var p := m.productId;
    WithProductMeaning(b, p);
    var b1 := WithProduct(b, p);
    BumpSideMeaning(b1, p, m.toLocation, m.qty);
    var b2 := BumpSide(b1, p, m.toLocation, m.qty);
    BumpSideMeaning(b2, p, m.fromLocation, -m.qty);
    StepUnfold(b, m);
  }

  /** After the loop, every pair holds its credits minus its debits, and the
      keys are exactly the products and touched locations of the ledger. */
  lemma {:induction false} FoldMeaning(ms: Movements)
    ensures Fold(ms).entries.Keys == ProductsOf(ms)
    ensures forall q :: LocKeys(Fold(ms), q) == LocationsOf(ms, q)
    ensures forall q, l :: Value(Fold(ms), q, l) == Net(ms, q, l)
    decreases |ms|
  {
    if ms != [] {
      var n := |ms| - 1;
      var s, m := ms[..n], ms[n];
      assert ms == s + [m];
      FoldMeaning(s);
      StepProducts(Fold(s), m);
      ProductsSnoc(s, m);
      forall q ensures LocKeys(Fold(ms), q) == LocationsOf(ms, q) {
        StepLocations(Fold(s), m, q);
        LocationsSnoc(s, m, q);
      }
      forall q, l ensures Value(Fold(ms), q, l) == Net(ms, q, l) {
        StepValue(Fold(s), m, q, l);
        NetSnoc(s, m, q, l);
      }
    }
  }

  /** The dictionary the loop builds is the reference balance snapshot. */
  lemma FoldIsNetBalance(ms: Movements)
    ensures Plain(Fold(ms)) == NetBalance(ms)
  {
    FoldMeaning(ms);
    var b := Fold(ms);
    forall p | p in ProductsOf(ms)
      ensures b.entries[p].entries == Holdings(ms, p)
    {
      assert LocKeys(b, p) == LocationsOf(ms, p);
      forall l | l in LocationsOf(ms, p)
        ensures b.entries[p].entries[l] == Net(ms, p, l)
      {
        assert Value(b, p, l) == Net(ms, p, l);
      }
    }
  }

  /** Products in `keys` are listed by their first movement. */
  ghost predicate ProductsInOrder(ms: Movements, keys: seq<ProductId>)
  {
    (forall i :: 0 <= i < |keys| ==> keys[i] in ProductsOf(ms)) &&
    forall i, j :: 0 <= i < j < |keys| ==> FirstAt(ms, keys[i]) < FirstAt(ms, keys[j])
  }

  /** Locations in `keys` are listed by where they first show up among the
      movements of `p`. */
  ghost predicate LocationsInOrder(ms: Movements, p: ProductId, keys: seq<LocationId>)
  {
    (forall i :: 0 <= i < |keys| ==> keys[i] in LocationsOf(ms, p)) &&
    forall i, j :: 0 <= i < j < |keys| ==> TouchRank(ms, p, keys[i]) < TouchRank(ms, p, keys[j])
  }

  /** Bumping a pair keeps the outer dictionary's keys listed once each. */
  lemma BumpSideValid(b: BalanceData, p: ProductId, side: Option<LocationId>, delta: int)
    requires Valid(b) && p in b.entries
    ensures Valid(BumpSide(b, p, side, delta)) && p in BumpSide(b, p, side, delta).entries
  {
    if Truthy(side) {
      PutValid(b, p, Put(b.entries[p], side.value, Current(b.entries[p], side.value) + delta));
    }
  }

  /** Bumping a pair keeps each tally's keys listed once each. */
  lemma BumpSideTallyValid(b: BalanceData, p: ProductId, side: Option<LocationId>, delta: int, q: ProductId)
    requires p in b.entries
    requires q in b.entries ==> Valid(b.entries[q])
    ensures q in BumpSide(b, p, side, delta).entries ==> Valid(BumpSide(b, p, side, delta).entries[q])
  {
    if Truthy(side) && q == p {
      PutValid(b.entries[p], side.value, Current(b.entries[p], side.value) + delta);
    }
  }

  lemma StepValid(b: BalanceData, m: ProductMovement)
    requires Valid(b)
    ensures Valid(Step(b, m))
  {
    var p := m.productId;
    if p !in b.entries {
      PutValid(b, p, Empty());
    }
    var b1 := WithProduct(b, p);
    BumpSideValid(b1, p, m.toLocation, m.qty);
    BumpSideValid(BumpSide(b1, p, m.toLocation, m.qty), p, m.fromLocation, -m.qty);
  }

  lemma StepTallyValid(b: BalanceData, m: ProductMovement, q: ProductId)
    requires q in b.entries ==> Valid(b.entries[q])
    ensures q in Step(b, m).entries ==> Valid(Step(b, m).entries[q])
  {
    var p := m.productId;
    var b1 := WithProduct(b, p);
    BumpSideTallyValid(b1, p, m.toLocation, m.qty, q);
    BumpSideMeaning(b1, p, m.toLocation, m.qty);
    BumpSideTallyValid(BumpSide(b1, p, m.toLocation, m.qty), p, m.fromLocation, -m.qty, q);
  }

  /** The loop keeps every key, outer and inner, listed exactly once. */
  lemma {:induction false} FoldWellFormed(ms: Movements)
    ensures WellFormed(Fold(ms))
    decreases |ms|
  {
    if ms != [] {
      var n := |ms| - 1;
      FoldWellFormed(ms[..n]);
      StepValid(Fold(ms[..n]), ms[n]);
      forall q | q in Fold(ms).entries
        ensures Valid(Fold(ms).entries[q])
      {
        StepTallyValid(Fold(ms[..n]), ms[n], q);
      }
    }
  }

  /** Location order of the movement's own product after one iteration: a new
      destination goes last, then a new source. */
  function KeysAfter(t0: Tally, m: ProductMovement): seq<LocationId>
  {
    var to, from := m.toLocation, m.fromLocation;
    var k1 := if Truthy(to) && to.value !in t0.entries then t0.keys + [to.value] else t0.keys;
    var e1 := if Truthy(to) then t0.entries.Keys + {to.value} else t0.entries.Keys;
    if Truthy(from) && from.value !in e1 then k1 + [from.value] else k1
  }

  /** Key order after one iteration: a new product goes last; within the
      movement's product a new destination goes last, then a new source. */
  lemma StepKeys(b: BalanceData, m: ProductMovement)
    ensures Step(b, m).keys == if m.productId in b.entries then b.keys else b.keys + [m.productId]
    ensures forall q :: q in b.entries && q != m.productId ==> Step(b, m).entries[q] == b.entries[q]
    ensures Step(b, m).entries[m.productId].keys == KeysAfter(WithProduct(b, m.productId).entries[m.productId], m)
  {
    StepUnfold(b, m);
  }

  lemma FirstAtSnoc(s: Movements, m: ProductMovement, q: ProductId)
    requires q in ProductsOf(s + [m])
    ensures q in ProductsOf(s) ==> FirstAt(s + [m], q) == FirstAt(s, q)
    ensures q !in ProductsOf(s) ==> FirstAt(s + [m], q) == |s|
  {
    assert (s + [m])[..|s|] == s;
  }

  lemma TouchRankSnoc(s: Movements, m: ProductMovement, q: ProductId, l: LocationId)
    requires l in LocationsOf(s + [m], q)
    ensures l in LocationsOf(s, q) ==> TouchRank(s + [m], q, l) == TouchRank(s, q, l)
    ensures l !in LocationsOf(s, q) && Names(m.toLocation, l) ==> TouchRank(s + [m], q, l) == 2 * |s|
    ensures l !in LocationsOf(s, q) && !Names(m.toLocation, l) ==> TouchRank(s + [m], q, l) == 2 * |s| + 1
  {
    assert (s + [m])[..|s|] == s;
    if l in LocationsOf(s, q) {
      assert (s + [m])[FirstTouch(s, q, l)] == s[FirstTouch(s, q, l)];
    }
  }

  /** After one iteration an old location of the movement's own product stays
      where it was and keeps its rank, which is below `2 * |s|`. */
  lemma TallyRankOld(s: Movements, m: ProductMovement, t0: Tally, i: nat)
    requires Valid(t0) && t0.entries.Keys == LocationsOf(s, m.productId)
    requires i < |t0.keys|
    ensures i < |KeysAfter(t0, m)| && KeysAfter(t0, m)[i] == t0.keys[i]
    ensures t0.keys[i] in LocationsOf(s, m.productId)
    ensures TouchRank(s + [m], m.productId, t0.keys[i]) == TouchRank(s, m.productId, t0.keys[i]) < 2 * |s|
  {
    assert t0.keys[i] in t0.entries;
    LocationsSnoc(s, m, m.productId);
    TouchRankSnoc(s, m, m.productId, t0.keys[i]);
  }

  /** A location the ledger first names in its last movement ranks after
      every older one: `2 * |s|` as a destination, `2 * |s| + 1` as a source. */
  lemma NewLocationRank(s: Movements, m: ProductMovement, l: LocationId)
    requires l in NamedBy(m, m.productId) && l !in LocationsOf(s, m.productId)
    ensures l in LocationsOf(s + [m], m.productId)
    ensures TouchRank(s + [m], m.productId, l) == 2 * |s| + (if Names(m.toLocation, l) then 0 else 1)
  {
    LocationsSnoc(s, m, m.productId);
    TouchRankSnoc(s, m, m.productId, l);
  }

  /** After one iteration a new location of the movement's own product is
      ranked `2 * |s|` if it is the destination and `2 * |s| + 1` if it is the
      source. */
  lemma TallyRankNew(s: Movements, m: ProductMovement, t0: Tally, i: nat)
    requires t0.entries.Keys == LocationsOf(s, m.productId)
    requires |t0.keys| <= i < |KeysAfter(t0, m)|
    ensures KeysAfter(t0, m)[i] in LocationsOf(s + [m], m.productId)
    ensures TouchRank(s + [m], m.productId, KeysAfter(t0, m)[i]) ==
              2 * |s| + (i - |t0.keys|) + (if Truthy(m.toLocation) && m.toLocation.value !in t0.entries then 0 else 1)
  {
    var to, from := m.toLocation, m.fromLocation;
    var p := m.productId;
    var k1 := if Truthy(to) && to.value !in t0.entries then t0.keys + [to.value] else t0.keys;
    var t := KeysAfter(t0, m);
    if i < |k1| {
      var l := to.value;
      assert t[i] == l && Names(to, l);
      assert l !in LocationsOf(s, p);
      assert l in NamedBy(m, p);
      NewLocationRank(s, m, l);
    } else {
      var l := from.value;
      assert t[i] == l && !Names(to, l);
      assert l !in LocationsOf(s, p);
      assert l in NamedBy(m, p);
      NewLocationRank(s, m, l);
    }
  }

  /** The movement's own product: old locations keep their order, new ones
      are appended with higher ranks. */
  lemma StepTallyOrder(s: Movements, m: ProductMovement, b: BalanceData)
    requires WellFormed(b)
    requires LocKeys(b, m.productId) == LocationsOf(s, m.productId)
    requires m.productId in b.entries ==> LocationsInOrder(s, m.productId, b.entries[m.productId].keys)
    ensures LocationsInOrder(s + [m], m.productId, Step(b, m).entries[m.productId].keys)
  {
    var p := m.productId;
    var t0 := WithProduct(b, p).entries[p];
    assert Valid(t0) && t0.entries.Keys == LocationsOf(s, p);
    assert LocationsInOrder(s, p, t0.keys);
    StepKeys(b, m);
    var t := KeysAfter(t0, m);
    LocationsSnoc(s, m, p);
    forall i | 0 <= i < |t|
      ensures t[i] in LocationsOf(s + [m], p)
    {
      if i < |t0.keys| { TallyRankOld(s, m, t0, i); } else { TallyRankNew(s, m, t0, i); }
    }
    forall i, j | 0 <= i < j < |t|
      ensures TouchRank(s + [m], p, t[i]) < TouchRank(s + [m], p, t[j])
    {
      if i < |t0.keys| { TallyRankOld(s, m, t0, i); } else { TallyRankNew(s, m, t0, i); }
      if j < |t0.keys| { TallyRankOld(s, m, t0, j); } else { TallyRankNew(s, m, t0, j); }
    }
  }

  /** Products keep their order after one iteration; a new one is appended. */
  lemma StepProductOrder(s: Movements, m: ProductMovement, b: BalanceData)
    requires b.entries.Keys == ProductsOf(s)
    requires ProductsInOrder(s, b.keys)
    ensures ProductsInOrder(s + [m], Step(b, m).keys)
  {
    var ms, n := s + [m], |s|;
    StepKeys(b, m);
    ProductsSnoc(s, m);
    var k := Step(b, m).keys;
    forall i | 0 <= i < |k|
      ensures k[i] in ProductsOf(ms)
      ensures FirstAt(ms, k[i]) == if i < |b.keys| then FirstAt(s, k[i]) else n
    {
      FirstAtSnoc(s, m, k[i]);
    }
  }

  /** The other products' locations are untouched by one iteration. */
  lemma StepOtherOrder(s: Movements, m: ProductMovement, b: BalanceData, q: ProductId)
    requires q != m.productId && q in b.entries
    requires LocationsInOrder(s, q, b.entries[q].keys)
    ensures LocationsInOrder(s + [m], q, Step(b, m).entries[q].keys)
  {
    StepKeys(b, m);
    LocationsSnoc(s, m, q);
    var t := b.entries[q].keys;
    forall i | 0 <= i < |t|
      ensures TouchRank(s + [m], q, t[i]) == TouchRank(s, q, t[i])
    {
      TouchRankSnoc(s, m, q, t[i]);
    }
  }

  /** The dictionary lists products by their first movement and, for each
      product, locations by where they first show up: Python's insertion
      order, which the balance report follows. */
  lemma {:induction false} FoldOrder(ms: Movements)
    ensures WellFormed(Fold(ms))
    ensures ProductsInOrder(ms, Fold(ms).keys)
    ensures forall q :: q in Fold(ms).entries ==> LocationsInOrder(ms, q, Fold(ms).entries[q].keys)
    decreases |ms|
  {
    if ms != [] {
      var n := |ms| - 1;
      var s, m := ms[..n], ms[n];
      assert ms == s + [m];
      FoldOrder(s);
      FoldMeaning(s);
      var b := Fold(s);
      FoldWellFormed(ms);
      StepProductOrder(s, m, b);
      StepProducts(b, m);
      forall q | q in Fold(ms).entries
        ensures LocationsInOrder(ms, q, Fold(ms).entries[q].keys)
      {
        if q == m.productId {
          StepTallyOrder(s, m, b);
        } else {
          StepOtherOrder(s, m, b, q);
        }
      }
    }
  }
}
