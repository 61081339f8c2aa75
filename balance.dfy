/** The two balance views: the JSON endpoint, which returns the accumulated
    nested map as it is, and the report page, which flattens it into rows and
    drops zero quantities. Both run the same accumulation loop. */
module Balance {
  import opened Records
  import opened PyDict
  import opened Ledger
  import opened BalanceFold

  /** One line of the balance report. The ids are kept beside the looked-up
      records, which are absent when the id no longer resolves. */
  datatype BalanceRow = BalanceRow(
    productId: ProductId,
    locationId: LocationId,
    product: Option<Product>,
    location: Option<Location>,
    qty: int)

  /** The (product, location) pairs the rows are about. */
  ghost function RowKeys(rows: seq<BalanceRow>): set<(ProductId, LocationId)>
  {
    set r | r in rows :: (r.productId, r.locationId)
  }

  /** `if l not in b[p]: b[p][l] = 0` followed by `b[p][l] += delta`: one
      update of a running quantity, a missing one starting from 0. */
  method AddAt(b: BalanceData, p: ProductId, l: LocationId, delta: int) returns (r: BalanceData)
    requires p in b.entries
    ensures r == Bump(b, p, l, delta)
  {
    var tally := b.entries[p];
    ghost var t := tally;
    if l !in tally.entries {
      tally := Put(tally, l, 0);
    }
    tally := Put(tally, l, tally.entries[l] + delta);
    r := Put(b, p, tally);
    if l !in t.entries {
      assert t.entries[l := 0][l := delta] == t.entries[l := delta];
    }
  }

  /** The accumulation loop: every movement credits its destination and debits
      its source, creating missing entries first. */
  method Accumulate(ms: Movements) returns (b: BalanceData)
    ensures b == Fold(ms)
  {
    b := Empty();
    for i := 0 to |ms|
      invariant b == Fold(ms[..i])
    {
      var m := ms[i];
      var p := m.productId;
      ghost var b0 := b;
      if p !in b.entries {
        b := Put(b, p, Empty());
      }
      ghost var b1 := b;
      if Truthy(m.toLocation) {
        b := AddAt(b, p, m.toLocation.value, m.qty);
      }
      ghost var b2 := b;
      if Truthy(m.fromLocation) {
        b := AddAt(b, p, m.fromLocation.value, -m.qty);
      }
      assert b1 == WithProduct(b0, p);
      assert b2 == BumpSide(b1, p, m.toLocation, m.qty);
      assert b == BumpSide(b2, p, m.fromLocation, -m.qty);
      StepUnfold(b0, m);
      assert ms[..i + 1] == ms[..i] + [m];
    }
    assert ms[..|ms|] == ms;
  }

  /** The balance endpoint: the nested map, zero entries included. */
  method ApiBalance(ms: Movements) returns (r: map<ProductId, map<LocationId, int>>)
    ensures r == NetBalance(ms)
  {
    var b := Accumulate(ms);
    r := Plain(b);
    FoldIsNetBalance(ms);
  }

  /** The rows the report's nested loop appends for one product, over the
      locations `lkeys` of its tally: a row per non-zero quantity, with the
      location looked up by id. */
  ghost function TallyRows(p: ProductId, t: Tally, product: Option<Product>,
                           locations: map<LocationId, Location>, lkeys: seq<LocationId>): seq<BalanceRow>
    decreases |lkeys|
  {
    if lkeys == [] then []
    else
      var n := |lkeys| - 1;
      var l := lkeys[n];
      TallyRows(p, t, product, locations, lkeys[..n]) +
      (if Current(t, l) != 0 then [BalanceRow(p, l, product, Lookup(locations, l), Current(t, l))] else [])
  }

  /** The tally of `p`, empty when `p` is not a key. */
  function TallyOf(d: BalanceData, p: ProductId): Tally
  {
    if p in d.entries then d.entries[p] else Empty()
  }

  /** The rows the report appends for the products `pkeys`, in that order. */
  ghost function ReportRows(d: BalanceData, products: map<ProductId, Product>,
                            locations: map<LocationId, Location>, pkeys: seq<ProductId>): seq<BalanceRow>
    decreases |pkeys|
  {
    if pkeys == [] then []
    else
      var n := |pkeys| - 1;
      var p := pkeys[n];
      var t := TallyOf(d, p);
      ReportRows(d, products, locations, pkeys[..n]) + TallyRows(p, t, Lookup(products, p), locations, t.keys)
  }

  lemma TallyRowsSnoc(p: ProductId, t: Tally, product: Option<Product>,
                      locations: map<LocationId, Location>, lkeys: seq<LocationId>, j: nat)
    requires j < |lkeys|
    ensures TallyRows(p, t, product, locations, lkeys[..j + 1]) ==
              TallyRows(p, t, product, locations, lkeys[..j]) +
              (if Current(t, lkeys[j]) != 0
               then [BalanceRow(p, lkeys[j], product, Lookup(locations, lkeys[j]), Current(t, lkeys[j]))]
               else [])
  {
    assert lkeys[..j + 1][..j] == lkeys[..j];
  }

  lemma ReportRowsSnoc(d: BalanceData, products: map<ProductId, Product>,
                       locations: map<LocationId, Location>, pkeys: seq<ProductId>, i: nat)
    requires i < |pkeys|
    ensures ReportRows(d, products, locations, pkeys[..i + 1]) ==
              ReportRows(d, products, locations, pkeys[..i]) +
              TallyRows(pkeys[i], TallyOf(d, pkeys[i]), Lookup(products, pkeys[i]), locations, TallyOf(d, pkeys[i]).keys)
  {
    assert pkeys[..i + 1][..i] == pkeys[..i];
  }

  /** The inner loop of the report: one product's non-zero quantities, in
      the order of its tally, appended to the rows so far. */
  method AppendTally(rows0: seq<BalanceRow>, p: ProductId, t: Tally, product: Option<Product>,
                     locations: map<LocationId, Location>)
    returns (rows: seq<BalanceRow>)
    requires forall l :: l in t.keys ==> l in t.entries
    ensures rows == rows0 + TallyRows(p, t, product, locations, t.keys)
  {
    rows := rows0;
    for j := 0 to |t.keys|
      invariant rows == rows0 + TallyRows(p, t, product, locations, t.keys[..j])
    {
      var l := t.keys[j];
      TallyRowsSnoc(p, t, product, locations, t.keys, j);
      ghost var before := TallyRows(p, t, product, locations, t.keys[..j]);
      var qty := t.entries[l];
      if qty != 0 {
        var location := Lookup(locations, l);
        var row := BalanceRow(p, l, product, location, qty);
        rows := rows + [row];
        assert rows == rows0 + (before + [row]);
      }
    }
    assert t.keys[..|t.keys|] == t.keys;
  }

  /** The flattening loops of the report: products in dictionary order, for
      each its locations in dictionary order, zero quantities skipped. */
  method Flatten(d: BalanceData, products: map<ProductId, Product>, locations: map<LocationId, Location>)
    returns (rows: seq<BalanceRow>)
    requires WellFormed(d)
    ensures rows == ReportRows(d, products, locations, d.keys)
  {
    rows := [];
    for i := 0 to |d.keys|
      invariant rows == ReportRows(d, products, locations, d.keys[..i])
    {
      var p := d.keys[i];
      assert p in d.entries;
      assert Valid(d.entries[p]);
      var product := Lookup(products, p);
      rows := AppendTally(rows, p, d.entries[p], product, locations);
      ReportRowsSnoc(d, products, locations, d.keys, i);
    }
    assert d.keys[..|d.keys|] == d.keys;
  }

  /** Every row of one product's chunk shows a non-zero quantity of one of its
      listed locations, with the lookups the loop made; every non-zero listed
      location has a row. */
  lemma {:induction false} TallyRowsShow(p: ProductId, t: Tally, product: Option<Product>,
                                         locations: map<LocationId, Location>, lkeys: seq<LocationId>)
    ensures forall r :: r in TallyRows(p, t, product, locations, lkeys) ==>
              r.productId == p && r.locationId in lkeys && r.qty == Current(t, r.locationId) && r.qty != 0 &&
              r.product == product && r.location == Lookup(locations, r.locationId)
    ensures forall l :: l in lkeys && Current(t, l) != 0 ==> (p, l) in RowKeys(TallyRows(p, t, product, locations, lkeys))
    decreases |lkeys|
  {
    if lkeys != [] {
      var n := |lkeys| - 1;
      TallyRowsShow(p, t, product, locations, lkeys[..n]);
      assert lkeys == lkeys[..n] + [lkeys[n]];
    }
  }

  /** Rows of one product whose locations carry strictly increasing ranks. */
  ghost predicate LocationsRanked(ms: Movements, p: ProductId, rows: seq<BalanceRow>)
  {
    (forall i :: 0 <= i < |rows| ==> rows[i].locationId in LocationsOf(ms, p)) &&
    forall i, j :: 0 <= i < j < |rows| ==> TouchRank(ms, p, rows[i].locationId) < TouchRank(ms, p, rows[j].locationId)
  }

  /** A chunk lists its locations in the order of the tally. */
  lemma {:induction false} TallyRowsOrder(ms: Movements, p: ProductId, t: Tally, product: Option<Product>,
                                          locations: map<LocationId, Location>, lkeys: seq<LocationId>)
    requires LocationsInOrder(ms, p, lkeys)
    ensures LocationsRanked(ms, p, TallyRows(p, t, product, locations, lkeys))
    decreases |lkeys|
  {
    if lkeys != [] {
      var n := |lkeys| - 1;
      var a := TallyRows(p, t, product, locations, lkeys[..n]);
      assert LocationsInOrder(ms, p, lkeys[..n]);
      TallyRowsOrder(ms, p, t, product, locations, lkeys[..n]);
      TallyRowsShow(p, t, product, locations, lkeys[..n]);
      var rows := TallyRows(p, t, product, locations, lkeys);
      if Current(t, lkeys[n]) != 0 {
        forall i | 0 <= i < |a|
          ensures TouchRank(ms, p, a[i].locationId) < TouchRank(ms, p, lkeys[n])
        {
          assert a[i] in a;
          var k :| 0 <= k < n && lkeys[k] == a[i].locationId;
        }
        assert rows == a + [rows[|a|]];
      }
    }
  }

  /** `r1` comes before `r2` in the report: its product moved first, or it is
      the same product and its location was touched first. */
  ghost predicate RowBefore(ms: Movements, r1: BalanceRow, r2: BalanceRow)
  {
    r1.productId in ProductsOf(ms) && r2.productId in ProductsOf(ms) &&
    (FirstAt(ms, r1.productId) < FirstAt(ms, r2.productId) ||
     (r1.productId == r2.productId &&
      r1.locationId in LocationsOf(ms, r1.productId) && r2.locationId in LocationsOf(ms, r1.productId) &&
      TouchRank(ms, r1.productId, r1.locationId) < TouchRank(ms, r1.productId, r2.locationId)))
  }

  ghost predicate InReportOrder(ms: Movements, rows: seq<BalanceRow>)
  {
    forall i, j :: 0 <= i < j < |rows| ==> RowBefore(ms, rows[i], rows[j])
  }

  lemma OrderConcat(ms: Movements, a: seq<BalanceRow>, b: seq<BalanceRow>)
    requires InReportOrder(ms, a) && InReportOrder(ms, b)
    requires forall i, j :: 0 <= i < |a| && 0 <= j < |b| ==> RowBefore(ms, a[i], b[j])
    ensures InReportOrder(ms, a + b)
  {
    var c := a + b;
    forall i, j | 0 <= i < j < |c|
      ensures RowBefore(ms, c[i], c[j])
    {
      if j < |a| {
        assert c[i] == a[i] && c[j] == a[j];
      } else if i < |a| {
        assert c[i] == a[i] && c[j] == b[j - |a|];
      } else {
        assert c[i] == b[i - |a|] && c[j] == b[j - |a|];
      }
    }
  }

  /** Every row of the report shows a non-zero quantity of a listed product at
      one of its listed locations; every such quantity has a row. */
  lemma {:induction false} ReportRowsShow(d: BalanceData, products: map<ProductId, Product>,
                                          locations: map<LocationId, Location>, pkeys: seq<ProductId>)
    ensures forall r :: r in ReportRows(d, products, locations, pkeys) ==>
              r.productId in pkeys && r.locationId in TallyOf(d, r.productId).keys &&
              r.qty == Current(TallyOf(d, r.productId), r.locationId) && r.qty != 0 &&
              r.product == Lookup(products, r.productId) && r.location == Lookup(locations, r.locationId)
    ensures forall p, l :: p in pkeys && l in TallyOf(d, p).keys && Current(TallyOf(d, p), l) != 0 ==>
              (p, l) in RowKeys(ReportRows(d, products, locations, pkeys))
    decreases |pkeys|
  {
    if pkeys != [] {
      var n := |pkeys| - 1;
      var p := pkeys[n];
      ReportRowsShow(d, products, locations, pkeys[..n]);
      TallyRowsShow(p, TallyOf(d, p), Lookup(products, p), locations, TallyOf(d, p).keys);
      assert pkeys == pkeys[..n] + [p];
    }
  }

  /** The report lists products by first movement and, within a product,
      locations by first touch. */
  lemma {:induction false} ReportRowsOrder(ms: Movements, d: BalanceData, products: map<ProductId, Product>,
                                           locations: map<LocationId, Location>, pkeys: seq<ProductId>)
    requires ProductsInOrder(ms, pkeys)
    requires forall p :: p in pkeys ==> LocationsInOrder(ms, p, TallyOf(d, p).keys)
    ensures InReportOrder(ms, ReportRows(d, products, locations, pkeys))
    decreases |pkeys|
  {
    if pkeys != [] {
      var n := |pkeys| - 1;
      var p := pkeys[n];
      assert ProductsInOrder(ms, pkeys[..n]);
      ReportRowsOrder(ms, d, products, locations, pkeys[..n]);
      ReportRowsShow(d, products, locations, pkeys[..n]);
      var a := ReportRows(d, products, locations, pkeys[..n]);
      var b := TallyRows(p, TallyOf(d, p), Lookup(products, p), locations, TallyOf(d, p).keys);
      TallyRowsShow(p, TallyOf(d, p), Lookup(products, p), locations, TallyOf(d, p).keys);
      TallyRowsOrder(ms, p, TallyOf(d, p), Lookup(products, p), locations, TallyOf(d, p).keys);
      assert p in ProductsOf(ms);
      forall i, j | 0 <= i < j < |b|
        ensures RowBefore(ms, b[i], b[j])
      {
        assert b[i] in b && b[j] in b;
      }
      forall i, j | 0 <= i < |a| && 0 <= j < |b|
        ensures RowBefore(ms, a[i], b[j])
      {
        assert a[i] in a && b[j] in b;
        var k :| 0 <= k < n && pkeys[k] == a[i].productId;
      }
      OrderConcat(ms, a, b);
    }
  }

  /** A report row shows a non-zero entry of the balance snapshot, with the
      product and location records looked up by id. */
  ghost predicate Reports(ms: Movements, products: map<ProductId, Product>,
                          locations: map<LocationId, Location>, r: BalanceRow)
  {
    var snapshot := NetBalance(ms);
    r.productId in snapshot && r.locationId in snapshot[r.productId] &&
    r.qty == snapshot[r.productId][r.locationId] && r.qty != 0 &&
    r.product == Lookup(products, r.productId) && r.location == Lookup(locations, r.locationId)
  }

  /** Every row of the report over the ledger shows a non-zero entry of the
      snapshot the balance endpoint returns. */
  lemma ReportSound(ms: Movements, products: map<ProductId, Product>, locations: map<LocationId, Location>)
    ensures WellFormed(Fold(ms))
    ensures forall r :: r in ReportRows(Fold(ms), products, locations, Fold(ms).keys) ==>
              Reports(ms, products, locations, r)
  {
    var d := Fold(ms);
    FoldMeaning(ms);
    FoldWellFormed(ms);
    FoldIsNetBalance(ms);
    ReportRowsShow(d, products, locations, d.keys);
    forall r | r in ReportRows(d, products, locations, d.keys)
      ensures Reports(ms, products, locations, r)
    {
      var p, l := r.productId, r.locationId;
      assert p in d.entries && Valid(d.entries[p]);
      assert l in d.entries[p].entries;
      assert NetBalance(ms)[p] == d.entries[p].entries;
    }
  }

  /** Every non-zero entry of the snapshot has a row in the report. */
  lemma ReportComplete(ms: Movements, products: map<ProductId, Product>, locations: map<LocationId, Location>)
    ensures forall p, l :: p in NetBalance(ms) && l in NetBalance(ms)[p] && NetBalance(ms)[p][l] != 0 ==>
              (p, l) in RowKeys(ReportRows(Fold(ms), products, locations, Fold(ms).keys))
  {
    var d := Fold(ms);
    FoldMeaning(ms);
    FoldWellFormed(ms);
    FoldIsNetBalance(ms);
    ReportRowsShow(d, products, locations, d.keys);
    forall p, l | p in NetBalance(ms) && l in NetBalance(ms)[p] && NetBalance(ms)[p][l] != 0
      ensures (p, l) in RowKeys(ReportRows(d, products, locations, d.keys))
    {
      assert p in d.entries && Valid(d.entries[p]);
      assert NetBalance(ms)[p] == d.entries[p].entries;
      assert l in TallyOf(d, p).keys;
    }
  }

  /** The report lists products by first movement and, within a product,
      locations by first touch. */
  lemma ReportOrdered(ms: Movements, products: map<ProductId, Product>, locations: map<LocationId, Location>)
    ensures InReportOrder(ms, ReportRows(Fold(ms), products, locations, Fold(ms).keys))
  {
    var d := Fold(ms);
    FoldOrder(ms);
    forall p | p in d.keys
      ensures LocationsInOrder(ms, p, TallyOf(d, p).keys)
    {
      assert p in d.entries;
    }
    ReportRowsOrder(ms, d, products, locations, d.keys);
  }

  /** The report page: accumulate, then flatten with zero quantities dropped.
      No (product, location) pair is reported twice. */
  method BalanceReport(ms: Movements, products: map<ProductId, Product>, locations: map<LocationId, Location>)
    returns (rows: seq<BalanceRow>)
    ensures forall r :: r in rows ==> Reports(ms, products, locations, r)
    ensures forall p, l :: p in NetBalance(ms) && l in NetBalance(ms)[p] && NetBalance(ms)[p][l] != 0 ==>
              (p, l) in RowKeys(rows)
    ensures InReportOrder(ms, rows)
    ensures forall i, j :: 0 <= i < j < |rows| ==>
              (rows[i].productId, rows[i].locationId) != (rows[j].productId, rows[j].locationId)
  {
    var b := Accumulate(ms);
    ReportSound(ms, products, locations);
    ReportComplete(ms, products, locations);
    ReportOrdered(ms, products, locations);
    rows := Flatten(b, products, locations);
    OrderedRowsDistinct(ms, rows);
  }

  /** Rows in report order never repeat a (product, location) pair. */
  lemma OrderedRowsDistinct(ms: Movements, rows: seq<BalanceRow>)
    requires InReportOrder(ms, rows)
    ensures forall i, j :: 0 <= i < j < |rows| ==>
              (rows[i].productId, rows[i].locationId) != (rows[j].productId, rows[j].locationId)
  {
    forall i, j | 0 <= i < j < |rows|
      ensures (rows[i].productId, rows[i].locationId) != (rows[j].productId, rows[j].locationId)
    {
      assert RowBefore(ms, rows[i], rows[j]);
    }
  }
}
