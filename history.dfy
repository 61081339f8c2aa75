/** The movement histories shown on the product, location and movement pages,
    and the dashboard's count of active locations. */
module History {
  import opened Records
  import opened Ledger

  /** The `filter_by` of each history page. Column equality is SQL equality:
      a missing location equals nothing. */
  datatype Filter =
    | ByProduct(productId: ProductId)
    | IncomingTo(locationId: LocationId)
    | OutgoingFrom(locationId: LocationId)
    | Everything

  predicate Matches(f: Filter, m: ProductMovement)
  {
    match f
    case ByProduct(p) => m.productId == p
    case IncomingTo(l) => m.toLocation == Some(l)
    case OutgoingFrom(l) => m.fromLocation == Some(l)
    case Everything => true
  }

  /** The movements that pass the filter, each as often as in the ledger. */
  function Select(ms: Movements, f: Filter): (r: Movements)
    ensures forall i :: 0 <= i < |r| ==> Matches(f, r[i])
    ensures forall m :: multiset(r)[m] == if Matches(f, m) then multiset(ms)[m] else 0
    decreases |ms|
  {
    if ms == [] then []
    else
      var n := |ms| - 1;
      assert ms == ms[..n] + [ms[n]];
      Select(ms[..n], f) + (if Matches(f, ms[n]) then [ms[n]] else [])
  }

  /** `order_by(timestamp.desc())`: newest first. */
  predicate NewestFirst(ms: Movements)
  {
    forall i, j :: 0 <= i < j < |ms| ==> ms[i].timestamp >= ms[j].timestamp
  }

  /** Places `m` after every movement at least as new as it. */
  function Insert(m: ProductMovement, sorted: Movements): (r: Movements)
    requires NewestFirst(sorted)
    ensures NewestFirst(r)
    ensures multiset(r) == multiset(sorted) + multiset{m}
    ensures |r| == |sorted| + 1 && (r[0] == m || (sorted != [] && r[0] == sorted[0]))
    decreases |sorted|
  {
    if sorted == [] then [m]
    else if m.timestamp > sorted[0].timestamp then [m] + sorted
    else
      assert sorted == [sorted[0]] + sorted[1..];
      [sorted[0]] + Insert(m, sorted[1..])
  }

  /** Newest-first order; movements with equal timestamps stay in ledger order. */
  function SortNewestFirst(ms: Movements): (r: Movements)
    ensures NewestFirst(r)
    ensures multiset(r) == multiset(ms)
    decreases |ms|
  {
    if ms == [] then []
    else
      var n := |ms| - 1;
      assert ms == ms[..n] + [ms[n]];
      Insert(ms[n], SortNewestFirst(ms[..n]))
  }

  /** A history page: the filtered movements, newest first. */
  function Query(ms: Movements, f: Filter): (r: Movements)
    ensures NewestFirst(r)
    ensures forall m :: multiset(r)[m] == if Matches(f, m) then multiset(ms)[m] else 0
    ensures forall m :: m in r <==> m in ms && Matches(f, m)
  {
    var r := SortNewestFirst(Select(ms, f));
    assert forall m :: m in r <==> m in multiset(r);
    assert forall m :: m in ms <==> m in multiset(ms);
    r
  }

  /** The values of the `to_location` column, a missing one included. */
  function ToColumn(ms: Movements): set<Option<LocationId>>
  {
    set m | m in ms :: m.toLocation
  }

  /** The values of the `from_location` column, a missing one included. */
  function FromColumn(ms: Movements): set<Option<LocationId>>
  {
    set m | m in ms :: m.fromLocation
  }

  /** The dashboard counter as written: `SELECT DISTINCT` on each column,
      counted with `count(*)`, and the two counts added. */
  function ActiveLocationsAsWritten(ms: Movements): nat
  {
    |ToColumn(ms)| + |FromColumn(ms)|
  }

  /** Locations some movement names as its destination. */
  function Destinations(ms: Movements): set<LocationId>
  {
    set m | m in ms && m.toLocation.Some? :: m.toLocation.value
  }

  /** Locations some movement names as its source. */
  function Sources(ms: Movements): set<LocationId>
  {
    set m | m in ms && m.fromLocation.Some? :: m.fromLocation.value
  }

  /** The locations that have movements, each counted once. */
  function ActiveLocations(ms: Movements): nat
  {
    |Destinations(ms) + Sources(ms)|
  }

  /** A location is a destination exactly when its incoming history is
      non-empty. */
  lemma DestinationMeansIncoming(ms: Movements, l: LocationId)
    ensures l in Destinations(ms) <==> Query(ms, IncomingTo(l)) != []
  {
    var q := Query(ms, IncomingTo(l));
    if l in Destinations(ms) {
      var m :| m in ms && m.toLocation == Some(l);
      assert m in q;
    }
    if q != [] {
      assert q[0] in q;
    }
  }

  /** A location is a source exactly when its outgoing history is non-empty. */
  lemma SourceMeansOutgoing(ms: Movements, l: LocationId)
    ensures l in Sources(ms) <==> Query(ms, OutgoingFrom(l)) != []
  {
    var q := Query(ms, OutgoingFrom(l));
    if l in Sources(ms) {
      var m :| m in ms && m.fromLocation == Some(l);
      assert m in q;
    }
    if q != [] {
      assert q[0] in q;
    }
  }

  /** A location counts as active exactly when its incoming or its outgoing
      history is non-empty. */
  lemma ActiveMeansHistory(ms: Movements, l: LocationId)
    ensures l in Destinations(ms) + Sources(ms) <==> Query(ms, IncomingTo(l)) != [] || Query(ms, OutgoingFrom(l)) != []
  {
    DestinationMeansIncoming(ms, l);
    SourceMeansOutgoing(ms, l);
  }

  /** Wrapping in `Some` neither merges nor loses locations. */
  lemma {:induction false} SomeImage(s: set<LocationId>)
    ensures |set l | l in s :: Some(l)| == |s|
    decreases |s|
  {
    if s != {} {
      var x :| x in s;
      var rest := s - {x};
      SomeImage(rest);
      assert (set l | l in s :: Some(l)) == (set l | l in rest :: Some(l)) + {Some(x)};
    }
  }

  /** A column's distinct values: its present locations, plus one for a
      missing value when the column has one. */
  lemma ColumnCount(column: set<Option<LocationId>>, present: set<LocationId>)
    requires forall l :: l in present <==> Some(l) in column
    ensures |column| == |present| + if None in column then 1 else 0
  {
    var image := set l | l in present :: Some(l);
    SomeImage(present);
    forall o: Option<LocationId> | o.Some?
      ensures o in column <==> o in image
    {
      if o in column {
        assert o.value in present;
      }
    }
    if None in column {
      assert column == image + {None};
    } else {
      assert column == image;
    }
  }

  /** The counter as written adds one per column that holds a missing
      location, and counts a location once per side it appears on. */
  lemma AsWrittenCount(ms: Movements)
    ensures ActiveLocationsAsWritten(ms) ==
              |Destinations(ms)| + (if None in ToColumn(ms) then 1 else 0) +
              |Sources(ms)| + (if None in FromColumn(ms) then 1 else 0)
  {
    forall l ensures l in Destinations(ms) <==> Some(l) in ToColumn(ms) {
      if Some(l) in ToColumn(ms) {
        var m :| m in ms && m.toLocation == Some(l);
      }
    }
    forall l ensures l in Sources(ms) <==> Some(l) in FromColumn(ms) {
      if Some(l) in FromColumn(ms) {
        var m :| m in ms && m.fromLocation == Some(l);
      }
    }
    ColumnCount(ToColumn(ms), Destinations(ms));
    ColumnCount(FromColumn(ms), Sources(ms));
  }

  /** The corrected count never exceeds the count as written. */
  lemma ActiveAtMostAsWritten(ms: Movements)
    ensures ActiveLocations(ms) <= ActiveLocationsAsWritten(ms)
  {
    AsWrittenCount(ms);
  }

  /** A single receipt into A: the counter as written reports two active
      locations, the missing source counted as one. */
  lemma NullCountedAsLocation()
    ensures var ms := [ProductMovement("M1", 1, None, Some("A"), "P1", 10, "")];
            ActiveLocationsAsWritten(ms) == 2 && ActiveLocations(ms) == 1
  {
    var ms := [ProductMovement("M1", 1, None, Some("A"), "P1", 10, "")];
    assert ms[0] in ms;
    assert ToColumn(ms) == {Some("A")};
    assert FromColumn(ms) == {None};
    assert Destinations(ms) == {"A"};
    assert Sources(ms) == {};
  }

  /** A transfer from A to B and one back: the counter as written reports
      four active locations for two. */
  lemma BothSidesCountedTwice()
    ensures var ms := [ProductMovement("M1", 1, Some("A"), Some("B"), "P1", 5, ""),
                       ProductMovement("M2", 2, Some("B"), Some("A"), "P1", 5, "")];
            ActiveLocationsAsWritten(ms) == 4 && ActiveLocations(ms) == 2
  {
    var ms := [ProductMovement("M1", 1, Some("A"), Some("B"), "P1", 5, ""),
               ProductMovement("M2", 2, Some("B"), Some("A"), "P1", 5, "")];
    assert ms[0] in ms && ms[1] in ms;
    assert ToColumn(ms) == {Some("B"), Some("A")};
    assert FromColumn(ms) == {Some("A"), Some("B")};
    assert Destinations(ms) == {"B", "A"};
    assert Sources(ms) == {"A", "B"};
    assert Destinations(ms) + Sources(ms) == {"A", "B"};
  }
}
