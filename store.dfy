/** The inventory store behind the pages: the three tables, kept in memory,
    with the add and edit handlers as keyed inserts and field updates, the
    read-only pages, the dashboard and the two balance views. */
module Store {
  import opened Records
  import opened Ledger
  import opened History
  import opened Balance

  /** Why a handler left the tables as they were: the primary key is taken,
      the record to show or edit does not exist, or a movement refers to a
      product or location that does not exist. */
  datatype StoreError = DuplicateKey | NotFound | DanglingReference

  datatype Result<T> = Success(value: T) | Failure(error: StoreError)

  /** The foreign keys of a movement resolve: its product exists, and each
      location it names exists. A missing location is allowed. */
  predicate Resolves(m: ProductMovement, products: map<ProductId, Product>, locations: map<LocationId, Location>)
  {
    m.productId in products &&
    (m.fromLocation.Some? ==> m.fromLocation.value in locations) &&
    (m.toLocation.Some? ==> m.toLocation.value in locations)
  }

  /** Primary-key lookup in the movement table. */
  function MovementIndex(ms: Movements, id: MovementId): (r: Option<nat>)
    ensures r.Some? ==> r.value < |ms| && ms[r.value].movementId == id
    ensures r.None? ==> forall i :: 0 <= i < |ms| ==> ms[i].movementId != id
    decreases |ms|
  {
    if ms == [] then None
    else if ms[0].movementId == id then Some(0)
    else
      match MovementIndex(ms[1..], id)
      case None => None
      case Some(i) => Some(i + 1)
  }

  /** A ledger whose foreign keys resolve only has snapshot keys that are
      existing products and locations, so every report lookup finds its record. */
  lemma SnapshotResolves(ms: Movements, products: map<ProductId, Product>, locations: map<LocationId, Location>)
    requires forall i :: 0 <= i < |ms| ==> Resolves(ms[i], products, locations)
    ensures forall p :: p in NetBalance(ms) ==> p in products
    ensures forall p, l :: p in NetBalance(ms) && l in NetBalance(ms)[p] ==> l in locations
  {
    forall p | p in NetBalance(ms)
      ensures p in products
    {
      var m :| m in ms && m.productId == p;
    }
    forall p, l | p in NetBalance(ms) && l in NetBalance(ms)[p]
      ensures l in locations
    {
      assert l in LocationsOf(ms, p);
      if l in (set m | m in ms && m.productId == p && Truthy(m.toLocation) :: m.toLocation.value) {
        var m :| m in ms && m.productId == p && Truthy(m.toLocation) && m.toLocation.value == l;
      } else {
        var m :| m in ms && m.productId == p && Truthy(m.fromLocation) && m.fromLocation.value == l;
      }
    }
  }

  /** With resolving foreign keys, the active locations are exactly the
      existing locations with a non-empty incoming or outgoing history. */
  lemma ActiveAreLocations(ms: Movements, products: map<ProductId, Product>, locations: map<LocationId, Location>)
    requires forall i :: 0 <= i < |ms| ==> Resolves(ms[i], products, locations)
    ensures Destinations(ms) + Sources(ms) <= locations.Keys
    ensures Destinations(ms) + Sources(ms) ==
              set l | l in locations && (Query(ms, IncomingTo(l)) != [] || Query(ms, OutgoingFrom(l)) != [])
  {
    var active := Destinations(ms) + Sources(ms);
    forall l | l in active
      ensures l in locations
    {
      if l in Destinations(ms) {
        var m :| m in ms && m.toLocation.Some? && m.toLocation.value == l;
        var i :| 0 <= i < |ms| && ms[i] == m;
      } else {
        var m :| m in ms && m.fromLocation.Some? && m.fromLocation.value == l;
        var i :| 0 <= i < |ms| && ms[i] == m;
      }
    }
    forall l ensures l in active <==> Query(ms, IncomingTo(l)) != [] || Query(ms, OutgoingFrom(l)) != [] {
      ActiveMeansHistory(ms, l);
    }
  }

  lemma {:induction false} SubsetCard(a: set<LocationId>, b: set<LocationId>)
    requires a <= b
    ensures |a| <= |b|
    decreases |a|
  {
    if a != {} {
      var x :| x in a;
      SubsetCard(a - {x}, b - {x});
    }
  }

  /** The figures on the dashboard. */
  datatype DashboardCounts = DashboardCounts(
    productCount: nat, locationCount: nat, movementCount: nat, activeLocations: nat)

  class InventoryStore {
    var products: map<ProductId, Product>
    var locations: map<LocationId, Location>
    /** The movement table in insertion order, which is the order a full
        table scan returns. */
    var movements: Movements

    /** Each record is filed under its own id, movement ids are unique, and
        every movement's foreign keys resolve. */
    ghost predicate Valid()
      reads this
    {
      (forall id :: id in products ==> products[id].productId == id) &&
      (forall id :: id in locations ==> locations[id].locationId == id) &&
      (forall i, j :: 0 <= i < j < |movements| ==> movements[i].movementId != movements[j].movementId) &&
      (forall i :: 0 <= i < |movements| ==> Resolves(movements[i], products, locations))
    }

    constructor ()
      ensures Valid()
      ensures products == map[] && locations == map[] && movements == []
    {
      products := map[];
      locations := map[];
      movements := [];
    }

    /** The add-product form: a new id is inserted with the given fields and
        the creation time; an id in use is refused and nothing changes. */
    method AddProduct(id: ProductId, name: string, description: string, now: Timestamp)
      returns (r: Result<Product>)
      requires Valid()
      modifies this
      ensures Valid()
      ensures id in old(products) ==> r == Failure(DuplicateKey) && products == old(products)
      ensures id !in old(products) ==>
                r == Success(Product(id, name, description, now)) && products == old(products)[id := r.value]
      ensures locations == old(locations) && movements == old(movements)
    {
      if id in products {
        r := Failure(DuplicateKey);
      } else {
        var product := Product(id, name, description, now);
        products := products[id := product];
        r := Success(product);
      }
    }

    /** The edit-product form: name and description are replaced; the id and
        the creation time stay. A missing id is not found. */
    method EditProduct(id: ProductId, name: string, description: string) returns (r: Result<Product>)
      requires Valid()
      modifies this
      ensures Valid()
      ensures id !in old(products) ==> r == Failure(NotFound) && products == old(products)
      ensures id in old(products) ==>
                r == Success(old(products)[id].(name := name, description := description)) &&
                r.value.productId == id && r.value.createdAt == old(products)[id].createdAt &&
                products == old(products)[id := r.value]
      ensures locations == old(locations) && movements == old(movements)
    {
      if id !in products {
        r := Failure(NotFound);
      } else {
        var product := products[id].(name := name, description := description);
        products := products[id := product];
        r := Success(product);
      }
    }

    /** The add-location form, keyed like the product form. */
    method AddLocation(id: LocationId, name: string, address: string, now: Timestamp)
      returns (r: Result<Location>)
      requires Valid()
      modifies this
      ensures Valid()
      ensures id in old(locations) ==> r == Failure(DuplicateKey) && locations == old(locations)
      ensures id !in old(locations) ==>
                r == Success(Location(id, name, address, now)) && locations == old(locations)[id := r.value]
      ensures products == old(products) && movements == old(movements)
    {
      if id in locations {
        r := Failure(DuplicateKey);
      } else {
        var location := Location(id, name, address, now);
        locations := locations[id := location];
        r := Success(location);
      }
    }

    /** The edit-location form: name and address are replaced, nothing else. */
    method EditLocation(id: LocationId, name: string, address: string) returns (r: Result<Location>)
      requires Valid()
      modifies this
      ensures Valid()
      ensures id !in old(locations) ==> r == Failure(NotFound) && locations == old(locations)
      ensures id in old(locations) ==>
                r == Success(old(locations)[id].(name := name, address := address)) &&
                r.value.locationId == id && r.value.createdAt == old(locations)[id].createdAt &&
                locations == old(locations)[id := r.value]
      ensures products == old(products) && movements == old(movements)
    {
      if id !in locations {
        r := Failure(NotFound);
      } else {
        var location := locations[id].(name := name, address := address);
        locations := locations[id := location];
        r := Success(location);
      }
    }

    /** The add-movement form: empty location fields mean no location; the
        movement is appended to the table unless its id is taken or one of
        its references does not resolve, in which case nothing changes. */
    method AddMovement(id: MovementId, fromField: string, toField: string, productId: ProductId,
                       qty: int, notes: string, now: Timestamp)
      returns (r: Result<ProductMovement>)
      requires Valid()
      modifies this
      ensures Valid()
      ensures products == old(products) && locations == old(locations)
      ensures var m := ProductMovement(id, now, FormLocation(fromField), FormLocation(toField), productId, qty, notes);
              if exists i :: 0 <= i < |old(movements)| && old(movements)[i].movementId == id then
                r == Failure(DuplicateKey) && movements == old(movements)
              else if !Resolves(m, products, locations) then
                r == Failure(DanglingReference) && movements == old(movements)
              else
                r == Success(m) && movements == old(movements) + [m]
    {
      var m := ProductMovement(id, now, FormLocation(fromField), FormLocation(toField), productId, qty, notes);
      if MovementIndex(movements, id).Some? {
        r := Failure(DuplicateKey);
      } else if !Resolves(m, products, locations) {
        r := Failure(DanglingReference);
      } else {
        movements := movements + [m];
        r := Success(m);
      }
    }

    /** The edit-movement form: both locations, the product, the quantity and
        the notes are replaced; the id and the timestamp stay, and so does
        the movement's place in the table. A missing id is not found; an
        edit whose references do not resolve changes nothing. */
    method EditMovement(id: MovementId, fromField: string, toField: string, productId: ProductId,
                        qty: int, notes: string)
      returns (r: Result<ProductMovement>)
      requires Valid()
      modifies this
      ensures Valid()
      ensures products == old(products) && locations == old(locations)
      ensures (forall i :: 0 <= i < |old(movements)| ==> old(movements)[i].movementId != id) ==>
                r == Failure(NotFound) && movements == old(movements)
      ensures r.Success? ==>
                exists i :: 0 <= i < |old(movements)| && old(movements)[i].movementId == id &&
                  r.value == old(movements)[i].(fromLocation := FormLocation(fromField),
                                                toLocation := FormLocation(toField),
                                                productId := productId, qty := qty, notes := notes) &&
                  movements == old(movements)[i := r.value]
      ensures r.Failure? ==> movements == old(movements)
      ensures r == Failure(DanglingReference) || r.Success? <==>
                exists i :: 0 <= i < |old(movements)| && old(movements)[i].movementId == id
      ensures r.Success? <==>
                (exists i :: 0 <= i < |old(movements)| && old(movements)[i].movementId == id) &&
                Resolves(ProductMovement(id, 0, FormLocation(fromField), FormLocation(toField), productId, qty, notes),
                         products, locations)
    {
      match MovementIndex(movements, id)
      case None =>
        r := Failure(NotFound);
      case Some(i) =>
        var m := movements[i].(fromLocation := FormLocation(fromField), toLocation := FormLocation(toField),
                               productId := productId, qty := qty, notes := notes);
        if !Resolves(m, products, locations) {
          r := Failure(DanglingReference);
        } else {
          movements := movements[i := m];
          r := Success(m);
        }
    }

    /** The product page: the product and its movements, newest first. */
    function ProductPage(id: ProductId): (r: Result<(Product, Movements)>)
      reads this
      ensures r.Success? <==> id in products
      ensures r.Failure? ==> r.error == NotFound
      ensures r.Success? ==>
                r.value.0 == products[id] && NewestFirst(r.value.1) &&
                (forall m :: m in r.value.1 <==> m in movements && m.productId == id) &&
                forall m :: multiset(r.value.1)[m] == if m.productId == id then multiset(movements)[m] else 0
    {
      if id in products then Success((products[id], Query(movements, ByProduct(id))))
      else Failure(NotFound)
    }

    /** The location page: the location, the movements into it and the
        movements out of it, each newest first. */
    function LocationPage(id: LocationId): (r: Result<(Location, Movements, Movements)>)
      reads this
      ensures r.Success? <==> id in locations
      ensures r.Failure? ==> r.error == NotFound
      ensures r.Success? ==>
                r.value.0 == locations[id] && NewestFirst(r.value.1) && NewestFirst(r.value.2) &&
                (forall m :: m in r.value.1 <==> m in movements && m.toLocation == Some(id)) &&
                (forall m :: m in r.value.2 <==> m in movements && m.fromLocation == Some(id)) &&
                (forall m :: multiset(r.value.1)[m] == if m.toLocation == Some(id) then multiset(movements)[m] else 0) &&
                (forall m :: multiset(r.value.2)[m] == if m.fromLocation == Some(id) then multiset(movements)[m] else 0)
    {
      if id in locations
      then Success((locations[id], Query(movements, IncomingTo(id)), Query(movements, OutgoingFrom(id))))
      else Failure(NotFound)
    }

    /** The movement list: every movement, newest first. */
    function MovementsPage(): (r: Movements)
      reads this
      ensures NewestFirst(r) && multiset(r) == multiset(movements)
    {
      Query(movements, Everything)
    }

    /** The movement page. */
    function MovementPage(id: MovementId): (r: Result<ProductMovement>)
      reads this
      ensures r.Success? <==> exists i :: 0 <= i < |movements| && movements[i].movementId == id
      ensures r.Success? ==> r.value in movements && r.value.movementId == id
      ensures r.Failure? ==> r.error == NotFound
    {
      match MovementIndex(movements, id)
      case None => Failure(NotFound)
      case Some(i) => Success(movements[i])
    }

    /** The dashboard. Active locations are counted once each, and only
        locations that exist can be active. */
    function Dashboard(): (r: DashboardCounts)
      requires Valid()
      reads this
      ensures r.activeLocations <= r.locationCount == |locations|
      ensures r.productCount == |products| && r.movementCount == |movements|
      ensures r.activeLocations == |set l | l in locations && (Query(movements, IncomingTo(l)) != [] ||
                                                               Query(movements, OutgoingFrom(l)) != [])|
    {
      ActiveAreLocations(movements, products, locations);
      SubsetCard(Destinations(movements) + Sources(movements), locations.Keys);
      DashboardCounts(|products|, |locations|, |movements|, ActiveLocations(movements))
    }

    /** The balance endpoint over the current table. */
    method ApiBalance() returns (r: map<ProductId, map<LocationId, int>>)
      ensures r == NetBalance(movements)
    {
      r := Balance.ApiBalance(movements);
    }

    /** The balance report over the current tables: the non-zero entries of
        the snapshot, in dictionary order, each with its product and location
        record, which always exist. */
    method BalanceReport() returns (rows: seq<BalanceRow>)
      requires Valid()
      ensures forall r :: r in rows ==> Reports(movements, products, locations, r)
      ensures forall r :: r in rows ==> r.product.Some? && r.location.Some?
      ensures forall p, l ::
                p in NetBalance(movements) && l in NetBalance(movements)[p] && NetBalance(movements)[p][l] != 0 ==>
                (p, l) in RowKeys(rows)
      ensures InReportOrder(movements, rows)
      ensures forall i, j :: 0 <= i < j < |rows| ==>
                (rows[i].productId, rows[i].locationId) != (rows[j].productId, rows[j].locationId)
    {
      rows := Balance.BalanceReport(movements, products, locations);
      SnapshotResolves(movements, products, locations);
    }
  }
}
