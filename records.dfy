/** The three record shapes of the inventory tracker: products, storage
    locations and directional product movements between them. */
module Records {

  datatype Option<+T> = None | Some(value: T)

  type ProductId = string
  type LocationId = string
  type MovementId = string

  /** Timestamps only ever order movements, so a plain integer stands for the
      stored date-time. */
  type Timestamp = int

  datatype Product = Product(productId: ProductId, name: string, description: string, createdAt: Timestamp)

  datatype Location = Location(locationId: LocationId, name: string, address: string, createdAt: Timestamp)

  /** An absent `fromLocation` is the outside world as a source (a receipt), an
      absent `toLocation` the outside world as a destination (a sale). */
  datatype ProductMovement = ProductMovement(
    movementId: MovementId,
    timestamp: Timestamp,
    fromLocation: Option<LocationId>,
    toLocation: Option<LocationId>,
    productId: ProductId,
    qty: int,
    notes: string)

  /** Python truthiness of an optional location column: both a missing value
      and the empty string are false. */
  predicate Truthy(side: Option<LocationId>)
  {
    side.Some? && side.value != ""
  }

  /** The side `side` names location `l` in the sense of the balance fold. */
  predicate Names(side: Option<LocationId>, l: LocationId)
  {
    Truthy(side) && side.value == l
  }

  /** The movement forms turn an empty location field into "no location". */
  function FormLocation(field: string): (r: Option<LocationId>)
    ensures r.None? <==> field == ""
    ensures r.Some? ==> Truthy(r) && r.value == field
  {
    if field != "" then Some(field) else None
  }

  /** `Query.get` on a primary key: the record, or nothing when the key is absent. */
  function Lookup<K, V>(table: map<K, V>, key: K): (r: Option<V>)
    ensures r.Some? <==> key in table
    ensures r.Some? ==> r.value == table[key]
  {
    if key in table then Some(table[key]) else None
  }
}
