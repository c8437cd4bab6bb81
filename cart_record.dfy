/**
 * The cart document as it sits in the `carts` collection, loosely typed the way the
 * migration script reads it, the update object the script builds for one cart, and
 * what the store's `findByIdAndUpdate` does with that object.
 */
module CartRecord {
  import opened Wrappers
  import opened JsValues

  /** Object ids, compared the way the script compares them (by their string form). */
  type UserId = nat
  type CartId = nat

  /** A `Date`, as milliseconds since the epoch. */
  type Millis = int

  /**
   * A stored `Date` field that the script compares with `<`: absent, `null`, or a time. The
   * comparison tells the first two apart (`null` converts to 0, `undefined` to NaN).
   */
  datatype Stamp = Undefined | Null | At(ms: Millis)

  /**
   * A GeoJSON point with its postal address. `coordinates` is `None` when the field is absent
   * or is not an array.
   */
  datatype Location = Location(coordinates: Option<seq<real>>, address: Value, city: Value, pincode: Value)

  /** The part of a user document the script reads: the profile location. */
  datatype User = User(location: Option<Location>)

  datatype Item = Item(name: Value, quantity: Value, price: Value, image: Value, category: Value)

  datatype Member = Member(user: Option<UserId>, joinedAt: Option<Millis>, status: Value, splitAmount: Value)

  /**
   * A stored cart. `items` and `members` are `None` when the field is absent or is not an
   * array; `creator` and `expiresAt` are `None` when absent or `null`.
   */
  datatype Cart = Cart(
    id: CartId,
    creator: Option<UserId>,
    createdAt: Stamp,
    platform: Value,
    location: Option<Location>,
    items: Option<seq<Item>>,
    deliveryCharge: Value,
    maxMembers: Value,
    members: Option<seq<Member>>,
    status: Value,
    isPublic: Value,
    maxDistance: Value,
    chatEnabled: Value,
    totalOrders: Value,
    expiresAt: Option<Millis>)

  /**
   * The `updates` object of one cart: one entry per key the script may set. `address`,
   * `city` and `pincode` are the dotted keys `location.address`, `location.city` and
   * `location.pincode`, which overwrite one sub-field of the stored location.
   */
  datatype Updates = Updates(
    platform: Option<string>,
    location: Option<Location>,
    address: Option<string>,
    city: Option<string>,
    pincode: Option<string>,
    items: Option<seq<Item>>,
    deliveryCharge: Option<real>,
    maxMembers: Option<real>,
    members: Option<seq<Member>>,
    status: Option<string>,
    isPublic: Option<bool>,
    maxDistance: Option<real>,
    chatEnabled: Option<bool>,
    totalOrders: Option<real>,
    expiresAt: Option<Millis>)

  /** The empty update object `{}`. */
  const NoUpdates := Updates(None, None, None, None, None, None, None, None, None, None, None, None, None, None, None)

  function NumOr(o: Option<real>, v: Value): Value {
    if o.Some? then Num(o.value) else v
  }

  function BoolOr(o: Option<bool>, v: Value): Value {
    if o.Some? then Bool(o.value) else v
  }

  function StrOr(o: Option<string>, v: Value): Value {
    if o.Some? then Str(o.value) else v
  }

  /** The location after the `location` key and then the dotted sub-field keys have been set. */
  function ApplyLocation(loc: Option<Location>, u: Updates): Option<Location> {
    var whole := if u.location.Some? then u.location else loc;
    if u.address.None? && u.city.None? && u.pincode.None? then whole
    else
      var l := whole.GetOr(Location(None, Absent, Absent, Absent));
      Some(Location(l.coordinates, StrOr(u.address, l.address), StrOr(u.city, l.city), StrOr(u.pincode, l.pincode)))
  }

  /**
   * `findByIdAndUpdate(id, updates)`: every key present in the update object overwrites the
   * stored field (a `$set`); every other field keeps its value.
   */
  function Apply(c: Cart, u: Updates): (r: Cart)
    ensures r.id == c.id && r.creator == c.creator && r.createdAt == c.createdAt
    ensures u == NoUpdates ==> r == c
  {
    Cart(
      c.id, c.creator, c.createdAt,
      StrOr(u.platform, c.platform),
      ApplyLocation(c.location, u),
      if u.items.Some? then u.items else c.items,
      NumOr(u.deliveryCharge, c.deliveryCharge),
      NumOr(u.maxMembers, c.maxMembers),
      if u.members.Some? then u.members else c.members,
      StrOr(u.status, c.status),
      BoolOr(u.isPublic, c.isPublic),
      NumOr(u.maxDistance, c.maxDistance),
      BoolOr(u.chatEnabled, c.chatEnabled),
      NumOr(u.totalOrders, c.totalOrders),
      if u.expiresAt.Some? then u.expiresAt else c.expiresAt)
  }
}
