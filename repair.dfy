/**
 * The per-cart decision of the cart migration script `server/scripts/fixCarts.js` (the line
 * numbers below refer to it): delete the cart, write a set of field repairs, leave it alone,
 * or stop on an exception. Each repair pairs a check on one
 * stored field with the default written when the check fails; the checks are stated
 * positively here as the `...Valid` predicates.
 */
module Repair {
  import opened Wrappers
  import opened JsValues
  import opened CartRecord

  const Platforms: seq<string> := ["blinkit", "zepto", "swiggy", "bigbasket"]
  const Statuses: seq<string> := ["active", "full", "ordering", "ordered", "delivered", "completed", "cancelled"]

  const DefaultPlatform: string := "blinkit"
  const DefaultCoordinates: seq<real> := [77.1025, 28.7041]
  const NotSpecified: string := "Not specified"
  const DefaultPincode: string := "000000"
  const UnknownItem: string := "Unknown Item"
  const DefaultCharge: real := 50.0
  const DefaultMaxMembers: real := 4.0
  const DefaultStatus: string := "active"
  const DefaultMaxDistance: real := 2.0
  const DefaultTotalOrders: real := 0.0

  /** Seven days: an unfinished cart created longer ago than this is abandoned. */
  const RetentionMillis: int := 7 * 24 * 60 * 60 * 1000
  /** Two hours: how far ahead a lapsed expiry is pushed. */
  const ExpiryExtensionMillis: int := 2 * 60 * 60 * 1000

  const DefaultLocation := Location(Some(DefaultCoordinates), Str(NotSpecified), Str(NotSpecified), Str(DefaultPincode))

  /** What can be thrown while one cart is examined: a string method called on a non-string. */
  datatype RepairError = PlatformNotString | AddressNotString | CityNotString | PincodeNotString

  datatype Decision = Delete | Update(updates: Updates) | Skip | Fail(error: RepairError)

  // ---------------------------------------------------------------------------
  // The checks

  predicate CreatorKnown(c: Cart, users: map<UserId, User>) {
    c.creator.Some? && c.creator.value in users
  }

  /**
   * `createdAt < t` in JavaScript: a `null` creation time compares as the epoch, an absent
   * one as NaN, which is never less than anything.
   */
  predicate CreatedBefore(createdAt: Stamp, t: Millis) {
    match createdAt
    case Undefined => false
    case Null => 0 < t
    case At(ms) => ms < t
  }

  /** Created more than seven days ago and neither completed nor delivered. */
  predicate Abandoned(c: Cart, now: Millis) {
    && CreatedBefore(c.createdAt, now - RetentionMillis)
    && c.status != Str("completed") && c.status != Str("delivered")
  }

  /** A truthy value on which a string method throws. */
  predicate NotAString(v: Value) {
    Truthy(v) && !v.Str?
  }

  predicate PlatformValid(v: Value) {
    v.Str? && LowerCase(v.s) in Platforms
  }

  predicate PointShaped(loc: Option<Location>) {
    loc.Some? && loc.value.coordinates.Some? && |loc.value.coordinates.value| == 2
  }

  /** A string with at least one character that is not whitespace. */
  predicate Filled(v: Value) {
    v.Str? && Trim(v.s) != ""
  }

  predicate LocationValid(loc: Option<Location>) {
    PointShaped(loc) && Filled(loc.value.address) && Filled(loc.value.city) && Filled(loc.value.pincode)
  }

  /** Every field is truthy, or is already the (falsy) value the coercion would put there. */
  predicate ItemValid(item: Item) {
    && Truthy(item.name)
    && Truthy(item.quantity)
    && (Truthy(item.price) || item.price == Num(0.0))
    && (Truthy(item.image) || item.image == Str(""))
    && (Truthy(item.category) || item.category == Str(""))
  }

  predicate ItemsValid(items: Option<seq<Item>>) {
    items.Some? && forall i :: 0 <= i < |items.value| ==> ItemValid(items.value[i])
  }

  predicate ChargeValid(v: Value) {
    v.Num? && v.n >= 0.0
  }

  predicate MaxMembersValid(v: Value) {
    v.Num? && 2.0 <= v.n <= 10.0
  }

  predicate StatusValid(v: Value) {
    v.Str? && v.s in Statuses
  }

  predicate MaxDistanceValid(v: Value) {
    v.Num? && 0.5 <= v.n <= 5.0
  }

  predicate Unexpired(expiresAt: Option<Millis>, now: Millis) {
    expiresAt.Some? && expiresAt.value >= now
  }

  predicate HasMember(ms: seq<Member>, u: UserId) {
    exists i :: 0 <= i < |ms| && ms[i].user == Some(u)
  }

  /** `Math.ceil(x)`. */
  function Ceil(x: real): (r: int)
    ensures x <= r as real < x + 1.0
  {
    var f := x.Floor;
    if f as real == x then f else f + 1
  }

  /** Every member owes the same share, the ceiling of `charge` over the member count. */
  predicate SplitEvenly(ms: seq<Member>, charge: real) {
    |ms| > 0 && forall i :: 0 <= i < |ms| ==> ms[i].splitAmount == Num(Ceil(charge / |ms| as real) as real)
  }

  /** The default address, city and pincode pass the blank check. */
  lemma DefaultsFilled()
    ensures Filled(Str(NotSpecified)) && Filled(Str(DefaultPincode))
  {
    TrimOfFilled(NotSpecified);
    TrimOfFilled(DefaultPincode);
  }

  /** The default platform passes the platform check. */
  lemma DefaultPlatformValid()
    ensures PlatformValid(Str(DefaultPlatform))
  {
    var s := DefaultPlatform;
    assert forall i :: 0 <= i < |s| ==> 'a' <= s[i] <= 'z';
    assert LowerCase(s) == s;
  }

  // ---------------------------------------------------------------------------
  // The repairs, in the order the script applies them

  /** Lines 69-74. A truthy non-string platform makes `toLowerCase` throw. */
  function PlatformFix(v: Value): (r: Result<Option<string>, RepairError>)
    ensures r.Failure? <==> NotAString(v)
    ensures r.Success? && PlatformValid(v) ==> r.value.None?
    ensures r.Success? && !PlatformValid(v) ==> r.value == Some(DefaultPlatform) && PlatformValid(Str(DefaultPlatform))
  {
    DefaultPlatformValid();
    if !Truthy(v) then Success(Some(DefaultPlatform))
    else if !v.Str? then Failure(PlatformNotString)
    else if LowerCase(v.s) in Platforms then Success(None)
    else Success(Some(DefaultPlatform))
  }

  /**
   * The platform check ignores case: a stored platform is accepted exactly when its
   * lower-cased form is, and an accepted one is left as stored.
   */
  lemma PlatformIgnoresCase(s: string)
    ensures PlatformFix(Str(s)) == PlatformFix(Str(LowerCase(s)))
    ensures PlatformValid(Str(s)) ==> PlatformFix(Str(s)) == Success(None)
  {
    LowerCaseIdempotent(s);
  }

  /** The location taken from the creator's profile, or the fixed default (lines 80-102). */
  function LocationFromCreator(profile: User): (r: Location)
    ensures profile.location.Some? && profile.location.value.coordinates.Some? ==>
      var l := profile.location.value;
      && r.coordinates == l.coordinates
      && r.address == (if Truthy(l.address) then l.address else Str(NotSpecified))
      && r.city == (if Truthy(l.city) then l.city else Str(NotSpecified))
      && r.pincode == (if Truthy(l.pincode) then l.pincode else Str(DefaultPincode))
      && Truthy(r.address) && Truthy(r.city) && Truthy(r.pincode)
    ensures !(profile.location.Some? && profile.location.value.coordinates.Some?) ==>
      && r == DefaultLocation
      && LocationValid(Some(r))
  {
    if profile.location.Some? && profile.location.value.coordinates.Some? then
      var l := profile.location.value;
      Location(l.coordinates, Or(l.address, Str(NotSpecified)), Or(l.city, Str(NotSpecified)), Or(l.pincode, Str(DefaultPincode)))
    else
      DefaultsFilled();
      DefaultLocation
  }

  /** One of lines 106-117: a falsy or blank sub-field gets `default`; `trim` throws on a truthy non-string. */
  function SubFieldFix(v: Value, default: string, thrown: RepairError): (r: Result<Option<string>, RepairError>)
    ensures r.Failure? <==> NotAString(v)
    ensures r.Failure? ==> r.error == thrown
    ensures r.Success? ==> (r.value.None? <==> Filled(v)) && (r.value.Some? ==> r.value.value == default)
  {
    if !Truthy(v) then Success(Some(default))
    else if !v.Str? then Failure(thrown)
    else if Trim(v.s) == "" then Success(Some(default))
    else Success(None)
  }

  /** The location keys of the update object: a whole new location, or some of the dotted sub-field keys. */
  datatype LocationFix = LocationFix(location: Option<Location>, address: Option<string>, city: Option<string>, pincode: Option<string>)

  /** Lines 76-118. */
  function LocationFixFor(loc: Option<Location>, profile: User): (r: Result<LocationFix, RepairError>)
    ensures !PointShaped(loc) ==> r == Success(LocationFix(Some(LocationFromCreator(profile)), None, None, None))
    ensures r.Failure? <==>
      PointShaped(loc) && (NotAString(loc.value.address) || NotAString(loc.value.city) || NotAString(loc.value.pincode))
    ensures r.Failure? ==>
      r.error == (if NotAString(loc.value.address) then AddressNotString
                  else if NotAString(loc.value.city) then CityNotString
                  else PincodeNotString)
    ensures PointShaped(loc) && r.Success? ==>
      && r.value.location.None?
      && (r.value.address.None? <==> Filled(loc.value.address))
      && (r.value.city.None? <==> Filled(loc.value.city))
      && (r.value.pincode.None? <==> Filled(loc.value.pincode))
      && r.value.address in {None, Some(NotSpecified)}
      && r.value.city in {None, Some(NotSpecified)}
      && r.value.pincode in {None, Some(DefaultPincode)}
  {
    if !PointShaped(loc) then
      Success(LocationFix(Some(LocationFromCreator(profile)), None, None, None))
    else
      var address :- SubFieldFix(loc.value.address, NotSpecified, AddressNotString);
      var city :- SubFieldFix(loc.value.city, NotSpecified, CityNotString);
      var pincode :- SubFieldFix(loc.value.pincode, DefaultPincode, PincodeNotString);
      Success(LocationFix(None, address, city, pincode))
  }

  /** Lines 127-133: every falsy field of an item gets its default. */
  function FixItem(item: Item): (r: Item)
    ensures ItemValid(r)
    ensures r == item <==> ItemValid(item)
    ensures r.name == (if Truthy(item.name) then item.name else Str(UnknownItem))
    ensures r.quantity == (if Truthy(item.quantity) then item.quantity else Num(1.0))
    ensures r.price == (if Truthy(item.price) then item.price else Num(0.0))
    ensures r.image == (if Truthy(item.image) then item.image else Str(""))
    ensures r.category == (if Truthy(item.category) then item.category else Str(""))
  {
    Item(
      Or(item.name, Str(UnknownItem)),
      Or(item.quantity, Num(1.0)),
      Or(item.price, Num(0.0)),
      Or(item.image, Str("")),
      Or(item.category, Str("")))
  }

  /** `items.map(...)` at line 127: the same items, in the same order, each coerced. */
  function FixItems(items: seq<Item>): (r: seq<Item>)
    ensures |r| == |items|
    ensures forall i :: 0 <= i < |items| ==> r[i] == FixItem(items[i])
  {
    if items == [] then [] else [FixItem(items[0])] + FixItems(items[1..])
  }

  /** Lines 120-140: a non-array `items` becomes `[]`; an array is written back only when coercion changed it. */
  function ItemsFix(items: Option<seq<Item>>): (r: Option<seq<Item>>)
    ensures items.None? ==> r == Some([])
    ensures r.None? <==> ItemsValid(items)
    ensures r.Some? ==> ItemsValid(r)
    ensures r.Some? && items.Some? ==>
      |r.value| == |items.value| && forall i :: 0 <= i < |items.value| ==> r.value[i] == FixItem(items.value[i])
  {
    if items.None? then Some([])
    else
      var fixed := FixItems(items.value);
      if fixed != items.value then Some(fixed) else None
  }

  /** Lines 142-147. */
  function ChargeFix(v: Value): (r: Option<real>)
    ensures ChargeValid(v) ==> r.None?
    ensures !ChargeValid(v) ==> r == Some(DefaultCharge) && ChargeValid(Num(DefaultCharge))
  {
    if !v.Num? || v.n < 0.0 then Some(DefaultCharge) else None
  }

  /** Lines 149-154. */
  function MaxMembersFix(v: Value): (r: Option<real>)
    ensures MaxMembersValid(v) ==> r.None?
    ensures !MaxMembersValid(v) ==> r == Some(DefaultMaxMembers) && MaxMembersValid(Num(DefaultMaxMembers))
  {
    if !v.Num? || v.n < 2.0 || v.n > 10.0 then Some(DefaultMaxMembers) else None
  }

  /**
   * `updates.deliveryCharge || cart.deliveryCharge || 50` (line 183): the repaired charge,
   * else the stored one, else 50; a stored charge of 0 is falsy, so it splits 50.
   */
  function SplitCharge(charge: Value): (r: real)
    ensures r > 0.0
    ensures ChargeValid(charge) && charge.n != 0.0 ==> r == charge.n
    ensures !(ChargeValid(charge) && charge.n != 0.0) ==> r == DefaultCharge
  {
    var v := Or(NumOr(ChargeFix(charge), Absent), Or(charge, Num(DefaultCharge)));
    assert v.Num?;
    v.n
  }

  /** The entry added for the creator (lines 158-163 and 170-175). */
  function CreatorMember(c: Cart, creator: UserId, now: Millis): (m: Member)
    ensures m.user == Some(creator) && m.status == Str("joined")
    ensures m.splitAmount == (if Truthy(c.deliveryCharge) then c.deliveryCharge else Num(DefaultCharge))
    ensures m.joinedAt == Some(if c.createdAt.At? then c.createdAt.ms else now)
  {
    Member(
      Some(creator),
      if c.createdAt.At? then Some(c.createdAt.ms) else Some(now),
      Str("joined"),
      Or(c.deliveryCharge, Num(DefaultCharge)))
  }

  /** The members with `splitAmount` overwritten (lines 184-187). */
  function WithSplit(ms: seq<Member>, amount: real): (r: seq<Member>)
    ensures |r| == |ms|
    ensures forall i :: 0 <= i < |ms| ==> r[i] == ms[i].(splitAmount := Num(amount))
  {
    if ms == [] then [] else [ms[0].(splitAmount := Num(amount))] + WithSplit(ms[1..], amount)
  }

  lemma WithSplitUnchanged(ms: seq<Member>, amount: real)
    ensures WithSplit(ms, amount) == ms <==> forall i :: 0 <= i < |ms| ==> ms[i].splitAmount == Num(amount)
  {
    var w := WithSplit(ms, amount);
    if forall i :: 0 <= i < |ms| ==> ms[i].splitAmount == Num(amount) {
      assert forall i :: 0 <= i < |ms| ==> w[i] == ms[i];
    }
  }

  /**
   * Lines 156-194. A non-array `members` becomes the creator alone, owing the stored charge
   * (or 50 when that is falsy) with no recomputation. An array gets the creator appended when
   * missing, and then every member the same share of the charge.
   */
  function MembersFix(c: Cart, creator: UserId, now: Millis): (r: Option<seq<Member>>)
    ensures c.members.None? ==> r == Some([CreatorMember(c, creator, now)])
    ensures c.members.Some? ==>
      var ms := c.members.value;
      var after := if r.Some? then r.value else ms;
      && HasMember(after, creator)
      && SplitEvenly(after, SplitCharge(c.deliveryCharge))
      && |after| == (if HasMember(ms, creator) then |ms| else |ms| + 1)
      && (forall i :: 0 <= i < |ms| ==> after[i] == ms[i].(splitAmount := after[i].splitAmount))
      && (!HasMember(ms, creator) ==> after[|ms|] == CreatorMember(c, creator, now).(splitAmount := after[|ms|].splitAmount))
      && (r.None? <==> HasMember(ms, creator) && SplitEvenly(ms, SplitCharge(c.deliveryCharge)))
  {
    if c.members.None? then
      Some([CreatorMember(c, creator, now)])
    else
      var ms := c.members.value;
      var added := if HasMember(ms, creator) then None else Some(ms + [CreatorMember(c, creator, now)]);
      var current := added.GetOr(ms);
      assert HasMember(current, creator) by {
        if added.Some? { assert current[|ms|].user == Some(creator); }
      }
      var share := Ceil(SplitCharge(c.deliveryCharge) / |current| as real) as real;
      var withSplit := WithSplit(current, share);
      WithSplitUnchanged(current, share);
      assert HasMember(withSplit, creator) by {
        var k :| 0 <= k < |current| && current[k].user == Some(creator);
        assert withSplit[k].user == Some(creator);
      }
      if withSplit != current then Some(withSplit) else added
  }

  /** Lines 196-201. */
  function StatusFix(v: Value): (r: Option<string>)
    ensures StatusValid(v) ==> r.None?
    ensures !StatusValid(v) ==> r == Some(DefaultStatus) && StatusValid(Str(DefaultStatus))
  {
    if !Truthy(v) || !(v.Str? && v.s in Statuses) then Some(DefaultStatus) else None
  }

  /** Lines 203-208 and 217-222 (`isPublic`, `chatEnabled`). */
  function BoolFix(v: Value): (r: Option<bool>)
    ensures v.Bool? ==> r.None?
    ensures !v.Bool? ==> r == Some(true)
  {
    if !v.Bool? then Some(true) else None
  }

  /** Lines 210-215. */
  function MaxDistanceFix(v: Value): (r: Option<real>)
    ensures MaxDistanceValid(v) ==> r.None?
    ensures !MaxDistanceValid(v) ==> r == Some(DefaultMaxDistance) && MaxDistanceValid(Num(DefaultMaxDistance))
  {
    if !v.Num? || v.n < 0.5 || v.n > 5.0 then Some(DefaultMaxDistance) else None
  }

  /** Lines 224-229: only the type is checked; a negative count is kept. */
  function TotalOrdersFix(v: Value): (r: Option<real>)
    ensures v.Num? ==> r.None?
    ensures !v.Num? ==> r == Some(DefaultTotalOrders)
  {
    if !v.Num? then Some(DefaultTotalOrders) else None
  }

  /** Lines 231-236: a missing or lapsed expiry is pushed two hours past now. */
  function ExpiryFix(expiresAt: Option<Millis>, now: Millis): (r: Option<Millis>)
    ensures Unexpired(expiresAt, now) ==> r.None?
    ensures !Unexpired(expiresAt, now) ==> r == Some(now + ExpiryExtensionMillis) && Unexpired(r, now)
  {
    if expiresAt.None? || expiresAt.value < now then Some(now + ExpiryExtensionMillis) else None
  }

  /** A string method throws on this cart (platform first, then the location sub-fields). */
  predicate Throws(c: Cart) {
    || NotAString(c.platform)
    || (PointShaped(c.location)
        && (NotAString(c.location.value.address) || NotAString(c.location.value.city) || NotAString(c.location.value.pincode)))
  }

  /** Lines 69-236: the update object of a cart that is kept. */
  function FieldUpdates(c: Cart, creator: UserId, profile: User, now: Millis): (r: Result<Updates, RepairError>)
    ensures r.Failure? <==> Throws(c)
    ensures r.Failure? && NotAString(c.platform) ==> r.error == PlatformNotString
  {
    var platform :- PlatformFix(c.platform);
    var loc :- LocationFixFor(c.location, profile);
    Success(Updates(
      platform,
      loc.location, loc.address, loc.city, loc.pincode,
      ItemsFix(c.items),
      ChargeFix(c.deliveryCharge),
      MaxMembersFix(c.maxMembers),
      MembersFix(c, creator, now),
      StatusFix(c.status),
      BoolFix(c.isPublic),
      MaxDistanceFix(c.maxDistance),
      BoolFix(c.chatEnabled),
      TotalOrdersFix(c.totalOrders),
      ExpiryFix(c.expiresAt, now)))
  }

  /**
   * Lines 37-249 for one cart, given the user directory that `User.findById` reads and the
   * clock reading `now`.
   */
  function RepairCart(c: Cart, users: map<UserId, User>, now: Millis): (d: Decision)
    ensures d.Delete? <==>
      || c.creator.None? || c.creator.value !in users
      || (CreatedBefore(c.createdAt, now - 604_800_000) && c.status !in {Str("completed"), Str("delivered")})
    ensures d.Fail? <==> !d.Delete? && Throws(c)
    ensures d.Update? ==> d.updates != NoUpdates
    ensures d.Skip? ==> FieldUpdates(c, c.creator.value, users[c.creator.value], now) == Success(NoUpdates)
  {
    if !CreatorKnown(c, users) || Abandoned(c, now) then Delete
    else
      match FieldUpdates(c, c.creator.value, users[c.creator.value], now)
      case Failure(e) => Fail(e)
      case Success(u) => if u == NoUpdates then Skip else Update(u)
  }
}
