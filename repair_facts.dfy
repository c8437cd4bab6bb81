/**
 * What the per-cart decision guarantees: a cart is skipped exactly when it already passes
 * every check, a written update makes the checks pass, the members' shares cover the
 * charge, the expiry repair touches nothing else, and a second pass at the same instant
 * skips a repaired cart, except in the two situations of `UnsettledSeedNeedsSecondPass` and
 * `UnsoundProfileNeedsSecondPass`, where it writes again or records an error.
 */
module RepairFacts {
  import opened Wrappers
  import opened JsValues
  import opened CartRecord
  import opened Repair

  /** A cart the script keeps as it is: every check of lines 42-236 passes. */
  predicate CartValid(c: Cart, users: map<UserId, User>, now: Millis) {
    && CreatorKnown(c, users)
    && !Abandoned(c, now)
    && PlatformValid(c.platform)
    && LocationValid(c.location)
    && ItemsValid(c.items)
    && ChargeValid(c.deliveryCharge)
    && MaxMembersValid(c.maxMembers)
    && c.members.Some? && HasMember(c.members.value, c.creator.value)
    && SplitEvenly(c.members.value, SplitCharge(c.deliveryCharge))
    && StatusValid(c.status)
    && c.isPublic.Bool?
    && MaxDistanceValid(c.maxDistance)
    && c.chatEnabled.Bool?
    && c.totalOrders.Num?
    && Unexpired(c.expiresAt, now)
  }

  /** The cart is counted as skipped exactly when it passes every check. */
  lemma SkipIffValid(c: Cart, users: map<UserId, User>, now: Millis)
    ensures RepairCart(c, users, now) == Skip <==> CartValid(c, users, now)
  {
    if CreatorKnown(c, users) && !Abandoned(c, now) {
      var creator := c.creator.value;
      var r := FieldUpdates(c, creator, users[creator], now);
      if r.Success? {
        var loc := LocationFixFor(c.location, users[creator]);
        assert loc.Success?;
        var u := r.value;
        assert u.platform == PlatformFix(c.platform).value;
        assert u.location == loc.value.location && u.address == loc.value.address;
        assert u.city == loc.value.city && u.pincode == loc.value.pincode;
        assert u.members == MembersFix(c, creator, now);
        if u == NoUpdates {
          assert PointShaped(c.location);
        }
      }
    }
  }

  /** A creator profile whose location, when the cart would copy it, passes the location check. */
  predicate ProfileSound(profile: User) {
    profile.location.Some? && profile.location.value.coordinates.Some? ==>
      var l := profile.location.value;
      && |l.coordinates.value| == 2
      && (Truthy(l.address) ==> Filled(l.address))
      && (Truthy(l.city) ==> Filled(l.city))
      && (Truthy(l.pincode) ==> Filled(l.pincode))
  }

  /** The charge split among members is the same before and after the charge itself is repaired. */
  lemma SplitChargeSurvivesRepair(v: Value)
    ensures SplitCharge(NumOr(ChargeFix(v), v)) == SplitCharge(v)
  {
  }

  /** The update object of a cart that is fixed, key by key. */
  lemma UpdateShape(c: Cart, users: map<UserId, User>, now: Millis)
    requires RepairCart(c, users, now).Update?
    ensures var creator := c.creator.value;
      var loc := LocationFixFor(c.location, users[creator]);
      && PlatformFix(c.platform).Success? && loc.Success?
      && RepairCart(c, users, now).updates == Updates(
           PlatformFix(c.platform).value,
           loc.value.location, loc.value.address, loc.value.city, loc.value.pincode,
           ItemsFix(c.items), ChargeFix(c.deliveryCharge), MaxMembersFix(c.maxMembers),
           MembersFix(c, creator, now), StatusFix(c.status), BoolFix(c.isPublic),
           MaxDistanceFix(c.maxDistance), BoolFix(c.chatEnabled), TotalOrdersFix(c.totalOrders),
           ExpiryFix(c.expiresAt, now))
  {
  }

  /** A written platform, or the kept one, passes the platform check. */
  lemma PlatformRepairs(v: Value)
    requires PlatformFix(v).Success?
    ensures PlatformValid(StrOr(PlatformFix(v).value, v))
  {
    DefaultPlatformValid();
  }

  /**
   * After a written update every scalar field passes its check, and the cart is neither
   * ownerless nor abandoned.
   */
  lemma UpdateRepairsScalars(c: Cart, users: map<UserId, User>, now: Millis)
    requires RepairCart(c, users, now).Update?
    ensures var r := Apply(c, RepairCart(c, users, now).updates);
      && CreatorKnown(r, users)
      && !Abandoned(r, now)
      && PlatformValid(r.platform)
      && ChargeValid(r.deliveryCharge)
      && MaxMembersValid(r.maxMembers)
      && StatusValid(r.status)
      && r.isPublic.Bool?
      && MaxDistanceValid(r.maxDistance)
      && r.chatEnabled.Bool?
      && r.totalOrders.Num?
      && Unexpired(r.expiresAt, now)
  {
    UpdateShape(c, users, now);
    var u := RepairCart(c, users, now).updates;
    var r := Apply(c, u);
    assert r.platform == StrOr(PlatformFix(c.platform).value, c.platform);
    PlatformRepairs(c.platform);
    assert r.status == StrOr(StatusFix(c.status), c.status);
    assert r.expiresAt == (if u.expiresAt.Some? then u.expiresAt else c.expiresAt);
  }

  /**
   * After a written update the items are well formed, the creator is a member and, when
   * `members` was an array, every member owes the same share of the charge.
   */
  lemma UpdateRepairsItemsAndMembers(c: Cart, users: map<UserId, User>, now: Millis)
    requires RepairCart(c, users, now).Update?
    ensures var r := Apply(c, RepairCart(c, users, now).updates);
      && ItemsValid(r.items)
      && r.members.Some? && HasMember(r.members.value, c.creator.value)
      && (c.members.Some? ==> SplitEvenly(r.members.value, SplitCharge(r.deliveryCharge)))
  {
    UpdateShape(c, users, now);
    SplitChargeSurvivesRepair(c.deliveryCharge);
    var r := Apply(c, RepairCart(c, users, now).updates);
    if c.members.None? {
      assert r.members.value[0].user == Some(c.creator.value);
    }
  }

  /** The location keys of a fix, alone in an update object. */
  function LocationKeys(f: LocationFix): Updates {
    NoUpdates.(location := f.location, address := f.address, city := f.city, pincode := f.pincode)
  }

  /** A written sub-field default, or the kept value, passes the blank check. */
  lemma SubFieldRepairs(v: Value, default: string, thrown: RepairError)
    requires SubFieldFix(v, default, thrown).Success?
    requires Filled(Str(default))
    ensures Filled(StrOr(SubFieldFix(v, default, thrown).value, v))
  {
  }

  /** Writing the sub-field keys of a point-shaped location leaves every sub-field filled. */
  lemma SubFieldKeysRepair(loc: Option<Location>, profile: User)
    requires PointShaped(loc) && LocationFixFor(loc, profile).Success?
    ensures LocationValid(ApplyLocation(loc, LocationKeys(LocationFixFor(loc, profile).value)))
  {
    var f := LocationFixFor(loc, profile).value;
    var l := loc.value;
    var a := SubFieldFix(l.address, NotSpecified, AddressNotString);
    var ci := SubFieldFix(l.city, NotSpecified, CityNotString);
    var pc := SubFieldFix(l.pincode, DefaultPincode, PincodeNotString);
    assert f == LocationFix(None, a.value, ci.value, pc.value);
    DefaultsFilled();
    SubFieldRepairs(l.address, NotSpecified, AddressNotString);
    SubFieldRepairs(l.city, NotSpecified, CityNotString);
    SubFieldRepairs(l.pincode, DefaultPincode, PincodeNotString);
    var fixed := Location(l.coordinates, StrOr(a.value, l.address), StrOr(ci.value, l.city), StrOr(pc.value, l.pincode));
    assert LocationValid(Some(fixed));
    if f.address.None? && f.city.None? && f.pincode.None? {
      assert fixed == l;
    }
  }

  /** A location copied from a sound creator profile, or the default one, passes the location check. */
  lemma ProfileLocationRepairs(loc: Option<Location>, profile: User)
    requires !PointShaped(loc) && ProfileSound(profile)
    ensures LocationValid(ApplyLocation(loc, LocationKeys(LocationFixFor(loc, profile).value)))
  {
    var l := LocationFromCreator(profile);
    assert ApplyLocation(loc, LocationKeys(LocationFixFor(loc, profile).value)) == Some(l);
    if profile.location.Some? && profile.location.value.coordinates.Some? {
      DefaultsFilled();
      assert Filled(l.address) && Filled(l.city) && Filled(l.pincode);
    }
  }

  /**
   * After a written update the location passes its check, unless it was copied from a
   * creator profile that does not pass it.
   */
  lemma UpdateRepairsLocation(c: Cart, users: map<UserId, User>, now: Millis)
    requires RepairCart(c, users, now).Update?
    requires PointShaped(c.location) || ProfileSound(users[c.creator.value])
    ensures LocationValid(Apply(c, RepairCart(c, users, now).updates).location)
  {
    UpdateShape(c, users, now);
    var p := users[c.creator.value];
    var u := RepairCart(c, users, now).updates;
    var f := LocationFixFor(c.location, p).value;
    assert ApplyLocation(c.location, u) == ApplyLocation(c.location, LocationKeys(f));
    if PointShaped(c.location) {
      SubFieldKeysRepair(c.location, p);
    } else {
      ProfileLocationRepairs(c.location, p);
    }
  }

  /** The sum of the members' numeric shares (a non-numeric share adds nothing). */
  function TotalShares(ms: seq<Member>): real {
    if ms == [] then 0.0
    else (if ms[0].splitAmount.Num? then ms[0].splitAmount.n else 0.0) + TotalShares(ms[1..])
  }

  lemma {:induction false} TotalSharesUniform(ms: seq<Member>, share: real)
    requires forall i :: 0 <= i < |ms| ==> ms[i].splitAmount == Num(share)
    ensures TotalShares(ms) == |ms| as real * share
  {
    if ms != [] {
      TotalSharesUniform(ms[1..], share);
    }
  }

  /** `n` equal shares of `ceil(charge / n)` collect at least `charge` and less than `charge + n`. */
  lemma CeilShareBounds(charge: real, n: nat)
    requires n > 0
    ensures var s := Ceil(charge / n as real) as real;
      charge <= n as real * s < charge + n as real
  {
    var q := charge / n as real;
    var s := Ceil(q) as real;
    assert q * n as real == charge;
    assert q <= s < q + 1.0;
    assert n as real * q <= n as real * s by {
      assert n as real * (s - q) >= 0.0;
    }
    assert n as real * s < n as real * (q + 1.0) by {
      assert n as real * (q + 1.0 - s) > 0.0;
    }
  }

  /** Evenly split shares cover the split charge, overshooting it by less than one unit per member. */
  lemma {:induction false} SharesCoverCharge(ms: seq<Member>, charge: real)
    requires SplitEvenly(ms, charge)
    ensures charge <= TotalShares(ms) < charge + |ms| as real
  {
    var share := Ceil(charge / |ms| as real) as real;
    TotalSharesUniform(ms, share);
    CeilShareBounds(charge, |ms|);
  }

  /**
   * After a repair of a cart whose `members` is an array, the members' shares add up to at
   * least the charge that was split, and to less than that charge plus the member count.
   */
  lemma RepairedSharesCoverCharge(c: Cart, users: map<UserId, User>, now: Millis)
    requires RepairCart(c, users, now).Update? && c.members.Some?
    ensures var ms := Apply(c, RepairCart(c, users, now).updates).members.value;
      SplitCharge(c.deliveryCharge) <= TotalShares(ms) < SplitCharge(c.deliveryCharge) + |ms| as real
  {
    var u := RepairCart(c, users, now).updates;
    UpdateRepairsItemsAndMembers(c, users, now);
    UpdateShape(c, users, now);
    SplitChargeSurvivesRepair(c.deliveryCharge);
    SharesCoverCharge(Apply(c, u).members.value, SplitCharge(c.deliveryCharge));
  }

  /**
   * Resetting the expiry never deletes a cart and never changes its status or any other
   * field: two carts that differ only in `expiresAt` get the same decision on deletion and
   * errors, and update objects that differ at most in `expiresAt`.
   */
  lemma ExpiryOnlyMovesExpiresAt(c: Cart, e: Option<Millis>, users: map<UserId, User>, now: Millis)
    requires CreatorKnown(c, users)
    ensures var c' := c.(expiresAt := e);
      && (RepairCart(c', users, now).Delete? <==> RepairCart(c, users, now).Delete?)
      && (RepairCart(c', users, now).Fail? <==> RepairCart(c, users, now).Fail?)
      && var a := FieldUpdates(c, c.creator.value, users[c.creator.value], now);
         var b := FieldUpdates(c', c.creator.value, users[c.creator.value], now);
         a.Success? ==> b.Success? && b.value == a.value.(expiresAt := b.value.expiresAt)
  {
    var c' := c.(expiresAt := e);
    var creator := c.creator.value;
    assert CreatorMember(c', creator, now) == CreatorMember(c, creator, now);
    assert MembersFix(c', creator, now) == MembersFix(c, creator, now);
    assert Throws(c') == Throws(c);
    var a := FieldUpdates(c, creator, users[creator], now);
    var b := FieldUpdates(c', creator, users[creator], now);
    if a.Success? {
      assert b.value == a.value.(expiresAt := ExpiryFix(e, now));
    }
  }

  /** A falsy stored charge or a positive whole one: the share the creator is seeded with is already settled. */
  predicate SeedShareSettled(charge: Value) {
    !Truthy(charge) || (charge.Num? && charge.n > 0.0 && charge.n.Floor as real == charge.n)
  }

  /**
   * Running the pass again, at the same instant, over a cart it has just repaired writes
   * nothing more, provided the seeded share of a non-array `members` is settled and any
   * creator profile location copied in passes the location check.
   */
  lemma SecondPassSkips(c: Cart, users: map<UserId, User>, now: Millis)
    requires RepairCart(c, users, now).Update?
    requires c.members.Some? || SeedShareSettled(c.deliveryCharge)
    requires PointShaped(c.location) || ProfileSound(users[c.creator.value])
    ensures RepairCart(Apply(c, RepairCart(c, users, now).updates), users, now) == Skip
  {
    var u := RepairCart(c, users, now).updates;
    var r := Apply(c, u);
    UpdateRepairsScalars(c, users, now);
    UpdateRepairsItemsAndMembers(c, users, now);
    UpdateRepairsLocation(c, users, now);
    if c.members.None? {
      SeededShareSettles(c, users, now);
    }
    assert CartValid(r, users, now);
    SkipIffValid(r, users, now);
  }

  /** The creator seeded into a non-array `members` owes exactly the split charge when the seed is settled. */
  lemma SeededShareSettles(c: Cart, users: map<UserId, User>, now: Millis)
    requires RepairCart(c, users, now).Update? && c.members.None?
    requires SeedShareSettled(c.deliveryCharge)
    ensures var r := Apply(c, RepairCart(c, users, now).updates);
      r.members.Some? && SplitEvenly(r.members.value, SplitCharge(r.deliveryCharge))
  {
    var u := RepairCart(c, users, now).updates;
    UpdateShape(c, users, now);
    assert u.members == MembersFix(c, c.creator.value, now);
    assert u.deliveryCharge == ChargeFix(c.deliveryCharge);
    SplitChargeSurvivesRepair(c.deliveryCharge);
    SeedShare(c, c.creator.value, now);
  }

  lemma SeedShare(c: Cart, creator: UserId, now: Millis)
    requires SeedShareSettled(c.deliveryCharge)
    ensures SplitEvenly([CreatorMember(c, creator, now)], SplitCharge(c.deliveryCharge))
  {
    var m := CreatorMember(c, creator, now);
    assert m.splitAmount == Num(Ceil(SplitCharge(c.deliveryCharge) / 1.0) as real);
  }

  /**
   * A cart kept by the pass whose `members` is not an array and whose charge is negative:
   * the pass resets the charge to 50 but seeds the creator with a share equal to the stored,
   * negative charge, so the next pass rewrites the members again.
   */
  lemma NegativeChargeNeedsSecondPass(c: Cart, users: map<UserId, User>, now: Millis)
    requires CreatorKnown(c, users) && !Abandoned(c, now) && !Throws(c)
    requires c.members.None? && c.deliveryCharge.Num? && c.deliveryCharge.n < 0.0
    ensures var d := RepairCart(c, users, now);
      && d.Update?
      && d.updates.deliveryCharge == Some(DefaultCharge)
      && d.updates.members == Some([CreatorMember(c, c.creator.value, now)])
      && d.updates.members.value[0].splitAmount == c.deliveryCharge
      && RepairCart(Apply(c, d.updates), users, now) != Skip
  {
    var f := FieldUpdates(c, c.creator.value, users[c.creator.value], now);
    assert f.value.deliveryCharge == Some(DefaultCharge);
    var d := RepairCart(c, users, now);
    UpdateShape(c, users, now);
    var r := Apply(c, d.updates);
    var ms := [CreatorMember(c, c.creator.value, now)];
    assert r.members == Some(ms);
    assert SplitCharge(r.deliveryCharge) == DefaultCharge;
    assert !SplitEvenly(ms, DefaultCharge) by {
      assert Ceil(DefaultCharge / 1.0) == 50;
      assert ms[0].splitAmount != Num(50.0);
    }
    SkipIffValid(r, users, now);
  }

  /**
   * A cart kept by the pass that has no usable location, whose creator's profile holds a
   * coordinate array of the wrong length: the pass copies that array in, and the next pass
   * finds the location malformed again.
   */
  lemma MalformedProfileCoordinatesNeedSecondPass(c: Cart, users: map<UserId, User>, now: Millis)
    requires CreatorKnown(c, users) && !Abandoned(c, now) && !Throws(c)
    requires !PointShaped(c.location)
    requires var p := users[c.creator.value];
      p.location.Some? && p.location.value.coordinates.Some? && |p.location.value.coordinates.value| != 2
    ensures var d := RepairCart(c, users, now);
      && d.Update?
      && d.updates.location.Some?
      && d.updates.location.value.coordinates == users[c.creator.value].location.value.coordinates
      && RepairCart(Apply(c, d.updates), users, now) != Skip
  {
    var d := RepairCart(c, users, now);
    UpdateShape(c, users, now);
    var r := Apply(c, d.updates);
    assert r.location == d.updates.location;
    assert !PointShaped(r.location);
    SkipIffValid(r, users, now);
  }

  /**
   * A non-array `members` seeded with an unsettled share (a negative or fractional number,
   * or a truthy non-number) is rewritten by the next pass: the seed is not the even split.
   */
  lemma UnsettledSeedNeedsSecondPass(c: Cart, users: map<UserId, User>, now: Millis)
    requires RepairCart(c, users, now).Update? && c.members.None?
    requires !SeedShareSettled(c.deliveryCharge)
    ensures RepairCart(Apply(c, RepairCart(c, users, now).updates), users, now) != Skip
  {
    var u := RepairCart(c, users, now).updates;
    UpdateShape(c, users, now);
    var r := Apply(c, u);
    var m := CreatorMember(c, c.creator.value, now);
    assert r.members == Some([m]);
    SplitChargeSurvivesRepair(c.deliveryCharge);
    UnsettledSeedUneven(c, c.creator.value, now);
    assert !CartValid(r, users, now);
    SkipIffValid(r, users, now);
  }

  /** The creator alone, seeded with an unsettled charge, is not evenly split. */
  lemma UnsettledSeedUneven(c: Cart, creator: UserId, now: Millis)
    requires !SeedShareSettled(c.deliveryCharge)
    ensures !SplitEvenly([CreatorMember(c, creator, now)], SplitCharge(c.deliveryCharge))
  {
    var m := CreatorMember(c, creator, now);
    assert m.splitAmount == c.deliveryCharge;
    if c.deliveryCharge.Num? {
      var x := c.deliveryCharge.n;
      if x < 0.0 {
        assert SplitCharge(c.deliveryCharge) == DefaultCharge;
      } else {
        assert SplitCharge(c.deliveryCharge) == x;
        assert x / 1.0 == x;
        assert Ceil(x) as real != x;
      }
    }
    assert !SplitEvenly([m], SplitCharge(c.deliveryCharge)) by {
      assert [m][0] == m && |[m]| as real == 1.0;
      assert m.splitAmount != Num(Ceil(SplitCharge(c.deliveryCharge) / 1.0) as real);
    }
  }

  /**
   * A cart with no usable location whose creator's profile fails the location check (wrong
   * coordinate count, or a truthy address, city or pincode that is blank or not a string) has
   * that location copied in, and the next pass does not skip it.
   */
  lemma UnsoundProfileNeedsSecondPass(c: Cart, users: map<UserId, User>, now: Millis)
    requires RepairCart(c, users, now).Update? && !PointShaped(c.location)
    requires !ProfileSound(users[c.creator.value])
    ensures RepairCart(Apply(c, RepairCart(c, users, now).updates), users, now) != Skip
  {
    var p := users[c.creator.value];
    var u := RepairCart(c, users, now).updates;
    UpdateShape(c, users, now);
    var r := Apply(c, u);
    assert r.location == Some(LocationFromCreator(p));
    assert !LocationValid(r.location);
    assert !CartValid(r, users, now);
    SkipIffValid(r, users, now);
  }

  /**
   * A cart with no usable location whose creator's profile has two coordinates and a truthy
   * non-string address: the address is copied in, and on the next pass `trim` throws on it, so
   * a cart the pass fixed becomes an error.
   */
  lemma NonStringProfileAddressThrowsOnSecondPass(c: Cart, users: map<UserId, User>, now: Millis)
    requires RepairCart(c, users, now).Update? && !PointShaped(c.location)
    requires var p := users[c.creator.value];
      && p.location.Some? && p.location.value.coordinates.Some? && |p.location.value.coordinates.value| == 2
      && NotAString(p.location.value.address)
    ensures RepairCart(Apply(c, RepairCart(c, users, now).updates), users, now) == Fail(AddressNotString)
  {
    var p := users[c.creator.value];
    var u := RepairCart(c, users, now).updates;
    UpdateShape(c, users, now);
    UpdateRepairsScalars(c, users, now);
    var r := Apply(c, u);
    assert r.location == Some(LocationFromCreator(p));
    assert PointShaped(r.location) && r.location.value.address == p.location.value.address;
    assert PlatformFix(r.platform).Success?;
    assert LocationFixFor(r.location, p) == Failure(AddressNotString);
  }

  /**
   * The conditions of `SecondPassSkips` are exactly the ones under which a second pass over
   * a fixed cart writes nothing.
   */
  lemma SecondPassSkipsExactly(c: Cart, users: map<UserId, User>, now: Millis)
    requires RepairCart(c, users, now).Update?
    ensures RepairCart(Apply(c, RepairCart(c, users, now).updates), users, now) == Skip <==>
      && (c.members.Some? || SeedShareSettled(c.deliveryCharge))
      && (PointShaped(c.location) || ProfileSound(users[c.creator.value]))
  {
    if !(c.members.Some? || SeedShareSettled(c.deliveryCharge)) {
      UnsettledSeedNeedsSecondPass(c, users, now);
    } else if !(PointShaped(c.location) || ProfileSound(users[c.creator.value])) {
      UnsoundProfileNeedsSecondPass(c, users, now);
    } else {
      SecondPassSkips(c, users, now);
    }
  }
}
