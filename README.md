# Cart migration model

This project models the one-off repair script for the group-cart collection
(`server/scripts/fixCarts.js`, function `fixCarts`). The script reads every cart once and
takes one of four paths for each:

- It **deletes** a cart whose creator is missing or unknown, or that is over seven days old and
  neither completed nor delivered.
- It **fixes** a cart by writing a set of field repairs:
  - platform, location, items, delivery charge and maximum members;
  - members and their shares of the charge;
  - status, visibility, maximum distance, chat flag, order count and expiry.
- It **skips** a cart that needs none of these repairs.
- It **records an error** when a string method throws. This happens on a truthy non-string
  platform, or on a truthy non-string location sub-field when the stored coordinates are a
  pair.

At the end it reports how many carts it fixed, deleted and skipped, and lists the errors.

Modules:

- `Wrappers`: `Option` and `Result`.
- `JsValues`: the JavaScript semantics the script relies on:
  - loosely typed field values;
  - truthiness and `||`;
  - `String.prototype.trim`;
  - `String.prototype.toLowerCase`, as far as it can yield an ASCII letter.
- `CartRecord`: the stored cart, its members and items, the creator profile, and the update
  object with its `$set` effect (`Apply`).
- `Repair`: the per-cart decision as pure functions, one repair per checked field, and
  `RepairCart`.
- `RepairFacts`: what the decision guarantees:
  - a cart is skipped exactly when it passes every check;
  - a written update makes each check pass;
  - the members' shares cover the charge;
  - resetting the expiry touches nothing else;
  - a second pass at the same instant over a repaired cart skips it exactly under two
    conditions, and otherwise writes again or records an error.
- `Migration`: the collection as a class with a `docs` map, the batch loop `FixCarts`, the
  report, and what the loop leaves in the collection.

`FixCarts` is proved against two specification functions over the cart list:

- `Tally` gives the report;
- `Commit` gives the collection after the writes.

The lemmas about `Tally` and `Commit` state the script's promises:

- every cart is counted once;
- errors are the failing carts, in order;
- "fixed" means "an update was recorded";
- deleted carts are gone, fixed carts carry exactly their repairs, and everything else is
  untouched.

### Where the code departs from what a repair pass is expected to do (the code is followed)

- A repair pass is expected to be idempotent: a second run should find nothing to fix. For a
  cart the first run fixed, a second run at the same instant skips the cart exactly when both
  of these hold (`SecondPassSkipsExactly`); otherwise it writes again or records an error:
  - `members` was an array, or the stored charge is falsy or a positive whole number;
  - the cart's location was usable, or the creator's profile location passes the location
    check whenever it is copied.

  When the first condition fails, the creator is seeded with a share equal to the stored
  charge, with no recomputation, and the next run rewrites it:
  - a stored charge of -5 is reset to 50, but the share stays -5
    (`NegativeChargeNeedsSecondPass`);
  - a stored charge of 30.5 is kept, and the next run writes a share of 31;
  - a truthy non-number charge is reset to 50, and the share keeps the stored value.

  `UnsettledSeedNeedsSecondPass` covers all three. When the second condition fails, the
  profile location is copied without checks, and the next run does not skip the cart
  (`UnsoundProfileNeedsSecondPass`); it either writes again or records an error:
  - coordinates of the wrong length are rejected again
    (`MalformedProfileCoordinatesNeedSecondPass`);
  - a whitespace-only profile address is replaced by `Not specified`;
  - a numeric profile address makes `trim` throw, so a cart the first run fixed becomes an
    error (`NonStringProfileAddressThrowsOnSecondPass`).
- A second run at a later instant is a different matter: once the new expiry (two hours
  ahead) has passed it is written again, and once the cart is seven days old an unfinished
  one is deleted. The model states idempotence only for a run at the same instant.
- One might expect a seeded creator's share to be 50 when the stored charge is invalid. The
  code seeds the stored charge whenever it is truthy, including a negative one.
- `totalOrders` is only type-checked, so a negative count is kept.
- Item quantities and prices are only checked for truthiness, so negative values are kept.
- An expired cart gets its expiry pushed two hours ahead. It is not cancelled, and its status
  is unchanged (`ExpiryOnlyMovesExpiresAt`).
- A cancelled cart older than seven days is deleted, like any unfinished one.
- A cart whose `createdAt` is `null` is treated as created at the epoch, so an unfinished one
  is deleted. An absent `createdAt` never counts as old.
- The split counts every member entry, including members who have left.
- A delivery charge of 0 is falsy, so the split divides 50.
- `maxMembers` may be any number in [2, 10], not only a whole one.

## Model

| member | source | states |
|---|---|---|
| JsValues.Or | server/scripts/fixCarts.js:128-132 | the JavaScript or-operator is truthy iff either operand is, yields `a` when `a` is truthy, and otherwise yields `b` |
| JsValues.TrimStart | server/scripts/fixCarts.js:106 | the result is the input with its leading whitespace removed: a suffix, the dropped prefix is all whitespace, and the result does not start with whitespace |
| JsValues.TrimEnd | server/scripts/fixCarts.js:106 | the result is the input with its trailing whitespace removed: a prefix, the dropped suffix is all whitespace, and the result does not end with whitespace |
| JsValues.TrimEmptyIffAllWhitespace | server/scripts/fixCarts.js:106-117 | `s.trim() === ''` holds exactly when every character of `s` is ECMAScript whitespace |
| JsValues.TrimOfFilled | server/scripts/fixCarts.js:106-117 | a string whose first character is not whitespace does not trim to empty |
| JsValues.LowerCase | server/scripts/fixCarts.js:70 | keeps the length and lower-cases each character independently |
| JsValues.LowerCaseIdempotent | server/scripts/fixCarts.js:70 | lower-casing twice equals lower-casing once |
| CartRecord.Apply | server/scripts/fixCarts.js:240-243 | the update never changes id, creator or creation time; an empty update object leaves the cart as it was |
| Repair.Ceil | server/scripts/fixCarts.js:183 | the result is the least integer at or above `x` |
| Repair.DefaultsFilled | server/scripts/fixCarts.js:96-98 | the default address, city and pincode pass the blank check |
| Repair.DefaultPlatformValid | server/scripts/fixCarts.js:71 | the default platform passes the platform check |
| Repair.PlatformFix | server/scripts/fixCarts.js:69-74 | throws exactly on a truthy non-string; writes nothing for an accepted platform; otherwise writes `blinkit`, which is accepted |
| Repair.PlatformIgnoresCase | server/scripts/fixCarts.js:70 | the platform check gives the same answer for a value and its lower-cased form; an accepted platform is left as stored |
| Repair.LocationFromCreator | server/scripts/fixCarts.js:80-102 | with profile coordinates, copies them and each truthy sub-field, and writes `Not specified` for a falsy address or city and `000000` for a falsy pincode; otherwise yields the Delhi default `[77.1025, 28.7041]` with those defaults, which passes the location check |
| Repair.SubFieldFix | server/scripts/fixCarts.js:106-117 | throws exactly on a truthy non-string; writes the default exactly when the value is falsy or blank |
| Repair.LocationFixFor | server/scripts/fixCarts.js:76-118 | a missing or malformed location is replaced whole; otherwise exactly the blank sub-fields get defaults; throws exactly when a sub-field is a truthy non-string, on the address first, then the city, then the pincode |
| Repair.FixItem | server/scripts/fixCarts.js:127-133 | the coerced item is well formed and equals the original iff the original was well formed; each falsy field gets its default |
| Repair.FixItems | server/scripts/fixCarts.js:127 | same length, each item coerced in place |
| Repair.ItemsFix | server/scripts/fixCarts.js:120-140 | a non-array becomes `[]`; nothing is written iff the items are well formed; what is written is well formed and item-by-item coerced |
| Repair.ChargeFix | server/scripts/fixCarts.js:142-147 | writes nothing for a non-negative number; otherwise writes 50, which passes |
| Repair.MaxMembersFix | server/scripts/fixCarts.js:149-154 | writes nothing for a number in [2, 10]; otherwise writes 4, which passes |
| Repair.SplitCharge | server/scripts/fixCarts.js:183 | the divided charge is positive: the stored charge when it is a valid non-zero number, 50 otherwise |
| Repair.CreatorMember | server/scripts/fixCarts.js:158-163 | the seeded entry is the creator, `joined`, owing the stored charge when truthy and 50 otherwise, and joined at the creation time, or now when that is null or absent |
| Repair.WithSplit | server/scripts/fixCarts.js:184-187 | the same members in order, each with only `splitAmount` replaced |
| Repair.WithSplitUnchanged | server/scripts/fixCarts.js:189 | overwriting the shares changes nothing iff every member already owes that share |
| Repair.MembersFix | server/scripts/fixCarts.js:156-194 | a non-array becomes the creator alone; an array keeps its members in order, appends the creator entry (joined at the creation time or now) iff the creator is absent, gives all an equal ceiling share, and is written iff it was not already like that |
| Repair.StatusFix | server/scripts/fixCarts.js:196-201 | writes nothing for one of the seven statuses; otherwise writes `active`, which passes |
| Repair.BoolFix | server/scripts/fixCarts.js:203-208 | writes nothing for a boolean; otherwise writes `true` |
| Repair.MaxDistanceFix | server/scripts/fixCarts.js:210-215 | writes nothing for a number in [0.5, 5]; otherwise writes 2, which passes |
| Repair.TotalOrdersFix | server/scripts/fixCarts.js:224-229 | writes nothing for any number; otherwise writes 0 |
| Repair.ExpiryFix | server/scripts/fixCarts.js:231-236 | writes nothing for an expiry not before now; otherwise writes now plus two hours, which is unexpired |
| Repair.FieldUpdates | server/scripts/fixCarts.js:69-236 | building the update object throws exactly when a string method meets a truthy non-string, and the platform is examined first |
| Repair.RepairCart | server/scripts/fixCarts.js:37-67 | delete iff the creator is missing or unknown, or the cart is over seven days old (a null creation time counting as the epoch) and neither completed nor delivered; error iff kept and a string method throws; an update is never empty; skip means nothing was recorded |
| RepairFacts.SkipIffValid | server/scripts/fixCarts.js:239-249 | a cart is skipped exactly when it passes every check of the pass |
| RepairFacts.SplitChargeSurvivesRepair | server/scripts/fixCarts.js:142-183 | the split charge is the same whether taken before or after the charge repair |
| RepairFacts.PlatformRepairs | server/scripts/fixCarts.js:69-74 | the platform after the repair passes the platform check |
| RepairFacts.UpdateRepairsScalars | server/scripts/fixCarts.js:69-236 | after a fix every scalar field passes its check, and the cart is still owned and not abandoned |
| RepairFacts.UpdateRepairsItemsAndMembers | server/scripts/fixCarts.js:120-194 | after a fix the items are well formed, the creator is a member, and an array of members is evenly split |
| RepairFacts.SubFieldRepairs | server/scripts/fixCarts.js:106-117 | a sub-field after its repair passes the blank check |
| RepairFacts.SubFieldKeysRepair | server/scripts/fixCarts.js:104-118 | setting the dotted sub-field keys leaves a point-shaped location valid |
| RepairFacts.ProfileLocationRepairs | server/scripts/fixCarts.js:77-103 | a location copied from a sound profile, or the default, passes the location check |
| RepairFacts.UpdateRepairsLocation | server/scripts/fixCarts.js:76-118 | after a fix the location passes its check unless it was copied from an unsound profile |
| RepairFacts.TotalSharesUniform | server/scripts/fixCarts.js:184-187 | equal shares add up to the member count times the share |
| RepairFacts.CeilShareBounds | server/scripts/fixCarts.js:182-183 | `n` ceiling shares of `charge / n` total at least `charge` and less than `charge + n` |
| RepairFacts.SharesCoverCharge | server/scripts/fixCarts.js:181-187 | evenly split shares cover the charge with less than one unit of overshoot per member |
| RepairFacts.RepairedSharesCoverCharge | server/scripts/fixCarts.js:181-193 | after fixing an array of members, their shares cover the split charge with less than one unit of overshoot per member |
| RepairFacts.ExpiryOnlyMovesExpiresAt | server/scripts/fixCarts.js:231-236 | the stored expiry changes neither deletion nor error, and changes no update key other than `expiresAt` |
| RepairFacts.SecondPassSkips | server/scripts/fixCarts.js:37-249 | a second pass at the same instant skips a fixed cart, when the seeded share is settled and any copied profile location is sound |
| RepairFacts.SeededShareSettles | server/scripts/fixCarts.js:157-165 | a settled seed share is already the even split of the repaired charge |
| RepairFacts.SeedShare | server/scripts/fixCarts.js:158-183 | the creator alone, seeded with a settled charge, is evenly split |
| RepairFacts.NegativeChargeNeedsSecondPass | server/scripts/fixCarts.js:142-165 | a non-array `members` with a negative charge gets charge 50 but a creator owing the negative charge, and the next pass writes again |
| RepairFacts.MalformedProfileCoordinatesNeedSecondPass | server/scripts/fixCarts.js:77-90 | profile coordinates of the wrong length are copied in, and the next pass writes again |
| RepairFacts.UnsettledSeedUneven | server/scripts/fixCarts.js:157-183 | the creator alone, seeded with a charge that is negative, fractional or not a number, is not evenly split |
| RepairFacts.UnsettledSeedNeedsSecondPass | server/scripts/fixCarts.js:142-183 | a fixed cart whose `members` was not an array and whose seeded share is unsettled is not skipped by the next pass |
| RepairFacts.UnsoundProfileNeedsSecondPass | server/scripts/fixCarts.js:77-118 | a fixed cart that took a profile location failing the location check is not skipped by the next pass |
| RepairFacts.NonStringProfileAddressThrowsOnSecondPass | server/scripts/fixCarts.js:80-106 | a profile with two coordinates and a truthy non-string address makes the next pass fail on `trim` of the address |
| RepairFacts.SecondPassSkipsExactly | server/scripts/fixCarts.js:37-249 | a second pass skips a fixed cart exactly when its seeded share is settled (or `members` was an array) and any copied profile location is sound |
| Migration.CartCollection.constructor | server/scripts/fixCarts.js:27 | the collection holds the given documents |
| Migration.CartCollection.FindByIdAndDelete | server/scripts/fixCarts.js:63 | the document with that id is removed and no other changes |
| Migration.CartCollection.FindByIdAndUpdate | server/scripts/fixCarts.js:240-243 | the document with that id gets the update applied, if it exists; no other changes |
| Migration.FixCarts | server/scripts/fixCarts.js:30-255 | the collection ends as `Commit` of the carts and the report equals `Tally` of the carts |
| Migration.TallyAccountsForEveryCart | server/scripts/fixCarts.js:35-255 | fixed + deleted + skipped + errors equals the number of carts |
| Migration.FailuresAppend | server/scripts/fixCarts.js:251-252 | one more cart extends the failures by that cart's error, if any |
| Migration.FixedCountAppend | server/scripts/fixCarts.js:239-244 | one more cart raises the fixed count by one exactly when it is updated |
| Migration.TallyMatchesDecisions | server/scripts/fixCarts.js:239-252 | the errors list is exactly the failing carts with their errors, in order, and fixed counts exactly the updated carts |
| Migration.WriteElsewhere | server/scripts/fixCarts.js:63-243 | the writes for one cart leave every other document as it was |
| Migration.CommitOutside | server/scripts/fixCarts.js:35-255 | the writes add no document and leave every document not among the carts as it was |
| Migration.CommitSettles | server/scripts/fixCarts.js:35-255 | over a snapshot, each cart ends deleted, updated with exactly its repairs, or untouched, as its decision says |
| Migration.CommitEffect | server/scripts/fixCarts.js:35-255 | over a snapshot: deleted carts are gone; fixed carts hold exactly their repairs; skipped and failing carts and unlisted documents are untouched; no document is added |

## Left out

- Database connection, environment loading, console output, the summary printout and the
  process exit are I/O. The model returns the report instead.
- `Cart.find({})` is not modelled as a call. The list of carts is a parameter, in the order
  the store returns it. `CommitEffect` assumes it is a snapshot of the collection.
- `User.findById` is a lookup in a `users` map. Database errors, invalid-id cast errors and
  the concurrency between awaits are not modelled.
- The clock is one `now` parameter for the whole pass. The script reads `Date.now()` several
  times.
- Document `_id`s, `toString()` on ids, and `JSON.stringify` comparison are not modelled.
  Items and members are compared structurally, and subdocument `_id`s are not part of the
  model. The `type: 'Point'` key of a written location is not modelled.
- Numbers are exact reals. Floating-point rounding and `NaN` are not modelled.
- Scalar field values are undefined/null, booleans, numbers or strings. Undefined and null
  are told apart only for `createdAt`, the one field where the script's tests treat them
  differently. An object or array stored in a scalar field, a non-array `coordinates`, and
  `null` entries inside `items` or `members` are not modelled.
- `JsValues.LowerCase`: maps only A–Z and the Kelvin sign, the one non-ASCII character that
  lowers to an ASCII letter. Nothing else can change whether a platform is accepted.
- Strings are sequences of code points, not UTF-16 code units.
- The other scripts and files (demo data, user checks, data transfer, the auth controller,
  the client files) are not part of this model. Joining, leaving, the cart lifecycle and
  proximity search are not part of this model either.
