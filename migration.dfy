/**
 * The batch loop of the cart migration script: every cart read from the collection is
 * deleted, fixed, skipped or recorded as an error, and the counters say how many of each.
 */
module Migration {
  import opened Wrappers
  import opened CartRecord
  import opened Repair

  /** One entry of the `errors` list: the cart's id and what was thrown. */
  datatype CartError = CartError(cartId: CartId, error: RepairError)

  /** The counters `fixed`, `deleted`, `skipped` and the `errors` list. */
  datatype Report = Report(fixed: nat, deleted: nat, skipped: nat, errors: seq<CartError>)

  /** The report after one more cart (lines 62-66, 239-252). */
  function Record(r: Report, c: Cart, d: Decision): Report {
    match d
    case Delete => r.(deleted := r.deleted + 1)
    case Update(_) => r.(fixed := r.fixed + 1)
    case Skip => r.(skipped := r.skipped + 1)
    case Fail(e) => r.(errors := r.errors + [CartError(c.id, e)])
  }

  /** The report after the carts, in order. */
  function Tally(carts: seq<Cart>, users: map<UserId, User>, now: Millis): Report {
    if carts == [] then Report(0, 0, 0, [])
    else
      var last := carts[|carts| - 1];
      Record(Tally(carts[..|carts| - 1], users, now), last, RepairCart(last, users, now))
  }

  /** The collection after the store calls for one cart: `findByIdAndDelete` or `findByIdAndUpdate`. */
  function Write(docs: map<CartId, Cart>, c: Cart, d: Decision): map<CartId, Cart> {
    match d
    case Delete => docs - {c.id}
    case Update(u) => if c.id in docs then docs[c.id := Apply(docs[c.id], u)] else docs
    case _ => docs
  }

  /** The collection after the store calls for the carts, in order. */
  function Commit(docs: map<CartId, Cart>, carts: seq<Cart>, users: map<UserId, User>, now: Millis): map<CartId, Cart> {
    if carts == [] then docs
    else
      var last := carts[|carts| - 1];
      Write(Commit(docs, carts[..|carts| - 1], users, now), last, RepairCart(last, users, now))
  }

  /** The `carts` collection, keyed by id. */
  class CartCollection {
    var docs: map<CartId, Cart>

    constructor (docs: map<CartId, Cart>)
      ensures this.docs == docs
    {
      this.docs := docs;
    }

    /** `Cart.findByIdAndDelete(id)`: removes the document, if there is one. */
    method FindByIdAndDelete(id: CartId)
      modifies this
      ensures docs == old(docs) - {id}
    {
      docs := docs - {id};
    }

    /** `Cart.findByIdAndUpdate(id, updates)`: sets the keys of `updates` on the document, if there is one. */
    method FindByIdAndUpdate(id: CartId, u: Updates)
      modifies this
      ensures id in old(docs) ==> docs == old(docs)[id := Apply(old(docs)[id], u)]
      ensures id !in old(docs) ==> docs == old(docs)
    {
      if id in docs {
        docs := docs[id := Apply(docs[id], u)];
      }
    }
  }

  /**
   * Lines 30-255. `allCarts` is what `Cart.find({})` returned before the loop, `users` the
   * directory `User.findById` looks creators up in, and `now` the clock reading.
   */
  method FixCarts(db: CartCollection, allCarts: seq<Cart>, users: map<UserId, User>, now: Millis) returns (report: Report)
    modifies db
    ensures db.docs == Commit(old(db.docs), allCarts, users, now)
    ensures report == Tally(allCarts, users, now)
  {
    var fixed, deleted, skipped := 0, 0, 0;
    var errors: seq<CartError> := [];
    for i := 0 to |allCarts|
      invariant db.docs == Commit(old(db.docs), allCarts[..i], users, now)
      invariant Report(fixed, deleted, skipped, errors) == Tally(allCarts[..i], users, now)
    {
      var cart := allCarts[i];
      assert allCarts[..i + 1][..i] == allCarts[..i];
      match RepairCart(cart, users, now)
      case Delete =>
        db.FindByIdAndDelete(cart.id);
        deleted := deleted + 1;
      case Update(updates) =>
        db.FindByIdAndUpdate(cart.id, updates);
        fixed := fixed + 1;
      case Skip =>
        skipped := skipped + 1;
      case Fail(e) =>
        errors := errors + [CartError(cart.id, e)];
    }
    assert allCarts[..|allCarts|] == allCarts;
    report := Report(fixed, deleted, skipped, errors);
  }

  // ---------------------------------------------------------------------------
  // What the tally and the store writes amount to

  /** Every cart lands in exactly one of the four tallies. */
  lemma {:induction false} TallyAccountsForEveryCart(carts: seq<Cart>, users: map<UserId, User>, now: Millis)
    ensures var r := Tally(carts, users, now);
      r.fixed + r.deleted + r.skipped + |r.errors| == |carts|
  {
    if carts != [] {
      TallyAccountsForEveryCart(carts[..|carts| - 1], users, now);
    }
  }

  /** The carts on which the decision throws, with what it threw, in the order they were read. */
  function Failures(carts: seq<Cart>, users: map<UserId, User>, now: Millis): seq<CartError> {
    if carts == [] then []
    else
      var d := RepairCart(carts[0], users, now);
      (if d.Fail? then [CartError(carts[0].id, d.error)] else []) + Failures(carts[1..], users, now)
  }

  /** The number of carts for which at least one update was recorded. */
  function FixedCount(carts: seq<Cart>, users: map<UserId, User>, now: Millis): nat {
    if carts == [] then 0
    else (if RepairCart(carts[0], users, now).Update? then 1 else 0) + FixedCount(carts[1..], users, now)
  }

  lemma {:induction false} FailuresAppend(carts: seq<Cart>, c: Cart, users: map<UserId, User>, now: Millis)
    ensures var d := RepairCart(c, users, now);
      Failures(carts + [c], users, now) == Failures(carts, users, now) + (if d.Fail? then [CartError(c.id, d.error)] else [])
  {
    if carts != [] {
      assert (carts + [c])[1..] == carts[1..] + [c];
      FailuresAppend(carts[1..], c, users, now);
    }
  }

  lemma {:induction false} FixedCountAppend(carts: seq<Cart>, c: Cart, users: map<UserId, User>, now: Millis)
    ensures FixedCount(carts + [c], users, now) == FixedCount(carts, users, now) + (if RepairCart(c, users, now).Update? then 1 else 0)
  {
    if carts != [] {
      assert (carts + [c])[1..] == carts[1..] + [c];
      FixedCountAppend(carts[1..], c, users, now);
    }
  }

  /**
   * An exception on a cart is recorded with that cart's id and the loop goes on: the errors
   * list holds exactly the failing carts in order. A cart counts as fixed exactly when an
   * update was recorded for it.
   */
  lemma {:induction false} TallyMatchesDecisions(carts: seq<Cart>, users: map<UserId, User>, now: Millis)
    ensures Tally(carts, users, now).errors == Failures(carts, users, now)
    ensures Tally(carts, users, now).fixed == FixedCount(carts, users, now)
  {
    if carts != [] {
      var init := carts[..|carts| - 1];
      var last := carts[|carts| - 1];
      assert carts == init + [last];
      TallyMatchesDecisions(init, users, now);
      FailuresAppend(init, last, users, now);
      FixedCountAppend(init, last, users, now);
    }
  }

  /** `carts` is what a read of `docs` returned: distinct ids, each cart as stored. */
  predicate Snapshot(docs: map<CartId, Cart>, carts: seq<Cart>) {
    && (forall i, j :: 0 <= i < j < |carts| ==> carts[i].id != carts[j].id)
    && (forall i :: 0 <= i < |carts| ==> carts[i].id in docs && docs[carts[i].id] == carts[i])
  }

  predicate Listed(carts: seq<Cart>, id: CartId) {
    exists i :: 0 <= i < |carts| && carts[i].id == id
  }

  /** What the store holds for cart `c` once decision `d` has been written. */
  predicate Settled(after: map<CartId, Cart>, c: Cart, d: Decision) {
    match d
    case Delete => c.id !in after
    case Update(u) => c.id in after && after[c.id] == Apply(c, u)
    case _ => c.id in after && after[c.id] == c
  }

  /** The writes for one cart touch no other document. */
  lemma WriteElsewhere(docs: map<CartId, Cart>, c: Cart, d: Decision, id: CartId)
    requires id != c.id
    ensures var after := Write(docs, c, d);
      (id in after <==> id in docs) && (id in docs ==> after[id] == docs[id])
  {
  }

  /** The writes add no document, and touch none whose id is not among the carts. */
  lemma {:induction false} CommitOutside(docs: map<CartId, Cart>, carts: seq<Cart>, users: map<UserId, User>, now: Millis)
    ensures var after := Commit(docs, carts, users, now);
      && after.Keys <= docs.Keys
      && (forall id :: id in docs && !Listed(carts, id) ==> id in after && after[id] == docs[id])
  {
    if carts != [] {
      var init := carts[..|carts| - 1];
      var last := carts[|carts| - 1];
      var d := RepairCart(last, users, now);
      CommitOutside(docs, init, users, now);
      var before := Commit(docs, init, users, now);
      var after := Commit(docs, carts, users, now);
      assert after == Write(before, last, d);
      forall id | id in docs && !Listed(carts, id)
        ensures id in after && after[id] == docs[id]
      {
        assert id != last.id by {
          assert carts[|carts| - 1].id == last.id;
        }
        WriteElsewhere(before, last, d, id);
      }
    }
  }

  /** Over a snapshot, every cart ends as its decision says. */
  lemma {:induction false} CommitSettles(docs: map<CartId, Cart>, carts: seq<Cart>, users: map<UserId, User>, now: Millis)
    requires Snapshot(docs, carts)
    ensures var after := Commit(docs, carts, users, now);
      forall i :: 0 <= i < |carts| ==> Settled(after, carts[i], RepairCart(carts[i], users, now))
  {
    if carts != [] {
      var init := carts[..|carts| - 1];
      var last := carts[|carts| - 1];
      var d := RepairCart(last, users, now);
      assert Snapshot(docs, init);
      CommitSettles(docs, init, users, now);
      CommitOutside(docs, init, users, now);
      var before := Commit(docs, init, users, now);
      var after := Commit(docs, carts, users, now);
      assert after == Write(before, last, d);
      assert !Listed(init, last.id);
      assert last.id in before && before[last.id] == last;
      assert Settled(after, last, d);
      forall i | 0 <= i < |carts| - 1
        ensures Settled(after, carts[i], RepairCart(carts[i], users, now))
      {
        assert carts[i] == init[i];
        WriteElsewhere(before, last, d, carts[i].id);
      }
    }
  }

  /**
   * Over a snapshot of the collection: a deleted cart is gone, a fixed cart has exactly its
   * recorded keys overwritten, a skipped or failing cart is untouched, and so is every
   * document that was not in the snapshot.
   */
  lemma CommitEffect(docs: map<CartId, Cart>, carts: seq<Cart>, users: map<UserId, User>, now: Millis)
    requires Snapshot(docs, carts)
    ensures var after := Commit(docs, carts, users, now);
      && after.Keys <= docs.Keys
      && (forall id :: id in docs && !Listed(carts, id) ==> id in after && after[id] == docs[id])
      && (forall i :: 0 <= i < |carts| ==> Settled(after, carts[i], RepairCart(carts[i], users, now)))
  {
    CommitOutside(docs, carts, users, now);
    CommitSettles(docs, carts, users, now);
  }
}
