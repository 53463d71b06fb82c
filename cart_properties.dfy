/** What the cart service promises, proved about the specification functions of
    `CartService`: the re-pricing read, the checks in front of each mutation, the
    reservation of deltas, and the invariant every operation keeps. */
module CartProperties {
  import opened Wrappers
  import opened Js
  import opened ApiErrors
  import opened CartStore
  import opened ProductDirectory
  import opened CartService

  // ---------------------------------------------------------------------------
  // Reference definitions for a read of the cart

  /** The entries whose product still exists, in stored order. */
  function Kept(lookup: string -> Option<Product>, items: seq<CartItem>): (r: seq<CartItem>)
    ensures |r| <= |items|
    ensures forall j :: 0 <= j < |r| ==> lookup(r[j].productId).Some?
  {
    if items == [] then []
    else if lookup(items[0].productId).Some? then [items[0]] + Kept(lookup, items[1..])
    else Kept(lookup, items[1..])
  }

  /** Every entry whose product exists has a finite price. */
  predicate PricesUsable(lookup: string -> Option<Product>, items: seq<CartItem>)
  {
    forall j :: 0 <= j < |items| && lookup(items[j].productId).Some? ==> lookup(items[j].productId).value.price.Finite?
  }

  /** The lines a read should return: one per kept entry, in order, priced at the
      product's current price. */
  function ExpectedLines(lookup: string -> Option<Product>, items: seq<CartItem>): (r: seq<PricedLine>)
    requires PricesUsable(lookup, items)
    ensures |r| == |Kept(lookup, items)|
    ensures forall k :: 0 <= k < |r| ==>
      var item := Kept(lookup, items)[k];
      var p := lookup(item.productId).value;
      r[k].productId == item.productId && r[k].quantity == item.quantity &&
      p.price.Finite? && r[k].unitPrice == p.price.r &&
      r[k].lineTotal == LineTotal(r[k].unitPrice, r[k].quantity) &&
      r[k].name == p.name && r[k].currency == p.currency
  {
    if items == [] then []
    else
      var p := lookup(items[0].productId);
      if p.Some? then [LineFor(items[0], p.value)] + ExpectedLines(lookup, items[1..])
      else ExpectedLines(lookup, items[1..])
  }

  /** One product fetch per entry, in order. */
  function FetchesOf(items: seq<CartItem>): (r: seq<Call>)
    ensures |r| == |items|
    ensures forall k :: 0 <= k < |r| ==> r[k] == Fetch(items[k].productId)
  {
    if items == [] then [] else [Fetch(items[0].productId)] + FetchesOf(items[1..])
  }

  /** The sum of the line totals, added up from the front. */
  function SumOfLines(lines: seq<PricedLine>): real
  {
    if lines == [] then 0.0 else lines[0].lineTotal + SumOfLines(lines[1..])
  }

  /** The invariant the service keeps on the cart: unique product ids, positive
      quantities (zero is represented by absence). */
  predicate CartInvariant(items: seq<CartItem>)
  {
    UniqueIds(items) && forall j :: 0 <= j < |items| ==> items[j].quantity > 0
  }

  // ---------------------------------------------------------------------------
  // Store-level facts the service lemmas rest on

  /** Removing the first entry of one id does not move the first entry of another. */
  lemma FindAfterRemovingOther(items: seq<CartItem>, gone: string, id: string)
    requires gone != id
    ensures Find(Removed(items, gone), id) == Find(items, id)
  {
    var r := Removed(items, gone);
    if Contains(items, gone) {
      var g := IndexOf(items, gone);
      if Contains(items, id) {
        var k := IndexOf(items, id);
        var k' := if k < g then k else k - 1;
        assert r[k'] == items[k];
        forall j | 0 <= j < k' ensures r[j].productId != id {
          if j < g { assert r[j] == items[j]; } else { assert r[j] == items[j + 1]; }
        }
        assert IndexOf(r, id) == k';
      } else {
        forall j | 0 <= j < |r| ensures r[j].productId != id {
          if j < g { assert r[j] == items[j]; } else { assert r[j] == items[j + 1]; }
        }
      }
    }
  }

  /** Upserting one id does not change what another id finds. */
  lemma FindAfterUpsertingOther(items: seq<CartItem>, id: string, quantity: int, other: string)
    requires other != id
    ensures Find(Upserted(items, id, quantity), other) == Find(items, other)
  {
    var r := Upserted(items, id, quantity);
    if Contains(items, id) {
      var i := IndexOf(items, id);
      assert r == items[i := CartItem(id, quantity)];
      SameFindAway(items, r, other);
    } else {
      assert r == items + [CartItem(id, quantity)];
      SameFindAway(items, r, other);
    }
  }

  /** Two carts whose entries agree wherever either holds `other`, the second possibly
      one entry longer, find the same entry for `other`. */
  lemma SameFindAway(items: seq<CartItem>, r: seq<CartItem>, other: string)
    requires |items| <= |r| <= |items| + 1
    requires forall j :: 0 <= j < |items| && (items[j].productId == other || r[j].productId == other) ==> r[j] == items[j]
    requires |r| > |items| ==> r[|items|].productId != other
    ensures Find(r, other) == Find(items, other)
  {
    if Contains(items, other) {
      var k := IndexOf(items, other);
      assert r[k] == items[k];
      assert IndexOf(r, other) == k;
    } else {
      assert !Contains(r, other);
    }
  }


  /** Removing never brings in an id, and keeps the invariant. */
  lemma RemovedKeepsInvariant(items: seq<CartItem>, gone: string)
    requires CartInvariant(items)
    ensures CartInvariant(Removed(items, gone))
  {
    RemovePreservesUniqueIds(items, gone);
    var r := Removed(items, gone);
    if Contains(items, gone) {
      var g := IndexOf(items, gone);
      forall j | 0 <= j < |r| ensures r[j].quantity > 0 {
        if j < g { assert r[j] == items[j]; } else { assert r[j] == items[j + 1]; }
      }
    }
  }

  lemma RemovedAddsNothing(items: seq<CartItem>, gone: string, id: string)
    requires !Contains(items, id)
    ensures !Contains(Removed(items, gone), id)
  {
    var r := Removed(items, gone);
    if Contains(items, gone) {
      var g := IndexOf(items, gone);
      forall j | 0 <= j < |r| ensures r[j].productId != id {
        if j < g { assert r[j] == items[j]; } else { assert r[j] == items[j + 1]; }
      }
    }
  }

  /** With every entry before it kept, the first entry for a vanished product is the
      one the read is looking at. */
  lemma RemovedAfterKept(lookup: string -> Option<Product>, kept: seq<CartItem>, snapshot: seq<CartItem>)
    requires snapshot != []
    requires forall j :: 0 <= j < |kept| ==> lookup(kept[j].productId).Some?
    requires lookup(snapshot[0].productId).None?
    ensures Removed(kept + snapshot, snapshot[0].productId) == kept + snapshot[1..]
  {
    var s := kept + snapshot;
    var id := snapshot[0].productId;
    assert s[|kept|] == snapshot[0];
    assert forall j :: 0 <= j < |kept| ==> s[j] == kept[j];
    assert IndexOf(s, id) == |kept|;
    assert s[..|kept|] == kept && s[|kept| + 1..] == snapshot[1..];
  }

  /** Prices are usable in a non-empty list exactly when they are for its first entry
      and for the rest. */
  lemma PricesUsableCons(lookup: string -> Option<Product>, snapshot: seq<CartItem>)
    requires snapshot != []
    ensures PricesUsable(lookup, snapshot) <==>
      (lookup(snapshot[0].productId).Some? ==> lookup(snapshot[0].productId).value.price.Finite?) &&
      PricesUsable(lookup, snapshot[1..])
  {
    var rest := snapshot[1..];
    if PricesUsable(lookup, rest) &&
       (lookup(snapshot[0].productId).Some? ==> lookup(snapshot[0].productId).value.price.Finite?) {
      forall j | 0 <= j < |snapshot| && lookup(snapshot[j].productId).Some?
        ensures lookup(snapshot[j].productId).value.price.Finite?
      {
        if j > 0 { assert snapshot[j] == rest[j - 1]; }
      }
    }
    if PricesUsable(lookup, snapshot) {
      forall j | 0 <= j < |rest| && lookup(rest[j].productId).Some?
        ensures lookup(rest[j].productId).value.price.Finite?
      {
        assert rest[j] == snapshot[j + 1];
      }
    }
  }

  // ---------------------------------------------------------------------------
  // The re-pricing loop

  /** The loop of `getCart`, with the entries already kept in front of the snapshot:
      it succeeds exactly when every remaining entry with a product has a finite price,
      and then returns the expected lines, leaves the kept entries followed by the
      kept part of the snapshot, and fetches each snapshot entry once, in order. */
  lemma {:induction false} RepriceMeaning(lookup: string -> Option<Product>, kept: seq<CartItem>, snapshot: seq<CartItem>)
    requires forall j :: 0 <= j < |kept| ==> lookup(kept[j].productId).Some?
    decreases |snapshot|
    ensures var r := Reprice(lookup, snapshot, kept + snapshot);
      (r.result.Ok? <==> PricesUsable(lookup, snapshot)) &&
      (r.result.Ok? ==> r.result.value == ExpectedLines(lookup, snapshot) &&
                        r.items == kept + Kept(lookup, snapshot) &&
                        r.calls == FetchesOf(snapshot)) &&
      (r.result.Err? ==> r.result.error == ValidationError(PriceUnavailable, Undefined))
  {
    if snapshot == [] {
      assert kept + [] == kept;
    } else {
      var item := snapshot[0];
      var rest := snapshot[1..];
      PricesUsableCons(lookup, snapshot);
      match lookup(item.productId)
      case None =>
        RemovedAfterKept(lookup, kept, snapshot);
        RepriceMeaning(lookup, kept, rest);
        var r := Reprice(lookup, rest, kept + rest);
        if r.result.Ok? {
          assert [] + r.result.value == r.result.value;
        }
      case Some(p) =>
        if p.price.Finite? {
          var kept' := kept + [item];
          assert snapshot == [item] + rest;
          ConcatAssoc(kept, [item], rest);
          RepriceMeaning(lookup, kept', rest);
          ConcatAssoc(kept, [item], Kept(lookup, rest));
        }
    }
  }

  /** A vanished product is the only reason the read drops an entry: an id whose product
      exists keeps its first entry, whatever happens to the others. */
  lemma {:induction false} RepriceKeepsExisting(lookup: string -> Option<Product>, snapshot: seq<CartItem>,
                                                store: seq<CartItem>, id: string)
    requires lookup(id).Some?
    ensures Find(Reprice(lookup, snapshot, store).items, id) == Find(store, id)
    decreases |snapshot|
  {
    if snapshot != [] {
      var item := snapshot[0];
      if lookup(item.productId).None? {
        FindAfterRemovingOther(store, item.productId, id);
        RepriceKeepsExisting(lookup, snapshot[1..], Removed(store, item.productId), id);
      } else if lookup(item.productId).value.price.Finite? {
        RepriceKeepsExisting(lookup, snapshot[1..], store, id);
      }
    }
  }

  /** The read only removes entries and keeps the cart invariant. */
  lemma {:induction false} RepriceShrinks(lookup: string -> Option<Product>, snapshot: seq<CartItem>,
                                          store: seq<CartItem>, id: string)
    ensures !Contains(store, id) ==> !Contains(Reprice(lookup, snapshot, store).items, id)
    ensures CartInvariant(store) ==> CartInvariant(Reprice(lookup, snapshot, store).items)
    decreases |snapshot|
  {
    if snapshot != [] {
      var item := snapshot[0];
      if lookup(item.productId).None? {
        if !Contains(store, id) { RemovedAddsNothing(store, item.productId, id); }
        if CartInvariant(store) { RemovedKeepsInvariant(store, item.productId); }
        RepriceShrinks(lookup, snapshot[1..], Removed(store, item.productId), id);
      } else if lookup(item.productId).value.price.Finite? {
        RepriceShrinks(lookup, snapshot[1..], store, id);
      }
    }
  }

  /** The read talks to the directory only to fetch products that have entries. */
  lemma {:induction false} RepriceOnlyFetches(lookup: string -> Option<Product>, snapshot: seq<CartItem>, store: seq<CartItem>)
    ensures forall c :: c in Reprice(lookup, snapshot, store).calls ==> c.Fetch? && Contains(snapshot, c.productId)
    decreases |snapshot|
  {
    if snapshot != [] {
      var item := snapshot[0];
      var rest := snapshot[1..];
      var store' := if lookup(item.productId).None? then Removed(store, item.productId) else store;
      RepriceOnlyFetches(lookup, rest, store');
      forall c | c in Reprice(lookup, snapshot, store).calls ensures c.Fetch? && Contains(snapshot, c.productId) {
        if c != Fetch(item.productId) {
          assert c in Reprice(lookup, rest, store').calls;
          var j :| 0 <= j < |rest| && rest[j].productId == c.productId;
          assert snapshot[j + 1] == rest[j];
        }
      }
    }
  }

  /** `reduce` from the left adds up the same total as summing from the front. */
  lemma {:induction false} SubtotalIsSumOfLines(lines: seq<PricedLine>)
    ensures Subtotal(lines) == SumOfLines(lines)
    decreases |lines|
  {
    if lines != [] {
      var n := |lines|;
      if n == 1 {
        assert lines[..0] == [];
      } else {
        SubtotalIsSumOfLines(lines[..n - 1]);
        SubtotalIsSumOfLines(lines[1..]);
        SubtotalIsSumOfLines(lines[1..][..n - 2]);
        assert lines[1..][..n - 2] == lines[..n - 1][1..];
        assert lines[1..][n - 2] == lines[n - 1];
      }
    }
  }

  // ---------------------------------------------------------------------------
  // getCart

  /** A read fails exactly when some entry's product exists without a finite price, and
      then with "Product price is unavailable". Otherwise it returns, in stored order,
      one line per entry whose product exists, priced at the current price, with the
      subtotal the sum of the line totals; the entries of vanished products are gone
      from the store; each entry's product is fetched once, in order. */
  lemma GetCartMeaning(lookup: string -> Option<Product>, items: seq<CartItem>)
    ensures var e := GetCartEffect(lookup, items);
      (e.result.Ok? <==> PricesUsable(lookup, items)) &&
      (e.result.Ok? ==> e.result.value.items == ExpectedLines(lookup, items) &&
                        e.result.value.subtotal == SumOfLines(e.result.value.items) &&
                        e.items == Kept(lookup, items) &&
                        e.calls == FetchesOf(items)) &&
      (e.result.Err? ==> e.result.error == ValidationError(PriceUnavailable, Undefined))
  {
    assert [] + items == items;
    RepriceMeaning(lookup, [], items);
    var r := Reprice(lookup, items, items);
    if r.result.Ok? {
      SubtotalIsSumOfLines(r.result.value);
      assert [] + Kept(lookup, items) == Kept(lookup, items);
    }
  }

  lemma {:induction false} KeptTwice(lookup: string -> Option<Product>, items: seq<CartItem>)
    decreases |items|
    ensures Kept(lookup, Kept(lookup, items)) == Kept(lookup, items)
    ensures PricesUsable(lookup, items) ==> PricesUsable(lookup, Kept(lookup, items)) &&
                                            ExpectedLines(lookup, Kept(lookup, items)) == ExpectedLines(lookup, items)
  {
    if items != [] {
      KeptTwice(lookup, items[1..]);
      PricesUsableCons(lookup, items);
      if lookup(items[0].productId).Some? {
        var k := [items[0]] + Kept(lookup, items[1..]);
        assert k[0] == items[0] && k[1..] == Kept(lookup, items[1..]);
      }
    }
  }

  /** Reading self-heals once: a second read right after a successful one returns the
      same view and leaves the cart as it was. */
  lemma GetCartSettles(lookup: string -> Option<Product>, items: seq<CartItem>)
    ensures var e := GetCartEffect(lookup, items);
      e.result.Ok? ==>
        var again := GetCartEffect(lookup, e.items);
        again.result == e.result && again.items == e.items
  {
    var e := GetCartEffect(lookup, items);
    GetCartMeaning(lookup, items);
    if e.result.Ok? {
      KeptTwice(lookup, items);
      GetCartMeaning(lookup, e.items);
    }
  }

  /** A read keeps the quantity stored for any product that exists, and never brings in
      an entry. */
  lemma GetCartKeepsExisting(lookup: string -> Option<Product>, items: seq<CartItem>, id: string)
    ensures lookup(id).Some? ==> Find(GetCartEffect(lookup, items).items, id) == Find(items, id)
    ensures !Contains(items, id) ==> !Contains(GetCartEffect(lookup, items).items, id)
    ensures CartInvariant(items) ==> CartInvariant(GetCartEffect(lookup, items).items)
    ensures forall c :: c in GetCartEffect(lookup, items).calls ==> c.Fetch? && Contains(items, c.productId)
  {
    if lookup(id).Some? { RepriceKeepsExisting(lookup, items, items, id); }
    RepriceShrinks(lookup, items, items, id);
    RepriceOnlyFetches(lookup, items, items);
  }

  // ---------------------------------------------------------------------------
  // addItem (the lemmas take the id and quantity as sent, with the values the checks
  // extract from them)

  /** A malformed id or quantity is rejected with a 400 before the directory is
      consulted. */
  lemma AddItemRejectsMalformedInput(lookup: string -> Option<Product>, reserve: Option<(string, int) -> Value>,
                                     items: seq<CartItem>, productId: Value, quantity: Number)
    requires AssertProductId(productId).Err? || ParseQuantity(quantity, false).Err?
    ensures var e := AddItemEffect(lookup, reserve, items, productId, quantity);
      e.result.Err? && e.result.error.statusCode == 400 && e.items == items && e.calls == []
  {
  }

  /** An unknown product fails with NotFoundError "Product not found"; the cart is
      unchanged and nothing is reserved. */
  lemma AddItemUnknownProduct(lookup: string -> Option<Product>, reserve: Option<(string, int) -> Value>,
                              items: seq<CartItem>, productId: Value, quantity: Number, id: string, q: int)
    requires AssertProductId(productId) == Ok(id) && ParseQuantity(quantity, false) == Ok(q)
    requires lookup(id).None?
    ensures AddItemEffect(lookup, reserve, items, productId, quantity) ==
      Effect(Err(NotFoundError(ProductNotFound, Undefined)), items, [Fetch(id)])
  {
  }

  /** The stock check is on the cumulative quantity: when the stored quantity plus the
      requested one exceeds the declared stock, the call fails with "Requested quantity
      exceeds available stock", before any reservation and with the cart unchanged. */
  lemma AddItemExceedsStock(lookup: string -> Option<Product>, reserve: Option<(string, int) -> Value>,
                            items: seq<CartItem>, productId: Value, quantity: Number, id: string, q: int)
    requires AssertProductId(productId) == Ok(id) && ParseQuantity(quantity, false) == Ok(q)
    requires lookup(id).Some? && lookup(id).value.availableStock.Some?
    requires QuantityOf(items, id) + q > lookup(id).value.availableStock.value
    ensures AddItemEffect(lookup, reserve, items, productId, quantity) ==
      Effect(Err(ValidationError(ExceedsStock, Undefined)), items, [Fetch(id)])
  {
  }

  /** Past the stock check, `addItem` fetches, reserves the requested quantity, and on a
      successful reservation stores the cumulative quantity and re-reads the cart. */
  lemma AddItemCommitShape(lookup: string -> Option<Product>, reserve: Option<(string, int) -> Value>,
                           items: seq<CartItem>, productId: Value, quantity: Number, id: string, q: int)
    requires AssertProductId(productId) == Ok(id) && ParseQuantity(quantity, false) == Ok(q)
    requires lookup(id).Some? && EnsureAvailability(lookup(id).value, CumulativeQuantity(items, id, q)).Pass?
    ensures var e := AddItemEffect(lookup, reserve, items, productId, quantity);
      var res := ReserveDeltaEffect(reserve, id, q);
      var g := GetCartEffect(lookup, Upserted(items, id, CumulativeQuantity(items, id, q)));
      (res.outcome.Pass? ==> e.result == g.result && e.items == g.items && e.calls == [Fetch(id)] + (res.calls + g.calls)) &&
      (res.outcome.Fail? ==> e == Effect(Err(ValidationError(UnableToReserve, Undefined)), items, [Fetch(id)] + res.calls))
  {
    var target := CumulativeQuantity(items, id, q);
    var p := lookup(id).value;
    AddItemValidInput(lookup, reserve, items, productId, quantity, id, q);
    AddValidItemFound(lookup, reserve, items, id, q, p, target);
    if ReserveDeltaEffect(reserve, id, q).outcome.Pass? {
      CheckReserveStoreCommits(lookup, reserve, items, id, p, q, target);
    } else {
      CheckReserveStoreRejects(lookup, reserve, items, id, p, q, target);
    }
  }

  /** A call log made of a first call, a second call and the rest begins with those two. */
  lemma TwoCallPrefix(first: Call, second: Call, rest: seq<Call>)
    ensures var log := [first] + ([second] + rest); |log| >= 2 && log[0] == first && log[1] == second
    ensures [first] + [second] == [first, second]
  {
  }

  /** A fetch followed by a log of fetches holds no reservation. */
  lemma FetchesOnly(id: string, rest: seq<Call>)
    requires forall c :: c in rest ==> c.Fetch?
    ensures var log := [Fetch(id)] + ([] + rest);
      log != [] && log[0] == Fetch(id) && !(exists c :: c in log && c.Reserve?)
  {
    var log := [Fetch(id)] + ([] + rest);
    forall c | c in log ensures !c.Reserve? {
      if c != Fetch(id) { assert c in rest; }
    }
  }

  /** With a reserve operation, a positive delta is reserved exactly once, and the
      outcome fails exactly when the directory refuses. */
  lemma ReservationOfPositive(reserve: Option<(string, int) -> Value>, id: string, q: int)
    requires reserve.Some? && q > 0
    ensures ReserveDeltaEffect(reserve, id, q).calls == [Reserve(id, q)]
    ensures ReserveDeltaEffect(reserve, id, q).outcome.Fail? <==> ReserveRejected(reserve.value(id, q))
  {
  }

  /** When the stock check passes, the reservation asks for the requested quantity only,
      not the cumulative one: the calls begin with the fetch and that reservation. */
  lemma AddItemReservesRequested(lookup: string -> Option<Product>, reserve: Option<(string, int) -> Value>,
                                 items: seq<CartItem>, productId: Value, quantity: Number, id: string, q: int)
    requires AssertProductId(productId) == Ok(id) && ParseQuantity(quantity, false) == Ok(q)
    requires lookup(id).Some? && reserve.Some?
    requires EnsureAvailability(lookup(id).value, CumulativeQuantity(items, id, q)).Pass?
    ensures var e := AddItemEffect(lookup, reserve, items, productId, quantity);
      |e.calls| >= 2 && e.calls[0] == Fetch(id) && e.calls[1] == Reserve(id, q)
  {
    AddItemCommitShape(lookup, reserve, items, productId, quantity, id, q);
    ReservationOfPositive(reserve, id, q);
    if ReserveDeltaEffect(reserve, id, q).outcome.Pass? {
      TwoCallPrefix(Fetch(id), Reserve(id, q), GetCartEffect(lookup, Upserted(items, id, CumulativeQuantity(items, id, q))).calls);
    } else {
      TwoCallPrefix(Fetch(id), Reserve(id, q), []);
    }
  }

  /** A refused reservation fails with "Unable to reserve stock for product" and leaves
      the cart unchanged. */
  lemma AddItemReserveRefused(lookup: string -> Option<Product>, reserve: Option<(string, int) -> Value>,
                              items: seq<CartItem>, productId: Value, quantity: Number, id: string, q: int)
    requires AssertProductId(productId) == Ok(id) && ParseQuantity(quantity, false) == Ok(q)
    requires lookup(id).Some? && reserve.Some?
    requires EnsureAvailability(lookup(id).value, CumulativeQuantity(items, id, q)).Pass?
    requires ReserveRejected(reserve.value(id, q))
    ensures var e := AddItemEffect(lookup, reserve, items, productId, quantity);
      e.result == Err(ValidationError(UnableToReserve, Undefined)) && e.items == items &&
      e.calls == [Fetch(id), Reserve(id, q)]
  {
    AddItemCommitShape(lookup, reserve, items, productId, quantity, id, q);
    ReservationOfPositive(reserve, id, q);
    TwoCallPrefix(Fetch(id), Reserve(id, q), []);
  }

  /** The stored quantity for `id` becomes the old one plus `q`; other products that
      still exist keep their quantity. */
  lemma AddItemCommitted(lookup: string -> Option<Product>, reserve: Option<(string, int) -> Value>,
                         items: seq<CartItem>, productId: Value, quantity: Number, id: string, q: int)
    requires AssertProductId(productId) == Ok(id) && ParseQuantity(quantity, false) == Ok(q)
    requires AddItemCommits(lookup, reserve, items, productId, quantity)
    ensures Find(AddItemEffect(lookup, reserve, items, productId, quantity).items, id) ==
            Some(CartItem(id, QuantityOf(items, id) + q))
    ensures forall other :: other != id && lookup(other).Some? ==>
      Find(AddItemEffect(lookup, reserve, items, productId, quantity).items, other) == Find(items, other)
  {
    var target := CumulativeQuantity(items, id, q);
    var u := Upserted(items, id, target);
    assert target == QuantityOf(items, id) + q;
    AddItemCommitThenRead(lookup, reserve, items, productId, quantity, id, q);
    GetCartKeepsExisting(lookup, u, id);
    forall other | other != id && lookup(other).Some?
      ensures Find(GetCartEffect(lookup, u).items, other) == Find(items, other)
    {
      GetCartKeepsExisting(lookup, u, other);
      FindAfterUpsertingOther(items, id, target, other);
    }
  }

  /** Either every check passes (and `AddItemCommitted` says what is stored), or the call
      fails and the cart is unchanged; a call that succeeds is one that committed. */
  lemma AddItemCommitOrUnchanged(lookup: string -> Option<Product>, reserve: Option<(string, int) -> Value>,
                                 items: seq<CartItem>, productId: Value, quantity: Number)
    ensures var e := AddItemEffect(lookup, reserve, items, productId, quantity);
      (!AddItemCommits(lookup, reserve, items, productId, quantity) ==> e.result.Err? && e.items == items) &&
      (e.result.Ok? ==> AddItemCommits(lookup, reserve, items, productId, quantity))
  {
    if !AddItemCommits(lookup, reserve, items, productId, quantity) {
      if AssertProductId(productId).Err? || ParseQuantity(quantity, false).Err? {
        AddItemRejectsMalformedInput(lookup, reserve, items, productId, quantity);
      } else {
        var id := AssertProductId(productId).value;
        var q := ParseQuantity(quantity, false).value;
        if lookup(id).None? {
          AddItemUnknownProduct(lookup, reserve, items, productId, quantity, id, q);
        } else {
          var p := lookup(id).value;
          var target := CumulativeQuantity(items, id, q);
          AddItemValidInput(lookup, reserve, items, productId, quantity, id, q);
          AddValidItemFound(lookup, reserve, items, id, q, p, target);
          CheckReserveStoreRejects(lookup, reserve, items, id, p, q, target);
        }
      }
    }
  }

  /** Repeated `addItem` calls for one product, from a given cart. */
  function AddRepeatedly(lookup: string -> Option<Product>, reserve: Option<(string, int) -> Value>,
                         items: seq<CartItem>, productId: Value, quantities: seq<Number>): seq<CartItem>
    decreases |quantities|
  {
    if quantities == [] then items
    else
      var next := AddItemEffect(lookup, reserve, items, productId, quantities[0]).items;
      AddRepeatedly(lookup, reserve, next, productId, quantities[1..])
  }

  /** The sum of the quantities of the calls that committed. */
  function CommittedTotal(lookup: string -> Option<Product>, reserve: Option<(string, int) -> Value>,
                          items: seq<CartItem>, productId: Value, quantities: seq<Number>): int
    decreases |quantities|
  {
    if quantities == [] then 0
    else
      var next := AddItemEffect(lookup, reserve, items, productId, quantities[0]).items;
      (if AddItemCommits(lookup, reserve, items, productId, quantities[0])
       then ParseQuantity(quantities[0], false).value else 0) +
      CommittedTotal(lookup, reserve, next, productId, quantities[1..])
  }

  /** After any sequence of `addItem` calls on one product, its stored quantity is the
      old one plus the quantities of the calls that committed; calls turned away by a
      check leave it alone. */
  lemma {:induction false} AddRepeatedlyAccumulates(lookup: string -> Option<Product>, reserve: Option<(string, int) -> Value>,
                                                    items: seq<CartItem>, id: string, quantities: seq<Number>)
    requires id != ""
    ensures QuantityOf(AddRepeatedly(lookup, reserve, items, Str(id), quantities), id) ==
            QuantityOf(items, id) + CommittedTotal(lookup, reserve, items, Str(id), quantities)
    decreases |quantities|
  {
    if quantities != [] {
      var next := AddItemEffect(lookup, reserve, items, Str(id), quantities[0]).items;
      AddItemCommitOrUnchanged(lookup, reserve, items, Str(id), quantities[0]);
      if AddItemCommits(lookup, reserve, items, Str(id), quantities[0]) {
        AddItemCommitted(lookup, reserve, items, Str(id), quantities[0], id, ParseQuantity(quantities[0], false).value);
      }
      AddRepeatedlyAccumulates(lookup, reserve, next, id, quantities[1..]);
    }
  }

  /** The mutation is committed before the cart is re-read: when the product itself has
      no usable price, the call reports "Product price is unavailable" although the
      reservation was made and the new quantity is stored. */
  lemma AddItemCommitsBeforeRepricing(lookup: string -> Option<Product>, reserve: Option<(string, int) -> Value>,
                                      items: seq<CartItem>, productId: Value, quantity: Number, id: string, q: int)
    requires AssertProductId(productId) == Ok(id) && ParseQuantity(quantity, false) == Ok(q)
    requires AddItemCommits(lookup, reserve, items, productId, quantity)
    requires !lookup(id).value.price.Finite?
    ensures var e := AddItemEffect(lookup, reserve, items, productId, quantity);
      e.result == Err(ValidationError(PriceUnavailable, Undefined)) &&
      QuantityOf(e.items, id) == QuantityOf(items, id) + q
  {
    AddItemCommitted(lookup, reserve, items, productId, quantity, id, q);
    AddItemCommitThenRead(lookup, reserve, items, productId, quantity, id, q);
    var u := Upserted(items, id, CumulativeQuantity(items, id, q));
    GetCartMeaning(lookup, u);
    var j := IndexOf(u, id);
    assert !PricesUsable(lookup, u) by {
      assert lookup(u[j].productId).Some? && !lookup(u[j].productId).value.price.Finite?;
    }
  }

  // ---------------------------------------------------------------------------
  // updateItemQuantity

  /** An id with no entry fails with NotFoundError "Product not found in cart" whatever
      the quantity: the entry is looked up before the quantity is parsed. */
  lemma UpdateItemNotInCart(lookup: string -> Option<Product>, reserve: Option<(string, int) -> Value>,
                            items: seq<CartItem>, productId: Value, quantity: Number, id: string)
    requires AssertProductId(productId) == Ok(id) && !Contains(items, id)
    ensures UpdateItemQuantityEffect(lookup, reserve, items, productId, quantity) ==
      Effect(Err(NotFoundError(NotInCart, Undefined)), items, [])
  {
  }

  /** Quantity zero is `removeItem` followed by a read: the product is neither fetched
      before the read nor reserved, and with unique ids it is not fetched at all and its
      entry is gone. */
  lemma UpdateItemZeroIsRemove(lookup: string -> Option<Product>, reserve: Option<(string, int) -> Value>,
                               items: seq<CartItem>, productId: Value, quantity: Number, id: string)
    requires AssertProductId(productId) == Ok(id) && Contains(items, id)
    requires ParseQuantity(quantity, true) == Ok(0)
    ensures var e := UpdateItemQuantityEffect(lookup, reserve, items, productId, quantity);
      e == RemoveItemEffect(lookup, items, productId) &&
      (forall c :: c in e.calls ==> c.Fetch?) &&
      (UniqueIds(items) ==> Fetch(id) !in e.calls && !Contains(e.items, id))
  {
    var r := Removed(items, id);
    GetCartKeepsExisting(lookup, r, id);
    if UniqueIds(items) {
      RemovePreservesUniqueIds(items, id);
    }
  }

  /** A product that vanished from the catalogue since it was added fails
      NotFoundError "Product not found" after the fetch, with the cart unchanged. */
  lemma UpdateItemUnknownProduct(lookup: string -> Option<Product>, reserve: Option<(string, int) -> Value>,
                                 items: seq<CartItem>, productId: Value, quantity: Number, id: string, q: int)
    requires AssertProductId(productId) == Ok(id) && Contains(items, id)
    requires ParseQuantity(quantity, true) == Ok(q) && q > 0
    requires lookup(id).None?
    ensures UpdateItemQuantityEffect(lookup, reserve, items, productId, quantity) ==
      Effect(Err(NotFoundError(ProductNotFound, Undefined)), items, [Fetch(id)])
  {
  }

  /** For a positive quantity the stock check is on the new absolute quantity, not on the
      change: exceeding the declared stock fails before any reservation, cart unchanged. */
  lemma UpdateItemExceedsStock(lookup: string -> Option<Product>, reserve: Option<(string, int) -> Value>,
                               items: seq<CartItem>, productId: Value, quantity: Number, id: string, q: int)
    requires AssertProductId(productId) == Ok(id) && Contains(items, id)
    requires ParseQuantity(quantity, true) == Ok(q) && q > 0
    requires lookup(id).Some? && lookup(id).value.availableStock.Some? && q > lookup(id).value.availableStock.value
    ensures UpdateItemQuantityEffect(lookup, reserve, items, productId, quantity) ==
      Effect(Err(ValidationError(ExceedsStock, Undefined)), items, [Fetch(id)])
  {
  }

  /** Past the stock check, `updateItemQuantity` fetches, reserves the change, and on a
      successful reservation stores the new quantity and re-reads the cart. */
  lemma UpdateItemCommitShape(lookup: string -> Option<Product>, reserve: Option<(string, int) -> Value>,
                              items: seq<CartItem>, productId: Value, quantity: Number, id: string, q: int)
    requires AssertProductId(productId) == Ok(id) && Contains(items, id)
    requires ParseQuantity(quantity, true) == Ok(q) && q > 0
    requires lookup(id).Some? && EnsureAvailability(lookup(id).value, q).Pass?
    ensures var e := UpdateItemQuantityEffect(lookup, reserve, items, productId, quantity);
      var res := ReserveDeltaEffect(reserve, id, QuantityChange(items, id, q));
      var g := GetCartEffect(lookup, Upserted(items, id, q));
      (res.outcome.Pass? ==> e.result == g.result && e.items == g.items && e.calls == [Fetch(id)] + (res.calls + g.calls)) &&
      (res.outcome.Fail? ==> e == Effect(Err(ValidationError(UnableToReserve, Undefined)), items, [Fetch(id)] + res.calls))
  {
    var delta := QuantityChange(items, id, q);
    var p := lookup(id).value;
    UpdateItemValidInput(lookup, reserve, items, productId, quantity, id, q);
    UpdateValidItemFound(lookup, reserve, items, id, q, p, delta);
    if ReserveDeltaEffect(reserve, id, delta).outcome.Pass? {
      CheckReserveStoreCommits(lookup, reserve, items, id, p, delta, q);
    } else {
      CheckReserveStoreRejects(lookup, reserve, items, id, p, delta, q);
    }
  }

  /** Past the stock check, a reservation is made exactly when the new quantity is above
      the stored one, for the difference; decreases never reserve. On success the new
      quantity is stored. */
  lemma UpdateItemReservesIncrease(lookup: string -> Option<Product>, reserve: Option<(string, int) -> Value>,
                                   items: seq<CartItem>, productId: Value, quantity: Number, id: string, q: int)
    requires AssertProductId(productId) == Ok(id) && Contains(items, id)
    requires ParseQuantity(quantity, true) == Ok(q) && q > 0
    requires lookup(id).Some? && EnsureAvailability(lookup(id).value, q).Pass?
    ensures var e := UpdateItemQuantityEffect(lookup, reserve, items, productId, quantity);
      var stored := QuantityOf(items, id);
      e.calls != [] && e.calls[0] == Fetch(id) &&
      ((exists c :: c in e.calls && c.Reserve?) <==> (reserve.Some? && q > stored)) &&
      (reserve.Some? && q > stored ==> e.calls[1] == Reserve(id, q - stored)) &&
      (e.result.Ok? ==> Find(e.items, id) == Some(CartItem(id, q)))
  {
    var stored := QuantityOf(items, id);
    var delta := QuantityChange(items, id, q);
    var e := UpdateItemQuantityEffect(lookup, reserve, items, productId, quantity);
    var res := ReserveDeltaEffect(reserve, id, delta);
    var u := Upserted(items, id, q);
    UpdateItemCommitShape(lookup, reserve, items, productId, quantity, id, q);
    GetCartKeepsExisting(lookup, u, id);
    assert delta == q - stored;
    if reserve.Some? && q > stored {
      ReservationOfPositive(reserve, id, delta);
      if res.outcome.Pass? {
        TwoCallPrefix(Fetch(id), Reserve(id, delta), GetCartEffect(lookup, u).calls);
      } else {
        TwoCallPrefix(Fetch(id), Reserve(id, delta), []);
      }
      assert e.calls[1] in e.calls;
    } else {
      FetchesOnly(id, GetCartEffect(lookup, u).calls);
    }
  }


  // ---------------------------------------------------------------------------
  // removeItem and clearCart

  /** Removing an id with no entry fails with NotFoundError "Product not found in cart"
      and changes nothing. */
  lemma RemoveItemAbsent(lookup: string -> Option<Product>, items: seq<CartItem>, id: string)
    requires id != "" && !Contains(items, id)
    ensures RemoveItemEffect(lookup, items, Str(id)) == Effect(Err(NotFoundError(NotInCart, Undefined)), items, [])
  {
  }

  /** Removing an id that has an entry leaves no entry for it (ids being unique). */
  lemma RemoveItemPresent(lookup: string -> Option<Product>, items: seq<CartItem>, id: string)
    requires id != "" && Contains(items, id) && UniqueIds(items)
    ensures !Contains(RemoveItemEffect(lookup, items, Str(id)).items, id)
  {
    RemovePreservesUniqueIds(items, id);
    GetCartKeepsExisting(lookup, Removed(items, id), id);
  }

  /** Clearing always succeeds with no lines and subtotal 0, and fetches nothing. */
  lemma ClearCartEmpties(lookup: string -> Option<Product>)
    ensures ClearCartEffect(lookup) == Effect(Ok(CartView([], 0.0)), [], [])
  {
  }

  // ---------------------------------------------------------------------------
  // The cart invariant

  lemma UpsertKeepsInvariant(items: seq<CartItem>, id: string, quantity: int)
    requires CartInvariant(items) && quantity > 0
    ensures CartInvariant(Upserted(items, id, quantity))
  {
    UpsertPreservesUniqueIds(items, id, quantity);
  }

  /** With the invariant, an id's stored quantity is never negative. */
  lemma QuantityOfNonNegative(items: seq<CartItem>, id: string)
    requires CartInvariant(items)
    ensures QuantityOf(items, id) >= 0
  {
  }

  /** Every operation below keeps product ids unique and quantities positive, whether it
      succeeds or fails. */
  lemma GetCartKeepsInvariant(lookup: string -> Option<Product>, items: seq<CartItem>)
    requires CartInvariant(items)
    ensures CartInvariant(GetCartEffect(lookup, items).items)
  {
    GetCartKeepsExisting(lookup, items, "");
  }

  lemma AddItemKeepsInvariant(lookup: string -> Option<Product>, reserve: Option<(string, int) -> Value>,
                              items: seq<CartItem>, productId: Value, quantity: Number)
    requires CartInvariant(items)
    ensures CartInvariant(AddItemEffect(lookup, reserve, items, productId, quantity).items)
  {
    AddItemCommitOrUnchanged(lookup, reserve, items, productId, quantity);
    if AddItemCommits(lookup, reserve, items, productId, quantity) {
      var id := AssertProductId(productId).value;
      var q := ParseQuantity(quantity, false).value;
      var target := CumulativeQuantity(items, id, q);
      QuantityOfNonNegative(items, id);
      AddItemCommitThenRead(lookup, reserve, items, productId, quantity, id, q);
      UpsertKeepsInvariant(items, id, target);
      GetCartKeepsInvariant(lookup, Upserted(items, id, target));
    }
  }

  lemma UpdateItemKeepsInvariant(lookup: string -> Option<Product>, reserve: Option<(string, int) -> Value>,
                                 items: seq<CartItem>, productId: Value, quantity: Number)
    requires CartInvariant(items)
    ensures CartInvariant(UpdateItemQuantityEffect(lookup, reserve, items, productId, quantity).items)
  {
    if AssertProductId(productId).Ok? && Contains(items, AssertProductId(productId).value) &&
       ParseQuantity(quantity, true).Ok? {
      var id := AssertProductId(productId).value;
      var q := ParseQuantity(quantity, true).value;
      UpdateItemValidInput(lookup, reserve, items, productId, quantity, id, q);
      if q == 0 {
        RemovedKeepsInvariant(items, id);
        GetCartKeepsInvariant(lookup, Removed(items, id));
      } else if lookup(id).Some? {
        var p := lookup(id).value;
        var delta := QuantityChange(items, id, q);
        UpdateValidItemFound(lookup, reserve, items, id, q, p, delta);
        if EnsureAvailability(p, q).Pass? && ReserveDeltaEffect(reserve, id, delta).outcome.Pass? {
          CheckReserveStoreCommits(lookup, reserve, items, id, p, delta, q);
          UpsertKeepsInvariant(items, id, q);
          GetCartKeepsInvariant(lookup, Upserted(items, id, q));
        } else {
          CheckReserveStoreRejects(lookup, reserve, items, id, p, delta, q);
        }
      }
    }
  }

  lemma RemoveItemKeepsInvariant(lookup: string -> Option<Product>, items: seq<CartItem>, productId: Value)
    requires CartInvariant(items)
    ensures CartInvariant(RemoveItemEffect(lookup, items, productId).items)
  {
    if AssertProductId(productId).Ok? {
      var id := AssertProductId(productId).value;
      RemovedKeepsInvariant(items, id);
      GetCartKeepsInvariant(lookup, Removed(items, id));
    }
  }

  lemma ClearCartKeepsInvariant(lookup: string -> Option<Product>)
    ensures CartInvariant(ClearCartEffect(lookup).items)
  {
    GetCartKeepsInvariant(lookup, []);
  }
}
