/** The cart service: validation around each store mutation, and re-pricing of the whole
    cart from the product directory on every read.

    Each operation has a specification function (`...Effect`) giving, for the cart's
    contents before the call and the directory's oracle functions, the value returned or
    the error thrown, the cart afterwards and the directory calls made. The methods at the
    end perform the operations on a `Store` and a `Directory` and are proved to have
    exactly that effect. `await` is sequential execution here. */
module CartService {
  import opened Wrappers
  import opened Js
  import opened ApiErrors
  import opened CartStore
  import opened ProductDirectory

  /** One line of the cart as returned to the caller; never stored. */
  datatype PricedLine = PricedLine(productId: string, quantity: int, unitPrice: real, lineTotal: real,
                                   name: Value, currency: Value)

  datatype CartView = CartView(items: seq<PricedLine>, subtotal: real)

  /** What a service operation does: the value returned or the error thrown, the cart's
      entries afterwards, and the calls made to the directory, in order. */
  datatype Effect<T> = Effect(result: Result<T, ApiError>, items: seq<CartItem>, calls: seq<Call>)

  /** What `reserveDelta` does: pass or throw, and the reserve calls made. */
  datatype Reservation = Reservation(outcome: Outcome<ApiError>, calls: seq<Call>)

  const PriceUnavailable := "Product price is unavailable"
  const ExceedsStock := "Requested quantity exceeds available stock"
  const UnableToReserve := "Unable to reserve stock for product"
  const ProductNotFound := "Product not found"
  const NotInCart := "Product not found in cart"

  /** `assertProductId`: the id must be a non-empty string. */
  function AssertProductId(productId: Value): (r: Result<string, ApiError>)
    ensures r.Ok? <==> productId.Str? && productId.s != ""
    ensures r.Ok? ==> r.value == productId.s
    ensures r.Err? ==> r.error == ValidationError("productId is required", Undefined)
  {
    if !Truthy(productId) || TypeOf(productId) != "string" then
      Err(ValidationError("productId is required", Undefined))
    else
      Ok(productId.s)
  }

  /** `parseQuantity`, given `Number(quantity)`: an integer, positive unless `allowZero`,
      in which case zero is accepted too. */
  function ParseQuantity(parsed: Number, allowZero: bool): (r: Result<int, ApiError>)
    ensures r.Ok? <==> IsInteger(parsed) && (if allowZero then parsed.r >= 0.0 else parsed.r > 0.0)
    ensures r.Ok? ==> r.value as real == parsed.r
    ensures !IsInteger(parsed) ==>
      r == Err(ValidationError("quantity must be an integer", Undefined))
    ensures IsInteger(parsed) && !allowZero && parsed.r <= 0.0 ==>
      r == Err(ValidationError("quantity must be greater than zero", Undefined))
    ensures IsInteger(parsed) && allowZero && parsed.r < 0.0 ==>
      r == Err(ValidationError("quantity must be zero or greater", Undefined))
  {
    if !parsed.Finite? || !IsInteger(parsed) then
      Err(ValidationError("quantity must be an integer", Undefined))
    else if !allowZero && parsed.r <= 0.0 then
      Err(ValidationError("quantity must be greater than zero", Undefined))
    else if allowZero && parsed.r < 0.0 then
      Err(ValidationError("quantity must be zero or greater", Undefined))
    else
      Ok(parsed.r.Floor)
  }

  /** `ensureAvailability`: a product without `availableStock` has no limit. */
  function EnsureAvailability(product: Product, requestedQuantity: int): (r: Outcome<ApiError>)
    ensures r.Pass? <==> product.availableStock.None? || requestedQuantity <= product.availableStock.value
    ensures r.Fail? ==> r.error == ValidationError(ExceedsStock, Undefined)
  {
    if product.availableStock.None? then Pass
    else if requestedQuantity > product.availableStock.value then
      Fail(ValidationError(ExceedsStock, Undefined))
    else Pass
  }

  /** `result && result.success === false`: only an object whose `success` field is the
      boolean `false` rejects a reservation. */
  predicate ReserveRejected(result: Value)
    ensures ReserveRejected(result) <==>
      result.Obj? && "success" in result.fields && result.fields["success"] == Bool(false)
  {
    Truthy(result) && Property(result, "success") == Some(Bool(false))
  }

  /** `reserveDelta`: nothing to reserve for a non-positive delta or when the directory
      has no reserve operation; otherwise one reserve call for exactly `delta`. */
  function ReserveDeltaEffect(reserve: Option<(string, int) -> Value>, id: string, delta: int): (r: Reservation)
    ensures delta <= 0 || reserve.None? ==> r == Reservation(Pass, [])
    ensures delta > 0 && reserve.Some? ==>
      r.calls == [Reserve(id, delta)] && (r.outcome.Fail? <==> ReserveRejected(reserve.value(id, delta)))
    ensures r.outcome.Fail? ==> r.outcome.error == ValidationError(UnableToReserve, Undefined)
  {
    if delta <= 0 || reserve.None? then Reservation(Pass, [])
    else if ReserveRejected(reserve.value(id, delta)) then
      Reservation(Fail(ValidationError(UnableToReserve, Undefined)), [Reserve(id, delta)])
    else
      Reservation(Pass, [Reserve(id, delta)])
  }

  /** `price * item.quantity`. */
  function LineTotal(unitPrice: real, quantity: int): real
  {
    unitPrice * quantity as real
  }

  /** The priced line for a stored entry whose product has a finite price. */
  function LineFor(item: CartItem, p: Product): PricedLine
    requires p.price.Finite?
  {
    PricedLine(item.productId, item.quantity, p.price.r, LineTotal(p.price.r, item.quantity), p.name, p.currency)
  }

  /** Lines and calls already produced, followed by the effect of the rest of a loop. */
  function Then(lines: seq<PricedLine>, done: seq<Call>, rest: Effect<seq<PricedLine>>): Effect<seq<PricedLine>>
  {
    Effect(if rest.result.Ok? then Ok(lines + rest.result.value) else rest.result, rest.items, done + rest.calls)
  }

  /** The loop of `getCart` over the entries of `snapshot`, with `store` the cart's
      current entries: fetch each product; drop an entry whose product is gone from the
      store (by id, as `cartStore.removeItem` does); fail on an unusable price; otherwise
      emit a priced line. */
  function Reprice(lookup: string -> Option<Product>, snapshot: seq<CartItem>, store: seq<CartItem>): Effect<seq<PricedLine>>
    decreases |snapshot|
  {
    if snapshot == [] then Effect(Ok([]), store, [])
    else
      var item := snapshot[0];
      match lookup(item.productId)
      case None =>
        Then([], [Fetch(item.productId)], Reprice(lookup, snapshot[1..], Removed(store, item.productId)))
      case Some(p) =>
        if !p.price.Finite? then
          Effect(Err(ValidationError(PriceUnavailable, Undefined)), store, [Fetch(item.productId)])
        else
          Then([LineFor(item, p)], [Fetch(item.productId)], Reprice(lookup, snapshot[1..], store))
  }

  /** `recalculatedItems.reduce((sum, current) => sum + current.lineTotal, 0)`. */
  function Subtotal(lines: seq<PricedLine>): real
  {
    if lines == [] then 0.0 else Subtotal(lines[..|lines| - 1]) + lines[|lines| - 1].lineTotal
  }

  /** `getCart`. */
  function GetCartEffect(lookup: string -> Option<Product>, items: seq<CartItem>): Effect<CartView>
  {
    var r := Reprice(lookup, items, items);
    Effect(if r.result.Ok? then Ok(CartView(r.result.value, Subtotal(r.result.value))) else Err(r.result.error),
           r.items, r.calls)
  }

  /** The effect `e` preceded by the fetch of the product `id`. */
  function AfterFetch(id: string, e: Effect<CartView>): (r: Effect<CartView>)
    ensures r.result == e.result && r.items == e.items && r.calls == [Fetch(id)] + e.calls
  {
    Effect(e.result, e.items, [Fetch(id)] + e.calls)
  }

  /** The part of `addItem` and `updateItemQuantity` after the product was found:
      check the new quantity `target` against the stock, reserve `delta`, then store
      `target` and re-read the cart. */
  function CheckReserveStoreEffect(lookup: string -> Option<Product>, reserve: Option<(string, int) -> Value>,
                                   items: seq<CartItem>, id: string, p: Product, delta: int,
                                   target: int): Effect<CartView>
  {
    match EnsureAvailability(p, target)
    case Fail(e) => Effect(Err(e), items, [])
    case Pass =>
      var res := ReserveDeltaEffect(reserve, id, delta);
      match res.outcome
      case Fail(e) => Effect(Err(e), items, res.calls)
      case Pass =>
        var g := GetCartEffect(lookup, Upserted(items, id, target));
        Effect(g.result, g.items, res.calls + g.calls)
  }

  /** The quantity `addItem` checks and stores: the one stored so far plus `q`. */
  function CumulativeQuantity(items: seq<CartItem>, id: string, q: int): int
  {
    QuantityOf(items, id) + q
  }

  /** The change `updateItemQuantity` reserves for: the new quantity `q` minus the
      stored one. */
  function QuantityChange(items: seq<CartItem>, id: string, q: int): int
  {
    q - QuantityOf(items, id)
  }

  /** `addItem` once the id and quantity are valid. */
  function AddValidItemEffect(lookup: string -> Option<Product>, reserve: Option<(string, int) -> Value>,
                              items: seq<CartItem>, id: string, q: int): Effect<CartView>
  {
    match lookup(id)
    case None => Effect(Err(NotFoundError(ProductNotFound, Undefined)), items, [Fetch(id)])
    case Some(p) => AfterFetch(id, CheckReserveStoreEffect(lookup, reserve, items, id, p, q, CumulativeQuantity(items, id, q)))
  }

  /** `addItem`. */
  function AddItemEffect(lookup: string -> Option<Product>, reserve: Option<(string, int) -> Value>,
                         items: seq<CartItem>, productId: Value, quantity: Number): Effect<CartView>
  {
    match AssertProductId(productId)
    case Err(e) => Effect(Err(e), items, [])
    case Ok(id) =>
      match ParseQuantity(quantity, false)
      case Err(e) => Effect(Err(e), items, [])
      case Ok(q) => AddValidItemEffect(lookup, reserve, items, id, q)
  }

  /** `updateItemQuantity` once the id is valid, has an entry, and the quantity parsed. */
  function UpdateValidItemEffect(lookup: string -> Option<Product>, reserve: Option<(string, int) -> Value>,
                                 items: seq<CartItem>, id: string, q: int): Effect<CartView>
  {
    if q == 0 then GetCartEffect(lookup, Removed(items, id))
    else
      match lookup(id)
      case None => Effect(Err(NotFoundError(ProductNotFound, Undefined)), items, [Fetch(id)])
      case Some(p) => AfterFetch(id, CheckReserveStoreEffect(lookup, reserve, items, id, p, QuantityChange(items, id, q), q))
  }

  /** `updateItemQuantity`. */
  function UpdateItemQuantityEffect(lookup: string -> Option<Product>, reserve: Option<(string, int) -> Value>,
                                    items: seq<CartItem>, productId: Value, quantity: Number): Effect<CartView>
  {
    match AssertProductId(productId)
    case Err(e) => Effect(Err(e), items, [])
    case Ok(id) =>
      match Find(items, id)
      case None => Effect(Err(NotFoundError(NotInCart, Undefined)), items, [])
      case Some(_) =>
        match ParseQuantity(quantity, true)
        case Err(e) => Effect(Err(e), items, [])
        case Ok(q) => UpdateValidItemEffect(lookup, reserve, items, id, q)
  }

  /** `removeItem` (the service's, which reports a missing entry). */
  function RemoveItemEffect(lookup: string -> Option<Product>, items: seq<CartItem>, productId: Value): Effect<CartView>
  {
    match AssertProductId(productId)
    case Err(e) => Effect(Err(e), items, [])
    case Ok(id) =>
      if !Contains(items, id) then Effect(Err(NotFoundError(NotInCart, Undefined)), Removed(items, id), [])
      else GetCartEffect(lookup, Removed(items, id))
  }

  /** `clearCart` (the service's): the entries before the call do not matter. */
  function ClearCartEffect(lookup: string -> Option<Product>): Effect<CartView>
  {
    GetCartEffect(lookup, [])
  }

  /** With a valid id and quantity, `addItem` goes on to the product lookup. */
  lemma AddItemValidInput(lookup: string -> Option<Product>, reserve: Option<(string, int) -> Value>,
                          items: seq<CartItem>, productId: Value, quantity: Number, id: string, q: int)
    requires AssertProductId(productId) == Ok(id) && ParseQuantity(quantity, false) == Ok(q)
    ensures AddItemEffect(lookup, reserve, items, productId, quantity) == AddValidItemEffect(lookup, reserve, items, id, q)
  {
  }

  /** Past the stock check and the reservation, the target quantity is stored and the
      cart re-read. */
  lemma CheckReserveStoreCommits(lookup: string -> Option<Product>, reserve: Option<(string, int) -> Value>,
                                 items: seq<CartItem>, id: string, p: Product, delta: int, target: int)
    requires EnsureAvailability(p, target).Pass? && ReserveDeltaEffect(reserve, id, delta).outcome.Pass?
    ensures var e := CheckReserveStoreEffect(lookup, reserve, items, id, p, delta, target);
      var g := GetCartEffect(lookup, Upserted(items, id, target));
      e.result == g.result && e.items == g.items && e.calls == ReserveDeltaEffect(reserve, id, delta).calls + g.calls
  {
  }

  /** A failed stock check or reservation leaves the cart as it was. */
  lemma CheckReserveStoreRejects(lookup: string -> Option<Product>, reserve: Option<(string, int) -> Value>,
                                 items: seq<CartItem>, id: string, p: Product, delta: int, target: int)
    requires !(EnsureAvailability(p, target).Pass? && ReserveDeltaEffect(reserve, id, delta).outcome.Pass?)
    ensures var e := CheckReserveStoreEffect(lookup, reserve, items, id, p, delta, target);
      e.result.Err? && e.items == items &&
      e.calls == (if EnsureAvailability(p, target).Pass? then ReserveDeltaEffect(reserve, id, delta).calls else [])
  {
  }

  /** Once the product is found, `addItem` checks the cumulative quantity, reserves the
      requested one and stores the cumulative one. */
  lemma AddValidItemFound(lookup: string -> Option<Product>, reserve: Option<(string, int) -> Value>,
                          items: seq<CartItem>, id: string, q: int, p: Product, target: int)
    requires lookup(id) == Some(p) && target == CumulativeQuantity(items, id, q)
    ensures AddValidItemEffect(lookup, reserve, items, id, q) ==
            AfterFetch(id, CheckReserveStoreEffect(lookup, reserve, items, id, p, q, target))
  {
  }

  /** Every check of `addItem` passes, so the stored quantity is about to change. */
  predicate AddItemCommits(lookup: string -> Option<Product>, reserve: Option<(string, int) -> Value>,
                           items: seq<CartItem>, productId: Value, quantity: Number)
  {
    AssertProductId(productId).Ok? && ParseQuantity(quantity, false).Ok? &&
    var id := AssertProductId(productId).value;
    var q := ParseQuantity(quantity, false).value;
    lookup(id).Some? &&
    EnsureAvailability(lookup(id).value, CumulativeQuantity(items, id, q)).Pass? &&
    ReserveDeltaEffect(reserve, id, q).outcome.Pass?
  }

  /** A call that commits stores the cumulative quantity and then re-reads the cart. */
  lemma AddItemCommitThenRead(lookup: string -> Option<Product>, reserve: Option<(string, int) -> Value>,
                              items: seq<CartItem>, productId: Value, quantity: Number, id: string, q: int)
    requires AssertProductId(productId) == Ok(id) && ParseQuantity(quantity, false) == Ok(q)
    requires AddItemCommits(lookup, reserve, items, productId, quantity)
    ensures var e := AddItemEffect(lookup, reserve, items, productId, quantity);
      var g := GetCartEffect(lookup, Upserted(items, id, CumulativeQuantity(items, id, q)));
      e.result == g.result && e.items == g.items && e.calls == [Fetch(id)] + (ReserveDeltaEffect(reserve, id, q).calls + g.calls)
  {
    var target := CumulativeQuantity(items, id, q);
    AddItemValidInput(lookup, reserve, items, productId, quantity, id, q);
    AddValidItemFound(lookup, reserve, items, id, q, lookup(id).value, target);
    CheckReserveStoreCommits(lookup, reserve, items, id, lookup(id).value, q, target);
  }

  /** With a valid id, an entry for it and a parsed quantity, `updateItemQuantity` goes
      on to the removal or the product lookup. */
  lemma UpdateItemValidInput(lookup: string -> Option<Product>, reserve: Option<(string, int) -> Value>,
                             items: seq<CartItem>, productId: Value, quantity: Number, id: string, q: int)
    requires AssertProductId(productId) == Ok(id) && Contains(items, id) && ParseQuantity(quantity, true) == Ok(q)
    ensures UpdateItemQuantityEffect(lookup, reserve, items, productId, quantity) ==
            UpdateValidItemEffect(lookup, reserve, items, id, q)
  {
  }

  /** For a positive quantity, once the product is found, `updateItemQuantity` checks the
      new quantity, reserves the increase and stores the new quantity. */
  lemma UpdateValidItemFound(lookup: string -> Option<Product>, reserve: Option<(string, int) -> Value>,
                             items: seq<CartItem>, id: string, q: int, p: Product, delta: int)
    requires q != 0 && lookup(id) == Some(p) && delta == QuantityChange(items, id, q)
    ensures UpdateValidItemEffect(lookup, reserve, items, id, q) ==
            AfterFetch(id, CheckReserveStoreEffect(lookup, reserve, items, id, p, delta, q))
  {
  }

  /** A positive new quantity that passes the stock check and the reservation of the
      increase is stored, and the cart re-read. */
  lemma UpdateItemCommitThenRead(lookup: string -> Option<Product>, reserve: Option<(string, int) -> Value>,
                                 items: seq<CartItem>, productId: Value, quantity: Number, id: string, q: int)
    requires AssertProductId(productId) == Ok(id) && Contains(items, id)
    requires ParseQuantity(quantity, true) == Ok(q) && q != 0 && lookup(id).Some?
    requires EnsureAvailability(lookup(id).value, q).Pass?
    requires ReserveDeltaEffect(reserve, id, QuantityChange(items, id, q)).outcome.Pass?
    ensures var e := UpdateItemQuantityEffect(lookup, reserve, items, productId, quantity);
      var g := GetCartEffect(lookup, Upserted(items, id, q));
      e.result == g.result && e.items == g.items &&
      e.calls == [Fetch(id)] + (ReserveDeltaEffect(reserve, id, QuantityChange(items, id, q)).calls + g.calls)
  {
    var p := lookup(id).value;
    UpdateItemValidInput(lookup, reserve, items, productId, quantity, id, q);
    UpdateValidItemFound(lookup, reserve, items, id, q, p, QuantityChange(items, id, q));
    CheckReserveStoreCommits(lookup, reserve, items, id, p, QuantityChange(items, id, q), q);
  }

  lemma ThenThen(a: seq<PricedLine>, d: seq<Call>, b: seq<PricedLine>, e: seq<Call>, x: Effect<seq<PricedLine>>)
    ensures Then(a, d, Then(b, e, x)) == Then(a + b, d + e, x)
  {
    assert d + (e + x.calls) == (d + e) + x.calls;
    if x.result.Ok? {
      assert a + (b + x.result.value) == (a + b) + x.result.value;
    }
  }

  /** Concatenation is associative; the call-log proofs cite it rather than have the
      solver rediscover it. */
  lemma ConcatAssoc<T>(a: seq<T>, b: seq<T>, c: seq<T>)
    ensures a + b + c == a + (b + c)
  {
  }

  lemma ThenNothing(x: Effect<seq<PricedLine>>)
    ensures Then([], [], x) == x
  {
    assert [] + x.calls == x.calls;
    if x.result.Ok? {
      assert [] + x.result.value == x.result.value;
    }
  }

  /** One iteration of the `getCart` loop on an entry whose product is gone: the fetch
      is logged and the entry is removed from the store. */
  lemma RepriceStepMissing(lookup: string -> Option<Product>, snapshot: seq<CartItem>, i: nat, current: seq<CartItem>,
                           lines: seq<PricedLine>, done: seq<Call>, whole: Effect<seq<PricedLine>>)
    requires i < |snapshot| && lookup(snapshot[i].productId).None?
    requires whole == Then(lines, done, Reprice(lookup, snapshot[i..], current))
    ensures whole == Then(lines, done + [Fetch(snapshot[i].productId)],
                          Reprice(lookup, snapshot[i + 1..], Removed(current, snapshot[i].productId)))
  {
    var id := snapshot[i].productId;
    assert snapshot[i..][0] == snapshot[i] && snapshot[i..][1..] == snapshot[i + 1..];
    ThenThen(lines, done, [], [Fetch(id)], Reprice(lookup, snapshot[i + 1..], Removed(current, id)));
    assert lines + [] == lines;
  }

  /** One iteration on an entry whose product has a finite price: the fetch is logged and
      the entry's priced line is emitted. */
  lemma RepriceStepPriced(lookup: string -> Option<Product>, snapshot: seq<CartItem>, i: nat, current: seq<CartItem>,
                          lines: seq<PricedLine>, done: seq<Call>, whole: Effect<seq<PricedLine>>, p: Product)
    requires i < |snapshot| && lookup(snapshot[i].productId) == Some(p) && p.price.Finite?
    requires whole == Then(lines, done, Reprice(lookup, snapshot[i..], current))
    ensures whole == Then(lines + [LineFor(snapshot[i], p)], done + [Fetch(snapshot[i].productId)],
                          Reprice(lookup, snapshot[i + 1..], current))
  {
    var id := snapshot[i].productId;
    assert snapshot[i..][0] == snapshot[i] && snapshot[i..][1..] == snapshot[i + 1..];
    ThenThen(lines, done, [LineFor(snapshot[i], p)], [Fetch(id)], Reprice(lookup, snapshot[i + 1..], current));
  }

  /** One iteration on an entry whose product has no finite price: the loop stops with
      "Product price is unavailable", leaving the store as it is. */
  lemma RepriceStepUnpriced(lookup: string -> Option<Product>, snapshot: seq<CartItem>, i: nat, current: seq<CartItem>,
                            lines: seq<PricedLine>, done: seq<Call>, whole: Effect<seq<PricedLine>>)
    requires i < |snapshot| && lookup(snapshot[i].productId).Some? && !lookup(snapshot[i].productId).value.price.Finite?
    requires whole == Then(lines, done, Reprice(lookup, snapshot[i..], current))
    ensures whole == Effect(Err(ValidationError(PriceUnavailable, Undefined)), current, done + [Fetch(snapshot[i].productId)])
  {
    assert snapshot[i..][0] == snapshot[i];
  }


  method ReserveDelta(dir: Directory, productId: string, quantityDelta: int) returns (o: Outcome<ApiError>)
    modifies dir
    ensures var e := ReserveDeltaEffect(dir.reserve, productId, quantityDelta);
      o == e.outcome && dir.calls == old(dir.calls) + e.calls
  {
    if quantityDelta <= 0 {
      return Pass;
    }
    if dir.reserve.None? {
      return Pass;
    }
    var result := dir.ReserveProduct(productId, quantityDelta);
    if Truthy(result) && Property(result, "success") == Some(Bool(false)) {
      return Fail(ValidationError(UnableToReserve, Undefined));
    }
    o := Pass;
  }

  /** The shared tail of `addItem` and `updateItemQuantity`, once the product was
      fetched. */
  method CheckReserveStore(store: Store, dir: Directory, id: string, product: Product, delta: int,
                           target: int) returns (r: Result<CartView, ApiError>)
    modifies store, dir
    ensures var e := CheckReserveStoreEffect(dir.lookup, dir.reserve, old(store.items), id, product, delta, target);
      r == e.result && store.items == e.items && dir.calls == old(dir.calls) + e.calls
  {
    var available := EnsureAvailability(product, target);
    if available.Fail? {
      return Err(available.error);
    }
    var reserved := ReserveDelta(dir, id, delta);
    if reserved.Fail? {
      return Err(reserved.error);
    }
    var _ := store.UpsertItem(id, target);
    r := GetCart(store, dir);
    ConcatAssoc(old(dir.calls), ReserveDeltaEffect(dir.reserve, id, delta).calls,
                GetCartEffect(dir.lookup, Upserted(old(store.items), id, target)).calls);
  }

  method GetCart(store: Store, dir: Directory) returns (r: Result<CartView, ApiError>)
    modifies store, dir
    ensures var e := GetCartEffect(dir.lookup, old(store.items));
      r == e.result && store.items == e.items && dir.calls == old(dir.calls) + e.calls
  {
    var persistedItems := store.GetItems();
    var recalculatedItems: seq<PricedLine> := [];
    ghost var done: seq<Call> := [];
    var i := 0;
    ghost var whole := Reprice(dir.lookup, persistedItems, persistedItems);
    assert persistedItems[i..] == persistedItems;
    ThenNothing(whole);
    while i < |persistedItems|
      invariant 0 <= i <= |persistedItems|
      invariant dir.calls == old(dir.calls) + done
      invariant whole == Then(recalculatedItems, done, Reprice(dir.lookup, persistedItems[i..], store.items))
    {
      var item := persistedItems[i];
      ghost var current := store.items;
      var product := dir.GetProduct(item.productId);
      ConcatAssoc(old(dir.calls), done, [Fetch(item.productId)]);
      if product.None? {
        RepriceStepMissing(dir.lookup, persistedItems, i, current, recalculatedItems, done, whole);
        var _ := store.RemoveItem(item.productId);
      } else {
        var unitPrice := product.value.price;
        if !unitPrice.Finite? {
          RepriceStepUnpriced(dir.lookup, persistedItems, i, current, recalculatedItems, done, whole);
          return Err(ValidationError(PriceUnavailable, Undefined));
        }
        var lineTotal := unitPrice.r * item.quantity as real;
        var line := PricedLine(item.productId, item.quantity, unitPrice.r, lineTotal,
                               product.value.name, product.value.currency);
        assert line == LineFor(item, product.value);
        RepriceStepPriced(dir.lookup, persistedItems, i, current, recalculatedItems, done, whole, product.value);
        recalculatedItems := recalculatedItems + [line];
      }
      done := done + [Fetch(item.productId)];
      i := i + 1;
    }
    assert persistedItems[i..] == [];
    assert recalculatedItems + [] == recalculatedItems && done + [] == done;
    assert whole == Effect(Ok(recalculatedItems), store.items, done);
    var subtotal := Subtotal(recalculatedItems);
    r := Ok(CartView(recalculatedItems, subtotal));
  }

  method AddItem(store: Store, dir: Directory, productId: Value, quantity: Number) returns (r: Result<CartView, ApiError>)
    modifies store, dir
    ensures var e := AddItemEffect(dir.lookup, dir.reserve, old(store.items), productId, quantity);
      r == e.result && store.items == e.items && dir.calls == old(dir.calls) + e.calls
  {
    var checkedId := AssertProductId(productId);
    if checkedId.Err? {
      return Err(checkedId.error);
    }
    var parsedQuantity := ParseQuantity(quantity, false);
    if parsedQuantity.Err? {
      return Err(parsedQuantity.error);
    }
    AddItemValidInput(dir.lookup, dir.reserve, store.items, productId, quantity, checkedId.value, parsedQuantity.value);
    r := AddValidItem(store, dir, checkedId.value, parsedQuantity.value);
  }

  /** `addItem` past the checks of the id and the quantity. */
  method AddValidItem(store: Store, dir: Directory, id: string, q: int) returns (r: Result<CartView, ApiError>)
    modifies store, dir
    ensures var e := AddValidItemEffect(dir.lookup, dir.reserve, old(store.items), id, q);
      r == e.result && store.items == e.items && dir.calls == old(dir.calls) + e.calls
  {
    var product := dir.GetProduct(id);
    if product.None? {
      return Err(NotFoundError(ProductNotFound, Undefined));
    }

    AddValidItemFound(dir.lookup, dir.reserve, store.items, id, q, product.value, CumulativeQuantity(store.items, id, q));
    ghost var e := CheckReserveStoreEffect(dir.lookup, dir.reserve, store.items, id, product.value, q,
                                           CumulativeQuantity(store.items, id, q));
    r := AddFoundItem(store, dir, id, q, product.value);
    ConcatAssoc(old(dir.calls), [Fetch(id)], e.calls);
  }

  /** The rest of `addItem` once the product is known: the stored quantity plus `q`
      is checked against stock, reserved and stored. */
  method AddFoundItem(store: Store, dir: Directory, id: string, q: int, product: Product)
    returns (r: Result<CartView, ApiError>)
    modifies store, dir
    ensures var e := CheckReserveStoreEffect(dir.lookup, dir.reserve, old(store.items), id, product, q,
                                             CumulativeQuantity(old(store.items), id, q));
      r == e.result && store.items == e.items && dir.calls == old(dir.calls) + e.calls
  {
    var existing := store.FindItem(id);
    var targetQuantity := if existing.Some? then existing.value.quantity + q else q;
    assert targetQuantity == CumulativeQuantity(store.items, id, q);
    r := CheckReserveStore(store, dir, id, product, q, targetQuantity);
  }

  method UpdateItemQuantity(store: Store, dir: Directory, productId: Value, quantity: Number)
    returns (r: Result<CartView, ApiError>)
    modifies store, dir
    ensures var e := UpdateItemQuantityEffect(dir.lookup, dir.reserve, old(store.items), productId, quantity);
      r == e.result && store.items == e.items && dir.calls == old(dir.calls) + e.calls
  {
    var checkedId := AssertProductId(productId);
    if checkedId.Err? {
      return Err(checkedId.error);
    }
    var id := checkedId.value;
    var existing := store.FindItem(id);
    if existing.None? {
      return Err(NotFoundError(NotInCart, Undefined));
    }

    var parsedQuantity := ParseQuantity(quantity, true);
    if parsedQuantity.Err? {
      return Err(parsedQuantity.error);
    }
    UpdateItemValidInput(dir.lookup, dir.reserve, store.items, productId, quantity, id, parsedQuantity.value);
    r := UpdateValidItem(store, dir, id, existing.value, parsedQuantity.value);
  }

  /** `updateItemQuantity` past the checks of the id, its entry `existing` and the
      quantity. */
  method UpdateValidItem(store: Store, dir: Directory, id: string, existing: CartItem, q: int)
    returns (r: Result<CartView, ApiError>)
    requires Find(store.items, id) == Some(existing)
    modifies store, dir
    ensures var e := UpdateValidItemEffect(dir.lookup, dir.reserve, old(store.items), id, q);
      r == e.result && store.items == e.items && dir.calls == old(dir.calls) + e.calls
  {
    if q == 0 {
      var _ := store.RemoveItem(id);
      r := GetCart(store, dir);
      return;
    }

    var product := dir.GetProduct(id);
    if product.None? {
      return Err(NotFoundError(ProductNotFound, Undefined));
    }
    var delta := q - existing.quantity;
    UpdateValidItemFound(dir.lookup, dir.reserve, store.items, id, q, product.value, delta);
    ghost var e := CheckReserveStoreEffect(dir.lookup, dir.reserve, store.items, id, product.value, delta, q);
    r := CheckReserveStore(store, dir, id, product.value, delta, q);
    ConcatAssoc(old(dir.calls), [Fetch(id)], e.calls);
  }

  method RemoveItem(store: Store, dir: Directory, productId: Value) returns (r: Result<CartView, ApiError>)
    modifies store, dir
    ensures var e := RemoveItemEffect(dir.lookup, old(store.items), productId);
      r == e.result && store.items == e.items && dir.calls == old(dir.calls) + e.calls
  {
    var checkedId := AssertProductId(productId);
    if checkedId.Err? {
      return Err(checkedId.error);
    }
    var removed := store.RemoveItem(checkedId.value);
    if !removed {
      return Err(NotFoundError(NotInCart, Undefined));
    }
    r := GetCart(store, dir);
  }

  method ClearCart(store: Store, dir: Directory) returns (r: Result<CartView, ApiError>)
    modifies store, dir
    ensures var e := ClearCartEffect(dir.lookup);
      r == e.result && store.items == e.items && dir.calls == old(dir.calls) + e.calls
  {
    store.ClearCart();
    r := GetCart(store, dir);
  }
}
