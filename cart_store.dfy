/** The in-memory cart: one ordered list of `{productId, quantity}` entries that the
    service changes in place. The functions below are the value-level meaning of each
    store operation; the class `Store` performs them on its `items` field. */
module CartStore {
  import opened Wrappers

  datatype CartItem = CartItem(productId: string, quantity: int)

  predicate Contains(items: seq<CartItem>, id: string)
  {
    exists j :: 0 <= j < |items| && items[j].productId == id
  }

  /** No two entries share a product id. */
  predicate UniqueIds(items: seq<CartItem>)
  {
    forall i, j :: 0 <= i < j < |items| ==> items[i].productId != items[j].productId
  }

  /** The position of the first entry for `id`, or -1 when there is none
      (`Array.prototype.findIndex`). */
  function IndexOf(items: seq<CartItem>, id: string): (i: int)
    ensures -1 <= i < |items|
    ensures i >= 0 ==> items[i].productId == id
    ensures i >= 0 ==> forall j :: 0 <= j < i ==> items[j].productId != id
    ensures i == -1 <==> !Contains(items, id)
  {
    if items == [] then -1
    else if items[0].productId == id then 0
    else
      var k := IndexOf(items[1..], id);
      if k == -1 then -1 else k + 1
  }

  /** The first entry for `id` (`Array.prototype.find`). */
  function Find(items: seq<CartItem>, id: string): (r: Option<CartItem>)
    ensures r.None? <==> !Contains(items, id)
    ensures r.Some? ==> r.value.productId == id
    ensures r.Some? ==> exists j :: 0 <= j < |items| && items[j] == r.value &&
                         forall k :: 0 <= k < j ==> items[k].productId != id
  {
    var i := IndexOf(items, id);
    if i < 0 then None else Some(items[i])
  }

  /** The quantity stored for `id`, 0 when the cart has no entry for it. */
  function QuantityOf(items: seq<CartItem>, id: string): int
  {
    match Find(items, id)
    case Some(item) => item.quantity
    case None => 0
  }

  /** `upsertItem`: overwrite the quantity of the first entry for `id` where it stands,
      or append a new entry when there is none. */
  function Upserted(items: seq<CartItem>, id: string, quantity: int): (r: seq<CartItem>)
    ensures Contains(items, id) ==>
      var i := IndexOf(items, id);
      |r| == |items| && r[i] == CartItem(id, quantity) &&
      forall j :: 0 <= j < |items| && j != i ==> r[j] == items[j]
    ensures !Contains(items, id) ==>
      |r| == |items| + 1 && r[..|items|] == items && r[|items|] == CartItem(id, quantity)
    ensures Find(r, id) == Some(CartItem(id, quantity))
  {
    var i := IndexOf(items, id);
    if i >= 0 then items[i := CartItem(id, quantity)] else items + [CartItem(id, quantity)]
  }

  /** `removeItem`: delete the first entry for `id`, keeping the others in order; no
      change when there is none. */
  function Removed(items: seq<CartItem>, id: string): (r: seq<CartItem>)
    ensures Contains(items, id) ==>
      var i := IndexOf(items, id);
      |r| == |items| - 1 &&
      (forall j :: 0 <= j < i ==> r[j] == items[j]) &&
      (forall j :: i <= j < |r| ==> r[j] == items[j + 1])
    ensures !Contains(items, id) ==> r == items
  {
    var i := IndexOf(items, id);
    if i >= 0 then items[..i] + items[i + 1..] else items
  }

  /** Upserting keeps product ids unique. */
  lemma UpsertPreservesUniqueIds(items: seq<CartItem>, id: string, quantity: int)
    requires UniqueIds(items)
    ensures UniqueIds(Upserted(items, id, quantity))
  {
    var r := Upserted(items, id, quantity);
    if !Contains(items, id) {
      forall i, j | 0 <= i < j < |r| ensures r[i].productId != r[j].productId {
        if j == |items| {
          assert r[i] == items[i];
        } else {
          assert r[i] == items[i] && r[j] == items[j];
        }
      }
    }
  }

  /** Removing keeps product ids unique, and with unique ids the removed id is gone. */
  lemma RemovePreservesUniqueIds(items: seq<CartItem>, id: string)
    requires UniqueIds(items)
    ensures UniqueIds(Removed(items, id))
    ensures !Contains(Removed(items, id), id)
  {
    var r := Removed(items, id);
    if Contains(items, id) {
      var k := IndexOf(items, id);
      forall i, j | 0 <= i < j < |r| ensures r[i].productId != r[j].productId {
        var i' := if i < k then i else i + 1;
        var j' := if j < k then j else j + 1;
        assert r[i] == items[i'] && r[j] == items[j'];
      }
      forall j | 0 <= j < |r| ensures r[j].productId != id {
        var j' := if j < k then j else j + 1;
        assert r[j] == items[j'];
      }
    }
  }

  /** The cart the service works on. `getItems` hands out the list itself; the model
      returns its current value, which the service copies before iterating. */
  class Store {
    var items: seq<CartItem>

    /** The cart starts empty when the process starts. */
    constructor ()
      ensures items == []
    {
      items := [];
    }

    method GetItems() returns (r: seq<CartItem>)
      ensures r == items
    {
      r := items;
    }

    /** The linear scan behind both `find` and `findIndex`. */
    method FindIndex(id: string) returns (i: int)
      ensures -1 <= i < |items|
      ensures i >= 0 ==> items[i].productId == id && forall j :: 0 <= j < i ==> items[j].productId != id
      ensures i == -1 ==> forall j :: 0 <= j < |items| ==> items[j].productId != id
    {
      i := 0;
      while i < |items|
        invariant 0 <= i <= |items|
        invariant forall j :: 0 <= j < i ==> items[j].productId != id
      {
        if items[i].productId == id {
          return;
        }
        i := i + 1;
      }
      i := -1;
    }

    /** `findItem`: the first entry whose product id equals `id`, if any. */
    method FindItem(id: string) returns (r: Option<CartItem>)
      ensures r == Find(items, id)
    {
      var i := FindIndex(id);
      r := if i >= 0 then Some(items[i]) else None;
    }

    /** `upsertItem`: returns the entry as it now stands. */
    method UpsertItem(id: string, quantity: int) returns (item: CartItem)
      modifies this
      ensures item == CartItem(id, quantity)
      ensures items == Upserted(old(items), id, quantity)
    {
      var i := FindIndex(id);
      item := CartItem(id, quantity);
      if i >= 0 {
        items := items[i := item];
      } else {
        items := items + [item];
      }
    }

    /** `removeItem`: true exactly when an entry was deleted. */
    method RemoveItem(id: string) returns (removed: bool)
      modifies this
      ensures removed <==> Contains(old(items), id)
      ensures items == Removed(old(items), id)
    {
      var i := FindIndex(id);
      if i == -1 {
        return false;
      }
      items := items[..i] + items[i + 1..];
      removed := true;
    }

    /** `clearCart` (also exported as `resetCart`). */
    method ClearCart()
      modifies this
      ensures items == []
    {
      items := [];
    }
  }
}
