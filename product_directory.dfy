/** The product service as the cart sees it: a lookup of product records by id and an
    optional reserve operation. Both are fixed functions (an oracle), so every cart
    outcome is determined by them; the class records the calls made to it, in order,
    which is what the cart's callers can observe of the remote service. */
module ProductDirectory {
  import opened Wrappers
  import opened Js

  /** The fields of a product record that the cart reads. `price` is the value of
      `Number(product.price)`; an absent `availableStock` (`null` or `undefined`) means
      the product declares no stock limit. */
  datatype Product = Product(name: Value, price: Number, currency: Value, availableStock: Option<int>)

  datatype Call = Fetch(productId: string) | Reserve(productId: string, quantity: int)

  class Directory {
    /** `getProduct`: the record, or `None` for a product that does not exist. */
    const lookup: string -> Option<Product>
    /** `reserveProduct`, when the service exposes one: the JSON payload it resolves to. */
    const reserve: Option<(string, int) -> Value>
    var calls: seq<Call>

    constructor (lookup: string -> Option<Product>, reserve: Option<(string, int) -> Value>)
      ensures this.lookup == lookup && this.reserve == reserve && calls == []
    {
      this.lookup := lookup;
      this.reserve := reserve;
      calls := [];
    }

    method GetProduct(id: string) returns (p: Option<Product>)
      modifies this
      ensures p == lookup(id)
      ensures calls == old(calls) + [Fetch(id)]
    {
      p := lookup(id);
      calls := calls + [Fetch(id)];
    }

    method ReserveProduct(id: string, quantity: int) returns (result: Value)
      requires reserve.Some?
      modifies this
      ensures result == reserve.value(id, quantity)
      ensures calls == old(calls) + [Reserve(id, quantity)]
    {
      result := reserve.value(id, quantity);
      calls := calls + [Reserve(id, quantity)];
    }
  }
}
