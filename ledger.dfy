/** The stock ledger and the order snapshot: what checkout does to product
    stock and how it copies cart lines into order items, what cancellation
    gives back, and the availability check checkout runs first. */
module Ledger {
  import opened Domain
  import opened CartModel

  /** Moves the stock of product `p` by `delta`; other products, and every
      other field, stay as they are. */
  function Adjust(ps: map<ProductId, Product>, p: ProductId, delta: int): map<ProductId, Product>
  {
    if p in ps then ps[p := ps[p].(stock := ps[p].stock + delta)] else ps
  }

  /** The catalog after checkout decrements each line's product by the line's
      quantity, line by line. */
  function Decremented(ps: map<ProductId, Product>, ls: seq<CartLine>): (r: map<ProductId, Product>)
    ensures r.Keys == ps.Keys
  {
    if ls == [] then ps
    else
      var last := ls[|ls| - 1];
      Adjust(Decremented(ps, ls[..|ls| - 1]), last.product, -last.quantity)
  }

  /** How many units of product `p` the order items hold between them. */
  function ItemQuantityOf(items: seq<OrderItem>, p: ProductId): int
  {
    if items == [] then 0
    else ItemQuantityOf(items[..|items| - 1], p) + (if items[|items| - 1].product == p then items[|items| - 1].quantity else 0)
  }

  /** The catalog after cancellation increments each item's product by the
      item's quantity, item by item. */
  function Restored(ps: map<ProductId, Product>, items: seq<OrderItem>): (r: map<ProductId, Product>)
    ensures r.Keys == ps.Keys
  {
    if items == [] then ps
    else
      var last := items[|items| - 1];
      Adjust(Restored(ps, items[..|items| - 1]), last.product, last.quantity)
  }

  /** After checkout, each product's stock has dropped by exactly the units
      of it in the cart, and nothing else about it has changed. */
  lemma {:induction false} DecrementedAt(ps: map<ProductId, Product>, ls: seq<CartLine>, p: ProductId)
    requires p in ps
    ensures Decremented(ps, ls)[p] == ps[p].(stock := ps[p].stock - QuantityOf(ls, p))
  {
    if ls != [] {
      DecrementedAt(ps, ls[..|ls| - 1], p);
    }
  }

  /** After cancellation, each product's stock has risen by exactly the units
      of it in the order, and nothing else about it has changed. */
  lemma {:induction false} RestoredAt(ps: map<ProductId, Product>, items: seq<OrderItem>, p: ProductId)
    requires p in ps
    ensures Restored(ps, items)[p] == ps[p].(stock := ps[p].stock + ItemQuantityOf(items, p))
  {
    if items != [] {
      RestoredAt(ps, items[..|items| - 1], p);
    }
  }

  // ---------------------------------------------------------------------
  // The order snapshot

  /** The order item written for cart line `l` of product `prod`: the name
      and sku of the product, the quantity and captured price of the line. */
  function Snapshot(l: CartLine, prod: Product): OrderItem
  {
    OrderItem(l.product, prod.name, prod.sku, l.quantity, l.price, LineTotal(l))
  }

  /** `items` are the snapshots of `ls`, one per line and in order, taken
      against catalog `ps`. */
  predicate IsSnapshot(items: seq<OrderItem>, ls: seq<CartLine>, ps: map<ProductId, Product>)
  {
    && |items| == |ls|
    && forall i :: 0 <= i < |ls| ==> ls[i].product in ps && items[i] == Snapshot(ls[i], ps[ls[i].product])
  }

  /** The sum of the items' `total_price`. */
  function ItemsTotal(items: seq<OrderItem>): real
  {
    if items == [] then 0.0 else items[0].totalPrice + ItemsTotal(items[1..])
  }

  /** The snapshot's item totals add up to the cart total. */
  lemma {:induction false} SnapshotTotal(items: seq<OrderItem>, ls: seq<CartLine>, ps: map<ProductId, Product>)
    requires IsSnapshot(items, ls, ps)
    ensures ItemsTotal(items) == Total(ls)
  {
    if ls != [] {
      SnapshotTotal(items[1..], ls[1..], ps);
    }
  }

  /** The snapshot holds exactly the units of each product that the cart held. */
  lemma {:induction false} SnapshotQuantities(items: seq<OrderItem>, ls: seq<CartLine>, ps: map<ProductId, Product>, p: ProductId)
    requires IsSnapshot(items, ls, ps)
    ensures ItemQuantityOf(items, p) == QuantityOf(ls, p)
  {
    if ls != [] {
      SnapshotQuantities(items[..|items| - 1], ls[..|ls| - 1], ps, p);
    }
  }

  /** Cancelling restores exactly what checkout took: incrementing by the
      order's items after decrementing by the cart's lines gives back the
      catalog as it was. */
  lemma CancelRestoresCheckout(ps: map<ProductId, Product>, ls: seq<CartLine>, items: seq<OrderItem>, catalog: map<ProductId, Product>)
    requires IsSnapshot(items, ls, catalog)
    ensures Restored(Decremented(ps, ls), items) == ps
  {
    var after := Restored(Decremented(ps, ls), items);
    forall p | p in ps
      ensures after[p] == ps[p]
    {
      DecrementedAt(ps, ls, p);
      RestoredAt(Decremented(ps, ls), items, p);
      SnapshotQuantities(items, ls, catalog, p);
    }
  }

  // ---------------------------------------------------------------------
  // Availability

  /** The line's product exists and has at least the line's quantity in stock. */
  predicate Available(l: CartLine, ps: map<ProductId, Product>)
  {
    l.product in ps && ps[l.product].stock >= l.quantity
  }

  /** With one line per product and every line available, checkout leaves
      each ordered product with its stock less the line's quantity, which is
      never negative; products not in the cart keep their stock. */
  lemma CheckoutStock(ps: map<ProductId, Product>, ls: seq<CartLine>)
    requires UniqueProducts(ls)
    requires forall i :: 0 <= i < |ls| ==> Available(ls[i], ps)
    ensures forall i :: 0 <= i < |ls| ==>
      && ls[i].product in ps
      && Decremented(ps, ls)[ls[i].product].stock == ps[ls[i].product].stock - ls[i].quantity >= 0
    ensures forall p :: p in ps && (forall i :: 0 <= i < |ls| ==> ls[i].product != p) ==>
      Decremented(ps, ls)[p] == ps[p]
  {
    forall i | 0 <= i < |ls|
      ensures Decremented(ps, ls)[ls[i].product].stock == ps[ls[i].product].stock - ls[i].quantity
    {
      DecrementedAt(ps, ls, ls[i].product);
      QuantityOfUnique(ls, i);
    }
    forall p | p in ps && (forall i :: 0 <= i < |ls| ==> ls[i].product != p)
      ensures Decremented(ps, ls)[p] == ps[p]
    {
      DecrementedAt(ps, ls, p);
      QuantityOfAbsent(ls, p);
    }
  }

  /** No product's stock is below zero. */
  predicate StockNonNegative(ps: map<ProductId, Product>)
  {
    forall p :: p in ps ==> ps[p].stock >= 0
  }

  /** Checkout of a cart with one line per product, each line available,
      never takes a stock below zero. */
  lemma CheckoutKeepsStockNonNegative(ps: map<ProductId, Product>, ls: seq<CartLine>)
    requires UniqueProducts(ls)
    requires forall i :: 0 <= i < |ls| ==> Available(ls[i], ps)
    ensures StockNonNegative(ps) ==> StockNonNegative(Decremented(ps, ls))
  {
    CheckoutStock(ps, ls);
    forall p | p in Decremented(ps, ls) && StockNonNegative(ps)
      ensures Decremented(ps, ls)[p].stock >= 0
    {
      if exists i :: 0 <= i < |ls| && ls[i].product == p {
        var i :| 0 <= i < |ls| && ls[i].product == p;
      }
    }
  }

  /** Items of non-negative quantity hold a non-negative number of units of
      any product. */
  lemma {:induction false} ItemQuantityNonNegative(items: seq<OrderItem>, p: ProductId)
    requires forall i :: 0 <= i < |items| ==> items[i].quantity >= 0
    ensures ItemQuantityOf(items, p) >= 0
  {
    if items != [] {
      ItemQuantityNonNegative(items[..|items| - 1], p);
    }
  }

  /** Cancellation of an order whose items hold non-negative quantities never
      takes a stock below zero. */
  lemma CancelKeepsStockNonNegative(ps: map<ProductId, Product>, items: seq<OrderItem>)
    requires forall i :: 0 <= i < |items| ==> items[i].quantity >= 0
    ensures StockNonNegative(ps) ==> StockNonNegative(Restored(ps, items))
  {
    forall p | p in Restored(ps, items) && StockNonNegative(ps)
      ensures Restored(ps, items)[p].stock >= 0
    {
      RestoredAt(ps, items, p);
      ItemQuantityNonNegative(items, p);
    }
  }

  /** The availability check checkout runs before it opens its transaction:
      the index of the first line whose product lacks the stock, if any. */
  method FindShortLine(ls: seq<CartLine>, ps: map<ProductId, Product>) returns (k: Option<nat>)
    ensures k.Some? ==> k.value < |ls| && !Available(ls[k.value], ps)
    ensures k.Some? ==> forall j :: 0 <= j < k.value ==> Available(ls[j], ps)
    ensures k.None? <==> forall j :: 0 <= j < |ls| ==> Available(ls[j], ps)
  {
    var i := 0;
    while i < |ls|
      invariant 0 <= i <= |ls|
      invariant forall j :: 0 <= j < i ==> Available(ls[j], ps)
    {
      if !Available(ls[i], ps) {
        return Some(i);
      }
      i := i + 1;
    }
    return None;
  }
}
