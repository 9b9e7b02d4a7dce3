/** The product service's tables and its controller actions: the cart
    actions, checkout, cancellation, the administrative status change, stock
    adjustment and product creation and update. Each action either fails with
    a named error and leaves every table as it was, or applies its whole
    update. */
module Shop {
  import opened Domain
  import opened CartModel
  import opened Pricing
  import opened Catalog
  import opened Ledger
  import opened Lifecycle

  /** Every line refers to a catalog product, holds at least one unit at a
      non-negative captured price and has a row id already handed out; no
      product and no row id appears twice. */
  predicate LinesValid(ls: seq<CartLine>, catalog: set<ProductId>, nextItemId: ItemId)
  {
    && UniqueProducts(ls)
    && UniqueIds(ls)
    && forall i :: 0 <= i < |ls| ==>
      && ls[i].product in catalog
      && ls[i].quantity >= 1
      && ls[i].price >= 0.0
      && ls[i].id < nextItemId
  }

  /** Every item of the order refers to a catalog product and holds at
      least one unit. */
  predicate OrderValid(o: Order, catalog: set<ProductId>)
  {
    forall i :: 0 <= i < |o.items| ==> o.items[i].product in catalog && o.items[i].quantity >= 1
  }

  /** The order's money adds up: the subtotal is the sum of the items'
      amounts and the total is subtotal plus tax plus shipping. */
  predicate Balanced(o: Order)
  {
    && o.subtotal == ItemsTotal(o.items)
    && o.totalAmount == o.subtotal + o.taxAmount + o.shippingAmount
  }

  /** The same order as far as validity goes: items and money unchanged. */
  predicate SameContents(o: Order, o': Order)
  {
    && o.items == o'.items
    && o.subtotal == o'.subtotal && o.taxAmount == o'.taxAmount
    && o.shippingAmount == o'.shippingAmount && o.totalAmount == o'.totalAmount
  }

  /** A cart as the cart actions return it: its lines with the derived
      `total` and `total_quantity`. */
  datatype CartView = CartView(lines: seq<CartLine>, total: real, totalQuantity: int)

  function View(ls: seq<CartLine>): (v: CartView)
    ensures v.lines == ls
  {
    CartView(ls, Total(ls), TotalQuantity(ls))
  }

  /** `carts` keeps every cart of `before` and has gained at most one, for
      `owner`. */
  predicate CartsExtended(before: map<Owner, CartId>, carts: map<Owner, CartId>, owner: Owner)
  {
    && (forall o :: o in before ==> o in carts && carts[o] == before[o])
    && (forall o :: o in carts ==> o in before || o == owner)
  }

  // ---------------------------------------------------------------------
  // The invariant of the tables, one predicate per table

  /** Product ids below the counter are taken; prices are non-negative and
      skus unique, as creation and update validate them. */
  predicate CatalogValid(products: map<ProductId, Product>, nextProductId: ProductId)
  {
    && (forall id :: id in products ==> id < nextProductId && products[id].price >= 0.0)
    && SkusUnique(products)
  }

  function SkuOf(products: map<ProductId, Product>, id: ProductId): string
    requires id in products
  {
    products[id].sku
  }

  /** No two products share a sku. */
  predicate SkusUnique(products: map<ProductId, Product>)
  {
    forall id, id' :: id in products && id' in products && id != id' ==> SkuOf(products, id) != SkuOf(products, id')
  }

  /** Each owner key has one cart, and no two keys share a cart; cart ids
      below the counter are taken. */
  predicate CartsValid(carts: map<Owner, CartId>, lines: map<CartId, seq<CartLine>>, nextCartId: CartId)
  {
    && (forall o :: o in carts ==> carts[o] in lines)
    && (forall o, o' :: o in carts && o' in carts && carts[o] == carts[o'] ==> o == o')
    && (forall c :: c in lines ==> c < nextCartId)
  }

  predicate AllLinesValid(lines: map<CartId, seq<CartLine>>, catalog: set<ProductId>, nextItemId: ItemId)
  {
    forall c :: c in lines ==> LinesValid(lines[c], catalog, nextItemId)
  }

  predicate OrdersValid(orders: map<OrderId, Order>, catalog: set<ProductId>, nextOrderId: OrderId)
  {
    forall id :: id in orders ==> id < nextOrderId && OrderValid(orders[id], catalog)
  }

  /** The lines of `owner`'s cart; an owner without a cart has none. */
  function LinesOf(carts: map<Owner, CartId>, lines: map<CartId, seq<CartLine>>, owner: Owner): seq<CartLine>
  {
    if owner in carts && carts[owner] in lines then lines[carts[owner]] else []
  }

  /** Replacing the lines of an existing cart keeps the carts valid. */
  lemma CartsValidSet(carts: map<Owner, CartId>, lines: map<CartId, seq<CartLine>>, nextCartId: CartId, c: CartId, ls: seq<CartLine>)
    requires CartsValid(carts, lines, nextCartId) && c in lines
    ensures CartsValid(carts, lines[c := ls], nextCartId)
  {
  }

  /** Replacing the lines of one owner's cart changes what that owner sees
      and nothing any other owner sees. */
  lemma LinesOfSet(carts: map<Owner, CartId>, lines: map<CartId, seq<CartLine>>, nextCartId: CartId, owner: Owner, ls: seq<CartLine>)
    requires CartsValid(carts, lines, nextCartId) && owner in carts
    ensures CartsValid(carts, lines[carts[owner] := ls], nextCartId)
    ensures LinesOf(carts, lines[carts[owner] := ls], owner) == ls
    ensures forall o :: o != owner ==> LinesOf(carts, lines[carts[owner] := ls], o) == LinesOf(carts, lines, o)
  {
  }

  /** Whatever cart an owner has, its lines are valid. */
  lemma LinesOfValid(carts: map<Owner, CartId>, lines: map<CartId, seq<CartLine>>, nextCartId: CartId, catalog: set<ProductId>, n: ItemId, owner: Owner)
    requires CartsValid(carts, lines, nextCartId) && AllLinesValid(lines, catalog, n)
    ensures LinesValid(LinesOf(carts, lines, owner), catalog, n)
  {
  }

  /** Replacing one cart's lines by valid ones keeps all lines valid. */
  lemma AllLinesValidSet(lines: map<CartId, seq<CartLine>>, catalog: set<ProductId>, n: ItemId, c: CartId, ls: seq<CartLine>)
    requires AllLinesValid(lines, catalog, n) && LinesValid(ls, catalog, n)
    ensures AllLinesValid(lines[c := ls], catalog, n)
  {
  }

  /** Raising the next row id keeps every line valid. */
  lemma LinesValidLater(ls: seq<CartLine>, catalog: set<ProductId>, n: ItemId, n': ItemId)
    requires LinesValid(ls, catalog, n) && n <= n'
    ensures LinesValid(ls, catalog, n')
  {
  }

  lemma AllLinesValidLater(lines: map<CartId, seq<CartLine>>, catalog: set<ProductId>, n: ItemId, n': ItemId)
    requires AllLinesValid(lines, catalog, n) && n <= n'
    ensures AllLinesValid(lines, catalog, n')
  {
    forall c | c in lines
      ensures LinesValid(lines[c], catalog, n')
    {
      LinesValidLater(lines[c], catalog, n, n');
    }
  }

  /** Valid lines hold a non-negative number of units of any product. */
  lemma QuantityOfValid(ls: seq<CartLine>, catalog: set<ProductId>, n: ItemId, p: ProductId)
    requires LinesValid(ls, catalog, n)
    ensures QuantityOf(ls, p) >= 0
  {
    match IndexOfProduct(ls, p)
    case Some(i) => QuantityOfUnique(ls, i);
    case None => QuantityOfAbsent(ls, p);
  }

  /** Setting the quantity of one line to a positive value keeps the lines
      valid. */
  lemma RequantifiedValid(ls: seq<CartLine>, catalog: set<ProductId>, n: ItemId, i: nat, q: int)
    requires LinesValid(ls, catalog, n) && i < |ls| && q >= 1
    ensures LinesValid(ls[i := ls[i].(quantity := q)], catalog, n)
  {
  }

  /** Appending a line for a product the lines do not hold, with a fresh row
      id, keeps the lines valid. */
  lemma AppendedValid(ls: seq<CartLine>, catalog: set<ProductId>, n: ItemId, l: CartLine)
    requires LinesValid(ls, catalog, n)
    requires forall j :: 0 <= j < |ls| ==> ls[j].product != l.product
    requires l.product in catalog && l.quantity >= 1 && l.price >= 0.0 && l.id == n
    ensures LinesValid(ls + [l], catalog, n + 1)
  {
  }

  /** Deleting one line keeps the lines valid. */
  lemma RemovedValid(ls: seq<CartLine>, catalog: set<ProductId>, n: ItemId, i: nat)
    requires LinesValid(ls, catalog, n) && i < |ls|
    ensures LinesValid(ls[..i] + ls[i + 1..], catalog, n)
  {
    var rest := ls[..i] + ls[i + 1..];
    assert forall j :: 0 <= j < |rest| ==> rest[j] == (if j < i then ls[j] else ls[j + 1]);
  }

  /** `after` is `before` with only stock levels changed. */
  predicate OnlyStockChanged(before: map<ProductId, Product>, after: map<ProductId, Product>)
  {
    && after.Keys == before.Keys
    && forall id :: id in before ==> after[id] == before[id].(stock := after[id].stock)
  }

  lemma CatalogValidStock(before: map<ProductId, Product>, after: map<ProductId, Product>, n: ProductId)
    requires CatalogValid(before, n) && OnlyStockChanged(before, after)
    ensures CatalogValid(after, n)
  {
  }

  /** Checkout changes stock levels only. */
  lemma DecrementedStockOnly(ps: map<ProductId, Product>, ls: seq<CartLine>)
    ensures OnlyStockChanged(ps, Decremented(ps, ls))
  {
    forall id | id in ps
      ensures Decremented(ps, ls)[id] == ps[id].(stock := Decremented(ps, ls)[id].stock)
    {
      DecrementedAt(ps, ls, id);
    }
  }

  /** Cancellation changes stock levels only. */
  lemma RestoredStockOnly(ps: map<ProductId, Product>, items: seq<OrderItem>)
    ensures OnlyStockChanged(ps, Restored(ps, items))
  {
    forall id | id in ps
      ensures Restored(ps, items)[id] == ps[id].(stock := Restored(ps, items)[id].stock)
    {
      RestoredAt(ps, items, id);
    }
  }

  /** A larger catalog keeps lines and orders valid. */
  lemma CatalogGrows(lines: map<CartId, seq<CartLine>>, orders: map<OrderId, Order>, catalog: set<ProductId>, catalog': set<ProductId>, n: ItemId, m: OrderId)
    requires AllLinesValid(lines, catalog, n) && OrdersValid(orders, catalog, m) && catalog <= catalog'
    ensures AllLinesValid(lines, catalog', n) && OrdersValid(orders, catalog', m)
  {
    forall c | c in lines
      ensures LinesValid(lines[c], catalog', n)
    {
    }
  }

  /** The order written for a valid cart is valid. */
  lemma SnapshotValid(items: seq<OrderItem>, ls: seq<CartLine>, ps: map<ProductId, Product>, n: ItemId, o: Order)
    requires IsSnapshot(items, ls, ps) && LinesValid(ls, ps.Keys, n) && o.items == items
    ensures OrderValid(o, ps.Keys)
  {
  }

  /** The order written for a cart, with the cart total as subtotal and the
      total summed from its parts, balances. */
  lemma SnapshotBalanced(items: seq<OrderItem>, ls: seq<CartLine>, ps: map<ProductId, Product>, o: Order)
    requires IsSnapshot(items, ls, ps) && o.items == items
    requires o.subtotal == Total(ls) && o.totalAmount == o.subtotal + o.taxAmount + o.shippingAmount
    ensures Balanced(o)
  {
    SnapshotTotal(items, ls, ps);
  }

  /** Every order balances. */
  predicate OrdersBalanced(orders: map<OrderId, Order>)
  {
    forall id :: id in orders ==> Balanced(orders[id])
  }

  /** Adding a balanced order keeps all orders balanced. */
  lemma OrdersBalancedAdd(orders: map<OrderId, Order>, m: OrderId, o: Order)
    requires OrdersBalanced(orders) && Balanced(o)
    ensures OrdersBalanced(orders[m := o])
  {
  }

  /** Changing an order but not its items or amounts keeps all orders balanced. */
  lemma OrdersBalancedSet(orders: map<OrderId, Order>, id: OrderId, o: Order)
    requires OrdersBalanced(orders) && id in orders && SameContents(o, orders[id])
    ensures OrdersBalanced(orders[id := o])
  {
  }

  /** Adding an order under a fresh id keeps the orders valid. */
  lemma OrdersValidAdd(orders: map<OrderId, Order>, catalog: set<ProductId>, m: OrderId, o: Order)
    requires OrdersValid(orders, catalog, m) && OrderValid(o, catalog)
    ensures OrdersValid(orders[m := o], catalog, m + 1)
  {
  }

  /** Changing an order but not its items or amounts keeps the orders valid. */
  lemma OrdersValidSet(orders: map<OrderId, Order>, catalog: set<ProductId>, m: OrderId, id: OrderId, o: Order)
    requires OrdersValid(orders, catalog, m) && id in orders && SameContents(o, orders[id])
    ensures OrdersValid(orders[id := o], catalog, m)
  {
  }

  /** The checkout loop: one snapshot item per cart line, in order, each
      with the product's name and sku as loaded with the cart, the line's
      quantity and captured price and their product; and the catalog with
      each line's product decremented by the line's quantity. */
  method SnapshotAndDecrement(ls: seq<CartLine>, ps: map<ProductId, Product>) returns (items: seq<OrderItem>, catalog: map<ProductId, Product>)
    requires forall j :: 0 <= j < |ls| ==> ls[j].product in ps
    ensures IsSnapshot(items, ls, ps)
    ensures catalog == Decremented(ps, ls)
  {
    catalog := ps;
    items := [];
    var i := 0;
    while i < |ls|
      invariant 0 <= i <= |ls|
      invariant catalog == Decremented(ps, ls[..i])
      invariant IsSnapshot(items, ls[..i], ps)
    {
      var l := ls[i];
      var prod := ps[l.product];
      TimesIsProduct(l.quantity, l.price);
      items := items + [OrderItem(l.product, prod.name, prod.sku, l.quantity, l.price, l.quantity as real * l.price)];
      assert ls[..i + 1][..i] == ls[..i];
      catalog := catalog[l.product := catalog[l.product].(stock := catalog[l.product].stock - l.quantity)];
      i := i + 1;
    }
    assert ls[..i] == ls;
  }

  /** The cancellation loop: the catalog with each item's product
      incremented by the item's quantity. */
  method RestoreStock(ps: map<ProductId, Product>, items: seq<OrderItem>) returns (catalog: map<ProductId, Product>)
    requires forall j :: 0 <= j < |items| ==> items[j].product in ps
    ensures catalog == Restored(ps, items)
  {
    catalog := ps;
    var i := 0;
    while i < |items|
      invariant 0 <= i <= |items|
      invariant catalog == Restored(ps, items[..i])
    {
      var it := items[i];
      assert items[..i + 1][..i] == items[..i];
      catalog := catalog[it.product := catalog[it.product].(stock := catalog[it.product].stock + it.quantity)];
      i := i + 1;
    }
    assert items[..i] == items;
  }

  /** The order checkout writes for `user` from cart lines `ls` against
      catalog `ps`: pending, unpaid, unshipped, carrying the checkout details,
      one snapshot item per line, and the totals of the cart total. */
  predicate PlacedOrder(o: Order, user: UserId, details: CheckoutDetails, ls: seq<CartLine>, ps: map<ProductId, Product>)
  {
    && o.owner == user && o.status == Pending && o.paymentStatus == "pending" && o.details == details
    && o.shippedAt.None? && o.deliveredAt.None?
    && IsSnapshot(o.items, ls, ps)
    && ComputeTotals(Total(ls)) == OrderTotals(o.subtotal, o.taxAmount, o.shippingAmount, o.totalAmount)
  }

  /** The order checkout writes for `user`'s cart `ls`, and the catalog
      with the cart's quantities taken out of stock. */
  method DraftOrder(user: UserId, details: CheckoutDetails, ls: seq<CartLine>, ps: map<ProductId, Product>)
    returns (order: Order, catalog: map<ProductId, Product>)
    requires forall j :: 0 <= j < |ls| ==> ls[j].product in ps
    ensures PlacedOrder(order, user, details, ls, ps)
    ensures order.subtotal == Total(ls) && order.totalAmount == order.subtotal + order.taxAmount + order.shippingAmount
    ensures catalog == Decremented(ps, ls)
  {
    var totals := ComputeTotals(Total(ls));
    var items;
    items, catalog := SnapshotAndDecrement(ls, ps);
    order := Order(user, Pending, totals.subtotal, totals.tax, totals.shipping, totals.total,
                   details, "pending", None, None, items);
  }

  /** Committing a checkout of `owner`'s cart keeps every table valid. */
  lemma CheckoutKeepsValid(
    products: map<ProductId, Product>, nextProductId: ProductId,
    carts: map<Owner, CartId>, lines: map<CartId, seq<CartLine>>, nextCartId: CartId, nextItemId: ItemId,
    orders: map<OrderId, Order>, nextOrderId: OrderId,
    owner: Owner, items: seq<OrderItem>, catalog: map<ProductId, Product>, order: Order)
    requires CatalogValid(products, nextProductId) && CartsValid(carts, lines, nextCartId)
    requires AllLinesValid(lines, products.Keys, nextItemId) && OrdersValid(orders, products.Keys, nextOrderId)
    requires OrdersBalanced(orders)
    requires owner in carts
    requires IsSnapshot(items, lines[carts[owner]], products) && order.items == items
    requires order.subtotal == Total(lines[carts[owner]])
    requires order.totalAmount == order.subtotal + order.taxAmount + order.shippingAmount
    requires catalog == Decremented(products, lines[carts[owner]])
    ensures CatalogValid(catalog, nextProductId)
    ensures catalog.Keys == products.Keys
    ensures CartsValid(carts, lines[carts[owner] := []], nextCartId)
    ensures AllLinesValid(lines[carts[owner] := []], catalog.Keys, nextItemId)
    ensures OrdersValid(orders[nextOrderId := order], catalog.Keys, nextOrderId + 1)
    ensures OrdersBalanced(orders[nextOrderId := order])
    ensures LinesOf(carts, lines[carts[owner] := []], owner) == []
    ensures forall o :: o != owner ==> LinesOf(carts, lines[carts[owner] := []], o) == LinesOf(carts, lines, o)
  {
    var ls := lines[carts[owner]];
    DecrementedStockOnly(products, ls);
    CatalogValidStock(products, catalog, nextProductId);
    SnapshotValid(items, ls, products, nextItemId, order);
    OrdersValidAdd(orders, products.Keys, nextOrderId, order);
    SnapshotBalanced(items, ls, products, order);
    OrdersBalancedAdd(orders, nextOrderId, order);
    AllLinesValidSet(lines, products.Keys, nextItemId, carts[owner], []);
    LinesOfSet(carts, lines, nextCartId, owner, []);
  }

  class Store {
    var products: map<ProductId, Product>
    var nextProductId: ProductId
    /** The cart of each owner key (user id, else session id). */
    var carts: map<Owner, CartId>
    var nextCartId: CartId
    /** The items of each cart, in insertion order. */
    var lines: map<CartId, seq<CartLine>>
    var nextItemId: ItemId
    var orders: map<OrderId, Order>
    var nextOrderId: OrderId

    ghost predicate Valid()
      reads this
    {
      && CatalogValid(products, nextProductId)
      && CartsValid(carts, lines, nextCartId)
      && AllLinesValid(lines, products.Keys, nextItemId)
      && OrdersValid(orders, products.Keys, nextOrderId)
      && OrdersBalanced(orders)
    }

    ghost function CartOf(owner: Owner): seq<CartLine>
      reads this
    {
      LinesOf(carts, lines, owner)
    }

    /** An empty store. */
    constructor ()
      ensures Valid()
      ensures products == map[] && carts == map[] && lines == map[] && orders == map[]
    {
      products := map[];
      nextProductId := 0;
      carts := map[];
      nextCartId := 0;
      lines := map[];
      nextItemId := 0;
      orders := map[];
      nextOrderId := 0;
    }

    /** The owner's cart, created empty when the owner has none. A second call
        returns the same cart and changes nothing. */
    method GetOrCreateCart(owner: Owner) returns (cart: CartId)
      requires Valid()
      modifies this
      ensures Valid()
      ensures owner in carts && carts[owner] == cart && cart in lines
      ensures owner in old(carts) ==> cart == old(carts)[owner] && unchanged(this)
      ensures owner !in old(carts) ==>
        && cart !in old(lines)
        && carts == old(carts)[owner := cart]
        && lines == old(lines)[cart := []]
      ensures CartsExtended(old(carts), carts, owner)
      ensures forall o :: CartOf(o) == old(CartOf(o))
      ensures products == old(products) && orders == old(orders)
      ensures nextItemId == old(nextItemId) && nextOrderId == old(nextOrderId) && nextProductId == old(nextProductId)
    {
      if owner in carts {
        return carts[owner];
      }
      cart := nextCartId;
      carts := carts[owner := cart];
      lines := lines[cart := []];
      nextCartId := nextCartId + 1;
      assert AllLinesValid(lines, products.Keys, nextItemId) by {
        AllLinesValidSet(old(lines), products.Keys, nextItemId, cart, []);
      }
    }

    /** Adds `quantity` units of `product` to the owner's cart: the product
        must exist and be active, and its stock must cover the requested
        quantity, and, when the cart already holds the product, the merged
        quantity. A merge keeps the line's captured price; a new line
        captures the current catalog price. */
    method AddItem(owner: Owner, product: ProductId, quantity: int) returns (r: Result<CartView>)
      requires Valid()
      modifies this
      ensures Valid()
      ensures product !in old(products) || quantity < 1 ==> r == Err(InvalidInput)
      ensures product in old(products) && quantity >= 1 && !old(products)[product].active ==> r == Err(Inactive)
      ensures product in old(products) && quantity >= 1 && old(products)[product].active
        && old(products)[product].stock < QuantityOf(old(CartOf(owner)), product) + quantity
        ==> r == Err(InsufficientStock(product))
      ensures r.Ok? <==>
        && product in old(products) && quantity >= 1 && old(products)[product].active
        && QuantityOf(old(CartOf(owner)), product) + quantity <= old(products)[product].stock
      ensures r.Err? ==> unchanged(this)
      ensures r.Ok? ==>
        && CartOf(owner) == Added(old(CartOf(owner)), product, quantity, old(products)[product].price, old(nextItemId))
        && r.value == View(CartOf(owner))
      ensures r.Ok? ==>
        && products == old(products) && orders == old(orders)
        && CartsExtended(old(carts), carts, owner)
        && forall o :: o != owner ==> CartOf(o) == old(CartOf(o))
    {
      if product !in products || quantity < 1 {
        return Err(InvalidInput);
      }
      var prod := products[product];
      if !prod.active {
        return Err(Inactive);
      }
      if prod.stock < quantity {
        QuantityOfValid(CartOf(owner), products.Keys, nextItemId, product);
        return Err(InsufficientStock(product));
      }
      ghost var before := CartOf(owner);
      var cart := GetOrCreateCart(owner);
      ghost var tables := lines;
      assert tables[cart] == before by {
        assert tables[cart] == CartOf(owner);
      }
      var added := AddToCart(cart, product, quantity);
      match added {
        case Err(e) =>
          return Err(e);
        case Ok(ls) =>
          LinesOfSet(carts, tables, nextCartId, owner, ls);
          return Ok(View(ls));
      }
    }
    /** Merges `quantity` units of `product` into the cart's line for it, if
        the stock covers the merged quantity, or appends a new line at the
        current catalog price. */
    method AddToCart(cart: CartId, product: ProductId, quantity: int) returns (r: Result<seq<CartLine>>)
      requires Valid()
      requires cart in lines && product in products && quantity >= 1 && products[product].stock >= quantity
      modifies this
      ensures Valid()
      ensures r.Ok? <==> QuantityOf(old(lines)[cart], product) + quantity <= old(products)[product].stock
      ensures r.Err? ==> r == Err(InsufficientStock(product)) && unchanged(this)
      ensures r.Ok? ==>
        && r.value == Added(old(lines)[cart], product, quantity, old(products)[product].price, old(nextItemId))
        && lines == old(lines)[cart := r.value]
        && carts == old(carts) && products == old(products) && orders == old(orders)
        && nextCartId == old(nextCartId)
    {
      var prod := products[product];
      var ls := lines[cart];
      var id := nextItemId;
      var newLs: seq<CartLine>;
      match IndexOfProduct(ls, product) {
        case Some(i) =>
          QuantityOfUnique(ls, i);
          var newQuantity := ls[i].quantity + quantity;
          if prod.stock < newQuantity {
            return Err(InsufficientStock(product));
          }
          newLs := ls[i := ls[i].(quantity := newQuantity)];
          RequantifiedValid(ls, products.Keys, id, i, newQuantity);
        case None =>
          QuantityOfAbsent(ls, product);
          newLs := ls + [CartLine(id, product, quantity, prod.price)];
          nextItemId := nextItemId + 1;
          AppendedValid(ls, products.Keys, id, CartLine(id, product, quantity, prod.price));
          AllLinesValidLater(old(lines), products.Keys, id, id + 1);
      }
      lines := lines[cart := newLs];
      AllLinesValidSet(old(lines), products.Keys, nextItemId, cart, newLs);
      CartsValidSet(carts, old(lines), nextCartId, cart, newLs);
      assert newLs == Added(ls, product, quantity, prod.price, id);
      r := Ok(newLs);
    }

    /** Sets the quantity of the cart's line with row id `item` to exactly
        `quantity`, which must be at least one and covered by the product's
        stock; the product's active flag is not consulted. The cart is
        fetched, or created, before the line is looked up, so a failed lookup
        may still leave the owner with a new, empty cart. */
    method UpdateItem(owner: Owner, item: ItemId, quantity: int) returns (r: Result<CartView>)
      requires Valid()
      modifies this
      ensures Valid()
      ensures quantity < 1 ==> r == Err(InvalidInput) && unchanged(this)
      ensures quantity >= 1 && IndexOfItem(old(CartOf(owner)), item).None? ==> r == Err(NotFound)
      ensures quantity >= 1 && IndexOfItem(old(CartOf(owner)), item).Some? ==>
        var l := old(CartOf(owner))[IndexOfItem(old(CartOf(owner)), item).value];
        && l.product in old(products)
        && (r.Ok? <==> quantity <= old(products)[l.product].stock)
        && (r.Err? ==> r == Err(InsufficientStock(l.product)))
      ensures r.Ok? ==>
        var i := IndexOfItem(old(CartOf(owner)), item).value;
        && CartOf(owner) == old(CartOf(owner))[i := old(CartOf(owner))[i].(quantity := quantity)]
        && r.value == View(CartOf(owner))
      ensures r.Err? ==> CartOf(owner) == old(CartOf(owner))
      ensures forall o :: o != owner ==> CartOf(o) == old(CartOf(o))
      ensures CartsExtended(old(carts), carts, owner)
      ensures products == old(products) && orders == old(orders)
    {
      if quantity < 1 {
        return Err(InvalidInput);
      }
      var cart := GetOrCreateCart(owner);
      var ls := lines[cart];
      assert ls == old(CartOf(owner)) by {
        assert ls == CartOf(owner);
      }
      LinesOfValid(carts, lines, nextCartId, products.Keys, nextItemId, owner);
      match IndexOfItem(ls, item) {
        case None =>
          return Err(NotFound);
        case Some(i) =>
          var prod := products[ls[i].product];
          if prod.stock < quantity {
            return Err(InsufficientStock(ls[i].product));
          }
          var newLs := ls[i := ls[i].(quantity := quantity)];
          ghost var tables := lines;
          lines := lines[cart := newLs];
          RequantifiedValid(ls, products.Keys, nextItemId, i, quantity);
          AllLinesValidSet(tables, products.Keys, nextItemId, cart, newLs);
          LinesOfSet(carts, tables, nextCartId, owner, newLs);
          return Ok(View(newLs));
      }
    }

    /** Deletes the cart's line with row id `item`; every other line stays,
        in order. The cart is fetched, or created, first. */
    method RemoveItem(owner: Owner, item: ItemId) returns (r: Result<CartView>)
      requires Valid()
      modifies this
      ensures Valid()
      ensures r.Err? <==> IndexOfItem(old(CartOf(owner)), item).None?
      ensures r.Err? ==> r == Err(NotFound) && CartOf(owner) == old(CartOf(owner))
      ensures r.Ok? ==>
        var i := IndexOfItem(old(CartOf(owner)), item).value;
        && CartOf(owner) == old(CartOf(owner))[..i] + old(CartOf(owner))[i + 1..]
        && r.value == View(CartOf(owner))
      ensures forall o :: o != owner ==> CartOf(o) == old(CartOf(o))
      ensures CartsExtended(old(carts), carts, owner)
      ensures products == old(products) && orders == old(orders)
    {
      var cart := GetOrCreateCart(owner);
      var ls := lines[cart];
      assert ls == old(CartOf(owner)) by {
        assert ls == CartOf(owner);
      }
      LinesOfValid(carts, lines, nextCartId, products.Keys, nextItemId, owner);
      match IndexOfItem(ls, item) {
        case None =>
          return Err(NotFound);
        case Some(i) =>
          var newLs := ls[..i] + ls[i + 1..];
          ghost var tables := lines;
          lines := lines[cart := newLs];
          RemovedValid(ls, products.Keys, nextItemId, i);
          AllLinesValidSet(tables, products.Keys, nextItemId, cart, newLs);
          LinesOfSet(carts, tables, nextCartId, owner, newLs);
          return Ok(View(newLs));
      }
    }

    /** Deletes every line of the owner's cart, creating the cart first when
        the owner has none. */
    method Clear(owner: Owner)
      requires Valid()
      modifies this
      ensures Valid()
      ensures CartOf(owner) == []
      ensures old(owner in carts && CartOf(owner) == []) ==> unchanged(this)
      ensures forall o :: o != owner ==> CartOf(o) == old(CartOf(o))
      ensures CartsExtended(old(carts), carts, owner)
      ensures products == old(products) && orders == old(orders)
    {
      var cart := GetOrCreateCart(owner);
      ghost var tables := lines;
      if lines[cart] == [] {
        assert tables[cart := []] == tables;
      }
      lines := lines[cart := []];
      AllLinesValidSet(tables, products.Keys, nextItemId, cart, []);
      LinesOfSet(carts, tables, nextCartId, owner, []);
    }

    // -------------------------------------------------------------------
    // Orders

    /** Turns the user's cart into a pending order. The cart must hold at
        least one line, and every line's product must have the line's
        quantity in stock; the first line that lacks it is reported and
        nothing changes. */
    method Checkout(user: UserId, details: CheckoutDetails) returns (r: Result<OrderId>)
      requires Valid()
      modifies this
      ensures Valid()
      ensures r.Err? ==> unchanged(this)
      ensures old(CartOf(User(user))) == [] ==> r == Err(EmptyCart)
      ensures old(CartOf(User(user))) != [] ==>
        (r.Ok? <==> forall j :: 0 <= j < |old(CartOf(User(user)))| ==> Available(old(CartOf(User(user)))[j], old(products)))
      ensures old(CartOf(User(user))) != [] && r.Err? ==>
        exists k :: 0 <= k < |old(CartOf(User(user)))|
          && !Available(old(CartOf(User(user)))[k], old(products))
          && (forall j :: 0 <= j < k ==> Available(old(CartOf(User(user)))[j], old(products)))
          && r == Err(InsufficientStock(old(CartOf(User(user)))[k].product))
      ensures r.Ok? ==>
        && r.value == old(nextOrderId) && r.value !in old(orders) && r.value in orders
        && orders == old(orders)[r.value := orders[r.value]]
        && PlacedOrder(orders[r.value], user, details, old(CartOf(User(user))), old(products))
      ensures r.Ok? ==> products == Decremented(old(products), old(CartOf(User(user))))
      ensures r.Ok? ==> UniqueProducts(old(CartOf(User(user))))
      ensures r.Ok? && StockNonNegative(old(products)) ==> StockNonNegative(products)
      ensures r.Ok? ==>
        && CartOf(User(user)) == []
        && carts == old(carts)
        && forall o :: o != User(user) ==> CartOf(o) == old(CartOf(o))
    {
      var owner := User(user);
      if owner !in carts || lines[carts[owner]] == [] {
        return Err(EmptyCart);
      }
      var ls := lines[carts[owner]];
      assert ls == CartOf(owner);
      var short := FindShortLine(ls, products);
      if short.Some? {
        return Err(InsufficientStock(ls[short.value].product));
      }
      LinesOfValid(carts, lines, nextCartId, products.Keys, nextItemId, owner);
      CheckoutKeepsStockNonNegative(products, ls);
      var id := PlaceOrder(user, details, ls);
      r := Ok(id);
    }

    /** The transaction of checkout, once every line has passed the stock
        check: the order is written with the cart's totals and one snapshot
        item per line, each product's stock drops by its line's quantity and
        the cart is emptied, all at once. */
    method PlaceOrder(user: UserId, details: CheckoutDetails, ls: seq<CartLine>) returns (id: OrderId)
      requires Valid()
      requires User(user) in carts && ls == CartOf(User(user))
      requires forall j :: 0 <= j < |ls| ==> Available(ls[j], products)
      modifies this
      ensures Valid()
      ensures id == old(nextOrderId) && id !in old(orders) && id in orders
      ensures orders == old(orders)[id := orders[id]]
      ensures PlacedOrder(orders[id], user, details, ls, old(products))
      ensures products == Decremented(old(products), ls)
      ensures UniqueProducts(ls)
      ensures CartOf(User(user)) == [] && carts == old(carts)
      ensures forall o :: o != User(user) ==> CartOf(o) == old(CartOf(o))
    {
      var owner := User(user);
      var cart := carts[owner];
      LinesOfValid(carts, lines, nextCartId, products.Keys, nextItemId, owner);
      var order, catalog := DraftOrder(user, details, ls, products);
      CheckoutKeepsValid(products, nextProductId, carts, lines, nextCartId, nextItemId, orders, nextOrderId, owner, order.items, catalog, order);
      id := nextOrderId;
      Commit(catalog, lines[cart := []], orders[nextOrderId := order], nextOrderId + 1);
    }

    /** Writes a new catalog, new cart lines, new orders and the next order id
        at once; this is where every order operation re-establishes `Valid()`. */
    method Commit(catalog: map<ProductId, Product>, lines': map<CartId, seq<CartLine>>, orders': map<OrderId, Order>,
                  nextOrderId': OrderId)
      requires CatalogValid(catalog, nextProductId) && CartsValid(carts, lines', nextCartId)
      requires AllLinesValid(lines', catalog.Keys, nextItemId)
      requires OrdersValid(orders', catalog.Keys, nextOrderId') && OrdersBalanced(orders')
      modifies this
      ensures Valid()
      ensures products == catalog && lines == lines' && orders == orders' && nextOrderId == nextOrderId'
      ensures carts == old(carts) && nextProductId == old(nextProductId) && nextCartId == old(nextCartId)
      ensures nextItemId == old(nextItemId)
    {
      products, lines, orders, nextOrderId := catalog, lines', orders', nextOrderId';
    }

    /** Cancels one of the user's own orders, which must be pending or
        processing: every item's quantity goes back into its product's stock
        and the order becomes cancelled, all at once. */
    method Cancel(user: UserId, id: OrderId) returns (r: Result<()>)
      requires Valid()
      modifies this
      ensures Valid()
      ensures id !in old(orders) || old(orders)[id].owner != user ==> r == Err(NotFound)
      ensures id in old(orders) && old(orders)[id].owner == user && !Cancellable(old(orders)[id].status) ==> r == Err(InvalidState)
      ensures r.Ok? <==> id in old(orders) && old(orders)[id].owner == user && Cancellable(old(orders)[id].status)
      ensures r.Err? ==> unchanged(this)
      ensures r.Ok? ==>
        && products == Restored(old(products), old(orders)[id].items)
        && orders == old(orders)[id := old(orders)[id].(status := Cancelled)]
        && carts == old(carts) && lines == old(lines)
      ensures r.Ok? && StockNonNegative(old(products)) ==> StockNonNegative(products)
    {
      if id !in orders || orders[id].owner != user {
        return Err(NotFound);
      }
      var order := orders[id];
      if !(order.status == Pending || order.status == Processing) {
        return Err(InvalidState);
      }
      var items := order.items;
      var catalog := RestoreStock(products, items);
      CancelKeepsStockNonNegative(products, items);
      RestoredStockOnly(products, items);
      CatalogValidStock(products, catalog, nextProductId);
      OrdersValidSet(orders, products.Keys, nextOrderId, id, order.(status := Cancelled));
      OrdersBalancedSet(orders, id, order.(status := Cancelled));
      Commit(catalog, lines, orders[id := order.(status := Cancelled)], nextOrderId);
      r := Ok(());
    }

    /** The administrative status change: the status must be one of the five
        names; the order's status is replaced, and `shipped_at` or
        `delivered_at` is stamped with `now` when entering that status for
        the first time. Stock is never touched, whatever the old and new
        statuses are. */
    method UpdateStatus(id: OrderId, status: string, now: Time) returns (r: Result<Order>)
      requires Valid()
      modifies this
      ensures Valid()
      ensures ParseStatus(status).None? ==> r == Err(InvalidInput)
      ensures ParseStatus(status).Some? && id !in old(orders) ==> r == Err(NotFound)
      ensures r.Ok? <==> ParseStatus(status).Some? && id in old(orders)
      ensures r.Err? ==> unchanged(this)
      ensures r.Ok? ==>
        && r.value == StatusUpdated(old(orders)[id], ParseStatus(status).value, now)
        && orders == old(orders)[id := r.value]
        && products == old(products) && carts == old(carts) && lines == old(lines)
    {
      var st := ParseStatus(status);
      if st.None? {
        return Err(InvalidInput);
      }
      if id !in orders {
        return Err(NotFound);
      }
      var order := orders[id].(status := st.value);
      if st.value == Shipped && order.shippedAt.None? {
        order := order.(shippedAt := Some(now));
      } else if st.value == Delivered && order.deliveredAt.None? {
        order := order.(deliveredAt := Some(now));
      }
      OrdersValidSet(orders, products.Keys, nextOrderId, id, order);
      OrdersBalancedSet(orders, id, order);
      Commit(products, lines, orders[id := order], nextOrderId);
      r := Ok(order);
    }

    // -------------------------------------------------------------------
    // Products

    /** Adjusts a product's stock by `operation`: `add` adds `quantity`
        without bound, `subtract` takes it away but not below zero, `set`
        replaces the stock by `quantity`, or zero when negative. */
    method UpdateStock(id: ProductId, quantity: int, operation: string) returns (r: Result<Product>)
      requires Valid()
      modifies this
      ensures Valid()
      ensures id !in old(products) ==> r == Err(NotFound)
      ensures id in old(products) && ParseStockOp(operation).None? ==> r == Err(InvalidInput)
      ensures r.Ok? <==> id in old(products) && ParseStockOp(operation).Some?
      ensures r.Err? ==> unchanged(this)
      ensures r.Ok? ==>
        && r.value == old(products)[id].(stock := ApplyStockOp(ParseStockOp(operation).value, old(products)[id].stock, quantity))
        && products == old(products)[id := r.value]
        && carts == old(carts) && lines == old(lines) && orders == old(orders)
    {
      if id !in products {
        return Err(NotFound);
      }
      var prod := products[id];
      var op := ParseStockOp(operation);
      if op.None? {
        return Err(InvalidInput);
      }
      match op.value {
        case Add =>
          prod := prod.(stock := prod.stock + quantity);
        case Subtract =>
          prod := prod.(stock := if prod.stock - quantity > 0 then prod.stock - quantity else 0);
        case Set =>
          prod := prod.(stock := if quantity > 0 then quantity else 0);
      }
      assert OnlyStockChanged(products, products[id := prod]);
      CatalogValidStock(products, products[id := prod], nextProductId);
      products := products[id := prod];
      r := Ok(prod);
    }

    /** Creates a product under a fresh id, once its price and stock are
        non-negative and its sku unused; `active` defaults to true. */
    method CreateProduct(p: NewProduct) returns (r: Result<ProductId>)
      requires Valid()
      modifies this
      ensures Valid()
      ensures r.Ok? <==> ValidNewProduct(old(products), p)
      ensures r.Err? ==> r == Err(InvalidInput) && unchanged(this)
      ensures r.Ok? ==>
        && r.value !in old(products)
        && products == old(products)[r.value := Created(p)]
        && carts == old(carts) && lines == old(lines) && orders == old(orders)
    {
      if !(p.price >= 0.0 && p.stock >= 0 && SkuFree(products, p.sku, None)) {
        return Err(InvalidInput);
      }
      var id := nextProductId;
      CatalogGrows(lines, orders, products.Keys, products.Keys + {id}, nextItemId, nextOrderId);
      assert products[id := Created(p)].Keys == products.Keys + {id};
      products := products[id := Created(p)];
      nextProductId := nextProductId + 1;
      r := Ok(id);
    }

    /** Replaces the fields a patch carries, once the product exists and the
        patch passes validation: price and stock non-negative, sku unused by
        any other product. */
    method UpdateProduct(id: ProductId, patch: ProductPatch) returns (r: Result<Product>)
      requires Valid()
      modifies this
      ensures Valid()
      ensures id !in old(products) ==> r == Err(NotFound)
      ensures id in old(products) && !ValidPatch(old(products), id, patch) ==> r == Err(InvalidInput)
      ensures r.Ok? <==> id in old(products) && ValidPatch(old(products), id, patch)
      ensures r.Err? ==> unchanged(this)
      ensures r.Ok? ==>
        && r.value == Patched(old(products)[id], patch)
        && products == old(products)[id := r.value]
        && carts == old(carts) && lines == old(lines) && orders == old(orders)
    {
      if id !in products {
        return Err(NotFound);
      }
      if !ValidPatch(products, id, patch) {
        return Err(InvalidInput);
      }
      var prod := Patched(products[id], patch);
      PatchedBounds(products, id, products[id], patch);
      assert products[id := prod].Keys == products.Keys;
      products := products[id := prod];
      r := Ok(prod);
    }

    // -------------------------------------------------------------------
    // Sequences of actions

    /** A cancellation straight after checkout gives every product back the
        stock checkout took: the catalog is as it was before. */
    method CheckoutThenCancel(user: UserId, details: CheckoutDetails) returns (r: Result<OrderId>)
      requires Valid()
      modifies this
      ensures Valid()
      ensures r.Err? ==> unchanged(this)
      ensures r.Ok? ==>
        && products == old(products)
        && r.value in orders && orders[r.value].status == Cancelled
        && CartOf(User(user)) == []
    {
      ghost var ps := products;
      ghost var ls := CartOf(User(user));
      r := Checkout(user, details);
      if r.Ok? {
        ghost var items := orders[r.value].items;
        var cancelled := Cancel(user, r.value);
        assert cancelled.Ok?;
        CancelRestoresCheckout(ps, ls, items, ps);
      }
    }

    /** Once an order is cancelled, cancelling it again fails and changes
        nothing. */
    method CancelTwice(user: UserId, id: OrderId) returns (first: Result<()>, second: Result<()>)
      requires Valid()
      modifies this
      ensures Valid()
      ensures first.Ok? ==> second == Err(InvalidState)
      ensures first.Err? ==> second == first && unchanged(this)
    {
      first := Cancel(user, id);
      second := Cancel(user, id);
    }

    /** The status change accepts `pending` for a cancelled order, so an
        order cancelled, reopened and cancelled again has its items' stock
        given back twice. */
    method CancelReopenCancel(user: UserId, id: OrderId, now: Time) returns (r: Result<()>)
      requires Valid()
      modifies this
      ensures Valid()
      ensures id in old(orders) && old(orders)[id].owner == user && Cancellable(old(orders)[id].status) ==>
        && r.Ok?
        && products == Restored(Restored(old(products), old(orders)[id].items), old(orders)[id].items)
    {
      r := Cancel(user, id);
      if r.Ok? {
        var reopened := UpdateStatus(id, "pending", now);
        r := Cancel(user, id);
      }
    }

    /** A product with 5 in stock at price 10: adding 3 to an empty cart
        gives a total of 30 over 3 units, and adding 3 more fails, since the
        merged 6 exceeds the stock. */
    method AddBeyondStock(owner: Owner, product: ProductId) returns (first: Result<CartView>, second: Result<CartView>)
      requires Valid()
      requires product in products && products[product].stock == 5 && products[product].price == 10.0 && products[product].active
      requires CartOf(owner) == []
      modifies this
      ensures Valid()
      ensures first.Ok? && first.value.total == 30.0 && first.value.totalQuantity == 3
      ensures second == Err(InsufficientStock(product))
    {
      first := AddItem(owner, product, 3);
      AddedTotal([], product, 3, 10.0, old(nextItemId));
      AddedTotalQuantity([], product, 3, 10.0, old(nextItemId));
      AddedQuantityOf([], product, 3, 10.0, old(nextItemId), product);
      TimesIsProduct(3, 10.0);
      second := AddItem(owner, product, 3);
    }
  }
}
