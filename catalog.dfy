/** The pure parts of the product controller: the stock adjustment
    operations, the bounds a product must satisfy on create and update, and
    the active-only listing. */
module Catalog {
  import opened Domain

  datatype StockOp = Add | Subtract | Set

  /** The `operation` field of a stock adjustment: only `add`, `subtract`
      and `set` are accepted. */
  function ParseStockOp(s: string): (r: Option<StockOp>)
    ensures r.Some? <==> s == "add" || s == "subtract" || s == "set"
  {
    if s == "add" then Some(Add)
    else if s == "subtract" then Some(Subtract)
    else if s == "set" then Some(Set)
    else None
  }

  function StockOpName(op: StockOp): string
  {
    match op
    case Add => "add"
    case Subtract => "subtract"
    case Set => "set"
  }

  /** Parsing is the inverse of naming, in both directions. */
  lemma ParseStockOpInverse(op: StockOp, s: string)
    ensures ParseStockOp(StockOpName(op)) == Some(op)
    ensures ParseStockOp(s) == Some(op) ==> StockOpName(op) == s
  {
  }

  /** The stock level after adjusting `stock` by `op` with `quantity`. */
  function ApplyStockOp(op: StockOp, stock: int, quantity: int): (r: int)
    ensures op != Add ==> r >= 0
  {
    match op
    case Add => stock + quantity
    case Subtract => if stock - quantity > 0 then stock - quantity else 0
    case Set => if quantity > 0 then quantity else 0
  }

  /** `add` has no floor: a negative quantity can drive stock below zero. */
  lemma AddIsUnclamped(stock: int, quantity: int)
    ensures ApplyStockOp(Add, stock, quantity) - stock == quantity
    ensures quantity < -stock ==> ApplyStockOp(Add, stock, quantity) < 0
  {
  }

  /** `subtract` removes exactly `quantity` while stock lasts and otherwise
      bottoms out at zero. */
  lemma SubtractClamps(stock: int, quantity: int)
    ensures stock - quantity >= 0 ==> ApplyStockOp(Subtract, stock, quantity) == stock - quantity
    ensures stock - quantity < 0 ==> ApplyStockOp(Subtract, stock, quantity) == 0
  {
  }

  /** `set` ignores the old stock, so applying it twice is applying it once. */
  lemma SetIdempotent(stock: int, stock': int, quantity: int)
    ensures ApplyStockOp(Set, stock, quantity) == ApplyStockOp(Set, stock', quantity)
    ensures ApplyStockOp(Set, ApplyStockOp(Set, stock, quantity), quantity) == ApplyStockOp(Set, stock, quantity)
  {
  }

  /** On non-negative stock, `subtract` undoes `add` of a non-negative
      quantity. */
  lemma SubtractUndoesAdd(stock: int, quantity: int)
    requires stock >= 0 && quantity >= 0
    ensures ApplyStockOp(Subtract, ApplyStockOp(Add, stock, quantity), quantity) == stock
  {
  }

  // ---------------------------------------------------------------------
  // Product validation

  /** The fields of a product creation request. `active` is optional and
      defaults to true, as the column does. */
  datatype NewProduct = NewProduct(name: string, sku: string, price: real, stock: int, active: Option<bool>)

  /** The fields of an update request: each one is optional. */
  datatype ProductPatch = ProductPatch(
    name: Option<string>, sku: Option<string>, price: Option<real>,
    stock: Option<int>, active: Option<bool>)

  /** The sku is not used by any product other than `except`. */
  predicate SkuFree(products: map<ProductId, Product>, sku: string, except: Option<ProductId>)
  {
    forall id :: id in products && Some(id) != except ==> products[id].sku != sku
  }

  /** Creation accepts a price >= 0, a stock >= 0 and an unused sku. */
  predicate ValidNewProduct(products: map<ProductId, Product>, p: NewProduct)
  {
    p.price >= 0.0 && p.stock >= 0 && SkuFree(products, p.sku, None)
  }

  /** An update accepts the same bounds for the fields it carries, and a sku
      not used by another product. */
  predicate ValidPatch(products: map<ProductId, Product>, id: ProductId, p: ProductPatch)
  {
    && (p.price.Some? ==> p.price.value >= 0.0)
    && (p.stock.Some? ==> p.stock.value >= 0)
    && (p.sku.Some? ==> SkuFree(products, p.sku.value, Some(id)))
  }

  function Created(p: NewProduct): (r: Product)
    ensures r.active == (p.active != Some(false))
  {
    Product(p.name, p.sku, p.price, p.stock, if p.active.Some? then p.active.value else true)
  }

  /** The product with the fields the patch carries replaced. */
  function Patched(prod: Product, p: ProductPatch): (r: Product)
    ensures p == ProductPatch(None, None, None, None, None) ==> r == prod
  {
    Product(
      if p.name.Some? then p.name.value else prod.name,
      if p.sku.Some? then p.sku.value else prod.sku,
      if p.price.Some? then p.price.value else prod.price,
      if p.stock.Some? then p.stock.value else prod.stock,
      if p.active.Some? then p.active.value else prod.active)
  }

  /** A product created from validated input has a non-negative price and stock. */
  lemma CreatedBounds(products: map<ProductId, Product>, n: NewProduct)
    ensures ValidNewProduct(products, n) ==> Created(n).price >= 0.0 && Created(n).stock >= 0
  {
  }

  /** A validated patch keeps a non-negative price and stock non-negative. */
  lemma PatchedBounds(products: map<ProductId, Product>, id: ProductId, prod: Product, p: ProductPatch)
    ensures ValidPatch(products, id, p) && prod.price >= 0.0 ==> Patched(prod, p).price >= 0.0
    ensures ValidPatch(products, id, p) && prod.stock >= 0 ==> Patched(prod, p).stock >= 0
  {
  }

  // ---------------------------------------------------------------------
  // Listing

  /** The simple product listing: exactly the active products. */
  function ActiveProducts(products: map<ProductId, Product>): (r: map<ProductId, Product>)
    ensures forall id :: id in r <==> id in products && products[id].active
    ensures forall id :: id in r ==> r[id] == products[id]
  {
    map id | id in products && products[id].active :: products[id]
  }
}
