/** The cart model: the derived `total` and `total_quantity` of a cart's
    lines, the lookups the cart controller performs on them, and what adding
    a product does to the list of lines. */
module CartModel {
  import opened Domain

  // ---------------------------------------------------------------------
  // quantity × price

  /** `q` × `p`, written as repeated addition so that sums of line totals
      stay linear; `TimesIsProduct` shows it is the product. */
  function Times(q: int, p: real): real
    decreases if q < 0 then -q else q
  {
    if q == 0 then 0.0
    else if q > 0 then Times(q - 1, p) + p
    else Times(q + 1, p) - p
  }

  /** One more unit adds one more `p`, whatever the sign of `q`. */
  lemma TimesStep(q: int, p: real)
    ensures Times(q + 1, p) == Times(q, p) + p
  {
  }

  lemma {:induction false} TimesAdd(a: int, b: int, p: real)
    ensures Times(a + b, p) == Times(a, p) + Times(b, p)
    decreases if b < 0 then -b else b
  {
    if b > 0 {
      TimesAdd(a, b - 1, p);
      TimesStep(a + b - 1, p);
      TimesStep(b - 1, p);
    } else if b < 0 {
      TimesAdd(a, b + 1, p);
      TimesStep(a + b, p);
      TimesStep(b, p);
    }
  }

  /** `Times` is the product of the quantity and the price. */
  lemma {:induction false} TimesIsProduct(q: int, p: real)
    ensures Times(q, p) == q as real * p
    decreases if q < 0 then -q else q
  {
    if q > 0 {
      TimesIsProduct(q - 1, p);
    } else if q < 0 {
      TimesIsProduct(q + 1, p);
    }
  }

  lemma {:induction false} TimesNonNegative(q: int, p: real)
    requires q >= 0 && p >= 0.0
    ensures Times(q, p) >= 0.0
    decreases q
  {
    if q > 0 {
      TimesNonNegative(q - 1, p);
    }
  }

  // ---------------------------------------------------------------------
  // The derived attributes of a cart

  /** quantity × captured price of one line. */
  function LineTotal(l: CartLine): real
  {
    Times(l.quantity, l.price)
  }

  /** The cart's `total`: the sum of quantity × captured price over its lines. */
  function Total(ls: seq<CartLine>): real
  {
    if ls == [] then 0.0 else LineTotal(ls[0]) + Total(ls[1..])
  }

  /** The cart's `total_quantity`: the sum of the quantities of its lines. */
  function TotalQuantity(ls: seq<CartLine>): int
  {
    if ls == [] then 0 else ls[0].quantity + TotalQuantity(ls[1..])
  }

  /** How many units of product `p` the lines hold between them. */
  function QuantityOf(ls: seq<CartLine>, p: ProductId): int
  {
    if ls == [] then 0
    else QuantityOf(ls[..|ls| - 1], p) + (if ls[|ls| - 1].product == p then ls[|ls| - 1].quantity else 0)
  }

  /** The cart holds at most one line per product. */
  predicate UniqueProducts(ls: seq<CartLine>)
  {
    forall i, j :: 0 <= i < j < |ls| ==> ls[i].product != ls[j].product
  }

  /** No two lines of the cart share a row id. */
  predicate UniqueIds(ls: seq<CartLine>)
  {
    forall i, j :: 0 <= i < j < |ls| ==> ls[i].id != ls[j].id
  }

  /** The first line for product `p`, if any (the lookup before a merge). */
  function IndexOfProduct(ls: seq<CartLine>, p: ProductId): (r: Option<nat>)
    ensures r.Some? ==> r.value < |ls| && ls[r.value].product == p
    ensures r.Some? ==> forall j :: 0 <= j < r.value ==> ls[j].product != p
    ensures r.None? <==> forall j :: 0 <= j < |ls| ==> ls[j].product != p
  {
    if ls == [] then None
    else if ls[0].product == p then Some(0)
    else match IndexOfProduct(ls[1..], p)
      case None => None
      case Some(i) => Some(i + 1)
  }

  /** The line with row id `id`, if it belongs to these lines. */
  function IndexOfItem(ls: seq<CartLine>, id: ItemId): (r: Option<nat>)
    ensures r.Some? ==> r.value < |ls| && ls[r.value].id == id
    ensures r.Some? ==> forall j :: 0 <= j < r.value ==> ls[j].id != id
    ensures r.None? <==> forall j :: 0 <= j < |ls| ==> ls[j].id != id
  {
    if ls == [] then None
    else if ls[0].id == id then Some(0)
    else match IndexOfItem(ls[1..], id)
      case None => None
      case Some(i) => Some(i + 1)
  }

  /** The lines after `q` units of product `p` are added: merged into the
      existing line for `p` (whose captured price stays), or appended as a new
      line with row id `newId` and the current catalog price `price`. */
  function Added(ls: seq<CartLine>, p: ProductId, q: int, price: real, newId: ItemId): seq<CartLine>
  {
    match IndexOfProduct(ls, p)
    case Some(i) => ls[i := ls[i].(quantity := ls[i].quantity + q)]
    case None => ls + [CartLine(newId, p, q, price)]
  }

  /** The price the line for `p` carries once `p` is added at catalog price
      `price`: a merge keeps the price captured on the existing line. */
  function CapturedPrice(ls: seq<CartLine>, p: ProductId, price: real): real
  {
    match IndexOfProduct(ls, p)
    case Some(i) => ls[i].price
    case None => price
  }

  // ---------------------------------------------------------------------
  // The sums are additive, so they are independent of the order of lines.

  lemma {:induction false} TotalConcat(a: seq<CartLine>, b: seq<CartLine>)
    ensures Total(a + b) == Total(a) + Total(b)
  {
    if a == [] {
      assert a + b == b;
    } else {
      assert (a + b)[1..] == a[1..] + b;
      TotalConcat(a[1..], b);
    }
  }

  lemma {:induction false} TotalQuantityConcat(a: seq<CartLine>, b: seq<CartLine>)
    ensures TotalQuantity(a + b) == TotalQuantity(a) + TotalQuantity(b)
  {
    if a == [] {
      assert a + b == b;
    } else {
      assert (a + b)[1..] == a[1..] + b;
      TotalQuantityConcat(a[1..], b);
    }
  }

  /** Lines with non-negative quantities and prices never sum to a negative
      total. */
  lemma {:induction false} TotalNonNegative(ls: seq<CartLine>)
    requires forall i :: 0 <= i < |ls| ==> ls[i].quantity >= 0 && ls[i].price >= 0.0
    ensures Total(ls) >= 0.0
  {
    if ls != [] {
      TotalNonNegative(ls[1..]);
      TimesNonNegative(ls[0].quantity, ls[0].price);
    }
  }

  /** Every line holds at least one unit, so the total quantity is at least
      the number of lines. */
  lemma {:induction false} TotalQuantityAtLeastLines(ls: seq<CartLine>)
    requires forall i :: 0 <= i < |ls| ==> ls[i].quantity >= 1
    ensures TotalQuantity(ls) >= |ls|
  {
    if ls != [] {
      TotalQuantityAtLeastLines(ls[1..]);
    }
  }

  /** An empty cart has total 0 and total quantity 0. */
  lemma EmptyCartTotals()
    ensures Total([]) == 0.0 && TotalQuantity([]) == 0
  {
  }

  /** Appending line `l` raises the total by its quantity × price and the
      total quantity by its quantity. */
  lemma TotalsAppend(ls: seq<CartLine>, l: CartLine)
    ensures Total(ls + [l]) == Total(ls) + LineTotal(l)
    ensures TotalQuantity(ls + [l]) == TotalQuantity(ls) + l.quantity
  {
    TotalConcat(ls, [l]);
    TotalQuantityConcat(ls, [l]);
  }

  /** Deleting line `i` lowers the total by exactly that line's share. */
  lemma TotalRemoveAt(ls: seq<CartLine>, i: nat)
    requires i < |ls|
    ensures Total(ls[..i] + ls[i + 1..]) == Total(ls) - LineTotal(ls[i])
  {
    var front, back := ls[..i], ls[i + 1..];
    assert ls == front + ([ls[i]] + back);
    assert ([ls[i]] + back)[1..] == back;
    TotalConcat(front, [ls[i]] + back);
    TotalConcat(front, back);
  }

  /** Deleting line `i` lowers the total quantity by that line's quantity. */
  lemma TotalQuantityRemoveAt(ls: seq<CartLine>, i: nat)
    requires i < |ls|
    ensures TotalQuantity(ls[..i] + ls[i + 1..]) == TotalQuantity(ls) - ls[i].quantity
  {
    var front, back := ls[..i], ls[i + 1..];
    assert ls == front + ([ls[i]] + back);
    assert ([ls[i]] + back)[1..] == back;
    TotalQuantityConcat(front, [ls[i]] + back);
    TotalQuantityConcat(front, back);
  }

  /** Deleting line `i` takes out that line and no other: the remaining
      lines are the old ones less exactly one copy of it, and with row ids
      unique no line with its id is left. */
  lemma RemoveAtDropsLine(ls: seq<CartLine>, i: nat)
    requires UniqueIds(ls) && i < |ls|
    ensures multiset(ls[..i] + ls[i + 1..]) + multiset{ls[i]} == multiset(ls)
    ensures IndexOfItem(ls[..i] + ls[i + 1..], ls[i].id).None?
  {
    var front, back := ls[..i], ls[i + 1..];
    assert ls == front + [ls[i]] + back;
    var rest := front + back;
    forall j | 0 <= j < |rest|
      ensures rest[j].id != ls[i].id
    {
      if j < i {
        assert rest[j] == ls[j];
      } else {
        assert rest[j] == ls[j + 1];
      }
    }
  }

  /** Replacing line `i` by `l` swaps that line's share of the total. */
  lemma TotalUpdateAt(ls: seq<CartLine>, i: nat, l: CartLine)
    requires i < |ls|
    ensures Total(ls[i := l]) == Total(ls) - LineTotal(ls[i]) + LineTotal(l)
  {
    var front, back := ls[..i], ls[i + 1..];
    assert ls[i := l] == front + ([l] + back);
    assert ([l] + back)[1..] == back;
    TotalRemoveAt(ls, i);
    TotalConcat(front, [l] + back);
    TotalConcat(front, back);
  }

  /** Replacing line `i` by `l` swaps that line's share of the total quantity. */
  lemma TotalQuantityUpdateAt(ls: seq<CartLine>, i: nat, l: CartLine)
    requires i < |ls|
    ensures TotalQuantity(ls[i := l]) == TotalQuantity(ls) - ls[i].quantity + l.quantity
  {
    var front, back := ls[..i], ls[i + 1..];
    assert ls[i := l] == front + ([l] + back);
    assert ([l] + back)[1..] == back;
    TotalQuantityRemoveAt(ls, i);
    TotalQuantityConcat(front, [l] + back);
    TotalQuantityConcat(front, back);
  }

  /** Setting line `i` to quantity `n` moves the total by the change in
      quantity × that line's captured price. */
  lemma TotalRequantify(ls: seq<CartLine>, i: nat, n: int)
    requires i < |ls|
    ensures Total(ls[i := ls[i].(quantity := n)]) == Total(ls) + Times(n - ls[i].quantity, ls[i].price)
  {
    TotalUpdateAt(ls, i, ls[i].(quantity := n));
    TimesAdd(ls[i].quantity, n - ls[i].quantity, ls[i].price);
  }

  /** Both sums depend only on the multiset of lines, not on their order. */
  lemma {:induction false} TotalsPermutation(a: seq<CartLine>, b: seq<CartLine>)
    requires multiset(a) == multiset(b)
    ensures Total(a) == Total(b) && TotalQuantity(a) == TotalQuantity(b)
    decreases |a|
  {
    if a == [] {
      assert |b| == |multiset(b)| == 0;
    } else {
      var x := a[0];
      assert x in multiset(b);
      var j :| 0 <= j < |b| && b[j] == x;
      var rest := b[..j] + b[j + 1..];
      assert b == b[..j] + [x] + b[j + 1..];
      assert a == [x] + a[1..];
      assert multiset(a) == multiset{x} + multiset(a[1..]);
      assert multiset(b) == multiset(b[..j]) + multiset{x} + multiset(b[j + 1..]);
      assert multiset(rest) == multiset(b[..j]) + multiset(b[j + 1..]);
      assert multiset(a[1..]) == multiset(a) - multiset{x};
      assert multiset(rest) == multiset(b) - multiset{x};
      TotalsPermutation(a[1..], rest);
      TotalRemoveAt(b, j);
      TotalQuantityRemoveAt(b, j);
    }
  }

  // ---------------------------------------------------------------------
  // Per-product quantities.

  lemma {:induction false} QuantityOfConcat(a: seq<CartLine>, b: seq<CartLine>, p: ProductId)
    ensures QuantityOf(a + b, p) == QuantityOf(a, p) + QuantityOf(b, p)
    decreases |b|
  {
    if b == [] {
      assert a + b == a;
    } else {
      assert (a + b)[..|a + b| - 1] == a + b[..|b| - 1];
      QuantityOfConcat(a, b[..|b| - 1], p);
    }
  }

  /** A product with no line is held in quantity 0. */
  lemma {:induction false} QuantityOfAbsent(ls: seq<CartLine>, p: ProductId)
    requires forall i :: 0 <= i < |ls| ==> ls[i].product != p
    ensures QuantityOf(ls, p) == 0
  {
    if ls != [] {
      QuantityOfAbsent(ls[..|ls| - 1], p);
    }
  }

  /** With one line per product, the quantity held of a product is the
      quantity of its line. */
  lemma QuantityOfUnique(ls: seq<CartLine>, i: nat)
    requires UniqueProducts(ls) && i < |ls|
    ensures QuantityOf(ls, ls[i].product) == ls[i].quantity
  {
    var p := ls[i].product;
    assert ls == ls[..i] + [ls[i]] + ls[i + 1..];
    QuantityOfConcat(ls[..i] + [ls[i]], ls[i + 1..], p);
    QuantityOfConcat(ls[..i], [ls[i]], p);
    assert QuantityOf([ls[i]], p) == ls[i].quantity by {
      assert [ls[i]][..0] == [];
    }
    QuantityOfAbsent(ls[..i], p);
    QuantityOfAbsent(ls[i + 1..], p);
  }

  /** Replacing line `i` by `l` moves that line's share of the per-product
      quantities. */
  lemma QuantityOfUpdateAt(ls: seq<CartLine>, i: nat, l: CartLine, p: ProductId)
    requires i < |ls|
    ensures QuantityOf(ls[i := l], p) ==
      QuantityOf(ls, p) - (if ls[i].product == p then ls[i].quantity else 0) + (if l.product == p then l.quantity else 0)
  {
    assert ls[i := l] == ls[..i] + [l] + ls[i + 1..];
    assert ls == ls[..i] + [ls[i]] + ls[i + 1..];
    QuantityOfConcat(ls[..i] + [l], ls[i + 1..], p);
    QuantityOfConcat(ls[..i], [l], p);
    QuantityOfConcat(ls[..i] + [ls[i]], ls[i + 1..], p);
    QuantityOfConcat(ls[..i], [ls[i]], p);
    assert [l][..0] == [] && [ls[i]][..0] == [];
  }

  // ---------------------------------------------------------------------
  // Adding a product.

  /** Adding `q` units never creates a second line for a product already in
      the cart; otherwise it creates exactly one. */
  lemma AddedLength(ls: seq<CartLine>, p: ProductId, q: int, price: real, newId: ItemId)
    ensures (exists j :: 0 <= j < |ls| && ls[j].product == p) ==> |Added(ls, p, q, price, newId)| == |ls|
    ensures (forall j :: 0 <= j < |ls| ==> ls[j].product != p) ==> |Added(ls, p, q, price, newId)| == |ls| + 1
  {
  }

  /** Adding keeps one line per product. */
  lemma AddedUnique(ls: seq<CartLine>, p: ProductId, q: int, price: real, newId: ItemId)
    requires UniqueProducts(ls)
    ensures UniqueProducts(Added(ls, p, q, price, newId))
  {
  }

  /** Adding `q` units of `p` raises the total quantity by `q`. */
  lemma AddedTotalQuantity(ls: seq<CartLine>, p: ProductId, q: int, price: real, newId: ItemId)
    ensures TotalQuantity(Added(ls, p, q, price, newId)) == TotalQuantity(ls) + q
  {
    match IndexOfProduct(ls, p)
    case Some(i) =>
      TotalQuantityUpdateAt(ls, i, ls[i].(quantity := ls[i].quantity + q));
    case None =>
      TotalsAppend(ls, CartLine(newId, p, q, price));
  }

  /** Adding `q` units of `p` raises the total by `q` × the price captured on
      the line for `p`. */
  lemma AddedTotal(ls: seq<CartLine>, p: ProductId, q: int, price: real, newId: ItemId)
    ensures Total(Added(ls, p, q, price, newId)) == Total(ls) + Times(q, CapturedPrice(ls, p, price))
  {
    match IndexOfProduct(ls, p)
    case Some(i) =>
      TotalRequantify(ls, i, ls[i].quantity + q);
      assert ls[i].quantity + q - ls[i].quantity == q;
    case None =>
      TotalsAppend(ls, CartLine(newId, p, q, price));
  }

  /** Adding `q` units of `p` raises the quantity held of `p` by `q` and
      leaves every other product's quantity as it was. */
  lemma AddedQuantityOf(ls: seq<CartLine>, p: ProductId, q: int, price: real, newId: ItemId, p': ProductId)
    ensures QuantityOf(Added(ls, p, q, price, newId), p') == QuantityOf(ls, p') + (if p' == p then q else 0)
  {
    match IndexOfProduct(ls, p)
    case Some(i) =>
      QuantityOfUpdateAt(ls, i, ls[i].(quantity := ls[i].quantity + q), p');
    case None =>
      var l := CartLine(newId, p, q, price);
      assert (ls + [l])[..|ls|] == ls;
  }
}
