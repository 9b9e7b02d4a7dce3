/** Entities of the product service: catalog products, cart lines, orders and
    order items, plus the outcome types every controller action returns.
    Money is an exact `real` (the catalog stores decimal(10,2)); quantities and
    stock levels are unbounded integers. */
module Domain {

  type ProductId = nat
  type CartId = nat
  type ItemId = nat
  type OrderId = nat
  type UserId = nat

  /** An opaque point in time, as handed out by the clock. */
  type Time = int

  datatype Option<T> = None | Some(value: T)

  /** The outcomes a controller action can fail with. */
  datatype Error =
    | NotFound
    | InvalidInput
    | Inactive
    | InsufficientStock(product: ProductId)
    | EmptyCart
    | InvalidState

  datatype Result<T> = Ok(value: T) | Err(error: Error)

  /** Who a cart belongs to: a signed-in user, else the guest's session. */
  datatype Owner = User(userId: UserId) | Guest(sessionId: string)

  datatype Product = Product(name: string, sku: string, price: real, stock: int, active: bool)

  /** One row of a cart: the price is the catalog price captured when the
      product was first added. */
  datatype CartLine = CartLine(id: ItemId, product: ProductId, quantity: int, price: real)

  datatype Status = Pending | Processing | Shipped | Delivered | Cancelled

  datatype Address = Address(
    name: string, addressLine1: string, addressLine2: Option<string>,
    city: string, state: string, postalCode: string, country: string)

  /** What the customer supplies at checkout; copied onto the order as given. */
  datatype CheckoutDetails = CheckoutDetails(
    shippingAddress: Address, billingAddress: Address,
    paymentMethod: string, notes: Option<string>)

  /** A line of an order: a snapshot of the product and the cart line. */
  datatype OrderItem = OrderItem(
    product: ProductId, productName: string, productSku: string,
    quantity: int, unitPrice: real, totalPrice: real)

  datatype Order = Order(
    owner: UserId, status: Status,
    subtotal: real, taxAmount: real, shippingAmount: real, totalAmount: real,
    details: CheckoutDetails, paymentStatus: string,
    shippedAt: Option<Time>, deliveredAt: Option<Time>,
    items: seq<OrderItem>)
}
