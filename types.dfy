/** Record types shared by the storefront and the admin console.
    Money is held in integer cents and timestamps in integer milliseconds. */
module Types {

  datatype Option<+T> = None | Some(value: T)

  /** `a || b` for an optional string: the value when present and non-empty, otherwise `b`. */
  function OrElse(o: Option<string>, b: string): (r: string)
    ensures o.Some? && o.value != "" ==> r == o.value
    ensures (o.None? || o.value == "") ==> r == b
  {
    if o.Some? && o.value != "" then o.value else b
  }

  datatype Product = Product(
    id: string,
    name: string,
    description: Option<string>,
    priceCents: int,
    stock: int,
    image: Option<string>,
    category: Option<string>,
    createdAt: int,
    updatedAt: int)

  datatype Role = Customer | Admin

  datatype User = User(
    id: string,
    email: string,
    name: Option<string>,
    role: Role,
    createdAt: int,
    updatedAt: int)

  datatype OrderStatus = Pending | Processing | Shipped | Delivered | Cancelled

  datatype OrderItem = OrderItem(
    id: string,
    orderId: string,
    productId: string,
    quantity: int,
    priceCents: int)

  datatype Order = Order(
    id: string,
    userId: string,
    status: OrderStatus,
    totalCents: int,
    createdAt: int,
    updatedAt: int,
    user: Option<User>,
    items: Option<seq<OrderItem>>)

  /** The sort keys of the newest-first lists. */
  function OrderCreatedAt(o: Order): int {
    o.createdAt
  }

  function UserCreatedAt(u: User): int {
    u.createdAt
  }

  datatype CartItem = CartItem(product: Product, quantity: int)
}
