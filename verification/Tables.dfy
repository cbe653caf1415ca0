/** The rows the ledger works on. Rows of one table are kept in creation order, which
    is the (createdAt, id) order the queries ask for. */
module Tables {
  import opened Seqs

  datatype Option<+T> = None | Some(value: T) {
    function GetOr(default: T): T { if Some? then value else default }
  }

  datatype Error =
    | NotFound
    | BadRequest
    | InsufficientStock(product: int, available: int)

  datatype Result<+T> = Success(value: T) | Failure(error: Error)

  datatype Product = Product(seller: string, allowOversell: bool)

  datatype Stock = Stock(quantity: int, reserved: int) {
    function Available(): int { quantity - reserved }

    /** What the stock says is owed: max(reserved - quantity, 0). */
    function Deficit(): int { Max(reserved - quantity, 0) }
  }

  datatype OrderStatus = OrderPending | OrderConfirmed | OrderShipping | OrderDelivered | OrderCanceled

  datatype Order = Order(seller: string, status: OrderStatus, subtotal: int, discount: int, total: int)

  /** A line as the client sends it, and as the service prices it. */
  datatype Draft = Draft(product: int, quantity: int, unitPrice: int, discount: int)

  datatype Line = Line(product: int, quantity: int, discount: int, total: int)

  datatype Item = Item(id: nat, order: nat, product: int, quantity: int, discount: int, total: int)

  datatype BackorderStatus = Pending | Fulfilled | Canceled

  datatype Backorder = Backorder(
    seller: string, order: nat, item: nat, product: int,
    quantity: int, fulfilled: int, status: BackorderStatus)
  {
    predicate PendingFor(p: int) { status == Pending && product == p }

    /** Units still owed by this row. */
    function Remaining(): int { if status == Pending then quantity - fulfilled else 0 }
  }

  datatype MoveKind = In | Out

  datatype Reference = Purchase | Sale | Adjustment | Return | Transfer

  datatype Movement = Movement(kind: MoveKind, reference: Reference, refId: int, product: int, quantity: int) {
    function Signed(): int { if kind == In then quantity else -quantity }
  }

  datatype State = State(
    products: map<int, Product>,
    stock: map<int, Stock>,
    orders: map<nat, Order>,
    items: seq<Item>,
    backorders: seq<Backorder>,
    movements: seq<Movement>,
    nextOrder: nat,
    nextItem: nat)

  datatype Oversold = Oversold(product: int, available: int, requested: int)

  /** Who calls: a seller, or an administrator, who is not held to one tenant. */
  datatype Actor = Actor(seller: string, admin: bool) {
    predicate MayTouch(owner: string) { admin || seller == owner }
  }
}
