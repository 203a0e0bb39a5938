/**
 * The records of the seven tables created in src/db/database.ts, and the
 * in-browser database that holds them.
 *
 * Every table is a map from its `id` primary key to a row. JSON-encoded
 * columns (`items`, `images`, `shippingMethods`, `products`) hold the decoded
 * list: encoding and decoding these plain records round-trips. ISO timestamps
 * and ISO dates are represented by the instant they name (`Timestamp`): their
 * string order is their time order, which is all `ORDER BY` uses.
 */
module Schema {
  import opened Store

  type Timestamp = nat

  /** The five order statuses. */
  datatype OrderStatus = Pending | Processing | Shipped | Delivered | Denied

  /** The five texts the `OrderStatus` union type allows. */
  const StatusNames: seq<string> := ["pending", "processing", "shipped", "delivered", "denied"]

  /** The text stored in the `status` column: one of the allowed texts. */
  function StatusName(s: OrderStatus): (name: string)
    ensures name in StatusNames
  {
    match s
    case Pending => "pending"
    case Processing => "processing"
    case Shipped => "shipped"
    case Delivered => "delivered"
    case Denied => "denied"
  }

  /** Reads a `status` column back; text that is none of the five names is rejected. */
  function ParseStatus(name: string): (r: Option<OrderStatus>)
    ensures r.Some? ==> StatusName(r.value) == name
  {
    if name == "pending" then Some(Pending)
    else if name == "processing" then Some(Processing)
    else if name == "shipped" then Some(Shipped)
    else if name == "delivered" then Some(Delivered)
    else if name == "denied" then Some(Denied)
    else None
  }

  /** A stored status always reads back as itself, and only the five names read back at all. */
  lemma ParseStatusRoundTrip(s: OrderStatus, name: string)
    ensures ParseStatus(StatusName(s)) == Some(s)
    ensures ParseStatus(name).Some? <==> name in {"pending", "processing", "shipped", "delivered", "denied"}
  {
  }

  /**
   * One entry of an order's `items` list. The order form writes only
   * `productId` and `quantity`; `price` is present only when the stored
   * JSON happens to carry one.
   */
  datatype OrderItem = OrderItem(productId: string, quantity: int, price: Option<real>)

  datatype Product = Product(
    id: string, name: string, category: string, price: real, stockLevel: int,
    variants: int, warehouseId: string, images: Option<seq<string>>, createdAt: Timestamp)

  datatype Warehouse = Warehouse(
    id: string, name: string, location: string, contact: string,
    shippingMethods: seq<string>, createdAt: Timestamp)

  datatype Order = Order(
    id: string, warehouseId: string, origin: string, sender: string,
    items: seq<OrderItem>, status: OrderStatus, sendDate: string, createdAt: Timestamp)

  datatype Supplier = Supplier(
    id: string, name: string, contact: string, address: string,
    products: seq<string>, createdAt: Timestamp)

  datatype Client = Client(
    id: string, name: string, email: string, phone: string, address: string, createdAt: Timestamp)

  datatype Expense = Expense(
    id: string, description: string, amount: real, vat: real, date: Timestamp, createdAt: Timestamp)

  /** The per-item payout status; the column defaults to `unsold`. */
  datatype ItemStatus = Unsold | Sold | Returned

  datatype ItemStatusRow = ItemStatusRow(
    id: string, orderId: string, productId: string, status: ItemStatus,
    createdAt: Timestamp, updatedAt: Timestamp)

  /**
   * The browser-resident database. `available` is false when the SQL engine
   * could not be initialised: then every `executeQuery` throws before any
   * statement runs, which is the only way a component's `catch` is reached.
   */
  class Database {
    const available: bool
    var products: map<string, Product>
    var warehouses: map<string, Warehouse>
    var orders: map<string, Order>
    var suppliers: map<string, Supplier>
    var clients: map<string, Client>
    var expenses: map<string, Expense>
    var itemStatuses: map<string, ItemStatusRow>

    /** A freshly created database: every `CREATE TABLE IF NOT EXISTS` made an empty table. */
    constructor (available: bool)
      ensures this.available == available
      ensures products == map[] && warehouses == map[] && orders == map[]
      ensures suppliers == map[] && clients == map[] && expenses == map[] && itemStatuses == map[]
    {
      this.available := available;
      products, warehouses, orders := map[], map[], map[];
      suppliers, clients, expenses, itemStatuses := map[], map[], map[], map[];
    }
  }
}
