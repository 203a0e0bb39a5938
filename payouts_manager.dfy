/**
 * The payouts panel of src/components/admin/PayoutsManager.tsx: per listed
 * order it adds up the order's value and reads each item's payout status, and
 * it sums an expected payout over all listed orders.
 *
 * As written, the expected payout multiplies by `item.price`, a field the
 * order form never stores, so one sold item of such an order turns the whole
 * sum into NaN (see `FormOrderPayoutIsNaN`). `ExpectedPayoutsPriced` prices
 * items from the product table, as the order total on the same panel does.
 */
module PayoutsManager {
  import opened Store
  import opened Schema
  import opened OrderDetailsModal
  import opened PayoutDetailsModal

  /** An order row with its parsed items, its value and one status per product id. */
  datatype OrderWithItems = OrderWithItems(
    id: string, warehouseId: string, items: seq<OrderItem>, total: real,
    createdAt: Timestamp, itemStatuses: map<string, ItemStatus>)

  /** The search box: order id or warehouse id contains the query. */
  predicate PayoutSearch(q: string, o: Order) {
    Matches(q, o.id) || Matches(q, o.warehouseId)
  }

  function PayoutFilter(q: string): Order -> bool {
    o => PayoutSearch(q, o)
  }

  /** The query has no ORDER BY: the rows come in no promised order. */
  function NoOrder(o: Order): int {
    0
  }

  /** `itemStatuses` holds, for each product id of the items and only those, the status the table gives it. */
  ghost predicate StatusesRead(statuses: map<string, ItemStatus>, t: map<string, ItemStatusRow>, orderId: string, items: seq<OrderItem>) {
    && (forall p :: p in statuses ==> StatusReads(t, orderId, p, statuses[p]))
    && (forall p :: p in statuses <==> exists i :: 0 <= i < |items| && items[i].productId == p)
  }

  /** `r` is order row `o` loaded: same order, its value priced from `products`, its statuses read from `t`. */
  ghost predicate Loaded(r: OrderWithItems, o: Order, products: map<string, Product>, t: map<string, ItemStatusRow>) {
    && r.id == o.id && r.warehouseId == o.warehouseId && r.items == o.items && r.createdAt == o.createdAt
    && r.total == ItemsAmount(o.items, products)
    && StatusesRead(r.itemStatuses, t, o.id, o.items)
  }

  ghost predicate LoadedAll(loaded: seq<OrderWithItems>, rows: seq<Order>, products: map<string, Product>, t: map<string, ItemStatusRow>) {
    |loaded| == |rows| && forall i :: 0 <= i < |rows| ==> Loaded(loaded[i], rows[i], products, t)
  }

  /**
   * The inner loop for one order: `total +=` the priced amount of each item
   * whose product is found, and `itemStatuses[productId] =` its status.
   */
  method LoadOrderDetails(o: Order, products: map<string, Product>, t: map<string, ItemStatusRow>) returns (r: OrderWithItems)
    ensures r.id == o.id && r.warehouseId == o.warehouseId && r.items == o.items && r.createdAt == o.createdAt
    ensures r.total == ItemsAmount(o.items, products)
    ensures r.total == TotalAmount(Resolve(o.items, products))
    ensures StatusesRead(r.itemStatuses, t, o.id, o.items)
    ensures Loaded(r, o, products, t)
  {
    var items := o.items;
    var total := 0.0;
    var itemStatuses: map<string, ItemStatus> := map[];
    for i := 0 to |items|
      invariant total == ItemsAmount(items[..i], products)
      invariant forall p :: p in itemStatuses ==> StatusReads(t, o.id, p, itemStatuses[p])
      invariant forall p :: p in itemStatuses <==> exists j :: 0 <= j < i && items[j].productId == p
    {
      ItemsAmountSnoc(items[..i], items[i], products);
      assert items[..i + 1] == items[..i] + [items[i]];
      if items[i].productId in products {
        total := total + Amount(products[items[i].productId].price, items[i].quantity);
      }
      var s := LookupStatus(t, o.id, items[i].productId);
      itemStatuses := itemStatuses[items[i].productId := s];
    }
    assert items[..|items|] == items;
    TotalAmountOfResolved(items, products);
    r := OrderWithItems(o.id, o.warehouseId, items, total, o.createdAt, itemStatuses);
  }

  /** The outer `Promise.all`: every listed order row loaded, in row order. */
  method LoadAll(rows: seq<Order>, products: map<string, Product>, t: map<string, ItemStatusRow>) returns (loaded: seq<OrderWithItems>)
    ensures LoadedAll(loaded, rows, products, t)
  {
    loaded := [];
    for i := 0 to |rows|
      invariant LoadedAll(loaded, rows[..i], products, t)
    {
      var r := LoadOrderDetails(rows[i], products, t);
      loaded := loaded + [r];
    }
    assert rows[..|rows|] == rows;
  }

  /** `order.itemStatuses[item.productId] === 'sold'`. */
  predicate IsSold(statuses: map<string, ItemStatus>, productId: string) {
    productId in statuses && statuses[productId] == Sold
  }

  /** One order's sold items priced by `item.price`, as written; `None` is NaN. */
  function OrderPayoutAsWritten(items: seq<OrderItem>, statuses: map<string, ItemStatus>): (payout: Option<real>)
    ensures payout.None? <==> exists j :: 0 <= j < |items| && IsSold(statuses, items[j].productId) && items[j].price.None?
  {
    if items == [] then Some(0.0)
    else
      var rest := OrderPayoutAsWritten(items[1..], statuses);
      if !IsSold(statuses, items[0].productId) then rest
      else if items[0].price.None? || rest.None? then None
      else Some(Amount(items[0].price.value, items[0].quantity) + rest.value)
  }

  /** `calculateExpectedPayouts` as written: the orders' payouts added up, NaN if any is NaN. */
  function ExpectedPayoutsAsWritten(orders: seq<OrderWithItems>): (payout: Option<real>)
    ensures payout.None? <==> exists i :: 0 <= i < |orders| && OrderPayoutAsWritten(orders[i].items, orders[i].itemStatuses).None?
  {
    if orders == [] then Some(0.0)
    else
      var first := OrderPayoutAsWritten(orders[0].items, orders[0].itemStatuses);
      var rest := ExpectedPayoutsAsWritten(orders[1..]);
      if first.None? || rest.None? then None else Some(first.value + rest.value)
  }

  /** Items that are not sold contribute nothing, in the code as written. */
  lemma {:induction false} UnsoldContributesNothing(orders: seq<OrderWithItems>)
    requires forall i, j :: 0 <= i < |orders| && 0 <= j < |orders[i].items| ==> !IsSold(orders[i].itemStatuses, orders[i].items[j].productId)
    ensures ExpectedPayoutsAsWritten(orders) == Some(0.0)
    decreases |orders|
  {
    if orders != [] {
      NoSoldItemsPayZero(orders[0].items, orders[0].itemStatuses);
      UnsoldContributesNothing(orders[1..]);
    }
  }

  lemma {:induction false} NoSoldItemsPayZero(items: seq<OrderItem>, statuses: map<string, ItemStatus>)
    requires forall j :: 0 <= j < |items| ==> !IsSold(statuses, items[j].productId)
    ensures OrderPayoutAsWritten(items, statuses) == Some(0.0)
    decreases |items|
  {
    if items != [] {
      NoSoldItemsPayZero(items[1..], statuses);
    }
  }

  // ---------------------------------------------------------------------------
  // The finding: an order made by the order form has no item prices
  // ---------------------------------------------------------------------------

  /** An order as the order form stores it: one item of product "p", sold, no price in the JSON. */
  const FormOrder := OrderWithItems("ord_1", "w", [OrderItem("p", 2, None)], 20.0, 1, map["p" := Sold])

  /** One sold item without a stored price makes the expected payouts NaN, for every other order too. */
  lemma FormOrderPayoutIsNaN(others: seq<OrderWithItems>)
    ensures ExpectedPayoutsAsWritten([FormOrder] + others) == None
  {
    var items := FormOrder.items;
    assert items[1..] == [];
    assert OrderPayoutAsWritten(items, FormOrder.itemStatuses) == None;
    assert ([FormOrder] + others)[0] == FormOrder;
  }

  /** Every sold item carries the price its product has in the table. */
  predicate SoldPricesFromTable(items: seq<OrderItem>, statuses: map<string, ItemStatus>, products: map<string, Product>) {
    forall j :: 0 <= j < |items| && IsSold(statuses, items[j].productId) ==>
      items[j].productId in products && items[j].price == Some(products[items[j].productId].price)
  }

  /** Where the item prices are the table's, the as-written payout of one order is the corrected one. */
  lemma {:induction false} SoldPricedAgrees(items: seq<OrderItem>, statuses: map<string, ItemStatus>, products: map<string, Product>)
    ensures SoldPricesFromTable(items, statuses, products) ==>
      OrderPayoutAsWritten(items, statuses) == Some(SoldAmount(items, products, statuses))
    decreases |items|
  {
    if items != [] && SoldPricesFromTable(items, statuses, products) {
      assert SoldPricesFromTable(items[1..], statuses, products) by {
        forall j | 0 <= j < |items[1..]| && IsSold(statuses, items[1..][j].productId)
          ensures items[1..][j].productId in products && items[1..][j].price == Some(products[items[1..][j].productId].price)
        {
          assert items[1..][j] == items[j + 1];
        }
      }
      SoldPricedAgrees(items[1..], statuses, products);
    }
  }

  /**
   * The corrected expected payouts: sold items priced from the product table,
   * missing products counting 0. Where every sold item does carry its
   * table price, this is what the code as written computes.
   */
  function ExpectedPayoutsPriced(orders: seq<OrderWithItems>, products: map<string, Product>): (payout: real)
    ensures (forall i :: 0 <= i < |orders| ==> SoldPricesFromTable(orders[i].items, orders[i].itemStatuses, products)) ==>
      ExpectedPayoutsAsWritten(orders) == Some(payout)
  {
    if orders == [] then 0.0
    else
      SoldPricedAgrees(orders[0].items, orders[0].itemStatuses, products);
      SoldAmount(orders[0].items, products, orders[0].itemStatuses) + ExpectedPayoutsPriced(orders[1..], products)
  }

  /**
   * The corrected sum agrees with the payout dialog order by order: when every
   * product exists, each order's share is the dialog's expected payout for it.
   */
  lemma {:induction false} PricedMatchesDialog(o: OrderWithItems, products: map<string, Product>)
    requires forall i :: 0 <= i < |o.items| ==> o.items[i].productId in products
    ensures ExpectedPayout(LinesFor(o.items, products, o.itemStatuses)) == Some(ExpectedPayoutsPriced([o], products))
  {
    ExpectedPayoutIsSoldAmount(o.items, products, o.itemStatuses);
    assert [o][1..] == [];
  }

  /** With non-negative prices and quantities the corrected payout lies between 0 and the listed orders' value. */
  lemma {:induction false} PricedAtMostTotals(orders: seq<OrderWithItems>, products: map<string, Product>)
    requires forall k :: k in products ==> products[k].price >= 0.0
    requires forall i, j :: 0 <= i < |orders| && 0 <= j < |orders[i].items| ==> orders[i].items[j].quantity >= 0
    ensures 0.0 <= ExpectedPayoutsPriced(orders, products) <= SumTotals(orders, products)
    decreases |orders|
  {
    if orders != [] {
      SoldAmountAtMostTotal(orders[0].items, products, orders[0].itemStatuses);
      PricedAtMostTotals(orders[1..], products);
    }
  }

  /** The listed orders' values added up. */
  function SumTotals(orders: seq<OrderWithItems>, products: map<string, Product>): real {
    if orders == [] then 0.0 else ItemsAmount(orders[0].items, products) + SumTotals(orders[1..], products)
  }

  // ---------------------------------------------------------------------------
  // The component
  // ---------------------------------------------------------------------------

  class PayoutsManager {
    const db: Database
    var searchQuery: string
    var orders: seq<OrderWithItems>
    var expectedPayouts: Option<real>

    constructor (db: Database)
      ensures this.db == db && searchQuery == "" && orders == [] && expectedPayouts == Some(0.0)
    {
      this.db := db;
      searchQuery := "";
      orders := [];
      expectedPayouts := Some(0.0);
    }

    /**
     * Lists the orders matching the search, each with its value and item
     * statuses, then recomputes the expected payouts over them as written.
     * A failure is only logged.
     */
    method LoadOrders()
      modifies this
      ensures searchQuery == old(searchQuery)
      ensures db.available ==> exists rows: seq<Order> ::
        Listing(db.orders, PayoutFilter(searchQuery), NoOrder, rows) && LoadedAll(orders, rows, db.products, db.itemStatuses)
      ensures db.available ==> expectedPayouts == ExpectedPayoutsAsWritten(orders)
      ensures !db.available ==> orders == old(orders) && expectedPayouts == old(expectedPayouts)
    {
      if db.available {
        var ids, rows := Select(db.orders, PayoutFilter(searchQuery), NoOrder);
        var loaded := LoadAll(rows, db.products, db.itemStatuses);
        orders := loaded;
        expectedPayouts := ExpectedPayoutsAsWritten(loaded);
      }
    }

    /**
     * A status picked in the payout dialog `dialog`, opened on an order of
     * this panel: the dialog's own handler runs, and after a success its
     * `onStatusUpdate`, which is this panel's reload, lists the orders again
     * with the new status and recomputes the expected payouts. A failure is
     * only logged and skips the reload.
     */
    method HandleItemStatusChange(dialog: PayoutDetailsModal, productId: string, newStatus: ItemStatus, now: Timestamp)
      requires dialog.db == db && dialog.order.Some?
      modifies this, dialog, db`itemStatuses
      ensures searchQuery == old(searchQuery)
      ensures db.available ==>
        db.itemStatuses == Upsert(old(db.itemStatuses), dialog.order.value.id, productId, newStatus, now)
      ensures db.available ==> dialog.products == WithStatus(old(dialog.products), productId, newStatus)
      ensures db.available ==> exists rows: seq<Order> ::
        Listing(db.orders, PayoutFilter(searchQuery), NoOrder, rows) && LoadedAll(orders, rows, db.products, db.itemStatuses)
      ensures db.available ==> expectedPayouts == ExpectedPayoutsAsWritten(orders)
      ensures !db.available ==> db.itemStatuses == old(db.itemStatuses) && unchanged(this)
      ensures !db.available ==> dialog.products == old(dialog.products)
    {
      dialog.HandleStatusChange(productId, newStatus, now);
      if db.available {
        LoadOrders();
      }
    }
  }
}
