/**
 * The order list of src/components/orders/OrderTable.tsx: per order it builds
 * a dictionary of details keyed by product id, shows the sum of the detail
 * totals as the row total, and offers the edit dialog to admins only.
 *
 * Because the dictionary is keyed by product id, an order that names the same
 * product in two items keeps only the later item: its row total undercounts
 * (see `DuplicateProductUndercounts`). `BuildMergedDetails` is the keyed
 * dictionary that adds such items up instead, and its row total is the
 * order's amount.
 */
module OrderTable {
  import opened Store
  import opened Schema
  import opened AuthContext
  import opened Routes
  import opened OrderDetailsModal

  /** One dictionary entry: the product row spread out, with the quantity and the line total. */
  datatype Detail = Detail(productId: string, product: Product, quantity: int, total: real)

  /** An insertion-ordered dictionary keyed by `productId` (a JavaScript object with string keys). */
  type Details = seq<Detail>

  function Keys(ds: Details): set<string> {
    if ds == [] then {} else {ds[0].productId} + Keys(ds[1..])
  }

  /** No key occurs twice, as in any JavaScript object. */
  predicate DistinctKeys(ds: Details) {
    forall i, j :: 0 <= i < j < |ds| ==> ds[i].productId != ds[j].productId
  }

  /** `details[d.productId] = d`: overwrite in place when the key is there, append otherwise. */
  function Put(ds: Details, d: Detail): (r: Details)
    ensures Keys(r) == Keys(ds) + {d.productId}
    ensures d.productId !in Keys(ds) ==> r == ds + [d]
    ensures d.productId in Keys(ds) ==> |r| == |ds|
    ensures d.productId in Keys(ds) && DistinctKeys(ds) ==>
      forall i :: 0 <= i < |r| ==> r[i] == if ds[i].productId == d.productId then d else ds[i]
    ensures DistinctKeys(ds) ==> DistinctKeys(r)
  {
    if ds == [] then [d]
    else if ds[0].productId == d.productId then [d] + ds[1..]
    else [ds[0]] + Put(ds[1..], d)
  }

  /** After `details[d.productId] = d` the entry is there, and every entry under another key stays. */
  lemma {:induction false} PutKeeps(ds: Details, d: Detail)
    ensures d in Put(ds, d)
    ensures forall x :: x in ds && x.productId != d.productId ==> x in Put(ds, d)
  {
    if ds != [] && ds[0].productId != d.productId {
      PutKeeps(ds[1..], d);
      assert forall x :: x in ds ==> x == ds[0] || x in ds[1..];
    }
  }

  /** The detail an item produces when its product is found. */
  function DetailOf(item: OrderItem, p: Product): (d: Detail)
    ensures d.productId == item.productId && d.quantity == item.quantity
    ensures d.total == Amount(p.price, item.quantity)
  {
    Detail(item.productId, p, item.quantity, Amount(p.price, item.quantity))
  }

  /** The dictionary `loadOrderDetails` builds for `items`, as written. */
  function BuildDetails(items: seq<OrderItem>, products: map<string, Product>): (r: Details)
    ensures forall k :: k in Keys(r) ==> k in products
    ensures forall i :: 0 <= i < |items| && items[i].productId in products ==> items[i].productId in Keys(r)
    ensures DistinctKeys(r)
  {
    if items == [] then []
    else
      var prefix := BuildDetails(items[..|items| - 1], products);
      var last := items[|items| - 1];
      if last.productId in products then Put(prefix, DetailOf(last, products[last.productId])) else prefix
  }

  /** `Object.values(details).reduce((sum, item) => sum + item.total, 0)`. */
  function SumTotals(ds: Details): real {
    if ds == [] then 0.0 else ds[0].total + SumTotals(ds[1..])
  }

  /** The dictionary only ever holds product ids the items name. */
  lemma {:induction false} BuildDetailsKeys(items: seq<OrderItem>, products: map<string, Product>)
    ensures forall k :: k in Keys(BuildDetails(items, products)) ==> exists i :: 0 <= i < |items| && items[i].productId == k
    decreases |items|
  {
    if items != [] {
      var prefix := items[..|items| - 1];
      BuildDetailsKeys(prefix, products);
      assert Keys(BuildDetails(items, products)) <= Keys(BuildDetails(prefix, products)) + {items[|items| - 1].productId};
      forall k | k in Keys(BuildDetails(items, products))
        ensures exists i :: 0 <= i < |items| && items[i].productId == k
      {
        if k != items[|items| - 1].productId {
          var i :| 0 <= i < |prefix| && prefix[i].productId == k;
          assert items[i].productId == k;
        }
      }
    }
  }

  // ---------------------------------------------------------------------------
  // The finding: a repeated product overwrites the earlier item
  // ---------------------------------------------------------------------------

  const SampleProduct := Product("p", "Widget", "Tools", 10.0, 100, 1, "w", None, 0)
  const SampleItems := [OrderItem("p", 2, None), OrderItem("p", 3, None)]

  /**
   * An order of 2 and then 3 units of the same product at 10.0: the dialog's
   * Total Amount is 50.0, but the row shows 30.0, since the second item
   * replaced the first in the dictionary.
   */
  lemma DuplicateProductUndercounts()
    ensures SumTotals(BuildDetails(SampleItems, map["p" := SampleProduct])) == 30.0
    ensures TotalAmount(Resolve(SampleItems, map["p" := SampleProduct])) == 50.0
  {
    var products := map["p" := SampleProduct];
    assert SampleItems[..1] == [SampleItems[0]];
    assert SampleItems[..1][..0] == [];
    var first := DetailOf(SampleItems[0], SampleProduct);
    assert BuildDetails(SampleItems[..1], products) == [first];
    assert BuildDetails(SampleItems, products) == [DetailOf(SampleItems[1], SampleProduct)];
    assert Resolve(SampleItems[..1], products) == [ItemDetail(SampleProduct, 2)];
    var lines := [ItemDetail(SampleProduct, 2), ItemDetail(SampleProduct, 3)];
    assert Resolve(SampleItems, products) == lines;
    assert lines[1..][1..] == [];
    assert TotalAmount(lines[1..]) == 30.0;
  }

  /** The corrected entry update: a repeated product adds its quantity and total to the entry already there. */
  function PutMerged(ds: Details, d: Detail): (r: Details)
    ensures Keys(r) == Keys(ds) + {d.productId}
    ensures d.productId !in Keys(ds) ==> r == ds + [d]
    ensures SumTotals(r) == SumTotals(ds) + d.total
  {
    if ds == [] then [d]
    else if ds[0].productId == d.productId then
      [ds[0].(quantity := ds[0].quantity + d.quantity, total := ds[0].total + d.total)] + ds[1..]
    else [ds[0]] + PutMerged(ds[1..], d)
  }

  /** The corrected dictionary: one entry per product, holding every item of that product. */
  function BuildMergedDetails(items: seq<OrderItem>, products: map<string, Product>): Details {
    if items == [] then []
    else
      var prefix := BuildMergedDetails(items[..|items| - 1], products);
      var last := items[|items| - 1];
      if last.productId in products then PutMerged(prefix, DetailOf(last, products[last.productId])) else prefix
  }

  /** With merged entries the row total is the order's amount, as in the detail dialog. */
  lemma {:induction false} MergedRowTotalIsOrderAmount(items: seq<OrderItem>, products: map<string, Product>)
    ensures SumTotals(BuildMergedDetails(items, products)) == TotalAmount(Resolve(items, products))
    ensures SumTotals(BuildMergedDetails(items, products)) == ItemsAmount(items, products)
    decreases |items|
  {
    if items != [] {
      var prefix := items[..|items| - 1];
      MergedRowTotalIsOrderAmount(prefix, products);
      TotalsAppend(Resolve(prefix, products), ResolveOne(items[|items| - 1], products));
    }
    TotalAmountOfResolved(items, products);
  }

  /**
   * Last write wins, for every order: the entry of a product is the detail of
   * the last item that names it, and it is the only entry for that product.
   * Earlier items of the same product leave no trace.
   */
  lemma {:induction false} LastItemWins(items: seq<OrderItem>, products: map<string, Product>, j: int)
    requires 0 <= j < |items| && items[j].productId in products
    requires forall i :: j < i < |items| ==> items[i].productId != items[j].productId
    ensures DetailOf(items[j], products[items[j].productId]) in BuildDetails(items, products)
    ensures forall x :: x in BuildDetails(items, products) && x.productId == items[j].productId ==>
      x == DetailOf(items[j], products[items[j].productId])
    decreases |items|
  {
    var r := BuildDetails(items, products);
    var d := DetailOf(items[j], products[items[j].productId]);
    var prefix := items[..|items| - 1];
    var last := items[|items| - 1];
    if j < |items| - 1 {
      assert prefix[j] == items[j];
      LastItemWins(prefix, products, j);
    }
    if last.productId in products {
      PutKeeps(BuildDetails(prefix, products), DetailOf(last, products[last.productId]));
    }
    assert d in r;
    forall x | x in r && x.productId == d.productId ensures x == d {
      var a :| 0 <= a < |r| && r[a] == x;
      var b :| 0 <= b < |r| && r[b] == d;
      assert a == b;
    }
  }

  /** When no product repeats, the code as written builds the same dictionary as the corrected one. */
  lemma {:induction false} DistinctProductsAgree(items: seq<OrderItem>, products: map<string, Product>)
    requires forall i, j :: 0 <= i < j < |items| ==> items[i].productId != items[j].productId
    ensures BuildDetails(items, products) == BuildMergedDetails(items, products)
    ensures SumTotals(BuildDetails(items, products)) == ItemsAmount(items, products)
    decreases |items|
  {
    if items != [] {
      var prefix := items[..|items| - 1];
      var last := items[|items| - 1];
      DistinctProductsAgree(prefix, products);
      BuildDetailsKeys(prefix, products);
      assert last.productId !in Keys(BuildDetails(prefix, products));
    }
    MergedRowTotalIsOrderAmount(items, products);
  }

  // ---------------------------------------------------------------------------
  // The component
  // ---------------------------------------------------------------------------

  /** The edit button and the edit dialog exist only for an admin. */
  predicate CanEdit(user: Option<User>) {
    IsAdmin(user)
  }

  /** An empty list shows "No orders found" instead of the table. */
  datatype TableView = NoOrdersFound | OrderRows(count: nat)

  function ViewFor(orders: seq<Order>): (v: TableView)
    ensures v == NoOrdersFound <==> orders == []
    ensures v.OrderRows? ==> v.count == |orders|
  {
    if orders == [] then NoOrdersFound else OrderRows(|orders|)
  }

  class OrderTable {
    const db: Database
    const user: Option<User>
    var orders: seq<Order>
    var orderDetails: map<string, Details>
    var editingOrder: Option<Order>

    constructor (db: Database, user: Option<User>, orders: seq<Order>)
      ensures this.db == db && this.user == user && this.orders == orders
      ensures orderDetails == map[] && editingOrder == None
    {
      this.db := db;
      this.user := user;
      this.orders := orders;
      orderDetails := map[];
      editingOrder := None;
    }

    /**
     * Builds the detail dictionary of one order item by item and files it
     * under the order's id; the other orders' dictionaries are untouched.
     */
    method LoadOrderDetails(order: Order)
      modifies this
      ensures db.available ==> orderDetails == old(orderDetails)[order.id := BuildDetails(order.items, db.products)]
      ensures !db.available ==> orderDetails == old(orderDetails)
      ensures orders == old(orders) && editingOrder == old(editingOrder)
    {
      if db.available {
        var items := order.items;
        var products := db.products;
        var details: Details := [];
        for i := 0 to |items|
          invariant details == BuildDetails(items[..i], products)
        {
          assert items[..i + 1][..i] == items[..i];
          var item := items[i];
          if item.productId in products {
            details := Put(details, DetailOf(item, products[item.productId]));
          }
        }
        assert items[..|items|] == items;
        orderDetails := orderDetails[order.id := details];
      }
    }

    /** The row total: the detail totals added up, 0 while no details are loaded. */
    function RowTotal(orderId: string): (total: real)
      reads this
      ensures orderId !in orderDetails ==> total == 0.0
    {
      if orderId in orderDetails then SumTotals(orderDetails[orderId]) else 0.0
    }

    /** The edit button: only an admin sees it, and clicking it hands the order to the dialog. */
    method StartEdit(order: Order)
      modifies this
      ensures CanEdit(user) ==> editingOrder == Some(order)
      ensures !CanEdit(user) ==> editingOrder == old(editingOrder)
      ensures orders == old(orders) && orderDetails == old(orderDetails)
    {
      if CanEdit(user) {
        editingOrder := Some(order);
      }
    }

    /** The status dialog's `onClose`: the table forgets the edited order. */
    method CloseEditDialog()
      modifies this
      ensures editingOrder == None
      ensures orders == old(orders) && orderDetails == old(orderDetails)
    {
      editingOrder := None;
    }
  }

  /** After a load, a row whose items name distinct products shows the order's amount. */
  lemma LoadedRowTotal(details: map<string, Details>, o: Order, products: map<string, Product>)
    requires forall i, j :: 0 <= i < j < |o.items| ==> o.items[i].productId != o.items[j].productId
    ensures SumTotals(details[o.id := BuildDetails(o.items, products)][o.id]) == ItemsAmount(o.items, products)
  {
    DistinctProductsAgree(o.items, products);
  }
}
