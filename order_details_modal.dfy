/**
 * The order detail dialog of src/components/orders/OrderDetailsModal.tsx:
 * it looks up the order's warehouse and each item's product, keeps the items
 * whose product exists, and shows two totals.
 */
module OrderDetailsModal {
  import opened Store
  import opened Schema

  /** One resolved line: the product row and the ordered quantity. */
  datatype ItemDetail = ItemDetail(product: Product, quantity: int)

  /** What one item contributes to the list: its line, or nothing when its product is not found. */
  function ResolveOne(item: OrderItem, products: map<string, Product>): (r: seq<ItemDetail>)
    ensures |r| <= 1
    ensures r != [] <==> item.productId in products
    ensures r != [] ==> r[0] == ItemDetail(products[item.productId], item.quantity)
  {
    if item.productId in products then [ItemDetail(products[item.productId], item.quantity)] else []
  }

  /** The list the loop builds: item by item, in order, skipping items whose product is missing. */
  function Resolve(items: seq<OrderItem>, products: map<string, Product>): (r: seq<ItemDetail>)
    ensures |r| <= |items|
  {
    if items == [] then []
    else Resolve(items[..|items| - 1], products) + ResolveOne(items[|items| - 1], products)
  }

  /** Resolving a concatenation resolves each part. */
  lemma {:induction false} ResolveAppend(a: seq<OrderItem>, b: seq<OrderItem>, products: map<string, Product>)
    ensures Resolve(a + b, products) == Resolve(a, products) + Resolve(b, products)
    decreases |b|
  {
    if b == [] {
      assert a + b == a;
    } else {
      var b' := b[..|b| - 1];
      assert (a + b)[..|a + b| - 1] == a + b';
      ResolveAppend(a, b', products);
    }
  }

  /** When every product is found nothing is dropped and each line keeps its item's product and quantity. */
  lemma {:induction false} ResolveAllFound(items: seq<OrderItem>, products: map<string, Product>)
    requires forall i :: 0 <= i < |items| ==> items[i].productId in products
    ensures |Resolve(items, products)| == |items|
    ensures forall i :: 0 <= i < |items| ==>
      Resolve(items, products)[i] == ItemDetail(products[items[i].productId], items[i].quantity)
    decreases |items|
  {
    if items != [] {
      ResolveAllFound(items[..|items| - 1], products);
    }
  }

  /** When no product is found the dialog lists nothing. */
  lemma {:induction false} ResolveNoneFound(items: seq<OrderItem>, products: map<string, Product>)
    requires forall i :: 0 <= i < |items| ==> items[i].productId !in products
    ensures Resolve(items, products) == []
    decreases |items|
  {
    if items != [] {
      ResolveNoneFound(items[..|items| - 1], products);
    }
  }

  /** Unit price times quantity: what `price * quantity` computes, exactly. */
  function Amount(price: real, quantity: int): real {
    price * quantity as real
  }

  /** The amount of one line. */
  function LineAmount(d: ItemDetail): real {
    Amount(d.product.price, d.quantity)
  }

  /** "Total Items": the quantities added up. */
  function TotalItems(details: seq<ItemDetail>): (n: int)
    ensures (forall i :: 0 <= i < |details| ==> details[i].quantity >= 1) ==> n >= |details|
    ensures (forall i :: 0 <= i < |details| ==> details[i].quantity >= 0) ==> n >= 0
  {
    if details == [] then 0 else details[0].quantity + TotalItems(details[1..])
  }

  /** "Total Amount": the line amounts added up. */
  function TotalAmount(details: seq<ItemDetail>): (total: real)
    ensures (forall i :: 0 <= i < |details| ==> details[i].product.price >= 0.0 && details[i].quantity >= 0) ==> total >= 0.0
  {
    if details == [] then 0.0 else LineAmount(details[0]) + TotalAmount(details[1..])
  }

  lemma {:induction false} TotalsAppend(a: seq<ItemDetail>, b: seq<ItemDetail>)
    ensures TotalItems(a + b) == TotalItems(a) + TotalItems(b)
    ensures TotalAmount(a + b) == TotalAmount(a) + TotalAmount(b)
    decreases |a|
  {
    if a == [] {
      assert a + b == b;
    } else {
      assert (a + b)[1..] == a[1..] + b;
      TotalsAppend(a[1..], b);
    }
  }

  /** What one order item is worth when priced from the product table: 0 when its product is missing. */
  function ItemAmount(item: OrderItem, products: map<string, Product>): real {
    if item.productId in products then Amount(products[item.productId].price, item.quantity) else 0.0
  }

  /** The order's value priced item by item from the product table. */
  function ItemsAmount(items: seq<OrderItem>, products: map<string, Product>): real {
    if items == [] then 0.0 else ItemAmount(items[0], products) + ItemsAmount(items[1..], products)
  }

  /** Adding one more item adds its amount: the running `total +=` of a loop computes `ItemsAmount`. */
  lemma {:induction false} ItemsAmountSnoc(items: seq<OrderItem>, item: OrderItem, products: map<string, Product>)
    ensures ItemsAmount(items + [item], products) == ItemsAmount(items, products) + ItemAmount(item, products)
    decreases |items|
  {
    if items != [] {
      assert (items + [item])[1..] == items[1..] + [item];
      ItemsAmountSnoc(items[1..], item, products);
    }
  }

  /** The dialog's Total Amount is the order's value item by item, missing products counting 0. */
  lemma {:induction false} TotalAmountOfResolved(items: seq<OrderItem>, products: map<string, Product>)
    ensures TotalAmount(Resolve(items, products)) == ItemsAmount(items, products)
    decreases |items|
  {
    if items != [] {
      var first, rest := items[..1], items[1..];
      assert items == first + rest;
      ResolveAppend(first, rest, products);
      assert Resolve(first, products) == ResolveOne(items[0], products) by {
        assert first[..0] == [];
      }
      TotalsAppend(Resolve(first, products), Resolve(rest, products));
      TotalAmountOfResolved(rest, products);
    }
  }

  class OrderDetailsModal {
    const db: Database
    var order: Option<Order>
    var warehouse: Option<Warehouse>
    var orderItems: seq<ItemDetail>

    constructor (db: Database, order: Option<Order>)
      ensures this.db == db && this.order == order && warehouse == None && orderItems == []
    {
      this.db := db;
      this.order := order;
      warehouse := None;
      orderItems := [];
    }

    /**
     * Loads the warehouse (the first row with the order's warehouse id, if any)
     * and the resolved item list. Without an order nothing happens; when the
     * store cannot be reached the failure is only logged.
     */
    method LoadDetails()
      modifies this
      ensures order == old(order)
      ensures order.Some? && db.available ==>
        && warehouse == (if order.value.warehouseId in db.warehouses then Some(db.warehouses[order.value.warehouseId]) else None)
        && orderItems == Resolve(order.value.items, db.products)
      ensures order.None? || !db.available ==> warehouse == old(warehouse) && orderItems == old(orderItems)
    {
      if order.Some? && db.available {
        var o := order.value;
        warehouse := if o.warehouseId in db.warehouses then Some(db.warehouses[o.warehouseId]) else None;
        var items := o.items;
        var products := db.products;
        var itemDetails: seq<ItemDetail> := [];
        for i := 0 to |items|
          invariant itemDetails == Resolve(items[..i], products)
        {
          assert items[..i + 1][..i] == items[..i];
          if items[i].productId in products {
            itemDetails := itemDetails + [ItemDetail(products[items[i].productId], items[i].quantity)];
          }
        }
        assert items[..|items|] == items;
        orderItems := itemDetails;
      }
    }

    /** The dialog is shown only while it has an order. */
    predicate Rendered()
      reads this
    {
      order.Some?
    }
  }
}
