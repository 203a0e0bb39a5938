/**
 * The payout dialog of src/components/admin/PayoutDetailsModal.tsx: one line
 * per order item with its product and its payout status, an upsert into the
 * item status table when a status is picked, and the expected payout of the
 * order, which counts sold items only.
 */
module PayoutDetailsModal {
  import opened Store
  import opened Schema
  import opened OrderDetailsModal

  // ---------------------------------------------------------------------------
  // Reading the item status table
  // ---------------------------------------------------------------------------

  predicate IsPairRow(r: ItemStatusRow, orderId: string, productId: string) {
    r.orderId == orderId && r.productId == productId
  }

  predicate HasPairRow(t: map<string, ItemStatusRow>, orderId: string, productId: string) {
    exists k :: k in t && IsPairRow(t[k], orderId, productId)
  }

  /** At most one status row per (order, product) pair. */
  predicate UniquePairs(t: map<string, ItemStatusRow>) {
    forall k1, k2 :: k1 in t && k2 in t && IsPairRow(t[k2], t[k1].orderId, t[k1].productId) ==> k1 == k2
  }

  /**
   * `SELECT status ... WHERE orderId = ? AND productId = ?` read as a status:
   * `s` is the status of a row of that pair, or `unsold` when there is none.
   */
  ghost predicate StatusReads(t: map<string, ItemStatusRow>, orderId: string, productId: string, s: ItemStatus) {
    if HasPairRow(t, orderId, productId) then
      exists k :: k in t && IsPairRow(t[k], orderId, productId) && t[k].status == s
    else s == Unsold
  }

  /** The lookup both payout components do per item. */
  method LookupStatus(t: map<string, ItemStatusRow>, orderId: string, productId: string) returns (s: ItemStatus)
    ensures StatusReads(t, orderId, productId, s)
    ensures !HasPairRow(t, orderId, productId) ==> s == Unsold
  {
    if k :| k in t && IsPairRow(t[k], orderId, productId) {
      s := t[k].status;
    } else {
      s := Unsold;
    }
  }

  /** With one row per pair the status read is determined. */
  lemma StatusReadsUnique(t: map<string, ItemStatusRow>, orderId: string, productId: string, s1: ItemStatus, s2: ItemStatus)
    requires UniquePairs(t)
    requires StatusReads(t, orderId, productId, s1) && StatusReads(t, orderId, productId, s2)
    ensures s1 == s2
  {
  }

  // ---------------------------------------------------------------------------
  // The upsert
  // ---------------------------------------------------------------------------

  /** `UPDATE ... SET status = ?, updatedAt = ? WHERE orderId = ? AND productId = ?`. */
  function UpdatePair(t: map<string, ItemStatusRow>, orderId: string, productId: string, s: ItemStatus, now: Timestamp): (t': map<string, ItemStatusRow>)
    ensures t'.Keys == t.Keys
    ensures forall k :: k in t && IsPairRow(t[k], orderId, productId) ==> t'[k] == t[k].(status := s, updatedAt := now)
    ensures forall k :: k in t && !IsPairRow(t[k], orderId, productId) ==> t'[k] == t[k]
  {
    map k | k in t :: if IsPairRow(t[k], orderId, productId) then t[k].(status := s, updatedAt := now) else t[k]
  }

  /** The status row `handleStatusChange` inserts for a pair without one. */
  function NewStatusRow(orderId: string, productId: string, s: ItemStatus, now: Timestamp): ItemStatusRow {
    ItemStatusRow(MintId("status_", now), orderId, productId, s, now, now)
  }

  /** Update the pair's row when there is one, insert a row for the pair otherwise. */
  function Upsert(t: map<string, ItemStatusRow>, orderId: string, productId: string, s: ItemStatus, now: Timestamp): (r: map<string, ItemStatusRow>)
    ensures t.Keys <= r.Keys
    ensures forall k :: k in r ==> k in t || k == MintId("status_", now)
  {
    if HasPairRow(t, orderId, productId) then UpdatePair(t, orderId, productId, s, now)
    else Insert(t, MintId("status_", now), NewStatusRow(orderId, productId, s, now))
  }

  /**
   * The upsert never creates a second row for a pair, reads back the new
   * status (unless the minted id was already taken, when the insert fails),
   * and leaves every row of every other pair as it was.
   */
  lemma {:induction false} UpsertProperties(t: map<string, ItemStatusRow>, orderId: string, productId: string, s: ItemStatus, now: Timestamp)
    requires UniquePairs(t)
    ensures UniquePairs(Upsert(t, orderId, productId, s, now))
    ensures HasPairRow(t, orderId, productId) || MintId("status_", now) !in t ==>
      StatusReads(Upsert(t, orderId, productId, s, now), orderId, productId, s)
    ensures forall k :: k in t && !IsPairRow(t[k], orderId, productId) ==>
      k in Upsert(t, orderId, productId, s, now) && Upsert(t, orderId, productId, s, now)[k] == t[k]
  {
    if HasPairRow(t, orderId, productId) {
      UpdatePairProperties(t, orderId, productId, s, now);
    } else if MintId("status_", now) !in t {
      InsertPairProperties(t, orderId, productId, s, now);
    }
  }

  /** Updating the rows of a pair that has one keeps one row per pair and makes the new status read back. */
  lemma UpdatePairProperties(t: map<string, ItemStatusRow>, orderId: string, productId: string, s: ItemStatus, now: Timestamp)
    requires UniquePairs(t) && HasPairRow(t, orderId, productId)
    ensures UniquePairs(UpdatePair(t, orderId, productId, s, now))
    ensures StatusReads(UpdatePair(t, orderId, productId, s, now), orderId, productId, s)
  {
    var t' := UpdatePair(t, orderId, productId, s, now);
    var k :| k in t && IsPairRow(t[k], orderId, productId);
    assert IsPairRow(t'[k], orderId, productId) && t'[k].status == s;
  }

  /** Inserting the first row of a pair under a fresh id keeps one row per pair and makes the new status read back. */
  lemma InsertPairProperties(t: map<string, ItemStatusRow>, orderId: string, productId: string, s: ItemStatus, now: Timestamp)
    requires UniquePairs(t) && !HasPairRow(t, orderId, productId) && MintId("status_", now) !in t
    ensures UniquePairs(t[MintId("status_", now) := NewStatusRow(orderId, productId, s, now)])
    ensures StatusReads(t[MintId("status_", now) := NewStatusRow(orderId, productId, s, now)], orderId, productId, s)
  {
    var id := MintId("status_", now);
    var t' := t[id := NewStatusRow(orderId, productId, s, now)];
    assert IsPairRow(t'[id], orderId, productId) && t'[id].status == s;
    forall k1, k2 | k1 in t' && k2 in t' && IsPairRow(t'[k2], t'[k1].orderId, t'[k1].productId)
      ensures k1 == k2
    {
      if (k1 == id) != (k2 == id) {
        assert false;
      }
    }
  }

  // ---------------------------------------------------------------------------
  // The lines and the expected payout
  // ---------------------------------------------------------------------------

  /**
   * One line: `{ ...product, quantity, status }`. When the product row is
   * missing the spread adds nothing, so the line has no id and no price.
   */
  datatype PayoutLine = PayoutLine(id: Option<string>, price: Option<real>, quantity: int, status: ItemStatus)

  function LineFor(item: OrderItem, products: map<string, Product>, s: ItemStatus): (l: PayoutLine)
    ensures l.quantity == item.quantity && l.status == s
    ensures l.price.Some? <==> item.productId in products
    ensures item.productId in products ==> l.price.value == products[item.productId].price
  {
    if item.productId in products then
      PayoutLine(Some(products[item.productId].id), Some(products[item.productId].price), item.quantity, s)
    else PayoutLine(None, None, item.quantity, s)
  }

  /** `products.map(p => p.id === productId ? { ...p, status } : p)`. */
  function WithStatus(lines: seq<PayoutLine>, productId: string, s: ItemStatus): (r: seq<PayoutLine>)
    ensures |r| == |lines|
    ensures forall i :: 0 <= i < |lines| && lines[i].id == Some(productId) ==> r[i] == lines[i].(status := s)
    ensures forall i :: 0 <= i < |lines| && lines[i].id != Some(productId) ==> r[i] == lines[i]
  {
    if lines == [] then []
    else [if lines[0].id == Some(productId) then lines[0].(status := s) else lines[0]] + WithStatus(lines[1..], productId, s)
  }

  /**
   * "Expected Payout": price times quantity added up over the sold lines.
   * `None` is JavaScript's NaN: a sold line without a price poisons the sum.
   */
  function ExpectedPayout(lines: seq<PayoutLine>): (payout: Option<real>)
    ensures payout.None? <==> exists i :: 0 <= i < |lines| && lines[i].status == Sold && lines[i].price.None?
  {
    if lines == [] then Some(0.0)
    else
      var rest := ExpectedPayout(lines[1..]);
      if lines[0].status != Sold then rest
      else if lines[0].price.None? || rest.None? then None
      else Some(Amount(lines[0].price.value, lines[0].quantity) + rest.value)
  }

  /** Only sold lines count: lines with any other status can be dropped without changing the payout. */
  function SoldLines(lines: seq<PayoutLine>): (r: seq<PayoutLine>)
    ensures forall i :: 0 <= i < |r| ==> r[i].status == Sold
  {
    if lines == [] then []
    else if lines[0].status == Sold then [lines[0]] + SoldLines(lines[1..])
    else SoldLines(lines[1..])
  }

  lemma {:induction false} OnlySoldLinesCount(lines: seq<PayoutLine>)
    ensures ExpectedPayout(lines) == ExpectedPayout(SoldLines(lines))
    decreases |lines|
  {
    if lines != [] {
      OnlySoldLinesCount(lines[1..]);
      if lines[0].status == Sold {
        var sold := SoldLines(lines);
        assert sold == [lines[0]] + SoldLines(lines[1..]);
        assert sold[0] == lines[0] && sold[1..] == SoldLines(lines[1..]);
      }
    }
  }

  /** With nothing sold the expected payout is 0. */
  lemma {:induction false} NothingSoldPaysZero(lines: seq<PayoutLine>)
    requires forall i :: 0 <= i < |lines| ==> lines[i].status != Sold
    ensures ExpectedPayout(lines) == Some(0.0)
    decreases |lines|
  {
    if lines != [] {
      NothingSoldPaysZero(lines[1..]);
    }
  }

  /** The lines of an order's items under a status per product id. */
  function LinesFor(items: seq<OrderItem>, products: map<string, Product>, statuses: map<string, ItemStatus>): (r: seq<PayoutLine>)
    ensures |r| == |items|
  {
    if items == [] then []
    else
      var s := if items[0].productId in statuses then statuses[items[0].productId] else Unsold;
      [LineFor(items[0], products, s)] + LinesFor(items[1..], products, statuses)
  }

  /** The sold part of an order's value, priced from the product table. */
  function SoldAmount(items: seq<OrderItem>, products: map<string, Product>, statuses: map<string, ItemStatus>): real {
    if items == [] then 0.0
    else
      var sold := items[0].productId in statuses && statuses[items[0].productId] == Sold;
      (if sold then ItemAmount(items[0], products) else 0.0) + SoldAmount(items[1..], products, statuses)
  }

  /**
   * When every product of the order exists the dialog's expected payout is a
   * number, the sold part of the order's value.
   */
  lemma {:induction false} ExpectedPayoutIsSoldAmount(items: seq<OrderItem>, products: map<string, Product>, statuses: map<string, ItemStatus>)
    requires forall i :: 0 <= i < |items| ==> items[i].productId in products
    ensures ExpectedPayout(LinesFor(items, products, statuses)) == Some(SoldAmount(items, products, statuses))
    decreases |items|
  {
    if items != [] {
      ExpectedPayoutIsSoldAmount(items[1..], products, statuses);
      var lines := LinesFor(items, products, statuses);
      assert lines[1..] == LinesFor(items[1..], products, statuses);
      assert lines[0].price == Some(products[items[0].productId].price);
      assert lines[0].status == Sold <==> items[0].productId in statuses && statuses[items[0].productId] == Sold;
    }
  }

  /** The sold part never exceeds the whole when prices and quantities are not negative. */
  lemma {:induction false} SoldAmountAtMostTotal(items: seq<OrderItem>, products: map<string, Product>, statuses: map<string, ItemStatus>)
    requires forall i :: 0 <= i < |items| ==> items[i].quantity >= 0
    requires forall k :: k in products ==> products[k].price >= 0.0
    ensures 0.0 <= SoldAmount(items, products, statuses) <= ItemsAmount(items, products)
    decreases |items|
  {
    if items != [] {
      SoldAmountAtMostTotal(items[1..], products, statuses);
    }
  }

  // ---------------------------------------------------------------------------
  // The component
  // ---------------------------------------------------------------------------

  /** Line `l` shows item `item` of order `orderId` with the status the table holds for it. */
  ghost predicate ShowsItem(l: PayoutLine, item: OrderItem, orderId: string, db_products: map<string, Product>, t: map<string, ItemStatusRow>) {
    exists s :: StatusReads(t, orderId, item.productId, s) && l == LineFor(item, db_products, s)
  }

  class PayoutDetailsModal {
    const db: Database
    const order: Option<Order>
    var products: seq<PayoutLine>

    constructor (db: Database, order: Option<Order>)
      ensures this.db == db && this.order == order && products == []
    {
      this.db := db;
      this.order := order;
      products := [];
    }

    /** One line per item, in item order, each with its product and its stored (or default) status. */
    method LoadProducts()
      modifies this
      ensures order.Some? && db.available ==> |products| == |order.value.items|
      ensures order.Some? && db.available ==> forall i :: 0 <= i < |products| ==>
        ShowsItem(products[i], order.value.items[i], order.value.id, db.products, db.itemStatuses)
      ensures order.None? || !db.available ==> products == old(products)
    {
      if order.Some? && db.available {
        var o := order.value;
        var lines: seq<PayoutLine> := [];
        for i := 0 to |o.items|
          invariant |lines| == i
          invariant forall j :: 0 <= j < i ==> ShowsItem(lines[j], o.items[j], o.id, db.products, db.itemStatuses)
        {
          var s := LookupStatus(db.itemStatuses, o.id, o.items[i].productId);
          lines := lines + [LineFor(o.items[i], db.products, s)];
        }
        products := lines;
      }
    }

    /**
     * Picking a status for the line of `productId`: upserts the pair's row
     * and relabels the matching lines. A failure is only logged. The
     * `onStatusUpdate` call that follows a success is the payouts panel's
     * reload, modelled by `PayoutsManager.HandleItemStatusChange`.
     */
    method HandleStatusChange(productId: string, newStatus: ItemStatus, now: Timestamp)
      requires order.Some?
      modifies this, db`itemStatuses
      ensures db.available ==> db.itemStatuses == Upsert(old(db.itemStatuses), order.value.id, productId, newStatus, now)
      ensures db.available ==> products == WithStatus(old(products), productId, newStatus)
      ensures !db.available ==> db.itemStatuses == old(db.itemStatuses) && products == old(products)
    {
      if db.available {
        db.itemStatuses := Upsert(db.itemStatuses, order.value.id, productId, newStatus, now);
        products := WithStatus(products, productId, newStatus);
      }
    }

    /** The dialog's "Expected Payout": NaN exactly when a sold line has no product behind it. */
    function Payout(): (payout: Option<real>)
      reads this
      ensures payout.None? <==> exists i :: 0 <= i < |products| && products[i].status == Sold && products[i].price.None?
    {
      ExpectedPayout(products)
    }
  }
}
