/**
 * The status dialog of src/components/orders/EditOrderModal.tsx: a dropdown of
 * three statuses and a submit that writes the chosen one over the order's
 * status, with no look at the status the order has now.
 */
module EditOrderModal {
  import opened Store
  import opened Schema
  import opened OrderPage
  import opened OrderManager
  import OrderTable

  /** The three `<option>`s of the dropdown. */
  const Selectable: seq<OrderStatus> := [Processing, Shipped, Delivered]

  lemma SelectableStatuses(s: OrderStatus)
    ensures s in Selectable <==> s != Pending && s != Denied
  {
  }

  class EditOrderModal {
    const db: Database
    var order: Option<Order>
    var status: OrderStatus

    /** The dropdown holds a status this dialog can write. */
    predicate Valid()
      reads this
    {
      status in Selectable
    }

    /**
     * Mounting: the selection starts at the order's status, or at `processing`
     * when there is no order yet (which is how the order table mounts it).
     */
    constructor (db: Database, order: Option<Order>)
      ensures this.db == db && this.order == order
      ensures status == if order.Some? then order.value.status else Processing
      ensures order.None? ==> Valid()
    {
      this.db := db;
      this.order := order;
      status := if order.Some? then order.value.status else Processing;
    }

    /**
     * The parent passes a different order: the selection is component state
     * initialised once, so it is kept as it was.
     */
    method ReceiveOrder(o: Option<Order>)
      modifies this
      ensures order == o && status == old(status)
      ensures old(Valid()) ==> Valid()
    {
      order := o;
    }

    /** Picking an option from the dropdown. */
    method SelectStatus(s: OrderStatus)
      requires s in Selectable
      modifies this
      ensures status == s && order == old(order) && Valid()
    {
      status := s;
    }

    /** While there is no order the dialog renders nothing. */
    predicate Rendered()
      reads this
    {
      order.Some?
    }

    /**
     * Writes the selected status into the order's row, whatever status the row
     * has now, then calls `onUpdate`, which the order table passes on from the
     * order page as its reload (`page`), and `onClose`, which clears the order
     * table's edited order (`table`), the prop this dialog renders from.
     * Without an order there is no form, so nothing happens; a failure is
     * only logged.
     */
    method HandleSubmit(page: OrderPage, table: OrderTable.OrderTable)
      requires page.db == db
      modifies this, db`orders, page, table
      ensures status == old(status) && (old(Valid()) ==> Valid())
      ensures old(order).Some? && db.available ==> db.orders == SetStatus(old(db.orders), old(order).value.id, status)
      ensures old(order).Some? && db.available ==> order == None && table.editingOrder == None
      ensures old(order).Some? && db.available ==>
        Listing(db.orders, OrderSearch(page.searchQuery), CreatedAt, page.orders) && page.error == old(page.error)
      ensures old(order).None? || !db.available ==> db.orders == old(db.orders) && order == old(order)
      ensures old(order).None? || !db.available ==> unchanged(page) && unchanged(table)
      ensures page.searchQuery == old(page.searchQuery) && page.isAddModalOpen == old(page.isAddModalOpen)
      ensures table.orders == old(table.orders) && table.orderDetails == old(table.orderDetails)
      ensures old(Valid()) && old(order).Some? && db.available && old(order).value.id in db.orders ==>
        db.orders[old(order).value.id].status != Pending && db.orders[old(order).value.id].status != Denied
    {
      if order.Some? && db.available {
        db.orders := SetStatus(db.orders, order.value.id, status);
        page.LoadOrders();
        table.CloseEditDialog();
        order := None;
      }
    }
  }

  /**
   * This dialog and the admin panel disagree: the panel offers `s` from `c`
   * only along the forward edges, while this dialog writes any of its three
   * statuses over any current status.
   */
  lemma {:induction false} DialogVersusPanel(c: OrderStatus, s: OrderStatus)
    requires s in Selectable
    ensures s in Offered(c) <==> (c == Pending && s == Processing) || (c == Processing && s == Shipped) || (c == Shipped && s == Delivered)
  {
    OfferedEdges(c, s);
  }

  /**
   * A delivered (or denied) order can be put back to `processing` through this
   * dialog, a step back the admin panel never offers.
   */
  lemma {:induction false} DialogCanGoBack(t: map<string, Order>, id: string)
    requires id in t && (t[id].status == Delivered || t[id].status == Denied)
    ensures SetStatus(t, id, Processing)[id].status == Processing
    ensures Processing in Selectable && Offered(t[id].status) == []
    ensures Stage(SetStatus(t, id, Processing)[id].status) <= Stage(t[id].status)
  {
    assert Offered(t[id].status) == [];
  }
}
