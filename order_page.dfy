/**
 * The order page of src/pages/OrderPage.tsx: the order search, and the
 * handler that stores a submitted order form as a new `pending` order.
 */
module OrderPage {
  import opened Store
  import opened Schema
  import opened AddOrderModal

  /** The search box on this page: origin or sender contains the query; an empty query lists every order. */
  predicate SearchMatches(q: string, o: Order)
    ensures SearchMatches(q, o) <==> (exists i: nat :: OccursAt(o.origin, q, i)) || (exists i: nat :: OccursAt(o.sender, q, i))
  {
    ContainsIffWitness(o.origin, q);
    ContainsIffWitness(o.sender, q);
    Matches(q, o.origin) || Matches(q, o.sender)
  }

  function OrderSearch(q: string): Order -> bool {
    o => SearchMatches(q, o)
  }

  /** `ORDER BY createdAt DESC`. */
  function CreatedAt(o: Order): int {
    o.createdAt
  }

  /** The row `handleAddOrder` inserts for a submitted form at time `now`. */
  function NewOrderRow(form: OrderForm, now: Timestamp): (o: Order)
    ensures o.id == MintId("ord_", now) && o.status == Pending && o.createdAt == now
    ensures o.items == form.items
    ensures o.warehouseId == form.warehouseId && o.origin == form.origin
    ensures o.sender == form.sender && o.sendDate == form.sendDate
  {
    Order(MintId("ord_", now), form.warehouseId, form.origin, form.sender, form.items, Pending, form.sendDate, now)
  }

  /** `UPDATE orders SET status = ? WHERE id = ?`, shared by both status-changing paths. */
  function SetStatus(orders: map<string, Order>, id: string, s: OrderStatus): (t: map<string, Order>)
    ensures t.Keys == orders.Keys
    ensures id in orders ==> t[id] == orders[id].(status := s)
    ensures forall k :: k in orders && k != id ==> t[k] == orders[k]
  {
    UpdateRow(orders, id, (o: Order) => o.(status := s))
  }

  class OrderPage {
    const db: Database
    var searchQuery: string
    var orders: seq<Order>
    var error: Option<string>
    var isAddModalOpen: bool

    constructor (db: Database)
      ensures this.db == db && searchQuery == "" && orders == [] && error == None && !isAddModalOpen
    {
      this.db := db;
      searchQuery := "";
      orders := [];
      error := None;
      isAddModalOpen := false;
    }

    /**
     * Lists the orders matching the search, newest first. When the store
     * cannot be reached the list is kept and the load error is recorded.
     */
    method LoadOrders()
      modifies this
      ensures db.available ==> Listing(db.orders, OrderSearch(searchQuery), CreatedAt, orders) && error == old(error)
      ensures !db.available ==> orders == old(orders) && error == Some("Failed to load orders")
      ensures searchQuery == old(searchQuery) && isAddModalOpen == old(isAddModalOpen)
    {
      if db.available {
        var ids;
        ids, orders := Select(db.orders, OrderSearch(searchQuery), CreatedAt);
      } else {
        error := Some("Failed to load orders");
      }
    }

    /** Typing in the search box reloads the list for the new query. */
    method SetSearchQuery(q: string)
      modifies this
      ensures searchQuery == q
      ensures db.available ==> Listing(db.orders, OrderSearch(q), CreatedAt, orders) && error == old(error)
      ensures !db.available ==> orders == old(orders) && error == Some("Failed to load orders")
    {
      searchQuery := q;
      LoadOrders();
    }

    /**
     * Inserts the submitted order as `pending` under the id `ord_<now>`,
     * closes the form and reloads. When the store cannot be reached nothing
     * is written and the add error is recorded.
     */
    method HandleAddOrder(form: OrderForm, now: Timestamp)
      modifies this, db`orders
      ensures db.available ==> db.orders == Insert(old(db.orders), MintId("ord_", now), NewOrderRow(form, now))
      ensures db.available ==> !isAddModalOpen && error == old(error)
      ensures db.available ==> Listing(db.orders, OrderSearch(searchQuery), CreatedAt, orders)
      ensures !db.available ==> db.orders == old(db.orders) && orders == old(orders)
      ensures !db.available ==> isAddModalOpen == old(isAddModalOpen) && error == Some("Failed to add order")
      ensures searchQuery == old(searchQuery)
    {
      if db.available {
        var id := MintId("ord_", now);
        db.orders := Insert(db.orders, id, NewOrderRow(form, now));
        isAddModalOpen := false;
        LoadOrders();
      } else {
        error := Some("Failed to add order");
      }
    }

    /** What the page shows: once an error is recorded, only the error. */
    function Screen(): (v: View)
      reads this
      ensures error.Some? ==> v == ErrorOnly(error.value)
      ensures error.None? ==> v == Content
    {
      ViewOf(error)
    }
  }

  /** Every order this page creates starts out `pending`, whatever the form holds. */
  lemma NewOrdersArePending(form: OrderForm, now: Timestamp, orders: map<string, Order>)
    requires MintId("ord_", now) !in orders
    ensures Insert(orders, MintId("ord_", now), NewOrderRow(form, now))[MintId("ord_", now)].status == Pending
  {
  }

  /** What a listing on this page promises about each listed order. */
  lemma {:induction false} ListedOrdersMatch(t: map<string, Order>, q: string, rows: seq<Order>)
    requires Listing(t, OrderSearch(q), CreatedAt, rows)
    ensures forall i :: 0 <= i < |rows| ==> rows[i] in t.Values
    ensures q != "" ==> forall i :: 0 <= i < |rows| ==> Contains(rows[i].origin, q) || Contains(rows[i].sender, q)
    ensures forall k :: k in t && SearchMatches(q, t[k]) ==> t[k] in rows
    ensures forall i, j :: 0 <= i < j < |rows| ==> rows[i].createdAt >= rows[j].createdAt
  {
    ListingRows(t, OrderSearch(q), CreatedAt, rows);
  }

  /** The empty search lists every order. */
  lemma {:induction false} EmptySearchListsAll(t: map<string, Order>, rows: seq<Order>)
    requires Listing(t, OrderSearch(""), CreatedAt, rows)
    ensures forall k :: k in t ==> t[k] in rows
  {
    ListingRows(t, OrderSearch(""), CreatedAt, rows);
  }
}
