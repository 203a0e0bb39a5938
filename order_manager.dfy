/**
 * The admin order panel of src/components/admin/OrderManager.tsx: the status
 * buttons it offers for each order, the WHERE clause it assembles from the
 * search box and the status filter, and the status update itself.
 */
module OrderManager {
  import opened Store
  import opened Schema
  import opened OrderPage

  // ---------------------------------------------------------------------------
  // The offered transitions
  // ---------------------------------------------------------------------------

  /** How far along an order is; `denied` ends the order at the same stage as `processing`. */
  function Stage(s: OrderStatus): (n: nat)
    ensures n == 0 <==> s == Pending
    ensures n <= 3 && (n == 3 <==> s == Delivered)
  {
    match s
    case Pending => 0
    case Processing => 1
    case Denied => 1
    case Shipped => 2
    case Delivered => 3
  }

  /** The statuses whose buttons appear under an order with status `s`, in button order. */
  function Offered(s: OrderStatus): (r: seq<OrderStatus>)
    ensures forall i :: 0 <= i < |r| ==> Stage(r[i]) == Stage(s) + 1 && r[i] != Pending
    ensures r == [] <==> s == Delivered || s == Denied
  {
    match s
    case Pending => [Processing, Denied]
    case Processing => [Shipped]
    case Shipped => [Delivered]
    case Delivered => []
    case Denied => []
  }

  /** Exactly the four button edges: Approve, Deny, Mark as Shipped, Mark as Delivered. */
  lemma OfferedEdges(s: OrderStatus, t: OrderStatus)
    ensures t in Offered(s) <==>
      (s == Pending && t == Processing) || (s == Pending && t == Denied) ||
      (s == Processing && t == Shipped) || (s == Shipped && t == Delivered)
  {
  }

  /** A sequence of statuses one order can pass through by clicking the offered buttons. */
  predicate IsPath(path: seq<OrderStatus>) {
    forall i :: 0 <= i < |path| - 1 ==> path[i + 1] in Offered(path[i])
  }

  /** Every click moves one stage forward. */
  lemma {:induction false} PathStages(path: seq<OrderStatus>)
    requires IsPath(path) && |path| > 0
    ensures forall i :: 0 <= i < |path| ==> Stage(path[i]) == Stage(path[0]) + i
    decreases |path|
  {
    if |path| > 1 {
      var tail := path[1..];
      assert IsPath(tail) by {
        forall i | 0 <= i < |tail| - 1 ensures tail[i + 1] in Offered(tail[i]) {
          assert tail[i] == path[i + 1] && tail[i + 1] == path[i + 2];
        }
      }
      PathStages(tail);
      assert path[1] in Offered(path[0]);
      forall i | 1 <= i < |path| ensures Stage(path[i]) == Stage(path[0]) + i {
        assert path[i] == tail[i - 1];
      }
    }
  }

  /**
   * The admin panel never goes back: along any sequence of offered clicks no
   * status repeats, `pending` is never re-entered, and at most three clicks
   * are possible before the order is finished.
   */
  lemma {:induction false} NoWayBack(path: seq<OrderStatus>)
    requires IsPath(path) && |path| > 0
    ensures forall i, j :: 0 <= i < j < |path| ==> Stage(path[i]) < Stage(path[j]) && path[i] != path[j]
    ensures forall i :: 0 < i < |path| ==> path[i] != Pending
    ensures |path| <= 4
  {
    PathStages(path);
    assert Stage(path[|path| - 1]) <= 3;
  }

  // ---------------------------------------------------------------------------
  // The WHERE clause of loadOrders
  // ---------------------------------------------------------------------------

  /** The status dropdown: `all` or one status. */
  datatype StatusFilter = All | Only(status: OrderStatus)

  /** One entry of the `conditions` list. */
  datatype Condition = SenderOrOriginLike(query: string) | StatusIs(status: OrderStatus)

  predicate Holds(c: Condition, o: Order) {
    match c
    case SenderOrOriginLike(q) => Contains(o.sender, q) || Contains(o.origin, q)
    case StatusIs(s) => o.status == s
  }

  /** `conditions.join(' AND ')`; no conditions means no WHERE clause, which accepts every row. */
  predicate HoldsAll(conds: seq<Condition>, o: Order) {
    forall i :: 0 <= i < |conds| ==> Holds(conds[i], o)
  }

  function WhereOf(conds: seq<Condition>): (where: Order -> bool)
    ensures conds == [] ==> forall o :: where(o)
    ensures forall o, i :: 0 <= i < |conds| && where(o) ==> Holds(conds[i], o)
  {
    o => HoldsAll(conds, o)
  }

  /** The rows the panel means to list: the search as on the order page, ANDed with the status filter. */
  predicate Wanted(q: string, f: StatusFilter, o: Order) {
    SearchMatches(q, o) && (f.Only? ==> o.status == f.status)
  }

  function ManagerFilter(q: string, f: StatusFilter): (filter: Order -> bool)
    ensures forall o :: filter(o) ==> OrderSearch(q)(o)
    ensures f == All ==> forall o :: filter(o) == OrderSearch(q)(o)
    ensures f.Only? ==> forall o :: filter(o) ==> o.status == f.status
  {
    o => Wanted(q, f, o)
  }

  /** Pushes the search condition when there is a query, then the status condition unless `all` is chosen. */
  method BuildConditions(q: string, f: StatusFilter) returns (conds: seq<Condition>)
    ensures |conds| <= 2
    ensures conds == [] <==> q == "" && f == All
    ensures forall o :: HoldsAll(conds, o) <==> Wanted(q, f, o)
  {
    conds := [];
    if q != "" {
      conds := conds + [SenderOrOriginLike(q)];
    }
    if f.Only? {
      conds := conds + [StatusIs(f.status)];
    }
    forall o: Order ensures HoldsAll(conds, o) <==> Wanted(q, f, o) {
      if q != "" {
        assert conds[0] == SenderOrOriginLike(q);
      }
      if f.Only? {
        assert conds[|conds| - 1] == StatusIs(f.status);
      }
    }
  }

  function CreatedAtKey(o: Order): int {
    o.createdAt
  }

  class OrderManager {
    const db: Database
    var orders: seq<Order>
    var searchQuery: string
    var selectedStatus: StatusFilter
    var error: Option<string>

    constructor (db: Database)
      ensures this.db == db && orders == [] && searchQuery == "" && selectedStatus == All && error == None
    {
      this.db := db;
      orders := [];
      searchQuery := "";
      selectedStatus := All;
      error := None;
    }

    /** Lists the orders passing the assembled WHERE clause, newest first. */
    method LoadOrders()
      modifies this
      ensures db.available ==> Listing(db.orders, ManagerFilter(searchQuery, selectedStatus), CreatedAtKey, orders)
      ensures db.available ==> error == old(error)
      ensures !db.available ==> orders == old(orders) && error == Some("Failed to load orders")
      ensures searchQuery == old(searchQuery) && selectedStatus == old(selectedStatus)
    {
      if db.available {
        var conds := BuildConditions(searchQuery, selectedStatus);
        var ids, rows := Select(db.orders, WhereOf(conds), CreatedAtKey);
        ListingSameFilter(db.orders, WhereOf(conds), ManagerFilter(searchQuery, selectedStatus), CreatedAtKey, rows);
        orders := rows;
      } else {
        error := Some("Failed to load orders");
      }
    }

    /**
     * Writes `newStatus` into the order `orderId` and reloads; the handler
     * itself accepts any status, the buttons decide which ones are offered.
     * A failure is only logged.
     */
    method HandleStatusChange(orderId: string, newStatus: OrderStatus)
      modifies this, db`orders
      ensures db.available ==> db.orders == SetStatus(old(db.orders), orderId, newStatus)
      ensures db.available ==> Listing(db.orders, ManagerFilter(searchQuery, selectedStatus), CreatedAtKey, orders)
      ensures !db.available ==> db.orders == old(db.orders) && orders == old(orders)
      ensures error == old(error)
      ensures searchQuery == old(searchQuery) && selectedStatus == old(selectedStatus)
    {
      if db.available {
        db.orders := SetStatus(db.orders, orderId, newStatus);
        LoadOrders();
      }
    }
  }

  /** What the panel lists: each order passes the status filter and, for a non-empty query, the search. */
  lemma {:induction false} ListedOrdersPassFilters(t: map<string, Order>, q: string, f: StatusFilter, rows: seq<Order>)
    requires Listing(t, ManagerFilter(q, f), CreatedAtKey, rows)
    ensures f.Only? ==> forall i :: 0 <= i < |rows| ==> rows[i].status == f.status
    ensures q != "" ==> forall i :: 0 <= i < |rows| ==> Contains(rows[i].sender, q) || Contains(rows[i].origin, q)
    ensures f == All ==> forall k :: k in t && SearchMatches(q, t[k]) ==> t[k] in rows
    ensures forall i, j :: 0 <= i < j < |rows| ==> rows[i].createdAt >= rows[j].createdAt
  {
    ListingRows(t, ManagerFilter(q, f), CreatedAtKey, rows);
  }

  /** Clicking an offered button changes that one order's status, one stage forward, and nothing else. */
  lemma OfferedClick(t: map<string, Order>, id: string, next: OrderStatus)
    requires id in t && next in Offered(t[id].status)
    ensures Stage(SetStatus(t, id, next)[id].status) == Stage(t[id].status) + 1
    ensures SetStatus(t, id, next)[id] == t[id].(status := next)
    ensures forall k :: k in t && k != id ==> SetStatus(t, id, next)[k] == t[k]
  {
  }
}
