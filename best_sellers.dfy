/**
 * The best-sellers card of src/components/dashboard/BestSellers.tsx:
 * `SELECT * FROM products ORDER BY stockLevel DESC LIMIT 5`, shown as a list,
 * or "No products found" when the query returns nothing.
 */
module BestSellers {
  import opened Store
  import opened Schema

  /** The `LIMIT` of the query. */
  const Shown: nat := 5

  /** Non-increasing stock level. */
  predicate SortedByStock(ps: seq<Product>) {
    forall i, j :: 0 <= i < j < |ps| ==> ps[i].stockLevel >= ps[j].stockLevel
  }

  /** What the card renders. */
  datatype SellersView = Failed(message: string) | Loading | NoProductsFound | ProductList(products: seq<Product>)

  /** The error first, then the loading text, then "No products found" or the list. */
  function ViewFor(error: Option<string>, isLoading: bool, products: seq<Product>): (v: SellersView)
    ensures v.Failed? <==> error.Some?
    ensures v == NoProductsFound <==> error.None? && !isLoading && products == []
    ensures v.ProductList? ==> v.products == products && products != []
  {
    if error.Some? then Failed(error.value)
    else if isLoading then Loading
    else if products == [] then NoProductsFound
    else ProductList(products)
  }

  /** The query has no WHERE clause. */
  predicate AnyProduct(p: Product) {
    true
  }

  /** The `ORDER BY` key. */
  function StockOf(p: Product): int {
    p.stockLevel
  }

  /**
   * The first `n` rows of the stock-ordered listing of the whole table are
   * sorted, come from the table, and no row left out has more stock.
   */
  /**
   * `ps` is the start of a listing of the whole table by stock, highest
   * first: every table row appears in it at most once.
   */
  ghost predicate FirstRowsOf(t: map<string, Product>, ps: seq<Product>) {
    exists rows: seq<Product> :: Listing(t, AnyProduct, StockOf, rows) && |ps| <= |rows| && ps == rows[..|ps|]
  }

  lemma TopOfListing(t: map<string, Product>, rows: seq<Product>, n: nat)
    requires Listing(t, AnyProduct, StockOf, rows) && n <= |rows|
    ensures |rows| == |t|
    ensures SortedByStock(rows[..n])
    ensures forall i :: 0 <= i < n ==> rows[..n][i] in t.Values
    ensures forall k, i :: k in t && t[k] !in rows[..n] && 0 <= i < n ==> rows[..n][i].stockLevel >= t[k].stockLevel
  {
    WholeTableListed(t, rows);
    PrefixOfListing(t, rows, n);
  }

  /** The first `n` rows of a listing are the start of that listing. */
  lemma PrefixIsFirstRows(t: map<string, Product>, rows: seq<Product>, n: nat)
    requires Listing(t, AnyProduct, StockOf, rows) && n <= |rows|
    ensures FirstRowsOf(t, rows[..n])
  {
    assert rows[..n] == rows[..|rows[..n]|];
  }

  /** The listing without a WHERE clause holds every table row and nothing else, by stock descending. */
  lemma WholeTableListed(t: map<string, Product>, rows: seq<Product>)
    requires Listing(t, AnyProduct, StockOf, rows)
    ensures |rows| == |t|
    ensures forall i :: 0 <= i < |rows| ==> rows[i] in t.Values
    ensures forall k :: k in t ==> t[k] in rows
    ensures forall i, j :: 0 <= i < j < |rows| ==> StockOf(rows[i]) >= StockOf(rows[j])
  {
    ListingRows(t, AnyProduct, StockOf, rows);
    ListingAllCount(t, AnyProduct, StockOf, rows);
    forall k | k in t ensures t[k] in rows {
      assert AnyProduct(t[k]);
    }
  }

  /** The first `n` rows of a stock-ordered list of table rows, holding every table row. */
  lemma PrefixOfListing(t: map<string, Product>, rows: seq<Product>, n: nat)
    requires n <= |rows|
    requires forall i :: 0 <= i < |rows| ==> rows[i] in t.Values
    requires forall k :: k in t ==> t[k] in rows
    requires forall i, j :: 0 <= i < j < |rows| ==> StockOf(rows[i]) >= StockOf(rows[j])
    ensures SortedByStock(rows[..n])
    ensures forall i :: 0 <= i < n ==> rows[..n][i] in t.Values
    ensures forall k, i :: k in t && t[k] !in rows[..n] && 0 <= i < n ==> rows[..n][i].stockLevel >= t[k].stockLevel
  {
    LeftOutHasLess(t, rows, n);
    forall i, j | 0 <= i < j < n ensures rows[..n][i].stockLevel >= rows[..n][j].stockLevel {
      assert StockOf(rows[i]) >= StockOf(rows[j]);
    }
  }

  /** In a stock-ordered list holding every table row, a row past the first `n` has no more stock than any of them. */
  lemma LeftOutHasLess(t: map<string, Product>, rows: seq<Product>, n: nat)
    requires n <= |rows|
    requires forall k :: k in t ==> t[k] in rows
    requires forall i, j :: 0 <= i < j < |rows| ==> StockOf(rows[i]) >= StockOf(rows[j])
    ensures forall k, i :: k in t && t[k] !in rows[..n] && 0 <= i < n ==> rows[..n][i].stockLevel >= t[k].stockLevel
  {
    forall k, i | k in t && t[k] !in rows[..n] && 0 <= i < n
      ensures rows[..n][i].stockLevel >= t[k].stockLevel
    {
      var j :| 0 <= j < |rows| && rows[j] == t[k];
      assert StockOf(rows[i]) >= StockOf(rows[j]);
    }
  }

  /**
   * `SELECT * FROM products ORDER BY stockLevel DESC LIMIT 5`: the five
   * products with the most stock, most first, or all of them when there are
   * fewer; no table row twice, and none left out with more stock than one
   * returned.
   */
  method SelectTop(t: map<string, Product>) returns (ps: seq<Product>)
    ensures |ps| == if |t| < Shown then |t| else Shown
    ensures SortedByStock(ps)
    ensures forall i :: 0 <= i < |ps| ==> ps[i] in t.Values
    ensures forall k, i :: k in t && t[k] !in ps && 0 <= i < |ps| ==> ps[i].stockLevel >= t[k].stockLevel
    ensures FirstRowsOf(t, ps)
  {
    var ids, rows := Select(t, AnyProduct, StockOf);
    var n := if |rows| < Shown then |rows| else Shown;
    TopOfListing(t, rows, n);
    PrefixIsFirstRows(t, rows, n);
    ps := rows[..n];
  }

  class BestSellers {
    const db: Database
    var products: seq<Product>
    var isLoading: bool
    var error: Option<string>

    constructor (db: Database)
      ensures this.db == db && products == [] && isLoading && error == None
    {
      this.db := db;
      products := [];
      isLoading := true;
      error := None;
    }

    /**
     * Loads the five products with the most stock, most first; fewer when
     * the table has fewer. A failure records the load error and keeps the
     * list; either way loading ends.
     */
    method LoadProducts()
      modifies this
      ensures !isLoading
      ensures db.available ==> |products| == if |db.products| < Shown then |db.products| else Shown
      ensures db.available ==> SortedByStock(products) && error == old(error)
      ensures db.available ==> forall i :: 0 <= i < |products| ==> products[i] in db.products.Values
      ensures db.available ==> forall k, i :: k in db.products && db.products[k] !in products && 0 <= i < |products| ==>
        products[i].stockLevel >= db.products[k].stockLevel
      ensures db.available ==> FirstRowsOf(db.products, products)
      ensures !db.available ==> products == old(products) && error == Some("Failed to load best sellers")
    {
      isLoading := true;
      if db.available {
        products := SelectTop(db.products);
      } else {
        error := Some("Failed to load best sellers");
      }
      isLoading := false;
    }

    /** What the card shows: the error, the loading text, "No products found" or the list. */
    function Screen(): (v: SellersView)
      reads this
      ensures v.Failed? <==> error.Some?
      ensures v == NoProductsFound <==> error.None? && !isLoading && products == []
    {
      ViewFor(error, isLoading, products)
    }
  }
}
