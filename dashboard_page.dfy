/**
 * The stock-level summary of src/pages/DashboardPage.tsx: every product row
 * falls into one of four stock buckets, a loop counts the rows per bucket,
 * and the chart of src/components/dashboard/StockLevelChart.tsx shows the
 * four counts, or "No stock data available" when all of them are 0.
 */
module DashboardPage {
  import opened Store
  import opened Schema

  datatype Bucket = HighStock | NearLowStock | LowStock | OutOfStock

  /** The if-chain of the loop body: exactly 0 is out of stock, anything else below 10 (negatives too) is low. */
  function Classify(stock: int): (b: Bucket)
    ensures b == OutOfStock <==> stock == 0
    ensures b == LowStock <==> stock != 0 && stock < 10
    ensures b == NearLowStock <==> 10 <= stock < 50
    ensures b == HighStock <==> stock >= 50
  {
    if stock == 0 then OutOfStock
    else if stock < 10 then LowStock
    else if stock < 50 then NearLowStock
    else HighStock
  }

  /** How many of `products` fall into bucket `b`. */
  function Count(products: seq<Product>, b: Bucket): (n: nat)
    ensures n <= |products|
  {
    if products == [] then 0
    else
      var last := products[|products| - 1];
      Count(products[..|products| - 1], b) + (if Classify(last.stockLevel) == b then 1 else 0)
  }

  /** The `levels` object: one counter per bucket. */
  datatype Levels = Levels(high: nat, nearLow: nat, low: nat, out: nat)

  function LevelsOf(products: seq<Product>): (l: Levels)
    ensures l.high <= |products| && l.nearLow <= |products| && l.low <= |products| && l.out <= |products|
    ensures products == [] ==> l == Levels(0, 0, 0, 0)
  {
    Levels(Count(products, HighStock), Count(products, NearLowStock), Count(products, LowStock), Count(products, OutOfStock))
  }

  function Sum(l: Levels): nat {
    l.high + l.nearLow + l.low + l.out
  }

  /** Every product is counted in exactly one bucket, so the counts add up to the number of products. */
  lemma {:induction false} CountsSumToProducts(products: seq<Product>)
    ensures Sum(LevelsOf(products)) == |products|
    decreases |products|
  {
    if products != [] {
      CountsSumToProducts(products[..|products| - 1]);
    }
  }

  /** The `forEach` over the fetched rows, incrementing the counter of each row's bucket. */
  method CountLevels(products: seq<Product>) returns (levels: Levels)
    ensures levels == LevelsOf(products)
    ensures Sum(levels) == |products|
  {
    levels := Levels(0, 0, 0, 0);
    for i := 0 to |products|
      invariant levels == LevelsOf(products[..i])
    {
      assert products[..i + 1][..i] == products[..i];
      var stock := products[i].stockLevel;
      if stock == 0 {
        levels := levels.(out := levels.out + 1);
      } else if stock < 10 {
        levels := levels.(low := levels.low + 1);
      } else if stock < 50 {
        levels := levels.(nearLow := levels.nearLow + 1);
      } else {
        levels := levels.(high := levels.high + 1);
      }
    }
    assert products[..|products|] == products;
    CountsSumToProducts(products);
  }

  /** One slice of the chart. */
  datatype StockLevel = StockLevel(name: string, value: nat, color: string)

  /** The chart's slices, always in the order High, Near-Low, Low, Out. */
  function ChartData(l: Levels): (data: seq<StockLevel>)
    ensures |data| == 4
    ensures data[0].name == "High Stock" && data[0].value == l.high
    ensures data[1].name == "Near-Low Stock" && data[1].value == l.nearLow
    ensures data[2].name == "Low Stock" && data[2].value == l.low
    ensures data[3].name == "Out of Stock" && data[3].value == l.out
  {
    [ StockLevel("High Stock", l.high, "#22c55e"),
      StockLevel("Near-Low Stock", l.nearLow, "#fbbf24"),
      StockLevel("Low Stock", l.low, "#3b82f6"),
      StockLevel("Out of Stock", l.out, "#ef4444") ]
  }

  /** `data.some(item => item.value > 0)`: the chart draws the pie only then. */
  predicate HasData(data: seq<StockLevel>) {
    exists i :: 0 <= i < |data| && data[i].value > 0
  }

  /** The chart says "No stock data available" exactly when there are no products. */
  lemma NoDataIffNoProducts(products: seq<Product>)
    ensures HasData(ChartData(LevelsOf(products))) <==> |products| > 0
  {
    CountsSumToProducts(products);
    HasDataIffSomeCount(LevelsOf(products));
  }

  /** The chart has data exactly when some counter is positive. */
  lemma HasDataIffSomeCount(l: Levels)
    ensures HasData(ChartData(l)) <==> Sum(l) > 0
  {
    var data := ChartData(l);
    if Sum(l) > 0 {
      if l.high > 0 { assert data[0].value > 0; }
      else if l.nearLow > 0 { assert data[1].value > 0; }
      else if l.low > 0 { assert data[2].value > 0; }
      else { assert data[3].value > 0; }
    }
  }

  /** `SELECT stockLevel FROM products`: no WHERE clause and no ORDER BY. */
  predicate AllProducts(p: Product) {
    true
  }

  function NoOrder(p: Product): int {
    0
  }

  /** The chart shows the counts of some listing of the whole product table. */
  ghost predicate ShowsTable(t: map<string, Product>, data: seq<StockLevel>) {
    exists rows: seq<Product> :: Listing(t, AllProducts, NoOrder, rows) && data == ChartData(LevelsOf(rows))
  }

  class DashboardPage {
    const db: Database
    var stockLevels: seq<StockLevel>
    var isLoading: bool
    var error: Option<string>

    constructor (db: Database)
      ensures this.db == db && stockLevels == ChartData(Levels(0, 0, 0, 0)) && isLoading && error == None
    {
      this.db := db;
      stockLevels := ChartData(Levels(0, 0, 0, 0));
      isLoading := true;
      error := None;
    }

    /**
     * Counts the product rows per bucket and replaces the chart data; the
     * counts add up to the number of rows. A failure sets the error and
     * leaves the chart data as it was; either way loading ends.
     */
    method LoadStockLevels()
      modifies this
      ensures !isLoading
      ensures db.available ==> ShowsTable(db.products, stockLevels) && error == old(error)
      ensures db.available ==> Sum(Levels(stockLevels[0].value, stockLevels[1].value, stockLevels[2].value, stockLevels[3].value)) == |db.products|
      ensures db.available ==> (HasData(stockLevels) <==> |db.products| > 0)
      ensures !db.available ==> error == Some("Failed to load stock levels") && stockLevels == old(stockLevels)
    {
      isLoading := true;
      if db.available {
        var ids, rows := Select(db.products, AllProducts, NoOrder);
        var levels := CountLevels(rows);
        stockLevels := ChartData(levels);
        ListingAllCount(db.products, AllProducts, NoOrder, rows);
        NoDataIffNoProducts(rows);
        assert ShowsTable(db.products, stockLevels);
      } else {
        error := Some("Failed to load stock levels");
      }
      isLoading := false;
    }

    /** The page shows only the error once loading failed, and the chart only after loading ended. */
    function Screen(): (v: View)
      reads this
      ensures v.ErrorOnly? <==> error.Some?
    {
      ViewOf(error)
    }

    predicate ChartShown()
      reads this
    {
      error.None? && !isLoading
    }
  }
}
