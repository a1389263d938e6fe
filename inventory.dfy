/**
 * The inventory page's stock classification: the status shown for each
 * product, the four counters at the top of the page, and the stock filter.
 */
module Inventory {
  import opened Base

  datatype StockStatus = OutOfStock | LowStock | HighStock | NormalStock

  /** The status key the page compares the filter against. */
  function StatusName(s: StockStatus): string {
    match s
    case OutOfStock => "sin-stock"
    case LowStock => "stock-bajo"
    case HighStock => "stock-alto"
    case NormalStock => "stock-normal"
  }

  /** A product's stock levels; `maximumStock` is 0 when it was never set. */
  datatype StockLevels = StockLevels(currentStock: int, minimumStock: int, maximumStock: int)

  /**
   * `getStockStatus`: out of stock at 0 or below, low up to the minimum, high
   * from a set maximum on, normal otherwise. Exactly one status applies.
   */
  function Status(p: StockLevels): (r: StockStatus)
    ensures r == OutOfStock <==> p.currentStock <= 0
    ensures r == LowStock <==> 0 < p.currentStock <= p.minimumStock
    ensures r == HighStock <==>
      0 < p.currentStock && p.minimumStock < p.currentStock && p.maximumStock != 0 && p.maximumStock <= p.currentStock
    ensures r == NormalStock <==>
      0 < p.currentStock && p.minimumStock < p.currentStock && (p.maximumStock == 0 || p.currentStock < p.maximumStock)
  {
    if p.currentStock <= 0 then OutOfStock
    else if p.currentStock <= p.minimumStock then LowStock
    else if p.maximumStock != 0 && p.currentStock >= p.maximumStock then HighStock
    else NormalStock
  }

  /** The distinct statuses have distinct keys, so a filter key selects at most one status. */
  lemma StatusNameInjective(a: StockStatus, b: StockStatus)
    ensures StatusName(a) == StatusName(b) ==> a == b
  {
    if StatusName(a) == StatusName(b) {
      assert StatusName(a)[6] == StatusName(b)[6];
    }
  }

  /** How many elements of `xs` satisfy `f` (`filter(f).length`). */
  function CountWhere<T>(xs: seq<T>, f: T -> bool): (n: nat)
    ensures n <= |xs|
  {
    if xs == [] then 0 else CountWhere(xs[..|xs| - 1], f) + (if f(xs[|xs| - 1]) then 1 else 0)
  }

  /** How many products have status `s`. */
  function CountStatus(products: seq<StockLevels>, s: StockStatus): nat {
    CountWhere(products, (p: StockLevels) => Status(p) == s)
  }

  predicate IsOutOfStock(p: StockLevels) { p.currentStock <= 0 }

  predicate IsLow(p: StockLevels) { p.currentStock > 0 && p.currentStock <= p.minimumStock }

  /** The page's own test for the `stockNormal` counter: above the minimum and below a set maximum. */
  predicate CountsAsNormal(p: StockLevels) {
    p.currentStock > p.minimumStock && (p.maximumStock == 0 || p.currentStock < p.maximumStock)
  }

  datatype Stats = Stats(total: nat, sinStock: nat, stockBajo: nat, stockNormal: nat)

  /** `getStockStats`: the page's four counters. */
  function StockStats(products: seq<StockLevels>): (r: Stats)
    ensures r.total == |products|
    ensures r.sinStock <= r.total && r.stockBajo <= r.total && r.stockNormal <= r.total
    ensures products == [] ==> r == Stats(0, 0, 0, 0)
  {
    Stats(|products|, CountWhere(products, IsOutOfStock), CountWhere(products, IsLow), CountWhere(products, CountsAsNormal))
  }

  /** Counting with two predicates that agree on every element gives the same number. */
  lemma {:induction false} CountWhereAgree<T>(xs: seq<T>, f: T -> bool, g: T -> bool)
    requires forall i :: 0 <= i < |xs| ==> f(xs[i]) == g(xs[i])
    ensures CountWhere(xs, f) == CountWhere(xs, g)
  {
    if xs != [] {
      CountWhereAgree(xs[..|xs| - 1], f, g);
    }
  }

  /** Every product has exactly one status, so the four status counts add up to the number of products. */
  lemma {:induction false} StatusCountsPartition(products: seq<StockLevels>)
    ensures CountStatus(products, OutOfStock) + CountStatus(products, LowStock)
          + CountStatus(products, HighStock) + CountStatus(products, NormalStock) == |products|
  {
    if products != [] {
      StatusCountsPartition(products[..|products| - 1]);
    }
  }

  /** The `sinStock` and `stockBajo` counters count exactly the products shown with those statuses. */
  lemma StatsMatchStatuses(products: seq<StockLevels>)
    ensures StockStats(products).sinStock == CountStatus(products, OutOfStock)
    ensures StockStats(products).stockBajo == CountStatus(products, LowStock)
    ensures StockStats(products).sinStock + StockStats(products).stockBajo <= StockStats(products).total
  {
    CountWhereAgree(products, IsOutOfStock, (p: StockLevels) => Status(p) == OutOfStock);
    CountWhereAgree(products, IsLow, (p: StockLevels) => Status(p) == LowStock);
    StatusCountsPartition(products);
  }

  /**
   * With no negative minimum, the `stockNormal` counter counts exactly the
   * products shown as normal, and the three counters never exceed the total.
   */
  lemma NormalCountMatches(products: seq<StockLevels>)
    requires forall i :: 0 <= i < |products| ==> products[i].minimumStock >= 0
    ensures StockStats(products).stockNormal == CountStatus(products, NormalStock)
    ensures StockStats(products).sinStock + StockStats(products).stockBajo + StockStats(products).stockNormal
         <= StockStats(products).total
  {
    CountWhereAgree(products, CountsAsNormal, (p: StockLevels) => Status(p) == NormalStock);
    StatsMatchStatuses(products);
    StatusCountsPartition(products);
  }

  /**
   * With a negative minimum the page's `stockNormal` test also counts a
   * product that is shown as out of stock, and the counters exceed the total.
   */
  lemma NegativeMinimumOvercounts()
    ensures var products := [StockLevels(0, -1, 0)];
      && Status(products[0]) == OutOfStock
      && StockStats(products).stockNormal == 1
      && CountStatus(products, NormalStock) == 0
      && StockStats(products).sinStock + StockStats(products).stockBajo + StockStats(products).stockNormal
         > StockStats(products).total
  {
    var products := [StockLevels(0, -1, 0)];
    assert products[..0] == [];
  }

  /**
   * The stock filter: an empty filter keeps every product; otherwise exactly
   * the products whose status key equals the filter, in order.
   */
  function StockFiltered(products: seq<StockLevels>, filter: string): (r: seq<StockLevels>)
    ensures filter == "" ==> r == products
    ensures filter != "" ==> forall p :: p in r <==> p in products && StatusName(Status(p)) == filter
    ensures |r| <= |products|
    ensures filter != "" && |products| == 1 ==> r == (if StatusName(Status(products[0])) == filter then products else [])
  {
    if filter == "" || products == [] then products
    else
      var last := products[|products| - 1];
      assert products == products[..|products| - 1] + [last];
      StockFiltered(products[..|products| - 1], filter) + (if StatusName(Status(last)) == filter then [last] else [])
  }

  /** The stock filter keeps the table order: it distributes over concatenation. */
  lemma {:induction false} StockFilteredConcat(a: seq<StockLevels>, b: seq<StockLevels>, filter: string)
    ensures StockFiltered(a + b, filter) == StockFiltered(a, filter) + StockFiltered(b, filter)
  {
    if filter != "" {
      if b == [] {
        assert a + b == a;
      } else {
        var front, last := b[..|b| - 1], b[|b| - 1];
        var tail := if StatusName(Status(last)) == filter then [last] else [];
        ConcatFront(a, b);
        assert StockFiltered(a + b, filter) == StockFiltered(a + front, filter) + tail;
        assert StockFiltered(b, filter) == StockFiltered(front, filter) + tail;
        StockFilteredConcat(a, front, filter);
      }
    }
  }

  /** Filtering by a status shows as many products as that status counts. */
  lemma {:induction false} FilterSizeIsStatusCount(products: seq<StockLevels>, s: StockStatus)
    ensures |StockFiltered(products, StatusName(s))| == CountStatus(products, s)
  {
    if products != [] {
      FilterSizeIsStatusCount(products[..|products| - 1], s);
      StatusNameInjective(Status(products[|products| - 1]), s);
    }
  }
}
