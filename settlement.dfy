/**
 * The balance reconciliation done when a cash session is closed:
 * expected = initial cash + the sales' totals + the movements' signed amounts,
 * each sum a left-to-right `reduce` starting from 0.
 */
module Settlement {
  import opened Base
  import opened Records

  /** `xs.reduce((acc, x) => acc + f(x), 0)`. */
  function SumOf<T>(xs: seq<T>, f: T -> int): int {
    if xs == [] then 0 else SumOf(xs[..|xs| - 1], f) + f(xs[|xs| - 1])
  }

  lemma {:induction false} SumOfConcat<T>(xs: seq<T>, ys: seq<T>, f: T -> int)
    ensures SumOf(xs + ys, f) == SumOf(xs, f) + SumOf(ys, f)
  {
    if ys != [] {
      assert (xs + ys)[..|xs + ys| - 1] == xs + ys[..|ys| - 1];
      SumOfConcat(xs, ys[..|ys| - 1], f);
    } else {
      assert xs + ys == xs;
    }
  }

  /** Taking element `i` out of a sequence takes `f(ys[i])` off its sum. */
  lemma {:induction false} SumOfRemove<T>(ys: seq<T>, i: nat, f: T -> int)
    requires i < |ys|
    ensures SumOf(ys, f) == f(ys[i]) + SumOf(ys[..i] + ys[i + 1..], f)
  {
    var init := ys[..|ys| - 1];
    if i == |ys| - 1 {
      assert ys[..i] + ys[i + 1..] == init;
    } else {
      SumOfRemove(init, i, f);
      var rest := ys[..i] + ys[i + 1..];
      assert rest[..|rest| - 1] == init[..i] + init[i + 1..];
      assert rest[|rest| - 1] == ys[|ys| - 1];
    }
  }

  /** Removing the same element from two permutations of each other leaves permutations. */
  lemma MultisetRemove<T>(xs: seq<T>, ys: seq<T>, i: nat)
    requires xs != [] && i < |ys| && ys[i] == xs[0] && multiset(xs) == multiset(ys)
    ensures multiset(xs[1..]) == multiset(ys[..i] + ys[i + 1..])
  {
    var x := xs[0];
    assert xs == [x] + xs[1..];
    assert ys == ys[..i] + [x] + ys[i + 1..];
    assert multiset(xs[1..]) == multiset(xs) - multiset{x};
    assert multiset(ys[..i] + ys[i + 1..]) == multiset(ys) - multiset{x};
  }

  /** A sum over a sequence does not depend on the order of its elements. */
  lemma {:induction false} SumOfPermutation<T>(xs: seq<T>, ys: seq<T>, f: T -> int)
    requires multiset(xs) == multiset(ys)
    ensures SumOf(xs, f) == SumOf(ys, f)
  {
    if xs != [] {
      assert xs[0] in multiset(ys);
      var i :| 0 <= i < |ys| && ys[i] == xs[0];
      MultisetRemove(xs, ys, i);
      SumOfPermutation(xs[1..], ys[..i] + ys[i + 1..], f);
      SumOfRemove(ys, i, f);
      SumOfRemove(xs, 0, f);
      assert xs[..0] + xs[1..] == xs[1..];
    } else {
      assert multiset(ys) == multiset{};
    }
  }

  /** IN adds the amount; OUT, ADJUSTMENT, EXPIRED and LOST subtract it. */
  function SignedAmount(m: Movement): int {
    if m.kind == In then m.amount else -m.amount
  }

  function SaleTotal(s: Sale): int {
    s.total
  }

  function SalesTotal(sales: seq<Sale>): int {
    SumOf(sales, SaleTotal)
  }

  function MovementsNet(movements: seq<Movement>): int {
    SumOf(movements, SignedAmount)
  }

  /** `initialCash + totalSales + totalMovements`. */
  function ExpectedBalance(initialCash: int, sales: seq<Sale>, movements: seq<Movement>): (r: int)
    ensures sales == [] && movements == [] ==> r == initialCash
  {
    initialCash + SalesTotal(sales) + MovementsNet(movements)
  }

  /** The sales of session `sid`, in table order. */
  function SalesOf(sales: seq<Sale>, sid: int): (r: seq<Sale>)
    ensures |r| <= |sales|
    ensures forall s :: s in r <==> s in sales && s.sessionId == sid
    ensures |sales| == 1 ==> r == (if sales[0].sessionId == sid then sales else [])
  {
    if sales == [] then []
    else
      var last := sales[|sales| - 1];
      SalesOf(sales[..|sales| - 1], sid) + (if last.sessionId == sid then [last] else [])
  }

  /** The movements of session `sid`, in table order. */
  function MovementsOf(movements: seq<Movement>, sid: int): (r: seq<Movement>)
    ensures |r| <= |movements|
    ensures forall m :: m in r <==> m in movements && m.sessionId == sid
    ensures |movements| == 1 ==> r == (if movements[0].sessionId == sid then movements else [])
  {
    if movements == [] then []
    else
      var last := movements[|movements| - 1];
      MovementsOf(movements[..|movements| - 1], sid) + (if last.sessionId == sid then [last] else [])
  }

  /** Selecting a session's sales keeps their order: it distributes over concatenation. */
  lemma {:induction false} SalesOfConcat(a: seq<Sale>, b: seq<Sale>, sid: int)
    ensures SalesOf(a + b, sid) == SalesOf(a, sid) + SalesOf(b, sid)
  {
    if b == [] {
      assert a + b == a;
    } else {
      var front, last := b[..|b| - 1], b[|b| - 1];
      var tail := if last.sessionId == sid then [last] else [];
      ConcatFront(a, b);
      assert SalesOf(a + b, sid) == SalesOf(a + front, sid) + tail;
      assert SalesOf(b, sid) == SalesOf(front, sid) + tail;
      SalesOfConcat(a, front, sid);
    }
  }

  /** Selecting a session's movements keeps their order: it distributes over concatenation. */
  lemma {:induction false} MovementsOfConcat(a: seq<Movement>, b: seq<Movement>, sid: int)
    ensures MovementsOf(a + b, sid) == MovementsOf(a, sid) + MovementsOf(b, sid)
  {
    if b == [] {
      assert a + b == a;
    } else {
      var front, last := b[..|b| - 1], b[|b| - 1];
      var tail := if last.sessionId == sid then [last] else [];
      ConcatFront(a, b);
      assert MovementsOf(a + b, sid) == MovementsOf(a + front, sid) + tail;
      assert MovementsOf(b, sid) == MovementsOf(front, sid) + tail;
      MovementsOfConcat(a, front, sid);
    }
  }

  /**
   * Reconciliation is a function of the sets of sales and movements, not of
   * the order the database returns them in.
   */
  lemma ExpectedBalanceOrderIndependent(initialCash: int,
                                        sales1: seq<Sale>, sales2: seq<Sale>,
                                        moves1: seq<Movement>, moves2: seq<Movement>)
    requires multiset(sales1) == multiset(sales2)
    requires multiset(moves1) == multiset(moves2)
    ensures ExpectedBalance(initialCash, sales1, moves1) == ExpectedBalance(initialCash, sales2, moves2)
  {
    SumOfPermutation(sales1, sales2, SaleTotal);
    SumOfPermutation(moves1, moves2, SignedAmount);
  }

  /** Each later sale raises the expected balance by its total. */
  lemma ExpectedBalanceAfterSale(initialCash: int, sales: seq<Sale>, movements: seq<Movement>, s: Sale)
    ensures ExpectedBalance(initialCash, sales + [s], movements)
         == ExpectedBalance(initialCash, sales, movements) + s.total
  {
    assert (sales + [s])[..|sales|] == sales;
  }

  /** Each later movement moves the expected balance by its signed amount. */
  lemma ExpectedBalanceAfterMovement(initialCash: int, sales: seq<Sale>, movements: seq<Movement>, m: Movement)
    ensures ExpectedBalance(initialCash, sales, movements + [m])
         == ExpectedBalance(initialCash, sales, movements) + (if m.kind == In then m.amount else -m.amount)
  {
    assert (movements + [m])[..|movements|] == movements;
  }

  /**
   * The opening IN movement recorded by `open` is counted on top of
   * `initialCash`: a session whose movements start with it expects twice the
   * opening balance plus the rest.
   */
  lemma {:induction false} OpeningBalanceCountedTwice(initialCash: int, sales: seq<Sale>, opening: Movement, later: seq<Movement>)
    requires opening.kind == In && opening.amount == initialCash
    ensures ExpectedBalance(initialCash, sales, [opening] + later)
         == 2 * initialCash + SalesTotal(sales) + MovementsNet(later)
  {
    SumOfConcat([opening], later, SignedAmount);
    assert [opening][..0] == [];
  }
}
