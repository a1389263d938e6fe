/**
 * The rules of the sales handler that do not touch storage: checking and
 * pricing the requested lines, the stock decrement a sale applies, and the
 * session counters it increments.
 */
module Sales {
  import opened Base
  import opened Records
  import opened Settlement

  /** The `type` of a requested line; anything but PRODUCT or SERVICE is `OtherLine`. */
  datatype LineType = ProductLine | ServiceLine | OtherLine

  /**
   * A requested line `{type, productId|serviceId, quantity, unitPrice}`;
   * `unitPrice` is 0 when the client sent none (both are falsy).
   */
  datatype LineRequest = LineRequest(kind: LineType, refId: int, quantity: int, unitPrice: int)

  /**
   * The body of a sale request. `sessionId` and `soldBy` are 0 and `notes` is
   * empty when not sent; `payment` is `None` when no method was given.
   */
  datatype SaleRequest = SaleRequest(
    sessionId: int,
    ownerId: int,
    lines: seq<LineRequest>,
    payment: Option<PaymentMethod>,
    notes: string,
    soldBy: int)

  /** `parseInt(soldBy) || 1`: a missing seller is recorded as user 1. */
  function SellerOrDefault(soldBy: int): (r: int)
    ensures r != 0
    ensures soldBy != 0 ==> r == soldBy
    ensures soldBy == 0 ==> r == 1
  {
    if soldBy == 0 then 1 else soldBy
  }

  /** A line after checking, priced and ready to be written as a sale item. */
  datatype PricedLine = PricedLine(kind: ItemKind, refId: int, description: string, quantity: int, unitPrice: int, total: int)

  datatype SaleError =
    | MissingFields
    | SessionNotOpen
    | ProductNotFound(productId: int)
    | InsufficientStock(name: string, available: int)
    | ServiceNotFound(serviceId: int)

  /** `item.unitPrice || catalogPrice`: a non-zero override wins. */
  function EffectivePrice(requested: int, catalog: int): int {
    if requested != 0 then requested else catalog
  }

  /** Whether one requested line passes its checks against the catalogues read before the sale. */
  predicate LineAcceptable(line: LineRequest, products: map<int, Product>, services: map<int, Service>) {
    match line.kind
    case ProductLine => line.refId in products && products[line.refId].currentStock >= line.quantity
    case ServiceLine => line.refId in services && services[line.refId].active
    case OtherLine => true
  }

  /** The response one line produces: its error, its priced line, or nothing for an unknown type. */
  function PriceLine(line: LineRequest, products: map<int, Product>, services: map<int, Service>): Result<Option<PricedLine>, SaleError> {
    match line.kind
    case ProductLine =>
      if line.refId !in products then Err(ProductNotFound(line.refId))
      else
        var p := products[line.refId];
        if p.currentStock < line.quantity then Err(InsufficientStock(p.name, p.currentStock))
        else
          var price := EffectivePrice(line.unitPrice, p.unitPrice);
          Ok(Some(PricedLine(ProductItem, line.refId, p.name, line.quantity, price, line.quantity * price)))
    case ServiceLine =>
      if line.refId !in services || !services[line.refId].active then Err(ServiceNotFound(line.refId))
      else
        var s := services[line.refId];
        var price := EffectivePrice(line.unitPrice, s.price);
        Ok(Some(PricedLine(ServiceItem, line.refId, s.name, line.quantity, price, line.quantity * price)))
    case OtherLine => Ok(None)
  }

  /** One turn of the validation loop: keep the first error, or collect the line's priced form. */
  function Step(acc: Result<seq<PricedLine>, SaleError>, outcome: Result<Option<PricedLine>, SaleError>): Result<seq<PricedLine>, SaleError> {
    if acc.Err? then acc
    else if outcome.Err? then Err(outcome.error)
    else if outcome.value.None? then acc
    else Ok(acc.value + [outcome.value.value])
  }

  /** The whole validation pass over the lines, in order; the first failing line decides the error. */
  function Price(lines: seq<LineRequest>, products: map<int, Product>, services: map<int, Service>): Result<seq<PricedLine>, SaleError> {
    if lines == [] then Ok([])
    else Step(Price(lines[..|lines| - 1], products, services), PriceLine(lines[|lines| - 1], products, services))
  }

  function LineTotal(p: PricedLine): int {
    p.total
  }

  /** `subtotal`: the sum of the line totals. */
  function Subtotal(priced: seq<PricedLine>): int {
    SumOf(priced, LineTotal)
  }

  /**
   * The validation loop of the handler: walk the lines, stop at the first one
   * that fails, otherwise collect the priced lines and accumulate the subtotal.
   */
  method PriceLines(lines: seq<LineRequest>, products: map<int, Product>, services: map<int, Service>)
    returns (r: Result<(seq<PricedLine>, int), SaleError>)
    ensures r.Ok? <==> Price(lines, products, services).Ok?
    ensures r.Ok? ==> r.value.0 == Price(lines, products, services).value && r.value.1 == Subtotal(r.value.0)
    ensures r.Err? ==> r.error == Price(lines, products, services).error
  {
    var subtotal := 0;
    var processed: seq<PricedLine> := [];
    var i := 0;
    while i < |lines|
      invariant 0 <= i <= |lines|
      invariant Price(lines[..i], products, services) == Ok(processed)
      invariant subtotal == Subtotal(processed)
    {
      var outcome := PriceLine(lines[i], products, services);
      PriceUnfold(lines, i, products, services);
      if outcome.Err? {
        r := Err(outcome.error);
        PriceErrorPersists(lines, i + 1, products, services);
        return;
      }
      if outcome.value.Some? {
        var p := outcome.value.value;
        SubtotalAppend(processed, p);
        processed := processed + [p];
        subtotal := subtotal + p.total;
      }
      i := i + 1;
    }
    assert lines[..i] == lines;
    r := Ok((processed, subtotal));
  }

  /** One more priced line adds its total to the subtotal. */
  lemma SubtotalAppend(priced: seq<PricedLine>, p: PricedLine)
    ensures Subtotal(priced + [p]) == Subtotal(priced) + p.total
  {
    assert (priced + [p])[..|priced|] == priced;
  }

  lemma PriceUnfold(lines: seq<LineRequest>, i: nat, products: map<int, Product>, services: map<int, Service>)
    requires i < |lines|
    ensures Price(lines[..i + 1], products, services)
         == Step(Price(lines[..i], products, services), PriceLine(lines[i], products, services))
  {
    assert lines[..i + 1][..i] == lines[..i];
  }

  /** Once a prefix of the lines fails, the whole request fails with that error. */
  lemma {:induction false} PriceErrorPersists(lines: seq<LineRequest>, k: nat, products: map<int, Product>, services: map<int, Service>)
    requires k <= |lines| && Price(lines[..k], products, services).Err?
    ensures Price(lines, products, services) == Price(lines[..k], products, services)
    decreases |lines| - k
  {
    if k < |lines| {
      assert lines[..k + 1][..k] == lines[..k];
      PriceErrorPersists(lines, k + 1, products, services);
    } else {
      assert lines[..k] == lines;
    }
  }

  /** A sale passes validation if and only if every one of its lines does. */
  lemma {:induction false} PriceSucceedsIff(lines: seq<LineRequest>, products: map<int, Product>, services: map<int, Service>)
    ensures Price(lines, products, services).Ok?
        <==> forall i :: 0 <= i < |lines| ==> LineAcceptable(lines[i], products, services)
  {
    if lines != [] {
      var front := lines[..|lines| - 1];
      PriceSucceedsIff(front, products, services);
      assert forall i :: 0 <= i < |front| ==> front[i] == lines[i];
    }
  }

  /**
   * A failing sale fails with the error of its first unacceptable line: every
   * line before it passed.
   */
  lemma {:induction false} PriceFailsAtFirstBadLine(lines: seq<LineRequest>, products: map<int, Product>, services: map<int, Service>)
    requires Price(lines, products, services).Err?
    ensures exists i :: (0 <= i < |lines|
      && !LineAcceptable(lines[i], products, services)
      && (forall j :: 0 <= j < i ==> LineAcceptable(lines[j], products, services))
      && PriceLine(lines[i], products, services) == Err(Price(lines, products, services).error))
  {
    var front := lines[..|lines| - 1];
    assert forall j :: 0 <= j < |front| ==> front[j] == lines[j];
    if Price(front, products, services).Err? {
      PriceFailsAtFirstBadLine(front, products, services);
    } else {
      PriceSucceedsIff(front, products, services);
    }
  }

  /** The quantity a list of priced lines takes of product `pid`. */
  function QuantityOf(priced: seq<PricedLine>, pid: int): int {
    if priced == [] then 0
    else
      var last := priced[|priced| - 1];
      QuantityOf(priced[..|priced| - 1], pid) + (if last.kind == ProductItem && last.refId == pid then last.quantity else 0)
  }

  /** The quantity the PRODUCT lines of a request ask of product `pid`. */
  function RequestedOf(lines: seq<LineRequest>, pid: int): int {
    if lines == [] then 0
    else
      var last := lines[|lines| - 1];
      RequestedOf(lines[..|lines| - 1], pid) + (if last.kind == ProductLine && last.refId == pid then last.quantity else 0)
  }

  /**
   * A priced line comes from a requested line of the same id and quantity:
   * a PRODUCT line priced at the override or the product's price, a SERVICE
   * line at the override or the service's price, and its total is the
   * quantity times that price.
   */
  predicate PricedFrom(p: PricedLine, line: LineRequest, products: map<int, Product>, services: map<int, Service>) {
    && p.refId == line.refId && p.quantity == line.quantity
    && p.total == p.quantity * p.unitPrice
    && ((line.kind == ProductLine && p.kind == ProductItem && line.refId in products
         && p.unitPrice == EffectivePrice(line.unitPrice, products[line.refId].unitPrice))
     || (line.kind == ServiceLine && p.kind == ServiceItem && line.refId in services
         && p.unitPrice == EffectivePrice(line.unitPrice, services[line.refId].price)))
  }

  /**
   * Every kept line's total is its quantity times its unit price, and that
   * unit price is the requested override or else the catalogue price.
   */
  lemma {:induction false} PricedTotals(lines: seq<LineRequest>, products: map<int, Product>, services: map<int, Service>)
    requires Price(lines, products, services).Ok?
    ensures var priced := Price(lines, products, services).value;
      forall j :: 0 <= j < |priced| ==> priced[j].total == priced[j].quantity * priced[j].unitPrice
    ensures var priced := Price(lines, products, services).value;
      forall j :: 0 <= j < |priced| ==> exists k :: 0 <= k < |lines| && PricedFrom(priced[j], lines[k], products, services)
  {
    if lines != [] {
      var front, last := lines[..|lines| - 1], lines[|lines| - 1];
      PricedTotals(front, products, services);
      var done := Price(front, products, services);
      var outcome := PriceLine(last, products, services);
      assert Price(lines, products, services) == Step(done, outcome);
      assert forall k :: 0 <= k < |front| ==> front[k] == lines[k];
      if outcome.value.Some? {
        var p := outcome.value.value;
        assert PricedFrom(p, lines[|lines| - 1], products, services);
      }
    }
  }

  /**
   * Every kept PRODUCT line names a known product with enough stock before
   * the sale, and every kept SERVICE line a known, active service.
   */
  lemma {:induction false} PricedLinesChecked(lines: seq<LineRequest>, products: map<int, Product>, services: map<int, Service>)
    requires Price(lines, products, services).Ok?
    ensures var priced := Price(lines, products, services).value;
      && (forall j :: 0 <= j < |priced| && priced[j].kind == ProductItem ==>
            priced[j].refId in products && products[priced[j].refId].currentStock >= priced[j].quantity)
      && (forall j :: 0 <= j < |priced| && priced[j].kind == ServiceItem ==>
            priced[j].refId in services && services[priced[j].refId].active)
  {
    if lines != [] {
      PricedLinesChecked(lines[..|lines| - 1], products, services);
    }
  }

  /** Validation keeps each product's requested quantity. */
  lemma {:induction false} PricedQuantities(lines: seq<LineRequest>, products: map<int, Product>, services: map<int, Service>, pid: int)
    requires Price(lines, products, services).Ok?
    ensures QuantityOf(Price(lines, products, services).value, pid) == RequestedOf(lines, pid)
  {
    if lines != [] {
      var front, last := lines[..|lines| - 1], lines[|lines| - 1];
      var done := Price(front, products, services);
      var outcome := PriceLine(last, products, services);
      assert Price(lines, products, services) == Step(done, outcome);
      assert done.Ok? && outcome.Ok?;
      PricedQuantities(front, products, services, pid);
      PriceLineQuantity(last, products, services, pid);
      if outcome.value.Some? {
        var p := outcome.value.value;
        assert (done.value + [p])[..|done.value|] == done.value;
      }
    }
  }

  /** A checked line keeps its kind, id and quantity; an unknown kind yields nothing. */
  lemma PriceLineQuantity(line: LineRequest, products: map<int, Product>, services: map<int, Service>, pid: int)
    requires PriceLine(line, products, services).Ok?
    ensures var outcome := PriceLine(line, products, services).value;
      (if outcome.Some? && outcome.value.kind == ProductItem && outcome.value.refId == pid then outcome.value.quantity else 0)
      == (if line.kind == ProductLine && line.refId == pid then line.quantity else 0)
  {
  }

  /** The line total of a checked line is its quantity times its effective price. */
  lemma PriceLineTotal(line: LineRequest, products: map<int, Product>, services: map<int, Service>)
    requires PriceLine(line, products, services).Ok? && PriceLine(line, products, services).value.Some?
    ensures var p := PriceLine(line, products, services).value.value;
      && p.quantity == line.quantity && p.refId == line.refId
      && p.unitPrice == EffectivePrice(line.unitPrice,
           if line.kind == ProductLine then products[line.refId].unitPrice else services[line.refId].price)
      && p.total == line.quantity * p.unitPrice
  {
  }

  /** The effect of one sale item on the catalogue: a PRODUCT line decrements its product's stock. */
  function Decrement(products: map<int, Product>, p: PricedLine): map<int, Product> {
    if p.kind == ProductItem && p.refId != 0 && p.refId in products then
      products[p.refId := products[p.refId].(currentStock := products[p.refId].currentStock - p.quantity)]
    else products
  }

  /** The catalogue after the item loop of the transaction. */
  function Decremented(products: map<int, Product>, priced: seq<PricedLine>): map<int, Product> {
    if priced == [] then products
    else Decrement(Decremented(products, priced[..|priced| - 1]), priced[|priced| - 1])
  }

  /**
   * A sale takes from each product exactly the quantity its lines name, and
   * changes nothing else in the catalogue.
   */
  lemma {:induction false} DecrementedStock(products: map<int, Product>, priced: seq<PricedLine>)
    requires 0 !in products
    ensures Decremented(products, priced).Keys == products.Keys
    ensures forall pid :: pid in products ==>
      Decremented(products, priced)[pid]
        == products[pid].(currentStock := products[pid].currentStock - QuantityOf(priced, pid))
  {
    if priced != [] {
      DecrementedStock(products, priced[..|priced| - 1]);
    }
  }

  /**
   * Each line is checked against the stock read before the sale, so two lines
   * for one product that each fit the stock go through even when together
   * they take more than there is, and the stock ends up negative.
   */
  lemma DuplicateLinesOversell(products: map<int, Product>, services: map<int, Service>, pid: int, q: int)
    requires 0 !in products && pid in products
    requires q <= products[pid].currentStock < 2 * q
    ensures var lines := [LineRequest(ProductLine, pid, q, 0), LineRequest(ProductLine, pid, q, 0)];
      && Price(lines, products, services).Ok?
      && pid in Decremented(products, Price(lines, products, services).value)
      && Decremented(products, Price(lines, products, services).value)[pid].currentStock < 0
  {
    var lines := [LineRequest(ProductLine, pid, q, 0), LineRequest(ProductLine, pid, q, 0)];
    PriceSucceedsIff(lines, products, services);
    PricedQuantities(lines, products, services, pid);
    assert lines[..1] == [lines[0]];
    assert lines[..1][..0] == [];
    assert RequestedOf(lines[..1], pid) == q;
    assert RequestedOf(lines, pid) == 2 * q;
    DecrementedStock(products, Price(lines, products, services).value);
  }

  /** Whether a payment method has a bucket counter; CREDIT and an absent method do not. */
  predicate HasBucket(payment: Option<PaymentMethod>) {
    payment == Some(Cash) || payment == Some(Card) || payment == Some(Transfer)
  }

  /**
   * The session update of the transaction: `totalSales += total`, and
   * `totalCash`, `totalCard` or `totalTransfer` += total for CASH, CARD or
   * TRANSFER; CREDIT and an absent method increment no bucket.
   */
  function Credited(s: Session, total: int, payment: Option<PaymentMethod>): (r: Session)
    ensures r.totalSales == s.totalSales + total
    ensures r.totalCash + r.totalCard + r.totalTransfer
         == s.totalCash + s.totalCard + s.totalTransfer + (if HasBucket(payment) then total else 0)
    ensures payment != Some(Cash) ==> r.totalCash == s.totalCash
    ensures payment != Some(Card) ==> r.totalCard == s.totalCard
    ensures payment != Some(Transfer) ==> r.totalTransfer == s.totalTransfer
    ensures r.(totalSales := s.totalSales, totalCash := s.totalCash, totalCard := s.totalCard,
               totalTransfer := s.totalTransfer) == s
  {
    var updated := s.(totalSales := s.totalSales + total);
    if payment == Some(Cash) then updated.(totalCash := s.totalCash + total)
    else if payment == Some(Card) then updated.(totalCard := s.totalCard + total)
    else if payment == Some(Transfer) then updated.(totalTransfer := s.totalTransfer + total)
    else updated
  }
}
