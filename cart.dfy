/**
 * The point-of-sale page's cart: a list of lines, one per product or service,
 * that the user grows, edits and empties before submitting the sale, plus the
 * checks the page makes before submitting and its choice of cash session.
 */
module Cart {
  import opened Base
  import opened Records
  import opened Settlement
  import opened Sales

  datatype EntryKind = ProductEntry | ServiceEntry

  /**
   * A cart line. `maxQuantity` is the product's stock when the line was
   * created; 0 means it was never set (services, or a product without stock).
   */
  datatype CartLine = CartLine(
    id: string,
    kind: EntryKind,
    refId: int,
    name: string,
    unitPrice: int,
    quantity: int,
    subtotal: int,
    maxQuantity: int)

  /**
   * What the user picked: a product with its price and current stock, or a
   * service with its catalogue price (`price` in the services listing).
   */
  datatype Offer = Offer(kind: EntryKind, refId: int, name: string, price: int, stock: int)

  datatype CheckoutError = NoSessionSelected | EmptyCart

  /** Whether line `l` is the line of catalogue entry (`kind`, `refId`). */
  predicate SameEntry(l: CartLine, kind: EntryKind, refId: int) {
    l.kind == kind && l.refId == refId
  }

  /** No two lines of the cart are for the same catalogue entry. */
  predicate Distinct(cart: seq<CartLine>) {
    forall i, j :: 0 <= i < j < |cart| ==> !SameEntry(cart[j], cart[i].kind, cart[i].refId)
  }

  /** Every line's subtotal is its quantity times its unit price. */
  predicate Consistent(cart: seq<CartLine>) {
    forall i :: 0 <= i < |cart| ==> cart[i].subtotal == cart[i].quantity * cart[i].unitPrice
  }

  /** The index of the first line for entry (`kind`, `refId`), if any (`findIndex`). */
  function FindLine(cart: seq<CartLine>, kind: EntryKind, refId: int): (r: Option<nat>)
    ensures r.Some? ==> r.value < |cart| && SameEntry(cart[r.value], kind, refId)
    ensures r.Some? ==> forall j :: 0 <= j < r.value ==> !SameEntry(cart[j], kind, refId)
    ensures r.None? ==> forall j :: 0 <= j < |cart| ==> !SameEntry(cart[j], kind, refId)
  {
    if cart == [] then None
    else if SameEntry(cart[0], kind, refId) then Some(0)
    else
      var rest := FindLine(cart[1..], kind, refId);
      if rest.None? then None else Some(rest.value + 1)
  }

  /** The line a first add creates: quantity 1; a product line remembers the stock as its cap. */
  function NewLine(offer: Offer, lineId: string): CartLine {
    CartLine(lineId, offer.kind, offer.refId, offer.name, offer.price, 1, offer.price,
             if offer.kind == ProductEntry then offer.stock else 0)
  }

  /** One more unit on an existing line. */
  function Bumped(l: CartLine): CartLine {
    l.(quantity := l.quantity + 1, subtotal := (l.quantity + 1) * l.unitPrice)
  }

  function LineSubtotal(l: CartLine): int {
    l.subtotal
  }

  /** `getTotal`: the sum of the line subtotals. */
  function Total(cart: seq<CartLine>): int {
    SumOf(cart, LineSubtotal)
  }

  /** Replacing one element changes a sum by the difference of the two values. */
  lemma {:induction false} SumOfUpdate<T>(xs: seq<T>, k: nat, x: T, f: T -> int)
    requires k < |xs|
    ensures SumOf(xs[k := x], f) == SumOf(xs, f) - f(xs[k]) + f(x)
  {
    var ys := xs[k := x];
    if k == |xs| - 1 {
      assert ys[..|ys| - 1] == xs[..|xs| - 1];
    } else {
      assert ys[..|ys| - 1] == xs[..|xs| - 1][k := x];
      SumOfUpdate(xs[..|xs| - 1], k, x, f);
    }
  }

  /** Appending a line for an entry the cart does not hold yet. */
  lemma AppendLine(cart: seq<CartLine>, line: CartLine)
    requires forall j :: 0 <= j < |cart| ==> !SameEntry(cart[j], line.kind, line.refId)
    requires line.subtotal == line.quantity * line.unitPrice
    ensures FindLine(cart + [line], line.kind, line.refId) == Some(|cart|)
    ensures Distinct(cart) ==> Distinct(cart + [line])
    ensures Consistent(cart) ==> Consistent(cart + [line])
    ensures Total(cart + [line]) == Total(cart) + line.subtotal
  {
    var r := cart + [line];
    assert r[..|cart|] == cart;
    assert forall j :: 0 <= j < |cart| ==> r[j] == cart[j];
    assert SameEntry(r[|cart|], line.kind, line.refId);
  }

  /** Growing line `k` by one unit keeps that line findable and the lines distinct. */
  lemma BumpLine(cart: seq<CartLine>, k: nat)
    requires k < |cart|
    ensures FindLine(cart[k := Bumped(cart[k])], cart[k].kind, cart[k].refId).Some?
    ensures Distinct(cart) ==> Distinct(cart[k := Bumped(cart[k])])
  {
    var r := cart[k := Bumped(cart[k])];
    assert SameEntry(r[k], cart[k].kind, cart[k].refId);
    assert forall j :: 0 <= j < |cart| ==> SameEntry(r[j], cart[j].kind, cart[j].refId);
  }

  /** Growing line `k` of a consistent cart by one unit keeps it consistent and adds one unit price to the total. */
  lemma BumpLineTotal(cart: seq<CartLine>, k: nat)
    requires k < |cart| && Consistent(cart)
    ensures Consistent(cart[k := Bumped(cart[k])])
    ensures Total(cart[k := Bumped(cart[k])]) == Total(cart) + cart[k].unitPrice
  {
    var b := Bumped(cart[k]);
    SumOfUpdate(cart, k, b, LineSubtotal);
    assert b.subtotal == cart[k].subtotal + cart[k].unitPrice by {
      assert b.subtotal == (cart[k].quantity + 1) * cart[k].unitPrice;
      assert (cart[k].quantity + 1) * cart[k].unitPrice == cart[k].quantity * cart[k].unitPrice + cart[k].unitPrice;
    }
  }

  /**
   * `addToCart`: find the entry's line; a product line grows by one only while
   * its quantity is below the product's current stock, a service line always
   * grows by one; an entry without a line gets a new line at the end.
   */
  method AddToCart(cart: seq<CartLine>, offer: Offer, lineId: string) returns (r: seq<CartLine>)
    ensures FindLine(cart, offer.kind, offer.refId).None? ==> r == cart + [NewLine(offer, lineId)]
    ensures FindLine(cart, offer.kind, offer.refId).Some? ==>
      var k := FindLine(cart, offer.kind, offer.refId).value;
      r == (if offer.kind == ServiceEntry || cart[k].quantity < offer.stock then cart[k := Bumped(cart[k])] else cart)
    ensures FindLine(r, offer.kind, offer.refId).Some?
    ensures Distinct(cart) ==> Distinct(r)
    ensures Consistent(cart) ==> Consistent(r)
    ensures FindLine(cart, offer.kind, offer.refId).None? ==> Total(r) == Total(cart) + offer.price
    ensures (Consistent(cart) && FindLine(cart, offer.kind, offer.refId).Some? && r != cart) ==>
      Total(r) == Total(cart) + cart[FindLine(cart, offer.kind, offer.refId).value].unitPrice
  {
    var k := 0;
    while k < |cart| && !SameEntry(cart[k], offer.kind, offer.refId)
      invariant 0 <= k <= |cart|
      invariant forall j :: 0 <= j < k ==> !SameEntry(cart[j], offer.kind, offer.refId)
    {
      k := k + 1;
    }
    if k == |cart| {
      var line := NewLine(offer, lineId);
      r := cart + [line];
      AppendLine(cart, line);
    } else if offer.kind == ServiceEntry || cart[k].quantity < offer.stock {
      r := cart[k := Bumped(cart[k])];
      BumpLine(cart, k);
      if Consistent(cart) {
        BumpLineTotal(cart, k);
      }
    } else {
      r := cart;
    }
  }

  /** The quantity an update asks for, capped by the line's `maxQuantity` when that is set. */
  function Capped(requested: int, maxQuantity: int): (q: int)
    ensures q <= requested
    ensures maxQuantity != 0 ==> q <= maxQuantity
    ensures q == requested || q == maxQuantity
    ensures maxQuantity == 0 ==> q == requested
  {
    if maxQuantity != 0 && maxQuantity < requested then maxQuantity else requested
  }

  function Resized(l: CartLine, requested: int): CartLine {
    var q := Capped(requested, l.maxQuantity);
    l.(quantity := q, subtotal := q * l.unitPrice)
  }

  /** `removeItem`: keep, in order, the lines whose id differs from `lineId`. */
  function RemoveItem(cart: seq<CartLine>, lineId: string): (r: seq<CartLine>)
    ensures |r| <= |cart|
    ensures forall l :: l in r <==> l in cart && l.id != lineId
  {
    if cart == [] then []
    else
      var last := cart[|cart| - 1];
      assert cart == cart[..|cart| - 1] + [last];
      RemoveItem(cart[..|cart| - 1], lineId) + (if last.id == lineId then [] else [last])
  }

  /**
   * `updateItemQuantity`: a quantity of 0 or less removes the line; otherwise
   * every line with that id takes the requested quantity, capped by its
   * `maxQuantity` when set, and its subtotal follows.
   */
  function UpdateQuantity(cart: seq<CartLine>, lineId: string, requested: int): (r: seq<CartLine>)
    ensures requested <= 0 ==> r == RemoveItem(cart, lineId)
    ensures requested > 0 ==> |r| == |cart|
    ensures requested > 0 ==> forall i :: 0 <= i < |cart| && cart[i].id != lineId ==> r[i] == cart[i]
    ensures requested > 0 ==> forall i :: 0 <= i < |cart| && cart[i].id == lineId ==>
      && r[i].(quantity := cart[i].quantity, subtotal := cart[i].subtotal) == cart[i]
      && r[i].quantity <= requested
      && (cart[i].maxQuantity > 0 ==> 0 < r[i].quantity <= cart[i].maxQuantity)
      && (r[i].quantity == requested || r[i].quantity == cart[i].maxQuantity)
      && r[i].quantity == Capped(requested, cart[i].maxQuantity)
      && r[i].subtotal == r[i].quantity * r[i].unitPrice
  {
    if requested <= 0 then RemoveItem(cart, lineId)
    else seq(|cart|, i requires 0 <= i < |cart| => if cart[i].id == lineId then Resized(cart[i], requested) else cart[i])
  }

  /** Removing keeps the relative order: it distributes over concatenation. */
  lemma {:induction false} RemoveItemConcat(a: seq<CartLine>, b: seq<CartLine>, lineId: string)
    ensures RemoveItem(a + b, lineId) == RemoveItem(a, lineId) + RemoveItem(b, lineId)
  {
    if b == [] {
      assert a + b == a;
    } else {
      var front := b[..|b| - 1];
      ConcatFront(a, b);
      RemoveItemConcat(a, front, lineId);
    }
  }

  /** Removing an id no line carries leaves the cart as it is. */
  lemma {:induction false} RemoveItemAbsent(cart: seq<CartLine>, lineId: string)
    requires forall i :: 0 <= i < |cart| ==> cart[i].id != lineId
    ensures RemoveItem(cart, lineId) == cart
  {
    if cart != [] {
      var front, last := cart[..|cart| - 1], cart[|cart| - 1];
      assert forall i :: 0 <= i < |front| ==> front[i].id != lineId by {
        assert forall i :: 0 <= i < |front| ==> front[i] == cart[i];
      }
      RemoveItemAbsent(front, lineId);
      SplitLast(cart);
    }
  }

  /** Removing lines takes exactly their subtotals off the total. */
  lemma {:induction false} RemoveItemTotal(cart: seq<CartLine>, lineId: string)
    ensures Total(cart) == Total(RemoveItem(cart, lineId)) + SumOf(cart, (l: CartLine) => if l.id == lineId then l.subtotal else 0)
  {
    if cart != [] {
      var front := cart[..|cart| - 1];
      var last := cart[|cart| - 1];
      RemoveItemTotal(front, lineId);
      var kept := if last.id == lineId then [] else [last];
      SumOfConcat(RemoveItem(front, lineId), kept, LineSubtotal);
      assert SumOf(kept, LineSubtotal) == (if last.id == lineId then 0 else last.subtotal) by {
        if kept != [] {
          assert kept[..0] == [];
        }
      }
    }
  }

  /** Updates keep every subtotal equal to quantity times unit price, and keep the lines distinct. */
  lemma UpdateQuantityKeeps(cart: seq<CartLine>, lineId: string, requested: int)
    ensures Consistent(cart) ==> Consistent(UpdateQuantity(cart, lineId, requested))
    ensures Distinct(cart) ==> Distinct(UpdateQuantity(cart, lineId, requested))
  {
    var r := UpdateQuantity(cart, lineId, requested);
    if requested <= 0 {
      RemoveKeeps(cart, lineId);
    }
  }

  /** Removing keeps every subtotal consistent and the lines distinct. */
  lemma {:induction false} RemoveKeeps(cart: seq<CartLine>, lineId: string)
    ensures Consistent(cart) ==> Consistent(RemoveItem(cart, lineId))
    ensures Distinct(cart) ==> Distinct(RemoveItem(cart, lineId))
  {
    if cart != [] {
      var front := cart[..|cart| - 1];
      var last := cart[|cart| - 1];
      RemoveKeeps(front, lineId);
      var r := RemoveItem(cart, lineId);
      if Distinct(cart) && last.id != lineId {
        var rf := RemoveItem(front, lineId);
        forall i, j | 0 <= i < j < |r| ensures !SameEntry(r[j], r[i].kind, r[i].refId) {
          if j == |rf| {
            assert r[i] in front;
            var a :| 0 <= a < |front| && front[a] == r[i];
            assert cart[a] == r[i] && cart[|cart| - 1] == r[j];
          } else {
            assert r[i] == rf[i] && r[j] == rf[j];
          }
        }
      }
    }
  }

  /** Asking twice for the same quantity changes nothing the second time. */
  lemma UpdateQuantityIdempotent(cart: seq<CartLine>, lineId: string, requested: int)
    ensures UpdateQuantity(UpdateQuantity(cart, lineId, requested), lineId, requested)
         == UpdateQuantity(cart, lineId, requested)
  {
    var once := UpdateQuantity(cart, lineId, requested);
    if requested <= 0 {
      RemoveItemAbsent(once, lineId);
    }
  }

  /** The line of the request `processSale` sends for one cart line. */
  function ToLine(l: CartLine): LineRequest {
    LineRequest(if l.kind == ProductEntry then ProductLine else ServiceLine, l.refId, l.quantity, l.unitPrice)
  }

  function ToLines(cart: seq<CartLine>): (r: seq<LineRequest>)
    ensures |r| == |cart| && forall i :: 0 <= i < |cart| ==> r[i] == ToLine(cart[i])
  {
    seq(|cart|, i requires 0 <= i < |cart| => ToLine(cart[i]))
  }

  /**
   * `processSale`: refuse without a selected session or with an empty cart;
   * otherwise the request for `POST /sales`, sold by user 1.
   */
  function Checkout(selected: Option<int>, customer: Option<int>, cart: seq<CartLine>, payment: PaymentMethod, notes: string)
    : (r: Result<SaleRequest, CheckoutError>)
    ensures (selected.None? || selected.value == 0) ==> r == Err(NoSessionSelected)
    ensures (selected.Some? && selected.value != 0 && cart == []) ==> r == Err(EmptyCart)
    ensures r.Ok? <==> selected.Some? && selected.value != 0 && cart != []
    ensures r.Ok? ==> (r.value.sessionId == selected.value && r.value.lines == ToLines(cart)
      && r.value.payment == Some(payment) && r.value.soldBy == 1)
    ensures r.Ok? ==> r.value.notes == notes
    ensures r.Ok? ==> r.value.ownerId == (if customer.Some? then customer.value else 0)
  {
    if selected.None? || selected.value == 0 then Err(NoSessionSelected)
    else if cart == [] then Err(EmptyCart)
    else Ok(SaleRequest(selected.value, customer.GetOr(0), ToLines(cart), Some(payment), notes, 1))
  }

  /**
   * The server charges what the page showed: when every cart line carries a
   * non-zero price and its subtotal is consistent, a sale that passes
   * validation has the cart's total as its subtotal.
   */
  lemma {:induction false} CheckoutTotalAgrees(cart: seq<CartLine>, products: map<int, Product>, services: map<int, Service>)
    requires Consistent(cart)
    requires forall i :: 0 <= i < |cart| ==> cart[i].unitPrice != 0
    requires Price(ToLines(cart), products, services).Ok?
    ensures Subtotal(Price(ToLines(cart), products, services).value) == Total(cart)
  {
    if cart != [] {
      var front := cart[..|cart| - 1];
      var last := cart[|cart| - 1];
      assert ToLines(cart)[..|cart| - 1] == ToLines(front);
      var done := Price(ToLines(front), products, services);
      var outcome := PriceLine(ToLine(last), products, services);
      assert done.Ok?;
      CheckoutTotalAgrees(front, products, services);
      var p := outcome.value.value;
      assert Price(ToLines(cart), products, services).value == done.value + [p];
      SumOfConcat(done.value, [p], LineTotal);
      assert SumOf([p], LineTotal) == p.total by {
        assert [p][..0] == [];
      }
    }
  }

  /*
   * The page as written prices a first service line from `basePrice`, a field
   * the services listing does not carry (it sends `price`), so the line's unit
   * price is undefined and every subtotal computed from it is `NaN`. The
   * members below describe that page; the rest of this module prices a service
   * line from the catalogue `price`, which is what the page evidently means.
   */

  /** The unit price the page as written gives a first line: undefined (`None`) for a service. */
  function PagePriceAsWritten(offer: Offer): (r: Option<int>)
    ensures r.None? <==> offer.kind == ServiceEntry
    ensures r.Some? ==> r.value == NewLine(offer, "").unitPrice
  {
    if offer.kind == ServiceEntry then None else Some(offer.price)
  }

  /** A line's subtotal as the page as written shows it: `NaN` (`None`) on a service line. */
  function ShownSubtotal(l: CartLine): (r: Option<int>)
    ensures r.None? <==> l.kind == ServiceEntry
    ensures r.Some? ==> r.value == l.subtotal
  {
    if l.kind == ServiceEntry then None else Some(l.subtotal)
  }

  /** `getTotal` as the page as written computes it: one `NaN` subtotal makes the sum `NaN`. */
  function TotalAsWritten(cart: seq<CartLine>): Option<int> {
    if cart == [] then Some(0)
    else
      var front := TotalAsWritten(cart[..|cart| - 1]);
      var last := ShownSubtotal(cart[|cart| - 1]);
      if front.Some? && last.Some? then Some(front.value + last.value) else None
  }

  /** The page as written shows no total for a cart with a service line, and the intended total otherwise. */
  lemma {:induction false} ServiceLineTotalIsNaN(cart: seq<CartLine>)
    ensures TotalAsWritten(cart).None? <==> exists i :: 0 <= i < |cart| && cart[i].kind == ServiceEntry
    ensures TotalAsWritten(cart).Some? ==> TotalAsWritten(cart).value == Total(cart)
  {
    if cart != [] {
      var front := cart[..|cart| - 1];
      ServiceLineTotalIsNaN(front);
      assert forall i :: 0 <= i < |front| ==> front[i] == cart[i];
    }
  }

  /**
   * The request line the page as written sends: a service line's undefined
   * price is dropped from the JSON body, which the handler reads as no price.
   */
  function ToLineAsWritten(l: CartLine): (r: LineRequest)
    ensures l.kind == ProductEntry ==> r == ToLine(l)
    ensures l.kind == ServiceEntry ==> r == ToLine(l).(unitPrice := 0)
  {
    if l.kind == ServiceEntry then ToLine(l).(unitPrice := 0) else ToLine(l)
  }

  function ToLinesAsWritten(cart: seq<CartLine>): (r: seq<LineRequest>)
    ensures |r| == |cart| && forall i :: 0 <= i < |cart| ==> r[i] == ToLineAsWritten(cart[i])
  {
    seq(|cart|, i requires 0 <= i < |cart| => ToLineAsWritten(cart[i]))
  }

  /**
   * The handler still charges what the intended page would: a service line
   * sent without a price is priced from the catalogue, which is the price the
   * intended page puts on the line.
   */
  lemma {:induction false} ChargedAsIntended(cart: seq<CartLine>, products: map<int, Product>, services: map<int, Service>)
    requires forall i :: 0 <= i < |cart| && cart[i].kind == ServiceEntry && cart[i].refId in services ==>
      cart[i].unitPrice == services[cart[i].refId].price
    ensures Price(ToLinesAsWritten(cart), products, services) == Price(ToLines(cart), products, services)
  {
    if cart != [] {
      var front := cart[..|cart| - 1];
      var last := cart[|cart| - 1];
      assert ToLinesAsWritten(cart)[..|cart| - 1] == ToLinesAsWritten(front);
      assert ToLines(cart)[..|cart| - 1] == ToLines(front);
      ChargedAsIntended(front, products, services);
      assert PriceLine(ToLineAsWritten(last), products, services) == PriceLine(ToLine(last), products, services);
    }
  }

  /** A cash session as the page receives it. */
  datatype SessionSummary = SessionSummary(id: int, status: SessionStatus)

  /** The ids of the OPEN sessions, in order. */
  function OpenIds(sessions: seq<SessionSummary>): (r: seq<int>)
    ensures |r| <= |sessions|
    ensures forall i :: 0 <= i < |sessions| && sessions[i].status == Open ==> sessions[i].id in r
    ensures forall x :: x in r ==> exists i :: 0 <= i < |sessions| && sessions[i].status == Open && sessions[i].id == x
    ensures |sessions| == 1 ==> r == (if sessions[0].status == Open then [sessions[0].id] else [])
  {
    if sessions == [] then []
    else
      var front := sessions[..|sessions| - 1];
      var last := sessions[|sessions| - 1];
      var rest := OpenIds(front);
      assert forall i :: 0 <= i < |front| ==> front[i] == sessions[i];
      rest + (if last.status == Open then [last.id] else [])
  }

  /** Filtering the OPEN sessions keeps their order: it distributes over concatenation. */
  lemma {:induction false} OpenIdsConcat(a: seq<SessionSummary>, b: seq<SessionSummary>)
    ensures OpenIds(a + b) == OpenIds(a) + OpenIds(b)
  {
    if b == [] {
      assert a + b == a;
    } else {
      var front := b[..|b| - 1];
      ConcatFront(a, b);
      OpenIdsConcat(a, front);
    }
  }

  /** With no OPEN session there is no id to offer. */
  lemma {:induction false} OpenIdsNone(sessions: seq<SessionSummary>)
    requires forall i :: 0 <= i < |sessions| ==> sessions[i].status != Open
    ensures OpenIds(sessions) == []
  {
    if sessions != [] {
      var front := sessions[..|sessions| - 1];
      assert forall i :: 0 <= i < |front| ==> front[i] == sessions[i];
      OpenIdsNone(front);
    }
  }

  /** The session at `k` is the only OPEN one. */
  predicate LoneOpen(sessions: seq<SessionSummary>, k: int) {
    && 0 <= k < |sessions| && sessions[k].status == Open
    && forall i :: 0 <= i < |sessions| && i != k ==> sessions[i].status != Open
  }

  /** With exactly one OPEN session, its id is the only one offered. */
  lemma OpenIdsLone(sessions: seq<SessionSummary>, k: int)
    requires LoneOpen(sessions, k)
    ensures OpenIds(sessions) == [sessions[k].id]
  {
    var head, here, tail := sessions[..k], [sessions[k]], sessions[k + 1..];
    assert sessions == head + here + tail;
    assert forall i :: 0 <= i < |head| ==> head[i] == sessions[i];
    OpenIdsNone(head);
    assert forall i :: 0 <= i < |tail| ==> tail[i] == sessions[k + 1 + i];
    OpenIdsNone(tail);
    assert OpenIds(here) == [sessions[k].id];
    OpenIdsConcat(head, here);
    OpenIdsConcat(head + here, tail);
  }

  /** Two OPEN sessions offer at least two ids. */
  lemma OpenIdsTwo(sessions: seq<SessionSummary>, j: int, k: int)
    requires 0 <= j < k < |sessions| && sessions[j].status == Open && sessions[k].status == Open
    ensures |OpenIds(sessions)| >= 2
  {
    var head, tail := sessions[..k], sessions[k..];
    assert sessions == head + tail;
    OpenIdsConcat(head, tail);
    assert head[j] == sessions[j];
    assert sessions[j].id in OpenIds(head);
    assert tail[0] == sessions[k];
    assert sessions[k].id in OpenIds(tail);
  }

  /** The page selects the OPEN session by itself when there is exactly one, and otherwise keeps the selection. */
  function AutoSelect(current: Option<int>, sessions: seq<SessionSummary>): (r: Option<int>)
    ensures |OpenIds(sessions)| == 1 ==> r.Some? && exists i :: 0 <= i < |sessions| && sessions[i].status == Open && sessions[i].id == r.value
    ensures |OpenIds(sessions)| != 1 ==> r == current
  {
    var open := OpenIds(sessions);
    if |open| == 1 then
      assert open[0] in open;
      Some(open[0])
    else current
  }

  /** A lone OPEN session is selected, whatever was selected before. */
  lemma AutoSelectLone(current: Option<int>, sessions: seq<SessionSummary>, k: int)
    requires LoneOpen(sessions, k)
    ensures AutoSelect(current, sessions) == Some(sessions[k].id)
  {
    OpenIdsLone(sessions, k);
  }

  /** With no OPEN session the selection stays. */
  lemma AutoSelectNone(current: Option<int>, sessions: seq<SessionSummary>)
    requires forall i :: 0 <= i < |sessions| ==> sessions[i].status != Open
    ensures AutoSelect(current, sessions) == current
  {
    OpenIdsNone(sessions);
  }

  /** With two or more OPEN sessions the selection stays. */
  lemma AutoSelectSeveral(current: Option<int>, sessions: seq<SessionSummary>, j: int, k: int)
    requires 0 <= j < k < |sessions| && sessions[j].status == Open && sessions[k].status == Open
    ensures AutoSelect(current, sessions) == current
  {
    OpenIdsTwo(sessions, j, k);
  }
}
