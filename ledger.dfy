/**
 * The point-of-sale tables and the four request handlers that write them:
 * opening and closing cash sessions, recording cash movements, recording
 * sales (with their items, the stock decrement, the session counters and the
 * automatic receipt), and issuing a receipt for an existing sale.
 *
 * Rows get auto-increment ids: the row with id `k` is element `k - 1` of its
 * table. Products and services are keyed by id.
 */
module Ledger {
  import opened Base
  import opened Text
  import opened Numbering
  import opened Records
  import opened Settlement
  import opened Sales

  datatype SessionError = RegisterAlreadyOpen | SessionNotFoundOrClosed | UnknownAction

  datatype MovementError = MovementFieldsMissing | UnknownMovementType | MovementSessionNotOpen

  datatype ReceiptError = ReceiptFieldsMissing | SaleNotFound | ReceiptExists

  const OpeningReason := "Apertura de caja"

  /** At most one OPEN session per register. */
  predicate OneOpenPerRegister(sessions: seq<Session>) {
    forall i, j :: 0 <= i < j < |sessions| && sessions[i].status == Open && sessions[j].status == Open
      ==> sessions[i].registerId != sessions[j].registerId
  }

  /** Whether register `registerId` has an OPEN session (the `findFirst` of `open`). */
  predicate HasOpenSession(sessions: seq<Session>, registerId: int) {
    exists i :: 0 <= i < |sessions| && sessions[i].registerId == registerId && sessions[i].status == Open
  }

  /** Whether session `id` exists and is OPEN. */
  predicate IsOpen(sessions: seq<Session>, id: int) {
    1 <= id <= |sessions| && sessions[id - 1].status == Open
  }

  /** Later states keep every CLOSED session exactly as it was. */
  predicate ClosedFrozen(before: seq<Session>, after: seq<Session>) {
    |before| <= |after| &&
    forall i :: 0 <= i < |before| && before[i].status == Closed ==> after[i] == before[i]
  }

  /** Adding a session keeps one OPEN session per register when its register had none open. */
  lemma AppendKeepsOneOpen(sessions: seq<Session>, s: Session)
    requires OneOpenPerRegister(sessions)
    requires s.status == Open ==> !HasOpenSession(sessions, s.registerId)
    ensures OneOpenPerRegister(sessions + [s])
    ensures ClosedFrozen(sessions, sessions + [s])
  {
    var after := sessions + [s];
    forall i, j | 0 <= i < j < |after| && after[i].status == Open && after[j].status == Open
      ensures after[i].registerId != after[j].registerId
    {
      if j == |sessions| {
        assert after[i] == sessions[i];
      }
    }
  }

  /**
   * Rewriting an OPEN session keeps one OPEN session per register when the new
   * row is CLOSED or stays on the same register, and leaves CLOSED rows alone.
   */
  lemma ReplaceKeepsOneOpen(sessions: seq<Session>, i: int, s: Session)
    requires OneOpenPerRegister(sessions)
    requires 0 <= i < |sessions| && sessions[i].status == Open
    requires s.status == Closed || s.registerId == sessions[i].registerId
    ensures OneOpenPerRegister(sessions[i := s])
    ensures ClosedFrozen(sessions, sessions[i := s])
  {
  }

  /** The number column of the sessions table, in row order. */
  function SessionNumbers(sessions: seq<Session>): (r: seq<string>)
    ensures |r| == |sessions| && forall i :: 0 <= i < |sessions| ==> r[i] == sessions[i].number
  {
    seq(|sessions|, i requires 0 <= i < |sessions| => sessions[i].number)
  }

  /** The number column of the sales table, in row order. */
  function SaleNumbers(sales: seq<Sale>): seq<string> {
    seq(|sales|, i requires 0 <= i < |sales| => sales[i].number)
  }

  /** The number column of the receipts table, in row order. */
  function ReceiptNumbers(receipts: seq<Receipt>): seq<string> {
    seq(|receipts|, i requires 0 <= i < |receipts| => receipts[i].number)
  }

  /** The next session number of the day: `CSH` + date + the day's count + 1, at least 3 digits. */
  function NextSessionNumber(sessions: seq<Session>, today: string): string {
    FormatNumber(SessionPrefix, today, CountPrefixed(SessionNumbers(sessions), SessionPrefix + today), 3)
  }

  /** The next sale number of the day: `VTA` + date + the day's count + 1, at least 3 digits. */
  function NextSaleNumber(sales: seq<Sale>, today: string): string {
    FormatNumber(SalePrefix, today, CountPrefixed(SaleNumbers(sales), SalePrefix + today), 3)
  }

  /** The next receipt number of the day: `REC` + date + the day's count + 1, at least 4 digits. */
  function NextReceiptNumber(receipts: seq<Receipt>, today: string): string {
    FormatNumber(ReceiptPrefix, today, CountPrefixed(ReceiptNumbers(receipts), ReceiptPrefix + today), 4)
  }

  /** Whether some receipt already points at sale `saleId` (the `findUnique({ saleId })`). */
  predicate HasReceipt(receipts: seq<Receipt>, saleId: int) {
    exists k :: 0 <= k < |receipts| && receipts[k].saleId == saleId
  }

  /** The row `open` creates: OPEN, the opening balance as initial cash, zero counters. */
  function OpenedSession(number: string, registerId: int, openingBalance: int, openedBy: int): Session {
    Session(number, registerId, openingBalance, Open, openedBy, None, None, None, None, 0, 0, 0, 0)
  }

  /** The automatic IN movement recorded by `open` for a positive opening balance. */
  function OpeningMovements(sessionId: int, openingBalance: int, openedBy: int): (r: seq<Movement>)
    ensures |r| == (if openingBalance > 0 then 1 else 0)
    ensures r != [] ==> r[0].kind == In && r[0].amount == openingBalance && r[0].reason == OpeningReason
    ensures r != [] ==> r[0].sessionId == sessionId && r[0].performedBy == openedBy
  {
    if openingBalance > 0 then [Movement(sessionId, In, openingBalance, OpeningReason, openedBy)] else []
  }

  /** The session row after `close`: CLOSED, with the counted and the expected cash and their difference. */
  function ClosedSession(s: Session, finalBalance: int, expected: int, closedBy: int): (r: Session)
    ensures r.status == Closed
    ensures r.difference == Some(finalBalance - expected)
    ensures r.actualCash == Some(finalBalance) && r.expectedCash == Some(expected)
    ensures r.closedBy == Some(closedBy)
    ensures r.(status := s.status, closedBy := s.closedBy, actualCash := s.actualCash,
               expectedCash := s.expectedCash, difference := s.difference) == s
  {
    s.(status := Closed, closedBy := Some(closedBy), actualCash := Some(finalBalance),
       expectedCash := Some(expected), difference := Some(finalBalance - expected))
  }

  /** The expected cash of session `id` from its own sales and movements. */
  function SessionExpected(sessions: seq<Session>, sales: seq<Sale>, movements: seq<Movement>, id: int): int
    requires 1 <= id <= |sessions|
  {
    ExpectedBalance(sessions[id - 1].initialCash, SalesOf(sales, id), MovementsOf(movements, id))
  }

  /** The guard of the movement handler: every field present (truthy). */
  predicate MovementFieldsPresent(sessionId: int, typeName: string, amount: int, reason: string, performedBy: int) {
    sessionId != 0 && typeName != "" && amount != 0 && reason != "" && performedBy != 0
  }

  function ItemRow(p: PricedLine, saleId: int): SaleItem {
    SaleItem(saleId, p.kind, p.refId, p.description, p.quantity, p.unitPrice, p.total)
  }

  /** The sale items written for the priced lines, in order. */
  function ItemRows(priced: seq<PricedLine>, saleId: int): (r: seq<SaleItem>)
    ensures |r| == |priced|
    ensures forall i :: 0 <= i < |priced| ==> r[i] == ItemRow(priced[i], saleId)
  {
    seq(|priced|, i requires 0 <= i < |priced| => ItemRow(priced[i], saleId))
  }

  /** The sale row: the payment method defaults to CASH, notes are trimmed or null. */
  function SaleRow(req: SaleRequest, number: string, status: PaymentStatus, subtotal: int): Sale {
    Sale(number, req.sessionId, Ref(req.ownerId), SellerOrDefault(req.soldBy), req.payment.GetOr(Cash),
         status, subtotal, subtotal, TrimmedOrNull(req.notes))
  }

  /** The receipt written right after a sale: its total, its method, PAID. */
  function SaleReceipt(req: SaleRequest, number: string, saleId: int, total: int): Receipt {
    Receipt(number, saleId, None, Ref(req.ownerId), None, total, req.payment.GetOr(Cash), Paid,
            TrimmedOrNull(req.notes), SellerOrDefault(req.soldBy))
  }

  /** Whether a sale request fails before anything is written. */
  predicate SaleRejected(req: SaleRequest, sessions: seq<Session>, products: map<int, Product>, services: map<int, Service>) {
    req.sessionId == 0 || |req.lines| == 0 || !IsOpen(sessions, req.sessionId)
    || Price(req.lines, products, services).Err?
  }

  class PointOfSale {
    var sessions: seq<Session>
    var movements: seq<Movement>
    var sales: seq<Sale>
    var items: seq<SaleItem>
    var receipts: seq<Receipt>
    var products: map<int, Product>
    var services: map<int, Service>
    /** The payment status a sale row gets by default from the storage schema. */
    const saleStatusDefault: PaymentStatus

    /** The table invariant: one OPEN session per register, references resolve, one receipt per sale. */
    ghost predicate Valid()
      reads this
    {
      && OneOpenPerRegister(sessions)
      && 0 !in products
      && (forall k :: 0 <= k < |movements| ==> 1 <= movements[k].sessionId <= |sessions|)
      && (forall k :: 0 <= k < |sales| ==> 1 <= sales[k].sessionId <= |sessions|)
      && (forall k :: 0 <= k < |receipts| ==> 1 <= receipts[k].saleId <= |sales|)
      && (forall a, b :: 0 <= a < b < |receipts| ==> receipts[a].saleId != receipts[b].saleId)
    }

    /** Every sale has its receipt: `CreateSale` writes one with each sale. */
    ghost predicate EverySaleHasReceipt()
      reads this
    {
      forall id :: 1 <= id <= |sales| ==> HasReceipt(receipts, id)
    }

    constructor (products: map<int, Product>, services: map<int, Service>, saleStatusDefault: PaymentStatus)
      requires 0 !in products
      ensures Valid() && EverySaleHasReceipt()
      ensures this.products == products && this.services == services
      ensures this.saleStatusDefault == saleStatusDefault
      ensures sessions == [] && movements == [] && sales == [] && items == [] && receipts == []
    {
      this.products := products;
      this.services := services;
      this.saleStatusDefault := saleStatusDefault;
      sessions, movements, sales, items, receipts := [], [], [], [], [];
    }

    /**
     * `POST /cash-sessions` with action `open`: refuse a register that already
     * has an OPEN session; otherwise create the session with the next number
     * of the day and, for a positive opening balance, an IN movement.
     */
    method OpenSession(registerId: int, openingBalance: int, openedBy: int, today: string) returns (r: Result<nat, SessionError>)
      requires Valid()
      modifies this
      ensures Valid()
      ensures r.Err? <==> HasOpenSession(old(sessions), registerId)
      ensures r.Err? ==> r.error == RegisterAlreadyOpen && sessions == old(sessions) && movements == old(movements)
      ensures r.Ok? ==> r.value == |sessions| == |old(sessions)| + 1
      ensures r.Ok? ==> (sessions == old(sessions)
        + [OpenedSession(NextSessionNumber(old(sessions), today), registerId, openingBalance, openedBy)])
      ensures r.Ok? ==> movements == old(movements) + OpeningMovements(r.value, openingBalance, openedBy)
      ensures r.Ok? ==> (CountPrefixed(SessionNumbers(sessions), SessionPrefix + today)
                      == CountPrefixed(SessionNumbers(old(sessions)), SessionPrefix + today) + 1)
      ensures ClosedFrozen(old(sessions), sessions)
      ensures sales == old(sales) && items == old(items) && receipts == old(receipts)
      ensures products == old(products) && services == old(services)
      ensures old(EverySaleHasReceipt()) ==> EverySaleHasReceipt()
    {
      if HasOpenSession(sessions, registerId) {
        return Err(RegisterAlreadyOpen);
      }
      var number := NextSessionNumber(sessions, today);
      ghost var before := sessions;
      CountPrefixedAppend(SessionNumbers(before), SessionPrefix + today, number);
      var id := AppendSession(OpenedSession(number, registerId, openingBalance, openedBy));
      assert SessionNumbers(sessions) == SessionNumbers(before) + [number];
      if openingBalance > 0 {
        AppendMovement(Movement(id, In, openingBalance, OpeningReason, openedBy));
      }
      r := Ok(id);
    }

    /** Appends a session row; an OPEN one only for a register without an OPEN session. */
    method AppendSession(s: Session) returns (id: nat)
      requires Valid()
      requires s.status == Open ==> !HasOpenSession(sessions, s.registerId)
      modifies this
      ensures Valid()
      ensures id == |sessions| && sessions == old(sessions) + [s]
      ensures ClosedFrozen(old(sessions), sessions)
      ensures movements == old(movements) && sales == old(sales) && items == old(items)
      ensures receipts == old(receipts) && products == old(products) && services == old(services)
      ensures old(EverySaleHasReceipt()) ==> EverySaleHasReceipt()
    {
      AppendKeepsOneOpen(sessions, s);
      sessions := sessions + [s];
      id := |sessions|;
    }

    /** Appends a movement row of an existing session. */
    method AppendMovement(m: Movement)
      requires Valid() && 1 <= m.sessionId <= |sessions|
      modifies this
      ensures Valid()
      ensures movements == old(movements) + [m]
      ensures sessions == old(sessions) && sales == old(sales) && items == old(items)
      ensures receipts == old(receipts) && products == old(products) && services == old(services)
    {
      movements := movements + [m];
    }

    /**
     * `POST /cash-sessions` with action `close`: refuse a session that does not
     * exist or is not OPEN; otherwise compute the expected cash from the
     * session's own sales and movements and seal the session.
     */
    method CloseSession(sessionId: int, finalBalance: int, closedBy: int) returns (r: Result<nat, SessionError>)
      requires Valid()
      modifies this
      ensures Valid()
      ensures r.Err? <==> !IsOpen(old(sessions), sessionId)
      ensures r.Err? ==> r.error == SessionNotFoundOrClosed && sessions == old(sessions)
      ensures r.Ok? ==> r.value == sessionId && |sessions| == |old(sessions)|
      ensures r.Ok? ==> (sessions == old(sessions)[sessionId - 1 :=
        ClosedSession(old(sessions)[sessionId - 1], finalBalance,
                      SessionExpected(old(sessions), sales, movements, sessionId), closedBy)])
      ensures ClosedFrozen(old(sessions), sessions)
      ensures movements == old(movements) && sales == old(sales) && items == old(items) && receipts == old(receipts)
      ensures products == old(products) && services == old(services)
      ensures old(EverySaleHasReceipt()) ==> EverySaleHasReceipt()
    {
      if !IsOpen(sessions, sessionId) {
        return Err(SessionNotFoundOrClosed);
      }
      var s := sessions[sessionId - 1];
      var expected := ExpectedBalance(s.initialCash, SalesOf(sales, sessionId), MovementsOf(movements, sessionId));
      ReplaceKeepsOneOpen(sessions, sessionId - 1, ClosedSession(s, finalBalance, expected, closedBy));
      sessions := sessions[sessionId - 1 := ClosedSession(s, finalBalance, expected, closedBy)];
      r := Ok(sessionId);
    }

    /** `POST /cash-sessions`: dispatch on `action`; any other action is refused and writes nothing. */
    method PostSession(action: string, registerId: int, openingBalance: int, openedBy: int,
                       sessionId: int, finalBalance: int, closedBy: int, today: string)
      returns (r: Result<nat, SessionError>)
      requires Valid()
      modifies this
      ensures Valid()
      ensures action == "open" ==> (r.Err? <==> HasOpenSession(old(sessions), registerId))
      ensures action == "close" ==> (r.Err? <==> !IsOpen(old(sessions), sessionId))
      ensures action == "open" && r.Err? ==> r.error == RegisterAlreadyOpen && sessions == old(sessions) && movements == old(movements)
      ensures action == "open" && r.Ok? ==> (r.value == |sessions| && sessions == old(sessions)
        + [OpenedSession(NextSessionNumber(old(sessions), today), registerId, openingBalance, openedBy)]
        && movements == old(movements) + OpeningMovements(r.value, openingBalance, openedBy))
      ensures action == "close" && r.Err? ==> r.error == SessionNotFoundOrClosed && sessions == old(sessions) && movements == old(movements)
      ensures action == "close" && r.Ok? ==> (r.value == sessionId && movements == old(movements) && sessions == old(sessions)[sessionId - 1 :=
        ClosedSession(old(sessions)[sessionId - 1], finalBalance,
                      SessionExpected(old(sessions), old(sales), old(movements), sessionId), closedBy)])
      ensures action != "open" && action != "close" ==>
        (r == Err(UnknownAction) && sessions == old(sessions) && movements == old(movements))
      ensures ClosedFrozen(old(sessions), sessions)
      ensures sales == old(sales) && items == old(items) && receipts == old(receipts)
      ensures products == old(products) && services == old(services)
    {
      if action == "open" {
        r := OpenSession(registerId, openingBalance, openedBy, today);
      } else if action == "close" {
        r := CloseSession(sessionId, finalBalance, closedBy);
      } else {
        r := Err(UnknownAction);
      }
    }

    /**
     * `POST /cash-movements`: the guards in order (every field present, a
     * known type, an OPEN session), then one row with the trimmed reason.
     * No session field changes.
     */
    method CreateMovement(sessionId: int, typeName: string, amount: int, reason: string, performedBy: int)
      returns (r: Result<nat, MovementError>)
      requires Valid()
      modifies this
      ensures Valid()
      ensures !MovementFieldsPresent(sessionId, typeName, amount, reason, performedBy)
        ==> r == Err(MovementFieldsMissing)
      ensures (MovementFieldsPresent(sessionId, typeName, amount, reason, performedBy)
               && ParseMovementType(typeName).None?) ==> r == Err(UnknownMovementType)
      ensures (MovementFieldsPresent(sessionId, typeName, amount, reason, performedBy)
               && ParseMovementType(typeName).Some? && !IsOpen(old(sessions), sessionId))
        ==> r == Err(MovementSessionNotOpen)
      ensures r.Err? ==> movements == old(movements)
      ensures r.Ok? <==> (MovementFieldsPresent(sessionId, typeName, amount, reason, performedBy)
        && ParseMovementType(typeName).Some? && IsOpen(old(sessions), sessionId))
      ensures r.Ok? ==> (r.value == |movements| &&
        movements == old(movements) + [Movement(sessionId, ParseMovementType(typeName).value, amount, Trim(reason), performedBy)])
      ensures sessions == old(sessions)
      ensures sales == old(sales) && items == old(items) && receipts == old(receipts)
      ensures products == old(products) && services == old(services)
    {
      if !MovementFieldsPresent(sessionId, typeName, amount, reason, performedBy) {
        return Err(MovementFieldsMissing);
      }
      var kind := ParseMovementType(typeName);
      if kind.None? {
        return Err(UnknownMovementType);
      }
      if !IsOpen(sessions, sessionId) {
        return Err(MovementSessionNotOpen);
      }
      AppendMovement(Movement(sessionId, kind.value, amount, Trim(reason), performedBy));
      r := Ok(|movements|);
    }

    /**
     * `GET /cash-movements`: with a session id, exactly that session's
     * movements; without one, all of them; newest first.
     */
    function ListMovements(sessionId: Option<int>): (r: seq<Movement>)
      reads this
      ensures r == Reversed(if sessionId.None? then movements else MovementsOf(movements, sessionId.value))
      ensures forall m :: m in r <==> m in movements && (sessionId.None? || m.sessionId == sessionId.value)
      ensures sessionId.None? ==> |r| == |movements|
    {
      var selected := if sessionId.None? then movements else MovementsOf(movements, sessionId.value);
      var r := Reversed(selected);
      assert forall m :: m in r <==> m in selected by {
        forall m ensures m in r <==> m in selected {
          assert m in r <==> m in multiset(r);
          assert m in selected <==> m in multiset(selected);
        }
      }
      r
    }

    /**
     * The item loop of the sale transaction: one sale item per priced line,
     * and each PRODUCT line's stock decrement.
     */
    method WriteItems(priced: seq<PricedLine>, saleId: int)
      requires Valid()
      modifies this
      ensures Valid()
      ensures items == old(items) + ItemRows(priced, saleId)
      ensures products == Decremented(old(products), priced)
      ensures sessions == old(sessions) && movements == old(movements) && sales == old(sales)
      ensures receipts == old(receipts) && services == old(services)
    {
      var i := 0;
      while i < |priced|
        decreases |priced| - i
        invariant 0 <= i <= |priced|
        invariant items == old(items) + ItemRows(priced[..i], saleId)
        invariant products == Decremented(old(products), priced[..i])
        invariant sessions == old(sessions) && movements == old(movements) && sales == old(sales)
        invariant receipts == old(receipts) && services == old(services)
      {
        var line := priced[i];
        assert priced[..i + 1][..i] == priced[..i] && priced[..i + 1][i] == line;
        assert ItemRows(priced[..i + 1], saleId) == ItemRows(priced[..i], saleId) + [ItemRow(line, saleId)];
        items := items + [ItemRow(line, saleId)];
        products := Decrement(products, line);
        i := i + 1;
      }
      assert priced[..i] == priced;
      DecrementedStock(old(products), priced);
    }

    /** The writes of the sale transaction, once every check has passed. */
    method RecordSale(req: SaleRequest, saleNumber: string, priced: seq<PricedLine>, total: int, today: string)
      returns (saleId: nat)
      requires Valid() && IsOpen(sessions, req.sessionId)
      modifies this
      ensures Valid()
      ensures saleId == |sales| == |old(sales)| + 1
      ensures sales == old(sales) + [SaleRow(req, saleNumber, saleStatusDefault, total)]
      ensures items == old(items) + ItemRows(priced, saleId)
      ensures products == Decremented(old(products), priced)
      ensures sessions == old(sessions)[req.sessionId - 1 := Credited(old(sessions)[req.sessionId - 1], total, req.payment)]
      ensures receipts == old(receipts) + [SaleReceipt(req, NextReceiptNumber(old(receipts), today), saleId, total)]
      ensures ClosedFrozen(old(sessions), sessions)
      ensures movements == old(movements) && services == old(services)
      ensures old(EverySaleHasReceipt()) ==> EverySaleHasReceipt()
    {
      ghost var receiptsBefore, sessionsBefore := receipts, sessions;
      saleId := AppendSale(SaleRow(req, saleNumber, saleStatusDefault, total));
      WriteItems(priced, saleId);
      assert sessions == sessionsBefore;
      CreditSession(req.sessionId, total, req.payment);
      ghost var credited := Credited(sessionsBefore[req.sessionId - 1], total, req.payment);
      assert sessions == sessionsBefore[req.sessionId - 1 := credited];
      var receiptNumber := NextReceiptNumber(receipts, today);
      StoreReceipt(SaleReceipt(req, receiptNumber, saleId, total));
      if old(EverySaleHasReceipt()) {
        forall id | 1 <= id <= |sales| ensures HasReceipt(receipts, id) {
          if id != saleId {
            assert HasReceipt(receiptsBefore, id);
          }
        }
      }
    }

    /** Appends a sale row of an existing session; the new sale has no receipt yet. */
    method AppendSale(row: Sale) returns (saleId: nat)
      requires Valid() && 1 <= row.sessionId <= |sessions|
      modifies this
      ensures Valid()
      ensures saleId == |sales| && sales == old(sales) + [row]
      ensures !HasReceipt(receipts, saleId)
      ensures sessions == old(sessions) && movements == old(movements) && items == old(items)
      ensures receipts == old(receipts) && products == old(products) && services == old(services)
    {
      sales := sales + [row];
      saleId := |sales|;
      assert !HasReceipt(receipts, saleId) by {
        forall k | 0 <= k < |receipts| ensures receipts[k].saleId != saleId {
          assert receipts[k].saleId <= |old(sales)|;
        }
      }
    }

    /** Adds a sale's total to the counters of OPEN session `sessionId`. */
    method CreditSession(sessionId: int, total: int, payment: Option<PaymentMethod>)
      requires Valid() && IsOpen(sessions, sessionId)
      modifies this
      ensures Valid()
      ensures sessions == old(sessions)[sessionId - 1 := Credited(old(sessions)[sessionId - 1], total, payment)]
      ensures ClosedFrozen(old(sessions), sessions)
      ensures movements == old(movements) && sales == old(sales) && items == old(items)
      ensures receipts == old(receipts) && products == old(products) && services == old(services)
    {
      ReplaceKeepsOneOpen(sessions, sessionId - 1, Credited(sessions[sessionId - 1], total, payment));
      sessions := sessions[sessionId - 1 := Credited(sessions[sessionId - 1], total, payment)];
    }

    /** Appends a receipt for a sale that has none yet. */
    method StoreReceipt(rc: Receipt)
      requires Valid() && 1 <= rc.saleId <= |sales| && !HasReceipt(receipts, rc.saleId)
      modifies this
      ensures Valid()
      ensures receipts == old(receipts) + [rc]
      ensures forall id :: HasReceipt(receipts, id) <==> HasReceipt(old(receipts), id) || id == rc.saleId
      ensures sessions == old(sessions) && movements == old(movements) && sales == old(sales) && items == old(items)
      ensures products == old(products) && services == old(services)
    {
      ghost var before := receipts;
      receipts := receipts + [rc];
      forall id ensures HasReceipt(receipts, id) <==> HasReceipt(before, id) || id == rc.saleId {
        if HasReceipt(before, id) {
          var k :| 0 <= k < |before| && before[k].saleId == id;
          assert receipts[k] == before[k];
        }
        if HasReceipt(receipts, id) && id != rc.saleId {
          var k :| 0 <= k < |receipts| && receipts[k].saleId == id;
          assert k < |before| && receipts[k] == before[k];
        }
        if id == rc.saleId {
          assert receipts[|before|] == rc;
        }
      }
    }

    /**
     * `POST /sales`: every check runs before the first write (required fields,
     * an OPEN session, each line against the catalogues); then the sale, its
     * items, the stock decrements, the session counters and the receipt.
     */
    method CreateSale(req: SaleRequest, today: string) returns (r: Result<nat, SaleError>)
      requires Valid()
      modifies this
      ensures Valid()
      ensures r.Err? <==> SaleRejected(req, old(sessions), old(products), old(services))
      ensures req.sessionId == 0 || |req.lines| == 0 ==> r == Err(MissingFields)
      ensures req.sessionId != 0 && |req.lines| != 0 && !IsOpen(old(sessions), req.sessionId) ==> r == Err(SessionNotOpen)
      ensures req.sessionId != 0 && |req.lines| != 0 && IsOpen(old(sessions), req.sessionId)
        && Price(req.lines, old(products), old(services)).Err?
        ==> r == Err(Price(req.lines, old(products), old(services)).error)
      ensures r.Err? ==> (sessions == old(sessions) && movements == old(movements) && sales == old(sales)
        && items == old(items) && receipts == old(receipts) && products == old(products))
      ensures r.Ok? ==>
        var priced := Price(req.lines, old(products), old(services)).value;
        var total := Subtotal(priced);
        && r.value == |sales| == |old(sales)| + 1
        && sales == old(sales) + [SaleRow(req, NextSaleNumber(old(sales), today), saleStatusDefault, total)]
        && items == old(items) + ItemRows(priced, r.value)
        && products == Decremented(old(products), priced)
        && sessions == old(sessions)[req.sessionId - 1 := Credited(old(sessions)[req.sessionId - 1], total, req.payment)]
        && receipts == old(receipts) + [SaleReceipt(req, NextReceiptNumber(old(receipts), today), r.value, total)]
      ensures ClosedFrozen(old(sessions), sessions)
      ensures movements == old(movements) && services == old(services)
      ensures old(EverySaleHasReceipt()) ==> EverySaleHasReceipt()
    {
      if req.sessionId == 0 || |req.lines| == 0 {
        return Err(MissingFields);
      }
      if !IsOpen(sessions, req.sessionId) {
        return Err(SessionNotOpen);
      }
      var saleNumber := NextSaleNumber(sales, today);
      var checked := PriceLines(req.lines, products, services);
      if checked.Err? {
        return Err(checked.error);
      }
      var (priced, subtotal) := checked.value;
      var saleId := RecordSale(req, saleNumber, priced, subtotal, today);
      r := Ok(saleId);
    }

    /**
     * `POST /receipts`: refuse a request without sale or creator, an unknown
     * sale, or a sale that already has a receipt; otherwise one receipt with
     * the next number of the day, copying the sale's total, method, status and notes.
     */
    method CreateReceipt(saleId: int, petId: int, ownerId: int, veterinarianId: int, createdBy: int, today: string)
      returns (r: Result<nat, ReceiptError>)
      requires Valid()
      modifies this
      ensures Valid()
      ensures saleId == 0 || createdBy == 0 ==> r == Err(ReceiptFieldsMissing)
      ensures saleId != 0 && createdBy != 0 && !(1 <= saleId <= |old(sales)|) ==> r == Err(SaleNotFound)
      ensures saleId != 0 && createdBy != 0 && 1 <= saleId <= |old(sales)| && HasReceipt(old(receipts), saleId)
        ==> r == Err(ReceiptExists)
      ensures r.Err? ==> receipts == old(receipts)
      ensures r.Ok? <==> saleId != 0 && createdBy != 0 && 1 <= saleId <= |old(sales)| && !HasReceipt(old(receipts), saleId)
      ensures r.Ok? ==> (r.value == |receipts| &&
        var sale := old(sales)[saleId - 1];
        receipts == old(receipts) + [Receipt(NextReceiptNumber(old(receipts), today), saleId, Ref(petId), Ref(ownerId),
                                             Ref(veterinarianId), sale.total, sale.paymentMethod, sale.paymentStatus,
                                             sale.notes, createdBy)])
      ensures old(EverySaleHasReceipt()) && saleId != 0 && createdBy != 0 ==> r.Err?
      ensures sessions == old(sessions) && movements == old(movements) && sales == old(sales) && items == old(items)
      ensures products == old(products) && services == old(services)
      ensures old(EverySaleHasReceipt()) ==> EverySaleHasReceipt()
    {
      if saleId == 0 || createdBy == 0 {
        return Err(ReceiptFieldsMissing);
      }
      if !(1 <= saleId <= |sales|) {
        return Err(SaleNotFound);
      }
      if HasReceipt(receipts, saleId) {
        return Err(ReceiptExists);
      }
      var sale := sales[saleId - 1];
      var number := NextReceiptNumber(receipts, today);
      StoreReceipt(Receipt(number, saleId, Ref(petId), Ref(ownerId), Ref(veterinarianId), sale.total,
                           sale.paymentMethod, sale.paymentStatus, sale.notes, createdBy));
      r := Ok(|receipts|);
    }
  }

  /** The elements of `s` in reverse order (`orderBy: { createdAt: 'desc' }`). */
  function Reversed<T>(s: seq<T>): (r: seq<T>)
    ensures |r| == |s| && forall k :: 0 <= k < |s| ==> r[k] == s[|s| - 1 - k]
    ensures multiset(r) == multiset(s)
  {
    if s == [] then []
    else
      assert s == s[..|s| - 1] + [s[|s| - 1]];
      [s[|s| - 1]] + Reversed(s[..|s| - 1])
  }
}
