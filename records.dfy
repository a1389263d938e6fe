/**
 * The rows of the point-of-sale tables: cash sessions, cash movements, sales,
 * sale items, receipts, and the product and service catalogues they read.
 * Money is in integer minor units (cents).
 */
module Records {
  import opened Base

  /** A nullable foreign key sent by a client: a falsy 0 is stored as null. */
  function Ref(id: int): (r: Option<int>)
    ensures r == None <==> id == 0
    ensures r.Some? ==> r.value == id
  {
    if id == 0 then None else Some(id)
  }

  datatype SessionStatus = Open | Closed

  /**
   * A cash session: one register open for business. `actualCash`,
   * `expectedCash` and `difference` are filled in only when it is closed;
   * the four totals are the counters every sale increments.
   */
  datatype Session = Session(
    number: string,
    registerId: int,
    initialCash: int,
    status: SessionStatus,
    openedBy: int,
    closedBy: Option<int>,
    actualCash: Option<int>,
    expectedCash: Option<int>,
    difference: Option<int>,
    totalSales: int,
    totalCash: int,
    totalCard: int,
    totalTransfer: int)

  datatype MovementType = In | Out | Adjustment | Expired | Lost

  /** The enum literal a movement type is stored and sent as. */
  function MovementTypeName(t: MovementType): string {
    match t
    case In => "IN"
    case Out => "OUT"
    case Adjustment => "ADJUSTMENT"
    case Expired => "EXPIRED"
    case Lost => "LOST"
  }

  /** The `['IN', 'OUT', 'ADJUSTMENT', 'EXPIRED', 'LOST'].includes(...)` check, returning the type it names. */
  function ParseMovementType(s: string): (r: Option<MovementType>)
    ensures r.Some? ==> MovementTypeName(r.value) == s
    ensures forall t: MovementType :: MovementTypeName(t) == s ==> r == Some(t)
  {
    if s == "IN" then Some(In)
    else if s == "OUT" then Some(Out)
    else if s == "ADJUSTMENT" then Some(Adjustment)
    else if s == "EXPIRED" then Some(Expired)
    else if s == "LOST" then Some(Lost)
    else None
  }

  /** A manual cash movement; only `IN` adds to the drawer, every other type takes away. */
  datatype Movement = Movement(
    sessionId: int,
    kind: MovementType,
    amount: int,
    reason: string,
    performedBy: int)

  datatype PaymentMethod = Cash | Card | Transfer | Credit

  datatype PaymentStatus = Paid | Pending

  datatype ItemKind = ProductItem | ServiceItem

  datatype Sale = Sale(
    number: string,
    sessionId: int,
    ownerId: Option<int>,
    soldBy: int,
    paymentMethod: PaymentMethod,
    paymentStatus: PaymentStatus,
    subtotal: int,
    total: int,
    notes: Option<string>)

  /** One priced line of a sale; `refId` is the product id or the service id, by `kind`. */
  datatype SaleItem = SaleItem(
    saleId: int,
    kind: ItemKind,
    refId: int,
    description: string,
    quantity: int,
    unitPrice: int,
    total: int)

  datatype Receipt = Receipt(
    number: string,
    saleId: int,
    petId: Option<int>,
    ownerId: Option<int>,
    veterinarianId: Option<int>,
    totalAmount: int,
    paymentMethod: PaymentMethod,
    paymentStatus: PaymentStatus,
    notes: Option<string>,
    createdBy: int)

  datatype Product = Product(name: string, unitPrice: int, currentStock: int)

  datatype Service = Service(name: string, price: int, active: bool)
}
