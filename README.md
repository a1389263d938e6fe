# Veterinary clinic point of sale — a Dafny model

This project models the bookkeeping core of a veterinary clinic's management
application: the cash register and point of sale, plus the small pure helpers
around it.

- **Cash sessions** (`Ledger.PointOfSale`).
  - A register is opened with an opening balance. At most one session per
    register may be OPEN at a time.
  - Each session gets a date-coded number `CSH` + date + per-day counter.
  - A positive opening balance also records an `IN` cash movement
    ("Apertura de caja").
  - Closing a session computes the expected cash from the opening balance, the
    session's sales and its signed movements, and stores the difference from
    the counted cash. A closed session never changes again.
- **Sales** (`Sales`, `Ledger.PointOfSale.CreateSale`).
  - Every line is priced and checked before anything is written: the product
    or service must exist, a service must be active, and a product must have
    stock for the line. The first bad line decides the error.
  - A sale that passes writes, in order:
    - the sale row `VTA` + date + counter;
    - its items, decrementing each product's stock;
    - the session's counters, credited to the bucket of the payment method;
    - a receipt `REC` + date + counter.
- **Cash movements and receipts**: guarded inserts.
  - A movement needs its fields, a known type and an OPEN session, and does
    not touch any session.
  - A receipt needs a known sale with no receipt yet, and copies the sale's
    amounts.
  - Listing movements filters by session, newest first.
- **The sales page cart** (`Cart`).
  - Adding an item merges it into an existing line with the same kind and id;
    product quantity is capped by stock.
  - Setting a quantity of 0 or less removes the line.
  - Every line keeps subtotal = quantity × unit price.
  - Checking out needs a selected session and a non-empty cart. A single open
    session is selected automatically.
- **Inventory** (`Inventory`): each product is classified as `sin-stock`,
  `stock-bajo`, `stock-alto` or `stock-normal`. The module also models the
  dashboard counters and the status filter.
- **Pets** (`Pets`, `PetForm`).
  - Internal ids run `P001`, `P002`, … after the most recent pet.
  - Creation runs an ordered guard chain: required fields → owner → microchip
    → weight → birth date.
  - The pet form validator collects every failing field, and editing a field
    clears that field's error.

Conventions:

- Money is in integer minor units (cents). Weight is in hundredths of a
  kilogram, so 999.99 kg is `MaxWeight = 99999`.
- The date that prefixes document numbers is a string parameter `today`.
  Birth dates are day numbers compared with a `today` parameter.
- Tables with auto-increment keys are sequences; a row's id is its index + 1.
  The product and service catalogues are maps keyed by id.
- JavaScript truthiness is modelled explicitly:
  - an id or amount of `0` and a string `""` are "missing";
  - an optional value that is absent or falsy is `None`.

Where the system's documentation and its code disagree, the model follows the
code:

- Every line of a sale is checked against the stock read before the sale, so
  two lines for one product can drive its stock negative
  (`Sales.DuplicateLinesOversell`).
- The opening balance of a session is counted twice in the expected cash:
  once as `initialCash` and once as the automatic `IN` movement
  (`Settlement.OpeningBalanceCountedTwice`).
- A sale with an absent or `CREDIT` payment method credits none of the cash,
  card or transfer counters, although the stored method then defaults to
  CASH (`Sales.Credited`).
- The inventory's `stockNormal` counter matches the number of `stock-normal`
  products only when every minimum stock is non-negative
  (`Inventory.NegativeMinimumOvercounts` gives a product it counts wrongly).

Modules: `Base` (Option, Result), `Text` (trim, digits, padding, `parseInt`),
`Numbering`, `Records` (table rows), `Settlement`, `Sales`, `Ledger`, `Cart`,
`Inventory`, `Pets`, `PetForm`.

## Model

| member | source | states |
|---|---|---|
| Text.SkipSpace | src/app/api/cash-movements/route.ts:91 | The scan from an index stops at the first character that is not white space, or at the end, passing only white space |
| Text.SkipSpaceBack | src/app/api/cash-movements/route.ts:91 | The backward scan from an index stops just after the last character that is not white space, or at 0, passing only white space |
| Text.TrimStart | src/app/api/pets/route.ts:45 | The leading white space `parseInt` skips: a suffix of the input, preceded only by white space and not starting with white space |
| Text.Trim | src/app/api/cash-movements/route.ts:91 | The result has no surrounding white space, is no longer than the input, and is empty exactly when the input is all white space |
| Text.TrimIsMiddle | src/app/api/cash-movements/route.ts:91 | The trimmed text is the contiguous middle of the input that starts where the leading white space ends, with only white space before and after it |
| Text.TrimmedOrNull | src/app/api/pets/route.ts:133-139 | `s?.trim() \|\| null`: null exactly when the input is all white space, otherwise the non-empty trimmed string |
| Text.ParseInt | src/components/PetModal.tsx:104 | `parseInt` fails exactly when there are no leading digits after an optional sign and leading white space |
| Text.ParseIntOfNat | src/app/api/pets/route.ts:45 | Parsing the decimal form of a natural number gives that number back |
| Text.ParseIntOfDigits | src/app/api/pets/route.ts:45 | A non-empty run of digits, leading zeros included, parses to its value |
| Text.TrimStartSkips | src/app/api/pets/route.ts:45 | White space followed by a non-space character is skipped up to that character |
| Text.LeadingDigitsStop | src/app/api/pets/route.ts:45 | The digits read stop at the first character that is not a digit |
| Text.ParseIntUnsigned | src/components/PetModal.tsx:104 | White space, then digits, then anything not starting with a digit parses to the value of those digits |
| Text.ParseIntSigned | src/components/PetModal.tsx:104 | White space, a `-` or `+`, digits, then anything not starting with a digit parses to the digits' value, negated after `-` |
| Numbering.FormatNumber | src/app/api/cash-sessions/route.ts:79-87 | A document number starts with prefix + date and is followed by the digits of count + 1, padded with zeros to `width` and with no leading zero beyond that padding |
| Numbering.FormatNumberInjective | src/app/api/sales/route.ts:107-116 | Different counts give different numbers for the same prefix and date |
| Numbering.CountPrefixedAppend | src/app/api/receipts/route.ts:126-134 | Storing a number with the prefix raises the same-day count by exactly one, and by zero otherwise |
| Numbering.SequentialNumbers | src/app/api/cash-sessions/route.ts:79-87 | Under sequential creation on one day, each new number carries the previous counter + 1 |
| Records.Ref | src/app/api/sales/route.ts:191 | A falsy id is stored as null, any other id unchanged |
| Records.ParseMovementType | src/app/api/cash-movements/route.ts:66-71 | A type string is accepted exactly when it names one of IN, OUT, ADJUSTMENT, EXPIRED, LOST, and it then yields that type |
| Settlement.SalesOf | src/app/api/cash-sessions/route.ts:153-158 | Exactly the sales of the given session |
| Settlement.MovementsOf | src/app/api/cash-sessions/route.ts:153-158 | Exactly the movements of the given session |
| Settlement.SalesOfConcat | src/app/api/cash-sessions/route.ts:153-158 | Selecting a session's sales keeps their order: it distributes over concatenation |
| Settlement.MovementsOfConcat | src/app/api/cash-sessions/route.ts:153-158 | Selecting a session's movements keeps their order: it distributes over concatenation |
| Settlement.ExpectedBalance | src/app/api/cash-sessions/route.ts:153-158 | `initialCash + totalSales + totalMovements`: the opening balance when there are no sales or movements; with ExpectedBalanceAfterSale, ExpectedBalanceAfterMovement and ExpectedBalanceOrderIndependent, it rises by each sale's total and by each signed movement, in any order |
| Settlement.ExpectedBalanceOrderIndependent | src/app/api/cash-sessions/route.ts:153-158 | The expected cash depends only on the multisets of sales and movements, not on their order |
| Settlement.ExpectedBalanceAfterSale | src/app/api/cash-sessions/route.ts:153-158 | One more sale raises the expected cash by its total |
| Settlement.ExpectedBalanceAfterMovement | src/app/api/cash-sessions/route.ts:153-158 | One more movement raises the expected cash by its amount when it is IN and lowers it by its amount otherwise |
| Settlement.OpeningBalanceCountedTwice | src/app/api/cash-sessions/route.ts:116-158 | With the automatic opening movement, the expected cash contains the opening balance twice |
| Sales.SellerOrDefault | src/app/api/sales/route.ts:192 | `parseInt(soldBy) \|\| 1`: a given seller is kept, a missing one becomes user 1 |
| Sales.PriceLines | src/app/api/sales/route.ts:118-182 | The validation loop succeeds exactly when the pricing specification does, and then returns its priced lines and their subtotal; on failure it returns the same error |
| Sales.PriceErrorPersists | src/app/api/sales/route.ts:118-180 | Once a prefix of the lines fails, the whole request fails with that error: later lines are never consulted |
| Sales.PriceSucceedsIff | src/app/api/sales/route.ts:118-180 | Pricing succeeds exactly when every line is acceptable: known product with stock ≥ quantity, or known active service, or another type |
| Sales.PriceFailsAtFirstBadLine | src/app/api/sales/route.ts:118-180 | A failing request fails on a line that is not acceptable while every earlier line is |
| Sales.PricedTotals | src/app/api/sales/route.ts:118-182 | Each priced line comes from a requested PRODUCT or SERVICE line with the same id and quantity; its unit price is the override if non-zero, else the catalogue price, and its total is quantity × unit price |
| Sales.PricedLinesChecked | src/app/api/sales/route.ts:123-178 | Every priced product line names a known product whose pre-sale stock covers that line; every service line names a known active service |
| Sales.PricedQuantities | src/app/api/sales/route.ts:118-180 | Per product, the priced quantity equals the requested quantity: lines of other types produce nothing |
| Sales.PriceLineTotal | src/app/api/sales/route.ts:141-170 | A priced line's total is its quantity times its unit price |
| Sales.DecrementedStock | src/app/api/sales/route.ts:201-226 | Writing the items lowers each product's stock by exactly the quantity sold of it and leaves the catalogue's keys and every other product unchanged |
| Sales.DuplicateLinesOversell | src/app/api/sales/route.ts:136 | Two lines of one product that each fit the pre-sale stock are both accepted, and the stock ends negative |
| Sales.Credited | src/app/api/sales/route.ts:229-246 | `totalSales` rises by the total; exactly the CASH, CARD or TRANSFER bucket of the payment rises by it, none for CREDIT or no method; nothing else changes |
| Ledger.AppendKeepsOneOpen | src/app/api/cash-sessions/route.ts:64-97 | Adding a session keeps one OPEN session per register when the register had none open, and leaves every closed session as it was |
| Ledger.ReplaceKeepsOneOpen | src/app/api/cash-sessions/route.ts:161-170 | Closing an OPEN session keeps one OPEN session per register and leaves every closed session as it was |
| Ledger.OpeningMovements | src/app/api/cash-sessions/route.ts:116-126 | One IN movement "Apertura de caja" for the opening balance, in the new session and performed by the opener, exactly when the balance is positive; none otherwise |
| Ledger.ClosedSession | src/app/api/cash-sessions/route.ts:161-170 | The closed session is CLOSED, records the counted cash as `actualCash`, the expected cash as `expectedCash` and the closing user as `closedBy`, `difference = actual − expected`, and keeps every other field |
| Ledger.ItemRows | src/app/api/sales/route.ts:201-214 | One item row per priced line, in order, each carrying the sale id |
| Ledger.PointOfSale.OpenSession | src/app/api/cash-sessions/route.ts:62-128 | Rejected exactly when the register has an OPEN session, writing nothing; otherwise appends one OPEN session with the next `CSH` number and the opening balance, plus the opening movements; one open session per register is kept |
| Ledger.PointOfSale.CloseSession | src/app/api/cash-sessions/route.ts:130-194 | Rejected exactly when the session is missing or not OPEN, writing nothing; otherwise that one session becomes its closed form with the expected cash of its sales and movements |
| Ledger.PointOfSale.PostSession | src/app/api/cash-sessions/route.ts:52-200 | `open`: rejected with the register already open and nothing written, or the new session with the next `CSH` number and its opening movements appended; `close`: rejected for a missing or not OPEN session and nothing written, or exactly that session replaced by its closed form with the expected cash, movements untouched; any other action is an error and writes nothing |
| Ledger.PointOfSale.CreateMovement | src/app/api/cash-movements/route.ts:47-114 | Guards in order: missing fields, unknown type, session missing or not OPEN; succeeds exactly when every guard passes, and then exactly one movement with the trimmed reason is appended and no session changes |
| Ledger.PointOfSale.ListMovements | src/app/api/cash-movements/route.ts:9-33 | Exactly the movements of the given session, or all of them without one, newest first: the reverse of the stored order |
| Ledger.PointOfSale.WriteItems | src/app/api/sales/route.ts:201-226 | Appends the item rows and decrements stock as `Decremented` specifies |
| Ledger.PointOfSale.RecordSale | src/app/api/sales/route.ts:187-268 | The sale row, its items, the decremented stock, the credited session and one receipt, and nothing else |
| Ledger.PointOfSale.AppendSale | src/app/api/sales/route.ts:187-197 | Appends the sale row; its id has no receipt yet |
| Ledger.PointOfSale.CreditSession | src/app/api/sales/route.ts:229-246 | Only the sale's session changes, as `Credited` says |
| Ledger.PointOfSale.StoreReceipt | src/app/api/sales/route.ts:252-268 | Appends one receipt; exactly its sale gains a receipt |
| Ledger.PointOfSale.CreateSale | src/app/api/sales/route.ts:85-268 | Rejected exactly when a field is missing, the session is not OPEN or a line fails, with that error and nothing written; otherwise the full new state of the tables, and every sale keeps having a receipt |
| Ledger.PointOfSale.CreateReceipt | src/app/api/receipts/route.ts:81-150 | Guards in order: missing fields, unknown sale, existing receipt; succeeds exactly when every guard passes; success appends one `REC` receipt copying the sale's total, payment method, status and notes; while every sale has a receipt, every complete request is rejected |
| Ledger.Reversed | src/app/api/cash-movements/route.ts:33 | Newest-first order: the reversed sequence with the same elements |
| Cart.FindLine | src/app/dashboard/sales/page.tsx:124-127 | `findIndex`: the first line with that kind and id, or none when no line has them |
| Cart.AppendLine | src/app/dashboard/sales/page.tsx:148-172 | A new line for an item not in the cart is found afterwards, keeps the lines distinct and consistent, and adds its subtotal to the total |
| Cart.BumpLine | src/app/dashboard/sales/page.tsx:133-146 | Raising a line's quantity by one keeps that line findable and the lines distinct |
| Cart.BumpLineTotal | src/app/dashboard/sales/page.tsx:133-146 | Raising a line's quantity by one keeps subtotal = quantity × unit price and adds one unit price to the total |
| Cart.AddToCart | src/app/dashboard/sales/page.tsx:123-174 | A new item appends one line of quantity 1; a present service is raised by 1 and a present product only below its stock; the item is in the cart afterwards, no second line for it appears, and subtotal = quantity × unit price is kept |
| Cart.Capped | src/app/dashboard/sales/page.tsx:185 | The quantity is the requested one when no maximum is set, and otherwise the smaller of the requested one and the maximum |
| Cart.RemoveItem | src/app/dashboard/sales/page.tsx:197-199 | Exactly the lines with another id remain |
| Cart.UpdateQuantity | src/app/dashboard/sales/page.tsx:176-195 | A quantity ≤ 0 removes the line; otherwise only that line changes, to the capped quantity and subtotal = quantity × unit price |
| Cart.RemoveItemConcat | src/app/dashboard/sales/page.tsx:197-199 | Removal keeps the remaining lines in order: it distributes over concatenation |
| Cart.RemoveItemAbsent | src/app/dashboard/sales/page.tsx:197-199 | Removing an id no line has leaves the cart unchanged |
| Cart.RemoveItemTotal | src/app/dashboard/sales/page.tsx:197-203 | The total drops by exactly the subtotals of the removed lines |
| Cart.UpdateQuantityKeeps | src/app/dashboard/sales/page.tsx:176-195 | An update keeps the lines distinct and keeps subtotal = quantity × unit price |
| Cart.RemoveKeeps | src/app/dashboard/sales/page.tsx:197-199 | A removal keeps the lines distinct and consistent |
| Cart.UpdateQuantityIdempotent | src/app/dashboard/sales/page.tsx:176-195 | Setting the same quantity twice is the same as setting it once |
| Cart.ToLines | src/app/dashboard/sales/page.tsx:224-230 | One sale line request per cart line, in order |
| Cart.Checkout | src/app/dashboard/sales/page.tsx:205-231 | Refused with no selected session, then with an empty cart; otherwise the request carries the session, the customer as `ownerId` (0 when none), the lines, the payment method, the notes unchanged and seller 1 |
| Cart.CheckoutTotalAgrees | src/app/dashboard/sales/page.tsx:201-231 | For a consistent cart with non-zero prices that the server accepts, the server's subtotal equals the cart's total (service lines priced from the catalogue `price`) |
| Cart.PagePriceAsWritten | src/app/dashboard/sales/page.tsx:162-171 | The page as written gives a first service line no unit price (it reads `basePrice`, which the services listing lacks), and a product line the product's price |
| Cart.ShownSubtotal | src/app/dashboard/sales/page.tsx:137-170 | On the page as written a service line's subtotal is `NaN`, a product line's is its subtotal |
| Cart.ServiceLineTotalIsNaN | src/app/dashboard/sales/page.tsx:201-203 | The page as written shows a `NaN` total exactly when the cart holds a service line, and the intended total otherwise |
| Cart.ToLineAsWritten | src/app/dashboard/sales/page.tsx:224-230 | The page as written sends a service line without a unit price; a product line as intended |
| Cart.ChargedAsIntended | src/app/api/sales/route.ts:168-174 | Because the handler falls back to the catalogue price, the request the page as written sends is priced exactly like the intended one |
| Cart.OpenIds | src/app/dashboard/sales/page.tsx:110 | Exactly the ids of the OPEN sessions; a single session gives its id when OPEN and nothing otherwise |
| Cart.AutoSelect | src/app/dashboard/sales/page.tsx:110-114 | A single open session is selected; otherwise the selection stays |
| Cart.OpenIdsConcat | src/app/dashboard/sales/page.tsx:110 | The OPEN filter keeps the sessions' order: it distributes over concatenation |
| Cart.OpenIdsNone | src/app/dashboard/sales/page.tsx:110 | With no OPEN session no id is offered |
| Cart.OpenIdsLone | src/app/dashboard/sales/page.tsx:110 | With exactly one OPEN session, its id is the only one offered |
| Cart.OpenIdsTwo | src/app/dashboard/sales/page.tsx:110 | Two OPEN sessions offer at least two ids |
| Cart.AutoSelectLone | src/app/dashboard/sales/page.tsx:110-114 | A lone OPEN session is selected, whatever was selected before |
| Cart.AutoSelectNone | src/app/dashboard/sales/page.tsx:110-114 | With no OPEN session the selection stays |
| Cart.AutoSelectSeveral | src/app/dashboard/sales/page.tsx:110-114 | With two or more OPEN sessions the selection stays |
| Inventory.Status | src/app/dashboard/inventory/page.tsx:116-126 | `sin-stock` iff stock ≤ 0; `stock-bajo` iff 0 < stock ≤ minimum; `stock-alto` iff above the minimum with a set maximum reached; `stock-normal` otherwise |
| Inventory.StatusNameInjective | src/app/dashboard/inventory/page.tsx:116-126 | The four status names are distinct |
| Inventory.StockStats | src/app/dashboard/inventory/page.tsx:142-153 | `getStockStats`: `total` is the number of products and each counter is at most `total`; StatsMatchStatuses and StatusCountsPartition tie the counters to the statuses shown |
| Inventory.StatusCountsPartition | src/app/dashboard/inventory/page.tsx:142-153 | The four status counts add up to the number of products |
| Inventory.StatsMatchStatuses | src/app/dashboard/inventory/page.tsx:142-153 | `sinStock` and `stockBajo` are the numbers of products with those statuses and together are at most `total` |
| Inventory.NormalCountMatches | src/app/dashboard/inventory/page.tsx:146-150 | With non-negative minimums, `stockNormal` is the number of `stock-normal` products and the three counts are at most `total` |
| Inventory.NegativeMinimumOvercounts | src/app/dashboard/inventory/page.tsx:146-150 | A product with stock 0 and minimum −1 is counted both as `sin-stock` and as normal |
| Inventory.StockFiltered | src/app/dashboard/inventory/page.tsx:136-137 | An empty filter keeps every product; otherwise exactly the products whose status name is the filter |
| Inventory.StockFilteredConcat | src/app/dashboard/inventory/page.tsx:136-137 | Filtering keeps the products' order: it distributes over concatenation |
| Inventory.FilterSizeIsStatusCount | src/app/dashboard/inventory/page.tsx:127-153 | Filtering by a status keeps as many products as that status's count |
| Pets.NextInternalId | src/app/api/pets/route.ts:37-49 | `P001` with no pets; otherwise an id of at least four characters starting with `P` (its exact value is given by NextInternalIdNaN and NextInternalIdParsed) |
| Pets.NextInternalIdNaN | src/app/api/pets/route.ts:45-48 | After an id whose suffix does not parse comes `PNaN` |
| Pets.NextInternalIdParsed | src/app/api/pets/route.ts:45-48 | After an id whose suffix parses to `k` comes the id numbered `k + 1` |
| Pets.IdAfter | src/app/api/pets/route.ts:46-48 | The id after a parsed suffix starts with `P` and has at least four characters |
| Pets.IdAfterNumber | src/app/api/pets/route.ts:46-48 | After a suffix parsed to `k` comes the id numbered `k + 1` |
| Pets.Suffix | src/app/api/pets/route.ts:45 | `slice(1)`: the id is its first character followed by the result |
| Pets.InternalId | src/app/api/pets/route.ts:48 | `P` followed by the digits of the pet's counter, padded with zeros to three and with no leading zero beyond that padding |
| Pets.NextAfterInternalId | src/app/api/pets/route.ts:37-49 | After the id with counter n comes the id with counter n + 1 (P009 → P010, P999 → P1000) |
| Pets.FirstInternalId | src/app/api/pets/route.ts:43 | The first id is the one with counter 1 |
| Pets.CheckPet | src/app/api/pets/route.ts:73-120 | Missing fields are reported first and exactly when missing; passes exactly when the fields are present, the owner is known, the trimmed microchip is unused, the weight is in (0, 999.99] and the birth date is not in the future; each later guard's error is reported when it is the first to fail |
| Pets.NewPet | src/app/api/pets/route.ts:127-152 | Gender defaults to UNKNOWN; name is stored trimmed; microchip, breed, color and notes are stored trimmed, or null exactly when blank; the other fields are copied |
| Pets.ChipsStayUnique | src/app/api/pets/route.ts:93-104 | A pet admitted by the microchip guard keeps all stored microchips distinct |
| Pets.PetRegistry.CreatePet | src/app/api/pets/route.ts:73-164 | Rejected exactly when a guard fails, with the first failing guard's error and nothing stored; otherwise one pet with the next internal id, and a weight entry exactly when a weight was given |
| Pets.PetRegistry.AddPet | src/app/api/pets/route.ts:127-152 | Appends the pet and keeps the microchips distinct |
| Pets.PetRegistry.AddWeight | src/app/api/pets/route.ts:155-164 | Appends one weight entry and nothing else |
| PetForm.Violations | src/components/PetModal.tsx:117-137 | Each field's rule, both ways: blank name, missing species, owner 0, weight given outside (0, 999.99], future birth date, microchip longer than 50 |
| PetForm.ValidateForm | src/components/PetModal.tsx:117-140 | One error per failing field with its message, all collected; valid exactly when there is no error |
| PetForm.ValidFormPassesFieldGuards | src/components/PetModal.tsx:117-140 | A form the validator accepts can only be refused by the server for an unknown owner or a microchip in use |
| PetForm.OwnerIdOf | src/components/PetModal.tsx:104 | `parseInt(value) \|\| 0`: the parsed number, or 0 when parsing fails |
| PetForm.Edited | src/components/PetModal.tsx:100-106 | `{...prev, [name]: value}`: the edited field takes the new text, weight, date or parsed owner, and every other field is kept |
| PetForm.ClearedErrors | src/components/PetModal.tsx:108-114 | Exactly that field's error is removed |
| PetForm.EditKeepsOtherVerdicts | src/components/PetModal.tsx:100-115 | After an edit, every other field fails validation exactly as before |
| PetForm.ClearedErrorsStillDeserved | src/components/PetModal.tsx:100-115 | Errors left after an edit are still deserved by the edited form, and the edited field's error is gone |

## Left out

- Storage and transactions: tables are in-memory sequences and maps. A sale is "validate everything, then apply every write". Response shapes (`include`, `select`) and database errors are not modelled.
- Concurrency: the count-then-format numbering and the check-then-insert guards are races only under parallel requests. Every operation is modelled as running alone.
- Clock: the date prefix of document numbers and the "today" of birth-date checks are parameters.
- Floating point: money and weights are integers (cents, hundredths of a kg), not `parseFloat` values.
- Pets.PetRegistry.CreatePet: the pet's QR code comes from `crypto.randomUUID` and is not modelled.
- Pets.NextInternalIdParsed: when the last id's suffix parses to a number below −1, only that the next id starts with `P` and has at least four characters is stated; the sign and padding of a negative number are not spelled out.
- Text.Trim: treats only ASCII white space (space, tab, line feed, carriage return, vertical tab, form feed) as white space; Unicode spaces are not modelled.
- PetForm.Violations: a string's length is its number of characters, whereas JavaScript's `length` counts UTF-16 code units, so a microchip with characters outside the Basic Multilingual Plane is measured differently.
- Text.ParseInt: models decimal `parseInt` on an optional sign and leading digits; hexadecimal prefixes and Unicode digits are not modelled.
- Sales: an unknown payment-method string is not modelled; the method is one of the schema's values or absent.
- Ledger.PointOfSale.CreateSale: the schema default of a sale's payment status is not visible and is a constant fixed when the ledger is built.
- Cart: the line id (`Date.now()`) is a parameter of `AddToCart`. A service line is priced from the catalogue `price`, not from the `basePrice` the page reads (see Findings).
- Inventory: the text search and category filters depend on Unicode case mapping and are not modelled; only the stock filter is.
- PetForm.ValidateForm: the dictionary filled by successive conditional assignments is modelled as the map it ends up as.
- React rendering, alerts, `fetch` calls and the other thin create/read handlers of the application are not part of this model.

## Findings

| source | as written | input that shows it | evidently intended | confidence | as-written member | corrected member |
|---|---|---|---|---|---|---|
| src/app/dashboard/sales/page.tsx:168-170 | a new service line takes `unitPrice` and `subtotal` from `service.basePrice`, a field the services listing does not send | adding any service to the cart: its subtotal and the cart total show `NaN` | the service's catalogue `price` | high: the page's own `Service` type (page.tsx:20-26) declares `price` and no `basePrice`, and the services handler stores `price` (src/app/api/services/route.ts:53); not executed | Cart.ServiceLineTotalIsNaN | Cart.CheckoutTotalAgrees |
