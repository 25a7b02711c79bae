# Ticket cart of TicketForm, modelled in Dafny

TicketForm is a React widget that sells tickets for one event. The event's catalog
lists ticket tiers, each with a key (`type`) and an integer cost in cents. The user
builds a cart with one "up" and one "down" button per tier. The widget shows the
running total. On submit, it checks the cart and the customer fields and builds an
order record.

This project models the logic behind that widget:

- `types.dfy` (module `Types`): the catalog shapes from `src/types.tsx`. `type` is a
  reserved word in Dafny, so the tier key is called `typeKey`.
- `cart.dfy` (module `Cart`): the cart store. `CartStore` holds `orderItems` as
  state. Its methods `AddOrUpdateTicket` and `RemoveTicket` find the line with a
  loop (`FindIndex`), then bump its quantity, append a line or splice one out, as
  `addOrUpdateTicket` and `removeTicket` do. Each method is proved equal to a pure
  function (`Added`, `Removed`). The lemmas about those functions state:
  - the per-case behaviour of add and remove;
  - that both preserve the cart invariants (`WellFormed`): one line per type and
    every quantity at least 1;
  - that removing right after adding restores the cart;
  - how each operation moves the per-type quantity (`QuantityOf`).
- `pricing.dfy` (module `Pricing`): `calculateTotalPrice` as a left fold
  (`Reduce`). It is proved equal to a reference sum of unit cost times quantity.
  A line whose type is missing from the catalog adds 0. Further lemmas give how
  one add or one remove changes the total.
- `submit.dfy` (module `Submit`): `handleSubmit` runs its three fail-fast checks
  (`Validate`). If all pass, it builds the order record (`AssembleOrder`).
  A rejection is a `Failure` value naming the failed check; the widget shows an
  alert instead.
- `wrappers.dfy` (module `Wrappers`): `Option` and `Result`.

Two facts about the program shape the model:

- Validation is fail-fast, as at src/TicketForm.tsx:104-117. A field counts as
  missing only when it is the empty string; there is no trimming. `Submit.Problems`
  lists every failing check, and `Submit.ValidateIsFirstProblem` proves that the
  fail-fast checks report its first entry.
- The order record has no creation timestamp: `orderDate` is computed at
  src/TicketForm.tsx:129 but is never put into `orderData`, so the model needs no clock.

Integers are unbounded. JavaScript `number` costs, quantities and dates become
`int`, and the model assumes they hold integer values.

## Model

| member | source | states |
|---|---|---|
| `Cart.IndexOf` | src/TicketForm.tsx:62-64 | result is -1 or an index of a line of that type; no earlier line (no line at all, for -1) has that type |
| `Cart.FindIndex` | src/TicketForm.tsx:76-78 | the scanning loop returns exactly the first index of a line of that type, or -1 |
| `Cart.CartStore.constructor` | src/TicketForm.tsx:42 | a new form's cart is empty and well formed |
| `Cart.CartStore.AddOrUpdateTicket` | src/TicketForm.tsx:61-73 | new cart is `Added(old cart, t)`; a well-formed cart stays well formed |
| `Cart.CartStore.RemoveTicket` | src/TicketForm.tsx:75-90 | new cart is `Removed(old cart, t)`; a well-formed cart stays well formed |
| `Cart.AddExisting` | src/TicketForm.tsx:62-69 | adding a type that has a line keeps the length, raises only that line's quantity by 1, and leaves every other line unchanged |
| `Cart.AddNew` | src/TicketForm.tsx:70-72 | adding a type with no line appends `{t, 1}` after the unchanged existing lines |
| `Cart.RemoveAbsent` | src/TicketForm.tsx:76-82 | removing a type with no line leaves the cart unchanged |
| `Cart.RemoveExisting` | src/TicketForm.tsx:83-89 | quantity at most 1: that line is spliced out and the others keep their order; otherwise only that line's quantity drops by exactly 1 |
| `Cart.AddPreservesWellFormed` | src/TicketForm.tsx:61-73 | adding keeps types unique and every quantity at least 1 |
| `Cart.RemovePreservesWellFormed` | src/TicketForm.tsx:75-90 | removing keeps types unique and every quantity at least 1 |
| `Cart.RemoveAfterAdd` | src/TicketForm.tsx:61-90 | on a well-formed cart, removing a type right after adding it restores the original cart |
| `Cart.QuantityAfterAdd` | src/TicketForm.tsx:61-73 | adding `t` raises the quantity of `t` by 1 and leaves every other type's quantity unchanged |
| `Cart.QuantityAfterRemove` | src/TicketForm.tsx:75-90 | on a well-formed cart, removing `t` lowers a positive quantity of `t` by 1, keeps 0 at 0, and leaves other types' quantities unchanged |
| `Cart.QuantityNonNegative` | src/TicketForm.tsx:83-89 | in a well-formed cart no quantity is negative, and a type's quantity is positive iff it has a line |
| `Cart.AddTwiceThenRemoveScenario` | src/TicketForm.tsx:61-90 | two adds of "vip" give the single line `{vip, 2}`; removing from `{vip, 1}` gives the empty cart |
| `Pricing.FindTier` | src/TicketForm.tsx:54-56 | None iff no tier has the key; otherwise the tier is the first with that key |
| `Pricing.LineCostIsUnitCostTimesQuantity` | src/TicketForm.tsx:57 | a line adds its tier's cost times its quantity, and 0 when no tier has its type |
| `Pricing.ReduceIsSum` | src/TicketForm.tsx:53-58 | the fold from any starting total ends at that total plus the reference sum over the lines |
| `Pricing.TotalPriceIsSum` | src/TicketForm.tsx:52-59 | the total equals the reference sum of unit cost times quantity; the empty cart totals 0 |
| `Pricing.TotalAfterAdd` | src/TicketForm.tsx:61-73 | adding `t` raises the total by the cost of one `t` ticket (0 if `t` is not in the catalog) |
| `Pricing.TotalAfterRemove` | src/TicketForm.tsx:75-90 | on a well-formed cart, removing `t` lowers the total by one `t` ticket's cost when `t` has a line, and changes nothing otherwise |
| `Pricing.SumNonNegative` | src/TicketForm.tsx:52-59 | with no negative tier cost, the reference sum of a well-formed cart is at least 0 |
| `Pricing.TotalNonNegative` | src/TicketForm.tsx:52-59 | with no negative tier cost, a well-formed cart's total is at least 0 |
| `Pricing.TotalScenario` | src/TicketForm.tsx:52-59 | tiers vip 5000 and ga 2000, cart `{vip 2, ga 1}`: total 12000 |
| `Submit.ValidateIsFirstProblem` | src/TicketForm.tsx:104-117 | the fail-fast checks pass iff the all-checks list is empty; otherwise they report its first entry |
| `Submit.HandleSubmit` | src/TicketForm.tsx:104-152 | empty cart: rejected with NoTicketsSelected; else an empty first name, last name or address: MissingCustomerInfo; else an empty card number, expiry or CVV: MissingPaymentDetails; an order is built iff all checks pass, and it is the assembled order |
| `Submit.TicketsByType` | src/TicketForm.tsx:120-126 | same length as the cart; entry i carries exactly line i's type and quantity, and no cost |
| `Submit.CartOf` | src/TicketForm.tsx:120-126 | reading the entries back as cart lines: same length, line i has entry i's type and quantity |
| `Submit.CartOfTicketsByType` | src/TicketForm.tsx:120-126 | the entries give back exactly the cart they were built from (the map is lossless) |
| `Submit.AssembleOrder` | src/TicketForm.tsx:132-152 | the entries give back the cart, in order (entry i is line i's type and quantity); event id, name, date and location equal the catalog's; customer and payment fields are copied verbatim |
| `Submit.OrderPricesLikeCart` | src/TicketForm.tsx:120-126 | a submitted order's entries price, against the catalog, to the cart's total |
| `Submit.EmptyFormRejected` | src/TicketForm.tsx:43-50 | with the untouched initial fields, submit is always rejected, with MissingCustomerInfo when the cart is non-empty |

## Left out

- Rendering, CSS and button wiring (src/TicketForm.tsx:162-296): user interface only.
- `DOMPurify.sanitize` of the description blurb (src/TicketForm.tsx:39): a call into a
  library whose behaviour is not visible here.
- `formatCurrency` and `formatDate`, and so the order's `formattedDate` field
  (src/TicketForm.tsx:9-22, 148): floating-point division, `toFixed` and locale date
  formatting.
- The clock read `new Date().toISOString()` (src/TicketForm.tsx:129): its value is
  never used in the order.
- `alert`, `console.log` and the logging effect (src/TicketForm.tsx:105, 110, 115,
  155, 158-160): output only. A rejection is the `Failure` value and a successful
  submit is the `Success` value that would have been logged.
- `handleInputChange` (src/TicketForm.tsx:92-98): a field setter keyed by a DOM
  input name. The customer fields are taken as a `CustomerInfo` value at submit time.
- React state semantics: `useState` snapshots and re-renders are not modelled. The
  cart is one store updated in sequence. The shallow copies at src/TicketForm.tsx:67
  and :79 still share line objects with the previous state, so `quantity += 1` at :68
  and `quantity -= 1` at :87 also change the line objects of that state; that
  aliasing is not modelled.
- The `find` lookup at src/TicketForm.tsx:121: its result is never used.
- Non-integer or non-finite JavaScript numbers for cost and quantity: all numbers
  are modelled as integers.
- Rounding of large numbers: JavaScript numbers are exact integers only up to 2^53.
  Above that, `quantity += 1` and `cost * quantity` round, while the model's `int`
  is exact.
