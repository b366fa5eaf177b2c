# Quote → Order → Invoice lifecycle engine

A Dafny model of the lifecycle engine of a business-customer portal simulator. The
engine lives in the top-level state of `App.tsx`. It keeps three collections: quotes,
orders and invoices. User commands change them: request a quote, decline, negotiate,
approve. So do two deferred "admin" responses and a periodic tick. The tick moves every
in-progress order one stage along an eight-stage fulfilment pipeline. It then bills
each order that has reached the last stage, at most once per order.

Modules, one per part of the program:

- `Stages` (`stages.dfy`): the eight pipeline stages and the completed / active /
  upcoming classification drawn by the progress tracker.
- `Quotes` (`quotes.dfy`): the quote record and the pure list transforms behind
  `addQuote`, the counter-offer timer, `updateQuoteStatus`, its answer timer, and the
  `find` / `filter` of `approveQuote`.
- `Orders` (`orders.dfy`): orders, invoices, the stage advance of the tick, and the
  invoice phase of the tick as a fold over the orders.
- `Seed` (`seed.dfy`): the mock quotes, orders and invoices, and the mapping into the
  engine's working shapes done at mount time.
- `Lifecycle` (`lifecycle.dfy`): the state invariants and the class `Engine`. The
  class holds `seq` fields, one method per command and per timer callback, and `Tick`,
  whose loop bills the orders one at a time.
- `Wrappers` (`wrappers.dfy`): `Option` and `Distinct`.

Money is an exact `real`. Random ids and `new Date()` strings are parameters. A
freshness precondition stands in for the source's random ids, which can collide. Each
timer callback is a method that the environment may call at any later point, or never.

The model follows App.tsx as written, including where the code is looser than an
idealised engine would be:

- The deferred admin responses (App.tsx:149-153, 166-170) test only the quote id. They overwrite every
  quote with the matching id, a declined one included (`Quotes.LateResponseReopensDeclined`).
  On an approved (removed) quote they do nothing, because no quote carries the id any
  more (`Quotes.LateResponseAfterApprove`).
- Only `approveQuote` removes a quote (App.tsx:195). A declined quote stays in the list,
  and so do the seed quotes with status Approved or Rejected.
- The seed mapping (App.tsx:32) turns every seed status other than Pending and Approved into Rejected.
- The tick computes VAT as 20% of the amount (App.tsx:71), but the seed invoices are
  taken as they are (App.tsx:45), so seed invoice INV-2023-002
  has a VAT of 10.00 on 49.99 (`Seed.SeedVatException`). Every invoice is still
  balanced: its line items add up to the net amount, and its total is net plus VAT.
- `updateQuoteStatus` tests the price by truthiness (App.tsx:161, 164), so a price of 0
  is not recorded and no admin answer is scheduled, but the quote still goes back to In Review from the user.

## Model

| member | source | states |
|---|---|---|
| `Stages.PipelineLength` | components/ProgressTracker.tsx:10-19 | the pipeline has 8 stages, so its last index is 7 |
| `Stages.CompletedExcludesActive` | components/ProgressTracker.tsx:39-51 | a stage is never both completed and active; it is upcoming exactly when its index is past the current stage |
| `Stages.Marks` | components/ProgressTracker.tsx:38-40 | in the per-index classification (`Stages.StateOf` of each index), index i is completed iff i < current, active iff i == current, upcoming iff i > current |
| `Stages.MarksCounts` | components/ProgressTracker.tsx:38-40 | of n stages, the current stage clamped to 0..n are completed, and exactly one is active when the current stage is in range |
| `Stages.TrackerClassification` | components/ProgressTracker.tsx:38-51 | for a current stage in 0..7, the classification of the pipeline (`Stages.Classify`) has 8 entries: exactly that many stages are completed, exactly one is active (at the current index), and all later ones are upcoming |
| `Quotes.MapMatching` | App.tsx:149-153 | the `map` over quotes changes exactly the quotes carrying the id, keeps length and order |
| `Quotes.NewQuote` | App.tsx:137-144 | a requested quote carries the input fields, is In Review, was last acted on by the user, and has no negotiation price |
| `Quotes.CounterOffer` | App.tsx:148-153 | every quote with the id becomes Action Required from the admin at 95% of its amount (`Quotes.Countered`), whatever its status; ids and all other quotes and fields are unchanged |
| `Quotes.UpdateStatus` | App.tsx:157-176 | every quote with the id takes the new status with the user as last actor (`Quotes.UserAction`); a truthy price is recorded, a falsy one leaves the old negotiation price; nothing else changes |
| `Quotes.AnswerNegotiation` | App.tsx:165-170 | every quote with the id becomes Action Required from the admin (`Quotes.Answered`), its amount the negotiated price when that is truthy and unchanged otherwise; nothing else changes |
| `Quotes.FindQuote` | App.tsx:180-181 | none exactly when no quote carries the id; otherwise a quote of the list carrying the id |
| `Quotes.FindFirst` | App.tsx:180 | `find` returns the first quote carrying the id |
| `Quotes.RemoveQuote` | App.tsx:195 | the filter's result is no longer than the list and no quote in it carries the id |
| `Quotes.RemoveQuoteMembers` | App.tsx:195 | a quote is in the result exactly when it is in the list and does not carry the id |
| `Quotes.RemoveAbsent` | App.tsx:195 | filtering out an id no quote carries leaves the list as it is |
| `Quotes.RemoveAppend` | App.tsx:195 | the filter distributes over concatenation, so it keeps the relative order of the remaining quotes |
| `Quotes.RemoveUnique` | App.tsx:195 | with unique ids, removing the quote at position k leaves the others in their order |
| `Quotes.RemoveKeepsDistinct` | App.tsx:195 | removing quotes keeps the remaining ids unique |
| `Quotes.LateResponseAfterApprove` | App.tsx:148-171 | a counter-offer or negotiation answer that fires after the quote was removed changes nothing |
| `Quotes.LateResponseReopensDeclined` | App.tsx:148-171 | a response that fires after a decline turns the declined quote back into Action Required (no status guard) |
| `Orders.LastStageIsFinalIndex` | App.tsx:54 | the tick's bound 7 is the last index of the eight-stage pipeline |
| `Orders.Advance` | App.tsx:52-63 | an In Progress order below stage 7 moves up exactly one stage and is Delivered exactly when it lands on 7; every other order is unchanged; only stage and status ever change; well-formedness is preserved |
| `Orders.AdvanceAll` | App.tsx:51-63 | the advance phase keeps length, order and ids and advances each order independently |
| `Orders.AdvanceTimesStage` | App.tsx:49-63 | after n ticks a well-formed order is at min(stage + n, 7), still well formed, with nothing but stage and status changed |
| `Orders.InvoiceFor` | App.tsx:71-84 | a generated invoice bills the order's id and amount, VAT is 20% of it, the total is net plus VAT (120% of the amount), it is Unpaid, and it has one line {item, 1, amount} that sums to the net |
| `Orders.AnyInvoiceFor` | App.tsx:70 | `some` is true exactly when an invoice references the order |
| `Orders.CountForDistinct` | App.tsx:66-70 | with unique order references, an order has exactly one invoice if it has any, else none |
| `Orders.BillKeepsExisting` | App.tsx:85-87 | the invoice phase only prepends: existing invoices stay unchanged and in the same relative order at the back |
| `Orders.BillCovers` | App.tsx:66-90 | after the invoice phase every visited order at stage 7 has an invoice |
| `Orders.BillPreserves` | App.tsx:68-87 | the existence guard keeps order references unique, and every invoice stays balanced |
| `Orders.BillFreshIds` | App.tsx:73 | with distinct, unused supplied ids, invoice ids stay unique and every id comes from the old list or the supplied ones |
| `Orders.BillNewAreGenerated` | App.tsx:66-85 | each added invoice is the one generated for a visited stage-7 order that had no invoice before |
| `Orders.BillNoop` | App.tsx:69-87 | when every visited stage-7 order is already billed, the phase leaves the invoices as they are |
| `Orders.BillNoDuplicate` | App.tsx:69-87 | an order already billed gets no further invoice however many ticks see it at stage 7 |
| `Seed.NormalizeQuote` | App.tsx:27-36 | Pending maps to In Review, Approved stays, anything else becomes Rejected; empty or zero product id, amount and quantity fall back to "6", 49.99 and 1 and are otherwise kept; the admin acted last |
| `Seed.NormalizeOrder` | App.tsx:38-43 | a mapped seed order is well formed and keeps id, date, item and amount; it is Delivered iff the seed order was; otherwise it is at stage 1 |
| `Seed.NormalizeQuotes` | App.tsx:27-36 | the seed quotes are mapped one by one, in order |
| `Seed.NormalizeOrders` | App.tsx:38-43 | the seed orders are mapped one by one, in order |
| `Seed.SeedQuoteStatuses` | App.tsx:32 | the seed's Approved and Rejected quotes remain in the quotes list |
| `Seed.SeedDeliveredAlreadyBilled` | constants.ts:123-136 | the delivered seed order ORD-7782-X is at stage 7 and already has exactly one invoice |
| `Seed.SeedVatException` | constants.ts:137-149 | seed invoice INV-2023-002 is balanced, but its VAT is not 20% of its amount |
| `Lifecycle.OrderFromQuote` | App.tsx:184-192 | the order made from a quote is well formed, In Progress at stage 0, for the quote's title and amount, under the fresh id |
| `Lifecycle.DeliveredBilledOnce` | App.tsx:66-87 | in a valid state every Delivered order is at stage 7 and has exactly one invoice |
| `Lifecycle.ApproveRemovesOne` | App.tsx:179-195 | approving a present quote removes exactly that one quote and keeps the others in order, with ids still unique |
| `Lifecycle.ApprovedOrderDelivered` | App.tsx:184-192 | an approved quote's order is Delivered at stage 7 after seven ticks, keeps the quote's amount, and an eighth tick leaves it as it is |
| `Lifecycle.TickKeepsInvariant` | App.tsx:49-96 | the tick keeps every order well formed and ids unique, and after it every stage-7 order is billed exactly once under a fresh invoice id |
| `Lifecycle.SeedOk` | App.tsx:25-46 | the mapped seed data satisfies every invariant of the engine |
| `Lifecycle.SeedQuotesOk` | App.tsx:27-36 | the mapped seed quotes have unique ids and quantities of at least 1 |
| `Lifecycle.SeedOrdersOk` | App.tsx:38-43 | the mapped seed orders have unique ids and are well formed |
| `Lifecycle.SeedInvoicesOk` | App.tsx:45 | the seed invoices have unique ids and order references, are balanced, and bill the delivered seed order |
| `Lifecycle.Engine.constructor` | App.tsx:20-46 | the engine starts from the mapped seed data in a valid state |
| `Lifecycle.Engine.AddQuote` | App.tsx:137-145 | the new quote is prepended; the other quotes, the orders and the invoices are unchanged; the invariant holds |
| `Lifecycle.Engine.AdminCounterOffer` | App.tsx:148-154 | the counter-offer callback applies `CounterOffer` to the current quotes and changes nothing else |
| `Lifecycle.Engine.UpdateQuoteStatus` | App.tsx:157-177 | the quotes become `UpdateStatus` of the old ones; an answer is scheduled iff a quote has the id and the test of App.tsx:164 (`Quotes.SchedulesAnswer`) holds: the status is Pending, or In Review with a truthy price |
| `Lifecycle.Engine.Decline` | App.tsx:237 | the quote becomes Rejected from the user and stays in the list; the returned flag says no answer is scheduled |
| `Lifecycle.Engine.Negotiate` | App.tsx:238 | the quote goes back In Review from the user; an answer is scheduled iff the id is present and the price is non-zero |
| `Lifecycle.Engine.AdminAnswer` | App.tsx:165-171 | the answer callback applies `AnswerNegotiation` to the current quotes and changes nothing else |
| `Lifecycle.Engine.Approve` | App.tsx:179-199 | an unknown id is a no-op; otherwise one order from the quote is prepended, that one quote is removed, invoices are unchanged, and the new order id is returned |
| `Lifecycle.Engine.Tick` | App.tsx:49-96 | the orders become `AdvanceAll` of the old ones, the invoices become `Orders.BillUpTo` of the advanced orders (the invoice phase as a fold of `Orders.BillOne`, one guarded iteration of App.tsx:67-87 each), quotes are unchanged, and the invariant holds (every stage-7 order billed exactly once) |
| `Lifecycle.Engine.BillDeliveredOrders` | App.tsx:66-90 | the `forEach` loop visits the orders in list order and leaves exactly the invoices `BillUpTo` describes, changing nothing but the invoices |

## Left out

- Rendering, styling and navigation state (current view, selected product, login
  user), the dashboard charts, the image editor, the login and support forms, and the
  dark-mode switch. They hold no lifecycle state. Of the selection state, only the new
  order id that `approveQuote` selects is kept, as the result of `Approve`.
- Timer durations, `setInterval` / `clearInterval` and the tick's cancellation on
  unmount. Each timer callback is a method the environment calls, or does not call.
- React's stale closures. `addQuote` and `approveQuote` prepend to the `quotes` /
  `orders` captured at render time (App.tsx:145, 194). The model prepends to the
  current collections.
- Random ids and `new Date()` dates are parameters. Freshness preconditions (`AddQuote`,
  `Approve`, `Tick`) exclude the collisions the random ids allow. A new order id is
  also fresh with respect to the order references of invoices, because seed invoice
  INV-2023-002 references ORD-PREV-99, which is not an order. No proof relies on this
  second freshness condition: it is kept as documentation, and the `ORD-` plus five digits
  format of App.tsx:185 cannot produce ORD-PREV-99 anyway.
- Floating-point rounding of `* 0.20`, `* 0.95` and `.toFixed(2)`, and the tracker's
  progress-bar percentage. Money is an exact real. NaN as a falsy price is not modelled.
- The quote amount is an input. In the source it is `product.price * quantity`, taken
  from the catalog form (views/Catalog.tsx:35-41). The form's `min="1"` becomes the
  precondition `quantity >= 1` of `AddQuote`. `parseInt` failures are not modelled.
- `trackingStage` is optional in the source's type, but every order in the engine's
  state has one, so it is an `int` and the tick's `!== undefined` test is always true.
- Stage icons and the other presentation fields of the pipeline stages. Only titles and
  subtitles are kept.
