# Checkout to ledger: a verified model

A shop owner's cart becomes a pending payment with frozen lines. Once a payment rail reports the
payment as settled, one database transaction creates a financial event, and the event's save signal
writes the sale, its lines, the stock decrements with their movement rows, one REVENUE credit, one
COGS debit and a receipt, or nothing at all; saving the payment as PAID activates the subscription
it may have bought, and a new sale runs the stock automation. Confirmations arrive more than once
and by several routes (status poll, on-ramp endpoint, webhook), and other transactions move the
same stock. The project models that backend and proves what it is for: each order is booked exactly
once, completely or not at all; stock, money and receipts reconcile; concurrent transactions under
row locks amount to a serial run. It also models keyset pagination over the movement ledger with
its cursor text, and the printer and parser of the generated product barcodes.

## Layout

| files | content |
|---|---|
| `Tables`, `Basics` | rows, the database value, filters and sums |
| `Movements`, `Selling`, `Automation`, `Confirmation`, `Checkout` | each operation as a function of the database value, and what is true of those functions |
| `Store` | the mutable database: one field per table, an undo journal, nested savepoints |
| `SaleService`, `PaymentService`, `Requests` | the services and endpoints as methods that write the store row by row, each proved against its function; on an error the store is exactly what it was |
| `Books`, `Preservation`, `Runs` | the invariant, and that every request keeps it |
| `History` | what runs never undo, and replay of confirmations |
| `Statements` | the results about every reachable database |
| `Outcomes`, `Routes`, `Refusals` | what each request leaves behind, field by field, which answers confirm, and which error stops what |
| `Interleaving`, `Concurrency` | concurrent transactions holding row locks; first the tables of the chain, then the whole database with its rules and executions |
| `Pagination`, `Cursor` | the page walk and the cursor text |
| `Json`, `Utf8`, `Base64`, `Barcode` | the barcode codec (RFC 8259 section 7, RFC 3629 section 3, RFC 4648 sections 3.2 and 5) |

Money is an integer number of hundredths. Keys and clock readings are inputs of the operation that
would draw them; a key that is already taken is an integrity error of that operation. The answers of
payment rails are arbitrary inputs.

A run (`Runs.Leads`) is any sequence of product creations and edits, stock corrections, checkouts,
subscription purchases, confirmations by every route, status polls, the late halves of polls whose
row was read at any earlier time, trials, automation rules of any kind, and event rows inserted from
outside. A database is
`Reachable` if some run leads to it from the empty one.

## Where the code does less than it seems to

- `handle_financial_event` never links the payment to the event. A confirmed event inserted from
  outside for an order that is still unlinked books a sale that confirmation then books again
  (`Statements.StrayEventSellsTwice`). `Runs.EventSafeIff` gives the exact condition under which such
  an event is harmless; runs admit outside events only under it.
- The stock check at checkout is per line: a cart that repeats a product can pass it and still be
  refused at confirmation (`Statements.RepeatedProductOverdraws`; `Statements.ConfirmSucceedsIff` says
  exactly when confirmation succeeds).
- A status poll writes the status of a row it read without a lock. Written late, the status of a paid
  payment goes back to failed or expired. PAID without a link never arises, but PAID is no longer the
  same as linked (`History.LateWriteIff` says exactly when it stays so).
- An owner may store a rule whose condition is JSON but no object. Evaluating it fails, which the
  handler logs; the rules older than it are then not evaluated (`Automation.AllFireIff` says exactly
  when every applicable rule fires).
- Two concurrent first sales of a business without a rule for confirmed payments can both insert the
  default rule (`Concurrency.TwoFirstSales`). Signup inserts that rule, and with it automation is
  serialisable like everything else (`Concurrency.SerialisableIffSeeded`).
- `docs/api-contract-clarifications.md` line 172 says that a generated barcode is shorter than 120
  characters. It is not always: a name of 24 wide characters does not even fit the 128-character
  column (`Barcode.WideNameOverflows`; `Barcode.Length` says exactly when it fits). The model follows
  the code.

## Model

| member | source | states |
|---|---|---|
| Statements.SettledExactlyOnce | sales/services.py:72-148 | In every reachable database, counting the rows of every event that names the order, a confirmed checkout order has exactly one sale, one REVENUE credit, one COGS debit, one receipt, one movement per line, and one sale line per frozen line with its product, quantity, price and cost. |
| Statements.UnsettledHasNothing | sales/services.py:29-70 | An order that is not a confirmed checkout has no sale, no ledger entry and no sale line of any event that names it, no movement and no receipt. |
| Statements.NeverConfirmedElsewhere | sales/services.py:63-70 | The error "already confirmed elsewhere" is never met, neither by a confirmation nor by an admitted outside event. |
| Statements.ConfirmSucceedsIff | payments/services.py:212-249 | Confirming an unlinked checkout succeeds if and only if the keys are new, every product is still the business's own, and for each product the cart's total over all lines is at most the stock. |
| Statements.StatusesReached | payments/models.py:17-30 | Only PENDING, PAID, FAILED and EXPIRED occur, and PAID implies a stored event of the same business that names the order. |
| Statements.QuantitiesReconcile | sales/services.py:80-148 | For every confirmed order and product, frozen cart, sale lines, negated SALE movements of the order and receipt lines sum to the same quantity. |
| Statements.OneBusiness | sales/services.py:46-52 | Event, sale, ledger entries, movements and moved products of a confirmed order all belong to the payment's business. |
| Statements.StockIsItsLog | products/movements.py:79-93 | In every reachable database each stock is the sum of its product's movement deltas and non-negative; each qty_after is the prefix sum up to its row; adjustments have a reason that is not blank. |
| Statements.LaterLogExtends | products/models.py:77-84 | The movement log at any time is a prefix of the log at any later time. |
| Statements.SaleProfit | ledger/financial.py:9-21 | For every confirmed order the REVENUE credit minus the COGS debit is the sale's total less quantity times unit cost, summed over its stored lines. |
| Statements.DashboardAgrees | ledger/views.py:91-98 | For each business and any choice of events, such as those of a day, credits minus debits and REVENUE minus COGS both equal the profits of the sales of those events: total less quantity times unit cost over the sale lines. |
| Statements.BookedRevenue | payments/services.py:72-77 | A BIF cart is booked, whenever and with whatever arguments it is confirmed and whatever prices become meanwhile, at quantity times unit price summed over its lines as priced at checkout, less a fraction of one franc; its lines are those of the request. |
| Statements.BookedAsFrozen | payments/services.py:219-239 | In any currency a sale is booked at the amount its payment had before confirmation, with the cart of that time, whatever amounts are passed to the confirmation. |
| Statements.SubscriptionOnce | subscriptions/services.py:64-101 | A subscription order has exactly one ACTIVE subscription once confirmed and none before, expiring 30 days per month of its offer after its start (one month at least); a business has at most one trial. |
| Statements.SubscriptionBooksNothing | sales/services.py:55-61 | Confirming a subscription order changes no sale, line, entry, movement, receipt or stock and runs no automation. |
| Outcomes.PurchaseActivates | subscriptions/services.py:82-101 | Whatever happens before and after its confirmation, a purchase ends with exactly one subscription: ACTIVE, of the offer bought, from the moment of confirmation for 30 days per month of the offer, one month at least. |
| Outcomes.SubscribeOutcome | payments/services.py:100-141 | Exactly when a purchase is accepted, and the payment it adds: the frozen offer and the whole francs of the given amount or else the final price. |
| Outcomes.RunGrowsSubscriptions | subscriptions/services.py:56-61 | No run removes or changes a subscription or the catalogue. |
| Outcomes.TrialOutcome | subscriptions/services.py:49-61 | A trial of three days exactly if the business has no trial or active subscription. |
| Outcomes.CheckoutOutcome | payments/services.py:50-81 | Exactly when a checkout is accepted, and the one pending payment it adds, with the cart and the amount of the request in any currency. |
| Outcomes.FreezesIff | payments/services.py:163-185 | The cart loop succeeds if and only if every line asks a positive quantity of an own product that has the stock for it. |
| Outcomes.CorrectionOutcome | products/movement_views.py:136-152 | A correction succeeds if and only if it is well-formed and stock plus quantity is not negative; that one stock becomes this sum, one row says so, and nothing else changes. |
| Outcomes.CorrectionRefused | products/movement_views.py:153-166 | A well-formed correction is refused as a stock conflict, every other refusal is an invalid request. |
| Requests.StripTrims | products/serializers.py:71-73 | The reason is kept without the white space at both ends and otherwise unchanged. |
| Outcomes.ProductOutcome | products/signals.py:23-37 | Exactly when a product is accepted, and the opening row of its log. |
| Outcomes.RuleOutcome | automation/services.py:25-36 | The default rule, field by field, is added exactly if the business has no rule for confirmed payments. |
| Outcomes.EditOutcome | automation/views.py:24-25 | An owner's rule is kept as it is; an edited product keeps its business and its stock. |
| Routes.CartConfirmationWrites | payments/services.py:219-248 | All tables after a first confirmation of a cart: event, payment, sale, lines, movements, stock, both entries and receipt, field by field. |
| Routes.PurchaseConfirmationWrites | payments/services.py:219-248 | All tables after a first confirmation of a subscription purchase. |
| Routes.OnrampSettles | payments/views.py:164-170 | An accepted code makes an own unlinked cart PAID, linked to the new event and sold once, if and only if the keys are new, the products own and the stock enough; otherwise nothing changes. |
| Routes.PollSettles | payments/views.py:62-69 | A confirmed answer does the same for an own pending cart. |
| Routes.WebhookSettles | payments/webhooks.py:73-80 | Each of the three paid words, in any case, does the same for the cart it names. |
| Routes.OnrampDecides | payments/views.py:138-168 | Which on-ramp requests confirm, and with which arguments; all others change nothing. |
| Routes.PollDecides | payments/views.py:47-76 | What each answer to a poll of an own pending payment does; an expired one writes Expired, a failed one Failed, and other polls change nothing. |
| Routes.WebhookDecides | payments/webhooks.py:67-92 | Which webhook calls confirm, and with which arguments; all others change nothing. |
| Routes.DuplicateReturnsSale | sales/services.py:63-69 | A duplicate event for a settled order is stored, returns the order's one sale, and changes nothing else. |
| Routes.OtherEventStored | ledger/signals.py:15-18 | An event that is no confirmed payment is stored and does nothing. |
| Routes.UnbackedEventRefused | sales/services.py:46-53 | A confirmed event without a payment of its business is stored and refused. |
| Routes.EventLeavesRow | ledger/signals.py:13-22 | An admitted event with a new key leaves its row and nothing else. |
| Refusals.ConfirmRefused | payments/services.py:213-217 | Which error stops the confirmation of an unknown order or an unlinked cart. |
| Refusals.FirstBadLine | payments/services.py:163-185 | The first line that is not accepted decides the error of a cart. |
| Refusals.CheckoutRefused | payments/services.py:50-58 | The errors of a checkout around its cart. |
| Refusals.OnlyStockFails | sales/services.py:84-88 | A cart of own products can fail for its stock only. |
| Statements.AutomationMatchesStock | automation/services.py:39-86 | Whatever rules the owners have made, a new sale fires every active stock rule of its business for confirmed payments once, newest first, down to one whose condition is no JSON object, if and only if some product of the cart ends below its positive threshold; each report lists exactly those products, once per cart line, with name, threshold and the stock left; the default rule is added if the business has none for confirmed payments. |
| Statements.DistinctCartIsCovered | payments/services.py:178-185 | The line-by-line check at checkout is enough for a cart that repeats no product. |
| Statements.RepeatedProductOverdraws | payments/services.py:163-195 | It is not enough otherwise: a cart that checkout accepts and whose total exceeds the stock. |
| Statements.CheckoutThenConfirm | payments/services.py:161-249 | A cart without repeated products that is confirmed before its stock moves is always booked. |
| Statements.StrayEventSellsTwice | sales/services.py:29-78 | After a stray event for an unlinked order, its confirmation sells the cart a second time. |
| Statements.StrayEventBooks | sales/services.py:63-78 | The stray event itself books a full sale and leaves the payment unlinked. |
| Statements.CheckoutInvitesStray | sales/services.py:46-70 | After every checkout of a cart without repeated products, a confirmed event that names the order is such an event. |
| Statements.StrayInstance | sales/services.py:72-112 | A reachable database with a cart of three and a stock of ten: after the stray event and the confirmation there are two sales and a stock of four. |
| Concurrency.Serialisable | payments/services.py:212-249 | In every interleaving of confirmations, stock corrections and late status writes that lock rows as the code does and may abort anywhere, the committed transactions succeed one at a time in commit order and give the committed tables; if every business with an unconfirmed cart has a rule for confirmed payments they give the whole committed database, rules and executions included. |
| Concurrency.SerialisableIffSeeded | automation/services.py:25-36 | For the orders of a business, every interleaving commits the whole database of a serial run if and only if the rule table has a rule of the business for confirmed payments. |
| Concurrency.TwoFirstSales | automation/services.py:29-36 | Without such a rule two concurrent first confirmations both insert the default rule, and no serial run of them does. |
| Concurrency.FirstCommitIsAlone | sales/services.py:150-158 | Whatever rules there are, the first transaction of an interleaving to commit leaves the whole database exactly as if it had run alone. |
| Concurrency.CommitIsAlone | automation/services.py:43-86 | A commit whose reads of the rule table still hold is exactly one serial execution on the whole database. |
| Interleaving.TablesSerialisable | payments/services.py:212-249 | The committed stock, payment and money tables of every interleaving are those of the committed transactions in commit order, whatever rules there are. |
| Concurrency.InterleavingIsReachable | products/movement_views.py:146-152 | The committed tables after any interleaving are those of some run of single requests, so every statement about reachable databases holds for them, and no event link is lost or changed. |
| Interleaving.InterleavingKeepsBooks | sales/services.py:82-101 | After any interleaving no stock update is lost (stock equals its log), PAID implies a link, and each order is booked once or not at all. |
| Concurrency.ConfirmationCommits | payments/services.py:212-249 | A confirmation that would succeed alone also commits as a transaction of single locked statements, and leaves the same whole database. |
| Concurrency.EverySerialRunInterleaves | payments/services.py:212-249 | Conversely, every serial run of confirmations, repeats, purchases, stock corrections and status writes is the outcome of some interleaving, with all locks free at its end. |
| Concurrency.ProgramCommits | products/movement_views.py:145-152 | Each program that succeeds alone also commits as a transaction of single statements, with the same effect. |
| Interleaving.SellLocal | sales/services.py:169-181 | The sale loop depends only on the product rows it locks. |
| Interleaving.SoldSoFarStays | sales/services.py:80-112 | What a transaction has sold so far stays valid when another one commits changes to rows outside its locks. |
| Interleaving.MergeIsAlone | sales/services.py:72-148 | Committing a finished transaction has exactly the effect of its program run alone at that moment. |
| Interleaving.StepsKeepInv | payments/services.py:212-217 | At every step of every interleaving each open transaction still knows exactly the rows it has locked, and the committed database satisfies the invariant. |
| Runs.RunKeepsInv | payments/services.py:198-249 | Every allowed run keeps the whole invariant: links, bookings, stock ledger, money, subscriptions. |
| Runs.ExecKeepsInv | sales/services.py:29-158 | Each single request keeps it. |
| Runs.EventBooksNothing | sales/services.py:35-70 | A duplicate confirmed event finds the order's own sale and books nothing, and no admitted event books. |
| Runs.EventSafeIff | sales/services.py:46-70 | The invariant survives an outside event if and only if the event is not a bookable one for an unlinked order. |
| Runs.StrayEventBreaksInv | sales/services.py:72-78 | Such a stray event always leaves a sale that no payment owns. |
| History.ReplayInsensitive | payments/services.py:212-217 | Any series of confirmation calls ends in the same database as the series without failed calls and without all calls after an order's first success. |
| History.RepeatReturnsFirst | payments/services.py:213-217 | Whatever happens after an order's first confirmation, a further call with any arguments returns that first event and changes nothing. |
| History.CountsIffFirst | payments/services.py:213-217 | The calls kept by that reduction are exactly those that change the database. |
| History.LinkedIffSucceeded | payments/services.py:233-234 | After any series of calls an order is linked if and only if it was before or one of its calls succeeded. |
| History.ExecKinds | payments/views.py:46-78 | Every request either books nothing and keeps every payment but for its status, or is the first confirmation of one order. |
| History.FirstConfirmShape | payments/services.py:219-249 | A first confirmation changes the payment of its own order only, and adds exactly one sale, or for a subscription none. |
| History.LinkIsForever | payments/services.py:233 | No run clears or changes an event link. |
| History.CartStaysFrozen | payments/services.py:186-193 | No run changes the lines of a payment, or the amounts of one that is unlinked, and its sale is booked at the amount it had before confirmation. |
| History.SerialPaidIffLinked | payments/views.py:51-76 | With one request at a time a payment is PAID exactly when it is linked, and PAID is never left. |
| History.LateWriteIff | payments/views.py:70-76 | A late failed or expired write keeps that equivalence if and only if the order is still unlinked. |
| History.LogOnlyGrows | products/movements.py:51-59 | No request removes or changes a movement row. |
| Preservation.ConfirmIsDirect | sales/services.py:35-70 | In a linked-up database the handler's guards and its search for a backing payment always arrive at the confirmed order's own payment. |
| Preservation.FreshEventBacking | sales/services.py:161-166 | The payment backing a newly stored event is the one of its own business that its reference names, and no other. |
| Preservation.ConfirmKeepsInv | payments/services.py:198-249 | Confirmation keeps the invariant. |
| Books.PostingReconciles | sales/services.py:114-129 | Posting a sale adds the same profit to the ledger side and to the sales side of the reconciliation. |
| Selling.GreedyIsAggregate | sales/services.py:80-101 | The loop that checks and moves stock line by line succeeds if and only if every product's total over all lines, repeats included, fits its starting stock. |
| Selling.SellExact | sales/services.py:80-112 | A successful loop lowers each stock by exactly that total, and leaves one line and one movement per cart line with the running stock, and quantity times unit cost summed over the cart. |
| Selling.SellIgnoresLineOrder | sales/services.py:80-112 | Success, final stock and cost are the same for every permutation of the lines. |
| Selling.SellKeepsLedger | sales/services.py:95-101 | The loop keeps stock table and movement log in step, for any quantities. |
| Selling.SellStopsAtError | sales/services.py:82-88 | The first failing line, at whatever position, decides the outcome of the loop. |
| Movements.MovementKeepsLedger | products/movements.py:76-93 | A movement and its stock change together keep every stock equal to its log and every qty_after a prefix sum. |
| Movements.LastRowShowsStock | products/models.py:77-83 | The qty_after of a product's latest row is its whole logged stock. |
| Checkout.FreezeLinesFrozen | payments/services.py:163-195 | Snapshot i of a frozen cart has the product and the quantity of request line i, the price and cost of that product, and a positive quantity covered by the stock; all products are of the business. |
| Checkout.RevenueBound | payments/models.py:79-87 | The stored amount of a BIF checkout is quantity times unit price, summed over its frozen lines, without the fraction of a franc. |
| Checkout.TotalIsSum | payments/services.py:162-195 | The total that the cart loop adds up is quantity times unit price over all lines. |
| Automation.LowItemsListed | automation/services.py:59-70 | The report of a sale has one entry for each line whose product is below its threshold, and no other entry. |
| Automation.FiredRules | automation/services.py:51-86 | With something to report, the rules newer than the newest failing one fire once each if they apply, newest first. |
| Automation.AllFireIff | automation/services.py:54-57 | Every applicable rule fires if and only if none of them is older than a rule of the business whose condition is no JSON object. |
| Confirmation.BackingPayment | sales/services.py:46-53 | Finds a payment of the event's business that is linked to it or named by it, and nothing only if there is none. |
| Journal.WriteKeepsSavepoints | sales/services.py:1-6 | A journalled row write leaves every open savepoint restorable to its saved state. |
| Journal.UndoKeepsSavepoints | sales/services.py:1-6 | Undoing the latest write leaves every older savepoint restorable. |
| Storage.Store.Rollback | sales/services.py:41 | Leaving an atomic block by an exception restores the exact database at its beginning and keeps the outer savepoints. |
| Storage.Store.Release | payments/services.py:212-217 | Leaving an atomic block normally keeps its writes; only the outermost exit gives up the undo journal. |
| StockService.ApplyStockMovement | products/movements.py:62-93 | Refuses without a reason or below zero and then changes nothing; otherwise changes the one stock and appends the one row. |
| StockService.RecordStockMovement | products/movements.py:37-59 | Appends one row of the given product, its business and the given values, with empty texts as absent, and touches no stock. |
| SaleService.SellOneLine | sales/services.py:81-112 | One pass of the loop on the current product row, with its three errors. |
| SaleService.SellLines | sales/services.py:80-112 | The loop computes the same stock, movements, lines and cost as the specification that GreedyIsAggregate and SellExact are about. |
| SaleService.RecordSaleRows | sales/services.py:72-148 | Sale, lines, movements, both ledger entries and the receipt for one payment. |
| SaleService.SettleEvent | sales/services.py:42-148 | The body of the atomic block: both idempotency guards, the subscription branch, then the sale. |
| SaleService.SettleAtomically | sales/services.py:41-148 | The block is all or nothing: an error at any line, after any earlier writes, leaves the exact former database. |
| SaleService.HandleFinancialEvent | sales/services.py:29-158 | The whole handler, followed by automation only for a sale it has just recorded. |
| SaleService.CollectLowStock | automation/services.py:59-70 | The inner loop gathers the report of the low lines. |
| SaleService.EnsureRule | automation/services.py:25-36 | Adds the default rule exactly if the business has none for the trigger. |
| SaleService.EvaluateRules | automation/services.py:50-86 | The rule loop adds one execution per applicable rule with a non-empty report, and a failing rule ends it with what it has added. |
| SaleService.RunAutomationForEvent | automation/services.py:39-86 | Rules and executions after the step; stock and money tables are untouched. |
| PaymentService.CreateFinancialEvent | ledger/signals.py:9-22 | Inserting a confirmed payment event runs the handler once; the row stays when the handler fails outside a transaction. |
| PaymentService.ConfirmPayment | payments/services.py:198-249 | The whole chain, or the first event again, or an error with the exact former database. |
| PaymentService.LinkPayment | payments/services.py:219-249 | Event first, with the sale booked at the stored amount; link, status and passed amounts after. |
| PaymentService.SavePaymentRow | subscriptions/signals.py:16-24 | Saving a payment activates a subscription exactly if it is a PAID subscription purchase. |
| PaymentService.ActivateFromPayment | subscriptions/services.py:64-101 | Refuses other payments; inserts one subscription, or returns the existing one and inserts nothing. |
| PaymentService.FindOffer | subscriptions/services.py:83-88 | The loop stops at the first line that names an offer. |
| PaymentService.ResolveCartLines | payments/services.py:161-195 | The loop freezes every line and adds up the cart, or stops at the first bad line. |
| PaymentService.CreateCheckoutPayment | payments/services.py:42-81 | One pending, unlinked payment with the frozen cart, or an error and no change. |
| PaymentService.CreateSubscriptionPayment | payments/services.py:84-141 | One pending, unlinked subscription purchase with the frozen offer, or an error and no change. |
| Endpoints.CreateProductRow | products/signals.py:23-37 | A product enters together with the opening movement of its stock, if it has any. |
| Endpoints.PostStockChange | products/movement_views.py:136-175 | An adjustment or restock on the locked row, with its refusals, returning the appended movement. |
| Endpoints.GrantTrial | subscriptions/services.py:40-61 | A new three-day trial for a business without a trial or active subscription; any other business gets back its latest such subscription and nothing is inserted. |
| Requests.LatestCurrent | subscriptions/services.py:50-54 | Finds a trial or active subscription of the business that was started last, and nothing only if there is none. |
| Endpoints.PostRule | automation/views.py:24-25 | An owner's rule is inserted as it is. |
| Endpoints.RecordInitialStock | products/signals.py:23-37 | The opening movement is appended exactly if the new product has stock. |
| Endpoints.PollPaymentStatus | payments/views.py:46-78 | The rail is asked only for a PENDING payment; its answer confirms, fails or expires it, or changes nothing. |
| Endpoints.PostOnrampConfirm | payments/views.py:134-170 | A PAID payment is returned as it is; otherwise an accepted code confirms the order. |
| Endpoints.PostWebhook | payments/webhooks.py:56-92 | Paid states confirm the order and return its event; all others are acknowledged without any change. |
| Pagination.KeysetTraversal | products/movement_views.py:93-112 | Whatever rows are inserted between page reads, following the cursor to its end yields every row of the first read with the business, product and type asked for exactly once, nothing twice, nothing else, by strictly falling creation time and key. |
| Pagination.FixedTable | products/movement_views.py:101-112 | On a fixed table the walk ends after exactly the given number of requests and its pages add up to the whole filtered, sorted list. |
| Pagination.RequestsIsCeiling | products/movement_views.py:105-110 | That number is 1 or the least r with n <= r * limit, for n matching rows. |
| Pagination.ListingIsExact | products/models.py:107-108 | The listing holds exactly the rows that match and lie below the cursor, strictly descending by creation time and key. |
| Pagination.ListingWritten | products/movement_views.py:82-91 | The listing without a cursor holds exactly the rows with the business, product and type asked for, by strictly falling creation time and key. |
| Pagination.PageIsPrefix | products/movement_views.py:105-110 | A page is the first part of the listing, and a next cursor appears exactly when rows are left, all of them below it. |
| Pagination.NextListing | products/movement_views.py:96-104 | The listing after a next cursor is the rest of the listing before it. |
| Pagination.WalkMeets | products/movement_views.py:93-112 | No row of the first read is skipped by the walk. |
| Pagination.WalkDescends | products/movement_views.py:93-112 | Pages read from different table states still join into one strictly descending list. |
| Cursor.CursorRoundTrip | products/movement_views.py:203-232 | Decoding an encoded cursor gives back the row's timestamp and key. |
| Cursor.CursorWritten | products/movement_views.py:206-207 | A cursor is padded base64url of the ISO timestamp, a bar and the key. |
| Cursor.IsoWritten | products/movement_views.py:206 | The ISO timestamp, position by position. |
| Cursor.SplitAtLast | products/movement_views.py:219-220 | Splitting at the last separator recovers both parts because the key has no separator. |
| Cursor.IsoRoundTrip | products/movement_views.py:206-227 | Reading a printed timestamp gives it back, with and without microseconds. |
| Barcode.RoundTrip | products/services.py:90-104 | Parsing a generated barcode gives the first 24 characters of the name, the price text and the id, for every name without surrogates. |
| Barcode.BarcodeWritten | products/services.py:31-41 | A barcode is "F." and base64url of the object with the members n, p and i, in letters, digits, '-' and '_' only, whatever the name holds. |
| Barcode.ParseRefuses | products/services.py:92-104 | What parses has the prefix and an identifier. |
| Barcode.UuidWritten | products/services.py:35 | An identifier is printed as its lower-case hexadecimal digits in groups of 8, 4, 4, 4 and 12. |
| Barcode.BarcodesDiffer | products/services.py:29-41 | Products with different ids never share a generated barcode. |
| Barcode.Length | products/models.py:37-42 | A barcode of m payload bytes has 2 + ceil(4m/3) characters, its unpadded body is never 1 modulo 4, and it fits the column if and only if m is at most 94. |
| Barcode.WideNameOverflows | products/services.py:19-41 | A 24-character name whose barcode exceeds the 128-character column. |
| Barcode.PayloadSize | products/services.py:31-39 | The payload has 58 bytes besides the escaped, shortened name and the price. |
| Base64.RoundTrip | products/services.py:96-97 | Decoding undoes encoding, also when stripped padding is rebuilt from the length alone. |
| Base64.GroupWritten | products/services.py:40 | Four letters hold the bits of three bytes, highest first, in the alphabet of RFC 4648 section 5. |
| Base64.PaddingWritten | products/services.py:96 | Padding is the fewest '=' that make the length a multiple of four. |
| Base64.EncodeLength | products/services.py:40 | n bytes give ceil(4n/3) characters without padding. |
| Utf8.RoundTrip | products/services.py:40 | Decoding undoes encoding for every string. |
| Utf8.CharWritten | products/services.py:40 | The byte patterns of RFC 3629 section 3 for each range of characters. |
| Json.RoundTrip | products/services.py:31-39 | Reading a printed object of strings gives its members back, whatever characters they hold. |
| Json.EscapeWritten | products/services.py:31-39 | What RFC 8259 section 7 escapes, and how; nothing else is escaped. |

## Left out

- Transport and people: accounts, tokens, permissions, serializer wording, admin pages, URLs, the payment rail clients and the barcode images.
- Columns that nothing in the chain reads: cashier, payment request text, phone, metadata, settlement currency, row creation times outside the movement ledger.
- Direct database or admin writes to stock, status or rows, and deletions: they bypass the services.
- Database limits: 32-bit and 64-bit columns, decimal digits beyond hundredths and the 28-digit decimal context.
- Prices and costs are whole hundredths as the columns store them, so the final rounding in `cogs` changes nothing and is not modelled.
- `has_business_feature` and everything else that only reads subscriptions; no code moves a subscription to expired or cancelled.
- Offers are a fixed catalogue and their final price is an input in hundredths.
- Snapshots whose fields are missing or not numbers: only the services write them, and they write cart lines or one offer.
- Receipt lines and low-stock lists are bags: the code lists them by random line key.
- Calendar texts of other systems: the webhook's confirmed_at is already a time or absent; `request` bodies are already parsed.
- The gross margin, the day's boundaries and the warning and alert lists of the dashboard.
- Statements.DashboardAgrees: sums over events, so it gives a day's figures when no sale has its two entries on different sides of midnight; amounts of different currencies are added as the code adds them.
- Concurrency.Serialisable: the interleaved transactions are confirmations, stock corrections and late status writes; checkouts, trials, product creation and owners' rule creation are not run beside them. A statement that raises, waits in a deadlock or meets a taken key can only be followed by the transaction's abort.
- Statements.SubscriptionOnce: requests run one at a time; trials are not among the interleaved transactions.
- Statements.BookedRevenue: is about BIF carts; for other currencies the rail's satoshi amount is booked, or 0 without one. No claim is made that the amount of the event equals the revenue: the webhook passes no amount.
- Pagination.KeysetTraversal: the page size is any positive number; the request parameter's range of 1 to 200 and its default of 50 are instances. Keys are integers; the order-preserving map from stored timestamps to them is not modelled.
- Cursor.CursorRoundTrip: the reader accepts the printed form of a UTC timestamp only, not every text that Python's `fromisoformat` takes.
- Barcode.RoundTrip: the parser covers flat objects of strings without surrogate escapes and plain or dashed identifiers; other texts that Python's readers accept are refused.
