# Cart, order and payment core of the flower shop API

This project models the part of the FastAPI flower shop that keeps orders, order lines and payments consistent. That part covers:

- the customer's cart ("carrito"): get-or-create, appending a line at the discounted price, removing a line;
- the payment provider's webhook, which approves a payment and completes its order;
- payment creation and verification against the provider;
- the order-detail view and its access rule;
- the administrator's sales statistics.

The tables live in `Storage.Store`, a class holding them as sequences in insertion order, so `.first()` is the first matching row. Every mutating handler is a module-level method that takes the store as its `db` argument, as the route functions take their session. Each method is proved to leave the store equal to a specification function over the table values, such as `Orders.AddStep`, `Webhooks.WebhookStep` or `Payments.VerifyStep`. It is also proved to keep the store's integrity invariant `Models.TablesValid`:

- keys are unique and below the next id;
- every line references an existing order and arrangement;
- every payment references an existing order, and an order has at most one payment;
- transaction ids are unique when present;
- each user has at most one cart.

The lemmas about the handlers are stated on those specification functions.

Money is `real` and time is an integer number of seconds. The following are function-valued parameters:

- HMAC-SHA256 and the UTF-8 / JSON decoding of the webhook body;
- Python's `float()` applied to text;
- the payment-link gateway and the provider's transaction lookup.

The files:

- `common.dfy`: `Option` and the `max(0, x)` clamp.
- `json.dfy`: JSON values with Python truthiness, `in`, `float()` and `str.lower()`.
- `models.dfy`: the records, their defaults, lookups and the integrity invariant.
- `store.dfy`: the store class.
- `schemas.dfy`: the pydantic order schemas.
- One file per route module: `orders.dfy`, `webhooks.dfy`, `payment.dfy`, `order_details.dfy` and `stats.dfy`.

## Model

| member | source | states |
|---|---|---|
| Common.ClampAtZero | app/routes/orders.py:93 | `max(0, x)` is non-negative, at least `x`, and either `x` or 0 |
| Json.In | app/routes/webhooks.py:40-41 | Python's `key in body`: key membership for an object, element membership for a list, substring for a string; any other value is not a container (TypeError) |
| Json.Float | app/routes/webhooks.py:73 | `float()` returns a number unchanged and fails on null, lists and objects |
| Json.Lower | app/routes/webhooks.py:79 | `str.lower()` keeps the length and lower-cases each character |
| Models.NewOrder | app/models/models.py:48-60 | a new order is in state "carrito", with no guest fields and no reference, and with the given owner, total and date |
| Models.NewPayment | app/models/models.py:81-90 | a new payment is "pendiente", with no transaction id, dated now |
| Models.NewDetail | app/models/models.py:68-76 | a new line carries its order, arrangement, quantity and price, with discount 0.0 |
| Models.NewArrangement | app/models/models.py:32-43 | a new arrangement is available, with stock 10 and discount 0 |
| Models.NewUser | app/models/models.py:13-15 | a new user's delivery direction defaults to "N/A" |
| Models.FirstIndex | app/routes/orders.py:23-25 | `.first()`: the index of the first row that matches, or none matches |
| Models.Filter | app/routes/orders.py:45-48 | `.all()` of a filtered query: exactly the rows that satisfy the condition, never more rows than the table; a one-row table gives that row or nothing |
| Models.FilterConcat | app/routes/orders.py:45-48 | filtering distributes over concatenation, so the result keeps table order and multiplicity |
| Models.CartIndex | app/routes/orders.py:23-25 | the first order of the user in state "carrito", or no such order |
| Models.PaymentOfOrder | app/models/models.py:65 | `order.payment`: the first payment of the order, or none |
| Models.PaymentByTransaction | app/routes/webhooks.py:58-60 | the first payment whose transaction id equals the text, or none has it |
| Models.LinesOf | app/routes/orders_details.py:35 | exactly the lines of the order |
| Models.OrderIndex | app/routes/orders_details.py:25 | the order with the id, or none has it |
| Models.ArrangementIndex | app/routes/orders.py:60 | the arrangement with the id, or none has it |
| Models.UserIndex | app/models/models.py:63 | the user with the id, or none has it |
| Integrity.OrdersKeptShapeValid | app/models/models.py:48-65 | changing orders without changing their ids, owners or cart status keeps the integrity invariant |
| Integrity.PaymentsKeptShapeValid | app/models/models.py:84-89 | changing payments without changing their ids, orders or transaction ids keeps the invariant |
| Integrity.AppendDetailValid | app/models/models.py:71-74 | appending a line with a fresh id, a positive quantity, an existing order and an existing arrangement keeps the invariant |
| OrderSchemas.ValidateDetail | app/schemas/s_orders.py:19-25 | a line item is accepted iff `arrangements_id > 0` and `details_quantity > 0`; otherwise it gets 422; the price is optional |
| OrderSchemas.ValidateDetails | app/schemas/s_orders.py:56 | a list is accepted iff every item is, item by item |
| OrderSchemas.NewOrderBase | app/schemas/s_orders.py:5-7 | state defaults to "carrito"; the owner is optional |
| OrderSchemas.ValidateDetailResponse | app/schemas/s_orders.py:27-33 | a response line needs a price, besides the positive id and quantity |
| OrderSchemas.ValidateGuestOrder | app/schemas/s_orders.py:51-57 | a guest order is accepted iff name, email, phone, address, pay method and a valid item list are all given |
| Orders.FinalPrice | app/routes/orders.py:36-38 | discount 0 gives the price, discount 100 gives 0, and a discount in [0, 100] on a non-negative price lands in [0, price] |
| Orders.CartStep | app/routes/orders.py:21-34 | afterwards the user has a cart, and the returned id is its id |
| Orders.CartStepEffect | app/routes/orders.py:21-34 | an existing cart is returned and nothing changes; otherwise exactly one empty cart with total 0 is appended under the next id |
| Orders.CartStepIdempotent | app/routes/orders.py:21-34 | a second call returns the same cart and changes nothing |
| Orders.CartStepPreservesValid | app/routes/orders.py:28-32 | creating the cart keeps the integrity invariant |
| Orders.CartStepSingleCart | app/routes/orders.py:21-34 | afterwards every cart of the user is the returned one |
| Orders.GetOrCreateCart | app/routes/orders.py:21-34 | the method leaves the store and the reply as `CartStep` says, and keeps the invariant |
| Orders.GetUserOrders | app/routes/orders.py:45-48 | exactly the caller's orders whose state is not "carrito" |
| Orders.GetUserCart | app/routes/orders.py:51-56 | after get-or-create, the count of the cart's lines |
| Orders.SyncAmount | app/routes/orders.py:75-77 | the order's payment, if any, gets the amount; no other payment or field changes |
| Orders.SyncAmountKeepsPayment | app/routes/orders.py:75-77 | syncing does not move which payment belongs to the order |
| Orders.AddToCart | app/routes/orders.py:58-81 | the method leaves the store and the reply as `AddStep` says, and keeps the invariant |
| Orders.AddUnknownArrangement | app/routes/orders.py:60-62 | an unknown arrangement gets 404 before any cart or line is created |
| Orders.AddStep | app/routes/orders.py:58-81 | 404 iff the arrangement is unknown, then nothing changes; otherwise the appended line carries the requested arrangement and quantity; users and arrangements never change |
| Orders.AddAppendsOneLine | app/routes/orders.py:64-73 | exactly one line is appended with the requested quantity and the discounted price; earlier lines are untouched; the arrangement's line count and the cart's count each grow by one (no merge) |
| Orders.AddLeavesTotalStale | app/routes/orders.py:75-77 | orders are not updated; the payment gets the cart's old total |
| Orders.AddPreservesValid | app/routes/orders.py:58-81 | adding a line keeps the integrity invariant |
| Orders.LineAmount | app/routes/orders.py:93 | price times quantity: 0 for quantity 0, non-negative for non-negative operands |
| Orders.DetailInCart | app/routes/orders.py:86-88 | the first line with that id in the cart, or none is |
| Orders.RemoveStep | app/routes/orders.py:83-100 | 404 iff the line is not in the (possibly new) cart, leaving only that cart; otherwise exactly one line fewer; users and arrangements never change |
| Orders.RemoveFromCart | app/routes/orders.py:83-100 | the method leaves the store and the reply as `RemoveStep` says, and keeps the invariant |
| Orders.RemoveNotInCart | app/routes/orders.py:85-91 | a line not in the cart gets 404 and deletes nothing, but a cart may have been created |
| Orders.RemoveClampsTotal | app/routes/orders.py:93-96 | the cart total becomes `max(0, total - price*quantity)` and the payment gets the same amount; other orders are unchanged |
| Orders.RemoveDeletesOnlyThatLine | app/routes/orders.py:98 | exactly that line is gone; every other line remains |
| Orders.RemovePreservesValid | app/routes/orders.py:83-100 | removing keeps the integrity invariant |
| Orders.DeleteDetailValid | app/routes/orders.py:98 | deleting a line row keeps the integrity invariant |
| Webhooks.VerifySignature | app/routes/webhooks.py:110-136 | true iff the header is present and non-empty and equals the hex HMAC of the raw body under the fixed secret |
| Webhooks.FirstMissing | app/routes/webhooks.py:39-44 | all present iff every field is `in` the body; otherwise the first field that is absent, or a TypeError when the body is no container |
| Webhooks.CheckRequiredFields | app/routes/webhooks.py:39-44 | the loop finds what `FirstMissing` specifies |
| Webhooks.PaymentByReference | app/routes/webhooks.py:49-60 | a text reference finds the first payment with that transaction id, or none has it; a null reference finds the first payment without one, or every payment has one; other values find none |
| Webhooks.DecideFields | app/routes/webhooks.py:49-82 | once every field is present: an approval carries the body's `IdTransaccion`; 400 only for an amount mismatch or an unapproved result; any other refusal is the 500 of an unexpected exception |
| Webhooks.Decide | app/routes/webhooks.py:22-82 | anything but a refusal implies a decoded body, a valid signature and every field present; refusals are 400 exactly for the named reasons and 500 otherwise |
| Webhooks.Commit | app/routes/webhooks.py:84-108 | the commit fails iff the order is missing, the id cannot be stored, or another payment already has it; a failure is 500 and changes nothing; a success approves the payment with that id |
| Webhooks.WebhookStep | app/routes/webhooks.py:20-108 | anything but "success" leaves the tables unchanged; refusals are 400 exactly for the named reasons; users, arrangements and lines never change, nor the number of payments and orders |
| Webhooks.Examine | app/routes/webhooks.py:22-82 | the check pipeline decides as `Decide` specifies |
| Webhooks.ColumnText | app/routes/webhooks.py:88 | only text or null can be stored in the transaction-id column |
| Webhooks.Approved | app/routes/webhooks.py:87-91 | the payment becomes "aprobado" with the new transaction id, and its order becomes "completado" |
| Webhooks.AsWrittenReply | app/routes/webhooks.py:62-97 | rejections keep their status and reason; a missing payment gives "error"; an approval gives "success" |
| Webhooks.WompiWebhookAsWritten | app/routes/webhooks.py:20-108 | the handler as written answers from the checks alone and changes nothing |
| Webhooks.WompiWebhook | app/routes/webhooks.py:20-108 | the committing handler leaves the store and the reply as `WebhookStep` says, and keeps the invariant |
| Webhooks.WebhookPreservesValid | app/routes/webhooks.py:84-93 | the webhook keeps the integrity invariant; a duplicate transaction id is refused with 500 |
| Webhooks.ApprovedValid | app/models/models.py:89 | approving with an unused transaction id keeps transaction ids unique |
| Webhooks.RejectsInvalidJson | app/routes/webhooks.py:22-102 | a body that is not JSON gets 400 and changes nothing |
| Webhooks.UnsignedRejected | app/routes/webhooks.py:33-36 | a bad or missing signature gets 400 before any field is read; any approval or lookup implies a valid signature |
| Webhooks.FirstMissingFieldRejected | app/routes/webhooks.py:39-44 | the first missing field in the fixed order gets 400 naming it, and nothing changes |
| Webhooks.UnknownReferenceChangesNothing | app/routes/webhooks.py:57-65 | a reference no payment carries gives "error" with no HTTP error and no change |
| Webhooks.ApprovalRequiresChecks | app/routes/webhooks.py:33-82 | approval implies a valid signature, all fields present, the payment found by reference, an exactly equal amount, and a lower-cased result in the vocabulary |
| Webhooks.ResultOutsideVocabularyRejected | app/routes/webhooks.py:79-82 | a result outside {"exitosaaprobada", "aprobada"} after lower-casing is never approved and changes nothing; once the signature, fields, payment and amount pass, it gets 400 |
| Webhooks.AmountMismatchRejected | app/routes/webhooks.py:72-76 | a signed, complete notification whose amount differs from the payment it finds gets 400 and changes nothing |
| Webhooks.SuccessChangesThreeFields | app/routes/webhooks.py:87-91 | on success exactly the payment's state and transaction id and its order's state change |
| Webhooks.ReplayFindsNothing | app/routes/webhooks.py:58-88 | when the transaction id differs from the reference, a replay no longer finds the payment and changes nothing |
| Webhooks.ReplayIdempotent | app/routes/webhooks.py:58-88 | when the transaction id equals the reference, a replay succeeds and leaves the store as it is |
| Webhooks.ReplayDecidesAlike | app/routes/webhooks.py:58-88 | after such a commit the same checks approve the same payment |
| Webhooks.ApprovalNotPersisted | app/routes/webhooks.py:93 | whenever the committing handler approves a pending payment, the handler as written gives the same "success" yet leaves it "pendiente" |
| Payments.Reference | app/routes/payment.py:30 | the reference has 19 characters: "ORD-", 8 digits, "-", then the first 6 hex characters of the uuid |
| Payments.ReferenceRoundTrip | app/routes/payment.py:30 | parsing a reference gives back the date and the 6 hex characters |
| Payments.ReferenceInjective | app/routes/payment.py:30 | equal references come from the same date and hex prefix |
| Payments.ValueOfDigits | app/routes/payment.py:30 | a zero-padded decimal field reads back as its number |
| Payments.AmountCheck | app/routes/payment.py:26-27 | None iff the amount is a positive number or `true`; 400 iff it is falsy or a non-positive number; other types raise (500) |
| Payments.CreateRejectsBadAmount | app/routes/payment.py:26-27 | a missing, falsy, zero or negative amount gets 400 whatever the gateway would do |
| Payments.CreatedLink | app/routes/payment.py:26-43 | a created link implies a valid amount, an email, and the gateway's URL for that reference |
| Payments.CreatePayment | app/routes/payment.py:20-46 | a link implies a present, valid amount and an email; 400 iff the amount check says 400; every other failure is 500 |
| Payments.CreateGatewayFailure | app/routes/payment.py:44-46 | a gateway failure gets 500 |
| Payments.StatusMap | app/routes/payment.py:77-85 | identity on the three statuses, VOIDED and ERROR to DECLINED, anything else hashable to PENDING; unhashable values raise |
| Payments.StatusMapIdempotent | app/routes/payment.py:77-85 | mapping a mapped status again changes nothing |
| Payments.OrderByReference | app/routes/payment.py:56 | the first order with that reference, or none has it |
| Payments.Summary | app/routes/payment.py:94-99 | the order's id and date, and its payment's amount and method, or 0 and "N/A" |
| Payments.Estado | app/routes/payment.py:76-85 | the `estado` key of a JSON object body, or failure |
| Payments.SetPaymentState | app/routes/payment.py:88-90 | only the order's payment, if any, gets the state; nothing else changes |
| Payments.VerifyOutcome | app/routes/payment.py:54-115 | given the answer to a lookup without 200: only payments change, nothing changes unless the payment is verified, and every other failure is 500 |
| Payments.VerifyStep | app/routes/payment.py:54-115 | as written, every failure is 500 and changes nothing, and only payments ever change |
| Payments.VerifyStepIntended | app/routes/payment.py:69-74 | corrected: a failure changes nothing, and only a 400 "PENDING" answer is not a 500 |
| Payments.VerifyPayment | app/routes/payment.py:48-115 | the method leaves the store and the reply as `VerifyStep` says, and keeps the invariant |
| Payments.VerifyPreservesValid | app/routes/payment.py:88-90 | verification keeps the integrity invariant |
| Payments.VerifyUnknownReference | app/routes/payment.py:54-115 | an unknown reference surfaces as 500, not 404, and changes nothing |
| Payments.VerifyUnconfirmed | app/routes/payment.py:69-74 | as written a non-200 lookup gets 500, where the corrected handler answers 400 with "PENDING"; neither changes anything |
| Payments.VerifyIntendedAgrees | app/routes/payment.py:54-115 | the corrected handler differs from the one as written only on a non-200 lookup |
| Payments.VerifyUpdatesOnlyState | app/routes/payment.py:85-100 | a confirmed lookup sets only the payment's state to one of the three statuses, and the answer carries it |
| Payments.VerifyReadOnly | app/routes/payment.py:103-111 | without a transaction id nothing changes; the answer gives the stored state or "PENDING", the amount or 0, the method or "N/A" |
| OrderDetails.OwnerValue | app/models/models.py:51 | the owner column is an integer or None, never text |
| OrderDetails.AccessAsWritten | app/routes/orders_details.py:30-32 | as written, access is granted iff the role is "Administrador" or "Cliente" |
| OrderDetails.Access | app/routes/orders_details.py:30-32 | corrected: access iff a bypass role, or the caller owns the order |
| OrderDetails.OwnerDeniedAsWritten | app/routes/orders_details.py:31 | the owner calling as "Empleado" is refused as written and admitted when corrected |
| OrderDetails.ArrangementsFor | app/routes/orders_details.py:41-50 | one entry per line, in order, with the line's quantity, price and discount; fails iff some line's arrangement is missing |
| OrderDetails.BuildArrangements | app/routes/orders_details.py:41-50 | the append loop builds what `ArrangementsFor` specifies |
| OrderDetails.ArrangementsForPrefix | app/routes/orders_details.py:41-50 | a missing arrangement anywhere fails the whole list |
| OrderDetails.DeliveryAddress | app/routes/orders_details.py:57 | a non-empty guest address, otherwise the owner's direction |
| OrderDetails.Assemble | app/routes/orders_details.py:53-62 | the view carries the order's id, state and date, the address, the entries, and the payment's values or "N/A", "N/A", 0.0 |
| OrderDetails.OrderDetailsAsWritten | app/routes/orders_details.py:18-62 | never the view: 404 iff the order is unknown, 403 iff it is known and the role check as written fails |
| OrderDetails.OrderDetails | app/routes/orders_details.py:18-62 | corrected: 404 iff the order is unknown, 403 iff the corrected access rule fails, and a view only of that order to a caller with access |
| OrderDetails.GetUserOrderDetails | app/routes/orders_details.py:18-62 | the handler as written gives 404, 403 or 500, never the view |
| OrderDetails.GetUserOrderDetailsFixed | app/routes/orders_details.py:18-62 | the corrected handler computes what `OrderDetails` specifies |
| OrderDetails.UnknownOrderNotFound | app/routes/orders_details.py:25-27 | an unknown order id gets 404 |
| OrderDetails.NeverShownAsWritten | app/routes/orders_details.py:53-62 | as written, a known order gets 500 for the bypass roles and 403 for any other role |
| OrderDetails.BypassRolesNotForbidden | app/routes/orders_details.py:30 | "Administrador" and "Cliente" never get 403 |
| OrderDetails.OtherRolesOwnOrdersOnly | app/routes/orders_details.py:30-32 | corrected: other roles get 403 iff the order is not theirs |
| OrderDetails.ShownView | app/routes/orders_details.py:41-62 | the view lists each line of the order with its values; without a payment it shows "N/A", "N/A", 0.0 |
| Stats.SalesSince | app/routes/stats.py:24 | exactly the "completado" payments dated at or after the start |
| Stats.Total | app/routes/stats.py:25 | the sum is non-negative when every amount is, and a single payment's sum is its amount |
| Stats.SalesFor | app/routes/stats.py:18-36 | non-administrators get 401; otherwise the count and the sum of the window's payments |
| Stats.WeekSales | app/routes/stats.py:18-26 | non-administrators get 401; otherwise the count and sum of "completado" payments of the last 7 days |
| Stats.MonthSales | app/routes/stats.py:28-36 | non-administrators get 401; otherwise the count and sum of "completado" payments of the last 30 days |
| Stats.CancelledOrders | app/routes/stats.py:38-48 | non-administrators get 401; otherwise the number of "cancelado" orders older than one hour |
| Stats.OnlyAdministrators | app/routes/stats.py:18-41 | any role but exactly "Administrador" gets 401 on all three endpoints |
| Stats.WeekWithinMonth | app/routes/stats.py:23-36 | every payment counted for the week is counted for the month; the week's count and (for non-negative amounts) total are no larger |
| Stats.TotalStronger | app/routes/stats.py:25 | the sum over a later window is no larger, for non-negative amounts |
| Stats.Boundaries | app/routes/stats.py:23-47 | a payment exactly 7 days old counts; an order cancelled exactly 1 hour ago does not |
| Stats.OnlyCompletedCounted | app/routes/stats.py:24-34 | only "completado" payments are counted |
| Stats.ApprovalNotCounted | app/routes/stats.py:24 | a webhook approval ("aprobado") changes no sales window |

## Left out

- HTTP, the payment gateway and the provider's lookup, UTF-8 and JSON decoding, HMAC-SHA256 and `float()` on text are parameters. The handler is proved for every behaviour they might have.
- `app/services/wompi.py` is not part of this model. It does not define `create_payment_link` or `create_token`, so importing `app/routes/payment.py` would fail; the model treats both as given gateway parameters.
- Logging and `print` are not modelled, except that `logger.error` in `app/routes/payment.py` raises (see Findings).
- Requests are modelled one at a time. Two concurrent `get_or_create_cart` calls could create two carts; the model does not capture this.
- Database sessions are not modelled. Each handler is one atomic update of the store. The session's autoflush is off, so the webhook as written persists nothing (see Findings).
- Floats are modelled as exact reals. IEEE rounding, NaN and infinities are not modelled.
- Dates are integer seconds and never NULL. `datetime.now()` (local time) and `datetime.utcnow()` are both the `now` parameter.
- Payments.Reference: only years 1000 to 9999 are modelled, so `%Y` is always four digits. The uuid is a 32-character hex parameter.
- Payments.AmountCheck: comparing a text, list or object amount with 0 raises TypeError, which FastAPI answers with 500. The model gives `CreateFailed(500)` for these.
- Payments.CreatePayment: nothing is stored, as in the source, whose save step is only a comment.
- Models.Arrangement: `arr_discount` (app/models/models.py:43) and the line's `discount` (app/models/models.py:76) are nullable columns, but the model gives them non-NULL values. A NULL `arr_discount` makes `calculate_final_price` raise TypeError, which FastAPI answers with 500; that path is not modelled.
- Models.Order: `total` (`order_total`) and `reference` are not columns of `Order`. `Order(order_total=0)` raises TypeError, and `Order.reference` raises AttributeError. The model treats both as fields, so these latent errors are not modelled.
- Webhooks.PaymentByReference: a reference that is neither text nor null matches no payment. The model does not cover how the database would compare such a value.
- Webhooks.WompiWebhook: an `IdTransaccion` that is neither text nor null cannot be stored in the column. The committing version answers 500 for it.
- Json.Lower: lower-cases ASCII letters only, with no Unicode case mapping.
- OrderSchemas.ValidateDetails: reports only that the list is refused, not each error pydantic would list.
- Orders.AddToCart: the cart total is never updated when a line is added (`AddLeavesTotalStale`). The model keeps this, as the source does.
- Stats: payments approved by the webhook are "aprobado", never "completado", so they never reach the sales figures (`ApprovalNotCounted`).
- OrderDetails: the default role in `User` is lower-case "cliente", which does not match the bypass role "Cliente"; the model keeps the exact comparison.
- The signing secret is the placeholder literal of the source.
- Authentication plumbing, the other routes, the remaining schemas and external services are not part of this model.

## Findings

| source | as written | input that shows it | evidently intended | confidence | as-written member | corrected member |
|---|---|---|---|---|---|---|
| app/routes/webhooks.py:93 | `db.commit()` is commented out and the session does not autoflush, so the approval is never written | any signed notification with a matching reference, equal amount and result "aprobada" for a "pendiente" payment | the payment becomes "aprobado" and its order "completado" | not executed | Webhooks.WompiWebhookAsWritten, Webhooks.ApprovalNotPersisted | Webhooks.WompiWebhook |
| app/routes/orders_details.py:53-62 | the response never sets `order_comments`, which the response model requires, so validation fails and FastAPI answers 500 | any request for an existing order by an "Administrador" | the detail view is returned | not executed | OrderDetails.GetUserOrderDetails, OrderDetails.NeverShownAsWritten | OrderDetails.GetUserOrderDetailsFixed |
| app/routes/orders_details.py:30-32 | the integer owner id is compared with the token's `sub`, which the token layer always makes text, so they never match | order owned by user 7, caller id 7 with role "Empleado" and sub "7" | owners may see their own orders | not executed | OrderDetails.AccessAsWritten, OrderDetails.OwnerDeniedAsWritten | OrderDetails.Access |
| app/routes/payment.py:69-74 | `logger` is the module `fastapi.logger` (imported on line 1), which has no `error`, so `logger.error` raises AttributeError; the `except` at line 113 calls `logger.error` again and raises, so FastAPI answers 500 | a known reference with a non-empty transaction id whose lookup answers 404 | the 400 answer with status "PENDING" | not executed | Payments.VerifyStep, Payments.VerifyUnconfirmed | Payments.VerifyStepIntended |
