# RentEase back end: a Dafny model of order, payment, message and car handling

RentEase is a car-rental back end. Customers book a seller's car for a date
range, and the order then moves through PENDING, CONFIRMED, ONGOING and
COMPLETED, or is CANCELLED. Online payments go through the Midtrans
gateway. A Snap transaction is created for each online order, and the order's
payment status is reconciled from three sources:

- two push-notification webhooks;
- a status lookup when an order is read or confirmed;
- an explicit payment check.

Users exchange messages, either about an order or directly. Sellers list,
update and delete their cars.

This project models these handlers over an in-memory database.
`Store.Database` is a class holding four maps: orders, cars, messages and
users, each keyed by id. Each handler is a method that checks the request in
the same order as the controller, answers with a `Store.Failure` kind (each
kind carries its HTTP status) or a result, and writes the maps.

Every write is proved to preserve the database invariant `Store.Consistent`:

- no car is held by two active orders with overlapping dates;
- every active order's car exists;
- license plates are unique.

The gateway is a function parameter. `Midtrans.StatusApi` maps the id the
client queries to the HTTP reply. `Midtrans.SnapApi` maps the request body to
the reply. This makes it visible which key each handler asks the gateway
about.

Modules and files:

- `common.dfy`: `Wrappers` (`Option`, `Result`) and `Strings`. `Strings` holds JavaScript truthiness, prefix and substring tests, `String.prototype.replace` with a string pattern, and `trim`.
- `midtrans.dfy`: `Midtrans`, the gateway client (`src/utils/midtrans.js`).
- `store.dfy`: `Store`, the records, error kinds, invariant and database.
- `order_rules.dfy`: `OrderRules`, the pure decisions of `src/controllers/order.js`. These are the transition table, admission checks, pricing, confirm gate, webhook mapping and webhook search key.
- `orders.dfy`: `Orders`, the order handlers.
- `payments.dfy`: `Payments`, `src/controllers/payment.js`.
- `messages.dfy`: `Messages`, `src/controllers/message.js`.
- `cars.dfy`: `Cars`, `src/controllers/car.js`.

Encoding choices:

- A JavaScript value that may be missing is an `Option`.
- A string is falsy when it is `None` or `Some("")`. A number is falsy when it is `None` or `Some(0)`.
- Instants are integer milliseconds, and the current time `now` is a parameter.
- Ids the database generates are parameters that must be fresh.

Behaviour of the code worth knowing, which the model keeps:

- A booking from 10:00 one day to 02:00 the next, 16 hours, costs one day, because `Math.ceil` works on milliseconds, not on calendar days (`OrderRules.PriceExamples`).
- On COMPLETED the car is marked available unconditionally, even when another active order holds it.
- The order webhook finds its order by substring containment of the stripped id, not by equality (`OrderRules.WebhookKeyMatchesLongerIds`).

## Model

| member | source | states |
|---|---|---|
| Strings.ReplaceFirst | src/controllers/order.js:467 | when the pattern occurs, the result is the string with its first occurrence, wherever it is, replaced; a string without it is returned unchanged |
| Strings.ReplaceFirstOfPrefix | src/controllers/order.js:467 | replacing a prefix by "" drops exactly that prefix |
| Strings.TrimEmptyIffBlank | src/controllers/message.js:11 | `trim()` gives "" exactly when every character is whitespace |
| Midtrans.FormatOrderId | src/utils/midtrans.js:27-31 | the result always carries the prefix; an unprefixed id gets it once; a prefixed id is returned as is |
| Midtrans.FormatOrderIdIdempotent | src/utils/midtrans.js:27-31 | formatting twice is formatting once |
| Midtrans.FormatOrderIdAbsorbsPrefix | src/utils/midtrans.js:27-31 | an id and the same id already prefixed format to the same gateway id |
| Midtrans.FormatOrderIdKeepsInnerPrefix | src/utils/midtrans.js:29 | for every id, an id carrying the prefix twice is left as it is: the anchored pattern removes one leading prefix only |
| Midtrans.GetTransactionStatus | src/utils/midtrans.js:34-94 | the gateway is asked about the formatted id; success exactly on a 200 (its body) or a 404 (the `not_found` sentinel) |
| Midtrans.StatusOutcome | src/utils/midtrans.js:53-93 | success exactly on HTTP 200 (the body) or 404 (the `not_found` sentinel); any other reply, or none, is an error |
| Midtrans.StatusLookupIgnoresPrefix | src/utils/midtrans.js:37 | looking up an id or its formatted form queries the same transaction |
| Midtrans.SnapRequestFor | src/utils/midtrans.js:100-124 | formatted order id; gross amount = amount; one item of quantity 1 priced at the gross amount; defaults "Customer", "", "", "1", "Order Payment"; secure card |
| Midtrans.CreationOutcome | src/utils/midtrans.js:148-171 | success exactly on 200/201; status "pending", the formatted id, token and redirect url defaulting to "" |
| Midtrans.CreateTransaction | src/utils/midtrans.js:97-173 | success exactly when the gateway answers the built request with 200 or 201; the payment is "pending", carries the formatted id, and its token and redirect url default to "" |
| Midtrans.CreatedTransactionIsLookedUpByItsId | src/utils/midtrans.js:100-156 | a created transaction reports the id its request carried, and a status lookup of the same order queries that id |
| Store.ParseStatus | src/controllers/order.js:303-313 | a request string is accepted exactly when it names one of the five statuses, and then yields that status |
| Store.Failure.HttpStatus | src/controllers/order.js:20-62 | every error kind is a 4xx or 5xx; 500 exactly for gateway and server errors |
| OrderRules.ValidateStatusTransition | src/controllers/order.js:440-452 | an accepted transition names two statuses and changes the status; COMPLETED and CANCELLED accept nothing |
| OrderRules.TransitionTableMatchesLifecycle | src/controllers/order.js:442-451 | the table accepts a step exactly when it is one step forward or a cancellation from PENDING, CONFIRMED or ONGOING |
| OrderRules.UnknownStatusNeverTransitions | src/controllers/order.js:451 | a name that is not a status (either end) yields false |
| OrderRules.TransitionsMoveForward | src/controllers/order.js:442-448 | every allowed step strictly increases the lifecycle rank, so there are no self-transitions or cycles |
| OrderRules.NoReactivation | src/controllers/order.js:442-448 | a step into an active status starts from an active status |
| OrderRules.RentalDays | src/controllers/order.js:66 | the day count is the ceiling of the duration in days, and at least 1 for a positive duration |
| OrderRules.TotalPrice | src/controllers/order.js:66-67 | for a non-negative daily price, never less than the booked time prorated, and less than one day's price more than it |
| OrderRules.TotalPriceAtLeastOneDay | src/controllers/order.js:66-67 | a non-negative daily price is charged at least once |
| OrderRules.PriceExamples | src/controllers/order.js:66-67 | 25 hours at 100 cost 200; 3 days cost 300; 16 hours cost one day |
| OrderRules.CheckNewOrder | src/controllers/order.js:19-63 | 400 for a start before now or an end not after the start; then 404 for a missing car; then refusal for an unavailable car or an overlapping active order; admission exactly otherwise |
| OrderRules.HasConflict | src/controllers/order.js:46-59 | there is no conflict exactly when every active order for the car ends before the requested start or starts after the requested end |
| OrderRules.TouchingRangesConflict | src/controllers/order.js:50-55 | an active order ending at the instant the new one starts blocks it (both bounds inclusive) |
| OrderRules.FinishedOrdersNeverBlock | src/controllers/order.js:49 | a completed or cancelled order is never the blocking one |
| OrderRules.AdmittedOrderKeepsNoDoubleBooking | src/controllers/order.js:46-80 | inserting an order that passed the conflict check keeps every car free of overlapping active orders |
| OrderRules.RewriteKeepsNoDoubleBooking | src/controllers/order.js:103-123 | rewriting an order without moving its dates or reactivating it keeps the no-double-booking invariant |
| OrderRules.AdmittedOrderKeepsConsistent | src/controllers/order.js:70-80 | inserting an admitted order keeps the whole database invariant |
| OrderRules.RewriteKeepsConsistent | src/controllers/order.js:422-426 | rewriting payment fields or advancing an order keeps the database invariant |
| OrderRules.AvailabilityFlipKeepsConsistent | src/controllers/order.js:407-419 | flipping a car's availability keeps the database invariant |
| OrderRules.CheckStatusChange | src/controllers/order.js:297-344 | 403 for a non-party; 400 for an unknown status or a step the table refuses; only the seller moves an order forward and only the customer cancels a pending order, and a step the table allows fails only with 403; success exactly when all hold |
| OrderRules.CustomerCanOnlyCancel | src/controllers/order.js:326-333 | a customer who is not the seller can only cancel |
| OrderRules.SellerCannotCancelPending | src/controllers/order.js:336-344 | a seller who is not the customer cannot cancel a pending order |
| OrderRules.ConfirmGate | src/controllers/order.js:354-403 | mark paid exactly on a settled payment with fraud accepted or absent; go on for `not_found` or a failed lookup outside production; refuse any other status, and a failed lookup in production |
| OrderRules.UnknownTransactionNeverBlocks | src/controllers/order.js:376-382 | a gateway that does not know the order never blocks its confirmation |
| OrderRules.WebhookUpdate | src/controllers/order.js:481-504 | PAID exactly on capture/settlement with fraud accepted or absent; FAILED exactly on cancel/deny/expire otherwise; nothing else is written |
| OrderRules.WebhookIdempotent | src/controllers/order.js:481-504 | delivering a notification twice equals delivering it once |
| OrderRules.WebhookIgnoresUnknownStatus | src/controllers/order.js:481-504 | any transaction status other than capture, settlement, cancel, deny and expire leaves the payment status, PAID included |
| OrderRules.AfterRefresh | src/controllers/order.js:254-267 | the read paths only ever upgrade to PAID, and do so exactly on capture/settlement with fraud status "accept" |
| OrderRules.RefreshPaidImpliesWebhookPaid | src/controllers/order.js:254-257 | whatever the read paths accept as paid, the webhook accepts too |
| OrderRules.AbsentFraudStatusSplitsThePaths | src/controllers/order.js:363-364 | a settlement without a fraud status is paid for the webhook and the confirm gate, but not for the read paths |
| OrderRules.WebhookKey | src/controllers/order.js:467 | an id without the prefix is its own key; a leading prefix is dropped; otherwise one occurrence is removed |
| OrderRules.WebhookKeyFindsFormattedOrder | src/controllers/order.js:464-470 | the notification for an order's formatted id finds that order |
| OrderRules.WebhookKeyMatchesLongerIds | src/controllers/order.js:467 | the key for order "12" is also contained in order "123" |
| OrderRules.WebhookKeyStripsInnerPrefix | src/controllers/order.js:467 | the key removes a prefix that is not leading too: "xORDER-1" gives "x1" |
| OrderRules.BarePrefixMatchesEveryOrder | src/controllers/order.js:467 | a bare prefix gives the empty key, which every order id contains |
| Orders.OrderPaymentData | src/controllers/order.js:91-98 | the payment request carries the order id, the total, the customer's name and email, the phone defaulting to "08123456789", and the "Car rental: brand model (plate)" description |
| Orders.PaymentAttempt | src/controllers/order.js:86-113 | a payment exists exactly when the customer is known and the gateway accepts the request built from the order, and it is the gateway's payment, with the formatted order id |
| Orders.CreateOrder | src/controllers/order.js:10-135 | answers exactly as the admission checks say; the new order is PENDING/UNPAID for the caller and the car's owner at the computed price; token and url are stored only when the gateway returned a payment; the invariant is preserved |
| Orders.InsertOrder | src/controllers/order.js:70-80 | writes the admitted order alone and keeps the invariant |
| Orders.AttachPayment | src/controllers/order.js:81-124 | stores the payment's token and url, or rewrites PENDING/UNPAID when there is no payment; the invariant is kept |
| Orders.RefreshedPaymentStatus | src/controllers/order.js:243-272 | the refreshed status differs only by becoming PAID, exactly for an online order the gateway reports settled with fraud "accept" |
| Orders.GetOrderById | src/controllers/order.js:195-279 | 404, 403; a party's read of an existing order always succeeds, with the order and its refreshed payment status, which is also stored |
| Orders.GateFor | src/controllers/order.js:347-353 | the gateway is consulted only when confirming an unpaid online order |
| Orders.UpdateOrderStatus | src/controllers/order.js:282-437 | 404 or the status-change check's error with nothing written; otherwise the gate, the car flip and the status write as `StatusChangeApplied` says; under the invariant it is kept and no server error arises |
| Orders.ChangeStatus | src/controllers/order.js:346-426 | a refused confirmation changes nothing; a confirmed or completed order flips its car's availability; the order gets its new status |
| Orders.HandlePaymentWebhook | src/controllers/order.js:455-511 | 500 without an id; 404 exactly when no order id contains the key; otherwise it acknowledges, and some order whose id contains the key gets the webhook's payment status |
| Orders.CheckPaymentStatus | src/controllers/order.js:514-575 | 404, 403, 400 for offline orders, 500 on lookup failure; a successful lookup always succeeds, and the refreshed status is stored and returned with the gateway's report |
| Payments.GetPaymentDetails | src/controllers/payment.js:7-67 | 404, 403, 400 with the url when there is no token; once these gates pass, exactly one of: the gateway's report for the token with the url attached when truthy (iff the lookup succeeds), 400 with the url (iff it fails and the url is truthy), 500 |
| Payments.DetailsLookUpTheToken | src/controllers/payment.js:39-41 | a gateway that knows the order's transaction answers `not_found` for its token |
| Payments.GetPaymentDetailsByOrderId | src/controllers/payment.js:7-67 | same gates and the same three answers once they pass, each an iff over the lookup of the order's own id |
| Payments.NotificationPaymentStatus | src/controllers/payment.js:87-107 | PAID exactly on capture/settlement or status "paid"; REFUNDED exactly on refund when neither paid nor cancelled matched; never FAILED; UNPAID otherwise |
| Payments.AfterNotification | src/controllers/payment.js:75-113 | only the target order changes, and only its payment status |
| Payments.HandlePaymentNotification | src/controllers/payment.js:70-121 | 500 without an id; 404 for an unknown id with nothing written; otherwise the mapped status is written; the invariant is kept |
| Payments.NotificationIdempotent | src/controllers/payment.js:86-113 | delivering a notification twice equals delivering it once |
| Payments.UnrecognisedNotificationUnpays | src/controllers/payment.js:87 | an unrecognised notification turns a PAID order UNPAID |
| Payments.NotificationVersusOrderWebhook | src/controllers/payment.js:87-107 | compared with the order webhook: its PAID implies this PAID; cancel is UNPAID here and FAILED there; capture with fraud "deny" is PAID here and unchanged there; refund is REFUNDED here and unchanged there |
| Payments.FormattedNotificationMissesOrder | src/controllers/payment.js:75-84 | with unprefixed order ids, a notification carrying a formatted id finds no order and writes nothing |
| Payments.StrippedNotificationTarget | src/controllers/payment.js:75-80 | the corrected target is a stored order whose id is the notification's id with or without the prefix |
| Payments.StrippedTargetFindsFormattedOrder | src/controllers/payment.js:75-80 | the corrected lookup finds every unprefixed order from its formatted id |
| Messages.BlankContentIsWhitespace | src/controllers/message.js:11-15 | content is refused exactly when absent or made of whitespace alone |
| Messages.ReceiverFor | src/controllers/message.js:33-41 | the explicit receiver when truthy, else the other party of the order, never the caller when the parties differ |
| Messages.SendMessage | src/controllers/message.js:6-110 | 400 for blank content; about an order: 404, 403, 500 for an unknown receiver, else an unread message to the chosen receiver; direct: 404 for an unknown receiver; 400 with neither; only a success inserts |
| Messages.Insert | src/controllers/message.js:37-43 | writes the new message alone |
| Messages.Step | src/controllers/message.js:181-207 | one step adds the partner's entry and changes no other entry |
| Messages.AddMessage | src/controllers/message.js:182-207 | the loop body performs one grouping step |
| Messages.GetConversations | src/controllers/message.js:153-215 | the loop's dictionary is the grouping of the message list |
| Messages.FirstWith | src/controllers/message.js:191-199 | the first message with the partner, or none |
| Messages.GroupEntries | src/controllers/message.js:179-210 | exactly one entry per partner, keyed by the partner, with the order id of the first message with that partner |
| Messages.GroupKeepsLatest | src/controllers/message.js:200-203 | an entry's last message is with that partner, and no message with the partner is newer |
| Messages.NewestFirstKeepsFirstMessage | src/controllers/message.js:175-207 | with the newest-first order, an entry keeps the first message seen and counts at most that one as unread |
| Messages.CountUnread | src/controllers/message.js:197-205 | the reference count of unread messages from a partner that `Messages.GroupCountingCountsUnread` is proved against; it never exceeds the list length |
| Messages.UnreadCountBounded | src/controllers/message.js:197-205 | an entry's unread count never exceeds the real number of unread messages |
| Messages.UnreadCountUndercounts | src/controllers/message.js:175-207 | two unread messages, newest first, report an unread count of 1 |
| Messages.CountingStep | src/controllers/message.js:181-207 | the corrected step adds the partner's entry and changes no other entry |
| Messages.GroupCountingCountsUnread | src/controllers/message.js:179-210 | the corrected grouping has the same entries, last messages and order ids, and counts every unread message |
| Messages.UnreadCountIsZero | src/controllers/message.js:197-205 | without an entry there is nothing unread from that partner |
| Messages.MarkedRead | src/controllers/message.js:243-249 | exactly the listed messages received by the caller become read; nothing else changes |
| Messages.MarkMessagesAsRead | src/controllers/message.js:218-256 | 400 for a missing or empty list; 403 with nothing written when a listed message is someone else's; otherwise the targeted update |
| Messages.MarkedReadIdempotent | src/controllers/message.js:243-249 | every listed existing message ends up read, and repeating the call changes nothing |
| Cars.BuildCarFilter | src/controllers/car.js:11-19 | a brand filter exactly for a truthy brand; availability only for exactly "true"; a car matches exactly under those two conditions |
| Cars.Listing | src/controllers/car.js:11-34 | with no filter every car is listed, unavailable ones included; an availability filter lists no unavailable car; a brand filter lists only that brand; exactly the matching cars are listed |
| Cars.CompleteMeansNothingMissing | src/controllers/car.js:115-122 | no error is recorded exactly when all six required fields are truthy |
| Cars.MissingAmongSelects | src/controllers/car.js:115-120 | the checks record exactly the missing fields, in order |
| Cars.RequiredFieldErrors | src/controllers/car.js:114-122 | one error per missing field among name, brand, model, year, licensePlate and price, in that order; none exactly when complete |
| Cars.MissingAmongRequiredFields | src/controllers/car.js:115-120 | the errors are the six checks performed one after the other |
| Cars.ValidateCarInput | src/controllers/car.js:114-120 | the errors object is the list of missing required fields; empty exactly when complete |
| Cars.AddCarKeepsConsistent | src/controllers/car.js:130-142 | adding a car with a new plate keeps the invariant |
| Cars.CreateCar | src/controllers/car.js:102-155 | 400 for a missing field; 500 for a registered plate; otherwise an available car owned by the caller; the invariant is kept |
| Cars.Patched | src/controllers/car.js:203-216 | each of the nine fields takes the given value and keeps the stored one when absent; the owner never changes; an empty patch changes nothing |
| Cars.RewriteCarKeepsConsistent | src/controllers/car.js:203-216 | rewriting a car to a plate no other car has keeps the invariant |
| Cars.UpdateCar | src/controllers/car.js:158-226 | 404, 403; 400 when a truthy new plate is registered; 500 when the patched plate still collides; otherwise the patched car is stored; the invariant is kept |
| Cars.ChangedPlateIsCheckedFirst | src/controllers/car.js:190-200 | a truthy changed plate that collides is caught by the plate check |
| Cars.SamePlateNeverCollides | src/controllers/car.js:190-216 | keeping the plate never collides in a consistent database |
| Cars.EmptyPlateSkipsTheCheck | src/controllers/car.js:190 | an empty plate skips the check and can still collide |
| Cars.RemoveCarKeepsConsistent | src/controllers/car.js:250-268 | removing a car no active order holds keeps the invariant |
| Cars.DeleteCar | src/controllers/car.js:229-275 | 404, 403, 400 while an active order holds the car; otherwise the car alone is removed; the invariant is kept |

## Left out

- HTTP and Express wiring (`src/index.js`, `src/routes/*.js`): requests and responses become parameters and results, and status codes survive only as `Store.Failure` kinds. Both webhooks are reachable without authentication, and `checkPaymentStatus` is not reachable through any route. The model states neither.
- Prisma projections (`include`, `select`), the related records and partner names they add, and `orderBy`. The listing and the conversation list are sets and maps, so their order is not modelled. The message list handed to `Messages.GetConversations` stands for the query result; its newest-first order appears as the `Messages.NewestFirst` hypothesis where it matters.
- `getOrderMessages`, `getCustomerOrders`, `getSellerOrders`, `getMyCars` and `getCarById` are single queries with gates and no logic beyond them. The user controller (`src/controllers/user.js`) is not part of this model: password hashing is foreign code and the profile update passes data through.
- The network, the Basic-auth header, base URLs and the 10-second timeout of the gateway client. A timeout or connection failure is the `NoReply` reply.
- Clock and date parsing: instants are integer milliseconds and `now` is a parameter. `NODE_ENV` is the `production` parameter.
- Floating-point prices and amounts, `parseInt` and `Number` conversions: amounts are integers.
- Concurrency, including the check-then-insert race in `createOrder`: handlers run one at a time.
- Console logging.
- Foreign keys other than a message's receiver, and any cascade rules for deleting a car that completed orders still reference. The database schema is not part of this model.
- `paymentMethod` values outside the four methods: the request value is a `Store.PaymentMethod`.
- The seller-role middleware in front of the car routes.
- Orders.HandlePaymentWebhook: returns which order matched, as any order whose id contains the key, because the database's choice among several matches is not specified.
- Cars.UpdateCar: a patch field is either absent or a value of the field's type. Explicit `null` and wrongly typed values, which the database would reject, are not modelled.
- Messages.SendMessage: content that is not a string (which makes `trim` throw) is not modelled.

## Findings

| source | as written | input that shows it | evidently intended | confidence | as-written member | corrected member |
|---|---|---|---|---|---|---|
| src/controllers/message.js:200-206 | a known partner's unread count grows only when a message is strictly newer than the entry's last one, but the query delivers messages newest first | two unread messages from user b to user a, created at 2 and 1: the entry reports 1 unread | the count of unread messages the caller received from the partner | high; not executed | Messages.UnreadCountUndercounts | Messages.GroupCountingCountsUnread |
| src/controllers/payment.js:75-80 | the notification's `order_id` is looked up as an order id exactly, but the client registers transactions under `ORDER-` plus the order id | order "abc" paid through the gateway: the notification carries "ORDER-abc" and the handler answers 404 | strip the prefix, as `formatOrderId` adds it, before the lookup | medium; not executed | Payments.FormattedNotificationMissesOrder | Payments.StrippedTargetFindsFormattedOrder |
| src/controllers/payment.js:39-41 | the gateway is asked about `order.paymentToken`, which the client formats as if it were an order id | order "o1" with token "tok", whose transaction the gateway knows as "ORDER-o1": the details request asks for "ORDER-tok" and gets `not_found` | ask about the order's own id, as the other handlers do | medium; not executed | Payments.DetailsLookUpTheToken | Payments.GetPaymentDetailsByOrderId |
