/** The decisions of the order controller that do not touch the database:
    the status transition table, the admission checks and price of a new
    order, the role checks on a status change, and the two ways a gateway
    status is turned into a payment status. */
module OrderRules {
  import opened Wrappers
  import opened Strings
  import opened Store
  import Midtrans

  // ---------------------------------------------------------------------
  // Status transitions
  // ---------------------------------------------------------------------

  /** The `validTransitions` table: successors by status name; a name that
      is not a status has no entry. */
  function TransitionTable(current: string): Option<seq<string>> {
    if current == "PENDING" then Some(["CONFIRMED", "CANCELLED"])
    else if current == "CONFIRMED" then Some(["ONGOING", "CANCELLED"])
    else if current == "ONGOING" then Some(["COMPLETED", "CANCELLED"])
    else if current == "COMPLETED" then Some([])
    else if current == "CANCELLED" then Some([])
    else None
  }

  /** `validateStatusTransition`. */
  function ValidateStatusTransition(current: string, next: string): (r: bool)
    ensures r ==> ParseStatus(current).Some? && ParseStatus(next).Some?
    ensures r ==> current != next
    ensures current == "COMPLETED" || current == "CANCELLED" ==> !r
  {
    match TransitionTable(current)
    case None => false
    case Some(successors) => next in successors
  }

  /** The lifecycle the table encodes: each non-terminal status has one
      step forward, and any non-terminal status may be cancelled. */
  function Forward(s: OrderStatus): Option<OrderStatus> {
    match s
    case Pending => Some(Confirmed)
    case Confirmed => Some(Ongoing)
    case Ongoing => Some(Completed)
    case _ => None
  }

  predicate Allowed(from: OrderStatus, to: OrderStatus) {
    from.IsActive() && (to == Cancelled || Forward(from) == Some(to))
  }

  /** The table allows exactly the lifecycle's steps. */
  lemma TransitionTableMatchesLifecycle(from: OrderStatus, to: OrderStatus)
    ensures ValidateStatusTransition(from.Name(), to.Name()) <==> Allowed(from, to)
  {
  }

  /** A name that is not a status has no successors and no predecessors. */
  lemma UnknownStatusNeverTransitions(current: string, next: string)
    requires ParseStatus(current).None? || ParseStatus(next).None?
    ensures !ValidateStatusTransition(current, next)
  {
  }

  /** Position of a status along the lifecycle. */
  function Rank(s: OrderStatus): nat {
    match s
    case Pending => 0
    case Confirmed => 1
    case Ongoing => 2
    case Completed => 3
    case Cancelled => 4
  }

  /** Every allowed step moves strictly forward: no self-transitions and
      no cycles. */
  lemma TransitionsMoveForward(from: OrderStatus, to: OrderStatus)
    requires Allowed(from, to)
    ensures Rank(from) < Rank(to)
  {
  }

  /** An order that has left the active statuses never returns to them. */
  lemma NoReactivation(from: OrderStatus, to: OrderStatus)
    requires Allowed(from, to) && to.IsActive()
    ensures from.IsActive()
  {
  }

  // ---------------------------------------------------------------------
  // Creating an order
  // ---------------------------------------------------------------------

  const DayMs: int := 1000 * 60 * 60 * 24

  /** `Math.ceil((end - start) / DayMs)`, on whole milliseconds. */
  function RentalDays(start: int, end: int): (days: int)
    ensures (days - 1) * DayMs < end - start <= days * DayMs
    ensures start < end ==> days >= 1
  {
    (end - start + DayMs - 1) / DayMs
  }

  /** The price of a booking: whole days, so never less than the time
      actually booked, and less than one day more than it. */
  function TotalPrice(dailyPrice: int, start: int, end: int): (price: int)
    ensures dailyPrice >= 0 ==> price * DayMs >= dailyPrice * (end - start)
    ensures dailyPrice > 0 ==> price * DayMs < dailyPrice * (end - start) + dailyPrice * DayMs
  {
    var days := RentalDays(start, end);
    ScaleBounds(dailyPrice, days, end - start);
    dailyPrice * days
  }

  /** Scaling `(days - 1) * DayMs < span <= days * DayMs` by a price. */
  lemma ScaleBounds(dailyPrice: int, days: int, span: int)
    requires (days - 1) * DayMs < span <= days * DayMs
    ensures dailyPrice >= 0 ==> dailyPrice * days * DayMs >= dailyPrice * span
    ensures dailyPrice > 0 ==> dailyPrice * days * DayMs < dailyPrice * span + dailyPrice * DayMs
  {
    if dailyPrice > 0 {
      assert dailyPrice * (days * DayMs - span) >= 0;
      assert dailyPrice * (span - (days - 1) * DayMs) > 0;
    }
  }

  /** A rental is never charged less than one day. */
  lemma TotalPriceAtLeastOneDay(dailyPrice: int, start: int, end: int)
    requires dailyPrice >= 0 && start < end
    ensures TotalPrice(dailyPrice, start, end) >= dailyPrice
  {
    var days := RentalDays(start, end);
    assert dailyPrice * days == dailyPrice + dailyPrice * (days - 1);
  }

  /** Partial days are charged as whole ones: 25 hours at 100 a day is 200,
      three days is 300, and 16 hours is a single day. */
  lemma PriceExamples()
    ensures TotalPrice(100, 0, 25 * 60 * 60 * 1000) == 200
    ensures TotalPrice(100, DayMs, 4 * DayMs) == 300
    ensures RentalDays(10 * 60 * 60 * 1000, 26 * 60 * 60 * 1000) == 1
  {
  }

  /** An existing order blocks a request for the same car when it is active
      and its dates overlap the requested ones, both ends inclusive. */
  predicate Blocks(o: Order, carId: string, start: int, end: int) {
    o.carId == carId && o.status.IsActive() && RangesOverlap(o.startDate, o.endDate, start, end)
  }

  /** The conflict query of `createOrder`: a PENDING, CONFIRMED or ONGOING
      order for the car that starts no later than the requested end and
      ends no earlier than the requested start. */
  predicate HasConflict(orders: map<string, Order>, carId: string, start: int, end: int): (b: bool)
    ensures !b <==> forall id :: id in orders && orders[id].carId == carId && orders[id].status.IsActive() ==>
                                  orders[id].endDate < start || orders[id].startDate > end
  {
    exists id :: id in orders && Blocks(orders[id], carId, start, end)
  }

  /** The checks `createOrder` makes, in order, before it writes anything:
      the dates, the car's existence, its availability flag, and the
      conflicting bookings. `None` means the order may be created. */
  function CheckNewOrder(orders: map<string, Order>, cars: map<string, Car>,
                         carId: string, start: int, end: int, now: int): (r: Option<Failure>)
    ensures r == Some(ValidationError) <==> start < now || end <= start
    ensures r == Some(NotFound) <==> now <= start < end && carId !in cars
    ensures r == Some(Conflict) <==> now <= start < end && carId in cars
                                     && (!cars[carId].isAvailable || HasConflict(orders, carId, start, end))
    ensures r.None? <==> now <= start < end && carId in cars && cars[carId].isAvailable
                         && !HasConflict(orders, carId, start, end)
  {
    if start < now then Some(ValidationError)
    else if end <= start then Some(ValidationError)
    else if carId !in cars then Some(NotFound)
    else if !cars[carId].isAvailable then Some(Conflict)
    else if HasConflict(orders, carId, start, end) then Some(Conflict)
    else None
  }

  /** Back-to-back bookings collide: an order ending at the instant another
      starts blocks it. */
  lemma TouchingRangesConflict(orders: map<string, Order>, id: string, start: int, end: int)
    requires id in orders && orders[id].status.IsActive() && orders[id].endDate == start && start <= end
    requires orders[id].startDate <= orders[id].endDate
    ensures HasConflict(orders, orders[id].carId, start, end)
  {
    assert Blocks(orders[id], orders[id].carId, start, end);
  }

  /** Completed and cancelled orders never block a booking. */
  lemma FinishedOrdersNeverBlock(orders: map<string, Order>, id: string, carId: string, start: int, end: int)
    requires id in orders && !orders[id].status.IsActive()
    requires HasConflict(orders, carId, start, end)
    ensures HasConflict(orders - {id}, carId, start, end)
  {
    var other :| other in orders && Blocks(orders[other], carId, start, end);
    assert other != id;
    assert other in orders - {id};
  }

  /** Inserting an admitted order keeps every car free of overlapping
      active bookings. */
  lemma {:induction false} AdmittedOrderKeepsNoDoubleBooking(orders: map<string, Order>, id: string, o: Order)
    requires NoDoubleBooking(orders) && id !in orders
    requires !HasConflict(orders, o.carId, o.startDate, o.endDate)
    ensures NoDoubleBooking(orders[id := o])
  {
    var after := orders[id := o];
    forall a, b | a in after && b in after && a != b
      && after[a].carId == after[b].carId
      && after[a].status.IsActive() && after[b].status.IsActive()
      ensures !RangesOverlap(after[a].startDate, after[a].endDate, after[b].startDate, after[b].endDate)
    {
      if a == id {
        assert !Blocks(orders[b], o.carId, o.startDate, o.endDate);
      } else if b == id {
        assert !Blocks(orders[a], o.carId, o.startDate, o.endDate);
      }
    }
  }

  /** Rewriting one order without moving its car or dates, and without
      making it active again, keeps every car free of overlapping bookings. */
  lemma {:induction false} RewriteKeepsNoDoubleBooking(orders: map<string, Order>, id: string, o: Order)
    requires NoDoubleBooking(orders) && id in orders
    requires o.carId == orders[id].carId && o.startDate == orders[id].startDate && o.endDate == orders[id].endDate
    requires o.status.IsActive() ==> orders[id].status.IsActive()
    ensures NoDoubleBooking(orders[id := o])
  {
    var after := orders[id := o];
    forall a, b | a in after && b in after && a != b
      && after[a].carId == after[b].carId
      && after[a].status.IsActive() && after[b].status.IsActive()
      ensures !RangesOverlap(after[a].startDate, after[a].endDate, after[b].startDate, after[b].endDate)
    {
      assert orders[a].status.IsActive() && orders[b].status.IsActive();
    }
  }

  /** The database invariant survives inserting an admitted order. */
  lemma AdmittedOrderKeepsConsistent(orders: map<string, Order>, cars: map<string, Car>, id: string, o: Order)
    requires Consistent(orders, cars) && id !in orders && o.carId in cars
    requires !HasConflict(orders, o.carId, o.startDate, o.endDate)
    ensures Consistent(orders[id := o], cars)
  {
    AdmittedOrderKeepsNoDoubleBooking(orders, id, o);
  }

  /** The database invariant survives rewriting an order's payment fields or
      moving it along an allowed step. */
  lemma RewriteKeepsConsistent(orders: map<string, Order>, cars: map<string, Car>, id: string, o: Order)
    requires Consistent(orders, cars) && id in orders
    requires o.carId == orders[id].carId && o.startDate == orders[id].startDate && o.endDate == orders[id].endDate
    requires o.status.IsActive() ==> orders[id].status.IsActive()
    ensures Consistent(orders[id := o], cars)
  {
    RewriteKeepsNoDoubleBooking(orders, id, o);
  }

  /** The database invariant survives flipping a car's availability flag. */
  lemma AvailabilityFlipKeepsConsistent(orders: map<string, Order>, cars: map<string, Car>, carId: string, available: bool)
    requires Consistent(orders, cars) && carId in cars
    ensures Consistent(orders, cars[carId := cars[carId].(isAvailable := available)])
  {
    var after := cars[carId := cars[carId].(isAvailable := available)];
    assert forall c :: c in after ==> after[c].licensePlate == cars[c].licensePlate;
  }

  // ---------------------------------------------------------------------
  // Changing an order's status
  // ---------------------------------------------------------------------

  /** The checks `updateOrderStatus` makes once the order is found: the
      caller is a party, the requested status exists, the table allows the
      step, only the seller moves an order forward, and only the customer
      cancels a pending order. */
  function CheckStatusChange(order: Order, caller: string, requested: string): (r: Result<OrderStatus, Failure>)
    ensures !order.IsParty(caller) ==> r == Failure(Forbidden)
    ensures order.IsParty(caller) && ParseStatus(requested).None? ==> r == Failure(ValidationError)
    ensures order.IsParty(caller) && ParseStatus(requested).Some? && !Allowed(order.status, ParseStatus(requested).value)
            ==> r == Failure(InvalidTransition)
    ensures r.Success? ==> ParseStatus(requested) == Some(r.value) && Allowed(order.status, r.value)
    ensures r.Success? && r.value != Cancelled ==> caller == order.sellerId
    ensures r.Success? && r.value == Cancelled && order.status == Pending ==> caller == order.customerId
    ensures order.IsParty(caller) && ParseStatus(requested).Some? && Allowed(order.status, ParseStatus(requested).value) && r.Failure?
            ==> r == Failure(Forbidden)
    ensures r.Success? <==> order.IsParty(caller) && ParseStatus(requested).Some?
                            && Allowed(order.status, ParseStatus(requested).value)
                            && (ParseStatus(requested).value != Cancelled ==> caller == order.sellerId)
                            && (ParseStatus(requested).value == Cancelled && order.status == Pending ==> caller == order.customerId)
  {
    if !order.IsParty(caller) then Failure(Forbidden)
    else match ParseStatus(requested)
      case None => Failure(ValidationError)
      case Some(next) =>
        TransitionTableMatchesLifecycle(order.status, next);
        if !ValidateStatusTransition(order.status.Name(), requested) then Failure(InvalidTransition)
        else if (next == Confirmed || next == Ongoing || next == Completed) && caller != order.sellerId then Failure(Forbidden)
        else if next == Cancelled && order.status == Pending && caller != order.customerId then Failure(Forbidden)
        else Success(next)
  }

  /** A customer who is not also the seller can do nothing but cancel. */
  lemma CustomerCanOnlyCancel(order: Order, caller: string, requested: string)
    requires caller == order.customerId && caller != order.sellerId
    requires CheckStatusChange(order, caller, requested).Success?
    ensures CheckStatusChange(order, caller, requested).value == Cancelled
  {
  }

  /** A seller who is not also the customer cannot cancel a pending order. */
  lemma SellerCannotCancelPending(order: Order, caller: string)
    requires order.status == Pending && caller == order.sellerId && caller != order.customerId
    ensures CheckStatusChange(order, caller, "CANCELLED") == Failure(Forbidden)
  {
  }

  /** Confirming an online order that is not yet paid asks the gateway first. */
  predicate NeedsPaymentCheck(order: Order, next: OrderStatus) {
    next == Confirmed && order.paymentMethod.IsOnline() && order.paymentStatus != Paid
  }

  /** The webhook's and the confirm gate's notion of a settled payment: the
      gateway captured or settled it and the fraud check accepted it or is
      absent. */
  predicate SettledFraudAcceptedOrAbsent(transactionStatus: Option<string>, fraudStatus: Option<string>) {
    Midtrans.IsSettled(transactionStatus) && (fraudStatus == Some("accept") || !Truthy(fraudStatus))
  }

  /** The read paths' notion: the fraud check must have accepted it. */
  predicate SettledFraudAccepted(transactionStatus: Option<string>, fraudStatus: Option<string>) {
    Midtrans.IsSettled(transactionStatus) && fraudStatus == Some("accept")
  }

  datatype GateDecision = MarkPaid | Proceed | Reject(failure: Failure)

  /** What the confirm gate does with the status lookup: mark the order
      paid and go on, go on without a change, or refuse the confirmation. */
  function ConfirmGate(lookup: Result<Midtrans.TxStatus, Midtrans.GatewayError>, production: bool): (r: GateDecision)
    ensures r == MarkPaid <==>
      lookup.Success? && SettledFraudAcceptedOrAbsent(lookup.value.transactionStatus, lookup.value.fraudStatus)
    ensures r == Proceed <==> (lookup.Failure? && !production)
                              || (lookup.Success?
                                  && !SettledFraudAcceptedOrAbsent(lookup.value.transactionStatus, lookup.value.fraudStatus)
                                  && lookup.value.transactionStatus == Some("not_found"))
    ensures r == Reject(PaymentRequired) <==>
      (lookup.Success?
       && !SettledFraudAcceptedOrAbsent(lookup.value.transactionStatus, lookup.value.fraudStatus)
       && lookup.value.transactionStatus != Some("not_found"))
    ensures r == Reject(PaymentVerificationFailed) <==> lookup.Failure? && production
    ensures r.Reject? ==> r == Reject(PaymentRequired) || r == Reject(PaymentVerificationFailed)
  {
    match lookup
    case Success(tx) =>
      if SettledFraudAcceptedOrAbsent(tx.transactionStatus, tx.fraudStatus) then MarkPaid
      else if tx.transactionStatus == Some("not_found") then Proceed
      else Reject(PaymentRequired)
    case Failure(_) =>
      if production then Reject(PaymentVerificationFailed) else Proceed
  }

  /** A gateway that does not know the order never blocks its confirmation,
      whatever the environment. */
  lemma UnknownTransactionNeverBlocks(production: bool)
    ensures ConfirmGate(Success(Midtrans.NotFoundStatus), production) == Proceed
  {
  }

  // ---------------------------------------------------------------------
  // Reconciling the payment status
  // ---------------------------------------------------------------------

  /** The order webhook's mapping: the new payment status it writes, or
      `None` when it writes nothing. */
  function WebhookUpdate(transactionStatus: Option<string>, fraudStatus: Option<string>): (r: Option<PaymentStatus>)
    ensures r == Some(Paid) <==> SettledFraudAcceptedOrAbsent(transactionStatus, fraudStatus)
    ensures r == Some(Failed) <==> !SettledFraudAcceptedOrAbsent(transactionStatus, fraudStatus)
                                   && transactionStatus in {Some("cancel"), Some("deny"), Some("expire")}
    ensures r.Some? ==> r == Some(Paid) || r == Some(Failed)
  {
    if SettledFraudAcceptedOrAbsent(transactionStatus, fraudStatus) then Some(Paid)
    else if transactionStatus == Some("cancel") || transactionStatus == Some("deny") || transactionStatus == Some("expire") then Some(Failed)
    else None
  }

  /** The payment status an order has after the webhook. */
  function AfterWebhook(current: PaymentStatus, n: Midtrans.Notification): PaymentStatus {
    match WebhookUpdate(n.transactionStatus, n.fraudStatus)
    case Some(p) => p
    case None => current
  }

  /** Delivering the same notification twice has the effect of delivering
      it once. */
  lemma WebhookIdempotent(current: PaymentStatus, n: Midtrans.Notification)
    ensures AfterWebhook(AfterWebhook(current, n), n) == AfterWebhook(current, n)
  {
  }

  /** A status the webhook does not recognise (anything but capture,
      settlement, cancel, deny and expire, "pending" and a missing one
      included) leaves the payment status as it was, PAID included. */
  lemma WebhookIgnoresUnknownStatus(current: PaymentStatus, n: Midtrans.Notification)
    requires n.transactionStatus !in {Some("capture"), Some("settlement"), Some("cancel"), Some("deny"), Some("expire")}
    ensures AfterWebhook(current, n) == current
  {
  }

  /** The payment status the read paths (`getOrderById`,
      `checkPaymentStatus`) leave after a successful lookup. */
  function AfterRefresh(current: PaymentStatus, tx: Midtrans.TxStatus): (r: PaymentStatus)
    ensures r == Paid <==> current == Paid || SettledFraudAccepted(tx.transactionStatus, tx.fraudStatus)
    ensures r != current ==> r == Paid
  {
    if SettledFraudAccepted(tx.transactionStatus, tx.fraudStatus) then Paid else current
  }

  /** Whatever the read paths accept as paid, the webhook accepts too. */
  lemma RefreshPaidImpliesWebhookPaid(current: PaymentStatus, tx: Midtrans.TxStatus, n: Midtrans.Notification)
    requires n.transactionStatus == tx.transactionStatus && n.fraudStatus == tx.fraudStatus
    requires current != Paid && AfterRefresh(current, tx) == Paid
    ensures AfterWebhook(current, n) == Paid
  {
  }

  /** The two paths disagree when the fraud status is absent: a settled
      payment without one is PAID for the webhook and the confirm gate, and
      stays unpaid on the read paths. */
  lemma AbsentFraudStatusSplitsThePaths(n: Midtrans.Notification)
    requires n.transactionStatus == Some("settlement") && n.fraudStatus == None
    ensures AfterWebhook(Unpaid, n) == Paid
    ensures ConfirmGate(Success(Midtrans.TxStatus(n.transactionStatus, n.fraudStatus)), true) == MarkPaid
    ensures AfterRefresh(Unpaid, Midtrans.TxStatus(n.transactionStatus, n.fraudStatus)) == Unpaid
  {
  }

  /** The id fragment the order webhook searches for: the notification's
      order id with the first occurrence of the prefix removed. */
  function WebhookKey(orderId: string): (key: string)
    ensures !Contains(orderId, Midtrans.OrderPrefix) ==> key == orderId
    ensures StartsWith(orderId, Midtrans.OrderPrefix) ==> key == orderId[|Midtrans.OrderPrefix|..]
    ensures Contains(orderId, Midtrans.OrderPrefix) ==> |key| == |orderId| - |Midtrans.OrderPrefix|
  {
    if StartsWith(orderId, Midtrans.OrderPrefix) then
      ReplaceFirstOfPrefix(orderId, Midtrans.OrderPrefix);
      ReplaceFirst(orderId, Midtrans.OrderPrefix, "")
    else ReplaceFirst(orderId, Midtrans.OrderPrefix, "")
  }

  /** A notification carrying an order's formatted id finds that order (and
      possibly others whose ids contain it). */
  lemma WebhookKeyFindsFormattedOrder(id: string)
    requires !StartsWith(id, Midtrans.OrderPrefix)
    ensures Contains(id, WebhookKey(Midtrans.FormatOrderId(id)))
  {
    var formatted := Midtrans.FormatOrderId(id);
    assert StartsWith(formatted, Midtrans.OrderPrefix);
    ReplaceFirstOfPrefix(formatted, Midtrans.OrderPrefix);
    assert formatted[|Midtrans.OrderPrefix|..] == id;
    ContainsItself(id);
  }

  /** The search is by containment: a notification for order "12" also
      matches order "123". */
  lemma WebhookKeyMatchesLongerIds()
    ensures WebhookKey("ORDER-12") == "12"
    ensures Contains("123", WebhookKey("ORDER-12"))
  {
    ReplaceFirstOfPrefix("ORDER-12", Midtrans.OrderPrefix);
    assert OccursAt("123", "12", 0);
  }

  /** Unlike the gateway client's anchored strip, the key drops the first
      occurrence of the prefix wherever it is. */
  lemma WebhookKeyStripsInnerPrefix()
    ensures WebhookKey("xORDER-1") == "x1"
  {
    assert !OccursAt("xORDER-1", Midtrans.OrderPrefix, 0) by {
      assert "xORDER-1"[0..6][0] == 'x' != Midtrans.OrderPrefix[0];
    }
    assert OccursAt("xORDER-1", Midtrans.OrderPrefix, 1);
    assert IndexOf("xORDER-1", Midtrans.OrderPrefix) == Some(1);
  }

  /** A bare prefix gives the empty key, which every order id contains. */
  lemma BarePrefixMatchesEveryOrder(id: string)
    ensures WebhookKey(Midtrans.OrderPrefix) == ""
    ensures Contains(id, WebhookKey(Midtrans.OrderPrefix))
  {
    ReplaceFirstOfPrefix(Midtrans.OrderPrefix, Midtrans.OrderPrefix);
    EveryStringContainsEmpty(id);
  }
}
