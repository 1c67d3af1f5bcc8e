/** The order controller's handlers as operations on the database:
    creating an order, reading it (with a payment refresh), changing its
    status, and reconciling its payment status from the gateway's webhook
    and from an explicit check. The gateway is passed in as the functions
    `Midtrans.StatusApi` and `Midtrans.SnapApi`. */
module Orders {
  import opened Wrappers
  import opened Strings
  import opened Store
  import opened OrderRules
  import Midtrans

  /** The payment request `createOrder` prepares for an online order. */
  function OrderPaymentData(orderId: string, amount: int, customer: User, car: Car): (d: Midtrans.PaymentData)
    ensures d.orderId == orderId && d.amount == amount
    ensures d.customerName == Some(customer.name) && d.customerEmail == Some(customer.email)
    ensures d.customerPhone == Some(if Truthy(customer.phoneNumber) then customer.phoneNumber.value else "08123456789")
    ensures d.description == Some("Car rental: " + car.brand + " " + car.model + " (" + car.licensePlate + ")")
    ensures d.itemId.None?
  {
    Midtrans.PaymentData(
      orderId, amount, Some(customer.name), Some(customer.email),
      Some(Midtrans.OrDefault(customer.phoneNumber, "08123456789")),
      Some("Car rental: " + car.brand + " " + car.model + " (" + car.licensePlate + ")"),
      None)
  }

  /** The payment a new online order obtains: none when the customer record
      is missing or the gateway refuses. */
  function PaymentAttempt(users: map<string, User>, customerId: string, orderId: string, amount: int,
                          car: Car, snap: Midtrans.SnapApi): (p: Option<Midtrans.SnapPayment>)
    ensures p.Some? <==> customerId in users
                         && Midtrans.CreateTransaction(OrderPaymentData(orderId, amount, users[customerId], car), snap).Success?
    ensures p.Some? ==> p.value == Midtrans.CreateTransaction(OrderPaymentData(orderId, amount, users[customerId], car), snap).value
    ensures p.Some? ==> p.value.orderId == Midtrans.FormatOrderId(orderId)
  {
    if customerId !in users then None
    else match Midtrans.CreateTransaction(OrderPaymentData(orderId, amount, users[customerId], car), snap)
      case Success(payment) => Some(payment)
      case Failure(_) => None
  }

  /** `createOrder`. The new id is the one the database assigns. */
  method CreateOrder(db: Database, caller: string, carId: string, start: int, end: int,
                     paymentMethod: PaymentMethod, now: int, newId: string, snap: Midtrans.SnapApi)
    returns (r: Result<Order, Failure>)
    requires newId !in db.orders
    modifies db
    ensures db.cars == old(db.cars) && db.messages == old(db.messages) && db.users == old(db.users)
    ensures r.Success? <==> CheckNewOrder(old(db.orders), old(db.cars), carId, start, end, now).None?
    ensures r.Failure? ==> r.error == CheckNewOrder(old(db.orders), old(db.cars), carId, start, end, now).value
    ensures r.Failure? ==> db.orders == old(db.orders)
    ensures r.Success? ==> db.orders == old(db.orders)[newId := r.value]
    ensures r.Success? ==>
      var car := old(db.cars)[carId];
      && r.value.carId == carId && r.value.customerId == caller && r.value.sellerId == car.ownerId
      && r.value.startDate == start && r.value.endDate == end
      && r.value.totalPrice == TotalPrice(car.price, start, end)
      && r.value.paymentMethod == paymentMethod
      && r.value.status == Pending && r.value.paymentStatus == Unpaid
    ensures r.Success? ==>
      var payment := PaymentAttempt(old(db.users), caller, newId, r.value.totalPrice, old(db.cars)[carId], snap);
      if paymentMethod.IsOnline() && payment.Some? then
        r.value.paymentToken == Some(payment.value.token) && r.value.paymentUrl == Some(payment.value.redirectUrl)
      else
        r.value.paymentToken.None? && r.value.paymentUrl.None?
    ensures old(db.Valid()) ==> db.Valid()
  {
    var check := CheckNewOrder(db.orders, db.cars, carId, start, end, now);
    if check.Some? {
      return Failure(check.value);
    }
    var car := db.cars[carId];
    var totalPrice := TotalPrice(car.price, start, end);
    var order := Order(carId, caller, car.ownerId, start, end, totalPrice, paymentMethod, Pending, Unpaid, None, None);
    InsertOrder(db, newId, order);
    if paymentMethod.IsOnline() {
      order := AttachPayment(db, newId, totalPrice, car, snap);
    }
    r := Success(order);
  }

  /** The database write of an admitted order. */
  method InsertOrder(db: Database, id: string, order: Order)
    requires id !in db.orders && order.carId in db.cars
    requires !HasConflict(db.orders, order.carId, order.startDate, order.endDate)
    modifies db
    ensures db.cars == old(db.cars) && db.messages == old(db.messages) && db.users == old(db.users)
    ensures db.orders == old(db.orders)[id := order]
    ensures old(db.Valid()) ==> db.Valid()
  {
    if db.Valid() {
      AdmittedOrderKeepsConsistent(db.orders, db.cars, id, order);
    }
    db.orders := db.orders[id := order];
  }

  /** The online-payment step of `createOrder`, on the order just inserted:
      store the gateway's token and url, or keep the order as it is when
      there is no payment. */
  method AttachPayment(db: Database, id: string, totalPrice: int, car: Car, snap: Midtrans.SnapApi)
    returns (stored: Order)
    requires id in db.orders && db.orders[id].status == Pending && db.orders[id].paymentStatus == Unpaid
    modifies db
    ensures db.cars == old(db.cars) && db.messages == old(db.messages) && db.users == old(db.users)
    ensures db.orders == old(db.orders)[id := stored]
    ensures
      var payment := PaymentAttempt(db.users, old(db.orders)[id].customerId, id, totalPrice, car, snap);
      if payment.Some? then
        stored == old(db.orders)[id].(paymentToken := Some(payment.value.token), paymentUrl := Some(payment.value.redirectUrl))
      else
        stored == old(db.orders)[id]
    ensures old(db.Valid()) ==> db.Valid()
  {
    var order := db.orders[id];
    var payment := PaymentAttempt(db.users, order.customerId, id, totalPrice, car, snap);
    if payment.Some? {
      stored := order.(paymentToken := Some(payment.value.token), paymentUrl := Some(payment.value.redirectUrl));
    } else {
      // The order is kept; its status and payment status are written again.
      stored := order.(status := Pending, paymentStatus := Unpaid);
    }
    if db.Valid() {
      RewriteKeepsConsistent(db.orders, db.cars, id, stored);
    }
    db.orders := db.orders[id := stored];
  }

  /** The payment status `getOrderById` reports and stores: an unpaid online
      order is marked paid when the gateway reports a settled payment whose
      fraud status is exactly "accept"; lookup errors change nothing. */
  function RefreshedPaymentStatus(order: Order, id: string, statusApi: Midtrans.StatusApi): (p: PaymentStatus)
    ensures p != order.paymentStatus ==> p == Paid
    ensures p == Paid <==>
      || order.paymentStatus == Paid
      || (order.paymentMethod.IsOnline()
          && Midtrans.GetTransactionStatus(id, statusApi).Success?
          && SettledFraudAccepted(Midtrans.GetTransactionStatus(id, statusApi).value.transactionStatus,
                                  Midtrans.GetTransactionStatus(id, statusApi).value.fraudStatus))
  {
    if order.paymentMethod.IsOnline() && order.paymentStatus != Paid then
      match Midtrans.GetTransactionStatus(id, statusApi)
      case Success(tx) => AfterRefresh(order.paymentStatus, tx)
      case Failure(_) => order.paymentStatus
    else order.paymentStatus
  }

  /** `getOrderById`, without the related records it includes. */
  method GetOrderById(db: Database, id: string, caller: string, statusApi: Midtrans.StatusApi)
    returns (r: Result<Order, Failure>)
    modifies db
    ensures db.cars == old(db.cars) && db.messages == old(db.messages) && db.users == old(db.users)
    ensures id !in old(db.orders) ==> r == Failure(NotFound)
    ensures id in old(db.orders) && !old(db.orders)[id].IsParty(caller) ==> r == Failure(Forbidden)
    ensures id in old(db.orders) && old(db.orders)[id].IsParty(caller) ==> r.Success?
    ensures r.Failure? ==> db.orders == old(db.orders)
    ensures r.Success? ==>
      && id in old(db.orders) && old(db.orders)[id].IsParty(caller)
      && r.value == old(db.orders)[id].(paymentStatus := RefreshedPaymentStatus(old(db.orders)[id], id, statusApi))
      && db.orders == old(db.orders)[id := r.value]
    ensures old(db.Valid()) ==> db.Valid()
  {
    if id !in db.orders {
      return Failure(NotFound);
    }
    var order := db.orders[id];
    if !order.IsParty(caller) {
      return Failure(Forbidden);
    }
    if order.paymentMethod.IsOnline() && order.paymentStatus != Paid {
      var lookup := Midtrans.GetTransactionStatus(id, statusApi);
      if lookup.Success? && SettledFraudAccepted(lookup.value.transactionStatus, lookup.value.fraudStatus) {
        if db.Valid() {
          RewriteKeepsConsistent(db.orders, db.cars, id, order.(paymentStatus := Paid));
        }
        db.orders := db.orders[id := db.orders[id].(paymentStatus := Paid)];
        order := order.(paymentStatus := Paid);
      }
    }
    r := Success(order);
  }

  /** What the confirm gate decides for a step from `order` to `next`: it
      only consults the gateway when the step needs a payment check. */
  function GateFor(order: Order, id: string, next: OrderStatus, statusApi: Midtrans.StatusApi, production: bool): (d: GateDecision)
    ensures !NeedsPaymentCheck(order, next) ==> d == Proceed
  {
    if NeedsPaymentCheck(order, next) then ConfirmGate(Midtrans.GetTransactionStatus(id, statusApi), production)
    else Proceed
  }

  /** The payment status an order has once the gate has run. */
  function PaymentAfterGate(order: Order, d: GateDecision): PaymentStatus {
    if d == MarkPaid then Paid else order.paymentStatus
  }

  /** `updateOrderStatus`. `production` stands for the deployment being the
      production one. */
  method UpdateOrderStatus(db: Database, id: string, requested: string, caller: string,
                           statusApi: Midtrans.StatusApi, production: bool)
    returns (r: Result<Order, Failure>)
    modifies db
    ensures db.messages == old(db.messages) && db.users == old(db.users)
    ensures id !in old(db.orders) ==> r == Failure(NotFound) && db.orders == old(db.orders) && db.cars == old(db.cars)
    ensures id in old(db.orders) && CheckStatusChange(old(db.orders)[id], caller, requested).Failure? ==>
      && r == Failure(CheckStatusChange(old(db.orders)[id], caller, requested).error)
      && db.orders == old(db.orders) && db.cars == old(db.cars)
    ensures id in old(db.orders) && CheckStatusChange(old(db.orders)[id], caller, requested).Success? ==>
      StatusChangeApplied(old(db.orders), old(db.cars), db.orders, db.cars, id,
                          CheckStatusChange(old(db.orders)[id], caller, requested).value,
                          GateFor(old(db.orders)[id], id, CheckStatusChange(old(db.orders)[id], caller, requested).value, statusApi, production),
                          r)
    ensures old(db.Valid()) ==> db.Valid() && r != Failure(ServerError)
  {
    if id !in db.orders {
      return Failure(NotFound);
    }
    var order := db.orders[id];
    var check := CheckStatusChange(order, caller, requested);
    if check.Failure? {
      return Failure(check.error);
    }
    r := ChangeStatus(db, id, check.value, statusApi, production);
  }

  /** How the database and the answer relate once the checks have passed
      and the step to `next` is under way: a refused confirmation changes
      nothing; a missing car fails after the payment write; otherwise the
      order has its new status (and the payment status the gate left) and
      the car's availability follows it. */
  ghost predicate StatusChangeApplied(orders: map<string, Order>, cars: map<string, Car>,
                                      orders': map<string, Order>, cars': map<string, Car>,
                                      id: string, next: OrderStatus, gate: GateDecision,
                                      r: Result<Order, Failure>)
    requires id in orders
  {
    var order := orders[id];
    var paid := order.(paymentStatus := PaymentAfterGate(order, gate));
    && (gate.Reject? ==> r == Failure(gate.failure) && orders' == orders && cars' == cars)
    && (r.Failure? ==> gate.Reject? || r == Failure(ServerError))
    && (r == Failure(ServerError) ==>
          && !gate.Reject? && (next == Confirmed || next == Completed) && order.carId !in cars
          && cars' == cars && orders' == orders[id := paid])
    && (r.Success? ==>
          && !gate.Reject?
          && r.value == paid.(status := next)
          && orders' == orders[id := r.value]
          && (next == Confirmed ==> order.carId in cars && cars' == cars[order.carId := cars[order.carId].(isAvailable := false)])
          && (next == Completed ==> order.carId in cars && cars' == cars[order.carId := cars[order.carId].(isAvailable := true)])
          && (next != Confirmed && next != Completed ==> cars' == cars))
  }

  /** The second half of `updateOrderStatus`: the payment gate on
      confirmation, the car's availability flag, and the status write. */
  method ChangeStatus(db: Database, id: string, next: OrderStatus, statusApi: Midtrans.StatusApi, production: bool)
    returns (r: Result<Order, Failure>)
    requires id in db.orders && Allowed(db.orders[id].status, next)
    modifies db
    ensures db.messages == old(db.messages) && db.users == old(db.users)
    ensures StatusChangeApplied(old(db.orders), old(db.cars), db.orders, db.cars, id, next,
                                GateFor(old(db.orders)[id], id, next, statusApi, production), r)
    ensures old(db.Valid()) ==> db.Valid() && r != Failure(ServerError)
  {
    var order := db.orders[id];
    if next.IsActive() {
      NoReactivation(order.status, next);
    }
    ghost var valid := db.Valid();
    if NeedsPaymentCheck(order, next) {
      var lookup := Midtrans.GetTransactionStatus(id, statusApi);
      var decision := ConfirmGate(lookup, production);
      if decision.Reject? {
        return Failure(decision.failure);
      }
      if decision == MarkPaid {
        if valid {
          RewriteKeepsConsistent(db.orders, db.cars, id, order.(paymentStatus := Paid));
        }
        db.orders := db.orders[id := db.orders[id].(paymentStatus := Paid)];
      }
    }
    if next == Confirmed {
      if order.carId !in db.cars {
        return Failure(ServerError);
      }
      if valid {
        AvailabilityFlipKeepsConsistent(db.orders, db.cars, order.carId, false);
      }
      db.cars := db.cars[order.carId := db.cars[order.carId].(isAvailable := false)];
    } else if next == Completed {
      if order.carId !in db.cars {
        return Failure(ServerError);
      }
      if valid {
        AvailabilityFlipKeepsConsistent(db.orders, db.cars, order.carId, true);
      }
      db.cars := db.cars[order.carId := db.cars[order.carId].(isAvailable := true)];
    }
    if valid {
      RewriteKeepsConsistent(db.orders, db.cars, id, db.orders[id].(status := next));
    }
    db.orders := db.orders[id := db.orders[id].(status := next)];
    r := Success(db.orders[id]);
  }

  /** `handlePaymentWebhook`. The order updated is one whose id contains the
      notification's id with the prefix removed; `matched` says which. */
  method HandlePaymentWebhook(db: Database, n: Midtrans.Notification)
    returns (r: Result<(), Failure>, matched: Option<string>)
    modifies db
    ensures db.cars == old(db.cars) && db.messages == old(db.messages) && db.users == old(db.users)
    ensures n.orderId.None? ==> r == Failure(ServerError)
    ensures n.orderId.Some? && (forall id :: id in old(db.orders) ==> !Contains(id, WebhookKey(n.orderId.value))) ==>
      r == Failure(NotFound)
    ensures n.orderId.Some? && (exists id :: id in old(db.orders) && Contains(id, WebhookKey(n.orderId.value))) ==>
      r.Success?
    ensures r.Success? <==> matched.Some?
    ensures r.Failure? ==> db.orders == old(db.orders)
    ensures matched.Some? ==>
      && n.orderId.Some?
      && matched.value in old(db.orders)
      && Contains(matched.value, WebhookKey(n.orderId.value))
      && db.orders == old(db.orders)[matched.value :=
           old(db.orders)[matched.value].(paymentStatus := AfterWebhook(old(db.orders)[matched.value].paymentStatus, n))]
    ensures old(db.Valid()) ==> db.Valid()
  {
    if n.orderId.None? {
      // `orderId.replace` on a missing id throws.
      return Failure(ServerError), None;
    }
    var key := WebhookKey(n.orderId.value);
    if !(exists id :: id in db.orders && Contains(id, key)) {
      return Failure(NotFound), None;
    }
    var id :| id in db.orders && Contains(id, key);
    var update := WebhookUpdate(n.transactionStatus, n.fraudStatus);
    if update.Some? {
      var order := db.orders[id].(paymentStatus := update.value);
      if db.Valid() {
        RewriteKeepsConsistent(db.orders, db.cars, id, order);
      }
      db.orders := db.orders[id := order];
    }
    r, matched := Success(()), Some(id);
  }

  /** What `checkPaymentStatus` answers: the payment status after the check
      and the gateway's report. */
  datatype PaymentCheck = PaymentCheck(status: PaymentStatus, gateway: Midtrans.TxStatus)

  /** `checkPaymentStatus` (not reachable through any route). */
  method CheckPaymentStatus(db: Database, id: string, caller: string, statusApi: Midtrans.StatusApi)
    returns (r: Result<PaymentCheck, Failure>)
    modifies db
    ensures db.cars == old(db.cars) && db.messages == old(db.messages) && db.users == old(db.users)
    ensures id !in old(db.orders) ==> r == Failure(NotFound)
    ensures id in old(db.orders) && !old(db.orders)[id].IsParty(caller) ==> r == Failure(Forbidden)
    ensures id in old(db.orders) && old(db.orders)[id].IsParty(caller) && !old(db.orders)[id].paymentMethod.IsOnline() ==>
      r == Failure(ValidationError)
    ensures id in old(db.orders) && old(db.orders)[id].IsParty(caller) && old(db.orders)[id].paymentMethod.IsOnline()
            && Midtrans.GetTransactionStatus(id, statusApi).Failure? ==>
      r == Failure(UpstreamError)
    ensures id in old(db.orders) && old(db.orders)[id].IsParty(caller) && old(db.orders)[id].paymentMethod.IsOnline()
            && Midtrans.GetTransactionStatus(id, statusApi).Success? ==>
      r.Success?
    ensures r.Failure? ==> db.orders == old(db.orders)
    ensures r.Success? ==>
      && id in old(db.orders)
      && Midtrans.GetTransactionStatus(id, statusApi).Success?
      && r.value.gateway == Midtrans.GetTransactionStatus(id, statusApi).value
      && r.value.status == AfterRefresh(old(db.orders)[id].paymentStatus, r.value.gateway)
      && db.orders == old(db.orders)[id := old(db.orders)[id].(paymentStatus := r.value.status)]
    ensures old(db.Valid()) ==> db.Valid()
  {
    if id !in db.orders {
      return Failure(NotFound);
    }
    var order := db.orders[id];
    if !order.IsParty(caller) {
      return Failure(Forbidden);
    }
    if !order.paymentMethod.IsOnline() {
      return Failure(ValidationError);
    }
    var lookup := Midtrans.GetTransactionStatus(id, statusApi);
    if lookup.Failure? {
      return Failure(UpstreamError);
    }
    var tx := lookup.value;
    var paymentStatus := order.paymentStatus;
    if SettledFraudAccepted(tx.transactionStatus, tx.fraudStatus) {
      paymentStatus := Paid;
      if db.Valid() {
        RewriteKeepsConsistent(db.orders, db.cars, id, order.(paymentStatus := paymentStatus));
      }
      db.orders := db.orders[id := db.orders[id].(paymentStatus := paymentStatus)];
    }
    r := Success(PaymentCheck(paymentStatus, tx));
  }
}
