/** The payment controller: the payment details of an order, read from the
    gateway, and the second notification webhook with its own mapping from
    gateway status to payment status. */
module Payments {
  import opened Wrappers
  import opened Strings
  import opened Store
  import Midtrans
  import OrderRules

  // ---------------------------------------------------------------------
  // Payment details
  // ---------------------------------------------------------------------

  /** The answers of `getPaymentDetails`: the gateway's report (with the
      order's payment url attached when it has one), a 400 for an order
      without a payment token, a 400 pointing at the payment url when the
      lookup fails, or an error kind. */
  datatype DetailsReply =
    | Details(tx: Midtrans.TxStatus, paymentUrl: Option<string>)
    | NoPaymentToken(paymentUrl: Option<string>)
    | UsePaymentUrl(url: string)
    | DetailsFailure(failure: Failure)

  /** `getPaymentDetails`. It reads the database and changes nothing. */
  method GetPaymentDetails(db: Database, orderId: string, caller: string, statusApi: Midtrans.StatusApi)
    returns (r: DetailsReply)
    ensures orderId !in db.orders ==> r == DetailsFailure(NotFound)
    ensures orderId in db.orders && !db.orders[orderId].IsParty(caller) ==> r == DetailsFailure(Forbidden)
    ensures orderId in db.orders && db.orders[orderId].IsParty(caller) && !Truthy(db.orders[orderId].paymentToken) ==>
      r == NoPaymentToken(db.orders[orderId].paymentUrl)
    ensures orderId in db.orders && db.orders[orderId].IsParty(caller) && Truthy(db.orders[orderId].paymentToken) ==>
      r.Details? || r.UsePaymentUrl? || r == DetailsFailure(ServerError)
    ensures r.Details? || r.UsePaymentUrl? || r == DetailsFailure(ServerError) ==>
      && orderId in db.orders && db.orders[orderId].IsParty(caller) && Truthy(db.orders[orderId].paymentToken)
      && var lookup := Midtrans.GetTransactionStatus(db.orders[orderId].paymentToken.value, statusApi);
         var url := db.orders[orderId].paymentUrl;
         && (r.Details? <==> lookup.Success?)
         && (r.Details? ==> r.tx == lookup.value && r.paymentUrl == (if Truthy(url) then url else None))
         && (r.UsePaymentUrl? <==> lookup.Failure? && Truthy(url))
         && (r.UsePaymentUrl? ==> r.url == url.value)
  {
    if orderId !in db.orders {
      return DetailsFailure(NotFound);
    }
    var order := db.orders[orderId];
    if !order.IsParty(caller) {
      return DetailsFailure(Forbidden);
    }
    if !(order.paymentToken.Some? && order.paymentToken.value != "") {
      return NoPaymentToken(order.paymentUrl);
    }
    var lookup := Midtrans.GetTransactionStatus(order.paymentToken.value, statusApi);
    if lookup.Success? {
      r := Details(lookup.value, None);
      if order.paymentUrl.Some? && order.paymentUrl.value != "" {
        r := r.(paymentUrl := order.paymentUrl);
      }
    } else if order.paymentUrl.Some? && order.paymentUrl.value != "" {
      r := UsePaymentUrl(order.paymentUrl.value);
    } else {
      r := DetailsFailure(ServerError);
    }
  }

  /** The order's transaction is registered under its formatted order id,
      but the details are looked up under the payment token: a gateway that
      knows only the order's transaction answers the details request with
      the `not_found` sentinel. */
  lemma DetailsLookUpTheToken(statusApi: Midtrans.StatusApi)
    requires forall key :: statusApi(key) == if key == "ORDER-o1"
                                              then Midtrans.Reply(200, Midtrans.TxStatus(Some("settlement"), Some("accept")))
                                              else Midtrans.Reply(404, Midtrans.TxStatus(None, None))
    ensures Midtrans.GetTransactionStatus("o1", statusApi) == Success(Midtrans.TxStatus(Some("settlement"), Some("accept")))
    ensures Midtrans.GetTransactionStatus("tok", statusApi) == Success(Midtrans.NotFoundStatus)
  {
    assert Midtrans.FormatOrderId("o1") == "ORDER-o1";
    assert Midtrans.FormatOrderId("tok") == "ORDER-tok";
  }

  /** The details request as evidently intended: the gateway is asked about
      the order's own transaction. */
  method GetPaymentDetailsByOrderId(db: Database, orderId: string, caller: string, statusApi: Midtrans.StatusApi)
    returns (r: DetailsReply)
    ensures orderId !in db.orders ==> r == DetailsFailure(NotFound)
    ensures orderId in db.orders && !db.orders[orderId].IsParty(caller) ==> r == DetailsFailure(Forbidden)
    ensures orderId in db.orders && db.orders[orderId].IsParty(caller) && !Truthy(db.orders[orderId].paymentToken) ==>
      r == NoPaymentToken(db.orders[orderId].paymentUrl)
    ensures orderId in db.orders && db.orders[orderId].IsParty(caller) && Truthy(db.orders[orderId].paymentToken) ==>
      r.Details? || r.UsePaymentUrl? || r == DetailsFailure(ServerError)
    ensures r.Details? || r.UsePaymentUrl? || r == DetailsFailure(ServerError) ==>
      && orderId in db.orders && db.orders[orderId].IsParty(caller) && Truthy(db.orders[orderId].paymentToken)
      && var lookup := Midtrans.GetTransactionStatus(orderId, statusApi);
         var url := db.orders[orderId].paymentUrl;
         && (r.Details? <==> lookup.Success?)
         && (r.Details? ==> r.tx == lookup.value && r.paymentUrl == (if Truthy(url) then url else None))
         && (r.UsePaymentUrl? <==> lookup.Failure? && Truthy(url))
         && (r.UsePaymentUrl? ==> r.url == url.value)
  {
    if orderId !in db.orders {
      return DetailsFailure(NotFound);
    }
    var order := db.orders[orderId];
    if !order.IsParty(caller) {
      return DetailsFailure(Forbidden);
    }
    if !(order.paymentToken.Some? && order.paymentToken.value != "") {
      return NoPaymentToken(order.paymentUrl);
    }
    var lookup := Midtrans.GetTransactionStatus(orderId, statusApi);
    if lookup.Success? {
      r := Details(lookup.value, None);
      if order.paymentUrl.Some? && order.paymentUrl.value != "" {
        r := r.(paymentUrl := order.paymentUrl);
      }
    } else if order.paymentUrl.Some? && order.paymentUrl.value != "" {
      r := UsePaymentUrl(order.paymentUrl.value);
    } else {
      r := DetailsFailure(ServerError);
    }
  }

  // ---------------------------------------------------------------------
  // Notification webhook
  // ---------------------------------------------------------------------

  /** The mapping of `handlePaymentNotification`: total, tried in this order
      (paid, then unpaid, then refunded), with UNPAID as the default. */
  function NotificationPaymentStatus(n: Midtrans.Notification): (p: PaymentStatus)
    ensures p == Paid <==> Midtrans.IsSettled(n.transactionStatus) || n.status == Some("paid")
    ensures p == Refunded <==>
      && !Midtrans.IsSettled(n.transactionStatus) && n.status != Some("paid")
      && n.transactionStatus !in {Some("cancel"), Some("deny"), Some("expire")} && n.status != Some("expired")
      && (n.transactionStatus == Some("refund") || n.status == Some("refunded"))
    ensures p != Failed
  {
    var paymentStatus := Unpaid;
    if n.transactionStatus == Some("capture") || n.transactionStatus == Some("settlement") || n.status == Some("paid") then
      Paid
    else if n.transactionStatus == Some("cancel") || n.transactionStatus == Some("deny")
            || n.transactionStatus == Some("expire") || n.status == Some("expired") then
      Unpaid
    else if n.transactionStatus == Some("refund") || n.status == Some("refunded") then
      Refunded
    else
      paymentStatus
  }

  /** The order a notification refers to: the one whose id is exactly the
      notification's `order_id`. */
  function NotificationTarget(orders: map<string, Order>, n: Midtrans.Notification): (target: Option<string>)
    ensures target.Some? <==> n.orderId.Some? && n.orderId.value in orders
    ensures target.Some? ==> target.value == n.orderId.value
  {
    if n.orderId.Some? && n.orderId.value in orders then Some(n.orderId.value) else None
  }

  /** The orders after a notification: the target's payment status is
      overwritten with the mapped one; no target, no change. */
  function AfterNotification(orders: map<string, Order>, n: Midtrans.Notification): (after: map<string, Order>)
    ensures after.Keys == orders.Keys
    ensures forall id :: id in orders && NotificationTarget(orders, n) != Some(id) ==> after[id] == orders[id]
    ensures NotificationTarget(orders, n).Some? ==>
      var id := NotificationTarget(orders, n).value;
      after[id] == orders[id].(paymentStatus := NotificationPaymentStatus(n))
  {
    match NotificationTarget(orders, n)
    case None => orders
    case Some(id) => orders[id := orders[id].(paymentStatus := NotificationPaymentStatus(n))]
  }

  /** `handlePaymentNotification`. */
  method HandlePaymentNotification(db: Database, n: Midtrans.Notification) returns (r: Result<(), Failure>)
    modifies db
    ensures db.cars == old(db.cars) && db.messages == old(db.messages) && db.users == old(db.users)
    ensures n.orderId.None? ==> r == Failure(ServerError)
    ensures n.orderId.Some? && n.orderId.value !in old(db.orders) ==> r == Failure(NotFound)
    ensures r.Success? <==> NotificationTarget(old(db.orders), n).Some?
    ensures db.orders == AfterNotification(old(db.orders), n)
    ensures old(db.Valid()) ==> db.Valid()
  {
    if n.orderId.None? {
      // The lookup rejects a missing id.
      return Failure(ServerError);
    }
    var orderId := n.orderId.value;
    if orderId !in db.orders {
      return Failure(NotFound);
    }
    var paymentStatus := NotificationPaymentStatus(n);
    ghost var order := db.orders[orderId].(paymentStatus := paymentStatus);
    if db.Valid() {
      OrderRules.RewriteKeepsConsistent(db.orders, db.cars, orderId, order);
    }
    db.orders := db.orders[orderId := db.orders[orderId].(paymentStatus := paymentStatus)];
    r := Success(());
  }

  /** The handler's effect depends only on the notification: delivering it
      twice has the effect of delivering it once. */
  lemma NotificationIdempotent(orders: map<string, Order>, n: Midtrans.Notification)
    ensures AfterNotification(AfterNotification(orders, n), n) == AfterNotification(orders, n)
  {
    var once := AfterNotification(orders, n);
    assert NotificationTarget(once, n) == NotificationTarget(orders, n);
  }

  /** A notification this handler does not recognise still writes UNPAID,
      so it turns a PAID order back into an unpaid one. */
  lemma UnrecognisedNotificationUnpays(orders: map<string, Order>, n: Midtrans.Notification)
    requires n.orderId.Some? && n.orderId.value in orders && orders[n.orderId.value].paymentStatus == Paid
    requires n.transactionStatus == Some("pending") && n.status == None
    ensures AfterNotification(orders, n)[n.orderId.value].paymentStatus == Unpaid
  {
  }

  /** How the two webhooks' mappings compare. This one ignores the fraud
      status, never answers FAILED, knows refunds, and always writes; the
      order controller's webhook answers FAILED for cancel, deny and
      expire, and leaves unknown statuses alone. */
  lemma NotificationVersusOrderWebhook(current: PaymentStatus, n: Midtrans.Notification)
    ensures OrderRules.AfterWebhook(current, n) == Paid && current != Paid ==> NotificationPaymentStatus(n) == Paid
    ensures n.transactionStatus == Some("cancel") && n.status == None ==>
      NotificationPaymentStatus(n) == Unpaid && OrderRules.AfterWebhook(current, n) == Failed
    ensures n.transactionStatus == Some("capture") && n.fraudStatus == Some("deny") ==>
      NotificationPaymentStatus(n) == Paid && OrderRules.AfterWebhook(current, n) == current
    ensures n.transactionStatus == Some("refund") && n.status == None ==>
      NotificationPaymentStatus(n) == Refunded && OrderRules.AfterWebhook(current, n) == current
  {
  }

  /** The gateway notifies with the order id the client sent, which carries
      the prefix; stored order ids do not, so the exact lookup never finds
      the order. */
  lemma FormattedNotificationMissesOrder(orders: map<string, Order>, id: string, n: Midtrans.Notification)
    requires forall k :: k in orders ==> !StartsWith(k, Midtrans.OrderPrefix)
    requires n.orderId == Some(Midtrans.FormatOrderId(id))
    ensures NotificationTarget(orders, n).None?
    ensures AfterNotification(orders, n) == orders
  {
  }

  /** The lookup as evidently intended: the notification's id with the
      prefix taken off, the inverse of `Midtrans.FormatOrderId`. */
  function StrippedNotificationTarget(orders: map<string, Order>, n: Midtrans.Notification): (target: Option<string>)
    ensures target.Some? ==> n.orderId.Some? && target.value in orders
    ensures target.Some? ==> n.orderId.value == target.value || n.orderId.value == Midtrans.OrderPrefix + target.value
  {
    if n.orderId.None? then None
    else
      var gatewayId := n.orderId.value;
      var localId := if StartsWith(gatewayId, Midtrans.OrderPrefix) then gatewayId[|Midtrans.OrderPrefix|..] else gatewayId;
      assert StartsWith(gatewayId, Midtrans.OrderPrefix) ==> gatewayId == Midtrans.OrderPrefix + localId;
      if localId in orders then Some(localId) else None
  }

  /** Every order whose id is unprefixed is found by the notification that
      carries its formatted id. */
  lemma StrippedTargetFindsFormattedOrder(orders: map<string, Order>, id: string, n: Midtrans.Notification)
    requires id in orders && !StartsWith(id, Midtrans.OrderPrefix)
    requires n.orderId == Some(Midtrans.FormatOrderId(id))
    ensures StrippedNotificationTarget(orders, n) == Some(id)
  {
    var gatewayId := Midtrans.OrderPrefix + id;
    assert StartsWith(gatewayId, Midtrans.OrderPrefix) by {
      assert gatewayId[..|Midtrans.OrderPrefix|] == Midtrans.OrderPrefix;
    }
    assert gatewayId[|Midtrans.OrderPrefix|..] == id;
  }
}
