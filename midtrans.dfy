/** The payment gateway client (Midtrans Snap and Core status API) with the
    network abstracted away: the gateway is a function from what the client
    sends to the HTTP reply it gets back, and this module decides what the
    client does with each reply. */
module Midtrans {
  import opened Wrappers
  import opened Strings

  /** The fixed prefix the client puts in front of every order id. */
  const OrderPrefix: string := "ORDER-"

  /** `formatOrderId`: drop one leading prefix, then put it back, so that an
      id is never prefixed twice. */
  function FormatOrderId(orderId: string): (r: string)
    ensures StartsWith(r, OrderPrefix)
    ensures StartsWith(orderId, OrderPrefix) ==> r == orderId
    ensures !StartsWith(orderId, OrderPrefix) ==> r == OrderPrefix + orderId
  {
    var cleanId := if StartsWith(orderId, OrderPrefix) then orderId[|OrderPrefix|..] else orderId;
    OrderPrefix + cleanId
  }

  lemma FormatOrderIdIdempotent(orderId: string)
    ensures FormatOrderId(FormatOrderId(orderId)) == FormatOrderId(orderId)
  {
  }

  /** An unprefixed id and the same id already prefixed name the same
      gateway transaction. */
  lemma FormatOrderIdAbsorbsPrefix(orderId: string)
    requires !StartsWith(orderId, OrderPrefix)
    ensures FormatOrderId(orderId) == FormatOrderId(OrderPrefix + orderId) == OrderPrefix + orderId
  {
    assert StartsWith(OrderPrefix + orderId, OrderPrefix) by {
      assert (OrderPrefix + orderId)[..|OrderPrefix|] == OrderPrefix;
    }
  }

  /** Only one prefix is removed: an id carrying it twice keeps both
      copies, since the leading one is stripped and put back. */
  lemma FormatOrderIdKeepsInnerPrefix(orderId: string)
    ensures FormatOrderId(OrderPrefix + OrderPrefix + orderId) == OrderPrefix + OrderPrefix + orderId
  {
    var twice := OrderPrefix + OrderPrefix + orderId;
    assert twice[..|OrderPrefix|] == OrderPrefix;
    assert twice[|OrderPrefix|..] == OrderPrefix + orderId;
  }

  /** What an HTTP call through the gateway client can come back with: a
      response with a status code and a body, or no response at all
      (connection failure or the client's timeout). */
  datatype HttpReply<T> = Reply(code: int, body: T) | NoReply

  datatype GatewayError = GatewayError

  // ---------------------------------------------------------------------
  // Transaction status lookup (Core API)
  // ---------------------------------------------------------------------

  /** The part of a status response body the handlers read. */
  datatype TxStatus = TxStatus(transactionStatus: Option<string>, fraudStatus: Option<string>)

  /** The sentinel returned when the gateway does not know the transaction. */
  const NotFoundStatus: TxStatus := TxStatus(Some("not_found"), None)

  /** The status endpoint, as a function of the formatted order id. */
  type StatusApi = string -> HttpReply<TxStatus>

  /** How `getMidtransTransactionStatus` treats the reply: only a 200 carries
      a body back, a 404 becomes the `not_found` sentinel, everything else
      (other 2xx included) is an error. */
  function StatusOutcome(reply: HttpReply<TxStatus>): (r: Result<TxStatus, GatewayError>)
    ensures r.Success? <==> reply.Reply? && (reply.code == 200 || reply.code == 404)
    ensures reply.Reply? && reply.code == 200 ==> r == Success(reply.body)
    ensures reply.Reply? && reply.code == 404 ==> r == Success(NotFoundStatus)
  {
    match reply
    case NoReply => Failure(GatewayError)
    case Reply(code, body) =>
      if code == 200 then Success(body)
      else if code == 404 then Success(NotFoundStatus)
      else Failure(GatewayError)
  }

  function GetTransactionStatus(orderId: string, api: StatusApi): (r: Result<TxStatus, GatewayError>)
    ensures var reply := api(FormatOrderId(orderId));
      && (r.Success? <==> reply.Reply? && (reply.code == 200 || reply.code == 404))
      && (reply.Reply? && reply.code == 200 ==> r == Success(reply.body))
      && (reply.Reply? && reply.code == 404 ==> r == Success(NotFoundStatus))
  {
    StatusOutcome(api(FormatOrderId(orderId)))
  }

  /** Looking up an id or its already-formatted form queries the same
      transaction. */
  lemma StatusLookupIgnoresPrefix(orderId: string, api: StatusApi)
    ensures GetTransactionStatus(FormatOrderId(orderId), api) == GetTransactionStatus(orderId, api)
  {
    FormatOrderIdIdempotent(orderId);
  }

  // ---------------------------------------------------------------------
  // Transaction creation (Snap API)
  // ---------------------------------------------------------------------

  /** The argument of `createMidtransTransaction`; optional fields fall back
      to defaults when they are absent or empty. */
  datatype PaymentData = PaymentData(
    orderId: string,
    amount: int,
    customerName: Option<string>,
    customerEmail: Option<string>,
    customerPhone: Option<string>,
    description: Option<string>,
    itemId: Option<string>)

  datatype TransactionDetails = TransactionDetails(orderId: string, grossAmount: int)
  datatype CustomerDetails = CustomerDetails(firstName: string, email: string, phone: string)
  datatype ItemDetails = ItemDetails(id: string, price: int, quantity: int, name: string)

  /** The Snap transaction request body. */
  datatype SnapRequest = SnapRequest(
    transaction: TransactionDetails,
    customer: CustomerDetails,
    items: seq<ItemDetails>,
    secureCard: bool)

  /** `v || fallback` for an optional string. */
  function OrDefault(v: Option<string>, fallback: string): string {
    if v.Some? && v.value != "" then v.value else fallback
  }

  /** The request `createMidtransTransaction` sends: one item whose price is
      the gross amount, addressed by the formatted order id. */
  function SnapRequestFor(data: PaymentData): (r: SnapRequest)
    ensures r.transaction.orderId == FormatOrderId(data.orderId)
    ensures r.transaction.grossAmount == data.amount
    ensures |r.items| == 1 && r.items[0].quantity == 1
    ensures r.items[0].price == r.transaction.grossAmount
    ensures r.customer.firstName == (if Truthy(data.customerName) then data.customerName.value else "Customer")
    ensures r.customer.email == (if Truthy(data.customerEmail) then data.customerEmail.value else "")
    ensures r.customer.phone == (if Truthy(data.customerPhone) then data.customerPhone.value else "")
    ensures r.items[0].id == (if Truthy(data.itemId) then data.itemId.value else "1")
    ensures r.items[0].name == (if Truthy(data.description) then data.description.value else "Order Payment")
    ensures r.secureCard
  {
    SnapRequest(
      TransactionDetails(FormatOrderId(data.orderId), data.amount),
      CustomerDetails(
        OrDefault(data.customerName, "Customer"),
        OrDefault(data.customerEmail, ""),
        OrDefault(data.customerPhone, "")),
      [ItemDetails(OrDefault(data.itemId, "1"), data.amount, 1, OrDefault(data.description, "Order Payment"))],
      true)
  }

  datatype SnapBody = SnapBody(token: Option<string>, redirectUrl: Option<string>)

  /** What a successful creation hands back to the caller. */
  datatype SnapPayment = SnapPayment(token: string, redirectUrl: string, status: string, orderId: string)

  /** The Snap endpoint, as a function of the request body. */
  type SnapApi = SnapRequest -> HttpReply<SnapBody>

  /** How `createMidtransTransaction` treats the reply to its request. */
  function CreationOutcome(orderId: string, reply: HttpReply<SnapBody>): (r: Result<SnapPayment, GatewayError>)
    ensures r.Success? <==> reply.Reply? && (reply.code == 200 || reply.code == 201)
    ensures r.Success? ==> r.value.orderId == FormatOrderId(orderId) && r.value.status == "pending"
    ensures r.Success? ==> r.value.token == (if Truthy(reply.body.token) then reply.body.token.value else "")
    ensures r.Success? ==> r.value.redirectUrl == (if Truthy(reply.body.redirectUrl) then reply.body.redirectUrl.value else "")
  {
    match reply
    case NoReply => Failure(GatewayError)
    case Reply(code, body) =>
      if code == 201 || code == 200 then
        Success(SnapPayment(OrDefault(body.token, ""), OrDefault(body.redirectUrl, ""), "pending", FormatOrderId(orderId)))
      else Failure(GatewayError)
  }

  /** `createMidtransTransaction`: build the request, send it, read the reply. */
  function CreateTransaction(data: PaymentData, api: SnapApi): (r: Result<SnapPayment, GatewayError>)
    ensures var reply := api(SnapRequestFor(data));
      && (r.Success? <==> reply.Reply? && (reply.code == 200 || reply.code == 201))
      && (r.Success? ==> r.value.orderId == FormatOrderId(data.orderId) && r.value.status == "pending")
      && (r.Success? ==> r.value.token == (if Truthy(reply.body.token) then reply.body.token.value else ""))
      && (r.Success? ==> r.value.redirectUrl == (if Truthy(reply.body.redirectUrl) then reply.body.redirectUrl.value else ""))
  {
    CreationOutcome(data.orderId, api(SnapRequestFor(data)))
  }

  /** The id a created transaction reports is the id its request carried,
      and the status lookup for the same order uses that id too. */
  lemma CreatedTransactionIsLookedUpByItsId(data: PaymentData, snap: SnapApi, status: StatusApi)
    requires CreateTransaction(data, snap).Success?
    ensures CreateTransaction(data, snap).value.orderId == SnapRequestFor(data).transaction.orderId
    ensures GetTransactionStatus(data.orderId, status) == StatusOutcome(status(CreateTransaction(data, snap).value.orderId))
  {
  }

  // ---------------------------------------------------------------------
  // Push notifications
  // ---------------------------------------------------------------------

  /** The fields of a notification body the two webhook handlers read. */
  datatype Notification = Notification(
    orderId: Option<string>,
    transactionStatus: Option<string>,
    fraudStatus: Option<string>,
    status: Option<string>)

  /** `transaction_status` is capture or settlement. */
  predicate IsSettled(transactionStatus: Option<string>) {
    transactionStatus == Some("capture") || transactionStatus == Some("settlement")
  }
}
