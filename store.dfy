/** The records the handlers read and write, the error kinds they answer
    with, and the database they share: orders, cars, messages and users,
    each a map from id to record. */
module Store {
  import opened Wrappers

  datatype OrderStatus = Pending | Confirmed | Ongoing | Completed | Cancelled {
    /** The name the status has in requests and in the database. */
    function Name(): string {
      match this
      case Pending => "PENDING"
      case Confirmed => "CONFIRMED"
      case Ongoing => "ONGOING"
      case Completed => "COMPLETED"
      case Cancelled => "CANCELLED"
    }

    /** An order in one of these statuses holds its car for its dates. */
    predicate IsActive() {
      this == Pending || this == Confirmed || this == Ongoing
    }
  }

  /** The status named by a request string, if it names one. */
  function ParseStatus(s: string): (r: Option<OrderStatus>)
    ensures r.Some? ==> r.value.Name() == s
    ensures forall st: OrderStatus :: st.Name() == s ==> r == Some(st)
  {
    if s == "PENDING" then Some(Pending)
    else if s == "CONFIRMED" then Some(Confirmed)
    else if s == "ONGOING" then Some(Ongoing)
    else if s == "COMPLETED" then Some(Completed)
    else if s == "CANCELLED" then Some(Cancelled)
    else None
  }

  datatype PaymentStatus = Unpaid | Paid | Failed | Refunded

  datatype PaymentMethod = Cash | VirtualAccount | CreditCard | EWallet {
    /** The methods paid through the gateway. */
    predicate IsOnline() {
      this == VirtualAccount || this == CreditCard || this == EWallet
    }
  }

  /** A rental order. Dates are instants in milliseconds. */
  datatype Order = Order(
    carId: string,
    customerId: string,
    sellerId: string,
    startDate: int,
    endDate: int,
    totalPrice: int,
    paymentMethod: PaymentMethod,
    status: OrderStatus,
    paymentStatus: PaymentStatus,
    paymentToken: Option<string>,
    paymentUrl: Option<string>)
  {
    predicate IsParty(userId: string) {
      userId == customerId || userId == sellerId
    }
  }

  datatype Car = Car(
    ownerId: string,
    name: string,
    brand: string,
    model: string,
    year: int,
    licensePlate: string,
    price: int,
    description: Option<string>,
    imageUrl: Option<string>,
    isAvailable: bool)

  /** A chat message; `createdAt` is an instant in milliseconds. */
  datatype Message = Message(
    senderId: string,
    receiverId: string,
    orderId: Option<string>,
    content: string,
    read: bool,
    createdAt: int)

  datatype User = User(name: string, email: string, phoneNumber: Option<string>)

  /** The error kinds a handler answers with. */
  datatype Failure =
    | ValidationError
    | NotFound
    | Forbidden
    | Conflict
    | InvalidTransition
    | PaymentRequired
    | PaymentVerificationFailed
    | UpstreamError
    | ServerError
  {
    /** The HTTP status the handlers send for each kind. */
    function HttpStatus(): (code: int)
      ensures 400 <= code < 600
      ensures code == 500 <==> this == UpstreamError || this == ServerError
    {
      match this
      case NotFound => 404
      case Forbidden => 403
      case UpstreamError => 500
      case ServerError => 500
      case _ => 400
    }
  }

  /** Two orders' date ranges share at least one instant; both ends count. */
  predicate RangesOverlap(start1: int, end1: int, start2: int, end2: int) {
    start1 <= end2 && end1 >= start2
  }

  /** No car is held by two active orders whose dates overlap. */
  predicate NoDoubleBooking(orders: map<string, Order>) {
    forall a, b :: a in orders && b in orders && a != b
      && orders[a].carId == orders[b].carId
      && orders[a].status.IsActive() && orders[b].status.IsActive()
      ==> !RangesOverlap(orders[a].startDate, orders[a].endDate, orders[b].startDate, orders[b].endDate)
  }

  /** Every active order refers to a car that exists. */
  predicate ActiveOrdersHaveCars(orders: map<string, Order>, cars: map<string, Car>) {
    forall id :: id in orders && orders[id].status.IsActive() ==> orders[id].carId in cars
  }

  /** License plates are unique among cars. */
  predicate UniquePlates(cars: map<string, Car>) {
    forall a, b :: a in cars && b in cars && a != b ==> cars[a].licensePlate != cars[b].licensePlate
  }

  /** The invariant the handlers keep: no double booking, every active
      order's car exists, license plates are unique. */
  predicate Consistent(orders: map<string, Order>, cars: map<string, Car>) {
    NoDoubleBooking(orders) && ActiveOrdersHaveCars(orders, cars) && UniquePlates(cars)
  }

  /** The shared database. */
  class Database {
    var orders: map<string, Order>
    var cars: map<string, Car>
    var messages: map<string, Message>
    var users: map<string, User>

    predicate Valid()
      reads this
    {
      Consistent(orders, cars)
    }

    constructor ()
      ensures Valid()
      ensures orders == map[] && cars == map[] && messages == map[] && users == map[]
    {
      orders, cars, messages, users := map[], map[], map[], map[];
    }
  }
}
