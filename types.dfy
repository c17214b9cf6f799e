/** The app's shared entities (types/index.ts) and the palette names they are drawn with. */
module Types {

  datatype Option<+T> = None | Some(value: T) {
    function GetOr(default: T): T {
      if Some? then value else default
    }
  }

  /** A computation that either yields a value or fails with the error message the source throws. */
  datatype Result<+T> = Ok(value: T) | Err(message: string)

  /** The six delivery states, in the order the source declares them. */
  datatype Status = Pending | Accepted | PickedUp | InTransit | Delivered | Cancelled

  /** The string the source stores for a status. */
  function StatusName(s: Status): string {
    match s
    case Pending => "pending"
    case Accepted => "accepted"
    case PickedUp => "picked_up"
    case InTransit => "in_transit"
    case Delivered => "delivered"
    case Cancelled => "cancelled"
  }

  predicate IsTerminal(s: Status) {
    s == Delivered || s == Cancelled
  }

  datatype Location = Location(latitude: real, longitude: real, address: Option<string>)

  datatype PaymentKind = Card | Wallet | Cash

  datatype PaymentMethod = PaymentMethod(id: string, kind: PaymentKind, details: string, isDefault: Option<bool>)

  datatype Address = Address(id: string, name: string, address: string, latitude: real, longitude: real,
                             isDefault: Option<bool>)

  /** One delivery record. Times are milliseconds since the epoch. */
  datatype Delivery = Delivery(
    id: string,
    customerId: string,
    driverId: Option<string>,
    pickupLocation: Location,
    dropoffLocation: Location,
    status: Status,
    items: string,
    notes: Option<string>,
    price: int,
    distance: real,
    estimatedTime: nat,
    createdAt: int,
    scheduledFor: Option<int>,
    completedAt: Option<int>,
    paymentMethod: PaymentMethod,
    rating: Option<real>,
    review: Option<string>)

  datatype Role = CustomerRole | DriverRole

  datatype User = User(id: string, name: string, email: string, phone: string, role: Role)

  datatype Driver = Driver(profile: User, vehicleType: string, licensePlate: string, isOnline: bool,
                           completedDeliveries: nat, rating: real)

  datatype Customer = Customer(profile: User, savedAddresses: seq<Address>, paymentMethods: seq<PaymentMethod>)

  /** The palette entries the screens pick between (constants/colors.ts). */
  datatype Color = Primary | Secondary | Success | Error | Warning | Info | TextLight

  /** JavaScript `value || fallback` on an optional string: an absent or empty string is falsy. */
  function StringOr(s: Option<string>, fallback: string): (r: string)
    ensures s.Some? && s.value != "" ==> r == s.value
    ensures s.None? || s.value == "" ==> r == fallback
  {
    if s.Some? && s.value != "" then s.value else fallback
  }

  /** A form's error dictionary `e` with `key` set to the message when there is one. */
  function WithError(e: map<string, string>, key: string, message: Option<string>): (r: map<string, string>)
    ensures r.Keys == if message.Some? then e.Keys + {key} else e.Keys
    ensures forall k :: k in r ==> r[k] == if k == key && message.Some? then message.value else e[k]
  {
    if message.Some? then e[key := message.value] else e
  }
}
