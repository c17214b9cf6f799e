/** The fixed demo data and the two lookups over it (mocks/data.ts). */
module MockData {
  import opened Types
  import opened Text

  const MockDrivers: seq<Driver> := [
    Driver(User("d1", "John Rider", "john@whnocome.com", "+2341234567890", DriverRole),
           "Motorcycle - Bajaj", "LG-234-KJA", true, 342, 4.8),
    Driver(User("d2", "Sarah Speed", "sarah@whnocome.com", "+2341987654321", DriverRole),
           "Motorcycle - Honda", "KD-567-LAS", true, 215, 4.9),
    Driver(User("d3", "Michael Express", "michael@whnocome.com", "+2348765432109", DriverRole),
           "Motorcycle - Suzuki", "AB-901-XYZ", false, 178, 4.7)
  ]

  const MockCustomer: Customer := Customer(
    User("c1", "Alex User", "alex@example.com", "+2349876543210", CustomerRole),
    [ Address("a1", "Home", "15 Adeola Odeku St, Victoria Island, Lagos", 6.4281, 3.4219, Some(true)),
      Address("a2", "Work", "1 Idejo Street, Victoria Island, Lagos", 6.4331, 3.4234, Some(false)) ],
    [ PaymentMethod("pm1", Card, "**** **** **** 4321", Some(true)),
      PaymentMethod("pm2", Wallet, "PayStack Wallet", Some(false)),
      PaymentMethod("pm3", Cash, "Cash on Delivery", Some(false)) ])

  /** The three seeded deliveries; `now` is the clock reading when the module is loaded. */
  function MockDeliveries(now: int): seq<Delivery> {
    [ Delivery("del1", "c1", Some("d1"),
               Location(6.4281, 3.4219, Some("15 Adeola Odeku St, Victoria Island, Lagos")),
               Location(6.4561, 3.3841, Some("23 Alfred Rewane Road, Ikoyi, Lagos")),
               InTransit, "Documents package", Some("Please call when you arrive"),
               1500, 5.2, 25, now, None, None,
               PaymentMethod("pm1", Card, "**** **** **** 4321", None), None, None),
      Delivery("del2", "c1", Some("d2"),
               Location(6.4331, 3.4234, Some("1 Idejo Street, Victoria Island, Lagos")),
               Location(6.4982, 3.3591, Some("12 Admiralty Way, Lekki Phase 1, Lagos")),
               Delivered, "Food package", None,
               2000, 8.7, 35, now - 86400000, None, Some(now - 86400000 + 2400000),
               PaymentMethod("pm3", Cash, "Cash on Delivery", None),
               Some(5.0), Some("Very fast delivery, excellent service!")),
      Delivery("del3", "c1", None,
               Location(6.4281, 3.4219, Some("15 Adeola Odeku St, Victoria Island, Lagos")),
               Location(6.6018, 3.3515, Some("Ikeja City Mall, Alausa, Ikeja, Lagos")),
               Pending, "Gift package", Some("Fragile items, handle with care"),
               3500, 18.3, 55, now, Some(now + 7200000), None,
               PaymentMethod("pm2", Wallet, "PayStack Wallet", None), None, None) ]
  }

  /** `drivers.filter(driver => driver.isOnline)`. */
  function OnlineDrivers(drivers: seq<Driver>): (r: seq<Driver>)
    ensures |r| <= |drivers|
    ensures forall d :: d in r <==> d in drivers && d.isOnline
  {
    if drivers == [] then []
    else (if drivers[0].isOnline then [drivers[0]] else []) + OnlineDrivers(drivers[1..])
  }

  /** Filtering keeps the relative order: the online drivers of a concatenation are the
      concatenation of the online drivers of each part. */
  lemma {:induction false} OnlineDriversConcat(a: seq<Driver>, b: seq<Driver>)
    ensures OnlineDrivers(a + b) == OnlineDrivers(a) + OnlineDrivers(b)
  {
    if a == [] {
      assert a + b == b;
    } else {
      assert (a + b)[1..] == a[1..] + b;
      OnlineDriversConcat(a[1..], b);
    }
  }

  /** The nearby-driver lookup ignores its coordinates and returns the online mock drivers. */
  function NearbyDrivers(latitude: real, longitude: real): (r: seq<Driver>)
    ensures forall d :: d in r <==> d in MockDrivers && d.isOnline
  {
    OnlineDrivers(MockDrivers)
  }

  /** The online pool is d1 then d2. */
  lemma NearbyDriversAreD1D2(latitude: real, longitude: real)
    ensures NearbyDrivers(latitude, longitude) == [MockDrivers[0], MockDrivers[1]]
    ensures |NearbyDrivers(latitude, longitude)| == 2
    ensures NearbyDrivers(latitude, longitude)[0].profile.id == "d1"
    ensures NearbyDrivers(latitude, longitude)[1].profile.id == "d2"
  {
    assert MockDrivers[2..][1..] == [];
    assert MockDrivers[1..][1..] == MockDrivers[2..];
  }

  /** The three canned suggestions; `stamp` stands for `Date.now()` and `jitter` for the six
      `Math.random() * 0.02` offsets, in source order. */
  function AddressSuggestions(query: string, stamp: nat, jitter: seq<real>): (r: seq<Address>)
    requires |jitter| == 6
    ensures |query| < 3 ==> r == []
    ensures |query| >= 3 ==> |r| == 3
    ensures |query| >= 3 ==> r[0].name == "Business" && r[1].name == "Residence" && r[2].name == "Mall"
    ensures forall a :: a in r ==> |query| <= |a.address| && a.address[..|query|] == query
  {
    if query == "" || |query| < 3 then []
    else
      var id := "sugg-" + NatToString(stamp) + "-";
      [ Address(id + "1", "Business", query + " Business Center, Victoria Island, Lagos",
                6.4281 + jitter[0], 3.4219 + jitter[1], None),
        Address(id + "2", "Residence", query + " Apartments, Lekki Phase 1, Lagos",
                6.4561 + jitter[2], 3.3841 + jitter[3], None),
        Address(id + "3", "Mall", query + " Shopping Mall, Ikeja, Lagos",
                6.6018 + jitter[4], 3.3515 + jitter[5], None) ]
  }

  /** How many entries are flagged `isDefault: true`. */
  function CountDefaultAddresses(addresses: seq<Address>): nat {
    if addresses == [] then 0
    else (if addresses[0].isDefault == Some(true) then 1 else 0) + CountDefaultAddresses(addresses[1..])
  }

  function CountDefaultPayments(methods: seq<PaymentMethod>): nat {
    if methods == [] then 0
    else (if methods[0].isDefault == Some(true) then 1 else 0) + CountDefaultPayments(methods[1..])
  }

  /** The demo customer has exactly one default address (a1) and one default payment method (pm1). */
  lemma MockCustomerDefaults()
    ensures CountDefaultAddresses(MockCustomer.savedAddresses) == 1
    ensures CountDefaultPayments(MockCustomer.paymentMethods) == 1
    ensures MockCustomer.savedAddresses[0].isDefault == Some(true)
    ensures MockCustomer.paymentMethods[0].isDefault == Some(true)
  {
    var a := MockCustomer.savedAddresses;
    assert a[1..][1..] == [];
    var p := MockCustomer.paymentMethods;
    assert p[1..][1..][1..] == [];
  }
}
