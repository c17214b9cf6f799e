/** The create-delivery screen (app/create-delivery.tsx): form validation, the fare and time
    formulas, the default address and payment choice, and the address search threshold. The
    great-circle distance between the two locations is a parameter `dist`. */
module CreateDelivery {
  import opened Types
  import opened Text
  import MockData
  import DeliveryStoreHook

  const PickupRequired: string := "Pickup location is required"
  const DropoffRequired: string := "Dropoff location is required"
  const ItemsRequired: string := "Package description is required"
  const PaymentRequired: string := "Payment method is required"

  const BasePrice: int := 500
  const PricePerKm: int := 100

  /** JavaScript `Math.round`: halves round up. */
  function Round(x: real): (r: int)
    ensures x - 0.5 < r as real <= x + 0.5
  {
    (x + 0.5).Floor
  }

  /** `x.toFixed(1)` as a count of tenths: the magnitude is rounded half up. */
  function Tenths(x: real): (n: int)
    ensures -0.5 <= n as real - x * 10.0 <= 0.5
    ensures x >= 0.0 ==> n >= 0
  {
    if x >= 0.0 then Round(x * 10.0) else -Round(-x * 10.0)
  }

  /** `parseFloat(x.toFixed(1))`: a whole number of tenths within 0.05 of x. */
  function RoundToTenth(x: real): (r: real)
    ensures r * 10.0 == Tenths(x) as real
    ensures x >= 0.0 ==> r >= 0.0
    ensures -0.05 <= r - x <= 0.05
  {
    Tenths(x) as real / 10.0
  }

  /** What calculateDeliveryDetails returns. */
  datatype DeliveryDetails = DeliveryDetails(distance: real, price: int, estimatedTime: nat)

  /** The fare and time for a trip of `km` kilometres. The price is computed from the unrounded
      distance; only the stored distance is rounded. */
  function DetailsFor(km: real): (r: DeliveryDetails)
    ensures r.price == Round(BasePrice as real + km * PricePerKm as real)
    ensures r.estimatedTime >= 15 && r.estimatedTime as int >= Round(km * 3.0)
    ensures r.estimatedTime as int == Round(km * 3.0) || r.estimatedTime == 15
    ensures r.distance == RoundToTenth(km)
  {
    var t := Round(km * 3.0);
    DeliveryDetails(RoundToTenth(km), Round(BasePrice as real + km * PricePerKm as real), if t > 15 then t else 15)
  }

  /** Every trip costs at least the 500 base fare, and a longer trip never costs less. */
  lemma PriceBounds(km1: real, km2: real)
    requires 0.0 <= km1 <= km2
    ensures DetailsFor(km1).price >= BasePrice
    ensures DetailsFor(km1).price <= DetailsFor(km2).price
    ensures DetailsFor(km1).estimatedTime <= DetailsFor(km2).estimatedTime
  {
    FloorMonotone(BasePrice as real + km1 * 100.0 + 0.5, BasePrice as real + km2 * 100.0 + 0.5);
    FloorMonotone(km1 * 3.0 + 0.5, km2 * 3.0 + 0.5);
    assert (500.0 + 0.5).Floor == 500;
    FloorMonotone(500.5, BasePrice as real + km1 * 100.0 + 0.5);
  }

  lemma FloorMonotone(x: real, y: real)
    requires x <= y
    ensures x.Floor <= y.Floor
  {
  }

  /** calculateDeliveryDetails: nothing until both locations are chosen. */
  function CalculateDeliveryDetails(pickup: Option<Location>, dropoff: Option<Location>,
                                    dist: (Location, Location) -> real): (r: Option<DeliveryDetails>)
    ensures r.None? <==> pickup.None? || dropoff.None?
    ensures r.Some? ==> r.value == DetailsFor(dist(pickup.value, dropoff.value))
  {
    if pickup.None? || dropoff.None? then None else Some(DetailsFor(dist(pickup.value, dropoff.value)))
  }

  /** `saved.find(a => a.isDefault) || saved[0]`. */
  function DefaultAddress(saved: seq<Address>): (r: Option<Address>)
    ensures r.None? <==> saved == []
    ensures r.Some? ==> r.value in saved
    ensures r.Some? && r.value.isDefault != Some(true) ==> r.value == saved[0]
                                                           && forall a :: a in saved ==> a.isDefault != Some(true)
  {
    if saved == [] then None
    else if saved[0].isDefault == Some(true) then Some(saved[0])
    else
      var rest := DefaultAddress(saved[1..]);
      if rest.Some? && rest.value.isDefault == Some(true) then rest else Some(saved[0])
  }

  /** The same rule for payment methods. */
  function DefaultPayment(saved: seq<PaymentMethod>): (r: Option<PaymentMethod>)
    ensures r.None? <==> saved == []
    ensures r.Some? ==> r.value in saved
    ensures r.Some? && r.value.isDefault != Some(true) ==> r.value == saved[0]
                                                           && forall p :: p in saved ==> p.isDefault != Some(true)
  {
    if saved == [] then None
    else if saved[0].isDefault == Some(true) then Some(saved[0])
    else
      var rest := DefaultPayment(saved[1..]);
      if rest.Some? && rest.value.isDefault == Some(true) then rest else Some(saved[0])
  }

  /** The first entry flagged as default wins. */
  lemma {:induction false} DefaultAddressIsFirstFlagged(saved: seq<Address>, k: nat)
    requires k < |saved| && saved[k].isDefault == Some(true)
    requires forall j :: 0 <= j < k ==> saved[j].isDefault != Some(true)
    ensures DefaultAddress(saved) == Some(saved[k])
  {
    if k > 0 {
      DefaultAddressIsFirstFlagged(saved[1..], k - 1);
    }
  }

  /** Likewise the first payment method flagged as default wins. */
  lemma {:induction false} DefaultPaymentIsFirstFlagged(saved: seq<PaymentMethod>, k: nat)
    requires k < |saved| && saved[k].isDefault == Some(true)
    requires forall j :: 0 <= j < k ==> saved[j].isDefault != Some(true)
    ensures DefaultPayment(saved) == Some(saved[k])
  {
    if k > 0 {
      DefaultPaymentIsFirstFlagged(saved[1..], k - 1);
    }
  }

  function LocationOf(a: Address): Location {
    Location(a.latitude, a.longitude, Some(a.address))
  }

  /** For the demo customer the pickup starts at "Home" (a1) and the payment at the card (pm1). */
  lemma DemoCustomerDefaults()
    ensures DefaultAddress(MockData.MockCustomer.savedAddresses).value.id == "a1"
    ensures DefaultPayment(MockData.MockCustomer.paymentMethods).value.id == "pm1"
  {
  }

  /** The error dictionary validateForm produces: one entry per missing field, under its own key
      and with its own message; items count as missing when they are blank after trimming. */
  function FormErrorsOf(pickup: Option<Location>, dropoff: Option<Location>, items: string,
                        payment: Option<PaymentMethod>): (e: map<string, string>)
    ensures e.Keys <= {"pickup", "dropoff", "items", "payment"}
    ensures ("pickup" in e <==> pickup.None?) && ("dropoff" in e <==> dropoff.None?)
    ensures ("items" in e <==> Trim(items) == "") && ("payment" in e <==> payment.None?)
    ensures "pickup" in e ==> e["pickup"] == PickupRequired
    ensures "dropoff" in e ==> e["dropoff"] == DropoffRequired
    ensures "items" in e ==> e["items"] == ItemsRequired
    ensures "payment" in e ==> e["payment"] == PaymentRequired
  {
    var e := WithError(map[], "pickup", if pickup.None? then Some(PickupRequired) else None);
    var e := WithError(e, "dropoff", if dropoff.None? then Some(DropoffRequired) else None);
    var e := WithError(e, "items", if Trim(items) == "" then Some(ItemsRequired) else None);
    WithError(e, "payment", if payment.None? then Some(PaymentRequired) else None)
  }

  /** validateForm: the dictionary is filled field by field; the form is valid iff it stays empty,
      that is iff all four fields are present. */
  method CheckForm(pickup: Option<Location>, dropoff: Option<Location>, items: string, payment: Option<PaymentMethod>)
    returns (errors: map<string, string>, valid: bool)
    ensures errors == FormErrorsOf(pickup, dropoff, items, payment)
    ensures "items" in errors <==> IsBlank(items)
    ensures valid <==> pickup.Some? && dropoff.Some? && !IsBlank(items) && payment.Some?
    ensures valid <==> errors == map[]
  {
    var newErrors: map<string, string> := map[];
    if pickup.None? { newErrors := newErrors["pickup" := PickupRequired]; }
    if dropoff.None? { newErrors := newErrors["dropoff" := DropoffRequired]; }
    TrimEmptyIffBlank(items);
    if Trim(items) == "" { newErrors := newErrors["items" := ItemsRequired]; }
    if payment.None? { newErrors := newErrors["payment" := PaymentRequired]; }
    errors := newErrors;
    valid := |newErrors.Keys| == 0;
    var spec := FormErrorsOf(pickup, dropoff, items, payment);
    assert errors.Keys == spec.Keys;
    if !valid {
      assert newErrors.Keys != {};
    }
  }

  /** The draft handleCreateDelivery sends: the entered fields with the computed details, never
      scheduled. */
  function DraftFor(pickup: Location, dropoff: Location, items: string, notes: string,
                    payment: PaymentMethod, details: DeliveryDetails): (d: DeliveryStoreHook.DeliveryDraft)
    ensures d.pickupLocation == pickup && d.dropoffLocation == dropoff && d.paymentMethod == payment
    ensures d.items == Some(items) && d.notes == Some(notes) && d.scheduledFor == None
    ensures d.price == Some(details.price) && d.distance == Some(details.distance)
    ensures d.estimatedTime == Some(details.estimatedTime)
  {
    DeliveryStoreHook.DeliveryDraft(pickup, dropoff, Some(items), Some(notes), Some(details.price),
                                    Some(details.distance), Some(details.estimatedTime), None, payment)
  }

  /** The result of the create button. */
  datatype CreateOutcome = NotSubmitted | Created(id: string) | Failed

  class CreateDeliveryScreen {
    var pickupLocation: Option<Location>
    var dropoffLocation: Option<Location>
    var items: string
    var notes: string
    var paymentMethod: Option<PaymentMethod>
    var searchQuery: string
    var addressSuggestions: seq<Address>
    var isSearchingPickup: bool
    var errors: map<string, string>

    constructor()
      ensures pickupLocation == None && dropoffLocation == None && paymentMethod == None
      ensures items == "" && notes == "" && searchQuery == "" && addressSuggestions == []
      ensures !isSearchingPickup && errors == map[]
    {
      pickupLocation, dropoffLocation, paymentMethod := None, None, None;
      items, notes, searchQuery := "", "", "";
      addressSuggestions := [];
      isSearchingPickup := false;
      errors := map[];
    }

    /** The load effect: for a customer, the default saved address becomes the pickup and the
        default payment method is selected; for anyone else nothing changes. */
    method LoadDefaults(user: Option<User>)
      modifies this
      ensures user.Some? && user.value.role == CustomerRole ==>
                pickupLocation == Some(LocationOf(DefaultAddress(MockData.MockCustomer.savedAddresses).value))
                && paymentMethod == DefaultPayment(MockData.MockCustomer.paymentMethods)
      ensures !(user.Some? && user.value.role == CustomerRole) ==>
                pickupLocation == old(pickupLocation) && paymentMethod == old(paymentMethod)
      ensures dropoffLocation == old(dropoffLocation) && items == old(items) && errors == old(errors)
    {
      if user.Some? && user.value.role == CustomerRole {
        var saved := MockData.MockCustomer.savedAddresses;
        var methods := MockData.MockCustomer.paymentMethods;
        if |saved| > 0 {
          pickupLocation := Some(LocationOf(DefaultAddress(saved).value));
        }
        if |methods| > 0 {
          paymentMethod := DefaultPayment(methods);
        }
      }
    }

    /** The search effect: three or more characters fetch suggestions, anything shorter clears
        them. `stamp` and `jitter` stand for the clock and the random offsets of the lookup. */
    method SetSearchQuery(query: string, stamp: nat, jitter: seq<real>)
      requires |jitter| == 6
      modifies this
      ensures searchQuery == query
      ensures |query| < 3 ==> addressSuggestions == []
      ensures |query| >= 3 ==> addressSuggestions == MockData.AddressSuggestions(query, stamp, jitter)
                               && |addressSuggestions| == 3
      ensures pickupLocation == old(pickupLocation) && dropoffLocation == old(dropoffLocation)
    {
      searchQuery := query;
      if |query| >= 3 {
        addressSuggestions := MockData.AddressSuggestions(query, stamp, jitter);
      } else {
        addressSuggestions := [];
      }
    }

    /** handleAddressSuggestionSelect: the chosen address fills the field being searched, and the
        search is reset. */
    method SelectSuggestion(address: Address)
      modifies this
      ensures isSearchingPickup ==> pickupLocation == Some(LocationOf(address)) && dropoffLocation == old(dropoffLocation)
      ensures !isSearchingPickup ==> dropoffLocation == Some(LocationOf(address)) && pickupLocation == old(pickupLocation)
      ensures searchQuery == "" && addressSuggestions == []
      ensures isSearchingPickup == old(isSearchingPickup)
    {
      if isSearchingPickup {
        pickupLocation := Some(LocationOf(address));
      } else {
        dropoffLocation := Some(LocationOf(address));
      }
      searchQuery := "";
      addressSuggestions := [];
    }

    /** validateForm on the screen's fields; the errors are stored for display. */
    method ValidateForm() returns (valid: bool)
      modifies this`errors
      ensures errors == FormErrorsOf(pickupLocation, dropoffLocation, items, paymentMethod)
      ensures valid <==> pickupLocation.Some? && dropoffLocation.Some? && !IsBlank(items) && paymentMethod.Some?
    {
      errors, valid := CheckForm(pickupLocation, dropoffLocation, items, paymentMethod);
    }

    /** handleCreateDelivery: nothing happens unless the form is valid and both locations give
        details; then the draft goes to the store, whose answer is the outcome. */
    method HandleCreateDelivery(store: DeliveryStoreHook.DeliveryStore, user: Option<User>,
                                dist: (Location, Location) -> real, now: nat, choice: nat)
      returns (outcome: CreateOutcome)
      requires store.Valid() && choice < 2
      modifies this`errors, store
      ensures store.Valid()
      ensures outcome.NotSubmitted? <==>
                !(pickupLocation.Some? && dropoffLocation.Some? && !IsBlank(items) && paymentMethod.Some?)
      ensures errors == FormErrorsOf(pickupLocation, dropoffLocation, items, paymentMethod)
      ensures !outcome.Created? ==>
                store.deliveries == old(store.deliveries) && store.activeDelivery == old(store.activeDelivery)
      ensures outcome.Failed? <==> !outcome.NotSubmitted? && user.None?
      ensures outcome.Created? ==>
                var details := DetailsFor(dist(pickupLocation.value, dropoffLocation.value));
                var draft := DraftFor(pickupLocation.value, dropoffLocation.value, items, notes,
                                      paymentMethod.value, details);
                var d := DeliveryStoreHook.NewDelivery(user, draft, now, choice).value;
                outcome.id == d.id && d.id == DeliveryStoreHook.NewDeliveryId(now)
                && store.deliveries == old(store.deliveries) + [d]
                && store.deliveries[..|old(store.deliveries)|] == old(store.deliveries)
                && store.activeDelivery == Some(d)
                && d.items == items && d.price == details.price
    {
      var valid := ValidateForm();
      var details := CalculateDeliveryDetails(pickupLocation, dropoffLocation, dist);
      if !valid || details.None? {
        return NotSubmitted;
      }
      var draft := DraftFor(pickupLocation.value, dropoffLocation.value, items, notes, paymentMethod.value,
                            details.value);
      MockData.NearbyDriversAreD1D2(draft.pickupLocation.latitude, draft.pickupLocation.longitude);
      var r := store.CreateDelivery(user, draft, now, choice);
      if r.Ok? {
        assert items != "";
        assert store.deliveries[..|old(store.deliveries)|] == old(store.deliveries);
        outcome := Created(r.value.id);
      } else {
        outcome := Failed;
      }
    }
  }
}
