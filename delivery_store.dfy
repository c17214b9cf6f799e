/** The client-side delivery list (hooks/delivery-store.ts): the records the create, update-status and
    rate mutations compute, and the store whose list and active delivery their success handlers replace. */
module DeliveryStoreHook {
  import opened Types
  import opened Text
  import MockData

  const NotAuthenticated: string := "User not authenticated"
  const NotFound: string := "Delivery not found"

  /** `Partial<Delivery>` as the create screen fills it: the locations and the payment method are cast
      to present values; every other field may be missing. */
  datatype DeliveryDraft = DeliveryDraft(
    pickupLocation: Location,
    dropoffLocation: Location,
    items: Option<string>,
    notes: Option<string>,
    price: Option<int>,
    distance: Option<real>,
    estimatedTime: Option<nat>,
    scheduledFor: Option<int>,
    paymentMethod: PaymentMethod)

  /** `del-${Date.now()}`. */
  function NewDeliveryId(now: nat): string {
    "del-" + NatToString(now)
  }

  predicate HasId(ds: seq<Delivery>, id: string) {
    exists i :: 0 <= i < |ds| && ds[i].id == id
  }

  /** `deliveries.findIndex(d => d.id === id)`. */
  function FindIndex(ds: seq<Delivery>, id: string): (r: int)
    ensures -1 <= r < |ds|
    ensures r == -1 <==> !HasId(ds, id)
    ensures r >= 0 ==> ds[r].id == id && forall j :: 0 <= j < r ==> ds[j].id != id
  {
    if ds == [] then -1
    else if ds[0].id == id then 0
    else
      var k := FindIndex(ds[1..], id);
      if k == -1 then
        assert forall i :: 1 <= i < |ds| ==> ds[i] == ds[1..][i - 1];
        -1
      else k + 1
  }

  /** `deliveries.find(d => d.id === id)`: the first record with that id. */
  function FindById(ds: seq<Delivery>, id: string): (r: Option<Delivery>)
    ensures r.None? <==> !HasId(ds, id)
    ensures r.Some? ==> r.value.id == id && r.value in ds
    ensures r.Some? ==> r.value == ds[FindIndex(ds, id)]
  {
    var k := FindIndex(ds, id);
    if k < 0 then None else Some(ds[k])
  }

  /** The record createDelivery builds from the draft before a driver is looked for. */
  function DraftRecord(user: User, draft: DeliveryDraft, now: nat): (d: Delivery)
    ensures d.id == NewDeliveryId(now) && d.customerId == user.id
    ensures d.status == Pending && d.driverId == None
    ensures d.items == (if draft.items.Some? && draft.items.value != "" then draft.items.value else "Package")
    ensures d.price == draft.price.GetOr(0) && d.distance == draft.distance.GetOr(0.0)
    ensures d.estimatedTime == draft.estimatedTime.GetOr(0)
    ensures d.completedAt == None && d.rating == None && d.review == None
    ensures d.pickupLocation == draft.pickupLocation && d.dropoffLocation == draft.dropoffLocation
    ensures d.notes == draft.notes && d.scheduledFor == draft.scheduledFor
    ensures d.paymentMethod == draft.paymentMethod && d.createdAt == now
  {
    Delivery(NewDeliveryId(now), user.id, None, draft.pickupLocation, draft.dropoffLocation, Pending,
             StringOr(draft.items, "Package"), draft.notes, draft.price.GetOr(0),
             draft.distance.GetOr(0.0), draft.estimatedTime.GetOr(0), now, draft.scheduledFor, None,
             draft.paymentMethod, None, None)
  }

  /** A non-empty pool hands the delivery to the driver at position `choice` (the random pick) and
      marks it accepted; an empty pool leaves it as it was. */
  function AssignDriver(d: Delivery, pool: seq<Driver>, choice: nat): (r: Delivery)
    requires pool != [] ==> choice < |pool|
    ensures pool == [] ==> r == d
    ensures pool != [] ==> r.status == Accepted && r.driverId.Some?
                           && exists i :: 0 <= i < |pool| && pool[i].profile.id == r.driverId.value
    ensures r == d.(status := r.status, driverId := r.driverId)
  {
    if |pool| > 0 then d.(driverId := Some(pool[choice].profile.id), status := Accepted) else d
  }

  /** The number of drivers the create mutation can pick from. */
  function PoolSize(draft: DeliveryDraft): nat {
    |MockData.NearbyDrivers(draft.pickupLocation.latitude, draft.pickupLocation.longitude)|
  }

  /** createDelivery's mutation: fails without a signed-in user, otherwise the draft record with a
      driver from the nearby pool. */
  function NewDelivery(user: Option<User>, draft: DeliveryDraft, now: nat, choice: nat): (r: Result<Delivery>)
    requires choice < PoolSize(draft)
    ensures r.Err? <==> user.None?
    ensures r.Err? ==> r.message == NotAuthenticated
    ensures r.Ok? ==> r.value.customerId == user.value.id && r.value.id == NewDeliveryId(now)
  {
    if user.None? then Err(NotAuthenticated)
    else
      var pool := MockData.NearbyDrivers(draft.pickupLocation.latitude, draft.pickupLocation.longitude);
      Ok(AssignDriver(DraftRecord(user.value, draft, now), pool, choice))
  }

  /** Because two mock drivers are always online, every created delivery is accepted straight away
      by d1 or d2, and the other fields are the draft's with their defaults. */
  lemma NewDeliveryIsAccepted(user: User, draft: DeliveryDraft, now: nat, choice: nat)
    requires choice < PoolSize(draft)
    ensures var r := NewDelivery(Some(user), draft, now, choice);
            r.Ok? && r.value.status == Accepted
            && (r.value.driverId == Some("d1") || r.value.driverId == Some("d2"))
            && r.value == DraftRecord(user, draft, now).(status := Accepted, driverId := r.value.driverId)
  {
    var lat, lon := draft.pickupLocation.latitude, draft.pickupLocation.longitude;
    MockData.NearbyDriversAreD1D2(lat, lon);
  }

  /** The record the update-status mutation returns: the first record with that id, with the new
      status, and stamped with `now` as completion time when the new status is delivered. */
  function WithStatus(d: Delivery, status: Status, now: int): (r: Delivery)
    ensures r.status == status && r.id == d.id
    ensures r.completedAt == (if status == Delivered then Some(now) else d.completedAt)
    ensures r == d.(status := status, completedAt := r.completedAt)
  {
    var u := d.(status := status);
    if status == Delivered then u.(completedAt := Some(now)) else u
  }

  /** updateStatus's mutation. Nothing checks the old status: any status may follow any status. */
  function StatusUpdate(ds: seq<Delivery>, id: string, status: Status, now: int): (r: Result<Delivery>)
    ensures r.Err? <==> !HasId(ds, id)
    ensures r.Err? ==> r.message == NotFound
    ensures r.Ok? ==> r.value == WithStatus(ds[FindIndex(ds, id)], status, now)
  {
    var k := FindIndex(ds, id);
    if k == -1 then Err(NotFound) else Ok(WithStatus(ds[k], status, now))
  }

  /** rateDelivery's mutation: rating and review are written as given, whatever the status or the
      range of the rating; an absent review overwrites the old one. */
  function Rated(ds: seq<Delivery>, id: string, rating: real, review: Option<string>): (r: Result<Delivery>)
    ensures r.Err? <==> !HasId(ds, id)
    ensures r.Err? ==> r.message == NotFound
    ensures r.Ok? ==> r.value == ds[FindIndex(ds, id)].(rating := Some(rating), review := review)
  {
    var k := FindIndex(ds, id);
    if k == -1 then Err(NotFound) else Ok(ds[k].(rating := Some(rating), review := review))
  }

  /** The success handlers' `deliveries.map(d => d.id === u.id ? u : d)`. */
  function ReplaceById(ds: seq<Delivery>, u: Delivery): (r: seq<Delivery>)
    ensures |r| == |ds|
    ensures forall i :: 0 <= i < |ds| ==> r[i] == (if ds[i].id == u.id then u else ds[i])
  {
    seq(|ds|, i requires 0 <= i < |ds| => if ds[i].id == u.id then u else ds[i])
  }

  /** The first delivery still in progress (neither delivered nor cancelled), if any. */
  function FirstInProgress(ds: seq<Delivery>): (r: Option<Delivery>)
    ensures r.None? <==> forall i :: 0 <= i < |ds| ==> IsTerminal(ds[i].status)
    ensures r.Some? ==> exists k :: 0 <= k < |ds| && ds[k] == r.value && !IsTerminal(r.value.status)
                                   && forall j :: 0 <= j < k ==> IsTerminal(ds[j].status)
  {
    if ds == [] then None
    else if !IsTerminal(ds[0].status) then Some(ds[0])
    else
      var r := FirstInProgress(ds[1..]);
      assert forall i :: 1 <= i < |ds| ==> ds[i] == ds[1..][i - 1];
      if r.Some? then
        var k :| 0 <= k < |ds[1..]| && ds[1..][k] == r.value && !IsTerminal(r.value.status)
                  && forall j :: 0 <= j < k ==> IsTerminal(ds[1..][j].status);
        assert ds[k + 1] == r.value;
        r
      else r
  }

  /** Status updates change only the records carrying that id, all of them to the same new record;
      the length, the order and every other record stay as they were. */
  lemma StatusUpdateTouchesOnlyThatId(ds: seq<Delivery>, id: string, status: Status, now: int)
    requires HasId(ds, id)
    ensures var u := StatusUpdate(ds, id, status, now).value;
            var r := ReplaceById(ds, u);
            |r| == |ds|
            && (forall i :: 0 <= i < |ds| && ds[i].id != id ==> r[i] == ds[i])
            && (forall i :: 0 <= i < |ds| && ds[i].id == id ==> r[i].status == status && r[i].id == id)
  {
  }

  /** No transition is refused: from any status, any status can be written, so a delivered delivery
      can still be cancelled, and a pending one marked delivered at once. */
  lemma AnyTransitionIsAccepted(ds: seq<Delivery>, i: nat, status: Status, now: int)
    requires i < |ds|
    ensures var r := StatusUpdate(ds, ds[i].id, status, now);
            r.Ok? && r.value.status == status && r.value.id == ds[i].id
  {
  }

  class DeliveryStore {
    var deliveries: seq<Delivery>
    var activeDelivery: Option<Delivery>

    /** The active delivery, when there is one, carries an id that is in the list. */
    ghost predicate Valid()
      reads this
    {
      activeDelivery.Some? ==> HasId(deliveries, activeDelivery.value.id)
    }

    constructor()
      ensures Valid() && deliveries == [] && activeDelivery == None
    {
      deliveries := [];
      activeDelivery := None;
    }

    /** The load query and its sync effect: with a signed-in user, the stored list (or the mock list
        when nothing is stored) becomes the list, and the first delivery in progress the active one. */
    method Load(user: Option<User>, stored: Option<seq<Delivery>>, now: int)
      requires Valid()
      modifies this
      ensures Valid()
      ensures user.None? ==> deliveries == old(deliveries) && activeDelivery == old(activeDelivery)
      ensures user.Some? ==> deliveries == (if stored.Some? then stored.value else MockData.MockDeliveries(now))
      ensures user.Some? ==> activeDelivery == FirstInProgress(deliveries)
    {
      if user.Some? {
        deliveries := if stored.Some? then stored.value else MockData.MockDeliveries(now);
        activeDelivery := FirstInProgress(deliveries);
      }
    }

    /** createDelivery: on success the new record is appended and becomes the active delivery. */
    method CreateDelivery(user: Option<User>, draft: DeliveryDraft, now: nat, choice: nat)
      returns (r: Result<Delivery>)
      requires Valid() && choice < PoolSize(draft)
      modifies this
      ensures Valid()
      ensures r == NewDelivery(user, draft, now, choice)
      ensures r.Ok? ==> deliveries == old(deliveries) + [r.value] && activeDelivery == Some(r.value)
      ensures r.Err? ==> deliveries == old(deliveries) && activeDelivery == old(activeDelivery)
    {
      r := NewDelivery(user, draft, now, choice);
      if r.Ok? {
        deliveries := deliveries + [r.value];
        activeDelivery := Some(r.value);
        assert deliveries[|deliveries| - 1].id == r.value.id;
      }
    }

    /** updateDeliveryStatus: false and no change for an unknown id; otherwise every record with the
        id is replaced, and the active delivery is cleared for a terminal status or set to the update. */
    method UpdateDeliveryStatus(id: string, status: Status, now: int) returns (ok: bool)
      requires Valid()
      modifies this
      ensures Valid()
      ensures ok <==> HasId(old(deliveries), id)
      ensures !ok ==> deliveries == old(deliveries) && activeDelivery == old(activeDelivery)
      ensures ok ==> var u := StatusUpdate(old(deliveries), id, status, now).value;
                     deliveries == ReplaceById(old(deliveries), u)
                     && activeDelivery == (if IsTerminal(status) then None else Some(u))
    {
      var r := StatusUpdate(deliveries, id, status, now);
      if r.Err? {
        return false;
      }
      var k := FindIndex(deliveries, id);
      deliveries := ReplaceById(deliveries, r.value);
      assert deliveries[k].id == id;
      activeDelivery := if status == Delivered || status == Cancelled then None else Some(r.value);
      ok := true;
    }

    /** rateDelivery: false and no change for an unknown id; otherwise the rated record replaces every
        record with that id, and the active delivery is left as it was. */
    method RateDelivery(id: string, rating: real, review: Option<string>) returns (ok: bool)
      requires Valid()
      modifies this
      ensures Valid()
      ensures ok <==> HasId(old(deliveries), id)
      ensures !ok ==> deliveries == old(deliveries)
      ensures ok ==> deliveries == ReplaceById(old(deliveries), Rated(old(deliveries), id, rating, review).value)
      ensures activeDelivery == old(activeDelivery)
    {
      var r := Rated(deliveries, id, rating, review);
      if r.Err? {
        return false;
      }
      ghost var before := deliveries;
      deliveries := ReplaceById(deliveries, r.value);
      if activeDelivery.Some? {
        assert HasId(deliveries, activeDelivery.value.id) by {
          var j :| 0 <= j < |before| && before[j].id == activeDelivery.value.id;
          assert deliveries[j].id == before[j].id;
        }
      }
      ok := true;
    }

    /** cancelDelivery: the update-status path with the cancelled status. */
    method CancelDelivery(id: string, now: int) returns (ok: bool)
      requires Valid()
      modifies this
      ensures Valid()
      ensures ok <==> HasId(old(deliveries), id)
      ensures !ok ==> deliveries == old(deliveries) && activeDelivery == old(activeDelivery)
      ensures ok ==> deliveries == ReplaceById(old(deliveries), StatusUpdate(old(deliveries), id, Cancelled, now).value)
                     && activeDelivery == None
    {
      ok := UpdateDeliveryStatus(id, Cancelled, now);
    }

    /** getDeliveryById: the first listed record with that id, since ids made in the same
        millisecond can repeat. */
    function GetDeliveryById(id: string): (r: Option<Delivery>)
      reads this
      ensures r.None? <==> !HasId(deliveries, id)
      ensures r.Some? ==> r.value.id == id && r.value in deliveries
      ensures r.Some? ==> exists k :: 0 <= k < |deliveries| && deliveries[k] == r.value
                                      && forall j :: 0 <= j < k ==> deliveries[j].id != id
    {
      FindById(deliveries, id)
    }
  }
}
