/** The live-tracking screen's decisions (app/live-tracking.tsx): which status button a driver is
    offered, which address is shown, and what a status-button tap does to the delivery store. */
module LiveTracking {
  import opened Types
  import StatusStepper
  import DeliveryStoreHook

  const UpdateFailed: string := "Failed to update delivery status"

  /** A driver's action button: its caption and the status it writes. */
  datatype DriverButton = DriverButton(title: string, target: Status)

  /** `user?.role === 'driver'`. */
  predicate IsDriver(user: Option<User>) {
    user.Some? && user.value.role == DriverRole
  }

  /** renderDriverActions: nothing for a non-driver; for a driver, a button only on the three
      statuses between acceptance and delivery. */
  function DriverAction(isDriver: bool, s: Status): (r: Option<DriverButton>)
    ensures r.Some? <==> isDriver && (s == Accepted || s == PickedUp || s == InTransit)
    ensures s == Accepted && isDriver ==> r == Some(DriverButton("Arrived at Pickup", PickedUp))
    ensures s == PickedUp && isDriver ==> r == Some(DriverButton("Start Delivery", InTransit))
    ensures s == InTransit && isDriver ==> r == Some(DriverButton("Mark as Delivered", Delivered))
  {
    if !isDriver then None
    else
      match s
      case Accepted => Some(DriverButton("Arrived at Pickup", PickedUp))
      case PickedUp => Some(DriverButton("Start Delivery", InTransit))
      case InTransit => Some(DriverButton("Mark as Delivered", Delivered))
      case _ => None
  }

  /** renderCustomerActions: the call and message buttons are shown to everyone who is not a driver. */
  function CustomerActionsShown(isDriver: bool): (r: bool)
    ensures r <==> !isDriver
  {
    !isDriver
  }

  /** Every button a driver is offered moves the delivery exactly one step forward along
      pending, accepted, picked_up, in_transit, delivered; none leads to cancellation. */
  lemma DriverActionIsOneStepForward(s: Status)
    requires DriverAction(true, s).Some?
    ensures var t := DriverAction(true, s).value.target;
            t != Cancelled && StatusStepper.StatusIndex(t) == StatusStepper.StatusIndex(s) + 1
  {
    StatusStepper.StatusIndexValues();
  }

  /** The address line: a driver sees the pickup address while the delivery is accepted and the
      dropoff address afterwards; a customer always sees the dropoff address. */
  function DisplayedAddress(isDriver: bool, d: Delivery): (r: Option<string>)
    ensures isDriver && d.status == Accepted ==> r == d.pickupLocation.address
    ensures !(isDriver && d.status == Accepted) ==> r == d.dropoffLocation.address
  {
    if isDriver then (if d.status == Accepted then d.pickupLocation.address else d.dropoffLocation.address)
    else d.dropoffLocation.address
  }

  /** What the screen renders. */
  datatype Screen =
    | NoActiveDelivery
    | Tracking(stepper: StatusStepper.StepperView, address: Option<string>,
               driverButton: Option<DriverButton>, customerActions: bool)

  function TrackingScreen(active: Option<Delivery>, user: Option<User>): (r: Screen)
    ensures r.NoActiveDelivery? <==> active.None?
    ensures r.Tracking? && r.driverButton.Some? ==> !r.customerActions
    ensures r.Tracking? ==> (r.customerActions <==> !IsDriver(user))
    ensures r.Tracking? ==> r.stepper == StatusStepper.Render(active.value.status, true)
  {
    if active.None? then NoActiveDelivery
    else
      var d := active.value;
      var driver := IsDriver(user);
      Tracking(StatusStepper.Render(d.status, true), DisplayedAddress(driver, d),
               DriverAction(driver, d.status), CustomerActionsShown(driver))
  }

  /** handleStatusUpdate: the active delivery's id and the new status go to the store; a false
      answer raises the error alert. Tapped on the store's own active delivery, which the store
      keeps in its list, it never does. */
  method HandleStatusUpdate(store: DeliveryStoreHook.DeliveryStore, active: Delivery, newStatus: Status, now: int)
    returns (alert: Option<string>)
    requires store.Valid()
    modifies store
    ensures store.Valid()
    ensures alert.None? <==> DeliveryStoreHook.HasId(old(store.deliveries), active.id)
    ensures alert.Some? ==> alert.value == UpdateFailed
    ensures old(store.activeDelivery) == Some(active) ==> alert.None?
    ensures alert.Some? ==> store.deliveries == old(store.deliveries)
                            && store.activeDelivery == old(store.activeDelivery)
    ensures alert.None? ==>
              var u := DeliveryStoreHook.StatusUpdate(old(store.deliveries), active.id, newStatus, now).value;
              store.deliveries == DeliveryStoreHook.ReplaceById(old(store.deliveries), u)
              && u.status == newStatus
              && store.activeDelivery == (if newStatus == Delivered || newStatus == Cancelled then None else Some(u))
  {
    var ok := store.UpdateDeliveryStatus(active.id, newStatus, now);
    alert := if ok then None else Some(UpdateFailed);
  }
}
