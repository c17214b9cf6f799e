/** The delivery list card (components/DeliveryCard.tsx): status colour and label, the address and
    time fallbacks, and where a press goes. Date display goes through a formatting parameter. */
module DeliveryCard {
  import opened Types
  import opened Text
  import StatusStepper

  /** getStatusColor, over the status string the record carries. */
  function StatusColor(status: string): (c: Color)
    ensures status == "pending" ==> c == Warning
    ensures status == "accepted" ==> c == Info
    ensures status == "picked_up" || status == "in_transit" ==> c == Primary
    ensures status == "delivered" ==> c == Success
    ensures status == "cancelled" ==> c == Error
    ensures c == TextLight <==>
              status !in {"pending", "accepted", "picked_up", "in_transit", "delivered", "cancelled"}
  {
    match status
    case "pending" => Warning
    case "accepted" => Info
    case "picked_up" => Primary
    case "in_transit" => Primary
    case "delivered" => Success
    case "cancelled" => Error
    case _ => TextLight
  }

  /** Over the six states the colour is never the fallback, and two states share a colour only
      when both are on the road (picked up or in transit). */
  lemma StatusColorsOfStates(a: Status, b: Status)
    ensures StatusColor(StatusName(a)) != TextLight
    ensures StatusColor(StatusName(a)) == StatusColor(StatusName(b)) <==>
              a == b || ((a == PickedUp || a == InTransit) && (b == PickedUp || b == InTransit))
  {
  }

  /** How the card names each state. */
  function StatusLabel(s: Status): string {
    match s
    case Pending => "Pending"
    case Accepted => "Accepted"
    case PickedUp => "Picked Up"
    case InTransit => "In Transit"
    case Delivered => "Delivered"
    case Cancelled => "Cancelled"
  }

  /** The card's formatStatus, which is the stepper's, turns each stored name into that label. */
  lemma StatusLabels(s: Status)
    ensures StatusStepper.FormatStatus(StatusName(s)) == StatusLabel(s)
  {
    match s
    case Pending => StatusStepper.FormatsAs("pending", "Pending");
    case Accepted => StatusStepper.FormatsAs("accepted", "Accepted");
    case PickedUp => StatusStepper.FormatsAs("picked_up", "Picked Up");
    case InTransit => StatusStepper.FormatsAs("in_transit", "In Transit");
    case Delivered => StatusStepper.FormatsAs("delivered", "Delivered");
    case Cancelled => StatusStepper.FormatsAs("cancelled", "Cancelled");
  }

  /** The time field: the formatted schedule when there is one, else the estimate in minutes. */
  function TimeText(d: Delivery, formatDate: int -> string): string {
    if d.scheduledFor.Some? then formatDate(d.scheduledFor.value)
    else NatToString(d.estimatedTime) + " mins"
  }

  /** Without a schedule the time field shows the estimate, readable back as a number followed by
      " mins"; with one it is whatever the date formatter gives. */
  lemma TimeTextShowsEstimate(d: Delivery, formatDate: int -> string)
    ensures d.scheduledFor.Some? ==> TimeText(d, formatDate) == formatDate(d.scheduledFor.value)
    ensures d.scheduledFor.None? ==>
              var t := TimeText(d, formatDate);
              |t| > 5 && t[|t| - 5..] == " mins" && AllDigits(t[..|t| - 5])
              && DecimalValue(t[..|t| - 5]) == d.estimatedTime
  {
    if d.scheduledFor.None? {
      var t := TimeText(d, formatDate);
      var n := NatToString(d.estimatedTime);
      assert t[..|t| - 5] == n;
      DecimalRoundTrip(d.estimatedTime);
    }
  }

  /** Everything the card shows that the model covers. */
  datatype CardView = CardView(color: Color, statusText: string, pickupText: string, dropoffText: string,
                               itemsText: string, timeText: string)

  function Card(d: Delivery, formatDate: int -> string): (v: CardView)
    ensures v.color == StatusColor(StatusName(d.status)) && v.color != TextLight
    ensures v.statusText == StatusLabel(d.status) && |v.statusText| == |StatusName(d.status)|
    ensures v.pickupText == (if d.pickupLocation.address.Some? && d.pickupLocation.address.value != ""
                             then d.pickupLocation.address.value else "Pickup location")
    ensures v.dropoffText == (if d.dropoffLocation.address.Some? && d.dropoffLocation.address.value != ""
                              then d.dropoffLocation.address.value else "Dropoff location")
    ensures v.pickupText != "" && v.dropoffText != ""
    ensures v.itemsText == d.items
    ensures v.timeText == TimeText(d, formatDate)
  {
    StatusColorsOfStates(d.status, d.status);
    StatusLabels(d.status);
    StatusStepper.FormatStatusIsTitleCase(StatusName(d.status));
    CardView(StatusColor(StatusName(d.status)), StatusStepper.FormatStatus(StatusName(d.status)),
             StringOr(d.pickupLocation.address, "Pickup location"),
             StringOr(d.dropoffLocation.address, "Dropoff location"),
             d.items, TimeText(d, formatDate))
  }

  /** What a press does. */
  datatype PressAction = CallOnPress | Navigate(route: string)

  /** handlePress: a supplied handler wins; otherwise the card opens the delivery's own page. */
  function HandlePress(hasOnPress: bool, id: string): (a: PressAction)
    ensures a.CallOnPress? <==> hasOnPress
    ensures a.Navigate? ==> |a.route| == 10 + |id| && a.route[..10] == "/delivery/" && a.route[10..] == id
  {
    if hasOnPress then CallOnPress else Navigate("/delivery/" + id)
  }
}
