/** The update-status procedure (backend/trpc/routes/deliveries/update-status/route.ts): its input
    schema, the pickup code issued on "picked_up", and the message per state. `Math.random()` is the
    parameter `random`, a real in [0, 1). */
module BackendUpdateStatus {
  import opened Types
  import opened Text

  /** The states the input schema admits; the backend says "assigned" where the app says "accepted". */
  const UpdatableStatuses: set<string> := {"assigned", "picked_up", "in_transit", "delivered", "cancelled"}
  const InvalidInput := "invalid input"
  const FallbackMessage := "Status updated"

  datatype UpdateInput = UpdateInput(deliveryId: string, status: string, riderId: Option<string>,
                                     otpCode: Option<string>, notes: Option<string>)

  datatype UpdateResponse = UpdateResponse(success: bool, deliveryId: string, status: string,
                                           otp: Option<string>, message: string)

  /** `Math.floor(1000 + random * 9000).toString()`. */
  function PickupCode(random: real): (otp: string)
    requires 0.0 <= random < 1.0
    ensures |otp| == 4 && AllDigits(otp) && otp[0] != '0'
    ensures 1000 <= DecimalValue(otp) <= 9999
    ensures DecimalValue(otp) == (1000.0 + random * 9000.0).Floor
  {
    var n := (1000.0 + random * 9000.0).Floor;
    assert 1000 <= n <= 9999;
    FourDigits(n);
    DecimalRoundTrip(n);
    NatToString(n)
  }

  /** getStatusMessage: the table entry, or "Status updated" for a state without one. */
  function StatusMessage(status: string): (m: string)
    ensures status == "assigned" ==> m == "Rider is on the way to pickup"
    ensures status == "picked_up" ==> m == "Package picked up, heading to destination"
    ensures status == "in_transit" ==> m == "Package is on the way"
    ensures status == "delivered" ==> m == "Package delivered successfully"
    ensures status == "cancelled" ==> m == "Delivery cancelled"
    ensures m == FallbackMessage <==> status !in UpdatableStatuses
  {
    match status
    case "assigned" => "Rider is on the way to pickup"
    case "picked_up" => "Package picked up, heading to destination"
    case "in_transit" => "Package is on the way"
    case "delivered" => "Package delivered successfully"
    case "cancelled" => "Delivery cancelled"
    case _ => FallbackMessage
  }

  /** Every admitted state has its own message. */
  lemma MessagesAreDistinct(a: string, b: string)
    requires a in UpdatableStatuses && b in UpdatableStatuses
    ensures StatusMessage(a) == StatusMessage(b) <==> a == b
  {
  }

  /** The procedure: a state outside the schema is an error; otherwise the id and state are echoed
      with success, the state's message, and a four-digit code exactly when the package is picked up. */
  function UpdateDeliveryStatus(input: UpdateInput, random: real): (r: Result<UpdateResponse>)
    requires 0.0 <= random < 1.0
    ensures r.Err? <==> input.status !in UpdatableStatuses
    ensures r.Ok? ==> r.value.success && r.value.deliveryId == input.deliveryId && r.value.status == input.status
    ensures r.Ok? ==> (r.value.otp.Some? <==> input.status == "picked_up")
    ensures r.Ok? && r.value.otp.Some? ==>
              |r.value.otp.value| == 4 && AllDigits(r.value.otp.value) && 1000 <= DecimalValue(r.value.otp.value) <= 9999
    ensures r.Ok? ==> r.value.message == StatusMessage(input.status) && r.value.message != FallbackMessage
  {
    if input.status !in UpdatableStatuses then Err(InvalidInput)
    else
      var otp := if input.status == "picked_up" then Some(PickupCode(random)) else None;
      Ok(UpdateResponse(true, input.deliveryId, input.status, otp, StatusMessage(input.status)))
  }

  /** Sent the app's own state names, the procedure refuses "pending" and "accepted" and takes the
      other four. */
  lemma AppStatesAdmitted(s: Status, deliveryId: string, random: real)
    requires 0.0 <= random < 1.0
    ensures UpdateDeliveryStatus(UpdateInput(deliveryId, StatusName(s), None, None, None), random).Err?
            <==> s == Pending || s == Accepted
  {
  }
}
