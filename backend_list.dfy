/** The list-deliveries procedure (backend/trpc/routes/deliveries/list/route.ts): input validation
    by its schema, three canned deliveries, and an optional status filter. The backend spells the
    driver-assigned state "assigned". */
module BackendList {
  import opened Types

  const UserTypes: set<string> := {"rider", "client", "admin"}
  const StatusFilters: set<string> :=
    {"all", "pending", "assigned", "picked_up", "in_transit", "delivered", "cancelled"}
  const InvalidInput := "invalid input"

  datatype Rider = Rider(id: string, name: string, phone: string, rating: real, plateNumber: string)

  /** One canned delivery; `createdMinutesAgo` and `deliveredMinutesAgo` are how far before the
      request it was created and, when it has been, delivered. */
  datatype BackendDelivery = BackendDelivery(id: string, pickupAddress: string, dropoffAddress: string,
                                             status: string, estimatedTime: string, fare: nat,
                                             distance: string, rider: Option<Rider>,
                                             createdMinutesAgo: nat, deliveredMinutesAgo: Option<nat>)

  datatype ListInput = ListInput(userType: string, userId: string, status: Option<string>)

  datatype ListResponse = ListResponse(success: bool, deliveries: seq<BackendDelivery>, total: nat)

  function CannedDeliveries(): seq<BackendDelivery> {
    [ BackendDelivery("DEL-ABC123", "123 Victoria Island, Lagos", "45 Marina Road, Lagos Island",
                      "in_transit", "10 mins", 2500, "5.2 km",
                      Some(Rider("rider-1", "John Doe", "+234801234567", 4.8, "LAG-123XY")), 20, None),
      BackendDelivery("DEL-XYZ789", "Lekki Phase 1, Lagos", "Ikoyi, Lagos",
                      "pending", "15-20 mins", 3000, "7.8 km", None, 5, None),
      BackendDelivery("DEL-QWE456", "Surulere, Lagos", "Yaba, Lagos",
                      "delivered", "Delivered", 1800, "4.1 km",
                      Some(Rider("rider-2", "Mike Johnson", "+234802345678", 4.9, "LAG-456AB")), 60, Some(30)) ]
  }

  /** `deliveries.filter(d => d.status === status)`. */
  function WithStatus(ds: seq<BackendDelivery>, status: string): (r: seq<BackendDelivery>)
    ensures |r| <= |ds|
    ensures forall d :: d in r <==> d in ds && d.status == status
  {
    if ds == [] then []
    else (if ds[0].status == status then [ds[0]] else []) + WithStatus(ds[1..], status)
  }

  /** Filtering keeps the relative order. */
  lemma {:induction false} WithStatusConcat(a: seq<BackendDelivery>, b: seq<BackendDelivery>, status: string)
    ensures WithStatus(a + b, status) == WithStatus(a, status) + WithStatus(b, status)
  {
    if a == [] {
      assert a + b == b;
    } else {
      assert (a + b)[1..] == a[1..] + b;
      WithStatusConcat(a[1..], b, status);
    }
  }

  /** The procedure: input the schema rejects is an error; otherwise every canned delivery when the
      status is absent or "all", else those with that status, with their count. */
  function ListDeliveries(input: ListInput): (r: Result<ListResponse>)
    ensures r.Err? <==> input.userType !in UserTypes || (input.status.Some? && input.status.value !in StatusFilters)
    ensures r.Ok? ==> r.value.success && r.value.total == |r.value.deliveries|
    ensures r.Ok? && (input.status.None? || input.status.value == "all") ==>
              r.value.deliveries == CannedDeliveries()
    ensures r.Ok? && input.status.Some? && input.status.value != "all" ==>
              r.value.deliveries == WithStatus(CannedDeliveries(), input.status.value)
  {
    if input.userType !in UserTypes || (input.status.Some? && input.status.value !in StatusFilters) then
      Err(InvalidInput)
    else
      var ds := if input.status.Some? && input.status.value != "all"
                then WithStatus(CannedDeliveries(), input.status.value)
                else CannedDeliveries();
      Ok(ListResponse(true, ds, |ds|))
  }

  /** The answer depends on the status filter alone: the user type (once valid) and the user id are
      never looked at. */
  lemma UserIsIgnored(a: ListInput, b: ListInput)
    requires a.userType in UserTypes && b.userType in UserTypes && a.status == b.status
    ensures ListDeliveries(a) == ListDeliveries(b)
  {
  }

  /** Per filter: "all" gives three, each canned state gives its one delivery, and "assigned",
      "picked_up" and "cancelled" give none. */
  lemma FilterTotals(userType: string, userId: string)
    requires userType in UserTypes
    ensures ListDeliveries(ListInput(userType, userId, Some("all"))).value.total == 3
    ensures ListDeliveries(ListInput(userType, userId, Some("in_transit"))).value.deliveries == [CannedDeliveries()[0]]
    ensures ListDeliveries(ListInput(userType, userId, Some("pending"))).value.deliveries == [CannedDeliveries()[1]]
    ensures ListDeliveries(ListInput(userType, userId, Some("delivered"))).value.deliveries == [CannedDeliveries()[2]]
    ensures ListDeliveries(ListInput(userType, userId, Some("assigned"))).value.total == 0
    ensures ListDeliveries(ListInput(userType, userId, Some("picked_up"))).value.total == 0
    ensures ListDeliveries(ListInput(userType, userId, Some("cancelled"))).value.total == 0
  {
    var ds := CannedDeliveries();
    assert ds[1..][1..][1..] == [];
    assert ds[1..][1..] == [ds[2]];
  }
}
