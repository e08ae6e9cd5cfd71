/** The admin shuttle table: the search filter, the by-id list updates the
    handlers apply to the shared shuttle list, their input guards, and the
    page state the handlers change. */
module AdminShuttleManagement {
  import opened Outcomes
  import opened Chance
  import opened Text
  import opened ShuttleContext

  // ---------------------------------------------------------------------
  // Search

  /** A shuttle is listed when its driver or plate contains the search term,
      ignoring case. */
  predicate Matches(s: Shuttle, term: string)
    ensures Matches(s, term) <==>
      || (exists i :: OccursAt(Lower(s.driver), Lower(term), i))
      || (exists i :: OccursAt(Lower(s.plate), Lower(term), i))
  {
    ContainsIffOccurs(Lower(s.driver), Lower(term));
    ContainsIffOccurs(Lower(s.plate), Lower(term));
    Contains(Lower(s.driver), Lower(term)) || Contains(Lower(s.plate), Lower(term))
  }

  /** `filteredShuttles`: the matching shuttles, in list order. */
  function FilterShuttles(shuttles: seq<Shuttle>, term: string): (r: seq<Shuttle>)
    ensures |r| <= |shuttles|
    ensures forall s :: s in r <==> s in shuttles && Matches(s, term)
  {
    if shuttles == [] then []
    else if Matches(shuttles[0], term) then [shuttles[0]] + FilterShuttles(shuttles[1..], term)
    else FilterShuttles(shuttles[1..], term)
  }

  /** Filtering keeps order: the matches of a concatenation are the matches
      of the first part followed by those of the second. */
  lemma {:induction false} FilterAppend(a: seq<Shuttle>, b: seq<Shuttle>, term: string)
    ensures FilterShuttles(a + b, term) == FilterShuttles(a, term) + FilterShuttles(b, term)
  {
    if a == [] {
      assert a + b == b;
    } else {
      assert (a + b)[0] == a[0];
      assert (a + b)[1..] == a[1..] + b;
      FilterAppend(a[1..], b, term);
    }
  }

  /** The search ignores case: terms that lower-case alike list the same
      shuttles. */
  lemma {:induction false} FilterCaseInsensitive(shuttles: seq<Shuttle>, t1: string, t2: string)
    requires Lower(t1) == Lower(t2)
    ensures FilterShuttles(shuttles, t1) == FilterShuttles(shuttles, t2)
  {
    if shuttles != [] {
      FilterCaseInsensitive(shuttles[1..], t1, t2);
    }
  }

  /** An empty search term lists every shuttle. */
  lemma {:induction false} FilterEmptyTerm(shuttles: seq<Shuttle>)
    ensures FilterShuttles(shuttles, "") == shuttles
  {
    if shuttles != [] {
      assert StartsWith(Lower(shuttles[0].driver), Lower(""));
      FilterEmptyTerm(shuttles[1..]);
    }
  }

  // ---------------------------------------------------------------------
  // By-id updates of the shuttle list

  /** The status button: every shuttle with this id has its status flipped;
      nothing else changes. */
  function ToggleStatus(shuttles: seq<Shuttle>, id: int): (r: seq<Shuttle>)
    ensures |r| == |shuttles|
    ensures forall i :: 0 <= i < |r| ==>
      && r[i].(status := shuttles[i].status) == shuttles[i]
      && (r[i].status != shuttles[i].status <==> shuttles[i].id == id)
  {
    seq(|shuttles|, i requires 0 <= i < |shuttles| =>
      if shuttles[i].id == id then shuttles[i].(status := !shuttles[i].status) else shuttles[i])
  }

  /** Pressing the status button twice restores the list. */
  lemma ToggleTwice(shuttles: seq<Shuttle>, id: int)
    ensures ToggleStatus(ToggleStatus(shuttles, id), id) == shuttles
  {
    var once := ToggleStatus(shuttles, id);
    var twice := ToggleStatus(once, id);
    forall i | 0 <= i < |shuttles|
      ensures twice[i] == shuttles[i]
    {
      assert once[i].id == shuttles[i].id;
    }
  }

  /** A created route is appended to the routes of the shuttle with this id;
      nothing else changes. */
  function AppendRoute(shuttles: seq<Shuttle>, id: int, route: Route): (r: seq<Shuttle>)
    ensures |r| == |shuttles|
    ensures forall i :: 0 <= i < |r| ==>
      && r[i].(routes := shuttles[i].routes) == shuttles[i]
      && (shuttles[i].id == id ==> r[i].routes == shuttles[i].routes + [route] && |r[i].routes| == |shuttles[i].routes| + 1)
      && (shuttles[i].id != id ==> r[i] == shuttles[i])
  {
    seq(|shuttles|, i requires 0 <= i < |shuttles| =>
      if shuttles[i].id == id then shuttles[i].(routes := shuttles[i].routes + [route]) else shuttles[i])
  }

  /** How many shuttles in the list carry this id. */
  function CountId(shuttles: seq<Shuttle>, id: int): (n: nat)
    ensures n <= |shuttles|
    ensures n == 0 <==> forall i :: 0 <= i < |shuttles| ==> shuttles[i].id != id
  {
    if shuttles == [] then 0
    else (if shuttles[0].id == id then 1 else 0) + CountId(shuttles[1..], id)
  }

  /** The number of routes over the whole list. */
  function TotalRoutes(shuttles: seq<Shuttle>): nat {
    if shuttles == [] then 0 else |shuttles[0].routes| + TotalRoutes(shuttles[1..])
  }

  /** Adding a route adds exactly one route per shuttle carrying the id, so
      exactly one when ids are unique and none when no shuttle has it. */
  lemma {:induction false} AppendRouteTotal(shuttles: seq<Shuttle>, id: int, route: Route)
    ensures TotalRoutes(AppendRoute(shuttles, id, route)) == TotalRoutes(shuttles) + CountId(shuttles, id)
  {
    if shuttles != [] {
      assert AppendRoute(shuttles, id, route)[1..] == AppendRoute(shuttles[1..], id, route);
      AppendRouteTotal(shuttles[1..], id, route);
    }
  }

  /** What the advance-route call answers with that the handler reads. */
  datatype AdvanceReply = AdvanceReply(currentRouteIndex: int, nextRoute: Option<Route>)

  /** The shuttle with this id takes its route index and next route from the
      reply; its routes, its other fields and the other shuttles stay. */
  function ApplyAdvance(shuttles: seq<Shuttle>, id: int, reply: AdvanceReply): (r: seq<Shuttle>)
    ensures |r| == |shuttles|
    ensures forall i :: 0 <= i < |r| ==>
      && r[i].(currentRouteIndex := shuttles[i].currentRouteIndex, nextRoute := shuttles[i].nextRoute) == shuttles[i]
      && (shuttles[i].id == id ==> r[i].currentRouteIndex == reply.currentRouteIndex && r[i].nextRoute == reply.nextRoute)
      && (shuttles[i].id != id ==> r[i] == shuttles[i])
  {
    seq(|shuttles|, i requires 0 <= i < |shuttles| =>
      if shuttles[i].id == id
      then shuttles[i].(currentRouteIndex := reply.currentRouteIndex, nextRoute := reply.nextRoute)
      else shuttles[i])
  }

  /** Applying the same advance reply again changes nothing. */
  lemma ApplyAdvanceIdempotent(shuttles: seq<Shuttle>, id: int, reply: AdvanceReply)
    ensures ApplyAdvance(ApplyAdvance(shuttles, id, reply), id, reply) == ApplyAdvance(shuttles, id, reply)
  {
    var once := ApplyAdvance(shuttles, id, reply);
    forall i | 0 <= i < |shuttles|
      ensures ApplyAdvance(once, id, reply)[i] == once[i]
    {
      assert once[i].id == shuttles[i].id;
    }
  }

  /** The shuttle added for a created vehicle: active, with no routes yet. */
  function NewItem(v: Vehicle): (s: Shuttle)
    ensures s.status && s.routes == [] && s.currentRouteIndex == 0 && s.nextRoute == None
  {
    Shuttle(v.id, true, v.color, v.driverName, v.plateNumber, v.vehicleType, v.model, [], 0, None)
  }

  /** The added shuttle is what loading the vehicle would give, except that
      it starts active with no routes. */
  lemma NewItemAgreesWithTransform(v: Vehicle)
    ensures NewItem(v) == ToShuttle(v).(status := true, routes := [], currentRouteIndex := 0, nextRoute := None)
  {
  }

  // ---------------------------------------------------------------------
  // Forms, guards and requests

  /** The add-shuttle form. */
  datatype ShuttleForm = ShuttleForm(color: string, driver: string, plate: string, vehicleType: string, model: string)

  const EmptyShuttleForm: ShuttleForm := ShuttleForm("", "", "", "car", "Shuttle")

  const MissingShuttleFields: string := "Please provide at least driver name and plate number"
  const AddShuttleFailed: string := "Failed to add shuttle"

  /** The add-shuttle guard: a driver and a plate are needed. */
  predicate CanAddShuttle(f: ShuttleForm) {
    f.driver != "" && f.plate != ""
  }

  /** The body sent to create a vehicle. */
  datatype VehicleRequest = VehicleRequest(vehicleType: string, model: string, color: string, driverName: string, plateNumber: string)

  /** The request built from the form: empty type and model default to `car`
      and `Shuttle`, and an empty colour becomes one of the eight colours,
      picked by `draw`. */
  function BuildVehicleRequest(f: ShuttleForm, draw: real): (req: VehicleRequest)
    requires IsUnit(draw)
    ensures req.vehicleType == (if f.vehicleType == "" then "car" else f.vehicleType)
    ensures req.model == (if f.model == "" then "Shuttle" else f.model)
    ensures f.color != "" ==> req.color == f.color
    ensures f.color == "" ==> req.color in Colors
    ensures req.driverName == f.driver && req.plateNumber == f.plate
  {
    VehicleRequest(
      if f.vehicleType != "" then f.vehicleType else "car",
      if f.model != "" then f.model else "Shuttle",
      if f.color != "" then f.color else Colors[Pick(draw, |Colors|)],
      f.driver,
      f.plate)
  }

  /** The add-route form. */
  datatype RouteForm = RouteForm(origin: string, destination: string, distanceKm: real, estimatedTimeMinutes: int)

  const EmptyRouteForm: RouteForm := RouteForm("", "", 0.0, 0)

  const InvalidRouteFields: string := "Please fill all route fields with valid values"
  const AddRouteFailed: string := "Failed to add route"
  const AdvanceRouteFailed: string := "Failed to advance route"

  /** The add-route guard: a selected shuttle whose id is not 0 (0 is falsy),
      a non-empty origin and destination, and a positive distance and time. */
  predicate CanAddRoute(selected: Option<int>, f: RouteForm) {
    && selected.Some? && selected.value != 0
    && f.origin != "" && f.destination != ""
    && f.distanceKm > 0.0 && f.estimatedTimeMinutes > 0
  }

  /** The forms as they start, and as a success resets them, cannot be
      submitted: both guards reject them. */
  lemma EmptyFormsRejected(selected: Option<int>)
    ensures !CanAddShuttle(EmptyShuttleForm)
    ensures !CanAddRoute(selected, EmptyRouteForm)
  {
  }

  /** A shuttle with id 0 can never get a route, whatever the form holds. */
  lemma ShuttleZeroGetsNoRoute(f: RouteForm)
    ensures !CanAddRoute(Some(0), f)
  {
  }

  // ---------------------------------------------------------------------
  // Page state

  /** The page's own state, beside the shared shuttle list it updates. */
  class AdminPage {
    const context: Provider
    var searchTerm: string
    var showAddModal: bool
    var showRouteModal: bool
    var selectedShuttleId: Option<int>
    var newShuttle: ShuttleForm
    var newRoute: RouteForm
    var loading: bool

    constructor (context: Provider)
      ensures this.context == context
      ensures searchTerm == "" && !showAddModal && !showRouteModal && selectedShuttleId == None
      ensures newShuttle == EmptyShuttleForm && newRoute == EmptyRouteForm && !loading
    {
      this.context := context;
      searchTerm := "";
      showAddModal := false;
      showRouteModal := false;
      selectedShuttleId := None;
      newShuttle := EmptyShuttleForm;
      newRoute := EmptyRouteForm;
      loading := false;
    }

    /** The rows the table shows. */
    function FilteredShuttles(): (rows: seq<Shuttle>)
      reads this, context
      ensures |rows| <= |context.shuttles|
      ensures forall s :: s in rows <==> s in context.shuttles && Matches(s, searchTerm)
    {
      FilterShuttles(context.shuttles, searchTerm)
    }

    /** The `+ Route` button of the row for `id`: selects it and opens the
        route dialog. */
    method RouteClicked(id: int)
      modifies this`selectedShuttleId, this`showRouteModal
      ensures selectedShuttleId == Some(id) && showRouteModal
    {
      selectedShuttleId := Some(id);
      showRouteModal := true;
    }

    /** Cancel in the route dialog: closes it, clears the selection and
        empties the form. */
    method CancelRoute()
      modifies this`selectedShuttleId, this`showRouteModal, this`newRoute
      ensures selectedShuttleId == None && !showRouteModal && newRoute == EmptyRouteForm
    {
      showRouteModal := false;
      selectedShuttleId := None;
      newRoute := EmptyRouteForm;
    }

    /** The status button of the row for `id`. */
    method ToggleClicked(id: int)
      modifies context`shuttles
      ensures context.shuttles == ToggleStatus(old(context.shuttles), id)
    {
      context.SetShuttles(Update(prev => ToggleStatus(prev, id)));
    }

    /** `handleAddShuttle`. `draw` is the colour draw for an empty colour and
        `reply` what `createVehicle` settles with. Returns the request sent,
        if any, and the alert shown, if any. */
    method HandleAddShuttle(draw: real, reply: Reply<Vehicle>) returns (sent: Option<VehicleRequest>, alert: Option<string>)
      requires IsUnit(draw)
      modifies this, context`shuttles
      ensures !CanAddShuttle(old(newShuttle)) ==>
        && sent == None && alert == Some(MissingShuttleFields)
        && context.shuttles == old(context.shuttles)
        && newShuttle == old(newShuttle) && showAddModal == old(showAddModal) && loading == old(loading)
      ensures CanAddShuttle(old(newShuttle)) ==>
        && sent == Some(BuildVehicleRequest(old(newShuttle), draw))
        && !loading
      ensures CanAddShuttle(old(newShuttle)) && reply.Resolved? ==>
        && context.shuttles == old(context.shuttles) + [NewItem(reply.value)]
        && newShuttle == EmptyShuttleForm && !showAddModal && alert == None
      ensures CanAddShuttle(old(newShuttle)) && reply.Rejected? ==>
        && context.shuttles == old(context.shuttles)
        && newShuttle == old(newShuttle) && showAddModal == old(showAddModal)
        && alert == Some(AlertText(reply.message, AddShuttleFailed))
      ensures searchTerm == old(searchTerm) && showRouteModal == old(showRouteModal)
      ensures selectedShuttleId == old(selectedShuttleId) && newRoute == old(newRoute)
    {
      if !CanAddShuttle(newShuttle) {
        return None, Some(MissingShuttleFields);
      }
      loading := true;
      var request := BuildVehicleRequest(newShuttle, draw);
      sent := Some(request);
      match reply {
        case Resolved(created) =>
          var item := NewItem(created);
          context.SetShuttles(Update(prev => prev + [item]));
          newShuttle := EmptyShuttleForm;
          showAddModal := false;
          alert := None;
        case Rejected(message) =>
          alert := Some(AlertText(message, AddShuttleFailed));
      }
      loading := false;
    }

    /** `handleAddRoute`. `reply` is what `addRoute` settles with. Returns the
        shuttle id and form sent, if any, and the alert shown, if any. */
    method HandleAddRoute(reply: Reply<Route>) returns (sent: Option<(int, RouteForm)>, alert: Option<string>)
      modifies this, context`shuttles
      ensures !CanAddRoute(old(selectedShuttleId), old(newRoute)) ==>
        && sent == None && alert == Some(InvalidRouteFields)
        && context.shuttles == old(context.shuttles)
        && newRoute == old(newRoute) && showRouteModal == old(showRouteModal)
        && selectedShuttleId == old(selectedShuttleId) && loading == old(loading)
      ensures CanAddRoute(old(selectedShuttleId), old(newRoute)) ==>
        && sent == Some((old(selectedShuttleId).value, old(newRoute)))
        && !loading
      ensures CanAddRoute(old(selectedShuttleId), old(newRoute)) && reply.Resolved? ==>
        && context.shuttles == AppendRoute(old(context.shuttles), old(selectedShuttleId).value, reply.value)
        && newRoute == EmptyRouteForm && !showRouteModal && selectedShuttleId == None && alert == None
      ensures CanAddRoute(old(selectedShuttleId), old(newRoute)) && reply.Rejected? ==>
        && context.shuttles == old(context.shuttles)
        && newRoute == old(newRoute) && showRouteModal == old(showRouteModal)
        && selectedShuttleId == old(selectedShuttleId)
        && alert == Some(AlertText(reply.message, AddRouteFailed))
      ensures searchTerm == old(searchTerm) && showAddModal == old(showAddModal) && newShuttle == old(newShuttle)
    {
      if !CanAddRoute(selectedShuttleId, newRoute) {
        return None, Some(InvalidRouteFields);
      }
      var id := selectedShuttleId.value;
      loading := true;
      sent := Some((id, newRoute));
      match reply {
        case Resolved(created) =>
          context.SetShuttles(Update(prev => AppendRoute(prev, id, created)));
          newRoute := EmptyRouteForm;
          showRouteModal := false;
          selectedShuttleId := None;
          alert := None;
        case Rejected(message) =>
          alert := Some(AlertText(message, AddRouteFailed));
      }
      loading := false;
    }

    /** `handleAdvanceRoute` for the row of `shuttleId`. `reply` is what
        `advanceRoute` settles with. Returns the alert shown, if any. */
    method HandleAdvanceRoute(shuttleId: int, reply: Reply<AdvanceReply>) returns (alert: Option<string>)
      modifies this`loading, context`shuttles
      ensures !loading
      ensures reply.Resolved? ==>
        context.shuttles == ApplyAdvance(old(context.shuttles), shuttleId, reply.value) && alert == None
      ensures reply.Rejected? ==>
        context.shuttles == old(context.shuttles) && alert == Some(AlertText(reply.message, AdvanceRouteFailed))
    {
      loading := true;
      match reply {
        case Resolved(updated) =>
          context.SetShuttles(Update(prev => ApplyAdvance(prev, shuttleId, updated)));
          alert := None;
        case Rejected(message) =>
          alert := Some(AlertText(message, AdvanceRouteFailed));
      }
      loading := false;
    }
  }
}
