/** The shared shuttle list: the records the API returns, their conversion
    into the dashboard's shuttle records, the fallback list shown when the
    fetch fails, and the provider state (`shuttles`, `loading`, `error`). */
module ShuttleContext {
  import opened Outcomes
  import opened Chance
  import opened Text

  /** A route as the API returns it. */
  datatype Route = Route(
    id: int,
    origin: string,
    destination: string,
    distanceKm: real,
    estimatedTimeMinutes: int,
    order: int,
    isCompleted: bool)

  /** A vehicle as the API returns it. `routes`, `currentRouteIndex` and
      `nextRoute` may be absent or null (`None`). */
  datatype Vehicle = Vehicle(
    id: int,
    vehicleType: string,
    model: string,
    color: string,
    driverName: string,
    plateNumber: string,
    currentRouteIndex: Option<int>,
    status: bool,
    routes: Option<seq<Route>>,
    nextRoute: Option<Route>)

  /** A shuttle as the dashboard keeps it. */
  datatype Shuttle = Shuttle(
    id: int,
    status: bool,
    color: string,
    driver: string,
    plate: string,
    vehicleType: string,
    model: string,
    routes: seq<Route>,
    currentRouteIndex: int,
    nextRoute: Option<Route>)

  /** The eight colour names a random colour is drawn from. */
  const Colors: seq<string> := ["White", "Blue", "Green", "Yellow", "Black", "Silver", "Red", "Orange"]

  /** The message stored in `error` when the fetch fails. */
  const LoadFailure: string := "Failed to load shuttles"

  /** One vehicle as a shuttle: fields renamed, and absent routes, index and
      next route replaced by `[]`, `0` and null. */
  function ToShuttle(v: Vehicle): (s: Shuttle)
    ensures s.id == v.id && s.status == v.status && s.color == v.color
    ensures s.driver == v.driverName && s.plate == v.plateNumber
    ensures s.vehicleType == v.vehicleType && s.model == v.model
    ensures s.routes == (if v.routes.Some? then v.routes.value else [])
    ensures v.currentRouteIndex == None || v.currentRouteIndex == Some(0) ==> s.currentRouteIndex == 0
    ensures v.currentRouteIndex.Some? ==> s.currentRouteIndex == v.currentRouteIndex.value
    ensures s.nextRoute == v.nextRoute
  {
    Shuttle(
      v.id, v.status, v.color, v.driverName, v.plateNumber, v.vehicleType, v.model,
      match v.routes case Some(rs) => rs case None => [],
      match v.currentRouteIndex case Some(k) => k case None => 0,
      v.nextRoute)
  }

  /** The fetched vehicles as shuttles: one each, in the same order. */
  function Transform(vehicles: seq<Vehicle>): (shuttles: seq<Shuttle>)
    ensures |shuttles| == |vehicles|
    ensures forall i :: 0 <= i < |vehicles| ==> shuttles[i] == ToShuttle(vehicles[i])
  {
    if vehicles == [] then [] else [ToShuttle(vehicles[0])] + Transform(vehicles[1..])
  }

  /** Transforming a concatenation transforms each part. */
  lemma {:induction false} TransformAppend(a: seq<Vehicle>, b: seq<Vehicle>)
    ensures Transform(a + b) == Transform(a) + Transform(b)
  {
    if a != [] {
      assert (a + b)[1..] == a[1..] + b;
      TransformAppend(a[1..], b);
    }
  }

  /** The `i`-th fallback shuttle (counting from 0), its colour picked by `draw`. */
  function FallbackShuttle(i: nat, draw: real): Shuttle
    requires IsUnit(draw)
  {
    Shuttle(
      i + 1, i % 2 == 0, Colors[Pick(draw, |Colors|)],
      "Driver " + NatToString(i + 1), "PLATE-" + NatToString(i + 1),
      "Bus", "Model X", [], 0, None)
  }

  predicate UnitDraws(draws: seq<real>) {
    forall i :: 0 <= i < |draws| ==> IsUnit(draws[i])
  }

  /** The six shuttles shown when the fetch fails, one colour draw each. */
  function Fallback(draws: seq<real>): (shuttles: seq<Shuttle>)
    requires |draws| == 6 && UnitDraws(draws)
    ensures |shuttles| == 6
    ensures forall i :: 0 <= i < 6 ==>
      && shuttles[i].id == i + 1
      && shuttles[i].status == (i % 2 == 0)
      && shuttles[i].color in Colors
      && shuttles[i].vehicleType == "Bus" && shuttles[i].model == "Model X"
      && shuttles[i].routes == [] && shuttles[i].currentRouteIndex == 0
      && shuttles[i].nextRoute == None
  {
    seq(6, i requires 0 <= i < 6 => FallbackShuttle(i, draws[i]))
  }

  /** In the fallback list exactly the shuttles 1, 3 and 5 are active, and
      each driver and plate is its prefix followed by `String(id)`, which has
      no leading zero and reads back as the id. */
  lemma FallbackLabels(draws: seq<real>, i: nat)
    requires |draws| == 6 && UnitDraws(draws) && i < 6
    ensures Fallback(draws)[i].status <==> Fallback(draws)[i].id in {1, 3, 5}
    ensures Fallback(draws)[i].driver[..7] == "Driver "
    ensures Fallback(draws)[i].plate[..6] == "PLATE-"
    ensures AllDigits(Fallback(draws)[i].driver[7..])
    ensures ParseDecimal(Fallback(draws)[i].driver[7..]) == Fallback(draws)[i].id
    ensures ParseDecimal(Fallback(draws)[i].plate[6..]) == Fallback(draws)[i].id
    ensures Fallback(draws)[i].driver == "Driver " + NatToString(Fallback(draws)[i].id)
    ensures Fallback(draws)[i].plate == "PLATE-" + NatToString(Fallback(draws)[i].id)
  {
    var s := Fallback(draws)[i];
    assert s == FallbackShuttle(i, draws[i]);
    assert s.driver[7..] == NatToString(i + 1);
    assert s.plate[6..] == NatToString(i + 1);
    ParseNatToString(i + 1);
  }

  /** The argument of `setShuttles`: a new list, or an updater applied to the
      current one. */
  datatype ShuttlesUpdate =
    | Replace(shuttles: seq<Shuttle>)
    | Update(updater: seq<Shuttle> -> seq<Shuttle>)
  {
    function Apply(prev: seq<Shuttle>): seq<Shuttle> {
      match this
      case Replace(s) => s
      case Update(f) => f(prev)
    }
  }

  /** The provider's state. */
  class Provider {
    var shuttles: seq<Shuttle>
    var loading: bool
    var error: Option<string>

    /** The initial state: no shuttles, loading, no error. */
    constructor ()
      ensures shuttles == [] && loading && error == None
    {
      shuttles := [];
      loading := true;
      error := None;
    }

    /** The fetch on mount. `reply` is what `getVehicles` settles with and
        `draws` are the six colour draws the fallback list uses. */
    method FetchShuttles(reply: Reply<seq<Vehicle>>, draws: seq<real>)
      requires |draws| == 6 && UnitDraws(draws)
      modifies this
      ensures !loading
      ensures reply.Resolved? ==> shuttles == Transform(reply.value) && error == None
      ensures reply.Rejected? ==> shuttles == Fallback(draws) && error == Some(LoadFailure)
    {
      loading := true;
      match reply {
        case Resolved(vehicles) =>
          shuttles := Transform(vehicles);
          error := None;
        case Rejected(_) =>
          error := Some(LoadFailure);
          shuttles := Fallback(draws);
      }
      loading := false;
    }

    /** `setShuttles`: both forms of the argument go to the same state update. */
    method SetShuttles(u: ShuttlesUpdate)
      modifies this`shuttles
      ensures shuttles == u.Apply(old(shuttles))
    {
      if u.Update? {
        shuttles := u.Apply(shuttles);
      } else {
        shuttles := u.Apply(shuttles);
      }
    }
  }
}
