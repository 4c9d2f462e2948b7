/** PortService (PortService.cs): the closest port to a ship and the estimated arrival there.
    The haversine distance (DistanceCalculator.cs) and the travel-time division are parameters. */
module PortService {
  import opened Collections
  import opened Exceptions
  import opened Data

  /** CalculateDistanceKm(latitude1, longitude1, latitude2, longitude2). */
  type Distance = (real, real, real, real) -> real

  /** Hours to cover a distance in km at a velocity in knots (distance / (velocity * 1.852)). */
  type TravelTime = (real, real) -> real

  /** The element `OrderBy(p => p.DistanceKm).First()` picks: OrderBy is a stable sort, so this
      is a smallest distance, and the earliest one in list order among equal distances. */
  ghost predicate IsFirstMinimum(ds: seq<real>, i: int) {
    && 0 <= i < |ds|
    && (forall j :: 0 <= j < |ds| ==> ds[i] <= ds[j])
    && (forall j :: 0 <= j < i ==> ds[j] > ds[i])
  }

  /** At most one index is the first minimum. */
  lemma FirstMinimumIsUnique(ds: seq<real>, i: int, k: int)
    requires IsFirstMinimum(ds, i) && IsFirstMinimum(ds, k)
    ensures i == k
  {
    assert ds[i] <= ds[k] && ds[k] <= ds[i];
    if i < k { assert false; }
    if k < i { assert false; }
  }

  /** The arg-min scan, ties going to the earlier element. */
  function FirstMinimumIndex(ds: seq<real>): (i: nat)
    requires |ds| > 0
    ensures IsFirstMinimum(ds, i)
  {
    if |ds| == 1 then 0
    else
      var k := FirstMinimumIndex(ds[..|ds| - 1]);
      if ds[k] <= ds[|ds| - 1] then k else |ds| - 1
  }

  /** PortWithDistanceDto. */
  datatype PortWithDistance = PortWithDistance(port: Port, distanceKm: real)

  /** The distances from (latitude, longitude) to every port, in list order (the Select). */
  function Distances(dist: Distance, latitude: real, longitude: real, ports: seq<Port>): seq<real> {
    seq(|ports|, j requires 0 <= j < |ports| => dist(latitude, longitude, ports[j].latitude, ports[j].longitude))
  }

  /** `ports.Select(...).OrderBy(p => p.DistanceKm).FirstOrDefault()`: null for no ports,
      otherwise the first port at the least distance, with that distance. */
  function ClosestPort(dist: Distance, latitude: real, longitude: real, ports: seq<Port>): (r: Option<PortWithDistance>)
    ensures r.None? <==> ports == []
    ensures r.Some? ==> exists i :: IsFirstMinimum(Distances(dist, latitude, longitude, ports), i) &&
                                   r.value == PortWithDistance(ports[i], dist(latitude, longitude, ports[i].latitude, ports[i].longitude))
  {
    if ports == [] then None
    else
      var ds := Distances(dist, latitude, longitude, ports);
      var i := FirstMinimumIndex(ds);
      Some(PortWithDistance(ports[i], ds[i]))
  }

  /** The behaviour stated for the port lookup: at distances 100, 50 and 200 km the second
      port is chosen; with two ports tied at 50 km (they may be different ports) ahead of one
      at 200 km, the first of the two. */
  lemma ClosestPortExamples(dist: Distance, latitude: real, longitude: real, a: Port, b: Port, b2: Port, c: Port)
    requires dist(latitude, longitude, a.latitude, a.longitude) == 100.0
    requires dist(latitude, longitude, b.latitude, b.longitude) == 50.0
    requires dist(latitude, longitude, b2.latitude, b2.longitude) == 50.0
    requires dist(latitude, longitude, c.latitude, c.longitude) == 200.0
    ensures ClosestPort(dist, latitude, longitude, [a, b, c]) == Some(PortWithDistance(b, 50.0))
    ensures ClosestPort(dist, latitude, longitude, [b, b2, c]) == Some(PortWithDistance(b, 50.0))
  {
    var ds := Distances(dist, latitude, longitude, [a, b, c]);
    assert ds == [100.0, 50.0, 200.0];
    assert IsFirstMinimum(ds, 1);
    forall i | IsFirstMinimum(ds, i) ensures i == 1 { FirstMinimumIsUnique(ds, i, 1); }
    var tied := Distances(dist, latitude, longitude, [b, b2, c]);
    assert tied == [50.0, 50.0, 200.0];
    assert IsFirstMinimum(tied, 0);
    forall i | IsFirstMinimum(tied, i) ensures i == 0 { FirstMinimumIsUnique(tied, i, 0); }
  }

  /** EstimatedArrivalDto, without EstimatedArrivalTime (the current time plus the hours). */
  datatype EstimatedArrival = EstimatedArrival(ship: Ship, closestPort: Port, distanceKm: real, travelTimeHours: real)

  class PortService {
    const context: ShipManagementContext

    constructor (context: ShipManagementContext)
      ensures this.context == context
    {
      this.context := context;
    }

    /** GetClosestPortAsync: KeyNotFound "Ship not found" for an unknown ship id; null when
        there are no ports; otherwise the closest port to the ship and its distance. */
    function GetClosestPort(dist: Distance, shipId: int): (r: Result<Option<PortWithDistance>>)
      reads context
      ensures ShipWithId(context.ships, shipId).None? <==> r == Err(KeyNotFoundException("Ship not found"))
      ensures r.Ok? ==> (r.value.None? <==> context.ports == [])
      ensures r.Ok? && r.value.Some? ==>
        var ship := context.ships[ShipWithId(context.ships, shipId).value];
        r.value == ClosestPort(dist, ship.latitude, ship.longitude, context.ports)
    {
      match ShipWithId(context.ships, shipId)
      case None => Err(KeyNotFoundException("Ship not found"))
      case Some(i) =>
        var ship := context.ships[i];
        Ok(ClosestPort(dist, ship.latitude, ship.longitude, context.ports))
    }

    /** GetEstimatedArrivalAsync: KeyNotFound "Ship not found" for an unknown ship id;
        KeyNotFound "No ports found" when GetClosestPortAsync returns null; otherwise the
        ship, the same port and distance GetClosestPortAsync chose, and the travel time at the
        ship's velocity. */
    function GetEstimatedArrival(dist: Distance, travel: TravelTime, shipId: int): (r: Result<EstimatedArrival>)
      reads context
      ensures ShipWithId(context.ships, shipId).None? ==> r == Err(KeyNotFoundException("Ship not found"))
      ensures ShipWithId(context.ships, shipId).Some? && context.ports == [] ==>
        r == Err(KeyNotFoundException("No ports found"))
      ensures r.Ok? <==> ShipWithId(context.ships, shipId).Some? && context.ports != []
      ensures r.Ok? ==>
        && r.value.ship == context.ships[ShipWithId(context.ships, shipId).value]
        && GetClosestPort(dist, shipId) == Ok(Some(PortWithDistance(r.value.closestPort, r.value.distanceKm)))
        && r.value.travelTimeHours == travel(r.value.distanceKm, r.value.ship.velocity)
    {
      match ShipWithId(context.ships, shipId)
      case None => Err(KeyNotFoundException("Ship not found"))
      case Some(i) =>
        var ship := context.ships[i];
        // the ship GetClosestPortAsync finds again is this one, so it cannot throw here
        match ClosestPort(dist, ship.latitude, ship.longitude, context.ports)
        case None => Err(KeyNotFoundException("No ports found"))
        case Some(closest) =>
          Ok(EstimatedArrival(ship, closest.port, closest.distanceKm, travel(closest.distanceKm, ship.velocity)))
    }
  }
}
