/** ShipService (ShipService.cs) over the in-memory store. Each state-changing operation
    throws, if at all, before SaveChangesAsync, so a thrown error leaves the store as it was.
    The haversine distance and the travel-time division are parameters, as in PortService. */
module ShipService {
  import opened Collections
  import opened Exceptions
  import opened Data
  import opened Messages
  import PortService

  /** CreateShipRequest. */
  datatype CreateShipRequest = CreateShipRequest(shipCode: string, name: string, velocity: real,
                                                 latitude: real, longitude: real)

  /** AssignUsersToShipResponse, without CreatedAt (never set). ShipId is never set either and
      keeps its default 0. */
  datatype AssignUsersToShipResponse = AssignUsersToShipResponse(userId: int, shipId: int, shipCode: string, shipName: string)

  /** ShipClosestPortResponse; travelTimeHours stands for EstimatedArrivalTime, which is the
      current time plus that many hours. */
  datatype ShipClosestPortResponse = ShipClosestPortResponse(
    shipCode: string, shipName: string, shipLatitude: real, shipLongitude: real, shipVelocity: real,
    portName: string, portLatitude: real, portLongitude: real, portCountry: string,
    distanceToPort: real, travelTimeHours: real)

  /** `Users.Where(u => userIds.Contains(u.Id))`: the listed users that exist, in store order. */
  function UsersWithIds(users: seq<User>, userIds: seq<int>): seq<User> {
    Filter(users, (u: User) => u.id in userIds)
  }

  /** The join rows that make each of the users an assignee of the ship. */
  function LinksTo(shipId: int, users: seq<User>): set<(int, int)> {
    set k | 0 <= k < |users| :: (shipId, users[k].id)
  }

  /** The rows AssignUsersToShip adds are exactly those pairing the ship with a listed id of
      an existing user: ids that match no user are ignored. */
  lemma AssignedLinks(users: seq<User>, userIds: seq<int>, shipId: int, link: (int, int))
    ensures link in LinksTo(shipId, UsersWithIds(users, userIds)) <==>
            link.0 == shipId && link.1 in userIds && HasUser(users, link.1)
  {
    var found := UsersWithIds(users, userIds);
    if link.0 == shipId && link.1 in userIds && HasUser(users, link.1) {
      var b :| 0 <= b < |users| && users[b].id == link.1;
      assert users[b] in found;
      var k :| 0 <= k < |found| && found[k] == users[b];
      assert link == (shipId, found[k].id);
    }
  }

  lemma LinksToExtend(shipId: int, users: seq<User>, i: nat)
    requires i < |users|
    ensures LinksTo(shipId, users[..i + 1]) == LinksTo(shipId, users[..i]) + {(shipId, users[i].id)}
  {
    assert forall k :: 0 <= k < i ==> users[..i + 1][k] == users[..i][k];
  }


  /** `ship.Users.Where(u => userIds.Contains(u.Id))`, as join rows: what UnassignUsersFromShip
      removes. */
  function AssignedAndListed(shipUsers: set<(int, int)>, shipId: int, userIds: seq<int>): set<(int, int)> {
    set link | link in shipUsers && link.0 == shipId && link.1 in userIds
  }

  /** `!s.Users.Any()`: no join row names the ship. */
  predicate Unassigned(shipUsers: set<(int, int)>, shipId: int) {
    forall link :: link in shipUsers ==> link.0 != shipId
  }

  /** The condition `s => !s.Users.Any()`. */
  function NoAssignee(shipUsers: set<(int, int)>): Ship -> bool {
    (s: Ship) => Unassigned(shipUsers, s.id)
  }

  /** `Ships.Where(s => !s.Users.Any())`, before the projection. */
  function UnassignedShips(ships: seq<Ship>, shipUsers: set<(int, int)>): seq<Ship> {
    Filter(ships, NoAssignee(shipUsers))
  }

  /** The foreach of AssignUsersToShipAsync on the ship's rows: the pair of the ship and
      each user is added, once. */
  method AddLinks(shipId: int, users: seq<User>, links: set<(int, int)>) returns (result: set<(int, int)>)
    ensures result == links + LinksTo(shipId, users)
  {
    result := links;
    var i := 0;
    while i < |users|
      invariant 0 <= i <= |users|
      invariant result == links + LinksTo(shipId, users[..i])
    {
      var link := (shipId, users[i].id);
      ghost var before := result;
      if link !in result {
        result := result + {link};
      }
      assert result == before + {link};
      LinksToExtend(shipId, users, i);
      assert result == links + LinksTo(shipId, users[..i + 1]) by {
        UnionAssociative(links, LinksTo(shipId, users[..i]), {link});
      }
      i := i + 1;
    }
    assert users[..i] == users;
  }

  class ShipService {
    const context: ShipManagementContext

    constructor (context: ShipManagementContext)
      ensures this.context == context
    {
      this.context := context;
    }

    /** CreateShipAsync: a duplicate ShipCode throws DuplicateShipCode and adds nothing;
        otherwise one ship with the request's values, the next identity value, Heading 0 and
        UpdatedAt now is appended, and its columns are returned. */
    method CreateShip(request: CreateShipRequest, now: int) returns (r: Result<ShipResponse>)
      requires context.Valid()
      modifies context`ships, context`nextShipId
      ensures context.Valid()
      ensures ShipWithCode(old(context.ships), request.shipCode).Some? ==>
        && r == Err(DuplicateShipCodeException(DuplicateShipCodeMessage(request.shipCode)))
        && context.ships == old(context.ships) && context.nextShipId == old(context.nextShipId)
      ensures ShipWithCode(old(context.ships), request.shipCode).None? ==>
        var ship := Ship(old(context.nextShipId), request.shipCode, request.name, request.velocity,
                         request.latitude, request.longitude, 0, now);
        && context.ships == old(context.ships) + [ship]
        && context.nextShipId == old(context.nextShipId) + 1
        && r == Ok(ShipResponse(ship.id, request.shipCode, request.name, request.velocity,
                                request.latitude, request.longitude, 0))
    {
      if ShipWithCode(context.ships, request.shipCode).Some? {
        return Err(DuplicateShipCodeException(DuplicateShipCodeMessage(request.shipCode)));
      }
      var ship := Ship(context.nextShipId, request.shipCode, request.name, request.velocity,
                       request.latitude, request.longitude, 0, now);
      ghost var ships := context.ships;
      context.ships := context.ships + [ship];
      context.nextShipId := context.nextShipId + 1;
      assert forall a :: 0 <= a < |ships| ==> context.ships[a] == ships[a];
      forall link | link in context.shipUsers ensures HasShip(context.ships, link.0) {
        var a :| 0 <= a < |ships| && ships[a].id == link.0;
        assert context.ships[a] == ships[a];
      }
      return Ok(ToResponse(ship));
    }

    /** AssignUsersToShipAsync: KeyNotFound with the unformatted NOT_ASSIGNED text when no listed
        id names a user, tested before the ship lookup; KeyNotFound "Ship with code ... not
        found." for an unknown ship; otherwise every found user becomes an assignee (a pair
        already present stays single) and one response per found user, in store order, is
        returned. */
    method AssignUsersToShip(userIds: seq<int>, shipCode: string) returns (r: Result<seq<AssignUsersToShipResponse>>)
      requires context.Valid()
      modifies context`shipUsers
      ensures context.Valid()
      ensures UsersWithIds(context.users, userIds) == [] ==>
        r == Err(KeyNotFoundException(NOT_ASSIGNED)) && context.shipUsers == old(context.shipUsers)
      ensures UsersWithIds(context.users, userIds) != [] && ShipWithCode(context.ships, shipCode).None? ==>
        r == Err(KeyNotFoundException(ShipNotFound(shipCode))) && context.shipUsers == old(context.shipUsers)
      ensures UsersWithIds(context.users, userIds) != [] && ShipWithCode(context.ships, shipCode).Some? ==>
        var users := UsersWithIds(context.users, userIds);
        var ship := context.ships[ShipWithCode(context.ships, shipCode).value];
        && context.shipUsers == old(context.shipUsers) + LinksTo(ship.id, users)
        && r.Ok? && |r.value| == |users|
        && forall k :: 0 <= k < |users| ==>
             r.value[k] == AssignUsersToShipResponse(users[k].id, 0, ship.shipCode, ship.name)
    {
      var users := UsersWithIds(context.users, userIds);
      if |users| == 0 {
        return Err(KeyNotFoundException(NOT_ASSIGNED));
      }
      var found := ShipWithCode(context.ships, shipCode);
      if found.None? {
        return Err(KeyNotFoundException(ShipNotFound(shipCode)));
      }
      var ship := context.ships[found.value];
      context.shipUsers := AddLinks(ship.id, users, context.shipUsers);
      forall link | link in LinksTo(ship.id, users)
        ensures HasShip(context.ships, link.0) && HasUser(context.users, link.1)
      {
        AssignedLinks(context.users, userIds, ship.id, link);
      }
      AddLinksKeepsConsistency(context.ships, context.users, old(context.shipUsers), context.nextShipId,
                               context.nextUserId, LinksTo(ship.id, users));
      r := Ok(seq(|users|, k requires 0 <= k < |users| => AssignUsersToShipResponse(users[k].id, 0, ship.shipCode, ship.name)));
    }

    /** UnassignUsersFromShipAsync: KeyNotFound "Ship with code ... not found." for an unknown
        ship; KeyNotFound with the unformatted NOT_ASSIGNED text when none of the listed users
        is assigned to it; otherwise exactly the ship's assignments of listed users are removed
        and every other assignment remains. */
    method UnassignUsersFromShip(userIds: seq<int>, shipCode: string) returns (r: Outcome)
      requires context.Valid()
      modifies context`shipUsers
      ensures context.Valid()
      ensures ShipWithCode(context.ships, shipCode).None? ==>
        r == Threw(KeyNotFoundException(ShipNotFound(shipCode))) && context.shipUsers == old(context.shipUsers)
      ensures ShipWithCode(context.ships, shipCode).Some? ==>
        var ship := context.ships[ShipWithCode(context.ships, shipCode).value];
        if AssignedAndListed(old(context.shipUsers), ship.id, userIds) == {} then
          r == Threw(KeyNotFoundException(NOT_ASSIGNED)) && context.shipUsers == old(context.shipUsers)
        else
          && r == Done
          && (forall link :: link in context.shipUsers <==>
                link in old(context.shipUsers) && !(link.0 == ship.id && link.1 in userIds))
    {
      var found := ShipWithCode(context.ships, shipCode);
      if found.None? {
        return Threw(KeyNotFoundException(ShipNotFound(shipCode)));
      }
      var ship := context.ships[found.value];
      var toRemove := AssignedAndListed(context.shipUsers, ship.id, userIds);
      if toRemove == {} {
        return Threw(KeyNotFoundException(NOT_ASSIGNED));
      }
      var remaining := toRemove;
      while remaining != {}
        invariant remaining <= toRemove
        invariant context.shipUsers == old(context.shipUsers) - (toRemove - remaining)
        decreases remaining
      {
        var link :| link in remaining;
        context.shipUsers := context.shipUsers - {link};
        remaining := remaining - {link};
      }
      return Done;
    }

    /** UpdateShipVelocityAsync: KeyNotFound for an unknown code; otherwise only that ship's
        Velocity changes. */
    method UpdateShipVelocity(shipCode: string, velocity: real) returns (r: Outcome)
      requires context.Valid()
      modifies context`ships
      ensures context.Valid()
      ensures ShipWithCode(old(context.ships), shipCode).None? ==>
        r == Threw(KeyNotFoundException(ShipNotFound(shipCode))) && context.ships == old(context.ships)
      ensures ShipWithCode(old(context.ships), shipCode).Some? ==>
        var i := ShipWithCode(old(context.ships), shipCode).value;
        r == Done && context.ships == old(context.ships)[i := old(context.ships)[i].(velocity := velocity)]
    {
      var found := ShipWithCode(context.ships, shipCode);
      if found.None? {
        return Threw(KeyNotFoundException(ShipNotFound(shipCode)));
      }
      var i := found.value;
      ghost var ships := context.ships;
      context.ships := context.ships[i := context.ships[i].(velocity := velocity)];
      forall link | link in context.shipUsers ensures HasShip(context.ships, link.0) {
        var a :| 0 <= a < |ships| && ships[a].id == link.0;
        assert context.ships[a].id == ships[a].id;
      }
      return Done;
    }

    /** GetClosestPortAsync: KeyNotFound "Ship with code ... not found." for an unknown ship;
        KeyNotFound NO_PORTS_AVAILABLE for an empty port list; otherwise the ship, the first
        port at the least distance, that distance and the travel time at the ship's velocity. */
    function GetClosestPort(dist: PortService.Distance, travel: PortService.TravelTime, shipCode: string)
      : (r: Result<ShipClosestPortResponse>)
      reads context
      ensures ShipWithCode(context.ships, shipCode).None? ==> r == Err(KeyNotFoundException(ShipNotFound(shipCode)))
      ensures ShipWithCode(context.ships, shipCode).Some? && context.ports == [] ==>
        r == Err(KeyNotFoundException(NO_PORTS_AVAILABLE))
      ensures r.Ok? <==> ShipWithCode(context.ships, shipCode).Some? && context.ports != []
      ensures r.Ok? ==>
        var ship := context.ships[ShipWithCode(context.ships, shipCode).value];
        exists p :: && PortService.IsFirstMinimum(PortService.Distances(dist, ship.latitude, ship.longitude, context.ports), p)
                    && var port := context.ports[p];
                       var d := dist(ship.latitude, ship.longitude, port.latitude, port.longitude);
                       r.value == ShipClosestPortResponse(ship.shipCode, ship.name, ship.latitude, ship.longitude,
                                                          ship.velocity, port.name, port.latitude, port.longitude,
                                                          port.country, d, travel(d, ship.velocity))
    {
      match ShipWithCode(context.ships, shipCode)
      case None => Err(KeyNotFoundException(ShipNotFound(shipCode)))
      case Some(i) =>
        var ship := context.ships[i];
        if context.ports == [] then Err(KeyNotFoundException(NO_PORTS_AVAILABLE))
        else
          var ds := PortService.Distances(dist, ship.latitude, ship.longitude, context.ports);
          var p := PortService.FirstMinimumIndex(ds);
          var port := context.ports[p];
          Ok(ShipClosestPortResponse(ship.shipCode, ship.name, ship.latitude, ship.longitude, ship.velocity,
                                     port.name, port.latitude, port.longitude, port.country,
                                     ds[p], travel(ds[p], ship.velocity)))
    }

    /** GetUnassignedShipAsync: the ships without any assigned user, each once, in store
        order. */
    function GetUnassignedShips(): (r: seq<ShipResponse>)
      reads context
      ensures var idx := FilterIndices(context.ships, NoAssignee(context.shipUsers));
        |r| == |idx| && forall k :: 0 <= k < |r| ==> r[k] == ToResponse(context.ships[idx[k]])
    {
      var ships := UnassignedShips(context.ships, context.shipUsers);
      seq(|ships|, k requires 0 <= k < |ships| => ToResponse(ships[k]))
    }

    /** DeleteShipAsync: false and nothing changed for an unknown id; otherwise the ship and, by
        the cascading foreign key, its assignments are removed, and true is returned. */
    method DeleteShip(id: int) returns (deleted: bool)
      requires context.Valid()
      modifies context`ships, context`shipUsers
      ensures context.Valid()
      ensures deleted <==> HasShip(old(context.ships), id)
      ensures !deleted ==> context.ships == old(context.ships) && context.shipUsers == old(context.shipUsers)
      ensures deleted ==>
        var i := ShipWithId(old(context.ships), id).value;
        && context.ships == old(context.ships)[..i] + old(context.ships)[i + 1..]
        && context.shipUsers == (set link | link in old(context.shipUsers) && link.0 != id)
    {
      var found := ShipWithId(context.ships, id);
      if found.None? {
        return false;
      }
      var i := found.value;
      RemoveShipKeepsConsistency(context.ships, context.users, context.shipUsers, context.nextShipId, context.nextUserId, i);
      context.shipUsers := set link | link in context.shipUsers && link.0 != id;
      context.ships := context.ships[..i] + context.ships[i + 1..];
      return true;
    }
  }

  /** The two closest-port lookups agree: for a ship found by its id in PortService and by its
      code in ShipService they choose the same port at the same distance, except that on an
      empty port list PortService returns null while ShipService throws. */
  lemma ClosestPortLookupsAgree(ships: ShipService, ports: PortService.PortService,
                                dist: PortService.Distance, travel: PortService.TravelTime, i: nat)
    requires ships.context == ports.context && ships.context.Valid()
    requires i < |ships.context.ships|
    ensures var ship := ships.context.ships[i];
      && (ships.context.ports == [] ==>
            && ports.GetClosestPort(dist, ship.id) == Ok(None)
            && ships.GetClosestPort(dist, travel, ship.shipCode) == Err(KeyNotFoundException(NO_PORTS_AVAILABLE)))
      && (ships.context.ports != [] ==>
            && ports.GetClosestPort(dist, ship.id).Ok?
            && ports.GetClosestPort(dist, ship.id).value.Some?
            && var chosen := ports.GetClosestPort(dist, ship.id).value.value;
               var response := ships.GetClosestPort(dist, travel, ship.shipCode);
               && response.Ok?
               && response.value.portName == chosen.port.name
               && response.value.portCountry == chosen.port.country
               && response.value.portLatitude == chosen.port.latitude
               && response.value.portLongitude == chosen.port.longitude
               && response.value.distanceToPort == chosen.distanceKm)
  {
    var ctx := ships.context;
    var ship := ctx.ships[i];
    assert ShipWithId(ctx.ships, ship.id) == Some(i);
    assert ShipWithCode(ctx.ships, ship.shipCode) == Some(i);
    if ctx.ports != [] {
      var ds := PortService.Distances(dist, ship.latitude, ship.longitude, ctx.ports);
      var p := PortService.FirstMinimumIndex(ds);
      var response := ships.GetClosestPort(dist, travel, ship.shipCode);
      var q :| PortService.IsFirstMinimum(ds, q) && response.value.distanceToPort == ds[q] && response.value.portName == ctx.ports[q].name
               && response.value.portCountry == ctx.ports[q].country && response.value.portLatitude == ctx.ports[q].latitude
               && response.value.portLongitude == ctx.ports[q].longitude;
      var c :| PortService.IsFirstMinimum(ds, c) &&
               ports.GetClosestPort(dist, ship.id).value.value == PortService.PortWithDistance(ctx.ports[c], ds[c]);
      PortService.FirstMinimumIsUnique(ds, q, c);
    }
  }
}
