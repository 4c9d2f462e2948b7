/** UserService (UserService.cs) over the in-memory store. As in ShipService, every throw comes
    before SaveChangesAsync, so a thrown error leaves the store as it was. */
module UserService {
  import opened Collections
  import opened Exceptions
  import opened Data
  import opened Messages

  /** UserDetailsRequest. */
  datatype UserDetailsRequest = UserDetailsRequest(name: string, role: string)

  /** GetUserResponse. */
  datatype GetUserResponse = GetUserResponse(id: int, name: string, role: string, createdAt: int, updatedAt: int,
                                             assignedShips: seq<ShipResponse>)

  /** Whether a ship is one of the user's (a row of ShipUser pairs them). */
  function AssignedTo(shipUsers: set<(int, int)>, userId: int): Ship -> bool {
    (s: Ship) => (s.id, userId) in shipUsers
  }

  /** `u.Ships`: the ships assigned to the user, in store order. */
  function AssignedShips(ships: seq<Ship>, shipUsers: set<(int, int)>, userId: int): seq<Ship> {
    Filter(ships, AssignedTo(shipUsers, userId))
  }

  /** A user with the `Ships.Select(s => new ShipResponse ...)` projection of its ships: its
      columns, and each ship assigned to it once, in store order. */
  function UserResponse(user: User, ships: seq<Ship>, shipUsers: set<(int, int)>): (r: GetUserResponse)
    ensures r.id == user.id && r.name == user.name && r.role == user.role
    ensures r.createdAt == user.createdAt && r.updatedAt == user.updatedAt
    ensures var idx := FilterIndices(ships, AssignedTo(shipUsers, user.id));
      |r.assignedShips| == |idx| && forall k :: 0 <= k < |idx| ==> r.assignedShips[k] == ToResponse(ships[idx[k]])
  {
    var linked := AssignedShips(ships, shipUsers, user.id);
    var responses := seq(|linked|, k requires 0 <= k < |linked| => ToResponse(linked[k]));
    GetUserResponse(user.id, user.name, user.role, user.createdAt, user.updatedAt, responses)
  }

  /** The rows the assignment loop adds for a user: for each listed code that names a ship,
      the pair of that ship and the user. */
  function CodedLinks(ships: seq<Ship>, shipCodes: seq<string>, userId: int): set<(int, int)> {
    set k | 0 <= k < |shipCodes| && ShipWithCode(ships, shipCodes[k]).Some? ::
      (ships[ShipWithCode(ships, shipCodes[k]).value].id, userId)
  }

  lemma CodedLinksExtend(ships: seq<Ship>, shipCodes: seq<string>, userId: int, k: nat)
    requires k < |shipCodes|
    ensures ShipWithCode(ships, shipCodes[k]).None? ==>
      CodedLinks(ships, shipCodes[..k + 1], userId) == CodedLinks(ships, shipCodes[..k], userId)
    ensures ShipWithCode(ships, shipCodes[k]).Some? ==>
      CodedLinks(ships, shipCodes[..k + 1], userId) ==
      CodedLinks(ships, shipCodes[..k], userId) + {(ships[ShipWithCode(ships, shipCodes[k]).value].id, userId)}
  {
    assert forall j :: 0 <= j < k ==> shipCodes[..k + 1][j] == shipCodes[..k][j];
    assert shipCodes[..k + 1][k] == shipCodes[k];
  }

  /** With ship codes unique, the rows CodedLinks names are exactly the pairs of the user with
      a ship whose code is listed: codes that name no ship contribute nothing. */
  lemma CodedLinksMeaning(ships: seq<Ship>, shipCodes: seq<string>, userId: int, link: (int, int))
    requires forall i, j :: 0 <= i < j < |ships| ==> ships[i].shipCode != ships[j].shipCode
    ensures link in CodedLinks(ships, shipCodes, userId) <==>
      link.1 == userId && exists i :: 0 <= i < |ships| && ships[i].id == link.0 && ships[i].shipCode in shipCodes
  {
    if link.1 == userId && exists i :: 0 <= i < |ships| && ships[i].id == link.0 && ships[i].shipCode in shipCodes {
      var i :| 0 <= i < |ships| && ships[i].id == link.0 && ships[i].shipCode in shipCodes;
      var k :| 0 <= k < |shipCodes| && shipCodes[k] == ships[i].shipCode;
      var found := ShipWithCode(ships, shipCodes[k]);
      assert found.Some?;
      assert ships[found.value].shipCode == ships[i].shipCode;
      if found.value < i { assert false; }
      if found.value > i { assert false; }
    }
  }

  /** Every row CodedLinks names pairs an existing ship with the user. */
  lemma CodedLinksReferToShips(ships: seq<Ship>, shipCodes: seq<string>, userId: int)
    ensures forall link :: link in CodedLinks(ships, shipCodes, userId) ==> link.1 == userId && HasShip(ships, link.0)
  {
    forall link | link in CodedLinks(ships, shipCodes, userId) ensures link.1 == userId && HasShip(ships, link.0) {
      var k :| 0 <= k < |shipCodes| && ShipWithCode(ships, shipCodes[k]).Some? &&
               link == (ships[ShipWithCode(ships, shipCodes[k]).value].id, userId);
      var i := ShipWithCode(ships, shipCodes[k]).value;
      assert ships[i].id == link.0;
    }
  }

  /** The position of the first listed code that names no ship, if any. */
  function FirstUnknownCode(ships: seq<Ship>, shipCodes: seq<string>): Option<nat> {
    FirstIndex(shipCodes, (c: string) => ShipWithCode(ships, c).None?)
  }

  lemma FirstUnknownCodeAt(ships: seq<Ship>, shipCodes: seq<string>, k: nat)
    requires k < |shipCodes| && ShipWithCode(ships, shipCodes[k]).None?
    requires forall j :: 0 <= j < k ==> ShipWithCode(ships, shipCodes[j]).Some?
    ensures FirstUnknownCode(ships, shipCodes) == Some(k)
  {
    var first := FirstUnknownCode(ships, shipCodes);
    assert first.Some?;
  }

  /** The foreach of AssignShipsToUserSync on the user's rows: the pair of the user and each
      listed ship that exists is added, once. */
  method AddCodedLinks(ships: seq<Ship>, shipCodes: seq<string>, userId: int, links: set<(int, int)>)
    returns (result: set<(int, int)>)
    ensures result == links + CodedLinks(ships, shipCodes, userId)
  {
    result := links;
    var k := 0;
    while k < |shipCodes|
      invariant 0 <= k <= |shipCodes|
      invariant result == links + CodedLinks(ships, shipCodes[..k], userId)
    {
      var ship := ShipWithCode(ships, shipCodes[k]);
      CodedLinksExtend(ships, shipCodes, userId, k);
      if ship.Some? {
        var link := (ships[ship.value].id, userId);
        ghost var before := result;
        if link !in result {
          result := result + {link};
        }
        assert result == before + {link};
        assert result == links + CodedLinks(ships, shipCodes[..k + 1], userId) by {
          UnionAssociative(links, CodedLinks(ships, shipCodes[..k], userId), {link});
        }
      }
      k := k + 1;
    }
    assert shipCodes[..k] == shipCodes;
  }

  /** The foreach of UnassignShipsFromUserAsync on the user's rows: KeyNotFound naming the
      first listed code that names no ship; otherwise the pair of the user and each listed
      ship is removed where present. */
  method RemoveCodedLinks(ships: seq<Ship>, shipCodes: seq<string>, userId: int, links: set<(int, int)>)
    returns (r: Result<set<(int, int)>>)
    ensures FirstUnknownCode(ships, shipCodes).Some? ==>
      r == Err(KeyNotFoundException(ShipNotFound(shipCodes[FirstUnknownCode(ships, shipCodes).value])))
    ensures FirstUnknownCode(ships, shipCodes).None? ==> r == Ok(links - CodedLinks(ships, shipCodes, userId))
  {
    var result := links;
    var k := 0;
    while k < |shipCodes|
      invariant 0 <= k <= |shipCodes|
      invariant result == links - CodedLinks(ships, shipCodes[..k], userId)
      invariant forall j :: 0 <= j < k ==> ShipWithCode(ships, shipCodes[j]).Some?
    {
      var ship := ShipWithCode(ships, shipCodes[k]);
      if ship.None? {
        FirstUnknownCodeAt(ships, shipCodes, k);
        return Err(KeyNotFoundException(ShipNotFound(shipCodes[k])));
      }
      CodedLinksExtend(ships, shipCodes, userId, k);
      var link := (ships[ship.value].id, userId);
      if link in result {
        result := result - {link};
      }
      k := k + 1;
    }
    assert shipCodes[..k] == shipCodes;
    return Ok(result);
  }

  class UserService {
    const context: ShipManagementContext

    constructor (context: ShipManagementContext)
      ensures this.context == context
    {
      this.context := context;
    }

    /** CreateUserAsync: a name already taken throws DuplicateUserName and adds nothing;
        otherwise one user with the requested name and role, the next identity value and both
        timestamps at now is appended, and that id is returned. */
    method CreateUser(request: UserDetailsRequest, now: int) returns (r: Result<int>)
      requires context.Valid()
      modifies context`users, context`nextUserId
      ensures context.Valid()
      ensures UserWithName(old(context.users), request.name).Some? ==>
        && r == Err(DuplicateUserNameException(request.name))
        && context.users == old(context.users) && context.nextUserId == old(context.nextUserId)
      ensures UserWithName(old(context.users), request.name).None? ==>
        && context.users == old(context.users) + [User(old(context.nextUserId), request.name, request.role, now, now)]
        && context.nextUserId == old(context.nextUserId) + 1
        && r == Ok(old(context.nextUserId))
    {
      if UserWithName(context.users, request.name).Some? {
        return Err(DuplicateUserNameException(request.name));
      }
      var user := User(context.nextUserId, request.name, request.role, now, now);
      ghost var users := context.users;
      context.users := context.users + [user];
      context.nextUserId := context.nextUserId + 1;
      assert forall b :: 0 <= b < |users| ==> context.users[b] == users[b];
      forall link | link in context.shipUsers ensures HasUser(context.users, link.1) {
        var b :| 0 <= b < |users| && users[b].id == link.1;
        assert context.users[b] == users[b];
      }
      return Ok(user.id);
    }

    /** GetUserByIdAsync: null for an unknown id; otherwise the user's columns and each ship
        assigned to it once, in store order. */
    function GetUserById(id: int): (r: Option<GetUserResponse>)
      reads context
      ensures r.None? <==> !HasUser(context.users, id)
      ensures r.Some? ==>
        && r.value.id == id
        && (exists j :: && 0 <= j < |context.users| && context.users[j].id == id
                        && r.value.name == context.users[j].name && r.value.role == context.users[j].role
                        && r.value.createdAt == context.users[j].createdAt
                        && r.value.updatedAt == context.users[j].updatedAt)
        && (var idx := FilterIndices(context.ships, AssignedTo(context.shipUsers, id));
            |r.value.assignedShips| == |idx| &&
            forall k :: 0 <= k < |idx| ==> r.value.assignedShips[k] == ToResponse(context.ships[idx[k]]))
    {
      match UserWithId(context.users, id)
      case None => None
      case Some(j) => Some(UserResponse(context.users[j], context.ships, context.shipUsers))
    }

    /** AssignShipsToUserSync: KeyNotFound NOT_ASSIGNED (formatted with the id and "N/A") for an
        unknown user; otherwise every listed code that names a ship gets that ship assigned to
        the user (codes naming no ship are skipped, pairs already present stay single), so a
        second identical call changes nothing; the user with its ships is returned. */
    method AssignShipsToUser(userId: int, shipCodes: seq<string>) returns (r: Result<GetUserResponse>)
      requires context.Valid()
      modifies context`shipUsers
      ensures context.Valid()
      ensures UserWithId(context.users, userId).None? ==>
        r == Err(KeyNotFoundException(UserNotAssigned(userId))) && context.shipUsers == old(context.shipUsers)
      ensures UserWithId(context.users, userId).Some? ==>
        && context.shipUsers == old(context.shipUsers) + CodedLinks(context.ships, shipCodes, userId)
        && CodedLinks(context.ships, shipCodes, userId) <= context.shipUsers
        && r == Ok(UserResponse(context.users[UserWithId(context.users, userId).value], context.ships, context.shipUsers))
    {
      var found := UserWithId(context.users, userId);
      if found.None? {
        return Err(KeyNotFoundException(UserNotAssigned(userId)));
      }
      var user := context.users[found.value];
      // the tracked user's Ships, written back by SaveChangesAsync
      context.shipUsers := AddCodedLinks(context.ships, shipCodes, userId, context.shipUsers);
      CodedLinksReferToShips(context.ships, shipCodes, userId);
      assert HasUser(context.users, userId) by { assert context.users[found.value].id == userId; }
      AddLinksKeepsConsistency(context.ships, context.users, old(context.shipUsers), context.nextShipId,
                               context.nextUserId, CodedLinks(context.ships, shipCodes, userId));
      return Ok(UserResponse(user, context.ships, context.shipUsers));
    }

    /** UnassignShipsFromUserAsync: KeyNotFound NOT_ASSIGNED (formatted with the id and "N/A")
        for an unknown user; KeyNotFound "Ship with code ... not found." naming the first listed
        code that names no ship, with nothing saved; otherwise each listed ship that was
        assigned to the user is unassigned, listed ships that were not are skipped, and every
        other assignment remains. */
    method UnassignShipsFromUser(userId: int, shipCodes: seq<string>) returns (r: Outcome)
      requires context.Valid()
      modifies context`shipUsers
      ensures context.Valid()
      ensures UserWithId(context.users, userId).None? ==>
        r == Threw(KeyNotFoundException(UserNotAssigned(userId))) && context.shipUsers == old(context.shipUsers)
      ensures UserWithId(context.users, userId).Some? && FirstUnknownCode(context.ships, shipCodes).Some? ==>
        && r == Threw(KeyNotFoundException(ShipNotFound(shipCodes[FirstUnknownCode(context.ships, shipCodes).value])))
        && context.shipUsers == old(context.shipUsers)
      ensures UserWithId(context.users, userId).Some? && FirstUnknownCode(context.ships, shipCodes).None? ==>
        r == Done && context.shipUsers == old(context.shipUsers) - CodedLinks(context.ships, shipCodes, userId)
    {
      var found := UserWithId(context.users, userId);
      if found.None? {
        return Threw(KeyNotFoundException(UserNotAssigned(userId)));
      }
      // the tracked user's Ships; only SaveChangesAsync writes them back
      var links := RemoveCodedLinks(context.ships, shipCodes, userId, context.shipUsers);
      if links.Err? {
        return Threw(links.error);
      }
      context.shipUsers := links.value;
      return Done;
    }

    /** DeleteUserAsync: false and nothing changed for an unknown id; otherwise the user and,
        by the cascading foreign key, its assignments are removed, and true is returned. */
    method DeleteUser(id: int) returns (deleted: bool)
      requires context.Valid()
      modifies context`users, context`shipUsers
      ensures context.Valid()
      ensures deleted <==> HasUser(old(context.users), id)
      ensures !deleted ==> context.users == old(context.users) && context.shipUsers == old(context.shipUsers)
      ensures deleted ==>
        var j := UserWithId(old(context.users), id).value;
        && context.users == old(context.users)[..j] + old(context.users)[j + 1..]
        && context.shipUsers == (set link | link in old(context.shipUsers) && link.1 != id)
    {
      var found := UserWithId(context.users, id);
      if found.None? {
        return false;
      }
      var j := found.value;
      RemoveUserKeepsConsistency(context.ships, context.users, context.shipUsers, context.nextShipId, context.nextUserId, j);
      context.shipUsers := set link | link in context.shipUsers && link.1 != id;
      context.users := context.users[..j] + context.users[j + 1..];
      return true;
    }
  }

}
