/** The entities and the database context (ShipManagementContext.cs and the models under
    Models/), with the database replaced by an in-memory store. Timestamps are abstract
    integers; a ship's CreatedAt column, which no core operation reads, is not kept. */
module Data {
  import opened Collections

  /** A row of the Ships table (the columns the core reads or writes). */
  datatype Ship = Ship(id: int, shipCode: string, name: string, velocity: real,
                       latitude: real, longitude: real, heading: int, updatedAt: int)

  /** A row of the Users table. */
  datatype User = User(id: int, name: string, role: string, createdAt: int, updatedAt: int)

  /** A row of the Ports table. */
  datatype Port = Port(id: int, name: string, country: string, latitude: real, longitude: real)

  function ShipWithCode(ships: seq<Ship>, code: string): Option<nat> {
    FirstIndex(ships, (s: Ship) => s.shipCode == code)
  }

  function ShipWithId(ships: seq<Ship>, id: int): Option<nat> {
    FirstIndex(ships, (s: Ship) => s.id == id)
  }

  function UserWithId(users: seq<User>, id: int): Option<nat> {
    FirstIndex(users, (u: User) => u.id == id)
  }

  function UserWithName(users: seq<User>, name: string): Option<nat> {
    FirstIndex(users, (u: User) => u.name == name)
  }

  predicate HasShip(ships: seq<Ship>, id: int) {
    exists i :: 0 <= i < |ships| && ships[i].id == id
  }

  predicate HasUser(users: seq<User>, id: int) {
    exists i :: 0 <= i < |users| && users[i].id == id
  }

  /** The constraints the schema puts on the tables. */
  ghost predicate Consistent(ships: seq<Ship>, users: seq<User>, shipUsers: set<(int, int)>,
                             nextShipId: int, nextUserId: int) {
    // primary keys, and the unique index on Ships.ShipCode
    && (forall i, j :: 0 <= i < j < |ships| ==> ships[i].id != ships[j].id && ships[i].shipCode != ships[j].shipCode)
    // primary key, and the unique index on Users.Name
    && (forall i, j :: 0 <= i < j < |users| ==> users[i].id != users[j].id && users[i].name != users[j].name)
    // identity columns: every key handed out so far is positive and below the next one
    && 0 < nextShipId && 0 < nextUserId
    && (forall i :: 0 <= i < |ships| ==> 0 < ships[i].id < nextShipId)
    && (forall i :: 0 <= i < |users| ==> 0 < users[i].id < nextUserId)
    // the ShipUser join table, keyed by the pair (ShipsId, UsersId), with foreign keys to both tables
    && (forall link :: link in shipUsers ==> HasShip(ships, link.0) && HasUser(users, link.1))
  }

  /** ShipManagementContext: the tables, as the services see them after SaveChangesAsync. */
  class ShipManagementContext {
    var ships: seq<Ship>
    var users: seq<User>
    var shipUsers: set<(int, int)>   // rows (ShipsId, UsersId) of ShipUser
    var ports: seq<Port>
    var nextShipId: int
    var nextUserId: int

    ghost predicate Valid()
      reads this
    {
      Consistent(ships, users, shipUsers, nextShipId, nextUserId)
    }

    /** A database holding only the given ports. */
    constructor (ports: seq<Port>)
      ensures Valid()
      ensures ships == [] && users == [] && shipUsers == {} && this.ports == ports
    {
      ships, users, shipUsers, this.ports := [], [], {}, ports;
      nextShipId, nextUserId := 1, 1;
    }
  }

  /** Adding join rows between existing ships and users keeps the schema's constraints. */
  lemma AddLinksKeepsConsistency(ships: seq<Ship>, users: seq<User>, shipUsers: set<(int, int)>,
                                 nextShipId: int, nextUserId: int, links: set<(int, int)>)
    requires Consistent(ships, users, shipUsers, nextShipId, nextUserId)
    requires forall link :: link in links ==> HasShip(ships, link.0) && HasUser(users, link.1)
    ensures Consistent(ships, users, shipUsers + links, nextShipId, nextUserId)
  {
  }

  /** Removing a ship and, by the cascading foreign key, its join rows keeps the schema's
      constraints. */
  lemma RemoveShipKeepsConsistency(ships: seq<Ship>, users: seq<User>, shipUsers: set<(int, int)>,
                                   nextShipId: int, nextUserId: int, i: nat)
    requires Consistent(ships, users, shipUsers, nextShipId, nextUserId)
    requires i < |ships|
    ensures Consistent(ships[..i] + ships[i + 1..], users,
                       (set link | link in shipUsers && link.0 != ships[i].id), nextShipId, nextUserId)
  {
    var ships' := ships[..i] + ships[i + 1..];
    assert forall a :: 0 <= a < |ships'| ==> ships'[a] == ships[if a < i then a else a + 1];
    forall link | link in shipUsers && link.0 != ships[i].id ensures HasShip(ships', link.0) {
      var a :| 0 <= a < |ships| && ships[a].id == link.0;
      assert ships'[if a < i then a else a - 1] == ships[a];
    }
  }

  /** Removing a user and, by the cascading foreign key, its join rows keeps the schema's
      constraints. */
  lemma RemoveUserKeepsConsistency(ships: seq<Ship>, users: seq<User>, shipUsers: set<(int, int)>,
                                   nextShipId: int, nextUserId: int, j: nat)
    requires Consistent(ships, users, shipUsers, nextShipId, nextUserId)
    requires j < |users|
    ensures Consistent(ships, users[..j] + users[j + 1..],
                       (set link | link in shipUsers && link.1 != users[j].id), nextShipId, nextUserId)
  {
    var users' := users[..j] + users[j + 1..];
    assert forall b :: 0 <= b < |users'| ==> users'[b] == users[if b < j then b else b + 1];
    forall link | link in shipUsers && link.1 != users[j].id ensures HasUser(users', link.1) {
      var b :| 0 <= b < |users| && users[b].id == link.1;
      assert users'[if b < j then b else b - 1] == users[b];
    }
  }
}
