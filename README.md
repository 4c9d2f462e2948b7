# ShipManagement core, modelled in Dafny

ShipManagement is a fleet-tracking REST API (ASP.NET Core, EF Core, RabbitMQ). This project
models its core logic and proves properties of it:

- **Ship-code validation.** `ShipCodeValidation.IsValid` and `ValidShipCodeAttribute`, the list
  validator `ValidShipCodesAttribute`, the look-alike attributes `RequiredValidShipCodeAttribute`
  and `RequiredValidShipIdAttribute`, and the action filter `ShipCodeFilterAttribute`. The
  pattern `^AE-\d{3}$` is matched with .NET semantics:
  - without Multiline, `$` also matches before one final `'\n'`;
  - `\d` is any Unicode decimal digit of the Basic Multilingual Plane;
  - `char.IsWhiteSpace` and `string.IsNullOrWhiteSpace` are written out.
- **Longitude normalisation.** The two loops of `ShipPositionCalculator.CalculateNewPosition`, as
  a method with loop invariants, proved equal to a closed form `Normalized`. Further lemmas prove
  its bounds, that it removes whole turns, its fixed points and its idempotence.
- **Closest port.** `PortService.GetClosestPortAsync` and `GetEstimatedArrivalAsync`, and
  `ShipService.GetClosestPortAsync`. `OrderBy(...).First()` is the stable arg-min: the first
  port at the least distance.
- **The store operations.** These are the methods of `ShipService` and `UserService` over an
  in-memory `ShipManagementContext`:
  - the Ships and Users tables, as sequences;
  - the `ShipUser` join table, as a set of `(ShipsId, UsersId)` pairs;
  - the Ports table;
  - the next identity values.

  Its invariant `Valid()` holds:
  - the primary keys;
  - the unique indexes on `Ships.ShipCode` and `Users.Name`;
  - the positive identity values;
  - the join table's foreign keys.

  Every operation keeps `Valid()`. Every throw happens before `SaveChangesAsync`, so an
  operation that throws leaves the store as it was.
- **The position simulator** (`ShipSimulatorService`).
  - One tick moves every ship, saves, publishes one message per ship (a failed publish is
    skipped), and then commits. A step that throws rolls the transaction back and rethrows.
  - The background loop runs ticks until cancellation. Other exceptions are logged and the loop
    continues.
  - What the service does is recorded as a trace of events, proved equal to reference functions
    (`TickEvents`, `RoundEvents`).
- **The error middleware** (`ErrorHandlerMiddleware`). The first arm matching the exception's
  classes decides the HTTP status and message. The response then gets `application/json`, that
  status, and a body `{ error = message }`.

The model is split into these parts:
- the .NET string and regex semantics the validators rely on: `DotNetText`, `DotNetRegex`;
- the LINQ shapes used (`FirstOrDefault`, `Where`): `Collections`;
- exceptions as values: `Exceptions`;
- the message texts: `Messages`.

Trigonometry, the haversine distance and the travel-time division are function-typed
parameters (`Projection`, `Distance`, `TravelTime`). The wall clock is a parameter `now` (for
the loop, `clock`). The random message id is any value in `[1, int.MaxValue - 1]`. The broker,
the database transaction and the cancellation token become a description of which steps fail
(`TickFaults`, `Round`).

## Model

| member | source | states |
|---|---|---|
| Collections.FirstIndex | ShipManagement/Services/ShipService.cs:25 | the index FirstOrDefault picks: none exactly when no element satisfies the predicate, else the earliest that does |
| Collections.Filter | ShipManagement/Services/ShipService.cs:126 | Where keeps the elements satisfying the predicate in their input order, each as often as it occurs: the k-th result is the input element at the k-th selected position; every result satisfies the predicate and every satisfying element is kept |
| Collections.FilterIndices | ShipManagement/Services/ShipService.cs:126 | the positions Where selects: increasing, each once, every one satisfying the predicate, and every satisfying position included |
| Collections.OrderedSelectionUnique | ShipManagement/Services/ShipService.cs:126 | any increasing list of exactly the satisfying positions is FilterIndices, so the order and multiplicity of Where's result are determined |
| DotNetText.DigitChar | ShipManagement/Services/UserService.cs:79 | '0'..'9' is the ASCII digit of value d and a decimal digit for \d |
| DotNetText.NatToString | ShipManagement/Services/UserService.cs:79 | the rendering of a number is non-empty, all ASCII digits, and starts with '0' only for 0 |
| DotNetText.NatToStringRoundTrip | ShipManagement/Services/UserService.cs:79 | reading the rendered digits back yields the number |
| DotNetRegex.MatchAtomsCharacterised | ShipManagement/Models/Attributes/ValidShipCodeAttribute.cs:19 | an anchored fixed-width pattern matches exactly the inputs of its length, or one longer with a final '\n', whose characters match position by position |
| ShipCodeValidation.ShipCodePatternMeaning | ShipManagement/Models/Attributes/ValidShipCodeAttribute.cs:19 | `^AE-\d{3}$` accepts exactly "AE-", three decimal digits and optionally one final '\n' |
| ShipCodeValidation.IsValid | ShipManagement/Models/Attributes/ValidShipCodeAttribute.cs:23-37 | the message is empty exactly when the result is true; true exactly for a string that is a ship code; null or blank ToString gives REQUIRED_MESSAGE; any other rejection gives PATTERN_MESSAGE |
| ShipCodeValidation.ValidShipCodeAttribute | ShipManagement/Models/Attributes/ValidShipCodeAttribute.cs:7-14 | Success exactly when IsValid accepts; otherwise an error carrying IsValid's non-empty message |
| ShipCodeValidation.AttributeTestCases | ShipManagement.Tests/Attributes/ValidShipCodeAttributeTest.cs:7-22 | "AE-001" and "AE-002" pass; "INVALID CODE", "123" and "!@#$%" fail |
| ShipCodeValidation.DotNetRegexSemantics | ShipManagement/Models/Attributes/ValidShipCodeAttribute.cs:19 | one trailing '\n' is accepted, two or a trailing space are not; Arabic-Indic digits satisfy \d, a letter does not |
| ShipCodeValidation.NonStringIsRejected | ShipManagement/Models/Attributes/ValidShipCodeAttribute.cs:30-36 | a non-string whose ToString() is a ship code is rejected with PATTERN_MESSAGE |
| ValidShipCodes.IsValidValue | ShipManagement/Models/Attributes/ValidShipCodesAttribute.cs:8-23 | a non-enumerable value (null included) gives "Invalid ship codes list."; Success exactly when every element passes IsValid; otherwise the message names the first failing element with its own error |
| ValidShipCodes.ListVerdict | ShipManagement/Models/Attributes/ValidShipCodesAttribute.cs:15-22 | the empty list passes; a list of strings passes exactly when each is a ship code |
| ValidShipCodes.FirstFailureReported | ShipManagement/Models/Attributes/ValidShipCodesAttribute.cs:15-20 | after a valid code, the first invalid one is the one reported, whatever follows |
| ValidShipCodes.BareString | ShipManagement/Models/Attributes/ValidShipCodesAttribute.cs:10-17 | a bare string is enumerated by characters: "" passes, any other string fails on its first character |
| RequiredValidShipCode.IsValidValue | ShipManagement/Models/Attributes/RequiredValidShipCodeAttribute.cs:10-23 | null or blank gives "Ship code is required."; Success exactly for a ship-code string; otherwise the pattern message |
| RequiredValidShipCode.SameAsValidShipCode | ShipManagement/Models/Attributes/RequiredValidShipCodeAttribute.cs:8-22 | the attribute gives exactly ValidShipCodeAttribute's result on every value |
| RequiredValidShipId.IsValidValue | ShipManagement/Models/Attributes/RequiredValidShipIdAttribute.cs:10-23 | null or blank gives "Ship ID is required."; Success exactly for a ship-code string; otherwise the "Ship ID must follow ..." message |
| RequiredValidShipId.SameVerdictAsRequiredValidShipCode | ShipManagement/Models/Attributes/RequiredValidShipIdAttribute.cs:8-22 | accepts exactly what RequiredValidShipCodeAttribute accepts; only the message wording differs |
| ShipCodeFilter.OnActionExecuting | ShipManagement/Models/Filters/ShipCodeFilterAttribute.cs:9-23 | no "shipCode" argument: BadRequest(REQUIRED_MESSAGE); an invalid one: BadRequest with IsValid's message (REQUIRED_MESSAGE when null or blank); a valid one: Result untouched |
| ShipPositionCalculator.NormalizedBounds | ShipManagement/Helpers/ShipPositionCalculator.cs:48-49 | the normalised longitude lies in [-180, 180] (in (-180, 180] coming from above, [-180, 180) from below) |
| ShipPositionCalculator.NormalizedFixesRange | ShipManagement/Helpers/ShipPositionCalculator.cs:48-49 | a longitude in [-180, 180], endpoints included, is unchanged |
| ShipPositionCalculator.NormalizedIsWholeTurns | ShipManagement/Helpers/ShipPositionCalculator.cs:48-49 | the change is an integer multiple of 360 |
| ShipPositionCalculator.NormalizedIdempotent | ShipManagement/Helpers/ShipPositionCalculator.cs:48-49 | normalising twice equals normalising once |
| ShipPositionCalculator.NormalizedAntimeridian | ShipManagement/Helpers/ShipPositionCalculator.cs:48-49 | 540 stays at 180 and -540 at -180; 190 becomes -170 and -190 becomes 170 |
| ShipPositionCalculator.TurnsUnique | ShipManagement/Helpers/ShipPositionCalculator.cs:48-49 | the number of turns the loops remove is the only one landing where the loops stop |
| ShipPositionCalculator.NormalizeLongitude | ShipManagement/Helpers/ShipPositionCalculator.cs:48-49 | the two loops terminate and return Normalized(longitude), within [-180, 180] |
| ShipPositionCalculator.CalculateNewPosition | ShipManagement/Helpers/ShipPositionCalculator.cs:10-52 | the latitude is the projection's, unclamped; the longitude is the projection's, normalised into [-180, 180] |
| Data.ShipManagementContext.constructor | ShipManagement/Data/ShipManagementContext.cs:46-48 | an empty database with the given ports satisfies the schema's constraints |
| Data.AddLinksKeepsConsistency | ShipManagement/Migrations/20250724025346_UseEfCoreManyToMany.cs:26 | adding join rows between existing ships and users keeps the constraints |
| Data.RemoveShipKeepsConsistency | ShipManagement/Services/ShipService.cs:212-220 | removing a ship with its join rows (cascade) keeps the constraints |
| Data.RemoveUserKeepsConsistency | ShipManagement/Services/UserService.cs:136-145 | removing a user with its join rows (cascade) keeps the constraints |
| PortService.FirstMinimumIsUnique | ShipManagement/Services/PortService.cs:35-36 | at most one index is the first minimum |
| PortService.FirstMinimumIndex | ShipManagement/Services/PortService.cs:35-36 | the chosen index has the least distance, and every earlier index a strictly greater one |
| PortService.ClosestPort | ShipManagement/Services/PortService.cs:27-36 | null exactly for no ports; otherwise a port of the list at the first least distance, with that distance |
| PortService.ClosestPortExamples | ShipManagement/Services/PortService.cs:27-36 | at distances 100, 50, 200 the second port wins; with two possibly different ports tied at 50 km before one at 200 km, the first of the two wins |
| PortService.PortService.GetClosestPort | ShipManagement/Services/PortService.cs:18-39 | KeyNotFound "Ship not found" exactly for an unknown id; null exactly for no ports; otherwise the closest port to that ship; the store is only read |
| PortService.PortService.GetEstimatedArrival | ShipManagement/Services/PortService.cs:41-64 | KeyNotFound "Ship not found" for an unknown id, "No ports found" for no ports; otherwise the ship, the same port and distance GetClosestPort gives, and the travel time at its velocity |
| ShipService.AssignedLinks | ShipManagement/Services/ShipService.cs:53-69 | the rows assignment adds are exactly the ship paired with each listed id of an existing user |
| ShipService.AddLinks | ShipManagement/Services/ShipService.cs:63-69 | the loop adds exactly the pairs of the ship with each user, each once |
| ShipService.ShipService.CreateShip | ShipManagement/Services/ShipService.cs:23-49 | a duplicate code throws DuplicateShipCode and changes nothing; otherwise exactly one ship with the request's values and a fresh id is appended and returned |
| ShipService.ShipService.AssignUsersToShip | ShipManagement/Services/ShipService.cs:51-77 | no existing user: KeyNotFound, even when the ship is missing too; unknown ship: KeyNotFound; otherwise the rows become the old rows plus the found users, without duplicates, and one response per found user |
| ShipService.ShipService.UnassignUsersFromShip | ShipManagement/Services/ShipService.cs:79-96 | unknown ship, or no listed user assigned: KeyNotFound and nothing changed; otherwise exactly the ship's rows of listed users go and every other row stays |
| ShipService.ShipService.UpdateShipVelocity | ShipManagement/Services/ShipService.cs:155-165 | unknown code: KeyNotFound and nothing changed; otherwise only that ship's Velocity changes |
| ShipService.ShipService.GetClosestPort | ShipManagement/Services/ShipService.cs:167-210 | unknown ship or no ports: KeyNotFound with its message; otherwise the ship, the first port at least distance, that distance and the travel time |
| ShipService.ShipService.GetUnassignedShips | ShipManagement/Services/ShipService.cs:123-137 | the ships with no assigned user, each once and in store order, projected to ShipResponse |
| ShipService.ShipService.DeleteShip | ShipManagement/Services/ShipService.cs:212-220 | false and nothing changed exactly for an unknown id; otherwise the ship and its rows are removed |
| ShipService.ClosestPortLookupsAgree | ShipManagement/Services/ShipService.cs:175-190 | both services choose the same port at the same distance; on no ports PortService returns null while ShipService throws |
| UserService.UserResponse | ShipManagement/Services/UserService.cs:93-109 | the user's id, name, role, CreatedAt and UpdatedAt, and the ships assigned to the user, each once and in store order |
| UserService.CodedLinksMeaning | ShipManagement/Services/UserService.cs:82-89 | the rows assignment adds are exactly the user paired with each ship whose code is listed; unknown codes add nothing |
| UserService.CodedLinksReferToShips | ShipManagement/Services/UserService.cs:82-89 | every such row names an existing ship and the user |
| UserService.FirstUnknownCodeAt | ShipManagement/Services/UserService.cs:120-126 | the first listed code naming no ship is the one the loop stops at |
| UserService.AddCodedLinks | ShipManagement/Services/UserService.cs:82-89 | the loop adds the user's pair with every listed existing ship, each once |
| UserService.RemoveCodedLinks | ShipManagement/Services/UserService.cs:120-131 | an unknown code throws KeyNotFound naming the first one; otherwise exactly the user's pairs with the listed ships are removed |
| UserService.UserService.CreateUser | ShipManagement/Services/UserService.cs:5-25 | a taken name throws DuplicateUserName and changes nothing; otherwise one user with the name, the role, a fresh id and both timestamps at the current time is appended, and the id returned |
| UserService.UserService.GetUserById | ShipManagement/Services/UserService.cs:50-72 | null exactly for an unknown id; otherwise that user's id, name, role, CreatedAt and UpdatedAt, and its assigned ships, each once and in store order |
| UserService.UserService.AssignShipsToUser | ShipManagement/Services/UserService.cs:74-110 | unknown user: KeyNotFound and nothing changed; otherwise the rows gain exactly the listed existing ships and contain them afterwards, so a repeated call adds nothing; the user is returned |
| UserService.UserService.UnassignShipsFromUser | ShipManagement/Services/UserService.cs:112-134 | unknown user or any unknown code: KeyNotFound and nothing saved; otherwise the listed ships are unassigned and every other row stays |
| UserService.UserService.DeleteUser | ShipManagement/Services/UserService.cs:136-145 | false and nothing changed exactly for an unknown id; otherwise the user and its rows are removed |
| ShipSimulator.TickOutcome | ShipManagement/Services/ShipSimulatorService.cs:35-100 | the tick ends normally exactly when begin, load, save and commit all succeed; otherwise it throws the first failing step's exception, or the rollback's own when that step was inside the try and the rollback throws too |
| ShipSimulator.SaveFailurePublishesNothing | ShipManagement/Services/ShipSimulatorService.cs:73-99 | a failing save publishes nothing and rolls back; after a good load it rethrows the save's exception, or the rollback's when the rollback throws |
| ShipSimulator.PublishesBetweenSaveAndCommit | ShipManagement/Services/ShipSimulatorService.cs:73-98 | every publish comes after a successful save and before the commit or rollback that ends the transaction |
| ShipSimulator.EveryMessageAttempted | ShipManagement/Services/ShipSimulatorService.cs:76-91 | after a save, every message is attempted in order, whether or not earlier ones failed |
| ShipSimulator.CommittedIffDone | ShipManagement/Services/ShipSimulatorService.cs:91-99 | the transaction is committed exactly when the tick does not throw |
| ShipSimulator.ErrorIsLoggedAndLoopContinues | ShipManagement/Services/ShipSimulatorService.cs:12-27 | a non-cancellation exception is logged, the loop goes on, and no delay follows it |
| ShipSimulator.PrepareUpdates | ShipManagement/Services/ShipSimulatorService.cs:43-70 | every ship moved, in order, and one message per ship in load order with an id in [1, int.MaxValue - 1] |
| ShipSimulator.TickChangesOnlyPosition | ShipManagement/Services/ShipSimulatorService.cs:53-55 | a tick keeps each ship's id, code, name, velocity and heading, sets UpdatedAt, and leaves the longitude in [-180, 180] |
| ShipSimulator.MessageDescribesMovedShip | ShipManagement/Services/ShipSimulatorService.cs:58-69 | each message carries the moved ship's code, position, velocity and heading, the tick's time, an id in range, and the key "ship.position." + code |
| ShipSimulator.ContinuesMeaning | ShipManagement/Services/ShipSimulatorService.cs:12 | the loop ran past n turns exactly when none of them ended it |
| ShipSimulator.TurnsOfAt | ShipManagement/Services/ShipSimulatorService.cs:12-27 | the t-th turn's events are RoundEvents of that turn |
| ShipSimulator.ShipSimulatorService.PublishAll | ShipManagement/Services/ShipSimulatorService.cs:76-88 | the trace gains exactly PublishEvents of the messages |
| ShipSimulator.ShipSimulatorService.SimulateShipMovements | ShipManagement/Services/ShipSimulatorService.cs:30-101 | the outcome is TickOutcome and the trace gains TickEvents; when begin and load succeed, one message per loaded ship; the moved ships are stored exactly when it commits, else the store is unchanged |
| ShipSimulator.ShipSimulatorService.SaveAndPublish | ShipManagement/Services/ShipSimulatorService.cs:73-99 | save, publish, commit: the outcome and trace of the tick; the moved ships are kept only on commit |
| ShipSimulator.ShipSimulatorService.RunRound | ShipManagement/Services/ShipSimulatorService.cs:12-26 | whether the turn ends the loop is RoundEnds, and the trace gains RoundEvents |
| ShipSimulator.ShipSimulatorService.ExecuteAsync | ShipManagement/Services/ShipSimulatorService.cs:9-28 | the loop stops at the first turn that ends it (cancellation), runs every earlier turn, and the trace is the turns' RoundEvents concatenated |
| ShipSimulator.MovedKeepsConsistency | ShipManagement/Services/ShipSimulatorService.cs:53-55 | moving every ship keeps the schema's constraints |
| ErrorHandler.StatusAndMessage | ShipManagement/Middlewares/ErrorHandlerMiddleware.cs:18-27 | the first matching arm wins: 404, 401, 400, 400, 409, 409 in switch order, else 500; each status comes with its arm's text ("Resource not found.", "Access denied.", "Invalid request parameters." or the InvalidOperation's own message, "Ship code already exists." or "User name already exists.", "An unexpected error occurred.") |
| ErrorHandler.ServiceErrorsMapped | ShipManagement/Middlewares/ErrorHandlerMiddleware.cs:20-25 | KeyNotFound gives 404 "Resource not found."; duplicate code and name give 409 with their fixed texts |
| ErrorHandler.InvokeAsync | ShipManagement/Middlewares/ErrorHandlerMiddleware.cs:8-33 | no exception: the response is untouched; otherwise application/json, the switch's status and one body holding its message |

## Left out

- Floating point: the dead-reckoning trigonometry, the haversine distance (DistanceCalculator.cs)
  and the ETA division are parameters. The decimal↔double casts and their NaN and overflow
  cases are not modelled. The database stores a velocity with two fraction digits
  (`HasPrecision(10, 2)`, so 12.345 is read back as 12.35) and a position with eight; the model
  keeps the exact `real` that CreateShip, UpdateShipVelocity and the tick write.
- `DateTime.UtcNow`, `DateTime.AddHours` and the EstimatedArrivalTime fields: the time is an
  integer parameter, and one instant `now` stands for every UtcNow read of a whole tick.
- `Random.Shared`: any message id in [1, int.MaxValue - 1].
- RabbitMQ: a publish either throws or delivers (`publishFails`). The connection set-up is left
  out, and so is Redis caching.
- EF Core: change tracking, `Include`, and the transaction as a DB object. A database-side
  unique-index failure (the `Ships.Name` index), which no service checks, is not modelled.
  `BeginTransactionAsync` sits outside the tick's try, so its failure throws with no rollback;
  that part is modelled.
- async/await, `Task.Delay`, DI scopes and logging: only what happens and in which order is
  kept (`Delayed`, `ErrorLogged`).
- JSON serialisation of messages and of the error body: the body is the value
  `ErrorBody(message)`, with no escaping.
- Response headers already sent, and exceptions thrown by the middleware's own writes, are not
  modelled.
- ExecuteAsync: `Task.Delay` sits in the same try as the tick, so a tick that throws is
  followed at once by the next one; the model follows the code.
- ShipService.ShipService.AssignUsersToShip: NOT_ASSIGNED is thrown unformatted (`{0}` and `{1}`
  stay in the text); UserService formats it with the id and "N/A". Both are modelled as written.
- UserService.UserService.CreateUser: the exception's message comes from
  `Messages.User.DUPLICATE_NAME`, a constant that Messages.cs does not declare. The model uses
  the name alone as that message. The middleware never shows it.
- UserService.UserService.CreateUser: the two `DateTime.UtcNow` defaults of User.cs are taken as
  one instant, the `now` parameter.
- The base class of DuplicateShipCodeException and DuplicateUserNameException is not part of
  this model: each is an instance of its own class only.
- ShipService.ShipService.AssignUsersToShip: the responses follow the store order of the
  users; ShipId is never set and stays 0.
- Not core, so not modelled: GetShipsAsync, GetShipByCodeAsync, GetUnAssignedShipsAsync,
  GetUsersAsync and `CalculateDistanceFromLastPosition`. The controllers, Program.cs (which never
  registers the middleware), migrations and seed data, and the stale declarations in Ship.cs
  and IShipService.cs are left out too.
- The range attributes of the request DTOs are not modelled as preconditions: the services do
  not check them.
- Strings are sequences of Unicode scalar values, while .NET strings are UTF-16. The verdicts are
  the same, because no surrogate is white space, a digit or a pattern literal. When a bare string
  is enumerated, however, a character outside the BMP is one element here and two in .NET.
- A ship's CreatedAt column is not kept, because no core operation reads it. Users keep both
  CreatedAt and UpdatedAt, which GetUserById and AssignShipsToUser return.
- UserService.UserService.AssignShipsToUser: the returned ships are listed in store order. The
  source returns the ships `Include` loaded, in the database's order, followed by the newly
  added ones in shipCodes order.
- ShipService.ShipService.CreateShip: the new ship's UpdatedAt is taken to be the `now`
  parameter, the entity's creation time.
