/** ShipSimulatorService (ShipSimulatorService.cs): the background loop that moves every ship
    once per tick and publishes its new position. The database transaction, the message broker
    and the cancellation token are replaced by a description of which steps fail (TickFaults,
    Round); the dead-reckoning trigonometry is a Projection; the wall clock is a parameter. What
    the service does is recorded in a trace of events, in the order it does it. */
module ShipSimulator {
  import opened Collections
  import opened Exceptions
  import opened Data
  import opened ShipPositionCalculator

  /** UPDATE_INTERVAL_SECONDS. */
  const UPDATE_INTERVAL_SECONDS: int := 30

  /** Random.Shared.Next(1, int.MaxValue) returns a value in [1, int.MaxValue - 1]. */
  const MAX_MESSAGE_ID: int := 0x7FFF_FFFE

  /** ShipPositionUpdate. */
  datatype PositionUpdate = PositionUpdate(messageId: int, shipCode: string, latitude: real, longitude: real,
                                           velocity: real, heading: int, timestamp: int)

  /** An entry of the `messages` list: a message and its routing key. */
  datatype Envelope = Envelope(message: PositionUpdate, routingKey: string)

  /** Whether a step of the tick throws, and what. */
  datatype Fault = NoFault | Fails(error: Exception)

  /** The steps of one tick that can throw: BeginTransactionAsync, the ship query, SaveChangesAsync,
      PublishAsync of the k-th message (publishFails(k)), CommitAsync and RollbackAsync. */
  datatype TickFaults = TickFaults(begin: Fault, load: Fault, save: Fault, publishFails: nat -> bool,
                                   commit: Fault, rollback: Fault)

  /** What the service does, in order.
      Saved: SaveChangesAsync succeeded inside the open transaction.
      Published: a PublishAsync attempt, and whether the broker took the message.
      Committed: CommitAsync succeeded.
      RolledBack: RollbackAsync was called, which ends the transaction; it is recorded whether
      or not the rollback itself throws (TickOutcome says which exception then escapes).
      ErrorLogged: the outer loop caught and logged an exception.
      Delayed: the outer loop waited UPDATE_INTERVAL_SECONDS. */
  datatype Event =
    | Saved
    | Published(envelope: Envelope, delivered: bool)
    | Committed
    | RolledBack
    | ErrorLogged(error: Exception)
    | Delayed

  /** The ship after one tick: the projected latitude as is, the projected longitude
      normalised, UpdatedAt set to now; code, name, velocity and heading unchanged. */
  function Moved(project: Projection, ship: Ship, now: int): Ship {
    var p := project(ship.latitude, ship.longitude, ship.velocity, ship.heading, UPDATE_INTERVAL_SECONDS as real);
    ship.(latitude := p.0, longitude := Normalized(p.1), updatedAt := now)
  }

  /** The message prepared for a ship, with the given message id. */
  function Prepared(project: Projection, ship: Ship, now: int, messageId: int): Envelope {
    var moved := Moved(project, ship, now);
    Envelope(PositionUpdate(messageId, ship.shipCode, moved.latitude, moved.longitude, ship.velocity, ship.heading, now),
             "ship.position." + ship.shipCode)
  }

  /** Every ship moved, in order. */
  function MovedShips(project: Projection, ships: seq<Ship>, now: int): seq<Ship> {
    seq(|ships|, k requires 0 <= k < |ships| => Moved(project, ships[k], now))
  }

  /** One message per ship, in order, each with a message id in [1, int.MaxValue - 1]. */
  predicate PreparedFor(project: Projection, ships: seq<Ship>, now: int, prepared: seq<Envelope>) {
    && |prepared| == |ships|
    && forall k :: 0 <= k < |ships| ==>
         && 1 <= prepared[k].message.messageId <= MAX_MESSAGE_ID
         && prepared[k] == Prepared(project, ships[k], now, prepared[k].message.messageId)
  }

  /** One attempt per prepared message, in order. */
  function PublishEvents(envelopes: seq<Envelope>, publishFails: nat -> bool): seq<Event> {
    seq(|envelopes|, k requires 0 <= k < |envelopes| => Published(envelopes[k], !publishFails(k)))
  }

  /** `throw;` after RollbackAsync: the original exception, unless the rollback threw its own. */
  function Rethrown(error: Exception, rollback: Fault): Exception {
    if rollback.Fails? then rollback.error else error
  }

  /** The tick commits when none of the transaction's steps throws (publish failures are
      caught one by one and do not count). */
  predicate Commits(faults: TickFaults) {
    faults.begin.NoFault? && faults.load.NoFault? && faults.save.NoFault? && faults.commit.NoFault?
  }

  /** The tick's events: nothing if the transaction cannot begin (that call is outside the
      try); a rollback if loading or saving throws; otherwise the save, one attempt per
      message, then the commit or, if the commit throws, a rollback. */
  function TickEvents(faults: TickFaults, prepared: seq<Envelope>): seq<Event> {
    if faults.begin.Fails? then []
    else if faults.load.Fails? || faults.save.Fails? then [RolledBack]
    else [Saved] + PublishEvents(prepared, faults.publishFails) + (if faults.commit.Fails? then [RolledBack] else [Committed])
  }

  /** How SimulateShipMovements ends: the exception of the first step that throws, replaced by
      the rollback's own when the step was inside the try and the rollback throws too. */
  function TickOutcome(faults: TickFaults): (r: Outcome)
    ensures r.Done? <==> Commits(faults)
    ensures faults.begin.Fails? ==> r == Threw(faults.begin.error)
    ensures faults.begin.NoFault? && faults.load.Fails? ==>
      r == Threw(if faults.rollback.Fails? then faults.rollback.error else faults.load.error)
    ensures faults.begin.NoFault? && faults.load.NoFault? && faults.save.Fails? ==>
      r == Threw(if faults.rollback.Fails? then faults.rollback.error else faults.save.error)
    ensures faults.begin.NoFault? && faults.load.NoFault? && faults.save.NoFault? && faults.commit.Fails? ==>
      r == Threw(if faults.rollback.Fails? then faults.rollback.error else faults.commit.error)
  {
    if faults.begin.Fails? then Threw(faults.begin.error)
    else if faults.load.Fails? then Threw(Rethrown(faults.load.error, faults.rollback))
    else if faults.save.Fails? then Threw(Rethrown(faults.save.error, faults.rollback))
    else if faults.commit.Fails? then Threw(Rethrown(faults.commit.error, faults.rollback))
    else Done
  }

  /** A save that throws means no message is published, and the transaction is rolled back. */
  lemma SaveFailurePublishesNothing(faults: TickFaults, prepared: seq<Envelope>)
    requires faults.begin.NoFault? && faults.save.Fails?
    ensures TickEvents(faults, prepared) == [RolledBack]
    ensures forall i :: 0 <= i < |TickEvents(faults, prepared)| ==> !TickEvents(faults, prepared)[i].Published?
    ensures TickOutcome(faults).Threw?
    ensures faults.load.NoFault? ==>
      TickOutcome(faults) == Threw(if faults.rollback.Fails? then faults.rollback.error else faults.save.error)
  {
  }

  /** Publishing happens only after a successful save, and every attempt comes before the end
      of the transaction: when a commit then throws, the messages are already out although the
      positions are rolled back. */
  lemma {:induction false} PublishesBetweenSaveAndCommit(faults: TickFaults, prepared: seq<Envelope>, i: nat)
    requires i < |TickEvents(faults, prepared)| && TickEvents(faults, prepared)[i].Published?
    ensures faults.begin.NoFault? && faults.load.NoFault? && faults.save.NoFault?
    ensures TickEvents(faults, prepared)[0] == Saved && 0 < i
    ensures var es := TickEvents(faults, prepared);
      es[|es| - 1] == (if faults.commit.Fails? then RolledBack else Committed) && i < |es| - 1
  {
    var es := TickEvents(faults, prepared);
    var tail := if faults.commit.Fails? then RolledBack else Committed;
    if faults.begin.NoFault? && faults.load.NoFault? && faults.save.NoFault? {
      assert es == [Saved] + PublishEvents(prepared, faults.publishFails) + [tail];
      assert es[0] == Saved && es[|es| - 1] == tail;
    }
  }

  /** When the save succeeds, every prepared message is attempted in order, a failed attempt
      is skipped without stopping the others, and a message is delivered exactly when its
      publish does not throw. */
  lemma EveryMessageAttempted(faults: TickFaults, prepared: seq<Envelope>, k: nat)
    requires faults.begin.NoFault? && faults.load.NoFault? && faults.save.NoFault?
    requires k < |prepared|
    ensures |TickEvents(faults, prepared)| == |prepared| + 2
    ensures TickEvents(faults, prepared)[k + 1] == Published(prepared[k], !faults.publishFails(k))
  {
    var es := TickEvents(faults, prepared);
    var tail := if faults.commit.Fails? then RolledBack else Committed;
    assert es == [Saved] + PublishEvents(prepared, faults.publishFails) + [tail];
    assert es[k + 1] == PublishEvents(prepared, faults.publishFails)[k];
  }

  /** The transaction is committed exactly when the tick ends without an exception. */
  lemma CommittedIffDone(faults: TickFaults, prepared: seq<Envelope>)
    ensures Committed in TickEvents(faults, prepared) <==> TickOutcome(faults).Done?
  {
    var es := TickEvents(faults, prepared);
    if !faults.begin.Fails? && !faults.load.Fails? && !faults.save.Fails? {
      var tail := if faults.commit.Fails? then RolledBack else Committed;
      assert es == [Saved] + PublishEvents(prepared, faults.publishFails) + [tail];
      assert es[|es| - 1] == tail;
      if faults.commit.Fails? {
        assert forall i :: 0 <= i < |es| ==> es[i] != Committed;
      }
    }
  }

  /** One turn of the outer loop: whether cancellation was requested when the loop condition
      was tested, how the tick goes, and whether Task.Delay is cancelled. */
  datatype Round = Round(cancellationRequested: bool, faults: TickFaults, delayCancelled: bool)

  /** The turn leaves the loop: the token was cancelled before it, the tick threw an
      OperationCanceledException (`break`), or the delay after a successful tick was cancelled
      (TaskCanceledException is an OperationCanceledException). */
  predicate RoundEnds(round: Round) {
    || round.cancellationRequested
    || (TickOutcome(round.faults).Threw? && OperationCanceled in TickOutcome(round.faults).error.types)
    || (TickOutcome(round.faults).Done? && round.delayCancelled)
  }

  /** The events of one turn: the tick's, then the logged error of a tick that threw
      something other than a cancellation, or the delay after a tick that succeeded. The
      delay is in the same try as the tick, so a tick that throws is followed by no delay. */
  function RoundEvents(round: Round, prepared: seq<Envelope>): seq<Event> {
    if round.cancellationRequested then []
    else
      TickEvents(round.faults, prepared) +
      match TickOutcome(round.faults)
      case Threw(e) => if OperationCanceled in e.types then [] else [ErrorLogged(e)]
      case Done => if round.delayCancelled then [] else [Delayed]
  }

  /** An exception other than a cancellation is logged, the loop goes on, and the next tick
      starts at once, without the delay. */
  lemma ErrorIsLoggedAndLoopContinues(round: Round, prepared: seq<Envelope>, e: Exception)
    requires !round.cancellationRequested
    requires TickOutcome(round.faults) == Threw(e) && OperationCanceled !in e.types
    ensures !RoundEnds(round)
    ensures RoundEvents(round, prepared) == TickEvents(round.faults, prepared) + [ErrorLogged(e)]
    ensures Delayed !in RoundEvents(round, prepared)
  {
    assert Delayed !in TickEvents(round.faults, prepared);
  }

  /** The first foreach of SimulateShipMovements: each ship moved, in order, and one message
      prepared for it, with a message id in [1, int.MaxValue - 1]. */
  method PrepareUpdates(project: Projection, ships: seq<Ship>, now: int)
    returns (moved: seq<Ship>, prepared: seq<Envelope>)
    ensures moved == MovedShips(project, ships, now)
    ensures PreparedFor(project, ships, now, prepared)
  {
    moved, prepared := [], [];
    var k := 0;
    while k < |ships|
      invariant 0 <= k <= |ships|
      invariant |moved| == k && |prepared| == k
      invariant forall j :: 0 <= j < k ==> moved[j] == Moved(project, ships[j], now)
      invariant forall j :: 0 <= j < k ==>
        1 <= prepared[j].message.messageId <= MAX_MESSAGE_ID &&
        prepared[j] == Prepared(project, ships[j], now, prepared[j].message.messageId)
    {
      var ship := ships[k];
      var newLatitude, newLongitude := CalculateNewPosition(project, ship.latitude, ship.longitude, ship.velocity,
                                                            ship.heading, UPDATE_INTERVAL_SECONDS as real);
      moved := moved + [ship.(latitude := newLatitude, longitude := newLongitude, updatedAt := now)];
      var messageId :| 1 <= messageId <= MAX_MESSAGE_ID;
      var message := PositionUpdate(messageId, ship.shipCode, newLatitude, newLongitude, ship.velocity, ship.heading, now);
      prepared := prepared + [Envelope(message, "ship.position." + ship.shipCode)];
      k := k + 1;
    }
    assert moved == MovedShips(project, ships, now);
  }

  /** A tick changes only the position and UpdatedAt of each ship, keeps the ships in their
      order, and leaves every longitude in [-180, 180]. */
  lemma TickChangesOnlyPosition(project: Projection, ships: seq<Ship>, now: int, k: nat)
    requires k < |ships|
    ensures |MovedShips(project, ships, now)| == |ships|
    ensures var m := MovedShips(project, ships, now)[k];
      && m.id == ships[k].id && m.shipCode == ships[k].shipCode && m.name == ships[k].name
      && m.velocity == ships[k].velocity && m.heading == ships[k].heading && m.updatedAt == now
      && -180.0 <= m.longitude <= 180.0
  {
    var p := project(ships[k].latitude, ships[k].longitude, ships[k].velocity, ships[k].heading,
                     UPDATE_INTERVAL_SECONDS as real);
    NormalizedBounds(p.1);
  }

  /** The k-th message describes the k-th moved ship: its code, new position, velocity and
      heading, the tick's timestamp, and the routing key "ship.position." + code. */
  lemma MessageDescribesMovedShip(project: Projection, ships: seq<Ship>, now: int,
                                  prepared: seq<Envelope>, k: nat)
    requires PreparedFor(project, ships, now, prepared) && k < |ships|
    ensures var m := MovedShips(project, ships, now)[k]; var u := prepared[k].message;
      && u.shipCode == m.shipCode && u.latitude == m.latitude && u.longitude == m.longitude
      && u.velocity == m.velocity && u.heading == m.heading && u.timestamp == now
      && prepared[k].routingKey == "ship.position." + m.shipCode
      && 1 <= u.messageId <= MAX_MESSAGE_ID
  {
  }

  /** None of the first n turns leaves the loop. */
  ghost predicate Continues(rounds: seq<Round>, n: nat) {
    n <= |rounds| && (n == 0 || (Continues(rounds, n - 1) && !RoundEnds(rounds[n - 1])))
  }

  lemma {:induction false} ContinuesMeaning(rounds: seq<Round>, n: nat)
    ensures Continues(rounds, n) <==> n <= |rounds| && forall t :: 0 <= t < n ==> !RoundEnds(rounds[t])
  {
    if n > 0 {
      ContinuesMeaning(rounds, n - 1);
    }
  }

  /** Each turn's events are RoundEvents of that turn and the messages its tick prepared. */
  ghost predicate TurnsOf(rounds: seq<Round>, batches: seq<seq<Envelope>>, turns: seq<seq<Event>>) {
    && |turns| == |batches| <= |rounds|
    && (turns == [] ||
        (TurnsOf(rounds, batches[..|batches| - 1], turns[..|turns| - 1]) &&
         turns[|turns| - 1] == RoundEvents(rounds[|turns| - 1], batches[|batches| - 1])))
  }

  /** The t-th turn's events are RoundEvents of that turn and its prepared messages. */
  lemma {:induction false} TurnsOfAt(rounds: seq<Round>, batches: seq<seq<Envelope>>, turns: seq<seq<Event>>, t: nat)
    requires TurnsOf(rounds, batches, turns) && t < |turns|
    ensures turns[t] == RoundEvents(rounds[t], batches[t])
  {
    var n := |turns| - 1;
    if t < n {
      TurnsOfAt(rounds, batches[..n], turns[..n], t);
      assert turns[..n][t] == turns[t] && batches[..n][t] == batches[t];
    }
  }

  class ShipSimulatorService {
    const context: ShipManagementContext
    var trace: seq<Event>

    constructor (context: ShipManagementContext)
      ensures this.context == context && trace == []
    {
      this.context := context;
      trace := [];
    }

    /** The second foreach: one PublishAsync attempt per message, in order; a failed attempt is
        logged and the next message is still tried. */
    method PublishAll(prepared: seq<Envelope>, publishFails: nat -> bool)
      modifies this`trace
      ensures trace == old(trace) + PublishEvents(prepared, publishFails)
    {
      var published := PublishEvents(prepared, publishFails);
      var m := 0;
      while m < |prepared|
        invariant 0 <= m <= |prepared|
        invariant trace == old(trace) + published[..m]
      {
        trace := trace + [Published(prepared[m], !publishFails(m))];
        assert published[..m + 1] == published[..m] + [published[m]];
        m := m + 1;
      }
      assert published[..m] == published;
    }

    /** SimulateShipMovements: one message per loaded ship, in load order, carrying the ship's
        code, new position, unchanged velocity and heading and a message id in
        [1, int.MaxValue - 1], routed by "ship.position." and the code; the events of
        TickEvents appended to the trace; the moved ships in the store exactly when the
        transaction commits, and the store unchanged otherwise. */
    method SimulateShipMovements(project: Projection, faults: TickFaults, now: int)
      returns (outcome: Outcome, prepared: seq<Envelope>)
      requires context.Valid()
      modifies this`trace, context`ships
      ensures context.Valid()
      ensures outcome == TickOutcome(faults)
      ensures trace == old(trace) + TickEvents(faults, prepared)
      ensures faults.begin.Fails? || faults.load.Fails? ==> prepared == []
      ensures faults.begin.NoFault? && faults.load.NoFault? ==> PreparedFor(project, old(context.ships), now, prepared)
      ensures Commits(faults) ==> context.ships == MovedShips(project, old(context.ships), now)
      ensures !Commits(faults) ==> context.ships == old(context.ships)
    {
      prepared := [];
      if faults.begin.Fails? {
        return Threw(faults.begin.error), prepared;
      }
      if faults.load.Fails? {
        trace := trace + [RolledBack];
        return Threw(Rethrown(faults.load.error, faults.rollback)), prepared;
      }
      var moved;
      moved, prepared := PrepareUpdates(project, context.ships, now);
      outcome := SaveAndPublish(faults, moved, prepared);
      if Commits(faults) {
        MovedKeepsConsistency(project, old(context.ships), context.users, context.shipUsers, context.nextShipId,
                              context.nextUserId, now);
      }
    }

    /** The rest of the try block once the ships are moved: save, publish, commit; a save or
        commit that throws rolls back and rethrows, and the moved ships are kept only on
        commit. */
    method SaveAndPublish(faults: TickFaults, moved: seq<Ship>, prepared: seq<Envelope>) returns (outcome: Outcome)
      requires faults.begin.NoFault? && faults.load.NoFault?
      modifies this`trace, context`ships
      ensures outcome == TickOutcome(faults)
      ensures trace == old(trace) + TickEvents(faults, prepared)
      ensures context.ships == if Commits(faults) then moved else old(context.ships)
    {
      if faults.save.Fails? {
        trace := trace + [RolledBack];
        return Threw(Rethrown(faults.save.error, faults.rollback));
      }
      trace := trace + [Saved];
      PublishAll(prepared, faults.publishFails);
      if faults.commit.Fails? {
        trace := trace + [RolledBack];
        return Threw(Rethrown(faults.commit.error, faults.rollback));
      }
      trace := trace + [Committed];
      context.ships := moved;
      return Done;
    }

    /** One turn of the while loop: nothing if cancellation was requested; otherwise the tick,
        then the logged error, or the delay. Whether the loop is left afterwards is returned. */
    method RunRound(project: Projection, round: Round, now: int)
      returns (ends: bool, ghost prepared: seq<Envelope>, ghost events: seq<Event>)
      requires context.Valid()
      modifies this`trace, context`ships
      ensures context.Valid()
      ensures ends == RoundEnds(round)
      ensures events == RoundEvents(round, prepared)
      ensures trace == old(trace) + events
    {
      prepared := [];
      if round.cancellationRequested {
        return true, prepared, RoundEvents(round, prepared);
      }
      var outcome;
      outcome, prepared := SimulateShipMovements(project, round.faults, now);
      match outcome
      case Threw(e) =>
        // catch (OperationCanceledException) breaks; catch (Exception) logs and loops again
        if OperationCanceled in e.types {
          return true, prepared, RoundEvents(round, prepared);
        }
        trace := trace + [ErrorLogged(e)];
        return false, prepared, RoundEvents(round, prepared);
      case Done =>
        // Task.Delay, cancelled (a TaskCanceledException, caught as above) or not
        if round.delayCancelled {
          return true, prepared, RoundEvents(round, prepared);
        }
        trace := trace + [Delayed];
        return false, prepared, RoundEvents(round, prepared);
    }

    /** ExecuteAsync: ticks until a turn ends the loop (stopped is the first such turn, or the
        number of turns); the trace gains, turn by turn, the RoundEvents of each turn that ran,
        with the messages its tick prepared. */
    method ExecuteAsync(project: Projection, rounds: seq<Round>, clock: nat -> int)
      returns (stopped: nat, ghost batches: seq<seq<Envelope>>, ghost turns: seq<seq<Event>>)
      requires context.Valid()
      modifies this`trace, context`ships
      ensures context.Valid()
      ensures stopped <= |rounds|
      ensures Continues(rounds, stopped)
      ensures stopped < |rounds| ==> RoundEnds(rounds[stopped])
      ensures |turns| == (if stopped < |rounds| then stopped + 1 else stopped)
      ensures |batches| == |turns| && TurnsOf(rounds, batches, turns)
      ensures trace == old(trace) + Concat(turns)
    {
      stopped := 0;
      batches, turns := [], [];
      while stopped < |rounds|
        invariant context.Valid()
        invariant stopped <= |rounds| && |turns| == stopped
        invariant Continues(rounds, stopped)
        invariant TurnsOf(rounds, batches, turns)
        invariant trace == old(trace) + Concat(turns)
      {
        var round := rounds[stopped];
        var ends;
        ghost var prepared, events;
        ends, prepared, events := RunRound(project, round, clock(stopped));
        ConcatSnoc(turns, events);
        AppendAssociative(old(trace), Concat(turns), events);
        assert (turns + [events])[..stopped] == turns && (batches + [prepared])[..stopped] == batches;
        batches, turns := batches + [prepared], turns + [events];
        if ends {
          return;
        }
        stopped := stopped + 1;
      }
    }
  }

  /** Moving every ship keeps the schema's constraints: ids and codes do not change. */
  lemma MovedKeepsConsistency(project: Projection, ships: seq<Ship>, users: seq<User>,
                              shipUsers: set<(int, int)>, nextShipId: int, nextUserId: int, now: int)
    requires Consistent(ships, users, shipUsers, nextShipId, nextUserId)
    ensures Consistent(MovedShips(project, ships, now), users, shipUsers, nextShipId, nextUserId)
  {
    var moved := MovedShips(project, ships, now);
    forall link | link in shipUsers ensures HasShip(moved, link.0) {
      var a :| 0 <= a < |ships| && ships[a].id == link.0;
      assert moved[a].id == ships[a].id;
    }
  }
}
