/** The message texts of Messages.cs that the services put into their exceptions, and the
    ShipResponse record both services return. string.Format with a string argument splices
    it in unchanged; with an int argument it writes the invariant-culture decimal form. */
module Messages {
  import opened DotNetText
  import opened Data

  /** Messages.Ship.NOT_FOUND formatted with a code. */
  function ShipNotFound(code: string): string
  {
    "Ship with code '" + code + "' not found."
  }

  /** Messages.Ship.DUPLICATE_SHIP_CODE formatted with a code. */
  function DuplicateShipCodeMessage(code: string): string
  {
    "A ship with ShipCode '" + code + "' already exists."
  }

  /** Messages.UserShip.NOT_ASSIGNED as it stands, placeholders and all. */
  const NOT_ASSIGNED: string := "User {0} is not assigned to ship {1} or ship does not exist."

  /** Messages.UserShip.NOT_ASSIGNED formatted with a user id and "N/A". */
  function UserNotAssigned(userId: int): string
  {
    "User " + IntToString(userId) + " is not assigned to ship N/A or ship does not exist."
  }

  /** Messages.Port.NO_PORTS_AVAILABLE. */
  const NO_PORTS_AVAILABLE: string := "No ports available for calculation."

  /** ShipResponse: the public columns of a ship. Heading keeps its default 0, since no
      projection in the services sets it. */
  datatype ShipResponse = ShipResponse(id: int, shipCode: string, name: string,
                                       velocity: real, latitude: real, longitude: real, heading: int)

  function ToResponse(s: Ship): ShipResponse {
    ShipResponse(s.id, s.shipCode, s.name, s.velocity, s.latitude, s.longitude, 0)
  }
}
