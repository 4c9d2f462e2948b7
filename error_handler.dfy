/** ErrorHandlerMiddleware (ErrorHandlerMiddleware.cs): an exception escaping the rest of the
    pipeline becomes a JSON error response whose status and text depend only on the classes the
    exception is an instance of. The rest of the pipeline is represented by how it ended. */
module ErrorHandler {
  import opened Exceptions

  /** The HttpStatusCode values the switch uses, as (int)status. */
  const BAD_REQUEST: int := 400
  const UNAUTHORIZED: int := 401
  const NOT_FOUND: int := 404
  const CONFLICT: int := 409
  const INTERNAL_SERVER_ERROR: int := 500

  /** The exception is an instance of none of the classes the switch has an arm for. */
  predicate Unhandled(ex: Exception) {
    && KeyNotFound !in ex.types && UnauthorizedAccess !in ex.types && Argument !in ex.types
    && InvalidOperation !in ex.types && DuplicateShipCode !in ex.types && DuplicateUserName !in ex.types
  }

  /** The texts the switch writes in place of the exception's own message. */
  const FixedMessages: set<string> :=
    {"Resource not found.", "Access denied.", "Invalid request parameters.", "Ship code already exists.",
     "User name already exists.", "An unexpected error occurred."}

  /** The switch expression: the first arm whose type the exception is an instance of decides;
      only the InvalidOperationException arm passes the exception's message through. */
  function StatusAndMessage(ex: Exception): (r: (int, string))
    ensures r.0 == NOT_FOUND <==> KeyNotFound in ex.types
    ensures r.0 == UNAUTHORIZED <==> KeyNotFound !in ex.types && UnauthorizedAccess in ex.types
    ensures r.0 == BAD_REQUEST <==>
      KeyNotFound !in ex.types && UnauthorizedAccess !in ex.types &&
      (Argument in ex.types || InvalidOperation in ex.types)
    ensures r.0 == CONFLICT <==>
      KeyNotFound !in ex.types && UnauthorizedAccess !in ex.types && Argument !in ex.types &&
      InvalidOperation !in ex.types && (DuplicateShipCode in ex.types || DuplicateUserName in ex.types)
    ensures r.0 == INTERNAL_SERVER_ERROR <==> Unhandled(ex)
    ensures r.0 == NOT_FOUND ==> r.1 == "Resource not found."
    ensures r.0 == UNAUTHORIZED ==> r.1 == "Access denied."
    ensures r.0 == BAD_REQUEST && Argument in ex.types ==> r.1 == "Invalid request parameters."
    ensures r.0 == BAD_REQUEST && Argument !in ex.types ==> r.1 == ex.message
    ensures r.0 == CONFLICT && DuplicateShipCode in ex.types ==> r.1 == "Ship code already exists."
    ensures r.0 == CONFLICT && DuplicateShipCode !in ex.types ==> r.1 == "User name already exists."
    ensures Unhandled(ex) ==> r.1 == "An unexpected error occurred."
    ensures r.1 in FixedMessages || r.1 == ex.message
    ensures r.1 == ex.message && r.1 !in FixedMessages ==> r.0 == BAD_REQUEST && InvalidOperation in ex.types
  {
    if KeyNotFound in ex.types then (NOT_FOUND, "Resource not found.")
    else if UnauthorizedAccess in ex.types then (UNAUTHORIZED, "Access denied.")
    else if Argument in ex.types then (BAD_REQUEST, "Invalid request parameters.")
    else if InvalidOperation in ex.types then (BAD_REQUEST, ex.message)
    else if DuplicateShipCode in ex.types then (CONFLICT, "Ship code already exists.")
    else if DuplicateUserName in ex.types then (CONFLICT, "User name already exists.")
    else (INTERNAL_SERVER_ERROR, "An unexpected error occurred.")
  }

  /** What the services throw reaches the client as: a missing entity 404, a duplicate ship
      code or user name 409, each with a fixed text that does not reveal the exception's own
      message. */
  lemma ServiceErrorsMapped(message: string)
    ensures StatusAndMessage(KeyNotFoundException(message)) == (NOT_FOUND, "Resource not found.")
    ensures StatusAndMessage(DuplicateShipCodeException(message)) == (CONFLICT, "Ship code already exists.")
    ensures StatusAndMessage(DuplicateUserNameException(message)) == (CONFLICT, "User name already exists.")
  {
  }

  /** The serialised anonymous object `new { error = message }`. */
  datatype ErrorBody = ErrorBody(error: string)

  /** The parts of HttpContext.Response the middleware sets. */
  class HttpResponse {
    var contentType: string
    var statusCode: int
    var written: seq<ErrorBody>

    constructor ()
      ensures contentType == "" && statusCode == 200 && written == []
    {
      contentType, statusCode, written := "", 200, [];
    }
  }

  /** InvokeAsync: when the rest of the pipeline returns normally the response is left as it
      made it; when it throws, the response gets content type application/json, the status
      of the switch and one body holding the switch's text. */
  method InvokeAsync(next: Outcome, response: HttpResponse)
    modifies response
    ensures next.Done? ==>
      && response.contentType == old(response.contentType)
      && response.statusCode == old(response.statusCode)
      && response.written == old(response.written)
    ensures next.Threw? ==>
      && response.contentType == "application/json"
      && response.statusCode == StatusAndMessage(next.error).0
      && response.written == old(response.written) + [ErrorBody(StatusAndMessage(next.error).1)]
  {
    match next
    case Done =>
    case Threw(ex) =>
      // set once before the switch and once after it
      response.contentType := "application/json";
      var (status, message) := StatusAndMessage(ex);
      response.contentType := "application/json";
      response.statusCode := status;
      response.written := response.written + [ErrorBody(message)];
  }
}
