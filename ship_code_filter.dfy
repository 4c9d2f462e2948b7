/** ShipCodeFilterAttribute (ShipCodeFilterAttribute.cs): an action filter that validates the
    action argument named "shipCode" before the action runs. */
module ShipCodeFilter {
  import opened DotNetText
  import opened ShipCodeValidation
  import opened Collections

  /** An action result as far as the filter sets one: BadRequestObjectResult(message). Any other
      result a caller may already have put there is Other. */
  datatype ActionResult = BadRequest(message: string) | Other

  /** The part of ActionExecutingContext the filter touches: the bound action arguments and
      the Result property (null means the action will run). */
  class ActionExecutingContext {
    var actionArguments: map<string, Value>
    var result: Option<ActionResult>

    constructor (arguments: map<string, Value>)
      ensures actionArguments == arguments && result == None
    {
      actionArguments := arguments;
      result := None;
    }
  }

  /** OnActionExecuting: without a "shipCode" argument the request is refused with
      REQUIRED_MESSAGE; with one that ShipCodeValidation rejects it is refused with exactly the
      message the validation produced (REQUIRED_MESSAGE for a null or blank value); with a valid
      one the context is left as it was. The arguments are never changed. */
  method OnActionExecuting(context: ActionExecutingContext)
    modifies context`result
    ensures "shipCode" !in context.actionArguments ==>
      context.result == Some(BadRequest(REQUIRED_MESSAGE))
    ensures "shipCode" in context.actionArguments && !IsValid(context.actionArguments["shipCode"]).valid ==>
      context.result == Some(BadRequest(IsValid(context.actionArguments["shipCode"]).errorMessage))
    ensures "shipCode" in context.actionArguments && IsMissing(context.actionArguments["shipCode"]) ==>
      context.result == Some(BadRequest(REQUIRED_MESSAGE))
    ensures "shipCode" in context.actionArguments && IsValid(context.actionArguments["shipCode"]).valid ==>
      context.result == old(context.result)
  {
    if "shipCode" in context.actionArguments {
      var value := context.actionArguments["shipCode"];
      var check := IsValid(value);
      if !check.valid {
        context.result := Some(BadRequest(check.errorMessage));
        return;
      }
    } else {
      context.result := Some(BadRequest(REQUIRED_MESSAGE));
    }
  }
}
