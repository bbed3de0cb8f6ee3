/**
 * One input record of the PA-API node: parameter assembly and validation,
 * the signed call (an input here), the check that something came back, and
 * the normalizer.
 */
module PaExecute {
  import opened Wrappers
  import opened JsValue
  import opened PaRequest
  import opened PaNormalizer

  /** How the signing library's call ended: a thrown error's message, or the response. */
  datatype PaCall = CallFailed(message: string) | Returned(data: Value)

  datatype PaFailure =
    | Invalid(invalid: PaError)
    | ApiFailed(operation: string, message: string)
    | NoResponse
  {
    /**
     * The error text: `getItems` and `searchItems` prefix the library's
     * message (`getItems` JSON-encodes it first), `getBrowseNodes` passes it
     * through.
     */
    function Message(jsonStringify: string -> string): (r: string)
      ensures Invalid? ==> r == invalid.Message()
      ensures ApiFailed? && operation == "getItems" ==> |r| > |jsonStringify(message)| && r[|r| - |jsonStringify(message)|..] == jsonStringify(message)
      ensures ApiFailed? && operation != "getItems" ==> |r| >= |message| && r[|r| - |message|..] == message
      ensures ApiFailed? && operation == "getBrowseNodes" ==> r == message
    {
      match this
      case Invalid(e) => e.Message()
      case ApiFailed(op, m) =>
        if op == "getItems" then "Amazon API Error: " + jsonStringify(m)
        else if op == "searchItems" then "Amazon API Error: " + m
        else m
      case NoResponse => "No response data received from Amazon API"
    }
  }

  /**
   * The outcome of one record: an invalid input never reaches the library;
   * a call that throws or returns nothing fails the record; any other
   * response is normalized, and normalizing never fails, so the raw-response
   * fallback after it is never taken.
   */
  method ExecuteRecord(input: PaInput, call: PaCall, jsonParse: string -> Option<Json>)
    returns (out: Result<PaEnvelope, PaFailure>, sent: Option<PaParameters>)
    ensures var p := ParametersFor(input);
            if p.Failure? then
              out == Failure(Invalid(p.error)) && sent.None?
            else
              && sent == Some(p.value)
              && (call.CallFailed? ==> out == Failure(ApiFailed(input.operation, call.message)))
              && (call.Returned? && !Truthy(call.data) ==> out == Failure(NoResponse))
              && (call.Returned? && Truthy(call.data) ==>
                    out == Success(ProcessApiResponse(call.data, input.operation, jsonParse)))
  {
    var p := AssembleParameters(input);
    if p.Failure? {
      return Failure(Invalid(p.error)), None;
    }
    sent := Some(p.value);
    match call {
      case CallFailed(message) =>
        out := Failure(ApiFailed(input.operation, message));
      case Returned(data) =>
        if !Truthy(data) {
          out := Failure(NoResponse);
        } else {
          out := Success(ProcessApiResponse(data, input.operation, jsonParse));
        }
    }
  }
}
