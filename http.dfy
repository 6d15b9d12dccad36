/** HTTP responses of the payments endpoints: a status code and a JSON body. */
module Http {
  import opened Wrappers
  import Models

  datatype Body =
    | Detail(message: string)
    /** `{"status": status}` with `"order_id"` when present. */
    | WebhookStatus(status: string, orderId: Option<int>)
    /** The serialised state of an intent (PaymentIntentSerializer). */
    | IntentState(intent: Models.IntentRow)
    /** The body the initialize endpoint returns on success. */
    | InitResult(authorizationUrl: string, reference: string, accessCode: string, currency: string)
    /** Django's response to an exception the view does not catch. */
    | ServerError

  datatype Response = Response(code: int, body: Body)

  const Ok := 200
  const BadRequest := 400
  const Unauthorized := 401
  const Forbidden := 403
  const NotFound := 404
  const Conflict := 409
  const InternalServerError := 500

  function Crash(): Response {
    Response(InternalServerError, ServerError)
  }
}
