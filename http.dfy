/**
  The HTTP surface shared by the four cloud-function handlers and the browser
  client: a request as the handlers read it (method, JSON body, X-Auth-Token
  header) and a response as a status code with a JSON payload.
 */
module Http {
  import opened Wrappers

  /** The `amount` field of a donation body: a JSON number, or anything else. */
  datatype Amount = Number(value: int) | NotANumber

  /**
    `httpMethod` (absent means GET), the JSON body's string fields, its `amount`
    field and the `X-Auth-Token` header.
   */
  datatype Request = Request(
    httpMethod: Option<string>,
    body: map<string, string>,
    amount: Option<Amount>,
    authToken: Option<string>)

  /** `event.get('httpMethod', 'GET')`. */
  function MethodOf(r: Request): string {
    if r.httpMethod.Some? then r.httpMethod.value else "GET"
  }

  /** `body_data.get(key, '')`. */
  function BodyText(r: Request, key: string): string {
    if key in r.body then r.body[key] else ""
  }

  /** `body_data.get('action')`. */
  function Action(r: Request): Option<string> {
    if "action" in r.body then Some(r.body["action"]) else None
  }

  datatype UserView = UserView(id: nat, email: string, createdAt: int)

  datatype DonationView = DonationView(id: nat, amount: int, status: string, createdAt: int)

  /** The body of a GET on the donations endpoint, which the client reads as DonationStatus. */
  datatype DonationStatus = DonationStatus(donations: seq<DonationView>, total: int, hasDonated: bool)

  /** The JSON bodies the handlers return. */
  datatype Payload =
    | NoContent
    | Error(error: string)
    | Message(message: string)
    | SignedIn(user: UserView, token: string)
    | Profile(user: UserView)
    | ResetCodeSent(message: string, emailSent: bool)
    | CodeVerified(message: string, valid: bool)
    | Subscription(message: string, subscribed: bool)
    | SubscriptionStatus(subscribed: bool, unsubscribeToken: Option<string>)
    | DonationCreated(donation: DonationView)
    | Donations(status: DonationStatus)
    | Crash

  datatype Response = Response(status: int, payload: Payload)

  /** An error response `{'error': message}`. */
  function Fail(status: int, message: string): Response {
    Response(status, Error(message))
  }

  /** `response.ok` as `fetch` reports it. */
  predicate IsOk(r: Response) {
    200 <= r.status < 300
  }

  const MsgAuthRequired := "Authentication required"
  const MsgInvalidToken := "Invalid or expired token"
  const MsgMethodNotAllowed := "Method not allowed"

  /** The reply to a CORS preflight (`OPTIONS`); its headers are not modelled. */
  const Preflight := Response(200, NoContent)
  const MethodNotAllowed := Fail(405, MsgMethodNotAllowed)
}
