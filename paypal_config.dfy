/** The PayPal REST client helper: configuration with fallbacks, base host
    selection, the OAuth 2.0 client-credentials token request (section 4.4.2
    of RFC 6749) with HTTP Basic authentication (section 2 of RFC 7617), the
    order creation and capture requests, and the classification of their
    responses.

    The HTTP layer is abstract: each operation is a function from the
    configuration, its arguments and the replies it would receive to the
    requests it sends, in order, and the way it ends. Base64 encoding, JSON
    serialisation and parsing, logging and transport failures are left out.
 */
module PayPalConfig {

  datatype Option<T> = None | Some(value: T)

  /** A JavaScript `Error`, identified by its message. */
  datatype Error = Error(message: string)

  datatype Result<T> = Ok(value: T) | Err(error: Error)

  /** The process environment variables read when the module is loaded; an
      unset variable is `None`. The public site URL, read at each order
      creation, is an argument of `CreateOrder` instead. */
  datatype Environment = Environment(
    paypalClientId: Option<string>,
    paypalClientSecret: Option<string>,
    paypalEnvironment: Option<string>)

  /** The module-level constants computed from the environment at load time. */
  datatype Config = Config(clientId: string, clientSecret: string, environment: string)

  const ClientIdPlaceholder := "YOUR_PAYPAL_CLIENT_ID"
  const ClientSecretPlaceholder := "YOUR_PAYPAL_CLIENT_SECRET"
  const DefaultEnvironment := "sandbox"
  const Production := "production"

  const LiveHost := "https://api-m.paypal.com"
  const SandboxHost := "https://api-m.sandbox.paypal.com"

  const TokenPath := "/v1/oauth2/token"
  const OrdersPath := "/v2/checkout/orders"
  const CaptureSuffix := "/capture"
  const ClientCredentialsGrant := "grant_type=client_credentials"
  const MissingCredentials := "MISSING_API_CREDENTIALS"
  const DefaultCurrency := "EUR"

  /** JavaScript `value || fallback` on an environment variable: unset and
      empty both give the fallback. */
  function OrElse(value: Option<string>, fallback: string): (r: string)
    ensures value.Some? && value.value != "" ==> r == value.value
    ensures value.None? || value.value == "" ==> r == fallback
  {
    match value
    case Some(v) => if v != "" then v else fallback
    case None => fallback
  }

  /** JavaScript template interpolation `${value}`: an unset value prints as "undefined". */
  function Interpolated(value: Option<string>): (r: string)
    ensures value.Some? ==> r == value.value
    ensures value.None? ==> r == "undefined"
  {
    match value
    case Some(v) => v
    case None => "undefined"
  }

  /** The three module-level constants, each with its `||` fallback. */
  function LoadConfig(env: Environment): (c: Config)
    ensures c.clientId != "" && c.clientSecret != "" && c.environment != ""
    ensures c.clientId == ClientIdPlaceholder || Some(c.clientId) == env.paypalClientId
    ensures c.clientSecret == ClientSecretPlaceholder || Some(c.clientSecret) == env.paypalClientSecret
    ensures c.environment == DefaultEnvironment || Some(c.environment) == env.paypalEnvironment
    ensures c.clientId == OrElse(env.paypalClientId, ClientIdPlaceholder)
    ensures c.clientSecret == OrElse(env.paypalClientSecret, ClientSecretPlaceholder)
    ensures c.environment == OrElse(env.paypalEnvironment, DefaultEnvironment)
  {
    Config(
      OrElse(env.paypalClientId, ClientIdPlaceholder),
      OrElse(env.paypalClientSecret, ClientSecretPlaceholder),
      OrElse(env.paypalEnvironment, DefaultEnvironment))
  }

  /** `getPayPalApiUrl`: the live host for "production", the sandbox host for anything else. */
  function ApiUrl(environment: string): (r: string)
    ensures r == LiveHost || r == SandboxHost
    ensures r == LiveHost <==> environment == Production
  {
    if environment == Production then LiveHost else SandboxHost
  }

  /** The module-level `base`, fixed when the module is loaded. */
  function Base(c: Config): (r: string)
    ensures r == LiveHost || r == SandboxHost
    ensures r == LiveHost <==> c.environment == Production
  {
    ApiUrl(c.environment)
  }

  // ---------------------------------------------------------------------------
  // Requests and responses

  /** The Authorization header. `Basic` holds the "user-id:password" string
      that is sent base64-encoded; `Bearer` holds the token as interpolated. */
  datatype Authorization = Basic(userPass: string) | Bearer(token: string)

  datatype PurchaseUnit = PurchaseUnit(currencyCode: string, value: string)

  datatype ApplicationContext = ApplicationContext(
    returnUrl: string,
    cancelUrl: string,
    brandName: string,
    locale: string,
    landingPage: string,
    shippingPreference: string,
    userAction: string)

  datatype OrderPayload = OrderPayload(
    intent: string,
    purchaseUnits: seq<PurchaseUnit>,
    applicationContext: ApplicationContext)

  /** A request body: none, a plain string (which `fetch` labels
      "text/plain;charset=UTF-8" when no Content-Type is given), or an order
      serialised as JSON. */
  datatype Body = NoBody | PlainText(text: string) | Json(order: OrderPayload)

  /** An outgoing `fetch`; `json` says whether it carries "Content-Type: application/json". */
  datatype Request = Request(
    httpMethod: string,
    url: string,
    json: bool,
    authorization: Authorization,
    body: Body)

  /** A reply: its status code and its body as text. */
  datatype Response = Response(status: int, body: string)

  /** What a call did: the requests it sent, in order, and how it ended. */
  datatype Call<T> = Call(sent: seq<Request>, result: Result<T>)

  /** `handleResponse`: the body on 200 or 201, otherwise an error whose
      message is the body text. */
  function HandleResponse(response: Response): (r: Result<string>)
    ensures r.Ok? <==> response.status == 200 || response.status == 201
    ensures r.Ok? ==> r.value == response.body
    ensures r.Err? ==> r.error.message == response.body
  {
    if response.status == 200 || response.status == 201 then Ok(response.body)
    else Err(Error(response.body))
  }

  /** `data.access_token` read from the parsed token reply, without a presence check. */
  function AccessToken(tokenReply: map<string, string>): (t: Option<string>)
    ensures t.Some? <==> "access_token" in tokenReply
    ensures t.Some? ==> t.value == tokenReply["access_token"]
  {
    if "access_token" in tokenReply then Some(tokenReply["access_token"]) else None
  }

  /** The client-credentials token request, built once the guard has passed. */
  function TokenRequest(c: Config): (q: Request)
    ensures q.httpMethod == "POST" && !q.json
    ensures q.url == Base(c) + TokenPath
    ensures q.body == PlainText(ClientCredentialsGrant)
    ensures q.authorization == Basic(c.clientId + ":" + c.clientSecret)
  {
    Request("POST", Base(c) + TokenPath, false, Basic(c.clientId + ":" + c.clientSecret), PlainText(ClientCredentialsGrant))
  }

  /** `generateAccessToken`: the credential guard, then one token request;
      the token is whatever the reply's `access_token` field holds. */
  function GenerateAccessToken(c: Config, tokenReply: map<string, string>): (r: Call<Option<string>>)
    ensures r.result.Err? <==> c.clientId == "" || c.clientSecret == ""
    ensures r.result.Err? ==> r.sent == [] && r.result.error.message == MissingCredentials
    ensures r.result.Ok? ==> r.sent == [TokenRequest(c)] && r.result.value == AccessToken(tokenReply)
  {
    if c.clientId == "" || c.clientSecret == "" then
      Call([], Err(Error(MissingCredentials)))
    else
      Call([TokenRequest(c)], Ok(AccessToken(tokenReply)))
  }

  /** The order body: capture intent, one purchase unit holding the amount
      as given, and the fixed checkout settings. `currency` is the argument
      as passed; only an omitted one takes the default. */
  function OrderPayloadFor(publicUrl: Option<string>, amount: string, currency: Option<string>): (p: OrderPayload)
    ensures p.intent == "CAPTURE"
    ensures |p.purchaseUnits| == 1
    ensures p.purchaseUnits[0].value == amount
    ensures p.purchaseUnits[0].currencyCode == (if currency.Some? then currency.value else DefaultCurrency)
    ensures p.applicationContext.returnUrl == Interpolated(publicUrl) + "/paypal-success"
    ensures p.applicationContext.cancelUrl == Interpolated(publicUrl) + "/paypal-cancel"
    ensures p.applicationContext.brandName == "Votre Business Digital"
    ensures p.applicationContext.locale == "fr-FR"
    ensures p.applicationContext.landingPage == "BILLING"
    ensures p.applicationContext.shippingPreference == "NO_SHIPPING"
    ensures p.applicationContext.userAction == "PAY_NOW"
  {
    var code := match currency case Some(cc) => cc case None => DefaultCurrency;
    OrderPayload(
      "CAPTURE",
      [PurchaseUnit(code, amount)],
      ApplicationContext(
        Interpolated(publicUrl) + "/paypal-success",
        Interpolated(publicUrl) + "/paypal-cancel",
        "Votre Business Digital",
        "fr-FR",
        "BILLING",
        "NO_SHIPPING",
        "PAY_NOW"))
  }

  /** `createOrder`: a token, then one JSON order request with the bearer
      token; the reply goes through `handleResponse`. */
  function CreateOrder(
    c: Config, publicUrl: Option<string>, amount: string, currency: Option<string>,
    tokenReply: map<string, string>, orderReply: Response): (r: Call<string>)
    ensures c.clientId == "" || c.clientSecret == "" ==> r == Call([], Err(Error(MissingCredentials)))
    ensures c.clientId != "" && c.clientSecret != "" ==>
      && |r.sent| == 2
      && r.sent[0] == TokenRequest(c)
      && r.sent[1].httpMethod == "POST" && r.sent[1].json
      && r.sent[1].url == Base(c) + OrdersPath
      && r.sent[1].authorization == Bearer(Interpolated(AccessToken(tokenReply)))
      && r.sent[1].body == Json(OrderPayloadFor(publicUrl, amount, currency))
      && r.result == HandleResponse(orderReply)
  {
    var token := GenerateAccessToken(c, tokenReply);
    match token.result
    case Err(e) => Call(token.sent, Err(e))
    case Ok(t) =>
      var q := Request("POST", Base(c) + OrdersPath, true, Bearer(Interpolated(t)),
                       Json(OrderPayloadFor(publicUrl, amount, currency)));
      Call(token.sent + [q], HandleResponse(orderReply))
  }

  /** The capture endpoint of order `orderId`; the order id can be read back from it. */
  function CaptureUrl(base: string, orderId: string): (u: string)
    ensures CapturedOrderId(base, u) == Some(orderId)
  {
    base + OrdersPath + "/" + orderId + CaptureSuffix
  }

  /** `captureOrder`: a token, then one body-less JSON request to the
      order's capture endpoint with the bearer token. */
  function CaptureOrder(c: Config, orderId: string, tokenReply: map<string, string>, captureReply: Response): (r: Call<string>)
    ensures c.clientId == "" || c.clientSecret == "" ==> r == Call([], Err(Error(MissingCredentials)))
    ensures c.clientId != "" && c.clientSecret != "" ==>
      && |r.sent| == 2
      && r.sent[0] == TokenRequest(c)
      && r.sent[1].httpMethod == "POST" && r.sent[1].json
      && CapturedOrderId(Base(c), r.sent[1].url) == Some(orderId)
      && r.sent[1].authorization == Bearer(Interpolated(AccessToken(tokenReply)))
      && r.sent[1].body == NoBody
      && r.result == HandleResponse(captureReply)
  {
    var token := GenerateAccessToken(c, tokenReply);
    match token.result
    case Err(e) => Call(token.sent, Err(e))
    case Ok(t) =>
      var q := Request("POST", CaptureUrl(Base(c), orderId), true, Bearer(Interpolated(t)), NoBody);
      Call(token.sent + [q], HandleResponse(captureReply))
  }

  // ---------------------------------------------------------------------------
  // Partners: inverses and properties

  /** The reading a server makes of a Basic credential: the user-id runs up
      to the first colon, the password is the rest. */
  function SplitUserPass(s: string): (r: Option<(string, string)>)
    ensures r.Some? ==> r.value.0 + ":" + r.value.1 == s && ':' !in r.value.0
    ensures r.None? <==> ':' !in s
  {
    if s == [] then None
    else if s[0] == ':' then Some(([], s[1..]))
    else match SplitUserPass(s[1..])
      case None => None
      case Some(p) => Some(([s[0]] + p.0, p.1))
  }

  /** A Basic credential built from a colon-free user-id splits back into
      the client id and the secret. */
  lemma {:induction false} BasicCredentialsRoundTrip(id: string, secret: string)
    requires ':' !in id
    ensures SplitUserPass(id + ":" + secret) == Some((id, secret))
  {
    if id != [] {
      assert (id + ":" + secret)[1..] == id[1..] + ":" + secret;
      BasicCredentialsRoundTrip(id[1..], secret);
      assert [id[0]] + id[1..] == id;
    }
  }

  /** The token request authenticates as the configured client: its Basic
      credential splits back into the client id and the secret. */
  lemma TokenRequestCarriesCredentials(c: Config)
    requires ':' !in c.clientId
    ensures TokenRequest(c).authorization.Basic?
    ensures SplitUserPass(TokenRequest(c).authorization.userPass) == Some((c.clientId, c.clientSecret))
  {
    BasicCredentialsRoundTrip(c.clientId, c.clientSecret);
  }

  /** The order id read back from a capture URL on a known base. */
  function CapturedOrderId(base: string, url: string): (r: Option<string>)
  {
    var prefix := base + OrdersPath + "/";
    if |url| >= |prefix| + |CaptureSuffix| && url[..|prefix|] == prefix && url[|url| - |CaptureSuffix|..] == CaptureSuffix
    then Some(url[|prefix|..|url| - |CaptureSuffix|])
    else None
  }

  /** Distinct orders have distinct capture URLs. */
  lemma CaptureUrlInjective(base: string, id1: string, id2: string)
    requires CaptureUrl(base, id1) == CaptureUrl(base, id2)
    ensures id1 == id2
  {
  }

  /** The live host is used exactly when PAYPAL_ENVIRONMENT is "production";
      unset or empty falls back to "sandbox" and so to the sandbox host. */
  lemma HostSelection(env: Environment)
    ensures Base(LoadConfig(env)) == LiveHost <==> env.paypalEnvironment == Some(Production)
    ensures env.paypalEnvironment.None? || env.paypalEnvironment == Some("") ==>
              Base(LoadConfig(env)) == SandboxHost
  {
  }

  /** The credential guard cannot fire on the configuration the module
      loads: the fallbacks are non-empty placeholders. */
  lemma GuardUnreachableFromEnvironment(env: Environment, tokenReply: map<string, string>)
    ensures GenerateAccessToken(LoadConfig(env), tokenReply).result.Ok?
  {
  }

  /** A token reply without `access_token` is not caught: the next request
      carries the header "Bearer undefined". */
  lemma MissingTokenIsForwarded(c: Config, orderId: string, tokenReply: map<string, string>, captureReply: Response)
    requires c.clientId != "" && c.clientSecret != ""
    requires "access_token" !in tokenReply
    ensures CaptureOrder(c, orderId, tokenReply, captureReply).sent[1].authorization == Bearer("undefined")
  {
  }
}
