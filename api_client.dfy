/** The request helpers of `frontend/src/services/api.js`: endpoint cleaning, the request
  * headers, the error message of a failed response, the error remapping of product deletion,
  * the two-endpoint upload fallback, the product body's image list and the health probe. The
  * network is abstracted: each helper receives how its requests settled. */
module ApiClient {
  import opened Wrappers
  import opened JsValues
  import opened Text
  import opened Cart
  import opened Checkout
  import opened Routing
  import Models

  /** `endpoint.startsWith('/api') ? endpoint.slice(4) : endpoint`. */
  function CleanEndpoint(endpoint: string): string {
    if StartsWith(endpoint, "/api") then endpoint[4..] else endpoint
  }

  /** The first four characters go exactly when the endpoint starts with `/api`, whatever
    * follows them. */
  lemma CleanEndpointCases(endpoint: string, rest: string)
    ensures CleanEndpoint("/api" + rest) == rest
    ensures !StartsWith(endpoint, "/api") ==> CleanEndpoint(endpoint) == endpoint
    ensures StartsWith(endpoint, "/api") ==> "/api" + CleanEndpoint(endpoint) == endpoint
  {
    assert ("/api" + rest)[..4] == "/api";
    assert ("/api" + rest)[4..] == rest;
    if StartsWith(endpoint, "/api") {
      assert endpoint == endpoint[..4] + endpoint[4..];
    }
  }

  /** The client's stripping and the server's rewriting agree on `/api/...`, but not on `/api`
    * itself or on a longer first segment such as `/apix`. */
  lemma ClientAndServerPrefixes(rest: string)
    ensures CleanEndpoint("/api/" + rest) == "/" + rest == RewritePath("/api/" + rest)
    ensures CleanEndpoint("/api") == "" && RewritePath("/api") == "/"
    ensures CleanEndpoint("/apix") == "x" && RewritePath("/apix") == "/apix"
  {
    RewriteCases("/api/" + rest, rest);
    assert ("/api/" + rest)[..4] == "/api";
    assert ("/api/" + rest)[4..] == "/" + rest;
    assert "/apix"[..4] == "/api";
    assert "/apix"[4] != "/api/"[4];
  }

  type Headers = map<string, string>

  /** The headers built before the caller's own: the JSON content type, and the bearer token
    * when one is stored (a missing or empty token adds nothing). */
  function BaseHeaders(token: Option<string>): Headers {
    map["Content-Type" := "application/json"]
      + (if TruthyStr(token) then map["Authorization" := "Bearer " + token.value] else map[])
  }

  /** `config.headers` as written: `...options` comes after `headers`, so a caller's
    * `options.headers` replaces the merged headers outright. */
  function RequestHeadersAsWritten(token: Option<string>, optionHeaders: Option<Headers>): Headers {
    if optionHeaders.Some? then optionHeaders.value else BaseHeaders(token)
  }

  /** `config.headers` as intended: the caller's headers merged over the base ones. */
  function RequestHeaders(token: Option<string>, optionHeaders: Option<Headers>): Headers {
    BaseHeaders(token) + (if optionHeaders.Some? then optionHeaders.value else map[])
  }

  /** Without caller headers both agree: the content type is JSON, and the Authorization
    * header is present exactly when a token is stored, carrying that token. */
  lemma AuthorizationIffToken(token: Option<string>)
    ensures RequestHeadersAsWritten(token, None) == RequestHeaders(token, None)
    ensures "Authorization" in RequestHeaders(token, None) <==> TruthyStr(token)
    ensures TruthyStr(token) ==> RequestHeaders(token, None)["Authorization"] == "Bearer " + token.value
    ensures "Content-Type" in RequestHeaders(token, None)
            && RequestHeaders(token, None)["Content-Type"] == "application/json"
  {
  }

  /** With caller headers that do not set Authorization, the code as written loses the token;
    * the intended merge keeps it and keeps every caller header. */
  lemma CallerHeadersDropToken(token: Option<string>, extra: Headers)
    requires TruthyStr(token) && "Authorization" !in extra
    ensures "Authorization" !in RequestHeadersAsWritten(token, Some(extra))
    ensures "Authorization" in RequestHeaders(token, Some(extra))
            && RequestHeaders(token, Some(extra))["Authorization"] == "Bearer " + token.value
    ensures forall h :: h in extra ==>
              h in RequestHeaders(token, Some(extra)) && RequestHeaders(token, Some(extra))[h] == extra[h]
  {
  }

  /** The body of a failed response: JSON with optional `message` and `detail`, or text. */
  datatype ErrorBody = JsonBody(message: Option<string>, detail: Option<string>) | TextBody(text: string)

  /** How `apiRequest` fails on a response that is not ok. */
  datatype RequestFailure = Thrown(message: string) | BodyAlreadyRead

  function HttpStatusText(status: int): string {
    "HTTP " + IntToString(status)
  }

  /** The error as written: after `response.json()` has failed on a text body, the body has
    * been consumed, so `response.text()` rejects and its TypeError escapes instead. */
  function ErrorAsWritten(status: int, body: ErrorBody): RequestFailure {
    match body
    case JsonBody(m, d) => Thrown(StrOrDefault(OrStr(m, d), HttpStatusText(status)))
    case TextBody(_) => BodyAlreadyRead
  }

  /** The error message as intended: `message`, else `detail`, else the text body, else the
    * status line. */
  function ErrorMessage(status: int, body: ErrorBody): string {
    match body
    case JsonBody(m, d) => StrOrDefault(OrStr(m, d), HttpStatusText(status))
    case TextBody(t) => if t != "" then t else HttpStatusText(status)
  }

  /** Message precedence; JSON bodies behave as intended, text bodies never reach their text. */
  lemma ErrorMessagePrecedence(status: int, body: ErrorBody)
    ensures body.JsonBody? && TruthyStr(body.message) ==> ErrorMessage(status, body) == body.message.value
    ensures body.JsonBody? && !TruthyStr(body.message) && TruthyStr(body.detail) ==>
              ErrorMessage(status, body) == body.detail.value
    ensures body.JsonBody? && !TruthyStr(body.message) && !TruthyStr(body.detail) ==>
              ErrorMessage(status, body) == HttpStatusText(status)
    ensures body.TextBody? && body.text != "" ==> ErrorMessage(status, body) == body.text
    ensures ErrorMessage(status, body) != ""
    ensures body.JsonBody? ==> ErrorAsWritten(status, body) == Thrown(ErrorMessage(status, body))
    ensures body.TextBody? ==> ErrorAsWritten(status, body) == BodyAlreadyRead
  {
  }

  const CannotDeleteText := "Cannot delete product with existing orders"

  /** `deleteProduct`'s remapping of an error message. */
  function DeleteErrorMessage(m: string): string {
    if Contains(m, "foreign key") || Contains(m, "constraint") then CannotDeleteText else m
  }

  /** `deleteProduct(id)`, given how the request settled. */
  function DeleteProduct(reply: Result<Payload, string>): Result<Payload, string> {
    match reply
    case Ok(p) => Ok(p)
    case Err(m) => Err(DeleteErrorMessage(m))
  }

  /** A success passes through; a database-constraint error becomes the friendly text and any
    * other error is rethrown with its message. */
  lemma DeleteErrorCases(reply: Result<Payload, string>)
    ensures reply.Ok? ==> DeleteProduct(reply) == reply
    ensures reply.Err? ==> DeleteProduct(reply).Err?
    ensures reply.Err? && (Contains(reply.error, "foreign key") || Contains(reply.error, "constraint")) ==>
              DeleteProduct(reply).error == CannotDeleteText
    ensures reply.Err? && !Contains(reply.error, "foreign key") && !Contains(reply.error, "constraint") ==>
              DeleteProduct(reply) == reply
  {
  }

  /** The answer of a successful upload: its `url`. */
  datatype UploadAnswer = UploadAnswer(url: Option<string>)

  /** How the request to one upload endpoint settled: a response that is not ok, a JSON
    * answer, or an exception with its message. */
  datatype UploadAttempt = NotOk(status: int) | Answered(answer: UploadAnswer) | Raised(message: string)

  const UploadEndpoints: seq<string> := ["/admin/upload", "/upload-simple"]
  const AuthRequiredText := "Authentication required"
  const AllFailedText := "All upload attempts failed"

  /** The error a failed attempt leaves in `lastError`. */
  function AttemptError(a: UploadAttempt): string
    requires !a.Answered?
  {
    if a.NotOk? then "Upload failed: " + IntToString(a.status) else a.message
  }

  /** The loop from endpoint `i` on, with `lastError` so far: the outcome and how many
    * endpoints were requested in all. */
  function UploadFrom(attempts: seq<UploadAttempt>, i: nat, lastError: Option<string>): (Result<UploadAnswer, string>, nat)
    requires i <= |attempts|
    decreases |attempts| - i
  {
    if i == |attempts| then (Err(if lastError.Some? then lastError.value else AllFailedText), i)
    else if attempts[i].Answered? then (Ok(attempts[i].answer), i + 1)
    else UploadFrom(attempts, i + 1, Some(AttemptError(attempts[i])))
  }

  /** `uploadFile(file)`: no request without a token; otherwise the endpoints in order. */
  function UploadSpec(token: Option<string>, attempts: seq<UploadAttempt>): (Result<UploadAnswer, string>, nat) {
    if !TruthyStr(token) then (Err(AuthRequiredText), 0) else UploadFrom(attempts, 0, None)
  }

  /** The fallback order: without a token nothing is requested; the first endpoint's answer
    * wins and the second is then never requested; otherwise the second's answer, or the
    * second's error when both fail. The generic "all failed" error never occurs. */
  lemma UploadFallbackOrder(token: Option<string>, attempts: seq<UploadAttempt>)
    requires |attempts| == |UploadEndpoints|
    ensures !TruthyStr(token) ==> UploadSpec(token, attempts) == (Err(AuthRequiredText), 0)
    ensures TruthyStr(token) && attempts[0].Answered? ==>
              UploadSpec(token, attempts) == (Ok(attempts[0].answer), 1)
    ensures TruthyStr(token) && !attempts[0].Answered? && attempts[1].Answered? ==>
              UploadSpec(token, attempts) == (Ok(attempts[1].answer), 2)
    ensures TruthyStr(token) && !attempts[0].Answered? && !attempts[1].Answered? ==>
              UploadSpec(token, attempts) == (Err(AttemptError(attempts[1])), 2)
    ensures UploadSpec(token, attempts).0 != Err(AllFailedText) || (TruthyStr(token) && attempts[1] == Raised(AllFailedText))
  {
    if TruthyStr(token) && !attempts[0].Answered? {
      var afterFirst := Some(AttemptError(attempts[0]));
      assert UploadSpec(token, attempts) == UploadFrom(attempts, 1, afterFirst);
      if !attempts[1].Answered? {
        assert UploadFrom(attempts, 1, afterFirst) == UploadFrom(attempts, 2, Some(AttemptError(attempts[1])));
        if attempts[1].NotOk? {
          assert AttemptError(attempts[1])[0] != AllFailedText[0];
        }
      }
    }
  }

  /** `uploadFile(file)` as written, with the loop over the endpoints; `requested` lists the
    * endpoints contacted, in order. */
  method UploadFile(token: Option<string>, attempts: seq<UploadAttempt>)
    returns (outcome: Result<UploadAnswer, string>, requested: seq<string>)
    requires |attempts| == |UploadEndpoints|
    ensures (outcome, |requested|) == UploadSpec(token, attempts)
    ensures |requested| <= |UploadEndpoints| && requested == UploadEndpoints[..|requested|]
  {
    requested := [];
    if !TruthyStr(token) {
      return Err(AuthRequiredText), requested;
    }
    var lastError: Option<string> := None;
    var i := 0;
    while i < |UploadEndpoints|
      invariant 0 <= i <= |UploadEndpoints|
      invariant requested == UploadEndpoints[..i]
      invariant UploadFrom(attempts, i, lastError) == UploadFrom(attempts, 0, None)
    {
      requested := requested + [UploadEndpoints[i]];
      match attempts[i] {
        case NotOk(status) =>
          lastError := Some("Upload failed: " + IntToString(status));
        case Answered(answer) =>
          assert UploadEndpoints[..i + 1] == requested;
          return Ok(answer), requested;
        case Raised(message) =>
          lastError := Some(message);
      }
      i := i + 1;
    }
    outcome := Err(if lastError.Some? then lastError.value else AllFailedText);
  }

  /** The `images` field of a product body: an array, or some other value. */
  datatype ImagesInput = ImagesArray(items: seq<string>) | NotAnArray

  /** `Array.isArray(images) ? images : []`. */
  function PreparedImages(input: ImagesInput): seq<string> {
    if input.ImagesArray? then input.items else []
  }

  /** The body `createProduct` posts, as the server reads it. A missing description or category
    * (`undefined`, dropped by `JSON.stringify`, or `null`) reaches the server as no value; the
    * price and stock are the numbers the form's text parsed to; `is_available` is not sent. */
  function CreateProductBody(name: string, description: Option<string>, price: int, category: Option<string>,
                             stock: int, images: ImagesInput): Models.ProductInput
  {
    Models.ProductInput(
      name,
      if description.Some? then Some(Some(description.value)) else None,
      price,
      if category.Some? then Some(Some(category.value)) else None,
      Some(Some(PreparedImages(images))),
      Some(stock),
      None)
  }

  /** The server's validation accepts what `createProduct` sends exactly when the price is
    * positive, and then stores the images as a list: the array given, or empty for anything
    * else, never `null`; the stock is the one sent and the product is available. */
  lemma CreateProductBodyValidates(name: string, description: Option<string>, price: int,
                                   category: Option<string>, stock: int, images: ImagesInput)
    ensures var v := Models.ValidateProduct(CreateProductBody(name, description, price, category, stock, images));
            v.Ok? <==> price > 0
    ensures var v := Models.ValidateProduct(CreateProductBody(name, description, price, category, stock, images));
            v.Ok? ==>
              v.value.images == Some(if images.ImagesArray? then images.items else [])
              && v.value.name == name && v.value.price == price && v.value.stockQuantity == stock
              && v.value.isAvailable && v.value.description == description && v.value.category == category
  {
    Models.ProductDefaults(CreateProductBody(name, description, price, category, stock, images));
  }

  /** The `status` field of a health answer, the only part of it the storefront reads. */
  datatype HealthBody = HealthBody(status: Option<string>)

  /** The body of the server's `GET /health` handler (its timestamp is left out). */
  function ServerHealth(): HealthBody {
    HealthBody(Some(HealthyStatus))
  }

  const HealthyStatus := "healthy"
  const ErrorStatus := "error"

  /** What `healthCheck` resolves to: the decoded answer's status, or `{status: 'error', error}`. */
  datatype HealthReport = HealthReport(status: Option<string>, error: Option<string>)

  /** `healthCheck()`, given how the request and its JSON decoding settled; it never throws. */
  function HealthCheck(probe: Result<HealthBody, string>): HealthReport {
    match probe
    case Ok(body) => HealthReport(body.status, None)
    case Err(m) => HealthReport(Some(ErrorStatus), Some(m))
  }

  /** Against this server's health handler the report's status tells the two outcomes apart: it
    * is "error", with the failure's message, exactly when the request or its decoding failed,
    * and the server's "healthy" otherwise. */
  lemma HealthCheckAgainstServer(probe: Result<HealthBody, string>)
    requires probe.Ok? ==> probe.value == ServerHealth()
    ensures HealthCheck(probe).status == Some(ErrorStatus) <==> probe.Err?
    ensures probe.Err? ==> HealthCheck(probe).error == Some(probe.error)
    ensures probe.Ok? ==> HealthCheck(probe).status == Some(HealthyStatus) && HealthCheck(probe).error.None?
  {
  }
}
