/** The cart's HTTP client for the product service: URL building, the tolerant JSON
    body reader, and how `getProduct` and `reserveProduct` classify response statuses.
    `fetch` and `JSON.parse` are oracles passed in as functions; the availability of a
    global `fetch` is a boolean parameter. */
module ProductService {
  import opened Wrappers
  import opened Js
  import CartService

  /** The base URL used when `PRODUCT_SERVICE_URL` is unset or empty. */
  const DefaultBaseUrl := "http://localhost:3001"

  const FetchUnavailableMessage := "Global fetch API is not available. Upgrade to Node 18+ or polyfill fetch."

  /** An HTTP request as handed to `fetch`. */
  datatype Request = Request(verb: string, url: string, headers: map<string, string>, body: Option<Value>)

  /** An HTTP response as the code observes it: its status and its body text. */
  datatype Response = Response(status: nat, text: string)

  /** Why a call to the product service throws. */
  datatype ServiceError =
    | FetchUnavailable
    | HttpFailure(message: string)
    /** `JSON.parse` rejected the body. */
    | InvalidJson
    /** A property read on a `null` payload. */
    | PayloadTypeError

  /** `response.ok`. */
  predicate IsOk(status: nat)
  {
    200 <= status <= 299
  }

  /** The base URL in force: `process.env.PRODUCT_SERVICE_URL || 'http://localhost:3001'`. */
  function ServiceBaseUrl(env: Option<string>): (r: string)
    ensures env.Some? && env.value != "" ==> r == env.value
    ensures env.None? || env.value == "" ==> r == DefaultBaseUrl
  {
    match env
    case Some(url) => if url != "" then url else DefaultBaseUrl
    case None => DefaultBaseUrl
  }

  /** The base with one trailing `/` dropped, followed by `path` exactly. */
  function BuildUrl(base: string, path: string): (r: string)
    ensures |path| <= |r| && r[|r| - |path|..] == path
    ensures var head := r[..|r| - |path|];
      base == head + "/" || (base == head && (base == "" || base[|base| - 1] != '/'))
  {
    var trimmedBase := if base != "" && base[|base| - 1] == '/' then base[..|base| - 1] else base;
    assert trimmedBase + path == (trimmedBase + path)[..|trimmedBase|] + (trimmedBase + path)[|trimmedBase|..];
    trimmedBase + path
  }

  /** A base with one trailing slash and the same base without it address the same URLs. */
  lemma BuildUrlSlashInsensitive(base: string, path: string)
    requires base == "" || base[|base| - 1] != '/'
    ensures BuildUrl(base + "/", path) == BuildUrl(base, path)
  {
    var slashed := BuildUrl(base + "/", path);
    var plain := BuildUrl(base, path);
    assert slashed[|slashed| - |path|..] == path && plain[|plain| - |path|..] == path;
    assert slashed[..|slashed| - |path|] == base;
    assert plain[..|plain| - |path|] == base;
    assert slashed == slashed[..|slashed| - |path|] + slashed[|slashed| - |path|..];
    assert plain == plain[..|plain| - |path|] + plain[|plain| - |path|..];
  }

  function ProductPath(productId: string): string
  {
    "/products/" + productId
  }

  function ReservePath(productId: string): string
  {
    "/products/" + productId + "/reserve"
  }

  /** The GET request `getProduct` sends: no headers, no body, and a URL made of the
      base (less one trailing slash) and `/products/<id>`. */
  function GetProductRequest(base: string, productId: string): (r: Request)
    ensures r.verb == "GET" && r.headers == map[] && r.body.None?
    ensures var path := "/products/" + productId;
      |path| <= |r.url| && r.url[|r.url| - |path|..] == path &&
      (base == r.url[..|r.url| - |path|] + "/" || base == r.url[..|r.url| - |path|])
  {
    Request("GET", BuildUrl(base, ProductPath(productId)), map[], None)
  }

  /** The POST request `reserveProduct` sends: a JSON content type, the body
      `{ quantity }` with no other field, and a URL made of the base (less one trailing
      slash) and `/products/<id>/reserve`. */
  function ReserveProductRequest(base: string, productId: string, quantity: int): (r: Request)
    ensures r.verb == "POST" && r.headers.Keys == {"Content-Type"} && r.headers["Content-Type"] == "application/json"
    ensures r.body.Some? && r.body.value.Obj? && r.body.value.fields.Keys == {"quantity"}
    ensures r.body.value.fields["quantity"] == Num(Finite(quantity as real))
    ensures var path := "/products/" + productId + "/reserve";
      |path| <= |r.url| && r.url[|r.url| - |path|..] == path &&
      (base == r.url[..|r.url| - |path|] + "/" || base == r.url[..|r.url| - |path|])
  {
    Request("POST", BuildUrl(base, ReservePath(productId)), map["Content-Type" := "application/json"],
      Some(Obj(map["quantity" := Num(Finite(quantity as real))])))
  }

  /** `parseJsonSafely`: a 204 response or an empty body reads as `{}`; any other body is
      handed to `JSON.parse`, whose failure propagates. */
  function ParseJsonSafely(parse: string -> Option<Value>, response: Response): (r: Result<Value, ServiceError>)
    ensures response.status == 204 || response.text == "" ==> r == Ok(Obj(map[]))
    ensures response.status != 204 && response.text != "" ==>
      (r.Err? <==> parse(response.text).None?) && (r.Ok? ==> r.value == parse(response.text).value)
  {
    if response.status == 204 then Ok(Obj(map[]))
    else if response.text == "" then Ok(Obj(map[]))
    else
      match parse(response.text)
      case None => Err(InvalidJson)
      case Some(v) => Ok(v)
  }

  /** A 204 response is never parsed: its body and the parser do not matter. */
  lemma NoContentIgnoresBody(parse: string -> Option<Value>, parse': string -> Option<Value>, response: Response, text: string)
    requires response.status == 204
    ensures ParseJsonSafely(parse, response) == ParseJsonSafely(parse', Response(204, text))
  {
  }

  /** `getProduct`: 404 is "no such product" (`null`), any other status that is not ok
      throws with the status in the message, and an ok response yields its parsed body. */
  function GetProduct(fetchAvailable: bool, fetch: Request -> Response, parse: string -> Option<Value>,
                      base: string, productId: string): (r: Result<Option<Value>, ServiceError>)
    ensures !fetchAvailable ==> r == Err(FetchUnavailable)
    ensures fetchAvailable ==> var response := fetch(GetProductRequest(base, productId));
      && (r == Ok(None) <==> response.status == 404)
      && (r.Err? && r.error.HttpFailure? <==> response.status != 404 && !IsOk(response.status))
      && (r.Err? && r.error.HttpFailure? ==>
            r.error.message == "Failed to fetch product: " + DecimalString(response.status))
      && (IsOk(response.status) ==>
            match ParseJsonSafely(parse, response)
            case Ok(v) => r == Ok(Some(v))
            case Err(e) => r == Err(e))
  {
    if !fetchAvailable then Err(FetchUnavailable)
    else
      var response := fetch(GetProductRequest(base, productId));
      if response.status == 404 then Ok(None)
      else if !IsOk(response.status) then Err(HttpFailure("Failed to fetch product: " + DecimalString(response.status)))
      else
        match ParseJsonSafely(parse, response)
        case Ok(v) => Ok(Some(v))
        case Err(e) => Err(e)
  }

  /** Lines 58-61: a payload whose `success` reads as `undefined` gets `success = true`.
      Reading `success` on `null` or `undefined` throws; on other primitives the
      assignment is ignored. An array payload is returned as it is: the model's arrays
      carry no named properties, so the `success` that JavaScript would set on it is
      not represented. */
  function WithDefaultSuccess(payload: Value): (r: Result<Value, ServiceError>)
    ensures r.Err? <==> payload.Null? || payload.Undefined?
    ensures payload.Obj? ==>
      && r.Ok? && r.value.Obj? && "success" in r.value.fields
      && r.value.fields["success"] != Undefined
      && (forall k :: k in payload.fields && k != "success" ==> k in r.value.fields && r.value.fields[k] == payload.fields[k])
      && (forall k :: k in r.value.fields ==> k in payload.fields || k == "success")
    ensures payload.Obj? && Field(payload.fields, "success") == Undefined ==> r.value.fields["success"] == Bool(true)
    ensures payload.Obj? && Field(payload.fields, "success") != Undefined ==> r == Ok(payload)
    ensures !payload.Obj? && r.Ok? ==> r.value == payload
  {
    match payload
    case Undefined => Err(PayloadTypeError)
    case Null => Err(PayloadTypeError)
    case Obj(m) => if Field(m, "success") == Undefined then Ok(Obj(m["success" := Bool(true)])) else Ok(payload)
    case _ => Ok(payload)
  }

  /** `reserveProduct`: 409 is the service's "cannot reserve" answer `{ success: false }`,
      any other status that is not ok throws, and an ok payload is returned with `success`
      defaulted to `true`. */
  function ReserveProduct(fetchAvailable: bool, fetch: Request -> Response, parse: string -> Option<Value>,
                          base: string, productId: string, quantity: int): (r: Result<Value, ServiceError>)
    ensures !fetchAvailable ==> r == Err(FetchUnavailable)
    ensures fetchAvailable ==> var response := fetch(ReserveProductRequest(base, productId, quantity));
      && (response.status == 409 ==> r == Ok(Obj(map["success" := Bool(false)])))
      && (r.Err? && r.error.HttpFailure? <==> response.status != 409 && !IsOk(response.status))
      && (r.Err? && r.error.HttpFailure? ==>
            r.error.message == "Failed to reserve product: " + DecimalString(response.status))
      && (IsOk(response.status) ==>
            match ParseJsonSafely(parse, response)
            case Ok(payload) => r == WithDefaultSuccess(payload)
            case Err(e) => r == Err(e))
  {
    if !fetchAvailable then Err(FetchUnavailable)
    else
      var response := fetch(ReserveProductRequest(base, productId, quantity));
      if response.status == 409 then Ok(Obj(map["success" := Bool(false)]))
      else if !IsOk(response.status) then Err(HttpFailure("Failed to reserve product: " + DecimalString(response.status)))
      else
        match ParseJsonSafely(parse, response)
        case Ok(payload) => WithDefaultSuccess(payload)
        case Err(e) => Err(e)
  }

  /** What the cart makes of a reservation answer: it is refused exactly when the service
      answered 409, or answered ok with an object body whose `success` is `false`. An ok
      empty body (including 204) counts as a successful reservation. */
  lemma {:induction false} ReserveRejectedExactly(fetch: Request -> Response, parse: string -> Option<Value>,
                                                  base: string, productId: string, quantity: int)
    requires ReserveProduct(true, fetch, parse, base, productId, quantity).Ok?
    ensures var response := fetch(ReserveProductRequest(base, productId, quantity));
      CartService.ReserveRejected(ReserveProduct(true, fetch, parse, base, productId, quantity).value) <==>
        response.status == 409 ||
        (response.status != 204 && response.text != "" &&
         parse(response.text).Some? && parse(response.text).value.Obj? &&
         Field(parse(response.text).value.fields, "success") == Bool(false))
  {
    var response := fetch(ReserveProductRequest(base, productId, quantity));
    var v := ReserveProduct(true, fetch, parse, base, productId, quantity).value;
    if response.status != 409 {
      assert IsOk(response.status);
      var payload := ParseJsonSafely(parse, response).value;
      assert v == WithDefaultSuccess(payload).value;
      if response.status == 204 || response.text == "" {
        assert v == Obj(map["success" := Bool(true)]);
      }
    }
  }
}
