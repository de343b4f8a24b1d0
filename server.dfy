/**
 * The `/api/check-loyalty` endpoint of server.js as a total function from the
 * `mobile` query parameter, the process environment and the outcome of the
 * upstream call to the status and JSON body of the reply. The reply also
 * records the upstream request, if one was made, so that "no upstream call"
 * is a property of the result.
 */
module LoyaltyServer {
  import opened Wrappers
  import opened JsValues
  import MobileInput

  const InvalidMobileMessage := "Please enter a valid 10-digit mobile number"
  const NotFoundMessage := "Customer not found in our loyalty program. Visit your nearest Bao Cafe store to join!"
  const RetryMessage := "Unable to check loyalty points. Please try again later."

  const ApiUrlVariable := "POSITEASY_API"
  const AuthKeyVariable := "AUTH_KEY"
  const DefaultApiUrl := "https://api.positeasy.in/api/v1/merchant/integration/customer-search"
  const DefaultAuthKey := "Loy_jEf68871421fUyq3"
  const ContactNumberQuery := "?contactNumber="

  /** The process environment: variable name to value. */
  type Env = map<string, string>

  /** `process.env[name] || fallback`: an unset or empty variable falls back. */
  function Setting(env: Env, name: string, fallback: string): (v: string)
    ensures v == fallback || (name in env && v == env[name])
    ensures name in env && env[name] != "" ==> v == env[name]
    ensures fallback != "" ==> v != ""
  {
    if name in env && env[name] != "" then env[name] else fallback
  }

  /** The GET request sent upstream, with its `AuthKey` header. */
  datatype UpstreamRequest = UpstreamRequest(url: string, authKey: string)

  function RequestFor(env: Env, mobile: string): (q: UpstreamRequest)
    ensures q.url == Setting(env, ApiUrlVariable, DefaultApiUrl) + ContactNumberQuery + mobile
    ensures q.authKey == Setting(env, AuthKeyVariable, DefaultAuthKey)
    ensures q.authKey != ""
  {
    var apiUrl := Setting(env, ApiUrlVariable, DefaultApiUrl);
    UpstreamRequest(apiUrl + ContactNumberQuery + mobile, Setting(env, AuthKeyVariable, DefaultAuthKey))
  }

  /** The upstream body: JSON, or text that `response.json()` rejects. */
  datatype UpstreamBody = Unparsable | Parsed(value: Json)

  /** What the awaited `fetch` produced. */
  datatype Upstream =
    | TransportError
    | Responded(status: int, body: UpstreamBody)

  /** `response.ok`: a status in the range 200-299. */
  predicate IsOk(status: int): (ok: bool)
    ensures ok <==> status / 100 == 2
  {
    200 <= status <= 299
  }

  /** The JSON body of the reply: `{success: true, name, points, mobile}` or
      `{success: false, message}`. */
  datatype Body =
    | Found(name: Json, points: Json, mobile: string)
    | Failure(message: string)

  datatype Reply = Reply(status: int, body: Body, request: Option<UpstreamRequest>)

  /** `data?.data?.name && data?.data?.loyaltyPoints !== undefined`. */
  predicate IsCustomerRecord(payload: Json): (found: bool)
    ensures found ==> payload.Obj? && "data" in payload.fields
    ensures found ==> var record := payload.fields["data"];
      record.Obj? && "name" in record.fields && "loyaltyPoints" in record.fields
  {
    Truthy(Get(Get(payload, "data"), "name")) && Get(Get(payload, "data"), "loyaltyPoints") != Undefined
  }

  /** The handler of server.js:14-63. */
  function Handle(mobile: string, env: Env, upstream: Upstream): (r: Reply)
    ensures r.status in {200, 400, 500}
    ensures r.request.Some? <==> MobileInput.IsValidMobile(mobile)
    ensures r.body.Failure? ==> r.body.message != ""
    ensures r.body.Found? ==> r.status == 200 && r.body.mobile == mobile
    ensures r.request.Some? ==> r.request.value == RequestFor(env, mobile)
  {
    if !MobileInput.IsValidMobile(mobile) then
      Reply(400, Failure(InvalidMobileMessage), None)
    else
      var request := Some(RequestFor(env, mobile));
      match upstream
      case TransportError => Reply(500, Failure(RetryMessage), request)
      case Responded(status, body) =>
        if !IsOk(status) then Reply(500, Failure(RetryMessage), request)
        else match body
          case Unparsable => Reply(500, Failure(RetryMessage), request)
          case Parsed(payload) =>
            if IsCustomerRecord(payload) then
              var record := Get(payload, "data");
              Reply(200, Found(Get(record, "name"), Get(record, "loyaltyPoints"), mobile), request)
            else
              Reply(200, Failure(NotFoundMessage), request)
  }

  /** The JSON object `res.json` sends for a body. */
  function BodyJson(b: Body): (j: Json)
    ensures j.Obj? && "success" in j.fields && j.fields["success"] == Bool(b.Found?)
    ensures b.Failure? ==> j.fields.Keys == {"success", "message"} && j.fields["message"] == Str(b.message)
    ensures b.Found? ==> j.fields.Keys == {"success", "name", "points", "mobile"}
    ensures b.Found? ==>
      && j.fields["name"] == b.name && j.fields["points"] == b.points
      && j.fields["mobile"] == Str(b.mobile)
  {
    match b
    case Found(name, points, mobile) =>
      Obj(map["success" := Bool(true), "name" := name, "points" := points, "mobile" := Str(mobile)])
    case Failure(message) =>
      Obj(map["success" := Bool(false), "message" := Str(message)])
  }

  /** A malformed mobile number is rejected with 400 before anything is sent
      upstream, whatever the upstream would have answered. */
  lemma InvalidMobileRejected(mobile: string, env: Env, upstream: Upstream, other: Upstream)
    requires !MobileInput.IsValidMobile(mobile)
    ensures Handle(mobile, env, upstream) == Reply(400, Failure(InvalidMobileMessage), None)
    ensures Handle(mobile, env, upstream) == Handle(mobile, env, other)
  {
  }

  /** A transport failure, a non-ok status or an unparsable body all give 500
      with the generic retry message; nothing else gives 500. */
  lemma UpstreamFailureIs500(mobile: string, env: Env, upstream: Upstream)
    requires MobileInput.IsValidMobile(mobile)
    ensures Handle(mobile, env, upstream).status == 500 <==>
      (upstream.TransportError? || !IsOk(upstream.status) || upstream.body.Unparsable?)
    ensures Handle(mobile, env, upstream).status == 500 ==>
      Handle(mobile, env, upstream).body == Failure(RetryMessage)
  {
  }

  /** A record with a truthy name and defined points is reported as found,
      with the name and points copied and the caller's own mobile number. */
  lemma RecordIsFound(mobile: string, env: Env, status: int, payload: Json)
    requires MobileInput.IsValidMobile(mobile) && IsOk(status)
    requires IsCustomerRecord(payload)
    ensures Handle(mobile, env, Responded(status, Parsed(payload))) ==
      Reply(200, Found(Get(Get(payload, "data"), "name"), Get(Get(payload, "data"), "loyaltyPoints"), mobile),
            Some(RequestFor(env, mobile)))
  {
  }

  /** Zero points still count as found: the test is `!== undefined`, not truthiness. */
  lemma ZeroPointsStillFound(mobile: string, env: Env, name: string)
    requires MobileInput.IsValidMobile(mobile) && name != ""
    ensures Handle(mobile, env, Responded(200, Parsed(Obj(map["data" := Obj(map["name" := Str(name), "loyaltyPoints" := Num(0)])])))).body
      == Found(Str(name), Num(0), mobile)
  {
  }

  /** A parsed ok body without a truthy name or without points is "not found",
      reported with status 200 and `success: false`. */
  lemma MissingFieldsNotFound(mobile: string, env: Env, status: int, payload: Json)
    requires MobileInput.IsValidMobile(mobile) && IsOk(status)
    requires !Truthy(Get(Get(payload, "data"), "name")) || Get(Get(payload, "data"), "loyaltyPoints") == Undefined
    ensures Handle(mobile, env, Responded(status, Parsed(payload))).status == 200
    ensures Handle(mobile, env, Responded(status, Parsed(payload))).body == Failure(NotFoundMessage)
  {
  }

  /** The status is 200 exactly when validation passed and the upstream
      answered with an ok status and a parsable body. */
  lemma Status200Iff(mobile: string, env: Env, upstream: Upstream)
    ensures Handle(mobile, env, upstream).status == 200 <==>
      (MobileInput.IsValidMobile(mobile) && upstream.Responded? && IsOk(upstream.status) && upstream.body.Parsed?)
  {
  }

  /** The upstream URL is the configured (or default) base, the query key and
      the mobile number; the number can be read back from the end of the URL. */
  lemma UpstreamUrlCarriesMobile(env: Env, mobile: string)
    requires MobileInput.IsValidMobile(mobile)
    ensures var base := Setting(env, ApiUrlVariable, DefaultApiUrl);
      var url := RequestFor(env, mobile).url;
      && |url| == |base| + |ContactNumberQuery| + MobileInput.MobileLength
      && url[..|base|] == base
      && url[|base|..|base| + |ContactNumberQuery|] == ContactNumberQuery
      && url[|url| - MobileInput.MobileLength..] == mobile
  {
  }

  /** With neither variable set, the hard-coded API address and key are used. */
  lemma DefaultsWithoutConfig(mobile: string)
    ensures RequestFor(map[], mobile) == UpstreamRequest(DefaultApiUrl + ContactNumberQuery + mobile, DefaultAuthKey)
  {
  }
}
