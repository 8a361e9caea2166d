/** The retrieval client (scanQrCode): one backend attempt, the validation
    of its body, and the fall back to locally built data on any failure. */
module Retrieval {
  import opened Wrappers
  import opened Json
  import opened Navigation
  import opened Fallback
  import opened Http

  /** The backend's address; the API routes live under "/api". */
  const Host := "http://192.168.249.147:5000"
  const BaseUrl := Host + "/api"

  /** The client aborts the fetch if no response headers arrive within this
      many milliseconds; the abort shows up as `Rejected(AbortedByTimeout)`.
      The timer is cleared once the headers are in, so reading the body has
      no deadline. */
  const TimeoutMs := 10000

  const DeviceId := "raahvia-mobile"
  const AppVersion := "1.0.0"

  /** The request body of a scan. */
  datatype ScanRequest = ScanRequest(
    qrData: string,
    deviceId: string,
    platform: string,
    appVersion: string,
    timestamp: string)

  function ScanRequestJson(r: ScanRequest): Json {
    JObject(map[
      "qrData" := JString(r.qrData),
      "deviceId" := JString(r.deviceId),
      "platform" := JString(r.platform),
      "appVersion" := JString(r.appVersion),
      "timestamp" := JString(r.timestamp)])
  }

  /** The POST the client sends for a scan. `platform` is the host operating
      system name and `now` the client's clock, both supplied by the caller. */
  function ScanHttpRequest(qrData: string, platform: string, now: string): (req: HttpRequest)
    ensures req.verb == "POST"
    ensures req.url == "http://192.168.249.147:5000/api/qr-scan"
    ensures "Content-Type" in req.headers && req.headers["Content-Type"] == "application/json"
    ensures "Accept" in req.headers && req.headers["Accept"] == "application/json"
    ensures req.body.Some? && req.body.value.JObject?
    ensures Member(req.body.value, "qrData") == Defined(JString(qrData))
    ensures Member(req.body.value, "timestamp") == Defined(JString(now))
    ensures Member(req.body.value, "deviceId") == Defined(JString("raahvia-mobile"))
    ensures Member(req.body.value, "platform") == Defined(JString(platform))
    ensures Member(req.body.value, "appVersion") == Defined(JString("1.0.0"))
  {
    HttpRequest(
      "POST",
      BaseUrl + "/qr-scan",
      map["Content-Type" := "application/json", "Accept" := "application/json"],
      Some(ScanRequestJson(ScanRequest(qrData, DeviceId, platform, AppVersion, now))))
  }

  /** The validation on a parsed body: `success` truthy, `navigation`
      truthy, and `navigation.mapImage` truthy. Stated structurally, it
      requires `navigation` to be an object, since no other JSON value has a
      `mapImage` field, and any truthy `mapImage` passes, not only a
      non-empty string. */
  function Accepts(body: Json): (ok: bool)
    ensures ok <==>
      && body.JObject?
      && "success" in body.fields
      && Truthy(Defined(body.fields["success"]))
      && "navigation" in body.fields
      && body.fields["navigation"].JObject?
      && "mapImage" in body.fields["navigation"].fields
      && Truthy(Defined(body.fields["navigation"].fields["mapImage"]))
  {
    var navigation := Member(body, "navigation");
    Truthy(Member(body, "success")) && Truthy(navigation) && Truthy(Member(navigation.json, "mapImage"))
  }

  /** Whether the two log lines after acceptance throw: they interpolate
      `navigation.mapImage` and `navigation.stageDestination?.totalSteps || 42`
      into template literals, and converting either to a string can throw. */
  function LogThrows(body: Json): (throws: bool)
    requires Accepts(body)
    ensures throws <==>
      var navigation := body.fields["navigation"].fields;
      || ToStringThrows(navigation["mapImage"])
      || ("stageDestination" in navigation
          && navigation["stageDestination"].JObject?
          && "totalSteps" in navigation["stageDestination"].fields
          && ToStringThrows(navigation["stageDestination"].fields["totalSteps"]))
  {
    var navigation := body.fields["navigation"];
    var steps := OptionalMember(Member(navigation, "stageDestination"), "totalSteps");
    var shownSteps := if Truthy(steps) then steps else Defined(Num(42));
    ToStringThrowsValue(Member(navigation, "mapImage")) || ToStringThrowsValue(shownSteps)
  }

  /** The reason an attempt was abandoned; each is caught by the same handler. */
  datatype ScanFailure =
    | Timeout
    | Network
    | HttpStatus(status: int)   // a non-2xx status; the body is never read
    | UnparseableBody
    | NullBody                  // reading `success` of `null` throws
    | InvalidBody
    | LogConversion

  /** The try block of scanQrCode: the backend body it returns, or the
      exception that ends it. */
  function Attempt(outcome: FetchOutcome): (r: Result<Json, ScanFailure>)
    ensures r.Success? <==>
      && outcome.Responded?
      && IsOk(outcome.status)
      && outcome.body.Some?
      && Accepts(outcome.body.value)
      && !LogThrows(outcome.body.value)
    ensures r.Success? ==> r.value == outcome.body.value
    ensures outcome.Responded? && !IsOk(outcome.status) ==> r == Failure(HttpStatus(outcome.status))
  {
    match outcome
    case Rejected(AbortedByTimeout) => Failure(Timeout)
    case Rejected(NetworkFailure) => Failure(Network)
    case Responded(status, body) =>
      if !IsOk(status) then Failure(HttpStatus(status))
      else match body
        case None => Failure(UnparseableBody)
        case Some(result) =>
          if result.JNull? then Failure(NullBody)
          else if !Accepts(result) then Failure(InvalidBody)
          else if LogThrows(result) then Failure(LogConversion)
          else Success(result)
  }

  /** The fallback record as the object the client returns. */
  function FallbackJson(qrData: string, now: string): Json {
    ResponseJson(OfflineFallbackData(qrData, now))
  }

  /** A response record, written out as JSON, passes the validation
      exactly when it claims success and names a map image, and logging it
      never throws. */
  lemma EncodedResponseAccepted(r: NavigationResponse)
    ensures Accepts(ResponseJson(r)) <==> r.success && r.navigation.mapImage != ""
    ensures Accepts(ResponseJson(r)) ==> !LogThrows(ResponseJson(r))
  {
  }

  /** The fallback passes the same validation a backend body must pass,
      and logging it would not throw. */
  lemma FallbackIsAccepted(qrData: string, now: string)
    ensures Accepts(FallbackJson(qrData, now))
    ensures !LogThrows(FallbackJson(qrData, now))
  {
    EncodedResponseAccepted(OfflineFallbackData(qrData, now));
  }

  /** scanQrCode never fails: it returns the backend body untouched when the
      attempt succeeds and the fallback otherwise, so whatever it returns
      passes the validation. */
  function ScanQrCode(qrData: string, now: string, outcome: FetchOutcome): (r: Json)
    ensures Accepts(r)
    ensures Attempt(outcome).Success? ==> r == outcome.body.value
    ensures Attempt(outcome).Failure? ==> r == FallbackJson(qrData, now)
  {
    match Attempt(outcome)
    case Success(body) => body
    case Failure(_) =>
      FallbackIsAccepted(qrData, now);
      FallbackJson(qrData, now)
  }

  /** A rejected fetch, by timeout or network error, yields the fallback. */
  lemma RejectionFallsBack(qrData: string, now: string, reason: Rejection)
    ensures ScanQrCode(qrData, now, Rejected(reason)) == FallbackJson(qrData, now)
    ensures ScanQrCode(qrData, now, Rejected(reason)).fields["metadata"].fields["source"] == JString("offline_fallback")
    ensures ScanQrCode(qrData, now, Rejected(reason)).fields["metadata"].fields["backendUsed"] == JBool(false)
  {
  }

  /** Any non-2xx status yields the fallback, whatever the body holds. */
  lemma ErrorStatusFallsBack(qrData: string, now: string, status: int, body: Option<Json>)
    requires !IsOk(status)
    ensures ScanQrCode(qrData, now, Responded(status, body)) == FallbackJson(qrData, now)
  {
  }

  /** A 2xx body whose `navigation` object lacks `mapImage`, or carries an
      empty one, is rejected whatever else it holds, `success: true`
      included. */
  lemma MissingOrEmptyMapImageFallsBack(qrData: string, now: string, status: int, body: Json)
    requires IsOk(status)
    requires body.JObject? && "navigation" in body.fields && body.fields["navigation"].JObject?
    requires var navigation := body.fields["navigation"].fields;
      "mapImage" !in navigation || navigation["mapImage"] == JString("")
    ensures ScanQrCode(qrData, now, Responded(status, Some(body))) == FallbackJson(qrData, now)
  {
  }

  /** An accepted body comes back exactly as sent: no `metadata` or
      `backendUsed` field is added or rewritten. */
  lemma AcceptedBodyUnchanged(qrData: string, now: string, status: int, body: Json)
    requires IsOk(status) && Accepts(body) && !LogThrows(body)
    ensures ScanQrCode(qrData, now, Responded(status, Some(body))) == body
    ensures "metadata" in ScanQrCode(qrData, now, Responded(status, Some(body))).fields <==> "metadata" in body.fields
  {
  }

  /** A 2xx reply carrying a well-formed response record that claims success
      and names a map image is what the scan returns. */
  lemma WellFormedReplyPassesThrough(qrData: string, now: string, status: int, r: NavigationResponse)
    requires IsOk(status) && r.success && r.navigation.mapImage != ""
    ensures ScanQrCode(qrData, now, Responded(status, Some(ResponseJson(r)))) == ResponseJson(r)
  {
    EncodedResponseAccepted(r);
  }

  /** A 2xx body that passes the validation still ends in the fallback when
      its `mapImage` is an object with its own `toString` field:
      interpolating it into the log line throws. */
  lemma ToStringFieldFallsBack(qrData: string, now: string, status: int, body: Json)
    requires IsOk(status) && Accepts(body)
    requires var image := body.fields["navigation"].fields["mapImage"];
      image.JObject? && "toString" in image.fields
    ensures ScanQrCode(qrData, now, Responded(status, Some(body))) == FallbackJson(qrData, now)
  {
  }
}
