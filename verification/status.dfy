/** The status prober (checkBackendStatus): one GET of the health endpoint,
    folded into an `online` flag that never throws. */
module StatusProbe {
  import opened Wrappers
  import opened Json
  import opened Http
  import Retrieval

  /** `pat` occurs in `s` starting at index `i`. */
  predicate OccursAt(s: string, pat: string, i: nat) {
    i + |pat| <= |s| && s[i..i + |pat|] == pat
  }

  /** The first index at or after `from` where `pat` occurs, as
      `String.prototype.indexOf` finds it. */
  function IndexOf(s: string, pat: string, from: nat): (r: Option<nat>)
    decreases |s| - from
    ensures r.Some? ==> from <= r.value && OccursAt(s, pat, r.value)
    ensures r.Some? ==> forall j :: from <= j < r.value ==> !OccursAt(s, pat, j)
    ensures r.None? ==> forall j: nat :: from <= j ==> !OccursAt(s, pat, j)
  {
    if from + |pat| > |s| then None
    else if s[from..from + |pat|] == pat then Some(from)
    else IndexOf(s, pat, from + 1)
  }

  /** `s.replace(pat, '')`: with a string pattern, only the first occurrence
      is removed; with none, `s` is returned as is. */
  function RemoveFirst(s: string, pat: string): (r: string)
    ensures (forall j: nat :: !OccursAt(s, pat, j)) ==> r == s
    ensures forall i: nat :: OccursAt(s, pat, i) && (forall j: nat :: j < i ==> !OccursAt(s, pat, j)) ==>
      r == s[..i] + s[i + |pat|..]
  {
    match IndexOf(s, pat, 0)
    case None => s
    case Some(i) => s[..i] + s[i + |pat|..]
  }

  /** The health endpoint: the base URL without its first "/api", then
      "/health". A base URL without "/api" keeps all of itself; one whose only
      "/api" is at its end loses exactly that suffix. */
  function HealthUrl(baseUrl: string): (url: string)
    ensures (forall j: nat :: !OccursAt(baseUrl, "/api", j)) ==> url == baseUrl + "/health"
    ensures forall i: nat :: i + 4 == |baseUrl| && OccursAt(baseUrl, "/api", i) && (forall j: nat :: j < i ==> !OccursAt(baseUrl, "/api", j)) ==>
      url == baseUrl[..i] + "/health"
  {
    RemoveFirst(baseUrl, "/api") + "/health"
  }

  /** When a string ends with `pat` and has no earlier occurrence of it,
      removing the first occurrence removes that suffix. */
  lemma RemoveFirstSuffix(prefix: string, pat: string)
    requires forall j: nat :: j < |prefix| ==> !OccursAt(prefix + pat, pat, j)
    ensures RemoveFirst(prefix + pat, pat) == prefix
  {
    var s := prefix + pat;
    assert OccursAt(s, pat, |prefix|);
    assert s[..|prefix|] == prefix;
  }

  /** The configured host part contains no "/api", so only the trailing one
      is removed. The host is a parameter pinned by the precondition rather
      than the constant itself, which keeps the prover from evaluating the
      search function on the literal step by step. */
  lemma ConfiguredHostHasNoApi(host: string)
    requires host == Retrieval.Host
    ensures forall j: nat :: j < |host| ==> !OccursAt(host + "/api", "/api", j)
  {
    var s := host + "/api";
    forall j: nat | j < |host|
      ensures !OccursAt(s, "/api", j)
    {
      if j == 5 || j == 6 {
        assert s[j + 1] == host[j + 1] != 'a';
        assert j + 4 <= |s| ==> s[j..j + 4][1] == s[j + 1];
      } else {
        assert s[j] == host[j] != '/';
        assert j + 4 <= |s| ==> s[j..j + 4][0] == s[j];
      }
    }
  }

  /** With the configured base URL the probe goes to the server root's
      health route. Both URLs are parameters pinned by the precondition, for
      the reason given at `ConfiguredHostHasNoApi`. */
  lemma HealthUrlOfConfiguredBase(host: string, baseUrl: string)
    requires host == Retrieval.Host && baseUrl == Retrieval.BaseUrl
    ensures HealthUrl(baseUrl) == "http://192.168.249.147:5000/health"
  {
    ConfiguredHostHasNoApi(host);
    RemoveFirstSuffix(host, "/api");
    assert baseUrl == host + "/api";
  }

  /** The result when the probe fails: `online` is false, with a fixed
      message and note and nothing else. */
  function OfflineStatus(): (r: Json)
    ensures r.JObject? && r.fields.Keys == {"online", "message", "note"}
    ensures r.fields["online"] == JBool(false)
  {
    JObject(map[
      "online" := JBool(false),
      "message" := JString("Backend offline - App will use fallback data"),
      "note" := JString("Navigation will still work 100% offline after QR scan")])
  }

  /** `{ online: true, ...data }`: the body's own properties are copied after
      the flag, so they win, `online` included. */
  function OnlineStatus(data: Json): (r: Json)
    ensures r.JObject?
    ensures r.fields.Keys == {"online"} + SpreadProperties(data).Keys
    ensures forall k :: k in SpreadProperties(data) ==> r.fields[k] == SpreadProperties(data)[k]
    ensures "online" !in SpreadProperties(data) ==> r.fields["online"] == JBool(true)
  {
    JObject(map["online" := JBool(true)] + SpreadProperties(data))
  }

  /** checkBackendStatus: a rejected fetch or an unparseable body gives the
      offline status; any parsed body gives the online status, whatever the
      HTTP status code was. */
  function CheckBackendStatus(outcome: FetchOutcome): (r: Json)
    ensures r.JObject? && "online" in r.fields
    ensures outcome.Rejected? || outcome.body.None? ==> r == OfflineStatus()
    ensures outcome.Responded? && outcome.body.Some? ==> r == OnlineStatus(outcome.body.value)
  {
    match outcome
    case Rejected(_) => OfflineStatus()
    case Responded(_, None) => OfflineStatus()
    case Responded(_, Some(data)) => OnlineStatus(data)
  }

  /** The status code is never consulted: a 5xx reply with a JSON body counts
      as online just as a 200 does. */
  lemma StatusCodeIgnored(s1: int, s2: int, body: Option<Json>)
    ensures CheckBackendStatus(Responded(s1, body)) == CheckBackendStatus(Responded(s2, body))
  {
  }

  /** The prober reports `online: false` exactly when the probe failed or the
      body itself set `online` to false. */
  lemma OfflineExactly(outcome: FetchOutcome)
    ensures CheckBackendStatus(outcome).fields["online"] == JBool(false) <==>
      || outcome.Rejected?
      || outcome.body.None?
      || (outcome.body.value.JObject?
          && "online" in outcome.body.value.fields
          && outcome.body.value.fields["online"] == JBool(false))
  {
  }
}
