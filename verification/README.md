# RaahVia metadata retrieval, modelled in Dafny

RaahVia is an indoor-navigation app. After a QR code is scanned, the mobile client asks its backend for navigation
metadata: the map image, a precomputed path, and step calibration. The client must always be able to go on, even
with no network. This project models the client side of that contract, `api.js`:

- **scanQrCode** makes one backend attempt. The network is abstracted into a single outcome value
  (`Http.FetchOutcome`): the fetch rejected (timeout abort or network error), or a response arrived with a status
  and a body that `response.json()` did or did not parse. `Retrieval.Attempt` maps each outcome to the backend body
  or to the reason the try block threw. `Retrieval.ScanQrCode` returns the body unchanged or the offline fallback.
- **The validation** on line 54 (`Retrieval.Accepts`) uses JavaScript truthiness over parsed JSON values
  (`Json.Json`, with `undefined` as `Json.JsValue.Undefined`).
- **getOfflineFallbackData** (`Fallback.OfflineFallbackData`) builds a typed record (`Navigation.NavigationResponse`).
  Its path points come from `Array.from` (`Fallback.ArrayFrom`). `Navigation.ResponseJson` writes the record as the
  object literal the client returns.
- **checkBackendStatus** (`StatusProbe.CheckBackendStatus`) folds any failure into `online: false`. Otherwise it
  spreads the body over `online: true`. Its URL is derived by removing the first `"/api"` (`StatusProbe.HealthUrl`).

Several details of the code are not what a reader of the configuration and the comments would expect. The model
follows the code:

- One might expect a validated body to be tagged `backendUsed: true`. It is returned exactly as received, and
  nothing is merged into it.
- One might expect retries, since `MAX_RETRIES` and `RETRY_DELAY` are configured. Only one attempt is made.
- One might expect `success === true` and a non-empty string `mapImage`. Both only have to be truthy: as
  `mapImage`, a non-zero number, `true`, an array or an object passes as well as a non-empty string.
- The fallback points are spaced 20 pixels apart. They are not spaced by `stepProgress`.
- A body that passes line 54 can still fall back. Lines 59-60 interpolate `navigation.mapImage` and
  `stageDestination?.totalSteps || 42` into template literals, and converting a value to a string throws a TypeError
  for a parsed object that has its own `toString` field, or for an array containing one (`Json.ToStringThrows`).
  The exception is caught like any other. `Retrieval.ToStringFieldFallsBack` exhibits such a body.
- A `null` body makes the read of `result.success` throw. This also ends in the fallback (`ScanFailure.NullBody`).

## Model

| member | source | states |
|---|---|---|
| Retrieval.Accepts | api.js:53-56 | a body is accepted iff it is an object whose `success` is truthy and whose `navigation` is an object holding a truthy `mapImage` |
| Retrieval.Attempt | api.js:24-62 | the try block succeeds iff a 2xx response carries a parsed body that is accepted and whose log lines do not throw; it then yields that body unchanged; a non-2xx status fails without reading the body |
| Retrieval.ScanQrCode | api.js:20-71 | scanQrCode never fails; it returns the backend body when the attempt succeeds and the offline fallback otherwise, and whatever it returns passes the line-54 validation |
| Retrieval.LogThrows | api.js:59-60 | the log lines throw on an accepted body iff `navigation.mapImage`, or an object `stageDestination`'s `totalSteps`, fails to convert to a string |
| Http.IsOk | api.js:47 | `response.ok` holds iff the status's hundreds digit is 2 |
| Retrieval.ScanHttpRequest | api.js:29-43 | the scan is a POST to `<base>/qr-scan` with JSON headers, whose body carries the scanned code, device id `raahvia-mobile`, the platform, app version `1.0.0` and the timestamp |
| Retrieval.EncodedResponseAccepted | api.js:54 | a response record written out as JSON is accepted iff it claims success and names a non-empty map image, and logging it never throws |
| Retrieval.FallbackIsAccepted | api.js:54-60 | the offline fallback passes the same validation as a backend body, and logging it would not throw |
| Retrieval.RejectionFallsBack | api.js:26-29 | an abort by timeout or a network error yields the fallback, whose metadata says `offline_fallback` and `backendUsed: false` |
| Retrieval.ErrorStatusFallsBack | api.js:47-49 | any non-2xx status yields the fallback, whatever the body holds |
| Retrieval.MissingOrEmptyMapImageFallsBack | api.js:54-56 | any 2xx body whose `navigation` object has no `mapImage`, or an empty one, yields the fallback, whatever else it holds |
| Retrieval.AcceptedBodyUnchanged | api.js:62 | an accepted body whose log lines do not throw is returned as received; no `metadata` field is added or removed |
| Retrieval.WellFormedReplyPassesThrough | api.js:51-62 | a 2xx reply carrying a response record that claims success with a non-empty map image is returned as it is |
| Retrieval.ToStringFieldFallsBack | api.js:59 | any 2xx body that passes line 54 but whose `mapImage` is an object with its own `toString` field still yields the fallback |
| Fallback.OfflineFallbackData | api.js:74-118 | the fallback claims success, echoes the scanned code and the timestamp, names `auditorium_map.png` twice, reports `backendUsed: false` from `offline_fallback`, and has 13 points all inside the clamp bounds |
| Fallback.FallbackOnlyVariesInScan | api.js:74-118 | two fallbacks differ only in the scanned code and the timestamp; their navigation parts are identical |
| Fallback.ArrayFrom | api.js:99-102 | `Array.from({length}, mapFn)` has `length` elements and element i is `mapFn(i)` |
| Fallback.StagePointsClosedForm | api.js:99-102 | there are exactly 13 points and point i is (150, 280 - 20 i) |
| Fallback.StagePointsEvenlySpaced | api.js:99-102 | consecutive points share x and are 20 pixels apart in y |
| Fallback.PathStringSpansPoints | api.js:99-103 | the first point is (150, 280), the last is (150, 40), and the path string is the segment between them |
| Decimal.Render | api.js:125 | the decimal rendering of a number, used for array and string index keys and for path coordinates, is non-empty and digits only, and has a leading zero only for zero |
| Decimal.ParseRender | api.js:125 | reading a rendered number back gives the number, so distinct indices give distinct property keys |
| Json.Truthy | api.js:54 | a value is truthy iff it is none of `undefined`, `null`, `false`, `0` and `""` |
| Json.OptionalMember | api.js:60 | `v?.[key]` is defined iff `v` is an object with an own `key`, and then it is that field; on `undefined`, `null` and every other non-object it is `undefined` |
| Json.ToStringThrows | api.js:59-60 | only objects and arrays can fail to convert to a string; an empty array never does, and an array holding an object with its own `toString` always does |
| Json.SpreadProperties | api.js:125 | `{...data}` copies an object's own fields, one index key per element of an array or character of a string, and nothing from `null`, booleans and numbers |
| Json.IndexedProperties | api.js:125 | spreading an array or string gives exactly the keys "0" to "n-1", key i holding element i |
| StatusProbe.IndexOf | api.js:123 | the result is the first index at or after the start where the pattern occurs, or none when it occurs nowhere there |
| StatusProbe.RemoveFirst | api.js:123 | `replace` with a string pattern removes only its first occurrence, and leaves a string without it unchanged |
| StatusProbe.RemoveFirstSuffix | api.js:123 | when the pattern occurs only at the end, removing the first occurrence strips that suffix |
| StatusProbe.HealthUrl | api.js:123 | the health URL keeps a base URL without `"/api"` whole and strips a base URL's only `"/api"` when it is its suffix, then appends `/health` |
| StatusProbe.ConfiguredHostHasNoApi | api.js:9 | the configured host part has no `"/api"` of its own |
| StatusProbe.HealthUrlOfConfiguredBase | api.js:9-123 | with the configured base URL the probe goes to `http://192.168.249.147:5000/health` |
| StatusProbe.OfflineStatus | api.js:127-131 | the failure result has exactly the keys `online`, `message` and `note`, with `online` false |
| StatusProbe.OnlineStatus | api.js:125 | `{online: true, ...data}` has the key `online` plus the body's own keys; the body's values win, and `online` is true unless the body sets it |
| StatusProbe.CheckBackendStatus | api.js:121-133 | a rejected fetch or unparseable body gives the fixed offline object; any parsed body gives the online status |
| StatusProbe.StatusCodeIgnored | api.js:123-125 | the HTTP status never matters: an error reply with a JSON body counts as online |
| StatusProbe.OfflineExactly | api.js:121-133 | the probe reports `online: false` iff it failed or the body itself set `online` to false |

## Left out

- Timers and cancellation. `setTimeout`, `AbortController` and `clearTimeout` are left out. Their only effect is
  the `Rejected(AbortedByTimeout)` outcome, and `Retrieval.TimeoutMs` just records the deadline.
- The scan's body read. The timer is cleared once the response headers arrive, so `response.json()` runs with no
  deadline. A body that never finishes is a liveness gap and is not modelled.
- The probe's deadline. `checkBackendStatus` sets no timeout. A fetch that never settles is a liveness matter and is
  not modelled.
- Retries. `MAX_RETRIES` and `RETRY_DELAY` are declared but never read, so the model makes one attempt, as the code does.
- Console output. The messages are I/O. What the model keeps is whether building the lines 59-60 strings throws,
  because that changes the result.
- The environment. `Platform.OS` and `new Date().toISOString()` are values from the environment. They become the
  `platform` and `now` parameters.
- Floating point. The calibration values (0.7619, 7.5, 5.714, 32.0) are opaque real constants. No relation among
  them is claimed, because the code does not keep one.
  JSON numbers are exact reals: rounding to doubles, and literals too large for a double, which parse to Infinity,
  are not modelled.
- The serialized request. `JSON.stringify` is not modelled: `Retrieval.ScanHttpRequest` carries the JSON value
  before stringification. The model takes `qrData` to be a string.
- Json.Characters: Dafny strings are sequences of Unicode scalar values, while JavaScript strings are UTF-16 code
  units. A string body with characters outside the Basic Multilingual Plane therefore gets fewer index keys from the
  spread than in JavaScript. Strings holding lone surrogates, which `JSON.parse` can return, cannot be represented.
- Property order. JSON objects are maps, which have no key order. In JavaScript, `{online: true, ...data}` lists
  integer-like keys first and then `online` and the other keys in insertion order. No part of the client reads that
  order.
- Json.Member: reads of `length`, of index keys and of inherited prototype names are not modelled. The client
  reads none of them. The keys it reads are `success`, `navigation`, `mapImage`, `stageDestination` and `totalSteps`.
- The backend. `server.js` is not part of this model. It is Express middleware wiring, route mounting, process
  signal handlers, and float process statistics in the health payload.
