# Taipei weather forecast backend — verified model

The backend fetches the 36-hour general forecast for Taipei from the Central
Weather Administration's open-data API and answers `GET /api/weather/taipei`
with a simplified report. This project models its one piece of logic, the
handler `getTaipeiWeather` in `server.js`, in two parts:

- **Forecast transformer** (`forecast.dfy`, module `Forecast`; properties in
  `forecast_properties.dfy`). The upstream location carries weather elements
  (`Wx`, `PoP`, `MinT`, `MaxT`, `CI`), each a named time series. The transform
  produces one slot per entry of element 0. A slot takes its start and end
  times from element 0. Every element with an entry at that index writes its
  `parameterName` into the field its name selects. `PoP` gains a `%` suffix.
  Unknown names are ignored, a later element overwrites an earlier one of the
  same name, and a field nobody writes stays `""`. The model is the loop
  (`SlotsFrom`, `FoldElements`, `ApplyElement`). Its partner is a reference
  definition, `LastSupplier`/`Field`: a field's value is the rendered entry of
  the last element that carries the name and has an entry at the index. The
  lemma `FoldIsOverlay` proves the two agree.
- **Handler** (`handler.dfy`, module `Handler`; properties in
  `handler_properties.dfy`). A missing or empty API key gives 500 with a
  configuration error, and no request is issued. Otherwise the handler issues
  one request, and the fetch result is a parameter: a transport failure, a
  non-2xx response, or a decoded payload. A payload without
  `records.location` is a 500 with the generic body. An empty location list is
  a 404. Otherwise the first location is transformed and returned as a 200
  success. An upstream HTTP error keeps its status and is echoed under
  `details`, with its message or a fallback.

Absent JavaScript values (`undefined`, `null`) are `Option.None`
(`wrappers.dfy`). A hole in a time series is a `None` entry, and an index past
the end of a series is absent too. The Chinese message texts are represented
by body kinds (`ConfigurationError`, `NotFound`, `ServerError`,
`UpstreamError`).

Element 0 must have an entry at every index. The code reads `.startTime` of
element 0's `i`-th entry (server.js:77) without checking it, so a hole there
throws a `TypeError`. The catch block then answers 500 with the generic body.
The model follows the code: `Transform` returns `None`, and `Respond` answers
`Response(500, ServerError)`.

Three predicates of `Handler` are plain definitions of source tests, with no
contract of their own: `KeyConfigured` is `!CWA_API_KEY` (server.js:26),
`WellShaped` is the shape test of server.js:48, and `MessageOf` is
`message || fallback` (server.js:126). Their effect is stated by the
contracts of `Handle`, `Process` and `Respond`, whose rows cite those lines.

The location list may hold null entries. The 404 test in the code is on the
first entry itself (server.js:53-55), so an empty list and a list whose first
entry is null both answer 404.

## Model

| member | source | states |
|---|---|---|
| Forecast.FoldElements | server.js:86-109 | the in-order pass of all elements over a slot keeps the slot's start and end times (its effect on the fields is stated by FoldIsOverlay) |
| Forecast.SlotAt | server.js:76-109 | slot i as the loop body builds it takes its start and end times from element 0's i-th entry, whatever the other elements hold (its fields are stated by TransformMatchesReference) |
| Forecast.ApplyElement | server.js:86-108 | one element's pass over a slot: if it has an entry at the index, exactly the field its name selects receives the value (PoP with "%"); times and all other fields are unchanged; unknown names change nothing |
| Forecast.SlotsFrom | server.js:75-112 | the loop from index i succeeds exactly when element 0 has an entry at every remaining index, yields one slot per remaining index, in index order |
| Forecast.Transform | server.js:70-113 | the transform succeeds exactly when the element list is empty or element 0 has no holes; the slot count is the length of element 0's series; an empty element list gives no slots |
| Forecast.LastSupplier | server.js:86-108 | the reference definition: it finds the last element that carries the name and has an entry at the index, and no later element does; when it finds none, no element does |
| Forecast.FoldAppend | server.js:86-109 | processing the elements of a + b in order is processing a, then b |
| Forecast.FoldIsOverlay | server.js:79-109 | the per-element loop agrees with the reference definition: each field ends as its last supplier's rendered value, or its starting value if there is none |
| Forecast.TransformMatchesReference | server.js:75-111 | slot i of a successful transform has element 0's i-th start and end times and, in every field, the reference value (PoP with "%", others copied, "" when unsupplied) |
| Forecast.TransformFieldOf | server.js:79-107 | the field that name n selects in slot i equals the reference value of n at i |
| ForecastProperties.OtherElementsKeepCount | server.js:73-78 | two element lists sharing element 0 agree on success, on the slot count and on every slot's times, whatever the other elements hold |
| ForecastProperties.LastSupplierDecides | server.js:92-108 | when element k is the last with name n and an entry at i, the field of n in slot i is its parameterName followed by "%" for PoP and unchanged for Wx, MinT, MaxT and CI |
| ForecastProperties.AbsentSupplierBlank | server.js:79-89 | a field is "" when no element with its name has an entry at that index |
| ForecastProperties.MissingElementBlank | server.js:79-108 | an element name absent from the list leaves its field "" in every slot |
| ForecastProperties.RainEmptyIffNoPoP | server.js:80-98 | rain is "" exactly when no PoP element has an entry at that index |
| ForecastProperties.AppendedElementApplies | server.js:86-111 | appending an element keeps success and the slot count, and transforms each slot exactly by that element's pass |
| ForecastProperties.LaterDuplicateWins | server.js:86-108 | an appended element with a known name and an entry at i overwrites that field in slot i, whatever earlier elements of that name held |
| ForecastProperties.UnknownElementIgnored | server.js:92-108 | inserting an element with an unknown name anywhere after element 0 leaves the transform unchanged |
| ForecastProperties.GapLeavesOtherIndex | server.js:88-89 | a hole at index i in a later element leaves every slot at another index unchanged |
| ForecastProperties.GapAtIndex | server.js:79-89 | a hole at index i in a later element keeps slot i's times and every other field, and blanks its own field when no other element shares its name |
| ForecastProperties.GapIsLocal | server.js:79-89 | a hole in a later element keeps success and the slot count, and changes at most its own field at its own index |
| Handler.Process | server.js:48-113 | outcome after the fetch: not found exactly for a well-shaped payload whose location list is empty or starts with null; a report exactly when well-shaped, with a non-null first location whose transform succeeds; the report carries that location's name as city, the dataset description as update time, and the location's transform as forecasts |
| Handler.Respond | server.js:48-135 | status and body per fetch result: upstream errors exactly for HTTP errors, mirroring the status, carrying the upstream message, or the fallback exactly when that message is missing or empty, and echoing the body as details; success (200) exactly for a processed report, whose data is that report; not found (404) exactly for the not-found outcome; generic errors are 500 |
| Handler.Handle | server.js:26-45 | no request is issued exactly when the key is undefined or the empty string, and then the answer is a 500 configuration error; otherwise the request carries the key, the city and sort=time |
| HandlerProperties.MissingKeySkipsFetch | server.js:26-32 | without a key the answer does not depend on the upstream result and is 500 with the configuration error |
| HandlerProperties.ConfiguredKeyFetches | server.js:36-45 | with a key the handler issues the fixed request and answers from the upstream result |
| HandlerProperties.MalformedPayloadIsServerError | server.js:48-49 | a payload without records.location gives 500 with the generic body |
| HandlerProperties.EmptyLocationsNotFound | server.js:53-60 | an empty location list gives 404 with the not-found body |
| HandlerProperties.NullFirstLocationNotFound | server.js:53-60 | a location list whose first entry is null gives 404 with the not-found body |
| HandlerProperties.EmptyElementsSucceed | server.js:63-72 | a missing or empty element list gives a 200 success with no forecasts |
| HandlerProperties.UpstreamErrorMirrored | server.js:122-128 | an upstream HTTP error keeps its status, echoes its body as details, and carries its message or, if missing or empty, the fallback |
| HandlerProperties.TransportFailureIsServerError | server.js:131-135 | a failure without an upstream response gives 500 with the generic body and no details |
| HandlerProperties.SuccessIffTransformable | server.js:48-118 | success exactly when the payload is well-shaped, its first location is non-null, and that location's element 0 has no holes; the answer is then 200 with that location's name as city, the dataset description as update time and the location's transform as forecasts |
| HandlerProperties.FirstElementHoleIsServerError | server.js:75-78 | a hole in element 0 of the first location gives 500 with the generic body |
| HandlerProperties.FirstLocationOnly | server.js:53 | locations after the first never affect the answer |
| HandlerProperties.OkStatusIffSuccess | server.js:115-135 | when upstream errors are non-2xx, the answer has status 200 exactly when it is a success |

## Left out

- The Express app, CORS and body-parsing middleware, the `/` and `/api/health` routes, the catch-all error middleware and the 404 handler (server.js:6-16, 139-172): framework wiring. The health timestamp also depends on the wall clock.
- The axios GET itself (server.js:36-45): a network client. Only the query it would carry and its result, as `FetchResult`, are modelled.
- dotenv, reading `process.env`, and `app.listen` with its startup logs (server.js:1, 7, 11, 174-178): environment and I/O. The key is a parameter.
- `console.error` logging and JSON serialisation of the response bodies: side effects and library behaviour.
- The exact message texts of the error bodies: represented by body kinds.
- Elements assumed well-formed: every element has a `time` array. In the source, a later element without one throws at server.js:88 once the loop runs (element 0 has at least one entry), leading to the generic 500.
- Parameters assumed present: every present entry has a `parameter` object with a string `parameterName`. In the source, a missing `parameter` throws only inside the five `case` arms (server.js:94-106), so for an element with an unknown name it is harmless, which the model agrees with. For a known name it throws and leads to the generic 500. A missing `parameterName` would produce `undefined` or `"undefined%"`.
- Text fields assumed present: `startTime`, `endTime` (server.js:77-78), `locationName` and `datasetDescription` (server.js:64-65) are always-present strings in the model. In the source a missing one is `undefined`, and that key is dropped from the JSON answer.
- The upstream error body is assumed to be present. An upstream error without a body makes the catch block itself throw; that path is not modelled.
- Upstream status range: the HTTP client raises an error only for non-2xx statuses by default. `HttpError` does not enforce this; the model mirrors whatever status it is given.
