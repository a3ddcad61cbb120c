/**
 The request handler of `getTaipeiWeather`: the API-key check, the shape check
 of the upstream payload, the first-location selection, and the mapping of
 every outcome (success, configuration error, not found, upstream HTTP error,
 any other failure) to an HTTP status and a response body.

 The upstream call itself is not modelled; its result is a parameter, and the
 handler reports which request it would have issued, if any.
 */
module Handler {
  import opened Wrappers
  import opened Forecast

  /** One upstream location: its name and its weather elements (possibly missing). */
  datatype Location = Location(locationName: string, weatherElement: Option<seq<Element>>)

  /** The `records` object: a description used as the update time, and the
      location list (possibly missing); an entry of the list may be null. */
  datatype Records = Records(datasetDescription: string, location: Option<seq<Option<Location>>>)

  /** The decoded upstream JSON, whose `records` may be missing. */
  datatype Payload = Payload(records: Option<Records>)

  /** The body of an upstream error response: its optional `message`, and the
      rest of the body, kept whole because it is echoed back as `details`. */
  datatype UpstreamBody = UpstreamBody(message: Option<string>, rest: string)

  /** What the upstream call produced: no response at all, a non-2xx
      response, or a 2xx response whose decoded body may be missing. */
  datatype FetchResult =
    | TransportFailure
    | HttpError(status: int, body: UpstreamBody)
    | Fetched(data: Option<Payload>)

  /** The query of the one outbound GET. */
  datatype Request = Request(authorization: string, locationName: string, sort: string)

  /** The success payload. */
  datatype WeatherReport = WeatherReport(city: string, updateTime: string, forecasts: seq<Slot>)

  /** The message of an upstream error body: the upstream's own, or the fixed fallback. */
  datatype Message = UpstreamMessage(text: string) | FallbackMessage

  /** Response bodies, by kind; the fixed message texts are not modelled. */
  datatype Body =
    | Success(data: WeatherReport)
    | ConfigurationError
    | NotFound
    | UpstreamError(message: Message, details: UpstreamBody)
    | ServerError

  datatype Response = Response(status: int, body: Body)

  /** The request the handler issued (`None` when it issued none) and its response. */
  datatype Exchange = Exchange(request: Option<Request>, response: Response)

  /** What the code after the upstream call arrives at before answering. */
  datatype Outcome = Report(report: WeatherReport) | NoLocation | Thrown

  /** The fixed city queried upstream. */
  const CityName: string := "臺北市"

  /** The fixed sort directive of the query. */
  const SortOrder: string := "time"

  /** The key counts as set unless it is falsy: undefined or the empty string. */
  predicate KeyConfigured(apiKey: Option<string>) {
    apiKey.Some? && apiKey.value != ""
  }

  /** True when the payload has `data`, `records` and `records.location`. */
  predicate WellShaped(data: Option<Payload>) {
    data.Some? && data.value.records.Some? && data.value.records.value.location.Some?
  }

  /** The first entry of the location list; a missing entry (an empty list)
      and a null entry are both absent. */
  function FirstLocation(locs: seq<Option<Location>>): Option<Location> {
    if |locs| == 0 then None else locs[0]
  }

  /** The element list of a location; a missing list behaves as an empty one. */
  function ElementsOf(loc: Location): seq<Element> {
    loc.weatherElement.GetOr([])
  }

  /** Shape check, first-location selection and transform. A malformed
      payload, or a transform that throws, is `Thrown`. */
  function Process(data: Option<Payload>): (o: Outcome)
    ensures o.NoLocation? <==>
      && WellShaped(data)
      && var locs := data.value.records.value.location.value;
         |locs| == 0 || locs[0] == None
    ensures o.Report? <==>
      && WellShaped(data)
      && var locs := data.value.records.value.location.value;
         && |locs| > 0 && locs[0].Some?
         && Transform(ElementsOf(locs[0].value)).Some?
    ensures o.Report? ==>
      var recs := data.value.records.value;
      var loc := recs.location.value[0].value;
      && o.report.city == loc.locationName
      && o.report.updateTime == recs.datasetDescription
      && o.report.forecasts == Transform(ElementsOf(loc)).value
      && |o.report.forecasts| == TimeCount(ElementsOf(loc))
  {
    if !WellShaped(data) then Thrown
    else
      var recs := data.value.records.value;
      match FirstLocation(recs.location.value)
      case None => NoLocation
      case Some(loc) =>
        match Transform(ElementsOf(loc))
        case None => Thrown
        case Some(forecasts) => Report(WeatherReport(loc.locationName, recs.datasetDescription, forecasts))
  }

  /** The upstream message when it is present and non-empty, else the fallback. */
  function MessageOf(b: UpstreamBody): Message {
    if b.message.Some? && b.message.value != "" then UpstreamMessage(b.message.value) else FallbackMessage
  }

  /** The response once the upstream call has completed or failed. */
  function Respond(upstream: FetchResult): (r: Response)
    ensures r.body.UpstreamError? <==> upstream.HttpError?
    ensures upstream.HttpError? ==>
      && r.status == upstream.status
      && r.body.message == MessageOf(upstream.body)
      && r.body.details == upstream.body
    ensures upstream.HttpError? ==>
      (r.body.message == FallbackMessage <==>
         upstream.body.message == None || upstream.body.message == Some(""))
    ensures upstream.HttpError? && r.body.message.UpstreamMessage? ==>
      Some(r.body.message.text) == upstream.body.message
    ensures r.body.Success? ==> upstream.Fetched? && Process(upstream.data) == Report(r.body.data)
    ensures r.body.Success? <==> upstream.Fetched? && Process(upstream.data).Report?
    ensures r.body.NotFound? <==> upstream.Fetched? && Process(upstream.data).NoLocation?
    ensures r.body.Success? ==> r.status == 200
    ensures r.body.NotFound? ==> r.status == 404
    ensures r.body.ServerError? ==> r.status == 500
    ensures !r.body.ConfigurationError?
  {
    match upstream
    case TransportFailure => Response(500, ServerError)
    case HttpError(status, body) => Response(status, UpstreamError(MessageOf(body), body))
    case Fetched(data) =>
      match Process(data)
      case Report(report) => Response(200, Success(report))
      case NoLocation => Response(404, NotFound)
      case Thrown => Response(500, ServerError)
  }

  /** The whole handler: without a key it answers 500 with a configuration
      error and issues no request; with one it issues the fixed query and
      answers from the upstream result. */
  function Handle(apiKey: Option<string>, upstream: FetchResult): (x: Exchange)
    ensures x.request.None? <==> apiKey == None || apiKey == Some("")
    ensures x.request.Some? ==> x.request.value == Request(apiKey.value, CityName, SortOrder)
    ensures x.response.body.ConfigurationError? <==> apiKey == None || apiKey == Some("")
    ensures x.response.body.ConfigurationError? ==> x.response.status == 500
  {
    if !KeyConfigured(apiKey) then Exchange(None, Response(500, ConfigurationError))
    else Exchange(Some(Request(apiKey.value, CityName, SortOrder)), Respond(upstream))
  }
}
