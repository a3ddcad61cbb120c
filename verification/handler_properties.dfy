/**
 Properties of the request handler: which outcome each upstream result leads
 to, that a missing key stops the handler before any request, and that only
 the first location and its transform decide a successful answer.
 */
module HandlerProperties {
  import opened Wrappers
  import opened Forecast
  import opened Handler

  /** Without a key the handler issues no request, so the upstream result
      cannot influence the answer, which is 500 with a configuration error. */
  lemma MissingKeySkipsFetch(apiKey: Option<string>, u: FetchResult, u': FetchResult)
    requires !KeyConfigured(apiKey)
    ensures Handle(apiKey, u) == Handle(apiKey, u')
    ensures Handle(apiKey, u) == Exchange(None, Response(500, ConfigurationError))
  {
  }

  /** With a key, the answer is the one the upstream result dictates. */
  lemma ConfiguredKeyFetches(apiKey: Option<string>, u: FetchResult)
    requires KeyConfigured(apiKey)
    ensures Handle(apiKey, u) == Exchange(Some(Request(apiKey.value, CityName, SortOrder)), Respond(u))
  {
  }

  /** A payload without `records.location` is a 500 with the generic body. */
  lemma MalformedPayloadIsServerError(data: Option<Payload>)
    requires !WellShaped(data)
    ensures Respond(Fetched(data)) == Response(500, ServerError)
  {
  }

  /** An empty location list is a 404 with the not-found body. */
  lemma EmptyLocationsNotFound(desc: string)
    ensures Respond(Fetched(Some(Payload(Some(Records(desc, Some([]))))))) == Response(404, NotFound)
  {
  }

  /** A null first entry of the location list is a 404 as well. */
  lemma NullFirstLocationNotFound(desc: string, rest: seq<Option<Location>>)
    ensures Respond(Fetched(Some(Payload(Some(Records(desc, Some([None] + rest)))))))
      == Response(404, NotFound)
  {
  }

  /** A first location whose element list is missing or empty is a success
      with no forecasts, not an error. */
  lemma EmptyElementsSucceed(desc: string, loc: Location, rest: seq<Option<Location>>)
    requires loc.weatherElement == None || loc.weatherElement == Some([])
    ensures Respond(Fetched(Some(Payload(Some(Records(desc, Some([Some(loc)] + rest)))))))
      == Response(200, Success(WeatherReport(loc.locationName, desc, [])))
  {
  }

  /** An upstream HTTP error keeps its status and is echoed under `details`,
      with the upstream message unless it is missing or empty. */
  lemma UpstreamErrorMirrored(status: int, b: UpstreamBody)
    ensures Respond(HttpError(status, b)).status == status
    ensures Respond(HttpError(status, b)).body.details == b
    ensures b.message.Some? && b.message.value != "" ==>
      Respond(HttpError(status, b)).body.message == UpstreamMessage(b.message.value)
    ensures b.message.None? || b.message == Some("") ==>
      Respond(HttpError(status, b)).body.message == FallbackMessage
  {
  }

  /** A failure without an upstream response is a 500 with no details. */
  lemma TransportFailureIsServerError()
    ensures Respond(TransportFailure) == Response(500, ServerError)
  {
  }

  /** A success is exactly a well-shaped payload with a non-null first
      location whose element 0 has an entry at every index (or that has no
      elements); its body then carries that location's name as the city, the
      dataset description as the update time, and the location's transform. */
  lemma SuccessIffTransformable(data: Option<Payload>)
    ensures Respond(Fetched(data)).body.Success? <==>
      && WellShaped(data)
      && var locs := data.value.records.value.location.value;
         && |locs| > 0 && locs[0].Some?
         && var es := ElementsOf(locs[0].value);
            |es| == 0 || Complete(es[0])
    ensures Respond(Fetched(data)).body.Success? ==>
      var recs := data.value.records.value;
      var loc := recs.location.value[0].value;
      Respond(Fetched(data)) == Response(200, Success(WeatherReport(
        loc.locationName, recs.datasetDescription, Transform(ElementsOf(loc)).value)))
  {
  }

  /** A hole in element 0 of the first location is a 500 with the generic body. */
  lemma FirstElementHoleIsServerError(desc: string, loc: Location, rest: seq<Option<Location>>, i: nat)
    requires loc.weatherElement.Some? && |loc.weatherElement.value| > 0
    requires i < |loc.weatherElement.value[0].time| && loc.weatherElement.value[0].time[i] == None
    ensures Respond(Fetched(Some(Payload(Some(Records(desc, Some([Some(loc)] + rest)))))))
      == Response(500, ServerError)
  {
    assert !Complete(loc.weatherElement.value[0]);
  }

  /** Only the first location is read: the locations after it never matter. */
  lemma FirstLocationOnly(desc: string, first: Option<Location>, rest: seq<Option<Location>>, rest': seq<Option<Location>>)
    ensures Respond(Fetched(Some(Payload(Some(Records(desc, Some([first] + rest)))))))
      == Respond(Fetched(Some(Payload(Some(Records(desc, Some([first] + rest')))))))
  {
    assert ([first] + rest)[0] == ([first] + rest')[0];
  }

  /** Upstream errors are non-2xx responses; given that, the answer is 200
      exactly when it is a success. */
  lemma OkStatusIffSuccess(u: FetchResult)
    requires u.HttpError? ==> !(200 <= u.status < 300)
    ensures Respond(u).status == 200 <==> Respond(u).body.Success?
  {
  }
}
