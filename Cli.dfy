/**
 * The command-line front end: the policy that turns the options into a
 * location, and the flow of `main` from resolution through the forecast
 * fetch to the printed report or the exit status.  Printing, exiting and the
 * HTTP exchanges are recorded as events of a trace.
 */
module Cli {
  import opened Wrappers
  import opened Text
  import opened Api
  import opened Formatter

  /** The parsed options; an option not given is `None`. */
  datatype Args = Args(
    city: Option<string>, country: Option<string>, lat: Option<real>, lon: Option<real>, days: int, verbose: bool)

  /** What `resolve_location` decides to do with the options. */
  datatype Resolution =
    | Geocode(city: string, country: Option<string>)
    | Direct(location: Location)
    | UsageError

  /** A location resolved, the usage error, or an exception raised while geocoding. */
  datatype Resolved = Found(location: Location) | Usage | Failed(error: Error)

  /** What goes to standard error before exiting with status 1. */
  datatype Diagnostic = UsageHint | ResolveFailed(error: Error) | FetchFailed(error: Error)

  /** The observable steps of one invocation, in order. */
  datatype Event =
    | GeocodeRequest(geoQuery: GeoQuery)
    | ForecastRequest(forecastQuery: ForecastQuery)
    | PrintResolved(line: string)   // the verbose "Resolved location" line, to standard output
    | PrintReport(report: string)   // the full report, to standard output
    | PrintError(diagnostic: Diagnostic)
    | Traceback(error: Error)       // an exception `main` does not catch

  /** The name given to a location entered as coordinates: both rendered to two decimals. */
  function CoordinateName(lat: real, lon: real, render: Render): string {
    render(lat, TwoDecimals) + "," + render(lon, TwoDecimals)
  }

  /**
   * `resolve_location` as a decision: a non-empty city wins, then a complete
   * pair of coordinates, and anything else is a usage error.
   */
  function ResolvePolicy(args: Args, render: Render): (r: Resolution)
    ensures Present(args.city) ==> r == Geocode(args.city.value, args.country)
    ensures r.Direct? <==> !Present(args.city) && args.lat.Some? && args.lon.Some?
    ensures r.Direct? ==>
      r.location == Location(CoordinateName(args.lat.value, args.lon.value, render), args.lat.value, args.lon.value, None)
    ensures r.UsageError? <==> !Present(args.city) && (args.lat.None? || args.lon.None?)
  {
    if Present(args.city) then Geocode(args.city.value, args.country)
    else if args.lat.Some? && args.lon.Some? then
      Direct(Location(CoordinateName(args.lat.value, args.lon.value, render), args.lat.value, args.lon.value, None))
    else UsageError
  }

  /** With a non-empty city, the coordinates play no part in the decision. */
  lemma CityTakesPrecedence(args: Args, lat: Option<real>, lon: Option<real>, render: Render)
    requires Present(args.city)
    ensures ResolvePolicy(args.(lat := lat, lon := lon), render) == ResolvePolicy(args, render)
    ensures ResolvePolicy(args, render).Geocode?
  {
  }

  /** An empty city counts as no city: the decision is the one made without `--city`. */
  lemma EmptyCityIsAbsent(args: Args, render: Render)
    requires args.city == Some("")
    ensures ResolvePolicy(args, render) == ResolvePolicy(args.(city := None), render)
  {
  }

  /** `resolve_location` with the geocoding lookup carried out. */
  function ResolveLocation(args: Args, geocoder: GeoQuery -> Reply<GeoBody>, render: Render): (r: Resolved)
    ensures r.Usage? <==> ResolvePolicy(args, render).UsageError?
    ensures r.Failed? ==> ResolvePolicy(args, render).Geocode?
    ensures ResolvePolicy(args, render).Direct? ==> r == Found(ResolvePolicy(args, render).location)
    ensures Present(args.city) ==>
      (r.Found? <==> GeocodeCity(args.city.value, args.country, geocoder).Success?)
    ensures Present(args.city) && r.Found? ==> r.location == GeocodeCity(args.city.value, args.country, geocoder).value
    ensures r.Failed? ==> r.error == GeocodeCity(args.city.value, args.country, geocoder).error
  {
    match ResolvePolicy(args, render)
    case UsageError => Usage
    case Direct(location) => Found(location)
    case Geocode(city, country) =>
      match GeocodeCity(city, country, geocoder)
      case Success(location) => Found(location)
      case Failure(e) => Failed(e)
  }

  /** The errors `main` catches around `resolve_location`: ApiError and ValueError. */
  predicate CaughtWhileResolving(e: Error) {
    e.ApiError? || e.NotFound?
  }

  /** The only error `main` catches around `fetch_forecast`: ApiError. */
  predicate CaughtWhileFetching(e: Error) {
    e.ApiError?
  }

  /** The verbose line: label and coordinates to four decimals. */
  function ResolvedLine(location: Location, render: Render): (line: string)
    ensures var head := "Resolved location: " + LocationLabel(location) + " (";
      |head| < |line| && line[..|head|] == head && line[|line| - 1] == ')'
    ensures Contains(line, render(location.latitude, FourDecimals) + ", " + render(location.longitude, FourDecimals))
  {
    var head := "Resolved location: " + LocationLabel(location) + " (";
    var coordinates := render(location.latitude, FourDecimals) + ", " + render(location.longitude, FourDecimals);
    ThreePartsOccur(head, coordinates, ")");
    head + coordinates + ")"
  }

  /** What the fetch step ends in: the text of the full report, or the exception raised. */
  function FetchReport(r: Result<Forecast, Error>, render: Render): Result<string, Error> {
    match r
    case Success(f) => Success(Join(ReportLines(f, render), '\n'))
    case Failure(e) => Failure(e)
  }

  /** The geocoding request the resolution makes, if any. */
  function GeocodeEvents(args: Args, render: Render): seq<Event> {
    match ResolvePolicy(args, render)
    case Geocode(city, country) => [GeocodeRequest(GeocodeQuery(city, country))]
    case _ => []
  }

  /** The trace of one invocation and its exit status. */
  datatype Outcome = Outcome(trace: seq<Event>, exitCode: int)

  /**
   * The steps of `main` once the resolution is known, with `fetch` standing
   * for the forecast fetch and formatting of a resolved location.
   */
  function Steps(args: Args, resolved: Resolved, fetch: Location -> Result<string, Error>, render: Render): Outcome {
    match resolved
    case Usage => Outcome([PrintError(UsageHint)], 1)
    case Failed(e) =>
      Outcome(GeocodeEvents(args, render) + [if CaughtWhileResolving(e) then PrintError(ResolveFailed(e)) else Traceback(e)], 1)
    case Found(location) =>
      var rest := FetchEvents(args, location, fetch, render);
      Outcome(GeocodeEvents(args, render) + rest.trace, rest.exitCode)
  }

  /** The steps of `main` after a location is resolved: announce it with `--verbose`, request, then report or fail. */
  function FetchEvents(args: Args, location: Location, fetch: Location -> Result<string, Error>, render: Render): Outcome {
    var announce := if args.verbose then [PrintResolved(ResolvedLine(location, render))] else [];
    Finish(announce, ForecastRequest(ForecastParams(location, ClampDays(args.days))), fetch(location))
  }

  /** After the announcement and the request: print the report and exit with 0, or report the failure. */
  function Finish(announce: seq<Event>, request: Event, fetched: Result<string, Error>): Outcome {
    match fetched
    case Success(report) => Outcome(announce + [request, PrintReport(report)], 0)
    case Failure(e) => Outcome(announce + [request, if CaughtWhileFetching(e) then PrintError(FetchFailed(e)) else Traceback(e)], 1)
  }

  /** The fetch step of `main` for a resolved location: fetch for the clamped `--days`, then format. */
  function FetchStep(args: Args, forecaster: ForecastQuery -> Reply<ForecastBody>, render: Render): Location -> Result<string, Error> {
    location =>
      var days := ClampDays(args.days);
      FetchReport(ForecastFromReply(location, days, forecaster(ForecastParams(location, days))), render)
  }

  /** What `main` does after argument parsing: the reference definition `Run` is proved against. */
  function MainOutcome(args: Args, geocoder: GeoQuery -> Reply<GeoBody>, forecaster: ForecastQuery -> Reply<ForecastBody>, render: Render): Outcome {
    Steps(args, ResolveLocation(args, geocoder, render), FetchStep(args, forecaster, render), render)
  }

  /**
   * `main` after argument parsing: resolve, optionally announce the location,
   * fetch the forecast for `--days` as given, print the report.  Returns what
   * happened, in order, and the exit status (an uncaught exception exits with 1).
   */
  method Run(args: Args, geocoder: GeoQuery -> Reply<GeoBody>, forecaster: ForecastQuery -> Reply<ForecastBody>, render: Render)
    returns (trace: seq<Event>, exitCode: int)
    ensures Outcome(trace, exitCode) == MainOutcome(args, geocoder, forecaster, render)
  {
    var location: Location;
    trace := [];
    match ResolvePolicy(args, render) {
      case UsageError =>
        trace := [PrintError(UsageHint)];
        exitCode := 1;
        return;
      case Direct(direct) =>
        location := direct;
      case Geocode(city, country) =>
        trace := [GeocodeRequest(GeocodeQuery(city, country))];
        var found := GeocodeCity(city, country, geocoder);
        if found.Failure? {
          if CaughtWhileResolving(found.error) {
            trace := trace + [PrintError(ResolveFailed(found.error))];
          } else {
            trace := trace + [Traceback(found.error)];
          }
          exitCode := 1;
          return;
        }
        location := found.value;
    }
    assert ResolveLocation(args, geocoder, render) == Found(location);
    var rest, code := FetchAndPrint(args, location, forecaster, render);
    trace := trace + rest;
    exitCode := code;
  }

  /** The second half of `main`: announce the location with `--verbose`, fetch the forecast, print the report. */
  method FetchAndPrint(args: Args, location: Location, forecaster: ForecastQuery -> Reply<ForecastBody>, render: Render)
    returns (trace: seq<Event>, exitCode: int)
    ensures Outcome(trace, exitCode) == FetchEvents(args, location, FetchStep(args, forecaster, render), render)
  {
    var announce := [];
    if args.verbose {
      announce := [PrintResolved(ResolvedLine(location, render))];
    }
    var query, forecast := FetchForecast(location, args.days, forecaster);
    var fetched := FormatFetched(forecast, render);
    assert FetchStep(args, forecaster, render)(location) == fetched;
    trace, exitCode := PrintFetched(announce, ForecastRequest(query), fetched);
  }

  /** Formats a fetched forecast; a failure passes through. */
  method FormatFetched(forecast: Result<Forecast, Error>, render: Render) returns (fetched: Result<string, Error>)
    ensures fetched == FetchReport(forecast, render)
  {
    match forecast {
      case Failure(e) =>
        fetched := Failure(e);
      case Success(f) =>
        var report := FormatFullForecast(f, render);
        fetched := Success(report);
    }
  }

  /** Prints the report, or the error, after the announcement and the request. */
  method PrintFetched(announce: seq<Event>, request: Event, fetched: Result<string, Error>)
    returns (trace: seq<Event>, exitCode: int)
    ensures Outcome(trace, exitCode) == Finish(announce, request, fetched)
  {
    trace := announce + [request];
    if fetched.Failure? {
      if CaughtWhileFetching(fetched.error) {
        trace := trace + [PrintError(FetchFailed(fetched.error))];
      } else {
        trace := trace + [Traceback(fetched.error)];
      }
      exitCode := 1;
      return;
    }
    trace := trace + [PrintReport(fetched.value)];
    exitCode := 0;
  }

  /** The exit status is 0 exactly when the report is printed; the report or a failure is always the last step. */
  lemma ExitStatus(args: Args, resolved: Resolved, fetch: Location -> Result<string, Error>, render: Render)
    ensures var o := Steps(args, resolved, fetch, render);
      && |o.trace| >= 1
      && (o.exitCode == 0 || o.exitCode == 1)
      && (o.exitCode == 0 <==> o.trace[|o.trace| - 1].PrintReport?)
      && (forall i | 0 <= i < |o.trace| - 1 :: !o.trace[i].PrintReport? && !o.trace[i].PrintError? && !o.trace[i].Traceback?)
  {
  }

  /** Without a city and a complete pair of coordinates, the usage error is all that happens. */
  lemma UsageErrorBeforeNetwork(args: Args, geocoder: GeoQuery -> Reply<GeoBody>, fetch: Location -> Result<string, Error>, render: Render)
    requires !Present(args.city) && (args.lat.None? || args.lon.None?)
    ensures Steps(args, ResolveLocation(args, geocoder, render), fetch, render) == Outcome([PrintError(UsageHint)], 1)
  {
  }

  /** Geocoding is the first step when a city is given, and never happens otherwise. */
  lemma GeocodeOnlyForCity(args: Args, geocoder: GeoQuery -> Reply<GeoBody>, fetch: Location -> Result<string, Error>, render: Render)
    ensures var o := Steps(args, ResolveLocation(args, geocoder, render), fetch, render);
      && (Present(args.city) ==> o.trace[0] == GeocodeRequest(GeocodeQuery(args.city.value, args.country)))
      && (forall i | 0 <= i < |o.trace| :: o.trace[i].GeocodeRequest? ==> i == 0 && Present(args.city))
  {
  }

  /** Coordinates without a city resolve directly: the first step is the announcement or the forecast request. */
  lemma CoordinatesSkipGeocoding(args: Args, geocoder: GeoQuery -> Reply<GeoBody>, fetch: Location -> Result<string, Error>, render: Render)
    requires !Present(args.city) && args.lat.Some? && args.lon.Some?
    ensures var location := Location(CoordinateName(args.lat.value, args.lon.value, render), args.lat.value, args.lon.value, None);
      && ResolveLocation(args, geocoder, render) == Found(location)
      && Steps(args, Found(location), fetch, render).trace[0] ==
           (if args.verbose then PrintResolved(ResolvedLine(location, render))
            else ForecastRequest(ForecastParams(location, ClampDays(args.days))))
  {
  }

  /** A failed resolution exits with 1 before any forecast request; only ApiError and ValueError are caught. */
  lemma ResolutionFailureStops(args: Args, geocoder: GeoQuery -> Reply<GeoBody>, fetch: Location -> Result<string, Error>, render: Render)
    requires ResolveLocation(args, geocoder, render).Failed?
    ensures var e := ResolveLocation(args, geocoder, render).error;
      Steps(args, Failed(e), fetch, render) ==
        Outcome([GeocodeRequest(GeocodeQuery(args.city.value, args.country)),
                 if e.ApiError? || e.NotFound? then PrintError(ResolveFailed(e)) else Traceback(e)], 1)
  {
  }

  /** The forecast is requested once, exactly when a location is resolved, for the clamped `--days`. */
  lemma ForecastRequestedOnce(args: Args, resolved: Resolved, fetch: Location -> Result<string, Error>, render: Render)
    ensures var o := Steps(args, resolved, fetch, render);
      && (forall i | 0 <= i < |o.trace| :: o.trace[i].ForecastRequest? ==>
            resolved.Found? && i == |o.trace| - 2 &&
            o.trace[i].forecastQuery == ForecastParams(resolved.location, ClampDays(args.days)))
      && (resolved.Found? ==> |o.trace| >= 2 && o.trace[|o.trace| - 2].ForecastRequest?)
  {
  }

  /** The "Resolved location" line is printed only with `--verbose`, immediately before the forecast request. */
  lemma VerboseLineBeforeFetch(args: Args, resolved: Resolved, fetch: Location -> Result<string, Error>, render: Render)
    ensures var o := Steps(args, resolved, fetch, render);
      && (forall i | 0 <= i < |o.trace| :: o.trace[i].PrintResolved? ==>
            args.verbose && resolved.Found? && o.trace[i].line == ResolvedLine(resolved.location, render) &&
            i + 1 < |o.trace| && o.trace[i + 1].ForecastRequest?)
      && (args.verbose && resolved.Found? ==>
            |o.trace| >= 3 && o.trace[|o.trace| - 3] == PrintResolved(ResolvedLine(resolved.location, render)))
  {
  }

  /**
   * After a resolved location, a failed fetch exits with 1 and prints no
   * report; only ApiError is caught, anything else ends in a traceback.
   */
  lemma FetchFailureStops(args: Args, location: Location, fetch: Location -> Result<string, Error>, render: Render)
    ensures var o := Steps(args, Found(location), fetch, render);
      var r := fetch(location);
      && (r.Failure? ==> o.exitCode == 1 && (forall i | 0 <= i < |o.trace| :: !o.trace[i].PrintReport?))
      && (r.Failure? && r.error.ApiError? ==> o.trace[|o.trace| - 1] == PrintError(FetchFailed(r.error)))
      && (r.Failure? && !r.error.ApiError? ==> o.trace[|o.trace| - 1] == Traceback(r.error))
      && (r.Success? ==> o.exitCode == 0 && o.trace[|o.trace| - 1] == PrintReport(r.value))
  {
  }

  /** The fetch step requests the clamped day count and yields the formatted report of the forecast, or its error unchanged. */
  lemma FetchStepReports(args: Args, forecaster: ForecastQuery -> Reply<ForecastBody>, render: Render, location: Location)
    ensures var days := ClampDays(args.days);
      var r := ForecastFromReply(location, days, forecaster(ForecastParams(location, days)));
      var step := FetchStep(args, forecaster, render)(location);
      && (r.Success? <==> step.Success?)
      && (r.Success? ==> step.value == Join(ReportLines(r.value, render), '\n'))
      && (r.Failure? ==> step.error == r.error)
  {
  }
}
