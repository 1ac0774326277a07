# weather-cli in Dafny

A model of a small command-line weather client for the Open-Meteo service.
Given a city (optionally a country), or a latitude and a longitude, it
resolves a location through the geocoding service, fetches the current
conditions and a daily forecast of 1 to 7 days, and prints a multi-line
report. The model covers:

- `Api`: the records (`Location`, `CurrentWeather`, `DailyForecastDay`,
  `Forecast`). It also covers the decision logic of `geocode_city` and
  `fetch_forecast`:
  - the query parameters each builds;
  - which error each raises and when;
  - how the first geocoding result, the current conditions and the daily
    series become records.

  An HTTP exchange is a function parameter from the query parameters to a
  `Reply`. A `Reply` is either a transport failure or a status with the
  decoded JSON body, and the body is given as datatypes with `Option`
  fields for keys that may be missing. `FetchForecast` keeps the source's
  loop and is proved against the function `ForecastFromReply`.
- `Formatter`: the icon table and the description buckets of the WMO
  weather codes, the current-conditions line, the daily line and the full
  report. `FormatFullForecast` keeps the source's line-by-line loop and is
  proved against `ReportLines`.
- `Cli`: the `resolve_location` policy and the flow of `main`. That flow
  runs from resolution through the fetch to the printed report or the exit
  status. `main` is a method `Run` that returns a trace of events and an
  exit code. The events are the requests, the printed lines and an
  uncaught exception (a traceback, exit status 1). `Run` is proved against
  the function `MainOutcome`.
- `Text`: the decimal rendering of an integer (`str(int)`) with its parser
  as a partner, `join`/`split` on a separator, and substring containment.

Floats are never rendered in the model. Every `:.1f`, `:4.1f`, `:.2f` and
`:.4f` is a call of an uninterpreted `Render` parameter with a
`NumberStyle`.

The icon glyphs are the emoji that the tests in `tests/test_formatter.py`
expect. They are written as `\U{...}` escapes, with the emoji presentation
selector U+FE0F wherever the table's literal has one. The literals in
`weather_cli/formatter.py` read as UTF-8 text shown in Windows-1252; the
degree sign of `°C` is read the same way.

## Model

| member | source | states |
|---|---|---|
| Formatter.Glyph | weather_cli/formatter.py:13-36 | every icon, the fallback included, prints as a non-empty string |
| Formatter.GlyphInjective | weather_cli/formatter.py:13-36 | the ten icons print as ten different strings |
| Formatter.WeatherCodeToIcon | weather_cli/formatter.py:8-36 | the question-mark icon is returned exactly for the codes outside the 21-code table |
| Formatter.TableSamples | tests/test_formatter.py:11-27 | codes 0, 61 and 95 give sun, rain and thunderstorm; 999 gives the question mark; 0, 2, 61, 71 and 95 give "Clear sky", "Cloudy", "Rain", "Snow" and "Thunderstorm" |
| Formatter.FallbackDescription | weather_cli/formatter.py:55 | the fallback text begins with "Code " followed by at least one character |
| Formatter.WeatherCodeToDescription | weather_cli/formatter.py:39-55 | each bucket's text is returned if and only if the code is in that bucket; the "Code n" fallback is returned exactly for codes outside the table |
| Formatter.TablesCoverSameCodes | weather_cli/formatter.py:13-55 | a code has a real icon if and only if it has a real description; the known codes are 0 plus the five buckets |
| Formatter.FallbackNamesCode | weather_cli/formatter.py:55 | for an unknown code the text after "Code " is the code's decimal rendering |
| Text.IntToStringRoundTrip | weather_cli/formatter.py:55 | the decimal rendering of an integer parses back to that integer, so the fallback text identifies the code |
| Text.IntToStringInjective | weather_cli/formatter.py:55 | different codes get different fallback texts |
| Formatter.DescriptionIsIconCategory | weather_cli/formatter.py:13-55 | for a known code the description is the category of its icon: the icon groups refine the description buckets |
| Formatter.IconDeterminesDescription | weather_cli/formatter.py:13-55 | two known codes with the same icon have the same description; drizzle (51) and rain (61) share "Rain" but not the icon |
| Formatter.FormatCurrentShowsCode | weather_cli/formatter.py:58-64 | the current line starts with the rendered temperature and contains the description and icon of the same code, and the wind part |
| Formatter.FormatCurrent | weather_cli/formatter.py:58-64 | the current line starts with the rendered temperature and "°C, ", and ends with " km/h" |
| Formatter.FormatForecastDay | weather_cli/formatter.py:67-73 | a daily line starts with the date and ends with " mm" |
| Formatter.FormatForecastDayShowsValues | weather_cli/formatter.py:67-73 | a daily line shows "max" and "min" with their temperatures in degrees Celsius and "rain" with the precipitation in mm, each value rendered four wide with one decimal |
| Formatter.LocationLabel | weather_cli/formatter.py:78-80 | the label starts with the name; ", <country>" is appended exactly when the country is present and non-empty |
| Formatter.DayLines | weather_cli/formatter.py:90-92 | one line per daily entry, entry i's line at position i |
| Formatter.ReportLayout | weather_cli/formatter.py:76-92 | the report has 4 + max(1, number of days) lines: location (the country appended only when non-empty), current, blank, "Forecast:", then the daily lines in order or the "(no daily data)" placeholder |
| Formatter.FormatFullForecast | weather_cli/formatter.py:76-93 | the loop builds exactly the report lines and joins them with newlines |
| Formatter.ReportSplitsIntoLines | weather_cli/formatter.py:93 | when no line holds a newline, splitting the report on newlines gives back its lines |
| Formatter.ReportHasNoTrailingNewline | weather_cli/formatter.py:88-93 | the report is non-empty and does not end in a newline |
| Api.GeocodeQuery | weather_cli/api.py:53-60 | the geocoding request asks for one English JSON result for the name; the country is sent if and only if it is non-empty |
| Api.GeocodeCity | weather_cli/api.py:48-81 | a transport failure or a non-ok status is an ApiError, decided before the body; an ok reply without results is "not found" for the queried name; otherwise both coordinates must be present (latitude checked first, KeyError otherwise), and the location takes its fields from the first result, with the queried name when the result has none |
| Api.GeocodeStatusBeforeBody | weather_cli/api.py:67-68 | two non-ok replies with the same status fail identically whatever their bodies hold |
| Api.ClampDays | weather_cli/api.py:89-92 | the day count is clamped into 1..7 and left alone inside that range |
| Api.ForecastParams | weather_cli/api.py:94-101 | the forecast request carries the location's coordinates, the day count, the three daily series, current weather and the automatic time zone |
| Api.CurrentFromBlock | weather_cli/api.py:117-122 | the current conditions are read if and only if all four keys are present, each field from its key; otherwise a KeyError |
| Api.DailyOrEmpty | weather_cli/api.py:124-125 | a present daily object is used as it is; a missing one is the empty object, with no time series |
| Api.BuildDays | weather_cli/api.py:130-139 | n entries, entry i built from index i of the four series |
| Api.DayCount | weather_cli/api.py:131 | the number of entries read is min(number of times, days), never negative |
| Api.FetchForecast | weather_cli/api.py:84-141 | the method sends the clamped request and its loop returns exactly `ForecastFromReply` of the reply |
| Api.ForecastRequestDays | weather_cli/api.py:89-101 | the request asks for the clamped day count: 0 becomes 1, 10 becomes 7, 1..7 are kept |
| Api.MissingBlock | weather_cli/api.py:113-115 | the current-weather object counts as missing when absent or when present but empty (no key at all), and never when it has a key; a present empty object could not have been read anyway (KeyError on "temperature") |
| Api.ForecastShape | weather_cli/api.py:117-141 | a forecast keeps its location, carries the conditions read from the current-weather object, and holds at most 7 daily entries, the first min(number of times, days) of the series in order |
| Api.ForecastErrors | weather_cli/api.py:103-128 | transport failures, non-ok statuses and a missing or empty current-weather object are the only sources of ApiError, and an empty object is one of them; a present current-weather object lacking a key fails with that KeyError; a missing daily object gives an empty daily list |
| Api.ShortSeriesIsIndexError | weather_cli/api.py:124-139 | once the current conditions are read, the fetch fails only with IndexError, and does so exactly when a temperature or precipitation series is shorter than the number of days read |
| Cli.ResolvePolicy | weather_cli/cli.py:50-63 | a non-empty city is geocoded with the country; otherwise complete coordinates give a location named by both coordinates to two decimals, with no country; otherwise a usage error |
| Cli.CityTakesPrecedence | weather_cli/cli.py:51-52 | with a non-empty city the coordinates change nothing |
| Cli.EmptyCityIsAbsent | weather_cli/cli.py:51 | an empty city is treated as no city |
| Cli.ResolveLocation | weather_cli/cli.py:50-63 | the usage error arises exactly from the usage case; a city resolves exactly when geocoding succeeds, to the location geocoding returned; a failure is only ever geocoding's own error, passed through unchanged |
| Cli.ResolvedLine | weather_cli/cli.py:75-82 | the verbose line starts with "Resolved location: ", the location label and " (", shows both coordinates rendered to four decimals separated by ", ", and ends with ")" |
| Cli.Run | weather_cli/cli.py:66-90 | the method's trace and exit code are exactly `MainOutcome` |
| Cli.FetchAndPrint | weather_cli/cli.py:75-90 | the second half of `main` produces exactly the fetch steps of `MainOutcome` |
| Cli.FormatFetched | weather_cli/cli.py:84-90 | a fetched forecast is formatted and a failure passes through unchanged |
| Cli.PrintFetched | weather_cli/cli.py:84-90 | after the request the report is printed with exit 0, or the failure is reported with exit 1 |
| Cli.ExitStatus | weather_cli/cli.py:66-90 | the trace is non-empty and no report, diagnostic or traceback comes before its last step; the exit status is 0 if and only if that last step prints the report, and 1 otherwise |
| Cli.UsageErrorBeforeNetwork | weather_cli/cli.py:62-63 | without a city or complete coordinates only the usage error is printed, with exit 1 and no request |
| Cli.GeocodeOnlyForCity | weather_cli/cli.py:50-52 | a geocoding request is made only for a non-empty city, and it is the first step |
| Cli.CoordinatesSkipGeocoding | weather_cli/cli.py:54-60 | with coordinates and no city the first step is the verbose line or the forecast request |
| Cli.ResolutionFailureStops | weather_cli/cli.py:69-73 | a failed resolution exits with 1 before any forecast request; ApiError and not-found are reported, any other error is a traceback |
| Cli.ForecastRequestedOnce | weather_cli/cli.py:84-85 | the forecast is requested once, exactly when a location was resolved, for the clamped day count |
| Cli.VerboseLineBeforeFetch | weather_cli/cli.py:75-85 | the "Resolved location" line is printed only with `--verbose`, directly before the forecast request |
| Cli.FetchFailureStops | weather_cli/cli.py:84-90 | a failed fetch prints no report and exits with 1; only ApiError is reported, any other error is a traceback |
| Cli.FetchStepReports | weather_cli/cli.py:84-90 | the fetch step yields the joined report lines of the forecast, or the forecast's error unchanged |

## Left out

- HTTP transport: the URLs, the 10-second timeout and `requests.get` are outside the model. An exchange is a function parameter returning a transport failure or a status with a decoded body.
- `response.json()` failing on a body that is not JSON (a ValueError) is not modelled; the body arrives already decoded.
- JSON values of the wrong type are not modelled. This covers a `null` coordinate or temperature, a non-numeric string passed to `float()`/`int()`, a non-list `results`, and a `name` key present with `null`. Every field is either missing (`None`) or of the expected type.
- `int(current_raw["weathercode"])` truncating a float code is not modelled; the code arrives as an integer.
- `str(times[i])` is the identity in the model, since dates arrive as strings.
- Float formatting (`:.1f`, `:4.1f`, `:.2f`, `:.4f`) is an uninterpreted `Render` parameter, so rounding is not modelled. The test's "12.3" for 12.345 is therefore not covered.
- The texts of exception messages and diagnostics are not modelled. Errors are structured (`ApiError` with its cause, `NotFound` with the queried name, `KeyError` with the key), and each printed diagnostic names its error.
- Argument parsing (`parse_args`) is outside the model: `Args` is the parsed result, with `--days` defaulting to 3. argparse's own errors and `--help` are not modelled.
- Standard output, standard error and `sys.exit` are events of the trace plus an exit code. The exit status of an uncaught exception is 1.
- Api.CurrentFromBlock: keys of `current_weather` other than the four read are only counted, which decides whether the object is empty (falsy).

A missing `daily` object, or a missing or empty `time` series, gives an empty daily list. When `time` has entries, a missing max/min/precipitation series reads as `[]` and `tmax[i]` raises IndexError, which `main` does not catch (see `Api.ShortSeriesIsIndexError` and `Cli.FetchFailureStops`).
