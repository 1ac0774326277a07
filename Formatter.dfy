/**
 * The report formatter: the weather-code tables (an icon and a category
 * description per WMO weather interpretation code used by Open-Meteo) and
 * the layout of the multi-line report.  Numbers are rendered by an
 * uninterpreted `Render`.
 */
module Formatter {
  import opened Text
  import opened Api

  /** The icons of the code table, and the fallback for unknown codes. */
  datatype Icon =
    | Sun                       // clear sky
    | SunBehindSmallCloud       // mainly clear
    | SunBehindCloud            // partly cloudy
    | Cloud                     // overcast
    | FogBank                   // fog
    | SunBehindRainCloud        // drizzle
    | CloudWithRain             // rain and rain showers
    | CloudWithSnow             // snow
    | CloudWithLightningAndRain // thunderstorm
    | QuestionMark              // any other code

  /** The emoji each icon is printed as (with the emoji presentation selector where the table has one). */
  function Glyph(icon: Icon): (g: string)
    ensures |g| >= 1
  {
    match icon
    case Sun => "\U{2600}\U{FE0F}"
    case SunBehindSmallCloud => "\U{1F324}\U{FE0F}"
    case SunBehindCloud => "\U{26C5}"
    case Cloud => "\U{2601}\U{FE0F}"
    case FogBank => "\U{1F32B}\U{FE0F}"
    case SunBehindRainCloud => "\U{1F326}\U{FE0F}"
    case CloudWithRain => "\U{1F327}\U{FE0F}"
    case CloudWithSnow => "\U{1F328}\U{FE0F}"
    case CloudWithLightningAndRain => "\U{26C8}\U{FE0F}"
    case QuestionMark => "\U{2754}"
  }

  /** Different icons print differently. */
  lemma GlyphInjective(a: Icon, b: Icon)
    ensures Glyph(a) == Glyph(b) ==> a == b
  {
    if Glyph(a) == Glyph(b) {
      assert Glyph(a)[0] == Glyph(b)[0];
      assert |Glyph(a)| == |Glyph(b)|;
    }
  }

  /** The 21 codes of the icon table. */
  predicate KnownCode(code: int) {
    code in {0, 1, 2, 3, 45, 48, 51, 53, 55, 61, 63, 65, 71, 73, 75, 80, 81, 82, 95, 96, 99}
  }

  // The description buckets of `weather_code_to_description`, besides code 0.
  predicate CloudyCode(code: int) { code in {1, 2, 3} }
  predicate FogCode(code: int) { code in {45, 48} }
  predicate RainCode(code: int) { code in {51, 53, 55, 61, 63, 65, 80, 81, 82} }
  predicate SnowCode(code: int) { code in {71, 73, 75} }
  predicate ThunderstormCode(code: int) { code in {95, 96, 99} }

  /** `weather_code_to_icon`: the table of 21 codes, with the question mark for every other code; total. */
  function WeatherCodeToIcon(code: int): (icon: Icon)
    ensures icon == QuestionMark <==> !KnownCode(code)
  {
    match code
    case 0 => Sun
    case 1 => SunBehindSmallCloud
    case 2 => SunBehindCloud
    case 3 => Cloud
    case 45 | 48 => FogBank
    case 51 | 53 | 55 => SunBehindRainCloud
    case 61 | 63 | 65 | 80 | 81 | 82 => CloudWithRain
    case 71 | 73 | 75 => CloudWithSnow
    case 95 | 96 | 99 => CloudWithLightningAndRain
    case _ => QuestionMark
  }

  /** The description of a code outside every bucket. */
  function FallbackDescription(code: int): (d: string)
    ensures |d| >= 6 && d[..5] == "Code "
  {
    "Code " + IntToString(code)
  }

  /** `weather_code_to_description`: fixed, disjoint buckets, else "Code <n>"; total. */
  function WeatherCodeToDescription(code: int): (d: string)
    ensures code == 0 <==> d == "Clear sky"
    ensures CloudyCode(code) <==> d == "Cloudy"
    ensures FogCode(code) <==> d == "Fog"
    ensures RainCode(code) <==> d == "Rain"
    ensures SnowCode(code) <==> d == "Snow"
    ensures ThunderstormCode(code) <==> d == "Thunderstorm"
    ensures KnownCode(code) <==> d != FallbackDescription(code)
  {
    if code == 0 then "Clear sky"
    else if CloudyCode(code) then
      assert FallbackDescription(code)[1] == 'o';
      "Cloudy"
    else if FogCode(code) then "Fog"
    else if RainCode(code) then "Rain"
    else if SnowCode(code) then "Snow"
    else if ThunderstormCode(code) then "Thunderstorm"
    else
      var d := FallbackDescription(code);
      assert d[1] == 'o' && |d| >= 6;
      d
  }

  /** The icon table and the description buckets cover the same codes. */
  lemma TablesCoverSameCodes(code: int)
    ensures WeatherCodeToIcon(code) != QuestionMark <==> WeatherCodeToDescription(code) != FallbackDescription(code)
    ensures KnownCode(code) <==> code == 0 || CloudyCode(code) || FogCode(code) || RainCode(code) || SnowCode(code) || ThunderstormCode(code)
  {
  }

  /** A fallback description names its code: the number after "Code " reads back as the code. */
  lemma FallbackNamesCode(code: int)
    requires !KnownCode(code)
    ensures var d := WeatherCodeToDescription(code);
      |d| > 5 && d[..5] == "Code " && d[5..] == IntToString(code)
  {
  }

  /** The bucket an icon stands for: the icon groups refine the description buckets. */
  function IconCategory(icon: Icon): string {
    match icon
    case Sun => "Clear sky"
    case SunBehindSmallCloud | SunBehindCloud | Cloud => "Cloudy"
    case FogBank => "Fog"
    case SunBehindRainCloud | CloudWithRain => "Rain"
    case CloudWithSnow => "Snow"
    case CloudWithLightningAndRain => "Thunderstorm"
    case QuestionMark => ""
  }

  /** For a known code the description is the bucket of its icon. */
  lemma DescriptionIsIconCategory(code: int)
    requires KnownCode(code)
    ensures WeatherCodeToDescription(code) == IconCategory(WeatherCodeToIcon(code))
  {
    if code == 0 {
    } else if CloudyCode(code) {
    } else if FogCode(code) {
    } else if RainCode(code) {
    } else if SnowCode(code) {
    } else {
      assert ThunderstormCode(code);
    }
  }

  /**
   * For known codes the icon determines the description, so codes sharing a
   * glyph share a description; drizzle and rain share the description "Rain"
   * but not the glyph.
   */
  lemma IconDeterminesDescription(a: int, b: int)
    requires KnownCode(a) && KnownCode(b)
    ensures WeatherCodeToIcon(a) == WeatherCodeToIcon(b) ==> WeatherCodeToDescription(a) == WeatherCodeToDescription(b)
    ensures WeatherCodeToIcon(51) != WeatherCodeToIcon(61) && WeatherCodeToDescription(51) == WeatherCodeToDescription(61)
  {
    DescriptionIsIconCategory(a);
    DescriptionIsIconCategory(b);
  }

  /** Sample entries of both tables: three known icons, the unknown-code icon and one description per bucket. */
  lemma TableSamples()
    ensures Glyph(WeatherCodeToIcon(0)) == "\U{2600}\U{FE0F}"
    ensures Glyph(WeatherCodeToIcon(61)) == "\U{1F327}\U{FE0F}"
    ensures Glyph(WeatherCodeToIcon(95)) == "\U{26C8}\U{FE0F}"
    ensures Glyph(WeatherCodeToIcon(999)) == "\U{2754}"
    ensures WeatherCodeToDescription(0) == "Clear sky" && WeatherCodeToDescription(2) == "Cloudy"
    ensures WeatherCodeToDescription(61) == "Rain" && WeatherCodeToDescription(71) == "Snow"
    ensures WeatherCodeToDescription(95) == "Thunderstorm"
  {
  }

  /** The condition part of the current line: description and icon of one code. */
  function Condition(code: int): string {
    WeatherCodeToDescription(code) + " " + Glyph(WeatherCodeToIcon(code))
  }

  /** `format_current`: the rendered temperature, the description and icon of the code, the wind speed. */
  function FormatCurrent(current: CurrentWeather, render: Render): (line: string)
    ensures var t := render(current.temperature, OneDecimal) + "\U{00B0}C, ";
      |t| <= |line| && line[..|t|] == t
    ensures |line| >= 5 && line[|line| - 5..] == " km/h"
  {
    var temperature := render(current.temperature, OneDecimal) + "\U{00B0}C, ";
    var wind := ", Wind " + render(current.windspeed, OneDecimal) + " km/h";
    temperature + Condition(current.weathercode) + wind
  }

  /** The current-conditions line starts with the temperature and shows the description and icon of one and the same code. */
  lemma FormatCurrentShowsCode(current: CurrentWeather, render: Render)
    ensures var line := FormatCurrent(current, render); var t := render(current.temperature, OneDecimal);
      && |t| <= |line| && line[..|t|] == t
      && Contains(line, Condition(current.weathercode))
      && Contains(line, ", Wind " + render(current.windspeed, OneDecimal) + " km/h")
  {
    var t := render(current.temperature, OneDecimal);
    var temperature := t + "\U{00B0}C, ";
    var wind := ", Wind " + render(current.windspeed, OneDecimal) + " km/h";
    ThreePartsOccur(temperature, Condition(current.weathercode), wind);
    assert temperature[..|t|] == t;
  }

  /** `format_forecast_day`: the date, then the three rendered values, ending in the unit "mm". */
  function FormatForecastDay(day: DailyForecastDay, render: Render): (line: string)
    ensures |day.date| <= |line| && line[..|day.date|] == day.date
    ensures |line| >= 3 && line[|line| - 3..] == " mm"
  {
    var max := "max " + render(day.tempMax, Width4OneDecimal) + "\U{00B0}C";
    var min := "min " + render(day.tempMin, Width4OneDecimal) + "\U{00B0}C";
    var rain := "rain " + render(day.precipSum, Width4OneDecimal) + " mm";
    day.date + "  " + max + "  " + min + "  " + rain
  }

  /** A daily line shows the three values, each rendered four wide with one decimal, after its label. */
  lemma FormatForecastDayShowsValues(day: DailyForecastDay, render: Render)
    ensures var line := FormatForecastDay(day, render);
      && Contains(line, "max " + render(day.tempMax, Width4OneDecimal) + "\U{00B0}C")
      && Contains(line, "min " + render(day.tempMin, Width4OneDecimal) + "\U{00B0}C")
      && Contains(line, "rain " + render(day.precipSum, Width4OneDecimal) + " mm")
  {
    var max := "max " + render(day.tempMax, Width4OneDecimal) + "\U{00B0}C";
    var min := "min " + render(day.tempMin, Width4OneDecimal) + "\U{00B0}C";
    var rain := "rain " + render(day.precipSum, Width4OneDecimal) + " mm";
    var upToMax := day.date + "  " + max;
    var upToMin := upToMax + "  " + min;
    ContainsSuffix(day.date + "  ", max);
    ContainsExtend(upToMax, "  ", max);
    ContainsExtend(upToMax + "  ", min, max);
    ContainsExtend(upToMin, "  ", max);
    ContainsExtend(upToMin + "  ", rain, max);
    ContainsSuffix(upToMax + "  ", min);
    ContainsExtend(upToMin, "  ", min);
    ContainsExtend(upToMin + "  ", rain, min);
    ContainsSuffix(upToMin + "  ", rain);
  }

  /** The name, with ", <country>" appended only when the country is present and non-empty. */
  function LocationLabel(location: Location): (text: string)
    ensures |location.name| <= |text| && text[..|location.name|] == location.name
    ensures Present(location.country) ==> text == location.name + ", " + location.country.value
    ensures !Present(location.country) ==> text == location.name
  {
    if Present(location.country) then location.name + ", " + location.country.value else location.name
  }

  const NoDailyData := "  (no daily data)"

  /** The four fixed lines that open every report. */
  function Header(f: Forecast, render: Render): seq<string> {
    ["Location: " + LocationLabel(f.location), "Current:  " + FormatCurrent(f.current, render), "", "Forecast:"]
  }

  /** One line per daily entry, in order. */
  function DayLines(days: seq<DailyForecastDay>, render: Render): (lines: seq<string>)
    ensures |lines| == |days|
    ensures forall i :: 0 <= i < |days| ==> lines[i] == FormatForecastDay(days[i], render)
  {
    if days == [] then [] else DayLines(days[..|days| - 1], render) + [FormatForecastDay(days[|days| - 1], render)]
  }

  /** Adding a day to the prefix adds its line at the end. */
  lemma DayLinesExtend(days: seq<DailyForecastDay>, i: nat, render: Render)
    requires i < |days|
    ensures DayLines(days[..i + 1], render) == DayLines(days[..i], render) + [FormatForecastDay(days[i], render)]
  {
    assert days[..i + 1][..i] == days[..i];
  }

  /** The lines of the report, before they are joined. */
  function ReportLines(f: Forecast, render: Render): seq<string> {
    Header(f, render) + (if f.daily == [] then [NoDailyData] else DayLines(f.daily, render))
  }

  /**
   * The report's layout: location and current lines, a blank line, the
   * "Forecast:" header, then one line per daily entry in order (see
   * `DayLines`) or the single placeholder line, 4 + max(1, |daily|) lines in all.
   */
  lemma ReportLayout(f: Forecast, render: Render)
    ensures var lines := ReportLines(f, render);
      && |lines| == 4 + (if f.daily == [] then 1 else |f.daily|)
      && lines[0] == "Location: " + LocationLabel(f.location)
      && lines[1] == "Current:  " + FormatCurrent(f.current, render)
      && lines[2] == "" && lines[3] == "Forecast:"
      && lines[4..] == (if f.daily == [] then [NoDailyData] else DayLines(f.daily, render))
  {
    var lines := ReportLines(f, render);
    var rest := if f.daily == [] then [NoDailyData] else DayLines(f.daily, render);
    assert lines == Header(f, render) + rest;
    assert lines[4..] == rest;
  }

  /** `format_full_forecast`: builds the lines one by one and joins them with newlines. */
  method FormatFullForecast(f: Forecast, render: Render) returns (report: string)
    ensures report == Join(ReportLines(f, render), '\n')
  {
    var locationLine := f.location.name;
    if Present(f.location.country) {
      locationLine := locationLine + ", " + f.location.country.value;
    }
    var lines := ["Location: " + locationLine, "Current:  " + FormatCurrent(f.current, render), "", "Forecast:"];
    ghost var header := lines;
    assert header == Header(f, render);
    if f.daily == [] {
      lines := lines + [NoDailyData];
    } else {
      for i := 0 to |f.daily|
        invariant lines == header + DayLines(f.daily[..i], render)
      {
        DayLinesExtend(f.daily, i, render);
        lines := lines + [FormatForecastDay(f.daily[i], render)];
      }
      assert f.daily[..|f.daily|] == f.daily;
    }
    report := Join(lines, '\n');
  }

  /** When no line holds a newline, the report splits back into exactly its 4 + max(1, |daily|) lines. */
  lemma ReportSplitsIntoLines(f: Forecast, render: Render)
    requires forall k :: 0 <= k < |ReportLines(f, render)| ==> '\n' !in ReportLines(f, render)[k]
    ensures Split(Join(ReportLines(f, render), '\n'), '\n') == ReportLines(f, render)
    ensures |Split(Join(ReportLines(f, render), '\n'), '\n')| == 4 + (if f.daily == [] then 1 else |f.daily|)
  {
    ReportLayout(f, render);
    SplitJoin(ReportLines(f, render), '\n');
  }

  /** The report never ends in a newline: its last line ends in "mm" or in ")". */
  lemma ReportHasNoTrailingNewline(f: Forecast, render: Render)
    ensures var report := Join(ReportLines(f, render), '\n');
      |report| > 0 && report[|report| - 1] != '\n'
  {
    var lines := ReportLines(f, render);
    LastReportLine(f, render);
    var last := lines[|lines| - 1];
    assert |last| > 0 && last[|last| - 1] != '\n' by {
      if f.daily != [] {
        assert last[|last| - 3..][2] == 'm';
      }
    }
    JoinEndsWithLast(lines, '\n');
  }

  /** The last line of the report: the last daily entry's line, or the placeholder. */
  lemma LastReportLine(f: Forecast, render: Render)
    ensures var lines := ReportLines(f, render);
      |lines| >= 1 &&
      lines[|lines| - 1] == if f.daily == [] then NoDailyData else FormatForecastDay(f.daily[|f.daily| - 1], render)
  {
    var lines := ReportLines(f, render);
    var rest := if f.daily == [] then [NoDailyData] else DayLines(f.daily, render);
    assert lines == Header(f, render) + rest;
  }
}
