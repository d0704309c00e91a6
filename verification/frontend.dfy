/**
  The pure decisions of the weather page's script (static/js/app.js): the
  weather-icon class for an OpenWeather icon code, the preferences kept in
  local storage, the unit toggle, the query string of a weather request, the
  search-box check and how an answer of `/api/weather` is shown. The DOM is
  reduced to the handful of attributes these handlers write.
 */
module Frontend {
  import opened Wrappers
  import opened JsonValues
  import WeatherApi

  // ---------------------------------------------------------------- icons

  /** The class for a clear sky, and for every code the table does not know. */
  function ClearSkyClass(isDay: bool): string {
    if isDay then "wi-day-sunny" else "wi-night-clear"
  }

  function DayPrefix(isDay: bool): string {
    if isDay then "day" else "night-alt"
  }

  /** `String.prototype.slice(0, 2)`: the first two characters, or all of a shorter string. */
  function FirstTwo(s: string): (r: string)
    ensures |r| == if |s| < 2 then |s| else 2
    ensures r <= s
  {
    if |s| < 2 then s else s[..2]
  }

  /** The cases of the icon switch: OpenWeather's nine icon codes, and anything else. */
  datatype IconCode = C01 | C02 | C03 | C04 | C09 | C10 | C11 | C13 | C50 | OtherCode

  /** Which case of the switch a two-character code falls in (`===` on strings). */
  function CodeOf(code: string): IconCode {
    if code == "01" then C01
    else if code == "02" then C02
    else if code == "03" then C03
    else if code == "04" then C04
    else if code == "09" then C09
    else if code == "10" then C10
    else if code == "11" then C11
    else if code == "13" then C13
    else if code == "50" then C50
    else OtherCode
  }

  /**
    `mapIconToClass`: a missing or empty code is a clear sky; otherwise the first
    two characters select the class.
   */
  function MapIconToClass(iconCode: Option<string>, isDay: bool): (cls: string)
    ensures |cls| > 3 && cls[..3] == "wi-"
  {
    if iconCode.None? || iconCode.value == "" then ClearSkyClass(isDay)
    else IconForCode(CodeOf(FirstTwo(iconCode.value)), isDay)
  }

  /** The body of the switch: the day-or-night prefix only where the class has both. */
  function IconForCode(code: IconCode, isDay: bool): (cls: string)
    ensures |cls| > 3 && cls[..3] == "wi-"
  {
    var dayPrefix := DayPrefix(isDay);
    match code
    case C01 => ClearSkyClass(isDay)
    case C02 => "wi-" + dayPrefix + "-cloudy"
    case C03 => "wi-cloud"
    case C04 => "wi-cloudy"
    case C09 => "wi-" + dayPrefix + "-showers"
    case C10 => "wi-" + dayPrefix + "-rain"
    case C11 => "wi-" + dayPrefix + "-thunderstorm"
    case C13 => "wi-" + dayPrefix + "-snow"
    case C50 => "wi-" + dayPrefix + "-fog"
    case OtherCode => ClearSkyClass(isDay)
  }

  /** The icon codes whose class has a day and a night variant, with the shared suffix. */
  function DayNightSuffix(code: IconCode): Option<string> {
    match code
    case C02 => Some("cloudy")
    case C09 => Some("showers")
    case C10 => Some("rain")
    case C11 => Some("thunderstorm")
    case C13 => Some("snow")
    case C50 => Some("fog")
    case _ => None
  }

  /** The icon codes whose class is the same by day and night. */
  function FixedClass(code: IconCode): Option<string> {
    match code
    case C03 => Some("wi-cloud")
    case C04 => Some("wi-cloudy")
    case _ => None
  }

  /** The case a possibly missing icon code selects; a missing or empty code is no case. */
  function CaseOf(iconCode: Option<string>): IconCode {
    if iconCode.None? || iconCode.value == "" then OtherCode else CodeOf(FirstTwo(iconCode.value))
  }

  /**
    The icon table read as two lookup tables: a day-and-night code gives
    "wi-" + prefix + "-" + suffix, a fixed code its own class whatever the time
    of day, and anything else (code "01", unknown, missing and empty codes) a
    clear sky.
   */
  lemma {:induction false} IconClassByTable(iconCode: Option<string>, isDay: bool)
    ensures var code := CaseOf(iconCode);
            var cls := MapIconToClass(iconCode, isDay);
            && (DayNightSuffix(code).Some? ==> cls == "wi-" + DayPrefix(isDay) + "-" + DayNightSuffix(code).value)
            && (FixedClass(code).Some? ==> cls == FixedClass(code).value)
            && (DayNightSuffix(code).None? && FixedClass(code).None? ==> cls == ClearSkyClass(isDay))
  {
    assert MapIconToClass(iconCode, isDay) == IconForCode(CaseOf(iconCode), isDay);
    SwitchByTable(CaseOf(iconCode), isDay);
  }

  /** The same, for one case of the switch. */
  lemma {:induction false} SwitchByTable(code: IconCode, isDay: bool)
    ensures var cls := IconForCode(code, isDay);
            && (DayNightSuffix(code).Some? ==> cls == "wi-" + DayPrefix(isDay) + "-" + DayNightSuffix(code).value)
            && (FixedClass(code).Some? ==> cls == FixedClass(code).value)
            && (DayNightSuffix(code).None? && FixedClass(code).None? ==> cls == ClearSkyClass(isDay))
  {
    var p := "wi-" + DayPrefix(isDay);
    match code
    case C02 => assert p + "-cloudy" == p + "-" + "cloudy";
    case C09 => assert p + "-showers" == p + "-" + "showers";
    case C10 => assert p + "-rain" == p + "-" + "rain";
    case C11 => assert p + "-thunderstorm" == p + "-" + "thunderstorm";
    case C13 => assert p + "-snow" == p + "-" + "snow";
    case C50 => assert p + "-fog" == p + "-" + "fog";
    case _ =>
  }

  /** The codes with a fixed class look the same by day and night; all others differ. */
  lemma {:induction false} OnlyCloudIconsIgnoreDaylight(iconCode: Option<string>)
    ensures MapIconToClass(iconCode, true) == MapIconToClass(iconCode, false) <==> FixedClass(CaseOf(iconCode)).Some?
  {
    var t, f := MapIconToClass(iconCode, true), MapIconToClass(iconCode, false);
    if FixedClass(CaseOf(iconCode)).None? {
      assert t[3] != f[3];
    }
  }

  /** Only the first two characters of the code are examined. */
  lemma {:induction false} OnlyFirstTwoCharactersMatter(a: string, b: string, isDay: bool)
    requires a != "" && b != "" && FirstTwo(a) == FirstTwo(b)
    ensures MapIconToClass(Some(a), isDay) == MapIconToClass(Some(b), isDay)
  {
  }

  /** A missing code, code "01" and every code outside the table agree. */
  lemma {:induction false} UnknownIconIsClearSky(iconCode: string, isDay: bool)
    requires iconCode != "" && CodeOf(FirstTwo(iconCode)) == OtherCode
    ensures MapIconToClass(Some(iconCode), isDay) == MapIconToClass(None, isDay)
              == MapIconToClass(Some("01"), isDay) == ClearSkyClass(isDay)
  {
    assert FirstTwo("01") == "01";
  }

  // ---------------------------------------------------------- preferences

  datatype Unit = Metric | Imperial

  function UnitKey(u: Unit): string {
    match u
    case Metric => "metric"
    case Imperial => "imperial"
  }

  function UnitLabel(u: Unit): (text: string)
    ensures text == "°C" <==> u == Metric
  {
    if u == Metric then "°C" else "°F"
  }

  /**
    The page state the preference handlers read and write: the unit, the unit
    switch and its label, the theme switch (checked means dark) and the
    `data-theme` attribute of the document.
   */
  datatype Ui = Ui(unit: Unit, unitChecked: bool, unitLabel: string,
                   themeChecked: bool, dataTheme: Option<string>)

  /** The label and the switch agree with the unit. */
  predicate UnitShown(ui: Ui) {
    && ui.unitLabel == UnitLabel(ui.unit)
    && ui.unitChecked == (ui.unit == Imperial)
  }

  /** A freshly loaded page: metric, with the theme switch as the markup left it. */
  function FreshUi(themeChecked: bool): (ui: Ui)
    ensures UnitShown(ui) && ui.dataTheme.None?
  {
    Ui(Metric, false, "°C", themeChecked, None)
  }

  /**
    What local storage holds under the preferences key: nothing (or the empty
    string, which is falsy), text that is not JSON, or a parsed JSON value.
   */
  datatype Stored = Absent | Malformed | Value(v: Json)

  /** JavaScript property access: throws on null, is undefined on a non-object or a missing key. */
  function Prop(v: Json, key: string): Option<Json> {
    match v
    case JNull => None
    case JObject(fields) => Some(Get(fields, key))
    case _ => Some(JNull)
  }

  /**
    `restorePreferences`: the unit switches to imperial only for the exact
    string "imperial" (and is otherwise left as it is); the theme becomes light
    only for the exact string "light" and dark for anything else. Absent or
    malformed storage, or a stored `null` (whose property access throws before
    anything is written), leaves the page unchanged.
   */
  function RestorePreferences(stored: Stored, ui: Ui): (r: Ui)
    ensures (stored.Absent? || stored.Malformed? || stored == Value(JNull)) ==> r == ui
    ensures stored.Value? && stored.v != JNull ==>
              && (r.unit == Imperial <==> Prop(stored.v, "unit") == Some(JString("imperial")) || ui.unit == Imperial)
              && (r.dataTheme == Some("light") <==> Prop(stored.v, "theme") == Some(JString("light")))
              && r.dataTheme in {Some("light"), Some("dark")}
              && r.themeChecked == (r.dataTheme == Some("dark"))
  {
    match stored
    case Absent => ui
    case Malformed => ui
    case Value(prefs) =>
      match Prop(prefs, "unit")
      case None => ui
      case Some(unit) =>
        var ui1 := if unit == JString("imperial") then ui.(unit := Imperial, unitChecked := true, unitLabel := "°F") else ui;
        var mode := if Prop(prefs, "theme") == Some(JString("light")) then "light" else "dark";
        ui1.(themeChecked := mode == "dark", dataTheme := Some(mode))
  }

  /** Restoring never leaves the unit label out of step with the unit. */
  lemma {:induction false} RestoreKeepsUnitShown(stored: Stored, ui: Ui)
    requires UnitShown(ui)
    ensures UnitShown(RestorePreferences(stored, ui))
  {
  }

  /** The theme a page is in: light only when the attribute says so exactly. */
  function ModeOf(ui: Ui): string {
    if ui.dataTheme == Some("light") then "light" else "dark"
  }

  /** `savePreferences`: the unit and the `data-theme` attribute, "dark" when it is absent or empty. */
  function SavePreferences(ui: Ui): (s: Stored)
    ensures s.Value? && s.v.JObject? && s.v.fields.Keys == {"unit", "theme"}
    ensures s.v.fields["unit"] == JString(UnitKey(ui.unit))
    ensures ui.dataTheme.None? || ui.dataTheme == Some("") ==> s.v.fields["theme"] == JString("dark")
    ensures ui.dataTheme.Some? && ui.dataTheme.value != "" ==> s.v.fields["theme"] == JString(ui.dataTheme.value)
  {
    var theme := if ui.dataTheme.None? || ui.dataTheme.value == "" then "dark" else ui.dataTheme.value;
    Value(JObject(map["unit" := JString(UnitKey(ui.unit)), "theme" := JString(theme)]))
  }

  /** Saving, then restoring into a freshly loaded page, brings back the unit and the theme. */
  lemma {:induction false} RestoreAfterSave(ui: Ui, themeChecked: bool)
    ensures var r := RestorePreferences(SavePreferences(ui), FreshUi(themeChecked));
            && r.unit == ui.unit
            && UnitShown(r)
            && r.dataTheme == Some(ModeOf(ui))
  {
  }

  /**
    One save-and-restore round is enough: from a page whose theme is light, dark,
    or unset, saving the restored page stores exactly what was stored before.
   */
  lemma {:induction false} SaveRestoreSettles(ui: Ui, themeChecked: bool)
    requires ui.dataTheme in {None, Some(""), Some("light"), Some("dark")}
    ensures SavePreferences(RestorePreferences(SavePreferences(ui), FreshUi(themeChecked))) == SavePreferences(ui)
  {
  }

  /** What a preference handler did: the new page, and what it wrote to storage if anything. */
  datatype UiStep = UiStep(ui: Ui, saved: Option<Stored>)

  /**
    The unit switch: the unit follows the switch, the label follows the unit, and
    the preferences are saved only once weather data is on the page.
   */
  function ToggleUnit(ui: Ui, checked: bool, hasData: bool): (r: UiStep)
    ensures r.ui.unit == (if checked then Imperial else Metric)
    ensures r.ui.unitLabel == "°C" <==> !checked
    ensures r.ui.unitChecked == checked && r.ui.themeChecked == ui.themeChecked && r.ui.dataTheme == ui.dataTheme
    ensures r.saved.Some? <==> hasData
    ensures r.saved.Some? ==> r.saved.value == SavePreferences(r.ui)
  {
    var unit := if checked then Imperial else Metric;
    var ui1 := ui.(unit := unit, unitChecked := checked, unitLabel := if unit == Metric then "°C" else "°F");
    UiStep(ui1, if hasData then Some(SavePreferences(ui1)) else None)
  }

  /** The theme switch: checked is dark; the choice is always saved. */
  function ToggleTheme(ui: Ui, checked: bool): (r: UiStep)
    ensures r.ui.dataTheme == Some(if checked then "dark" else "light")
    ensures r.ui.themeChecked == checked && r.ui.unit == ui.unit && r.ui.unitChecked == ui.unitChecked && r.ui.unitLabel == ui.unitLabel
    ensures r.saved == Some(SavePreferences(r.ui))
  {
    var ui1 := ui.(themeChecked := checked, dataTheme := Some(if checked then "dark" else "light"));
    UiStep(ui1, Some(SavePreferences(ui1)))
  }

  /** The toggles keep the label and switch in step with the unit. */
  lemma {:induction false} TogglesKeepUnitShown(ui: Ui, checked: bool, hasData: bool, dark: bool)
    requires UnitShown(ui)
    ensures UnitShown(ToggleUnit(ui, checked, hasData).ui)
    ensures UnitShown(ToggleTheme(ui, dark).ui)
  {
  }

  /** A theme chosen with the switch survives a reload. */
  lemma {:induction false} ThemeChoiceSurvivesReload(ui: Ui, dark: bool, themeChecked: bool)
    ensures var step := ToggleTheme(ui, dark);
            var r := RestorePreferences(step.saved.value, FreshUi(themeChecked));
            r.themeChecked == dark && r.dataTheme == step.ui.dataTheme
  {
  }

  // -------------------------------------------------------------- queries

  /** One `name=value` pair of the request's query string. */
  datatype Param = CityParam(city: string) | LatParam(lat: real) | LonParam(lon: real)

  /**
    The query string of `fetchWeather`: the city when it is truthy, then latitude
    and longitude together when neither is null.
   */
  function QueryParams(city: Option<string>, lat: Option<real>, lon: Option<real>): (ps: seq<Param>)
    ensures CityParam(city.GetOr("")) in ps <==> WeatherApi.Truthy(city)
    ensures LatParam(lat.GetOr(0.0)) in ps <==> lat.Some? && lon.Some?
    ensures LonParam(lon.GetOr(0.0)) in ps <==> lat.Some? && lon.Some?
    ensures forall p :: p in ps ==> p in [CityParam(city.GetOr("")), LatParam(lat.GetOr(0.0)), LonParam(lon.GetOr(0.0))]
  {
    var cityPart := if WeatherApi.Truthy(city) then [CityParam(city.value)] else [];
    var coordPart := if lat.Some? && lon.Some? then [LatParam(lat.value), LonParam(lon.value)] else [];
    cityPart + coordPart
  }

  /** The values the server's argument parser reads back from a query string. */
  function ServerCity(ps: seq<Param>): Option<string> {
    if ps == [] then None
    else if ps[0].CityParam? then Some(ps[0].city)
    else ServerCity(ps[1..])
  }

  function ServerLat(ps: seq<Param>): Option<real> {
    if ps == [] then None
    else if ps[0].LatParam? then Some(ps[0].lat)
    else ServerLat(ps[1..])
  }

  function ServerLon(ps: seq<Param>): Option<real> {
    if ps == [] then None
    else if ps[0].LonParam? then Some(ps[0].lon)
    else ServerLon(ps[1..])
  }

  /**
    The query string carries the request to the server intact: the server reads
    the city if it was truthy, and the coordinates if both were given.
   */
  lemma {:induction false} ServerReadsQuery(city: Option<string>, lat: Option<real>, lon: Option<real>)
    ensures var ps := QueryParams(city, lat, lon);
            && ServerCity(ps) == (if WeatherApi.Truthy(city) then city else None)
            && ServerLat(ps) == (if lat.Some? && lon.Some? then lat else None)
            && ServerLon(ps) == (if lat.Some? && lon.Some? then lon else None)
  {
    var ps := QueryParams(city, lat, lon);
    if WeatherApi.Truthy(city) {
      if lat.Some? && lon.Some? {
        assert ps == [CityParam(city.value), LatParam(lat.value), LonParam(lon.value)];
        assert ps[1..] == [LatParam(lat.value), LonParam(lon.value)];
        assert ps[1..][1..] == [LonParam(lon.value)];
        assert ServerLon(ps[1..]) == ServerLon(ps[1..][1..]) == Some(lon.value);
      } else {
        assert ps == [CityParam(city.value)];
        assert ps[1..] == [];
      }
    } else if lat.Some? && lon.Some? {
      assert ps == [LatParam(lat.value), LonParam(lon.value)];
      assert ps[1..] == [LonParam(lon.value)];
      assert ps[1..][1..] == [];
      assert ServerCity(ps[1..]) == ServerCity(ps[1..][1..]) == None;
    } else {
      assert ps == [];
    }
  }

  // --------------------------------------------------------------- search

  /** ECMAScript white space and line terminators, which `trim` removes. */
  predicate IsSpace(c: char) {
    || c == '\t' || c == '\n' || c == '\U{B}' || c == '\U{C}' || c == '\r' || c == ' '
    || c == '\U{A0}' || c == '\U{1680}' || ('\U{2000}' <= c <= '\U{200A}')
    || c == '\U{2028}' || c == '\U{2029}' || c == '\U{202F}' || c == '\U{205F}'
    || c == '\U{3000}' || c == '\U{FEFF}'
  }

  function TrimStart(s: string): (r: string)
    ensures |r| <= |s| && r == s[|s| - |r|..]
    ensures r == [] || !IsSpace(r[0])
    ensures forall k :: 0 <= k < |s| - |r| ==> IsSpace(s[k])
  {
    if s != [] && IsSpace(s[0]) then TrimStart(s[1..]) else s
  }

  function TrimEnd(s: string): (r: string)
    ensures |r| <= |s| && r == s[..|r|]
    ensures r == [] || !IsSpace(r[|r| - 1])
    ensures forall k :: |r| <= k < |s| ==> IsSpace(s[k])
  {
    if s != [] && IsSpace(s[|s| - 1]) then TrimEnd(s[..|s| - 1]) else s
  }

  /** `String.prototype.trim`. */
  function Trim(s: string): string {
    TrimEnd(TrimStart(s))
  }

  /** Trimming leaves nothing exactly when the text is all white space. */
  lemma {:induction false} TrimEmptyIffBlank(s: string)
    ensures Trim(s) == [] <==> forall k :: 0 <= k < |s| ==> IsSpace(s[k])
  {
    var t := TrimStart(s);
    if Trim(s) == [] {
      forall k | 0 <= k < |s| ensures IsSpace(s[k]) {
        if k >= |s| - |t| {
          assert s[k] == t[k - (|s| - |t|)];
        }
      }
    } else {
      var i := |s| - |t|;
      assert !IsSpace(t[0]) && t[0] == s[i];
    }
  }

  /** Trimming strips only white space and keeps the text between it. */
  lemma {:induction false} TrimIsInfix(s: string)
    ensures exists i, j :: 0 <= i <= j <= |s| && Trim(s) == s[i..j]
  {
    var t := TrimStart(s);
    var i := |s| - |t|;
    var j := i + |Trim(s)|;
    TrimWithin(s, t, TrimEnd(t));
    assert 0 <= i <= j <= |s| && Trim(s) == s[i..j];
  }

  lemma {:induction false} TrimWithin(s: string, t: string, r: string)
    requires |t| <= |s| && t == s[|s| - |t|..]
    requires |r| <= |t| && r == t[..|r|]
    ensures r == s[|s| - |t|..|s| - |t| + |r|]
  {
  }

  const EmptySearchError: string := "Type a city name to search."

  /**
    The search button: the box's text, trimmed, is searched for as a city; when
    nothing is left after trimming, an error is shown and nothing is fetched.
   */
  function SearchClick(input: string): (r: Result<seq<Param>, string>)
    ensures r.Err? <==> forall k :: 0 <= k < |input| ==> IsSpace(input[k])
    ensures r.Err? ==> r.error == EmptySearchError
    ensures r.Ok? ==> r.value == [CityParam(Trim(input))] && Trim(input) != ""
  {
    TrimEmptyIffBlank(input);
    var city := Trim(input);
    if city == "" then Err(EmptySearchError) else Ok(QueryParams(Some(city), None, None))
  }

  /**
    Every request the page sends, from the search box or from geolocation, names
    a location, so the server never answers it with "missing location".
   */
  lemma {:induction false} PageRequestsHaveLocation(input: string, lat: real, lon: real)
    ensures SearchClick(input).Ok? ==>
              var ps := SearchClick(input).value;
              WeatherApi.HasLocation(ServerCity(ps), ServerLat(ps), ServerLon(ps))
    ensures var ps := QueryParams(None, Some(lat), Some(lon));
            WeatherApi.HasLocation(ServerCity(ps), ServerLat(ps), ServerLon(ps))
  {
    if SearchClick(input).Ok? {
      ServerReadsQuery(Some(Trim(input)), None, None);
    }
    ServerReadsQuery(None, Some(lat), Some(lon));
  }

  // ------------------------------------------------------------- answers

  const FallbackError: string := "Weather service error."

  /** What the page does with an answer: show an error, or render the weather. */
  datatype Shown = ShowError(message: string) | Render(payload: WeatherApi.Payload)

  /** `response.ok`: a 2xx status. */
  predicate IsOk(status: int) {
    200 <= status < 300
  }

  /**
    An answer that is not ok shows the body's `error` text, or a fallback when it
    is missing or empty; an ok answer is rendered.
   */
  function ShowAnswer(r: WeatherApi.Response): (s: Shown)
    requires IsOk(r.status) <==> r.body.WeatherBody?
    ensures s.ShowError? <==> !IsOk(r.status)
    ensures s.ShowError? ==> s.message != "" && (r.body.error != "" ==> s.message == r.body.error)
    ensures s.ShowError? && r.body.error == "" ==> s.message == FallbackError
    ensures s.Render? ==> s.payload == r.body.payload
  {
    if !IsOk(r.status) then
      ShowError(if r.body.error != "" then r.body.error else FallbackError)
    else Render(r.body.payload)
  }

  /**
    The page and the server agree: every answer of `/api/weather` is shown as an
    error exactly when it is not a success, with the server's own message, and a
    success renders the server's payload.
   */
  lemma {:induction false} PageShowsServerVerdict(apiKey: Option<string>, city: Option<string>,
                                                  lat: Option<real>, lon: Option<real>, up: WeatherApi.Upstream)
    ensures var r := WeatherApi.ApiWeather(apiKey, city, lat, lon, up);
            && (IsOk(r.status) <==> r.body.WeatherBody?)
            && (ShowAnswer(r).ShowError? <==> r.status != 200)
            && (ShowAnswer(r).ShowError? ==> ShowAnswer(r).message == r.body.error)
            && (ShowAnswer(r).Render? ==> ShowAnswer(r).payload == r.body.payload)
  {
  }

  /** `applyTheme`: the body class for the answer's theme key, "default" when it is missing or empty. */
  function ThemeClass(theme: Option<string>): (r: string)
    ensures |r| > |"theme-"| && r[..|"theme-"|] == "theme-"
    ensures WeatherApi.Truthy(theme) ==> r[|"theme-"|..] == theme.value
    ensures !WeatherApi.Truthy(theme) ==> r == "theme-default"
  {
    "theme-" + (if WeatherApi.Truthy(theme) then theme.value else "default")
  }

  /** The theme classes `applyTheme` removes before adding the new one. */
  const ThemeClasses: set<string> :=
    {"theme-clear-day", "theme-clear-night", "theme-rain", "theme-snow", "theme-clouds",
     "theme-thunderstorm", "theme-fog", "theme-default"}

  /**
    Every theme the server can answer with, and a missing one, maps to one of the
    classes `applyTheme` removes, so the body never keeps two theme classes.
   */
  lemma {:induction false} ServerThemesAreRemovable(t: WeatherApi.Theme)
    ensures ThemeClass(Some(WeatherApi.ThemeKey(t))) in ThemeClasses
    ensures ThemeClass(None) in ThemeClasses
  {
    assert ThemeClass(None) == "theme-default";
    var k := WeatherApi.ThemeKey(t);
    assert ThemeClass(Some(k)) == "theme-" + k;
    match t
    case Thunderstorm => assert "theme-" + k == "theme-thunderstorm";
    case Rain => assert "theme-" + k == "theme-rain";
    case Snow => assert "theme-" + k == "theme-snow";
    case Fog => assert "theme-" + k == "theme-fog";
    case ClearDay => assert "theme-" + k == "theme-clear-day";
    case ClearNight => assert "theme-" + k == "theme-clear-night";
    case Clouds => assert "theme-" + k == "theme-clouds";
    case DefaultTheme => assert "theme-" + k == "theme-default";
  }
}
