/** The page script `main` (app.py:1075-1329) as a state machine. Streamlit
    runs the script from the top on every interaction; the only state kept
    between runs is `st.session_state.location_method`, which says whether the
    page is in GPS mode, IP mode or neither. A GPS or IP button press records
    the mode and ends the run with `st.rerun()`; on the new run the buttons
    read as released while the city box keeps its text. */
module Session {
  import opened Wrappers
  import AliasFold
  import KoreanCities
  import IpLocation
  import WeatherReply

  /** `location_method`: `None`, "GPS" or "IP". */
  datatype Mode = NoMode | Gps | Ip

  /** What one run reads from the widgets. `manualCoords` holds the latitude
      and longitude fields of the GPS panel when its "weather for these
      coordinates" button was pressed on this run. */
  datatype Input = Input(gpsPressed: bool, ipPressed: bool, city: string, searchPressed: bool,
                         manualCoords: Option<(real, real)>)

  /** The answers of the outside services: the three IP location services,
      `float()` on text, and the current-weather lookups by coordinates and by
      query (`None` where the fetch function returns `None`). */
  datatype Network = Network(
    ipapi: IpLocation.Reply<IpLocation.IpapiBody>,
    ipApi: IpLocation.Reply<IpLocation.IpApiBody>,
    ipinfo: IpLocation.Reply<IpLocation.IpinfoBody>,
    parseFloat: string -> Option<real>,
    byCoords: (real, real) -> Option<WeatherReply.WeatherData>,
    byQuery: string -> Option<WeatherReply.WeatherData>)

  /** What the main area shows at the end of a run. */
  datatype View =
    | GpsPanel(manual: Option<bool>)              // manual lookup: not asked, or whether weather was shown
    | IpNotLocated                                // all three IP services failed
    | IpCoordinatesMissing(loc: IpLocation.Location) // the coordinate caption fails on a `None` coordinate
    | IpLocated(loc: IpLocation.Location, weatherShown: bool)
    | Welcome
    | CityResult(shown: string, query: string, weatherShown: bool)
    | Blank                                       // search pressed with an empty city box

  datatype Outcome = Rerun | Rendered(view: View)

  /** The mode after the button handlers of app.py:1139-1149. */
  function NextMode(mode: Mode, input: Input): (m: Mode)
    ensures Reruns(input) ==> m != NoMode
    ensures m == Gps ==> input.gpsPressed || mode == Gps
    ensures m == Ip ==> (input.ipPressed && !input.gpsPressed) || mode == Ip
    ensures !Reruns(input) && (input.searchPressed || input.city != []) ==> m == NoMode
  {
    if input.gpsPressed then Gps
    else if input.ipPressed then Ip
    else if input.searchPressed || input.city != [] then NoMode
    else mode
  }

  /** A GPS or IP press ends the run early. */
  predicate Reruns(input: Input)
  {
    input.gpsPressed || input.ipPressed
  }

  /** The view chosen by app.py:1152-1321 once the mode is settled. */
  function Dispatch(mode: Mode, input: Input, net: Network): (v: View)
    ensures v.GpsPanel? <==> mode == Gps
    ensures v.GpsPanel? ==> (v.manual.Some? <==> input.manualCoords.Some?)
    ensures (v.IpNotLocated? || v.IpCoordinatesMissing? || v.IpLocated?) <==> mode == Ip
    ensures v.IpNotLocated? <==> mode == Ip && IpLocation.Locate(net.ipapi, net.ipApi, net.ipinfo, net.parseFloat).None?
    ensures v.GpsPanel? && input.manualCoords.Some? ==>
              v.manual == Some(WeatherReply.CoordsAccepts(net.byCoords(input.manualCoords.value.0, input.manualCoords.value.1)))
    ensures v.IpCoordinatesMissing? <==>
              mode == Ip && IpLocation.Locate(net.ipapi, net.ipApi, net.ipinfo, net.parseFloat).Some?
              && (IpLocation.Locate(net.ipapi, net.ipApi, net.ipinfo, net.parseFloat).value.lat.None?
                  || IpLocation.Locate(net.ipapi, net.ipApi, net.ipinfo, net.parseFloat).value.lon.None?)
    ensures v.IpLocated? ==>
              Some(v.loc) == IpLocation.Locate(net.ipapi, net.ipApi, net.ipinfo, net.parseFloat)
              && v.loc.lat.Some? && v.loc.lon.Some?
              && v.weatherShown == WeatherReply.CoordsAccepts(net.byCoords(v.loc.lat.value, v.loc.lon.value))
    ensures v.CityResult? ==> v.query == KoreanCities.Resolve(input.city) && v.shown == KoreanCities.DisplayLabel(input.city)
                              && v.weatherShown == WeatherReply.CityAccepts(net.byQuery(v.query))
  {
    match mode
    case Gps =>
      GpsPanel(if input.manualCoords.Some?
               then Some(WeatherReply.CoordsAccepts(net.byCoords(input.manualCoords.value.0, input.manualCoords.value.1)))
               else None)
    case Ip =>
      var found := IpLocation.Locate(net.ipapi, net.ipApi, net.ipinfo, net.parseFloat);
      if found.None? then IpNotLocated
      else if found.value.lat.None? || found.value.lon.None? then IpCoordinatesMissing(found.value)
      else IpLocated(found.value, WeatherReply.CoordsAccepts(net.byCoords(found.value.lat.value, found.value.lon.value)))
    case NoMode =>
      if input.city == [] && !input.searchPressed then Welcome
      else if input.city != [] then
        var query := KoreanCities.Resolve(input.city);
        CityResult(KoreanCities.DisplayLabel(input.city), query, WeatherReply.CityAccepts(net.byQuery(query)))
      else Blank
  }

  /** The widgets as the rerun after a button press reads them: every button
      released, the city box unchanged. */
  function Released(input: Input): (r: Input)
    ensures !Reruns(r) && !r.searchPressed && r.manualCoords.None? && r.city == input.city
  {
    input.(gpsPressed := false, ipPressed := false, searchPressed := false, manualCoords := None)
  }

  /** The mode once an interaction has settled (after the rerun, if any). */
  function SettledMode(mode: Mode, input: Input): Mode
  {
    if Reruns(input) then NextMode(NextMode(mode, input), Released(input)) else NextMode(mode, input)
  }

  /** The view once an interaction has settled. */
  function SettledView(mode: Mode, input: Input, net: Network): View
  {
    Dispatch(SettledMode(mode, input), if Reruns(input) then Released(input) else input, net)
  }

  /** `st.session_state` for one browser session. */
  class SessionState {
    var locationMethod: Mode

    /** The first run of a session initialises the mode to `None` (app.py:1083-1084). */
    constructor()
      ensures locationMethod == NoMode
    {
      locationMethod := NoMode;
    }

    /** One run of `main` with the given widget values. */
    method Run(input: Input, net: Network) returns (out: Outcome)
      modifies this
      ensures locationMethod == NextMode(old(locationMethod), input)
      ensures out == if Reruns(input) then Rerun else Rendered(Dispatch(locationMethod, input, net))
    {
      if input.gpsPressed {
        locationMethod := Gps;
        return Rerun;
      }
      if input.ipPressed {
        locationMethod := Ip;
        return Rerun;
      }
      if input.searchPressed || input.city != [] {
        locationMethod := NoMode;
      }
      var view: View;
      if locationMethod == Gps {
        var manual: Option<bool> := None;
        if input.manualCoords.Some? {
          var (lat, lon) := input.manualCoords.value;
          manual := Some(WeatherReply.CoordsAccepts(net.byCoords(lat, lon)));
        }
        view := GpsPanel(manual);
      } else if locationMethod == Ip {
        var found := IpLocation.GetLocationByIp(net.ipapi, net.ipApi, net.ipinfo, net.parseFloat);
        if found.None? {
          view := IpNotLocated;
        } else if found.value.lat.None? || found.value.lon.None? {
          view := IpCoordinatesMissing(found.value);
        } else {
          var weather := net.byCoords(found.value.lat.value, found.value.lon.value);
          view := IpLocated(found.value, WeatherReply.CoordsAccepts(weather));
        }
      } else if input.city == [] && !input.searchPressed {
        view := Welcome;
      } else if input.city != [] {
        var query := KoreanCities.Resolve(input.city);
        view := CityResult(KoreanCities.DisplayLabel(input.city), query, WeatherReply.CityAccepts(net.byQuery(query)));
      } else {
        view := Blank;
      }
      return Rendered(view);
    }

    /** One user interaction: a run, and the rerun it asks for, if any. */
    method Interact(input: Input, net: Network) returns (view: View)
      modifies this
      ensures locationMethod == SettledMode(old(locationMethod), input)
      ensures view == SettledView(old(locationMethod), input, net)
    {
      var out := Run(input, net);
      if out.Rerun? {
        out := Run(Released(input), net);
      }
      view := out.view;
    }
  }

  // -----------------------------------------------------------------------
  // Properties of the transitions

  /** A GPS press wins over an IP press on the same run, and either press
      ends the run before anything is shown. */
  lemma GpsPressWins(mode: Mode, input: Input)
    requires input.gpsPressed
    ensures NextMode(mode, input) == Gps && Reruns(input)
  {
  }

  /** A typed city or a search press leaves no location mode once the
      interaction settles, whatever buttons were pressed. */
  lemma CityOrSearchClearsMode(mode: Mode, input: Input)
    requires input.city != [] || (input.searchPressed && !Reruns(input))
    ensures SettledMode(mode, input) == NoMode
  {
  }

  /** A GPS or IP press while the city box holds text is undone by the rerun it
      triggers: the settled page is the search result for that text. */
  lemma ButtonIgnoredWhileCityTyped(mode: Mode, input: Input, net: Network)
    requires Reruns(input) && input.city != []
    ensures SettledMode(mode, input) == NoMode
    ensures SettledView(mode, input, net)
         == CityResult(KoreanCities.DisplayLabel(input.city), KoreanCities.Resolve(input.city),
                       WeatherReply.CityAccepts(net.byQuery(KoreanCities.Resolve(input.city))))
  {
  }

  /** With an empty city box, a GPS press settles in GPS mode showing the GPS
      panel, and an IP press alone settles in IP mode showing the IP result. */
  lemma ButtonSelectsMode(mode: Mode, input: Input, net: Network)
    requires Reruns(input) && input.city == []
    ensures input.gpsPressed ==> SettledMode(mode, input) == Gps && SettledView(mode, input, net) == GpsPanel(None)
    ensures !input.gpsPressed ==> SettledMode(mode, input) == Ip
                                  && (SettledView(mode, input, net).IpNotLocated?
                                      || SettledView(mode, input, net).IpCoordinatesMissing?
                                      || SettledView(mode, input, net).IpLocated?)
  {
  }

  /** A run with no button pressed and an empty city box keeps the mode. */
  lemma IdleKeepsMode(mode: Mode, input: Input)
    requires !Reruns(input) && !input.searchPressed && input.city == []
    ensures SettledMode(mode, input) == mode
  {
  }

  /** The settled view always matches the settled mode: the GPS panel exactly
      in GPS mode, an IP result exactly in IP mode; the welcome page exactly
      when there is no mode, no city and no search; a search with an empty
      city box shows neither the welcome page nor a search result. */
  lemma ViewFollowsMode(mode: Mode, input: Input, net: Network)
    ensures SettledView(mode, input, net).GpsPanel? <==> SettledMode(mode, input) == Gps
    ensures (SettledView(mode, input, net).IpNotLocated? || SettledView(mode, input, net).IpCoordinatesMissing?
             || SettledView(mode, input, net).IpLocated?) <==> SettledMode(mode, input) == Ip
    ensures SettledView(mode, input, net) == Welcome <==>
              SettledMode(mode, input) == NoMode && input.city == [] && !input.searchPressed
    ensures SettledView(mode, input, net) == Blank <==>
              SettledMode(mode, input) == NoMode && input.city == [] && input.searchPressed && !Reruns(input)
    ensures SettledView(mode, input, net).CityResult? <==> SettledMode(mode, input) == NoMode && input.city != []
  {
  }

  /** A city search asks the weather service for the resolved query and shows
      the typed text, annotated with that query when the text is an alias. */
  lemma CitySearchUsesAlias(mode: Mode, input: Input, net: Network)
    requires SettledView(mode, input, net).CityResult?
    ensures SettledView(mode, input, net).query == KoreanCities.Resolve(input.city)
    ensures SettledView(mode, input, net).weatherShown
        == WeatherReply.CityAccepts(net.byQuery(KoreanCities.Resolve(input.city)))
    ensures SettledView(mode, input, net).shown == input.city
        <==> AliasFold.LastBinding(KoreanCities.Entries, input.city).None?
  {
    KoreanCities.LabelChangesOnlyKeys(input.city);
  }

  /** An IP result shows the first location the chain accepts, and its weather
      check is the coordinate path's. */
  lemma IpViewUsesChain(mode: Mode, input: Input, net: Network)
    requires SettledView(mode, input, net).IpLocated?
    ensures Some(SettledView(mode, input, net).loc) == IpLocation.Locate(net.ipapi, net.ipApi, net.ipinfo, net.parseFloat)
    ensures SettledView(mode, input, net).loc.lat.Some? && SettledView(mode, input, net).loc.lon.Some?
    ensures SettledView(mode, input, net).weatherShown
         == WeatherReply.CoordsAccepts(net.byCoords(SettledView(mode, input, net).loc.lat.value,
                                                    SettledView(mode, input, net).loc.lon.value))
  {
  }
}
