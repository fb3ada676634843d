# Weather app core, modelled in Dafny

`app.py` is a Streamlit weather page. It shows the current weather and a weekly forecast for a city typed into the sidebar, or for the user's own position found by GPS or by IP address. Korean place names are translated into OpenWeather queries through a large alias table.

This project models the deterministic decisions inside that page and proves what they do. The network, the clock and the browser are inputs to the model.

The modules:

- `AliasFold` (alias_fold.dfy): how a Python dictionary literal with repeated keys evaluates.
  - It is a left fold over the entries, so a later entry wins.
  - The reference definition is `LastBinding`, the last entry carrying a key.
- `KoreanCities` (korean_cities.dfy): the whole `KOREAN_CITIES` literal, its 320 entries in source order and grouped by region. It also holds the typed-name lookup of `get_weather` and the "name (query)" label shown during a search.
  - The literal repeats 중구, 남구, 서구, 동구 and 북구.
  - The model proves which of their entries wins.
- `Forecast` (forecast.dfy): the loop that groups the 3-hourly forecast by date.
  - It keeps one sample per date and prefers the noon sample.
  - It keeps the date keys in dictionary insertion order and shows the first seven.
  - The loop is an imperative method over a map and its key order. It is proved equal to a reference definition whose properties are proved as lemmas.
- `IpLocation` (ip_location.dfy): `get_location_by_ip`.
  - Three services are tried in a fixed order, each with its own acceptance rule.
  - The first service that is accepted supplies the answer.
- `UtcOffset` (utc_offset.dfy): the time-zone label in the header, such as "UTC+9" or "UTC+5:30".
- `Comfort` (comfort.dfy): the five temperature bands of the "feels like" card.
- `WeatherReply` (weather_reply.dfy): the `cod` checks applied to a weather answer before it is shown.
- `Session` (session.dfy): `main` as a state machine.
  - The only state kept between runs is `st.session_state.location_method`.
  - A button press sets it and reruns the script.
  - The view is chosen from the mode, the city box and the search button.
- `Text` and `Wrappers`: `str.split`, `str(n)`, the `+d` and `02d` formats, `None`, and `dict.get` with and without a default.

An HTTP exchange is an input value. It is either "raised" or a status code with an optionally decoded body. A JSON field is `Absent`, `Null` or a value, so that `dict.get(k, default)` returns `None` for a `null` that is present, as Python does.

## Model

| member | source | states |
|---|---|---|
| AliasFold.FoldLeft | app.py:379-733 | Evaluating the literal entry by entry never removes a key and adds at most one key per entry. Its meaning is stated by `FoldLeftLookup` and `DictLiteralLastWins`. |
| AliasFold.DictLiteralLastWins | app.py:379-733 | Evaluating the alias literal binds every key to the value of its last entry and binds no other key. |
| AliasFold.FoldLeftLookup | app.py:379-733 | Inserting entries left to right leaves each key with its last entry's value; keys no entry carries keep their earlier value. |
| AliasFold.LastBindingNone | app.py:379-733 | A key is unbound exactly when no entry carries it. |
| AliasFold.LastBindingAt | app.py:379-733 | An entry that no later entry overrides gives its key's value. |
| AliasFold.LastBindingFrom | app.py:379-733 | Conversely, every binding comes from an entry that no later entry overrides. |
| AliasFold.LastBindingAppend | app.py:379-733 | Of two consecutive stretches of entries, the second overrides the first. |
| AliasFold.UnboundInAllRegions | app.py:379-733 | A key that no region group carries is unbound. |
| AliasFold.LastInRegion | app.py:379-733 | An entry of a region group is its key's binding when nothing later in that group and no later group carries the key. |
| KoreanCities.AllKeysKoreanLed | app.py:379-733 | Every key of the table is non-empty, and its first character is a precomposed Hangul syllable (U+AC00 to U+D7A3). |
| KoreanCities.Resolve | app.py:738-741 | The query is the last value the literal gives the typed name, or the name unchanged when no entry carries it. |
| KoreanCities.DisplayLabel | app.py:1311-1313 | A key is shown as "name (query)" with its winning query; any other text is shown as typed. |
| KoreanCities.LabelChangesOnlyKeys | app.py:1311-1313 | The search label differs from the typed text exactly when the text is a key. |
| KoreanCities.NonKoreanPassesThrough | app.py:738-741 | Empty text, and text whose first character is not a Hangul syllable (U+AC00 to U+D7A3), are passed through unchanged, both as query and as label. |
| KoreanCities.TokyoPassesThrough | app.py:738-741 | "Tokyo" reaches the provider as typed. |
| KoreanCities.FullwidthPassesThrough | app.py:738-741 | "Ｔokyo", whose fullwidth first letter lies above the Hangul syllables, reaches the provider as typed. |
| KoreanCities.GangnamGuResolves | app.py:384 | "강남구" resolves to "Gangnam-gu,Seoul,KR". |
| KoreanCities.JungGuResolvesToUlsan | app.py:429-507 | "중구", bound four times, resolves to its last value "Jung-gu,Ulsan,KR". |
| KoreanCities.DongGuResolvesToUlsan | app.py:477-505 | "동구", bound three times, resolves to its last value "Dong-gu,Ulsan,KR". |
| KoreanCities.SeoGuResolvesToDaejeon | app.py:450-495 | "서구", bound three times, resolves to its last value "Seo-gu,Daejeon,KR". |
| KoreanCities.NamGuResolvesToPohang | app.py:442-673 | "남구", bound three times, resolves to its last value "Nam-gu,Pohang,KR". |
| KoreanCities.BukGuResolvesToPohang | app.py:443-674 | "북구", bound three times, resolves to its last value "Buk-gu,Pohang,KR". |
| Text.Split | app.py:220 | `str.split` on one character gives one more piece than there are separators, and no piece holds the separator. `JoinSplit` proves that joining the pieces gives the text back. |
| Text.JoinSplit | app.py:220 | Joining the pieces of a split with the separator gives the text back, so no text is lost or added. |
| Forecast.GroupDaily | app.py:942-954 | The dictionary loop with its insert-or-replace-at-noon step, then the first seven items, returns exactly the reference strip `Daily`. |
| Forecast.DailyShape | app.py:942-954 | The strip has min(7, number of distinct dates) entries. Its dates are pairwise distinct and are the first dates in order of first appearance. Each date comes with a sample of that date taken from the input. |
| Forecast.DatesInOrderMembers | app.py:942-951 | The dictionary's keys are exactly the dates of the samples. |
| Forecast.DatesInOrderDistinct | app.py:942-951 | No date is listed twice. |
| Forecast.DatesInOrderFirstAppearance | app.py:942-951 | Dates are listed in order of first appearance; replacing a value does not move its key. |
| Forecast.DatesInOrderCount | app.py:942-951 | There are as many keys as distinct dates. |
| Forecast.PickRule | app.py:947-951 | A day is represented by its last noon sample if it has one, otherwise by its first sample; either way the sample comes from the input. |
| Forecast.PickSnoc | app.py:948-951 | One more sample leaves other dates alone. It becomes the representative if its date is new or it is a noon sample, and is dropped otherwise. |
| Forecast.NoonPreferred | app.py:948-951 | For one date arriving as [09:00, 12:00], the 12:00 sample is shown. |
| Forecast.DailyIdempotent | app.py:942-954 | Grouping the samples of a strip again gives the same strip. |
| IpLocation.FromIpapi | app.py:174-194 | ipapi.co is accepted exactly on status 200 with a decoded body whose latitude and longitude are both truthy (present, not null, not zero). The result carries those two coordinates and the tag "ipapi.co". Its city, country and ip are "Unknown" for a missing key, None for a `null` and the sent text otherwise. |
| IpLocation.FromIpApi | app.py:197-212 | ip-api.com is accepted exactly on status 200 with a decoded body whose `status` is "success". The result carries the sent `lat` and `lon` as read by `dict.get` (None when missing or `null`) and the tag "ip-api.com". Its city, country and ip (from `query`) are "Unknown" for a missing key, None for a `null` and the sent text otherwise. |
| IpLocation.FromIpinfo | app.py:215-231 | An accepted ipinfo.io answer came with status 200 and a `loc` text, is tagged "ipinfo.io" and has both coordinates. Its city, country and ip are "Unknown" for a missing key, None for a `null` and the sent text otherwise. |
| IpLocation.Locate | app.py:169-233 | The chain finds no location exactly when all three services fail. A location it finds is tagged with one of the three service names. |
| IpLocation.GetLocationByIp | app.py:169-233 | The services are tried in the order ipapi.co, ip-api.com, ipinfo.io, and the first accepted one is returned. The result is None exactly when all three fail. |
| IpLocation.SourceNamesService | app.py:169-233 | The `source` tag of a result names the service that answered, and every earlier service failed. |
| IpLocation.ZeroCoordinateFailsOver | app.py:184 | A zero latitude from ipapi.co is falsy, so that service is not accepted. |
| IpLocation.IpinfoOneComma | app.py:220-224 | With `loc` = x + "," + y and no comma in x or y, ipinfo.io is accepted iff both x and y parse; the coordinates are then those numbers. |
| IpLocation.IpinfoAcceptedHasOneComma | app.py:220-224 | An accepted ipinfo.io answer had exactly one comma in `loc`. The coordinates are the parses of the text on either side of it. |
| IpLocation.IpinfoMissingLoc | app.py:220-221 | A missing `loc` reads as "", which splits into one piece, so the service is not accepted. |
| UtcOffset.Hours | app.py:813 | The hours are the floor of offset/3600. |
| UtcOffset.Minutes | app.py:814 | The minutes lie in 0..59. |
| UtcOffset.HoursMinutesExact | app.py:813-814 | For an offset in whole minutes, hours·3600 + minutes·60 = offset. |
| UtcOffset.LabelAsWritten | app.py:815-818 | The label starts with "UTC" and a sign, and the sign is '-' exactly for offsets west of UTC. Its reading is stated by `LabelAsWrittenRoundTrip` and `LabelAsWrittenMisreadsWest`. |
| UtcOffset.LabelAsWrittenRenders | app.py:815-818 | The label is "UTC", the signed floored hours, and ":mm" only when the minutes are not zero. |
| UtcOffset.LabelAsWrittenExamples | app.py:815-818 | 32400 → "UTC+9", 0 → "UTC+0", -18000 → "UTC-5", 19800 → "UTC+5:30", 20700 → "UTC+5:45". |
| UtcOffset.LabelAsWrittenRoundTrip | app.py:813-818 | For offsets east of UTC, and for whole hours west of it, the label reads back as the offset. |
| UtcOffset.LabelAsWrittenMisreadsWest | app.py:813-818 | West of UTC with a non-zero minute part, the label reads as the offset minus twice its minutes. |
| UtcOffset.NewfoundlandExample | app.py:813-818 | -12600 s prints "UTC-4:30", which reads as -16200 s; the sign-magnitude label prints "UTC-3:30". |
| UtcOffset.ReadRender | app.py:815-818 | A label made of a sign, hours and two-digit minutes reads back as the signed total. |
| UtcOffset.LabelRoundTrip | app.py:813-818 | The sign-magnitude label reads back as the offset, for every offset in whole minutes. |
| Comfort.Classify | app.py:886-900 | The if/elif chain puts a temperature in the band whose rank is the number of thresholds (0, 10, 20, 28 °C) it has reached: threshold i is reached exactly when i is below the rank. |
| Comfort.ClassifyCountsThresholds | app.py:886-900 | The band's rank is the number of thresholds (0, 10, 20, 28 °C) the temperature has reached. Each band is therefore a half-open interval that includes its lower bound. |
| Comfort.ClassifyMonotone | app.py:886-900 | A warmer temperature never falls into a colder band. |
| Comfort.BandsTellApart | app.py:887-900 | Two bands have the same word, or the same emoji, only when they are the same band. |
| Comfort.CardExamples | app.py:886-900 | -5 °C shows "매우 추움" with 🥶, 15 °C "쾌적" with 😊, 30 °C "더움" with 🥵. |
| Comfort.BoundariesBelongAbove | app.py:886-900 | 0, 10, 20 and 28 °C fall into the warmer band: cold, pleasant, warm and hot. |
| WeatherReply.CodTextIs404 | app.py:1183 | `str(cod)` is "404" exactly when `cod` is the number 404 or the string "404". |
| WeatherReply.CoordsAccepts | app.py:1183 | The coordinate check (also app.py:1211) accepts an answer exactly when it is truthy and its `cod` is neither the number 404 nor the string "404". |
| WeatherReply.CityAccepts | app.py:1318 | The city check accepts an answer exactly when it is truthy and its `cod` is not the string "404"; in particular it accepts a numeric 404 `cod`. |
| WeatherReply.ChecksDifferOnNumeric404 | app.py:1183 | Anything the coordinate check accepts, the city check (app.py:1318) accepts. The two differ exactly on a numeric `cod` of 404. |
| WeatherReply.BothReject | app.py:1318 | No answer, an empty answer and a string "404" are turned away on the city path and on the coordinate paths. |
| Session.NextMode | app.py:1139-1149 | A GPS or IP press always selects a mode. A mode is entered only by its own button (GPS winning over IP) or kept from before. Without a press, city text or a search press clears the mode. |
| Session.Dispatch | app.py:1152-1321 | The GPS panel is chosen exactly in GPS mode; a manual lookup asked for there shows weather exactly when the coordinate check accepts the answer for those coordinates. An IP view is chosen exactly in IP mode: "not located" exactly when the chain finds nothing, "coordinates missing" exactly when its location lacks a coordinate, and otherwise the located view, whose weather is shown exactly when the coordinate check accepts the answer for that location. A city result asks for the resolved query, shows the alias label, and shows weather exactly when the city check accepts the answer for that query. |
| Session.SessionState.constructor | app.py:1083-1084 | A new session starts with no location mode. |
| Session.SessionState.Run | app.py:1139-1321 | A GPS press (winning over IP) or an IP press records the mode and reruns. Otherwise a city or search press clears the mode. The view is then dispatched from the mode, the city text and the search flag. |
| Session.SessionState.Interact | app.py:1139-1149 | An interaction is one run, plus the rerun with the buttons released that a GPS or IP press asks for. |
| Session.GpsPressWins | app.py:1139-1145 | A GPS press sets GPS mode and reruns, even when IP is pressed too. |
| Session.CityOrSearchClearsMode | app.py:1148-1149 | Non-empty city text, or a search press without a mode button, leaves no location mode once the interaction settles. |
| Session.ButtonIgnoredWhileCityTyped | app.py:1139-1149 | A GPS or IP press while the city box holds text is undone by its own rerun, and the search result for that text is shown. |
| Session.ButtonSelectsMode | app.py:1139-1209 | With an empty city box, a GPS press settles on the GPS panel and an IP press alone on the IP result. |
| Session.IdleKeepsMode | app.py:1139-1149 | A run with no button press and an empty city box keeps the mode. |
| Session.ViewFollowsMode | app.py:1152-1321 | The GPS panel is shown exactly in GPS mode and an IP result exactly in IP mode. The welcome page is shown exactly with no mode, no city and no search. A search with an empty city box shows neither the welcome page nor a search result. |
| Session.CitySearchUsesAlias | app.py:1309-1318 | A city search asks for the resolved query and applies the city-path check. It shows the typed text unchanged exactly when the text is not an alias. |
| Session.IpViewUsesChain | app.py:1192-1211 | A located IP view shows the chain's first accepted location, with both coordinates present, and shows weather exactly when the coordinate check accepts the answer for those coordinates. |

## Left out

- Streamlit rendering is not modelled: layout, metrics, images, expanders, maps, the sidebar mode banner and the button styling (app.py:1093-1121). The model keeps only which view is chosen and the values it is chosen from.
- The GPS widget and the Leaflet map are not modelled (app.py:36-166, app.py:281-375). They are JavaScript that runs in the browser and reports back asynchronously.
- Network I/O is not modelled: `requests.get`, `raise_for_status` and `.json()` in `get_weather`, `get_weather_by_coords`, `get_forecast_data` and `get_location_by_ip`. Their outcomes are inputs.
  - A JSON value of another type than the model's field type is not modelled. Examples are a string where a number is expected, or a decoded body that is not an object.
- API-key loading and `st.stop()` (app.py:9-33) are not modelled. They are environment configuration.
- The clock and the host time zone are not modelled: `datetime.now`, `datetime.fromtimestamp` and `strftime`, including the weekday names. Each forecast sample's date key and hour are inputs, and the UTC offset is an integer input.
- Floating point is not modelled. Temperatures and coordinates are exact reals; `float()` on text is an input function that may fail. The `.1f`/`.4f` formats and `pop * 100` are not modelled.
- `get_historical_weather` (app.py:273-278) is a stub that returns None and is not modelled.
- The forecast view's own guards are not modelled: the fetch, `if forecast_data and forecast_data.get('list')`, and the column layout. The model starts from the list of samples.
- The bounds on the manual latitude/longitude fields (app.py:1175-1177) are not modelled, because the widget enforces them. The manual lookup is modelled only as its `cod` check.
- The "show my location on the map" checkbox is not modelled; it only changes rendering.
- The IP view shows a location whose coordinate is `null` (possible only from ip-api.com) as `IpCoordinatesMissing`. There the `.4f` caption raises, and the page after that point is not modelled.
- Taking the first seven dictionary items (`list(...)[:7]`) is a sequence comprehension, not a loop.
- Python dictionary iteration order is modelled as an explicit key sequence beside the map.

## Findings

| source | as written | input that shows it | evidently intended | confidence | as-written member | corrected member |
|---|---|---|---|---|---|---|
| app.py:813-818 | The hours are floored (`offset // 3600`). The minutes are the remainder past that floor, printed after the hours' sign. | offset -12600 s (UTC-3:30, Newfoundland) prints "UTC-4:30", which reads as -16200 s. Every offset west of UTC with a non-zero minute part is misprinted the same way. | "UTC-3:30": the sign, then the hours and minutes of the magnitude. | high; not executed | UtcOffset.LabelAsWrittenMisreadsWest | UtcOffset.LabelRoundTrip |
