/** The checks the page applies to a current-weather answer before showing it.
    The coordinate paths (app.py:1183 and app.py:1211) compare the text of
    `cod` with "404"; the city path (app.py:1318) compares `cod` itself with
    the string "404". The fetch functions return `None` when the request
    raised or the status was an error (app.py:236-251, app.py:735-755). */
module WeatherReply {
  import opened Wrappers
  import Text

  /** A JSON value found under `cod`: OpenWeather sends a number or a string. */
  datatype Cod = Num(n: int) | Str(s: string)

  /** A decoded answer: its `cod` entry, and whether it has any other key (an
      empty dictionary is falsy in Python). */
  datatype WeatherData = WeatherData(cod: Field<Cod>, otherKeys: bool)

  /** Python truthiness of the decoded dictionary. */
  predicate Truthy(w: WeatherData)
  {
    !w.cod.Absent? || w.otherKeys
  }

  /** `str(x)` for the value `weather_data.get('cod')`. */
  function CodText(x: Option<Cod>): string
  {
    match x
    case None => "None"
    case Some(Num(n)) => Text.IntToString(n)
    case Some(Str(s)) => s
  }

  /** `str(404)` is "404". */
  lemma Code404Text()
    ensures CodText(Some(Num(404))) == "404"
  {
    assert Text.NatToString(404) == Text.NatToString(40) + ['4'];
    assert Text.NatToString(40) == Text.NatToString(4) + ['0'];
  }

  /** The text of `cod` is "404" exactly for the number 404 and the string "404". */
  lemma CodTextIs404(x: Option<Cod>)
    ensures CodText(x) == "404" <==> x == Some(Num(404)) || x == Some(Str("404"))
  {
    Code404Text();
    if x.Some? && x.value.Num? && CodText(x) == "404" {
      Text.IntToStringInjective(x.value.n, 404);
    }
  }

  /** The check on the coordinate paths. */
  predicate CoordsAccepts(w: Option<WeatherData>): (ok: bool)
    ensures ok <==> w.Some? && Truthy(w.value) && w.value.cod != Value(Num(404)) && w.value.cod != Value(Str("404"))
  {
    w.Some? && Truthy(w.value) && (CodTextIs404(w.value.cod.Get()); CodText(w.value.cod.Get()) != "404")
  }

  /** The check on the city path. */
  predicate CityAccepts(w: Option<WeatherData>): (ok: bool)
    ensures ok ==> w.Some? && Truthy(w.value) && w.value.cod != Value(Str("404"))
    ensures w.Some? && Truthy(w.value) && w.value.cod != Value(Str("404")) ==> ok
    ensures w.Some? && w.value.cod == Value(Num(404)) ==> ok
  {
    w.Some? && Truthy(w.value) && w.value.cod.Get() != Some(Str("404"))
  }

  /** The two checks disagree on exactly one kind of answer: a numeric 404,
      which the city path lets through and the coordinate paths turn away. */
  lemma ChecksDifferOnNumeric404(w: Option<WeatherData>)
    ensures CoordsAccepts(w) ==> CityAccepts(w)
    ensures CityAccepts(w) && !CoordsAccepts(w) <==> w.Some? && w.value.cod == Value(Num(404))
  {
  }

  /** No answer, an empty answer and a string "404" are turned away on both paths. */
  lemma BothReject(w: Option<WeatherData>)
    requires w.None? || !Truthy(w.value) || w.value.cod == Value(Str("404"))
    ensures !CoordsAccepts(w) && !CityAccepts(w)
  {
  }
}
