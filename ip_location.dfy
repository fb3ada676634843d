/** Locating the user by IP address (app.py:169-233): three free services are
    asked in turn, ipapi.co, then ip-api.com, then ipinfo.io, and the first
    answer that passes that service's checks is returned. A request that
    raises, a status other than 200, a body that does not decode or a failed
    check falls through to the next service; when all three fail there is no
    location. The HTTP exchanges are inputs here. */
module IpLocation {
  import opened Wrappers
  import Text

  /** The outcome of one `requests.get`: it raised (timeout, connection error),
      or it answered with a status code and a body that `.json()` decoded into
      a JSON object (`None` when decoding raised or gave something that is not
      an object, on which `.get` raises; both are caught). */
  datatype Reply<B> = Raised | Response(status: int, body: Option<B>)

  /** The fields of an ipapi.co answer that the application reads. */
  datatype IpapiBody = IpapiBody(latitude: Field<real>, longitude: Field<real>,
                                 city: Field<string>, countryName: Field<string>, ip: Field<string>)

  /** The fields of an ip-api.com answer that the application reads. */
  datatype IpApiBody = IpApiBody(status: Field<string>, lat: Field<real>, lon: Field<real>,
                                 city: Field<string>, country: Field<string>, query: Field<string>)

  /** The fields of an ipinfo.io answer that the application reads; `loc` is
      the text "latitude,longitude". */
  datatype IpinfoBody = IpinfoBody(loc: Field<string>, city: Field<string>,
                                   country: Field<string>, ip: Field<string>)

  /** The location dictionary the function returns. A coordinate or a text
      field is `None` when the service sent `null` for it. */
  datatype Location = Location(lat: Option<real>, lon: Option<real>, city: Option<string>,
                               country: Option<string>, ip: Option<string>, source: string)

  const Unknown := "Unknown"
  const Ok: int := 200

  /** Python truthiness of a JSON number read with `dict.get`: `None` and zero are false. */
  predicate Truthy(x: Option<real>)
  {
    x.Some? && x.value != 0.0
  }

  /** A text entry of the result as `data.get(k, 'Unknown')` leaves it: the
      default for a missing key, `None` for a `null`, the text otherwise. */
  predicate TextOrUnknown(f: Field<string>, x: Option<string>)
  {
    (f.Absent? ==> x == Some(Unknown)) && (f.Null? ==> x == None) && (f.Value? ==> x == Some(f.v))
  }

  /** What the ipapi.co step yields (app.py:174-194): status 200 and truthy
      latitude and longitude. */
  function FromIpapi(a: Reply<IpapiBody>): (r: Option<Location>)
    ensures r.Some? ==> r.value.source == "ipapi.co" && Truthy(r.value.lat) && Truthy(r.value.lon)
    ensures r.Some? <==> a.Response? && a.status == Ok && a.body.Some?
                         && Truthy(a.body.value.latitude.Get()) && Truthy(a.body.value.longitude.Get())
    ensures r.Some? ==> r.value.lat == Some(a.body.value.latitude.v) && r.value.lon == Some(a.body.value.longitude.v)
    ensures r.Some? ==> TextOrUnknown(a.body.value.city, r.value.city)
                        && TextOrUnknown(a.body.value.countryName, r.value.country)
                        && TextOrUnknown(a.body.value.ip, r.value.ip)
  {
    match a
    case Raised => None
    case Response(status, body) =>
      if status != Ok || body.None? then None
      else
        var d := body.value;
        var lat, lon := d.latitude.Get(), d.longitude.Get();
        if Truthy(lat) && Truthy(lon) then
          Some(Location(lat, lon, d.city.GetOr(Unknown), d.countryName.GetOr(Unknown),
                        d.ip.GetOr(Unknown), "ipapi.co"))
        else None
  }

  /** What the ip-api.com step yields (app.py:197-212): status 200 and a
      `status` field equal to "success"; the coordinates are taken as sent. */
  function FromIpApi(b: Reply<IpApiBody>): (r: Option<Location>)
    ensures r.Some? ==> r.value.source == "ip-api.com"
    ensures r.Some? <==> b.Response? && b.status == Ok && b.body.Some? && b.body.value.status == Value("success")
    ensures r.Some? ==> r.value.lat == b.body.value.lat.Get() && r.value.lon == b.body.value.lon.Get()
    ensures r.Some? ==> TextOrUnknown(b.body.value.city, r.value.city)
                        && TextOrUnknown(b.body.value.country, r.value.country)
                        && TextOrUnknown(b.body.value.query, r.value.ip)
  {
    match b
    case Raised => None
    case Response(status, body) =>
      if status != Ok || body.None? then None
      else
        var d := body.value;
        if d.status.Get() == Some("success") then
          Some(Location(d.lat.Get(), d.lon.Get(), d.city.GetOr(Unknown), d.country.GetOr(Unknown),
                        d.query.GetOr(Unknown), "ip-api.com"))
        else None
  }

  /** What the ipinfo.io step yields (app.py:215-231): status 200 and a `loc`
      that splits on ',' into exactly two pieces that both parse as numbers.
      A missing `loc` is read as "" (one piece); a `null` one makes `.split`
      raise. `parse` stands for Python's `float()` on text, `None` where it raises. */
  function FromIpinfo(c: Reply<IpinfoBody>, parse: string -> Option<real>): (r: Option<Location>)
    ensures r.Some? ==> r.value.source == "ipinfo.io" && r.value.lat.Some? && r.value.lon.Some?
    ensures r.Some? ==> c.Response? && c.status == Ok && c.body.Some? && c.body.value.loc.Value?
    ensures r.Some? ==> TextOrUnknown(c.body.value.city, r.value.city)
                        && TextOrUnknown(c.body.value.country, r.value.country)
                        && TextOrUnknown(c.body.value.ip, r.value.ip)
  {
    match c
    case Raised => None
    case Response(status, body) =>
      if status != Ok || body.None? then None
      else
        var d := body.value;
        match d.loc.GetOr("")
        case None => None
        case Some(text) =>
          var parts := Text.Split(text, ',');
          if |parts| != 2 then None
          else if parse(parts[0]).None? || parse(parts[1]).None? then None
          else Some(Location(parse(parts[0]), parse(parts[1]), d.city.GetOr(Unknown),
                             d.country.GetOr(Unknown), d.ip.GetOr(Unknown), "ipinfo.io"))
  }

  /** The location the chain settles on: the first service that is accepted. */
  function Locate(a: Reply<IpapiBody>, b: Reply<IpApiBody>, c: Reply<IpinfoBody>,
                  parse: string -> Option<real>): (r: Option<Location>)
    ensures r.None? <==> FromIpapi(a).None? && FromIpApi(b).None? && FromIpinfo(c, parse).None?
    ensures r.Some? ==> r.value.source in {"ipapi.co", "ip-api.com", "ipinfo.io"}
  {
    if FromIpapi(a).Some? then FromIpapi(a)
    else if FromIpApi(b).Some? then FromIpApi(b)
    else FromIpinfo(c, parse)
  }

  /** `get_location_by_ip`: each service is tried in turn and the function
      returns as soon as one is accepted. */
  method GetLocationByIp(a: Reply<IpapiBody>, b: Reply<IpApiBody>, c: Reply<IpinfoBody>,
                         parse: string -> Option<real>)
    returns (loc: Option<Location>)
    ensures FromIpapi(a).Some? ==> loc == FromIpapi(a)
    ensures FromIpapi(a).None? && FromIpApi(b).Some? ==> loc == FromIpApi(b)
    ensures FromIpapi(a).None? && FromIpApi(b).None? ==> loc == FromIpinfo(c, parse)
    ensures loc.None? <==> FromIpapi(a).None? && FromIpApi(b).None? && FromIpinfo(c, parse).None?
    ensures loc == Locate(a, b, c, parse)
  {
    // ipapi.co
    if a.Response? && a.status == Ok && a.body.Some? {
      var d := a.body.value;
      var lat, lon := d.latitude.Get(), d.longitude.Get();
      if Truthy(lat) && Truthy(lon) {
        return Some(Location(lat, lon, d.city.GetOr(Unknown), d.countryName.GetOr(Unknown),
                             d.ip.GetOr(Unknown), "ipapi.co"));
      }
    }
    // ip-api.com
    if b.Response? && b.status == Ok && b.body.Some? {
      var d := b.body.value;
      if d.status.Get() == Some("success") {
        return Some(Location(d.lat.Get(), d.lon.Get(), d.city.GetOr(Unknown), d.country.GetOr(Unknown),
                             d.query.GetOr(Unknown), "ip-api.com"));
      }
    }
    // ipinfo.io
    if c.Response? && c.status == Ok && c.body.Some? {
      var d := c.body.value;
      var text := d.loc.GetOr("");
      if text.Some? {
        var parts := Text.Split(text.value, ',');
        if |parts| == 2 {
          var lat, lon := parse(parts[0]), parse(parts[1]);
          if lat.Some? && lon.Some? {
            return Some(Location(lat, lon, d.city.GetOr(Unknown), d.country.GetOr(Unknown),
                                 d.ip.GetOr(Unknown), "ipinfo.io"));
          }
        }
      }
    }
    return None;
  }

  /** The `source` tag names the service that answered, and every service
      before it failed. */
  lemma SourceNamesService(a: Reply<IpapiBody>, b: Reply<IpApiBody>, c: Reply<IpinfoBody>,
                           parse: string -> Option<real>, loc: Location)
    requires Locate(a, b, c, parse) == Some(loc)
    ensures loc.source == "ipapi.co" ==> FromIpapi(a) == Some(loc)
    ensures loc.source == "ip-api.com" ==> FromIpapi(a).None? && FromIpApi(b) == Some(loc)
    ensures loc.source == "ipinfo.io" ==>
              FromIpapi(a).None? && FromIpApi(b).None? && FromIpinfo(c, parse) == Some(loc)
  {
  }

  /** A zero coordinate from ipapi.co is falsy, so the chain moves on even
      though the service answered. */
  lemma ZeroCoordinateFailsOver(d: IpapiBody, lon: real)
    requires d.latitude == Value(0.0) && d.longitude == Value(lon)
    ensures FromIpapi(Response(Ok, Some(d))) == None
  {
  }

  /** ipinfo.io is accepted exactly when `loc` holds one comma with parseable
      text on both sides, and then those two numbers are the coordinates. */
  lemma IpinfoOneComma(d: IpinfoBody, parse: string -> Option<real>, x: string, y: string)
    requires ',' !in x && ',' !in y
    requires d.loc == Value(x + "," + y)
    ensures FromIpinfo(Response(Ok, Some(d)), parse).Some? <==> parse(x).Some? && parse(y).Some?
    ensures FromIpinfo(Response(Ok, Some(d)), parse).Some? ==>
              FromIpinfo(Response(Ok, Some(d)), parse).value.lat == parse(x)
              && FromIpinfo(Response(Ok, Some(d)), parse).value.lon == parse(y)
  {
    Text.SplitAround(x, y, ',');
    assert x + "," + y == x + [','] + y;
  }

  /** Conversely, an accepted ipinfo.io answer had exactly one comma in `loc`,
      and the coordinates are the numbers before and after it. */
  lemma IpinfoAcceptedHasOneComma(c: Reply<IpinfoBody>, parse: string -> Option<real>)
    requires FromIpinfo(c, parse).Some?
    ensures c.Response? && c.status == Ok && c.body.Some? && c.body.value.loc.Value?
    ensures Text.Count(c.body.value.loc.v, ',') == 1
    ensures exists x, y | c.body.value.loc.v == x + "," + y ::
              ',' !in x && ',' !in y
              && FromIpinfo(c, parse).value.lat == parse(x) && FromIpinfo(c, parse).value.lon == parse(y)
  {
    var s := c.body.value.loc.v;
    var parts := Text.Split(s, ',');
    Text.SplitInTwo(s, ',');
    assert s == parts[0] + "," + parts[1];
  }

  /** A missing `loc` never locates: "" splits into a single piece. */
  lemma IpinfoMissingLoc(d: IpinfoBody, parse: string -> Option<real>)
    requires d.loc.Absent?
    ensures FromIpinfo(Response(Ok, Some(d)), parse) == None
  {
    assert Text.Split("", ',') == [""];
  }
}
