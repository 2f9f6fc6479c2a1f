/** Current-weather lookup (app/services/weather.py): normalising a
    user-entered location into OpenWeather's "City,ST,CC" form and shaping the
    service's JSON into the compact weather snapshot the rest of the
    application reads. The HTTP requests themselves are oracle parameters. */
module Weather {
  import opened Common
  import opened Text

  // ---------------------------------------------------------------------
  // city normalisation

  /** A location piece after `strip()`: non-empty, with no whitespace at
      either end (so its own strip), and free of commas. */
  predicate Clean(p: string) {
    p != "" && !IsSpace(p[0]) && !IsSpace(p[|p| - 1]) && ',' !in p
  }

  /** `[p.strip() for p in parts if p.strip()]`. */
  function CleanPieces(parts: seq<string>): (r: seq<string>)
    requires forall p <- parts :: ',' !in p
    ensures |r| <= |parts|
    ensures forall q <- r :: Clean(q)
    decreases |parts|
  {
    if |parts| == 0 then []
    else
      var t := Strip(parts[0]);
      StripClean(parts[0]);
      (if t != "" then [t] else []) + CleanPieces(parts[1..])
  }

  lemma StripClean(p: string)
    requires ',' !in p
    ensures Strip(p) != "" ==> Clean(Strip(p))
  {
    StripSlice(p);
    var t := Strip(p);
    var a := |p| - |StripLeft(p)|;
    forall i | 0 <= i < |t|
      ensures t[i] != ','
    {
      assert t[i] == p[a + i] && p[a + i] in p;
    }
    assert ',' !in t;
  }

  /** The location's comma-separated pieces, trimmed, empty ones dropped. */
  function Pieces(raw: string): seq<string> {
    CleanPieces(Split(raw, ','))
  }

  const IndexError: string := "IndexError: list index out of range"

  /** A two-letter alphabetic second piece reads as a US state. */
  predicate StateCode(p: string) {
    |p| == 2 && IsAlpha(p)
  }

  /** The pieces of the normalised form, from at least one clean piece. */
  function Shape(ps: seq<string>): (qs: seq<string>)
    requires |ps| >= 1 && forall p <- ps :: Clean(p)
    ensures 1 <= |qs| <= 3 && forall q <- qs :: Clean(q)
  {
    if |ps| == 1 then [ps[0]]
    else ShapeRegion(ps[0], ps[1], if |ps| == 2 then None else Some(ps[2]))
  }

  /** A city with a second piece, and a third when there is one: the second
      is upper-cased, a lone state code gets the country `US`, a third piece
      is upper-cased too. */
  function ShapeRegion(city: string, region: string, country: Option<string>): (qs: seq<string>)
    requires Clean(city) && Clean(region) && (country.Some? ==> Clean(country.value))
    ensures 2 <= |qs| <= 3 && forall q <- qs :: Clean(q)
  {
    UpperKeepsClean(region);
    match country
    case None =>
      if StateCode(region) then
        AllClean3(city, Upper(region), "US");
        [city, Upper(region), "US"]
      else [city, Upper(region)]
    case Some(c) =>
      UpperKeepsClean(c);
      AllClean3(city, Upper(region), Upper(c));
      [city, Upper(region), Upper(c)]
  }

  lemma UpperKeepsClean(p: string)
    requires Clean(p)
    ensures Clean(Upper(p))
  {
    UpperClean(p);
  }

  lemma AllClean3(a: string, b: string, c: string)
    requires Clean(a) && Clean(b) && Clean(c)
    ensures forall q <- [a, b, c] :: Clean(q)
  {
  }

  /** `normalize_city_for_openweather`: "" for "", the lone piece as is, a
      state code gets ",US" appended, the state and country are upper-cased
      and the city keeps its case; input with no non-empty piece raises,
      which the model reports as an error. */
  function NormalizeCity(raw: string): (r: Result<string>)
    ensures raw == "" ==> r == Ok("")
    ensures r.Err? <==> raw != "" && Pieces(raw) == []
    ensures r.Ok? && raw != "" ==>
      var ps, qs := Pieces(raw), Split(r.value, ',');
      && qs[0] == ps[0]
      && (|ps| == 1 ==> qs == ps)
      && (|ps| == 2 ==> qs == [ps[0], Upper(ps[1])] + (if StateCode(ps[1]) then ["US"] else []))
      && (|ps| >= 3 ==> qs == [ps[0], Upper(ps[1]), Upper(ps[2])])
  {
    if raw == "" then Ok("")
    else
      var ps := Pieces(raw);
      if |ps| == 0 then Err(IndexError)
      else
        var qs := Shape(ps);
        SplitJoin(qs, ',');
        Ok(Join(qs, ','))
  }

  lemma UpperClean(p: string)
    requires Clean(p)
    ensures Clean(Upper(p))
    ensures Upper(p) == Upper(Upper(p))
    ensures StateCode(Upper(p)) <==> StateCode(p)
  {
    var u := Upper(p);
    UpperNoComma(p);
    UpperCharKeeps(p[0]);
    UpperCharKeeps(p[|p| - 1]);
    StripNoop(u);
    UpperIdempotent(p);
    UpperAlpha(p);
  }

  lemma UpperNoComma(p: string)
    requires ',' !in p
    ensures ',' !in Upper(p)
  {
    forall i | 0 <= i < |p| ensures Upper(p)[i] != ',' {
      UpperCharKeeps(p[i]);
    }
  }

  lemma UpperAlpha(p: string)
    ensures IsAlpha(Upper(p)) <==> IsAlpha(p)
  {
    forall i | 0 <= i < |p| ensures IsLetter(Upper(p)[i]) <==> IsLetter(p[i]) {
      UpperCharKeeps(p[i]);
    }
  }

  lemma {:induction false} CleanPiecesOfClean(qs: seq<string>)
    requires forall q <- qs :: ',' !in q
    requires forall q <- qs :: Clean(q)
    ensures CleanPieces(qs) == qs
    decreases |qs|
  {
    if |qs| > 0 {
      CleanPiecesOfClean(qs[1..]);
      assert qs[0] in qs;
      StripNoop(qs[0]);
      assert [qs[0]] + qs[1..] == qs;
    }
  }

  /** The pieces of a join of clean pieces are those pieces. */
  lemma PiecesOfJoin(qs: seq<string>)
    requires |qs| >= 1 && forall q <- qs :: Clean(q)
    ensures Pieces(Join(qs, ',')) == qs
  {
    SplitJoin(qs, ',');
    CleanPiecesOfClean(qs);
  }

  /** A normalised piece list is its own shape. */
  lemma ShapeFixed(ps: seq<string>)
    requires |ps| >= 1 && forall p <- ps :: Clean(p)
    ensures Shape(Shape(ps)) == Shape(ps)
  {
    if |ps| >= 2 { UpperClean(ps[1]); }
    if |ps| >= 3 { UpperClean(ps[2]); }
    if |ps| == 2 && StateCode(ps[1]) {
      var qs := Shape(ps);
      assert qs == [ps[0], Upper(ps[1]), "US"];
      assert Upper("US") == "US";
      assert Shape(qs) == [qs[0], Upper(qs[1]), Upper(qs[2])];
    }
  }

  /** Normalising twice is normalising once: the normalised form is a fixed
      point. */
  lemma NormalizeCityIdempotent(raw: string)
    requires NormalizeCity(raw).Ok?
    ensures NormalizeCity(NormalizeCity(raw).value) == NormalizeCity(raw)
  {
    if raw != "" {
      var qs := Shape(Pieces(raw));
      var r := Join(qs, ',');
      assert NormalizeCity(raw) == Ok(r);
      PiecesOfJoin(qs);
      ShapeFixed(Pieces(raw));
      assert r != "" by {
        JoinSplit(r, ',');
        SplitJoin(qs, ',');
      }
    }
  }

  // ---------------------------------------------------------------------
  // the weather snapshot

  const SnapshotKeys: set<string> := {"city", "temp_c", "humidity", "conditions", "wind_mps"}

  /** The weather snapshot the application passes around. */
  type Snapshot = map<string, Value>

  /** `d.get(k, default)` on a JSON value; `.get` on anything but an object
      raises. */
  function ObjGet(d: Value, k: string, default: Value): Result<Value> {
    if d.Obj? then Ok(Get(d.fields, k, default)) else Err("AttributeError: no attribute 'get'")
  }

  /** `(v or [{}])[0]`: the first element of a truthy list, a one-character
      string for a truthy string, and an error for the other truthy values. */
  function FirstOr(v: Value): Result<Value> {
    if !Truthy(v) then Ok(Obj(map[]))
    else match v
      case Arr(items) => Ok(items[0])
      case Str(s) => Ok(Str([s[0]]))
      case Obj(_) => Err("KeyError: 0")
      case _ => Err("TypeError: object is not subscriptable")
  }

  /** `_normalize_weather`: the five snapshot keys, with the city falling back
      to `fallback` when the payload has no name; a payload whose nested
      parts are not objects raises. */
  function NormalizeWeather(data: Value, fallback: Value): (r: Result<Snapshot>)
    ensures r.Ok? <==>
      && data.Obj?
      && Get(data.fields, "main", Obj(map[])).Obj?
      && FirstOr(Get(data.fields, "weather", Null)).Ok?
      && FirstOr(Get(data.fields, "weather", Null)).value.Obj?
      && Get(data.fields, "wind", Obj(map[])).Obj?
    ensures r.Ok? ==> r.value.Keys == SnapshotKeys
    ensures r.Ok? ==> r.value["city"] == (if "name" in data.fields then data.fields["name"] else fallback)
    ensures r.Ok? ==> (data.Obj? && Get(data.fields, "main", Obj(map[])).Obj?
      && r.value["temp_c"] == Get(Get(data.fields, "main", Obj(map[])).fields, "temp", Null))
  {
    if !data.Obj? then Err("AttributeError: no attribute 'get'")
    else
      var city := Get(data.fields, "name", fallback);
      var main := Get(data.fields, "main", Obj(map[]));
      if !main.Obj? then Err("AttributeError: no attribute 'get'")
      else
        match FirstOr(Get(data.fields, "weather", Null))
        case Err(e) => Err(e)
        case Ok(first) =>
          if !first.Obj? then Err("AttributeError: no attribute 'get'")
          else
            var wind := Get(data.fields, "wind", Obj(map[]));
            if !wind.Obj? then Err("AttributeError: no attribute 'get'")
            else Ok(map[
              "city" := city,
              "temp_c" := Get(main.fields, "temp", Null),
              "humidity" := Get(main.fields, "humidity", Null),
              "conditions" := Get(first.fields, "description", Null),
              "wind_mps" := Get(wind.fields, "speed", Null)])
  }

  /** How one request of `get_weather_for_city` ends: a 2xx answer whose
      JSON body parsed, a status that `raise_for_status` rejects (which
      `_ok` turns into `False`), or an exception from `requests.get` or
      `.json()` (a timeout, a connection error, a body that is not JSON). */
  datatype HttpReply = Answered(body: Value) | BadStatus | RequestRaised

  /** The three requests `get_weather_for_city` may make. */
  datatype Service = Service(
    byName: string -> HttpReply,
    geocode: string -> HttpReply,
    byCoords: (Value, Value) -> HttpReply)

  function Swallow(r: Result<Snapshot>): Option<Snapshot> {
    if r.Ok? then Some(r.value) else None
  }

  /** The first geocoding result's latitude, longitude and display name
      (its truthy `name`, else the user's text); `None` when the result list
      is empty, when reading it raises, or when a coordinate is missing. */
  function GeoPlace(g: Value, city: string): (p: Option<(Value, Value, Value)>)
    ensures p.Some? ==> p.value.0 != Null && p.value.1 != Null
    ensures p.Some? ==> Truthy(g) && FirstOr(g).Ok? && FirstOr(g).value.Obj?
    ensures p.Some? ==> p.value.2 == (if Truthy(Get(FirstOr(g).value.fields, "name", Null))
                                      then Get(FirstOr(g).value.fields, "name", Null) else Str(city))
  {
    if !Truthy(g) then None
    else match FirstOr(g)
      case Err(_) => None
      case Ok(first) =>
        if !first.Obj? then None
        else
          var lat := Get(first.fields, "lat", Null);
          var lon := Get(first.fields, "lon", Null);
          var name := if Truthy(Get(first.fields, "name", Null)) then Get(first.fields, "name", Null) else Str(city);
          if lat == Null || lon == Null then None else Some((lat, lon, name))
  }

  /** The fallback: geocode `q`, then query by the coordinates found, naming
      the snapshot after the place. Any failed step gives `None`. */
  function Geocoded(q: string, city: string, service: Service): (r: Option<Snapshot>)
    ensures r.Some? ==> r.value.Keys == SnapshotKeys
    ensures !service.geocode(q).Answered? ==> r.None?
    ensures r.Some? <==>
      service.geocode(q).Answered? && GeoPlace(service.geocode(q).body, city).Some?
      && (var p := GeoPlace(service.geocode(q).body, city).value;
          service.byCoords(p.0, p.1).Answered? && NormalizeWeather(service.byCoords(p.0, p.1).body, p.2).Ok?)
    ensures r.Some? ==>
      var p := GeoPlace(service.geocode(q).body, city).value;
      r.value == NormalizeWeather(service.byCoords(p.0, p.1).body, p.2).value
  {
    match service.geocode(q)
    case Answered(g) =>
      (match GeoPlace(g, city)
       case None => None
       case Some(p) =>
         match service.byCoords(p.0, p.1)
         case Answered(data) => Swallow(NormalizeWeather(data, p.2))
         case _ => None)
    case _ => None
  }

  /** `get_weather_for_city`: `None` without a city or key; otherwise query by
      name, and only when that answers with a bad status fall back to
      geocoding. An exception anywhere, including the normaliser's and the
      by-name request's own, ends the lookup with `None`. */
  function WeatherForCity(city: string, key: string, service: Service): (r: Option<Snapshot>)
    ensures city == "" || key == "" ==> r.None?
    ensures city != "" && NormalizeCity(city).Err? ==> r.None?
    ensures r.Some? ==> r.value.Keys == SnapshotKeys
    ensures city != "" && key != "" && NormalizeCity(city).Ok? && service.byName(NormalizeCity(city).value).Answered? ==>
      r == Swallow(NormalizeWeather(service.byName(NormalizeCity(city).value).body, Str(city)))
    ensures city != "" && key != "" && NormalizeCity(city).Ok? && service.byName(NormalizeCity(city).value).RequestRaised? ==>
      r.None?
    ensures city != "" && key != "" && NormalizeCity(city).Ok? && service.byName(NormalizeCity(city).value).BadStatus? ==>
      r == Geocoded(NormalizeCity(city).value, city, service)
  {
    if city == "" || key == "" then None
    else match NormalizeCity(city)
      case Err(_) => None
      case Ok(q) =>
        match service.byName(q)
        case Answered(data) => Swallow(NormalizeWeather(data, Str(city)))
        case BadStatus => Geocoded(q, city, service)
        case RequestRaised => None
  }
}
