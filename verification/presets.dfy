/** Regional plant presets (app/utils/presets.py): a climate region inferred
    from latitude bands or from city keywords, and the curated plant list of
    each region. */
module Presets {
  import opened Common
  import opened Text

  /** One curated suggestion. */
  datatype Preset = Preset(plant: string, why: string, starterCare: string)

  const Tropical: string := "tropical"
  const Warm: string := "warm"
  const Temperate: string := "temperate"
  const Cool: string := "cool"

  /** `PRESET_LIBRARY`. */
  const Library: map<string, seq<Preset>> := map[
    Tropical := [
      Preset("Monstera deliciosa", "Native-like humidity & warmth", "Bright-indirect light; water when top 2–3 cm dry."),
      Preset("Pothos (Epipremnum)", "Tolerant, thrives with warmth", "Low-to-medium light; water when top 3–4 cm dry."),
      Preset("Areca palm", "Enjoys warm humid air", "Bright-indirect; keep evenly moist; avoid cold drafts.")],
    Warm := [
      Preset("Snake plant (Sansevieria)", "Handles heat & dry spells", "Bright-to-medium light; let soil dry deeply."),
      Preset("Aloe vera", "Loves heat & sun", "Full sun; water sparingly; very fast-draining mix."),
      Preset("ZZ plant (Zamioculcas)", "Forgiving in AC/heat", "Low-to-medium light; water after soil fully dries.")],
    Temperate := [
      Preset("Spider plant", "Adaptable household temps", "Bright-indirect; keep slightly moist; good drainage."),
      Preset("Peace lily (Spathiphyllum)", "Blooming indoors, average temps", "Medium light; water when leaves soften slightly."),
      Preset("Philodendron hederaceum", "Tolerant & fast growing", "Medium-bright indirect; water when top inch dry.")],
    Cool := [
      Preset("Chinese evergreen (Aglaonema)", "Tolerant of cooler rooms", "Medium light; avoid overwatering; warm corners if possible."),
      Preset("Cast iron plant (Aspidistra)", "Handles low temps & neglect", "Low-to-medium light; water sparingly."),
      Preset("Hoya carnosa", "Okay with cooler nights", "Bright-indirect; let soil dry between waterings.")]
  ]

  lemma LibraryRegions()
    ensures Library.Keys == {Tropical, Warm, Temperate, Cool}
  {
  }

  function Abs(x: real): real {
    if x < 0.0 then -x else x
  }

  /** `infer_region_from_latlon`: bands on the absolute latitude with strict
      upper bounds 23.5, 35 and 45. */
  function RegionFromLatLon(lat: real, lon: real): (r: string)
    ensures r in Library
    ensures r == Tropical <==> Abs(lat) < 23.5
    ensures r == Warm <==> 23.5 <= Abs(lat) < 35.0
    ensures r == Temperate <==> 35.0 <= Abs(lat) < 45.0
    ensures r == Cool <==> 45.0 <= Abs(lat)
  {
    var a := Abs(lat);
    if a < 23.5 then Tropical
    else if a < 35.0 then Warm
    else if a < 45.0 then Temperate
    else Cool
  }

  /** Only the distance from the equator matters: longitude and hemisphere are
      ignored. */
  lemma RegionFromLatLonSymmetric(lat: real, lon: real, otherLon: real)
    ensures RegionFromLatLon(-lat, otherLon) == RegionFromLatLon(lat, lon)
  {
  }

  const TropicalCities: seq<string> := ["miami", "honolulu", "hilo", "key west"]
  const WarmCities: seq<string> := ["los angeles", "san diego", "phoenix", "austin", "las vegas", "orlando", "tampa"]
  const TemperateCities: seq<string> := ["seattle", "portland", "denver", "kansas city", "st louis", "chicago", "new york", "boston"]
  const CoolCities: seq<string> := ["minneapolis", "anchorage", "calgary", "winnipeg"]

  /** `any(k in c for k in keywords)`. */
  predicate MentionsAny(c: string, keywords: seq<string>) {
    exists i :: 0 <= i < |keywords| && Contains(c, keywords[i])
  }

  /** `infer_region_from_city`: keyword matching on the lower-cased city with
      priority tropical, warm, temperate, cool, and "temperate" when nothing
      matches or no city is given. */
  function RegionFromCity(city: Option<string>): (r: string)
    ensures r in Library
    ensures !Filled(city) ==> r == Temperate
    ensures Filled(city) ==>
      var c := Lower(city.value);
      && (r == Tropical <==> MentionsAny(c, TropicalCities))
      && (r == Warm <==> !MentionsAny(c, TropicalCities) && MentionsAny(c, WarmCities))
      && (r == Cool <==> !MentionsAny(c, TropicalCities) && !MentionsAny(c, WarmCities)
                         && !MentionsAny(c, TemperateCities) && MentionsAny(c, CoolCities))
  {
    if !Filled(city) then Temperate
    else
      var c := Lower(city.value);
      if MentionsAny(c, TropicalCities) then Tropical
      else if MentionsAny(c, WarmCities) then Warm
      else if MentionsAny(c, TemperateCities) then Temperate
      else if MentionsAny(c, CoolCities) then Cool
      else Temperate
  }

  /** City matching ignores case. */
  lemma RegionFromCityIgnoresCase(city: string)
    ensures RegionFromCity(Some(Lower(city))) == RegionFromCity(Some(city))
  {
    LowerIdempotent(city);
  }

  /** A keyword anywhere in the city name decides, e.g. "Miami Beach" is
      tropical whatever else it mentions. */
  lemma TropicalKeywordWins(city: string, i: nat)
    requires i < |TropicalCities| && Contains(Lower(city), TropicalCities[i])
    ensures RegionFromCity(Some(city)) == Tropical
  {
  }

  /** `region_presets`: the region's list, the temperate list for an unknown
      region; never empty. */
  function RegionPresets(region: string): (r: seq<Preset>)
    ensures region in Library ==> r == Library[region]
    ensures region !in Library ==> r == Library[Temperate]
    ensures |r| == 3
  {
    if region in Library then Library[region] else Library[Temperate]
  }

  /** Every inferred region has its own list. */
  lemma InferredRegionsHavePresets(lat: real, lon: real, city: Option<string>)
    ensures RegionPresets(RegionFromLatLon(lat, lon)) == Library[RegionFromLatLon(lat, lon)]
    ensures RegionPresets(RegionFromCity(city)) == Library[RegionFromCity(city)]
  {
  }
}

/** The `/presets` JSON endpoint (app/routes/api.py): the region comes from
    latitude when both coordinates are given, else from the city, else it is
    "temperate". */
module PresetsApi {
  import opened Common
  import opened Presets

  datatype Payload = Payload(region: string, items: seq<Preset>)

  /** `presets_api`; a query argument that does not parse as a float arrives
      as `None`. */
  function PresetsFor(lat: Option<real>, lon: Option<real>, city: Option<string>): (r: Payload)
    ensures lat.Some? && lon.Some? ==> r.region == RegionFromLatLon(lat.value, lon.value)
    ensures !(lat.Some? && lon.Some?) && Filled(city) ==> r.region == RegionFromCity(city)
    ensures !(lat.Some? && lon.Some?) && !Filled(city) ==> r.region == Temperate
    ensures r.region in Library && r.items == Library[r.region]
  {
    var region :=
      if lat.Some? && lon.Some? then RegionFromLatLon(lat.value, lon.value)
      else if Filled(city) then RegionFromCity(city)
      else Temperate;
    Payload(region, RegionPresets(region))
  }

  /** With both coordinates the city is never consulted. */
  lemma CoordinatesOverrideCity(lat: real, lon: real, city: Option<string>, otherCity: Option<string>)
    ensures PresetsFor(Some(lat), Some(lon), city) == PresetsFor(Some(lat), Some(lon), otherCity)
  {
  }

  /** A single coordinate counts for nothing: the city decides. */
  lemma LoneCoordinateIgnored(lat: Option<real>, city: Option<string>)
    ensures PresetsFor(lat, None, city) == PresetsFor(None, None, city)
  {
  }
}
