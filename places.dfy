/**
 * The post-processing of `search_places` in app/utils/DataScraper.py: the `TYPE_MAPPING`
 * lookup, the records built from the Overpass elements, and the final
 * `sorted(results, key=distance_km)[:limit]`.
 *
 * Geocoding and the Overpass request are not modelled: the geocoder's answer is the
 * parameter `located`, and the elements one filter query returns are `fetch(filter)`.
 * Each element carries the distance the code computes for it (the Haversine distance to
 * the located point, rounded to two decimals), and `show` is Python's `str` of a float.
 */
module Places {
  import opened Wrappers
  import opened Text

  /** One `{"key": ..., "value": ...}` entry of `TYPE_MAPPING`. */
  datatype OsmFilter = OsmFilter(key: string, value: string)

  const TypeMapping: map<string, seq<OsmFilter>> := map[
    "restaurant" := [OsmFilter("amenity", "restaurant"), OsmFilter("amenity", "fast_food"), OsmFilter("amenity", "cafe")],
    "cafe" := [OsmFilter("amenity", "cafe"), OsmFilter("amenity", "coffee_shop")],
    "bar" := [OsmFilter("amenity", "bar"), OsmFilter("amenity", "pub")],
    "hotel" := [OsmFilter("tourism", "hotel"), OsmFilter("tourism", "guest_house"), OsmFilter("tourism", "motel"),
                OsmFilter("tourism", "hostel")],
    "pg" := [OsmFilter("tourism", "guest_house"), OsmFilter("amenity", "guest_house")],
    "hostel" := [OsmFilter("tourism", "hostel")],
    "pharmacy" := [OsmFilter("amenity", "pharmacy")],
    "hospital" := [OsmFilter("amenity", "hospital"), OsmFilter("amenity", "clinic")],
    "school" := [OsmFilter("amenity", "school")],
    "college" := [OsmFilter("amenity", "college")],
    "university" := [OsmFilter("amenity", "university")],
    "bank" := [OsmFilter("amenity", "bank")],
    "atm" := [OsmFilter("amenity", "atm")],
    "supermarket" := [OsmFilter("shop", "supermarket"), OsmFilter("shop", "hypermarket")],
    "grocery" := [OsmFilter("shop", "convenience"), OsmFilter("shop", "general_store")],
    "mall" := [OsmFilter("shop", "mall"), OsmFilter("shop", "department_store")],
    "gym" := [OsmFilter("leisure", "fitness_centre"), OsmFilter("sport", "fitness")]
  ]

  /** `TYPE_MAPPING.get(type.lower())`, and the 400 when that is missing or empty. */
  function LookupType(placeType: string): (r: Result<seq<OsmFilter>, HttpError>)
    ensures r.Ok? <==> Lower(placeType) in TypeMapping && TypeMapping[Lower(placeType)] != []
    ensures r.Ok? ==> r.value == TypeMapping[Lower(placeType)]
    ensures r.Err? ==> r.error == HttpError(400, "Unsupported type: " + placeType)
  {
    var key := Lower(placeType);
    if key in TypeMapping && TypeMapping[key] != [] then Ok(TypeMapping[key])
    else Err(HttpError(400, "Unsupported type: " + placeType))
  }

  /** An Overpass element: its tags, if any, its position and its distance in km. */
  datatype Element = Element(tags: Option<map<string, string>>, lat: real, lon: real, distanceKm: real)

  /** One entry of `results`. */
  datatype Place = Place(
    name: string,
    address: Option<string>,
    latitude: real,
    longitude: real,
    osmLink: string,
    ward: string,
    city: string,
    state: string,
    country: string,
    placeType: string,
    distanceKm: real)

  /** `tags.get(key)`. */
  function Get(tags: map<string, string>, key: string): Option<string> {
    if key in tags then Some(tags[key]) else None
  }

  /** `tags.get(key) or default`: the default for a missing or empty tag. */
  function TagOr(tags: map<string, string>, key: string, default: string): (r: string)
    ensures key in tags && tags[key] != "" ==> r == tags[key]
    ensures key !in tags || tags[key] == "" ==> r == default
  {
    if key in tags && tags[key] != "" then tags[key] else default
  }

  /** `tags.get("addr:full") or tags.get("addr:street")`. */
  function Address(tags: map<string, string>): Option<string> {
    if "addr:full" in tags && tags["addr:full"] != "" then Some(tags["addr:full"]) else Get(tags, "addr:street")
  }

  /** The record an element gives, or `None` where the loop `continue`s. */
  function PlaceOf(e: Element, placeType: string, show: real -> string): (r: Option<Place>)
    ensures r.None? <==> e.tags.None? || "name" !in e.tags.value || e.tags.value["name"] == ""
  {
    match e.tags
    case None => None
    case Some(tags) =>
      if "name" !in tags || tags["name"] == "" then None
      else Some(Place(
        tags["name"],
        Address(tags),
        e.lat,
        e.lon,
        "https://www.openstreetmap.org/?mlat=" + show(e.lat) + "&mlon=" + show(e.lon) + "&zoom=18",
        TagOr(tags, "addr:suburb", ""),
        TagOr(tags, "addr:city", "Kolkata"),
        TagOr(tags, "addr:state", "West Bengal"),
        TagOr(tags, "addr:country", "India"),
        placeType,
        e.distanceKm))
  }

  /** The records the elements of one query give, in element order. */
  function PlacesOf(elements: seq<Element>, placeType: string, show: real -> string): seq<Place> {
    if elements == [] then []
    else
      var last := elements[|elements| - 1];
      var rest := PlacesOf(elements[..|elements| - 1], placeType, show);
      match PlaceOf(last, placeType, show)
      case None => rest
      case Some(p) => rest + [p]
  }

  /** `results` after the loop over all filters, before sorting. */
  function Collect(filters: seq<OsmFilter>, fetch: OsmFilter -> seq<Element>, placeType: string, show: real -> string): seq<Place> {
    if filters == [] then []
    else
      Collect(filters[..|filters| - 1], fetch, placeType, show)
      + PlacesOf(fetch(filters[|filters| - 1]), placeType, show)
  }

  /** The nested loops of `search_places` that append to `results`. */
  method CollectPlaces(filters: seq<OsmFilter>, fetch: OsmFilter -> seq<Element>, placeType: string, show: real -> string)
    returns (results: seq<Place>)
    ensures results == Collect(filters, fetch, placeType, show)
  {
    results := [];
    for f := 0 to |filters|
      invariant results == Collect(filters[..f], fetch, placeType, show)
    {
      var elements := fetch(filters[f]);
      ghost var before := results;
      for i := 0 to |elements|
        invariant results == before + PlacesOf(elements[..i], placeType, show)
      {
        assert elements[..i + 1][..i] == elements[..i];
        match PlaceOf(elements[i], placeType, show)
        case None =>
        case Some(p) =>
          results := results + [p];
      }
      assert elements[..|elements|] == elements;
      assert filters[..f + 1][..f] == filters[..f];
    }
    assert filters[..|filters|] == filters;
  }

  /** Every record comes from an element with a non-empty name and carries the requested type. */
  lemma {:induction false} PlacesNamed(elements: seq<Element>, placeType: string, show: real -> string)
    ensures forall p | p in PlacesOf(elements, placeType, show) ::
      p.name != "" && p.placeType == placeType && p.city != "" && p.state != "" && p.country != ""
  {
    if elements != [] {
      PlacesNamed(elements[..|elements| - 1], placeType, show);
    }
  }

  lemma {:induction false} CollectNamed(filters: seq<OsmFilter>, fetch: OsmFilter -> seq<Element>, placeType: string, show: real -> string)
    ensures forall p | p in Collect(filters, fetch, placeType, show) ::
      p.name != "" && p.placeType == placeType && p.city != "" && p.state != "" && p.country != ""
  {
    if filters != [] {
      CollectNamed(filters[..|filters| - 1], fetch, placeType, show);
      PlacesNamed(fetch(filters[|filters| - 1]), placeType, show);
    }
  }

  /** Elements without tags or without a name give no record at all. */
  lemma {:induction false} UnnamedDropped(elements: seq<Element>, placeType: string, show: real -> string)
    requires forall i :: 0 <= i < |elements| ==> PlaceOf(elements[i], placeType, show).None?
    ensures PlacesOf(elements, placeType, show) == []
  {
    if elements != [] {
      UnnamedDropped(elements[..|elements| - 1], placeType, show);
    }
  }

  /** The address tags a record reads, with Kolkata, West Bengal, India and `""` as defaults. */
  lemma AddressDefaults(e: Element, placeType: string, show: real -> string)
    requires PlaceOf(e, placeType, show).Some?
    ensures var p, tags := PlaceOf(e, placeType, show).value, e.tags.value;
      && p.name == tags["name"] && p.placeType == placeType && p.distanceKm == e.distanceKm
      && ("addr:city" !in tags || tags["addr:city"] == "" ==> p.city == "Kolkata")
      && ("addr:state" !in tags || tags["addr:state"] == "" ==> p.state == "West Bengal")
      && ("addr:country" !in tags || tags["addr:country"] == "" ==> p.country == "India")
      && ("addr:suburb" !in tags || tags["addr:suburb"] == "" ==> p.ward == "")
  {
  }

  /** Non-decreasing `distance_km`. */
  predicate SortedByDistance(s: seq<Place>) {
    forall i, j :: 0 <= i < j < |s| ==> s[i].distanceKm <= s[j].distanceKm
  }

  /** Puts `p` before the first record that is not nearer than it. */
  function Insert(p: Place, s: seq<Place>): seq<Place> {
    if s == [] || p.distanceKm <= s[0].distanceKm then [p] + s else [s[0]] + Insert(p, s[1..])
  }

  /** `sorted(results, key=lambda x: x["distance_km"])`, a stable sort. */
  function SortByDistance(s: seq<Place>): seq<Place> {
    if s == [] then [] else Insert(s[0], SortByDistance(s[1..]))
  }

  /** The records at distance `d`, in their order. */
  function AtDistance(s: seq<Place>, d: real): seq<Place> {
    if s == [] then []
    else if s[0].distanceKm == d then [s[0]] + AtDistance(s[1..], d)
    else AtDistance(s[1..], d)
  }

  lemma {:induction false} InsertPermutes(p: Place, s: seq<Place>)
    ensures multiset(Insert(p, s)) == multiset(s) + multiset{p}
  {
    if s != [] && p.distanceKm > s[0].distanceKm {
      InsertPermutes(p, s[1..]);
      assert s == [s[0]] + s[1..];
    }
  }

  /** The first record after an insertion is the inserted one or the old first one. */
  lemma InsertHead(p: Place, s: seq<Place>)
    ensures Insert(p, s) != []
    ensures Insert(p, s)[0] == p || (s != [] && Insert(p, s)[0] == s[0])
  {
  }

  lemma {:induction false} InsertSorted(p: Place, s: seq<Place>)
    requires SortedByDistance(s)
    ensures SortedByDistance(Insert(p, s))
  {
    if s != [] && p.distanceKm > s[0].distanceKm {
      var tail := s[1..];
      InsertSorted(p, tail);
      InsertHead(p, tail);
      var t := Insert(p, tail);
      assert tail != [] ==> s[0].distanceKm <= tail[0].distanceKm;
      assert s[0].distanceKm <= t[0].distanceKm;
      var r := [s[0]] + t;
      forall i, j | 0 <= i < j < |r| ensures r[i].distanceKm <= r[j].distanceKm {
        if i == 0 {
          assert j - 1 > 0 ==> t[0].distanceKm <= t[j - 1].distanceKm;
        } else {
          assert r[i] == t[i - 1] && r[j] == t[j - 1];
        }
      }
    }
  }

  /** The result is sorted by distance and holds the same records as the input. */
  lemma {:induction false} SortSortedPermutation(s: seq<Place>)
    ensures SortedByDistance(SortByDistance(s))
    ensures multiset(SortByDistance(s)) == multiset(s)
  {
    if s != [] {
      SortSortedPermutation(s[1..]);
      InsertSorted(s[0], SortByDistance(s[1..]));
      InsertPermutes(s[0], SortByDistance(s[1..]));
      assert s == [s[0]] + s[1..];
    }
  }

  /** Inserting `p` puts it in front of the records at its own distance. */
  lemma {:induction false} InsertStable(p: Place, s: seq<Place>, d: real)
    ensures AtDistance(Insert(p, s), d) == if p.distanceKm == d then [p] + AtDistance(s, d) else AtDistance(s, d)
  {
    if s != [] && p.distanceKm > s[0].distanceKm {
      InsertStable(p, s[1..], d);
    }
  }

  /** Stability: the records at any one distance keep their input order. */
  lemma {:induction false} SortStable(s: seq<Place>, d: real)
    ensures AtDistance(SortByDistance(s), d) == AtDistance(s, d)
  {
    if s != [] {
      SortStable(s[1..], d);
      InsertStable(s[0], SortByDistance(s[1..]), d);
    }
  }

  /** Python's `s[:limit]`, where a negative `limit` drops that many records from the end. */
  function Limit(s: seq<Place>, limit: int): (r: seq<Place>)
    ensures limit >= 0 ==> |r| == if limit < |s| then limit else |s|
    ensures limit < 0 ==> |r| == if |s| + limit > 0 then |s| + limit else 0
    ensures r == s[..|r|]
  {
    var n := if limit >= 0 then limit else |s| + limit;
    if n <= 0 then [] else if n < |s| then s[..n] else s
  }

  /** A prefix of a sorted list is sorted. */
  lemma LimitSorted(s: seq<Place>, limit: int)
    requires SortedByDistance(s)
    ensures SortedByDistance(Limit(s, limit))
  {
    var r := Limit(s, limit);
    forall i, j | 0 <= i < j < |r| ensures r[i].distanceKm <= r[j].distanceKm {
      assert r[i] == s[i] && r[j] == s[j];
    }
  }

  /** What `search_places` returns. */
  datatype Response = Response(query: string, types: seq<string>, radius: int, results: seq<Place>)

  /** The geocoded point `(lat, lon)`. */
  datatype Point = Point(lat: real, lon: real)

  /**
   * `search_places(location, type, radius, limit)`: a 404 when the location is not found,
   * a 400 for an unsupported type, else the nearest `limit` records of all filter queries.
   */
  method SearchPlaces(location: string, placeType: string, radius: int, limit: int,
                      located: Option<Point>, fetch: OsmFilter -> seq<Element>, show: real -> string)
    returns (r: Result<Response, HttpError>)
    ensures located.None? ==> r == Err(HttpError(404, "Location not found"))
    ensures located.Some? && LookupType(placeType).Err? ==> r == Err(LookupType(placeType).error)
    ensures located.Some? && LookupType(placeType).Ok? ==>
      && r.Ok? && r.value.query == location && r.value.types == [placeType] && r.value.radius == radius
      && r.value.results == Limit(SortByDistance(Collect(LookupType(placeType).value, fetch, placeType, show)), limit)
  {
    if located.None? {
      return Err(HttpError(404, "Location not found"));
    }
    var info := LookupType(placeType);
    if info.Err? {
      return Err(info.error);
    }
    var results := CollectPlaces(info.value, fetch, placeType, show);
    r := Ok(Response(location, [placeType], radius, Limit(SortByDistance(results), limit)));
  }

  /**
   * For `limit >= 0` the response holds at most `limit` records, nearest first, each named
   * and of the requested type.
   */
  lemma SearchResults(filters: seq<OsmFilter>, fetch: OsmFilter -> seq<Element>, placeType: string, show: real -> string, limit: int)
    requires limit >= 0
    ensures var r := Limit(SortByDistance(Collect(filters, fetch, placeType, show)), limit);
      && |r| <= limit && SortedByDistance(r)
      && forall p | p in r :: p.name != "" && p.placeType == placeType
  {
    var all := Collect(filters, fetch, placeType, show);
    var sorted := SortByDistance(all);
    SortSortedPermutation(all);
    LimitSorted(sorted, limit);
    CollectNamed(filters, fetch, placeType, show);
    var r := Limit(sorted, limit);
    forall p | p in r ensures p in all {
      assert p in multiset(sorted);
    }
  }

  /** Case does not matter to the lookup. */
  lemma LookupIgnoresCase()
    ensures LookupType("Gym") == Ok([OsmFilter("leisure", "fitness_centre"), OsmFilter("sport", "fitness")])
    ensures LookupType("PG") == LookupType("pg")
  {
    assert Lower("Gym") == "gym";
    assert Lower("PG") == "pg" == Lower("pg");
  }

  /** An unknown type is a 400 that names the type as given. */
  lemma LookupUnknown()
    ensures LookupType("Spa") == Err(HttpError(400, "Unsupported type: Spa"))
  {
    assert Lower("Spa") == "spa";
    assert "spa" !in TypeMapping;
    assert "Unsupported type: " + "Spa" == "Unsupported type: Spa";
  }
}
