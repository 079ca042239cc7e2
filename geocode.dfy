/**
 * The decisions of rq_geo_toolkit/geocode.py: which geocoding result is
 * taken (`_get_first_polygon`) and when a query counts as not geocoded
 * (`geocode_to_geometry`). The geocoding service is a parameter mapping a
 * query to its results; the cache file and the geometry union are not part
 * of this model.
 */
module Geocode {
  import opened Wrappers

  /** A geojson dictionary: its "type" entry, and the rest of it, opaque here. */
  datatype GeoJson = GeoJson(geometryType: string, rest: string)

  /** One service result: `raw["importance"]` and `raw["geojson"]`. */
  datatype Location = Location(importance: real, geojson: GeoJson)

  /** The two `QueryNotGeocodedError`s. */
  datatype GeocodeError = ZeroResults(query: string) | NoPolygon(query: string)

  /** A query: one text, or a list of texts whose geometries are unioned. */
  datatype Query = Text(text: string) | Texts(texts: seq<string>)

  predicate IsPolygonType(t: string)
  {
    t == "Polygon" || t == "MultiPolygon"
  }

  predicate IsPolygonal(l: Location)
  {
    IsPolygonType(l.geojson.geometryType)
  }

  ghost predicate NoPolygonal(xs: seq<Location>)
  {
    forall i :: 0 <= i < |xs| ==> !IsPolygonal(xs[i])
  }

  ghost predicate SortedDesc(xs: seq<Location>)
  {
    forall i, j :: 0 <= i < j < |xs| ==> xs[i].importance >= xs[j].importance
  }

  // ---------------------------------------------------------------------
  // sorted(results, key=importance, reverse=True): a stable sort, so equally
  // important results keep their order.

  /** Inserts `x` before the first element it is at least as important as. */
  function Insert(x: Location, ys: seq<Location>): (r: seq<Location>)
    ensures multiset(r) == multiset(ys) + multiset{x}
  {
    if ys == [] || x.importance >= ys[0].importance then [x] + ys
    else
      assert ys == [ys[0]] + ys[1..];
      [ys[0]] + Insert(x, ys[1..])
  }

  ghost predicate AllAtMost(v: real, xs: seq<Location>)
  {
    forall i :: 0 <= i < |xs| ==> xs[i].importance <= v
  }

  lemma {:induction false} InsertAtMost(v: real, x: Location, ys: seq<Location>)
    requires AllAtMost(v, ys) && x.importance <= v
    ensures AllAtMost(v, Insert(x, ys))
  {
    if ys != [] && x.importance < ys[0].importance {
      InsertAtMost(v, x, ys[1..]);
    }
  }

  /** Insertion keeps a list sorted. */
  lemma {:induction false} InsertSorted(x: Location, ys: seq<Location>)
    requires SortedDesc(ys)
    ensures SortedDesc(Insert(x, ys))
  {
    if ys != [] && x.importance < ys[0].importance {
      InsertSorted(x, ys[1..]);
      InsertAtMost(ys[0].importance, x, ys[1..]);
    }
  }

  /** The results by descending importance, ties in their original order. */
  function SortByImportance(xs: seq<Location>): (r: seq<Location>)
    ensures multiset(r) == multiset(xs)
    ensures SortedDesc(r)
  {
    if xs == [] then []
    else
      assert xs == [xs[0]] + xs[1..];
      InsertSorted(xs[0], SortByImportance(xs[1..]));
      Insert(xs[0], SortByImportance(xs[1..]))
  }

  /** The loop with early return: the first polygonal element. */
  function FirstPolygonal(xs: seq<Location>): (r: Option<Location>)
    ensures r.Some? ==> r.value in xs && IsPolygonal(r.value)
    ensures r.None? <==> NoPolygonal(xs)
    // the first one: every element before it is not polygonal
    ensures r.Some? ==> exists i :: 0 <= i < |xs| && xs[i] == r.value && NoPolygonal(xs[..i])
  {
    if xs == [] then None
    else if IsPolygonal(xs[0]) then
      assert NoPolygonal(xs[..0]);
      Some(xs[0])
    else
      var r := FirstPolygonal(xs[1..]);
      assert r.Some? ==> exists i :: 0 <= i < |xs| && xs[i] == r.value && NoPolygonal(xs[..i]) by {
        if r.Some? {
          var i :| 0 <= i < |xs[1..]| && xs[1..][i] == r.value && NoPolygonal(xs[1..][..i]);
          assert xs[..i + 1] == [xs[0]] + xs[1..][..i];
          assert xs[i + 1] == r.value && NoPolygonal(xs[..i + 1]);
        }
      }
      assert NoPolygonal(xs) <==> NoPolygonal(xs[1..]) by {
        if NoPolygonal(xs[1..]) {
          forall i | 0 <= i < |xs| ensures !IsPolygonal(xs[i]) {
            if i > 0 { assert xs[i] == xs[1..][i - 1]; }
          }
        }
      }
      r
  }

  /** `_get_first_polygon`: the geojson of the first polygonal result in sorted order. */
  function GetFirstPolygon(results: seq<Location>): Option<GeoJson>
  {
    match FirstPolygonal(SortByImportance(results))
    case None => None
    case Some(l) => Some(l.geojson)
  }

  // ---------------------------------------------------------------------
  // The reference: the most important polygonal result, the earliest one on ties.

  /** Index of the earliest polygonal result of greatest importance, if any. */
  function BestIndex(xs: seq<Location>): (r: Option<nat>)
    ensures r.Some? ==> r.value < |xs| && IsPolygonal(xs[r.value])
  {
    if xs == [] then None
    else
      var b := BestIndex(xs[1..]);
      if IsPolygonal(xs[0]) && (b.None? || xs[0].importance >= xs[1..][b.value].importance) then Some(0)
      else if b.Some? then Some(b.value + 1)
      else None
  }

  ghost predicate IsFirstMostImportant(xs: seq<Location>, i: nat)
  {
    && i < |xs|
    && IsPolygonal(xs[i])
    && (forall j :: 0 <= j < |xs| && IsPolygonal(xs[j]) ==> xs[j].importance <= xs[i].importance)
    && (forall j :: 0 <= j < i && IsPolygonal(xs[j]) ==> xs[j].importance < xs[i].importance)
  }

  /** `BestIndex` finds nothing exactly when no result is polygonal, and otherwise the first most important one. */
  lemma {:induction false} BestIndexCorrect(xs: seq<Location>)
    ensures BestIndex(xs).None? <==> NoPolygonal(xs)
    ensures BestIndex(xs).Some? ==> IsFirstMostImportant(xs, BestIndex(xs).value)
  {
    if xs != [] {
      var tail := xs[1..];
      BestIndexCorrect(tail);
      forall j | 1 <= j < |xs| ensures xs[j] == tail[j - 1] { }
      var b := BestIndex(tail);
      if BestIndex(xs).None? {
        forall j | 0 <= j < |xs| ensures !IsPolygonal(xs[j]) {
          if j > 0 { assert tail[j - 1] == xs[j]; }
        }
      }
      if BestIndex(xs) == Some(0) && b.Some? {
        assert IsFirstMostImportant(tail, b.value);
      }
    }
  }

  /** The first polygonal result of a sorted list, after inserting one more result. */
  lemma {:induction false} FirstPolygonalInsert(x: Location, ys: seq<Location>)
    requires SortedDesc(ys)
    ensures FirstPolygonal(Insert(x, ys)) ==
      if IsPolygonal(x) && (FirstPolygonal(ys).None? || x.importance >= FirstPolygonal(ys).value.importance)
      then Some(x) else FirstPolygonal(ys)
  {
    if ys != [] && x.importance < ys[0].importance {
      var tail := ys[1..];
      assert Insert(x, ys) == [ys[0]] + Insert(x, tail);
      assert ([ys[0]] + Insert(x, tail))[1..] == Insert(x, tail);
      if !IsPolygonal(ys[0]) {
        assert SortedDesc(tail);
        FirstPolygonalInsert(x, tail);
      }
    } else if ys != [] && FirstPolygonal(ys).Some? {
      var l := FirstPolygonal(ys).value;
      var k :| 0 <= k < |ys| && ys[k] == l;
      assert l.importance <= ys[0].importance;
      assert ([x] + ys)[1..] == ys;
    } else {
      assert ([x] + ys)[1..] == ys;
    }
  }

  /** Sorting and then scanning picks the result `BestIndex` names. */
  lemma {:induction false} FirstPolygonalSorted(xs: seq<Location>)
    ensures FirstPolygonal(SortByImportance(xs)) ==
      match BestIndex(xs) case None => None case Some(i) => Some(xs[i])
  {
    if xs != [] {
      FirstPolygonalSorted(xs[1..]);
      FirstPolygonalInsert(xs[0], SortByImportance(xs[1..]));
    }
  }

  /**
   * `_get_first_polygon` returns None exactly when no result is a Polygon or
   * MultiPolygon; otherwise the geojson of the polygonal result of greatest
   * importance, the earliest listed among equally important ones.
   */
  lemma GetFirstPolygonCorrect(results: seq<Location>)
    ensures GetFirstPolygon(results).None? <==> NoPolygonal(results)
    ensures GetFirstPolygon(results).Some? ==>
      && BestIndex(results).Some?
      && IsFirstMostImportant(results, BestIndex(results).value)
      && GetFirstPolygon(results).value == results[BestIndex(results).value].geojson
      && IsPolygonType(GetFirstPolygon(results).value.geometryType)
  {
    FirstPolygonalSorted(results);
    BestIndexCorrect(results);
  }

  // ---------------------------------------------------------------------
  // geocode_to_geometry

  /**
   * One text query, given the service's results: no results, or no polygonal
   * result, is an error; otherwise the chosen polygon.
   */
  function GeocodeText(query: string, results: seq<Location>): (r: Result<GeoJson, GeocodeError>)
    ensures r == Err(ZeroResults(query)) <==> results == []
    ensures results != [] ==> (r == Err(NoPolygon(query)) <==> NoPolygonal(results))
    // otherwise the geojson of the first most important polygonal result
    ensures results != [] && !NoPolygonal(results) ==>
      BestIndex(results).Some? && r == Ok(results[BestIndex(results).value].geojson)
    ensures r.Ok? ==> IsPolygonType(r.value.geometryType)
  {
    if results == [] then Err(ZeroResults(query))
    else
      GetFirstPolygonCorrect(results);
      match GetFirstPolygon(results)
      case None => Err(NoPolygon(query))
      case Some(polygon) => Ok(polygon)
  }

  /** The list comprehension: each text in order; the first error stops the rest. */
  function GeocodeEach(queries: seq<string>, decide: string -> Result<GeoJson, GeocodeError>)
    : Result<seq<GeoJson>, GeocodeError>
  {
    if queries == [] then Ok([])
    else
      match decide(queries[0])
      case Err(e) => Err(e)
      case Ok(g) =>
        match GeocodeEach(queries[1..], decide)
        case Err(e) => Err(e)
        case Ok(gs) => Ok([g] + gs)
  }

  /** Each text of a list query is decided from the service's results for it. */
  function GeocodeTexts(queries: seq<string>, service: string -> seq<Location>): Result<seq<GeoJson>, GeocodeError>
  {
    GeocodeEach(queries, q => GeocodeText(q, service(q)))
  }

  /** The polygons whose union is the geometry of `query`, or the error raised. */
  function GeocodeToGeometry(query: Query, service: string -> seq<Location>): (r: Result<seq<GeoJson>, GeocodeError>)
    ensures query.Text? ==> (r.Ok? <==> GeocodeText(query.text, service(query.text)).Ok?)
    ensures query.Text? && r.Ok? ==> r.value == [GeocodeText(query.text, service(query.text)).value]
    ensures query.Text? && r.Err? ==> r.error == GeocodeText(query.text, service(query.text)).error
    // a list query is its texts in order (see GeocodeEachOk and GeocodeEachErr)
    ensures query.Texts? ==> r == GeocodeTexts(query.texts, service)
  {
    match query
    case Text(q) =>
      (match GeocodeText(q, service(q))
       case Err(e) => Err(e)
       case Ok(g) => Ok([g]))
    case Texts(qs) => GeocodeTexts(qs, service)
  }

  /** A list query succeeds with one polygon per text, in order, when every text succeeds. */
  lemma {:induction false} GeocodeEachOk(queries: seq<string>, decide: string -> Result<GeoJson, GeocodeError>)
    requires GeocodeEach(queries, decide).Ok?
    ensures |GeocodeEach(queries, decide).value| == |queries|
    ensures forall i :: 0 <= i < |queries| ==> decide(queries[i]) == Ok(GeocodeEach(queries, decide).value[i])
  {
    if queries != [] {
      var tail := queries[1..];
      var rest := GeocodeEach(tail, decide);
      GeocodeEachOk(tail, decide);
      var gs := [decide(queries[0]).value] + rest.value;
      assert GeocodeEach(queries, decide) == Ok(gs);
      forall i | 0 <= i < |queries| ensures decide(queries[i]) == Ok(gs[i]) {
        if i > 0 {
          assert queries[i] == tail[i - 1] && gs[i] == rest.value[i - 1];
        }
      }
    }
  }

  /** Text `i` fails with `e`, and every text before it succeeds. */
  ghost predicate FirstFailure(queries: seq<string>, decide: string -> Result<GeoJson, GeocodeError>, i: int, e: GeocodeError)
  {
    && 0 <= i < |queries|
    && decide(queries[i]) == Err(e)
    && forall j :: 0 <= j < i ==> decide(queries[j]).Ok?
  }

  /** Otherwise a list query fails with the error of the first text that fails. */
  lemma {:induction false} GeocodeEachErr(queries: seq<string>, decide: string -> Result<GeoJson, GeocodeError>)
    requires GeocodeEach(queries, decide).Err?
    ensures exists i :: FirstFailure(queries, decide, i, GeocodeEach(queries, decide).error)
  {
    var tail := queries[1..];
    if decide(queries[0]).Ok? {
      GeocodeEachErr(tail, decide);
      var i :| FirstFailure(tail, decide, i, GeocodeEach(tail, decide).error);
      forall j | 0 <= j < i + 1 ensures decide(queries[j]).Ok? {
        if j > 0 { assert queries[j] == tail[j - 1]; }
      }
      assert queries[i + 1] == tail[i];
      assert FirstFailure(queries, decide, i + 1, GeocodeEach(queries, decide).error);
    } else {
      assert FirstFailure(queries, decide, 0, GeocodeEach(queries, decide).error);
    }
  }
}
