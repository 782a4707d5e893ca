/**
 * The road-incident records the traffic API returns and the category filter
 * that `fetch_road_data` applies to them once the HTTP reply has been decoded.
 */
module Roads {
  import opened Wrappers

  /** One entry of the JSON `road` list. `createddate` is in seconds. */
  datatype Record = Record(
    id: int,
    title: string,
    description: string,
    priority: string,
    createddate: int,
    latitude: real,
    longitude: real,
    category: string,
    subcategory: string)

  /** The decoded JSON body of one reply; the `road` key may be absent. */
  datatype Body = Body(road: Option<seq<Record>>)

  /** The category selection that means "show all". */
  const ShowAll: string := "Visa alla"

  /** `data.get('road', [])` */
  function RoadList(body: Body): (roads: seq<Record>)
    ensures body.road.None? ==> roads == []
    ensures body.road.Some? ==> roads == body.road.value
  {
    match body.road
    case None => []
    case Some(rs) => rs
  }

  /** The list comprehension keeping the records of one subcategory, in order. */
  function KeepSubcategory(roads: seq<Record>, selection: string): (kept: seq<Record>)
    ensures |kept| <= |roads|
    ensures forall i :: 0 <= i < |kept| ==> kept[i].subcategory == selection
  {
    if roads == [] then []
    else if roads[0].subcategory == selection then [roads[0]] + KeepSubcategory(roads[1..], selection)
    else KeepSubcategory(roads[1..], selection)
  }

  /** `fetch_road_data` after the GET: the reply's body is the input. */
  function FetchRoadData(body: Body, selection: string): (result: seq<Record>)
    ensures selection == ShowAll ==> result == RoadList(body)
    ensures selection != ShowAll ==> forall i :: 0 <= i < |result| ==> result[i].subcategory == selection
    ensures body.road.None? ==> result == []
  {
    if selection == ShowAll then RoadList(body) else KeepSubcategory(RoadList(body), selection)
  }

  /** `a` can be obtained from `b` by deleting elements, keeping the order of the rest. */
  ghost predicate IsSubsequence<T>(a: seq<T>, b: seq<T>)
    decreases |b|
  {
    if a == [] then true
    else if b == [] then false
    else (a[0] == b[0] && IsSubsequence(a[1..], b[1..])) || IsSubsequence(a, b[1..])
  }

  lemma {:induction false} SubsequenceReflexive<T>(s: seq<T>)
    ensures IsSubsequence(s, s)
    decreases |s|
  {
    if s != [] {
      SubsequenceReflexive(s[1..]);
    }
  }

  /** The filter only deletes records; it never reorders or invents any. */
  lemma {:induction false} KeepIsSubsequence(roads: seq<Record>, selection: string)
    ensures IsSubsequence(KeepSubcategory(roads, selection), roads)
    decreases |roads|
  {
    if roads != [] {
      KeepIsSubsequence(roads[1..], selection);
      var kept := KeepSubcategory(roads, selection);
      if roads[0].subcategory == selection {
        assert kept[1..] == KeepSubcategory(roads[1..], selection);
      } else if kept != [] {
        assert kept == KeepSubcategory(roads[1..], selection);
      }
    }
  }

  /**
   * Every copy of a matching record survives the filter and no copy of any
   * other record does.
   */
  lemma {:induction false} KeepCount(roads: seq<Record>, selection: string, x: Record)
    ensures multiset(KeepSubcategory(roads, selection))[x]
            == if x.subcategory == selection then multiset(roads)[x] else 0
    decreases |roads|
  {
    if roads != [] {
      KeepCount(roads[1..], selection, x);
      assert roads == [roads[0]] + roads[1..];
    }
  }

  lemma {:induction false} KeepMembership(roads: seq<Record>, selection: string, x: Record)
    ensures x in KeepSubcategory(roads, selection) <==> x in roads && x.subcategory == selection
  {
    KeepCount(roads, selection, x);
    assert x in KeepSubcategory(roads, selection) <==> x in multiset(KeepSubcategory(roads, selection));
    assert x in roads <==> x in multiset(roads);
  }

  /** A list whose records all match passes the filter unchanged. */
  lemma {:induction false} KeepAllMatching(roads: seq<Record>, selection: string)
    requires forall i :: 0 <= i < |roads| ==> roads[i].subcategory == selection
    ensures KeepSubcategory(roads, selection) == roads
    decreases |roads|
  {
    if roads != [] {
      KeepAllMatching(roads[1..], selection);
    }
  }

  lemma {:induction false} KeepIdempotent(roads: seq<Record>, selection: string)
    ensures KeepSubcategory(KeepSubcategory(roads, selection), selection) == KeepSubcategory(roads, selection)
  {
    KeepAllMatching(KeepSubcategory(roads, selection), selection);
  }

  /** Filtering a reply that holds the result of a filtering gives that result back. */
  lemma FetchIdempotent(body: Body, selection: string)
    ensures FetchRoadData(Body(Some(FetchRoadData(body, selection))), selection) == FetchRoadData(body, selection)
  {
    if selection != ShowAll {
      KeepIdempotent(RoadList(body), selection);
    }
  }

  /** For every selection the result is an order-preserving subsequence of the `road` list. */
  lemma FetchIsSubsequence(body: Body, selection: string)
    ensures IsSubsequence(FetchRoadData(body, selection), RoadList(body))
  {
    if selection == ShowAll {
      SubsequenceReflexive(RoadList(body));
    } else {
      KeepIsSubsequence(RoadList(body), selection);
    }
  }

  /** How many copies of each record the result holds, for every selection. */
  lemma FetchCount(body: Body, selection: string, x: Record)
    ensures multiset(FetchRoadData(body, selection))[x]
            == if selection == ShowAll || x.subcategory == selection then multiset(RoadList(body))[x] else 0
  {
    if selection != ShowAll {
      KeepCount(RoadList(body), selection, x);
    }
  }
}
