/**
 * The multi-series events-stats response the dashboard widgets receive, and
 * the chart-ready series they derive from it.
 */
module EventsStats {
  import opened Wrappers

  /** Field-type and unit annotations (`meta.fields`, `meta.units`). */
  datatype Meta = Meta(fields: map<string, string>, units: map<string, string>)

  /**
   * One bucket of a raw series: `[time, [{count}, ...]]`. An element `None`
   * is a `{count: null}`; an empty `values` makes `[1][0]` undefined.
   */
  datatype Point<N> = Point(time: int, values: seq<Option<N>>)

  datatype RawSeries<N> = RawSeries(data: seq<Point<N>>, meta: Meta)

  /** The response object as its `Object.keys` enumeration: key, series. */
  type Response<N> = seq<(string, RawSeries<N>)>

  /** One chart point `{name, value}`. */
  datatype DerivedPoint<V> = DerivedPoint(name: string, value: V)

  /** A chart series (`DiscoverSeries`). */
  datatype DerivedSeries<V> = DerivedSeries(
    data: seq<DerivedPoint<V>>,
    seriesName: string,
    meta: Meta,
    color: Option<string>)

  /** `values[0]?.count` of a point: absent when the first value is missing or null. */
  function FirstCount<N>(p: Point<N>): (r: Option<N>)
    ensures r.Some? <==> |p.values| > 0 && p.values[0].Some?
    ensures r.Some? ==> r.value == p.values[0].value
  {
    if |p.values| == 0 then None else p.values[0]
  }

  /** `data[key]`: the series stored under `key` (the first entry with that key). */
  function Lookup<N>(resp: Response<N>, key: string): (r: Option<RawSeries<N>>)
    ensures r.None? <==> forall j :: 0 <= j < |resp| ==> resp[j].0 != key
    ensures r.Some? ==> exists j :: 0 <= j < |resp| && resp[j] == (key, r.value)
  {
    if resp == [] then None
    else if resp[0].0 == key then Some(resp[0].1)
    else
      var r := Lookup(resp[1..], key);
      assert forall j :: 1 <= j < |resp| ==> resp[j] == resp[1..][j - 1];
      r
  }

  /** Lookup finds the first entry under `key`. */
  lemma {:induction false} LookupFirst<N>(resp: Response<N>, key: string, j: nat)
    requires j < |resp| && resp[j].0 == key
    requires forall j' :: 0 <= j' < j ==> resp[j'].0 != key
    ensures Lookup(resp, key) == Some(resp[j].1)
  {
    if j > 0 {
      LookupFirst(resp[1..], key, j - 1);
    }
  }

  /** No key occurs twice, as in any JavaScript object. */
  predicate DistinctKeys<N>(resp: Response<N>)
  {
    forall j, j' :: 0 <= j < j' < |resp| ==> resp[j].0 != resp[j'].0
  }

  /** With distinct keys, looking up an entry's key gives that entry's series. */
  lemma LookupDistinct<N>(resp: Response<N>, j: nat)
    requires DistinctKeys(resp) && j < |resp|
    ensures Lookup(resp, resp[j].0) == Some(resp[j].1)
  {
    LookupFirst(resp, resp[j].0, j);
  }
}
