/**
 * The Requests widget: HTTP status-code series grouped into status classes
 * ("2xx", "5xx") by summing every series whose key starts with the class digit.
 */
module RequestsWidget {
  import opened Wrappers
  import opened EventsStats

  /** `key.startsWith(prefix)`. */
  predicate StartsWith(key: string, prefix: string)
  {
    prefix <= key
  }

  /** Entry `j` holds the first key of `resp` that starts with `prefix`. */
  predicate FirstMatchAt<N>(resp: Response<N>, prefix: string, j: int)
  {
    && 0 <= j < |resp|
    && StartsWith(resp[j].0, prefix)
    && forall j' :: 0 <= j' < j ==> !StartsWith(resp[j'].0, prefix)
  }

  /** Some key of the (present) response starts with `prefix`. */
  predicate HasPrefix<N>(data: Option<Response<N>>, prefix: string)
  {
    data.Some? && exists j :: 0 <= j < |data.value| && StartsWith(data.value[j].0, prefix)
  }

  /** `Object.keys(data).filter(key => key.startsWith(prefix)).map(key => data[key])`. */
  function Matching(resp: Response<int>, prefix: string): (r: seq<RawSeries<int>>)
    ensures |r| <= |resp|
    ensures r == [] <==> forall j :: 0 <= j < |resp| ==> !StartsWith(resp[j].0, prefix)
    ensures forall j :: FirstMatchAt(resp, prefix, j) ==> r != [] && r[0] == resp[j].1
  {
    if resp == [] then []
    else
      var rest := Matching(resp[1..], prefix);
      assert forall j :: 1 <= j < |resp| ==> resp[j] == resp[1..][j - 1];
      assert forall j :: 1 <= j < |resp| && FirstMatchAt(resp, prefix, j) ==> FirstMatchAt(resp[1..], prefix, j - 1);
      if StartsWith(resp[0].0, prefix) then [resp[0].1] + rest else rest
  }

  /**
   * Matching keeps every matching entry's series, in key order, and nothing
   * else: it distributes over concatenation and keeps a one-entry response
   * exactly when its key matches.
   */
  lemma {:induction false} MatchingAppend(a: Response<int>, b: Response<int>, prefix: string)
    ensures Matching(a + b, prefix) == Matching(a, prefix) + Matching(b, prefix)
  {
    if a == [] {
      assert a + b == b;
    } else {
      assert (a + b)[0] == a[0] && (a + b)[1..] == a[1..] + b;
      MatchingAppend(a[1..], b, prefix);
    }
  }

  lemma MatchingSingle(key: string, s: RawSeries<int>, prefix: string)
    ensures Matching([(key, s)], prefix) == if StartsWith(key, prefix) then [s] else []
  {
    assert [(key, s)][1..] == [];
  }

  /**
   * What one series adds at `index`: `series.data[index]?.[1][0]?.count`.
   * A null count adds 0, as `acc + null` does in JavaScript.
   */
  function CountAt(s: RawSeries<int>, index: nat): int
  {
    if index < |s.data| then FirstCount(s.data[index]).GetOr(0) else 0
  }

  /** `filteredSeries.reduce((acc, series) => acc + count, 0)`, folded from the left. */
  function SumAt(ss: seq<RawSeries<int>>, index: nat): int
    decreases |ss|
  {
    if ss == [] then 0 else SumAt(ss[..|ss| - 1], index) + CountAt(ss[|ss| - 1], index)
  }

  /**
   * Reference total: every entry of the response whose key starts with
   * `prefix` contributes its count at `index`, every other entry 0.
   */
  function PrefixTotal(resp: Response<int>, prefix: string, index: nat): int
  {
    if resp == [] then 0
    else (if StartsWith(resp[0].0, prefix) then CountAt(resp[0].1, index) else 0)
         + PrefixTotal(resp[1..], prefix, index)
  }

  lemma {:induction false} SumAtAppend(a: seq<RawSeries<int>>, b: seq<RawSeries<int>>, index: nat)
    ensures SumAt(a + b, index) == SumAt(a, index) + SumAt(b, index)
    decreases |b|
  {
    if b == [] {
      assert a + b == a;
    } else {
      var b' := b[..|b| - 1];
      assert (a + b)[..|a + b| - 1] == a + b';
      SumAtAppend(a, b', index);
    }
  }

  /** The left fold over the matching series equals the reference total. */
  lemma {:induction false} SumAtIsPrefixTotal(resp: Response<int>, prefix: string, index: nat)
    ensures SumAt(Matching(resp, prefix), index) == PrefixTotal(resp, prefix, index)
  {
    if resp != [] {
      SumAtIsPrefixTotal(resp[1..], prefix, index);
      var rest := Matching(resp[1..], prefix);
      if StartsWith(resp[0].0, prefix) {
        SumAtAppend([resp[0].1], rest, index);
        assert [resp[0].1][..0] == [];
      }
    }
  }

  /** Series `s` has a point with a first value at each of the first `n` indices. */
  predicate Covers(s: RawSeries<int>, n: nat)
  {
    forall i :: 0 <= i < n ==> i < |s.data| && |s.data[i].values| > 0
  }

  /**
   * Every entry whose key starts with `prefix` covers every index of the
   * first matching entry's series. Otherwise `series.data[index]?.[1][0]?.count`
   * is undefined somewhere and the sum becomes NaN.
   */
  predicate AlignedResponse(resp: Response<int>, prefix: string)
  {
    forall j0, j :: 0 <= j0 < |resp| && FirstMatchAt(resp, prefix, j0) && 0 <= j < |resp|
                    && StartsWith(resp[j].0, prefix) ==>
      Covers(resp[j].1, |resp[j0].1.data|)
  }

  /** Each selected series is the series of some matching entry. */
  lemma {:induction false} MatchingFrom(resp: Response<int>, prefix: string, k: nat)
    requires k < |Matching(resp, prefix)|
    ensures exists j :: 0 <= j < |resp| && StartsWith(resp[j].0, prefix) && resp[j].1 == Matching(resp, prefix)[k]
  {
    var rest := Matching(resp[1..], prefix);
    if StartsWith(resp[0].0, prefix) && k == 0 {
      assert resp[0].1 == Matching(resp, prefix)[0];
    } else {
      var k' := if StartsWith(resp[0].0, prefix) then k - 1 else k;
      assert Matching(resp, prefix)[k] == rest[k'];
      MatchingFrom(resp[1..], prefix, k');
      var j :| 0 <= j < |resp[1..]| && StartsWith(resp[1..][j].0, prefix) && resp[1..][j].1 == rest[k'];
      assert resp[j + 1] == resp[1..][j];
    }
  }

  /** Series `d` has one point per point of `driver`, named after its timestamp. */
  predicate DrivenBy<V, N>(d: seq<DerivedPoint<V>>, driver: RawSeries<N>, iso: int -> string)
  {
    && |d| == |driver.data|
    && forall i :: 0 <= i < |d| ==> d[i].name == iso(driver.data[i].time)
  }

  /** `getTimeSeries(codePrefix, color)` of the Requests widget. */
  function StatusClassSeries(data: Option<Response<int>>, prefix: string, color: Option<string>,
                             iso: int -> string): (r: Option<DerivedSeries<int>>)
    requires data.Some? ==> AlignedResponse(data.value, prefix)
    ensures r.Some? <==> HasPrefix(data, prefix)
    ensures r.Some? ==>
      forall j :: FirstMatchAt(data.value, prefix, j) ==> DrivenBy(r.value.data, data.value[j].1, iso)
    ensures r.Some? ==>
      forall i :: 0 <= i < |r.value.data| ==> r.value.data[i].value == PrefixTotal(data.value, prefix, i)
    ensures r.Some? ==>
      && r.value.seriesName == prefix + "xx"
      && r.value.meta == Meta(map[prefix + "xx" := "integer"], map[])
      && r.value.color == color
  {
    if data.None? then None
    else
      var filtered := Matching(data.value, prefix);
      if filtered == [] then None
      else
        var first := filtered[0];
        var field := prefix + "xx";
        var points := seq(|first.data|, i requires 0 <= i < |first.data| =>
                            DerivedPoint(iso(first.data[i].time), SumAt(filtered, i)));
        assert forall i :: 0 <= i < |points| ==> points[i].value == PrefixTotal(data.value, prefix, i) by {
          forall i | 0 <= i < |points| { SumAtIsPrefixTotal(data.value, prefix, i); }
        }
        Some(DerivedSeries(points, field, Meta(map[field := "integer"], map[]), color))
  }

  /** The Requests widget's `timeSeries`: 2xx then 5xx, absent classes dropped. */
  function RequestsTimeSeries(data: Option<Response<int>>, okColor: string, errorColor: string,
                              iso: int -> string): (r: seq<DerivedSeries<int>>)
    requires data.Some? ==> AlignedResponse(data.value, "2") && AlignedResponse(data.value, "5")
    ensures |r| == (if HasPrefix(data, "2") then 1 else 0) + (if HasPrefix(data, "5") then 1 else 0)
    ensures forall k :: 0 <= k < |r| ==>
      r[k].seriesName == if k == 0 && HasPrefix(data, "2") then "2xx" else "5xx"
    ensures HasPrefix(data, "2") ==> r[0] == StatusClassSeries(data, "2", Some(okColor), iso).value
    ensures HasPrefix(data, "5") ==> r[|r| - 1] == StatusClassSeries(data, "5", Some(errorColor), iso).value
  {
    var ok := StatusClassSeries(data, "2", Some(okColor), iso);
    var err := StatusClassSeries(data, "5", Some(errorColor), iso);
    PresentPair(ok, err);
    Present([ok, err])
  }

  /** Two 2xx keys are summed; a 5xx key is not counted in the 2xx class. */
  lemma SumsMatchingKeys(m: Meta, iso: int -> string)
    ensures
      var resp := [("200", RawSeries([Point(0, [Some(3)])], m)),
                   ("201", RawSeries([Point(0, [Some(2)])], m)),
                   ("500", RawSeries([Point(0, [Some(7)])], m))];
      var r := StatusClassSeries(Some(resp), "2", None, iso);
      r.Some? && |r.value.data| == 1 && r.value.data[0].value == 5
  {
    var resp := [("200", RawSeries([Point(0, [Some(3)])], m)),
                 ("201", RawSeries([Point(0, [Some(2)])], m)),
                 ("500", RawSeries([Point(0, [Some(7)])], m))];
    assert resp[2].0[0] != "2"[0];
    assert StartsWith(resp[0].0, "2") && StartsWith(resp[1].0, "2") && !StartsWith(resp[2].0, "2");
    assert PrefixTotal(resp[2..], "2", 0) == 0;
    assert PrefixTotal(resp, "2", 0) == 5;
    assert HasPrefix(Some(resp), "2");
  }
}
