/** The Duration widget: the avg and p95 span-duration series passed through as they are. */
module DurationWidget {
  import opened Wrappers
  import opened EventsStats

  const AvgField: string := "avg(span.duration)"
  const P95Field: string := "p95(span.duration)"

  /**
   * `getTimeSeries(field, color)` of the Duration widget. A point's value is
   * `value?.count` of its first value, so it is absent where that count is.
   */
  function FieldSeries(data: Option<Response<real>>, field: string, color: Option<string>,
                       iso: int -> string): (r: Option<DerivedSeries<Option<real>>>)
    ensures r.None? <==> data.None? || Lookup(data.value, field).None?
    ensures r.Some? ==>
      var s := Lookup(data.value, field).value;
      && |r.value.data| == |s.data|
      && (forall i :: 0 <= i < |s.data| ==>
            && r.value.data[i].name == iso(s.data[i].time)
            && (r.value.data[i].value.Some? <==> |s.data[i].values| > 0 && s.data[i].values[0].Some?)
            && (r.value.data[i].value.Some? ==> r.value.data[i].value.value == s.data[i].values[0].value))
      && r.value.seriesName == field
      && r.value.meta == s.meta
      && r.value.color == color
  {
    if data.None? then None
    else match Lookup(data.value, field)
      case None => None
      case Some(s) =>
        Some(DerivedSeries(
          seq(|s.data|, i requires 0 <= i < |s.data| =>
                DerivedPoint(iso(s.data[i].time), FirstCount(s.data[i]))),
          field, s.meta, color))
  }

  /** Every point carries exactly one value, as a single-field `yAxis` series does. */
  predicate SingleValued<N>(s: RawSeries<N>)
  {
    forall i :: 0 <= i < |s.data| ==> |s.data[i].values| == 1
  }

  /** Rebuilds raw points from chart points and the raw timestamps. */
  function Restore<V>(d: seq<DerivedPoint<Option<V>>>, times: seq<int>): (r: seq<Point<V>>)
    requires |times| == |d|
    ensures |r| == |d|
  {
    seq(|d|, i requires 0 <= i < |d| =>
          Point(times[i], [if d[i].value.Some? then Some(d[i].value.value) else None]))
  }

  /** The passthrough loses nothing of a single-valued series: its points can be rebuilt. */
  lemma FieldSeriesLossless(data: Option<Response<real>>, field: string, color: Option<string>,
                            iso: int -> string)
    requires data.Some? && Lookup(data.value, field).Some?
    requires SingleValued(Lookup(data.value, field).value)
    ensures var s := Lookup(data.value, field).value;
            var r := FieldSeries(data, field, color, iso).value;
            Restore(r.data, seq(|s.data|, i requires 0 <= i < |s.data| => s.data[i].time)) == s.data
  {
    var s := Lookup(data.value, field).value;
    var r := FieldSeries(data, field, color, iso).value;
    var times := seq(|s.data|, i requires 0 <= i < |s.data| => s.data[i].time);
    var back := Restore(r.data, times);
    forall i | 0 <= i < |s.data|
      ensures back[i] == s.data[i]
    {
      var p := s.data[i];
      assert |p.values| == 1;
      assert p.values == [p.values[0]];
    }
  }

  /** The Duration widget's `timeSeries`: avg then p95, absent fields dropped. */
  function DurationTimeSeries(data: Option<Response<real>>, avgColor: string, p95Color: string,
                              iso: int -> string): (r: seq<DerivedSeries<Option<real>>>)
    ensures var hasAvg := data.Some? && Lookup(data.value, AvgField).Some?;
            var hasP95 := data.Some? && Lookup(data.value, P95Field).Some?;
            && |r| == (if hasAvg then 1 else 0) + (if hasP95 then 1 else 0)
            && (forall k :: 0 <= k < |r| ==>
                  r[k].seriesName == if k == 0 && hasAvg then AvgField else P95Field)
            && (hasAvg ==> r[0] == FieldSeries(data, AvgField, Some(avgColor), iso).value)
            && (hasP95 ==> r[|r| - 1] == FieldSeries(data, P95Field, Some(p95Color), iso).value)
  {
    var avg := FieldSeries(data, AvgField, Some(avgColor), iso);
    var p95 := FieldSeries(data, P95Field, Some(p95Color), iso);
    PresentPair(avg, p95);
    Present([avg, p95])
  }
}
