/**
 * The Jobs widget: processed and failed job counts per bucket, derived from
 * the ok-rate series and the spans-per-minute series.
 */
module JobsWidget {
  import opened Wrappers
  import opened EventsStats

  const RateKey: string := "trace_status_rate(ok)"
  const SpmKey: string := "spm()"

  /** The minutes in one bucket, from the interval's length in hours. */
  function IntervalInMinutes(intervalHours: real): real
  {
    intervalHours * 60.0
  }

  /** Spans in bucket `index`: the spm count (0 when missing, null or 0) times the bucket's minutes. */
  function Volume(spm: RawSeries<real>, index: nat, minutes: real): real
  {
    (if index < |spm.data| then FirstCount(spm.data[index]).GetOr(0.0) else 0.0) * minutes
  }

  /** The rate count is truthy: present, not null and not 0. */
  predicate TruthyRate(p: Point<real>)
  {
    FirstCount(p).Some? && FirstCount(p).value != 0.0
  }

  /** The ok rate of a bucket, 0 when missing or null. */
  function OkRate(p: Point<real>): real
  {
    FirstCount(p).GetOr(0.0)
  }

  /** The failed rate of a bucket: `1 - rate` for a truthy rate, otherwise 0. */
  function FailedRate(p: Point<real>): real
  {
    if TruthyRate(p) then 1.0 - FirstCount(p).value else 0.0
  }

  function Processed(rate: RawSeries<real>, spm: RawSeries<real>, index: nat, minutes: real): real
    requires index < |rate.data|
  {
    OkRate(rate.data[index]) * Volume(spm, index, minutes)
  }

  function Failed(rate: RawSeries<real>, spm: RawSeries<real>, index: nat, minutes: real): real
    requires index < |rate.data|
  {
    FailedRate(rate.data[index]) * Volume(spm, index, minutes)
  }

  /** Both widget series are absent unless the response holds both required series. */
  predicate HasJobsData(data: Option<Response<real>>)
  {
    data.Some? && Lookup(data.value, RateKey).Some? && Lookup(data.value, SpmKey).Some?
  }

  /** `{fields: {[name]: 'integer'}, units: {}}`. */
  function IntegerMeta(name: string): Meta
  {
    Meta(map[name := "integer"], map[])
  }

  /**
   * The Jobs widget's `timeSeries`: one pass over the rate series that
   * appends a Processed point and a Failed point per bucket.
   */
  method JobsTimeSeries(data: Option<Response<real>>, intervalHours: real,
                        processedColor: string, failedColor: string, iso: int -> string)
    returns (series: seq<DerivedSeries<real>>)
    ensures series == [] <==> !HasJobsData(data)
    ensures HasJobsData(data) ==>
      var rate := Lookup(data.value, RateKey).value;
      var spm := Lookup(data.value, SpmKey).value;
      var minutes := IntervalInMinutes(intervalHours);
      && |series| == 2
      && series[0].seriesName == "Processed" && series[1].seriesName == "Failed"
      && series[0].meta == IntegerMeta("Processed") && series[1].meta == IntegerMeta("Failed")
      && series[0].color == Some(processedColor) && series[1].color == Some(failedColor)
      && |series[0].data| == |rate.data| && |series[1].data| == |rate.data|
      && forall i :: 0 <= i < |rate.data| ==>
           && series[0].data[i] == DerivedPoint(iso(rate.data[i].time), Processed(rate, spm, i, minutes))
           && series[1].data[i] == DerivedPoint(iso(rate.data[i].time), Failed(rate, spm, i, minutes))
  {
    if data.None? {
      return [];
    }
    var okJobsRate := Lookup(data.value, RateKey);
    var spansPerMinute := Lookup(data.value, SpmKey);
    if okJobsRate.None? || spansPerMinute.None? {
      return [];
    }
    var rate := okJobsRate.value;
    var spm := spansPerMinute.value;
    var minutes := intervalHours * 60.0;
    var okJobs: seq<DerivedPoint<real>> := [];
    var failedJobs: seq<DerivedPoint<real>> := [];
    var index := 0;
    while index < |rate.data|
      invariant 0 <= index <= |rate.data|
      invariant |okJobs| == index && |failedJobs| == index
      invariant forall i :: 0 <= i < index ==>
        okJobs[i] == DerivedPoint(iso(rate.data[i].time), Processed(rate, spm, i, minutes))
      invariant forall i :: 0 <= i < index ==>
        failedJobs[i] == DerivedPoint(iso(rate.data[i].time), Failed(rate, spm, i, minutes))
    {
      var spmValue := 0.0;
      if index < |spm.data| && |spm.data[index].values| > 0 && spm.data[index].values[0].Some? {
        spmValue := spm.data[index].values[0].value;
      }
      var spansInTimeBucket := spmValue * minutes;
      var point := rate.data[index];
      var value: Option<real> := if |point.values| > 0 then point.values[0] else None;
      var okRate := if value.Some? then value.value else 0.0;
      var failedRate := if value.Some? && value.value != 0.0 then 1.0 - value.value else 0.0;
      assert spansInTimeBucket == Volume(spm, index, minutes);
      assert okRate * spansInTimeBucket == Processed(rate, spm, index, minutes);
      assert failedRate * spansInTimeBucket == Failed(rate, spm, index, minutes);
      okJobs := okJobs + [DerivedPoint(iso(point.time), okRate * spansInTimeBucket)];
      failedJobs := failedJobs + [DerivedPoint(iso(point.time), failedRate * spansInTimeBucket)];
      index := index + 1;
    }
    series := [
      DerivedSeries(okJobs, "Processed", IntegerMeta("Processed"), Some(processedColor)),
      DerivedSeries(failedJobs, "Failed", IntegerMeta("Failed"), Some(failedColor))
    ];
  }

  /**
   * Processed and Failed split the bucket's volume exactly when the rate is
   * truthy (or the volume is 0): a 0 or missing rate shows neither.
   */
  lemma SplitsVolume(rate: RawSeries<real>, spm: RawSeries<real>, index: nat, minutes: real)
    requires index < |rate.data|
    ensures Processed(rate, spm, index, minutes) + Failed(rate, spm, index, minutes)
              == Volume(spm, index, minutes)
            <==> TruthyRate(rate.data[index]) || Volume(spm, index, minutes) == 0.0
  {
  }

  /** A rate in [0, 1] and a non-negative volume keep both counts within the volume. */
  lemma CountsWithinVolume(rate: RawSeries<real>, spm: RawSeries<real>, index: nat, minutes: real)
    requires index < |rate.data|
    requires FirstCount(rate.data[index]).Some? ==> 0.0 <= FirstCount(rate.data[index]).value <= 1.0
    requires Volume(spm, index, minutes) >= 0.0
    ensures 0.0 <= Processed(rate, spm, index, minutes) <= Volume(spm, index, minutes)
    ensures 0.0 <= Failed(rate, spm, index, minutes) <= Volume(spm, index, minutes)
  {
    var v := Volume(spm, index, minutes);
    var ok := OkRate(rate.data[index]);
    var failed := FailedRate(rate.data[index]);
    assert 0.0 <= ok <= 1.0 && 0.0 <= failed <= 1.0;
    assert Processed(rate, spm, index, minutes) == ok * v;
    assert Failed(rate, spm, index, minutes) == failed * v;
    assert v - ok * v == (1.0 - ok) * v && v - failed * v == (1.0 - failed) * v;
  }

  /** Rate 0.8, 10 spans per minute, 5-minute buckets: 50 spans, 40 processed, 10 failed. */
  lemma ExampleBucket(m: Meta)
    ensures var rate := RawSeries([Point(0, [Some(0.8)])], m);
            var spm := RawSeries([Point(0, [Some(10.0)])], m);
            && Volume(spm, 0, 5.0) == 50.0
            && Processed(rate, spm, 0, 5.0) == 40.0
            && Failed(rate, spm, 0, 5.0) == 10.0
  {
  }

  /** A null rate shows neither processed nor failed jobs, however many spans there were. */
  lemma ExampleNullRate(m: Meta)
    ensures var rate := RawSeries([Point(0, [None])], m);
            var spm := RawSeries([Point(0, [Some(10.0)])], m);
            && Volume(spm, 0, 5.0) == 50.0
            && Processed(rate, spm, 0, 5.0) == 0.0
            && Failed(rate, spm, 0, 5.0) == 0.0
  {
  }
}
