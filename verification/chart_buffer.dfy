/**
 The rolling chart data: three parallel series (time labels, download Mbps,
 upload Mbps). A push evicts the oldest point of every series when the label
 series already holds more than 20 points, and only then appends, so the buffer
 settles at 21 points.
 */
module ChartBuffer {
  import opened Wrappers

  /** A wall-clock label; its text is irrelevant to the buffer. */
  type Stamp = string

  /** The eviction guard compares the label count against this constant. */
  const EvictAbove: nat := 20
  /** The length a buffer actually reaches. */
  const MaxPoints: nat := EvictAbove + 1

  datatype Chart = Chart(labels: seq<Stamp>, download: seq<real>, upload: seq<real>)

  datatype Sample = Sample(stamp: Stamp, download: real, upload: real)

  /** The three series have one entry per point. */
  ghost predicate Aligned(c: Chart) {
    |c.labels| == |c.download| == |c.upload|
  }

  /** Aligned and no longer than the buffer ever gets. */
  ghost predicate Valid(c: Chart) {
    Aligned(c) && |c.labels| <= MaxPoints
  }

  /** The points of an aligned chart, oldest first. */
  ghost function Samples(c: Chart): (ss: seq<Sample>)
    requires Aligned(c)
    ensures |ss| == |c.labels|
  {
    seq(|c.labels|, i requires 0 <= i < |c.labels| => Sample(c.labels[i], c.download[i], c.upload[i]))
  }

  /** The three series of a list of points. */
  ghost function Columns(ss: seq<Sample>): (c: Chart)
    ensures Aligned(c) && |c.labels| == |ss|
  {
    Chart(seq(|ss|, i requires 0 <= i < |ss| => ss[i].stamp),
          seq(|ss|, i requires 0 <= i < |ss| => ss[i].download),
          seq(|ss|, i requires 0 <= i < |ss| => ss[i].upload))
  }

  /** `Samples` and `Columns` are inverse views of the same data. */
  lemma ColumnsRoundTrip(c: Chart, ss: seq<Sample>)
    ensures Samples(Columns(ss)) == ss
    ensures Aligned(c) ==> Columns(Samples(c)) == c
  {
  }

  /** The last `n` elements of `xs` (all of them when there are fewer). */
  function LastN<T>(xs: seq<T>, n: nat): (r: seq<T>)
    ensures |r| == if |xs| <= n then |xs| else n
    ensures forall i :: 0 <= i < |r| ==> r[i] == xs[|xs| - |r| + i]
  {
    if |xs| <= n then xs else xs[|xs| - n..]
  }

  /** JavaScript `value || 0` for a number that may be `null`. */
  function OrZero(value: Option<real>): real {
    value.GetOr(0.0)
  }

  /** JavaScript `Array.prototype.shift` for its effect on the array. */
  function Shift<T>(s: seq<T>): (r: seq<T>)
    ensures |s| > 0 ==> r == s[1..]
    ensures |s| == 0 ==> r == s
  {
    if |s| == 0 then s else s[1..]
  }

  /** The chart part of `resetUI`: all three series become empty. */
  function Reset(c: Chart): (r: Chart)
    ensures r.labels == [] && r.download == [] && r.upload == []
    ensures Valid(r) && Samples(r) == []
  {
    Chart([], [], [])
  }

  /**
   `addChartDataPoint(download, upload)` with the clock reading `stamp`: one entry
   is appended to each series, a missing value stored as 0, after evicting the
   oldest entry of each series when more than `EvictAbove` labels are held.
   */
  function Push(c: Chart, stamp: Stamp, download: Option<real>, upload: Option<real>): (r: Chart)
    ensures |r.labels| > 0 && |r.download| > 0 && |r.upload| > 0
    ensures r.labels[|r.labels| - 1] == stamp
    ensures r.download[|r.download| - 1] == OrZero(download)
    ensures r.upload[|r.upload| - 1] == OrZero(upload)
    ensures Aligned(c) ==> Aligned(r)
    ensures Valid(c) ==> Valid(r)
    ensures Valid(c) ==> Samples(r) == LastN(Samples(c) + [Sample(stamp, OrZero(download), OrZero(upload))], MaxPoints)
  {
    var kept := if |c.labels| > EvictAbove then Chart(Shift(c.labels), Shift(c.download), Shift(c.upload)) else c;
    var r := Chart(kept.labels + [stamp], kept.download + [OrZero(download)], kept.upload + [OrZero(upload)]);
    assert Valid(c) ==> Samples(r) == LastN(Samples(c) + [Sample(stamp, OrZero(download), OrZero(upload))], MaxPoints) by {
      if Valid(c) {
        var all := Samples(c) + [Sample(stamp, OrZero(download), OrZero(upload))];
        var w := LastN(all, MaxPoints);
        assert |Samples(r)| == |w|;
        forall i | 0 <= i < |w|
          ensures Samples(r)[i] == w[i]
        {
        }
      }
    }
    r
  }

  /** A sample pushed with both values present. */
  function PushSample(c: Chart, x: Sample): Chart {
    Push(c, x.stamp, Some(x.download), Some(x.upload))
  }

  /** The chart after pushing `xs` onto `c`, in order. */
  function Fill(c: Chart, xs: seq<Sample>): Chart
    decreases |xs|
  {
    if |xs| == 0 then c else PushSample(Fill(c, xs[..|xs| - 1]), xs[|xs| - 1])
  }

  /** Keeping the last `n` and then the last `n` again after one more element is the same as one window. */
  lemma LastNAppend<T>(xs: seq<T>, x: T, n: nat)
    requires n > 0
    ensures LastN(LastN(xs, n) + [x], n) == LastN(xs + [x], n)
  {
  }

  /**
   Starting from any valid buffer, a run of pushes leaves exactly the most recent
   `MaxPoints` points of the old contents followed by the new ones, in arrival order.
   */
  lemma {:induction false} FillKeepsLatest(c: Chart, xs: seq<Sample>)
    requires Valid(c)
    ensures Valid(Fill(c, xs))
    ensures Samples(Fill(c, xs)) == LastN(Samples(c) + xs, MaxPoints)
    decreases |xs|
  {
    if |xs| == 0 {
      assert Samples(c) + xs == Samples(c);
    } else {
      var init := xs[..|xs| - 1];
      var x := xs[|xs| - 1];
      FillKeepsLatest(c, init);
      var prev := Fill(c, init);
      assert Sample(x.stamp, OrZero(Some(x.download)), OrZero(Some(x.upload))) == x;
      LastNAppend(Samples(c) + init, x, MaxPoints);
      assert Samples(c) + init + [x] == Samples(c) + xs;
    }
  }

  /**
   From an empty chart: never more than 21 points, and the three series are
   exactly the last 21 samples pushed (all of them while there are fewer),
   oldest first.
   */
  lemma FillFromEmpty(xs: seq<Sample>)
    ensures Valid(Fill(Reset(Chart([], [], [])), xs))
    ensures |Fill(Reset(Chart([], [], [])), xs).labels| <= MaxPoints
    ensures Fill(Reset(Chart([], [], [])), xs) == Columns(LastN(xs, MaxPoints))
    ensures |xs| <= MaxPoints ==> Samples(Fill(Reset(Chart([], [], [])), xs)) == xs
    ensures |xs| >= MaxPoints ==> Samples(Fill(Reset(Chart([], [], [])), xs)) == xs[|xs| - MaxPoints..]
  {
    var e := Reset(Chart([], [], []));
    FillKeepsLatest(e, xs);
    assert Samples(e) + xs == xs;
    ColumnsRoundTrip(Fill(e, xs), LastN(xs, MaxPoints));
  }
}
