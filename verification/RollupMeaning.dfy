/** A rollup told by its rows' own fields. Together these laws leave no other rollup: rows come one
    by one, in any order, and a field's carriers may come first. */
module RollupMeaning {
  import opened Common
  import opened Rollup
  import opened RollupOrder
  import opened RollupTheorems

  /** A field that is not itself a peak. */
  predicate Plain(k: string) { |k| < 4 || k[|k| - 4..] != "_max" }

  lemma PlainIsNoPeak(k: string)
    ensures Plain(k) <==> !IsPeakField(k)
    ensures PeakField(k) == k + "_max"
  {
  }

  // ---- Peaks ----

  lemma {:induction false} TopPeakAttained(rows: seq<Bucket>, k: string)
    requires TopPeak(rows, k).Some?
    ensures exists i :: 0 <= i < |rows| && Carries(rows[i], k) && Peak(rows[i], k) == TopPeak(rows, k).value
  {
    var init, last := rows[..|rows| - 1], rows[|rows| - 1];
    if Carries(last, k) && TopPeak(rows, k) == Some(Peak(last, k)) {
    } else {
      TopPeakAttained(init, k);
      var i :| 0 <= i < |init| && Carries(init[i], k) && Peak(init[i], k) == TopPeak(init, k).value;
      assert rows[i] == init[i];
    }
  }

  /** The peak is at least every carrier's peak, its value where it has none, and is one of them. */
  lemma PeakIsLargest(b: Bucket, rows: seq<Bucket>, k: string)
    requires IsRollup(b, b.start, rows) && Plain(k)
    ensures forall i :: 0 <= i < |rows| && k in rows[i].data ==>
              k in b.data && k + "_max" in b.data
              && b.data[k + "_max"] >= if k + "_max" in rows[i].data then rows[i].data[k + "_max"] else rows[i].data[k]
    ensures k in b.data ==> k + "_max" in b.data
    ensures k in b.data ==>
              exists i :: (0 <= i < |rows| && k in rows[i].data && b.data[k + "_max"] ==
                (if k + "_max" in rows[i].data then rows[i].data[k + "_max"] else rows[i].data[k]))
  {
    PlainIsNoPeak(k);
    Carriers(rows, k);
    assert Merged(b, rows, k);
    forall i | 0 <= i < |rows| && k in rows[i].data
      ensures k in b.data && TopPeak(rows, k).Some? && TopPeak(rows, k).value >= Peak(rows[i], k)
    {
      assert Carries(rows[i], k);
      TopPeakCovers(rows, k, i);
    }
    if k in b.data { TopPeakAttained(rows, k); }
  }

  /** Of raw rows, which carry no peaks, the peak is the largest value and the average at most it. */
  lemma RawPeak(b: Bucket, rows: seq<Bucket>, k: string)
    requires IsRollup(b, b.start, rows) && Plain(k)
    requires forall i :: 0 <= i < |rows| ==> k + "_max" !in rows[i].data
    ensures forall i :: 0 <= i < |rows| && k in rows[i].data ==>
              k in b.data && k + "_max" in b.data && b.data[k + "_max"] >= rows[i].data[k]
    ensures k in b.data ==> k + "_max" in b.data
    ensures k in b.data ==> exists i :: 0 <= i < |rows| && k in rows[i].data && b.data[k + "_max"] == rows[i].data[k]
    ensures k in b.data && k != "unavailable" ==> b.data[k] <= b.data[k + "_max"]
  {
    PeakIsLargest(b, rows, k);
    PlainIsNoPeak(k);
    if k in b.data && k != "unavailable" {
      assert AllBelowPeak(rows, k);
      AverageBelowPeak(b, rows, k);
    }
  }

  // ---- One row ----

  lemma MeanOfOne(mean: real, sum: real, value: real, w: int)
    requires IsMean(mean, sum, w) && sum == Times(value, w as real)
    ensures mean == value
  {
    Cancel(w as real, mean, value);
  }

  /** One row alone comes out with its own values, as at least one sample. */
  lemma RollupOfOne(b: Bucket, r: Bucket, k: string)
    requires IsRollup(b, b.start, [r]) && Plain(k)
    ensures b.samples == if r.samples < 1 then 1 else r.samples
    ensures (k in b.data <==> k in r.data) && (k in r.data ==> b.data[k] == r.data[k])
  {
    hide *;
    SumsOfOne(r, k);
    MeanOf(b, [r], k);
    PresentIsCarried([r], k);
    DivisorIs([r], k);
    if k in r.data { MeanOfOne(b.data[k], WeightedSum([r], k), r.data[k], Total([r])); }
  }

  lemma SumsOfOne(r: Bucket, k: string)
    requires Plain(k)
    ensures Total([r]) == if r.samples < 1 then 1 else r.samples
    ensures Carried([r], k) == if k in r.data then Total([r]) else 0
    ensures k in r.data ==> WeightedSum([r], k) == Times(r.data[k], Total([r]) as real)
  {
    PlainIsNoPeak(k);
    SumSnoc([r], k);
    SumSnoc([], k);
    assert [r][..0] == [];
    hide WeightedSum;
    hide Carried;
    hide Total;
  }

  // ---- Two lists of rows ----

  /** The mean and the sum it came from. */
  lemma MeanOf(b: Bucket, rows: seq<Bucket>, k: string)
    requires IsRollup(b, b.start, rows) && Plain(k)
    ensures (k in b.data <==> Present(rows, k)) && b.samples == Total(rows)
    ensures k in b.data ==> IsMean(b.data[k], WeightedSum(rows, k), Divisor(rows, k))
  {
    PlainIsNoPeak(k);
    assert Merged(b, rows, k);
    hide IsMean;
    hide WeightedSum;
  }

  /** The rows' samples add up; a field is there when either list has it. */
  lemma RollupOfTwo(b: Bucket, x: Bucket, y: Bucket, a: seq<Bucket>, c: seq<Bucket>, k: string)
    requires IsRollup(b, b.start, a + c) && IsRollup(x, x.start, a) && IsRollup(y, y.start, c) && Plain(k)
    ensures b.samples == x.samples + y.samples
    ensures k in b.data <==> k in x.data || k in y.data
  {
    hide IsRollup;
    MeanOf(b, a + c, k);
    MeanOf(x, a, k);
    MeanOf(y, c, k);
    Concat(a, c, k);
    Carriers(a, k);
    Carriers(c, k);
    Carriers(a + c, k);
  }

  lemma AddedMeans(m: real, p: real, q: real, s: real, t: real, v: int, w: int)
    requires IsMean(p, s, v) && IsMean(q, t, w) && IsMean(m, s + t, v + w)
    ensures m * (v + w) as real == p * v as real + q * w as real
  {
  }

  /** All rows of a list carry the field. */
  lemma AllCarried(rows: seq<Bucket>, k: string)
    requires Plain(k) && rows != [] && forall r :: r in rows ==> k in r.data
    ensures Carried(rows, k) == Total(rows) == Divisor(rows, k) && Present(rows, k)
  {
    PlainIsNoPeak(k);
    assert forall i :: 0 <= i < |rows| ==> rows[i] in rows;
    CarriedWhole(rows, k);
    Carriers(rows, k);
  }

  /** A field that every row carries: the averages weigh in by their samples. */
  lemma AverageOfTwo(b: Bucket, x: Bucket, y: Bucket, a: seq<Bucket>, c: seq<Bucket>, k: string)
    requires IsRollup(b, b.start, a + c) && IsRollup(x, x.start, a) && IsRollup(y, y.start, c) && Plain(k)
    requires a != [] && c != [] && forall r :: r in a + c ==> k in r.data
    ensures k in b.data && k in x.data && k in y.data
    ensures b.data[k] * b.samples as real == x.data[k] * x.samples as real + y.data[k] * y.samples as real
  {
    hide *;
    AllCarried(a, k);
    AllCarried(c, k);
    AllCarried(a + c, k);
    Concat(a, c, k);
    MeanOf(b, a + c, k);
    MeanOf(x, a, k);
    MeanOf(y, c, k);
    AddedMeans(b.data[k], x.data[k], y.data[k], WeightedSum(a, k), WeightedSum(c, k), Total(a), Total(c));
  }

  /** Means of one sum. */
  lemma MeansOfOneSum(m: real, n: real, s: real, d: int, e: int)
    requires IsMean(m, s, d) && IsMean(n, s, e)
    ensures m * d as real == n * e as real && (d == e ==> m == n)
  {
    if d == e { Cancel(d as real, m, n); }
  }

  /** No row of a list carries the field. */
  lemma {:induction false} NoneCarried(rows: seq<Bucket>, k: string)
    requires forall r :: r in rows ==> k !in r.data
    ensures Carried(rows, k) == 0 && WeightedSum(rows, k) == 0.0
  {
    SumSnoc(rows, k);
    if rows != [] { NoneCarried(rows[..|rows| - 1], k); }
  }

  lemma DivisorIs(rows: seq<Bucket>, k: string)
    ensures Divisor(rows, k) == if k == "unavailable" then Total(rows) else Carried(rows, k)
  {
  }

  lemma PresentIsCarried(rows: seq<Bucket>, k: string)
    ensures Present(rows, k) <==> Carried(rows, k) > 0
  {
    Carriers(rows, k);
  }

  /** Rows that do not carry a field do not change its average: except the flag's, which they
      count 0 towards. */
  lemma AverageOfCarriers(b: Bucket, x: Bucket, a: seq<Bucket>, c: seq<Bucket>, k: string)
    requires IsRollup(b, b.start, a + c) && IsRollup(x, x.start, a) && Plain(k) && k in x.data
    requires forall r :: r in c ==> k !in r.data
    ensures k in b.data
    ensures k != "unavailable" ==> b.data[k] == x.data[k]
    ensures k == "unavailable" ==> b.data[k] * b.samples as real == x.data[k] * x.samples as real
  {
    hide *;
    NoneCarried(c, k);
    Concat(a, c, k);
    MeanOf(b, a + c, k);
    MeanOf(x, a, k);
    PresentIsCarried(a, k);
    PresentIsCarried(a + c, k);
    DivisorIs(a, k);
    DivisorIs(a + c, k);
    MeansOfOneSum(b.data[k], x.data[k], WeightedSum(a, k), Divisor(a + c, k), Divisor(a, k));
  }
}
