/** A rollup does not depend on the order its rows come in. */
module RollupOrder {
  import opened Common
  import opened Rollup

  lemma {:induction false} Concat(a: seq<Bucket>, b: seq<Bucket>, k: string)
    ensures Total(a + b) == Total(a) + Total(b) && Carried(a + b, k) == Carried(a, k) + Carried(b, k)
    ensures WeightedSum(a + b, k) == WeightedSum(a, k) + WeightedSum(b, k)
    ensures TopPeak(a + b, k) == Topmost(TopPeak(a, k), TopPeak(b, k))
  {
    if b == [] {
      assert a + b == a;
    } else {
      var init := b[..|b| - 1];
      assert (a + b)[..|a + b| - 1] == a + init && (a + b)[|a + b| - 1] == b[|b| - 1];
      SumSnoc(a + b, k);
      SumSnoc(b, k);
      hide *;
      Concat(a, init, k);
      TopmostSnoc(TopPeak(a, k), TopPeak(init, k), b[|b| - 1], k);
    }
  }

  function Topmost(x: Option<real>, y: Option<real>): Option<real> {
    match y case None => x case Some(v) => Larger(x, v)
  }

  function PeakWith(m: Option<real>, r: Bucket, k: string): Option<real> {
    if Carries(r, k) then Larger(m, Peak(r, k)) else m
  }

  lemma TopmostSnoc(x: Option<real>, y: Option<real>, r: Bucket, k: string)
    ensures Topmost(x, PeakWith(y, r, k)) == PeakWith(Topmost(x, y), r, k)
  {
  }

  /** What a part's rollup adds to the next one. */
  function Added(r: Bucket, k: string): real { if Carries(r, k) then r.data[k] * Weight(r) as real else 0.0 }

  function AddedWeight(r: Bucket, k: string): int { if Carries(r, k) then Weight(r) else 0 }

  lemma SumSnoc(rows: seq<Bucket>, k: string)
    ensures rows == [] ==>
            WeightedSum(rows, k) == 0.0 && Carried(rows, k) == 0 && Total(rows) == 0 && TopPeak(rows, k) == None
    ensures rows != [] ==>
            var init, r := rows[..|rows| - 1], rows[|rows| - 1];
            && Total(rows) == Total(init) + Weight(r) && Carried(rows, k) == Carried(init, k) + AddedWeight(r, k)
            && WeightedSum(rows, k) == WeightedSum(init, k) + Added(r, k)
            && TopPeak(rows, k) == PeakWith(TopPeak(init, k), r, k)
  {
  }

  // ---- Any order ----

  lemma TopmostCommutes(x: Option<real>, y: Option<real>, z: Option<real>)
    ensures Topmost(Topmost(x, y), z) == Topmost(Topmost(x, z), y)
  {
  }

  /** A row may stand anywhere. */
  lemma MovedLast(p: seq<Bucket>, x: Bucket, q: seq<Bucket>, k: string)
    ensures Total(p + [x] + q) == Total(p + q + [x]) && Carried(p + [x] + q, k) == Carried(p + q + [x], k)
    ensures WeightedSum(p + [x] + q, k) == WeightedSum(p + q + [x], k)
    ensures TopPeak(p + [x] + q, k) == TopPeak(p + q + [x], k)
  {
    hide *;
    Concat(p + [x], q, k);
    Concat(p, [x], k);
    Concat(p + q, [x], k);
    Concat(p, q, k);
    TopmostCommutes(TopPeak(p, k), TopPeak([x], k), TopPeak(q, k));
  }

  lemma Cancelled<T>(m: multiset<T>, n: multiset<T>, x: T)
    requires m + multiset{x} == n + multiset{x}
    ensures m == n
  {
    assert m == (m + multiset{x}) - multiset{x} && n == (n + multiset{x}) - multiset{x};
  }

  lemma Around<T>(p: seq<T>, x: T, q: seq<T>)
    ensures multiset(p + [x] + q) == multiset(p + q) + multiset{x}
  {
  }

  /** c without the last element of a, in two pieces. */
  lemma Without<T>(a: seq<T>, c: seq<T>) returns (p: seq<T>, q: seq<T>)
    requires multiset(a) == multiset(c) && a != []
    ensures c == p + [a[|a| - 1]] + q && multiset(a[..|a| - 1]) == multiset(p + q)
  {
    var init, x := a[..|a| - 1], a[|a| - 1];
    assert a == init + [x] + [] && init + [] == init;
    Around(init, x, []);
    assert x in multiset(c);
    var j :| 0 <= j < |c| && c[j] == x;
    p, q := c[..j], c[j + 1..];
    assert c == p + [x] + q;
    Around(p, x, q);
    Cancelled(multiset(init), multiset(p + q), x);
  }

  lemma {:induction false} Permuted(a: seq<Bucket>, c: seq<Bucket>, k: string)
    requires multiset(a) == multiset(c)
    ensures Total(a) == Total(c) && Carried(a, k) == Carried(c, k)
    ensures WeightedSum(a, k) == WeightedSum(c, k) && TopPeak(a, k) == TopPeak(c, k)
  {
    if a == [] {
      assert |multiset(c)| == 0;
    } else {
      var init, x := a[..|a| - 1], a[|a| - 1];
      var p, q := Without(a, c);
      SumSnoc(a, k);
      SumSnoc(p + q + [x], k);
      assert (p + q + [x])[..|p + q|] == p + q;
      hide *;
      Permuted(init, p + q, k);
      MovedLast(p, x, q, k);
    }
  }

  lemma SameRollup(b: Bucket, a: seq<Bucket>, c: seq<Bucket>)
    requires multiset(a) == multiset(c) && IsRollup(b, b.start, a)
    ensures IsRollup(b, b.start, c)
  {
    Permuted(a, c, "");
    forall k | !IsPeakField(k) ensures Merged(b, c, k) {
      assert Merged(b, a, k);
      Permuted(a, c, k);
      Carriers(a, k);
      Carriers(c, k);
    }
  }

  /** b is what Rollup makes of these rows, in the order they came in, whichever that was. */
  ghost predicate RollsUp(b: Bucket, rows: multiset<Bucket>) {
    exists list :: multiset(list) == rows && IsRollup(b, b.start, list)
  }

  lemma AnyOrder(b: Bucket, rows: seq<Bucket>)
    ensures RollsUp(b, multiset(rows)) <==> IsRollup(b, b.start, rows)
  {
    if list :| multiset(list) == multiset(rows) && IsRollup(b, b.start, list) { SameRollup(b, list, rows); }
  }
}
