/** Rolling rows up in stages gives what one direct rollup gives, and when it does not. */
module RollupTheorems {
  import opened Common
  import opened Rollup
  import opened RollupOrder

  // ---- Rows in parts ----

  function Flat(parts: seq<seq<Bucket>>): seq<Bucket> {
    if parts == [] then [] else Flat(parts[..|parts| - 1]) + parts[|parts| - 1]
  }

  /** rolled holds one rollup per part. */
  ghost predicate RolledParts(rolled: seq<Bucket>, parts: seq<seq<Bucket>>) {
    |rolled| == |parts| && forall i :: 0 <= i < |parts| ==> IsRollup(rolled[i], rolled[i].start, parts[i])
  }

  /** The same rows rolled up at once, and by parts and then the parts' rollups. The rows may be
      parted in any way, and each rollup may find its rows in any order. */
  ghost predicate Staging(direct: Bucket, staged: Bucket, rolled: seq<Bucket>, parts: seq<seq<Bucket>>) {
    RolledParts(rolled, parts) && RollsUp(direct, multiset(Flat(parts))) && RollsUp(staged, multiset(rolled))
  }

  lemma InOneOrder(direct: Bucket, staged: Bucket, rolled: seq<Bucket>, parts: seq<seq<Bucket>>)
    requires Staging(direct, staged, rolled, parts)
    ensures RolledParts(rolled, parts)
    ensures IsRollup(direct, direct.start, Flat(parts)) && IsRollup(staged, staged.start, rolled)
  {
    AnyOrder(direct, Flat(parts));
    AnyOrder(staged, rolled);
  }

  lemma RolledInit(rolled: seq<Bucket>, parts: seq<seq<Bucket>>)
    requires RolledParts(rolled, parts) && parts != []
    ensures RolledParts(rolled[..|rolled| - 1], parts[..|parts| - 1])
  {
  }

  // ---- Samples, presence and peaks: always ----

  function Empties(parts: seq<seq<Bucket>>): nat {
    if parts == [] then 0 else Empties(parts[..|parts| - 1]) + if parts[|parts| - 1] == [] then 1 else 0
  }

  lemma {:induction false} StagedTotal(rolled: seq<Bucket>, parts: seq<seq<Bucket>>)
    requires RolledParts(rolled, parts)
    ensures Total(rolled) == Total(Flat(parts)) + Empties(parts)
  {
    if parts != [] {
      var last := parts[|parts| - 1];
      RolledInit(rolled, parts);
      StagedTotal(rolled[..|rolled| - 1], parts[..|parts| - 1]);
      Concat(Flat(parts[..|parts| - 1]), last, "");
      Carriers(last, "");
    }
  }

  lemma {:induction false} SomeEmpty(parts: seq<seq<Bucket>>)
    ensures Empties(parts) == 0 <==> forall i :: 0 <= i < |parts| ==> parts[i] != []
  {
    if parts != [] {
      var init := parts[..|parts| - 1];
      SomeEmpty(init);
      assert forall i :: 0 <= i < |init| ==> init[i] == parts[i];
    }
  }

  /** Samples agree exactly when no stage was rolled up from nothing: an empty bucket comes
      out with no samples and then counts as one. */
  lemma SamplesCompose(direct: Bucket, staged: Bucket, rolled: seq<Bucket>, parts: seq<seq<Bucket>>)
    requires Staging(direct, staged, rolled, parts)
    ensures staged.samples == direct.samples <==> forall i :: 0 <= i < |parts| ==> parts[i] != []
  {
    InOneOrder(direct, staged, rolled, parts);
    StagedTotal(rolled, parts);
    SomeEmpty(parts);
  }

  lemma {:induction false} StagedPeak(rolled: seq<Bucket>, parts: seq<seq<Bucket>>, k: string)
    requires RolledParts(rolled, parts) && !IsPeakField(k)
    ensures TopPeak(rolled, k) == TopPeak(Flat(parts), k)
  {
    if parts != [] {
      var last := parts[|parts| - 1];
      RolledInit(rolled, parts);
      StagedPeak(rolled[..|rolled| - 1], parts[..|parts| - 1], k);
      Concat(Flat(parts[..|parts| - 1]), last, k);
      Carriers(last, k);
      var r := rolled[|rolled| - 1];
      assert Carries(r, k) <==> Present(last, k);
    }
  }

  /** The same fields, each with the same peak, whatever the parts. */
  lemma PeaksCompose(direct: Bucket, staged: Bucket, rolled: seq<Bucket>, parts: seq<seq<Bucket>>, k: string)
    requires Staging(direct, staged, rolled, parts) && !IsPeakField(k)
    ensures k in staged.data <==> k in direct.data
    ensures k in direct.data ==> PeakField(k) in staged.data && PeakField(k) in direct.data
                                 && staged.data[PeakField(k)] == direct.data[PeakField(k)]
  {
    InOneOrder(direct, staged, rolled, parts);
    StagedPeak(rolled, parts, k);
    Carriers(rolled, k);
    Carriers(Flat(parts), k);
  }

  // ---- Averages ----

  /** The parts that carry k carry it on the same share of their samples. */
  ghost predicate SameShare(parts: seq<seq<Bucket>>, k: string) {
    forall i, j :: 0 <= i < |parts| && 0 <= j < |parts| && Present(parts[i], k) && Present(parts[j], k) ==>
      Carried(parts[i], k) * Total(parts[j]) == Carried(parts[j], k) * Total(parts[i])
  }

  /** share is that common share, as samples per sample carrying k. */
  ghost predicate HasShare(parts: seq<seq<Bucket>>, k: string, share: real) {
    forall i :: 0 <= i < |parts| && Present(parts[i], k) ==> ShareIs(parts[i], k, share)
  }

  ghost predicate ShareIs(rows: seq<Bucket>, k: string, share: real) {
    Total(rows) as real == share * Carried(rows, k) as real
  }

  function Times(a: real, b: real): real { a * b }

  lemma TimesZero(a: real)
    ensures Times(a, 0.0) == 0.0
  {
  }

  lemma Scale(mean: real, w: real, s: real, t: real, share: real)
    requires mean * w == s && t == share * w
    ensures mean * t == share * s
  {
    assert mean * (share * w) == share * (mean * w);
  }

  lemma AddScaled(x: real, a: real, y: real, b: real, share: real)
    requires x == Times(share, a) && y == Times(share, b)
    ensures x + y == Times(share, a + b)
  {
  }

  lemma Cancel(a: real, b: real, c: real)
    requires a != 0.0 && b * a == c * a
    ensures b == c
  {
  }

  /** The rollup of rows weighs in as the rows themselves would, times share. */
  ghost predicate AddsScaled(r: Bucket, rows: seq<Bucket>, k: string, share: real) {
    Added(r, k) == Times(share, WeightedSum(rows, k))
        && AddedWeight(r, k) as real == Times(share, Carried(rows, k) as real)
  }

  ghost predicate AllAddScaled(rolled: seq<Bucket>, parts: seq<seq<Bucket>>, k: string, share: real) {
    |rolled| == |parts| && forall i :: 0 <= i < |parts| ==> AddsScaled(rolled[i], parts[i], k, share)
  }

  lemma RolledPartAdds(r: Bucket, rows: seq<Bucket>, k: string, share: real)
    requires Merged(r, rows, k) && r.samples == Total(rows) && !IsPeakField(k) && k != UNAVAILABLE
    requires Present(rows, k) ==> ShareIs(rows, k, share)
    ensures AddsScaled(r, rows, k, share)
  {
    Carriers(rows, k);
    hide Total;
    hide Carried;
    hide WeightedSum;
    hide TopPeak;
    hide Present;
    if Present(rows, k) {
      Scale(r.data[k], Carried(rows, k) as real, WeightedSum(rows, k), Total(rows) as real, share);
    } else {
      TimesZero(share);
    }
  }

  lemma {:induction false} StagedSum(rolled: seq<Bucket>, parts: seq<seq<Bucket>>, k: string, share: real)
    requires AllAddScaled(rolled, parts, k, share)
    ensures WeightedSum(rolled, k) == Times(share, WeightedSum(Flat(parts), k))
    ensures Carried(rolled, k) as real == Times(share, Carried(Flat(parts), k) as real)
  {
    TimesZero(share);
    hide Times;
    if parts != [] {
      var init, last := parts[..|parts| - 1], parts[|parts| - 1];
      var before, r := rolled[..|rolled| - 1], rolled[|rolled| - 1];
      assert AddsScaled(r, last, k, share);
      StagedSum(before, init, k, share);
      Concat(Flat(init), last, k);
      AddScaled(WeightedSum(before, k), WeightedSum(Flat(init), k), Added(r, k), WeightedSum(last, k), share);
      AddScaled(Carried(before, k) as real, Carried(Flat(init), k) as real, AddedWeight(r, k) as real,
                Carried(last, k) as real, share);
    }
  }

  lemma CrossShare(v: int, u: int, w: int, t: int) returns (share: real)
    requires v * t == w * u && w > 0 && t > 0
    ensures share == t as real / w as real && share > 0.0 && u as real == share * v as real
  {
    share := t as real / w as real;
    assert share * w as real == t as real;
    assert v as real * t as real == (v * t) as real && w as real * u as real == (w * u) as real;
    assert v as real * (share * w as real) == (share * v as real) * w as real;
    Cancel(w as real, u as real, share * v as real);
  }

  lemma ShareOf(parts: seq<seq<Bucket>>, k: string) returns (share: real)
    requires SameShare(parts, k)
    ensures share > 0.0 && HasShare(parts, k, share)
  {
    share := 1.0;
    if j :| 0 <= j < |parts| && Present(parts[j], k) {
      forall i | 0 <= i < |parts| ensures Present(parts[i], k) ==> Carried(parts[i], k) > 0 && Total(parts[i]) > 0 {
        Carriers(parts[i], k);
      }
      hide Total;
      hide Carried;
      hide Present;
      share := CrossShare(Carried(parts[j], k), Total(parts[j]), Carried(parts[j], k), Total(parts[j]));
      forall i | 0 <= i < |parts| && Present(parts[i], k) ensures ShareIs(parts[i], k, share) {
        var same := CrossShare(Carried(parts[i], k), Total(parts[i]), Carried(parts[j], k), Total(parts[j]));
      }
    }
  }

  lemma SameMean(direct: real, staged: real, s: real, w: int, s': real, w': int, share: real)
    requires IsMean(direct, s, w) && IsMean(staged, s', w')
    requires s' == Times(share, s) && w' as real == Times(share, w as real)
    ensures staged == direct
  {
    Scale(direct, w as real, s, w' as real, share);
    Cancel(w' as real, staged, direct);
  }

  /** An average survives staging when the parts that carry the field carry it on the same
      share of their samples: in particular when every row carries it. */
  lemma AveragesCompose(direct: Bucket, staged: Bucket, rolled: seq<Bucket>, parts: seq<seq<Bucket>>, k: string)
    requires Staging(direct, staged, rolled, parts) && !IsPeakField(k) && k != UNAVAILABLE && SameShare(parts, k)
    ensures k in staged.data <==> k in direct.data
    ensures k in direct.data ==> staged.data[k] == direct.data[k]
  {
    PeaksCompose(direct, staged, rolled, parts, k);
    InOneOrder(direct, staged, rolled, parts);
    if k in direct.data {
      var share := ShareOf(parts, k);
      hide Times;
      hide IsMean;
      hide WeightedSum;
      hide HasShare;
      AllPartsAdd(rolled, parts, k, share);
      hide AllAddScaled;
      StagedSum(rolled, parts, k, share);
      MeansAgree(direct, staged, Flat(parts), rolled, k, share);
    }
  }

  lemma AllPartsAdd(rolled: seq<Bucket>, parts: seq<seq<Bucket>>, k: string, share: real)
    requires RolledParts(rolled, parts) && !IsPeakField(k) && k != UNAVAILABLE && HasShare(parts, k, share)
    ensures AllAddScaled(rolled, parts, k, share)
  {
    hide AddsScaled;
    hide Merged;
    hide Present;
    forall i | 0 <= i < |parts| ensures AddsScaled(rolled[i], parts[i], k, share) {
      assert Merged(rolled[i], parts[i], k);
      RolledPartAdds(rolled[i], parts[i], k, share);
    }
  }

  lemma MeansAgree(direct: Bucket, staged: Bucket, rows: seq<Bucket>, rolled: seq<Bucket>, k: string, share: real)
    requires Merged(direct, rows, k) && Merged(staged, rolled, k) && k in direct.data && k in staged.data
    requires WeightedSum(rolled, k) == Times(share, WeightedSum(rows, k))
    requires Divisor(rolled, k) as real == Times(share, Divisor(rows, k) as real)
    ensures staged.data[k] == direct.data[k]
  {
    hide Times;
    hide IsMean;
    hide WeightedSum;
    SameMean(direct.data[k], staged.data[k], WeightedSum(rows, k), Divisor(rows, k), WeightedSum(rolled, k),
             Divisor(rolled, k), share);
  }

  lemma CarriedByAll(parts: seq<seq<Bucket>>, k: string)
    requires forall i, j :: 0 <= i < |parts| && 0 <= j < |parts[i]| ==> Carries(parts[i][j], k)
    ensures SameShare(parts, k)
  {
    forall i | 0 <= i < |parts| ensures Carried(parts[i], k) == Total(parts[i]) { AllCarry(parts[i], k); }
  }

  lemma {:induction false} AllCarry(rows: seq<Bucket>, k: string)
    requires forall j :: 0 <= j < |rows| ==> Carries(rows[j], k)
    ensures Carried(rows, k) == Total(rows)
  {
    if rows != [] { AllCarry(rows[..|rows| - 1], k); }
  }

  lemma RolledFlagAdds(r: Bucket, rows: seq<Bucket>)
    requires Merged(r, rows, UNAVAILABLE) && r.samples == Total(rows)
    ensures Added(r, UNAVAILABLE) == WeightedSum(rows, UNAVAILABLE)
  {
    Carriers(rows, UNAVAILABLE);
  }

  lemma {:induction false} StagedFlag(rolled: seq<Bucket>, parts: seq<seq<Bucket>>)
    requires RolledParts(rolled, parts)
    ensures WeightedSum(rolled, UNAVAILABLE) == WeightedSum(Flat(parts), UNAVAILABLE)
  {
    if parts != [] {
      var init, last := parts[..|parts| - 1], parts[|parts| - 1];
      SumSnoc(rolled, UNAVAILABLE);
      hide WeightedSum;
      hide Added;
      hide IsMean;
      RolledInit(rolled, parts);
      StagedFlag(rolled[..|rolled| - 1], init);
      Concat(Flat(init), last, UNAVAILABLE);
      RolledFlagAdds(rolled[|rolled| - 1], last);
    }
  }

  /** The unavailable share of a bucket is the same whichever rows report it, exactly when no
      part is empty or no row's flag weighs in at all. */
  lemma FlagComposes(direct: Bucket, staged: Bucket, rolled: seq<Bucket>, parts: seq<seq<Bucket>>)
    requires Staging(direct, staged, rolled, parts)
    ensures UNAVAILABLE in staged.data <==> UNAVAILABLE in direct.data
    ensures UNAVAILABLE in direct.data ==>
              (staged.data[UNAVAILABLE] == direct.data[UNAVAILABLE]
               <==> (forall i :: 0 <= i < |parts| ==> parts[i] != []) || WeightedSum(Flat(parts), UNAVAILABLE) == 0.0)
  {
    PeaksCompose(direct, staged, rolled, parts, UNAVAILABLE);
    InOneOrder(direct, staged, rolled, parts);
    StagedTotal(rolled, parts);
    SomeEmpty(parts);
    StagedFlag(rolled, parts);
    if UNAVAILABLE in direct.data {
      assert Merged(direct, Flat(parts), UNAVAILABLE) && Merged(staged, rolled, UNAVAILABLE);
      hide IsMean;
      hide WeightedSum;
      TwoMeans(direct.data[UNAVAILABLE], staged.data[UNAVAILABLE], WeightedSum(Flat(parts), UNAVAILABLE),
               Total(Flat(parts)), Total(rolled));
    }
  }

  /** One sum over two divisors. */
  lemma TwoMeans(m: real, n: real, sum: real, d: int, e: int)
    requires IsMean(m, sum, d) && IsMean(n, sum, e)
    ensures n == m <==> d == e || sum == 0.0
  {
    if n == m {
      assert m * (e - d) as real == 0.0;
      if d != e { Cancel((e - d) as real, m, 0.0); }
    } else if d == e {
      Cancel(d as real, n, m);
    } else if sum == 0.0 {
      Cancel(d as real, m, 0.0);
      Cancel(e as real, n, 0.0);
    }
  }

  // ---- The condition is needed ----

  /** Rows like these, but with x as the value of k where they carry it. */
  function MarkRows(rows: seq<Bucket>, k: string, x: real): seq<Bucket> {
    seq(|rows|, i requires 0 <= i < |rows| =>
      if Carries(rows[i], k) then rows[i].(data := rows[i].data[k := x]) else rows[i])
  }

  /** The same parts with k at 1 throughout part j and 0 elsewhere. */
  function Marked(parts: seq<seq<Bucket>>, k: string, j: nat): seq<seq<Bucket>> {
    seq(|parts|, i requires 0 <= i < |parts| => MarkRows(parts[i], k, if i == j then 1.0 else 0.0))
  }

  lemma {:induction false} MarkedRows(rows: seq<Bucket>, k: string, x: real)
    ensures Total(MarkRows(rows, k, x)) == Total(rows) && Carried(MarkRows(rows, k, x), k) == Carried(rows, k)
    ensures WeightedSum(MarkRows(rows, k, x), k) == Times(x, Carried(rows, k) as real)
  {
    var marked := MarkRows(rows, k, x);
    SumSnoc(rows, k);
    SumSnoc(marked, k);
    if rows == [] {
      TimesZero(x);
    } else {
      var init, r := rows[..|rows| - 1], rows[|rows| - 1];
      assert marked[..|marked| - 1] == MarkRows(init, k, x);
      var q := marked[|marked| - 1];
      MarkedRow(r, q, k, x);
      hide *;
      MarkedRows(init, k, x);
      AddScaled(WeightedSum(MarkRows(init, k, x), k), Carried(init, k) as real, Added(q, k),
                AddedWeight(r, k) as real, x);
    }
  }

  lemma MarkedRow(r: Bucket, q: Bucket, k: string, x: real)
    requires q == if Carries(r, k) then r.(data := r.data[k := x]) else r
    ensures Weight(q) == Weight(r) && AddedWeight(q, k) == AddedWeight(r, k)
    ensures Added(q, k) == Times(x, AddedWeight(r, k) as real)
  {
    if !Carries(r, k) { TimesZero(x); }
  }

  lemma MarkedAt(parts: seq<seq<Bucket>>, k: string, j: nat, i: nat)
    requires i < |parts|
    ensures |Marked(parts, k, j)| == |parts|
    ensures Marked(parts, k, j)[i] == MarkRows(parts[i], k, if i == j then 1.0 else 0.0)
  {
  }

  lemma NothingCarried(parts: seq<seq<Bucket>>, rows: seq<Bucket>, k: string)
    ensures WeightedSum(Flat(parts[..0]), k) == 0.0
    ensures Carried(Flat(parts[..0]), k) == 0 && CarryingTotal(parts[..0], k) == 0
    ensures WeightedSum(rows[..0], k) == 0.0 && Carried(rows[..0], k) == 0
  {
  }

  lemma {:induction false} MarkedFlat(parts: seq<seq<Bucket>>, k: string, j: nat, n: nat)
    requires n <= |parts| && j < |parts|
    ensures WeightedSum(Flat(Marked(parts, k, j)[..n]), k) == if j < n then Carried(parts[j], k) as real else 0.0
    ensures Carried(Flat(Marked(parts, k, j)[..n]), k) == Carried(Flat(parts[..n]), k)
  {
    hide *;
    var m := Marked(parts, k, j);
    if n == 0 {
      NothingCarried(parts, [], k);
      NothingCarried(m, [], k);
    } else {
      var x := if n - 1 == j then 1.0 else 0.0;
      MarkedFlat(parts, k, j, n - 1);
      MarkedAt(parts, k, j, n - 1);
      MarkedRows(parts[n - 1], k, x);
      OneOrZero(x, Carried(parts[n - 1], k) as real);
      FlatPrefix(m, n, k);
      FlatPrefix(parts, n, k);
    }
  }

  lemma RolledPartAt(rolled: seq<Bucket>, parts: seq<seq<Bucket>>, i: nat)
    requires RolledParts(rolled, parts) && i < |parts|
    ensures |rolled| == |parts| && IsRollup(rolled[i], rolled[i].start, parts[i])
  {
  }

  lemma MarkedPartAt(rolled: seq<Bucket>, parts: seq<seq<Bucket>>, k: string, j: nat, i: nat)
    requires RolledParts(rolled, Marked(parts, k, j)) && !IsPeakField(k) && k != UNAVAILABLE && i < |parts|
    ensures |rolled| == |parts|
    ensures Added(rolled[i], k) == if i == j && Present(parts[i], k) then Total(parts[i]) as real else 0.0
    ensures AddedWeight(rolled[i], k) == if Carried(parts[i], k) > 0 then Total(parts[i]) else 0
  {
    hide *;
    MarkedAt(parts, k, j, i);
    RolledPartAt(rolled, Marked(parts, k, j), i);
    MarkedPart(rolled[i], parts[i], k, if i == j then 1.0 else 0.0);
  }

  lemma {:induction false} MarkedStaged(rolled: seq<Bucket>, parts: seq<seq<Bucket>>, k: string, j: nat, n: nat)
    requires RolledParts(rolled, Marked(parts, k, j)) && !IsPeakField(k)
    requires k != UNAVAILABLE && n <= |parts| && j < |parts|
    ensures n <= |rolled|
    ensures WeightedSum(rolled[..n], k) == if j < n && Present(parts[j], k) then Total(parts[j]) as real else 0.0
    ensures Carried(rolled[..n], k) == CarryingTotal(parts[..n], k)
  {
    hide *;
    if n == 0 {
      NothingCarried(parts, rolled, k);
    } else {
      MarkedPartAt(rolled, parts, k, j, n - 1);
      MarkedStaged(rolled, parts, k, j, n - 1);
      LastOfPrefix(rolled, n, k);
      CarryingPrefix(parts, n, k);
    }
  }

  lemma LastOfPrefix(rows: seq<Bucket>, n: nat, k: string)
    requires 0 < n <= |rows|
    ensures WeightedSum(rows[..n], k) == WeightedSum(rows[..n - 1], k) + Added(rows[n - 1], k)
    ensures Carried(rows[..n], k) == Carried(rows[..n - 1], k) + AddedWeight(rows[n - 1], k)
  {
    SumSnoc(rows[..n], k);
    assert rows[..n][..n - 1] == rows[..n - 1];
  }

  lemma CarryingPrefix(parts: seq<seq<Bucket>>, n: nat, k: string)
    requires 0 < n <= |parts|
    ensures var last := parts[n - 1];
            CarryingTotal(parts[..n], k) == CarryingTotal(parts[..n - 1], k)
            + if Carried(last, k) > 0 then Total(last) else 0
  {
    assert parts[..n][..n - 1] == parts[..n - 1];
  }

  lemma FlatPrefix(parts: seq<seq<Bucket>>, n: nat, k: string)
    requires 0 < n <= |parts|
    ensures WeightedSum(Flat(parts[..n]), k) == WeightedSum(Flat(parts[..n - 1]), k) + WeightedSum(parts[n - 1], k)
    ensures Carried(Flat(parts[..n]), k) == Carried(Flat(parts[..n - 1]), k) + Carried(parts[n - 1], k)
  {
    assert parts[..n][..n - 1] == parts[..n - 1];
    assert Flat(parts[..n]) == Flat(parts[..n - 1]) + parts[n - 1];
    hide *;
    Concat(Flat(parts[..n - 1]), parts[n - 1], k);
  }

  /** The samples of the parts that carry k, each counted whole: what staging divides by. */
  function CarryingTotal(parts: seq<seq<Bucket>>, k: string): int {
    if parts == [] then 0 else
      var last := parts[|parts| - 1];
      CarryingTotal(parts[..|parts| - 1], k) + if Carried(last, k) > 0 then Total(last) else 0
  }

  lemma MarkedPart(r: Bucket, rows: seq<Bucket>, k: string, x: real)
    requires IsRollup(r, r.start, MarkRows(rows, k, x)) && !IsPeakField(k) && k != UNAVAILABLE && (x == 0.0 || x == 1.0)
    ensures WeightedSum(MarkRows(rows, k, x), k) == if x == 1.0 then Carried(rows, k) as real else 0.0
    ensures Carried(MarkRows(rows, k, x), k) == Carried(rows, k)
    ensures Added(r, k) == if x == 1.0 && Present(rows, k) then Total(rows) as real else 0.0
    ensures AddedWeight(r, k) == if Carried(rows, k) > 0 then Total(rows) else 0
  {
    var marked := MarkRows(rows, k, x);
    MarkedRows(rows, k, x);
    Carriers(rows, k);
    Carriers(marked, k);
    assert Merged(r, marked, k);
    hide WeightedSum;
    OneOrZero(x, Carried(rows, k) as real);
    OneOrZero(x, Total(rows) as real);
    if Present(marked, k) {
      MeanOfMarked(r.data[k], Carried(rows, k), x);
    }
  }

  lemma OneOrZero(x: real, y: real)
    requires x == 0.0 || x == 1.0
    ensures Times(x, y) == x * y == if x == 1.0 then y else 0.0
  {
  }

  lemma MeanOfMarked(mean: real, w: int, x: real)
    requires IsMean(mean, Times(x, w as real), w)
    ensures mean == x
  {
    Cancel(w as real, mean, x);
  }

  /** Were every assignment of values to k to average alike, staged or not, the parts that
      carry k would carry it on the same share of their samples. */
  lemma AveragesNeedSameShare(parts: seq<seq<Bucket>>, k: string)
    requires !IsPeakField(k) && k != UNAVAILABLE
    requires forall j :: 0 <= j < |parts| ==> ComposesOn(Marked(parts, k, j), k)
    ensures SameShare(parts, k)
  {
    forall i, j | 0 <= i < |parts| && 0 <= j < |parts| && Present(parts[i], k) && Present(parts[j], k)
      ensures Carried(parts[i], k) * Total(parts[j]) == Carried(parts[j], k) * Total(parts[i])
    {
      var w, t := Carried(Flat(parts), k), CarryingTotal(parts, k);
      MarkedRatio(parts, k, i);
      MarkedRatio(parts, k, j);
      Cross(Carried(parts[i], k), Total(parts[i]), Carried(parts[j], k), Total(parts[j]), w, t);
    }
  }

  /** Staging these parts gives k the average a direct rollup gives it. */
  ghost predicate ComposesOn(parts: seq<seq<Bucket>>, k: string) {
    forall direct: Bucket, staged: Bucket, rolled :: Staging(direct, staged, rolled, parts) ==>
      (k in staged.data <==> k in direct.data) && (k in direct.data ==> staged.data[k] == direct.data[k])
  }

  ghost function FieldsOf(rows: seq<Bucket>): set<string> {
    if rows == [] then {} else
      FieldsOf(rows[..|rows| - 1]) + set k | k in rows[|rows| - 1].data && !IsPeakField(k)
  }

  lemma {:induction false} FieldsAreThePresent(rows: seq<Bucket>, k: string)
    ensures k in FieldsOf(rows) <==> Present(rows, k)
  {
    if rows != [] {
      assert rows == rows[..|rows| - 1] + [rows[|rows| - 1]];
      FieldsAreThePresent(rows[..|rows| - 1], k);
      PresentSnoc(rows[..|rows| - 1], rows[|rows| - 1], k);
    }
  }

  /** The row Rollup makes of rows. */
  ghost function RollupOf(rows: seq<Bucket>): Bucket {
    var fields := FieldsOf(rows);
    var peaks := set k | k in fields :: PeakField(k);
    Bucket(0, Total(rows), map f | f in fields + peaks ::
      if IsPeakField(f) then PeakValue(rows, f[..|f| - 4]) else Average(rows, f))
  }

  lemma RollupOfMerges(rows: seq<Bucket>, k: string)
    requires !IsPeakField(k)
    ensures Merged(RollupOf(rows), rows, k)
  {
    var b := RollupOf(rows);
    var fields := FieldsOf(rows);
    FieldsAreThePresent(rows, k);
    FieldsAreThePresent(rows, PeakField(k));
    Carriers(rows, k);
    PeakFields(k);
    assert PeakField(k)[..|PeakField(k)| - 4] == k;
    assert PeakField(k) !in fields;
    assert k in b.data <==> k in fields;
    assert PeakField(k) in b.data <==> k in fields;
    if k in fields { Divided(WeightedSum(rows, k), Divisor(rows, k)); }
  }

  lemma RollupOfIs(rows: seq<Bucket>)
    ensures IsRollup(RollupOf(rows), 0, rows)
  {
    var b := RollupOf(rows);
    forall k | !IsPeakField(k) ensures Merged(b, rows, k) { RollupOfMerges(rows, k); }
    forall f | f in b.data && IsPeakField(f) ensures exists k :: !IsPeakField(k) && f == PeakField(k) {
      if f in FieldsOf(rows) { FieldsAreThePresent(rows, f); }
      var k :| k in FieldsOf(rows) && f == PeakField(k);
      FieldsAreThePresent(rows, k);
    }
  }

  function PeakValue(rows: seq<Bucket>, k: string): real { match TopPeak(rows, k) case None => 0.0 case Some(x) => x }

  function Average(rows: seq<Bucket>, k: string): real {
    if Divisor(rows, k) > 0 then WeightedSum(rows, k) / Divisor(rows, k) as real else 0.0
  }

  /** The rollups of the parts, and both ways of rolling them up. */
  ghost function RolledUp(parts: seq<seq<Bucket>>): seq<Bucket> {
    seq(|parts|, i requires 0 <= i < |parts| => RollupOf(parts[i]))
  }

  lemma RolledUpStages(parts: seq<seq<Bucket>>)
    ensures Staging(RollupOf(Flat(parts)), RollupOf(RolledUp(parts)), RolledUp(parts), parts)
    ensures RolledParts(RolledUp(parts), parts) && |RolledUp(parts)| == |parts|
    ensures IsRollup(RollupOf(Flat(parts)), 0, Flat(parts)) && IsRollup(RollupOf(RolledUp(parts)), 0, RolledUp(parts))
  {
    var rolled := RolledUp(parts);
    hide IsRollup;
    forall i | 0 <= i < |parts| ensures IsRollup(rolled[i], rolled[i].start, parts[i]) { RollupOfIs(parts[i]); }
    RollupOfIs(Flat(parts));
    RollupOfIs(rolled);
    AnyOrder(RollupOf(Flat(parts)), Flat(parts));
    AnyOrder(RollupOf(rolled), rolled);
  }

  lemma MarkedRatio(parts: seq<seq<Bucket>>, k: string, j: nat)
    requires !IsPeakField(k) && k != UNAVAILABLE && j < |parts|
    requires Present(parts[j], k) && ComposesOn(Marked(parts, k, j), k)
    ensures Carried(parts[j], k) * CarryingTotal(parts, k) == Total(parts[j]) * Carried(Flat(parts), k)
    ensures CarryingTotal(parts, k) > 0
  {
    hide *;
    var m := Marked(parts, k, j);
    var rolled := RolledUp(m);
    MarkedAt(parts, k, j, j);
    RolledUpStages(m);
    StagedMeans(m, k);
    MarkedFlat(parts, k, j, |parts|);
    MarkedStaged(rolled, parts, k, j, |parts|);
    assert m[..|parts|] == m && parts[..|parts|] == parts && rolled[..|parts|] == rolled;
    CarriedPart(parts, k, j);
    MeansRatio(RollupOf(Flat(m)), RollupOf(rolled), Flat(m), rolled, k, Carried(parts[j], k), Total(parts[j]));
  }

  lemma StagedMeans(parts: seq<seq<Bucket>>, k: string)
    requires !IsPeakField(k) && ComposesOn(parts, k)
    ensures var direct, staged := RollupOf(Flat(parts)), RollupOf(RolledUp(parts));
            && Merged(direct, Flat(parts), k) && Merged(staged, RolledUp(parts), k)
            && (k in direct.data && k in staged.data ==> staged.data[k] == direct.data[k])
  {
    RolledUpStages(parts);
    hide Merged;
    hide Staging;
    hide RollupOf;
  }

  lemma MeansRatio(direct: Bucket, staged: Bucket, rows: seq<Bucket>, rolled: seq<Bucket>, k: string, a: int, u: int)
    requires Merged(direct, rows, k) && Merged(staged, rolled, k)
    requires k != UNAVAILABLE && Carried(rows, k) > 0 && Carried(rolled, k) > 0
    requires WeightedSum(rows, k) == a as real && WeightedSum(rolled, k) == u as real
    requires k in direct.data && k in staged.data ==> staged.data[k] == direct.data[k]
    ensures a * Carried(rolled, k) == u * Carried(rows, k)
  {
    Carriers(rows, k);
    Carriers(rolled, k);
    hide IsMean;
    hide WeightedSum;
    EqualMeans(direct.data[k], a, u, Carried(rows, k), Carried(rolled, k));
  }

  lemma {:induction false} CarriedPart(parts: seq<seq<Bucket>>, k: string, j: nat)
    requires j < |parts| && Present(parts[j], k)
    ensures Carried(Flat(parts), k) > 0 && CarryingTotal(parts, k) > 0
  {
    var init, last := parts[..|parts| - 1], parts[|parts| - 1];
    Concat(Flat(init), last, k);
    Carriers(last, k);
    Carriers(Flat(init), k);
    if j < |init| { CarriedPart(init, k, j); } else { CarryingNonNegative(init, k); }
  }

  lemma {:induction false} CarryingNonNegative(parts: seq<seq<Bucket>>, k: string)
    ensures CarryingTotal(parts, k) >= 0
  {
    if parts != [] {
      CarryingNonNegative(parts[..|parts| - 1], k);
      Carriers(parts[|parts| - 1], k);
    }
  }

  lemma EqualMeans(mean: real, a: int, u: int, w: int, t: int)
    requires IsMean(mean, a as real, w) && IsMean(mean, u as real, t)
    ensures a * t == u * w
  {
    assert (mean * w as real) * t as real == (mean * t as real) * w as real;
    assert (a * t) as real == a as real * t as real && (u * w) as real == u as real * w as real;
  }

  lemma Cross(a: int, u: int, b: int, v: int, w: int, t: int)
    requires a * t == u * w && b * t == v * w && t > 0
    ensures a * v == b * u
  {
    calc { (a * v) * t; (a * t) * v; (u * w) * v; (v * w) * u; (b * t) * u; (b * u) * t; }
  }

  /** The same rows carrying k with the same sample counts; the values may differ. */
  ghost predicate Revalued(parts: seq<seq<Bucket>>, qs: seq<seq<Bucket>>, k: string) {
    |qs| == |parts| && forall i :: 0 <= i < |parts| ==> SameShape(parts[i], qs[i], k)
  }

  ghost predicate SameShape(rows: seq<Bucket>, qs: seq<Bucket>, k: string) {
    |qs| == |rows| && forall i :: 0 <= i < |rows| ==>
        qs[i].samples == rows[i].samples && (Carries(qs[i], k) <==> Carries(rows[i], k))
  }

  lemma {:induction false} ShapeSums(rows: seq<Bucket>, qs: seq<Bucket>, k: string)
    requires SameShape(rows, qs, k)
    ensures Total(qs) == Total(rows) && Carried(qs, k) == Carried(rows, k)
  {
    if rows != [] { ShapeSums(rows[..|rows| - 1], qs[..|qs| - 1], k); }
  }

  lemma ShapeKeepsShare(parts: seq<seq<Bucket>>, qs: seq<seq<Bucket>>, k: string)
    requires Revalued(parts, qs, k) && SameShare(parts, k)
    ensures SameShare(qs, k)
  {
    forall i | 0 <= i < |parts|
      ensures Total(qs[i]) == Total(parts[i]) && Carried(qs[i], k) == Carried(parts[i], k)
      ensures (Present(qs[i], k) <==> Present(parts[i], k))
    {
      ShapeSums(parts[i], qs[i], k);
      Carriers(parts[i], k);
      Carriers(qs[i], k);
    }
  }

  /** Staging keeps k's average whatever its values exactly when the parts that carry k carry
      it on the same share of their samples. */
  lemma AveragesComposeIff(parts: seq<seq<Bucket>>, k: string)
    requires !IsPeakField(k) && k != UNAVAILABLE
    ensures (forall qs :: Revalued(parts, qs, k) ==> ComposesOn(qs, k)) <==> SameShare(parts, k)
  {
    if SameShare(parts, k) {
      forall qs | Revalued(parts, qs, k) ensures ComposesOn(qs, k) {
        ShapeKeepsShare(parts, qs, k);
        forall direct: Bucket, staged: Bucket, rolled | Staging(direct, staged, rolled, qs)
          ensures (k in staged.data <==> k in direct.data) && (k in direct.data ==> staged.data[k] == direct.data[k])
        {
          AveragesCompose(direct, staged, rolled, qs, k);
        }
      }
    }
    if forall qs :: Revalued(parts, qs, k) ==> ComposesOn(qs, k) {
      forall j: nat | j < |parts| ensures ComposesOn(Marked(parts, k, j), k) {
        assert Revalued(parts, Marked(parts, k, j), k);
      }
      AveragesNeedSameShare(parts, k);
    }
  }

  // ---- Averages and peaks ----

  ghost predicate BelowPeak(r: Bucket, k: string) { Carries(r, k) ==> r.data[k] <= Peak(r, k) }

  lemma {:induction false} SumBelowPeak(rows: seq<Bucket>, k: string, top: real)
    requires AllBelowPeak(rows, k)
    requires match TopPeak(rows, k) case None => true case Some(x) => x <= top
    ensures WeightedSum(rows, k) <= Times(top, Carried(rows, k) as real)
  {
    SumSnoc(rows, k);
    TimesZero(top);
    hide Times;
    hide WeightedSum;
    if rows != [] {
      var init, r := rows[..|rows| - 1], rows[|rows| - 1];
      SumBelowPeak(init, k, top);
      AddedBelow(r, k, top);
      AddScaled(Times(top, Carried(init, k) as real), Carried(init, k) as real,
                Times(top, AddedWeight(r, k) as real), AddedWeight(r, k) as real, top);
    }
  }

  lemma AddedBelow(r: Bucket, k: string, top: real)
    requires Carries(r, k) ==> r.data[k] <= top
    ensures Added(r, k) <= Times(top, AddedWeight(r, k) as real)
  {
    if Carries(r, k) { Monotone(r.data[k], top, Weight(r) as real); } else { TimesZero(top); }
  }

  lemma Monotone(x: real, y: real, w: real)
    requires x <= y && w > 0.0
    ensures x * w <= y * w
  {
  }

  lemma MeanBelow(mean: real, sum: real, divisor: int, top: real)
    requires IsMean(mean, sum, divisor) && sum <= Times(top, divisor as real)
    ensures mean <= top
  {
    if mean > top { StrictlyAbove(mean, top, divisor as real); }
  }

  lemma StrictlyAbove(x: real, y: real, w: real)
    requires x > y && w > 0.0
    ensures x * w > y * w
  {
  }

  ghost predicate AllBelowPeak(rows: seq<Bucket>, k: string) { forall i :: 0 <= i < |rows| ==> BelowPeak(rows[i], k) }

  /** Every average is at most its peak when each row's value is at most its own, so the
      property climbs from tier to tier. The flag's missing rows count 0, so for the flag this
      holds where every row, or none, reports it, or some report has a peak not below 0. */
  lemma AverageBelowPeak(b: Bucket, rows: seq<Bucket>, k: string)
    requires IsRollup(b, b.start, rows) && !IsPeakField(k) && AllBelowPeak(rows, k)
    requires k == UNAVAILABLE ==> AllOrNone(rows) || SomePeakNotNegative(rows)
    ensures BelowPeak(b, k)
  {
    assert Merged(b, rows, k);
    Carriers(rows, k);
    CarriedWhole(rows, k);
    hide Times;
    hide IsMean;
    hide WeightedSum;
    if k in b.data {
      var top := b.data[PeakField(k)];
      SumBelowPeak(rows, k, top);
      if k == UNAVAILABLE && !AllOrNone(rows) {
        var i :| 0 <= i < |rows| && Carries(rows[i], k) && Peak(rows[i], k) >= 0.0;
        TopPeakCovers(rows, k, i);
        WiderProduct(top, Carried(rows, k), Total(rows));
      }
      MeanBelow(b.data[k], WeightedSum(rows, k), Divisor(rows, k), top);
    }
  }

  ghost predicate SomePeakNotNegative(rows: seq<Bucket>) {
    exists i :: 0 <= i < |rows| && Carries(rows[i], UNAVAILABLE) && Peak(rows[i], UNAVAILABLE) >= 0.0
  }

  lemma {:induction false} TopPeakCovers(rows: seq<Bucket>, k: string, i: nat)
    requires i < |rows| && Carries(rows[i], k)
    ensures TopPeak(rows, k).Some? && TopPeak(rows, k).value >= Peak(rows[i], k)
  {
    if i < |rows| - 1 { TopPeakCovers(rows[..|rows| - 1], k, i); }
  }

  ghost predicate AllOrNone(rows: seq<Bucket>) {
    !Present(rows, UNAVAILABLE) || forall i :: 0 <= i < |rows| ==> Carries(rows[i], UNAVAILABLE)
  }

  lemma {:induction false} CarriedWhole(rows: seq<Bucket>, k: string)
    ensures Carried(rows, k) == Total(rows) <==> forall i :: 0 <= i < |rows| ==> Carries(rows[i], k)
  {
    if rows != [] {
      var init := rows[..|rows| - 1];
      assert forall i :: 0 <= i < |init| ==> init[i] == rows[i];
      CarriedWhole(init, k);
      Carriers(init, k);
    }
  }

  /** Every rollup of rows that report the flag where these do, each at most its peak, keeps the
      average at most the peak. */
  ghost predicate FlagStaysBelow(rows: seq<Bucket>) {
    forall qs, b: Bucket :: SameShape(rows, qs, UNAVAILABLE) && AllBelowPeak(qs, UNAVAILABLE)
        && IsRollup(b, b.start, qs)
      ==> BelowPeak(b, UNAVAILABLE)
  }

  /** These rows with -1 for the flag where they carry it. */
  function Negative(rows: seq<Bucket>): seq<Bucket> {
    seq(|rows|, i requires 0 <= i < |rows| =>
      rows[i].(data := if Carries(rows[i], UNAVAILABLE) then map[UNAVAILABLE := -1.0] else map[]))
  }

  lemma {:induction false} NegativeSums(rows: seq<Bucket>)
    ensures Total(Negative(rows)) == Total(rows) && Carried(Negative(rows), UNAVAILABLE) == Carried(rows, UNAVAILABLE)
    ensures WeightedSum(Negative(rows), UNAVAILABLE) == -Carried(rows, UNAVAILABLE) as real
    ensures TopPeak(Negative(rows), UNAVAILABLE) == if Carried(rows, UNAVAILABLE) > 0 then Some(-1.0) else None
  {
    SumSnoc(rows, UNAVAILABLE);
    SumSnoc(Negative(rows), UNAVAILABLE);
    if rows != [] {
      var init := rows[..|rows| - 1];
      assert Negative(rows)[..|rows| - 1] == Negative(init);
      NegativeSums(init);
      Carriers(init, UNAVAILABLE);
    }
  }

  lemma NegativeMean(mean: real, w: int, t: int)
    requires IsMean(mean, -w as real, t) && 0 < w < t
    ensures mean > -1.0
  {
    if mean <= -1.0 { Monotone(mean, -1.0, t as real); }
  }

  lemma NegativeRises(rows: seq<Bucket>, b: Bucket)
    requires IsRollup(b, b.start, Negative(rows)) && !AllOrNone(rows)
    ensures AllBelowPeak(Negative(rows), UNAVAILABLE) && !BelowPeak(b, UNAVAILABLE)
  {
    var qs := Negative(rows);
    assert Merged(b, qs, UNAVAILABLE);
    CarriedWhole(rows, UNAVAILABLE);
    Carriers(rows, UNAVAILABLE);
    NegativeSums(rows);
    AtNegativePeak(b, qs, Carried(rows, UNAVAILABLE), Total(rows));
  }

  lemma AtNegativePeak(b: Bucket, qs: seq<Bucket>, w: int, t: int)
    requires Merged(b, qs, UNAVAILABLE) && WeightedSum(qs, UNAVAILABLE) == -w as real && Total(qs) == t && 0 < w < t
    requires TopPeak(qs, UNAVAILABLE) == Some(-1.0)
    ensures !BelowPeak(b, UNAVAILABLE)
  {
    Carriers(qs, UNAVAILABLE);
    hide IsMean;
    hide WeightedSum;
    hide TopPeak;
    NegativeMean(b.data[UNAVAILABLE], w, t);
  }

  /** For the flag that is exactly where every row, or none, reports it: else reports of -1 come
      out above their peak. */
  lemma FlagBelowPeakIff(rows: seq<Bucket>)
    ensures FlagStaysBelow(rows) <==> AllOrNone(rows)
  {
    if AllOrNone(rows) {
      forall qs, b: Bucket | SameShape(rows, qs, UNAVAILABLE) && AllBelowPeak(qs, UNAVAILABLE)
          && IsRollup(b, b.start, qs)
        ensures BelowPeak(b, UNAVAILABLE)
      {
        SameShapeAllOrNone(rows, qs);
        hide *;
        AverageBelowPeak(b, qs, UNAVAILABLE);
      }
    } else {
      var qs := Negative(rows);
      var b := RollupOf(qs);
      assert SameShape(rows, qs, UNAVAILABLE);
      RollupOfIs(qs);
      assert b.start == 0;
      hide AllOrNone;
      hide SameShape;
      hide RollupOf;
      NegativeRises(rows, b);
    }
  }

  lemma SameShapeAllOrNone(rows: seq<Bucket>, qs: seq<Bucket>)
    requires SameShape(rows, qs, UNAVAILABLE) && AllOrNone(rows)
    ensures AllOrNone(qs)
  {
  }

  /** A report of the flag, as a sample makes it: not negative and at most its peak. */
  ghost predicate FairFlag(r: Bucket) {
    Carries(r, UNAVAILABLE) ==> 0.0 <= r.data[UNAVAILABLE] <= Peak(r, UNAVAILABLE)
  }

  /** Whichever rows report such a flag, the merged row reports such a flag: so it is on every tier. */
  lemma FairFlagClimbs(b: Bucket, rows: seq<Bucket>)
    requires IsRollup(b, b.start, rows) && forall i :: 0 <= i < |rows| ==> FairFlag(rows[i])
    ensures FairFlag(b)
  {
    var k := UNAVAILABLE;
    assert Merged(b, rows, k);
    Carriers(rows, k);
    hide Times;
    hide IsMean;
    hide WeightedSum;
    if k in b.data {
      var top := b.data[PeakField(k)];
      SumBelowPeak(rows, k, top);
      FairSum(rows);
      WiderProduct(top, Carried(rows, k), Total(rows));
      MeanBelow(b.data[k], WeightedSum(rows, k), Divisor(rows, k), top);
      MeanNotNegative(b.data[k], WeightedSum(rows, k), Divisor(rows, k));
    }
  }

  lemma {:induction false} FairSum(rows: seq<Bucket>)
    requires forall i :: 0 <= i < |rows| ==> FairFlag(rows[i])
    ensures WeightedSum(rows, UNAVAILABLE) >= 0.0
    ensures TopPeak(rows, UNAVAILABLE).Some? ==> TopPeak(rows, UNAVAILABLE).value >= 0.0
  {
    SumSnoc(rows, UNAVAILABLE);
    if rows != [] {
      var r := rows[|rows| - 1];
      assert FairFlag(r);
      FairSum(rows[..|rows| - 1]);
      if Carries(r, UNAVAILABLE) { NotNegativeProduct(r.data[UNAVAILABLE], Weight(r) as real); }
    }
  }

  lemma NotNegativeProduct(x: real, w: real)
    requires x >= 0.0 && w > 0.0
    ensures x * w >= 0.0
  {
  }

  lemma MeanNotNegative(mean: real, sum: real, divisor: int)
    requires IsMean(mean, sum, divisor) && sum >= 0.0
    ensures mean >= 0.0
  {
  }

  lemma WiderProduct(top: real, w: int, t: int)
    requires top >= 0.0 && 0 <= w <= t
    ensures Times(top, w as real) <= Times(top, t as real)
  {
  }

  // ---- Tiers ----

  const TIERS: seq<int> := [1, 10, 20, 120, 480]

  /** BucketStart of the tier of that many minutes. */
  function BucketStart(minutes: int, at: int): int
    requires minutes > 0
  {
    at - at % (minutes * 60)
  }

  /** A bucket starts at the multiple of its length that the instant lies behind. */
  lemma BucketStartIs(minutes: int, at: int, start: int)
    requires minutes > 0
    ensures start == BucketStart(minutes, at) <==> start % (minutes * 60) == 0 && start <= at < start + minutes * 60
  {
    var d := minutes * 60;
    assert (at - at % d) == d * (at / d);
    SameRemainder(at - at % d, d, at / d, 0);
    if start % d == 0 && start <= at < start + d {
      assert start == d * (start / d);
      SameRemainder(at, d, start / d, at - start);
    }
  }

  /** Down the chain of tiers, a row's bucket is its samples' bucket: taking the start of the
      finer bucket first changes nothing, so the coarse buckets part the samples. */
  lemma BucketsNest(i: nat, at: int)
    requires i + 1 < |TIERS|
    ensures TIERS[i] > 0 && TIERS[i + 1] > 0
    ensures BucketStart(TIERS[i + 1], BucketStart(TIERS[i], at)) == BucketStart(TIERS[i + 1], at)
    ensures BucketStart(TIERS[i + 1], at) <= BucketStart(TIERS[i], at) <= at
    ensures at < BucketStart(TIERS[i + 1], at) + TIERS[i + 1] * 60
  {
    match i {
      case 0 => Nest(60, 10, at);
      case 1 => Nest(600, 2, at);
      case 2 => Nest(1200, 6, at);
      case 3 => Nest(7200, 4, at);
    }
  }

  lemma Nest(fine: int, times: int, at: int)
    requires fine > 0 && times > 0
    ensures fine * times > 0
    ensures (at - at % fine) - (at - at % fine) % (fine * times) == at - at % (fine * times)
    ensures at % fine <= at % (fine * times)
  {
    var coarse := fine * times;
    assert coarse > 0;
    NestAt(at, fine, times, at / coarse, at % coarse / fine, at % coarse % fine);
  }

  lemma NestAt(at: int, fine: int, times: int, q: int, p: int, s: int)
    requires fine > 0 && times > 0 && fine * times > 0
    requires at == fine * times * q + (fine * p + s) && 0 <= s < fine && 0 <= fine * p + s < fine * times
    ensures at % fine == s && at % (fine * times) == fine * p + s
    ensures (at - s) % (fine * times) == fine * p && 0 <= fine * p
  {
    assert fine * times * q + fine * p == fine * (times * q + p);
    SameRemainder(at, fine, times * q + p, s);
    NotNegative(fine, p, s);
    SameRemainder(at, fine * times, q, fine * p + s);
    SameRemainder(at - s, fine * times, q, fine * p);
  }

  lemma NotNegative(d: int, p: int, s: int)
    requires 0 <= s < d && 0 <= d * p + s
    ensures 0 <= d * p
  {
    if p < 0 { AtLeast(d, -p); }
  }

  lemma SameRemainder(at: int, d: int, q: int, r: int)
    requires d > 0 && 0 <= r < d && at == d * q + r
    ensures at % d == r
  {
    var s := at % d;
    var n := at / d - q;
    assert d * n == r - s;
    if n >= 1 { AtLeast(d, n); }
    if n <= -1 { AtLeast(d, -n); }
  }

  lemma AtLeast(d: int, n: int)
    requires d > 0 && n >= 1
    ensures d * n >= d && d * -n <= -d
  {
  }
}
