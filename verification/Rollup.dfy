/** internal/domain/metrics/rollup.go and tier.go: merging stored rows into a coarser
    bucket, in exact arithmetic. Instants are seconds since the zero time. */
module Rollup {
  import opened Common

  const MAX_SUFFIX := "_max"
  const UNAVAILABLE := "unavailable"

  type Values = map<string, real>

  datatype Bucket = Bucket(start: int, samples: int, data: Values)

  predicate IsPeakField(k: string) { |k| >= 4 && k[|k| - 4..] == MAX_SUFFIX }

  function PeakField(k: string): string { k + MAX_SUFFIX }

  /** How many samples a row stands for: at least one. */
  function Weight(r: Bucket): int { if r.samples < 1 then 1 else r.samples }

  predicate Carries(r: Bucket, k: string) { k in r.data && !IsPeakField(k) }

  /** A row without a peak counts its value. */
  function Peak(r: Bucket, k: string): real
    requires k in r.data
  {
    if PeakField(k) in r.data then r.data[PeakField(k)] else r.data[k]
  }

  function Larger(m: Option<real>, x: real): Option<real> {
    match m case None => Some(x) case Some(y) => if x > y then Some(x) else m
  }

  // ---- What a rollup of rows amounts to ----

  function Total(rows: seq<Bucket>): int {
    if rows == [] then 0 else Total(rows[..|rows| - 1]) + Weight(rows[|rows| - 1])
  }

  /** The samples of the rows that carry k. */
  function Carried(rows: seq<Bucket>, k: string): int {
    if rows == [] then 0 else
      var r := rows[|rows| - 1];
      Carried(rows[..|rows| - 1], k) + if Carries(r, k) then Weight(r) else 0
  }

  function WeightedSum(rows: seq<Bucket>, k: string): real {
    if rows == [] then 0.0 else
      var r := rows[|rows| - 1];
      WeightedSum(rows[..|rows| - 1], k) + if Carries(r, k) then r.data[k] * Weight(r) as real else 0.0
  }

  /** The largest peak of k, if a row carries it. */
  function TopPeak(rows: seq<Bucket>, k: string): Option<real> {
    if rows == [] then None else
      var r := rows[|rows| - 1];
      var m := TopPeak(rows[..|rows| - 1], k);
      if Carries(r, k) then Larger(m, Peak(r, k)) else m
  }

  ghost predicate Present(rows: seq<Bucket>, k: string) { exists i :: 0 <= i < |rows| && Carries(rows[i], k) }

  /** What the sum is divided by: the flag field's absence means 0. */
  function Divisor(rows: seq<Bucket>, k: string): int { if k == UNAVAILABLE then Total(rows) else Carried(rows, k) }

  ghost predicate IsMean(mean: real, sum: real, divisor: int) { divisor > 0 && mean * divisor as real == sum }

  /** Field k of the merged row: there when a row carries it, its mean and its peak. */
  ghost predicate Merged(b: Bucket, rows: seq<Bucket>, k: string) {
    && (k in b.data <==> Present(rows, k)) && (PeakField(k) in b.data <==> Present(rows, k))
    && (Present(rows, k) ==> IsMean(b.data[k], WeightedSum(rows, k), Divisor(rows, k)))
    && (Present(rows, k) ==> TopPeak(rows, k) == Some(b.data[PeakField(k)]))
  }

  ghost predicate IsRollup(b: Bucket, start: int, rows: seq<Bucket>) {
    && b.start == start && b.samples == Total(rows)
    && (forall k :: !IsPeakField(k) ==> Merged(b, rows, k))
    && (forall f :: f in b.data && IsPeakField(f) ==> exists k :: !IsPeakField(k) && f == PeakField(k))
  }

  lemma {:induction false} Carriers(rows: seq<Bucket>, k: string)
    ensures Total(rows) >= |rows| && 0 <= Carried(rows, k) <= Total(rows)
    ensures Present(rows, k) <==> Carried(rows, k) > 0
    ensures Present(rows, k) <==> TopPeak(rows, k).Some?
    ensures !Present(rows, k) ==> WeightedSum(rows, k) == 0.0
  {
    if rows != [] {
      var init := rows[..|rows| - 1];
      Carriers(init, k);
      assert forall i :: 0 <= i < |init| ==> init[i] == rows[i];
      if Carries(rows[|rows| - 1], k) { assert Present(rows, k); }
      if i :| 0 <= i < |init| && Carries(init[i], k) { assert Carries(rows[i], k); }
    }
  }

  // ---- Rollup itself ----

  datatype Acc = Acc(sum: real, weight: int, max: Option<real>)

  const EMPTY_ACC := Acc(0.0, 0, None)

  function AccOf(rows: seq<Bucket>, k: string): Acc { Acc(WeightedSum(rows, k), Carried(rows, k), TopPeak(rows, k)) }

  ghost predicate Accumulated(accs: map<string, Acc>, rows: seq<Bucket>) {
    && (forall k :: k in accs <==> Present(rows, k))
    && (forall k :: k in accs ==> accs[k] == AccOf(rows, k))
  }

  /** Adding r's field k to what the rows before it came to. */
  function AccWith(a: Acc, r: Bucket, k: string): Acc
    requires k in r.data
  {
    Acc(a.sum + r.data[k] * Weight(r) as real, a.weight + Weight(r), Larger(a.max, Peak(r, k)))
  }

  lemma AccSnoc(rows: seq<Bucket>, r: Bucket, k: string)
    ensures AccOf(rows + [r], k) == if Carries(r, k) then AccWith(AccOf(rows, k), r, k) else AccOf(rows, k)
    ensures !Present(rows, k) ==> AccOf(rows, k) == EMPTY_ACC
  {
    assert (rows + [r])[..|rows|] == rows;
    Carriers(rows, k);
  }

  /** The fields of r outside rest have been added. */
  ghost predicate PartlyAdded(out: map<string, Acc>, accs: map<string, Acc>, r: Bucket, rest: set<string>) {
    && (forall k :: k in out <==> k in accs || (k !in rest && Carries(r, k)))
    && (forall k :: k in out ==>
          out[k] == if k in rest || !Carries(r, k) then accs[k]
                    else AccWith(if k in accs then accs[k] else EMPTY_ACC, r, k))
  }

  method AddRow(accs: map<string, Acc>, ghost rows: seq<Bucket>, r: Bucket) returns (out: map<string, Acc>)
    requires Accumulated(accs, rows)
    ensures Accumulated(out, rows + [r])
  {
    out := accs;
    var rest := r.data.Keys;
    assert PartlyAdded(out, accs, r, rest);
    hide PartlyAdded;
    hide Accumulated;
    hide AccWith;
    while rest != {}
      invariant rest <= r.data.Keys
      invariant PartlyAdded(out, accs, r, rest)
      decreases rest
    {
      var k :| k in rest;
      FieldAdded(out, accs, r, rest, k);
      if !IsPeakField(k) {
        out := out[k := AccWith(if k in out then out[k] else EMPTY_ACC, r, k)];
      }
      rest := rest - {k};
    }
    AllAdded(out, accs, rows, r);
  }

  lemma FieldAdded(out: map<string, Acc>, accs: map<string, Acc>, r: Bucket, rest: set<string>, k: string)
    requires PartlyAdded(out, accs, r, rest) && k in rest && rest <= r.data.Keys
    ensures IsPeakField(k) ==> PartlyAdded(out, accs, r, rest - {k})
    ensures !IsPeakField(k) ==>
              PartlyAdded(out[k := AccWith(if k in out then out[k] else EMPTY_ACC, r, k)], accs, r, rest - {k})
  {
  }

  lemma AllAdded(out: map<string, Acc>, accs: map<string, Acc>, rows: seq<Bucket>, r: Bucket)
    requires Accumulated(accs, rows) && PartlyAdded(out, accs, r, {})
    ensures Accumulated(out, rows + [r])
  {
    forall k ensures k in out <==> Present(rows + [r], k) { PresentSnoc(rows, r, k); }
    forall k | k in out ensures out[k] == AccOf(rows + [r], k) { AccSnoc(rows, r, k); }
  }

  lemma PresentSnoc(rows: seq<Bucket>, r: Bucket, k: string)
    ensures Present(rows + [r], k) <==> Present(rows, k) || Carries(r, k)
  {
    if i :| 0 <= i < |rows| && Carries(rows[i], k) { assert Carries((rows + [r])[i], k); }
    if Carries(r, k) { assert Carries((rows + [r])[|rows|], k); }
  }

  method Run(start: int, rows: seq<Bucket>) returns (b: Bucket)
    ensures IsRollup(b, start, rows)
  {
    var accs: map<string, Acc> := map[];
    var total := 0;
    for i := 0 to |rows|
      invariant total == Total(rows[..i]) && Accumulated(accs, rows[..i])
    {
      assert rows[..i + 1] == rows[..i] + [rows[i]];
      assert rows[..i + 1][..i] == rows[..i];
      total := total + Weight(rows[i]);
      accs := AddRow(accs, rows[..i], rows[i]);
    }
    assert rows[..|rows|] == rows;
    var data: Values := map[];
    var rest := accs.Keys;
    ghost var done: set<string> := {};
    NothingStored(accs, rows, total);
    hide *;
    while rest != {}
      invariant rest <= accs.Keys && done == accs.Keys - rest
      invariant Stored(data, accs, done, total)
      decreases rest
    {
      var k :| k in rest;
      var a := accs[k];
      var weight := WeightFor(a, k, total);
      StoredOneMore(data, accs, done, total, k);
      data := data[k := Mean(a.sum, weight)];
      data := data[PeakField(k) := a.max.value];
      rest, done := rest - {k}, done + {k};
    }
    b := Bucket(start, total, data);
    assert done == accs.Keys;
    AllStored(b, accs, rows);
  }

  function Mean(sum: real, weight: int): real
    requires weight > 0
  {
    sum / weight as real
  }

  lemma NothingStored(accs: map<string, Acc>, rows: seq<Bucket>, total: int)
    requires Accumulated(accs, rows) && total == Total(rows)
    ensures Stored(map[], accs, {}, total)
    ensures forall k :: k in accs ==> accs[k].max.Some? && accs[k].weight > 0 && total > 0
  {
    forall k | k in accs ensures !IsPeakField(k) && accs[k].max.Some? && accs[k].weight > 0 && total > 0 {
      Carriers(rows, k);
    }
  }

  lemma AllStored(b: Bucket, accs: map<string, Acc>, rows: seq<Bucket>)
    requires Accumulated(accs, rows) && b.samples == Total(rows) && Stored(b.data, accs, accs.Keys, b.samples)
    ensures IsRollup(b, b.start, rows)
  {
    forall k | !IsPeakField(k) ensures Merged(b, rows, k) { StoredIsMerged(b, accs, rows, k); }
  }

  ghost predicate Ready(accs: map<string, Acc>, total: int) {
    forall k :: k in accs ==> !IsPeakField(k) && accs[k].max.Some? && accs[k].weight > 0 && total > 0
  }

  function WeightFor(a: Acc, k: string, total: int): int { if k == UNAVAILABLE then total else a.weight }

  /** Field k has been put exactly when it is done. */
  ghost predicate FieldStored(data: Values, accs: map<string, Acc>, done: set<string>, total: int, k: string)
    requires Ready(accs, total) && done <= accs.Keys
  {
    && (k in data <==> k in done) && (PeakField(k) in data <==> k in done)
    && (k in done ==> data[k] == Mean(accs[k].sum, WeightFor(accs[k], k, total))
                      && data[PeakField(k)] == accs[k].max.value)
  }

  /** The fields of done, and only they, have been put. */
  ghost predicate Stored(data: Values, accs: map<string, Acc>, done: set<string>, total: int) {
    && done <= accs.Keys && Ready(accs, total)
    && (forall k :: !IsPeakField(k) ==> FieldStored(data, accs, done, total, k))
    && (forall f :: f in data && IsPeakField(f) ==> exists k :: !IsPeakField(k) && f == PeakField(k))
  }

  lemma PeakFields(k: string)
    ensures IsPeakField(PeakField(k)) && forall l :: PeakField(l) == PeakField(k) ==> l == k
  {
    forall l | PeakField(l) == PeakField(k) ensures l == k {
      assert PeakField(l)[..|l|] == l && PeakField(k)[..|k|] == k;
    }
  }

  lemma StoredIsMerged(b: Bucket, accs: map<string, Acc>, rows: seq<Bucket>, k: string)
    requires Accumulated(accs, rows) && Stored(b.data, accs, accs.Keys, Total(rows)) && !IsPeakField(k)
    ensures Merged(b, rows, k)
  {
    Carriers(rows, k);
    assert FieldStored(b.data, accs, accs.Keys, Total(rows), k);
    if k in accs { Divided(accs[k].sum, Divisor(rows, k)); }
  }

  lemma Divided(sum: real, divisor: int)
    requires divisor > 0
    ensures IsMean(sum / divisor as real, sum, divisor)
  {
  }

  lemma OneFieldMore(data: Values, accs: map<string, Acc>, done: set<string>, total: int, k: string, l: string)
    requires Ready(accs, total) && done <= accs.Keys && k in accs && k !in done && !IsPeakField(l)
    requires FieldStored(data, accs, done, total, l)
    ensures var out := data[k := Mean(accs[k].sum, WeightFor(accs[k], k, total))][PeakField(k) := accs[k].max.value];
            FieldStored(out, accs, done + {k}, total, l)
  {
    PeakFields(k);
    PeakFields(l);
  }

  lemma StoredOneMore(data: Values, accs: map<string, Acc>, done: set<string>, total: int, k: string)
    requires Stored(data, accs, done, total) && k in accs && k !in done
    ensures WeightFor(accs[k], k, total) > 0 && accs[k].max.Some?
    ensures var out := data[k := Mean(accs[k].sum, WeightFor(accs[k], k, total))][PeakField(k) := accs[k].max.value];
            Stored(out, accs, done + {k}, total)
  {
    var out := data[k := Mean(accs[k].sum, WeightFor(accs[k], k, total))][PeakField(k) := accs[k].max.value];
    hide FieldStored;
    hide Mean;
    forall l | !IsPeakField(l) ensures FieldStored(out, accs, done + {k}, total, l) {
      OneFieldMore(data, accs, done, total, k, l);
    }
  }
}
