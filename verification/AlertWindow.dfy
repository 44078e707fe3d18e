/** internal/domain/alert/window.go: a target's newest points and their average over a
    rule's window. Instants and windows are whole seconds, averages exact. */
module AlertWindow {
  import opened Common

  type Metric = string

  const BUFFER_SIZE := 60
  const MINUTE := 60
  const HOUR := 3600

  datatype Point = Point(at: int, values: map<Metric, real>)

  /** Tier1.BucketStart: the minute an instant lies in. */
  function Stamp(at: int): int { at - at % MINUTE }

  predicate OnMinute(at: int) { at % MINUTE == 0 }

  ghost predicate MinuteSeries(ps: seq<Point>) {
    && (forall i :: 0 <= i < |ps| ==> OnMinute(ps[i].at))
    && (forall i, j :: 0 <= i < j < |ps| ==> ps[i].at < ps[j].at)
  }

  function Newest(ps: seq<Point>): seq<Point> { if |ps| > BUFFER_SIZE then ps[|ps| - BUFFER_SIZE..] else ps }

  // ---- The average over any list of points ----

  predicate Counts(p: Point, m: Metric, cutoff: int) { p.at > cutoff && m in p.values }

  function Count(ps: seq<Point>, m: Metric, cutoff: int): nat {
    if ps == [] then 0 else (if Counts(ps[0], m, cutoff) then 1 else 0) + Count(ps[1..], m, cutoff)
  }

  function Sum(ps: seq<Point>, m: Metric, cutoff: int): real {
    if ps == [] then 0.0 else (if Counts(ps[0], m, cutoff) then ps[0].values[m] else 0.0) + Sum(ps[1..], m, cutoff)
  }

  /** The window's whole minutes. */
  function Minutes(window: int): int { window / MINUTE }

  /** 4/5 of the window's whole minutes, rounded up, and at least one. */
  function Need(window: int): nat
    requires window > 0
  {
    var need := (4 * Minutes(window) + 4) / 5;
    if need < 1 then 1 else need
  }

  function Quotient(sum: real, n: nat): real
    requires n > 0
  {
    sum / n as real
  }

  /** The mean of m over the points after cutoff, if enough of a window's minutes have one. */
  function MeanOver(ps: seq<Point>, m: Metric, window: int, cutoff: int): Option<real>
    requires window > 0
  {
    var n := Count(ps, m, cutoff);
    if n < Need(window) then None else Some(Quotient(Sum(ps, m, cutoff), n))
  }

  /** The coverage-gated mean of m over the points newer than the newest less the window. */
  function Mean(ps: seq<Point>, m: Metric, window: int): Option<real> {
    if ps == [] || window <= 0 then None else MeanOver(ps, m, window, ps[|ps| - 1].at - window)
  }

  /** A minute's stamp is its start. */
  lemma StampIsMinute(at: int, minute: int)
    ensures minute == Stamp(at) <==> minute % 60 == 0 && minute <= at < minute + 60
  {
  }

  /** n points are enough exactly when they are at least one and at least 4/5 of the whole minutes. */
  lemma EnoughPoints(window: int, n: nat)
    requires window > 0
    ensures n >= Need(window) <==> n >= 1 && 5 * n >= 4 * (window / 60)
  {
  }

  /** Count counts the points after the cutoff that have the metric. */
  ghost function Counted(ps: seq<Point>, m: Metric, cutoff: int): set<int> {
    set i | 0 <= i < |ps| && ps[i].at > cutoff && m in ps[i].values
  }

  lemma {:induction false} CountAdds(ps: seq<Point>, p: Point, m: Metric, cutoff: int)
    ensures Count(ps + [p], m, cutoff) == Count(ps, m, cutoff) + if p.at > cutoff && m in p.values then 1 else 0
  {
    if ps == [] {
      assert ps + [p] == [p] && [p][1..] == [];
    } else {
      CountAdds(ps[1..], p, m, cutoff);
      assert (ps + [p])[1..] == ps[1..] + [p];
    }
  }

  lemma {:induction false} CountIsNumber(ps: seq<Point>, m: Metric, cutoff: int)
    ensures Count(ps, m, cutoff) == |Counted(ps, m, cutoff)|
  {
    if ps == [] {
      assert Counted(ps, m, cutoff) == {};
    } else {
      var init, p := ps[..|ps| - 1], ps[|ps| - 1];
      assert ps == init + [p];
      CountAdds(init, p, m, cutoff);
      CountIsNumber(init, m, cutoff);
      var last: set<int> := if p.at > cutoff && m in p.values then {|init|} else {};
      assert Counted(ps, m, cutoff) == Counted(init, m, cutoff) + last;
      assert |init| !in Counted(init, m, cutoff);
      hide Count;
    }
  }

  /** Sum adds their values: one point's is its own, and lists add up. */
  lemma {:induction false} SumAdds(ps: seq<Point>, p: Point, m: Metric, cutoff: int)
    ensures Sum([], m, cutoff) == 0.0
    ensures Sum(ps + [p], m, cutoff) == Sum(ps, m, cutoff) + if p.at > cutoff && m in p.values then p.values[m] else 0.0
  {
    if ps == [] {
      assert ps + [p] == [p] && [p][1..] == [];
    } else {
      SumAdds(ps[1..], p, m, cutoff);
      assert (ps + [p])[1..] == ps[1..] + [p];
    }
  }

  /** There is a mean exactly when points enough have the metric; it is their sum over their number. */
  lemma MeanIs(ps: seq<Point>, m: Metric, window: int)
    ensures ps == [] || window <= 0 ==> Mean(ps, m, window) == None
    ensures ps != [] && window > 0 ==>
              var cutoff := ps[|ps| - 1].at - window;
              var n := |Counted(ps, m, cutoff)|;
              && (Mean(ps, m, window).Some? <==> n >= 1 && 5 * n >= 4 * (window / 60))
              && (Mean(ps, m, window).Some? ==> Mean(ps, m, window).value * n as real == Sum(ps, m, cutoff))
  {
    if ps != [] && window > 0 {
      var cutoff := ps[|ps| - 1].at - window;
      CountIsNumber(ps, m, cutoff);
      var n := Count(ps, m, cutoff);
      EnoughPoints(window, n);
      if n >= Need(window) { QuotientIs(Sum(ps, m, cutoff), n); }
      hide Sum;
      hide Count;
      hide Need;
      hide Counted;
      hide Quotient;
    }
  }

  lemma QuotientIs(sum: real, n: nat)
    requires n > 0
    ensures Quotient(sum, n) * n as real == sum
  {
  }

  lemma Gated(ps: seq<Point>, m: Metric, window: int, cutoff: int)
    requires window > 0
    ensures MeanOver(ps, m, window, cutoff) ==
            if Count(ps, m, cutoff) < Need(window) then None
            else Some(Quotient(Sum(ps, m, cutoff), Count(ps, m, cutoff)))
  {
  }

  lemma {:induction false} OldPointsDoNotCount(ps: seq<Point>, k: nat, m: Metric, cutoff: int)
    requires k <= |ps| && forall i :: 0 <= i < k ==> ps[i].at <= cutoff
    ensures Count(ps, m, cutoff) == Count(ps[k..], m, cutoff) && Sum(ps, m, cutoff) == Sum(ps[k..], m, cutoff)
  {
    if k == 0 {
      assert ps[k..] == ps;
    } else {
      OldPointsDoNotCount(ps[1..], k - 1, m, cutoff);
      assert ps[1..][k - 1..] == ps[k..];
    }
  }

  lemma Tail(ps: seq<Point>, i: nat, m: Metric, cutoff: int)
    requires i < |ps|
    ensures ps[i].at > cutoff && m in ps[i].values ==>
            Count(ps[i..], m, cutoff) == Count(ps[i + 1..], m, cutoff) + 1
            && Sum(ps[i..], m, cutoff) == Sum(ps[i + 1..], m, cutoff) + ps[i].values[m]
    ensures ps[i].at <= cutoff || m !in ps[i].values ==>
            Count(ps[i..], m, cutoff) == Count(ps[i + 1..], m, cutoff)
            && Sum(ps[i..], m, cutoff) == Sum(ps[i + 1..], m, cutoff)
  {
    assert ps[i..][1..] == ps[i + 1..];
  }

  /** When point k - 1 is too old, so are those before it. */
  lemma NewerCount(ps: seq<Point>, k: nat, m: Metric, cutoff: int)
    requires MinuteSeries(ps) && k <= |ps| && (k > 0 ==> ps[k - 1].at <= cutoff)
    ensures Count(ps, m, cutoff) == Count(ps[k..], m, cutoff) && Sum(ps, m, cutoff) == Sum(ps[k..], m, cutoff)
  {
    forall i | 0 <= i < k ensures ps[i].at <= cutoff { assert i < k - 1 ==> ps[i].at < ps[k - 1].at; }
    OldPointsDoNotCount(ps, k, m, cutoff);
  }

  lemma NewestSeries(ps: seq<Point>)
    requires MinuteSeries(ps)
    ensures MinuteSeries(Newest(ps)) && |Newest(ps)| <= BUFFER_SIZE && (ps != [] <==> Newest(ps) != [])
    ensures ps != [] ==> Newest(ps)[|Newest(ps)| - 1] == ps[|ps| - 1]
  {
  }

  lemma StampOnMinute(at: int)
    ensures OnMinute(Stamp(at))
  {
  }

  lemma NewestSnoc(ps: seq<Point>, q: Point)
    ensures var kept := Newest(ps) + [q];
            Newest(ps + [q]) == if |kept| > BUFFER_SIZE then kept[|kept| - BUFFER_SIZE..] else kept
  {
    if |ps| >= BUFFER_SIZE { assert Newest(ps) + [q] == (ps + [q])[|ps| - |Newest(ps)|..]; }
  }

  lemma SeriesSnoc(ps: seq<Point>, q: Point)
    requires MinuteSeries(ps) && OnMinute(q.at) && (ps != [] ==> ps[|ps| - 1].at < q.at)
    ensures MinuteSeries(ps + [q])
  {
    forall i | 0 <= i < |ps| ensures ps[i].at < q.at { assert i < |ps| - 1 ==> ps[i].at < ps[|ps| - 1].at; }
  }

  lemma Grown(ps: seq<Point>, q: Point)
    requires MinuteSeries(ps) && OnMinute(q.at) && (ps != [] ==> ps[|ps| - 1].at < q.at)
    ensures MinuteSeries(ps + [q]) && MinuteSeries(Newest(ps + [q])) && |Newest(ps + [q])| <= BUFFER_SIZE
    ensures var kept := Newest(ps) + [q];
            Newest(ps + [q]) == if |kept| > BUFFER_SIZE then kept[|kept| - BUFFER_SIZE..] else kept
  {
    NewestSnoc(ps, q);
    SeriesSnoc(ps, q);
    NewestSeries(ps + [q]);
  }

  class Buffer {
    var points: seq<Point>
    ghost var history: seq<Point>  // every point ever accepted

    /** The buffer is the newest part of an unbounded history. */
    ghost predicate Valid()
      reads this
    {
      MinuteSeries(history) && points == Newest(history) && MinuteSeries(points)
    }

    constructor ()
      ensures Valid() && history == [] && points == []
    {
      points, history := [], [];
    }

    method Add(p: Point) returns (ok: bool)
      requires Valid()
      modifies this
      ensures Valid() && |points| <= BUFFER_SIZE && MinuteSeries(points)
      ensures ok <==> old(history) == [] || Stamp(p.at) > old(history)[|old(history)| - 1].at
      ensures history == if ok then old(history) + [p.(at := Stamp(p.at))] else old(history)
      ensures points == Newest(history)
    {
      hide Stamp;
      hide OnMinute;
      hide Newest;
      hide MinuteSeries;
      var q := p.(at := Stamp(p.at));
      var n := |points|;
      NewestSeries(history);
      if n > 0 && q.at <= points[n - 1].at { return false; }
      StampOnMinute(p.at);
      Grown(history, q);
      points := points + [q];
      history := history + [q];
      var over := |points| - BUFFER_SIZE;
      if over > 0 { points := points[over..]; }
      return true;
    }

    method Average(m: Metric, window: int) returns (r: Option<real>)
      requires MinuteSeries(points)
      ensures r == Mean(points, m, window)
    {
      if |points| == 0 || window <= 0 { return None; }
      var need := (4 * Minutes(window) + 4) / 5;
      if need < 1 { need := 1; }
      assert need == Need(window);
      hide Need;
      hide Sum;
      hide Count;
      hide Quotient;
      hide MinuteSeries;
      var sum, n := Backward(points, m, points[|points| - 1].at - window);
      if n < need { return None; }
      return Some(Quotient(sum, n));
    }
  }

  /** Average's loop: from the newest point back to the first that is too old. */
  method Backward(ps: seq<Point>, m: Metric, cutoff: int) returns (sum: real, n: nat)
    requires MinuteSeries(ps)
    ensures sum == Sum(ps, m, cutoff) && n == Count(ps, m, cutoff)
  {
    sum, n := 0.0, 0;
    var i := |ps| - 1;
    assert ps[|ps|..] == [];
    hide MinuteSeries;
    while i >= 0
      invariant -1 <= i < |ps|
      invariant sum == Sum(ps[i + 1..], m, cutoff) && n == Count(ps[i + 1..], m, cutoff)
    {
      var p := ps[i];
      if p.at <= cutoff { break; }
      Tail(ps, i, m, cutoff);
      if m in p.values {
        sum, n := sum + p.values[m], n + 1;
      }
      i := i - 1;
    }
    NewerCount(ps, i + 1, m, cutoff);
  }

  // ---- The buffer against the whole history ----

  lemma {:induction false} Spaced(ps: seq<Point>, i: nat, j: nat)
    requires MinuteSeries(ps) && i <= j < |ps|
    ensures ps[i].at + MINUTE * (j - i) <= ps[j].at
  {
    if i < j {
      Spaced(ps, i, j - 1);
      assert ps[j - 1].at < ps[j].at;
    }
  }

  lemma {:induction false} CountBound(ps: seq<Point>, m: Metric, cutoff: int)
    requires MinuteSeries(ps) && ps != [] && OnMinute(cutoff) && cutoff <= ps[|ps| - 1].at
    ensures MINUTE * Count(ps, m, cutoff) <= ps[|ps| - 1].at - cutoff
    ensures ps[0].at > cutoff ==> MINUTE * Count(ps, m, cutoff) <= ps[|ps| - 1].at - ps[0].at + MINUTE
  {
    var rest := ps[1..];
    if rest == [] {
      assert Count(rest, m, cutoff) == 0;
    } else {
      CountBound(rest, m, cutoff);
      assert rest[|rest| - 1] == ps[|ps| - 1] && ps[0].at < rest[0].at;
    }
    WholeMinutes(cutoff, ps[0].at);
    if rest != [] { WholeMinutes(ps[0].at, rest[0].at); }
  }

  lemma WholeMinutes(a: int, b: int)
    requires OnMinute(a) && OnMinute(b)
    ensures a < b ==> a + MINUTE <= b
  {
  }

  /** Up to an hour's window the truncated buffer decides as the whole history would. */
  lemma BufferIsEnough(history: seq<Point>, m: Metric, window: int)
    requires MinuteSeries(history) && window <= HOUR
    ensures Mean(Newest(history), m, window) == Mean(history, m, window)
  {
    var k := |history| - BUFFER_SIZE;
    if k > 0 && window > 0 {
      var cutoff := history[|history| - 1].at - window;
      forall i | 0 <= i < k ensures history[i].at <= cutoff { Spaced(history, i, |history| - 1); }
      OldPointsDoNotCount(history, k, m, cutoff);
    }
  }

  /** A rule's window, 1 to 60 whole minutes: the mean over all of history, and when it
      decides, between 4/5 of the minutes and all of them carried the metric. */
  lemma RuleWindow(history: seq<Point>, m: Metric, window: int)
    requires MinuteSeries(history) && MINUTE <= window <= HOUR && OnMinute(window)
    ensures Mean(Newest(history), m, window) == Mean(history, m, window)
    ensures Mean(history, m, window).Some? ==>
            history != [] && var n := Count(history, m, history[|history| - 1].at - window);
            4 * Minutes(window) <= 5 * n && n <= Minutes(window)
  {
    BufferIsEnough(history, m, window);
    if Mean(history, m, window).Some? {
      Decided(history, m, window);
      hide Mean;
      hide MinuteSeries;
      WithinWindow(history, m, window);
      Enough(Count(history, m, history[|history| - 1].at - window), window);
    }
  }

  /** A window holds at most a point a minute. */
  lemma WithinWindow(ps: seq<Point>, m: Metric, window: int)
    requires MinuteSeries(ps) && ps != [] && window >= 0 && OnMinute(window)
    ensures MINUTE * Count(ps, m, ps[|ps| - 1].at - window) <= window
  {
    var last := ps[|ps| - 1].at;
    Aligned(last, window);
    CountBound(ps, m, last - window);
  }

  lemma Decided(ps: seq<Point>, m: Metric, window: int)
    requires Mean(ps, m, window).Some?
    ensures ps != [] && window > 0 && Count(ps, m, ps[|ps| - 1].at - window) >= Need(window)
  {
  }

  lemma Enough(n: nat, window: int)
    requires window > 0 && n >= Need(window) && MINUTE * n <= window && OnMinute(window)
    ensures 4 * Minutes(window) <= 5 * n && n <= Minutes(window)
  {
  }

  lemma Aligned(at: int, window: int)
    requires OnMinute(at) && OnMinute(window)
    ensures OnMinute(at - window)
  {
  }

  /** Full minutes 0 to k, of which only the first is not zero. */
  function Spike(k: nat, m: Metric): seq<Point> {
    seq(k + 1, i => Point(MINUTE * i, map[m := if i == 0 then 1.0 else 0.0]))
  }

  lemma {:induction false} Zeros(ps: seq<Point>, m: Metric, cutoff: int)
    requires forall i :: 0 <= i < |ps| ==> m in ps[i].values && ps[i].values[m] == 0.0 && ps[i].at > cutoff
    ensures Sum(ps, m, cutoff) == 0.0 && Count(ps, m, cutoff) == |ps|
  {
    if ps != [] { Zeros(ps[1..], m, cutoff); }
  }

  /** A longer window is truncated: the buffer no longer decides as the history would. */
  lemma LongWindowTruncated(m: Metric, window: int)
    requires window > HOUR
    ensures exists h :: MinuteSeries(h) && Mean(Newest(h), m, window) != Mean(h, m, window)
  {
    var k := (window - 1) / MINUTE;
    var h := Spike(k, m);
    var cutoff := h[|h| - 1].at - window;
    SpikeSums(k, m, cutoff);
    assert Need(window) <= k + 1 by { hide *; }
    hide Sum;
    hide Count;
    hide Need;
    Gated(h, m, window, cutoff);
    Gated(Newest(h), m, window, cutoff);
    NotZero(k + 1);
  }

  lemma NotZero(n: nat)
    requires n > 0
    ensures Quotient(1.0, n) != 0.0 && Quotient(0.0, BUFFER_SIZE) == 0.0
  {
  }

  lemma SpikeSums(k: nat, m: Metric, cutoff: int)
    requires k >= BUFFER_SIZE && cutoff < 0
    ensures MinuteSeries(Spike(k, m)) && Newest(Spike(k, m))[BUFFER_SIZE - 1] == Spike(k, m)[k]
    ensures Sum(Spike(k, m), m, cutoff) == 1.0 && Count(Spike(k, m), m, cutoff) == k + 1
    ensures Sum(Newest(Spike(k, m)), m, cutoff) == 0.0 && Count(Newest(Spike(k, m)), m, cutoff) == BUFFER_SIZE
  {
    var h := Spike(k, m);
    Zeros(h[1..], m, cutoff);
    Zeros(Newest(h), m, cutoff);
  }

  /** So the buffer refines the unbounded history exactly for windows of at most an hour. */
  lemma BufferIsEnoughIff(m: Metric, window: int)
    ensures (forall h :: MinuteSeries(h) ==> Mean(Newest(h), m, window) == Mean(h, m, window)) <==>
            window <= 3600
  {
    if window <= HOUR {
      forall h | MinuteSeries(h) ensures Mean(Newest(h), m, window) == Mean(h, m, window) {
        BufferIsEnough(h, m, window);
      }
    } else {
      LongWindowTruncated(m, window);
    }
  }
}
