/** The five-minute client evidence matrix
    (cmd/halro-ha-health/client_final.go).  Times are in nanoseconds. */
module ClientFinal {
  import opened Basics

  const SECOND: int := 1_000_000_000
  const WINDOW: int := 300 * SECOND
  const GAP: int := 30 * SECOND

  datatype SeriesKey = SeriesKey(region: string, instance: string, operation: string, outcome: string)

  /** A decoded sample; `valid` is false when it does not decode. */
  datatype Point = Point(valid: bool, at: Time, value: real)

  /** One returned series; None when its labels are not a key. */
  datatype Series = Series(key: Option<SeriesKey>, points: seq<Point>)

  predicate PointOk(p: Point, now: Time) {
    p.valid && p.at <= now + SECOND && p.value >= 0.0
  }

  predicate Recent(p: Point, now: Time) {
    p.at >= now - WINDOW - GAP
  }

  /** The points that are not too old to matter. */
  function Considered(ps: seq<Point>, now: Time): seq<Point> {
    if ps == [] then []
    else
      var n := |ps| - 1;
      Considered(ps[..n], now) + if Recent(ps[n], now) then [ps[n]] else []
  }

  predicate StepOk(ps: seq<Point>, i: nat, counter: bool)
    requires 0 < i < |ps|
  {
    ps[i - 1].at < ps[i].at && ps[i].at - ps[i - 1].at <= GAP && (counter ==> ps[i - 1].value <= ps[i].value)
  }

  /** A chain of samples that starts before the window. */
  predicate ChainOk(ps: seq<Point>, want: real, counter: bool, now: Time) {
    && (ps != [] ==> ps[0].at <= now - WINDOW)
    && (forall i :: 0 < i < |ps| ==> StepOk(ps, i, counter))
    && (!counter ==> forall i :: 0 <= i < |ps| ==> ps[i].value == want)
  }

  predicate SeriesOk(s: Series, want: real, counter: bool, now: Time) {
    var ps := Considered(s.points, now);
    && (forall i :: 0 <= i < |s.points| ==> PointOk(s.points[i], now))
    && ChainOk(ps, want, counter, now) && ps != [] && now - ps[|ps| - 1].at <= GAP
  }

  function TimesOf(ps: seq<Point>): seq<Time> {
    seq(|ps|, i requires 0 <= i < |ps| => ps[i].at)
  }

  /** The sample times agree with the up series of the same instance. */
  predicate Aligned(times: seq<Time>, up: seq<Time>) {
    |times| == |up| && forall i :: 0 <= i < |times| ==> -SECOND <= times[i] - up[i] <= SECOND
  }

  function BaseOf(k: SeriesKey): SeriesKey {
    SeriesKey(k.region, k.instance, "", "")
  }

  function UpTimes(up: map<SeriesKey, seq<Time>>, k: SeriesKey): seq<Time> {
    if BaseOf(k) in up then up[BaseOf(k)] else []
  }

  predicate ItemOk(s: Series, expected: set<SeriesKey>, want: real, counter: bool, now: Time,
                   up: Option<map<SeriesKey, seq<Time>>>)
  {
    && s.key.Some? && s.key.value in expected && SeriesOk(s, want, counter, now)
    && (up.Some? ==> Aligned(TimesOf(Considered(s.points, now)), UpTimes(up.value, s.key.value)))
  }

  predicate DistinctKeys(items: seq<Series>, n: nat)
    requires n <= |items|
  {
    forall i, k :: 0 <= i < k < n ==> items[i].key != items[k].key
  }

  predicate MatrixOk(items: seq<Series>, expected: set<SeriesKey>, want: real, counter: bool, now: Time,
                     up: Option<map<SeriesKey, seq<Time>>>)
  {
    && |items| == |expected| && DistinctKeys(items, |items|)
    && forall i :: 0 <= i < |items| ==> ItemOk(items[i], expected, want, counter, now, up)
  }

  // ---------------------------------------------------------------------------
  // The program itself

  lemma ConsideredSnoc(ps: seq<Point>, i: nat, now: Time)
    requires i < |ps|
    ensures Considered(ps[..i + 1], now) == Considered(ps[..i], now) + if Recent(ps[i], now) then [ps[i]] else []
  {
    assert ps[..i + 1][..i] == ps[..i];
  }

  /** The latest point, where the code keeps its time and value apart. */
  function LastOf(ps: seq<Point>): Option<Point> {
    if ps == [] then None else Some(ps[|ps| - 1])
  }

  /** The next considered point continues the chain. */
  predicate Extends(last: Option<Point>, p: Point, want: real, counter: bool, now: Time) {
    && (if last.None? then p.at <= now - WINDOW
        else p.at > last.value.at && p.at - last.value.at <= GAP && !(counter && p.value < last.value.value))
    && (!counter ==> p.value == want)
  }

  lemma ChainSnoc(ps: seq<Point>, p: Point, want: real, counter: bool, now: Time)
    requires ChainOk(ps, want, counter, now)
    ensures ChainOk(ps + [p], want, counter, now) <==> Extends(LastOf(ps), p, want, counter, now)
  {
    var all := ps + [p];
    assert all[|ps|] == p;
    forall i | 0 < i < |ps| ensures StepOk(all, i, counter) {
      assert StepOk(ps, i, counter) && all[i] == ps[i] && all[i - 1] == ps[i - 1];
    }
    if ps != [] {
      assert all[|ps| - 1] == ps[|ps| - 1];
      assert ChainOk(all, want, counter, now) ==> StepOk(all, |ps|, counter);
    }
  }

  lemma TimesSnoc(ps: seq<Point>, p: Point)
    ensures TimesOf(ps + [p]) == TimesOf(ps) + [p.at]
  {}

  lemma {:induction false} ConsideredPrefix(ps: seq<Point>, n: nat, now: Time)
    requires n <= |ps|
    ensures Considered(ps[..n], now) <= Considered(ps, now)
    decreases |ps| - n
  {
    if n < |ps| {
      ConsideredSnoc(ps, n, now);
      ConsideredPrefix(ps, n + 1, now);
    } else {
      assert ps[..n] == ps;
    }
  }

  lemma ChainPrefix(a: seq<Point>, b: seq<Point>, want: real, counter: bool, now: Time)
    requires a <= b && ChainOk(b, want, counter, now)
    ensures ChainOk(a, want, counter, now)
  {
    forall i | 0 < i < |a| ensures StepOk(a, i, counter) {
      assert StepOk(b, i, counter);
    }
  }

  /** A point that does not continue the chain spoils the series. */
  lemma Broken(s: Series, i: nat, want: real, counter: bool, now: Time)
    requires i < |s.points| && Recent(s.points[i], now)
    requires !ChainOk(Considered(s.points[..i], now) + [s.points[i]], want, counter, now)
    ensures !SeriesOk(s, want, counter, now)
  {
    ConsideredSnoc(s.points, i, now);
    ConsideredPrefix(s.points, i + 1, now);
    if ChainOk(Considered(s.points, now), want, counter, now) {
      ChainPrefix(Considered(s.points[..i + 1], now), Considered(s.points, now), want, counter, now);
    }
  }

  lemma BadPoint(s: Series, i: nat, want: real, counter: bool, now: Time)
    requires i < |s.points| && !PointOk(s.points[i], now)
    ensures !SeriesOk(s, want, counter, now)
  {}

  lemma Whole(s: Series, want: real, counter: bool, now: Time)
    requires ChainOk(Considered(s.points, now), want, counter, now)
    requires forall k :: 0 <= k < |s.points| ==> PointOk(s.points[k], now)
    ensures var ps := Considered(s.points, now);
            SeriesOk(s, want, counter, now) <==> ps != [] && now - ps[|ps| - 1].at <= GAP
  {}

  /** The inner loop: one series, point by point. */
  method CheckSeries(s: Series, want: real, counter: bool, now: Time) returns (times: Option<seq<Time>>)
    ensures times.Some? <==> SeriesOk(s, want, counter, now)
    ensures times.Some? ==> times.value == TimesOf(Considered(s.points, now))
  {
    var last, found := None, [];
    ghost var ps: seq<Point> := [];
    assert ChainOk(ps, want, counter, now) && TimesOf(ps) == [];
    hide ChainOk, Considered, Recent, Extends, TimesOf, PointOk, SeriesOk;
    for i := 0 to |s.points|
      invariant ps == Considered(s.points[..i], now) && found == TimesOf(ps) && last == LastOf(ps)
      invariant ChainOk(ps, want, counter, now) && forall k :: 0 <= k < i ==> PointOk(s.points[k], now)
    {
      var p := s.points[i];
      if !PointOk(p, now) {
        BadPoint(s, i, want, counter, now);
        return None;
      }
      ConsideredSnoc(s.points, i, now);
      if Recent(p, now) {
        ChainSnoc(ps, p, want, counter, now);
        TimesSnoc(ps, p);
        if !Extends(last, p, want, counter, now) {
          Broken(s, i, want, counter, now);
          return None;
        }
        ps, last, found := ps + [p], Some(p), found + [p.at];
      }
    }
    assert s.points[..|s.points|] == s.points;
    Whole(s, want, counter, now);
    times := if last.Some? && now - last.value.at <= GAP then Some(found) else None;
  }

  method CheckAligned(times: seq<Time>, up: seq<Time>) returns (ok: bool)
    ensures ok <==> Aligned(times, up)
  {
    if |times| != |up| {
      return false;
    }
    for i := 0 to |times|
      invariant forall k :: 0 <= k < i ==> -SECOND <= times[k] - up[k] <= SECOND
    {
      if times[i] - up[i] < -SECOND || times[i] - up[i] > SECOND {
        return false;
      }
    }
    return true;
  }

  /** One item of the matrix. */
  method CheckItem(s: Series, expected: set<SeriesKey>, want: real, counter: bool, now: Time,
                   up: Option<map<SeriesKey, seq<Time>>>) returns (times: Option<seq<Time>>)
    ensures times.Some? <==> ItemOk(s, expected, want, counter, now, up)
    ensures times.Some? ==> times.value == TimesOf(Considered(s.points, now))
  {
    hide SeriesOk, Aligned, TimesOf;
    if s.key.None? || s.key.value !in expected {
      return None;
    }
    times := CheckSeries(s, want, counter, now);
    if times.Some? && up.Some? {
      var aligned := CheckAligned(times.value, UpTimes(up.value, s.key.value));
      if !aligned {
        return None;
      }
    }
  }

  lemma ItemKey(s: Series, expected: set<SeriesKey>, want: real, counter: bool, now: Time,
                up: Option<map<SeriesKey, seq<Time>>>)
    requires ItemOk(s, expected, want, counter, now, up)
    ensures s.key.Some? && s.key.value in expected
  {}

  /** What the first `n` items have put into the result. */
  ghost predicate Gathered(items: seq<Series>, n: nat, times: map<SeriesKey, seq<Time>>, now: Time)
    requires n <= |items|
  {
    && (forall k :: 0 <= k < n ==> items[k].key.Some? && items[k].key.value in times
                                   && times[items[k].key.value] == TimesOf(Considered(items[k].points, now)))
    && (forall x :: x in times ==> exists k :: 0 <= k < n && items[k].key == Some(x))
    && DistinctKeys(items, n)
  }

  lemma GatheredNext(items: seq<Series>, n: nat, times: map<SeriesKey, seq<Time>>, now: Time)
    requires n < |items| && Gathered(items, n, times, now) && items[n].key.Some? && items[n].key.value !in times
    ensures Gathered(items, n + 1, times[items[n].key.value := TimesOf(Considered(items[n].points, now))], now)
  {}

  lemma GatheredKey(items: seq<Series>, times: map<SeriesKey, seq<Time>>, now: Time, x: SeriesKey)
    requires Gathered(items, |items|, times, now) && exists n :: 0 <= n < |items| && items[n].key == Some(x)
    ensures x in times
  {}

  lemma GatheredDistinct(items: seq<Series>, times: map<SeriesKey, seq<Time>>, now: Time)
    requires Gathered(items, |items|, times, now)
    ensures DistinctKeys(items, |items|)
  {}

  lemma RepeatedKey(items: seq<Series>, n: nat, times: map<SeriesKey, seq<Time>>, now: Time)
    requires n < |items| && Gathered(items, n, times, now) && items[n].key.Some? && items[n].key.value in times
    ensures !DistinctKeys(items, |items|)
  {}

  /** validClientFinalMatrix, for a result of type matrix. */
  method ValidMatrix(items: seq<Series>, expected: set<SeriesKey>, want: real, counter: bool, now: Time,
                     up: Option<map<SeriesKey, seq<Time>>>) returns (all: Option<map<SeriesKey, seq<Time>>>)
    ensures all.Some? <==> MatrixOk(items, expected, want, counter, now, up)
    ensures all.Some? ==> all.value.Keys == expected && Gathered(items, |items|, all.value, now)
  {
    if |items| != |expected| {
      return None;
    }
    var times: map<SeriesKey, seq<Time>> := map[];
    assert Gathered(items, 0, times, now);
    hide ItemOk, DistinctKeys, Gathered;
    for i := 0 to |items|
      invariant Gathered(items, i, times, now) && times.Keys <= expected
      invariant forall k :: 0 <= k < i ==> ItemOk(items[k], expected, want, counter, now, up)
    {
      var s := items[i];
      var found := CheckItem(s, expected, want, counter, now, up);
      if found.None? {
        return None;
      }
      ItemKey(s, expected, want, counter, now, up);
      if s.key.value in times {
        RepeatedKey(items, i, times, now);
        return None;
      }
      GatheredNext(items, i, times, now);
      times := times[s.key.value := found.value];
    }
    GatheredDistinct(items, times, now);
    forall x | x in expected ensures x in times {
      EveryKey(items, expected, want, counter, now, up, x);
      GatheredKey(items, times, now, x);
    }
    return Some(times);
  }

  // ---------------------------------------------------------------------------
  // What an accepted matrix shows

  lemma {:induction false} Descend(ps: seq<Point>, n: nat, t: Time)
    requires 0 < n <= |ps| && (forall i :: 0 < i < |ps| ==> ps[i].at - ps[i - 1].at <= GAP)
    requires ps[0].at <= t && t - ps[n - 1].at <= GAP
    ensures exists i :: 0 <= i < n && ps[i].at <= t && t - ps[i].at <= 30 * 1_000_000_000
    decreases n
  {
    if ps[n - 1].at > t {
      assert ps[n - 1].at - ps[n - 2].at <= GAP;
      Descend(ps, n - 1, t);
    }
  }

  lemma {:induction false} NeverFalls(ps: seq<Point>, i: nat, k: nat)
    requires i <= k < |ps| && forall j :: 0 < j < |ps| ==> ps[j - 1].value <= ps[j].value
    ensures ps[i].value <= ps[k].value
    decreases k
  {
    if i < k {
      NeverFalls(ps, i, k - 1);
    }
  }

  lemma ChainSteps(ps: seq<Point>, want: real, counter: bool, now: Time)
    requires ChainOk(ps, want, counter, now)
    ensures forall i :: 0 < i < |ps| ==> ps[i].at - ps[i - 1].at <= GAP
    ensures counter ==> forall i :: 0 < i < |ps| ==> ps[i - 1].value <= ps[i].value
  {
    forall i | 0 < i < |ps| ensures ps[i].at - ps[i - 1].at <= GAP && (counter ==> ps[i - 1].value <= ps[i].value) {
      assert StepOk(ps, i, counter);
    }
  }

  lemma SeriesCovers(s: Series, want: real, counter: bool, now: Time, t: Time)
    requires SeriesOk(s, want, counter, now) && now - WINDOW <= t <= now
    ensures CoversAt(Considered(s.points, now), t) && Behaves(Considered(s.points, now), want, counter)
  {
    var ps := Considered(s.points, now);
    hide Considered, PointOk, StepOk;
    ChainSteps(ps, want, counter, now);
    Descend(ps, |ps|, t);
    if counter {
      forall i, k | 0 <= i < k < |ps| ensures ps[i].value <= ps[k].value {
        NeverFalls(ps, i, k);
      }
    }
  }

  /** Every expected series was returned exactly once; at every instant of the
      window it has a sample at most thirty seconds old; gauges show the wanted
      value throughout and counters never fall. */
  lemma MatrixCovers(items: seq<Series>, expected: set<SeriesKey>, want: real, counter: bool, now: Time,
                     up: Option<map<SeriesKey, seq<Time>>>, x: SeriesKey, t: Time)
    requires MatrixOk(items, expected, want, counter, now, up) && x in expected && now - 300 * 1_000_000_000 <= t <= now
    ensures exists n :: 0 <= n < |items| && items[n].key == Some(x) && CoversAt(Considered(items[n].points, now), t)
                        && Behaves(Considered(items[n].points, now), want, counter)
  {
    hide SeriesOk, CoversAt, Behaves, Aligned, Considered, DistinctKeys;
    EveryKey(items, expected, want, counter, now, up, x);
    var n :| 0 <= n < |items| && items[n].key == Some(x);
    assert ItemOk(items[n], expected, want, counter, now, up);
    SeriesCovers(items[n], want, counter, now, t);
  }

  ghost predicate CoversAt(ps: seq<Point>, t: Time) {
    exists i :: 0 <= i < |ps| && ps[i].at <= t && t - ps[i].at <= 30 * 1_000_000_000
  }

  ghost predicate Behaves(ps: seq<Point>, want: real, counter: bool) {
    if counter then forall i, k :: 0 <= i < k < |ps| ==> ps[i].value <= ps[k].value
    else forall i :: 0 <= i < |ps| ==> ps[i].value == want
  }

  function KeysOf(items: seq<Series>, n: nat): set<SeriesKey>
    requires n <= |items|
  {
    if n == 0 then {} else KeysOf(items, n - 1) + if items[n - 1].key.Some? then {items[n - 1].key.value} else {}
  }

  lemma {:induction false} KeyFound(items: seq<Series>, n: nat, x: SeriesKey)
    requires n <= |items| && x in KeysOf(items, n)
    ensures exists k :: 0 <= k < n && items[k].key == Some(x)
  {
    if items[n - 1].key != Some(x) {
      KeyFound(items, n - 1, x);
    }
  }

  lemma {:induction false} KeysCount(items: seq<Series>, n: nat, expected: set<SeriesKey>)
    requires n <= |items| && DistinctKeys(items, n)
    requires forall i :: 0 <= i < n ==> items[i].key.Some? && items[i].key.value in expected
    ensures |KeysOf(items, n)| == n && KeysOf(items, n) <= expected
  {
    if n > 0 {
      KeysCount(items, n - 1, expected);
      var x := items[n - 1].key.value;
      if x in KeysOf(items, n - 1) {
        KeyFound(items, n - 1, x);
      }
    }
  }

  lemma EveryKey(items: seq<Series>, expected: set<SeriesKey>, want: real, counter: bool, now: Time,
                 up: Option<map<SeriesKey, seq<Time>>>, x: SeriesKey)
    requires MatrixOk(items, expected, want, counter, now, up) && x in expected
    ensures exists n :: 0 <= n < |items| && items[n].key == Some(x)
  {
    hide SeriesOk, Aligned;
    forall i | 0 <= i < |items| ensures items[i].key.Some? && items[i].key.value in expected {
      assert ItemOk(items[i], expected, want, counter, now, up);
    }
    KeysCount(items, |items|, expected);
    SubsetSmaller(KeysOf(items, |items|), expected);
    KeyFound(items, |items|, x);
  }

  // ---------------------------------------------------------------------------
  // What passes

  /** Samples at most thirty seconds apart. */
  predicate Regular(ps: seq<Point>, counter: bool) {
    forall i :: 0 < i < |ps| ==>
                  && 0 < ps[i].at - ps[i - 1].at <= 30 * 1_000_000_000
                  && (counter ==> ps[i - 1].value <= ps[i].value)
  }

  lemma {:induction false} RegularRises(ps: seq<Point>, counter: bool, i: nat, k: nat)
    requires Regular(ps, counter) && i <= k < |ps|
    ensures ps[i].at <= ps[k].at
    decreases k
  {
    if i < k {
      RegularRises(ps, counter, i, k - 1);
      assert 0 < ps[k].at - ps[k - 1].at;
    }
  }

  /** Points of which only the first are too old are considered from there on. */
  lemma {:induction false} ConsideredSuffix(ps: seq<Point>, now: Time, m: nat)
    requires m <= |ps| && (forall i :: 0 <= i < m ==> !Recent(ps[i], now))
    requires forall i :: m <= i < |ps| ==> Recent(ps[i], now)
    ensures Considered(ps, now) == ps[m..]
    decreases |ps|
  {
    hide Recent;
    var n := |ps| - 1;
    if n >= 0 {
      var init := ps[..n];
      if m <= n {
        ConsideredSuffix(init, now, m);
        assert ps[m..] == init[m..] + [ps[n]];
      } else {
        ConsideredSuffix(init, now, n);
        assert init[n..] == [] && ps[m..] == [];
      }
    }
  }

  /** How many points are too old. */
  function Older(ps: seq<Point>, now: Time): (m: nat)
    ensures m <= |ps| && (forall i :: 0 <= i < m ==> !Recent(ps[i], now)) && (m < |ps| ==> Recent(ps[m], now))
  {
    if ps == [] || Recent(ps[0], now) then 0 else 1 + Older(ps[1..], now)
  }

  /** A series sampled at least every thirty seconds from before the five minutes to
      the present, with the wanted values, passes. */
  lemma RegularPasses(s: Series, want: real, counter: bool, now: Time)
    requires s.points != [] && Regular(s.points, counter)
    requires forall i :: 0 <= i < |s.points| ==>
                           s.points[i].valid && s.points[i].value >= 0.0 && (!counter ==> s.points[i].value == want)
    requires s.points[0].at <= now - 300 * 1_000_000_000
    requires now - 30 * 1_000_000_000 <= s.points[|s.points| - 1].at <= now
    ensures SeriesOk(s, want, counter, now)
  {
    var ps := s.points;
    var m, n := Older(ps, now), |ps| - 1;
    assert m < |ps| && ps[m].at <= now - WINDOW by {
      assert Recent(ps[n], now);
      assert m > 0 ==> !Recent(ps[m - 1], now) && ps[m].at - ps[m - 1].at <= GAP;
    }
    forall i | m <= i < |ps| ensures Recent(ps[i], now) {
      RegularRises(ps, counter, m, i);
    }
    forall i | 0 <= i < |ps| ensures PointOk(ps[i], now) {
      RegularRises(ps, counter, i, n);
    }
    ConsideredSuffix(ps, now, m);
    var cs := ps[m..];
    forall i | 0 < i < |cs| ensures StepOk(cs, i, counter) {
      assert cs[i] == ps[m + i] && cs[i - 1] == ps[m + i - 1];
    }
  }
}
