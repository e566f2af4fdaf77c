/** The load generator of
    `cna_sim/components/load_generators/dynamic_rps_load_generator.py`. Its
    configuration is a list of (time, rate, mode) points; `preprocess_rps_list`
    normalises and sorts them and makes the schedule start at time 0, `rps(t)`
    reads the target rate at time `t` off the segment around `t`, and
    `process` sends one request every `1/rps` seconds while the rate is at
    least one request per second and otherwise looks again a tenth of a second
    later. The request itself is sent by the client. */
module LoadGenerators {
  import opened Common
  import opened Utils
  import opened Request

  /** One configured entry: a time (a number, or a text that may end in `m`
      for thousandths), a rate, and an optional third element, the mode. */
  datatype RpsEntry = RpsEntry(time: PyScalar, value: real, mode: Option<string>)

  /** How the rate moves from the previous point to this one; any other
      text is kept as `Unknown`, which `rps` treats as outside every
      segment. */
  datatype Mode = Linear | StepStart | StepEnd | Accelerating | Decelerating | Unknown(name: string)

  function ModeOf(name: string): (m: Mode)
    ensures m.Unknown? ==> m.name == name
  {
    if name == "linear" then Linear
    else if name == "step_start" then StepStart
    else if name == "step_end" then StepEnd
    else if name == "accelerating" then Accelerating
    else if name == "decelerating" then Decelerating
    else Unknown(name)
  }

  /** One normalised point of the schedule: the rate `value` is reached at
      `time`, approached as `mode` says from the previous point. */
  datatype RpsPoint = RpsPoint(time: real, value: real, mode: Mode)

  const Origin: RpsPoint := RpsPoint(0.0, 0.0, Linear)

  /** Configured times are never None. */
  predicate TimesPresent(entries: seq<RpsEntry>)
  {
    forall i :: 0 <= i < |entries| ==> !entries[i].time.PyNone?
  }

  /** The first step of `preprocess_rps_list`: each time through `remove_m`,
      the mode defaulting to "linear" when the entry has only two elements.
      The first entry whose time `remove_m` rejects raises its exception. */
  function Normalize(entries: seq<RpsEntry>, parse: string -> Option<real>): (r: PyResult<seq<RpsPoint>>)
    requires TimesPresent(entries)
    ensures r.Value? <==> forall i :: 0 <= i < |entries| ==> RemoveM(entries[i].time, parse).Value?
    ensures r.Value? ==> |r.value| == |entries|
    ensures r.Value? ==> forall i :: 0 <= i < |entries| ==>
              RemoveM(entries[i].time, parse).value == Some(r.value[i].time) &&
              r.value[i].value == entries[i].value && r.value[i].mode == ModeOf(DefaultIfNone(entries[i].mode, "linear"))
    ensures r.Raise? ==> exists i :: 0 <= i < |entries| && RemoveM(entries[i].time, parse) == Raise(r.exception) &&
                                     (forall j :: 0 <= j < i ==> RemoveM(entries[j].time, parse).Value?)
  {
    if entries == [] then Value([])
    else
      match RemoveM(entries[0].time, parse)
      case Raise(e) => Raise(e)
      case Value(t) =>
        match Normalize(entries[1..], parse)
        case Raise(e) =>
          assert forall i :: 0 < i < |entries| ==> entries[i] == entries[1..][i - 1];
          Raise(e)
        case Value(rest) =>
          assert forall i :: 0 < i < |entries| ==> entries[i] == entries[1..][i - 1];
          Value([RpsPoint(t.value, entries[0].value, ModeOf(DefaultIfNone(entries[0].mode, "linear")))] + rest)
  }

  predicate SortedByTime(ps: seq<RpsPoint>)
  {
    forall i, j :: 0 <= i < j < |ps| ==> ps[i].time <= ps[j].time
  }

  /** The points at a given time, in their order: a stable sort keeps this
      subsequence as it was. */
  function AtTime(ps: seq<RpsPoint>, t: real): seq<RpsPoint>
  {
    if ps == [] then []
    else (if ps[0].time == t then [ps[0]] else []) + AtTime(ps[1..], t)
  }

  /** Insert `x` after every point whose time is at most its own. */
  function Insert(ps: seq<RpsPoint>, x: RpsPoint): (r: seq<RpsPoint>)
    ensures multiset(r) == multiset(ps) + multiset{x}
    ensures |r| == |ps| + 1
    ensures forall y :: y in r <==> y in ps || y == x
  {
    if ps == [] then [x]
    else if x.time < ps[0].time then [x] + ps
    else
      assert ps == [ps[0]] + ps[1..];
      [ps[0]] + Insert(ps[1..], x)
  }

  /** `list.sort(key=time)`: a stable sort by time, as insertion of each
      point, in order, into the already sorted prefix. */
  function SortByTime(ps: seq<RpsPoint>): (r: seq<RpsPoint>)
    ensures multiset(r) == multiset(ps)
    ensures |r| == |ps|
  {
    if ps == [] then []
    else
      assert ps == ps[..|ps| - 1] + [ps[|ps| - 1]];
      Insert(SortByTime(ps[..|ps| - 1]), ps[|ps| - 1])
  }

  lemma ConsSorted(y: RpsPoint, r: seq<RpsPoint>)
    requires SortedByTime(r)
    requires forall z :: z in r ==> y.time <= z.time
    ensures SortedByTime([y] + r)
  {
    forall i, j | 0 <= i < j < |[y] + r|
      ensures ([y] + r)[i].time <= ([y] + r)[j].time
    {
      assert ([y] + r)[j] == r[j - 1];
      if i > 0 {
        assert ([y] + r)[i] == r[i - 1];
      } else {
        assert r[j - 1] in r;
      }
    }
  }

  lemma {:induction false} InsertSorted(ps: seq<RpsPoint>, x: RpsPoint)
    requires SortedByTime(ps)
    ensures SortedByTime(Insert(ps, x))
  {
    if ps == [] {
      assert Insert(ps, x) == [x];
    } else if x.time < ps[0].time {
      forall z | z in ps
        ensures x.time <= z.time
      {
        var k :| 0 <= k < |ps| && ps[k] == z;
      }
      ConsSorted(x, ps);
    } else {
      InsertSorted(ps[1..], x);
      forall z | z in Insert(ps[1..], x)
        ensures ps[0].time <= z.time
      {
        if z != x {
          var k :| 0 <= k < |ps[1..]| && ps[1..][k] == z;
          assert ps[k + 1] == z;
        }
      }
      ConsSorted(ps[0], Insert(ps[1..], x));
    }
  }

  /** The sort yields time order. */
  lemma {:induction false} SortByTimeSorted(ps: seq<RpsPoint>)
    ensures SortedByTime(SortByTime(ps))
  {
    if ps != [] {
      SortByTimeSorted(ps[..|ps| - 1]);
      InsertSorted(SortByTime(ps[..|ps| - 1]), ps[|ps| - 1]);
    }
  }

  lemma {:induction false} AtTimeAppend(a: seq<RpsPoint>, b: seq<RpsPoint>, t: real)
    ensures AtTime(a + b, t) == AtTime(a, t) + AtTime(b, t)
  {
    if a == [] {
      assert a + b == b;
    } else {
      var head := if a[0].time == t then [a[0]] else [];
      assert (a + b)[0] == a[0];
      assert (a + b)[1..] == a[1..] + b;
      assert AtTime(a + b, t) == head + AtTime(a[1..] + b, t);
      AtTimeAppend(a[1..], b, t);
      assert head + (AtTime(a[1..], t) + AtTime(b, t)) == (head + AtTime(a[1..], t)) + AtTime(b, t);
    }
  }

  lemma AtTimeSingle(x: RpsPoint, t: real)
    ensures AtTime([x], t) == if x.time == t then [x] else []
  {
    assert [x][1..] == [];
  }

  lemma SplitLast(ps: seq<RpsPoint>)
    requires ps != []
    ensures ps == ps[..|ps| - 1] + [ps[|ps| - 1]]
  {
  }

  lemma {:induction false} InsertAtTime(ps: seq<RpsPoint>, x: RpsPoint, t: real)
    requires SortedByTime(ps)
    ensures AtTime(Insert(ps, x), t) == AtTime(ps, t) + (if x.time == t then [x] else [])
  {
    var tail := if x.time == t then [x] else [];
    AtTimeSingle(x, t);
    if ps == [] {
      assert Insert(ps, x) == [x];
    } else if x.time < ps[0].time {
      assert Insert(ps, x) == [x] + ps;
      AtTimeAppend([x], ps, t);
      if x.time == t {
        AtTimeAbove(ps, t);
      }
    } else {
      var head := if ps[0].time == t then [ps[0]] else [];
      AtTimeSingle(ps[0], t);
      InsertAtTime(ps[1..], x, t);
      assert Insert(ps, x) == [ps[0]] + Insert(ps[1..], x);
      AtTimeAppend([ps[0]], Insert(ps[1..], x), t);
      assert AtTime(Insert(ps, x), t) == head + (AtTime(ps[1..], t) + tail);
      assert AtTime(ps, t) == head + AtTime(ps[1..], t);
    }
  }

  lemma {:induction false} AtTimeAbove(ps: seq<RpsPoint>, t: real)
    requires forall i :: 0 <= i < |ps| ==> ps[i].time > t
    ensures AtTime(ps, t) == []
  {
    if ps != [] {
      AtTimeAbove(ps[1..], t);
    }
  }

  /** The sort is stable: the points of any one time keep their configured
      order. With the multiset equality above this makes it a permutation
      that only reorders points of different times. */
  lemma {:induction false} SortByTimeStable(ps: seq<RpsPoint>, t: real)
    ensures AtTime(SortByTime(ps), t) == AtTime(ps, t)
  {
    if ps != [] {
      var init, last := ps[..|ps| - 1], ps[|ps| - 1];
      SortByTimeStable(init, t);
      SortByTimeSorted(init);
      InsertAtTime(SortByTime(init), last, t);
      SplitLast(ps);
      AtTimeAppend(init, [last], t);
    }
  }

  /** `preprocess_rps_list`: normalise, sort stably by time, and put the
      point (0, 0, "linear") in front unless the earliest time is already 0.
      An empty list raises IndexError. */
  function Preprocess(entries: seq<RpsEntry>, parse: string -> Option<real>): (r: PyResult<seq<RpsPoint>>)
    requires TimesPresent(entries)
    ensures Normalize(entries, parse).Raise? ==> r == Raise(Normalize(entries, parse).exception)
    ensures entries == [] ==> r == Raise(IndexError)
    ensures r.Value? <==> entries != [] && Normalize(entries, parse).Value?
    ensures r.Value? ==> var sorted := SortByTime(Normalize(entries, parse).value);
                         |sorted| > 0 && |r.value| > 0 && r.value[0] == (if sorted[0].time == 0.0 then sorted[0] else Origin)
    ensures r.Value? ==> |entries| <= |r.value| <= |entries| + 1
  {
    match Normalize(entries, parse)
    case Raise(e) => Raise(e)
    case Value(ps) =>
      if ps == [] then Raise(IndexError)
      else
        var sorted := SortByTime(ps);
        if sorted[0].time != 0.0 then Value([Origin] + sorted) else Value(sorted)
  }

  /** A preprocessed schedule always starts at time 0 with at least one
      point; when no configured time is negative it is sorted by time and
      holds the configured points, plus the origin when none was at 0. */
  lemma PreprocessStartsAtZero(entries: seq<RpsEntry>, parse: string -> Option<real>)
    requires TimesPresent(entries)
    requires Preprocess(entries, parse).Value?
    ensures var ps := Preprocess(entries, parse).value; |ps| > 0 && ps[0].time == 0.0
    ensures var ps := Preprocess(entries, parse).value;
            (forall i :: 0 <= i < |entries| ==> RemoveM(entries[i].time, parse).value.value >= 0.0) ==>
              SortedByTime(ps) &&
              multiset(ps) == multiset(Normalize(entries, parse).value) +
                              (if |ps| > |entries| then multiset{Origin} else multiset{})
  {
    var ns := Normalize(entries, parse).value;
    var sorted := SortByTime(ns);
    SortByTimeSorted(ns);
    var ps := Preprocess(entries, parse).value;
    if forall i :: 0 <= i < |entries| ==> RemoveM(entries[i].time, parse).value.value >= 0.0 {
      forall j | 0 <= j < |sorted|
        ensures sorted[j].time >= 0.0
      {
        assert sorted[j] in multiset(ns);
        var k :| 0 <= k < |ns| && ns[k] == sorted[j];
      }
      if sorted[0].time != 0.0 {
        assert ps == [Origin] + sorted;
        assert multiset(ps) == multiset{Origin} + multiset(sorted);
      } else {
        assert ps == sorted;
      }
    }
  }

  function Times(ps: seq<RpsPoint>): (ts: seq<real>)
    ensures |ts| == |ps| && forall i :: 0 <= i < |ps| ==> ts[i] == ps[i].time
  {
    seq(|ps|, i requires 0 <= i < |ps| => ps[i].time)
  }

  predicate Ascending(a: seq<real>)
  {
    forall i, j :: 0 <= i < j < |a| ==> a[i] <= a[j]
  }

  /** `bisect.bisect_left(a, x, lo, hi)`, the binary search of Python's
      standard library. */
  function BisectLeft(a: seq<real>, x: real, lo: nat, hi: nat): (r: nat)
    requires lo <= hi <= |a|
    ensures lo <= r <= hi
    decreases hi - lo
  {
    if lo < hi then
      var mid := (lo + hi) / 2;
      if a[mid] < x then BisectLeft(a, x, mid + 1, hi) else BisectLeft(a, x, lo, mid)
    else lo
  }

  /** `bisect.bisect_right(a, x, lo, hi)`. */
  function BisectRight(a: seq<real>, x: real, lo: nat, hi: nat): (r: nat)
    requires lo <= hi <= |a|
    ensures lo <= r <= hi
    decreases hi - lo
  {
    if lo < hi then
      var mid := (lo + hi) / 2;
      if x < a[mid] then BisectRight(a, x, lo, mid) else BisectRight(a, x, mid + 1, hi)
    else lo
  }

  /** On an ascending list, `bisect_left` splits it into the values below
      `x` and the values at least `x`. */
  lemma {:induction false} BisectLeftSplits(a: seq<real>, x: real, lo: nat, hi: nat)
    requires lo <= hi <= |a| && Ascending(a)
    requires forall i :: 0 <= i < lo ==> a[i] < x
    requires forall i :: hi <= i < |a| ==> a[i] >= x
    ensures var r := BisectLeft(a, x, lo, hi);
            (forall i :: 0 <= i < r ==> a[i] < x) && (forall i :: r <= i < |a| ==> a[i] >= x)
    decreases hi - lo
  {
    if lo < hi {
      var mid := (lo + hi) / 2;
      if a[mid] < x {
        BisectLeftSplits(a, x, mid + 1, hi);
      } else {
        BisectLeftSplits(a, x, lo, mid);
      }
    }
  }

  /** On an ascending list, `bisect_right` splits it into the values at
      most `x` and the values above `x`. */
  lemma {:induction false} BisectRightSplits(a: seq<real>, x: real, lo: nat, hi: nat)
    requires lo <= hi <= |a| && Ascending(a)
    requires forall i :: 0 <= i < lo ==> a[i] <= x
    requires forall i :: hi <= i < |a| ==> a[i] > x
    ensures var r := BisectRight(a, x, lo, hi);
            (forall i :: 0 <= i < r ==> a[i] <= x) && (forall i :: r <= i < |a| ==> a[i] > x)
    decreases hi - lo
  {
    if lo < hi {
      var mid := (lo + hi) / 2;
      if x < a[mid] {
        BisectRightSplits(a, x, lo, mid);
      } else {
        BisectRightSplits(a, x, mid + 1, hi);
      }
    }
  }

  /** The fraction of the segment from `s` to `e` that has elapsed at `t`. */
  function Elapsed(s: RpsPoint, e: RpsPoint, t: real): (f: real)
    requires s.time < e.time
  {
    (t - s.time) / (e.time - s.time)
  }

  /** The rate inside the segment from `s` to `e` as the end point's mode
      shapes it, or `fallback` when `t` is outside the segment or the mode is
      none of the five known ones. */
  function SegmentRate(s: RpsPoint, e: RpsPoint, t: real, fallback: real): (r: real)
    ensures !(s.time <= t < e.time) || e.mode.Unknown? ==> r == fallback
    ensures s.time <= t < e.time && e.mode == StepStart ==> r == e.value
    ensures s.time <= t < e.time && e.mode == StepEnd ==> r == s.value
  {
    if s.time <= t < e.time then
      var f := Elapsed(s, e, t);
      match e.mode
      case Linear => Lerp(s.value, e.value, f)
      case StepStart => e.value
      case StepEnd => s.value
      case Accelerating => Lerp(s.value, e.value, f * f)
      case Decelerating => Lerp(s.value, e.value, 1.0 - (1.0 - f) * (1.0 - f))
      case Unknown(_) => fallback
    else fallback
  }

  /** The point a fraction `g` of the way from `a` to `b`. */
  function Lerp(a: real, b: real, g: real): real
  {
    a + (b - a) * g
  }

  /** The segment `rps` reads for a given insertion index: the first one
      for index 0, the last one for an index past the end, otherwise the one
      ending at the index. */
  function Segment(ps: seq<RpsPoint>, idx: nat): (se: (RpsPoint, RpsPoint))
    requires |ps| >= 2 && idx <= |ps|
    ensures exists j :: 0 <= j < |ps| - 1 && se == (ps[j], ps[j + 1])
  {
    if idx == 0 then (ps[0], ps[1])
    else if idx == |ps| then (ps[|ps| - 2], ps[|ps| - 1])
    else (ps[idx - 1], ps[idx])
  }

  /** `rps(t)` as written: the segment is chosen with `bisect_left`. Fewer
      than two points raise IndexError. */
  function Rps(ps: seq<RpsPoint>, t: real): (r: PyResult<real>)
    ensures r.Raise? <==> |ps| < 2
    ensures r.Raise? ==> r.exception == IndexError
  {
    if |ps| < 2 then Raise(IndexError)
    else
      var se := Segment(ps, BisectLeft(Times(ps), t, 0, |ps|));
      Value(SegmentRate(se.0, se.1, t, ps[|ps| - 1].value))
  }

  /** `rps(t)` with `bisect_right`, so that at a breakpoint the segment that
      starts there is read. */
  function RpsCorrected(ps: seq<RpsPoint>, t: real): (r: PyResult<real>)
    ensures r.Raise? <==> |ps| < 2
    ensures r.Raise? ==> r.exception == IndexError
  {
    if |ps| < 2 then Raise(IndexError)
    else
      var se := Segment(ps, BisectRight(Times(ps), t, 0, |ps|));
      Value(SegmentRate(se.0, se.1, t, ps[|ps| - 1].value))
  }

  lemma Scaled(g: real, d: real)
    requires 0.0 <= g <= 1.0
    ensures d >= 0.0 ==> 0.0 <= d * g <= d
    ensures d <= 0.0 ==> d <= d * g <= 0.0
  {
  }

  lemma DivBounds(x: real, d: real)
    requires 0.0 <= x < d
    ensures 0.0 <= x / d < 1.0
  {
    assert x / d * d == x;
  }

  /** A fraction `g` of the way from `lo` to `hi` lies between them. */
  lemma Between(lo: real, hi: real, g: real)
    requires 0.0 <= g <= 1.0
    ensures lo <= hi ==> lo <= Lerp(lo, hi, g) <= hi
    ensures hi <= lo ==> hi <= Lerp(lo, hi, g) <= lo
  {
    var d := hi - lo;
    Scaled(g, d);
    assert Lerp(lo, hi, g) == lo + d * g;
  }

  /** The three interpolating shapes map a fraction of the segment in
      [0, 1] to a fraction in [0, 1], and the start to the start. */
  lemma ShapesStayInUnit(f: real)
    requires 0.0 <= f <= 1.0
    ensures 0.0 <= f * f <= 1.0
    ensures 0.0 <= 1.0 - (1.0 - f) * (1.0 - f) <= 1.0
    ensures f == 0.0 ==> f * f == 0.0 && 1.0 - (1.0 - f) * (1.0 - f) == 0.0
  {
    Scaled(f, f);
    Scaled(1.0 - f, 1.0 - f);
  }

  /** The shaped fraction of an interpolating mode. */
  function Shape(m: Mode, f: real): real
  {
    match m
    case Accelerating => f * f
    case Decelerating => 1.0 - (1.0 - f) * (1.0 - f)
    case _ => f
  }

  /** Inside its segment an interpolating mode reads the shaped fraction of
      the way from the start's rate to the end's. */
  lemma SegmentRateShaped(s: RpsPoint, e: RpsPoint, t: real, fallback: real)
    requires s.time <= t < e.time
    requires e.mode.Linear? || e.mode.Accelerating? || e.mode.Decelerating?
    ensures SegmentRate(s, e, t, fallback) == Lerp(s.value, e.value, Shape(e.mode, Elapsed(s, e, t)))
  {
    match e.mode
    case Linear =>
    case Accelerating =>
    case Decelerating =>
  }

  /** Inside its segment a linear, accelerating or decelerating rate lies
      between the rates of the segment's two ends, and at the segment's start
      it is the start's rate. */
  lemma SegmentRateBetween(s: RpsPoint, e: RpsPoint, t: real, fallback: real)
    requires s.time <= t < e.time
    ensures e.mode in {Linear, Accelerating, Decelerating} ==>
              var v := SegmentRate(s, e, t, fallback);
              (s.value <= e.value ==> s.value <= v <= e.value) && (e.value <= s.value ==> e.value <= v <= s.value) &&
              (t == s.time ==> v == s.value)
  {
    if e.mode.Linear? || e.mode.Accelerating? || e.mode.Decelerating? {
      var f := Elapsed(s, e, t);
      DivBounds(t - s.time, e.time - s.time);
      ShapesStayInUnit(f);
      SegmentRateShaped(s, e, t, fallback);
      Between(s.value, e.value, Shape(e.mode, f));
      if t == s.time {
        assert f == 0.0;
      }
    }
  }

  /** Before the schedule's first point and from its last point on, the
      rate is the last point's rate; this holds for both segment choices. */
  lemma RpsOutsideSchedule(ps: seq<RpsPoint>, t: real)
    requires |ps| >= 2 && SortedByTime(ps)
    requires t < ps[0].time || t >= ps[|ps| - 1].time
    ensures Rps(ps, t) == Value(ps[|ps| - 1].value)
    ensures RpsCorrected(ps, t) == Value(ps[|ps| - 1].value)
  {
    var a := Times(ps);
    BisectLeftSplits(a, t, 0, |ps|);
    BisectRightSplits(a, t, 0, |ps|);
    var l := BisectLeft(a, t, 0, |ps|);
    var r := BisectRight(a, t, 0, |ps|);
    if t < ps[0].time {
      assert l == 0 && r == 0;
    } else {
      assert r == |ps|;
      if 0 < l < |ps| {
        assert a[l] >= t;
      }
    }
  }

  /** With `bisect_right` the segment read at `t` is the one containing it:
      its start is at most `t` and its end is after `t`. */
  lemma RpsCorrectedReadsContainingSegment(ps: seq<RpsPoint>, t: real)
    requires |ps| >= 2 && SortedByTime(ps)
    requires ps[0].time <= t < ps[|ps| - 1].time
    ensures var idx := BisectRight(Times(ps), t, 0, |ps|);
            0 < idx < |ps| && ps[idx - 1].time <= t < ps[idx].time &&
            RpsCorrected(ps, t) == Value(SegmentRate(ps[idx - 1], ps[idx], t, ps[|ps| - 1].value))
  {
    BisectRightSplits(Times(ps), t, 0, |ps|);
  }

  /** At a breakpoint that starts a segment of non-zero length, the
      corrected rate is the breakpoint's own rate (unless the segment is a
      step to its end value). */
  lemma RpsCorrectedAtBreakpoint(ps: seq<RpsPoint>, i: nat)
    requires i + 1 < |ps| && SortedByTime(ps)
    requires ps[i].time < ps[i + 1].time
    requires ps[i + 1].mode in {Linear, StepEnd, Accelerating, Decelerating}
    ensures RpsCorrected(ps, ps[i].time) == Value(ps[i].value)
  {
    var t := ps[i].time;
    BisectRightSplits(Times(ps), t, 0, |ps|);
    var idx := BisectRight(Times(ps), t, 0, |ps|);
    assert idx == i + 1;
    SegmentRateBetween(ps[i], ps[i + 1], t, ps[|ps| - 1].value);
  }

  /** Away from the breakpoints the two segment choices agree. */
  lemma RpsAgreesOffBreakpoints(ps: seq<RpsPoint>, t: real)
    requires SortedByTime(ps)
    requires forall i :: 0 <= i < |ps| ==> ps[i].time != t
    ensures Rps(ps, t) == RpsCorrected(ps, t)
  {
    if |ps| >= 2 {
      var a := Times(ps);
      BisectLeftSplits(a, t, 0, |ps|);
      BisectRightSplits(a, t, 0, |ps|);
      var l := BisectLeft(a, t, 0, |ps|);
      var r := BisectRight(a, t, 0, |ps|);
      assert l < |a| ==> a[l] > t;
      assert r < |a| ==> a[r] > t;
    }
  }

  /** As written, every breakpoint later than the first reads the last
      point's rate: `bisect_left` picks the segment that ends at the
      breakpoint, which does not contain it. */
  lemma RpsAtLaterBreakpoint(ps: seq<RpsPoint>, i: nat)
    requires |ps| >= 2 && SortedByTime(ps)
    requires i < |ps| && ps[0].time < ps[i].time
    ensures Rps(ps, ps[i].time) == Value(ps[|ps| - 1].value)
  {
    var a := Times(ps);
    var t := ps[i].time;
    BisectLeftSplits(a, t, 0, |ps|);
    var l := BisectLeft(a, t, 0, |ps|);
    assert 1 <= l <= i && a[l] == t;
  }

  /** The schedule (0, 0) → (10, 100) → (20, 0), all linear. */
  const RampUpDown: seq<RpsPoint> :=
    [RpsPoint(0.0, 0.0, Linear), RpsPoint(10.0, 100.0, Linear), RpsPoint(20.0, 0.0, Linear)]

  lemma RampUpDownTimes()
    ensures Times(RampUpDown) == [0.0, 10.0, 20.0]
  {
  }

  /** As written, at the interior breakpoint t = 10 the rate is the last
      point's rate 0 instead of 100: `bisect_left` picks the segment ending
      at 10, and `10 < 10` fails, so the fallback is read. */
  lemma RpsBreakpointGlitch()
    ensures Rps(RampUpDown, 10.0) == Value(0.0)
  {
    RampUpDownTimes();
    assert BisectLeft([0.0, 10.0, 20.0], 10.0, 0, 3) == 1;
    assert Segment(RampUpDown, 1) == (RampUpDown[0], RampUpDown[1]);
  }

  /** The corrected reading gives 100 at the breakpoint. */
  lemma RpsCorrectedBreakpointExample()
    ensures RpsCorrected(RampUpDown, 10.0) == Value(100.0)
  {
    RpsCorrectedAtBreakpoint(RampUpDown, 1);
  }

  /** Just before and just after the breakpoint the rate is 90 on both
      sides, so the reading at 10 is an isolated drop. */
  lemma RpsAroundBreakpoint()
    ensures Rps(RampUpDown, 9.0) == Value(90.0) && Rps(RampUpDown, 11.0) == Value(90.0)
  {
    RampUpDownTimes();
    var a := [0.0, 10.0, 20.0];
    assert BisectLeft(a, 9.0, 0, 3) == 1;
    assert BisectLeft(a, 11.0, 0, 3) == 2;
    var p0, p1, p2 := RampUpDown[0], RampUpDown[1], RampUpDown[2];
    assert Segment(RampUpDown, 1) == (p0, p1);
    assert Segment(RampUpDown, 2) == (p1, p2);
    SegmentRateShaped(p0, p1, 9.0, 0.0);
    assert Elapsed(p0, p1, 9.0) == 0.9;
    SegmentRateShaped(p1, p2, 11.0, 0.0);
    assert Elapsed(p1, p2, 11.0) == 0.1;
  }

  /** The generator's settings after `__init__`. */
  datatype LoadGenerator = LoadGenerator(
    points: seq<RpsPoint>, host: string, endpoint: string, request: MessageConfig,
    timeout: Option<real>, byProxy: bool)

  /** `__init__`: `rps_list`, `host` and `endpoint` must not be None
      (AssertionError, checked in that order, the list is preprocessed
      before the host is looked at); the request configuration defaults to
      an empty message and `by_proxy` to False; the timeout stays optional. */
  function NewLoadGenerator(rpsList: Option<seq<RpsEntry>>, host: Option<string>, endpoint: Option<string>,
                            request: Option<MessageConfig>, timeout: Option<real>, byProxy: Option<bool>,
                            parse: string -> Option<real>): (r: PyResult<LoadGenerator>)
    requires rpsList.Some? ==> TimesPresent(rpsList.value)
    ensures rpsList.None? ==> r == Raise(AssertionError)
    ensures rpsList.Some? && Preprocess(rpsList.value, parse).Raise? ==>
              r == Raise(Preprocess(rpsList.value, parse).exception)
    ensures rpsList.Some? && Preprocess(rpsList.value, parse).Value? && (host.None? || endpoint.None?) ==>
              r == Raise(AssertionError)
    ensures r.Value? <==> rpsList.Some? && Preprocess(rpsList.value, parse).Value? && host.Some? && endpoint.Some?
    ensures r.Value? ==> r.value.points == Preprocess(rpsList.value, parse).value && r.value.host == host.value &&
                         r.value.endpoint == endpoint.value && r.value.timeout == timeout
    ensures r.Value? ==> r.value.request == DefaultIfNone(request, DefaultMessageConfig) &&
                         r.value.byProxy == DefaultIfNone(byProxy, false)
  {
    match NotNone(rpsList)
    case Raise(e) => Raise(e)
    case Value(entries) =>
      match Preprocess(entries, parse)
      case Raise(e) => Raise(e)
      case Value(points) =>
        match NotNone(host)
        case Raise(e) => Raise(e)
        case Value(h) =>
          match NotNone(endpoint)
          case Raise(e) => Raise(e)
          case Value(ep) =>
            Value(LoadGenerator(points, h, ep, DefaultIfNone(request, DefaultMessageConfig), timeout,
                                DefaultIfNone(byProxy, false)))
  }

  /** One turn of `process`: wait `delay` seconds, then send one request
      when `send` is set. */
  datatype Tick = Tick(delay: real, send: bool)

  /** One turn of the `process` loop at time `now`: when the rate `rps`
      reads is at least one per second, wait one inter-arrival time and
      send; otherwise wait a tenth of a second and look again. */
  function ProcessTick(g: LoadGenerator, now: real): (r: PyResult<Tick>)
    ensures r.Raise? <==> |g.points| < 2
    ensures r.Value? ==> r.value == TickAt(Rps(g.points, now).value)
  {
    match Rps(g.points, now)
    case Raise(e) => Raise(e)
    case Value(rate) => Value(TickAt(rate))
  }

  /** The same turn with the corrected reading of the rate. */
  function ProcessTickCorrected(g: LoadGenerator, now: real): (r: PyResult<Tick>)
    ensures r.Raise? <==> |g.points| < 2
    ensures r.Value? ==> r.value == TickAt(RpsCorrected(g.points, now).value)
  {
    match RpsCorrected(g.points, now)
    case Raise(e) => Raise(e)
    case Value(rate) => Value(TickAt(rate))
  }

  /** The turn taken at a given rate: a request every `1/rate` seconds
      exactly when the rate is at least one, the time always advancing and
      by at most one second. */
  function TickAt(rate: real): (k: Tick)
    ensures 0.0 < k.delay <= 1.0
    ensures k.send <==> rate >= 1.0
    ensures k.send ==> k.delay * rate == 1.0
    ensures !k.send ==> k.delay == 0.1
  {
    if rate >= 1.0 then Tick(1.0 / rate, true) else Tick(0.1, false)
  }

  /** A segment whose two ends and fallback are below a bound reads below
      it, whatever the mode. */
  lemma SegmentRateBelow(s: RpsPoint, e: RpsPoint, t: real, fallback: real, bound: real)
    requires s.value < bound && e.value < bound && fallback < bound
    ensures SegmentRate(s, e, t, fallback) < bound
  {
    if s.time <= t < e.time && (e.mode.Linear? || e.mode.Accelerating? || e.mode.Decelerating?) {
      SegmentRateBetween(s, e, t, fallback);
    }
  }

  /** A schedule that never rises to one request per second never sends,
      with either reading of the rate. */
  lemma QuietScheduleNeverSends(g: LoadGenerator, now: real)
    requires |g.points| >= 2
    requires forall i :: 0 <= i < |g.points| ==> g.points[i].value < 1.0
    ensures ProcessTick(g, now) == Value(Tick(0.1, false))
    ensures ProcessTickCorrected(g, now) == Value(Tick(0.1, false))
  {
    var ps := g.points;
    var last := ps[|ps| - 1].value;
    var se := Segment(ps, BisectLeft(Times(ps), now, 0, |ps|));
    SegmentRateBelow(se.0, se.1, now, last, 1.0);
    var sc := Segment(ps, BisectRight(Times(ps), now, 0, |ps|));
    SegmentRateBelow(sc.0, sc.1, now, last, 1.0);
  }
}
