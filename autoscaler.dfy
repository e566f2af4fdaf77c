/** The horizontal autoscaler of
    `cna_sim/components/autoscalers/horizontal_autoscaler.py`. Every `interval`
    time units it averages a metric over the service's ACTIVE instances,
    keeps the averages of the last `downscale_stabilization_window` time
    units, and scales the service up at once but down only as far as the
    highest average of the window allows. */
module Autoscalers {
  import opened Common
  import opened Utils
  import opened SyncServers
  import opened LoadBalancers
  import opened Services

  /** `math.ceil` on a real. */
  function Ceil(x: real): (r: int)
    ensures r as real - 1.0 < x <= r as real
  {
    -((-x).Floor)
  }

  lemma CeilMonotone(x: real, y: real)
    requires x <= y
    ensures Ceil(x) <= Ceil(y)
  {
    assert Ceil(y) as real > Ceil(x) as real - 1.0;
  }

  /** `scale_compute(current_replica, target_util, current_util, min_v, max_v)`:
      the replica count that brings the utilization to the target, rounded
      up, raised to `min_v` and then capped at `max_v`. A zero target is a
      division by zero in the source. */
  function ScaleCompute(currentReplica: int, targetUtil: real, currentUtil: real, minV: int, maxV: int): (r: int)
    requires targetUtil != 0.0
    ensures r <= maxV
    ensures minV <= maxV ==> minV <= r
    ensures minV <= Ceil(Demand(currentReplica, currentUtil, targetUtil)) <= maxV ==>
              r == Ceil(Demand(currentReplica, currentUtil, targetUtil))
  {
    Clamp(Ceil(Demand(currentReplica, currentUtil, targetUtil)), minV, maxV)
  }

  /** `current_replica * current_util / target_util`: the replica count, not
      yet rounded, at which the utilization would meet the target. */
  function Demand(currentReplica: int, currentUtil: real, targetUtil: real): real
    requires targetUtil != 0.0
  {
    currentReplica as real * currentUtil / targetUtil
  }

  /** `min(max_v, max(min_v, v))`. */
  function Clamp(v: int, minV: int, maxV: int): int
  {
    var raised := if minV > v then minV else v;
    if maxV < raised then maxV else raised
  }

  /** Two replicas at full utilization with a target of one half need four. */
  lemma ScaleComputeExample()
    ensures ScaleCompute(2, 0.5, 1.0, 1, 10) == 4
  {
    assert 2.0 * 1.0 / 0.5 == 4.0;
    assert Ceil(4.0) == 4;
  }

  lemma ProductMonotone(c: real, t: real, u1: real, u2: real)
    requires c >= 0.0 && t > 0.0 && u1 <= u2
    ensures c * u1 / t <= c * u2 / t
  {
    assert c * u1 <= c * u2;
  }

  /** A higher utilization never asks for fewer replicas. */
  lemma ScaleComputeMonotone(currentReplica: nat, targetUtil: real, u1: real, u2: real, minV: int, maxV: int)
    requires targetUtil > 0.0 && u1 <= u2
    ensures ScaleCompute(currentReplica, targetUtil, u1, minV, maxV) <=
            ScaleCompute(currentReplica, targetUtil, u2, minV, maxV)
  {
    ProductMonotone(currentReplica as real, targetUtil, u1, u2);
    CeilMonotone(Demand(currentReplica, u1, targetUtil), Demand(currentReplica, u2, targetUtil));
  }

  /** The metric of every ACTIVE instance, by instance name. */
  function ActiveMetrics(instances: map<string, SyncServer>, metricName: string): (r: map<string, MetricValue>)
    reads instances.Values, set s | s in instances.Values :: s.pool
    requires forall k :: k in instances ==> instances[k].Valid()
    ensures forall k :: k in r <==> k in ActiveKeys(instances)
    ensures forall k :: k in r ==> (r[k].MNum? <==> metricName in NumericMetrics)
  {
    map k | k in ActiveKeys(instances) :: instances[k].Metric(metricName)
  }

  /** The numeric entries of a metric map. */
  function Numbers(values: map<string, MetricValue>): (r: map<string, real>)
    ensures forall k :: k in r <==> k in values && values[k].MNum?
    ensures forall k :: k in r ==> r[k] == values[k].x
  {
    map k | k in values && values[k].MNum? :: values[k].x
  }

  predicate AllNumeric(values: map<string, MetricValue>)
  {
    forall k :: k in values ==> values[k].MNum?
  }

  /** The sum of `xs` over `keys`, in no particular order. */
  ghost function SumOver(xs: map<string, real>, keys: set<string>): real
    requires keys <= xs.Keys
    decreases keys
  {
    if keys == {} then 0.0
    else
      var k :| k in keys;
      xs[k] + SumOver(xs, keys - {k})
  }

  /** Any key can be taken out of the sum first. */
  lemma {:induction false} SumOverRemove(xs: map<string, real>, keys: set<string>, k: string)
    requires keys <= xs.Keys && k in keys
    ensures SumOver(xs, keys) == xs[k] + SumOver(xs, keys - {k})
    decreases |keys|
  {
    var j :| j in keys && SumOver(xs, keys) == xs[j] + SumOver(xs, keys - {j});
    if j != k {
      SumOverRemove(xs, keys - {j}, k);
      SumOverRemove(xs, keys - {k}, j);
      assert keys - {j} - {k} == keys - {k} - {j};
    }
  }

  /** `n` copies of `x` added up. */
  function Times(n: nat, x: real): real
  {
    if n == 0 then 0.0 else x + Times(n - 1, x)
  }

  lemma {:induction false} TimesIsProduct(n: nat, x: real)
    ensures Times(n, x) == n as real * x
  {
    if n > 0 {
      TimesIsProduct(n - 1, x);
      assert (n - 1) as real * x + x == n as real * x;
    }
  }

  /** A sum of values between `lo` and `hi` lies between |keys| copies of
      `lo` and |keys| copies of `hi`. */
  lemma {:induction false} SumOverBounds(xs: map<string, real>, keys: set<string>, lo: real, hi: real)
    requires keys <= xs.Keys
    requires forall k :: k in keys ==> lo <= xs[k] <= hi
    ensures Times(|keys|, lo) <= SumOver(xs, keys) <= Times(|keys|, hi)
    decreases keys
  {
    if keys != {} {
      var k :| k in keys;
      var rest := keys - {k};
      SumOverRemove(xs, keys, k);
      SumOverBounds(xs, rest, lo, hi);
      assert |keys| == |rest| + 1;
    }
  }

  /** The average of the collected metrics lies between the smallest and the
      largest of them. */
  lemma AverageWithin(xs: map<string, real>, lo: real, hi: real)
    requires |xs| > 0
    requires forall k :: k in xs ==> lo <= xs[k] <= hi
    ensures lo <= SumOver(xs, xs.Keys) / |xs| as real <= hi
  {
    SumOverBounds(xs, xs.Keys, lo, hi);
    TimesIsProduct(|xs|, lo);
    TimesIsProduct(|xs|, hi);
    var n := |xs| as real;
    var s := SumOver(xs, xs.Keys);
    assert n * lo <= s <= n * hi;
    DivideWithin(s, n, lo, hi);
  }

  lemma DivideWithin(s: real, n: real, lo: real, hi: real)
    requires n > 0.0 && n * lo <= s <= n * hi
    ensures lo <= s / n <= hi
  {
    assert s / n - lo == (s - n * lo) / n;
    assert hi - s / n == (n * hi - s) / n;
  }

  /** `sum(metric_list)`: the sum of the numeric metrics, or TypeError when
      one of them is not a number (a status text or None). */
  method MetricTotal(values: map<string, MetricValue>) returns (r: PyResult<real>)
    ensures r.Raise? <==> !AllNumeric(values)
    ensures r.Raise? ==> r.exception == TypeError
    ensures r.Value? ==> r.value == SumOver(Numbers(values), values.Keys)
  {
    var nums := Numbers(values);
    var visited: set<string> := {};
    var remaining := values.Keys;
    var total := 0.0;
    while remaining != {}
      invariant remaining <= values.Keys && visited == values.Keys - remaining
      invariant visited <= nums.Keys
      invariant total == SumOver(nums, visited)
      decreases remaining
    {
      var k :| k in remaining;
      if !values[k].MNum? {
        return Raise(TypeError);
      }
      SumOverRemove(nums, visited + {k}, k);
      assert visited + {k} - {k} == visited;
      total := total + values[k].x;
      visited := visited + {k};
      remaining := remaining - {k};
    }
    assert visited == values.Keys;
    assert forall k :: k in values ==> k in nums;
    return Value(total);
  }

  /** `[x for x in window if x[0] > cutoff]`. */
  function Recent(window: seq<(real, real)>, cutoff: real): (r: seq<(real, real)>)
    ensures forall x :: x in r <==> x in window && x.0 > cutoff
    ensures |r| <= |window|
  {
    if window == [] then []
    else if window[0].0 > cutoff then [window[0]] + Recent(window[1..], cutoff)
    else Recent(window[1..], cutoff)
  }

  /** The entries of a window in the order of their times. */
  predicate TimeOrdered(window: seq<(real, real)>)
  {
    forall i, j :: 0 <= i < j < |window| ==> window[i].0 <= window[j].0
  }

  lemma {:induction false} RecentKeepsAll(window: seq<(real, real)>, cutoff: real)
    requires forall x :: x in window ==> x.0 > cutoff
    ensures Recent(window, cutoff) == window
  {
    if window != [] {
      assert window[0] in window;
      assert forall x :: x in window[1..] ==> x in window;
      RecentKeepsAll(window[1..], cutoff);
    }
  }

  /** On a window kept in time order the filter only drops its oldest
      entries: what remains is a suffix. */
  lemma {:induction false} RecentIsSuffix(window: seq<(real, real)>, cutoff: real)
    requires TimeOrdered(window)
    ensures exists k :: 0 <= k <= |window| && Recent(window, cutoff) == window[k..]
  {
    if window == [] {
      assert Recent(window, cutoff) == window[0..];
    } else if window[0].0 > cutoff {
      forall x | x in window
        ensures x.0 > cutoff
      {
        var i :| 0 <= i < |window| && window[i] == x;
        if i > 0 {
          assert window[0].0 <= window[i].0;
        }
      }
      RecentKeepsAll(window, cutoff);
      assert Recent(window, cutoff) == window[0..];
    } else {
      RecentIsSuffix(window[1..], cutoff);
      var k :| 0 <= k <= |window[1..]| && Recent(window[1..], cutoff) == window[1..][k..];
      assert window[1..][k..] == window[k + 1..];
    }
  }

  /** Appending at a time no earlier than the newest entry and filtering
      keeps the window in time order. */
  lemma RecentStaysOrdered(window: seq<(real, real)>, now: real, avg: real, cutoff: real)
    requires TimeOrdered(window)
    requires forall x :: x in window ==> x.0 <= now
    ensures TimeOrdered(Recent(window + [(now, avg)], cutoff))
  {
    var w := window + [(now, avg)];
    forall i, j | 0 <= i < j < |w|
      ensures w[i].0 <= w[j].0
    {
      if j == |window| {
        assert w[i] in window;
      }
    }
    RecentIsSuffix(w, cutoff);
  }

  /** The entry appended at `now` survives the filter exactly when the
      stabilization window is positive. */
  lemma NewEntrySurvives(window: seq<(real, real)>, now: real, avg: real, stabilization: real)
    ensures (now, avg) in Recent(window + [(now, avg)], now - stabilization) <==> stabilization > 0.0
  {
  }

  /** `max([avg, *[x[1] for x in window]])`. */
  function WindowMax(avg: real, window: seq<(real, real)>): (r: real)
    ensures avg <= r
    ensures forall x :: x in window ==> x.1 <= r
    ensures r == avg || exists x :: x in window && r == x.1
  {
    if window == [] then avg
    else
      var rest := WindowMax(avg, window[1..]);
      assert forall x :: x in window[1..] ==> x in window;
      if window[0].1 > rest then window[0].1 else rest
  }

  /** The decision of `scale`: scale to `optimal` when it is no smaller than
      the ACTIVE count; otherwise to `window_optimal` when that is below the
      ACTIVE count; otherwise leave the service alone. */
  function Decide(currentReplica: int, optimal: int, windowOptimal: int): (r: Option<int>)
    ensures r.Some? <==> optimal >= currentReplica || windowOptimal < currentReplica
    ensures optimal >= currentReplica ==> r == Some(optimal)
    ensures optimal < currentReplica && windowOptimal < currentReplica ==> r == Some(windowOptimal)
  {
    if optimal >= currentReplica then Some(optimal)
    else if windowOptimal < currentReplica then Some(windowOptimal)
    else None
  }

  /** The window's highest average asks for at least as many replicas as
      the current average, so a scale-down never goes below the current
      optimal; and the service is never scaled above `max_num`. */
  lemma ScaleDownNeverBelowOptimal(currentReplica: nat, target: real, avg: real, window: seq<(real, real)>,
                                   minNum: int, maxNum: int)
    requires target > 0.0
    ensures var optimal := ScaleCompute(currentReplica, target, avg, minNum, maxNum);
            var windowOptimal := ScaleCompute(currentReplica, target, WindowMax(avg, window), minNum, maxNum);
            var d := Decide(currentReplica, optimal, windowOptimal);
            optimal <= windowOptimal &&
            (d.Some? ==> optimal <= d.value <= maxNum) &&
            (d.Some? && d.value < currentReplica ==> d.value == windowOptimal)
  {
    ScaleComputeMonotone(currentReplica, target, avg, WindowMax(avg, window), minNum, maxNum);
  }

  /** The trigger time after one tick of `process`: it moves on by exactly
      `interval` (not to `now`) when the autoscaler is enabled and at least
      `interval` has passed. */
  function NextTrigger(enabled: bool, lastTrigger: real, interval: real, now: real): (r: real)
    ensures !enabled ==> r == lastTrigger
    ensures r != lastTrigger ==> r == lastTrigger + interval && r <= now
  {
    if enabled && now - lastTrigger >= interval then lastTrigger + interval else lastTrigger
  }

  /** A trigger time that lags behind catches up one interval per tick. */
  lemma TriggerCatchesUp(lastTrigger: real, interval: real, now: real)
    requires interval > 0.0 && now - lastTrigger >= interval
    ensures NextTrigger(true, lastTrigger, interval, now) == lastTrigger + interval
    ensures now - NextTrigger(true, lastTrigger, interval, now) < now - lastTrigger
  {
  }

  /** What one `scale()` decides: its result, the value passed to
      `scale_to` (None when it is not called) and the new window. */
  datatype Assessment = Assessment(result: PyResult<()>, decision: Option<int>, window: seq<(real, real)>)

  /** `scale()` on the metrics `values` of the ACTIVE instances: nothing
      happens without ACTIVE instances; a metric that is not a number raises
      TypeError before the window changes; otherwise the average enters the
      window, entries no newer than `now - stabilization` leave it, and
      `Decide` compares the ACTIVE count with the optimal count for the
      average and for the window's highest average. */
  ghost function Assess(values: map<string, MetricValue>, window: seq<(real, real)>, now: real,
                        stabilization: real, target: real, minNum: int, maxNum: int): (a: Assessment)
    requires target != 0.0
    ensures |values| == 0 ==> a == Assessment(Value(()), None, window)
    ensures |values| > 0 && !AllNumeric(values) ==> a == Assessment(Raise(TypeError), None, window)
    ensures a.result.Value? <==> |values| == 0 || AllNumeric(values)
    ensures a.decision.Some? ==> a.decision.value <= maxNum
    ensures a.decision.Some? && a.decision.value < |values| ==>
              a.decision.value == ScaleCompute(|values|, target, WindowMax(Average(values), a.window), minNum, maxNum)
    ensures |values| > 0 && AllNumeric(values) ==>
              forall x :: x in a.window <==> (x in window || x == (now, Average(values))) && x.0 > now - stabilization
  {
    if |values| == 0 then Assessment(Value(()), None, window)
    else if !AllNumeric(values) then Assessment(Raise(TypeError), None, window)
    else
      var avg := Average(values);
      var w := Recent(window + [(now, avg)], now - stabilization);
      Assessment(Value(()),
                 Decide(|values|, ScaleCompute(|values|, target, avg, minNum, maxNum),
                        ScaleCompute(|values|, target, WindowMax(avg, w), minNum, maxNum)),
                 w)
  }

  /** The mean of the numeric metrics. */
  ghost function Average(values: map<string, MetricValue>): real
    requires |values| > 0 && AllNumeric(values)
  {
    SumOver(Numbers(values), values.Keys) / |values| as real
  }

  class HorizontalAutoscaler {
    const service: Service
    const enabled: bool
    const minNum: int
    const maxNum: int
    const interval: real
    const metricName: string
    const targetValue: real
    const stabilization: real
    var lastTrigger: real
    /** The (time, average) pairs of the stabilization window, oldest first. */
    var stableWindow: seq<(real, real)>

    ghost predicate Valid()
      reads service, Footprint(service.instances)
    {
      targetValue != 0.0 && service.Valid()
    }

    /** Defaults: enabled, between 1 and 10 instances, every 15 time units,
        a stabilization window of 300; the trigger time starts at 0 and the
        window empty. */
    constructor (service: Service, metricName: string, targetValue: real, enabled: Option<bool>,
                 minNum: Option<int>, maxNum: Option<int>, interval: Option<real>, stabilization: Option<real>)
      requires targetValue != 0.0 && service.Valid()
      ensures Valid() && this.service == service
      ensures this.enabled == DefaultIfNone(enabled, true)
      ensures this.minNum == DefaultIfNone(minNum, 1) && this.maxNum == DefaultIfNone(maxNum, 10)
      ensures this.interval == DefaultIfNone(interval, 15.0)
      ensures this.stabilization == DefaultIfNone(stabilization, 300.0)
      ensures this.metricName == metricName && this.targetValue == targetValue
      ensures lastTrigger == 0.0 && stableWindow == []
    {
      this.service := service;
      this.enabled := DefaultIfNone(enabled, true);
      this.minNum := DefaultIfNone(minNum, 1);
      this.maxNum := DefaultIfNone(maxNum, 10);
      this.interval := DefaultIfNone(interval, 15.0);
      this.metricName := metricName;
      this.targetValue := targetValue;
      this.stabilization := DefaultIfNone(stabilization, 300.0);
      lastTrigger := 0.0;
      stableWindow := [];
    }

    /** The evaluation half of `scale()` at time `now`: the window and the
        decision, with the service left untouched. */
    method Evaluate(now: real) returns (r: PyResult<()>, decision: Option<int>)
      requires Valid()
      modifies this`stableWindow
      ensures Assessment(r, decision, stableWindow) ==
              Assess(old(ActiveMetrics(service.instances, metricName)), old(stableWindow), now,
                     stabilization, targetValue, minNum, maxNum)
    ensures decision.Some? ==> decision.value <= maxNum
    {
      var values := ActiveMetrics(service.instances, metricName);
      if |values| == 0 {
        return Value(()), None;
      }
      var total := MetricTotal(values);
      if total.Raise? {
        return Raise(TypeError), None;
      }
      var current := |values|;
      var avg := total.value / current as real;
      assert AllNumeric(values) && avg == Average(values);
      ghost var old_window := stableWindow;
      stableWindow := Recent(stableWindow + [(now, avg)], now - stabilization);
      var windowAvg := WindowMax(avg, stableWindow);
      var optimal := ScaleCompute(current, targetValue, avg, minNum, maxNum);
      var windowOptimal := ScaleCompute(current, targetValue, windowAvg, minNum, maxNum);
      decision := Decide(current, optimal, windowOptimal);
      r := Value(());
      assert Assess(values, old_window, now, stabilization, targetValue, minNum, maxNum) ==
             Assessment(r, decision, stableWindow);
    }

    /** `scale()` at time `now`: evaluate, then scale the service to the
        decision, if any. `names` are the names the instance factory would
        give new instances. */
    method Scale(now: real, names: seq<string>) returns (r: PyResult<()>, decision: Option<int>, victims: seq<string>)
      requires Valid() && |names| >= maxNum
      modifies this`stableWindow, service, service.instances.Values
      ensures Valid()
      ensures var a := old(Assess(ActiveMetrics(service.instances, metricName), stableWindow, now,
                                  stabilization, targetValue, minNum, maxNum));
              decision == a.decision && stableWindow == a.window && (decision.None? ==> r == a.result)
      ensures decision.None? ==> service.instances == old(service.instances) && victims == []
      ensures decision.Some? ==> (r.Raise? <==> decision.value < 0)
      ensures decision.Some? ==>
                ScaledTo(old(service.instances), old(Statuses(service.instances)), service.instances,
                         decision.value, names, victims, service.name)
      ensures forall k :: k in service.instances && k !in old(service.instances) ==> fresh(service.instances[k])
    {
      r, decision := Evaluate(now);
      victims := [];
      if decision.Some? {
        victims, r := ApplyDecision(decision.value, names, now);
      }
    }

    /** `self.service.scale_to(n)` as `scale()` calls it; the window is not
        touched. */
    method ApplyDecision(n: int, names: seq<string>, now: real) returns (victims: seq<string>, r: PyResult<()>)
      requires Valid() && n <= maxNum && |names| >= maxNum
      modifies service, service.instances.Values
      ensures Valid() && stableWindow == old(stableWindow)
      ensures r.Raise? <==> n < 0
      ensures ScaledTo(old(service.instances), old(Statuses(service.instances)), service.instances,
                       n, names, victims, service.name)
      ensures forall k :: k in service.instances && k !in old(service.instances) ==> fresh(service.instances[k])
    {
      ghost var before := service.instances;
      ghost var status := Statuses(service.instances);
      ghost var starting := StartingKeys(service.instances);
      assert starting == (set k | k in status && status[k] == Starting);
      victims, r := service.ScaleTo(n, names, now);
    }

    /** One tick of `process` at time `now`: when enabled and at least
        `interval` has passed since the trigger time, the trigger time moves
        on by `interval` and the service is scaled (`Scale`). */
    method Tick(now: real, names: seq<string>)
      returns (r: PyResult<()>, scaled: bool, decision: Option<int>, victims: seq<string>)
      requires Valid() && |names| >= maxNum
      modifies this`lastTrigger, this`stableWindow, service, service.instances.Values
      ensures Valid()
      ensures lastTrigger == NextTrigger(enabled, old(lastTrigger), interval, now)
      ensures scaled <==> enabled && now - old(lastTrigger) >= interval
      ensures !scaled ==> r == Value(()) && decision.None? && stableWindow == old(stableWindow) &&
                          service.instances == old(service.instances)
      ensures scaled ==>
                var a := old(Assess(ActiveMetrics(service.instances, metricName), stableWindow, now,
                                    stabilization, targetValue, minNum, maxNum));
                decision == a.decision && stableWindow == a.window && (decision.None? ==> r == a.result)
      ensures decision.None? ==> service.instances == old(service.instances) && victims == []
      ensures decision.Some? ==> (r.Raise? <==> decision.value < 0)
      ensures decision.Some? ==>
                ScaledTo(old(service.instances), old(Statuses(service.instances)), service.instances,
                         decision.value, names, victims, service.name)
      ensures forall k :: k in service.instances && k !in old(service.instances) ==> fresh(service.instances[k])
    {
      scaled := enabled && now - lastTrigger >= interval;
      r, decision, victims := Value(()), None, [];
      if scaled {
        ghost var status := Statuses(service.instances);
        ghost var metrics := ActiveMetrics(service.instances, metricName);
        lastTrigger := lastTrigger + interval;
        assert Statuses(service.instances) == status;
        assert ActiveMetrics(service.instances, metricName) == metrics;
        r, decision, victims := Scale(now, names);
      }
    }
  }
}
