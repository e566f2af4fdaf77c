/** The server instance of `cna_sim/components/instances/sync_server.py`.

    An instance admits requests into a FIFO queue (bounded when `queue_size`
    is set and non-zero), and a single worker task takes them off the queue,
    waits for a free unit of the thread pool and starts the endpoint handler,
    which gives the unit back when it ends. Handlers spend simulated CPU time
    through `compute`, whose duration grows with contention and with the
    warm-up penalty of a newly activated instance. The instance goes
    STARTING -> ACTIVE -> TERMINATING -> TERMINATED; when it dies every request
    still queued fails with SERVER_DOWN and its `alive` event fires.

    The scheduler's `Store` is a `seq` and its `Container` an integer; each
    continuation after a suspension point is a step method taking the current
    time `now`. */
module SyncServers {
  import opened Common
  import opened Promises
  import opened Request
  import opened Utils
  import opened SimContext

  datatype Status = Starting | Active | Terminating | Terminated

  /** The text `metric('status')` reports. */
  function StatusName(s: Status): string
  {
    match s
    case Starting => "STARTING"
    case Active => "ACTIVE"
    case Terminating => "TERMINATING"
    case Terminated => "TERMINATED"
  }

  function Min(a: real, b: real): real { if a <= b then a else b }
  function Max(a: real, b: real): real { if a >= b then a else b }

  /** Python's `s[-n:]` for n > 0: the last `n` elements, or all of them. */
  function Last<T>(s: seq<T>, n: nat): (r: seq<T>)
    requires n > 0
    ensures |r| == if |s| <= n then |s| else n
    ensures r == s[|s| - |r|..]
  {
    if |s| <= n then s else s[|s| - n..]
  }

  /** The sum of the samples, each capped at the CPU quota, in list order. */
  function CappedSum(w: seq<nat>, quota: real): real
    decreases |w|
  {
    if w == [] then 0.0 else CappedSum(w[..|w| - 1], quota) + Min(w[|w| - 1] as real, quota)
  }

  lemma {:induction false} CappedSumBounds(w: seq<nat>, quota: real)
    requires quota >= 0.0
    ensures 0.0 <= CappedSum(w, quota) <= (|w| as real) * quota
    decreases |w|
  {
    if w != [] {
      CappedSumBounds(w[..|w| - 1], quota);
    }
  }

  /** `cpu_usage`: 0.0 without samples, otherwise the mean of the last (at
      most) ten thread-count samples, each capped at the CPU quota. */
  function CpuUsage(track: seq<nat>, cpuQuota: real): (r: real)
    ensures track == [] ==> r == 0.0
  {
    var w := Last(track, 10);
    if w == [] then 0.0 else CappedSum(w, cpuQuota) / (|w| as real)
  }

  /** Usage lies between 0 and the quota, so utilization lies in [0, 1]. */
  lemma CpuUsageBounds(track: seq<nat>, cpuQuota: real)
    requires cpuQuota >= 0.0
    ensures 0.0 <= CpuUsage(track, cpuQuota) <= cpuQuota
  {
    var w := Last(track, 10);
    if w != [] {
      CappedSumBounds(w, cpuQuota);
      QuotientBounds(CappedSum(w, cpuQuota), |w| as real, cpuQuota);
    }
  }

  /** A sum of n terms each in [0, q] has its mean in [0, q]. */
  lemma QuotientBounds(sum: real, n: real, q: real)
    requires n > 0.0 && 0.0 <= sum <= n * q
    ensures 0.0 <= sum / n <= q
  {
    assert sum / n * n == sum;
  }

  /** A quotient of 0 < t < w lies strictly between 0 and 1. */
  lemma FractionBelowOne(t: real, w: real)
    requires 0.0 < t < w
    ensures 0.0 < t / w < 1.0
  {
    assert t / w + (w - t) / w == w / w == 1.0;
  }

  /** Scaling a non-negative span by a fraction in [0, 1] stays in [0, span]. */
  lemma ScaleWithin(span: real, f: real)
    requires span >= 0.0 && 0.0 <= f <= 1.0
    ensures 0.0 <= span * f <= span
  {
    assert span * f <= span * 1.0;
  }

  /** `warming_up_factor`: with t the time since activation, the initial
      penalty up to and including the activation instant, a linear approach
      to 1 during `warming_up_time`, and exactly 1.0 afterwards. */
  function WarmingUpFactor(now: real, startTime: real, startUpDelay: real,
                           warmingUpTime: real, factorInit: real): (r: real)
    ensures now - startTime - startUpDelay <= 0.0 ==> r == factorInit
    ensures now - startTime - startUpDelay >= warmingUpTime && now - startTime - startUpDelay > 0.0 ==> r == 1.0
    ensures Min(factorInit, 1.0) <= r <= Max(factorInit, 1.0)
  {
    var t := now - startTime - startUpDelay;
    if t <= 0.0 then factorInit
    else if t < warmingUpTime then
      FractionBelowOne(t, warmingUpTime);
      var f := t / warmingUpTime;
      Interpolate(factorInit, 1.0, f)
    else 1.0
  }

  /** `a + (b - a) * f`, which lies between `a` and `b` for f in [0, 1]. */
  function Interpolate(a: real, b: real, f: real): (r: real)
    requires 0.0 <= f <= 1.0
    ensures Min(a, b) <= r <= Max(a, b)
  {
    InterpolateBetween(a, b - a, f);
    a + (b - a) * f
  }

  lemma InterpolateBetween(a: real, d: real, f: real)
    requires 0.0 <= f <= 1.0
    ensures Min(a, a + d) <= a + d * f <= Max(a, a + d)
  {
    if d >= 0.0 {
      ScaleWithin(d, f);
    } else {
      ScaleWithin(-d, f);
      assert (-d) * f == -(d * f);
    }
  }

  /** The duration `compute` waits: the sampled cost, slowed down by
      contention (more active threads than CPU quota) and by warm-up. */
  function ComputeDuration(sample: real, activeThreads: int, cpuQuota: real, warmUp: real): real
    requires cpuQuota != 0.0
  {
    sample * Max(1.0, (activeThreads as real) / cpuQuota) * warmUp
  }

  /** Contention only ever slows down: with a non-negative sample and
      warm-up factor the duration is at least their product, and it is
      exactly that product while the active threads fit in the quota. */
  lemma ContentionSlowsDown(sample: real, activeThreads: int, cpuQuota: real, warmUp: real)
    requires cpuQuota > 0.0 && sample >= 0.0 && warmUp >= 0.0
    ensures ComputeDuration(sample, activeThreads, cpuQuota, warmUp) >= sample * warmUp
    ensures (activeThreads as real) <= cpuQuota ==>
              ComputeDuration(sample, activeThreads, cpuQuota, warmUp) == sample * warmUp
  {
    var m := Max(1.0, (activeThreads as real) / cpuQuota);
    assert m >= 1.0;
    assert sample * m >= sample * 1.0;
    assert sample * m * warmUp >= sample * warmUp;
    if (activeThreads as real) <= cpuQuota {
      assert (activeThreads as real) / cpuQuota <= 1.0;
    }
  }

  /** Python truthiness of `queue_size`: None and 0 mean "no bound". */
  predicate Bounded(queueSize: Option<int>)
  {
    queueSize.Some? && queueSize.value != 0
  }

  /** The admission test of `recv_request` on a live instance. */
  predicate Admits(status: Status, queueSize: Option<int>, queueLength: nat)
  {
    (status == Active || status == Terminating) &&
    !(Bounded(queueSize) && queueLength >= queueSize.value)
  }

  /** Only ACTIVE and TERMINATING instances admit; a bounded queue admits
      only below its bound; `queue_size` None or 0 admits any length. */
  lemma AdmissionRule(status: Status, queueSize: Option<int>, queueLength: nat)
    ensures Admits(status, queueSize, queueLength) ==> status == Active || status == Terminating
    ensures Admits(status, queueSize, queueLength) && Bounded(queueSize) ==> queueLength + 1 <= queueSize.value
    ensures (status == Active || status == Terminating) && !Bounded(queueSize) ==>
              Admits(status, queueSize, queueLength)
  {
  }

  /** The largest length a bounded queue can reach (a negative bound
      admits nothing). */
  function QueueCap(queueSize: Option<int>): nat
    requires Bounded(queueSize)
  {
    if queueSize.value > 0 then queueSize.value else 0
  }

  datatype QueueItem = QueueItem(host: string, endpoint: string, rc: RequestContext)

  /** Where the worker loop of `process` is suspended. */
  datatype Worker = WaitingForItem | WaitingForThread(item: QueueItem) | Stopped

  /** The values `metric(name)` can return. */
  datatype MetricValue = MStatus(text: string) | MNum(x: real) | MNone

  /** The metric names that yield a number on an ACTIVE instance. */
  const NumericMetrics: set<string> := {"cpu_usage", "cpu_utilization", "active_threads"}

  /** The optional settings of a `SyncServerConfig`; None takes the default. */
  datatype InstanceConfig = InstanceConfig(
    cpuQuota: Option<real>,
    threads: Option<int>,
    queueSize: Option<int>,
    startUpDelay: Option<real>,
    warmingUpTime: Option<real>,
    warmingUpFactorInit: Option<real>,
    shutDownDelay: Option<real>)

  /** A configuration the instance can run with: a non-zero CPU quota
      (`compute` divides by it) and a positive thread count (the scheduler
      refuses a container without capacity). */
  predicate UsableConfig(c: InstanceConfig)
  {
    DefaultIfNone(c.cpuQuota, 1.0) != 0.0 && DefaultIfNone(c.threads, 32) > 0
  }

  /** `ThreadPool`: a container of `threads` units that starts full, the
      count of computations in progress, and the rolling record of that
      count kept by the pool's monitoring task. */
  class ThreadPool {
    const capacity: int
    var level: int
    var activeThreads: nat
    var activeThreadsTrack: seq<nat>

    ghost predicate Valid()
      reads this
    {
      0 <= level <= capacity &&
      |activeThreadsTrack| <= 20
    }

    constructor (threads: int)
      requires threads > 0
      ensures Valid()
      ensures capacity == threads && level == threads
      ensures activeThreads == 0 && activeThreadsTrack == []
    {
      capacity := threads;
      level := threads;
      activeThreads := 0;
      activeThreadsTrack := [];
    }

    /** One tick of the monitoring task (every 0.1 time units): append the
        current count and keep the last 20 samples. */
    method Sample()
      requires Valid()
      modifies this`activeThreadsTrack
      ensures Valid()
      ensures activeThreadsTrack == Last(old(activeThreadsTrack) + [activeThreads], 20)
      ensures activeThreadsTrack[|activeThreadsTrack| - 1] == activeThreads
    {
      activeThreadsTrack := Last(activeThreadsTrack + [activeThreads], 20);
    }
  }

  class SyncServer {
    const name: string
    var serviceName: Option<string>
    const cpuQuota: real
    const queueSize: Option<int>
    const startUpDelay: real
    const warmingUpTime: real
    const warmingUpFactorInit: real
    const shutDownDelay: real
    const startTime: real
    const pool: ThreadPool

    var status: Status
    /** Whether the `alive` event has fired (it carries SimError THIS_DOWN). */
    var alive: bool
    var queue: seq<QueueItem>
    var worker: Worker
    /** Handlers started by the worker that have not ended yet. */
    var running: nat

    ghost predicate Valid()
      reads this, pool
    {
      pool.Valid() &&
      cpuQuota != 0.0 &&
      (alive ==> status == Terminating || status == Terminated) &&
      pool.level + running == pool.capacity &&
      (Bounded(queueSize) ==> |queue| <= QueueCap(queueSize))
    }

    /** A new instance, created at time `now` and STARTING. The activation
        step, the worker and the monitoring tasks are the step methods below. */
    constructor (config: InstanceConfig, name: string, serviceName: Option<string>, now: real)
      requires UsableConfig(config)
      ensures Valid() && fresh(pool)
      ensures this.name == name && this.serviceName == serviceName && startTime == now
      ensures cpuQuota == DefaultIfNone(config.cpuQuota, 1.0)
      ensures queueSize == config.queueSize
      ensures startUpDelay == DefaultIfNone(config.startUpDelay, 0.0)
      ensures warmingUpTime == DefaultIfNone(config.warmingUpTime, 0.0)
      ensures warmingUpFactorInit == DefaultIfNone(config.warmingUpFactorInit, 2.0)
      ensures shutDownDelay == DefaultIfNone(config.shutDownDelay, 60.0)
      ensures pool.capacity == DefaultIfNone(config.threads, 32) && pool.level == pool.capacity
      ensures pool.activeThreads == 0 && pool.activeThreadsTrack == []
      ensures status == Starting && !alive && queue == [] && worker == WaitingForItem && running == 0
    {
      this.name := name;
      this.serviceName := serviceName;
      cpuQuota := DefaultIfNone(config.cpuQuota, 1.0);
      queueSize := config.queueSize;
      startUpDelay := DefaultIfNone(config.startUpDelay, 0.0);
      warmingUpTime := DefaultIfNone(config.warmingUpTime, 0.0);
      warmingUpFactorInit := DefaultIfNone(config.warmingUpFactorInit, 2.0);
      shutDownDelay := DefaultIfNone(config.shutDownDelay, 60.0);
      pool := new ThreadPool(DefaultIfNone(config.threads, 32));
      startTime := now;
      status := Starting;
      alive := false;
      queue := [];
      worker := WaitingForItem;
      running := 0;
    }

    /** `recv_request`: a dead instance ignores the request altogether.
        Otherwise the request is stamped with this instance's name and the
        arrival time, then either closed (CONNECTION_CLOSED, server promise
        rejected) or appended to the queue. */
    method RecvRequest(host: string, endpoint: string, rc: RequestContext, now: real)
      requires Valid()
      modifies this`queue, rc, rc.serverPromise
      ensures Valid()
      ensures old(alive) ==> queue == old(queue) && rc.State() == old(rc.State())
      ensures !old(alive) && Admits(status, queueSize, |old(queue)|) ==>
                queue == old(queue) + [QueueItem(host, endpoint, rc)] &&
                rc.State() == old(rc.State()).(view := old(rc.View()).(instanceName := Some(name), reqArrived := Some(now)))
      ensures !old(alive) && !Admits(status, queueSize, |old(queue)|) ==>
                queue == old(queue) &&
                rc.State() == AfterFail(old(rc.State()).(view := old(rc.View()).(instanceName := Some(name), reqArrived := Some(now))),
                                        SimException(CONNECTION_CLOSED), true, now)
    {
      if alive {
        return;
      }
      rc.instanceName := Some(name);
      rc.reqArrived := Some(now);
      if !Admits(status, queueSize, |queue|) {
        rc.Fail(SimException(CONNECTION_CLOSED), true, now);
      } else {
        queue := queue + [QueueItem(host, endpoint, rc)];
      }
    }

    /** The worker's `queue.get()` completes: it takes the oldest item.
        Nothing happens while the queue is empty or the worker is elsewhere. */
    method WorkerTake() returns (taken: Option<QueueItem>)
      requires Valid()
      modifies this`queue, this`worker
      ensures Valid()
      ensures taken.Some? <==> old(worker) == WaitingForItem && old(queue) != []
      ensures taken.Some? ==> taken.value == old(queue)[0] && queue == old(queue)[1..] &&
                              worker == WaitingForThread(taken.value)
      ensures taken.None? ==> queue == old(queue) && worker == old(worker)
    {
      if worker == WaitingForItem && queue != [] {
        taken := Some(queue[0]);
        queue := queue[1..];
        worker := WaitingForThread(taken.value);
      } else {
        taken := None;
      }
    }

    /** The worker's `threads.get(1)` completes: it takes one free unit and
        starts the handler for the item it holds, then re-tests the loop
        condition. Nothing happens while no unit is free. */
    method WorkerAcquire() returns (started: Option<QueueItem>)
      requires Valid()
      modifies pool`level, this`worker, this`running
      ensures Valid()
      ensures started.Some? <==> old(worker).WaitingForThread? && old(pool.level) >= 1
      ensures started.Some? ==> started.value == old(worker).item &&
                                pool.level == old(pool.level) - 1 && running == old(running) + 1 &&
                                worker == (if alive then Stopped else WaitingForItem)
      ensures started.None? ==> pool.level == old(pool.level) && running == old(running) && worker == old(worker)
    {
      if worker.WaitingForThread? && pool.level >= 1 {
        started := Some(worker.item);
        pool.level := pool.level - 1;
        running := running + 1;
        worker := if alive then Stopped else WaitingForItem;
      } else {
        started := None;
      }
    }

    /** A handler started by the worker ends: its unit goes back to the pool.
        Every started handler ends once, so a unit is always free to return. */
    method HandlerDone()
      requires Valid() && running > 0
      modifies pool`level, this`running
      ensures Valid()
      ensures pool.level == old(pool.level) + 1 && running == old(running) - 1
      ensures 0 < pool.level <= pool.capacity
    {
      pool.level := pool.level + 1;
      running := running - 1;
    }

    /** `warming_up_factor()` at time `now`. */
    function WarmingUp(now: real): real
      reads this
    {
      WarmingUpFactor(now, startTime, startUpDelay, warmingUpTime, warmingUpFactorInit)
    }

    /** The start of `compute(cpu_time)` at time `now`, given the sample
        drawn from `cpu_time`: count this computation as active, then work
        out how long it will wait. A negative duration (a normal
        distribution can sample one) makes the scheduler's timeout raise
        ValueError; the `finally` clause then gives the active count back,
        and nothing in the instance catches the error. */
    method ComputeBegin(sample: real, now: real) returns (r: PyResult<real>)
      requires Valid()
      modifies pool`activeThreads
      ensures Valid()
      ensures var d := ComputeDuration(sample, old(pool.activeThreads) + 1, cpuQuota, WarmingUp(now));
              (r.Raise? <==> d < 0.0) && (r.Value? ==> r.value == d)
      ensures r.Raise? ==> r.exception == ValueError && pool.activeThreads == old(pool.activeThreads)
      ensures r.Value? ==> pool.activeThreads == old(pool.activeThreads) + 1
    {
      pool.activeThreads := pool.activeThreads + 1;
      var duration := sample * Max(1.0, (pool.activeThreads as real) / cpuQuota) * WarmingUp(now);
      if duration < 0.0 {
        pool.activeThreads := pool.activeThreads - 1;
        return Raise(ValueError);
      }
      r := Value(duration);
    }

    /** The end of `compute`, whichever way the race between the timer and
        the `alive` event ended: the active count is given back (the
        `finally` clause), and the computation fails with the alive event's
        SimError when the instance was or became dead. */
    method ComputeEnd(e: RaceEnd<()>) returns (r: Result<()>)
      requires Valid() && pool.activeThreads > 0
      modifies pool`activeThreads
      ensures Valid()
      ensures pool.activeThreads == old(pool.activeThreads) - 1
      ensures r == AliveRace(e, SimError(THIS_DOWN), None, None)
      ensures r.Ok? <==> e.Finished? && e.r.Ok?
    {
      r := AliveRace(e, SimError(THIS_DOWN), None, None);
      pool.activeThreads := pool.activeThreads - 1;
    }

    /** The end of the `init` task, `start_up_delay` after creation: only a
        still STARTING instance becomes ACTIVE. */
    method Activate()
      requires Valid()
      modifies this`status
      ensures Valid()
      ensures status == (if old(status) == Starting then Active else old(status))
    {
      if status == Starting {
        status := Active;
      }
    }

    /** `terminate()`: the instance becomes TERMINATING at once; the
        shutdown itself is `ShutDown`, `shut_down_delay` later. */
    method Terminate()
      requires Valid()
      modifies this`status
      ensures Valid()
      ensures status == Terminating
    {
      status := Terminating;
    }

    /** The end of the shutdown task: every queued request fails with
        SERVER_DOWN (server promise rejected), the queue is emptied, `alive`
        fires and the instance is TERMINATED. The scheduler raises
        RuntimeError, after the queue has been drained, when `alive` had
        already fired (a second shutdown). */
    method ShutDown(now: real) returns (r: PyResult<()>)
      requires Valid()
      modifies this`queue, this`alive, this`status
      modifies set i | 0 <= i < |queue| :: queue[i].rc
      modifies set i | 0 <= i < |queue| :: queue[i].rc.serverPromise
      ensures Valid()
      ensures queue == [] && alive
      ensures r.Raise? <==> old(alive)
      ensures r.Raise? ==> r.exception == RuntimeError && status == old(status)
      ensures r.Value? ==> status == Terminated
      ensures forall j :: 0 <= j < |old(queue)| ==>
                old(queue)[j].rc.View() == Drained(old(queue[j].rc.View()), now)
      ensures forall j :: 0 <= j < |old(queue)| ==>
                old(queue)[j].rc.serverPromise.state ==
                  Settle(old(queue[j].rc.serverPromise.state), Err(SimException(SERVER_DOWN)))
    {
      FailAll(queue, now);
      queue := [];
      if alive {
        return Raise(RuntimeError);
      }
      alive := true;
      status := Terminated;
      r := Value(());
    }

    /** `metric(name)`: the status text always; on an ACTIVE instance the CPU
        usage, the utilization (usage over quota) or the active thread
        count; None in every other case. */
    function Metric(metricName: string): (r: MetricValue)
      reads this, pool
      requires Valid()
      ensures metricName == "status" <==> r.MStatus?
      ensures r.MStatus? ==> r.text == StatusName(status)
      ensures r.MNum? <==> status == Active && metricName in NumericMetrics
      ensures r.MNum? && metricName == "cpu_usage" && cpuQuota > 0.0 ==> 0.0 <= r.x <= cpuQuota
      ensures r.MNum? && metricName == "cpu_utilization" && cpuQuota > 0.0 ==> 0.0 <= r.x <= 1.0
      ensures r.MNum? && metricName == "cpu_usage" ==> r.x == CpuUsage(pool.activeThreadsTrack, cpuQuota)
      ensures r.MNum? && metricName == "cpu_utilization" ==> r.x == CpuUsage(pool.activeThreadsTrack, cpuQuota) / cpuQuota
      ensures r.MNum? && metricName == "active_threads" ==> r.x == pool.activeThreads as real
    {
      if metricName == "status" then MStatus(StatusName(status))
      else if status != Active then MNone
      else if metricName == "cpu_usage" then
        if cpuQuota > 0.0 then CpuUsageBounds(pool.activeThreadsTrack, cpuQuota); MNum(CpuUsage(pool.activeThreadsTrack, cpuQuota))
        else MNum(CpuUsage(pool.activeThreadsTrack, cpuQuota))
      else if metricName == "cpu_utilization" then
        var u := CpuUsage(pool.activeThreadsTrack, cpuQuota);
        if cpuQuota > 0.0 then
          CpuUsageBounds(pool.activeThreadsTrack, cpuQuota);
          QuotientBounds(u, cpuQuota, 1.0);
          MNum(u / cpuQuota)
        else MNum(u / cpuQuota)
      else if metricName == "active_threads" then MNum(pool.activeThreads as real)
      else MNone
    }
  }

  /** What the shutdown writes on a queued request. */
  function Drained(v: RcView, now: real): RcView
  {
    v.(failedAt := Some(now), status := Some(SERVER_DOWN))
  }

  /** The drain loop of the shutdown: every queued request fails with
      SERVER_DOWN at the server. A request queued twice is failed twice,
      which leaves the same status and the same (first) settlement. */
  method FailAll(q: seq<QueueItem>, now: real)
    modifies set i | 0 <= i < |q| :: q[i].rc
    modifies set i | 0 <= i < |q| :: q[i].rc.serverPromise
    ensures forall j :: 0 <= j < |q| ==> q[j].rc.View() == Drained(old(q[j].rc.View()), now)
    ensures forall j :: 0 <= j < |q| ==>
              q[j].rc.serverPromise.state ==
                Settle(old(q[j].rc.serverPromise.state), Err(SimException(SERVER_DOWN)))
  {
    var i := 0;
    while i < |q|
      invariant 0 <= i <= |q|
      invariant forall j :: 0 <= j < i ==>
                  q[j].rc.View() == Drained(old(q[j].rc.View()), now) &&
                  q[j].rc.serverPromise.state == Settle(old(q[j].rc.serverPromise.state), Err(SimException(SERVER_DOWN)))
      invariant forall j :: i <= j < |q| ==>
                  (q[j].rc.View() == old(q[j].rc.View()) || q[j].rc.View() == Drained(old(q[j].rc.View()), now)) &&
                  (q[j].rc.serverPromise.state == old(q[j].rc.serverPromise.state) ||
                   q[j].rc.serverPromise.state == Settle(old(q[j].rc.serverPromise.state), Err(SimException(SERVER_DOWN))))
    {
      q[i].rc.Fail(SimException(SERVER_DOWN), true, now);
      i := i + 1;
    }
  }
}
