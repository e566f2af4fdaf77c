/** The endpoints of an instance:
    `cna_sim/components/endpoints/default_endpoint.py` keeps a table from API
    path to handler, filled from the methods that carry an `_api_path` mark,
    and dispatches an arriving request to the handler of its endpoint,
    settling the request with the handler's outcome;
    `cna_sim/components/endpoints/static_endpoint.py` adds handlers that spend
    one sampled computation time and then call their dependencies one after
    another.

    A handler runs as a simulated process; here it is started by
    `RecvStart`, and its outcome, produced by the instance and the network,
    is handed to `RecvComplete`. The static handler's run is `RunStatic`,
    whose computation and dependency outcomes are inputs. */
module Endpoints {
  import opened Common
  import opened Utils
  import opened Request

  /** A dependency of a static handler: a host and an endpoint on it. */
  datatype Dependency = Dependency(host: string, endpoint: string)

  /** A handler: a marked method of the endpoint class, known by its name,
      or a static handler added with `add`. */
  datatype Api = MethodApi(name: string) | Static(dependencies: seq<Dependency>, computationTime: Distribution)

  /** An attribute as `dir(self)` lists it: its name, whether it is
      callable, and its `_api_path` mark if it has one. */
  datatype Attribute = Attribute(name: string, callable: bool, apiPath: Option<string>)

  /** The `sync_api(path)` and `async_api(path)` decorators: both only mark
      the function with `_api_path = path`. */
  function ApiDecorator(path: string, a: Attribute): (r: Attribute)
    ensures r.apiPath == Some(path) && r.name == a.name && r.callable == a.callable
  {
    a.(apiPath := Some(path))
  }

  /** Whether `_collect_apis` registers the attribute. */
  predicate IsApi(a: Attribute)
  {
    a.callable && a.apiPath.Some?
  }

  /** The table after `_collect_apis` has visited `attrs` in order, starting
      from `table`: each callable marked attribute is entered under its path,
      a later one replacing an earlier one. */
  function Collected(table: map<string, Api>, attrs: seq<Attribute>): map<string, Api>
    decreases |attrs|
  {
    if attrs == [] then table
    else
      var last := attrs[|attrs| - 1];
      var before := Collected(table, attrs[..|attrs| - 1]);
      if IsApi(last) then before[last.apiPath.value := MethodApi(last.name)] else before
  }

  /** A path is in the collected table exactly when it was there already or
      some callable attribute is marked with it; its handler is the last such
      attribute, or the old entry when there is none. */
  lemma {:induction false} CollectedEntries(table: map<string, Api>, attrs: seq<Attribute>, path: string)
    ensures path in Collected(table, attrs) <==>
              path in table || exists i :: 0 <= i < |attrs| && IsApi(attrs[i]) && attrs[i].apiPath.value == path
    ensures forall i :: 0 <= i < |attrs| && IsApi(attrs[i]) && attrs[i].apiPath.value == path &&
                        (forall j :: i < j < |attrs| && IsApi(attrs[j]) ==> attrs[j].apiPath.value != path) ==>
              Collected(table, attrs)[path] == MethodApi(attrs[i].name)
    ensures (forall i :: 0 <= i < |attrs| && IsApi(attrs[i]) ==> attrs[i].apiPath.value != path) ==>
              (path in table ==> path in Collected(table, attrs) && Collected(table, attrs)[path] == table[path])
    decreases |attrs|
  {
    if attrs != [] {
      var init := attrs[..|attrs| - 1];
      var last := attrs[|attrs| - 1];
      CollectedEntries(table, init, path);
      assert forall i :: 0 <= i < |init| ==> init[i] == attrs[i];
      if path in Collected(table, attrs) && !(path in table) && !(IsApi(last) && last.apiPath.value == path) {
        var i :| 0 <= i < |init| && IsApi(init[i]) && init[i].apiPath.value == path;
        assert attrs[i] == init[i];
      }
    }
  }

  /** A static handler's run when its computation ends with `compute` and
      its i-th dependency call ends with `replies[i]`: a failed computation
      fails the handler before any call; otherwise the first failed call
      fails it, and when every call succeeds the handler returns an empty
      message. */
  function StaticOutcome(compute: Result<()>, replies: seq<Result<Message>>): (r: Result<Message>)
    ensures compute.Err? ==> r == Err(compute.error)
    ensures r.Ok? <==> compute.Ok? && forall i :: 0 <= i < |replies| ==> replies[i].Ok?
    ensures r.Ok? ==> r.value == EmptyMessage
    ensures compute.Ok? && r.Err? ==>
              exists k :: 0 <= k < |replies| && replies[k] == Err(r.error) && forall i :: 0 <= i < k ==> replies[i].Ok?
  {
    if compute.Err? then Err(compute.error)
    else
      var k := FirstFailure(replies);
      if k == |replies| then Ok(EmptyMessage) else Err(replies[k].error)
  }

  /** The index of the first failed outcome, or the length when there is
      none. */
  function FirstFailure(replies: seq<Result<Message>>): (k: nat)
    ensures k <= |replies|
    ensures forall i :: 0 <= i < k ==> replies[i].Ok?
    ensures k < |replies| ==> replies[k].Err?
  {
    if replies == [] then 0
    else if replies[0].Err? then 0
    else 1 + FirstFailure(replies[1..])
  }

  /** The dependencies a static handler calls, in order: none when the
      computation fails, otherwise every one up to and including the first
      whose call fails. */
  function StaticCalls(dependencies: seq<Dependency>, compute: Result<()>, replies: seq<Result<Message>>): (calls: seq<Dependency>)
    requires |replies| == |dependencies|
    ensures calls <= dependencies
    ensures compute.Err? ==> calls == []
    ensures compute.Ok? && StaticOutcome(compute, replies).Ok? ==> calls == dependencies
    ensures compute.Ok? && StaticOutcome(compute, replies).Err? ==>
              0 < |calls| && replies[|calls| - 1] == StaticOutcome(compute, replies)
  {
    if compute.Err? then []
    else
      var k := FirstFailure(replies);
      if k == |replies| then dependencies else dependencies[..k + 1]
  }

  /** The body of the handler `add` builds: compute, then call each
      dependency in order with an empty message, stopping at the first
      failure. */
  method RunStatic(dependencies: seq<Dependency>, compute: Result<()>, replies: seq<Result<Message>>)
    returns (r: Result<Message>, calls: seq<Dependency>)
    requires |replies| == |dependencies|
    ensures r == StaticOutcome(compute, replies)
    ensures calls == StaticCalls(dependencies, compute, replies)
  {
    if compute.Err? {
      return Err(compute.error), [];
    }
    calls := [];
    var i := 0;
    while i < |dependencies|
      invariant 0 <= i <= |dependencies|
      invariant calls == dependencies[..i]
      invariant forall j :: 0 <= j < i ==> replies[j].Ok?
    {
      calls := calls + [dependencies[i]];
      if replies[i].Err? {
        assert FirstFailure(replies) == i by { FirstFailureAt(replies, i); }
        return Err(replies[i].error), calls;
      }
      i := i + 1;
    }
    FirstFailureNone(replies);
    assert calls == dependencies;
    r := Ok(EmptyMessage);
  }

  lemma {:induction false} FirstFailureAt(replies: seq<Result<Message>>, i: nat)
    requires i < |replies| && replies[i].Err?
    requires forall j :: 0 <= j < i ==> replies[j].Ok?
    ensures FirstFailure(replies) == i
  {
    if i > 0 {
      FirstFailureAt(replies[1..], i - 1);
    }
  }

  lemma {:induction false} FirstFailureNone(replies: seq<Result<Message>>)
    requires forall j :: 0 <= j < |replies| ==> replies[j].Ok?
    ensures FirstFailure(replies) == |replies|
  {
    if replies != [] {
      FirstFailureNone(replies[1..]);
    }
  }

  /** The replies after the first failed call play no part: the handler's
      outcome and its calls are the same whatever they are. */
  lemma StaticIgnoresLaterReplies(dependencies: seq<Dependency>, compute: Result<()>,
                                  a: seq<Result<Message>>, b: seq<Result<Message>>, k: nat)
    requires |a| == |b| == |dependencies|
    requires k < |a| && a[..k + 1] == b[..k + 1] && a[k].Err?
    ensures StaticOutcome(compute, a) == StaticOutcome(compute, b)
    ensures StaticCalls(dependencies, compute, a) == StaticCalls(dependencies, compute, b)
  {
    var f := FirstFailure(a);
    assert f <= k;
    assert forall j :: 0 <= j <= k ==> a[j] == a[..k + 1][j] == b[..k + 1][j] == b[j];
    FirstFailureAt(a, f);
    FirstFailureAt(b, f);
  }

  /** How `recv_request` settles the request with the handler's outcome:
      success with the response; a SimError (the server went down while
      computing) as SERVER_DOWN; any other failure as SERVER_ERROR. */
  function DispatchedStatus(outcome: Result<Message>): (status: string)
    ensures outcome.Ok? ==> status == SUCCEED
    ensures outcome.Err? && outcome.error.SimError? ==> status == SERVER_DOWN
    ensures outcome.Err? && outcome.error.SimException? ==> status == SERVER_ERROR
  {
    match outcome
    case Ok(_) => SUCCEED
    case Err(SimError(_)) => SERVER_DOWN
    case Err(SimException(_)) => SERVER_ERROR
  }

  /** One JSON entry of a static endpoint configuration. */
  datatype StaticEndpointJson = StaticEndpointJson(endpointName: string, dependencies: seq<Dependency>,
                                                   computationTime: DistributionJson)

  /** One argument triple of `add`. */
  datatype StaticEndpointConfig = StaticEndpointConfig(endpointName: string, dependencies: seq<Dependency>,
                                                       computationTime: Distribution)

  /** `StaticEndPointConfig.from_json`: every entry's computation time
      through `Distribution.from_json`, in order; the first that raises ends
      the reading with its exception. */
  function StaticFromJson(js: seq<StaticEndpointJson>, parse: string -> Option<real>): (r: PyResult<seq<StaticEndpointConfig>>)
    ensures r.Value? <==> forall i :: 0 <= i < |js| ==> DistributionFromJson(js[i].computationTime, parse).Value?
    ensures r.Value? ==> |r.value| == |js|
    ensures r.Value? ==> forall i :: 0 <= i < |js| ==>
              r.value[i] == StaticEndpointConfig(js[i].endpointName, js[i].dependencies,
                                                 DistributionFromJson(js[i].computationTime, parse).value)
    ensures r.Raise? ==> exists i :: 0 <= i < |js| && DistributionFromJson(js[i].computationTime, parse) == Raise(r.exception)
  {
    if js == [] then Value([])
    else
      match DistributionFromJson(js[0].computationTime, parse)
      case Raise(e) => Raise(e)
      case Value(d) =>
        match StaticFromJson(js[1..], parse)
        case Raise(e) =>
          assert forall i :: 0 < i < |js| ==> js[i] == js[1..][i - 1];
          Raise(e)
        case Value(rest) =>
          assert forall i :: 0 < i < |js| ==> js[i] == js[1..][i - 1];
          Value([StaticEndpointConfig(js[0].endpointName, js[0].dependencies, d)] + rest)
  }

  /** The table after `add` was called for each configuration in order. */
  function AddedAll(table: map<string, Api>, configs: seq<StaticEndpointConfig>): map<string, Api>
    decreases |configs|
  {
    if configs == [] then table
    else
      var last := configs[|configs| - 1];
      AddedAll(table, configs[..|configs| - 1])[last.endpointName := Static(last.dependencies, last.computationTime)]
  }

  /** After the configured handlers are added, each configured name maps to
      the static handler of the last configuration with that name, and
      every other entry is as before. */
  lemma {:induction false} AddedAllEntries(table: map<string, Api>, configs: seq<StaticEndpointConfig>, name: string)
    ensures name in AddedAll(table, configs) <==>
              name in table || exists i :: 0 <= i < |configs| && configs[i].endpointName == name
    ensures forall i :: 0 <= i < |configs| && configs[i].endpointName == name &&
                        (forall j :: i < j < |configs| ==> configs[j].endpointName != name) ==>
              AddedAll(table, configs)[name] == Static(configs[i].dependencies, configs[i].computationTime)
    ensures (forall i :: 0 <= i < |configs| ==> configs[i].endpointName != name) && name in table ==>
              AddedAll(table, configs)[name] == table[name]
    decreases |configs|
  {
    if configs != [] {
      var init := configs[..|configs| - 1];
      AddedAllEntries(table, init, name);
      assert forall i :: 0 <= i < |init| ==> init[i] == configs[i];
      var last := configs[|configs| - 1];
      if name in AddedAll(table, configs) && name !in table && last.endpointName != name {
        var i :| 0 <= i < |init| && init[i].endpointName == name;
        assert configs[i] == init[i];
      }
    }
  }

  class DefaultEndPoint {
    var endpoints: map<string, Api>

    /** `DefaultEndPoint(...)`: the table starts empty and `_collect_apis`
        fills it from the class's attributes, in `dir()` order. */
    constructor (attrs: seq<Attribute>)
      ensures endpoints == Collected(map[], attrs)
    {
      endpoints := map[];
      new;
      CollectApis(attrs);
    }

    /** `_collect_apis`: visit the attributes in order and enter each
        callable marked one under its path. */
    method CollectApis(attrs: seq<Attribute>)
      modifies this`endpoints
      ensures endpoints == Collected(old(endpoints), attrs)
    {
      ghost var start := endpoints;
      var i := 0;
      while i < |attrs|
        invariant 0 <= i <= |attrs|
        invariant endpoints == Collected(start, attrs[..i])
      {
        assert attrs[..i + 1][..i] == attrs[..i];
        if IsApi(attrs[i]) {
          endpoints := endpoints[attrs[i].apiPath.value := MethodApi(attrs[i].name)];
        }
        i := i + 1;
      }
      assert attrs[..i] == attrs;
    }

    /** `StaticEndPoint.add(name, dependencies, computation_time)`: the
        static handler replaces whatever `name` had; the endpoint itself is
        returned. */
    method Add(name: string, dependencies: seq<Dependency>, computationTime: Distribution) returns (self: DefaultEndPoint)
      modifies this`endpoints
      ensures endpoints == old(endpoints)[name := Static(dependencies, computationTime)]
      ensures self == this
    {
      endpoints := endpoints[name := Static(dependencies, computationTime)];
      self := this;
    }

    /** `endpoint_gen` of `StaticEndPointConfig`: `add` each configured
        handler in order. */
    method AddAll(configs: seq<StaticEndpointConfig>)
      modifies this`endpoints
      ensures endpoints == AddedAll(old(endpoints), configs)
    {
      ghost var start := endpoints;
      var i := 0;
      while i < |configs|
        invariant 0 <= i <= |configs|
        invariant endpoints == AddedAll(start, configs[..i])
      {
        assert configs[..i + 1][..i] == configs[..i];
        var _ := Add(configs[i].endpointName, configs[i].dependencies, configs[i].computationTime);
        i := i + 1;
      }
      assert configs[..i] == configs;
    }

    /** The start of `recv_request(host, endpoint, rc)`: processing starts
        now; then the endpoint's handler is looked up, and an unknown
        endpoint is a KeyError (with the start time already stamped). */
    method RecvStart(endpoint: string, rc: RequestContext, now: real) returns (r: PyResult<Api>)
      modifies rc
      ensures rc.View() == old(rc.View()).(procStarted := Some(now))
      ensures r.Raise? <==> endpoint !in endpoints
      ensures r.Raise? ==> r.exception == KeyError
      ensures r.Value? ==> r.value == endpoints[endpoint]
    {
      rc.procStarted := Some(now);
      if endpoint !in endpoints {
        return Raise(KeyError);
      }
      r := Value(endpoints[endpoint]);
    }

    /** The end of `recv_request` once the handler has ended with
        `outcome`: `proc_success` with its response, or `fail` at the server
        with SERVER_DOWN for a SimError and SERVER_ERROR otherwise. */
    method RecvComplete(rc: RequestContext, outcome: Result<Message>, now: real)
      modifies rc, rc.serverPromise
      ensures outcome.Ok? ==> rc.State() == AfterProcSuccess(old(rc.State()), outcome.value, now)
      ensures outcome.Err? ==>
                rc.State() == AfterFail(old(rc.State()), SimException(DispatchedStatus(outcome)), true, now)
      ensures rc.status == Some(DispatchedStatus(outcome))
    {
      match outcome
      case Ok(resp) => rc.ProcSuccess(resp, now);
      case Err(e) => rc.Fail(SimException(DispatchedStatus(outcome)), true, now);
    }
  }
}
