/** The service of `cna_sim/components/services/service.py`: a map from
    instance name to server instance that `scale_to` grows with new STARTING
    instances or shrinks by terminating instances (STARTING ones first), and
    that routes each request to an instance the load balancer picks.

    The names the instance factory gives new instances (a configured name or
    a fresh uuid) are an input sequence; the random choice of a victim is a
    nondeterministic pick. */
module Services {
  import opened Common
  import opened Promises
  import opened Request
  import opened Utils
  import opened SyncServers
  import opened LoadBalancers

  /** The instance objects of a map together with their thread pools. */
  ghost function Footprint(instances: map<string, SyncServer>): set<object>
  {
    instances.Values + set s | s in instances.Values :: s.pool
  }

  /** Every instance is valid and filed under its own name, so distinct keys
      hold distinct instances. */
  ghost predicate WellFormed(instances: map<string, SyncServer>)
    reads Footprint(instances)
  {
    forall k :: k in instances ==> instances[k].name == k && instances[k].Valid()
  }

  /** The first `count` names are pairwise distinct and none is already a key. */
  predicate NewNames(names: seq<string>, count: nat, existing: set<string>)
  {
    count <= |names| &&
    (forall i, j :: 0 <= i < j < count ==> names[i] != names[j]) &&
    (forall i :: 0 <= i < count ==> names[i] !in existing)
  }

  /** The keys of the STARTING instances. */
  function StartingKeys(instances: map<string, SyncServer>): (r: set<string>)
    reads instances.Values
    ensures forall k :: k in r <==> k in instances && instances[k].status == Starting
  {
    set k | k in instances && instances[k].status == Starting
  }

  /** `after` is `before` with `count` entries filed under the first `count`
      names, and every other entry kept. */
  ghost predicate Grown(before: map<string, SyncServer>, after: map<string, SyncServer>, count: nat, names: seq<string>)
    requires count <= |names|
  {
    (forall k :: k in after <==> k in before || k in names[..count]) &&
    (forall k :: k in after && k !in names[..count] ==> after[k] == before[k])
  }

  /** Scaling to the current size changes nothing. */
  lemma GrownByNothing(before: map<string, SyncServer>, after: map<string, SyncServer>, names: seq<string>)
    requires Grown(before, after, 0, names)
    ensures after == before
  {
    assert after.Keys == before.Keys;
  }

  /** `after` is `before` without the `victims`, which are distinct keys of
      `before`. */
  ghost predicate Shrunk(before: map<string, SyncServer>, after: map<string, SyncServer>, victims: seq<string>)
  {
    (forall i, j :: 0 <= i < j < |victims| ==> victims[i] != victims[j]) &&
    (forall i :: 0 <= i < |victims| ==> victims[i] in before) &&
    (forall k :: k in after <==> k in before && k !in victims) &&
    (forall k :: k in after ==> after[k] == before[k])
  }

  lemma ShrunkStep(m0: map<string, SyncServer>, before: map<string, SyncServer>, after: map<string, SyncServer>,
                   victims: seq<string>, k: string)
    requires Shrunk(m0, before, victims) && k in before
    requires forall j :: j in after <==> j in before && j != k
    requires forall j :: j in after ==> after[j] == before[j]
    ensures Shrunk(m0, after, victims + [k])
  {
    var v := victims + [k];
    forall i, j | 0 <= i < j < |v|
      ensures v[i] != v[j]
    {
      if j == |victims| {
        assert v[i] == victims[i];
      }
    }
  }

  function Elements<T>(s: seq<T>): set<T>
  {
    set i | 0 <= i < |s| :: s[i]
  }

  /** Each victim is STARTING, unless every STARTING instance has already
      been removed before it. */
  predicate PrefersStarting(starting: set<string>, victims: seq<string>)
  {
    forall i :: 0 <= i < |victims| ==> victims[i] in starting || starting <= Elements(victims[..i])
  }

  lemma PrefersStartingStep(starting: set<string>, victims: seq<string>, k: string)
    requires PrefersStarting(starting, victims)
    requires starting - Elements(victims) != {} ==> k in starting
    ensures PrefersStarting(starting, victims + [k])
  {
    var v := victims + [k];
    assert v[..|victims|] == victims;
    forall i | 0 <= i < |v|
      ensures v[i] in starting || starting <= Elements(v[..i])
    {
      if i < |victims| {
        assert v[i] == victims[i] && v[..i] == victims[..i];
      } else if k !in starting {
        assert v[..i] == victims;
        forall x | x in starting
          ensures x in Elements(victims)
        {
          assert x !in starting - Elements(victims);
        }
      }
    }
  }

  lemma PrefixStep(names: seq<string>, i: nat)
    requires i < |names|
    ensures forall k :: k in names[..i + 1] <==> k in names[..i] || k == names[i]
  {
    assert names[..i + 1] == names[..i] + [names[i]];
  }

  lemma {:induction false} ElementsCard<T>(s: seq<T>)
    ensures |Elements(s)| <= |s|
  {
    if s != [] {
      var init := s[..|s| - 1];
      ElementsCard(init);
      assert Elements(s) == Elements(init) + {s[|s| - 1]} by {
        forall x | x in Elements(s)
          ensures x in Elements(init) + {s[|s| - 1]}
        {
          var i :| 0 <= i < |s| && s[i] == x;
          if i < |s| - 1 {
            assert init[i] == x;
          }
        }
      }
    }
  }

  /** A shrink by no more than the number of STARTING instances removes
      only STARTING instances. */
  lemma OnlyStartingRemoved(starting: set<string>, victims: seq<string>)
    requires PrefersStarting(starting, victims) && |victims| <= |starting|
    ensures forall i :: 0 <= i < |victims| ==> victims[i] in starting
  {
    forall i | 0 <= i < |victims|
      ensures victims[i] in starting
    {
      if victims[i] !in starting {
        ElementsCard(victims[..i]);
        SubsetCard(starting, Elements(victims[..i]));
      }
    }
  }

  lemma SubsetCard<T>(a: set<T>, b: set<T>)
    requires a <= b
    ensures |a| <= |b|
  {
    if a != {} {
      var x :| x in a;
      SubsetCard(a - {x}, b - {x});
    }
  }

  /** The status of every instance of a map, by key. */
  function Statuses(instances: map<string, SyncServer>): (r: map<string, Status>)
    reads instances.Values
    ensures r.Keys == instances.Keys
    ensures forall k :: k in r ==> r[k] == instances[k].status
  {
    map k | k in instances :: instances[k].status
  }

  /** What `scale_to(n)` of the service named `service` leaves behind, given
      the instances `before` it with their statuses `status`: when growing,
      `after` adds STARTING instances of this service under the first n - size
      names and keeps every other status; when shrinking, `after` lacks the
      `victims` (size - n of them, or all when n is negative), which are now
      TERMINATING and were picked STARTING ones first, and the survivors keep
      their status. */
  ghost predicate ScaledTo(before: map<string, SyncServer>, status: map<string, Status>,
                           after: map<string, SyncServer>, n: int, names: seq<string>,
                           victims: seq<string>, service: string)
    reads before.Values, after.Values
  {
    var size := |before|;
    if n >= size then
      n - size <= |names| && victims == [] && Grown(before, after, n - size, names) &&
      (forall k :: k in names[..n - size] ==>
         k in after && after[k].status == Starting && after[k].serviceName == Some(service)) &&
      (forall k :: k in after && k in status && k !in names[..n - size] ==> after[k].status == status[k])
    else
      Shrunk(before, after, victims) &&
      |victims| == (if n < 0 then size else size - n) && |after| == size - |victims| &&
      (forall v :: v in victims ==> before[v].status == Terminating) &&
      (forall k :: k in after && k in status ==> after[k].status == status[k]) &&
      PrefersStarting((set k | k in status && status[k] == Starting), victims)
  }

  class Service {
    const name: string
    /** What the instance factory builds every new instance from. */
    const instanceConfig: InstanceConfig
    /** Only STARTING and ACTIVE instances, apart from victims of a failed
        shrink. */
    var instances: map<string, SyncServer>

    ghost predicate Valid()
      reads this, Footprint(instances)
    {
      UsableConfig(instanceConfig) && WellFormed(instances)
    }

    /** The first part of `Service(...)`: a service named `name` with no
        instance yet; `NewService` then scales it to its replica count. */
    constructor (name: string, instanceConfig: InstanceConfig)
      requires UsableConfig(instanceConfig)
      ensures Valid()
      ensures this.name == name && this.instanceConfig == instanceConfig
      ensures instances == map[]
    {
      this.name := name;
      this.instanceConfig := instanceConfig;
      instances := map[];
    }

    /** `scale_to(n)`. Growing adds n - size instances (`Grow`); shrinking
        removes size - n of them (`Shrink`). A negative `n` removes every
        instance and then fails with IndexError, choosing from an empty map. */
    method ScaleTo(n: int, names: seq<string>, now: real) returns (victims: seq<string>, r: PyResult<()>)
      requires Valid()
      requires n >= |instances| ==> |names| >= n - |instances|
      modifies this, instances.Values
      ensures Valid()
      ensures r.Raise? <==> n < 0
      ensures r.Raise? ==> r.exception == IndexError
      ensures n >= old(|instances|) ==> victims == [] && Grown(old(instances), instances, n - old(|instances|), names)
      ensures n >= old(|instances|) ==>
                forall k :: k in names[..n - old(|instances|)] ==>
                  k in instances && fresh(instances[k]) && instances[k].status == Starting &&
                  instances[k].serviceName == Some(name)
      ensures n >= old(|instances|) && NewNames(names, n - old(|instances|), old(instances).Keys) ==> |instances| == n
      ensures n >= old(|instances|) ==>
                forall k :: k in instances && k in old(instances) && k !in names[..n - old(|instances|)] ==>
                  instances[k].status == old(instances[k].status)
      ensures 0 <= n < old(|instances|) ==> |victims| == old(|instances|) - n && |instances| == n
      ensures n < 0 ==> |victims| == old(|instances|) && instances == map[]
      ensures n < old(|instances|) ==> Shrunk(old(instances), instances, victims)
      ensures n < old(|instances|) ==> forall v :: v in victims ==> old(instances)[v].status == Terminating
      ensures n < old(|instances|) ==>
                forall k :: k in instances ==> instances[k].status == old(instances[k].status)
      ensures n < old(|instances|) ==> PrefersStarting(old(StartingKeys(instances)), victims)
    {
      var delta := n - |instances|;
      r := Value(());
      if delta >= 0 {
        Grow(delta, names, now);
        victims := [];
      } else if n >= 0 {
        victims := Shrink(-delta);
      } else {
        victims := Shrink(|instances|);
        r := Raise(IndexError);
      }
    }

    /** The first half of `scale_to`: `count` new instances (`AddOne`),
        filed under the first `count` names of `names`. */
    method Grow(count: nat, names: seq<string>, now: real)
      requires Valid() && |names| >= count
      modifies this`instances
      ensures Valid()
      ensures Grown(old(instances), instances, count, names)
      ensures forall k :: k in names[..count] ==>
                k in instances && fresh(instances[k]) && instances[k].status == Starting &&
                instances[k].serviceName == Some(name)
      ensures NewNames(names, count, old(instances).Keys) ==> |instances| == old(|instances|) + count
    {
      var i := 0;
      while i < count
        invariant 0 <= i <= count && Valid()
        invariant Grown(old(instances), instances, i, names)
        invariant forall k :: k in names[..i] ==>
                    k in instances && fresh(instances[k]) && instances[k].status == Starting &&
                    instances[k].serviceName == Some(name)
        invariant NewNames(names, count, old(instances).Keys) ==> |instances| == old(|instances|) + i
      {
        if NewNames(names, count, old(instances).Keys) {
          assert names[i] !in instances.Keys;
        }
        ghost var before := instances;
        AddOne(names[i], now);
        PrefixStep(names, i);
        forall k | k in names[..i + 1]
          ensures k in instances && fresh(instances[k]) && instances[k].status == Starting &&
                  instances[k].serviceName == Some(name)
        {
          if k != names[i] {
            assert k in names[..i] && instances[k] == before[k];
          }
        }
        i := i + 1;
      }
    }

    /** One addition of `scale_to`: a new STARTING instance built from the
        instance configuration, carrying this service's name, filed under
        `key` (replacing any entry already there). */
    method AddOne(key: string, now: real)
      requires Valid()
      modifies this`instances
      ensures Valid()
      ensures forall k :: k in instances <==> k in old(instances) || k == key
      ensures forall k :: k in old(instances) && k != key ==> instances[k] == old(instances)[k]
      ensures fresh(instances[key]) && instances[key].status == Starting
      ensures instances[key].name == key && instances[key].serviceName == Some(name)
      ensures key !in old(instances) ==> |instances| == old(|instances|) + 1
    {
      var s := new SyncServer(instanceConfig, key, Some(name), now);
      instances := instances[key := s];
    }

    /** The second half of `scale_to`: remove `count` instances one at a
        time (`RemoveVictim`). The victims are returned in removal order; each
        is a STARTING instance as long as one remains. */
    method Shrink(count: nat) returns (victims: seq<string>)
      requires Valid() && count <= |instances|
      modifies instances.Values, this`instances
      ensures Valid()
      ensures |victims| == count && |instances| == old(|instances|) - count
      ensures Shrunk(old(instances), instances, victims)
      ensures forall v :: v in victims ==> old(instances)[v].status == Terminating
      ensures forall k :: k in instances ==> instances[k].status == old(instances[k].status)
      ensures PrefersStarting(old(StartingKeys(instances)), victims)
    {
      ghost var m0 := instances;
      ghost var starting := StartingKeys(instances);
      ghost var st0 := map k | k in instances :: instances[k].status;
      victims := [];
      while |victims| < count
        invariant |victims| <= count && Valid()
        invariant forall v :: v in m0 ==> m0[v].name == v
        invariant Shrunk(m0, instances, victims)
        invariant |instances| == |m0| - |victims|
        invariant forall v :: v in victims ==> m0[v].status == Terminating
        invariant forall k :: k in instances ==> k in st0 && instances[k].status == st0[k]
        invariant forall j :: j in st0 <==> j in m0
        invariant forall j :: j in starting <==> j in st0 && st0[j] == Starting
        invariant PrefersStarting(starting, victims)
      {
        var k: string;
        var notInit := StartingKeys(instances);
        if notInit != {} {
          k :| k in notInit;
        } else {
          k :| k in instances;
        }
        RemoveVictim(k, m0, st0, starting, victims);
        victims := victims + [k];
      }
    }

    /** One step of `Shrink`: removing the victim `k`, chosen as `scale_to`
        chooses, keeps what the shrink promises about the victims so far. */
    method RemoveVictim(k: string, ghost m0: map<string, SyncServer>, ghost st0: map<string, Status>,
                        ghost starting: set<string>, ghost victims: seq<string>)
      requires Valid() && k in instances
      requires StartingKeys(instances) != {} ==> k in StartingKeys(instances)
      requires forall v :: v in m0 ==> m0[v].name == v
      requires Shrunk(m0, instances, victims)
      requires forall v :: v in victims ==> m0[v].status == Terminating
      requires forall j :: j in instances ==> j in st0 && instances[j].status == st0[j]
      requires forall j :: j in st0 <==> j in m0
      requires forall j :: j in starting <==> j in st0 && st0[j] == Starting
      requires PrefersStarting(starting, victims)
      modifies instances[k], this`instances
      ensures Valid()
      ensures Shrunk(m0, instances, victims + [k])
      ensures |instances| == old(|instances|) - 1
      ensures m0[k].status == Terminating
      ensures forall v :: v in victims ==> m0[v].status == Terminating
      ensures forall j :: j in instances ==> instances[j].status == st0[j]
      ensures PrefersStarting(starting, victims + [k])
    {
      ghost var before := instances;
      if starting - Elements(victims) != {} {
        var j :| j in starting - Elements(victims);
        assert j in before && before[j].status == Starting;
        assert StartingKeys(before) != {};
        assert k in starting;
      }
      ghost var gone := set v | v in victims :: m0[v];
      RemoveMember(k, gone);
      assert m0[k].status == Terminating;
      assert forall v :: v in victims ==> m0[v] in gone;
      PrefersStartingStep(starting, victims, k);
      ShrunkStep(m0, before, instances, victims, k);
    }

    /** One removal of `scale_to`: the instance filed under `k` is
        terminated and then taken out of the map. */
    method RemoveMember(k: string, ghost others: set<SyncServer>)
      requires Valid() && k in instances && instances[k] !in others
      modifies instances[k], this`instances
      ensures Valid()
      ensures forall j :: j in instances <==> j in old(instances) && j != k
      ensures forall j :: j in instances ==> instances[j] == old(instances)[j]
      ensures |instances| == old(|instances|) - 1
      ensures old(instances)[k].status == Terminating
      ensures forall j :: j in instances ==> instances[j].status == old(instances[j].status)
      ensures forall o :: o in others ==> o.status == old(o.status)
    {
      TerminateMember(k);
      instances := instances - {k};
      assert instances.Keys == old(instances).Keys - {k};
    }

    /** `terminate()` on the instance filed under `k`; no other instance
        changes. */
    method TerminateMember(k: string)
      requires Valid() && k in instances
      modifies instances[k]
      ensures Valid() && instances == old(instances)
      ensures instances[k].status == Terminating
      ensures forall j :: j in instances && j != k ==> instances[j].status == old(instances[j].status)
    {
      instances[k].Terminate();
    }

    /** `recv_request(host, endpoint, rc)`: with no ACTIVE instance the
        request fails with CONNECTION_REFUSED and its server promise is
        rejected; otherwise the same request goes to an ACTIVE instance,
        which stamps it and queues or closes it by its own admission rule. */
    method RecvRequest(host: string, endpoint: string, rc: RequestContext, now: real) returns (target: Option<SyncServer>)
      requires Valid()
      modifies rc, rc.serverPromise, instances.Values
      ensures Valid() && instances == old(instances)
      ensures target.None? <==> old(ActiveKeys(instances)) == {}
      ensures target.None? ==> rc.State() == AfterFail(old(rc.State()), SimException(CONNECTION_REFUSED), true, now)
      ensures target.Some? ==> target.value.name in old(ActiveKeys(instances)) && instances[target.value.name] == target.value
      ensures target.Some? ==> rc.instanceName == Some(target.value.name) && rc.reqArrived == Some(now)
      ensures target.Some? && Admits(Active, target.value.queueSize, |old(target.value.queue)|) ==>
                target.value.queue == old(target.value.queue) + [QueueItem(host, endpoint, rc)]
      ensures target.Some? && !Admits(Active, target.value.queueSize, |old(target.value.queue)|) ==>
                rc.status == Some(CONNECTION_CLOSED) &&
                rc.serverPromise.state == Settle(old(rc.serverPromise.state), Err(SimException(CONNECTION_CLOSED)))
    {
      target := FindComponent(instances);
      if target.None? {
        rc.Fail(SimException(CONNECTION_REFUSED), true, now);
      } else {
        var s := target.value;
        assert s.name in instances && instances[s.name] == s;
        s.RecvRequest(host, endpoint, rc, now);
      }
    }

    /** `metric(name)`: the number of instances, the number of ACTIVE
        instances (never more), or None for any other name. */
    function Metric(metricName: string): (r: Option<int>)
      reads this, instances.Values
      ensures metricName == "instance_num" ==> r == Some(|instances|)
      ensures metricName == "active_instance_num" ==> r == Some(|ActiveKeys(instances)|)
      ensures r.Some? ==> 0 <= r.value <= |instances|
      ensures metricName != "instance_num" && metricName != "active_instance_num" <==> r.None?
    {
      if metricName == "active_instance_num" then
        SubsetCard(ActiveKeys(instances), instances.Keys);
        Some(|ActiveKeys(instances)|)
      else if metricName == "instance_num" then Some(|instances|)
      else None
    }
  }
  /** `Service(name, instance_gen, replicas=replicas)`: an empty service
      scaled to `replicas` instances (default 1) at time `now`. A negative
      count makes `scale_to` choose a victim from the empty map, so the
      construction fails with IndexError. */
  method NewService(name: string, instanceConfig: InstanceConfig, replicas: Option<int>, names: seq<string>, now: real)
    returns (r: PyResult<Service>)
    requires UsableConfig(instanceConfig)
    requires |names| >= DefaultIfNone(replicas, 1)
    ensures r.Raise? <==> DefaultIfNone(replicas, 1) < 0
    ensures r.Raise? ==> r.exception == IndexError
    ensures r.Value? ==> fresh(r.value) && r.value.Valid()
    ensures r.Value? ==> r.value.name == name && r.value.instanceConfig == instanceConfig
    ensures r.Value? ==> r.value.instances.Keys == set i | 0 <= i < DefaultIfNone(replicas, 1) :: names[i]
    ensures r.Value? && NewNames(names, DefaultIfNone(replicas, 1), {}) ==> |r.value.instances| == DefaultIfNone(replicas, 1)
    ensures r.Value? ==> forall k :: k in r.value.instances ==> fresh(r.value.instances[k]) && r.value.instances[k].status == Starting
  {
    var s := new Service(name, instanceConfig);
    var n := DefaultIfNone(replicas, 1);
    var victims, scaled := s.ScaleTo(n, names, now);
    if scaled.Raise? {
      return Raise(scaled.exception);
    }
    r := Value(s);
  }
}
