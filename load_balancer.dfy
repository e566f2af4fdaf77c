/** The random load balancer of
    `cna_sim/components/proxies/random_load_balancer.py`: it picks one of the
    service's ACTIVE instances, or none when there is none. The random choice
    is a nondeterministic pick. */
module LoadBalancers {
  import opened Common
  import opened SyncServers

  /** The keys of the instances whose status is ACTIVE. */
  function ActiveKeys(instances: map<string, SyncServer>): (r: set<string>)
    reads instances.Values
    ensures r <= instances.Keys
    ensures forall k :: k in r <==> k in instances && instances[k].status == Active
  {
    set k | k in instances && instances[k].status == Active
  }

  /** `find_component(host, name, request)`: None when no instance is
      ACTIVE, otherwise some ACTIVE member of the map. The map, the host,
      the endpoint name and the request play no other part. */
  method FindComponent(instances: map<string, SyncServer>) returns (r: Option<SyncServer>)
    ensures r.None? <==> ActiveKeys(instances) == {}
    ensures r.Some? ==> exists k :: k in ActiveKeys(instances) && instances[k] == r.value
    ensures r.Some? ==> r.value in instances.Values && r.value.status == Active
  {
    var active := ActiveKeys(instances);
    if active == {} {
      return None;
    }
    var k :| k in active;
    r := Some(instances[k]);
  }
}
