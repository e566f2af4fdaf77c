/** The gateway of `cna_sim/components/proxies/gateway.py`. It knows a set of
    host names; `find_component` resolves a known host to the component
    (a service or a server instance) that the simulation registered under
    that name, and `recv_request` forwards
    an arriving request to its target through the gateway's own client and
    settles the original request with the answer, turning a SimException
    into SERVER_ERROR.

    The forwarded exchange itself is an ordinary client exchange; the
    forward that starts it is `Clients.GatewayForward`, since the `Clients`
    module builds exchanges. Here the gateway's part is split into what
    happens on arrival and what happens once the forwarded exchange has
    settled. */
module Gateways {
  import opened Common
  import opened Promises
  import opened Request
  import opened SyncServers
  import opened Services

  /** What the simulation registers under a host name: a service, or a
      single server instance registered by its own name. */
  datatype Component = ServiceComponent(service: Service) | InstanceComponent(instance: SyncServer)

  /** The host names of a list, as a set. */
  function HostSet(hosts: seq<string>): (r: set<string>)
    ensures forall h :: h in r <==> h in hosts
  {
    set h | h in hosts
  }

  /** The known hosts after `register_hosts(hosts)`. */
  function Registered(components: set<string>, hosts: seq<string>): (r: set<string>)
    ensures components <= r
    ensures forall h :: h in r <==> h in components || h in hosts
  {
    components + HostSet(hosts)
  }

  /** Registering the same hosts twice changes nothing the second time, and
      the order of two registrations does not matter. */
  lemma RegisterHostsIdempotent(components: set<string>, a: seq<string>, b: seq<string>)
    ensures Registered(Registered(components, a), a) == Registered(components, a)
    ensures Registered(Registered(components, a), b) == Registered(Registered(components, b), a)
  {
    assert Registered(Registered(components, a), b) == components + HostSet(a) + HostSet(b);
  }

  /** The answer to the original request once the forwarded exchange has
      settled: success is passed through and any SimException becomes
      SERVER_ERROR at the server. Only SimException is caught: a SimError
      escapes the gateway's task and gives no answer (None). */
  function ForwardedOutcome(forwarded: Result<Message>): (r: Option<Result<Message>>)
    ensures r.None? <==> forwarded.Err? && forwarded.error.SimError?
    ensures forwarded.Ok? ==> r == Some(forwarded)
    ensures forwarded.Err? && forwarded.error.SimException? ==> r == Some(Err(SimException(SERVER_ERROR)))
  {
    match forwarded
    case Ok(_) => Some(forwarded)
    case Err(SimException(_)) => Some(Err(SimException(SERVER_ERROR)))
    case Err(SimError(_)) => None
  }

  class Gateway {
    const name: string
    var components: set<string>

    /** `Gateway(components, name)`: the known hosts are the given list's
        names, none when it is None. */
    constructor (name: string, components: Option<seq<string>>)
      ensures this.name == name
      ensures this.components == HostSet(if components.None? then [] else components.value)
    {
      this.name := name;
      this.components := HostSet(if components.None? then [] else components.value);
    }

    /** `register_hosts(hosts)`: the known hosts grow by the given names;
        none is forgotten. */
    method RegisterHosts(hosts: seq<string>)
      modifies this`components
      ensures components == Registered(old(components), hosts)
    {
      components := components + HostSet(hosts);
    }

    /** `find_component(host, name, request)`: an unknown host fails the
        assertion (AssertionError); a known host that the simulation has no
        component for is a KeyError; otherwise the registered component,
        whichever kind it is. The endpoint name and the request play no
        part. */
    function FindComponent(host: string, registry: map<string, Component>): (r: PyResult<Component>)
      reads this
      ensures r.Value? <==> host in components && host in registry
      ensures host !in components ==> r == Raise(AssertionError)
      ensures host in components && host !in registry ==> r == Raise(KeyError)
      ensures r.Value? ==> r.value == registry[host]
    {
      if host !in components then Raise(AssertionError)
      else if host !in registry then Raise(KeyError)
      else Value(registry[host])
    }

    /** The arrival half of `recv_request`: the request has arrived and its
        processing starts at once. */
    method RecvStart(rc: RequestContext, now: real)
      modifies rc
      ensures rc.View() == old(rc.View()).(reqArrived := Some(now), procStarted := Some(now))
    {
      rc.reqArrived := Some(now);
      rc.procStarted := Some(now);
    }

    /** The completion half of `recv_request`, once the forwarded exchange
        has settled with `forwarded`: `proc_success` with its response, or
        `fail(SERVER_ERROR)` at the server for a SimException. A SimError
        escapes the task and leaves the original request as it was. */
    method RecvComplete(rc: RequestContext, forwarded: Result<Message>, now: real)
      modifies rc, rc.serverPromise
      ensures forwarded.Ok? ==> rc.State() == AfterProcSuccess(old(rc.State()), forwarded.value, now)
      ensures forwarded.Err? && forwarded.error.SimException? ==>
                rc.State() == AfterFail(old(rc.State()), SimException(SERVER_ERROR), true, now)
      ensures forwarded.Err? && forwarded.error.SimError? ==> rc.State() == old(rc.State())
      ensures forwarded.Ok? ==> rc.status == Some(SUCCEED)
      ensures forwarded.Err? && forwarded.error.SimException? ==> rc.status == Some(SERVER_ERROR)
    {
      match ForwardedOutcome(forwarded)
      case Some(Ok(resp)) => rc.ProcSuccess(resp, now);
      case Some(Err(e)) => rc.Fail(e, true, now);
      case None =>
    }
  }
}
