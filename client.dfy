/** The client of `cna_sim/core/client.py`. `send_request` builds a request
    context, resolves the receiver through the proxy (the gateway), and
    chains three stages on a promise: the transmission of the request, the
    wait for the server's answer, and the transmission of the response. The
    exchange ends in telemetry when that chain settles, and with a timeout
    the caller gets a race between the chain and a timer.

    The network transmissions and the timer are simulated processes; here
    each stage is a step method that receives the stage's outcome and the
    current time. */
module Clients {
  import opened Common
  import opened Promises
  import opened Request
  import opened SyncServers
  import opened LoadBalancers
  import opened Services
  import opened Gateways
  import opened DataCollectors

  /** Where the request goes: the service or the server instance the
      gateway resolves the host to, or, when sent `by_proxy`, the gateway
      itself. */
  datatype Receiver = ToService(service: Service) | ToInstance(instance: SyncServer) | ToGateway(gateway: Gateway)

  /** The receiver of a request sent directly to a resolved component. */
  function Direct(c: Component): (r: Receiver)
    ensures c.ServiceComponent? <==> r.ToService?
    ensures c.ServiceComponent? ==> r.service == c.service
    ensures c.InstanceComponent? ==> r == ToInstance(c.instance)
  {
    match c
    case ServiceComponent(s) => ToService(s)
    case InstanceComponent(i) => ToInstance(i)
  }

  /** How far the chain has come. */
  datatype Stage = Sending | AwaitingServer | Returning(response: Message) | Done

  /** The chain's outcome when the request's transmission ends with
      `outbound`, the server's answer is `server` and the response's
      transmission ends with `inbound`: the first failure, or the server's
      response. */
  function ChainOutcome(outbound: Result<()>, server: Result<Message>, inbound: Result<()>): (r: Result<Message>)
    ensures r.Ok? <==> outbound.Ok? && server.Ok? && inbound.Ok?
    ensures outbound.Err? ==> r == Err(outbound.error)
    ensures outbound.Ok? && server.Err? ==> r == Err(server.error)
    ensures outbound.Ok? && server.Ok? && inbound.Err? ==> r == Err(inbound.error)
    ensures r.Ok? ==> r.value == server.value
  {
    if outbound.Err? then Err(outbound.error)
    else if server.Err? then Err(server.error)
    else if inbound.Err? then Err(inbound.error)
    else Ok(server.value)
  }

  /** The response stage as a `then` callback: pass the response on when
      its transmission succeeds. */
  function Deliver(inbound: Result<()>): Message -> Result<Message>
  {
    resp => if inbound.Ok? then Ok(resp) else Err(inbound.error)
  }

  /** The chain `Promise.init(None).then(send).then(wait).then(recv)` settles
      with `ChainOutcome`: each `then` skips its callback once an earlier
      stage has failed. */
  lemma ChainIsThenComposition(outbound: Result<()>, server: Result<Message>, inbound: Result<()>)
    ensures var sent := FromResult(ThenRule(Resolved(()), (_: ()) => outbound));
            var answered := FromResult(ThenRule(sent, (_: ()) => server));
            ThenRule(answered, Deliver(inbound)) == ChainOutcome(outbound, server, inbound)
  {
    var sent := FromResult(ThenRule(Resolved(()), (_: ()) => outbound));
    var answered := FromResult(ThenRule(sent, (_: ()) => server));
    if outbound.Err? {
      ThenSkipsCallbackOnFailure(sent, (_: ()) => server, (_: ()) => server);
      ThenSkipsCallbackOnFailure(answered, Deliver(inbound), Deliver(inbound));
    } else if server.Err? {
      ThenSkipsCallbackOnFailure(answered, Deliver(inbound), Deliver(inbound));
    }
  }

  /** What the caller of a request with a timeout sees: the race settles
      with whichever of the chain and the timer settles first; a late
      response does not change a timed-out result, and a late timer does not
      change a response. */
  function TimedOutcome(chain: Result<Message>, chainFirst: bool): (r: Result<Message>)
    ensures chainFirst ==> r == chain
    ensures !chainFirst ==> r == Err(SimException(TIMEOUT))
  {
    if chainFirst then chain else Err(SimException(TIMEOUT))
  }

  lemma TimedOutcomeIsRace(chain: Result<Message>, chainFirst: bool)
    ensures var timer: Outcome<Message> := Rejected(SimException(TIMEOUT));
            var order := if chainFirst then [FromResult(chain), timer] else [timer, FromResult(chain)];
            RaceAfter(order) == FromResult(TimedOutcome(chain, chainFirst))
  {
    var timer: Outcome<Message> := Rejected(SimException(TIMEOUT));
    var order := if chainFirst then [FromResult(chain), timer] else [timer, FromResult(chain)];
    RaceFirstWins(order);
  }

  class Exchange {
    const rc: RequestContext
    const receiver: Receiver
    const host: string
    const endpoint: string
    /** The chain's last promise, `resp_promise`. */
    const promise: Promise<Message>
    /** With a timeout: the timer's promise and the race the caller gets. */
    const timer: Option<Promise<Message>>
    const race: Option<Promise<Message>>
    var stage: Stage
    /** The telemetry written when the chain settled; nothing before. */
    var records: seq<Record>

    /** The promises the exchange settles itself. */
    ghost function Outputs(): set<object>
      reads this
    {
      {promise} + (if race.Some? then {race.value} else {})
    }

    ghost predicate Valid()
      reads this, promise, if timer.Some? then {timer.value} else {}, if race.Some? then {race.value} else {}
    {
      promise != rc.serverPromise &&
      (timer.Some? <==> race.Some?) &&
      (timer.Some? ==> timer.value != promise && timer.value != rc.serverPromise &&
                       race.value != promise && race.value != timer.value && race.value != rc.serverPromise) &&
      (stage == Done <==> promise.state.Settled()) &&
      (stage != Done ==> records == []) &&
      (race.Some? ==> RaceConsistent(race.value.state, promise.state, timer.value.state))
    }

    /** The promise the caller of `send_request` receives. */
    function Caller(): Promise<Message>
      reads this
    {
      if race.Some? then race.value else promise
    }

    constructor (rc: RequestContext, receiver: Receiver, host: string, endpoint: string, timeout: Option<real>)
      requires rc.serverPromise.state == Pending
      ensures this.rc == rc && this.receiver == receiver && this.host == host && this.endpoint == endpoint
      ensures fresh(promise) && promise.state == Pending
      ensures timeout.Some? ==> timer.Some? && fresh(timer.value) && race.Some? && fresh(race.value) &&
                                timer.value.state == Pending && race.value.state == Pending
      ensures timeout.None? ==> timer.None? && race.None?
      ensures stage == Sending && records == []
      ensures Valid()
    {
      this.rc := rc;
      this.receiver := receiver;
      this.host := host;
      this.endpoint := endpoint;
      promise := new Promise<Message>();
      if timeout.Some? {
        var t := new Promise<Message>();
        var r := Race<Message>();
        timer, race := Some(t), Some(r);
      } else {
        timer, race := None, None;
      }
      stage := Sending;
      records := [];
    }

    /** The end of the chain: settle `resp_promise`, write the telemetry of
        `record_ended_request` once, and let the race see the outcome. */
    method Finish(outcome: Result<Message>)
      requires Valid() && stage != Done
      modifies this`stage, this`records, Outputs()
      ensures Valid() && stage == Done
      ensures promise.state == FromResult(outcome)
      ensures records == EndedRequestRecords(rc.View())
      ensures race.Some? ==> race.value.state == Settle(old(race.value.state), outcome)
    {
      promise.Complete(outcome);
      records := EndedRequestRecords(rc.View());
      stage := Done;
      if race.Some? {
        RaceStep(race.value, [promise, timer.value], 0);
      }
    }

    /** A transmission that failed: the request carries the failure time
        and the error's code, and the chain fails with the error. */
    method Dropped(e: SimFailure, now: real)
      requires Valid() && stage != Done
      modifies this`stage, this`records, Outputs(), rc
      ensures Valid() && stage == Done
      ensures rc.View() == old(rc.View()).(failedAt := Some(now), status := Some(e.code))
      ensures promise.state == Rejected(e) && records == EndedRequestRecords(rc.View())
      ensures race.Some? ==> race.value.state == Settle(old(race.value.state), Err(e))
    {
      rc.failedAt := Some(now);
      rc.status := Some(e.code);
      Finish(Err(e));
    }

    /** The request reaches its receiver, whose own `recv_request` runs at
        once. */
    method HandOver(now: real)
      requires Valid() && stage == Sending
      requires receiver.ToService? ==> receiver.service.Valid()
      requires receiver.ToInstance? ==> receiver.instance.Valid()
      modifies this`stage, rc, rc.serverPromise
      modifies if receiver.ToService? then receiver.service.instances.Values else {}
      modifies if receiver.ToInstance? then {receiver.instance} else {}
      ensures Valid() && stage == AwaitingServer && records == old(records)
      ensures receiver.ToInstance? ==> receiver.instance.Valid()
      ensures receiver.ToInstance? && old(receiver.instance.alive) ==>
                receiver.instance.queue == old(receiver.instance.queue) && rc.State() == old(rc.State())
      ensures receiver.ToInstance? && !old(receiver.instance.alive) &&
              Admits(receiver.instance.status, receiver.instance.queueSize, old(|receiver.instance.queue|)) ==>
                receiver.instance.queue == old(receiver.instance.queue) + [QueueItem(host, endpoint, rc)] &&
                rc.State() == old(rc.State()).(view := old(rc.View()).(instanceName := Some(receiver.instance.name),
                                                                       reqArrived := Some(now)))
      ensures receiver.ToInstance? && !old(receiver.instance.alive) &&
              !Admits(receiver.instance.status, receiver.instance.queueSize, old(|receiver.instance.queue|)) ==>
                receiver.instance.queue == old(receiver.instance.queue) &&
                rc.State() == AfterFail(old(rc.State()).(view := old(rc.View()).(instanceName := Some(receiver.instance.name),
                                                                                 reqArrived := Some(now))),
                                        SimException(CONNECTION_CLOSED), true, now)
      ensures receiver.ToGateway? ==>
                rc.View() == old(rc.View()).(reqArrived := Some(now), procStarted := Some(now))
      ensures receiver.ToService? && old(ActiveKeys(receiver.service.instances)) == {} ==>
                rc.State() == AfterFail(old(rc.State()), SimException(CONNECTION_REFUSED), true, now)
      ensures receiver.ToService? && old(ActiveKeys(receiver.service.instances)) != {} ==>
                rc.reqArrived == Some(now) && rc.instanceName.Some? &&
                rc.instanceName.value in old(ActiveKeys(receiver.service.instances))
      ensures receiver.ToService? ==> receiver.service.Valid()
    {
      stage := AwaitingServer;
      match receiver
      case ToService(s) =>
        var target := s.RecvRequest(host, endpoint, rc, now);
      case ToInstance(i) =>
        i.RecvRequest(host, endpoint, rc, now);
      case ToGateway(g) =>
        g.RecvStart(rc, now);
    }

    /** The end of `send_delay`: a failed transmission fails the chain, a
        successful one hands the request over. */
    method Outbound(transmit: Result<()>, now: real)
      requires Valid() && stage == Sending
      requires receiver.ToService? ==> receiver.service.Valid()
      requires receiver.ToInstance? ==> receiver.instance.Valid()
      modifies this`stage, this`records, Outputs(), rc, rc.serverPromise
      modifies if receiver.ToService? then receiver.service.instances.Values else {}
      modifies if receiver.ToInstance? then {receiver.instance} else {}
      ensures Valid()
      ensures transmit.Ok? && receiver.ToInstance? ==> receiver.instance.Valid()
      ensures transmit.Ok? && receiver.ToInstance? && old(receiver.instance.alive) ==>
                receiver.instance.queue == old(receiver.instance.queue) && rc.State() == old(rc.State())
      ensures transmit.Ok? && receiver.ToInstance? && !old(receiver.instance.alive) &&
              Admits(receiver.instance.status, receiver.instance.queueSize, old(|receiver.instance.queue|)) ==>
                receiver.instance.queue == old(receiver.instance.queue) + [QueueItem(host, endpoint, rc)] &&
                rc.State() == old(rc.State()).(view := old(rc.View()).(instanceName := Some(receiver.instance.name),
                                                                       reqArrived := Some(now)))
      ensures transmit.Ok? && receiver.ToInstance? && !old(receiver.instance.alive) &&
              !Admits(receiver.instance.status, receiver.instance.queueSize, old(|receiver.instance.queue|)) ==>
                receiver.instance.queue == old(receiver.instance.queue) &&
                rc.State() == AfterFail(old(rc.State()).(view := old(rc.View()).(instanceName := Some(receiver.instance.name),
                                                                                 reqArrived := Some(now))),
                                        SimException(CONNECTION_CLOSED), true, now)
      ensures transmit.Err? ==> rc.View() == old(rc.View()).(failedAt := Some(now), status := Some(transmit.error.code))
      ensures transmit.Err? ==> stage == Done && promise.state == Rejected(transmit.error) &&
                                records == EndedRequestRecords(rc.View())
      ensures transmit.Ok? ==> stage == AwaitingServer && records == []
      ensures transmit.Ok? && receiver.ToGateway? ==>
                rc.View() == old(rc.View()).(reqArrived := Some(now), procStarted := Some(now))
      ensures transmit.Ok? && receiver.ToService? && old(ActiveKeys(receiver.service.instances)) == {} ==>
                rc.State() == AfterFail(old(rc.State()), SimException(CONNECTION_REFUSED), true, now)
      ensures transmit.Ok? && receiver.ToService? && old(ActiveKeys(receiver.service.instances)) != {} ==>
                rc.reqArrived == Some(now) && rc.instanceName.Some? &&
                rc.instanceName.value in old(ActiveKeys(receiver.service.instances))
    {
      if transmit.Err? {
        Dropped(transmit.error, now);
      } else {
        HandOver(now);
      }
    }

    /** The end of `rc.server_promise.wait()`: a rejected server promise
        fails the chain with its error; a resolved one starts the response's
        transmission. The request context is not touched. */
    method ServerSettled()
      requires Valid() && stage == AwaitingServer && rc.serverPromise.state.Settled()
      modifies this`stage, this`records, Outputs()
      ensures Valid()
      ensures rc.serverPromise.state.Rejected? ==>
                stage == Done && promise.state == rc.serverPromise.state && records == EndedRequestRecords(rc.View())
      ensures rc.serverPromise.state.Resolved? ==> stage == Returning(rc.serverPromise.state.value) && records == []
    {
      match rc.serverPromise.state
      case Rejected(e) => Finish(Err(e));
      case Resolved(resp) => stage := Returning(resp);
    }

    /** The end of `recv_delay`: a failed transmission stamps the failure
        time and code and fails the chain; a successful one stamps the
        response's arrival and resolves the chain with the response. */
    method Inbound(transmit: Result<()>, now: real)
      requires Valid() && stage.Returning?
      modifies this`stage, this`records, Outputs(), rc
      ensures Valid() && stage == Done
      ensures transmit.Err? ==> rc.View() == old(rc.View()).(failedAt := Some(now), status := Some(transmit.error.code))
      ensures transmit.Ok? ==> rc.View() == old(rc.View()).(respArrived := Some(now))
      ensures promise.state == FromResult(if transmit.Ok? then Ok(old(stage).response) else Err(transmit.error))
      ensures records == EndedRequestRecords(rc.View())
    {
      var resp := stage.response;
      match transmit
      case Err(e) =>
        Dropped(e, now);
      case Ok(_) =>
        rc.respArrived := Some(now);
        Finish(Ok(resp));
    }

    /** The timer's process: when the timeout elapses, the request is marked
        as timed out and the timer's promise is rejected with TIMEOUT, which
        settles the race unless the chain settled it first. The chain goes
        on; its telemetry, if it comes later, is tagged TIMEOUT. */
    method TimeoutFires()
      requires Valid() && timer.Some? && timer.value.state == Pending
      modifies rc, timer.value, race.value
      ensures Valid()
      ensures rc.View() == old(rc.View()).(isTimeout := true)
      ensures timer.value.state == Rejected(SimException(TIMEOUT))
      ensures race.value.state == Settle(old(race.value.state), Err(SimException(TIMEOUT)))
    {
      rc.isTimeout := true;
      timer.value.Reject(SimException(TIMEOUT));
      RaceStep(race.value, [promise, timer.value], 1);
    }
  }

  /** The race settles exactly when the chain or the timer has, and with the
      outcome of one of them. */
  ghost predicate RaceConsistent(race: Outcome<Message>, chain: Outcome<Message>, timer: Outcome<Message>)
  {
    (race.Settled() <==> chain.Settled() || timer.Settled()) &&
    (race.Settled() ==> race == chain || race == timer)
  }

  /** `send_request(host, endpoint, request, timeout, proxy, by_proxy)` with
      the gateway as proxy: a fresh request context sent now; by proxy, the
      gateway itself receives it and its name is the instance name;
      otherwise the gateway resolves the host (an unknown host or one
      without a component raises) and the host and endpoint names are
      recorded. */
  method SendRequest(gateway: Gateway, registry: map<string, Component>, host: string, endpoint: string,
                     request: Message, timeout: Option<real>, byProxy: bool, now: real)
    returns (r: PyResult<Exchange>)
    ensures !byProxy ==> (r.Raise? <==> gateway.FindComponent(host, registry).Raise?)
    ensures !byProxy && r.Raise? ==> r.exception == gateway.FindComponent(host, registry).exception
    ensures r.Value? ==> fresh(r.value) && fresh(r.value.rc) && fresh(r.value.rc.serverPromise) &&
                         fresh(r.value.promise) && r.value.Valid()
    ensures r.Value? ==> r.value.stage == Sending && r.value.records == [] && r.value.rc.request == request &&
                         r.value.host == host && r.value.endpoint == endpoint &&
                         (timeout.Some? <==> r.value.race.Some?)
    ensures r.Value? && byProxy ==>
              r.value.receiver == ToGateway(gateway) &&
              r.value.rc.View() == FreshView.(reqSent := Some(now), instanceName := Some(gateway.name))
    ensures r.Value? && !byProxy ==>
              r.value.receiver == Direct(registry[host]) &&
              r.value.rc.View() == FreshView.(reqSent := Some(now), hostName := Some(host), endpointName := Some(endpoint))
  {
    var rc := new RequestContext(request);
    rc.reqSent := Some(now);
    var receiver: Receiver;
    if byProxy {
      receiver := ToGateway(gateway);
      rc.instanceName := Some(gateway.name);
    } else {
      match gateway.FindComponent(host, registry)
      case Raise(e) => return Raise(e);
      case Value(c) =>
        receiver := Direct(c);
        rc.hostName := Some(host);
        rc.endpointName := Some(endpoint);
    }
    var x := new Exchange(rc, receiver, host, endpoint, timeout);
    r := Value(x);
  }

  /** The gateway `g`'s `recv_request`, up to the forward: the original
      request is stamped as arrived and started now, and its payload is sent
      on through the gateway's own client, with no timeout and not by
      proxy. That client has no proxy of its own, so the host is resolved by
      the simulation's gateway `contextGateway`, which need not be `g`. The
      forwarded exchange is an ordinary exchange; once it settles,
      `g.RecvComplete` answers the original request. */
  method GatewayForward(g: Gateway, contextGateway: Gateway, registry: map<string, Component>,
                        host: string, endpoint: string, rc: RequestContext, now: real)
    returns (r: PyResult<Exchange>)
    modifies rc
    ensures rc.View() == old(rc.View()).(reqArrived := Some(now), procStarted := Some(now))
    ensures r.Raise? <==> contextGateway.FindComponent(host, registry).Raise?
    ensures r.Raise? ==> r.exception == contextGateway.FindComponent(host, registry).exception
    ensures r.Value? ==> fresh(r.value) && fresh(r.value.rc) && r.value.Valid() && r.value.stage == Sending
    ensures r.Value? ==> r.value.race.None? && r.value.rc.request == rc.request &&
                         r.value.host == host && r.value.endpoint == endpoint &&
                         r.value.receiver == Direct(registry[host])
    ensures r.Value? ==>
              r.value.rc.View() == FreshView.(reqSent := Some(now), hostName := Some(host), endpointName := Some(endpoint))
  {
    g.RecvStart(rc, now);
    r := SendRequest(contextGateway, registry, host, endpoint, rc.request, None, false, now);
  }
}
