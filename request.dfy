/** Messages and the per-request record of `cna_sim/core/request.py`.

    A `RequestContext` is created by the client when a request is sent and is
    then written by whoever handles the request: the receiving instance or
    proxy records arrival and processing times, and ends the request with
    `fail` or `proc_success`, which also settle the request's server promise
    (the signal the client waits for). */
module Request {
  import opened Common
  import opened Promises

  /** `MessageConfig(attachment, size)`; the defaults are None and 0. */
  datatype MessageConfig = MessageConfig(attachment: Option<string>, size: int)

  const DefaultMessageConfig: MessageConfig := MessageConfig(None, 0)

  /** The generator of a `MessageConfig` builds a `Message` carrying the
      configured attachment and size. */
  function Generate(c: MessageConfig): (m: Message)
    ensures m.attachment == c.attachment && m.size == c.size
    ensures c == DefaultMessageConfig ==> m == EmptyMessage
  {
    Message(c.attachment, c.size)
  }

  /** Every field of a `RequestContext` except its payload and its server
      promise: the identifiers, the status, the timestamps and the flags. */
  datatype RcView = RcView(
    response: Option<Message>,
    hostName: Option<string>,
    endpointName: Option<string>,
    instanceName: Option<string>,
    status: Option<string>,
    reqSent: Option<real>,
    reqArrived: Option<real>,
    procStarted: Option<real>,
    procCompleted: Option<real>,
    respArrived: Option<real>,
    failedAt: Option<real>,
    isTimeout: bool,
    mark: bool)

  /** The fields of a freshly created request context. */
  const FreshView: RcView :=
    RcView(None, None, None, None, None, None, None, None, None, None, None, false, true)

  /** A request context's fields together with its server promise's outcome. */
  datatype RcState = RcState(view: RcView, server: Outcome<Message>)

  /** `fail(error, at_server)`: stamp the failure time, take the error's code
      as status, and reject the server promise only when asked to. */
  function AfterFail(s: RcState, error: SimFailure, atServer: bool, now: real): RcState
  {
    RcState(s.view.(failedAt := Some(now), status := Some(error.code)),
            if atServer then Settle(s.server, Err(error)) else s.server)
  }

  /** `proc_success(resp)`: stamp the completion time, set status SUCCEED
      and the response, and resolve the server promise. */
  function AfterProcSuccess(s: RcState, resp: Message, now: real): RcState
  {
    RcState(s.view.(procCompleted := Some(now), status := Some(SUCCEED), response := Some(resp)),
            Settle(s.server, Ok(resp)))
  }

  /** The status is written by whichever of `fail` and `proc_success` runs
      last, while the server promise keeps the outcome of the first that
      settles it. */
  lemma {:induction false} StatusLastWriterWins(s: RcState, error: SimFailure, resp: Message, t1: real, t2: real)
    requires s.server.Pending?
    ensures AfterProcSuccess(AfterFail(s, error, true, t1), resp, t2).view.status == Some(SUCCEED)
    ensures AfterProcSuccess(AfterFail(s, error, true, t1), resp, t2).server == Rejected(error)
    ensures AfterFail(AfterProcSuccess(s, resp, t1), error, true, t2).view.status == Some(error.code)
    ensures AfterFail(AfterProcSuccess(s, resp, t1), error, true, t2).server == Resolved(resp)
  {
    var failed := AfterFail(s, error, true, t1);
    assert failed.server == Rejected(error);
    var succeeded := AfterProcSuccess(s, resp, t1);
    assert succeeded.server == Resolved(resp);
  }

  class RequestContext {
    const request: Message
    var response: Option<Message>
    var hostName: Option<string>
    var endpointName: Option<string>
    var instanceName: Option<string>
    var status: Option<string>
    var reqSent: Option<real>
    var reqArrived: Option<real>
    var procStarted: Option<real>
    var procCompleted: Option<real>
    var respArrived: Option<real>
    var failedAt: Option<real>
    var isTimeout: bool
    var mark: bool
    const serverPromise: Promise<Message>

    function View(): RcView
      reads this
    {
      RcView(response, hostName, endpointName, instanceName, status, reqSent, reqArrived,
             procStarted, procCompleted, respArrived, failedAt, isTimeout, mark)
    }

    function State(): RcState
      reads this, serverPromise
    {
      RcState(View(), serverPromise.state)
    }

    /** A fresh context: every identifier, timestamp, the status and the
        response are None, `is_timeout` is False, `mark` is True, and the
        server promise is a new pending promise. */
    constructor (request: Message)
      ensures this.request == request
      ensures View() == FreshView
      ensures fresh(serverPromise) && serverPromise.state == Pending
    {
      this.request := request;
      response, hostName, endpointName, instanceName, status := None, None, None, None, None;
      reqSent, reqArrived, procStarted, procCompleted, respArrived, failedAt := None, None, None, None, None, None;
      isTimeout, mark := false, true;
      serverPromise := new Promise<Message>();
    }

    method Fail(error: SimFailure, atServer: bool, now: real)
      modifies this, serverPromise
      ensures State() == AfterFail(old(State()), error, atServer, now)
      ensures View() == old(View()).(failedAt := Some(now), status := Some(error.code))
      ensures serverPromise.state == if atServer then Settle(old(serverPromise.state), Err(error)) else old(serverPromise.state)
    {
      failedAt := Some(now);
      status := Some(error.code);
      if atServer {
        serverPromise.Reject(error);
      }
    }

    method ProcSuccess(resp: Message, now: real)
      modifies this, serverPromise
      ensures State() == AfterProcSuccess(old(State()), resp, now)
    {
      procCompleted := Some(now);
      status := Some(SUCCEED);
      response := Some(resp);
      serverPromise.Resolve(resp);
    }
  }
}
