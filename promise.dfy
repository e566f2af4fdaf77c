/** The single-settlement promise of `cna_sim/core/promise.py`.

    A promise is pending until its first `resolve` or `reject`; that first call
    fixes its outcome for good and fires its `alive` event, every later call
    does nothing. The source keeps four fields (`succeed`, `failed`,
    `response`, `error`) and an event; here they are one field of type
    `Outcome`, and the four Python fields are read back through functions of
    the same names.

    The combinators `then`, `catch`, `wait` and `race` start a task that waits
    for the source promise to settle. Each such task is modelled as the step
    that runs when the wait is over, taking the outcome of the callback (which
    may itself have suspended) as an input, together with a pure rule saying
    which outcome that step produces. */
module Promises {
  import opened Common

  datatype Outcome<+T> = Pending | Resolved(value: T) | Rejected(error: SimFailure)
  {
    predicate Settled() { !Pending? }
  }

  /** The outcome a finished generator or callback settles a promise with. */
  function FromResult<T>(r: Result<T>): (o: Outcome<T>)
    ensures o.Settled()
    ensures o.Resolved? <==> r.Ok?
    ensures r.Ok? ==> o.value == r.value
    ensures r.Err? ==> o.error == r.error
  {
    match r
    case Ok(v) => Resolved(v)
    case Err(e) => Rejected(e)
  }

  /** One `resolve` or `reject` call: it takes effect only on a pending
      promise. */
  function Settle<T>(o: Outcome<T>, r: Result<T>): (o': Outcome<T>)
    ensures o'.Settled()
    ensures o.Pending? ==> o' == FromResult(r)
    ensures o.Settled() ==> o' == o
  {
    if o.Pending? then FromResult(r) else o
  }

  /** A series of `resolve`/`reject` calls, in the order they are made. */
  function SettleAll<T>(o: Outcome<T>, calls: seq<Result<T>>): Outcome<T>
    decreases |calls|
  {
    if calls == [] then o else SettleAll(Settle(o, calls[0]), calls[1..])
  }

  /** Settlement is one-shot: after any series of calls, a promise that was
      pending holds the outcome of the first call, and a settled one keeps
      what it had. */
  lemma {:induction false} FirstSettlementWins<T>(o: Outcome<T>, calls: seq<Result<T>>)
    ensures calls == [] ==> SettleAll(o, calls) == o
    ensures o.Settled() ==> SettleAll(o, calls) == o
    ensures o.Pending? && calls != [] ==> SettleAll(o, calls) == FromResult(calls[0])
    decreases |calls|
  {
    if calls != [] {
      FirstSettlementWins(Settle(o, calls[0]), calls[1..]);
    }
  }

  /** What `wait()` delivers once the promise has settled: the response, or
      the stored error raised. */
  function WaitRule<T>(o: Outcome<T>): (r: Result<T>)
    requires o.Settled()
    ensures r.Ok? <==> o.Resolved?
    ensures FromResult(r) == o
  {
    match o
    case Resolved(v) => Ok(v)
    case Rejected(e) => Err(e)
  }

  /** The outcome of the promise returned by `then(callback)`: the callback's
      result when the source succeeded, the source's own error otherwise. */
  function ThenRule<T, U>(src: Outcome<T>, callback: T -> Result<U>): (r: Result<U>)
    requires src.Settled()
    ensures src.Resolved? ==> r == callback(src.value)
    ensures src.Rejected? ==> r == Err(src.error)
  {
    match src
    case Resolved(v) => callback(v)
    case Rejected(e) => Err(e)
  }

  /** On a failed source `then` never consults the callback: any two
      callbacks give the same outcome. */
  lemma ThenSkipsCallbackOnFailure<T, U>(src: Outcome<T>, f: T -> Result<U>, g: T -> Result<U>)
    requires src.Rejected?
    ensures ThenRule(src, f) == ThenRule(src, g) == Err(src.error)
  {
  }

  /** The outcome of the promise returned by `catch(handler)`: the handler's
      result when the source failed, the source's own response otherwise. */
  function CatchRule<T>(src: Outcome<T>, handler: SimFailure -> Result<T>): (r: Result<T>)
    requires src.Settled()
    ensures src.Rejected? ==> r == handler(src.error)
    ensures src.Resolved? ==> r == Ok(src.value)
  {
    match src
    case Resolved(v) => Ok(v)
    case Rejected(e) => handler(e)
  }

  /** On a successful source `catch` never consults the handler. */
  lemma CatchSkipsHandlerOnSuccess<T>(src: Outcome<T>, f: SimFailure -> Result<T>, g: SimFailure -> Result<T>)
    requires src.Resolved?
    ensures CatchRule(src, f) == CatchRule(src, g) == Ok(src.value)
  {
  }

  /** The race promise after its members have settled in the given order:
      each member's `wait` ends in that order and each end is a settlement
      attempt on the race promise. The order is the order of the ends, not
      of the simulated times. When several members' waits have ended by the
      time simpy's `any_of` reports (at the same instant), it lists them in
      the order of the member list and `race` takes the first, so such a tie
      is won by the member listed first: the order given here is then the
      list order. */
  function RaceAfter<T>(settledInOrder: seq<Outcome<T>>): Outcome<T>
    requires forall i :: 0 <= i < |settledInOrder| ==> settledInOrder[i].Settled()
  {
    SettleAll(Pending, seq(|settledInOrder|, i requires 0 <= i < |settledInOrder| => WaitRule(settledInOrder[i])))
  }

  /** `race` settles with the outcome, value or error, of the first member to
      settle; what the later members do is ignored. */
  lemma RaceFirstWins<T>(settledInOrder: seq<Outcome<T>>)
    requires |settledInOrder| > 0
    requires forall i :: 0 <= i < |settledInOrder| ==> settledInOrder[i].Settled()
    ensures RaceAfter(settledInOrder) == settledInOrder[0]
  {
    var calls := seq(|settledInOrder|, i requires 0 <= i < |settledInOrder| => WaitRule(settledInOrder[i]));
    FirstSettlementWins(Pending, calls);
  }

  class Promise<T> {
    /** `succeed`/`response` and `failed`/`error` of the source, in one
        field; the `alive` event has fired exactly when it is settled. */
    var state: Outcome<T>

    /** A fresh promise is pending. */
    constructor ()
      ensures state == Pending
    {
      state := Pending;
    }

    function Succeed(): bool
      reads this
    {
      state.Resolved?
    }

    function Failed(): bool
      reads this
    {
      state.Rejected?
    }

    /** `response`: None until the promise has succeeded. */
    function Response(): Option<T>
      reads this
    {
      if state.Resolved? then Some(state.value) else None
    }

    /** `error`: None until the promise has failed. */
    function Error(): Option<SimFailure>
      reads this
    {
      if state.Rejected? then Some(state.error) else None
    }

    /** Whether the `alive` event has been triggered. */
    function AliveTriggered(): bool
      reads this
    {
      state.Settled()
    }

    /** `resolve`: on a pending promise, sets `succeed` and `response` and
        fires `alive`; on a settled one, does nothing. */
    method Resolve(response: T)
      modifies this
      ensures state == Settle(old(state), Ok(response))
      ensures old(!AliveTriggered()) ==> Succeed() && !Failed() && Response() == Some(response)
      ensures old(AliveTriggered()) ==> state == old(state)
    {
      if state.Settled() {
        return;
      }
      state := Resolved(response);
    }

    /** `reject`: on a pending promise, sets `failed` and `error` and fires
        `alive`; on a settled one, does nothing. */
    method Reject(error: SimFailure)
      modifies this
      ensures state == Settle(old(state), Err(error))
      ensures old(!AliveTriggered()) ==> Failed() && !Succeed() && Error() == Some(error)
      ensures old(AliveTriggered()) ==> state == old(state)
    {
      if state.Settled() {
        return;
      }
      state := Rejected(error);
    }

    /** The end of the task that `Promise.init` starts: resolve with the
        generator's return value, or reject with the SimException or
        SimError it raised. */
    method Complete(r: Result<T>)
      modifies this
      ensures state == Settle(old(state), r)
    {
      match r
      case Ok(v) => Resolve(v);
      case Err(e) => Reject(e);
    }

    /** `wait()`, once `alive` has fired: the response, or the error raised. */
    function Wait(): (r: Result<T>)
      reads this
      requires AliveTriggered()
      ensures r.Ok? <==> Succeed()
      ensures r.Ok? ==> Response() == Some(r.value)
      ensures r.Err? ==> Error() == Some(r.error)
    {
      WaitRule(state)
    }

    /** `then(callback)`: a new pending promise; `ContinueThen` settles it. */
    method Then<U>() returns (p: Promise<U>)
      ensures fresh(p) && p.state == Pending
    {
      p := new Promise<U>();
    }

    /** The task `then` starts, once this promise has fired `alive`: settle
        the derived promise by `ThenRule`. */
    method ContinueThen<U>(derived: Promise<U>, callback: T -> Result<U>)
      requires AliveTriggered()
      modifies derived
      ensures derived.state == Settle(old(derived.state), ThenRule(old(state), callback))
    {
      if Succeed() {
        derived.Complete(callback(state.value));
      } else {
        derived.Reject(state.error);
      }
    }

    /** `catch(handler)`: a new pending promise; `ContinueCatch` settles it. */
    method Catch() returns (p: Promise<T>)
      ensures fresh(p) && p.state == Pending
    {
      p := new Promise<T>();
    }

    /** The task `catch` starts, once this promise has fired `alive`: settle
        the derived promise by `CatchRule`. */
    method ContinueCatch(derived: Promise<T>, handler: SimFailure -> Result<T>)
      requires AliveTriggered()
      modifies derived
      ensures derived.state == Settle(old(derived.state), CatchRule(old(state), handler))
    {
      if Failed() {
        derived.Complete(handler(state.error));
      } else {
        derived.Resolve(state.value);
      }
    }
  }

  /** `Promise.race(promises)`: a new pending promise; `RaceStep` settles it. */
  method Race<T>() returns (r: Promise<T>)
    ensures fresh(r) && r.state == Pending
  {
    r := new Promise<T>();
  }

  /** The end of one member's `wait` inside the race task. The first member to
      settle decides the race; the later ones find it settled and change
      nothing, and their errors are not raised anywhere (the step has no
      failure of its own). */
  method RaceStep<T>(race: Promise<T>, members: seq<Promise<T>>, i: nat)
    requires i < |members| && members[i].AliveTriggered()
    requires race !in members
    modifies race
    ensures race.state == Settle(old(race.state), members[i].Wait())
    ensures old(race.state).Settled() ==> race.state == old(race.state)
  {
    race.Complete(members[i].Wait());
  }
}
