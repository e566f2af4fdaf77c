/** The scheduling helpers of `cna_sim/core/context.py`.

    `run` and `alive_race` wrap a generator in a scheduler process; what they
    add is the choice of the outcome that process ends with, which is what is
    modelled here. The scheduler itself (a virtual clock with a queue of
    timed events) is the `simpy` library and is represented only by the time
    `now` the callers pass in. */
module SimContext {
  import opened Common

  /** What `run` is given: a generator (modelled by the outcome it ends with),
      a plain function (modelled by the outcome of calling it), or any other
      value. */
  datatype Element<T> = Generator(ends: Result<T>) | Function(call: () -> Result<T>) | Other(v: T)

  /** When the element starts to run (the moment its delay ends) and the
      outcome it finally ends with; a generator runs on after `at`, for as
      long as it takes, before it delivers that outcome. */
  datatype Scheduled<T> = Scheduled(at: real, outcome: Result<T>)

  /** `run(element, delay)`: after `delay`, run a generator and produce its
      return value, call a plain function, or produce anything else
      unchanged. The scheduler refuses a negative delay: the process `run`
      returns then fails with ValueError. */
  function Run<T>(element: Element<T>, now: real, delay: real): (s: PyResult<Scheduled<T>>)
    ensures s.Raise? <==> delay < 0.0
    ensures s.Raise? ==> s.exception == ValueError
    ensures s.Value? ==> s.value.at == now + delay
    ensures s.Value? && element.Other? ==> s.value.outcome == Ok(element.v)
    ensures s.Value? && element.Generator? ==> s.value.outcome == element.ends
    ensures s.Value? && element.Function? ==> s.value.outcome == element.call()
  {
    if delay < 0.0 then Raise(ValueError)
    else
      Value(Scheduled(now + delay,
        match element
        case Generator(ends) => ends
        case Function(call) => call()
        case Other(v) => Ok(v)))
  }

  /** How the race between an operation and an owner's `alive` event was
      decided: the event had already fired when the race began, the event
      fired first, or the operation finished first with the given result. */
  datatype RaceEnd<T> = AlreadyDead | DiedFirst | Finished(r: Result<T>)

  /** `alive_race(generator, alive_event, generator_error, alive_error)`:
      a dead owner raises `alive_error` if given, else the value the alive
      event carries; an operation failure is re-raised as `generator_error`
      if given, else unchanged; an operation that finishes first delivers its
      value. */
  function AliveRace<T>(e: RaceEnd<T>, aliveValue: SimFailure,
                        generatorError: Option<SimFailure>, aliveError: Option<SimFailure>): (r: Result<T>)
    ensures (e.AlreadyDead? || e.DiedFirst?) ==>
              r == Err(if aliveError.Some? then aliveError.value else aliveValue)
    ensures e.Finished? && e.r.Ok? ==> r == e.r
    ensures e.Finished? && e.r.Err? ==>
              r == Err(if generatorError.Some? then generatorError.value else e.r.error)
  {
    match e
    case AlreadyDead => Err(if aliveError.Some? then aliveError.value else aliveValue)
    case DiedFirst => Err(if aliveError.Some? then aliveError.value else aliveValue)
    case Finished(Ok(v)) => Ok(v)
    case Finished(Err(err)) => Err(if generatorError.Some? then generatorError.value else err)
  }

  /** Only a finished operation can make the race succeed, and then with the
      operation's own value: a race the owner's death decides always fails. */
  lemma AliveRaceSucceedsOnlyWithOperation<T>(e: RaceEnd<T>, aliveValue: SimFailure,
                                              generatorError: Option<SimFailure>, aliveError: Option<SimFailure>)
    ensures AliveRace(e, aliveValue, generatorError, aliveError).Ok? <==> e.Finished? && e.r.Ok?
    ensures AliveRace(e, aliveValue, generatorError, aliveError).Ok? ==>
              AliveRace(e, aliveValue, generatorError, aliveError).value == e.r.value
  {
  }

  /** The run boundary: the virtual clock and the number of times the data
      collector has been flushed. */
  class Simulation {
    var now: real
    var flushes: nat

    constructor ()
      ensures now == 0.0 && flushes == 0
    {
      now, flushes := 0.0, 0;
    }

    /** `simulate(until)`: advance the clock to `until`, then flush the data
        collector once. The scheduler raises ValueError, and nothing happens,
        when `until` is not later than the current time. The events processed
        on the way are the step methods of the other modules. */
    method Simulate(until: real) returns (r: PyResult<()>)
      modifies this
      ensures r.Raise? <==> until <= old(now)
      ensures r.Raise? ==> r.exception == ValueError && now == old(now) && flushes == old(flushes)
      ensures r.Value? ==> now == until && flushes == old(flushes) + 1
    {
      if until <= now {
        return Raise(ValueError);
      }
      now := until;
      flushes := flushes + 1;
      r := Value(());
    }
  }
}
