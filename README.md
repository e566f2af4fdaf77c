# cna-sim core, modelled in Dafny

cna-sim is a discrete-event simulator of a cloud-native application. A
simulation is built from several kinds of component:

- **Load generators** send requests to a host at a rate that follows a
  configured schedule.
- **Clients** carry each request over the network. They optionally race it
  against a timeout.
- A **gateway** resolves a host name to a **service**, or to a single server
  instance registered under that name. A service is a set of **sync server**
  instances. A random active instance receives each request.
- A sync server queues requests, takes worker threads from a **thread pool**,
  and runs the request's **endpoint**. The endpoint computes for a sampled CPU
  time, which is slowed down by thread contention and by a warm-up factor. It
  then calls its dependencies in order.
- A **horizontal autoscaler** periodically averages a metric over the active
  instances. It scales the service up at once, and scales it down only when
  the maximum over a stabilisation window also allows it.
- A **data collector** turns every ended request into measurement records.

All of this runs on **promises**, which resolve or reject once. It also relies
on the simulation **context**, which runs elements after a delay and races an
operation against an instance's death.

The model has one Dafny module per source file:

| module | source file |
|---|---|
| `Common` | shared values: results, failures, messages, status codes |
| `Promises` | `cna_sim/core/promise.py` |
| `Request` | `cna_sim/core/request.py` |
| `SimContext` | `cna_sim/core/context.py` |
| `Clients` | `cna_sim/core/client.py` |
| `Utils` | `cna_sim/utils.py` |
| `SyncServers` | `cna_sim/components/instances/sync_server.py` |
| `LoadBalancers` | `cna_sim/components/proxies/random_load_balancer.py` |
| `Services` | `cna_sim/components/services/service.py` |
| `Gateways` | `cna_sim/components/proxies/gateway.py` |
| `Endpoints` | `cna_sim/components/endpoints/default_endpoint.py`, `static_endpoint.py` |
| `Autoscalers` | `cna_sim/components/autoscalers/horizontal_autoscaler.py` |
| `DataCollectors` | `cna_sim/components/data_collectors/default_data_collector.py` |
| `LoadGenerators` | `cna_sim/components/load_generators/dynamic_rps_load_generator.py` |

Objects whose fields the simulator updates in place are Dafny classes, with
`modifies` frames on their methods. These are the promise, the request
context, the thread pool, the sync server, the service, the gateway, the
endpoint table, the autoscaler and the client exchange.

The event scheduler is not modelled as such. Each piece of code that runs
after a `yield` is a step method that receives the current time `now`. The
outcome of whatever it waited for is also an input: a network transmission, a
sampled duration, a promise that has settled, or a timer that fired. Pure
computations are functions. Examples are the rate schedule, the scaling rule,
the CPU usage average and the records emitted for an ended request. Lemmas
relate them to each other and to their reference definitions.

## Model

| member | source | states |
|---|---|---|
| Promises.FromResult | cna_sim/core/promise.py:27-39 | a settled outcome is resolved exactly when the result is a success, with that value or that error |
| Promises.Settle | cna_sim/core/promise.py:27-39 | the first settlement of a pending promise takes effect; a settled promise never changes again |
| Promises.FirstSettlementWins | cna_sim/core/promise.py:27-39 | over any sequence of resolve/reject calls, the promise ends with the first call's result, and keeps its state if it was already settled |
| Promises.WaitRule | cna_sim/core/promise.py:76-84 | waiting on a settled promise returns its response if it succeeded, otherwise raises its error; converting back gives the same outcome |
| Promises.ThenRule | cna_sim/core/promise.py:41-57 | `then` runs the callback on the response when the source succeeded, and passes the source's error on unchanged when it failed |
| Promises.ThenSkipsCallbackOnFailure | cna_sim/core/promise.py:53-54 | when the source failed, the callback plays no part: any two callbacks give the same rejection |
| Promises.CatchRule | cna_sim/core/promise.py:59-74 | `catch` runs the handler on the error when the source failed, and passes the response through when it succeeded |
| Promises.CatchSkipsHandlerOnSuccess | cna_sim/core/promise.py:70-71 | when the source succeeded, the handler plays no part |
| Promises.RaceFirstWins | cna_sim/core/promise.py:86-101 | a race over promises ends with the outcome of whichever member settled first |
| Promises.Promise.constructor | cna_sim/core/promise.py:5-11 | a new promise is pending: neither succeeded nor failed |
| Promises.Promise.Resolve | cna_sim/core/promise.py:34-39 | the first settlement succeeds with the response; a promise already settled is left unchanged |
| Promises.Promise.Reject | cna_sim/core/promise.py:27-32 | the first settlement fails with the error; a promise already settled is left unchanged |
| Promises.Promise.Complete | cna_sim/core/promise.py:17-22 | the body of `Promise.init`: resolve with a success, reject with a failure |
| Promises.Promise.Wait | cna_sim/core/promise.py:76-84 | the result agrees with the succeed/failed flags and the stored response or error |
| Promises.Promise.Then | cna_sim/core/promise.py:41-42 | `then` returns a fresh pending promise |
| Promises.Promise.ContinueThen | cna_sim/core/promise.py:44-54 | once the source has settled, the derived promise settles as `ThenRule` says |
| Promises.Promise.Catch | cna_sim/core/promise.py:59-60 | `catch` returns a fresh pending promise |
| Promises.Promise.ContinueCatch | cna_sim/core/promise.py:62-71 | once the source has settled, the derived promise settles as `CatchRule` says |
| Promises.Race | cna_sim/core/promise.py:86-101 | a race returns a fresh pending promise |
| Promises.RaceStep | cna_sim/core/promise.py:89-99 | when a member settles, the race takes that member's outcome unless it had already settled |
| Request.Generate | cna_sim/core/request.py:8-20 | a message carries the configured attachment and size; the default configuration gives the empty message |
| Request.StatusLastWriterWins | cna_sim/core/request.py:47-57 | after both `fail` and `proc_success`, the status is the later writer's, while the server promise keeps the first one's outcome |
| Request.RequestContext.constructor | cna_sim/core/request.py:27-45 | a fresh context: no names or times, no status, not timed out, marked, and a pending server promise |
| Request.RequestContext.Fail | cna_sim/core/request.py:47-51 | sets the failure time and the error's status code; at the server it also rejects the server promise, elsewhere it leaves the promise alone |
| Request.RequestContext.ProcSuccess | cna_sim/core/request.py:53-57 | records completion and SUCCEED, and resolves the server promise with the response |
| SimContext.Run | cna_sim/core/context.py:61-71 | a negative delay raises ValueError; otherwise the element runs once the delay has passed, and a generator gives its own outcome, a function its call's result, anything else itself |
| SimContext.AliveRace | cna_sim/core/context.py:73-93 | a dead instance, or one that dies first, raises the alive error (default: the death value); a finished operation's success passes through and its failure becomes the generator error when one is given |
| SimContext.AliveRaceSucceedsOnlyWithOperation | cna_sim/core/context.py:73-93 | the race succeeds exactly when the operation finished first and succeeded, and then with the operation's value |
| SimContext.Simulation.constructor | cna_sim/core/context.py:101-103 | a simulation starts at time 0 with nothing flushed |
| SimContext.Simulation.Simulate | cna_sim/core/context.py:101-103 | running until a time not after now raises ValueError and changes nothing; otherwise the clock reaches that time and the collector is flushed once |
| Utils.DefaultIfNone | cna_sim/utils.py:10-11 | None gives the default; any other value is kept |
| Utils.NotNone | cna_sim/utils.py:14-16 | None fails the assertion; any other value is returned |
| Utils.RemoveM | cna_sim/utils.py:19-24 | None stays None; a number is kept; a text ending in `m` is read as thousandths; any other text is parsed; an empty text raises IndexError and unparsable text raises ValueError |
| Utils.RemoveMThousandths | cna_sim/utils.py:22-23 | appending `m` to a parsable number divides its value by 1000 |
| Utils.InjectContext | cna_sim/utils.py:33-37 | a plain function is called with the arguments; any other generator is returned unchanged |
| Utils.FitLognormalCheck | cna_sim/utils.py:50-52 | the sampler refuses with ValueError exactly when the mean is not positive or the standard deviation is negative |
| Utils.DistributionFromJson | cna_sim/utils.py:61-69 | mean and std default to 0 and go through `remove_m`, and the family defaults to lognormal; the result fails exactly when one of them cannot be read |
| SyncServers.Last | cna_sim/components/instances/sync_server.py:21 | keeps the last n entries of a track, or the whole track when it is shorter |
| SyncServers.CappedSumBounds | cna_sim/components/instances/sync_server.py:151 | the sum of per-sample usage capped at the quota lies between 0 and the number of samples times the quota |
| SyncServers.CpuUsage | cna_sim/components/instances/sync_server.py:147-152 | an empty track gives 0 |
| SyncServers.CpuUsageBounds | cna_sim/components/instances/sync_server.py:147-152 | CPU usage averaged over the last ten samples never exceeds the quota and is never negative |
| SyncServers.WarmingUpFactor | cna_sim/components/instances/sync_server.py:98-107 | before start-up the factor is the initial one; after the warm-up time it is 1; in between it lies between the two |
| SyncServers.Interpolate | cna_sim/components/instances/sync_server.py:105 | a linear blend of two values stays between them |
| SyncServers.InterpolateBetween | cna_sim/components/instances/sync_server.py:105 | moving a fraction of a distance stays between the start and the end |
| SyncServers.ContentionSlowsDown | cna_sim/components/instances/sync_server.py:115 | contention never shortens a computation; with no more threads than the quota the duration is just the sample times the warm-up factor |
| SyncServers.AdmissionRule | cna_sim/components/instances/sync_server.py:82 | a request is admitted only while the server is active or terminating; under a bounded queue the queue never exceeds its size; an unbounded queue (size None or 0) always admits |
| SyncServers.ThreadPool.constructor | cna_sim/components/instances/sync_server.py:10-15 | all threads are free, none is active, the track is empty |
| SyncServers.ThreadPool.Sample | cna_sim/components/instances/sync_server.py:17-21 | appends the current active-thread count and keeps only the last 20 samples |
| SyncServers.SyncServer.constructor | cna_sim/components/instances/sync_server.py:56-75 | the defaults: quota 1, 32 threads, no start-up delay or warm-up time, warm-up factor 2, shut-down delay 60; the server starts STARTING with an empty queue |
| SyncServers.SyncServer.RecvRequest | cna_sim/components/instances/sync_server.py:77-85 | a dead server ignores the request; otherwise it records its name and arrival time, then queues the request if admitted or fails it with CONNECTION_CLOSED at the server |
| SyncServers.SyncServer.WorkerTake | cna_sim/components/instances/sync_server.py:87-89 | the worker takes the oldest queued request, first in first out, only when it is waiting and the queue is not empty |
| SyncServers.SyncServer.WorkerAcquire | cna_sim/components/instances/sync_server.py:90-96 | the taken request starts only when a thread is free, and then holds one thread |
| SyncServers.SyncServer.HandlerDone | cna_sim/components/instances/sync_server.py:93-94 | a finished handler gives its thread back to the pool, and never overfills it |
| SyncServers.SyncServer.ComputeBegin | cna_sim/components/instances/sync_server.py:110-120 | the duration is the sample scaled by contention (counting this thread) and warm-up; a negative one raises ValueError and leaves the active-thread count as it was, otherwise one more thread is active |
| SyncServers.SyncServer.ComputeEnd | cna_sim/components/instances/sync_server.py:116-120 | the active count drops back whatever the outcome; the computation succeeds only when it finished before the instance died |
| SyncServers.SyncServer.Activate | cna_sim/components/instances/sync_server.py:129-134 | after the start-up delay a STARTING server becomes ACTIVE; any other status is kept |
| SyncServers.SyncServer.Terminate | cna_sim/components/instances/sync_server.py:136-137 | the status becomes TERMINATING |
| SyncServers.SyncServer.ShutDown | cna_sim/components/instances/sync_server.py:138-145 | every queued request fails with SERVER_DOWN at the server, the queue is cleared, the server is dead and TERMINATED; a second shut-down raises RuntimeError |
| SyncServers.SyncServer.Metric | cna_sim/components/instances/sync_server.py:154-163 | `status` gives the status; numeric metrics exist only while ACTIVE; CPU usage is `CpuUsage` of the sampled thread counts (the mean of the last ten, each capped at the quota), utilisation is that usage over the quota, and active threads is the pool's count |
| SyncServers.FailAll | cna_sim/components/instances/sync_server.py:140-141 | every request in the queue is failed with SERVER_DOWN at the server and nothing else about it changes |
| LoadBalancers.ActiveKeys | cna_sim/components/proxies/random_load_balancer.py:22-27 | exactly the instances whose status is ACTIVE |
| LoadBalancers.FindComponent | cna_sim/components/proxies/random_load_balancer.py:22-27 | picks some ACTIVE instance of the service, and None exactly when there is none |
| Services.StartingKeys | cna_sim/components/services/service.py:58-60 | exactly the instances still STARTING |
| Services.GrownByNothing | cna_sim/components/services/service.py:52-56 | growing by zero instances leaves the instance map as it was |
| Services.ShrunkStep | cna_sim/components/services/service.py:57-65 | removing one more victim extends a valid shrink by that victim |
| Services.PrefersStartingStep | cna_sim/components/services/service.py:58-62 | choosing a STARTING victim while any is left keeps the preference for STARTING instances |
| Services.OnlyStartingRemoved | cna_sim/components/services/service.py:58-62 | when no more instances are removed than are STARTING, every victim was STARTING |
| Services.Service.constructor | cna_sim/components/services/service.py:40-45 | the service has its name and instance configuration and no instance yet |
| Services.NewService | cna_sim/components/services/service.py:40-46 | a service starts with `replicas` (default 1) fresh STARTING instances under the first names, as many as there are distinct names; negative replicas raise IndexError |
| Services.Service.ScaleTo | cna_sim/components/services/service.py:50-65 | growing adds STARTING instances under new names and keeps every other instance and its status; shrinking removes exactly the surplus, STARTING ones first, and terminates each victim; a negative target removes everything and raises IndexError |
| Services.Service.Grow | cna_sim/components/services/service.py:52-56 | each new name gets a fresh STARTING instance; with new names the map grows by the count |
| Services.Service.AddOne | cna_sim/components/services/service.py:53-56 | one fresh STARTING instance under the name, named after it and belonging to this service; the others are untouched |
| Services.Service.Shrink | cna_sim/components/services/service.py:57-65 | exactly `count` victims are removed and terminated, STARTING ones first; survivors keep their status |
| Services.Service.RemoveVictim | cna_sim/components/services/service.py:58-65 | one victim, STARTING if any is left, is removed and terminated, and the shrink invariants are kept |
| Services.Service.RemoveMember | cna_sim/components/services/service.py:63-65 | the key leaves the map, its instance is terminated, and no other instance changes |
| Services.Service.TerminateMember | cna_sim/components/services/service.py:64 | only the named instance becomes TERMINATING |
| Services.Service.RecvRequest | cna_sim/components/services/service.py:67-72 | with no active instance the request fails with CONNECTION_REFUSED at the server; otherwise an active instance receives it |
| Services.Service.Metric | cna_sim/components/services/service.py:74-78 | the instance count and the active-instance count; any other name gives None |
| Gateways.HostSet | cna_sim/components/proxies/gateway.py:21-24 | the set holds exactly the listed hosts |
| Gateways.Registered | cna_sim/components/proxies/gateway.py:26-27 | registering keeps every known host and adds exactly the new ones |
| Gateways.RegisterHostsIdempotent | cna_sim/components/proxies/gateway.py:26-27 | registering the same hosts twice is the same as once, and the order of two registrations does not matter |
| Gateways.ForwardedOutcome | cna_sim/components/proxies/gateway.py:37-41 | a forwarded success passes through; a SimException becomes SERVER_ERROR; a SimError is not caught and gives no answer |
| Gateways.Gateway.constructor | cna_sim/components/proxies/gateway.py:21-24 | the known hosts are the given ones, none when None |
| Gateways.Gateway.RegisterHosts | cna_sim/components/proxies/gateway.py:26-27 | the known hosts grow by the given ones |
| Gateways.Gateway.FindComponent | cna_sim/components/proxies/gateway.py:29-31 | an unknown host fails the assertion; a known host without a component is a KeyError; otherwise the registered component, a service or a single instance |
| Gateways.Gateway.RecvStart | cna_sim/components/proxies/gateway.py:35-36 | arrival and processing start are both stamped now |
| Gateways.Gateway.RecvComplete | cna_sim/components/proxies/gateway.py:37-41 | the original request succeeds with the forwarded response, or fails with SERVER_ERROR at the server on a SimException; a SimError leaves it as it was |
| Endpoints.ApiDecorator | cna_sim/components/endpoints/default_endpoint.py:5-15 | the decorated function carries the API path and is otherwise unchanged |
| Endpoints.CollectedEntries | cna_sim/components/endpoints/default_endpoint.py:24-29 | a path is served exactly when some callable attribute carries it, and then by the last such attribute; other paths keep their entry |
| Endpoints.StaticOutcome | cna_sim/components/endpoints/static_endpoint.py:46-53 | a static API fails with the computation's error, else with the first failing dependency's error, else returns an empty message |
| Endpoints.FirstFailure | cna_sim/components/endpoints/static_endpoint.py:49-50 | the index of the first failed reply: all before it succeeded |
| Endpoints.StaticCalls | cna_sim/components/endpoints/static_endpoint.py:46-53 | dependencies are called in order; a failed computation calls none; a failing dependency is the last one called |
| Endpoints.RunStatic | cna_sim/components/endpoints/static_endpoint.py:46-53 | the loop over the dependencies gives exactly `StaticOutcome` and `StaticCalls` |
| Endpoints.FirstFailureAt | cna_sim/components/endpoints/static_endpoint.py:49-50 | a failed reply preceded only by successes is the first failure |
| Endpoints.FirstFailureNone | cna_sim/components/endpoints/static_endpoint.py:49-50 | with no failed reply, the first failure is past the end |
| Endpoints.StaticIgnoresLaterReplies | cna_sim/components/endpoints/static_endpoint.py:49-50 | replies after the first failure have no influence on the outcome or on the calls made |
| Endpoints.DispatchedStatus | cna_sim/components/endpoints/default_endpoint.py:34-40 | success gives SUCCEED, a SimError gives SERVER_DOWN, a SimException gives SERVER_ERROR |
| Endpoints.StaticFromJson | cna_sim/components/endpoints/static_endpoint.py:26-40 | one endpoint per JSON entry, with its name, dependencies and computation time; the result fails exactly when a computation time cannot be read |
| Endpoints.AddedAllEntries | cna_sim/components/endpoints/static_endpoint.py:18-24 | after adding every configured endpoint, a name is served by its last configuration; other names keep their entry |
| Endpoints.DefaultEndPoint.constructor | cna_sim/components/endpoints/default_endpoint.py:19-22 | the table is what collecting the attributes gives |
| Endpoints.DefaultEndPoint.CollectApis | cna_sim/components/endpoints/default_endpoint.py:24-29 | the table is extended by every attribute that carries an API path |
| Endpoints.DefaultEndPoint.Add | cna_sim/components/endpoints/static_endpoint.py:46-53 | the name maps to a static API with these dependencies and this computation time, and the endpoint itself is returned |
| Endpoints.DefaultEndPoint.AddAll | cna_sim/components/endpoints/static_endpoint.py:18-24 | the table is what adding each configuration in order gives |
| Endpoints.DefaultEndPoint.RecvStart | cna_sim/components/endpoints/default_endpoint.py:31-33 | the processing start is stamped; an unknown endpoint raises KeyError, a known one gives its API |
| Endpoints.DefaultEndPoint.RecvComplete | cna_sim/components/endpoints/default_endpoint.py:34-40 | the request succeeds with the response, or fails at the server with the status `DispatchedStatus` gives |
| Autoscalers.Ceil | cna_sim/components/autoscalers/horizontal_autoscaler.py:54 | the least integer not below x |
| Autoscalers.CeilMonotone | cna_sim/components/autoscalers/horizontal_autoscaler.py:54 | rounding up preserves order |
| Autoscalers.ScaleCompute | cna_sim/components/autoscalers/horizontal_autoscaler.py:52-57 | the result never exceeds the maximum, is at least the minimum when the bounds are consistent, and is the rounded-up demand when that lies within them |
| Autoscalers.ScaleComputeExample | cna_sim/components/autoscalers/horizontal_autoscaler.py:52-57 | two replicas at twice the target utilisation ask for four |
| Autoscalers.ScaleComputeMonotone | cna_sim/components/autoscalers/horizontal_autoscaler.py:52-57 | a higher metric never asks for fewer replicas |
| Autoscalers.ActiveMetrics | cna_sim/components/autoscalers/horizontal_autoscaler.py:60-61 | the metric is read from exactly the ACTIVE instances, and is numeric exactly for the numeric metrics |
| Autoscalers.Numbers | cna_sim/components/autoscalers/horizontal_autoscaler.py:64 | exactly the numeric readings, with their values |
| Autoscalers.SumOverRemove | cna_sim/components/autoscalers/horizontal_autoscaler.py:64 | a sum over a key set splits off any one key |
| Autoscalers.TimesIsProduct | cna_sim/components/autoscalers/horizontal_autoscaler.py:64 | adding a value n times gives n times the value |
| Autoscalers.SumOverBounds | cna_sim/components/autoscalers/horizontal_autoscaler.py:64 | a sum of values within bounds lies within the count times those bounds |
| Autoscalers.AverageWithin | cna_sim/components/autoscalers/horizontal_autoscaler.py:64 | the average of values within bounds lies within them |
| Autoscalers.MetricTotal | cna_sim/components/autoscalers/horizontal_autoscaler.py:64 | summing raises TypeError exactly when some reading is not a number, and otherwise is the sum of the readings |
| Autoscalers.Recent | cna_sim/components/autoscalers/horizontal_autoscaler.py:66-67 | keeps exactly the window entries newer than the cutoff |
| Autoscalers.RecentKeepsAll | cna_sim/components/autoscalers/horizontal_autoscaler.py:66-67 | when every entry is newer than the cutoff, the window is unchanged |
| Autoscalers.RecentIsSuffix | cna_sim/components/autoscalers/horizontal_autoscaler.py:66-67 | on a time-ordered window, pruning drops a prefix |
| Autoscalers.RecentStaysOrdered | cna_sim/components/autoscalers/horizontal_autoscaler.py:65-67 | appending the newest entry and pruning keeps the window time-ordered |
| Autoscalers.NewEntrySurvives | cna_sim/components/autoscalers/horizontal_autoscaler.py:65-67 | the entry just appended survives pruning exactly when the stabilisation window is positive |
| Autoscalers.WindowMax | cna_sim/components/autoscalers/horizontal_autoscaler.py:69 | the maximum of the average and the window values: an upper bound that is one of them |
| Autoscalers.Decide | cna_sim/components/autoscalers/horizontal_autoscaler.py:75-78 | scale up (or stay) to the optimum at once; scale down only to the window optimum and only when it is below the current count; otherwise do nothing |
| Autoscalers.ScaleDownNeverBelowOptimal | cna_sim/components/autoscalers/horizontal_autoscaler.py:69-78 | a decision never goes below the optimum for the current average nor above the maximum, and a scale-down goes to the window's optimum |
| Autoscalers.NextTrigger | cna_sim/components/autoscalers/horizontal_autoscaler.py:83-86 | a disabled autoscaler never moves its trigger; a move is one interval forward and never past now |
| Autoscalers.TriggerCatchesUp | cna_sim/components/autoscalers/horizontal_autoscaler.py:85-86 | when an interval has elapsed the trigger advances by one interval, so a lagging trigger catches up |
| Autoscalers.Assess | cna_sim/components/autoscalers/horizontal_autoscaler.py:59-78 | no active instance changes nothing; a non-numeric reading raises TypeError before the window changes; otherwise the window gains the average, and the decision never exceeds the maximum nor goes below the optimum when scaling down |
| Autoscalers.HorizontalAutoscaler.constructor | cna_sim/components/autoscalers/horizontal_autoscaler.py:34-50 | the defaults: enabled, 1 to 10 replicas, a 15 s interval and a 300 s stabilisation window; the trigger at 0 and an empty window |
| Autoscalers.HorizontalAutoscaler.Evaluate | cna_sim/components/autoscalers/horizontal_autoscaler.py:59-74 | result, decision and window are what `Assess` gives for the current active metrics |
| Autoscalers.HorizontalAutoscaler.Scale | cna_sim/components/autoscalers/horizontal_autoscaler.py:59-78 | decision and window are those of `Assess`; with no decision the service is left alone, otherwise it is scaled to it as `ScaledTo` says (new STARTING instances when growing; the surplus removed and terminated, STARTING first, when shrinking; IndexError exactly for a negative decision), and only new instances are fresh |
| Autoscalers.HorizontalAutoscaler.ApplyDecision | cna_sim/components/autoscalers/horizontal_autoscaler.py:75-78 | the service is scaled to the target as `ScaledTo` says and raises exactly for a negative target; the window is untouched |
| Autoscalers.HorizontalAutoscaler.Tick | cna_sim/components/autoscalers/horizontal_autoscaler.py:80-87 | the autoscaler scales exactly when it is enabled and an interval has elapsed, advancing the trigger by one interval, with the decision and window of `Assess` and the scaling `Scale` states; otherwise nothing changes |
| DataCollectors.StatusTag | cna_sim/components/data_collectors/default_data_collector.py:38 | a timed-out request is tagged TIMEOUT whatever its status |
| DataCollectors.MakeRecord | cna_sim/components/data_collectors/default_data_collector.py:49-52 | a record without a time is stamped now |
| DataCollectors.Interval | cna_sim/components/data_collectors/default_data_collector.py:42-47 | an interval is recorded exactly when both of its ends are truthy, with the difference as its value |
| DataCollectors.EndedRequestRecords | cna_sim/components/data_collectors/default_data_collector.py:20-47 | an unmarked request or one never sent gives nothing; otherwise a count, then the intervals, all stamped with the send time and the request's tags |
| DataCollectors.EndedRequestRecordsOrdered | cna_sim/components/data_collectors/default_data_collector.py:41-47 | the records come as count, queue time, computation time, response time |
| DataCollectors.EndedRequestRecordsTimes | cna_sim/components/data_collectors/default_data_collector.py:42-47 | each interval is emitted exactly when its two times are truthy |
| DataCollectors.TimedOutRequestCountedOnce | cna_sim/components/data_collectors/default_data_collector.py:31-41 | a timed-out request is counted exactly once, under TIMEOUT |
| DataCollectors.ZeroSendTimeSuppressesResponseTime | cna_sim/components/data_collectors/default_data_collector.py:46-47 | a request sent at time 0 is counted but has no response time, because 0 is not truthy |
| LoadGenerators.ModeOf | cna_sim/components/load_generators/dynamic_rps_load_generator.py:73-84 | the five known mode names; any other text is kept as an unknown mode |
| LoadGenerators.Normalize | cna_sim/components/load_generators/dynamic_rps_load_generator.py:15 | each entry's time goes through `remove_m` and its mode defaults to linear; the first unreadable time raises its exception |
| LoadGenerators.Insert | cna_sim/components/load_generators/dynamic_rps_load_generator.py:16 | inserting adds exactly that point |
| LoadGenerators.SortByTime | cna_sim/components/load_generators/dynamic_rps_load_generator.py:16 | sorting is a permutation of the points |
| LoadGenerators.ConsSorted | cna_sim/components/load_generators/dynamic_rps_load_generator.py:16 | a point no later than a sorted list can go in front of it |
| LoadGenerators.InsertSorted | cna_sim/components/load_generators/dynamic_rps_load_generator.py:16 | inserting into a sorted list keeps it sorted |
| LoadGenerators.SortByTimeSorted | cna_sim/components/load_generators/dynamic_rps_load_generator.py:16 | the sort's result is ordered by time |
| LoadGenerators.AtTimeAppend | cna_sim/components/load_generators/dynamic_rps_load_generator.py:16 | the points at one time, taken from a concatenation, come in order from the two parts |
| LoadGenerators.AtTimeSingle | cna_sim/components/load_generators/dynamic_rps_load_generator.py:16 | a single point is at a time exactly when its time is that time |
| LoadGenerators.InsertAtTime | cna_sim/components/load_generators/dynamic_rps_load_generator.py:16 | an inserted point goes after every point with the same time |
| LoadGenerators.AtTimeAbove | cna_sim/components/load_generators/dynamic_rps_load_generator.py:16 | no point of a list that is wholly later is at an earlier time |
| LoadGenerators.SortByTimeStable | cna_sim/components/load_generators/dynamic_rps_load_generator.py:16 | the sort is stable: points with equal times keep their configured order |
| LoadGenerators.Preprocess | cna_sim/components/load_generators/dynamic_rps_load_generator.py:14-19 | an empty list raises IndexError; an unreadable time raises; otherwise the sorted points, with (0, 0, linear) in front when the first does not start at 0 |
| LoadGenerators.PreprocessStartsAtZero | cna_sim/components/load_generators/dynamic_rps_load_generator.py:17-18 | a preprocessed schedule always starts at time 0; when no configured time is negative it is also sorted by time and holds exactly the configured points, plus the origin when none was at 0 |
| LoadGenerators.Times | cna_sim/components/load_generators/dynamic_rps_load_generator.py:60 | the list of the points' times |
| LoadGenerators.BisectLeft | cna_sim/components/load_generators/dynamic_rps_load_generator.py:61 | the search stays within its bounds |
| LoadGenerators.BisectLeftSplits | cna_sim/components/load_generators/dynamic_rps_load_generator.py:61 | `bisect_left` splits an ascending list into the times before t and the times at or after t |
| LoadGenerators.BisectRight | cna_sim/components/load_generators/dynamic_rps_load_generator.py:61 | the search stays within its bounds |
| LoadGenerators.BisectRightSplits | cna_sim/components/load_generators/dynamic_rps_load_generator.py:61 | `bisect_right` splits an ascending list into the times at or before t and the times after t |
| LoadGenerators.SegmentRate | cna_sim/components/load_generators/dynamic_rps_load_generator.py:73-85 | outside its segment or for an unknown mode the rate is the last point's value; step_start gives the end value and step_end the start value |
| LoadGenerators.SegmentRateShaped | cna_sim/components/load_generators/dynamic_rps_load_generator.py:74-84 | the linear, accelerating and decelerating modes blend start and end by t, t² and 1-(1-t)² of the elapsed fraction |
| LoadGenerators.SegmentRateBetween | cna_sim/components/load_generators/dynamic_rps_load_generator.py:73-84 | inside a linear, accelerating or decelerating segment the rate lies between the segment's two values, and at the segment's start it is the start value |
| LoadGenerators.Rps | cna_sim/components/load_generators/dynamic_rps_load_generator.py:59-85 | a schedule of fewer than two points raises IndexError |
| LoadGenerators.RpsCorrected | cna_sim/components/load_generators/dynamic_rps_load_generator.py:59-85 | the same, with the segment found by `bisect_right` |
| LoadGenerators.RpsOutsideSchedule | cna_sim/components/load_generators/dynamic_rps_load_generator.py:63-68 | before the schedule or at or after its end, both readings give the last point's value |
| LoadGenerators.RpsCorrectedReadsContainingSegment | cna_sim/components/load_generators/dynamic_rps_load_generator.py:63-85 | within the schedule the corrected reading uses the segment that contains t |
| LoadGenerators.RpsCorrectedAtBreakpoint | cna_sim/components/load_generators/dynamic_rps_load_generator.py:73-84 | at a breakpoint the corrected reading is that point's value |
| LoadGenerators.RpsAgreesOffBreakpoints | cna_sim/components/load_generators/dynamic_rps_load_generator.py:60-85 | away from every breakpoint the two readings agree |
| LoadGenerators.RampUpDownTimes | cna_sim/components/load_generators/dynamic_rps_load_generator.py:60 | the example schedule's times are 0, 10 and 20 |
| LoadGenerators.RpsAtLaterBreakpoint | cna_sim/components/load_generators/dynamic_rps_load_generator.py:60-85 | as written, at the time of any breakpoint after the first the reading is the last point's value, whatever that breakpoint's own value |
| LoadGenerators.RpsBreakpointGlitch | cna_sim/components/load_generators/dynamic_rps_load_generator.py:60-85 | as written, a ramp 0→100→0 reads 0 at its peak time 10 |
| LoadGenerators.RpsCorrectedBreakpointExample | cna_sim/components/load_generators/dynamic_rps_load_generator.py:63-85 | the corrected reading gives 100 at the peak |
| LoadGenerators.RpsAroundBreakpoint | cna_sim/components/load_generators/dynamic_rps_load_generator.py:63-75 | as written, the ramp reads 90 just before and just after the peak |
| LoadGenerators.NewLoadGenerator | cna_sim/components/load_generators/dynamic_rps_load_generator.py:47-57 | a missing schedule, host or endpoint fails the assertion; a bad schedule raises its error; otherwise the preprocessed schedule, with no timeout by default and by_proxy off |
| LoadGenerators.ProcessTick | cna_sim/components/load_generators/dynamic_rps_load_generator.py:87-96 | one loop iteration reads the rate at now as written (`Rps`, with `bisect_left`) and acts on it as `TickAt` says; a schedule of fewer than two points raises |
| LoadGenerators.ProcessTickCorrected | cna_sim/components/load_generators/dynamic_rps_load_generator.py:87-96 | the same iteration over the corrected reading `RpsCorrected` |
| LoadGenerators.TickAt | cna_sim/components/load_generators/dynamic_rps_load_generator.py:89-96 | at one request per second or more, one request is sent after 1/rate seconds; below that it looks again after 0.1 s |
| LoadGenerators.SegmentRateBelow | cna_sim/components/load_generators/dynamic_rps_load_generator.py:73-85 | a segment whose fallback and two values are below a bound reads below it |
| LoadGenerators.QuietScheduleNeverSends | cna_sim/components/load_generators/dynamic_rps_load_generator.py:87-96 | a schedule of at least two points whose every rate is below one never sends a request, as written and corrected alike: each iteration waits 0.1 s |
| Clients.ChainOutcome | cna_sim/core/client.py:46-49 | the exchange succeeds only when sending, the server and the return trip all succeed, with the server's response; otherwise with the first failure |
| Clients.ChainIsThenComposition | cna_sim/core/client.py:46-49 | the three chained `then` steps give exactly `ChainOutcome` |
| Clients.TimedOutcome | cna_sim/core/client.py:53-64 | with a timeout, the caller sees the exchange's outcome if it settled first and TIMEOUT otherwise |
| Clients.TimedOutcomeIsRace | cna_sim/core/client.py:56-64 | a race of the exchange against the timer gives exactly `TimedOutcome` |
| Clients.Exchange.constructor | cna_sim/core/client.py:46-64 | a new exchange is sending, with a pending response promise, and with a timer and race exactly when a timeout is given |
| Clients.Exchange.Finish | cna_sim/core/client.py:46-51 | the response promise settles with the outcome, the ended request is recorded, and the race hears of it |
| Clients.Exchange.Dropped | cna_sim/core/client.py:29-32 | a lost transmission stamps the failure and its code, and fails the exchange with that error |
| Clients.Exchange.HandOver | cna_sim/core/client.py:33 | the receiver gets the request: a service fails it with CONNECTION_REFUSED when it has no active instance and otherwise passes it on; a single instance queues it, or fails it with CONNECTION_CLOSED when its queue is full; the gateway stamps its arrival |
| Clients.Exchange.Outbound | cna_sim/core/client.py:26-34 | the outbound transmission either fails the exchange or hands the request to the receiver |
| Clients.Exchange.ServerSettled | cna_sim/core/client.py:48 | a server failure fails the exchange; a server response starts the return trip |
| Clients.Exchange.Inbound | cna_sim/core/client.py:36-44 | the return transmission either fails the exchange or stamps the arrival and resolves it with the response; either way the request is recorded |
| Clients.Exchange.TimeoutFires | cna_sim/core/client.py:57-60 | the request is marked timed out, the timer rejects with TIMEOUT, and the race takes that outcome unless it has settled |
| Clients.Direct | cna_sim/core/client.py:21-22 | a resolved service is received as a service, a resolved instance as that instance |
| Clients.GatewayForward | cna_sim/components/proxies/gateway.py:33-38 | the gateway stamps the request's arrival and processing start, then sends its payload on through its own client with no timeout and not by proxy: the simulation's gateway resolves the host (its errors raise) and the new exchange goes to the resolved component |
| Clients.SendRequest | cna_sim/core/client.py:13-24 | by proxy the request goes to the gateway under its name; otherwise a host that cannot be resolved raises and a resolved one, service or instance, is the receiver, stamped with host and endpoint; the send time is now |

## Left out

- The simpy scheduler is not modelled; every resumption after a `yield` is a step method. Timeouts, queue waits and interleavings are not modelled as events, and which step runs when is up to the caller.
- Random sampling is not modelled: the lognormal and normal samples of `Distribution.sample` and `fit_lognormal`, and the random choice of the load balancer. Samples are inputs, and the choice is any active instance.
- The network's `transmit` is not modelled; its outcome is an input to the client steps.
- The monitoring loops' logging is not modelled (`sync_server.py:165-173`, `service.py:80-88`), nor the log line of `DefaultDataCollector.record`. The records an ended request produces are modelled as values, as is the thread pool's sampling.
- `errors.py` is not part of this model. A SimError and a SimException are modelled as two distinct failure kinds.
- `to_timestamp_ns`, `uuid` and `shallow_asdict` are not modelled. The config classes, `generator` factories and builder are not modelled beyond `from_json` for static endpoints and distributions.
- Proxies other than the gateway and the random load balancer are not modelled.
- Missing JSON keys and a None time in a configured schedule are excluded by the types. A configured mode that is not a string is read as its text.
- In a client, only SimException failures of a transmission are modelled. Any other exception escaping `send_delay` or `recv_delay` is not.
- LoadGenerators.PreprocessStartsAtZero: sortedness is proved only for schedules whose times are all non-negative. With a negative configured time the origin goes in front of an earlier point, and the schedule is not sorted.
- Services.Service.ScaleTo: under a negative target the source removes every instance and then raises IndexError. The model states both, but not the order in which the instances' terminations happen.
- Clients.Exchange.TimeoutFires: as in the source, the request is marked timed out even when the exchange already succeeded; the contract does not claim otherwise.
- Floating-point arithmetic is modelled as exact real arithmetic. Rounding can change a result: `scale_compute(3, 0.1, 0.1, 1, 10)` computes `ceil(3 * 0.1 / 0.1)`, which is 4 in floating point, while `Autoscalers.ScaleCompute` gives 3.
- The simulation context's component table is an input map of `Gateways.Component` values, one per host name.
- A zero `cpu_quota` or `target_value` is excluded by requires clauses: `SyncServers.UsableConfig` (and so `SyncServers.SyncServer.Valid`), `Autoscalers.HorizontalAutoscaler.constructor` and `Autoscalers.ScaleCompute`. The source does not check these values. A zero raises ZeroDivisionError at its first use: the contention factor and `cpu_utilization` of a server, and `scale_compute`.
- A thread count below one is excluded by `SyncServers.UsableConfig` and `SyncServers.ThreadPool.constructor`. simpy's `Container` raises ValueError for a capacity that is not positive.

Behaviours of the code worth noting:

- A queue size of 0 means an unbounded queue, because `0` is falsy.
- At the instant the start-up delay ends, the warm-up factor is still the initial one, because the test is `t <= 0`.
- A second `terminate` shut-down raises RuntimeError, from succeeding the alive event twice.
- `run` with a negative delay raises ValueError from simpy's `timeout`. So does a computation whose sampled duration is negative; its thread count is restored by the `finally`.
- A service created with negative replicas raises IndexError, from the shrink of its empty instance map.
- The gateway resolves a host to whatever the simulation registered under it: a service or a single server instance.
- When a race's members settle at the same instant, the one listed first wins.
- A gateway forwards through its own client, which has no proxy, so the forward is resolved by the simulation's gateway, not necessarily by the forwarding one.
- A gateway catches only SimException from the forwarded exchange. A SimError escapes its task, and the original request is never answered.

## Findings

| source | as written | input that shows it | evidently intended | confidence | as-written member | corrected member |
|---|---|---|---|---|---|---|
| cna_sim/components/load_generators/dynamic_rps_load_generator.py:60-85 | `bisect_left` picks the segment that ends at a breakpoint; the test `start_time <= t < end_time` then fails, and the rate falls back to the last point's value | schedule (0, 0) → (10, 100) → (20, 0), linear, read at t = 10 | the rate at a breakpoint is that point's value: 100 at t = 10 | not executed | LoadGenerators.RpsBreakpointGlitch | LoadGenerators.RpsCorrectedAtBreakpoint |
