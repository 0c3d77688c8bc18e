# DenseCloud verification

A Dafny model of the stateful core of DenseCloud, the Go serving chassis, with proofs of what its
components promise over every input, every run or every interleaving. `dafny verify dfyconfig.toml`
checks the whole project.

| file | models |
|---|---|
| `token_bucket.dfy` | `RateLimiter`, the lazily refilled token bucket |
| `partitioned_limiter.dfy` | `PartitionedRateLimiter`, the bounded table of buckets with eviction and overflow |
| `table_laws.dfy` | who gets a bucket in that table, what the others get, how often it is cleaned |
| `eviction.dfy` | when evicting an idle bucket can be noticed |
| `flood_bound.dfy` | how much that table can admit over all keys |
| `redis_limiter.dfy` | the Lua script and the breaker of `RedisRateLimiter` |
| `redis_fallback.dfy` | `RedisRateLimiter.AllowKey` with Redis, breaker and fallback together |
| `composite_exact.dfy` | when the bound on both together holds |
| `health_checks.dfy` | `healthCheckExecution` and `runCheck`, single-flight checks |
| `readiness.dfy` | the started and shutting-down flags, and one evaluation's report |
| `grpc_lifecycle.dfy` | `GRPCRuntime`: racing Start, Stop and GracefulStop |
| `runner.dfy` | `Runner` composed with `HTTPRuntime` |
| `runner_laws.dfy` | startup order, rollback, marking, and the result of a run |
| `metrics.dfy` | the counters and histograms of `HTTPMetrics` and `GRPCMetrics` |
| `exposition.dfy`, `decimal.dfy` | label text and decimal text, and parsers for them |
| `rendering.dfy` | sorted keys and rendered counter families, and a parser for them |
| `interceptors.dfy` | the interceptor chains and the preset around them |
| `wrappers.dfy` | the option type |

Limiters, collectors, the HTTP runtime and the runner are classes that work in place; each method is
proved to do what a function on values says, and the properties are proved of runs of that function. They are stated of what a caller can see (the
table's keys, logs of hooks and events, the lists of requests) wherever that differs from how a
function decides.
The health checks, readiness and the gRPC lifecycle are transition systems in which every access to
shared state is one step, any enabled step of any thread may come next, and an invariant is kept by
every step. Time is an input: every clock reading is a parameter, in real seconds, and tokens are
reals. Whether a hook, a check, a server or Redis fails is chosen by the environment, each time.

Six promises one might expect do not hold of the code. For each there is an input that shows it,
and the exact condition under which it holds:

- Evicting an idle bucket can be noticed. It cannot in any sequential run whose calls read the clock
  for the table and for the bucket at most `lag` apart, if and only if
  time to live × rate ≥ max(burst + min(1, rate × lag), rate × lag + 1), which the code does not
  enforce (`EvictionIsInvisibleExactlyWhen`). With one reading a call that is
  time to live × rate ≥ burst (`EvictionWithoutLag`).
- Redis and its fallback can together admit more than the sum of their bounds. They cannot, in any
  interleaving of concurrent requests, if and only if the time to live in whole seconds × rate ≥ burst,
  for rates and bursts that are not negative (`InterleavingIsBoundedExactlyWhen`).
- A window of T seconds in Redis can admit more than burst + rate × T, because callers send whole
  seconds: two requests in a quarter second at one a second with a burst of one
  (`TwoInAQuarterSecond`). The plain bound holds on every clock if and only if the rate is zero, the
  burst below one, or the rate negative and the burst below two (`NoExtraSecondExactlyWhen`);
  burst + rate × T + |rate| always does (`WholeSecondsAreBounded`).
- Histogram counts can be wrong. They are exact for all histories if and only if the configured
  buckets ascend, which the code does not check (`ExactIffAscending`). For any buckets they count up
  to the largest bound so far.
- Two probes of one health call can be told different things. `ProbesMayDifferExactlyWhen` says, for
  every reachable state and every probe that has joined a call some probe was told about, when it
  may still be told something else: if it is yet to read the call's context, if and only if the other
  was not told of a timeout and the worker has not cancelled the context; if it has read it, if and
  only if the other was told of a timeout and the check did not return one; if it found the deadline
  passed before the check was done, never.
- A health check can be reported healthy although its function did not return nil. A probe that has
  joined such a call may be told so if and only if the function ended by `runtime.Goexit` and the
  probe either has read the call's context already or is yet to and the deadline has not passed
  (`ExitReadsAsHealthyExactlyWhen`).

## Model

| member | source | states |
|---|---|---|
| TokenBucket.RateLimiter.constructor | go/middleware/ratelimit.go:41-48 | a new limiter is full, has the given limits, and represents the history in which nothing has been admitted |
| TokenBucket.RateLimiter.Allow | go/middleware/ratelimit.go:50-68 | the in-place refill and decision are the bucket step; for every call history the limiter represents, it admits exactly when one more admission fits all windows of that history, and afterwards represents the extended one |
| TokenBucket.LevelIsLeastSlack | go/middleware/ratelimit.go:54-60 | the refilled token count is the minimum, over all past window starts and the empty window, of what the window still has room for |
| TokenBucket.AdmitsIffFits | go/middleware/ratelimit.go:63-67 | a call is admitted if and only if one more admission keeps every window ending now within burst + rate × length |
| TokenBucket.StepRepresents | go/middleware/ratelimit.go:54-67 | the tie between token count and history is kept by every call, with any clock reading, rate and burst |
| TokenBucket.RunIsExact | go/middleware/ratelimit.go:50-68 | over whole runs: call n is admitted if and only if it fits every window of the history before it |
| TokenBucket.RunIsCompliant | go/middleware/ratelimit.go:50-68 | every window of every run that ends with an admission is within burst + rate × length, even if the clock runs backwards |
| TokenBucket.RunIsOptimal | go/middleware/ratelimit.go:50-68 | no other policy that meets all window bounds at the same instants has admitted more calls after any prefix of the run |
| TokenBucket.DenialIsOvertaking | go/middleware/ratelimit.go:63-67 | where the bucket denies a call a compliant policy admits, the bucket has admitted strictly more since some earlier instant |
| TokenBucket.EveryWindowBounded | go/middleware/ratelimit.go:50-68 | on a clock that does not run backwards the bound also holds of windows that end with a denied call |
| TokenBucket.CreationWindowIsImplied | go/middleware/ratelimit.go:41-68 | counting windows from the limiter's creation demands nothing the windows between calls do not |
| PartitionedLimiter.Normalize | go/middleware/ratelimit_partitioned.go:122-148 | any configuration becomes one with positive limits and a cleanup interval of at most the time to live; each legal setting is kept, each other one gets its default |
| PartitionedLimiter.PartitionedRateLimiter.constructor | go/middleware/ratelimit_partitioned.go:54-67 | a new table is empty, with a full overflow bucket and the first cleanup one interval away |
| PartitionedLimiter.PartitionedRateLimiter.Evict | go/middleware/ratelimit_partitioned.go:107-111 | the deletion loop removes exactly the entries that have been idle for the time to live, in any map order |
| PartitionedLimiter.PartitionedRateLimiter.CleanupStaleLocked | go/middleware/ratelimit_partitioned.go:103-113 | nothing happens before the next cleanup is due; then the stale entries go and the next one is scheduled |
| PartitionedLimiter.PartitionedRateLimiter.PartitionForKey | go/middleware/ratelimit_partitioned.go:82-101 | cleanup, then the key's own entry, or a fresh one while there is room, or the overflow entry; no other entry changes and no two keys share a bucket object |
| PartitionedLimiter.PartitionedRateLimiter.AllowEntry | go/middleware/ratelimit_partitioned.go:79 | the bucket step changes the bucket of the entry looked up and nothing else |
| PartitionedLimiter.PartitionedRateLimiter.AllowKey | go/middleware/ratelimit_partitioned.go:72-80 | decision and whole new table are those of the table step on values, with separate readings for table, new bucket and refill |
| PartitionedLimiter.LookupKeepsBound | go/middleware/ratelimit_partitioned.go:82-101 | one locked lookup with any reading keeps the table within maxPartitions |
| PartitionedLimiter.AlwaysBounded | go/middleware/ratelimit_partitioned.go:82-113 | so does every run of calls, with readings in any order |
| PartitionedLimiter.AnyInterleavingIsBounded | go/middleware/ratelimit_partitioned.go:72-101 | and so does every interleaving of the locked steps of concurrent calls, with bucket steps on entries evicted meanwhile |
| PartitionedLimiter.RecentEntriesSurvive | go/middleware/ratelimit_partitioned.go:69-71 | no entry that is not idle for the time to live leaves the table, and another key's call does not change it |
| PartitionedLimiter.RunIsFresher | go/middleware/ratelimit_partitioned.go:82-113 | in sequential runs every entry was seen less than a time to live before the last cleanup, and the next cleanup is still to come |
| PartitionedLimiter.NoEntryOutstaysItsWelcome | go/middleware/ratelimit_partitioned.go:82-113 | after any call each surviving entry was seen within time to live + cleanup interval ≤ twice the time to live |
| TableLaws.OverflowOnlyWhenFull | go/middleware/ratelimit_partitioned.go:72-101 | a request, an empty key counting as "global", is without a bucket of its own after its call only if the table holds maxPartitions keys |
| TableLaws.RoomForEveryone | go/middleware/ratelimit_partitioned.go:93-97 | in any run over at most maxPartitions different keys every call leaves its key in the table and the overflow entry as it was |
| TableLaws.OnlyOwnBucketChanges | go/middleware/ratelimit_partitioned.go:88-100 | a call changes no other key's entry, and the overflow entry only if its own key is not in the table |
| TableLaws.OverflowIsOneLimiter | go/middleware/ratelimit_partitioned.go:99-100 | the calls left without a bucket of their own are decided by one limiter as old as the table, which sees exactly those calls |
| TableLaws.EvictionsAreSpaced | go/middleware/ratelimit_partitioned.go:103-113 | calls that evict are at least a cleanup interval apart, whatever comes between |
| TableLaws.FirstEvictionWaits | go/middleware/ratelimit_partitioned.go:54-67 | and the first comes no sooner than that after the table was made |
| Eviction.IdleBucketIsFull | go/middleware/ratelimit_partitioned.go:107-111 | an entry old enough to be evicted has refilled to its burst, if an idle time to live refills enough for the lag between its last two readings |
| Eviction.OwnCallMirrors | go/middleware/ratelimit_partitioned.go:72-101 | a call that does not overflow decides as the never-evicted bucket would, and keeps the two in step |
| Eviction.OtherCallMirrors | go/middleware/ratelimit_partitioned.go:72-113 | calls of other keys, evictions included, keep a key's bucket in step with the never-evicted one |
| Eviction.EvictionIsInvisible | go/middleware/ratelimit_partitioned.go:72-113 | if it does, every decision for a key that never overflows is that of one never-evicted bucket fed with that key's calls only, whatever other keys do, in every sequential run with readings at most that lag apart |
| Eviction.ShortOfBurstTells | go/middleware/ratelimit_partitioned.go:103-113 | a time to live that does not refill a burst: a run of two bursts ends in a call that only the evicting table admits |
| Eviction.ShortOfLagTells | go/middleware/ratelimit_partitioned.go:77-79 | a time to live that does not refill one token more than the lag: one call with that lag tells |
| Eviction.ShortOfBothTells | go/middleware/ratelimit_partitioned.go:77-79 | a time to live that refills a burst but not what the lag refills, up to one token, besides: spending the next token at the end of a lag tells |
| Eviction.EvictionIsInvisibleExactlyWhen | go/middleware/ratelimit_partitioned.go:72-113 | for every normal configuration and every lag: eviction is invisible in all sequential runs with readings at most the lag apart if and only if time to live × rate ≥ max(burst + min(1, rate × lag), rate × lag + 1) |
| Eviction.EvictionWithoutLag | go/middleware/ratelimit_partitioned.go:72-113 | in runs with one clock reading a call, eviction is invisible if and only if time to live × rate ≥ burst |
| FloodBound.CallBalance | go/middleware/ratelimit_partitioned.go:72-101 | one call's admission is paid for by what all buckets together could still admit; only a fresh bucket adds to that, by at most one allowance |
| FloodBound.WindowAccount | go/middleware/ratelimit_partitioned.go:72-113 | over a window: admissions plus what can still be admitted is at most what could be at the start plus one allowance for each bucket created |
| FloodBound.FloodIsBounded | go/middleware/ratelimit_partitioned.go:72-113 | any window shorter than the time to live, from any moment of any sequential run, creates at most maxPartitions buckets and admits over all keys at most (2·maxPartitions + 1)·(burst + rate·length) |
| RedisLimiter.ScriptIsBucketStep | go/middleware/ratelimit_redis.go:26-37 | the Lua script, on a stored or a missing key, is the bucket step of the in-memory limiter |
| RedisLimiter.ScriptLogIsHistory | go/middleware/ratelimit_redis.go:19-42 | between expiries a Redis key behaves as one limiter created at its first run, for any readings |
| RedisLimiter.SkewedRunsAreBounded | go/middleware/ratelimit_redis.go:26-41 | from run i to an admitted run j at most maxTokens + rate × (now_j − now_i) are admitted, whatever the callers' clocks, even decreasing ones |
| RedisLimiter.WholeSecondsAreBounded | go/middleware/ratelimit_redis.go:136-138 | since callers send whole seconds, real time T on one clock admits at most burst + rate × T + abs(rate), for every burst and rate, negative ones included |
| RedisLimiter.TwoInAQuarterSecond | go/middleware/ratelimit_redis.go:136-138 | for instance, at rate one and burst one two requests within 0.25 seconds, against 1.25 |
| RedisLimiter.OneTooMany | go/middleware/ratelimit_redis.go:136-138 | for every positive rate and every burst of at least one, a run on such a clock that exceeds burst + rate × T: drain late in one second, come back in the second a token has accrued |
| RedisLimiter.OneTooManyOfLoss | go/middleware/ratelimit_redis.go:136-138 | for every negative rate and every burst of at least two, a run on such a clock that exceeds it: run once, and come back late in the second in which the fraction of a token is lost |
| RedisLimiter.NoExtraSecondExactlyWhen | go/middleware/ratelimit_redis.go:136-138 | for every burst and rate: on all clocks that do not run backwards, burst + rate × T is the bound from any run to any admitted run if and only if the rate is zero, the burst below one, or the rate negative and the burst below two |
| RedisLimiter.OpenIffThresholdReached | go/middleware/ratelimit_redis.go:171-201 | after any sequence of recorded outcomes the circuit is open if and only if the last `threshold` of them are failures, and the counter is the length of the trailing run of failures |
| RedisLimiter.AttemptsAreSpaced | go/middleware/ratelimit_redis.go:154-187 | after the first `threshold` attempts of an outage each further one is more than a reset timeout after the last |
| RedisLimiter.OutageIsBounded | go/middleware/ratelimit_redis.go:128-147 | in a sequential outage of duration T at most threshold + ⌊T / resetTimeout⌋ requests reach Redis |
| RedisLimiter.TriedExactlyWhen | go/middleware/ratelimit_redis.go:154-187 | a call in an outage reaches Redis, and its failure is counted and stamped, exactly if there were fewer than `threshold` failures in a row or the last is more than a reset timeout ago |
| RedisLimiter.SpacedCallsAreTried | go/middleware/ratelimit_redis.go:160-165 | in an outage whose calls come more than a reset timeout after the previous failure, every call reaches Redis |
| RedisFallback.Normalized | go/middleware/ratelimit_redis.go:239-257 | legal thresholds and timeouts are kept, others become 3, 30 seconds and an hour, and the time to live is rounded up to whole seconds, at least one |
| RedisFallback.RedisServer.Run | go/middleware/ratelimit_redis.go:19-42 | a script run on a shared server changes that key only, and restarts its expiry |
| RedisFallback.RedisRateLimiter.constructor | go/middleware/ratelimit_redis.go:99-112 | the fallback gets the normalised limits and the time to live in whole seconds; the circuit starts closed |
| RedisFallback.RedisRateLimiter.IsCircuitOpen | go/middleware/ratelimit_redis.go:154-168 | the method decides as the model's breaker, whose effect on requests is pinned by AnsweredExactlyWhenDue |
| RedisFallback.RedisRateLimiter.RecordFailure | go/middleware/ratelimit_redis.go:171-187 | the in-place update is the breaker step for a failure |
| RedisFallback.RedisRateLimiter.RecordSuccess | go/middleware/ratelimit_redis.go:190-201 | the in-place update is the breaker step for a success, which keeps the time of the last failure |
| RedisFallback.RedisRateLimiter.AllowKey | go/middleware/ratelimit_redis.go:123-151 | answer and new state of breaker, Redis and fallback are those of the request step, for an answer, an error before the script ran and an error after it ran |
| RedisFallback.ServedIsConsistent | go/middleware/ratelimit_redis.go:171-201 | in any run the circuit is flagged open exactly from `threshold` failures in a row on |
| RedisFallback.AnsweredExactlyWhenDue | go/middleware/ratelimit_redis.go:128-151 | a request Redis would answer gets the script's answer and closes the circuit exactly if there were fewer than `threshold` failures in a row or the reset timeout since the last is over; otherwise the fallback answers and Redis and breaker stay as they were |
| RedisFallback.LostIsFallback | go/middleware/ratelimit_redis.go:139-147 | a request that Redis loses is answered by the fallback; if Redis was due the failure is counted, and the circuit opens at the threshold |
| RedisFallback.ConfiguredConstants | go/middleware/ratelimit_redis.go:239-257 | a limiter configured in whole seconds has that threshold, reset timeout and time to live, the raw limits in Redis and the legal ones in the fallback |
| RedisFallback.ExpiredIsFull | go/middleware/ratelimit_redis.go:39-40 | a key that Redis has expired had refilled to its burst, if the time to live refills a burst |
| RedisFallback.RequestRoom | go/middleware/ratelimit_redis.go:123-151 | one request of any kind lowers what a key can still get from Redis and fallback together by at least what it is granted |
| RedisFallback.CompositeIsBounded | go/middleware/ratelimit_redis.go:123-151 | for any pattern of successes and errors of requests one at a time, and any other processes and keys, one process admits for a key with a fallback bucket of its own at most the Redis bound plus the fallback's bound |
| RedisFallback.RequestIsItsActions | go/middleware/ratelimit_redis.go:123-151 | a request that nothing interrupts is the sequence of those steps: they leave its state and admit what it grants |
| RedisFallback.InterleavingIsBounded | go/middleware/ratelimit_redis.go:123-151 | the same bound for any interleaving of the script runs, breaker updates and fallback calls of any number of concurrent requests, whatever the breaker told each of them |
| RedisFallback.ConfiguredRefillsWhenIdle | go/middleware/ratelimit_redis.go:239-257 | that theorem's hypothesis follows from the configuration when whole seconds to live × rate ≥ burst |
| CompositeExact.ShortOfBurstExceeds | go/middleware/ratelimit_redis.go:123-151 | below that, a run exceeds it: a burst from Redis each time the key has expired, and all the while from the fallback what its own bound allows |
| CompositeExact.InterleavingIsBoundedExactlyWhen | go/middleware/ratelimit_redis.go:123-151 | for every configuration with a rate and burst that are not negative: the composite bound holds of every interleaving if and only if whole seconds to live × rate ≥ burst |
| HealthChecks.StepKeepsInvariant | go/server/health.go:54-94 | every step of any probe, worker, cancellation or deadline keeps the protocol's invariant |
| HealthChecks.RunKeepsInvariant | go/server/health.go:54-94 | so every reachable state satisfies it, for any number of probes |
| HealthChecks.AtMostOneRun | go/server/health.go:54-69 | at most one run of the check function is active, and that run is always the current call |
| HealthChecks.FinishClearsItsOwnCall | go/server/health.go:88-94 | `finish` always finds its own call current, and clears it |
| HealthChecks.JoinIsFresh | go/server/health.go:54-69 | a probe that arrives joins a call that has not finished; it starts one exactly if none is unfinished |
| HealthChecks.GoneWorkerReleases | go/server/health.go:80 | once the worker is gone the call's context is released, so its deadline cannot fire any more |
| HealthChecks.VerdictsAreJustified | go/server/health.go:71-83 | a probe is told healthy only if the function returned nil or ended by `runtime.Goexit`, an error only if the function returned that very error or panicked, a timeout only if the deadline passed or the function returned one, its own context's error only if it was cancelled, and the bare context error never |
| HealthChecks.ToldExactlyWhen | go/server/health.go:350-398 | in every reachable state, for every probe that has joined a call and every verdict: some continuation tells it that exactly if it is possible by how the check ended, if it has, whether the deadline has passed, where the probe is, and whether it was cancelled |
| HealthChecks.NoHealthAfterTimeout | go/server/health.go:384-398 | once a probe of a call has been told it timed out, a probe that reads the call's context later is told nothing else about the call |
| HealthChecks.SameVerdictBeforeDeadline | go/server/health.go:384-398 | unless the deadline has fired, any two probes told about a call were told the same |
| HealthChecks.ProbesMayDifferExactlyWhen | go/server/health.go:363-398 | in any reachable state and for every probe that has joined a call some probe was told about: exactly when some continuation tells it something else, by whether it is yet to read the call's context, has read it, or found the deadline passed before the check was done |
| HealthChecks.ProbesMayDisagree | go/server/health.go:388-390 | for instance, a run that tells one probe healthy and the next, of the same call, that it timed out |
| HealthChecks.ExitReadsAsHealthyExactlyWhen | go/server/health.go:71-83 | so a check that ended without returning nil may be reported healthy if and only if it ended by `runtime.Goexit` and the probe has read the call's context already, or is yet to and the deadline has not passed |
| HealthChecks.ExitReadsAsHealthy | go/server/health.go:71-83 | for instance, a run in which the check ends by `runtime.Goexit` and a probe is told healthy |
| HealthChecks.CancellationIsPrivate | go/server/health.go:363-376 | removing a probe's cancellation and reads from any run leaves a feasible run with the same calls and the same state of every other probe |
| Readiness.StepKeepsInvariant | go/server/health.go:147-154 | every load and store of the two flags, by any caller, keeps the readiness invariant |
| Readiness.ReadyIsFailClosed | go/server/health.go:272-291 | in every interleaving an evaluation that reports ready began before any BeginShutdown returned, one called by a rollback included, even if MarkStarted comes later, after some Startup ran all its hooks without error, and had all its own checks pass |
| Readiness.UnreadyHasCause | go/server/health.go:272-291 | an evaluation that began after the runtime was marked started and reports not ready had a check fail, or somebody has asked for a shutdown or failed to start up |
| Readiness.StartupEndsByItsHooks | go/server/runtime.go:214-228 | a Startup ends as started exactly if all its hooks ran and none failed, and otherwise stops at the first that fails and marks shutdown |
| Readiness.RunChecks | go/server/health.go:327-348 | every check is reported once, in order, with its error's text, and the phase is healthy if and only if all checks are, with the status to match |
| GrpcLifecycle.StepKeepsInvariant | go/server/grpc_runtime.go:126-264 | every action of any Start, Stop or GracefulStop caller keeps the lifecycle invariant |
| GrpcLifecycle.RunKeepsInvariant | go/server/grpc_runtime.go:126-264 | so every reachable state satisfies it, for any number of callers |
| GrpcLifecycle.HooksRunOnceInOrder | go/server/grpc_runtime.go:182-218 | startup hooks begin at most once each and in order, so do shutdown hooks, and no startup hook begins or ends after a shutdown hook has begun |
| GrpcLifecycle.ShutdownIsComplete | go/server/grpc_runtime.go:206-218 | when a call that shuts down returns, every shutdown hook has run, and it returns the error of the first that failed, whoever ran them |
| GrpcLifecycle.FirstErrorIsFirst | go/server/grpc_runtime.go:212-214 | the error kept is that of a shutdown hook before which none has failed, if any has |
| GrpcLifecycle.NeverServingAgain | go/server/grpc_runtime.go:253-264 | once any failHealth has returned, neither health status is ever SERVING again and no startup hook begins any more |
| GrpcLifecycle.FailedHookStopsStartup | go/server/grpc_runtime.go:194-200 | after a startup hook has failed no startup hook begins, neither status is SERVING, and the Start call that ran it is rolling back or has returned with every shutdown hook run |
| GrpcLifecycle.ServingMeansStarted | go/server/grpc_runtime.go:190-203 | a status is SERVING only after every startup hook has begun, in order, and none has failed |
| GrpcLifecycle.ServerIsServing | go/server/grpc_runtime.go:202 | a call that serves has set both statuses to SERVING, and they still are unless the runtime has failed since |
| GrpcLifecycle.StoppersStop | go/server/grpc_runtime.go:150-180 | Stop has stopped the server, and GracefulStop has stopped or drained it, before they run shutdown hooks and before they return |
| GrpcLifecycle.FailedDrainForces | go/server/grpc_runtime.go:173-179 | a GracefulStop whose deadline passes while the server drains stops it before it runs the shutdown hooks |
| GrpcLifecycle.RefusedForCause | go/server/grpc_runtime.go:220-241 | a Start call is refused only if another came first or the runtime is shutting down, unless it cannot listen; even then the one attempt is used up |
| GrpcLifecycle.UndisturbedStartServes | go/server/grpc_runtime.go:126-139 | a Start call on its own that meets no error is starting up, serving or has served, whatever the number of hooks |
| GrpcLifecycle.FailedServeShutsDown | go/server/grpc_runtime.go:137-147 | when serving fails, the Start call ends only with the status failed, every shutdown hook run, and the error of the first that failed |
| GrpcLifecycle.RollbackNeverWaits | go/server/grpc_runtime.go:190-200 | a startup rollback, which holds lifecycleMu, never waits for the once guard: it always runs the shutdown hooks itself |
| GrpcLifecycle.SomeThreadCanMove | go/server/grpc_runtime.go:126-218 | no deadlock over the mutexes and the once guard: while some call has not returned, some thread can take a step |
| RunnerLifecycle.HTTPRuntime.Shutdown | go/server/runtime.go:237-250 | marks shutdown, runs all hooks the first time only, keeps the first error and returns it every time |
| RunnerLifecycle.HTTPRuntime.Startup | go/server/runtime.go:214-228 | hooks until one fails, then rollback with the errors joined; otherwise the runtime is marked started |
| RunnerLifecycle.Runner.RunOne | go/server/runtime.go:214-250 | a hook of the runner is nil, a product's own, or one of the runtime's three methods |
| RunnerLifecycle.Runner.Attempt | go/server/runner.go:122-132 | a shutdown list is attempted to its end, and the first error is kept |
| RunnerLifecycle.Runner.Shutdown | go/server/runner.go:120-167 | pre-hooks, HTTP drain, gRPC drain with a hard stop if it fails, post-hooks; `ErrServerClosed` is no error |
| RunnerLifecycle.Runner.RunBlocking | go/server/runner.go:61-117 | startup, rollback or serving, the one shutdown, and the error returned, for every cause of stopping |
| RunnerLifecycle.EverythingIsShutDownOnce | go/server/runner.go:61-167 | on every path and whatever fails, the runner's shutdown sequence runs once, complete and in order, with the hard gRPC stop exactly where the server has no graceful one or that failed, and each HTTP runtime shutdown hook exactly once, rollback followed by shutdown included |
| RunnerLifecycle.ShutTells | go/server/runner.go:120-167 | a shutdown before which nothing failed to shut down returns exactly the first failure |
| RunnerLaws.FirstFailureIsFirst | go/server/runner.go:126-131 | the failure reported is one before which nothing has failed to shut down, if anything has |
| RunnerLifecycle.FirstShutdownErrorSurvives | go/server/runner.go:169-181 | on every path the first shutdown failure is the returned error or joined into it, so nil means a clean shutdown |
| RunnerLifecycle.ReadinessFailsBeforeDrain | go/server/runtime.go:230-234 | with BeginShutdown wired as a pre-shutdown hook, shutdown is marked before the HTTP server drains, on every path |
| RunnerLaws.StartupInOrder | go/server/runner.go:66-93 | every run runs its startup hooks in the configured order up to the first that fails; it serves exactly if none does, and returns the failed hook's error or one that contains it |
| RunnerLaws.StartFailureIsFirst | go/server/runner.go:70 | the startup failure meant is the first |
| RunnerLaws.RollbackIsComplete | go/server/runtime.go:219-224 | a failed HTTP startup has run every shutdown hook when it returns, and its error tells of the failed hook and of the first shutdown failure |
| RunnerLaws.MarkedBeforeHooks | go/server/runtime.go:237-238 | on every path shutdown is marked before any shutdown hook of the HTTP runtime runs, a rollback's included |
| RunnerLaws.NilExactlyWhen | go/server/runner.go:99-117 | a run whose startup did not fail returns nil exactly if it was stopped by cancellation, a signal or a closed server and nothing failed to shut down; any other reason to stop is returned or joined into what is |
| Metrics.FirstFit | go/telemetry/metrics.go:165-171 | the bucket chosen is the first whose bound is not below the duration, or the overflow |
| Metrics.BucketOf | go/telemetry/metrics.go:165-171 | the search loop finds that bucket |
| Metrics.Collector.constructor | go/telemetry/metrics.go:62-97 | a new collector has its bounds, or the default ones if there are none, and no counts |
| Metrics.Collector.Record | go/telemetry/metrics.go:147-175 | the in-place update of the three maps is the recording step, and every histogram keeps one bucket a bound and the overflow |
| Metrics.RecordedTallies | go/telemetry/metrics.go:147-175 | after any observations, requests, errors, every bucket, count and sum are the tallies of the plain list of observations |
| Metrics.RunningCounts | go/telemetry/metrics.go:228-249 | the rendering loop yields the prefix sums of the buckets, the overflow last |
| Metrics.Collector.BucketCounts | go/telemetry/grpc_metrics.go:153-177 | and does so for the stored histogram of a group |
| Metrics.CountsUpToRunningMax | go/telemetry/metrics.go:228-249 | for any bounds, sorted or not, the rendered count at each `le` is the number of observations up to the largest bound so far |
| Metrics.ExactIffAscending | go/telemetry/metrics.go:165-171 | every rendered count is the number of observations ≤ its bound, for all histories, if and only if the bounds ascend |
| Metrics.DefaultIsExact | go/telemetry/metrics.go:17 | so the default histogram is exact |
| Metrics.CumulativeGrows | go/telemetry/metrics.go:228-249 | rendered counts never decrease from one `le` to the next |
| Metrics.SeriesAgree | go/telemetry/metrics.go:241-269 | for each group `+Inf` = `_count` = the requests of all its classes = the number of observations, and `_sum` is the sum of their seconds |
| Metrics.ErrorsWithinRequests | go/telemetry/grpc_metrics.go:84-87 | each key's counters are its tallies, and errors ≤ requests |
| Metrics.HttpErrorsAreWholeClasses | go/telemetry/metrics.go:148-158 | HTTP errors are all the requests of the classes 4xx and above, and none of the others, for every status code |
| Metrics.RpcErrorsAreWholeCodes | go/telemetry/grpc_metrics.go:84-87 | RPC errors are all the requests of every code but OK, and none of OK |
| Metrics.RequestsAreCounted | go/telemetry/metrics.go:147-158 | each request is counted once, for its method, its path and the hundreds of its status, and as an error exactly from 400 on |
| Metrics.DurationsAreCounted | go/telemetry/metrics.go:150-175 | with ascending bounds each rendered `le` counts the requests of the method and path that took at most so long |
| Metrics.RpcsAreCounted | go/telemetry/grpc_metrics.go:78-87 | each RPC is counted once, for its method, type and code, and as an error unless the code is OK |
| Exposition.LabelText | go/telemetry/metrics.go:314-323 | the loop over the arguments prints the service and each key and value in turn, and drops an odd last argument |
| Exposition.OneLabel | go/telemetry/metrics.go:314-323 | the text of one label, with the service in front if there is one |
| Exposition.ValueRoundTrip | go/telemetry/metrics.go:360-363 | a parser of escaped label values recovers any value, and where it ends |
| Exposition.LabelsRoundTrip | go/telemetry/metrics.go:314-323 | parsing what is printed recovers exactly the pairs and whatever follows, for any service name and label values |
| Exposition.LabelsAreInjective | go/telemetry/grpc_metrics.go:206-215 | two label texts are equal if and only if their pairs are |
| Exposition.LabelsHaveNoNewline | go/telemetry/metrics.go:314-323 | the text has no raw newline, whatever the values |
| Exposition.LabelNamesAreGood | go/telemetry/metrics.go:199-244 | the label names the renderers pass meet the hypothesis of these theorems |
| Decimal.DigitsDenote | go/telemetry/metrics.go:206 | the digits printed for a count denote it |
| Decimal.ItoaIsInjective | go/telemetry/metrics.go:148 | different integers have different decimal text |
| Rendering.SeriesAreDistinct | go/telemetry/metrics.go:198-208 | two keys of a family have the same label text, or with equal counts the same line, if and only if they are equal |
| Rendering.KeyLessIsTransitive | go/telemetry/metrics.go:330-338 | the comparators are transitive, for keys of any number of fields |
| Rendering.KeyLessIsTotal | go/telemetry/metrics.go:330-338 | and total |
| Rendering.KeyLessIsIrreflexive | go/telemetry/grpc_metrics.go:222-230 | and strict |
| Rendering.LessIsLexicographic | go/telemetry/metrics.go:331-337 | strings compare by their first difference, or by length if there is none |
| Rendering.FirstFieldDecides | go/telemetry/metrics.go:330-338 | and are decided by the first field that differs |
| Rendering.EnumerationIsUnique | go/telemetry/metrics.go:325-354 | there is one increasing enumeration of a map's keys |
| Rendering.SortedKeys | go/telemetry/metrics.go:325-354 | the sorted-key functions return it: each key once, in order, whatever the map's iteration order |
| Rendering.RenderFamily | go/telemetry/metrics.go:196-208 | the text of a counter family, HELP and TYPE lines included, is a function of the map alone |
| Rendering.FamilyRoundTrip | go/telemetry/metrics.go:196-208 | parsing a rendered family gives back its help, its type and exactly its map of counters, for any service name, label values and counts |
| Interceptors.ChainInterceptors | go/middleware/grpc.go:29-62 | the backward loop builds the nested chain, first interceptor outermost |
| Interceptors.ChainIsComposition | go/middleware/grpc.go:29-44 | Chain(a ++ b) is Chain(a) around Chain(b) |
| Interceptors.NilsAreSkipped | go/middleware/grpc.go:33-35 | a chain with nil entries is the chain without them |
| Interceptors.GrpcServerPreset | go/middleware/grpc_preset.go:22-58 | the appended unary and stream lists are each the five fixed layers around extra interceptors, breaker and rate limiter, the latter two only if configured |
| Interceptors.OuterLayers | go/middleware/grpc.go:86-190 | how the five layers of the preset nest around any inner handler, unary or stream |
| Interceptors.InnerOrder | go/middleware/grpc_preset.go:44-55 | inside them come the extra interceptors, then the breaker, then the rate limiter, then the handler |
| Interceptors.PresetOutcome | go/middleware/grpc.go:64-190 | the whole effect of the preset around arbitrary inner layers: they see an ID and a trace and are counted in flight; what they return is returned, a panic becomes code 13, and with metrics on that very code is observed once |
| Interceptors.PresetNeverPanics | go/middleware/grpc.go:86-119 | for arbitrary inner interceptors and handler either preset chain never panics, and returns unless they end by `runtime.Goexit` |
| Interceptors.DiscreetChain | go/middleware/grpc.go:29-44 | interceptors that touch the collector only through the handlers they call make a chain that leaves it alone |
| Interceptors.PresetObservesOnce | go/middleware/grpc.go:142-184 | the in-flight gauge returns to its prior value and exactly one observation is recorded, with the code the caller gets, 13 for a panic and 0 if nothing is returned, for returning, failing, panicking, exiting and repeating inner layers |

## Left out

- Floating point: tokens, rates, durations and instants are reals, so rounding, NaN, number formatting in Lua and `time.Duration` overflow are not modelled.
- Integer widths: counters are unbounded; `uint64` wrap-around is not modelled.
- Eviction.EvictionIsInvisible: is about sequential runs, one call at a time; under concurrency `lastSeen` may go back and an entry may be evicted between its lookup and its use.
- FloodBound.FloodIsBounded: is about sequential runs, for the same reason.
- RedisFallback.CompositeIsBounded: is about requests one at a time with one clock reading each, with Redis expiry on that same clock; the processes share the clock but not their fallbacks. That its condition is needed is shown for interleaved requests only: with one request at a time an open breaker keeps requests from Redis.
- RedisFallback.InterleavingIsBounded: its steps use readings that do not go back in the order of the steps, and a fallback call is one step.
- RedisLimiter.SkewedRunsAreBounded: holds between expiries of the key; an expiry starts a new log.
- Health checks, readiness and the gRPC lifecycle are transition systems on values, not objects: locks, channels, atomics and `sync.Once` are steps with their documented behaviour.
- `grpc.Server` and its health service: Serve, Stop and GracefulStop finish or fail as the environment chooses; the health server's own refusal to change status after Shutdown is not relied on, and calls to `Health()` from outside are not modelled.
- GrpcLifecycle.SomeThreadCanMove: hooks return and do not call the runtime back. In the code a startup hook that calls Stop or GracefulStop waits for `lifecycleMu`, which its own caller holds (go/server/grpc_runtime.go:183, 254), and a shutdown hook that calls one re-enters the once guard (go/server/grpc_runtime.go:207); either waits for ever.
- The live and startup phases of a health evaluation, which test fewer flags than the ready phase, and the summary of all three.
- GrpcLifecycle.ShutdownIsComplete: is about the outcome of the shutdown hooks; how Start and GracefulStop join it with their own error is not modelled.
- Listeners, TCP, TLS, Redis connections, `Ping`, OS signals, the context and timeout of a drain.
- HealthChecks.NoHealthAfterTimeout: excludes a probe that had already read the call's context before the timeout was reported, which is told what the check returned.
- Registering health checks while probes run, and one entry registered under several phases, which only shares one execution object between them.
- RunnerLifecycle.FirstShutdownErrorSurvives: assumes, like StartupInOrder and NilExactlyWhen, that `HTTPRuntime.Startup` is not wired as a shutdown hook; those two also that its `Shutdown` is not wired as a startup hook.
- RunnerLifecycle.Runner.RunBlocking: one run of a fresh runtime; concurrent calls of `Runner.Shutdown` are not modelled.
- Rendering.SortedKeys: `sort.Slice` is modelled as insertion in order; only its result matters here.
- The text of floats and `le` bounds, so histogram and sum lines; the in-flight gauge line and additional collectors.
- Exposition.LabelsRoundTrip: label names must be non-empty and free of `=` and newline, as all names the code passes are.
- The circuit breaker and rate-limit interceptors, which are arbitrary inner layers here; request IDs, tracing and logging beyond passing the request on.
- HTTP middleware, CORS, routing, extensions, JSON bodies, configuration, deployment templates: easy or plumbing.
