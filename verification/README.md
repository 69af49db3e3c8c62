# Arks: gateway accounting, endpoint routing and resource lifecycle

Arks serves large language models on Kubernetes. Its gateway admits requests against rate limits
and token quotas kept in Redis; its controllers route traffic to ready applications and bring up
models and applications. This project models those parts in Dafny and proves what they keep in every
run.

`dafny verify dfyconfig.toml` checks all of it.

## What is modelled

**Gateway admission and accounting.** Many streams share one Redis. Each samples the clock and reads
its counters, later samples the clock again and increments its request counters, and each time its
response reports usage samples it once more and charges tokens.

- `Wrappers`, `TokenUsage`, `Sums`: optional values and results, reported usage, sums over maps.
- `Redis`, `RedisConnection`: values with expiries, the commands used, a connection.
- `Windows`, `Keys`: window arithmetic in int64 nanoseconds from year 1, and the key strings with a
  decoder that inverts them.
- `RateLimiter`, `Quotas`, `Gateway`: the limiter, the quota service and the request handler as
  classes whose methods change the store.
- `Admission`, `AdmissionRuns`: the same protocol as a step machine in which the calls of any number
  of streams interleave, the clock moves between any two calls and expired keys vanish.
- `Accounting`, `GatewaySteps`: the gateway's own rules satisfy what the step machine asks of a
  policy, its key strings represent the machine's keys, and its undisturbed checks and charges are
  paths of the machine.
- `DayMinutes`: minute windows add up to day windows in every run.
- `Response`, `Stream`: response chunks of many requests, usage extraction, and the per-stream loop.
- `QuotaSync`: the ten-second loop that copies counters into ArksQuota status, in several replicas.

**Endpoint routes.** `HttpRoute` has the rule of an HTTPRoute: what its schema takes and fills in, and
which requests it accepts. `Endpoint` has the event filter, the backend list and the reconciler, with
the API server, the informer's copies of endpoint and HTTPRoute and the event queue moving
independently. `EndpointRuns` says what holds at rest and what that owes to the schema,
`EndpointTraffic` which requests the route then takes, `EndpointSettling` that the controller comes to
rest.

**Models and applications.** `Objects` has condition and finalizer lists. `ModelController` and
`Application` are the two controllers, one API call a step; every call may work, be refused, or take
effect with its answer lost, and a reconcile starts from an informer's copy that may be old.
`ModelRuns`, `ApplicationRuns`, `ApplicationConvergence` and `Lifecycle` hold the theorems over runs,
`ModelProgress` and `ApplicationProgress` what a reconcile achieves that nothing disturbs.
`ModelReconciler` and `ApplicationReconciler` hold the reconcile methods as programs that change a
cluster, proved to make exactly the calls of the step machines.

## Where the code departs from what it seems to intend

The model follows the code; for each there is an exact condition, and an input or run that shows it.

- Check and increment are separate, so a request limit is respected in every run if and only if at
  most one request of a user and model is between the two (`LimitRespectedIff`, `BoundAttained`).
- The HTTPRoute is patched with the difference to the informer's copy, which may be old, and nothing
  watches it. At rest the status is always right. The route is right in every run if and only if the
  schema stores no rule that the controller can ask for, or stores all of them alike
  (`AlwaysFreshIff`). The shipped schema (`dist/dependency.yaml`, lines 28205, 28307 and 28357) gives
  every header match its type, which the controller's own headers lack, so every patch carries the
  whole rule and the route is always right (`RouteIsFresh`).
  With a schema without defaults it could stay wrong (`RouteStaysWrong`).
- The two headers that pick the endpoint come after those of the user, and of headers with the same
  name only the first counts. At rest the route takes exactly the requests for the endpoint's
  namespace and name that meet one of the user's matches, if and only if the user's list of matches is
  not empty and no match that can be met names one of the two headers and admits another value of it
  (`RouteTakesIntendedIff`, `OtherSpellingEscapes`). An empty list comes from an edit only
  (`UneditedHasMatches`).
- The API server takes at most 16 backends, 16 headers to a match, and no header name twice. The
  controller comes to rest if the rule it asks for is accepted (`Settles`, `EveryScheduleSettles`), and
  never with another one, which it goes on trying to write (`RefusedNeverSettles`).
- The sync loop's write-back stores 0 and not the recorded usage, so a pass restores counters after a
  Redis loss if and only if no recorded usage was ahead (`RestoresIff`), and a loss does not heal
  (`LossDoesNotHeal`).
- A stream is charged exactly once under every grouping of its events if and only if its last event
  without choices is the only one that carries usage (`ChargedExactlyOnceIff`, `GroupingMatters`).
- A processing-time entry is removed if and only if the response completes for the first time with
  its last message (`EntryRemovedIff`, `EarlyUsageKeepsEntry`).
- A stream panics if and only if it has no request body and its response has status 500 or a body
  (`PanicsIff`, `BodilessStreamPanics`).
- The name of the claim is known only to a pass that began before the storage was recorded. A pass
  makes a worker pod if and only if it is one of those and the call is not refused (`MakesPodIff`),
  since a pod that names no claim is not accepted. So every worker pod mounts its model's claim
  (`PodMountsOwnClaim`), but a Huggingface model whose pod is refused once is never ready after its
  status is saved and delivered (`RefusedPodIsStuck`, `StuckForEver`, `NewModelGetsStuck`).
- A ready model is marked loaded if and only if its source is not set but empty (`ReadyMeans`,
  `UndownloadedGetsReady`).
- A Service lost while the application is ready and its LeaderWorkerSet present never comes back; in
  every other case three reconciles recover (`RecoversIff`, `ServiceLostForGood`).
- The comment at the write-back (`pkg/gateway/qosconfig/arks_impl.go:264-265`) says usage is set in
  the quota service when outdated; the request it passes holds 0.

## Assumptions

- One non-decreasing clock for gateways and Redis. Each command is atomic, a pipeline is not.
- No Redis read fails on its own; a missing key reads as 0. A method of the sequential model finds
  the server reachable or not for its whole call.
- An EXPIRE lasts at least the rule's period; what is added on top is a parameter.
- In `Admission`, usage is not negative, limits do not change during a run, and the rules and quota
  types a request charges are those it was checked against, although the code reads the quota again
  before it charges.
- Applications are listed in a fixed order and keep their served name; an endpoint keeps its gateway.
  Nobody but the controller writes the HTTPRoute, and the API server stores of a rule what its schema
  makes of that rule alone. It refuses none for another reason than the number of
  backends, headers and matches and repeated header names. An implementation of the route judges a
  request as the Gateway API says.
- An application's runtime and volumes, and a model's storage and source, do not change after
  creation.
- Reconciles of one object do not overlap, an informer sees every version in order, and deleting a
  pod, Service or LeaderWorkerSet takes effect with the call.

## Model

| member | source | states |
|---|---|---|
| `AdmissionRuns.RequestsBounded` | pkg/gateway/ratelimiter/redis_impl.go:47-168 | In every interleaving a window is charged at most L-1+K requests when at most K are between check and increment, also across a window change; a limit of 0 or less admits nothing |
| `AdmissionRuns.BoundAttained` | pkg/gateway/ratelimiter/redis_impl.go:47-168 | For every limit and every K there is a run that charges exactly L-1+K |
| `AdmissionRuns.LimitRespectedIff` | pkg/gateway/ratelimiter/redis_impl.go:47-168 | The request limit holds in all runs if and only if K is at most 1 |
| `AdmissionRuns.TokensBounded` | pkg/gateway/check.go:47-156 | A token window or quota exceeds its limit by at most M tokens for each of K outstanding requests, in every run, when a request charges at most M in all, in however many parts |
| `AdmissionRuns.TokenBoundAttained` | pkg/gateway/check.go:47-156 | For every limit, M and K there is a run in which a counter of tokens reaches exactly that bound |
| `AdmissionRuns.LiveWindowExact` | pkg/gateway/ratelimiter/redis_impl.go:125-162 | No key expires while its window lasts, under any race of TTL reads and pipelines; the Redis value of a live window is what was charged to it |
| `AdmissionRuns.ReachableInv` | pkg/gateway/ratelimiter/redis_impl.go:116-168 | The admission invariant holds in every reachable state |
| `Admission.StepKeeps` | pkg/gateway/ratelimiter/redis_impl.go:116-168 | Every step of every stream keeps the admission invariant |
| `Accounting.GatewayPolicyValid` | pkg/gateway/ratelimiter/rate_limiter.go:31-68 | The gateway's rules and windows satisfy what the admission theorems need, so those hold of the gateway |
| `Accounting.KeyTextInjective` | pkg/gateway/ratelimiter/cache_key.go:42-71 | Distinct counters and windows have distinct strings, across rate and quota keys |
| `Accounting.CommandRefines` | pkg/gateway/ratelimiter/redis_impl.go:116-168 | Reads and commands on strings refine those on counter keys |
| `Accounting.LimitKeyIsText` | pkg/gateway/util.go:79-99 | The string a rate charge increments is that of its counter and window |
| `Accounting.ChargedOnce` | pkg/gateway/check.go:31-59 | When rule types do not repeat, a charge adds its count once to each rule of its type and nothing elsewhere |
| `DayMinutes.DayIsSumOfMinutes` | pkg/gateway/ratelimiter/redis_impl.go:125-142 | In every run whose requests have both rules or neither and are not dropped with a charge queued, a day window and its 1440 minute windows were charged the same, counting what is queued |
| `DayMinutes.DroppedRequestBreaksBalance` | pkg/gateway/ratelimiter/redis_impl.go:116-168 | A run, for every pair of request rules, in which a request dropped inside its pipeline leaves the minutes with a charge the day lacks |
| `DayMinutes.DayIsSumOfMinutesAtRest` | pkg/gateway/ratelimiter/redis_impl.go:125-142 | So they hold the same whenever nothing is queued for either |
| `GatewaySteps.ChecksAgree` | pkg/gateway/check.go:75-156 | The checks on strings find room if and only if every read of the step machine does |
| `GatewaySteps.CheckIsPath` | pkg/gateway/check.go:75-156 | A request that passes the checks is admitted by a path of the step machine |
| `GatewaySteps.RequestChargeIsPath` | pkg/gateway/ratelimiter/redis_impl.go:116-168 | The pipeline of an undisturbed request charge is a path of the step machine on the represented store |
| `GatewaySteps.ResponseChargeIsPath` | pkg/gateway/check.go:47-72 | So are the token and quota charges of a response |
| `Windows.SizeExactIff` | pkg/gateway/ratelimiter/cache_key.go:73-80 | The nanosecond product is exact if and only if it fits in an int64 |
| `Windows.WindowsPartition` | pkg/gateway/ratelimiter/cache_key.go:73-80 | A window holds its sample; two samples share a start exactly when the later one is inside; distinct windows do not overlap |
| `Windows.UnixAlignedIff` | pkg/gateway/ratelimiter/cache_key.go:73-80 | Windows are aligned with Unix time for every sample if and only if the size divides the offset to year 1 |
| `Windows.DayDivisorsAligned` | pkg/gateway/ratelimiter/types.go:35-47 | Every size that divides a day is aligned with Unix time |
| `Keys.GenerateRateKey` | pkg/gateway/ratelimiter/cache_key.go:42-71 | The buffer loop writes the rate key |
| `Keys.GenerateQuotaKey` | pkg/gateway/quota/cache_key.go:40-58 | The buffer loop writes the quota key |
| `Keys.RateKeyRoundTripIff` | pkg/gateway/ratelimiter/cache_key.go:42-71 | Decoding a rate key returns labels, rule and window if and only if label keys hold no `=` or `.`, values no `=`, and the rule no `.` |
| `Keys.QuotaKeyRoundTripIff` | pkg/gateway/quota/cache_key.go:40-58 | Decoding a quota key returns its labels if and only if they are safe in that sense |
| `Keys.RateKeyInjective` | pkg/gateway/ratelimiter/cache_key.go:42-71 | Distinct safe labels, rules and windows have distinct keys |
| `Keys.QuotaKeyInjective` | pkg/gateway/quota/cache_key.go:40-58 | Distinct safe labels have distinct quota keys |
| `Keys.KeySpacesDisjoint` | pkg/gateway/quota/cache_key.go:40-58 | A rate key never equals a quota key, whatever the prefixes |
| `Keys.RateLabelsSafe` | pkg/gateway/util.go:79-99 | The gateway's rate labels are safe if and only if namespace, user and model hold no `=` |
| `Keys.QuotaLabelsSafe` | pkg/gateway/qosconfig/types.go:45-72 | The gateway's quota labels are safe if and only if namespace, name and type hold no `=` |
| `Keys.EqualsSignCollides` | pkg/gateway/ratelimiter/cache_key.go:42-71 | With `=` in values two different label lists give one identifier |
| `RateLimiter.NewLimitConfig` | pkg/gateway/ratelimiter/rate_limiter.go:31-68 | The configuration holds exactly the four rules |
| `RateLimiter.RedisRateLimiter.CheckLimit` | pkg/gateway/ratelimiter/redis_impl.go:47-114 | Fails exactly when Redis is needed and unreachable; otherwise one answer per request under one clock sample, none for an unknown rule, and nothing changes |
| `RateLimiter.CheckSeesCharges` | pkg/gateway/ratelimiter/redis_impl.go:47-114 | The usage a check reports starts at 0 and grows by everything charged to the rule's window; it reports the limit asked about, is over when the request does not fit, and expires with its key |
| `RateLimiter.RedisRateLimiter.DoLimit` | pkg/gateway/ratelimiter/redis_impl.go:116-168 | Every counter grows by exactly what the requests ask for, nothing else changes, and nothing at all on an unreachable server |
| `RateLimiter.PipelineArms` | pkg/gateway/ratelimiter/redis_impl.go:125-162 | Every command serves a request, and every incremented key had an expiry or gets one that lasts its period |
| `RateLimiter.PipelineEffect` | pkg/gateway/ratelimiter/redis_impl.go:116-168 | A pipeline's effect on each value is the sum of its increments |
| `Quotas.QosToQuotaRequests` | pkg/gateway/qosconfig/types.go:45-72 | One request per limit in order; a count that is missing is 0 |
| `Quotas.RedisQuotaService.IncrUsage` | pkg/gateway/quota/redis_impl.go:38-48 | Every counter grows by the sum of its requests; a failure changes nothing |
| `Quotas.RedisQuotaService.SetUsage` | pkg/gateway/quota/redis_impl.go:50-60 | Each requested counter holds the last request for it, the others are unchanged |
| `Quotas.RedisQuotaService.GetUsage` | pkg/gateway/quota/redis_impl.go:63-107 | Reads every counter; over its limit only when strictly above |
| `Gateway.ConfigProvider.GetQosByToken` | pkg/gateway/qosconfig/arks_impl.go:303-338 | Finds the first entry for the model in the first object with the token, and fails exactly when there is none |
| `Gateway.ConfigProvider.GetModelList` | pkg/gateway/qosconfig/arks_impl.go:364-376 | Exactly the endpoints of the namespace |
| `Gateway.Server.HandleRequestBody` | pkg/gateway/handle_request.go:83-249 | Forwards if and only if the request is well formed and every limit has room; an error changes no counter; a forwarded request adds 1 to each of its request counters and nothing else; says exactly when the answer is 400, 429 or 500 |
| `Gateway.Server.CheckRateLimit` | pkg/gateway/check.go:108-156 | Passes if and only if every rule is known, Redis answers and no limit is over; 429 exactly when one is |
| `Gateway.Server.CheckTokenQuotaLimit` | pkg/gateway/check.go:75-106 | Passes if and only if the quota exists, Redis answers and no type is over; 429 exactly when one is |
| `Gateway.Server.DoRateLimit` | pkg/gateway/check.go:31-59 | Succeeds if and only if every rule is known and Redis answers where needed; charges every rule of the given type and nothing else; a failure charges nothing |
| `Gateway.Server.DoTokenQuotaLimit` | pkg/gateway/check.go:62-72 | Succeeds if and only if there is no quota, or it exists and Redis answers where needed; charges each quota type its count; a failure charges nothing |
| `Gateway.Server.ChargeUsage` | pkg/gateway/handle_response.go:186-223 | Succeeds if and only if both rates and quota can be charged, and then charges each once; charges the rates alone exactly when only the quota cannot, and otherwise nothing |
| `Response.ResponseHandler.HandleResponseBody` | pkg/gateway/handle_response.go:80-268 | One message is one step of the response model: charge, completion, buffers and processing-time entries |
| `Response.ScanUsage` | pkg/gateway/handle_response.go:113-123 | The usage of the last event without choices |
| `Response.Isolation` | pkg/gateway/handle_response.go:134-181 | In any interleaving, what is buffered for, charged to and recorded of a request is what its own messages give |
| `Response.ResponseAssembled` | pkg/gateway/handle_response.go:134-223 | However a body is cut and interleaved, it is charged the usage that the whole body reports, once, if it decodes, names a model and reports any, and otherwise nothing; no buffer remains |
| `Response.StreamCharged` | pkg/gateway/handle_response.go:113-223 | In a run with other requests a stream is charged the last report of each message that decodes, and nothing else |
| `Response.ChargedExactlyOnceIff` | pkg/gateway/handle_response.go:113-223 | Every grouping of a stream's events charges exactly `u`, once, if and only if its last report is `u` and the earlier ones are zero |
| `Response.StreamChargedOnce` | pkg/gateway/handle_response.go:113-223 | The same in a run with other requests |
| `Response.GroupingMatters` | pkg/gateway/handle_response.go:113-123 | Two reports in one chunk charge the second, in two chunks both |
| `Response.EntryRemovedIff` | pkg/gateway/handle_response.go:100-110 | The processing-time entry goes if and only if the last message fails to decode, names no model or reports usage, and no earlier message did |
| `Response.EarlyUsageKeepsEntry` | pkg/gateway/handle_response.go:100-110 | A stream that reports its usage before its last chunk keeps its entry |
| `Stream.Process` | pkg/gateway/gateway.go:77-138 | The loop's panics and charges are those of the message-by-message specification |
| `Stream.ChargedAsAdmitted` | pkg/gateway/gateway.go:77-138 | With a request body, the QoS is there at each use, and the charges are exactly those due |
| `Stream.ChargedAsDue` | pkg/gateway/gateway.go:123-127 | In every stream in proxy order each response body with usage is charged once, in order, to the QoS admitted for the stream's token if the status is 200; nothing else is charged |
| `Stream.PanicsIff` | pkg/gateway/gateway.go:77-138 | A stream in proxy order panics if and only if it has no request body and its response has status 500 or a body |
| `Stream.BodilessStreamPanics` | pkg/gateway/gateway.go:77-138 | Such a stream, for every token and status |
| `QuotaSync.SyncStatus` | pkg/gateway/qosconfig/arks_impl.go:244-282 | The nested loops compute the merge |
| `QuotaSync.Provider.SyncQuota` | pkg/gateway/qosconfig/arks_impl.go:229-296 | Reading, merging, writing back and updating one quota is one pass |
| `QuotaSync.MergeIsPeak` | pkg/gateway/qosconfig/arks_impl.go:244-282 | The merge leaves, per type, the largest of status and readings |
| `QuotaSync.SyncIsSafe` | pkg/gateway/qosconfig/arks_impl.go:217-300 | In every run of any number of loops on stale copies: counters are the sum of all charges, recorded usage never exceeds them and never decreases, nothing is written back |
| `QuotaSync.WriteStatusRecords` | pkg/gateway/qosconfig/arks_impl.go:289-296 | A status write on a current copy adds a version that records, per type, the largest of old usage and readings; on an old copy nothing changes |
| `QuotaSync.SyncRecords` | pkg/gateway/qosconfig/arks_impl.go:217-300 | From every state of every run an undisturbed loop ends with every limit recorded as its counter has it |
| `QuotaSync.PassRecords` | pkg/gateway/qosconfig/arks_impl.go:244-296 | A pass leaves every limit recorded with the larger of recorded usage and counter |
| `QuotaSync.PeakIsLargest` | pkg/gateway/qosconfig/arks_impl.go:244-282 | That largest value is the old usage or a reading, and no less than any of them |
| `QuotaSync.WriteBackIff` | pkg/gateway/qosconfig/arks_impl.go:263-287 | A pass writes back if and only if some recorded usage is ahead of its counter |
| `QuotaSync.RestoresIff` | pkg/gateway/qosconfig/arks_impl.go:234-287 | A pass leaves every counter at the larger value if and only if none lagged |
| `QuotaSync.LossDoesNotHeal` | pkg/gateway/qosconfig/arks_impl.go:234-287 | After a loss every pass resets the quota's counters to 0 while no round charges as much as was recorded |
| `Endpoint.BuildRoutes` | internal/controller/arksendpoint_controller.go:253-412 | The loops build the static routes followed by the ready applications that have none |
| `Endpoint.ComputeIncludes` | internal/controller/arksendpoint_controller.go:253-412 | An application without static route is in the list exactly when it is listed and ready |
| `Endpoint.ComputeHolds` | internal/controller/arksendpoint_controller.go:278-313 | Static routes come first as they are; the rest are exactly the ready listed applications without one, on port 8080 with the default weight |
| `Endpoint.StepKeeps` | internal/controller/arksendpoint_controller.go:114-163 | Every step keeps that each change since the snapshot has a notification the filter lets through |
| `EndpointRuns.QuiescentIsFresh` | internal/controller/arksendpoint_controller.go:65-163 | At quiescence the status is the from-scratch computation over the current applications, in every run |
| `EndpointRuns.FilterIsExact` | internal/controller/arksendpoint_controller.go:65-163 | At rest a change of an application without static route asks for a reconcile if and only if it changes the list |
| `EndpointRuns.RouteFreshIff` | internal/controller/arksendpoint_controller.go:380-412 | At quiescence the route is what the schema makes of that, if and only if its last write was not an empty patch against a copy while the server had something else |
| `EndpointRuns.AlwaysFreshIff` | internal/controller/arksendpoint_controller.go:343-412 | The route is right at rest in every run if and only if no rule the controller can ask for is a stored one, or all are stored alike |
| `EndpointRuns.AlwaysFreshIffNoneStoredAsWanted` | internal/controller/arksendpoint_controller.go:343-412 | For an idempotent schema that tells two rules apart: if and only if no rule is stored as it was wanted |
| `Endpoint.StoredIsNeverWanted` | internal/controller/arksendpoint_controller.go:343-364 | What the HTTPRoute schema stores differs from every rule the controller asks for, with any match configuration |
| `EndpointRuns.RouteIsFresh` | internal/controller/arksendpoint_controller.go:343-412 | With that schema the route at rest is the defaulted from-scratch rule, in every run, however old the copies read |
| `EndpointRuns.RouteStaysWrong` | internal/controller/arksendpoint_controller.go:380-412 | With a schema without defaults some run ends at rest with a wrong route |
| `EndpointTraffic.RouteTakesIntendedIff` | internal/controller/arksendpoint_controller.go:343-398 | At rest, in every run, the route takes exactly the requests for this namespace and model that meet a match of the user, if and only if the specification is selective |
| `EndpointTraffic.TakesIntendedIff` | internal/controller/arksendpoint_controller.go:343-364 | The same of the rule for every specification |
| `EndpointTraffic.RoutesApart` | internal/controller/arksendpoint_controller.go:343-364 | No request is taken by the routes of two selective endpoints |
| `EndpointTraffic.OtherSpellingEscapes` | internal/controller/arksendpoint_controller.go:343-364 | A header of the user with another spelling makes a rule that is accepted and not selective |
| `EndpointTraffic.UneditedHasMatches` | api/v1/arksendpoint_types.go:40-43 | Without an edit no endpoint past its finalizer has an empty list of matches |
| `EndpointSettling.OwnStepNotUp` | internal/controller/arksendpoint_controller.go:65-412 | No step of controller or informer, on current or old copies, adds to what is left to do |
| `EndpointSettling.DeliveryDown` | internal/controller/arksendpoint_controller.go:65-163 | Every delivery of an event, an endpoint or, to a current informer, a route lowers it |
| `EndpointSettling.CalmStepDown` | internal/controller/arksendpoint_controller.go:197-412 | Once everything is delivered and the list is accepted every step lowers it, so a status write that changes nothing starts no new round |
| `EndpointSettling.AtRestIff` | internal/controller/arksendpoint_controller.go:65-412 | No step of controller or informer is left if and only if the endpoint is quiescent and the newest route was seen |
| `EndpointSettling.Settles` | internal/controller/arksendpoint_controller.go:253-412 | From every state that meets the invariant, with a rule that is accepted, the controller can come to rest by itself |
| `EndpointSettling.EveryScheduleSettles` | internal/controller/arksendpoint_controller.go:65-412 | Every infinite schedule of its steps that delivers in the end what there is to deliver comes to rest, with a rule that is accepted, also if reconciles begin on old endpoints and read old routes |
| `EndpointSettling.RefusedNeverSettles` | api/v1/arksendpoint_types.go:51-55 | With a rule that the schema refuses no run of its steps reaches rest |
| `Objects.CheckCondition` | internal/controller/arksapplication_controller.go:678-685 | Whether the first condition of the type is true |
| `Objects.UpdateCondition` | internal/controller/arksapplication_controller.go:687-705 | Sets the first condition of the type in place or appends one |
| `Objects.FlagsSimulateLists` | internal/controller/arksapplication_controller.go:678-732 | On any list, check, update and initialisation act as on one optional flag per type |
| `Objects.NoRepeatsKept` | internal/controller/arksapplication_controller.go:687-732 | Updates and initialisation never repeat a type |
| `Objects.OnePerType` | internal/controller/arksapplication_controller.go:707-732 | A list without repeats in which every type has a flag has exactly one condition of each type |
| `Objects.HasFinalizer` | internal/controller/arksmodel_controller.go:454-461 | Membership |
| `Objects.RemoveFinalizer` | internal/controller/arksmodel_controller.go:463-471 | The filter loop |
| `Objects.WithoutHas` | internal/controller/arksmodel_controller.go:463-471 | Removing takes out every occurrence and nothing else |
| `Objects.RemovingUndoesAdding` | internal/controller/arksmodel_controller.go:463-478 | Removing undoes adding |
| `Application.StepKeeps` | internal/controller/arksapplication_controller.go:75-344 | Every API call, however it ends and from however old a copy, and every outside change keeps the invariant |
| `ApplicationRuns.NoOrphans` | internal/controller/arksapplication_controller.go:123-320 | In every run a LeaderWorkerSet or Service exists only while the application exists with the finalizer |
| `ApplicationRuns.ConditionsInOrder` | internal/controller/arksapplication_controller.go:158-344 | In every run the condition list is empty or holds exactly one condition of each type; unless failed, ready implies loaded implies checked; the generator error is never reached |
| `ApplicationRuns.FailedAbsorbs` | internal/controller/arksapplication_controller.go:163-165 | A failed application stays failed while its object exists |
| `ApplicationConvergence.PassProgress` | internal/controller/arksapplication_controller.go:158-344 | Every undisturbed reconcile lowers a distance or changes nothing |
| `ApplicationConvergence.RecoversIff` | internal/controller/arksapplication_controller.go:253-341 | Three reconciles finish the application if and only if it was not ready with LeaderWorkerSet but without Service; that state never changes |
| `ApplicationConvergence.ServiceLostForGood` | internal/controller/arksapplication_controller.go:253-341 | Every new valid application can get to where it is ready with its LeaderWorkerSet and has lost its Service for good |
| `ApplicationConvergence.DeletionCompletes` | internal/controller/arksapplication_controller.go:123-156 | A reconcile of a deleted application removes what it created; the object goes if and only if no other finalizer is left |
| `ApplicationConvergence.Converges` | internal/controller/arksapplication_controller.go:158-344 | After any run without outside Service deletion, once the informer has caught up, an open application is running with both objects after three reconciles, and stays so |
| `ApplicationProgress.CalmReconcile` | internal/controller/arksapplication_controller.go:158-344 | An undisturbed reconcile fails the application if and only if it is invalid, its model is missing, or failed before it was loaded; it marks it loaded if and only if it was or the model is ready, and creates both objects if and only if it is then loaded and was not ready |
| `ApplicationProgress.FirstReconcile` | internal/controller/arksapplication_controller.go:158-190 | The first undisturbed reconcile adds the finalizer, fills in an open runtime and creates nothing |
| `ApplicationReconciler.Reconciler.Reconcile` | internal/controller/arksapplication_controller.go:75-109 | A whole reconcile changes the cluster as the step machine does, for every way its calls end |
| `ApplicationReconciler.Reconciler.ReconcileObject` | internal/controller/arksapplication_controller.go:158-219 | Defaults, finalizer and precheck, up to the saved status |
| `ApplicationReconciler.Reconciler.WaitForModel` | internal/controller/arksapplication_controller.go:221-344 | Model gate, creation and status sync, up to the saved status |
| `ApplicationReconciler.Reconciler.Remove` | internal/controller/arksapplication_controller.go:123-156 | Service, LeaderWorkerSet and finalizer go in that order, and the first failure stops |
| `ApplicationReconciler.CalmWeatherIsPass` | internal/controller/arksapplication_controller.go:75-109 | Without failures and with a ready model, a reconcile is one pass of the convergence theorems |
| `ModelController.StepKeeps` | internal/controller/arksmodel_controller.go:64-364 | Every API call, however it ends and from however old a copy, and every outside change keeps the invariant |
| `ModelRuns.ReadyMeans` | internal/controller/arksmodel_controller.go:140-364 | In every run a ready model has storage, is loaded if and only if its source is not set but empty, and a Huggingface one had its pod found succeeded |
| `ModelRuns.NoOrphanPod` | internal/controller/arksmodel_controller.go:112-138 | A worker pod exists only for a Huggingface model that exists with the finalizer |
| `ModelRuns.Settled` | internal/controller/arksmodel_controller.go:146-149 | Once ready or failed, a model's status never changes |
| `ModelRuns.PodMountsOwnClaim` | internal/controller/arksmodel_controller.go:168-311 | In every run every worker pod mounts its model's claim |
| `ModelRuns.MakesPodIff` | internal/controller/arksmodel_controller.go:168-311 | A call makes a worker pod, however it ends, if and only if it creates one, is not refused, and its pass did not start with the storage recorded |
| `ModelRuns.StuckForEver` | internal/controller/arksmodel_controller.go:215-340 | Without pod, and with the storage recorded in every copy, a Huggingface model that is not loaded never gets a pod and never gets ready |
| `ModelRuns.RefusedPodIsStuck` | internal/controller/arksmodel_controller.go:168-311 | It is in that state whenever creating its pod was refused once, its status saved and the informer caught up |
| `ModelRuns.NewModelGetsStuck` | internal/controller/arksmodel_controller.go:140-340 | Every new Huggingface model without claim has a run to that state |
| `ModelRuns.NewModelCreatesPod` | internal/controller/arksmodel_controller.go:140-340 | Every new Huggingface model without claim has a run to the point where its pod is created |
| `ModelProgress.CalmReconcile` | internal/controller/arksmodel_controller.go:140-364 | What an undisturbed reconcile leaves for every storage, source and pod: claim, pod, and exactly when the model is ready, loaded and failed |
| `ModelProgress.PodDecides` | internal/controller/arksmodel_controller.go:334-361 | With its storage recorded, a Huggingface model is then ready and loaded if and only if its pod has succeeded, and failed if and only if its pod has |
| `ModelProgress.HuggingfaceGetsReady` | internal/controller/arksmodel_controller.go:140-364 | Every new Huggingface model has a run that makes it ready and loaded |
| `ModelProgress.UndownloadedGetsReady` | internal/controller/arksmodel_controller.go:140-364 | Every new model with no or an empty source has a run that makes it ready, loaded if and only if it has no source |
| `ModelProgress.DeletionCompletes` | internal/controller/arksmodel_controller.go:112-138 | A reconcile of a deleted model removes its pod and the finalizer; the object goes if and only if no other finalizer is left |
| `ModelReconciler.Reconciler.Reconcile` | internal/controller/arksmodel_controller.go:64-97 | A whole reconcile changes the cluster as the step machine does, for every way its calls end |
| `ModelReconciler.Reconciler.ReconcileObject` | internal/controller/arksmodel_controller.go:140-213 | Finalizer, conditions and storage, up to the saved status |
| `ModelReconciler.Reconciler.Load` | internal/controller/arksmodel_controller.go:215-364 | Loading by source and the ready mark, up to the saved status |
| `ModelReconciler.Reconciler.Remove` | internal/controller/arksmodel_controller.go:112-138 | A Huggingface model's pod goes first; only then the finalizer |
| `Lifecycle.CreatedOnlyAfterReady` | internal/controller/arksapplication_controller.go:221-278 | In every run of both controllers a LeaderWorkerSet is created only after a read, since the application was created, found a model that had been stored as ready, and for a Huggingface source only after its worker pod was found succeeded before that read |

## Left out

- The disaggregated application controller and the endpoint's disaggregated branch: they mostly repeat what is here.
- The group and kind that the HTTPRoute schema fills into backends; conditions on method and query are judged by a parameter.
- Endpoint deletion, edits of the HTTPRoute by others, and applications that change their served name.
- Pod, Service and LeaderWorkerSet templates, image names and command strings; only whether generating them errs is kept.
- Reasons, messages and timestamps of conditions, and replica counts in application status.
- gRPC, HTTP and metrics servers, Prometheus collectors, flags, Redis client setup, graceful shutdown.
- JSON and server-sent events decoding: parameters of the response model.
- Bearer header extraction and the `/v1/models` listing.
- Redis errors of single commands inside an executed pipeline, and int64 overflow of counters.
- The panic of `UnitToSeconds` on an unknown unit: units are an enumeration.
- RateLimiter.RedisRateLimiter.CheckLimit: the reset time it reports is in nanoseconds, not rounded to seconds.
- Gateway.Server.DoRateLimit: merges the two source functions that charge request rules and token rules, which differ in type and count only.
- Gateway.Server.HandleRequestBody: response headers and error texts are not modelled.
- Response.ResponseHandler.HandleResponseBody: a charge that fails and the error replies are not part of it; `Gateway.Server.ChargeUsage` says what a charge does.
- Stream.Process: what the handlers answer comes with the messages; the stream flag and the completed flag belong to the response model.
- The nil dereference of a model's storage claim when a LeaderWorkerSet is generated (`internal/controller/arksapplication_controller.go:377`), for a loaded application whose model was replaced by one without a claim.
- Gateway.Server.ChargeUsage: is stated for both services on one Redis client, as the gateway's main program sets them up.
- Requeue delays of the controllers: any reconcile may start at any time, so waiting for a model or for a retry is not modelled.
