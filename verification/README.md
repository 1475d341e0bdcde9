# smartlogic-notifier: the notification orchestrator and the cached good-to-go check

This project models the two pieces of the Smartlogic notifier that make decisions.

**The notifier service** (`notifier/service.go`) works as follows:
- `Notify` asks Smartlogic which concepts changed since a given time.
- When the answer is an empty list, it asks once more.
- It gives up with an error when the second answer is also empty.
- It gives up straight away when either changed-list call fails.
- Otherwise it hands the list to `ForceNotify`.
- `ForceNotify` fetches each concept in turn and publishes each fetched concept as a Kafka message.
- It records every failed concept in an error map keyed by UUID. No failure stops the loop.
- It returns an error that reports only the number of failed UUIDs.

**The health service** (`notifier/healthcheck.go`) answers the good-to-go probe:
- It fetches a canary concept, `"healthcheck-concept"`.
- It remembers the time of the last successful fetch and skips the fetch while that success is younger than the configured cache duration.
- Failures are never cached.

Module by module:
- `Outcomes` holds Go's `error` values and `(value, error)` pairs.
- `Decimal` is fmt's `%d`.
- `Upstream` holds the two collaborators: the Smartlogic client and the Kafka producer. Each is a class whose answer to its k-th call is given by a function fixed at construction, and each logs the calls made to it.
- `NotifierService` holds:
  - the `Service` class;
  - the pure specification of one `ForceNotify` run (`Delivery`, one `Step` per loop pass);
  - the specification of one whole call (`ForceNotifyEffect`, `NotifyEffect`).
- `NotifierHealth` holds:
  - the `HealthService` class;
  - the pure specification of one good-to-go pass (`GtgStep`) and of a sequence of probes (`Replay`).

The methods that change state are proved against these functions. The properties are proved as `ensures` clauses of the functions and as lemmas about them.

Time is counted in integer clock ticks, and Go's zero `time.Time` is tick 0. The cache duration is a natural number of ticks. The gtg closure reads the clock twice:
- once to compare with the cached time (`healthcheck.go:83`);
- once, after the upstream call, to store the new time (`healthcheck.go:91`).

So `GtgCheck` takes `now` and the call's duration, and it stores `now + callDuration`.

The count ForceNotify reports is the size of its error map, which is the number of DISTINCT failed UUIDs. It equals the number of failing elements only when no UUID is repeated in the input. `FailedKeysAreFailedIds` states what the code does for every input. `DistinctInputsCountFailingElements` shows that the two counts agree when no UUID is repeated.

## Model

| member | source | states |
|---|---|---|
| `Upstream.SmartlogicClient.GetConcept` | notifier/service.go:41-43 | returns the scripted answer for this call number and this UUID, and logs the UUID |
| `Upstream.SmartlogicClient.GetChangedConceptList` | notifier/service.go:45-47 | returns the scripted answer for this call number and this time, and logs the call |
| `Upstream.MessageProducer.SendMessage` | notifier/service.go:28-31 | returns the scripted outcome for this call number and this body, and logs the body whether or not the send fails |
| `Upstream.MessageProducer.ConnectivityCheck` | notifier/service.go:28-31 | returns the scripted probe outcome, and changes nothing but the probe count |
| `NotifierService.Service.constructor` | notifier/service.go:33-39 | the service holds the producer and the Smartlogic client it was given |
| `NotifierService.Service.GetConcept` | notifier/service.go:41-43 | pure pass-through: the client's answer, with exactly one concept call and no list call |
| `NotifierService.Service.GetChangedConceptList` | notifier/service.go:45-47 | pure pass-through: the client's answer, with exactly one list call and no concept call |
| `NotifierService.Service.CheckKafkaConnectivity` | notifier/service.go:109-111 | returns the producer's probe result as it is; no message is sent |
| `NotifierService.Service.Notify` | notifier/service.go:49-70 | the list calls, the fetched UUIDs, the sent bodies and the returned error are those of `NotifyEffect`; no connectivity probe is made |
| `NotifierService.Service.ForceNotify` | notifier/service.go:72-107 | fetches exactly the input UUIDs in input order, sends `FetchedBodies` and returns `ForceNotifyEffect`'s error; the loop invariant keeps the error map equal to `Delivery` of the prefix done; no list call is made |
| `NotifierService.Service.NotifyConcept` | notifier/service.go:76-95 | one loop pass: exactly one fetch of the UUID, a send only after a successful fetch, and the error map and sends updated as `Step` says |
| `NotifierService.NotifyError.Text` | notifier/service.go:52-99 | the four error texts: the two changed-list errors start "failed " and end with the wrapped cause's own text, as `%w` keeps it; the empty-list error starts "no "; the aggregate error starts "There " and its count is recoverable from the text (`IngestionTextDeterminesCount`) |
| `NotifierService.Step` | notifier/service.go:76-95 | one loop pass: a failed fetch records its error and skips the send; a fetched body is sent once; a failed send records its error; a success removes no entry |
| `NotifierService.Verdict` | notifier/service.go:98-106 | an aggregate error reporting the error map's size exactly when the map is non-empty, no error otherwise |
| `NotifierService.Delivery` | notifier/service.go:73-96 | one loop pass per input element, in order; at most one send per element |
| `NotifierService.SentAreFetchedBodies` | notifier/service.go:75-92 | the bodies sent are exactly those whose fetch succeeded, once each and in input order, whatever earlier sends returned |
| `NotifierService.ElementFailsPrefix` | notifier/service.go:75-96 | whether an element fails depends only on the elements before it: later elements never change an earlier outcome |
| `NotifierService.FailedIdsSnoc` | notifier/service.go:75-96 | one more element adds its UUID to the failed UUIDs exactly when that element fails |
| `NotifierService.FailedKeysAreFailedIds` | notifier/service.go:73-95 | the error map's keys are exactly the UUIDs with some failing fetch or send: every key is an input, and a later success on a repeated UUID does not clear an earlier failure |
| `NotifierService.FailingElementsSnoc` | notifier/service.go:75-96 | one more element adds its position to the failing positions exactly when it fails |
| `NotifierService.DistinctFailedIdsCount` | notifier/service.go:78-95 | with no repeated UUID, the number of failed UUIDs equals the number of failing elements |
| `NotifierService.DistinctInputsCountFailingElements` | notifier/service.go:98-101 | with no repeated UUID, the reported count is the number of elements whose fetch or send failed |
| `NotifierService.FullySuccessfulIff` | notifier/service.go:98-106 | the error map is empty exactly when no element's fetch or send fails |
| `NotifierService.AllSucceedSendsEach` | notifier/service.go:75-106 | when every fetch and send succeeds, nothing is recorded and every element's body is sent in order |
| `NotifierService.IngestionTextDeterminesCount` | notifier/service.go:99-101 | the aggregate error's text determines the failure count, and carries nothing else |
| `NotifierService.ForceNotifyEffect` | notifier/service.go:72-107 | one fetch per input in order; sends are the successful fetches; an error exactly when some element failed, whose count is the number of distinct failed UUIDs; the empty input succeeds with no call |
| `NotifierService.NotifyEffect` | notifier/service.go:49-69 | one or two list calls, two exactly when the first answer is empty. A failed first call is an immediate error with no retry, fetch or send. A failed retry, or a second empty list, is an error with no fetch or send. A non-empty list is handed whole to ForceNotify. Success implies something was fetched |
| `NotifierService.NotifyAfterRetrySendsOnce` | notifier/service.go:55-69 | the retry on an empty answer: an empty first answer, then a one-UUID answer whose fetch and send succeed: Notify succeeds with exactly one send |
| `NotifierService.NotifySendsTheOneChange` | notifier/service_test.go:31-43 | the notifier's Notify test: a first changed list `["uuid2"]` whose fetch and send succeed gives one list call, one fetch of `"uuid2"`, one send of its body and no error |
| `NotifierHealth.HealthService.constructor` | notifier/healthcheck.go:28-42 | a new service starts at the zero time, "never succeeded" |
| `NotifierHealth.HealthService.SmartlogicCheck` | notifier/healthcheck.go:67-73 | exactly one fetch of `"healthcheck-concept"`; `("", nil)` on success, `("Concept couldn't be retrieved.", err)` on failure |
| `NotifierHealth.HealthService.GtgCheck` | notifier/healthcheck.go:77-93 | status, new cached time and upstream calls are those of `GtgStep` on the old cached time; the only upstream call is for `"healthcheck-concept"` |
| `NotifierHealth.GtgStep` | notifier/healthcheck.go:81-92 | before `last + ttl` (strict) it reports good to go with no call and no change. Otherwise it makes exactly one upstream call. It is good to go iff cached or the call succeeds. A failure reports the upstream error text and leaves the time alone. A success stores the post-call time. The time never decreases |
| `NotifierHealth.Replay` | notifier/healthcheck.go:77-93 | one outcome per probe, each probe seeing the state the previous one left |
| `NotifierHealth.CachedSuccessHolds` | notifier/healthcheck.go:81-86 | until a cached success expires, every probe is good to go without an upstream call, whatever upstream would answer |
| `NotifierHealth.FailuresNeverCached` | notifier/healthcheck.go:88-90 | while every canary fetch fails, the cached time never moves and every probe that calls upstream reports the upstream error |
| `NotifierHealth.LastSuccessNeverDecreases` | notifier/healthcheck.go:91 | over any sequence of probes the cached time only moves forward |
| `NotifierHealth.CacheScenario` | notifier/handlers_test.go:345-370 | success, then cached good despite a failing upstream, then not good after expiry, then good again after a success |
| `Decimal.ParseNatText` | notifier/service.go:99 | the `%d` text of a count reads back as that count |
| `Decimal.NatTextInjective` | notifier/service.go:99 | different counts have different `%d` texts |

## Left out

- Logging (the `s.log` and `log.Debug` calls) is not modelled. It has no effect on results.
- The Kafka message headers and the fresh transaction id from `transactionidutils.NewTransactionID` are not modelled. The id is random. A message is known by its body, and the parent transaction id only goes to the log.
- The five-second `time.Sleep` before the retry is not modelled. It is a wait with no observable effect in a sequential model.
- The health service's mutex and `gtg.FailFastParallelCheck` are not modelled. The lock makes each check atomic, so each check is modelled as one sequential step. Concurrency is left out.
- `HealthcheckHandler`, `smartlogicHealthCheck` and the `appSystemCode`, `appName` and `description` settings are not modelled. They only build static health-check descriptors.
- The Smartlogic REST client and the Kafka producer are not modelled as protocol clients. They are scripted: each answer is a fixed function of the call's argument and call number.
- Go's distinction between a nil slice and an empty slice is not modelled. The code only tests `len(...) == 0`.
- `NotifierService.NotifyError.Text` writes a time as its decimal tick count rather than in Go's `%v` date layout.
- `main.go` (flags, environment, client construction, HTTP server, signals) and the HTTP handlers are not part of this model.
- No lemma states which error value the map keeps for a repeated UUID (the last failure's). The values are only logged, and the caller sees only the count.
