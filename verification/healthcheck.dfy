/** notifier/healthcheck.go: the good-to-go check, which asks Smartlogic for a fixed canary
    concept and caches only successful answers, for a configured number of clock ticks. */
module NotifierHealth {
  import opened Outcomes
  import opened Upstream
  import NotifierService

  /** The canary concept the upstream check fetches. */
  const HealthcheckConcept: Uuid := "healthcheck-concept"

  /** The message smartlogicCheck returns beside a failed fetch. */
  const CheckFailedMessage: string := "Concept couldn't be retrieved."

  /** Go's zero time.Time: "never succeeded". */
  const ZeroTime: Time := 0

  /** gtg.Status. */
  datatype GtgStatus = GtgStatus(goodToGo: bool, message: string)

  const Good: GtgStatus := GtgStatus(true, "")

  /** One pass of the good-to-go check. */
  datatype GtgOutcome = GtgOutcome(lastSuccess: Time, status: GtgStatus, calledUpstream: bool)

  /** The good-to-go check with last success `last` and cache duration `ttl`, run when the clock
      reads `now`. If the canary is fetched, `answer` is the reply and the clock reads
      `now + callDuration` when the check stores the time of the success. */
  function GtgStep(last: Time, ttl: nat, now: Time, answer: Result<Payload, Error>, callDuration: nat): (o: GtgOutcome)
    // a fresh success: good to go, no upstream call, nothing changes
    ensures now < last + ttl ==> o == GtgOutcome(last, Good, false)
    // an expired (or never made) success: exactly one upstream call
    ensures o.calledUpstream <==> last + ttl <= now
    // good to go exactly when the cache is fresh or the canary fetch succeeds
    ensures o.status.goodToGo <==> now < last + ttl || answer.Success?
    // a failure reports the upstream error's text and is not cached
    ensures !o.status.goodToGo ==> o.status.message == answer.error.text && o.lastSuccess == last
    // only a success made now moves the cached time, to the moment after the call
    ensures o.lastSuccess == (if o.calledUpstream && answer.Success? then now + callDuration else last)
    ensures last <= o.lastSuccess
  {
    if now < last + ttl then GtgOutcome(last, Good, false)
    else
      match answer
      case Failure(err) => GtgOutcome(last, GtgStatus(false, err.text), true)
      case Success(_) => GtgOutcome(now + callDuration, Good, true)
  }

  /** A readiness probe: the clock reading, and the canary reply and its duration should the
      probe fetch it. */
  datatype Probe = Probe(now: Time, answer: Result<Payload, Error>, callDuration: nat)

  /** The outcomes of a sequence of probes, each seeing the state the previous one left. */
  function Replay(last: Time, ttl: nat, probes: seq<Probe>): (os: seq<GtgOutcome>)
    ensures |os| == |probes|
    decreases |probes|
  {
    if probes == [] then []
    else
      var o := GtgStep(last, ttl, probes[0].now, probes[0].answer, probes[0].callDuration);
      [o] + Replay(o.lastSuccess, ttl, probes[1..])
  }

  /** Until the cached success at `last` expires, every probe is good to go without an upstream
      call, whatever the upstream would answer, and the cached time does not move. */
  lemma {:induction false} CachedSuccessHolds(last: Time, ttl: nat, probes: seq<Probe>)
    requires forall i :: 0 <= i < |probes| ==> probes[i].now < last + ttl
    ensures forall i :: 0 <= i < |probes| ==> Replay(last, ttl, probes)[i] == GtgOutcome(last, Good, false)
    decreases |probes|
  {
    if probes != [] {
      CachedSuccessHolds(last, ttl, probes[1..]);
    }
  }

  /** Failures are never cached: while every canary fetch fails, the last-success time stays
      where it was and every probe that reaches upstream reports not good to go. */
  lemma {:induction false} FailuresNeverCached(last: Time, ttl: nat, probes: seq<Probe>)
    requires forall i :: 0 <= i < |probes| ==> probes[i].answer.Failure?
    ensures forall i :: 0 <= i < |probes| ==> Replay(last, ttl, probes)[i].lastSuccess == last
    ensures forall i :: 0 <= i < |probes| && Replay(last, ttl, probes)[i].calledUpstream ==>
      Replay(last, ttl, probes)[i].status == GtgStatus(false, probes[i].answer.error.text)
    decreases |probes|
  {
    if probes != [] {
      FailuresNeverCached(last, ttl, probes[1..]);
    }
  }

  /** The last-success time never moves backwards over a sequence of probes. */
  lemma {:induction false} LastSuccessNeverDecreases(last: Time, ttl: nat, probes: seq<Probe>)
    ensures forall i :: 0 <= i < |probes| ==> last <= Replay(last, ttl, probes)[i].lastSuccess
    ensures forall i, j :: 0 <= i <= j < |probes| ==>
      Replay(last, ttl, probes)[i].lastSuccess <= Replay(last, ttl, probes)[j].lastSuccess
    decreases |probes|
  {
    if probes != [] {
      var o := GtgStep(last, ttl, probes[0].now, probes[0].answer, probes[0].callDuration);
      LastSuccessNeverDecreases(o.lastSuccess, ttl, probes[1..]);
    }
  }

  /** The cache scenario of the notifier's handler test, with a cache of 20 ticks: a success,
      a failure inside the cache window (still good), a failure after it (not good), and a
      success again (good). */
  lemma CacheScenario(body: Payload, err: Error)
    ensures var os := Replay(ZeroTime, 20, [Probe(20, Success(body), 0), Probe(30, Failure(err), 0),
                                             Probe(60, Failure(err), 0), Probe(90, Success(body), 0)]);
      os[0].status.goodToGo && os[1].status.goodToGo && !os[2].status.goodToGo && os[3].status.goodToGo
      && !os[1].calledUpstream && os[2].status.message == err.text
  {
    var p0, p1, p2, p3 := Probe(20, Success(body), 0), Probe(30, Failure(err), 0), Probe(60, Failure(err), 0), Probe(90, Success(body), 0);
    var ps := [p0, p1, p2, p3];
    assert ps[1..] == [p1, p2, p3] && ps[1..][1..] == [p2, p3] && ps[1..][1..][1..] == [p3];
    assert Replay(20, 20, [p3]) == [GtgOutcome(90, Good, true)];
    assert Replay(20, 20, [p2, p3]) == [GtgOutcome(20, GtgStatus(false, err.text), true), GtgOutcome(90, Good, true)];
    assert Replay(20, 20, [p1, p2, p3])[0] == GtgOutcome(20, Good, false);
  }

  /** The health service: the notifier it asks, the cache duration and the time of the last
      successful upstream check, guarded by its lock. */
  class HealthService {
    const notifier: NotifierService.Service
    const cacheSmartlogicSuccessFor: nat
    var lastSuccessfulSmartlogicCheck: Time

    /** A new service has never seen a success. */
    constructor (notifier: NotifierService.Service, cacheSmartlogicSuccessFor: nat)
      ensures this.notifier == notifier && this.cacheSmartlogicSuccessFor == cacheSmartlogicSuccessFor
      ensures lastSuccessfulSmartlogicCheck == ZeroTime
    {
      this.notifier := notifier;
      this.cacheSmartlogicSuccessFor := cacheSmartlogicSuccessFor;
      lastSuccessfulSmartlogicCheck := ZeroTime;
    }

    /** The uncached upstream check: fetch the canary concept once. */
    method SmartlogicCheck() returns (message: string, err: Option<Error>)
      modifies notifier.slClient
      ensures var answer := notifier.slClient.concepts(HealthcheckConcept, |old(notifier.slClient.conceptCalls)|);
        && (answer.Success? ==> message == "" && err == None)
        && (answer.Failure? ==> message == CheckFailedMessage && err == Some(answer.error))
      ensures notifier.slClient.conceptCalls == old(notifier.slClient.conceptCalls) + [HealthcheckConcept]
      ensures notifier.slClient.listCalls == old(notifier.slClient.listCalls)
    {
      var concept := notifier.GetConcept(HealthcheckConcept);
      if concept.Failure? {
        return CheckFailedMessage, Some(concept.error);
      }
      return "", None;
    }

    /** The good-to-go check. The clock reads `now` when the cache is consulted and
        `now + callDuration` after the upstream call. */
    method GtgCheck(now: Time, callDuration: nat) returns (status: GtgStatus)
      modifies this, notifier.slClient
      ensures
        var o := GtgStep(old(lastSuccessfulSmartlogicCheck), cacheSmartlogicSuccessFor, now,
                         notifier.slClient.concepts(HealthcheckConcept, |old(notifier.slClient.conceptCalls)|),
                         callDuration);
        && status == o.status
        && lastSuccessfulSmartlogicCheck == o.lastSuccess
        && notifier.slClient.conceptCalls
           == old(notifier.slClient.conceptCalls) + (if o.calledUpstream then [HealthcheckConcept] else [])
      ensures notifier.slClient.listCalls == old(notifier.slClient.listCalls)
    {
      var nextCheck := lastSuccessfulSmartlogicCheck + cacheSmartlogicSuccessFor;
      if now < nextCheck {
        return Good;
      }
      var message, err := SmartlogicCheck();
      if err.Some? {
        return GtgStatus(false, err.value.text);
      }
      lastSuccessfulSmartlogicCheck := now + callDuration;
      return Good;
    }
  }
}
