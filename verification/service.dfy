/** notifier/service.go: the notification orchestrator. Notify resolves a change signal into
    the list of changed concepts (retrying once when the list comes back empty) and hands it to
    ForceNotify, which fetches each concept and publishes it, recording failures per concept
    and reporting their number. */
module NotifierService {
  import opened Outcomes
  import opened Upstream
  import Decimal

  /** The errors Notify and ForceNotify return. */
  datatype NotifyError =
    | ListFetchFailed(cause: Error)
    | ListRetryFailed(cause: Error)
    | NoChanges(since: Time, transactionId: string)
    | IngestionFailures(count: nat)
  {
    /** The error's text (a time is written as its tick count). A wrapped changed-list error
        keeps the cause's own text at its end, as `%w` does. */
    function Text(): (s: string)
      ensures ListFetchFailed? ==> |s| >= |cause.text| && s[|s| - |cause.text|..] == cause.text
      ensures ListRetryFailed? ==> |s| >= |cause.text| && s[|s| - |cause.text|..] == cause.text
      ensures ListFetchFailed? ==> |s| >= 7 && s[..7] == "failed "
      ensures ListRetryFailed? ==> |s| >= 7 && s[..7] == "failed "
      ensures NoChanges? ==> |s| >= 3 && s[..3] == "no "
      ensures IngestionFailures? ==> |s| >= 6 && s[..6] == "There "
    {
      match this
      case ListFetchFailed(cause) =>
        var prefix := "failed " + "to fetch the list of changed concepts: ";
        assert (prefix + cause.text)[..7] == prefix[..7] == "failed ";
        prefix + cause.text
      case ListRetryFailed(cause) =>
        var prefix := "failed " + "while retrying to fetch the list of changed concepts: ";
        assert (prefix + cause.text)[..7] == prefix[..7] == "failed ";
        prefix + cause.text
      case NoChanges(since, transactionId) =>
        "no changed concepts since " + Decimal.IntText(since) + " were returned for transaction id " + transactionId
      case IngestionFailures(count) =>
        "There was an error with " + Decimal.NatText(count) + " concept ingestions"
    }
  }

  /** The aggregate error's text carries the failure count and nothing else: two counts give the
      same text only if they are equal. */
  lemma IngestionTextDeterminesCount(a: nat, b: nat)
    ensures IngestionFailures(a).Text() == IngestionFailures(b).Text() <==> a == b
  {
    var pre, post := "There was an error with ", " concept ingestions";
    var ta, tb := Decimal.NatText(a), Decimal.NatText(b);
    if pre + ta + post == pre + tb + post {
      assert |ta| == |tb|;
      assert ta == (pre + ta + post)[|pre|..|pre| + |ta|];
      assert tb == (pre + tb + post)[|pre|..|pre| + |tb|];
      Decimal.NatTextInjective(a, b);
    }
  }

  /** ForceNotify's loop state after a prefix of its input: the body of every message handed
      to SendMessage, in order, and the error map. */
  datatype Tally = Tally(sent: seq<Payload>, failed: map<Uuid, Error>)

  /** One pass of ForceNotify's loop body for identifier `u`, whose fetch gave `answer`; the
      first SendMessage call of the run is number `s0`. A failed fetch records its error and
      skips the send; a failed send records its error; a success removes nothing. */
  function Step(t: Tally, u: Uuid, answer: Result<Payload, Error>, send: SendOracle, s0: nat): (r: Tally)
    // a body is sent exactly when its fetch succeeded, after the earlier ones
    ensures answer.Success? ==> r.sent == t.sent + [answer.value]
    ensures answer.Failure? ==> r.sent == t.sent
    // only `u`'s entry may change, and entries are never removed
    ensures r.failed.Keys == t.failed.Keys || r.failed.Keys == t.failed.Keys + {u}
    ensures r.failed - {u} == t.failed - {u}
    // `u` gets an entry exactly when its fetch or its send failed, holding that error
    ensures answer.Failure? ==> u in r.failed && r.failed[u] == answer.error
    ensures answer.Success? && send(answer.value, s0 + |t.sent|).Some? ==>
              u in r.failed && r.failed[u] == send(answer.value, s0 + |t.sent|).value
    ensures answer.Success? && send(answer.value, s0 + |t.sent|).None? ==> r.failed == t.failed
  {
    match answer
    case Failure(e) => Tally(t.sent, t.failed[u := e])
    case Success(body) =>
      match send(body, s0 + |t.sent|)
      case Some(e) => Tally(t.sent + [body], t.failed[u := e])
      case None => Tally(t.sent + [body], t.failed)
  }

  /** What ForceNotify's loop does with `uuids` when the first GetConcept call it makes is call
      number `f0` and the first SendMessage call is number `s0`. */
  function Delivery(uuids: seq<Uuid>, fetch: ConceptOracle, f0: nat, send: SendOracle, s0: nat): (t: Tally)
    ensures |t.sent| <= |uuids|
    decreases |uuids|
  {
    if uuids == [] then Tally([], map[])
    else
      var n := |uuids| - 1;
      Step(Delivery(uuids[..n], fetch, f0, send, s0), uuids[n], fetch(uuids[n], f0 + n), send, s0)
  }

  /** Delivery of one more element is one more loop pass. */
  lemma DeliveryExtend(uuids: seq<Uuid>, i: nat, fetch: ConceptOracle, f0: nat, send: SendOracle, s0: nat)
    requires i < |uuids|
    ensures Delivery(uuids[..i + 1], fetch, f0, send, s0)
         == Step(Delivery(uuids[..i], fetch, f0, send, s0), uuids[i], fetch(uuids[i], f0 + i), send, s0)
  {
    assert uuids[..i + 1][..i] == uuids[..i];
  }

  /** The bodies of the concepts whose fetch succeeds, in input order (element i is fetched by
      call f0 + i); they do not depend on any send outcome. */
  function FetchedBodies(uuids: seq<Uuid>, fetch: ConceptOracle, f0: nat): seq<Payload>
    decreases |uuids|
  {
    if uuids == [] then []
    else
      var n := |uuids| - 1;
      FetchedBodies(uuids[..n], fetch, f0) +
        match fetch(uuids[n], f0 + n)
        case Success(body) => [body]
        case Failure(_) => []
  }

  /** Element i of the input fails: its fetch fails, or the send of its body does (that send is
      call s0 + the number of successful fetches before it). */
  predicate ElementFails(uuids: seq<Uuid>, fetch: ConceptOracle, f0: nat, send: SendOracle, s0: nat, i: nat)
    requires i < |uuids|
  {
    match fetch(uuids[i], f0 + i)
    case Failure(_) => true
    case Success(body) => send(body, s0 + |FetchedBodies(uuids[..i], fetch, f0)|).Some?
  }

  /** The identifiers with at least one failing element. */
  function FailedIds(uuids: seq<Uuid>, fetch: ConceptOracle, f0: nat, send: SendOracle, s0: nat): set<Uuid> {
    set i | 0 <= i < |uuids| && ElementFails(uuids, fetch, f0, send, s0, i) :: uuids[i]
  }

  /** The positions of the failing elements. */
  function FailingElements(uuids: seq<Uuid>, fetch: ConceptOracle, f0: nat, send: SendOracle, s0: nat): set<nat> {
    set i: nat | i < |uuids| && ElementFails(uuids, fetch, f0, send, s0, i)
  }

  /** Whether an element fails depends only on the elements before it. */
  lemma ElementFailsPrefix(uuids: seq<Uuid>, m: nat, fetch: ConceptOracle, f0: nat, send: SendOracle, s0: nat, i: nat)
    requires i < m <= |uuids|
    ensures ElementFails(uuids, fetch, f0, send, s0, i) == ElementFails(uuids[..m], fetch, f0, send, s0, i)
  {
    assert uuids[..m][..i] == uuids[..i];
  }

  /** Every successfully fetched concept is sent, exactly once and in input order, whatever
      the earlier sends returned. */
  lemma {:induction false} SentAreFetchedBodies(uuids: seq<Uuid>, fetch: ConceptOracle, f0: nat, send: SendOracle, s0: nat)
    ensures Delivery(uuids, fetch, f0, send, s0).sent == FetchedBodies(uuids, fetch, f0)
    decreases |uuids|
  {
    if uuids != [] {
      SentAreFetchedBodies(uuids[..|uuids| - 1], fetch, f0, send, s0);
    }
  }

  /** The identifiers with a failing element grow by the last element's identifier exactly
      when that element fails. */
  lemma FailedIdsSnoc(uuids: seq<Uuid>, fetch: ConceptOracle, f0: nat, send: SendOracle, s0: nat)
    requires uuids != []
    ensures var n := |uuids| - 1;
      FailedIds(uuids, fetch, f0, send, s0)
        == FailedIds(uuids[..n], fetch, f0, send, s0)
           + (if ElementFails(uuids, fetch, f0, send, s0, n) then {uuids[n]} else {})
  {
    var n := |uuids| - 1;
    var p := uuids[..n];
    var last := if ElementFails(uuids, fetch, f0, send, s0, n) then {uuids[n]} else {};
    forall x | x in FailedIds(uuids, fetch, f0, send, s0)
      ensures x in FailedIds(p, fetch, f0, send, s0) + last
    {
      var i :| 0 <= i < |uuids| && ElementFails(uuids, fetch, f0, send, s0, i) && uuids[i] == x;
      if i < n {
        ElementFailsPrefix(uuids, n, fetch, f0, send, s0, i);
        assert p[i] == x;
      }
    }
    forall x | x in FailedIds(p, fetch, f0, send, s0)
      ensures x in FailedIds(uuids, fetch, f0, send, s0)
    {
      var i :| 0 <= i < |p| && ElementFails(p, fetch, f0, send, s0, i) && p[i] == x;
      ElementFailsPrefix(uuids, n, fetch, f0, send, s0, i);
      assert uuids[i] == x;
    }
  }

  /** The error map's keys are exactly the identifiers with a failing element: a failure is
      never cleared by a later success of the same identifier, and nothing else is recorded. */
  lemma {:induction false} FailedKeysAreFailedIds(uuids: seq<Uuid>, fetch: ConceptOracle, f0: nat, send: SendOracle, s0: nat)
    ensures Delivery(uuids, fetch, f0, send, s0).failed.Keys == FailedIds(uuids, fetch, f0, send, s0)
    decreases |uuids|
  {
    if uuids != [] {
      var n := |uuids| - 1;
      var p := uuids[..n];
      FailedKeysAreFailedIds(p, fetch, f0, send, s0);
      SentAreFetchedBodies(p, fetch, f0, send, s0);
      FailedIdsSnoc(uuids, fetch, f0, send, s0);
    }
  }

  /** The failing positions grow by the last position exactly when that element fails. */
  lemma FailingElementsSnoc(uuids: seq<Uuid>, fetch: ConceptOracle, f0: nat, send: SendOracle, s0: nat)
    requires uuids != []
    ensures var n := |uuids| - 1;
      FailingElements(uuids, fetch, f0, send, s0)
        == FailingElements(uuids[..n], fetch, f0, send, s0)
           + (if ElementFails(uuids, fetch, f0, send, s0, n) then {n} else {})
  {
    var n := |uuids| - 1;
    forall i: nat | i < n
      ensures ElementFails(uuids, fetch, f0, send, s0, i) == ElementFails(uuids[..n], fetch, f0, send, s0, i)
    {
      ElementFailsPrefix(uuids, n, fetch, f0, send, s0, i);
    }
  }

  /** With no identifier repeated, each failing element contributes its own identifier. */
  lemma {:induction false} DistinctFailedIdsCount(uuids: seq<Uuid>, fetch: ConceptOracle, f0: nat, send: SendOracle, s0: nat)
    requires forall i, j :: 0 <= i < j < |uuids| ==> uuids[i] != uuids[j]
    ensures |FailedIds(uuids, fetch, f0, send, s0)| == |FailingElements(uuids, fetch, f0, send, s0)|
    decreases |uuids|
  {
    if uuids != [] {
      var n := |uuids| - 1;
      var p := uuids[..n];
      assert forall i, j :: 0 <= i < j < |p| ==> p[i] != p[j] by {
        forall i, j | 0 <= i < j < |p| ensures p[i] != p[j] {
          assert p[i] == uuids[i] && p[j] == uuids[j];
        }
      }
      DistinctFailedIdsCount(p, fetch, f0, send, s0);
      FailedIdsSnoc(uuids, fetch, f0, send, s0);
      FailingElementsSnoc(uuids, fetch, f0, send, s0);
      forall i | 0 <= i < |p| ensures p[i] != uuids[n] {
        assert p[i] == uuids[i];
      }
      assert uuids[n] !in FailedIds(p, fetch, f0, send, s0);
      assert n !in FailingElements(p, fetch, f0, send, s0);
    }
  }

  /** When the input holds no identifier twice, the reported count is the number of failing
      elements. */
  lemma DistinctInputsCountFailingElements(uuids: seq<Uuid>, fetch: ConceptOracle, f0: nat, send: SendOracle, s0: nat)
    requires forall i, j :: 0 <= i < j < |uuids| ==> uuids[i] != uuids[j]
    ensures |Delivery(uuids, fetch, f0, send, s0).failed| == |FailingElements(uuids, fetch, f0, send, s0)|
  {
    var failed := Delivery(uuids, fetch, f0, send, s0).failed;
    FailedKeysAreFailedIds(uuids, fetch, f0, send, s0);
    DistinctFailedIdsCount(uuids, fetch, f0, send, s0);
    assert |failed| == |failed.Keys|;
  }

  /** The run records no failure exactly when no element fails. */
  lemma FullySuccessfulIff(uuids: seq<Uuid>, fetch: ConceptOracle, f0: nat, send: SendOracle, s0: nat)
    ensures Delivery(uuids, fetch, f0, send, s0).failed == map[]
        <==> forall i :: 0 <= i < |uuids| ==> !ElementFails(uuids, fetch, f0, send, s0, i)
  {
    var t := Delivery(uuids, fetch, f0, send, s0);
    FailedKeysAreFailedIds(uuids, fetch, f0, send, s0);
    if i :| 0 <= i < |uuids| && ElementFails(uuids, fetch, f0, send, s0, i) {
      assert uuids[i] in t.failed;
    }
    if t.failed != map[] {
      var u :| u in t.failed;
      assert u in FailedIds(uuids, fetch, f0, send, s0);
    }
  }

  /** A run in which every fetch and every send succeeds records no failure and sends every
      element's body, in order. */
  lemma {:induction false} AllSucceedSendsEach(uuids: seq<Uuid>, fetch: ConceptOracle, f0: nat, send: SendOracle, s0: nat)
    requires forall i :: 0 <= i < |uuids| ==> fetch(uuids[i], f0 + i).Success?
    requires forall body, k :: s0 <= k < s0 + |uuids| ==> send(body, k).None?
    ensures Delivery(uuids, fetch, f0, send, s0).failed == map[]
    ensures |Delivery(uuids, fetch, f0, send, s0).sent| == |uuids|
    ensures forall i :: 0 <= i < |uuids| ==> Delivery(uuids, fetch, f0, send, s0).sent[i] == fetch(uuids[i], f0 + i).value
    decreases |uuids|
  {
    if uuids != [] {
      var n := |uuids| - 1;
      AllSucceedSendsEach(uuids[..n], fetch, f0, send, s0);
    }
  }

  /** ForceNotify's result for a map of failures: an aggregate error reporting only its size. */
  function Verdict(failed: map<Uuid, Error>): (r: Option<NotifyError>)
    ensures r.None? <==> failed == map[]
    ensures r.Some? ==> r.value.IngestionFailures? && r.value.count == |failed| >= 1
  {
    if |failed| > 0 then Some(IngestionFailures(|failed|)) else None
  }

  /** What one Notify or ForceNotify call does: how many changed-list calls it makes, the
      identifiers it fetches (in call order), the bodies it sends, and the error it returns. */
  datatype Effect = Effect(listCalls: nat, fetched: seq<Uuid>, sent: seq<Payload>, err: Option<NotifyError>)

  /** ForceNotify(uuids): one fetch per element in input order, one send per successful fetch,
      and an error, reporting the number of distinct failed identifiers, exactly when some
      element failed. */
  function ForceNotifyEffect(uuids: seq<Uuid>, fetch: ConceptOracle, f0: nat, send: SendOracle, s0: nat): (e: Effect)
    ensures e.listCalls == 0 && e.fetched == uuids
    ensures e.sent == FetchedBodies(uuids, fetch, f0)
    ensures e.err.None? <==> forall i :: 0 <= i < |uuids| ==> !ElementFails(uuids, fetch, f0, send, s0, i)
    ensures e.err.Some? ==> e.err.value == IngestionFailures(|FailedIds(uuids, fetch, f0, send, s0)|)
    ensures uuids == [] ==> e == Effect(0, [], [], None)
  {
    var t := Delivery(uuids, fetch, f0, send, s0);
    SentAreFetchedBodies(uuids, fetch, f0, send, s0);
    FailedKeysAreFailedIds(uuids, fetch, f0, send, s0);
    FullySuccessfulIff(uuids, fetch, f0, send, s0);
    assert |t.failed| == |t.failed.Keys|;
    Effect(0, uuids, t.sent, Verdict(t.failed))
  }

  /** Notify(since): the first changed-list call is number l0, the retry (made only after an
      empty answer) number l0 + 1. */
  function NotifyEffect(since: Time, transactionId: string, lists: ListOracle, l0: nat,
                        fetch: ConceptOracle, f0: nat, send: SendOracle, s0: nat): (e: Effect)
    // the retry happens exactly when the first answer is an empty list, and never twice
    ensures 1 <= e.listCalls <= 2
    ensures e.listCalls == 2 <==> lists(since, l0) == Success([])
    // a failed first call is reported at once: no retry, no fetch, no send
    ensures lists(since, l0).Failure? ==>
      e == Effect(1, [], [], Some(ListFetchFailed(lists(since, l0).error)))
    // a failed retry is reported: no fetch, no send
    ensures lists(since, l0) == Success([]) && lists(since, l0 + 1).Failure? ==>
      e == Effect(2, [], [], Some(ListRetryFailed(lists(since, l0 + 1).error)))
    // two empty answers are an error, not a success: no fetch, no send
    ensures lists(since, l0) == Success([]) && lists(since, l0 + 1) == Success([]) ==>
      e == Effect(2, [], [], Some(NoChanges(since, transactionId)))
    // a non-empty answer is handed to ForceNotify whole
    ensures lists(since, l0).Success? && lists(since, l0).value != [] ==>
      e == ForceNotifyEffect(lists(since, l0).value, fetch, f0, send, s0).(listCalls := 1)
    ensures lists(since, l0) == Success([]) && lists(since, l0 + 1).Success? && lists(since, l0 + 1).value != [] ==>
      e == ForceNotifyEffect(lists(since, l0 + 1).value, fetch, f0, send, s0).(listCalls := 2)
    // Notify never succeeds without fetching something
    ensures e.err.None? ==> e.fetched != []
  {
    match lists(since, l0)
    case Failure(cause) => Effect(1, [], [], Some(ListFetchFailed(cause)))
    case Success(first) =>
      if first != [] then
        ForceNotifyEffect(first, fetch, f0, send, s0).(listCalls := 1)
      else
        match lists(since, l0 + 1)
        case Failure(cause) => Effect(2, [], [], Some(ListRetryFailed(cause)))
        case Success(second) =>
          if second == [] then Effect(2, [], [], Some(NoChanges(since, transactionId)))
          else ForceNotifyEffect(second, fetch, f0, send, s0).(listCalls := 2)
  }

  /** The retry on an empty answer: an empty first answer, then a one-concept answer whose
      fetch and send succeed: Notify succeeds after exactly one send. */
  lemma NotifyAfterRetrySendsOnce(since: Time, transactionId: string, lists: ListOracle, l0: nat,
                                  fetch: ConceptOracle, f0: nat, send: SendOracle, s0: nat, x: Uuid)
    requires lists(since, l0) == Success([]) && lists(since, l0 + 1) == Success([x])
    requires fetch(x, f0).Success? && send(fetch(x, f0).value, s0).None?
    ensures NotifyEffect(since, transactionId, lists, l0, fetch, f0, send, s0).err == None
    ensures |NotifyEffect(since, transactionId, lists, l0, fetch, f0, send, s0).sent| == 1
  {
  }

  /** The notifier's own Notify test: the first changed list is ["uuid2"], whose fetch and send
      succeed; Notify makes one list call, fetches and sends once, and succeeds. */
  lemma NotifySendsTheOneChange(since: Time, transactionId: string, lists: ListOracle, l0: nat,
                                fetch: ConceptOracle, f0: nat, send: SendOracle, s0: nat, body: Payload)
    requires lists(since, l0) == Success(["uuid2"])
    requires fetch("uuid2", f0) == Success(body) && send(body, s0).None?
    ensures NotifyEffect(since, transactionId, lists, l0, fetch, f0, send, s0) == Effect(1, ["uuid2"], [body], None)
  {
  }

  /** The notifier service: its two collaborators. */
  class Service {
    const producer: MessageProducer
    const slClient: SmartlogicClient

    constructor (producer: MessageProducer, slClient: SmartlogicClient)
      ensures this.producer == producer && this.slClient == slClient
    {
      this.producer := producer;
      this.slClient := slClient;
    }

    /** Pass-through to the Smartlogic client. */
    method GetConcept(uuid: Uuid) returns (r: Result<Payload, Error>)
      modifies slClient
      ensures r == slClient.concepts(uuid, |old(slClient.conceptCalls)|)
      ensures slClient.conceptCalls == old(slClient.conceptCalls) + [uuid]
      ensures slClient.listCalls == old(slClient.listCalls)
    {
      r := slClient.GetConcept(uuid);
    }

    /** Pass-through to the Smartlogic client. */
    method GetChangedConceptList(lastChange: Time) returns (r: Result<seq<Uuid>, Error>)
      modifies slClient
      ensures r == slClient.changedLists(lastChange, |old(slClient.listCalls)|)
      ensures slClient.listCalls == old(slClient.listCalls) + [lastChange]
      ensures slClient.conceptCalls == old(slClient.conceptCalls)
    {
      r := slClient.GetChangedConceptList(lastChange);
    }

    /** Pass-through to the producer's connectivity probe; its error is returned as it is. */
    method CheckKafkaConnectivity() returns (err: Option<Error>)
      modifies producer
      ensures err == producer.connectivity(old(producer.connectivityChecks))
      ensures producer.connectivityChecks == old(producer.connectivityChecks) + 1
      ensures producer.sendCalls == old(producer.sendCalls)
    {
      err := producer.ConnectivityCheck();
    }

    method Notify(lastChange: Time, transactionId: string) returns (err: Option<NotifyError>)
      modifies slClient, producer
      ensures
        var e := NotifyEffect(lastChange, transactionId, slClient.changedLists, |old(slClient.listCalls)|,
                              slClient.concepts, |old(slClient.conceptCalls)|,
                              producer.sendOutcomes, |old(producer.sendCalls)|);
        && slClient.listCalls == old(slClient.listCalls) + (if e.listCalls == 1 then [lastChange] else [lastChange, lastChange])
        && slClient.conceptCalls == old(slClient.conceptCalls) + e.fetched
        && producer.sendCalls == old(producer.sendCalls) + e.sent
        && err == e.err
      ensures producer.connectivityChecks == old(producer.connectivityChecks)
    {
      var changedConcepts := slClient.GetChangedConceptList(lastChange);
      if changedConcepts.Failure? {
        return Some(ListFetchFailed(changedConcepts.error));
      }
      var list := changedConcepts.value;
      if list == [] {
        // The five-second wait before the retry changes nothing observable here.
        changedConcepts := slClient.GetChangedConceptList(lastChange);
        if changedConcepts.Failure? {
          return Some(ListRetryFailed(changedConcepts.error));
        }
        list := changedConcepts.value;
      }
      if list == [] {
        return Some(NoChanges(lastChange, transactionId));
      }
      err := ForceNotify(list, transactionId);
    }

    method ForceNotify(uuids: seq<Uuid>, transactionId: string) returns (err: Option<NotifyError>)
      modifies slClient, producer
      ensures
        var e := ForceNotifyEffect(uuids, slClient.concepts, |old(slClient.conceptCalls)|,
                                   producer.sendOutcomes, |old(producer.sendCalls)|);
        && slClient.conceptCalls == old(slClient.conceptCalls) + e.fetched
        && producer.sendCalls == old(producer.sendCalls) + e.sent
        && err == e.err
      ensures slClient.listCalls == old(slClient.listCalls)
      ensures producer.connectivityChecks == old(producer.connectivityChecks)
    {
      ghost var f0, s0 := |slClient.conceptCalls|, |producer.sendCalls|;
      ghost var tally := Tally([], map[]);
      var errorMap: map<Uuid, Error> := map[];
      for i := 0 to |uuids|
        invariant tally == Delivery(uuids[..i], slClient.concepts, f0, producer.sendOutcomes, s0)
        invariant slClient.conceptCalls == old(slClient.conceptCalls) + uuids[..i]
        invariant producer.sendCalls == old(producer.sendCalls) + tally.sent
        invariant errorMap == tally.failed
        invariant slClient.listCalls == old(slClient.listCalls)
        invariant producer.connectivityChecks == old(producer.connectivityChecks)
      {
        DeliveryExtend(uuids, i, slClient.concepts, f0, producer.sendOutcomes, s0);
        errorMap, tally := NotifyConcept(uuids[i], errorMap, tally, old(producer.sendCalls));
      }
      assert uuids[..|uuids|] == uuids;
      err := Verdict(errorMap);
    }

    /** One pass of ForceNotify's loop body: fetch `conceptUuid`; on success send its body;
        record a failed fetch or send in the error map. `tally` is the loop state so far and
        `sentBefore` the sends made before the loop. */
    method NotifyConcept(conceptUuid: Uuid, errorMap: map<Uuid, Error>, ghost tally: Tally, ghost sentBefore: seq<Payload>)
      returns (errorMap': map<Uuid, Error>, ghost tally': Tally)
      requires errorMap == tally.failed && producer.sendCalls == sentBefore + tally.sent
      modifies slClient, producer
      ensures tally' == Step(tally, conceptUuid, slClient.concepts(conceptUuid, |old(slClient.conceptCalls)|),
                             producer.sendOutcomes, |sentBefore|)
      ensures errorMap' == tally'.failed && producer.sendCalls == sentBefore + tally'.sent
      ensures slClient.conceptCalls == old(slClient.conceptCalls) + [conceptUuid]
      ensures slClient.listCalls == old(slClient.listCalls)
      ensures producer.connectivityChecks == old(producer.connectivityChecks)
    {
      var concept := slClient.GetConcept(conceptUuid);
      if concept.Failure? {
        errorMap' := errorMap[conceptUuid := concept.error];
        tally' := Tally(tally.sent, errorMap');
        return;
      }
      // The message carries a fresh transaction id header; only its body is modelled.
      var sendErr := producer.SendMessage(concept.value);
      errorMap' := errorMap;
      if sendErr.Some? {
        errorMap' := errorMap[conceptUuid := sendErr.value];
      }
      tally' := Tally(tally.sent + [concept.value], errorMap');
    }
  }
}
