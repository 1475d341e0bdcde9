/** The collaborators the notifier service calls: the Smartlogic client (concept fetch and
    changed-list fetch) and the Kafka message producer. Their network behaviour is not
    modelled; each is scripted by a function that gives the answer to its k-th call, and each
    keeps a log of the calls made to it. */
module Upstream {
  import opened Outcomes

  /** A concept identifier. */
  type Uuid = string

  /** A point in time, in clock ticks; 0 is Go's zero time.Time. */
  type Time = int

  /** A concept's serialised representation, passed through unread. */
  type Payload = seq<bv8>

  /** The answer to the k-th GetConcept call, for the identifier it asks for. */
  type ConceptOracle = (Uuid, nat) -> Result<Payload, Error>

  /** The answer to the k-th GetChangedConceptList call, for the time it asks about. */
  type ListOracle = (Time, nat) -> Result<seq<Uuid>, Error>

  /** The outcome of the k-th SendMessage call, for the message body it is given. */
  type SendOracle = (Payload, nat) -> Option<Error>

  /** The answer to the k-th ConnectivityCheck call. */
  type ProbeOracle = nat -> Option<Error>

  /** smartlogic.Clienter, as far as the notifier uses it. */
  class SmartlogicClient {
    const concepts: ConceptOracle
    const changedLists: ListOracle
    /** The identifiers of every GetConcept call so far, in call order. */
    var conceptCalls: seq<Uuid>
    /** The time argument of every GetChangedConceptList call so far, in call order. */
    var listCalls: seq<Time>

    constructor (concepts: ConceptOracle, changedLists: ListOracle)
      ensures this.concepts == concepts && this.changedLists == changedLists
      ensures conceptCalls == [] && listCalls == []
    {
      this.concepts := concepts;
      this.changedLists := changedLists;
      conceptCalls := [];
      listCalls := [];
    }

    method GetConcept(uuid: Uuid) returns (r: Result<Payload, Error>)
      modifies this
      ensures r == concepts(uuid, |old(conceptCalls)|)
      ensures conceptCalls == old(conceptCalls) + [uuid] && listCalls == old(listCalls)
    {
      r := concepts(uuid, |conceptCalls|);
      conceptCalls := conceptCalls + [uuid];
    }

    method GetChangedConceptList(lastChange: Time) returns (r: Result<seq<Uuid>, Error>)
      modifies this
      ensures r == changedLists(lastChange, |old(listCalls)|)
      ensures listCalls == old(listCalls) + [lastChange] && conceptCalls == old(conceptCalls)
    {
      r := changedLists(lastChange, |listCalls|);
      listCalls := listCalls + [lastChange];
    }
  }

  /** The notifier's messageProducer: a Kafka producer. A message is known by its body. */
  class MessageProducer {
    const sendOutcomes: SendOracle
    const connectivity: ProbeOracle
    /** The body of every SendMessage call so far, whether it failed or not, in call order. */
    var sendCalls: seq<Payload>
    var connectivityChecks: nat

    constructor (sendOutcomes: SendOracle, connectivity: ProbeOracle)
      ensures this.sendOutcomes == sendOutcomes && this.connectivity == connectivity
      ensures sendCalls == [] && connectivityChecks == 0
    {
      this.sendOutcomes := sendOutcomes;
      this.connectivity := connectivity;
      sendCalls := [];
      connectivityChecks := 0;
    }

    method SendMessage(body: Payload) returns (err: Option<Error>)
      modifies this
      ensures err == sendOutcomes(body, |old(sendCalls)|)
      ensures sendCalls == old(sendCalls) + [body] && connectivityChecks == old(connectivityChecks)
    {
      err := sendOutcomes(body, |sendCalls|);
      sendCalls := sendCalls + [body];
    }

    method ConnectivityCheck() returns (err: Option<Error>)
      modifies this
      ensures err == connectivity(old(connectivityChecks))
      ensures connectivityChecks == old(connectivityChecks) + 1 && sendCalls == old(sendCalls)
    {
      err := connectivity(connectivityChecks);
      connectivityChecks := connectivityChecks + 1;
    }
  }
}
