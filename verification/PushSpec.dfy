/**
 Push delivery as a state machine (apps/server/src/push-service.ts): one step runs from one await to the next.

 A delivery carries one event to one endpoint. Deliveries of one (topic, endpoint) wait for each other in a
 chain of promises; the provider may answer and timers may fire at any time. Payloads, hashes and the wording
 of log lines are left out.
 */
module PushSpec {
  import opened Wrappers

  type Topic = nat
  type Endpoint = nat
  type Event = nat  // numbered in registration order

  datatype Key = Key(topic: Topic, endpoint: Endpoint)

  const ATTEMPTS := 3

  // Where one delivery stands; the number is the attempt that runs or comes next.
  datatype Phase = Queued | Sending(attempt: nat) | BackingOff(attempt: nat) | Done(stale: bool)

  // `previous` is the queue position that this one waits for; positions are numbered as they are taken.
  datatype Delivery = Delivery(event: Event, key: Key, previous: Option<nat>, phase: Phase, attempts: nat)

  datatype Push = Push(
    topics: seq<Topic>,             // topic of every registered event
    latest: map<Topic, Event>,      // latestEvents
    tails: map<Key, nat>,           // deliveryQueues
    deliveries: seq<Delivery>,
    finished: set<Event>,           // events whose notify returned
    log: seq<nat>)                  // the delivery of every provider attempt, in order

  const INITIAL := Push([], map[], map[], [], {}, [])

  /********** Queue positions **********/

  // The promise of a position resolves when its gate is open and the position before it resolved.
  predicate Resolved(deliveries: seq<Delivery>, i: nat)
    decreases i
  {
    && i < |deliveries| && deliveries[i].phase.Done?
    && (deliveries[i].previous.Some? ==>
        deliveries[i].previous.value < i && Resolved(deliveries, deliveries[i].previous.value))
  }

  predicate Turn(p: Push, i: nat)
    requires i < |p.deliveries|
  {
    var previous := p.deliveries[i].previous;
    p.deliveries[i].phase.Queued? && (previous.Some? ==> previous.value < i && Resolved(p.deliveries, previous.value))
  }

  function Set(p: Push, i: nat, d: Delivery): Push
    requires i < |p.deliveries|
  {
    p.(deliveries := p.deliveries[i := d])
  }

  // The gate opens; the last position of a queue takes the queue with it.
  function Release(p: Push, i: nat, stale: bool): Push
    requires i < |p.deliveries|
  {
    var d := p.deliveries[i];
    var q := Set(p, i, d.(phase := Done(stale)));
    if d.key in p.tails && p.tails[d.key] == i then q.(tails := q.tails - {d.key}) else q
  }

  predicate Newest(p: Push, e: Event) {
    e < |p.topics| && p.topics[e] in p.latest && p.latest[p.topics[e]] == e
  }

  // One round of the delivery loop, up to the provider's answer.
  function Attempt(p: Push, i: nat, attempt: nat): Push
    requires i < |p.deliveries|
  {
    var d := p.deliveries[i];
    if attempt > ATTEMPTS || !Newest(p, d.event) then Release(p, i, false)
    else Set(p, i, d.(phase := Sending(attempt), attempts := d.attempts + 1)).(log := p.log + [i])
  }

  /********** Steps **********/

  // The provider's answer: accepted, gone, or a failure with its status class and the delay before a retry.
  datatype Answer = Accepted | Gone | Failure(retryable: bool, reasonable: bool)

  datatype Action =
    | Notify(topic: Topic, endpoints: seq<Endpoint>)
    | Start(delivery: nat)
    | Answers(delivery: nat, answer: Answer)
    | Wakes(delivery: nat)
    | Aborts(delivery: nat)
    | Finishes(event: Event)

  predicate DistinctEndpoints(endpoints: seq<Endpoint>) {
    forall i, j :: 0 <= i < j < |endpoints| ==> endpoints[i] != endpoints[j]
  }

  predicate Superseded(p: Push, e: Event) {
    exists f :: e < f < |p.topics| && e < |p.topics| && p.topics[f] == p.topics[e]
  }

  predicate Enabled(p: Push, a: Action) {
    match a
    case Notify(topic, endpoints) => DistinctEndpoints(endpoints)  // the store keeps one subscription per endpoint
    case Start(i) => i < |p.deliveries| && Turn(p, i)
    case Answers(i, answer) => i < |p.deliveries| && p.deliveries[i].phase.Sending?
    case Wakes(i) => i < |p.deliveries| && p.deliveries[i].phase.BackingOff?
    case Aborts(i) => i < |p.deliveries| && p.deliveries[i].phase.BackingOff? && Superseded(p, p.deliveries[i].event)
    case Finishes(e) =>
      e < |p.topics| && e !in p.finished && forall i :: 0 <= i < |p.deliveries| && p.deliveries[i].event == e ==>
        p.deliveries[i].phase.Done?
  }

  // Take the queue positions of one event.
  function Enqueue(p: Push, e: Event, topic: Topic, endpoints: seq<Endpoint>): Push
    decreases |endpoints|
  {
    if endpoints == [] then p
    else
      var key := Key(topic, endpoints[0]);
      var previous := if key in p.tails then Some(p.tails[key]) else None;
      Enqueue(p.(deliveries := p.deliveries + [Delivery(e, key, previous, Queued, 0)],
                 tails := p.tails[key := |p.deliveries|]),
              e, topic, endpoints[1..])
  }

  function Register(p: Push, topic: Topic, endpoints: seq<Endpoint>): Push {
    var e := |p.topics|;
    Enqueue(p.(topics := p.topics + [topic], latest := p.latest[topic := e]), e, topic, endpoints)
  }

  function Answered(p: Push, i: nat, answer: Answer): Push
    requires i < |p.deliveries| && p.deliveries[i].phase.Sending?
  {
    var d := p.deliveries[i];
    match answer
    case Accepted => Release(p, i, false)
    case Gone => Release(p, i, true)
    case Failure(retryable, reasonable) =>
      if d.phase.attempt < ATTEMPTS && retryable && reasonable && !Superseded(p, d.event)
      then Set(p, i, d.(phase := BackingOff(d.phase.attempt)))
      else Release(p, i, false)
  }

  function Finish(p: Push, e: Event): Push
    requires e < |p.topics|
  {
    var q := p.(finished := p.finished + {e});
    if Newest(p, e) then q.(latest := q.latest - {p.topics[e]}) else q
  }

  function Next(p: Push, a: Action): Push
    requires Enabled(p, a)
  {
    match a
    case Notify(topic, endpoints) => Register(p, topic, endpoints)
    case Start(i) => Attempt(p, i, 1)
    case Answers(i, answer) => Answered(p, i, answer)
    case Wakes(i) => Attempt(p, i, p.deliveries[i].phase.attempt + 1)
    case Aborts(i) => Release(p, i, false)
    case Finishes(e) => Finish(p, e)
  }
}
