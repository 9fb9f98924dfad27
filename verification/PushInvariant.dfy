/**
 What every interleaving of push deliveries keeps.
 */
module PushInvariant {
  import opened Wrappers
  import opened PushSpec

  predicate Started(d: Delivery) { !d.phase.Queued? }

  // Positions are numbered in registration order, and deliveries belong to registered events of their topic.
  ghost predicate OrderOk(p: Push) {
    && (forall i :: 0 <= i < |p.deliveries| ==> DeliveryOk(p, p.deliveries[i]))
    && (forall i, j :: 0 <= i < j < |p.deliveries| ==> p.deliveries[i].event <= p.deliveries[j].event)
  }

  ghost predicate DeliveryOk(p: Push, d: Delivery) {
    && d.event < |p.topics| && p.topics[d.event] == d.key.topic
    && d.attempts <= ATTEMPTS
    && (d.phase.Queued? ==> d.attempts == 0)
    && (d.phase.Sending? ==> d.attempts == d.phase.attempt)
    && (d.phase.BackingOff? ==> d.attempts == d.phase.attempt < ATTEMPTS)
    && (Started(d) ==> d.attempts > 0 || Superseded(p, d.event))
  }

  predicate SameQueue(p: Push, i: nat, j: nat)
    requires i < |p.deliveries| && j < |p.deliveries|
  {
    p.deliveries[i].key == p.deliveries[j].key
  }

  // All positions of the queue before i are done.
  ghost predicate ClearBefore(p: Push, i: nat)
    requires i < |p.deliveries|
  {
    forall j :: 0 <= j < i && SameQueue(p, j, i) ==> p.deliveries[j].phase.Done?
  }

  // k is the position of the same queue just before i.
  ghost predicate Before(p: Push, k: nat, i: nat)
    requires i < |p.deliveries|
  {
    k < i && SameQueue(p, k, i) && forall j :: k < j < i ==> !SameQueue(p, j, i)
  }

  ghost predicate QueuesOk(p: Push) {
    && (forall i :: 0 <= i < |p.deliveries| ==>
          if p.deliveries[i].previous.Some? then Before(p, p.deliveries[i].previous.value, i) else ClearBefore(p, i))
    && (forall i :: 0 <= i < |p.deliveries| && Started(p.deliveries[i]) ==> ClearBefore(p, i))
  }

  ghost predicate TailOk(p: Push, key: Key) {
    if key in p.tails
    then p.tails[key] < |p.deliveries| && p.deliveries[p.tails[key]].key == key
         && !p.deliveries[p.tails[key]].phase.Done?
         && forall j :: p.tails[key] < j < |p.deliveries| ==> p.deliveries[j].key != key
    else forall j :: 0 <= j < |p.deliveries| && p.deliveries[j].key == key ==> p.deliveries[j].phase.Done?
  }

  ghost predicate TailsOk(p: Push) { forall key :: TailOk(p, key) }

  // The marker names the newest event of its topic, and stays until that event is finished.
  ghost predicate LatestOk(p: Push) {
    && (forall t :: t in p.latest ==>
        && p.latest[t] < |p.topics| && p.topics[p.latest[t]] == t
        && !Superseded(p, p.latest[t]) && p.latest[t] !in p.finished)
    && (forall e :: 0 <= e < |p.topics| && !Superseded(p, e) && e !in p.finished ==> Newest(p, e))
    && (forall e :: e in p.finished ==> e < |p.topics| && EventDone(p, e))
  }

  ghost predicate EventDone(p: Push, e: Event) {
    forall i :: 0 <= i < |p.deliveries| && p.deliveries[i].event == e ==> p.deliveries[i].phase.Done?
  }

  // Attempts of one queue follow its positions.
  ghost predicate LogOk(p: Push) {
    && (forall k :: 0 <= k < |p.log| ==> p.log[k] < |p.deliveries| && Started(p.deliveries[p.log[k]]))
    && (forall k, l :: (0 <= k < l < |p.log| && p.log[k] < |p.deliveries| && p.log[l] < |p.deliveries|
                        && SameQueue(p, p.log[k], p.log[l]))
                       ==> p.log[k] <= p.log[l])
    && (forall i :: 0 <= i < |p.deliveries| ==> Tries(p.log, i) == p.deliveries[i].attempts)
  }

  // How often delivery i reached its provider.
  function Tries(log: seq<nat>, i: nat): nat {
    if log == [] then 0 else Tries(log[..|log| - 1], i) + if log[|log| - 1] == i then 1 else 0
  }

  lemma TriesMore(log: seq<nat>, i: nat, j: nat)
    ensures Tries(log + [i], j) == Tries(log, j) + if i == j then 1 else 0
  {
    assert (log + [i])[..|log|] == log;
  }

  lemma {:induction false} TriesNothing(log: seq<nat>, i: nat)
    requires forall k :: 0 <= k < |log| ==> log[k] != i
    ensures Tries(log, i) == 0
  {
    if log != [] { TriesNothing(log[..|log| - 1], i); }
  }

  ghost predicate Valid(p: Push) { OrderOk(p) && QueuesOk(p) && TailsOk(p) && LatestOk(p) && LogOk(p) }

  lemma InitialIsValid()
    ensures Valid(INITIAL)
  {
  }

  /********** One delivery changes **********/

  // Everything but the phase and the attempts of delivery i stays.
  ghost predicate Steps(p: Push, q: Push, i: nat) {
    && i < |p.deliveries| && |q.deliveries| == |p.deliveries| && q.topics == p.topics && q.finished == p.finished
    && q.latest == p.latest
    && (forall j :: 0 <= j < |p.deliveries| && j != i ==> q.deliveries[j] == p.deliveries[j])
    && q.deliveries[i] == p.deliveries[i].(phase := q.deliveries[i].phase, attempts := q.deliveries[i].attempts)
    && !p.deliveries[i].phase.Done? && Started(q.deliveries[i])
  }

  lemma StepsQueues(p: Push, q: Push, i: nat)
    requires Valid(p) && Steps(p, q, i) && ClearBefore(p, i)
    ensures QueuesOk(q)
  {
    forall j | 0 <= j < |q.deliveries|
      ensures if q.deliveries[j].previous.Some? then Before(q, q.deliveries[j].previous.value, j) else ClearBefore(q, j)
      ensures Started(q.deliveries[j]) ==> ClearBefore(q, j)
    {
      assert q.deliveries[j].previous == p.deliveries[j].previous && q.deliveries[j].key == p.deliveries[j].key;
      if p.deliveries[j].previous.Some? {
        assert Before(p, p.deliveries[j].previous.value, j);
        forall k | 0 <= k < |q.deliveries| ensures SameQueue(q, k, j) == SameQueue(p, k, j) { }
      } else {
        assert ClearBefore(p, j);
        StillClear(p, q, i, j);
      }
      if Started(q.deliveries[j]) {
        if j != i { assert Started(p.deliveries[j]); }
        StillClear(p, q, i, j);
      }
    }
  }

  // Nothing that is done becomes undone.
  lemma StillClear(p: Push, q: Push, i: nat, j: nat)
    requires Steps(p, q, i) && j < |p.deliveries| && ClearBefore(p, j)
    ensures ClearBefore(q, j)
  {
    forall k | 0 <= k < j && SameQueue(q, k, j) ensures q.deliveries[k].phase.Done? {
      assert SameQueue(p, k, j);
      if k == i { assert false; }
    }
  }

  lemma StepsOrder(p: Push, q: Push, i: nat)
    requires Valid(p) && Steps(p, q, i) && DeliveryOk(q, q.deliveries[i])
    ensures OrderOk(q)
  {
    forall j | 0 <= j < |q.deliveries| ensures DeliveryOk(q, q.deliveries[j]) {
      assert DeliveryOk(p, p.deliveries[j]);
      if j != i { assert Superseded(q, q.deliveries[j].event) == Superseded(p, p.deliveries[j].event); }
    }
  }

  lemma StepsLatest(p: Push, q: Push, i: nat)
    requires Valid(p) && Steps(p, q, i)
    ensures LatestOk(q)
  {
    forall e | e in q.finished ensures EventDone(q, e) {
      assert EventDone(p, e);
      forall j | 0 <= j < |q.deliveries| && q.deliveries[j].event == e ensures q.deliveries[j].phase.Done? {
        if j == i { assert false; }
      }
    }
    forall e | 0 <= e < |q.topics| ensures Superseded(q, e) == Superseded(p, e) && Newest(q, e) == Newest(p, e) { }
  }

  lemma StepsTails(p: Push, q: Push, i: nat)
    requires Valid(p) && Steps(p, q, i) && q.tails == p.tails && !q.deliveries[i].phase.Done?
    ensures TailsOk(q)
  {
    forall key ensures TailOk(q, key) {
      assert TailOk(p, key);
      if key !in q.tails {
        forall j | 0 <= j < |q.deliveries| && q.deliveries[j].key == key ensures q.deliveries[j].phase.Done? {
          if j == i { assert false; }
        }
      }
    }
  }

  // The last position of a queue is done and takes the queue with it.
  lemma ReleaseTails(p: Push, i: nat, stale: bool)
    requires Valid(p) && i < |p.deliveries| && !p.deliveries[i].phase.Done? && ClearBefore(p, i)
    ensures TailsOk(Release(p, i, stale))
  {
    var q := Release(p, i, stale);
    forall key ensures TailOk(q, key) {
      assert TailOk(p, key);
      if key !in q.tails {
        forall j | 0 <= j < |q.deliveries| && q.deliveries[j].key == key ensures q.deliveries[j].phase.Done? {
          if j < i { assert SameQueue(p, j, i) || key !in p.tails; }
        }
      }
    }
  }

  lemma StepsLog(p: Push, q: Push, i: nat)
    requires Valid(p) && Steps(p, q, i) && q.log == p.log && q.deliveries[i].attempts == p.deliveries[i].attempts
    ensures LogOk(q)
  {
    forall k, l | 0 <= k < l < |q.log| && q.log[k] < |q.deliveries| && q.log[l] < |q.deliveries|
      && SameQueue(q, q.log[k], q.log[l])
      ensures q.log[k] <= q.log[l]
    {
      assert SameQueue(p, p.log[k], p.log[l]);
    }
  }

  // A new attempt of i comes after every attempt of its queue.
  lemma AttemptLog(p: Push, q: Push, i: nat)
    requires Valid(p) && Steps(p, q, i) && q.log == p.log + [i]
    requires q.deliveries[i].attempts == p.deliveries[i].attempts + 1
    ensures LogOk(q)
  {
    forall k, l | 0 <= k < l < |q.log| && q.log[k] < |q.deliveries| && q.log[l] < |q.deliveries|
      && SameQueue(q, q.log[k], q.log[l])
      ensures q.log[k] <= q.log[l]
    {
      assert q.log[k] == p.log[k];
      if l < |p.log| {
        assert SameQueue(p, p.log[k], p.log[l]);
      } else {
        assert Started(p.deliveries[p.log[k]]) && SameQueue(p, i, p.log[k]) && ClearBefore(p, p.log[k]);
      }
    }
    forall j | 0 <= j < |q.deliveries| ensures Tries(q.log, j) == q.deliveries[j].attempts { TriesMore(p.log, i, j); }
  }

  lemma ReleaseKeeps(p: Push, i: nat, stale: bool)
    requires Valid(p) && i < |p.deliveries| && !p.deliveries[i].phase.Done? && ClearBefore(p, i)
    requires p.deliveries[i].attempts > 0 || Superseded(p, p.deliveries[i].event)
    ensures Valid(Release(p, i, stale))
  {
    var q := Release(p, i, stale);
    assert DeliveryOk(p, p.deliveries[i]);
    assert Superseded(q, p.deliveries[i].event) == Superseded(p, p.deliveries[i].event);
    assert Steps(p, q, i);
    StepsOrder(p, q, i);
    StepsQueues(p, q, i);
    StepsLatest(p, q, i);
    StepsLog(p, q, i);
    ReleaseTails(p, i, stale);
  }

  lemma AttemptKeeps(p: Push, i: nat, attempt: nat)
    requires Valid(p) && i < |p.deliveries| && !p.deliveries[i].phase.Done? && !p.deliveries[i].phase.Sending?
    requires ClearBefore(p, i)
    requires attempt == p.deliveries[i].attempts + 1
    ensures Valid(Attempt(p, i, attempt))
  {
    var d := p.deliveries[i];
    var q := Attempt(p, i, attempt);
    assert DeliveryOk(p, d);
    if attempt > ATTEMPTS {
      ReleaseKeeps(p, i, false);
    } else if !Newest(p, d.event) {
      // an unfinished event that is not the newest was superseded
      if d.event in p.finished { assert EventDone(p, d.event); }
      ReleaseKeeps(p, i, false);
    } else {
      assert Steps(p, q, i);
      assert DeliveryOk(q, q.deliveries[i]);
      StepsOrder(p, q, i);
      StepsQueues(p, q, i);
      StepsLatest(p, q, i);
      StepsTails(p, q, i);
      AttemptLog(p, q, i);
    }
  }

  /********** Turns **********/

  // A position whose predecessor resolved is first among the unfinished of its queue.
  lemma TurnIsClear(p: Push, i: nat)
    requires Valid(p) && i < |p.deliveries| && Turn(p, i)
    ensures ClearBefore(p, i)
  {
    var previous := p.deliveries[i].previous;
    if previous.Some? {
      assert Before(p, previous.value, i);
      assert Started(p.deliveries[previous.value]) && ClearBefore(p, previous.value);
      forall j | 0 <= j < i && SameQueue(p, j, i) ensures p.deliveries[j].phase.Done? {
        if j < previous.value { assert SameQueue(p, j, previous.value); }
      }
    }
  }

  // The promise chain resolves as soon as its last position is done: all before it are done already.
  lemma {:induction false} DoneResolves(p: Push, i: nat)
    requires Valid(p) && i < |p.deliveries| && p.deliveries[i].phase.Done?
    ensures Resolved(p.deliveries, i)
    decreases i
  {
    var previous := p.deliveries[i].previous;
    if previous.Some? {
      assert Before(p, previous.value, i) && Started(p.deliveries[i]);
      assert ClearBefore(p, i);
      DoneResolves(p, previous.value);
    }
  }

  /** A queued delivery may start exactly when every earlier delivery of its queue is done. */
  lemma TurnExactly(p: Push, i: nat)
    requires Valid(p) && i < |p.deliveries| && p.deliveries[i].phase.Queued?
    ensures Turn(p, i) <==> ClearBefore(p, i)
  {
    if Turn(p, i) { TurnIsClear(p, i); }
    if ClearBefore(p, i) && p.deliveries[i].previous.Some? {
      assert Before(p, p.deliveries[i].previous.value, i);
      DoneResolves(p, p.deliveries[i].previous.value);
    }
  }

  lemma ActiveIsClear(p: Push, i: nat)
    requires Valid(p) && i < |p.deliveries| && Started(p.deliveries[i])
    ensures ClearBefore(p, i)
  {
  }

  /********** Registration **********/

  // While event e, the newest of its topic, takes its queue positions.
  ghost predicate Registering(p: Push, e: Event, topic: Topic) {
    Valid(p) && e + 1 == |p.topics| && p.topics[e] == topic && e !in p.finished && Newest(p, e)
  }

  function Enqueued(p: Push, e: Event, key: Key): Push {
    var previous := if key in p.tails then Some(p.tails[key]) else None;
    p.(deliveries := p.deliveries + [Delivery(e, key, previous, Queued, 0)], tails := p.tails[key := |p.deliveries|])
  }

  lemma EnqueuedQueues(p: Push, e: Event, key: Key)
    requires Valid(p)
    ensures QueuesOk(Enqueued(p, e, key))
  {
    var q := Enqueued(p, e, key);
    var n := |p.deliveries|;
    assert TailOk(p, key);
    forall i | 0 <= i < |q.deliveries|
      ensures if q.deliveries[i].previous.Some? then Before(q, q.deliveries[i].previous.value, i) else ClearBefore(q, i)
      ensures Started(q.deliveries[i]) ==> ClearBefore(q, i)
    {
      if i < n {
        assert q.deliveries[i] == p.deliveries[i];
        if p.deliveries[i].previous.Some? {
          assert Before(p, p.deliveries[i].previous.value, i);
        } else {
          assert ClearBefore(p, i);
        }
        forall k | 0 <= k < i ensures SameQueue(q, k, i) == SameQueue(p, k, i) { }
        if Started(p.deliveries[i]) { assert ClearBefore(p, i); }
      }
    }
  }

  lemma EnqueuedTails(p: Push, e: Event, key: Key)
    requires Valid(p)
    ensures TailsOk(Enqueued(p, e, key))
  {
    var q := Enqueued(p, e, key);
    forall other ensures TailOk(q, other) { assert TailOk(p, other); }
  }

  lemma EnqueuedLatest(p: Push, e: Event, topic: Topic, endpoint: Endpoint)
    requires Registering(p, e, topic)
    ensures LatestOk(Enqueued(p, e, Key(topic, endpoint)))
  {
    var q := Enqueued(p, e, Key(topic, endpoint));
    forall f | 0 <= f < |q.topics| ensures Superseded(q, f) == Superseded(p, f) && Newest(q, f) == Newest(p, f) { }
    forall f | f in q.finished ensures EventDone(q, f) { assert EventDone(p, f); }
  }

  lemma EnqueuedLog(p: Push, e: Event, key: Key)
    requires Valid(p)
    ensures LogOk(Enqueued(p, e, key))
  {
    hide OrderOk;
    var q := Enqueued(p, e, key);
    forall k, l | 0 <= k < l < |q.log| && q.log[k] < |q.deliveries| && q.log[l] < |q.deliveries|
      && SameQueue(q, q.log[k], q.log[l])
      ensures q.log[k] <= q.log[l]
    {
      assert SameQueue(p, p.log[k], p.log[l]);
    }
    TriesNothing(p.log, |p.deliveries|);
  }

  lemma EnqueuedKeeps(p: Push, e: Event, topic: Topic, endpoint: Endpoint)
    requires Registering(p, e, topic)
    ensures Registering(Enqueued(p, e, Key(topic, endpoint)), e, topic)
  {
    var q := Enqueued(p, e, Key(topic, endpoint));
    EnqueuedQueues(p, e, Key(topic, endpoint));
    EnqueuedTails(p, e, Key(topic, endpoint));
    EnqueuedLatest(p, e, topic, endpoint);
    EnqueuedLog(p, e, Key(topic, endpoint));
    forall i | 0 <= i < |p.deliveries| ensures DeliveryOk(q, q.deliveries[i]) {
      assert DeliveryOk(p, p.deliveries[i]);
      assert Superseded(q, p.deliveries[i].event) == Superseded(p, p.deliveries[i].event);
    }
  }

  lemma {:induction false} EnqueueKeeps(p: Push, e: Event, topic: Topic, endpoints: seq<Endpoint>)
    requires Registering(p, e, topic)
    ensures Registering(Enqueue(p, e, topic, endpoints), e, topic)
    decreases |endpoints|
  {
    if endpoints != [] {
      EnqueuedKeeps(p, e, topic, endpoints[0]);
      EnqueueKeeps(Enqueued(p, e, Key(topic, endpoints[0])), e, topic, endpoints[1..]);
    }
  }

  lemma MarkKeeps(p: Push, topic: Topic)
    requires Valid(p)
    ensures Registering(p.(topics := p.topics + [topic], latest := p.latest[topic := |p.topics|]), |p.topics|, topic)
  {
    var e := |p.topics|;
    var q := p.(topics := p.topics + [topic], latest := p.latest[topic := e]);
    forall i | 0 <= i < |q.deliveries| ensures DeliveryOk(q, q.deliveries[i]) {
      assert DeliveryOk(p, p.deliveries[i]);
      SupersededStays(p, topic, p.deliveries[i].event);
    }
    QueuesApart(p, q);
    MarkLatest(p, topic);
  }

  lemma SupersededStays(p: Push, topic: Topic, e: Event)
    requires e < |p.topics|
    ensures Superseded(p, e)
            ==> Superseded(p.(topics := p.topics + [topic], latest := p.latest[topic := |p.topics|]), e)
  {
    if Superseded(p, e) {
      var f :| e < f < |p.topics| && p.topics[f] == p.topics[e];
      assert (p.topics + [topic])[f] == (p.topics + [topic])[e];
    }
  }

  // Markers and finished events are no part of the queues.
  lemma QueuesApart(p: Push, q: Push)
    requires Valid(p) && q.deliveries == p.deliveries && q.tails == p.tails && q.log == p.log
    ensures QueuesOk(q) && TailsOk(q) && LogOk(q)
  {
    forall i | 0 <= i < |q.deliveries|
      ensures if q.deliveries[i].previous.Some? then Before(q, q.deliveries[i].previous.value, i) else ClearBefore(q, i)
      ensures Started(q.deliveries[i]) ==> ClearBefore(q, i)
    {
      if p.deliveries[i].previous.Some? {
        assert Before(p, p.deliveries[i].previous.value, i);
      } else {
        assert ClearBefore(p, i);
      }
      forall k | 0 <= k < i ensures SameQueue(q, k, i) == SameQueue(p, k, i) { }
      if Started(p.deliveries[i]) { assert ClearBefore(p, i); }
    }
    forall key ensures TailOk(q, key) { assert TailOk(p, key); }
    forall k, l | 0 <= k < l < |q.log| && q.log[k] < |q.deliveries| && q.log[l] < |q.deliveries|
      && SameQueue(q, q.log[k], q.log[l])
      ensures q.log[k] <= q.log[l]
    {
      assert SameQueue(p, p.log[k], p.log[l]);
    }
  }

  lemma LaterDiffers(p: Push, f: nat, g: nat)
    requires f < g < |p.topics| && !Superseded(p, f)
    ensures p.topics[g] != p.topics[f]
  {
  }

  lemma MarkLatest(p: Push, topic: Topic)
    requires Valid(p)
    ensures LatestOk(p.(topics := p.topics + [topic], latest := p.latest[topic := |p.topics|]))
  {
    var e := |p.topics|;
    var q := p.(topics := p.topics + [topic], latest := p.latest[topic := e]);
    forall f | 0 <= f < |q.topics| && !Superseded(q, f) && f !in q.finished ensures Newest(q, f) {
      if f < e {
        assert q.topics[f] == p.topics[f];
        SupersededStays(p, topic, f);
        LaterDiffers(q, f, e);
      }
    }
    forall t | t in q.latest
      ensures q.latest[t] < |q.topics| && q.topics[q.latest[t]] == t && !Superseded(q, q.latest[t])
    {
      if t != topic {
        var f := p.latest[t];
        forall g | f < g < |q.topics|
          ensures q.topics[g] != q.topics[f]
        {
          assert g < e ==> p.topics[g] == q.topics[g];
        }
      }
    }
    forall f | f in q.finished ensures EventDone(q, f) { assert EventDone(p, f); }
  }

  lemma FinishKeeps(p: Push, e: Event)
    requires Valid(p) && e < |p.topics| && EventDone(p, e)
    ensures Valid(Finish(p, e))
  {
    var q := Finish(p, e);
    forall i | 0 <= i < |q.deliveries| ensures DeliveryOk(q, q.deliveries[i]) {
      assert DeliveryOk(p, p.deliveries[i]);
      assert Superseded(q, p.deliveries[i].event) == Superseded(p, p.deliveries[i].event);
    }
    QueuesApart(p, q);
    forall f | 0 <= f < |q.topics| ensures Superseded(q, f) == Superseded(p, f) { }
    forall f | 0 <= f < |q.topics| && !Superseded(q, f) && f !in q.finished
      ensures Newest(q, f)
    {
      assert Newest(p, f);
    }
    forall f | f in q.finished ensures EventDone(q, f) { assert EventDone(p, f); }
  }

  lemma AnsweredKeeps(p: Push, i: nat, answer: Answer)
    requires Valid(p) && i < |p.deliveries| && p.deliveries[i].phase.Sending?
    ensures Valid(Answered(p, i, answer))
  {
    var d := p.deliveries[i];
    var q := Answered(p, i, answer);
    ActiveIsClear(p, i);
    assert DeliveryOk(p, d);
    if q.deliveries[i].phase.BackingOff? {
      assert Steps(p, q, i);
      StepsOrder(p, q, i);
      StepsQueues(p, q, i);
      StepsLatest(p, q, i);
      StepsLog(p, q, i);
      StepsTails(p, q, i);
    } else {
      ReleaseKeeps(p, i, answer.Gone?);
    }
  }

  lemma RegisterKeeps(p: Push, topic: Topic, endpoints: seq<Endpoint>)
    requires Valid(p)
    ensures Valid(Register(p, topic, endpoints))
  {
    MarkKeeps(p, topic);
    EnqueueKeeps(p.(topics := p.topics + [topic], latest := p.latest[topic := |p.topics|]), |p.topics|, topic,
                 endpoints);
  }

  lemma AttemptsMatch(p: Push, i: nat)
    requires Valid(p) && i < |p.deliveries|
    ensures DeliveryOk(p, p.deliveries[i])
  {
  }

  lemma StartKeeps(p: Push, i: nat)
    requires Valid(p) && i < |p.deliveries| && Turn(p, i)
    ensures Valid(Attempt(p, i, 1))
  {
    TurnIsClear(p, i);
    AttemptsMatch(p, i);
    AttemptKeeps(p, i, 1);
  }

  lemma WakesKeeps(p: Push, i: nat)
    requires Valid(p) && i < |p.deliveries| && p.deliveries[i].phase.BackingOff?
    ensures Valid(Attempt(p, i, p.deliveries[i].phase.attempt + 1))
  {
    hide Valid, Attempt, ClearBefore, Superseded;
    ActiveIsClear(p, i);
    AttemptsMatch(p, i);
    AttemptKeeps(p, i, p.deliveries[i].phase.attempt + 1);
  }

  lemma AbortsKeeps(p: Push, i: nat)
    requires Valid(p) && i < |p.deliveries| && p.deliveries[i].phase.BackingOff? && Superseded(p, p.deliveries[i].event)
    ensures Valid(Release(p, i, false))
  {
    ActiveIsClear(p, i);
    ReleaseKeeps(p, i, false);
  }

  lemma NextKeepsValid(p: Push, a: Action)
    requires Valid(p) && Enabled(p, a)
    ensures Valid(Next(p, a))
  {
    match a
    case Notify(topic, endpoints) => RegisterKeeps(p, topic, endpoints);
    case Start(i) => StartKeeps(p, i);
    case Answers(i, answer) => AnsweredKeeps(p, i, answer);
    case Wakes(i) => WakesKeeps(p, i);
    case Aborts(i) => AbortsKeeps(p, i);
    case Finishes(e) => FinishKeeps(p, e);
  }
}
