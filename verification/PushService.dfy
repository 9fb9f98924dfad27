/**
 Push delivery in every run, and the service as a class.
 */
module PushService {
  import opened Wrappers
  import opened PushSpec
  import opened PushInvariant

  function Perform(p: Push, a: Action): Push { if Enabled(p, a) then Next(p, a) else p }

  function After(p: Push, actions: seq<Action>): Push
    decreases |actions|
  {
    if actions == [] then p else After(Perform(p, actions[0]), actions[1..])
  }

  lemma {:induction false} AfterKeepsValid(p: Push, actions: seq<Action>)
    requires Valid(p)
    ensures Valid(After(p, actions))
    decreases |actions|
  {
    if actions != [] {
      if Enabled(p, actions[0]) { NextKeepsValid(p, actions[0]); }
      AfterKeepsValid(Perform(p, actions[0]), actions[1..]);
    }
  }

  predicate Active(d: Delivery) { d.phase.Sending? || d.phase.BackingOff? }

  /** Provider attempts of one (topic, endpoint) never overlap, and neither do the waits between them. */
  lemma AttemptsNeverOverlap(actions: seq<Action>, i: nat, j: nat)
    requires var p := After(INITIAL, actions);
             i < |p.deliveries| && j < |p.deliveries| && SameQueue(p, i, j) && Active(p.deliveries[i])
               && Active(p.deliveries[j])
    ensures i == j
  {
    InitialIsValid();
    AfterKeepsValid(INITIAL, actions);
    ActiveAlone(After(INITIAL, actions), i, j);
  }

  lemma ActiveAlone(p: Push, i: nat, j: nat)
    requires Valid(p) && i < |p.deliveries| && j < |p.deliveries| && SameQueue(p, i, j)
    requires Active(p.deliveries[i]) && Active(p.deliveries[j])
    ensures i == j
  {
    ActiveIsClear(p, i);
    ActiveIsClear(p, j);
    assert SameQueue(p, j, i);
  }

  lemma LogInOrder(p: Push, k: nat, l: nat)
    requires Valid(p) && k < l < |p.log| && p.log[k] < |p.deliveries| && p.log[l] < |p.deliveries|
    requires SameQueue(p, p.log[k], p.log[l])
    ensures p.deliveries[p.log[k]].event <= p.deliveries[p.log[l]].event
  {
    assert p.log[k] <= p.log[l];
  }

  /** Attempts of one (topic, endpoint) start in the order in which their events were registered, at most three each. */
  lemma AttemptsAreOrdered(actions: seq<Action>, k: nat, l: nat)
    requires var p := After(INITIAL, actions);
             && k < l < |p.log| && p.log[k] < |p.deliveries| && p.log[l] < |p.deliveries|
             && SameQueue(p, p.log[k], p.log[l])
    ensures var p := After(INITIAL, actions);
            p.deliveries[p.log[k]].event <= p.deliveries[p.log[l]].event && Tries(p.log, p.log[k]) <= ATTEMPTS
  {
    hide After;
    InitialIsValid();
    AfterKeepsValid(INITIAL, actions);
    LoggedInOrder(After(INITIAL, actions), k, l);
  }

  lemma LoggedInOrder(p: Push, k: nat, l: nat)
    requires Valid(p) && k < l < |p.log| && p.log[k] < |p.deliveries| && p.log[l] < |p.deliveries|
    requires SameQueue(p, p.log[k], p.log[l])
    ensures p.deliveries[p.log[k]].event <= p.deliveries[p.log[l]].event && Tries(p.log, p.log[k]) <= ATTEMPTS
  {
    hide QueuesOk, TailsOk, LatestOk;
    assert p.log[k] <= p.log[l];
    AttemptsMatch(p, p.log[k]);
  }

  /** A superseded event starts no further attempt. */
  lemma SupersededStartsNothing(p: Push, a: Action)
    requires Valid(p) && Enabled(p, a)
    ensures |Next(p, a).log| <= |p.log| + 1 && p.log <= Next(p, a).log
    ensures |Next(p, a).log| == |p.log| + 1
            ==> var i := Next(p, a).log[|p.log|]; i < |p.deliveries| && !Superseded(p, p.deliveries[i].event)
  {
    if a.Notify? {
      EnqueueLog(p.(topics := p.topics + [a.topic], latest := p.latest[a.topic := |p.topics|]), |p.topics|, a.topic,
                 a.endpoints);
    }
  }

  lemma {:induction false} EnqueueLog(p: Push, e: Event, topic: Topic, endpoints: seq<Endpoint>)
    ensures Enqueue(p, e, topic, endpoints).log == p.log && p.deliveries <= Enqueue(p, e, topic, endpoints).deliveries
    decreases |endpoints|
  {
    if endpoints != [] { EnqueueLog(Enqueued(p, e, Key(topic, endpoints[0])), e, topic, endpoints[1..]); }
  }

  ghost predicate Delivers(p: Push, i: nat, e: Event, endpoint: Endpoint) {
    i < |p.deliveries| && p.deliveries[i].event == e && p.deliveries[i].key.endpoint == endpoint
  }

  lemma {:induction false} EnqueueCovers(p: Push, e: Event, topic: Topic, endpoints: seq<Endpoint>, endpoint: Endpoint)
    requires endpoint in endpoints
    ensures exists i: nat :: Delivers(Enqueue(p, e, topic, endpoints), i, e, endpoint)
    decreases |endpoints|
  {
    var q := Enqueued(p, e, Key(topic, endpoints[0]));
    assert Enqueue(p, e, topic, endpoints) == Enqueue(q, e, topic, endpoints[1..]);
    if endpoint == endpoints[0] {
      EnqueueLog(q, e, topic, endpoints[1..]);
      assert Delivers(Enqueue(q, e, topic, endpoints[1..]), |p.deliveries|, e, endpoint);
    } else {
      EnqueueCovers(q, e, topic, endpoints[1..], endpoint);
    }
  }

  /** Registering an event takes a queue position for every endpoint of its snapshot. */
  lemma EveryEndpointIsQueued(p: Push, topic: Topic, endpoints: seq<Endpoint>, endpoint: Endpoint)
    requires endpoint in endpoints
    ensures exists i: nat :: Delivers(Register(p, topic, endpoints), i, |p.topics|, endpoint)
  {
    var q := p.(topics := p.topics + [topic], latest := p.latest[topic := |p.topics|]);
    EnqueueCovers(q, |p.topics|, topic, endpoints, endpoint);
    assert Register(p, topic, endpoints) == Enqueue(q, |p.topics|, topic, endpoints);
  }

  /** An event that finishes as the newest of its topic was tried at every endpoint of its snapshot. */
  lemma NewestIsTried(actions: seq<Action>, i: nat)
    requires var p := After(INITIAL, actions);
             i < |p.deliveries| && p.deliveries[i].event in p.finished && !Superseded(p, p.deliveries[i].event)
    ensures 1 <= Tries(After(INITIAL, actions).log, i) <= ATTEMPTS
  {
    InitialIsValid();
    AfterKeepsValid(INITIAL, actions);
    var p := After(INITIAL, actions);
    AttemptsMatch(p, i);
    assert EventDone(p, p.deliveries[i].event);
  }

  // The first unfinished position of a queue.
  ghost predicate Front(p: Push, i: nat) {
    i < |p.deliveries| && !p.deliveries[i].phase.Done? && ClearBefore(p, i)
  }

  lemma {:induction false} FrontExists(p: Push, j: nat)
    requires j < |p.deliveries| && !p.deliveries[j].phase.Done?
    ensures exists i: nat :: Front(p, i) && i <= j && SameQueue(p, i, j)
    decreases j
  {
    if ClearBefore(p, j) {
      assert Front(p, j);
    } else {
      var k: nat :| 0 <= k < j && SameQueue(p, k, j) && !p.deliveries[k].phase.Done?;
      FrontExists(p, k);
      var i: nat :| Front(p, i) && i <= k && SameQueue(p, i, k);
      assert SameQueue(p, i, j);
    }
  }

  // What the front of a queue waits for: nothing, the provider's answer, or the end of its backoff.
  function Progress(p: Push, i: nat): Action
    requires i < |p.deliveries|
  {
    match p.deliveries[i].phase
    case Queued => Start(i)
    case Sending(_) => Answers(i, Accepted)
    case BackingOff(_) => Wakes(i)
    case Done(_) => Start(i)
  }

  /** A queue with an unfinished delivery is never stuck: its front can always go on. */
  lemma QueueIsNeverStuck(actions: seq<Action>, j: nat)
    requires var p := After(INITIAL, actions); j < |p.deliveries| && !p.deliveries[j].phase.Done?
    ensures var p := After(INITIAL, actions);
            exists i: nat :: i < |p.deliveries| && SameQueue(p, i, j) && Enabled(p, Progress(p, i))
              && !p.deliveries[i].phase.Done?
  {
    InitialIsValid();
    AfterKeepsValid(INITIAL, actions);
    var p := After(INITIAL, actions);
    FrontExists(p, j);
    var i: nat :| Front(p, i) && i <= j && SameQueue(p, i, j);
    if p.deliveries[i].phase.Queued? { TurnExactly(p, i); }
    assert Enabled(p, Progress(p, i));
  }

  /** In every run, a topic is marked exactly while its newest event is unfinished, and with that event. */
  lemma MarkedExactly(actions: seq<Action>, t: Topic, e: Event)
    ensures var p := After(INITIAL, actions);
            t in p.latest && p.latest[t] == e
            <==> e < |p.topics| && p.topics[e] == t && !Superseded(p, e) && e !in p.finished
  {
    InitialIsValid();
    AfterKeepsValid(INITIAL, actions);
    var p := After(INITIAL, actions);
    if e < |p.topics| && !Superseded(p, e) && e !in p.finished { assert Newest(p, e); }
  }

  /** In every run, a (topic, endpoint) has a queue exactly while a delivery of it is not over. */
  lemma QueuedExactly(actions: seq<Action>, key: Key)
    ensures var p := After(INITIAL, actions);
            key in p.tails
            <==> exists i: nat :: i < |p.deliveries| && p.deliveries[i].key == key && !p.deliveries[i].phase.Done?
  {
    InitialIsValid();
    AfterKeepsValid(INITIAL, actions);
    assert TailOk(After(INITIAL, actions), key);
  }

  /********** How a delivery ends **********/

  lemma {:induction false} Extends(p: Push, actions: seq<Action>, a: Action)
    ensures After(p, actions + [a]) == Perform(After(p, actions), a)
    decreases |actions|
  {
    if actions == [] {
      assert actions + [a] == [a] && [a][1..] == [];
    } else {
      assert (actions + [a])[0] == actions[0] && (actions + [a])[1..] == actions[1..] + [a];
      Extends(Perform(p, actions[0]), actions[1..], a);
    }
  }

  // What a step does to a delivery: its provider says that the endpoint is gone; a failed attempt is to be repeated;
  // the wait for that is over; the delivery is over.
  datatype Deed = Rejects | Retries | Resumes | Ends

  // A failed attempt is repeated if two are left, or one, the failure and its delay allow it, and no newer event came.
  predicate Repeats(p: Push, i: nat, answer: Answer) {
    && i < |p.deliveries| && answer == Failure(true, true)
    && (Tries(p.log, i) == 1 || Tries(p.log, i) == 2) && !Superseded(p, p.deliveries[i].event)
  }

  predicate Does(p: Push, a: Action, i: nat, deed: Deed) {
    && i < |p.deliveries| && Enabled(p, a)
    && match deed
       case Rejects => a == Answers(i, Gone)
       case Retries => a.Answers? && a.delivery == i && Repeats(p, i, a.answer)
       case Resumes => a == Wakes(i) || a == Aborts(i)
       case Ends =>
         || (a.Answers? && a.delivery == i && !Repeats(p, i, a.answer))
         || a == Aborts(i)
         || ((a == Start(i) || a == Wakes(i)) && Superseded(p, p.deliveries[i].event))
  }

  ghost predicate Done(actions: seq<Action>, i: nat, deed: Deed) {
    exists j: nat :: j < |actions| && Does(After(INITIAL, actions[..j]), actions[j], i, deed)
  }

  // A failed attempt is to be repeated, and the wait for that is not over.
  ghost predicate Waits(actions: seq<Action>, i: nat) {
    exists j: nat :: WaitsSince(actions, i, j)
  }

  ghost predicate WaitsSince(actions: seq<Action>, i: nat, j: nat) {
    && j < |actions| && Does(After(INITIAL, actions[..j]), actions[j], i, Retries)
    && forall k :: j < k < |actions| ==> !Does(After(INITIAL, actions[..k]), actions[k], i, Resumes)
  }

  lemma DoneMore(actions: seq<Action>, a: Action, i: nat, deed: Deed)
    ensures Done(actions + [a], i, deed) <==> Done(actions, i, deed) || Does(After(INITIAL, actions), a, i, deed)
  {
    var more, n := actions + [a], |actions|;
    assert forall k :: 0 <= k <= n ==> more[..k] == actions[..k];
    assert actions[..n] == actions && more[n] == a;
    if Done(actions, i, deed) {
      var j: nat :| j < n && Does(After(INITIAL, actions[..j]), actions[j], i, deed);
      assert Does(After(INITIAL, more[..j]), more[j], i, deed);
    }
    if Does(After(INITIAL, actions), a, i, deed) { assert Does(After(INITIAL, more[..n]), more[n], i, deed); }
    if Done(more, i, deed) {
      var j: nat :| j < |more| && Does(After(INITIAL, more[..j]), more[j], i, deed);
      if j < n { assert Does(After(INITIAL, actions[..j]), actions[j], i, deed); }
    }
  }

  lemma WaitsMore(actions: seq<Action>, a: Action, i: nat)
    ensures Waits(actions + [a], i) <==>
            || Does(After(INITIAL, actions), a, i, Retries)
            || (Waits(actions, i) && !Does(After(INITIAL, actions), a, i, Resumes))
  {
    var more, n := actions + [a], |actions|;
    assert forall k :: 0 <= k <= n ==> more[..k] == actions[..k];
    assert actions[..n] == actions && more[n] == a;
    if Does(After(INITIAL, actions), a, i, Retries) { assert WaitsSince(more, i, n); }
    if Waits(actions, i) && !Does(After(INITIAL, actions), a, i, Resumes) {
      var j: nat :| WaitsSince(actions, i, j);
      assert WaitsSince(more, i, j);
    }
    if Waits(more, i) {
      var j: nat :| WaitsSince(more, i, j);
      if j < n { assert WaitsSince(actions, i, j); }
    }
  }

  // What the steps so far make of delivery i.
  ghost predicate Traced(actions: seq<Action>, p: Push, i: nat) {
    if i < |p.deliveries| then
      var phase := p.deliveries[i].phase;
      && (phase == Phase.Done(true) <==> Done(actions, i, Rejects))
      && (phase.Done? <==> Done(actions, i, Ends))
      && (phase.BackingOff? <==> Waits(actions, i))
    else
      !Done(actions, i, Rejects) && !Done(actions, i, Ends) && !Waits(actions, i)
  }

  // One step, by what it does to delivery i.
  lemma StepTraces(p: Push, a: Action, i: nat)
    requires Valid(p) && Enabled(p, a) && i < |p.deliveries|
    ensures var q := Next(p, a);
            && i < |q.deliveries|
            && (q.deliveries[i].phase == Phase.Done(true)
                <==> p.deliveries[i].phase == Phase.Done(true) || Does(p, a, i, Rejects))
            && (q.deliveries[i].phase.Done? <==> p.deliveries[i].phase.Done? || Does(p, a, i, Ends))
            && (q.deliveries[i].phase.BackingOff?
                <==> Does(p, a, i, Retries) || (p.deliveries[i].phase.BackingOff? && !Does(p, a, i, Resumes)))
  {
    hide Valid, Superseded, Newest, Tries, Answered;
    AttemptsMatch(p, i);
    TriesMatch(p, i);
    match a
    case Notify(topic, endpoints) =>
      var q := p.(topics := p.topics + [topic], latest := p.latest[topic := |p.topics|]);
      EnqueueLog(q, |p.topics|, topic, endpoints);
    case Start(k) => if k == i { NewestExactly(p, i); }
    case Wakes(k) => if k == i { NewestExactly(p, i); }
    case Answers(k, answer) => AnswersTraces(p, k, answer, i);
    case _ =>
  }

  lemma AnswersTraces(p: Push, k: nat, answer: Answer, i: nat)
    requires Enabled(p, Answers(k, answer)) && i < |p.deliveries| && Tries(p.log, i) == p.deliveries[i].attempts
    requires DeliveryOk(p, p.deliveries[i])
    ensures var q, a := Answered(p, k, answer), Answers(k, answer);
            && i < |q.deliveries|
            && (q.deliveries[i].phase == Phase.Done(true)
                <==> p.deliveries[i].phase == Phase.Done(true) || Does(p, a, i, Rejects))
            && (q.deliveries[i].phase.Done? <==> p.deliveries[i].phase.Done? || Does(p, a, i, Ends))
            && (q.deliveries[i].phase.BackingOff? <==> Does(p, a, i, Retries) || p.deliveries[i].phase.BackingOff?)
  {
    hide Superseded, Tries;
  }

  lemma TriesMatch(p: Push, i: nat)
    requires Valid(p) && i < |p.deliveries|
    ensures Tries(p.log, i) == p.deliveries[i].attempts
  {
  }

  // The marker of an unfinished event says whether a newer one came.
  lemma NewestExactly(p: Push, i: nat)
    requires Valid(p) && i < |p.deliveries| && !p.deliveries[i].phase.Done?
    ensures Newest(p, p.deliveries[i].event) <==> !Superseded(p, p.deliveries[i].event)
  {
    AttemptsMatch(p, i);
    if p.deliveries[i].event in p.finished { FinishedIsDone(p, i); }
  }

  lemma FinishedIsDone(p: Push, i: nat)
    requires Valid(p) && i < |p.deliveries| && p.deliveries[i].event in p.finished
    ensures p.deliveries[i].phase.Done?
  {
    assert EventDone(p, p.deliveries[i].event);
  }

  lemma NewDelivery(p: Push, a: Action, i: nat)
    requires Valid(p) && Enabled(p, a) && |p.deliveries| <= i < |Next(p, a).deliveries|
    ensures Next(p, a).deliveries[i].phase.Queued?
  {
    if a.Notify? {
      EnqueueQueued(p.(topics := p.topics + [a.topic], latest := p.latest[a.topic := |p.topics|]), |p.topics|, a.topic,
                    a.endpoints, i);
    }
  }

  lemma {:induction false} EnqueueQueued(p: Push, e: Event, topic: Topic, endpoints: seq<Endpoint>, i: nat)
    requires |p.deliveries| <= i < |Enqueue(p, e, topic, endpoints).deliveries|
    ensures Enqueue(p, e, topic, endpoints).deliveries[i].phase.Queued?
    decreases |endpoints|
  {
    if endpoints != [] {
      var q := Enqueued(p, e, Key(topic, endpoints[0]));
      EnqueueLog(q, e, topic, endpoints[1..]);
      if i > |p.deliveries| { EnqueueQueued(q, e, topic, endpoints[1..], i); }
    }
  }

  lemma TracedStep(actions: seq<Action>, p: Push, a: Action, i: nat)
    requires p == After(INITIAL, actions) && Valid(p) && Enabled(p, a) && Traced(actions, p, i)
    ensures Traced(actions + [a], Next(p, a), i)
  {
    hide Valid, Done, Waits, Enabled, Next;
    DoneMore(actions, a, i, Rejects);
    DoneMore(actions, a, i, Ends);
    WaitsMore(actions, a, i);
    if i < |p.deliveries| { StepTraces(p, a, i); }
    else if i < |Next(p, a).deliveries| { NewDelivery(p, a, i); }
  }

  lemma {:induction false} TracedRun(actions: seq<Action>, i: nat)
    ensures Traced(actions, After(INITIAL, actions), i)
    decreases |actions|
  {
    hide Traced, Valid, Next;
    if actions == [] {
      TracedStart(i);
    } else {
      var rest, a := actions[..|actions| - 1], actions[|actions| - 1];
      assert actions == rest + [a];
      TracedRun(rest, i);
      Extends(INITIAL, rest, a);
      InitialIsValid();
      AfterKeepsValid(INITIAL, rest);
      if Enabled(After(INITIAL, rest), a) {
        TracedStep(rest, After(INITIAL, rest), a, i);
      } else {
        TracedSkip(rest, a, i);
      }
    }
  }

  lemma TracedStart(i: nat)
    ensures Traced([], INITIAL, i)
  {
  }

  lemma TracedSkip(actions: seq<Action>, a: Action, i: nat)
    requires Traced(actions, After(INITIAL, actions), i) && !Enabled(After(INITIAL, actions), a)
    ensures Traced(actions + [a], After(INITIAL, actions), i)
  {
    hide Done, Waits;
    DoneMore(actions, a, i, Rejects);
    DoneMore(actions, a, i, Ends);
    WaitsMore(actions, a, i);
  }

  /**
   In every run, a delivery is stale if and only if its provider answered that the endpoint is gone; and it is over if
   and only if it was accepted, rejected, failed for good, was given up while it waited, or found a newer event.
   */
  lemma OverExactly(actions: seq<Action>, i: nat)
    requires i < |After(INITIAL, actions).deliveries|
    ensures var phase := After(INITIAL, actions).deliveries[i].phase;
            && (phase == Phase.Done(true) <==> Done(actions, i, Rejects))
            && (phase.Done? <==> Done(actions, i, Ends))
  {
    TracedRun(actions, i);
  }

  /**
   In every run, a delivery waits to be repeated if and only if its first or second attempt failed in a way that allows
   it, no newer event had come by then, and the wait has neither ended nor been interrupted since.
   */
  lemma BacksOffExactly(actions: seq<Action>, i: nat)
    requires i < |After(INITIAL, actions).deliveries|
    ensures After(INITIAL, actions).deliveries[i].phase.BackingOff? <==> Waits(actions, i)
  {
    TracedRun(actions, i);
  }

  // A provider answered that an event's endpoint is gone.
  ghost predicate GoneAt(actions: seq<Action>, e: Event, endpoint: Endpoint) {
    exists i: nat :: Delivers(After(INITIAL, actions), i, e, endpoint) && Done(actions, i, Rejects)
  }

  // What `notify` collects from the results of an event's deliveries, in their order.
  function Stale(deliveries: seq<Delivery>, e: Event): seq<Endpoint> {
    if deliveries == [] then []
    else
      var d := deliveries[|deliveries| - 1];
      Stale(deliveries[..|deliveries| - 1], e)
      + if d.event == e && d.phase == Phase.Done(true) then [d.key.endpoint] else []
  }

  ghost predicate HasStale(deliveries: seq<Delivery>, e: Event, endpoint: Endpoint) {
    exists i: nat :: i < |deliveries| && IsStale(deliveries[i], e, endpoint)
  }

  lemma HasStaleMore(rest: seq<Delivery>, d: Delivery, e: Event, endpoint: Endpoint)
    ensures HasStale(rest + [d], e, endpoint) <==> HasStale(rest, e, endpoint) || IsStale(d, e, endpoint)
  {
    hide IsStale;
    var all := rest + [d];
    assert all[|rest|] == d;
    if i: nat :| i < |rest| && IsStale(rest[i], e, endpoint) { assert IsStale(all[i], e, endpoint); }
    if i: nat :| i < |all| && IsStale(all[i], e, endpoint) {
      if i < |rest| { assert IsStale(rest[i], e, endpoint); }
    }
  }

  lemma {:induction false} StaleMembers(deliveries: seq<Delivery>, e: Event, endpoint: Endpoint)
    ensures endpoint in Stale(deliveries, e) <==> HasStale(deliveries, e, endpoint)
  {
    hide HasStale;
    if deliveries == [] {
      NoneStale(e, endpoint);
    } else {
      var rest, d := deliveries[..|deliveries| - 1], deliveries[|deliveries| - 1];
      StaleMembers(rest, e, endpoint);
      assert rest + [d] == deliveries;
      HasStaleMore(rest, d, e, endpoint);
    }
  }

  lemma NoneStale(e: Event, endpoint: Endpoint)
    ensures !HasStale([], e, endpoint)
  {
  }

  predicate IsStale(d: Delivery, e: Event, endpoint: Endpoint) {
    d.event == e && d.phase == Phase.Done(true) && d.key.endpoint == endpoint
  }

  /** In every run, what an event hands to `prune` is exactly the endpoints whose provider answered they are gone. */
  lemma StaleExactly(actions: seq<Action>, e: Event, endpoint: Endpoint)
    ensures endpoint in Stale(After(INITIAL, actions).deliveries, e) <==> GoneAt(actions, e, endpoint)
  {
    hide Done;
    var ds := After(INITIAL, actions).deliveries;
    StaleMembers(ds, e, endpoint);
    if endpoint in Stale(ds, e) {
      var i: nat :| i < |ds| && IsStale(ds[i], e, endpoint);
      OverExactly(actions, i);
      assert Delivers(After(INITIAL, actions), i, e, endpoint);
    }
    if GoneAt(actions, e, endpoint) {
      var i: nat :| Delivers(After(INITIAL, actions), i, e, endpoint) && Done(actions, i, Rejects);
      OverExactly(actions, i);
      assert IsStale(ds[i], e, endpoint);
    }
  }

  /********** The subscription store **********/

  datatype Subscription = Subscription(endpoint: Endpoint, expiration: int, auth: int, p256dh: int)

  // Entries of the store that no rejected registration equals.
  function Kept(all: map<Endpoint, Subscription>, stale: seq<Subscription>): map<Endpoint, Subscription> {
    map k | k in all && !(all[k] in stale && all[k].endpoint == k) :: all[k]
  }

  // `prune`: remove exactly the rejected registrations, never a replacement made during delivery.
  method Prune(all: map<Endpoint, Subscription>, stale: seq<Subscription>) returns (rest: map<Endpoint, Subscription>)
    ensures rest == Kept(all, stale)
    ensures forall k :: k in rest <==> k in all && forall s :: s in stale && s.endpoint == k ==> all[k] != s
    ensures forall k :: k in rest ==> rest[k] == all[k]
  {
    rest := all;
    for i := 0 to |stale|
      invariant rest == Kept(all, stale[..i])
    {
      var s := stale[i];
      assert stale[..i + 1] == stale[..i] + [s];
      if s.endpoint in rest && rest[s.endpoint] == s { rest := rest - {s.endpoint}; }
    }
    assert stale[..|stale|] == stale;
  }

  // One operation of the store: a mutation, or a snapshot for the deliveries of an event.
  datatype Operation = Subscribe(subscription: Subscription) | Expire(stale: seq<Subscription>) | Snapshot

  function Mutate(all: map<Endpoint, Subscription>, m: Operation): map<Endpoint, Subscription> {
    match m
    case Subscribe(s) => all[s.endpoint := s]
    case Expire(stale) => Kept(all, stale)
    case Snapshot => all
  }

  // The serialized store: operations in invocation order, and what the running mutation has read.
  datatype Store = Store(
    file: map<Endpoint, Subscription>,
    queue: seq<Operation>,
    settled: nat,                                    // operations that are over
    read: Option<map<Endpoint, Subscription>>,
    written: seq<nat>,                               // mutations whose write succeeded
    taken: map<nat, map<Endpoint, Subscription>>)    // what each snapshot returned

  datatype StoreAction = Invoke(operation: Operation) | Read(ok: bool) | Write(ok: bool)

  predicate StoreEnabled(s: Store, a: StoreAction) {
    match a
    case Invoke(m) => true
    case Read(ok) => s.settled < |s.queue| && s.read.None?
    case Write(ok) => s.settled < |s.queue| && s.read.Some?
  }

  function StoreNext(s: Store, a: StoreAction): Store
    requires StoreEnabled(s, a)
  {
    match a
    case Invoke(m) => s.(queue := s.queue + [m])
    case Read(ok) =>
      if !ok then s.(settled := s.settled + 1)
      else if s.queue[s.settled].Snapshot? then s.(settled := s.settled + 1, taken := s.taken[s.settled := s.file])
      else s.(read := Some(s.file))
    case Write(ok) =>
      var done := s.(settled := s.settled + 1, read := None);
      if ok then done.(file := Mutate(s.read.value, s.queue[s.settled]), written := s.written + [s.settled]) else done
  }

  ghost predicate StoreRun(s: Store, actions: seq<StoreAction>, s': Store)
    decreases |actions|
  {
    if actions == [] then s' == s
    else StoreEnabled(s, actions[0]) && StoreRun(StoreNext(s, actions[0]), actions[1..], s')
  }

  // The contents after these mutations, one after the other.
  function Replay(initial: map<Endpoint, Subscription>, queue: seq<Operation>,
                  written: seq<nat>): map<Endpoint, Subscription> {
    if written == [] then initial
    else
      var before := Replay(initial, queue, written[..|written| - 1]);
      var k := written[|written| - 1];
      if k < |queue| then Mutate(before, queue[k]) else before
  }

  // The mutations among these that were invoked before position k.
  function Earlier(written: seq<nat>, k: nat): seq<nat> {
    if written == [] then []
    else if written[0] < k then [written[0]] + Earlier(written[1..], k)
    else Earlier(written[1..], k)
  }

  predicate Increasing(written: seq<nat>) { forall i, j :: 0 <= i < j < |written| ==> written[i] < written[j] }

  // The snapshot at position k returned the effect of the mutations invoked before it.
  ghost predicate Took(initial: map<Endpoint, Subscription>, s: Store, k: nat)
    requires k in s.taken
  {
    k < s.settled <= |s.queue| && s.queue[k].Snapshot? && s.taken[k] == Replay(initial, s.queue, Earlier(s.written, k))
  }

  ghost predicate StoreValid(initial: map<Endpoint, Subscription>, s: Store) {
    && s.settled <= |s.queue|
    && (s.read.Some? ==> s.read.value == s.file && s.settled < |s.queue| && !s.queue[s.settled].Snapshot?)
    && (forall i :: 0 <= i < |s.written| ==> s.written[i] < s.settled && !s.queue[s.written[i]].Snapshot?)
    && Increasing(s.written)
    && s.file == Replay(initial, s.queue, s.written)
    && (forall k :: k in s.taken ==> Took(initial, s, k))
  }

  lemma {:induction false} ReplayStable(initial: map<Endpoint, Subscription>, queue: seq<Operation>, written: seq<nat>,
                                        m: Operation)
    requires forall i :: 0 <= i < |written| ==> written[i] < |queue|
    ensures Replay(initial, queue + [m], written) == Replay(initial, queue, written)
    decreases |written|
  {
    if written != [] { ReplayStable(initial, queue, written[..|written| - 1], m); }
  }

  lemma {:induction false} EarlierMembers(written: seq<nat>, k: nat)
    ensures forall x :: x in Earlier(written, k) ==> x in written
  {
    if written != [] { EarlierMembers(written[1..], k); }
  }

  // A later write changes no earlier snapshot.
  lemma {:induction false} EarlierStable(written: seq<nat>, n: nat, k: nat)
    requires k <= n
    ensures Earlier(written + [n], k) == Earlier(written, k)
  {
    if written == [] {
      assert [n][1..] == [];
    } else {
      assert (written + [n])[1..] == written[1..] + [n];
      EarlierStable(written[1..], n, k);
    }
  }

  lemma {:induction false} AllEarlier(written: seq<nat>, k: nat)
    requires forall i :: 0 <= i < |written| ==> written[i] < k
    ensures Earlier(written, k) == written
  {
    if written != [] { AllEarlier(written[1..], k); }
  }

  lemma InvokeKeeps(initial: map<Endpoint, Subscription>, s: Store, m: Operation)
    requires StoreValid(initial, s)
    ensures StoreValid(initial, StoreNext(s, Invoke(m)))
  {
    ReplayStable(initial, s.queue, s.written, m);
    var t := StoreNext(s, Invoke(m));
    forall k | k in s.taken ensures Took(initial, t, k) {
      assert Took(initial, s, k);
      EarlierMembers(s.written, k);
      forall i | 0 <= i < |Earlier(s.written, k)| ensures Earlier(s.written, k)[i] < |s.queue| {
        assert Earlier(s.written, k)[i] in s.written;
      }
      ReplayStable(initial, s.queue, Earlier(s.written, k), m);
    }
  }

  lemma WriteKeeps(initial: map<Endpoint, Subscription>, s: Store, ok: bool)
    requires StoreValid(initial, s) && StoreEnabled(s, Write(ok))
    ensures StoreValid(initial, StoreNext(s, Write(ok)))
  {
    var t := StoreNext(s, Write(ok));
    if ok { WriteReplays(initial, s); }
    forall k | k in s.taken ensures Took(initial, t, k) {
      assert Took(initial, s, k);
      EarlierStable(s.written, s.settled, k);
    }
  }

  lemma WriteReplays(initial: map<Endpoint, Subscription>, s: Store)
    requires s.settled < |s.queue| && s.file == Replay(initial, s.queue, s.written)
    ensures Replay(initial, s.queue, s.written + [s.settled]) == Mutate(s.file, s.queue[s.settled])
  {
    assert (s.written + [s.settled])[..|s.written|] == s.written;
  }

  lemma ReadKeeps(initial: map<Endpoint, Subscription>, s: Store, ok: bool)
    requires StoreValid(initial, s) && StoreEnabled(s, Read(ok))
    ensures StoreValid(initial, StoreNext(s, Read(ok)))
  {
    var t := StoreNext(s, Read(ok));
    AllEarlier(s.written, s.settled);
    forall k | k in t.taken ensures Took(initial, t, k) {
      if k in s.taken { assert Took(initial, s, k); }
    }
  }

  lemma StoreKeepsValid(initial: map<Endpoint, Subscription>, s: Store, a: StoreAction)
    requires StoreValid(initial, s) && StoreEnabled(s, a)
    ensures StoreValid(initial, StoreNext(s, a))
  {
    match a
    case Invoke(m) => InvokeKeeps(initial, s, m);
    case Read(ok) => ReadKeeps(initial, s, ok);
    case Write(ok) => WriteKeeps(initial, s, ok);
  }

  lemma {:induction false} StoreRunKeeps(initial: map<Endpoint, Subscription>, s: Store, actions: seq<StoreAction>,
                                         s': Store)
    requires StoreValid(initial, s) && StoreRun(s, actions, s')
    ensures StoreValid(initial, s')
    decreases |actions|
  {
    if actions != [] {
      StoreKeepsValid(initial, s, actions[0]);
      StoreRunKeeps(initial, StoreNext(s, actions[0]), actions[1..], s');
    }
  }

  /**
   In every run of the store, whatever reads and writes fail, no mutation is lost: the file is the effect of the
   mutations whose write succeeded, in the order they were invoked. And every snapshot is the effect of exactly
   those of them that were invoked before it.
   */
  lemma StoreSerializes(initial: map<Endpoint, Subscription>, actions: seq<StoreAction>, s: Store)
    requires StoreRun(Store(initial, [], 0, None, [], map[]), actions, s)
    ensures s.file == Replay(initial, s.queue, s.written) && Increasing(s.written)
    ensures forall k :: k in s.taken ==> Took(initial, s, k)
  {
    StoreRunKeeps(initial, Store(initial, [], 0, None, [], map[]), actions, s);
  }

  // The registration enters with this operation,
  predicate Enters(m: Operation, x: Subscription) { m == Subscribe(x) }

  // or goes with it: it is replaced, or rejected as it is.
  predicate Leaves(m: Operation, x: Subscription) {
    match m
    case Subscribe(y) => y.endpoint == x.endpoint && y != x
    case Expire(stale) => x in stale
    case Snapshot => false
  }

  // After these mutations registration x is there: since before them, or since one of them, and kept by the rest.
  ghost predicate Registers(initial: map<Endpoint, Subscription>, queue: seq<Operation>, written: seq<nat>,
                            x: Subscription)
    decreases |written|
  {
    if written == [] then x.endpoint in initial && initial[x.endpoint] == x
    else
      var k := written[|written| - 1];
      if k < |queue|
      then Enters(queue[k], x)
           || (!Leaves(queue[k], x) && Registers(initial, queue, written[..|written| - 1], x))
      else Registers(initial, queue, written[..|written| - 1], x)
  }

  lemma MutateHolds(all: map<Endpoint, Subscription>, m: Operation, x: Subscription)
    requires forall k :: k in all ==> all[k].endpoint == k
    ensures var after := Mutate(all, m);
            && (forall k :: k in after ==> after[k].endpoint == k)
            && (x.endpoint in after && after[x.endpoint] == x
                <==> Enters(m, x) || (!Leaves(m, x) && x.endpoint in all && all[x.endpoint] == x))
  {
  }

  lemma {:induction false} ReplayHolds(initial: map<Endpoint, Subscription>, queue: seq<Operation>, written: seq<nat>,
                                       x: Subscription)
    requires forall k :: k in initial ==> initial[k].endpoint == k
    ensures var all := Replay(initial, queue, written);
            && (forall k :: k in all ==> all[k].endpoint == k)
            && (x.endpoint in all && all[x.endpoint] == x <==> Registers(initial, queue, written, x))
    decreases |written|
  {
    hide Mutate, Enters, Leaves;
    if written != [] {
      var rest, k := written[..|written| - 1], written[|written| - 1];
      ReplayHolds(initial, queue, rest, x);
      if k < |queue| { MutateHolds(Replay(initial, queue, rest), queue[k], x); }
    }
  }

  /**
   In every run of the store, whatever fails: the file holds a registration if and only if it entered, or was there at
   the start, and no successful mutation since replaced or rejected it.
   */
  lemma FileHoldsExactly(initial: map<Endpoint, Subscription>, actions: seq<StoreAction>, s: Store, x: Subscription)
    requires StoreRun(Store(initial, [], 0, None, [], map[]), actions, s)
    requires forall k :: k in initial ==> initial[k].endpoint == k
    ensures x.endpoint in s.file && s.file[x.endpoint] == x <==> Registers(initial, s.queue, s.written, x)
  {
    StoreSerializes(initial, actions, s);
    ReplayHolds(initial, s.queue, s.written, x);
  }

  /** Every operation is over after its write, successful or not; a snapshot and a failed read end it at once. */
  lemma StoreAdvancesExactly(s: Store, a: StoreAction)
    requires StoreEnabled(s, a)
    ensures var t := StoreNext(s, a);
            && (t.settled == s.settled + 1 <==> a.Write? || (a.Read? && (!a.ok || s.queue[s.settled].Snapshot?)))
            && (t.settled == s.settled + 1 ==> t.read.None? || a.Read?)
            && (t.settled == s.settled + 1 || t.settled == s.settled)
    ensures s.settled < |s.queue| ==> exists b: StoreAction :: !b.Invoke? && StoreEnabled(s, b)
  {
    if s.settled < |s.queue| { assert StoreEnabled(s, if s.read.None? then Read(true) else Write(true)); }
  }

  /**
   When an event prunes, exactly those registrations of its snapshot go whose provider answered that they are gone, and
   that are still what the snapshot held.
   */
  lemma PruneExactly(actions: seq<Action>, e: Event, all: map<Endpoint, Subscription>,
                     snapshot: map<Endpoint, Subscription>, k: Endpoint)
    requires forall x :: x in all ==> all[x].endpoint == x
    requires forall x :: x in snapshot ==> snapshot[x].endpoint == x
    requires forall x :: x in Stale(After(INITIAL, actions).deliveries, e) ==> x in snapshot
    ensures k in Mutate(all, Expire(Registered(snapshot, Stale(After(INITIAL, actions).deliveries, e))))
       <==> k in all && !(GoneAt(actions, e, k) && k in snapshot && all[k] == snapshot[k])
  {
    hide GoneAt;
    StaleExactly(actions, e, k);
    var stale := Stale(After(INITIAL, actions).deliveries, e);
    if k in stale {
      var i :| 0 <= i < |stale| && stale[i] == k;
      assert Registered(snapshot, stale)[i] == snapshot[k];
    }
  }

  // The registrations of these endpoints.
  function Registered(snapshot: map<Endpoint, Subscription>, endpoints: seq<Endpoint>): seq<Subscription>
    requires forall x :: x in endpoints ==> x in snapshot
  {
    seq(|endpoints|, i requires 0 <= i < |endpoints| => snapshot[endpoints[i]])
  }

  /********** The service **********/

  predicate BothActive(p: Push, i: nat, j: nat) {
    i < |p.deliveries| && j < |p.deliveries| && SameQueue(p, i, j) && Active(p.deliveries[i]) && Active(p.deliveries[j])
  }

  // Attempts k and l of the log belong to one queue.
  predicate OneAfterAnother(p: Push, k: nat, l: nat) {
    && k < |p.log| && l < |p.log| && p.log[k] < |p.deliveries| && p.log[l] < |p.deliveries|
    && SameQueue(p, p.log[k], p.log[l])
  }

  // No two deliveries of one queue run at once, and attempts start in the order of their events.
  ghost predicate InTurn(p: Push) {
    && (forall i: nat, j: nat :: BothActive(p, i, j) ==> i == j)
    && (forall k: nat, l: nat :: k < l && OneAfterAnother(p, k, l) ==>
        p.deliveries[p.log[k]].event <= p.deliveries[p.log[l]].event)
  }

  lemma ValidInTurn(p: Push)
    requires Valid(p)
    ensures InTurn(p)
  {
    forall i: nat, j: nat | BothActive(p, i, j) ensures i == j { ActiveAlone(p, i, j); }
    forall k: nat, l: nat | k < l && OneAfterAnother(p, k, l)
      ensures p.deliveries[p.log[k]].event <= p.deliveries[p.log[l]].event
    {
      LogInOrder(p, k, l);
    }
  }

  class Service {
    var latest: map<Topic, Event>
    var tails: map<Key, nat>
    ghost var topics: seq<Topic>
    var deliveries: seq<Delivery>
    ghost var finished: set<Event>
    ghost var log: seq<nat>
    ghost var trace: seq<Action>
    var registered: nat

    ghost predicate Linked()
      reads this
    {
      registered == |topics|
    }

    ghost function View(): Push
      reads this
    {
      Push(topics, latest, tails, deliveries, finished, log)
    }

    ghost predicate Good()
      reads this
    {
      Linked() && Valid(View()) && View() == After(INITIAL, trace)
    }

    constructor ()
      ensures Good() && View() == INITIAL
    {
      latest, tails, topics, deliveries, finished, log, registered := map[], map[], [], [], {}, [], 0;
      trace := [];
      new;
      InitialIsValid();
    }

    // The synchronous part of `notify`: supersede the previous event and take every queue position.
    method OnNotify(topic: Topic, endpoints: seq<Endpoint>)
      requires Good() && DistinctEndpoints(endpoints)
      modifies this
      ensures Good() && InTurn(View()) && View() == Next(old(View()), Notify(topic, endpoints))
      ensures trace == old(trace) + [Notify(topic, endpoints)]
    {
      hide Valid, InTurn;
      Keeps(View(), Notify(topic, endpoints));
      Extends(INITIAL, trace, Notify(topic, endpoints));
      trace := trace + [Notify(topic, endpoints)];
      var event := registered;
      registered, topics := registered + 1, topics + [topic];
      latest := latest[topic := event];
      for i := 0 to |endpoints|
        invariant Linked() && Register(old(View()), topic, endpoints) == Enqueue(View(), event, topic, endpoints[i..])
        invariant trace == old(trace) + [Notify(topic, endpoints)]
      {
        assert endpoints[i..][0] == endpoints[i] && endpoints[i..][1..] == endpoints[i + 1..];
        Take(event, Key(topic, endpoints[i]));
      }
      assert endpoints[|endpoints|..] == [];
    }

    // `queuedDelivery` up to its await.
    method Take(event: Event, key: Key)
      requires Linked()
      modifies this`deliveries, this`tails
      ensures Linked() && View() == Enqueued(old(View()), event, key)
    {
      var previous := if key in tails then Some(tails[key]) else None;
      tails := tails[key := |deliveries|];
      deliveries := deliveries + [Delivery(event, key, previous, Queued, 0)];
    }

    // The `finally` of `queuedDelivery`.
    method Open(i: nat, stale: bool)
      requires Linked() && i < |deliveries|
      modifies this`deliveries, this`tails
      ensures Linked() && View() == Release(old(View()), i, stale)
    {
      var key := deliveries[i].key;
      deliveries := deliveries[i := deliveries[i].(phase := Done(stale))];
      if key in tails && tails[key] == i { tails := tails - {key}; }
    }

    // One round of `deliver`.
    method Round(i: nat, attempt: nat)
      requires Linked() && i < |deliveries| && deliveries[i].event < registered
      requires topics[deliveries[i].event] == deliveries[i].key.topic
      modifies this`deliveries, this`tails, this`log
      ensures Linked() && View() == Attempt(old(View()), i, attempt)
    {
      var d := deliveries[i];
      if attempt > ATTEMPTS || d.key.topic !in latest || latest[d.key.topic] != d.event {
        Open(i, false);
      } else {
        deliveries := deliveries[i := d.(phase := Sending(attempt), attempts := d.attempts + 1)];
        log := log + [i];
      }
    }

    // The position before this one was released.
    method OnTurn(i: nat)
      requires Good() && i < |deliveries| && Turn(View(), i)
      modifies this
      ensures Good() && InTurn(View()) && View() == Next(old(View()), Start(i))
      ensures trace == old(trace) + [Start(i)]
    {
      hide Valid, InTurn;
      Keeps(View(), Start(i));
      Extends(INITIAL, trace, Start(i));
      trace := trace + [Start(i)];
      TopicMatches(View(), i);
      Round(i, 1);
    }

    // A retry delay ended.
    method OnWake(i: nat)
      requires Good() && i < |deliveries| && deliveries[i].phase.BackingOff?
      modifies this
      ensures Good() && InTurn(View()) && View() == Next(old(View()), Wakes(i))
      ensures trace == old(trace) + [Wakes(i)]
    {
      hide Valid, InTurn;
      Keeps(View(), Wakes(i));
      Extends(INITIAL, trace, Wakes(i));
      trace := trace + [Wakes(i)];
      TopicMatches(View(), i);
      Round(i, deliveries[i].phase.attempt + 1);
    }

    // A newer event of the topic interrupts the retry delay.
    method OnAbort(i: nat)
      requires Good() && i < |deliveries| && deliveries[i].phase.BackingOff? && Superseded(View(), deliveries[i].event)
      modifies this
      ensures Good() && InTurn(View()) && View() == Next(old(View()), Aborts(i))
      ensures trace == old(trace) + [Aborts(i)]
    {
      hide Valid, InTurn;
      Keeps(View(), Aborts(i));
      Extends(INITIAL, trace, Aborts(i));
      trace := trace + [Aborts(i)];
      Open(i, false);
    }

    // What follows the provider's answer; `superseded` is the event's abort signal.
    method OnAnswer(i: nat, answer: Answer, superseded: bool)
      requires Good() && i < |deliveries| && deliveries[i].phase.Sending?
      requires superseded == Superseded(View(), deliveries[i].event)
      modifies this
      ensures Good() && InTurn(View()) && View() == Next(old(View()), Answers(i, answer))
      ensures trace == old(trace) + [Answers(i, answer)]
    {
      hide Valid, InTurn;
      Keeps(View(), Answers(i, answer));
      Extends(INITIAL, trace, Answers(i, answer));
      trace := trace + [Answers(i, answer)];
      var d := deliveries[i];
      match answer
      case Accepted => Open(i, false);
      case Gone => Open(i, true);
      case Failure(retryable, reasonable) =>
        if d.phase.attempt < ATTEMPTS && retryable && reasonable && !superseded {
          deliveries := deliveries[i := d.(phase := BackingOff(d.phase.attempt))];
        } else {
          Open(i, false);
        }
    }

    // Collect provider-expired endpoints.
    method Collect(event: Event) returns (stale: seq<Endpoint>)
      ensures stale == Stale(deliveries, event)
    {
      stale := [];
      for i := 0 to |deliveries|
        invariant stale == Stale(deliveries[..i], event)
      {
        assert deliveries[..i + 1] == deliveries[..i] + [deliveries[i]];
        if deliveries[i].event == event && deliveries[i].phase == Phase.Done(true) {
          stale := stale + [deliveries[i].key.endpoint];
        }
      }
      assert deliveries[..|deliveries|] == deliveries;
    }

    // The end of `notify`, once every delivery of the event is done: collect what to prune, and drop the marker.
    method OnFinish(event: Event, topic: Topic) returns (stale: seq<Endpoint>)
      requires Good() && Enabled(View(), Finishes(event)) && topics[event] == topic
      modifies this
      ensures Good() && InTurn(View()) && View() == Next(old(View()), Finishes(event))
      ensures trace == old(trace) + [Finishes(event)]
      ensures forall endpoint :: endpoint in stale <==> GoneAt(old(trace), event, endpoint)
    {
      hide Valid, InTurn;
      forall endpoint ensures endpoint in Stale(deliveries, event) <==> GoneAt(trace, event, endpoint) {
        StaleExactly(trace, event, endpoint);
      }
      stale := Collect(event);
      Keeps(View(), Finishes(event));
      Extends(INITIAL, trace, Finishes(event));
      trace := trace + [Finishes(event)];
      finished := finished + {event};
      if topic in latest && latest[topic] == event { latest := latest - {topic}; }
    }
  }

  lemma Keeps(p: Push, a: Action)
    requires Valid(p) && Enabled(p, a)
    ensures Valid(Next(p, a)) && InTurn(Next(p, a))
  {
    NextKeepsValid(p, a);
    ValidInTurn(Next(p, a));
  }

  // A delivery is queued under the topic of its event.
  lemma TopicMatches(p: Push, i: nat)
    requires Valid(p) && i < |p.deliveries|
    ensures p.deliveries[i].event < |p.topics| && p.topics[p.deliveries[i].event] == p.deliveries[i].key.topic
  {
    assert DeliveryOk(p, p.deliveries[i]);
  }
}
