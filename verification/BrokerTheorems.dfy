/**
 What holds in every run of the broker, for an arbitrary preview, arbitrary native answers and any other
 previews in the same window.
 */
module BrokerTheorems {
  import opened Wrappers
  import opened Protocol
  import opened BrokerSpec
  import opened BrokerInvariant
  import opened BrokerWork
  import opened BrokerConsent
  import opened BrokerPrompt
  import opened BrokerRequests

  datatype Step = Step(action: Action, env: Env)

  // A callback that does not exist does not fire.
  function Perform(s: State, step: Step): State {
    if Enabled(s, step.action) then Next(s, step.action, step.env) else s
  }

  function After(s: State, steps: seq<Step>): State
    decreases |steps|
  {
    if steps == [] then s else After(Perform(s, steps[0]), steps[1..])
  }

  lemma {:induction false} AfterKeepsValid(s: State, steps: seq<Step>)
    requires Valid(s)
    ensures Valid(After(s, steps))
    decreases |steps|
  {
    if steps != [] {
      if Enabled(s, steps[0].action) { NextKeepsValid(s, steps[0].action, steps[0].env); }
      AfterKeepsValid(Perform(s, steps[0]), steps[1..]);
    }
  }

  /********** Replay history **********/

  /** The replay history is bounded and holds every id that still owns something. */
  lemma OwnersStayRemembered(steps: seq<Step>)
    ensures var s := After(INITIAL, steps);
            if s.active.Some?
            then |s.active.value.requests| <= MAX_REMEMBERED && Protected(s) <= s.active.value.requests.Keys
            else Protected(s) == {}
  {
    InitialIsValid();
    AfterKeepsValid(INITIAL, steps);
    var s := After(INITIAL, steps);
    if s.active.Some? {
      OwnersAreRemembered(s);
      SizeIsLength(s.active.value.requests);
    } else { assert Ids(s.queue) == {}; }
  }

  /** No owning id can be used again within its document, however much history was pruned. */
  lemma OwnedIdIsRefused(s: State, client: Client, id: Id, op: Op, target: Id, env: Env)
    requires Valid(s) && Accepts(s, client) && id in Protected(s) && op != Connect
    ensures HandleMessage(s, Request(client, id, op, target), env)
              == Answer(s, s.generation, id, Failed, DuplicateRequest)
  {
    OwnersAreRemembered(s);
  }

  lemma {:induction false} OwnedStay(doc: Doc, owners: set<Id>, i: nat)
    requires DocOk(doc) && AllOwned(doc, owners) && i <= |doc.order|
    ensures Oldest(doc, owners, i).None?
    decreases |doc.order| - i
  {
    if i < |doc.order| {
      assert doc.order[i] in doc.order;
      OwnedStay(doc, owners, i + 1);
    }
  }

  /** A fresh request fails closed exactly when the history is full of owners. */
  lemma TooManyActiveExactly(s: State)
    requires Valid(s) && s.active.Some?
    ensures Size(Pruned(s).requests) >= MAX_REMEMBERED
       <==> Size(s.active.value.requests) == MAX_REMEMBERED && AllOwned(s.active.value, Protected(s))
  {
    PruneKeeps(s.active.value, Protected(s));
    if Size(s.active.value.requests) == MAX_REMEMBERED && AllOwned(s.active.value, Protected(s)) {
      OwnedStay(s.active.value, Protected(s), 0);
    }
  }

  lemma FourSizes<T>(a: set<T>, b: set<T>, c: set<T>, d: set<T>)
    ensures |a + b + c + d| <= |a| + |b| + |c| + |d|
  {
    UnionSize(a, b);
    UnionSize(a + b, c);
    UnionSize(a + b + c, d);
  }

  lemma QueueSize(s: State)
    requires BacklogOk(s.queue, ConsentIds(s.batches, s.generation))
    ensures |Ids(s.queue)| <= MAX_PENDING + MAX_IN_FLIGHT
  {
    BacklogSize(s.queue, ConsentIds(s.batches, s.generation));
    SetMono(Ids(s.queue), Ids(s.queue) + ConsentIds(s.batches, s.generation));
  }

  // Owners other than cancellations without work, at most.
  const MAX_OWNERS := MAX_PENDING + MAX_IN_FLIGHT + MAX_WATCHES + MAX_NOTIFICATIONS + MAX_IN_FLIGHT

  // What the history has room for beside them and the connection.
  const SPARE := MAX_REMEMBERED - MAX_OWNERS - 2

  lemma ProtectedSize(s: State, left: set<Id>)
    requires Valid(s) && s.cancelled <= s.inFlight + left
    ensures |Protected(s)| <= MAX_OWNERS + |left|
  {
    hide TablesOk, QueueOk, BatchesOk, PoolOk, BacklogOk, DeniedOk, ConsentIds, Ids, KeySet, Protected;
    QueueSize(s);
    FourSizes(Ids(s.queue), KeySet(s.watches), KeySet(s.notices), s.inFlight);
    ProtectedParts(s, left);
    var owners := Ids(s.queue) + KeySet(s.watches) + KeySet(s.notices) + s.inFlight;
    UnionSize(owners, left);
    SetMono(Protected(s), owners + left);
  }

  lemma ProtectedParts(s: State, left: set<Id>)
    requires s.cancelled <= s.inFlight + left
    ensures Protected(s) <= Ids(s.queue) + KeySet(s.watches) + KeySet(s.notices) + s.inFlight + left
  {
  }

  lemma OwnedSize(doc: Doc, owners: set<Id>)
    requires DocOk(doc) && AllOwned(doc, owners)
    ensures Size(doc.requests) <= |owners| + 1
  {
    var connects := set x | x in doc.requests && doc.requests[x] == Connect;
    AtMostOne(doc, connects);
    SetMono(KeySet(doc.requests), owners + connects);
    UnionSize(owners, connects);
  }

  lemma AtMostOne(doc: Doc, connects: set<Id>)
    requires DocOk(doc) && connects == set x | x in doc.requests && doc.requests[x] == Connect
    ensures |connects| <= 1
  {
    if connects != {} {
      var x :| x in connects;
      assert connects == {x};
    }
  }

  /** While at most 54 cancellations have outlived their work, a fresh request has room. */
  lemma RoomBeside(s: State, left: set<Id>)
    requires Valid(s) && s.active.Some? && s.cancelled <= s.inFlight + left && |left| <= SPARE
    ensures Size(Pruned(s).requests) < MAX_REMEMBERED
  {
    if Size(Pruned(s).requests) >= MAX_REMEMBERED {
      TooManyActiveExactly(s);
      ProtectedSize(s, left);
      OwnedSize(s.active.value, Protected(s));
      assert false;
    }
  }

  /** While every cancellation belongs to native work that is still running, a fresh request always has room. */
  lemma AlwaysRoom(s: State)
    requires Valid(s) && s.active.Some? && s.cancelled <= s.inFlight
    ensures Size(Pruned(s).requests) < MAX_REMEMBERED
  {
    hide Valid;
    RoomBeside(s, {});
  }

  /********** Native slots **********/

  // The slots of all unsettled work.
  function Slots(batches: map<nat, Batch>): set<nat> {
    set k, o | k in batches && o in batches[k].owners && Owns(batches, k, o) :: o
  }

  lemma PoolIsSlots(pool: set<nat>, batches: map<nat, Batch>, next: nat)
    requires PoolOk(pool, batches, next)
    ensures pool == Slots(batches)
    ensures forall j, k :: j in batches && k in batches && j != k ==> batches[j].owners !! batches[k].owners
  {
    forall o ensures o in pool <==> o in Slots(batches) {
      if o in pool {
        var k :| Owns(batches, k, o);
        assert k in batches && o in batches[k].owners;
      }
    }
    forall j, k | j in batches && k in batches && j != k ensures batches[j].owners !! batches[k].owners {
      forall o | o in batches[j].owners && o in batches[k].owners ensures false {
        assert Owns(batches, j, o) && Owns(batches, k, o);
      }
    }
  }

  /**
   In every run the window's slots are exactly the disjoint union of the slots of unsettled native work, of
   live and of replaced documents, and no bound is exceeded.
   */
  lemma SlotsAreConserved(steps: seq<Step>)
    ensures var s := After(INITIAL, steps);
            && s.pool == Slots(s.batches) && |s.pool| <= MAX_IN_FLIGHT
            && (forall j, k :: j in s.batches && k in s.batches && j != k ==>
                s.batches[j].owners !! s.batches[k].owners)
            && |s.inFlight| <= MAX_IN_FLIGHT && |s.watches| <= MAX_WATCHES && |s.notices| <= MAX_NOTIFICATIONS
  {
    InitialIsValid();
    AfterKeepsValid(INITIAL, steps);
    var s := After(INITIAL, steps);
    PoolIsSlots(s.pool, s.batches, s.next);
    SizeIsLength(s.watches);
    SizeIsLength(s.notices);
  }

  lemma {:induction false} DistinctSize(items: seq<Queued>)
    requires DistinctIds(items)
    ensures |Ids(items)| == |items|
  {
    if items == [] {
      assert Ids(items) == {};
    } else {
      IdsCons(items);
      HeadNotInTail(items);
      TailDistinct(items);
      DistinctSize(items[1..]);
    }
  }

  lemma DisjointSize<T>(a: set<T>, b: set<T>)
    requires a !! b
    ensures |a + b| == |a| + |b|
  {
  }

  /** Queued requests and requests inside open native prompts are at most 32 together. */
  lemma BacklogIsBounded(steps: seq<Step>)
    ensures var s := After(INITIAL, steps);
            |s.queue| + |ConsentIds(s.batches, s.generation)| <= MAX_PENDING + MAX_IN_FLIGHT
  {
    InitialIsValid();
    AfterKeepsValid(INITIAL, steps);
    var s := After(INITIAL, steps);
    WaitingSize(s);
  }

  lemma WaitingSize(s: State)
    requires Core(s)
    ensures |s.queue| + |ConsentIds(s.batches, s.generation)| <= MAX_PENDING + MAX_IN_FLIGHT
  {
    hide TablesOk, BatchesOk, PoolOk, BacklogOk, DeniedOk, ConsentIds, Ids;
    QueueIsDistinct(s);
    DistinctSize(s.queue);
    ConsentInFlight(s.batches, s.generation, s.active, s.inFlight, s.notices.Keys, s.next);
    DisjointSize(Ids(s.queue), ConsentIds(s.batches, s.generation));
    BacklogSize(s.queue, ConsentIds(s.batches, s.generation));
  }

  /** The click always decides the request that the prompt shows. */
  lemma PromptIsHead(steps: seq<Step>)
    ensures var s := After(INITIAL, steps);
            s.prompt == if s.queue == [] then None else Some(s.queue[0])
  {
    InitialIsValid();
    AfterKeepsValid(INITIAL, steps);
  }

  /********** Denials **********/

  // From a denial on, the document is still there and still denies, or it is gone for good.
  ghost predicate DeniedSince(s: State, g: nat, cap: Capability, start: nat) {
    && start <= |s.runs|
    && g <= s.generation
    && (s.generation == g ==> s.active.Some? && cap in s.active.value.denied)
    && (forall i :: start <= i < |s.runs| ==> s.runs[i].doc == g ==> s.runs[i].cap != cap)
  }

  lemma DeniedStep(s: State, s': State, g: nat, cap: Capability, start: nat)
    requires Valid(s) && Valid(s') && Transition(s, s') && DeniedSince(s, g, cap, start)
    ensures DeniedSince(s', g, cap, start)
  {
    forall i | start <= i < |s'.runs| && s'.runs[i].doc == g ensures s'.runs[i].cap != cap {
      if i < |s.runs| { assert s'.runs[i] == s.runs[i]; }
    }
  }

  lemma {:induction false} DeniedFromHere(s: State, steps: seq<Step>, g: nat, cap: Capability, start: nat)
    requires Valid(s) && DeniedSince(s, g, cap, start)
    ensures DeniedSince(After(s, steps), g, cap, start)
    decreases |steps|
  {
    if steps != [] {
      if Enabled(s, steps[0].action) {
        NextKeepsValid(s, steps[0].action, steps[0].env);
        DeniedStep(s, Perform(s, steps[0]), g, cap, start);
      }
      DeniedFromHere(Perform(s, steps[0]), steps[1..], g, cap, start);
    }
  }

  /**
   Once a document denies a capability, by the user's click or by the native prompt, nothing ever starts
   native work for that capability in that document again: not the queue, a re-queued sibling, a saved
   grant or a sibling of a granted clipboard call.
   */
  lemma DenialHolds(before: seq<Step>, after: seq<Step>, cap: Capability)
    requires var s := After(INITIAL, before); s.active.Some? && cap in s.active.value.denied
    ensures var s := After(INITIAL, before);
            var s' := After(s, after);
            s.runs <= s'.runs
            && forall i :: |s.runs| <= i < |s'.runs| && s'.runs[i].doc == s.generation ==> s'.runs[i].cap != cap
  {
    InitialIsValid();
    AfterKeepsValid(INITIAL, before);
    var s := After(INITIAL, before);
    DeniedFromHere(s, after, s.generation, cap, |s.runs|);
    RunsGrow(s, after);
  }

  lemma {:induction false} RunsGrow(s: State, steps: seq<Step>)
    requires Valid(s)
    ensures s.runs <= After(s, steps).runs
    decreases |steps|
  {
    if steps != [] {
      if Enabled(s, steps[0].action) { NextKeepsValid(s, steps[0].action, steps[0].env); }
      RunsGrow(Perform(s, steps[0]), steps[1..]);
    }
  }

  /** A click on deny denies the shown capability and leaves none of its requests waiting. */
  lemma DenyClears(s: State)
    requires Valid(s) && s.queue != [] && Live(s, s.queue[0].doc)
    ensures var s' := Deny(s);
            && s'.active.Some? && s.queue[0].cap in s'.active.value.denied
            && (forall q :: q in s'.queue <==> q in s.queue && q.cap != s.queue[0].cap)
  {
    var cap := s.queue[0].cap;
    QueueIsHere(s);
    assert s.queue[0] in s.queue;
    var denied := Matching(s.queue, s.generation, cap);
    DenyEquation(s);
    DenyBody(s, cap);
    var s2 := WithDoc(s.(queue := Without(s.queue, denied)), DeniedDoc(s.active.value, cap));
    AnswerAllKeeps(s2, denied, Denied, Refused);
    AdvanceKeeps(AnswerAll(s2, denied, Denied, Refused));
  }
}
