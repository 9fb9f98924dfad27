/**
 What one message of the connected document changes, as far as that document can tell.
 */
module BrokerAnswers {
  import opened Wrappers
  import opened Protocol
  import opened BrokerSpec
  import opened BrokerInvariant
  import opened BrokerWork
  import opened BrokerConsent
  import opened BrokerPrompt
  import opened BrokerRequests
  import opened BrokerTheorems

  // The document stays connected, and only it is answered.
  ghost predicate Stays(s: State, s': State) {
    && s.active.Some? && s'.active.Some? && s'.active.value.client == s.active.value.client && s'.managed == s.managed
    && s.posts <= s'.posts
    && forall i :: |s.posts| <= i < |s'.posts| ==> s'.posts[i].client == s.active.value.client
  }

  // Answers to remembered requests and to the message itself, and to nothing that still waits.
  ghost predicate Heard(s: State, s': State, id: Id, op: Op) {
    && Stays(s, s')
    && (forall x :: x in s'.active.value.requests ==>
          if x == id then s'.active.value.requests[x] == op
          else x in s.active.value.requests && s'.active.value.requests[x] == s.active.value.requests[x])
    && (forall i :: |s.posts| <= i < |s'.posts| ==>
          Telling(s'.posts[i], Exposed(s'), s.active.value.client, s.active.value.requests.Keys + {id}))
  }

  lemma ExposedIsOwned(s: State)
    requires Core(s) && s.active.Some?
    ensures Exposed(s) <= Protected(s) && Protected(s) <= s.active.value.requests.Keys
  {
    hide ConsentIds, Ids;
    OwnersAreRemembered(s);
    ConsentInFlight(s.batches, s.generation, s.active, s.inFlight, s.notices.Keys, s.next);
  }

  lemma ActiveDocOk(s: State)
    requires Core(s) && s.active.Some?
    ensures DocOk(s.active.value)
  {
  }

  lemma RegisteredIsQuiet(s: State, id: Id, op: Op)
    requires s.active.Some?
    ensures var s1 := Registered(s, id, op);
            s1.posts == s.posts && s1.managed == s.managed && s1.queue == s.queue && s1.active.Some?
              && s1.active.value.client == s.active.value.client
  {
  }

  lemma RegisteredRemembers(s: State, id: Id, op: Op)
    requires Core(s) && s.active.Some? && id !in s.active.value.requests && op != Connect
    requires Size(Pruned(s).requests) < MAX_REMEMBERED
    ensures var requests := Registered(s, id, op).active.value.requests;
            && requests.Keys <= s.active.value.requests.Keys + {id}
            && (forall x :: x in requests && x != id ==>
                x in s.active.value.requests && requests[x] == s.active.value.requests[x])
            && id in requests && requests[id] == op
            && (forall x :: x in Exposed(s) ==> x in requests)
            && Exposed(s) <= s.active.value.requests.Keys
  {
    hide Core, Exposed, Protected, DocOk;
    ExposedIsOwned(s);
    ActiveDocOk(s);
    PruneRemembers(s.active.value, Protected(s));
    PruneKeeps(s.active.value, Protected(s));
  }

  lemma PruneRemembers(doc: Doc, owners: set<Id>)
    ensures var p := Prune(doc, owners);
            forall x :: x in p.requests ==> x in doc.requests && p.requests[x] == doc.requests[x]
  {
  }

  lemma SoundStays(s: State, s1: State, s': State, e: set<Id>)
    requires Sound(e, s1, Exposed(s'), s') && s1.posts == s.posts && s1.managed == s.managed && s.active.Some?
    requires s1.active.Some?
    requires s1.active.value.client == s.active.value.client
    ensures Stays(s, s')
  {
    forall i | |s.posts| <= i < |s'.posts| ensures s'.posts[i].client == s.active.value.client {
      assert Telling(s'.posts[i], Exposed(s'), s1.active.value.client, s1.active.value.requests.Keys);
    }
  }

  lemma AnswerStays(s: State, s1: State, id: Id, status: Status, reason: Reason)
    requires s.active.Some? && s1.active.Some? && s1.posts == s.posts && s1.managed == s.managed
    requires s1.active.value.client == s.active.value.client
    ensures Stays(s, Answer(s1, s1.generation, id, status, reason))
  {
  }

  lemma DispatchStays(s: State, s1: State, id: Id, op: Op, target: Id, env: Env)
    requires Core(s1) && s1.active.Some? && Free(s1, id) && Answerable(s1, id) && op != Connect
    requires s1.active.value.requests[id] == op
    requires s.active.Some? && s1.posts == s.posts && s1.managed == s.managed
    requires s1.active.value.client == s.active.value.client
    ensures Stays(s, Dispatch(s1, s1.active.value, id, op, target, env))
  {
    var s' := Dispatch(s1, s1.active.value, id, op, target, env);
    if IsCancel(op) {
      DispatchCancel(s1, id, op, target, env);
      SoundStays(s, s1, s', Exposed(s1));
    } else {
      RequestKinds(op);
      ConsentStays(s, s1, id, op, CapabilityOf(op).value, target, env);
    }
  }

  lemma ConsentStays(s: State, s1: State, id: Id, op: Op, cap: Capability, target: Id, env: Env)
    requires Core(s1) && Ready(s1, id, op, cap)
    requires s.active.Some? && s1.posts == s.posts && s1.managed == s.managed
    requires s1.active.value.client == s.active.value.client
    ensures Stays(s, Dispatch(s1, s1.active.value, id, op, target, env))
  {
    var s' := Dispatch(s1, s1.active.value, id, op, target, env);
    if QueueRefuses(s1, id, cap, env) {
      DispatchRefused(s1, id, op, target, env);
      AnswerStays(s, s1, id, Failed, TooManyPending);
    } else {
      DispatchConsent(s1, id, op, target, env);
      SoundStays(s, s1, s', Exposed(s1) + {id});
    }
  }

  /** A request of the connected document never ends it and is answered to nobody else. */
  lemma RequestStays(s: State, client: Client, id: Id, op: Op, target: Id, env: Env)
    requires Valid(s) && Accepts(s, client) && op != Connect
    ensures Stays(s, HandleMessage(s, Request(client, id, op, target), env))
  {
    hide QueueOk, BatchesOk, PoolOk, CountsOk, BacklogOk, DeniedOk, Exposed, Protected, Stays, Dispatch;
    if id in s.active.value.requests {
      AnswerStays(s, s, id, Failed, DuplicateRequest);
    } else {
      HandleNewEquation(s, client, id, op, target, env);
      if Size(Pruned(s).requests) >= MAX_REMEMBERED {
        AnswerStays(s, WithDoc(s, Pruned(s)), id, Failed, TooManyActive);
      } else {
        RegisteredKeeps(s, id, op);
        DispatchStays(s, Registered(s, id, op), id, op, target, env);
      }
    }
  }

  lemma SoundHeard(s: State, s1: State, s': State, e: set<Id>, id: Id, op: Op)
    requires Sound(e, s1, Exposed(s'), s') && s1.posts == s.posts && s1.managed == s.managed && s.active.Some?
    requires s1.active.Some?
    requires s1.active.value.client == s.active.value.client
    requires s1.active.value.requests.Keys <= s.active.value.requests.Keys + {id}
    requires forall x :: x in s1.active.value.requests ==>
               if x == id then s1.active.value.requests[x] == op
               else x in s.active.value.requests && s1.active.value.requests[x] == s.active.value.requests[x]
    ensures Heard(s, s', id, op)
  {
    SoundStays(s, s1, s', e);
    forall i | |s.posts| <= i < |s'.posts|
      ensures Telling(s'.posts[i], Exposed(s'), s.active.value.client, s.active.value.requests.Keys + {id})
    {
      assert Telling(s'.posts[i], Exposed(s'), s1.active.value.client, s1.active.value.requests.Keys);
    }
  }

  // A full queue is not the reason to refuse while fewer than 16 requests wait.
  lemma RoomInQueue(s: State, id: Id)
    requires Core(s) && id !in Exposed(s) && |Exposed(s) + {id}| <= MAX_PENDING
    ensures |s.queue| < MAX_PENDING
  {
    DistinctSize(s.queue);
    SetMono(Ids(s.queue), Exposed(s));
    assert |Exposed(s) + {id}| == |Exposed(s)| + 1;
  }

  lemma AcceptedConsent(s: State, id: Id, op: Op, target: Id, env: Env)
    requires Valid(s) && s.active.Some? && id !in s.active.value.requests && CapabilityOf(op).Some?
    requires |Exposed(s) + {id}| <= MAX_PENDING && Size(Pruned(s).requests) < MAX_REMEMBERED
    ensures var s1 := Registered(s, id, op);
            var s' := Dispatch(s1, s1.active.value, id, op, target, env);
            Heard(s, s', id, op) && Exposed(s') <= Exposed(s) + {id}
  {
    hide Core, Exposed, Protected, Dispatch, Heard, Registered, Pruned;
    RegisteredKeeps(s, id, op);
    RegisteredIsQuiet(s, id, op);
    RegisteredRemembers(s, id, op);
    var s1 := Registered(s, id, op);
    RoomInQueue(s, id);
    DispatchConsent(s1, id, op, target, env);
    var s' := Dispatch(s1, s1.active.value, id, op, target, env);
    SoundHeard(s, s1, s', Exposed(s1) + {id}, id, op);
  }

  /** A new request waits at most for itself, and is not refused for a full queue while fewer than 16 wait. */
  lemma HearsConsent(s: State, client: Client, id: Id, op: Op, target: Id, env: Env)
    requires Valid(s) && Accepts(s, client) && id !in s.active.value.requests && CapabilityOf(op).Some?
    requires |Exposed(s) + {id}| <= MAX_PENDING && Size(Pruned(s).requests) < MAX_REMEMBERED
    ensures var s' := HandleMessage(s, Request(client, id, op, target), env);
            Heard(s, s', id, op) && Exposed(s') <= Exposed(s) + {id}
  {
    hide Exposed, Protected, ConsentIds, HeldIds, Ids;
    HandleNewEquation(s, client, id, op, target, env);
    AcceptedConsent(s, id, op, target, env);
  }

  // The request named by a cancelling message, if the document remembers it, is of the right kind.
  predicate RightKind(doc: Doc, op: Op, target: Id) {
    target in doc.requests ==> Cancels(op, doc.requests[target])
  }

  lemma AcceptedCancel(s: State, id: Id, op: Op, target: Id, env: Env)
    requires Valid(s) && s.active.Some? && id !in s.active.value.requests && IsCancel(op)
    requires RightKind(s.active.value, op, target) && Size(Pruned(s).requests) < MAX_REMEMBERED
    ensures var s1 := Registered(s, id, op);
            var s' := Dispatch(s1, s1.active.value, id, op, target, env);
            Heard(s, s', id, op) && Exposed(s') <= Exposed(s) - {target}
  {
    hide Core, Exposed, Protected, Dispatch, Heard, Registered, Pruned;
    RegisteredKeeps(s, id, op);
    RegisteredIsQuiet(s, id, op);
    RegisteredRemembers(s, id, op);
    var s1 := Registered(s, id, op);
    DispatchCancel(s1, id, op, target, env);
    var s' := Dispatch(s1, s1.active.value, id, op, target, env);
    SoundHeard(s, s1, s', Exposed(s1), id, op);
    assert target in Exposed(s) ==> target in s1.active.value.requests && target != id;
  }

  /** After a cancelling message its target waits for nothing, in the queue or in an open prompt. */
  lemma HearsCancel(s: State, client: Client, id: Id, op: Op, target: Id, env: Env)
    requires Valid(s) && Accepts(s, client) && id !in s.active.value.requests && IsCancel(op)
    requires RightKind(s.active.value, op, target) && Size(Pruned(s).requests) < MAX_REMEMBERED
    ensures var s' := HandleMessage(s, Request(client, id, op, target), env);
            Heard(s, s', id, op) && Exposed(s') <= Exposed(s) - {target}
  {
    HandleNewEquation(s, client, id, op, target, env);
    AcceptedCancel(s, id, op, target, env);
  }
}
