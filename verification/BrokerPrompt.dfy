/**
 The native notification prompt and the allow button keep the broker's invariant.
 */
module BrokerPrompt {
  import opened Wrappers
  import opened Protocol
  import opened BrokerSpec
  import opened BrokerInvariant
  import opened BrokerWork
  import opened BrokerConsent
  import Grants

  /********** Opening the prompt **********/

  // Requests that leave the queue together.
  ghost predicate Selected(s: State, items: seq<Queued>) {
    Subqueue(items, s.queue) && items != []
  }

  function Taken(s: State, items: seq<Queued>): State { s.(queue := Without(s.queue, items)) }

  lemma SelectedExposed(s: State, items: seq<Queued>)
    requires Subqueue(items, s.queue)
    ensures Ids(items) <= Ids(s.queue) <= Exposed(s)
  {
    forall x | x in Ids(items) ensures x in Ids(s.queue) {
      var i :| 0 <= i < |items| && items[i].id == x;
      assert items[i] in items;
      IdIn(s.queue, items[i]);
    }
  }

  lemma ReadyAreFree(s: State, items: seq<Queued>)
    requires AllReady(s, items)
    ensures forall x :: x in Ids(items) ==> Free(s, x)
  {
    forall x | x in Ids(items) ensures Free(s, x) {
      var i :| 0 <= i < |items| && items[i].id == x;
      assert Ready(s, items[i].id, items[i].op, items[i].cap);
    }
  }

  // Ready requests go into a prompt.
  lemma OpenBegins(s: State, items: seq<Queued>, work: Work)
    requires Core(s) && s.active.Some? && items != [] && AllReady(s, items)
    requires work.Consenting? && work.items == items && WorkOk(s.active, work)
    requires |s.inFlight| + |items| <= MAX_IN_FLIGHT && Reservable(s, |items|)
    requires BacklogOk(s.queue, ConsentIds(s.batches, s.generation) + Ids(items))
    ensures var s' := Begin(s, s.generation, |items|, Ids(items), work);
            Core(s') && Exposed(s') == Exposed(s) + Ids(items)
  {
    hide Core, Sound, Only, Exposed, Protected, ConsentIds, HeldIds, Ids;
    ReadyAreFree(s, items);
    IdsSize(items);
    BeginKeeps(s, |items|, Ids(items), work, Ids(items));
  }

  lemma PromptOpens(s: State, mode: Mode, current: Queued, items: seq<Queued>, revision: nat,
                    token: Option<Grants.Token>)
    requires Core(s) && s.active.Some? && Selected(s, items) && current in items
    requires forall i :: 0 <= i < |items| ==> items[i].cap == Notifications
    requires |s.inFlight| + |items| <= MAX_IN_FLIGHT && Reservable(s, |items|)
    ensures var s1 := Taken(s, items);
            var s2 := Begin(s1, s.generation, |items|, Ids(items), Consenting(mode, current, items, revision, token));
            Core(s2) && Steady(s, s2)
  {
    var s1 := Taken(s, items);
    var work := Consenting(mode, current, items, revision, token);
    TakenAreReady(s, items);
    OpenWork(s1, items, work);
    OpenBacklog(s, items);
    OpenBegins(s1, items, work);
    OpenSteady(s, items, Begin(s1, s.generation, |items|, Ids(items), work));
  }

  lemma OpenSteady(s: State, items: seq<Queued>, s2: State)
    requires s.active.Some? && Subqueue(items, s.queue) && Exposed(s2) == Exposed(Taken(s, items)) + Ids(items)
    requires Exposed(Taken(s, items)) <= Exposed(s)
    requires s2.posts == s.posts && s2.runs == s.runs && SameDoc(s, s2)
    ensures Steady(s, s2)
  {
    SelectedExposed(s, items);
  }

  lemma OpenWork(s: State, items: seq<Queued>, work: Work)
    requires Core(s) && AllReady(s, items) && s.active.Some? && work.Consenting? && work.items == items
    requires work.current in items
    requires forall i :: 0 <= i < |items| ==> items[i].cap == Notifications
    ensures WorkOk(s.active, work)
  {
    forall i | 0 <= i < |items| ensures Known(s.active.value, items[i]) {
      assert Ready(s, items[i].id, items[i].op, items[i].cap);
    }
  }

  // Moving requests from the queue into a prompt leaves the backlog as it was.
  lemma OpenBacklog(s: State, items: seq<Queued>)
    requires Core(s) && Subqueue(items, s.queue)
    ensures BacklogOk(Without(s.queue, items), ConsentIds(s.batches, s.generation) + Ids(items))
  {
    var consent := ConsentIds(s.batches, s.generation);
    SelectedExposed(s, items);
    DistinctWithout(s.queue, items);
    SelectedExposed(s, Without(s.queue, items));
    BacklogLess(s.queue, consent, Without(s.queue, items), consent + Ids(items));
  }

  lemma RefuseSelected(s: State, items: seq<Queued>, status: Status, reason: Reason)
    requires Core(s) && s.active.Some? && Subqueue(items, s.queue) && Ordinary(reason)
    ensures Moves(s, Advance(AnswerAll(Taken(s, items), items, status, reason)))
  {
    WithoutFrees(s, items);
    IdsKnown(s, items);
    var s1 := Taken(s, items);
    IdsApart(items, Exposed(s1));
    AnswerAllKeeps(s1, items, status, reason);
    var s2 := AnswerAll(s1, items, status, reason);
    SoundTrans(Exposed(s), s, Exposed(s1), s1, Exposed(s2), s2);
    AdvanceMoves(s, s2);
  }

  lemma RefuseAfterAdvance(s: State, items: seq<Queued>)
    requires Core(s) && s.active.Some? && Subqueue(items, s.queue)
    ensures Moves(s, AnswerAll(Advance(Taken(s, items)), items, Failed, NativeFailure))
  {
    WithoutFrees(s, items);
    IdsKnown(s, items);
    var s1 := Taken(s, items);
    AdvanceMoves(s, s1);
    AdvanceKeeps(s1);
    var s2 := Advance(s1);
    IdsApart(items, Exposed(s1));
    assert Ids(items) !! Exposed(s2);
    AnswerAllKeeps(s2, items, Failed, NativeFailure);
    AnsweredMoves(s2, AnswerAll(s2, items, Failed, NativeFailure));
    MovesTrans(s, s2, AnswerAll(s2, items, Failed, NativeFailure));
  }

  lemma AnsweredMoves(s: State, s': State)
    requires Core(s') && Steady(s, s') && s' == s.(posts := s'.posts)
    ensures Moves(s, s')
  {
  }

  function Selection(s: State, mode: Mode, current: Queued, token: Option<Grants.Token>): seq<Queued> {
    if mode == Always && token.Some? then Matching(s.queue, current.doc, current.cap) else [current]
  }

  lemma SelectionIsSelected(s: State, mode: Mode, current: Queued, token: Option<Grants.Token>)
    requires Core(s) && s.active.Some? && current in s.queue
    ensures var items := Selection(s, mode, current, token);
            && Selected(s, items) && current in items && current.doc == s.generation
            && (forall i :: 0 <= i < |items| ==> items[i].cap == current.cap)
  {
    hide Core, ConsentIds, Ids;
    QueueIsDistinct(s);
    ActiveIsCurrent(s);
    QueuedFacts(s, current);
    DistinctMatching(s.queue, current.doc, current.cap);
    var items := Selection(s, mode, current, token);
    assert current in items;
    forall i | 0 <= i < |items| ensures items[i].cap == current.cap { assert items[i] in items; }
  }

  lemma ResolveEquation(s: State, mode: Mode, current: Queued, revision: nat, token: Option<Grants.Token>, env: Env)
    requires Live(s, current.doc) && current.cap == Notifications
    ensures var items := Selection(s, mode, current, token);
            var s1 := Taken(s, items);
            ResolveNotificationConsent(s, mode, current, revision, token, env)
            == if |s.inFlight| + |items| > MAX_IN_FLIGHT || !Reservable(s, |items|)
               then Advance(AnswerAll(s1, items, Failed, TooManyOperations))
               else if env.promptThrows then AnswerAll(Advance(s1), items, Failed, NativeFailure)
               else Advance(Begin(s1, current.doc, |items|, Ids(items),
                                  Consenting(mode, current, items, revision, token)))
  {
  }

  lemma ResolveKeeps(s: State, mode: Mode, current: Queued, revision: nat, token: Option<Grants.Token>, env: Env)
    requires Core(s) && Live(s, current.doc) && current in s.queue && current.cap == Notifications
    ensures Moves(s, ResolveNotificationConsent(s, mode, current, revision, token, env))
  {
    var items := Selection(s, mode, current, token);
    SelectionIsSelected(s, mode, current, token);
    ResolveEquation(s, mode, current, revision, token, env);
    if |s.inFlight| + |items| > MAX_IN_FLIGHT || !Reservable(s, |items|) {
      RefuseSelected(s, items, Failed, TooManyOperations);
    } else if env.promptThrows {
      RefuseAfterAdvance(s, items);
    } else {
      PromptOpens(s, mode, current, items, revision, token);
      AdvanceMoves(s, Begin(Taken(s, items), s.generation, |items|, Ids(items),
                            Consenting(mode, current, items, revision, token)));
    }
  }

  /********** The prompt's answer **********/

  // An item of a settled prompt that has yet to be completed.
  ghost predicate Parked(s: State, q: Queued) {
    && s.active.Some? && Known(s.active.value, q) && q.cap == Notifications
    && Unheld(s, q.id) && q.id !in Ids(s.queue) && q.id !in s.watches && q.id !in s.notices
  }

  ghost predicate AllParked(s: State, items: seq<Queued>) {
    && DistinctIds(items)
    && (forall i :: 0 <= i < |items| ==> Parked(s, items[i]))
    && BacklogOk(s.queue, ConsentIds(s.batches, s.generation) + Ids(items))
  }

  // Requests that still wait: exposed ones, and parked ones that nobody cancelled.
  ghost function Waits(s: State, items: seq<Queued>): set<Id> {
    Exposed(s) + (Ids(items) - s.cancelled)
  }

  lemma ParkedApart(s: State, q: Queued)
    requires Core(s) && Parked(s, q)
    ensures q.id !in Exposed(s)
  {
    UnheldNotConsented(s, q.id);
  }

  lemma LandedIsReady(s: State, q: Queued)
    requires Core(s) && Parked(s, q) && q.id !in s.cancelled
    ensures var s1 := Land(s, q.id);
            Works(s, s1, q.id) && Exposed(s1) == Exposed(s) && Parked(s1, q) && Ready(s1, q.id, q.op, q.cap)
  {
    LandWorks(s, q.id);
    ParkedApart(s, q);
  }

  // What completing request `id` leaves alone, whatever the outcome.
  ghost predicate Frame(s: State, s': State, id: Id) {
    && s.posts <= s'.posts && (forall i :: |s.posts| <= i < |s'.posts| ==> s'.posts[i].id == id)
    && s.cancelled - {id} <= s'.cancelled
    && s'.watches.Keys <= s.watches.Keys + {id}
    && s'.notices.Keys <= s.notices.Keys + {id}
  }

  lemma FrameTrans(s0: State, s1: State, s2: State, id: Id)
    requires Frame(s0, s1, id) && Frame(s1, s2, id)
    ensures Frame(s0, s2, id)
  {
    forall i | |s0.posts| <= i < |s2.posts| ensures s2.posts[i].id == id {
      if i < |s1.posts| { assert s2.posts[i] == s1.posts[i]; }
    }
  }

  lemma FinishShowFrame(s: State, k: nat, id: Id)
    requires k in s.batches && s.batches[k].work.Showing?
    ensures Frame(s, FinishShow(s, k), id)
  {
  }

  lemma RespondFinishFrame(s: State, k: nat, status: Status, event: Event, reason: Reason)
    requires k in s.batches && s.batches[k].work.Showing?
    ensures var id := s.batches[k].work.id;
            Frame(s, FinishShow(Respond(s, s.batches[k].doc, id, status, event, Some(id), reason), k), id)
  {
  }

  lemma DisplayFrame(s: State, k: nat, registered: bool, env: Env)
    requires k in s.batches && s.batches[k].work.Showing?
    ensures Frame(s, Display(s, k, registered, env), s.batches[k].work.id)
  {
    var d, id := s.batches[k].doc, s.batches[k].work.id;
    var s1 := s.(notices := s.notices[id := Worker(k, d, true)]);
    assert s1.notices.Keys == s.notices.Keys + {id};
    if !Live(s, d) { FinishShowFrame(s, k, id); }
    else if id in s.cancelled { FinishShowFrame(Uncancel(s, id), k, id); }
    else if Size(s.notices) >= MAX_NOTIFICATIONS { RespondFinishFrame(s, k, Failed, Silent, TooManyNotifications); }
    else if id in env.constructed {
      var s2 := s1.(notices := s1.notices[id := Native(k, d)]);
      assert s2.notices.Keys == s.notices.Keys + {id};
      RespondFinishFrame(s2, k, Ok, Silent, NoReason);
      FrameTrans(s, s2, Display(s, k, registered, env), id);
    } else if !env.worker {
      var s2 := DeleteReservation(s1, id, k);
      RespondFinishFrame(s2, k, Failed, Silent, Protocol.Unavailable);
      FrameTrans(s, s2, Display(s, k, registered, env), id);
    }
  }

  lemma BeginFrame(s: State, id: Id, work: Work)
    ensures Frame(s, Begin(s, s.generation, 1, {id}, work), id)
  {
  }

  lemma ShowBegunFrame(s: State, id: Id, env: Env)
    ensures var s1 := Begin(s, s.generation, 1, {id}, Showing(id, FindWorker, false));
            Frame(s, s1, id) && Frame(s, Display(s1, s.next, false, env), id)
  {
    hide Display, Frame;
    var s1 := Begin(s, s.generation, 1, {id}, Showing(id, FindWorker, false));
    BeginFrame(s, id, Showing(id, FindWorker, false));
    DisplayFrame(s1, s.next, false, env);
    FrameTrans(s, s1, Display(s1, s.next, false, env), id);
  }

  lemma ShowFrame(s: State, id: Id, env: Env)
    ensures Frame(s, ShowNotification(s, s.generation, id, env), id)
  {
    hide Display, Begin;
    ShowBegunFrame(s, id, env);
  }

  lemma GrantedFrame(s: State, id: Id, op: Op, env: Env)
    requires op == NotificationPermission || op == NotificationShow
    ensures Frame(s, ExecuteGranted(s, s.generation, id, op, env), id)
  {
    if !Live(s, s.generation) || id in s.cancelled {
      GrantedNothing(s, id, op, env);
    } else if op == NotificationShow {
      GrantedShow(s, id, env);
      ShowFrame(Begun(s, s.generation, Notifications, id), id, env);
    } else {
      GrantedPermission(s, id, env);
    }
  }

  // Request `id` is complete: it changed only what it owned.
  ghost predicate Completed(s: State, s': State, id: Id) { Works(s, s', id) && Frame(s, s', id) }

  lemma CompletedTrans(s0: State, s1: State, s2: State, id: Id)
    requires Completed(s0, s1, id) && Completed(s1, s2, id)
    ensures Completed(s0, s2, id)
  {
    WorksTrans(s0, s1, s2, id);
    FrameTrans(s0, s1, s2, id);
  }

  lemma ParkedAfter(s: State, s': State, id: Id, q: Queued)
    requires Completed(s, s', id) && Parked(s, q) && q.id != id
    ensures Parked(s', q)
  {
  }

  lemma TailParked(s: State, s': State, items: seq<Queued>)
    requires items != [] && AllParked(s, items) && Completed(s, s', items[0].id)
    ensures forall i :: 0 <= i < |items[1..]| ==> Parked(s', items[1..][i])
  {
    forall i | 0 <= i < |items[1..]| ensures Parked(s', items[1..][i]) {
      OtherParked(s, s', items, i + 1);
    }
  }

  lemma BacklogStays(s: State, s': State, id: Id, consent: set<Id>)
    requires Only(s, s', id) && BacklogOk(s.queue, ConsentIds(s.batches, s.generation) + consent)
    ensures BacklogOk(s'.queue, ConsentIds(s'.batches, s'.generation) + consent)
  {
  }

  lemma TailDistinct(items: seq<Queued>)
    requires items != [] && DistinctIds(items)
    ensures DistinctIds(items[1..])
  {
  }

  // Completing one item without putting it back keeps the others parked.
  lemma OthersParked(s: State, s': State, items: seq<Queued>)
    requires items != [] && AllParked(s, items) && Completed(s, s', items[0].id)
    ensures AllParked(s', items[1..])
  {
    TailDistinct(items);
    TailParked(s, s', items);
    TailBacklog(s.queue, ConsentIds(s.batches, s.generation), items);
    BacklogStays(s, s', items[0].id, Ids(items[1..]));
  }

  lemma OtherParked(s: State, s': State, items: seq<Queued>, i: nat)
    requires AllParked(s, items) && 0 < i < |items| && Completed(s, s', items[0].id)
    ensures Parked(s', items[i])
  {
    ParkedAfter(s, s', items[0].id, items[i]);
  }

  lemma TailBacklog(queue: seq<Queued>, consent: set<Id>, items: seq<Queued>)
    requires items != [] && BacklogOk(queue, consent + Ids(items))
    ensures BacklogOk(queue, consent + Ids(items[1..]))
  {
    IdsCons(items);
    BacklogLess(queue, consent + Ids(items), queue, consent + Ids(items[1..]));
  }

  lemma HeadNotInTail(items: seq<Queued>)
    requires items != [] && DistinctIds(items)
    ensures items[0].id !in Ids(items[1..])
  {
    var rest := items[1..];
    forall i: nat | i < |rest| ensures rest[i].id != items[0].id { assert items[i + 1] == rest[i]; }
  }

  lemma CompletedPosts(s: State, s': State, id: Id, e: set<Id>)
    requires s.active.Some? && Completed(s, s', id) && id !in e
    ensures PostsOk(s.posts, s'.posts, e, s.active.value)
  {
  }

  lemma WaitsShrink(s: State, s': State, items: seq<Queued>)
    requires items != [] && DistinctIds(items) && Completed(s, s', items[0].id) && items[0].id !in Exposed(s)
    ensures Sound(Waits(s, items), s, Waits(s', items[1..]), s')
  {
    IdsCons(items);
    HeadNotInTail(items);
    CompletedPosts(s, s', items[0].id, Waits(s', items[1..]));
    assert Waits(s', items[1..]) <= Waits(s, items) by {
      assert Exposed(s') <= Exposed(s);
      assert Ids(items[1..]) - s'.cancelled <= Ids(items) - s.cancelled;
    }
  }

  // One item is done; the others are still parked.
  ghost predicate ItemDone(s: State, s': State, items: seq<Queued>)
    requires items != []
  {
    Core(s') && Sound(Waits(s, items), s, Waits(s', items[1..]), s') && AllParked(s', items[1..])
  }

  lemma CompletedDone(s: State, s': State, items: seq<Queued>)
    requires Core(s) && items != [] && AllParked(s, items) && Completed(s, s', items[0].id)
    ensures ItemDone(s, s', items)
  {
    ParkedApart(s, items[0]);
    OthersParked(s, s', items);
    WaitsShrink(s, s', items);
  }

  /********** Completing the items **********/

  lemma LandedDone(s: State, s': State, items: seq<Queued>)
    requires Core(s) && items != [] && AllParked(s, items) && Completed(Land(s, items[0].id), s', items[0].id)
    ensures ItemDone(s, s', items)
  {
    var s1 := Land(s, items[0].id);
    LandWorks(s, items[0].id);
    CompletedTrans(s, s1, s', items[0].id);
    CompletedDone(s, s', items);
  }

  lemma LandedFacts(s: State, q: Queued)
    requires Core(s) && Parked(s, q)
    ensures var s1 := Land(s, q.id);
            Core(s1) && s1.active == s.active && s1.active.Some? && s1.generation == s.generation
              && s1.cancelled == s.cancelled
            && Answerable(s1, q.id) && Unheld(s1, q.id)
  {
    LandWorks(s, q.id);
    ParkedApart(s, q);
  }

  lemma ConsumedItem(s: State, items: seq<Queued>)
    requires Core(s) && items != [] && AllParked(s, items)
    ensures ItemDone(s, Uncancel(Land(s, items[0].id), items[0].id), items)
  {
    var id := items[0].id;
    LandedFacts(s, items[0]);
    var s1 := Land(s, id);
    UnheldNotConsented(s1, id);
    UncancelKeeps(s1, id);
    LandedDone(s, Uncancel(s1, id), items);
  }

  lemma AnswerCompletes(s: State, d: nat, id: Id, status: Status, about: Option<Id>, reason: Reason)
    requires Core(s) && Answerable(s, id) && Ordinary(reason)
    ensures Completed(s, Respond(s, d, id, status, Silent, about, reason), id)
  {
    RespondWorks(s, d, id, status, Silent, about, reason);
  }

  lemma AnsweredItem(s: State, items: seq<Queued>, status: Status, about: Option<Id>, reason: Reason)
    requires Core(s) && items != [] && AllParked(s, items) && Ordinary(reason)
    ensures ItemDone(s, Respond(Land(s, items[0].id), items[0].doc, items[0].id, status, Silent, about, reason), items)
  {
    var q := items[0];
    assert Parked(s, q);
    LandedFacts(s, q);
    AnswerCompletes(Land(s, q.id), q.doc, q.id, status, about, reason);
    LandedDone(s, Respond(Land(s, q.id), q.doc, q.id, status, Silent, about, reason), items);
  }

  lemma GrantCompletes(s: State, q: Queued, env: Env)
    requires Core(s) && Parked(s, q) && Allowed(s, Notifications) && q.id !in s.cancelled
    ensures Completed(Land(s, q.id), ExecuteGranted(Land(s, q.id), q.doc, q.id, q.op, env), q.id)
  {
    hide Core, Works, Frame, ExecuteGranted, Exposed, HeldIds;
    var s1 := Land(s, q.id);
    LandedIsReady(s, q);
    LandedFacts(s, q);
    ActiveIsCurrent(s);
    ExecuteGrantedKeeps(s1, q.id, q.op, q.cap, env);
    GrantedFrame(s1, q.id, q.op, env);
  }

  lemma GrantedItem(s: State, items: seq<Queued>, env: Env)
    requires Core(s) && items != [] && AllParked(s, items) && Allowed(s, Notifications) && items[0].id !in s.cancelled
    ensures ItemDone(s, ExecuteGranted(Land(s, items[0].id), items[0].doc, items[0].id, items[0].op, env), items)
  {
    var q := items[0];
    assert Parked(s, q);
    GrantCompletes(s, q, env);
    LandedDone(s, ExecuteGranted(Land(s, q.id), q.doc, q.id, q.op, env), items);
  }

  lemma PushBacklog(queue: seq<Queued>, consent: set<Id>, items: seq<Queued>)
    requires items != [] && BacklogOk(queue, consent + Ids(items))
    ensures BacklogOk(queue + [items[0]], consent) && BacklogOk(queue + [items[0]], consent + Ids(items[1..]))
  {
    IdsCons(items);
    IdsSnoc(queue, items[0]);
    BacklogLess(queue, consent + Ids(items), queue + [items[0]], consent);
    BacklogLess(queue, consent + Ids(items), queue + [items[0]], consent + Ids(items[1..]));
  }

  lemma RequeuedParked(s: State, s1: State, items: seq<Queued>)
    requires items != [] && AllParked(s, items) && s1 == Land(s, items[0].id)
    ensures AllParked(s1.(queue := s1.queue + [items[0]]), items[1..])
  {
    hide Core, Sound, Only, Exposed, Protected, ConsentIds, HeldIds, Ids;
    var s' := s1.(queue := s1.queue + [items[0]]);
    IdsSnoc(s.queue, items[0]);
    forall i | 0 <= i < |items[1..]| ensures Parked(s', items[1..][i]) {
      assert items[1..][i] == items[i + 1] && items[0].id != items[i + 1].id;
      assert Parked(s, items[i + 1]);
    }
    PushBacklog(s.queue, ConsentIds(s.batches, s.generation), items);
  }

  lemma RequeuedWaits(s: State, items: seq<Queued>)
    requires s.active.Some? && items != [] && items[0].id !in s.cancelled
    ensures var s' := Land(s, items[0].id).(queue := s.queue + [items[0]]);
            Sound(Waits(s, items), s, Waits(s', items[1..]), s')
  {
    IdsCons(items);
    IdsSnoc(s.queue, items[0]);
  }

  // The sibling whose approval could not be saved waits for another click, past the queue's own limit.
  lemma RequeuedItem(s: State, items: seq<Queued>)
    requires Core(s) && items != [] && AllParked(s, items) && Allowed(s, Notifications) && items[0].id !in s.cancelled
    ensures ItemDone(s, Land(s, items[0].id).(queue := s.queue + [items[0]]), items)
  {
    var q := items[0];
    var s1 := Land(s, q.id);
    LandedIsReady(s, q);
    PushBacklog(s.queue, ConsentIds(s.batches, s.generation), items);
    PushKeeps(s1, q);
    RequeuedParked(s, s1, items);
    RequeuedWaits(s, items);
  }

  lemma SettleItemKeeps(s: State, mode: Mode, current: Queued, items: seq<Queued>, v: Verdict, env: Env)
    requires Core(s) && items != [] && AllParked(s, items)
    ensures ItemDone(s, SettleItem(s, mode, current, items[0], v, env), items)
  {
    var item := items[0];
    if item.id in s.cancelled { ConsumedItem(s, items); }
    else if !Allowed(s, item.cap) { AnsweredItem(s, items, Denied, None, Refused); }
    else if !v.currentChoice {
      if item.op == NotificationPermission { AnsweredItem(s, items, Ok, None, NoReason); }
      else { AnsweredItem(s, items, Denied, Some(item.id), ApprovalChanged); }
    }
    else if v.status == Failed { AnsweredItem(s, items, Failed, None, NativeFailure); }
    else if mode == Always && v.status == Ok && !v.saved && item != current { RequeuedItem(s, items); }
    else if item.op == NotificationPermission { AnsweredItem(s, items, Ok, None, NoReason); }
    else if v.status == Ok { GrantedItem(s, items, env); }
    else { AnsweredItem(s, items, Denied, None, Refused); }
  }

  lemma {:induction false} SettleItemsKeeps(s: State, mode: Mode, current: Queued, items: seq<Queued>, v: Verdict,
                                            env: Env)
    requires Core(s) && s.active.Some? && AllParked(s, items)
    ensures var s' := SettleItems(s, mode, current, items, v, env);
            Core(s') && Sound(Waits(s, items), s, Exposed(s'), s')
    decreases |items|
  {
    hide Core, ConsentIds, HeldIds, SettleItem;
    if items == [] {
      assert Ids(items) == {};
      assert Waits(s, items) == Exposed(s);
    } else {
      SettleItemKeeps(s, mode, current, items, v, env);
      var s1 := SettleItem(s, mode, current, items[0], v, env);
      SettleItemsKeeps(s1, mode, current, items[1..], v, env);
      var s2 := SettleItems(s1, mode, current, items[1..], v, env);
      SoundTrans(Waits(s, items), s, Waits(s1, items[1..]), s1, Exposed(s2), s2);
    }
  }

  /********** The whole settlement **********/

  lemma ReleasedParked(s: State, k: nat)
    requires Core(s) && Current(s.batches, s.generation, k) && s.batches[k].work.Consenting?
    ensures var s1 := Release(s, k);
            var items := s.batches[k].work.items;
            Core(s1) && Dropped(s, s1) && AllParked(s1, items) && Waits(s1, items) <= Exposed(s)
  {
    var s1 := Release(s, k);
    var items := s.batches[k].work.items;
    CurrentIsActive(s, k);
    ReleaseKeeps(s, k);
    ReleasedWaits(s, k);
    forall i | 0 <= i < |items| ensures Parked(s1, items[i]) {
      assert items[i].id in Ids(items);
      HeldItem(s, k, items[i]);
    }
    var consent := ConsentIds(s.batches, s.generation);
    BacklogLess(s.queue, consent, s.queue, ConsentIds(s1.batches, s.generation) + Ids(items));
  }

  lemma HeldItem(s: State, k: nat, q: Queued)
    requires Core(s) && Current(s.batches, s.generation, k) && s.batches[k].work.Consenting?
    requires q in s.batches[k].work.items
    ensures s.active.Some? && Known(s.active.value, q) && q.cap == Notifications
    ensures q.id !in Ids(s.queue) && q.id !in s.watches && q.id !in s.notices
  {
    hide Exposed, Protected, ConsentIds, HeldIds, Ids;
    var items := s.batches[k].work.items;
    var i :| 0 <= i < |items| && items[i] == q;
    assert WorkOk(s.active, s.batches[k].work);
    IdIn(items, q);
    assert Asks(s.batches, s.generation, k, q.id);
    assert Holds(s.batches, s.generation, k, q.id);
  }

  lemma ReleasedWaits(s: State, k: nat)
    requires Core(s) && Current(s.batches, s.generation, k) && s.batches[k].work.Consenting?
    ensures var items := s.batches[k].work.items;
            Waits(Release(s, k), items) <= Exposed(s) && Ids(items) <= ConsentIds(s.batches, s.generation)
  {
    var items := s.batches[k].work.items;
    ReleaseKeeps(s, k);
    forall x | x in Ids(items) ensures x in ConsentIds(s.batches, s.generation) {
      ConsentMember(s.batches, s.generation, x);
      assert Asks(s.batches, s.generation, k, x);
    }
  }

  // A native denial under the current choice denies the capability for the document.
  lemma DeniedParked(s: State, items: seq<Queued>)
    requires Core(s) && s.active.Some? && AllParked(s, items)
    ensures var s' := WithDoc(s, s.active.value.(denied := s.active.value.denied + {Notifications}));
            Core(s') && Sound(Waits(s, items), s, Waits(s', items), s') && AllParked(s', items)
  {
    hide Exposed, Protected, ConsentIds, HeldIds, Ids;
    var doc := s.active.value.(denied := s.active.value.denied + {Notifications});
    var s' := WithDoc(s, doc);
    DocKeeps(s, doc.denied, doc.revision);
    forall i | 0 <= i < |items| ensures Parked(s', items[i]) { assert Parked(s, items[i]); }
  }

  predicate NativelyDenied(s: State, w: Work, status: Status, dismissed: bool, env: Env)
    requires w.Consenting? && s.active.Some?
  {
    && w.mode == Always && w.token.Some? && status == Denied && !dismissed
    && s.active.value.revision == w.revision && env.currentBefore && env.currentAfter && SomeUncancelled(s, w.items)
  }

  function ConsentVerdict(s: State, w: Work, status: Status, env: Env): Verdict
    requires w.Consenting? && s.active.Some?
  {
    var before := s.active.value.revision == w.revision && env.currentBefore;
    Verdict(status, w.mode == Always && w.token.Some? && status == Ok && before && Allowed(s, Notifications)
                    && SomeUncancelled(s, w.items) && env.stored, before && env.currentAfter)
  }

  function DenyNatively(s: State): State
    requires s.active.Some?
  {
    WithDoc(s, s.active.value.(denied := s.active.value.denied + {Notifications}))
  }

  lemma SettleConsentEquation(s: State, k: nat, status: Status, dismissed: bool, env: Env)
    requires k in s.batches && s.batches[k].work.Consenting? && Live(s, s.batches[k].doc)
    ensures var w := s.batches[k].work;
            var s1 := Release(s, k);
            var s2 := if NativelyDenied(s, w, status, dismissed, env) then DenyNatively(s1) else s1;
            SettleConsent(s, k, status, dismissed, env)
            == Advance(SettleItems(s2, w.mode, w.current, w.items, ConsentVerdict(s, w, status, env), env))
  {
  }

  lemma SettleConsentKeeps(s: State, k: nat, status: Status, dismissed: bool, env: Env)
    requires Core(s) && k in s.batches && s.batches[k].work.Consenting?
    ensures Settles(s, SettleConsent(s, k, status, dismissed, env), k)
  {
    if !Live(s, s.batches[k].doc) {
      StaleRelease(s, k);
    } else {
      LiveIsCurrent(s, k);
      CurrentIsActive(s, k);
      SettleConsentEquation(s, k, status, dismissed, env);
      SettleLive(s, k, NativelyDenied(s, s.batches[k].work, status, dismissed, env),
                 ConsentVerdict(s, s.batches[k].work, status, env), env);
    }
  }

  lemma SettleLive(s: State, k: nat, natively: bool, v: Verdict, env: Env)
    requires Core(s) && Current(s.batches, s.generation, k) && s.batches[k].work.Consenting? && s.active.Some?
    ensures var w := s.batches[k].work;
            var s1 := Release(s, k);
            var s2 := if natively then DenyNatively(s1) else s1;
            Moves(s, Advance(SettleItems(s2, w.mode, w.current, w.items, v, env)))
  {
    var w := s.batches[k].work;
    var s1 := Release(s, k);
    var s2 := if natively then DenyNatively(s1) else s1;
    ReleasedParked(s, k);
    if natively { DeniedParked(s1, w.items); }
    SettleItemsKeeps(s2, w.mode, w.current, w.items, v, env);
    var s3 := SettleItems(s2, w.mode, w.current, w.items, v, env);
    ReleasedSound(s, s1, Waits(s1, w.items));
    if natively { SoundTrans(Exposed(s), s, Waits(s1, w.items), s1, Waits(s2, w.items), s2); }
    SoundTrans(Exposed(s), s, Waits(s2, w.items), s2, Exposed(s3), s3);
    AdvanceMoves(s, s3);
  }

  lemma ReleasedSound(s: State, s1: State, e: set<Id>)
    requires s.active.Some? && Dropped(s, s1) && e <= Exposed(s)
    ensures Sound(Exposed(s), s, e, s1)
  {
  }

  /********** The allow button **********/

  predicate ChoiceFails(env: Env) {
    env.choice.Superseded? || (env.choice.Ready? && !env.choice.cleared)
      || (env.choice.Unavailable? && !env.choice.empty)
  }

  function ChosenToken(env: Env): Option<Grants.Token> { if env.choice.Ready? then Some(env.choice.token) else None }

  // A click on a notification prompt supersedes every earlier native answer.
  function Revised(s: State): State
    requires s.queue != [] && s.active.Some?
  {
    if s.queue[0].cap == Notifications then WithDoc(s, s.active.value.(revision := s.active.value.revision + 1)) else s
  }

  function AllowClipboard(s: State, mode: Mode, env: Env): State
    requires s.queue != []
  {
    var current := s.queue[0];
    Advance(ExecuteClipboard(Taken(s, [current]), current.doc, current.id, current.op, mode, ChosenToken(env), env))
  }

  function AllowLocation(s: State, mode: Mode, env: Env): State
    requires s.queue != []
  {
    var current := s.queue[0];
    var token := ChosenToken(env);
    var selected := if mode == Always && token.Some? && env.stored then Matching(s.queue, current.doc, current.cap)
      else [current];
    Advance(ExecuteAll(Taken(s, selected), selected, env))
  }

  lemma AllowEquation(s: State, mode: Mode, env: Env)
    requires s.queue != [] && Live(s, s.queue[0].doc)
    ensures var current := s.queue[0];
            var s1 := Revised(s);
            Allow(s, mode, env)
            == if ChoiceFails(env) then s1
               else if IsClipboard(current.cap) then AllowClipboard(s1, mode, env)
               else if current.cap == Notifications then
                 ResolveNotificationConsent(s1, mode, current, s.active.value.revision + 1, ChosenToken(env), env)
               else AllowLocation(s1, mode, env)
  {
    hide ExecuteClipboard, ResolveNotificationConsent, ExecuteAll, Advance, Without, Matching;
  }

  lemma RevisionIsFree(active: Option<Doc>, queue: seq<Queued>)
    requires active.Some? && DeniedOk(active, queue)
    ensures DeniedOk(Some(active.value.(denied := active.value.denied, revision := active.value.revision + 1)), queue)
  {
  }

  lemma RevisedEquation(s: State)
    requires s.queue != [] && s.active.Some?
    ensures Revised(s) == if s.queue[0].cap == Notifications
                          then WithDoc(s, s.active.value.(denied := s.active.value.denied,
                                                          revision := s.active.value.revision + 1))
                          else s
  {
  }

  lemma RevisionMoves(s: State, revision: nat)
    requires Core(s) && s.active.Some?
    requires DeniedOk(Some(s.active.value.(denied := s.active.value.denied, revision := revision)), s.queue)
    ensures Moves(s, WithDoc(s, s.active.value.(denied := s.active.value.denied, revision := revision)))
  {
    DocKeeps(s, s.active.value.denied, revision);
    RevisedSteady(s, WithDoc(s, s.active.value.(denied := s.active.value.denied, revision := revision)));
  }

  lemma RevisedMoves(s: State)
    requires Core(s) && s.queue != [] && s.active.Some?
    ensures Moves(s, Revised(s))
  {
    RevisedEquation(s);
    if s.queue[0].cap == Notifications {
      RevisionIsFree(s.active, s.queue);
      RevisionMoves(s, s.active.value.revision + 1);
    } else {
      Unchanged(s, 0);
      WorksMoves(s, s, 0);
    }
  }

  lemma RevisedSteady(s: State, s': State)
    requires Core(s') && Steady(s, s') && s'.queue == s.queue && s'.prompt == s.prompt
    ensures Moves(s, s')
  {
  }

  lemma MovesOn(s0: State, s1: State, s2: State)
    requires Moves(s0, s1) && Moves(s1, s2)
    ensures Moves(s0, s2)
  {
    SoundTrans(Exposed(s0), s0, Exposed(s1), s1, Exposed(s2), s2);
  }

  lemma OneSelected(s: State)
    requires Core(s) && s.queue != [] && s.active.Some?
    ensures Subqueue([s.queue[0]], s.queue) && Known(s.active.value, s.queue[0])
  {
  }

  lemma AllowClipboardKeeps(s: State, mode: Mode, env: Env)
    requires Core(s) && s.queue != [] && s.active.Some? && IsClipboard(s.queue[0].cap)
    ensures Moves(s, AllowClipboard(s, mode, env))
  {
    var q := s.queue[0];
    OneSelected(s);
    TakenAreReady(s, [q]);
    var s1 := Taken(s, [q]);
    assert Ready(s1, [q][0].id, [q][0].op, [q][0].cap);
    ExecuteClipboardKeeps(s1, q.id, q.op, q.cap, mode, ChosenToken(env), env);
    var s2 := ExecuteClipboard(s1, q.doc, q.id, q.op, mode, ChosenToken(env), env);
    SoundTrans(Exposed(s), s, Exposed(s1), s1, Exposed(s2), s2);
    AdvanceMoves(s, s2);
  }

  lemma LocationAllowed(s: State, items: seq<Queued>)
    requires Core(s) && s.active.Some? && forall x :: x in items ==> x in s.queue && x.cap == Geolocation
    ensures forall i :: 0 <= i < |items| ==> items[i].cap !in s.active.value.denied && !IsClipboard(items[i].cap)
  {
    forall i | 0 <= i < |items| ensures items[i].cap !in s.active.value.denied {
      assert items[i] in items;
      var j :| 0 <= j < |s.queue| && s.queue[j] == items[i];
    }
  }

  lemma AllowLocationKeeps(s: State, mode: Mode, env: Env)
    requires Core(s) && s.queue != [] && s.active.Some? && s.queue[0].cap == Geolocation
    ensures Moves(s, AllowLocation(s, mode, env))
  {
    var current := s.queue[0];
    var selected := if mode == Always && ChosenToken(env).Some? && env.stored
      then Matching(s.queue, current.doc, current.cap) else [current];
    OneSelected(s);
    DistinctMatching(s.queue, current.doc, current.cap);
    LocationSelected(s, selected, env);
  }

  lemma LocationSelected(s: State, selected: seq<Queued>, env: Env)
    requires Core(s) && s.active.Some? && Subqueue(selected, s.queue)
    requires forall x :: x in selected ==> x.cap == Geolocation
    ensures Moves(s, Advance(ExecuteAll(Taken(s, selected), selected, env)))
  {
    TakenAreReady(s, selected);
    LocationAllowed(s, selected);
    var s1 := Taken(s, selected);
    ExecuteAllKeeps(s1, selected, env);
    WorksAllSteady(s, s1, ExecuteAll(s1, selected, env), Ids(selected));
    AdvanceMoves(s, ExecuteAll(s1, selected, env));
  }

  lemma AllowKeeps(s: State, mode: Mode, env: Env)
    requires Core(s) && s.active.Some?
    ensures Moves(s, Allow(s, mode, env))
  {
    if s.queue == [] || !Live(s, s.queue[0].doc) {
      AdvanceMoves(s, s);
    } else {
      RevisedMoves(s);
      AllowEquation(s, mode, env);
      var s1 := Revised(s);
      if !ChoiceFails(env) {
        if IsClipboard(s.queue[0].cap) { AllowClipboardKeeps(s1, mode, env); }
        else if s.queue[0].cap == Notifications {
          ResolveKeeps(s1, mode, s.queue[0], s.active.value.revision + 1, ChosenToken(env), env);
        } else { AllowLocationKeeps(s1, mode, env); }
        MovesOn(s, s1, Allow(s, mode, env));
      }
    }
  }
}
