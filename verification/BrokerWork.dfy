/**
 Native work keeps the broker's invariant: notifications through every await of `showNotification`,
 location lookups and watches, and clipboard calls.
 */
module BrokerWork {
  import opened Wrappers
  import opened Protocol
  import opened BrokerSpec
  import opened BrokerInvariant
  import Grants

  /********** Notification ownership **********/

  lemma NoticeExposes(s: State, notices: map<Id, Notice>)
    ensures Exposed(s.(notices := notices)) == Exposed(s)
    ensures notices.Keys <= s.notices.Keys ==> OwnsNoMore(s, s.(notices := notices))
  {
  }

  lemma NoticeAddTables(s: State, id: Id, n: Notice)
    requires Core(s) && s.active.Some? && id in s.active.value.requests
    requires s.active.value.requests[id] == NotificationShow
    requires n.doc == s.generation && id !in Ids(s.queue)
    ensures var notices := s.notices[id := n];
            && TablesOk(s.active, s.generation, s.queue, s.watches, notices, s.inFlight, s.cancelled)
            && QueueOk(s.queue, s.inFlight + s.cancelled + s.watches.Keys + notices.Keys)
  {
    hide BatchesOk, PoolOk, CountsOk, BacklogOk, DeniedOk;
    assert s.notices[id := n].Keys == s.notices.Keys + {id};
  }

  lemma NoticeAddBatches(batches: map<nat, Batch>, g: nat, active: Option<Doc>, inFlight: set<Id>, notices: set<Id>,
                         next: nat, id: Id)
    requires BatchesOk(batches, g, active, inFlight, notices, next) && id !in ConsentIds(batches, g)
    ensures BatchesOk(batches, g, active, inFlight, notices + {id}, next)
  {
    ConsentMember(batches, g, id);
  }

  lemma NoticeFits(notices: map<Id, Notice>, id: Id, n: Notice)
    requires Size(notices) <= MAX_NOTIFICATIONS && (id in notices || Size(notices) < MAX_NOTIFICATIONS)
    ensures Size(notices[id := n]) <= MAX_NOTIFICATIONS
  {
    assert KeySet(notices[id := n]) == KeySet(notices) + {id};
  }

  lemma NoticeAddCore(s: State, id: Id, n: Notice)
    requires Core(s) && s.active.Some? && id in s.active.value.requests
    requires s.active.value.requests[id] == NotificationShow
    requires n.doc == s.generation && id !in Ids(s.queue) && id !in ConsentIds(s.batches, s.generation)
    requires id in s.notices || Size(s.notices) < MAX_NOTIFICATIONS
    ensures Core(s.(notices := s.notices[id := n]))
  {
    hide TablesOk, QueueOk, BatchesOk, PoolOk, BacklogOk, DeniedOk, ConsentIds;
    var notices := s.notices[id := n];
    assert notices.Keys == s.notices.Keys + {id};
    NoticeFits(s.notices, id, n);
    NoticeAddTables(s, id, n);
    NoticeAddBatches(s.batches, s.generation, s.active, s.inFlight, s.notices.Keys, s.next, id);
  }

  lemma NoticeAddOnly(s: State, id: Id, n: Notice)
    ensures var s' := s.(notices := s.notices[id := n]);
            Only(s, s', id) && Exposed(s') == Exposed(s)
  {
    assert s.notices[id := n].Keys == s.notices.Keys + {id};
  }

  lemma NoticeAdd(s: State, id: Id, n: Notice)
    requires Core(s) && s.active.Some? && id in s.active.value.requests
    requires s.active.value.requests[id] == NotificationShow
    requires n.doc == s.generation && id !in Ids(s.queue) && id !in ConsentIds(s.batches, s.generation)
    requires id in s.notices || Size(s.notices) < MAX_NOTIFICATIONS
    ensures var s' := s.(notices := s.notices[id := n]);
            Works(s, s', id) && Exposed(s') == Exposed(s)
  {
    NoticeAddCore(s, id, n);
    NoticeAddOnly(s, id, n);
  }

  lemma FewerTables(active: Option<Doc>, g: nat, queue: seq<Queued>, watches: map<Id, Watch>, notices: map<Id, Notice>,
                    inFlight: set<Id>, cancelled: set<Id>, watches': map<Id, Watch>, notices': map<Id, Notice>)
    requires TablesOk(active, g, queue, watches, notices, inFlight, cancelled)
    requires forall x :: x in watches' ==> x in watches && watches'[x] == watches[x]
    requires forall x :: x in notices' ==> x in notices && notices'[x] == notices[x]
    ensures TablesOk(active, g, queue, watches', notices', inFlight, cancelled)
  {
  }

  lemma FewerOwners(queue: seq<Queued>, owners: set<Id>, owners': set<Id>)
    requires QueueOk(queue, owners) && owners' <= owners
    ensures QueueOk(queue, owners')
  {
  }

  lemma FewerNotices(batches: map<nat, Batch>, g: nat, active: Option<Doc>, inFlight: set<Id>, notices: set<Id>,
                     next: nat, notices': set<Id>)
    requires BatchesOk(batches, g, active, inFlight, notices, next) && notices' <= notices
    ensures BatchesOk(batches, g, active, inFlight, notices', next)
  {
  }

  lemma NoticeRemoveCore(s: State, id: Id)
    requires Core(s)
    ensures Core(s.(notices := s.notices - {id}))
  {
    hide TablesOk, QueueOk, BatchesOk, PoolOk, BacklogOk, DeniedOk, ConsentIds;
    var notices := s.notices - {id};
    FewerTables(s.active, s.generation, s.queue, s.watches, s.notices, s.inFlight, s.cancelled, s.watches, notices);
    FewerOwners(s.queue, s.inFlight + s.cancelled + s.watches.Keys + s.notices.Keys,
                s.inFlight + s.cancelled + s.watches.Keys + notices.Keys);
    FewerNotices(s.batches, s.generation, s.active, s.inFlight, s.notices.Keys, s.next, notices.Keys);
    SetMono(KeySet(notices), KeySet(s.notices));
  }

  lemma NoticeRemove(s: State, id: Id)
    requires Core(s)
    ensures var s' := s.(notices := s.notices - {id});
            Core(s') && Dropped(s, s') && (s.active.Some? ==> Works(s, s', id)) && Exposed(s') == Exposed(s)
  {
    var s' := s.(notices := s.notices - {id});
    NoticeRemoveCore(s, id);
    NoticeExposes(s, s'.notices);
    if s.active.Some? { DroppedWorks(s, s', id); }
  }

  lemma DeleteReservationKeeps(s: State, id: Id, k: nat)
    requires Core(s)
    ensures var s' := DeleteReservation(s, id, k);
            Core(s') && Dropped(s, s') && (s.active.Some? ==> Works(s, s', id)) && Exposed(s') == Exposed(s)
            && s'.batches == s.batches && s'.inFlight == s.inFlight
  {
    if id in s.notices && s.notices[id].Worker? && s.notices[id].reservation == k {
      NoticeRemove(s, id);
    } else {
      Unchanged(s, id);
    }
  }

  lemma Unchanged(s: State, id: Id)
    requires Core(s)
    ensures Dropped(s, s) && (s.active.Some? ==> Works(s, s, id))
  {
    if s.active.Some? { DroppedWorks(s, s, id); }
  }

  /********** showNotification **********/

  // Work k settles or moves on: a step of its document, or, once replaced, only its slot.
  ghost predicate Effect(s: State, s': State, k: nat, id: Id) {
    if Current(s.batches, s.generation, k) then Works(s, s', id) else Core(s') && Dropped(s, s')
  }

  lemma DroppedTrans(s0: State, s1: State, s2: State)
    requires Dropped(s0, s1) && Dropped(s1, s2)
    ensures Dropped(s0, s2)
  {
  }

  lemma CurrentIsActive(s: State, k: nat)
    requires Core(s) && Current(s.batches, s.generation, k)
    ensures s.active.Some? && s.active.value.generation == s.generation
  {
  }

  lemma FinishShowKeeps(s: State, k: nat)
    requires Core(s) && k in s.batches && s.batches[k].work.Showing?
    ensures Effect(s, FinishShow(s, k), k, s.batches[k].work.id)
    ensures Exposed(FinishShow(s, k)) <= Exposed(s)
  {
    hide Exposed, Protected, ConsentIds, HeldIds, Ids;
    var id := s.batches[k].work.id;
    if Current(s.batches, s.generation, k) {
      CurrentIsActive(s, k);
      assert Holds(s.batches, s.generation, k, id);
      if Live(s, s.batches[k].doc) { SettleKeeps(s, k, id); } else { ReleaseWorks(s, k, id); }
    } else {
      ReleaseKeeps(s, k);
      assert !Live(s, s.batches[k].doc) by {
        if s.active.Some? { assert s.active.value.generation == s.generation; }
      }
    }
  }

  lemma SuspendBatches(batches: map<nat, Batch>, g: nat, active: Option<Doc>, inFlight: set<Id>, notices: set<Id>,
                       next: nat,
                       k: nat, phase: Phase, registered: bool)
    requires BatchesOk(batches, g, active, inFlight, notices, next) && k in batches && batches[k].work.Showing?
    ensures var more := batches[k := batches[k].(work := Showing(batches[k].work.id, phase, registered))];
            BatchesOk(more, g, active, inFlight, notices, next) && ConsentIds(more, g) == ConsentIds(batches, g)
            && HeldIds(more, g) == HeldIds(batches, g)
  {
    var more := batches[k := batches[k].(work := Showing(batches[k].work.id, phase, registered))];
    forall j ensures Current(more, g, j) <==> Current(batches, g, j) { }
    forall j, x ensures Holds(more, g, j, x) <==> Holds(batches, g, j, x) {
      assert Current(more, g, j) <==> Current(batches, g, j);
    }
    forall j, x ensures Asks(more, g, j, x) <==> Asks(batches, g, j, x) {
      assert Holds(more, g, j, x) <==> Holds(batches, g, j, x);
    }
    forall x ensures x in ConsentIds(more, g) <==> x in ConsentIds(batches, g) {
      ConsentMember(more, g, x);
      ConsentMember(batches, g, x);
    }
    forall x ensures x in HeldIds(more, g) <==> x in HeldIds(batches, g) {
      HeldMember(more, g, x);
      HeldMember(batches, g, x);
    }
    if active.None? { forall j ensures !Current(more, g, j) { assert !Current(batches, g, j); } }
    forall j | Current(more, g, j) ensures WorkOk(active, more[j].work) { assert Current(batches, g, j); }
  }

  lemma SuspendPool(pool: set<nat>, batches: map<nat, Batch>, next: nat, k: nat, b: Batch)
    requires PoolOk(pool, batches, next) && k in batches && b.owners == batches[k].owners
    ensures PoolOk(pool, batches[k := b], next)
  {
    var more := batches[k := b];
    forall j, o ensures Owns(more, j, o) <==> Owns(batches, j, o) { }
    forall o | o in pool ensures exists j :: Owns(more, j, o) {
      var j :| Owns(batches, j, o);
      assert Owns(more, j, o);
    }
    forall i, j, o | Owns(more, i, o) && Owns(more, j, o) ensures i == j {
      assert Owns(batches, i, o) && Owns(batches, j, o);
    }
    forall j, o | Owns(more, j, o) ensures o in pool { assert Owns(batches, j, o); }
  }

  lemma SameBatches(s: State, batches: map<nat, Batch>)
    requires Core(s) && ConsentIds(batches, s.generation) == ConsentIds(s.batches, s.generation)
    requires HeldIds(batches, s.generation) == HeldIds(s.batches, s.generation)
    requires BatchesOk(batches, s.generation, s.active, s.inFlight, s.notices.Keys, s.next)
    requires PoolOk(s.pool, batches, s.next)
    ensures var s' := s.(batches := batches); Core(s') && Dropped(s, s')
  {
  }

  lemma SuspendKeeps(s: State, k: nat, phase: Phase, registered: bool)
    requires Core(s) && k in s.batches && s.batches[k].work.Showing?
    ensures Effect(s, Suspend(s, k, phase, registered), k, s.batches[k].work.id)
  {
    SuspendBatches(s.batches, s.generation, s.active, s.inFlight, s.notices.Keys, s.next, k, phase, registered);
    SuspendPool(s.pool, s.batches, s.next, k, s.batches[k].(work := Showing(s.batches[k].work.id, phase, registered)));
    var s' := Suspend(s, k, phase, registered);
    SameBatches(s, s'.batches);
    if Current(s.batches, s.generation, k) {
      CurrentIsActive(s, k);
      DroppedWorks(s, s', s.batches[k].work.id);
    }
  }

  lemma RespondWorks(s: State, d: nat, id: Id, status: Status, event: Event, about: Option<Id>, reason: Reason)
    requires Core(s) && Answerable(s, id) && Ordinary(reason)
    ensures var s' := Respond(s, d, id, status, event, about, reason);
            Works(s, s', id) && s' == s.(posts := s'.posts) && Exposed(s') == Exposed(s)
  {
    RespondKeeps(s, d, id, status, event, about, reason);
    LogKeeps(s, Respond(s, d, id, status, event, about, reason).posts, s.runs);
  }

  // A reply about work k, and the end of it.
  lemma ReplyAndFinish(s: State, k: nat, status: Status, event: Event, reason: Reason)
    requires Core(s) && Current(s.batches, s.generation, k) && s.batches[k].work.Showing? && Ordinary(reason)
    ensures var id := s.batches[k].work.id;
            Works(s, FinishShow(Respond(s, s.generation, id, status, event, Some(id), reason), k), id)
  {
    var id := s.batches[k].work.id;
    CurrentIsActive(s, k);
    assert Holds(s.batches, s.generation, k, id);
    HeldByOne(s, k, id);
    RespondWorks(s, s.generation, id, status, event, Some(id), reason);
    var s1 := Respond(s, s.generation, id, status, event, Some(id), reason);
    FinishShowKeeps(s1, k);
    WorksTrans(s, s1, FinishShow(s1, k), id);
  }

  lemma ConsumeKeeps(s: State, k: nat)
    requires Core(s) && Current(s.batches, s.generation, k) && s.batches[k].work.Showing?
    ensures var id := s.batches[k].work.id;
            var s' := Uncancel(s, id);
            Works(s, s', id) && Current(s'.batches, s'.generation, k)
  {
    var id := s.batches[k].work.id;
    CurrentIsActive(s, k);
    assert Holds(s.batches, s.generation, k, id);
    HeldByOne(s, k, id);
    UncancelKeeps(s, id);
  }

  // A cancelled notification consumes its cancellation and ends.
  lemma ConsumeAndFinish(s: State, k: nat)
    requires Core(s) && Current(s.batches, s.generation, k) && s.batches[k].work.Showing?
    ensures Works(s, FinishShow(Uncancel(s, s.batches[k].work.id), k), s.batches[k].work.id)
  {
    var id := s.batches[k].work.id;
    ConsumeKeeps(s, k);
    FinishShowKeeps(Uncancel(s, id), k);
    WorksTrans(s, Uncancel(s, id), FinishShow(Uncancel(s, id), k), id);
  }

  lemma ReserveNotice(s: State, k: nat, n: Notice)
    requires Core(s) && Current(s.batches, s.generation, k) && s.batches[k].work.Showing? && n.doc == s.generation
    requires s.batches[k].work.id in s.notices || Size(s.notices) < MAX_NOTIFICATIONS
    ensures var id := s.batches[k].work.id;
            var s' := s.(notices := s.notices[id := n]);
            Works(s, s', id) && Current(s'.batches, s'.generation, k)
  {
    var id := s.batches[k].work.id;
    CurrentIsActive(s, k);
    assert Holds(s.batches, s.generation, k, id);
    HeldByOne(s, k, id);
    NoticeAdd(s, id, n);
  }

  lemma DisplayKeeps(s: State, k: nat, registered: bool, env: Env)
    requires Core(s) && k in s.batches && s.batches[k].work.Showing?
    ensures Effect(s, Display(s, k, registered, env), k, s.batches[k].work.id)
  {
    var d, id := s.batches[k].doc, s.batches[k].work.id;
    if !Live(s, d) { FinishShowKeeps(s, k); }
    else if id in s.cancelled { ConsumeAndFinish(s, k); }
    else if Size(s.notices) >= MAX_NOTIFICATIONS { ReplyAndFinish(s, k, Failed, Silent, TooManyNotifications); }
    else { DisplayReserved(s, k, registered, env); }
  }

  lemma DisplayReserved(s: State, k: nat, registered: bool, env: Env)
    requires Core(s) && k in s.batches && s.batches[k].work.Showing? && Live(s, s.batches[k].doc)
    requires s.batches[k].work.id !in s.cancelled && Size(s.notices) < MAX_NOTIFICATIONS
    ensures Works(s, Display(s, k, registered, env), s.batches[k].work.id)
  {
    hide Core, Works, Exposed, Protected, ConsentIds, HeldIds;
    var d, id := s.batches[k].doc, s.batches[k].work.id;
    ActiveIsCurrent(s);
    var s1 := s.(notices := s.notices[id := Worker(k, d, true)]);
    ReserveNotice(s, k, Worker(k, d, true));
    if id in env.constructed {
      ReserveNotice(s1, k, Native(k, d));
      var s2 := s1.(notices := s1.notices[id := Native(k, d)]);
      WorksTrans(s, s1, s2, id);
      ReplyAndFinish(s2, k, Ok, Silent, NoReason);
      WorksTrans(s, s2, Display(s, k, registered, env), id);
    } else if !env.worker {
      DeleteReservationKeeps(s1, id, k);
      var s2 := DeleteReservation(s1, id, k);
      WorksTrans(s, s1, s2, id);
      ReplyAndFinish(s2, k, Failed, Silent, Protocol.Unavailable);
      WorksTrans(s, s2, Display(s, k, registered, env), id);
    } else {
      SuspendKeeps(s1, k, if registered then Displaying else FindFallback, registered);
      WorksTrans(s, s1, Display(s, k, registered, env), id);
    }
  }

  lemma ShowStarts(s: State, id: Id, env: Env)
    requires Core(s) && s.active.Some? && Free(s, id) && s.active.value.requests[id] == NotificationShow
    requires |s.inFlight| < MAX_IN_FLIGHT && Reservable(s, 1)
    ensures var s1 := Begin(s, s.generation, 1, {id}, Showing(id, FindWorker, false));
            Works(s, s1, id) && Works(s, Display(s1, s.next, false, env), id)
  {
    hide Core, Sound, Only, Display, Exposed, ConsentIds, HeldIds, Ids;
    BeginWorks(s, id, Showing(id, FindWorker, false));
    var s1 := Begin(s, s.generation, 1, {id}, Showing(id, FindWorker, false));
    assert Current(s1.batches, s1.generation, s.next);
    DisplayKeeps(s1, s.next, false, env);
    WorksTrans(s, s1, Display(s1, s.next, false, env), id);
  }

  lemma ShowNotificationKeeps(s: State, id: Id, env: Env)
    requires Core(s) && s.active.Some? && Free(s, id) && s.active.value.requests[id] == NotificationShow
    requires id !in Exposed(s)
    ensures Works(s, ShowNotification(s, s.generation, id, env), id)
  {
    hide Core, Sound, Only, Exposed, Protected, ConsentIds, HeldIds, Ids;
    if !env.nativeGranted {
      RespondWorks(s, s.generation, id, Denied, Silent, Some(id), Refused);
    } else if |s.inFlight| >= MAX_IN_FLIGHT || !Reservable(s, 1) {
      RespondWorks(s, s.generation, id, Failed, Silent, Some(id), TooManyOperations);
    } else {
      ShowStarts(s, id, env);
    }
  }

  /********** Resuming after an await **********/

  lemma NoticeNotExposed(s: State, id: Id)
    requires Core(s) && id in s.notices
    ensures id !in Exposed(s)
  {
    ConsentMember(s.batches, s.generation, id);
    assert id in s.notices.Keys;
  }

  lemma NoticeGoes(s: State, id: Id, status: Status, event: Event, reason: Reason)
    requires Core(s) && s.active.Some? && id in s.notices && Ordinary(reason)
    ensures var s1 := s.(notices := s.notices - {id});
            Works(s, Respond(s1, s.generation, id, status, event, Some(id), reason), id)
  {
    NoticeNotExposed(s, id);
    NoticeRemove(s, id);
    var s1 := s.(notices := s.notices - {id});
    RespondWorks(s1, s.generation, id, status, event, Some(id), reason);
    WorksTrans(s, s1, Respond(s1, s.generation, id, status, event, Some(id), reason), id);
  }

  // Works for one request is Works for another when nothing new is owned.
  lemma WorksAny(s: State, s': State, id: Id, other: Id)
    requires Works(s, s', id) && OwnsNoMore(s, s') && s'.batches == s.batches
    ensures Works(s, s', other)
  {
  }

  lemma ReconcileOwns(s: State, id: Id)
    ensures var s' := Respond(s.(notices := s.notices - {id}), s.generation, id, Ok, Closed, Some(id), NoReason);
            OwnsNoMore(s, s') && s'.batches == s.batches
  {
    NoticeExposes(s, s.notices - {id});
  }

  lemma ReconcileOne(s: State, id: Id, other: Id)
    requires Core(s) && s.active.Some? && Reconcilable(s, s.generation, id)
    ensures Works(s, Respond(s.(notices := s.notices - {id}), s.generation, id, Ok, Closed, Some(id), NoReason), other)
  {
    NoticeGoes(s, id, Ok, Closed, NoReason);
    ReconcileOwns(s, id);
    WorksAny(s, Respond(s.(notices := s.notices - {id}), s.generation, id, Ok, Closed, Some(id), NoReason), id, other);
  }

  lemma {:induction false} ReconcileKeeps(s: State, vanished: seq<Id>, other: Id)
    requires Core(s) && s.active.Some?
    ensures Works(s, Reconcile(s, s.generation, vanished), other)
    decreases |vanished|
  {
    if vanished == [] || !Live(s, s.generation) {
      Unchanged(s, other);
    } else {
      var id := vanished[0];
      if Reconcilable(s, s.generation, id) {
        ReconcileOne(s, id, other);
        var s1 := Respond(s.(notices := s.notices - {id}), s.generation, id, Ok, Closed, Some(id), NoReason);
        ReconcileKeeps(s1, vanished[1..], other);
        WorksTrans(s, s1, Reconcile(s1, s.generation, vanished[1..]), other);
      } else {
        ReconcileKeeps(s, vanished[1..], other);
      }
    }
  }

  // After dropping the reservation: reply, consume a cancellation, or just end.
  lemma DeleteAndFinish(s: State, k: nat)
    requires Core(s) && k in s.batches && s.batches[k].work.Showing?
    ensures Effect(s, FinishShow(DeleteReservation(s, s.batches[k].work.id, k), k), k, s.batches[k].work.id)
  {
    var id := s.batches[k].work.id;
    DeleteReservationKeeps(s, id, k);
    var s1 := DeleteReservation(s, id, k);
    FinishShowKeeps(s1, k);
    if Current(s.batches, s.generation, k) {
      CurrentIsActive(s, k);
      WorksTrans(s, s1, FinishShow(s1, k), id);
    } else {
      DroppedTrans(s, s1, FinishShow(s1, k));
    }
  }

  lemma ConsumeDeleteFinish(s: State, k: nat)
    requires Core(s) && Current(s.batches, s.generation, k) && s.batches[k].work.Showing?
    ensures var id := s.batches[k].work.id;
            Works(s, FinishShow(DeleteReservation(Uncancel(s, id), id, k), k), id)
  {
    var id := s.batches[k].work.id;
    ConsumeKeeps(s, k);
    var s1 := Uncancel(s, id);
    DeleteAndFinish(s1, k);
    WorksTrans(s, s1, FinishShow(DeleteReservation(s1, id, k), k), id);
  }

  lemma DeleteReplyFinish(s: State, k: nat, status: Status, event: Event, reason: Reason)
    requires Core(s) && Current(s.batches, s.generation, k) && s.batches[k].work.Showing? && Ordinary(reason)
    ensures var id := s.batches[k].work.id;
            Works(s, FinishShow(Respond(DeleteReservation(s, id, k), s.generation, id, status, event, Some(id),
                                        reason), k), id)
  {
    hide Core;
    var id := s.batches[k].work.id;
    CurrentIsActive(s, k);
    DeleteReservationKeeps(s, id, k);
    var s1 := DeleteReservation(s, id, k);
    ReplyAndFinish(s1, k, status, event, reason);
    WorksTrans(s, s1, FinishShow(Respond(s1, s.generation, id, status, event, Some(id), reason), k), id);
  }

  lemma LiveIsCurrent(s: State, k: nat)
    requires Core(s) && k in s.batches && !s.batches[k].work.Elsewhere? && Live(s, s.batches[k].doc)
    ensures Current(s.batches, s.generation, k) && s.batches[k].doc == s.generation
  {
  }

  lemma CatchShowKeeps(s: State, k: nat)
    requires Core(s) && k in s.batches && s.batches[k].work.Showing?
    ensures Effect(s, CatchShow(s, k), k, s.batches[k].work.id)
  {
    if !Live(s, s.batches[k].doc) { DeleteAndFinish(s, k); }
    else {
      LiveIsCurrent(s, k);
      if s.batches[k].work.id in s.cancelled { ConsumeDeleteFinish(s, k); }
      else { DeleteReplyFinish(s, k, Failed, Errored, NativeFailure); }
    }
  }

  lemma ConsumeAndSuspend(s: State, k: nat, phase: Phase, registered: bool)
    requires Core(s) && Current(s.batches, s.generation, k) && s.batches[k].work.Showing?
    ensures var id := s.batches[k].work.id;
            Works(s, Suspend(Uncancel(s, id), k, phase, registered), id)
  {
    var id := s.batches[k].work.id;
    ConsumeKeeps(s, k);
    SuspendKeeps(Uncancel(s, id), k, phase, registered);
    WorksTrans(s, Uncancel(s, id), Suspend(Uncancel(s, id), k, phase, registered), id);
  }

  lemma FindWorkerKeeps(s: State, k: nat, env: Env)
    requires Core(s) && k in s.batches && s.batches[k].work.Showing?
    ensures Effect(s, ResumeFindWorker(s, k, env), k, s.batches[k].work.id)
  {
    if env.failed { DisplayKeeps(s, k, false, env); }
    else if !Live(s, s.batches[k].doc) { FinishShowKeeps(s, k); }
    else {
      LiveIsCurrent(s, k);
      if s.batches[k].work.id in s.cancelled { ConsumeAndFinish(s, k); }
      else if env.found { SuspendKeeps(s, k, FirstReconcile, true); }
      else { DisplayKeeps(s, k, false, env); }
    }
  }

  lemma FirstReconcileKeeps(s: State, k: nat, env: Env)
    requires Core(s) && k in s.batches && s.batches[k].work.Showing?
    ensures Effect(s, ResumeFirstReconcile(s, k, env), k, s.batches[k].work.id)
  {
    var id := s.batches[k].work.id;
    if env.failed || !Live(s, s.batches[k].doc) {
      DisplayKeeps(s, k, true, env);
    } else {
      LiveIsCurrent(s, k);
      ReconcileKeeps(s, env.vanished, id);
      var s1 := Reconcile(s, s.generation, env.vanished);
      DisplayKeeps(s1, k, true, env);
      WorksTrans(s, s1, Display(s1, k, true, env), id);
    }
  }

  lemma FindFallbackKeeps(s: State, k: nat, env: Env)
    requires Core(s) && k in s.batches && s.batches[k].work.Showing?
    ensures Effect(s, ResumeFindFallback(s, k, env), k, s.batches[k].work.id)
  {
    if env.failed { CatchShowKeeps(s, k); }
    else if !Live(s, s.batches[k].doc) { DeleteAndFinish(s, k); }
    else {
      LiveIsCurrent(s, k);
      if s.batches[k].work.id in s.cancelled { ConsumeDeleteFinish(s, k); }
      else if !env.found { DeleteReplyFinish(s, k, Failed, Silent, Protocol.Unavailable); }
      else { SuspendKeeps(s, k, Displaying, s.batches[k].work.registered); }
    }
  }

  lemma DisplayingKeeps(s: State, k: nat, env: Env)
    requires Core(s) && k in s.batches && s.batches[k].work.Showing?
    ensures Effect(s, ResumeDisplaying(s, k, env), k, s.batches[k].work.id)
  {
    var registered := s.batches[k].work.registered;
    if env.failed { CatchShowKeeps(s, k); }
    else if !Live(s, s.batches[k].doc) { SuspendKeeps(s, k, Withdrawing, registered); }
    else {
      LiveIsCurrent(s, k);
      if s.batches[k].work.id in s.cancelled { ConsumeAndSuspend(s, k, Withdrawing, registered); }
      else { SuspendKeeps(s, k, LastReconcile, registered); }
    }
  }

  lemma LastReconcileKeeps(s: State, k: nat, env: Env)
    requires Core(s) && k in s.batches && s.batches[k].work.Showing?
    ensures Effect(s, ResumeLastReconcile(s, k, env), k, s.batches[k].work.id)
  {
    var d, id := s.batches[k].doc, s.batches[k].work.id;
    var s1 := if env.failed then s else Reconcile(s, d, env.vanished);
    if !Live(s, d) {
      assert s1 == s;
      DeleteAndFinish(s, k);
    } else {
      LiveIsCurrent(s, k);
      if env.failed { Unchanged(s, id); } else { ReconcileKeeps(s, env.vanished, id); }
      if id in s1.cancelled { ConsumeDeleteFinish(s1, k); }
      else if !(id in s1.notices && s1.notices[id] == Worker(k, d, true)) { FinishShowKeeps(s1, k); }
      else {
        ReserveNotice(s1, k, Worker(k, d, false));
        var s2 := s1.(notices := s1.notices[id := Worker(k, d, false)]);
        ReplyAndFinish(s2, k, Ok, Shown, NoReason);
        WorksTrans(s1, s2, ResumeLastReconcile(s, k, env), id);
      }
      WorksTrans(s, s1, ResumeLastReconcile(s, k, env), id);
    }
  }

  lemma ResumeShowKeeps(s: State, k: nat, env: Env)
    requires Core(s) && k in s.batches && s.batches[k].work.Showing?
    ensures Effect(s, ResumeShow(s, k, env), k, s.batches[k].work.id)
  {
    match s.batches[k].work.phase
    case FindWorker => FindWorkerKeeps(s, k, env);
    case FirstReconcile => FirstReconcileKeeps(s, k, env);
    case FindFallback => FindFallbackKeeps(s, k, env);
    case Displaying => DisplayingKeeps(s, k, env);
    case Withdrawing => if env.failed { CatchShowKeeps(s, k); } else { DeleteAndFinish(s, k); }
    case LastReconcile => LastReconcileKeeps(s, k, env);
  }

  lemma NoticeEventKeeps(s: State, id: Id, handle: nat, event: Event)
    requires Core(s)
    ensures var s' := NoticeEvent(s, id, handle, event);
            if s.active.Some? then Works(s, s', id) else s' == s
  {
    if !(id in s.notices && s.notices[id].Native? && s.notices[id].handle == handle) {
      Unchanged(s, id);
    } else {
      assert s.active.Some?;
      NoticeNotExposed(s, id);
      match event
      case Shown => RespondWorks(s, s.generation, id, Ok, Shown, Some(id), NoReason);
      case Clicked => RespondWorks(s, s.generation, id, Ok, Clicked, Some(id), NoReason);
      case Closed => NoticeGoes(s, id, Ok, Closed, NoReason);
      case Errored => NoticeGoes(s, id, Failed, Errored, NativeFailure);
      case Silent => Unchanged(s, id);
    }
  }

  /********** Location **********/

  lemma WatchAddTables(active: Option<Doc>, g: nat, queue: seq<Queued>, watches: map<Id, Watch>,
                       notices: map<Id, Notice>, inFlight: set<Id>, cancelled: set<Id>, id: Id, w: Watch)
    requires active.Some? && TablesOk(active, g, queue, watches, notices, inFlight, cancelled)
    requires id in active.value.requests && active.value.requests[id] == LocationWatch && w.doc == g
    requires id !in Ids(queue)
    requires QueueOk(queue, inFlight + cancelled + watches.Keys + notices.Keys)
    ensures TablesOk(active, g, queue, watches[id := w], notices, inFlight, cancelled)
    ensures QueueOk(queue, inFlight + cancelled + watches[id := w].Keys + notices.Keys)
  {
    assert inFlight + cancelled + watches[id := w].Keys + notices.Keys
           == (inFlight + cancelled + watches.Keys + notices.Keys) + {id};
  }

  lemma WatchFits(watches: map<Id, Watch>, id: Id, w: Watch)
    requires Size(watches) < MAX_WATCHES
    ensures Size(watches[id := w]) <= MAX_WATCHES
  {
    assert KeySet(watches[id := w]) == KeySet(watches) + {id};
  }

  lemma WatchAddCore(s: State, id: Id, w: Watch)
    requires Core(s) && s.active.Some? && Free(s, id) && s.active.value.requests[id] == LocationWatch
    requires w.doc == s.generation && Size(s.watches) < MAX_WATCHES
    ensures Core(s.(watches := s.watches[id := w]))
  {
    hide TablesOk, QueueOk, BatchesOk, PoolOk, BacklogOk, DeniedOk, ConsentIds;
    WatchFits(s.watches, id, w);
    WatchAddTables(s.active, s.generation, s.queue, s.watches, s.notices, s.inFlight, s.cancelled, id, w);
  }

  lemma NextKeeps(s: State)
    requires Core(s)
    ensures Core(s.(next := s.next + 1))
  {
    NextGrows(s.pool, s.batches, s.generation, s.active, s.inFlight, s.notices.Keys, s.next);
  }

  lemma NextGrows(pool: set<nat>, batches: map<nat, Batch>, g: nat, active: Option<Doc>, inFlight: set<Id>,
                  notices: set<Id>, next: nat)
    requires BatchesOk(batches, g, active, inFlight, notices, next) && PoolOk(pool, batches, next)
    ensures BatchesOk(batches, g, active, inFlight, notices, next + 1) && PoolOk(pool, batches, next + 1)
  {
  }

  lemma WatchAddOnly(s: State, id: Id, w: Watch)
    ensures var s' := s.(watches := s.watches[id := w], next := s.next + 1);
            Only(s, s', id) && Exposed(s') == Exposed(s)
  {
    assert s.watches[id := w].Keys == s.watches.Keys + {id};
  }

  lemma AnswerWorks(s: State, id: Id, status: Status, reason: Reason)
    requires Core(s) && Answerable(s, id) && Ordinary(reason)
    ensures Works(s, Answer(s, s.generation, id, status, reason), id)
  {
    RespondWorks(s, s.generation, id, status, Silent, None, reason);
  }

  lemma ExecuteGeolocationKeeps(s: State, id: Id, op: Op, env: Env)
    requires Core(s) && s.active.Some? && Free(s, id) && id !in Exposed(s) && s.active.value.requests[id] == op
    requires op == LocationGet || op == LocationWatch
    ensures Works(s, ExecuteGeolocation(s, s.generation, id, op, env), id)
  {
    hide Core, Sound, Only, Exposed, Protected, ConsentIds, HeldIds, Ids;
    if !env.provider {
      AnswerWorks(s, id, Failed, Protocol.Unavailable);
    } else if op == LocationGet {
      if |s.inFlight| >= MAX_IN_FLIGHT || !Reservable(s, 1) {
        AnswerWorks(s, id, Failed, TooManyOperations);
      } else if id in env.throwing {
        AnswerWorks(s, id, Failed, NativeFailure);
      } else {
        BeginWorks(s, id, Locating(id));
      }
    } else if Size(s.watches) >= MAX_WATCHES {
      AnswerWorks(s, id, Failed, TooManyWatches);
    } else if id in env.throwing {
      AnswerWorks(s, id, Failed, NativeFailure);
    } else {
      WatchAddWorks(s, id);
    }
  }

  // A step that shows nothing and exposes nothing new.
  lemma Silently(s: State, s': State, id: Id)
    requires Core(s') && s.active.Some? && Only(s, s', id) && Exposed(s') == Exposed(s)
    requires s'.posts == s.posts && s'.runs == s.runs && s'.managed == s.managed && s'.generation == s.generation
    requires s'.next >= s.next && s'.connects == s.connects && s'.handledConnects == s.handledConnects
    ensures Works(s, s', id)
  {
  }

  lemma WatchAddWorks(s: State, id: Id)
    requires Core(s) && s.active.Some? && Free(s, id) && s.active.value.requests[id] == LocationWatch
    requires Size(s.watches) < MAX_WATCHES
    ensures Works(s, s.(watches := s.watches[id := Watch(s.next, s.generation)], next := s.next + 1), id)
  {
    hide Core, Sound, Only, Exposed, Protected, ConsentIds, HeldIds, Ids;
    var w := Watch(s.next, s.generation);
    var s1 := s.(watches := s.watches[id := w]);
    var s2 := s1.(next := s1.next + 1);
    assert s2 == s.(watches := s.watches[id := w], next := s.next + 1);
    WatchAddCore(s, id, w);
    NextKeeps(s1);
    WatchAddOnly(s, id, w);
    Silently(s, s2, id);
  }

  lemma SettleLocationKeeps(s: State, k: nat, fix: Fix)
    requires Core(s) && k in s.batches && s.batches[k].work.Locating?
    ensures Effect(s, SettleLocation(s, k, fix), k, s.batches[k].work.id)
  {
    var id := s.batches[k].work.id;
    if !Live(s, s.batches[k].doc) {
      ReleaseKeeps(s, k);
      if Current(s.batches, s.generation, k) {
        CurrentIsActive(s, k);
        assert Holds(s.batches, s.generation, k, id);
        ReleaseWorks(s, k, id);
      }
    } else {
      LiveIsCurrent(s, k);
      assert Holds(s.batches, s.generation, k, id);
      SettleKeeps(s, k, id);
      var s2 := Land(Release(s, k), id);
      if id in s.cancelled {
        UnheldNotConsented(s2, id);
        UncancelKeeps(s2, id);
      } else {
        var status := match fix case Position => Ok case NoPosition => Failed case PermissionDenied => Denied;
        RespondWorks(s2, s.generation, id, status, Silent, None, if fix == Position then NoReason else NativeFailure);
      }
      WorksTrans(s, s2, SettleLocation(s, k, fix), id);
    }
  }

  lemma WatchNotAsked(batches: map<nat, Batch>, g: nat, doc: Doc, inFlight: set<Id>, notices: set<Id>, next: nat,
                      id: Id)
    requires BatchesOk(batches, g, Some(doc), inFlight, notices, next)
    requires id in doc.requests && doc.requests[id] == LocationWatch
    ensures id !in ConsentIds(batches, g)
  {
    ConsentMember(batches, g, id);
    forall k | Current(batches, g, k) && batches[k].work.Consenting? ensures !Asks(batches, g, k, id) {
      var items := batches[k].work.items;
      assert WorkOk(Some(doc), batches[k].work);
      forall i | 0 <= i < |items| ensures items[i].id != id { assert Known(doc, items[i]); }
    }
  }

  lemma WatchNotExposed(s: State, id: Id)
    requires Core(s) && s.active.Some? && id in s.watches
    ensures id !in Exposed(s)
  {
    hide BatchesOk, PoolOk, CountsOk, BacklogOk, DeniedOk, ConsentIds;
    assert id in s.watches.Keys;
    WatchNotAsked(s.batches, s.generation, s.active.value, s.inFlight, s.notices.Keys, s.next, id);
  }

  lemma WatchRemove(s: State, id: Id)
    requires Core(s) && s.active.Some?
    ensures var s' := s.(watches := s.watches - {id});
            Works(s, s', id) && Exposed(s') == Exposed(s)
  {
    hide Core, Only, Exposed;
    WatchRemoveCore(s, id);
    WatchRemoveOnly(s, id);
  }

  lemma WatchRemoveCore(s: State, id: Id)
    requires Core(s)
    ensures Core(s.(watches := s.watches - {id}))
  {
    hide TablesOk, QueueOk, BatchesOk, PoolOk, BacklogOk, DeniedOk, ConsentIds;
    var watches := s.watches - {id};
    FewerTables(s.active, s.generation, s.queue, s.watches, s.notices, s.inFlight, s.cancelled, watches, s.notices);
    FewerOwners(s.queue, s.inFlight + s.cancelled + s.watches.Keys + s.notices.Keys,
                s.inFlight + s.cancelled + watches.Keys + s.notices.Keys);
    SetMono(KeySet(watches), KeySet(s.watches));
  }

  lemma WatchRemoveOnly(s: State, id: Id)
    ensures var s' := s.(watches := s.watches - {id});
            Only(s, s', id) && Exposed(s') == Exposed(s)
  {
  }

  lemma WatchEventKeeps(s: State, id: Id, d: nat, fix: Fix)
    requires Core(s)
    ensures var s' := WatchEvent(s, id, d, fix);
            if s.active.Some? then Works(s, s', id) else s' == s
  {
    if !(id in s.watches && s.watches[id].doc == d) {
      Unchanged(s, id);
    } else {
      assert s.active.Some? && d == s.generation;
      WatchNotExposed(s, id);
      match fix
      case Position => RespondWorks(s, d, id, Ok, Silent, Some(id), NoReason);
      case NoPosition => RespondWorks(s, d, id, Failed, Silent, Some(id), NativeFailure);
      case PermissionDenied =>
        WatchRemove(s, id);
        var s1 := s.(watches := s.watches - {id});
        RespondWorks(s1, d, id, Denied, Silent, Some(id), NativeFailure);
        WorksTrans(s, s1, WatchEvent(s, id, d, fix), id);
    }
  }
}
