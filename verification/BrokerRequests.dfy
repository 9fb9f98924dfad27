/**
 Requests, cancellations and document replacement keep the broker's invariant, and with them every step.
 */
module BrokerRequests {
  import opened Wrappers
  import opened Protocol
  import opened BrokerSpec
  import opened BrokerInvariant
  import opened BrokerWork
  import opened BrokerConsent
  import opened BrokerPrompt

  /********** Cancelling **********/

  // Everything that request `target` owns outside native work is given up.
  function Dropping(s: State, target: Id, mark: bool): State {
    s.(watches := s.watches - {target}, notices := s.notices - {target},
       cancelled := if mark then s.cancelled + {target} else s.cancelled,
       queue := Discard(s.queue, s.generation, target))
  }

  lemma DiscardApart(s: State, target: Id)
    requires Core(s) && s.active.Some?
    ensures target !in Ids(Discard(s.queue, s.generation, target))
  {
    var q := Discard(s.queue, s.generation, target);
    QueueIsHere(s);
    forall i: nat | i < |q| ensures q[i].id != target { assert q[i] in q; }
  }

  lemma DropTables(s: State, target: Id, mark: bool)
    requires Core(s) && s.active.Some? && target in s.active.value.requests
    requires TablesOk(s.active, s.generation, Discard(s.queue, s.generation, target), s.watches, s.notices, s.inFlight,
                      s.cancelled)
    ensures var s' := Dropping(s, target, mark);
            TablesOk(s'.active, s'.generation, s'.queue, s'.watches, s'.notices, s'.inFlight, s'.cancelled)
  {
  }

  lemma DropOwners(s: State, target: Id, mark: bool)
    requires QueueOk(Discard(s.queue, s.generation, target), s.inFlight + s.cancelled + s.watches.Keys + s.notices.Keys)
    requires target !in Ids(Discard(s.queue, s.generation, target))
    ensures var s' := Dropping(s, target, mark);
            QueueOk(s'.queue, s'.inFlight + s'.cancelled + s'.watches.Keys + s'.notices.Keys)
  {
  }

  lemma DropCounts(s: State, target: Id, mark: bool)
    requires CountsOk(s.pool, s.inFlight, KeySet(s.watches), KeySet(s.notices))
    requires BatchesOk(s.batches, s.generation, s.active, s.inFlight, s.notices.Keys, s.next)
    ensures var s' := Dropping(s, target, mark);
            && CountsOk(s'.pool, s'.inFlight, KeySet(s'.watches), KeySet(s'.notices))
            && BatchesOk(s'.batches, s'.generation, s'.active, s'.inFlight, s'.notices.Keys, s'.next)
  {
    SetMono(KeySet(s.watches - {target}), KeySet(s.watches));
    SetMono(KeySet(s.notices - {target}), KeySet(s.notices));
    assert (s.notices - {target}).Keys <= s.notices.Keys;
  }

  lemma DropExposes(s: State, target: Id, mark: bool)
    requires Ids(Discard(s.queue, s.generation, target)) <= Ids(s.queue) - {target}
    requires target in ConsentIds(s.batches, s.generation) ==> mark
    ensures Exposed(Dropping(s, target, mark)) <= Exposed(s) - {target}
  {
  }

  lemma DiscardIds(s: State, target: Id)
    requires Core(s) && s.active.Some?
    ensures Subqueue(Discard(s.queue, s.generation, target), s.queue)
    ensures Ids(Discard(s.queue, s.generation, target)) <= Ids(s.queue) - {target}
    ensures Core(s.(queue := Discard(s.queue, s.generation, target)))
  {
    DistinctDiscard(s.queue, s.generation, target);
    DiscardApart(s, target);
    SubqueueKeeps(s, Discard(s.queue, s.generation, target));
  }

  lemma DropKeeps(s: State, target: Id, mark: bool)
    requires Core(s) && s.active.Some? && target in s.active.value.requests
    requires target in ConsentIds(s.batches, s.generation) ==> mark
    ensures var s' := Dropping(s, target, mark);
            Core(s') && Exposed(s') <= Exposed(s) - {target}
  {
    DiscardIds(s, target);
    DropTables(s, target, mark);
    DropOwners(s, target, mark);
    DropCounts(s, target, mark);
    DropExposes(s, target, mark);
  }

  lemma DropSteady(s: State, target: Id, mark: bool)
    requires s.active.Some? && Exposed(Dropping(s, target, mark)) <= Exposed(s) - {target}
    ensures Steady(s, Dropping(s, target, mark))
  {
  }

  // After giving up `target`, answer the cancelling request.
  lemma DropAnswers(s: State, s1: State, id: Id, target: Id, about: Option<Id>)
    requires Core(s1) && Steady(s, s1) && Answerable(s, id) && target !in Exposed(s1)
    ensures var s' := Respond(Advance(s1), s.generation, id, Ok, Silent, about, NoReason);
            Moves(s, s') && target !in Exposed(s')
  {
    AdvanceMoves(s, s1);
    AdvanceKeeps(s1);
    var s2 := Advance(s1);
    RespondWorks(s2, s.generation, id, Ok, Silent, about, NoReason);
    WorksMoves(s2, Respond(s2, s.generation, id, Ok, Silent, about, NoReason), id);
    MovesTrans(s, s2, Respond(s2, s.generation, id, Ok, Silent, about, NoReason));
  }

  lemma AbsentKey<K, V>(m: map<K, V>, k: K)
    requires k !in m
    ensures m - {k} == m
  {
  }

  // A request for another capability than notifications is in no prompt and owns no notification.
  lemma NotConsented(s: State, target: Id)
    requires Core(s) && s.active.Some? && target in s.active.value.requests
    requires CapabilityOf(s.active.value.requests[target]) != Some(Notifications)
    ensures target !in ConsentIds(s.batches, s.generation) && s.notices - {target} == s.notices
  {
    hide QueueOk, BatchesOk, PoolOk, CountsOk, BacklogOk, DeniedOk, ConsentIds;
    ConsentMember(s.batches, s.generation, target);
    AbsentKey(s.notices, target);
    if k :| Asks(s.batches, s.generation, k, target) {
      var items := s.batches[k].work.items;
      var i :| 0 <= i < |items| && items[i].id == target;
      HeldItem(s, k, items[i]);
      assert false;
    }
  }

  lemma NotWatched(s: State, target: Id)
    requires Core(s) && s.active.Some? && target in s.active.value.requests
    requires s.active.value.requests[target] != LocationWatch
    ensures s.watches - {target} == s.watches
  {
    assert target !in s.watches;
    AbsentKey(s.watches, target);
  }

  // The document knows the target as a request of the kind that op cancels.
  predicate CancelsKnown(s: State, op: Op, target: Id) {
    s.active.Some? && target in s.active.value.requests && Cancels(op, s.active.value.requests[target])
  }

  // The cancelling request itself waits for nothing.
  ghost predicate Cancelling(s: State, s': State, op: Op, target: Id) {
    Moves(s, s') && (CancelsKnown(s, op, target) ==> target !in Exposed(s'))
  }

  lemma QueuedWaiting(s: State, target: Id, cap: Capability)
    requires Core(s) && s.active.Some? && target in s.active.value.requests
    requires CapabilityOf(s.active.value.requests[target]) == Some(cap)
    ensures target in Ids(s.queue) ==> Waiting(s, s.generation, target, cap) && InQueue(s, target)
  {
    if target in Ids(s.queue) {
      var i :| 0 <= i < |s.queue| && s.queue[i].id == target;
      assert Known(s.active.value, s.queue[i]);
    }
  }

  predicate InQueue(s: State, target: Id) {
    exists i :: 0 <= i < |s.queue| && s.queue[i].doc == s.generation && s.queue[i].id == target
  }

  // A remembered request of a kind that the cancelling operation may name.
  predicate Named(s: State, op: Op, target: Id) {
    s.active.Some? && target in s.active.value.requests && Cancels(op, s.active.value.requests[target])
  }

  // What each cancelling operation may name.
  lemma CancelKinds(op: Op)
    ensures Cancels(LocationClear, op) ==> CapabilityOf(op) == Some(Geolocation)
    ensures Cancels(NotificationClose, op) ==> CapabilityOf(op) == Some(Notifications) && op != LocationWatch
    ensures Cancels(ClipboardCancel, op)
            ==> CapabilityOf(op).Some? && IsClipboard(CapabilityOf(op).value) && op != LocationWatch
  {
  }

  lemma UnknownCancel(s: State, op: Op, id: Id, target: Id, about: Option<Id>)
    requires Core(s) && Answerable(s, id)
    requires target in s.active.value.requests && Cancels(op, s.active.value.requests[target])
             ==> target !in Ids(s.queue) && target !in s.inFlight
    ensures Cancelling(s, Respond(s, s.generation, id, Failed, Silent, about, UnknownTarget), op, target)
  {
    RespondWorks(s, s.generation, id, Failed, Silent, about, UnknownTarget);
    WorksMoves(s, Respond(s, s.generation, id, Failed, Silent, about, UnknownTarget), id);
    ConsentInFlight(s.batches, s.generation, s.active, s.inFlight, s.notices.Keys, s.next);
  }

  lemma ClearEquation(s: State, id: Id, target: Id)
    requires s.active.Some? && s.active.value.generation == s.generation
    requires target in s.active.value.requests && Cancels(LocationClear, s.active.value.requests[target])
             ==> s.notices - {target} == s.notices
    ensures var doc := s.active.value;
            ClearLocation(s, doc, id, target)
            == if target in doc.requests && Cancels(LocationClear, doc.requests[target])
                  && (Waiting(s, s.generation, target, Geolocation) || target in s.inFlight || target in s.watches)
               then Respond(Advance(Dropping(s, target, target in s.inFlight && doc.requests[target] == LocationGet)),
                            s.generation, id, Ok, Silent, Some(target), NoReason)
               else Respond(s, s.generation, id, Failed, Silent, Some(target), UnknownTarget)
  {
  }

  lemma ClearNamed(s: State, id: Id, target: Id)
    requires Core(s) && Answerable(s, id) && Named(s, LocationClear, target)
    ensures Cancelling(s, ClearLocation(s, s.active.value, id, target), LocationClear, target)
  {
    var op := s.active.value.requests[target];
    CancelKinds(op);
    NotConsented(s, target);
    ClearEquation(s, id, target);
    QueuedWaiting(s, target, Geolocation);
    if Waiting(s, s.generation, target, Geolocation) || target in s.inFlight || target in s.watches {
      DropCancels(s, id, target, target in s.inFlight && op == LocationGet, Some(target));
    } else {
      UnknownCancel(s, LocationClear, id, target, Some(target));
    }
  }

  lemma ClearLocationKeeps(s: State, id: Id, target: Id)
    requires Core(s) && Answerable(s, id)
    ensures Cancelling(s, ClearLocation(s, s.active.value, id, target), LocationClear, target)
  {
    if Named(s, LocationClear, target) {
      ClearNamed(s, id, target);
    } else {
      ClearEquation(s, id, target);
      UnknownCancel(s, LocationClear, id, target, Some(target));
    }
  }

  lemma ClipboardCancelEquation(s: State, id: Id, target: Id)
    requires s.active.Some? && s.active.value.generation == s.generation
    requires target in s.active.value.requests && Cancels(ClipboardCancel, s.active.value.requests[target])
             ==> s.notices - {target} == s.notices && s.watches - {target} == s.watches
    ensures var doc := s.active.value;
            CancelClipboard(s, doc, id, target)
            == if target in doc.requests && Cancels(ClipboardCancel, doc.requests[target])
               && (InQueue(s, target) || target in s.inFlight)
               then Respond(Advance(Dropping(s, target, target in s.inFlight)), s.generation, id, Ok, Silent, None,
                            NoReason)
               else Respond(s, s.generation, id, Failed, Silent, None, UnknownTarget)
  {
  }

  lemma ClipboardOwnsNothingElse(s: State, target: Id)
    requires Core(s) && Named(s, ClipboardCancel, target)
    ensures s.notices - {target} == s.notices && s.watches - {target} == s.watches
  {
    CancelKinds(s.active.value.requests[target]);
    NotConsented(s, target);
    NotWatched(s, target);
  }

  lemma ClipboardDecides(s: State, id: Id, target: Id)
    requires Core(s) && Named(s, ClipboardCancel, target)
    ensures CancelClipboard(s, s.active.value, id, target)
         == if InQueue(s, target) || target in s.inFlight
            then Respond(Advance(Dropping(s, target, target in s.inFlight)), s.generation, id, Ok, Silent, None,
                         NoReason)
            else Respond(s, s.generation, id, Failed, Silent, None, UnknownTarget)
  {
    ClipboardOwnsNothingElse(s, target);
    ClipboardCancelEquation(s, id, target);
  }

  lemma ClipboardWaits(s: State, target: Id)
    requires Core(s) && Named(s, ClipboardCancel, target)
    ensures target in Ids(s.queue) ==> InQueue(s, target)
    ensures target !in ConsentIds(s.batches, s.generation)
  {
    CancelKinds(s.active.value.requests[target]);
    QueuedWaiting(s, target, CapabilityOf(s.active.value.requests[target]).value);
    NotConsented(s, target);
  }

  lemma ClipboardNamed(s: State, id: Id, target: Id)
    requires Core(s) && Answerable(s, id) && Named(s, ClipboardCancel, target)
    ensures Cancelling(s, CancelClipboard(s, s.active.value, id, target), ClipboardCancel, target)
  {
    ClipboardDecides(s, id, target);
    ClipboardWaits(s, target);
    if InQueue(s, target) || target in s.inFlight {
      DropCancels(s, id, target, target in s.inFlight, None);
    } else {
      UnknownCancel(s, ClipboardCancel, id, target, None);
    }
  }

  lemma CancelClipboardKeeps(s: State, id: Id, target: Id)
    requires Core(s) && Answerable(s, id)
    ensures Cancelling(s, CancelClipboard(s, s.active.value, id, target), ClipboardCancel, target)
  {
    if Named(s, ClipboardCancel, target) {
      ClipboardNamed(s, id, target);
    } else {
      ClipboardCancelEquation(s, id, target);
      UnknownCancel(s, ClipboardCancel, id, target, None);
    }
  }

  lemma DropCancels(s: State, id: Id, target: Id, mark: bool, about: Option<Id>)
    requires Core(s) && Answerable(s, id) && target in s.active.value.requests
    requires target in ConsentIds(s.batches, s.generation) ==> mark
    ensures var s' := Respond(Advance(Dropping(s, target, mark)), s.generation, id, Ok, Silent, about, NoReason);
            Moves(s, s') && target !in Exposed(s')
  {
    DropKeeps(s, target, mark);
    DropSteady(s, target, mark);
    DropAnswers(s, Dropping(s, target, mark), id, target, about);
  }

  // The original show is terminated before what it owned is given up.
  lemma CloseDrops(s: State, target: Id, mark: bool)
    requires Core(s) && s.active.Some? && target in s.active.value.requests
    requires target in ConsentIds(s.batches, s.generation) ==> mark
    ensures var s1 := Respond(s, s.generation, target, Ok, Closed, Some(target), NoReason);
            var s2 := Dropping(s1, target, mark);
            Core(s2) && Steady(s, s2) && target !in Exposed(s2)
  {
    var s1 := Respond(s, s.generation, target, Ok, Closed, Some(target), NoReason);
    var s2 := Dropping(s, target, mark);
    DropKeeps(s, target, mark);
    DropSteady(s, target, mark);
    LogKeeps(s2, s1.posts, s.runs);
    assert Dropping(s1, target, mark) == s2.(posts := s1.posts, runs := s.runs);
    ClosedPosts(s, target, Exposed(s2));
  }

  lemma ClosedPosts(s: State, target: Id, e: set<Id>)
    requires s.active.Some? && target in s.active.value.requests && target !in e
    ensures PostsOk(s.posts, Respond(s, s.generation, target, Ok, Closed, Some(target), NoReason).posts, e,
                    s.active.value)
  {
  }

  lemma CloseCancels(s: State, id: Id, target: Id, show: bool, mark: bool)
    requires Core(s) && Answerable(s, id) && target in s.active.value.requests
    requires target in ConsentIds(s.batches, s.generation) ==> mark
    ensures var s1 := if show then Respond(s, s.generation, target, Ok, Closed, Some(target), NoReason) else s;
            var s' := Respond(Advance(Dropping(s1, target, mark)), s.generation, id, Ok, Silent, Some(target),
                              NoReason);
            Moves(s, s') && target !in Exposed(s')
  {
    if show {
      CloseDrops(s, target, mark);
      DropAnswers(s, Dropping(Respond(s, s.generation, target, Ok, Closed, Some(target), NoReason), target, mark), id,
                  target, Some(target));
    } else {
      DropCancels(s, id, target, mark, Some(target));
    }
  }

  predicate PendingNotice(s: State,
                          target: Id) { target in s.notices && s.notices[target].Worker? && s.notices[target].pending }

  lemma CloseEquation(s: State, id: Id, target: Id)
    requires s.active.Some? && s.active.value.generation == s.generation
    requires target in s.active.value.requests && Cancels(NotificationClose, s.active.value.requests[target])
             ==> s.watches - {target} == s.watches
    ensures var doc := s.active.value;
            CloseNotification(s, doc, id, target)
            == if target in doc.requests && Cancels(NotificationClose, doc.requests[target])
                  && (Waiting(s, s.generation, target, Notifications) || target in s.inFlight || target in s.notices)
               then
                 var s1 := if doc.requests[target] == NotificationShow
                           then Respond(s, s.generation, target, Ok, Closed, Some(target), NoReason) else s;
                 Respond(Advance(Dropping(s1, target, target in s.inFlight || PendingNotice(s, target))),
                         s.generation, id, Ok, Silent, Some(target), NoReason)
               else Respond(s, s.generation, id, Failed, Silent, Some(target), UnknownTarget)
  {
    hide Advance, Discard;
  }

  lemma CloseDecides(s: State, id: Id, target: Id)
    requires Core(s) && Named(s, NotificationClose, target)
    ensures CloseNotification(s, s.active.value, id, target)
         == if Waiting(s, s.generation, target, Notifications) || target in s.inFlight || target in s.notices
            then
              var s1 := if s.active.value.requests[target] == NotificationShow
                        then Respond(s, s.generation, target, Ok, Closed, Some(target), NoReason) else s;
              Respond(Advance(Dropping(s1, target, target in s.inFlight || PendingNotice(s, target))),
                      s.generation, id, Ok, Silent, Some(target), NoReason)
            else Respond(s, s.generation, id, Failed, Silent, Some(target), UnknownTarget)
  {
    CancelKinds(s.active.value.requests[target]);
    NotWatched(s, target);
    CloseEquation(s, id, target);
  }

  lemma CloseNamed(s: State, id: Id, target: Id)
    requires Core(s) && Answerable(s, id) && Named(s, NotificationClose, target)
    ensures Cancelling(s, CloseNotification(s, s.active.value, id, target), NotificationClose, target)
  {
    CancelKinds(s.active.value.requests[target]);
    CloseDecides(s, id, target);
    QueuedWaiting(s, target, Notifications);
    if Waiting(s, s.generation, target, Notifications) || target in s.inFlight || target in s.notices {
      ConsentInFlight(s.batches, s.generation, s.active, s.inFlight, s.notices.Keys, s.next);
      CloseCancels(s, id, target, s.active.value.requests[target] == NotificationShow,
                   target in s.inFlight || PendingNotice(s, target));
    } else {
      UnknownCancel(s, NotificationClose, id, target, Some(target));
    }
  }

  lemma CloseNotificationKeeps(s: State, id: Id, target: Id)
    requires Core(s) && Answerable(s, id)
    ensures Cancelling(s, CloseNotification(s, s.active.value, id, target), NotificationClose, target)
  {
    if Named(s, NotificationClose, target) {
      CloseNamed(s, id, target);
    } else {
      CloseEquation(s, id, target);
      UnknownCancel(s, NotificationClose, id, target, Some(target));
    }
  }

  /********** Replay history **********/

  // Everything that owns something is remembered.
  lemma OwnersAreRemembered(s: State)
    requires Core(s) && s.active.Some?
    ensures Protected(s) <= s.active.value.requests.Keys
  {
    forall x | x in Ids(s.queue) ensures x in s.active.value.requests {
      var i :| 0 <= i < |s.queue| && s.queue[i].id == x;
      assert Known(s.active.value, s.queue[i]);
    }
  }

  // doc' remembers what doc remembers about these ids.
  ghost predicate Retains(doc: Doc, doc': Doc, ids: set<Id>) {
    && doc' == doc.(requests := doc'.requests, order := doc'.order)
    && forall x :: x in ids && x in doc.requests ==> x in doc'.requests && doc'.requests[x] == doc.requests[x]
  }

  lemma TablesSwap(doc: Doc, doc': Doc, g: nat, queue: seq<Queued>, watches: map<Id, Watch>, notices: map<Id, Notice>,
                   inFlight: set<Id>, cancelled: set<Id>)
    requires TablesOk(Some(doc), g, queue, watches, notices, inFlight, cancelled) && DocOk(doc')
    requires Retains(doc, doc', Ids(queue) + watches.Keys + notices.Keys + inFlight + cancelled)
    ensures TablesOk(Some(doc'), g, queue, watches, notices, inFlight, cancelled)
  {
    forall i | 0 <= i < |queue| ensures Known(doc', queue[i]) {
      assert Known(doc, queue[i]) && queue[i].id in Ids(queue);
    }
  }

  lemma WorkSwap(doc: Doc, doc': Doc, w: Work, ids: set<Id>)
    requires WorkOk(Some(doc), w) && Retains(doc, doc', ids) && WorkIds(w) <= ids
    ensures WorkOk(Some(doc'), w)
  {
    if w.Consenting? {
      forall i | 0 <= i < |w.items| ensures Known(doc', w.items[i]) {
        assert Known(doc, w.items[i]) && w.items[i].id in Ids(w.items);
      }
    }
  }

  lemma BatchesSwap(doc: Doc, doc': Doc, batches: map<nat, Batch>, g: nat, inFlight: set<Id>, notices: set<Id>,
                    next: nat)
    requires BatchesOk(batches, g, Some(doc), inFlight, notices, next) && Retains(doc, doc', inFlight)
    ensures BatchesOk(batches, g, Some(doc'), inFlight, notices, next)
  {
    forall k | Current(batches, g, k) ensures WorkOk(Some(doc'), batches[k].work) {
      forall x | x in WorkIds(batches[k].work) ensures x in inFlight { assert Holds(batches, g, k, x); }
      WorkSwap(doc, doc', batches[k].work, inFlight);
    }
  }

  lemma RetainsFewer(doc: Doc, doc': Doc, ids: set<Id>, fewer: set<Id>)
    requires Retains(doc, doc', ids) && fewer <= ids
    ensures Retains(doc, doc', fewer)
  {
  }

  lemma SwapKeeps(s: State, doc': Doc)
    requires Core(s) && s.active.Some? && DocOk(doc') && Retains(s.active.value, doc', Protected(s))
    ensures var s' := WithDoc(s, doc');
            Core(s') && Exposed(s') == Exposed(s) && forall x :: Owned(s', x) <==> Owned(s, x)
  {
    TablesSwap(s.active.value, doc', s.generation, s.queue, s.watches, s.notices, s.inFlight, s.cancelled);
    RetainsFewer(s.active.value, doc', Protected(s), s.inFlight);
    BatchesSwap(s.active.value, doc', s.batches, s.generation, s.inFlight, s.notices.Keys, s.next);
    DocExposes(s, doc');
  }

  // The pruned entry is the first that is neither the connection nor an owner.
  lemma {:induction false} OldestResult(doc: Doc, owners: set<Id>, i: nat)
    requires i <= |doc.order|
    ensures var r := Oldest(doc, owners, i);
            if r.Some?
            then i <= r.value < |doc.order| && doc.order[r.value] !in owners
                 && !(doc.order[r.value] in doc.requests && doc.requests[doc.order[r.value]] == Connect)
                 && forall j :: i <= j < r.value ==>
                    doc.order[j] in owners || (doc.order[j] in doc.requests && doc.requests[doc.order[j]] == Connect)
            else forall j :: i <= j < |doc.order| ==>
                 doc.order[j] in owners || (doc.order[j] in doc.requests && doc.requests[doc.order[j]] == Connect)
    decreases |doc.order| - i
  {
    if i < |doc.order| { OldestResult(doc, owners, i + 1); }
  }

  // Every remembered id is the connection or an owner.
  ghost predicate AllOwned(doc: Doc, owners: set<Id>) {
    forall x :: x in doc.requests ==> x in owners || doc.requests[x] == Connect
  }

  lemma RemoveKey<K, V>(m: map<K, V>, k: K)
    requires k in m
    ensures Size(m - {k}) == Size(m) - 1
  {
    assert KeySet(m - {k}) == KeySet(m) - {k};
  }

  ghost predicate DistinctSeq(order: seq<Id>) { forall i, j :: 0 <= i < j < |order| ==> order[i] != order[j] }

  function DropAt(order: seq<Id>, i: nat): seq<Id>
    requires i < |order|
  {
    order[..i] + order[i + 1..]
  }

  lemma DropAtDistinct(order: seq<Id>, i: nat)
    requires DistinctSeq(order) && i < |order|
    ensures DistinctSeq(DropAt(order, i))
  {
    var rest := DropAt(order, i);
    forall j, k | 0 <= j < k < |rest| ensures rest[j] != rest[k] {
      assert rest[j] == order[if j < i then j else j + 1];
      assert rest[k] == order[if k < i then k else k + 1];
    }
  }

  lemma DropAtMembers(order: seq<Id>, i: nat, x: Id)
    requires DistinctSeq(order) && i < |order|
    ensures x in DropAt(order, i) <==> x in order && x != order[i]
  {
    var rest := DropAt(order, i);
    if x in order && x != order[i] {
      var j :| 0 <= j < |order| && order[j] == x;
      assert rest[if j < i then j else j - 1] == x;
    }
    if x in rest {
      var j :| 0 <= j < |rest| && rest[j] == x;
      assert order[if j < i then j else j + 1] == x;
    }
  }

  lemma PruneOrder(doc: Doc, i: nat)
    requires DocOk(doc) && i < |doc.order|
    ensures DocOk(doc.(requests := doc.requests - {doc.order[i]}, order := DropAt(doc.order, i)))
  {
    var id := doc.order[i];
    assert id in doc.order;
    RemoveKey(doc.requests, id);
    DropAtDistinct(doc.order, i);
    forall x ensures x in doc.requests - {id} <==> x in DropAt(doc.order, i) { DropAtMembers(doc.order, i, x); }
  }

  lemma NothingOldest(doc: Doc, owners: set<Id>)
    requires DocOk(doc) && Oldest(doc, owners, 0).None?
    ensures AllOwned(doc, owners)
  {
    OldestResult(doc, owners, 0);
    forall x | x in doc.requests ensures x in owners || doc.requests[x] == Connect {
      assert x in doc.order;
      var j :| 0 <= j < |doc.order| && doc.order[j] == x;
    }
  }

  lemma PruneAt(doc: Doc, owners: set<Id>)
    requires DocOk(doc) && Size(doc.requests) >= MAX_REMEMBERED && Oldest(doc, owners, 0).Some?
    ensures var p := Prune(doc, owners);
            && DocOk(p) && Retains(doc, p, owners) && p.requests.Keys <= doc.requests.Keys
            && (forall x :: x in doc.requests && doc.requests[x] == Connect ==> x in p.requests)
            && Size(p.requests) == Size(doc.requests) - 1
  {
    OldestResult(doc, owners, 0);
    var i := Oldest(doc, owners, 0).value;
    PruneOrder(doc, i);
    assert doc.order[i] in doc.order;
    RemoveKey(doc.requests, doc.order[i]);
  }

  // Pruning never forgets an owner or the connection, and fails only when everything is owned.
  lemma PruneKeeps(doc: Doc, owners: set<Id>)
    requires DocOk(doc)
    ensures var p := Prune(doc, owners);
            && DocOk(p) && Retains(doc, p, owners) && p.requests.Keys <= doc.requests.Keys
            && (forall x :: x in doc.requests && doc.requests[x] == Connect ==> x in p.requests)
            && (Size(p.requests) < MAX_REMEMBERED || (p == doc && AllOwned(doc, owners)))
  {
    hide Oldest, AllOwned;
    if Size(doc.requests) >= MAX_REMEMBERED {
      if Oldest(doc, owners, 0).Some? { PruneAt(doc, owners); } else { NothingOldest(doc, owners); }
    }
  }

  lemma RememberKeeps(doc: Doc, id: Id, op: Op, ids: set<Id>)
    requires DocOk(doc) && id !in doc.requests && Size(doc.requests) < MAX_REMEMBERED && op != Connect
    requires ids <= doc.requests.Keys
    ensures DocOk(Remember(doc, id, op)) && Retains(doc, Remember(doc, id, op), ids)
  {
    var requests := doc.requests[id := op];
    assert KeySet(requests) == KeySet(doc.requests) + {id};
    var order := doc.order + [id];
    forall x ensures x in requests <==> x in order {
      assert x in order <==> x in doc.order || x == id;
    }
  }

  /********** Requests **********/

  predicate Accepts(s: State, client: Client) {
    s.active.Some? && s.active.value.client == client && Live(s, s.active.value.generation)
  }

  function Pruned(s: State): Doc
    requires s.active.Some?
  {
    Prune(s.active.value, Protected(s))
  }

  // A new request after it was remembered and before it is acted on.
  function Registered(s: State, id: Id, op: Op): State
    requires s.active.Some?
  {
    WithDoc(s, Remember(Pruned(s), id, op))
  }

  lemma PrunedKeeps(s: State)
    requires Core(s) && s.active.Some?
    ensures var s1 := WithDoc(s, Pruned(s));
            Core(s1) && Exposed(s1) == Exposed(s) && forall x :: Owned(s1, x) <==> Owned(s, x)
  {
    PruneKeeps(s.active.value, Protected(s));
    SwapKeeps(s, Pruned(s));
  }

  lemma RegisteredKeeps(s: State, id: Id, op: Op)
    requires Core(s) && s.active.Some? && id !in s.active.value.requests && op != Connect
    requires Size(Pruned(s).requests) < MAX_REMEMBERED
    ensures var s1 := Registered(s, id, op);
            Core(s1) && Exposed(s1) == Exposed(s) && Free(s1, id) && Answerable(s1, id)
              && s1.active.value.requests[id] == op
  {
    PrunedKeeps(s);
    var s0 := WithDoc(s, Pruned(s));
    OwnersAreRemembered(s0);
    PruneKeeps(s.active.value, Protected(s));
    assert id !in Pruned(s).requests;
    RememberKeeps(Pruned(s), id, op, Protected(s0));
    SwapKeeps(s0, Remember(Pruned(s), id, op));
    ConsentInFlight(s.batches, s.generation, s.active, s.inFlight, s.notices.Keys, s.next);
  }

  lemma DispatchEquation(s: State, doc: Doc, id: Id, op: Op, target: Id, env: Env)
    ensures op == LocationClear ==> Dispatch(s, doc, id, op, target, env) == ClearLocation(s, doc, id, target)
    ensures op == NotificationClose ==> Dispatch(s, doc, id, op, target, env) == CloseNotification(s, doc, id, target)
    ensures op == ClipboardCancel ==> Dispatch(s, doc, id, op, target, env) == CancelClipboard(s, doc, id, target)
    ensures CapabilityOf(op).Some?
            ==> (Dispatch(s, doc, id, op, target, env)
                 == RequestCapability(s, doc.generation, id, op, CapabilityOf(op).value, env))
  {
  }

  lemma DispatchCancel(s: State, id: Id, op: Op, target: Id, env: Env)
    requires Core(s) && Answerable(s, id) && IsCancel(op)
    ensures Cancelling(s, Dispatch(s, s.active.value, id, op, target, env), op, target)
  {
    DispatchEquation(s, s.active.value, id, op, target, env);
    if op == LocationClear { ClearLocationKeeps(s, id, target); }
    else if op == NotificationClose { CloseNotificationKeeps(s, id, target); }
    else { CancelClipboardKeeps(s, id, target); }
  }

  lemma DispatchConsent(s: State, id: Id, op: Op, target: Id, env: Env)
    requires Core(s) && s.active.Some? && CapabilityOf(op).Some? && Ready(s, id, op, CapabilityOf(op).value)
    requires !QueueRefuses(s, id, CapabilityOf(op).value, env)
    ensures Handled(s, Dispatch(s, s.active.value, id, op, target, env), id)
  {
    assert s.active.value.generation == s.generation;
    DispatchEquation(s, s.active.value, id, op, target, env);
    RequestCapabilityKeeps(s, id, op, CapabilityOf(op).value, env);
  }

  // The queue limit refuses the request and changes nothing else.
  lemma DispatchRefused(s: State, id: Id, op: Op, target: Id, env: Env)
    requires s.active.Some? && s.active.value.generation == s.generation && CapabilityOf(op).Some?
    requires QueueRefuses(s, id, CapabilityOf(op).value, env)
    ensures Dispatch(s, s.active.value, id, op, target, env) == Answer(s, s.generation, id, Failed, TooManyPending)
  {
  }

  lemma RequestKinds(op: Op)
    requires op != Connect && !IsCancel(op)
    ensures CapabilityOf(op).Some?
  {
  }

  // A step of a document that may also answer outside `Sound`.
  ghost predicate Proceeds(s: State, s': State) {
    Core(s') && (PromptOk(s) ==> PromptOk(s')) && Transition(s, s')
  }

  lemma CancelProceeds(s: State, s': State, op: Op, target: Id)
    requires Cancelling(s, s', op, target)
    ensures Proceeds(s, s')
  {
    SoundTransition(Exposed(s), s, Exposed(s'), s');
  }

  lemma HandledProceeds(s: State, s': State, id: Id)
    requires Handled(s, s', id)
    ensures Proceeds(s, s')
  {
    SoundTransition(Exposed(s) + {id}, s, Exposed(s'), s');
  }

  lemma ConsentProceeds(s: State, id: Id, op: Op, cap: Capability, target: Id, env: Env)
    requires Core(s) && Ready(s, id, op, cap)
    ensures Proceeds(s, Dispatch(s, s.active.value, id, op, target, env))
  {
    var s' := Dispatch(s, s.active.value, id, op, target, env);
    if QueueRefuses(s, id, cap, env) {
      DispatchRefused(s, id, op, target, env);
      AnsweredTransition(s, id, Failed, TooManyPending);
    } else {
      DispatchConsent(s, id, op, target, env);
      HandledProceeds(s, s', id);
    }
  }

  // Acting on a remembered request.
  lemma DispatchKeeps(s: State, id: Id, op: Op, target: Id, env: Env)
    requires Core(s) && s.active.Some? && Free(s, id) && Answerable(s, id) && op != Connect
    requires s.active.value.requests[id] == op
    ensures Proceeds(s, Dispatch(s, s.active.value, id, op, target, env))
  {
    if IsCancel(op) {
      DispatchCancel(s, id, op, target, env);
      CancelProceeds(s, Dispatch(s, s.active.value, id, op, target, env), op, target);
    } else {
      RequestKinds(op);
      ConsentProceeds(s, id, op, CapabilityOf(op).value, target, env);
    }
  }

  lemma AcceptedKeeps(s: State, id: Id, op: Op, target: Id, env: Env)
    requires Valid(s) && s.active.Some? && id !in s.active.value.requests && op != Connect
    requires Size(Pruned(s).requests) < MAX_REMEMBERED
    ensures var s1 := Registered(s, id, op);
            var s' := Dispatch(s1, s1.active.value, id, op, target, env);
            Valid(s') && Transition(s1, s')
  {
    RegisteredKeeps(s, id, op);
    DispatchKeeps(Registered(s, id, op), id, op, target, env);
  }

  /********** Steps **********/

  // What every step does to the document and the native work: a document keeps its denials and starts no
  // work for a denied capability, and a replaced document starts nothing.
  ghost predicate Transition(s: State, s': State) {
    && s.generation <= s'.generation
    && s.runs <= s'.runs
    && (if s'.generation == s.generation && s.active.Some?
        then
          && s'.active.Some? && s'.active.value.client == s.active.value.client
          && s.active.value.denied <= s'.active.value.denied
          && RunsOk(s.runs, s'.runs, s.generation, s.active.value.denied)
        else s'.runs == s.runs && (s'.generation == s.generation ==> s'.active.None?))
  }

  // What a step that is no message shows the frame: only answers to remembered requests that wait for nothing
  // any more; nothing new waits.
  ghost predicate Shown(s: State, s': State) {
    && s.posts <= s'.posts && s'.managed == s.managed
    && (if s'.active.Some?
        then
          && s.active.Some? && s'.active.value.client == s.active.value.client
          && s'.active.value.requests == s.active.value.requests
          && Exposed(s') <= Exposed(s) && PostsOk(s.posts, s'.posts, Exposed(s'), s.active.value)
        else s'.posts == s.posts)
  }

  lemma SteadyShown(s: State, s': State)
    requires Steady(s, s')
    ensures Shown(s, s')
  {
  }

  lemma DroppedShown(s: State, s': State)
    requires Dropped(s, s')
    ensures Shown(s, s')
  {
  }

  lemma SameShown(s: State, s': State)
    requires s'.posts == s.posts && s'.managed == s.managed && s'.active == s.active && Exposed(s') == Exposed(s)
    ensures Shown(s, s')
  {
  }

  lemma SoundTransition(e: set<Id>, s: State, e': set<Id>, s': State)
    requires Sound(e, s, e', s')
    ensures Transition(s, s')
  {
  }

  // A logged answer moves nothing.
  lemma PostedTransition(s: State, posts: seq<Response>)
    requires Core(s)
    ensures var s' := s.(posts := posts, runs := s.runs);
            Core(s') && Transition(s, s') && (PromptOk(s) ==> PromptOk(s'))
  {
    LogKeeps(s, posts, s.runs);
  }

  lemma AnsweredTransition(s: State, id: Id, status: Status, reason: Reason)
    requires Core(s) && s.active.Some?
    ensures var s' := Answer(s, s.generation, id, status, reason);
            Core(s') && Transition(s, s') && (PromptOk(s) ==> PromptOk(s'))
  {
    var s' := Answer(s, s.generation, id, status, reason);
    assert s' == s.(posts := s'.posts, runs := s.runs);
    PostedTransition(s, s'.posts);
  }

  lemma DroppedTransition(s: State, s': State)
    requires Dropped(s, s')
    ensures Transition(s, s') && (PromptOk(s) ==> PromptOk(s'))
  {
  }

  lemma TransitionFrom(s0: State, s1: State, s2: State)
    requires Transition(s1, s2) && s0.active.Some? && s1.active.Some? && s1 == s0.(active := s1.active)
    requires s1.active.value == s0.active.value.(requests := s1.active.value.requests, order := s1.active.value.order)
    ensures Transition(s0, s2)
  {
  }

  lemma HandleRequestKeeps(s: State, client: Client, id: Id, op: Op, target: Id, env: Env)
    requires Valid(s) && op != Connect
    ensures var s' := HandleRequest(s, client, id, op, target, env);
            Valid(s') && Transition(s, s')
  {
    if !Accepts(s, client) {
      LogKeeps(s, HandleRequest(s, client, id, op, target, env).posts, s.runs);
    } else if id in s.active.value.requests {
      AnsweredTransition(s, id, Failed, DuplicateRequest);
    } else {
      HandleNew(s, client, id, op, target, env);
    }
  }

  lemma HandleNewEquation(s: State, client: Client, id: Id, op: Op, target: Id, env: Env)
    requires Accepts(s, client) && id !in s.active.value.requests && s.active.value.generation == s.generation
    ensures var s1 := Registered(s, id, op);
            HandleRequest(s, client, id, op, target, env)
            == if Size(Pruned(s).requests) >= MAX_REMEMBERED
               then Answer(WithDoc(s, Pruned(s)), s.generation, id, Failed, TooManyActive)
               else Dispatch(s1, s1.active.value, id, op, target, env)
  {
  }

  lemma HandleNew(s: State, client: Client, id: Id, op: Op, target: Id, env: Env)
    requires Valid(s) && op != Connect && Accepts(s, client) && id !in s.active.value.requests
    ensures var s' := HandleRequest(s, client, id, op, target, env);
            Valid(s') && Transition(s, s')
  {
    hide Core, Exposed, Protected, Dispatch, Transition;
    ActiveIsCurrent(s);
    HandleNewEquation(s, client, id, op, target, env);
    var s' := HandleRequest(s, client, id, op, target, env);
    if Size(Pruned(s).requests) >= MAX_REMEMBERED {
      PrunedKeeps(s);
      var s0 := WithDoc(s, Pruned(s));
      AnsweredTransition(s0, id, Failed, TooManyActive);
      TransitionFrom(s, s0, s');
    } else {
      AcceptedKeeps(s, id, op, target, env);
      TransitionFrom(s, Registered(s, id, op), s');
    }
  }

  lemma NothingIsCurrent(batches: map<nat, Batch>, g: nat, active: Option<Doc>, inFlight: set<Id>, notices: set<Id>,
                         next: nat, later: nat)
    requires BatchesOk(batches, g, active, inFlight, notices, next) && g < later
    ensures forall k :: !Current(batches, later, k)
    ensures ConsentIds(batches, later) == {}
  {
    forall x ensures x !in ConsentIds(batches, later) { ConsentMember(batches, later, x); }
  }

  lemma NothingExposed(s: State)
    requires s.queue == [] && ConsentIds(s.batches, s.generation) == {}
    ensures Exposed(s) == {} && BacklogOk(s.queue, ConsentIds(s.batches, s.generation))
  {
    assert Ids([]) == {};
    assert Lists([], s.queue, ConsentIds(s.batches, s.generation));
  }

  lemma ResetTables(s: State)
    requires BatchesOk(s.batches, s.generation, s.active, s.inFlight, s.notices.Keys, s.next)
    ensures var s' := Reset(s);
            && BatchesOk(s'.batches, s'.generation, s'.active, s'.inFlight, s'.notices.Keys, s'.next)
            && ConsentIds(s'.batches, s'.generation) == {}
  {
    NothingIsCurrent(s.batches, s.generation, s.active, s.inFlight, s.notices.Keys, s.next, s.generation + 1);
    ResetBatches(s.batches, s.generation, s.active, s.inFlight, s.notices.Keys, s.next, s.generation + 1);
  }

  lemma ResetBatches(batches: map<nat, Batch>, g: nat, active: Option<Doc>, inFlight: set<Id>, notices: set<Id>,
                     next: nat, later: nat)
    requires BatchesOk(batches, g, active, inFlight, notices, next) && g < later
    requires forall k :: !Current(batches, later, k)
    ensures BatchesOk(batches, later, None, {}, {}, next)
  {
  }

  // A replaced document keeps only its native slots.
  lemma ResetKeeps(s: State)
    requires Core(s)
    ensures var s' := Reset(s);
            Valid(s') && s'.active.None? && Exposed(s') == {} && s'.pool == s.pool && s'.batches == s.batches
  {
    ResetTables(s);
    NothingExposed(Reset(s));
  }

  lemma ConnectTables(s: State, client: Client, id: Id)
    requires Valid(s) && s.active.None?
    ensures Valid(WithDoc(s, Doc(client, s.generation, {}, 0, map[id := Connect], [id])))
  {
    var d := Doc(client, s.generation, {}, 0, map[id := Connect], [id]);
    assert KeySet(d.requests) == {id};
    assert BatchesOk(s.batches, s.generation, Some(d), s.inFlight, s.notices.Keys, s.next);
  }

  lemma CountConnect(s: State)
    requires Valid(s)
    ensures Valid(s.(connects := s.connects + 1)) && Exposed(s.(connects := s.connects + 1)) == Exposed(s)
  {
  }

  lemma ReplacedTransition(s: State, s': State)
    requires s'.generation > s.generation && s'.runs == s.runs
    ensures Transition(s, s')
  {
  }

  function Connected(s: State, client: Client, id: Id): State {
    WithDoc(Reset(s).(connects := s.connects + 1), Doc(client, s.generation + 1, {}, 0, map[id := Connect], [id]))
  }

  lemma ConnectEquation(s: State, client: Client, id: Id)
    ensures var s1 := Connected(s, client, id);
            HandleConnect(s, client, id) == Answer(s1, s1.generation, id, Ok, NoReason)
  {
  }

  lemma ConnectedKeeps(s: State, client: Client, id: Id)
    requires Valid(s)
    ensures Valid(Connected(s, client, id)) && Exposed(Connected(s, client, id)) == {}
  {
    ResetKeeps(s);
    CountConnect(Reset(s));
    var s1 := Reset(s).(connects := s.connects + 1);
    ConnectTables(s1, client, id);
    DocExposes(s1, Connected(s, client, id).active.value);
  }

  lemma ConnectKeeps(s: State, client: Client, id: Id)
    requires Valid(s)
    ensures var s' := HandleConnect(s, client, id);
            Valid(s') && Transition(s, s') && Exposed(s') == {}
  {
    var s1 := Connected(s, client, id);
    ConnectedKeeps(s, client, id);
    ConnectEquation(s, client, id);
    AnsweredTransition(s1, id, Ok, NoReason);
    LogKeeps(s1, Answer(s1, s1.generation, id, Ok, NoReason).posts, s1.runs);
    ReplacedTransition(s, HandleConnect(s, client, id));
  }

  lemma MessageKeeps(s: State, m: Message, env: Env)
    requires Valid(s)
    ensures var s' := HandleMessage(s, m, env);
            Valid(s') && Transition(s, s')
  {
    hide Core, HandleRequest, Exposed;
    if s.managed {
      match m
      case Disconnect(client) => ResetKeeps(s);
      case Garbled(client, id) =>
        if s.active.Some? && s.active.value.client == client {
          ActiveIsCurrent(s);
          AnsweredTransition(s, id, Failed, MalformedRequest);
        }
      case Request(client, id, op, target) =>
        if op == Connect { ConnectKeeps(s, client, id); } else { HandleRequestKeeps(s, client, id, op, target, env); }
    }
  }

  lemma SettlesTransition(s: State, s': State, k: nat)
    requires Valid(s) && Settles(s, s', k)
    ensures Valid(s') && Transition(s, s') && Shown(s, s')
  {
    if Current(s.batches, s.generation, k) {
      MovesTransition(s, s');
    } else {
      DroppedTransition(s, s');
      DroppedShown(s, s');
    }
  }

  lemma EffectTransition(s: State, s': State, k: nat, id: Id)
    requires Valid(s) && Effect(s, s', k, id)
    ensures Valid(s') && Transition(s, s') && Shown(s, s')
  {
    if Current(s.batches, s.generation, k) {
      SoundTransition(Exposed(s), s, Exposed(s'), s');
      SteadyShown(s, s');
    } else {
      DroppedTransition(s, s');
      DroppedShown(s, s');
    }
  }

  lemma MovesTransition(s: State, s': State)
    requires Valid(s) && Moves(s, s')
    ensures Valid(s') && Transition(s, s') && Shown(s, s')
  {
    SoundTransition(Exposed(s), s, Exposed(s'), s');
    SteadyShown(s, s');
  }

  lemma ElsewhereBatches(batches: map<nat, Batch>, g: nat, active: Option<Doc>, inFlight: set<Id>, notices: set<Id>,
                         next: nat, count: nat)
    requires BatchesOk(batches, g, active, inFlight, notices, next) && count >= 1
    ensures var more := batches[next := Batch(Fresh(next, count), 0, Elsewhere)];
            BatchesOk(more, g, active, inFlight, notices, next + count) && ConsentIds(more, g) == ConsentIds(batches, g)
  {
    var b := Batch(Fresh(next, count), 0, Elsewhere);
    assert inFlight + {} == inFlight;
    assert next !in batches;
    ConsentAdd(batches, g, next, b);
    BatchesAdd(batches, g, active, inFlight, notices, next, b, {}, count);
  }

  // Only slots change.
  lemma SlotsKeep(s: State, s': State)
    requires Valid(s) && s' == s.(pool := s'.pool, batches := s'.batches, next := s'.next)
    requires ConsentIds(s'.batches, s.generation) == ConsentIds(s.batches, s.generation)
    requires BatchesOk(s'.batches, s.generation, s.active, s.inFlight, s.notices.Keys, s'.next)
    requires PoolOk(s'.pool, s'.batches, s'.next) && |s'.pool| <= MAX_IN_FLIGHT
    ensures Valid(s') && Transition(s, s') && Exposed(s') == Exposed(s)
  {
    hide TablesOk, QueueOk, BatchesOk, PoolOk, BacklogOk, DeniedOk, ConsentIds, Ids;
  }

  function Elsewhered(s: State, count: nat): State {
    s.(pool := s.pool + Fresh(s.next, count),
       batches := s.batches[s.next := Batch(Fresh(s.next, count), 0, Elsewhere)],
       next := s.next + count)
  }

  lemma ElsewhereEquation(s: State, count: nat)
    ensures Begin(s, 0, count, {}, Elsewhere) == Elsewhered(s, count)
  {
    assert s.inFlight + {} == s.inFlight;
  }

  lemma ElsewhereSlots(s: State, count: nat)
    requires Core(s) && Reservable(s, count)
    ensures var s' := Elsewhered(s, count); PoolOk(s'.pool, s'.batches, s'.next) && |s'.pool| <= MAX_IN_FLIGHT
  {
    NextIsNew(s);
    PoolAdd(s.pool, s.batches, s.next, Batch(Fresh(s.next, count), 0, Elsewhere), count);
  }

  lemma ElsewhereWork(s: State, count: nat)
    requires Core(s) && count >= 1
    ensures var s' := Elsewhered(s, count);
            ConsentIds(s'.batches, s.generation) == ConsentIds(s.batches, s.generation)
            && BatchesOk(s'.batches, s.generation, s.active, s.inFlight, s.notices.Keys, s'.next)
  {
    ElsewhereBatches(s.batches, s.generation, s.active, s.inFlight, s.notices.Keys, s.next, count);
  }

  lemma ElsewhereKeeps(s: State, count: nat)
    requires Valid(s) && Reservable(s, count)
    ensures var s' := Begin(s, 0, count, {}, Elsewhere);
            Valid(s') && Transition(s, s') && Shown(s, s')
  {
    hide TablesOk, QueueOk, BatchesOk, PoolOk, BacklogOk, DeniedOk, ConsentIds, Transition, Shown;
    ElsewhereSlots(s, count);
    ElsewhereWork(s, count);
    SlotsKeep(s, Elsewhered(s, count));
    ElsewhereEquation(s, count);
    SameShown(s, Elsewhered(s, count));
  }

  lemma ManageKeeps(s: State, managed: bool)
    requires Valid(s)
    ensures Valid(s.(managed := managed)) && Transition(s, s.(managed := managed))
  {
    assert Core(s.(managed := managed));
  }

  lemma CountLoad(s: State)
    requires Valid(s)
    ensures var s' := s.(handledConnects := s.connects);
            Valid(s') && Transition(s, s') && Shown(s, s')
  {
    SameShown(s, s.(handledConnects := s.connects));
  }

  lemma RevokeKeeps(s: State)
    requires Valid(s)
    ensures Valid(Revoke(s)) && Transition(s, Revoke(s)) && Shown(s, Revoke(s))
  {
    ResetKeeps(s.(handledConnects := s.connects));
  }

  lemma LoadEquation(s: State)
    ensures FrameLoaded(s) == s.(handledConnects := s.connects) || FrameLoaded(s) == Revoke(s)
  {
  }

  lemma LoadKeeps(s: State)
    requires Valid(s)
    ensures Valid(FrameLoaded(s)) && Transition(s, FrameLoaded(s)) && Shown(s, FrameLoaded(s))
  {
    LoadEquation(s);
    CountLoad(s);
    RevokeKeeps(s);
  }

  lemma EmptyQueue(s: State)
    requires Valid(s) && s.active.None?
    ensures s.queue == [] && Advance(s) == s
  {
  }

  lemma ClickKeeps(s: State, allow: bool, mode: Mode, env: Env)
    requires Valid(s)
    ensures var s' := if allow then Allow(s, mode, env) else Deny(s);
            Valid(s') && Transition(s, s') && Shown(s, s')
  {
    if s.active.None? {
      EmptyQueue(s);
      SameShown(s, s);
    } else if allow {
      AllowKeeps(s, mode, env);
      MovesTransition(s, Allow(s, mode, env));
    } else {
      DenyKeeps(s);
      MovesTransition(s, Deny(s));
    }
  }

  lemma CallbackKeeps(s: State, s': State, id: Id)
    requires Valid(s) && (if s.active.Some? then Works(s, s', id) else s' == s)
    ensures Valid(s') && Transition(s, s') && Shown(s, s')
  {
    if s.active.Some? {
      SoundTransition(Exposed(s), s, Exposed(s'), s');
      SteadyShown(s, s');
    } else {
      SameShown(s, s);
    }
  }

  /** Every step of the broker, for any preview and any native answers, keeps the invariant. */
  // Native work settles, or a native event fires.
  lemma NativeKeepsValid(s: State, a: Action, env: Env)
    requires Valid(s) && Enabled(s, a)
    requires a.LocationSettles? || a.ClipboardSettles? || a.PromptSettles? || a.ShowResumes? || a.WatchFires?
             || a.NoticeFires?
    ensures Valid(Next(s, a, env)) && Transition(s, Next(s, a, env)) && Shown(s, Next(s, a, env))
  {
    hide Core, Works, Dropped, Exposed, Transition, Shown, SettleLocation, SettleClipboard, SettleConsent, ResumeShow,
         WatchEvent, NoticeEvent;
    match a
    case LocationSettles(k, fix) =>
      SettleLocationKeeps(s, k, fix);
      EffectTransition(s, SettleLocation(s, k, fix), k, s.batches[k].work.id);
    case ClipboardSettles(k) =>
      SettleClipboardKeeps(s, k, env);
      SettlesTransition(s, SettleClipboard(s, k, env), k);
    case PromptSettles(k, status, dismissed) =>
      SettleConsentKeeps(s, k, status, dismissed, env);
      SettlesTransition(s, SettleConsent(s, k, status, dismissed, env), k);
    case ShowResumes(k) =>
      ResumeShowKeeps(s, k, env);
      EffectTransition(s, ResumeShow(s, k, env), k, s.batches[k].work.id);
    case WatchFires(id, d, fix) =>
      WatchEventKeeps(s, id, d, fix);
      CallbackKeeps(s, WatchEvent(s, id, d, fix), id);
    case NoticeFires(id, handle, event) =>
      NoticeEventKeeps(s, id, handle, event);
      CallbackKeeps(s, NoticeEvent(s, id, handle, event), id);
  }

  lemma NextKeepsValid(s: State, a: Action, env: Env)
    requires Valid(s) && Enabled(s, a)
    ensures Valid(Next(s, a, env)) && Transition(s, Next(s, a, env))
    ensures !a.Receive? && !a.Manage? ==> Shown(s, Next(s, a, env))
  {
    hide Core, Works, Dropped, Exposed, Transition, Shown, HandleMessage, FrameLoaded, Revoke, Begin;
    match a
    case Receive(m) => MessageKeeps(s, m, env);
    case ClickAllow(mode) => ClickKeeps(s, true, mode, env);
    case ClickDeny => ClickKeeps(s, false, Once, env);
    case Load => LoadKeeps(s);
    case Navigate => RevokeKeeps(s);
    case Manage(managed) => ManageKeeps(s, managed);
    case ReserveElsewhere(count) =>
      if Reservable(s, count) {
        ElsewhereKeeps(s, count);
      } else {
        SameShown(s, s);
        SameTransition(s);
      }
    case ReleaseElsewhere(k) =>
      ReleaseKeeps(s, k);
      DroppedTransition(s, Release(s, k));
      DroppedShown(s, Release(s, k));
    case _ => NativeKeepsValid(s, a, env);
  }

  lemma SameTransition(s: State)
    ensures Transition(s, s)
  {
  }
}
