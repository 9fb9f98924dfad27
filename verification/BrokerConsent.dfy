/**
 Consent keeps the broker's invariant: granted work, the clipboard, the queue, the native notification
 prompt and the parent's buttons.
 */
module BrokerConsent {
  import opened Wrappers
  import opened Protocol
  import opened BrokerSpec
  import opened BrokerInvariant
  import opened BrokerWork
  import Grants

  /********** Granted work **********/

  lemma BegunWorks(s: State, cap: Capability, id: Id)
    requires Core(s) && s.active.Some? && cap !in s.active.value.denied
    ensures var s' := Begun(s, s.generation, cap, id);
            Works(s, s', id) && Exposed(s') == Exposed(s) && forall x :: Owned(s', x) <==> Owned(s, x)
  {
    hide Core, Exposed, Protected;
    var s' := Begun(s, s.generation, cap, id);
    LogKeeps(s, s.posts, s'.runs);
    assert RunsOk(s.runs, s'.runs, s.generation, s.active.value.denied);
  }

  // A request that may start native work now.
  ghost predicate Ready(s: State, id: Id, op: Op, cap: Capability) {
    && s.active.Some? && Free(s, id) && id !in Exposed(s)
    && s.active.value.requests[id] == op && CapabilityOf(op) == Some(cap)
  }

  lemma ReadyAfter(s: State, s': State, id: Id, other: Id, op: Op, cap: Capability)
    requires Works(s, s', id) && Ready(s, other, op, cap) && other != id
    ensures Ready(s', other, op, cap)
  {
  }

  lemma GrantedLocation(s: State, id: Id, op: Op, env: Env)
    requires Live(s, s.generation) && id !in s.cancelled && (op == LocationGet || op == LocationWatch)
    ensures ExecuteGranted(s, s.generation, id, op, env)
         == ExecuteGeolocation(Begun(s, s.generation, Geolocation, id), s.generation, id, op, env)
  {
  }

  lemma GrantedPermission(s: State, id: Id, env: Env)
    requires Live(s, s.generation) && id !in s.cancelled
    ensures ExecuteGranted(s, s.generation, id, NotificationPermission, env)
         == Answer(Begun(s, s.generation, Notifications, id), s.generation, id, Ok, NoReason)
  {
  }

  lemma GrantedShow(s: State, id: Id, env: Env)
    requires Live(s, s.generation) && id !in s.cancelled
    ensures ExecuteGranted(s, s.generation, id, NotificationShow, env)
         == ShowNotification(Begun(s, s.generation, Notifications, id), s.generation, id, env)
  {
  }

  lemma GrantedNothing(s: State, id: Id, op: Op, env: Env)
    requires !Live(s, s.generation) || id in s.cancelled
    ensures ExecuteGranted(s, s.generation, id, op, env) == s
  {
  }

  lemma BegunReady(s: State, id: Id, op: Op, cap: Capability)
    requires Core(s) && Ready(s, id, op, cap) && cap !in s.active.value.denied
    ensures var s1 := Begun(s, s.generation, cap, id);
            Works(s, s1, id) && Ready(s1, id, op, cap) && s1.generation == s.generation
  {
    BegunWorks(s, cap, id);
  }

  // Granted work is the logged start and then the operation.
  lemma GrantedWorks(s: State, s2: State, id: Id, op: Op, cap: Capability, env: Env)
    requires Core(s) && Ready(s, id, op, cap) && cap !in s.active.value.denied
    requires Works(Begun(s, s.generation, cap, id), s2, id) && ExecuteGranted(s, s.generation, id, op, env) == s2
    ensures Works(s, ExecuteGranted(s, s.generation, id, op, env), id)
  {
    BegunReady(s, id, op, cap);
    WorksTrans(s, Begun(s, s.generation, cap, id), s2, id);
  }

  lemma GrantedLocationKeeps(s: State, id: Id, op: Op, env: Env)
    requires Core(s) && Ready(s, id, op, Geolocation) && Geolocation !in s.active.value.denied
    requires Live(s, s.generation) && id !in s.cancelled
    ensures Works(s, ExecuteGranted(s, s.generation, id, op, env), id)
  {
    hide Core, Sound, Only, Exposed, Protected, ConsentIds, HeldIds, Ids;
    BegunReady(s, id, op, Geolocation);
    var s1 := Begun(s, s.generation, Geolocation, id);
    ExecuteGeolocationKeeps(s1, id, op, env);
    GrantedLocation(s, id, op, env);
    GrantedWorks(s, ExecuteGeolocation(s1, s1.generation, id, op, env), id, op, Geolocation, env);
  }

  lemma GrantedPermissionKeeps(s: State, id: Id, env: Env)
    requires Core(s) && Ready(s, id, NotificationPermission, Notifications) && Notifications !in s.active.value.denied
    requires Live(s, s.generation) && id !in s.cancelled
    ensures Works(s, ExecuteGranted(s, s.generation, id, NotificationPermission, env), id)
  {
    BegunReady(s, id, NotificationPermission, Notifications);
    var s1 := Begun(s, s.generation, Notifications, id);
    AnswerWorks(s1, id, Ok, NoReason);
    GrantedPermission(s, id, env);
    GrantedWorks(s, Answer(s1, s1.generation, id, Ok, NoReason), id, NotificationPermission, Notifications, env);
  }

  lemma GrantedShowKeeps(s: State, id: Id, env: Env)
    requires Core(s) && Ready(s, id, NotificationShow, Notifications) && Notifications !in s.active.value.denied
    requires Live(s, s.generation) && id !in s.cancelled
    ensures Works(s, ExecuteGranted(s, s.generation, id, NotificationShow, env), id)
  {
    BegunReady(s, id, NotificationShow, Notifications);
    var s1 := Begun(s, s.generation, Notifications, id);
    ShowNotificationKeeps(s1, id, env);
    GrantedShow(s, id, env);
    GrantedWorks(s, ShowNotification(s1, s1.generation, id, env), id, NotificationShow, Notifications, env);
  }

  lemma ExecuteGrantedKeeps(s: State, id: Id, op: Op, cap: Capability, env: Env)
    requires Core(s) && Ready(s, id, op, cap) && cap !in s.active.value.denied
    requires !IsClipboard(cap)
    ensures Works(s, ExecuteGranted(s, s.generation, id, op, env), id)
  {
    hide Core, Works, ExecuteGranted, Exposed, Free;
    if !Live(s, s.generation) || id in s.cancelled {
      GrantedNothing(s, id, op, env);
      Unchanged(s, id);
    } else if op == NotificationShow {
      GrantedShowKeeps(s, id, env);
    } else if op == NotificationPermission {
      GrantedPermissionKeeps(s, id, env);
    } else {
      GrantedLocationKeeps(s, id, op, env);
    }
  }

  lemma ClipboardEquation(s: State, id: Id, op: Op, cap: Capability, mode: Mode, token: Option<Grants.Token>, env: Env)
    requires CapabilityOf(op) == Some(cap) && IsClipboard(cap)
    ensures ExecuteClipboard(s, s.generation, id, op, mode, token, env)
         == if !Live(s, s.generation) || id in s.cancelled then s
            else if !Allowed(s, cap) || id !in env.current then Answer(s, s.generation, id, Denied, ApprovalChanged)
            else if |s.inFlight| >= MAX_IN_FLIGHT || !Reservable(s, 1)
                 then Answer(s, s.generation, id, Failed, TooManyOperations)
            else Begin(Begun(s, s.generation, cap, id), s.generation, 1, {id}, Clipping(id, cap, mode, token))
  {
  }

  lemma ExecuteClipboardKeeps(s: State, id: Id, op: Op, cap: Capability, mode: Mode, token: Option<Grants.Token>,
                              env: Env)
    requires Core(s) && Ready(s, id, op, cap) && IsClipboard(cap)
    ensures Works(s, ExecuteClipboard(s, s.generation, id, op, mode, token, env), id)
  {
    ClipboardEquation(s, id, op, cap, mode, token, env);
    if !Live(s, s.generation) || id in s.cancelled {
      Unchanged(s, id);
    } else if !Allowed(s, cap) || id !in env.current {
      AnswerWorks(s, id, Denied, ApprovalChanged);
    } else if |s.inFlight| >= MAX_IN_FLIGHT || !Reservable(s, 1) {
      AnswerWorks(s, id, Failed, TooManyOperations);
    } else {
      ClipboardStarts(s, id, op, cap, mode, token);
    }
  }

  lemma ClipboardStarts(s: State, id: Id, op: Op, cap: Capability, mode: Mode, token: Option<Grants.Token>)
    requires Core(s) && Ready(s, id, op, cap) && IsClipboard(cap) && cap !in s.active.value.denied
    requires |s.inFlight| < MAX_IN_FLIGHT && Reservable(s, 1)
    ensures Works(s, Begin(Begun(s, s.generation, cap, id), s.generation, 1, {id}, Clipping(id, cap, mode, token)), id)
  {
    hide Core, Sound, Only, Exposed, Protected, ConsentIds, HeldIds, Ids;
    BegunWorks(s, cap, id);
    var s1 := Begun(s, s.generation, cap, id);
    BeginWorks(s1, id, Clipping(id, cap, mode, token));
    WorksTrans(s, s1, Begin(s1, s.generation, 1, {id}, Clipping(id, cap, mode, token)), id);
  }

  // Work for several requests changes only what they own.
  ghost predicate WorksAll(s: State, s': State, ids: set<Id>) {
    && Core(s') && Steady(s, s')
    && s'.queue == s.queue && s'.prompt == s.prompt && s'.active == s.active
    && (forall x :: Owned(s', x) ==> Owned(s, x) || x in ids)
  }

  ghost predicate AllReady(s: State, items: seq<Queued>) {
    && DistinctIds(items)
    && forall i :: 0 <= i < |items| ==> Ready(s, items[i].id, items[i].op, items[i].cap) && items[i].doc == s.generation
  }

  lemma AllReadyAfter(s: State, s': State, items: seq<Queued>)
    requires items != [] && AllReady(s, items) && Works(s, s', items[0].id)
    ensures AllReady(s', items[1..])
  {
    hide Core, Exposed, Protected;
    forall i | 0 <= i < |items[1..]|
      ensures Ready(s', items[1..][i].id, items[1..][i].op, items[1..][i].cap) && items[1..][i].doc == s'.generation
    {
      assert items[1..][i] == items[i + 1] && items[0].id != items[i + 1].id;
      ReadyAfter(s, s', items[0].id, items[i + 1].id, items[i + 1].op, items[i + 1].cap);
    }
  }

  lemma IdsCons(items: seq<Queued>)
    requires items != []
    ensures Ids(items) == {items[0].id} + Ids(items[1..])
  {
    assert forall i :: 0 <= i < |items[1..]| ==> items[1..][i] == items[i + 1];
    forall x | x in Ids(items) ensures x in {items[0].id} + Ids(items[1..]) {
      var i :| 0 <= i < |items| && items[i].id == x;
      if i > 0 { assert items[1..][i - 1].id == x; }
    }
  }

  lemma WorksAllCons(s: State, s1: State, s2: State, items: seq<Queued>)
    requires items != [] && Works(s, s1, items[0].id) && WorksAll(s1, s2, Ids(items[1..]))
    ensures WorksAll(s, s2, Ids(items))
  {
    SoundTrans(Exposed(s), s, Exposed(s1), s1, Exposed(s2), s2);
    IdsCons(items);
  }

  lemma {:induction false} ExecuteAllKeeps(s: State, items: seq<Queued>, env: Env)
    requires Core(s) && s.active.Some? && AllReady(s, items)
    requires forall i :: 0 <= i < |items| ==> items[i].cap !in s.active.value.denied && !IsClipboard(items[i].cap)
    ensures WorksAll(s, ExecuteAll(s, items, env), Ids(items))
    decreases |items|
  {
    if items == [] {
      Unchanged(s, 0);
    } else {
      ExecuteGrantedKeeps(s, items[0].id, items[0].op, items[0].cap, env);
      var s1 := ExecuteGranted(s, items[0].doc, items[0].id, items[0].op, env);
      AllReadyAfter(s, s1, items);
      ExecuteAllKeeps(s1, items[1..], env);
      WorksAllCons(s, s1, ExecuteAll(s1, items[1..], env), items);
    }
  }

  lemma {:induction false} ExecuteSiblingsKeeps(s: State, items: seq<Queued>, token: Option<Grants.Token>, env: Env)
    requires Core(s) && s.active.Some? && AllReady(s, items)
    requires forall i :: 0 <= i < |items| ==> IsClipboard(items[i].cap)
    ensures WorksAll(s, ExecuteSiblings(s, items, token, env), Ids(items))
    decreases |items|
  {
    if items == [] {
      Unchanged(s, 0);
    } else {
      ExecuteClipboardKeeps(s, items[0].id, items[0].op, items[0].cap, Saved, token, env);
      var s1 := ExecuteClipboard(s, items[0].doc, items[0].id, items[0].op, Saved, token, env);
      AllReadyAfter(s, s1, items);
      ExecuteSiblingsKeeps(s1, items[1..], token, env);
      WorksAllCons(s, s1, ExecuteSiblings(s1, items[1..], token, env), items);
    }
  }

  /********** Queue and prompt **********/

  // A step of the current document that leaves the shown prompt right.
  ghost predicate Moves(s: State, s': State) {
    Core(s') && Steady(s, s') && (PromptOk(s) ==> PromptOk(s'))
  }

  lemma MovesTrans(s0: State, s1: State, s2: State)
    requires Core(s1) && Steady(s0, s1) && Moves(s1, s2) && (PromptOk(s0) ==> PromptOk(s1) || PromptOk(s2))
    ensures Moves(s0, s2)
  {
    SoundTrans(Exposed(s0), s0, Exposed(s1), s1, Exposed(s2), s2);
  }

  lemma WorksMoves(s: State, s': State, id: Id)
    requires Works(s, s', id)
    ensures Moves(s, s')
  {
  }

  // Work on the queue followed by advancePrompt.
  lemma AdvanceMoves(s: State, s': State)
    requires Core(s') && Steady(s, s')
    ensures Moves(s, Advance(s'))
  {
    AdvanceKeeps(s');
    SoundTrans(Exposed(s), s, Exposed(s'), s', Exposed(Advance(s')), Advance(s'));
  }

  // Entries taken out of the queue are ready for native work.
  lemma TakenAreReady(s: State, items: seq<Queued>)
    requires Core(s) && s.active.Some? && Subqueue(items, s.queue)
    ensures AllReady(s.(queue := Without(s.queue, items)), items)
    ensures var s' := s.(queue := Without(s.queue, items)); Core(s') && Steady(s, s')
  {
    hide Core, Free, Exposed, Sound;
    WithoutFrees(s, items);
    ActiveIsCurrent(s);
    var s' := s.(queue := Without(s.queue, items));
    forall i | 0 <= i < |items|
      ensures Ready(s', items[i].id, items[i].op, items[i].cap) && items[i].doc == s'.generation
    {
      assert items[i] in items;
      QueuedFacts(s, items[i]);
    }
  }

  lemma WorksAllSteady(s: State, s1: State, s2: State, ids: set<Id>)
    requires Core(s1) && Steady(s, s1) && WorksAll(s1, s2, ids)
    ensures Core(s2) && Steady(s, s2)
  {
    SoundTrans(Exposed(s), s, Exposed(s1), s1, Exposed(s2), s2);
  }

  lemma TakenSiblings(s: State, cap: Capability)
    requires Core(s) && s.active.Some? && IsClipboard(cap)
    ensures var siblings := Matching(s.queue, s.generation, cap);
            var s1 := s.(queue := Without(s.queue, siblings));
            Core(s1) && Steady(s, s1) && AllReady(s1, siblings) && forall i :: 0 <= i < |siblings| ==>
              IsClipboard(siblings[i].cap)
  {
    var siblings := Matching(s.queue, s.generation, cap);
    DistinctMatching(s.queue, s.generation, cap);
    TakenAreReady(s, siblings);
    forall i | 0 <= i < |siblings| ensures IsClipboard(siblings[i].cap) { assert siblings[i] in siblings; }
  }

  lemma SiblingsMove(s: State, cap: Capability, token: Option<Grants.Token>, env: Env)
    requires Core(s) && s.active.Some? && IsClipboard(cap)
    ensures var siblings := Matching(s.queue, s.generation, cap);
            Moves(s, Advance(ExecuteSiblings(s.(queue := Without(s.queue, siblings)), siblings, token, env)))
  {
    var siblings := Matching(s.queue, s.generation, cap);
    TakenSiblings(s, cap);
    var s1 := s.(queue := Without(s.queue, siblings));
    ExecuteSiblingsKeeps(s1, siblings, token, env);
    WorksAllSteady(s, s1, ExecuteSiblings(s1, siblings, token, env), Ids(siblings));
    AdvanceMoves(s, ExecuteSiblings(s1, siblings, token, env));
  }

  // Work k settles: a move of its document, or, once replaced, only its slots.
  ghost predicate Settles(s: State, s': State, k: nat) {
    if Current(s.batches, s.generation, k) then Moves(s, s')
    else Core(s') && Dropped(s, s')
  }

  lemma DroppedSteady(s: State, s': State)
    requires s.active.Some? && Dropped(s, s')
    ensures Steady(s, s') && (PromptOk(s) ==> PromptOk(s'))
  {
  }

  lemma DroppedMoves(s: State, s': State)
    requires Core(s') && s.active.Some? && Dropped(s, s')
    ensures Moves(s, s')
  {
    DroppedSteady(s, s');
  }

  lemma StaleRelease(s: State, k: nat)
    requires Core(s) && k in s.batches && !s.batches[k].work.Elsewhere? && !Live(s, s.batches[k].doc)
    ensures Settles(s, Release(s, k), k)
  {
    ReleaseKeeps(s, k);
    if Current(s.batches, s.generation, k) {
      CurrentIsActive(s, k);
      DroppedMoves(s, Release(s, k));
    }
  }

  lemma SettleClipboardKeeps(s: State, k: nat, env: Env)
    requires Core(s) && k in s.batches && s.batches[k].work.Clipping?
    ensures Settles(s, SettleClipboard(s, k, env), k)
  {
    var id := s.batches[k].work.id;
    if !Live(s, s.batches[k].doc) {
      StaleRelease(s, k);
    } else {
      LiveIsCurrent(s, k);
      CurrentIsActive(s, k);
      assert Holds(s.batches, s.generation, k, id);
      SettleKeeps(s, k, id);
      var s2 := Land(Release(s, k), id);
      LandedClipboardKeeps(s2, s.batches[k].work, id in s.cancelled, env);
      MovesTrans(s, s2, SettleClipboard(s, k, env));
    }
  }

  lemma LandedClipboardKeeps(s: State, w: Work, cancelled: bool, env: Env)
    requires Core(s) && w.Clipping? && Answerable(s, w.id) && IsClipboard(w.cap) && Unheld(s, w.id)
    ensures Moves(s, if cancelled then Uncancel(s, w.id) else ClipboardOutcome(s, s.generation, w, env))
  {
    if cancelled {
      UnheldNotConsented(s, w.id);
      UncancelKeeps(s, w.id);
      WorksMoves(s, Uncancel(s, w.id), w.id);
    } else {
      ClipboardOutcomeKeeps(s, w, env);
    }
  }

  lemma ClipboardOutcomeKeeps(s: State, w: Work, env: Env)
    requires Core(s) && w.Clipping? && Answerable(s, w.id) && IsClipboard(w.cap)
    ensures Moves(s, ClipboardOutcome(s, s.generation, w, env))
  {
    hide Core, ConsentIds, HeldIds, Answer, ExecuteSiblings, Advance;
    if !Allowed(s, w.cap) || !env.currentBefore || (!env.failed && !env.currentAfter) {
      AnswerWorks(s, w.id, Denied, ApprovalChanged);
      WorksMoves(s, Answer(s, s.generation, w.id, Denied, ApprovalChanged), w.id);
    }
    if env.failed {
      AnswerWorks(s, w.id, Failed, NativeFailure);
      WorksMoves(s, Answer(s, s.generation, w.id, Failed, NativeFailure), w.id);
    } else if env.currentAfter {
      AnswerWorks(s, w.id, Ok, NoReason);
      var s3 := Answer(s, s.generation, w.id, Ok, NoReason);
      AdvanceMoves(s, s3);
      SiblingsMove(s3, w.cap, w.token, env);
      var siblings := Matching(s3.queue, s.generation, w.cap);
      MovesTrans(s, s3, Advance(ExecuteSiblings(s3.(queue := Without(s3.queue, siblings)), siblings, w.token, env)));
    }
  }

  /********** Joining the queue **********/

  lemma {:induction false} IdsSize(items: seq<Queued>)
    ensures |Ids(items)| <= |items|
  {
    if items != [] {
      IdsCons(items);
      IdsSize(items[1..]);
      UnionSize({items[0].id}, Ids(items[1..]));
    } else {
      assert Ids(items) == {};
    }
  }

  lemma IdsSnoc(items: seq<Queued>, q: Queued)
    ensures Ids(items + [q]) == Ids(items) + {q.id}
  {
    var more := items + [q];
    assert more[|items|] == q;
    forall x | x in Ids(items) ensures x in Ids(more) {
      var i :| 0 <= i < |items| && items[i].id == x;
      assert more[i].id == x;
    }
  }

  lemma PushTables(active: Option<Doc>, g: nat, queue: seq<Queued>, watches: map<Id, Watch>, notices: map<Id, Notice>,
                   inFlight: set<Id>, cancelled: set<Id>, q: Queued)
    requires active.Some? && TablesOk(active, g, queue, watches, notices, inFlight, cancelled) && Known(active.value, q)
    requires DeniedOk(active, queue) && (q.cap in active.value.denied ==> q.cap == Notifications)
    ensures TablesOk(active, g, queue + [q], watches, notices, inFlight, cancelled)
    ensures DeniedOk(active, queue + [q])
  {
  }

  lemma PushQueue(queue: seq<Queued>, owners: set<Id>, q: Queued)
    requires QueueOk(queue, owners) && q.id !in owners && q.id !in Ids(queue)
    ensures QueueOk(queue + [q], owners)
  {
    IdsSnoc(queue, q);
    var more := queue + [q];
    forall i, j | 0 <= i < j < |more| ensures more[i].id != more[j].id {
      assert more[i] == queue[i];
      assert queue[i].id in Ids(queue);
      if j < |queue| { assert more[j] == queue[j]; }
    }
  }

  lemma PushOwns(s: State, q: Queued)
    ensures var s' := s.(queue := s.queue + [q]);
            Exposed(s') == Exposed(s) + {q.id} && forall x :: Owned(s', x) <==> Owned(s, x) || x == q.id
  {
    IdsSnoc(s.queue, q);
  }

  lemma FreeOwnsNothing(s: State, id: Id)
    requires Free(s, id)
    ensures id !in s.inFlight + s.cancelled + s.watches.Keys + s.notices.Keys && id !in Ids(s.queue)
  {
  }

  lemma PushKeeps(s: State, q: Queued)
    requires Core(s) && s.active.Some? && Known(s.active.value, q) && Free(s, q.id)
    requires q.cap in s.active.value.denied ==> q.cap == Notifications
    requires BacklogOk(s.queue + [q], ConsentIds(s.batches, s.generation))
    ensures Core(s.(queue := s.queue + [q]))
  {
    PushTables(s.active, s.generation, s.queue, s.watches, s.notices, s.inFlight, s.cancelled, q);
    FreeOwnsNothing(s, q.id);
    PushQueue(s.queue, s.inFlight + s.cancelled + s.watches.Keys + s.notices.Keys, q);
  }

  // A new request that was just remembered.
  lemma BacklogGrows(s: State, q: Queued)
    requires Core(s) && |s.queue| < MAX_PENDING
    ensures BacklogOk(s.queue + [q], ConsentIds(s.batches, s.generation))
  {
    var consent := ConsentIds(s.batches, s.generation);
    ConsentInFlight(s.batches, s.generation, s.active, s.inFlight, s.notices.Keys, s.next);
    SetMono(consent, s.inFlight);
    IdsSize(s.queue + [q]);
    UnionSize(Ids(s.queue + [q]), consent);
    BacklogSize(s.queue + [q], consent);
  }

  lemma SoundWeaken(e: set<Id>, more: set<Id>, s: State, e': set<Id>, s': State)
    requires Sound(e, s, e', s') && e <= more
    ensures Sound(more, s, e', s')
  {
  }

  // Everything that requestCapability can do with a new request, short of refusing a full queue.
  ghost predicate Handled(s: State, s': State, id: Id) {
    Core(s') && Sound(Exposed(s) + {id}, s, Exposed(s'), s') && (PromptOk(s) ==> PromptOk(s'))
  }

  lemma WorksHandled(s: State, s': State, id: Id)
    requires Works(s, s', id)
    ensures Handled(s, s', id)
  {
    SoundWeaken(Exposed(s), Exposed(s) + {id}, s, Exposed(s'), s');
  }

  lemma PushSound(s: State, q: Queued)
    requires s.active.Some?
    requires var s' := s.(queue := s.queue + [q]); Exposed(s') == Exposed(s) + {q.id}
    ensures var s' := s.(queue := s.queue + [q]);
            Sound(Exposed(s) + {q.id}, s, Exposed(s'), s')
  {
  }

  lemma EnqueueHandled(s: State, q: Queued)
    requires Core(s) && s.active.Some? && Known(s.active.value, q) && Free(s, q.id) && |s.queue| < MAX_PENDING
    requires q.cap !in s.active.value.denied
    ensures Handled(s, Advance(s.(queue := s.queue + [q])), q.id)
  {
    BacklogGrows(s, q);
    PushKeeps(s, q);
    PushOwns(s, q);
    PushSound(s, q);
    var s1 := s.(queue := s.queue + [q]);
    AdvanceKeeps(s1);
    SoundTrans(Exposed(s) + {q.id}, s, Exposed(s1), s1, Exposed(Advance(s1)), Advance(s1));
  }

  // The branch that the shim's own bound is meant to keep out of reach.
  predicate QueueRefuses(s: State, id: Id, cap: Capability, env: Env) {
    && Allowed(s, cap)
    && !(env.saved.Some? && (if IsClipboard(cap) then env.activated else cap != Notifications || env.nativeGranted))
    && |s.queue| >= MAX_PENDING
  }

  lemma RequestCapabilityKeeps(s: State, id: Id, op: Op, cap: Capability, env: Env)
    requires Core(s) && Ready(s, id, op, cap) && !QueueRefuses(s, id, cap, env)
    ensures Handled(s, RequestCapability(s, s.generation, id, op, cap, env), id)
  {
    if !Allowed(s, cap) {
      AnswerWorks(s, id, Denied, Refused);
      WorksHandled(s, Answer(s, s.generation, id, Denied, Refused), id);
    } else if IsClipboard(cap) && env.saved.Some? && env.activated {
      ExecuteClipboardKeeps(s, id, op, cap, Saved, env.saved, env);
      WorksHandled(s, ExecuteClipboard(s, s.generation, id, op, Saved, env.saved, env), id);
    } else if !IsClipboard(cap) && env.saved.Some? && (cap != Notifications || env.nativeGranted) {
      ExecuteGrantedKeeps(s, id, op, cap, env);
      WorksHandled(s, ExecuteGranted(s, s.generation, id, op, env), id);
    } else {
      EnqueueHandled(s, Queued(s.generation, cap, id, op));
    }
  }

  /********** The consent decision of the document **********/

  lemma WorkOkSwap(active: Option<Doc>, active': Option<Doc>, w: Work)
    requires active.Some? && active'.Some? && WorkOk(active, w)
    requires active'.value == active.value.(denied := active'.value.denied, revision := active'.value.revision)
    ensures WorkOk(active', w)
  {
  }

  lemma DocBatches(batches: map<nat, Batch>, g: nat, active: Option<Doc>, active': Option<Doc>, inFlight: set<Id>,
                   notices: set<Id>, next: nat)
    requires BatchesOk(batches, g, active, inFlight, notices, next) && active.Some? && active'.Some?
    requires active'.value == active.value.(denied := active'.value.denied, revision := active'.value.revision)
    ensures BatchesOk(batches, g, active', inFlight, notices, next)
  {
    forall k | Current(batches, g, k) ensures WorkOk(active', batches[k].work) {
      WorkOkSwap(active, active', batches[k].work);
    }
  }

  lemma DocExposes(s: State, doc: Doc)
    ensures Exposed(WithDoc(s, doc)) == Exposed(s) && forall x :: Owned(WithDoc(s, doc), x) <==> Owned(s, x)
  {
  }

  // Denials and revisions do not touch who owns what.
  lemma DocKeeps(s: State, denied: set<Capability>, revision: nat)
    requires Core(s) && s.active.Some? && s.active.value.denied <= denied
    requires DeniedOk(Some(s.active.value.(denied := denied, revision := revision)), s.queue)
    ensures var s' := WithDoc(s, s.active.value.(denied := denied, revision := revision));
            Core(s') && Steady(s, s') && Exposed(s') == Exposed(s) && forall x :: Owned(s', x) <==> Owned(s, x)
  {
    var s' := WithDoc(s, s.active.value.(denied := denied, revision := revision));
    DocBatches(s.batches, s.generation, s.active, s'.active, s.inFlight, s.notices.Keys, s.next);
    DocTables(s, denied, revision);
    DocExposes(s, s'.active.value);
  }

  lemma DocTables(s: State, denied: set<Capability>, revision: nat)
    requires Core(s) && s.active.Some?
    ensures TablesOk(Some(s.active.value.(denied := denied, revision := revision)), s.generation, s.queue, s.watches,
                     s.notices, s.inFlight, s.cancelled)
  {
    var doc := s.active.value.(denied := denied, revision := revision);
    forall i | 0 <= i < |s.queue| ensures Known(doc, s.queue[i]) { assert Known(s.active.value, s.queue[i]); }
  }

  lemma DenyKeeps(s: State)
    requires Core(s)
    ensures if s.active.Some? then Moves(s, Deny(s)) else Core(Deny(s)) && Dropped(s, Deny(s).(prompt := s.prompt))
  {
    if s.queue == [] || !Live(s, s.queue[0].doc) {
      if s.active.Some? { AdvanceMoves(s, s); }
    } else {
      DenyQueued(s);
    }
  }

  function DeniedDoc(doc: Doc, cap: Capability): Doc {
    doc.(denied := doc.denied + {cap}, revision := if cap == Notifications then doc.revision + 1 else doc.revision)
  }

  lemma DenyEquation(s: State)
    requires s.queue != [] && Live(s, s.queue[0].doc)
    ensures var denied := Matching(s.queue, s.queue[0].doc, s.queue[0].cap);
            Deny(s) == Advance(AnswerAll(WithDoc(s.(queue := Without(s.queue, denied)),
                                                 DeniedDoc(s.active.value, s.queue[0].cap)),
                                         denied, Denied, Refused))
  {
  }

  // No request of the denied capability stays queued.
  lemma DenyLeaves(doc: Doc, queue: seq<Queued>, cap: Capability)
    requires DeniedOk(Some(doc), queue) && forall x :: x in queue ==> x.doc == doc.generation
    ensures DeniedOk(Some(DeniedDoc(doc, cap)), Without(queue, Matching(queue, doc.generation, cap)))
  {
    var rest := Without(queue, Matching(queue, doc.generation, cap));
    forall i | 0 <= i < |rest| && rest[i].cap in DeniedDoc(doc, cap).denied ensures rest[i].cap == Notifications {
      assert rest[i] in rest;
      var j :| 0 <= j < |queue| && queue[j] == rest[i];
    }
  }

  lemma QueueIsHere(s: State)
    requires Core(s) && s.active.Some?
    ensures forall x :: x in s.queue ==> x.doc == s.generation
  {
    forall x | x in s.queue ensures x.doc == s.generation {
      var j :| 0 <= j < |s.queue| && s.queue[j] == x;
      assert Known(s.active.value, s.queue[j]);
    }
  }

  // Queued requests are remembered.
  lemma IdsKnown(s: State, items: seq<Queued>)
    requires Core(s) && s.active.Some? && forall x :: x in items ==> x in s.queue
    ensures Ids(items) <= s.active.value.requests.Keys
  {
    forall id | id in Ids(items) ensures id in s.active.value.requests {
      var i :| 0 <= i < |items| && items[i].id == id;
      assert items[i] in items;
      var j :| 0 <= j < |s.queue| && s.queue[j] == items[i];
      assert Known(s.active.value, s.queue[j]);
    }
  }

  lemma IdsApart(items: seq<Queued>, e: set<Id>)
    requires forall x :: x in items ==> x.id !in e
    ensures Ids(items) !! e
  {
    forall x | x in Ids(items) ensures x !in e {
      var i :| 0 <= i < |items| && items[i].id == x;
      assert items[i] in items;
    }
  }

  lemma DenyBody(s: State, cap: Capability)
    requires Core(s) && s.active.Some?
    ensures var denied := Matching(s.queue, s.generation, cap);
            var s2 := WithDoc(s.(queue := Without(s.queue, denied)), DeniedDoc(s.active.value, cap));
            Core(s2) && Steady(s, s2) && Ids(denied) !! Exposed(s2) && Ids(denied) <= s2.active.value.requests.Keys
  {
    var denied := Matching(s.queue, s.generation, cap);
    IdsKnown(s, denied);
    WithoutFrees(s, denied);
    var s1 := s.(queue := Without(s.queue, denied));
    IdsApart(denied, Exposed(s1));
    QueueIsHere(s);
    DenyLeaves(s.active.value, s.queue, cap);
    var doc := DeniedDoc(s.active.value, cap);
    DocKeeps(s1, doc.denied, doc.revision);
    SoundTrans(Exposed(s), s, Exposed(s1), s1, Exposed(s1), WithDoc(s1, doc));
  }

  lemma DenyQueued(s: State)
    requires Core(s) && s.queue != [] && Live(s, s.queue[0].doc)
    ensures s.active.Some? && Moves(s, Deny(s))
  {
    var cap := s.queue[0].cap;
    assert Known(s.active.value, s.queue[0]);
    var denied := Matching(s.queue, s.generation, cap);
    DenyBody(s, cap);
    var s2 := WithDoc(s.(queue := Without(s.queue, denied)), DeniedDoc(s.active.value, cap));
    AnswerAllKeeps(s2, denied, Denied, Refused);
    var s3 := AnswerAll(s2, denied, Denied, Refused);
    SoundTrans(Exposed(s), s, Exposed(s2), s2, Exposed(s3), s3);
    AdvanceMoves(s, s3);
    DenyEquation(s);
  }
}
