/**
 What a step leaves alone: the queue, the cancelled requests and the shows that are being withdrawn. From
 this follows exactly when the queue outgrows its limit, and which cancellations a step can add.
 */
module BrokerFrames {
  import opened Wrappers
  import opened Protocol
  import opened BrokerSpec
  import opened BrokerInvariant
  import opened BrokerRequests
  import Grants

  // A displayed notification that is being taken back.
  predicate Withdrawn(w: Work) { w.Showing? && w.phase == Withdrawing }

  ghost predicate SameRequests(s: State, s': State) {
    && s'.generation == s.generation && (s'.active.Some? <==> s.active.Some?)
    && (s.active.Some? ==> s'.active.value.requests == s.active.value.requests
                           && s'.active.value.client == s.active.value.client)
  }

  // Nothing new is cancelled, and no further show is being withdrawn.
  ghost predicate Mild(s: State, s': State) {
    && SameRequests(s, s')
    && s'.cancelled <= s.cancelled
    && forall k :: k in s'.batches && Withdrawn(s'.batches[k].work) ==> k in s.batches && s'.batches[k] == s.batches[k]
  }

  ghost predicate Quiet(s: State, s': State) { Mild(s, s') && s'.queue == s.queue }

  lemma MildTrans(s0: State, s1: State, s2: State)
    requires Mild(s0, s1) && Mild(s1, s2)
    ensures Mild(s0, s2)
  {
  }

  /********** Native work **********/

  lemma RespondQuiet(s: State, d: nat, id: Id, status: Status, event: Event, about: Option<Id>, reason: Reason)
    ensures Quiet(s, Respond(s, d, id, status, event, about, reason))
  {
  }

  lemma BeginIsMild(s: State, d: nat, count: nat, ids: set<Id>, work: Work)
    requires !Withdrawn(work)
    ensures Quiet(s, Begin(s, d, count, ids, work))
  {
  }

  lemma ReleaseQuiet(s: State, k: nat)
    requires k in s.batches
    ensures Quiet(s, Release(s, k))
  {
  }

  lemma FinishQuiet(s: State, k: nat)
    requires k in s.batches && s.batches[k].work.Showing?
    ensures Quiet(s, FinishShow(s, k)) && k !in FinishShow(s, k).batches
  {
  }

  lemma SuspendQuiet(s: State, k: nat, phase: Phase, registered: bool)
    requires k in s.batches && s.batches[k].work.Showing? && phase != Withdrawing
    ensures Quiet(s, Suspend(s, k, phase, registered))
  {
  }

  // The show ends with an answer, from whatever notifications it left.
  lemma RespondFinishQuiet(s: State, s1: State, k: nat, d: nat, id: Id, status: Status, event: Event, reason: Reason)
    requires k in s1.batches && s1.batches[k].work.Showing? && Quiet(s, s1)
    ensures var s' := FinishShow(Respond(s1, d, id, status, event, Some(id), reason), k);
            Quiet(s, s') && k !in s'.batches
  {
    RespondQuiet(s1, d, id, status, event, Some(id), reason);
    FinishQuiet(Respond(s1, d, id, status, event, Some(id), reason), k);
  }

  // A reserved notification is shown in the foreground, refused, or left to the service worker.
  lemma ReservedQuiet(s: State, k: nat, registered: bool, env: Env)
    requires k in s.batches && s.batches[k].work.Showing? && Live(s, s.batches[k].doc)
    requires s.batches[k].work.id !in s.cancelled && Size(s.notices) < MAX_NOTIFICATIONS
    ensures Quiet(s, Display(s, k, registered, env))
  {
    hide FinishShow, Suspend, Respond;
    var d, id := s.batches[k].doc, s.batches[k].work.id;
    var reserved := s.(notices := s.notices[id := Worker(k, d, true)]);
    if id in env.constructed {
      RespondFinishQuiet(s, reserved.(notices := reserved.notices[id := Native(k, d)]), k, d, id, Ok, Silent, NoReason);
    } else if !env.worker {
      RespondFinishQuiet(s, DeleteReservation(reserved, id, k), k, d, id, Failed, Silent, Protocol.Unavailable);
    } else {
      SuspendQuiet(reserved, k, if registered then Displaying else FindFallback, registered);
    }
  }

  lemma DisplayQuiet(s: State, k: nat, registered: bool, env: Env)
    requires k in s.batches && s.batches[k].work.Showing?
    ensures Quiet(s, Display(s, k, registered, env))
  {
    hide FinishShow, Suspend, Respond, DeleteReservation;
    var d, id := s.batches[k].doc, s.batches[k].work.id;
    if !Live(s, d) { FinishQuiet(s, k); }
    else if id in s.cancelled { FinishQuiet(Uncancel(s, id), k); }
    else if Size(s.notices) >= MAX_NOTIFICATIONS {
      RespondFinishQuiet(s, s, k, d, id, Failed, Silent, TooManyNotifications);
    } else {
      ReservedQuiet(s, k, registered, env);
    }
  }

  lemma ShowQuiet(s: State, d: nat, id: Id, env: Env)
    ensures Quiet(s, ShowNotification(s, d, id, env))
  {
    hide Display, Respond;
    RespondQuiet(s, d, id, Denied, Silent, Some(id), Refused);
    RespondQuiet(s, d, id, Failed, Silent, Some(id), TooManyOperations);
    BeginIsMild(s, d, 1, {id}, Showing(id, FindWorker, false));
    DisplayQuiet(Begin(s, d, 1, {id}, Showing(id, FindWorker, false)), s.next, false, env);
  }

  lemma LocateQuiet(s: State, d: nat, id: Id, op: Op, env: Env)
    ensures Quiet(s, ExecuteGeolocation(s, d, id, op, env))
  {
    hide Respond, Begin;
    BeginIsMild(s, d, 1, {id}, Locating(id));
    RespondQuiet(s, d, id, Failed, Silent, None, Protocol.Unavailable);
    RespondQuiet(s, d, id, Failed, Silent, None, TooManyOperations);
    RespondQuiet(s, d, id, Failed, Silent, None, NativeFailure);
    RespondQuiet(s, d, id, Failed, Silent, None, TooManyWatches);
  }

  lemma GrantedQuiet(s: State, d: nat, id: Id, op: Op, env: Env)
    ensures Quiet(s, ExecuteGranted(s, d, id, op, env))
  {
    hide ShowNotification, ExecuteGeolocation, Respond;
    LocateQuiet(Begun(s, d, Geolocation, id), d, id, op, env);
    ShowQuiet(Begun(s, d, Notifications, id), d, id, env);
    RespondQuiet(Begun(s, d, Notifications, id), d, id, Ok, Silent, None, NoReason);
    RespondQuiet(s, d, id, Failed, Silent, None, NativeFailure);
  }

  lemma {:induction false} ExecuteAllQuiet(s: State, items: seq<Queued>, env: Env)
    ensures Quiet(s, ExecuteAll(s, items, env))
    decreases |items|
  {
    hide ExecuteGranted;
    if items != [] {
      var s1 := ExecuteGranted(s, items[0].doc, items[0].id, items[0].op, env);
      GrantedQuiet(s, items[0].doc, items[0].id, items[0].op, env);
      ExecuteAllQuiet(s1, items[1..], env);
    }
  }

  lemma CopyQuiet(s: State, d: nat, id: Id, op: Op, mode: Mode, token: Option<Grants.Token>, env: Env)
    ensures Quiet(s, ExecuteClipboard(s, d, id, op, mode, token, env))
  {
    hide Respond, Begin;
    RespondQuiet(s, d, id, Denied, Silent, None, ApprovalChanged);
    RespondQuiet(s, d, id, Failed, Silent, None, TooManyOperations);
    var cap := CapabilityOf(op);
    if cap.Some? { BeginIsMild(Begun(s, d, cap.value, id), d, 1, {id}, Clipping(id, cap.value, mode, token)); }
  }

  lemma {:induction false} SiblingsQuiet(s: State, items: seq<Queued>, token: Option<Grants.Token>, env: Env)
    ensures Quiet(s, ExecuteSiblings(s, items, token, env))
    decreases |items|
  {
    hide ExecuteClipboard;
    if items != [] {
      var s1 := ExecuteClipboard(s, items[0].doc, items[0].id, items[0].op, Saved, token, env);
      CopyQuiet(s, items[0].doc, items[0].id, items[0].op, Saved, token, env);
      SiblingsQuiet(s1, items[1..], token, env);
    }
  }

  /********** The queue **********/

  // A step that leaves the queue no longer than it was.
  ghost predicate Shrinks(s: State, s': State) { Mild(s, s') && |s'.queue| <= |s.queue| }

  lemma {:induction false} WithoutShorter(queue: seq<Queued>, gone: seq<Queued>)
    ensures |Without(queue, gone)| <= |queue|
  {
    if queue != [] { WithoutShorter(queue[1..], gone); }
  }

  lemma {:induction false} DiscardShorter(queue: seq<Queued>, d: nat, id: Id)
    ensures |Discard(queue, d, id)| <= |queue|
  {
    if queue != [] { DiscardShorter(queue[1..], d, id); }
  }

  lemma {:induction false} DropDeadShorter(s: State, queue: seq<Queued>)
    ensures |DropDead(s, queue)| <= |queue|
  {
    if queue != [] { DropDeadShorter(s, queue[1..]); }
  }

  lemma AdvanceShrinks(s: State, s1: State)
    requires Shrinks(s, s1)
    ensures Shrinks(s, Advance(s1))
  {
    DropDeadShorter(s1, s1.queue);
  }

  lemma TakenShrinks(s: State, gone: seq<Queued>)
    ensures Shrinks(s, s.(queue := Without(s.queue, gone)))
  {
    WithoutShorter(s.queue, gone);
  }

  lemma OutcomeShrinks(s: State, d: nat, w: Work, env: Env)
    requires w.Clipping?
    ensures Shrinks(s, ClipboardOutcome(s, d, w, env))
  {
    hide Respond, Advance, ExecuteSiblings, Matching, Without;
    RespondQuiet(s, d, w.id, Denied, Silent, None, ApprovalChanged);
    RespondQuiet(s, d, w.id, Failed, Silent, None, NativeFailure);
    RespondQuiet(s, d, w.id, Ok, Silent, None, NoReason);
    var s1 := Answer(s, d, w.id, Ok, NoReason);
    AdvanceShrinks(s, s1);
    var siblings := Matching(s1.queue, d, w.cap);
    var s2 := s1.(queue := Without(s1.queue, siblings));
    TakenShrinks(s1, siblings);
    SiblingsQuiet(s2, siblings, w.token, env);
    AdvanceShrinks(s, ExecuteSiblings(s2, siblings, w.token, env));
  }

  lemma SettleClipboardShrinks(s: State, k: nat, env: Env)
    requires k in s.batches && s.batches[k].work.Clipping?
    ensures Shrinks(s, SettleClipboard(s, k, env))
  {
    hide ClipboardOutcome;
    var w := s.batches[k].work;
    OutcomeShrinks(Land(Release(s, k), w.id), s.batches[k].doc, w, env);
  }

  lemma SettleLocationShrinks(s: State, k: nat, fix: Fix)
    requires k in s.batches && s.batches[k].work.Locating?
    ensures Shrinks(s, SettleLocation(s, k, fix))
  {
  }

  lemma AnswersQuiet(s: State, items: seq<Queued>, status: Status, reason: Reason)
    ensures Quiet(s, AnswerAll(s, items, status, reason))
  {
  }

  lemma ResolveShrinks(s: State, mode: Mode, current: Queued, revision: nat, token: Option<Grants.Token>, env: Env)
    ensures Shrinks(s, ResolveNotificationConsent(s, mode, current, revision, token, env))
  {
    hide Advance, AnswerAll, Begin, Matching, Without;
    var d := current.doc;
    var selected := if mode == Always && token.Some? then Matching(s.queue, d, current.cap) else [current];
    var s1 := s.(queue := Without(s.queue, selected));
    var work := Consenting(mode, current, selected, revision, token);
    AdvanceShrinks(s, s);
    TakenShrinks(s, selected);
    AdvanceShrinks(s, s1);
    AnswersQuiet(s1, selected, Failed, TooManyOperations);
    AdvanceShrinks(s, AnswerAll(s1, selected, Failed, TooManyOperations));
    AnswersQuiet(Advance(s1), selected, Failed, NativeFailure);
    BeginIsMild(s1, d, |selected|, Ids(selected), work);
    AdvanceShrinks(s, Begin(s1, d, |selected|, Ids(selected), work));
  }

  lemma CopyShrinks(s: State, current: Queued, mode: Mode, token: Option<Grants.Token>, env: Env)
    ensures Shrinks(s, Advance(ExecuteClipboard(s.(queue := Without(s.queue, [current])), current.doc, current.id,
                                                current.op, mode, token, env)))
  {
    hide Advance, ExecuteClipboard, Without;
    var alone := s.(queue := Without(s.queue, [current]));
    TakenShrinks(s, [current]);
    CopyQuiet(alone, current.doc, current.id, current.op, mode, token, env);
    AdvanceShrinks(s, ExecuteClipboard(alone, current.doc, current.id, current.op, mode, token, env));
  }

  lemma RunShrinks(s: State, selected: seq<Queued>, env: Env)
    ensures Shrinks(s, Advance(ExecuteAll(s.(queue := Without(s.queue, selected)), selected, env)))
  {
    hide Advance, ExecuteAll, Without;
    var rest := s.(queue := Without(s.queue, selected));
    TakenShrinks(s, selected);
    ExecuteAllQuiet(rest, selected, env);
    AdvanceShrinks(s, ExecuteAll(rest, selected, env));
  }

  // A later revision changes neither the requests nor the queue.
  lemma RevisedShrinks(s: State)
    requires s.active.Some?
    ensures var s1 := WithDoc(s, s.active.value.(revision := s.active.value.revision + 1));
            Shrinks(s, s) && Shrinks(s, s1) && forall x {:trigger Shrinks(s, x)} :: Shrinks(s1, x) ==> Shrinks(s, x)
  {
  }

  lemma AllowShrinks(s: State, mode: Mode, env: Env)
    ensures Shrinks(s, Allow(s, mode, env))
  {
    hide Advance, ExecuteClipboard, ExecuteAll, ResolveNotificationConsent, Matching, Without, Shrinks;
    AdvanceShrinks(s, s);
    if s.queue != [] && Live(s, s.queue[0].doc) {
      RevisedShrinks(s);
      var current := s.queue[0];
      var doc := s.active.value;
      var s1 := if current.cap == Notifications then WithDoc(s, doc.(revision := doc.revision + 1)) else s;
      var token := if env.choice.Ready? then Some(env.choice.token) else None;
      var siblings := mode == Always && token.Some? && env.stored;
      CopyShrinks(s1, current, mode, token, env);
      ResolveShrinks(s1, mode, current, doc.revision + 1, token, env);
      RunShrinks(s1, if siblings then Matching(s1.queue, current.doc, current.cap) else [current], env);
    }
  }

  lemma DenyShrinks(s: State)
    ensures Shrinks(s, Deny(s))
  {
    hide Advance, AnswerAll, Matching, Without;
    AdvanceShrinks(s, s);
    if s.queue != [] && Live(s, s.queue[0].doc) {
      var current, doc := s.queue[0], s.active.value;
      var s1 := WithDoc(s, doc.(denied := doc.denied + {current.cap},
                                revision := if current.cap == Notifications then doc.revision + 1 else doc.revision));
      var denied := Matching(s1.queue, current.doc, current.cap);
      var s2 := s1.(queue := Without(s1.queue, denied));
      TakenShrinks(s1, denied);
      AnswersQuiet(s2, denied, Denied, Refused);
      AdvanceShrinks(s, AnswerAll(s2, denied, Denied, Refused));
    }
  }

  /********** Consent that settles **********/

  // The verdict that a settled native prompt leads to.
  function VerdictOf(s: State, k: nat, status: Status, env: Env): Verdict
    requires k in s.batches && s.batches[k].work.Consenting? && s.active.Some?
  {
    var w := s.batches[k].work;
    var before := s.active.value.revision == w.revision && env.currentBefore;
    var saved := w.mode == Always && w.token.Some? && status == Ok && before && Allowed(s, Notifications)
                 && SomeUncancelled(s, w.items) && env.stored;
    Verdict(status, saved, before && env.currentAfter)
  }

  // The guard of the branch that puts a sibling back into the queue.
  predicate GoesBack(s: State, mode: Mode, current: Queued, item: Queued, v: Verdict) {
    && item.id !in s.cancelled && Allowed(s, item.cap) && v.currentChoice
    && mode == Always && v.status == Ok && !v.saved && item != current
  }

  // The siblings that are put back, in order.
  function PutBack(s: State, mode: Mode, current: Queued, items: seq<Queued>, v: Verdict): seq<Queued> {
    if items == [] then []
    else (if GoesBack(s, mode, current, items[0], v) then [items[0]] else []) + PutBack(s, mode, current, items[1..], v)
  }

  // One settled item leaves the other items' fate and the document as they were.
  ghost predicate Settled(s: State, s': State, id: Id) {
    && s'.active == s.active && s'.managed == s.managed
    && s.cancelled - {id} <= s'.cancelled && Mild(s, s')
  }

  lemma GrantedKeepsDoc(s: State, d: nat, id: Id, op: Op, env: Env)
    requires id !in s.cancelled
    ensures Settled(s, ExecuteGranted(s, d, id, op, env), id)
  {
    hide ShowNotification, ExecuteGeolocation, Respond;
    GrantedQuiet(s, d, id, op, env);
    ShowKeepsDoc(Begun(s, d, Notifications, id), d, id, env);
    LocateKeepsDoc(Begun(s, d, Geolocation, id), d, id, op, env);
    RespondKeepsDoc(Begun(s, d, Notifications, id), d, id, Ok, Silent, None, NoReason);
    RespondKeepsDoc(s, d, id, Failed, Silent, None, NativeFailure);
  }

  lemma RespondKeepsDoc(s: State, d: nat, id: Id, status: Status, event: Event, about: Option<Id>, reason: Reason)
    ensures var r := Respond(s, d, id, status, event, about, reason); r == s.(posts := r.posts)
  {
  }

  lemma LocateKeepsDoc(s: State, d: nat, id: Id, op: Op, env: Env)
    ensures Settled(s, ExecuteGeolocation(s, d, id, op, env), id)
  {
    hide Respond, Mild;
    LocateQuiet(s, d, id, op, env);
    RespondKeepsDoc(s, d, id, Failed, Silent, None, Protocol.Unavailable);
    RespondKeepsDoc(s, d, id, Failed, Silent, None, TooManyOperations);
    RespondKeepsDoc(s, d, id, Failed, Silent, None, NativeFailure);
    RespondKeepsDoc(s, d, id, Failed, Silent, None, TooManyWatches);
  }

  lemma DisplayKeepsDoc(s: State, k: nat, env: Env)
    requires k in s.batches && s.batches[k].work.Showing?
    ensures Settled(s, Display(s, k, false, env), s.batches[k].work.id)
  {
    DisplayQuiet(s, k, false, env);
  }

  lemma ShowKeepsDoc(s: State, d: nat, id: Id, env: Env)
    ensures Settled(s, ShowNotification(s, d, id, env), id)
  {
    hide Display, Respond;
    ShowQuiet(s, d, id, env);
    RespondKeepsDoc(s, d, id, Denied, Silent, Some(id), Refused);
    RespondKeepsDoc(s, d, id, Failed, Silent, Some(id), TooManyOperations);
    DisplayKeepsDoc(Begin(s, d, 1, {id}, Showing(id, FindWorker, false)), s.next, env);
  }

  // Landing one request, and answering it, leaves the others alone.
  lemma LandSettled(s: State, s': State, id: Id)
    requires Settled(Land(s, id), s', id)
    ensures Settled(s, s', id)
  {
  }

  lemma AnswerSettled(s: State, d: nat, id: Id, status: Status, about: Option<Id>, reason: Reason)
    ensures var s' := Respond(Land(s, id), d, id, status, Silent, about, reason);
            Settled(s, s', id) && s'.queue == s.queue
  {
  }

  lemma SettleItemQueue(s: State, mode: Mode, current: Queued, item: Queued, v: Verdict, env: Env)
    ensures var s' := SettleItem(s, mode, current, item, v, env);
            Settled(s, s', item.id) && s'.queue == s.queue + PutBack(s, mode, current, [item], v)
  {
    hide ExecuteGranted, Respond, Settled;
    OnePutBack(s, mode, current, item, v);
    AnswerSettled(s, item.doc, item.id, Denied, None, Refused);
    AnswerSettled(s, item.doc, item.id, Ok, None, NoReason);
    AnswerSettled(s, item.doc, item.id, Denied, Some(item.id), ApprovalChanged);
    AnswerSettled(s, item.doc, item.id, Failed, None, NativeFailure);
    QueueSettled(s, item);
    if item.id !in s.cancelled {
      GrantedQuiet(Land(s, item.id), item.doc, item.id, item.op, env);
      GrantedKeepsDoc(Land(s, item.id), item.doc, item.id, item.op, env);
      LandSettled(s, ExecuteGranted(Land(s, item.id), item.doc, item.id, item.op, env), item.id);
    }
  }

  lemma OnePutBack(s: State, mode: Mode, current: Queued, item: Queued, v: Verdict)
    ensures PutBack(s, mode, current, [item], v) == if GoesBack(s, mode, current, item, v) then [item] else []
  {
    assert [item][1..] == [];
  }

  // The item is put back, or consumes its cancellation.
  lemma QueueSettled(s: State, item: Queued)
    ensures Settled(s, Land(s, item.id).(queue := s.queue + [item]), item.id)
    ensures Settled(s, Uncancel(Land(s, item.id), item.id), item.id)
  {
  }

  lemma {:induction false} PutBackStays(s: State, s': State, id: Id, mode: Mode, current: Queued, items: seq<Queued>,
                                        v: Verdict)
    requires Settled(s, s', id) && forall i :: 0 <= i < |items| ==> items[i].id != id
    ensures PutBack(s', mode, current, items, v) == PutBack(s, mode, current, items, v)
    decreases |items|
  {
    if items != [] {
      assert items[0].id != id;
      assert forall i :: 0 <= i < |items[1..]| ==> items[1..][i] == items[i + 1];
      PutBackStays(s, s', id, mode, current, items[1..], v);
    }
  }

  lemma {:induction false} SettleItemsQueue(s: State, mode: Mode, current: Queued, items: seq<Queued>, v: Verdict,
                                            env: Env)
    requires DistinctIds(items)
    ensures var s' := SettleItems(s, mode, current, items, v, env);
            && s'.queue == s.queue + PutBack(s, mode, current, items, v)
            && Mild(s, s') && s'.active == s.active && s'.managed == s.managed
    decreases |items|
  {
    hide SettleItem;
    if items == [] {
      assert s.queue + [] == s.queue;
    } else {
      var s1 := SettleItem(s, mode, current, items[0], v, env);
      SettleItemQueue(s, mode, current, items[0], v, env);
      assert [items[0]][1..] == [];
      assert forall i :: 0 <= i < |items[1..]| ==> items[1..][i] == items[i + 1];
      SettleItemsQueue(s1, mode, current, items[1..], v, env);
      PutBackStays(s, s1, items[0].id, mode, current, items[1..], v);
      MildTrans(s, s1, SettleItems(s1, mode, current, items[1..], v, env));
      assert s.queue + PutBack(s, mode, current, [items[0]], v) + PutBack(s, mode, current, items[1..], v)
          == s.queue + PutBack(s, mode, current, items, v);
    }
  }

  lemma {:induction false} PutBackSame(s: State, s': State, mode: Mode, current: Queued, items: seq<Queued>, v: Verdict)
    requires s'.cancelled == s.cancelled && s'.active == s.active
    ensures PutBack(s', mode, current, items, v) == PutBack(s, mode, current, items, v)
  {
    if items != [] { PutBackSame(s, s', mode, current, items[1..], v); }
  }

  lemma {:induction false} NonePutBack(s: State, mode: Mode, current: Queued, items: seq<Queued>, v: Verdict)
    requires v.status != Ok
    ensures PutBack(s, mode, current, items, v) == []
  {
    if items != [] { NonePutBack(s, mode, current, items[1..], v); }
  }

  lemma {:induction false} PutBackAreItems(s: State, mode: Mode, current: Queued, items: seq<Queued>, v: Verdict)
    ensures forall q :: q in PutBack(s, mode, current, items, v) ==> q in items
  {
    if items != [] { PutBackAreItems(s, mode, current, items[1..], v); }
  }

  lemma AdvanceKeepsLive(s: State, g: nat)
    requires Live(s, g) && forall i :: 0 <= i < |s.queue| ==> s.queue[i].doc == g
    ensures Quiet(s, Advance(s))
  {
  }

  // The settled items, before the prompt advances.
  lemma PromptItems(s: State, k: nat, status: Status, dismissed: bool, env: Env)
    requires k in s.batches && s.batches[k].work.Consenting? && Live(s, s.batches[k].doc)
    requires DistinctIds(s.batches[k].work.items)
    ensures var w := s.batches[k].work;
            var v := VerdictOf(s, k, status, env);
            exists s1 :: SettleConsent(s, k, status, dismissed, env) == Advance(s1) && Mild(s, s1)
              && Live(s1, s.batches[k].doc)
                         && s1.queue == s.queue + PutBack(s, w.mode, w.current, w.items, v)
  {
    hide Advance, SettleItems, SomeUncancelled;
    var w := s.batches[k].work;
    var v := VerdictOf(s, k, status, env);
    var doc := s.active.value;
    var uncancelled := SomeUncancelled(s, w.items);
    var s0 := Release(s, k);
    var s1 := if w.mode == Always && w.token.Some? && status == Denied && !dismissed && v.currentChoice && uncancelled
              then WithDoc(s0, doc.(denied := doc.denied + {Notifications})) else s0;
    SettleItemsQueue(s1, w.mode, w.current, w.items, v, env);
    if status == Ok {
      PutBackSame(s, s1, w.mode, w.current, w.items, v);
    } else {
      NonePutBack(s1, w.mode, w.current, w.items, v);
      NonePutBack(s, w.mode, w.current, w.items, v);
    }
    var s2 := SettleItems(s1, w.mode, w.current, w.items, v, env);
    assert SettleConsent(s, k, status, dismissed, env) == Advance(s2);
    MildTrans(s, s1, s2);
  }

  lemma PromptFacts(s: State, k: nat)
    requires Core(s) && k in s.batches && s.batches[k].work.Consenting? && Live(s, s.batches[k].doc)
    ensures Current(s.batches, s.generation, k) && DistinctIds(s.batches[k].work.items)
  {
    ActiveIsCurrent(s);
    assert Current(s.batches, s.generation, k) && WorkOk(s.active, s.batches[k].work);
  }

  /** Consent that settles puts back exactly the siblings that the guard names, behind the queue as it was. */
  lemma PromptQueue(s: State, k: nat, status: Status, dismissed: bool, env: Env)
    requires Core(s) && k in s.batches && s.batches[k].work.Consenting? && Live(s, s.batches[k].doc)
    ensures var w := s.batches[k].work;
            var v := VerdictOf(s, k, status, env);
            var s' := SettleConsent(s, k, status, dismissed, env);
            s'.queue == s.queue + PutBack(s, w.mode, w.current, w.items, v) && Mild(s, s')
  {
    hide Core, SettleConsent, PutBack, VerdictOf, DistinctIds, Mild, Advance;
    var w := s.batches[k].work;
    var v := VerdictOf(s, k, status, env);
    var g := s.batches[k].doc;
    PromptFacts(s, k);
    PromptItems(s, k, status, dismissed, env);
    var s1 :| SettleConsent(s, k, status, dismissed, env) == Advance(s1) && Mild(s, s1) && Live(s1, g)
              && s1.queue == s.queue + PutBack(s, w.mode, w.current, w.items, v);
    PutBackAreItems(s, w.mode, w.current, w.items, v);
    forall i | 0 <= i < |s1.queue| ensures s1.queue[i].doc == g { QueuedHere(s, k, s1.queue[i]); }
    AdvanceKeepsLive(s1, g);
    MildTrans(s, s1, Advance(s1));
  }

  // Queued requests and requests of the document's prompts belong to the document.
  lemma QueuedHere(s: State, k: nat, q: Queued)
    requires Core(s) && Current(s.batches, s.generation, k) && s.batches[k].work.Consenting?
    requires q in s.queue || q in s.batches[k].work.items
    ensures q.doc == s.batches[k].doc
  {
    assert s.active.Some? && WorkOk(s.active, s.batches[k].work);
    if q in s.queue {
      var i :| 0 <= i < |s.queue| && s.queue[i] == q;
      assert Known(s.active.value, s.queue[i]);
    } else {
      var i :| 0 <= i < |s.batches[k].work.items| && s.batches[k].work.items[i] == q;
      assert Known(s.active.value, s.batches[k].work.items[i]);
    }
  }

  /********** Messages **********/

  // A step that lets the queue grow no further than its limit.
  ghost predicate WithinLimit(s: State, s': State) { |s'.queue| <= |s.queue| || |s'.queue| <= MAX_PENDING }

  lemma AskQueue(s: State, d: nat, id: Id, op: Op, cap: Capability, env: Env)
    ensures var s' := RequestCapability(s, d, id, op, cap, env); Mild(s, s') && WithinLimit(s, s')
  {
    hide ExecuteClipboard, ExecuteGranted, Respond, Advance;
    RespondQuiet(s, d, id, Denied, Silent, None, Refused);
    RespondQuiet(s, d, id, Failed, Silent, None, TooManyPending);
    CopyQuiet(s, d, id, op, Saved, env.saved, env);
    GrantedQuiet(s, d, id, op, env);
    var s1 := s.(queue := s.queue + [Queued(d, cap, id, op)]);
    AdvanceShrinks(s1, s1);
  }

  // What a cancelling message for `target` may change.
  ghost predicate Marks(s: State, s': State, target: Id) {
    && SameRequests(s, s') && s'.cancelled <= s.cancelled + {target} && |s'.queue| <= |s.queue|
    && forall k :: k in s'.batches && Withdrawn(s'.batches[k].work) ==> k in s.batches && s'.batches[k] == s.batches[k]
  }

  lemma CancelMarks(s: State, doc: Doc, id: Id, op: Op, target: Id, env: Env)
    requires IsCancel(op)
    ensures var s' := Dispatch(s, doc, id, op, target, env);
            && Marks(s, s', target)
            && (!(target in doc.requests && Cancels(op, doc.requests[target])) ==> Shrinks(s, s'))
  {
    hide Respond, Advance, Discard;
    DiscardShorter(s.queue, doc.generation, target);
    RespondQuiet(s, doc.generation, id, Failed, Silent, Some(target), UnknownTarget);
    RespondQuiet(s, doc.generation, id, Failed, Silent, None, UnknownTarget);
    if op == LocationClear { ClearMarks(s, doc, id, target); }
    else if op == NotificationClose { CloseMarks(s, doc, id, target); }
    else { ClipMarks(s, doc, id, target); }
  }

  lemma EndMarks(s: State, s1: State, d: nat, id: Id, about: Option<Id>, target: Id)
    requires Marks(s, s1, target)
    ensures Marks(s, Respond(Advance(s1), d, id, Ok, Silent, about, NoReason), target)
  {
    hide Respond, Advance;
    AdvanceShrinks(s1, s1);
    RespondQuiet(Advance(s1), d, id, Ok, Silent, about, NoReason);
  }

  lemma ClearMarks(s: State, doc: Doc, id: Id, target: Id)
    ensures Marks(s, ClearLocation(s, doc, id, target), target)
  {
    hide Respond, Advance, Discard;
    var d := doc.generation;
    DiscardShorter(s.queue, d, target);
    RespondQuiet(s, d, id, Failed, Silent, Some(target), UnknownTarget);
    if target in doc.requests {
      var marked := if target in s.inFlight && doc.requests[target] == LocationGet then s.cancelled + {target}
        else s.cancelled;
      EndMarks(s, s.(watches := s.watches - {target}, cancelled := marked, queue := Discard(s.queue, d, target)), d,
               id, Some(target), target);
    }
  }

  lemma CloseMarks(s: State, doc: Doc, id: Id, target: Id)
    ensures Marks(s, CloseNotification(s, doc, id, target), target)
  {
    hide Respond, Advance, Discard;
    var d := doc.generation;
    DiscardShorter(s.queue, d, target);
    RespondQuiet(s, d, id, Failed, Silent, Some(target), UnknownTarget);
    RespondQuiet(s, d, target, Ok, Closed, Some(target), NoReason);
    if target in doc.requests {
      var s1 := if doc.requests[target] == NotificationShow
        then Respond(s, d, target, Ok, Closed, Some(target), NoReason) else s;
      var pending := target in s.notices && s.notices[target].Worker? && s.notices[target].pending;
      var marked := if target in s.inFlight || pending then s.cancelled + {target} else s.cancelled;
      var s2 := s1.(cancelled := marked, notices := s.notices - {target}, queue := Discard(s.queue, d, target));
      EndMarks(s, s2, d, id, Some(target), target);
    }
  }

  lemma ClipMarks(s: State, doc: Doc, id: Id, target: Id)
    ensures Marks(s, CancelClipboard(s, doc, id, target), target)
  {
    hide Respond, Advance, Discard;
    var d := doc.generation;
    DiscardShorter(s.queue, d, target);
    RespondQuiet(s, d, id, Failed, Silent, None, UnknownTarget);
    var marked := if target in s.inFlight then s.cancelled + {target} else s.cancelled;
    EndMarks(s, s.(cancelled := marked, queue := Discard(s.queue, d, target)), d, id, None, target);
  }

  // The target that a message cancels work of, if its document knows it by that kind.
  function Target(s: State, m: Message): set<Id> {
    if m.Request? && IsCancel(m.op) && s.active.Some? && m.client == s.active.value.client
       && m.target in s.active.value.requests && Cancels(m.op, s.active.value.requests[m.target])
    then {m.target} else {}
  }

  // The document is replaced.
  ghost predicate Replaces(s: State,
                           s': State) { s'.generation > s.generation && s'.cancelled == {} && s'.batches == s.batches }

  // What is remembered on both sides is remembered alike.
  ghost predicate SameKinds(s: State, s': State) {
    && s'.generation == s.generation && (s'.active.Some? <==> s.active.Some?)
    && (s.active.Some? ==> s'.active.value.client == s.active.value.client)
    && (s.active.Some? ==> forall x :: x in s.active.value.requests && x in s'.active.value.requests
                                      ==> s'.active.value.requests[x] == s.active.value.requests[x])
  }

  ghost predicate Hears(s: State, s': State, m: Message) {
    && s'.cancelled <= s.cancelled + Target(s, m) && WithinLimit(s, s')
    && (Replaces(s, s') || SameKinds(s, s'))
    && forall k :: k in s'.batches && Withdrawn(s'.batches[k].work) ==> k in s.batches && s'.batches[k] == s.batches[k]
  }

  lemma PruneFewer(doc: Doc, owners: set<Id>)
    ensures var p := Prune(doc, owners);
            && p.generation == doc.generation && p.client == doc.client
            && forall x :: x in p.requests ==> x in doc.requests && p.requests[x] == doc.requests[x]
  {
  }

  // A document that remembers no more than the active one, for the same page.
  ghost predicate Fewer(s: State, doc: Doc) {
    && s.active.Some? && doc.generation == s.active.value.generation && doc.client == s.active.value.client
    && forall x :: x in doc.requests ==> x in s.active.value.requests && doc.requests[x] == s.active.value.requests[x]
  }

  lemma RefusedHears(s: State, pruned: Doc, id: Id, m: Message)
    requires Fewer(s, pruned)
    ensures Hears(s, Answer(WithDoc(s, pruned), pruned.generation, id, Failed, TooManyActive), m)
  {
    hide Respond;
    RespondQuiet(WithDoc(s, pruned), pruned.generation, id, Failed, Silent, None, TooManyActive);
  }

  lemma RememberedHears(s: State, pruned: Doc, client: Client, id: Id, op: Op, target: Id, env: Env)
    requires Fewer(s, pruned) && id !in s.active.value.requests && op != Connect && client == s.active.value.client
    ensures var doc := Remember(pruned, id, op);
            Hears(s, Dispatch(WithDoc(s, doc), doc, id, op, target, env), Request(client, id, op, target))
  {
    hide Dispatch;
    var doc := Remember(pruned, id, op);
    var s1 := WithDoc(s, doc);
    if IsCancel(op) { CancelMarks(s1, doc, id, op, target, env); } else { AskDispatch(s1, doc, id, op, target, env); }
  }

  lemma NewRequestHears(s: State, client: Client, id: Id, op: Op, target: Id, env: Env)
    requires Accepts(s, client) && id !in s.active.value.requests && op != Connect
    ensures Hears(s, HandleRequest(s, client, id, op, target, env), Request(client, id, op, target))
  {
    hide Prune, Protected, Dispatch, Respond, Hears, Remember;
    var doc := s.active.value;
    var pruned := Prune(doc, Protected(s));
    PruneFewer(doc, Protected(s));
    if Size(pruned.requests) >= MAX_REMEMBERED {
      RefusedHears(s, pruned, id, Request(client, id, op, target));
    } else {
      RememberedHears(s, pruned, client, id, op, target, env);
    }
  }

  lemma AskDispatch(s: State, doc: Doc, id: Id, op: Op, target: Id, env: Env)
    requires op != Connect && !IsCancel(op)
    ensures var s' := Dispatch(s, doc, id, op, target, env); Mild(s, s') && WithinLimit(s, s')
  {
    hide RequestCapability, ClearLocation, CloseNotification, CancelClipboard;
    AskQueue(s, doc.generation, id, op, CapabilityOf(op).value, env);
  }

  lemma MessageHears(s: State, m: Message, env: Env)
    ensures Hears(s, HandleMessage(s, m, env), m)
  {
    hide HandleRequest, Respond;
    match m
    case Disconnect(client) =>
    case Garbled(client, id) =>
      if s.active.Some? { RespondQuiet(s, s.active.value.generation, id, Failed, Silent, None, MalformedRequest); }
    case Request(client, id, op, target) =>
      if op == Connect { ConnectHears(s, client, id, target); }
      else if !Accepts(s, client) { StrangerHears(s, client, id, op, target, env); }
      else if id in s.active.value.requests { RepeatHears(s, client, id, op, target, env); }
      else { NewRequestHears(s, client, id, op, target, env); }
  }

  lemma ConnectHears(s: State, client: Client, id: Id, target: Id)
    ensures Hears(s, HandleConnect(s, client, id), Request(client, id, Connect, target))
  {
  }

  lemma StrangerHears(s: State, client: Client, id: Id, op: Op, target: Id, env: Env)
    requires !Accepts(s, client)
    ensures Hears(s, HandleRequest(s, client, id, op, target, env), Request(client, id, op, target))
  {
  }

  lemma RepeatHears(s: State, client: Client, id: Id, op: Op, target: Id, env: Env)
    requires Accepts(s, client) && id in s.active.value.requests
    ensures Hears(s, HandleRequest(s, client, id, op, target, env), Request(client, id, op, target))
  {
  }

  /********** Shows **********/

  // Show k went on for the cancellation of its request, which is no longer cancelled.
  predicate Consumes(s: State, s': State, k: nat)
    requires k in s.batches && s.batches[k].work.Showing? && k in s'.batches && s'.batches[k].work.Showing?
  {
    var id := s.batches[k].work.id;
    s'.batches[k].work.id == id && id in s.cancelled && id !in s'.cancelled
  }

  // Show k may turn to withdrawing its notification for a cancellation that it consumes.
  ghost predicate Resumes(s: State, s': State, k: nat)
    requires k in s.batches && s.batches[k].work.Showing?
  {
    && SameRequests(s, s') && s'.cancelled <= s.cancelled && s'.queue == s.queue
    && (forall j :: j in s'.batches && Withdrawn(s'.batches[j].work) && j != k ==>
        j in s.batches && s'.batches[j] == s.batches[j])
    && (k in s'.batches && Withdrawn(s'.batches[k].work) ==> s'.batches[k].doc == s.batches[k].doc)
    && (k in s'.batches && Withdrawn(s'.batches[k].work) && !Withdrawn(s.batches[k].work) && Live(s, s.batches[k].doc)
        ==> Consumes(s, s', k))
    && (k in s'.batches && Withdrawn(s.batches[k].work) ==> s'.batches[k] == s.batches[k])
  }

  lemma {:induction false} ReconcileQuiet(s: State, d: nat, vanished: seq<Id>)
    ensures Quiet(s, Reconcile(s, d, vanished)) && Reconcile(s, d, vanished).batches == s.batches
  {
  }

  lemma CatchQuiet(s: State, k: nat)
    requires k in s.batches && s.batches[k].work.Showing?
    ensures Quiet(s, CatchShow(s, k)) && k !in CatchShow(s, k).batches
  {
    hide FinishShow, Respond;
    var d, id := s.batches[k].doc, s.batches[k].work.id;
    var s1 := DeleteReservation(s, id, k);
    FinishQuiet(s1, k);
    FinishQuiet(DeleteReservation(Uncancel(s, id), id, k), k);
    RespondFinishQuiet(s, s1, k, d, id, Failed, Errored, NativeFailure);
  }

  lemma QuietResumes(s: State, s': State, k: nat)
    requires k in s.batches && s.batches[k].work.Showing? && Quiet(s, s')
    requires (Withdrawn(s.batches[k].work) ==> k !in s'.batches)
    ensures Resumes(s, s', k)
  {
  }

  lemma FindWorkerQuiet(s: State, k: nat, env: Env)
    requires k in s.batches && s.batches[k].work.Showing?
    ensures Quiet(s, ResumeFindWorker(s, k, env))
  {
    hide Display, FinishShow, Suspend;
    DisplayQuiet(s, k, false, env);
    FinishQuiet(s, k);
    FinishQuiet(Uncancel(s, s.batches[k].work.id), k);
    SuspendQuiet(s, k, FirstReconcile, true);
  }

  lemma FirstReconcileQuiet(s: State, k: nat, env: Env)
    requires k in s.batches && s.batches[k].work.Showing?
    ensures Quiet(s, ResumeFirstReconcile(s, k, env))
  {
    hide Display, Reconcile;
    ReconcileQuiet(s, s.batches[k].doc, env.vanished);
    DisplayQuiet(s, k, true, env);
    DisplayQuiet(Reconcile(s, s.batches[k].doc, env.vanished), k, true, env);
  }

  lemma FindFallbackQuiet(s: State, k: nat, env: Env)
    requires k in s.batches && s.batches[k].work.Showing?
    ensures Quiet(s, ResumeFindFallback(s, k, env))
  {
    hide CatchShow, FinishShow, Suspend, Respond;
    var d, id := s.batches[k].doc, s.batches[k].work.id;
    CatchQuiet(s, k);
    FinishQuiet(DeleteReservation(s, id, k), k);
    FinishQuiet(DeleteReservation(Uncancel(s, id), id, k), k);
    RespondFinishQuiet(s, DeleteReservation(s, id, k), k, d, id, Failed, Silent, Protocol.Unavailable);
    SuspendQuiet(s, k, Displaying, s.batches[k].work.registered);
  }

  lemma DisplayingMarks(s: State, k: nat, env: Env)
    requires k in s.batches && s.batches[k].work.Showing? && s.batches[k].work.phase == Displaying
    ensures Resumes(s, ResumeDisplaying(s, k, env), k)
  {
    hide CatchShow;
    CatchQuiet(s, k);
    QuietResumes(s, CatchShow(s, k), k);
  }

  lemma WithdrawingQuiet(s: State, k: nat, env: Env)
    requires k in s.batches && s.batches[k].work.Showing?
    ensures var s' := ResumeWithdrawing(s, k, env); Quiet(s, s') && k !in s'.batches
  {
    hide CatchShow;
    CatchQuiet(s, k);
    FinishQuiet(DeleteReservation(s, s.batches[k].work.id, k), k);
  }

  lemma ReconciledQuiet(s: State, d: nat, env: Env)
    ensures var s1 := if env.failed then s else Reconcile(s, d, env.vanished);
            Quiet(s, s1) && s1.batches == s.batches
  {
    ReconcileQuiet(s, d, env.vanished);
  }

  lemma FinishesQuiet(s: State, s1: State, k: nat)
    requires Quiet(s, s1) && s1.batches == s.batches && k in s.batches && s.batches[k].work.Showing?
    ensures Quiet(s, FinishShow(s1, k))
  {
    hide FinishShow;
    FinishQuiet(s1, k);
  }

  // Notifications are no part of what stays.
  lemma DeletedQuiet(s: State, s1: State, id: Id, k: nat)
    requires Quiet(s, s1)
    ensures var s2 := DeleteReservation(s1, id, k); Quiet(s, s2) && s2.batches == s1.batches
    ensures var s2 := DeleteReservation(Uncancel(s1, id), id, k); Quiet(s, s2) && s2.batches == s1.batches
    ensures forall notices :: Quiet(s, s1.(notices := notices))
  {
    hide Withdrawn, SameRequests, Quiet;
    SameDocQuiet(s, s1, DeleteReservation(s1, id, k));
    SameDocQuiet(s, s1, DeleteReservation(Uncancel(s1, id), id, k));
    forall notices ensures Quiet(s, s1.(notices := notices)) { SameDocQuiet(s, s1, s1.(notices := notices)); }
  }

  lemma SameDocQuiet(s: State, s1: State, s2: State)
    requires Quiet(s, s1) && s2.generation == s1.generation && s2.active == s1.active && s2.queue == s1.queue
    requires s2.batches == s1.batches && s2.cancelled <= s1.cancelled
    ensures Quiet(s, s2)
  {
  }

  lemma LastReconcileQuiet(s: State, k: nat, env: Env)
    requires k in s.batches && s.batches[k].work.Showing?
    ensures Quiet(s, ResumeLastReconcile(s, k, env))
  {
    hide FinishShow, Reconcile, Respond, Quiet, DeleteReservation;
    var d, id := s.batches[k].doc, s.batches[k].work.id;
    var s1 := if env.failed then s else Reconcile(s, d, env.vanished);
    ReconciledQuiet(s, d, env);
    FinishesQuiet(s, s1, k);
    DeletedQuiet(s, s1, id, k);
    FinishesQuiet(s, DeleteReservation(s1, id, k), k);
    FinishesQuiet(s, DeleteReservation(Uncancel(s1, id), id, k), k);
    RespondFinishQuiet(s, s1.(notices := s1.notices[id := Worker(k, d, false)]), k, d, id, Ok, Shown, NoReason);
  }

  lemma ShowResumesMarks(s: State, k: nat, env: Env)
    requires k in s.batches && s.batches[k].work.Showing?
    ensures Resumes(s, ResumeShow(s, k, env), k)
  {
    hide Resumes, Quiet, ResumeFindWorker, ResumeFirstReconcile, ResumeFindFallback, ResumeDisplaying,
         ResumeWithdrawing, ResumeLastReconcile;
    match s.batches[k].work.phase
    case FindWorker => FindWorkerQuiet(s, k, env); QuietResumes(s, ResumeFindWorker(s, k, env), k);
    case FirstReconcile => FirstReconcileQuiet(s, k, env); QuietResumes(s, ResumeFirstReconcile(s, k, env), k);
    case FindFallback => FindFallbackQuiet(s, k, env); QuietResumes(s, ResumeFindFallback(s, k, env), k);
    case Displaying => DisplayingMarks(s, k, env);
    case Withdrawing => WithdrawingQuiet(s, k, env); QuietResumes(s, ResumeWithdrawing(s, k, env), k);
    case LastReconcile => LastReconcileQuiet(s, k, env); QuietResumes(s, ResumeLastReconcile(s, k, env), k);
  }

  /********** The queue's limit **********/

  // More siblings go back than the queue has room for.
  predicate Overflows(s: State, a: Action, env: Env)
    requires Enabled(s, a)
  {
    && a.PromptSettles? && Live(s, s.batches[a.batch].doc)
    && var w := s.batches[a.batch].work;
       |s.queue| + |PutBack(s, w.mode, w.current, w.items, VerdictOf(s, a.batch, a.status, env))| > MAX_PENDING
  }

  // What a step other than a message changes about cancellations and withdrawals.
  lemma StepFrames(s: State, a: Action, env: Env)
    requires Core(s) && Enabled(s, a) && !a.Receive? && !a.ShowResumes?
    ensures var s' := Next(s, a, env); Mild(s, s') || Replaces(s, s')
  {
    hide Core, Allow, Deny, SettleLocation, SettleClipboard, SettleConsent, Advance;
    match a
    case ClickAllow(mode) => AllowShrinks(s, mode, env);
    case ClickDeny => DenyShrinks(s);
    case LocationSettles(k, fix) => SettleLocationShrinks(s, k, fix);
    case ClipboardSettles(k) => SettleClipboardShrinks(s, k, env);
    case PromptSettles(k, status, dismissed) =>
      if Live(s, s.batches[k].doc) { PromptQueue(s, k, status, dismissed, env); } else { LateConsent(s, a, env); }
    case _ => OtherFrames(s, a, env);
  }

  lemma OtherFrames(s: State, a: Action, env: Env)
    requires Enabled(s, a)
    requires a.WatchFires? || a.NoticeFires? || a.Load? || a.Navigate? || a.Manage? || a.ReserveElsewhere?
             || a.ReleaseElsewhere?
    ensures var s' := Next(s, a, env); Mild(s, s') || Replaces(s, s')
  {
    hide Respond, WatchEvent, NoticeEvent, Begin, Release, FrameLoaded, Revoke;
    match a
    case WatchFires(id, d, fix) => WatchMild(s, id, d, fix);
    case NoticeFires(id, handle, event) => NoticeMild(s, id, handle, event);
    case ReserveElsewhere(count) => BeginIsMild(s, 0, count, {}, Elsewhere);
    case ReleaseElsewhere(k) => ReleaseQuiet(s, k);
    case Load => LoadReplaces(s);
    case Navigate => LoadReplaces(s);
    case Manage(managed) => ManageMild(s, managed);
  }

  lemma LoadReplaces(s: State)
    ensures Mild(s, FrameLoaded(s)) || Replaces(s, FrameLoaded(s))
    ensures Replaces(s, Revoke(s))
  {
  }

  lemma ManageMild(s: State, managed: bool)
    ensures Mild(s, s.(managed := managed))
  {
  }

  lemma WatchMild(s: State, id: Id, d: nat, fix: Fix)
    ensures Mild(s, WatchEvent(s, id, d, fix))
  {
  }

  lemma NoticeMild(s: State, id: Id, handle: nat, event: Event)
    ensures Mild(s, NoticeEvent(s, id, handle, event))
  {
  }

  lemma StepWithinLimit(s: State, a: Action, env: Env)
    requires Enabled(s, a) && !a.PromptSettles?
    ensures WithinLimit(s, Next(s, a, env))
  {
    hide HandleMessage, Allow, Deny, SettleLocation, SettleClipboard, ResumeShow;
    match a
    case Receive(m) => MessageHears(s, m, env);
    case ClickAllow(mode) => AllowShrinks(s, mode, env);
    case ClickDeny => DenyShrinks(s);
    case LocationSettles(k, fix) => SettleLocationShrinks(s, k, fix);
    case ClipboardSettles(k) => SettleClipboardShrinks(s, k, env);
    case ShowResumes(k) => ShowResumesMarks(s, k, env);
    case _ =>
  }

  /** A queue within its limit stays there exactly when the siblings that settled consent puts back fit in. */
  lemma QueueLimitExactly(s: State, a: Action, env: Env)
    requires Core(s) && Enabled(s, a) && |s.queue| <= MAX_PENDING
    ensures |Next(s, a, env).queue| <= MAX_PENDING <==> !Overflows(s, a, env)
  {
    hide Core, SettleConsent, PutBack, VerdictOf;
    if a.PromptSettles? {
      if Live(s, s.batches[a.batch].doc) {
        PromptQueue(s, a.batch, a.status, a.dismissed, env);
      } else {
        LateConsent(s, a, env);
      }
    } else {
      StepWithinLimit(s, a, env);
    }
  }

  lemma LateConsent(s: State, a: Action, env: Env)
    requires Enabled(s, a) && a.PromptSettles? && !Live(s, s.batches[a.batch].doc)
    ensures Next(s, a, env) == Release(s, a.batch)
  {
  }

  /** A location lookup that settles is answered exactly when its document is live and it was not cancelled, whatever
      that document denies by then. */
  lemma LookupAnswersExactly(s: State, k: nat, fix: Fix)
    requires k in s.batches && s.batches[k].work.Locating?
    ensures var id := s.batches[k].work.id;
            var status := match fix case Position => Ok case NoPosition => Failed case PermissionDenied => Denied;
            SettleLocation(s, k, fix).posts
            == if Live(s, s.batches[k].doc) && id !in s.cancelled
               then s.posts + [Response(s.active.value.client, id, status, Silent, None, if fix == Position
                                        then NoReason else NativeFailure)]
               else s.posts
  {
  }
}
