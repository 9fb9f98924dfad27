/**
 The account of answers: a lookup, a permission request or a clipboard call that a document asks for waits, runs, was
 cancelled by the document, or has been answered exactly once.
 */
module BrokerReplies {
  import opened Wrappers
  import opened Protocol
  import opened BrokerSpec
  import opened BrokerInvariant
  import opened BrokerRequests
  import opened BrokerTheorems
  import P = BrokerPrompt
  import F = BrokerFrames
  import O = BrokerOutcomes
  import Grants

  /********** The account of one request **********/

  // Not the answer of a request, but the refusal of a message that happens to name it.
  predicate Refusal(r: Reason) { r == DuplicateRequest || r == MalformedRequest || r == UnknownDocument }

  predicate Tells(r: Response, x: Id) { r.id == x && !Refusal(r.reason) }

  // How often x was answered.
  function Told(posts: seq<Response>, x: Id): nat {
    if posts == [] then 0
    else Told(posts[..|posts| - 1], x) + if Tells(posts[|posts| - 1], x) then 1 else 0
  }

  // The request waits for consent, or runs and is still wanted.
  predicate Open(s: State, x: Id) { x in Ids(s.queue) || (x in s.inFlight && x !in s.cancelled) }

  function Account(s: State, x: Id): nat { Told(s.posts, x) + if Open(s, x) then 1 else 0 }

  // Nothing of x goes on.
  predicate Idle(s: State, x: Id) { x !in Ids(s.queue) && x !in s.inFlight && x !in s.cancelled }

  // The managed frame shows the connected document, and all that waits is of it.
  predicate Home(s: State) {
    s.managed && s.active.Some? && forall i :: 0 <= i < |s.queue| ==> s.queue[i].doc == s.active.value.generation
  }

  // What waits is of the document and of a kind that needs consent, owns nothing else, and x among it is told once.
  ghost predicate Orderly(s: State, x: Id) {
    && Home(s) && DistinctIds(s.queue)
    && (forall i :: 0 <= i < |s.queue| ==> Waits(s, s.queue[i], x))
  }

  predicate Waits(s: State, q: Queued, x: Id) {
    && CapabilityOf(q.op) == Some(q.cap) && q.id !in s.inFlight && q.id !in s.cancelled && (q.id == x ==> OneShot(q.op))
  }

  predicate SamePage(s: State, s': State) {
    && s'.managed == s.managed && (s'.active.Some? <==> s.active.Some?)
    && (s.active.Some? ==> s'.active.value.generation == s.active.value.generation)
    && (Home(s) ==> Home(s'))
  }

  // A part of a step that does nothing about x,
  predicate Beside(s: State, s': State, x: Id) {
    && SamePage(s, s')
    && (x in Ids(s'.queue) <==> x in Ids(s.queue)) && (x in s'.inFlight <==> x in s.inFlight)
    && (x in s'.cancelled <==> x in s.cancelled) && Told(s'.posts, x) == Told(s.posts, x)
  }

  // one that takes x on: it is answered, or goes on,
  predicate Takes(s: State, s': State, x: Id) {
    SamePage(s, s') && x !in s'.cancelled && Account(s', x) == Account(s, x) + 1
  }

  // and one that leaves the account of x as it is.
  predicate Even(s: State, s': State, x: Id) {
    SamePage(s, s') && Account(s', x) == Account(s, x) && (Open(s', x) ==> Open(s, x))
  }

  lemma Beside2(s: State, s1: State, s2: State, x: Id)
    requires Beside(s, s1, x) && Beside(s1, s2, x)
    ensures Beside(s, s2, x)
  {
  }

  lemma BesideTakes(s: State, s1: State, s2: State, x: Id)
    requires (Beside(s, s1, x) && Takes(s1, s2, x)) || (Takes(s, s1, x) && Beside(s1, s2, x))
    ensures Takes(s, s2, x)
  {
  }

  lemma BesideEven(s: State, s1: State, s2: State, x: Id)
    requires Beside(s, s1, x) || Even(s, s1, x)
    requires Beside(s1, s2, x) || Even(s1, s2, x)
    ensures Even(s, s2, x)
  {
  }

  // A request that was open and is idle, for a moment, is taken on.
  lemma LeavesTakes(s: State, s1: State, s2: State, x: Id)
    requires SamePage(s, s1) && Open(s, x) && Idle(s1, x) && Told(s1.posts, x) == Told(s.posts, x) && Takes(s1, s2, x)
    ensures Even(s, s2, x)
  {
  }

  lemma ToldMore(posts: seq<Response>, r: Response, x: Id)
    ensures Told(posts + [r], x) == Told(posts, x) + if Tells(r, x) then 1 else 0
  {
    assert (posts + [r])[..|posts|] == posts;
  }

  /********** Answers **********/

  lemma RespondBeside(s: State, d: nat, id: Id, status: Status, event: Event, about: Option<Id>, reason: Reason, x: Id)
    requires id != x || Refusal(reason)
    ensures Beside(s, Respond(s, d, id, status, event, about, reason), x)
  {
    ToldMore(s.posts, Reply(s, id, status, event, about, reason), x);
  }

  lemma RespondTakes(s: State, d: nat, x: Id, status: Status, event: Event, about: Option<Id>, reason: Reason)
    requires Live(s, d) && Idle(s, x) && !Refusal(reason)
    ensures Takes(s, Respond(s, d, x, status, event, about, reason), x)
  {
    ToldMore(s.posts, Reply(s, x, status, event, about, reason), x);
  }

  lemma {:induction false} AnswerAllBeside(s: State, items: seq<Queued>, status: Status, reason: Reason, x: Id)
    requires x !in Ids(items)
    ensures Beside(s, AnswerAll(s, items, status, reason), x)
    decreases |items|
  {
    hide Respond, Beside;
    Still(s, x);
    if items != [] {
      var s1 := Answer(s, items[0].doc, items[0].id, status, reason);
      RespondBeside(s, items[0].doc, items[0].id, status, Silent, None, reason, x);
      TailIds(items, x);
      AnswerAllBeside(s1, items[1..], status, reason, x);
      Beside2(s, s1, AnswerAll(s, items, status, reason), x);
    }
  }

  lemma {:induction false} AnswerAllTakes(s: State, items: seq<Queued>, status: Status, reason: Reason, x: Id)
    requires x in Ids(items) && DistinctIds(items) && Idle(s, x) && !Refusal(reason)
    requires forall i :: 0 <= i < |items| ==> Live(s, items[i].doc)
    ensures Takes(s, AnswerAll(s, items, status, reason), x)
    decreases |items|
  {
    hide Respond, Takes;
    var d, id := items[0].doc, items[0].id;
    var s1, s' := Answer(s, d, id, status, reason), AnswerAll(s, items, status, reason);
    TailIds(items, x);
    if id == x {
      RespondTakes(s, d, x, status, Silent, None, reason);
      AnswerAllBeside(s1, items[1..], status, reason, x);
    } else {
      RespondBeside(s, d, id, status, Silent, None, reason, x);
      AnswerAllTakes(s1, items[1..], status, reason, x);
    }
    BesideTakes(s, s1, s', x);
  }

  lemma Still(s: State, x: Id)
    ensures Beside(s, s, x)
  {
  }

  lemma TailIds(items: seq<Queued>, x: Id)
    requires items != []
    ensures x in Ids(items) <==> x == items[0].id || x in Ids(items[1..])
    ensures DistinctIds(items) ==> DistinctIds(items[1..]) && items[0].id !in Ids(items[1..])
  {
    if i :| 0 <= i < |items| && items[i].id == x && i != 0 { assert items[1..][i - 1] == items[i]; }
    if i :| 0 <= i < |items[1..]| && items[1..][i].id == x { assert items[i + 1].id == x; }
    if DistinctIds(items) {
      forall i | 0 <= i < |items[1..]| ensures items[1..][i].id != items[0].id { assert items[1..][i] == items[i + 1]; }
    }
  }

  /********** The queue **********/

  // Queued items of one id are one item.
  lemma SameItem(items: seq<Queued>, p: Queued, q: Queued)
    requires DistinctIds(items) && p in items && q in items && p.id == q.id
    ensures p == q
  {
  }

  lemma WithoutIds(queue: seq<Queued>, gone: seq<Queued>, x: Id)
    requires DistinctIds(queue) && forall q :: q in gone ==> q in queue
    ensures x in Ids(Without(queue, gone)) <==> x in Ids(queue) && x !in Ids(gone)
  {
    var rest := Without(queue, gone);
    if x in Ids(rest) {
      var i :| 0 <= i < |rest| && rest[i].id == x;
      assert rest[i] in rest && rest[i] in queue;
      if x in Ids(gone) {
        var j :| 0 <= j < |gone| && gone[j].id == x;
        assert gone[j] in gone;
        SameItem(queue, rest[i], gone[j]);
      }
    }
    if x in Ids(queue) && x !in Ids(gone) {
      var i :| 0 <= i < |queue| && queue[i].id == x;
      forall j | 0 <= j < |gone| ensures gone[j] != queue[i] { assert gone[j].id in Ids(gone); }
      assert queue[i] in queue && queue[i] in rest;
    }
  }

  lemma {:induction false} DropDeadNothing(s: State, queue: seq<Queued>)
    requires forall i :: 0 <= i < |queue| ==> Live(s, queue[i].doc)
    ensures DropDead(s, queue) == queue
  {
  }

  lemma AdvanceBeside(s: State, x: Id)
    requires Home(s)
    ensures Beside(s, Advance(s), x) && Advance(s).queue == s.queue
  {
    DropDeadNothing(s, s.queue);
  }

  // The queue loses items that x is not among.
  lemma TakenBeside(s: State, gone: seq<Queued>, x: Id)
    requires DistinctIds(s.queue) && (forall q :: q in gone ==> q in s.queue) && x !in Ids(gone)
    ensures Beside(s, s.(queue := Without(s.queue, gone)), x)
  {
    WithoutIds(s.queue, gone, x);
    TakenHome(s, gone);
  }

  lemma TakenHome(s: State, gone: seq<Queued>)
    ensures SamePage(s, s.(queue := Without(s.queue, gone)))
  {
    var rest := Without(s.queue, gone);
    if Home(s) {
      forall i | 0 <= i < |rest| ensures rest[i].doc == s.active.value.generation { assert rest[i] in rest; }
    }
  }

  // The queue loses items, among them x, which owns nothing else.
  lemma TakenIdle(s: State, gone: seq<Queued>, x: Id)
    requires Orderly(s, x) && (forall q :: q in gone ==> q in s.queue) && x in Ids(gone)
    ensures var s1 := s.(queue := Without(s.queue, gone));
            SamePage(s, s1) && Open(s, x) && Idle(s1, x)
  {
    WithoutIds(s.queue, gone, x);
    TakenHome(s, gone);
    var j :| 0 <= j < |gone| && gone[j].id == x;
    assert gone[j] in gone;
    var i :| 0 <= i < |s.queue| && s.queue[i] == gone[j];
    assert Waits(s, s.queue[i], x) && x in Ids(s.queue);
  }

  lemma {:induction false} MatchingDistinct(queue: seq<Queued>, d: nat, cap: Capability)
    requires DistinctIds(queue)
    ensures DistinctIds(Matching(queue, d, cap))
  {
    if queue != [] {
      MatchingDistinct(queue[1..], d, cap);
      var rest := Matching(queue[1..], d, cap);
      forall i | 0 <= i < |rest| ensures rest[i].id != queue[0].id {
        assert rest[i] in rest && rest[i] in queue[1..];
        TailIds(queue, rest[i].id);
        var j :| 0 <= j < |queue[1..]| && queue[1..][j] == rest[i];
        assert queue[j + 1] == rest[i];
      }
    }
  }

  /********** Notifications **********/

  lemma FinishBeside(s: State, k: nat, x: Id)
    requires k in s.batches && s.batches[k].work.Showing? && s.batches[k].work.id != x
    ensures Beside(s, FinishShow(s, k), x)
  {
  }

  // A show that is not x ends with an answer.
  lemma ReplyFinishBeside(s: State, s1: State, k: nat, d: nat, status: Status, event: Event, reason: Reason, x: Id)
    requires k in s1.batches && s1.batches[k].work.Showing? && s1.batches[k].work.id != x && Beside(s, s1, x)
    ensures var id := s1.batches[k].work.id;
            Beside(s, FinishShow(Respond(s1, d, id, status, event, Some(id), reason), k), x)
  {
    hide FinishShow, Beside;
    var id := s1.batches[k].work.id;
    var s2 := Respond(s1, d, id, status, event, Some(id), reason);
    RespondBeside(s1, d, id, status, event, Some(id), reason, x);
    FinishBeside(s2, k, x);
    Beside2(s, s1, s2, x);
    Beside2(s, s2, FinishShow(s2, k), x);
  }

  lemma SuspendBeside(s: State, k: nat, phase: Phase, registered: bool, x: Id)
    requires k in s.batches && s.batches[k].work.Showing?
    ensures Beside(s, Suspend(s, k, phase, registered), x)
  {
  }

  // Notifications, and the cancellation of another request, are no part of the account.
  lemma NoticesBeside(s: State, notices: map<Id, Notice>, id: Id, x: Id)
    requires id != x
    ensures Beside(s, s.(notices := notices), x) && Beside(s, Uncancel(s, id).(notices := notices), x)
    ensures Beside(s, Uncancel(s, id), x)
  {
  }

  lemma ReservedBeside(s: State, k: nat, registered: bool, env: Env, x: Id)
    requires k in s.batches && s.batches[k].work.Showing? && s.batches[k].work.id != x
    requires Live(s, s.batches[k].doc) && s.batches[k].work.id !in s.cancelled && Size(s.notices) < MAX_NOTIFICATIONS
    ensures Beside(s, Display(s, k, registered, env), x)
  {
    hide FinishShow, Respond, Suspend, Beside;
    var d, id := s.batches[k].doc, s.batches[k].work.id;
    var reserved := s.(notices := s.notices[id := Worker(k, d, true)]);
    NoticesBeside(s, reserved.notices, id, x);
    if id in env.constructed {
      var shown := reserved.(notices := reserved.notices[id := Native(k, d)]);
      NoticesBeside(s, shown.notices, id, x);
      ReplyFinishBeside(s, shown, k, d, Ok, Silent, NoReason, x);
    } else if !env.worker {
      var freed := DeleteReservation(reserved, id, k);
      NoticesBeside(s, freed.notices, id, x);
      ReplyFinishBeside(s, freed, k, d, Failed, Silent, Protocol.Unavailable, x);
    } else {
      var phase := if registered then Displaying else FindFallback;
      SuspendBeside(reserved, k, phase, registered, x);
      Beside2(s, reserved, Suspend(reserved, k, phase, registered), x);
    }
  }

  lemma DisplayBeside(s: State, k: nat, registered: bool, env: Env, x: Id)
    requires k in s.batches && s.batches[k].work.Showing? && s.batches[k].work.id != x
    ensures Beside(s, Display(s, k, registered, env), x)
  {
    hide FinishShow, Respond, Suspend, Beside, DeleteReservation;
    var d, id := s.batches[k].doc, s.batches[k].work.id;
    Still(s, x);
    if !Live(s, d) { FinishBeside(s, k, x); }
    else if id in s.cancelled { ConsumeFinishBeside(s, k, x); }
    else if Size(s.notices) >= MAX_NOTIFICATIONS {
      ReplyFinishBeside(s, s, k, d, Failed, Silent, TooManyNotifications, x);
    } else { ReservedBeside(s, k, registered, env, x); }
  }

  lemma ConsumeFinishBeside(s: State, k: nat, x: Id)
    requires k in s.batches && s.batches[k].work.Showing? && s.batches[k].work.id != x
    ensures var s1 := Uncancel(s, s.batches[k].work.id); Beside(s, FinishShow(s1, k), x)
  {
    hide FinishShow, Beside;
    var s1 := Uncancel(s, s.batches[k].work.id);
    NoticesBeside(s, s.notices, s.batches[k].work.id, x);
    FinishBeside(s1, k, x);
    Beside2(s, s1, FinishShow(s1, k), x);
  }

  lemma BeginBeside(s: State, d: nat, count: nat, ids: set<Id>, work: Work, x: Id)
    requires x !in ids
    ensures Beside(s, Begin(s, d, count, ids, work), x)
  {
  }

  lemma BeginTakes(s: State, d: nat, count: nat, ids: set<Id>, work: Work, x: Id)
    requires x in ids && Idle(s, x)
    ensures Takes(s, Begin(s, d, count, ids, work), x)
  {
  }

  lemma ShowBeside(s: State, d: nat, id: Id, env: Env, x: Id)
    requires id != x
    ensures Beside(s, ShowNotification(s, d, id, env), x)
  {
    hide Respond, Display, Beside;
    RespondBeside(s, d, id, Denied, Silent, Some(id), Refused, x);
    RespondBeside(s, d, id, Failed, Silent, Some(id), TooManyOperations, x);
    var s1 := Begin(s, d, 1, {id}, Showing(id, FindWorker, false));
    BeginBeside(s, d, 1, {id}, Showing(id, FindWorker, false), x);
    DisplayBeside(s1, s.next, false, env, x);
    Beside2(s, s1, Display(s1, s.next, false, env), x);
  }

  /********** Granted work **********/

  lemma LocateBeside(s: State, d: nat, id: Id, op: Op, env: Env, x: Id)
    requires id != x
    ensures Beside(s, ExecuteGeolocation(s, d, id, op, env), x)
  {
    hide Respond, Begin;
    RespondBeside(s, d, id, Failed, Silent, None, Protocol.Unavailable, x);
    RespondBeside(s, d, id, Failed, Silent, None, TooManyOperations, x);
    RespondBeside(s, d, id, Failed, Silent, None, NativeFailure, x);
    RespondBeside(s, d, id, Failed, Silent, None, TooManyWatches, x);
    BeginBeside(s, d, 1, {id}, Locating(id), x);
  }

  lemma LocateTakes(s: State, d: nat, env: Env, x: Id)
    requires Live(s, d) && Idle(s, x)
    ensures Takes(s, ExecuteGeolocation(s, d, x, LocationGet, env), x)
  {
    hide Respond, Begin;
    RespondTakes(s, d, x, Failed, Silent, None, Protocol.Unavailable);
    RespondTakes(s, d, x, Failed, Silent, None, TooManyOperations);
    RespondTakes(s, d, x, Failed, Silent, None, NativeFailure);
    BeginTakes(s, d, 1, {x}, Locating(x), x);
  }

  lemma BegunBeside(s: State, d: nat, cap: Capability, id: Id, x: Id)
    ensures Beside(s, Begun(s, d, cap, id), x)
  {
  }

  lemma GrantedBeside(s: State, d: nat, id: Id, op: Op, env: Env, x: Id)
    requires id != x
    ensures Beside(s, ExecuteGranted(s, d, id, op, env), x)
  {
    hide Respond, ExecuteGeolocation, ShowNotification, Beside;
    Still(s, x);
    var s1, s2 := Begun(s, d, Geolocation, id), Begun(s, d, Notifications, id);
    BegunBeside(s, d, Geolocation, id, x);
    BegunBeside(s, d, Notifications, id, x);
    LocateBeside(s1, d, id, op, env, x);
    ShowBeside(s2, d, id, env, x);
    RespondBeside(s2, d, id, Ok, Silent, None, NoReason, x);
    RespondBeside(s, d, id, Failed, Silent, None, NativeFailure, x);
    Beside2(s, s1, ExecuteGeolocation(s1, d, id, op, env), x);
    Beside2(s, s2, ShowNotification(s2, d, id, env), x);
    Beside2(s, s2, Answer(s2, d, id, Ok, NoReason), x);
  }

  lemma GrantedTakes(s: State, d: nat, op: Op, env: Env, x: Id)
    requires Live(s, d) && Idle(s, x) && (op == LocationGet || op == NotificationPermission)
    ensures Takes(s, ExecuteGranted(s, d, x, op, env), x)
  {
    hide Respond, ExecuteGeolocation, Takes;
    var s1, s2 := Begun(s, d, Geolocation, x), Begun(s, d, Notifications, x);
    BegunBeside(s, d, Geolocation, x, x);
    BegunBeside(s, d, Notifications, x, x);
    LocateTakes(s1, d, env, x);
    RespondTakes(s2, d, x, Ok, Silent, None, NoReason);
    BesideTakes(s, s1, ExecuteGeolocation(s1, d, x, LocationGet, env), x);
    BesideTakes(s, s2, Answer(s2, d, x, Ok, NoReason), x);
  }

  lemma {:induction false} AllBeside(s: State, items: seq<Queued>, env: Env, x: Id)
    requires x !in Ids(items)
    ensures Beside(s, ExecuteAll(s, items, env), x)
    decreases |items|
  {
    hide ExecuteGranted, Beside;
    Still(s, x);
    if items != [] {
      var s1 := ExecuteGranted(s, items[0].doc, items[0].id, items[0].op, env);
      TailIds(items, x);
      GrantedBeside(s, items[0].doc, items[0].id, items[0].op, env, x);
      AllBeside(s1, items[1..], env, x);
      Beside2(s, s1, ExecuteAll(s, items, env), x);
    }
  }

  // Every item by the id of x is a lookup or a permission request.
  predicate PlainFor(items: seq<Queued>, x: Id) {
    forall i :: 0 <= i < |items| && items[i].id == x ==>
      items[i].op == LocationGet || items[i].op == NotificationPermission
  }

  lemma {:induction false} AllTakes(s: State, items: seq<Queued>, env: Env, x: Id)
    requires x in Ids(items) && DistinctIds(items) && Idle(s, x) && PlainFor(items, x)
    requires forall i :: 0 <= i < |items| ==> Live(s, items[i].doc)
    ensures Takes(s, ExecuteAll(s, items, env), x)
    decreases |items|
  {
    hide ExecuteGranted, Takes;
    var d, id := items[0].doc, items[0].id;
    var s1 := ExecuteGranted(s, d, id, items[0].op, env);
    TailIds(items, x);
    if id == x {
      GrantedTakes(s, d, items[0].op, env, x);
      AllBeside(s1, items[1..], env, x);
    } else {
      GrantedBeside(s, d, id, items[0].op, env, x);
      AllTakes(s1, items[1..], env, x);
    }
    BesideTakes(s, s1, ExecuteAll(s, items, env), x);
  }

  /********** Clipboard **********/

  lemma CopyBeside(s: State, d: nat, id: Id, op: Op, mode: Mode, token: Option<Grants.Token>, env: Env, x: Id)
    requires id != x
    ensures Beside(s, ExecuteClipboard(s, d, id, op, mode, token, env), x)
  {
    hide Respond, Begin, Beside;
    Still(s, x);
    RespondBeside(s, d, id, Denied, Silent, None, ApprovalChanged, x);
    RespondBeside(s, d, id, Failed, Silent, None, TooManyOperations, x);
    var cap := CapabilityOf(op);
    if cap.Some? {
      var s1 := Begun(s, d, cap.value, id);
      BegunBeside(s, d, cap.value, id, x);
      BeginBeside(s1, d, 1, {id}, Clipping(id, cap.value, mode, token), x);
      Beside2(s, s1, Begin(s1, d, 1, {id}, Clipping(id, cap.value, mode, token)), x);
    }
  }

  predicate Copies(op: Op) { CapabilityOf(op).Some? && IsClipboard(CapabilityOf(op).value) }

  lemma CopyTakes(s: State, d: nat, op: Op, mode: Mode, token: Option<Grants.Token>, env: Env, x: Id)
    requires Live(s, d) && Idle(s, x) && Copies(op)
    ensures Takes(s, ExecuteClipboard(s, d, x, op, mode, token, env), x)
  {
    hide Respond, Begin, Takes;
    RespondTakes(s, d, x, Denied, Silent, None, ApprovalChanged);
    RespondTakes(s, d, x, Failed, Silent, None, TooManyOperations);
    var cap := CapabilityOf(op).value;
    var s1 := Begun(s, d, cap, x);
    BegunBeside(s, d, cap, x, x);
    BeginTakes(s1, d, 1, {x}, Clipping(x, cap, mode, token), x);
    BesideTakes(s, s1, Begin(s1, d, 1, {x}, Clipping(x, cap, mode, token)), x);
  }

  lemma {:induction false} SiblingsBeside(s: State, items: seq<Queued>, token: Option<Grants.Token>, env: Env, x: Id)
    requires x !in Ids(items)
    ensures Beside(s, ExecuteSiblings(s, items, token, env), x)
    decreases |items|
  {
    hide ExecuteClipboard, Beside;
    Still(s, x);
    if items != [] {
      var s1 := ExecuteClipboard(s, items[0].doc, items[0].id, items[0].op, Saved, token, env);
      TailIds(items, x);
      CopyBeside(s, items[0].doc, items[0].id, items[0].op, Saved, token, env, x);
      SiblingsBeside(s1, items[1..], token, env, x);
      Beside2(s, s1, ExecuteSiblings(s, items, token, env), x);
    }
  }

  lemma {:induction false} SiblingsTake(s: State, items: seq<Queued>, token: Option<Grants.Token>, env: Env, x: Id)
    requires x in Ids(items) && DistinctIds(items) && Idle(s, x)
    requires forall i :: 0 <= i < |items| ==> Live(s, items[i].doc) && Copies(items[i].op)
    ensures Takes(s, ExecuteSiblings(s, items, token, env), x)
    decreases |items|
  {
    hide ExecuteClipboard, Takes;
    var d, id := items[0].doc, items[0].id;
    var s1 := ExecuteClipboard(s, d, id, items[0].op, Saved, token, env);
    TailIds(items, x);
    if id == x {
      CopyTakes(s, d, items[0].op, Saved, token, env, x);
      SiblingsBeside(s1, items[1..], token, env, x);
    } else {
      CopyBeside(s, d, id, items[0].op, Saved, token, env, x);
      SiblingsTake(s1, items[1..], token, env, x);
    }
    BesideTakes(s, s1, ExecuteSiblings(s, items, token, env), x);
  }

  // The siblings of a clipboard call leave the queue and are taken on.
  lemma SiblingsAccount(s: State, d: nat, cap: Capability, token: Option<Grants.Token>, env: Env, x: Id)
    requires Orderly(s, x) && Live(s, d) && IsClipboard(cap)
    ensures var siblings := Matching(s.queue, d, cap);
            var s' := Advance(ExecuteSiblings(s.(queue := Without(s.queue, siblings)), siblings, token, env));
            if x in Ids(siblings) then Even(s, s', x) else Beside(s, s', x)
  {
    hide Advance, ExecuteSiblings, Even, Beside, Takes, Matching, Without;
    var siblings := Matching(s.queue, d, cap);
    var s1 := s.(queue := Without(s.queue, siblings));
    var s2 := ExecuteSiblings(s1, siblings, token, env);
    MatchingDistinct(s.queue, d, cap);
    TakenHome(s, siblings);
    if x in Ids(siblings) {
      TakenIdle(s, siblings, x);
      CopiesAll(s, siblings, x);
      SiblingsTake(s1, siblings, token, env, x);
      TakesHome(s1, s2, x);
      AdvanceBeside(s2, x);
      BesideTakes(s1, s2, Advance(s2), x);
      LeavesTakes(s, s1, Advance(s2), x);
    } else {
      TakenBeside(s, siblings, x);
      SiblingsBeside(s1, siblings, token, env, x);
      BesideHome(s1, s2, x);
      AdvanceBeside(s2, x);
      Beside2(s, s1, s2, x);
      Beside2(s, s2, Advance(s2), x);
    }
  }

  lemma CopiesAll(s: State, items: seq<Queued>, x: Id)
    requires Orderly(s, x) && forall q :: q in items ==> q in s.queue && IsClipboard(q.cap)
    ensures forall i :: 0 <= i < |items| ==> Live(s, items[i].doc) && Copies(items[i].op)
  {
    forall i | 0 <= i < |items| ensures Live(s, items[i].doc) && Copies(items[i].op) {
      assert items[i] in items;
      var j :| 0 <= j < |s.queue| && s.queue[j] == items[i];
      assert Waits(s, s.queue[j], x);
    }
  }

  lemma BesideHome(s: State, s': State, x: Id)
    requires Beside(s, s', x) && Home(s)
    ensures Home(s')
  {
  }

  lemma TakesHome(s: State, s': State, x: Id)
    requires Takes(s, s', x) && Home(s)
    ensures Home(s')
  {
  }

  lemma BesideIsEven(s: State, s': State, x: Id)
    requires Beside(s, s', x)
    ensures Even(s, s', x)
  {
  }

  lemma EvenTakes(s: State, s1: State, s2: State, x: Id)
    requires Takes(s, s1, x) && Even(s1, s2, x) && Beside(s1, s2, x)
    ensures Takes(s, s2, x)
  {
  }

  // What is left to do once a clipboard call was handed over.
  function Handover(s: State, d: nat, w: Work, env: Env): State
    requires w.Clipping?
  {
    if w.mode == Always && w.token.Some? && env.stored && env.activated then
      var siblings := Matching(s.queue, d, w.cap);
      Advance(ExecuteSiblings(s.(queue := Without(s.queue, siblings)), siblings, w.token, env))
    else Advance(s)
  }

  lemma HandoverAccount(s: State, d: nat, w: Work, env: Env, x: Id)
    requires Orderly(s, x) && Live(s, d) && w.Clipping? && IsClipboard(w.cap)
    ensures Even(s, Handover(s, d, w, env), x)
    ensures x !in Ids(s.queue) ==> Beside(s, Handover(s, d, w, env), x)
  {
    hide Advance, ExecuteSiblings, Even, Beside, Matching, Without;
    AdvanceBeside(s, x);
    BesideIsEven(s, Advance(s), x);
    SiblingsAccount(s, d, w.cap, w.token, env, x);
    if x in Ids(Matching(s.queue, d, w.cap)) { AmongQueued(s, Matching(s.queue, d, w.cap), x); }
    else { AnyBesideIsEven(s, d, w, env, x); }
  }

  lemma AnyBesideIsEven(s: State, d: nat, w: Work, env: Env, x: Id)
    requires w.Clipping? && Beside(s, Handover(s, d, w, env), x)
    ensures Even(s, Handover(s, d, w, env), x)
  {
    hide Handover;
  }

  lemma AmongQueued(s: State, items: seq<Queued>, x: Id)
    requires x in Ids(items) && forall q :: q in items ==> q in s.queue
    ensures x in Ids(s.queue)
  {
    var i :| 0 <= i < |items| && items[i].id == x;
    assert items[i] in items;
    var j :| 0 <= j < |s.queue| && s.queue[j] == items[i];
  }

  lemma AnsweredOrderly(s: State, d: nat, id: Id, status: Status, reason: Reason, x: Id)
    requires Orderly(s, x) && Live(s, d)
    ensures var s1 := Answer(s, d, id, status, reason); Orderly(s1, x) && s1.queue == s.queue && Live(s1, d)
  {
    var s1 := Answer(s, d, id, status, reason);
    forall i | 0 <= i < |s1.queue| ensures Waits(s1, s1.queue[i], x) { assert Waits(s, s.queue[i], x); }
  }

  // What follows a native clipboard call answers it, and leaves every other account as it is.
  lemma OutcomeTakes(s: State, d: nat, w: Work, env: Env)
    requires w.Clipping? && IsClipboard(w.cap) && Live(s, d) && Idle(s, w.id) && Orderly(s, w.id)
    ensures Takes(s, ClipboardOutcome(s, d, w, env), w.id)
  {
    hide Answer, Handover, Takes, Beside, Orderly;
    var x := w.id;
    RespondTakes(s, d, x, Denied, Silent, None, ApprovalChanged);
    RespondTakes(s, d, x, Failed, Silent, None, NativeFailure);
    RespondTakes(s, d, x, Ok, Silent, None, NoReason);
    AnswersAre(s, d, x);
    var s1 := Answer(s, d, x, Ok, NoReason);
    OutcomeIs(s, d, w, env);
    AnsweredOrderly(s, d, x, Ok, NoReason, x);
    HandoverAccount(s1, d, w, env, x);
    BesideTakes(s, s1, Handover(s1, d, w, env), x);
  }

  lemma AnswersAre(s: State, d: nat, id: Id)
    ensures Answer(s, d, id, Denied, ApprovalChanged) == Respond(s, d, id, Denied, Silent, None, ApprovalChanged)
    ensures Answer(s, d, id, Failed, NativeFailure) == Respond(s, d, id, Failed, Silent, None, NativeFailure)
    ensures Answer(s, d, id, Ok, NoReason) == Respond(s, d, id, Ok, Silent, None, NoReason)
  {
  }

  lemma OutcomeIs(s: State, d: nat, w: Work, env: Env)
    requires w.Clipping?
    ensures ClipboardOutcome(s, d, w, env)
         == if !Allowed(s, w.cap) || !env.currentBefore then Answer(s, d, w.id, Denied, ApprovalChanged)
            else if env.failed then Answer(s, d, w.id, Failed, NativeFailure)
            else if !env.currentAfter then Answer(s, d, w.id, Denied, ApprovalChanged)
            else Handover(Answer(s, d, w.id, Ok, NoReason), d, w, env)
  {
    hide Answer, Advance, ExecuteSiblings;
  }

  lemma OutcomeEven(s: State, d: nat, w: Work, env: Env, x: Id)
    requires w.Clipping? && IsClipboard(w.cap) && Live(s, d) && w.id != x && Orderly(s, x)
    ensures Even(s, ClipboardOutcome(s, d, w, env), x)
  {
    hide Answer, Handover, Even, Beside, Orderly;
    RespondBeside(s, d, w.id, Denied, Silent, None, ApprovalChanged, x);
    RespondBeside(s, d, w.id, Failed, Silent, None, NativeFailure, x);
    RespondBeside(s, d, w.id, Ok, Silent, None, NoReason, x);
    AnswersAre(s, d, w.id);
    var s1 := Answer(s, d, w.id, Ok, NoReason);
    BesideIsEven(s, Answer(s, d, w.id, Denied, ApprovalChanged), x);
    BesideIsEven(s, Answer(s, d, w.id, Failed, NativeFailure), x);
    OutcomeIs(s, d, w, env);
    AnsweredOrderly(s, d, w.id, Ok, NoReason, x);
    HandoverAccount(s1, d, w, env, x);
    BesideEven(s, s1, Handover(s1, d, w, env), x);
  }

  /********** Work that settles **********/

  lemma CoreOrderly(s: State, x: Id)
    requires Core(s) && s.managed && s.active.Some?
    requires x in s.active.value.requests && OneShot(s.active.value.requests[x])
    ensures Orderly(s, x) && s.active.value.generation == s.generation && Live(s, s.generation)
  {
    var owners := s.inFlight + s.cancelled + s.watches.Keys + s.notices.Keys;
    forall i | 0 <= i < |s.queue| ensures Waits(s, s.queue[i], x) && s.queue[i].doc == s.active.value.generation {
      assert Known(s.active.value, s.queue[i]) && s.queue[i].id in Ids(s.queue) && s.queue[i].id !in owners;
    }
  }

  lemma HeldIsInFlight(s: State, k: nat, x: Id)
    requires Core(s) && k in s.batches && Live(s, s.batches[k].doc) && !s.batches[k].work.Elsewhere?
    requires x in WorkIds(s.batches[k].work)
    ensures x in s.inFlight && x !in Ids(s.queue)
  {
    assert Holds(s.batches, s.generation, k, x);
    assert x in s.inFlight + s.cancelled + s.watches.Keys + s.notices.Keys;
  }

  // Slots are no part of the account, nor what lands under another id.
  lemma ReleaseBeside(s: State, k: nat, id: Id, x: Id)
    requires k in s.batches
    ensures Beside(s, Release(s, k), x)
    ensures id != x ==> Beside(s, Land(Release(s, k), id), x) && Beside(s, Uncancel(Land(Release(s, k), id), id), x)
    ensures Orderly(s, x) ==> Orderly(Release(s, k), x) && Orderly(Land(Release(s, k), id), x)
  {
    if Orderly(s, x) {
      var s2 := Land(Release(s, k), id);
      forall i | 0 <= i < |s.queue| ensures Waits(Release(s, k), s.queue[i], x) && Waits(s2, s.queue[i], x) {
        assert Waits(s, s.queue[i], x);
      }
    }
  }

  // Native work that x no longer waits for has ended.
  lemma CancelledLands(s: State, k: nat, x: Id)
    requires k in s.batches && x in s.inFlight && x !in Ids(s.queue) && x in s.cancelled
    ensures Even(s, Uncancel(Land(Release(s, k), x), x), x)
  {
  }

  lemma Lands(s: State, k: nat, x: Id)
    requires k in s.batches && x in s.inFlight && x !in Ids(s.queue) && x !in s.cancelled
    ensures var s2 := Land(Release(s, k), x);
            SamePage(s, s2) && Open(s, x) && Idle(s2, x) && Told(s2.posts, x) == Told(s.posts, x)
  {
  }

  lemma LocationEven(s: State, k: nat, fix: Fix, x: Id)
    requires Core(s) && k in s.batches && s.batches[k].work.Locating?
    ensures Even(s, SettleLocation(s, k, fix), x)
  {
    hide Respond, Release, Land, Uncancel, Even, Beside, Takes, Core, Idle, Open, Orderly;
    var d, id := s.batches[k].doc, s.batches[k].work.id;
    var s2 := Land(Release(s, k), id);
    ReleaseBeside(s, k, id, x);
    BesideIsEven(s, Release(s, k), x);
    if Live(s, d) && id == x {
      HeldIsInFlight(s, k, x);
      LandedSame(s, k, x);
      if x in s.cancelled { CancelledLands(s, k, x); }
      else {
        Lands(s, k, x);
        RespondTakes(s2, d, x, Ok, Silent, None, NoReason);
        RespondTakes(s2, d, x, Failed, Silent, None, NativeFailure);
        RespondTakes(s2, d, x, Denied, Silent, None, NativeFailure);
        LeavesTakes(s, s2, SettleLocation(s, k, fix), x);
      }
    }
    if Live(s, d) && id != x {
      BesideIsEven(s, Uncancel(s2, id), x);
      RespondBeside(s2, d, id, Ok, Silent, None, NoReason, x);
      RespondBeside(s2, d, id, Failed, Silent, None, NativeFailure, x);
      RespondBeside(s2, d, id, Denied, Silent, None, NativeFailure, x);
      LandedSame(s, k, id);
      if id !in s.cancelled { BesideEven(s, s2, SettleLocation(s, k, fix), x); }
    }
  }

  lemma LandedSame(s: State, k: nat, id: Id)
    requires k in s.batches
    ensures var s2 := Land(Release(s, k), id);
            forall d :: (Live(Release(s, k), d) <==> Live(s, d)) && (Live(s2, d) <==> Live(s, d))
    ensures Land(Release(s, k), id).cancelled == s.cancelled
  {
  }

  lemma ClipboardEven(s: State, k: nat, env: Env, x: Id)
    requires Core(s) && k in s.batches && s.batches[k].work.Clipping? && IsClipboard(s.batches[k].work.cap)
    requires Orderly(s, x)
    ensures Even(s, SettleClipboard(s, k, env), x)
  {
    hide ClipboardOutcome, Release, Land, Uncancel, Even, Beside, Takes, Core, Idle, Open, Orderly;
    var d, w := s.batches[k].doc, s.batches[k].work;
    var s2 := Land(Release(s, k), w.id);
    ReleaseBeside(s, k, w.id, x);
    BesideIsEven(s, Release(s, k), x);
    LandedSame(s, k, w.id);
    if Live(s, d) && w.id == x {
      HeldIsInFlight(s, k, x);
      if x in s.cancelled { CancelledLands(s, k, x); }
      else {
        Lands(s, k, x);
        OutcomeTakes(s2, d, w, env);
        LeavesTakes(s, s2, SettleClipboard(s, k, env), x);
      }
    }
    if Live(s, d) && w.id != x {
      BesideIsEven(s, Uncancel(s2, w.id), x);
      if w.id !in s.cancelled {
        OutcomeEven(s2, d, w, env, x);
        BesideEven(s, s2, SettleClipboard(s, k, env), x);
      }
    }
  }

  /********** Asking for consent **********/

  lemma PushedTakes(s: State, q: Queued)
    requires Home(s) && Live(s, q.doc) && Idle(s, q.id)
    ensures Takes(s, s.(queue := s.queue + [q]), q.id)
  {
    assert (s.queue + [q])[|s.queue|].id == q.id;
  }

  lemma PushedBeside(s: State, q: Queued, x: Id)
    requires Home(s) && Live(s, q.doc) && q.id != x
    ensures Beside(s, s.(queue := s.queue + [q]), x)
  {
    var queue := s.queue + [q];
    if x in Ids(s.queue) {
      var i :| 0 <= i < |s.queue| && s.queue[i].id == x;
      assert queue[i].id == x;
    }
  }

  lemma AskTakes(s: State, d: nat, x: Id, op: Op, cap: Capability, env: Env)
    requires Home(s) && Live(s, d) && Idle(s, x) && CapabilityOf(op) == Some(cap) && OneShot(op)
    ensures Takes(s, RequestCapability(s, d, x, op, cap, env), x)
  {
    hide Respond, ExecuteClipboard, ExecuteGranted, Advance, Takes, Beside, Idle;
    var q := Queued(d, cap, x, op);
    var s1 := s.(queue := s.queue + [q]);
    RespondTakes(s, d, x, Denied, Silent, None, Refused);
    RespondTakes(s, d, x, Failed, Silent, None, TooManyPending);
    if IsClipboard(cap) { CopyTakes(s, d, op, Saved, env.saved, env, x); } else { GrantedTakes(s, d, op, env, x); }
    PushedTakes(s, q);
    TakesHome(s, s1, x);
    AdvanceBeside(s1, x);
    BesideTakes(s, s1, Advance(s1), x);
  }

  lemma AskBeside(s: State, d: nat, id: Id, op: Op, cap: Capability, env: Env, x: Id)
    requires Home(s) && Live(s, d) && id != x
    ensures Beside(s, RequestCapability(s, d, id, op, cap, env), x)
  {
    hide Respond, ExecuteClipboard, ExecuteGranted, Advance, Beside;
    var q := Queued(d, cap, id, op);
    var s1 := s.(queue := s.queue + [q]);
    RespondBeside(s, d, id, Denied, Silent, None, Refused, x);
    RespondBeside(s, d, id, Failed, Silent, None, TooManyPending, x);
    CopyBeside(s, d, id, op, Saved, env.saved, env, x);
    GrantedBeside(s, d, id, op, env, x);
    PushedBeside(s, q, x);
    BesideHome(s, s1, x);
    AdvanceBeside(s1, x);
    Beside2(s, s1, Advance(s1), x);
  }

  /********** Clicks **********/

  // The selected requests are refused, or go into a native prompt.
  function Opened(s: State, selected: seq<Queued>, work: Work, d: nat, env: Env): State {
    if |s.inFlight| + |selected| > MAX_IN_FLIGHT || !Reservable(s, |selected|) then
      Advance(AnswerAll(s, selected, Failed, TooManyOperations))
    else if env.promptThrows then AnswerAll(Advance(s), selected, Failed, NativeFailure)
    else Advance(Begin(s, d, |selected|, Ids(selected), work))
  }

  lemma OpenedBeside(s: State, selected: seq<Queued>, work: Work, d: nat, env: Env, x: Id)
    requires Home(s) && x !in Ids(selected)
    ensures Beside(s, Opened(s, selected, work, d, env), x)
  {
    hide AnswerAll, Begin, Advance, Beside, Ids;
    var s1, s2 := AnswerAll(s, selected, Failed, TooManyOperations), Begin(s, d, |selected|, Ids(selected), work);
    AnswerAllBeside(s, selected, Failed, TooManyOperations, x);
    BesideHome(s, s1, x);
    AdvanceBeside(s1, x);
    Beside2(s, s1, Advance(s1), x);
    AdvanceBeside(s, x);
    AnswerAllBeside(Advance(s), selected, Failed, NativeFailure, x);
    Beside2(s, Advance(s), AnswerAll(Advance(s), selected, Failed, NativeFailure), x);
    BeginBeside(s, d, |selected|, Ids(selected), work, x);
    BesideHome(s, s2, x);
    AdvanceBeside(s2, x);
    Beside2(s, s2, Advance(s2), x);
  }

  lemma OpenedTakes(s: State, selected: seq<Queued>, work: Work, d: nat, env: Env, x: Id)
    requires Home(s) && x in Ids(selected) && DistinctIds(selected) && Idle(s, x)
    requires forall i :: 0 <= i < |selected| ==> Live(s, selected[i].doc)
    ensures Takes(s, Opened(s, selected, work, d, env), x)
  {
    hide AnswerAll, Begin, Advance, Beside, Takes, Ids;
    var s1, s2 := AnswerAll(s, selected, Failed, TooManyOperations), Begin(s, d, |selected|, Ids(selected), work);
    AnswerAllTakes(s, selected, Failed, TooManyOperations, x);
    TakesHome(s, s1, x);
    AdvanceBeside(s1, x);
    BesideTakes(s, s1, Advance(s1), x);
    AdvanceBeside(s, x);
    AdvancedSame(s, x);
    AnswerAllTakes(Advance(s), selected, Failed, NativeFailure, x);
    BesideTakes(s, Advance(s), AnswerAll(Advance(s), selected, Failed, NativeFailure), x);
    BeginTakes(s, d, |selected|, Ids(selected), work, x);
    TakesHome(s, s2, x);
    AdvanceBeside(s2, x);
    BesideTakes(s, s2, Advance(s2), x);
  }

  lemma AdvancedSame(s: State, x: Id)
    requires Home(s) && Idle(s, x)
    ensures Home(Advance(s)) && Idle(Advance(s), x) && forall d :: Live(Advance(s), d) <==> Live(s, d)
  {
    DropDeadNothing(s, s.queue);
  }

  // What is taken off the queue is live, and of a kind that is told once if it is x.
  lemma TakenLive(s: State, items: seq<Queued>, x: Id)
    requires Orderly(s, x) && forall q :: q in items ==> q in s.queue
    ensures forall i :: 0 <= i < |items| ==> Live(s.(queue := Without(s.queue, items)), items[i].doc)
    ensures forall i :: 0 <= i < |items| ==> CapabilityOf(items[i].op) == Some(items[i].cap)
    ensures forall i :: 0 <= i < |items| && items[i].id == x ==> OneShot(items[i].op)
  {
    forall i | 0 <= i < |items|
      ensures Live(s, items[i].doc) && CapabilityOf(items[i].op) == Some(items[i].cap)
      ensures items[i].id == x ==> OneShot(items[i].op)
    {
      assert items[i] in items;
      var j :| 0 <= j < |s.queue| && s.queue[j] == items[i];
      assert Waits(s, s.queue[j], x);
    }
  }

  lemma ResolveEven(s: State, mode: Mode, current: Queued, revision: nat, token: Option<Grants.Token>, env: Env, x: Id)
    requires Orderly(s, x) && current in s.queue
    ensures Even(s, ResolveNotificationConsent(s, mode, current, revision, token, env), x)
  {
    hide Opened, Advance, Even, Beside, Takes, Orderly, Matching, Without;
    var d := current.doc;
    var selected := if mode == Always && token.Some? then Matching(s.queue, d, current.cap) else [current];
    var s1, work := s.(queue := Without(s.queue, selected)), Consenting(mode, current, selected, revision, token);
    var s' := Opened(s1, selected, work, d, env);
    ResolveIs(s, mode, current, revision, token, env);
    OrderlyHome(s, x);
    AdvanceBeside(s, x);
    BesideIsEven(s, Advance(s), x);
    MatchingDistinct(s.queue, d, current.cap);
    TakenHome(s, selected);
    if x in Ids(selected) {
      TakenIdle(s, selected, x);
      TakenLive(s, selected, x);
      OpenedTakes(s1, selected, work, d, env, x);
      LeavesTakes(s, s1, s', x);
    } else {
      TakenBeside(s, selected, x);
      OpenedBeside(s1, selected, work, d, env, x);
      Beside2(s, s1, s', x);
      BesideIsEven(s, s', x);
    }
  }

  lemma OrderlyHome(s: State, x: Id)
    requires Orderly(s, x)
    ensures Home(s) && DistinctIds(s.queue)
  {
  }

  lemma ResolveIs(s: State, mode: Mode, current: Queued, revision: nat, token: Option<Grants.Token>, env: Env)
    ensures var d := current.doc;
            var selected := if mode == Always && token.Some? then Matching(s.queue, d, current.cap) else [current];
            ResolveNotificationConsent(s, mode, current, revision, token, env)
            == if !Live(s, d) || current.cap != Notifications then Advance(s)
               else Opened(s.(queue := Without(s.queue, selected)), selected,
                           Consenting(mode, current, selected, revision, token), d, env)
  {
    hide Advance, AnswerAll, Begin, Matching, Without, Ids;
  }

  lemma DocBeside(s: State, doc: Doc, x: Id)
    requires s.active.Some? && doc.generation == s.active.value.generation
    ensures Beside(s, WithDoc(s, doc), x) && (Orderly(s, x) ==> Orderly(WithDoc(s, doc), x))
  {
    if Orderly(s, x) {
      forall i | 0 <= i < |s.queue| ensures Waits(WithDoc(s, doc), s.queue[i], x) { assert Waits(s, s.queue[i], x); }
    }
  }

  lemma LocationsEven(s: State, selected: seq<Queued>, env: Env, x: Id)
    requires Orderly(s, x) && DistinctIds(selected)
    requires forall q :: q in selected ==> q in s.queue && !IsClipboard(q.cap)
    ensures Even(s, Advance(ExecuteAll(s.(queue := Without(s.queue, selected)), selected, env)), x)
  {
    hide ExecuteAll, Advance, Even, Beside, Takes, Orderly, Without;
    var s1 := s.(queue := Without(s.queue, selected));
    var s2 := ExecuteAll(s1, selected, env);
    OrderlyHome(s, x);
    TakenHome(s, selected);
    if x in Ids(selected) {
      TakenIdle(s, selected, x);
      TakenLive(s, selected, x);
      forall i | 0 <= i < |selected| ensures !IsClipboard(selected[i].cap) { assert selected[i] in selected; }
      assert PlainFor(selected, x);
      AllTakes(s1, selected, env, x);
      TakesHome(s1, s2, x);
      AdvanceBeside(s2, x);
      BesideTakes(s1, s2, Advance(s2), x);
      LeavesTakes(s, s1, Advance(s2), x);
    } else {
      TakenBeside(s, selected, x);
      AllBeside(s1, selected, env, x);
      BesideHome(s1, s2, x);
      AdvanceBeside(s2, x);
      Beside2(s, s1, s2, x);
      Beside2(s, s2, Advance(s2), x);
      BesideIsEven(s, Advance(s2), x);
    }
  }

  lemma CopyEven(s: State, current: Queued, mode: Mode, token: Option<Grants.Token>, env: Env, x: Id)
    requires Orderly(s, x) && current in s.queue && IsClipboard(current.cap)
    ensures var s1 := s.(queue := Without(s.queue, [current]));
            Even(s, Advance(ExecuteClipboard(s1, current.doc, current.id, current.op, mode, token, env)), x)
  {
    hide ExecuteClipboard, Advance, Even, Beside, Takes, Orderly, Without;
    var s1 := s.(queue := Without(s.queue, [current]));
    var s2 := ExecuteClipboard(s1, current.doc, current.id, current.op, mode, token, env);
    OrderlyHome(s, x);
    TakenHome(s, [current]);
    assert [current][0].id == current.id;
    if x == current.id {
      TakenIdle(s, [current], x);
      TakenLive(s, [current], x);
      assert Live(s1, [current][0].doc);
      CopyTakes(s1, current.doc, current.op, mode, token, env, x);
      TakesHome(s1, s2, x);
      AdvanceBeside(s2, x);
      BesideTakes(s1, s2, Advance(s2), x);
      LeavesTakes(s, s1, Advance(s2), x);
    } else {
      TakenBeside(s, [current], x);
      CopyBeside(s1, current.doc, current.id, current.op, mode, token, env, x);
      BesideHome(s1, s2, x);
      AdvanceBeside(s2, x);
      Beside2(s, s1, s2, x);
      Beside2(s, s2, Advance(s2), x);
      BesideIsEven(s, Advance(s2), x);
    }
  }

  lemma DenyEven(s: State, x: Id)
    requires Orderly(s, x)
    ensures Even(s, Deny(s), x)
  {
    hide AnswerAll, Advance, Even, Beside, Takes, Orderly, Without, Matching;
    OrderlyHome(s, x);
    AdvanceBeside(s, x);
    BesideIsEven(s, Advance(s), x);
    if s.queue != [] && Live(s, s.queue[0].doc) {
      var current, doc := s.queue[0], s.active.value;
      var revised := doc.(denied := doc.denied + {current.cap},
                          revision := if current.cap == Notifications then doc.revision + 1 else doc.revision);
      DocBeside(s, revised, x);
      BesideIsEven(s, WithDoc(s, revised), x);
      DeniedEven(WithDoc(s, revised), current.doc, current.cap, x);
      BesideEven(s, WithDoc(s, revised), Deny(s), x);
    }
  }

  lemma DeniedEven(s: State, d: nat, cap: Capability, x: Id)
    requires Orderly(s, x)
    ensures var denied := Matching(s.queue, d, cap);
            Even(s, Advance(AnswerAll(s.(queue := Without(s.queue, denied)), denied, Denied, Refused)), x)
  {
    hide AnswerAll, Advance, Even, Beside, Takes, Orderly, Without, Matching;
    var denied := Matching(s.queue, d, cap);
    var s1 := s.(queue := Without(s.queue, denied));
    var s2 := AnswerAll(s1, denied, Denied, Refused);
    OrderlyHome(s, x);
    MatchingDistinct(s.queue, d, cap);
    TakenHome(s, denied);
    if x in Ids(denied) {
      TakenIdle(s, denied, x);
      TakenLive(s, denied, x);
      AnswerAllTakes(s1, denied, Denied, Refused, x);
      TakesHome(s1, s2, x);
      AdvanceBeside(s2, x);
      BesideTakes(s1, s2, Advance(s2), x);
      LeavesTakes(s, s1, Advance(s2), x);
    } else {
      TakenBeside(s, denied, x);
      AnswerAllBeside(s1, denied, Denied, Refused, x);
      BesideHome(s1, s2, x);
      AdvanceBeside(s2, x);
      Beside2(s, s1, s2, x);
      Beside2(s, s2, Advance(s2), x);
      BesideIsEven(s, Advance(s2), x);
    }
  }

  lemma AllowEven(s: State, mode: Mode, env: Env, x: Id)
    requires Orderly(s, x)
    ensures Even(s, Allow(s, mode, env), x)
  {
    hide ExecuteClipboard, ExecuteAll, ResolveNotificationConsent, Advance, Even, Beside, Orderly, Without, Matching;
    OrderlyHome(s, x);
    AdvanceBeside(s, x);
    BesideIsEven(s, Advance(s), x);
    if s.queue != [] && Live(s, s.queue[0].doc) {
      var current, doc := s.queue[0], s.active.value;
      var revised := doc.(revision := doc.revision + 1);
      var s1 := if current.cap == Notifications then WithDoc(s, revised) else s;
      var token := if env.choice.Ready? then Some(env.choice.token) else None;
      DocBeside(s, revised, x);
      Still(s, x);
      BesideIsEven(s, s1, x);
      if IsClipboard(current.cap) { CopyEven(s1, current, mode, token, env, x); }
      else if current.cap == Notifications {
        ResolveEven(s1, mode, current, doc.revision + 1, token, env, x);
      } else {
        var selected := if mode == Always && token.Some? && env.stored
          then Matching(s1.queue, current.doc, current.cap) else [current];
        MatchingDistinct(s1.queue, current.doc, current.cap);
        LocationsEven(s1, selected, env, x);
      }
      if Even(s1, Allow(s, mode, env), x) { BesideEven(s, s1, Allow(s, mode, env), x); }
    }
  }

  /********** A native prompt that settles **********/

  // x waits in the prompt that settles, or is no part of it.
  predicate Asked(s: State, items: seq<Queued>, x: Id) {
    x in Ids(items) ==>
      x in s.inFlight && x !in Ids(s.queue)
      && forall i :: 0 <= i < |items| && items[i].id == x ==> items[i].op == NotificationPermission
  }

  lemma ItemBeside(s: State, mode: Mode, current: Queued, item: Queued, v: Verdict, env: Env, x: Id)
    requires Home(s) && Live(s, item.doc) && item.id != x
    ensures Beside(s, SettleItem(s, mode, current, item, v, env), x)
  {
    hide Respond, ExecuteGranted, Beside;
    var d, id, op, s1 := item.doc, item.id, item.op, Land(s, item.id);
    LandBeside(s, id, x);
    NoticesBeside(s1, s1.notices, id, x);
    Beside2(s, s1, Uncancel(s1, id), x);
    RespondBeside(s1, d, id, Denied, Silent, None, Refused, x);
    RespondBeside(s1, d, id, Ok, Silent, None, NoReason, x);
    RespondBeside(s1, d, id, Denied, Silent, Some(id), ApprovalChanged, x);
    RespondBeside(s1, d, id, Failed, Silent, None, NativeFailure, x);
    PushedBeside(s1, item, x);
    GrantedBeside(s1, d, id, op, env, x);
    if id !in s.cancelled { Beside2(s, s1, SettleItem(s, mode, current, item, v, env), x); }
  }

  lemma LandBeside(s: State, id: Id, x: Id)
    requires id != x
    ensures Beside(s, Land(s, id), x) && (Home(s) ==> Home(Land(s, id)))
    ensures forall d :: Live(Land(s, id), d) <==> Live(s, d)
  {
  }

  lemma ItemEven(s: State, mode: Mode, current: Queued, item: Queued, v: Verdict, env: Env, x: Id)
    requires Home(s) && Live(s, item.doc) && item.id == x && item.op == NotificationPermission
    requires x in s.inFlight && x !in Ids(s.queue)
    ensures Even(s, SettleItem(s, mode, current, item, v, env), x)
  {
    hide Respond, ExecuteGranted, Even, Takes;
    var d, op, s1 := item.doc, item.op, Land(s, x);
    var s' := SettleItem(s, mode, current, item, v, env);
    if x in s.cancelled { ItemConsumed(s, x); }
    else {
      ItemIdle(s, x);
      RespondTakes(s1, d, x, Denied, Silent, None, Refused);
      RespondTakes(s1, d, x, Ok, Silent, None, NoReason);
      RespondTakes(s1, d, x, Failed, Silent, None, NativeFailure);
      PushedTakes(s1, item);
      LeavesTakes(s, s1, s', x);
    }
  }

  lemma ItemConsumed(s: State, x: Id)
    requires x in s.inFlight && x !in Ids(s.queue) && x in s.cancelled
    ensures Even(s, Uncancel(Land(s, x), x), x)
  {
  }

  lemma ItemIdle(s: State, x: Id)
    requires x in s.inFlight && x !in Ids(s.queue) && x !in s.cancelled
    ensures var s1 := Land(s, x); SamePage(s, s1) && Open(s, x) && Idle(s1, x) && Told(s1.posts, x) == Told(s.posts, x)
  {
  }

  lemma {:induction false} ItemsBeside(s: State, mode: Mode, current: Queued, items: seq<Queued>, v: Verdict, env: Env,
                                       x: Id)
    requires Home(s) && x !in Ids(items) && forall i :: 0 <= i < |items| ==> Live(s, items[i].doc)
    ensures Beside(s, SettleItems(s, mode, current, items, v, env), x)
    decreases |items|
  {
    hide SettleItem, Beside;
    Still(s, x);
    if items != [] {
      var s1 := SettleItem(s, mode, current, items[0], v, env);
      TailIds(items, x);
      ItemBeside(s, mode, current, items[0], v, env, x);
      BesideHome(s, s1, x);
      BesideLive(s, s1, x);
      ItemsBeside(s1, mode, current, items[1..], v, env, x);
      Beside2(s, s1, SettleItems(s, mode, current, items, v, env), x);
    }
  }

  lemma BesideLive(s: State, s': State, x: Id)
    requires Home(s) && (Beside(s, s', x) || Even(s, s', x))
    ensures Home(s') && forall d :: Live(s', d) <==> Live(s, d)
  {
  }

  lemma {:induction false} ItemsEven(s: State, mode: Mode, current: Queued, items: seq<Queued>, v: Verdict, env: Env,
                                     x: Id)
    requires Home(s) && DistinctIds(items) && Asked(s, items, x)
    requires forall i :: 0 <= i < |items| ==> Live(s, items[i].doc)
    ensures Even(s, SettleItems(s, mode, current, items, v, env), x)
    decreases |items|
  {
    hide SettleItem, Beside, Even;
    var s' := SettleItems(s, mode, current, items, v, env);
    if x !in Ids(items) {
      ItemsBeside(s, mode, current, items, v, env, x);
      BesideIsEven(s, s', x);
    } else {
      var s1 := SettleItem(s, mode, current, items[0], v, env);
      TailIds(items, x);
      if items[0].id == x {
        ItemEven(s, mode, current, items[0], v, env, x);
        BesideLive(s, s1, x);
        ItemsBeside(s1, mode, current, items[1..], v, env, x);
      } else {
        ItemBeside(s, mode, current, items[0], v, env, x);
        BesideLive(s, s1, x);
        BesideAsked(s, s1, items, x);
        ItemsEven(s1, mode, current, items[1..], v, env, x);
      }
      BesideEven(s, s1, s', x);
    }
  }

  lemma BesideAsked(s: State, s1: State, items: seq<Queued>, x: Id)
    requires Beside(s, s1, x) && Asked(s, items, x) && items != [] && x in Ids(items)
    ensures Asked(s1, items[1..], x)
  {
    forall i | 0 <= i < |items[1..]| && items[1..][i].id == x ensures items[1..][i].op == NotificationPermission {
      assert items[1..][i] == items[i + 1];
    }
  }

  lemma ConsentEven(s: State, k: nat, status: Status, dismissed: bool, env: Env, x: Id)
    requires Core(s) && Orderly(s, x) && k in s.batches && s.batches[k].work.Consenting?
    requires x in s.active.value.requests && OneShot(s.active.value.requests[x])
    ensures Even(s, SettleConsent(s, k, status, dismissed, env), x)
  {
    hide SettleItems, SettleConsent, Release, Advance, Even, Beside, Core, Orderly, Asked, Home, DistinctIds,
         P.NativelyDenied, P.ConsentVerdict, P.DenyNatively;
    var d, w, s1 := s.batches[k].doc, s.batches[k].work, Release(s, k);
    ReleaseBeside(s, k, x, x);
    BesideIsEven(s, s1, x);
    OrderlyHome(s, x);
    BesideLive(s, s1, x);
    if !Live(s, d) { StaleConsent(s, k, status, dismissed, env); }
    else {
      PromptAsks(s, k, x);
      P.SettleConsentEquation(s, k, status, dismissed, env);
      var s2 := if P.NativelyDenied(s, w, status, dismissed, env) then P.DenyNatively(s1) else s1;
      DenyBeside(s1, x);
      Still(s1, x);
      BesideLive(s1, s2, x);
      SameAsked(s, s1, s2, w.items, x);
      PromptEven(s2, w, P.ConsentVerdict(s, w, status, env), env, x);
      BesideEven(s, s1, s2, x);
      BesideEven(s, s2, SettleConsent(s, k, status, dismissed, env), x);
    }
  }

  lemma StaleConsent(s: State, k: nat, status: Status, dismissed: bool, env: Env)
    requires k in s.batches && s.batches[k].work.Consenting? && !Live(s, s.batches[k].doc)
    ensures SettleConsent(s, k, status, dismissed, env) == Release(s, k)
  {
  }

  lemma DenyBeside(s: State, x: Id)
    requires Home(s)
    ensures Beside(s, P.DenyNatively(s), x)
  {
    DocBeside(s, s.active.value.(denied := s.active.value.denied + {Notifications}), x);
  }

  lemma SameAsked(s: State, s1: State, s2: State, items: seq<Queued>, x: Id)
    requires Beside(s, s1, x) && Beside(s1, s2, x) && Asked(s, items, x)
    ensures Asked(s2, items, x)
  {
  }

  lemma PromptEven(s: State, w: Work, v: Verdict, env: Env, x: Id)
    requires w.Consenting? && Home(s) && DistinctIds(w.items) && Asked(s, w.items, x)
    requires forall i :: 0 <= i < |w.items| ==> Live(s, w.items[i].doc)
    ensures Even(s, Advance(SettleItems(s, w.mode, w.current, w.items, v, env)), x)
  {
    hide SettleItems, Advance, Even, Beside, Asked, Home;
    var s1 := SettleItems(s, w.mode, w.current, w.items, v, env);
    ItemsEven(s, w.mode, w.current, w.items, v, env, x);
    BesideLive(s, s1, x);
    AdvanceBeside(s1, x);
    BesideEven(s, s1, Advance(s1), x);
  }

  lemma PromptAsks(s: State, k: nat, x: Id)
    requires Core(s) && k in s.batches && s.batches[k].work.Consenting? && Live(s, s.batches[k].doc)
    requires x in s.active.value.requests && OneShot(s.active.value.requests[x])
    ensures var items := s.batches[k].work.items;
            DistinctIds(items) && Asked(s, items, x) && forall i :: 0 <= i < |items| ==> Live(s, items[i].doc)
  {
    var items := s.batches[k].work.items;
    assert Current(s.batches, s.generation, k) && WorkOk(s.active, s.batches[k].work);
    assert forall i :: 0 <= i < |items| ==> Known(s.active.value, items[i]);
    if x in Ids(items) { HeldIsInFlight(s, k, x); }
  }

  /********** Notifications that go on **********/

  lemma {:induction false} ReconcileBeside(s: State, d: nat, vanished: seq<Id>, x: Id)
    requires x !in s.notices
    ensures Beside(s, Reconcile(s, d, vanished), x)
    decreases |vanished|
  {
    hide Respond, Beside;
    Still(s, x);
    if vanished != [] && Live(s, d) {
      var id := vanished[0];
      if Reconcilable(s, d, id) {
        var freed := s.(notices := s.notices - {id});
        var s1 := Respond(freed, d, id, Ok, Closed, Some(id), NoReason);
        NoticesBeside(s, freed.notices, id, x);
        RespondBeside(freed, d, id, Ok, Closed, Some(id), NoReason, x);
        Beside2(s, freed, s1, x);
        RespondNotices(freed, d, id, Ok, Closed, Some(id), NoReason);
        ReconcileBeside(s1, d, vanished[1..], x);
        Beside2(s, s1, Reconcile(s1, d, vanished[1..]), x);
      } else { ReconcileBeside(s, d, vanished[1..], x); }
    }
  }

  lemma RespondNotices(s: State, d: nat, id: Id, status: Status, event: Event, about: Option<Id>, reason: Reason)
    ensures var s' := Respond(s, d, id, status, event, about, reason);
            s'.notices == s.notices && s'.batches == s.batches && (forall d :: Live(s', d) <==> Live(s, d))
            && s'.cancelled == s.cancelled
  {
  }

  // The reservation goes, and with it the show.
  lemma DeleteFinishBeside(s: State, s1: State, k: nat, x: Id)
    requires k in s.batches && s.batches[k].work.Showing? && s.batches[k].work.id != x
    requires Beside(s, s1, x) && s1.batches == s.batches
    ensures var id := s.batches[k].work.id;
            && Beside(s, FinishShow(DeleteReservation(s1, id, k), k), x)
            && Beside(s, FinishShow(s1, k), x)
  {
    hide FinishShow, Beside;
    var id := s.batches[k].work.id;
    var s2 := DeleteReservation(s1, id, k);
    Still(s1, x);
    NoticesBeside(s1, s1.notices - {id}, id, x);
    FinishBeside(s2, k, x);
    FinishBeside(s1, k, x);
    Beside2(s, s1, s2, x);
    Beside2(s, s2, FinishShow(s2, k), x);
    Beside2(s, s1, FinishShow(s1, k), x);
  }

  lemma DeleteReplyBeside(s: State, k: nat, status: Status, event: Event, reason: Reason, x: Id)
    requires k in s.batches && s.batches[k].work.Showing? && s.batches[k].work.id != x
    ensures var d, id := s.batches[k].doc, s.batches[k].work.id;
            Beside(s, FinishShow(Respond(DeleteReservation(s, id, k), d, id, status, event, Some(id), reason), k), x)
  {
    hide FinishShow, Respond, Beside;
    var id := s.batches[k].work.id;
    var s1 := DeleteReservation(s, id, k);
    Still(s, x);
    NoticesBeside(s, s.notices - {id}, id, x);
    ReplyFinishBeside(s, s1, k, s.batches[k].doc, status, event, reason, x);
  }

  lemma CatchBeside(s: State, k: nat, x: Id)
    requires k in s.batches && s.batches[k].work.Showing? && s.batches[k].work.id != x
    ensures Beside(s, CatchShow(s, k), x)
  {
    hide FinishShow, Respond, Beside, DeleteReservation;
    var id := s.batches[k].work.id;
    Still(s, x);
    NoticesBeside(s, s.notices, id, x);
    DeleteFinishBeside(s, s, k, x);
    DeleteFinishBeside(s, Uncancel(s, id), k, x);
    DeleteReplyBeside(s, k, Failed, Errored, NativeFailure, x);
  }

  lemma SuspendedBeside(s: State, k: nat, phase: Phase, registered: bool, x: Id)
    requires k in s.batches && s.batches[k].work.Showing? && s.batches[k].work.id != x
    ensures Beside(s, Suspend(s, k, phase, registered), x)
    ensures Beside(s, Suspend(Uncancel(s, s.batches[k].work.id), k, phase, registered), x)
  {
    hide Suspend, Beside;
    var s1 := Uncancel(s, s.batches[k].work.id);
    SuspendBeside(s, k, phase, registered, x);
    NoticesBeside(s, s.notices, s.batches[k].work.id, x);
    SuspendBeside(s1, k, phase, registered, x);
    Beside2(s, s1, Suspend(s1, k, phase, registered), x);
  }

  lemma LastBeside(s: State, k: nat, env: Env, x: Id)
    requires k in s.batches && s.batches[k].work.Showing? && s.batches[k].work.id != x && x !in s.notices
    ensures Beside(s, ResumeLastReconcile(s, k, env), x)
  {
    hide FinishShow, Respond, Beside, DeleteReservation, Reconcile;
    var d, id := s.batches[k].doc, s.batches[k].work.id;
    var s1 := if env.failed then s else Reconcile(s, d, env.vanished);
    Still(s, x);
    ReconcileBeside(s, d, env.vanished, x);
    DeleteFinishBeside(s, s1, k, x);
    NoticesBeside(s1, s1.notices, id, x);
    Beside2(s, s1, Uncancel(s1, id), x);
    DeleteFinishBeside(s, Uncancel(s1, id), k, x);
    var shown := s1.(notices := s1.notices[id := Worker(k, d, false)]);
    NoticesBeside(s1, shown.notices, id, x);
    Beside2(s, s1, shown, x);
    ReplyFinishBeside(s, shown, k, d, Ok, Shown, NoReason, x);
  }

  lemma ResumeBeside(s: State, k: nat, env: Env, x: Id)
    requires k in s.batches && s.batches[k].work.Showing? && s.batches[k].work.id != x && x !in s.notices
    ensures Beside(s, ResumeShow(s, k, env), x)
  {
    hide FinishShow, Respond, Beside, DeleteReservation, Reconcile, Display, CatchShow, Suspend, ResumeLastReconcile;
    var d, id, registered := s.batches[k].doc, s.batches[k].work.id, s.batches[k].work.registered;
    Still(s, x);
    CatchBeside(s, k, x);
    FinishBeside(s, k, x);
    ConsumeFinishBeside(s, k, x);
    NoticesBeside(s, s.notices, id, x);
    DeleteFinishBeside(s, s, k, x);
    DeleteFinishBeside(s, Uncancel(s, id), k, x);
    match s.batches[k].work.phase
    case FindWorker =>
      DisplayBeside(s, k, false, env, x);
      SuspendedBeside(s, k, FirstReconcile, true, x);
    case FirstReconcile =>
      var s1 := if env.failed then s else Reconcile(s, d, env.vanished);
      ReconcileBeside(s, d, env.vanished, x);
      DisplayBeside(s1, k, true, env, x);
      Beside2(s, s1, Display(s1, k, true, env), x);
    case FindFallback =>
      DeleteReplyBeside(s, k, Failed, Silent, Protocol.Unavailable, x);
      SuspendedBeside(s, k, Displaying, registered, x);
    case Displaying =>
      SuspendedBeside(s, k, Withdrawing, registered, x);
      SuspendedBeside(s, k, LastReconcile, registered, x);
    case Withdrawing =>
    case LastReconcile => LastBeside(s, k, env, x);
  }

  lemma WatchBeside(s: State, id: Id, d: nat, fix: Fix, x: Id)
    requires x !in s.watches
    ensures Beside(s, WatchEvent(s, id, d, fix), x)
  {
    hide Respond;
    if id != x {
      var s1 := s.(watches := s.watches - {id});
      RespondBeside(s, d, id, Ok, Silent, Some(id), NoReason, x);
      RespondBeside(s, d, id, Failed, Silent, Some(id), NativeFailure, x);
      RespondBeside(s1, d, id, Denied, Silent, Some(id), NativeFailure, x);
    }
  }

  lemma NoticeBeside(s: State, id: Id, handle: nat, event: Event, x: Id)
    requires x !in s.notices
    ensures Beside(s, NoticeEvent(s, id, handle, event), x)
  {
    hide Respond;
    if id != x && id in s.notices {
      var d, s1 := s.notices[id].doc, s.(notices := s.notices - {id});
      RespondBeside(s, d, id, Ok, Shown, Some(id), NoReason, x);
      RespondBeside(s, d, id, Ok, Clicked, Some(id), NoReason, x);
      RespondBeside(s1, d, id, Ok, Closed, Some(id), NoReason, x);
      RespondBeside(s1, d, id, Failed, Errored, Some(id), NativeFailure, x);
    }
  }

  /********** Cancelling **********/

  lemma DiscardBeside(queue: seq<Queued>, d: nat, target: Id, x: Id)
    requires target != x
    ensures x in Ids(Discard(queue, d, target)) <==> x in Ids(queue)
  {
    var rest := Discard(queue, d, target);
    if x in Ids(queue) {
      var i :| 0 <= i < |queue| && queue[i].id == x;
      assert queue[i] in queue && queue[i] in rest;
    }
    if x in Ids(rest) {
      var i :| 0 <= i < |rest| && rest[i].id == x;
      assert rest[i] in rest && rest[i] in queue;
    }
  }

  // A request is dropped: from the queue, and marked if it runs.
  function Cut(s: State, d: nat, target: Id, marks: bool, watches: map<Id, Watch>, notices: map<Id, Notice>): State {
    s.(queue := Discard(s.queue, d, target), cancelled := if marks then s.cancelled + {target} else s.cancelled,
       watches := watches, notices := notices)
  }

  lemma CutHome(s: State, d: nat, target: Id, marks: bool, watches: map<Id, Watch>, notices: map<Id, Notice>)
    requires Home(s)
    ensures Home(Cut(s, d, target, marks, watches, notices))
  {
    var rest := Discard(s.queue, d, target);
    forall i | 0 <= i < |rest| ensures rest[i].doc == s.active.value.generation { assert rest[i] in rest; }
  }

  lemma CutBeside(s: State, d: nat, target: Id, marks: bool, watches: map<Id, Watch>, notices: map<Id, Notice>, id: Id,
                  about: Option<Id>, x: Id)
    requires Home(s) && target != x && id != x
    ensures var s1 := Cut(s, d, target, marks, watches, notices);
            Beside(s, Respond(Advance(s1), d, id, Ok, Silent, about, NoReason), x)
  {
    hide Respond, Advance;
    var s1 := Cut(s, d, target, marks, watches, notices);
    DiscardBeside(s.queue, d, target, x);
    CutHome(s, d, target, marks, watches, notices);
    AdvanceBeside(s1, x);
    RespondBeside(Advance(s1), d, id, Ok, Silent, about, NoReason, x);
  }

  // After that, nothing of the request is open, and it was not answered.
  predicate Gone(s: State, s': State, x: Id) {
    SamePage(s, s') && !Open(s', x) && Told(s'.posts, x) == Told(s.posts, x)
  }

  lemma CutGone(s: State, d: nat, marks: bool, watches: map<Id, Watch>, notices: map<Id, Notice>, id: Id,
                about: Option<Id>, x: Id)
    requires Home(s) && Live(s, d) && id != x && (x in s.inFlight && x !in s.cancelled ==> marks)
    ensures var s1 := Cut(s, d, x, marks, watches, notices);
            Gone(s, Respond(Advance(s1), d, id, Ok, Silent, about, NoReason), x)
  {
    hide Respond, Advance;
    var s1 := Cut(s, d, x, marks, watches, notices);
    assert forall q :: q in s.queue ==> q.doc == d;
    O.DiscardIds(s.queue, d, x);
    CutHome(s, d, x, marks, watches, notices);
    AdvanceBeside(s1, x);
    RespondBeside(Advance(s1), d, id, Ok, Silent, about, NoReason, x);
  }

  lemma CoreHome(s: State)
    requires Core(s) && s.managed && s.active.Some?
    ensures Home(s) && s.active.value.generation == s.generation
  {
    assert forall i :: 0 <= i < |s.queue| ==> Known(s.active.value, s.queue[i]);
  }

  predicate Knows(s: State, x: Id) { s.active.Some? && x in s.active.value.requests }

  predicate KnownOnce(s: State, x: Id) { Knows(s, x) ==> OneShot(s.active.value.requests[x]) }

  // What a cancelling message does about x.
  predicate CancelAccount(s: State, s': State, op: Op, target: Id, x: Id) {
    if target == x && Knows(s, x) && Cancels(op, s.active.value.requests[x]) then Gone(s, s', x) else Beside(s, s', x)
  }

  lemma NotBusyGone(s: State, s': State, x: Id)
    requires Beside(s, s', x) && x !in Ids(s.queue) && x !in s.inFlight
    ensures Gone(s, s', x)
  {
  }

  lemma ClearAccounts(s: State, id: Id, target: Id, x: Id)
    requires Core(s) && Home(s) && KnownOnce(s, x) && id != x
    ensures CancelAccount(s, ClearLocation(s, s.active.value, id, target), LocationClear, target, x)
  {
    hide Core, Advance, Respond, Discard, Ids, Home, Beside, Gone;
    HomeLive(s);
    CoreCurrent(s);
    var doc := s.active.value;
    var d, s' := doc.generation, ClearLocation(s, doc, id, target);
    var known := Knows(s, target) && Cancels(LocationClear, doc.requests[target]);
    RespondBeside(s, d, id, Failed, Silent, Some(target), UnknownTarget, x);
    if known && target == x { O.KindsOfWork(s, x); }
    if known && (Waiting(s, d, target, Geolocation) || target in s.inFlight || target in s.watches) {
      var marks := target in s.inFlight && doc.requests[target] == LocationGet;
      assert s' == Respond(Advance(Cut(s, d, target, marks, s.watches - {target}, s.notices)), d, id, Ok, Silent,
                           Some(target), NoReason);
      if target == x { CutGone(s, d, marks, s.watches - {target}, s.notices, id, Some(target), x); }
      else { CutBeside(s, d, target, marks, s.watches - {target}, s.notices, id, Some(target), x); }
    } else if known && target == x { NotBusyGone(s, s', x); }
  }

  lemma HomeLive(s: State)
    requires Home(s)
    ensures s.active.Some? && Live(s, s.active.value.generation)
  {
  }

  lemma CopyCancelAccounts(s: State, id: Id, target: Id, x: Id)
    requires Core(s) && Home(s) && KnownOnce(s, x) && id != x
    ensures CancelAccount(s, CancelClipboard(s, s.active.value, id, target), ClipboardCancel, target, x)
  {
    hide Core, Advance, Respond, Discard, Ids, Home, Beside, Gone;
    HomeLive(s);
    CoreCurrent(s);
    var doc := s.active.value;
    var d, s' := doc.generation, CancelClipboard(s, doc, id, target);
    var known := Knows(s, target) && Cancels(ClipboardCancel, doc.requests[target]);
    var queued := exists i :: 0 <= i < |s.queue| && s.queue[i].doc == d && s.queue[i].id == target;
    RespondBeside(s, d, id, Failed, Silent, None, UnknownTarget, x);
    if known && target == x { O.KindsOfWork(s, x); }
    if known && (queued || target in s.inFlight) {
      var marks := target in s.inFlight;
      assert s' == Respond(Advance(Cut(s, d, target, marks, s.watches, s.notices)), d, id, Ok, Silent, None, NoReason);
      if target == x { CutGone(s, d, marks, s.watches, s.notices, id, None, x); }
      else { CutBeside(s, d, target, marks, s.watches, s.notices, id, None, x); }
    } else if known && target == x { NotBusyGone(s, s', x); }
  }

  lemma CoreCurrent(s: State)
    requires Core(s) && s.active.Some?
    ensures s.active.value.generation == s.generation
  {
  }

  lemma CloseAccounts(s: State, id: Id, target: Id, x: Id)
    requires Core(s) && Home(s) && KnownOnce(s, x) && id != x
    ensures CancelAccount(s, CloseNotification(s, s.active.value, id, target), NotificationClose, target, x)
  {
    hide Core, Advance, Respond, Discard, Ids, Home, Beside, Gone;
    HomeLive(s);
    CoreCurrent(s);
    var doc := s.active.value;
    var d, s' := doc.generation, CloseNotification(s, doc, id, target);
    var known := Knows(s, target) && Cancels(NotificationClose, doc.requests[target]);
    RespondBeside(s, d, id, Failed, Silent, Some(target), UnknownTarget, x);
    if known && target == x { O.KindsOfWork(s, x); }
    if known && (Waiting(s, d, target, Notifications) || target in s.inFlight || target in s.notices) {
      var pending := target in s.notices && s.notices[target].Worker? && s.notices[target].pending;
      var s1 := if doc.requests[target] == NotificationShow
                then Respond(s, d, target, Ok, Closed, Some(target), NoReason) else s;
      RespondSame(s, d, target, Ok, Closed, Some(target), NoReason);
      var marks := target in s.inFlight || pending;
      assert s' == Respond(Advance(Cut(s1, d, target, marks, s.watches, s.notices - {target})), d, id, Ok, Silent,
                           Some(target), NoReason);
      if target == x {
        CutGone(s, d, marks, s.watches, s.notices - {target}, id, Some(target), x);
      } else {
        Still(s, x);
        RespondBeside(s, d, target, Ok, Closed, Some(target), NoReason, x);
        BesideHome(s, s1, x);
        CutBeside(s1, d, target, marks, s.watches, s.notices - {target}, id, Some(target), x);
        Beside2(s, s1, s', x);
      }
    } else if known && target == x { NotBusyGone(s, s', x); }
  }

  lemma RespondSame(s: State, d: nat, id: Id, status: Status, event: Event, about: Option<Id>, reason: Reason)
    ensures var s' := Respond(s, d, id, status, event, about, reason); s' == s.(posts := s'.posts)
  {
  }

  /********** Messages **********/

  lemma DispatchAccounts(s: State, id: Id, op: Op, target: Id, env: Env, x: Id)
    requires Core(s) && Home(s) && KnownOnce(s, x) && id != x && op != Connect
    ensures CancelAccount(s, Dispatch(s, s.active.value, id, op, target, env), op, target, x)
  {
    hide ClearLocation, CloseNotification, CancelClipboard, RequestCapability, Beside, Gone, Core, Home;
    HomeLive(s);
    match op
    case LocationClear => ClearAccounts(s, id, target, x);
    case NotificationClose => CloseAccounts(s, id, target, x);
    case ClipboardCancel => CopyCancelAccounts(s, id, target, x);
    case Connect =>
    case _ => AskBeside(s, s.active.value.generation, id, op, CapabilityOf(op).value, env, x);
  }

  // A message that cancels x, and is heard.
  predicate Withdraws(s: State, a: Action, x: Id) {
    && a.Receive? && a.message.Request? && Accepts(s, a.message.client) && Knows(s, x)
    && a.message.id !in s.active.value.requests && Size(Pruned(s).requests) < MAX_REMEMBERED
    && a.message.target == x && Cancels(a.message.op, s.active.value.requests[x])
  }

  // What a step does about x.
  ghost predicate Accounts(s: State, a: Action, s': State, x: Id) {
    if Withdraws(s, a, x) then !Open(s', x) && Told(s'.posts, x) == Told(s.posts, x)
    else Account(s', x) == Account(s, x) && (Open(s', x) ==> Open(s, x))
  }

  lemma BesideAccounts(s: State, a: Action, s': State, x: Id)
    requires Beside(s, s', x) && (Withdraws(s, a, x) ==> !Open(s, x))
    ensures Accounts(s, a, s', x)
  {
  }

  lemma RequestAccounts(s: State, client: Client, id: Id, op: Op, target: Id, env: Env, x: Id)
    requires Valid(s) && s.managed && Knows(s, x) && KnownOnce(s, x) && op != Connect
    ensures Accounts(s, Receive(Request(client, id, op, target)), HandleRequest(s, client, id, op, target, env), x)
  {
    hide Core, Dispatch, Pruned, Size, Respond, Beside, Accounts, Home;
    var a, s' := Receive(Request(client, id, op, target)), HandleRequest(s, client, id, op, target, env);
    CoreHome(s);
    if !Accepts(s, client) { StrangerBeside(s, client, id, op, target, env, x); BesideAccounts(s, a, s', x); }
    else if id in s.active.value.requests {
      RespondBeside(s, s.active.value.generation, id, Failed, Silent, None, DuplicateRequest, x);
      BesideAccounts(s, a, s', x);
    } else {
      HandleNewEquation(s, client, id, op, target, env);
      if Size(Pruned(s).requests) >= MAX_REMEMBERED {
        var s1 := WithDoc(s, Pruned(s));
        PrunedSame(s);
        DocBeside(s, Pruned(s), x);
        RespondBeside(s1, s.generation, id, Failed, Silent, None, TooManyActive, x);
        Beside2(s, s1, s', x);
        BesideAccounts(s, a, s', x);
      } else { AcceptedAccounts(s, client, id, op, target, env, x); }
    }
  }

  lemma StrangerBeside(s: State, client: Client, id: Id, op: Op, target: Id, env: Env, x: Id)
    requires !Accepts(s, client)
    ensures Beside(s, HandleRequest(s, client, id, op, target, env), x)
  {
    ToldMore(s.posts, Response(client, id, Failed, Silent, None, UnknownDocument), x);
  }

  lemma PrunedSame(s: State)
    requires s.active.Some?
    ensures Pruned(s).generation == s.active.value.generation
  {
  }

  lemma AcceptedAccounts(s: State, client: Client, id: Id, op: Op, target: Id, env: Env, x: Id)
    requires Valid(s) && Knows(s, x) && KnownOnce(s, x) && op != Connect && Home(s)
    requires Accepts(s, client) && id !in s.active.value.requests && Size(Pruned(s).requests) < MAX_REMEMBERED
    ensures Accounts(s, Receive(Request(client, id, op, target)), HandleRequest(s, client, id, op, target, env), x)
  {
    hide Core, Dispatch, Pruned, Size, Respond, Beside, Home, Open, O.Busy;
    var a, s1 := Receive(Request(client, id, op, target)), Registered(s, id, op);
    var s' := Dispatch(s1, s1.active.value, id, op, target, env);
    O.CancelFacts(s, id, op);
    HandleNewEquation(s, client, id, op, target, env);
    O.RegisteredSame(s, id, op, x);
    PrunedSame(s);
    DocBeside(s, s1.active.value, x);
    BesideHome(s, s1, x);
    DispatchAccounts(s1, id, op, target, env, x);
    if Knows(s1, x) && Withdraws(s, a, x) { GoneAccounts(s, s1, s', a, x); }
    else {
      Beside2(s, s1, s', x);
      if !Knows(s1, x) { NotBusyShut(s, x); }
      BesideAccounts(s, a, s', x);
    }
  }

  lemma GoneAccounts(s: State, s1: State, s': State, a: Action, x: Id)
    requires Beside(s, s1, x) && Gone(s1, s', x) && Withdraws(s, a, x)
    ensures Accounts(s, a, s', x)
  {
  }

  lemma NotBusyShut(s: State, x: Id)
    requires !O.Busy(s, x)
    ensures !Open(s, x)
  {
  }

  // The first that is heard of x: it waits, runs, or is answered.
  lemma AskedAccounts(s: State, client: Client, x: Id, op: Op, target: Id, env: Env)
    requires Valid(s) && Accepts(s, client) && x !in s.active.value.requests && OneShot(op)
    requires Size(Pruned(s).requests) < MAX_REMEMBERED
    ensures var s' := HandleMessage(s, Request(client, x, op, target), env);
            Account(s', x) == Told(s.posts, x) + 1
  {
    hide Core, Dispatch, HandleRequest, Registered, Pruned, Size, Beside, Home, Account, Takes, Idle;
    var s1 := Registered(s, x, op);
    CoreHome(s);
    O.CancelFacts(s, x, op);
    HandleNewEquation(s, client, x, op, target, env);
    PrunedSame(s);
    RegisteredHome(s, x, op);
    RegisteredKeeps(s, x, op);
    FreshIdle(s1, x);
    FreshTakes(s1, x, op, target, env);
    FreshAccount(s, s1, Dispatch(s1, s1.active.value, x, op, target, env), x);
  }

  lemma RegisteredHome(s: State, x: Id, op: Op)
    requires Home(s) && Pruned(s).generation == s.active.value.generation
    ensures Beside(s, Registered(s, x, op), x) && Home(Registered(s, x, op))
  {
    hide Pruned;
    DocBeside(s, Remember(Pruned(s), x, op), x);
  }

  lemma FreshTakes(s: State, x: Id, op: Op, target: Id, env: Env)
    requires Home(s) && Idle(s, x) && OneShot(op)
    ensures Takes(s, Dispatch(s, s.active.value, x, op, target, env), x)
  {
    hide RequestCapability, Takes, Idle;
    HomeLive(s);
    DispatchEquation(s, s.active.value, x, op, target, env);
    AskTakes(s, s.active.value.generation, x, op, CapabilityOf(op).value, env);
  }

  lemma FreshIdle(s: State, x: Id)
    requires Free(s, x)
    ensures Idle(s, x)
  {
  }

  lemma FreshAccount(s: State, s1: State, s': State, x: Id)
    requires Beside(s, s1, x) && Idle(s1, x) && Takes(s1, s', x)
    ensures Account(s', x) == Told(s.posts, x) + 1
  {
  }

  /********** Runs **********/

  lemma MessageAccounts(s: State, m: Message, env: Env, x: Id)
    requires Valid(s) && s.managed && Knows(s, x) && KnownOnce(s, x)
    requires var s' := HandleMessage(s, m, env); s'.active.Some? && s'.generation == s.generation
    ensures Accounts(s, Receive(m), HandleMessage(s, m, env), x)
  {
    hide Core, HandleRequest, Respond, Beside, Accounts;
    Still(s, x);
    match m
    case Disconnect(client) => BesideAccounts(s, Receive(m), s, x);
    case Garbled(client, id) =>
      RespondBeside(s, s.active.value.generation, id, Failed, Silent, None, MalformedRequest, x);
      BesideAccounts(s, Receive(m), HandleGarbled(s, client, id), x);
    case Request(client, id, op, target) =>
      if op == Connect { ConnectReplaces(s, client, id); } else { RequestAccounts(s, client, id, op, target, env, x); }
  }

  lemma ConnectReplaces(s: State, client: Client, id: Id)
    ensures HandleConnect(s, client, id).generation == s.generation + 1
  {
  }

  lemma EvenAccounts(s: State, a: Action, s': State, x: Id)
    requires Even(s, s', x) && !a.Receive?
    ensures Accounts(s, a, s', x)
  {
  }

  lemma OtherKinds(s: State, x: Id)
    requires Core(s) && Knows(s, x) && KnownOnce(s, x)
    ensures x !in s.watches && x !in s.notices
  {
  }

  lemma ShowIsOther(s: State, k: nat, x: Id)
    requires Core(s) && Knows(s, x) && KnownOnce(s, x) && k in s.batches && s.batches[k].work.Showing?
    requires Live(s, s.batches[k].doc)
    ensures s.batches[k].work.id != x
  {
    assert Current(s.batches, s.generation, k);
  }

  lemma CopyIsCopy(s: State, k: nat)
    requires Core(s) && k in s.batches && s.batches[k].work.Clipping? && Live(s, s.batches[k].doc)
    ensures IsClipboard(s.batches[k].work.cap)
  {
    assert Current(s.batches, s.generation, k);
  }

  lemma CopyAccounts(s: State, k: nat, env: Env, x: Id)
    requires Core(s) && Orderly(s, x) && k in s.batches && s.batches[k].work.Clipping?
    ensures Accounts(s, ClipboardSettles(k), SettleClipboard(s, k, env), x)
  {
    hide Core, Orderly, ClipboardOutcome, Beside, Even, Accounts;
    if Live(s, s.batches[k].doc) {
      CopyIsCopy(s, k);
      ClipboardEven(s, k, env, x);
    } else {
      ReleaseBeside(s, k, x, x);
      BesideIsEven(s, Release(s, k), x);
    }
    EvenAccounts(s, ClipboardSettles(k), SettleClipboard(s, k, env), x);
  }

  lemma StaleShow(s: State, k: nat, env: Env, x: Id)
    requires k in s.batches && s.batches[k].work.Showing? && !Live(s, s.batches[k].doc)
    ensures Beside(s, ResumeShow(s, k, env), x)
  {
    hide Respond, DeleteReservation;
    StaleFinish(s, k, x);
    match s.batches[k].work.phase
    case FindWorker =>
    case FirstReconcile =>
    case FindFallback =>
    case Displaying => SuspendBeside(s, k, Withdrawing, s.batches[k].work.registered, x);
    case Withdrawing =>
    case LastReconcile =>
  }

  lemma StaleFinish(s: State, k: nat, x: Id)
    requires k in s.batches && s.batches[k].work.Showing? && !Live(s, s.batches[k].doc)
    ensures Beside(s, FinishShow(s, k), x)
    ensures Beside(s, FinishShow(DeleteReservation(s, s.batches[k].work.id, k), k), x)
  {
  }

  lemma ShowAccounts(s: State, k: nat, env: Env, x: Id)
    requires Core(s) && Knows(s, x) && KnownOnce(s, x) && k in s.batches && s.batches[k].work.Showing?
    ensures Accounts(s, ShowResumes(k), ResumeShow(s, k, env), x)
  {
    hide Core, ResumeShow, Beside, Accounts;
    OtherKinds(s, x);
    if Live(s, s.batches[k].doc) {
      ShowIsOther(s, k, x);
      ResumeBeside(s, k, env, x);
    } else { StaleShow(s, k, env, x); }
    BesideAccounts(s, ShowResumes(k), ResumeShow(s, k, env), x);
  }

  lemma SameAccounts(s: State, a: Action, s': State, x: Id)
    requires s'.queue == s.queue && s'.inFlight == s.inFlight && s'.cancelled == s.cancelled && s'.posts == s.posts
    requires !a.Receive?
    ensures Accounts(s, a, s', x)
  {
  }

  lemma NavigateReplaces(s: State)
    ensures Revoke(s).generation == s.generation + 1
  {
  }

  lemma LoadSame(s: State)
    requires FrameLoaded(s).generation == s.generation
    ensures var s' := FrameLoaded(s);
            s'.queue == s.queue && s'.inFlight == s.inFlight && s'.cancelled == s.cancelled && s'.posts == s.posts
  {
  }

  /**
   A step within a document keeps the account of every lookup, permission request and clipboard call: the answers to it,
   and one more while it is open. Only a message that cancels it closes it without an answer.
   */
  lemma StepAccounts(s: State, a: Action, env: Env, x: Id)
    requires Valid(s) && Enabled(s, a) && s.managed && Knows(s, x) && KnownOnce(s, x)
    requires var s' := Next(s, a, env); s'.active.Some? && s'.generation == s.generation
    ensures Accounts(s, a, Next(s, a, env), x)
  {
    hide Core, HandleMessage, Allow, Deny, SettleLocation, SettleClipboard, SettleConsent, ResumeShow, WatchEvent,
         NoticeEvent, FrameLoaded, Revoke, Begin, Release, Beside, Even, Accounts, Orderly, Home;
    var s' := Next(s, a, env);
    CoreOrderly(s, x);
    OtherKinds(s, x);
    Still(s, x);
    match a
    case Receive(m) => MessageAccounts(s, m, env, x);
    case ClickAllow(mode) => AllowEven(s, mode, env, x); EvenAccounts(s, a, s', x);
    case ClickDeny => DenyEven(s, x); EvenAccounts(s, a, s', x);
    case LocationSettles(k, fix) => LocationEven(s, k, fix, x); EvenAccounts(s, a, s', x);
    case ClipboardSettles(k) => CopyAccounts(s, k, env, x);
    case PromptSettles(k, status, dismissed) =>
      ConsentEven(s, k, status, dismissed, env, x);
      EvenAccounts(s, a, s', x);
    case ShowResumes(k) => ShowAccounts(s, k, env, x);
    case WatchFires(id, d, fix) => WatchBeside(s, id, d, fix, x); BesideAccounts(s, a, s', x);
    case NoticeFires(id, handle, event) => NoticeBeside(s, id, handle, event, x); BesideAccounts(s, a, s', x);
    case Load => LoadSame(s); SameAccounts(s, a, s', x);
    case Navigate => NavigateReplaces(s);
    case Manage(managed) => SameAccounts(s, a, s', x);
    case ReserveElsewhere(count) => BeginBeside(s, 0, count, {}, Elsewhere, x); BesideAccounts(s, a, s', x);
    case ReleaseElsewhere(k) => ReleaseBeside(s, k, x, x); BesideAccounts(s, a, s', x);
  }

  // The document lives in the managed frame, and remembers x, throughout.
  ghost predicate Lasts(s: State, steps: seq<Step>, x: Id)
    decreases |steps|
  {
    && s.managed && Knows(s, x) && s.generation == After(s, steps).generation
    && (steps != [] ==> Lasts(Perform(s, steps[0]), steps[1..], x))
  }

  // A message cancelled x while it was open.
  predicate Withdrawn(s: State, steps: seq<Step>, x: Id)
    decreases |steps|
  {
    steps != [] && ((Open(s, x) && Withdraws(s, steps[0].action, x)) || Withdrawn(Perform(s, steps[0]), steps[1..], x))
  }

  lemma {:induction false} ShutStays(s: State, steps: seq<Step>, x: Id)
    requires Valid(s) && Lasts(s, steps, x) && KnownOnce(s, x) && !Open(s, x)
    ensures var s' := After(s, steps); !Open(s', x) && Told(s'.posts, x) == Told(s.posts, x) && !Withdrawn(s, steps, x)
    decreases |steps|
  {
    hide Next, Valid, Open, Knows, KnownOnce;
    if steps != [] {
      OneStep(s, steps, x);
      ShutStays(Perform(s, steps[0]), steps[1..], x);
    }
  }

  lemma OneStep(s: State, steps: seq<Step>, x: Id)
    requires Valid(s) && Lasts(s, steps, x) && KnownOnce(s, x) && steps != []
    ensures var s1 := Perform(s, steps[0]);
            && Valid(s1) && Lasts(s1, steps[1..], x) && KnownOnce(s1, x)
            && (Enabled(s, steps[0].action) ==> Accounts(s, steps[0].action, s1, x))
  {
    hide Next, Valid, Core, Accounts, Enabled;
    var a, env := steps[0].action, steps[0].env;
    LastsNext(s, steps, x);
    if Enabled(s, a) {
      NextKeepsValid(s, a, env);
      KindsStay(s, a, env);
      StepAccounts(s, a, env, x);
    }
  }

  lemma LastsNext(s: State, steps: seq<Step>, x: Id)
    requires Lasts(s, steps, x) && steps != []
    ensures var s1 := Perform(s, steps[0]);
            Lasts(s1, steps[1..], x) && s1.managed && Knows(s1, x) && s1.generation == s.generation
    ensures s.managed && Knows(s, x)
  {
    hide Next, Enabled, Perform;
  }

  // What is remembered within a document is remembered alike.
  lemma KindsStay(s: State, a: Action, env: Env)
    requires Valid(s) && Enabled(s, a) && Next(s, a, env).generation == s.generation
    ensures F.SameKinds(s, Next(s, a, env))
  {
    hide Next, Core, F.WithinLimit;
    if a.Receive? { F.MessageHears(s, a.message, env); NextReceives(s, a, env); }
    else if a.ShowResumes? { ShowKinds(s, a, env); }
    else { F.StepFrames(s, a, env); }
  }

  lemma NextReceives(s: State, a: Action, env: Env)
    requires a.Receive?
    ensures Next(s, a, env) == HandleMessage(s, a.message, env)
  {
    hide HandleMessage;
  }

  lemma ShowKinds(s: State, a: Action, env: Env)
    requires Enabled(s, a) && a.ShowResumes?
    ensures F.SameKinds(s, Next(s, a, env))
  {
    hide ResumeShow;
    F.ShowResumesMarks(s, a.batch, env);
  }

  lemma WithdrawsIsHeard(s: State, a: Action, x: Id)
    ensures Withdraws(s, a, x) ==> Enabled(s, a)
  {
  }

  lemma {:induction false} OpenStays(s: State, steps: seq<Step>, x: Id)
    requires Valid(s) && Lasts(s, steps, x) && KnownOnce(s, x) && Open(s, x)
    ensures var s' := After(s, steps);
            Told(s'.posts, x) == Told(s.posts, x) + if Open(s', x) || Withdrawn(s, steps, x) then 0 else 1
    decreases |steps|
  {
    hide Next, Valid, Open, Knows, KnownOnce, Withdraws, Lasts;
    if steps != [] {
      var s1 := Perform(s, steps[0]);
      OneStep(s, steps, x);
      WithdrawsIsHeard(s, steps[0].action, x);
      if Open(s1, x) { OpenStays(s1, steps[1..], x); } else { ShutStays(s1, steps[1..], x); }
    }
  }

  /**
   In every run of a document that still remembers it, a lookup, permission request or clipboard call was answered
   exactly once, unless it still waits or runs, or a message cancelled it first; then it was not answered at all.
   */
  lemma AnsweredExactly(before: seq<Step>, client: Client, x: Id, op: Op, target: Id, env: Env, after: seq<Step>)
    requires var s := After(INITIAL, before);
             && Accepts(s, client) && x !in s.active.value.requests && OneShot(op)
             && Size(Pruned(s).requests) < MAX_REMEMBERED
    requires var s1 := HandleMessage(After(INITIAL, before), Request(client, x, op, target), env);
             Lasts(s1, after, x) && s1.active.value.requests[x] == op
    ensures var s := After(INITIAL, before);
            var s1 := HandleMessage(s, Request(client, x, op, target), env);
            var s2 := After(s1, after);
            Told(s2.posts, x) == Told(s.posts, x) + if Open(s2, x) || Withdrawn(s1, after, x) then 0 else 1
  {
    hide HandleMessage, Valid, Open, Withdrawn;
    var s := After(INITIAL, before);
    InitialIsValid();
    AfterKeepsValid(INITIAL, before);
    var m := Request(client, x, op, target);
    var s1 := HandleMessage(s, m, env);
    NextReceives(s, Receive(m), env);
    NextKeepsValid(s, Receive(m), env);
    AskedAccounts(s, client, x, op, target, env);
    if Open(s1, x) { OpenStays(s1, after, x); } else { ShutStays(s1, after, x); }
  }
}
