/**
 What becomes of a request that waits, or whose native work settles: what a cancelling message stops, what a clipboard
 call hands over, and which notifications a settled prompt starts.
 */
module BrokerOutcomes {
  import opened Wrappers
  import opened Protocol
  import opened BrokerSpec
  import opened BrokerInvariant
  import opened BrokerRequests
  import opened BrokerTheorems
  import F = BrokerFrames
  import A = BrokerAccess
  import Grants

  /********** Cancelling **********/

  // The request waits, runs, watches or is shown.
  predicate Busy(s: State, x: Id) { x in Ids(s.queue) || x in s.inFlight || x in s.watches || x in s.notices }

  // The last answer is to request `id`, with this status.
  predicate LastAnswers(s: State, s': State, id: Id, status: Status) {
    && |s'.posts| > |s.posts| && s'.posts[|s'.posts| - 1].id == id && s'.posts[|s'.posts| - 1].status == status
  }

  // Nothing of x, a request by this operation, goes on: it does not wait, watch or show, and what runs for it will be
  // thrown away.
  predicate Stopped(s: State, s': State, x: Id, op: Op) {
    && x !in Ids(s'.queue) && x !in s'.watches && x !in s'.notices
    && (x in s.inFlight && op != LocationWatch ==> x in s'.cancelled)
  }

  // What is known of a document's requests by their operations.
  lemma KindsOfWork(s: State, x: Id)
    requires Core(s) && s.active.Some? && x in s.active.value.requests
    ensures var op := s.active.value.requests[x];
            && (x in s.watches ==> op == LocationWatch)
            && (x in s.notices ==> op == NotificationShow)
            && (x in Ids(s.queue) <==> CapabilityOf(op).Some? && Waiting(s, s.generation, x, CapabilityOf(op).value))
            && (x in Ids(s.queue) <==> exists i :: 0 <= i < |s.queue| && s.queue[i].doc == s.generation
                                                   && s.queue[i].id == x)
  {
    if x in Ids(s.queue) {
      var i :| 0 <= i < |s.queue| && s.queue[i].id == x;
      assert Known(s.active.value, s.queue[i]);
    }
  }

  lemma DiscardIds(queue: seq<Queued>, d: nat, x: Id)
    requires forall q :: q in queue ==> q.doc == d
    ensures x !in Ids(Discard(queue, d, x))
  {
    var rest := Discard(queue, d, x);
    forall i | 0 <= i < |rest| ensures rest[i].id != x { assert rest[i] in rest; }
  }

  // After the queue was cut and the prompt moved on.
  lemma AdvanceStops(s: State, x: Id)
    requires x !in Ids(s.queue)
    ensures x !in Ids(Advance(s).queue)
    ensures var s' := Advance(s);
            s'.posts == s.posts && s'.active == s.active && s'.managed == s.managed && s'.cancelled == s.cancelled
            && s'.watches == s.watches && s'.notices == s.notices && s'.inFlight == s.inFlight
  {
    DropDeadIds(s, s.queue, x);
  }

  lemma {:induction false} DropDeadIds(s: State, queue: seq<Queued>, x: Id)
    requires x !in Ids(queue)
    ensures x !in Ids(DropDead(s, queue))
  {
    if queue != [] && !Live(s, queue[0].doc) {
      forall i | 0 <= i < |queue[1..]| ensures queue[1..][i].id != x { assert queue[1..][i] == queue[i + 1]; }
      DropDeadIds(s, queue[1..], x);
    }
  }

  lemma Replies(s: State, id: Id, status: Status, about: Option<Id>, reason: Reason)
    requires s.active.Some? && Live(s, s.active.value.generation) && id !in s.cancelled
    ensures var s' := Respond(s, s.active.value.generation, id, status, Silent, about, reason);
            s' == s.(posts := s.posts + [Reply(s, id, status, Silent, about, reason)])
  {
  }

  lemma ClearMeets(s: State, id: Id, x: Id)
    requires Core(s) && s.active.Some? && Live(s, s.active.value.generation) && id !in s.cancelled && id != x
    requires x in s.active.value.requests && Cancels(LocationClear, s.active.value.requests[x])
    ensures var s' := ClearLocation(s, s.active.value, id, x);
            && (Busy(s, x) ==> Stopped(s, s', x, s.active.value.requests[x]) && LastAnswers(s, s', id, Ok))
            && (!Busy(s, x) ==> LastAnswers(s, s', id, Failed) && s' == s.(posts := s'.posts))
  {
    hide Core, Advance, Respond, Discard, Ids;
    KindsOfWork(s, x);
    OwnQueue(s);
    DiscardIds(s.queue, s.generation, x);
    Replies(s, id, Failed, Some(x), UnknownTarget);
    var s1 := s.(watches := s.watches - {x},
                 cancelled := if x in s.inFlight && s.active.value.requests[x] == LocationGet
                   then s.cancelled + {x} else s.cancelled,
                 queue := Discard(s.queue, s.generation, x));
    AdvanceStops(s1, x);
    Replies(Advance(s1), id, Ok, Some(x), NoReason);
  }

  lemma OwnQueue(s: State)
    requires Core(s) && s.active.Some?
    ensures s.active.value.generation == s.generation && forall q :: q in s.queue ==> q.doc == s.generation
  {
    assert forall i :: 0 <= i < |s.queue| ==> Known(s.active.value, s.queue[i]);
  }

  lemma CopyCancelMeets(s: State, id: Id, x: Id)
    requires Core(s) && s.active.Some? && Live(s, s.active.value.generation) && id !in s.cancelled && id != x
    requires x in s.active.value.requests && Cancels(ClipboardCancel, s.active.value.requests[x])
    ensures var s' := CancelClipboard(s, s.active.value, id, x);
            && (Busy(s, x) ==> Stopped(s, s', x, s.active.value.requests[x]) && LastAnswers(s, s', id, Ok))
            && (!Busy(s, x) ==> LastAnswers(s, s', id, Failed) && s' == s.(posts := s'.posts))
  {
    hide Core, Advance, Respond, Discard, Ids;
    KindsOfWork(s, x);
    OwnQueue(s);
    DiscardIds(s.queue, s.generation, x);
    Replies(s, id, Failed, None, UnknownTarget);
    var s1 := s.(cancelled := if x in s.inFlight then s.cancelled + {x} else s.cancelled,
                 queue := Discard(s.queue, s.generation, x));
    AdvanceStops(s1, x);
    Replies(Advance(s1), id, Ok, None, NoReason);
  }

  lemma CloseMeets(s: State, id: Id, x: Id)
    requires Core(s) && s.active.Some? && Live(s, s.active.value.generation) && id !in s.cancelled && id != x
    requires x in s.active.value.requests && Cancels(NotificationClose, s.active.value.requests[x])
    ensures var s' := CloseNotification(s, s.active.value, id, x);
            && (Busy(s, x) ==> Stopped(s, s', x, s.active.value.requests[x]) && LastAnswers(s, s', id, Ok))
            && (!Busy(s, x) ==> LastAnswers(s, s', id, Failed) && s' == s.(posts := s'.posts))
  {
    hide Core, Advance, Discard, Ids;
    KindsOfWork(s, x);
    OwnQueue(s);
    DiscardIds(s.queue, s.generation, x);
    Replies(s, id, Failed, Some(x), UnknownTarget);
    var s1 := if s.active.value.requests[x] == NotificationShow
              then Respond(s, s.generation, x, Ok, Closed, Some(x), NoReason) else s;
    var pending := x in s.notices && s.notices[x].Worker? && s.notices[x].pending;
    var s2 := s1.(cancelled := if x in s.inFlight || pending then s.cancelled + {x} else s.cancelled,
                  notices := s.notices - {x}, queue := Discard(s.queue, s.generation, x));
    AdvanceStops(s2, x);
    Replies(Advance(s2), id, Ok, Some(x), NoReason);
  }

  lemma CancelFacts(s: State, id: Id, op: Op)
    requires Valid(s) && s.active.Some? && id !in s.active.value.requests && op != Connect
    requires Size(Pruned(s).requests) < MAX_REMEMBERED && Live(s, s.active.value.generation)
    ensures s.active.value.generation == s.generation && id !in s.cancelled
    ensures var s1 := Registered(s, id, op);
            && Core(s1) && s1.active.Some? && Live(s1, s1.active.value.generation)
            && s1 == s.(active := s1.active)
  {
    RegisteredKeeps(s, id, op);
  }

  // Whatever is busy stays remembered, as what it was.
  lemma RegisteredSame(s: State, id: Id, op: Op, x: Id)
    requires Valid(s) && s.active.Some? && x in s.active.value.requests && x != id
    ensures var requests := Registered(s, id, op).active.value.requests;
            && (x in requests ==> requests[x] == s.active.value.requests[x])
            && (x !in requests ==> !Busy(s, x))
  {
    hide Prune, Protected, Busy, Core;
    F.PruneFewer(s.active.value, Protected(s));
    BusyIsOwner(s, x);
    if Busy(s, x) { PruneSpares(s.active.value, Protected(s), x); }
  }

  lemma BusyIsOwner(s: State, x: Id)
    ensures Busy(s, x) ==> x in Protected(s)
  {
  }

  lemma PruneSpares(doc: Doc, owners: set<Id>, x: Id)
    requires x in doc.requests && x in owners
    ensures x in Prune(doc, owners).requests
  {
    hide Size;
    OldestIsFree(doc, owners, 0);
  }

  lemma {:induction false} OldestIsFree(doc: Doc, owners: set<Id>, i: nat)
    requires i <= |doc.order|
    ensures var r := Oldest(doc, owners, i); r.Some? ==> r.value < |doc.order| && doc.order[r.value] !in owners
    decreases |doc.order| - i
  {
    if i < |doc.order| { OldestIsFree(doc, owners, i + 1); }
  }

  lemma ForgottenMeets(s: State, id: Id, op: Op, x: Id, env: Env)
    requires s.active.Some? && Live(s, s.active.value.generation) && id !in s.cancelled && IsCancel(op)
    requires x !in s.active.value.requests
    ensures var s' := Dispatch(s, s.active.value, id, op, x, env);
            LastAnswers(s, s', id, Failed) && s' == s.(posts := s'.posts)
  {
    Replies(s, id, Failed, Some(x), UnknownTarget);
    Replies(s, id, Failed, None, UnknownTarget);
  }

  /**
   A message that cancels a request of its own kind stops it for good and is acknowledged, if anything of it still
   waits, runs, watches or shows; otherwise it is told that there is no such target, and nothing else changes but the
   document's memory of requests.
   */
  lemma CancelMeets(s: State, client: Client, id: Id, op: Op, x: Id, env: Env)
    requires Valid(s) && Accepts(s, client) && id !in s.active.value.requests && IsCancel(op)
    requires x in s.active.value.requests && Cancels(op, s.active.value.requests[x])
    requires Size(Pruned(s).requests) < MAX_REMEMBERED
    ensures var s' := HandleMessage(s, Request(client, id, op, x), env);
            if Busy(s, x) then Stopped(s, s', x, s.active.value.requests[x]) && LastAnswers(s, s', id, Ok)
            else LastAnswers(s, s', id, Failed) && s' == s.(posts := s'.posts, active := s'.active)
  {
    hide Core, ClearLocation, CloseNotification, CancelClipboard, Pruned, Size;
    CancelFacts(s, id, op);
    HandleNewEquation(s, client, id, op, x, env);
    RegisteredSame(s, id, op, x);
    var s1 := Registered(s, id, op);
    if x in s1.active.value.requests {
      match op
      case LocationClear => ClearMeets(s1, id, x);
      case NotificationClose => CloseMeets(s1, id, x);
      case ClipboardCancel => CopyCancelMeets(s1, id, x);
    } else {
      ForgottenMeets(s1, id, op, x, env);
    }
  }

  /********** What a clipboard call hands over **********/

  // Request `id` is answered with success.
  ghost predicate Handed(s: State, s': State, id: Id) {
    exists i :: |s.posts| <= i < |s'.posts| && s'.posts[i].id == id && s'.posts[i].status == Ok
  }

  // What was posted in between are refusals.
  ghost predicate OnlyRefuses(s: State, s': State) {
    s.posts <= s'.posts && forall i :: |s.posts| <= i < |s'.posts| ==> s'.posts[i].status != Ok
  }

  lemma RefusesTrans(s: State, s1: State, s': State)
    requires OnlyRefuses(s, s1) && OnlyRefuses(s1, s')
    ensures OnlyRefuses(s, s')
  {
    forall i | |s.posts| <= i < |s'.posts| ensures s'.posts[i].status != Ok {
      if i < |s1.posts| { assert s'.posts[i] == s1.posts[i]; }
    }
  }

  lemma CopyRefuses(s: State, d: nat, id: Id, op: Op, mode: Mode, token: Option<Grants.Token>, env: Env)
    ensures OnlyRefuses(s, ExecuteClipboard(s, d, id, op, mode, token, env))
  {
    hide Fresh;
  }

  lemma {:induction false} SiblingsRefuse(s: State, items: seq<Queued>, token: Option<Grants.Token>, env: Env)
    ensures OnlyRefuses(s, ExecuteSiblings(s, items, token, env))
    decreases |items|
  {
    hide ExecuteClipboard;
    if items != [] {
      var s1 := ExecuteClipboard(s, items[0].doc, items[0].id, items[0].op, Saved, token, env);
      CopyRefuses(s, items[0].doc, items[0].id, items[0].op, Saved, token, env);
      SiblingsRefuse(s1, items[1..], token, env);
      RefusesTrans(s, s1, ExecuteSiblings(s1, items[1..], token, env));
    }
  }

  lemma HandedBy(s: State, s1: State, s': State, id: Id)
    requires s1.posts == s.posts + [Reply(s, id, Ok, Silent, None, NoReason)] && s1.posts <= s'.posts
    ensures Handed(s, s', id)
  {
    assert s'.posts[|s.posts|] == s1.posts[|s.posts|];
  }

  lemma NotHanded(s: State, s': State, id: Id)
    requires OnlyRefuses(s, s')
    ensures !Handed(s, s', id)
  {
  }

  lemma OutcomeMeets(s: State, d: nat, w: Work, env: Env)
    requires w.Clipping? && Live(s, d) && w.id !in s.cancelled
    ensures Handed(s, ClipboardOutcome(s, d, w, env), w.id)
       <==> BrokerSpec.Allowed(s, w.cap) && env.currentBefore && !env.failed && env.currentAfter
  {
    hide ExecuteSiblings, Advance, Handed, OnlyRefuses;
    if BrokerSpec.Allowed(s, w.cap) && env.currentBefore && !env.failed && env.currentAfter {
      var s1 := Answer(s, d, w.id, Ok, NoReason);
      var siblings := Matching(s1.queue, d, w.cap);
      var s2 := s1.(queue := Without(s1.queue, siblings));
      SiblingsRefuse(s2, siblings, w.token, env);
      RefusesGrows(s2, ExecuteSiblings(s2, siblings, w.token, env));
      AdvancePosts(s1);
      AdvancePosts(ExecuteSiblings(s2, siblings, w.token, env));
      HandedBy(s, s1, ClipboardOutcome(s, d, w, env), w.id);
    } else {
      NotHandedUnless(s, d, w, env);
    }
  }

  lemma RefusesGrows(s: State, s': State)
    requires OnlyRefuses(s, s')
    ensures s.posts <= s'.posts
  {
  }

  lemma AdvancePosts(s: State)
    ensures Advance(s).posts == s.posts
  {
  }

  lemma OutcomeRefuses(s: State, d: nat, w: Work, env: Env)
    requires w.Clipping? && !(BrokerSpec.Allowed(s, w.cap) && env.currentBefore && !env.failed && env.currentAfter)
    ensures OnlyRefuses(s, ClipboardOutcome(s, d, w, env))
  {
  }

  lemma NotHandedUnless(s: State, d: nat, w: Work, env: Env)
    requires w.Clipping?
    requires !(BrokerSpec.Allowed(s, w.cap) && env.currentBefore && !env.failed && env.currentAfter)
    ensures !Handed(s, ClipboardOutcome(s, d, w, env), w.id)
  {
    hide ClipboardOutcome;
    OutcomeRefuses(s, d, w, env);
  }

  /**
   A clipboard call that settles hands over its result if and only if it succeeded, its document is live, the request
   was not cancelled, its capability is not denied by then, and its approval stands before and after it could be saved.
   */
  lemma CopyAnswersExactly(s: State, k: nat, env: Env)
    requires k in s.batches && s.batches[k].work.Clipping?
    ensures var w := s.batches[k].work;
            Handed(s, SettleClipboard(s, k, env), w.id)
            <==> && Live(s, s.batches[k].doc) && w.id !in s.cancelled && BrokerSpec.Allowed(s, w.cap)
                 && env.currentBefore && !env.failed && env.currentAfter
  {
    hide ClipboardOutcome;
    var d, w := s.batches[k].doc, s.batches[k].work;
    var s2 := Land(Release(s, k), w.id);
    if Live(s, d) && w.id !in s.cancelled { OutcomeMeets(s2, d, w, env); }
  }

  /********** What a settled prompt starts **********/

  // The item is a notification to show, and nothing stands in its way.
  predicate Starts(s: State, mode: Mode, current: Queued, item: Queued, v: Verdict) {
    && item.id !in s.cancelled && BrokerSpec.Allowed(s, item.cap) && v.currentChoice && v.status == Ok
    && (mode != Always || v.saved || item == current) && item.op != NotificationPermission
  }

  function Started(s: State, mode: Mode, current: Queued, items: seq<Queued>, v: Verdict): seq<Queued> {
    if items == [] then []
    else (if Starts(s, mode, current, items[0], v) then [items[0]] else []) + Started(s, mode, current, items[1..], v)
  }

  lemma {:induction false} StartedStays(s: State, s': State, id: Id, mode: Mode, current: Queued, items: seq<Queued>,
                                        v: Verdict)
    requires F.Settled(s, s', id) && forall i :: 0 <= i < |items| ==> items[i].id != id
    ensures Started(s', mode, current, items, v) == Started(s, mode, current, items, v)
    decreases |items|
  {
    if items != [] {
      assert items[0].id != id;
      assert forall i :: 0 <= i < |items[1..]| ==> items[1..][i] == items[i + 1];
      StartedStays(s, s', id, mode, current, items[1..], v);
    }
  }

  lemma ItemStarts(s: State, mode: Mode, current: Queued, item: Queued, v: Verdict, env: Env)
    requires CapabilityOf(item.op) == Some(Notifications) == Some(item.cap) && Live(s, item.doc)
    ensures SettleItem(s, mode, current, item, v, env).runs
         == s.runs + if Starts(s, mode, current, item, v) then [A.RunOf(item)] else []
  {
    hide ExecuteGranted, Respond;
    var s1 := Land(s, item.id);
    A.RespondRuns(s1, item.doc, item.id, Denied, Silent, None, Refused);
    A.RespondRuns(s1, item.doc, item.id, Ok, Silent, None, NoReason);
    A.RespondRuns(s1, item.doc, item.id, Denied, Silent, Some(item.id), ApprovalChanged);
    A.RespondRuns(s1, item.doc, item.id, Failed, Silent, None, NativeFailure);
    if item.id !in s.cancelled { A.GrantedRuns(s1, item.doc, item.id, item.op, env); }
  }

  lemma {:induction false} ItemsStart(s: State, mode: Mode, current: Queued, items: seq<Queued>, v: Verdict, env: Env)
    requires DistinctIds(items)
    requires forall q :: q in items ==> CapabilityOf(q.op) == Some(Notifications) == Some(q.cap) && Live(s, q.doc)
    ensures SettleItems(s, mode, current, items, v, env).runs
         == s.runs + A.RunSeq(Started(s, mode, current, items, v))
    decreases |items|
  {
    hide SettleItem, F.Settled, Starts;
    if items == [] {
      assert s.runs + [] == s.runs;
    } else {
      assert items[0] in items;
      var s1 := SettleItem(s, mode, current, items[0], v, env);
      ItemStarts(s, mode, current, items[0], v, env);
      F.SettleItemQueue(s, mode, current, items[0], v, env);
      SettledLive(s, s1, items[0].id);
      assert forall i :: 0 <= i < |items[1..]| ==> items[1..][i] == items[i + 1];
      ItemsStart(s1, mode, current, items[1..], v, env);
      StartedStays(s, s1, items[0].id, mode, current, items[1..], v);
      var here := if Starts(s, mode, current, items[0], v) then [items[0]] else [];
      RunSeqMore(here, Started(s, mode, current, items[1..], v));
      assert s.runs + A.RunSeq(here) + A.RunSeq(Started(s, mode, current, items[1..], v))
          == s.runs + (A.RunSeq(here) + A.RunSeq(Started(s, mode, current, items[1..], v)));
    }
  }

  lemma SettledLive(s: State, s': State, id: Id)
    requires F.Settled(s, s', id)
    ensures s'.active == s.active && s'.managed == s.managed
  {
  }

  lemma RunSeqMore(here: seq<Queued>, rest: seq<Queued>)
    requires |here| <= 1
    ensures A.RunSeq(here + rest) == A.RunSeq(here) + A.RunSeq(rest)
  {
    if here == [] {
      assert here + rest == rest;
    } else {
      assert here[1..] == [] && (here + rest)[1..] == rest;
    }
  }

  /**
   When the native prompt settles, exactly those of its notifications start, in order, that were not cancelled, while
   notifications are not denied, the prompt was granted, and the choice stands; without a saved "always" choice, only
   the one that was clicked on.
   */
  lemma PromptStarts(s: State, k: nat, status: Status, dismissed: bool, env: Env)
    requires Core(s) && k in s.batches && s.batches[k].work.Consenting? && Live(s, s.batches[k].doc)
    ensures var w := s.batches[k].work;
            SettleConsent(s, k, status, dismissed, env).runs
            == s.runs + A.RunSeq(Started(s, w.mode, w.current, w.items, F.VerdictOf(s, k, status, env)))
  {
    hide Core, SettleItems, Advance, SomeUncancelled;
    F.PromptFacts(s, k);
    ItemsAreNotices(s, k);
    var w, v := s.batches[k].work, F.VerdictOf(s, k, status, env);
    var s1 := Release(s, k);
    var doc := s.active.value;
    var s2 := if w.mode == Always && w.token.Some? && status == Denied && !dismissed && v.currentChoice
                 && SomeUncancelled(s, w.items)
              then WithDoc(s1, doc.(denied := doc.denied + {Notifications})) else s1;
    ItemsStart(s2, w.mode, w.current, w.items, v, env);
    AdvanceRuns(SettleItems(s2, w.mode, w.current, w.items, v, env));
    if status == Ok {
      StartedSame(s, s2, w.mode, w.current, w.items, v);
    } else {
      NoneStarted(s, w.mode, w.current, w.items, v);
      NoneStarted(s2, w.mode, w.current, w.items, v);
    }
  }

  lemma AdvanceRuns(s: State)
    ensures Advance(s).runs == s.runs
  {
  }

  lemma ItemsAreNotices(s: State, k: nat)
    requires Core(s) && k in s.batches && s.batches[k].work.Consenting? && Live(s, s.batches[k].doc)
    ensures forall q :: q in s.batches[k].work.items ==>
              CapabilityOf(q.op) == Some(Notifications) == Some(q.cap) && q.doc == s.active.value.generation
  {
    ActiveIsCurrent(s);
    assert Current(s.batches, s.generation, k) && WorkOk(s.active, s.batches[k].work);
  }

  lemma {:induction false} StartedSame(s: State, s': State, mode: Mode, current: Queued, items: seq<Queued>, v: Verdict)
    requires s'.cancelled == s.cancelled && s'.active == s.active
    ensures Started(s', mode, current, items, v) == Started(s, mode, current, items, v)
  {
    if items != [] { StartedSame(s, s', mode, current, items[1..], v); }
  }

  lemma {:induction false} NoneStarted(s: State, mode: Mode, current: Queued, items: seq<Queued>, v: Verdict)
    requires v.status != Ok
    ensures Started(s, mode, current, items, v) == []
  {
    if items != [] { NoneStarted(s, mode, current, items[1..], v); }
  }
}
