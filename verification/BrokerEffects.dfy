/**
 What begins, exactly when: a new document, a lookup, a watch, a native prompt; and what a denial, a native event and a
 show that ends tell the frame.
 */
module BrokerEffects {
  import opened Wrappers
  import opened Protocol
  import opened BrokerSpec
  import opened BrokerInvariant
  import opened BrokerRequests
  import opened BrokerTheorems
  import P = BrokerPrompt
  import F = BrokerFrames
  import A = BrokerAccess
  import O = BrokerOutcomes
  import R = BrokerReplies
  import Grants

  /********** Documents **********/

  lemma RequestKeepsDocument(s: State, client: Client, id: Id, op: Op, target: Id, env: Env)
    requires op != Connect
    ensures HandleRequest(s, client, id, op, target, env).generation == s.generation
  {
    hide Dispatch, Respond, Prune, Protected, Size;
    if Accepts(s, client) && id !in s.active.value.requests {
      var pruned := Prune(s.active.value, Protected(s));
      var doc := Remember(pruned, id, op);
      if IsCancel(op) { F.CancelMarks(WithDoc(s, doc), doc, id, op, target, env); }
      else { F.AskDispatch(WithDoc(s, doc), doc, id, op, target, env); }
      F.RespondQuiet(WithDoc(s, pruned), s.active.value.generation, id, Failed, Silent, None, TooManyActive);
    }
    if s.active.Some? {
      F.RespondQuiet(s, s.active.value.generation, id, Failed, Silent, None, DuplicateRequest);
    }
  }

  // What ends the document, whatever it is doing.
  predicate Ends(s: State, a: Action) {
    match a
    case Navigate => true
    case Load => !(s.managed && s.active.Some? && s.connects > s.handledConnects)
    case Receive(m) =>
      s.managed && ((m.Request? && m.op == Connect)
                    || (m.Disconnect? && s.active.Some? && s.active.value.client == m.client))
    case _ => false
  }

  lemma MessageEnds(s: State, m: Message, env: Env)
    requires Valid(s)
    ensures HandleMessage(s, m, env).generation != s.generation <==> Ends(s, Receive(m))
  {
    hide HandleRequest, Respond, Core;
    CoreGeneration(s);
    match m
    case Disconnect(client) =>
    case Garbled(client, id) =>
      if s.active.Some? { F.RespondQuiet(s, s.active.value.generation, id, Failed, Silent, None, MalformedRequest); }
    case Request(client, id, op, target) =>
      if op == Connect { R.ConnectReplaces(s, client, id); }
      else { RequestKeepsDocument(s, client, id, op, target, env); }
  }

  lemma CoreGeneration(s: State)
    requires Core(s)
    ensures s.active.Some? ==> s.active.value.generation == s.generation
  {
  }

  lemma LoadEnds(s: State)
    requires Core(s)
    ensures FrameLoaded(s).generation != s.generation <==> Ends(s, Load)
    ensures Revoke(s).generation != s.generation
  {
  }

  lemma ConsentKeepsDocument(s: State, a: Action, env: Env)
    requires Core(s) && Enabled(s, a) && a.PromptSettles?
    ensures Next(s, a, env).generation == s.generation
  {
    hide Core, SettleConsent, Release, F.PutBack, F.VerdictOf;
    if Live(s, s.batches[a.batch].doc) { F.PromptQueue(s, a.batch, a.status, a.dismissed, env); }
    else { F.LateConsent(s, a, env); F.ReleaseQuiet(s, a.batch); }
  }

  /**
   A document ends, and all its requests with it, exactly when the frame navigates, loads without having connected
   since the last load, connects anew, or disconnects under the document's name.
   */
  lemma EndsExactly(s: State, a: Action, env: Env)
    requires Valid(s) && Enabled(s, a)
    ensures Next(s, a, env).generation != s.generation <==> Ends(s, a)
  {
    hide Core, HandleMessage, Allow, Deny, SettleLocation, SettleClipboard, SettleConsent, ResumeShow, WatchEvent,
         NoticeEvent, FrameLoaded, Revoke, Begin, Release;
    match a
    case Receive(m) => MessageEnds(s, m, env);
    case ClickAllow(mode) => F.AllowShrinks(s, mode, env);
    case ClickDeny => F.DenyShrinks(s);
    case LocationSettles(k, fix) => F.SettleLocationShrinks(s, k, fix);
    case ClipboardSettles(k) => F.SettleClipboardShrinks(s, k, env);
    case PromptSettles(k, status, dismissed) => ConsentKeepsDocument(s, a, env);
    case ShowResumes(k) => F.ShowResumesMarks(s, k, env);
    case WatchFires(id, d, fix) => F.WatchMild(s, id, d, fix);
    case NoticeFires(id, handle, event) => F.NoticeMild(s, id, handle, event);
    case Load => LoadEnds(s);
    case Navigate => LoadEnds(s);
    case Manage(managed) =>
    case ReserveElsewhere(count) => F.BeginIsMild(s, 0, count, {}, Elsewhere);
    case ReleaseElsewhere(k) => F.ReleaseQuiet(s, k);
  }

  /** A connection is answered, and starts a document that remembers nothing else, owns nothing and denies nothing. */
  lemma ConnectMeets(s: State, client: Client, id: Id, target: Id, env: Env)
    requires s.managed
    ensures var s' := HandleMessage(s, Request(client, id, Connect, target), env);
            && s'.active == Some(Doc(client, s.generation + 1, {}, 0, map[id := Connect], [id]))
            && s'.generation == s.generation + 1 && Live(s', s'.generation) && s'.queue == [] && s'.prompt == None
            && s'.watches == map[] && s'.notices == map[] && s'.inFlight == {} && s'.cancelled == {}
            && s'.posts == s.posts + [Response(client, id, Ok, Silent, None, NoReason)]
  {
  }

  /********** Location **********/

  predicate Room(s: State, count: nat) { |s.inFlight| + count <= MAX_IN_FLIGHT && |s.pool| + count <= MAX_IN_FLIGHT }

  // A native lookup begins, or none does and the request is answered.
  predicate LooksUp(s: State, s': State, id: Id, env: Env) {
    var begins := env.provider && Room(s, 1) && id !in env.throwing;
    && (id in s'.inFlight <==> begins)
    && (begins ==> s.next in s'.batches && s'.batches[s.next].work == Locating(id) && s'.posts == s.posts)
    && (!begins ==> |s'.posts| == |s.posts| + 1 && s.posts <= s'.posts && s'.batches == s.batches
                    && s'.posts[|s.posts|].id == id && s'.posts[|s.posts|].status == Failed)
  }

  // A native watch begins, or none does and the request is answered.
  predicate StartsWatching(s: State, s': State, id: Id, env: Env) {
    var begins := env.provider && Size(s.watches) < MAX_WATCHES && id !in env.throwing;
    && (id in s'.watches <==> begins)
    && (begins ==> s'.posts == s.posts)
    && (!begins ==> |s'.posts| == |s.posts| + 1 && s.posts <= s'.posts && s'.watches == s.watches
                    && s'.posts[|s.posts|].id == id && s'.posts[|s.posts|].status == Failed)
  }

  lemma LookupBegins(s: State, d: nat, id: Id, env: Env)
    requires Live(s, d) && R.Idle(s, id)
    ensures LooksUp(s, ExecuteGranted(s, d, id, LocationGet, env), id, env)
  {
    hide Fresh;
  }

  lemma WatchBegins(s: State, d: nat, id: Id, env: Env)
    requires Live(s, d) && R.Idle(s, id) && id !in s.watches
    ensures StartsWatching(s, ExecuteGranted(s, d, id, LocationWatch, env), id, env)
  {
    hide Fresh, Size;
  }

  lemma ClickedOnce(s: State, env: Env)
    requires Valid(s) && s.queue != [] && Live(s, s.queue[0].doc) && s.queue[0].cap == Geolocation
    requires A.Stands(env.choice)
    ensures var q, s1 := s.queue[0], s.(queue := Without(s.queue, [s.queue[0]]));
            && Allow(s, Once, env) == Advance(ExecuteGranted(s1, q.doc, q.id, q.op, env))
            && R.Idle(s1, q.id) && q.id !in s.watches && Live(s1, q.doc)
  {
    hide Core, ExecuteGranted, Advance, Without;
    var q := s.queue[0];
    var s1 := s.(queue := Without(s.queue, [q]));
    var s2 := ExecuteGranted(s1, q.doc, q.id, q.op, env);
    assert ExecuteAll(s1, [q], env) == s2 by {
      assert [q][1..] == [];
      assert ExecuteAll(s2, [], env) == s2;
    }
    HeadOwnsNothing(s);
    R.WithoutIds(s.queue, [q], q.id);
    assert [q][0].id == q.id;
  }

  lemma HeadOwnsNothing(s: State)
    requires Core(s) && s.queue != []
    ensures var x := s.queue[0].id; x !in s.inFlight && x !in s.cancelled && x !in s.watches && x !in s.notices
    ensures DistinctIds(s.queue)
  {
    assert s.queue[0].id in Ids(s.queue);
    assert s.queue[0].id !in s.inFlight + s.cancelled + s.watches.Keys + s.notices.Keys;
  }

  /**
   A click on allow begins the native lookup it is for if and only if there is a provider that does not throw and fewer
   than 16 calls are in flight, in this preview and in the window; and the native watch if and only if there is such a
   provider and fewer than 8 are watched. Otherwise the request is answered that it failed.
   */
  lemma ClickLocates(s: State, env: Env)
    requires Valid(s) && s.queue != [] && Live(s, s.queue[0].doc) && s.queue[0].cap == Geolocation
    requires A.Stands(env.choice)
    ensures var q, s' := s.queue[0], Allow(s, Once, env);
            && (q.op == LocationGet ==> LooksUp(s, s', q.id, env))
            && (q.op == LocationWatch ==> StartsWatching(s, s', q.id, env))
  {
    hide Core, ExecuteGranted, Without, Size, R.Idle, DropDead, Allow;
    var q := s.queue[0];
    var s1 := s.(queue := Without(s.queue, [q]));
    ClickedOnce(s, env);
    if q.op == LocationGet { LookupBegins(s1, q.doc, q.id, env); }
    if q.op == LocationWatch { WatchBegins(s1, q.doc, q.id, env); }
  }

  /** The same of a location request that is approved when it arrives. */
  lemma ApprovedLocates(s: State, client: Client, id: Id, op: Op, target: Id, env: Env)
    requires Valid(s) && Accepts(s, client) && id !in s.active.value.requests && CapabilityOf(op) == Some(Geolocation)
    requires Size(Pruned(s).requests) < MAX_REMEMBERED
    requires Geolocation !in s.active.value.denied && env.saved.Some?
    ensures var s' := HandleMessage(s, Request(client, id, op, target), env);
            && (op == LocationGet ==> LooksUp(s, s', id, env))
            && (op == LocationWatch ==> StartsWatching(s, s', id, env))
  {
    hide Core, ExecuteGranted, Size, R.Idle, Pruned, Dispatch, HandleRequest, Registered;
    var s1 := Registered(s, id, op);
    R.CoreHome(s);
    HandleNewEquation(s, client, id, op, target, env);
    RegisteredKeeps(s, id, op);
    R.FreshIdle(s1, id);
    RegisteredStarts(s, id, op, target, env);
    if op == LocationGet { LookupBegins(s1, s.generation, id, env); }
    if op == LocationWatch { WatchBegins(s1, s.generation, id, env); }
  }

  lemma RegisteredStarts(s: State, id: Id, op: Op, target: Id, env: Env)
    requires R.Home(s) && s.active.value.generation == s.generation && CapabilityOf(op) == Some(Geolocation)
    requires Geolocation !in s.active.value.denied && env.saved.Some?
    ensures var s1 := Registered(s, id, op);
            && s1 == s.(active := s1.active) && s1.active.Some? && Live(s1, s.generation)
            && Dispatch(s1, s1.active.value, id, op, target, env) == ExecuteGranted(s1, s.generation, id, op, env)
  {
    hide ExecuteGranted, Size, Protected, Oldest;
  }

  /********** Native prompts and denials **********/

  // New answers with this status, one for each of these requests in order, and no other.
  predicate Answered(s: State, s': State, items: seq<Queued>, status: Status) {
    && |s'.posts| == |s.posts| + |items| && s.posts <= s'.posts
    && forall i :: 0 <= i < |items| ==> IsAnswer(s'.posts[|s.posts| + i], items[i], status)
  }

  predicate IsAnswer(r: Response, q: Queued, status: Status) { r.id == q.id && r.status == status }

  lemma {:induction false} AllAnswered(s: State, items: seq<Queued>, status: Status, reason: Reason)
    requires forall i :: 0 <= i < |items| ==> Live(s, items[i].doc) && items[i].id !in s.cancelled
    ensures Answered(s, AnswerAll(s, items, status, reason), items, status)
    decreases |items|
  {
    if items != [] {
      var s1 := Answer(s, items[0].doc, items[0].id, status, reason);
      var s' := AnswerAll(s1, items[1..], status, reason);
      assert s1.posts == s.posts + [Reply(s, items[0].id, status, Silent, None, reason)];
      AllAnswered(s1, items[1..], status, reason);
      forall i | 0 <= i < |items| ensures IsAnswer(s'.posts[|s.posts| + i], items[i], status) {
        if i == 0 { assert s'.posts[|s.posts|] == s1.posts[|s.posts|]; }
        else {
          assert items[1..][i - 1] == items[i];
          assert IsAnswer(s'.posts[|s1.posts| + (i - 1)], items[1..][i - 1], status);
        }
      }
    }
  }

  // Requests that wait are live and not cancelled.
  lemma WaitingLive(s: State, items: seq<Queued>)
    requires Core(s) && R.Home(s) && forall q :: q in items ==> q in s.queue
    ensures var s1 := s.(queue := Without(s.queue, items));
            && R.Home(s1)
            && forall i :: 0 <= i < |items| ==> Live(s1, items[i].doc) && items[i].id !in s.cancelled
  {
    R.TakenHome(s, items);
    forall i | 0 <= i < |items| ensures Live(s, items[i].doc) && items[i].id !in s.cancelled {
      assert items[i] in items;
      var j :| 0 <= j < |s.queue| && s.queue[j] == items[i];
      assert s.queue[j].id in Ids(s.queue);
      assert s.queue[j].id !in s.inFlight + s.cancelled + s.watches.Keys + s.notices.Keys;
    }
  }

  lemma AdvanceHome(s: State)
    requires R.Home(s)
    ensures var s' := Advance(s); s' == s.(prompt := s'.prompt)
  {
    R.AdvanceBeside(s, 0);
  }

  // The native prompt opens for these requests, or each of them is answered that it failed.
  predicate Opens(s: State, s': State, current: Queued, selected: seq<Queued>, env: Env) {
    var opens := Room(s, |selected|) && !env.promptThrows;
    && (s.next in s'.batches <==> opens)
    && (opens ==>
        && s'.batches[s.next].work.Consenting? && s'.batches[s.next].work.items == selected
        && s'.batches[s.next].work.current == current && s'.inFlight == s.inFlight + Ids(selected)
        && s'.posts == s.posts)
    && (!opens ==> s'.inFlight == s.inFlight && Answered(s, s', selected, Failed))
  }

  lemma OpenedMeets(s: State, mode: Mode, current: Queued, selected: seq<Queued>, revision: nat,
                    token: Option<Grants.Token>, env: Env)
    requires R.Home(s) && selected != [] && s.next !in s.batches
    requires forall i :: 0 <= i < |selected| ==> Live(s, selected[i].doc) && selected[i].id !in s.cancelled
    ensures var s' := R.Opened(s, selected, Consenting(mode, current, selected, revision, token), current.doc, env);
            Opens(s, s', current, selected, env) && s'.queue == s.queue
  {
    hide AnswerAll, Advance, Ids, Fresh, Answered;
    var work := Consenting(mode, current, selected, revision, token);
    var s1, s2 := AnswerAll(s, selected, Failed, TooManyOperations),
                  Begin(s, current.doc, |selected|, Ids(selected), work);
    AllAnswered(s, selected, Failed, TooManyOperations);
    AnswerAllSame(s, selected, Failed, TooManyOperations);
    HomeAfter(s, s1);
    AdvanceHome(s1);
    ToAnswered(s, s1, Advance(s1), selected, Failed);
    AdvanceHome(s);
    AllAnswered(Advance(s), selected, Failed, NativeFailure);
    AnswerAllSame(Advance(s), selected, Failed, NativeFailure);
    FromAnswered(s, Advance(s), AnswerAll(Advance(s), selected, Failed, NativeFailure), selected, Failed);
    AdvanceHome(s2);
  }

  lemma FromAnswered(s: State, s0: State, s': State, items: seq<Queued>, status: Status)
    requires s0.posts == s.posts && Answered(s0, s', items, status)
    ensures Answered(s, s', items, status)
  {
  }

  lemma ToAnswered(s: State, s1: State, s': State, items: seq<Queued>, status: Status)
    requires s'.posts == s1.posts && Answered(s, s1, items, status)
    ensures Answered(s, s', items, status)
  {
  }

  /**
   A click on allow opens the native notification prompt if and only if all it is for find room and the browser does not
   throw: for the request alone, or under an "always" choice for every notification request of its document. If it does
   not open, each of them is answered that it failed. Either way exactly those leave the queue.
   */
  lemma PromptOpensExactly(s: State, mode: Mode, env: Env)
    requires Valid(s) && s.queue != [] && Live(s, s.queue[0].doc) && s.queue[0].cap == Notifications
    requires A.Stands(env.choice)
    ensures var s', current := Allow(s, mode, env), s.queue[0];
            var selected := if mode == Always && env.choice.Ready?
                            then Matching(s.queue, current.doc, Notifications) else [current];
            s'.queue == Without(s.queue, selected) && Opens(s, s', current, selected, env)
  {
    hide Core, ResolveNotificationConsent, R.Opened, Advance, Matching, Without, Answered, R.Home;
    var current, doc := s.queue[0], s.active.value;
    var token := if env.choice.Ready? then Some(env.choice.token) else None;
    var selected := if mode == Always && token.Some? then Matching(s.queue, current.doc, Notifications) else [current];
    var s0 := WithDoc(s, doc.(revision := doc.revision + 1));
    var s1 := s0.(queue := Without(s.queue, selected));
    R.CoreHome(s);
    WaitingLive(s, selected);
    NextIsFree(s);
    SameHome(s.(queue := s1.queue), s1);
    assert current in s.queue;
    assert selected != [];
    OpenedMeets(s1, mode, current, selected, doc.revision + 1, token, env);
    R.ResolveIs(s0, mode, current, doc.revision + 1, token, env);
    OpensSame(s, s1, Allow(s, mode, env), current, selected, env);
  }

  lemma NextIsFree(s: State)
    requires Core(s)
    ensures s.next !in s.batches
  {
  }

  lemma SameHome(s: State, s': State)
    requires R.Home(s) && s' == s.(active := s'.active) && s'.active.Some?
    requires s'.active.value.generation == s.active.value.generation
    ensures R.Home(s') && forall d :: Live(s', d) <==> Live(s, d)
  {
  }

  lemma OpensSame(s: State, s1: State, s': State, current: Queued, selected: seq<Queued>, env: Env)
    requires Opens(s1, s', current, selected, env) && s1 == s.(active := s1.active, queue := s1.queue)
    ensures Opens(s, s', current, selected, env)
  {
    hide Answered;
    if !(Room(s, |selected|) && !env.promptThrows) { FromAnswered(s, s1, s', selected, Failed); }
  }

  /** A click on deny answers every request of its kind and document that it was denied, in order, and no other. */
  lemma DenySays(s: State)
    requires Valid(s) && s.queue != [] && Live(s, s.queue[0].doc)
    ensures Answered(s, Deny(s), Matching(s.queue, s.queue[0].doc, s.queue[0].cap), Denied)
  {
    hide Core, AnswerAll, Advance, Matching, Without, Answered, R.Home;
    var current, doc := s.queue[0], s.active.value;
    var denied := Matching(s.queue, current.doc, current.cap);
    var s0 := WithDoc(s, doc.(denied := doc.denied + {current.cap},
                              revision := if current.cap == Notifications then doc.revision + 1 else doc.revision));
    var s1 := s0.(queue := Without(s.queue, denied));
    var s2 := AnswerAll(s1, denied, Denied, Refused);
    R.CoreHome(s);
    WaitingLive(s, denied);
    SameHome(s.(queue := s1.queue), s1);
    AllAnswered(s1, denied, Denied, Refused);
    AnswerAllSame(s1, denied, Denied, Refused);
    HomeAfter(s1, s2);
    AdvanceHome(s2);
    FromAnswered(s, s1, s2, denied, Denied);
    ToAnswered(s, s2, Advance(s2), denied, Denied);
  }

  lemma AnswerAllSame(s: State, items: seq<Queued>, status: Status, reason: Reason)
    ensures AnswerAll(s, items, status, reason) == s.(posts := AnswerAll(s, items, status, reason).posts)
  {
  }

  lemma HomeAfter(s: State, s': State)
    requires R.Home(s) && s' == s.(posts := s'.posts)
    ensures R.Home(s')
  {
  }

  /********** Clipboard siblings **********/

  // The call is handed over, and its "always" choice is saved while the page is active.
  predicate SavesAlways(s: State, w: Work, env: Env)
    requires w.Clipping?
  {
    && w.id !in s.cancelled && BrokerSpec.Allowed(s, w.cap) && env.currentBefore && !env.failed && env.currentAfter
    && w.mode == Always && w.token.Some? && env.stored && env.activated
  }

  /**
   A clipboard call that settles takes other requests off the queue if and only if its result is handed over and its
   "always" choice was saved while the page was active; then it takes exactly those of its capability and document.
   */
  lemma SiblingsLeaveExactly(s: State, k: nat, env: Env)
    requires Core(s) && s.managed && k in s.batches && s.batches[k].work.Clipping? && Live(s, s.batches[k].doc)
    ensures var d, w := s.batches[k].doc, s.batches[k].work;
            SettleClipboard(s, k, env).queue
            == if SavesAlways(s, w, env) then Without(s.queue, Matching(s.queue, d, w.cap)) else s.queue
  {
    hide Core, Advance, ExecuteSiblings, Matching, Without, R.Home, Respond;
    var d, w := s.batches[k].doc, s.batches[k].work;
    var s2 := Land(Release(s, k), w.id);
    R.CoreHome(s);
    LandedHome(s, k, w.id);
    F.RespondQuiet(s2, d, w.id, Denied, Silent, None, ApprovalChanged);
    F.RespondQuiet(s2, d, w.id, Failed, Silent, None, NativeFailure);
    if w.id !in s.cancelled {
      var s3 := Answer(s2, d, w.id, Ok, NoReason);
      R.RespondSame(s2, d, w.id, Ok, Silent, None, NoReason);
      HomeAfter(s2, s3);
      AdvanceHome(s3);
      SiblingsQueue(s3, d, w, env);
      R.OutcomeIs(s2, d, w, env);
    }
  }

  lemma LandedHome(s: State, k: nat, id: Id)
    requires R.Home(s) && k in s.batches
    ensures R.Home(Land(Release(s, k), id))
  {
  }

  lemma SiblingsQueue(s: State, d: nat, w: Work, env: Env)
    requires R.Home(s) && w.Clipping?
    ensures R.Handover(s, d, w, env).queue
         == if w.mode == Always && w.token.Some? && env.stored && env.activated
            then Without(s.queue, Matching(s.queue, d, w.cap)) else s.queue
  {
    hide Advance, ExecuteSiblings, Matching, Without, R.Home;
    var siblings := Matching(s.queue, d, w.cap);
    var s1 := s.(queue := Without(s.queue, siblings));
    R.TakenHome(s, siblings);
    TakenStaysHome(s, s1);
    F.SiblingsQuiet(s1, siblings, w.token, env);
    AdvanceHome(s);
    SiblingsHome(s1, siblings, w.token, env);
    AdvanceHome(ExecuteSiblings(s1, siblings, w.token, env));
  }

  lemma TakenStaysHome(s: State, s1: State)
    requires R.Home(s) && R.SamePage(s, s1)
    ensures R.Home(s1)
  {
  }

  lemma {:induction false} SiblingsHome(s: State, items: seq<Queued>, token: Option<Grants.Token>, env: Env)
    requires R.Home(s)
    ensures R.Home(ExecuteSiblings(s, items, token, env))
    decreases |items|
  {
    hide ExecuteClipboard;
    if items != [] {
      var q := items[0];
      var s1 := ExecuteClipboard(s, q.doc, q.id, q.op, Saved, token, env);
      R.CopyBeside(s, q.doc, q.id, q.op, Saved, token, env, q.id + 1);
      SiblingsHome(s1, items[1..], token, env);
    }
  }

  /********** Native events **********/

  function StatusOf(fix: Fix): Status {
    match fix
    case Position => Ok
    case NoPosition => Failed
    case PermissionDenied => Denied
  }

  lemma TablesAreOwn(s: State)
    requires Core(s) && s.managed
    ensures forall x :: x in s.watches ==> Live(s, s.watches[x].doc)
    ensures forall x :: x in s.notices ==> Live(s, s.notices[x].doc)
  {
  }

  /** Each event of a native watch is told, unless its request was cancelled, and only a denial ends the watch. */
  lemma WatchTells(s: State, id: Id, fix: Fix)
    requires Valid(s) && s.managed && id in s.watches
    ensures var s' := WatchEvent(s, id, s.watches[id].doc, fix);
            && s'.watches == (if fix == PermissionDenied then s.watches - {id} else s.watches)
            && s'.posts == if id in s.cancelled then s.posts
                           else s.posts + [Reply(s, id, StatusOf(fix), Silent, Some(id),
                                                 if fix == Position then NoReason else NativeFailure)]
  {
    hide Core;
    TablesAreOwn(s);
  }

  /** Each event of a foreground notification is told, unless it was cancelled, and it goes when it closes or fails. */
  lemma NoticeTells(s: State, id: Id, event: Event)
    requires Valid(s) && s.managed && id in s.notices && s.notices[id].Native? && event != Silent
    ensures var s' := NoticeEvent(s, id, s.notices[id].handle, event);
            && s'.notices == (if event == Closed || event == Errored then s.notices - {id} else s.notices)
            && s'.posts == if id in s.cancelled then s.posts
                           else s.posts + [Reply(s, id, if event == Errored then Failed else Ok, event, Some(id),
                                                 if event == Errored then NativeFailure else NoReason)]
  {
    hide Core;
    TablesAreOwn(s);
  }

  /********** Shows **********/

  // The show goes on and tells nothing, or it ends with an answer: shown, and the notification is kept; or not, and
  // nothing is kept that was not there.
  predicate Tells(s: State, s': State, k: nat)
    requires k in s.batches && s.batches[k].work.Showing?
  {
    var id := s.batches[k].work.id;
    if k in s'.batches then
      s'.batches[k].work.Showing? && s'.batches[k].work.id == id
      && forall i :: |s.posts| <= i < |s'.posts| ==> s'.posts[i].id != id
    else
      && |s'.posts| > |s.posts| && s'.posts[|s'.posts| - 1].id == id
      && (s'.posts[|s'.posts| - 1].status == Ok ==> id in s'.notices)
      && (s'.posts[|s'.posts| - 1].status != Ok ==> forall x :: x in s'.notices ==> x in s.notices)
  }

  // The slot that the show keeps for its notification is still there.
  predicate Reserved(s: State, k: nat)
    requires k in s.batches && s.batches[k].work.Showing?
  {
    var id := s.batches[k].work.id;
    id in s.notices && s.notices[id] == Worker(k, s.batches[k].doc, true)
  }

  lemma EndTells(s: State, s1: State, k: nat, status: Status, event: Event, reason: Reason)
    requires k in s.batches && s.batches[k].work.Showing? && Live(s, s.batches[k].doc)
    requires s.batches[k].work.id !in s.cancelled && s1 == s.(notices := s1.notices, posts := s1.posts)
    requires |s1.posts| >= |s.posts|
    requires status == Ok ==> s.batches[k].work.id in s1.notices
    requires status != Ok ==> forall x :: x in s1.notices ==> x in s.notices
    ensures var d, id := s.batches[k].doc, s.batches[k].work.id;
            Tells(s, FinishShow(Respond(s1, d, id, status, event, Some(id), reason), k), k)
  {
  }

  lemma SuspendTells(s: State, s1: State, k: nat, phase: Phase, registered: bool)
    requires k in s.batches && s.batches[k].work.Showing? && s1 == s.(notices := s1.notices)
    ensures Tells(s, Suspend(s1, k, phase, registered), k)
  {
  }

  lemma DisplayTells(s: State, k: nat, registered: bool, env: Env)
    requires k in s.batches && s.batches[k].work.Showing? && Live(s, s.batches[k].doc)
    requires s.batches[k].work.id !in s.cancelled
    ensures Tells(s, Display(s, k, registered, env), k)
  {
    hide FinishShow, Respond, Suspend, Tells, Size;
    var d, id := s.batches[k].doc, s.batches[k].work.id;
    EndTells(s, s, k, Failed, Silent, TooManyNotifications);
    var reserved := s.(notices := s.notices[id := Worker(k, d, true)]);
    EndTells(s, reserved.(notices := reserved.notices[id := Native(k, d)]), k, Ok, Silent, NoReason);
    EndTells(s, DeleteReservation(reserved, id, k), k, Failed, Silent, Protocol.Unavailable);
    SuspendTells(s, reserved, k, if registered then Displaying else FindFallback, registered);
  }

  lemma {:induction false} ReconcilePending(s: State, d: nat, vanished: seq<Id>, id: Id)
    ensures var s' := Reconcile(s, d, vanished);
            && s' == s.(notices := s'.notices, posts := s'.posts) && s.posts <= s'.posts
            && (forall x :: x in s'.notices ==> x in s.notices && s'.notices[x] == s.notices[x])
            && (id in s.notices && s.notices[id].Worker? && s.notices[id].pending ==> id in s'.notices)
            && (!Reconcilable(s, d, id) ==> forall i :: |s.posts| <= i < |s'.posts| ==> s'.posts[i].id != id)
    decreases |vanished|
  {
    if vanished != [] && Live(s, d) {
      var x := vanished[0];
      var s1 := if Reconcilable(s, d, x)
                then Respond(s.(notices := s.notices - {x}), d, x, Ok, Closed, Some(x), NoReason) else s;
      ReconcilePending(s1, d, vanished[1..], id);
      var s' := Reconcile(s, d, vanished);
      assert s' == Reconcile(s1, d, vanished[1..]);
      if !Reconcilable(s, d, id) {
        forall i | |s.posts| <= i < |s'.posts| ensures s'.posts[i].id != id {
          if i < |s1.posts| { assert s'.posts[i] == s1.posts[i]; }
        }
      }
    }
  }

  lemma CatchTells(s: State, k: nat)
    requires k in s.batches && s.batches[k].work.Showing? && Live(s, s.batches[k].doc)
    requires s.batches[k].work.id !in s.cancelled
    ensures Tells(s, CatchShow(s, k), k)
  {
    hide FinishShow, Respond, Tells;
    EndTells(s, DeleteReservation(s, s.batches[k].work.id, k), k, Failed, Errored, NativeFailure);
  }

  // What follows a reconciliation that told of other notifications.
  lemma ReconciledTells(s: State, s1: State, s': State, k: nat)
    requires k in s.batches && s.batches[k].work.Showing? && s1 == s.(notices := s1.notices, posts := s1.posts)
    requires s.posts <= s1.posts && s1.posts <= s'.posts && (forall x :: x in s1.notices ==> x in s.notices)
    requires forall i :: |s.posts| <= i < |s1.posts| ==> s1.posts[i].id != s.batches[k].work.id
    requires Tells(s1, s', k)
    ensures Tells(s, s', k)
  {
    var id := s.batches[k].work.id;
    if k in s'.batches {
      forall i | |s.posts| <= i < |s'.posts| ensures s'.posts[i].id != id {
        if i < |s1.posts| { assert s'.posts[i] == s1.posts[i]; }
      }
    }
  }

  lemma RespondGrows(s: State, d: nat, id: Id, status: Status, event: Event, about: Option<Id>, reason: Reason)
    ensures s.posts <= Respond(s, d, id, status, event, about, reason).posts
  {
  }

  lemma DisplayGrows(s: State, k: nat, registered: bool, env: Env)
    requires k in s.batches && s.batches[k].work.Showing?
    ensures s.posts <= Display(s, k, registered, env).posts
  {
    hide Size, Respond;
    var d, id := s.batches[k].doc, s.batches[k].work.id;
    var reserved := s.(notices := s.notices[id := Worker(k, d, true)]);
    RespondGrows(s, d, id, Failed, Silent, Some(id), TooManyNotifications);
    RespondGrows(reserved.(notices := reserved.notices[id := Native(k, d)]), d, id, Ok, Silent, Some(id), NoReason);
    RespondGrows(DeleteReservation(reserved, id, k), d, id, Failed, Silent, Some(id), Protocol.Unavailable);
  }

  lemma FirstTells(s: State, k: nat, env: Env)
    requires k in s.batches && s.batches[k].work.Showing? && Live(s, s.batches[k].doc)
    requires s.batches[k].work.id !in s.cancelled && !Reconcilable(s, s.batches[k].doc, s.batches[k].work.id)
    ensures Tells(s, ResumeFirstReconcile(s, k, env), k)
  {
    hide Display, Reconcile, Tells, Reconcilable;
    var d, id := s.batches[k].doc, s.batches[k].work.id;
    ReconcilePending(s, d, env.vanished, id);
    var s1 := if env.failed then s else Reconcile(s, d, env.vanished);
    DisplayTells(s1, k, true, env);
    DisplayGrows(s1, k, true, env);
    ReconciledTells(s, s1, Display(s1, k, true, env), k);
  }

  lemma LastTells(s: State, k: nat, env: Env)
    requires k in s.batches && s.batches[k].work.Showing? && Live(s, s.batches[k].doc)
    requires s.batches[k].work.id !in s.cancelled && Reserved(s, k)
    ensures Tells(s, ResumeLastReconcile(s, k, env), k)
  {
    hide Reconcile, Tells, FinishShow, Respond, Size;
    var d, id := s.batches[k].doc, s.batches[k].work.id;
    ReconcilePending(s, d, env.vanished, id);
    var s1 := if env.failed then s else Reconcile(s, d, env.vanished);
    EndTells(s, s1.(notices := s1.notices[id := Worker(k, d, false)]), k, Ok, Shown, NoReason);
  }

  lemma LastSilent(s: State, k: nat, env: Env)
    requires k in s.batches && s.batches[k].work.Showing? && Live(s, s.batches[k].doc)
    requires s.batches[k].work.id !in s.cancelled && s.batches[k].work.id !in s.notices
    ensures var s' := ResumeLastReconcile(s, k, env);
            k !in s'.batches && forall i :: |s.posts| <= i < |s'.posts| ==> s'.posts[i].id != s.batches[k].work.id
  {
    hide Reconcile;
    ReconcilePending(s, s.batches[k].doc, env.vanished, s.batches[k].work.id);
  }

  /**
   While its document lives and it is not cancelled, each continuation of a show goes on without a word about it, or
   ends it with one answer: that it is shown, and then the broker keeps the notification; or that it is not, and then
   the broker keeps none that it did not have. Only one that lost its reserved slot at the very end ends in silence.
   */
  lemma ShowEndsExactly(s: State, k: nat, env: Env)
    requires k in s.batches && s.batches[k].work.Showing? && Live(s, s.batches[k].doc)
    requires s.batches[k].work.id !in s.cancelled && s.batches[k].work.phase != Withdrawing
    requires s.batches[k].work.id in s.notices ==> Reserved(s, k)
    ensures var s', id := ResumeShow(s, k, env), s.batches[k].work.id;
            if s.batches[k].work.phase == LastReconcile && !Reserved(s, k)
            then k !in s'.batches && forall i :: |s.posts| <= i < |s'.posts| ==> s'.posts[i].id != id
            else Tells(s, s', k)
  {
    hide Display, CatchShow, FinishShow, Respond, Suspend, Tells, ResumeFirstReconcile, ResumeLastReconcile;
    var id, registered := s.batches[k].work.id, s.batches[k].work.registered;
    match s.batches[k].work.phase
    case FindWorker =>
      DisplayTells(s, k, false, env);
      SuspendTells(s, s, k, FirstReconcile, true);
    case FirstReconcile => FirstTells(s, k, env);
    case FindFallback =>
      CatchTells(s, k);
      EndTells(s, DeleteReservation(s, id, k), k, Failed, Silent, Protocol.Unavailable);
      SuspendTells(s, s, k, Displaying, registered);
    case Displaying =>
      CatchTells(s, k);
      SuspendTells(s, s, k, LastReconcile, registered);
    case LastReconcile =>
      if Reserved(s, k) { LastTells(s, k, env); } else { LastSilent(s, k, env); }
  }

  // Show k of request id goes on, or has ended with this answer; and the notification is kept, or is not.
  predicate ShowIs(s: State, s': State, k: nat, id: Id, goesOn: bool, status: Status, kept: bool) {
    && (k in s'.batches <==> goesOn) && (id in s'.notices <==> kept)
    && (goesOn ==> s'.posts == s.posts)
    && (!goesOn ==> && |s'.posts| == |s.posts| + 1 && s.posts <= s'.posts
                    && s'.posts[|s.posts|].id == id && s'.posts[|s.posts|].status == status)
  }

  lemma RespondIs(s: State, s1: State, k: nat, status: Status, reason: Reason, kept: bool)
    requires k in s.batches && s.batches[k].work.Showing? && Live(s, s.batches[k].doc)
    requires s.batches[k].work.id !in s.cancelled && s1 == s.(notices := s1.notices)
    requires s.batches[k].work.id in s1.notices <==> kept
    ensures var d, id := s.batches[k].doc, s.batches[k].work.id;
            ShowIs(s, FinishShow(Respond(s1, d, id, status, Silent, Some(id), reason), k), k, id, false, status, kept)
  {
  }

  lemma DisplayIs(s: State, k: nat, registered: bool, env: Env)
    requires k in s.batches && s.batches[k].work.Showing? && Live(s, s.batches[k].doc)
    requires s.batches[k].work.id !in s.cancelled && s.batches[k].work.id !in s.notices
    ensures var id, slot := s.batches[k].work.id, Size(s.notices) < MAX_NOTIFICATIONS;
            var shown := slot && id in env.constructed;
            ShowIs(s, Display(s, k, registered, env), k, id, slot && !shown && env.worker, if shown then Ok else Failed,
                   slot && (shown || env.worker))
  {
    hide FinishShow, Respond, Size;
    var d, id := s.batches[k].doc, s.batches[k].work.id;
    var reserved := s.(notices := s.notices[id := Worker(k, d, true)]);
    RespondIs(s, s, k, Failed, TooManyNotifications, false);
    RespondIs(s, reserved.(notices := reserved.notices[id := Native(k, d)]), k, Ok, NoReason, true);
    RespondIs(s, DeleteReservation(reserved, id, k), k, Failed, Protocol.Unavailable, false);
  }

  lemma BeginIs(s: State, d: nat, id: Id)
    requires s.next !in s.batches
    ensures var s1 := Begin(s, d, 1, {id}, Showing(id, FindWorker, false));
            && s1.batches == s.batches[s.next := s1.batches[s.next]]
            && s1.batches[s.next].work == Showing(id, FindWorker, false) && s1.batches[s.next].doc == d
            && s1.posts == s.posts && s1.notices == s.notices && s1.cancelled == s.cancelled
            && (forall d :: Live(s1, d) <==> Live(s, d))
  {
  }

  /**
   A show that is asked for is refused without native permission or without room; a notification that the page can
   construct is shown at once while fewer than 16 are kept; otherwise the show goes on, if there is a worker, and keeps
   a slot if one is free.
   */
  lemma ShowBeginsExactly(s: State, d: nat, id: Id, env: Env)
    requires Live(s, d) && R.Idle(s, id) && s.next !in s.batches && id !in s.notices
    ensures var slot, begins := Size(s.notices) < MAX_NOTIFICATIONS, env.nativeGranted && Room(s, 1);
            var shown := begins && slot && id in env.constructed;
            ShowIs(s, ShowNotification(s, d, id, env), s.next, id, begins && !shown && env.worker,
                   if !env.nativeGranted then Denied else if shown then Ok else Failed,
                   begins && slot && (shown || env.worker))
  {
    hide Size, Display, Begin;
    BeginIs(s, d, id);
    if env.nativeGranted && Room(s, 1) {
      DisplayIs(Begin(s, d, 1, {id}, Showing(id, FindWorker, false)), s.next, false, env);
    }
  }

  /********** Replies to messages **********/

  /** A message that cannot be parsed is told so, exactly if it is from the document of the managed frame. */
  lemma GarbledMeets(s: State, client: Client, id: Id, env: Env)
    requires Valid(s)
    ensures var heard := s.managed && s.active.Some? && s.active.value.client == client && id !in s.cancelled;
            HandleMessage(s, Garbled(client, id), env)
            == if heard then s.(posts := s.posts + [Reply(s, id, Failed, Silent, None, MalformedRequest)]) else s
  {
    hide Core;
    CoreGeneration(s);
  }

  /** A request of an unknown document, or under a remembered id, is told so, and nothing else happens. */
  lemma RepeatMeets(s: State, client: Client, id: Id, op: Op, target: Id, env: Env)
    requires Valid(s) && s.managed && op != Connect
    ensures var s' := HandleMessage(s, Request(client, id, op, target), env);
            && (s.active.None? || s.active.value.client != client ==>
                s' == s.(posts := s.posts + [Response(client, id, Failed, Silent, None, UnknownDocument)]))
            && (Accepts(s, client) && id in s.active.value.requests && id !in s.cancelled ==>
                s' == s.(posts := s.posts + [Reply(s, id, Failed, Silent, None, DuplicateRequest)]))
  {
    hide Core, Dispatch, Prune, Protected, Size;
    CoreGeneration(s);
  }

  /** Displayed notifications that the browser no longer shows go, exactly those, and each is told, unless cancelled. */
  lemma {:induction false} ReconciledExactly(s: State, d: nat, vanished: seq<Id>, x: Id)
    requires Live(s, d)
    ensures var s', goes := Reconcile(s, d, vanished), x in vanished && Reconcilable(s, d, x);
            && (x in s'.notices <==> x in s.notices && !goes)
            && R.Told(s'.posts, x) == R.Told(s.posts, x) + if goes && x !in s.cancelled then 1 else 0
    decreases |vanished|
  {
    if vanished != [] {
      var id := vanished[0];
      var freed := s.(notices := s.notices - {id});
      var s1 := if Reconcilable(s, d, id) then Respond(freed, d, id, Ok, Closed, Some(id), NoReason) else s;
      R.ToldMore(s.posts, Reply(freed, id, Ok, Closed, Some(id), NoReason), x);
      ReconciledExactly(s1, d, vanished[1..], x);
      assert x in vanished <==> x == id || x in vanished[1..];
    }
  }

  /** A close that is heard tells that a shown notification is closed, once, and is acknowledged. */
  lemma CloseSays(s: State, client: Client, id: Id, x: Id, env: Env)
    requires Valid(s) && Accepts(s, client) && id !in s.active.value.requests
    requires Size(Pruned(s).requests) < MAX_REMEMBERED
    requires x in s.active.value.requests && Cancels(NotificationClose, s.active.value.requests[x]) && O.Busy(s, x)
    ensures var s' := HandleMessage(s, Request(client, id, NotificationClose, x), env);
            s'.posts == s.posts
                        + (if s.active.value.requests[x] == NotificationShow && x !in s.cancelled
                           then [Reply(s, x, Ok, Closed, Some(x), NoReason)] else [])
                        + [Reply(s, id, Ok, Silent, Some(x), NoReason)]
  {
    hide Core, CloseNotification, Pruned, Size, O.Busy;
    O.CancelFacts(s, id, NotificationClose);
    HandleNewEquation(s, client, id, NotificationClose, x, env);
    O.RegisteredSame(s, id, NotificationClose, x);
    RegisteredClient(s, id, NotificationClose);
    BusyStays(s, Registered(s, id, NotificationClose), x);
    CloseTells(Registered(s, id, NotificationClose), id, x);
  }

  lemma RegisteredClient(s: State, id: Id, op: Op)
    requires s.active.Some?
    ensures Registered(s, id, op).active.Some? && Registered(s, id, op).active.value.client == s.active.value.client
  {
    hide Size, Protected;
  }

  lemma BusyStays(s: State, s1: State, x: Id)
    requires O.Busy(s, x) && s1 == s.(active := s1.active)
    ensures O.Busy(s1, x)
  {
  }

  lemma CloseTells(s: State, id: Id, x: Id)
    requires Core(s) && s.active.Some? && Live(s, s.active.value.generation) && id !in s.cancelled && id != x
    requires x in s.active.value.requests && Cancels(NotificationClose, s.active.value.requests[x]) && O.Busy(s, x)
    ensures var s' := CloseNotification(s, s.active.value, id, x);
            s'.posts == s.posts
                        + (if s.active.value.requests[x] == NotificationShow && x !in s.cancelled
                           then [Reply(s, x, Ok, Closed, Some(x), NoReason)] else [])
                        + [Reply(s, id, Ok, Silent, Some(x), NoReason)]
  {
    hide Core, Advance, Discard, Ids;
    O.KindsOfWork(s, x);
    CoreGeneration(s);
    var s1 := if s.active.value.requests[x] == NotificationShow
              then Respond(s, s.generation, x, Ok, Closed, Some(x), NoReason) else s;
    var pending := x in s.notices && s.notices[x].Worker? && s.notices[x].pending;
    var s2 := s1.(cancelled := if x in s.inFlight || pending then s.cancelled + {x} else s.cancelled,
                  notices := s.notices - {x}, queue := Discard(s.queue, s.generation, x));
    AdvancePosts(s2);
  }

  lemma AdvancePosts(s: State)
    ensures var s' := Advance(s); s' == s.(queue := s'.queue, prompt := s'.prompt)
  {
  }

  // The page can construct the notification, and a slot is free for it.
  predicate ShownAtOnce(s: State, id: Id, env: Env) { Size(s.notices) < MAX_NOTIFICATIONS && id in env.constructed }

  // A notification that the page could not construct is left to a worker, if a slot is free.
  predicate LeftToWorker(s: State, id: Id, env: Env) {
    Size(s.notices) < MAX_NOTIFICATIONS && id !in env.constructed && env.worker
  }

  // What the next continuation of a show depends on: the notices that are kept once it has looked for closed ones.
  function Looked(s: State, k: nat, env: Env): State
    requires k in s.batches
  {
    if s.batches[k].work.Showing? && s.batches[k].work.phase == FirstReconcile && !env.failed
    then Reconcile(s, s.batches[k].doc, env.vanished) else s
  }

  /**
   While its document lives and it is not cancelled, a show goes on exactly if: its worker was found, while every slot
   was taken; or it could not be constructed and was left to a worker; or that worker was found; or it displayed it.
   It ends shown exactly if it was constructed, or after the last reconciliation.
   */
  lemma ShowGoesOnExactly(s: State, k: nat, env: Env)
    requires k in s.batches && s.batches[k].work.Showing? && Live(s, s.batches[k].doc)
    requires s.batches[k].work.id !in s.cancelled && s.batches[k].work.phase != Withdrawing
    requires s.batches[k].work.phase == FindWorker || s.batches[k].work.phase == FirstReconcile ==>
               s.batches[k].work.id !in s.notices
    ensures var id, s', seen := s.batches[k].work.id, ResumeShow(s, k, env), Looked(s, k, env);
            && (k in s'.batches
                <==> match s.batches[k].work.phase
                     case FindWorker => if !env.failed && env.found then true else LeftToWorker(s, id, env)
                     case FirstReconcile => LeftToWorker(seen, id, env)
                     case FindFallback => !env.failed && env.found
                     case Displaying => !env.failed
                     case LastReconcile => false)
            && (k !in s'.batches && s.batches[k].work.phase != LastReconcile ==>
                && |s'.posts| > 0 && s'.posts[|s'.posts| - 1].id == id
                && (s'.posts[|s'.posts| - 1].status == Ok
                    <==> (s.batches[k].work.phase == FindWorker || s.batches[k].work.phase == FirstReconcile)
                         && ShownAtOnce(seen, id, env)))
  {
    hide Display, FinishShow, Respond, Reconcile, ResumeLastReconcile, Size;
    var d, id := s.batches[k].doc, s.batches[k].work.id;
    match s.batches[k].work.phase
    case FindWorker => DisplayIs(s, k, false, env);
    case FirstReconcile =>
      ReconcilePending(s, d, env.vanished, id);
      DisplayIs(Looked(s, k, env), k, true, env);
    case FindFallback =>
      CatchIs(s, k);
      RespondIs(s, DeleteReservation(s, id, k), k, Failed, Protocol.Unavailable, KeptAfter(s, id, k));
    case Displaying => CatchIs(s, k);
    case LastReconcile => LastEnds(s, k, env);
  }

  predicate KeptAfter(s: State, id: Id, k: nat) { id in DeleteReservation(s, id, k).notices }

  lemma CatchIs(s: State, k: nat)
    requires k in s.batches && s.batches[k].work.Showing? && Live(s, s.batches[k].doc)
    requires s.batches[k].work.id !in s.cancelled
    ensures var s', id := CatchShow(s, k), s.batches[k].work.id;
            && k !in s'.batches && |s'.posts| == |s.posts| + 1
            && s'.posts[|s.posts|].id == id && s'.posts[|s.posts|].status == Failed
  {
  }

  lemma LastEnds(s: State, k: nat, env: Env)
    requires k in s.batches && s.batches[k].work.Showing?
    ensures k !in ResumeLastReconcile(s, k, env).batches
  {
    hide Reconcile, Respond;
    var d, id := s.batches[k].doc, s.batches[k].work.id;
    ReconcilePending(s, d, env.vanished, id);
    var s1 := if env.failed then s else Reconcile(s, d, env.vanished);
    F.RespondQuiet(s1.(notices := s1.notices[id := Worker(k, d, false)]), d, id, Ok, Shown, Some(id), NoReason);
    R.RespondSame(s1.(notices := s1.notices[id := Worker(k, d, false)]), d, id, Ok, Shown, Some(id), NoReason);
  }

  /********** What is forgotten **********/

  // A remembered request that may be forgotten: neither the connection nor an owner.
  predicate Forgettable(doc: Doc, owners: set<Id>, x: Id) {
    !(x in doc.requests && doc.requests[x] == Connect) && x !in owners
  }

  // The first of them, oldest first.
  ghost predicate First(doc: Doc, owners: set<Id>, x: Id) {
    exists i :: 0 <= i < |doc.order| && doc.order[i] == x && Forgettable(doc, owners, x)
                && forall j :: 0 <= j < i ==> !Forgettable(doc, owners, doc.order[j])
  }

  /** A new request makes a document forget exactly one: with 128 remembered, the oldest that owns nothing any more. */
  lemma ForgetsExactly(doc: Doc, owners: set<Id>, x: Id)
    requires DocOk(doc) && x in doc.requests
    ensures x !in Prune(doc, owners).requests <==> Size(doc.requests) >= MAX_REMEMBERED && First(doc, owners, x)
    ensures x in Prune(doc, owners).requests ==> Prune(doc, owners).requests[x] == doc.requests[x]
  {
    hide Size;
    OldestResult(doc, owners, 0);
    var oldest := Oldest(doc, owners, 0);
    if First(doc, owners, x) {
      var i :| 0 <= i < |doc.order| && doc.order[i] == x && Forgettable(doc, owners, x)
               && forall j :: 0 <= j < i ==> !Forgettable(doc, owners, doc.order[j]);
      assert oldest == Some(i);
    }
  }
}
