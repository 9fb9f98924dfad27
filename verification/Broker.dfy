/**
 The broker hook as a class (apps/web/src/browser-permissions.tsx): its refs are fields, its callbacks are
 methods, and every method does exactly the step that BrokerSpec describes. What is proved about those steps
 holds for these methods.

 A pending promise is an entry of `batches`; the logs of posts and native runs are ghost.
 */
module Broker {
  import opened Wrappers
  import opened Protocol
  import opened BrokerSpec
  import V = BrokerInvariant
  import R = BrokerRequests
  import T = BrokerTheorems
  import A = BrokerAccess
  import Grants

  // What the callbacks that depend on no answer of the window are given.
  const NOTHING := Env(None, false, false, false, false, {}, {}, {}, Grants.Superseded, false, false, false, false,
                       false, false, [])

  // What every callback leaves behind: the invariant, with the slots of the window exactly those of unsettled native
  // work and the shown prompt the head of the queue; and it started native work only where nothing was denied.
  ghost predicate Kept(s: State, s': State) {
    && V.Valid(s')
    && s'.pool == T.Slots(s'.batches) && |s'.pool| <= MAX_IN_FLIGHT
    && s'.prompt == (if s'.queue == [] then None else Some(s'.queue[0]))
    && s.runs <= s'.runs
    && forall i :: |s.runs| <= i < |s'.runs| && s.active.Some? && s'.runs[i].doc == s.generation
         ==> s'.runs[i].cap !in s.active.value.denied
  }

  // The step began native work only with consent.
  ghost predicate Within(s: State, a: Action, env: Env, s': State) { A.Begins(s, s', A.PermitFor(s, a, env)) }

  lemma CallbackKeeps(s: State, a: Action, env: Env)
    requires V.Valid(s) && Enabled(s, a)
    ensures Kept(s, Next(s, a, env))
  {
    hide V.Core;
    R.NextKeepsValid(s, a, env);
    var s' := Next(s, a, env);
    PoolParts(s');
  }

  lemma AllowKeeps(s: State, mode: Mode, env: Env)
    requires V.Valid(s) && mode != Saved
    ensures Kept(s, Allow(s, mode, env)) && Within(s, ClickAllow(mode), env, Allow(s, mode, env))
  {
    hide Kept, V.Valid, Allow, A.Begins, A.PermitFor;
    CallbackKeeps(s, ClickAllow(mode), env);
    A.StepBegins(s, ClickAllow(mode), env);
  }

  lemma DenyKeeps(s: State)
    requires V.Valid(s)
    ensures Kept(s, Deny(s))
  {
    hide Kept, V.Valid, Deny;
    CallbackKeeps(s, ClickDeny, NOTHING);
  }

  lemma PromptKeeps(s: State, k: nat, status: Status, dismissed: bool, env: Env)
    requires V.Valid(s) && k in s.batches && s.batches[k].work.Consenting?
    ensures var s' := SettleConsent(s, k, status, dismissed, env);
            Kept(s, s') && Within(s, PromptSettles(k, status, dismissed), env, s')
  {
    hide Kept, V.Valid, SettleConsent, A.Begins, A.PermitFor;
    CallbackKeeps(s, PromptSettles(k, status, dismissed), env);
    A.StepBegins(s, PromptSettles(k, status, dismissed), env);
  }

  lemma MessageKeeps(s: State, m: Message, env: Env)
    requires V.Valid(s)
    ensures Kept(s, HandleMessage(s, m, env)) && Within(s, Receive(m), env, HandleMessage(s, m, env))
  {
    hide Kept, V.Valid, HandleMessage, A.Begins, A.PermitFor;
    CallbackKeeps(s, Receive(m), env);
    A.StepBegins(s, Receive(m), env);
  }

  lemma CopyKeeps(s: State, k: nat, env: Env)
    requires V.Valid(s) && k in s.batches && s.batches[k].work.Clipping?
    ensures var s' := SettleClipboard(s, k, env); Kept(s, s') && Within(s, ClipboardSettles(k), env, s')
  {
    hide Kept, V.Valid, SettleClipboard, A.Begins, A.PermitFor;
    CallbackKeeps(s, ClipboardSettles(k), env);
    A.StepBegins(s, ClipboardSettles(k), env);
  }

  lemma ShowKeeps(s: State, k: nat, env: Env)
    requires V.Valid(s) && k in s.batches && s.batches[k].work.Showing?
    ensures Kept(s, ResumeShow(s, k, env))
  {
    hide Kept, V.Valid, ResumeShow;
    CallbackKeeps(s, ShowResumes(k), env);
  }

  lemma PoolParts(s: State)
    requires V.Core(s)
    ensures s.pool == T.Slots(s.batches) && |s.pool| <= MAX_IN_FLIGHT
  {
    T.PoolIsSlots(s.pool, s.batches, s.next);
  }

  // A queue item of one request, of one capability if that is asked for.
  predicate IsRequest(q: Queued, d: nat, id: Id, cap: Option<Capability>) {
    q.doc == d && q.id == id && (cap.Some? ==> q.cap == cap.value)
  }

  class PermissionBroker {
    var managed: bool
    var generation: nat
    var activeDocument: Option<Doc>
    var queue: seq<Queued>
    var prompt: Option<Queued>
    var watches: map<Id, Watch>
    var notifications: map<Id, Notice>
    var inFlightRequests: set<Id>
    var cancelledRequests: set<Id>
    var connectSerial: nat
    var handledLoadConnectSerial: nat
    var parentCapabilityOwners: set<nat>
    var batches: map<nat, Batch>
    var next: nat
    ghost var posts: seq<Response>
    ghost var runs: seq<Run>

    ghost function View(): State
      reads this
    {
      State(managed, generation, activeDocument, queue, prompt, watches, notifications, inFlightRequests,
            cancelledRequests,
            connectSerial, handledLoadConnectSerial, parentCapabilityOwners, batches, next, posts, runs)
    }

    constructor ()
      ensures View() == INITIAL
    {
      managed, generation, activeDocument, queue, prompt := true, 0, None, [], None;
      watches, notifications, inFlightRequests, cancelledRequests := map[], map[], {}, {};
      connectSerial, handledLoadConnectSerial, parentCapabilityOwners, batches, next := 0, 0, {}, map[], 0;
      posts, runs := [], [];
    }

    predicate IsLive(d: nat)
      reads this
    {
      managed && activeDocument.Some? && activeDocument.value.generation == d
    }

    /********** Answers and the prompt **********/

    method Respond(d: nat, id: Id, status: Status, event: Event, about: Option<Id>, reason: Reason)
      modifies this`posts
      ensures View() == BrokerSpec.Respond(old(View()), d, id, status, event, about, reason)
    {
      if !IsLive(d) || id in cancelledRequests { return; }
      posts := posts + [Response(activeDocument.value.client, id, status, event, about, reason)];
    }

    method Answer(d: nat, id: Id, status: Status, reason: Reason)
      modifies this`posts
      ensures View() == BrokerSpec.Answer(old(View()), d, id, status, reason)
    {
      Respond(d, id, status, Silent, None, reason);
    }

    method AnswerEach(items: seq<Queued>, status: Status, reason: Reason)
      modifies this`posts
      ensures View() == AnswerAll(old(View()), items, status, reason)
    {
      for i := 0 to |items|
        invariant AnswerAll(old(View()), items, status, reason) == AnswerAll(View(), items[i..], status, reason)
        invariant View() == old(View()).(posts := posts)
      {
        assert items[i..][0] == items[i] && items[i..][1..] == items[i + 1..];
        Answer(items[i].doc, items[i].id, status, reason);
      }
      assert items[|items|..] == [];
    }

    method AdvancePrompt()
      modifies this`queue, this`prompt
      ensures View() == Advance(old(View()))
    {
      while queue != [] && !IsLive(queue[0].doc)
        invariant DropDead(old(View()), old(queue)) == DropDead(old(View()), queue)
        invariant View() == old(View()).(queue := queue)
        decreases |queue|
      {
        queue := queue[1..];
      }
      prompt := if queue == [] then None else Some(queue[0]);
    }

    /********** Documents **********/

    method ClearWork()
      modifies this`watches, this`notifications, this`inFlightRequests, this`cancelledRequests
      ensures View() == old(View()).(watches := map[], notices := map[], inFlight := {}, cancelled := {})
    {
      watches, notifications := map[], map[];
      inFlightRequests, cancelledRequests := {}, {};
    }

    method ResetDocument()
      modifies this
      ensures View() == Reset(old(View()))
    {
      generation := generation + 1;
      activeDocument := None;
      ClearWork();
      queue, prompt := [], None;
    }

    method RevokeFrame()
      requires V.Valid(View())
      modifies this
      ensures View() == Revoke(old(View()))
      ensures Kept(old(View()), View())
    {
      hide V.Valid, Kept;
      CallbackKeeps(View(), Navigate, NOTHING);
      handledLoadConnectSerial := connectSerial;
      ResetDocument();
    }

    method OnFrameLoaded()
      requires V.Valid(View())
      modifies this
      ensures View() == FrameLoaded(old(View()))
      ensures Kept(old(View()), View())
    {
      hide Reset, V.Valid, Kept;
      CallbackKeeps(View(), Load, NOTHING);
      if activeDocument.Some? && connectSerial > handledLoadConnectSerial && IsLive(activeDocument.value.generation) {
        handledLoadConnectSerial := connectSerial;
        return;
      }
      handledLoadConnectSerial := connectSerial;
      ResetDocument();
    }

    method OnConnect(client: Client, id: Id)
      modifies this
      ensures View() == HandleConnect(old(View()), client, id)
    {
      ResetDocument();
      connectSerial := connectSerial + 1;
      activeDocument := Some(Doc(client, generation, {}, 0, map[id := Connect], [id]));
      Answer(generation, id, Ok, NoReason);
    }

    /********** Native slots **********/

    // Reserve slots and start the native work that holds them.
    method BeginWork(d: nat, count: nat, ids: set<Id>, work: Work)
      modifies this`parentCapabilityOwners, this`batches, this`next, this`inFlightRequests
      ensures View() == Begin(old(View()), d, count, ids, work)
    {
      hide Fresh;
      var owners := Fresh(next, count);
      parentCapabilityOwners := parentCapabilityOwners + owners;
      batches := batches[next := Batch(owners, d, work)];
      next := next + count;
      inFlightRequests := inFlightRequests + ids;
    }

    method ReleaseOwners(k: nat)
      requires k in batches
      modifies this`parentCapabilityOwners, this`batches
      ensures View() == Release(old(View()), k)
    {
      parentCapabilityOwners := parentCapabilityOwners - batches[k].owners;
      batches := batches - {k};
    }

    predicate HasSlots(count: nat)
      reads this
    {
      count >= 1 && |parentCapabilityOwners| + count <= MAX_IN_FLIGHT
    }

    predicate HasFlight()
      reads this
    {
      |inFlightRequests| < MAX_IN_FLIGHT && HasSlots(1)
    }

    /********** Location **********/

    method ExecuteLocation(d: nat, id: Id, op: Op, env: Env)
      modifies this
      ensures View() == ExecuteGeolocation(old(View()), d, id, op, env)
    {
      if !env.provider { Answer(d, id, Failed, Protocol.Unavailable); return; }
      if op == LocationGet {
        if !HasFlight() { Answer(d, id, Failed, TooManyOperations); return; }
        if id in env.throwing { Answer(d, id, Failed, NativeFailure); return; }
        BeginWork(d, 1, {id}, Locating(id));
        return;
      }
      if Size(watches) >= MAX_WATCHES { Answer(d, id, Failed, TooManyWatches); return; }
      if id in env.throwing { Answer(d, id, Failed, NativeFailure); return; }
      watches := watches[id := Watch(next, d)];
      next := next + 1;
    }

    method OnLocation(k: nat, fix: Fix)
      requires k in batches && batches[k].work.Locating?
      requires V.Valid(View())
      modifies this
      ensures View() == SettleLocation(old(View()), k, fix)
      ensures Kept(old(View()), View())
    {
      hide V.Valid, Kept;
      CallbackKeeps(View(), LocationSettles(k, fix), NOTHING);
      var d, id := batches[k].doc, batches[k].work.id;
      ReleaseOwners(k);
      if !IsLive(d) { return; }
      inFlightRequests := inFlightRequests - {id};
      if id in cancelledRequests { cancelledRequests := cancelledRequests - {id}; return; }
      match fix
      case Position => Answer(d, id, Ok, NoReason);
      case NoPosition => Answer(d, id, Failed, NativeFailure);
      case PermissionDenied => Answer(d, id, Denied, NativeFailure);
    }

    method OnWatch(id: Id, d: nat, fix: Fix)
      requires V.Valid(View())
      modifies this
      ensures View() == WatchEvent(old(View()), id, d, fix)
      ensures Kept(old(View()), View())
    {
      hide V.Valid, Kept;
      CallbackKeeps(View(), WatchFires(id, d, fix), NOTHING);
      if id !in watches || watches[id].doc != d { return; }
      match fix
      case Position => Respond(d, id, Ok, Silent, Some(id), NoReason);
      case NoPosition => Respond(d, id, Failed, Silent, Some(id), NativeFailure);
      case PermissionDenied =>
        watches := watches - {id};
        Respond(d, id, Denied, Silent, Some(id), NativeFailure);
    }

    /********** Notifications **********/

    // The `finally` of showNotification.
    method FinishNotification(k: nat)
      requires k in batches && batches[k].work.Showing?
      modifies this
      ensures View() == FinishShow(old(View()), k)
    {
      var d, id := batches[k].doc, batches[k].work.id;
      ReleaseOwners(k);
      if IsLive(d) { inFlightRequests := inFlightRequests - {id}; }
    }

    method DropReservation(id: Id, k: nat)
      modifies this`notifications
      ensures View() == DeleteReservation(old(View()), id, k)
    {
      if id in notifications && notifications[id].Worker? && notifications[id].reservation == k {
        notifications := notifications - {id};
      }
    }

    // The show ends without its reservation.
    method Withdraw(id: Id, k: nat)
      requires k in batches && batches[k].work.Showing?
      modifies this
      ensures View() == FinishShow(DeleteReservation(old(View()), id, k), k)
    {
      DropReservation(id, k);
      FinishNotification(k);
    }

    method Wait(k: nat, phase: Phase, registered: bool)
      requires k in batches && batches[k].work.Showing?
      modifies this`batches
      ensures View() == Suspend(old(View()), k, phase, registered)
    {
      batches := batches[k := batches[k].(work := Showing(batches[k].work.id, phase, registered))];
    }

    method DisplayNotification(k: nat, registered: bool, env: Env)
      requires k in batches && batches[k].work.Showing?
      modifies this
      ensures View() == Display(old(View()), k, registered, env)
    {
      var d, id := batches[k].doc, batches[k].work.id;
      if !IsLive(d) { FinishNotification(k); return; }
      if id in cancelledRequests {
        cancelledRequests := cancelledRequests - {id};
        FinishNotification(k);
        return;
      }
      if Size(notifications) >= MAX_NOTIFICATIONS {
        Respond(d, id, Failed, Silent, Some(id), TooManyNotifications);
        FinishNotification(k);
        return;
      }
      notifications := notifications[id := Worker(k, d, true)];
      if id in env.constructed {
        notifications := notifications[id := Native(k, d)];
        Respond(d, id, Ok, Silent, Some(id), NoReason);
        FinishNotification(k);
        return;
      }
      if !env.worker {
        DropReservation(id, k);
        Respond(d, id, Failed, Silent, Some(id), Protocol.Unavailable);
        FinishNotification(k);
        return;
      }
      Wait(k, if registered then Displaying else FindFallback, registered);
    }

    method Show(d: nat, id: Id, env: Env)
      modifies this
      ensures View() == ShowNotification(old(View()), d, id, env)
    {
      if !env.nativeGranted { Respond(d, id, Denied, Silent, Some(id), Refused); return; }
      if !HasFlight() { Respond(d, id, Failed, Silent, Some(id), TooManyOperations); return; }
      var k := next;
      BeginWork(d, 1, {id}, Showing(id, FindWorker, false));
      if Size(notifications) >= MAX_NOTIFICATIONS && env.worker { return; }
      DisplayNotification(k, false, env);
    }

    method ReconcileWorkers(d: nat, vanished: seq<Id>)
      modifies this`notifications, this`posts
      ensures View() == Reconcile(old(View()), d, vanished)
    {
      if !IsLive(d) {
        return;
      }
      for i := 0 to |vanished|
        invariant Reconcile(old(View()), d, vanished) == Reconcile(View(), d, vanished[i..])
        invariant View() == old(View()).(notices := notifications, posts := posts)
      {
        assert vanished[i..][0] == vanished[i] && vanished[i..][1..] == vanished[i + 1..];
        var id := vanished[i];
        if id in notifications && notifications[id].Worker? && !notifications[id].pending
          && notifications[id].doc == d {
          notifications := notifications - {id};
          Respond(d, id, Ok, Closed, Some(id), NoReason);
        }
      }
      assert vanished[|vanished|..] == [];
    }

    method OnShowFailed(k: nat)
      requires k in batches && batches[k].work.Showing?
      modifies this
      ensures View() == CatchShow(old(View()), k)
    {
      var d, id := batches[k].doc, batches[k].work.id;
      if !IsLive(d) {
        Withdraw(id, k);
        return;
      }
      if id in cancelledRequests {
        cancelledRequests := cancelledRequests - {id};
        Withdraw(id, k);
        return;
      }
      DropReservation(id, k);
      Respond(d, id, Failed, Errored, Some(id), NativeFailure);
      FinishNotification(k);
    }

    method OnWorkerFound(k: nat, env: Env)
      requires k in batches && batches[k].work.Showing?
      requires V.Valid(View()) && batches[k].work.phase == FindWorker
      modifies this
      ensures View() == ResumeFindWorker(old(View()), k, env)
      ensures Kept(old(View()), View())
    {
      hide V.Valid, Kept;
      ShowKeeps(View(), k, env);
      var id := batches[k].work.id;
      if env.failed { DisplayNotification(k, false, env); return; }
      if !IsLive(batches[k].doc) { FinishNotification(k); return; }
      if id in cancelledRequests {
        cancelledRequests := cancelledRequests - {id};
        FinishNotification(k);
        return;
      }
      if env.found { Wait(k, FirstReconcile, true); } else { DisplayNotification(k, false, env); }
    }

    method OnReconciled(k: nat, env: Env)
      requires k in batches && batches[k].work.Showing?
      requires V.Valid(View()) && batches[k].work.phase == FirstReconcile
      modifies this
      ensures View() == ResumeFirstReconcile(old(View()), k, env)
      ensures Kept(old(View()), View())
    {
      hide V.Valid, Kept;
      ShowKeeps(View(), k, env);
      if !env.failed { ReconcileWorkers(batches[k].doc, env.vanished); }
      DisplayNotification(k, true, env);
    }

    method OnFallbackFound(k: nat, env: Env)
      requires k in batches && batches[k].work.Showing?
      requires V.Valid(View()) && batches[k].work.phase == FindFallback
      modifies this
      ensures View() == ResumeFindFallback(old(View()), k, env)
      ensures Kept(old(View()), View())
    {
      hide CatchShow, FinishShow, DeleteReservation, Suspend, BrokerSpec.Respond, V.Valid, Kept;
      ShowKeeps(View(), k, env);
      var d, id := batches[k].doc, batches[k].work.id;
      if env.failed { OnShowFailed(k); return; }
      if !IsLive(d) {
        Withdraw(id, k);
        return;
      }
      if id in cancelledRequests {
        cancelledRequests := cancelledRequests - {id};
        Withdraw(id, k);
        return;
      }
      if !env.found {
        DropReservation(id, k);
        Respond(d, id, Failed, Silent, Some(id), Protocol.Unavailable);
        FinishNotification(k);
        return;
      }
      Wait(k, Displaying, batches[k].work.registered);
    }

    method OnDisplayed(k: nat, env: Env)
      requires k in batches && batches[k].work.Showing?
      requires V.Valid(View()) && batches[k].work.phase == Displaying
      modifies this
      ensures View() == ResumeDisplaying(old(View()), k, env)
      ensures Kept(old(View()), View())
    {
      hide V.Valid, Kept;
      ShowKeeps(View(), k, env);
      var id, registered := batches[k].work.id, batches[k].work.registered;
      if env.failed { OnShowFailed(k); return; }
      if !IsLive(batches[k].doc) { Wait(k, Withdrawing, registered); return; }
      if id in cancelledRequests {
        cancelledRequests := cancelledRequests - {id};
        Wait(k, Withdrawing, registered);
        return;
      }
      Wait(k, LastReconcile, registered);
    }

    method OnWithdrawn(k: nat, env: Env)
      requires k in batches && batches[k].work.Showing?
      requires V.Valid(View()) && batches[k].work.phase == Withdrawing
      modifies this
      ensures View() == ResumeWithdrawing(old(View()), k, env)
      ensures Kept(old(View()), View())
    {
      hide V.Valid, Kept;
      ShowKeeps(View(), k, env);
      if env.failed { OnShowFailed(k); return; }
      Withdraw(batches[k].work.id, k);
    }

    method OnSettled(k: nat, env: Env)
      requires k in batches && batches[k].work.Showing?
      requires V.Valid(View()) && batches[k].work.phase == LastReconcile
      modifies this
      ensures View() == ResumeLastReconcile(old(View()), k, env)
      ensures Kept(old(View()), View())
    {
      hide Reconcile, FinishShow, DeleteReservation, BrokerSpec.Respond, V.Valid, Kept;
      ShowKeeps(View(), k, env);
      var d, id := batches[k].doc, batches[k].work.id;
      if !env.failed { ReconcileWorkers(d, env.vanished); }
      if !IsLive(d) {
        Withdraw(id, k);
        return;
      }
      if id in cancelledRequests {
        cancelledRequests := cancelledRequests - {id};
        Withdraw(id, k);
        return;
      }
      if id in notifications && notifications[id] == Worker(k, d, true) { CompleteShow(d, id, k); }
      FinishNotification(k);
    }

    // The worker's notification is displayed.
    method CompleteShow(d: nat, id: Id, k: nat)
      modifies this`notifications, this`posts
      ensures var s := old(View());
              View() == BrokerSpec.Respond(s.(notices := s.notices[id := Worker(k, d, false)]), d, id, Ok, Shown,
                                           Some(id), NoReason)
    {
      hide BrokerSpec.Respond;
      notifications := notifications[id := Worker(k, d, false)];
      Respond(d, id, Ok, Shown, Some(id), NoReason);
    }

    /********** Granted work and the clipboard **********/

    method ExecuteGrant(d: nat, id: Id, op: Op, env: Env)
      modifies this
      ensures View() == ExecuteGranted(old(View()), d, id, op, env)
    {
      if !IsLive(d) || id in cancelledRequests { return; }
      match op
      case LocationGet =>
        runs := runs + [Run(d, Geolocation, id)];
        ExecuteLocation(d, id, op, env);
      case LocationWatch =>
        runs := runs + [Run(d, Geolocation, id)];
        ExecuteLocation(d, id, op, env);
      case NotificationPermission =>
        runs := runs + [Run(d, Notifications, id)];
        Answer(d, id, Ok, NoReason);
      case NotificationShow =>
        runs := runs + [Run(d, Notifications, id)];
        Show(d, id, env);
      case _ => Answer(d, id, Failed, NativeFailure);
    }

    method ExecuteEach(items: seq<Queued>, env: Env)
      modifies this
      ensures View() == ExecuteAll(old(View()), items, env)
    {
      for i := 0 to |items|
        invariant ExecuteAll(old(View()), items, env) == ExecuteAll(View(), items[i..], env)
      {
        assert items[i..][0] == items[i] && items[i..][1..] == items[i + 1..];
        ExecuteGrant(items[i].doc, items[i].id, items[i].op, env);
      }
      assert items[|items|..] == [];
    }

    predicate IsAllowed(cap: Capability)
      reads this
    {
      activeDocument.Some? && cap !in activeDocument.value.denied
    }

    method ExecuteCopy(d: nat, id: Id, op: Op, mode: Mode, token: Option<Grants.Token>, env: Env)
      modifies this
      ensures View() == ExecuteClipboard(old(View()), d, id, op, mode, token, env)
    {
      hide BrokerSpec.Answer, BrokerSpec.Respond, Begin, Begun;
      var cap := CapabilityOf(op);
      if cap.None? || !IsClipboard(cap.value) || !IsLive(d) || id in cancelledRequests { return; }
      if !IsAllowed(cap.value) || id !in env.current { Answer(d, id, Denied, ApprovalChanged); return; }
      if !HasFlight() { Answer(d, id, Failed, TooManyOperations); return; }
      StartCopy(d, id, cap.value, mode, token);
    }

    // The native clipboard call of an approved request.
    method StartCopy(d: nat, id: Id, cap: Capability, mode: Mode, token: Option<Grants.Token>)
      modifies this`runs, this`parentCapabilityOwners, this`batches, this`next, this`inFlightRequests
      ensures View() == Begin(Begun(old(View()), d, cap, id), d, 1, {id}, Clipping(id, cap, mode, token))
    {
      hide Begin;
      runs := runs + [Run(d, cap, id)];
      BeginWork(d, 1, {id}, Clipping(id, cap, mode, token));
    }

    method ExecuteCopies(items: seq<Queued>, token: Option<Grants.Token>, env: Env)
      modifies this
      ensures View() == ExecuteSiblings(old(View()), items, token, env)
    {
      for i := 0 to |items|
        invariant ExecuteSiblings(old(View()), items, token, env) == ExecuteSiblings(View(), items[i..], token, env)
      {
        assert items[i..][0] == items[i] && items[i..][1..] == items[i + 1..];
        ExecuteCopy(items[i].doc, items[i].id, items[i].op, Saved, token, env);
      }
      assert items[|items|..] == [];
    }

    // What follows a native clipboard call of the live document.
    method CompleteCopy(d: nat, w: Work, env: Env)
      requires w.Clipping?
      modifies this
      ensures View() == ClipboardOutcome(old(View()), d, w, env)
    {
      hide ExecuteSiblings, Advance, Matching, Without, BrokerSpec.Answer, BrokerSpec.Respond;
      if !IsAllowed(w.cap) || !env.currentBefore { Answer(d, w.id, Denied, ApprovalChanged); return; }
      if env.failed { Answer(d, w.id, Failed, NativeFailure); return; }
      if !env.currentAfter { Answer(d, w.id, Denied, ApprovalChanged); return; }
      Answer(d, w.id, Ok, NoReason);
      if w.mode == Always && w.token.Some? && env.stored && env.activated { CopySiblings(d, w.cap, w.token, env); }
      AdvancePrompt();
    }

    method CopySiblings(d: nat, cap: Capability, token: Option<Grants.Token>, env: Env)
      modifies this
      ensures var s := old(View());
              var siblings := Matching(s.queue, d, cap);
              View() == ExecuteSiblings(s.(queue := Without(s.queue, siblings)), siblings, token, env)
    {
      hide ExecuteSiblings, Matching, Without;
      var siblings := Matching(queue, d, cap);
      queue := Without(queue, siblings);
      ExecuteCopies(siblings, token, env);
    }

    method OnCopied(k: nat, env: Env)
      requires k in batches && batches[k].work.Clipping?
      requires V.Valid(View())
      modifies this
      ensures View() == SettleClipboard(old(View()), k, env)
      ensures Kept(old(View()), View()) && Within(old(View()), ClipboardSettles(k), env, View())
    {
      hide ClipboardOutcome, Release, V.Valid, Kept, Within;
      CopyKeeps(View(), k, env);
      var d, w := batches[k].doc, batches[k].work;
      ReleaseOwners(k);
      if !IsLive(d) { return; }
      inFlightRequests := inFlightRequests - {w.id};
      if w.id in cancelledRequests { cancelledRequests := cancelledRequests - {w.id}; return; }
      CompleteCopy(d, w, env);
    }

    /********** Consent **********/

    method RequestConsent(d: nat, id: Id, op: Op, cap: Capability, env: Env)
      modifies this
      ensures View() == RequestCapability(old(View()), d, id, op, cap, env)
    {
      hide ExecuteClipboard, ExecuteGranted, BrokerSpec.Answer, BrokerSpec.Respond, Advance;
      if !IsAllowed(cap) { Answer(d, id, Denied, Refused); return; }
      if IsClipboard(cap) && env.saved.Some? && env.activated { ExecuteCopy(d, id, op, Saved, env.saved, env); return; }
      if !IsClipboard(cap) && env.saved.Some? && (cap != Notifications || env.nativeGranted) {
        ExecuteGrant(d, id, op, env);
        return;
      }
      if |queue| >= MAX_PENDING { Answer(d, id, Failed, TooManyPending); return; }
      queue := queue + [Queued(d, cap, id, op)];
      AdvancePrompt();
    }

    method ResolveConsent(mode: Mode, current: Queued, revision: nat, token: Option<Grants.Token>, env: Env)
      modifies this
      ensures View() == ResolveNotificationConsent(old(View()), mode, current, revision, token, env)
    {
      hide Advance, Without, Matching, AnswerAll, Ids, Begin;
      var d := current.doc;
      if !IsLive(d) || current.cap != Notifications { AdvancePrompt(); return; }
      var selected := if mode == Always && token.Some? then Matching(queue, d, current.cap) else [current];
      queue := Without(queue, selected);
      if |inFlightRequests| + |selected| > MAX_IN_FLIGHT || !HasSlots(|selected|) {
        AnswerEach(selected, Failed, TooManyOperations);
        AdvancePrompt();
        return;
      }
      AskNatively(current, Consenting(mode, current, selected, revision, token), env);
    }

    // The native prompt for the selected requests, which have left the queue.
    method AskNatively(current: Queued, work: Work, env: Env)
      requires work.Consenting?
      modifies this
      ensures var s := old(View());
              View() == if env.promptThrows then AnswerAll(Advance(s), work.items, Failed, NativeFailure)
                        else Advance(Begin(s, current.doc, |work.items|, Ids(work.items), work))
    {
      hide Advance, AnswerAll, Ids, Begin;
      if env.promptThrows {
        // the slots and the in-flight marks taken before the call are given back before any answer
        AdvancePrompt();
        AnswerEach(work.items, Failed, NativeFailure);
        return;
      }
      BeginWork(current.doc, |work.items|, Ids(work.items), work);
      AdvancePrompt();
    }

    method CompleteItem(mode: Mode, current: Queued, item: Queued, v: Verdict, env: Env)
      modifies this
      ensures View() == SettleItem(old(View()), mode, current, item, v, env)
    {
      hide ExecuteGranted, BrokerSpec.Answer, BrokerSpec.Respond;
      inFlightRequests := inFlightRequests - {item.id};
      if item.id in cancelledRequests { cancelledRequests := cancelledRequests - {item.id}; return; }
      if !IsAllowed(item.cap) { Answer(item.doc, item.id, Denied, Refused); return; }
      if !v.currentChoice {
        if item.op == NotificationPermission { Answer(item.doc, item.id, Ok, NoReason); }
        else { Respond(item.doc, item.id, Denied, Silent, Some(item.id), ApprovalChanged); }
        return;
      }
      if v.status == Failed { Answer(item.doc, item.id, Failed, NativeFailure); return; }
      if mode == Always && v.status == Ok && !v.saved && item != current { queue := queue + [item]; return; }
      if item.op == NotificationPermission { Answer(item.doc, item.id, Ok, NoReason); }
      else if v.status == Ok { ExecuteGrant(item.doc, item.id, item.op, env); }
      else { Answer(item.doc, item.id, Denied, Refused); }
    }

    method CompleteItems(mode: Mode, current: Queued, items: seq<Queued>, v: Verdict, env: Env)
      modifies this
      ensures View() == SettleItems(old(View()), mode, current, items, v, env)
    {
      for i := 0 to |items|
        invariant SettleItems(old(View()), mode, current, items, v, env)
                    == SettleItems(View(), mode, current, items[i..], v, env)
      {
        assert items[i..][0] == items[i] && items[i..][1..] == items[i + 1..];
        CompleteItem(mode, current, items[i], v, env);
      }
      assert items[|items|..] == [];
    }

    method HasUncancelled(items: seq<Queued>) returns (found: bool)
      ensures found == SomeUncancelled(View(), items)
    {
      for i := 0 to |items|
        invariant forall j :: 0 <= j < i ==> items[j].id in cancelledRequests
      {
        if items[i].id !in cancelledRequests { return true; }
      }
      found := false;
    }

    method OnPrompt(k: nat, status: Status, dismissed: bool, env: Env)
      requires k in batches && batches[k].work.Consenting?
      requires V.Valid(View())
      modifies this
      ensures View() == SettleConsent(old(View()), k, status, dismissed, env)
      ensures Kept(old(View()), View()) && Within(old(View()), PromptSettles(k, status, dismissed), env, View())
    {
      hide SettleItems, Advance, SomeUncancelled, V.Valid, Kept, Within;
      PromptKeeps(View(), k, status, dismissed, env);
      var d, w := batches[k].doc, batches[k].work;
      var uncancelled := HasUncancelled(w.items);
      ReleaseOwners(k);
      if !IsLive(d) { return; }
      var document := activeDocument.value;
      var before := document.revision == w.revision && env.currentBefore;
      var saved := w.mode == Always && w.token.Some? && status == Ok && before && IsAllowed(Notifications)
        && uncancelled && env.stored;
      var currentChoice := before && env.currentAfter;
      if w.mode == Always && w.token.Some? && status == Denied && !dismissed && currentChoice && uncancelled {
        activeDocument := Some(document.(denied := document.denied + {Notifications}));
      }
      CompleteItems(w.mode, w.current, w.items, Verdict(status, saved, currentChoice), env);
      AdvancePrompt();
    }

    /********** The buttons **********/

    method OnAllow(mode: Mode, env: Env)
      requires V.Valid(View()) && mode != Saved
      modifies this
      ensures View() == Allow(old(View()), mode, env)
      ensures Kept(old(View()), View()) && Within(old(View()), ClickAllow(mode), env, View())
    {
      hide ExecuteClipboard, ResolveNotificationConsent, ExecuteAll, Advance, Without, Matching, V.Valid, Kept, Within;
      AllowKeeps(View(), mode, env);
      if queue == [] || !IsLive(queue[0].doc) { AdvancePrompt(); return; }
      var current := queue[0];
      var revision := activeDocument.value.revision + 1;
      if current.cap == Notifications { activeDocument := Some(activeDocument.value.(revision := revision)); }
      if env.choice.Superseded? || (env.choice.Ready? && !env.choice.cleared)
        || (env.choice.Unavailable? && !env.choice.empty) {
        return;
      }
      var token := if env.choice.Ready? then Some(env.choice.token) else None;
      if IsClipboard(current.cap) {
        AllowCopy(current, mode, token, env);
        return;
      }
      if current.cap == Notifications {
        ResolveConsent(mode, current, revision, token, env);
        return;
      }
      var siblings := mode == Always && token.Some? && env.stored;
      AllowEach(if siblings then Matching(queue, current.doc, current.cap) else [current], env);
    }

    method AllowCopy(current: Queued, mode: Mode, token: Option<Grants.Token>, env: Env)
      modifies this
      ensures var s := old(View());
              View() == Advance(ExecuteClipboard(s.(queue := Without(s.queue, [current])), current.doc, current.id,
                                                 current.op, mode, token, env))
    {
      hide Advance, ExecuteClipboard, Without;
      queue := Without(queue, [current]);
      ExecuteCopy(current.doc, current.id, current.op, mode, token, env);
      AdvancePrompt();
    }

    method AllowEach(selected: seq<Queued>, env: Env)
      modifies this
      ensures var s := old(View());
              View() == Advance(ExecuteAll(s.(queue := Without(s.queue, selected)), selected, env))
    {
      hide Advance, ExecuteAll, Without;
      queue := Without(queue, selected);
      ExecuteEach(selected, env);
      AdvancePrompt();
    }

    method OnDeny()
      requires V.Valid(View())
      modifies this
      ensures View() == Deny(old(View()))
      ensures Kept(old(View()), View())
    {
      hide Matching, Without, AnswerAll, Advance, V.Valid, Kept;
      DenyKeeps(View());
      if queue == [] || !IsLive(queue[0].doc) { AdvancePrompt(); return; }
      var current, document := queue[0], activeDocument.value;
      activeDocument := Some(document.(denied := document.denied + {current.cap},
                                       revision := if current.cap == Notifications then document.revision + 1
                                         else document.revision));
      RefuseEach(Matching(queue, current.doc, current.cap));
    }

    method RefuseEach(denied: seq<Queued>)
      modifies this`queue, this`prompt, this`posts
      ensures var s := old(View());
              View() == Advance(AnswerAll(s.(queue := Without(s.queue, denied)), denied, Denied, Refused))
    {
      hide Advance, AnswerAll, Without;
      queue := Without(queue, denied);
      AnswerEach(denied, Denied, Refused);
      AdvancePrompt();
    }

    /********** Cancelling **********/

    method IsQueued(d: nat, id: Id, cap: Option<Capability>) returns (found: bool)
      ensures found <==> exists i :: 0 <= i < |queue| && IsRequest(queue[i], d, id, cap)
      ensures cap.Some? ==> found == Waiting(View(), d, id, cap.value)
    {
      for i := 0 to |queue|
        invariant forall j :: 0 <= j < i ==> !IsRequest(queue[j], d, id, cap)
      {
        if IsRequest(queue[i], d, id, cap) { return true; }
      }
      found := false;
    }

    method DropQueued(d: nat, target: Id)
      modifies this`queue, this`prompt
      ensures var s := old(View()); View() == Advance(s.(queue := Discard(s.queue, d, target)))
    {
      queue := Discard(queue, d, target);
      AdvancePrompt();
    }

    method OnClear(document: Doc, id: Id, target: Id)
      modifies this
      ensures View() == ClearLocation(old(View()), document, id, target)
    {
      hide Waiting, Discard, Advance, BrokerSpec.Respond;
      var d := document.generation;
      var queued := IsQueued(d, target, Some(Geolocation));
      if target !in document.requests || !Cancels(LocationClear, document.requests[target])
         || (!queued && target !in inFlightRequests && target !in watches) {
        Respond(d, id, Failed, Silent, Some(target), UnknownTarget);
        return;
      }
      watches := watches - {target};
      if target in inFlightRequests && document.requests[target] == LocationGet {
        cancelledRequests := cancelledRequests + {target};
      }
      DropQueued(d, target);
      Respond(d, id, Ok, Silent, Some(target), NoReason);
    }

    method OnClose(document: Doc, id: Id, target: Id)
      modifies this
      ensures View() == CloseNotification(old(View()), document, id, target)
    {
      hide Waiting, Discard, Advance, BrokerSpec.Respond, Cancels;
      var d := document.generation;
      var queued := IsQueued(d, target, Some(Notifications));
      if target !in document.requests || !Cancels(NotificationClose, document.requests[target])
         || (!queued && target !in inFlightRequests && target !in notifications) {
        Respond(d, id, Failed, Silent, Some(target), UnknownTarget);
        return;
      }
      if document.requests[target] == NotificationShow { Respond(d, target, Ok, Closed, Some(target), NoReason); }
      DropNotification(d, target);
      Respond(d, id, Ok, Silent, Some(target), NoReason);
    }

    // The target's running work is cancelled, and its place and its queue entry are given up.
    method DropNotification(d: nat, target: Id)
      modifies this`notifications, this`cancelledRequests, this`queue, this`prompt
      ensures var s := old(View());
              var pending := target in s.notices && s.notices[target].Worker? && s.notices[target].pending;
              var marked := if target in s.inFlight || pending then s.cancelled + {target} else s.cancelled;
              View() == Advance(s.(cancelled := marked, notices := s.notices - {target},
                                   queue := Discard(s.queue, d, target)))
    {
      hide Discard, Advance;
      if target in inFlightRequests
        || (target in notifications && notifications[target].Worker? && notifications[target].pending) {
        cancelledRequests := cancelledRequests + {target};
      }
      notifications := notifications - {target};
      DropQueued(d, target);
    }

    method OnCancel(document: Doc, id: Id, target: Id)
      modifies this
      ensures View() == CancelClipboard(old(View()), document, id, target)
    {
      var d := document.generation;
      var queued := IsQueued(d, target, None);
      if target !in document.requests || !Cancels(ClipboardCancel, document.requests[target])
        || (!queued && target !in inFlightRequests) {
        Answer(d, id, Failed, UnknownTarget);
        return;
      }
      if target in inFlightRequests { cancelledRequests := cancelledRequests + {target}; }
      DropQueued(d, target);
      Answer(d, id, Ok, NoReason);
    }

    /********** Messages **********/

    // A foreground notification's own event.
    method OnNotification(id: Id, handle: nat, event: Event)
      requires V.Valid(View())
      modifies this
      ensures View() == NoticeEvent(old(View()), id, handle, event)
      ensures Kept(old(View()), View())
    {
      hide V.Valid, Kept;
      CallbackKeeps(View(), NoticeFires(id, handle, event), NOTHING);
      if id !in notifications || !notifications[id].Native? || notifications[id].handle != handle { return; }
      var d := notifications[id].doc;
      if event == Closed || event == Errored { notifications := notifications - {id}; }
      match event
      case Shown => Respond(d, id, Ok, Shown, Some(id), NoReason);
      case Clicked => Respond(d, id, Ok, Clicked, Some(id), NoReason);
      case Closed => Respond(d, id, Ok, Closed, Some(id), NoReason);
      case Errored => Respond(d, id, Failed, Errored, Some(id), NativeFailure);
      case Silent =>
    }

    // Forget the oldest remembered request that is neither the connection nor an owner.
    method PruneRequests()
      requires activeDocument.Some?
      modifies this`activeDocument
      ensures activeDocument == Some(Prune(old(activeDocument).value, Protected(old(View()))))
    {
      var document := activeDocument.value;
      if Size(document.requests) < MAX_REMEMBERED { return; }
      var protectedIds := Ids(queue) + watches.Keys + notifications.Keys + inFlightRequests + cancelledRequests;
      for i := 0 to |document.order|
        invariant Oldest(document, protectedIds, 0) == Oldest(document, protectedIds, i)
        invariant activeDocument == old(activeDocument)
      {
        var id := document.order[i];
        if (id in document.requests && document.requests[id] == Connect) || id in protectedIds { continue; }
        activeDocument := Some(document.(requests := document.requests - {id},
                                         order := document.order[..i] + document.order[i + 1..]));
        return;
      }
    }

    method OnOperation(document: Doc, id: Id, op: Op, target: Id, env: Env)
      modifies this
      ensures View() == Dispatch(old(View()), document, id, op, target, env)
    {
      hide ClearLocation, CloseNotification, CancelClipboard, RequestCapability;
      match op
      case LocationClear => OnClear(document, id, target);
      case NotificationClose => OnClose(document, id, target);
      case ClipboardCancel => OnCancel(document, id, target);
      case Connect =>
      case _ => RequestConsent(document.generation, id, op, CapabilityOf(op).value, env);
    }

    method OnRequest(client: Client, id: Id, op: Op, target: Id, env: Env)
      modifies this
      ensures View() == HandleRequest(old(View()), client, id, op, target, env)
    {
      hide Prune, Protected, Dispatch;
      if activeDocument.None? || activeDocument.value.client != client || !IsLive(activeDocument.value.generation) {
        posts := posts + [Response(client, id, Failed, Silent, None, UnknownDocument)];
        return;
      }
      var d := activeDocument.value.generation;
      if id in activeDocument.value.requests { Answer(d, id, Failed, DuplicateRequest); return; }
      PruneRequests();
      if Size(activeDocument.value.requests) >= MAX_REMEMBERED { Answer(d, id, Failed, TooManyActive); return; }
      var document := Remember(activeDocument.value, id, op);
      activeDocument := Some(document);
      OnOperation(document, id, op, target, env);
    }

    method OnMessage(m: Message, env: Env)
      requires V.Valid(View())
      modifies this
      ensures View() == HandleMessage(old(View()), m, env)
      ensures Kept(old(View()), View()) && Within(old(View()), Receive(m), env, View())
    {
      hide V.Valid, Kept, Within;
      MessageKeeps(View(), m, env);
      if !managed { return; }
      match m
      case Disconnect(client) =>
        if activeDocument.Some? && activeDocument.value.client == client && IsLive(activeDocument.value.generation) {
          ResetDocument();
        }
      case Garbled(client, id) =>
        if activeDocument.Some? && activeDocument.value.client == client {
          Answer(activeDocument.value.generation, id, Failed, MalformedRequest);
        }
      case Request(client, id, op, target) =>
        if op == Connect { OnConnect(client, id); } else { OnRequest(client, id, op, target, env); }
    }
  }
}
