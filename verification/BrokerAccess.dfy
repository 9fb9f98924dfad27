/**
 What native work needs: every position, notification and clipboard call that the broker begins goes back to a
 request that was approved when it arrived, to a click on allow, or to an "always" choice that was saved.
 */
module BrokerAccess {
  import opened Wrappers
  import opened Protocol
  import opened BrokerSpec
  import opened BrokerInvariant
  import opened BrokerRequests
  import opened BrokerTheorems
  import Grants

  function RunOf(q: Queued): Run { Run(q.doc, q.cap, q.id) }

  function RunsOf(items: seq<Queued>): set<Run> { set i | 0 <= i < |items| :: RunOf(items[i]) }

  // The native access that a batch stands for. An open native prompt stands for none.
  function AccessOf(b: Batch): Option<Run> {
    match b.work
    case Locating(id) => Some(Run(b.doc, Geolocation, id))
    case Clipping(id, cap, mode, token) => Some(Run(b.doc, cap, id))
    case Showing(id, phase, registered) => Some(Run(b.doc, Notifications, id))
    case _ => None
  }

  /********** What a step begins **********/

  // The runs a step may begin, the mode and token of the clipboard calls among them, and the native prompt it may open.
  datatype Permit = Permit(runs: set<Run>, mode: Mode, token: Option<Grants.Token>, asks: Option<Work>)

  const NOTHING := Permit({}, Saved, None, None)

  ghost predicate NewRun(s: State, s': State, r: Run) { exists i :: |s.runs| <= i < |s'.runs| && s'.runs[i] == r }

  // A show goes on; any other work stays what it is.
  predicate SameWork(w: Work, w': Work) { w' == w || (w.Showing? && w'.Showing? && w.id == w'.id) }

  predicate Continues(s: State, s': State, k: nat)
    requires k in s'.batches
  {
    k in s.batches && s'.batches[k].doc == s.batches[k].doc && SameWork(s.batches[k].work, s'.batches[k].work)
  }

  ghost predicate Permitted(s: State, s': State, b: Batch, p: Permit) {
    match b.work
    case Elsewhere => true
    case Consenting(mode, current, items, revision, token) => p.asks == Some(b.work) && b.doc == current.doc
    case Clipping(id, cap, mode, token) => NewRun(s, s', AccessOf(b).value) && mode == p.mode && token == p.token
    case _ => NewRun(s, s', AccessOf(b).value)
  }

  // A part of a step that begins only what it may, and logs what it begins.
  ghost predicate Begins(s: State, s': State, p: Permit) {
    && s.runs <= s'.runs
    && (forall i :: |s.runs| <= i < |s'.runs| ==> s'.runs[i] in p.runs)
    && (forall k :: k in s'.batches ==> Continues(s, s', k) || Permitted(s, s', s'.batches[k], p))
    && (forall x :: x in s'.watches ==>
          || (x in s.watches && s'.watches[x] == s.watches[x])
          || NewRun(s, s', Run(s'.watches[x].doc, Geolocation, x)))
  }

  lemma NewRunStays(s0: State, s: State, s1: State, s': State, r: Run)
    requires s0.runs <= s.runs <= s1.runs <= s'.runs && NewRun(s, s1, r)
    ensures NewRun(s0, s', r)
  {
    var i :| |s.runs| <= i < |s1.runs| && s1.runs[i] == r;
    assert s'.runs[i] == r;
  }

  lemma PermittedStays(s0: State, s: State, s1: State, s': State, b: Batch, p: Permit)
    requires s0.runs <= s.runs <= s1.runs <= s'.runs && Permitted(s, s1, b, p)
    ensures Permitted(s0, s', b, p)
  {
    if AccessOf(b).Some? { NewRunStays(s0, s, s1, s', AccessOf(b).value); }
  }

  lemma ShowsOn(s: State, s': State, b: Batch, b': Batch, p: Permit)
    requires Permitted(s, s', b, p) && b'.doc == b.doc && SameWork(b.work, b'.work)
    ensures Permitted(s, s', b', p)
  {
  }

  lemma BeginsTrans(s: State, s1: State, s': State, p: Permit)
    requires Begins(s, s1, p) && Begins(s1, s', p)
    ensures Begins(s, s', p)
  {
    hide Permitted, NewRun;
    forall k | k in s'.batches ensures Continues(s, s', k) || Permitted(s, s', s'.batches[k], p) {
      if Continues(s1, s', k) {
        if !Continues(s, s1, k) {
          PermittedStays(s, s, s1, s', s1.batches[k], p);
          ShowsOn(s, s', s1.batches[k], s'.batches[k], p);
        }
      } else {
        PermittedStays(s, s1, s', s', s'.batches[k], p);
      }
    }
    forall x | x in s'.watches
      ensures || (x in s.watches && s'.watches[x] == s.watches[x])
              || NewRun(s, s', Run(s'.watches[x].doc, Geolocation, x))
    {
      var r := Run(s'.watches[x].doc, Geolocation, x);
      if NewRun(s1, s', r) { NewRunStays(s, s1, s', s', r); }
      else if NewRun(s, s1, r) { NewRunStays(s, s, s1, s', r); }
    }
    forall i | |s.runs| <= i < |s'.runs| ensures s'.runs[i] in p.runs {
      if i < |s1.runs| { assert s'.runs[i] == s1.runs[i]; }
    }
  }

  // A part that begins nothing is within every permit.
  ghost predicate Calm(s: State, s': State) {
    && s'.runs == s.runs
    && (forall k :: k in s'.batches ==> Continues(s, s', k))
    && (forall x :: x in s'.watches ==> x in s.watches && s'.watches[x] == s.watches[x])
  }

  lemma CalmBegins(s: State, s': State, p: Permit)
    requires Calm(s, s')
    ensures Begins(s, s', p)
  {
  }

  lemma CalmTrans(s: State, s1: State, s': State)
    requires Calm(s, s1) && Calm(s1, s')
    ensures Calm(s, s')
  {
  }

  // First nothing, then something; or the other way round.
  lemma ThenBegins(s: State, s1: State, s': State, p: Permit)
    requires Calm(s, s1) && Begins(s1, s', p)
    ensures Begins(s, s', p)
  {
    hide Begins, Calm;
    CalmBegins(s, s1, p);
    BeginsTrans(s, s1, s', p);
  }

  lemma BeginsThen(s: State, s1: State, s': State, p: Permit)
    requires Begins(s, s1, p) && Calm(s1, s')
    ensures Begins(s, s', p)
  {
    hide Begins, Calm;
    CalmBegins(s1, s', p);
    BeginsTrans(s, s1, s', p);
  }

  lemma MoreBegins(s: State, s': State, p: Permit, q: Permit)
    requires Begins(s, s', p) && p.runs <= q.runs
    requires p.runs == {} || (p.mode == q.mode && p.token == q.token)
    requires p.asks.Some? ==> p.asks == q.asks
    ensures Begins(s, s', q)
  {
  }

  /********** Parts that begin nothing **********/

  // Neither runs, work nor watches change.
  lemma AsideCalm(s: State, s': State)
    requires s'.runs == s.runs && s'.batches == s.batches && s'.watches == s.watches
    ensures Calm(s, s')
  {
  }

  lemma RespondCalm(s: State, d: nat, id: Id, status: Status, event: Event, about: Option<Id>, reason: Reason)
    ensures Calm(s, Respond(s, d, id, status, event, about, reason))
  {
  }

  lemma AdvanceCalm(s: State)
    ensures Calm(s, Advance(s))
  {
  }

  lemma ReleaseCalm(s: State, k: nat)
    requires k in s.batches
    ensures Calm(s, Release(s, k))
  {
  }

  lemma FinishCalm(s: State, k: nat)
    requires k in s.batches && s.batches[k].work.Showing?
    ensures Calm(s, FinishShow(s, k))
  {
  }

  lemma SuspendCalm(s: State, k: nat, phase: Phase, registered: bool)
    requires k in s.batches && s.batches[k].work.Showing?
    ensures Calm(s, Suspend(s, k, phase, registered))
  {
  }

  // Work on notifications and answers, then the end of the show.
  lemma FinishesCalm(s: State, s1: State, k: nat)
    requires k in s.batches && s.batches[k].work.Showing?
    requires s1.runs == s.runs && s1.batches == s.batches && s1.watches == s.watches
    ensures Calm(s, FinishShow(s1, k))
  {
    AsideCalm(s, s1);
    FinishCalm(s1, k);
    CalmTrans(s, s1, FinishShow(s1, k));
  }

  lemma SuspendsCalm(s: State, s1: State, k: nat, phase: Phase, registered: bool)
    requires k in s.batches && s.batches[k].work.Showing?
    requires s1.runs == s.runs && s1.batches == s.batches && s1.watches == s.watches
    ensures Calm(s, Suspend(s1, k, phase, registered))
  {
    AsideCalm(s, s1);
    SuspendCalm(s1, k, phase, registered);
    CalmTrans(s, s1, Suspend(s1, k, phase, registered));
  }

  lemma DisplayCalm(s: State, k: nat, registered: bool, env: Env)
    requires k in s.batches && s.batches[k].work.Showing?
    ensures Calm(s, Display(s, k, registered, env))
  {
    hide Calm, FinishShow, Suspend;
    var d, id := s.batches[k].doc, s.batches[k].work.id;
    var reserved := s.(notices := s.notices[id := Worker(k, d, true)]);
    FinishesCalm(s, s, k);
    FinishesCalm(s, Uncancel(s, id), k);
    FinishesCalm(s, Respond(s, d, id, Failed, Silent, Some(id), TooManyNotifications), k);
    FinishesCalm(s, Respond(reserved.(notices := reserved.notices[id := Native(k, d)]), d, id, Ok, Silent, Some(id),
                            NoReason), k);
    FinishesCalm(s, Respond(DeleteReservation(reserved, id, k), d, id, Failed, Silent, Some(id),
                            Protocol.Unavailable), k);
    SuspendsCalm(s, reserved, k, if registered then Displaying else FindFallback, registered);
  }

  lemma CatchCalm(s: State, k: nat)
    requires k in s.batches && s.batches[k].work.Showing?
    ensures Calm(s, CatchShow(s, k))
  {
    hide Calm, FinishShow;
    var d, id := s.batches[k].doc, s.batches[k].work.id;
    FinishesCalm(s, DeleteReservation(s, id, k), k);
    FinishesCalm(s, DeleteReservation(Uncancel(s, id), id, k), k);
    FinishesCalm(s, Respond(DeleteReservation(s, id, k), d, id, Failed, Errored, Some(id), NativeFailure), k);
  }

  lemma FindWorkerCalm(s: State, k: nat, env: Env)
    requires k in s.batches && s.batches[k].work.Showing?
    ensures Calm(s, ResumeFindWorker(s, k, env))
  {
    hide Calm, FinishShow, Suspend, Display;
    var id := s.batches[k].work.id;
    DisplayCalm(s, k, false, env);
    FinishesCalm(s, s, k);
    FinishesCalm(s, Uncancel(s, id), k);
    SuspendsCalm(s, s, k, FirstReconcile, true);
  }

  lemma FirstReconcileCalm(s: State, k: nat, env: Env)
    requires k in s.batches && s.batches[k].work.Showing?
    ensures Calm(s, ResumeFirstReconcile(s, k, env))
  {
    hide Calm, Display;
    var s1 := if env.failed then s else Reconcile(s, s.batches[k].doc, env.vanished);
    AsideCalm(s, s1);
    DisplayCalm(s1, k, true, env);
    CalmTrans(s, s1, Display(s1, k, true, env));
  }

  lemma FindFallbackCalm(s: State, k: nat, env: Env)
    requires k in s.batches && s.batches[k].work.Showing?
    ensures Calm(s, ResumeFindFallback(s, k, env))
  {
    hide Calm, FinishShow, Suspend, CatchShow;
    var d, id := s.batches[k].doc, s.batches[k].work.id;
    CatchCalm(s, k);
    FinishesCalm(s, DeleteReservation(s, id, k), k);
    FinishesCalm(s, DeleteReservation(Uncancel(s, id), id, k), k);
    FinishesCalm(s, Respond(DeleteReservation(s, id, k), d, id, Failed, Silent, Some(id), Protocol.Unavailable), k);
    SuspendsCalm(s, s, k, Displaying, s.batches[k].work.registered);
  }

  lemma DisplayingCalm(s: State, k: nat, env: Env)
    requires k in s.batches && s.batches[k].work.Showing?
    ensures Calm(s, ResumeDisplaying(s, k, env)) && Calm(s, ResumeWithdrawing(s, k, env))
  {
    hide Calm, FinishShow, Suspend, CatchShow;
    var id, registered := s.batches[k].work.id, s.batches[k].work.registered;
    CatchCalm(s, k);
    SuspendsCalm(s, s, k, Withdrawing, registered);
    SuspendsCalm(s, Uncancel(s, id), k, Withdrawing, registered);
    SuspendsCalm(s, s, k, LastReconcile, registered);
    FinishesCalm(s, DeleteReservation(s, id, k), k);
  }

  lemma LastReconcileCalm(s: State, k: nat, env: Env)
    requires k in s.batches && s.batches[k].work.Showing?
    ensures Calm(s, ResumeLastReconcile(s, k, env))
  {
    hide Calm, FinishShow;
    var d, id := s.batches[k].doc, s.batches[k].work.id;
    var s1 := if env.failed then s else Reconcile(s, d, env.vanished);
    FinishesCalm(s, DeleteReservation(s1, id, k), k);
    FinishesCalm(s, DeleteReservation(Uncancel(s1, id), id, k), k);
    FinishesCalm(s, s1, k);
    FinishesCalm(s, Respond(s1.(notices := s1.notices[id := Worker(k, d, false)]), d, id, Ok, Shown, Some(id),
                            NoReason), k);
  }

  lemma ResumeCalm(s: State, k: nat, env: Env)
    requires k in s.batches && s.batches[k].work.Showing?
    ensures Calm(s, ResumeShow(s, k, env))
  {
    hide Calm, ResumeFindWorker, ResumeFirstReconcile, ResumeFindFallback, ResumeDisplaying, ResumeWithdrawing,
         ResumeLastReconcile;
    match s.batches[k].work.phase
    case FindWorker => FindWorkerCalm(s, k, env);
    case FirstReconcile => FirstReconcileCalm(s, k, env);
    case FindFallback => FindFallbackCalm(s, k, env);
    case Displaying => DisplayingCalm(s, k, env);
    case Withdrawing => DisplayingCalm(s, k, env);
    case LastReconcile => LastReconcileCalm(s, k, env);
  }

  lemma LocationSettlesCalm(s: State, k: nat, fix: Fix)
    requires k in s.batches && s.batches[k].work.Locating?
    ensures Calm(s, SettleLocation(s, k, fix))
  {
  }

  lemma EventsCalm(s: State, id: Id, d: nat, fix: Fix, handle: nat, event: Event)
    ensures Calm(s, WatchEvent(s, id, d, fix)) && Calm(s, NoticeEvent(s, id, handle, event))
  {
  }

  lemma ResetCalm(s: State)
    ensures Calm(s, Reset(s)) && Calm(s, Revoke(s)) && Calm(s, FrameLoaded(s))
  {
  }

  lemma DenyCalm(s: State)
    ensures Calm(s, Deny(s))
  {
    hide Advance, Matching, Without;
    if s.queue != [] && Live(s, s.queue[0].doc) {
      var current, doc := s.queue[0], s.active.value;
      var s1 := WithDoc(s, doc.(denied := doc.denied + {current.cap},
                                revision := if current.cap == Notifications then doc.revision + 1 else doc.revision));
      var denied := Matching(s1.queue, current.doc, current.cap);
      AdvanceCalm(AnswerAll(s1.(queue := Without(s1.queue, denied)), denied, Denied, Refused));
    } else {
      AdvanceCalm(s);
    }
  }

  lemma ClearCalm(s: State, doc: Doc, id: Id, target: Id)
    ensures Calm(s, ClearLocation(s, doc, id, target))
  {
  }

  lemma CloseCalm(s: State, doc: Doc, id: Id, target: Id)
    ensures Calm(s, CloseNotification(s, doc, id, target))
  {
  }

  lemma CancelCalm(s: State, doc: Doc, id: Id, target: Id)
    ensures Calm(s, CancelClipboard(s, doc, id, target))
  {
  }

  /********** Parts that begin native work **********/

  lemma RunMember(items: seq<Queued>, q: Queued)
    requires q in items
    ensures RunOf(q) in RunsOf(items)
  {
    var i :| 0 <= i < |items| && items[i] == q;
  }

  // One run is logged.
  lemma BegunBegins(s: State, d: nat, cap: Capability, id: Id, p: Permit)
    requires Run(d, cap, id) in p.runs
    ensures Begins(s, Begun(s, d, cap, id), p) && NewRun(s, Begun(s, d, cap, id), Run(d, cap, id))
  {
    var s' := Begun(s, d, cap, id);
    assert s'.runs[|s.runs|] == Run(d, cap, id);
  }

  // Work whose run was logged just before.
  lemma WorkBegins(s: State, s1: State, d: nat, id: Id, work: Work, p: Permit)
    requires Begins(s, s1, p) && Permitted(s, s1, Batch(Fresh(s1.next, 1), d, work), p)
    ensures Begins(s, Begin(s1, d, 1, {id}, work), p)
  {
    hide Permitted, NewRun;
    var s' := Begin(s1, d, 1, {id}, work);
    forall k | k in s'.batches ensures Continues(s, s', k) || Permitted(s, s', s'.batches[k], p) {
      if k != s1.next {
        assert Continues(s, s1, k) || Permitted(s, s1, s1.batches[k], p);
        if Permitted(s, s1, s1.batches[k], p) { PermittedStays(s, s, s1, s', s1.batches[k], p); }
      } else {
        PermittedStays(s, s, s1, s', s'.batches[k], p);
      }
    }
    forall x | x in s'.watches
      ensures || (x in s.watches && s'.watches[x] == s.watches[x])
              || NewRun(s, s', Run(s'.watches[x].doc, Geolocation, x))
    {
      var r := Run(s'.watches[x].doc, Geolocation, x);
      if NewRun(s, s1, r) { NewRunStays(s, s, s1, s', r); }
    }
  }

  lemma WatchBegins(s: State, s1: State, id: Id, w: Watch, p: Permit)
    requires Begins(s, s1, p) && NewRun(s, s1, Run(w.doc, Geolocation, id))
    ensures Begins(s, s1.(watches := s1.watches[id := w], next := s1.next + 1), p)
  {
    hide Permitted, NewRun;
    var s' := s1.(watches := s1.watches[id := w], next := s1.next + 1);
    forall k | k in s'.batches ensures Continues(s, s', k) || Permitted(s, s', s'.batches[k], p) {
      assert Continues(s, s1, k) || Permitted(s, s1, s1.batches[k], p);
      if Permitted(s, s1, s1.batches[k], p) { PermittedStays(s, s, s1, s', s1.batches[k], p); }
    }
    forall x | x in s'.watches
      ensures || (x in s.watches && s'.watches[x] == s.watches[x])
              || NewRun(s, s', Run(s'.watches[x].doc, Geolocation, x))
    {
      var r := Run(s'.watches[x].doc, Geolocation, x);
      if NewRun(s, s1, r) { NewRunStays(s, s, s1, s', r); }
    }
  }

  lemma LocateBegins(s: State, s1: State, d: nat, id: Id, op: Op, env: Env, p: Permit)
    requires Begins(s, s1, p) && NewRun(s, s1, Run(d, Geolocation, id))
    ensures Begins(s, ExecuteGeolocation(s1, d, id, op, env), p)
  {
    hide Begins, NewRun, Begin, BrokerSpec.Respond;
    RespondsThen(s, s1, d, id, Failed, Silent, None, Protocol.Unavailable, p);
    RespondsThen(s, s1, d, id, Failed, Silent, None, TooManyOperations, p);
    RespondsThen(s, s1, d, id, Failed, Silent, None, NativeFailure, p);
    RespondsThen(s, s1, d, id, Failed, Silent, None, TooManyWatches, p);
    WorkBegins(s, s1, d, id, Locating(id), p);
    WatchBegins(s, s1, id, Watch(s1.next, d), p);
  }

  lemma RespondsThen(s: State, s1: State, d: nat, id: Id, status: Status, event: Event, about: Option<Id>,
                     reason: Reason, p: Permit)
    requires Begins(s, s1, p)
    ensures Begins(s, Respond(s1, d, id, status, event, about, reason), p)
  {
    hide Begins, Calm;
    RespondCalm(s1, d, id, status, event, about, reason);
    BeginsThen(s, s1, Respond(s1, d, id, status, event, about, reason), p);
  }

  lemma ShowBegins(s: State, s1: State, d: nat, id: Id, env: Env, p: Permit)
    requires Begins(s, s1, p) && NewRun(s, s1, Run(d, Notifications, id))
    ensures Begins(s, ShowNotification(s1, d, id, env), p)
  {
    hide Begins, NewRun, Begin, BrokerSpec.Respond, Display, Calm;
    RespondsThen(s, s1, d, id, Denied, Silent, Some(id), Refused, p);
    RespondsThen(s, s1, d, id, Failed, Silent, Some(id), TooManyOperations, p);
    WorkBegins(s, s1, d, id, Showing(id, FindWorker, false), p);
    var s2 := Begin(s1, d, 1, {id}, Showing(id, FindWorker, false));
    ShowsNext(s1, d, id);
    DisplayCalm(s2, s1.next, false, env);
    BeginsThen(s, s2, Display(s2, s1.next, false, env), p);
  }

  lemma ShowsNext(s: State, d: nat, id: Id)
    ensures var s2 := Begin(s, d, 1, {id}, Showing(id, FindWorker, false));
            s.next in s2.batches && s2.batches[s.next].work.Showing?
  {
  }

  lemma GrantedBegins(s: State, d: nat, id: Id, op: Op, env: Env, p: Permit)
    requires CapabilityOf(op).Some? ==> Run(d, CapabilityOf(op).value, id) in p.runs
    ensures Begins(s, ExecuteGranted(s, d, id, op, env), p)
  {
    hide Begins, NewRun, ExecuteGeolocation, ShowNotification, Begun, BrokerSpec.Respond, Calm;
    AsideCalm(s, s);
    CalmBegins(s, s, p);
    RespondsThen(s, s, d, id, Failed, Silent, None, NativeFailure, p);
    if CapabilityOf(op).Some? {
      var cap := CapabilityOf(op).value;
      BegunBegins(s, d, cap, id, p);
      LocateOrShow(s, d, id, op, env, p);
      RespondsThen(s, Begun(s, d, cap, id), d, id, Ok, Silent, None, NoReason, p);
    }
  }

  lemma LocateOrShow(s: State, d: nat, id: Id, op: Op, env: Env, p: Permit)
    requires CapabilityOf(op).Some? && Run(d, CapabilityOf(op).value, id) in p.runs
    ensures var s1 := Begun(s, d, CapabilityOf(op).value, id);
            && (CapabilityOf(op) == Some(Geolocation) ==> Begins(s, ExecuteGeolocation(s1, d, id, op, env), p))
            && (CapabilityOf(op) == Some(Notifications) ==> Begins(s, ShowNotification(s1, d, id, env), p))
  {
    hide Begins, NewRun, ExecuteGeolocation, ShowNotification, Begun;
    var s1 := Begun(s, d, CapabilityOf(op).value, id);
    BegunBegins(s, d, CapabilityOf(op).value, id, p);
    if CapabilityOf(op) == Some(Geolocation) { LocateBegins(s, s1, d, id, op, env, p); }
    if CapabilityOf(op) == Some(Notifications) { ShowBegins(s, s1, d, id, env, p); }
  }

  // Requests that are what they say.
  predicate Typed(items: seq<Queued>) { forall q :: q in items ==> CapabilityOf(q.op) == Some(q.cap) }

  lemma {:induction false} AllBegin(s: State, items: seq<Queued>, env: Env, p: Permit)
    requires Typed(items) && RunsOf(items) <= p.runs
    ensures Begins(s, ExecuteAll(s, items, env), p)
    decreases |items|
  {
    hide Begins, Calm, ExecuteGranted;
    if items == [] {
      AsideCalm(s, s);
      CalmBegins(s, s, p);
    } else {
      RunMember(items, items[0]);
      FewerRuns(items);
      var s1 := ExecuteGranted(s, items[0].doc, items[0].id, items[0].op, env);
      assert items[0] in items;
      GrantedBegins(s, items[0].doc, items[0].id, items[0].op, env, p);
      AllBegin(s1, items[1..], env, p);
      BeginsTrans(s, s1, ExecuteAll(s1, items[1..], env), p);
    }
  }

  lemma FewerRuns(items: seq<Queued>)
    requires items != []
    ensures RunsOf(items[1..]) <= RunsOf(items)
  {
    forall r | r in RunsOf(items[1..]) ensures r in RunsOf(items) {
      var i :| 0 <= i < |items[1..]| && RunOf(items[1..][i]) == r;
      assert items[i + 1] == items[1..][i];
    }
  }

  lemma CopyBegins(s: State, d: nat, id: Id, op: Op, mode: Mode, token: Option<Grants.Token>, env: Env, p: Permit)
    requires CapabilityOf(op).Some? ==> Run(d, CapabilityOf(op).value, id) in p.runs
    requires mode == p.mode && token == p.token
    ensures Begins(s, ExecuteClipboard(s, d, id, op, mode, token, env), p)
  {
    hide Begins, NewRun, Begun, Begin, BrokerSpec.Respond, Calm;
    AsideCalm(s, s);
    CalmBegins(s, s, p);
    RespondsThen(s, s, d, id, Denied, Silent, None, ApprovalChanged, p);
    RespondsThen(s, s, d, id, Failed, Silent, None, TooManyOperations, p);
    if CapabilityOf(op).Some? {
      var cap := CapabilityOf(op).value;
      BegunBegins(s, d, cap, id, p);
      WorkBegins(s, Begun(s, d, cap, id), d, id, Clipping(id, cap, mode, token), p);
    }
  }

  lemma {:induction false} SiblingsBegin(s: State, items: seq<Queued>, token: Option<Grants.Token>, env: Env, p: Permit)
    requires Typed(items) && RunsOf(items) <= p.runs && p.mode == Saved && p.token == token
    ensures Begins(s, ExecuteSiblings(s, items, token, env), p)
    decreases |items|
  {
    hide Begins, Calm, ExecuteClipboard;
    if items == [] {
      AsideCalm(s, s);
      CalmBegins(s, s, p);
    } else {
      RunMember(items, items[0]);
      FewerRuns(items);
      assert items[0] in items;
      var s1 := ExecuteClipboard(s, items[0].doc, items[0].id, items[0].op, Saved, token, env);
      CopyBegins(s, items[0].doc, items[0].id, items[0].op, Saved, token, env, p);
      SiblingsBegin(s1, items[1..], token, env, p);
      BeginsTrans(s, s1, ExecuteSiblings(s1, items[1..], token, env), p);
    }
  }

  /********** What each step may begin **********/

  // The choice behind a click on allow stands: its token is ready, or storage is proved empty and it counts once.
  predicate Stands(choice: Grants.Approval) {
    (choice.Ready? && choice.cleared) || (choice.Unavailable? && choice.empty)
  }

  function TokenOf(choice: Grants.Approval): Option<Grants.Token> {
    if choice.Ready? then Some(choice.token) else None
  }

  // An approval for the capability is saved, and what the browser asks for beside it is there.
  predicate Approved(cap: Capability, env: Env) {
    env.saved.Some? && (IsClipboard(cap) ==> env.activated) && (cap == Notifications ==> env.nativeGranted)
  }

  // The click decides this request.
  predicate Clicked(s: State, a: Action, env: Env, q: Queued) {
    a.ClickAllow? && s.queue != [] && s.queue[0] == q && Live(s, q.doc) && Stands(env.choice)
  }

  // The native prompt or clipboard call of an "always" choice succeeds, and the choice is saved.
  predicate SavesPrompt(s: State, a: Action, env: Env) {
    && a.PromptSettles? && Enabled(s, a) && a.status == Ok
    && s.batches[a.batch].work.mode == Always && s.batches[a.batch].work.token.Some?
    && env.currentBefore && env.currentAfter && env.stored
  }

  predicate SavesCopy(s: State, a: Action, env: Env) {
    && a.ClipboardSettles? && Enabled(s, a)
    && s.batches[a.batch].work.mode == Always && s.batches[a.batch].work.token.Some?
    && env.currentBefore && env.currentAfter && env.stored && env.activated && !env.failed
  }

  // The request arrives when an approval for it is saved.
  predicate Arrives(s: State, a: Action, env: Env, q: Queued) {
    && a.Receive? && a.message.Request? && Accepts(s, a.message.client)
    && q == Queued(s.generation, q.cap, a.message.id, a.message.op) && CapabilityOf(q.op) == Some(q.cap)
    && q.id !in s.active.value.requests && q.cap !in s.active.value.denied && Approved(q.cap, env)
  }

  // A sibling that an "always" choice lets through when it is saved.
  predicate Follows(s: State, a: Action, env: Env, q: Queued) {
    match a
    case ClickAllow(mode) =>
      && mode == Always && s.queue != [] && Clicked(s, a, env, s.queue[0]) && env.choice.Ready? && env.stored
      && q in s.queue && q.doc == s.queue[0].doc && q.cap == s.queue[0].cap && q.cap == Geolocation
    case ClipboardSettles(k) =>
      SavesCopy(s, a, env) && q in s.queue && q.doc == s.batches[k].doc && q.cap == s.batches[k].work.cap
    case PromptSettles(k, status, dismissed) => SavesPrompt(s, a, env) && q in s.batches[k].work.items
    case _ => false
  }

  // The request of the click whose native prompt settles, if the choice still stands.
  predicate Granted(s: State, a: Action, env: Env, q: Queued) {
    && a.PromptSettles? && Enabled(s, a) && a.status == Ok && env.currentBefore && env.currentAfter
    && q == s.batches[a.batch].work.current
  }

  // Any of these.
  predicate Warrants(s: State, a: Action, env: Env, q: Queued) {
    || Arrives(s, a, env, q) || (Clicked(s, a, env, q) && q.cap != Notifications)
    || Follows(s, a, env, q) || Granted(s, a, env, q)
  }

  // The requests whose native work the step may begin.
  function Passing(s: State, a: Action, env: Env): seq<Queued> {
    match a
    case Receive(m) =>
      if m.Request? && CapabilityOf(m.op).Some?
         && Arrives(s, a, env, Queued(s.generation, CapabilityOf(m.op).value, m.id, m.op))
      then [Queued(s.generation, CapabilityOf(m.op).value, m.id, m.op)] else []
    case ClickAllow(mode) =>
      if s.queue == [] || !Clicked(s, a, env, s.queue[0]) || s.queue[0].cap == Notifications then []
      else if mode == Always && env.choice.Ready? && env.stored && s.queue[0].cap == Geolocation
      then Matching(s.queue, s.queue[0].doc, Geolocation)
      else [s.queue[0]]
    case ClipboardSettles(k) =>
      if SavesCopy(s, a, env) then Matching(s.queue, s.batches[k].doc, s.batches[k].work.cap) else []
    case PromptSettles(k, status, dismissed) =>
      if !Enabled(s, a) || status != Ok || !env.currentBefore || !env.currentAfter then []
      else if s.batches[k].work.mode == Always && !SavesPrompt(s, a, env) then [s.batches[k].work.current]
      else s.batches[k].work.items
    case _ => []
  }

  // The native prompt that the step may open.
  function Prompting(s: State, a: Action, env: Env): Option<Work> {
    if a.ClickAllow? && s.queue != [] && Clicked(s, a, env, s.queue[0]) && s.queue[0].cap == Notifications then
      var all := a.mode == Always && env.choice.Ready?;
      Some(Consenting(a.mode, s.queue[0],
                      if all then Matching(s.queue, s.queue[0].doc, Notifications) else [s.queue[0]],
                      s.active.value.revision + 1, TokenOf(env.choice)))
    else None
  }

  function PermitFor(s: State, a: Action, env: Env): Permit {
    Permit(RunsOf(Passing(s, a, env)),
           if a.ClickAllow? then a.mode else Saved,
           match a
           case ClickAllow(mode) => TokenOf(env.choice)
           case ClipboardSettles(k) =>
             if Enabled(s, a) then s.batches[k].work.token else None
           case _ => env.saved,
           Prompting(s, a, env))
  }

  /********** Each step **********/

  lemma AskBegins(s: State, d: nat, id: Id, op: Op, cap: Capability, env: Env, p: Permit)
    requires CapabilityOf(op) == Some(cap) && p.mode == Saved && p.token == env.saved
    requires BrokerSpec.Allowed(s, cap) && Approved(cap, env) ==> Run(d, cap, id) in p.runs
    ensures Begins(s, RequestCapability(s, d, id, op, cap, env), p)
  {
    hide Begins, Calm, ExecuteClipboard, ExecuteGranted, BrokerSpec.Respond, Advance;
    AsideCalm(s, s);
    CalmBegins(s, s, p);
    RespondsThen(s, s, d, id, Denied, Silent, None, Refused, p);
    RespondsThen(s, s, d, id, Failed, Silent, None, TooManyPending, p);
    QueuesCalm(s, s.queue + [Queued(d, cap, id, op)], p);
    if BrokerSpec.Allowed(s, cap) && Approved(cap, env) {
      CopyBegins(s, d, id, op, Saved, env.saved, env, p);
      GrantedBegins(s, d, id, op, env, p);
    }
  }

  lemma QueuesCalm(s: State, queue: seq<Queued>, p: Permit)
    ensures Begins(s, Advance(s.(queue := queue)), p)
  {
    hide Begins, Calm, Advance;
    AsideCalm(s, s.(queue := queue));
    AdvanceCalm(s.(queue := queue));
    CalmTrans(s, s.(queue := queue), Advance(s.(queue := queue)));
    CalmBegins(s, Advance(s.(queue := queue)), p);
  }

  lemma DispatchBegins(s: State, doc: Doc, id: Id, op: Op, target: Id, env: Env, p: Permit)
    requires p.mode == Saved && p.token == env.saved
    requires CapabilityOf(op).Some? ==>
               var cap := CapabilityOf(op).value;
               BrokerSpec.Allowed(s, cap) && Approved(cap, env) ==> Run(doc.generation, cap, id) in p.runs
    ensures Begins(s, Dispatch(s, doc, id, op, target, env), p)
  {
    hide Begins, Calm, RequestCapability, ClearLocation, CloseNotification, CancelClipboard;
    AsideCalm(s, s);
    ClearCalm(s, doc, id, target);
    CloseCalm(s, doc, id, target);
    CancelCalm(s, doc, id, target);
    CalmBegins(s, s, p);
    CalmBegins(s, ClearLocation(s, doc, id, target), p);
    CalmBegins(s, CloseNotification(s, doc, id, target), p);
    CalmBegins(s, CancelClipboard(s, doc, id, target), p);
    if CapabilityOf(op).Some? { AskBegins(s, doc.generation, id, op, CapabilityOf(op).value, env, p); }
  }

  lemma RequestBegins(s: State, client: Client, id: Id, op: Op, target: Id, env: Env)
    requires s.active.Some? ==> s.active.value.generation == s.generation
    ensures var a := Receive(Request(client, id, op, target));
            Begins(s, HandleRequest(s, client, id, op, target, env), PermitFor(s, a, env))
  {
    hide Begins, Calm, Dispatch, BrokerSpec.Respond, Prune;
    var a := Receive(Request(client, id, op, target));
    var p := PermitFor(s, a, env);
    AsideCalm(s, s.(posts := s.posts + [Response(client, id, Failed, Silent, None, UnknownDocument)]));
    CalmBegins(s, s.(posts := s.posts + [Response(client, id, Failed, Silent, None, UnknownDocument)]), p);
    AsideCalm(s, s);
    CalmBegins(s, s, p);
    if Accepts(s, client) {
      var doc := s.active.value;
      RespondsThen(s, s, doc.generation, id, Failed, Silent, None, DuplicateRequest, p);
      if id !in doc.requests {
        var pruned := Prune(doc, Protected(s));
        PruneKind(doc, Protected(s));
        AsideCalm(s, WithDoc(s, pruned));
        CalmBegins(s, WithDoc(s, pruned), p);
        RespondsThen(s, WithDoc(s, pruned), doc.generation, id, Failed, Silent, None, TooManyActive, p);
        var s1 := WithDoc(s, Remember(pruned, id, op));
        AsideCalm(s, s1);
        PassesArrival(s, client, id, op, target, env);
        DispatchBegins(s1, Remember(pruned, id, op), id, op, target, env, p);
        ThenBegins(s, s1, Dispatch(s1, Remember(pruned, id, op), id, op, target, env), p);
      }
    }
  }

  lemma PruneKind(doc: Doc, owners: set<Id>)
    ensures Prune(doc, owners).generation == doc.generation && Prune(doc, owners).denied == doc.denied
  {
  }

  lemma PassesArrival(s: State, client: Client, id: Id, op: Op, target: Id, env: Env)
    requires Accepts(s, client) && id !in s.active.value.requests && CapabilityOf(op).Some?
             ==> s.active.value.generation == s.generation
    ensures var a, cap := Receive(Request(client, id, op, target)), CapabilityOf(op);
            (Accepts(s, client) && id !in s.active.value.requests && cap.Some? && Approved(cap.value, env)
             && BrokerSpec.Allowed(s, cap.value)) ==> Run(s.generation, cap.value, id) in PermitFor(s, a, env).runs
  {
    var a, cap := Receive(Request(client, id, op, target)), CapabilityOf(op);
    if Accepts(s, client) && id !in s.active.value.requests && cap.Some? && Approved(cap.value, env)
       && BrokerSpec.Allowed(s, cap.value) {
      RunMember(Passing(s, a, env), Queued(s.generation, cap.value, id, op));
    }
  }

  lemma MessageBegins(s: State, m: Message, env: Env)
    requires s.active.Some? ==> s.active.value.generation == s.generation
    ensures Begins(s, HandleMessage(s, m, env), PermitFor(s, Receive(m), env))
  {
    hide Begins, Calm, HandleRequest, PermitFor, BrokerSpec.Respond;
    var p := PermitFor(s, Receive(m), env);
    AsideCalm(s, s);
    CalmBegins(s, s, p);
    match m
    case Disconnect(client) =>
      ResetCalm(s);
      CalmBegins(s, Reset(s), p);
    case Garbled(client, id) =>
      if s.active.Some? {
        RespondsThen(s, s, s.active.value.generation, id, Failed, Silent, None, MalformedRequest, p);
      }
    case Request(client, id, op, target) =>
      if op == Connect { ConnectBegins(s, client, id, p); } else { RequestBegins(s, client, id, op, target, env); }
  }

  lemma ConnectBegins(s: State, client: Client, id: Id, p: Permit)
    ensures Begins(s, HandleConnect(s, client, id), p)
  {
    CalmBegins(s, HandleConnect(s, client, id), p);
  }

  lemma MatchingTyped(queue: seq<Queued>, d: nat, cap: Capability)
    requires Typed(queue)
    ensures Typed(Matching(queue, d, cap))
  {
  }

  lemma OutcomeBegins(s: State, d: nat, w: Work, env: Env, p: Permit)
    requires w.Clipping? && Typed(s.queue) && p.mode == Saved && p.token == w.token
    requires (w.mode == Always && w.token.Some? && env.currentBefore && env.currentAfter && env.stored && env.activated
              && !env.failed) ==> RunsOf(Matching(s.queue, d, w.cap)) <= p.runs
    ensures Begins(s, ClipboardOutcome(s, d, w, env), p)
  {
    hide Begins, Calm, BrokerSpec.Respond, Advance, ExecuteSiblings, RunsOf;
    AsideCalm(s, s);
    CalmBegins(s, s, p);
    RespondsThen(s, s, d, w.id, Denied, Silent, None, ApprovalChanged, p);
    RespondsThen(s, s, d, w.id, Failed, Silent, None, NativeFailure, p);
    RespondsThen(s, s, d, w.id, Ok, Silent, None, NoReason, p);
    var s1 := Answer(s, d, w.id, Ok, NoReason);
    AdvancesThen(s, s1, p);
    AnswerQueue(s, d, w.id);
    var siblings := Matching(s1.queue, d, w.cap);
    MatchingTyped(s.queue, d, w.cap);
    if w.mode == Always && w.token.Some? && env.currentBefore && env.currentAfter && env.stored && env.activated
       && !env.failed {
      var s2 := s1.(queue := Without(s1.queue, siblings));
      AsideCalm(s1, s2);
      BeginsThen(s, s1, s2, p);
      SiblingsBegin(s2, siblings, w.token, env, p);
      BeginsTrans(s, s2, ExecuteSiblings(s2, siblings, w.token, env), p);
      AdvancesThen(s, ExecuteSiblings(s2, siblings, w.token, env), p);
    }
  }

  lemma AnswerQueue(s: State, d: nat, id: Id)
    ensures Answer(s, d, id, Ok, NoReason).queue == s.queue
  {
  }

  lemma AdvancesThen(s: State, s1: State, p: Permit)
    requires Begins(s, s1, p)
    ensures Begins(s, Advance(s1), p)
  {
    hide Begins, Calm, Advance;
    AdvanceCalm(s1);
    BeginsThen(s, s1, Advance(s1), p);
  }

  lemma CopySettlesBegins(s: State, k: nat, env: Env)
    requires k in s.batches && s.batches[k].work.Clipping? && Typed(s.queue)
    ensures Begins(s, SettleClipboard(s, k, env), PermitFor(s, ClipboardSettles(k), env))
  {
    hide Begins, Calm, ClipboardOutcome, Release, RunsOf;
    var d, w, p := s.batches[k].doc, s.batches[k].work, PermitFor(s, ClipboardSettles(k), env);
    var s1 := Release(s, k);
    ReleaseCalm(s, k);
    ReleaseQueue(s, k);
    CalmBegins(s, s1, p);
    var s2 := Land(s1, w.id);
    AsideCalm(s1, s2);
    CalmTrans(s, s1, s2);
    AsideCalm(s1, Uncancel(s2, w.id));
    CalmTrans(s, s1, Uncancel(s2, w.id));
    CalmBegins(s, Uncancel(s2, w.id), p);
    OutcomeBegins(s2, d, w, env, p);
    ThenBegins(s, s2, ClipboardOutcome(s2, d, w, env), p);
  }

  lemma ReleaseQueue(s: State, k: nat)
    requires k in s.batches
    ensures Release(s, k).queue == s.queue && Release(s, k).active == s.active
  {
  }

  lemma ItemBegins(s: State, mode: Mode, current: Queued, item: Queued, v: Verdict, env: Env, p: Permit)
    requires CapabilityOf(item.op) == Some(item.cap)
    requires v.currentChoice && v.status == Ok && (item == current || mode != Always || v.saved)
             ==> RunOf(item) in p.runs
    ensures Begins(s, SettleItem(s, mode, current, item, v, env), p)
  {
    hide Begins, Calm, BrokerSpec.Respond, ExecuteGranted;
    var d, id, s1 := item.doc, item.id, Land(s, item.id);
    AsideCalm(s, s1);
    CalmBegins(s, s1, p);
    AsideCalm(s, Uncancel(s1, id));
    CalmBegins(s, Uncancel(s1, id), p);
    RespondsThen(s, s1, d, id, Denied, Silent, None, Refused, p);
    RespondsThen(s, s1, d, id, Ok, Silent, None, NoReason, p);
    RespondsThen(s, s1, d, id, Denied, Silent, Some(id), ApprovalChanged, p);
    RespondsThen(s, s1, d, id, Failed, Silent, None, NativeFailure, p);
    AsideCalm(s, s1.(queue := s1.queue + [item]));
    CalmBegins(s, s1.(queue := s1.queue + [item]), p);
    if v.currentChoice && v.status == Ok && (item == current || mode != Always || v.saved) {
      GrantedBegins(s1, d, id, item.op, env, p);
      ThenBegins(s, s1, ExecuteGranted(s1, d, id, item.op, env), p);
    }
  }

  lemma {:induction false} ItemsBegin(s: State, mode: Mode, current: Queued, items: seq<Queued>, v: Verdict, env: Env,
                                      p: Permit)
    requires Typed(items)
    requires forall q :: q in items && v.currentChoice && v.status == Ok && (q == current || mode != Always || v.saved)
                         ==> RunOf(q) in p.runs
    ensures Begins(s, SettleItems(s, mode, current, items, v, env), p)
    decreases |items|
  {
    hide Begins, Calm, SettleItem;
    if items == [] {
      AsideCalm(s, s);
      CalmBegins(s, s, p);
    } else {
      assert items[0] in items;
      var s1 := SettleItem(s, mode, current, items[0], v, env);
      ItemBegins(s, mode, current, items[0], v, env, p);
      ItemsBegin(s1, mode, current, items[1..], v, env, p);
      BeginsTrans(s, s1, SettleItems(s1, mode, current, items[1..], v, env), p);
    }
  }

  lemma PromptBegins(s: State, k: nat, status: Status, dismissed: bool, env: Env)
    requires k in s.batches && s.batches[k].work.Consenting?
    requires Live(s, s.batches[k].doc) ==> Typed(s.batches[k].work.items)
    ensures Begins(s, SettleConsent(s, k, status, dismissed, env),
                   PermitFor(s, PromptSettles(k, status, dismissed), env))
  {
    hide Begins, Calm, SettleItems, Release, Advance, SomeUncancelled;
    var d, w, p := s.batches[k].doc, s.batches[k].work, PermitFor(s, PromptSettles(k, status, dismissed), env);
    var s1 := Release(s, k);
    ReleaseCalm(s, k);
    ReleaseQueue(s, k);
    CalmBegins(s, s1, p);
    if Live(s, d) {
      var doc := s.active.value;
      var s2 := WithDoc(s1, doc.(denied := doc.denied + {Notifications}));
      AsideCalm(s1, s2);
      CalmTrans(s, s1, s2);
      AsideCalm(s1, s1);
      PromptItemsBegin(s, s1, k, status, dismissed, env);
      PromptItemsBegin(s, s2, k, status, dismissed, env);
    }
  }

  // Either way the items are settled.
  lemma PromptItemsBegin(s: State, s2: State, k: nat, status: Status, dismissed: bool, env: Env)
    requires k in s.batches && s.batches[k].work.Consenting? && Typed(s.batches[k].work.items) && Calm(s, s2)
    ensures var w, p := s.batches[k].work, PermitFor(s, PromptSettles(k, status, dismissed), env);
            forall v: Verdict :: v.status == status && (v.currentChoice ==> env.currentBefore && env.currentAfter)
              && (v.saved ==> w.mode == Always && w.token.Some? && env.stored)
              ==> Begins(s, Advance(SettleItems(s2, w.mode, w.current, w.items, v, env)), p)
  {
    hide Begins, Calm, SettleItems, Advance, RunsOf;
    var w, a := s.batches[k].work, PromptSettles(k, status, dismissed);
    var p := PermitFor(s, a, env);
    forall v: Verdict | v.status == status && (v.currentChoice ==> env.currentBefore && env.currentAfter)
      && (v.saved ==> w.mode == Always && w.token.Some? && env.stored)
      ensures Begins(s, Advance(SettleItems(s2, w.mode, w.current, w.items, v, env)), p)
    {
      forall q | q in w.items && v.currentChoice && v.status == Ok && (q == w.current || w.mode != Always || v.saved)
        ensures RunOf(q) in p.runs
      {
        RunMember(Passing(s, a, env), q);
      }
      ItemsBegin(s2, w.mode, w.current, w.items, v, env, p);
      ThenBegins(s, s2, SettleItems(s2, w.mode, w.current, w.items, v, env), p);
      AdvancesThen(s, SettleItems(s2, w.mode, w.current, w.items, v, env), p);
    }
  }

  // A native prompt opens.
  lemma PromptOpens(s: State, s1: State, d: nat, count: nat, ids: set<Id>, work: Work, p: Permit)
    requires Calm(s, s1) && work.Consenting? && p.asks == Some(work) && d == work.current.doc
    ensures Begins(s, Begin(s1, d, count, ids, work), p)
  {
    hide NewRun;
  }

  lemma ResolveBegins(s: State, s1: State, mode: Mode, current: Queued, revision: nat, token: Option<Grants.Token>,
                      env: Env, p: Permit)
    requires Calm(s, s1)
    requires var all := mode == Always && token.Some?;
             current.cap == Notifications ==>
               p.asks == Some(Consenting(mode, current, if all then Matching(s1.queue, current.doc, current.cap)
                                         else [current], revision, token))
    ensures Begins(s, ResolveNotificationConsent(s1, mode, current, revision, token, env), p)
  {
    hide Begins, Calm, Advance, Without, Matching, Ids, Begin;
    var d := current.doc;
    CalmBegins(s, s1, p);
    AdvancesThen(s, s1, p);
    if current.cap == Notifications {
      var selected := if mode == Always && token.Some? then Matching(s1.queue, d, current.cap) else [current];
      var s2 := s1.(queue := Without(s1.queue, selected));
      AsideCalm(s1, s2);
      CalmTrans(s, s1, s2);
      AsideCalm(s2, AnswerAll(s2, selected, Failed, TooManyOperations));
      CalmTrans(s, s2, AnswerAll(s2, selected, Failed, TooManyOperations));
      CalmBegins(s, AnswerAll(s2, selected, Failed, TooManyOperations), p);
      AdvancesThen(s, AnswerAll(s2, selected, Failed, TooManyOperations), p);
      AdvanceCalm(s2);
      CalmTrans(s, s2, Advance(s2));
      AsideCalm(Advance(s2), AnswerAll(Advance(s2), selected, Failed, NativeFailure));
      CalmTrans(s, Advance(s2), AnswerAll(Advance(s2), selected, Failed, NativeFailure));
      CalmBegins(s, AnswerAll(Advance(s2), selected, Failed, NativeFailure), p);
      var work := Consenting(mode, current, selected, revision, token);
      PromptOpens(s, s2, d, |selected|, Ids(selected), work, p);
      AdvancesThen(s, Begin(s2, d, |selected|, Ids(selected), work), p);
    }
  }

  lemma AllowBegins(s: State, mode: Mode, env: Env)
    requires Typed(s.queue)
    ensures Begins(s, Allow(s, mode, env), PermitFor(s, ClickAllow(mode), env))
  {
    hide Begins, Calm, Advance, Without, Matching, ExecuteClipboard, ExecuteAll, ResolveNotificationConsent, RunsOf;
    var a := ClickAllow(mode);
    var p := PermitFor(s, a, env);
    AsideCalm(s, s);
    CalmBegins(s, s, p);
    AdvancesThen(s, s, p);
    if s.queue != [] && Live(s, s.queue[0].doc) {
      var current, doc := s.queue[0], s.active.value;
      var s1 := if current.cap == Notifications then WithDoc(s, doc.(revision := doc.revision + 1)) else s;
      AsideCalm(s, s1);
      CalmBegins(s, s1, p);
      if Stands(env.choice) {
        var token := TokenOf(env.choice);
        if IsClipboard(current.cap) {
          AllowCopyBegins(s, mode, env);
        } else if current.cap == Notifications {
          ResolveBegins(s, s1, mode, current, doc.revision + 1, token, env, p);
        } else {
          AllowAllBegins(s, mode, env);
        }
      }
    }
  }

  lemma AllowCopyBegins(s: State, mode: Mode, env: Env)
    requires Typed(s.queue) && s.queue != [] && Clicked(s, ClickAllow(mode), env, s.queue[0])
    requires IsClipboard(s.queue[0].cap)
    ensures var current := s.queue[0];
            Begins(s, Advance(ExecuteClipboard(s.(queue := Without(s.queue, [current])), current.doc, current.id,
                                               current.op, mode, TokenOf(env.choice), env)),
                   PermitFor(s, ClickAllow(mode), env))
  {
    hide Begins, Calm, Advance, Without, ExecuteClipboard;
    var current, p := s.queue[0], PermitFor(s, ClickAllow(mode), env);
    var s1 := s.(queue := Without(s.queue, [current]));
    AsideCalm(s, s1);
    RunMember([current], current);
    CopyBegins(s1, current.doc, current.id, current.op, mode, TokenOf(env.choice), env, p);
    var s2 := ExecuteClipboard(s1, current.doc, current.id, current.op, mode, TokenOf(env.choice), env);
    ThenBegins(s, s1, s2, p);
    AdvancesThen(s, s2, p);
  }

  lemma AllowAllBegins(s: State, mode: Mode, env: Env)
    requires Typed(s.queue) && s.queue != [] && Clicked(s, ClickAllow(mode), env, s.queue[0])
    requires s.queue[0].cap == Geolocation
    ensures var current := s.queue[0];
            var selected := if mode == Always && TokenOf(env.choice).Some? && env.stored
                            then Matching(s.queue, current.doc, current.cap) else [current];
            Begins(s, Advance(ExecuteAll(s.(queue := Without(s.queue, selected)), selected, env)),
                   PermitFor(s, ClickAllow(mode), env))
  {
    hide Begins, Calm, Advance, Without, ExecuteAll, RunsOf;
    var current, p := s.queue[0], PermitFor(s, ClickAllow(mode), env);
    var selected := if mode == Always && TokenOf(env.choice).Some? && env.stored
                    then Matching(s.queue, current.doc, current.cap) else [current];
    var s1 := s.(queue := Without(s.queue, selected));
    AsideCalm(s, s1);
    MatchingTyped(s.queue, current.doc, current.cap);
    AllBegin(s1, selected, env, p);
    ThenBegins(s, s1, ExecuteAll(s1, selected, env), p);
    AdvancesThen(s, ExecuteAll(s1, selected, env), p);
  }

  lemma QueueIsTyped(s: State)
    requires Core(s)
    ensures Typed(s.queue) && (s.active.Some? ==> s.active.value.generation == s.generation)
  {
    if s.active.Some? { assert forall i :: 0 <= i < |s.queue| ==> Known(s.active.value, s.queue[i]); }
  }

  lemma ItemsAreTyped(s: State, k: nat)
    requires Core(s) && k in s.batches && s.batches[k].work.Consenting? && Live(s, s.batches[k].doc)
    ensures Typed(s.batches[k].work.items)
  {
    ActiveIsCurrent(s);
    assert Current(s.batches, s.generation, k) && WorkOk(s.active, s.batches[k].work);
  }

  /** Every step begins no more than its permit, and logs what it begins. */
  lemma StepBegins(s: State, a: Action, env: Env)
    requires Valid(s) && Enabled(s, a)
    ensures Begins(s, Next(s, a, env), PermitFor(s, a, env))
  {
    hide Begins, Calm, Core, PermitFor, HandleMessage, Allow, Deny, SettleLocation, SettleClipboard, SettleConsent,
         ResumeShow, WatchEvent, NoticeEvent, FrameLoaded, Revoke, Release, Begin;
    var p := PermitFor(s, a, env);
    QueueIsTyped(s);
    AsideCalm(s, s);
    CalmBegins(s, s, p);
    match a
    case Receive(m) => MessageBegins(s, m, env);
    case ClickAllow(mode) => AllowBegins(s, mode, env);
    case ClickDeny => DenyCalm(s); CalmBegins(s, Deny(s), p);
    case LocationSettles(k, fix) => LocationSettlesCalm(s, k, fix); CalmBegins(s, SettleLocation(s, k, fix), p);
    case ClipboardSettles(k) => CopySettlesBegins(s, k, env);
    case PromptSettles(k, status, dismissed) =>
      if Live(s, s.batches[k].doc) { ItemsAreTyped(s, k); }
      PromptBegins(s, k, status, dismissed, env);
    case ShowResumes(k) => ResumeCalm(s, k, env); CalmBegins(s, ResumeShow(s, k, env), p);
    case WatchFires(id, d, fix) => EventsCalm(s, id, d, fix, 0, Silent); CalmBegins(s, WatchEvent(s, id, d, fix), p);
    case NoticeFires(id, handle, event) =>
      EventsCalm(s, id, 0, Position, handle, event);
      CalmBegins(s, NoticeEvent(s, id, handle, event), p);
    case Load => ResetCalm(s); CalmBegins(s, FrameLoaded(s), p);
    case Navigate => ResetCalm(s); CalmBegins(s, Revoke(s), p);
    case Manage(managed) => AsideCalm(s, s.(managed := managed)); CalmBegins(s, s.(managed := managed), p);
    case ReserveElsewhere(count) => ElsewhereBegins(s, count, p);
    case ReleaseElsewhere(k) => ReleaseCalm(s, k); CalmBegins(s, Release(s, k), p);
  }

  lemma ElsewhereBegins(s: State, count: nat, p: Permit)
    ensures Begins(s, Begin(s, 0, count, {}, Elsewhere), p)
  {
  }

  /********** Runs **********/

  lemma {:induction false} Extends(s: State, steps: seq<Step>, step: Step)
    ensures After(s, steps + [step]) == Perform(After(s, steps), step)
    decreases |steps|
  {
    if steps == [] {
      assert steps + [step] == [step] && [step][1..] == [];
    } else {
      assert (steps + [step])[0] == steps[0] && (steps + [step])[1..] == steps[1..] + [step];
      Extends(Perform(s, steps[0]), steps[1..], step);
    }
  }

  ghost function At(steps: seq<Step>, j: nat): State
    requires j <= |steps|
  {
    After(INITIAL, steps[..j])
  }

  // At step j the click on allow decided request q.
  ghost predicate ClickedAt(steps: seq<Step>, j: nat, q: Queued) {
    j < |steps| && Clicked(At(steps, j), steps[j].action, steps[j].env, q)
  }

  // That click was for "always", and its choice was ready to be saved.
  predicate AlwaysAt(steps: seq<Step>, j: nat) {
    j < |steps| && steps[j].action == ClickAllow(Always) && steps[j].env.choice.Ready?
  }

  ghost predicate ArrivedAt(steps: seq<Step>, j: nat, q: Queued) {
    j < |steps| && Arrives(At(steps, j), steps[j].action, steps[j].env, q)
  }

  // At step j, q was let through as a sibling of a click for "always" on its capability.
  ghost predicate FollowedAt(steps: seq<Step>, j: nat, q: Queued) {
    && j < |steps| && Follows(At(steps, j), steps[j].action, steps[j].env, q)
    && exists c: nat, h: Queued :: c <= j && AlwaysFor(steps, c, h, q.doc, q.cap)
  }

  ghost predicate AlwaysFor(steps: seq<Step>, c: nat, h: Queued, d: nat, cap: Capability) {
    ClickedAt(steps, c, h) && AlwaysAt(steps, c) && h.doc == d && h.cap == cap
  }

  // Request q was approved when it arrived, clicked on, or let through by an "always" choice that was saved.
  ghost predicate Consented(steps: seq<Step>, q: Queued) {
    exists j: nat :: ArrivedAt(steps, j, q) || ClickedAt(steps, j, q) || FollowedAt(steps, j, q)
  }

  lemma AtBefore(steps: seq<Step>, step: Step, j: nat)
    requires j <= |steps|
    ensures At(steps + [step], j) == At(steps, j) && (j < |steps| ==> (steps + [step])[j] == steps[j])
  {
    assert (steps + [step])[..j] == steps[..j];
  }

  lemma ClickedStays(steps: seq<Step>, step: Step, j: nat, q: Queued)
    requires ClickedAt(steps, j, q)
    ensures ClickedAt(steps + [step], j, q) && (AlwaysAt(steps, j) ==> AlwaysAt(steps + [step], j))
  {
    AtBefore(steps, step, j);
  }

  lemma ConsentedStays(steps: seq<Step>, step: Step, q: Queued)
    requires Consented(steps, q)
    ensures Consented(steps + [step], q)
  {
    hide Follows, Clicked, Arrives;
    var more := steps + [step];
    var j: nat :| ArrivedAt(steps, j, q) || ClickedAt(steps, j, q) || FollowedAt(steps, j, q);
    AtBefore(steps, step, j);
    if FollowedAt(steps, j, q) {
      var c: nat, h: Queued :| c <= j && AlwaysFor(steps, c, h, q.doc, q.cap);
      ClickedStays(steps, step, c, h);
      assert AlwaysFor(more, c, h, q.doc, q.cap);
      assert FollowedAt(more, j, q);
    } else {
      assert ArrivedAt(more, j, q) || ClickedAt(more, j, q);
    }
  }

  // What an open native prompt or an "always" clipboard call goes back to.
  ghost predicate Founded(steps: seq<Step>, b: Batch) {
    match b.work
    case Consenting(mode, current, items, revision, token) =>
      && b.doc == current.doc && current.cap == Notifications
      && (forall q :: q in items ==> q.doc == current.doc && q.cap == Notifications)
      && (exists c: nat :: ClickedAt(steps, c, current) && (mode == Always && token.Some? ==> AlwaysAt(steps, c)))
      && (mode != Always || token.None? ==> items == [current])
    case Clipping(id, cap, mode, token) =>
      mode == Always && token.Some? ==> exists c: nat, h: Queued :: AlwaysFor(steps, c, h, b.doc, cap)
    case _ => true
  }

  lemma FoundedStays(steps: seq<Step>, step: Step, b: Batch)
    requires Founded(steps, b)
    ensures Founded(steps + [step], b)
  {
    hide Clicked;
    match b.work
    case Consenting(mode, current, items, revision, token) =>
      var c: nat :| ClickedAt(steps, c, current) && (mode == Always && token.Some? ==> AlwaysAt(steps, c));
      ClickedStays(steps, step, c, current);
    case Clipping(id, cap, mode, token) =>
      if mode == Always && token.Some? {
        var c: nat, h: Queued :| AlwaysFor(steps, c, h, b.doc, cap);
        ClickedStays(steps, step, c, h);
        assert AlwaysFor(steps + [step], c, h, b.doc, cap);
      }
    case _ =>
  }

  // Work that the step begins is founded.
  lemma NewFounded(steps: seq<Step>, step: Step, s: State, s': State, b: Batch)
    requires s == After(INITIAL, steps) && Enabled(s, step.action) && Typed(s.queue)
    requires Permitted(s, s', b, PermitFor(s, step.action, step.env))
    requires Begins(s, s', PermitFor(s, step.action, step.env))
    ensures Founded(steps + [step], b)
  {
    hide Follows, Arrives;
    var more := steps + [step];
    assert more[..|steps|] == steps && more[|steps|] == step;
    match b.work
    case Consenting(mode, current, items, revision, token) =>
      assert ClickedAt(more, |steps|, current);
    case Clipping(id, cap, mode, token) =>
      if mode == Always && token.Some? { NewAlways(steps, step, s, s', b); }
    case _ =>
  }

  lemma NewAlways(steps: seq<Step>, step: Step, s: State, s': State, b: Batch)
    requires s == After(INITIAL, steps) && Enabled(s, step.action)
    requires b.work.Clipping? && b.work.mode == Always && b.work.token.Some?
    requires Permitted(s, s', b, PermitFor(s, step.action, step.env))
    requires Begins(s, s', PermitFor(s, step.action, step.env))
    ensures exists c: nat, h: Queued :: AlwaysFor(steps + [step], c, h, b.doc, b.work.cap)
  {
    var more := steps + [step];
    assert more[..|steps|] == steps && more[|steps|] == step;
    var r := AccessOf(b).value;
    var i :| |s.runs| <= i < |s'.runs| && s'.runs[i] == r;
    assert r in RunsOf(Passing(s, step.action, step.env));
    assert AlwaysFor(more, |steps|, s.queue[0], b.doc, b.work.cap);
  }

  // A request that a step begins native work for has consent.
  lemma PassingConsented(steps: seq<Step>, step: Step, s: State, q: Queued)
    requires s == After(INITIAL, steps) && Enabled(s, step.action) && q in Passing(s, step.action, step.env)
    requires forall k :: k in s.batches ==> Founded(steps, s.batches[k])
    ensures Consented(steps + [step], q)
  {
    var more, n, a, env := steps + [step], |steps|, step.action, step.env;
    assert more[..n] == steps && more[n] == step;
    match a
    case Receive(m) => assert ArrivedAt(more, n, q);
    case ClickAllow(mode) =>
      if q == s.queue[0] {
        assert ClickedAt(more, n, q);
      } else {
        assert AlwaysFor(more, n, s.queue[0], q.doc, q.cap);
        assert FollowedAt(more, n, q);
      }
    case ClipboardSettles(k) => CopyConsented(steps, step, s, q);
    case PromptSettles(k, status, dismissed) => PromptConsented(steps, step, s, q);
    case _ =>
  }

  lemma CopyConsented(steps: seq<Step>, step: Step, s: State, q: Queued)
    requires s == After(INITIAL, steps) && Enabled(s, step.action) && step.action.ClipboardSettles?
    requires q in Passing(s, step.action, step.env) && Founded(steps, s.batches[step.action.batch])
    ensures Consented(steps + [step], q)
  {
    var more, n, b := steps + [step], |steps|, s.batches[step.action.batch];
    assert more[..n] == steps && more[n] == step;
    var c: nat, h: Queued :| AlwaysFor(steps, c, h, b.doc, b.work.cap);
    ClickedStays(steps, step, c, h);
    assert AlwaysFor(more, c, h, q.doc, q.cap);
    assert FollowedAt(more, n, q);
  }

  lemma PromptConsented(steps: seq<Step>, step: Step, s: State, q: Queued)
    requires s == After(INITIAL, steps) && Enabled(s, step.action) && step.action.PromptSettles?
    requires q in Passing(s, step.action, step.env) && Founded(steps, s.batches[step.action.batch])
    ensures Consented(steps + [step], q)
  {
    hide Clicked;
    var more, n, b := steps + [step], |steps|, s.batches[step.action.batch];
    assert more[..n] == steps && more[n] == step;
    var w := b.work;
    var c: nat :| ClickedAt(steps, c, w.current) && (w.mode == Always && w.token.Some? ==> AlwaysAt(steps, c));
    ClickedStays(steps, step, c, w.current);
    if q == w.current {
      assert ClickedAt(more, c, q);
    } else {
      assert AlwaysFor(more, c, w.current, q.doc, q.cap);
      assert FollowedAt(more, n, q);
    }
  }

  ghost predicate HasConsent(steps: seq<Step>, r: Run) { exists q :: RunOf(q) == r && Consented(steps, q) }

  lemma ConsentStays(steps: seq<Step>, step: Step, r: Run)
    requires HasConsent(steps, r)
    ensures HasConsent(steps + [step], r)
  {
    hide Consented;
    var q :| RunOf(q) == r && Consented(steps, q);
    ConsentedStays(steps, step, q);
  }

  // Everything that was begun has consent, and what is under way is founded and logged.
  ghost predicate Warranted(steps: seq<Step>, s: State) {
    && (forall i :: 0 <= i < |s.runs| ==> HasConsent(steps, s.runs[i]))
    && (forall k :: k in s.batches ==> Founded(steps, s.batches[k]))
    && (forall k :: k in s.batches && AccessOf(s.batches[k]).Some? ==> AccessOf(s.batches[k]).value in s.runs)
    && (forall x :: x in s.watches ==> Run(s.watches[x].doc, Geolocation, x) in s.runs)
  }

  lemma RunAmong(items: seq<Queued>, r: Run) returns (j: nat)
    requires r in RunsOf(items)
    ensures j < |items| && RunOf(items[j]) == r
  {
    j :| 0 <= j < |items| && RunOf(items[j]) == r;
  }

  lemma RunsWarranted(steps: seq<Step>, step: Step, s: State, s': State)
    requires s == After(INITIAL, steps) && Enabled(s, step.action) && Warranted(steps, s)
    requires Begins(s, s', PermitFor(s, step.action, step.env))
    ensures forall i :: 0 <= i < |s'.runs| ==> HasConsent(steps + [step], s'.runs[i])
  {
    hide Consented, Founded, Passing, Permitted, NewRun;
    var passing := Passing(s, step.action, step.env);
    forall i | 0 <= i < |s'.runs| ensures HasConsent(steps + [step], s'.runs[i]) {
      if i < |s.runs| {
        assert s'.runs[i] == s.runs[i];
        ConsentStays(steps, step, s.runs[i]);
      } else {
        var j := RunAmong(passing, s'.runs[i]);
        PassingConsented(steps, step, s, passing[j]);
      }
    }
  }

  lemma StillIn(runs: seq<Run>, runs': seq<Run>)
    requires runs <= runs'
    ensures forall r :: r in runs ==> r in runs'
  {
    forall r | r in runs ensures r in runs' {
      var i :| 0 <= i < |runs| && runs[i] == r;
      assert runs'[i] == r;
    }
  }

  lemma NewRunIsIn(s: State, s': State, r: Run)
    requires NewRun(s, s', r)
    ensures r in s'.runs
  {
  }

  lemma WorkWarranted(steps: seq<Step>, step: Step, s: State, s': State)
    requires s == After(INITIAL, steps) && Enabled(s, step.action) && Warranted(steps, s) && Typed(s.queue)
    requires Begins(s, s', PermitFor(s, step.action, step.env))
    ensures forall k :: k in s'.batches ==> Founded(steps + [step], s'.batches[k])
    ensures forall k :: k in s'.batches && AccessOf(s'.batches[k]).Some? ==> AccessOf(s'.batches[k]).value in s'.runs
    ensures forall x :: x in s'.watches ==> Run(s'.watches[x].doc, Geolocation, x) in s'.runs
  {
    hide Consented, Founded, PermitFor, NewRun;
    var p := PermitFor(s, step.action, step.env);
    forall k | k in s'.batches
      ensures Founded(steps + [step], s'.batches[k])
      ensures AccessOf(s'.batches[k]).Some? ==> AccessOf(s'.batches[k]).value in s'.runs
    {
      if Continues(s, s', k) {
        FoundedStays(steps, step, s.batches[k]);
        FoundedOn(steps + [step], s.batches[k], s'.batches[k]);
        if AccessOf(s'.batches[k]).Some? { assert AccessOf(s'.batches[k]) == AccessOf(s.batches[k]); }
        StillIn(s.runs, s'.runs);
      } else {
        NewFounded(steps, step, s, s', s'.batches[k]);
        if AccessOf(s'.batches[k]).Some? { NewRunIsIn(s, s', AccessOf(s'.batches[k]).value); }
      }
    }
    forall x | x in s'.watches ensures Run(s'.watches[x].doc, Geolocation, x) in s'.runs {
      var r := Run(s'.watches[x].doc, Geolocation, x);
      if NewRun(s, s', r) { NewRunIsIn(s, s', r); }
    }
  }

  lemma FoundedOn(steps: seq<Step>, b: Batch, b': Batch)
    requires Founded(steps, b) && b'.doc == b.doc && SameWork(b.work, b'.work)
    ensures Founded(steps, b')
  {
  }

  lemma {:induction false} WarrantedRun(steps: seq<Step>)
    ensures Warranted(steps, After(INITIAL, steps))
    decreases |steps|
  {
    hide Warranted, Valid, Begins, PermitFor;
    if steps == [] {
      WarrantedStart();
    } else {
      var rest, step := steps[..|steps| - 1], steps[|steps| - 1];
      assert steps == rest + [step];
      WarrantedRun(rest);
      Extends(INITIAL, rest, step);
      InitialIsValid();
      AfterKeepsValid(INITIAL, rest);
      var s := After(INITIAL, rest);
      if Enabled(s, step.action) {
        StepBegins(s, step.action, step.env);
        WarrantedStep(rest, step, s, Next(s, step.action, step.env));
      } else {
        WarrantedSkip(rest, step, s);
      }
    }
  }

  lemma WarrantedStart()
    ensures Warranted([], INITIAL)
  {
  }

  lemma WarrantedStep(steps: seq<Step>, step: Step, s: State, s': State)
    requires s == After(INITIAL, steps) && Enabled(s, step.action) && Warranted(steps, s) && Valid(s)
    requires Begins(s, s', PermitFor(s, step.action, step.env))
    ensures Warranted(steps + [step], s')
  {
    hide Consented, Founded, Begins, PermitFor, Core;
    QueueIsTyped(s);
    RunsWarranted(steps, step, s, s');
    WorkWarranted(steps, step, s, s');
    assert forall x :: x in s'.watches ==> Run(s'.watches[x].doc, Geolocation, x) in s'.runs;
  }

  lemma WarrantedSkip(steps: seq<Step>, step: Step, s: State)
    requires Warranted(steps, s)
    ensures Warranted(steps + [step], s)
  {
    hide Consented, Founded, HasConsent;
    forall i | 0 <= i < |s.runs| ensures HasConsent(steps + [step], s.runs[i]) { ConsentStays(steps, step, s.runs[i]); }
    forall k | k in s.batches ensures Founded(steps + [step], s.batches[k]) { FoundedStays(steps, step, s.batches[k]); }
  }

  /**
   In every run, native access is begun only for a request that was approved when it arrived, that a click on allow
   decided, or that an "always" choice for its document and capability let through when it was saved.
   */
  lemma AccessNeedsConsent(steps: seq<Step>, i: nat)
    requires i < |After(INITIAL, steps).runs|
    ensures exists q :: RunOf(q) == After(INITIAL, steps).runs[i] && Consented(steps, q)
  {
    hide Consented, Founded, After;
    WarrantedRun(steps);
    assert HasConsent(steps, After(INITIAL, steps).runs[i]);
  }

  /** In every run, no lookup, clipboard call, show or watch is under way that was not begun so. */
  lemma NothingRunsUnlogged(steps: seq<Step>)
    ensures var s := After(INITIAL, steps);
            && (forall k :: k in s.batches && AccessOf(s.batches[k]).Some? ==> AccessOf(s.batches[k]).value in s.runs)
            && (forall x :: x in s.watches ==> Run(s.watches[x].doc, Geolocation, x) in s.runs)
  {
    hide Consented, Founded, After;
    WarrantedRun(steps);
  }

  /** In every run, a native permission prompt is open only for a request that a click on allow decided. */
  lemma PromptsNeedAClick(steps: seq<Step>, k: nat)
    requires var s := After(INITIAL, steps); k in s.batches && s.batches[k].work.Consenting?
    ensures exists c: nat :: ClickedAt(steps, c, After(INITIAL, steps).batches[k].work.current)
  {
    WarrantedRun(steps);
    assert Founded(steps, After(INITIAL, steps).batches[k]);
  }

  /********** What a request meets **********/

  // A request that was just remembered, before anything is decided.
  lemma AskMeets(s: State, d: nat, id: Id, op: Op, cap: Capability, env: Env)
    requires CapabilityOf(op) == Some(cap) && Live(s, d) && id !in s.cancelled
    requires forall i :: 0 <= i < |s.queue| ==> Live(s, s.queue[i].doc)
    ensures var s', q := RequestCapability(s, d, id, op, cap, env), Queued(d, cap, id, op);
            && (cap !in s.active.value.denied && !Approved(cap, env) && |s.queue| < MAX_PENDING ==>
                s'.queue == s.queue + [q] && s'.posts == s.posts && s'.runs == s.runs)
            && (cap in s.active.value.denied || Approved(cap, env) || |s.queue| >= MAX_PENDING ==> s'.queue == s.queue)
            && (cap in s.active.value.denied ==>
                s'.runs == s.runs && s'.posts == s.posts + [Reply(s, id, Denied, Silent, None, Refused)])
            && (cap !in s.active.value.denied && !Approved(cap, env) && |s.queue| >= MAX_PENDING ==>
                s'.runs == s.runs && s'.posts == s.posts + [Reply(s, id, Failed, Silent, None, TooManyPending)])
            && (cap !in s.active.value.denied && Approved(cap, env) ==>
                (s'.runs == s.runs + [RunOf(q)]
                 <==> !IsClipboard(cap) || (id in env.current && |s.inFlight| < MAX_IN_FLIGHT && Reservable(s, 1))))
  {
    hide ExecuteGranted, ExecuteClipboard, Advance;
    LiveAdvance(s.(queue := s.queue + [Queued(d, cap, id, op)]));
    if !IsClipboard(cap) { GrantedRuns(s, d, id, op, env); }
    else if BrokerSpec.Allowed(s, cap) { CopyRuns(s, d, id, op, Saved, env.saved, env); }
  }

  lemma LiveAdvance(s: State)
    requires forall i :: 0 <= i < |s.queue| ==> Live(s, s.queue[i].doc)
    ensures Advance(s).queue == s.queue && Advance(s).posts == s.posts && Advance(s).runs == s.runs
  {
  }

  lemma GrantedRuns(s: State, d: nat, id: Id, op: Op, env: Env)
    requires CapabilityOf(op).Some? && !IsClipboard(CapabilityOf(op).value) && Live(s, d) && id !in s.cancelled
    ensures var s' := ExecuteGranted(s, d, id, op, env);
            && s'.runs == s.runs + [Run(d, CapabilityOf(op).value, id)]
            && s'.queue == s.queue && s'.cancelled == s.cancelled && s'.active == s.active && s'.managed == s.managed
  {
    hide BrokerSpec.Respond, ExecuteGeolocation, ShowNotification;
    var s1 := Begun(s, d, CapabilityOf(op).value, id);
    LocateRuns(s1, d, id, op, env);
    ShowRuns(s1, d, id, env);
    RespondRuns(s1, d, id, Ok, Silent, None, NoReason);
  }

  ghost predicate SameBut(s: State, s': State) {
    && s'.runs == s.runs && s'.queue == s.queue && s'.cancelled == s.cancelled && s'.active == s.active
    && s'.managed == s.managed
  }

  lemma RespondRuns(s: State, d: nat, id: Id, status: Status, event: Event, about: Option<Id>, reason: Reason)
    ensures SameBut(s, Respond(s, d, id, status, event, about, reason))
  {
  }

  lemma LocateRuns(s: State, d: nat, id: Id, op: Op, env: Env)
    ensures SameBut(s, ExecuteGeolocation(s, d, id, op, env))
  {
    hide Fresh;
  }

  lemma ShowRuns(s: State, d: nat, id: Id, env: Env)
    requires Live(s, d) && id !in s.cancelled
    ensures SameBut(s, ShowNotification(s, d, id, env))
  {
    hide BrokerSpec.Respond, Display, Fresh;
    RespondRuns(s, d, id, Denied, Silent, Some(id), Refused);
    RespondRuns(s, d, id, Failed, Silent, Some(id), TooManyOperations);
    DisplayRuns(Begin(s, d, 1, {id}, Showing(id, FindWorker, false)), s.next, env);
  }

  lemma DisplayRuns(s: State, k: nat, env: Env)
    requires k in s.batches && s.batches[k].work.Showing? && Live(s, s.batches[k].doc)
    requires s.batches[k].work.id !in s.cancelled
    ensures SameBut(s, Display(s, k, false, env))
  {
    hide Size;
  }

  lemma CopyRuns(s: State, d: nat, id: Id, op: Op, mode: Mode, token: Option<Grants.Token>, env: Env)
    requires CapabilityOf(op).Some? && IsClipboard(CapabilityOf(op).value) && Live(s, d) && id !in s.cancelled
    requires BrokerSpec.Allowed(s, CapabilityOf(op).value)
    ensures var s' := ExecuteClipboard(s, d, id, op, mode, token, env);
            && s'.queue == s.queue && s'.active == s.active && s'.managed == s.managed
            && (s'.runs == s.runs + [Run(d, CapabilityOf(op).value, id)]
                <==> id in env.current && |s.inFlight| < MAX_IN_FLIGHT && Reservable(s, 1))
            && (s'.runs == s.runs || s'.runs == s.runs + [Run(d, CapabilityOf(op).value, id)])
  {
    hide Fresh;
    assert s.runs != s.runs + [Run(d, CapabilityOf(op).value, id)];
  }

  // A known document's queue is its own.
  lemma QueueIsLive(s: State, client: Client)
    requires Valid(s) && Accepts(s, client)
    ensures forall i :: 0 <= i < |s.queue| ==> Live(s, s.queue[i].doc)
    ensures forall x :: x in s.cancelled ==> x in s.active.value.requests
    ensures s.active.value.generation == s.generation
  {
    assert forall i :: 0 <= i < |s.queue| ==> Known(s.active.value, s.queue[i]);
  }

  /**
   A new request joins the queue, unanswered, if and only if its capability is not denied, no approval for it is saved
   and the queue has room. Denied, it is refused; without room, it is refused too; approved, it starts at once, a
   clipboard call only if its approval still stands and a slot is free.
   */
  lemma RequestMeets(s: State, client: Client, id: Id, op: Op, cap: Capability, target: Id, env: Env)
    requires Valid(s) && Accepts(s, client) && id !in s.active.value.requests && CapabilityOf(op) == Some(cap)
    requires Size(Pruned(s).requests) < MAX_REMEMBERED
    ensures var s' := HandleMessage(s, Request(client, id, op, target), env);
            var q, denied := Queued(s.generation, cap, id, op), cap in s.active.value.denied;
            && (s'.queue == s.queue + [q] <==> !denied && !Approved(cap, env) && |s.queue| < MAX_PENDING)
            && (s'.queue == s.queue + [q] ==> s'.posts == s.posts && s'.runs == s.runs)
            && (s'.queue == s.queue + [q] || s'.queue == s.queue)
            && (denied ==> s'.runs == s.runs && s'.posts == s.posts + [Reply(s, id, Denied, Silent, None, Refused)])
            && (!denied && !Approved(cap, env) && |s.queue| >= MAX_PENDING ==>
                s'.runs == s.runs && s'.posts == s.posts + [Reply(s, id, Failed, Silent, None, TooManyPending)])
            && (!denied && Approved(cap, env) ==>
                (s'.runs == s.runs + [RunOf(q)]
                 <==> !IsClipboard(cap) || (id in env.current && |s.inFlight| < MAX_IN_FLIGHT && Reservable(s, 1))))
  {
    hide Core, RequestCapability, Prune, Protected, Size;
    QueueIsLive(s, client);
    PruneKind(s.active.value, Protected(s));
    PruneClient(s.active.value, Protected(s));
    var doc := Remember(Pruned(s), id, op);
    var s1 := WithDoc(s, doc);
    assert HandleMessage(s, Request(client, id, op, target), env)
        == RequestCapability(s1, s.generation, id, op, cap, env);
    assert forall i :: 0 <= i < |s.queue| ==> Live(s1, s.queue[i].doc);
    AskMeets(s1, s.generation, id, op, cap, env);
    assert s.queue != s.queue + [Queued(s.generation, cap, id, op)];
  }

  lemma PruneClient(doc: Doc, owners: set<Id>)
    ensures Prune(doc, owners).client == doc.client
  {
  }

  /********** What a click does **********/

  function RunSeq(items: seq<Queued>): seq<Run> {
    if items == [] then [] else [RunOf(items[0])] + RunSeq(items[1..])
  }

  lemma {:induction false} AllRun(s: State, items: seq<Queued>, env: Env)
    requires Typed(items)
    requires forall q :: q in items ==> Live(s, q.doc) && q.id !in s.cancelled && !IsClipboard(q.cap)
    ensures var s' := ExecuteAll(s, items, env);
            s'.runs == s.runs + RunSeq(items) && s'.queue == s.queue && s'.active == s.active && s'.managed == s.managed
    decreases |items|
  {
    hide ExecuteGranted;
    if items == [] {
      assert s.runs + [] == s.runs;
    } else {
      assert items[0] in items;
      GrantedRuns(s, items[0].doc, items[0].id, items[0].op, env);
      AllRun(ExecuteGranted(s, items[0].doc, items[0].id, items[0].op, env), items[1..], env);
      assert s.runs + [RunOf(items[0])] + RunSeq(items[1..]) == s.runs + RunSeq(items);
    }
  }

  /**
   A click on allow for a location request runs it, and with it, if "always" could be saved, every other location
   request of its document, in order; those leave the queue and no other. It does nothing if the choice does not stand.
   */
  lemma ClickRuns(s: State, mode: Mode, env: Env)
    requires Valid(s) && s.queue != [] && Live(s, s.queue[0].doc) && s.queue[0].cap == Geolocation
    ensures var s', current := Allow(s, mode, env), s.queue[0];
            var all := mode == Always && env.choice.Ready? && env.stored;
            var selected := if all then Matching(s.queue, current.doc, Geolocation) else [current];
            if Stands(env.choice) then s'.runs == s.runs + RunSeq(selected) && s'.queue == Without(s.queue, selected)
            else s' == s
  {
    hide Core, Advance, ExecuteAll, Matching, Without;
    if Stands(env.choice) {
      var current := s.queue[0];
      var all := mode == Always && env.choice.Ready? && env.stored;
      var selected := if all then Matching(s.queue, current.doc, Geolocation) else [current];
      var s1 := s.(queue := Without(s.queue, selected));
      QueueIsTyped(s);
      QueueIsLive(s, s.active.value.client);
      QueueIsFree(s);
      AllRun(s1, selected, env);
      StaysLive(s, s1.queue);
      LiveAdvance(ExecuteAll(s1, selected, env));
    }
  }

  lemma QueueIsFree(s: State)
    requires Valid(s)
    ensures forall q :: q in s.queue ==> q.id !in s.cancelled
  {
    forall q | q in s.queue ensures q.id in Ids(s.queue) { }
  }

  lemma StaysLive(s: State, queue: seq<Queued>)
    requires forall i :: 0 <= i < |s.queue| ==> Live(s, s.queue[i].doc)
    requires forall q :: q in queue ==> q in s.queue
    ensures forall i :: 0 <= i < |queue| ==> Live(s, queue[i].doc)
  {
    forall i | 0 <= i < |queue| ensures Live(s, queue[i].doc) { assert queue[i] in s.queue; }
  }
}
