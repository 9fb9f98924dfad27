/**
 When a cancellation outlives the work it cancels. Cancelled ids belong to running native work, and so go
 away with it, as long as no notification is closed again while its first close is being carried out.
 */
module BrokerCancellation {
  import opened Wrappers
  import opened Protocol
  import opened BrokerSpec
  import opened BrokerInvariant
  import opened BrokerRequests
  import opened BrokerTheorems
  import opened BrokerTraps
  import Grants

  // x has a reserved worker notification that the show k is yet to complete.
  predicate Pends(s: State, x: Id, k: nat) {
    x in s.notices && s.notices[x].Worker? && s.notices[x].pending && s.notices[x].reservation == k
  }

  // k is a running show of x, of this document, that is past its reservation.
  predicate Reserves(s: State, k: nat, x: Id) {
    && x in s.notices && s.notices[x].doc == s.generation
    && Current(s.batches, s.generation, k) && s.batches[k].work.Showing? && s.batches[k].work.id == x
    && s.batches[k].work.phase != FindWorker && s.batches[k].work.phase != FirstReconcile
  }

  // Cancellations belong to running work, except those of `left`.
  ghost predicate Tidy(s: State, left: set<Id>) {
    && (s.active.Some? ==> s.active.value.generation == s.generation)
    && (forall k :: k in s.batches ==> k < s.next)
    && (forall x, k :: Pends(s, x, k) ==> Reserves(s, k, x))
    && s.cancelled <= s.inFlight + left
  }

  // One more cancellation was left behind.
  ghost predicate Leaves(s: State, left: set<Id>, id: Id) { Tidy(s, left + {id}) && id in s.cancelled - s.inFlight }

  // A shown notification is being withdrawn for one close when a second one has arrived.
  predicate ClosedTwice(s: State, a: Action, env: Env)
    requires Enabled(s, a)
  {
    && a.ShowResumes? && s.batches[a.batch].work.phase == Withdrawing && !env.failed
    && Live(s, s.batches[a.batch].doc) && s.batches[a.batch].work.id in s.cancelled
  }

  /********** Small updates **********/

  ghost predicate SameWork(s: State, s': State) {
    && s'.notices == s.notices && s'.batches == s.batches && s'.generation == s.generation
    && s'.inFlight == s.inFlight && s'.cancelled == s.cancelled && s'.next >= s.next
    && (s.active.Some? <==> s'.active.Some?)
    && (s.active.Some? ==> s'.active.value.generation == s.active.value.generation)
  }

  lemma SameTidy(left: set<Id>, s: State, s': State)
    requires Tidy(s, left) && SameWork(s, s')
    ensures Tidy(s', left)
  {
    forall x, k | Pends(s', x, k) ensures Reserves(s', k, x) { assert Pends(s, x, k); }
  }

  lemma RespondTidy(left: set<Id>, s: State, d: nat, id: Id, status: Status, event: Event, about: Option<Id>,
                    reason: Reason)
    requires Tidy(s, left)
    ensures Tidy(Respond(s, d, id, status, event, about, reason), left)
  {
    SameTidy(left, s, Respond(s, d, id, status, event, about, reason));
  }

  lemma AdvanceTidy(left: set<Id>, s: State)
    requires Tidy(s, left)
    ensures Tidy(Advance(s), left)
  {
    SameTidy(left, s, Advance(s));
  }

  // Fewer notifications.
  lemma FewerTidy(left: set<Id>, s: State, notices: map<Id, Notice>, posts: seq<Response>)
    requires Tidy(s, left) && forall x :: x in notices ==> x in s.notices && notices[x] == s.notices[x]
    ensures Tidy(s.(notices := notices, posts := posts), left)
  {
    var s' := s.(notices := notices, posts := posts);
    forall x, k | Pends(s', x, k) ensures Reserves(s', k, x) { assert Pends(s, x, k); }
  }

  lemma BeginTidy(left: set<Id>, s: State, d: nat, count: nat, ids: set<Id>, work: Work)
    requires Tidy(s, left) && count >= 1
    ensures Tidy(Begin(s, d, count, ids, work), left)
  {
    var s' := Begin(s, d, count, ids, work);
    forall x, k | Pends(s', x, k) ensures Reserves(s', k, x) { assert Pends(s, x, k) && Reserves(s, k, x); }
  }

  // Slots come back from work that no reservation waits for.
  lemma ReleaseTidy(left: set<Id>, s: State, k: nat)
    requires Tidy(s, left) && k in s.batches && forall x :: !Pends(s, x, k)
    ensures Tidy(Release(s, k), left)
  {
    var s' := Release(s, k);
    forall x, j | Pends(s', x, j) ensures Reserves(s', j, x) { assert Pends(s, x, j) && Reserves(s, j, x); }
  }

  lemma OtherWorkTidy(left: set<Id>, s: State, k: nat)
    requires Tidy(s, left) && k in s.batches && !s.batches[k].work.Showing?
    ensures Tidy(Release(s, k), left)
  {
    forall x ensures !Pends(s, x, k) { assert Pends(s, x, k) ==> Reserves(s, k, x); }
    ReleaseTidy(left, s, k);
  }

  lemma LandTidy(left: set<Id>, s: State, id: Id)
    requires Tidy(s, left)
    ensures id !in s.cancelled ==> Tidy(Land(s, id), left)
    ensures Tidy(Uncancel(Land(s, id), id), left)
    ensures Tidy(Land(s, id), left + {id})
  {
    var s1, s2 := Land(s, id), Uncancel(Land(s, id), id);
    forall x, k | Pends(s, x, k) ensures Reserves(s1, k, x) && Reserves(s2, k, x) { assert Reserves(s, k, x); }
    forall x, k | Pends(s1, x, k) ensures Pends(s, x, k) { }
    forall x, k | Pends(s2, x, k) ensures Pends(s, x, k) { }
  }

  lemma UncancelTidy(left: set<Id>, s: State, id: Id)
    requires Tidy(s, left)
    ensures Tidy(Uncancel(s, id), left)
  {
    var s' := Uncancel(s, id);
    forall x, k | Pends(s', x, k) ensures Reserves(s', k, x) { assert Pends(s, x, k) && Reserves(s, k, x); }
  }

  lemma ResetTidy(left: set<Id>, s: State)
    requires Tidy(s, left)
    ensures Tidy(Reset(s), left)
  {
  }

  /********** Notifications **********/

  ghost predicate Unreserved(s: State, k: nat) { forall x :: !Pends(s, x, k) }

  lemma FinishTidy(left: set<Id>, s: State, k: nat)
    requires Tidy(s, left) && k in s.batches && s.batches[k].work.Showing? && Unreserved(s, k)
    ensures var late := Live(s, s.batches[k].doc) && s.batches[k].work.id in s.cancelled;
            var s' := FinishShow(s, k);
            if late then Leaves(s', left, s.batches[k].work.id) else Tidy(s', left)
  {
    ReleaseTidy(left, s, k);
    LandTidy(left, Release(s, k), s.batches[k].work.id);
    if Live(s, s.batches[k].doc) && s.batches[k].work.id in s.cancelled {
      assert s.batches[k].work.id !in FinishShow(s, k).inFlight;
    }
  }

  lemma DeleteTidy(left: set<Id>, s: State, k: nat)
    requires Tidy(s, left) && k in s.batches && s.batches[k].work.Showing?
    ensures var s' := DeleteReservation(s, s.batches[k].work.id, k); Tidy(s', left) && Unreserved(s', k)
  {
    var id := s.batches[k].work.id;
    var s' := DeleteReservation(s, id, k);
    assert s' == s.(notices := s'.notices, posts := s.posts);
    FewerTidy(left, s, s'.notices, s.posts);
    forall x ensures !Pends(s', x, k) {
      assert Pends(s', x, k) ==> Pends(s, x, k) && Reserves(s, k, x) && x == id;
    }
  }

  lemma EarlyUnreserved(left: set<Id>, s: State, k: nat)
    requires Tidy(s, left) && k in s.batches && s.batches[k].work.Showing?
    requires s.batches[k].work.phase == FindWorker || s.batches[k].work.phase == FirstReconcile
    ensures Unreserved(s, k)
  {
    forall x ensures !Pends(s, x, k) { assert Pends(s, x, k) ==> Reserves(s, k, x); }
  }

  lemma SuspendTidy(left: set<Id>, s: State, k: nat, phase: Phase, registered: bool)
    requires Tidy(s, left) && k in s.batches && s.batches[k].work.Showing?
    requires (phase != FindWorker && phase != FirstReconcile) || Unreserved(s, k)
    ensures Tidy(Suspend(s, k, phase, registered), left)
  {
    var s' := Suspend(s, k, phase, registered);
    forall x, j | Pends(s', x, j) ensures Reserves(s', j, x) { assert Pends(s, x, j) && Reserves(s, j, x); }
  }

  // A reservation is made just before its show is suspended.
  lemma ReserveTidy(left: set<Id>, s: State, k: nat, phase: Phase, registered: bool)
    requires Tidy(s, left) && k in s.batches && s.batches[k].work.Showing? && Live(s, s.batches[k].doc)
    requires phase != FindWorker && phase != FirstReconcile
    ensures var id := s.batches[k].work.id;
            Tidy(Suspend(s.(notices := s.notices[id := Worker(k, s.batches[k].doc, true)]), k, phase, registered), left)
  {
    var id := s.batches[k].work.id;
    var s' := Suspend(s.(notices := s.notices[id := Worker(k, s.batches[k].doc, true)]), k, phase, registered);
    forall x, j | Pends(s', x, j) ensures Reserves(s', j, x) {
      if x != id { assert Pends(s, x, j) && Reserves(s, j, x); }
    }
  }

  // A notification that is displayed keeps its place without a reservation.
  lemma PlacedTidy(left: set<Id>, s: State, k: nat, id: Id, n: Notice)
    requires Tidy(s, left) && (n.Native? || !n.pending)
    ensures var s' := s.(notices := s.notices[id := n]); Tidy(s', left) && (Unreserved(s, k) ==> Unreserved(s', k))
    ensures var s' := s.(notices := s.notices[id := n]); !Pends(s', id, k)
  {
    var s' := s.(notices := s.notices[id := n]);
    forall x, j | Pends(s', x, j)
      ensures Reserves(s', j, x) && Pends(s, x, j)
    {
      assert Pends(s, x, j) && Reserves(s, j, x);
    }
  }

  lemma UncancelUnreserved(s: State, id: Id, k: nat)
    requires Unreserved(s, k)
    ensures Unreserved(Uncancel(s, id), k)
  {
    forall x ensures !Pends(Uncancel(s, id), x, k) { assert !Pends(s, x, k); }
  }

  lemma RespondUnreserved(s: State, d: nat, id: Id, status: Status, event: Event, about: Option<Id>, reason: Reason,
                          k: nat)
    requires Unreserved(s, k)
    ensures Unreserved(Respond(s, d, id, status, event, about, reason), k)
  {
    forall x ensures !Pends(Respond(s, d, id, status, event, about, reason), x, k) { assert !Pends(s, x, k); }
  }

  // The show ends with an answer.
  lemma RespondFinishTidy(left: set<Id>, s: State, k: nat, d: nat, id: Id, status: Status, event: Event, reason: Reason)
    requires Tidy(s, left) && k in s.batches && s.batches[k].work.Showing? && Unreserved(s, k)
    requires s.batches[k].work.id !in s.cancelled
    ensures Tidy(FinishShow(Respond(s, d, id, status, event, Some(id), reason), k), left)
  {
    RespondTidy(left, s, d, id, status, event, Some(id), reason);
    RespondUnreserved(s, d, id, status, event, Some(id), reason, k);
    FinishTidy(left, Respond(s, d, id, status, event, Some(id), reason), k);
  }

  // The show ends by consuming its cancellation.
  lemma ConsumeFinishTidy(left: set<Id>, s: State, k: nat)
    requires Tidy(s, left) && k in s.batches && s.batches[k].work.Showing? && Unreserved(s, k)
    ensures Tidy(FinishShow(Uncancel(s, s.batches[k].work.id), k), left)
  {
    var id := s.batches[k].work.id;
    UncancelTidy(left, s, id);
    UncancelUnreserved(s, id, k);
    FinishTidy(left, Uncancel(s, id), k);
  }

  lemma DisplayTidy(left: set<Id>, s: State, k: nat, registered: bool, env: Env)
    requires Tidy(s, left) && k in s.batches && s.batches[k].work.Showing? && Unreserved(s, k)
    ensures Tidy(Display(s, k, registered, env), left)
  {
    hide Tidy, Unreserved, FinishShow, Suspend, Respond;
    var d, id := s.batches[k].doc, s.batches[k].work.id;
    if !Live(s, d) { FinishTidy(left, s, k); }
    else if id in s.cancelled { ConsumeFinishTidy(left, s, k); }
    else if Size(s.notices) >= MAX_NOTIFICATIONS {
      RespondFinishTidy(left, s, k, d, id, Failed, Silent, TooManyNotifications);
    }
    else if id in env.constructed {
      PlacedTidy(left, s, k, id, Native(k, d));
      var placed := s.(notices := s.notices[id := Native(k, d)]);
      assert s.(notices := s.notices[id := Worker(k, d, true)]).notices[id := Native(k, d)] == placed.notices;
      RespondFinishTidy(left, placed, k, d, id, Ok, Silent, NoReason);
    } else if !env.worker {
      var s1 := DeleteReservation(s.(notices := s.notices[id := Worker(k, d, true)]), id, k);
      assert s1 == s.(notices := s.notices - {id}, posts := s.posts);
      FewerTidy(left, s, s.notices - {id}, s.posts);
      FewerUnreserved(s, s1, k);
      RespondFinishTidy(left, s1, k, d, id, Failed, Silent, Protocol.Unavailable);
    } else {
      ReserveTidy(left, s, k, if registered then Displaying else FindFallback, registered);
    }
  }

  lemma FewerUnreserved(s: State, s': State, k: nat)
    requires Unreserved(s, k) && forall x :: x in s'.notices ==> x in s.notices && s'.notices[x] == s.notices[x]
    ensures Unreserved(s', k)
  {
    forall x ensures !Pends(s', x, k) { assert !Pends(s, x, k); }
  }

  lemma {:induction false} ReconcileShrinks(s: State, d: nat, vanished: seq<Id>)
    ensures forall x :: x in Reconcile(s, d, vanished).notices ==>
              x in s.notices && Reconcile(s, d, vanished).notices[x] == s.notices[x]
    decreases |vanished|
  {
    if vanished != [] && Live(s, d) {
      var id := vanished[0];
      var s1 := if Reconcilable(s, d, id)
                then Respond(s.(notices := s.notices - {id}), d, id, Ok, Closed, Some(id), NoReason)
                else s;
      ReconcileShrinks(s1, d, vanished[1..]);
    }
  }

  lemma ReconcileTidy(left: set<Id>, s: State, d: nat, vanished: seq<Id>, k: nat)
    requires Tidy(s, left)
    ensures var s' := Reconcile(s, d, vanished); Tidy(s', left) && (Unreserved(s, k) ==> Unreserved(s', k))
  {
    var s' := Reconcile(s, d, vanished);
    ReconcileShrinks(s, d, vanished);
    FewerTidy(left, s, s'.notices, s'.posts);
    if Unreserved(s, k) { FewerUnreserved(s, s', k); }
  }

  lemma CatchTidy(left: set<Id>, s: State, k: nat)
    requires Tidy(s, left) && k in s.batches && s.batches[k].work.Showing?
    ensures Tidy(CatchShow(s, k), left)
  {
    hide Tidy, Unreserved, FinishShow, Respond;
    var d, id := s.batches[k].doc, s.batches[k].work.id;
    DeleteTidy(left, s, k);
    if !Live(s, d) { FinishTidy(left, DeleteReservation(s, id, k), k); }
    else if id in s.cancelled {
      DeleteUncancel(s, id, k);
      ConsumeFinishTidy(left, DeleteReservation(s, id, k), k);
    } else { RespondFinishTidy(left, DeleteReservation(s, id, k), k, d, id, Failed, Errored, NativeFailure); }
  }

  lemma DeleteUncancel(s: State, id: Id, k: nat)
    ensures DeleteReservation(Uncancel(s, id), id, k) == Uncancel(DeleteReservation(s, id, k), id)
  {
  }

  lemma FindWorkerTidy(left: set<Id>, s: State, k: nat, env: Env)
    requires Tidy(s, left) && k in s.batches && s.batches[k].work.Showing? && s.batches[k].work.phase == FindWorker
    ensures Tidy(ResumeFindWorker(s, k, env), left)
  {
    hide Tidy, Unreserved, FinishShow, Display, Suspend;
    EarlyUnreserved(left, s, k);
    DisplayTidy(left, s, k, false, env);
    ConsumeFinishTidy(left, s, k);
    SuspendTidy(left, s, k, FirstReconcile, true);
    if !Live(s, s.batches[k].doc) { FinishTidy(left, s, k); }
  }

  lemma FirstReconcileTidy(left: set<Id>, s: State, k: nat, env: Env)
    requires Tidy(s, left) && k in s.batches && s.batches[k].work.Showing? && s.batches[k].work.phase == FirstReconcile
    ensures Tidy(ResumeFirstReconcile(s, k, env), left)
  {
    EarlyUnreserved(left, s, k);
    ReconcileTidy(left, s, s.batches[k].doc, env.vanished, k);
    DisplayTidy(left, if env.failed then s else Reconcile(s, s.batches[k].doc, env.vanished), k, true, env);
  }

  lemma FindFallbackTidy(left: set<Id>, s: State, k: nat, env: Env)
    requires Tidy(s, left) && k in s.batches && s.batches[k].work.Showing?
    ensures Tidy(ResumeFindFallback(s, k, env), left)
  {
    hide Tidy, Unreserved, FinishShow, CatchShow, Suspend, Respond;
    var d, id := s.batches[k].doc, s.batches[k].work.id;
    CatchTidy(left, s, k);
    DeleteTidy(left, s, k);
    DeleteUncancel(s, id, k);
    if !Live(s, d) { FinishTidy(left, DeleteReservation(s, id, k), k); }
    else if id in s.cancelled { ConsumeFinishTidy(left, DeleteReservation(s, id, k), k); }
    else if !env.found {
      RespondFinishTidy(left, DeleteReservation(s, id, k), k, d, id, Failed, Silent, Protocol.Unavailable);
    }
    SuspendTidy(left, s, k, Displaying, s.batches[k].work.registered);
  }

  lemma DisplayingTidy(left: set<Id>, s: State, k: nat, env: Env)
    requires Tidy(s, left) && k in s.batches && s.batches[k].work.Showing?
    ensures Tidy(ResumeDisplaying(s, k, env), left)
  {
    hide Tidy, CatchShow, Suspend;
    var id, registered := s.batches[k].work.id, s.batches[k].work.registered;
    CatchTidy(left, s, k);
    UncancelTidy(left, s, id);
    SuspendTidy(left, s, k, Withdrawing, registered);
    SuspendTidy(left, Uncancel(s, id), k, Withdrawing, registered);
    SuspendTidy(left, s, k, LastReconcile, registered);
  }

  lemma WithdrawingExactly(left: set<Id>, s: State, k: nat, env: Env)
    requires Tidy(s, left) && k in s.batches && s.batches[k].work.Showing?
    ensures var s' := ResumeWithdrawing(s, k, env);
            var late := !env.failed && Live(s, s.batches[k].doc) && s.batches[k].work.id in s.cancelled;
            if late then Leaves(s', left, s.batches[k].work.id) else Tidy(s', left)
  {
    hide Tidy, Unreserved, CatchShow;
    CatchTidy(left, s, k);
    DeleteTidy(left, s, k);
    FinishTidy(left, DeleteReservation(s, s.batches[k].work.id, k), k);
  }

  lemma LastReconcileTidy(left: set<Id>, s: State, k: nat, env: Env)
    requires Tidy(s, left) && k in s.batches && s.batches[k].work.Showing? && s.batches[k].work.phase == LastReconcile
    ensures Tidy(ResumeLastReconcile(s, k, env), left)
  {
    hide Tidy, Unreserved, FinishShow, Respond, Reconcile;
    var d, id := s.batches[k].doc, s.batches[k].work.id;
    ReconcileTidy(left, s, d, env.vanished, k);
    var s1 := if env.failed then s else Reconcile(s, d, env.vanished);
    DeleteTidy(left, s1, k);
    DeleteUncancel(s1, id, k);
    if !Live(s1, d) { FinishTidy(left, DeleteReservation(s1, id, k), k); }
    else if id in s1.cancelled { ConsumeFinishTidy(left, DeleteReservation(s1, id, k), k); }
    else {
      OnlyOwnPends(left, s1, k);
      if id in s1.notices && s1.notices[id] == Worker(k, d, true) {
        CompletedTidy(left, s1, k);
        RespondFinishTidy(left, s1.(notices := s1.notices[id := Worker(k, d, false)]), k, d, id, Ok, Shown, NoReason);
      } else {
        FinishTidy(left, s1, k);
      }
    }
  }

  // Only the show's own notification can be reserved by it.
  lemma OnlyOwnPends(left: set<Id>, s: State, k: nat)
    requires Tidy(s, left) && k in s.batches && s.batches[k].work.Showing?
    ensures var id := s.batches[k].work.id;
            !(id in s.notices && s.notices[id] == Worker(k, s.batches[k].doc, true)) ==> Unreserved(s, k)
  {
    var id := s.batches[k].work.id;
    forall x ensures Pends(s, x, k) ==> x == id && s.notices[id] == Worker(k, s.batches[k].doc, true) {
      assert Pends(s, x, k) ==> Reserves(s, k, x);
    }
  }

  lemma CompletedTidy(left: set<Id>, s: State, k: nat)
    requires Tidy(s, left) && k in s.batches && s.batches[k].work.Showing?
    ensures var id := s.batches[k].work.id;
            var s' := s.(notices := s.notices[id := Worker(k, s.batches[k].doc, false)]);
            Tidy(s', left) && Unreserved(s', k)
  {
    var id := s.batches[k].work.id;
    var s' := s.(notices := s.notices[id := Worker(k, s.batches[k].doc, false)]);
    PlacedTidy(left, s, k, id, Worker(k, s.batches[k].doc, false));
    OnlyOwnPends(left, s', k);
  }

  lemma ShowExactly(left: set<Id>, s: State, k: nat, env: Env)
    requires Tidy(s, left) && k in s.batches && s.batches[k].work.Showing?
    ensures var s' := ResumeShow(s, k, env);
            if ClosedTwice(s, ShowResumes(k), env) then Leaves(s', left, s.batches[k].work.id) else Tidy(s', left)
  {
    hide Tidy, ResumeFindWorker, ResumeFirstReconcile, ResumeFindFallback, ResumeDisplaying, ResumeWithdrawing,
         ResumeLastReconcile;
    match s.batches[k].work.phase
    case FindWorker => FindWorkerTidy(left, s, k, env);
    case FirstReconcile => FirstReconcileTidy(left, s, k, env);
    case FindFallback => FindFallbackTidy(left, s, k, env);
    case Displaying => DisplayingTidy(left, s, k, env);
    case Withdrawing => WithdrawingExactly(left, s, k, env);
    case LastReconcile => LastReconcileTidy(left, s, k, env);
  }

  /********** Granted work **********/

  lemma ShowTidy(left: set<Id>, s: State, d: nat, id: Id, env: Env)
    requires Tidy(s, left)
    ensures Tidy(ShowNotification(s, d, id, env), left)
  {
    hide Tidy, Unreserved, Display, Respond;
    RespondTidy(left, s, d, id, Denied, Silent, Some(id), Refused);
    RespondTidy(left, s, d, id, Failed, Silent, Some(id), TooManyOperations);
    var s1 := Begin(s, d, 1, {id}, Showing(id, FindWorker, false));
    BeginTidy(left, s, d, 1, {id}, Showing(id, FindWorker, false));
    EarlyUnreserved(left, s1, s.next);
    DisplayTidy(left, s1, s.next, false, env);
  }

  lemma LocateTidy(left: set<Id>, s: State, d: nat, id: Id, op: Op, env: Env)
    requires Tidy(s, left)
    ensures Tidy(ExecuteGeolocation(s, d, id, op, env), left)
  {
    hide Tidy, Respond, Begin;
    BeginTidy(left, s, d, 1, {id}, Locating(id));
    RespondTidy(left, s, d, id, Failed, Silent, None, Protocol.Unavailable);
    RespondTidy(left, s, d, id, Failed, Silent, None, TooManyOperations);
    RespondTidy(left, s, d, id, Failed, Silent, None, NativeFailure);
    RespondTidy(left, s, d, id, Failed, Silent, None, TooManyWatches);
    SameTidy(left, s, s.(watches := s.watches[id := Watch(s.next, d)], next := s.next + 1));
  }

  lemma GrantedTidy(left: set<Id>, s: State, d: nat, id: Id, op: Op, env: Env)
    requires Tidy(s, left)
    ensures Tidy(ExecuteGranted(s, d, id, op, env), left)
  {
    hide Tidy, ShowNotification, ExecuteGeolocation, Respond;
    BegunTidy(left, s, d, Geolocation, id);
    BegunTidy(left, s, d, Notifications, id);
    LocateTidy(left, Begun(s, d, Geolocation, id), d, id, op, env);
    ShowTidy(left, Begun(s, d, Notifications, id), d, id, env);
    RespondTidy(left, Begun(s, d, Notifications, id), d, id, Ok, Silent, None, NoReason);
    RespondTidy(left, s, d, id, Failed, Silent, None, NativeFailure);
  }

  lemma BegunTidy(left: set<Id>, s: State, d: nat, cap: Capability, id: Id)
    requires Tidy(s, left)
    ensures Tidy(Begun(s, d, cap, id), left)
  {
    SameTidy(left, s, Begun(s, d, cap, id));
  }

  lemma {:induction false} ExecuteAllTidy(left: set<Id>, s: State, items: seq<Queued>, env: Env)
    requires Tidy(s, left)
    ensures Tidy(ExecuteAll(s, items, env), left)
    decreases |items|
  {
    hide Tidy, ExecuteGranted;
    if items != [] {
      GrantedTidy(left, s, items[0].doc, items[0].id, items[0].op, env);
      ExecuteAllTidy(left, ExecuteGranted(s, items[0].doc, items[0].id, items[0].op, env), items[1..], env);
    }
  }

  lemma CopyTidy(left: set<Id>, s: State, d: nat, id: Id, op: Op, mode: Mode, token: Option<Grants.Token>, env: Env)
    requires Tidy(s, left)
    ensures Tidy(ExecuteClipboard(s, d, id, op, mode, token, env), left)
  {
    hide Tidy, Respond, Begin;
    var cap := CapabilityOf(op);
    RespondTidy(left, s, d, id, Denied, Silent, None, ApprovalChanged);
    RespondTidy(left, s, d, id, Failed, Silent, None, TooManyOperations);
    if cap.Some? {
      BegunTidy(left, s, d, cap.value, id);
      BeginTidy(left, Begun(s, d, cap.value, id), d, 1, {id}, Clipping(id, cap.value, mode, token));
    }
  }

  lemma {:induction false} SiblingsTidy(left: set<Id>, s: State, items: seq<Queued>, token: Option<Grants.Token>,
                                        env: Env)
    requires Tidy(s, left)
    ensures Tidy(ExecuteSiblings(s, items, token, env), left)
    decreases |items|
  {
    hide Tidy, ExecuteClipboard;
    if items != [] {
      CopyTidy(left, s, items[0].doc, items[0].id, items[0].op, Saved, token, env);
      SiblingsTidy(left, ExecuteClipboard(s, items[0].doc, items[0].id, items[0].op, Saved, token, env), items[1..],
                   token, env);
    }
  }

  lemma QueueTidy(left: set<Id>, s: State, queue: seq<Queued>)
    requires Tidy(s, left)
    ensures Tidy(s.(queue := queue), left) && Tidy(Advance(s.(queue := queue)), left)
  {
    SameTidy(left, s, s.(queue := queue));
    AdvanceTidy(left, s.(queue := queue));
  }

  lemma OutcomeTidy(left: set<Id>, s: State, d: nat, w: Work, env: Env)
    requires Tidy(s, left) && w.Clipping?
    ensures Tidy(ClipboardOutcome(s, d, w, env), left)
  {
    hide Tidy, Respond, Advance, ExecuteSiblings, Matching, Without;
    RespondTidy(left, s, d, w.id, Denied, Silent, None, ApprovalChanged);
    RespondTidy(left, s, d, w.id, Failed, Silent, None, NativeFailure);
    RespondTidy(left, s, d, w.id, Ok, Silent, None, NoReason);
    var s1 := Answer(s, d, w.id, Ok, NoReason);
    AdvanceTidy(left, s1);
    var siblings := Matching(s1.queue, d, w.cap);
    QueueTidy(left, s1, Without(s1.queue, siblings));
    SiblingsTidy(left, s1.(queue := Without(s1.queue, siblings)), siblings, w.token, env);
    AdvanceTidy(left, ExecuteSiblings(s1.(queue := Without(s1.queue, siblings)), siblings, w.token, env));
  }

  lemma SettleClipboardTidy(left: set<Id>, s: State, k: nat, env: Env)
    requires Tidy(s, left) && k in s.batches && s.batches[k].work.Clipping?
    ensures Tidy(SettleClipboard(s, k, env), left)
  {
    hide Tidy, ClipboardOutcome;
    var d, w := s.batches[k].doc, s.batches[k].work;
    OtherWorkTidy(left, s, k);
    LandTidy(left, Release(s, k), w.id);
    if w.id !in s.cancelled { OutcomeTidy(left, Land(Release(s, k), w.id), d, w, env); }
  }

  lemma SettleLocationTidy(left: set<Id>, s: State, k: nat, fix: Fix)
    requires Tidy(s, left) && k in s.batches && s.batches[k].work.Locating?
    ensures Tidy(SettleLocation(s, k, fix), left)
  {
    hide Tidy, Respond;
    var d, id := s.batches[k].doc, s.batches[k].work.id;
    OtherWorkTidy(left, s, k);
    LandTidy(left, Release(s, k), id);
    if id !in s.cancelled {
      var s2 := Land(Release(s, k), id);
      RespondTidy(left, s2, d, id, Ok, Silent, None, NoReason);
      RespondTidy(left, s2, d, id, Failed, Silent, None, NativeFailure);
      RespondTidy(left, s2, d, id, Denied, Silent, None, NativeFailure);
    }
  }

  /********** Consent **********/

  lemma AskTidy(left: set<Id>, s: State, d: nat, id: Id, op: Op, cap: Capability, env: Env)
    requires Tidy(s, left)
    ensures Tidy(RequestCapability(s, d, id, op, cap, env), left)
  {
    hide Tidy, Respond, ExecuteClipboard, ExecuteGranted, Advance;
    RespondTidy(left, s, d, id, Denied, Silent, None, Refused);
    RespondTidy(left, s, d, id, Failed, Silent, None, TooManyPending);
    CopyTidy(left, s, d, id, op, Saved, env.saved, env);
    GrantedTidy(left, s, d, id, op, env);
    QueueTidy(left, s, s.queue + [Queued(d, cap, id, op)]);
  }

  lemma AnswersTidy(left: set<Id>, s: State, items: seq<Queued>, status: Status, reason: Reason)
    requires Tidy(s, left)
    ensures Tidy(AnswerAll(s, items, status, reason), left)
  {
    SameTidy(left, s, AnswerAll(s, items, status, reason));
  }

  lemma ResolveTidy(left: set<Id>, s: State, mode: Mode, current: Queued, revision: nat, token: Option<Grants.Token>,
                    env: Env)
    requires Tidy(s, left)
    ensures Tidy(ResolveNotificationConsent(s, mode, current, revision, token, env), left)
  {
    hide Tidy, Advance, AnswerAll, Begin, Matching, Without;
    var d := current.doc;
    var selected := if mode == Always && token.Some? then Matching(s.queue, d, current.cap) else [current];
    var s1 := s.(queue := Without(s.queue, selected));
    AdvanceTidy(left, s);
    QueueTidy(left, s, Without(s.queue, selected));
    AnswersTidy(left, s1, selected, Failed, TooManyOperations);
    AdvanceTidy(left, AnswerAll(s1, selected, Failed, TooManyOperations));
    AnswersTidy(left, Advance(s1), selected, Failed, NativeFailure);
    if |selected| >= 1 {
      var work := Consenting(mode, current, selected, revision, token);
      BeginTidy(left, s1, d, |selected|, Ids(selected), work);
      AdvanceTidy(left, Begin(s1, d, |selected|, Ids(selected), work));
    }
  }

  lemma SettleItemTidy(left: set<Id>, s: State, mode: Mode, current: Queued, item: Queued, v: Verdict, env: Env)
    requires Tidy(s, left)
    ensures Tidy(SettleItem(s, mode, current, item, v, env), left)
  {
    hide Tidy, Respond, ExecuteGranted, Land, Uncancel;
    LandTidy(left, s, item.id);
    if item.id !in s.cancelled {
      var s1 := Land(s, item.id);
      RespondTidy(left, s1, item.doc, item.id, Denied, Silent, None, Refused);
      RespondTidy(left, s1, item.doc, item.id, Ok, Silent, None, NoReason);
      RespondTidy(left, s1, item.doc, item.id, Denied, Silent, Some(item.id), ApprovalChanged);
      RespondTidy(left, s1, item.doc, item.id, Failed, Silent, None, NativeFailure);
      QueueTidy(left, s1, s1.queue + [item]);
      GrantedTidy(left, s1, item.doc, item.id, item.op, env);
    }
  }

  lemma {:induction false} SettleItemsTidy(left: set<Id>, s: State, mode: Mode, current: Queued,
                                           items: seq<Queued>, v: Verdict,
                                           env: Env)
    requires Tidy(s, left)
    ensures Tidy(SettleItems(s, mode, current, items, v, env), left)
    decreases |items|
  {
    hide Tidy, SettleItem;
    if items != [] {
      SettleItemTidy(left, s, mode, current, items[0], v, env);
      SettleItemsTidy(left, SettleItem(s, mode, current, items[0], v, env), mode, current, items[1..], v, env);
    }
  }

  // The same document with more denials or a new revision.
  lemma DocTidy(left: set<Id>, s: State, doc: Doc)
    requires Tidy(s, left) && s.active.Some? && doc.generation == s.active.value.generation
    ensures Tidy(WithDoc(s, doc), left)
  {
    SameTidy(left, s, WithDoc(s, doc));
  }

  lemma PromptTidy(left: set<Id>, s: State, k: nat, status: Status, dismissed: bool, env: Env)
    requires Tidy(s, left) && k in s.batches && s.batches[k].work.Consenting?
    ensures Tidy(SettleConsent(s, k, status, dismissed, env), left)
  {
    hide Tidy, SettleItems, Advance, SomeUncancelled;
    var d, w := s.batches[k].doc, s.batches[k].work;
    OtherWorkTidy(left, s, k);
    if Live(s, d) {
      var doc := s.active.value;
      var before := doc.revision == w.revision && env.currentBefore;
      var saved := w.mode == Always && w.token.Some? && status == Ok && before && Allowed(s, Notifications)
                   && SomeUncancelled(s, w.items) && env.stored;
      var v := Verdict(status, saved, before && env.currentAfter);
      var s1 := Release(s, k);
      var s2 := WithDoc(s1, doc.(denied := doc.denied + {Notifications}));
      DocTidy(left, s1, doc.(denied := doc.denied + {Notifications}));
      SettleItemsTidy(left, s1, w.mode, w.current, w.items, v, env);
      SettleItemsTidy(left, s2, w.mode, w.current, w.items, v, env);
      AdvanceTidy(left, SettleItems(s1, w.mode, w.current, w.items, v, env));
      AdvanceTidy(left, SettleItems(s2, w.mode, w.current, w.items, v, env));
    }
  }

  lemma AllowTidy(left: set<Id>, s: State, mode: Mode, env: Env)
    requires Tidy(s, left)
    ensures Tidy(Allow(s, mode, env), left)
  {
    hide Tidy, Advance, ExecuteClipboard, ExecuteAll, ResolveNotificationConsent, Matching, Without;
    AdvanceTidy(left, s);
    if s.queue != [] && Live(s, s.queue[0].doc) {
      var current := s.queue[0];
      var doc := s.active.value;
      DocTidy(left, s, doc.(revision := doc.revision + 1));
      var s1 := if current.cap == Notifications then WithDoc(s, doc.(revision := doc.revision + 1)) else s;
      var token := if env.choice.Ready? then Some(env.choice.token) else None;
      var alone := s1.(queue := Without(s1.queue, [current]));
      QueueTidy(left, s1, Without(s1.queue, [current]));
      CopyTidy(left, alone, current.doc, current.id, current.op, mode, token, env);
      AdvanceTidy(left, ExecuteClipboard(alone, current.doc, current.id, current.op, mode, token, env));
      ResolveTidy(left, s1, mode, current, doc.revision + 1, token, env);
      var selected := if mode == Always && token.Some? && env.stored then Matching(s1.queue, current.doc, current.cap)
        else [current];
      var rest := s1.(queue := Without(s1.queue, selected));
      QueueTidy(left, s1, Without(s1.queue, selected));
      ExecuteAllTidy(left, rest, selected, env);
      AdvanceTidy(left, ExecuteAll(rest, selected, env));
    }
  }

  lemma DenyTidy(left: set<Id>, s: State)
    requires Tidy(s, left)
    ensures Tidy(Deny(s), left)
  {
    SameTidy(left, s, Deny(s));
  }

  /********** Messages **********/

  // Cancelling running work.
  lemma MarkTidy(left: set<Id>, s: State, target: Id, mark: bool, watches: map<Id, Watch>, notices: map<Id, Notice>,
                 queue: seq<Queued>)
    requires Tidy(s, left) && (mark ==> target in s.inFlight)
    requires forall x :: x in notices ==> x in s.notices && notices[x] == s.notices[x]
    ensures Tidy(s.(watches := watches, notices := notices, queue := queue,
                    cancelled := if mark then s.cancelled + {target} else s.cancelled), left)
  {
    var s' := s.(watches := watches, notices := notices, queue := queue, cancelled := if mark
                 then s.cancelled + {target} else s.cancelled);
    forall x, k | Pends(s', x, k) ensures Reserves(s', k, x) { assert Pends(s, x, k); }
  }

  lemma PendingInFlight(left: set<Id>, s: State, x: Id)
    requires Core(s) && Tidy(s, left) && x in s.notices && s.notices[x].Worker? && s.notices[x].pending
    ensures x in s.inFlight
  {
    var k := s.notices[x].reservation;
    assert Pends(s, x, k) && Reserves(s, k, x);
    assert Holds(s.batches, s.generation, k, x);
  }

  lemma ClearTidy(left: set<Id>, s: State, doc: Doc, id: Id, target: Id)
    requires Tidy(s, left)
    ensures Tidy(ClearLocation(s, doc, id, target), left)
  {
    hide Tidy, Respond, Advance, Discard;
    var d := doc.generation;
    RespondTidy(left, s, d, id, Failed, Silent, Some(target), UnknownTarget);
    if target in doc.requests {
      var mark := target in s.inFlight && doc.requests[target] == LocationGet;
      var s1 := s.(watches := s.watches - {target}, cancelled := if mark then s.cancelled + {target} else s.cancelled,
                   queue := Discard(s.queue, d, target));
      MarkTidy(left, s, target, mark, s.watches - {target}, s.notices, Discard(s.queue, d, target));
      AdvanceTidy(left, s1);
      RespondTidy(left, Advance(s1), d, id, Ok, Silent, Some(target), NoReason);
    }
  }

  lemma CancelTidy(left: set<Id>, s: State, doc: Doc, id: Id, target: Id)
    requires Tidy(s, left)
    ensures Tidy(CancelClipboard(s, doc, id, target), left)
  {
    hide Tidy, Respond, Advance, Discard;
    var d := doc.generation;
    RespondTidy(left, s, d, id, Failed, Silent, None, UnknownTarget);
    var mark := target in s.inFlight;
    var s1 := s.(cancelled := if mark then s.cancelled + {target}
                 else s.cancelled, queue := Discard(s.queue, d, target));
    MarkTidy(left, s, target, mark, s.watches, s.notices, Discard(s.queue, d, target));
    AdvanceTidy(left, s1);
    RespondTidy(left, Advance(s1), d, id, Ok, Silent, None, NoReason);
  }

  lemma CloseTidy(left: set<Id>, s: State, doc: Doc, id: Id, target: Id)
    requires Core(s) && Tidy(s, left)
    ensures Tidy(CloseNotification(s, doc, id, target), left)
  {
    hide Tidy, Core, Respond, Advance, Discard;
    var d := doc.generation;
    RespondTidy(left, s, d, id, Failed, Silent, Some(target), UnknownTarget);
    if target in doc.requests {
      RespondTidy(left, s, d, target, Ok, Closed, Some(target), NoReason);
      var s0 := if doc.requests[target] == NotificationShow
        then Respond(s, d, target, Ok, Closed, Some(target), NoReason) else s;
      RespondFields(s, d, target, Ok, Closed, Some(target), NoReason);
      var pending := target in s.notices && s.notices[target].Worker? && s.notices[target].pending;
      if pending { PendingInFlight(left, s, target); }
      var mark := target in s.inFlight || pending;
      var s1 := s0.(cancelled := if mark then s.cancelled + {target} else s.cancelled, notices := s.notices - {target},
                    queue := Discard(s.queue, d, target));
      MarkTidy(left, s0, target, mark, s0.watches, s0.notices - {target}, Discard(s0.queue, d, target));
      AdvanceTidy(left, s1);
      RespondTidy(left, Advance(s1), d, id, Ok, Silent, Some(target), NoReason);
    }
  }

  lemma RespondFields(s: State, d: nat, id: Id, status: Status, event: Event, about: Option<Id>, reason: Reason)
    ensures var r := Respond(s, d, id, status, event, about, reason); r == s.(posts := r.posts)
  {
  }

  lemma DispatchTidy(left: set<Id>, s: State, doc: Doc, id: Id, op: Op, target: Id, env: Env)
    requires Core(s) && Tidy(s, left)
    ensures Tidy(Dispatch(s, doc, id, op, target, env), left)
  {
    hide Tidy, Core, ClearLocation, CloseNotification, CancelClipboard, RequestCapability;
    ClearTidy(left, s, doc, id, target);
    CloseTidy(left, s, doc, id, target);
    CancelTidy(left, s, doc, id, target);
    if CapabilityOf(op).Some? { AskTidy(left, s, doc.generation, id, op, CapabilityOf(op).value, env); }
  }

  lemma RequestTidy(left: set<Id>, s: State, client: Client, id: Id, op: Op, target: Id, env: Env)
    requires Core(s) && Tidy(s, left) && op != Connect
    ensures Tidy(HandleRequest(s, client, id, op, target, env), left)
  {
    hide Tidy, Core, Respond, Dispatch, Prune, Protected;
    if !Accepts(s, client) {
      SameTidy(left, s, s.(posts := s.posts + [Response(client, id, Failed, Silent, None, UnknownDocument)]));
    } else if id in s.active.value.requests {
      RespondTidy(left, s, s.active.value.generation, id, Failed, Silent, None, DuplicateRequest);
    } else {
      ActiveIsCurrent(s);
      HandleNewEquation(s, client, id, op, target, env);
      PruneStays(s.active.value, Protected(s));
      if Size(Pruned(s).requests) >= MAX_REMEMBERED {
        DocTidy(left, s, Pruned(s));
        RespondTidy(left, WithDoc(s, Pruned(s)), s.generation, id, Failed, Silent, None, TooManyActive);
      } else {
        RegisteredKeeps(s, id, op);
        RegisteredTidy(left, s, id, op);
        var s1 := Registered(s, id, op);
        DispatchTidy(left, s1, s1.active.value, id, op, target, env);
      }
    }
  }

  lemma PruneStays(doc: Doc, owners: set<Id>)
    ensures Prune(doc, owners).generation == doc.generation
  {
  }

  lemma RegisteredTidy(left: set<Id>, s: State, id: Id, op: Op)
    requires Tidy(s, left) && s.active.Some?
    ensures Tidy(Registered(s, id, op), left)
  {
    PruneStays(s.active.value, Protected(s));
    SameTidy(left, s, Registered(s, id, op));
  }

  lemma MessageTidy(left: set<Id>, s: State, m: Message, env: Env)
    requires Core(s) && Tidy(s, left)
    ensures Tidy(HandleMessage(s, m, env), left)
  {
    hide Tidy, Core, HandleRequest, Respond, Reset;
    ResetTidy(left, s);
    match m
    case Disconnect(client) =>
    case Garbled(client, id) =>
      if s.active.Some? { RespondTidy(left, s, s.active.value.generation, id, Failed, Silent, None, MalformedRequest); }
    case Request(client, id, op, target) =>
      if op == Connect { ConnectTidy(left, s, client, id); } else { RequestTidy(left, s, client, id, op, target, env); }
  }

  lemma ConnectTidy(left: set<Id>, s: State, client: Client, id: Id)
    requires Tidy(s, left)
    ensures Tidy(HandleConnect(s, client, id), left)
  {
  }

  /********** Every step **********/

  lemma EventTidy(left: set<Id>, s: State, id: Id, handle: nat, event: Event)
    requires Tidy(s, left)
    ensures Tidy(NoticeEvent(s, id, handle, event), left)
  {
    var s' := NoticeEvent(s, id, handle, event);
    assert s' == s.(notices := s'.notices, posts := s'.posts);
    FewerTidy(left, s, s'.notices, s'.posts);
  }

  lemma ElsewhereTidy(left: set<Id>, s: State, count: nat)
    requires Tidy(s, left) && count >= 1
    ensures Tidy(Begin(s, 0, count, {}, Elsewhere), left)
  {
    BeginTidy(left, s, 0, count, {}, Elsewhere);
  }

  /**
   A step leaves every cancellation with its running native work, unless it ends the withdrawal of a
   notification that was closed a second time meanwhile; and that step always leaves one behind.
   */
  lemma TidyExactly(s: State, a: Action, env: Env)
    requires Valid(s) && Tidy(s, {}) && Enabled(s, a)
    ensures Tidy(Next(s, a, env), {}) <==> !ClosedTwice(s, a, env)
    ensures Next(s, a, env).cancelled <= Next(s, a, env).inFlight <==> !ClosedTwice(s, a, env)
  {
    hide Core, Next, ClosedTwice;
    StepTidy({}, s, a, env);
  }

  lemma StepTidy(left: set<Id>, s: State, a: Action, env: Env)
    requires Valid(s) && Tidy(s, left) && Enabled(s, a)
    ensures var s' := Next(s, a, env);
            if ClosedTwice(s, a, env) then Leaves(s', left, s.batches[a.batch].work.id) else Tidy(s', left)
  {
    hide Tidy, Core, HandleMessage, Allow, Deny, SettleLocation, SettleClipboard, SettleConsent, ResumeShow, WatchEvent,
         NoticeEvent;
    match a
    case Receive(m) => MessageTidy(left, s, m, env);
    case ClickAllow(mode) => AllowTidy(left, s, mode, env);
    case ClickDeny => DenyTidy(left, s);
    case LocationSettles(k, fix) => SettleLocationTidy(left, s, k, fix);
    case ClipboardSettles(k) => SettleClipboardTidy(left, s, k, env);
    case PromptSettles(k, status, dismissed) => PromptTidy(left, s, k, status, dismissed, env);
    case ShowResumes(k) => ShowExactly(left, s, k, env);
    case WatchFires(id, d, fix) => WatchTidy(left, s, id, d, fix);
    case NoticeFires(id, handle, event) => EventTidy(left, s, id, handle, event);
    case Load => LoadTidy(left, s);
    case Navigate => LoadTidy(left, s);
    case Manage(managed) => SameTidy(left, s, s.(managed := managed));
    case ReserveElsewhere(count) => if Reservable(s, count) { ElsewhereTidy(left, s, count); }
    case ReleaseElsewhere(k) => OtherWorkTidy(left, s, k);
  }

  lemma WatchTidy(left: set<Id>, s: State, id: Id, d: nat, fix: Fix)
    requires Tidy(s, left)
    ensures Tidy(WatchEvent(s, id, d, fix), left)
  {
    SameTidy(left, s, WatchEvent(s, id, d, fix));
  }

  lemma LoadTidy(left: set<Id>, s: State)
    requires Tidy(s, left)
    ensures Tidy(FrameLoaded(s), left) && Tidy(Revoke(s), left)
  {
    SameTidy(left, s, s.(handledConnects := s.connects));
    ResetTidy(left, s.(handledConnects := s.connects));
  }

  // No notification is closed twice in this run while its first close is carried out.
  ghost predicate ClosedOnce(s: State, steps: seq<Step>)
    decreases |steps|
  {
    steps == [] || ((Enabled(s, steps[0].action) ==> !ClosedTwice(s, steps[0].action, steps[0].env))
                    && ClosedOnce(Perform(s, steps[0]), steps[1..]))
  }

  lemma {:induction false} TidyRun(s: State, steps: seq<Step>)
    requires Valid(s) && Tidy(s, {}) && ClosedOnce(s, steps)
    ensures Tidy(After(s, steps), {})
    decreases |steps|
  {
    hide Valid, Tidy;
    if steps != [] {
      if Enabled(s, steps[0].action) {
        NextKeepsValid(s, steps[0].action, steps[0].env);
        TidyExactly(s, steps[0].action, steps[0].env);
      }
      TidyRun(Perform(s, steps[0]), steps[1..]);
    }
  }

  /**
   In every run without such a second close, each cancellation belongs to running native work, and a fresh
   request is never refused because the history is full of owners.
   */
  lemma RoomUnlessClosedTwice(steps: seq<Step>)
    requires ClosedOnce(INITIAL, steps)
    ensures var s := After(INITIAL, steps);
            s.cancelled <= s.inFlight && (s.active.Some? ==> Size(Pruned(s).requests) < MAX_REMEMBERED)
  {
    InitialIsValid();
    AfterKeepsValid(INITIAL, steps);
    TidyRun(INITIAL, steps);
    if After(INITIAL, steps).active.Some? { AlwaysRoom(After(INITIAL, steps)); }
  }

  /********** A cancellation that stays behind **********/

  // A saved and granted permission, and a service worker that displays.
  const GRANTED := USUAL.(saved := Some(7), nativeGranted := true, worker := true, found := true, constructed := {},
                          failed := false)

  // Document 1 shows notification 2 through the service worker.
  ghost predicate Displays(s: State, phase: Phase) {
    && Open(s) && s.generation == 1 && s.queue == [] && s.prompt == None && Size(s.active.value.requests) < 100
    && 2 in s.active.value.requests && s.active.value.requests[2] == NotificationShow
    && s.batches == map[0 := Batch(Fresh(0, 1), 1, Showing(2, phase, false))] && s.inFlight == {2}
  }

  // Document 1 once it asked for notification 2.
  const ASKED := WithDoc(CONNECTED, Remember(CONNECTED.active.value, 2, NotificationShow))

  lemma AskIsGranted()
    ensures Perform(CONNECTED, Step(Receive(Request(1, 2, NotificationShow, 0)), GRANTED))
         == ShowNotification(Begun(ASKED, 1, Notifications, 2), 1, 2, GRANTED)
  {
    hide ShowNotification, Begun, Oldest;
    ConnectedSize();
    assert HandleRequest(CONNECTED, 1, 2, NotificationShow, 0, GRANTED)
        == RequestCapability(ASKED, 1, 2, NotificationShow, Notifications, GRANTED);
    assert RequestCapability(ASKED, 1, 2, NotificationShow, Notifications, GRANTED)
        == ExecuteGranted(ASKED, 1, 2, NotificationShow, GRANTED);
  }

  lemma ShowBegins()
    ensures var s := Perform(CONNECTED, Step(Receive(Request(1, 2, NotificationShow, 0)), GRANTED));
            Displays(s, FindFallback) && s.cancelled == {} && s.active.value.requests.Keys == {1, 2}
  {
    AskIsGranted();
    var s1 := Begun(ASKED, 1, Notifications, 2);
    var s2 := Begin(s1, 1, 1, {2}, Showing(2, FindWorker, false));
    assert KeySet(s2.notices) == {} && KeySet(ASKED.active.value.requests) == {1, 2};
    assert ShowNotification(s1, 1, 2, GRANTED) == Display(s2, 0, false, GRANTED);
    assert Display(s2, 0, false, GRANTED)
           == Suspend(s2.(notices := s2.notices[2 := Worker(0, 1, true)]), 0, FindFallback, false);
  }

  lemma ShowGoesOn(s: State)
    requires Displays(s, FindFallback) && s.cancelled == {}
    ensures var s' := Perform(s, Step(ShowResumes(0), GRANTED));
            Displays(s', Displaying) && s'.cancelled == {} && s'.active == s.active
  {
  }

  lemma WithdrawalBegins(s: State)
    requires Displays(s, Displaying) && s.cancelled == {2}
    ensures var s' := Perform(s, Step(ShowResumes(0), GRANTED));
            Displays(s', Withdrawing) && s'.cancelled == {} && s'.active == s.active
  {
  }

  lemma WithdrawalEnds(s: State)
    requires Displays(s, Withdrawing) && s.cancelled == {2}
    ensures var s' := Perform(s, Step(ShowResumes(0), GRANTED));
            s'.cancelled == {2} && s'.inFlight == {} && s'.batches == map[] && s'.queue == [] && s'.active == s.active
  {
    var s1 := DeleteReservation(s, 2, 0);
    assert Perform(s, Step(ShowResumes(0), GRANTED)) == FinishShow(s1, 0);
    assert s1 == s.(notices := s1.notices);
  }

  lemma CloseIsHeard(s: State, phase: Phase, id: Id)
    requires Displays(s, phase) && id !in s.active.value.requests && Size(s.active.value.requests) < 90
    ensures var doc := Remember(s.active.value, id, NotificationClose);
            Perform(s, Step(Receive(Request(1, id, NotificationClose, 2)), GRANTED))
              == CloseNotification(WithDoc(s, doc), doc, id, 2)
  {
    hide Oldest, Respond, CloseNotification;
  }

  lemma CloseMarks(s: State, phase: Phase, id: Id)
    requires Displays(s, phase) && s.cancelled == {} && id !in s.active.value.requests
    requires Size(s.active.value.requests) < 90
    ensures var s' := Perform(s, Step(Receive(Request(1, id, NotificationClose, 2)), GRANTED));
            Displays(s', phase) && s'.cancelled == {2}
              && s'.active.value.requests.Keys == s.active.value.requests.Keys + {id}
  {
    hide Oldest, Respond, CloseNotification, Perform;
    var s1 := WithDoc(s, Remember(s.active.value, id, NotificationClose));
    CloseIsHeard(s, phase, id);
    OneMore(s.active.value.requests, id, NotificationClose);
    CloseResult(s1, phase, id);
  }

  lemma OneMore(requests: map<Id, Op>, id: Id, op: Op)
    requires id !in requests
    ensures Size(requests[id := op]) == Size(requests) + 1
  {
    assert KeySet(requests[id := op]) == KeySet(requests) + {id};
  }

  lemma CloseResult(s: State, phase: Phase, id: Id)
    requires Displays(s, phase) && s.cancelled == {}
    ensures var s' := CloseNotification(s, s.active.value, id, 2);
            Displays(s', phase) && s'.cancelled == {2} && s'.active == s.active
  {
    assert Discard(s.queue, 1, 2) == [];
  }

  /** Closing a notification again while its first close is being carried out leaves a cancellation without work
      behind. */
  lemma CancellationStaysBehind() returns (s: State)
    ensures Reachable(s) && s.active.Some? && s.cancelled == {2} && s.inFlight == {} && s.batches == map[]
  {
    hide Perform;
    var resume := Step(ShowResumes(0), GRANTED);
    s := ShowsAndCloses();
    WithdrawalBegins(s);
    Reaches(s, resume);
    s := Perform(s, resume);
    assert KeySet(s.active.value.requests) == {1, 2, 3};
    CloseMarks(s, Withdrawing, 4);
    var again := Step(Receive(Request(1, 4, NotificationClose, 2)), GRANTED);
    Reaches(s, again);
    s := Perform(s, again);
    WithdrawalEnds(s);
    Reaches(s, resume);
    s := Perform(s, resume);
  }

  lemma ShowsAndCloses() returns (s: State)
    ensures Reachable(s) && Displays(s, Displaying) && s.cancelled == {2} && s.active.value.requests.Keys == {1, 2, 3}
  {
    hide Perform;
    Connects();
    ShowBegins();
    var ask := Step(Receive(Request(1, 2, NotificationShow, 0)), GRANTED);
    Reaches(CONNECTED, ask);
    s := Perform(CONNECTED, ask);
    ShowGoesOn(s);
    Reaches(s, Step(ShowResumes(0), GRANTED));
    s := Perform(s, Step(ShowResumes(0), GRANTED));
    assert KeySet(s.active.value.requests) == {1, 2};
    CloseMarks(s, Displaying, 3);
    var close := Step(Receive(Request(1, 3, NotificationClose, 2)), GRANTED);
    Reaches(s, close);
    s := Perform(s, close);
  }
}
