/**
 The life of a session and of what it retains: when it ends and begins again, which notifications it keeps, and which
 answers acknowledge.
 */
module ShimLife {
  import opened Wrappers
  import opened Protocol
  import opened ShimSpec
  import opened ShimInvariant
  import opened ShimTheorems
  import opened ShimCancels

  /********** Sessions **********/

  predicate SameLink(s: State, s': State) { s'.disconnected == s.disconnected }

  lemma SmallLink(s: State, op: Op, id: Id)
    ensures SameLink(s, s) && SameLink(s, Settle(s, id)) && SameLink(s, Forget(s, id)) && SameLink(s, Cancel(s, op, id))
    ensures SameLink(s, Drop(s, id)) && SameLink(s, Acknowledge(s, id))
  {
  }

  lemma FailLink(s: State, e: Entry, cancel: bool)
    requires e.op != Connect
    ensures SameLink(s, Fail(s, e, cancel))
  {
    hide Settle, Forget, Cancel, Drop, Acknowledge;
    var s1 := Cancel(s, CancelOf(e.op), e.id);
    SmallLink(s, CancelOf(e.op), e.id);
    SmallLink(s, CancelOf(e.op), e.target);
    SmallLink(s1, CancelOf(e.op), e.id);
    SmallLink(Drop(s, e.target), CancelOf(e.op), e.target);
  }

  lemma StartRequestLink(s: State, e: Entry)
    requires e.op != Connect
    ensures SameLink(s, StartRequest(s, e))
  {
    hide Fail;
    FailLink(s, e, false);
  }

  lemma StartLink(s: State, op: Op, target: Id, watchId: nat)
    requires op != Connect
    ensures SameLink(s, Start(s, op, target, watchId))
  {
    hide StartRequest;
    var b := Begun(s, op, target, watchId, CapabilityOf(op).Some?, true);
    StartRequestLink(b.0, b.1);
  }

  lemma CallLink(s: State, call: Call)
    ensures SameLink(s, Invoke(s, call))
  {
    hide Start, StartRequest, Fail, Drop;
    match call
    case GetCurrentPosition => StartLink(s, LocationGet, 0, 0);
    case WatchPosition =>
      var s1 := s.(next := s.next + 1,
                   nextWatchId := if s.nextWatchId >= LAST_WATCH_ID then 1 else s.nextWatchId + 1);
      StartRequestLink(s1, Entry(s.next, LocationWatch, 0, s.nextWatchId, true, true, true));
    case ClearWatch(watchId) =>
      if FindWatch(s.pending, watchId).Some? {
        var id := FindWatch(s.pending, watchId).value.id;
        SmallLink(s, LocationClear, id);
        StartLink(Drop(s, id), LocationClear, id, 0);
      }
    case RequestPermission => StartLink(s, NotificationPermission, 0, 0);
    case NewNotification =>
      StartLink(s.(notifications := s.notifications + {s.next}, built := s.built + {s.next}), NotificationShow, 0, 0);
    case CloseNotification(id) => StartLink(s.(closed := s.closed + {id}), NotificationClose, id, 0);
    case CallReadText => StartLink(s, ReadText, 0, 0);
    case CallWriteText => StartLink(s, WriteText, 0, 0);
    case CallReadItems => StartLink(s, ReadItems, 0, 0);
    case CallWriteItems =>
      var b := Begun(s, WriteItems, 0, 0, true, false);
      FailLink(b.0, b.1, false);
  }

  lemma HandleLink(s: State, e: Entry, r: Response, d: Detail)
    ensures e.op != Connect ==> SameLink(s, Handle(s, e, r, d))
    ensures e.op == Connect ==> Handle(s, e, r, d).disconnected == (s.disconnected || r.status != Ok)
  {
    hide HandleLookup, HandleWatch, HandlePermission, HandleShow, HandleClose, HandleCopy, Drop;
    SmallLink(s, e.op, e.id);
    match e.op
    case Connect =>
    case LocationGet => LookupLink(s, e, r, d);
    case LocationWatch => WatchLink(s, e, r, d);
    case LocationClear =>
    case NotificationPermission => PermissionLink(s, e, r, d);
    case NotificationShow => ShowLink(s, e, r);
    case NotificationClose => CloseLink(s, e, r);
    case ClipboardCancel =>
    case _ => CopyLink(s, e, r, d);
  }

  lemma LookupLink(s: State, e: Entry, r: Response, d: Detail)
    ensures SameLink(s, HandleLookup(s, e, r, d))
  {
  }

  lemma WatchLink(s: State, e: Entry, r: Response, d: Detail)
    ensures SameLink(s, HandleWatch(s, e, r, d))
  {
  }

  lemma PermissionLink(s: State, e: Entry, r: Response, d: Detail)
    ensures SameLink(s, HandlePermission(s, e, r, d))
  {
  }

  lemma ShowLink(s: State, e: Entry, r: Response)
    ensures SameLink(s, HandleShow(s, e, r))
  {
  }

  lemma CloseLink(s: State, e: Entry, r: Response)
    ensures SameLink(s, HandleClose(s, e, r))
  {
  }

  lemma CopyLink(s: State, e: Entry, r: Response, d: Detail)
    ensures SameLink(s, HandleCopy(s, e, r, d))
  {
  }

  lemma ExpireLink(s: State, id: Id)
    ensures var e := Find(s.pending, id);
            !s.disconnected ==> (Expire(s, id).disconnected <==> e.Some? && e.value.op == Connect && e.value.timer)
    ensures s.disconnected ==> Expire(s, id).disconnected
  {
    hide Fail, Find;
    if Find(s.pending, id).Some? {
      var e := Find(s.pending, id).value;
      if e.op == Connect { ConnectFails(Drop(s, id), e, true); } else { FailLink(Drop(s, id), e, true); }
      SmallLink(s, e.op, id);
    }
  }

  lemma ConnectFails(s: State, e: Entry, cancel: bool)
    requires e.op == Connect
    ensures Fail(s, e, cancel).disconnected
  {
  }

  lemma MaterializeLink(s: State, id: Id, fits: bool, cloneable: bool)
    requires Valid(s) && s.frame == Idle
    ensures SameLink(s, Materialize(s, id, fits, cloneable))
  {
    hide Fail;
    if id in s.writing && Find(s.pending, id).Some? {
      var e, s1 := Find(s.pending, id).value, s.(writing := s.writing - {id});
      assert EntryOk(s, e);
      FailLink(Drop(s1, id), e, false);
    }
  }

  lemma ReturnLink(s: State)
    requires Valid(s)
    ensures SameLink(s, Return(s))
  {
    hide Fail;
    if s.frame.FinishDisconnect? && s.frame.rest != [] {
      var s1, e := s.(frame := FinishDisconnect(s.frame.rest[1..])), s.frame.rest[0];
      if e.op == Connect { ConnectFails(s1, e, true); } else { FailLink(s1, e, true); }
    }
  }

  // What ends a session: the page is left, or the parent does not accept the connection, or does not answer it in time.
  predicate Severs(s: State, a: Action) {
    match a
    case Hides => true
    case Hears(r, d) =>
      && r.client == s.clientId && r.status != Ok
      && Find(s.pending, r.id).Some? && Find(s.pending, r.id).value.op == Connect
    case Expires(id) =>
      Find(s.pending, id).Some? && Find(s.pending, id).value.op == Connect && Find(s.pending, id).value.timer
    case _ => false
  }

  /**
   A connected session ends exactly when the page is left, or its connection is refused or not answered in time; one
   that ended begins again exactly when the page comes back from the cache while posting works.
   */
  lemma SeversExactly(s: State, a: Action)
    requires Valid(s) && Enabled(s, a)
    ensures !s.disconnected ==> (Next(s, a).disconnected <==> Severs(s, a))
    ensures s.disconnected ==> (Next(s, a).disconnected <==> !(a.Shows? && s.hidden && !s.mute))
  {
    hide Consistent, Invoke, Return, Receive, Expire, Materialize, PageShow, PageHide, Find;
    HiddenIsSevered(s);
    match a
    case Call(call) => CallLink(s, call);
    case Returns => ReturnLink(s);
    case Hears(r, d) => ReceiveLink(s, r, d);
    case Expires(id) => ExpireLink(s, id);
    case Hides => HideSevers(s);
    case Shows => ShowLinks(s);
    case Materializes(id, fits, cloneable) => MaterializeLink(s, id, fits, cloneable);
    case Mutes(gone) =>
  }

  lemma HiddenIsSevered(s: State)
    requires Valid(s)
    ensures s.hidden ==> s.disconnected
  {
  }

  lemma ReceiveLink(s: State, r: Response, d: Detail)
    ensures Receive(s, r, d).disconnected
       <==> s.disconnected || (&& r.client == s.clientId && r.status != Ok && Find(s.pending, r.id).Some?
                               && Find(s.pending, r.id).value.op == Connect)
  {
    hide Handle, Find;
    if Find(s.pending, r.id).Some? { HandleLink(s, Find(s.pending, r.id).value, r, d); }
  }

  lemma HideSevers(s: State)
    ensures PageHide(s).disconnected
  {
  }

  lemma ShowLinks(s: State)
    ensures PageShow(s).disconnected == if s.hidden then s.mute else s.disconnected
  {
  }

  /** Leaving the page tells the parent, whenever posting works; a new document begins under a name of its own. */
  lemma LeavesAndReturns(s: State)
    requires Valid(s) && s.frame == Idle
    ensures PageHide(s).out == if s.mute then s.out else s.out + [Protocol.Disconnect(s.clientId)]
    ensures PageHide(s).hidden
    ensures s.hidden ==> PageShow(s).clientId == s.next && !PageShow(s).hidden
    ensures s.hidden && !s.mute ==> PageShow(s).out == s.out + [Request(s.next, s.next + 1, Connect, 0)]
  {
    hide Consistent, StartRequest;
    if s.hidden {
      var b := Begun(Restored(s), Connect, 0, 0, false, true);
      ConnectStarts(b.0, b.1);
    }
  }

  lemma ConnectStarts(s: State, e: Entry)
    requires s.pending == [] && !s.disconnected && e.op == Connect && !e.awaiting
    ensures var s' := StartRequest(s, e);
            && s'.clientId == s.clientId && s'.hidden == s.hidden
            && (!s.mute ==> s'.out == s.out + [Request(s.clientId, e.id, Connect, e.target)])
  {
    hide Fail;
    ConnectFailure(s, e, false);
  }

  /********** Notifications **********/

  // A notification under this id is retained.
  predicate ShowAt(p: seq<Entry>, x: Id) { Find(p, x).Some? && Find(p, x).value.op == NotificationShow }

  // The shim keeps a notification object for the events of x exactly while its request is retained.
  predicate Tracks(s: State, x: Id) { x in s.notifications <==> ShowAt(s.pending, x) }

  lemma StartRequestTracks(s: State, e: Entry, x: Id)
    requires e.op != NotificationShow && e.op != NotificationClose && e.op != Connect && Find(s.pending, e.id).None?
    requires Tracks(s, x)
    ensures Tracks(StartRequest(s, e), x)
  {
    hide Tracks, Fail, Find;
    FailForgets(s, e, false);
    NeutralTracks(s, Fail(s, e, false), x);
    AppendTracks(s, e, x);
    var s1 := s.(pending := s.pending + [e]);
    NeutralTracks(s1, Post(s1, e.op, e.id, e.target), x);
  }

  lemma StartTracks(s: State, op: Op, target: Id, watchId: nat, x: Id)
    requires op != NotificationShow && op != NotificationClose && op != Connect && Find(s.pending, s.next).None?
    requires Tracks(s, x)
    ensures Tracks(Start(s, op, target, watchId), x)
  {
    hide StartRequest;
    var b := Begun(s, op, target, watchId, CapabilityOf(op).Some?, true);
    StartRequestTracks(b.0, b.1, x);
  }

  lemma BuildTracks(s: State, x: Id)
    requires Tracks(s, x) && Find(s.pending, s.next).None?
    ensures Tracks(BuildNotification(s), x)
  {
    FindAppend(s.pending, Entry(s.next, NotificationShow, 0, 0, true, true, true), x);
  }

  lemma CloseTracks(s: State, id: Id, x: Id)
    requires Tracks(s, x) && Find(s.pending, s.next).None?
    ensures Tracks(CloseBuilt(s, id), x)
  {
    hide Tracks, Fail, Drop, Forget, Find;
    var b := Begun(s.(closed := s.closed + {id}), NotificationClose, id, 0, false, true);
    NeutralTracks(s, b.0, x);
    CloseFailure(b.0, b.1, false);
    ForgetTracks(b.0, id, x);
    AppendTracks(b.0, b.1, x);
    var s1 := b.0.(pending := b.0.pending + [b.1]);
    NeutralTracks(s1, Post(s1, b.1.op, b.1.id, b.1.target), x);
  }

  lemma AppendTracks(s: State, e: Entry, x: Id)
    requires Tracks(s, x) && e.op != NotificationShow && Find(s.pending, e.id).None?
    ensures Tracks(s.(pending := s.pending + [e]), x)
  {
    FindAppend(s.pending, e, x);
  }

  lemma ClearTracks(s: State, watchId: nat, x: Id)
    requires Tracks(s, x) && Find(s.pending, s.next).None? && Distinct(s.pending)
    ensures Tracks(StopWatch(s, watchId), x)
  {
    hide Start;
    if FindWatch(s.pending, watchId).Some? {
      var e := FindWatch(s.pending, watchId).value;
      FindRemove(s.pending, e.id, x);
      FindRemove(s.pending, e.id, s.next);
      NotAShow(s.pending, e);
      StartTracks(Drop(s, e.id), LocationClear, e.id, 0, x);
    }
  }

  lemma NotAShow(p: seq<Entry>, e: Entry)
    requires Distinct(p) && e in p && e.op != NotificationShow
    ensures !ShowAt(p, e.id)
  {
    var f := Find(p, e.id);
    if f.Some? { SameFound(p, f.value, e); }
  }

  lemma CallTracks(s: State, call: Call, x: Id)
    requires Valid(s) && Tracks(s, x) && !s.frame.FinishDisconnect?
    ensures Tracks(Invoke(s, call), x)
  {
    hide Consistent, Start, StartRequest, Tracks, BuildNotification, CloseBuilt, StopWatch;
    PendingFacts(s);
    match call
    case GetCurrentPosition => StartTracks(s, LocationGet, 0, 0, x);
    case WatchPosition => WatchTracks(s, x);
    case ClearWatch(watchId) => ClearTracks(s, watchId, x);
    case RequestPermission => StartTracks(s, NotificationPermission, 0, 0, x);
    case NewNotification => BuildTracks(s, x);
    case CloseNotification(id) => CloseTracks(s, id, x);
    case CallReadText => StartTracks(s, ReadText, 0, 0, x);
    case CallWriteText => StartTracks(s, WriteText, 0, 0, x);
    case CallReadItems => StartTracks(s, ReadItems, 0, 0, x);
    case CallWriteItems => ReserveTracks(s, x);
  }

  lemma PendingFacts(s: State)
    requires Valid(s) && !s.frame.FinishDisconnect?
    ensures Distinct(s.pending) && Find(s.pending, s.next).None?
    ensures forall e :: e in s.pending ==> EntryOk(s, e)
  {
    assert forall e :: e in s.pending ==> EntryOk(s, e);
  }

  lemma WatchTracks(s: State, x: Id)
    requires Tracks(s, x) && Find(s.pending, s.next).None?
    ensures Tracks(StartWatch(s), x)
  {
    hide StartRequest;
    var s1 := s.(next := s.next + 1, nextWatchId := if s.nextWatchId >= LAST_WATCH_ID then 1 else s.nextWatchId + 1);
    StartRequestTracks(s1, Entry(s.next, LocationWatch, 0, s.nextWatchId, true, true, true), x);
  }

  lemma ReserveTracks(s: State, x: Id)
    requires Tracks(s, x) && Find(s.pending, s.next).None?
    ensures Tracks(ReserveWrite(s), x)
  {
    hide Tracks, Fail, Find;
    var b := Begun(s, WriteItems, 0, 0, true, false);
    NeutralTracks(s, b.0, x);
    FailForgets(b.0, b.1, false);
    NeutralTracks(b.0, Fail(b.0, b.1, false), x);
    AppendTracks(b.0, b.1, x);
    var s1 := b.0.(pending := b.0.pending + [b.1]);
    NeutralTracks(s1, s1.(writing := s1.writing + {b.1.id}), x);
  }

  lemma NeutralTracks(s: State, s': State, x: Id)
    requires Tracks(s, x) && s'.pending == s.pending && s'.notifications == s.notifications
    ensures Tracks(s', x)
  {
  }

  lemma DropTracks(s: State, id: Id, x: Id)
    requires Tracks(s, x) && !ShowAt(s.pending, id)
    ensures Tracks(Drop(s, id), x)
  {
    FindRemove(s.pending, id, x);
  }

  lemma ForgetTracks(s: State, id: Id, x: Id)
    requires Tracks(s, x)
    ensures Tracks(Forget(Drop(s, id), id), x)
  {
    FindRemove(s.pending, id, x);
  }

  lemma AcknowledgeTracks(s: State, id: Id, acknowledged: bool, x: Id)
    requires Tracks(s, x)
    ensures Tracks(s.(pending := Change(s.pending, id, acknowledged)), x)
  {
    FindChange(s.pending, id, acknowledged, x);
  }

  // An entry that fails is forgotten if it is a notification, and the notification that it closes is.
  lemma FailForgets(s: State, e: Entry, cancel: bool)
    requires e.op != Connect && e.op != NotificationClose
    ensures var s' := Fail(s, e, cancel);
            && s'.pending == s.pending
            && s'.notifications == if e.op == NotificationShow then s.notifications - {e.id} else s.notifications
  {
    hide Settle, Cancel;
    var s1 := Cancel(s, CancelOf(e.op), e.id);
    Neutral(s, CancelOf(e.op), e.id);
    Neutral(s1, CancelOf(e.op), e.id);
  }

  lemma Neutral(s: State, op: Op, id: Id)
    ensures Cancel(s, op, id).pending == s.pending && Cancel(s, op, id).notifications == s.notifications
    ensures Settle(s, id).pending == s.pending && Settle(s, id).notifications == s.notifications
    ensures s.disconnected ==> Sever(s) == s
    ensures !s.disconnected ==> Sever(s).frame.FinishDisconnect?
  {
  }

  lemma FailTracks(s: State, e: Entry, cancel: bool, x: Id)
    requires Tracks(s, x) && Find(s.pending, e.id) == Some(e) && !Fail(Drop(s, e.id), e, cancel).frame.FinishDisconnect?
    ensures Tracks(Fail(Drop(s, e.id), e, cancel), x)
  {
    hide Tracks, Fail, Drop, Forget, Find, Sever;
    var s1 := Drop(s, e.id);
    var s' := Fail(s1, e, cancel);
    if e.op == NotificationShow {
      FailForgets(s1, e, cancel);
      ForgetTracks(s, e.id, x);
      ForgetIs(s1, e.id);
      NeutralTracks(Forget(s1, e.id), s', x);
    } else {
      DropTracks(s, e.id, x);
      if e.op == Connect {
        ConnectFailure(s1, e, cancel);
        Neutral(s1, e.op, e.id);
      } else if e.op == NotificationClose {
        CloseFailure(s1, e, cancel);
        ForgetTracks(s1, e.target, x);
      } else {
        FailForgets(s1, e, cancel);
        NeutralTracks(s1, s', x);
      }
    }
  }

  lemma ForgetIs(s: State, id: Id)
    ensures Forget(s, id).pending == s.pending && Forget(s, id).notifications == s.notifications - {id}
  {
  }

  lemma ConnectFailure(s: State, e: Entry, cancel: bool)
    requires e.op == Connect
    ensures Fail(s, e, cancel) == Sever(s)
  {
  }

  lemma CloseFailure(s: State, e: Entry, cancel: bool)
    requires e.op == NotificationClose
    ensures Fail(s, e, cancel) == Forget(Drop(s, e.target), e.target)
  {
  }

  lemma HandleTracks(s: State, e: Entry, r: Response, d: Detail, x: Id)
    requires s.frame == Idle && Tracks(s, x) && Find(s.pending, e.id) == Some(e)
    requires !Handle(s, e, r, d).frame.FinishDisconnect?
    ensures Tracks(Handle(s, e, r, d), x)
  {
    hide Tracks, Drop, Forget, Find, Sever, Settle, Change;
    var s1 := Drop(s, e.id);
    Neutral(s1, e.op, e.id);
    AcknowledgeTracks(s, e.id, true, x);
    NeutralTracks(Acknowledge(s, e.id), Acknowledge(s, e.id).(frame := FinishNotification(e.id)), x);
    if e.op == NotificationShow {
      ForgetTracks(s, e.id, x);
    } else {
      DropTracks(s, e.id, x);
      NeutralTracks(s1, Settle(s1, e.id), x);
      match e.op
      case Connect => if d.permission.Some? { NeutralTracks(s1, s1.(permission := d.permission.value), x); }
      case NotificationPermission => PermissionTracks(s, e, r, d, x);
      case NotificationClose => ForgetTracks(s1, e.target, x);
      case _ =>
    }
  }

  lemma PermissionTracks(s: State, e: Entry, r: Response, d: Detail, x: Id)
    requires Tracks(s, x) && !ShowAt(s.pending, e.id)
    ensures Tracks(HandlePermission(s, e, r, d), x)
  {
    hide Tracks, Drop;
    var s1 := Drop(s, e.id);
    DropTracks(s, e.id, x);
    NeutralTracks(s1, Settle(s1, e.id), x);
    PermittedTracks(s, Blocked, e.id, x);
    if d.permission.Some? { PermittedTracks(s, d.permission.value, e.id, x); }
  }

  lemma PermittedTracks(s: State, p: Permission, id: Id, x: Id)
    requires Tracks(s, x) && !ShowAt(s.pending, id)
    ensures Tracks(Settle(Drop(s.(permission := p), id), id), x)
  {
    hide Tracks;
    DropTracks(s, id, x);
    NeutralTracks(Drop(s, id), Settle(Drop(s.(permission := p), id), id), x);
  }

  lemma MaterializeTracks(s: State, id: Id, fits: bool, cloneable: bool, x: Id)
    requires Valid(s) && s.frame == Idle && Tracks(s, x)
    ensures Tracks(Materialize(s, id, fits, cloneable), x)
  {
    hide Tracks, Drop, Fail, Settle, Change, Consistent;
    var s1 := s.(writing := s.writing - {id});
    NeutralTracks(s, s1, x);
    if id in s.writing && Find(s.pending, id).Some? {
      var e := Find(s.pending, id).value;
      PendingFacts(s);
      DropTracks(s1, id, x);
      var s2 := Drop(s1, id);
      Neutral(s2, e.op, id);
      NeutralTracks(s2, Settle(s2, id), x);
      FailForgets(s2, e, false);
      NeutralTracks(s2, Fail(s2, e, false), x);
      AcknowledgeTracks(s1, id, false, x);
      var s3 := s1.(pending := Change(s1.pending, id, false));
      NeutralTracks(s3, Post(s3, WriteItems, id, 0), x);
    }
  }

  lemma ExpireTracks(s: State, id: Id, x: Id)
    requires s.frame == Idle && Tracks(s, x) && !Expire(s, id).frame.FinishDisconnect?
    ensures Tracks(Expire(s, id), x)
  {
    hide Tracks, Drop, Fail;
    if Find(s.pending, id).Some? && Find(s.pending, id).value.timer {
      FailTracks(s, Find(s.pending, id).value, true, x);
    }
  }

  lemma ReturnTracks(s: State, x: Id)
    requires Valid(s) && (!s.frame.FinishDisconnect? ==> Tracks(s, x)) && !Return(s).frame.FinishDisconnect?
    ensures Tracks(Return(s), x)
  {
    hide Drop, Fail;
    if s.frame.FinishNotification? { ForgetTracks(s.(frame := Idle), s.frame.id, x); }
    if s.frame.FinishDisconnect? { RestEnds(s); }
  }

  lemma RestEnds(s: State)
    requires Valid(s) && s.frame.FinishDisconnect?
    ensures s.disconnected && s.pending == []
    ensures s.frame.rest != [] ==> Return(s).frame.FinishDisconnect?
  {
    hide Consistent, Fail;
    DisconnectedEmpty(s);
    if s.frame.rest != [] {
      var s1 := s.(frame := FinishDisconnect(s.frame.rest[1..]));
      FailStaysOff(s1, s.frame.rest[0]);
    }
  }

  lemma DisconnectedEmpty(s: State)
    requires Valid(s)
    ensures (s.frame.FinishDisconnect? ==> s.disconnected) && (s.disconnected ==> s.pending == [])
  {
  }

  lemma FailStaysOff(s: State, e: Entry)
    requires s.disconnected
    ensures Fail(s, e, true).frame == s.frame
  {
  }

  lemma ShowsTracks(s: State, x: Id)
    requires Valid(s) && s.frame == Idle && Tracks(s, x) && !PageShow(s).frame.FinishDisconnect?
    ensures Tracks(PageShow(s), x)
  {
    hide Consistent;
    if s.hidden {
      var c := Entry(s.next + 1, Connect, 0, 0, false, true, true);
      FindAppend([], c, x);
      assert [] + [c] == [c];
    }
  }

  lemma HidesTracks(s: State, x: Id)
    requires Valid(s) && s.frame == Idle && Tracks(s, x) && !PageHide(s).frame.FinishDisconnect?
    ensures Tracks(PageHide(s), x)
  {
  }

  lemma StepTracks(s: State, a: Action, x: Id)
    requires Valid(s) && Enabled(s, a) && (!s.frame.FinishDisconnect? ==> Tracks(s, x))
    ensures !Next(s, a).frame.FinishDisconnect? ==> Tracks(Next(s, a), x)
  {
    hide Consistent, Tracks, Invoke, Return, Handle, Expire, Materialize, PageShow, PageHide, Find;
    if !Next(s, a).frame.FinishDisconnect? {
      match a
      case Call(call) => FrameStays(s, call); CallTracks(s, call, x);
      case Returns => ReturnTracks(s, x);
      case Hears(r, d) =>
        if r.client == s.clientId && Find(s.pending, r.id).Some? {
          HandleTracks(s, Find(s.pending, r.id).value, r, d, x);
        }
      case Expires(id) => ExpireTracks(s, id, x);
      case Hides => HidesTracks(s, x);
      case Shows => ShowsTracks(s, x);
      case Materializes(id, fits, cloneable) => MaterializeTracks(s, id, fits, cloneable, x);
      case Mutes(gone) => NeutralTracks(s, s.(mute := gone), x);
    }
  }

  lemma FrameStays(s: State, call: Call)
    requires Valid(s)
    ensures s.frame.FinishDisconnect? ==> Invoke(s, call).frame.FinishDisconnect?
  {
  }

  lemma {:induction false} TracksRun(before: State, actions: seq<Action>, x: Id)
    ensures var s := After(Boot(before), actions); !s.frame.FinishDisconnect? ==> Tracks(s, x)
    decreases |actions|
  {
    hide Tracks, Boot, Next, Valid;
    if actions == [] {
      BootTracks(before, x);
    } else {
      var rest, a := actions[..|actions| - 1], actions[|actions| - 1];
      assert actions == rest + [a];
      TracksRun(before, rest, x);
      Extends(Boot(before), rest, a);
      BootKeeps(before);
      AfterKeepsValid(Boot(before), rest);
      if Enabled(After(Boot(before), rest), a) { StepTracks(After(Boot(before), rest), a, x); }
    }
  }

  lemma BootTracks(before: State, x: Id)
    ensures !Boot(before).frame.FinishDisconnect? ==> Tracks(Boot(before), x)
  {
    var c := Entry(before.next + 1, Connect, 0, 0, false, true, true);
    FindAppend([], c, x);
    assert [] + [c] == [c];
  }

  /**
   In every run, except while a disconnect tells its requests, the shim keeps a notification for its events exactly
   while the request that showed it is retained.
   */
  lemma NotificationsExactly(before: State, actions: seq<Action>, x: Id)
    requires !After(Boot(before), actions).frame.FinishDisconnect?
    ensures var s := After(Boot(before), actions);
            x in s.notifications <==> Find(s.pending, x).Some? && Find(s.pending, x).value.op == NotificationShow
  {
    hide After, Boot;
    TracksRun(before, actions, x);
  }

  /********** Acknowledgements **********/

  // An answer to a retained watch or notification that does not end it.
  predicate Goes(e: Entry, r: Response, d: Detail) {
    && (r.about.Some? ==> r.about.value == e.id)
    && (e.op == LocationWatch ==> r.status != Denied && d.fit)
  }

  /**
   An answer to a watch or a notification that does not end it acknowledges it, so that it no longer awaits consent and
   has no deadline, if and only if it names no other and, for a watch, is well-formed; otherwise it changes nothing.
   */
  lemma AcknowledgesExactly(s: State, e: Entry, r: Response, d: Detail)
    requires Valid(s) && s.frame == Idle && Find(s.pending, e.id) == Some(e) && r.id == e.id && r.client == s.clientId
    requires (e.op == LocationWatch || e.op == NotificationShow) && !EndsBy(e, r, d)
    ensures var s' := Receive(s, r, d);
            if Goes(e, r, d)
            then s' == s.(pending := s'.pending) && Find(s'.pending, e.id) == Some(Changed(e, e.id, true))
            else s' == s
    ensures !Changed(e, e.id, true).awaiting && !Changed(e, e.id, true).timer
  {
    hide Consistent;
    FindChange(s.pending, e.id, true, e.id);
  }
}
