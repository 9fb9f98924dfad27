/**
 What becomes of a posted request: its entry is retained, it was answered, or the parent was told to forget it.
 */
module ShimCancels {
  import opened Wrappers
  import opened Protocol
  import opened ShimSpec
  import opened ShimInvariant
  import opened ShimTheorems

  /********** One request, seen from outside **********/

  predicate NamesIt(m: Message, x: Id) { m.Request? && IsCancel(m.op) && m.target == x }

  // Nothing that was posted in between cancels x.
  ghost predicate Quiet(out: seq<Message>, out': seq<Message>, x: Id) {
    out <= out' && forall i :: |out| <= i < |out'| ==> !NamesIt(out'[i], x)
  }

  predicate Alike(a: Option<Entry>, b: Option<Entry>) {
    && (a.Some? <==> b.Some?)
    && (a.Some? ==> a.value.op == b.value.op && a.value.target == b.value.target && a.value.posted == b.value.posted)
  }

  // A part of a step that leaves x retained as it was, or not retained, and does not cancel it.
  ghost predicate Spares(s: State, s': State, x: Id) {
    && Quiet(s.out, s'.out, x) && Alike(Find(Held(s), x), Find(Held(s'), x))
    && (Find(Held(s), x).Some? ==> s'.clientId == s.clientId)
  }

  lemma SparesTrans(s0: State, s1: State, s2: State, x: Id)
    requires Spares(s0, s1, x) && Spares(s1, s2, x)
    ensures Spares(s0, s2, x)
  {
    forall i | |s0.out| <= i < |s2.out| ensures !NamesIt(s2.out[i], x) {
      if i < |s1.out| { assert s2.out[i] == s1.out[i]; }
    }
  }

  lemma {:induction false} FindRemove(p: seq<Entry>, id: Id, x: Id)
    ensures Find(Remove(p, id), x) == if x == id then None else Find(p, x)
  {
    if p != [] {
      FindRemove(p[1..], id, x);
      if p[0].id != id { assert ([p[0]] + Remove(p[1..], id))[1..] == Remove(p[1..], id); }
    }
  }

  lemma {:induction false} FindChange(p: seq<Entry>, id: Id, acknowledged: bool, x: Id)
    ensures var e, e' := Find(p, x), Find(Change(p, id, acknowledged), x);
            && (e.Some? <==> e'.Some?) && (e.Some? ==> e'.value == Changed(e.value, id, acknowledged))
  {
    if p != [] {
      FindChange(p[1..], id, acknowledged, x);
      var q := Change(p, id, acknowledged);
      assert q[1..] == Change(p[1..], id, acknowledged) && q[0] == Changed(p[0], id, acknowledged);
    }
  }

  lemma {:induction false} FindAppend(p: seq<Entry>, e: Entry, x: Id)
    ensures Find(p + [e], x) == if Find(p, x).Some? then Find(p, x) else if e.id == x then Some(e) else None
  {
    if p == [] {
      assert p + [e] == [e] && [e][1..] == [];
    } else {
      assert (p + [e])[1..] == p[1..] + [e];
      FindAppend(p[1..], e, x);
    }
  }

  /********** Parts of steps **********/

  lemma CancelSpares(s: State, op: Op, target: Id, x: Id)
    requires target != x
    ensures Spares(s, Cancel(s, op, target), x)
  {
    assert Held(Cancel(s, op, target)) == Held(s);
  }

  lemma DropSpares(s: State, id: Id, x: Id)
    requires id != x || s.frame.FinishDisconnect?
    ensures Spares(s, Drop(s, id), x)
  {
    FindRemove(s.pending, id, x);
  }

  // What is neither retained nor posted does not matter.
  lemma AsideSpares(s: State, s': State, x: Id)
    requires s'.out == s.out && Held(s') == Held(s) && s'.clientId == s.clientId
    ensures Spares(s, s', x)
  {
  }

  lemma SeverSpares(s: State, x: Id)
    requires s.frame == Idle || s.disconnected
    ensures Spares(s, Sever(s), x)
  {
    AsideSpares(s, Sever(s), x);
  }

  lemma FailSpares(s: State, e: Entry, cancel: bool, x: Id)
    requires e.id != x && (e.op == Connect ==> s.frame == Idle || s.disconnected)
    requires e.op == NotificationClose ==> e.target != x || s.frame.FinishDisconnect?
    ensures Spares(s, Fail(s, e, cancel), x)
  {
    hide Cancel, Drop, Spares, Quiet, Alike, Sever;
    AsideSpares(s, s, x);
    if e.op == Connect { SeverSpares(s, x); }
    else if e.op == NotificationClose {
      DropSpares(s, e.target, x);
      ForgetsSpares(s, Drop(s, e.target), e.target, x);
    } else {
      CancelSpares(s, CancelOf(e.op), e.id, x);
      SettlesSpares(s, s, e.id, x);
      ForgetsSpares(s, s, e.id, x);
      SettlesSpares(s, Cancel(s, CancelOf(e.op), e.id), e.id, x);
      ForgetsSpares(s, Cancel(s, CancelOf(e.op), e.id), e.id, x);
    }
  }

  lemma SettlesSpares(s: State, s1: State, id: Id, x: Id)
    requires Spares(s, s1, x)
    ensures Spares(s, Settle(s1, id), x)
  {
    assert Held(Settle(s1, id)) == Held(s1);
  }

  lemma ForgetsSpares(s: State, s1: State, id: Id, x: Id)
    requires Spares(s, s1, x)
    ensures Spares(s, Forget(s1, id), x)
  {
    assert Held(Forget(s1, id)) == Held(s1);
  }

  // A request with another id that cancels another request.
  lemma StartRequestSpares(s: State, e: Entry, x: Id)
    requires e.id != x && (IsCancel(e.op) ==> e.target != x) && (e.op == Connect ==> s.frame == Idle)
    requires s.frame.FinishDisconnect? ==> s.disconnected
    ensures Spares(s, StartRequest(s, e), x)
  {
    if s.disconnected || Full(s, e.awaiting) || s.mute { FailSpares(s, e, false, x); }
    else { FindAppend(s.pending, e, x); }
  }

  lemma StartSpares(s: State, op: Op, target: Id, watchId: nat, x: Id)
    requires x < s.next && (IsCancel(op) ==> target != x) && (op == Connect ==> s.frame == Idle)
    requires s.frame.FinishDisconnect? ==> s.disconnected
    ensures Spares(s, Start(s, op, target, watchId), x)
  {
    hide StartRequest, Spares;
    var b := Begun(s, op, target, watchId, CapabilityOf(op).Some?, true);
    AsideSpares(s, b.0, x);
    StartRequestSpares(b.0, b.1, x);
    SparesTrans(s, b.0, StartRequest(b.0, b.1), x);
  }

  lemma AcknowledgeSpares(s: State, id: Id, x: Id)
    requires s.frame == Idle
    ensures Spares(s, Acknowledge(s, id), x)
  {
    FindChange(s.pending, id, true, x);
  }

  lemma HandleShowSpares(s: State, e: Entry, r: Response, x: Id)
    requires s.frame == Idle && e.id != x
    ensures Spares(s, HandleShow(s, e, r), x)
  {
    DropSpares(s, e.id, x);
    AcknowledgeSpares(s, e.id, x);
    ForgetsSpares(s, Drop(s, e.id), e.id, x);
    AsideSpares(s, s, x);
  }

  lemma HandleCloseSpares(s: State, e: Entry, r: Response, x: Id)
    requires s.frame == Idle && e.id != x && e.target != x
    ensures Spares(s, HandleClose(s, e, r), x)
  {
    hide Spares;
    var s1 := Drop(s, e.id);
    AsideSpares(s, s, x);
    DropSpares(s, e.id, x);
    DropSpares(s1, e.target, x);
    ForgetsSpares(s1, Drop(s1, e.target), e.target, x);
    SparesTrans(s, s1, Forget(Drop(s1, e.target), e.target), x);
  }

  lemma HandleConnectSpares(s: State, e: Entry, r: Response, d: Detail, x: Id)
    requires s.frame == Idle && e.id != x
    ensures Spares(s, HandleConnect(s, e, r, d), x)
  {
    hide Spares;
    var s1 := Drop(s, e.id);
    DropSpares(s, e.id, x);
    SeverSpares(s1, x);
    SparesTrans(s, s1, Sever(s1), x);
    if d.permission.Some? { PermitSpares(s, s1, d.permission.value, x); }
  }

  lemma PermitSpares(s: State, s1: State, permission: Permission, x: Id)
    requires Spares(s, s1, x)
    ensures Spares(s, s1.(permission := permission), x)
  {
    assert Held(s1.(permission := permission)) == Held(s1);
  }

  lemma HandlePermissionSpares(s: State, e: Entry, r: Response, d: Detail, x: Id)
    requires s.frame == Idle && e.id != x
    ensures Spares(s, HandlePermission(s, e, r, d), x)
  {
    hide Spares, Drop;
    AsideSpares(s, s, x);
    PermitSpares(s, s, Blocked, x);
    SettledSpares(s, s.(permission := Blocked), e.id, x);
    SettledSpares(s, s, e.id, x);
    if d.permission.Some? {
      PermitSpares(s, s, d.permission.value, x);
      SettledSpares(s, s.(permission := d.permission.value), e.id, x);
    }
  }

  lemma SettledSpares(s: State, s1: State, id: Id, x: Id)
    requires Spares(s, s1, x) && id != x
    ensures Spares(s, Settle(Drop(s1, id), id), x)
  {
    hide Spares;
    DropSpares(s1, id, x);
    SparesTrans(s, s1, Drop(s1, id), x);
    SettlesSpares(s, Drop(s1, id), id, x);
  }

  lemma HandleSpares(s: State, e: Entry, r: Response, d: Detail, x: Id)
    requires s.frame == Idle && e.id != x && (e.op == NotificationClose ==> e.target != x)
    ensures Spares(s, Handle(s, e, r, d), x)
  {
    hide Spares, Drop, Acknowledge, HandleShow, HandleClose, HandleConnect, HandlePermission;
    AsideSpares(s, s, x);
    DropSpares(s, e.id, x);
    SettlesSpares(s, Drop(s, e.id), e.id, x);
    AcknowledgeSpares(s, e.id, x);
    match e.op
    case Connect => HandleConnectSpares(s, e, r, d, x);
    case NotificationPermission => HandlePermissionSpares(s, e, r, d, x);
    case NotificationShow => HandleShowSpares(s, e, r, x);
    case NotificationClose => HandleCloseSpares(s, e, r, x);
    case _ =>
  }

  /********** Steps **********/

  function About(e: Option<Entry>): set<Id> {
    match e
    case None => {}
    case Some(e) => if e.op == NotificationClose then {e.id, e.target} else {e.id}
  }

  // The requests that a step may end.
  function Subject(s: State, a: Action): set<Id> {
    match a
    case Call(call) =>
      (match call
       case ClearWatch(watchId) => About(FindWatch(s.pending, watchId))
       case CloseNotification(id) => {id}
       case _ => {})
    case Returns =>
      (match s.frame
       case Idle => {}
       case FinishNotification(id) => {id}
       case FinishDisconnect(rest) => if rest == [] then {} else {rest[0].id})
    case Hears(r, d) => About(Find(s.pending, r.id))
    case Expires(id) => About(Find(s.pending, id))
    case Materializes(id, fits, cloneable) => {id}
    case _ => {}
  }

  lemma CallElsewhere(s: State, call: Call, x: Id)
    requires Valid(s) && x < s.next && x !in Subject(s, Action.Call(call))
    ensures Spares(s, Invoke(s, call), x)
  {
    hide Spares, Start, StartRequest;
    AsideSpares(s, s, x);
    match call
    case GetCurrentPosition => StartSpares(s, LocationGet, 0, 0, x);
    case WatchPosition => WatchElsewhere(s, x);
    case ClearWatch(watchId) =>
      if FindWatch(s.pending, watchId).Some? {
        var id := FindWatch(s.pending, watchId).value.id;
        DropSpares(s, id, x);
        StartSpares(Drop(s, id), LocationClear, id, 0, x);
        SparesTrans(s, Drop(s, id), Start(Drop(s, id), LocationClear, id, 0), x);
      }
    case RequestPermission => StartSpares(s, NotificationPermission, 0, 0, x);
    case NewNotification => BuildElsewhere(s, x);
    case CloseNotification(id) =>
      var s1 := s.(closed := s.closed + {id});
      AsideSpares(s, s1, x);
      StartSpares(s1, NotificationClose, id, 0, x);
      SparesTrans(s, s1, Start(s1, NotificationClose, id, 0), x);
    case CallReadText => StartSpares(s, ReadText, 0, 0, x);
    case CallWriteText => StartSpares(s, WriteText, 0, 0, x);
    case CallReadItems => StartSpares(s, ReadItems, 0, 0, x);
    case CallWriteItems => ReserveElsewhere(s, x);
  }

  lemma WatchElsewhere(s: State, x: Id)
    requires Valid(s) && x < s.next
    ensures Spares(s, StartWatch(s), x)
  {
    hide Spares, StartRequest, Accounted, LimitsOk, EntryOk, NamesOk;
    var s1 := s.(next := s.next + 1, nextWatchId := if s.nextWatchId >= LAST_WATCH_ID then 1 else s.nextWatchId + 1);
    var e := Entry(s.next, LocationWatch, 0, s.nextWatchId, true, true, true);
    AsideSpares(s, s1, x);
    StartRequestSpares(s1, e, x);
    SparesTrans(s, s1, StartRequest(s1, e), x);
  }

  lemma BuildElsewhere(s: State, x: Id)
    requires Valid(s) && x < s.next
    ensures Spares(s, BuildNotification(s), x)
  {
    hide Spares, Start;
    var s1 := s.(notifications := s.notifications + {s.next}, built := s.built + {s.next});
    AsideSpares(s, s, x);
    AsideSpares(s, s1, x);
    StartSpares(s1, NotificationShow, 0, 0, x);
    SparesTrans(s, s1, Start(s1, NotificationShow, 0, 0), x);
  }

  lemma ReserveElsewhere(s: State, x: Id)
    requires Valid(s) && x < s.next
    ensures Spares(s, ReserveWrite(s), x)
  {
    hide Spares;
    var b := Begun(s, WriteItems, 0, 0, true, false);
    AsideSpares(s, b.0, x);
    FailSpares(b.0, b.1, false, x);
    SparesTrans(s, b.0, Fail(b.0, b.1, false), x);
    if !(b.0.disconnected || Full(b.0, true)) { ReservedSpares(s, b.0, b.1, x); }
  }

  lemma ReservedSpares(s: State, s1: State, e: Entry, x: Id)
    requires Spares(s, s1, x) && e.id != x && !s1.frame.FinishDisconnect?
    ensures Spares(s, s1.(pending := s1.pending + [e], writing := s1.writing + {e.id}), x)
  {
    FindAppend(s1.pending, e, x);
  }

  lemma {:induction false} FindTail(p: seq<Entry>, x: Id)
    requires p != [] && p[0].id != x
    ensures Find(p, x) == Find(p[1..], x)
  {
  }

  lemma ReturnElsewhere(s: State, x: Id)
    requires Valid(s) && s.frame != Idle && x !in Subject(s, Returns)
    ensures Spares(s, Return(s), x)
  {
    hide Spares, Fail;
    match s.frame
    case FinishNotification(id) =>
      var s1 := s.(frame := Idle);
      AsideSpares(s, s1, x);
      DropSpares(s1, id, x);
      SparesTrans(s, s1, Drop(s1, id), x);
      ForgetsSpares(s, Drop(s1, id), id, x);
    case FinishDisconnect(rest) =>
      if rest == [] {
        EndsSpares(s, x);
      } else {
        var s1 := s.(frame := FinishDisconnect(rest[1..]));
        TailSpares(s, x);
        FailSpares(s1, rest[0], true, x);
        SparesTrans(s, s1, Fail(s1, rest[0], true), x);
      }
  }

  lemma EndsSpares(s: State, x: Id)
    requires Valid(s) && s.frame == FinishDisconnect([])
    ensures Spares(s, s.(frame := Idle, notifications := {}), x)
  {
    AsideSpares(s, s.(frame := Idle, notifications := {}), x);
  }

  lemma TailSpares(s: State, x: Id)
    requires s.frame.FinishDisconnect? && s.frame.rest != [] && s.frame.rest[0].id != x
    ensures Spares(s, s.(frame := FinishDisconnect(s.frame.rest[1..])), x)
  {
    FindTail(s.frame.rest, x);
  }

  lemma ExpireElsewhere(s: State, id: Id, x: Id)
    requires Valid(s) && s.frame == Idle && x !in Subject(s, Expires(id))
    ensures Spares(s, Expire(s, id), x)
  {
    hide Spares, Fail;
    AsideSpares(s, s, x);
    if Find(s.pending, id).Some? {
      var e := Find(s.pending, id).value;
      DropSpares(s, id, x);
      FailSpares(Drop(s, id), e, true, x);
      SparesTrans(s, Drop(s, id), Fail(Drop(s, id), e, true), x);
    }
  }

  lemma MaterializeElsewhere(s: State, id: Id, fits: bool, cloneable: bool, x: Id)
    requires Valid(s) && s.frame == Idle && x != id
    ensures Spares(s, Materialize(s, id, fits, cloneable), x)
  {
    hide Spares, Fail;
    var s1 := s.(writing := s.writing - {id});
    AsideSpares(s, s, x);
    AsideSpares(s, s1, x);
    if id in s.writing && Find(s.pending, id).Some? {
      var e := Find(s.pending, id).value;
      DropSpares(s1, id, x);
      SparesTrans(s, s1, Drop(s1, id), x);
      SettlesSpares(s, Drop(s1, id), id, x);
      WriteFails(s1, e, x);
      SparesTrans(s, s1, Fail(Drop(s1, id), e, false), x);
      WritePosts(s1, id, x);
      SparesTrans(s, s1, Post(s1.(pending := Change(s1.pending, id, false)), WriteItems, id, 0), x);
    }
  }

  lemma WriteFails(s: State, e: Entry, x: Id)
    requires Valid(s) && s.frame == Idle && e.id != x && Find(s.pending, e.id) == Some(e)
    ensures e.op == WriteItems ==> Spares(s, Fail(Drop(s, e.id), e, false), x)
  {
    hide Spares, Fail;
    if e.op == WriteItems {
      DropSpares(s, e.id, x);
      FailSpares(Drop(s, e.id), e, false, x);
      SparesTrans(s, Drop(s, e.id), Fail(Drop(s, e.id), e, false), x);
    }
  }

  lemma WritePosts(s: State, id: Id, x: Id)
    requires s.frame == Idle && id != x
    ensures Spares(s, Post(s.(pending := Change(s.pending, id, false)), WriteItems, id, 0), x)
  {
    FindChange(s.pending, id, false, x);
  }

  lemma ShowElsewhere(s: State, x: Id)
    requires Valid(s) && s.frame == Idle && x < s.next
    ensures Spares(s, PageShow(s), x)
  {
    hide Start;
    if s.hidden {
      RestoredIsValid(s);
      StartSpares(Restored(s), Connect, 0, 0, x);
    }
  }

  /** A step spares every request that it is not about. */
  lemma Elsewhere(s: State, a: Action, x: Id)
    requires Valid(s) && Enabled(s, a) && x < s.next && x !in Subject(s, a)
    ensures Spares(s, Next(s, a), x)
  {
    hide Spares, Valid, Invoke, Return, Expire, Materialize, PageShow, Handle;
    AsideSpares(s, s, x);
    match a
    case Call(call) => CallElsewhere(s, call, x);
    case Returns => ReturnElsewhere(s, x);
    case Hears(r, d) =>
      if Find(s.pending, r.id).Some? { HandleSpares(s, Find(s.pending, r.id).value, r, d, x); }
    case Expires(id) => ExpireElsewhere(s, id, x);
    case Hides => HideElsewhere(s, x);
    case Shows => ShowElsewhere(s, x);
    case Materializes(id, fits, cloneable) => MaterializeElsewhere(s, id, fits, cloneable, x);
    case Mutes(gone) => AsideSpares(s, s.(mute := gone), x);
  }

  lemma HideElsewhere(s: State, x: Id)
    requires Valid(s) && s.frame == Idle
    ensures Spares(s, PageHide(s), x)
  {
    assert Held(PageHide(s)) == Held(s);
  }

  /********** How a request ends **********/

  // An answer that ends the request of entry e.
  predicate EndsBy(e: Entry, r: Response, d: Detail) {
    if e.op == LocationWatch then
      (r.about.Some? ==> r.about.value == e.id) && (r.status == Denied || (d.fit && r.status == Failed && d.terminal))
    else if e.op == NotificationShow then
      && (r.about.Some? ==> r.about.value == e.id)
      && (r.status != Ok || r.event == Closed || r.event == Errored)
    else WellFormed(e, r, d)
  }

  // The step hears the answer that ends request x.
  predicate Answered(s: State, a: Action, x: Id) {
    && a.Hears? && s.frame == Idle && a.response.client == s.clientId && a.response.id == x
    && Find(s.pending, x).Some? && EndsBy(Find(s.pending, x).value, a.response, a.detail)
  }

  // Message m tells the parent to forget request x.
  predicate Forgets(m: Message, client: Client, op: Op, x: Id) {
    m.Request? && m.client == client && m.op == CancelOf(op) && m.target == x
  }

  ghost predicate Told(s: State, s': State, op: Op, x: Id) {
    exists i :: |s.out| <= i < |s'.out| && Forgets(s'.out[i], s.clientId, op, x)
  }

  predicate Waited(e: Entry) { CapabilityOf(e.op).Some? && e.op != NotificationShow }

  // What a step makes of a retained request that is no notification: it stays, and the parent is told nothing; or it
  // goes, and the parent is told exactly if it had heard of it, the answer did not end it, and posting works.
  ghost predicate Ends(s: State, a: Action, s': State, e: Entry) {
    && s.out <= s'.out
    && var after := Find(Held(s'), e.id);
       if after.Some? then
         && after.value.op == e.op && after.value.target == e.target && (e.posted ==> after.value.posted)
         && s'.clientId == s.clientId
         && Quiet(s.out, s'.out, e.id) && !Answered(s, a, e.id)
       else Told(s, s', e.op, e.id) <==> e.posted && !s.mute && !Answered(s, a, e.id)
  }

  lemma SparesEnds(s: State, a: Action, s': State, e: Entry)
    requires Spares(s, s', e.id) && Find(Held(s), e.id) == Some(e) && !Answered(s, a, e.id)
    ensures Ends(s, a, s', e)
  {
  }

  // One message was posted, or none.
  lemma OneTold(s: State, s': State, op: Op, x: Id, tell: bool, id: Id)
    requires s'.out == if tell then s.out + [Request(s.clientId, id, CancelOf(op), x)] else s.out
    ensures Told(s, s', op, x) <==> tell
  {
    if tell { assert Forgets(s'.out[|s.out|], s.clientId, op, x); }
  }

  // An entry that fails tells the parent, if the parent knows of it and posting works.
  lemma FailTells(s: State, e: Entry)
    requires Waited(e) && (OneShot(e.op) ==> e.id !in s.settled)
    ensures var s' := Fail(s, e, true);
            && Held(s') == Held(s)
            && s'.out == if (e.posted || !IsCopy(e.op)) && !s.mute
                         then s.out + [Request(s.clientId, s.next, CancelOf(e.op), e.id)] else s.out
  {
  }

  // Facts about a retained request that is no notification.
  lemma WaitedFacts(s: State, e: Entry)
    requires Valid(s) && Find(Held(s), e.id) == Some(e) && Waited(e)
    ensures e.id < s.next && e.id !in s.built && (e.posted || e.op == WriteItems)
    ensures OneShot(e.op) ==> e.id !in s.settled
    ensures s.frame.FinishDisconnect? || (e in s.pending && !s.disconnected)
    ensures e.timer || e.op == LocationWatch
    ensures e.op == WriteItems ==> e.target == 0
    ensures e.id in s.writing ==> !e.posted
  {
    assert EntryOk(s, e);
    if OneShot(e.op) { assert e.id in OneShots(Held(s)); }
  }

  lemma SameFound(p: seq<Entry>, e: Entry, x: Entry)
    requires Distinct(p) && Find(p, x.id) == Some(x) && e in p && e.id == x.id
    ensures e == x
  {
    SameEntry(p, e, x);
  }

  lemma WatchStands(s: State, e: Entry)
    requires Valid(s) && e in s.pending && e.op == LocationWatch
    requires s.frame.FinishDisconnect? ==> s.pending == []
    ensures !s.frame.FinishDisconnect? && !s.disconnected && |s.pending| <= MAX_OPERATIONS
    ensures e.posted && e.id < s.next
  {
    assert EntryOk(s, e);
  }

  lemma ClearTells(s: State, e: Entry)
    requires e in s.pending && e.id < s.next && |s.pending| <= MAX_OPERATIONS
    requires !s.frame.FinishDisconnect? && !s.disconnected
    ensures var s' := Start(Drop(s, e.id), LocationClear, e.id, 0);
            && Find(Held(s'), e.id).None?
            && s'.out == if s.mute then s.out else s.out + [Request(s.clientId, s.next, LocationClear, e.id)]
  {
    RemoveFacts(s.pending, e.id);
    FindRemove(s.pending, e.id, e.id);
    FindAppend(Remove(s.pending, e.id), Entry(s.next, LocationClear, e.id, 0, false, true, true), e.id);
  }

  lemma ClearEnds(s: State, watchId: nat, e: Entry)
    requires Valid(s) && FindWatch(s.pending, watchId) == Some(e) && Find(Held(s), e.id) == Some(e) && Waited(e)
    requires s.frame.FinishDisconnect? ==> s.pending == []
    ensures Ends(s, Action.Call(ClearWatch(watchId)), StopWatch(s, watchId), e)
  {
    hide Consistent, Start, Told;
    WatchStands(s, e);
    ClearTells(s, e);
    OneTold(s, StopWatch(s, watchId), e.op, e.id, !s.mute, s.next);
  }

  lemma CallEnds(s: State, call: Call, e: Entry)
    requires Valid(s) && Find(Held(s), e.id) == Some(e) && Waited(e) && e.id in Subject(s, Action.Call(call))
    ensures Ends(s, Action.Call(call), Invoke(s, call), e)
  {
    hide Consistent, Ends, StopWatch;
    WaitedFacts(s, e);
    if call.ClearWatch? {
      WatchAlone(s, call.watchId, e);
      ClearEnds(s, call.watchId, e);
    } else {
      AsideSpares(s, s, e.id);
      SparesEnds(s, Action.Call(call), s, e);
    }
  }

  lemma WatchAlone(s: State, watchId: nat, e: Entry)
    requires Valid(s) && Find(Held(s), e.id) == Some(e) && Waited(e) && e.id in About(FindWatch(s.pending, watchId))
    ensures FindWatch(s.pending, watchId) == Some(e) && (s.frame.FinishDisconnect? ==> s.pending == [])
  {
    var w := FindWatch(s.pending, watchId).value;
    SameFound(s.pending, w, e);
  }

  lemma ReturnEnds(s: State, e: Entry)
    requires Valid(s) && s.frame != Idle && Find(Held(s), e.id) == Some(e) && Waited(e) && e.id in Subject(s, Returns)
    ensures Ends(s, Returns, Return(s), e)
  {
    WaitedFacts(s, e);
    var rest := s.frame.rest;
    TailFacts(rest);
    var s1 := s.(frame := FinishDisconnect(rest[1..]));
    FailTells(s1, e);
    NotInTail(rest, e);
    OneTold(s, Return(s), e.op, e.id, e.posted && !s.mute, s.next);
  }

  lemma NotInTail(p: seq<Entry>, e: Entry)
    requires Distinct(p) && p != [] && p[0] == e
    ensures Find(p[1..], e.id).None?
  {
    forall i: nat | i < |p[1..]| ensures p[1..][i].id != e.id { assert p[i + 1] == p[1..][i]; }
  }

  lemma ExpireEnds(s: State, e: Entry)
    requires Valid(s) && s.frame == Idle && Find(s.pending, e.id) == Some(e) && Waited(e)
    ensures Ends(s, Expires(e.id), Expire(s, e.id), e)
  {
    WaitedFacts(s, e);
    if e.timer {
      FindRemove(s.pending, e.id, e.id);
      FailTells(Drop(s, e.id), e);
      OneTold(s, Expire(s, e.id), e.op, e.id, e.posted && !s.mute, s.next);
    } else {
      AsideSpares(s, s, e.id);
    }
  }

  lemma MaterializeEnds(s: State, fits: bool, cloneable: bool, e: Entry)
    requires Valid(s) && s.frame == Idle && Find(s.pending, e.id) == Some(e) && Waited(e)
    ensures Ends(s, Materializes(e.id, fits, cloneable), Materialize(s, e.id, fits, cloneable), e)
  {
    hide Consistent;
    WaitedFacts(s, e);
    FindRemove(s.pending, e.id, e.id);
    FindChange(s.pending, e.id, false, e.id);
    if e.id in s.writing {
      var s1 := s.(writing := s.writing - {e.id});
      OneTold(s, Drop(s1, e.id), e.op, e.id, false, 0);
    } else {
      AsideSpares(s, s, e.id);
    }
  }

  lemma HearEnds(s: State, r: Response, d: Detail, e: Entry)
    requires Valid(s) && s.frame == Idle && Find(s.pending, e.id) == Some(e) && Waited(e) && r.id == e.id
    requires r.client == s.clientId
    ensures Ends(s, Hears(r, d), Handle(s, e, r, d), e)
    ensures Find(Held(Handle(s, e, r, d)), e.id).None? <==> EndsBy(e, r, d)
  {
    hide Ends, Consistent, HandleLookup, HandleWatch, HandlePermission, HandleCopy;
    WaitedFacts(s, e);
    match e.op
    case LocationGet => LookupEnds(s, r, d, e);
    case LocationWatch => WatchEnds(s, r, d, e);
    case NotificationPermission => PermissionEnds(s, r, d, e);
    case _ => CopyEnds(s, r, d, e);
  }

  // The entry goes, silently, if the answer ends it, and otherwise nothing but its flags and the permission changes.
  lemma AnswerEnds(s: State, r: Response, d: Detail, e: Entry, s': State)
    requires s.frame == Idle && Find(s.pending, e.id) == Some(e) && r.id == e.id && r.client == s.clientId
    requires s'.out == s.out && s'.clientId == s.clientId && s'.frame == Idle
    requires EndsBy(e, r, d) ==> s'.pending == Remove(s.pending, e.id)
    requires !EndsBy(e, r, d) ==> s'.pending == s.pending || s'.pending == Change(s.pending, e.id, true)
    ensures Ends(s, Hears(r, d), s', e) && (Find(Held(s'), e.id).None? <==> EndsBy(e, r, d))
  {
    FindRemove(s.pending, e.id, e.id);
    FindChange(s.pending, e.id, true, e.id);
    OneTold(s, s', e.op, e.id, false, 0);
  }

  lemma LookupEnds(s: State, r: Response, d: Detail, e: Entry)
    requires s.frame == Idle && Find(s.pending, e.id) == Some(e) && r.id == e.id && r.client == s.clientId
    requires e.op == LocationGet
    ensures Ends(s, Hears(r, d), HandleLookup(s, e, r, d), e)
    ensures Find(Held(HandleLookup(s, e, r, d)), e.id).None? <==> EndsBy(e, r, d)
  {
    hide Ends;
    AnswerEnds(s, r, d, e, HandleLookup(s, e, r, d));
  }

  lemma WatchEnds(s: State, r: Response, d: Detail, e: Entry)
    requires s.frame == Idle && Find(s.pending, e.id) == Some(e) && r.id == e.id && r.client == s.clientId
    requires e.op == LocationWatch
    ensures Ends(s, Hears(r, d), HandleWatch(s, e, r, d), e)
    ensures Find(Held(HandleWatch(s, e, r, d)), e.id).None? <==> EndsBy(e, r, d)
  {
    hide Ends;
    AnswerEnds(s, r, d, e, HandleWatch(s, e, r, d));
  }

  lemma PermissionEnds(s: State, r: Response, d: Detail, e: Entry)
    requires s.frame == Idle && Find(s.pending, e.id) == Some(e) && r.id == e.id && r.client == s.clientId
    requires e.op == NotificationPermission
    ensures Ends(s, Hears(r, d), HandlePermission(s, e, r, d), e)
    ensures Find(Held(HandlePermission(s, e, r, d)), e.id).None? <==> EndsBy(e, r, d)
  {
    hide Ends;
    AnswerEnds(s, r, d, e, HandlePermission(s, e, r, d));
  }

  lemma CopyEnds(s: State, r: Response, d: Detail, e: Entry)
    requires s.frame == Idle && Find(s.pending, e.id) == Some(e) && r.id == e.id && r.client == s.clientId
    requires IsCopy(e.op)
    ensures Ends(s, Hears(r, d), HandleCopy(s, e, r, d), e)
    ensures Find(Held(HandleCopy(s, e, r, d)), e.id).None? <==> EndsBy(e, r, d)
  {
    hide Ends;
    AnswerEnds(s, r, d, e, HandleCopy(s, e, r, d));
  }

  lemma StepEnds(s: State, a: Action, e: Entry)
    requires Valid(s) && Enabled(s, a) && Find(Held(s), e.id) == Some(e) && Waited(e)
    ensures Ends(s, a, Next(s, a), e)
  {
    hide Ends, Consistent, Spares, Invoke, Return, Expire, Materialize, Handle;
    WaitedFacts(s, e);
    if e.id !in Subject(s, a) {
      Elsewhere(s, a, e.id);
      SparesEnds(s, a, Next(s, a), e);
    } else {
      match a
      case Call(call) => CallEnds(s, call, e);
      case Returns => ReturnEnds(s, e);
      case Hears(r, d) =>
        AboutWaited(s, r.id, e);
        if r.client == s.clientId { HearEnds(s, r, d, e); } else { AsideSpares(s, s, e.id); SparesEnds(s, a, s, e); }
      case Expires(id) =>
        AboutWaited(s, id, e);
        ExpireEnds(s, e);
      case Materializes(id, fits, cloneable) => MaterializeEnds(s, fits, cloneable, e);
    }
  }

  // A request that is no notification is named only by itself.
  lemma AboutWaited(s: State, id: Id, e: Entry)
    requires Valid(s) && s.frame == Idle && Find(s.pending, e.id) == Some(e) && Waited(e)
    requires e.id in About(Find(s.pending, id))
    ensures id == e.id
  {
    WaitedFacts(s, e);
    var f := Find(s.pending, id).value;
    assert EntryOk(s, f);
  }

  /********** What a step posts **********/

  predicate WaitedOp(op: Op) { CapabilityOf(op).Some? && op != NotificationShow }

  // A message is about a request that exists, or it posts one that is retained now, for the first time.
  ghost predicate Sound(s: State, s': State, m: Message) {
    m.Request? ==>
      && (IsCancel(m.op) ==> m.target < s.next)
      && (WaitedOp(m.op) ==>
          var now, before := Find(Held(s'), m.id), Find(Held(s), m.id);
          && m.client == s'.clientId && now.Some? && now.value.op == m.op && now.value.posted && m.id !in s'.built
          && (m.id >= s.next || (before.Some? && before.value.op == m.op && !before.value.posted)))
      && (m.op == NotificationShow ==>
          var now := Find(Held(s'), m.id);
          && m.client == s'.clientId && now.Some? && now.value.op == NotificationShow && m.id >= s.next
          && m.id in s'.built && m.id !in s'.closed && s'.frame == s.frame)
  }

  ghost predicate Posts(s: State, s': State) {
    && s.next <= s'.next
    && (s'.out == s.out || (s.out <= s'.out && |s'.out| == |s.out| + 1 && Sound(s, s', s'.out[|s.out|])))
  }

  lemma FailPosts(s: State, e: Entry, cancel: bool)
    requires e.id < s.next
    ensures Posts(s, Fail(s, e, cancel))
    ensures var s' := Fail(s, e, cancel);
            s'.out != s.out ==> s'.out == s.out + [Request(s.clientId, s.next, CancelOf(e.op), e.id)]
  {
    hide Fail, Posts, Cancel;
    CancelPosts(s, e);
    SilentPosts(s, s);
    FailShape(s, e, cancel);
    var s' := Fail(s, e, cancel);
    if s'.out == s.out { SilentPosts(s, s'); }
    else { SamePosts(s, Cancel(s, CancelOf(e.op), e.id), s'); }
  }

  lemma CancelPosts(s: State, e: Entry)
    requires e.id < s.next
    ensures var s' := Cancel(s, CancelOf(e.op), e.id);
            && Posts(s, s')
            && (s'.out != s.out ==> s'.out == s.out + [Request(s.clientId, s.next, CancelOf(e.op), e.id)])
  {
  }

  // Posting a cancellation says nothing of what is retained.
  lemma SamePosts(s: State, s1: State, s': State)
    requires Posts(s, s1) && s'.out == s1.out && s'.next == s1.next
    requires s1.out != s.out && s1.out[|s.out|].Request? && IsCancel(s1.out[|s.out|].op)
    ensures Posts(s, s')
  {
  }

  lemma FailShape(s: State, e: Entry, cancel: bool)
    ensures var s', s1 := Fail(s, e, cancel), Cancel(s, CancelOf(e.op), e.id);
            (s'.out == s.out && s'.next >= s.next) || (s'.out == s1.out && s'.next == s1.next)
  {
    hide Cancel, Sever, Drop, Settle, Forget;
    var s1 := Cancel(s, CancelOf(e.op), e.id);
    SeverSays(s);
    DropSays(s, e.target);
    SettleSays(s, e.id);
    SettleSays(s1, e.id);
    ForgetSays(s, e.id);
    ForgetSays(s1, e.id);
    ForgetSays(Drop(s, e.target), e.target);
  }

  // What is posted, built and closed stays as it is.
  predicate SameSaid(s: State, s': State) {
    s'.out == s.out && s'.next == s.next && s'.built == s.built && s'.closed == s.closed
  }

  lemma SeverSays(s: State)
    ensures SameSaid(s, Sever(s))
  {
  }

  lemma DropSays(s: State, id: Id)
    ensures SameSaid(s, Drop(s, id))
  {
  }

  lemma SettleSays(s: State, id: Id)
    ensures SameSaid(s, Settle(s, id))
  {
  }

  lemma ForgetSays(s: State, id: Id)
    ensures SameSaid(s, Forget(s, id))
  {
  }

  lemma ConnectSays(s: State, e: Entry, r: Response, d: Detail)
    ensures SameSaid(s, HandleConnect(s, e, r, d))
  {
    hide Sever;
    SeverSays(Drop(s, e.id));
  }

  lemma LookupSays(s: State, e: Entry, r: Response, d: Detail)
    ensures SameSaid(s, HandleLookup(s, e, r, d))
  {
  }

  lemma WatchSays(s: State, e: Entry, r: Response, d: Detail)
    ensures SameSaid(s, HandleWatch(s, e, r, d))
  {
  }

  lemma PermissionSays(s: State, e: Entry, r: Response, d: Detail)
    ensures SameSaid(s, HandlePermission(s, e, r, d))
  {
  }

  lemma ShowSays(s: State, e: Entry, r: Response)
    ensures SameSaid(s, HandleShow(s, e, r))
  {
  }

  lemma CloseSays(s: State, e: Entry, r: Response)
    ensures SameSaid(s, HandleClose(s, e, r))
  {
  }

  lemma CopySays(s: State, e: Entry, r: Response, d: Detail)
    ensures SameSaid(s, HandleCopy(s, e, r, d))
  {
  }

  lemma HandleSays(s: State, e: Entry, r: Response, d: Detail)
    ensures SameSaid(s, Handle(s, e, r, d))
  {
    hide HandleConnect, HandleLookup, HandleWatch, HandlePermission, HandleShow, HandleClose, HandleCopy, Drop;
    match e.op
    case Connect => ConnectSays(s, e, r, d);
    case LocationGet => LookupSays(s, e, r, d);
    case LocationWatch => WatchSays(s, e, r, d);
    case LocationClear => DropSays(s, e.id);
    case NotificationPermission => PermissionSays(s, e, r, d);
    case NotificationShow => ShowSays(s, e, r);
    case NotificationClose => CloseSays(s, e, r);
    case ClipboardCancel =>
    case _ => CopySays(s, e, r, d);
  }

  lemma StartRequestPosts(s: State, e: Entry)
    requires e.id < s.next && (IsCancel(e.op) ==> e.target < s.next) && e.posted
    requires Find(Held(s), e.id).None? && (s.frame.FinishDisconnect? ==> s.disconnected)
    ensures var s' := StartRequest(s, e);
            && s.next <= s'.next
            && (s'.out == s.out || s'.out == s.out + [Request(s.clientId, e.id, e.op, e.target)])
            && (s'.out != s.out ==> && Find(Held(s'), e.id) == Some(e) && s'.clientId == s.clientId
                                    && s'.built == s.built && s'.closed == s.closed && s'.frame == s.frame)
  {
    hide Fail;
    if s.disconnected || Full(s, e.awaiting) || s.mute { SilentFail(s, e); }
    else { FindAppend(s.pending, e, e.id); }
  }

  lemma SilentFail(s: State, e: Entry)
    ensures Fail(s, e, false).out == s.out && Fail(s, e, false).next == s.next
  {
  }

  lemma FreshIsFree(s: State)
    requires Valid(s)
    ensures Find(Held(s), s.next).None? && s.next !in s.built && s.next !in s.closed
    ensures s.frame.FinishDisconnect? ==> s.disconnected
  {
    assert forall e :: e in Held(s) ==> EntryOk(s, e);
  }

  // A request whose id is the next one.
  lemma StartPosts(s: State, op: Op, target: Id, watchId: nat)
    requires Find(Held(s), s.next).None? && (s.frame.FinishDisconnect? ==> s.disconnected)
    requires op != NotificationShow && s.next !in s.built && (IsCancel(op) ==> target < s.next)
    ensures Posts(s, Start(s, op, target, watchId))
  {
    var b := Begun(s, op, target, watchId, CapabilityOf(op).Some?, true);
    assert Held(b.0) == Held(s);
    StartRequestPosts(b.0, b.1);
  }

  lemma CallPosts(s: State, call: Call)
    requires Valid(s)
    ensures Posts(s, Invoke(s, call))
  {
    hide Start, StartRequest, Posts, Consistent;
    FreshIsFree(s);
    SilentPosts(s, s);
    match call
    case GetCurrentPosition => StartPosts(s, LocationGet, 0, 0);
    case WatchPosition => WatchPosts(s);
    case ClearWatch(watchId) => ClearPosts(s, watchId);
    case RequestPermission => StartPosts(s, NotificationPermission, 0, 0);
    case NewNotification => BuildPosts(s);
    case CloseNotification(id) => ClosePosts(s, id);
    case CallReadText => StartPosts(s, ReadText, 0, 0);
    case CallWriteText => StartPosts(s, WriteText, 0, 0);
    case CallReadItems => StartPosts(s, ReadItems, 0, 0);
    case CallWriteItems => ReservePosts(s);
  }

  lemma SilentPosts(s: State, s': State)
    requires s'.out == s.out && s.next <= s'.next
    ensures Posts(s, s')
  {
  }

  lemma WatchPosts(s: State)
    requires Valid(s)
    ensures Posts(s, StartWatch(s))
  {
    hide Consistent, StartRequest;
    FreshIsFree(s);
    var s1 := s.(next := s.next + 1, nextWatchId := if s.nextWatchId >= LAST_WATCH_ID then 1 else s.nextWatchId + 1);
    assert Held(s1) == Held(s);
    StartRequestPosts(s1, Entry(s.next, LocationWatch, 0, s.nextWatchId, true, true, true));
  }

  lemma ClearPosts(s: State, watchId: nat)
    requires Valid(s)
    ensures Posts(s, StopWatch(s, watchId))
  {
    hide Start;
    if FindWatch(s.pending, watchId).Some? {
      var e := FindWatch(s.pending, watchId).value;
      ClearIsPosted(s, e);
    }
  }

  lemma ClearIsPosted(s: State, e: Entry)
    requires Valid(s) && e in s.pending && e.op == LocationWatch
    ensures Posts(s, Start(Drop(s, e.id), LocationClear, e.id, 0))
  {
    var s1 := Drop(s, e.id);
    var s' := Start(s1, LocationClear, e.id, 0);
    FreshIsFree(s);
    FindRemove(s.pending, e.id, s.next);
    assert e.id < s.next by { if !s.frame.FinishDisconnect? { assert EntryOk(s, e); } }
    StartPosts(s1, LocationClear, e.id, 0);
    StartRequestPosts(s1.(next := s.next + 1), Entry(s.next, LocationClear, e.id, 0, false, true, true));
  }

  lemma BuildPosts(s: State)
    requires Valid(s)
    ensures Posts(s, BuildNotification(s))
  {
    hide StartRequest, Consistent;
    if s.permission == Granted && !Full(s, true) {
      var e := Entry(s.next, NotificationShow, 0, 0, true, true, true);
      FreshIsFree(s);
      StartRequestPosts(Built(s), e);
      BuildShape(s);
    }
  }

  lemma BuildShape(s: State)
    ensures Held(Built(s)) == Held(s)
    ensures BuildNotification(s)
         == if s.permission != Granted || Full(s, true) then s
            else StartRequest(Built(s), Entry(s.next, NotificationShow, 0, 0, true, true, true))
  {
    hide StartRequest;
  }

  lemma BuiltBelow(s: State, id: Id)
    requires Valid(s) && id in s.built
    ensures id < s.next
  {
  }

  // The request that close() makes, and the state it makes it in.
  function CloseEntry(s: State, id: Id): Entry { Entry(s.next, NotificationClose, id, 0, false, true, true) }

  function Closing(s: State, id: Id): State { s.(closed := s.closed + {id}, next := s.next + 1) }

  lemma CloseShape(s: State, id: Id)
    ensures CloseBuilt(s, id) == if id in s.built && id !in s.closed
                                 then StartRequest(Closing(s, id), CloseEntry(s, id)) else s
    ensures Held(Closing(s, id)) == Held(s)
  {
    hide StartRequest;
  }

  lemma ClosePosts(s: State, id: Id)
    requires Valid(s)
    ensures Posts(s, CloseBuilt(s, id))
  {
    hide StartRequest, Consistent, CloseBuilt;
    CloseShape(s, id);
    if id in s.built && id !in s.closed {
      FreshIsFree(s);
      BuiltBelow(s, id);
      StartRequestPosts(Closing(s, id), CloseEntry(s, id));
    }
  }

  lemma ReservePosts(s: State)
    requires Valid(s)
    ensures Posts(s, ReserveWrite(s))
  {
    hide Fail;
    var b := Begun(s, WriteItems, 0, 0, true, false);
    SilentFail(b.0, b.1);
  }

  lemma ReturnPosts(s: State)
    requires Valid(s) && s.frame != Idle
    ensures Posts(s, Return(s))
  {
    hide Fail;
    if s.frame.FinishDisconnect? && s.frame.rest != [] {
      assert EntryOk(s, s.frame.rest[0]);
      FailPosts(s.(frame := FinishDisconnect(s.frame.rest[1..])), s.frame.rest[0], true);
    }
  }

  lemma ExpirePosts(s: State, id: Id)
    requires Valid(s) && s.frame == Idle
    ensures Posts(s, Expire(s, id))
  {
    hide Fail;
    if Find(s.pending, id).Some? {
      var e := Find(s.pending, id).value;
      assert EntryOk(s, e);
      FailPosts(Drop(s, id), e, true);
    }
  }

  lemma MaterializePosts(s: State, id: Id, fits: bool, cloneable: bool)
    requires Valid(s) && s.frame == Idle
    ensures Posts(s, Materialize(s, id, fits, cloneable))
  {
    hide Fail;
    if id in s.writing && Find(s.pending, id).Some? {
      var e := Find(s.pending, id).value;
      assert EntryOk(s, e);
      FindChange(s.pending, id, false, id);
      SilentFail(Drop(s.(writing := s.writing - {id}), id), e);
    }
  }

  lemma HearPosts(s: State, e: Entry, r: Response, d: Detail)
    ensures Posts(s, Handle(s, e, r, d))
  {
    hide Handle, Posts;
    HandleSays(s, e, r, d);
    SilentPosts(s, Handle(s, e, r, d));
  }

  lemma ShowsPosts(s: State)
    requires Valid(s) && s.frame == Idle
    ensures Posts(s, PageShow(s))
  {
    hide Start;
    if s.hidden {
      RestoredIsValid(s);
      FreshIsFree(Restored(s));
      ConnectPosts(Restored(s));
    }
  }

  lemma ConnectPosts(s: State)
    requires Valid(s) && s.frame == Idle
    ensures var s' := Start(s, Connect, 0, 0);
            s.next <= s'.next && (s'.out == s.out || s'.out == s.out + [Request(s.clientId, s.next, Connect, 0)])
  {
    hide Consistent;
    FreshIsFree(s);
    StartRequestPosts(s.(next := s.next + 1), Entry(s.next, Connect, 0, 0, false, true, true));
  }

  lemma StepPosts(s: State, a: Action)
    requires Valid(s) && Enabled(s, a)
    ensures Posts(s, Next(s, a))
  {
    hide Posts, Consistent, Invoke, Return, Expire, Materialize, Handle, PageShow;
    SilentPosts(s, s);
    match a
    case Call(call) => CallPosts(s, call);
    case Returns => ReturnPosts(s);
    case Hears(r, d) => if Find(s.pending, r.id).Some? { HearPosts(s, Find(s.pending, r.id).value, r, d); }
    case Expires(id) => ExpirePosts(s, id);
    case Hides => HidePosts(s);
    case Shows => ShowsPosts(s);
    case Materializes(id, fits, cloneable) => MaterializePosts(s, id, fits, cloneable);
    case Mutes(gone) => SilentPosts(s, s.(mute := gone));
  }

  lemma HidePosts(s: State)
    ensures Posts(s, PageHide(s))
  {
  }

  /********** Runs **********/

  // The answer that ends request x is heard; or x goes while posting does not work.
  datatype Deed = Answer | Silence | LateClose

  predicate Does(s: State, a: Action, x: Id, deed: Deed) {
    && Enabled(s, a)
    && match deed
       case Answer => Answered(s, a, x)
       case Silence => s.mute && Find(Held(s), x).Some? && Find(Held(Next(s, a)), x).None?
       // the page closes notification x while the table is full
       case LateClose =>
         && a == Action.Call(CloseNotification(x)) && Find(s.pending, x).Some? && |s.pending| >= MAX_OPERATIONS
  }

  ghost predicate Done(s0: State, actions: seq<Action>, x: Id, deed: Deed) {
    exists j: nat :: j < |actions| && Does(After(s0, actions[..j]), actions[j], x, deed)
  }

  lemma DoneMore(s0: State, actions: seq<Action>, a: Action, x: Id, deed: Deed)
    ensures Done(s0, actions + [a], x, deed) <==> Done(s0, actions, x, deed) || Does(After(s0, actions), a, x, deed)
  {
    hide After, Does;
    var more, n := actions + [a], |actions|;
    assert forall k :: 0 <= k <= n ==> more[..k] == actions[..k];
    assert actions[..n] == actions && more[n] == a;
    if Done(s0, actions, x, deed) {
      var j: nat :| j < n && Does(After(s0, actions[..j]), actions[j], x, deed);
      assert Does(After(s0, more[..j]), more[j], x, deed);
    }
    if Does(After(s0, actions), a, x, deed) { assert Does(After(s0, more[..n]), more[n], x, deed); }
    if Done(s0, more, x, deed) {
      var j: nat :| j < |more| && Does(After(s0, more[..j]), more[j], x, deed);
      if j < n { assert Does(After(s0, actions[..j]), actions[j], x, deed); }
    }
  }

  // Since position n, a message told the parent to forget the request of message m.
  ghost predicate Forgotten(out: seq<Message>, n: nat, m: Message)
    requires m.Request?
  {
    exists i :: n <= i < |out| && Forgets(out[i], m.client, m.op, m.id)
  }

  ghost predicate Unnamed(out: seq<Message>, n: nat, x: Id) { forall i :: n <= i < |out| ==> !NamesIt(out[i], x) }

  // A message, since position n, that posts request x, which is no notification.
  predicate Posts1(out: seq<Message>, n: nat, i: nat, x: Id) {
    n <= i < |out| && out[i].Request? && WaitedOp(out[i].op) && out[i].id == x
  }

  // What the run so far made of request x.
  ghost predicate Follows(s: State, n: nat, x: Id, answered: bool, silenced: bool) {
    && n <= |s.out|
    && (x >= s.next ==> Unnamed(s.out, n, x) && !answered && !silenced)
    && (Find(Held(s), x).Some? && Waited(Find(Held(s), x).value) ==> Unnamed(s.out, n, x) && !answered && !silenced)
    && (forall i: nat :: Posts1(s.out, n, i, x) ==> Followed(s, n, s.out[i], answered, silenced))
  }

  ghost predicate Followed(s: State, n: nat, m: Message, answered: bool, silenced: bool)
    requires m.Request?
  {
    var e := Find(Held(s), m.id);
    && m.id < s.next && m.id !in s.built
    && if e.Some? then e.value.op == m.op && e.value.posted && s.clientId == m.client
       else Forgotten(s.out, n, m) <==> !answered && !silenced
  }

  // Request x is not retained any more, and no step names it.
  lemma GoneStays(s: State, a: Action, x: Id)
    requires Valid(s) && Enabled(s, a) && x < s.next && x !in s.built && Find(Held(s), x).None?
    ensures Spares(s, Next(s, a), x)
    ensures !Answered(s, a, x)
  {
    hide Spares;
    if x !in Subject(s, a) { Elsewhere(s, a, x); } else { GoneSubject(s, a, x); }
  }

  lemma GoneSubject(s: State, a: Action, x: Id)
    requires Valid(s) && Enabled(s, a) && x !in s.built && Find(Held(s), x).None? && x in Subject(s, a)
    ensures Spares(s, Next(s, a), x)
  {
    match a
    case Call(call) =>
      if call.ClearWatch? { WatchHeld(s, call.watchId, x); }
    case Returns =>
    case Hears(r, d) => AboutHeld(s, r.id, x);
    case Expires(id) => AboutHeld(s, id, x);
    case Materializes(id, fits, cloneable) =>
      AsideSpares(s, s.(writing := s.writing - {id}), x);
      AsideSpares(s, s, x);
  }

  lemma WatchHeld(s: State, watchId: nat, x: Id)
    requires Valid(s) && x in About(FindWatch(s.pending, watchId))
    ensures Find(Held(s), x).Some?
  {
    assert FindWatch(s.pending, watchId).value in s.pending;
  }

  lemma AboutHeld(s: State, id: Id, x: Id)
    requires Valid(s) && s.frame == Idle && x in About(Find(s.pending, id))
    ensures x in s.built || Find(Held(s), x).Some?
  {
    assert EntryOk(s, Find(s.pending, id).value);
  }

  lemma FailBuilds(s: State, e: Entry, cancel: bool)
    ensures Fail(s, e, cancel).built == s.built && Fail(s, e, cancel).closed == s.closed
  {
    hide Cancel, Sever, Drop, Settle, Forget;
    var s1 := Cancel(s, CancelOf(e.op), e.id);
    CancelBuilds(s, CancelOf(e.op), e.id);
    SeverSays(s);
    DropSays(s, e.target);
    SettleSays(s, e.id);
    SettleSays(s1, e.id);
    ForgetSays(s, e.id);
    ForgetSays(s1, e.id);
    ForgetSays(Drop(s, e.target), e.target);
  }

  lemma CancelBuilds(s: State, op: Op, id: Id)
    ensures Cancel(s, op, id).built == s.built && Cancel(s, op, id).closed == s.closed
  {
  }

  lemma StartRequestBuilds(s: State, e: Entry)
    ensures StartRequest(s, e).built == s.built && StartRequest(s, e).closed == s.closed
  {
    hide Fail;
    FailBuilds(s, e, false);
  }

  lemma StartBuilds(s: State, op: Op, target: Id, watchId: nat)
    ensures Start(s, op, target, watchId).built == s.built && Start(s, op, target, watchId).closed == s.closed
  {
    hide StartRequest;
    var b := Begun(s, op, target, watchId, CapabilityOf(op).Some?, true);
    StartRequestBuilds(b.0, b.1);
  }

  lemma CallBuilds(s: State, call: Call)
    ensures s.built <= Invoke(s, call).built <= s.built + {s.next}
    ensures Invoke(s, call).closed <= s.closed + if call.CloseNotification? then {call.id} else {}
  {
    hide Start, StartRequest, Fail;
    match call
    case GetCurrentPosition => StartBuilds(s, LocationGet, 0, 0);
    case WatchPosition => WatchBuilds(s);
    case ClearWatch(watchId) =>
      if FindWatch(s.pending, watchId).Some? {
        var id := FindWatch(s.pending, watchId).value.id;
        StartBuilds(Drop(s, id), LocationClear, id, 0);
      }
    case RequestPermission => StartBuilds(s, NotificationPermission, 0, 0);
    case NewNotification =>
      var s1 := s.(notifications := s.notifications + {s.next}, built := s.built + {s.next});
      StartBuilds(s1, NotificationShow, 0, 0);
    case CloseNotification(id) => StartBuilds(s.(closed := s.closed + {id}), NotificationClose, id, 0);
    case CallReadText => StartBuilds(s, ReadText, 0, 0);
    case CallWriteText => StartBuilds(s, WriteText, 0, 0);
    case CallReadItems => StartBuilds(s, ReadItems, 0, 0);
    case CallWriteItems =>
      var b := Begun(s, WriteItems, 0, 0, true, false);
      FailBuilds(b.0, b.1, false);
  }

  lemma WatchBuilds(s: State)
    ensures StartWatch(s).built == s.built && StartWatch(s).closed == s.closed
  {
    hide StartRequest;
    var s1 := s.(next := s.next + 1, nextWatchId := if s.nextWatchId >= LAST_WATCH_ID then 1 else s.nextWatchId + 1);
    StartRequestBuilds(s1, Entry(s.next, LocationWatch, 0, s.nextWatchId, true, true, true));
  }

  lemma HandleBuilds(s: State, e: Entry, r: Response, d: Detail)
    ensures Handle(s, e, r, d).built == s.built && Handle(s, e, r, d).closed == s.closed
  {
    hide Handle;
    HandleSays(s, e, r, d);
  }

  // Only a new notification object is built, under the next identity, and only close() closes.
  lemma StepBuilds(s: State, a: Action)
    requires Enabled(s, a)
    ensures s.built <= Next(s, a).built <= s.built + {s.next}
    ensures Next(s, a).closed <= s.closed + if a.Call? && a.call.CloseNotification? then {a.call.id} else {}
  {
    hide Invoke, Handle, Fail, Start;
    match a
    case Call(call) => CallBuilds(s, call);
    case Returns =>
      if s.frame.FinishDisconnect? && s.frame.rest != [] {
        FailBuilds(s.(frame := FinishDisconnect(s.frame.rest[1..])), s.frame.rest[0], true);
      }
    case Hears(r, d) => if Find(s.pending, r.id).Some? { HandleBuilds(s, Find(s.pending, r.id).value, r, d); }
    case Expires(id) => if Find(s.pending, id).Some? { FailBuilds(Drop(s, id), Find(s.pending, id).value, true); }
    case Hides =>
    case Shows => if s.hidden { StartBuilds(Restored(s), Connect, 0, 0); }
    case Materializes(id, fits, cloneable) =>
      if Find(s.pending, id).Some? {
        FailBuilds(Drop(s.(writing := s.writing - {id}), id), Find(s.pending, id).value, false);
      }
    case Mutes(gone) =>
  }

  lemma BuiltGrows(s: State, a: Action, x: Id)
    requires Valid(s) && Enabled(s, a) && x < s.next && x !in s.built
    ensures x !in Next(s, a).built
  {
    StepBuilds(s, a);
  }

  /********** One step of a run **********/

  lemma UnnamedMore(out: seq<Message>, n: nat, out': seq<Message>, x: Id)
    requires n <= |out| && Quiet(out, out', x) && Unnamed(out, n, x)
    ensures Unnamed(out', n, x)
  {
    forall i | n <= i < |out'| ensures !NamesIt(out'[i], x) { if i < |out| { assert out'[i] == out[i]; } }
  }

  lemma ForgottenMore(s: State, s': State, n: nat, m: Message)
    requires m.Request? && n <= |s.out| && s.out <= s'.out && s.clientId == m.client && Unnamed(s.out, n, m.id)
    requires IsCancel(CancelOf(m.op))
    ensures Forgotten(s'.out, n, m) <==> Told(s, s', m.op, m.id)
  {
    if Forgotten(s'.out, n, m) {
      forall j | n <= j < |s.out| ensures !Forgets(s'.out[j], m.client, m.op, m.id) { assert s'.out[j] == s.out[j]; }
      var i :| n <= i < |s'.out| && Forgets(s'.out[i], m.client, m.op, m.id);
      assert Forgets(s'.out[i], s.clientId, m.op, m.id);
    }
    if Told(s, s', m.op, m.id) {
      var i :| |s.out| <= i < |s'.out| && Forgets(s'.out[i], s.clientId, m.op, m.id);
      assert Forgets(s'.out[i], m.client, m.op, m.id);
    }
  }

  lemma ForgottenSame(out: seq<Message>, out': seq<Message>, n: nat, m: Message)
    requires m.Request? && n <= |out| && Quiet(out, out', m.id) && IsCancel(CancelOf(m.op))
    ensures Forgotten(out', n, m) <==> Forgotten(out, n, m)
  {
    if Forgotten(out', n, m) {
      var i :| n <= i < |out'| && Forgets(out'[i], m.client, m.op, m.id);
      assert NamesIt(out'[i], m.id);
      assert out'[i] == out[i];
    }
    if Forgotten(out, n, m) {
      var i :| n <= i < |out| && Forgets(out[i], m.client, m.op, m.id);
      assert Forgets(out'[i], m.client, m.op, m.id);
    }
  }

  // A message that was there before the step.
  lemma OldFollowed(s: State, a: Action, n: nat, m: Message, answered: bool, silenced: bool)
    requires Valid(s) && Enabled(s, a) && n <= |s.out| && m.Request? && WaitedOp(m.op)
    requires Followed(s, n, m, answered, silenced)
    requires Find(Held(s), m.id).Some? ==> Unnamed(s.out, n, m.id) && !answered && !silenced
    ensures Followed(Next(s, a), n, m, answered || Does(s, a, m.id, Answer), silenced || Does(s, a, m.id, Silence))
  {
    hide Valid, Next, Ends, Spares, Forgotten, Answered, Told, Quiet, Unnamed, Posts;
    var s' := Next(s, a);
    StepPosts(s, a);
    PostsNext(s, s');
    BuiltGrows(s, a, m.id);
    CancelIsCancel(m.op);
    var e := Find(Held(s), m.id);
    if e.Some? {
      StepEnds(s, a, e.value);
      EndsFollow(s, a, s', e.value, n, m);
    } else {
      GoneStays(s, a, m.id);
      GoneFollows(s, s', n, m);
    }
  }

  lemma PostsNext(s: State, s': State)
    requires Posts(s, s')
    ensures s.next <= s'.next && s.out <= s'.out
  {
  }

  lemma CancelIsCancel(op: Op)
    requires CapabilityOf(op).Some?
    ensures IsCancel(CancelOf(op))
  {
  }

  lemma EndsFollow(s: State, a: Action, s': State, e: Entry, n: nat, m: Message)
    requires Ends(s, a, s', e) && m.Request? && m.id == e.id && m.op == e.op && e.posted && s.clientId == m.client
    requires n <= |s.out| && Unnamed(s.out, n, m.id) && IsCancel(CancelOf(m.op))
    ensures var after := Find(Held(s'), m.id);
            if after.Some? then after.value.op == m.op && after.value.posted && s'.clientId == m.client
                                && !Answered(s, a, m.id)
            else Forgotten(s'.out, n, m) <==> !s.mute && !Answered(s, a, m.id)
  {
    hide Held, Answered;
    ForgottenMore(s, s', n, m);
  }

  lemma GoneFollows(s: State, s': State, n: nat, m: Message)
    requires m.Request? && n <= |s.out| && IsCancel(CancelOf(m.op))
    requires Spares(s, s', m.id) && Find(Held(s), m.id).None?
    ensures Find(Held(s'), m.id).None? && (Forgotten(s'.out, n, m) <==> Forgotten(s.out, n, m))
  {
    ForgottenSame(s.out, s'.out, n, m);
  }

  /********** Nothing comes back **********/

  // What is retained of x after a part of a step was retained before it, by the same operation.
  ghost predicate Fewer(s: State, s': State, x: Id) {
    var e, e' := Find(Held(s), x), Find(Held(s'), x);
    e'.Some? ==> e.Some? && e.value.op == e'.value.op && e.value.target == e'.value.target
  }

  lemma SparesFewer(s: State, s': State, x: Id)
    requires Spares(s, s', x)
    ensures Fewer(s, s', x)
  {
  }

  lemma FewerTrans(s: State, s1: State, s': State, x: Id)
    requires Fewer(s, s1, x) && Fewer(s1, s', x)
    ensures Fewer(s, s', x)
  {
  }

  lemma DropFewer(s: State, id: Id, x: Id)
    ensures Fewer(s, Drop(s, id), x)
  {
    FindRemove(s.pending, id, x);
  }

  lemma AsideFewer(s: State, s': State, x: Id)
    requires Held(s') == Held(s)
    ensures Fewer(s, s', x)
  {
  }

  lemma FailFewer(s: State, e: Entry, cancel: bool, x: Id)
    requires e.op == Connect ==> s.frame == Idle || s.disconnected
    ensures Fewer(s, Fail(s, e, cancel), x)
  {
    hide Fewer, Cancel, Sever;
    if e.op == NotificationClose {
      DropFewer(s, e.target, x);
      ForgetFewer(s, e.target, x);
    } else {
      FailHeld(s, e, cancel);
      AsideFewer(s, Fail(s, e, cancel), x);
    }
  }

  lemma ForgetFewer(s: State, id: Id, x: Id)
    requires Fewer(s, Drop(s, id), x)
    ensures Fewer(s, Forget(Drop(s, id), id), x)
  {
  }

  lemma SeverHeld(s: State)
    requires s.frame == Idle || s.disconnected
    ensures Held(Sever(s)) == Held(s)
  {
  }

  lemma FailHeld(s: State, e: Entry, cancel: bool)
    requires e.op != NotificationClose && (e.op == Connect ==> s.frame == Idle || s.disconnected)
    ensures Held(Fail(s, e, cancel)) == Held(s)
  {
    hide Sever;
    if e.op == Connect { SeverHeld(s); }
  }

  lemma CloseFewer(s: State, id: Id, x: Id)
    requires Valid(s) && x < s.next
    ensures Fewer(s, CloseBuilt(s, id), x)
  {
    hide Fail, Fewer, Consistent, StartRequest, CloseBuilt;
    AsideFewer(s, s, x);
    FreshIsFree(s);
    CloseShape(s, id);
    if id in s.built && id !in s.closed {
      var s1, c := Closing(s, id), CloseEntry(s, id);
      AsideFewer(s, s1, x);
      FailFewer(s1, c, false, x);
      AppendFewer(s1, c, x);
      FewerTrans(s, s1, StartRequest(s1, c), x);
    }
  }

  lemma AppendFewer(s: State, e: Entry, x: Id)
    requires e.id != x && (s.frame.FinishDisconnect? ==> s.disconnected) && Fewer(s, Fail(s, e, false), x)
    ensures Fewer(s, StartRequest(s, e), x)
  {
    hide Fail;
    FindAppend(s.pending, e, x);
  }

  lemma ReturnFewer(s: State, x: Id)
    requires Valid(s) && s.frame != Idle && x in Subject(s, Returns)
    ensures Fewer(s, Return(s), x)
  {
    hide Fail;
    match s.frame
    case FinishNotification(id) => FindRemove(s.pending, id, x);
    case FinishDisconnect(rest) =>
      NotInTail(rest, rest[0]);
      FailFewer(s.(frame := FinishDisconnect(rest[1..])), rest[0], true, x);
  }

  lemma ShownFewer(s: State, e: Entry, r: Response, x: Id)
    requires s.frame == Idle
    ensures Fewer(s, HandleShow(s, e, r), x)
  {
    hide Fewer, Drop, Acknowledge;
    AsideFewer(s, s, x);
    DropFewer(s, e.id, x);
    ForgetFewer(s, e.id, x);
    ChangeFewer(s, e.id, x);
    EventFewer(s, Acknowledge(s, e.id), e.id, x);
  }

  lemma ChangeFewer(s: State, id: Id, x: Id)
    requires s.frame == Idle
    ensures Fewer(s, Acknowledge(s, id), x) && Acknowledge(s, id).frame == Idle
  {
    FindChange(s.pending, id, true, x);
  }

  lemma EventFewer(s: State, s1: State, id: Id, x: Id)
    requires Fewer(s, s1, x) && s1.frame == Idle
    ensures Fewer(s, s1.(frame := FinishNotification(id)), x)
  {
  }

  lemma ClosedFewer(s: State, e: Entry, r: Response, x: Id)
    requires s.frame == Idle
    ensures Fewer(s, HandleClose(s, e, r), x)
  {
    hide Find, Remove;
    FindRemove(s.pending, e.id, x);
    FindRemove(Drop(s, e.id).pending, e.target, x);
  }

  lemma ConnectFewer(s: State, e: Entry, r: Response, d: Detail, x: Id)
    requires s.frame == Idle
    ensures Fewer(s, HandleConnect(s, e, r, d), x)
  {
    hide Fewer, Sever;
    var s1 := Drop(s, e.id);
    DropFewer(s, e.id, x);
    SeverHeld(s1);
    AsideFewer(s1, Sever(s1), x);
    FewerTrans(s, s1, Sever(s1), x);
    if d.permission.Some? {
      AsideFewer(s1, s1.(permission := d.permission.value), x);
      FewerTrans(s, s1, s1.(permission := d.permission.value), x);
    }
  }

  lemma HearFewer(s: State, e: Entry, r: Response, d: Detail, x: Id)
    requires s.frame == Idle && !Waited(e)
    ensures Fewer(s, Handle(s, e, r, d), x)
  {
    hide Fewer, HandleShow, HandleClose, HandleConnect;
    AsideFewer(s, s, x);
    DropFewer(s, e.id, x);
    if e.op == NotificationShow { ShownFewer(s, e, r, x); }
    else if e.op == NotificationClose { ClosedFewer(s, e, r, x); }
    else if e.op == Connect { ConnectFewer(s, e, r, d, x); }
  }

  lemma ExpireFewer(s: State, id: Id, x: Id)
    requires Valid(s) && s.frame == Idle
    ensures Fewer(s, Expire(s, id), x)
  {
    hide Fail, Fewer;
    AsideFewer(s, s, x);
    if Find(s.pending, id).Some? {
      var e := Find(s.pending, id).value;
      DropFewer(s, id, x);
      FailFewer(Drop(s, id), e, true, x);
      FewerTrans(s, Drop(s, id), Fail(Drop(s, id), e, true), x);
    }
  }

  lemma MaterializeFewer(s: State, id: Id, fits: bool, cloneable: bool)
    requires Valid(s) && s.frame == Idle
    ensures Fewer(s, Materialize(s, id, fits, cloneable), id)
  {
    hide Fail;
    FindRemove(s.pending, id, id);
    FindChange(s.pending, id, false, id);
    var s1 := s.(writing := s.writing - {id});
    if id in s.writing && Find(s.pending, id).Some? {
      var e := Find(s.pending, id).value;
      FailFewer(Drop(s1, id), e, false, id);
    }
  }

  // A request that is no longer retained does not come back, and none changes its operation.
  lemma StepFewer(s: State, a: Action, x: Id)
    requires Valid(s) && Enabled(s, a) && x < s.next
    ensures Fewer(s, Next(s, a), x)
  {
    hide Fewer, Spares, Valid, Ends, Next;
    if x !in Subject(s, a) {
      Elsewhere(s, a, x);
      SparesFewer(s, Next(s, a), x);
    } else if Find(Held(s), x).Some? && Waited(Find(Held(s), x).value) {
      StepEnds(s, a, Find(Held(s), x).value);
      EndsFewer(s, a, Next(s, a), Find(Held(s), x).value);
    } else {
      OtherFewer(s, a, x);
    }
  }

  lemma EndsFewer(s: State, a: Action, s': State, e: Entry)
    requires Ends(s, a, s', e) && Find(Held(s), e.id) == Some(e)
    ensures Fewer(s, s', e.id)
  {
  }

  lemma OtherFewer(s: State, a: Action, x: Id)
    requires Valid(s) && Enabled(s, a) && x < s.next && x in Subject(s, a)
    requires Find(Held(s), x).Some? ==> !Waited(Find(Held(s), x).value)
    ensures Fewer(s, Next(s, a), x)
  {
    hide Fewer, Consistent, CloseBuilt, Return, Expire, Materialize, Handle;
    match a
    case Call(call) => if call.ClearWatch? { NoWatch(s, call.watchId, x); } else { CloseFewer(s, call.id, x); }
    case Returns => ReturnFewer(s, x);
    case Hears(r, d) =>
      AsideFewer(s, s, x);
      NotWaited(s, r.id, x);
      HearFewer(s, Find(s.pending, r.id).value, r, d, x);
    case Expires(id) => ExpireFewer(s, id, x);
    case Materializes(id, fits, cloneable) => MaterializeFewer(s, id, fits, cloneable);
  }

  lemma NoWatch(s: State, watchId: nat, x: Id)
    requires Valid(s) && x in About(FindWatch(s.pending, watchId))
    ensures Find(Held(s), x).Some? && Waited(Find(Held(s), x).value)
  {
    var w := FindWatch(s.pending, watchId).value;
    assert w in s.pending && w.id == x;
    SameFound(s.pending, w, Find(s.pending, x).value);
  }

  lemma NotWaited(s: State, id: Id, x: Id)
    requires Valid(s) && s.frame == Idle && x in About(Find(s.pending, id))
    requires Find(Held(s), x).Some? ==> !Waited(Find(Held(s), x).value)
    ensures !Waited(Find(s.pending, id).value)
  {
  }

  /********** Every request of a run **********/

  lemma HeldBelow(s: State, x: Id)
    requires Valid(s) && Find(Held(s), x).Some?
    ensures x < s.next
  {
    assert EntryOk(s, Find(Held(s), x).value);
  }

  lemma AnswerHeld(s: State, a: Action, x: Id)
    requires Does(s, a, x, Answer) || Does(s, a, x, Silence)
    ensures Find(Held(s), x).Some?
  {
  }

  lemma FreshUnnamed(s: State, s': State, n: nat, x: Id)
    requires Posts(s, s') && x >= s.next && n <= |s.out| && Unnamed(s.out, n, x)
    ensures Unnamed(s'.out, n, x)
  {
    forall i | n <= i < |s'.out| ensures !NamesIt(s'.out[i], x) { if i < |s.out| { assert s'.out[i] == s.out[i]; } }
  }

  // A message that the step posts.
  lemma NewFollowed(s: State, s': State, n: nat, i: nat, x: Id)
    requires Posts(s, s') && |s.out| <= i && Posts1(s'.out, n, i, x)
    ensures var m, now, before := s'.out[i], Find(Held(s'), x), Find(Held(s), x);
            && now.Some? && now.value.op == m.op && now.value.posted && m.client == s'.clientId && x !in s'.built
            && (x >= s.next || (before.Some? && before.value.op == m.op && !before.value.posted))
  {
  }

  lemma FollowsStep(s: State, a: Action, n: nat, x: Id, answered: bool, silenced: bool)
    requires Valid(s) && Enabled(s, a) && Follows(s, n, x, answered, silenced)
    ensures Follows(Next(s, a), n, x, answered || Does(s, a, x, Answer), silenced || Does(s, a, x, Silence))
  {
    hide Valid, Next, Followed, Unnamed, Does, Ends, Fewer;
    var s' := Next(s, a);
    StepPosts(s, a);
    PostsNext(s, s');
    NextKeepsValid(s, a);
    FreshFollows(s, a, n, x, answered, silenced);
    HeldFollows(s, a, n, x, answered, silenced);
    forall i: nat | Posts1(s'.out, n, i, x)
      ensures Followed(s', n, s'.out[i], answered || Does(s, a, x, Answer), silenced || Does(s, a, x, Silence))
    {
      if i < |s.out| {
        OldMessage(s, s', n, i, x, answered, silenced);
        OldFollowed(s, a, n, s.out[i], answered, silenced);
      } else {
        NewMessage(s, s', n, i, x, answered || Does(s, a, x, Answer), silenced || Does(s, a, x, Silence));
      }
    }
  }

  lemma FreshFollows(s: State, a: Action, n: nat, x: Id, answered: bool, silenced: bool)
    requires Valid(s) && Enabled(s, a) && Follows(s, n, x, answered, silenced) && Posts(s, Next(s, a))
    ensures x >= Next(s, a).next ==> Unnamed(Next(s, a).out, n, x) && !answered && !silenced
                                     && !Does(s, a, x, Answer) && !Does(s, a, x, Silence)
  {
    hide Valid, Next, Does, Unnamed, Posts;
    PostsNext(s, Next(s, a));
    if x >= Next(s, a).next {
      FreshUnnamed(s, Next(s, a), n, x);
      NoDeed(s, a, x);
    }
  }

  lemma NoDeed(s: State, a: Action, x: Id)
    requires Valid(s) && x >= s.next
    ensures !Does(s, a, x, Answer) && !Does(s, a, x, Silence)
  {
    hide Valid, Does;
    if Does(s, a, x, Answer) || Does(s, a, x, Silence) {
      AnswerHeld(s, a, x);
      HeldBelow(s, x);
    }
  }

  lemma HeldFollows(s: State, a: Action, n: nat, x: Id, answered: bool, silenced: bool)
    requires Valid(s) && Enabled(s, a) && Follows(s, n, x, answered, silenced) && Posts(s, Next(s, a))
    ensures var s' := Next(s, a);
            Find(Held(s'), x).Some? && Waited(Find(Held(s'), x).value) ==>
              Unnamed(s'.out, n, x) && !answered && !silenced && !Does(s, a, x, Answer) && !Does(s, a, x, Silence)
  {
    hide Valid, Next, Unnamed, Posts, Ends, Fewer, Answered, Quiet;
    var s' := Next(s, a);
    var e' := Find(Held(s'), x);
    if e'.Some? && Waited(e'.value) {
      if x >= s.next {
        FreshUnnamed(s, s', n, x);
        NoDeed(s, a, x);
      } else {
        StepFewer(s, a, x);
        FewerIs(s, s', x);
        var e := Find(Held(s), x).value;
        StepEnds(s, a, e);
        EndsKept(s, a, s', e);
        UnnamedMore(s.out, n, s'.out, x);
      }
    }
  }

  lemma FewerIs(s: State, s': State, x: Id)
    requires Fewer(s, s', x) && Find(Held(s'), x).Some?
    ensures Find(Held(s), x).Some? && Find(Held(s), x).value.op == Find(Held(s'), x).value.op
  {
  }

  lemma EndsKept(s: State, a: Action, s': State, e: Entry)
    requires Ends(s, a, s', e) && Find(Held(s'), e.id).Some?
    ensures Quiet(s.out, s'.out, e.id) && !Answered(s, a, e.id)
  {
  }

  lemma OldMessage(s: State, s': State, n: nat, i: nat, x: Id, answered: bool, silenced: bool)
    requires Follows(s, n, x, answered, silenced) && s.out <= s'.out && i < |s.out| && Posts1(s'.out, n, i, x)
    ensures s'.out[i] == s.out[i] && Posts1(s.out, n, i, x) && Followed(s, n, s.out[i], answered, silenced)
    ensures Find(Held(s), x).Some? ==> Unnamed(s.out, n, x) && !answered && !silenced
  {
    hide Unnamed;
    assert s'.out[i] == s.out[i];
    assert Followed(s, n, s.out[i], answered, silenced);
  }

  lemma NewMessage(s: State, s': State, n: nat, i: nat, x: Id, answered: bool, silenced: bool)
    requires Posts(s, s') && |s.out| <= i && Posts1(s'.out, n, i, x) && Valid(s')
    ensures Followed(s', n, s'.out[i], answered, silenced)
  {
    NewFollowed(s, s', n, i, x);
    HeldBelow(s', x);
  }

  lemma FollowsStart(before: State, x: Id)
    ensures Follows(Boot(before), |before.out|, x, false, false)
  {
    BootKeeps(before);
    ConnectPosts(Booted(before));
    BootedIsValid(before);
  }

  lemma {:induction false} FollowsRun(before: State, actions: seq<Action>, x: Id)
    ensures var s := After(Boot(before), actions);
            Follows(s, |before.out|, x, Done(Boot(before), actions, x, Answer), Done(Boot(before), actions, x, Silence))
    decreases |actions|
  {
    hide Follows, Valid, Done, Next, Does;
    var s0, n := Boot(before), |before.out|;
    if actions == [] {
      NothingDone(s0, x);
      FollowsStart(before, x);
    } else {
      var rest, a := actions[..|actions| - 1], actions[|actions| - 1];
      assert actions == rest + [a];
      FollowsRun(before, rest, x);
      Extends(s0, rest, a);
      DoneMore(s0, rest, a, x, Answer);
      DoneMore(s0, rest, a, x, Silence);
      BootKeeps(before);
      AfterKeepsValid(s0, rest);
      var s := After(s0, rest);
      if Enabled(s, a) {
        FollowsStep(s, a, n, x, Done(s0, rest, x, Answer), Done(s0, rest, x, Silence));
      } else {
        NotEnabled(s, a, x);
      }
    }
  }

  lemma NothingDone(s0: State, x: Id)
    ensures forall deed :: !Done(s0, [], x, deed)
  {
  }

  lemma NotEnabled(s: State, a: Action, x: Id)
    requires !Enabled(s, a)
    ensures forall deed :: !Does(s, a, x, deed)
  {
  }

  /**
   In every run, the parent is told to forget a posted lookup, watch, permission request or clipboard call if and only
   if its entry has gone, no answer ended it, and posting worked when it went: a watch that is cleared, a deadline, a
   disconnect, all of them tell. While it is retained it was posted by this session, and the parent was told nothing.
   */
  lemma ParentIsToldExactly(before: State, actions: seq<Action>, i: nat)
    requires var out := After(Boot(before), actions).out;
             |before.out| <= i < |out| && out[i].Request? && WaitedOp(out[i].op)
    ensures var s, m := After(Boot(before), actions), After(Boot(before), actions).out[i];
            var retained := Find(Held(s), m.id);
            && (retained.Some? ==> retained.value.op == m.op && m.client == s.clientId)
            && (Forgotten(s.out, |before.out|, m)
                <==> retained.None? && !Done(Boot(before), actions, m.id, Answer)
                     && !Done(Boot(before), actions, m.id, Silence))
  {
    hide Done, Boot, Held;
    var s, m, n := After(Boot(before), actions), After(Boot(before), actions).out[i], |before.out|;
    FollowsRun(before, actions, m.id);
    assert Posts1(s.out, n, i, m.id);
    if Find(Held(s), m.id).Some? {
      CancelIsCancel(m.op);
      NotForgotten(s.out, n, m);
    }
  }

  lemma NotForgotten(out: seq<Message>, n: nat, m: Message)
    requires m.Request? && Unnamed(out, n, m.id) && IsCancel(CancelOf(m.op))
    ensures !Forgotten(out, n, m)
  {
    forall i | n <= i < |out| ensures !Forgets(out[i], m.client, m.op, m.id) {
      assert Forgets(out[i], m.client, m.op, m.id) ==> NamesIt(out[i], m.id);
    }
  }

  /********** Notifications **********/

  // What a step makes of a retained notification: it stays, and an event that ends it is being told if an answer ends
  // it; or it goes, for one of the reasons there are.
  ghost predicate ShowEnds(s: State, a: Action, s': State, e: Entry) {
    && s.out <= s'.out
    && var x, after := e.id, Find(Held(s'), e.id);
       if after.Some? then
         && after.value.op == e.op && s'.clientId == s.clientId
         && (s'.frame == FinishNotification(x) ==> s.frame == FinishNotification(x) || Answered(s, a, x))
         && (x in s'.closed && !s'.frame.FinishDisconnect? ==>
             (x in s.closed && !s.frame.FinishDisconnect?) || Told(s, s', NotificationShow, x))
       else
         || Told(s, s', NotificationShow, x) || Answered(s, a, x) || s.mute || Does(s, a, x, LateClose)
         || s.frame == FinishNotification(x) || (x in s.closed && !s.frame.FinishDisconnect?)
  }

  // Nothing about the notification changes.
  lemma StaysShown(s: State, a: Action, s': State, e: Entry)
    requires Spares(s, s', e.id) && Find(Held(s), e.id) == Some(e)
    requires s'.frame == FinishNotification(e.id) ==> s.frame == FinishNotification(e.id)
    requires e.id in s'.closed ==> e.id in s.closed
    requires s.frame.FinishDisconnect? ==> s'.frame.FinishDisconnect?
    ensures ShowEnds(s, a, s', e)
  {
  }

  lemma ShowFacts(s: State, e: Entry)
    requires Valid(s) && Find(Held(s), e.id) == Some(e) && e.op == NotificationShow
    ensures e.id < s.next && e.id in s.built && e.posted && e.id !in s.writing
    ensures s.frame.FinishDisconnect? || (e in s.pending && !s.disconnected)
    ensures s.frame.FinishDisconnect? ==> s.pending == [] && s.disconnected
  {
    assert EntryOk(s, e);
  }

  // close() tells the parent if posting works and there is room, and then the notification stays; otherwise it goes.
  lemma CloseEnds(s: State, e: Entry)
    requires Valid(s) && Find(Held(s), e.id) == Some(e) && e.op == NotificationShow
    ensures ShowEnds(s, Action.Call(CloseNotification(e.id)), CloseBuilt(s, e.id), e)
  {
    hide Consistent, CloseBuilt;
    ShowFacts(s, e);
    CloseShape(s, e.id);
    AsideSpares(s, s, e.id);
    if e.id !in s.closed { CloseStarts(s, e); }
  }

  lemma CloseStarts(s: State, e: Entry)
    requires Find(Held(s), e.id) == Some(e) && e.op == NotificationShow && e.id < s.next
    requires s.frame.FinishDisconnect? ==> s.pending == [] && s.disconnected
    requires s.frame.FinishDisconnect? || !s.disconnected
    ensures var s' := StartRequest(Closing(s, e.id), CloseEntry(s, e.id));
            ShowEnds(s, Action.Call(CloseNotification(e.id)), s', e)
  {
    var x, s1, c := e.id, Closing(s, e.id), CloseEntry(s, e.id);
    var s' := StartRequest(s1, c);
    FindAppend(s.pending, c, x);
    FindRemove(s.pending, x, x);
    if !(s.disconnected || Full(s, false) || s.mute) {
      assert Forgets(s'.out[|s.out|], s.clientId, NotificationShow, x);
    }
  }

  lemma ShowReturns(s: State, e: Entry)
    requires Valid(s) && s.frame != Idle && Find(Held(s), e.id) == Some(e) && e.op == NotificationShow
    requires e.id in Subject(s, Returns)
    ensures ShowEnds(s, Returns, Return(s), e)
  {
    ShowFacts(s, e);
    hide Consistent;
    if s.frame.FinishNotification? {
      FindRemove(s.pending, e.id, e.id);
    } else {
      RestFacts(s);
      var s1 := s.(frame := FinishDisconnect(s.frame.rest[1..]));
      NotInTail(s.frame.rest, e);
      ShowTells(s1, e);
      OneTold(s, Return(s), NotificationShow, e.id, !s.mute, s.next);
    }
  }

  lemma RestFacts(s: State)
    requires Valid(s) && s.frame.FinishDisconnect?
    ensures Distinct(s.frame.rest)
  {
  }

  lemma ShowTells(s: State, e: Entry)
    requires e.op == NotificationShow
    ensures var s' := Fail(s, e, true);
            && Held(s') == Held(s) && s'.closed == s.closed && s'.frame == s.frame
            && s'.out == if !s.mute then s.out + [Request(s.clientId, s.next, CancelOf(e.op), e.id)] else s.out
  {
  }

  lemma ShowExpires(s: State, e: Entry)
    requires Valid(s) && s.frame == Idle && Find(s.pending, e.id) == Some(e) && e.op == NotificationShow
    ensures ShowEnds(s, Expires(e.id), Expire(s, e.id), e)
  {
    hide Consistent;
    if e.timer {
      FindRemove(s.pending, e.id, e.id);
      ShowTells(Drop(s, e.id), e);
      OneTold(s, Expire(s, e.id), NotificationShow, e.id, !s.mute, s.next);
    } else {
      AsideSpares(s, s, e.id);
      StaysShown(s, Expires(e.id), s, e);
    }
  }

  lemma ShowHears(s: State, r: Response, d: Detail, e: Entry)
    requires Valid(s) && s.frame == Idle && Find(s.pending, e.id) == Some(e) && e.op == NotificationShow
    requires r.id == e.id && r.client == s.clientId
    ensures ShowEnds(s, Hears(r, d), HandleShow(s, e, r), e)
  {
    hide Consistent, HandleShow;
    FindRemove(s.pending, e.id, e.id);
    FindChange(s.pending, e.id, true, e.id);
    ShowShape(s, r, e);
  }

  lemma ShowShape(s: State, r: Response, e: Entry)
    requires s.frame == Idle && e.op == NotificationShow
    ensures var s' := HandleShow(s, e, r);
            && s'.out == s.out && s'.clientId == s.clientId && s'.closed == s.closed
            && (if EndsBy(e, r, Detail(false, false, None))
                then || (s'.frame == Idle && s'.pending == Remove(s.pending, e.id))
                     || (s'.frame == FinishNotification(e.id) && s'.pending == Change(s.pending, e.id, true))
                else s'.frame == Idle && (s'.pending == s.pending || s'.pending == Change(s.pending, e.id, true)))
  {
  }

  // The entry of a close() names a notification that was closed.
  lemma CloseNames(s: State, f: Entry)
    requires Valid(s) && s.frame == Idle && f in s.pending && f.op == NotificationClose
    ensures f.target in s.closed
  {
    assert EntryOk(s, f);
  }

  // The notification's own close() is answered, or times out.
  lemma ClosedEnds(s: State, a: Action, s': State, e: Entry)
    requires Find(Held(s), e.id) == Some(e) && s.frame == Idle && e.id in s.closed && s.out <= s'.out
    requires s'.clientId == s.clientId && s'.frame == Idle && Fewer(s, s', e.id)
    ensures ShowEnds(s, a, s', e)
  {
  }

  lemma CloseHears(s: State, f: Entry, r: Response, d: Detail)
    requires f.op == NotificationClose
    ensures var s' := Handle(s, f, r, d); s'.out == s.out && s'.clientId == s.clientId && s'.frame == s.frame
  {
  }

  lemma CloseExpires(s: State, f: Entry)
    requires s.frame == Idle && Find(s.pending, f.id) == Some(f) && f.op == NotificationClose
    ensures var s' := Expire(s, f.id); s'.out == s.out && s'.clientId == s.clientId && s'.frame == s.frame
  {
  }

  lemma AboutShow(s: State, id: Id, e: Entry)
    requires Valid(s) && s.frame == Idle && Find(s.pending, e.id) == Some(e) && e.op == NotificationShow
    requires e.id in About(Find(s.pending, id))
    ensures var f := Find(s.pending, id).value;
            f == e || (f.op == NotificationClose && f.target == e.id && e.id in s.closed)
  {
    var f := Find(s.pending, id).value;
    if f.op == NotificationClose { CloseNames(s, f); }
  }

  lemma HearsAbout(s: State, r: Response, d: Detail, e: Entry)
    requires Valid(s) && s.frame == Idle && Find(s.pending, e.id) == Some(e) && e.op == NotificationShow
    requires e.id in About(Find(s.pending, r.id))
    ensures ShowEnds(s, Hears(r, d), Receive(s, r, d), e)
  {
    hide ShowEnds, Consistent, Handle, Fewer, Spares;
    AboutShow(s, r.id, e);
    var f := Find(s.pending, r.id).value;
    if r.client != s.clientId {
      AsideSpares(s, s, e.id);
      StaysShown(s, Hears(r, d), s, e);
    } else if f == e {
      HandleIsShow(s, e, r, d);
      ShowHears(s, r, d, e);
    } else {
      CloseHears(s, f, r, d);
      HearFewer(s, f, r, d, e.id);
      ClosedEnds(s, Hears(r, d), Handle(s, f, r, d), e);
    }
  }

  lemma HandleIsShow(s: State, e: Entry, r: Response, d: Detail)
    requires e.op == NotificationShow
    ensures Handle(s, e, r, d) == HandleShow(s, e, r)
  {
  }

  lemma ExpiresAbout(s: State, id: Id, e: Entry)
    requires Valid(s) && s.frame == Idle && Find(s.pending, e.id) == Some(e) && e.op == NotificationShow
    requires e.id in About(Find(s.pending, id))
    ensures ShowEnds(s, Expires(id), Expire(s, id), e)
  {
    hide ShowEnds, Consistent, Expire, Fewer;
    AboutShow(s, id, e);
    var f := Find(s.pending, id).value;
    if f == e {
      ShowExpires(s, e);
    } else {
      CloseExpires(s, f);
      ExpireFewer(s, id, e.id);
      ClosedEnds(s, Expires(id), Expire(s, id), e);
    }
  }

  // Steps about other requests leave the frame and the closed ones alone, as far as this one is concerned.
  lemma FrameElsewhere(s: State, a: Action, x: Id)
    requires Valid(s) && Enabled(s, a) && x !in Subject(s, a) && Find(Held(s), x).Some? && x < s.next
    ensures var s' := Next(s, a);
            && (s'.frame == FinishNotification(x) ==> s.frame == FinishNotification(x))
            && (s.frame.FinishDisconnect? ==> s'.frame.FinishDisconnect?)
  {
    hide Consistent, Invoke, Handle, Fail, Start;
    match a
    case Call(call) => CallFrame(s, call);
    case Returns =>
      if s.frame.FinishDisconnect? && s.frame.rest != [] {
        FailFrame(s.(frame := FinishDisconnect(s.frame.rest[1..])), s.frame.rest[0], true);
        StillDisconnected(s);
      }
    case Hears(r, d) => if Find(s.pending, r.id).Some? { HandleFrame(s, Find(s.pending, r.id).value, r, d); }
    case Expires(id) => if Find(s.pending, id).Some? { FailFrame(Drop(s, id), Find(s.pending, id).value, true); }
    case Hides =>
    case Shows => if s.hidden { StartFrame(Restored(s), Connect, 0, 0); }
    case Materializes(id, fits, cloneable) =>
      if Find(s.pending, id).Some? {
        FailFrame(Drop(s.(writing := s.writing - {id}), id), Find(s.pending, id).value, false);
      }
    case Mutes(gone) =>
  }

  lemma StillDisconnected(s: State)
    requires Valid(s) && s.frame.FinishDisconnect?
    ensures s.disconnected
  {
  }

  lemma FailFrame(s: State, e: Entry, cancel: bool)
    ensures var f := Fail(s, e, cancel).frame; f == s.frame || (f.FinishDisconnect? && !s.disconnected)
  {
  }

  lemma StartFrame(s: State, op: Op, target: Id, watchId: nat)
    ensures var f := Start(s, op, target, watchId).frame; f == s.frame || f.FinishDisconnect?
  {
    hide Fail;
    var b := Begun(s, op, target, watchId, CapabilityOf(op).Some?, true);
    FailFrame(b.0, b.1, false);
  }

  lemma CallFrame(s: State, call: Call)
    ensures var f := Invoke(s, call).frame; f == s.frame || f.FinishDisconnect?
  {
    hide Start, Fail;
    match call
    case GetCurrentPosition => StartFrame(s, LocationGet, 0, 0);
    case WatchPosition => WatchFrame(s);
    case ClearWatch(watchId) =>
      if FindWatch(s.pending, watchId).Some? {
        var id := FindWatch(s.pending, watchId).value.id;
        StartFrame(Drop(s, id), LocationClear, id, 0);
      }
    case RequestPermission => StartFrame(s, NotificationPermission, 0, 0);
    case NewNotification =>
      StartFrame(s.(notifications := s.notifications + {s.next}, built := s.built + {s.next}), NotificationShow, 0, 0);
    case CloseNotification(id) => StartFrame(s.(closed := s.closed + {id}), NotificationClose, id, 0);
    case CallReadText => StartFrame(s, ReadText, 0, 0);
    case CallWriteText => StartFrame(s, WriteText, 0, 0);
    case CallReadItems => StartFrame(s, ReadItems, 0, 0);
    case CallWriteItems =>
      var b := Begun(s, WriteItems, 0, 0, true, false);
      FailFrame(b.0, b.1, false);
  }

  lemma WatchFrame(s: State)
    ensures var f := StartWatch(s).frame; f == s.frame || f.FinishDisconnect?
  {
    hide Fail;
    var s1 := s.(next := s.next + 1, nextWatchId := if s.nextWatchId >= LAST_WATCH_ID then 1 else s.nextWatchId + 1);
    FailFrame(s1, Entry(s.next, LocationWatch, 0, s.nextWatchId, true, true, true), false);
  }

  lemma HandleFrame(s: State, e: Entry, r: Response, d: Detail)
    ensures var f := Handle(s, e, r, d).frame; f == s.frame || f.FinishDisconnect? || f == FinishNotification(e.id)
  {
  }

  lemma StepShows(s: State, a: Action, e: Entry)
    requires Valid(s) && Enabled(s, a) && Find(Held(s), e.id) == Some(e) && e.op == NotificationShow
    ensures ShowEnds(s, a, Next(s, a), e)
  {
    hide ShowEnds, Consistent, Spares, Invoke, Return, Expire, Materialize, Receive;
    ShowFacts(s, e);
    if e.id !in Subject(s, a) {
      Elsewhere(s, a, e.id);
      StepBuilds(s, a);
      FrameElsewhere(s, a, e.id);
      StaysShown(s, a, Next(s, a), e);
    } else {
      match a
      case Call(call) =>
        if call.ClearWatch? { WatchHeldIs(s, call.watchId, e); } else { InvokeClose(s, call.id); CloseEnds(s, e); }
      case Returns => ShowReturns(s, e);
      case Hears(r, d) => HearsAbout(s, r, d, e);
      case Expires(id) => ExpiresAbout(s, id, e);
      case Materializes(id, fits, cloneable) =>
        NothingWritten(s, id, fits, cloneable);
        AsideSpares(s, s, e.id);
        StaysShown(s, a, s, e);
    }
  }

  lemma InvokeClose(s: State, id: Id)
    ensures Invoke(s, CloseNotification(id)) == CloseBuilt(s, id)
  {
  }

  lemma NothingWritten(s: State, id: Id, fits: bool, cloneable: bool)
    requires id !in s.writing
    ensures Materialize(s, id, fits, cloneable) == s
  {
  }

  lemma WatchHeldIs(s: State, watchId: nat, e: Entry)
    requires Valid(s) && Find(Held(s), e.id) == Some(e) && e.id in About(FindWatch(s.pending, watchId))
    ensures e.op == LocationWatch
  {
    SameFound(s.pending, FindWatch(s.pending, watchId).value, e);
  }

  /********** Every notification of a run **********/

  // A message, since position n, that posts notification x.
  predicate Shows1(out: seq<Message>, n: nat, i: nat, x: Id) {
    n <= i < |out| && out[i].Request? && out[i].op == NotificationShow && out[i].id == x
  }

  ghost predicate Watched(s: State, n: nat, m: Message, answered: bool, silenced: bool, late: bool)
    requires m.Request?
  {
    var e := Find(Held(s), m.id);
    && m.id < s.next && m.id in s.built
    && if e.Some? then
         && e.value.op == NotificationShow && s.clientId == m.client
         && (s.frame == FinishNotification(m.id) ==> answered)
         && (m.id in s.closed && !s.frame.FinishDisconnect? ==> Forgotten(s.out, n, m))
       else Forgotten(s.out, n, m) || answered || silenced || late
  }

  lemma ForgottenStays(out: seq<Message>, out': seq<Message>, n: nat, m: Message)
    requires m.Request? && out <= out' && Forgotten(out, n, m)
    ensures Forgotten(out', n, m)
  {
    var i :| n <= i < |out| && Forgets(out[i], m.client, m.op, m.id);
    assert Forgets(out'[i], m.client, m.op, m.id);
  }

  lemma ToldIsForgotten(s: State, s': State, n: nat, m: Message)
    requires m.Request? && n <= |s.out| && s.clientId == m.client && Told(s, s', m.op, m.id)
    ensures Forgotten(s'.out, n, m)
  {
    var i :| |s.out| <= i < |s'.out| && Forgets(s'.out[i], s.clientId, m.op, m.id);
    assert Forgets(s'.out[i], m.client, m.op, m.id);
  }

  lemma OldWatched(s: State, a: Action, n: nat, m: Message, answered: bool, silenced: bool, late: bool)
    requires Valid(s) && Enabled(s, a) && n <= |s.out| && m.Request? && m.op == NotificationShow
    requires Watched(s, n, m, answered, silenced, late)
    ensures Watched(Next(s, a), n, m, answered || Does(s, a, m.id, Answer), silenced || Does(s, a, m.id, Silence),
                    late || Does(s, a, m.id, LateClose))
  {
    hide Valid, Next, ShowEnds, Forgotten, Posts, Fewer, Answered, Told;
    var s' := Next(s, a);
    StepPosts(s, a);
    PostsNext(s, s');
    StepStaysBuilt(s, a, m.id);
    if Forgotten(s.out, n, m) { ForgottenStays(s.out, s'.out, n, m); }
    var e := Find(Held(s), m.id);
    if e.Some? {
      StepShows(s, a, e.value);
      if Told(s, s', m.op, m.id) { ToldIsForgotten(s, s', n, m); }
      ShowEndsWatched(s, a, s', e.value, n, m, answered, silenced, late);
    } else {
      StepFewer(s, a, m.id);
      FewerNone(s, s', m.id);
    }
  }

  lemma FewerNone(s: State, s': State, x: Id)
    requires Fewer(s, s', x) && Find(Held(s), x).None?
    ensures Find(Held(s'), x).None?
  {
  }

  lemma ShowEndsWatched(s: State, a: Action, s': State, e: Entry, n: nat, m: Message, answered: bool, silenced: bool,
                        late: bool)
    requires ShowEnds(s, a, s', e) && e.op == NotificationShow && Find(Held(s), e.id) == Some(e) && Enabled(s, a)
    requires m.Request? && m.id == e.id && m.op == NotificationShow && s' == Next(s, a)
    requires Watched(s, n, m, answered, silenced, late) && m.id < s'.next && m.id in s'.built
    requires Told(s, s', m.op, m.id) || Forgotten(s.out, n, m) ==> Forgotten(s'.out, n, m)
    ensures Watched(s', n, m, answered || Does(s, a, m.id, Answer), silenced || Does(s, a, m.id, Silence),
                    late || Does(s, a, m.id, LateClose))
  {
    hide Next, Forgotten, Answered, Told, Held;
  }

  lemma StepStaysBuilt(s: State, a: Action, x: Id)
    requires Enabled(s, a) && x in s.built
    ensures x in Next(s, a).built
  {
    hide Next;
    StepBuilds(s, a);
  }

  lemma NewWatched(s: State, s': State, n: nat, i: nat, x: Id, answered: bool, silenced: bool, late: bool)
    requires Valid(s) && Valid(s') && Posts(s, s') && |s.out| <= i && Shows1(s'.out, n, i, x)
    ensures Watched(s', n, s'.out[i], answered, silenced, late)
  {
    hide Consistent, Forgotten;
    HeldBelow(s', x);
    FrameIsOld(s, x);
  }

  lemma FrameIsOld(s: State, x: Id)
    requires Valid(s) && x >= s.next
    ensures s.frame != FinishNotification(x)
  {
  }

  ghost predicate AllWatched(s: State, n: nat, x: Id, answered: bool, silenced: bool, late: bool) {
    n <= |s.out| && forall i: nat :: Shows1(s.out, n, i, x) ==> Watched(s, n, s.out[i], answered, silenced, late)
  }

  lemma WatchedStep(s: State, a: Action, n: nat, x: Id, answered: bool, silenced: bool, late: bool)
    requires Valid(s) && Enabled(s, a) && AllWatched(s, n, x, answered, silenced, late)
    ensures AllWatched(Next(s, a), n, x, answered || Does(s, a, x, Answer), silenced || Does(s, a, x, Silence),
                       late || Does(s, a, x, LateClose))
  {
    hide Valid, Next, Watched, Does;
    var s' := Next(s, a);
    StepPosts(s, a);
    PostsNext(s, s');
    NextKeepsValid(s, a);
    forall i: nat | Shows1(s'.out, n, i, x)
      ensures Watched(s', n, s'.out[i], answered || Does(s, a, x, Answer), silenced || Does(s, a, x, Silence),
                      late || Does(s, a, x, LateClose))
    {
      if i < |s.out| {
        assert s'.out[i] == s.out[i] && Shows1(s.out, n, i, x);
        OldWatched(s, a, n, s.out[i], answered, silenced, late);
      } else {
        NewWatched(s, s', n, i, x, answered || Does(s, a, x, Answer), silenced || Does(s, a, x, Silence),
                   late || Does(s, a, x, LateClose));
      }
    }
  }

  lemma WatchedStart(before: State, x: Id)
    ensures AllWatched(Boot(before), |before.out|, x, false, false, false)
  {
    BootKeeps(before);
    ConnectPosts(Booted(before));
    BootedIsValid(before);
  }

  lemma {:induction false} WatchedRun(before: State, actions: seq<Action>, x: Id)
    ensures var s0, s := Boot(before), After(Boot(before), actions);
            AllWatched(s, |before.out|, x, Done(s0, actions, x, Answer), Done(s0, actions, x, Silence),
                       Done(s0, actions, x, LateClose))
    decreases |actions|
  {
    hide AllWatched, Valid, Done, Next, Does;
    var s0, n := Boot(before), |before.out|;
    if actions == [] {
      NothingDone(s0, x);
      WatchedStart(before, x);
    } else {
      var rest, a := actions[..|actions| - 1], actions[|actions| - 1];
      assert actions == rest + [a];
      WatchedRun(before, rest, x);
      Extends(s0, rest, a);
      DoneMore(s0, rest, a, x, Answer);
      DoneMore(s0, rest, a, x, Silence);
      DoneMore(s0, rest, a, x, LateClose);
      BootKeeps(before);
      AfterKeepsValid(s0, rest);
      var s := After(s0, rest);
      if Enabled(s, a) {
        WatchedStep(s, a, n, x, Done(s0, rest, x, Answer), Done(s0, rest, x, Silence), Done(s0, rest, x, LateClose));
      } else {
        NotEnabled(s, a, x);
      }
    }
  }

  /**
   In every run, a posted notification is retained by this session, or the parent was told to close it, or an answer
   refused or ended it, or it went while posting did not work, or its close() came when the table was full.
   */
  lemma NotificationsAreClosed(before: State, actions: seq<Action>, i: nat)
    requires var out := After(Boot(before), actions).out;
             |before.out| <= i < |out| && out[i].Request? && out[i].op == NotificationShow
    ensures var s0, s, m := Boot(before), After(Boot(before), actions), After(Boot(before), actions).out[i];
            if Find(Held(s), m.id).Some? then m.client == s.clientId
            else || Forgotten(s.out, |before.out|, m) || Done(s0, actions, m.id, Answer)
                 || Done(s0, actions, m.id, Silence) || Done(s0, actions, m.id, LateClose)
  {
    hide Done, Boot, Held, Forgotten;
    var s := After(Boot(before), actions);
    WatchedRun(before, actions, s.out[i].id);
    assert Shows1(s.out, |before.out|, i, s.out[i].id);
  }

  /** close() tells the parent at once if and only if it is the first, posting works and the table has room. */
  lemma CloseTellsExactly(s: State, x: Id)
    requires Valid(s) && x in s.built
    ensures Told(s, CloseBuilt(s, x), NotificationShow, x)
       <==> x !in s.closed && !s.disconnected && |s.pending| < MAX_OPERATIONS && !s.mute
  {
    hide Consistent, Fail, CloseBuilt;
    CloseShape(s, x);
    var s' := CloseBuilt(s, x);
    var tells := x !in s.closed && !s.disconnected && |s.pending| < MAX_OPERATIONS && !s.mute;
    if x !in s.closed { FailBuildsNothing(Closing(s, x), CloseEntry(s, x)); }
    OneTold(s, s', NotificationShow, x, tells, s.next);
  }

  lemma FailBuildsNothing(s: State, e: Entry)
    requires e.op == NotificationClose
    ensures Fail(s, e, false).out == s.out
  {
  }

  /********** When a request goes **********/

  // The step that takes a retained lookup, watch, permission request or clipboard call out of the table.
  predicate Leaves(s: State, a: Action, e: Entry) {
    match a
    case Call(call) => call.ClearWatch? && FindWatch(s.pending, call.watchId) == Some(e)
    case Returns => s.frame.FinishDisconnect? && s.frame.rest != [] && s.frame.rest[0] == e
    case Hears(r, d) => Answered(s, a, e.id)
    case Expires(id) => id == e.id && e.timer
    case Materializes(id, fits, cloneable) => id == e.id && id in s.writing && !(fits && cloneable && !s.mute)
    case _ => false
  }

  lemma OthersStay(s: State, a: Action, e: Entry)
    requires Valid(s) && Enabled(s, a) && Find(Held(s), e.id) == Some(e) && Waited(e) && e.id !in Subject(s, a)
    ensures Find(Held(Next(s, a)), e.id).Some? && !Leaves(s, a, e)
  {
    hide Next, Consistent;
    WaitedFacts(s, e);
    Elsewhere(s, a, e.id);
  }

  lemma CallGoes(s: State, call: Call, e: Entry)
    requires Valid(s) && Find(Held(s), e.id) == Some(e) && Waited(e) && e.id in Subject(s, Action.Call(call))
    ensures Find(Held(Invoke(s, call)), e.id).None? <==> Leaves(s, Action.Call(call), e)
  {
    hide Consistent, Start;
    WaitedFacts(s, e);
    if call.ClearWatch? {
      WatchAlone(s, call.watchId, e);
      WatchStands(s, e);
      ClearTells(s, e);
    }
  }

  lemma ReturnGoes(s: State, e: Entry)
    requires Valid(s) && s.frame != Idle && Find(Held(s), e.id) == Some(e) && Waited(e) && e.id in Subject(s, Returns)
    ensures Find(Held(Return(s)), e.id).None? && Leaves(s, Returns, e)
  {
    WaitedFacts(s, e);
    var rest := s.frame.rest;
    TailFacts(rest);
    FailTells(s.(frame := FinishDisconnect(rest[1..])), e);
    NotInTail(rest, e);
  }

  lemma ExpireGoes(s: State, e: Entry)
    requires Valid(s) && s.frame == Idle && Find(s.pending, e.id) == Some(e) && Waited(e)
    ensures Find(Held(Expire(s, e.id)), e.id).None? <==> e.timer
  {
    hide Consistent;
    WaitedFacts(s, e);
    FindRemove(s.pending, e.id, e.id);
    if e.timer { FailTells(Drop(s, e.id), e); }
  }

  lemma MaterializeGoes(s: State, fits: bool, cloneable: bool, e: Entry)
    requires Valid(s) && s.frame == Idle && Find(s.pending, e.id) == Some(e) && Waited(e)
    ensures var a := Materializes(e.id, fits, cloneable);
            Find(Held(Materialize(s, e.id, fits, cloneable)), e.id).None? <==> Leaves(s, a, e)
  {
    hide Consistent;
    WaitedFacts(s, e);
    FindRemove(s.pending, e.id, e.id);
    FindChange(s.pending, e.id, false, e.id);
  }

  /**
   A retained lookup, watch, permission request or clipboard call goes exactly when the page clears the watch, when an
   answer of this session ends it, when its deadline fires, when its disconnect comes to it, or when what it writes does
   not fit or cannot be posted.
   */
  lemma GoesExactly(s: State, a: Action, e: Entry)
    requires Valid(s) && Enabled(s, a) && Find(Held(s), e.id) == Some(e) && Waited(e)
    ensures Find(Held(Next(s, a)), e.id).None? <==> Leaves(s, a, e)
  {
    hide Consistent, Invoke, Return, Expire, Materialize, Handle, EndsBy;
    if e.id !in Subject(s, a) { OthersStay(s, a, e); }
    else {
      WaitedFacts(s, e);
      match a
      case Call(call) => CallGoes(s, call, e);
      case Returns => ReturnGoes(s, e);
      case Hears(r, d) =>
        AboutWaited(s, r.id, e);
        if r.client == s.clientId { HearEnds(s, r, d, e); }
      case Expires(id) =>
        AboutWaited(s, id, e);
        ExpireGoes(s, e);
      case Materializes(id, fits, cloneable) => MaterializeGoes(s, fits, cloneable, e);
    }
  }
}
