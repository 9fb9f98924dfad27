/**
 The preview shim as its closure keeps it: a table of pending requests and a few flags that every function
 of the shim updates in place (apps/server/src/project-browser-permissions.ts). Each method runs one step
 of ShimSpec on the fields, so what is proved about those steps holds of the object.
 */
module Shim {
  import opened Wrappers
  import opened Protocol
  import opened ShimSpec
  import I = ShimInvariant

  // What every callback leaves behind: the invariant with the three limits, and every lookup and promise either told
  // its outcome once or retained.
  ghost predicate Kept(s: State) {
    && I.Valid(s)
    && |s.pending| <= MAX_OPERATIONS && Awaiting(s.pending) <= MAX_CONSENT && Watches(s.pending) <= MAX_WATCHING
    && I.DistinctIds(s.settled)
    && (forall x :: x in s.started <==> x in s.settled || x in I.OneShots(I.Held(s)))
    && (forall x :: x in s.settled ==> x !in I.OneShots(I.Held(s)))
  }

  lemma CallbackKeeps(s: State, a: Action)
    requires I.Valid(s) && Enabled(s, a)
    ensures Kept(Next(s, a))
  {
    I.NextKeepsValid(s, a);
    ValidIsKept(Next(s, a));
  }

  lemma MaterializeKeeps(s: State, id: Id, fits: bool, cloneable: bool)
    requires I.Valid(s) && s.frame == Idle
    ensures Kept(Materialize(s, id, fits, cloneable))
  {
    hide Kept, I.Valid, Materialize;
    CallbackKeeps(s, Materializes(id, fits, cloneable));
  }

  lemma HideKeeps(s: State)
    requires I.Valid(s) && s.frame == Idle
    ensures Kept(PageHide(s))
  {
    hide Kept, I.Valid, PageHide;
    CallbackKeeps(s, Hides);
  }

  lemma ValidIsKept(s: State)
    requires I.Valid(s)
    ensures Kept(s)
  {
    assert Awaiting([]) == 0 && Watches([]) == 0;
  }

  lemma {:induction false} RemoveAbsent(p: seq<Entry>, id: Id)
    requires Find(p, id).None?
    ensures Remove(p, id) == p
  {
    if p != [] { RemoveAbsent(p[1..], id); }
  }

  lemma FirstWatch(p: seq<Entry>, i: nat, watchId: nat)
    requires i < |p|
    ensures FindWatch(p[i..], watchId)
         == if p[i].op == LocationWatch && p[i].watchId == watchId then Some(p[i]) else FindWatch(p[i + 1..], watchId)
  {
    assert p[i..][0] == p[i] && p[i..][1..] == p[i + 1..];
  }

  class PermissionShim {
    var clientId: Client
    var next: nat
    var pending: seq<Entry>
    var notifications: set<Id>
    var built: set<Id>
    var closed: set<Id>
    var disconnected: bool
    var pageHidden: bool
    var notificationPermission: Permission
    var nextWatchId: nat
    var writing: set<Id>
    var mute: bool
    var frame: Frame
    var settled: seq<Id>
    ghost var out: seq<Message>
    ghost var started: seq<Id>

    ghost function View(): State
      reads this
    {
      State(clientId, next, pending, notifications, built, closed, disconnected, pageHidden, notificationPermission,
            nextWatchId,
            writing, mute, frame, out, started, settled)
    }

    constructor ()
      ensures View() == Boot(BLANK) && Kept(View())
    {
      clientId, next, pending, notifications, built, closed := 1, 2, [], {}, {}, {};
      disconnected, pageHidden, notificationPermission, nextWatchId := false, false, Default, 1;
      writing, mute, frame, settled, out, started := {}, false, Idle, [], [], [];
      new;
      Begin(Connect, 0, 0);
      I.BootKeeps(BLANK);
      ValidIsKept(Boot(BLANK));
    }

    /********** Posting and the table **********/

    method PostRequest(op: Op, id: Id, target: Id)
      modifies this`out
      ensures View() == Post(old(View()), op, id, target)
    {
      if !mute { out := out + [Request(clientId, id, op, target)]; }
    }

    method Identifier() returns (id: Id)
      modifies this`next
      ensures id == old(next) && View() == old(View()).(next := old(next) + 1)
    {
      id := next;
      next := next + 1;
    }

    // cancelGeolocation, cancelNotification and cancelClipboard.
    method CancelRequest(op: Op, target: Id)
      modifies this`next, this`out
      ensures View() == Cancel(old(View()), op, target)
    {
      var id := Identifier();
      PostRequest(op, id, target);
    }

    method CountAwaiting() returns (count: nat)
      ensures count == Awaiting(pending)
    {
      count := 0;
      for i := 0 to |pending|
        invariant count + Awaiting(pending[i..]) == Awaiting(pending)
      {
        assert pending[i..][0] == pending[i] && pending[i..][1..] == pending[i + 1..];
        if !pending[i].awaiting { continue; }
        count := count + 1;
      }
    }

    method CountWatches() returns (count: nat)
      ensures count == Watches(pending)
    {
      count := 0;
      for i := 0 to |pending|
        invariant count + Watches(pending[i..]) == Watches(pending)
      {
        assert pending[i..][0] == pending[i] && pending[i..][1..] == pending[i + 1..];
        if pending[i].op != LocationWatch { continue; }
        count := count + 1;
      }
    }

    method RemovePending(id: Id)
      modifies this`pending
      ensures View() == Drop(old(View()), id)
    {
      if Find(pending, id).None? {
        RemoveAbsent(pending, id);
        return;
      }
      pending := Remove(pending, id);
    }

    // Clear the deadline of an acknowledged request, which no longer awaits consent.
    method ClearDeadline(id: Id)
      modifies this`pending
      ensures View() == Acknowledge(old(View()), id)
    {
      pending := Change(pending, id, true);
    }

    method SettleEntry(id: Id)
      modifies this`settled
      ensures View() == Settle(old(View()), id)
    {
      settled := settled + [id];
    }

    method Forgets(id: Id)
      modifies this`notifications
      ensures View() == Forget(old(View()), id)
    {
      notifications := notifications - {id};
    }

    // The retained requests are failed one by one, each from its own application callback.
    method Disconnect()
      modifies this`disconnected, this`pending, this`frame
      ensures View() == Sever(old(View()))
    {
      if disconnected { return; }
      disconnected := true;
      frame := FinishDisconnect(pending);
      pending := [];
    }

    method FailEntry(e: Entry, cancel: bool)
      modifies this
      ensures View() == Fail(old(View()), e, cancel)
    {
      match e.op
      case Connect => Disconnect();
      case LocationGet =>
        if cancel { CancelRequest(LocationClear, e.id); }
        SettleEntry(e.id);
      case LocationWatch =>
        if cancel { CancelRequest(LocationClear, e.id); }
      case LocationClear =>
      case NotificationPermission =>
        if e.id in settled { return; }
        if cancel { CancelRequest(NotificationClose, e.id); }
        SettleEntry(e.id);
      case NotificationShow =>
        if cancel { CancelRequest(NotificationClose, e.id); }
        Forgets(e.id);
      case NotificationClose =>
        RemovePending(e.target);
        Forgets(e.target);
      case ClipboardCancel =>
      case _ =>
        if e.id in settled { return; }
        if cancel && e.posted { CancelRequest(ClipboardCancel, e.id); }
        SettleEntry(e.id);
    }

    method HasRoom(awaiting: bool) returns (room: bool)
      ensures room <==> !Full(View(), awaiting)
    {
      if |pending| >= MAX_OPERATIONS { return false; }
      if !awaiting { return true; }
      var count := CountAwaiting();
      room := count < MAX_CONSENT;
    }

    method StartRequest(e: Entry)
      modifies this
      ensures View() == ShimSpec.StartRequest(old(View()), e)
    {
      if disconnected { FailEntry(e, false); return; }
      var room := HasRoom(e.awaiting);
      if !room || mute { FailEntry(e, false); return; }
      pending := pending + [e];
      PostRequest(e.op, e.id, e.target);
    }

    method ReserveRequest(e: Entry)
      modifies this
      ensures View() == Reserve(old(View()), e)
    {
      if disconnected { FailEntry(e, false); return; }
      var room := HasRoom(true);
      if !room { FailEntry(e, false); return; }
      pending := pending + [e];
      writing := writing + {e.id};
    }

    method Begin(op: Op, target: Id, watchId: nat)
      modifies this
      ensures View() == Start(old(View()), op, target, watchId)
    {
      hide ShimSpec.StartRequest;
      if OneShot(op) { started := started + [next]; }
      var id := Identifier();
      StartRequest(Entry(id, op, target, watchId, CapabilityOf(op).Some?, true, true));
    }

    /********** What the application calls **********/

    method WatchPosition() returns (watchId: nat)
      modifies this
      ensures watchId == old(nextWatchId) && View() == StartWatch(old(View()))
    {
      var id := Identifier();
      watchId := nextWatchId;
      nextWatchId := if nextWatchId >= LAST_WATCH_ID then 1 else nextWatchId + 1;
      var count := CountWatches();
      if count >= MAX_WATCHING { return; }
      StartRequest(Entry(id, LocationWatch, 0, watchId, true, true, true));
    }

    method ClearWatch(watchId: nat)
      modifies this
      ensures View() == StopWatch(old(View()), watchId)
    {
      assert pending[0..] == pending;
      for i := 0 to |pending|
        invariant View() == old(View()) && pending == old(pending)
        invariant FindWatch(pending, watchId) == FindWatch(pending[i..], watchId)
      {
        FirstWatch(pending, i, watchId);
        if pending[i].op != LocationWatch || pending[i].watchId != watchId { continue; }
        var request := pending[i].id;
        RemovePending(request);
        Begin(LocationClear, request, 0);
        return;
      }
    }

    method ShowNotification()
      modifies this
      ensures View() == BuildNotification(old(View()))
    {
      if notificationPermission != Granted { return; }
      var room := HasRoom(true);
      if !room { return; }
      notifications := notifications + {next};
      built := built + {next};
      Begin(NotificationShow, 0, 0);
    }

    method Close(id: Id)
      modifies this
      ensures View() == CloseBuilt(old(View()), id)
    {
      if id !in built || id in closed { return; }
      closed := closed + {id};
      Begin(NotificationClose, id, 0);
    }

    method WriteClipboard()
      modifies this
      ensures View() == ReserveWrite(old(View()))
    {
      hide Reserve;
      started := started + [next];
      var id := Identifier();
      ReserveRequest(Entry(id, WriteItems, 0, 0, true, true, false));
    }

    method OnCall(call: Call)
      requires I.Valid(View())
      modifies this
      ensures View() == Invoke(old(View()), call)
      ensures Kept(View())
    {
      hide I.Valid, Kept;
      CallbackKeeps(View(), Action.Call(call));
      match call
      case GetCurrentPosition => Begin(LocationGet, 0, 0);
      case WatchPosition => var _ := WatchPosition();
      case ClearWatch(watchId) => ClearWatch(watchId);
      case RequestPermission => Begin(NotificationPermission, 0, 0);
      case NewNotification => ShowNotification();
      case CloseNotification(id) => Close(id);
      case CallReadText => Begin(ReadText, 0, 0);
      case CallWriteText => Begin(WriteText, 0, 0);
      case CallReadItems => Begin(ReadItems, 0, 0);
      case CallWriteItems => WriteClipboard();
    }

    /********** Answers of the parent **********/

    method CompleteEntry(id: Id)
      modifies this`pending, this`settled
      ensures View() == Settle(Drop(old(View()), id), id)
    {
      RemovePending(id);
      SettleEntry(id);
    }

    method OnWatchAnswer(e: Entry, r: Response, d: Detail)
      modifies this`pending
      ensures View() == HandleWatch(old(View()), e, r, d)
    {
      if r.about.Some? && r.about.value != e.id { return; }
      if r.status == Denied { RemovePending(e.id); return; }
      if !d.fit { return; }
      if r.status == Failed && d.terminal { RemovePending(e.id); return; }
      ClearDeadline(e.id);
    }

    method OnPermissionAnswer(e: Entry, r: Response, d: Detail)
      modifies this`pending, this`settled, this`notificationPermission
      ensures View() == HandlePermission(old(View()), e, r, d)
    {
      if r.status == Denied { notificationPermission := Blocked; CompleteEntry(e.id); return; }
      if r.status == Failed { CompleteEntry(e.id); return; }
      if d.permission.None? { return; }
      notificationPermission := d.permission.value;
      CompleteEntry(e.id);
    }

    method OnShowAnswer(e: Entry, r: Response)
      modifies this`pending, this`notifications, this`frame
      ensures View() == HandleShow(old(View()), e, r)
    {
      if r.about.Some? && r.about.value != e.id { return; }
      if r.status != Ok {
        RemovePending(e.id);
        Forgets(e.id);
        return;
      }
      ClearDeadline(e.id);
      if r.event == Closed || r.event == Errored { frame := FinishNotification(e.id); }
    }

    method OnCloseAnswer(e: Entry, r: Response)
      modifies this`pending, this`notifications
      ensures View() == HandleClose(old(View()), e, r)
    {
      if r.about.Some? && r.about.value != e.target { return; }
      RemovePending(e.id);
      if r.status != Ok {
        RemovePending(e.target);
        Forgets(e.target);
      }
    }

    method OnConnectAnswer(e: Entry, r: Response, d: Detail)
      modifies this
      ensures View() == HandleConnect(old(View()), e, r, d)
    {
      RemovePending(e.id);
      if r.status != Ok { Disconnect(); }
      else if d.permission.Some? { notificationPermission := d.permission.value; }
    }

    method OnAnswer(e: Entry, r: Response, d: Detail)
      modifies this
      ensures View() == Handle(old(View()), e, r, d)
    {
      match e.op
      case Connect => OnConnectAnswer(e, r, d);
      case LocationGet => if r.status == Denied || d.fit { CompleteEntry(e.id); }
      case LocationWatch => OnWatchAnswer(e, r, d);
      case LocationClear => RemovePending(e.id);
      case NotificationPermission => OnPermissionAnswer(e, r, d);
      case NotificationShow => OnShowAnswer(e, r);
      case NotificationClose => OnCloseAnswer(e, r);
      case ClipboardCancel =>
      case _ => if d.fit { CompleteEntry(e.id); }
    }

    method OnResponse(r: Response, d: Detail)
      requires I.Valid(View()) && frame == Idle
      modifies this
      ensures View() == Receive(old(View()), r, d)
      ensures Kept(View())
    {
      hide I.Valid, Kept;
      CallbackKeeps(View(), Hears(r, d));
      if r.client != clientId { return; }
      match Find(pending, r.id)
      case None =>
      case Some(e) => OnAnswer(e, r, d);
    }

    /********** Deadlines, page events and late reads **********/

    method OnDeadline(id: Id)
      requires I.Valid(View()) && frame == Idle
      modifies this
      ensures View() == Expire(old(View()), id)
      ensures Kept(View())
    {
      hide I.Valid, Kept;
      CallbackKeeps(View(), Expires(id));
      match Find(pending, id)
      case None =>
      case Some(e) =>
        if !e.timer { return; }
        RemovePending(id);
        FailEntry(e, true);
    }

    method OnPageHide()
      requires I.Valid(View()) && frame == Idle
      modifies this
      ensures View() == PageHide(old(View()))
      ensures Kept(View())
    {
      hide I.Valid, Kept;
      HideKeeps(View());
      pageHidden := true;
      next := next + 1;
      if !mute { out := out + [Protocol.Disconnect(clientId)]; }
      Disconnect();
    }

    method OnPageShow()
      requires I.Valid(View()) && frame == Idle
      modifies this
      ensures View() == PageShow(old(View()))
      ensures Kept(View())
    {
      hide Start, I.Valid, Kept;
      CallbackKeeps(View(), Shows);
      if !pageHidden { return; }
      Restore();
      Begin(Connect, 0, 0);
    }

    // The restored document starts under a new name with an empty table.
    method Restore()
      modifies this
      ensures View() == I.Restored(old(View()))
    {
      Rename();
      ClearTable();
      notificationPermission, disconnected, pageHidden, nextWatchId := Default, false, false, 1;
    }

    method Rename()
      modifies this`clientId, this`next
      ensures View() == old(View()).(clientId := old(next), next := old(next) + 1)
    {
      clientId := Identifier();
    }

    method ClearTable()
      modifies this`pending, this`notifications
      ensures View() == old(View()).(pending := [], notifications := {})
    {
      pending, notifications := [], {};
    }

    // The data of a rich write was read, or its reading failed.
    method OnMaterialized(id: Id, fits: bool, cloneable: bool)
      requires I.Valid(View()) && frame == Idle
      modifies this
      ensures View() == Materialize(old(View()), id, fits, cloneable)
      ensures Kept(View())
    {
      hide I.Valid, Kept;
      MaterializeKeeps(View(), id, fits, cloneable);
      if id !in writing { return; }
      writing := writing - {id};
      match Find(pending, id)
      case None =>
      case Some(e) =>
        if !fits { CompleteEntry(id); return; }
        if mute || !cloneable {
          RemovePending(id);
          FailEntry(e, false);
          return;
        }
        PostRequest(WriteItems, id, 0);
        pending := Change(pending, id, false);
    }

    // An application callback returned: finish what it interrupted.
    method OnReturn()
      requires I.Valid(View()) && frame != Idle
      modifies this
      ensures View() == Return(old(View()))
      ensures Kept(View())
    {
      hide I.Valid, Kept;
      CallbackKeeps(View(), Returns);
      match frame
      case Idle =>
      case FinishNotification(id) =>
        frame := Idle;
        RemovePending(id);
        Forgets(id);
      case FinishDisconnect(rest) =>
        if rest == [] {
          frame := Idle;
          notifications := {};
        } else {
          frame := FinishDisconnect(rest[1..]);
          FailEntry(rest[0], true);
        }
    }
  }
}
