/**
 What every step of the shim keeps: its three limits, and an account of every lookup and promise it began.
 */
module ShimInvariant {
  import opened Wrappers
  import opened Protocol
  import opened ShimSpec

  /********** Tables **********/

  ghost predicate Distinct(p: seq<Entry>) {
    forall i, j :: 0 <= i < j < |p| ==> p[i].id != p[j].id
  }

  // Requests whose outcome the application still expects once.
  ghost function OneShots(p: seq<Entry>): set<Id> { set e | e in p && OneShot(e.op) :: e.id }

  // Requests that may wait for the user's consent in the parent.
  ghost function Waits(p: seq<Entry>): set<Id> { set e | e in p && e.awaiting && e.posted :: e.id }

  lemma {:induction false} RemoveFacts(p: seq<Entry>, id: Id)
    ensures |Remove(p, id)| <= |p| && Awaiting(Remove(p, id)) <= Awaiting(p) && Watches(Remove(p, id)) <= Watches(p)
    ensures Distinct(p) ==> Distinct(Remove(p, id))
    ensures (exists e :: e in p && e.id == id) ==> |Remove(p, id)| < |p|
  {
    if p != [] {
      RemoveFacts(p[1..], id);
      var rest := Remove(p[1..], id);
      assert forall e :: e in p ==> e == p[0] || e in p[1..];
      if Distinct(p) && p[0].id != id {
        forall e | e in rest ensures e.id != p[0].id {
          var i :| 0 <= i < |p[1..]| && p[1..][i] == e;
          assert p[i + 1] == e;
        }
        DistinctCons(p[0], rest);
      }
    }
  }

  lemma DistinctCons(e: Entry, p: seq<Entry>)
    requires Distinct(p) && forall x :: x in p ==> x.id != e.id
    ensures Distinct([e] + p)
  {
    var more := [e] + p;
    forall i, j | 0 <= i < j < |more| ensures more[i].id != more[j].id {
      assert more[j] == p[j - 1];
      if i > 0 { assert more[i] == p[i - 1]; }
    }
  }

  lemma {:induction false} SnocFacts(p: seq<Entry>, e: Entry)
    ensures Awaiting(p + [e]) == Awaiting(p) + (if e.awaiting then 1 else 0)
    ensures Watches(p + [e]) == Watches(p) + (if e.op == LocationWatch then 1 else 0)
  {
    if p == [] {
      assert p + [e] == [e];
    } else {
      assert (p + [e])[1..] == p[1..] + [e];
      SnocFacts(p[1..], e);
    }
  }

  lemma DistinctSnoc(p: seq<Entry>, e: Entry)
    requires Distinct(p) && forall x :: x in p ==> x.id != e.id
    ensures Distinct(p + [e])
  {
    var more := p + [e];
    forall i, j | 0 <= i < j < |more| ensures more[i].id != more[j].id {
      assert more[i] == p[i] && p[i] in p;
      if j < |p| { assert more[j] == p[j]; }
    }
  }

  function Changed(e: Entry, id: Id, acknowledged: bool): Entry {
    if e.id != id then e else if acknowledged then e.(awaiting := false, timer := false) else e.(posted := true)
  }

  lemma {:induction false} ChangeFacts(p: seq<Entry>, id: Id, acknowledged: bool)
    ensures |Change(p, id, acknowledged)| == |p|
    ensures forall i :: 0 <= i < |p| ==> Change(p, id, acknowledged)[i] == Changed(p[i], id, acknowledged)
    ensures Awaiting(Change(p, id, acknowledged)) <= Awaiting(p) && Watches(Change(p, id, acknowledged)) == Watches(p)
  {
    if p != [] { ChangeFacts(p[1..], id, acknowledged); }
  }

  lemma ChangeMembers(p: seq<Entry>, id: Id, acknowledged: bool, e: Entry)
    ensures e in Change(p, id, acknowledged) <==> exists x :: x in p && e == Changed(x, id, acknowledged)
  {
    ChangeFacts(p, id, acknowledged);
    var q := Change(p, id, acknowledged);
    if e in q {
      var i :| 0 <= i < |q| && q[i] == e;
      assert p[i] in p && e == Changed(p[i], id, acknowledged);
    }
    if x :| x in p && e == Changed(x, id, acknowledged) {
      var i :| 0 <= i < |p| && p[i] == x;
      assert q[i] == e;
    }
  }

  // Two entries of one table with one id are one entry.
  lemma SameEntry(p: seq<Entry>, x: Entry, y: Entry)
    requires Distinct(p) && x in p && y in p && x.id == y.id
    ensures x == y
  {
    var i :| 0 <= i < |p| && p[i] == x;
    var j :| 0 <= j < |p| && p[j] == y;
    assert i == j;
  }

  lemma {:induction false} WaitsSize(p: seq<Entry>)
    ensures |Waits(p)| <= Awaiting(p)
  {
    if p == [] {
      assert Waits(p) == {};
    } else {
      WaitsSize(p[1..]);
      var here := if p[0].awaiting then {p[0].id} else {};
      assert Waits(p) <= here + Waits(p[1..]) by {
        forall x | x in Waits(p) ensures x in here + Waits(p[1..]) {
          var e :| e in p && e.awaiting && e.posted && e.id == x;
          if e != p[0] { assert e in p[1..]; }
        }
      }
      SubsetSize(Waits(p), here + Waits(p[1..]));
      assert |here + Waits(p[1..])| <= |here| + |Waits(p[1..])|;
    }
  }

  lemma SubsetSize<T>(a: set<T>, b: set<T>)
    requires a <= b
    ensures |a| <= |b|
  {
    assert b == a + (b - a);
  }

  /********** The invariant **********/

  // The retained requests: those of the table, or those that a disconnect has yet to fail.
  function Held(s: State): seq<Entry> { if s.frame.FinishDisconnect? then s.frame.rest else s.pending }

  ghost predicate EntryOk(s: State, e: Entry) {
    && e.id < s.next
    && (e.awaiting ==> CapabilityOf(e.op).Some? && e.timer)
    && (e.timer || e.op == LocationWatch || e.op == NotificationShow)
    && (!e.posted ==> e.op == WriteItems && e.awaiting)
    && (e.op == WriteItems ==> e.target == 0)
    && (e.id in s.writing ==> !e.posted)
    && (e.op == NotificationClose ==> e.target in s.built && e.target in s.closed)
    && (e.id in s.built <==> e.op == NotificationShow)
    && (OneShot(e.op) ==> e.id in s.started)
  }

  ghost predicate LimitsOk(p: seq<Entry>) {
    |p| <= MAX_OPERATIONS && Awaiting(p) <= MAX_CONSENT && Watches(p) <= MAX_WATCHING
  }

  ghost predicate DistinctIds(q: seq<Id>) { forall i, j :: 0 <= i < j < |q| ==> q[i] != q[j] }

  // Every lookup and promise is settled, retained, or `loose`: taken out of the table and about to be settled.
  ghost predicate Accounted(started: seq<Id>, settled: seq<Id>, retained: set<Id>, loose: set<Id>) {
    && DistinctIds(started) && DistinctIds(settled)
    && (forall x :: x in started <==> x in settled || x in retained || x in loose)
    && (forall x :: x in settled ==> x !in retained && x !in loose)
    && retained !! loose
  }

  ghost predicate FrameOk(s: State) {
    && (s.frame.FinishDisconnect? ==> s.disconnected)
    && (s.frame.FinishNotification? ==> s.frame.id in s.built && s.frame.id !in Waits(s.pending))
    && (s.disconnected ==> s.pending == [])
    && (s.hidden ==> s.disconnected)
  }

  ghost predicate NamesOk(s: State) {
    && s.clientId < s.next
    && (forall x :: x in s.built ==> x < s.next)
    && s.closed <= s.built
    && (forall x :: x in s.writing ==> x < s.next && x !in s.built)
    && (forall x :: x in s.started ==> x < s.next && x !in s.built)
  }

  ghost predicate Consistent(s: State, loose: set<Id>) {
    && Distinct(Held(s))
    && (forall e :: e in Held(s) ==> EntryOk(s, e))
    && LimitsOk(Held(s))
    && Accounted(s.started, s.settled, OneShots(Held(s)), loose)
    && FrameOk(s)
    && NamesOk(s)
  }

  ghost predicate Valid(s: State) { Consistent(s, {}) }

  /********** Small updates **********/

  // Posting and the closed flags are not part of the account.
  lemma PostKeeps(s: State, op: Op, id: Id, target: Id, loose: set<Id>)
    requires Consistent(s, loose)
    ensures Consistent(Post(s, op, id, target), loose)
  {
    assert Held(Post(s, op, id, target)) == Held(s);
  }

  lemma NextKeeps(s: State, loose: set<Id>)
    requires Consistent(s, loose)
    ensures Consistent(s.(next := s.next + 1), loose)
  {
    assert Held(s.(next := s.next + 1)) == Held(s);
  }

  lemma CancelKeeps(s: State, op: Op, target: Id, loose: set<Id>)
    requires Consistent(s, loose)
    ensures Consistent(Cancel(s, op, target), loose)
  {
    NextKeeps(s, loose);
    PostKeeps(s.(next := s.next + 1), op, s.next, target, loose);
  }

  lemma ForgetKeeps(s: State, id: Id, loose: set<Id>)
    requires Consistent(s, loose)
    ensures Consistent(Forget(s, id), loose)
  {
    assert Held(Forget(s, id)) == Held(s);
  }

  lemma SettleKeeps(s: State, id: Id)
    requires Consistent(s, {id})
    ensures Consistent(Settle(s, id), {})
  {
    assert Held(Settle(s, id)) == Held(s);
  }

  lemma RemoveOneShots(p: seq<Entry>, id: Id)
    requires Distinct(p)
    ensures var e := Find(p, id);
            OneShots(Remove(p, id)) == OneShots(p) - {id}
            && OneShots(p) == OneShots(Remove(p, id)) + (if e.Some? && OneShot(e.value.op) then {id} else {})
    ensures Waits(Remove(p, id)) == Waits(p) - {id}
  {
    var q := Remove(p, id);
    forall x ensures x in OneShots(q) <==> x in OneShots(p) && x != id {
      if x in OneShots(p) && x != id {
        var y :| y in p && OneShot(y.op) && y.id == x;
        assert y in q;
      }
      if x in OneShots(q) {
        var y :| y in q && OneShot(y.op) && y.id == x;
        assert y in p;
      }
    }
    forall x ensures x in Waits(q) <==> x in Waits(p) && x != id {
      if x in Waits(p) && x != id {
        var y :| y in p && y.awaiting && y.posted && y.id == x;
        assert y in q;
      }
    }
    var e := Find(p, id);
    if id in OneShots(p) {
      var y :| y in p && OneShot(y.op) && y.id == id;
      SameEntry(p, y, e.value);
    }
  }

  // Taking request `id` out of the table.
  lemma DropKeeps(s: State, id: Id)
    requires Valid(s)
    ensures var e := Find(s.pending, id);
            Consistent(Drop(s, id), if e.Some? && OneShot(e.value.op) then {id} else {})
  {
    RemoveFacts(s.pending, id);
    if !s.frame.FinishDisconnect? { RemoveOneShots(s.pending, id); }
  }

  lemma SeverKeeps(s: State, loose: set<Id>)
    requires Consistent(s, loose) && (s.frame == Idle || s.disconnected)
    ensures Consistent(Sever(s), loose) && Sever(s).disconnected
  {
    assert Held(Sever(s)) == Held(s);
  }

  function Loose(e: Entry): set<Id> { if OneShot(e.op) then {e.id} else {} }

  lemma SettleCancelled(s: State, e: Entry, cancel: bool, op: Op)
    requires Consistent(s, {e.id})
    ensures Valid(Settle(if cancel then Cancel(s, op, e.id) else s, e.id))
  {
    if cancel { CancelKeeps(s, op, e.id, {e.id}); }
    SettleKeeps(if cancel then Cancel(s, op, e.id) else s, e.id);
  }

  // A show that its close gives up is no lookup and no promise.
  lemma DropShown(s: State, id: Id)
    requires Valid(s) && id in s.built
    ensures Valid(Forget(Drop(s, id), id))
  {
    DropKeeps(s, id);
    ForgetKeeps(Drop(s, id), id, {});
  }

  lemma FailNoticeKeeps(s: State, e: Entry, cancel: bool)
    requires Consistent(s, Loose(e)) && EntryOk(s, e) && (e.op == NotificationShow || e.op == NotificationClose)
    ensures Valid(Fail(s, e, cancel))
  {
    hide Accounted, Cancel;
    if e.op == NotificationClose {
      DropShown(s, e.target);
    } else {
      if cancel { CancelKeeps(s, NotificationClose, e.id, {}); }
      ForgetKeeps(if cancel then Cancel(s, NotificationClose, e.id) else s, e.id, {});
    }
  }

  // A lookup or a promise is told its failure, once.
  lemma FailOneShotKeeps(s: State, e: Entry, cancel: bool)
    requires Consistent(s, {e.id}) && OneShot(e.op)
    ensures Valid(Fail(s, e, cancel)) && e.id in Fail(s, e, cancel).settled
  {
    hide Cancel, Consistent, Settle;
    LooseUnsettled(s, e.id);
    SettledLast(s, e.id);
    SettledLast(Cancel(s, LocationClear, e.id), e.id);
    SettledLast(Cancel(s, NotificationClose, e.id), e.id);
    SettledLast(Cancel(s, ClipboardCancel, e.id), e.id);
    SettleCancelled(s, e, cancel, LocationClear);
    SettleCancelled(s, e, cancel, NotificationClose);
    SettleCancelled(s, e, cancel && e.posted, ClipboardCancel);
  }

  lemma SettledLast(s: State, id: Id)
    ensures id in Settle(s, id).settled
  {
    assert Settle(s, id).settled[|s.settled|] == id;
  }

  lemma LooseUnsettled(s: State, id: Id)
    requires Consistent(s, {id})
    ensures id !in s.settled
  {
  }

  lemma FailKeeps(s: State, e: Entry, cancel: bool)
    requires Consistent(s, Loose(e)) && EntryOk(s, e) && (e.op == Connect ==> s.frame == Idle || s.disconnected)
    ensures Valid(Fail(s, e, cancel))
    ensures OneShot(e.op) ==> e.id in Fail(s, e, cancel).settled
  {
    hide Consistent;
    if OneShot(e.op) {
      FailOneShotKeeps(s, e, cancel);
    } else if e.op == NotificationShow || e.op == NotificationClose {
      FailNoticeKeeps(s, e, cancel);
    } else if e.op == Connect {
      SeverKeeps(s, {});
    } else if e.op == LocationWatch && cancel {
      CancelKeeps(s, LocationClear, e.id, {});
    }
  }

  // A new entry joins the table.
  lemma AddOneShots(p: seq<Entry>, e: Entry)
    ensures OneShots(p + [e]) == OneShots(p) + Loose(e)
  {
    var q := p + [e];
    forall x ensures x in OneShots(q) <==> x in OneShots(p) || x in Loose(e) {
      if x in OneShots(q) {
        var y :| y in q && OneShot(y.op) && y.id == x;
        if y != e { assert y in p; }
      }
      if x in OneShots(p) {
        var y :| y in p && OneShot(y.op) && y.id == x;
        assert y in q;
      }
      if x in Loose(e) { assert e in q; }
    }
  }

  lemma AddKeeps(s: State, e: Entry)
    requires Consistent(s, Loose(e)) && EntryOk(s, e) && !s.disconnected && !Full(s, e.awaiting)
    requires forall x :: x in s.pending ==> x.id != e.id
    requires e.op == LocationWatch ==> Watches(s.pending) < MAX_WATCHING
    requires s.frame.FinishNotification? ==> s.frame.id != e.id
    ensures Valid(s.(pending := s.pending + [e]))
  {
    hide OneShots, Awaiting, Watches;
    var p, q := s.pending, s.pending + [e];
    SnocFacts(p, e);
    DistinctSnoc(p, e);
    AddOneShots(p, e);
    if s.frame.FinishNotification? {
      forall y | y in q && y.awaiting && y.posted ensures y.id != s.frame.id { assert y == e || y in p; }
    }
  }

  // A request whose id was just drawn.
  ghost predicate Starting(s: State, e: Entry) {
    && Consistent(s, Loose(e)) && EntryOk(s, e)
    && (forall x :: x in Held(s) ==> x.id != e.id)
    && (s.frame.FinishNotification? ==> s.frame.id != e.id)
    && (e.op == Connect ==> s.frame == Idle)
    && (e.op == LocationWatch ==> Watches(s.pending) < MAX_WATCHING)
  }

  lemma StartRequestKeeps(s: State, e: Entry)
    requires Starting(s, e)
    ensures Valid(StartRequest(s, e))
  {
    if s.disconnected || Full(s, e.awaiting) || s.mute {
      FailKeeps(s, e, false);
    } else {
      AddKeeps(s, e);
      PostKeeps(s.(pending := s.pending + [e]), e.op, e.id, e.target, {});
    }
  }

  lemma BegunStarts(s: State, op: Op, target: Id, watchId: nat, awaiting: bool, posted: bool)
    requires Valid(s) && (op == Connect ==> s.frame == Idle)
    requires (op == LocationWatch ==> Watches(s.pending) < MAX_WATCHING)
    requires awaiting ==> CapabilityOf(op).Some?
    requires !posted ==> op == WriteItems && awaiting
    requires op == NotificationClose ==> target in s.built && target in s.closed
    requires op != NotificationShow && s.next !in s.built
    requires op == WriteItems ==> target == 0
    ensures var b := Begun(s, op, target, watchId, awaiting, posted);
            Starting(b.0, b.1)
  {
    var b := Begun(s, op, target, watchId, awaiting, posted);
    assert Held(b.0) == Held(s);
  }

  lemma StartKeeps(s: State, op: Op, target: Id, watchId: nat)
    requires Valid(s) && (op == Connect ==> s.frame == Idle) && op != LocationWatch && op != NotificationShow
    requires (op == NotificationClose ==> target in s.built && target in s.closed) && (op == WriteItems ==> target == 0)
    ensures Valid(Start(s, op, target, watchId))
  {
    BegunStarts(s, op, target, watchId, CapabilityOf(op).Some?, true);
    var b := Begun(s, op, target, watchId, CapabilityOf(op).Some?, true);
    StartRequestKeeps(b.0, b.1);
  }

  /********** Calls **********/

  lemma CountWatch(s: State)
    requires Valid(s)
    ensures Valid(s.(next := s.next + 1, nextWatchId := if s.nextWatchId >= LAST_WATCH_ID then 1
                     else s.nextWatchId + 1))
  {
    assert Held(s.(next := s.next + 1, nextWatchId := if s.nextWatchId >= LAST_WATCH_ID then 1 else s.nextWatchId + 1))
           == Held(s);
  }

  // A watch that is about to start.
  lemma WatchStarts(s: State)
    requires Valid(s) && Watches(s.pending) < MAX_WATCHING
    ensures var s1 := s.(next := s.next + 1, nextWatchId := if s.nextWatchId >= LAST_WATCH_ID then 1
                         else s.nextWatchId + 1);
            Starting(s1, Entry(s.next, LocationWatch, 0, s.nextWatchId, true, true, true))
  {
    hide Accounted;
    CountWatch(s);
  }

  lemma StartWatchKeeps(s: State)
    requires Valid(s)
    ensures Valid(StartWatch(s))
  {
    hide Consistent, Starting, StartRequest;
    CountWatch(s);
    var s1 := s.(next := s.next + 1, nextWatchId := if s.nextWatchId >= LAST_WATCH_ID then 1 else s.nextWatchId + 1);
    if Watches(s.pending) < MAX_WATCHING {
      WatchStarts(s);
      StartRequestKeeps(s1, Entry(s.next, LocationWatch, 0, s.nextWatchId, true, true, true));
    }
  }

  lemma StopWatchKeeps(s: State, watchId: nat)
    requires Valid(s)
    ensures Valid(StopWatch(s, watchId))
  {
    var w := FindWatch(s.pending, watchId);
    if w.Some? {
      DropWatch(s, w.value);
      StartKeeps(Drop(s, w.value.id), LocationClear, w.value.id, 0);
    }
  }

  lemma DropWatch(s: State, e: Entry)
    requires Valid(s) && e in s.pending && e.op == LocationWatch
    ensures Valid(Drop(s, e.id))
  {
    DropKeeps(s, e.id);
    var f := Find(s.pending, e.id);
    if !s.frame.FinishDisconnect? { SameEntry(s.pending, f.value, e); }
  }

  // The document once a notification object exists.
  function Built(s: State): State {
    s.(notifications := s.notifications + {s.next}, built := s.built + {s.next}, next := s.next + 1)
  }

  lemma BuiltIsValid(s: State)
    requires Valid(s)
    ensures Valid(Built(s)) && Held(Built(s)) == Held(s)
  {
    forall e | e in Held(Built(s)) ensures EntryOk(Built(s), e) { assert EntryOk(s, e); }
  }

  lemma BuildKeeps(s: State)
    requires Valid(s)
    ensures Valid(BuildNotification(s))
  {
    if s.permission == Granted && !Full(s, true) {
      var s1 := Built(s);
      BuiltIsValid(s);
      var e := Entry(s.next, NotificationShow, 0, 0, true, true, true);
      StartRequestKeeps(s1, e);
      assert BuildNotification(s) == StartRequest(s1, e);
    }
  }

  lemma CloseKeeps(s: State, id: Id)
    requires Valid(s)
    ensures Valid(CloseBuilt(s, id))
  {
    if id in s.built && id !in s.closed {
      var s1 := s.(closed := s.closed + {id});
      assert Held(s1) == Held(s);
      StartKeeps(s1, NotificationClose, id, 0);
    }
  }

  // A rich write takes its place before its representations are read.
  lemma WritingKeeps(s: State, e: Entry)
    requires Starting(s, e) && e.op == WriteItems && e.awaiting && !e.posted && !s.disconnected && !Full(s, true)
    ensures Valid(s.(pending := s.pending + [e], writing := s.writing + {e.id}))
  {
    hide OneShots, Awaiting, Watches;
    AddKeeps(s, e);
    var s1 := s.(pending := s.pending + [e]);
    assert Held(s1.(writing := s1.writing + {e.id})) == Held(s1);
  }

  lemma ReserveKeeps(s: State)
    requires Valid(s)
    ensures Valid(ReserveWrite(s))
  {
    hide Starting;
    BegunStarts(s, WriteItems, 0, 0, true, false);
    var b := Begun(s, WriteItems, 0, 0, true, false);
    if b.0.disconnected || Full(b.0, true) {
      FailKeeps(b.0, b.1, false);
    } else {
      WritingKeeps(b.0, b.1);
    }
  }

  lemma InvokeKeeps(s: State, call: Call)
    requires Valid(s)
    ensures Valid(Invoke(s, call))
  {
    match call
    case GetCurrentPosition => StartKeeps(s, LocationGet, 0, 0);
    case WatchPosition => StartWatchKeeps(s);
    case ClearWatch(watchId) => StopWatchKeeps(s, watchId);
    case RequestPermission => StartKeeps(s, NotificationPermission, 0, 0);
    case NewNotification => BuildKeeps(s);
    case CloseNotification(id) => CloseKeeps(s, id);
    case CallReadText => StartKeeps(s, ReadText, 0, 0);
    case CallWriteText => StartKeeps(s, WriteText, 0, 0);
    case CallReadItems => StartKeeps(s, ReadItems, 0, 0);
    case CallWriteItems => ReserveKeeps(s);
  }

  /********** Events **********/

  lemma ChangeOneShots(p: seq<Entry>, id: Id, acknowledged: bool)
    ensures OneShots(Change(p, id, acknowledged)) == OneShots(p)
  {
    var q := Change(p, id, acknowledged);
    forall x ensures x in OneShots(q) <==> x in OneShots(p) {
      if x in OneShots(p) {
        var e :| e in p && OneShot(e.op) && e.id == x;
        ChangeMembers(p, id, acknowledged, Changed(e, id, acknowledged));
      }
      if x in OneShots(q) {
        var e :| e in q && OneShot(e.op) && e.id == x;
        ChangeMembers(p, id, acknowledged, e);
      }
    }
  }

  // A watch or a notification: it outlives its acknowledgement, and its deadline does not.
  predicate Lasts(e: Entry) { e.posted && (e.op == LocationWatch || e.op == NotificationShow) }

  lemma ChangeEntries(s: State, id: Id, acknowledged: bool)
    requires forall e :: e in s.pending ==> EntryOk(s, e) && (acknowledged && e.id == id ==> Lasts(e))
    requires acknowledged || id !in s.writing
    ensures forall e :: e in Change(s.pending, id, acknowledged) ==> EntryOk(s, e)
    ensures acknowledged ==> id !in Waits(Change(s.pending, id, acknowledged))
  {
    forall e | e in Change(s.pending, id, acknowledged)
      ensures EntryOk(s, e) && (acknowledged && e.id == id ==> !e.awaiting)
    {
      ChangeMembers(s.pending, id, acknowledged, e);
    }
  }

  // A flag of one entry changes; what it owes the application does not.
  lemma ChangeKeeps(s: State, id: Id, acknowledged: bool)
    requires Valid(s) && s.frame == Idle && (acknowledged || id !in s.writing)
    requires acknowledged ==> forall e :: e in s.pending && e.id == id ==> Lasts(e)
    ensures var s' := s.(pending := Change(s.pending, id, acknowledged));
            Valid(s') && (acknowledged ==> id !in Waits(s'.pending))
  {
    hide Accounted, OneShots, Awaiting, Watches, Change;
    ChangeFacts(s.pending, id, acknowledged);
    ChangeEntries(s, id, acknowledged);
    ChangeOneShots(s.pending, id, acknowledged);
  }

  lemma SettleDropped(s: State, e: Entry)
    requires Valid(s) && Find(s.pending, e.id) == Some(e) && OneShot(e.op)
    ensures Valid(Settle(Drop(s, e.id), e.id))
  {
    DropKeeps(s, e.id);
    SettleKeeps(Drop(s, e.id), e.id);
  }

  lemma OnlyOne(s: State, e: Entry)
    requires Valid(s) && s.frame == Idle && Find(s.pending, e.id) == Some(e) && e.op != WriteItems
    ensures e.posted && forall x :: x in s.pending && x.id == e.id ==> x == e
  {
    assert EntryOk(s, e);
    forall x | x in s.pending && x.id == e.id ensures x == e { SameEntry(s.pending, x, e); }
  }

  lemma DropOther(s: State, e: Entry)
    requires Valid(s) && Find(s.pending, e.id) == Some(e) && !OneShot(e.op)
    ensures Valid(Drop(s, e.id))
  {
    DropKeeps(s, e.id);
  }

  lemma PermitKeeps(s: State, permission: Permission, loose: set<Id>)
    requires Consistent(s, loose)
    ensures Consistent(s.(permission := permission), loose)
  {
    assert Held(s.(permission := permission)) == Held(s);
  }

  lemma HandleConnectKeeps(s: State, e: Entry, r: Response, d: Detail)
    requires Valid(s) && s.frame == Idle && Find(s.pending, e.id) == Some(e) && e.op == Connect
    ensures Valid(HandleConnect(s, e, r, d))
  {
    DropOther(s, e);
    if r.status != Ok { SeverKeeps(Drop(s, e.id), {}); }
    else if d.permission.Some? { PermitKeeps(Drop(s, e.id), d.permission.value, {}); }
  }

  lemma HandleKeeps(s: State, e: Entry, r: Response, d: Detail)
    requires Valid(s) && s.frame == Idle && Find(s.pending, e.id) == Some(e)
    ensures Valid(Handle(s, e, r, d))
  {
    hide Consistent, Drop, Sever, Change;
    match e.op
    case Connect => HandleConnectKeeps(s, e, r, d);
    case LocationGet => if r.status == Denied || d.fit { SettleDropped(s, e); }
    case LocationWatch =>
      DropOther(s, e);
      OnlyOne(s, e);
      ChangeKeeps(s, e.id, true);
    case LocationClear => DropOther(s, e);
    case NotificationPermission => HandlePermissionKeeps(s, e, r, d);
    case NotificationShow => HandleShowKeeps(s, e, r);
    case NotificationClose => HandleCloseKeeps(s, e, r);
    case ClipboardCancel =>
    case _ => if d.fit { SettleDropped(s, e); }
  }

  lemma HandlePermissionKeeps(s: State, e: Entry, r: Response, d: Detail)
    requires Valid(s) && s.frame == Idle && Find(s.pending, e.id) == Some(e) && e.op == NotificationPermission
    ensures Valid(HandlePermission(s, e, r, d))
  {
    if r.status == Denied {
      PermitKeeps(s, Blocked, {});
      SettleDropped(s.(permission := Blocked), e);
    } else if r.status == Failed {
      SettleDropped(s, e);
    } else if d.permission.Some? {
      PermitKeeps(s, d.permission.value, {});
      SettleDropped(s.(permission := d.permission.value), e);
    }
  }

  lemma AcknowledgeKeeps(s: State, e: Entry)
    requires Valid(s) && s.frame == Idle && Find(s.pending, e.id) == Some(e)
    requires e.op == LocationWatch || e.op == NotificationShow
    ensures Valid(Acknowledge(s, e.id)) && e.id !in Waits(Acknowledge(s, e.id).pending)
  {
    OnlyOne(s, e);
    ChangeKeeps(s, e.id, true);
  }

  lemma EventKeeps(s: State, id: Id)
    requires Valid(s) && s.frame == Idle && id in s.built && id !in Waits(s.pending)
    ensures Valid(s.(frame := FinishNotification(id)))
  {
    assert Held(s.(frame := FinishNotification(id))) == Held(s);
  }

  lemma HandleShowKeeps(s: State, e: Entry, r: Response)
    requires Valid(s) && s.frame == Idle && Find(s.pending, e.id) == Some(e) && e.op == NotificationShow
    ensures Valid(HandleShow(s, e, r))
  {
    assert EntryOk(s, e);
    if r.about.Some? && r.about.value != e.id {
    } else if r.status != Ok {
      DropShown(s, e.id);
    } else {
      AcknowledgeKeeps(s, e);
      if r.event == Closed || r.event == Errored { EventKeeps(Acknowledge(s, e.id), e.id); }
    }
  }

  lemma HandleCloseKeeps(s: State, e: Entry, r: Response)
    requires Valid(s) && s.frame == Idle && Find(s.pending, e.id) == Some(e) && e.op == NotificationClose
    ensures Valid(HandleClose(s, e, r))
  {
    DropOther(s, e);
    assert EntryOk(s, e);
    DropShown(Drop(s, e.id), e.target);
  }

  lemma ReceiveKeeps(s: State, r: Response, d: Detail)
    requires Valid(s) && s.frame == Idle
    ensures Valid(Receive(s, r, d))
  {
    var e := Find(s.pending, r.id);
    if r.client == s.clientId && e.Some? { HandleKeeps(s, e.value, r, d); }
  }

  // Taking an entry out to fail it.
  lemma DropFails(s: State, e: Entry, cancel: bool)
    requires Valid(s) && s.frame == Idle && Find(s.pending, e.id) == Some(e)
    ensures Valid(Fail(Drop(s, e.id), e, cancel))
    ensures OneShot(e.op) ==> e.id in Fail(Drop(s, e.id), e, cancel).settled
  {
    DropKeeps(s, e.id);
    assert EntryOk(s, e);
    FailKeeps(Drop(s, e.id), e, cancel);
  }

  lemma ExpireKeeps(s: State, id: Id)
    requires Valid(s) && s.frame == Idle
    ensures Valid(Expire(s, id))
  {
    var e := Find(s.pending, id);
    if e.Some? && e.value.timer { DropFails(s, e.value, true); }
  }

  lemma PageHideKeeps(s: State)
    requires Valid(s) && s.frame == Idle
    ensures Valid(PageHide(s))
  {
    var s1 := s.(next := s.next + 1);
    var s2 := if s.mute then s1 else s1.(out := s1.out + [Protocol.Disconnect(s.clientId)]);
    assert Held(s2) == Held(s);
    SeverKeeps(s2, {});
    assert PageHide(s) == Sever(s2).(hidden := true);
    assert Held(PageHide(s)) == Held(Sever(s2));
  }

  // The document that a return from the back-forward cache starts with.
  function Restored(s: State): State {
    s.(clientId := s.next, next := s.next + 1, permission := Default, disconnected := false, hidden := false,
       nextWatchId := 1, pending := [], notifications := {})
  }

  lemma RestoredIsValid(s: State)
    requires Valid(s) && s.frame == Idle && s.hidden
    ensures Valid(Restored(s)) && Held(s) == [] && Held(Restored(s)) == []
  {
  }

  lemma PageShowKeeps(s: State)
    requires Valid(s) && s.frame == Idle
    ensures Valid(PageShow(s))
  {
    if s.hidden {
      RestoredIsValid(s);
      StartKeeps(Restored(s), Connect, 0, 0);
    }
  }

  lemma EmptyAccount()
    ensures OneShots([]) == {} && Accounted([], [], {}, {})
  {
  }

  // The document that a new page starts with.
  function Booted(s: State): State {
    State(s.next, s.next + 1, [], {}, {}, {}, false, false, Default, 1, {}, s.mute, Idle, s.out, [], [])
  }

  lemma BootedIsValid(s: State)
    ensures Valid(Booted(s)) && Held(Booted(s)) == []
  {
    EmptyAccount();
  }

  lemma BootKeeps(s: State)
    ensures Valid(Boot(s))
  {
    BootedIsValid(s);
    StartKeeps(Booted(s), Connect, 0, 0);
  }

  lemma MaterializeKeeps(s: State, id: Id, fits: bool, cloneable: bool)
    requires Valid(s) && s.frame == Idle
    ensures Valid(Materialize(s, id, fits, cloneable))
  {
    if id in s.writing {
      var s1 := s.(writing := s.writing - {id});
      assert Held(s1) == Held(s);
      var e := Find(s.pending, id);
      if e.Some? {
        if !fits { SettleDropped(s1, e.value); }
        else if s.mute || !cloneable { DropFails(s1, e.value, false); }
        else {
          ChangeKeeps(s1, id, false);
          PostKeeps(s1.(pending := Change(s1.pending, id, false)), WriteItems, id, 0, {});
        }
      }
    }
  }

  lemma {:induction false} TailFacts(p: seq<Entry>)
    requires p != [] && Distinct(p)
    ensures Distinct(p[1..]) && |p[1..]| <= |p| && Awaiting(p[1..]) <= Awaiting(p) && Watches(p[1..]) <= Watches(p)
    ensures OneShots(p) == OneShots(p[1..]) + Loose(p[0]) && p[0].id !in OneShots(p[1..])
  {
    forall x ensures x in OneShots(p) <==> x in OneShots(p[1..]) || x in Loose(p[0]) {
      if x in OneShots(p) {
        var y :| y in p && OneShot(y.op) && y.id == x;
        if y != p[0] { assert y in p[1..]; }
      }
      if x in OneShots(p[1..]) {
        var y :| y in p[1..] && OneShot(y.op) && y.id == x;
        assert y in p;
      }
    }
    forall i: nat | i < |p[1..]| ensures p[1..][i].id != p[0].id { assert p[i + 1] == p[1..][i]; }
  }

  // A disconnect settles its next entry.
  lemma FinishKeeps(s: State, rest: seq<Entry>)
    requires Valid(s) && s.frame == FinishDisconnect(rest) && rest != []
    ensures Valid(Fail(s.(frame := FinishDisconnect(rest[1..])), rest[0], true))
  {
    hide Fail;
    TailFacts(rest);
    var s1 := s.(frame := FinishDisconnect(rest[1..]));
    assert EntryOk(s, rest[0]);
    forall e | e in rest[1..] ensures EntryOk(s1, e) { assert e in rest && EntryOk(s, e); }
    FailKeeps(s1, rest[0], true);
  }

  lemma ReturnKeeps(s: State)
    requires Valid(s) && s.frame != Idle
    ensures Valid(Return(s))
  {
    match s.frame
    case FinishNotification(id) =>
      assert Held(s.(frame := Idle)) == Held(s);
      DropShown(s.(frame := Idle), id);
    case FinishDisconnect(rest) =>
      if rest == [] {
        assert Held(s.(frame := Idle, notifications := {})) == [];
      } else {
        FinishKeeps(s, rest);
      }
  }

  /** Every step of the shim, whatever the application, the parent and the clock do, keeps the invariant. */
  lemma NextKeepsValid(s: State, a: Action)
    requires Valid(s) && Enabled(s, a)
    ensures Valid(Next(s, a))
  {
    match a
    case Call(call) => InvokeKeeps(s, call);
    case Returns => ReturnKeeps(s);
    case Hears(r, d) => ReceiveKeeps(s, r, d);
    case Expires(id) => ExpireKeeps(s, id);
    case Hides => PageHideKeeps(s);
    case Shows => PageShowKeeps(s);
    case Materializes(id, fits, cloneable) => MaterializeKeeps(s, id, fits, cloneable);
    case Mutes(gone) => assert Held(s.(mute := gone)) == Held(s);
  }
}
