/**
 The numbers that watchPosition returns: which watch a number names, and until when.
 */
module ShimNumbers {
  import opened Wrappers
  import opened Protocol
  import opened ShimSpec
  import opened ShimInvariant
  import opened ShimTheorems

  /********** The numbers in the table **********/

  predicate SameWatch(e: Entry, e': Entry) {
    e.op == LocationWatch && e'.op == LocationWatch && e'.id == e.id && e'.watchId == e.watchId
  }

  // Every watch of p' is one of p, under the same number.
  ghost predicate From(p: seq<Entry>, p': seq<Entry>) {
    forall e' :: e' in p' && e'.op == LocationWatch ==> exists e :: e in p && SameWatch(e, e')
  }

  // Two retained watches have two numbers.
  ghost predicate Apart(p: seq<Entry>) {
    forall e, f :: e in p && f in p && e.op == LocationWatch && f.op == LocationWatch && e.watchId == f.watchId ==>
      e.id == f.id
  }

  // Numbers were given out in order.
  ghost predicate Below(p: seq<Entry>, n: nat) { forall e :: e in p && e.op == LocationWatch ==> e.watchId < n }

  lemma FromKeeps(p: seq<Entry>, p': seq<Entry>, n: nat)
    requires From(p, p')
    ensures Apart(p) ==> Apart(p')
    ensures Below(p, n) ==> Below(p', n)
  {
    if Apart(p) {
      forall e', f' |
        e' in p' && f' in p' && e'.op == LocationWatch && f'.op == LocationWatch && e'.watchId == f'.watchId
        ensures e'.id == f'.id
      {
        var e :| e in p && SameWatch(e, e');
        var f :| f in p && SameWatch(f, f');
      }
    }
  }

  lemma FromSame(p: seq<Entry>)
    ensures From(p, p)
  {
    forall e | e in p && e.op == LocationWatch ensures exists f :: f in p && SameWatch(f, e) { assert SameWatch(e, e); }
  }

  lemma FromTrans(p0: seq<Entry>, p1: seq<Entry>, p2: seq<Entry>)
    requires From(p0, p1) && From(p1, p2)
    ensures From(p0, p2)
  {
    forall e2 | e2 in p2 && e2.op == LocationWatch ensures exists e :: e in p0 && SameWatch(e, e2) {
      var e1 :| e1 in p1 && SameWatch(e1, e2);
      var e0 :| e0 in p0 && SameWatch(e0, e1);
      assert SameWatch(e0, e2);
    }
  }

  // Fewer entries, and entries that are no watches.
  lemma FromSubset(p: seq<Entry>, p': seq<Entry>)
    requires forall e :: e in p' && e.op == LocationWatch ==> e in p
    ensures From(p, p')
  {
    forall e | e in p' && e.op == LocationWatch ensures exists f :: f in p && SameWatch(f, e) {
      assert SameWatch(e, e);
    }
  }

  lemma {:induction false} FromChange(p: seq<Entry>, id: Id, acknowledged: bool)
    ensures From(p, Change(p, id, acknowledged))
  {
    if p != [] {
      FromChange(p[1..], id, acknowledged);
      var rest, p' := Change(p[1..], id, acknowledged), Change(p, id, acknowledged);
      forall e' | e' in p' && e'.op == LocationWatch ensures exists e :: e in p && SameWatch(e, e') {
        if e' in rest {
          var e :| e in p[1..] && SameWatch(e, e');
          assert e in p;
        } else {
          assert e' == p'[0] && SameWatch(p[0], e');
        }
      }
    }
  }

  /********** Steps **********/

  // A step that gives out no number.
  ghost predicate Keeps(s: State, s': State) {
    && From(Held(s), Held(s'))
    && (s'.nextWatchId == s.nextWatchId || (s'.nextWatchId == 1 && forall e :: e in Held(s') ==> e.op != LocationWatch))
  }

  lemma SameKeeps(s: State, s': State)
    requires s'.nextWatchId == s.nextWatchId && forall e :: e in Held(s') && e.op == LocationWatch ==> e in Held(s)
    ensures Keeps(s, s')
  {
    FromSubset(Held(s), Held(s'));
  }

  lemma KeepsTrans(s0: State, s1: State, s2: State)
    requires Keeps(s0, s1) && Keeps(s1, s2) && s2.nextWatchId == s1.nextWatchId == s0.nextWatchId
    ensures Keeps(s0, s2)
  {
    FromTrans(Held(s0), Held(s1), Held(s2));
  }

  // Nothing is retained that was not, and no number is given out.
  ghost predicate Less(s: State, s': State) {
    && s'.nextWatchId == s.nextWatchId && (forall e :: e in Held(s') ==> e in Held(s))
    && (s.frame.FinishDisconnect? ==> s.disconnected) && (s'.frame.FinishDisconnect? ==> s'.disconnected)
  }

  lemma LessKeeps(s: State, s': State)
    requires Less(s, s')
    ensures Keeps(s, s') && s'.nextWatchId == s.nextWatchId
  {
    SameKeeps(s, s');
  }

  lemma SmallLess(s: State, op: Op, id: Id)
    requires s.frame.FinishDisconnect? ==> s.disconnected
    ensures Less(s, s) && Less(s, Settle(s, id)) && Less(s, Forget(s, id)) && Less(s, Cancel(s, op, id))
    ensures Less(s, Drop(s, id)) && Less(s, Sever(s))
  {
  }

  // An entry fails: it does nothing to the others, unless it is the connection.
  lemma FailLess(s: State, e: Entry, cancel: bool)
    requires s.frame.FinishDisconnect? ==> s.disconnected
    ensures Less(s, Fail(s, e, cancel))
  {
    hide Settle, Forget, Cancel, Drop, Sever, Held, Less;
    var s1 := Cancel(s, CancelOf(e.op), e.id);
    SmallLess(s, CancelOf(e.op), e.id);
    LessLess(s, s1, CancelOf(e.op), e.id);
    SmallLess(s, CancelOf(e.op), e.target);
    LessLess(s, Drop(s, e.target), CancelOf(e.op), e.target);
  }

  lemma LessLess(s: State, s1: State, op: Op, id: Id)
    requires Less(s, s1)
    ensures Less(s, Settle(s1, id)) && Less(s, Forget(s1, id))
  {
    hide Settle, Forget, Held;
    SmallLess(s1, op, id);
  }

  lemma FailKeeps(s: State, e: Entry, cancel: bool)
    requires s.frame.FinishDisconnect? ==> s.disconnected
    ensures Keeps(s, Fail(s, e, cancel)) && Fail(s, e, cancel).nextWatchId == s.nextWatchId
  {
    hide Fail, Less;
    FailLess(s, e, cancel);
    LessKeeps(s, Fail(s, e, cancel));
  }

  lemma StartRequestKeeps(s: State, e: Entry)
    requires e.op != LocationWatch && (s.frame.FinishDisconnect? ==> s.disconnected)
    ensures Keeps(s, StartRequest(s, e))
  {
    hide Fail;
    FailKeeps(s, e, false);
    var s1 := Post(s.(pending := s.pending + [e]), e.op, e.id, e.target);
    if !s.disconnected { SameKeeps(s, s1); }
  }

  lemma StartKeeps(s: State, op: Op, target: Id, watchId: nat)
    requires op != LocationWatch && (s.frame.FinishDisconnect? ==> s.disconnected)
    ensures Keeps(s, Start(s, op, target, watchId))
  {
    hide StartRequest;
    var b := Begun(s, op, target, watchId, CapabilityOf(op).Some?, true);
    StartRequestKeeps(b.0, b.1);
  }

  lemma DropKeeps(s: State, id: Id)
    ensures Keeps(s, Drop(s, id))
  {
    SameKeeps(s, Drop(s, id));
  }

  lemma CallKeeps(s: State, call: Call)
    requires !call.WatchPosition? && (s.frame.FinishDisconnect? ==> s.disconnected)
    ensures Keeps(s, Invoke(s, call))
  {
    hide Start, Fail, Drop, Keeps;
    SameKeeps(s, s);
    match call
    case GetCurrentPosition => StartKeeps(s, LocationGet, 0, 0);
    case ClearWatch(watchId) => ClearKeeps(s, watchId);
    case RequestPermission => StartKeeps(s, NotificationPermission, 0, 0);
    case NewNotification => BuildKeeps(s);
    case CloseNotification(id) => CloseKeeps(s, id);
    case CallReadText => StartKeeps(s, ReadText, 0, 0);
    case CallWriteText => StartKeeps(s, WriteText, 0, 0);
    case CallReadItems => StartKeeps(s, ReadItems, 0, 0);
    case CallWriteItems => ReserveKeeps(s);
  }

  lemma ClearKeeps(s: State, watchId: nat)
    requires s.frame.FinishDisconnect? ==> s.disconnected
    ensures Keeps(s, StopWatch(s, watchId))
  {
    hide StartRequest, Keeps, Drop;
    SameKeeps(s, s);
    if FindWatch(s.pending, watchId).Some? {
      var e := FindWatch(s.pending, watchId).value;
      var b := Begun(Drop(s, e.id), LocationClear, e.id, 0, false, true);
      DroppedKeeps(s, e);
      StartRequestKeeps(b.0, b.1);
      StartRequestNumber(b.0, b.1);
      KeepsTrans(s, b.0, StartRequest(b.0, b.1));
    }
  }

  lemma DroppedKeeps(s: State, e: Entry)
    requires s.frame.FinishDisconnect? ==> s.disconnected
    ensures var s1 := Begun(Drop(s, e.id), LocationClear, e.id, 0, false, true).0;
            Keeps(s, s1) && s1.nextWatchId == s.nextWatchId && (s1.frame.FinishDisconnect? ==> s1.disconnected)
  {
    SameKeeps(s, Begun(Drop(s, e.id), LocationClear, e.id, 0, false, true).0);
  }

  lemma StartRequestNumber(s: State, e: Entry)
    ensures StartRequest(s, e).nextWatchId == s.nextWatchId
  {
    hide Fail;
    FailNumber(s, e, false);
  }

  lemma FailNumber(s: State, e: Entry, cancel: bool)
    ensures Fail(s, e, cancel).nextWatchId == s.nextWatchId
  {
  }

  lemma BuildKeeps(s: State)
    requires s.frame.FinishDisconnect? ==> s.disconnected
    ensures Keeps(s, BuildNotification(s))
  {
    hide Start;
    SameKeeps(s, s);
    StartKeeps(s.(notifications := s.notifications + {s.next}, built := s.built + {s.next}), NotificationShow, 0, 0);
  }

  lemma CloseKeeps(s: State, id: Id)
    requires s.frame.FinishDisconnect? ==> s.disconnected
    ensures Keeps(s, CloseBuilt(s, id))
  {
    hide Start;
    SameKeeps(s, s);
    StartKeeps(s.(closed := s.closed + {id}), NotificationClose, id, 0);
  }

  lemma ReserveKeeps(s: State)
    requires s.frame.FinishDisconnect? ==> s.disconnected
    ensures Keeps(s, ReserveWrite(s))
  {
    hide Fail;
    var b := Begun(s, WriteItems, 0, 0, true, false);
    FailKeeps(b.0, b.1, false);
    if !s.disconnected && !Full(b.0, true) { SameKeeps(s, ReserveWrite(s)); }
  }

  lemma HearKeeps(s: State, r: Response, d: Detail)
    requires s.frame == Idle
    ensures Keeps(s, Receive(s, r, d))
  {
    hide Keeps, Drop, Change, Settle, Sever;
    SameKeeps(s, s);
    if r.client == s.clientId && Find(s.pending, r.id).Some? { HandleKeeps(s, Find(s.pending, r.id).value, r, d); }
  }

  lemma AcknowledgeKeeps(s: State, id: Id)
    requires s.frame == Idle
    ensures Keeps(s, Acknowledge(s, id)) && Keeps(s, Acknowledge(s, id).(frame := FinishNotification(id)))
  {
    FromChange(s.pending, id, true);
  }

  lemma HandleKeeps(s: State, e: Entry, r: Response, d: Detail)
    requires s.frame == Idle
    ensures Keeps(s, Handle(s, e, r, d))
  {
    hide Keeps, Less, Acknowledge, HandleConnect, HandleLookup, HandlePermission, HandleClose, HandleCopy, Drop;
    AcknowledgeKeeps(s, e.id);
    SameKeeps(s, s);
    SmallLess(s, e.op, e.id);
    LessKeeps(s, Drop(s, e.id));
    match e.op
    case Connect => ConnectLess(s, e, r, d); LessKeeps(s, HandleConnect(s, e, r, d));
    case LocationGet => LookupLess(s, e, r, d); LessKeeps(s, HandleLookup(s, e, r, d));
    case LocationWatch =>
    case LocationClear =>
    case NotificationPermission => PermissionLess(s, e, r, d); LessKeeps(s, HandlePermission(s, e, r, d));
    case NotificationShow => ForgottenLess(s, e); LessKeeps(s, Forget(Drop(s, e.id), e.id));
    case NotificationClose => CloseLess(s, e, r); LessKeeps(s, HandleClose(s, e, r));
    case ClipboardCancel =>
    case _ => CopyLess(s, e, r, d); LessKeeps(s, HandleCopy(s, e, r, d));
  }

  lemma ForgottenLess(s: State, e: Entry)
    requires s.frame == Idle
    ensures Less(s, Forget(Drop(s, e.id), e.id))
  {
  }

  lemma ConnectLess(s: State, e: Entry, r: Response, d: Detail)
    requires s.frame == Idle
    ensures Less(s, HandleConnect(s, e, r, d))
  {
    hide Sever, Drop;
    SmallLess(s, e.op, e.id);
    SmallLess(Drop(s, e.id), e.op, e.id);
  }

  lemma LookupLess(s: State, e: Entry, r: Response, d: Detail)
    requires s.frame == Idle
    ensures Less(s, HandleLookup(s, e, r, d))
  {
  }

  lemma PermissionLess(s: State, e: Entry, r: Response, d: Detail)
    requires s.frame == Idle
    ensures Less(s, HandlePermission(s, e, r, d))
  {
  }

  lemma CloseLess(s: State, e: Entry, r: Response)
    requires s.frame == Idle
    ensures Less(s, HandleClose(s, e, r))
  {
  }

  lemma CopyLess(s: State, e: Entry, r: Response, d: Detail)
    requires s.frame == Idle
    ensures Less(s, HandleCopy(s, e, r, d))
  {
  }

  lemma ExpireKeeps(s: State, id: Id)
    requires s.frame == Idle
    ensures Keeps(s, Expire(s, id))
  {
    hide Fail;
    SameKeeps(s, s);
    if Find(s.pending, id).Some? {
      var e := Find(s.pending, id).value;
      DropKeeps(s, id);
      FailKeeps(Drop(s, id), e, true);
      KeepsTrans(s, Drop(s, id), Fail(Drop(s, id), e, true));
    }
  }

  lemma ReturnKeeps(s: State)
    requires s.frame.FinishDisconnect? ==> s.disconnected && s.pending == []
    ensures Keeps(s, Return(s))
  {
    hide Fail;
    SameKeeps(s, s);
    match s.frame
    case Idle =>
    case FinishNotification(id) => SameKeeps(s, Return(s));
    case FinishDisconnect(rest) =>
      if rest == [] { SameKeeps(s, Return(s)); }
      else {
        var s1 := s.(frame := FinishDisconnect(rest[1..]));
        SameKeeps(s, s1);
        FailKeeps(s1, rest[0], true);
        KeepsTrans(s, s1, Fail(s1, rest[0], true));
      }
  }

  lemma MaterializeKeeps(s: State, id: Id, fits: bool, cloneable: bool)
    requires s.frame == Idle
    ensures Keeps(s, Materialize(s, id, fits, cloneable))
  {
    hide Fail;
    SameKeeps(s, s);
    if id in s.writing && Find(s.pending, id).Some? {
      var e, s1 := Find(s.pending, id).value, s.(writing := s.writing - {id});
      DropKeeps(s1, id);
      FailKeeps(Drop(s1, id), e, false);
      KeepsTrans(s, Drop(s1, id), Fail(Drop(s1, id), e, false));
      FromChange(s.pending, id, false);
      SameKeeps(s, Settle(Drop(s1, id), id));
    }
  }

  lemma ShowsKeeps(s: State)
    requires s.frame == Idle
    ensures Keeps(s, PageShow(s))
  {
    hide Start;
    SameKeeps(s, s);
    if s.hidden {
      StartKeeps(Restored(s), Connect, 0, 0);
      StartNumber(Restored(s));
    }
  }

  lemma StartNumber(s: State)
    requires s.pending == [] && s.frame == Idle
    ensures Start(s, Connect, 0, 0).nextWatchId == s.nextWatchId
  {
    hide Fail;
    FailNumber(Begun(s, Connect, 0, 0, false, true).0, Begun(s, Connect, 0, 0, false, true).1, false);
  }

  // A new watch takes the next number, or none is retained.
  lemma WatchTakes(s: State)
    requires s.frame.FinishDisconnect? ==> s.disconnected
    ensures var s', e := StartWatch(s), Entry(s.next, LocationWatch, 0, s.nextWatchId, true, true, true);
            && s'.nextWatchId == (if s.nextWatchId >= LAST_WATCH_ID then 1 else s.nextWatchId + 1)
            && (Held(s') == Held(s) || (!s.frame.FinishDisconnect? && Held(s') == Held(s) + [e]))
  {
  }

  lemma StepKeeps(s: State, a: Action)
    requires Valid(s) && Enabled(s, a) && a != Action.Call(WatchPosition)
    ensures Keeps(s, Next(s, a))
  {
    hide Consistent, Keeps, Invoke, Return, Receive, Expire, PageShow, Materialize;
    FrameFacts(s);
    match a
    case Call(call) => CallKeeps(s, call);
    case Returns => ReturnKeeps(s);
    case Hears(r, d) => HearKeeps(s, r, d);
    case Expires(id) => ExpireKeeps(s, id);
    case Hides => HidesKeeps(s);
    case Shows => ShowsKeeps(s);
    case Materializes(id, fits, cloneable) => MaterializeKeeps(s, id, fits, cloneable);
    case Mutes(gone) => SameKeeps(s, s.(mute := gone));
  }

  lemma FrameFacts(s: State)
    requires Valid(s)
    ensures s.frame.FinishDisconnect? ==> s.disconnected && s.pending == []
  {
  }

  lemma HidesKeeps(s: State)
    requires s.frame == Idle
    ensures Keeps(s, PageHide(s))
  {
    SameKeeps(s, PageHide(s));
  }

  /********** Results **********/

  lemma AppendApart(p: seq<Entry>, e: Entry)
    requires Apart(p) && e.op == LocationWatch && forall f :: f in p ==> f.id != e.id
    ensures Apart(p + [e]) <==> !exists f :: f in p && f.op == LocationWatch && f.watchId == e.watchId
    ensures Below(p, e.watchId) ==> Below(p + [e], e.watchId + 1)
  {
    if f :| f in p && f.op == LocationWatch && f.watchId == e.watchId {
      assert f in p + [e] && e in p + [e] && f.id != e.id;
    }
  }

  lemma NewId(s: State)
    requires Valid(s)
    ensures forall e :: e in Held(s) ==> e.id != s.next
  {
    assert forall e :: e in Held(s) ==> EntryOk(s, e);
  }

  /**
   A step keeps the numbers of all retained watches apart if and only if it does not retain a new watch under the number
   of another.
   */
  lemma ApartExactly(s: State, a: Action)
    requires Valid(s) && Enabled(s, a) && Apart(Held(s))
    ensures Apart(Held(Next(s, a)))
       <==> !(a == Action.Call(WatchPosition) && Held(Next(s, a)) != Held(s)
              && exists e :: e in Held(s) && e.op == LocationWatch && e.watchId == s.nextWatchId)
  {
    hide Consistent, Apart, Held, StartWatch;
    if a == Action.Call(WatchPosition) {
      FrameFacts(s);
      WatchTakes(s);
      NewId(s);
      AppendApart(Held(s), Entry(s.next, LocationWatch, 0, s.nextWatchId, true, true, true));
    } else {
      StepKeeps(s, a);
      FromKeeps(Held(s), Held(Next(s, a)), 0);
    }
  }

  // How often the page asked for a watch.
  function Asked(actions: seq<Action>): nat {
    if actions == [] then 0
    else Asked(actions[..|actions| - 1]) + if actions[|actions| - 1] == Action.Call(WatchPosition) then 1 else 0
  }

  // The numbers given out so far, after n calls.
  ghost predicate Numbered(s: State, n: nat) {
    && Apart(Held(s))
    && (n < LAST_WATCH_ID ==> 1 <= s.nextWatchId <= n + 1 && Below(Held(s), s.nextWatchId))
  }

  lemma StepNumbered(s: State, a: Action, n: nat)
    requires Valid(s) && Enabled(s, a) && Numbered(s, n)
    requires a == Action.Call(WatchPosition) ==> n < LAST_WATCH_ID
    ensures Numbered(Next(s, a), if a == Action.Call(WatchPosition) then n + 1 else n)
  {
    hide Consistent, Apart, Below, Held, StartWatch;
    var s' := Next(s, a);
    if a == Action.Call(WatchPosition) {
      FrameFacts(s);
      WatchTakes(s);
      NewId(s);
      AppendApart(Held(s), Entry(s.next, LocationWatch, 0, s.nextWatchId, true, true, true));
      NoneNumbered(Held(s), s.nextWatchId);
    } else {
      StepKeeps(s, a);
      FromKeeps(Held(s), Held(s'), s.nextWatchId);
      if s'.nextWatchId != s.nextWatchId { NoWatches(Held(s')); }
    }
  }

  lemma NoneNumbered(p: seq<Entry>, n: nat)
    requires Below(p, n)
    ensures !exists f :: f in p && f.op == LocationWatch && f.watchId == n
    ensures Below(p, n + 1)
  {
  }

  lemma NoWatches(p: seq<Entry>)
    requires forall e :: e in p ==> e.op != LocationWatch
    ensures Below(p, 1) && Apart(p)
  {
  }

  lemma {:induction false} NumberedRun(before: State, actions: seq<Action>)
    requires Asked(actions) <= LAST_WATCH_ID
    ensures Numbered(After(Boot(before), actions), Asked(actions))
    decreases |actions|
  {
    hide Numbered, Boot, Next, Valid;
    if actions == [] {
      BootNumbered(before);
    } else {
      var rest, a := actions[..|actions| - 1], actions[|actions| - 1];
      assert actions == rest + [a];
      NumberedRun(before, rest);
      Extends(Boot(before), rest, a);
      BootKeeps(before);
      AfterKeepsValid(Boot(before), rest);
      if Enabled(After(Boot(before), rest), a) { StepNumbered(After(Boot(before), rest), a, Asked(rest)); }
    }
  }

  lemma BootNumbered(before: State)
    ensures Numbered(Boot(before), 0)
  {
    hide Start;
    StartKeeps(Booted(before), Connect, 0, 0);
    StartNumber(Booted(before));
    FromKeeps([], Held(Boot(before)), 1);
  }

  /**
   In every run in which the page asks for at most 2147483647 watches, each retained watch is the one that its number
   names: clearWatch with the number that watchPosition returned clears that watch and no other.
   */
  lemma NumberNamesWatch(before: State, actions: seq<Action>, e: Entry)
    requires Asked(actions) <= LAST_WATCH_ID
    requires e in After(Boot(before), actions).pending && e.op == LocationWatch
    ensures FindWatch(After(Boot(before), actions).pending, e.watchId) == Some(e)
  {
    hide Boot, Next;
    var s := After(Boot(before), actions);
    NumberedRun(before, actions);
    BootKeeps(before);
    AfterKeepsValid(Boot(before), actions);
    FrameFacts(s);
    FoundWatch(s.pending, e);
  }

  lemma {:induction false} FoundWatch(p: seq<Entry>, e: Entry)
    requires e in p && e.op == LocationWatch && Apart(p) && Distinct(p)
    ensures FindWatch(p, e.watchId) == Some(e)
  {
    if p[0].op == LocationWatch && p[0].watchId == e.watchId {
      var i :| 0 <= i < |p| && p[i] == e;
      assert p[0] in p;
    } else {
      TailFacts(p);
      FoundWatch(p[1..], e);
    }
  }

  /********** After the last number **********/

  const ASK := Action.Call(WatchPosition)

  function Times(n: nat): seq<Action> { seq(n, i => ASK) }

  lemma {:induction false} AskedMore(a: seq<Action>, b: seq<Action>)
    ensures Asked(a + b) == Asked(a) + Asked(b)
    decreases |b|
  {
    if b == [] {
      assert a + b == a;
    } else {
      assert (a + b)[..|a + b| - 1] == a + b[..|b| - 1];
      AskedMore(a, b[..|b| - 1]);
    }
  }

  lemma {:induction false} AskedTimes(n: nat)
    ensures Asked(Times(n)) == n
  {
    if n > 0 {
      assert Times(n)[..n - 1] == Times(n - 1);
      AskedTimes(n - 1);
    }
  }

  lemma {:induction false} AfterMore(s: State, a: seq<Action>, b: seq<Action>)
    ensures After(s, a + b) == After(After(s, a), b)
    decreases |a|
  {
    if a == [] {
      assert a + b == b;
    } else {
      assert (a + b)[0] == a[0] && (a + b)[1..] == a[1..] + b;
      AfterMore(Perform(s, a[0]), a[1..], b);
    }
  }

  lemma {:induction false} CountsLess(p: seq<Entry>, e: Entry)
    requires e in p && Distinct(p) && e.op == LocationWatch
    ensures Watches(Remove(p, e.id)) == Watches(p) - 1 && Awaiting(Remove(p, e.id)) <= Awaiting(p)
    ensures |Remove(p, e.id)| <= |p|
  {
    TailFacts(p);
    if p[0] == e { GoneAlready(p[1..], e.id); } else { CountsLess(p[1..], e); }
  }

  lemma {:induction false} GoneAlready(p: seq<Entry>, id: Id)
    requires forall f :: f in p ==> f.id != id
    ensures Remove(p, id) == p
  {
    if p != [] { GoneAlready(p[1..], id); }
  }

  // A connected session that watches j positions, under the numbers from 1 on.
  ghost predicate Watching(s: State, j: nat) {
    && s.frame == Idle && !s.disconnected && !s.mute && s.nextWatchId == j + 1
    && Watches(s.pending) == j && Awaiting(s.pending) == j && |s.pending| == j + 1
    && forall n :: 1 <= n <= j ==> IsWatched(s, n)
  }

  ghost predicate IsWatched(s: State, n: nat) { exists e :: e in s.pending && e.op == LocationWatch && e.watchId == n }

  lemma OneMoreWatch(s: State, j: nat)
    requires Watching(s, j) && j < MAX_WATCHING
    ensures Watching(Next(s, ASK), j + 1)
  {
    var s', e := Next(s, ASK), Entry(s.next, LocationWatch, 0, s.nextWatchId, true, true, true);
    SnocFacts(s.pending, e);
    assert s'.pending == s.pending + [e];
    forall n | 1 <= n <= j + 1 ensures IsWatched(s', n) {
      if n <= j {
        assert IsWatched(s, n);
        var f :| f in s.pending && f.op == LocationWatch && f.watchId == n;
        assert f in s'.pending;
      } else {
        assert e in s'.pending;
      }
    }
  }

  lemma {:induction false} WatchesFill(s: State, j: nat, n: nat)
    requires Watching(s, j) && j + n <= MAX_WATCHING
    ensures Watching(After(s, Times(n)), j + n)
    decreases n
  {
    hide Watching, Next;
    if n > 0 {
      OneMoreWatch(s, j);
      assert Times(n)[0] == ASK && Times(n)[1..] == Times(n - 1);
      WatchesFill(Next(s, ASK), j + 1, n - 1);
    }
  }

  // With eight watches, a further call takes a number and nothing else.
  lemma {:induction false} NumbersPass(s: State, n: nat)
    requires Watches(s.pending) >= MAX_WATCHING && s.nextWatchId + n <= LAST_WATCH_ID
    ensures After(s, Times(n)) == s.(next := s.next + n, nextWatchId := s.nextWatchId + n)
    decreases n
  {
    if n > 0 {
      assert Times(n)[0] == ASK && Times(n)[1..] == Times(n - 1);
      NumbersPass(Next(s, ASK), n - 1);
    }
  }

  lemma BootWatching(before: State)
    requires !before.mute
    ensures Watching(Boot(before), 0)
  {
    assert Boot(before).pending == [Entry(before.next + 1, Connect, 0, 0, false, true, true)];
  }

  lemma Wraps(s: State)
    requires Watches(s.pending) >= MAX_WATCHING && s.nextWatchId == LAST_WATCH_ID
    ensures Next(s, ASK) == s.(next := s.next + 1, nextWatchId := 1)
  {
  }

  // The first number comes round again while its watch and a full table of others are retained.
  ghost predicate Round(s: State) {
    && Valid(s) && s.frame == Idle && !s.disconnected && !s.mute && s.nextWatchId == 1
    && Watches(s.pending) <= MAX_WATCHING && Awaiting(s.pending) <= MAX_WATCHING && |s.pending| <= MAX_WATCHING + 2
    && IsWatched(s, 1)
  }

  lemma ClearOne(s: State, n: nat)
    requires Round(s) && IsWatched(s, n) && n != 1 && |s.pending| <= MAX_WATCHING + 1
    ensures var s' := Next(s, Action.Call(ClearWatch(n))); Round(s') && Watches(s'.pending) < MAX_WATCHING
  {
    hide Consistent, Next, Watches, Awaiting, Enabled;
    var a := Action.Call(ClearWatch(n));
    CallIsEnabled(s, ClearWatch(n));
    NextKeepsValid(s, a);
    var w: Entry :| w in s.pending && w.op == LocationWatch && w.watchId == 1;
    var v := SomeWatch(s.pending, n);
    IdleFacts(s);
    CountsLess(s.pending, v);
    SameName(s.pending, v, w);
    var c := Entry(s.next, LocationClear, v.id, 0, false, true, true);
    SnocFacts(Remove(s.pending, v.id), c);
    ClearShape(s, n, v);
    assert w in Next(s, a).pending;
  }

  lemma CallIsEnabled(s: State, call: Call)
    ensures Enabled(s, Action.Call(call))
  {
  }

  lemma ClearShape(s: State, n: nat, v: Entry)
    requires FindWatch(s.pending, n) == Some(v) && !s.disconnected && !s.mute && s.frame == Idle
    requires |Remove(s.pending, v.id)| < MAX_OPERATIONS
    ensures var s' := Next(s, Action.Call(ClearWatch(n)));
            && s'.pending == Remove(s.pending, v.id) + [Entry(s.next, LocationClear, v.id, 0, false, true, true)]
            && s'.frame == Idle && !s'.disconnected && !s'.mute && s'.nextWatchId == s.nextWatchId
  {
    hide Fail, Watches, Awaiting;
  }

  lemma IdleFacts(s: State)
    requires Valid(s) && s.frame == Idle
    ensures Distinct(s.pending)
  {
  }

  lemma SomeWatch(p: seq<Entry>, n: nat) returns (v: Entry)
    requires exists e :: e in p && e.op == LocationWatch && e.watchId == n
    ensures FindWatch(p, n) == Some(v) && v in p && v.op == LocationWatch && v.watchId == n
  {
    HasWatch(p, n);
    v := FindWatch(p, n).value;
  }

  lemma {:induction false} HasWatch(p: seq<Entry>, n: nat)
    requires exists e :: e in p && e.op == LocationWatch && e.watchId == n
    ensures FindWatch(p, n).Some?
  {
    if !(p[0].op == LocationWatch && p[0].watchId == n) {
      var e :| e in p && e.op == LocationWatch && e.watchId == n;
      assert e in p[1..];
      HasWatch(p[1..], n);
    }
  }

  lemma SameName(p: seq<Entry>, v: Entry, w: Entry)
    requires Distinct(p) && v in p && w in p && v != w
    ensures v.id != w.id
  {
  }

  lemma RoundAgain(s: State)
    requires Round(s) && Watches(s.pending) < MAX_WATCHING
    ensures !Apart(Held(Next(s, ASK)))
  {
    hide Consistent;
    var e := Entry(s.next, LocationWatch, 0, 1, true, true, true);
    var w: Entry :| w in s.pending && w.op == LocationWatch && w.watchId == 1;
    NewId(s);
    var p := Next(s, ASK).pending;
    assert p == s.pending + [e];
    assert w in p && e in p && w.id != e.id;
  }

  // Eight watches, every other number, the eighth watch cleared, and one watch more.
  function Exhausting(): seq<Action> {
    Times(MAX_WATCHING) + (Times(LAST_WATCH_ID - MAX_WATCHING - 1) + [ASK, Action.Call(ClearWatch(MAX_WATCHING)), ASK])
  }

  /** One watch more than there are numbers, and two retained watches can have one number. */
  lemma NumbersCollide(before: State)
    requires !before.mute
    ensures Asked(Exhausting()) == LAST_WATCH_ID + 1 && !Apart(Held(After(Boot(before), Exhausting())))
  {
    hide Next, Boot, Watching, Round, Valid, Apart, Times;
    var rest := [ASK, Action.Call(ClearWatch(MAX_WATCHING)), ASK];
    var s0 := Boot(before);
    var s1 := After(s0, Times(MAX_WATCHING));
    var s2 := After(s1, Times(LAST_WATCH_ID - MAX_WATCHING - 1));
    CountExhausting(rest);
    AfterMore(s0, Times(MAX_WATCHING), Times(LAST_WATCH_ID - MAX_WATCHING - 1) + rest);
    AfterMore(s1, Times(LAST_WATCH_ID - MAX_WATCHING - 1), rest);
    BootWatching(before);
    WatchesFill(s0, 0, MAX_WATCHING);
    BootKeeps(before);
    AfterKeepsValid(s0, Times(MAX_WATCHING));
    AfterKeepsValid(s1, Times(LAST_WATCH_ID - MAX_WATCHING - 1));
    ComesRound(s1, s2);
    var s3 := Next(s2, ASK);
    ClearOne(s3, MAX_WATCHING);
    RoundAgain(Next(s3, Action.Call(ClearWatch(MAX_WATCHING))));
    ThreeCalls(s2, WatchPosition, ClearWatch(MAX_WATCHING), WatchPosition);
  }

  lemma ThreeCalls(s: State, a: Call, b: Call, c: Call)
    ensures After(s, [Action.Call(a), Action.Call(b), Action.Call(c)])
         == Next(Next(Next(s, Action.Call(a)), Action.Call(b)), Action.Call(c))
  {
    hide Next;
    var one, two, three := [Action.Call(c)], [Action.Call(b), Action.Call(c)],
                           [Action.Call(a), Action.Call(b), Action.Call(c)];
    var s1 := Next(s, Action.Call(a));
    var s2 := Next(s1, Action.Call(b));
    OneCall(s2, c);
    assert two[1..] == one && three[1..] == two;
    assert After(s1, two) == After(s2, one);
    assert After(s, three) == After(s1, two);
  }

  lemma OneCall(s: State, c: Call)
    ensures After(s, [Action.Call(c)]) == Next(s, Action.Call(c))
  {
    hide Next;
    assert [Action.Call(c)][1..] == [];
  }

  lemma CountExhausting(rest: seq<Action>)
    requires rest == [ASK, Action.Call(ClearWatch(MAX_WATCHING)), ASK]
    ensures Asked(Exhausting()) == LAST_WATCH_ID + 1
  {
    hide Times, Asked;
    var n := LAST_WATCH_ID - MAX_WATCHING - 1;
    AskedTimes(MAX_WATCHING);
    AskedTimes(n);
    AskedTwice(MAX_WATCHING);
    AskedMore(Times(n), rest);
    AskedMore(Times(MAX_WATCHING), Times(n) + rest);
    assert Exhausting() == Times(MAX_WATCHING) + (Times(n) + rest);
  }

  lemma AskedTwice(w: nat)
    ensures Asked([ASK, Action.Call(ClearWatch(w)), ASK]) == 2
  {
    var two := [ASK, Action.Call(ClearWatch(w))];
    var three := two + [ASK];
    assert [ASK][..0] == [] && two[..1] == [ASK] && three[..2] == two;
    assert Asked([ASK]) == 1 && Asked(two) == 1;
    assert three == [ASK, Action.Call(ClearWatch(w)), ASK];
  }

  lemma ComesRound(s1: State, s2: State)
    requires Watching(s1, MAX_WATCHING) && s2 == After(s1, Times(LAST_WATCH_ID - MAX_WATCHING - 1)) && Valid(s2)
    ensures var s3 := Next(s2, ASK); Round(s3) && IsWatched(s3, MAX_WATCHING) && |s3.pending| == MAX_WATCHING + 1
  {
    hide Next, Consistent;
    NumbersPass(s1, LAST_WATCH_ID - MAX_WATCHING - 1);
    Wraps(s2);
    NextKeepsValid(s2, ASK);
    assert IsWatched(s1, 1) && IsWatched(s1, MAX_WATCHING);
    var e: Entry :| e in s1.pending && e.op == LocationWatch && e.watchId == 1;
    var f: Entry :| f in s1.pending && f.op == LocationWatch && f.watchId == MAX_WATCHING;
    assert e in Next(s2, ASK).pending && f in Next(s2, ASK).pending;
  }
}
