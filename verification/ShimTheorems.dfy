/**
 What holds in every run of one preview document, whatever the application, the parent and the clock do.
 */
module ShimTheorems {
  import opened Wrappers
  import opened Protocol
  import opened ShimSpec
  import opened ShimInvariant

  function Perform(s: State, a: Action): State { if Enabled(s, a) then Next(s, a) else s }

  function After(s: State, actions: seq<Action>): State
    decreases |actions|
  {
    if actions == [] then s else After(Perform(s, actions[0]), actions[1..])
  }

  lemma {:induction false} AfterKeepsValid(s: State, actions: seq<Action>)
    requires Valid(s)
    ensures Valid(After(s, actions))
    decreases |actions|
  {
    if actions != [] {
      if Enabled(s, actions[0]) { NextKeepsValid(s, actions[0]); }
      AfterKeepsValid(Perform(s, actions[0]), actions[1..]);
    }
  }

  /** The three limits hold in every run of a document, however callbacks call back into the shim. */
  lemma LimitsHold(before: State, actions: seq<Action>)
    ensures var s := After(Boot(before), actions);
            |s.pending| <= MAX_OPERATIONS && Awaiting(s.pending) <= MAX_CONSENT && Watches(s.pending) <= MAX_WATCHING
  {
    BootKeeps(before);
    AfterKeepsValid(Boot(before), actions);
  }

  /**
   Every location lookup and every permission or clipboard promise is told its outcome at most once, and
   those not yet told are exactly those still retained.
   */
  lemma OutcomesAreAccounted(before: State, actions: seq<Action>)
    ensures var s := After(Boot(before), actions);
            && DistinctIds(s.settled)
            && (forall x :: x in s.started <==> x in s.settled || x in OneShots(Held(s)))
            && (forall x :: x in s.settled ==> x !in OneShots(Held(s)))
  {
    BootKeeps(before);
    AfterKeepsValid(Boot(before), actions);
  }

  /** Once a disconnect has run its course, every outcome was told exactly once. */
  lemma DisconnectTellsAll(before: State, actions: seq<Action>)
    requires var s := After(Boot(before), actions); s.disconnected && s.frame == Idle
    ensures var s := After(Boot(before), actions);
            DistinctIds(s.settled) && forall x :: x in s.started <==> x in s.settled
  {
    BootKeeps(before);
    AfterKeepsValid(Boot(before), actions);
    var s := After(Boot(before), actions);
    assert Held(s) == [];
  }

  // `count` returns of application callbacks in a row.
  function Returning(s: State, count: nat): State
    decreases count
  {
    if count == 0 || s.frame == Idle then s else Returning(Return(s), count - 1)
  }

  lemma {:induction false} FailRest(s: State, e: Entry)
    requires s.disconnected
    ensures Fail(s, e, true).frame == s.frame && Fail(s, e, true).disconnected
  {
  }

  /** A disconnect always comes to its end: one callback after the other, each for an entry it had retained. */
  lemma {:induction false} DisconnectEnds(s: State, count: nat)
    requires s.disconnected && s.frame.FinishDisconnect? && |s.frame.rest| < count
    ensures Returning(s, count).frame == Idle
    decreases count
  {
    var rest := s.frame.rest;
    if rest == [] {
      assert Return(s).frame == Idle;
      assert Returning(Return(s), count - 1) == Return(s);
    } else {
      FailRest(s.(frame := FinishDisconnect(rest[1..])), rest[0]);
      DisconnectEnds(Return(s), count - 1);
    }
  }

  // An outcome that is still to come: its deadline runs, or the disconnect that is under way will tell it.
  ghost predicate Guarded(s: State, x: Id) {
    || (Find(s.pending, x).Some? && Find(s.pending, x).value.timer && OneShot(Find(s.pending, x).value.op))
    || (s.frame.FinishDisconnect? && x in OneShots(s.frame.rest))
  }

  lemma HeldIsFound(p: seq<Entry>, e: Entry)
    requires Distinct(p) && e in p
    ensures Find(p, e.id) == Some(e)
  {
    SameEntry(p, Find(p, e.id).value, e);
  }

  /**
   In every run, every lookup and promise that was not told its outcome has its deadline armed, or is told by the
   disconnect under way.
   */
  lemma DeadlinesAreArmed(before: State, actions: seq<Action>, x: Id)
    ensures var s := After(Boot(before), actions); x in s.started && x !in s.settled ==> Guarded(s, x)
  {
    BootKeeps(before);
    AfterKeepsValid(Boot(before), actions);
    var s := After(Boot(before), actions);
    if x in s.started && x !in s.settled && !s.frame.FinishDisconnect? {
      var e :| e in s.pending && OneShot(e.op) && e.id == x;
      assert EntryOk(s, e);
      HeldIsFound(s.pending, e);
    }
  }

  /** The deadline of a retained lookup or promise tells its outcome, and frees the entry. */
  lemma DeadlineSettles(s: State, id: Id)
    requires Valid(s) && s.frame == Idle && Find(s.pending, id).Some? && OneShot(Find(s.pending, id).value.op)
    ensures var s' := Expire(s, id);
            s'.settled == s.settled + [id] && Find(s'.pending, id).None? && Valid(s')
  {
    hide Consistent;
    var e := Find(s.pending, id).value;
    IsArmed(s, e);
    ExpireKeeps(s, id);
    RetainedIsUnsettled(s, e);
    assert Expire(s, id).pending == Remove(s.pending, id);
  }

  lemma IsArmed(s: State, e: Entry)
    requires Valid(s) && s.frame == Idle && e in s.pending && OneShot(e.op)
    ensures e.timer
  {
    assert EntryOk(s, e);
  }

  lemma RetainedIsUnsettled(s: State, e: Entry)
    requires Valid(s) && s.frame == Idle && e in s.pending && OneShot(e.op)
    ensures e.id !in s.settled
  {
    assert e.id in OneShots(s.pending);
  }

  // What the entry of a lookup or promise accepts as its answer.
  predicate WellFormed(e: Entry, r: Response, d: Detail) {
    if e.op == LocationGet then r.status == Denied || d.fit
    else if e.op == NotificationPermission then r.status == Denied || r.status == Failed || d.permission.Some?
    else d.fit
  }

  /**
   A response settles a lookup or promise once, if and only if it is from this session, names a retained entry and is
   well-formed for it; then it frees the entry. Any other response leaves every lookup and promise as it was.
   */
  lemma ResponseSettlesExactly(s: State, r: Response, d: Detail)
    requires Valid(s) && s.frame == Idle
    ensures var s' := Receive(s, r, d);
            var e := Find(s.pending, r.id);
            if r.client == s.clientId && e.Some? && OneShot(e.value.op) && WellFormed(e.value, r, d)
            then r.id !in s.settled && s'.settled == s.settled + [r.id] && Find(s'.pending, r.id).None?
            else s'.settled == s.settled && OneShots(Held(s')) == OneShots(Held(s))
  {
    hide Consistent, OneShots, Handle, WellFormed, Held;
    var e := Find(s.pending, r.id);
    if r.client == s.clientId && e.Some? {
      if OneShot(e.value.op) {
        OneShotAnswers(s, e.value, r, d);
      } else {
        OtherAnswers(s, e.value, r, d);
      }
    }
  }

  lemma OneShotAnswers(s: State, e: Entry, r: Response, d: Detail)
    requires Valid(s) && s.frame == Idle && Find(s.pending, e.id) == Some(e) && OneShot(e.op)
    ensures var s' := Handle(s, e, r, d);
            && e.id !in s.settled
            && (if WellFormed(e, r, d) then s'.settled == s.settled + [e.id] && Find(s'.pending, e.id).None?
                else s'.settled == s.settled && Held(s') == Held(s))
  {
    hide Consistent, OneShots;
    RetainedIsUnsettled(s, e);
  }

  lemma OtherAnswers(s: State, e: Entry, r: Response, d: Detail)
    requires Valid(s) && s.frame == Idle && Find(s.pending, e.id) == Some(e) && !OneShot(e.op)
    ensures var s' := Handle(s, e, r, d);
            s'.settled == s.settled && OneShots(Held(s')) == OneShots(Held(s))
  {
    hide Consistent, Handle, OneShots;
    HandleKeeps(s, e, r, d);
    HandleOther(s, e, r, d);
    SameAccount(s, Handle(s, e, r, d));
  }

  lemma HandleOther(s: State, e: Entry, r: Response, d: Detail)
    requires !OneShot(e.op)
    ensures Handle(s, e, r, d).settled == s.settled && Handle(s, e, r, d).started == s.started
  {
    hide HandleConnect, HandleWatch, HandleShow, HandleClose, Drop;
    match e.op
    case Connect => ConnectSettles(s, e, r, d);
    case LocationWatch => WatchSame(s, e, r, d);
    case NotificationShow => ShowSame(s, e, r);
    case NotificationClose => CloseSame(s, e, r);
    case LocationClear => DropSettles(s, e.id);
    case ClipboardCancel =>
  }

  lemma ConnectSettles(s: State, e: Entry, r: Response, d: Detail)
    ensures HandleConnect(s, e, r, d).settled == s.settled && HandleConnect(s, e, r, d).started == s.started
  {
  }

  lemma DropSettles(s: State, id: Id)
    ensures Drop(s, id).settled == s.settled && Drop(s, id).started == s.started
  {
  }

  // What is retained is what was started and not settled.
  lemma SameAccount(s: State, s': State)
    requires Valid(s) && Valid(s') && s'.started == s.started && s'.settled == s.settled
    ensures OneShots(Held(s')) == OneShots(Held(s))
  {
    hide OneShots, Held;
    forall x ensures x in OneShots(Held(s')) <==> x in OneShots(Held(s)) {
      assert x in s.started <==> x in s.settled || x in OneShots(Held(s));
      assert x in s'.started <==> x in s'.settled || x in OneShots(Held(s'));
    }
  }

  // The retained rich write is posted, and waits for an answer.
  ghost predicate PostsOnce(s: State, id: Id, s': State) {
    && Find(s.pending, id).Some? && !Find(s.pending, id).value.posted && id in Waits(s'.pending)
    && s'.out == s.out + [Request(s.clientId, id, WriteItems, 0)]
  }

  /** A rich write is posted only while it is retained, and then it waits like every other request. */
  lemma WritePostsWhilePending(s: State, id: Id, fits: bool, cloneable: bool)
    requires Valid(s) && s.frame == Idle
    ensures var s' := Materialize(s, id, fits, cloneable);
            s'.out == s.out || PostsOnce(s, id, s')
  {
    var e := Find(s.pending, id);
    if id in s.writing && e.Some? && fits && !s.mute && cloneable {
      assert EntryOk(s, e.value);
      ChangeMembers(s.pending, id, false, e.value.(posted := true));
    }
  }

  /********** Rich writes **********/

  predicate IsRichWrite(m: Message) { m.Request? && m.op == WriteItems }

  // A part of a step that posts no rich write and reads no data for one.
  ghost predicate Plain(s: State, s': State) {
    && s.out <= s'.out && (forall i :: |s.out| <= i < |s'.out| ==> !IsRichWrite(s'.out[i]))
    && s'.writing == s.writing && s.next <= s'.next
  }

  lemma CancelPlain(s: State, op: Op, target: Id)
    requires op != WriteItems
    ensures Plain(s, Cancel(s, op, target))
  {
  }

  lemma FailLocationPlain(s: State, e: Entry, cancel: bool)
    requires e.op == Connect || e.op == LocationGet || e.op == LocationWatch || e.op == LocationClear
    ensures Plain(s, Fail(s, e, cancel))
  {
    hide Cancel;
    CancelPlain(s, LocationClear, e.id);
  }

  lemma FailNoticePlain(s: State, e: Entry, cancel: bool)
    requires e.op == NotificationPermission || e.op == NotificationShow || e.op == NotificationClose
    ensures Plain(s, Fail(s, e, cancel))
  {
    hide Cancel;
    CancelPlain(s, NotificationClose, e.id);
  }

  lemma FailCopyPlain(s: State, e: Entry, cancel: bool)
    requires IsCopy(e.op) || e.op == ClipboardCancel
    ensures Plain(s, Fail(s, e, cancel))
  {
    hide Cancel;
    CancelPlain(s, ClipboardCancel, e.id);
  }

  lemma FailPlain(s: State, e: Entry, cancel: bool)
    ensures Plain(s, Fail(s, e, cancel))
  {
    hide Fail, Plain;
    match e.op
    case NotificationPermission => FailNoticePlain(s, e, cancel);
    case NotificationShow => FailNoticePlain(s, e, cancel);
    case NotificationClose => FailNoticePlain(s, e, cancel);
    case Connect => FailLocationPlain(s, e, cancel);
    case LocationGet => FailLocationPlain(s, e, cancel);
    case LocationWatch => FailLocationPlain(s, e, cancel);
    case LocationClear => FailLocationPlain(s, e, cancel);
    case _ => FailCopyPlain(s, e, cancel);
  }

  lemma StartRequestPlain(s: State, e: Entry)
    requires e.op != WriteItems
    ensures Plain(s, StartRequest(s, e))
  {
    FailPlain(s, e, false);
  }

  lemma StartPlain(s: State, op: Op, target: Id, watchId: nat)
    requires op != WriteItems
    ensures Plain(s, Start(s, op, target, watchId))
  {
    hide StartRequest;
    var b := Begun(s, op, target, watchId, CapabilityOf(op).Some?, true);
    StartRequestPlain(b.0, b.1);
  }

  lemma AnswerPlain(s: State, e: Entry, r: Response, d: Detail)
    ensures Plain(s, HandleLookup(s, e, r, d)) && Plain(s, HandleWatch(s, e, r, d)) && Plain(s, HandleCopy(s, e, r, d))
    ensures Plain(s, HandleConnect(s, e, r, d))
  {
  }

  lemma ShownPlain(s: State, e: Entry, r: Response)
    ensures Plain(s, HandleShow(s, e, r)) && Plain(s, HandleClose(s, e, r))
  {
  }

  lemma PermissionPlain(s: State, e: Entry, r: Response, d: Detail)
    ensures Plain(s, HandlePermission(s, e, r, d))
  {
  }

  lemma HandlePlain(s: State, e: Entry, r: Response, d: Detail)
    ensures Plain(s, Handle(s, e, r, d))
  {
    hide HandleLookup, HandleWatch, HandleCopy, HandleConnect, HandleShow, HandleClose, HandlePermission;
    AnswerPlain(s, e, r, d);
    ShownPlain(s, e, r);
    PermissionPlain(s, e, r, d);
  }

  // What one step does to rich writes: it may reserve one under the next identity, or post one whose data was read.
  ghost predicate WritesStep(s: State, a: Action, s': State) {
    && s.out <= s'.out && s.next <= s'.next
    && (forall x :: x in s'.writing ==> x in s.writing || s.next <= x < s'.next)
    && (forall i :: |s.out| <= i < |s'.out| && IsRichWrite(s'.out[i]) ==>
          && s'.out == s.out + [s'.out[i]]
          && a.Materializes? && s'.out[i].id == a.id && a.id in s.writing && a.id !in s'.writing
          && Find(s.pending, a.id).Some? && !Find(s.pending, a.id).value.posted)
  }

  lemma PlainStep(s: State, a: Action, s': State)
    requires Plain(s, s')
    ensures WritesStep(s, a, s')
  {
  }

  lemma CallWrites(s: State, call: Call)
    ensures WritesStep(s, Action.Call(call), Invoke(s, call))
  {
    hide Start, StartRequest;
    match call
    case GetCurrentPosition => StartPlain(s, LocationGet, 0, 0);
    case WatchPosition => WatchWrites(s);
    case ClearWatch(watchId) =>
      if FindWatch(s.pending, watchId).Some? {
        var id := FindWatch(s.pending, watchId).value.id;
        StartPlain(Drop(s, id), LocationClear, id, 0);
      }
    case RequestPermission => StartPlain(s, NotificationPermission, 0, 0);
    case NewNotification =>
      StartPlain(s.(notifications := s.notifications + {s.next}, built := s.built + {s.next}), NotificationShow, 0, 0);
    case CloseNotification(id) => StartPlain(s.(closed := s.closed + {id}), NotificationClose, id, 0);
    case CallReadText => StartPlain(s, ReadText, 0, 0);
    case CallWriteText => StartPlain(s, WriteText, 0, 0);
    case CallReadItems => StartPlain(s, ReadItems, 0, 0);
    case CallWriteItems => ReserveWrites(s);
  }

  lemma WatchWrites(s: State)
    ensures Plain(s, StartWatch(s))
  {
    var s1 := s.(next := s.next + 1, nextWatchId := if s.nextWatchId >= LAST_WATCH_ID then 1 else s.nextWatchId + 1);
    StartRequestPlain(s1, Entry(s.next, LocationWatch, 0, s.nextWatchId, true, true, true));
  }

  lemma ReserveWrites(s: State)
    ensures WritesStep(s, Action.Call(CallWriteItems), ReserveWrite(s))
  {
    var b := Begun(s, WriteItems, 0, 0, true, false);
    FailPlain(b.0, b.1, false);
  }

  lemma MaterializeWrites(s: State, id: Id, fits: bool, cloneable: bool)
    requires Valid(s) && s.frame == Idle
    ensures WritesStep(s, Materializes(id, fits, cloneable), Materialize(s, id, fits, cloneable))
  {
    hide Consistent;
    if id in s.writing && Find(s.pending, id).Some? {
      UnpostedWhileReading(s, id);
      var s1 := s.(writing := s.writing - {id});
      FailPlain(Drop(s1, id), Find(s.pending, id).value, false);
    }
  }

  // An entry whose data is still being read was not posted.
  lemma UnpostedWhileReading(s: State, id: Id)
    requires Valid(s) && s.frame == Idle && id in s.writing && Find(s.pending, id).Some?
    ensures !Find(s.pending, id).value.posted
  {
    assert EntryOk(s, Find(s.pending, id).value);
  }

  lemma NextWrites(s: State, a: Action)
    requires Valid(s) && Enabled(s, a)
    ensures WritesStep(s, a, Next(s, a))
  {
    hide Valid, Plain, WritesStep, Invoke, Handle, Fail, Start, Materialize;
    match a
    case Call(call) => CallWrites(s, call);
    case Materializes(id, fits, cloneable) => MaterializeWrites(s, id, fits, cloneable);
    case _ =>
      OtherPlain(s, a);
      PlainStep(s, a, Next(s, a));
  }

  lemma OtherPlain(s: State, a: Action)
    requires !a.Call? && !a.Materializes?
    ensures Plain(s, Next(s, a))
  {
    hide Handle, Fail, Start;
    match a
    case Returns =>
      if s.frame.FinishDisconnect? && s.frame.rest != [] {
        FailPlain(s.(frame := FinishDisconnect(s.frame.rest[1..])), s.frame.rest[0], true);
      }
    case Hears(r, d) =>
      if Find(s.pending, r.id).Some? { HandlePlain(s, Find(s.pending, r.id).value, r, d); }
    case Expires(id) =>
      if Find(s.pending, id).Some? { FailPlain(Drop(s, id), Find(s.pending, id).value, true); }
    case Hides =>
    case Shows => StartPlain(Restored(s), Connect, 0, 0);
    case Mutes(gone) =>
  }

  // Since position n, every rich write was posted under its own identity, and none of them is being read again.
  ghost predicate WritesOk(s: State, n: nat) {
    && n <= |s.out| && (forall x :: x in s.writing ==> x < s.next)
    && (forall i :: n <= i < |s.out| && IsRichWrite(s.out[i]) ==> s.out[i].id < s.next && s.out[i].id !in s.writing)
    && (forall i, j :: n <= i < j < |s.out| && IsRichWrite(s.out[i]) && IsRichWrite(s.out[j]) ==>
        s.out[i].id != s.out[j].id)
  }

  lemma StepWritesOk(s: State, a: Action, s': State, n: nat)
    requires WritesStep(s, a, s') && WritesOk(s, n)
    ensures WritesOk(s', n)
  {
    forall i | 0 <= i < |s.out| ensures s'.out[i] == s.out[i] { }
  }

  lemma {:induction false} RunWritesOk(s: State, actions: seq<Action>, n: nat)
    requires Valid(s) && WritesOk(s, n)
    ensures WritesOk(After(s, actions), n)
    decreases |actions|
  {
    hide Valid, Next, WritesOk, WritesStep;
    if actions != [] {
      if Enabled(s, actions[0]) {
        NextWrites(s, actions[0]);
        StepWritesOk(s, actions[0], Next(s, actions[0]), n);
        NextKeepsValid(s, actions[0]);
        RunWritesOk(Next(s, actions[0]), actions[1..], n);
      } else {
        RunWritesOk(s, actions[1..], n);
      }
    }
  }

  /**
   In every run of a document, a rich write is posted at most once, and only by a step that ends the reading of its
   data while its entry is retained and not yet posted.
   */
  lemma RichWritesPostOnce(before: State, actions: seq<Action>, a: Action)
    requires Enabled(After(Boot(before), actions), a)
    ensures var s := After(Boot(before), actions);
            forall i, j :: |before.out| <= i < j < |s.out| && IsRichWrite(s.out[i]) && IsRichWrite(s.out[j]) ==>
              s.out[i].id != s.out[j].id
    ensures WritesStep(After(Boot(before), actions), a, Next(After(Boot(before), actions), a))
  {
    hide Valid, Next, WritesStep;
    BootKeeps(before);
    var s0 := Boot(before);
    StartPlain(Booted(before), Connect, 0, 0);
    AfterKeepsValid(s0, actions);
    NextWrites(After(s0, actions), a);
    RunWritesOk(s0, actions, |before.out|);
  }

  /********** Admission **********/

  // A request under the next identity is retained and posted.
  ghost predicate Admitted(s: State, s': State, op: Op, target: Id) {
    && Find(s'.pending, s.next).Some? && Find(s'.pending, s.next).value.op == op
    && s'.out == s.out + [Request(s.clientId, s.next, op, target)]
  }

  lemma FreshEntry(s: State)
    requires Valid(s) && !s.frame.FinishDisconnect?
    ensures Find(s.pending, s.next).None?
  {
    assert forall e :: e in s.pending ==> EntryOk(s, e);
  }

  lemma {:induction false} FindLast(p: seq<Entry>, e: Entry)
    requires Find(p, e.id).None?
    ensures Find(p + [e], e.id) == Some(e)
  {
    if p == [] {
      assert p + [e] == [e];
    } else {
      assert (p + [e])[1..] == p[1..] + [e];
      FindLast(p[1..], e);
    }
  }

  lemma DisconnectedFrame(s: State)
    requires Valid(s)
    ensures s.frame.FinishDisconnect? ==> s.disconnected
  {
  }

  /**
   A lookup or promise is retained and posted if and only if the session is connected, the table holds fewer than 32
   requests and fewer than 16 that await consent, and posting works; otherwise it is told its failure at once.
   */
  lemma AdmittedExactly(s: State, op: Op)
    requires Valid(s) && OneShot(op) && op != WriteItems
    ensures var s' := Start(s, op, 0, 0);
            && (Admitted(s, s', op, 0)
                <==> !s.disconnected && |s.pending| < MAX_OPERATIONS && Awaiting(s.pending) < MAX_CONSENT && !s.mute)
            && (!Admitted(s, s', op, 0) ==>
                s'.settled == s.settled + [s.next] && s'.pending == s.pending && s'.out == s.out)
  {
    hide Consistent, Fail, Post, Admitted, StartRequest;
    DisconnectedFrame(s);
    var b := Begun(s, op, 0, 0, true, true);
    UnsettledNext(s);
    FailsAtOnce(b.0, b.1);
    if !s.disconnected && !Full(s, true) && !s.mute { RoomAdmits(s, b.0, b.1); } else { NotAdmitted(s, b.0, b.1); }
  }

  lemma RoomAdmits(s: State, s1: State, e: Entry)
    requires Valid(s) && !s.disconnected && !Full(s, true) && !s.mute && e.id == s.next && e.awaiting
    requires s1 == s.(next := s1.next, started := s1.started)
    ensures Admitted(s, StartRequest(s1, e), e.op, e.target)
  {
    hide Consistent;
    DisconnectedFrame(s);
    FreshEntry(s);
    FindLast(s.pending, e);
  }

  lemma NotAdmitted(s: State, s1: State, e: Entry)
    requires (s.disconnected || Full(s, true) || s.mute) && e.awaiting
    requires s1 == s.(next := s1.next, started := s1.started) && Fail(s1, e, false).out == s.out
    ensures StartRequest(s1, e) == Fail(s1, e, false) && !Admitted(s, StartRequest(s1, e), e.op, e.target)
  {
    hide Fail;
    assert s.out != s.out + [Request(s.clientId, s.next, e.op, e.target)];
  }

  lemma FailsAtOnce(s: State, e: Entry)
    requires OneShot(e.op) && e.id !in s.settled
    ensures var s' := Fail(s, e, false);
            s'.settled == s.settled + [e.id] && s'.pending == s.pending && s'.out == s.out
  {
  }

  lemma UnsettledNext(s: State)
    requires Valid(s)
    ensures s.next !in s.settled
  {
  }

  /** A rich write is retained, unposted while its data is read, if and only if there is such room; or it fails. */
  lemma WriteAdmittedExactly(s: State)
    requires Valid(s)
    ensures var s' := ReserveWrite(s);
            var retained := Find(s'.pending, s.next).Some? && s.next in s'.writing;
            && s'.out == s.out
            && (retained <==> !s.disconnected && |s.pending| < MAX_OPERATIONS && Awaiting(s.pending) < MAX_CONSENT)
            && (!retained ==> s'.settled == s.settled + [s.next] && s'.pending == s.pending)
  {
    hide Consistent;
    DisconnectedFrame(s);
    UnsettledNext(s);
    UnreadNext(s);
    if !s.disconnected {
      FreshEntry(s);
      FindLast(s.pending, Entry(s.next, WriteItems, 0, 0, true, true, false));
    }
  }

  lemma UnreadNext(s: State)
    requires Valid(s)
    ensures s.next !in s.writing
  {
  }

  /** The same of a watch, of which at most 8 are retained. */
  lemma WatchAdmittedExactly(s: State)
    requires Valid(s)
    ensures Admitted(s, StartWatch(s), LocationWatch, 0)
       <==> !s.disconnected && Watches(s.pending) < MAX_WATCHING && |s.pending| < MAX_OPERATIONS
            && Awaiting(s.pending) < MAX_CONSENT && !s.mute
  {
    hide Consistent;
    DisconnectedFrame(s);
    assert s.out != s.out + [Request(s.clientId, s.next, LocationWatch, 0)];
    if !s.disconnected {
      FreshEntry(s);
      FindLast(s.pending, Entry(s.next, LocationWatch, 0, s.nextWatchId, true, true, true));
    }
  }

  /** The same of a notification, which must be permitted. */
  lemma ShowAdmittedExactly(s: State)
    requires Valid(s)
    ensures Admitted(s, BuildNotification(s), NotificationShow, 0)
       <==> s.permission == Granted && !s.disconnected && |s.pending| < MAX_OPERATIONS
            && Awaiting(s.pending) < MAX_CONSENT && !s.mute
  {
    hide Consistent;
    DisconnectedFrame(s);
    assert s.out != s.out + [Request(s.clientId, s.next, NotificationShow, 0)];
    if !s.disconnected {
      FreshEntry(s);
      FindLast(s.pending, Entry(s.next, NotificationShow, 0, 0, true, true, true));
    }
  }

  /********** Permission **********/

  // The answer tells the notification permission.
  function Tells(s: State, a: Action): Option<Permission> {
    if !a.Hears? || a.response.client != s.clientId then None
    else
      match Find(s.pending, a.response.id)
      case None => None
      case Some(e) =>
        if e.op == NotificationPermission && a.response.status == Denied then Some(Blocked)
        else if e.op == NotificationPermission && a.response.status == Ok then a.detail.permission
        else if e.op == Connect && a.response.status == Ok then a.detail.permission
        else None
  }

  // What the parent told of the permission last, in this session.
  function ToldLast(before: State, actions: seq<Action>): Permission
    decreases |actions|
  {
    if actions == [] then Default
    else
      var rest, a := actions[..|actions| - 1], actions[|actions| - 1];
      var s := After(Boot(before), rest);
      if !Enabled(s, a) then ToldLast(before, rest)
      else if a.Shows? && s.hidden then Default
      else if Tells(s, a).Some? then Tells(s, a).value
      else ToldLast(before, rest)
  }

  lemma StepTells(s: State, a: Action)
    requires Enabled(s, a)
    ensures Next(s, a).permission
         == if a.Shows? && s.hidden then Default else if Tells(s, a).Some? then Tells(s, a).value else s.permission
  {
    hide Invoke, Fail, Start, Handle;
    match a
    case Call(call) => CallTells(s, call);
    case Returns =>
      if s.frame.FinishDisconnect? && s.frame.rest != [] {
        FailSays(s.(frame := FinishDisconnect(s.frame.rest[1..])), s.frame.rest[0], true);
      }
    case Hears(r, d) =>
      if r.client == s.clientId && Find(s.pending, r.id).Some? { HandleTells(s, Find(s.pending, r.id).value, r, d); }
    case Expires(id) => if Find(s.pending, id).Some? { FailSays(Drop(s, id), Find(s.pending, id).value, true); }
    case Hides =>
    case Shows => if s.hidden { StartTells(Restored(s), Connect, 0, 0); }
    case Materializes(id, fits, cloneable) =>
      if Find(s.pending, id).Some? {
        FailSays(Drop(s.(writing := s.writing - {id}), id), Find(s.pending, id).value, false);
      }
    case Mutes(gone) =>
  }

  lemma FailSays(s: State, e: Entry, cancel: bool)
    ensures Fail(s, e, cancel).permission == s.permission
  {
  }

  lemma StartTells(s: State, op: Op, target: Id, watchId: nat)
    ensures Start(s, op, target, watchId).permission == s.permission
  {
    hide Fail;
    var b := Begun(s, op, target, watchId, CapabilityOf(op).Some?, true);
    FailSays(b.0, b.1, false);
  }

  lemma CallTells(s: State, call: Call)
    ensures Invoke(s, call).permission == s.permission
  {
    hide Start, Fail;
    match call
    case GetCurrentPosition => StartTells(s, LocationGet, 0, 0);
    case WatchPosition =>
      var s1 := s.(next := s.next + 1, nextWatchId := if s.nextWatchId >= LAST_WATCH_ID then 1 else s.nextWatchId + 1);
      FailSays(s1, Entry(s.next, LocationWatch, 0, s.nextWatchId, true, true, true), false);
    case ClearWatch(watchId) =>
      if FindWatch(s.pending, watchId).Some? {
        var id := FindWatch(s.pending, watchId).value.id;
        StartTells(Drop(s, id), LocationClear, id, 0);
      }
    case RequestPermission => StartTells(s, NotificationPermission, 0, 0);
    case NewNotification =>
      StartTells(s.(notifications := s.notifications + {s.next}, built := s.built + {s.next}), NotificationShow, 0, 0);
    case CloseNotification(id) => StartTells(s.(closed := s.closed + {id}), NotificationClose, id, 0);
    case CallReadText => StartTells(s, ReadText, 0, 0);
    case CallWriteText => StartTells(s, WriteText, 0, 0);
    case CallReadItems => StartTells(s, ReadItems, 0, 0);
    case CallWriteItems =>
      var b := Begun(s, WriteItems, 0, 0, true, false);
      FailSays(b.0, b.1, false);
  }

  lemma HandleTells(s: State, e: Entry, r: Response, d: Detail)
    requires Find(s.pending, r.id) == Some(e) && r.client == s.clientId
    ensures Handle(s, e, r, d).permission
         == if Tells(s, Hears(r, d)).Some? then Tells(s, Hears(r, d)).value else s.permission
  {
    hide HandleLookup, HandleWatch, HandleShow, HandleClose, HandleCopy, Settle, Sever, Find;
    SettledSays(s, r, d, e);
    match e.op
    case Connect => SeverTells(Drop(s, e.id));
    case LocationGet => LookupSame(s, e, r, d);
    case LocationWatch => WatchSame(s, e, r, d);
    case NotificationPermission =>
    case NotificationShow => ShowSame(s, e, r);
    case NotificationClose => CloseSame(s, e, r);
    case LocationClear =>
    case ClipboardCancel =>
    case _ => CopySame(s, e, r, d);
  }

  lemma SettledSays(s: State, r: Response, d: Detail, e: Entry)
    ensures Settle(Drop(s, e.id), e.id).permission == s.permission
    ensures Settle(Drop(s.(permission := Blocked), e.id), e.id).permission == Blocked
    ensures d.permission.Some?
            ==> Settle(Drop(s.(permission := d.permission.value), e.id), e.id).permission == d.permission.value
  {
  }

  lemma SeverTells(s: State)
    ensures Sever(s).permission == s.permission
  {
  }

  lemma LookupSame(s: State, e: Entry, r: Response, d: Detail)
    ensures HandleLookup(s, e, r, d).permission == s.permission
  {
  }

  lemma CopySame(s: State, e: Entry, r: Response, d: Detail)
    ensures HandleCopy(s, e, r, d).permission == s.permission
  {
  }

  // Nothing is settled, and the permission stays.
  predicate SameMood(s: State, s': State) {
    s'.permission == s.permission && s'.settled == s.settled && s'.started == s.started
  }

  lemma WatchSame(s: State, e: Entry, r: Response, d: Detail)
    ensures SameMood(s, HandleWatch(s, e, r, d))
  {
  }

  lemma ShowSame(s: State, e: Entry, r: Response)
    ensures SameMood(s, HandleShow(s, e, r))
  {
  }

  lemma CloseSame(s: State, e: Entry, r: Response)
    ensures SameMood(s, HandleClose(s, e, r))
  {
  }

  /** In every run, the page believes of the notification permission what the parent told it last in this session. */
  lemma {:induction false} PermissionIsTold(before: State, actions: seq<Action>)
    ensures After(Boot(before), actions).permission == ToldLast(before, actions)
    decreases |actions|
  {
    hide Next, Boot, Tells;
    if actions == [] {
      BootTells(before);
    } else {
      var rest, a := actions[..|actions| - 1], actions[|actions| - 1];
      assert actions == rest + [a];
      PermissionIsTold(before, rest);
      Extends(Boot(before), rest, a);
      if Enabled(After(Boot(before), rest), a) { StepTells(After(Boot(before), rest), a); }
    }
  }

  lemma BootTells(before: State)
    ensures Boot(before).permission == Default
  {
    StartTells(Booted(before), Connect, 0, 0);
  }

  lemma {:induction false} Extends(s: State, actions: seq<Action>, a: Action)
    ensures After(s, actions + [a]) == Perform(After(s, actions), a)
    decreases |actions|
  {
    if actions == [] {
      assert actions + [a] == [a] && [a][1..] == [];
    } else {
      assert (actions + [a])[0] == actions[0] && (actions + [a])[1..] == actions[1..] + [a];
      Extends(Perform(s, actions[0]), actions[1..], a);
    }
  }
}
