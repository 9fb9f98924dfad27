/**
 What the shim promises the parent: its messages name fresh requests, its cancellations name requests of the
 right kind, and whatever may wait in the parent is still counted against the shim's own limit.
 */
module ShimWire {
  import opened Wrappers
  import opened Protocol
  import opened ShimSpec
  import opened ShimInvariant

  /********** What is on its way **********/

  // Requests of `client` that may wait for consent after message m, if those in f could before.
  function Through(client: Client, f: set<Id>, m: Message): set<Id> {
    if m.client != client then f
    else
      match m
      case Disconnect(_) => {}
      case Garbled(_, _) => f
      case Request(_, id, op, target) =>
        if CapabilityOf(op).Some? then f + {id} else if IsCancel(op) then f - {target} else f
  }

  function Flow(client: Client, f: set<Id>, messages: seq<Message>): set<Id>
    decreases |messages|
  {
    if messages == [] then f else Flow(client, Through(client, f, messages[0]), messages[1..])
  }

  lemma {:induction false} FlowAppend(client: Client, f: set<Id>, a: seq<Message>, b: seq<Message>)
    ensures Flow(client, f, a + b) == Flow(client, Flow(client, f, a), b)
    decreases |a|
  {
    if a == [] {
      assert a + b == b;
    } else {
      assert (a + b)[0] == a[0] && (a + b)[1..] == a[1..] + b;
      FlowAppend(client, Through(client, f, a[0]), a[1..], b);
    }
  }

  lemma {:induction false} FlowMono(client: Client, f: set<Id>, g: set<Id>, messages: seq<Message>)
    requires f <= g
    ensures Flow(client, f, messages) <= Flow(client, g, messages)
    decreases |messages|
  {
    if messages != [] {
      FlowMono(client, Through(client, f, messages[0]), Through(client, g, messages[0]), messages[1..]);
    }
  }

  /********** The posted log **********/

  // Every posted request has its own id, and every cancellation names a request of the right kind.
  ghost predicate LogOk(out: seq<Message>, next: nat, built: set<Id>, writing: set<Id>) {
    && (forall m :: m in out ==> m.client < next && !m.Garbled?)
    && (forall m :: m in out && m.Request? ==>
          && m.id < next && m.id !in writing && (m.id in built ==> m.op == NotificationShow)
          && (IsCancel(m.op) ==> m.target < next && m.target !in writing))
    && (forall i, j :: 0 <= i < j < |out| && out[i].Request? && out[j].Request? ==> out[i].id != out[j].id)
    && (forall m, t :: m in out && t in out && m.Request? && t.Request? && IsCancel(m.op) && t.id == m.target ==>
        Cancels(m.op, t.op))
  }

  // The request message of a posted entry.
  function MessageOf(client: Client, e: Entry): Message { Request(client, e.id, e.op, e.target) }

  ghost predicate Named(s: State, e: Entry) { e.posted ==> MessageOf(s.clientId, e) in s.out }

  ghost predicate WireOk(s: State) {
    LogOk(s.out, s.next, s.built, s.writing) && forall e :: e in Held(s) ==> Named(s, e)
  }

  // Everything in f is still counted, and nothing in f is being closed.
  ghost predicate Covers(s: State, f: set<Id>) {
    f <= Waits(Held(s)) && forall e :: e in Held(s) && e.op == NotificationClose ==> e.target !in f
  }

  // A step of the document: what it posted, and what it still counts.
  ghost predicate Carries(s: State, f: set<Id>, s': State) {
    && s'.clientId == s.clientId && s'.mute == s.mute && s.next <= s'.next && s.out <= s'.out && |s'.out| <= |s.out| + 1
    && WireOk(s') && Covers(s', Flow(s.clientId, f, s'.out[|s.out|..]))
  }

  lemma CarriesSilently(s: State, f: set<Id>, s': State)
    requires s'.clientId == s.clientId && s'.mute == s.mute && s.next <= s'.next && s'.out == s.out && WireOk(s')
    requires Covers(s', f)
    ensures Carries(s, f, s')
  {
    assert s'.out[|s.out|..] == [];
  }

  lemma CarriesOne(s: State, f: set<Id>, s': State, m: Message)
    requires s'.clientId == s.clientId && s'.mute == s.mute && s.next <= s'.next && s'.out == s.out + [m] && WireOk(s')
    requires Covers(s', Through(s.clientId, f, m))
    ensures Carries(s, f, s')
  {
    var tail := s'.out[|s.out|..];
    assert tail == [m];
    assert Flow(s.clientId, f, [m]) == Flow(s.clientId, Through(s.clientId, f, m), []) by { assert [m][1..] == []; }
  }

  /********** Posting **********/

  lemma LogGrows(out: seq<Message>, next: nat, built: set<Id>, writing: set<Id>, m: Message)
    requires LogOk(out, next, built, writing) && m.client < next && !m.Garbled?
    requires m.Request? ==> m.id < next && m.id !in writing && (m.id in built ==> m.op == NotificationShow)
    requires m.Request? ==> forall t :: t in out && t.Request? ==> t.id != m.id && (IsCancel(t.op) ==> t.target != m.id)
    requires m.Request? && IsCancel(m.op) ==> m.target < next && m.target !in writing && m.target != m.id
    requires m.Request? && IsCancel(m.op)
             ==> forall t :: t in out && t.Request? && t.id == m.target ==> Cancels(m.op, t.op)
    ensures LogOk(out + [m], next, built, writing)
  {
    var more := out + [m];
    forall i, j | 0 <= i < j < |more| && more[i].Request? && more[j].Request? ensures more[i].id != more[j].id {
      assert more[i] == out[i] && out[i] in out;
      if j < |out| { assert more[j] == out[j]; }
    }
    forall x | x in more ensures x == m || x in out { }
  }

  lemma LogLater(out: seq<Message>, next: nat, built: set<Id>, writing: set<Id>, later: nat)
    requires LogOk(out, next, built, writing) && next <= later
    ensures LogOk(out, later, built, writing)
  {
  }

  // The posted request of a posted entry is the only one with its id.
  lemma OnlyNamed(out: seq<Message>, m: Message, t: Message)
    requires forall i, j :: 0 <= i < j < |out| && out[i].Request? && out[j].Request? ==> out[i].id != out[j].id
    requires m in out && t in out && m.Request? && t.Request? && m.id == t.id
    ensures m == t
  {
    var i :| 0 <= i < |out| && out[i] == m;
    var j :| 0 <= j < |out| && out[j] == t;
    assert i == j;
  }

  lemma CancelLog(s: State, op: Op, e: Entry)
    requires LogOk(s.out, s.next, s.built, s.writing) && s.clientId < s.next && s.next !in s.writing
    requires s.next !in s.built
    requires IsCancel(op) && Cancels(op, e.op) && MessageOf(s.clientId, e) in s.out && e.id < s.next
    requires e.id !in s.writing
    ensures LogOk(s.out + [Request(s.clientId, s.next, op, e.id)], s.next + 1, s.built, s.writing)
  {
    LogLater(s.out, s.next, s.built, s.writing, s.next + 1);
    forall t | t in s.out && t.Request? && t.id == e.id ensures Cancels(op, t.op) {
      OnlyNamed(s.out, MessageOf(s.clientId, e), t);
    }
    LogGrows(s.out, s.next + 1, s.built, s.writing, Request(s.clientId, s.next, op, e.id));
  }

  // A cancellation that this document posts for one of its own posted entries.
  lemma NextUnused(s: State, loose: set<Id>)
    requires Consistent(s, loose)
    ensures s.clientId < s.next && s.next !in s.writing && s.next !in s.built
  {
  }

  lemma CancelCarries(s: State, op: Op, e: Entry, f: set<Id>)
    requires Consistent(s, Loose(e)) && WireOk(s) && !s.mute && Covers(s, f - {e.id})
    requires IsCancel(op) && Cancels(op, e.op) && MessageOf(s.clientId, e) in s.out && e.id < s.next
    requires e.id !in s.writing
    ensures Carries(s, f, Cancel(s, op, e.id))
  {
    hide Consistent, LogOk, Flow;
    NextUnused(s, Loose(e));
    CancelLog(s, op, e);
    assert Held(Cancel(s, op, e.id)) == Held(s);
    CarriesOne(s, f, Cancel(s, op, e.id), Request(s.clientId, s.next, op, e.id));
  }

  // Nothing that the parent or the limits look at has changed since s1.
  ghost predicate Aside(s1: State, s2: State) {
    && s2.clientId == s1.clientId && s2.mute == s1.mute && s2.out == s1.out && s2.next == s1.next
    && s2.built == s1.built && s2.writing == s1.writing
    && Held(s2) == Held(s1)
  }

  lemma CarriesAside(s: State, f: set<Id>, s1: State, s2: State)
    requires Carries(s, f, s1) && Aside(s1, s2)
    ensures Carries(s, f, s2)
  {
  }

  lemma NothingCarries(s: State, f: set<Id>, s': State)
    requires WireOk(s) && Covers(s, f) && Aside(s, s')
    ensures Carries(s, f, s')
  {
    CarriesSilently(s, f, s');
  }

  /********** Failing an entry **********/

  // An entry that was taken out of the table and is about to fail.
  ghost predicate Leaving(s: State, e: Entry, f: set<Id>, cancel: bool) {
    && Consistent(s, Loose(e)) && EntryOk(s, e) && WireOk(s) && !s.mute
    && (e.op == Connect ==> s.frame == Idle || s.disconnected)
    && Covers(s, f - {e.id})
    && (e.id in f ==> cancel && CapabilityOf(e.op).Some? && e.posted && Named(s, e))
    && (e.op == NotificationClose ==> s.frame.FinishDisconnect? || e.target !in f)
  }

  lemma CancelKind(op: Op)
    ensures CapabilityOf(op).Some? ==> IsCancel(CancelOf(op)) && Cancels(CancelOf(op), op)
  {
  }

  // Whether or not the parent is told, the failed request is not counted on any more.
  lemma LeavingCarries(s: State, e: Entry, f: set<Id>, cancel: bool, tell: bool)
    requires Leaving(s, e, f, cancel) && CapabilityOf(e.op).Some?
    requires tell ==> e.posted && Named(s, e)
    requires !tell ==> e.id !in f
    ensures Carries(s, f, if tell then Cancel(s, CancelOf(e.op), e.id) else s)
  {
    if tell {
      CancelKind(e.op);
      CancelCarries(s, CancelOf(e.op), e, f);
    } else {
      assert f - {e.id} == f;
      NothingCarries(s, f, s);
    }
  }

  lemma RemoveCovers(s: State, id: Id, f: set<Id>)
    requires Distinct(Held(s)) && WireOk(s) && Covers(s, f) && (s.frame.FinishDisconnect? || id !in f)
    ensures Carries(s, f, Drop(s, id))
  {
    var s' := Drop(s, id);
    if !s.frame.FinishDisconnect? {
      RemoveOneShots(s.pending, id);
      forall e | e in Held(s') ensures Named(s', e) { assert Named(s, e); }
    } else {
      assert Held(s') == Held(s);
    }
    CarriesSilently(s, f, s');
  }

  lemma FailCarries(s: State, e: Entry, f: set<Id>, cancel: bool)
    requires Leaving(s, e, f, cancel) && (cancel ==> e.posted ==> Named(s, e))
    ensures Carries(s, f, Fail(s, e, cancel))
  {
    var s' := Fail(s, e, cancel);
    if CapabilityOf(e.op).Some? {
      var tell := cancel && e.posted;
      LeavingCarries(s, e, f, cancel, tell);
      FailTells(s, e, cancel);
      CarriesAside(s, f, if tell then Cancel(s, CancelOf(e.op), e.id) else s, s');
    } else {
      assert f - {e.id} == f;
      if e.op == NotificationClose {
        RemoveCovers(s, e.target, f);
        CarriesAside(s, f, Drop(s, e.target), s');
      } else {
        NothingCarries(s, f, s');
      }
    }
  }

  // What failing a consent request does besides telling the parent.
  lemma CopyTells(s: State, e: Entry, cancel: bool)
    requires Consistent(s, Loose(e)) && IsCopy(e.op)
    ensures Aside(if cancel && e.posted then Cancel(s, ClipboardCancel, e.id) else s, Fail(s, e, cancel))
  {
    hide Cancel, Consistent;
    LooseUnsettled(s, e.id);
  }

  lemma NoticeTells(s: State, e: Entry, cancel: bool)
    requires Consistent(s, Loose(e)) && EntryOk(s, e) && (e.op == NotificationPermission || e.op == NotificationShow)
    ensures Aside(if cancel then Cancel(s, NotificationClose, e.id) else s, Fail(s, e, cancel))
  {
    hide Cancel;
  }

  lemma LocationTells(s: State, e: Entry, cancel: bool)
    requires e.op == LocationGet || e.op == LocationWatch
    ensures Aside(if cancel then Cancel(s, LocationClear, e.id) else s, Fail(s, e, cancel))
  {
    hide Cancel;
  }

  lemma FailTells(s: State, e: Entry, cancel: bool)
    requires Consistent(s, Loose(e)) && EntryOk(s, e) && CapabilityOf(e.op).Some?
    ensures Aside(if cancel && e.posted then Cancel(s, CancelOf(e.op), e.id) else s, Fail(s, e, cancel))
  {
    hide Cancel, Fail, Aside, Consistent;
    if IsCopy(e.op) { CopyTells(s, e, cancel); }
    else if e.op == LocationGet || e.op == LocationWatch { LocationTells(s, e, cancel); }
    else { NoticeTells(s, e, cancel); }
  }

  /********** Starting a request **********/

  // A request whose id is new to everybody.
  ghost predicate Unheard(s: State, e: Entry) {
    && Starting(s, e) && WireOk(s) && !s.mute && e.posted && e.id !in s.writing
    && (forall m :: m in s.out && m.Request? ==> m.id != e.id && (IsCancel(m.op) ==> m.target != e.id))
    && (forall x :: x in Held(s) && x.op == NotificationClose ==> x.target != e.id)
    && (CapabilityOf(e.op).Some? ==> e.awaiting)
    && (IsCancel(e.op) ==>
          && e.target < s.next && e.target !in s.writing && e.target != e.id
          && forall t :: t in s.out && t.Request? && t.id == e.target ==> Cancels(e.op, t.op))
  }

  // A cancelled target need not be counted when its cancellation is posted.
  function Spared(e: Entry, f: set<Id>): set<Id> { if IsCancel(e.op) then f - {e.target} else f }

  lemma AddCovers(s: State, e: Entry, f: set<Id>)
    requires Unheard(s, e) && Covers(s, Spared(e, f)) && !s.frame.FinishDisconnect?
    ensures Carries(s, f, Post(s.(pending := s.pending + [e]), e.op, e.id, e.target))
  {
    var m := MessageOf(s.clientId, e);
    var s' := Post(s.(pending := s.pending + [e]), e.op, e.id, e.target);
    LogGrows(s.out, s.next, s.built, s.writing, m);
    forall x | x in Held(s') ensures Named(s', x) { if x != e { assert x in Held(s) && Named(s, x); } }
    AddWaits(s.pending, e);
    CarriesOne(s, f, s', m);
  }

  lemma AddWaits(p: seq<Entry>, e: Entry)
    ensures Waits(p + [e]) == Waits(p) + if e.awaiting && e.posted then {e.id} else {}
  {
    var q := p + [e];
    assert q[|p|] == e;
    forall x | x in Waits(p) ensures x in Waits(q) {
      var y :| y in p && y.awaiting && y.posted && y.id == x;
      assert y in q;
    }
  }

  lemma NewIsNotCounted(s: State, e: Entry, f: set<Id>)
    requires (forall x :: x in Held(s) ==> x.id != e.id) && Covers(s, f)
    ensures e.id !in f && f - {e.id} == f
  {
  }

  // A close that finds no room gives up its notification without telling the parent.
  ghost predicate HasRoom(s: State, e: Entry, f: set<Id>) {
    e.op == NotificationClose && |s.pending| >= MAX_OPERATIONS ==> e.target !in f
  }

  lemma NothingHeld(s: State, f: set<Id>)
    requires Held(s) == [] && Covers(s, f)
    ensures f == {}
  {
  }

  lemma StartRequestCarries(s: State, e: Entry, f: set<Id>)
    requires Unheard(s, e) && Covers(s, f) && HasRoom(s, e, f) && FrameOk(s)
    ensures Carries(s, f, StartRequest(s, e))
  {
    NewIsNotCounted(s, e, f);
    if s.disconnected || Full(s, e.awaiting) {
      if s.disconnected && !s.frame.FinishDisconnect? { NothingHeld(s, f); }
      if e.op == NotificationClose { assert !e.awaiting; }
      FailCarries(s, e, f, false);
    } else {
      AddCovers(s, e, f);
    }
  }

  // The next identity is used nowhere.
  lemma FreshName(s: State)
    requires Valid(s) && WireOk(s)
    ensures s.next !in s.built && s.next !in s.writing
    ensures forall m :: m in s.out && m.Request? ==> m.id != s.next && (IsCancel(m.op) ==> m.target != s.next)
    ensures forall x :: x in Held(s) && x.op == NotificationClose ==> x.target != s.next
  {
    forall x | x in Held(s) && x.op == NotificationClose ensures x.target != s.next { assert EntryOk(s, x); }
  }

  // Drawing an identity leaves the log and the retained requests as they are.
  lemma BegunIsNamed(s: State, s1: State)
    requires WireOk(s) && s1 == s.(next := s.next + 1, started := s1.started, nextWatchId := s1.nextWatchId)
    ensures Held(s1) == Held(s) && WireOk(s1)
  {
    LogLater(s.out, s.next, s.built, s.writing, s.next + 1);
    forall e | e in Held(s1) ensures Named(s1, e) { assert Named(s, e); }
  }

  lemma BegunUnheard(s: State, op: Op, target: Id, watchId: nat)
    requires Valid(s) && WireOk(s) && !s.mute && op != LocationWatch && op != NotificationShow
    requires (op == Connect ==> s.frame == Idle)
    requires op == NotificationClose ==> target in s.built && target in s.closed
    requires (op == WriteItems ==> target == 0)
    requires IsCancel(op)
             ==> target < s.next && target !in s.writing && forall t :: t in s.out && t.Request? && t.id == target ==>
               Cancels(op, t.op)
    ensures var b := Begun(s, op, target, watchId, CapabilityOf(op).Some?, true);
            Unheard(b.0, b.1) && Held(b.0) == Held(s)
  {
    hide Valid, Starting, WireOk;
    FreshName(s);
    BegunStarts(s, op, target, watchId, CapabilityOf(op).Some?, true);
    BegunIsNamed(s, Begun(s, op, target, watchId, CapabilityOf(op).Some?, true).0);
  }

  lemma StartCarries(s: State, op: Op, target: Id, watchId: nat, f: set<Id>)
    requires Valid(s) && WireOk(s) && Covers(s, f) && !s.mute && op != LocationWatch && op != NotificationShow
    requires (op == Connect ==> s.frame == Idle)
    requires op == NotificationClose ==> target in s.built && target in s.closed
    requires (op == WriteItems ==> target == 0)
    requires IsCancel(op)
             ==> target < s.next && target !in s.writing && forall t :: t in s.out && t.Request? && t.id == target ==>
               Cancels(op, t.op)
    requires op == NotificationClose && |s.pending| >= MAX_OPERATIONS ==> target !in f
    ensures Carries(s, f, Start(s, op, target, watchId))
  {
    BegunUnheard(s, op, target, watchId);
    var b := Begun(s, op, target, watchId, CapabilityOf(op).Some?, true);
    StartRequestCarries(b.0, b.1, f);
  }

  /********** Calls **********/

  lemma WatchUnheard(s: State)
    requires Valid(s) && WireOk(s) && !s.mute && Watches(s.pending) < MAX_WATCHING
    ensures var s1 := s.(next := s.next + 1, nextWatchId := if s.nextWatchId >= LAST_WATCH_ID then 1
                         else s.nextWatchId + 1);
            Unheard(s1, Entry(s.next, LocationWatch, 0, s.nextWatchId, true, true, true)) && Held(s1) == Held(s)
  {
    CountWatch(s);
    FreshName(s);
    BegunIsNamed(s, s.(next := s.next + 1, nextWatchId := if s.nextWatchId >= LAST_WATCH_ID then 1
                       else s.nextWatchId + 1));
  }

  lemma WatchRefused(s: State, f: set<Id>)
    requires WireOk(s) && Covers(s, f)
    ensures Carries(s, f, s.(next := s.next + 1, nextWatchId := if s.nextWatchId >= LAST_WATCH_ID then 1
                             else s.nextWatchId + 1))
  {
    var s1 := s.(next := s.next + 1, nextWatchId := if s.nextWatchId >= LAST_WATCH_ID then 1 else s.nextWatchId + 1);
    LogLater(s.out, s.next, s.built, s.writing, s.next + 1);
    assert Held(s1) == Held(s);
    CarriesSilently(s, f, s1);
  }

  lemma ValidFrame(s: State)
    requires Valid(s)
    ensures FrameOk(s)
  {
  }

  lemma WatchAccepted(s: State, f: set<Id>)
    requires Valid(s) && WireOk(s) && Covers(s, f) && !s.mute && Watches(s.pending) < MAX_WATCHING
    ensures Carries(s, f, StartWatch(s))
  {
    hide Consistent, Starting, StartRequest, LogOk;
    WatchUnheard(s);
    CountWatch(s);
    var s1 := s.(next := s.next + 1, nextWatchId := if s.nextWatchId >= LAST_WATCH_ID then 1 else s.nextWatchId + 1);
    ValidFrame(s1);
    StartRequestCarries(s1, Entry(s.next, LocationWatch, 0, s.nextWatchId, true, true, true), f);
  }

  lemma StartWatchCarries(s: State, f: set<Id>)
    requires Valid(s) && WireOk(s) && Covers(s, f) && !s.mute
    ensures Carries(s, f, StartWatch(s))
  {
    if Watches(s.pending) < MAX_WATCHING {
      WatchAccepted(s, f);
    } else {
      WatchRefused(s, f);
    }
  }

  // Stopping a watch tells the parent in the same step.
  lemma StopWatchCarries(s: State, watchId: nat, f: set<Id>)
    requires Valid(s) && WireOk(s) && Covers(s, f) && !s.mute
    ensures Carries(s, f, StopWatch(s, watchId))
  {
    var w := FindWatch(s.pending, watchId);
    if w.None? {
      NothingCarries(s, f, s);
    } else {
      StopFound(s, w.value, f);
    }
  }

  lemma StopDrops(s: State, w: Entry, f: set<Id>)
    requires Valid(s) && WireOk(s) && Covers(s, f) && w in s.pending && w.op == LocationWatch
    ensures var s1 := Drop(s, w.id);
            Valid(s1) && WireOk(s1) && Covers(s1, f - {w.id}) && !s1.disconnected && |s1.pending| < MAX_OPERATIONS
    ensures w.id < s.next && w.id !in s.writing
    ensures forall t :: t in s.out && t.Request? && t.id == w.id ==> Cancels(LocationClear, t.op)
  {
    assert EntryOk(s, w) && Named(s, w);
    forall t | t in s.out && t.Request? && t.id == w.id ensures Cancels(LocationClear, t.op) {
      OnlyNamed(s.out, MessageOf(s.clientId, w), t);
    }
    DropWatch(s, w);
    RemoveCovers(s, w.id, f - {w.id});
    RemoveFacts(s.pending, w.id);
    assert Covers(Drop(s, w.id), f - {w.id}) by { assert s.out[|s.out|..] == []; }
  }

  lemma StopFound(s: State, w: Entry, f: set<Id>)
    requires Valid(s) && WireOk(s) && Covers(s, f) && !s.mute && w in s.pending && w.op == LocationWatch
    ensures Carries(s, f, Start(Drop(s, w.id), LocationClear, w.id, 0))
  {
    var s1 := Drop(s, w.id);
    StopDrops(s, w, f);
    BegunUnheard(s1, LocationClear, w.id, 0);
    var b := Begun(s1, LocationClear, w.id, 0, false, true);
    AddCovers(b.0, b.1, f);
  }

  lemma BuildUnheard(s: State)
    requires Valid(s) && WireOk(s) && !s.mute
    ensures var s1 := Built(s);
            Unheard(s1, Entry(s.next, NotificationShow, 0, 0, true, true, true)) && Held(s1) == Held(s) && Valid(s1)
  {
    hide Consistent, LogOk, WireOk, Starting;
    FreshName(s);
    BuiltIsValid(s);
    BuiltIsNamed(s);
    BuiltStarts(s);
  }

  lemma BuiltStarts(s: State)
    requires Valid(s)
    ensures Starting(Built(s), Entry(s.next, NotificationShow, 0, 0, true, true, true))
  {
    BuiltIsValid(s);
    forall x | x in Held(s) ensures x.id != s.next { assert EntryOk(s, x); }
  }

  lemma BuiltIsNamed(s: State)
    requires Valid(s) && WireOk(s)
    ensures WireOk(Built(s))
  {
    assert LogOk(Built(s).out, Built(s).next, Built(s).built, Built(s).writing);
    forall e | e in Held(Built(s)) ensures Named(Built(s), e) { assert Named(s, e); }
  }

  lemma BuildCarries(s: State, f: set<Id>)
    requires Valid(s) && WireOk(s) && Covers(s, f) && !s.mute
    ensures Carries(s, f, BuildNotification(s))
  {
    hide Consistent, LogOk, StartRequest, Starting;
    if s.permission == Granted && !Full(s, true) {
      var s1 := Built(s);
      var e := Entry(s.next, NotificationShow, 0, 0, true, true, true);
      BuildUnheard(s);
      ValidFrame(s1);
      StartRequestCarries(s1, e, f);
      assert BuildNotification(s) == StartRequest(s1, e);
    } else {
      NothingCarries(s, f, s);
    }
  }

  lemma CloseCarries(s: State, id: Id, f: set<Id>)
    requires Valid(s) && WireOk(s) && Covers(s, f) && !s.mute && (|s.pending| >= MAX_OPERATIONS ==> id !in f)
    ensures Carries(s, f, CloseBuilt(s, id))
  {
    if id in s.built && id !in s.closed {
      var s1 := s.(closed := s.closed + {id});
      assert Held(s1) == Held(s);
      StartCarries(s1, NotificationClose, id, 0, f);
    } else {
      NothingCarries(s, f, s);
    }
  }

  // The next identifier was never posted or named.
  lemma NextIsNew(out: seq<Message>, next: nat, built: set<Id>, writing: set<Id>)
    requires LogOk(out, next, built, writing)
    ensures forall m :: m in out && m.Request? ==> m.id != next && (IsCancel(m.op) ==> m.target != next)
  {
  }

  lemma SameCovers(s: State, s1: State, f: set<Id>)
    requires Covers(s, f) && Held(s1) == Held(s)
    ensures Covers(s1, f)
  {
  }

  lemma SameWire(s: State, s1: State)
    requires WireOk(s) && Held(s1) == Held(s) && s1.clientId == s.clientId && s1.out == s.out
    requires LogOk(s1.out, s1.next, s1.built, s1.writing)
    ensures WireOk(s1)
  {
  }

  lemma WriteUnheard(s: State, f: set<Id>)
    requires Valid(s) && WireOk(s) && Covers(s, f)
    ensures var b := Begun(s, WriteItems, 0, 0, true, false);
            && Starting(b.0, b.1) && WireOk(b.0) && Covers(b.0, f) && b.1.id !in f && f - {b.1.id} == f
            && (forall m :: m in b.0.out && m.Request? ==> m.id != b.1.id && (IsCancel(m.op) ==> m.target != b.1.id))
  {
    var b := Begun(s, WriteItems, 0, 0, true, false);
    BegunStarts(s, WriteItems, 0, 0, true, false);
    LogLater(s.out, s.next, s.built, s.writing, s.next + 1);
    NextIsNew(s.out, s.next, s.built, s.writing);
    assert Held(b.0) == Held(s);
    SameWire(s, b.0);
    SameCovers(s, b.0, f);
    NewIsNotCounted(b.0, b.1, f);
  }

  lemma ReserveCarries(s: State, f: set<Id>)
    requires Valid(s) && WireOk(s) && Covers(s, f) && !s.mute
    ensures Carries(s, f, ReserveWrite(s))
  {
    var b := Begun(s, WriteItems, 0, 0, true, false);
    WriteUnheard(s, f);
    if b.0.disconnected || Full(b.0, true) {
      FailCarries(b.0, b.1, f, false);
    } else {
      ReserveAdds(b.0, b.1, f);
    }
  }

  lemma ReserveAdds(s: State, e: Entry, f: set<Id>)
    requires Starting(s, e) && WireOk(s) && Covers(s, f) && !s.frame.FinishDisconnect? && !e.posted
    requires forall m :: m in s.out && m.Request? ==> m.id != e.id && (IsCancel(m.op) ==> m.target != e.id)
    ensures Carries(s, f, s.(pending := s.pending + [e], writing := s.writing + {e.id}))
  {
    var s' := s.(pending := s.pending + [e], writing := s.writing + {e.id});
    AddWaits(s.pending, e);
    forall x | x in Held(s') ensures Named(s', x) { if x != e { assert x in Held(s) && Named(s, x); } }
    assert EntryOk(s, e);
    CarriesSilently(s, f, s');
  }

  lemma InvokeCarries(s: State, call: Call, f: set<Id>)
    requires Valid(s) && WireOk(s) && Covers(s, f) && !s.mute
    requires call.CloseNotification? && |s.pending| >= MAX_OPERATIONS ==> call.id !in f
    ensures Carries(s, f, Invoke(s, call))
  {
    match call
    case GetCurrentPosition => StartCarries(s, LocationGet, 0, 0, f);
    case WatchPosition => StartWatchCarries(s, f);
    case ClearWatch(watchId) => StopWatchCarries(s, watchId, f);
    case RequestPermission => StartCarries(s, NotificationPermission, 0, 0, f);
    case NewNotification => BuildCarries(s, f);
    case CloseNotification(id) => CloseCarries(s, id, f);
    case CallReadText => StartCarries(s, ReadText, 0, 0, f);
    case CallWriteText => StartCarries(s, WriteText, 0, 0, f);
    case CallReadItems => StartCarries(s, ReadItems, 0, 0, f);
    case CallWriteItems => ReserveCarries(s, f);
  }

  /********** Events **********/

  lemma ChangeWaits(p: seq<Entry>, id: Id, acknowledged: bool)
    ensures Waits(p) - {id} <= Waits(Change(p, id, acknowledged))
    ensures !acknowledged ==> Waits(p) <= Waits(Change(p, id, acknowledged))
    ensures !acknowledged && (exists e :: e in p && e.id == id && e.awaiting)
            ==> id in Waits(Change(p, id, acknowledged))
  {
    forall x | x in Waits(p) && (x != id || !acknowledged) ensures x in Waits(Change(p, id, acknowledged)) {
      var e :| e in p && e.awaiting && e.posted && e.id == x;
      ChangeMembers(p, id, acknowledged, Changed(e, id, acknowledged));
    }
    if !acknowledged {
      if e :| e in p && e.id == id && e.awaiting { ChangeMembers(p, id, acknowledged, e.(posted := true)); }
    }
  }

  lemma AcknowledgeCarries(s: State, id: Id, f: set<Id>)
    requires Valid(s) && s.frame == Idle && WireOk(s) && Covers(s, f) && id !in f
    requires forall e :: e in s.pending && e.id == id ==> e.posted
    ensures Carries(s, f, Acknowledge(s, id))
  {
    var s' := Acknowledge(s, id);
    ChangeWaits(s.pending, id, true);
    forall x | x in Held(s') ensures Named(s', x) && (x.op == NotificationClose ==> x.target !in f) {
      ChangeMembers(s.pending, id, true, x);
      var y :| y in s.pending && x == Changed(y, id, true);
      assert Named(s, y);
    }
    CarriesSilently(s, f, s');
  }

  lemma LookupAside(s: State, e: Entry, r: Response, d: Detail)
    ensures Aside(s, HandleLookup(s, e, r, d)) || Aside(Drop(s, e.id), HandleLookup(s, e, r, d))
  {
  }

  lemma PermissionAside(s: State, e: Entry, r: Response, d: Detail)
    ensures Aside(s, HandlePermission(s, e, r, d)) || Aside(Drop(s, e.id), HandlePermission(s, e, r, d))
  {
  }

  lemma CopyAside(s: State, e: Entry, r: Response, d: Detail)
    ensures Aside(s, HandleCopy(s, e, r, d)) || Aside(Drop(s, e.id), HandleCopy(s, e, r, d))
  {
  }

  lemma ConnectAside(s: State, e: Entry, r: Response, d: Detail)
    requires s.frame == Idle
    ensures Aside(Drop(s, e.id), HandleConnect(s, e, r, d))
  {
  }

  // Most responses change nothing that is counted, or take their own entry out.
  lemma HandleAside(s: State, e: Entry, r: Response, d: Detail)
    requires s.frame == Idle && e.op != LocationWatch && e.op != NotificationShow && e.op != NotificationClose
    ensures Aside(s, Handle(s, e, r, d)) || Aside(Drop(s, e.id), Handle(s, e, r, d))
  {
    hide HandleLookup, HandlePermission, HandleCopy, HandleConnect;
    LookupAside(s, e, r, d);
    PermissionAside(s, e, r, d);
    CopyAside(s, e, r, d);
    ConnectAside(s, e, r, d);
  }

  lemma HandleWatchEquation(s: State, e: Entry, r: Response, d: Detail)
    requires e.op == LocationWatch
    ensures Handle(s, e, r, d) == s || Handle(s, e, r, d) == Drop(s, e.id) || Handle(s, e, r, d) == Acknowledge(s, e.id)
  {
  }

  // A response that nobody counts on any more.
  lemma HandleCarries(s: State, e: Entry, r: Response, d: Detail, f: set<Id>)
    requires Valid(s) && s.frame == Idle && WireOk(s) && Covers(s, f) && !s.mute
    requires Find(s.pending, e.id) == Some(e) && e.id !in f
    ensures Carries(s, f, Handle(s, e, r, d))
  {
    hide Carries, Covers, WireOk;
    NothingCarries(s, f, s);
    RemoveCovers(s, e.id, f);
    if e.op == LocationWatch {
      HandleWatchEquation(s, e, r, d);
      OnlyOne(s, e);
      AcknowledgeCarries(s, e.id, f);
    } else if e.op == NotificationShow {
      HandleShowCarries(s, e, r, f);
    } else if e.op == NotificationClose {
      HandleCloseCarries(s, e, r, f);
    } else {
      HandleAside(s, e, r, d);
      if Aside(s, Handle(s, e, r, d)) { CarriesAside(s, f, s, Handle(s, e, r, d)); }
      else { CarriesAside(s, f, Drop(s, e.id), Handle(s, e, r, d)); }
    }
  }

  lemma HandleShowCarries(s: State, e: Entry, r: Response, f: set<Id>)
    requires Valid(s) && s.frame == Idle && WireOk(s) && Covers(s, f) && Find(s.pending, e.id) == Some(e) && e.id !in f
    requires e.op == NotificationShow && Carries(s, f, Drop(s, e.id)) && Carries(s, f, s)
    ensures Carries(s, f, HandleShow(s, e, r))
  {
    var s' := HandleShow(s, e, r);
    if r.about.Some? && r.about.value != e.id {
    } else if r.status != Ok {
      CarriesAside(s, f, Drop(s, e.id), s');
    } else {
      OnlyOne(s, e);
      AcknowledgeCarries(s, e.id, f);
      CarriesAside(s, f, Acknowledge(s, e.id), s');
    }
  }

  lemma HandleCloseCarries(s: State, e: Entry, r: Response, f: set<Id>)
    requires Valid(s) && s.frame == Idle && WireOk(s) && Covers(s, f) && Find(s.pending, e.id) == Some(e) && e.id !in f
    requires e.op == NotificationClose && Carries(s, f, Drop(s, e.id)) && Carries(s, f, s)
    ensures Carries(s, f, HandleClose(s, e, r))
  {
    if !(r.about.Some? && r.about.value != e.target) && r.status != Ok {
      var s1 := Drop(s, e.id);
      RemoveFacts(s.pending, e.id);
      assert Covers(s1, f) by { assert s1.out[|s.out|..] == []; }
      RemoveCovers(s1, e.target, f);
      var s2 := Drop(s1, e.target);
      CarriesAside(s1, f, s2, HandleClose(s, e, r));
    }
  }

  lemma ReceiveCarries(s: State, r: Response, d: Detail, f: set<Id>)
    requires Valid(s) && s.frame == Idle && WireOk(s) && Covers(s, f) && !s.mute
    requires (r.client == s.clientId ==> r.id !in f)
    ensures Carries(s, f, Receive(s, r, d))
  {
    var e := Find(s.pending, r.id);
    if r.client == s.clientId && e.Some? { HandleCarries(s, e.value, r, d, f); } else { NothingCarries(s, f, s); }
  }

  lemma DropLeaves(s: State, e: Entry, f: set<Id>, cancel: bool)
    requires Valid(s) && s.frame == Idle && WireOk(s) && Covers(s, f) && !s.mute && Find(s.pending, e.id) == Some(e)
    requires e.id in f ==> cancel
    ensures Leaving(Drop(s, e.id), e, f, cancel) && (e.posted ==> Named(Drop(s, e.id), e))
  {
    var s1 := Drop(s, e.id);
    DropKeeps(s, e.id);
    assert EntryOk(s, e) && Named(s, e);
    RemoveCovers(s, e.id, f - {e.id});
    assert Covers(s1, f - {e.id}) by { assert s1.out[|s.out|..] == []; }
    if e.id in f { CountedEntry(s, e, f); }
  }

  // A counted request is posted and waits for consent.
  lemma CountedEntry(s: State, e: Entry, f: set<Id>)
    requires Valid(s) && Covers(s, f) && e in Held(s) && e.id in f
    ensures e.posted && CapabilityOf(e.op).Some?
  {
    var y :| y in Held(s) && y.awaiting && y.posted && y.id == e.id;
    SameEntry(Held(s), y, e);
    assert EntryOk(s, e);
  }

  lemma ExpireCarries(s: State, id: Id, f: set<Id>)
    requires Valid(s) && s.frame == Idle && WireOk(s) && Covers(s, f) && !s.mute
    ensures Carries(s, f, Expire(s, id))
  {
    var e := Find(s.pending, id);
    if e.Some? && e.value.timer {
      DropLeaves(s, e.value, f, true);
      FailCarries(Drop(s, id), e.value, f, true);
    } else {
      NothingCarries(s, f, s);
    }
  }

  // The disconnect message releases everything in the parent.
  lemma PageHideCarries(s: State, f: set<Id>)
    requires Valid(s) && s.frame == Idle && WireOk(s) && Covers(s, f) && !s.mute
    ensures Carries(s, f, PageHide(s))
  {
    hide Accounted, LimitsOk, EntryOk;
    var m := Protocol.Disconnect(s.clientId);
    var s' := PageHide(s);
    LogLater(s.out, s.next, s.built, s.writing, s.next + 1);
    LogGrows(s.out, s.next + 1, s.built, s.writing, m);
    assert Held(s') == Held(s);
    CarriesOne(s, f, s', m);
  }

  lemma MaterializeCarries(s: State, id: Id, fits: bool, cloneable: bool, f: set<Id>)
    requires Valid(s) && s.frame == Idle && WireOk(s) && Covers(s, f) && !s.mute
    ensures Carries(s, f, Materialize(s, id, fits, cloneable))
  {
    var e := Find(s.pending, id);
    if id !in s.writing {
      NothingCarries(s, f, s);
    } else if e.None? {
      WrittenCarries(s, id, f);
    } else {
      MaterializeFound(s, e.value, fits, cloneable, f);
    }
  }

  lemma WrittenCarries(s: State, id: Id, f: set<Id>)
    requires WireOk(s) && Covers(s, f)
    ensures Carries(s, f, s.(writing := s.writing - {id}))
  {
    var s1 := s.(writing := s.writing - {id});
    assert Held(s1) == Held(s);
    CarriesSilently(s, f, s1);
  }

  lemma WrittenKeeps(s: State, id: Id)
    requires Valid(s)
    ensures Valid(s.(writing := s.writing - {id}))
  {
    assert Held(s.(writing := s.writing - {id})) == Held(s);
  }

  lemma WrittenStays(s: State, e: Entry, f: set<Id>)
    requires Valid(s) && WireOk(s) && Covers(s, f) && Find(s.pending, e.id) == Some(e) && e.id in s.writing
    requires s.frame == Idle
    ensures var s1 := s.(writing := s.writing - {e.id});
            Valid(s1) && WireOk(s1) && Covers(s1, f) && Find(s1.pending, e.id) == Some(e)
    ensures e.id !in f && !e.posted && e.op == WriteItems && e.target == 0 && e.awaiting
  {
    assert EntryOk(s, e);
    if e.id in f { CountedEntry(s, e, f); }
    WrittenKeeps(s, e.id);
    WrittenCarries(s, e.id, f);
    assert s.out[|s.out|..] == [];
  }

  lemma UnfitCarries(s: State, e: Entry, f: set<Id>)
    requires Valid(s) && s.frame == Idle && WireOk(s) && Covers(s, f) && Find(s.pending, e.id) == Some(e) && e.id !in f
    ensures Carries(s, f, Settle(Drop(s, e.id), e.id))
  {
    RemoveCovers(s, e.id, f);
    CarriesAside(s, f, Drop(s, e.id), Settle(Drop(s, e.id), e.id));
  }

  lemma UncloneableCarries(s: State, e: Entry, f: set<Id>)
    requires Valid(s) && s.frame == Idle && WireOk(s) && Covers(s, f) && !s.mute && Find(s.pending, e.id) == Some(e)
    requires e.id !in f
    ensures Carries(s, f, Fail(Drop(s, e.id), e, false))
  {
    DropLeaves(s, e, f, false);
    FailCarries(Drop(s, e.id), e, f, false);
  }

  lemma MaterializeEquation(s: State, e: Entry, fits: bool, cloneable: bool)
    requires Find(s.pending, e.id) == Some(e) && e.id in s.writing && !s.mute && !(fits && cloneable)
    ensures var s1 := s.(writing := s.writing - {e.id});
            Materialize(s, e.id, fits, cloneable) == if fits then Fail(Drop(s1, e.id), e, false)
              else Settle(Drop(s1, e.id), e.id)
  {
  }

  lemma MaterializeFound(s: State, e: Entry, fits: bool, cloneable: bool, f: set<Id>)
    requires Valid(s) && s.frame == Idle && WireOk(s) && Covers(s, f) && !s.mute && Find(s.pending, e.id) == Some(e)
    requires e.id in s.writing
    ensures Carries(s, f, Materialize(s, e.id, fits, cloneable))
  {
    var s1 := s.(writing := s.writing - {e.id});
    WrittenStays(s, e, f);
    if fits && cloneable {
      PostWrite(s, e, f);
    } else {
      MaterializeEquation(s, e, fits, cloneable);
      if fits { UncloneableCarries(s1, e, f); } else { UnfitCarries(s1, e, f); }
    }
  }

  lemma WriteLog(s: State, e: Entry)
    requires WireOk(s) && Valid(s) && e in s.pending && s.frame == Idle && e.id in s.writing
    ensures LogOk(s.out + [Request(s.clientId, e.id, WriteItems, 0)], s.next, s.built, s.writing - {e.id})
  {
    assert EntryOk(s, e);
    LogGrows(s.out, s.next, s.built, s.writing - {e.id}, Request(s.clientId, e.id, WriteItems, 0));
  }

  lemma PostWrite(s: State, e: Entry, f: set<Id>)
    requires Valid(s) && s.frame == Idle && WireOk(s) && Covers(s, f) && !s.mute && Find(s.pending, e.id) == Some(e)
    requires e.id in s.writing
    requires e.op == WriteItems && e.target == 0 && e.awaiting
    ensures Carries(s, f, Materialize(s, e.id, true, true))
  {
    var m := Request(s.clientId, e.id, WriteItems, 0);
    var s' := Materialize(s, e.id, true, true);
    WriteLog(s, e);
    ChangeWaits(s.pending, e.id, false);
    forall x | x in Held(s') ensures Named(s', x) && (x.op == NotificationClose ==> x.target !in f + {e.id}) {
      ChangeMembers(s.pending, e.id, false, x);
      var y :| y in s.pending && x == Changed(y, e.id, false);
      assert Named(s, y) && EntryOk(s, y);
      if y.id == e.id { SameEntry(s.pending, y, e); }
    }
    CarriesOne(s, f, s', m);
  }

  lemma ReturnCarries(s: State, f: set<Id>)
    requires Valid(s) && s.frame != Idle && WireOk(s) && Covers(s, f) && !s.mute
    ensures Carries(s, f, Return(s))
  {
    match s.frame
    case FinishNotification(id) =>
      var s1 := s.(frame := Idle);
      assert Held(s1) == Held(s);
      RemoveCovers(s1, id, f);
      CarriesAside(s1, f, Drop(s1, id), Return(s));
    case FinishDisconnect(rest) =>
      if rest == [] {
        assert Held(Return(s)) == [];
        NothingHeldCarries(s, f);
      } else {
        RestLeaves(s, f);
        FailCarries(s.(frame := FinishDisconnect(rest[1..])), rest[0], f, true);
      }
  }

  lemma NothingHeldCarries(s: State, f: set<Id>)
    requires Valid(s) && s.frame.FinishDisconnect? && s.frame.rest == [] && WireOk(s) && Covers(s, f)
    ensures Carries(s, f, Return(s))
  {
    assert s.pending == [];
    CarriesSilently(s, f, Return(s));
  }

  lemma RestLeaves(s: State, f: set<Id>)
    requires Valid(s) && s.frame.FinishDisconnect? && s.frame.rest != [] && WireOk(s) && Covers(s, f) && !s.mute
    ensures var rest := s.frame.rest;
            var s1 := s.(frame := FinishDisconnect(rest[1..]));
            Leaving(s1, rest[0], f, true) && Named(s1, rest[0])
  {
    var rest := s.frame.rest;
    var s1 := s.(frame := FinishDisconnect(rest[1..]));
    TailFacts(rest);
    assert EntryOk(s, rest[0]) && Named(s, rest[0]);
    forall e | e in rest[1..]
      ensures EntryOk(s1, e) && Named(s1, e) && e in rest
    {
      assert e in rest && EntryOk(s, e) && Named(s, e);
    }
    TailWaits(rest);
    if rest[0].id in f { CountedEntry(s, rest[0], f); }
  }

  lemma TailWaits(p: seq<Entry>)
    requires p != []
    ensures Waits(p) - {p[0].id} <= Waits(p[1..])
  {
    forall x | x in Waits(p) && x != p[0].id ensures x in Waits(p[1..]) {
      var y :| y in p && y.awaiting && y.posted && y.id == x;
      assert y in p[1..];
    }
  }

  // No close gives up a notification that may still wait in the parent while the table is full.
  ghost predicate ClosesInTime(s: State, a: Action) {
    a.Call? && a.call.CloseNotification? && |s.pending| >= MAX_OPERATIONS ==> a.call.id !in Waits(s.pending)
  }

  /**
   One step of a document, as the parent sees it: whatever may wait there after the posted messages were heard
   is still counted by the document.
   */
  lemma NextCarries(s: State, a: Action, f: set<Id>)
    requires Valid(s) && Enabled(s, a) && WireOk(s) && Covers(s, f) && !s.mute && !a.Mutes? && (a.Shows? ==> !s.hidden)
    requires ClosesInTime(s, a)
    requires a.Hears? && a.response.client == s.clientId ==> a.response.id !in f
    ensures Carries(s, f, Next(s, a))
  {
    match a
    case Call(call) =>
      if call.CloseNotification? && |s.pending| >= MAX_OPERATIONS { assert !s.frame.FinishDisconnect?; }
      InvokeCarries(s, call, f);
    case Returns => ReturnCarries(s, f);
    case Hears(r, d) => ReceiveCarries(s, r, d, f);
    case Expires(id) => ExpireCarries(s, id, f);
    case Hides => PageHideCarries(s, f);
    case Shows => NothingCarries(s, f, s);
    case Materializes(id, fits, cloneable) => MaterializeCarries(s, id, fits, cloneable, f);
  }

  lemma ConnectUnheard(s: State)
    requires Valid(s) && WireOk(s) && !s.mute && s.frame == Idle
    ensures var b := Begun(s, Connect, 0, 0, false, true);
            Unheard(b.0, b.1) && Held(b.0) == Held(s)
  {
    BegunUnheard(s, Connect, 0, 0);
  }

  // A document under a new name starts with nothing that waits, and connects first.
  ghost predicate Renewed(s: State, s': State) {
    && s'.clientId == s.next && s.next < s'.next && !s'.mute
    && Valid(s') && WireOk(s')
    && s'.out == s.out + [Request(s'.clientId, s'.next - 1, Connect, 0)]
  }

  lemma RenewalLog(out: seq<Message>, next: nat, built: set<Id>, writing: set<Id>, built': set<Id>, writing': set<Id>)
    requires LogOk(out, next, built, writing) && built' <= built && writing' <= writing
    ensures LogOk(out, next + 1, built', writing')
  {
  }

  lemma ConnectRenews(s0: State, s: State)
    requires Valid(s) && WireOk(s) && !s.mute && s.frame == Idle && s.pending == [] && !s.disconnected
    requires s.clientId == s0.next && s.next == s0.next + 1 && s.out == s0.out
    ensures Renewed(s0, Start(s, Connect, 0, 0))
  {
    ConnectUnheard(s);
    StartKeeps(s, Connect, 0, 0);
    assert Covers(s, {});
    StartCarries(s, Connect, 0, 0, {});
  }

  lemma ShowsRenews(s: State)
    requires Valid(s) && WireOk(s) && s.frame == Idle && s.hidden && !s.mute
    ensures Renewed(s, PageShow(s))
  {
    hide Consistent, LogOk;
    var s1 := Restored(s);
    RestoredIsValid(s);
    RenewalLog(s.out, s.next, s.built, s.writing, s.built, s.writing);
    ConnectRenews(s, s1);
  }

  lemma BootRenews(s: State)
    requires WireOk(s) && !s.mute
    ensures Renewed(s, Boot(s))
  {
    hide Consistent, LogOk;
    var s1 := Booted(s);
    BootedIsValid(s);
    RenewalLog(s.out, s.next, s.built, s.writing, {}, {});
    ConnectRenews(s, s1);
  }
}
