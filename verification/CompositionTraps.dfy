/**
 A run of the page and the parent in which the parent does refuse a request for a full queue: the page
 closes a notification while its own table is full, which stops counting it and posts nothing.
 */
module CompositionTraps {
  import opened Wrappers
  import opened Protocol
  import opened Composition
  import S = ShimSpec
  import I = ShimInvariant
  import B = BrokerSpec
  import Traps = BrokerTraps
  import T = BrokerTheorems

  // No notification is closed by two messages, of whatever document.
  ghost predicate ClosedOnce(out: seq<Message>) {
    forall i, j, x :: 0 <= i < j < |out| && ClosesIt(out[i], x) ==> !ClosesIt(out[j], x)
  }

  predicate ClosesIt(m: Message, x: Id) { m.Request? && m.op == NotificationClose && m.target == x }

  // A run of enabled steps, without the conditions of `Allowed`.
  ghost predicate AnyRun(y: System, actions: seq<Action>, y': System)
    decreases |actions|
  {
    if actions == [] then y' == y else Enabled(y, actions[0]) && AnyRun(Next(y, actions[0]), actions[1..], y')
  }

  ghost predicate Reachable(y: System) { exists actions: seq<Action> :: AnyRun(INITIAL, actions, y) }

  lemma {:induction false} OneMoreStep(y: System, actions: seq<Action>, y1: System, a: Action)
    requires AnyRun(y, actions, y1) && Enabled(y1, a)
    ensures AnyRun(y, actions + [a], Next(y1, a))
    decreases |actions|
  {
    if actions == [] {
      assert [a][1..] == [] && actions + [a] == [a];
    } else {
      assert (actions + [a])[0] == actions[0] && (actions + [a])[1..] == actions[1..] + [a];
      OneMoreStep(Next(y, actions[0]), actions[1..], y1, a);
    }
  }

  lemma Reaches(y: System, a: Action)
    requires Reachable(y) && Enabled(y, a)
    ensures Reachable(Next(y, a))
  {
    var actions: seq<Action> :| AnyRun(INITIAL, actions, y);
    OneMoreStep(INITIAL, actions, y, a);
  }

  const HEAR := Listen(Traps.USUAL)

  function Calls(call: S.Call): Action { Act(S.Call(call)) }

  /********** The page **********/

  // A connected page whose table holds `n` requests, `w` of which await an answer, and no watch.
  ghost predicate Holding(s: S.State, n: nat, w: nat) {
    && s.clientId == 1 && s.frame == S.Idle && !s.disconnected && !s.mute && s.permission == S.Granted
    && |s.pending| == n && S.Awaiting(s.pending) == w && S.Watches(s.pending) == 0
    && (forall e :: e in s.pending ==> e.id < s.next)
  }

  lemma Appends(p: seq<S.Entry>, e: S.Entry)
    ensures S.Awaiting(p + [e]) == S.Awaiting(p) + if e.awaiting then 1 else 0
    ensures S.Watches(p + [e]) == S.Watches(p) + if e.op == LocationWatch then 1 else 0
  {
    I.SnocFacts(p, e);
  }

  // The page starts a request that its table has room for.
  lemma Starts(s: S.State, op: Op, target: Id, n: nat, w: nat)
    requires Holding(s, n, w) && n < S.MAX_OPERATIONS && op != LocationWatch
    requires (CapabilityOf(op).Some? ==> w < S.MAX_CONSENT)
    ensures var s' := S.Start(s, op, target, 0);
            && Holding(s', n + 1, if CapabilityOf(op).Some? then w + 1 else w)
            && s'.out == s.out + [Request(1, s.next, op, target)] && s'.next == s.next + 1
            && s'.built == s.built && s'.closed == s.closed && s'.notifications == s.notifications
            && s'.pending == s.pending + [S.Entry(s.next, op, target, 0, CapabilityOf(op).Some?, true, true)]
  {
    Appends(s.pending, S.Entry(s.next, op, target, 0, CapabilityOf(op).Some?, true, true));
  }

  function Watching(s: S.State): S.Entry { S.Entry(s.next, LocationWatch, 0, s.nextWatchId, true, true, true) }

  lemma WatchStarts(s: S.State, n: nat)
    requires Holding(s, n, 0) && n < S.MAX_OPERATIONS
    ensures var s' := S.StartWatch(s);
            && s'.pending == s.pending + [Watching(s)] && s'.out == s.out + [Request(1, s.next, LocationWatch, 0)]
            && s' == s.(pending := s'.pending, out := s'.out, next := s.next + 1, nextWatchId := s'.nextWatchId)
  {
  }

  lemma {:induction false} LastWatch(p: seq<S.Entry>, e: S.Entry)
    requires S.Watches(p) == 0 && e.op == LocationWatch && forall x :: x in p ==> x.id != e.id
    ensures S.FindWatch(p + [e], e.watchId) == Some(e) && S.Remove(p + [e], e.id) == p
  {
    if p == [] {
      assert p + [e] == [e];
    } else {
      assert (p + [e])[0] == p[0] && (p + [e])[1..] == p[1..] + [e];
      LastWatch(p[1..], e);
    }
  }

  // The page starts a watch and clears it at once: what stays is the clearing request.
  lemma WatchStops(s: S.State, n: nat)
    requires Holding(s, n, 0) && n < S.MAX_OPERATIONS
    ensures var s1 := S.StartWatch(s);
            var s2 := S.StopWatch(s1, s.nextWatchId);
            && Holding(s2, n + 1, 0) && s2.next == s.next + 2
            && s2.out == s1.out + [Request(1, s.next + 1, LocationClear, s.next)]
            && s2.built == s.built && s2.closed == s.closed
  {
    WatchStarts(s, n);
    LastWatch(s.pending, Watching(s));
    var s0 := S.Drop(S.StartWatch(s), s.next);
    assert Holding(s0, n, 0);
    Starts(s0, LocationClear, s.next, n, 0);
  }

  /********** The parent **********/

  // A connected parent with `n` requests in its queue and nothing else to do.
  ghost predicate Queueing(b: B.State, n: nat, next: nat) {
    && Traps.Open(b) && |b.queue| == n && (forall i :: 0 <= i < n ==> b.queue[i].doc == b.generation)
    && b.active.value.denied == {} && b.inFlight == {} && b.cancelled == {} && b.watches == map[]
    && (forall x :: x in b.active.value.requests ==> x < next)
  }

  lemma Remembers(b: B.State, id: Id, op: Op)
    requires b.active.Some? && id !in b.active.value.requests
    ensures Size(B.Remember(b.active.value, id, op).requests) == Size(b.active.value.requests) + 1
  {
    var before := KeySet(b.active.value.requests);
    assert KeySet(B.Remember(b.active.value, id, op).requests) == before + {id} && id !in before;
  }

  lemma HearsAsk(b: B.State, id: Id, op: Op, n: nat)
    requires Queueing(b, n, id) && n < B.MAX_PENDING && Size(b.active.value.requests) < 100 && CapabilityOf(op).Some?
    ensures var b' := B.HandleMessage(b, Request(1, id, op, 0), Traps.USUAL);
            && Queueing(b', n + 1, id + 1) && Size(b'.active.value.requests) == Size(b.active.value.requests) + 1
            && b'.queue == b.queue + [B.Queued(b.generation, CapabilityOf(op).value, id, op)]
            && b'.active.value.requests == b.active.value.requests[id := op] && b'.posts == b.posts
            && b'.generation == b.generation
  {
    Traps.Joins(b, id, op, CapabilityOf(op).value);
    Remembers(b, id, op);
    assert T.Perform(b, Traps.Ask(id, op)) == B.HandleMessage(b, Request(1, id, op, 0), Traps.USUAL);
  }

  lemma HearsClear(b: B.State, id: Id)
    requires Queueing(b, 1, id + 1) && b.queue[0] == B.Queued(b.generation, Geolocation, id, LocationWatch)
    requires Size(b.active.value.requests) < 100 && id in b.active.value.requests
    requires b.active.value.requests[id] == LocationWatch
    ensures var b' := B.HandleMessage(b, Request(1, id + 1, LocationClear, id), Traps.USUAL);
            && Queueing(b', 0, id + 2) && Size(b'.active.value.requests) == Size(b.active.value.requests) + 1
            && b.posts <= b'.posts
  {
    Remembers(b, id + 1, LocationClear);
    var doc := B.Remember(b.active.value, id + 1, LocationClear);
    var b1 := B.WithDoc(b, doc);
    assert B.HandleRequest(b, 1, id + 1, LocationClear, id, Traps.USUAL) == B.ClearLocation(b1, doc, id + 1, id);
    assert b.queue == [b.queue[0]];
    assert B.Discard(b.queue, b.generation, id) == [];
    assert b.watches - {id} == map[];
  }

  /********** The run **********/

  // After n watches were started and cleared.
  ghost predicate Cleared(y: System, n: nat) {
    && Reachable(y) && y.heard == |y.shim.out| && Holding(y.shim, n, 0) && Queueing(y.broker, 0, y.shim.next)
    && Size(y.broker.active.value.requests) == 1 + 2 * n && y.shim.built == {} && y.shim.closed == {}
    && ClosedOnce(y.shim.out)
  }

  // The page's connection was heard.
  const HEARD_FIRST := Next(INITIAL, HEAR)

  lemma FirstIsHeard()
    ensures Reachable(HEARD_FIRST) && HEARD_FIRST.broker.posts == [Response(1, 2, Ok, Silent, None, NoReason)]
    ensures HEARD_FIRST.heard == 1 && HEARD_FIRST.delivered == 0 && HEARD_FIRST.shim == INITIAL.shim
    ensures INITIAL.shim.out == [Request(1, 2, Connect, 0)]
    ensures Queueing(HEARD_FIRST.broker, 0, INITIAL.shim.next) && Size(HEARD_FIRST.broker.active.value.requests) == 1
  {
    assert AnyRun(INITIAL, [], INITIAL);
    Reaches(INITIAL, HEAR);
    assert KeySet(HEARD_FIRST.broker.active.value.requests) == {2};
  }

  lemma Connected() returns (y: System)
    ensures Cleared(y, 0)
  {
    hide Reachable, Queueing, B.HandleMessage;
    FirstIsHeard();
    var deliver := Deliver(S.Detail(false, false, Some(S.Granted)));
    Reaches(HEARD_FIRST, deliver);
    y := Next(HEARD_FIRST, deliver);
  }

  lemma ClosedStays(out: seq<Message>, m: Message)
    requires ClosedOnce(out) && !(m.Request? && m.op == NotificationClose)
    ensures ClosedOnce(out + [m])
  {
    var more := out + [m];
    forall i, j, x | 0 <= i < j < |more| && ClosesIt(more[i], x) ensures !ClosesIt(more[j], x) {
      assert more[i] == out[i];
      if j < |out| { assert more[j] == out[j]; }
    }
  }

  lemma OneMoreClear(y: System, n: nat) returns (y': System)
    requires Cleared(y, n) && n < S.MAX_OPERATIONS
    ensures Cleared(y', n + 1)
  {
    hide Reachable, B.HandleMessage, S.StartWatch, S.StopWatch, Queueing, Traps.Open, ClosedOnce;
    var id := y.shim.next;
    WatchStarts(y.shim, n);
    WatchStops(y.shim, n);
    Reaches(y, Calls(S.WatchPosition));
    var y1 := Next(y, Calls(S.WatchPosition));
    HearsAsk(y.broker, id, LocationWatch, 0);
    Reaches(y1, HEAR);
    var y2 := Next(y1, HEAR);
    Reaches(y2, Calls(S.ClearWatch(y.shim.nextWatchId)));
    var y3 := Next(y2, Calls(S.ClearWatch(y.shim.nextWatchId)));
    HearsClear(y2.broker, id);
    Reaches(y3, HEAR);
    y' := Next(y3, HEAR);
    ClosedStays(y.shim.out, Request(1, id, LocationWatch, 0));
    ClosedStays(y1.shim.out, Request(1, id + 1, LocationClear, id));
  }

  lemma {:induction false} ClearsMany(n: nat) returns (y: System)
    requires n <= 16
    ensures Cleared(y, n)
  {
    if n == 0 {
      y := Connected();
    } else {
      y := ClearsMany(n - 1);
      y := OneMoreClear(y, n - 1);
    }
  }

  // The page then shows n notifications, all of which wait in the parent; x is the first.
  ghost predicate Shows(y: System, n: nat, x: Id) {
    && Reachable(y) && y.heard == |y.shim.out| && Holding(y.shim, 16 + n, n) && Queueing(y.broker, n, y.shim.next)
    && Size(y.broker.active.value.requests) == 33 + n && y.shim.closed == {} && ClosedOnce(y.shim.out)
    && (n > 0 ==> x in y.shim.built)
    && (n > 0 ==> S.Find(y.shim.pending, x) == Some(S.Entry(x, NotificationShow, 0, 0, true, true, true)))
  }

  lemma {:induction false} FindsLast(p: seq<S.Entry>, e: S.Entry)
    requires forall x :: x in p ==> x.id != e.id
    ensures S.Find(p + [e], e.id) == Some(e)
  {
    if p == [] {
      assert p + [e] == [e];
    } else {
      assert (p + [e])[0] == p[0] && (p + [e])[1..] == p[1..] + [e];
      FindsLast(p[1..], e);
    }
  }

  lemma {:induction false} FindsStill(p: seq<S.Entry>, e: S.Entry, x: Id)
    requires S.Find(p, x).Some?
    ensures S.Find(p + [e], x) == S.Find(p, x)
  {
    if p != [] {
      assert (p + [e])[0] == p[0] && (p + [e])[1..] == p[1..] + [e];
      if p[0].id != x { FindsStill(p[1..], e, x); }
    }
  }

  lemma Builds(s: S.State, n: nat)
    requires Holding(s, 16 + n, n) && n < S.MAX_CONSENT
    ensures var s' := S.BuildNotification(s);
            && Holding(s', 17 + n, n + 1) && s'.out == s.out + [Request(1, s.next, NotificationShow, 0)]
            && s'.next == s.next + 1
            && s'.built == s.built + {s.next} && s'.closed == s.closed
            && s'.pending == s.pending + [S.Entry(s.next, NotificationShow, 0, 0, true, true, true)]
  {
    hide S.Start;
    Starts(s.(notifications := s.notifications + {s.next}, built := s.built + {s.next}), NotificationShow, 0, 16 + n,
           n);
  }

  lemma OneMoreShow(y: System, n: nat, x: Id) returns (y': System, x': Id)
    requires Shows(y, n, x) && n < B.MAX_PENDING
    ensures Shows(y', n + 1, x')
  {
    hide Reachable, B.HandleMessage, S.BuildNotification, Queueing, ClosedOnce;
    var id := y.shim.next;
    x' := if n == 0 then id else x;
    Builds(y.shim, n);
    var e := S.Entry(id, NotificationShow, 0, 0, true, true, true);
    if n == 0 { FindsLast(y.shim.pending, e); } else { FindsStill(y.shim.pending, e, x); }
    Reaches(y, Calls(S.NewNotification));
    var y1 := Next(y, Calls(S.NewNotification));
    HearsAsk(y.broker, id, NotificationShow, n);
    Reaches(y1, HEAR);
    y' := Next(y1, HEAR);
    ClosedStays(y.shim.out, Request(1, id, NotificationShow, 0));
  }

  lemma {:induction false} ShowsMany(n: nat) returns (y: System, x: Id)
    requires n <= B.MAX_PENDING
    ensures Shows(y, n, x)
  {
    if n == 0 {
      y := ClearsMany(16);
      x := 0;
    } else {
      y, x := ShowsMany(n - 1);
      y, x := OneMoreShow(y, n - 1, x);
    }
  }

  lemma {:induction false} RemoveCounts(p: seq<S.Entry>, x: Id)
    requires I.Distinct(p) && S.Find(p, x).Some? && S.Find(p, x).value.awaiting
    requires S.Find(p, x).value.op != LocationWatch
    ensures |S.Remove(p, x)| == |p| - 1 && S.Awaiting(S.Remove(p, x)) == S.Awaiting(p) - 1
    ensures S.Watches(S.Remove(p, x)) == S.Watches(p)
  {
    if p[0].id == x {
      AbsentStays(p[1..], x);
    } else {
      RemoveCounts(p[1..], x);
    }
  }

  lemma {:induction false} AbsentStays(p: seq<S.Entry>, x: Id)
    requires forall e :: e in p ==> e.id != x
    ensures S.Remove(p, x) == p
  {
    if p != [] { AbsentStays(p[1..], x); }
  }

  lemma {:induction false} RunIsValid(y: System, actions: seq<Action>, y': System)
    requires I.Valid(y.shim) && AnyRun(y, actions, y')
    ensures I.Valid(y'.shim)
    decreases |actions|
  {
    hide I.Valid, S.Next, B.Next, B.HandleMessage;
    if actions != [] {
      var y1 := Next(y, actions[0]);
      match actions[0] {
        case Act(page) => I.NextKeepsValid(y.shim, page);
        case Deliver(detail) => I.NextKeepsValid(y.shim, S.Hears(y.broker.posts[y.delivered], detail));
        case Reload => I.BootKeeps(y.shim);
        case _ =>
      }
      RunIsValid(y1, actions[1..], y');
    }
  }

  lemma ReachableIsValid(y: System)
    requires Reachable(y)
    ensures I.Valid(y.shim)
  {
    var actions: seq<Action> :| AnyRun(INITIAL, actions, y);
    I.BootKeeps(S.BLANK);
    RunIsValid(INITIAL, actions, y);
  }

  // With a full table, closing the waiting notification x frees its place and posts nothing.
  lemma ClosesLate(s: S.State, x: Id)
    requires I.Valid(s) && Holding(s, 32, 16) && x in s.built && x !in s.closed
    requires S.Find(s.pending, x) == Some(S.Entry(x, NotificationShow, 0, 0, true, true, true))
    ensures var s' := S.CloseBuilt(s, x); Holding(s', 31, 15) && s'.out == s.out && s'.next == s.next + 1
  {
    hide I.Accounted, I.NamesOk, I.EntryOk;
    RemoveCounts(s.pending, x);
  }

  lemma HearsTooMany(b: B.State, id: Id)
    requires Queueing(b, B.MAX_PENDING, id) && Size(b.active.value.requests) < 100
    ensures B.HandleMessage(b, Request(1, id, LocationGet, 0), Traps.USUAL).posts
         == b.posts + [Response(1, id, Failed, Silent, None, TooManyPending)]
  {
    var doc := B.Remember(b.active.value, id, LocationGet);
    var b1 := B.WithDoc(b, doc);
    assert B.HandleRequest(b, 1, id, LocationGet, 0, Traps.USUAL)
        == B.RequestCapability(b1, b.generation, id, LocationGet, Geolocation, Traps.USUAL);
  }

  lemma LaterQueueing(b: B.State, n: nat, next: nat, later: nat)
    requires Queueing(b, n, next) && next <= later
    ensures Queueing(b, n, later)
  {
  }

  // The page counts 15 waiting requests, the parent 16.
  ghost predicate Miscounted(y: System) {
    && Reachable(y) && y.heard == |y.shim.out| && Holding(y.shim, 31, 15) && ClosedOnce(y.shim.out)
    && Queueing(y.broker, B.MAX_PENDING, y.shim.next) && Size(y.broker.active.value.requests) < 100
  }

  lemma Miscounts() returns (y: System)
    ensures Miscounted(y)
  {
    hide Reachable, S.CloseBuilt, Queueing, ClosedOnce;
    var y0, x := ShowsMany(16);
    ReachableIsValid(y0);
    ClosesLate(y0.shim, x);
    Reaches(y0, Calls(S.CloseNotification(x)));
    y := Next(y0, Calls(S.CloseNotification(x)));
    LaterQueueing(y0.broker, B.MAX_PENDING, y0.shim.next, y.shim.next);
  }

  /** A late close does end in a refusal for a full queue, in a run that closes no notification by two messages. */
  lemma LateCloseIsRefused() returns (y: System)
    ensures Reachable(y) && ClosedOnce(y.shim.out) && y.broker.posts != []
    ensures var r := y.broker.posts[|y.broker.posts| - 1]; r.client == y.shim.clientId && r.reason == TooManyPending
  {
    hide Reachable, B.HandleMessage, S.Start, Queueing, Traps.Open, ClosedOnce;
    var y1 := Miscounts();
    var id := y1.shim.next;
    Starts(y1.shim, LocationGet, 0, 31, 15);
    HearsTooMany(y1.broker, id);
    Reaches(y1, Calls(S.GetCurrentPosition));
    var y2 := Next(y1, Calls(S.GetCurrentPosition));
    Reaches(y2, HEAR);
    y := Next(y2, HEAR);
    ClosedStays(y1.shim.out, Request(1, id, LocationGet, 0));
  }
}
