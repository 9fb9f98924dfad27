/**
 Reachable states of the broker in which an obvious claim fails.
 */
module BrokerTraps {
  import opened Wrappers
  import opened Protocol
  import opened BrokerSpec
  import opened BrokerInvariant
  import opened BrokerWork
  import opened BrokerConsent
  import opened BrokerPrompt
  import opened BrokerRequests
  import opened BrokerTheorems
  import Grants

  // Nothing saved, a working location provider, and a choice that storage records but does not save.
  const USUAL := Env(None, false, true, true, true, {}, {}, {}, Grants.Ready(7, true), false, true, true, false, false,
                     true, [])

  ghost predicate Reachable(s: State) {
    exists steps: seq<Step> :: After(INITIAL, steps) == s
  }

  lemma {:induction false} AfterOneMore(s: State, steps: seq<Step>, step: Step)
    ensures After(s, steps + [step]) == Perform(After(s, steps), step)
    decreases |steps|
  {
    var more := steps + [step];
    if steps == [] {
      assert more == [step] && more[1..] == [];
      assert After(Perform(s, step), []) == Perform(s, step);
    } else {
      assert more[0] == steps[0] && more[1..] == steps[1..] + [step];
      AfterOneMore(Perform(s, steps[0]), steps[1..], step);
    }
  }

  lemma Reaches(s: State, step: Step)
    requires Reachable(s)
    ensures Reachable(Perform(s, step))
  {
    var steps: seq<Step> :| After(INITIAL, steps) == s;
    AfterOneMore(INITIAL, steps, step);
  }

  // Document 1, connected and not yet asked for anything.
  const CONNECTED := INITIAL.(generation := 1, connects := 1, active := Some(Doc(1, 1, {}, 0, map[1 := Connect], [1])),
                              posts := [Response(1, 1, Ok, Silent, None, NoReason)])

  function Ask(id: Id, op: Op): Step { Step(Receive(Request(1, id, op, 0)), USUAL) }

  lemma Connects()
    ensures Reachable(CONNECTED)
  {
    assert After(INITIAL, []) == INITIAL;
    Reaches(INITIAL, Ask(1, Connect));
  }

  lemma ConnectedSize()
    ensures Size(CONNECTED.active.value.requests) == 1
  {
    assert KeySet(CONNECTED.active.value.requests) == {1};
  }

  ghost predicate Open(s: State) {
    s.managed && s.active.Some? && s.active.value.client == 1 && s.active.value.generation == s.generation
  }

  lemma {:induction false} NothingDead(s: State, q: seq<Queued>)
    requires Open(s) && forall i :: 0 <= i < |q| ==> q[i].doc == s.generation
    ensures DropDead(s, q) == q
  {
  }

  // A request without a saved grant joins the queue.
  lemma Joins(s: State, id: Id, op: Op, cap: Capability)
    requires Open(s) && id !in s.active.value.requests && Size(s.active.value.requests) < 100 && |s.queue| < MAX_PENDING
    requires CapabilityOf(op) == Some(cap) && cap !in s.active.value.denied
    requires forall i :: 0 <= i < |s.queue| ==> s.queue[i].doc == s.generation
    ensures var q := s.queue + [Queued(s.generation, cap, id, op)];
            Perform(s, Ask(id, op))
            == s.(active := Some(Remember(s.active.value, id, op)), queue := q, prompt := Some(q[0]))
  {
    var q := s.queue + [Queued(s.generation, cap, id, op)];
    var s1 := WithDoc(s, Remember(s.active.value, id, op));
    NothingDead(s1.(queue := q), q);
    assert HandleRequest(s, 1, id, op, 0, USUAL) == RequestCapability(s1, s.generation, id, op, cap, USUAL);
    assert RequestCapability(s1, s.generation, id, op, cap, USUAL) == Advance(s1.(queue := q));
  }

  /********** A running lookup answers after a denial **********/

  lemma RunsLookup(s: State, id: Id)
    requires Open(s) && s.queue == [Queued(s.generation, Geolocation, id, LocationGet)] && id !in s.cancelled
    requires s.inFlight == {} && s.pool == {}
    ensures Perform(s, Step(ClickAllow(Once), USUAL))
         == Begin(s.(queue := [], prompt := None, runs := s.runs + [Run(s.generation, Geolocation, id)]), s.generation,
                  1, {id}, Locating(id))
  {
    var q := s.queue[0];
    AllowEquation(s, Once, USUAL);
    assert Without([q], [q]) == [];
    var s1 := s.(queue := []);
    assert Taken(s, [q]) == s1;
    var s2 := ExecuteGranted(s1, q.doc, q.id, q.op, USUAL);
    assert ExecuteAll(s1, [q], USUAL) == s2 by {
      assert [q][1..] == [];
      assert ExecuteAll(s2, [], USUAL) == s2;
    }
    assert s2 == Begin(Begun(s1, q.doc, Geolocation, id), q.doc, 1, {id}, Locating(id));
    assert Advance(s2) == s2.(prompt := None);
  }

  // Document 1 with one running lookup, for request 2, and nothing waiting.
  ghost predicate Looking(s: State) {
    && Open(s) && s.generation == 1 && s.active.value.requests.Keys == {1, 2} && s.active.value.denied == {}
    && s.cancelled == {}
    && s.batches == map[0 := Batch({0}, 1, Locating(2))]
  }

  lemma LooksUp() returns (s: State)
    ensures Reachable(s) && Looking(s) && s.queue == []
  {
    Connects();
    ConnectedSize();
    Joins(CONNECTED, 2, LocationGet, Geolocation);
    Reaches(CONNECTED, Ask(2, LocationGet));
    var s2 := Perform(CONNECTED, Ask(2, LocationGet));
    RunsLookup(s2, 2);
    Reaches(s2, Step(ClickAllow(Once), USUAL));
    s := Perform(s2, Step(ClickAllow(Once), USUAL));
    assert Fresh(0, 1) == {0};
  }

  lemma DenyKeepsWork(s: State)
    requires Open(s) && s.queue != [] && s.queue[0].doc == s.generation
    ensures var s' := Perform(s, Step(ClickDeny, USUAL));
            Open(s') && s'.generation == s.generation && s'.batches == s.batches && s'.cancelled == s.cancelled
            && s'.active.value.denied == s.active.value.denied + {s.queue[0].cap}
  {
    DenyEquation(s);
  }

  lemma PositionIsPosted(s: State)
    requires Open(s) && s.generation == 1 && s.cancelled == {} && s.batches == map[0 := Batch({0}, 1, Locating(2))]
    ensures SettleLocation(s, 0, Position).posts == s.posts + [Response(1, 2, Ok, Silent, None, NoReason)]
  {
  }

  /** Denying a capability does not stop a lookup that already runs: its position is still handed over. */
  lemma RunningLookupAnswersAfterDenial() returns (s: State, k: nat)
    ensures Reachable(s) && s.active.Some? && Geolocation in s.active.value.denied
    ensures k in s.batches && s.batches[k].work.Locating?
    ensures SettleLocation(s, k, Position).posts == s.posts
              + [Response(1, s.batches[k].work.id, Ok, Silent, None, NoReason)]
  {
    var s1 := LooksUp();
    assert KeySet(s1.active.value.requests) == {1, 2};
    Joins(s1, 3, LocationGet, Geolocation);
    Reaches(s1, Ask(3, LocationGet));
    var s2 := Perform(s1, Ask(3, LocationGet));
    assert s2.queue == [Queued(1, Geolocation, 3, LocationGet)];
    DenyKeepsWork(s2);
    Reaches(s2, Step(ClickDeny, USUAL));
    s, k := Perform(s2, Step(ClickDeny, USUAL)), 0;
    PositionIsPosted(s);
  }

  /********** The queue grows past its limit **********/

  const FIRST := Queued(1, Notifications, 2, NotificationPermission)
  const SECOND := Queued(1, Notifications, 3, NotificationPermission)
  const PROMPTED := Consenting(Always, FIRST, [FIRST, SECOND], 1, Some(7))

  // Document 1 with an open native prompt for two requests and `n` lookups waiting behind it.
  ghost predicate Prompting(s: State, n: nat) {
    && Open(s) && s.generation == 1 && s.active.value.denied == {} && s.active.value.revision == 1 && s.cancelled == {}
    && (forall x :: x in s.active.value.requests <==> 1 <= x < 4 + n) && Size(s.active.value.requests) == 3 + n
    && s.batches == map[0 := Batch({0, 1}, 1, PROMPTED)]
    && |s.queue| == n && forall i :: 0 <= i < n ==> s.queue[i] == Queued(1, Geolocation, 4 + i, LocationGet)
  }

  const ONCE_ASKED :=
    CONNECTED.(active := Some(Doc(1, 1, {}, 0, map[1 := Connect, 2 := NotificationPermission], [1, 2])),
               queue := [FIRST],
               prompt := Some(FIRST))

  const TWICE_REMEMBERED := map[1 := Connect, 2 := NotificationPermission, 3 := NotificationPermission]
  const TWICE_ASKED :=
    CONNECTED.(active := Some(Doc(1, 1, {}, 0, TWICE_REMEMBERED, [1, 2, 3])),
               queue := [FIRST, SECOND],
               prompt := Some(FIRST))

  lemma AsksOnce()
    ensures Reachable(ONCE_ASKED)
  {
    Connects();
    ConnectedSize();
    Joins(CONNECTED, 2, NotificationPermission, Notifications);
    Reaches(CONNECTED, Ask(2, NotificationPermission));
    assert [1] + [2] == [1, 2] && map[1 := Connect][2 := NotificationPermission]
           == map[1 := Connect, 2 := NotificationPermission];
    assert Remember(CONNECTED.active.value, 2, NotificationPermission) == ONCE_ASKED.active.value;
    assert [] + [FIRST] == [FIRST];
    assert Perform(CONNECTED, Ask(2, NotificationPermission)) == ONCE_ASKED;
  }

  lemma AsksTwice()
    ensures Reachable(TWICE_ASKED)
  {
    AsksOnce();
    assert KeySet(ONCE_ASKED.active.value.requests) == {1, 2};
    Joins(ONCE_ASKED, 3, NotificationPermission, Notifications);
    Reaches(ONCE_ASKED, Ask(3, NotificationPermission));
    assert [1, 2] + [3] == [1, 2, 3];
    assert Remember(ONCE_ASKED.active.value, 3, NotificationPermission) == TWICE_ASKED.active.value;
    assert [FIRST] + [SECOND] == [FIRST, SECOND];
    assert Perform(ONCE_ASKED, Ask(3, NotificationPermission)) == TWICE_ASKED;
  }

  const REVISED := TWICE_ASKED.(active := Some(TWICE_ASKED.active.value.(revision := 1)))

  lemma ClicksAlways(s: State)
    requires Open(s) && s.queue != [] && s.queue[0].doc == s.generation && s.queue[0].cap == Notifications
    ensures Perform(s, Step(ClickAllow(Always), USUAL))
         == ResolveNotificationConsent(Revised(s), Always, s.queue[0], s.active.value.revision + 1, Some(7), USUAL)
  {
    AllowEquation(s, Always, USUAL);
  }

  lemma ClicksTwiceAsked()
    ensures Perform(TWICE_ASKED, Step(ClickAllow(Always), USUAL))
         == ResolveNotificationConsent(REVISED, Always, FIRST, 1, Some(7), USUAL)
  {
    ClicksAlways(TWICE_ASKED);
    assert Revised(TWICE_ASKED) == REVISED;
  }

  lemma OpensPrompt()
    ensures Perform(TWICE_ASKED, Step(ClickAllow(Always), USUAL))
         == REVISED.(queue := [], prompt := None, pool := {0, 1},
                     batches := map[0 := Batch({0, 1}, 1, PROMPTED)], next := 2, inFlight := {2, 3})
  {
    ClicksTwiceAsked();
    TwoSelected();
    ResolveEquation(REVISED, Always, FIRST, 1, Some(7), USUAL);
    assert Fresh(0, 2) == {0, 1};
  }

  lemma TwoSelected()
    ensures Matching([FIRST, SECOND], 1, Notifications) == [FIRST, SECOND]
    ensures Without([FIRST, SECOND], [FIRST, SECOND]) == []
    ensures Ids([FIRST, SECOND]) == {2, 3}
  {
    assert [FIRST, SECOND][1..] == [SECOND] && [SECOND][1..] == [];
    assert Matching([SECOND], 1, Notifications) == [SECOND] + Matching([], 1, Notifications) == [SECOND];
    assert Without([SECOND], [FIRST, SECOND]) == Without([], [FIRST, SECOND]);
    assert [FIRST, SECOND][0].id == 2 && [FIRST, SECOND][1].id == 3;
  }

  lemma FirstThree()
    ensures (forall x :: x in TWICE_ASKED.active.value.requests <==> 1 <= x < 4)
    ensures Size(TWICE_ASKED.active.value.requests) == 3
  {
    assert KeySet(TWICE_ASKED.active.value.requests) == {1, 2, 3};
  }

  lemma Prompts() returns (s: State)
    ensures Reachable(s) && Prompting(s, 0)
  {
    AsksTwice();
    OpensPrompt();
    Reaches(TWICE_ASKED, Step(ClickAllow(Always), USUAL));
    s := REVISED.(queue := [], prompt := None, pool := {0, 1},
                  batches := map[0 := Batch({0, 1}, 1, PROMPTED)], next := 2, inFlight := {2, 3});
    FirstThree();
  }

  lemma OneMoreWaits(s0: State, n: nat)
    requires Prompting(s0, n) && n < MAX_PENDING
    ensures Prompting(Perform(s0, Ask(4 + n, LocationGet)), n + 1)
  {
    hide Core, Exposed, Protected, Perform;
    Joins(s0, 4 + n, LocationGet, Geolocation);
    var more := Remember(s0.active.value, 4 + n, LocationGet).requests;
    var before := KeySet(s0.active.value.requests);
    assert KeySet(more) == before + {4 + n} && 4 + n !in before;
    assert |before + {4 + n}| == |before| + 1;
  }

  lemma {:induction false} Fills(n: nat) returns (s: State)
    requires n <= MAX_PENDING
    ensures Reachable(s) && Prompting(s, n)
  {
    if n == 0 {
      s := Prompts();
    } else {
      var s0 := Fills(n - 1);
      OneMoreWaits(s0, n - 1);
      Reaches(s0, Ask(3 + n, LocationGet));
      s := Perform(s0, Ask(3 + n, LocationGet));
    }
  }

  lemma Requeues(s: State)
    requires Prompting(s, MAX_PENDING)
    ensures SettleConsent(s, 0, Ok, false, USUAL).queue == s.queue + [SECOND]
  {
    SettleConsentEquation(s, 0, Ok, false, USUAL);
    var v := ConsentVerdict(s, PROMPTED, Ok, USUAL);
    assert v == Verdict(Ok, false, true);
    var s1 := Release(s, 0);
    var s2 := SettleItem(s1, Always, FIRST, FIRST, v, USUAL);
    assert s2.queue == s1.queue && s2.cancelled == {} && s2.active == s1.active;
    var s3 := SettleItem(s2, Always, FIRST, SECOND, v, USUAL);
    assert s3.queue == s1.queue + [SECOND];
    assert [FIRST, SECOND][1..] == [SECOND] && [SECOND][1..] == [];
    assert SettleItems(s2, Always, FIRST, [SECOND], v, USUAL) == SettleItems(s3, Always, FIRST, [], v, USUAL) == s3;
    NothingDead(s3, s3.queue);
  }

  /** A sibling whose approval could not be saved waits again, past the limit that a new request meets. */
  lemma QueueExceedsItsLimit() returns (s: State)
    ensures Reachable(s) && |s.queue| == MAX_PENDING + 1
  {
    var s0 := Fills(MAX_PENDING);
    Requeues(s0);
    Reaches(s0, Step(PromptSettles(0, Ok, false), USUAL));
    s := Perform(s0, Step(PromptSettles(0, Ok, false), USUAL));
  }
}
