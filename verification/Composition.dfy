/**
 The shim and the broker over their two message channels.

 Both channels are first-in first-out. The system keeps the whole log of each direction and how much of it
 was received; what is between is on its way.
 */
module Composition {
  import opened Wrappers
  import opened Protocol
  import S = ShimSpec
  import I = ShimInvariant
  import W = ShimWire
  import B = BrokerSpec
  import V = BrokerInvariant
  import R = BrokerRequests
  import A = BrokerAnswers
  import F = BrokerFrames
  import C = BrokerCancellation
  import T = BrokerTheorems

  datatype System = System(shim: S.State, broker: B.State, heard: nat, delivered: nat)

  datatype Action =
    | Act(page: S.Action)             // the application, the clock and the page's own life
    | Deliver(detail: S.Detail)       // the page receives the parent's next answer
    | Listen(env: B.Env)              // the parent receives the page's next message
    | Parent(step: B.Action, env: B.Env)
    | Reframe(managed: bool)          // the parent loads another address in the frame
    | Reload                          // another page of the same preview replaces this one

  predicate Enabled(y: System, a: Action) {
    match a
    case Act(page) => S.Enabled(y.shim, page) && !page.Hears? && !page.Mutes?
    case Deliver(detail) => y.delivered < |y.broker.posts| && y.shim.frame == S.Idle
    case Listen(env) => y.heard < |y.shim.out|
    case Parent(step, env) => B.Enabled(y.broker, step) && !step.Receive? && !step.Manage?
    case Reframe(managed) => true
    case Reload => true
  }

  function Next(y: System, a: Action): System
    requires Enabled(y, a)
  {
    match a
    case Act(page) => y.(shim := S.Next(y.shim, page))
    case Deliver(detail) =>
      y.(shim := S.Next(y.shim, S.Hears(y.broker.posts[y.delivered], detail)), delivered := y.delivered + 1)
    case Listen(env) => y.(broker := B.HandleMessage(y.broker, y.shim.out[y.heard], env), heard := y.heard + 1)
    case Parent(step, env) => y.(broker := B.Next(y.broker, step, env))
    case Reframe(managed) => y.(broker := B.Revoke(y.broker).(managed := managed))
    case Reload => y.(shim := S.Boot(y.shim))
  }

  // A page is in the frame and has posted its connection.
  const INITIAL := System(S.Boot(S.BLANK), B.INITIAL, 0, 0)

  // The page closes no notification that may still wait in the parent while its own table is full.
  ghost predicate ClosesInTime(y: System, a: Action) { a.Act? ==> W.ClosesInTime(y.shim, a.page) }

  // Message m closes notification x of a document.
  predicate Closes(m: Message, client: Client, x: Id) {
    m.Request? && m.client == client && m.op == NotificationClose && m.target == x
  }

  // Two messages of the document close x.
  ghost predicate Twice(log: seq<Message>, client: Client, x: Id) {
    exists i, j :: 0 <= i < j < |log| && Closes(log[i], client, x) && Closes(log[j], client, x)
  }

  // The notifications of a document that two of its messages close.
  ghost function Again(log: seq<Message>, client: Client): set<Id> {
    set m | m in log && m.Request? && Twice(log, client, m.target) :: m.target
  }

  // No document closes more than 54 notifications by two messages each.
  ghost predicate FewAgain(out: seq<Message>) { forall client :: |Again(out, client)| <= T.SPARE }

  // The step posts no close that is one second close too many.
  ghost predicate ClosesFewAgain(y: System, a: Action)
    requires Enabled(y, a)
  {
    FewAgain(Next(y, a).shim.out)
  }

  // The parent has room to remember the next message of the connected page.
  ghost predicate HasMemory(y: System, a: Action) {
    a.Listen? && y.heard < |y.shim.out| && R.Accepts(y.broker, y.shim.out[y.heard].client)
    ==> Size(R.Pruned(y.broker).requests) < B.MAX_REMEMBERED
  }

  /********** The invariant **********/

  // Requests of this page that wait in the parent.
  ghost function WaitingAt(b: B.State, client: Client): set<Id> {
    if b.active.Some? && b.active.value.client == client then V.Exposed(b) else {}
  }

  // Requests of this page that will wait in the parent once everything on its way was heard.
  ghost function Coming(y: System): set<Id>
    requires y.heard <= |y.shim.out|
  {
    W.Flow(y.shim.clientId, WaitingAt(y.broker, y.shim.clientId), y.shim.out[y.heard..])
  }

  // Message m of the log carries request x.
  predicate Carries(m: Message, x: Id) { m.Request? && m.id == x }

  ghost predicate Posted(log: seq<Message>, x: Id) { exists m :: m in log && Carries(m, x) }

  ghost predicate Remembered(log: seq<Message>, client: Client, requests: map<Id, Op>) {
    forall x :: x in requests ==> exists m :: m in log && Carries(m, x) && m.client == client && m.op == requests[x]
  }

  // No more than 16 requests wait, however much of what is on its way was heard.
  ghost predicate Bounded(client: Client, e: set<Id>, messages: seq<Message>) {
    forall k :: 0 <= k <= |messages| ==> |W.Flow(client, e, messages[..k])| <= S.MAX_CONSENT
  }

  // An answer to this page was for a message the parent heard, and refuses nothing for a full queue.
  ghost predicate Fair(log: seq<Message>, r: Response) { Posted(log, r.id) && r.reason != TooManyPending }

  ghost predicate AnswersOk(y: System)
    requires y.heard <= |y.shim.out|
  {
    && (forall i :: 0 <= i < |y.broker.posts| && y.broker.posts[i].client == y.shim.clientId ==>
        Fair(y.shim.out[..y.heard], y.broker.posts[i]))
    && (forall i :: y.delivered <= i < |y.broker.posts| && y.broker.posts[i].client == y.shim.clientId ==>
        y.broker.posts[i].id !in Coming(y))
    && (forall i :: 0 <= i < |y.broker.posts| ==> y.broker.posts[i].client < y.shim.next)
  }

  ghost predicate BrokerOk(y: System)
    requires y.heard <= |y.shim.out|
  {
    && V.Valid(y.broker)
    && (y.broker.active.Some? ==> y.broker.managed && y.broker.active.value.client < y.shim.next)
    && (y.broker.active.Some? && y.broker.active.value.client == y.shim.clientId
        ==> Remembered(y.shim.out[..y.heard], y.shim.clientId, y.broker.active.value.requests))
  }

  ghost predicate Inv(y: System) {
    && I.Valid(y.shim) && W.WireOk(y.shim) && !y.shim.mute
    && y.heard <= |y.shim.out| && y.delivered <= |y.broker.posts|
    && BrokerOk(y)
    && W.Covers(y.shim, Coming(y))
    && Bounded(y.shim.clientId, WaitingAt(y.broker, y.shim.clientId), y.shim.out[y.heard..])
    && AnswersOk(y)
  }

  /********** Flows **********/

  // What flows came from the start or from a message.
  lemma {:induction false} FlowSource(client: Client, f: set<Id>, messages: seq<Message>, x: Id)
    requires x in W.Flow(client, f, messages)
    ensures x in f || Posted(messages, x)
    decreases |messages|
  {
    if messages != [] {
      FlowSource(client, W.Through(client, f, messages[0]), messages[1..], x);
      if x !in W.Through(client, f, messages[0]) {
        var m :| m in messages[1..] && Carries(m, x);
        assert m in messages && Carries(m, x);
      } else if x !in f {
        assert messages[0] in messages && Carries(messages[0], x);
      }
    }
  }

  lemma {:induction false} ForeignFlow(client: Client, f: set<Id>, messages: seq<Message>)
    requires forall m :: m in messages ==> m.client != client
    ensures W.Flow(client, f, messages) == f
    decreases |messages|
  {
    if messages != [] {
      assert messages[0] in messages;
      ForeignFlow(client, f, messages[1..]);
    }
  }

  lemma BoundedMono(client: Client, e: set<Id>, e': set<Id>, messages: seq<Message>)
    requires Bounded(client, e, messages) && e' <= e
    ensures Bounded(client, e', messages)
  {
    forall k | 0 <= k <= |messages| ensures |W.Flow(client, e', messages[..k])| <= S.MAX_CONSENT {
      W.FlowMono(client, e', e, messages[..k]);
      I.SubsetSize(W.Flow(client, e', messages[..k]), W.Flow(client, e, messages[..k]));
    }
  }

  lemma BoundedTail(client: Client, e: set<Id>, messages: seq<Message>)
    requires Bounded(client, e, messages) && messages != []
    ensures Bounded(client, W.Through(client, e, messages[0]), messages[1..])
    ensures |W.Through(client, e, messages[0])| <= S.MAX_CONSENT
  {
    var e' := W.Through(client, e, messages[0]);
    forall k | 0 <= k <= |messages[1..]| ensures |W.Flow(client, e', messages[1..][..k])| <= S.MAX_CONSENT {
      assert messages[..k + 1][0] == messages[0] && messages[..k + 1][1..] == messages[1..][..k];
      assert W.Flow(client, e, messages[..k + 1]) == W.Flow(client, e', messages[1..][..k]);
    }
    assert messages[1..][..0] == [];
    assert W.Flow(client, e', messages[1..][..0]) == e';
  }

  lemma BoundedSnoc(client: Client, e: set<Id>, messages: seq<Message>, new_: seq<Message>)
    requires Bounded(client, e, messages) && |new_| <= 1 && |W.Flow(client, e, messages + new_)| <= S.MAX_CONSENT
    ensures Bounded(client, e, messages + new_)
  {
    var more := messages + new_;
    forall k | 0 <= k <= |more| ensures |W.Flow(client, e, more[..k])| <= S.MAX_CONSENT {
      if k <= |messages| { assert more[..k] == messages[..k]; } else { assert more[..k] == more; }
    }
  }

  // A request is posted once.
  lemma PostedOnce(out: seq<Message>, k: nat, x: Id)
    requires k <= |out| && Posted(out[..k], x)
    requires forall i, j :: 0 <= i < j < |out| && out[i].Request? && out[j].Request? ==> out[i].id != out[j].id
    ensures !Posted(out[k..], x)
  {
    var m :| m in out[..k] && Carries(m, x);
    var i :| 0 <= i < k && out[..k][i] == m;
    assert out[i] == m;
    forall n | n in out[k..] ensures !Carries(n, x) {
      var j :| 0 <= j < |out| - k && out[k..][j] == n;
      assert out[k + j] == n;
    }
  }

  lemma NotPostedBefore(out: seq<Message>, k: nat)
    requires k < |out| && out[k].Request?
    requires forall i, j :: 0 <= i < j < |out| && out[i].Request? && out[j].Request? ==> out[i].id != out[j].id
    ensures !Posted(out[..k], out[k].id)
  {
    forall m | m in out[..k] ensures !Carries(m, out[k].id) {
      var i :| 0 <= i < k && out[..k][i] == m;
      assert out[i] == m;
    }
  }

  lemma PostedLater(out: seq<Message>, k: nat, n: nat, x: Id)
    requires k <= n <= |out| && Posted(out[..k], x)
    requires forall i, j :: 0 <= i < j < |out| && out[i].Request? && out[j].Request? ==> out[i].id != out[j].id
    ensures !Posted(out[n..], x)
  {
    PostedOnce(out, k, x);
    forall j: nat | j < |out[n..]| ensures !Carries(out[n..][j], x) {
      assert out[k..][j + (n - k)] == out[n..][j];
    }
  }

  /********** The page's steps **********/

  lemma PageFlows(y: System, y': System)
    requires Inv(y) && W.Carries(y.shim, Coming(y), y'.shim) && y' == y.(shim := y'.shim, delivered := y'.delivered)
    ensures var more := y'.shim.out[|y.shim.out|..];
            && y'.shim.out == y.shim.out + more && y'.shim.out[y.heard..] == y.shim.out[y.heard..] + more
            && Coming(y') == W.Flow(y.shim.clientId, Coming(y), more)
            && |Coming(y')| <= |I.Waits(I.Held(y'.shim))|
  {
    hide V.Valid, I.Valid, W.WireOk, W.Flow, BrokerOk, AnswersOk, WaitingAt, Bounded;
    var more := y'.shim.out[|y.shim.out|..];
    assert y'.shim.out[y.heard..] == y.shim.out[y.heard..] + more;
    W.FlowAppend(y.shim.clientId, WaitingAt(y.broker, y.shim.clientId), y.shim.out[y.heard..], more);
    I.SubsetSize(Coming(y'), I.Waits(I.Held(y'.shim)));
  }

  // The page went on: it posted at most one message and still counts what is coming.
  lemma PageKeeps(y: System, y': System)
    requires Inv(y) && W.Carries(y.shim, Coming(y), y'.shim) && I.Valid(y'.shim)
    requires y' == y.(shim := y'.shim, delivered := y'.delivered) && y.delivered <= y'.delivered <= |y.broker.posts|
    ensures Inv(y')
  {
    hide W.WireOk, W.Flow, V.Valid, W.Covers, AnswersOk;
    PageFlows(y, y');
    I.WaitsSize(I.Held(y'.shim));
    BoundedSnoc(y.shim.clientId, WaitingAt(y.broker, y.shim.clientId), y.shim.out[y.heard..],
                y'.shim.out[|y.shim.out|..]);
    assert y'.shim.out[..y.heard] == y.shim.out[..y.heard];
    PageAnswers(y, y', y'.shim.out[|y.shim.out|..]);
  }

  lemma PageAnswers(y: System, y': System, more: seq<Message>)
    requires Inv(y) && y' == y.(shim := y'.shim, delivered := y'.delivered)
    requires y.delivered <= y'.delivered <= |y.broker.posts|
    requires y'.shim.clientId == y.shim.clientId && y.shim.next <= y'.shim.next && y'.shim.out == y.shim.out + more
    requires Coming(y') == W.Flow(y.shim.clientId, Coming(y), more) && W.WireOk(y'.shim)
    ensures AnswersOk(y')
  {
    assert y'.shim.out[..y.heard] == y.shim.out[..y.heard];
    forall i | y'.delivered <= i < |y.broker.posts| && y.broker.posts[i].client == y.shim.clientId
      ensures y.broker.posts[i].id !in Coming(y')
    {
      var x := y.broker.posts[i].id;
      if x in Coming(y') {
        FlowSource(y.shim.clientId, Coming(y), more, x);
        assert Fair(y.shim.out[..y.heard], y.broker.posts[i]);
        PostedLater(y'.shim.out, y.heard, |y.shim.out|, x);
      }
    }
  }

  lemma ActKeeps(y: System, page: S.Action)
    requires Inv(y) && Enabled(y, Act(page)) && ClosesInTime(y, Act(page)) && !(page.Shows? && y.shim.hidden)
    ensures Inv(Next(y, Act(page)))
  {
    W.NextCarries(y.shim, page, Coming(y));
    I.NextKeepsValid(y.shim, page);
    PageKeeps(y, Next(y, Act(page)));
  }

  lemma DeliverKeeps(y: System, detail: S.Detail)
    requires Inv(y) && Enabled(y, Deliver(detail))
    ensures Inv(Next(y, Deliver(detail)))
  {
    var a := S.Hears(y.broker.posts[y.delivered], detail);
    W.NextCarries(y.shim, a, Coming(y));
    I.NextKeepsValid(y.shim, a);
    PageKeeps(y, Next(y, Deliver(detail)));
  }

  // Under its new name the page waits for nothing, and nothing on its way is its own but the connection.
  lemma RenewedComing(y: System, y': System)
    requires Inv(y) && W.Renewed(y.shim, y'.shim) && y' == y.(shim := y'.shim)
    ensures Coming(y') == {} && WaitingAt(y.broker, y'.shim.clientId) == {}
    ensures Bounded(y'.shim.clientId, {}, y'.shim.out[y.heard..])
  {
    hide V.Valid, I.Valid, W.Covers, AnswersOk;
    var client := y'.shim.clientId;
    var connect := Request(client, y'.shim.next - 1, Connect, 0);
    var coming := y.shim.out[y.heard..];
    assert y'.shim.out[y.heard..] == coming + [connect];
    forall m | m in coming ensures m.client != client { assert m in y.shim.out; }
    ForeignFlow(client, {}, coming);
    W.FlowAppend(client, {}, coming, [connect]);
    assert W.Flow(client, {}, [connect]) == W.Flow(client, {}, []) by { assert [connect][1..] == []; }
    forall k | 0 <= k <= |coming| ensures |W.Flow(client, {}, coming[..k])| <= S.MAX_CONSENT {
      ForeignFlow(client, {}, coming[..k]);
    }
    BoundedSnoc(client, {}, coming, [connect]);
  }

  lemma RenewedKeeps(y: System, y': System)
    requires Inv(y) && W.Renewed(y.shim, y'.shim) && y' == y.(shim := y'.shim)
    ensures Inv(y')
  {
    RenewedComing(y, y');
    assert y'.shim.out[..y.heard] == y.shim.out[..y.heard];
  }

  /********** The parent's steps **********/

  // The parent heard `count` messages and is now b'. Nothing new waits but what the messages ask for, and the
  // page was answered only about messages that were heard and wait for nothing.
  ghost predicate Responds(y: System, b': B.State, count: nat)
    requires y.heard + count <= |y.shim.out|
  {
    var client := y.shim.clientId;
    var log := y.shim.out[..y.heard + count];
    && V.Valid(b')
    && WaitingAt(b', client) <= W.Flow(client, WaitingAt(y.broker, client), y.shim.out[y.heard..y.heard + count])
    && (b'.active.Some? ==> b'.managed && b'.active.value.client < y.shim.next)
    && (b'.active.Some? && b'.active.value.client == client ==> Remembered(log, client, b'.active.value.requests))
    && y.broker.posts <= b'.posts
    && (forall i :: |y.broker.posts| <= i < |b'.posts| ==>
          && b'.posts[i].client < y.shim.next
          && (b'.posts[i].client == client ==> Fair(log, b'.posts[i]) && b'.posts[i].id !in WaitingAt(b', client)))
  }

  lemma SilentComing(client: Client, e: set<Id>, e': set<Id>, coming: seq<Message>)
    requires Bounded(client, e, coming) && e' <= e
    ensures W.Flow(client, e', coming) <= W.Flow(client, e, coming) && Bounded(client, e', coming)
  {
    W.FlowMono(client, e', e, coming);
    BoundedMono(client, e, e', coming);
  }

  lemma HeardComing(client: Client, e: set<Id>, e': set<Id>, coming: seq<Message>)
    requires coming != [] && Bounded(client, e, coming) && e' <= W.Through(client, e, coming[0])
    ensures W.Flow(client, e', coming[1..]) <= W.Flow(client, e, coming) && Bounded(client, e', coming[1..])
  {
    BoundedTail(client, e, coming);
    W.FlowMono(client, e', W.Through(client, e, coming[0]), coming[1..]);
    BoundedMono(client, W.Through(client, e, coming[0]), e', coming[1..]);
  }

  lemma OneFlow(client: Client, e: set<Id>, m: Message)
    ensures W.Flow(client, e, [m]) == W.Through(client, e, m)
  {
    assert [m][1..] == [];
  }

  lemma QuietComing(y: System, b': B.State)
    requires Inv(y) && WaitingAt(b', y.shim.clientId) <= WaitingAt(y.broker, y.shim.clientId)
    ensures Coming(y.(broker := b')) <= Coming(y)
    ensures Bounded(y.shim.clientId, WaitingAt(b', y.shim.clientId), y.shim.out[y.heard..])
  {
    hide V.Valid, I.Valid, W.WireOk, W.Covers, AnswersOk, BrokerOk;
    SilentComing(y.shim.clientId, WaitingAt(y.broker, y.shim.clientId), WaitingAt(b', y.shim.clientId),
                 y.shim.out[y.heard..]);
  }

  lemma NextComing(y: System, b': B.State)
    requires Inv(y) && y.heard < |y.shim.out|
    requires WaitingAt(b', y.shim.clientId) <= W.Through(y.shim.clientId, WaitingAt(y.broker, y.shim.clientId),
                                                         y.shim.out[y.heard])
    ensures Coming(y.(broker := b', heard := y.heard + 1)) <= Coming(y)
    ensures Bounded(y.shim.clientId, WaitingAt(b', y.shim.clientId), y.shim.out[y.heard + 1..])
  {
    hide V.Valid, I.Valid, W.WireOk, W.Covers, AnswersOk, BrokerOk;
    var coming := y.shim.out[y.heard..];
    assert coming[0] == y.shim.out[y.heard] && coming[1..] == y.shim.out[y.heard + 1..];
    HeardComing(y.shim.clientId, WaitingAt(y.broker, y.shim.clientId), WaitingAt(b', y.shim.clientId), coming);
  }

  lemma RespondsComing(y: System, b': B.State, count: nat)
    requires Inv(y) && y.heard + count <= |y.shim.out| && count <= 1 && Responds(y, b', count)
    ensures var y' := y.(broker := b', heard := y.heard + count);
            Coming(y') <= Coming(y) && Bounded(y.shim.clientId, WaitingAt(b', y.shim.clientId), y.shim.out[y'.heard..])
  {
    hide V.Valid, I.Valid, W.WireOk, W.Covers, AnswersOk, Inv, BrokerOk, Coming, Bounded, WaitingAt;
    if count == 0 {
      assert y.shim.out[y.heard..y.heard] == [];
      QuietComing(y, b');
    } else {
      assert y.shim.out[y.heard..y.heard + 1] == [y.shim.out[y.heard]];
      OneFlow(y.shim.clientId, WaitingAt(y.broker, y.shim.clientId), y.shim.out[y.heard]);
      NextComing(y, b');
    }
  }

  lemma LongerLog(out: seq<Message>, k: nat, n: nat, x: Id)
    requires k <= n <= |out| && Posted(out[..k], x)
    ensures Posted(out[..n], x)
  {
    var m :| m in out[..k] && Carries(m, x);
    var i :| 0 <= i < k && out[..k][i] == m;
    assert out[..n][i] == m;
  }

  // An answer about a heard message that does not wait is about nothing that is coming.
  lemma AnsweredNotComing(y: System, b': B.State, count: nat, x: Id)
    requires Inv(y) && y.heard + count <= |y.shim.out| && Posted(y.shim.out[..y.heard + count], x)
    requires x !in WaitingAt(b', y.shim.clientId)
    ensures x !in Coming(y.(broker := b', heard := y.heard + count))
  {
    var y' := y.(broker := b', heard := y.heard + count);
    if x in Coming(y') {
      FlowSource(y.shim.clientId, WaitingAt(b', y.shim.clientId), y.shim.out[y'.heard..], x);
      PostedOnce(y.shim.out, y'.heard, x);
    }
  }

  lemma RespondsAnswers(y: System, b': B.State, count: nat)
    requires Inv(y) && y.heard + count <= |y.shim.out| && count <= 1 && Responds(y, b', count)
    ensures AnswersOk(y.(broker := b', heard := y.heard + count))
  {
    hide V.Core, I.Consistent, W.LogOk;
    var y' := y.(broker := b', heard := y.heard + count);
    RespondsComing(y, b', count);
    forall i | 0 <= i < |b'.posts| && b'.posts[i].client == y.shim.clientId
      ensures Fair(y.shim.out[..y'.heard], b'.posts[i]) && (y.delivered <= i ==> b'.posts[i].id !in Coming(y'))
    {
      if i < |y.broker.posts| {
        assert b'.posts[i] == y.broker.posts[i] && Fair(y.shim.out[..y.heard], y.broker.posts[i]);
        LongerLog(y.shim.out, y.heard, y'.heard, b'.posts[i].id);
      } else {
        AnsweredNotComing(y, b', count, b'.posts[i].id);
      }
    }
  }

  lemma CoversLess(s: S.State, e: set<Id>, e': set<Id>)
    requires W.Covers(s, e) && e' <= e
    ensures W.Covers(s, e')
  {
  }

  lemma RespondsKeeps(y: System, b': B.State, count: nat)
    requires Inv(y) && y.heard + count <= |y.shim.out| && count <= 1 && Responds(y, b', count)
    ensures Inv(y.(broker := b', heard := y.heard + count))
  {
    hide V.Valid, I.Valid, W.WireOk, W.Covers, Bounded, AnswersOk, Coming, WaitingAt;
    var y' := y.(broker := b', heard := y.heard + count);
    RespondsComing(y, b', count);
    RespondsAnswers(y, b', count);
    CoversLess(y.shim, Coming(y), Coming(y'));
  }

  lemma ShownAnswers(y: System, b': B.State, i: nat)
    requires Inv(y) && R.Shown(y.broker, b') && b'.active.Some? && |y.broker.posts| <= i < |b'.posts|
    ensures b'.posts[i].client < y.shim.next
    ensures b'.posts[i].client == y.shim.clientId
            ==> Fair(y.shim.out[..y.heard], b'.posts[i]) && b'.posts[i].id !in WaitingAt(b', y.shim.clientId)
  {
    hide V.Core;
    assert V.Telling(b'.posts[i], V.Exposed(b'), y.broker.active.value.client, y.broker.active.value.requests.Keys);
  }

  // A step of the parent that is no message.
  lemma ShownResponds(y: System, b': B.State)
    requires Inv(y) && V.Valid(b') && R.Shown(y.broker, b')
    ensures Responds(y, b', 0)
  {
    assert y.shim.out[y.heard..y.heard] == [];
    forall i | |y.broker.posts| <= i < |b'.posts|
      ensures b'.posts[i].client < y.shim.next
      ensures b'.posts[i].client == y.shim.clientId
              ==> Fair(y.shim.out[..y.heard], b'.posts[i]) && b'.posts[i].id !in WaitingAt(b', y.shim.clientId)
    {
      ShownAnswers(y, b', i);
    }
  }

  lemma ParentKeeps(y: System, step: B.Action, env: B.Env)
    requires Inv(y) && Enabled(y, Parent(step, env))
    ensures Inv(Next(y, Parent(step, env)))
  {
    hide V.Valid, I.Valid, W.WireOk, W.Covers, Bounded, AnswersOk, B.Next, Coming, WaitingAt;
    R.NextKeepsValid(y.broker, step, env);
    ShownResponds(y, B.Next(y.broker, step, env));
    RespondsKeeps(y, B.Next(y.broker, step, env), 0);
  }

  lemma ReframeKeeps(y: System, managed: bool)
    requires Inv(y)
    ensures Inv(Next(y, Reframe(managed)))
  {
    hide V.Core, I.Consistent, W.LogOk;
    R.RevokeKeeps(y.broker);
    R.ManageKeeps(B.Revoke(y.broker), managed);
    var b' := B.Revoke(y.broker).(managed := managed);
    assert Responds(y, b', 0) by { assert y.shim.out[y.heard..y.heard] == []; }
    RespondsKeeps(y, b', 0);
  }

  /********** Hearing a message **********/

  lemma HeardMember(y: System)
    requires y.heard < |y.shim.out|
    ensures var m := y.shim.out[y.heard];
            && m in y.shim.out && m in y.shim.out[..y.heard + 1]
            && y.shim.out[y.heard..y.heard + 1] == [m]
            && (forall x :: x in y.shim.out[..y.heard] ==> x in y.shim.out[..y.heard + 1])
  {
    assert y.shim.out[..y.heard + 1][y.heard] == y.shim.out[y.heard];
    assert y.shim.out[..y.heard + 1] == y.shim.out[..y.heard] + [y.shim.out[y.heard]];
  }

  lemma RememberedLonger(y: System, requests: map<Id, Op>)
    requires y.heard < |y.shim.out| && Remembered(y.shim.out[..y.heard], y.shim.clientId, requests)
    ensures Remembered(y.shim.out[..y.heard + 1], y.shim.clientId, requests)
  {
    HeardMember(y);
    forall x | x in requests
      ensures exists m :: m in y.shim.out[..y.heard + 1] && Carries(m, x) && m.client == y.shim.clientId
                && m.op == requests[x]
    {
      var m :| m in y.shim.out[..y.heard] && Carries(m, x) && m.client == y.shim.clientId && m.op == requests[x];
      assert m in y.shim.out[..y.heard + 1];
    }
  }

  // A message that changes nothing and answers nothing.
  lemma IgnoredResponds(y: System)
    requires Inv(y) && y.heard < |y.shim.out|
    requires WaitingAt(y.broker, y.shim.clientId) <= W.Through(y.shim.clientId, WaitingAt(y.broker, y.shim.clientId),
                                                               y.shim.out[y.heard])
    ensures Responds(y, y.broker, 1)
  {
    HeardMember(y);
    OneFlow(y.shim.clientId, WaitingAt(y.broker, y.shim.clientId), y.shim.out[y.heard]);
    if y.broker.active.Some? && y.broker.active.value.client == y.shim.clientId {
      RememberedLonger(y, y.broker.active.value.requests);
    }
  }

  // A message that ends the document.
  lemma ResetResponds(y: System)
    requires Inv(y) && y.heard < |y.shim.out|
    ensures Responds(y, B.Reset(y.broker), 1)
  {
    HeardMember(y);
    R.ResetKeeps(y.broker);
  }

  lemma ConnectShape(b: B.State, client: Client, id: Id)
    requires b.managed
    ensures var b' := B.HandleConnect(b, client, id);
            && b'.managed && b'.active == Some(B.Doc(client, b.generation + 1, {}, 0, map[id := Connect], [id]))
            && b'.posts == b.posts + [Response(client, id, Ok, Silent, None, NoReason)]
  {
  }

  lemma HeardPosted(y: System)
    requires y.heard < |y.shim.out| && y.shim.out[y.heard].Request?
    ensures Posted(y.shim.out[..y.heard + 1], y.shim.out[y.heard].id)
  {
    HeardMember(y);
    assert Carries(y.shim.out[y.heard], y.shim.out[y.heard].id);
  }

  lemma ConnectRemembers(y: System)
    requires y.heard < |y.shim.out| && y.shim.out[y.heard].Request? && y.shim.out[y.heard].op == Connect
    requires y.shim.out[y.heard].client == y.shim.clientId
    ensures Remembered(y.shim.out[..y.heard + 1], y.shim.clientId, map[y.shim.out[y.heard].id := Connect])
  {
    HeardMember(y);
    assert Carries(y.shim.out[y.heard], y.shim.out[y.heard].id);
  }

  // One answer, to the message just heard.
  lemma OneAnswer(y: System, b': B.State, r: Response)
    requires Inv(y) && y.heard < |y.shim.out| && V.Valid(b') && b'.posts == y.broker.posts + [r]
    requires var m := y.shim.out[y.heard];
             m.Request? && r.client == m.client && r.id == m.id && r.reason != TooManyPending
    requires WaitingAt(b', y.shim.clientId) <= W.Through(y.shim.clientId, WaitingAt(y.broker, y.shim.clientId),
                                                         y.shim.out[y.heard])
    requires r.client == y.shim.clientId ==> WaitingAt(b', y.shim.clientId) == {}
    requires b'.active.Some? ==> b'.managed && b'.active.value.client < y.shim.next
    requires b'.active.Some? && b'.active.value.client == y.shim.clientId
             ==> Remembered(y.shim.out[..y.heard + 1], y.shim.clientId, b'.active.value.requests)
    ensures Responds(y, b', 1)
  {
    HeardMember(y);
    HeardPosted(y);
    OneFlow(y.shim.clientId, WaitingAt(y.broker, y.shim.clientId), y.shim.out[y.heard]);
  }

  lemma ConnectResponds(y: System)
    requires Inv(y) && y.heard < |y.shim.out| && y.broker.managed
    requires y.shim.out[y.heard].Request? && y.shim.out[y.heard].op == Connect
    ensures Responds(y, B.HandleConnect(y.broker, y.shim.out[y.heard].client, y.shim.out[y.heard].id), 1)
  {
    var m := y.shim.out[y.heard];
    var b' := B.HandleConnect(y.broker, m.client, m.id);
    HeardMember(y);
    R.ConnectKeeps(y.broker, m.client, m.id);
    ConnectShape(y.broker, m.client, m.id);
    if m.client == y.shim.clientId { ConnectRemembers(y); }
    OneAnswer(y, b', Response(m.client, m.id, Ok, Silent, None, NoReason));
  }

  function Refused(b: B.State, client: Client, id: Id): B.State {
    b.(posts := b.posts + [Response(client, id, Failed, Silent, None, UnknownDocument)])
  }

  lemma RefusedKeeps(b: B.State, client: Client, id: Id)
    requires V.Valid(b)
    ensures V.Valid(Refused(b, client, id)) && V.Exposed(Refused(b, client, id)) == V.Exposed(b)
  {
    var b' := Refused(b, client, id);
    assert b' == b.(posts := b'.posts, runs := b.runs);
    V.LogKeeps(b, b'.posts, b.runs);
  }

  // A message of a page that is not connected.
  lemma UnknownResponds(y: System)
    requires Inv(y) && y.heard < |y.shim.out| && y.broker.managed
    requires var m := y.shim.out[y.heard]; m.Request? && !R.Accepts(y.broker, m.client)
    ensures Responds(y, Refused(y.broker, y.shim.out[y.heard].client, y.shim.out[y.heard].id), 1)
  {
    var m := y.shim.out[y.heard];
    RefusedKeeps(y.broker, m.client, m.id);
    if y.broker.active.Some? && y.broker.active.value.client == y.shim.clientId {
      RememberedLonger(y, y.broker.active.value.requests);
    }
    OneAnswer(y, Refused(y.broker, m.client, m.id), Response(m.client, m.id, Failed, Silent, None, UnknownDocument));
  }

  // The id of a message on its way is not one that the parent remembers for this page.
  lemma NotRemembered(y: System)
    requires Inv(y) && y.heard < |y.shim.out| && y.shim.out[y.heard].Request?
    requires y.broker.active.Some? && y.broker.active.value.client == y.shim.clientId
    ensures y.shim.out[y.heard].id !in y.broker.active.value.requests
  {
    hide V.Core, I.Consistent;
    NotPostedBefore(y.shim.out, y.heard);
  }

  // A cancellation names a request of its own kind, if the parent remembers it at all.
  lemma NamesRightKind(y: System)
    requires Inv(y) && y.heard < |y.shim.out|
    requires var m := y.shim.out[y.heard]; m.Request? && IsCancel(m.op)
    requires y.broker.active.Some? && y.broker.active.value.client == y.shim.clientId
    ensures A.RightKind(y.broker.active.value, y.shim.out[y.heard].op, y.shim.out[y.heard].target)
  {
    hide V.Valid, I.Valid, W.Covers, Bounded, AnswersOk, Coming, WaitingAt;
    var m := y.shim.out[y.heard];
    var doc := y.broker.active.value;
    if m.target in doc.requests {
      var n :| n in y.shim.out[..y.heard] && Carries(n, m.target) && n.client == y.shim.clientId
        && n.op == doc.requests[m.target];
      assert n in y.shim.out && m in y.shim.out;
    }
  }

  lemma OneMoreFits(y: System)
    requires Inv(y) && y.heard < |y.shim.out|
    ensures |W.Through(y.shim.clientId, WaitingAt(y.broker, y.shim.clientId), y.shim.out[y.heard])| <= S.MAX_CONSENT
  {
    var coming := y.shim.out[y.heard..];
    assert coming[0] == y.shim.out[y.heard];
    BoundedTail(y.shim.clientId, WaitingAt(y.broker, y.shim.clientId), coming);
  }

  lemma HeardRemembers(y: System, b': B.State)
    requires Inv(y) && y.heard < |y.shim.out| && y.shim.out[y.heard].Request?
    requires y.shim.out[y.heard].client == y.shim.clientId
    requires y.broker.active.Some? && y.broker.active.value.client == y.shim.clientId
    requires A.Heard(y.broker, b', y.shim.out[y.heard].id, y.shim.out[y.heard].op)
    ensures Remembered(y.shim.out[..y.heard + 1], y.shim.clientId, b'.active.value.requests)
  {
    var m := y.shim.out[y.heard];
    var requests := b'.active.value.requests;
    HeardMember(y);
    RememberedLonger(y, y.broker.active.value.requests);
    forall x | x in requests
      ensures exists n :: n in y.shim.out[..y.heard + 1] && Carries(n, x) && n.client == y.shim.clientId
                && n.op == requests[x]
    {
      if x == m.id { assert m in y.shim.out[..y.heard + 1] && Carries(m, x); }
    }
  }

  lemma HeardAnswers(y: System, b': B.State, i: nat)
    requires Inv(y) && y.heard < |y.shim.out| && y.shim.out[y.heard].Request?
    requires y.broker.active.Some? && y.broker.active.value.client == y.shim.clientId
    requires A.Heard(y.broker, b', y.shim.out[y.heard].id, y.shim.out[y.heard].op) && |y.broker.posts| <= i < |b'.posts|
    ensures b'.posts[i].client < y.shim.next
    ensures Fair(y.shim.out[..y.heard + 1], b'.posts[i]) && b'.posts[i].id !in WaitingAt(b', y.shim.clientId)
  {
    hide V.Valid, I.Valid, W.WireOk;
    var m := y.shim.out[y.heard];
    assert V.Telling(b'.posts[i], V.Exposed(b'), y.broker.active.value.client,
                     y.broker.active.value.requests.Keys + {m.id});
    HeardPosted(y);
    var x := b'.posts[i].id;
    if x in y.broker.active.value.requests {
      var n :| n in y.shim.out[..y.heard] && Carries(n, x) && n.client == y.shim.clientId
        && n.op == y.broker.active.value.requests[x];
      assert Posted(y.shim.out[..y.heard], x);
      LongerLog(y.shim.out, y.heard, y.heard + 1, x);
    }
  }

  lemma HeardResponds(y: System, b': B.State)
    requires Inv(y) && y.heard < |y.shim.out| && y.shim.out[y.heard].Request?
    requires y.shim.out[y.heard].client == y.shim.clientId
    requires y.broker.active.Some? && y.broker.active.value.client == y.shim.clientId && V.Valid(b')
    requires A.Heard(y.broker, b', y.shim.out[y.heard].id, y.shim.out[y.heard].op)
    requires V.Exposed(b') <= W.Through(y.shim.clientId, V.Exposed(y.broker), y.shim.out[y.heard])
    ensures Responds(y, b', 1)
  {
    HeardMember(y);
    HeardRemembers(y, b');
    OneFlow(y.shim.clientId, WaitingAt(y.broker, y.shim.clientId), y.shim.out[y.heard]);
    forall i | |y.broker.posts| <= i < |b'.posts|
      ensures b'.posts[i].client < y.shim.next
      ensures Fair(y.shim.out[..y.heard + 1], b'.posts[i]) && b'.posts[i].id !in WaitingAt(b', y.shim.clientId)
    {
      HeardAnswers(y, b', i);
    }
  }

  lemma OwnResponds(y: System, env: B.Env)
    requires Inv(y) && y.heard < |y.shim.out| && y.broker.managed && HasMemory(y, Listen(env))
    requires var m := y.shim.out[y.heard];
             m.Request? && m.op != Connect && m.client == y.shim.clientId && R.Accepts(y.broker, m.client)
    ensures Responds(y, B.HandleMessage(y.broker, y.shim.out[y.heard], env), 1)
  {
    hide V.Core, I.Consistent;
    var m := y.shim.out[y.heard];
    R.MessageKeeps(y.broker, m, env);
    NotRemembered(y);
    if IsCancel(m.op) {
      NamesRightKind(y);
      A.HearsCancel(y.broker, m.client, m.id, m.op, m.target, env);
    } else {
      R.RequestKinds(m.op);
      OneMoreFits(y);
      A.HearsConsent(y.broker, m.client, m.id, m.op, m.target, env);
    }
    HeardResponds(y, B.HandleMessage(y.broker, m, env));
  }

  // A late message of a page that is gone but still connected.
  lemma LateResponds(y: System, env: B.Env)
    requires Inv(y) && y.heard < |y.shim.out| && y.broker.managed
    requires var m := y.shim.out[y.heard];
             m.Request? && m.op != Connect && m.client != y.shim.clientId && R.Accepts(y.broker, m.client)
    ensures Responds(y, B.HandleMessage(y.broker, y.shim.out[y.heard], env), 1)
  {
    var m := y.shim.out[y.heard];
    R.MessageKeeps(y.broker, m, env);
    A.RequestStays(y.broker, m.client, m.id, m.op, m.target, env);
    HeardMember(y);
    OneFlow(y.shim.clientId, WaitingAt(y.broker, y.shim.clientId), m);
  }

  lemma DisconnectShape(b: B.State, client: Client, env: B.Env)
    requires b.managed && (b.active.Some? ==> b.active.value.generation == b.generation)
    ensures B.HandleMessage(b, Protocol.Disconnect(client), env)
         == if b.active.Some? && b.active.value.client == client then B.Reset(b) else b
  {
  }

  lemma ListenResponds(y: System, env: B.Env)
    requires Inv(y) && y.heard < |y.shim.out| && HasMemory(y, Listen(env))
    ensures Responds(y, B.HandleMessage(y.broker, y.shim.out[y.heard], env), 1)
  {
    var m := y.shim.out[y.heard];
    HeardMember(y);
    if !y.broker.managed {
      IgnoredResponds(y);
    } else if m.Disconnect? {
      DisconnectShape(y.broker, m.client, env);
      if y.broker.active.Some? && y.broker.active.value.client == m.client {
        ResetResponds(y);
      } else {
        IgnoredResponds(y);
      }
    } else if m.op == Connect {
      ConnectResponds(y);
    } else if !R.Accepts(y.broker, m.client) {
      UnknownResponds(y);
    } else if m.client == y.shim.clientId {
      OwnResponds(y, env);
    } else {
      LateResponds(y, env);
    }
  }

  lemma ListenKeeps(y: System, env: B.Env)
    requires Inv(y) && Enabled(y, Listen(env)) && HasMemory(y, Listen(env))
    ensures Inv(Next(y, Listen(env)))
  {
    hide Inv, B.HandleMessage;
    ListenResponds(y, env);
    RespondsKeeps(y, B.HandleMessage(y.broker, y.shim.out[y.heard], env), 1);
  }

  /********** Cancellations **********/

  ghost predicate CloseHeard(log: seq<Message>, client: Client, x: Id) { exists m :: m in log && Closes(m, client, x) }

  lemma TwiceStays(log: seq<Message>, more: seq<Message>, client: Client, x: Id)
    requires log <= more && Twice(log, client, x)
    ensures Twice(more, client, x)
  {
    var i, j :| 0 <= i < j < |log| && Closes(log[i], client, x) && Closes(log[j], client, x);
    assert Closes(more[i], client, x) && Closes(more[j], client, x);
  }

  lemma TwiceIsAgain(log: seq<Message>, client: Client, x: Id)
    ensures x in Again(log, client) <==> Twice(log, client, x)
  {
    if Twice(log, client, x) {
      var i, j :| 0 <= i < j < |log| && Closes(log[i], client, x) && Closes(log[j], client, x);
      assert log[i] in log;
    }
  }

  lemma AgainGrows(log: seq<Message>, more: seq<Message>, client: Client)
    requires log <= more
    ensures Again(log, client) <= Again(more, client)
  {
    hide Again, Twice;
    forall x | x in Again(log, client) ensures x in Again(more, client) {
      TwiceIsAgain(log, client, x);
      TwiceStays(log, more, client, x);
      TwiceIsAgain(more, client, x);
    }
  }

  lemma SecondClose(log: seq<Message>, m: Message, client: Client, x: Id)
    requires CloseHeard(log, client, x) && Closes(m, client, x)
    ensures Twice(log + [m], client, x)
  {
    var n :| n in log && Closes(n, client, x);
    var i :| 0 <= i < |log| && log[i] == n;
    var more := log + [m];
    assert Closes(more[i], client, x) && Closes(more[|log|], client, x);
  }

  // The document knows x as a notification.
  predicate IsShow(b: B.State, x: Id) {
    b.active.Some? && x in b.active.value.requests && b.active.value.requests[x] == NotificationShow
  }

  // A cancelled or withdrawn notification was closed by a message, and by two if it is cancelled while it is withdrawn.
  ghost predicate MarksOk(b: B.State, log: seq<Message>) {
    b.active.Some? ==>
      var client := b.active.value.client;
      && (forall x :: x in b.cancelled && IsShow(b, x) ==> CloseHeard(log, client, x))
      && (forall k :: V.Current(b.batches, b.generation, k) && F.Withdrawn(b.batches[k].work)
            ==> && CloseHeard(log, client, b.batches[k].work.id)
                && (b.batches[k].work.id in b.cancelled ==> Twice(log, client, b.batches[k].work.id)))
  }

  // The notifications that the connected document closed twice.
  ghost function LeftBy(b: B.State, log: seq<Message>): set<Id> {
    if b.active.Some? then Again(log, b.active.value.client) else {}
  }

  // Cancellations belong to running work, or to notifications that were closed twice.
  ghost predicate Orderly(y: System)
    requires y.heard <= |y.shim.out|
  {
    var log := y.shim.out[..y.heard];
    C.Tidy(y.broker, LeftBy(y.broker, log)) && FewAgain(y.shim.out) && MarksOk(y.broker, log)
  }

  // While few notifications are closed twice, the parent has room for the next message.
  lemma OrderlyHasMemory(y: System, a: Action)
    requires Inv(y) && Orderly(y)
    ensures HasMemory(y, a)
  {
    hide V.Core, R.Pruned, Bounded, AnswersOk, Again;
    if y.broker.active.Some? {
      var client := y.broker.active.value.client;
      var left := Again(y.shim.out[..y.heard], client);
      AgainGrows(y.shim.out[..y.heard], y.shim.out, client);
      V.SetMono(left, Again(y.shim.out, client));
      T.RoomBeside(y.broker, left);
    }
  }

  // A show of the document is a request to show.
  lemma ShowsAreShows(b: B.State, k: nat)
    requires V.Core(b) && V.Current(b.batches, b.generation, k) && b.batches[k].work.Showing?
    ensures b.active.Some? && b.batches[k].work.id in b.active.value.requests
    ensures b.active.value.generation == b.generation
    ensures b.active.value.requests[b.batches[k].work.id] == NotificationShow
  {
    assert V.WorkOk(b.active, b.batches[k].work);
  }

  lemma CancelledAreKnown(b: B.State, x: Id)
    requires V.Core(b) && x in b.cancelled
    ensures b.active.Some? && x in b.active.value.requests
  {
  }

  // Work of a replaced document does not come back.
  lemma ReplacedMarks(b: B.State, b': B.State, log: seq<Message>)
    requires V.Core(b) && F.Replaces(b, b')
    ensures MarksOk(b', log)
  {
  }

  lemma MildMarks(b: B.State, b': B.State, log: seq<Message>)
    requires F.Mild(b, b') && MarksOk(b, log)
    ensures MarksOk(b', log)
  {
    hide CloseHeard, Twice;
    forall k | V.Current(b'.batches, b'.generation, k) && F.Withdrawn(b'.batches[k].work)
      ensures V.Current(b.batches, b.generation, k) && b'.batches[k] == b.batches[k]
    {
    }
  }

  lemma ResumesMarks(b: B.State, b': B.State, k: nat, log: seq<Message>)
    requires V.Core(b) && (b.active.Some? ==> b.managed) && k in b.batches && b.batches[k].work.Showing?
    requires F.Resumes(b, b', k) && MarksOk(b, log) && b.active.Some?
    ensures MarksOk(b', log)
  {
    hide V.Core, CloseHeard, Twice;
    var client := b.active.value.client;
    forall j | V.Current(b'.batches, b'.generation, j) && F.Withdrawn(b'.batches[j].work)
      ensures && CloseHeard(log, client, b'.batches[j].work.id)
              && (b'.batches[j].work.id in b'.cancelled ==> Twice(log, client, b'.batches[j].work.id))
    {
      if j == k && !F.Withdrawn(b.batches[k].work) {
        assert V.Current(b.batches, b.generation, k);
        ShowsAreShows(b, k);
      } else {
        assert V.Current(b.batches, b.generation, j);
      }
    }
  }

  // The parent ends a withdrawal with another close pending only for a notification that was closed twice.
  lemma ClosedTwiceIsLeft(b: B.State, step: B.Action, env: B.Env, log: seq<Message>)
    requires V.Core(b) && MarksOk(b, log) && B.Enabled(b, step) && C.ClosedTwice(b, step, env)
    ensures b.batches[step.batch].work.id in LeftBy(b, log)
  {
    hide V.Core, CloseHeard, Twice, Again;
    V.ActiveIsCurrent(b);
    assert V.Current(b.batches, b.generation, step.batch);
    TwiceIsAgain(log, b.active.value.client, b.batches[step.batch].work.id);
  }

  // What a step of the parent leaves behind was closed twice.
  lemma ParentTidy(b: B.State, step: B.Action, env: B.Env, log: seq<Message>)
    requires V.Valid(b) && MarksOk(b, log) && B.Enabled(b, step) && C.Tidy(b, LeftBy(b, log))
    ensures C.Tidy(B.Next(b, step, env), LeftBy(b, log))
  {
    hide V.Core, B.Next, MarksOk, LeftBy, C.Tidy;
    var left := LeftBy(b, log);
    C.StepTidy(left, b, step, env);
    if C.ClosedTwice(b, step, env) {
      ClosedTwiceIsLeft(b, step, env, log);
      assert left + {b.batches[step.batch].work.id} == left;
    }
  }

  lemma MoreTidy(b: B.State, left: set<Id>, more: set<Id>)
    requires C.Tidy(b, left) && (left <= more || b.cancelled == {})
    ensures C.Tidy(b, more)
  {
  }

  // The same document, or another one that has cancelled nothing, after more messages.
  lemma NextTidy(b: B.State, b': B.State, log: seq<Message>, more: seq<Message>)
    requires C.Tidy(b', LeftBy(b, log)) && log <= more
    requires || b'.cancelled == {}
             || (b.active.Some? && b'.active.Some? && b'.active.value.client == b.active.value.client)
    ensures C.Tidy(b', LeftBy(b', more))
  {
    hide C.Tidy, Again;
    if b.active.Some? { AgainGrows(log, more, b.active.value.client); }
    MoreTidy(b', LeftBy(b, log), LeftBy(b', more));
  }

  lemma NoneCancelled(b: B.State)
    requires V.Core(b) && b.active.None?
    ensures b.cancelled == {}
  {
  }

  lemma ParentOrderly(y: System, step: B.Action, env: B.Env)
    requires Inv(y) && Orderly(y) && Enabled(y, Parent(step, env))
    ensures Orderly(Next(y, Parent(step, env)))
  {
    hide V.Core, C.Tidy, B.Next, MarksOk, Bounded, AnswersOk, W.Covers, W.WireOk, I.Valid, LeftBy, FewAgain;
    var b, b', log := y.broker, B.Next(y.broker, step, env), y.shim.out[..y.heard];
    ParentTidy(b, step, env, log);
    ParentMarks(b, step, env, log);
    NextTidy(b, b', log, log);
  }

  lemma ParentMarks(b: B.State, step: B.Action, env: B.Env, log: seq<Message>)
    requires V.Core(b) && (b.active.Some? ==> b.managed) && MarksOk(b, log) && B.Enabled(b, step) && !step.Receive?
    ensures var b' := B.Next(b, step, env);
            && MarksOk(b', log)
            && (|| b'.cancelled == {}
                || (b.active.Some? && b'.active.Some? && b'.active.value.client == b.active.value.client))
  {
    hide V.Core, B.Next, MarksOk;
    var b' := B.Next(b, step, env);
    if b.active.None? { NoneCancelled(b); }
    if step.ShowResumes? {
      ShowResumesMarks(b, step.batch, env, log);
    } else {
      F.StepFrames(b, step, env);
      if F.Mild(b, b') { MildMarks(b, b', log); } else { ReplacedMarks(b, b', log); }
    }
  }

  lemma ShowResumesMarks(b: B.State, k: nat, env: B.Env, log: seq<Message>)
    requires V.Core(b) && (b.active.Some? ==> b.managed) && k in b.batches && b.batches[k].work.Showing?
    requires MarksOk(b, log)
    ensures var b' := B.Next(b, B.ShowResumes(k), env);
            MarksOk(b', log) && F.SameRequests(b, b') && b'.cancelled <= b.cancelled
  {
    hide V.Core, B.ResumeShow, MarksOk;
    F.ShowResumesMarks(b, k, env);
    var b' := B.ResumeShow(b, k, env);
    if b.active.Some? { ResumesMarks(b, b', k, log); } else { NoMarks(b', log); }
  }

  lemma NoMarks(b: B.State, log: seq<Message>)
    requires b.active.None?
    ensures MarksOk(b, log)
  {
  }

  lemma LongerMarks(log: seq<Message>, m: Message, client: Client, x: Id)
    requires CloseHeard(log, client, x)
    ensures CloseHeard(log + [m], client, x)
  {
    var n :| n in log && Closes(n, client, x);
    assert n in log + [m];
  }

  // Hearing one more message.
  lemma HearsMarks(b: B.State, b': B.State, m: Message, log: seq<Message>)
    requires V.Core(b) && F.Hears(b, b', m) && MarksOk(b, log)
    ensures MarksOk(b', log + [m])
    ensures || b'.cancelled == {}
            || (b.active.Some? && b'.active.Some? && b'.active.value.client == b.active.value.client)
  {
    hide V.Core, MarksOk;
    if F.Replaces(b, b') {
      ReplacedMarks(b, b', log + [m]);
    } else if b.active.None? {
      NoneCancelled(b);
      NoMarks(b', log + [m]);
    } else {
      KindsMarks(b, b', m, log);
    }
  }

  lemma KindsMarks(b: B.State, b': B.State, m: Message, log: seq<Message>)
    requires V.Core(b) && F.Hears(b, b', m) && F.SameKinds(b, b') && MarksOk(b, log) && b.active.Some?
    ensures MarksOk(b', log + [m])
  {
    hide V.Core, CloseHeard, Twice;
    var client, more := b.active.value.client, log + [m];
    forall x ensures (CloseHeard(log, client, x) ==> CloseHeard(more, client, x))
                     && (Closes(m, client, x) ==> CloseHeard(more, client, x)) {
      if CloseHeard(log, client, x) { LongerMarks(log, m, client, x); }
      if Closes(m, client, x) { LastHeard(log, m, client, x); }
    }
    forall x | x in b.cancelled ensures b.active.Some? && x in b.active.value.requests { CancelledAreKnown(b, x); }
    forall k | V.Current(b'.batches, b'.generation, k) && F.Withdrawn(b'.batches[k].work)
      ensures && CloseHeard(more, client, b'.batches[k].work.id)
              && (b'.batches[k].work.id in b'.cancelled ==> Twice(more, client, b'.batches[k].work.id))
    {
      var id := b'.batches[k].work.id;
      assert V.Current(b.batches, b.generation, k);
      ShowsAreShows(b, k);
      if id in b.cancelled { TwiceStays(log, more, client, id); }
      else if id in b'.cancelled { SecondClose(log, m, client, id); }
    }
  }

  lemma LastHeard(log: seq<Message>, m: Message, client: Client, x: Id)
    requires Closes(m, client, x)
    ensures CloseHeard(log + [m], client, x)
  {
    assert m in log + [m];
  }

  lemma ListenOrderly(y: System, env: B.Env)
    requires Inv(y) && Orderly(y) && Enabled(y, Listen(env))
    ensures Orderly(Next(y, Listen(env)))
  {
    hide V.Core, C.Tidy, B.HandleMessage, F.Hears, MarksOk, FewAgain, LeftBy, Bounded, AnswersOk, W.Covers, W.WireOk,
         I.Valid;
    var m, log := y.shim.out[y.heard], y.shim.out[..y.heard];
    var b, b' := y.broker, B.HandleMessage(y.broker, m, env);
    ParentTidy(b, B.Receive(m), env, log);
    F.MessageHears(b, m, env);
    HearsMarks(b, b', m, log);
    NextTidy(b, b', log, log + [m]);
    assert y.shim.out[..y.heard + 1] == log + [m];
  }

  lemma ReframeOrderly(y: System, managed: bool)
    requires Inv(y) && Orderly(y)
    ensures Orderly(Next(y, Reframe(managed)))
  {
    hide V.Core, MarksOk, C.Tidy, I.Consistent, LeftBy, FewAgain;
    var b, b', log := y.broker, B.Revoke(y.broker).(managed := managed), y.shim.out[..y.heard];
    C.LoadTidy(LeftBy(b, log), b);
    C.SameTidy(LeftBy(b, log), B.Revoke(b), b');
    ReplacedMarks(b, b', log);
    NextTidy(b, b', log, log);
  }

  // The page's own steps.
  lemma PageOrderly(y: System, y': System)
    requires y.heard <= |y.shim.out| && Orderly(y) && y' == y.(shim := y'.shim, delivered := y'.delivered)
    requires y.shim.out <= y'.shim.out && FewAgain(y'.shim.out)
    ensures Orderly(y')
  {
    assert y'.shim.out[..y.heard] == y.shim.out[..y.heard];
  }

  /********** Runs **********/

  // A step at which the page closes in time, and closes few notifications twice.
  ghost predicate Allowed(y: System, a: Action) { Enabled(y, a) && ClosesInTime(y, a) && ClosesFewAgain(y, a) }

  lemma LongerOut(y: System, a: Action)
    requires Inv(y) && Enabled(y, a) && ClosesInTime(y, a) && (a.Act? || a.Deliver? || a.Reload?)
    ensures y.shim.out <= Next(y, a).shim.out
  {
    hide V.Core, I.Consistent, W.LogOk;
    match a
    case Act(page) =>
      if page.Shows? && y.shim.hidden { W.ShowsRenews(y.shim); } else { W.NextCarries(y.shim, page, Coming(y)); }
    case Deliver(detail) => W.NextCarries(y.shim, S.Hears(y.broker.posts[y.delivered], detail), Coming(y));
    case Reload => W.BootRenews(y.shim);
  }

  lemma NextKeeps(y: System, a: Action)
    requires Inv(y) && Orderly(y) && Allowed(y, a)
    ensures Inv(Next(y, a)) && Orderly(Next(y, a))
  {
    hide Inv, V.Core, I.Consistent, W.LogOk, Orderly;
    OrderlyHasMemory(y, a);
    StepKeeps(y, a);
    StepOrderly(y, a);
  }

  lemma StepOrderly(y: System, a: Action)
    requires Inv(y) && Orderly(y) && Allowed(y, a)
    ensures Inv(Next(y, a)) ==> Orderly(Next(y, a))
  {
    hide V.Core, I.Consistent, W.LogOk;
    match a
    case Listen(env) => ListenOrderly(y, env);
    case Parent(step, env) => ParentOrderly(y, step, env);
    case Reframe(managed) => ReframeOrderly(y, managed);
    case _ =>
      LongerOut(y, a);
      PageOrderly(y, Next(y, a));
  }

  lemma StepKeeps(y: System, a: Action)
    requires Inv(y) && Enabled(y, a) && ClosesInTime(y, a) && HasMemory(y, a)
    ensures Inv(Next(y, a))
  {
    hide V.Core, I.Consistent, W.LogOk;
    match a
    case Act(page) =>
      if page.Shows? && y.shim.hidden {
        W.ShowsRenews(y.shim);
        RenewedKeeps(y, Next(y, a));
      } else {
        ActKeeps(y, page);
      }
    case Deliver(detail) => DeliverKeeps(y, detail);
    case Listen(env) => ListenKeeps(y, env);
    case Parent(step, env) => ParentKeeps(y, step, env);
    case Reframe(managed) => ReframeKeeps(y, managed);
    case Reload =>
      W.BootRenews(y.shim);
      RenewedKeeps(y, Next(y, a));
  }

  ghost predicate Run(y: System, actions: seq<Action>, y': System)
    decreases |actions|
  {
    if actions == [] then y' == y else Allowed(y, actions[0]) && Run(Next(y, actions[0]), actions[1..], y')
  }

  lemma {:induction false} RunKeeps(y: System, actions: seq<Action>, y': System)
    requires Inv(y) && Orderly(y) && Run(y, actions, y')
    ensures Inv(y') && Orderly(y')
    decreases |actions|
  {
    hide Inv, Orderly;
    if actions != [] {
      NextKeeps(y, actions[0]);
      RunKeeps(Next(y, actions[0]), actions[1..], y');
    }
  }

  // A first message that opens a connection asks for nothing.
  lemma FirstFlow(client: Client, m: Message)
    requires !(m.Request? && CapabilityOf(m.op).Some?)
    ensures W.Flow(client, {}, [m]) == {} && Bounded(client, {}, [m])
  {
    OneFlow(client, {}, m);
    assert [m][..0] == [] && [m][..1] == [m];
  }

  lemma InitialKeeps()
    ensures Inv(INITIAL)
  {
    hide V.Core, I.Consistent, W.Flow, Bounded;
    assert I.Held(S.BLANK) == [];
    W.BootRenews(S.BLANK);
    V.InitialIsValid();
    assert INITIAL.shim.out[0..] == INITIAL.shim.out == [INITIAL.shim.out[0]];
    FirstFlow(INITIAL.shim.clientId, INITIAL.shim.out[0]);
  }

  lemma InitialOrderly()
    ensures Orderly(INITIAL)
  {
    forall client ensures Again(INITIAL.shim.out, client) == {} {}
  }

  /**
   In every run, the page in the frame is never told that too many permission requests are pending. The
   broker's own queue limit is out of reach: whatever is queued, or waits in an open native prompt, is still
   counted by the page or is about to be cancelled by a message already on its way.
   */
  lemma QueueLimitIsUnreachable(actions: seq<Action>, y: System)
    requires Run(INITIAL, actions, y)
    ensures forall i :: 0 <= i < |y.broker.posts| && y.broker.posts[i].client == y.shim.clientId ==>
              y.broker.posts[i].reason != TooManyPending
    ensures y.heard <= |y.shim.out| && Coming(y) <= I.Waits(I.Held(y.shim))
    ensures |I.Waits(I.Held(y.shim))| <= S.MAX_CONSENT
  {
    InitialKeeps();
    InitialOrderly();
    RunKeeps(INITIAL, actions, y);
    I.WaitsSize(I.Held(y.shim));
    forall i | 0 <= i < |y.broker.posts| && y.broker.posts[i].client == y.shim.clientId
      ensures y.broker.posts[i].reason != TooManyPending
    {
      assert Fair(y.shim.out[..y.heard], y.broker.posts[i]);
    }
  }

  /**
   Why the page must close in time: with a full table, closing a notification that may still wait in the
   parent stops counting it and posts nothing.
   */
  lemma LateCloseForgets(s: S.State, id: Id)
    requires I.Valid(s) && s.frame == S.Idle && |s.pending| == S.MAX_OPERATIONS
    requires id in s.built && id !in s.closed && id in I.Waits(s.pending)
    ensures var s' := S.Next(s, S.Call(S.CloseNotification(id)));
            s'.out == s.out && id !in I.Waits(I.Held(s'))
  {
    hide I.Accounted, I.NamesOk, I.EntryOk;
    assert !s.disconnected;
    I.RemoveOneShots(s.pending, id);
  }
}
