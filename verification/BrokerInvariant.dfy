/**
 What every step of the broker keeps, for an arbitrary preview: the object invariant and how it survives
 the small updates that the steps are made of.
 */
module BrokerInvariant {
  import opened Wrappers
  import opened Protocol
  import opened BrokerSpec

  /********** The invariant **********/

  ghost predicate DistinctIds(items: seq<Queued>) {
    forall i, j :: 0 <= i < j < |items| ==> items[i].id != items[j].id
  }

  ghost predicate DocOk(doc: Doc) {
    && Size(doc.requests) <= MAX_REMEMBERED
    && (forall x :: x in doc.requests <==> x in doc.order)
    && (forall i, j :: 0 <= i < j < |doc.order| ==> doc.order[i] != doc.order[j])
    && (forall x, y ::
          (x in doc.requests && y in doc.requests && doc.requests[x] == Connect && doc.requests[y] == Connect)
          ==> x == y)
  }

  // Consent work remembered by this document.
  predicate Known(doc: Doc, q: Queued) {
    q.doc == doc.generation && CapabilityOf(q.op) == Some(q.cap) && q.id in doc.requests && doc.requests[q.id] == q.op
  }

  // Everything that owns an id is remembered, so that no owning id can be reused.
  ghost predicate TablesOk(active: Option<Doc>, g: nat, queue: seq<Queued>, watches: map<Id, Watch>,
                           notices: map<Id, Notice>, inFlight: set<Id>, cancelled: set<Id>) {
    match active
    case None =>
      queue == [] && watches == map[] && notices == map[] && inFlight == {} && cancelled == {}
    case Some(doc) =>
      && doc.generation == g
      && DocOk(doc)
      && (forall i :: 0 <= i < |queue| ==> Known(doc, queue[i]))
      && inFlight <= doc.requests.Keys
      && cancelled <= doc.requests.Keys
      && (forall x :: x in watches ==> x in doc.requests && doc.requests[x] == LocationWatch && watches[x].doc == g)
      && (forall x :: x in notices ==> x in doc.requests && doc.requests[x] == NotificationShow && notices[x].doc == g)
  }

  // A queued request owns nothing else.
  ghost predicate QueueOk(queue: seq<Queued>, owners: set<Id>) {
    DistinctIds(queue) && Ids(queue) !! owners
  }

  function WorkIds(w: Work): set<Id> {
    match w
    case Locating(id) => {id}
    case Clipping(id, cap, mode, token) => {id}
    case Consenting(mode, current, items, revision, token) => Ids(items)
    case Showing(id, phase, registered) => {id}
    case Elsewhere => {}
  }

  // Unsettled work of the document with generation g.
  predicate Current(batches: map<nat, Batch>, g: nat, k: nat) {
    k in batches && batches[k].doc == g && !batches[k].work.Elsewhere?
  }

  // Unsettled work k of the current document was begun for request x.
  predicate Holds(batches: map<nat, Batch>, g: nat, k: nat, x: Id) {
    Current(batches, g, k) && x in WorkIds(batches[k].work)
  }

  // Requests inside an open native permission prompt.
  function ConsentIds(batches: map<nat, Batch>, g: nat): set<Id> {
    set k, x | k in batches && batches[k].work.Consenting? && x in Ids(batches[k].work.items)
      && Holds(batches, g, k, x) :: x
  }

  predicate Asks(batches: map<nat, Batch>, g: nat, k: nat, x: Id) {
    Holds(batches, g, k, x) && batches[k].work.Consenting?
  }

  lemma ConsentMember(batches: map<nat, Batch>, g: nat, x: Id)
    ensures x in ConsentIds(batches, g) <==> exists k :: Asks(batches, g, k, x)
  {
    if k :| Asks(batches, g, k, x) {
      assert k in batches && batches[k].work.Consenting? && x in Ids(batches[k].work.items) && Holds(batches, g, k, x);
    }
    if x in ConsentIds(batches, g) {
      var k :| k in batches && batches[k].work.Consenting? && x in Ids(batches[k].work.items)
        && Holds(batches, g, k, x);
      assert Asks(batches, g, k, x);
    }
  }

  // Requests that unsettled work of the current document was begun for.
  function HeldIds(batches: map<nat, Batch>, g: nat): set<Id> {
    set k, x | k in batches && x in WorkIds(batches[k].work) && Holds(batches, g, k, x) :: x
  }

  lemma HeldMember(batches: map<nat, Batch>, g: nat, x: Id)
    ensures x in HeldIds(batches, g) <==> exists k :: Holds(batches, g, k, x)
  {
    if k :| Holds(batches, g, k, x) {
      assert k in batches && x in WorkIds(batches[k].work) && Holds(batches, g, k, x);
    }
    if x in HeldIds(batches, g) {
      var k :| k in batches && x in WorkIds(batches[k].work) && Holds(batches, g, k, x);
    }
  }

  ghost predicate WorkOk(active: Option<Doc>, w: Work) {
    match w
    case Consenting(mode, current, items, revision, token) =>
      && DistinctIds(items)
      && current in items
      && active.Some?
      && (forall i :: 0 <= i < |items| ==> Known(active.value, items[i]) && items[i].cap == Notifications)
    case Clipping(id, cap, mode, token) => IsClipboard(cap)
    case Showing(id, phase, registered) =>
      active.Some? && id in active.value.requests && active.value.requests[id] == NotificationShow
    case _ => true
  }

  ghost predicate BatchesOk(batches: map<nat, Batch>, g: nat, active: Option<Doc>, inFlight: set<Id>, notices: set<Id>,
                            next: nat) {
    && (forall k :: k in batches ==> k < next && (batches[k].work.Elsewhere? || batches[k].doc <= g))
    && (active.None? ==> forall k :: !Current(batches, g, k))
    && (forall k :: Current(batches, g, k) ==> WorkOk(active, batches[k].work))
    && (forall k, x :: Holds(batches, g, k, x) ==> x in inFlight)
    && (forall j, k, x :: Holds(batches, g, j, x) && Holds(batches, g, k, x) ==> j == k)
    && (forall k, x :: Asks(batches, g, k, x) ==> x !in notices)
  }

  predicate Owns(batches: map<nat, Batch>, k: nat, slot: nat) { k in batches && slot in batches[k].owners }

  // The pool is exactly the disjoint union of the slots of unsettled work.
  ghost predicate PoolOk(pool: set<nat>, batches: map<nat, Batch>, next: nat) {
    && (forall o :: o in pool ==> o < next)
    && (forall k, o :: Owns(batches, k, o) ==> o in pool)
    && (forall o :: o in pool ==> exists k :: Owns(batches, k, o))
    && (forall j, k, o :: Owns(batches, j, o) && Owns(batches, k, o) ==> j == k)
    && (forall k :: k in batches ==> batches[k].owners != {})
  }

  ghost predicate CountsOk(pool: set<nat>, inFlight: set<Id>, watches: set<Id>, notices: set<Id>) {
    && |pool| <= MAX_IN_FLIGHT
    && |inFlight| <= MAX_IN_FLIGHT
    && |watches| <= MAX_WATCHES
    && |notices| <= MAX_NOTIFICATIONS
  }

  // These ids list all queued requests and all requests in open prompts.
  predicate Lists(ids: seq<Id>, queue: seq<Queued>, consent: set<Id>) {
    && |ids| <= MAX_PENDING + MAX_IN_FLIGHT
    && (forall x :: x in Ids(queue) ==> x in ids)
    && (forall x :: x in consent ==> x in ids)
  }

  // Queued requests and requests in open prompts are few enough together.
  ghost predicate BacklogOk(queue: seq<Queued>, consent: set<Id>) {
    exists ids: seq<Id> :: Lists(ids, queue, consent)
  }

  lemma BacklogLess(queue: seq<Queued>, consent: set<Id>, queue': seq<Queued>, consent': set<Id>)
    requires BacklogOk(queue, consent)
    requires forall x :: x in Ids(queue') || x in consent' ==> x in Ids(queue) || x in consent
    ensures BacklogOk(queue', consent')
  {
    var ids: seq<Id> :| Lists(ids, queue, consent);
    assert Lists(ids, queue', consent');
  }

  // A set written out.
  lemma {:induction false} Listing<T>(a: set<T>) returns (q: seq<T>)
    ensures |q| == |a| && forall x :: x in a <==> x in q
    decreases |a|
  {
    q := [];
    if a != {} {
      var y :| y in a;
      var rest := Listing(a - {y});
      q := rest + [y];
    }
  }

  lemma {:induction false} ListedSize<T>(a: set<T>, q: seq<T>)
    requires forall x :: x in a ==> x in q
    ensures |a| <= |q|
    decreases |q|
  {
    if q == [] {
      assert a == {};
    } else {
      ListedSize(a - {q[0]}, q[1..]);
    }
  }

  lemma BacklogSize(queue: seq<Queued>, consent: set<Id>)
    ensures BacklogOk(queue, consent) <==> |Ids(queue) + consent| <= MAX_PENDING + MAX_IN_FLIGHT
  {
    if |Ids(queue) + consent| <= MAX_PENDING + MAX_IN_FLIGHT {
      var ids := Listing(Ids(queue) + consent);
      assert Lists(ids, queue, consent);
    }
    if ids: seq<Id> :| Lists(ids, queue, consent) { ListedSize(Ids(queue) + consent, ids); }
  }

  // Only a native notification denial leaves queued requests of a denied capability behind.
  ghost predicate DeniedOk(active: Option<Doc>, queue: seq<Queued>) {
    active.Some? ==> forall i :: 0 <= i < |queue| && queue[i].cap in active.value.denied ==>
      queue[i].cap == Notifications
  }

  ghost predicate Core(s: State) {
    && TablesOk(s.active, s.generation, s.queue, s.watches, s.notices, s.inFlight, s.cancelled)
    && QueueOk(s.queue, s.inFlight + s.cancelled + s.watches.Keys + s.notices.Keys)
    && BatchesOk(s.batches, s.generation, s.active, s.inFlight, s.notices.Keys, s.next)
    && PoolOk(s.pool, s.batches, s.next)
    && CountsOk(s.pool, s.inFlight, KeySet(s.watches), KeySet(s.notices))
    && BacklogOk(s.queue, ConsentIds(s.batches, s.generation))
    && DeniedOk(s.active, s.queue)
  }

  // The displayed prompt is the request that a click decides.
  ghost predicate PromptOk(s: State) {
    s.prompt == if s.queue == [] then None else Some(s.queue[0])
  }

  ghost predicate Valid(s: State) { Core(s) && PromptOk(s) }

  lemma InitialIsValid()
    ensures Valid(INITIAL)
  {
    assert Lists([], INITIAL.queue, ConsentIds(INITIAL.batches, INITIAL.generation));
    assert KeySet(INITIAL.watches) == {} && KeySet(INITIAL.notices) == {};
  }

  /********** What a step shows outside **********/

  // Requests that wait for a decision: queued, or in an open prompt and not cancelled.
  ghost function Exposed(s: State): set<Id> {
    Ids(s.queue) + (ConsentIds(s.batches, s.generation) - s.cancelled)
  }

  predicate Ordinary(r: Reason) { r != TooManyPending && r != TooManyActive }

  // New posts answer remembered requests, and nothing that waits in e.
  ghost predicate PostsOk(posts: seq<Response>, posts': seq<Response>, e: set<Id>, doc: Doc) {
    && posts <= posts'
    && (forall i :: |posts| <= i < |posts'| ==> Telling(posts'[i], e, doc.client, doc.requests.Keys))
  }

  ghost predicate Telling(r: Response, e: set<Id>, client: Client, known: set<Id>) {
    r.id !in e && r.id in known && Ordinary(r.reason) && r.client == client
  }

  // Native work begins only for capabilities that were not denied.
  ghost predicate RunsOk(runs: seq<Run>, runs': seq<Run>, g: nat, denied: set<Capability>) {
    && runs <= runs'
    && (forall i :: |runs| <= i < |runs'| ==> runs'[i].doc == g && runs'[i].cap !in denied)
  }

  ghost predicate SameDoc(s: State, s': State) {
    && s'.managed == s.managed && s'.generation == s.generation && s'.next >= s.next
    && s'.connects == s.connects && s'.handledConnects == s.handledConnects
    && s.active.Some? && s'.active.Some?
    && s'.active.value == s.active.value.(denied := s'.active.value.denied, revision := s'.active.value.revision)
    && s.active.value.denied <= s'.active.value.denied
  }

  // From s to s' within one document: requests waiting in e shrink to e', and nothing waiting is answered.
  ghost predicate Sound(e: set<Id>, s: State, e': set<Id>, s': State) {
    && e' <= e
    && SameDoc(s, s')
    && PostsOk(s.posts, s'.posts, e', s.active.value)
    && RunsOk(s.runs, s'.runs, s.generation, s.active.value.denied)
  }

  // `Sound` for a step that neither holds back nor hands over waiting requests.
  ghost predicate Steady(s: State, s': State) { Sound(Exposed(s), s, Exposed(s'), s') }

  lemma PostsTrans(p0: seq<Response>, p1: seq<Response>, p2: seq<Response>, e1: set<Id>, e2: set<Id>, doc: Doc,
                   doc': Doc)
    requires PostsOk(p0, p1, e1, doc) && PostsOk(p1, p2, e2, doc') && e2 <= e1
    requires doc'.client == doc.client && doc'.requests == doc.requests
    ensures PostsOk(p0, p2, e2, doc)
  {
    forall i | |p0| <= i < |p2| ensures Telling(p2[i], e2, doc.client, doc.requests.Keys) {
      if i < |p1| { assert p2[i] == p1[i] && Telling(p1[i], e1, doc.client, doc.requests.Keys); }
    }
  }

  lemma RunsTrans(r0: seq<Run>, r1: seq<Run>, r2: seq<Run>, g: nat, d0: set<Capability>, d1: set<Capability>)
    requires RunsOk(r0, r1, g, d0) && RunsOk(r1, r2, g, d1) && d0 <= d1
    ensures RunsOk(r0, r2, g, d0)
  {
    forall i | |r0| <= i < |r2| ensures r2[i].doc == g && r2[i].cap !in d0 {
      if i < |r1| { assert r2[i] == r1[i]; }
    }
  }

  lemma SoundTrans(e0: set<Id>, s0: State, e1: set<Id>, s1: State, e2: set<Id>, s2: State)
    requires Sound(e0, s0, e1, s1) && Sound(e1, s1, e2, s2)
    ensures Sound(e0, s0, e2, s2)
  {
    PostsTrans(s0.posts, s1.posts, s2.posts, e1, e2, s0.active.value, s1.active.value);
    RunsTrans(s0.runs, s1.runs, s2.runs, s0.generation, s0.active.value.denied, s1.active.value.denied);
  }

  ghost predicate OwnsNoMore(s: State, s': State) { forall x :: Owned(s', x) ==> Owned(s, x) }

  // An id that its document remembers and that owns nothing.
  ghost predicate Free(s: State, id: Id) {
    s.active.Some? && id in s.active.value.requests && !Owned(s, id)
  }

  // Work for one request changes only what that request owns.
  ghost predicate Only(s: State, s': State, id: Id) {
    && s'.queue == s.queue && s'.prompt == s.prompt && s'.active == s.active
    && (forall x :: Owned(s', x) ==> Owned(s, x) || x == id)
    && s'.cancelled <= s.cancelled
    && ConsentIds(s'.batches, s'.generation) == ConsentIds(s.batches, s.generation)
    && HeldIds(s'.batches, s'.generation) <= HeldIds(s.batches, s.generation) + {id}
  }

  /********** Answers **********/

  // The invariant does not look at the logs.
  lemma LogKeeps(s: State, posts: seq<Response>, runs: seq<Run>)
    ensures var s' := s.(posts := posts, runs := runs);
            (Core(s) ==> Core(s')) && Exposed(s') == Exposed(s) && forall x :: Owned(s', x) <==> Owned(s, x)
  {
  }

  // A remembered request that waits for nothing.
  ghost predicate Answerable(s: State, id: Id) {
    s.active.Some? && id in s.active.value.requests && id !in Exposed(s)
  }

  lemma RespondPosts(s: State, d: nat, id: Id, status: Status, event: Event, about: Option<Id>, reason: Reason)
    requires Answerable(s, id) && Ordinary(reason)
    ensures var s' := Respond(s, d, id, status, event, about, reason);
            s' == s.(posts := s'.posts, runs := s.runs) && PostsOk(s.posts, s'.posts, Exposed(s), s.active.value)
  {
  }

  lemma RespondKeeps(s: State, d: nat, id: Id, status: Status, event: Event, about: Option<Id>, reason: Reason)
    requires Core(s) && Answerable(s, id) && Ordinary(reason)
    ensures var s' := Respond(s, d, id, status, event, about, reason);
            Core(s') && Steady(s, s') && Only(s, s', id) && s' == s.(posts := s'.posts)
  {
    RespondPosts(s, d, id, status, event, about, reason);
    LogKeeps(s, Respond(s, d, id, status, event, about, reason).posts, s.runs);
  }

  lemma {:induction false} AnswerAllKeeps(s: State, items: seq<Queued>, status: Status, reason: Reason)
    requires Core(s) && s.active.Some? && Ordinary(reason)
    requires Ids(items) !! Exposed(s) && Ids(items) <= s.active.value.requests.Keys
    ensures var s' := AnswerAll(s, items, status, reason);
            Core(s') && Steady(s, s')
    decreases |items|
  {
    if items != [] {
      assert items[0].id in Ids(items);
      RespondKeeps(s, items[0].doc, items[0].id, status, Silent, None, reason);
      var s1 := Answer(s, items[0].doc, items[0].id, status, reason);
      assert Ids(items[1..]) <= Ids(items);
      AnswerAllKeeps(s1, items[1..], status, reason);
      SoundTrans(Exposed(s), s, Exposed(s1), s1, Exposed(s), AnswerAll(s, items, status, reason));
    }
  }

  /********** The queue **********/

  // A queue that keeps only some of its entries.
  ghost predicate Subqueue(q': seq<Queued>, q: seq<Queued>) {
    DistinctIds(q') && forall x :: x in q' ==> x in q
  }

  lemma SubqueueKeeps(s: State, q': seq<Queued>)
    requires Core(s) && s.active.Some? && Subqueue(q', s.queue)
    ensures var s' := s.(queue := q');
            Core(s') && Steady(s, s') && OwnsNoMore(s, s') && Ids(q') <= Ids(s.queue)
  {
    forall x | x in Ids(q') ensures x in Ids(s.queue) {
      var i :| 0 <= i < |q'| && q'[i].id == x;
      assert q'[i] in s.queue;
    }
    var c := ConsentIds(s.batches, s.generation);
    BacklogLess(s.queue, c, q', c);
    forall i | 0 <= i < |q'|
      ensures Known(s.active.value, q'[i]) && (q'[i].cap in s.active.value.denied ==> q'[i].cap == Notifications)
    {
      assert q'[i] in s.queue;
    }
  }

  lemma SetMono<T>(a: set<T>, b: set<T>)
    requires a <= b
    ensures |a| <= |b|
  {
    assert b == a + (b - a);
  }

  lemma {:induction false} DistinctWithout(q: seq<Queued>, gone: seq<Queued>)
    requires DistinctIds(q)
    ensures Subqueue(Without(q, gone), q)
  {
    if q != [] {
      DistinctWithout(q[1..], gone);
      DistinctHead(q, Without(q[1..], gone));
    }
  }

  lemma {:induction false} DistinctMatching(q: seq<Queued>, d: nat, cap: Capability)
    requires DistinctIds(q)
    ensures Subqueue(Matching(q, d, cap), q)
  {
    if q != [] {
      DistinctMatching(q[1..], d, cap);
      DistinctHead(q, Matching(q[1..], d, cap));
    }
  }

  lemma {:induction false} DistinctDiscard(q: seq<Queued>, d: nat, id: Id)
    requires DistinctIds(q)
    ensures Subqueue(Discard(q, d, id), q)
  {
    if q != [] {
      DistinctDiscard(q[1..], d, id);
      DistinctHead(q, Discard(q[1..], d, id));
    }
  }

  lemma DistinctHead(q: seq<Queued>, rest: seq<Queued>)
    requires q != [] && DistinctIds(q) && Subqueue(rest, q[1..])
    ensures Subqueue([q[0]] + rest, q) && Subqueue(rest, q)
  {
    var r := [q[0]] + rest;
    forall i, j | 0 <= i < j < |r| ensures r[i].id != r[j].id {
      assert r[j] == rest[j - 1] && rest[j - 1] in q[1..];
      if i == 0 {
        var m :| 0 <= m < |q[1..]| && q[1..][m] == rest[j - 1];
        assert q[m + 1] == rest[j - 1];
      } else {
        assert r[i] == rest[i - 1];
      }
    }
  }

  // Entries with the same id are the same entry.
  lemma SameEntry(q: seq<Queued>, x: Queued, y: Queued)
    requires DistinctIds(q) && x in q && y in q && x.id == y.id
    ensures x == y
  {
    var i :| 0 <= i < |q| && q[i] == x;
    var j :| 0 <= j < |q| && q[j] == y;
    assert i == j;
  }

  lemma IdIn(q: seq<Queued>, x: Queued)
    requires x in q
    ensures x.id in Ids(q)
  {
    var i :| 0 <= i < |q| && q[i] == x;
    assert q[i].id in Ids(q);
  }

  lemma {:induction false} DropDeadResult(s: State, q: seq<Queued>)
    requires forall i :: 0 <= i < |q| ==> q[i].doc == s.generation
    requires s.active.Some? ==> s.active.value.generation == s.generation
    ensures DropDead(s, q) == if Live(s, s.generation) then q else []
  {
    if q != [] && !Live(s, s.generation) { DropDeadResult(s, q[1..]); }
  }

  lemma AdvanceKeeps(s: State)
    requires Core(s) && s.active.Some?
    ensures var s' := Advance(s);
            Valid(s') && Steady(s, s') && OwnsNoMore(s, s')
            && s'.queue == (if Live(s, s.generation) then s.queue else [])
            && s' == s.(queue := s'.queue, prompt := s'.prompt)
  {
    DropDeadResult(s, s.queue);
    var q := DropDead(s, s.queue);
    assert Subqueue(q, s.queue);
    SubqueueKeeps(s, q);
  }

  lemma WithoutLeaves(q: seq<Queued>, gone: seq<Queued>)
    requires DistinctIds(q) && forall x :: x in gone ==> x in q
    ensures Ids(gone) !! Ids(Without(q, gone))
  {
    DistinctWithout(q, gone);
    var rest := Without(q, gone);
    forall x, y | x in gone && y in rest ensures x.id != y.id {
      if x.id == y.id { SameEntry(q, x, y); }
    }
    forall i: nat, j: nat | i < |gone| && j < |rest|
      ensures gone[i].id != rest[j].id
    {
      assert gone[i] in gone && rest[j] in rest;
    }
  }

  lemma ActiveIsCurrent(s: State)
    requires Core(s) && s.active.Some?
    ensures s.active.value.generation == s.generation
  {
  }

  lemma QueueIsDistinct(s: State)
    requires Core(s)
    ensures DistinctIds(s.queue)
  {
  }

  // An entry of the queue owns nothing but its place.
  lemma QueuedFacts(s: State, x: Queued)
    requires Core(s) && s.active.Some? && x in s.queue
    ensures Known(s.active.value, x) && x.id in Ids(s.queue) && x.id !in ConsentIds(s.batches, s.generation)
    ensures x.id !in s.inFlight && x.id !in s.cancelled && x.id !in s.watches && x.id !in s.notices
  {
    hide ConsentIds;
    IdIn(s.queue, x);
    ConsentInFlight(s.batches, s.generation, s.active, s.inFlight, s.notices.Keys, s.next);
    var j :| 0 <= j < |s.queue| && s.queue[j] == x;
    assert Known(s.active.value, s.queue[j]);
  }

  lemma LeftAlone(s: State, gone: seq<Queued>, x: Queued)
    requires Core(s) && s.active.Some? && x in gone && x in s.queue && Ids(gone) !! Ids(Without(s.queue, gone))
    ensures var s' := s.(queue := Without(s.queue, gone)); Free(s', x.id) && x.id !in Exposed(s')
  {
    hide Core, Ids, ConsentIds, Without;
    QueuedFacts(s, x);
    IdIn(gone, x);
  }

  // Removing selected entries frees them.
  lemma WithoutFrees(s: State, gone: seq<Queued>)
    requires Core(s) && s.active.Some? && forall x :: x in gone ==> x in s.queue
    ensures var s' := s.(queue := Without(s.queue, gone));
            Core(s') && Steady(s, s') && (forall x :: x in gone ==> Free(s', x.id) && x.id !in Exposed(s'))
            && Ids(gone) !! Ids(s'.queue)
  {
    hide Core, DistinctIds, Sound, Ids, ConsentIds, Free, Exposed;
    var s' := s.(queue := Without(s.queue, gone));
    QueueIsDistinct(s);
    DistinctWithout(s.queue, gone);
    SubqueueKeeps(s, s'.queue);
    WithoutLeaves(s.queue, gone);
    forall x | x in gone ensures Free(s', x.id) && x.id !in Exposed(s') { LeftAlone(s, gone, x); }
  }

  lemma ConsentInFlight(batches: map<nat, Batch>, g: nat, active: Option<Doc>, inFlight: set<Id>, notices: set<Id>,
                        next: nat)
    requires BatchesOk(batches, g, active, inFlight, notices, next)
    ensures ConsentIds(batches, g) <= inFlight
  {
    forall x | x in ConsentIds(batches, g) ensures x in inFlight {
      ConsentMember(batches, g, x);
      var k :| Asks(batches, g, k, x);
      assert Holds(batches, g, k, x);
    }
  }

  /********** Native work and its slots **********/

  // A step for one request of the current document.
  ghost predicate Works(s: State, s': State, id: Id) {
    Core(s') && Steady(s, s') && Only(s, s', id)
  }

  lemma WorksTrans(s0: State, s1: State, s2: State, id: Id)
    requires Works(s0, s1, id) && Works(s1, s2, id)
    ensures Works(s0, s2, id)
  {
    SoundTrans(Exposed(s0), s0, Exposed(s1), s1, Exposed(s2), s2);
  }

  // A step that shows nothing to the frame and at most forgets waiting requests.
  ghost predicate Dropped(s: State, s': State) {
    && s'.posts == s.posts && s'.runs == s.runs && s'.managed == s.managed
    && s'.active == s.active && s'.generation == s.generation && s'.queue == s.queue && s'.prompt == s.prompt
    && s'.connects == s.connects && s'.handledConnects == s.handledConnects
    && s'.next >= s.next
    && s'.cancelled == s.cancelled
    && Exposed(s') <= Exposed(s)
    && OwnsNoMore(s, s')
    && HeldIds(s'.batches, s'.generation) <= HeldIds(s.batches, s.generation)
  }

  lemma HeldAdd(batches: map<nat, Batch>, g: nat, k: nat, b: Batch)
    requires k !in batches
    ensures HeldIds(batches[k := b], g) <= HeldIds(batches, g) + WorkIds(b.work)
  {
    var more := batches[k := b];
    forall x | x in HeldIds(more, g) ensures x in HeldIds(batches, g) + WorkIds(b.work) {
      HeldMember(batches, g, x);
      HeldMember(more, g, x);
      var j :| Holds(more, g, j, x);
      if j != k { assert Holds(batches, g, j, x); }
    }
  }

  lemma HeldRemove(batches: map<nat, Batch>, g: nat, k: nat, active: Option<Doc>, inFlight: set<Id>, notices: set<Id>,
                   next: nat)
    requires k in batches && BatchesOk(batches, g, active, inFlight, notices, next)
    ensures HeldIds(batches - {k}, g) == HeldIds(batches, g) - if Current(batches, g, k) then WorkIds(batches[k].work)
              else {}
  {
    var rest := batches - {k};
    var gone := if Current(batches, g, k) then WorkIds(batches[k].work) else {};
    forall x ensures x in HeldIds(rest, g) <==> x in HeldIds(batches, g) - gone {
      HeldMember(batches, g, x);
      HeldMember(rest, g, x);
      if j :| Holds(rest, g, j, x) {
        assert Holds(batches, g, j, x);
        assert x in gone ==> Holds(batches, g, k, x);
      }
      if x in HeldIds(batches, g) - gone {
        var j :| Holds(batches, g, j, x);
        assert Holds(rest, g, j, x);
      }
    }
  }

  lemma ConsentAdd(batches: map<nat, Batch>, g: nat, k: nat, b: Batch)
    requires k !in batches
    ensures ConsentIds(batches[k := b], g)
         == ConsentIds(batches, g) + if b.doc == g && b.work.Consenting? then WorkIds(b.work) else {}
  {
    var more := batches[k := b];
    var ids := if b.doc == g && b.work.Consenting? then WorkIds(b.work) else {};
    forall x ensures x in ConsentIds(more, g) <==> x in ConsentIds(batches, g) + ids {
      ConsentMember(batches, g, x);
      ConsentMember(more, g, x);
      forall j | Asks(batches, g, j, x) ensures Asks(more, g, j, x) { }
      if x in ids { assert Asks(more, g, k, x); }
      if j :| Asks(more, g, j, x) {
        if j != k { assert Asks(batches, g, j, x); }
      }
    }
  }

  // What remains waiting in prompts once work k has settled.
  lemma ConsentRemove(batches: map<nat, Batch>, g: nat, k: nat, active: Option<Doc>, inFlight: set<Id>,
                      notices: set<Id>, next: nat)
    requires k in batches && BatchesOk(batches, g, active, inFlight, notices, next)
    ensures ConsentIds(batches - {k}, g)
         == ConsentIds(batches, g) - if Current(batches, g, k) then WorkIds(batches[k].work) else {}
  {
    var rest := batches - {k};
    var gone := if Current(batches, g, k) then WorkIds(batches[k].work) else {};
    forall x ensures x in ConsentIds(rest, g) <==> x in ConsentIds(batches, g) - gone {
      ConsentMember(batches, g, x);
      ConsentMember(rest, g, x);
      if j :| Asks(rest, g, j, x) {
        assert Asks(batches, g, j, x);
        assert Holds(batches, g, j, x) && (x in gone ==> Holds(batches, g, k, x));
      }
      if x in ConsentIds(batches, g) - gone {
        var j :| Asks(batches, g, j, x);
        assert Asks(rest, g, j, x);
      }
    }
  }

  lemma BatchesAdd(batches: map<nat, Batch>, g: nat, active: Option<Doc>, inFlight: set<Id>, notices: set<Id>,
                   next: nat,
                   b: Batch, ids: set<Id>, count: nat)
    requires BatchesOk(batches, g, active, inFlight, notices, next) && count >= 1
    requires b.work.Elsewhere? || (b.doc == g && active.Some?)
    requires WorkIds(b.work) == ids && WorkOk(active, b.work)
    requires ids !! inFlight && ids !! notices
    ensures BatchesOk(batches[next := b], g, active, inFlight + ids, notices, next + count)
  {
    var more := batches[next := b];
    assert next !in batches;
    forall j | Current(more, g, j) ensures WorkOk(active, more[j].work) {
      if j != next { assert Current(batches, g, j); }
    }
    forall j, x | Holds(more, g, j, x) ensures x in inFlight + ids && (j != next ==> Holds(batches, g, j, x)) {
      if j != next { assert Holds(batches, g, j, x); }
    }
    forall j, x | Asks(more, g, j, x) ensures x !in notices {
      if j != next { assert Asks(batches, g, j, x); }
    }
    forall j, k, x | Holds(more, g, j, x) && Holds(more, g, k, x) ensures j == k {
      if j != next { assert Holds(batches, g, j, x); }
      if k != next { assert Holds(batches, g, k, x); }
    }
    if active.None? { forall k ensures !Current(more, g, k) { assert !Current(batches, g, k); } }
  }

  lemma BatchesRemove(batches: map<nat, Batch>, g: nat, active: Option<Doc>, inFlight: set<Id>, notices: set<Id>,
                      next: nat, k: nat)
    requires BatchesOk(batches, g, active, inFlight, notices, next) && k in batches
    ensures BatchesOk(batches - {k}, g, active, inFlight, notices, next)
    ensures forall j, x :: Holds(batches, g, k, x) ==> !Holds(batches - {k}, g, j, x)
  {
    var rest := batches - {k};
    forall j | Current(rest, g, j) ensures Current(batches, g, j) && WorkOk(active, rest[j].work) { }
    forall j, x | Holds(rest, g, j, x) ensures Holds(batches, g, j, x) && j != k { }
    forall j, x | Asks(rest, g, j, x) ensures x !in notices { assert Asks(batches, g, j, x); }
    if active.None? { forall j ensures !Current(rest, g, j) { assert !Current(batches, g, j); } }
  }

  // The owners of a new batch are new.
  lemma PoolGrows(pool: set<nat>, next: nat, count: nat)
    requires forall o :: o in pool ==> o < next
    ensures |pool + Fresh(next, count)| == |pool| + count
  {
    assert pool !! Fresh(next, count);
  }

  lemma OwnsMore(batches: map<nat, Batch>, next: nat, b: Batch, k: nat, o: nat)
    requires next !in batches
    ensures Owns(batches[next := b], k, o) <==> Owns(batches, k, o) || (k == next && o in b.owners)
  {
  }

  lemma PoolAdd(pool: set<nat>, batches: map<nat, Batch>, next: nat, b: Batch, count: nat)
    requires PoolOk(pool, batches, next) && next !in batches && count >= 1 && b.owners == Fresh(next, count)
    ensures PoolOk(pool + b.owners, batches[next := b], next + count)
    ensures |pool + b.owners| == |pool| + count
  {
    hide Owns;
    PoolGrows(pool, next, count);
    var more := batches[next := b];
    assert next in b.owners;
    forall k: nat, o: nat ensures Owns(more, k, o) <==> Owns(batches, k, o) || (k == next && o in b.owners) {
      OwnsMore(batches, next, b, k, o);
    }
    forall o | o in pool + b.owners ensures exists k :: Owns(more, k, o) {
      if o in pool {
        var k :| Owns(batches, k, o);
        assert Owns(more, k, o);
      } else {
        assert Owns(more, next, o);
      }
    }
  }

  lemma PoolRemove(pool: set<nat>, batches: map<nat, Batch>, next: nat, k: nat)
    requires PoolOk(pool, batches, next) && k in batches
    ensures PoolOk(pool - batches[k].owners, batches - {k}, next)
    ensures |pool - batches[k].owners| <= |pool|
  {
    var rest := batches - {k};
    var pool' := pool - batches[k].owners;
    SetMono(pool', pool);
    forall o | o in pool' ensures exists j :: Owns(rest, j, o) {
      var j :| Owns(batches, j, o);
      assert Owns(rest, j, o);
    }
    forall j, o | Owns(rest, j, o) ensures Owns(batches, j, o) && o in pool' {
      assert Owns(batches, j, o);
      assert o in batches[k].owners ==> Owns(batches, k, o);
    }
  }

  lemma FreeFacts(s: State, ids: set<Id>)
    requires s.active.Some? && forall x :: x in ids ==> Free(s, x)
    ensures ids <= s.active.value.requests.Keys
    ensures ids !! Ids(s.queue) && ids !! s.inFlight && ids !! s.notices.Keys && ids !! s.watches.Keys
    ensures ids !! s.cancelled
  {
  }

  lemma TablesGrow(s: State, ids: set<Id>)
    requires Core(s) && s.active.Some? && forall x :: x in ids ==> Free(s, x)
    ensures TablesOk(s.active, s.generation, s.queue, s.watches, s.notices, s.inFlight + ids, s.cancelled)
    ensures QueueOk(s.queue, s.inFlight + ids + s.cancelled + s.watches.Keys + s.notices.Keys)
  {
    FreeFacts(s, ids);
  }

  lemma BeginExposes(s: State, s': State, ids: set<Id>, more: set<Id>)
    requires s'.queue == s.queue && s'.cancelled == s.cancelled && s'.watches == s.watches && s'.notices == s.notices
    requires s'.inFlight == s.inFlight + ids && ids !! s.cancelled && more <= ids
    requires ConsentIds(s'.batches, s'.generation) == ConsentIds(s.batches, s.generation) + more
    ensures Exposed(s') == Exposed(s) + more && forall x :: Owned(s', x) <==> Owned(s, x) || x in ids
  {
  }

  // Begin changes the slots, the work and the in-flight ids, and nothing else; `more` joins the prompts.
  lemma BeginKeeps(s: State, count: nat, ids: set<Id>, work: Work, more: set<Id>)
    requires Core(s) && s.active.Some? && Reservable(s, count)
    requires !work.Elsewhere? && WorkIds(work) == ids && WorkOk(s.active, work)
    requires |s.inFlight| + |ids| <= MAX_IN_FLIGHT && forall x :: x in ids ==> Free(s, x)
    requires more == if work.Consenting? then ids else {}
    requires BacklogOk(s.queue, ConsentIds(s.batches, s.generation) + more)
    ensures var s' := Begin(s, s.generation, count, ids, work);
            Core(s') && Exposed(s') == Exposed(s) + more && forall x :: Owned(s', x) <==> Owned(s, x) || x in ids
    ensures ConsentIds(Begin(s, s.generation, count, ids, work).batches, s.generation)
              == ConsentIds(s.batches, s.generation) + more
    ensures HeldIds(Begin(s, s.generation, count, ids, work).batches, s.generation) <= HeldIds(s.batches, s.generation)
              + ids
  {
    var s' := Begin(s, s.generation, count, ids, work);
    HeldAdd(s.batches, s.generation, s.next, Batch(Fresh(s.next, count), s.generation, work));
    BeginBatches(s, count, ids, work);
    BeginPool(s, count, ids, work);
    BeginConsent(s, count, ids, work);
    FreeFacts(s, ids);
    BeginExposes(s, s', ids, more);
    TablesGrow(s, ids);
    BeginCounts(s, ids, count);
  }

  // The counter has not named any work yet.
  lemma NextIsNew(s: State)
    requires Core(s)
    ensures s.next !in s.batches
  {
  }

  lemma BeginBatches(s: State, count: nat, ids: set<Id>, work: Work)
    requires Core(s) && s.active.Some? && count >= 1
    requires !work.Elsewhere? && WorkIds(work) == ids && WorkOk(s.active, work)
    requires forall x :: x in ids ==> Free(s, x)
    ensures var s' := Begin(s, s.generation, count, ids, work);
            BatchesOk(s'.batches, s'.generation, s'.active, s'.inFlight, s'.notices.Keys, s'.next)
  {
    var b := Batch(Fresh(s.next, count), s.generation, work);
    FreeFacts(s, ids);
    BatchesAdd(s.batches, s.generation, s.active, s.inFlight, s.notices.Keys, s.next, b, ids, count);
  }

  lemma BeginPool(s: State, count: nat, ids: set<Id>, work: Work)
    requires Core(s) && count >= 1
    ensures var s' := Begin(s, s.generation, count, ids, work);
            PoolOk(s'.pool, s'.batches, s'.next)
  {
    NextIsNew(s);
    PoolAdd(s.pool, s.batches, s.next, Batch(Fresh(s.next, count), s.generation, work), count);
  }

  lemma BeginConsent(s: State, count: nat, ids: set<Id>, work: Work)
    requires Core(s) && WorkIds(work) == ids
    ensures var s' := Begin(s, s.generation, count, ids, work);
            ConsentIds(s'.batches, s.generation) == ConsentIds(s.batches, s.generation) + if work.Consenting? then ids
              else {}
  {
    NextIsNew(s);
    ConsentAdd(s.batches, s.generation, s.next, Batch(Fresh(s.next, count), s.generation, work));
  }

  lemma BeginCounts(s: State, ids: set<Id>, count: nat)
    requires CountsOk(s.pool, s.inFlight, KeySet(s.watches), KeySet(s.notices)) && PoolOk(s.pool, s.batches, s.next)
    requires Reservable(s, count) && |s.inFlight| + |ids| <= MAX_IN_FLIGHT
    ensures CountsOk(s.pool + Fresh(s.next, count), s.inFlight + ids, KeySet(s.watches), KeySet(s.notices))
  {
    UnionSize(s.pool, Fresh(s.next, count));
    UnionSize(s.inFlight, ids);
  }

  lemma UnionSize<T>(a: set<T>, b: set<T>)
    ensures |a + b| <= |a| + |b|
  {
    assert a + b == a + (b - a);
    SetMono(b - a, b);
  }

  // Beginning work shows nothing to the frame.
  lemma BeginIsQuiet(s: State, count: nat, ids: set<Id>, work: Work)
    requires s.active.Some?
    ensures var s' := Begin(s, s.generation, count, ids, work);
            && SameDoc(s, s') && PostsOk(s.posts, s'.posts, Exposed(s'), s.active.value)
            && RunsOk(s.runs, s'.runs, s.generation, s.active.value.denied)
            && s'.queue == s.queue && s'.prompt == s.prompt && s'.active == s.active && s'.cancelled == s.cancelled
            && s'.generation == s.generation
  {
    hide Exposed;
  }

  // One request begins work that asks for nothing.
  lemma BeginAlone(s: State, id: Id, work: Work)
    requires Core(s) && s.active.Some? && Reservable(s, 1) && |s.inFlight| < MAX_IN_FLIGHT
    requires Free(s, id) && WorkIds(work) == {id} && WorkOk(s.active, work) && !work.Consenting?
    ensures var s' := Begin(s, s.generation, 1, {id}, work);
            && Core(s') && Exposed(s') == Exposed(s) && (forall x :: Owned(s', x) <==> Owned(s, x) || x == id)
            && ConsentIds(s'.batches, s.generation) == ConsentIds(s.batches, s.generation)
            && HeldIds(s'.batches, s.generation) <= HeldIds(s.batches, s.generation) + {id}
  {
    hide Core, BacklogOk, Begin, WorkOk, Free, Reservable, Owned, ConsentIds, HeldIds, Exposed;
    var c := ConsentIds(s.batches, s.generation);
    ConsentBacklog(s);
    UnionEmpty(c);
    UnionEmpty(Exposed(s));
    BeginKeeps(s, 1, {id}, work, {});
  }

  lemma ConsentBacklog(s: State)
    requires Core(s)
    ensures BacklogOk(s.queue, ConsentIds(s.batches, s.generation))
  {
  }

  lemma BeginWorks(s: State, id: Id, work: Work)
    requires Core(s) && s.active.Some? && Reservable(s, 1) && |s.inFlight| < MAX_IN_FLIGHT
    requires Free(s, id) && WorkIds(work) == {id} && WorkOk(s.active, work) && !work.Consenting?
    ensures Works(s, Begin(s, s.generation, 1, {id}, work), id)
  {
    hide Core, Begin, PostsOk, RunsOk, SameDoc, WorkOk, Free, Reservable, Owned, ConsentIds, HeldIds, Exposed;
    BeginAlone(s, id, work);
    BeginIsQuiet(s, 1, {id}, work);
  }

  // Ids outside all unsettled work of the current document.
  predicate Unheld(s: State, id: Id) { id !in HeldIds(s.batches, s.generation) }

  lemma ReleaseKeeps(s: State, k: nat)
    requires Core(s) && k in s.batches
    ensures var s' := Release(s, k);
            && Core(s') && Dropped(s, s')
            && ConsentIds(s'.batches, s.generation)
               == ConsentIds(s.batches, s.generation) - (if Current(s.batches, s.generation, k)
                                                         then WorkIds(s.batches[k].work) else {})
            && HeldIds(s'.batches, s.generation)
               == HeldIds(s.batches, s.generation) - (if Current(s.batches, s.generation, k)
                                                      then WorkIds(s.batches[k].work) else {})
  {
    HeldRemove(s.batches, s.generation, k, s.active, s.inFlight, s.notices.Keys, s.next);
    BatchesRemove(s.batches, s.generation, s.active, s.inFlight, s.notices.Keys, s.next, k);
    PoolRemove(s.pool, s.batches, s.next, k);
    ConsentRemove(s.batches, s.generation, k, s.active, s.inFlight, s.notices.Keys, s.next);
    BacklogLess(s.queue, ConsentIds(s.batches, s.generation), s.queue, ConsentIds(s.batches - {k}, s.generation));
  }

  lemma LandBatches(batches: map<nat, Batch>, g: nat, active: Option<Doc>, inFlight: set<Id>, notices: set<Id>,
                    next: nat, id: Id)
    requires BatchesOk(batches, g, active, inFlight, notices, next) && id !in HeldIds(batches, g)
    ensures BatchesOk(batches, g, active, inFlight - {id}, notices, next)
  {
    HeldMember(batches, g, id);
  }

  lemma LandTables(active: Option<Doc>, g: nat, queue: seq<Queued>, watches: map<Id, Watch>, notices: map<Id, Notice>,
                   inFlight: set<Id>, cancelled: set<Id>, id: Id)
    requires TablesOk(active, g, queue, watches, notices, inFlight, cancelled)
    requires QueueOk(queue, inFlight + cancelled + watches.Keys + notices.Keys)
    ensures TablesOk(active, g, queue, watches, notices, inFlight - {id}, cancelled)
    ensures QueueOk(queue, inFlight - {id} + cancelled + watches.Keys + notices.Keys)
  {
  }

  lemma LandKeeps(s: State, id: Id)
    requires Core(s) && Unheld(s, id)
    ensures var s' := Land(s, id);
            Core(s') && Dropped(s, s') && Unheld(s', id)
  {
    hide TablesOk, QueueOk, BatchesOk, PoolOk, BacklogOk, DeniedOk, ConsentIds, HeldIds;
    SetMono(s.inFlight - {id}, s.inFlight);
    LandBatches(s.batches, s.generation, s.active, s.inFlight, s.notices.Keys, s.next, id);
    LandTables(s.active, s.generation, s.queue, s.watches, s.notices, s.inFlight, s.cancelled, id);
  }

  lemma UncancelExposes(s: State, id: Id)
    requires id !in ConsentIds(s.batches, s.generation)
    ensures Exposed(Uncancel(s, id)) == Exposed(s) && OwnsNoMore(s, Uncancel(s, id))
  {
  }

  lemma UncancelCore(s: State, id: Id)
    requires Core(s)
    ensures Core(Uncancel(s, id))
  {
    var s' := Uncancel(s, id);
    assert QueueOk(s'.queue, s'.inFlight + s'.cancelled + s'.watches.Keys + s'.notices.Keys);
    assert TablesOk(s'.active, s'.generation, s'.queue, s'.watches, s'.notices, s'.inFlight, s'.cancelled);
  }

  lemma UncancelKeeps(s: State, id: Id)
    requires Core(s) && s.active.Some? && id !in ConsentIds(s.batches, s.generation)
    ensures var s' := Uncancel(s, id);
            Works(s, s', id) && Exposed(s') == Exposed(s)
  {
    UncancelExposes(s, id);
    UncancelCore(s, id);
  }

  lemma UnheldNotConsented(s: State, id: Id)
    requires Unheld(s, id)
    ensures id !in ConsentIds(s.batches, s.generation)
  {
    ConsentMember(s.batches, s.generation, id);
    HeldMember(s.batches, s.generation, id);
    assert forall k :: Asks(s.batches, s.generation, k, id) ==> Holds(s.batches, s.generation, k, id);
  }

  // Work k of the current document holds its ids alone.
  lemma HeldByOne(s: State, k: nat, id: Id)
    requires Core(s) && Holds(s.batches, s.generation, k, id) && !s.batches[k].work.Consenting?
    ensures id in s.inFlight && id !in ConsentIds(s.batches, s.generation) && id !in Ids(s.queue) && id !in Exposed(s)
  {
    ConsentMember(s.batches, s.generation, id);
    assert id in s.inFlight;
    assert forall j :: Asks(s.batches, s.generation, j, id) ==> Holds(s.batches, s.generation, j, id);
  }

  // A step of the current document that only drops things.
  lemma DroppedWorks(s: State, s': State, id: Id)
    requires Core(s') && s.active.Some? && Dropped(s, s')
    requires ConsentIds(s'.batches, s'.generation) == ConsentIds(s.batches, s.generation)
    ensures Works(s, s', id)
  {
  }

  lemma ReleaseWorks(s: State, k: nat, id: Id)
    requires Core(s) && s.active.Some? && Holds(s.batches, s.generation, k, id) && WorkIds(s.batches[k].work) == {id}
    requires !s.batches[k].work.Consenting?
    ensures var s' := Release(s, k);
            Works(s, s', id) && Exposed(s') == Exposed(s) && Unheld(s', id) && id !in Exposed(s')
  {
    hide Core, ConsentIds, HeldIds;
    HeldByOne(s, k, id);
    ReleaseKeeps(s, k);
    assert ConsentIds(s.batches, s.generation) - {id} == ConsentIds(s.batches, s.generation);
    DroppedWorks(s, Release(s, k), id);
  }

  lemma LandWorks(s: State, id: Id)
    requires Core(s) && s.active.Some? && Unheld(s, id)
    ensures var s' := Land(s, id);
            Works(s, s', id) && Exposed(s') == Exposed(s) && Unheld(s', id)
  {
    LandKeeps(s, id);
    DroppedWorks(s, Land(s, id), id);
  }

  // Settled work of one request: slots back, id landed.
  lemma SettleKeeps(s: State, k: nat, id: Id)
    requires Core(s) && s.active.Some? && Holds(s.batches, s.generation, k, id) && WorkIds(s.batches[k].work) == {id}
    requires !s.batches[k].work.Consenting?
    ensures var s' := Land(Release(s, k), id);
            Works(s, s', id) && Exposed(s') == Exposed(s) && Unheld(s', id) && id !in Exposed(s')
  {
    ReleaseWorks(s, k, id);
    LandWorks(Release(s, k), id);
    WorksTrans(s, Release(s, k), Land(Release(s, k), id), id);
  }
}
