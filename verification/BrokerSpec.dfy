/**
 The parent broker's state and steps as functions (apps/web/src/browser-permissions.tsx).

 One step runs from a browser callback to the next `await` or return. Each function below is one function
 or continuation of the hook; what the browser and other tabs decide arrives as parameters. The class in
 Broker.dfy runs the same steps on mutable fields.
 */
module BrokerSpec {
  import opened Wrappers
  import opened Protocol
  import Grants

  const MAX_PENDING := 16
  const MAX_IN_FLIGHT := 16
  const MAX_WATCHES := 8
  const MAX_NOTIFICATIONS := 16
  const MAX_REMEMBERED := 128

  /********** State **********/

  // `requests` remembers replayed ids; `order` lists its keys oldest first, as a JavaScript map does.
  datatype Doc = Doc(client: Client, generation: nat, denied: set<Capability>, revision: nat,
                     requests: map<Id, Op>, order: seq<Id>)

  datatype Queued = Queued(doc: nat, cap: Capability, id: Id, op: Op)

  datatype Watch = Watch(native: nat, doc: nat)

  datatype Notice = Native(handle: nat, doc: nat) | Worker(reservation: nat, doc: nat, pending: bool)

  datatype Mode = Once | Always | Saved

  // The awaits of `showNotification`, in source order.
  datatype Phase = FindWorker | FirstReconcile | FindFallback | Displaying | Withdrawing | LastReconcile

  // A native call that has not settled, with what its continuation captured.
  datatype Work =
    | Locating(id: Id)
    | Clipping(id: Id, cap: Capability, mode: Mode, token: Option<Grants.Token>)
    | Consenting(mode: Mode, current: Queued, items: seq<Queued>, revision: nat, token: Option<Grants.Token>)
    | Showing(id: Id, phase: Phase, registered: bool)
    | Elsewhere  // native work of another preview in the same window

  datatype Batch = Batch(owners: set<nat>, doc: nat, work: Work)

  // Native access begun for a request after consent.
  datatype Run = Run(doc: nat, cap: Capability, id: Id)

  datatype State = State(
    managed: bool,              // the frame still holds the managed preview
    generation: nat,
    active: Option<Doc>,
    queue: seq<Queued>,
    prompt: Option<Queued>,
    watches: map<Id, Watch>,
    notices: map<Id, Notice>,
    inFlight: set<Id>,
    cancelled: set<Id>,
    connects: nat,
    handledConnects: nat,
    pool: set<nat>,             // window-wide native slots, shared by every preview
    batches: map<nat, Batch>,   // unsettled native work, of live and of replaced documents
    next: nat,                  // fresh slots, batch keys and native handles
    posts: seq<Response>,       // everything posted to the frame
    runs: seq<Run>)             // everything begun natively

  const INITIAL := State(true, 0, None, [], None, map[], map[], {}, {}, 0, 0, {}, map[], 0, [], [])

  // What the browser, the storage and the other tabs answer during one step. Sets name the requests for
  // which the answer is yes.
  datatype Env = Env(
    saved: Option<Grants.Token>,   // savedBrowserPermissionToken
    activated: bool,               // navigator.userActivation
    nativeGranted: bool,           // Notification.permission === 'granted'
    provider: bool,                // navigator.geolocation
    worker: bool,                  // 'serviceWorker' in navigator
    throwing: set<Id>,             // the native call throws
    constructed: set<Id>,          // new Notification succeeds
    current: set<Id>,              // isCurrentBrowserPermissionApproval before native work
    choice: Grants.Approval,       // beginBrowserPermissionApproval
    stored: bool,                  // saveBrowserPermission
    currentBefore: bool,           // isCurrentBrowserPermissionApproval before a save
    currentAfter: bool,            // and after it
    promptThrows: bool,            // Notification.requestPermission throws
    failed: bool,                  // the awaited promise rejects
    found: bool,                   // the awaited lookup finds a worker registration
    vanished: seq<Id>)             // worker notifications no longer displayed, in map order

  /********** Shared helpers **********/

  predicate Live(s: State, d: nat) {
    s.managed && s.active.Some? && s.active.value.generation == d
  }

  function Reply(s: State, id: Id, status: Status, event: Event, about: Option<Id>, reason: Reason): Response {
    Response(if s.active.Some? then s.active.value.client else 0, id, status, event, about, reason)
  }

  // Send only to the still-current managed document, and never for a cancelled request.
  function Respond(s: State, d: nat, id: Id, status: Status, event: Event, about: Option<Id>, reason: Reason): State {
    if Live(s, d) && id !in s.cancelled then s.(posts := s.posts + [Reply(s, id, status, event, about, reason)]) else s
  }

  function Answer(s: State, d: nat, id: Id, status: Status, reason: Reason): State {
    Respond(s, d, id, status, Silent, None, reason)
  }

  function DropDead(s: State, queue: seq<Queued>): seq<Queued> {
    if queue != [] && !Live(s, queue[0].doc) then DropDead(s, queue[1..]) else queue
  }

  function Advance(s: State): State {
    var queue := DropDead(s, s.queue);
    s.(queue := queue, prompt := if queue == [] then None else Some(queue[0]))
  }

  // Queue items of one document and capability, in order.
  function Matching(queue: seq<Queued>, d: nat, cap: Capability): (r: seq<Queued>)
    ensures forall q :: q in r <==> q in queue && q.doc == d && q.cap == cap
  {
    if queue == [] then []
    else if queue[0].doc == d && queue[0].cap == cap then [queue[0]] + Matching(queue[1..], d, cap)
    else Matching(queue[1..], d, cap)
  }

  // Queue items that are not among `gone`, in order.
  function Without(queue: seq<Queued>, gone: seq<Queued>): (r: seq<Queued>)
    ensures forall q :: q in r <==> q in queue && q !in gone
  {
    if queue == [] then []
    else if queue[0] in gone then Without(queue[1..], gone)
    else [queue[0]] + Without(queue[1..], gone)
  }

  // Queue items other than one request of one document, in order.
  function Discard(queue: seq<Queued>, d: nat, id: Id): (r: seq<Queued>)
    ensures forall q :: q in r <==> q in queue && !(q.doc == d && q.id == id)
  {
    if queue == [] then []
    else if queue[0].doc == d && queue[0].id == id then Discard(queue[1..], d, id)
    else [queue[0]] + Discard(queue[1..], d, id)
  }

  predicate Waiting(s: State, d: nat, id: Id, cap: Capability) {
    exists i :: 0 <= i < |s.queue| && s.queue[i].doc == d && s.queue[i].id == id && s.queue[i].cap == cap
  }

  // `count` fresh slots.
  function Fresh(first: nat, count: nat): (r: set<nat>)
    ensures |r| == count
    ensures forall k :: k in r <==> first <= k < first + count
  {
    if count == 0 then {} else Fresh(first, count - 1) + {first + count - 1}
  }

  predicate Reservable(s: State, count: nat) {
    count >= 1 && |s.pool| + count <= MAX_IN_FLIGHT
  }

  // Take slots and start the native work that holds them.
  function Begin(s: State, d: nat, count: nat, ids: set<Id>, work: Work): State {
    s.(pool := s.pool + Fresh(s.next, count),
       batches := s.batches[s.next := Batch(Fresh(s.next, count), d, work)],
       next := s.next + count,
       inFlight := s.inFlight + ids)
  }

  // Release the slots of settled native work, whatever became of its document.
  function Release(s: State, k: nat): State
    requires k in s.batches
  {
    s.(pool := s.pool - s.batches[k].owners, batches := s.batches - {k})
  }

  function Uncancel(s: State, id: Id): State { s.(cancelled := s.cancelled - {id}) }

  function Land(s: State, id: Id): State { s.(inFlight := s.inFlight - {id}) }

  function WithDoc(s: State, d: Doc): State { s.(active := Some(d)) }

  /********** Document lifecycle **********/

  function Reset(s: State): State {
    s.(generation := s.generation + 1, active := None, queue := [], prompt := None, cancelled := {},
       watches := map[], notices := map[], inFlight := {})
  }

  function HandleConnect(s: State, client: Client, id: Id): State {
    var s1 := Reset(s);
    var d := Doc(client, s1.generation, {}, 0, map[id := Connect], [id]);
    var s2 := WithDoc(s1.(connects := s.connects + 1), d);
    Answer(s2, d.generation, id, Ok, NoReason)
  }

  function HandleDisconnect(s: State, client: Client): State {
    if s.active.Some? && s.active.value.client == client && Live(s, s.active.value.generation) then Reset(s) else s
  }

  function HandleGarbled(s: State, client: Client, id: Id): State {
    if s.active.Some? && s.active.value.client == client
    then Answer(s, s.active.value.generation, id, Failed, MalformedRequest)
    else s
  }

  function FrameLoaded(s: State): State {
    var s1 := s.(handledConnects := s.connects);
    if s.active.Some? && s.connects > s.handledConnects && Live(s, s.active.value.generation) then s1 else Reset(s1)
  }

  function Revoke(s: State): State { Reset(s.(handledConnects := s.connects)) }

  /********** Notifications **********/

  function DeleteReservation(s: State, id: Id, k: nat): State {
    if id in s.notices && s.notices[id].Worker? && s.notices[id].reservation == k then s.(notices := s.notices - {id})
      else s
  }

  // The `finally` of showNotification.
  function FinishShow(s: State, k: nat): State
    requires k in s.batches && s.batches[k].work.Showing?
  {
    var s1 := Release(s, k);
    if Live(s, s.batches[k].doc) then Land(s1, s.batches[k].work.id) else s1
  }

  function Suspend(s: State, k: nat, phase: Phase, registered: bool): State
    requires k in s.batches && s.batches[k].work.Showing?
  {
    var b := s.batches[k];
    s.(batches := s.batches[k := b.(work := Showing(b.work.id, phase, registered))])
  }

  // Display in the foreground, or hand over to the service worker.
  function Display(s: State, k: nat, registered: bool, env: Env): State
    requires k in s.batches && s.batches[k].work.Showing?
  {
    var d, id := s.batches[k].doc, s.batches[k].work.id;
    if !Live(s, d) then FinishShow(s, k)
    else if id in s.cancelled then FinishShow(Uncancel(s, id), k)
    else if Size(s.notices) >= MAX_NOTIFICATIONS then
      FinishShow(Respond(s, d, id, Failed, Silent, Some(id), TooManyNotifications), k)
    else
      var reserved := s.(notices := s.notices[id := Worker(k, d, true)]);
      if id in env.constructed then
        FinishShow(Respond(reserved.(notices := reserved.notices[id := Native(k, d)]), d, id, Ok, Silent, Some(id),
                           NoReason), k)
      else if !env.worker then
        FinishShow(Respond(DeleteReservation(reserved, id, k), d, id, Failed, Silent, Some(id), Protocol.Unavailable),
                   k)
      else Suspend(reserved, k, if registered then Displaying else FindFallback, registered)
  }

  function ShowNotification(s: State, d: nat, id: Id, env: Env): State {
    if !env.nativeGranted then Respond(s, d, id, Denied, Silent, Some(id), Refused)
    else if |s.inFlight| >= MAX_IN_FLIGHT || !Reservable(s, 1) then
      Respond(s, d, id, Failed, Silent, Some(id), TooManyOperations)
    else
      var s1 := Begin(s, d, 1, {id}, Showing(id, FindWorker, false));
      if Size(s.notices) >= MAX_NOTIFICATIONS && env.worker then s1 else Display(s1, s.next, false, env)
  }

  // Completed worker notifications of this document.
  predicate Reconcilable(s: State, d: nat, id: Id) {
    id in s.notices && s.notices[id].Worker? && s.notices[id].doc == d && !s.notices[id].pending
  }

  // Release worker notifications that are no longer displayed and report them closed.
  function Reconcile(s: State, d: nat, vanished: seq<Id>): (r: State)
    ensures r == s.(notices := r.notices, posts := r.posts)
    decreases |vanished|
  {
    if vanished == [] || !Live(s, d) then s
    else
      var id := vanished[0];
      var s1 := if Reconcilable(s, d, id)
                then Respond(s.(notices := s.notices - {id}), d, id, Ok, Closed, Some(id), NoReason)
                else s;
      Reconcile(s1, d, vanished[1..])
  }

  // The outer `catch` once a reservation exists.
  function CatchShow(s: State, k: nat): State
    requires k in s.batches && s.batches[k].work.Showing?
  {
    var d, id := s.batches[k].doc, s.batches[k].work.id;
    if !Live(s, d) then FinishShow(DeleteReservation(s, id, k), k)
    else if id in s.cancelled then FinishShow(DeleteReservation(Uncancel(s, id), id, k), k)
    else FinishShow(Respond(DeleteReservation(s, id, k), d, id, Failed, Errored, Some(id), NativeFailure), k)
  }

  // The lookup made when every notification slot is taken.
  function ResumeFindWorker(s: State, k: nat, env: Env): State
    requires k in s.batches && s.batches[k].work.Showing?
  {
    var d, id := s.batches[k].doc, s.batches[k].work.id;
    if env.failed then Display(s, k, false, env)
    else if !Live(s, d) then FinishShow(s, k)
    else if id in s.cancelled then FinishShow(Uncancel(s, id), k)
    else if env.found then Suspend(s, k, FirstReconcile, true)
    else Display(s, k, false, env)
  }

  function ResumeFirstReconcile(s: State, k: nat, env: Env): State
    requires k in s.batches && s.batches[k].work.Showing?
  {
    Display(if env.failed then s else Reconcile(s, s.batches[k].doc, env.vanished), k, true, env)
  }

  function ResumeFindFallback(s: State, k: nat, env: Env): State
    requires k in s.batches && s.batches[k].work.Showing?
  {
    var d, id := s.batches[k].doc, s.batches[k].work.id;
    if env.failed then CatchShow(s, k)
    else if !Live(s, d) then FinishShow(DeleteReservation(s, id, k), k)
    else if id in s.cancelled then FinishShow(DeleteReservation(Uncancel(s, id), id, k), k)
    else if !env.found then
      FinishShow(Respond(DeleteReservation(s, id, k), d, id, Failed, Silent, Some(id), Protocol.Unavailable), k)
    else Suspend(s, k, Displaying, s.batches[k].work.registered)
  }

  function ResumeDisplaying(s: State, k: nat, env: Env): State
    requires k in s.batches && s.batches[k].work.Showing?
  {
    var d, id, registered := s.batches[k].doc, s.batches[k].work.id, s.batches[k].work.registered;
    if env.failed then CatchShow(s, k)
    else if !Live(s, d) then Suspend(s, k, Withdrawing, registered)
    else if id in s.cancelled then Suspend(Uncancel(s, id), k, Withdrawing, registered)
    else Suspend(s, k, LastReconcile, registered)
  }

  function ResumeWithdrawing(s: State, k: nat, env: Env): State
    requires k in s.batches && s.batches[k].work.Showing?
  {
    if env.failed then CatchShow(s, k) else FinishShow(DeleteReservation(s, s.batches[k].work.id, k), k)
  }

  function ResumeLastReconcile(s: State, k: nat, env: Env): State
    requires k in s.batches && s.batches[k].work.Showing?
  {
    var d, id := s.batches[k].doc, s.batches[k].work.id;
    var s1 := if env.failed then s else Reconcile(s, d, env.vanished);
    if !Live(s1, d) then FinishShow(DeleteReservation(s1, id, k), k)
    else if id in s1.cancelled then FinishShow(DeleteReservation(Uncancel(s1, id), id, k), k)
    else if !(id in s1.notices && s1.notices[id] == Worker(k, d, true)) then FinishShow(s1, k)
    else
      FinishShow(Respond(s1.(notices := s1.notices[id := Worker(k, d, false)]), d, id, Ok, Shown, Some(id), NoReason),
                 k)
  }

  function ResumeShow(s: State, k: nat, env: Env): State
    requires k in s.batches && s.batches[k].work.Showing?
  {
    match s.batches[k].work.phase
    case FindWorker => ResumeFindWorker(s, k, env)
    case FirstReconcile => ResumeFirstReconcile(s, k, env)
    case FindFallback => ResumeFindFallback(s, k, env)
    case Displaying => ResumeDisplaying(s, k, env)
    case Withdrawing => ResumeWithdrawing(s, k, env)
    case LastReconcile => ResumeLastReconcile(s, k, env)
  }

  // A foreground notification's own events; ownership is checked by identity.
  function NoticeEvent(s: State, id: Id, handle: nat, event: Event): State {
    if !(id in s.notices && s.notices[id].Native? && s.notices[id].handle == handle) then s
    else
      var d := s.notices[id].doc;
      match event
      case Shown => Respond(s, d, id, Ok, Shown, Some(id), NoReason)
      case Clicked => Respond(s, d, id, Ok, Clicked, Some(id), NoReason)
      case Closed => Respond(s.(notices := s.notices - {id}), d, id, Ok, Closed, Some(id), NoReason)
      case Errored => Respond(s.(notices := s.notices - {id}), d, id, Failed, Errored, Some(id), NativeFailure)
      case Silent => s
  }

  /********** Location **********/

  function ExecuteGeolocation(s: State, d: nat, id: Id, op: Op, env: Env): State {
    if !env.provider then Answer(s, d, id, Failed, Protocol.Unavailable)
    else if op == LocationGet then
      if |s.inFlight| >= MAX_IN_FLIGHT || !Reservable(s, 1) then Answer(s, d, id, Failed, TooManyOperations)
      else if id in env.throwing then Answer(s, d, id, Failed, NativeFailure)
      else Begin(s, d, 1, {id}, Locating(id))
    else if Size(s.watches) >= MAX_WATCHES then Answer(s, d, id, Failed, TooManyWatches)
    else if id in env.throwing then Answer(s, d, id, Failed, NativeFailure)
    else s.(watches := s.watches[id := Watch(s.next, d)], next := s.next + 1)
  }

  datatype Fix = Position | NoPosition | PermissionDenied

  function SettleLocation(s: State, k: nat, fix: Fix): State
    requires k in s.batches && s.batches[k].work.Locating?
  {
    var d, id := s.batches[k].doc, s.batches[k].work.id;
    var s1 := Release(s, k);
    if !Live(s, d) then s1
    else
      var s2 := Land(s1, id);
      if id in s.cancelled then Uncancel(s2, id)
      else
        match fix
        case Position => Answer(s2, d, id, Ok, NoReason)
        case NoPosition => Answer(s2, d, id, Failed, NativeFailure)
        case PermissionDenied => Answer(s2, d, id, Denied, NativeFailure)
  }

  // `d` is the document whose callback this is.
  function WatchEvent(s: State, id: Id, d: nat, fix: Fix): State {
    if !(id in s.watches && s.watches[id].doc == d) then s
    else
      match fix
      case Position => Respond(s, d, id, Ok, Silent, Some(id), NoReason)
      case NoPosition => Respond(s, d, id, Failed, Silent, Some(id), NativeFailure)
      case PermissionDenied =>
        Respond(s.(watches := s.watches - {id}), d, id, Denied, Silent, Some(id), NativeFailure)
  }

  /********** Granted work **********/

  function Begun(s: State, d: nat, cap: Capability, id: Id): State { s.(runs := s.runs + [Run(d, cap, id)]) }

  function ExecuteGranted(s: State, d: nat, id: Id, op: Op, env: Env): State {
    if !Live(s, d) || id in s.cancelled then s
    else
      match op
      case LocationGet => ExecuteGeolocation(Begun(s, d, Geolocation, id), d, id, op, env)
      case LocationWatch => ExecuteGeolocation(Begun(s, d, Geolocation, id), d, id, op, env)
      case NotificationPermission => Answer(Begun(s, d, Notifications, id), d, id, Ok, NoReason)
      case NotificationShow => ShowNotification(Begun(s, d, Notifications, id), d, id, env)
      case _ => Answer(s, d, id, Failed, NativeFailure)
  }

  function ExecuteAll(s: State, items: seq<Queued>, env: Env): State
    decreases |items|
  {
    if items == [] then s
    else ExecuteAll(ExecuteGranted(s, items[0].doc, items[0].id, items[0].op, env), items[1..], env)
  }

  /********** Clipboard **********/

  predicate Allowed(s: State, cap: Capability) { s.active.Some? && cap !in s.active.value.denied }

  function ExecuteClipboard(s: State, d: nat, id: Id, op: Op, mode: Mode, token: Option<Grants.Token>,
                            env: Env): State {
    var cap := CapabilityOf(op);
    if cap.None? || !IsClipboard(cap.value) || !Live(s, d) || id in s.cancelled then s
    else if !Allowed(s, cap.value) || id !in env.current then Answer(s, d, id, Denied, ApprovalChanged)
    else if |s.inFlight| >= MAX_IN_FLIGHT || !Reservable(s, 1) then Answer(s, d, id, Failed, TooManyOperations)
    else Begin(Begun(s, d, cap.value, id), d, 1, {id}, Clipping(id, cap.value, mode, token))
  }

  function ExecuteSiblings(s: State, items: seq<Queued>, token: Option<Grants.Token>, env: Env): State
    decreases |items|
  {
    if items == [] then s
    else ExecuteSiblings(ExecuteClipboard(s, items[0].doc, items[0].id, items[0].op, Saved, token, env), items[1..],
                         token, env)
  }

  // What follows a native clipboard call of the live document.
  function ClipboardOutcome(s: State, d: nat, w: Work, env: Env): State
    requires w.Clipping?
  {
    if !Allowed(s, w.cap) || !env.currentBefore then Answer(s, d, w.id, Denied, ApprovalChanged)
    else if env.failed then Answer(s, d, w.id, Failed, NativeFailure)
    else if !env.currentAfter then Answer(s, d, w.id, Denied, ApprovalChanged)
    else
      var s1 := Answer(s, d, w.id, Ok, NoReason);
      if w.mode == Always && w.token.Some? && env.stored && env.activated then
        var siblings := Matching(s1.queue, d, w.cap);
        Advance(ExecuteSiblings(s1.(queue := Without(s1.queue, siblings)), siblings, w.token, env))
      else Advance(s1)
  }

  function SettleClipboard(s: State, k: nat, env: Env): State
    requires k in s.batches && s.batches[k].work.Clipping?
  {
    var d, w := s.batches[k].doc, s.batches[k].work;
    var s1 := Release(s, k);
    if !Live(s, d) then s1
    else
      var s2 := Land(s1, w.id);
      if w.id in s.cancelled then Uncancel(s2, w.id) else ClipboardOutcome(s2, d, w, env)
  }

  /********** Consent **********/

  function RequestCapability(s: State, d: nat, id: Id, op: Op, cap: Capability, env: Env): State {
    if !Allowed(s, cap) then Answer(s, d, id, Denied, Refused)
    else if IsClipboard(cap) && env.saved.Some? && env.activated
         then ExecuteClipboard(s, d, id, op, Saved, env.saved, env)
    else if !IsClipboard(cap) && env.saved.Some? && (cap != Notifications || env.nativeGranted) then
      ExecuteGranted(s, d, id, op, env)
    else if |s.queue| >= MAX_PENDING then Answer(s, d, id, Failed, TooManyPending)
    else Advance(s.(queue := s.queue + [Queued(d, cap, id, op)]))
  }

  function AnswerAll(s: State, items: seq<Queued>, status: Status, reason: Reason): (r: State)
    ensures r == s.(posts := r.posts)
    decreases |items|
  {
    if items == [] then s
    else AnswerAll(Answer(s, items[0].doc, items[0].id, status, reason), items[1..], status, reason)
  }

  function Ids(items: seq<Queued>): set<Id> { set i | 0 <= i < |items| :: items[i].id }

  function ResolveNotificationConsent(s: State, mode: Mode, current: Queued, revision: nat, token: Option<Grants.Token>,
                                      env: Env): State {
    var d := current.doc;
    if !Live(s, d) || current.cap != Notifications then Advance(s)
    else
      var selected := if mode == Always && token.Some? then Matching(s.queue, d, current.cap) else [current];
      var s1 := s.(queue := Without(s.queue, selected));
      if |s.inFlight| + |selected| > MAX_IN_FLIGHT || !Reservable(s, |selected|) then
        Advance(AnswerAll(s1, selected, Failed, TooManyOperations))
      else if env.promptThrows then AnswerAll(Advance(s1), selected, Failed, NativeFailure)
      else Advance(Begin(s1, d, |selected|, Ids(selected), Consenting(mode, current, selected, revision, token)))
  }

  // The answer of the native prompt, and what the storage says about the choice it was asked under.
  datatype Verdict = Verdict(status: Status, saved: bool, currentChoice: bool)

  function SettleItem(s: State, mode: Mode, current: Queued, item: Queued, v: Verdict, env: Env): State {
    var s1 := Land(s, item.id);
    if item.id in s.cancelled then Uncancel(s1, item.id)
    else if !Allowed(s, item.cap) then Answer(s1, item.doc, item.id, Denied, Refused)
    else if !v.currentChoice then
      if item.op == NotificationPermission then Answer(s1, item.doc, item.id, Ok, NoReason)
      else Respond(s1, item.doc, item.id, Denied, Silent, Some(item.id), ApprovalChanged)
    else if v.status == Failed then Answer(s1, item.doc, item.id, Failed, NativeFailure)
    else if mode == Always && v.status == Ok && !v.saved && item != current then s1.(queue := s1.queue + [item])
    else if item.op == NotificationPermission then Answer(s1, item.doc, item.id, Ok, NoReason)
    else if v.status == Ok then ExecuteGranted(s1, item.doc, item.id, item.op, env)
    else Answer(s1, item.doc, item.id, Denied, Refused)
  }

  function SettleItems(s: State, mode: Mode, current: Queued, items: seq<Queued>, v: Verdict, env: Env): State
    decreases |items|
  {
    if items == [] then s
    else SettleItems(SettleItem(s, mode, current, items[0], v, env), mode, current, items[1..], v, env)
  }

  predicate SomeUncancelled(s: State, items: seq<Queued>) {
    exists i :: 0 <= i < |items| && items[i].id !in s.cancelled
  }

  // `status` is the prompt's answer: granted, denied (or dismissed), or a rejected promise.
  function SettleConsent(s: State, k: nat, status: Status, dismissed: bool, env: Env): State
    requires k in s.batches && s.batches[k].work.Consenting?
  {
    var d, w := s.batches[k].doc, s.batches[k].work;
    var s1 := Release(s, k);
    if !Live(s, d) then s1
    else
      var doc := s.active.value;
      var uncancelled := SomeUncancelled(s, w.items);
      var before := doc.revision == w.revision && env.currentBefore;
      var saved := w.mode == Always && w.token.Some? && status == Ok && before && Allowed(s, Notifications)
        && uncancelled && env.stored;
      var currentChoice := before && env.currentAfter;
      var s2 := if w.mode == Always && w.token.Some? && status == Denied && !dismissed && currentChoice && uncancelled
                then WithDoc(s1, doc.(denied := doc.denied + {Notifications}))
                else s1;
      Advance(SettleItems(s2, w.mode, w.current, w.items, Verdict(status, saved, currentChoice), env))
  }

  /********** The parent's buttons **********/

  function Allow(s: State, mode: Mode, env: Env): State {
    if s.queue == [] || !Live(s, s.queue[0].doc) then Advance(s)
    else
      var current := s.queue[0];
      var doc := s.active.value;
      var s1 := if current.cap == Notifications then WithDoc(s, doc.(revision := doc.revision + 1)) else s;
      if env.choice.Superseded? || (env.choice.Ready? && !env.choice.cleared)
        || (env.choice.Unavailable? && !env.choice.empty) then s1
      else
        var token := if env.choice.Ready? then Some(env.choice.token) else None;
        if IsClipboard(current.cap) then
          Advance(ExecuteClipboard(s1.(queue := Without(s1.queue, [current])), current.doc, current.id, current.op,
                                   mode, token, env))
        else if current.cap == Notifications then
          ResolveNotificationConsent(s1, mode, current, doc.revision + 1, token, env)
        else
          var selected := if mode == Always && token.Some? && env.stored
            then Matching(s1.queue, current.doc, current.cap) else [current];
          Advance(ExecuteAll(s1.(queue := Without(s1.queue, selected)), selected, env))
  }

  function Deny(s: State): State {
    if s.queue == [] || !Live(s, s.queue[0].doc) then Advance(s)
    else
      var current := s.queue[0];
      var doc := s.active.value;
      var s1 := WithDoc(s, doc.(denied := doc.denied + {current.cap},
                                revision := if current.cap == Notifications then doc.revision + 1 else doc.revision));
      var denied := Matching(s1.queue, current.doc, current.cap);
      Advance(AnswerAll(s1.(queue := Without(s1.queue, denied)), denied, Denied, Refused))
  }

  /********** Cancelling requests **********/

  function ClearLocation(s: State, doc: Doc, id: Id, target: Id): State {
    var d := doc.generation;
    var known := target in doc.requests && Cancels(LocationClear, doc.requests[target]);
    if !known || !(Waiting(s, d, target, Geolocation) || target in s.inFlight || target in s.watches) then
      Respond(s, d, id, Failed, Silent, Some(target), UnknownTarget)
    else
      var s1 := s.(watches := s.watches - {target},
                   cancelled := if target in s.inFlight && doc.requests[target] == LocationGet
                     then s.cancelled + {target} else s.cancelled,
                   queue := Discard(s.queue, d, target));
      Respond(Advance(s1), d, id, Ok, Silent, Some(target), NoReason)
  }

  function CloseNotification(s: State, doc: Doc, id: Id, target: Id): State {
    var d := doc.generation;
    var known := target in doc.requests && Cancels(NotificationClose, doc.requests[target]);
    if !known || !(Waiting(s, d, target, Notifications) || target in s.inFlight || target in s.notices) then
      Respond(s, d, id, Failed, Silent, Some(target), UnknownTarget)
    else
      var s1 := if doc.requests[target] == NotificationShow
        then Respond(s, d, target, Ok, Closed, Some(target), NoReason) else s;
      var pending := target in s.notices && s.notices[target].Worker? && s.notices[target].pending;
      var s2 := s1.(cancelled := if target in s.inFlight || pending then s.cancelled + {target} else s.cancelled,
                    notices := s.notices - {target},
                    queue := Discard(s.queue, d, target));
      Respond(Advance(s2), d, id, Ok, Silent, Some(target), NoReason)
  }

  function CancelClipboard(s: State, doc: Doc, id: Id, target: Id): State {
    var d := doc.generation;
    var known := target in doc.requests && Cancels(ClipboardCancel, doc.requests[target]);
    var queued := exists i :: 0 <= i < |s.queue| && s.queue[i].doc == d && s.queue[i].id == target;
    if !known || !(queued || target in s.inFlight) then Answer(s, d, id, Failed, UnknownTarget)
    else
      var s1 := s.(cancelled := if target in s.inFlight then s.cancelled + {target} else s.cancelled,
                   queue := Discard(s.queue, d, target));
      Answer(Advance(s1), d, id, Ok, NoReason)
  }

  /********** Requests **********/

  // Ids that still own a queue entry, a watch, a notification, a slot or a cancellation.
  predicate Owned(s: State, x: Id) {
    x in Ids(s.queue) || x in s.watches || x in s.notices || x in s.inFlight || x in s.cancelled
  }

  function Protected(s: State): set<Id> {
    Ids(s.queue) + s.watches.Keys + s.notices.Keys + s.inFlight + s.cancelled
  }

  // The oldest remembered request that is neither the connection nor an owner.
  function Oldest(doc: Doc, owners: set<Id>, i: nat): Option<nat>
    requires i <= |doc.order|
    decreases |doc.order| - i
  {
    if i == |doc.order| then None
    else
      var id := doc.order[i];
      if (id in doc.requests && doc.requests[id] == Connect) || id in owners then Oldest(doc, owners, i + 1)
        else Some(i)
  }

  function Prune(doc: Doc, owners: set<Id>): Doc {
    if Size(doc.requests) < MAX_REMEMBERED then doc
    else
      match Oldest(doc, owners, 0)
      case None => doc
      case Some(i) =>
        if i < |doc.order| then
          doc.(requests := doc.requests - {doc.order[i]}, order := doc.order[..i] + doc.order[i + 1..])
        else doc
  }

  function Dispatch(s: State, doc: Doc, id: Id, op: Op, target: Id, env: Env): State {
    match op
    case LocationClear => ClearLocation(s, doc, id, target)
    case NotificationClose => CloseNotification(s, doc, id, target)
    case ClipboardCancel => CancelClipboard(s, doc, id, target)
    case Connect => s
    case _ => RequestCapability(s, doc.generation, id, op, CapabilityOf(op).value, env)
  }

  function Remember(doc: Doc, id: Id, op: Op): Doc {
    doc.(requests := doc.requests[id := op], order := doc.order + [id])
  }

  function HandleRequest(s: State, client: Client, id: Id, op: Op, target: Id, env: Env): State {
    if s.active.None? || s.active.value.client != client || !Live(s, s.active.value.generation) then
      s.(posts := s.posts + [Response(client, id, Failed, Silent, None, UnknownDocument)])
    else
      var doc := s.active.value;
      if id in doc.requests then Answer(s, doc.generation, id, Failed, DuplicateRequest)
      else
        var pruned := Prune(doc, Protected(s));
        if Size(pruned.requests) >= MAX_REMEMBERED then
          Answer(WithDoc(s, pruned), doc.generation, id, Failed, TooManyActive)
        else
          var doc' := Remember(pruned, id, op);
          Dispatch(WithDoc(s, doc'), doc', id, op, target, env)
  }

  // A message from the managed frame; messages from an unmanaged frame are ignored.
  function HandleMessage(s: State, m: Message, env: Env): State {
    if !s.managed then s
    else
      match m
      case Disconnect(client) => HandleDisconnect(s, client)
      case Garbled(client, id) => HandleGarbled(s, client, id)
      case Request(client, id, op, target) =>
        if op == Connect then HandleConnect(s, client, id) else HandleRequest(s, client, id, op, target, env)
  }

  /********** Steps **********/

  datatype Action =
    | Receive(message: Message)
    | ClickAllow(mode: Mode)
    | ClickDeny
    | LocationSettles(batch: nat, fix: Fix)
    | ClipboardSettles(batch: nat)
    | PromptSettles(batch: nat, status: Status, dismissed: bool)
    | ShowResumes(batch: nat)
    | WatchFires(id: Id, doc: nat, fix: Fix)
    | NoticeFires(id: Id, handle: nat, event: Event)
    | Load
    | Navigate
    | Manage(managed: bool)
    | ReserveElsewhere(count: nat)
    | ReleaseElsewhere(batch: nat)

  predicate Enabled(s: State, a: Action) {
    match a
    case ClickAllow(mode) => mode != Saved
    case LocationSettles(k, fix) => k in s.batches && s.batches[k].work.Locating?
    case ClipboardSettles(k) => k in s.batches && s.batches[k].work.Clipping?
    case PromptSettles(k, status, dismissed) => k in s.batches && s.batches[k].work.Consenting?
    case ShowResumes(k) => k in s.batches && s.batches[k].work.Showing?
    case ReleaseElsewhere(k) => k in s.batches && s.batches[k].work.Elsewhere?
    case _ => true
  }

  function Next(s: State, a: Action, env: Env): State
    requires Enabled(s, a)
  {
    match a
    case Receive(m) => HandleMessage(s, m, env)
    case ClickAllow(mode) => Allow(s, mode, env)
    case ClickDeny => Deny(s)
    case LocationSettles(k, fix) => SettleLocation(s, k, fix)
    case ClipboardSettles(k) => SettleClipboard(s, k, env)
    case PromptSettles(k, status, dismissed) => SettleConsent(s, k, status, dismissed, env)
    case ShowResumes(k) => ResumeShow(s, k, env)
    case WatchFires(id, d, fix) => WatchEvent(s, id, d, fix)
    case NoticeFires(id, handle, event) => NoticeEvent(s, id, handle, event)
    case Load => FrameLoaded(s)
    case Navigate => Revoke(s)
    case Manage(managed) => s.(managed := managed)
    case ReserveElsewhere(count) => if Reservable(s, count) then Begin(s, 0, count, {}, Elsewhere) else s
    case ReleaseElsewhere(k) => Release(s, k)
  }
}
