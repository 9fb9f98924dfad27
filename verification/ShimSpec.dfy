/**
 The preview shim's state and steps as functions (apps/server/src/project-browser-permissions.ts).

 One step runs from a browser callback, or from the return of an application callback, to the next call of
 application code. Application code may call every function of the shim again while it runs, so the two
 places that continue after an application callback keep what is left to do in `frame`. The class in
 Shim.dfy runs the same steps on mutable fields.
 */
module ShimSpec {
  import opened Wrappers
  import opened Protocol

  const MAX_OPERATIONS := 32
  const MAX_CONSENT := 16
  const MAX_WATCHING := 8
  const LAST_WATCH_ID := 2147483647

  /********** State **********/

  // One retained request. Whether its deadline is armed and whether it was posted change over its life.
  datatype Entry = Entry(id: Id, op: Op, target: Id, watchId: nat, awaiting: bool, timer: bool, posted: bool)

  datatype Permission = Default | Granted | Blocked

  // What is left to do when the running application callback returns.
  datatype Frame =
    | Idle
    | FinishDisconnect(rest: seq<Entry>)
    | FinishNotification(id: Id)

  datatype State = State(
    clientId: Client,
    next: nat,                  // fresh identifiers
    pending: seq<Entry>,        // in insertion order
    notifications: set<Id>,
    built: set<Id>,             // notification objects that exist
    closed: set<Id>,            // those whose close() ran
    disconnected: bool,
    hidden: bool,
    permission: Permission,
    nextWatchId: nat,
    writing: set<Id>,           // rich writes whose data is still being read
    mute: bool,                 // postMessage throws
    frame: Frame,
    out: seq<Message>,          // everything posted to the parent
    started: seq<Id>,           // every lookup and promise begun in this document
    settled: seq<Id>)           // every lookup and promise completed, in order

  // The frame before its first page.
  const BLANK := State(0, 1, [], {}, {}, {}, false, false, Default, 1, {}, false, Idle, [], [], [])

  predicate IsCopy(op: Op) { op == ReadText || op == WriteText || op == ReadItems || op == WriteItems }

  /********** The pending table **********/

  function Find(p: seq<Entry>, id: Id): (r: Option<Entry>)
    ensures r.Some? ==> r.value in p && r.value.id == id
    ensures r.None? ==> forall e :: e in p ==> e.id != id
  {
    if p == [] then None else if p[0].id == id then Some(p[0]) else Find(p[1..], id)
  }

  function Remove(p: seq<Entry>, id: Id): (r: seq<Entry>)
    ensures forall e :: e in r <==> e in p && e.id != id
  {
    if p == [] then [] else if p[0].id == id then Remove(p[1..], id) else [p[0]] + Remove(p[1..], id)
  }

  // Change the entry of one request in place.
  function Change(p: seq<Entry>, id: Id, acknowledged: bool): seq<Entry> {
    if p == [] then []
    else
      [if p[0].id != id then p[0]
       else if acknowledged then p[0].(awaiting := false, timer := false)
       else p[0].(posted := true)] + Change(p[1..], id, acknowledged)
  }

  function Awaiting(p: seq<Entry>): nat {
    if p == [] then 0 else (if p[0].awaiting then 1 else 0) + Awaiting(p[1..])
  }

  function Watches(p: seq<Entry>): nat {
    if p == [] then 0 else (if p[0].op == LocationWatch then 1 else 0) + Watches(p[1..])
  }

  // The first watch under a numeric id that the application may hold.
  function FindWatch(p: seq<Entry>, watchId: nat): (r: Option<Entry>)
    ensures r.Some? ==> r.value in p && r.value.op == LocationWatch && r.value.watchId == watchId
  {
    if p == [] then None else if p[0].op == LocationWatch && p[0].watchId == watchId then Some(p[0])
      else FindWatch(p[1..], watchId)
  }

  /********** Posting and settling **********/

  function Post(s: State, op: Op, id: Id, target: Id): State {
    if s.mute then s else s.(out := s.out + [Request(s.clientId, id, op, target)])
  }

  // Tell the parent to forget a request; nobody waits for the answer.
  function Cancel(s: State, op: Op, target: Id): State {
    Post(s.(next := s.next + 1), op, s.next, target)
  }

  function CancelOf(op: Op): Op {
    if op == LocationGet || op == LocationWatch then LocationClear
    else if IsCopy(op) then ClipboardCancel
    else NotificationClose
  }

  function Settle(s: State, id: Id): State { s.(settled := s.settled + [id]) }

  function Sever(s: State): State {
    if s.disconnected then s
    else s.(disconnected := true, pending := [], frame := FinishDisconnect(s.pending))
  }

  function Drop(s: State, id: Id): State { s.(pending := Remove(s.pending, id)) }

  function Forget(s: State, id: Id): State { s.(notifications := s.notifications - {id}) }

  // An entry's own `fail`. The caller has taken the entry out of the table.
  function Fail(s: State, e: Entry, cancel: bool): State {
    match e.op
    case Connect => Sever(s)
    case LocationGet => Settle(if cancel then Cancel(s, LocationClear, e.id) else s, e.id)
    case LocationWatch => if cancel then Cancel(s, LocationClear, e.id) else s
    case LocationClear => s
    case NotificationPermission =>
      if e.id in s.settled then s else Settle(if cancel then Cancel(s, NotificationClose, e.id) else s, e.id)
    case NotificationShow => Forget(if cancel then Cancel(s, NotificationClose, e.id) else s, e.id)
    case NotificationClose => Forget(Drop(s, e.target), e.target)
    case ClipboardCancel => s
    case _ =>
      if e.id in s.settled then s else Settle(if cancel && e.posted then Cancel(s, ClipboardCancel, e.id) else s, e.id)
  }

  predicate Full(s: State, awaiting: bool) {
    |s.pending| >= MAX_OPERATIONS || (awaiting && Awaiting(s.pending) >= MAX_CONSENT)
  }

  // Register, arm the deadline and post; or fail at once.
  function StartRequest(s: State, e: Entry): State {
    if s.disconnected || Full(s, e.awaiting) || s.mute then Fail(s, e, false)
    else Post(s.(pending := s.pending + [e]), e.op, e.id, e.target)
  }

  // Register and arm the deadline of a rich write before its data is read.
  function Reserve(s: State, e: Entry): State {
    if s.disconnected || Full(s, true) then Fail(s, e, false)
    else s.(pending := s.pending + [e], writing := s.writing + {e.id})
  }

  function Begun(s: State, op: Op, target: Id, watchId: nat, awaiting: bool, posted: bool): (State, Entry) {
    (s.(next := s.next + 1, started := if OneShot(op) then s.started + [s.next] else s.started),
     Entry(s.next, op, target, watchId, awaiting, true, posted))
  }

  function Start(s: State, op: Op, target: Id, watchId: nat): State {
    var (s1, e) := Begun(s, op, target, watchId, CapabilityOf(op).Some?, true);
    StartRequest(s1, e)
  }

  /********** What the application calls **********/

  datatype Call =
    | GetCurrentPosition
    | WatchPosition
    | ClearWatch(watchId: nat)
    | RequestPermission
    | NewNotification
    | CloseNotification(id: Id)
    | CallReadText
    | CallWriteText
    | CallReadItems
    | CallWriteItems

  function StartWatch(s: State): State {
    var s1 := s.(next := s.next + 1, nextWatchId := if s.nextWatchId >= LAST_WATCH_ID then 1 else s.nextWatchId + 1);
    if Watches(s.pending) >= MAX_WATCHING then s1
    else StartRequest(s1, Entry(s.next, LocationWatch, 0, s.nextWatchId, true, true, true))
  }

  function StopWatch(s: State, watchId: nat): State {
    match FindWatch(s.pending, watchId)
    case None => s
    case Some(e) => Start(Drop(s, e.id), LocationClear, e.id, 0)
  }

  function BuildNotification(s: State): State {
    if s.permission != Granted || Full(s, true) then s
    else
      var s1 := s.(notifications := s.notifications + {s.next}, built := s.built + {s.next});
      Start(s1, NotificationShow, 0, 0)
  }

  function CloseBuilt(s: State, id: Id): State {
    if id !in s.built || id in s.closed then s
    else Start(s.(closed := s.closed + {id}), NotificationClose, id, 0)
  }

  function ReserveWrite(s: State): State {
    var (s1, e) := Begun(s, WriteItems, 0, 0, true, false);
    Reserve(s1, e)
  }

  function Invoke(s: State, call: Call): State {
    match call
    case GetCurrentPosition => Start(s, LocationGet, 0, 0)
    case WatchPosition => StartWatch(s)
    case ClearWatch(watchId) => StopWatch(s, watchId)
    case RequestPermission => Start(s, NotificationPermission, 0, 0)
    case NewNotification => BuildNotification(s)
    case CloseNotification(id) => CloseBuilt(s, id)
    case CallReadText => Start(s, ReadText, 0, 0)
    case CallWriteText => Start(s, WriteText, 0, 0)
    case CallReadItems => Start(s, ReadItems, 0, 0)
    case CallWriteItems => ReserveWrite(s)
  }

  /********** What the browser calls **********/

  // How far the payload of a response is what the entry expects.
  datatype Detail = Detail(fit: bool, terminal: bool, permission: Option<Permission>)

  function Acknowledge(s: State, id: Id): State { s.(pending := Change(s.pending, id, true)) }

  function HandleLookup(s: State, e: Entry, r: Response, d: Detail): State {
    if r.status == Denied || d.fit then Settle(Drop(s, e.id), e.id) else s
  }

  function HandleWatch(s: State, e: Entry, r: Response, d: Detail): State {
    if r.about.Some? && r.about.value != e.id then s
    else if r.status == Denied then Drop(s, e.id)
    else if !d.fit then s
    else if r.status == Failed && d.terminal then Drop(s, e.id)
    else Acknowledge(s, e.id)
  }

  function HandlePermission(s: State, e: Entry, r: Response, d: Detail): State {
    if r.status == Denied then Settle(Drop(s.(permission := Blocked), e.id), e.id)
    else if r.status == Failed then Settle(Drop(s, e.id), e.id)
    else if d.permission.None? then s
    else Settle(Drop(s.(permission := d.permission.value), e.id), e.id)
  }

  // The close and error events run application code before the entry goes.
  function HandleShow(s: State, e: Entry, r: Response): State {
    if r.about.Some? && r.about.value != e.id then s
    else if r.status != Ok then Forget(Drop(s, e.id), e.id)
    else if r.event == Closed || r.event == Errored then Acknowledge(s, e.id).(frame := FinishNotification(e.id))
    else Acknowledge(s, e.id)
  }

  function HandleClose(s: State, e: Entry, r: Response): State {
    if r.about.Some? && r.about.value != e.target then s
    else
      var s1 := Drop(s, e.id);
      if r.status == Ok then s1 else Forget(Drop(s1, e.target), e.target)
  }

  function HandleCopy(s: State, e: Entry, r: Response, d: Detail): State {
    if !d.fit then s else Settle(Drop(s, e.id), e.id)
  }

  function HandleConnect(s: State, e: Entry, r: Response, d: Detail): State {
    var s1 := Drop(s, e.id);
    if r.status != Ok then Sever(s1)
    else if d.permission.Some? then s1.(permission := d.permission.value) else s1
  }

  function Handle(s: State, e: Entry, r: Response, d: Detail): State {
    match e.op
    case Connect => HandleConnect(s, e, r, d)
    case LocationGet => HandleLookup(s, e, r, d)
    case LocationWatch => HandleWatch(s, e, r, d)
    case LocationClear => Drop(s, e.id)
    case NotificationPermission => HandlePermission(s, e, r, d)
    case NotificationShow => HandleShow(s, e, r)
    case NotificationClose => HandleClose(s, e, r)
    case ClipboardCancel => s
    case _ => HandleCopy(s, e, r, d)
  }

  function Receive(s: State, r: Response, d: Detail): State {
    if r.client != s.clientId then s
    else
      match Find(s.pending, r.id)
      case None => s
      case Some(e) => Handle(s, e, r, d)
  }

  function Expire(s: State, id: Id): State {
    match Find(s.pending, id)
    case None => s
    case Some(e) => if !e.timer then s else Fail(Drop(s, id), e, true)
  }

  function PageHide(s: State): State {
    var s1 := s.(hidden := true, next := s.next + 1);
    Sever(if s.mute then s1 else s1.(out := s1.out + [Protocol.Disconnect(s.clientId)]))
  }

  function PageShow(s: State): State {
    if !s.hidden then s
    else
      Start(s.(clientId := s.next, next := s.next + 1, permission := Default, disconnected := false, hidden := false,
               nextWatchId := 1, pending := [], notifications := {}), Connect, 0, 0)
  }

  // A new page in the same frame: nothing of the old one is left but what it already posted.
  function Boot(s: State): State {
    Start(State(s.next, s.next + 1, [], {}, {}, {}, false, false, Default, 1, {}, s.mute, Idle, s.out, [], []),
          Connect, 0, 0)
  }

  // The last read of a rich write's data: all of it fits, or something does not.
  function Materialize(s: State, id: Id, fits: bool, cloneable: bool): State {
    if id !in s.writing then s
    else
      var s1 := s.(writing := s.writing - {id});
      match Find(s.pending, id)
      case None => s1
      case Some(e) =>
        if !fits then Settle(Drop(s1, id), id)
        else if s.mute || !cloneable then Fail(Drop(s1, id), e, false)
        else Post(s1.(pending := Change(s1.pending, id, false)), WriteItems, id, 0)
  }

  // The application callback returns.
  function Return(s: State): State {
    match s.frame
    case Idle => s
    case FinishNotification(id) => Forget(Drop(s.(frame := Idle), id), id)
    case FinishDisconnect(rest) =>
      if rest == [] then s.(frame := Idle, notifications := {})
      else Fail(s.(frame := FinishDisconnect(rest[1..])), rest[0], true)
  }

  /********** Steps **********/

  datatype Action =
    | Call(call: Call)
    | Returns
    | Hears(response: Response, detail: Detail)
    | Expires(id: Id)
    | Hides
    | Shows
    | Materializes(id: Id, fits: bool, cloneable: bool)
    | Mutes(gone: bool)           // from here on postMessage throws, or no longer does

  // Browser events wait for the application code that is running.
  predicate Enabled(s: State, a: Action) {
    match a
    case Call(call) => true
    case Returns => s.frame != Idle
    case Mutes(gone) => true
    case _ => s.frame == Idle
  }

  function Next(s: State, a: Action): State {
    match a
    case Call(call) => Invoke(s, call)
    case Returns => Return(s)
    case Hears(r, d) => Receive(s, r, d)
    case Expires(id) => Expire(s, id)
    case Hides => PageHide(s)
    case Shows => PageShow(s)
    case Materializes(id, fits, cloneable) => Materialize(s, id, fits, cloneable)
    case Mutes(gone) => s.(mute := gone)
  }
}
