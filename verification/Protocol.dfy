/**
 The message protocol between the preview shim and the parent broker: operations, capabilities,
 requests and responses, with identifiers abstracted to numbers.
 */
module Protocol {
  import opened Wrappers

  type Id = nat       // one request nonce
  type Client = nat   // one document nonce

  datatype Capability = Geolocation | Notifications | ClipboardRead | ClipboardWrite

  datatype Op =
    | Connect
    | LocationGet | LocationWatch | LocationClear
    | NotificationPermission | NotificationShow | NotificationClose
    | ReadText | WriteText | ReadItems | WriteItems | ClipboardCancel

  // The capability that an operation needs consent for.
  function CapabilityOf(op: Op): Option<Capability> {
    match op
    case LocationGet => Some(Geolocation)
    case LocationWatch => Some(Geolocation)
    case NotificationPermission => Some(Notifications)
    case NotificationShow => Some(Notifications)
    case ReadText => Some(ClipboardRead)
    case ReadItems => Some(ClipboardRead)
    case WriteText => Some(ClipboardWrite)
    case WriteItems => Some(ClipboardWrite)
    case _ => None
  }

  predicate IsClipboard(cap: Capability) { cap == ClipboardRead || cap == ClipboardWrite }

  // A location lookup or a promise: the application is told its outcome once.
  predicate OneShot(op: Op) {
    op == LocationGet || op == NotificationPermission || op == ReadText || op == WriteText || op == ReadItems
      || op == WriteItems
  }

  predicate IsCancel(op: Op) { op == LocationClear || op == NotificationClose || op == ClipboardCancel }

  // The operations that each cancelling operation may name.
  predicate Cancels(cancel: Op, op: Op) {
    match cancel
    case LocationClear => op == LocationGet || op == LocationWatch
    case NotificationClose => op == NotificationPermission || op == NotificationShow
    case ClipboardCancel => op == ReadText || op == ReadItems || op == WriteText || op == WriteItems
    case _ => false
  }

  // `target` is the watchId, notificationId or requestId of a cancelling operation.
  datatype Message =
    | Request(client: Client, id: Id, op: Op, target: Id)
    | Disconnect(client: Client)
    | Garbled(client: Client, id: Id)  // enough of an envelope to answer, but no valid request

  datatype Status = Ok | Denied | Failed

  datatype Event = Silent | Shown | Clicked | Closed | Errored

  // The message text of an error response.
  datatype Reason =
    | NoReason | MalformedRequest | UnknownDocument | DuplicateRequest | TooManyActive | TooManyPending
    | TooManyOperations | TooManyWatches | TooManyNotifications | UnknownTarget | Refused | ApprovalChanged
    | Unavailable | NativeFailure

  datatype Response = Response(client: Client, id: Id, status: Status, event: Event, about: Option<Id>, reason: Reason)
}
