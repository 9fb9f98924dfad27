/**
 The request messages: every message that the shim can post (apps/server/src/project-browser-permissions.ts)
 is accepted by the parent's parser (apps/web/src/browser-permissions.tsx) with the same operation and payload.
 */
module Messages {
  import opened Wrappers
  import opened Protocol
  import opened Wire

  /********** Identifiers and operations **********/

  predicate Hex(c: char) { '0' <= c <= '9' || 'a' <= c <= 'f' || 'A' <= c <= 'F' }

  // A version 1 to 8 identifier in its canonical form.
  predicate Uuid(s: string) {
    && |s| == 36
    && (forall i :: 0 <= i < 36 ==> if i == 8 || i == 13 || i == 18 || i == 23 then s[i] == '-' else Hex(s[i]))
    && '1' <= s[14] <= '8' && s[19] in {'8', '9', 'a', 'b', 'A', 'B'}
  }

  predicate IsUuid(v: Value) { v.Text? && Uuid(v.text) }

  function Name(op: Op): string {
    match op
    case Connect => "connect"
    case LocationGet => "geolocation-get"
    case LocationWatch => "geolocation-watch"
    case LocationClear => "geolocation-clear"
    case NotificationPermission => "notification-permission"
    case NotificationShow => "notification-show"
    case NotificationClose => "notification-close"
    case ReadText => "clipboard-read-text"
    case WriteText => "clipboard-write-text"
    case ReadItems => "clipboard-read"
    case WriteItems => "clipboard-write"
    case ClipboardCancel => "clipboard-cancel"
  }

  const OPERATIONS := [Connect, LocationGet, LocationWatch, LocationClear, NotificationPermission, NotificationShow,
                       NotificationClose, ReadText, WriteText, ReadItems, WriteItems, ClipboardCancel]

  function Named(name: string, among: seq<Op>): Option<Op> {
    if among == [] then None else if Name(among[0]) == name then Some(among[0]) else Named(name, among[1..])
  }

  lemma NamesDiffer(a: Op, b: Op)
    requires Name(a) == Name(b)
    ensures a == b
  {
  }

  lemma {:induction false} NamedFinds(op: Op, among: seq<Op>)
    requires op in among
    ensures Named(Name(op), among) == Some(op)
  {
    if among[0] == op {
    } else {
      if Name(among[0]) == Name(op) { NamesDiffer(among[0], op); }
      NamedFinds(op, among[1..]);
    }
  }

  /********** Parsed requests **********/

  datatype LocationOptions = LocationOptions(highAccuracy: bool, timeout: real, maximumAge: real)

  datatype NoticeOptions = NoticeOptions(body: Option<string>, tag: Option<string>, silent: Option<bool>,
                                         requireInteraction: Option<bool>)

  datatype Payload =
    | Bare
    | Locate(options: LocationOptions)
    | Target(id: string)
    | Show(title: string, notice: NoticeOptions)
    | Copy(text: string)
    | CopyItems(items: seq<Item>)

  datatype Parsed = Parsed(clientId: string, id: string, op: Op, payload: Payload)

  const REQUEST_KEYS := {"type", "clientId", "id", "operation", "options", "watchId", "notificationId", "title",
                         "text", "items", "requestId"}

  const MAX_TIMEOUT := 60_000.0
  const MAX_AGE := 86_400_000.0

  // Null and absent options take their defaults; other types are refused.
  function OrDefault(v: Value, name: string, default: Value): Value {
    var w := Get(v, name);
    if w == Undefined || w == Null then default else w
  }

  predicate Duration(v: Value, maximum: real) { v.Numeric? && v.number.Finite? && 0.0 <= v.number.value <= maximum }

  function ParseLocation(v: Value): Option<LocationOptions> {
    if v == Undefined then Some(LocationOptions(false, 30_000.0, 0.0))
    else if !IsRecord(v) || !HasOnlyKeys(v, {"enableHighAccuracy", "timeout", "maximumAge"}) then None
    else
      var high := OrDefault(v, "enableHighAccuracy", Boolean(false));
      var timeout := OrDefault(v, "timeout", Numeric(Finite(30_000.0)));
      var age := OrDefault(v, "maximumAge", Numeric(Finite(0.0)));
      if !high.Boolean? || !Duration(timeout, MAX_TIMEOUT) || !Duration(age, MAX_AGE) then None
      else Some(LocationOptions(high.value, timeout.number.value, age.number.value))
  }

  predicate BoundedText(v: Value, maximum: nat) { v == Undefined || (v.Text? && |v.text| <= maximum) }

  predicate Flag(v: Value) { v == Undefined || v.Boolean? }

  function TextOf(v: Value): Option<string> { if v.Text? then Some(v.text) else None }

  function FlagOf(v: Value): Option<bool> { if v.Boolean? then Some(v.value) else None }

  function ParseNotice(v: Value): Option<NoticeOptions> {
    if v == Undefined then Some(NoticeOptions(None, None, None, None))
    else if !IsRecord(v) || !HasOnlyKeys(v, {"body", "tag", "silent", "requireInteraction"}) then None
    else if !BoundedText(Get(v, "body"), 2_000) || !BoundedText(Get(v, "tag"), 128)
            || !Flag(Get(v, "silent")) || !Flag(Get(v, "requireInteraction")) then None
    else Some(NoticeOptions(TextOf(Get(v, "body")), TextOf(Get(v, "tag")), FlagOf(Get(v, "silent")),
                            FlagOf(Get(v, "requireInteraction"))))
  }

  predicate ValidText(v: Value) { v.Text? && |v.text| <= MAX_TEXT }

  // Fields that only other operations may carry.
  predicate Absent(v: Value, names: seq<string>) { forall n :: n in names ==> Get(v, n) == Undefined }

  function ParsePayload(v: Value, op: Op): Option<Payload> {
    if (CapabilityOf(op).Some? && IsClipboard(CapabilityOf(op).value)) || op == ClipboardCancel then
      if !Absent(v, ["options", "watchId", "notificationId", "title"]) then None
      else if op == ClipboardCancel then
        if IsUuid(Get(v, "requestId")) && Absent(v, ["text", "items"]) then Some(Target(Get(v, "requestId").text))
          else None
      else if Get(v, "requestId") != Undefined then None
      else if op == WriteText then
        if ValidText(Get(v, "text")) && Absent(v, ["items"]) then Some(Copy(Get(v, "text").text)) else None
      else if op == WriteItems then
        if ItemsOk(Get(v, "items"), 1) && Absent(v, ["text"]) then Some(CopyItems(ItemsOf(Get(v, "items").elements)))
          else None
      else if Absent(v, ["text", "items"]) then Some(Bare) else None
    else if !Absent(v, ["text", "items", "requestId"]) then None
    else
      match op
      case Connect => if Absent(v, ["options", "watchId", "notificationId", "title"]) then Some(Bare) else None
      case LocationGet => ParseLookup(v)
      case LocationWatch => ParseLookup(v)
      case LocationClear =>
        if IsUuid(Get(v, "watchId")) && Absent(v, ["options", "notificationId", "title"])
          then Some(Target(Get(v, "watchId").text)) else None
      case NotificationPermission => if Absent(v, ["options", "watchId", "notificationId", "title"]) then Some(Bare)
        else None
      case NotificationShow =>
        var notice := ParseNotice(Get(v, "options"));
        var title := Get(v, "title");
        if !title.Text? || |title.text| > 200 || notice.None? || !Absent(v, ["watchId", "notificationId"]) then None
        else Some(Show(title.text, notice.value))
      case NotificationClose =>
        if IsUuid(Get(v, "notificationId")) && Absent(v, ["options", "watchId", "title"])
          then Some(Target(Get(v, "notificationId").text)) else None
      case _ => None
  }

  function ParseLookup(v: Value): Option<Payload> {
    var options := ParseLocation(Get(v, "options"));
    if options.None? || !Absent(v, ["watchId", "notificationId", "title"]) then None else Some(Locate(options.value))
  }

  /** The parent's parser. */
  function ParseRequest(v: Value): Option<Parsed> {
    if !IsRecord(v) || !HasOnlyKeys(v, REQUEST_KEYS) || Get(v, "type") != Text("rac-browser-permission-request")
       || !IsUuid(Get(v, "clientId")) || !IsUuid(Get(v, "id")) || !Get(v, "operation").Text? then None
    else
      match Named(Get(v, "operation").text, OPERATIONS)
      case None => None
      case Some(op) =>
        match ParsePayload(v, op)
        case None => None
        case Some(payload) => Some(Parsed(Get(v, "clientId").text, Get(v, "id").text, op, payload))
  }

  /********** The shim's messages **********/

  // A finite number within its bounds; everything else takes the default.
  function BoundedNumber(v: Value, default: real, maximum: real): (r: real)
    requires 0.0 <= default <= maximum
    ensures 0.0 <= r <= maximum
  {
    if v.Numeric? && v.number.Finite? then
      var low := if v.number.value < 0.0 then 0.0 else v.number.value;
      if low > maximum then maximum else low
    else default
  }

  // What the application passed, read without trusting accessors; an array has no such fields.
  function OptionValue(options: Value, name: string): Value { Get(options, name) }

  function NormalLocation(options: Value): LocationOptions {
    LocationOptions(OptionValue(options, "enableHighAccuracy") == Boolean(true),
                    BoundedNumber(OptionValue(options, "timeout"), 30_000.0, MAX_TIMEOUT),
                    BoundedNumber(OptionValue(options, "maximumAge"), 0.0, MAX_AGE))
  }

  // The string conversion of a value, cut to its bound; None when it is absent or cannot be converted.
  function LimitedText(text: Option<string>, maximum: nat): (r: string)
    ensures |r| <= maximum
  {
    if text.None? then "" else if |text.value| <= maximum then text.value else text.value[..maximum]
  }

  function NormalNotice(body: Option<string>, tag: Option<string>, options: Value): NoticeOptions {
    NoticeOptions(Some(LimitedText(body, 2_000)), Some(LimitedText(tag, 128)),
                  Some(OptionValue(options, "silent") == Boolean(true)),
                  Some(OptionValue(options, "requireInteraction") == Boolean(true)))
  }

  function LocationValue(o: LocationOptions): Value {
    Record(map["enableHighAccuracy" := Boolean(o.highAccuracy), "timeout" := Numeric(Finite(o.timeout)),
               "maximumAge" := Numeric(Finite(o.maximumAge))])
  }

  function NoticeValue(o: NoticeOptions): Value
    requires o.body.Some? && o.tag.Some? && o.silent.Some? && o.requireInteraction.Some?
  {
    Record(map["body" := Text(o.body.value), "tag" := Text(o.tag.value),
               "requireInteraction" := Boolean(o.requireInteraction.value),
               "silent" := Boolean(o.silent.value)])
  }

  // What an operation of the shim posts, from what its caller passed.
  datatype Post =
    | PostConnect
    | PostGet(options: Value)
    | PostWatch(options: Value)
    | PostClear(target: string)
    | PostPermission
    | PostShow(title: Option<string>, body: Option<string>, tag: Option<string>, options: Value)
    | PostClose(target: string)
    | PostReadText
    | PostWriteText(text: string)
    | PostReadItems
    | PostWriteItems(items: seq<Item>)
    | PostCancel(target: string)

  // What the shim made sure of before it posts.
  predicate Checked(p: Post) {
    match p
    case PostClear(target) => Uuid(target)
    case PostClose(target) => Uuid(target)
    case PostCancel(target) => Uuid(target)
    case PostWriteText(text) => |text| <= MAX_TEXT
    case PostWriteItems(items) => Sendable(items) && 1 <= |items|
    case _ => true
  }

  function OpOf(p: Post): Op {
    match p
    case PostConnect => Connect
    case PostGet(_) => LocationGet
    case PostWatch(_) => LocationWatch
    case PostClear(_) => LocationClear
    case PostPermission => NotificationPermission
    case PostShow(_, _, _, _) => NotificationShow
    case PostClose(_) => NotificationClose
    case PostReadText => ReadText
    case PostWriteText(_) => WriteText
    case PostReadItems => ReadItems
    case PostWriteItems(_) => WriteItems
    case PostCancel(_) => ClipboardCancel
  }

  function PayloadOf(p: Post): Payload {
    match p
    case PostGet(options) => Locate(NormalLocation(options))
    case PostWatch(options) => Locate(NormalLocation(options))
    case PostClear(target) => Target(target)
    case PostShow(title, body, tag, options) => Show(LimitedText(title, 200), NormalNotice(body, tag, options))
    case PostClose(target) => Target(target)
    case PostWriteText(text) => Copy(text)
    case PostWriteItems(items) => CopyItems(items)
    case PostCancel(target) => Target(target)
    case _ => Bare
  }

  function Fields(p: Post): map<string, Value> {
    match p
    case PostGet(options) => map["options" := LocationValue(NormalLocation(options))]
    case PostWatch(options) => map["options" := LocationValue(NormalLocation(options))]
    case PostClear(target) => map["watchId" := Text(target)]
    case PostShow(title, body, tag, options) =>
      map["title" := Text(LimitedText(title, 200)), "options" := NoticeValue(NormalNotice(body, tag, options))]
    case PostClose(target) => map["notificationId" := Text(target)]
    case PostWriteText(text) => map["text" := Text(text)]
    case PostWriteItems(items) => map["items" := ItemValues(items)]
    case PostCancel(target) => map["requestId" := Text(target)]
    case _ => map[]
  }

  // The posted message.
  function Build(clientId: string, id: string, p: Post): Value {
    Record(map["type" := Text("rac-browser-permission-request"), "clientId" := Text(clientId), "id" := Text(id),
               "operation" := Text(Name(OpOf(p)))] + Fields(p))
  }

  /********** Round trip **********/

  lemma LocationRoundTrip(options: Value)
    ensures ParseLocation(LocationValue(NormalLocation(options))) == Some(NormalLocation(options))
  {
    var o := NormalLocation(options);
    var v := LocationValue(o);
    assert Get(v, "enableHighAccuracy") == Boolean(o.highAccuracy);
    assert Get(v, "timeout") == Numeric(Finite(o.timeout));
    assert Get(v, "maximumAge") == Numeric(Finite(o.maximumAge));
  }

  lemma NoticeRoundTrip(body: Option<string>, tag: Option<string>, options: Value)
    ensures ParseNotice(NoticeValue(NormalNotice(body, tag, options))) == Some(NormalNotice(body, tag, options))
  {
    var o := NormalNotice(body, tag, options);
    var v := NoticeValue(o);
    assert Get(v, "body") == Text(o.body.value) && Get(v, "tag") == Text(o.tag.value);
    assert Get(v, "silent") == Boolean(o.silent.value)
           && Get(v, "requireInteraction") == Boolean(o.requireInteraction.value);
  }

  // A field of the message is the envelope's or the operation's own.
  lemma FieldOf(clientId: string, id: string, p: Post, name: string)
    ensures name in Fields(p) ==> Get(Build(clientId, id, p), name) == Fields(p)[name]
    ensures name !in Fields(p) && name !in {"type", "clientId", "id", "operation"}
            ==> Get(Build(clientId, id, p), name) == Undefined
  {
  }

  lemma Envelope(clientId: string, id: string, p: Post)
    ensures var v := Build(clientId, id, p);
            && Get(v, "type") == Text("rac-browser-permission-request") && Get(v, "clientId") == Text(clientId)
            && Get(v, "id") == Text(id)
            && Get(v, "operation") == Text(Name(OpOf(p))) && HasOnlyKeys(v, REQUEST_KEYS) && IsRecord(v)
  {
    var envelope := map["type" := Text("rac-browser-permission-request"), "clientId" := Text(clientId),
                        "id" := Text(id), "operation" := Text(Name(OpOf(p)))];
    FieldNames(p);
    assert Build(clientId, id, p).fields.Keys == envelope.Keys + Fields(p).Keys;
    assert envelope.Keys == {"type", "clientId", "id", "operation"};
  }

  lemma FieldNames(p: Post)
    ensures Fields(p).Keys <= {"options", "watchId", "notificationId", "title", "text", "items", "requestId"}
  {
  }

  lemma PayloadFields(clientId: string, id: string, p: Post)
    ensures Carries(Build(clientId, id, p), Fields(p))
  {
    forall n | n in ["options", "watchId", "notificationId", "title", "text", "items", "requestId"]
      ensures Get(Build(clientId, id, p), n) == if n in Fields(p) then Fields(p)[n] else Undefined
    {
      FieldOf(clientId, id, p, n);
    }
  }

  // The fields of the message are those of its operation and nothing else.
  ghost predicate Carries(v: Value, fields: map<string, Value>) {
    forall n :: n in ["options", "watchId", "notificationId", "title", "text", "items", "requestId"] ==>
      Get(v, n) == if n in fields then fields[n] else Undefined
  }

  lemma BareRoundTrip(v: Value, op: Op)
    requires Carries(v, map[]) && (op == Connect || op == NotificationPermission || op == ReadText || op == ReadItems)
    ensures ParsePayload(v, op) == Some(Bare)
  {
  }

  lemma TargetRoundTrip(v: Value, op: Op, field: string, target: string)
    requires Carries(v, map[field := Text(target)]) && Uuid(target)
    requires (op == LocationClear && field == "watchId") || (op == NotificationClose && field == "notificationId")
             || (op == ClipboardCancel && field == "requestId")
    ensures ParsePayload(v, op) == Some(Target(target))
  {
  }

  lemma LookupRoundTrip(v: Value, op: Op, options: Value)
    requires Carries(v, map["options" := LocationValue(NormalLocation(options))])
    requires (op == LocationGet || op == LocationWatch)
    ensures ParsePayload(v, op) == Some(Locate(NormalLocation(options)))
  {
    LocationRoundTrip(options);
    assert Get(v, "options") == LocationValue(NormalLocation(options));
  }

  lemma ShowRoundTrip(v: Value, title: string, body: Option<string>, tag: Option<string>, options: Value)
    requires |title| <= 200
    requires Carries(v, map["title" := Text(title), "options" := NoticeValue(NormalNotice(body, tag, options))])
    ensures ParsePayload(v, NotificationShow) == Some(Show(title, NormalNotice(body, tag, options)))
  {
    hide ParseNotice, NoticeValue;
    NoticeRoundTrip(body, tag, options);
    assert Get(v, "options") == NoticeValue(NormalNotice(body, tag, options)) && Get(v, "title") == Text(title);
  }

  lemma TextRoundTrip(v: Value, text: string)
    requires |text| <= MAX_TEXT && Carries(v, map["text" := Text(text)])
    ensures ParsePayload(v, WriteText) == Some(Copy(text))
  {
    assert Get(v, "text") == Text(text);
  }

  lemma RichRoundTrip(v: Value, items: seq<Item>)
    requires Sendable(items) && 1 <= |items| && Carries(v, map["items" := ItemValues(items)])
    ensures ParsePayload(v, WriteItems) == Some(CopyItems(items))
  {
    hide ItemsOk, ItemsOf, ItemValues, Sendable;
    ItemsRoundTrip(items, 1);
    assert Get(v, "items") == ItemValues(items);
  }

  lemma PayloadRoundTrip(clientId: string, id: string, p: Post)
    requires Checked(p)
    ensures ParsePayload(Build(clientId, id, p), OpOf(p)) == Some(PayloadOf(p))
  {
    var v := Build(clientId, id, p);
    PayloadFields(clientId, id, p);
    match p
    case PostConnect => BareRoundTrip(v, Connect);
    case PostGet(options) => LookupRoundTrip(v, LocationGet, options);
    case PostWatch(options) => LookupRoundTrip(v, LocationWatch, options);
    case PostClear(target) => TargetRoundTrip(v, LocationClear, "watchId", target);
    case PostPermission => BareRoundTrip(v, NotificationPermission);
    case PostShow(title, body, tag, options) => ShowRoundTrip(v, LimitedText(title, 200), body, tag, options);
    case PostClose(target) => TargetRoundTrip(v, NotificationClose, "notificationId", target);
    case PostReadText => BareRoundTrip(v, ReadText);
    case PostWriteText(text) => TextRoundTrip(v, text);
    case PostReadItems => BareRoundTrip(v, ReadItems);
    case PostWriteItems(items) => RichRoundTrip(v, items);
    case PostCancel(target) => TargetRoundTrip(v, ClipboardCancel, "requestId", target);
  }

  /** Every message of the shim is accepted by the parent, with the same operation and payload. */
  lemma RequestRoundTrip(clientId: string, id: string, p: Post)
    requires Uuid(clientId) && Uuid(id) && Checked(p)
    ensures ParseRequest(Build(clientId, id, p)) == Some(Parsed(clientId, id, OpOf(p), PayloadOf(p)))
  {
    Envelope(clientId, id, p);
    assert OpOf(p) in OPERATIONS;
    NamedFinds(OpOf(p), OPERATIONS);
    PayloadRoundTrip(clientId, id, p);
  }

  /** A payload never changes hands: what the parser accepts carries no field of another operation. */
  lemma NothingHitchhikes(v: Value)
    requires ParseRequest(v).Some?
    ensures var op := ParseRequest(v).value.op;
            && (Get(v, "text") != Undefined ==> op == WriteText) && (Get(v, "items") != Undefined ==> op == WriteItems)
            && (Get(v, "requestId") != Undefined ==> op == ClipboardCancel)
            && (Get(v, "watchId") != Undefined ==> op == LocationClear)
            && (Get(v, "notificationId") != Undefined ==> op == NotificationClose)
            && (Get(v, "title") != Undefined ==> op == NotificationShow)
            && (Get(v, "options") != Undefined ==> op == LocationGet || op == LocationWatch || op == NotificationShow)
  {
  }

  // A payload of the operation's own kind, within all bounds.
  ghost predicate Bounded(op: Op, p: Payload) {
    match p
    case Bare => op == Connect || op == NotificationPermission || op == ReadText || op == ReadItems
    case Locate(o) =>
      (op == LocationGet || op == LocationWatch) && 0.0 <= o.timeout <= MAX_TIMEOUT && 0.0 <= o.maximumAge <= MAX_AGE
    case Target(id) => (op == LocationClear || op == NotificationClose || op == ClipboardCancel) && Uuid(id)
    case Show(title, n) =>
      && op == NotificationShow && |title| <= 200
      && (n.body.Some? ==> |n.body.value| <= 2_000) && (n.tag.Some? ==> |n.tag.value| <= 128)
    case Copy(text) => op == WriteText && |text| <= MAX_TEXT
    case CopyItems(items) => op == WriteItems && 1 <= |items| && Sendable(items)
  }

  lemma LocationIsBounded(v: Value)
    ensures var o := ParseLocation(v);
            o.Some? ==> 0.0 <= o.value.timeout <= MAX_TIMEOUT && 0.0 <= o.value.maximumAge <= MAX_AGE
  {
  }

  lemma NoticeIsBounded(v: Value)
    ensures var n := ParseNotice(v);
            n.Some? ==> && (n.value.body.Some? ==> |n.value.body.value| <= 2_000)
                        && (n.value.tag.Some? ==> |n.value.tag.value| <= 128)
  {
  }

  lemma PayloadIsBounded(v: Value, op: Op)
    requires ParsePayload(v, op).Some?
    ensures Bounded(op, ParsePayload(v, op).value)
  {
    hide ParseLocation, ParseNotice, ItemsOk, Sendable, Uuid;
    LocationIsBounded(Get(v, "options"));
    NoticeIsBounded(Get(v, "options"));
    if op == WriteItems && ItemsOk(Get(v, "items"), 1) { ParsedIsSendable(Get(v, "items"), 1); }
  }

  /** Whatever an arbitrary preview posts, what the parser lets through names a session and a request by identifiers,
      and carries a payload of its operation's kind within all bounds. */
  lemma ParsedIsBounded(v: Value)
    requires ParseRequest(v).Some?
    ensures var r := ParseRequest(v).value; Uuid(r.clientId) && Uuid(r.id) && Bounded(r.op, r.payload)
  {
    hide ParsePayload, Bounded, Uuid;
    var op := Named(Get(v, "operation").text, OPERATIONS);
    if op.Some? && ParsePayload(v, op.value).Some? { PayloadIsBounded(v, op.value); }
  }

  /********** Optional options **********/

  // The fields that are there and not null.
  function Given(fields: map<string, Value>): map<string, Value> {
    map k | k in fields && fields[k] != Null && fields[k] != Undefined :: fields[k]
  }

  predicate OnlyFields(fields: map<string, Value>, names: set<string>) { fields.Keys <= names }

  lemma GivenReads(fields: map<string, Value>, name: string, default: Value)
    requires default != Undefined && default != Null
    ensures OrDefault(Record(fields), name, default) == OrDefault(Record(Given(fields)), name, default)
  {
  }

  /** Location options that are absent, undefined or null read as if they were left out, and none as an empty record. */
  lemma AbsentLocationOptions(fields: map<string, Value>)
    requires OnlyFields(fields, {"enableHighAccuracy", "timeout", "maximumAge"})
    ensures ParseLocation(Record(fields)) == ParseLocation(Record(Given(fields)))
    ensures ParseLocation(Undefined) == ParseLocation(Record(map[])) == Some(LocationOptions(false, 30_000.0, 0.0))
  {
    GivenReads(fields, "enableHighAccuracy", Boolean(false));
    GivenReads(fields, "timeout", Numeric(Finite(30_000.0)));
    GivenReads(fields, "maximumAge", Numeric(Finite(0.0)));
  }

  /** Notification options that are undefined read as if they were left out, and none as an empty record. */
  lemma AbsentNoticeOptions(fields: map<string, Value>)
    requires OnlyFields(fields, {"body", "tag", "silent", "requireInteraction"})
    ensures (forall k :: k in fields ==> fields[k] != Null) ==>
              ParseNotice(Record(fields)) == ParseNotice(Record(Given(fields)))
    ensures ParseNotice(Undefined) == ParseNotice(Record(map[])) == Some(NoticeOptions(None, None, None, None))
  {
  }
}
