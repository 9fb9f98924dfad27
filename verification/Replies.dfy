/**
 Successful clipboard replies: what the parent makes of a native result (apps/web/src/browser-clipboard.ts),
 and what the parsers of the shim take from it (apps/server/src/project-browser-permissions.ts).
 */
module Replies {
  import opened Wrappers
  import opened Wire

  // What `performClipboard` resolves to.
  datatype Payload = TextRead(text: string) | ItemsRead(items: seq<Item>) | Written

  function PayloadFields(p: Payload): map<string, Value> {
    match p
    case TextRead(text) => map["text" := Value.Text(text)]
    case ItemsRead(items) => map["items" := ItemValues(items)]
    case Written => map[]
  }

  // The message that the parent posts.
  function ReplyValue(clientId: string, id: string, p: Payload): Value {
    Record(map["type" := Value.Text("rac-browser-permission-response"), "clientId" := Value.Text(clientId),
               "id" := Value.Text(id), "status" := Value.Text("ok")] + PayloadFields(p))
  }

  lemma ReplyNames(clientId: string, id: string, p: Payload, name: string)
    requires name == "text" || name == "items" || name == "error"
    ensures Get(ReplyValue(clientId, id, p), name) == if name in PayloadFields(p) then PayloadFields(p)[name]
              else Undefined
  {
    assert name[0] == 't' || name[0] == 'i' || name[0] == 'e';
    assert "type"[1] == 'y' && "text"[1] == 'e' && |"id"| == 2 && |"items"| == 5 && |"error"| == 5;
    assert "clientId"[0] == 'c' && "status"[0] == 's';
  }

  /********** The parsers of the shim **********/

  function ShimText(response: Value): Option<string> {
    if !Get(response, "text").Text? || |Get(response, "text").text| > MAX_TEXT
       || Get(response, "items") != Undefined || Get(response, "error") != Undefined
    then None
    else Some(Get(response, "text").text)
  }

  predicate ShimDone(response: Value) {
    Get(response, "text") == Undefined && Get(response, "items") == Undefined && Get(response, "error") == Undefined
  }

  predicate CarriesItems(response: Value) {
    && ItemsOk(Get(response, "items"), 0)
    && Get(response, "text") == Undefined && Get(response, "error") == Undefined
  }

  method ShimItems(response: Value) returns (r: Option<seq<Item>>)
    ensures r.Some? <==> CarriesItems(response)
    ensures r.Some? ==> r.value == ItemsOf(Get(response, "items").elements)
  {
    if Get(response, "text") != Undefined || Get(response, "error") != Undefined { return None; }
    r := ShimParse(Get(response, "items"));
  }

  /********** Through both sides **********/

  // Items that a validator accepts come out of their values as they went in.
  lemma ValuesBack(items: seq<Item>)
    requires ItemsOk(ItemValues(items), 0)
    ensures ItemsOf(ItemValues(items).elements) == items
  {
    var vs := ItemValues(items).elements;
    forall k | 0 <= k < |items| ensures ItemOk(vs[k]) && ItemOf(vs[k]) == items[k] {
      assert vs[k] in vs;
      assert ItemOf(vs[k]).representations == items[k].representations;
    }
  }

  /** A rich read: whatever the native clipboard holds, the parent refuses it or the page gets exactly those items. */
  method ReadThrough(clientId: string, id: string,
                     natives: seq<Native>) returns (sent: Option<seq<Item>>, received: Option<seq<Item>>)
    requires forall n :: n in natives ==> NativeOk(n)
    ensures received == sent
    ensures sent.Some? ==> |sent.value| == |natives|
                           && forall k :: 0 <= k < |natives| ==>
                              NativeOk(natives[k]) && sent.value[k] == CopiedItem(natives[k])
  {
    sent := PerformRead(natives);
    if sent.None? { return None, None; }
    ReplyNames(clientId, id, ItemsRead(sent.value), "text");
    ReplyNames(clientId, id, ItemsRead(sent.value), "items");
    ReplyNames(clientId, id, ItemsRead(sent.value), "error");
    received := ShimItems(ReplyValue(clientId, id, ItemsRead(sent.value)));
    ValuesBack(sent.value);
  }

  // The parent's read of plain text.
  function PerformText(native: string): Option<string> { if |native| <= MAX_TEXT then Some(native) else None }

  /** A text read reaches the page unchanged exactly when it is short enough, and otherwise fails in the parent. */
  lemma TextThrough(clientId: string, id: string, native: string)
    ensures PerformText(native).Some?
            ==> ShimText(ReplyValue(clientId, id, TextRead(PerformText(native).value))) == Some(native)
    ensures ShimText(ReplyValue(clientId, id, TextRead(native))) == PerformText(native)
  {
    ReplyNames(clientId, id, TextRead(native), "text");
    ReplyNames(clientId, id, TextRead(native), "items");
    ReplyNames(clientId, id, TextRead(native), "error");
  }

  /** No parser of the shim takes another operation's reply for its own. */
  lemma RepliesAreTold(clientId: string, id: string, p: Payload)
    ensures var v := ReplyValue(clientId, id, p);
            && (ShimDone(v) <==> p == Written)
            && (ShimText(v).Some? ==> p.TextRead?)
            && (Get(v, "text") == Undefined && ItemsOk(Get(v, "items"), 0) ==> p.ItemsRead?)
  {
    ReplyNames(clientId, id, p, "text");
    ReplyNames(clientId, id, p, "items");
    ReplyNames(clientId, id, p, "error");
  }
}
