/**
 The two sides of the permission messages: what the shim builds (apps/server/src/project-browser-permissions.ts),
 what the parent parses (apps/web/src/browser-permissions.tsx and browser-clipboard.ts), and the clipboard
 items that each side checks with its own nested validator.

 A JavaScript value is what a structured clone can carry. A string is a sequence of code units. A finite
 number is a real.
 */
module Wire {
  import opened Wrappers
  import opened Protocol

  datatype Number = Finite(value: real) | NotFinite

  datatype Blob = Blob(mime: string, size: nat)

  datatype Value =
    | Undefined
    | Null
    | Boolean(value: bool)
    | Numeric(number: Number)
    | Text(text: string)
    | List(elements: seq<Value>)
    | Record(fields: map<string, Value>)
    | Binary(blob: Blob)

  // A property; an absent one reads as undefined, and a blob has none of those asked for here.
  function Get(v: Value, name: string): Value { if v.Record? && name in v.fields then v.fields[name] else Undefined }

  // An object that is no array. A blob is one, without enumerable fields.
  predicate IsRecord(v: Value) { v.Record? || v.Binary? }

  predicate HasOnlyKeys(v: Value, allowed: set<string>) { v.Record? ==> v.fields.Keys <= allowed }

  /********** Clipboard items **********/

  const MAX_TEXT := 1_048_576
  const MAX_ITEMS := 4
  const MAX_TYPES := 8
  const MAX_TYPE_LENGTH := 128
  const MAX_BYTES := 4 * 1024 * 1024
  const STYLES := {"unspecified", "inline", "attachment"}

  datatype Representation = Representation(mime: string, blob: Blob)

  datatype Item = Item(style: string, representations: seq<Representation>)

  // A custom format keeps its prefix in the type, not in the blob.
  function BlobType(mime: string): string { if |mime| >= 4 && mime[..4] == "web " then mime[4..] else mime }

  // One representation: exactly a bounded type and a blob of that type.
  predicate RepresentationOk(v: Value) {
    && v.Record? && v.fields.Keys == {"type", "blob"} && v.fields["type"].Text? && v.fields["blob"].Binary?
    && 1 <= |v.fields["type"].text| <= MAX_TYPE_LENGTH
    && v.fields["blob"].blob.mime == BlobType(v.fields["type"].text)
  }

  function RepresentationOf(v: Value): Representation
    requires RepresentationOk(v)
  {
    Representation(v.fields["type"].text, v.fields["blob"].blob)
  }

  predicate DistinctTypes(vs: seq<Value>) {
    forall i, j :: 0 <= i < j < |vs| && RepresentationOk(vs[i]) && RepresentationOk(vs[j])
      ==> vs[i].fields["type"] != vs[j].fields["type"]
  }

  // One item: exactly a known style and up to eight representations of different types.
  predicate ItemOk(v: Value) {
    && v.Record? && v.fields.Keys == {"presentationStyle", "representations"}
    && v.fields["presentationStyle"].Text? && v.fields["presentationStyle"].text in STYLES
    && v.fields["representations"].List?
    && 1 <= |v.fields["representations"].elements| <= MAX_TYPES
    && (forall r :: r in v.fields["representations"].elements ==> RepresentationOk(r))
    && DistinctTypes(v.fields["representations"].elements)
  }

  function Sizes(vs: seq<Value>): nat {
    if vs == [] then 0
    else Sizes(vs[..|vs| - 1]) + if RepresentationOk(vs[|vs| - 1]) then vs[|vs| - 1].fields["blob"].blob.size else 0
  }

  function ItemSizes(vs: seq<Value>): nat {
    if vs == [] then 0
    else ItemSizes(vs[..|vs| - 1]) + if ItemOk(vs[|vs| - 1])
         then Sizes(vs[|vs| - 1].fields["representations"].elements) else 0
  }

  // Bounded items of a bounded total size.
  predicate ItemsOk(v: Value, least: nat) {
    && v.List? && least <= |v.elements| <= MAX_ITEMS
    && (forall i :: i in v.elements ==> ItemOk(i))
    && ItemSizes(v.elements) <= MAX_BYTES
  }

  function Representations(vs: seq<Value>): seq<Representation>
    requires forall r :: r in vs ==> RepresentationOk(r)
  {
    seq(|vs|, i requires 0 <= i < |vs| => RepresentationOf(vs[i]))
  }

  function ItemOf(v: Value): Item
    requires ItemOk(v)
  {
    Item(v.fields["presentationStyle"].text, Representations(v.fields["representations"].elements))
  }

  function ItemsOf(vs: seq<Value>): seq<Item>
    requires forall i :: i in vs ==> ItemOk(i)
  {
    seq(|vs|, i requires 0 <= i < |vs| => ItemOf(vs[i]))
  }

  lemma SizesMore(vs: seq<Value>, v: Value)
    ensures Sizes(vs + [v]) == Sizes(vs) + if RepresentationOk(v) then v.fields["blob"].blob.size else 0
  {
    assert (vs + [v])[..|vs|] == vs;
  }

  lemma {:induction false} SizesMono(vs: seq<Value>, k: nat)
    requires k <= |vs|
    ensures Sizes(vs[..k]) <= Sizes(vs)
    decreases |vs| - k
  {
    if k == |vs| {
      assert vs[..k] == vs;
    } else {
      assert vs[..k + 1] == vs[..k] + [vs[k]];
      SizesMore(vs[..k], vs[k]);
      SizesMono(vs, k + 1);
    }
  }

  lemma ItemSizesMore(vs: seq<Value>, v: Value)
    ensures ItemSizes(vs + [v]) == ItemSizes(vs) + if ItemOk(v) then Sizes(v.fields["representations"].elements) else 0
  {
    assert (vs + [v])[..|vs|] == vs;
  }

  lemma {:induction false} ItemSizesMono(vs: seq<Value>, k: nat)
    requires k <= |vs|
    ensures ItemSizes(vs[..k]) <= ItemSizes(vs)
    decreases |vs| - k
  {
    if k == |vs| {
      assert vs[..k] == vs;
    } else {
      assert vs[..k + 1] == vs[..k] + [vs[k]];
      ItemSizesMore(vs[..k], vs[k]);
      ItemSizesMono(vs, k + 1);
    }
  }

  // Only two keys, both present.
  lemma TwoKeys(v: Value, a: string, b: string)
    requires v.Record? && a != b
    ensures |v.fields| == 2 && a in v.fields && b in v.fields <==> v.fields.Keys == {a, b}
  {
    assert |v.fields.Keys| == |v.fields|;
    if |v.fields| == 2 && a in v.fields && b in v.fields {
      var rest := v.fields.Keys - {a} - {b};
      assert |rest| == 0;
    }
    if v.fields.Keys == {a, b} { assert |{a, b}| == 2; }
  }

  // One representation as the shim checks it.
  method ShimRepresentation(v: Value, types: set<string>, total: nat) returns (r: Option<Representation>, newTotal: nat)
    ensures r.Some? <==> FitsNext(v, types, total)
    ensures r.Some? ==> r.value == RepresentationOf(v) && newTotal == total + v.fields["blob"].blob.size
  {
    r, newTotal := None, total;
    if !v.Record? || |v.fields| != 2 || !Get(v, "type").Text? || |Get(v, "type").text| == 0
      || |Get(v, "type").text| > MAX_TYPE_LENGTH
       || "blob" !in v.fields {
      if v.Record? { TwoKeys(v, "type", "blob"); }
      return;
    }
    TwoKeys(v, "type", "blob");
    var mime := v.fields["type"].text;
    if mime in types { return; }
    if !v.fields["blob"].Binary? || v.fields["blob"].blob.mime != BlobType(mime) { return; }
    newTotal := total + v.fields["blob"].blob.size;
    if newTotal > MAX_BYTES { return; }
    r := Some(Representation(mime, v.fields["blob"].blob));
  }

  lemma StopAt(vs: seq<Value>, k: nat, total: nat)
    requires k < |vs| && RepresentationOk(vs[k]) && total + Sizes(vs[..k]) + vs[k].fields["blob"].blob.size > MAX_BYTES
    ensures total + Sizes(vs) > MAX_BYTES
  {
    assert vs[..k + 1] == vs[..k] + [vs[k]];
    SizesMore(vs[..k], vs[k]);
    SizesMono(vs, k + 1);
  }

  // The types of the first k representations.
  function Types(vs: seq<Value>): set<string> { set r | r in vs && RepresentationOk(r) :: r.fields["type"].text }

  lemma Repeated(vs: seq<Value>, k: nat)
    requires k < |vs| && RepresentationOk(vs[k]) && vs[k].fields["type"].text in Types(vs[..k])
    ensures !DistinctTypes(vs)
  {
    var r :| r in vs[..k] && RepresentationOk(r) && r.fields["type"].text == vs[k].fields["type"].text;
    var i :| 0 <= i < k && vs[..k][i] == r;
    assert vs[i] == r;
  }

  lemma DistinctMore(vs: seq<Value>, v: Value)
    requires DistinctTypes(vs) && (RepresentationOk(v) ==> v.fields["type"].text !in Types(vs))
    ensures DistinctTypes(vs + [v])
  {
    var more := vs + [v];
    forall i, j | 0 <= i < j < |more| && RepresentationOk(more[i]) && RepresentationOk(more[j])
      ensures more[i].fields["type"] != more[j].fields["type"]
    {
      assert more[i] == vs[i] && vs[i] in vs;
      if j < |vs| { assert more[j] == vs[j]; } else { assert vs[i].fields["type"].text in Types(vs); }
    }
  }

  lemma TypesMore(vs: seq<Value>, v: Value)
    ensures Types(vs + [v]) == Types(vs) + if RepresentationOk(v) then {v.fields["type"].text} else {}
  {
    assert forall r :: r in vs + [v] <==> r in vs || r == v;
  }

  // Representations that fit behind `total` bytes.
  predicate Fits(vs: seq<Value>, total: nat) {
    (forall v :: v in vs ==> RepresentationOk(v)) && DistinctTypes(vs) && (vs == [] || total + Sizes(vs) <= MAX_BYTES)
  }

  // One more representation that fits.
  predicate FitsNext(v: Value, types: set<string>, bytes: nat) {
    RepresentationOk(v) && v.fields["type"].text !in types && bytes + v.fields["blob"].blob.size <= MAX_BYTES
  }

  // What either loop knows after k representations.
  ghost predicate ReadSome(vs: seq<Value>, k: nat, total: nat, types: set<string>, bytes: nat,
                           representations: seq<Representation>) {
    && k <= |vs| && Fits(vs[..k], total)
    && types == Types(vs[..k]) && bytes == total + Sizes(vs[..k]) && representations == Representations(vs[..k])
  }

  lemma ReadMore(vs: seq<Value>, k: nat, total: nat, types: set<string>, bytes: nat,
                 representations: seq<Representation>)
    requires k < |vs| && ReadSome(vs, k, total, types, bytes, representations) && FitsNext(vs[k], types, bytes)
    ensures var r := RepresentationOf(vs[k]);
            ReadSome(vs, k + 1, total, types + {r.mime}, bytes + r.blob.size, representations + [r])
  {
    assert vs[..k + 1] == vs[..k] + [vs[k]];
    SizesMore(vs[..k], vs[k]);
    TypesMore(vs[..k], vs[k]);
    DistinctMore(vs[..k], vs[k]);
  }

  lemma ReadStops(vs: seq<Value>, k: nat, total: nat, types: set<string>, bytes: nat,
                  representations: seq<Representation>)
    requires k < |vs| && ReadSome(vs, k, total, types, bytes, representations) && !FitsNext(vs[k], types, bytes)
    ensures !Fits(vs, total)
  {
    assert vs[k] in vs;
    if RepresentationOk(vs[k]) {
      if vs[k].fields["type"].text in types { Repeated(vs, k); } else { StopAt(vs, k, total); }
    }
  }

  lemma ReadAll(vs: seq<Value>, total: nat, types: set<string>, bytes: nat, representations: seq<Representation>)
    requires ReadSome(vs, |vs|, total, types, bytes, representations)
    ensures Fits(vs, total) && bytes == total + Sizes(vs) && representations == Representations(vs)
  {
    assert vs[..|vs|] == vs;
  }

  lemma ReadNone(vs: seq<Value>, total: nat)
    ensures ReadSome(vs, 0, total, {}, total, [])
  {
    assert vs[..0] == [];
  }

  /** The shim's own loop over the representations of one item. */
  method ShimRepresentations(vs: seq<Value>, total: nat) returns (r: Option<seq<Representation>>, newTotal: nat)
    ensures r.Some? <==> Fits(vs, total)
    ensures r.Some? ==> r.value == Representations(vs) && newTotal == total + Sizes(vs)
  {
    var types: set<string> := {};
    var representations: seq<Representation> := [];
    newTotal := total;
    ReadNone(vs, total);
    for k := 0 to |vs|
      invariant ReadSome(vs, k, total, types, newTotal, representations)
    {
      var representation, sum := ShimRepresentation(vs[k], types, newTotal);
      if representation.None? {
        ReadStops(vs, k, total, types, newTotal, representations);
        return None, newTotal;
      }
      ReadMore(vs, k, total, types, newTotal, representations);
      types := types + {representation.value.mime};
      newTotal := sum;
      representations := representations + [representation.value];
    }
    ReadAll(vs, total, types, newTotal, representations);
    r := Some(representations);
  }

  // Items that fit, and one more that does.
  predicate ItemFitsNext(v: Value,
                         bytes: nat) { ItemOk(v) && bytes + Sizes(v.fields["representations"].elements) <= MAX_BYTES }

  ghost predicate ItemsRead(vs: seq<Value>, k: nat, bytes: nat, items: seq<Item>) {
    && k <= |vs| && (forall i :: i in vs[..k] ==> ItemOk(i))
    && bytes == ItemSizes(vs[..k]) <= MAX_BYTES && items == ItemsOf(vs[..k])
  }

  lemma ItemsReadMore(vs: seq<Value>, k: nat, bytes: nat, items: seq<Item>)
    requires k < |vs| && ItemsRead(vs, k, bytes, items) && ItemFitsNext(vs[k], bytes)
    ensures ItemsRead(vs, k + 1, bytes + Sizes(vs[k].fields["representations"].elements), items + [ItemOf(vs[k])])
  {
    assert vs[..k + 1] == vs[..k] + [vs[k]];
    ItemSizesMore(vs[..k], vs[k]);
  }

  lemma ItemTooLarge(vs: seq<Value>, k: nat)
    requires k < |vs| && ItemOk(vs[k])
    requires ItemSizes(vs[..k]) + Sizes(vs[k].fields["representations"].elements) > MAX_BYTES
    ensures ItemSizes(vs) > MAX_BYTES
  {
    hide RepresentationOk, DistinctTypes;
    assert vs[..k + 1] == vs[..k] + [vs[k]];
    ItemSizesMore(vs[..k], vs[k]);
    ItemSizesMono(vs, k + 1);
  }

  lemma ItemsReadStops(vs: seq<Value>, k: nat, bytes: nat, items: seq<Item>)
    requires k < |vs| && ItemsRead(vs, k, bytes, items) && !ItemFitsNext(vs[k], bytes)
    ensures !((forall i :: i in vs ==> ItemOk(i)) && ItemSizes(vs) <= MAX_BYTES)
  {
    assert vs[k] in vs;
    if ItemOk(vs[k]) { ItemTooLarge(vs, k); }
  }

  lemma ItemsReadAll(vs: seq<Value>, bytes: nat, items: seq<Item>)
    requires ItemsRead(vs, |vs|, bytes, items)
    ensures (forall i :: i in vs ==> ItemOk(i)) && ItemSizes(vs) <= MAX_BYTES && items == ItemsOf(vs)
  {
    assert vs[..|vs|] == vs;
  }

  lemma ItemsReadNone(vs: seq<Value>)
    ensures ItemsRead(vs, 0, 0, [])
  {
    assert vs[..0] == [];
  }

  // The envelope of one item: exactly a known style and a bounded list.
  predicate EnvelopeOk(v: Value) {
    && v.Record? && |v.fields| == 2 && "presentationStyle" in v.fields && "representations" in v.fields
    && v.fields["presentationStyle"].Text? && v.fields["presentationStyle"].text in STYLES
    && v.fields["representations"].List? && 1 <= |v.fields["representations"].elements| <= MAX_TYPES
  }

  // An item is its envelope and representations that fit.
  lemma ItemFitsExactly(v: Value, bytes: nat)
    ensures ItemFitsNext(v, bytes) <==> EnvelopeOk(v) && Fits(v.fields["representations"].elements, bytes)
    ensures ItemOk(v) ==> EnvelopeOk(v) && v.fields["representations"].elements != []
  {
    if v.Record? { TwoKeys(v, "presentationStyle", "representations"); }
  }

  /** The shim's parser of a rich read: it accepts exactly bounded items, or none. */
  method ShimParse(v: Value) returns (r: Option<seq<Item>>)
    ensures r.Some? <==> ItemsOk(v, 0)
    ensures r.Some? ==> r.value == ItemsOf(v.elements)
  {
    if !v.List? || |v.elements| > MAX_ITEMS { return None; }
    var vs, items, total := v.elements, [], 0;
    ItemsReadNone(vs);
    for k := 0 to |vs|
      invariant ItemsRead(vs, k, total, items)
    {
      ItemFitsExactly(vs[k], total);
      if !EnvelopeOk(vs[k]) {
        ItemsReadStops(vs, k, total, items);
        return None;
      }
      var representations, sum := ShimRepresentations(vs[k].fields["representations"].elements, total);
      if representations.None? {
        ItemsReadStops(vs, k, total, items);
        return None;
      }
      ItemsReadMore(vs, k, total, items);
      total := sum;
      items := items + [Item(vs[k].fields["presentationStyle"].text, representations.value)];
    }
    ItemsReadAll(vs, total, items);
    r := Some(items);
  }

  /** The parent's validator of rich data: it accepts exactly one to four bounded items. */
  method ParentParse(v: Value) returns (r: Option<seq<Item>>)
    ensures r.Some? <==> ItemsOk(v, 1)
    ensures r.Some? ==> r.value == ItemsOf(v.elements)
  {
    if !v.List? || |v.elements| < 1 || |v.elements| > MAX_ITEMS { return None; }
    var vs, items, bytes := v.elements, [], 0;
    ItemsReadNone(vs);
    for k := 0 to |vs|
      invariant ItemsRead(vs, k, bytes, items)
    {
      ItemFitsExactly(vs[k], bytes);
      if !EnvelopeOk(vs[k]) {
        ItemsReadStops(vs, k, bytes, items);
        return None;
      }
      var representations, sum := ParentRepresentations(vs[k].fields["representations"].elements, bytes);
      if representations.None? {
        ItemsReadStops(vs, k, bytes, items);
        return None;
      }
      ItemsReadMore(vs, k, bytes, items);
      bytes := sum;
      items := items + [Item(vs[k].fields["presentationStyle"].text, representations.value)];
    }
    ItemsReadAll(vs, bytes, items);
    r := Some(items);
  }

  // The parent's checks of one representation, as it orders them.
  predicate ParentRefuses(entry: Value, types: set<string>) {
    !entry.Record? || |entry.fields| != 2 || !Get(entry, "type").Text? || |Get(entry, "type").text| < 1
    || |Get(entry, "type").text| > MAX_TYPE_LENGTH || Get(entry, "type").text in types
    || !Get(entry, "blob").Binary? || Get(entry, "blob").blob.mime != BlobType(Get(entry, "type").text)
  }

  lemma ParentRefusesExactly(entry: Value, types: set<string>)
    ensures ParentRefuses(entry, types) <==> !(RepresentationOk(entry) && entry.fields["type"].text !in types)
  {
    if entry.Record? { TwoKeys(entry, "type", "blob"); }
  }

  /** The parent's inner loop: the same verdict as the shim's, by other checks in another order. */
  method ParentRepresentations(vs: seq<Value>, total: nat) returns (r: Option<seq<Representation>>, bytes: nat)
    ensures r.Some? <==> Fits(vs, total)
    ensures r.Some? ==> r.value == Representations(vs) && bytes == total + Sizes(vs)
  {
    var types: set<string> := {};
    var representations: seq<Representation> := [];
    bytes := total;
    ReadNone(vs, total);
    for k := 0 to |vs|
      invariant ReadSome(vs, k, total, types, bytes, representations)
    {
      ParentRefusesExactly(vs[k], types);
      if ParentRefuses(vs[k], types) {
        ReadStops(vs, k, total, types, bytes, representations);
        return None, bytes;
      }
      var mime, blob := vs[k].fields["type"].text, vs[k].fields["blob"].blob;
      if bytes + blob.size > MAX_BYTES {
        ReadStops(vs, k, total, types, bytes, representations);
        return None, bytes + blob.size;
      }
      ReadMore(vs, k, total, types, bytes, representations);
      bytes := bytes + blob.size;
      types := types + {mime};
      representations := representations + [Representation(mime, blob)];
    }
    ReadAll(vs, total, types, bytes, representations);
    r := Some(representations);
  }

  /********** Serialized items **********/

  function RepresentationValue(r: Representation): Value {
    Record(map["type" := Text(r.mime), "blob" := Binary(r.blob)])
  }

  function RepresentationValues(rs: seq<Representation>): seq<Value> { seq(|rs|,
      i requires 0 <= i < |rs| => RepresentationValue(rs[i])) }

  function ItemValue(i: Item): Value {
    Record(map["presentationStyle" := Text(i.style),
               "representations" := List(RepresentationValues(i.representations))])
  }

  function ItemValues(items: seq<Item>): Value { List(seq(|items|,
                                                          i requires 0 <= i < |items| => ItemValue(items[i]))) }

  function Weight(rs: seq<Representation>): nat {
    if rs == [] then 0 else Weight(rs[..|rs| - 1]) + rs[|rs| - 1].blob.size
  }

  function Weights(items: seq<Item>): nat {
    if items == [] then 0 else Weights(items[..|items| - 1]) + Weight(items[|items| - 1].representations)
  }

  // What each side makes sure of before it sends rich data.
  predicate SendableItem(i: Item) {
    && i.style in STYLES && 1 <= |i.representations| <= MAX_TYPES
    && (forall r :: r in i.representations ==> 1 <= |r.mime| <= MAX_TYPE_LENGTH && r.blob.mime == BlobType(r.mime))
    && (forall j, k :: 0 <= j < k < |i.representations| ==> i.representations[j].mime != i.representations[k].mime)
  }

  predicate Sendable(items: seq<Item>) {
    |items| <= MAX_ITEMS && (forall i :: i in items ==> SendableItem(i)) && Weights(items) <= MAX_BYTES
  }

  lemma RepresentationSize(r: Representation)
    requires 1 <= |r.mime| <= MAX_TYPE_LENGTH && r.blob.mime == BlobType(r.mime)
    ensures RepresentationOk(RepresentationValue(r)) && RepresentationValue(r).fields["blob"].blob.size == r.blob.size
  {
  }

  lemma {:induction false} SizesAreWeight(rs: seq<Representation>)
    requires forall r :: r in rs ==> 1 <= |r.mime| <= MAX_TYPE_LENGTH && r.blob.mime == BlobType(r.mime)
    ensures Sizes(RepresentationValues(rs)) == Weight(rs)
  {
    hide RepresentationOk, RepresentationValue;
    if rs != [] {
      var rest, last := rs[..|rs| - 1], rs[|rs| - 1];
      SizesAreWeight(rest);
      assert last in rs;
      assert RepresentationValues(rs) == RepresentationValues(rest) + [RepresentationValue(last)];
      RepresentationSize(last);
      SizesMore(RepresentationValues(rest), RepresentationValue(last));
    }
  }

  lemma SendableItemIsOk(i: Item)
    requires SendableItem(i)
    ensures ItemOk(ItemValue(i)) && ItemOf(ItemValue(i)) == i
    ensures Sizes(ItemValue(i).fields["representations"].elements) == Weight(i.representations)
  {
    var vs := RepresentationValues(i.representations);
    forall v | v in vs ensures RepresentationOk(v) {
      var k :| 0 <= k < |vs| && vs[k] == v;
      assert i.representations[k] in i.representations;
    }
    SizesAreWeight(i.representations);
    assert Representations(vs) == i.representations;
  }

  lemma {:induction false} ItemSizesAreWeights(items: seq<Item>)
    requires forall i :: i in items ==> SendableItem(i)
    ensures ItemSizes(ItemValues(items).elements) == Weights(items)
  {
    if items != [] {
      var rest, last := items[..|items| - 1], items[|items| - 1];
      ItemSizesAreWeights(rest);
      assert last in items;
      assert ItemValues(items).elements == ItemValues(rest).elements + [ItemValue(last)];
      ItemSizesMore(ItemValues(rest).elements, ItemValue(last));
      SendableItemIsOk(last);
    }
  }

  lemma {:induction false} SizesOfOk(vs: seq<Value>)
    requires forall r :: r in vs ==> RepresentationOk(r)
    ensures Sizes(vs) == Weight(Representations(vs))
  {
    if vs != [] {
      var rest, last := vs[..|vs| - 1], vs[|vs| - 1];
      assert last in vs && forall r :: r in rest ==> r in vs;
      SizesOfOk(rest);
      assert Representations(vs) == Representations(rest) + [RepresentationOf(last)];
    }
  }

  lemma OkItemIsSendable(v: Value)
    requires ItemOk(v)
    ensures SendableItem(ItemOf(v))
    ensures Sizes(v.fields["representations"].elements) == Weight(ItemOf(v).representations)
  {
    var vs, rs := v.fields["representations"].elements, ItemOf(v).representations;
    SizesOfOk(vs);
    forall r | r in rs ensures 1 <= |r.mime| <= MAX_TYPE_LENGTH && r.blob.mime == BlobType(r.mime) {
      var k :| 0 <= k < |rs| && rs[k] == r;
      assert vs[k] in vs;
    }
    forall j, k | 0 <= j < k < |rs| ensures rs[j].mime != rs[k].mime { assert vs[j] in vs && vs[k] in vs; }
  }

  lemma {:induction false} ItemSizesOfOk(vs: seq<Value>)
    requires forall i :: i in vs ==> ItemOk(i)
    ensures ItemSizes(vs) == Weights(ItemsOf(vs))
  {
    if vs != [] {
      var rest, last := vs[..|vs| - 1], vs[|vs| - 1];
      assert last in vs && forall i :: i in rest ==> i in vs;
      ItemSizesOfOk(rest);
      OkItemIsSendable(last);
      assert ItemsOf(vs) == ItemsOf(rest) + [ItemOf(last)];
    }
  }

  /** What either validator lets through is within all bounds: it could be sent as it is. */
  lemma ParsedIsSendable(v: Value, least: nat)
    requires ItemsOk(v, least)
    ensures Sendable(ItemsOf(v.elements)) && least <= |ItemsOf(v.elements)| == |v.elements|
  {
    hide ItemOk, SendableItem, Weights, ItemSizes;
    var vs, items := v.elements, ItemsOf(v.elements);
    ItemSizesOfOk(vs);
    forall i | i in items ensures SendableItem(i) {
      var k :| 0 <= k < |items| && items[k] == i;
      assert vs[k] in vs;
      OkItemIsSendable(vs[k]);
    }
  }

  /** Rich data that one side may send is accepted by the other side's validator, and comes out as it went in. */
  lemma ItemsRoundTrip(items: seq<Item>, least: nat)
    requires Sendable(items) && least <= |items|
    ensures ItemsOk(ItemValues(items), least) && ItemsOf(ItemValues(items).elements) == items
  {
    var vs := ItemValues(items).elements;
    forall v | v in vs ensures ItemOk(v) {
      var k :| 0 <= k < |vs| && vs[k] == v;
      assert items[k] in items;
      SendableItemIsOk(items[k]);
    }
    ItemSizesAreWeights(items);
    assert ItemsOf(vs) == items by {
      forall k | 0 <= k < |items| ensures ItemOf(vs[k]) == items[k] {
        assert items[k] in items;
        SendableItemIsOk(items[k]);
      }
    }
  }

  /********** Sending rich data **********/

  // One native clipboard item with the blobs that its formats resolve to.
  datatype Native = Native(style: Option<string>, types: seq<string>, blobs: seq<Blob>)

  predicate NativeOk(n: Native) { |n.blobs| == |n.types| }

  function Copied(n: Native, k: nat): seq<Representation>
    requires NativeOk(n) && k <= |n.types|
  {
    seq(k, i requires 0 <= i < k => Representation(n.types[i], n.blobs[i]))
  }

  function CopiedItem(n: Native): Item
    requires NativeOk(n)
  {
    Item(if n.style.Some? then n.style.value else "unspecified", Copied(n, |n.types|))
  }

  /** The parent's rich read: what it hands to the preview is always accepted there. */
  method PerformRead(natives: seq<Native>) returns (r: Option<seq<Item>>)
    requires forall n :: n in natives ==> NativeOk(n)
    ensures r.Some? ==> ItemsOk(ItemValues(r.value), 0) && |r.value| == |natives|
                        && forall k :: 0 <= k < |natives| ==>
                           NativeOk(natives[k]) && r.value[k] == CopiedItem(natives[k])
  {
    if |natives| > MAX_ITEMS { return None; }
    var items: seq<Item>, bytes := [], 0;
    for k := 0 to |natives|
      invariant |items| == k && forall j :: 0 <= j < k ==> items[j] == CopiedItem(natives[j])
    {
      var n := natives[k];
      assert n in natives;
      if |n.types| < 1 || |n.types| > MAX_TYPES { return None; }
      var representations: seq<Representation> := [];
      for i := 0 to |n.types|
        invariant representations == Copied(n, i)
      {
        if |n.types[i]| < 1 || |n.types[i]| > MAX_TYPE_LENGTH { return None; }
        bytes := bytes + n.blobs[i].size;
        if bytes > MAX_BYTES { return None; }
        representations := representations + [Representation(n.types[i], n.blobs[i])];
      }
      items := items + [Item(if n.style.Some? then n.style.value else "unspecified", representations)];
    }
    if |items| > 0 {
      var parsed := ParentParse(ItemValues(items));
      if parsed.None? { return None; }
    } else {
      assert items == [];
      ItemsRoundTrip([], 0);
    }
    r := Some(items);
  }

  // The shim's check of one item before any data is read.
  method CheckDescriptor(n: Native) returns (ok: bool)
    ensures ok <==> DescriptorOk(n)
  {
    if n.style.Some? && n.style.value !in STYLES { return false; }
    if |n.types| == 0 || |n.types| > MAX_TYPES { return false; }
    var types: set<string> := {};
    for i := 0 to |n.types|
      invariant forall j :: 0 <= j < i ==> 1 <= |n.types[j]| <= MAX_TYPE_LENGTH
      invariant types == set j | 0 <= j < i :: n.types[j]
      invariant forall j, l :: 0 <= j < l < i ==> n.types[j] != n.types[l]
    {
      if |n.types[i]| == 0 || |n.types[i]| > MAX_TYPE_LENGTH || n.types[i] in types { return false; }
      types := types + {n.types[i]};
    }
    ok := true;
  }

  lemma WeightMore(rs: seq<Representation>, r: Representation)
    ensures Weight(rs + [r]) == Weight(rs) + r.blob.size
  {
    assert (rs + [r])[..|rs|] == rs;
  }

  lemma WeightsMore(items: seq<Item>, i: Item)
    ensures Weights(items + [i]) == Weights(items) + Weight(i.representations)
  {
    assert (items + [i])[..|items|] == items;
  }

  // The blobs of one item, each of its declared type, within the budget of the whole write.
  method ReadBlobs(n: Native, before: nat) returns (r: Option<seq<Representation>>, total: nat)
    requires NativeOk(n) && before <= MAX_BYTES
    ensures r.Some? ==> r.value == Copied(n, |n.types|) && total == before + Weight(r.value) <= MAX_BYTES
    ensures r.Some? ==> forall j :: 0 <= j < |n.types| ==> n.blobs[j].mime == BlobType(n.types[j])
  {
    var representations: seq<Representation> := [];
    total := before;
    for i := 0 to |n.types|
      invariant representations == Copied(n, i) && total == before + Weight(representations) <= MAX_BYTES
      invariant forall j :: 0 <= j < i ==> n.blobs[j].mime == BlobType(n.types[j])
    {
      if n.blobs[i].mime != BlobType(n.types[i]) { return None, total; }
      if total + n.blobs[i].size > MAX_BYTES { return None, total; }
      WeightMore(representations, Representation(n.types[i], n.blobs[i]));
      total := total + n.blobs[i].size;
      representations := representations + [Representation(n.types[i], n.blobs[i])];
    }
    r := Some(representations);
  }

  // What a rich write has serialized after k items.
  ghost predicate Serialized(natives: seq<Native>, k: nat, items: seq<Item>, total: nat) {
    && k <= |natives| && |items| == k && total == Weights(items) <= MAX_BYTES
    && forall j :: 0 <= j < k ==> NativeOk(natives[j]) && items[j] == CopiedItem(natives[j]) && SendableItem(items[j])
  }

  lemma SerializedMore(natives: seq<Native>, k: nat, items: seq<Item>, total: nat, sum: nat)
    requires k < |natives| && Serialized(natives, k, items, total) && NativeOk(natives[k]) && DescriptorOk(natives[k])
    requires sum == total + Weight(CopiedItem(natives[k]).representations) <= MAX_BYTES
    requires forall j :: 0 <= j < |natives[k].types| ==> natives[k].blobs[j].mime == BlobType(natives[k].types[j])
    ensures Serialized(natives, k + 1, items + [CopiedItem(natives[k])], sum)
  {
    WeightsMore(items, CopiedItem(natives[k]));
    CopiedIsSendable(natives[k]);
  }

  lemma SerializedIsSendable(natives: seq<Native>, items: seq<Item>, total: nat)
    requires Serialized(natives, |natives|, items, total) && |natives| <= MAX_ITEMS
    ensures Sendable(items)
  {
    forall i | i in items ensures SendableItem(i) {
      var k :| 0 <= k < |items| && items[k] == i;
    }
  }

  // The checks of every item, before any data is read.
  method CheckDescriptors(natives: seq<Native>) returns (ok: bool)
    ensures ok <==> 1 <= |natives| <= MAX_ITEMS && forall j :: 0 <= j < |natives| ==> DescriptorOk(natives[j])
  {
    if |natives| == 0 || |natives| > MAX_ITEMS { return false; }
    for k := 0 to |natives|
      invariant forall j :: 0 <= j < k ==> DescriptorOk(natives[j])
    {
      var one := CheckDescriptor(natives[k]);
      if !one { return false; }
    }
    ok := true;
  }

  /** The shim's rich write: what it posts is always accepted by the parent. */
  method SerializeWrite(natives: seq<Native>) returns (r: Option<seq<Item>>)
    requires forall n :: n in natives ==> NativeOk(n)
    ensures r.Some? ==> Sendable(r.value) && 1 <= |r.value| == |natives|
    ensures r.Some? ==> forall k :: 0 <= k < |natives| ==> NativeOk(natives[k]) && r.value[k] == CopiedItem(natives[k])
  {
    var ok := CheckDescriptors(natives);
    if !ok { return None; }
    var items: seq<Item>, total := [], 0;
    for k := 0 to |natives|
      invariant Serialized(natives, k, items, total)
    {
      assert natives[k] in natives;
      var representations, sum := ReadBlobs(natives[k], total);
      if representations.None? { return None; }
      SerializedMore(natives, k, items, total, sum);
      items := items + [Item(if natives[k].style.Some? then natives[k].style.value
                             else "unspecified", representations.value)];
      total := sum;
    }
    SerializedIsSendable(natives, items, total);
    r := Some(items);
  }

  // What the shim checks before it reads any data.
  predicate DescriptorOk(n: Native) {
    && (n.style.Some? ==> n.style.value in STYLES)
    && 1 <= |n.types| <= MAX_TYPES
    && (forall i :: 0 <= i < |n.types| ==> 1 <= |n.types[i]| <= MAX_TYPE_LENGTH)
    && (forall i, j :: 0 <= i < j < |n.types| ==> n.types[i] != n.types[j])
  }

  lemma CopiedIsSendable(n: Native)
    requires NativeOk(n) && DescriptorOk(n)
    requires forall j :: 0 <= j < |n.types| ==> n.blobs[j].mime == BlobType(n.types[j])
    ensures SendableItem(CopiedItem(n))
  {
    var rs := CopiedItem(n).representations;
    forall r | r in rs ensures 1 <= |r.mime| <= MAX_TYPE_LENGTH && r.blob.mime == BlobType(r.mime) {
      var k :| 0 <= k < |rs| && rs[k] == r;
    }
  }
}
