/**
 Two readers of chunked streams with a byte budget: the upgrade handshake of the project proxy
 (apps/server/src/project-proxy.ts) and a peer's status response (apps/server/src/instance-status.ts).
 What they decide depends only on the bytes, never on how the bytes were split. Also the proxy's slots.
 */
module Chunks {
  import opened Wrappers

  type Byte = x: int | 0 <= x < 256

  function Concat(chunks: seq<seq<Byte>>): seq<Byte> {
    if chunks == [] then [] else Concat(chunks[..|chunks| - 1]) + chunks[|chunks| - 1]
  }

  lemma ConcatMore(chunks: seq<seq<Byte>>, chunk: seq<Byte>)
    ensures Concat(chunks + [chunk]) == Concat(chunks) + chunk
  {
    assert (chunks + [chunk])[..|chunks|] == chunks;
  }

  lemma {:induction false} ConcatTwo(a: seq<seq<Byte>>, b: seq<seq<Byte>>)
    ensures Concat(a + b) == Concat(a) + Concat(b)
    decreases |b|
  {
    if b == [] {
      assert a + b == a;
    } else {
      var rest, last := b[..|b| - 1], b[|b| - 1];
      assert a + b == (a + rest) + [last] && b == rest + [last];
      ConcatMore(a + rest, last);
      ConcatMore(rest, last);
      ConcatTwo(a, rest);
    }
  }

  /********** The upgrade handshake **********/

  const MAX_HEADER := 16 * 1024
  const TERMINATOR: seq<Byte> := [13, 10, 13, 10]

  datatype Verdict = Waiting | TooLarge | Refused | Switched

  predicate EndsAt(bytes: seq<Byte>, e: nat) { e + 4 <= |bytes| && bytes[e..e + 4] == TERMINATOR }

  // The first header terminator at or after position e.
  function Terminator(bytes: seq<Byte>, e: nat): (r: Option<nat>)
    ensures r.Some? ==> e <= r.value && EndsAt(bytes, r.value) && forall k :: e <= k < r.value ==> !EndsAt(bytes, k)
    ensures r.None? ==> forall k :: e <= k ==> !EndsAt(bytes, k)
    decreases |bytes| - e
  {
    if e + 4 > |bytes| then None else if EndsAt(bytes, e) then Some(e) else Terminator(bytes, e + 1)
  }

  const VERSION: seq<Byte> := [72, 84, 84, 80, 47, 49, 46]  // HTTP/1.
  const SWITCHING: seq<Byte> := [32, 49, 48, 49]            //  101

  predicate Blank(b: Byte) { 9 <= b <= 13 || b == 32 || b == 160 }

  // The status line of a header announces a protocol switch.
  predicate Switches(header: seq<Byte>) {
    && |header| >= 12 && header[..7] == VERSION && (header[7] == 48 || header[7] == 49) && header[8..12] == SWITCHING
    && (|header| == 12 || Blank(header[12]))
  }

  // A status line: the version, the status, and nothing or blank space and more after it.
  ghost predicate StatusLine(header: seq<Byte>, minor: Byte, tail: seq<Byte>) {
    header == VERSION + [minor] + SWITCHING + tail && (tail == [] || Blank(tail[0]))
  }

  /** The headers that switch are those that begin with HTTP/1.0 or HTTP/1.1, one space and 101 as a whole word. */
  lemma SwitchesExactly(header: seq<Byte>)
    ensures Switches(header) <==> exists minor: Byte, tail: seq<Byte> ::
              (minor == 48 || minor == 49) && StatusLine(header, minor, tail)
  {
    if Switches(header) {
      var minor, tail := header[7], header[12..];
      assert header == header[..7] + [header[7]] + header[8..12] + header[12..];
      assert StatusLine(header, minor, tail);
    }
    if minor: Byte, tail: seq<Byte> :| (minor == 48 || minor == 49) && StatusLine(header, minor, tail) {
      assert header[..7] == VERSION && header[7] == minor && header[8..12] == SWITCHING && header[12..] == tail;
    }
  }

  // What the whole of the bytes received so far says.
  function Judge(bytes: seq<Byte>): Verdict {
    match Terminator(bytes, 0)
    case None => if |bytes| > MAX_HEADER then TooLarge else Waiting
    case Some(e) =>
      if e + 4 > MAX_HEADER then TooLarge else if Switches(bytes[..e]) then Switched else Refused
  }

  lemma TerminatorIs(bytes: seq<Byte>, e: nat)
    requires EndsAt(bytes, e) && forall k: nat :: k < e ==> !EndsAt(bytes, k)
    ensures Terminator(bytes, 0) == Some(e)
  {
    var r := Terminator(bytes, 0);
    assert r.Some? && r.value <= e;
  }

  /** A verdict is final: no later byte changes it. */
  lemma VerdictIsFinal(bytes: seq<Byte>, more: seq<Byte>)
    requires Judge(bytes) != Waiting
    ensures Judge(bytes + more) == Judge(bytes)
  {
    var all := bytes + more;
    var r := Terminator(bytes, 0);
    forall k: nat | k + 4 <= |bytes|
      ensures EndsAt(all, k) == EndsAt(bytes, k)
    {
      assert all[k..k + 4] == bytes[k..k + 4];
    }
    if r.Some? {
      var e := r.value;
      TerminatorIs(all, e);
      assert all[..e] == bytes[..e];
    } else {
      var s := Terminator(all, 0);
      assert s.Some? ==> s.value + 4 > |bytes|;
    }
  }

  /** A finished header within the budget gets its own verdict, whatever follows it. */
  lemma VerdictOfHeader(header: seq<Byte>, rest: seq<Byte>)
    requires |header| + 4 <= MAX_HEADER && forall k: nat :: k < |header| ==> !EndsAt(header + TERMINATOR, k)
    ensures Judge(header + TERMINATOR + rest) == if Switches(header) then Switched else Refused
  {
    var bytes := header + TERMINATOR;
    assert bytes[|header|..|header| + 4] == TERMINATOR;
    TerminatorIs(bytes, |header|);
    assert bytes[..|header|] == header;
    VerdictIsFinal(bytes, rest);
  }

  // The data handler of one upgrade. After a verdict it is gone, or the connection is.
  class HandshakeScanner {
    var handshake: seq<Byte>
    var verdict: Verdict
    ghost var received: seq<seq<Byte>>

    ghost predicate Valid()
      reads this
    {
      && verdict == Judge(Concat(received))
      && (verdict == Waiting ==> handshake == Concat(received))
    }

    constructor ()
      ensures Valid() && received == []
    {
      handshake, verdict, received := [], Waiting, [];
    }

    method Inspect(chunk: seq<Byte>)
      requires Valid()
      modifies this
      ensures Valid() && received == old(received) + [chunk]
      ensures old(verdict) != Waiting ==> verdict == old(verdict)
    {
      ConcatMore(received, chunk);
      if verdict != Waiting { VerdictIsFinal(Concat(received), chunk); }
      received := received + [chunk];
      if verdict != Waiting { return; }
      handshake := handshake + chunk;
      var headerEnd := IndexOfTerminator(handshake);
      if headerEnd < 0 {
        if |handshake| > MAX_HEADER { verdict := TooLarge; }
        return;
      }
      if headerEnd + 4 > MAX_HEADER { verdict := TooLarge; return; }
      if !Switches(handshake[..headerEnd]) { verdict := Refused; return; }
      verdict := Switched;
      handshake := [];
    }
  }

  method IndexOfTerminator(bytes: seq<Byte>) returns (e: int)
    ensures e < 0 <==> Terminator(bytes, 0).None?
    ensures e >= 0 ==> Terminator(bytes, 0) == Some(e)
  {
    e := 0;
    while e + 4 <= |bytes|
      invariant 0 <= e
      invariant Terminator(bytes, 0) == Terminator(bytes, e)
    {
      if bytes[e..e + 4] == TERMINATOR { return; }
      e := e + 1;
    }
    e := -1;
  }

  // Feed all chunks to a fresh scanner.
  method Scan(chunks: seq<seq<Byte>>) returns (verdict: Verdict)
    ensures verdict == Judge(Concat(chunks))
  {
    var scanner := new HandshakeScanner();
    for i := 0 to |chunks|
      invariant scanner.Valid() && scanner.received == chunks[..i] && fresh(scanner)
    {
      assert chunks[..i + 1] == chunks[..i] + [chunks[i]];
      scanner.Inspect(chunks[i]);
    }
    assert chunks[..|chunks|] == chunks;
    verdict := scanner.verdict;
  }

  /********** A bounded response **********/

  // The content-length header as a number; an absent header reads as zero.
  datatype Declared = NotFinite | Number(bytes: int)

  // The stream's bytes if they fit, declared and real. Decoding the text is left out.
  method BoundedResponse(declared: Declared, chunks: seq<seq<Byte>>,
                         maxBytes: nat) returns (body: Option<seq<Byte>>, read: nat)
    ensures body == if (declared.Number? && declared.bytes > maxBytes) || |Concat(chunks)| > maxBytes then None
              else Some(Concat(chunks))
    ensures read <= |chunks| && (body.Some? ==> read == |chunks|)
    ensures declared.Number? && declared.bytes > maxBytes ==> read == 0
    ensures forall k :: 0 <= k < read ==> |Concat(chunks[..k])| <= maxBytes
  {
    read := 0;
    if declared.Number? && declared.bytes > maxBytes { return None, 0; }
    var content: seq<Byte> := [];
    while read < |chunks|
      invariant read <= |chunks| && content == Concat(chunks[..read]) && |content| <= maxBytes
      invariant forall k :: 0 <= k < read ==> |Concat(chunks[..k])| <= maxBytes
    {
      var chunk := chunks[read];
      assert chunks[..read + 1] == chunks[..read] + [chunk];
      ConcatMore(chunks[..read], chunk);
      read := read + 1;
      if |content| + |chunk| > maxBytes {
        assert chunks == chunks[..read] + chunks[read..];
        ConcatTwo(chunks[..read], chunks[read..]);
        return None, read;
      }
      content := content + chunk;
    }
    assert chunks[..|chunks|] == chunks;
    body := Some(content);
  }

  /********** Upgrade slots **********/

  const MAX_UPGRADES := 128
  const MAX_UPGRADES_PER_TARGET := 32

  type Connection = nat
  type Port = nat

  // Open connections to one port.
  ghost function To(open: map<Connection, Port>, port: Port): set<Connection> { set c | c in open && open[c] == port }

  lemma ToAdd(open: map<Connection, Port>, c: Connection, port: Port, other: Port)
    requires c !in open
    ensures |To(open[c := port], other)| == |To(open, other)| + if other == port then 1 else 0
  {
    assert To(open[c := port], other) == To(open, other) + if other == port then {c} else {};
  }

  lemma ToRemove(open: map<Connection, Port>, c: Connection, other: Port)
    requires c in open
    ensures |To(open - {c}, other)| == |To(open, other)| - if other == open[c] then 1 else 0
  {
    if other == open[c] {
      assert To(open - {c}, other) == To(open, other) - {c} && c in To(open, other);
    } else {
      assert To(open - {c}, other) == To(open, other);
    }
  }

  lemma KeysRemove(open: map<Connection, Port>, c: Connection)
    requires c in open
    ensures |open - {c}| == |open| - 1
  {
    assert (open - {c}).Keys == open.Keys - {c};
    assert |open.Keys| == |open| && |(open - {c}).Keys| == |open - {c}|;
  }

  lemma KeysAdd(open: map<Connection, Port>, c: Connection, port: Port)
    requires c !in open
    ensures |open[c := port]| == |open| + 1
  {
    assert open[c := port].Keys == open.Keys + {c};
    assert |open.Keys| == |open| && |open[c := port].Keys| == |open[c := port]|;
  }

  // The proxy's counters. Every close and error event of a connection may call its `release`.
  class UpgradeSlots {
    var activeUpgradeCount: nat
    var activeUpgrades: map<Port, nat>
    var open: map<Connection, Port>   // connections whose `released` is false

    // The counters count exactly the open connections, within both limits.
    ghost predicate Valid()
      reads this
    {
      && activeUpgradeCount == |open| <= MAX_UPGRADES
      && (forall p :: p in activeUpgrades <==> To(open, p) != {})
      && (forall p :: p in activeUpgrades ==> activeUpgrades[p] == |To(open, p)| <= MAX_UPGRADES_PER_TARGET)
    }

    constructor ()
      ensures Valid() && open == map[]
    {
      activeUpgradeCount, activeUpgrades, open := 0, map[], map[];
    }

    method Upgrade(connection: Connection, port: Port) returns (admitted: bool)
      requires Valid() && connection !in open
      modifies this
      ensures Valid() && open == if admitted then old(open)[connection := port] else old(open)
      ensures admitted <==> |old(open)| < MAX_UPGRADES && |To(old(open), port)| < MAX_UPGRADES_PER_TARGET
    {
      var targetCount := if port in activeUpgrades then activeUpgrades[port] else 0;
      if activeUpgradeCount >= MAX_UPGRADES || targetCount >= MAX_UPGRADES_PER_TARGET { return false; }
      KeysAdd(open, connection, port);
      forall p { ToAdd(open, connection, port, p); }
      assert connection in To(open[connection := port], port);
      assert forall p :: p != port ==> To(open[connection := port], p) == To(open, p);
      activeUpgradeCount := activeUpgradeCount + 1;
      activeUpgrades := activeUpgrades[port := targetCount + 1];
      open := open[connection := port];
      admitted := true;
    }

    // Only the first call for a connection changes anything.
    method Release(connection: Connection)
      requires Valid()
      modifies this
      ensures Valid() && open == old(open) - {connection}
    {
      if connection !in open {
        assert open - {connection} == open;
        return;
      }
      var port := open[connection];
      KeysRemove(open, connection);
      forall p { ToRemove(open, connection, p); }
      assert connection in To(open, port);
      assert forall p :: p != port ==> To(open - {connection}, p) == To(open, p);
      activeUpgradeCount := activeUpgradeCount - 1;
      var remaining := activeUpgrades[port] - 1;
      open := open - {connection};
      if remaining == 0 { activeUpgrades := activeUpgrades - {port}; } else {
        activeUpgrades := activeUpgrades[port := remaining];
      }
    }
  }
}
