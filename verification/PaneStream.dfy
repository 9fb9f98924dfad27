/**
 Flow control of the pane socket (apps/server/src/app.ts): output is dropped while the viewer is behind, and a
 new capture of the pane, a seed, puts the viewer right again.

 Output is one growing byte sequence. A seed is a snapshot of everything put out before its capture replied,
 and the reply, the sent seed and the end of `seeding` are one step. The browser side is what
 apps/web/src/streamed-terminal.ts makes of the frames: the first bytes after a reseed replace the screen.
 */
module PaneStream {
  type Byte = bv8

  const HIGH := 256 * 1024
  const LOW := 64 * 1024

  datatype Frame = Reseed | Seed(upto: nat) | Output(bytes: seq<Byte>)

  // The socket's variables, and what the outside has seen.
  datatype Pane = Pane(
    unacked: nat,
    dropped: bool,
    seeding: bool,
    seeded: bool,
    open: bool,
    captures: nat,          // captures in flight
    output: seq<Byte>,      // everything the pane put out
    frames: seq<Frame>,     // everything sent to the browser
    owed: nat)             // bytes forwarded since the last reset that the browser has not acknowledged

  const INITIAL := Pane(0, false, true, false, true, 0, [], [], 0)

  /********** The server's steps **********/

  // `active`: the browser still holds the control lease. A send without it closes the socket.
  function Send(p: Pane, f: Frame, active: bool): Pane {
    if !active then p.(open := false) else if p.open then p.(frames := p.frames + [f]) else p
  }

  function Forward(p: Pane, bytes: seq<Byte>, active: bool): Pane {
    if p.seeding then p
    else if p.unacked >= HIGH then p.(dropped := true)
    else Send(p.(unacked := p.unacked + |bytes|, owed := p.owed + |bytes|), Output(bytes), active)
  }

  function StartSeed(p: Pane): Pane {
    p.(seeding := true, unacked := 0, dropped := false, owed := 0, captures := p.captures + 1)
  }

  // The first seed, once the pane's size was reported.
  function SeedOnce(p: Pane): Pane {
    if p.seeded || !p.open then p else StartSeed(p.(seeded := true))
  }

  // The capture replies.
  function FinishSeed(p: Pane, active: bool): Pane
    requires p.captures > 0
  {
    var q := p.(captures := p.captures - 1);
    (if p.open then Send(q, Seed(|p.output|), active) else q).(seeding := false)
  }

  // tmux lost output and asks for a new seed.
  function Reset(p: Pane, active: bool): Pane { StartSeed(Send(p, Reseed, active)) }

  // The browser acknowledges `count` bytes, `owed` of them forwarded since the last reset.
  function Acknowledge(p: Pane, count: nat, owed: nat, active: bool): Pane
    requires owed <= count && owed <= p.owed
  {
    var q := p.(unacked := if p.unacked >= count then p.unacked - count else 0, owed := p.owed - owed);
    if q.dropped && q.unacked < LOW then Reset(q.(dropped := false), active) else q
  }

  datatype Action =
    | Puts(bytes: seq<Byte>, active: bool)
    | FirstSeed
    | Replies(active: bool)
    | Loses(active: bool)
    | Acks(count: nat, owed: nat, active: bool)
    | Closes

  // A viewer acknowledges only what it received.
  predicate Enabled(p: Pane, a: Action) {
    match a
    case Replies(active) => p.captures > 0
    case Acks(count, owed, active) => owed <= count && owed <= p.owed
    case _ => true
  }

  function Next(p: Pane, a: Action): Pane
    requires Enabled(p, a)
  {
    match a
    case Puts(bytes, active) => Forward(p.(output := p.output + bytes), bytes, active)
    case FirstSeed => SeedOnce(p)
    case Replies(active) => FinishSeed(p, active)
    case Loses(active) => Reset(p, active)
    case Acks(count, owed, active) => Acknowledge(p, count, owed, active)
    case Closes => p.(open := false)
  }

  // Every action of this sequence is possible in its turn.
  predicate Possible(actions: seq<Action>)
    decreases |actions|, 0
  {
    actions == [] || (Possible(Before(actions)) && Enabled(After(Before(actions)), Last(actions)))
  }

  // The socket after these actions.
  function After(actions: seq<Action>): Pane
    requires Possible(actions)
    decreases |actions|, 1
  {
    if actions == [] then INITIAL else Next(After(Before(actions)), Last(actions))
  }

  function Before(actions: seq<Action>): seq<Action>
    requires actions != []
  {
    actions[..|actions| - 1]
  }

  function Last(actions: seq<Action>): Action
    requires actions != []
  {
    actions[|actions| - 1]
  }

  lemma One(actions: seq<Action>, a: Action)
    requires Possible(actions) && Enabled(After(actions), a)
    ensures Possible(actions + [a]) && After(actions + [a]) == Next(After(actions), a)
  {
    assert Before(actions + [a]) == actions;
  }

  /********** The browser's screen **********/

  // What the screen shows: nothing yet, exactly the effect of these output bytes, or something else.
  datatype Shown = Blank | Exact(bytes: seq<Byte>) | Mixed

  datatype Screen = Screen(awaiting: bool, shown: Shown)

  function Apply(s: Screen, f: Frame, output: seq<Byte>): Screen {
    match f
    case Reseed => s.(awaiting := true)
    case Seed(upto) =>
      Screen(false, if s.awaiting && upto <= |output| then Exact(output[..upto]) else Mixed)
    case Output(bytes) =>
      Screen(false, if !s.awaiting && s.shown.Exact? then Exact(s.shown.bytes + bytes) else Mixed)
  }

  function Show(frames: seq<Frame>, output: seq<Byte>): Screen {
    if frames == [] then Screen(true, Blank)
    else Apply(Show(frames[..|frames| - 1], output), frames[|frames| - 1], output)
  }

  lemma ShowSent(frames: seq<Frame>, f: Frame, output: seq<Byte>)
    ensures Show(frames + [f], output) == Apply(Show(frames, output), f, output)
  {
    assert (frames + [f])[..|frames|] == frames;
  }

  // Seeds speak of what was already put out.
  ghost predicate Settled(frames: seq<Frame>, size: nat) {
    forall f :: f in frames && f.Seed? ==> f.upto <= size
  }

  // Later output does not change what earlier frames show.
  lemma {:induction false} ShowStable(frames: seq<Frame>, output: seq<Byte>, more: seq<Byte>)
    requires Settled(frames, |output|)
    ensures Show(frames, output + more) == Show(frames, output)
  {
    if frames != [] {
      var last := frames[|frames| - 1];
      ShowStable(frames[..|frames| - 1], output, more);
      assert last in frames;
      if last.Seed? { assert (output + more)[..last.upto] == output[..last.upto]; }
    }
  }

  /********** The captures of a run **********/

  // The step sends a reseed frame, and so asks for a capture that the browser waits for.
  predicate Announces(p: Pane, a: Action) {
    match a
    case Loses(active) => true
    case Acks(count, owed, active) => p.dropped && (if p.unacked >= count then p.unacked - count else 0) < LOW
    case _ => false
  }

  // The step asks for a capture.
  predicate Starts(p: Pane, a: Action) { Announces(p, a) || (a.FirstSeed? && !p.seeded && p.open) }

  predicate NoneStarted(actions: seq<Action>)
    requires Possible(actions)
    decreases |actions|
  {
    actions == [] || (!Starts(After(Before(actions)), Last(actions)) && NoneStarted(Before(actions)))
  }

  // Since the last reply a capture was announced, or there was no reply yet.
  predicate Awaits(actions: seq<Action>)
    requires Possible(actions)
    decreases |actions|
  {
    actions == [] || (!Last(actions).Replies?
                      && (Announces(After(Before(actions)), Last(actions)) || Awaits(Before(actions))))
  }

  // The last reply was the first, or a capture was announced between the reply before it and it.
  predicate LastAwaited(actions: seq<Action>)
    requires Possible(actions)
    decreases |actions|
  {
    actions != [] && (if Last(actions).Replies? then Awaits(Before(actions)) else LastAwaited(Before(actions)))
  }

  // The last capture was asked for while none was in flight, and it was announced or it was the first of all.
  predicate LastAlone(actions: seq<Action>)
    requires Possible(actions)
    decreases |actions|
  {
    actions != []
    && var before := After(Before(actions));
       if Starts(before, Last(actions))
       then before.captures == 0 && (Announces(before, Last(actions)) || NoneStarted(Before(actions)))
       else LastAlone(Before(actions))
  }

  // What is in flight decides which of the two are the same.
  ghost predicate Counted(actions: seq<Action>)
    requires Possible(actions)
  {
    var p := After(actions);
    && (Awaits(actions) ==> p.seeding)
    && (NoneStarted(actions) ==> p.captures == 0 && Awaits(actions) && !LastAlone(actions))
    && (!NoneStarted(actions) && p.captures == 0 ==> !Awaits(actions) && (LastAwaited(actions) <==> LastAlone(actions)))
    && (p.captures == 1 ==> (Awaits(actions) <==> LastAlone(actions)))
    && (p.captures > 1 ==> !LastAlone(actions))
  }

  lemma {:induction false} AllCounted(actions: seq<Action>)
    requires Possible(actions)
    ensures Counted(actions)
    decreases |actions|
  {
    hide Show;
    if actions != [] { AllCounted(Before(actions)); }
  }

  /********** The screen is right **********/

  // What the screen shows, by the run: all output after a reply that was waited for, and otherwise something else.
  ghost predicate Shows(actions: seq<Action>)
    requires Possible(actions)
  {
    var p := After(actions);
    var screen := Show(p.frames, p.output);
    && Settled(p.frames, |p.output|)
    && (screen.awaiting <==> Awaits(actions))
    && (!p.seeding && !p.dropped ==> screen.shown == if LastAwaited(actions) then Exact(p.output) else Mixed)
  }

  // A step that sends nothing, or one frame.
  lemma SendShows(frames: seq<Frame>, f: Frame, output: seq<Byte>, more: seq<Byte>)
    requires Settled(frames, |output|)
    ensures Show(frames, output + more) == Show(frames, output)
    ensures Show(frames + [f], output + more) == Apply(Show(frames, output), f, output + more)
  {
    ShowStable(frames, output, more);
    ShowSent(frames, f, output + more);
  }

  lemma PutsShows(actions: seq<Action>, bytes: seq<Byte>, active: bool)
    requires Possible(actions + [Puts(bytes, active)]) && Possible(actions) && After(actions).open
    requires Shows(actions) && Counted(actions)
    ensures After(actions + [Puts(bytes, active)]).open ==> Shows(actions + [Puts(bytes, active)])
  {
    hide Show;
    var p := After(actions);
    One(actions, Puts(bytes, active));
    assert Before(actions + [Puts(bytes, active)]) == actions;
    SendShows(p.frames, Output(bytes), p.output, bytes);
  }

  lemma RepliesShows(actions: seq<Action>, active: bool)
    requires Possible(actions + [Replies(active)]) && Possible(actions) && After(actions).open && Shows(actions)
    ensures After(actions + [Replies(active)]).open ==> Shows(actions + [Replies(active)])
  {
    hide Show;
    var p := After(actions);
    assert Before(actions + [Replies(active)]) == actions;
    SendShows(p.frames, Seed(|p.output|), p.output, []);
    assert p.output + [] == p.output && p.output[..|p.output|] == p.output;
  }

  // A step that sends nothing.
  lemma QuietShows(actions: seq<Action>, a: Action)
    requires Possible(actions + [a]) && Possible(actions) && Shows(actions) && Counted(actions)
    requires a.FirstSeed? || (a.Acks? && !Announces(After(actions), a))
    ensures Shows(actions + [a])
  {
    hide Show;
    assert Before(actions + [a]) == actions;
  }

  lemma ResetShows(actions: seq<Action>, a: Action)
    requires Possible(actions + [a]) && Possible(actions) && After(actions).open && Shows(actions)
    requires Announces(After(actions), a)
    ensures After(actions + [a]).open ==> Shows(actions + [a])
  {
    hide Show;
    var p := After(actions);
    assert Before(actions + [a]) == actions;
    SendShows(p.frames, Reseed, p.output, []);
    assert p.output + [] == p.output;
    assert After(actions + [a]).open ==> After(actions + [a]).frames == p.frames + [Reseed];
  }

  lemma StepShows(actions: seq<Action>, a: Action)
    requires Possible(actions + [a]) && Possible(actions) && After(actions).open && Shows(actions) && Counted(actions)
    ensures After(actions + [a]).open ==> Shows(actions + [a])
  {
    hide Show, Possible, After, Shows, Counted;
    match a
    case Puts(bytes, active) => PutsShows(actions, bytes, active);
    case Replies(active) => RepliesShows(actions, active);
    case FirstSeed => QuietShows(actions, a);
    case Closes => One(actions, a);
    case _ => if Announces(After(actions), a) { ResetShows(actions, a); } else { QuietShows(actions, a); }
  }

  lemma {:induction false} AllShow(actions: seq<Action>)
    requires Possible(actions) && After(actions).open
    ensures Shows(actions)
    decreases |actions|
  {
    if actions != [] {
      assert actions == Before(actions) + [Last(actions)];
      AllShow(Before(actions));
      AllCounted(Before(actions));
      StepShows(Before(actions), Last(actions));
    }
  }

  /**
   In every run, while the socket is open, not seeding and not dropped, the browser shows the last seed followed by
   every byte put out since, in order, exactly the whole output, if and only if the last reply was waited for: it
   was the first, or a reset was announced since the reply before it.
   */
  lemma ScreenIsExact(actions: seq<Action>)
    requires Possible(actions)
    requires var p := After(actions); p.open && !p.seeding && !p.dropped
    ensures var p := After(actions);
            Show(p.frames, p.output) == Screen(false, Exact(p.output)) <==> LastAwaited(actions)
  {
    AllShow(actions);
    AllCounted(actions);
  }

  /**
   Once no capture is in flight, that is so if and only if the last capture was asked for while none was in flight,
   and by a reset or as the very first: neither a reset during a seed nor a first seed after a reset.
   */
  lemma LoneCapturesAreExact(actions: seq<Action>)
    requires Possible(actions)
    requires var p := After(actions); p.open && !p.seeding && !p.dropped && p.captures == 0
    ensures var p := After(actions);
            Show(p.frames, p.output) == Screen(false, Exact(p.output)) <==> LastAlone(actions)
  {
    AllShow(actions);
    AllCounted(actions);
  }

  lemma Four(a: Action, b: Action, c: Action, d: Action)
    requires Enabled(INITIAL, a) && Enabled(Next(INITIAL, a), b) && Enabled(Next(Next(INITIAL, a), b), c)
    requires Enabled(Next(Next(Next(INITIAL, a), b), c), d)
    ensures Possible([a, b, c, d]) && After([a, b, c, d]) == Next(Next(Next(Next(INITIAL, a), b), c), d)
  {
    One([], a);
    assert [] + [a] == [a];
    One([a], b);
    assert [a] + [b] == [a, b];
    One([a, b], c);
    assert [a, b] + [c] == [a, b, c];
    One([a, b, c], d);
    assert [a, b, c] + [d] == [a, b, c, d];
  }

  lemma SecondSeedMixes()
    ensures Show([Reseed, Seed(0), Seed(0)], []) == Screen(false, Mixed)
  {
    ShowSent([], Reseed, []);
    ShowSent([Reseed], Seed(0), []);
    ShowSent([Reseed, Seed(0)], Seed(0), []);
    assert [] + [Reseed] == [Reseed] && [Reseed] + [Seed(0)] == [Reseed, Seed(0)];
    assert [Reseed, Seed(0)] + [Seed(0)] == [Reseed, Seed(0), Seed(0)];
  }

  // The stream looks healthy and the screen is not the output.
  ghost predicate LooksHealthy(p: Pane) {
    && p.open && p.seeded && !p.seeding && !p.dropped && p.captures == 0
    && Show(p.frames, p.output) == Screen(false, Mixed)
  }

  /**
   A reset that fires while a seed is in flight breaks the claim: the second seed is written over the first
   instead of replacing it.
   */
  lemma OverlapMixes() returns (actions: seq<Action>)
    ensures Possible(actions) && LooksHealthy(After(actions))
  {
    hide Possible, After, Show;
    actions := [FirstSeed, Loses(true), Replies(true), Replies(true)];
    Four(FirstSeed, Loses(true), Replies(true), Replies(true));
    assert After(actions).frames == [Reseed, Seed(0), Seed(0)];
    SecondSeedMixes();
  }

  /** So does a reset before the first seed was asked for: that seed is not announced to a browser that has one. */
  lemma EarlyResetMixes() returns (actions: seq<Action>)
    ensures Possible(actions) && LooksHealthy(After(actions))
  {
    hide Possible, After, Show;
    actions := [Loses(true), Replies(true), FirstSeed, Replies(true)];
    Four(Loses(true), Replies(true), FirstSeed, Replies(true));
    assert After(actions).frames == [Reseed, Seed(0), Seed(0)];
    SecondSeedMixes();
  }

  /********** Output that is sent and output that is dropped **********/

  /**
   On an open stream that is not seeding, a chunk is sent as one output frame, and counted, if and only if fewer than
   256 KiB are counted; otherwise it is dropped, and nothing else is. While a seed is in flight a chunk is left to it.
   */
  lemma ChunkIsSentExactly(p: Pane, bytes: seq<Byte>)
    requires p.open
    ensures var p' := Next(p, Puts(bytes, true));
            && p'.output == p.output + bytes && p'.open && p'.captures == p.captures
            && (p'.frames == p.frames + [Output(bytes)] <==> !p.seeding && p.unacked < HIGH)
            && (p'.frames == p.frames + [Output(bytes)]
                ==> p'.unacked == p.unacked + |bytes| && p'.dropped == p.dropped)
            && (p'.frames != p.frames + [Output(bytes)] ==> p'.frames == p.frames && p'.unacked == p.unacked)
            && (p'.dropped <==> p.dropped || (!p.seeding && p.unacked >= HIGH))
  {
    assert p.frames != p.frames + [Output(bytes)];
  }

  // The step drops a chunk.
  predicate Drops(p: Pane, a: Action) { a.Puts? && !p.seeding && p.unacked >= HIGH }

  // Since the last capture was asked for, a chunk was dropped.
  predicate DroppedSince(actions: seq<Action>)
    requires Possible(actions)
    decreases |actions|
  {
    actions != []
    && var before := After(Before(actions));
       !Starts(before, Last(actions)) && (Drops(before, Last(actions)) || DroppedSince(Before(actions)))
  }

  /**
   In every run, output is being dropped if and only if, since the last capture was asked for, a chunk came while at
   least 256 KiB were counted; and the bytes so counted were sent to the browser and are not acknowledged.
   */
  lemma {:induction false} DroppingExactly(actions: seq<Action>)
    requires Possible(actions)
    ensures After(actions).dropped <==> DroppedSince(actions)
    ensures actions != [] && Drops(After(Before(actions)), Last(actions)) ==> HIGH <= After(Before(actions)).owed
    decreases |actions|
  {
    hide Next;
    if actions != [] {
      DroppingExactly(Before(actions));
      OwedBelow(Before(actions));
      StepDrops(After(Before(actions)), Last(actions));
    }
  }

  lemma StepDrops(p: Pane, a: Action)
    requires Enabled(p, a)
    ensures Next(p, a).dropped <==> !Starts(p, a) && (Drops(p, a) || p.dropped)
  {
  }

  lemma {:induction false} OwedBelow(actions: seq<Action>)
    requires Possible(actions)
    ensures After(actions).unacked <= After(actions).owed
    decreases |actions|
  {
    if actions != [] { OwedBelow(Before(actions)); }
  }

  function OutputBytes(frames: seq<Frame>): nat {
    if frames == [] then 0
    else OutputBytes(frames[..|frames| - 1])
         + (if frames[|frames| - 1].Output? then |frames[|frames| - 1].bytes| else 0)
  }

  // The output sent since the last capture was asked for, less what of it the browser acknowledged.
  function Outstanding(actions: seq<Action>): int
    requires Possible(actions)
    decreases |actions|
  {
    if actions == [] then 0
    else
      var p, a := After(Before(actions)), Last(actions);
      if Starts(p, a) then 0
      else Outstanding(Before(actions)) + OutputBytes(After(actions).frames) - OutputBytes(p.frames)
           - (if a.Acks? then a.owed else 0)
  }

  // Every acknowledgement since the last capture was asked for is for output sent since then.
  predicate AcksOutput(actions: seq<Action>)
    requires Possible(actions)
    decreases |actions|
  {
    actions == []
    || Starts(After(Before(actions)), Last(actions))
    || (AcksOutput(Before(actions)) && (Last(actions).Acks? ==> Last(actions).owed == Last(actions).count))
  }

  /**
   In every run of an open stream, what is owed is the output sent since the last capture was asked for and not yet
   acknowledged. What is counted is never more, and it is exactly that unless an acknowledgement of older bytes came.
   */
  lemma {:induction false} CountsExactly(actions: seq<Action>)
    requires Possible(actions) && After(actions).open
    ensures After(actions).owed == Outstanding(actions)
    ensures After(actions).unacked <= After(actions).owed
    ensures AcksOutput(actions) ==> After(actions).unacked == After(actions).owed
    decreases |actions|
  {
    hide Next, OutputBytes;
    OwedBelow(actions);
    if actions != [] {
      StaysOpen(After(Before(actions)), Last(actions));
      CountsExactly(Before(actions));
      StepCounts(After(Before(actions)), Last(actions));
    }
  }

  lemma StaysOpen(p: Pane, a: Action)
    requires Enabled(p, a) && Next(p, a).open
    ensures p.open
  {
  }

  lemma StepCounts(p: Pane, a: Action)
    requires Enabled(p, a) && p.open && Next(p, a).open
    ensures var p' := Next(p, a);
            var acked := if a.Acks? then a.owed else 0;
            if Starts(p, a) then p'.owed == 0 && p'.unacked == 0
            else && p'.owed == p.owed + OutputBytes(p'.frames) - OutputBytes(p.frames) - acked
                 && (p.unacked == p.owed && (a.Acks? ==> a.owed == a.count) ==> p'.unacked == p'.owed)
  {
    hide OutputBytes;
    match a
    case Puts(bytes, active) => BytesMore(p.frames, Output(bytes));
    case Replies(active) => BytesMore(p.frames, Seed(|p.output|));
    case _ =>
  }

  lemma BytesMore(frames: seq<Frame>, f: Frame)
    ensures OutputBytes(frames + [f]) == OutputBytes(frames) + if f.Output? then |f.bytes| else 0
  {
    assert (frames + [f])[..|frames|] == frames;
  }

  /********** Recovery **********/

  // `unacked` underestimates what the browser still owes.
  ghost predicate Owing(p: Pane, chunk: nat) {
    && p.unacked <= p.owed
    && p.unacked < HIGH + chunk
    && (p.dropped ==> LOW <= p.unacked)
  }

  lemma NextOwes(p: Pane, a: Action, chunk: nat)
    requires Enabled(p, a) && Owing(p, chunk) && (a.Puts? ==> |a.bytes| <= chunk)
    ensures Owing(Next(p, a), chunk)
  {
  }

  ghost predicate ChunksWithin(actions: seq<Action>, chunk: nat) {
    forall a :: a in actions && a.Puts? ==> |a.bytes| <= chunk
  }

  lemma {:induction false} RunOwes(actions: seq<Action>, chunk: nat)
    requires Possible(actions) && ChunksWithin(actions, chunk)
    ensures Owing(After(actions), chunk)
    decreases |actions|
  {
    if actions != [] {
      assert Last(actions) in actions;
      RunOwes(Before(actions), chunk);
      NextOwes(After(Before(actions)), Last(actions), chunk);
    }
  }

  /**
   Backpressure recovery cannot get stuck. Whenever output is being dropped, at least 64 KiB that the browser
   has received since the last reset are still unacknowledged, so another acknowledgement will come; and
   what is counted stays below 256 KiB and one chunk. It holds in every run.
   */
  lemma RecoveryIsNeverStuck(actions: seq<Action>, chunk: nat)
    requires Possible(actions) && ChunksWithin(actions, chunk)
    ensures var p := After(actions);
            && (p.dropped ==> LOW <= p.unacked <= p.owed)
            && p.unacked <= p.owed && p.unacked < HIGH + chunk
            && (p.owed == 0 ==> !p.dropped)
  {
    RunOwes(actions, chunk);
  }

  /** Acknowledging everything that is owed always asks for a new seed, and tells the browser so. */
  lemma AckingAllReseeds(p: Pane, chunk: nat, count: nat)
    requires Owing(p, chunk) && p.dropped && p.open && p.owed <= count
    ensures var p' := Acknowledge(p, count, p.owed, true);
            p'.frames == p.frames + [Reseed] && p'.captures == p.captures + 1 && !p'.dropped && p'.unacked == 0
  {
  }

  /**
   An acknowledgement asks for a new seed, announced to the browser, if and only if output is being dropped and less
   than 64 KiB stays counted; otherwise it only counts down.
   */
  lemma RecoversExactly(p: Pane, count: nat, owed: nat)
    requires p.open && owed <= count && owed <= p.owed
    ensures var p' := Next(p, Acks(count, owed, true));
            var left := if p.unacked >= count then p.unacked - count else 0;
            && (p'.captures == p.captures + 1 <==> p.dropped && left < LOW)
            && (p'.captures == p.captures + 1 ==> p'.frames == p.frames + [Reseed] && p'.seeding && !p'.dropped)
            && (p'.captures != p.captures + 1 ==> p' == p.(unacked := left, owed := p.owed - owed))
  {
  }

  /********** The socket **********/

  // A socket whose chunks of output have at most `chunk` bytes.
  class PaneSocket {
    ghost const chunk: nat
    var unacked: nat
    var dropped: bool
    var seeding: bool
    var seeded: bool
    var open: bool
    var captures: nat
    ghost var output: seq<Byte>
    ghost var frames: seq<Frame>
    ghost var owed: nat
    ghost var trace: seq<Action>

    ghost function View(): Pane
      reads this
    {
      Pane(unacked, dropped, seeding, seeded, open, captures, output, frames, owed)
    }

    // The variables are those of the callbacks so far.
    ghost predicate Valid()
      reads this
    {
      Possible(trace) && View() == After(trace) && Owing(View(), chunk)
    }

    // The browser shows all output exactly after a lone capture; output is dropped exactly once 256 KiB are counted,
    // and then an acknowledgement is still to come.
    ghost predicate Right()
      reads this
      requires Possible(trace)
    {
      && (open && !seeding && !dropped ==>
          && (Show(frames, output) == Screen(false, Exact(output)) <==> LastAwaited(trace))
          && (captures == 0 ==> (Show(frames, output) == Screen(false, Exact(output)) <==> LastAlone(trace))))
      && (dropped <==> DroppedSince(trace)) && (dropped ==> LOW <= unacked <= owed) && unacked < HIGH + chunk
    }

    // Record a callback that is about to run.
    ghost method Note(a: Action)
      requires Valid() && Enabled(View(), a) && (a.Puts? ==> |a.bytes| <= chunk)
      modifies this`trace
      ensures Possible(trace) && trace == old(trace) + [a] && After(trace) == Next(View(), a)
      ensures Owing(After(trace), chunk)
    {
      One(trace, a);
      NextOwes(View(), a, chunk);
      trace := trace + [a];
    }

    lemma IsRight()
      requires Valid()
      ensures Right()
    {
      DroppingExactly(trace);
      if open && !seeding && !dropped {
        ScreenIsExact(trace);
        if captures == 0 { LoneCapturesAreExact(trace); }
      }
    }

    constructor (ghost chunk: nat)
      ensures this.chunk == chunk && View() == INITIAL && Valid()
    {
      this.chunk := chunk;
      unacked, dropped, seeding, seeded, open, captures := 0, false, true, false, true, 0;
      output, frames, owed, trace := [], [], 0, [];
    }

    method SendFrame(ghost frame: Frame, active: bool)
      modifies this`open, this`frames
      ensures View() == Send(old(View()), frame, active)
    {
      if !active { open := false; } else if open { frames := frames + [frame]; }
    }

    method OnOutput(bytes: seq<Byte>, active: bool)
      requires Valid() && |bytes| <= chunk
      modifies this
      ensures View() == Next(old(View()), Puts(bytes, active)) && trace == old(trace) + [Puts(bytes, active)]
      ensures Valid() && Right()
    {
      hide Right, After, Possible;
      Note(Puts(bytes, active));
      output := output + bytes;
      if seeding { IsRight(); return; }
      if unacked >= HIGH { dropped := true; IsRight(); return; }
      unacked, owed := unacked + |bytes|, owed + |bytes|;
      SendFrame(Output(bytes), active);
      IsRight();
    }

    // `reseed` up to its await.
    method BeginReseed()
      modifies this`seeding, this`unacked, this`dropped, this`owed, this`captures
      ensures View() == StartSeed(old(View()))
    {
      seeding, unacked, dropped, owed := true, 0, false, 0;
      captures := captures + 1;
    }

    method OnceSized()
      requires Valid()
      modifies this
      ensures View() == Next(old(View()), FirstSeed) && trace == old(trace) + [FirstSeed]
      ensures Valid() && Right()
    {
      hide Right, After, Possible;
      Note(FirstSeed);
      if seeded || !open { IsRight(); return; }
      seeded := true;
      BeginReseed();
      IsRight();
    }

    // `reseed` after its await.
    method OnCapture(active: bool)
      requires Valid() && captures > 0
      modifies this
      ensures View() == Next(old(View()), Replies(active)) && trace == old(trace) + [Replies(active)]
      ensures Valid() && Right()
    {
      hide Right, After, Possible;
      Note(Replies(active));
      captures := captures - 1;
      if open { SendFrame(Seed(|output|), active); }
      seeding := false;
      IsRight();
    }

    method AskReseed(active: bool)
      modifies this`open, this`frames, this`seeding, this`unacked, this`dropped, this`owed, this`captures
      ensures View() == Reset(old(View()), active)
    {
      SendFrame(Reseed, active);
      BeginReseed();
    }

    // tmux lost output, at any time.
    method OnReseed(active: bool)
      requires Valid()
      modifies this
      ensures View() == Next(old(View()), Loses(active)) && trace == old(trace) + [Loses(active)]
      ensures Valid() && Right()
    {
      hide Right, After, Possible;
      Note(Loses(active));
      AskReseed(active);
      IsRight();
    }

    method OnAck(count: nat, ghost owedCount: nat, active: bool)
      requires Valid() && owedCount <= count && owedCount <= owed
      modifies this
      ensures View() == Next(old(View()), Acks(count, owedCount, active))
      ensures trace == old(trace) + [Acks(count, owedCount, active)]
      ensures Valid() && Right()
    {
      hide Right, After, Possible;
      Note(Acks(count, owedCount, active));
      unacked := if unacked >= count then unacked - count else 0;
      owed := owed - owedCount;
      if dropped && unacked < LOW {
        dropped := false;
        AskReseed(active);
      }
      IsRight();
    }
  }
}
