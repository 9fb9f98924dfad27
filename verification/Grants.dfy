/**
 Cross-tab preview approvals over localStorage (apps/web/src/browser-permission-grants.ts).

 One (origin, capability) site owns one pointer key and one grant key per choice token. Any number of
 calls, in any number of tabs, run interleaved: one step of the model is one localStorage call, and a
 step may fail, which stands for a storage exception. Tokens come from `crypto.randomUUID` and are fresh.
 */
module Grants {
  import opened Wrappers

  type Token = nat
  type Call = nat

  // What the pointer key holds: nothing, a value that is no generated token, or a generated token.
  datatype Pointer = Absent | Malformed | Choice(token: Token)

  // What a grant key holds when it is present.
  datatype Mark = Allow | Other

  // A revocation draws a token too, but its caller never saves under it.
  datatype Purpose = ForApproval | ForRevocation

  // Where one running call stands: the storage call it makes next, with its locals.
  datatype Frame =
    | SavedReadPointer
    | SavedReadGrant(token: Token)
    | SavedReadAgain(token: Token)
    | BeginReadPrevious(purpose: Purpose)
    | BeginRotate(purpose: Purpose, previous: Pointer, token: Token)
    | BeginRemoveOld(purpose: Purpose, prior: Token, token: Token)
    | BeginVerifyOld(purpose: Purpose, prior: Token, token: Token)
    | BeginConfirm(purpose: Purpose, token: Token, cleared: bool)
    | BeginFallback(purpose: Purpose)
    | SaveReadPointer(token: Token)
    | SaveWrite(token: Token)
    | SaveReadGrant(token: Token)
    | SaveReadAgain(token: Token)
    | SaveRemove(token: Token)
    | SaveVerify(token: Token)

  datatype Approval = Ready(token: Token, cleared: bool) | Superseded | Unavailable(empty: bool)

  // What a call returns to its caller.
  datatype Result = SavedToken(token: Option<Token>) | Began(purpose: Purpose, approval: Approval) | Stored(ok: bool)

  datatype State = State(
    pointer: Pointer,
    grants: map<Token, Mark>,
    frames: map<Call, Frame>,
    // history that no call reads
    issued: set<Token>,      // tokens generated, or found in storage when the run starts
    seen: set<Token>,        // tokens the pointer has held
    tombstones: set<Token>,  // tokens generated for a revocation
    approvable: set<Token>,  // tokens an approval was told are ready
    written: set<Token>,     // tokens whose grant was written, or present when the run starts
    broken: set<Token>)      // tokens one of whose saves met a storage exception

  datatype Start = CallSaved | CallBegin(purpose: Purpose) | CallSave(token: Token)

  datatype Action =
    | Invoke(call: Call, start: Start)
    | Step(call: Call, ok: bool, drawn: Token)

  // The key pair alone decides what `savedBrowserPermissionToken` may answer.
  predicate Approved(s: State, t: Token) {
    s.pointer == Choice(t) && t in s.grants && s.grants[t] == Allow
  }

  predicate Enabled(s: State, a: Action) {
    match a
    case Invoke(c, start) => c !in s.frames && (start.CallSave? ==> start.token in s.approvable)
    case Step(c, ok, drawn) => c in s.frames && drawn !in s.issued
  }

  // What one storage call leads to: the call's next frame or its result.
  datatype Outcome = Continue(frame: Frame) | Return(result: Result)

  function Finish(p: Purpose, a: Approval): Outcome { Return(Began(p, a)) }

  // `removeGrant` ignores values that never named a generated choice.
  function AfterRotate(p: Purpose, previous: Pointer, token: Token): Outcome {
    match previous
    case Choice(prior) => Continue(BeginRemoveOld(p, prior, token))
    case _ => Continue(BeginConfirm(p, token, true))
  }

  // The control flow of each function, given what its storage call read and whether it threw.
  function Advance(s: State, f: Frame, ok: bool, drawn: Token): Outcome {
    match f
    case SavedReadPointer =>
      if ok && s.pointer.Choice? then Continue(SavedReadGrant(s.pointer.token)) else Return(SavedToken(None))
    case SavedReadGrant(t) =>
      if ok && t in s.grants && s.grants[t] == Allow then Continue(SavedReadAgain(t)) else Return(SavedToken(None))
    case SavedReadAgain(t) =>
      Return(SavedToken(if ok && s.pointer == Choice(t) then Some(t) else None))
    case BeginReadPrevious(p) =>
      if ok then Continue(BeginRotate(p, s.pointer, drawn)) else Continue(BeginFallback(p))
    case BeginRotate(p, previous, t) =>
      if ok then AfterRotate(p, previous, t) else Continue(BeginFallback(p))
    case BeginRemoveOld(p, prior, t) =>
      if ok then Continue(BeginVerifyOld(p, prior, t)) else Continue(BeginConfirm(p, t, false))
    case BeginVerifyOld(p, prior, t) => Continue(BeginConfirm(p, t, ok && prior !in s.grants))
    case BeginConfirm(p, t, cleared) =>
      if !ok then Continue(BeginFallback(p))
      else if s.pointer == Choice(t) then Finish(p, Ready(t, cleared))
      else Finish(p, Superseded)
    case BeginFallback(p) => Finish(p, Unavailable(ok && s.pointer == Absent))
    case SaveReadPointer(t) =>
      if ok && s.pointer == Choice(t) then Continue(SaveWrite(t)) else Return(Stored(false))
    case SaveWrite(t) => if ok then Continue(SaveReadGrant(t)) else Continue(SaveRemove(t))
    case SaveReadGrant(t) =>
      if ok && t in s.grants && s.grants[t] == Allow then Continue(SaveReadAgain(t)) else Continue(SaveRemove(t))
    case SaveReadAgain(t) =>
      if ok && s.pointer == Choice(t) then Return(Stored(true)) else Continue(SaveRemove(t))
    case SaveRemove(t) => if ok then Continue(SaveVerify(t)) else Return(Stored(false))
    case SaveVerify(t) => Return(Stored(false))
  }

  // The storage call itself; a call that throws leaves storage as it was.
  function Store(s: State, f: Frame, ok: bool): State {
    if !ok then s
    else
      match f
      case BeginRotate(p, previous, t) => s.(pointer := Choice(t), seen := s.seen + {t})
      case BeginRemoveOld(p, prior, t) => s.(grants := s.grants - {prior})
      case SaveWrite(t) => s.(grants := s.grants[t := Allow], written := s.written + {t})
      case SaveRemove(t) => s.(grants := s.grants - {t})
      case _ => s
  }

  function SavingToken(f: Frame): Option<Token> {
    match f
    case SaveWrite(t) => Some(t)
    case SaveReadGrant(t) => Some(t)
    case SaveReadAgain(t) => Some(t)
    case SaveRemove(t) => Some(t)
    case SaveVerify(t) => Some(t)
    case _ => None
  }

  // Record what the step shows: fresh tokens, ready choices, and saves that met an exception.
  function Record(s: State, f: Frame, ok: bool, drawn: Token, o: Outcome): State {
    s.(issued := if f.BeginReadPrevious? && ok then s.issued + {drawn} else s.issued,
       tombstones := if f.BeginReadPrevious? && ok && f.purpose == ForRevocation then s.tombstones + {drawn}
         else s.tombstones,
       approvable := if o.Return? && o.result.Began? && o.result.purpose == ForApproval && o.result.approval.Ready?
                     then s.approvable + {o.result.approval.token} else s.approvable,
       broken := if !ok && SavingToken(f).Some? then s.broken + {SavingToken(f).value} else s.broken)
  }

  function Opening(start: Start): Frame {
    match start
    case CallSaved => SavedReadPointer
    case CallBegin(p) => BeginReadPrevious(p)
    case CallSave(t) => SaveReadPointer(t)
  }

  function Next(s: State, a: Action): State
    requires Enabled(s, a)
  {
    match a
    case Invoke(c, start) => s.(frames := s.frames[c := Opening(start)])
    case Step(c, ok, drawn) =>
      var f := s.frames[c];
      var o := Advance(s, f, ok, drawn);
      var s' := Record(Store(s, f, ok), f, ok, drawn, o);
      s'.(frames := if o.Continue? then s'.frames[c := o.frame] else s'.frames - {c})
  }

  // What call `c` returns if its next storage call is its last.
  function Returns(s: State, c: Call, ok: bool): Option<Result>
    requires c in s.frames
  {
    var o := Advance(s, s.frames[c], ok, 0);
    if o.Return? then Some(o.result) else None
  }

  // An action that is not enabled stands for none.
  function After(s: State, acts: seq<Action>): State
    decreases |acts|
  {
    if acts == [] then s
    else if Enabled(s, acts[0]) then After(Next(s, acts[0]), acts[1..])
    else After(s, acts[1..])
  }

  // Storage may hold anything that earlier sessions left behind.
  predicate Init(s: State) {
    && s.frames == map[]
    && s.seen == (if s.pointer.Choice? then {s.pointer.token} else {})
    && s.written == s.grants.Keys
    && s.seen + s.written <= s.issued
    && s.tombstones == {} && s.approvable == {} && s.broken == {}
  }

  predicate Failing(a: Action) { a.Step? && !a.ok }

  /********** The invariant **********/

  // t has been the pointer and has been superseded.
  predicate Spent(s: State, t: Token) { t in s.seen && s.pointer != Choice(t) }

  ghost predicate FrameOk(s: State, f: Frame) {
    match f
    case SavedReadPointer => true
    case SavedReadGrant(t) => t in s.seen
    case SavedReadAgain(t) => t in s.seen && t in s.written && (Approved(s, t) || Spent(s, t) || t in s.broken)
    case BeginReadPrevious(p) => true
    case BeginRotate(p, previous, t) =>
      t in s.issued && t !in s.seen && t !in s.written && (p.ForRevocation? <==> t in s.tombstones)
      && (previous.Choice? ==> previous.token in s.seen)
    case BeginRemoveOld(p, prior, t) => t in s.seen && (p.ForRevocation? <==> t in s.tombstones) && Spent(s, prior)
    case BeginVerifyOld(p, prior, t) => t in s.seen && (p.ForRevocation? <==> t in s.tombstones) && Spent(s, prior)
    case BeginConfirm(p, t, cleared) => t in s.seen && (p.ForRevocation? <==> t in s.tombstones)
    case BeginFallback(p) => true
    case SaveReadPointer(t) => t in s.approvable
    case SaveWrite(t) => t in s.approvable
    case SaveReadGrant(t) => t in s.approvable && t in s.written && (Approved(s, t) || Spent(s, t) || t in s.broken)
    case SaveReadAgain(t) => t in s.approvable && t in s.written && (Approved(s, t) || Spent(s, t) || t in s.broken)
    case SaveRemove(t) => t in s.approvable && (Spent(s, t) || t in s.broken)
    case SaveVerify(t) => t in s.approvable && (Spent(s, t) || t in s.broken)
  }

  predicate StoreOk(s: State) {
    && s.grants.Keys <= s.written
    && (s.pointer.Choice? ==> s.pointer.token in s.seen)
    && s.seen + s.written + s.tombstones <= s.issued
    && s.approvable <= s.seen
    && s.approvable !! s.tombstones
    && s.written !! s.tombstones
  }

  // Two running begins never hold the same token before they rotate.
  ghost predicate Distinct(frames: map<Call, Frame>) {
    forall c, d :: c in frames && d in frames && c != d && frames[c].BeginRotate? && frames[d].BeginRotate?
          ==> frames[c].token != frames[d].token
  }

  ghost predicate Valid(s: State) {
    && StoreOk(s)
    && (forall c :: c in s.frames ==> FrameOk(s, s.frames[c]))
    && Distinct(s.frames)
  }

  lemma InitIsValid(s: State)
    requires Init(s)
    ensures Valid(s)
  {
  }

  // A step of one call leaves every other call's frame sound.
  lemma OtherFramesKeep(s: State, c: Call, ok: bool, drawn: Token, d: Call)
    requires Valid(s) && Enabled(s, Step(c, ok, drawn)) && d in s.frames && d != c
    ensures FrameOk(Next(s, Step(c, ok, drawn)), s.frames[d])
  {
    var f := s.frames[c];
    assert FrameOk(s, f) && FrameOk(s, s.frames[d]);
  }

  lemma OwnFrameKeeps(s: State, c: Call, ok: bool, drawn: Token)
    requires Valid(s) && Enabled(s, Step(c, ok, drawn))
    ensures var o := Advance(s, s.frames[c], ok, drawn);
            o.Continue? ==> FrameOk(Next(s, Step(c, ok, drawn)), o.frame)
  {
    assert FrameOk(s, s.frames[c]);
  }

  lemma InvokeKeeps(s: State, c: Call, start: Start)
    requires Valid(s) && Enabled(s, Invoke(c, start))
    ensures Valid(Next(s, Invoke(c, start)))
  {
    var s' := Next(s, Invoke(c, start));
    forall d | d in s'.frames ensures FrameOk(s', s'.frames[d]) {
      if d != c { assert FrameOk(s, s.frames[d]); }
    }
  }

  lemma StoreKeeps(s: State, c: Call, ok: bool, drawn: Token)
    requires Valid(s) && Enabled(s, Step(c, ok, drawn))
    ensures var s' := Next(s, Step(c, ok, drawn));
            && StoreOk(s')
            && Distinct(s'.frames)
  {
    assert FrameOk(s, s.frames[c]);
  }

  lemma NextKeepsValid(s: State, a: Action)
    requires Valid(s) && Enabled(s, a)
    ensures Valid(Next(s, a))
  {
    match a
    case Invoke(c, start) => InvokeKeeps(s, c, start);
    case Step(c, ok, drawn) =>
      hide FrameOk, StoreOk, Advance, Store, Record;
      var s' := Next(s, a);
      StoreKeeps(s, c, ok, drawn);
      OwnFrameKeeps(s, c, ok, drawn);
      forall d | d in s'.frames ensures FrameOk(s', s'.frames[d]) {
        if d != c { OtherFramesKeep(s, c, ok, drawn, d); }
      }
  }

  lemma {:induction false} AfterKeepsValid(s: State, acts: seq<Action>)
    requires Valid(s)
    ensures Valid(After(s, acts))
    decreases |acts|
  {
    if acts != [] {
      if Enabled(s, acts[0]) {
        NextKeepsValid(s, acts[0]);
        AfterKeepsValid(Next(s, acts[0]), acts[1..]);
      } else {
        AfterKeepsValid(s, acts[1..]);
      }
    }
  }

  /********** What the calls promise **********/

  predicate Faultless(acts: seq<Action>) { forall i :: 0 <= i < |acts| ==> !Failing(acts[i]) }

  lemma {:induction false} FaultlessBreaksNothing(s: State, acts: seq<Action>)
    requires Faultless(acts)
    ensures After(s, acts).broken == s.broken
    decreases |acts|
  {
    if acts != [] {
      assert !Failing(acts[0]);
      FaultlessBreaksNothing(if Enabled(s, acts[0]) then Next(s, acts[0]) else s, acts[1..]);
    }
  }

  /** Whatever calls are still running, a superseded choice never becomes the pointer again, so it never
      becomes an approval again. */
  lemma {:induction false} SupersededForever(s: State, acts: seq<Action>, t: Token)
    requires Valid(s) && Spent(s, t)
    ensures Spent(After(s, acts), t) && !Approved(After(s, acts), t)
    decreases |acts|
  {
    if acts != [] {
      if Enabled(s, acts[0]) {
        var s' := Next(s, acts[0]);
        NextKeepsValid(s, acts[0]);
        assert Spent(s', t) by {
          if acts[0].Step? { assert FrameOk(s, s.frames[acts[0].call]); }
        }
        SupersededForever(s', acts[1..], t);
      } else {
        SupersededForever(s, acts[1..], t);
      }
    }
  }

  /** When `savedBrowserPermissionToken` answers t, then at its last read t is the pointer, its grant was
      written, and the grant is still there unless a save of t met a storage exception. */
  lemma SavedAnswerIsApproved(s0: State, acts: seq<Action>, c: Call, t: Token)
    requires Init(s0)
    requires var s := After(s0, acts); c in s.frames && Returns(s, c, true) == Some(SavedToken(Some(t)))
    ensures var s := After(s0, acts);
            s.pointer == Choice(t) && t in s.written && (Approved(s, t) || t in s.broken)
    ensures Faultless(acts) ==> Approved(After(s0, acts), t)
  {
    InitIsValid(s0);
    AfterKeepsValid(s0, acts);
    var s := After(s0, acts);
    assert FrameOk(s, s.frames[c]);
    if Faultless(acts) { FaultlessBreaksNothing(s0, acts); }
  }

  // A save puts its grant in place, or takes it back.
  predicate Writes(s: State, a: Action, t: Token) {
    Enabled(s, a) && a.Step? && a.ok && s.frames[a.call] == SaveWrite(t)
  }

  predicate TakesBack(s: State, a: Action, t: Token) {
    Enabled(s, a) && a.Step? && a.ok && s.frames[a.call] == SaveRemove(t)
  }

  // A save takes its grant back at step j, and none puts it in place later.
  ghost predicate LastTakenBack(s: State, acts: seq<Action>, t: Token, j: nat) {
    && j < |acts| && TakesBack(After(s, acts[..j]), acts[j], t)
    && forall k :: j < k < |acts| ==> !Writes(After(s, acts[..k]), acts[k], t)
  }

  ghost predicate TakenBack(s: State, acts: seq<Action>, t: Token) { exists j: nat :: LastTakenBack(s, acts, t, j) }

  // Call c has read the grant of t and makes no step in these actions.
  predicate Waits(acts: seq<Action>, c: Call) { forall i :: 0 <= i < |acts| && acts[i].Step? ==> acts[i].call != c }

  lemma {:induction false} WaitingStays(s: State, acts: seq<Action>, c: Call)
    requires c in s.frames && Waits(acts, c)
    ensures c in After(s, acts).frames && After(s, acts).frames[c] == s.frames[c]
    decreases |acts|
  {
    if acts != [] {
      assert acts[0].Step? ==> acts[0].call != c;
      assert forall i :: 0 <= i < |acts[1..]| ==> acts[1..][i] == acts[i + 1];
      WaitingStays(if Enabled(s, acts[0]) then Next(s, acts[0]) else s, acts[1..], c);
    }
  }

  // One step changes whether t is approved only where a save writes or takes back its grant.
  lemma TouchesGrant(s: State, a: Action, t: Token)
    requires Valid(s) && Enabled(s, a) && t in s.seen && s.pointer == Choice(t) && Next(s, a).pointer == Choice(t)
    ensures Writes(s, a, t) ==> Approved(Next(s, a), t)
    ensures TakesBack(s, a, t) ==> !Approved(Next(s, a), t)
    ensures !Writes(s, a, t) && !TakesBack(s, a, t) ==> (Approved(Next(s, a), t) <==> Approved(s, t))
  {
    if a.Step? { assert FrameOk(s, s.frames[a.call]); }
  }

  lemma TakenBackMore(s: State, acts: seq<Action>, a: Action, t: Token)
    ensures TakenBack(s, acts + [a], t)
       <==> TakesBack(After(s, acts), a, t) || (TakenBack(s, acts, t) && !Writes(After(s, acts), a, t))
  {
    var more, n := acts + [a], |acts|;
    assert forall k :: 0 <= k <= n ==> more[..k] == acts[..k];
    assert acts[..n] == acts && more[n] == a;
    if TakesBack(After(s, acts), a, t) { assert LastTakenBack(s, more, t, n); }
    if TakenBack(s, acts, t) && !Writes(After(s, acts), a, t) {
      var j: nat :| LastTakenBack(s, acts, t, j);
      assert LastTakenBack(s, more, t, j);
    }
    if TakenBack(s, more, t) {
      var j: nat :| LastTakenBack(s, more, t, j);
      if j < n { assert LastTakenBack(s, acts, t, j); }
    }
  }

  lemma SpentBefore(s: State, acts: seq<Action>, a: Action, t: Token)
    requires Valid(s) && t in s.seen && After(s, acts + [a]).pointer == Choice(t)
    ensures After(s, acts).pointer == Choice(t) && t in After(s, acts).seen
  {
    Extends(s, acts, a);
    SeenStays(s, acts, t);
    AfterKeepsValid(s, acts);
    if After(s, acts).pointer != Choice(t) { SupersededForever(After(s, acts), [a], t); }
  }

  lemma {:induction false} SeenStays(s: State, acts: seq<Action>, t: Token)
    requires t in s.seen
    ensures t in After(s, acts).seen
    decreases |acts|
  {
    if acts != [] { SeenStays(if Enabled(s, acts[0]) then Next(s, acts[0]) else s, acts[1..], t); }
  }

  lemma {:induction false} Extends(s: State, acts: seq<Action>, a: Action)
    ensures After(s, acts + [a]) == After(After(s, acts), [a])
    decreases |acts|
  {
    if acts == [] {
      assert acts + [a] == [a];
    } else {
      assert (acts + [a])[0] == acts[0] && (acts + [a])[1..] == acts[1..] + [a];
      Extends(if Enabled(s, acts[0]) then Next(s, acts[0]) else s, acts[1..], a);
    }
  }

  lemma OneAction(s: State, a: Action)
    ensures After(s, [a]) == if Enabled(s, a) then Next(s, a) else s
  {
  }

  lemma {:induction false} ApprovedUnlessTakenBack(s: State, acts: seq<Action>, t: Token)
    requires Valid(s) && Approved(s, t) && t in s.seen && After(s, acts).pointer == Choice(t)
    ensures Approved(After(s, acts), t) <==> !TakenBack(s, acts, t)
    decreases |acts|
  {
    if acts != [] {
      var rest, a := acts[..|acts| - 1], acts[|acts| - 1];
      assert acts == rest + [a];
      SpentBefore(s, rest, a, t);
      ApprovedUnlessTakenBack(s, rest, t);
      TakenBackMore(s, rest, a, t);
      Extends(s, rest, a);
      OneAction(After(s, rest), a);
      AfterKeepsValid(s, rest);
      if Enabled(After(s, rest), a) { TouchesGrant(After(s, rest), a, t); }
    }
  }

  /** An answer of `savedBrowserPermissionToken` misses its grant exactly when, between its read of the grant and
      its last read, a save took the grant back and no save put it in place again. */
  lemma StrandedExactly(s0: State, before: seq<Action>, c: Call, drawn: Token, between: seq<Action>, t: Token)
    requires Init(s0) && Waits(between, c)
    requires var s1 := After(s0, before);
             && Enabled(s1, Step(c, true, drawn)) && s1.frames[c] == SavedReadGrant(t) && t in s1.grants
             && s1.grants[t] == Allow
             && var s := After(Next(s1, Step(c, true, drawn)), between);
             c in s.frames && Returns(s, c, true) == Some(SavedToken(Some(t)))
    ensures var s2 := Next(After(s0, before), Step(c, true, drawn));
            !Approved(After(s2, between), t) <==> TakenBack(s2, between, t)
  {
    InitIsValid(s0);
    AfterKeepsValid(s0, before);
    var s1 := After(s0, before);
    var s2 := Next(s1, Step(c, true, drawn));
    NextKeepsValid(s1, Step(c, true, drawn));
    assert FrameOk(s1, s1.frames[c]);
    WaitingStays(s2, between, c);
    assert After(s2, between).pointer == Choice(t);
    if s2.pointer != Choice(t) { SupersededForever(s2, between, t); }
    ApprovedUnlessTakenBack(s2, between, t);
  }

  /** A save that answers true leaves an approval behind; one that answers false without a storage
      exception has lost its choice for good. */
  lemma SaveAnswer(s0: State, acts: seq<Action>, c: Call, later: seq<Action>)
    requires Init(s0) && Faultless(acts)
    requires var s := After(s0, acts); c in s.frames && Returns(s, c, true).Some? && Returns(s, c, true).value.Stored?
    ensures var s := After(s0, acts);
            var t := s.frames[c].token;
            if Returns(s, c, true).value.ok then Approved(s, t) else !Approved(After(s, later), t)
  {
    InitIsValid(s0);
    AfterKeepsValid(s0, acts);
    FaultlessBreaksNothing(s0, acts);
    var s := After(s0, acts);
    assert FrameOk(s, s.frames[c]);
    if !Returns(s, c, true).value.ok { SupersededForever(s, later, s.frames[c].token); }
  }

  // What `forgetBrowserPermission` makes of its choice.
  predicate Forgotten(r: Result) {
    r.Began? && r.purpose == ForRevocation
    && match r.approval
       case Ready(t, cleared) => cleared
       case Superseded => false
       case Unavailable(empty) => empty
  }

  // A revocation that holds: nothing is approved, and the pointer is a tombstone or absent.
  predicate Revoked(s: State) {
    s.pointer == Absent || (s.pointer.Choice? && s.pointer.token in s.tombstones)
  }

  // Approvals after `s` can only come from choices that `s` has not seen.
  lemma {:induction false} OnlyNewChoicesAfter(s: State, acts: seq<Action>, t: Token)
    requires Valid(s) && Revoked(s)
    requires Approved(After(s, acts), t)
    ensures t !in s.seen && t !in s.approvable
  {
    AfterKeepsValid(s, acts);
    if t in s.seen {
      if s.pointer == Choice(t) {
        TombstonesStay(s, acts, t);
      } else {
        SupersededForever(s, acts, t);
      }
    }
  }

  lemma {:induction false} TombstonesStay(s: State, acts: seq<Action>, t: Token)
    requires t in s.tombstones
    ensures t in After(s, acts).tombstones
    decreases |acts|
  {
    if acts != [] {
      TombstonesStay(if Enabled(s, acts[0]) then Next(s, acts[0]) else s, acts[1..], t);
    }
  }

  /** When `forgetBrowserPermission` answers true, no saved approval exists at its last read, and none
      appears later, whatever older saves still run, except for a choice whose pointer is rotated in and
      whose begin reports ready after that read. */
  lemma ForgetHolds(s0: State, acts: seq<Action>, c: Call, ok: bool, later: seq<Action>)
    requires Init(s0)
    requires var s := After(s0, acts);
             c in s.frames && Returns(s, c, ok).Some? && Forgotten(Returns(s, c, ok).value)
    ensures var s := After(s0, acts);
            && (forall t :: !Approved(s, t))
            && (forall t :: Approved(After(s, later), t) ==> t !in s.seen && t !in s.approvable)
  {
    InitIsValid(s0);
    AfterKeepsValid(s0, acts);
    var s := After(s0, acts);
    assert FrameOk(s, s.frames[c]);
    assert Revoked(s);
    forall t | Approved(After(s, later), t) ensures t !in s.seen && t !in s.approvable {
      OnlyNewChoicesAfter(s, later, t);
    }
  }

  /********** What a begin reports **********/

  // The step is call c's read of the pointer, at the start of its begin.
  predicate ReadsPointer(s: State, a: Action, c: Call) {
    Enabled(s, a) && a.Step? && a.call == c && a.ok && s.frames[c].BeginReadPrevious?
  }

  // What the pointer held when the last begin of call c read it.
  function Captured(s0: State, acts: seq<Action>, c: Call): Option<Pointer>
    decreases |acts|
  {
    if acts == [] then None
    else
      var rest, a := acts[..|acts| - 1], acts[|acts| - 1];
      if ReadsPointer(After(s0, rest), a, c) then Some(After(s0, rest).pointer) else Captured(s0, rest, c)
  }

  // Since then, call c's verifying read did not throw and found the grant of the captured choice absent.
  predicate FoundAbsent(s0: State, acts: seq<Action>, c: Call)
    decreases |acts|
  {
    acts != []
    && var rest, a := acts[..|acts| - 1], acts[|acts| - 1];
       var s := After(s0, rest);
       && !ReadsPointer(s, a, c)
       && (|| FoundAbsent(s0, rest, c)
           || (&& Enabled(s, a) && a.Step? && a.call == c && a.ok && s.frames[c].BeginVerifyOld?
               && Captured(s0, rest, c).Some? && Captured(s0, rest, c).value.Choice?
               && Captured(s0, rest, c).value.token !in s.grants))
  }

  // What the locals of call c say of its begin so far.
  ghost predicate Recalls(s0: State, acts: seq<Action>, c: Call, f: Frame) {
    var captured := Captured(s0, acts, c);
    match f
    case BeginRotate(p, previous, t) => captured == Some(previous) && !FoundAbsent(s0, acts, c)
    case BeginRemoveOld(p, prior, t) => captured == Some(Choice(prior)) && !FoundAbsent(s0, acts, c)
    case BeginVerifyOld(p, prior, t) => captured == Some(Choice(prior)) && !FoundAbsent(s0, acts, c)
    case BeginConfirm(p, t, cleared) =>
      captured.Some? && (cleared <==> !captured.value.Choice? || FoundAbsent(s0, acts, c))
    case _ => true
  }

  lemma RecallsStep(s0: State, acts: seq<Action>, a: Action, c: Call)
    requires var s := After(s0, acts); Enabled(s, a) && (c in s.frames ==> Recalls(s0, acts, c, s.frames[c]))
    ensures var s' := Next(After(s0, acts), a); c in s'.frames ==> Recalls(s0, acts + [a], c, s'.frames[c])
  {
    assert (acts + [a])[..|acts|] == acts && (acts + [a])[|acts|] == a;
  }

  lemma {:induction false} RecallsRun(s0: State, acts: seq<Action>, c: Call)
    requires s0.frames == map[]
    ensures var s := After(s0, acts); c in s.frames ==> Recalls(s0, acts, c, s.frames[c])
    decreases |acts|
  {
    if acts != [] {
      var rest, a := acts[..|acts| - 1], acts[|acts| - 1];
      assert acts == rest + [a];
      RecallsRun(s0, rest, c);
      Extends(s0, rest, a);
      OneAction(After(s0, rest), a);
      if Enabled(After(s0, rest), a) { RecallsStep(s0, rest, a, c); }
    }
  }

  /**
   In every run, a begin that reports ready reports its old grant as cleared if and only if the pointer it captured
   was no generated choice, or its verifying read did not throw and found the captured grant absent.
   */
  lemma ClearedExactly(s0: State, acts: seq<Action>, c: Call, purpose: Purpose, t: Token, cleared: bool)
    requires Init(s0)
    requires var s := After(s0, acts);
             c in s.frames && Returns(s, c, true) == Some(Began(purpose, Ready(t, cleared)))
    ensures Captured(s0, acts, c).Some?
    ensures cleared <==> !Captured(s0, acts, c).value.Choice? || FoundAbsent(s0, acts, c)
  {
    RecallsRun(s0, acts, c);
  }

  /********** What a call answers, whatever throws **********/

  // What a step of a running call can be: a begin cannot go on, for its read of the pointer, its rotation or its
  // confirming read throws; a save passes its first check; it throws or misses what it wants to see; it takes back.
  datatype Moment = Breaks | Passes | Misses | Undoes

  // The storage call does not throw, and shows a save what it wants to see.
  predicate Shows(s: State, f: Frame, ok: bool) {
    ok && match f
          case SaveReadPointer(t) => s.pointer == Choice(t)
          case SaveReadGrant(t) => t in s.grants && s.grants[t] == Allow
          case SaveReadAgain(t) => s.pointer == Choice(t)
          case _ => true
  }

  predicate Is(s: State, f: Frame, ok: bool, m: Moment) {
    match m
    case Breaks => !ok && (f.BeginReadPrevious? || f.BeginRotate? || f.BeginConfirm?)
    case Passes => f.SaveReadPointer? && Shows(s, f, ok)
    case Misses =>
      (f.SaveReadPointer? || f.SaveWrite? || f.SaveReadGrant? || f.SaveReadAgain?) && !Shows(s, f, ok)
    case Undoes => ok && f.SaveRemove?
  }

  // Call c has had such a step since it was last invoked.
  predicate Had(s0: State, acts: seq<Action>, c: Call, m: Moment)
    decreases |acts|
  {
    acts != []
    && var rest, a := acts[..|acts| - 1], acts[|acts| - 1];
       var s := After(s0, rest);
       if Enabled(s, a) && a.call == c then a.Step? && (Is(s, s.frames[c], a.ok, m) || Had(s0, rest, c, m))
       else Had(s0, rest, c, m)
  }

  // The token that the last begin of call c drew.
  function Drawn(s0: State, acts: seq<Action>, c: Call): Option<Token>
    decreases |acts|
  {
    if acts == [] then None
    else
      var rest, a := acts[..|acts| - 1], acts[|acts| - 1];
      if ReadsPointer(After(s0, rest), a, c) then Some(a.drawn) else Drawn(s0, rest, c)
  }

  // What the frame of call c says of its steps so far.
  ghost predicate Knows(s0: State, acts: seq<Action>, c: Call, f: Frame) {
    var had := m => Had(s0, acts, c, m);
    match f
    case BeginReadPrevious(p) => !had(Breaks)
    case BeginRotate(p, previous, t) => !had(Breaks) && Drawn(s0, acts, c) == Some(t)
    case BeginRemoveOld(p, prior, t) => !had(Breaks) && Drawn(s0, acts, c) == Some(t)
    case BeginVerifyOld(p, prior, t) => !had(Breaks) && Drawn(s0, acts, c) == Some(t)
    case BeginConfirm(p, t, cleared) => !had(Breaks) && Drawn(s0, acts, c) == Some(t)
    case BeginFallback(p) => had(Breaks)
    case SaveReadPointer(t) => !had(Passes) && !had(Misses) && !had(Undoes)
    case SaveWrite(t) => had(Passes) && !had(Misses) && !had(Undoes)
    case SaveReadGrant(t) => had(Passes) && !had(Misses) && !had(Undoes)
    case SaveReadAgain(t) => had(Passes) && !had(Misses) && !had(Undoes)
    case SaveRemove(t) => had(Passes) && had(Misses) && !had(Undoes)
    case SaveVerify(t) => had(Passes) && had(Misses) && had(Undoes)
    case _ => true
  }

  lemma HadMore(s0: State, acts: seq<Action>, a: Action, c: Call, m: Moment)
    ensures var s := After(s0, acts);
            Had(s0, acts + [a], c, m)
            <==> if Enabled(s, a) && a.call == c then a.Step? && (Is(s, s.frames[c], a.ok, m) || Had(s0, acts, c, m))
                 else Had(s0, acts, c, m)
  {
    assert (acts + [a])[..|acts|] == acts && (acts + [a])[|acts|] == a;
  }

  lemma DrawnMore(s0: State, acts: seq<Action>, a: Action, c: Call)
    ensures Drawn(s0, acts + [a], c)
         == if ReadsPointer(After(s0, acts), a, c) then Some(a.drawn) else Drawn(s0, acts, c)
  {
    assert (acts + [a])[..|acts|] == acts && (acts + [a])[|acts|] == a;
  }

  lemma KnowsStep(s0: State, acts: seq<Action>, a: Action, c: Call)
    requires var s := After(s0, acts); Enabled(s, a) && (c in s.frames ==> Knows(s0, acts, c, s.frames[c]))
    ensures var s' := Next(After(s0, acts), a); c in s'.frames ==> Knows(s0, acts + [a], c, s'.frames[c])
  {
    hide Had, Drawn, After;
    HadMore(s0, acts, a, c, Breaks);
    HadMore(s0, acts, a, c, Passes);
    HadMore(s0, acts, a, c, Misses);
    HadMore(s0, acts, a, c, Undoes);
    DrawnMore(s0, acts, a, c);
  }

  lemma {:induction false} KnowsRun(s0: State, acts: seq<Action>, c: Call)
    requires s0.frames == map[]
    ensures var s := After(s0, acts); c in s.frames ==> Knows(s0, acts, c, s.frames[c])
    decreases |acts|
  {
    hide Knows, Next;
    if acts != [] {
      var rest, a := acts[..|acts| - 1], acts[|acts| - 1];
      assert acts == rest + [a];
      KnowsRun(s0, rest, c);
      Extends(s0, rest, a);
      OneAction(After(s0, rest), a);
      if Enabled(After(s0, rest), a) { KnowsStep(s0, rest, a, c); } else { KnowsSkip(s0, rest, a, c); }
    }
  }

  lemma KnowsSkip(s0: State, acts: seq<Action>, a: Action, c: Call)
    requires var s := After(s0, acts); !Enabled(s, a) && (c in s.frames ==> Knows(s0, acts, c, s.frames[c]))
    ensures var s := After(s0, acts); c in s.frames ==> Knows(s0, acts + [a], c, s.frames[c])
  {
    hide Had, Drawn, After;
    HadMore(s0, acts, a, c, Breaks);
    HadMore(s0, acts, a, c, Passes);
    HadMore(s0, acts, a, c, Misses);
    HadMore(s0, acts, a, c, Undoes);
    DrawnMore(s0, acts, a, c);
  }

  /**
   In every run, whatever throws: a begin answers that it is unavailable if and only if its read of the pointer, its
   rotation or its confirming read threw, and then whether it can see that no choice is saved; otherwise it is ready if
   and only if its confirming read still sees the token it drew, and superseded if not. Failing to clear the old grant
   does not count.
   */
  lemma BeginAnswersExactly(s0: State, acts: seq<Action>, c: Call, ok: bool, purpose: Purpose, approval: Approval)
    requires Init(s0)
    requires var s := After(s0, acts); c in s.frames && Returns(s, c, ok) == Some(Began(purpose, approval))
    ensures var s := After(s0, acts);
            && (approval.Unavailable? <==> Had(s0, acts, c, Breaks))
            && (approval.Unavailable? ==> (approval.empty <==> ok && s.pointer == Absent))
            && (!approval.Unavailable? ==>
                && ok && Drawn(s0, acts, c).Some?
                && (approval.Ready? <==> s.pointer == Choice(Drawn(s0, acts, c).value))
                && (approval.Ready? ==> approval.token == Drawn(s0, acts, c).value))
  {
    KnowsRun(s0, acts, c);
  }

  /**
   In every run, whatever throws: a save answers true if and only if every storage call of it succeeded and showed what
   it wanted to see. One that answers false had not passed its first check, or has tried to take its grant back.
   */
  lemma SaveAnswersExactly(s0: State, acts: seq<Action>, c: Call, ok: bool, saved: bool)
    requires Init(s0)
    requires var s := After(s0, acts); c in s.frames && Returns(s, c, ok) == Some(Stored(saved))
    ensures var s, f := After(s0, acts), After(s0, acts).frames[c];
            && (saved <==> !Had(s0, acts, c, Misses) && Shows(s, f, ok))
            && (!saved && Had(s0, acts, c, Passes) ==> Had(s0, acts, c, Undoes) || (f.SaveRemove? && !ok))
  {
    KnowsRun(s0, acts, c);
  }

  // Only call c makes steps, and none of them throws.
  predicate Solo(acts: seq<Action>, c: Call) { forall a :: a in acts ==> a.Step? && a.call == c && a.ok }

  // Call c has begun and nothing came between its steps.
  predicate Undisturbed(s: State, f: Frame, purpose: Purpose) {
    match f
    case BeginReadPrevious(p) => p == purpose
    case BeginRotate(p, previous, t) => p == purpose && s.pointer == previous
    case BeginRemoveOld(p, prior, t) => p == purpose && s.pointer == Choice(t)
    case BeginVerifyOld(p, prior, t) => p == purpose && s.pointer == Choice(t) && prior !in s.grants
    case BeginConfirm(p, t, cleared) => p == purpose && s.pointer == Choice(t) && cleared
    case _ => false
  }

  // The storage calls that a begin has before it.
  function Ahead(f: Frame): nat {
    match f
    case BeginReadPrevious(p) => 5
    case BeginRotate(p, previous, t) => 4
    case BeginRemoveOld(p, prior, t) => 3
    case BeginVerifyOld(p, prior, t) => 2
    case _ => 1
  }

  lemma SoloStep(s: State, c: Call, drawn: Token, purpose: Purpose)
    requires Enabled(s, Step(c, true, drawn)) && Undisturbed(s, s.frames[c], purpose)
    ensures var s' := Next(s, Step(c, true, drawn));
            c in s'.frames ==> Undisturbed(s', s'.frames[c], purpose) && Ahead(s'.frames[c]) < Ahead(s.frames[c])
  {
  }

  // While call c runs, each of these actions is its next step.
  predicate Proceeds(s: State, c: Call, acts: seq<Action>) {
    forall i :: 0 <= i < |acts| && c in After(s, acts[..i]).frames ==> Enabled(After(s, acts[..i]), acts[i])
  }

  lemma {:induction false} SoloRun(s: State, c: Call, acts: seq<Action>, purpose: Purpose)
    requires c in s.frames && Undisturbed(s, s.frames[c], purpose) && Solo(acts, c) && Proceeds(s, c, acts)
    ensures var s' := After(s, acts);
            c in s'.frames ==> && |acts| + Ahead(s'.frames[c]) <= Ahead(s.frames[c])
                               && Undisturbed(s', s'.frames[c], purpose)
    decreases |acts|
  {
    hide Undisturbed, Ahead, Next;
    if acts != [] {
      var rest, a := acts[..|acts| - 1], acts[|acts| - 1];
      assert acts == rest + [a] && a in acts;
      assert forall i :: 0 <= i < |rest| ==> rest[..i] == acts[..i];
      assert acts[..|rest|] == rest;
      SoloRun(s, c, rest, purpose);
      Extends(s, rest, a);
      OneAction(After(s, rest), a);
      if c in After(s, rest).frames { SoloStep(After(s, rest), c, a.drawn, purpose); }
    }
  }

  // A begin that is not disturbed can only report ready and cleared.
  lemma SoloReports(s: State, c: Call, purpose: Purpose)
    requires c in s.frames && Undisturbed(s, s.frames[c], purpose) && Returns(s, c, true).Some?
    ensures exists t :: Returns(s, c, true) == Some(Began(purpose, Ready(t, true)))
  {
    var t := s.frames[c].token;
    assert Returns(s, c, true) == Some(Began(purpose, Ready(t, true)));
  }

  /**
   A begin that runs alone and without exceptions, from whatever storage and whatever other calls are waiting, has
   reported after five storage calls, and what it reports is ready and cleared; so a revocation that runs alone holds.
   */
  lemma BeginAlone(s: State, c: Call, acts: seq<Action>, purpose: Purpose)
    requires c in s.frames && s.frames[c] == BeginReadPrevious(purpose) && Solo(acts, c) && Proceeds(s, c, acts)
    ensures |acts| >= 5 ==> c !in After(s, acts).frames
    ensures var s' := After(s, acts);
            c in s'.frames && Returns(s', c, true).Some? ==>
              && (exists t :: Returns(s', c, true) == Some(Began(purpose, Ready(t, true))))
              && (purpose == ForRevocation ==> Forgotten(Returns(s', c, true).value))
  {
    hide Returns;
    SoloRun(s, c, acts, purpose);
    var s' := After(s, acts);
    if c in s'.frames && Returns(s', c, true).Some? { SoloReports(s', c, purpose); }
  }

  // A lookup of a saved approval so far, if nothing came between its steps.
  predicate LooksUp(s: State, f: Frame) {
    match f
    case SavedReadPointer => true
    case SavedReadGrant(t) => s.pointer == Choice(t)
    case SavedReadAgain(t) => Approved(s, t)
    case _ => false
  }

  lemma {:induction false} LookupRun(s: State, c: Call, acts: seq<Action>)
    requires c in s.frames && LooksUp(s, s.frames[c]) && Solo(acts, c) && Proceeds(s, c, acts)
    ensures var s' := After(s, acts);
            && s'.pointer == s.pointer && s'.grants == s.grants
            && (c in s'.frames ==> LooksUp(s', s'.frames[c]))
    decreases |acts|
  {
    hide Next, LooksUp;
    if acts != [] {
      var rest, a := acts[..|acts| - 1], acts[|acts| - 1];
      assert acts == rest + [a] && a in acts;
      assert forall i :: 0 <= i < |rest| ==> rest[..i] == acts[..i];
      assert acts[..|rest|] == rest;
      LookupRun(s, c, rest);
      Extends(s, rest, a);
      OneAction(After(s, rest), a);
      if c in After(s, rest).frames { LookupStep(After(s, rest), c, a.drawn); }
    }
  }

  lemma LookupStep(s: State, c: Call, drawn: Token)
    requires Enabled(s, Step(c, true, drawn)) && LooksUp(s, s.frames[c])
    ensures var s' := Next(s, Step(c, true, drawn));
            && s'.pointer == s.pointer && s'.grants == s.grants
            && (c in s'.frames ==> LooksUp(s', s'.frames[c]))
  {
  }

  /** A lookup that runs alone and without exceptions answers the token that is approved, and none if none is. */
  lemma LookupAlone(s: State, c: Call, acts: seq<Action>, token: Option<Token>)
    requires c in s.frames && s.frames[c] == SavedReadPointer && Solo(acts, c) && Proceeds(s, c, acts)
    requires c in After(s, acts).frames && Returns(After(s, acts), c, true) == Some(SavedToken(token))
    ensures forall t: Token :: token == Some(t) <==> Approved(s, t)
  {
    LookupRun(s, c, acts);
  }

  /********** Which grants stay **********/

  // What decides whether a grant stays: a begin reads the pointer while it names t, a save of t answers true, and a
  // save of t that was overtaken takes its grant back.
  datatype Deed = Capture | Confirm | TakeBack

  predicate Does(s: State, a: Action, t: Token, deed: Deed) {
    && Enabled(s, a) && a.Step? && a.ok
    && match deed
       case Capture => s.frames[a.call].BeginReadPrevious? && s.pointer == Choice(t)
       case Confirm => s.frames[a.call] == SaveReadAgain(t) && s.pointer == Choice(t)
       case TakeBack => s.frames[a.call] == SaveRemove(t)
  }

  ghost predicate Done(s: State, acts: seq<Action>, t: Token, deed: Deed) {
    exists j: nat :: j < |acts| && Does(After(s, acts[..j]), acts[j], t, deed)
  }

  lemma DoneMore(s: State, acts: seq<Action>, a: Action, t: Token, deed: Deed)
    ensures Done(s, acts + [a], t, deed) <==> Done(s, acts, t, deed) || Does(After(s, acts), a, t, deed)
  {
    var more, n := acts + [a], |acts|;
    assert forall k :: 0 <= k <= n ==> more[..k] == acts[..k];
    assert acts[..n] == acts && more[n] == a;
    if Done(s, acts, t, deed) {
      var j: nat :| j < n && Does(After(s, acts[..j]), acts[j], t, deed);
      assert Does(After(s, more[..j]), more[j], t, deed);
    }
    if Does(After(s, acts), a, t, deed) { assert Does(After(s, more[..n]), more[n], t, deed); }
    if Done(s, more, t, deed) {
      var j: nat :| j < |more| && Does(After(s, more[..j]), more[j], t, deed);
      if j < n { assert Does(After(s, acts[..j]), acts[j], t, deed); }
    }
  }

  // Frames of a save that has written the grant of t, and of a begin that is to remove it.
  predicate Saves(f: Frame, t: Token) { f == SaveReadGrant(t) || f == SaveReadAgain(t) || f == SaveRemove(t) }

  predicate Rotates(f: Frame, t: Token) { f.BeginRotate? && f.previous == Choice(t) }

  predicate Removes(f: Frame, t: Token) { f.BeginRemoveOld? && f.prior == t }

  ghost predicate Saving(s: State, t: Token) { exists c :: c in s.frames && Saves(s.frames[c], t) }

  ghost predicate Rotating(s: State, t: Token) { exists c :: c in s.frames && Rotates(s.frames[c], t) }

  ghost predicate Removing(s: State, t: Token) { exists c :: c in s.frames && Removes(s.frames[c], t) }

  // Running calls see to it that no grant of t is left.
  ghost predicate Doomed(s: State, t: Token) {
    Rotating(s, t) || (Spent(s, t) && (t in s.grants ==> Saving(s, t) || Removing(s, t)))
  }

  lemma SpentStays(s: State, a: Action, t: Token)
    requires Valid(s) && Enabled(s, a) && Spent(s, t)
    ensures Spent(Next(s, a), t)
  {
    if a.Step? { assert FrameOk(s, s.frames[a.call]); }
  }

  lemma RotatingLeads(s: State, a: Action, t: Token)
    requires Valid(s) && Enabled(s, a) && !Failing(a) && Rotating(s, t)
    ensures Doomed(Next(s, a), t)
  {
    var c :| c in s.frames && Rotates(s.frames[c], t);
    var s' := Next(s, a);
    assert FrameOk(s, s.frames[c]);
    if a.Step? && a.call == c {
      assert s'.frames[c] == BeginRemoveOld(s.frames[c].purpose, t, s.frames[c].token);
      assert Removes(s'.frames[c], t);
    } else {
      assert Rotates(s'.frames[c], t);
    }
  }

  lemma SpentLeads(s: State, a: Action, t: Token)
    requires Valid(s) && Enabled(s, a) && !Failing(a) && Spent(s, t)
    requires t in s.grants ==> Saving(s, t) || Removing(s, t)
    ensures t in Next(s, a).grants ==> Saving(Next(s, a), t) || Removing(Next(s, a), t)
  {
    var s' := Next(s, a);
    if t in s'.grants && t !in s.grants {
      assert Saves(s'.frames[a.call], t);
    } else if t in s'.grants {
      var c :| c in s.frames && (Saves(s.frames[c], t) || Removes(s.frames[c], t));
      if a.Step? && a.call == c {
        assert s.frames[c] == SaveRemove(t) || Removes(s.frames[c], t) ==> s'.grants == s.grants - {t};
        assert s.frames[c] == SaveReadGrant(t) || s.frames[c] == SaveReadAgain(t);
        assert c in s'.frames && Saves(s'.frames[c], t);
      } else {
        assert c in s'.frames && (Saves(s'.frames[c], t) || Removes(s'.frames[c], t));
      }
    }
  }

  lemma DoomedStays(s: State, a: Action, t: Token)
    requires Valid(s) && Enabled(s, a) && !Failing(a) && Doomed(s, t)
    ensures Doomed(Next(s, a), t)
  {
    hide Valid, Rotating, Saving, Removing, Spent;
    if Rotating(s, t) {
      RotatingLeads(s, a, t);
    } else {
      SpentStays(s, a, t);
      SpentLeads(s, a, t);
    }
  }

  lemma DeedDooms(s: State, a: Action, t: Token, deed: Deed)
    requires Valid(s) && s.broken == {} && Does(s, a, t, deed) && !deed.Confirm?
    ensures Doomed(Next(s, a), t)
  {
    var s' := Next(s, a);
    assert FrameOk(s, s.frames[a.call]);
    if deed.Capture? { assert Rotates(s'.frames[a.call], t); }
  }

  // What the deeds of a run say about the grant of t while calls are running.
  ghost predicate Traced(s0: State, acts: seq<Action>, s: State, t: Token) {
    && (Done(s0, acts, t, Capture) || Done(s0, acts, t, TakeBack) ==> Doomed(s, t))
    && (t in s.grants ==> t in s0.grants || Done(s0, acts, t, Confirm) || Saving(s, t))
    && (Rotating(s, t) || Removing(s, t) ==> Done(s0, acts, t, Capture))
    && (t in s0.grants || Done(s0, acts, t, Confirm) ==>
        t in s.grants || Done(s0, acts, t, Capture) || Done(s0, acts, t, TakeBack))
  }

  // One step gives t a grant only by a save, and takes it away only by a begin that captured it or by a save.
  lemma GrantMoves(s: State, a: Action, t: Token)
    requires Valid(s) && Enabled(s, a) && !Failing(a) && s.broken == {}
    ensures var s' := Next(s, a);
            && (t in s'.grants && (t in s.grants ==> Saving(s, t)) ==> Saving(s', t) || Does(s, a, t, Confirm))
            && (t in s.grants && t !in s'.grants ==> Removing(s, t) || Does(s, a, t, TakeBack))
            && (Does(s, a, t, Confirm) ==> t in s'.grants)
  {
    var s' := Next(s, a);
    if a.Step? { assert FrameOk(s, s.frames[a.call]); }
    if t in s'.grants && t in s.grants && Saving(s, t) {
      var c :| c in s.frames && Saves(s.frames[c], t);
      if a.Step? && a.call == c {
        assert Does(s, a, t, Confirm) || Saves(s'.frames[c], t);
      } else {
        assert Saves(s'.frames[c], t);
      }
    } else if t in s'.grants && t !in s.grants {
      assert Saves(s'.frames[a.call], t);
    }
    if t in s.grants && t !in s'.grants { assert Removes(s.frames[a.call], t) || Does(s, a, t, TakeBack); }
  }

  lemma RemovalMoves(s: State, a: Action, t: Token)
    requires Enabled(s, a) && !Failing(a)
    ensures var s' := Next(s, a);
            Rotating(s', t) || Removing(s', t) ==> Rotating(s, t) || Removing(s, t) || Does(s, a, t, Capture)
  {
    var s' := Next(s, a);
    if Rotating(s', t) || Removing(s', t) {
      var c :| c in s'.frames && (Rotates(s'.frames[c], t) || Removes(s'.frames[c], t));
      if a.Step? && a.call != c { assert c in s.frames && s'.frames[c] == s.frames[c]; }
      if a.Invoke? && a.call != c { assert c in s.frames && s'.frames[c] == s.frames[c]; }
    }
  }

  lemma TracedStep(s0: State, acts: seq<Action>, s: State, a: Action, t: Token)
    requires Valid(s) && Enabled(s, a) && !Failing(a) && s.broken == {} && s == After(s0, acts)
    requires Traced(s0, acts, s, t)
    ensures Traced(s0, acts + [a], Next(s, a), t)
  {
    hide Valid, Done, Does, Doomed, Saving, Rotating, Removing;
    forall deed ensures Done(s0, acts + [a], t, deed) <==> Done(s0, acts, t, deed) || Does(s, a, t, deed) {
      DoneMore(s0, acts, a, t, deed);
    }
    if Doomed(s, t) { DoomedStays(s, a, t); }
    if Does(s, a, t, Capture) { DeedDooms(s, a, t, Capture); }
    if Does(s, a, t, TakeBack) { DeedDooms(s, a, t, TakeBack); }
    GrantMoves(s, a, t);
    RemovalMoves(s, a, t);
  }

  lemma {:induction false} TracedRun(s0: State, acts: seq<Action>, t: Token)
    requires Init(s0) && Faultless(acts)
    ensures Traced(s0, acts, After(s0, acts), t)
    decreases |acts|
  {
    hide Traced;
    if acts == [] {
      TracedStart(s0, t);
    } else {
      var rest, a := acts[..|acts| - 1], acts[|acts| - 1];
      var s := After(s0, rest);
      assert acts == rest + [a];
      assert Faultless(rest) && !Failing(a);
      TracedRun(s0, rest, t);
      InitIsValid(s0);
      AfterKeepsValid(s0, rest);
      FaultlessBreaksNothing(s0, rest);
      Extends(s0, rest, a);
      OneAction(s, a);
      if Enabled(s, a) { TracedStep(s0, rest, s, a, t); } else { TracedSkip(s0, rest, s, a, t); }
    }
  }

  lemma TracedStart(s0: State, t: Token)
    requires Init(s0)
    ensures Traced(s0, [], s0, t)
  {
  }

  lemma TracedSkip(s0: State, acts: seq<Action>, s: State, a: Action, t: Token)
    requires s == After(s0, acts) && !Enabled(s, a) && Traced(s0, acts, s, t)
    ensures Traced(s0, acts + [a], s, t)
  {
    hide Done, Doomed, Saving, Rotating, Removing;
    forall deed ensures Done(s0, acts + [a], t, deed) <==> Done(s0, acts, t, deed) { DoneMore(s0, acts, a, t, deed); }
  }

  /**
   Once the calls of a run without storage exceptions have all returned, the grants in storage are exactly those that
   were there at the start or whose save answered true, and that no begin captured and no overtaken save took back.
   */
  lemma GrantsAtRest(s0: State, acts: seq<Action>, t: Token)
    requires Init(s0) && Faultless(acts) && After(s0, acts).frames == map[]
    ensures t in After(s0, acts).grants
       <==> && (t in s0.grants || Done(s0, acts, t, Confirm))
            && !Done(s0, acts, t, Capture) && !Done(s0, acts, t, TakeBack)
  {
    hide Done, Spent;
    TracedRun(s0, acts, t);
  }

  /********** Two runs that go wrong **********/

  const EMPTY := State(Absent, map[], map[], {}, {}, {}, {}, {}, {})

  lemma Extend(s0: State, acts: seq<Action>, a: Action)
    requires Enabled(After(s0, acts), a)
    ensures After(s0, acts + [a]) == Next(After(s0, acts), a)
  {
    Extends(s0, acts, a);
    OneAction(After(s0, acts), a);
  }

  // One approval of token 7 by call 0, up to the point where its save has written the grant.
  lemma OneApproval() returns (acts: seq<Action>)
    ensures After(EMPTY, acts)
         == State(Choice(7), map[7 := Allow], map[1 := SaveReadGrant(7)], {7}, {7}, {}, {7}, {7}, {})
  {
    acts := [];
    acts := Grow(acts, Invoke(0, CallBegin(ForApproval)));
    acts := Grow(acts, Step(0, true, 7));
    acts := Grow(acts, Step(0, true, 8));
    acts := Grow(acts, Step(0, true, 8));
    assert After(EMPTY, acts) == State(Choice(7), map[], map[], {7}, {7}, {}, {7}, {}, {});
    acts := Grow(acts, Invoke(1, CallSave(7)));
    acts := Grow(acts, Step(1, true, 8));
    acts := Grow(acts, Step(1, true, 8));
  }

  lemma Grow(acts: seq<Action>, a: Action) returns (more: seq<Action>)
    requires Enabled(After(EMPTY, acts), a)
    ensures more == acts + [a] && After(EMPTY, more) == Next(After(EMPTY, acts), a)
  {
    Extend(EMPTY, acts, a);
    more := acts + [a];
  }

  /** An answer of `savedBrowserPermissionToken` can miss its grant: a save wrote it, the save's verifying
      read threw, and its cleanup ran between the reader's last two reads. */
  lemma FailedSaveStrandsAnswer() returns (acts: seq<Action>)
    ensures var s := After(EMPTY, acts);
            2 in s.frames && Returns(s, 2, true) == Some(SavedToken(Some(7))) && !Approved(s, 7)
  {
    acts := OneApproval();
    acts := Grow(acts, Invoke(2, CallSaved));
    acts := Grow(acts, Step(2, true, 8));
    acts := Grow(acts, Step(2, true, 8));
    acts := Grow(acts, Step(1, false, 8));
    acts := Grow(acts, Step(1, true, 8));
  }

  // Two begins read the empty pointer; call 0 rotates token 7 in while call 3 has yet to rotate token 9.
  lemma TwoBegins() returns (acts: seq<Action>)
    ensures Faultless(acts)
    ensures After(EMPTY, acts)
         == State(Choice(7), map[], map[3 := BeginRotate(ForApproval, Absent, 9)], {7, 9}, {7}, {}, {7}, {}, {})
  {
    acts := [];
    acts := Grow(acts, Invoke(3, CallBegin(ForApproval)));
    acts := Grow(acts, Step(3, true, 9));
    acts := Grow(acts, Invoke(0, CallBegin(ForApproval)));
    acts := Grow(acts, Step(0, true, 7));
    acts := Grow(acts, Step(0, true, 8));
    acts := Grow(acts, Step(0, true, 8));
  }

  lemma SaveStarts() returns (acts: seq<Action>)
    ensures Faultless(acts)
    ensures After(EMPTY, acts)
         == State(Choice(7), map[], map[3 := BeginRotate(ForApproval, Absent, 9), 1 := SaveWrite(7)], {7, 9}, {7}, {},
                  {7}, {}, {})
  {
    acts := TwoBegins();
    acts := Grow(acts, Invoke(1, CallSave(7)));
    acts := Grow(acts, Step(1, true, 8));
  }

  lemma SaveBetween() returns (acts: seq<Action>)
    ensures Faultless(acts)
    ensures After(EMPTY, acts)
         == State(Choice(7), map[7 := Allow], map[3 := BeginRotate(ForApproval, Absent, 9)], {7, 9}, {7}, {}, {7}, {7},
                  {})
  {
    acts := SaveStarts();
    acts := Grow(acts, Step(1, true, 8));
    acts := Grow(acts, Step(1, true, 8));
    acts := Grow(acts, Step(1, true, 8));
  }

  /** A begin that read the pointer before another choice was rotated in never captures that choice's
      grant: the grant outlives every call, and is inert because its token is spent. */
  lemma OrphanSurvives() returns (acts: seq<Action>)
    ensures Faultless(acts)
    ensures var s := After(EMPTY, acts);
            s.frames == map[] && Spent(s, 7) && 7 in s.grants && s.grants[7] == Allow
  {
    acts := SaveBetween();
    acts := Grow(acts, Step(3, true, 8));
    acts := Grow(acts, Step(3, true, 8));
  }

  /********** The storage keys **********/

  // `encodeURIComponent` leaves no colon in an origin; capability names and tokens have none.
  predicate Plain(part: string) { ':' !in part }

  function PointerKey(origin: string, capability: string): string {
    "rac.browser-permission:v1:" + (origin + ":" + capability)
  }

  function GrantKey(origin: string, capability: string, token: string): string {
    PointerKey(origin, capability) + ":" + token
  }

  lemma SplitAtColon(a: string, b: string, c: string, d: string)
    requires Plain(a) && Plain(c) && a + ":" + b == c + ":" + d
    ensures a == c && b == d
  {
    var s := a + ":" + b;
    assert s[|a|] == ':' && s[|c|] == ':';
    assert forall k :: 0 <= k < |a| ==> s[k] == a[k] != ':';
    assert forall k :: 0 <= k < |c| ==> s[k] == c[k] != ':';
    assert |a| == |c|;
    assert a == s[..|a|] && c == s[..|c|];
    assert b == s[|a| + 1..] && d == s[|c| + 1..];
  }

  lemma PointerKeyBody(o: string, c: string)
    ensures |PointerKey(o, c)| >= 26 && PointerKey(o, c)[26..] == o + ":" + c
  {
    assert |"rac.browser-permission:v1:"| == 26;
  }

  /** Keys of different sites, and pointer and grant keys, never coincide: a site's pointer and grants can
      be modelled on their own. */
  lemma KeysDoNotCollide(o: string, c: string, t: string, o': string, c': string, t': string)
    requires Plain(o) && Plain(c) && Plain(t) && Plain(o') && Plain(c') && Plain(t')
    ensures PointerKey(o, c) == PointerKey(o', c') ==> o == o' && c == c'
    ensures GrantKey(o, c, t) == GrantKey(o', c', t') ==> o == o' && c == c' && t == t'
    ensures PointerKey(o, c) != GrantKey(o', c', t')
  {
    PointerKeyBody(o, c);
    PointerKeyBody(o', c');
    if PointerKey(o, c) == PointerKey(o', c') { SplitAtColon(o, c, o', c'); }
    var g, g' := GrantKey(o, c, t)[26..], GrantKey(o', c', t')[26..];
    assert g == o + ":" + (c + ":" + t);
    assert g' == o' + ":" + (c' + ":" + t');
    if GrantKey(o, c, t) == GrantKey(o', c', t') {
      SplitAtColon(o, c + ":" + t, o', c' + ":" + t');
      SplitAtColon(c, t, c', t');
    }
    assert (c' + ":" + t')[|c'|] == ':';
    if PointerKey(o, c) == GrantKey(o', c', t') {
      SplitAtColon(o, c, o', c' + ":" + t');
      assert false;
    }
  }
}
