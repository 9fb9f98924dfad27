/**
 The key dispatcher behind the one keydown listener (apps/web/src/key-dispatch.ts): tables entered by a
 leader, repeatable keys, and yes-no questions.
 */
module KeyDispatch {
  import opened Wrappers

  type Chord = nat
  type Table = nat
  type Question = nat

  const ROOT: Table := 0

  datatype Binding = Act(repeatable: bool) | Enter(table: Table)

  // The configured tables at the moment of a key.
  datatype Tables = Tables(bindings: map<(Table, Chord), Binding>, conflicts: set<(Table, Chord)>)

  function Lookup(t: Tables, table: Table, chord: Chord): Option<Binding> {
    if (table, chord) in t.bindings then Some(t.bindings[(table, chord)]) else None
  }

  datatype Pending = Nothing | InTable(table: Table, chord: Chord, repeat: bool) | Asking(question: Question)

  // Whether the run action applied, and what it left pending when it called back into the dispatcher.
  datatype Effect = Effect(applied: bool, leaves: Option<Pending>)

  datatype Verdict = Pass | Handled | Send

  // `timer` is the running deadline of what is pending; `last` is the last chord that was no bare modifier.
  datatype State = State(pending: Pending, timer: bool, last: Option<Chord>)

  const INITIAL := State(Nothing, false, None)

  function Set(s: State, next: Pending): State { s.(pending := next, timer := next != Nothing) }

  // The action may ask a question or reset the dispatcher while it runs.
  function Ran(s: State,
               e: Effect): State { if e.leaves.Some? && !e.leaves.value.InTable? then Set(s, e.leaves.value) else s }

  predicate Repeats(b: Option<Binding>) { b.Some? && b.value.Act? && b.value.repeatable }

  function HandleRoot(s: State, t: Tables, chord: Chord, e: Effect): (State, Verdict) {
    if (ROOT, chord) in t.conflicts then (s, Handled)
    else
      match Lookup(t, ROOT, chord)
      case None => (s, Pass)
      case Some(Enter(table)) => (Set(s, InTable(table, chord, false)), Handled)
      case Some(Act(_)) => (Ran(s, e), if e.applied then Handled else Pass)
  }

  function HandleTable(s: State, t: Tables, chord: Chord, e: Effect): (State, Verdict)
    requires s.pending.InTable?
  {
    var current := s.pending;
    var binding := Lookup(t, current.table, chord);
    if (current.table, chord) in t.conflicts then (Set(s, Nothing), Handled)
    else if current.repeat then
      if !Repeats(binding) then HandleRoot(Set(s, Nothing), t, chord, e) else (Ran(Set(s, current), e), Handled)
    else
      match binding
      case None => (Set(s, Nothing), if chord == current.chord then Send else Handled)
      case Some(Enter(table)) => (Set(s, InTable(table, chord, false)), Handled)
      case Some(Act(repeatable)) =>
        (Ran(Set(s, if repeatable then InTable(current.table, current.chord, true) else Nothing), e), Handled)
  }

  // None is a bare modifier.
  function Handle(s0: State, t: Tables, chord: Option<Chord>, e: Effect): (State, Verdict) {
    if chord.None? then (s0, Pass)
    else
      var s := s0.(last := chord);
      match s.pending
      case Nothing => HandleRoot(s, t, chord.value, e)
      case Asking(_) => (if IsYes(chord.value) then Ran(Set(s, Nothing), e) else Set(s, Nothing), Handled)
      case InTable(_, _, _) => HandleTable(s, t, chord.value, e)
  }

  const YES: Chord := 121

  predicate IsYes(chord: Chord) { chord == YES }

  datatype Event =
    | Key(tables: Tables, chord: Option<Chord>, effect: Effect)
    | Confirm(question: Question)
    | Reset
    | Expire

  function Next(s: State, e: Event): State {
    match e
    case Key(t, chord, effect) => Handle(s, t, chord, effect).0
    case Confirm(question) => Set(s, Asking(question))
    case Reset => if s.pending != Nothing then Set(s, Nothing) else s
    case Expire => if s.timer then Set(s, Nothing) else s
  }

  function After(events: seq<Event>): State {
    if events == [] then INITIAL else Next(After(events[..|events| - 1]), events[|events| - 1])
  }

  // The deadline runs exactly while something is pending, and an entered table was entered by the last key.
  ghost predicate Valid(s: State) {
    && (s.timer <==> s.pending != Nothing)
    && (s.pending.InTable? && !s.pending.repeat ==> s.last == Some(s.pending.chord))
  }

  lemma NextKeepsValid(s: State, e: Event)
    requires Valid(s)
    ensures Valid(Next(s, e))
  {
  }

  lemma {:induction false} AfterIsValid(events: seq<Event>)
    ensures Valid(After(events))
  {
    if events != [] {
      AfterIsValid(events[..|events| - 1]);
      NextKeepsValid(After(events[..|events| - 1]), events[|events| - 1]);
    }
  }

  // The last chord among the events that was no bare modifier.
  function LastChord(events: seq<Event>): Option<Chord> {
    if events == [] then None
    else
      var e := events[|events| - 1];
      if e.Key? && e.chord.Some? then e.chord else LastChord(events[..|events| - 1])
  }

  lemma HandleRemembers(s: State, t: Tables, chord: Option<Chord>, e: Effect)
    ensures Handle(s, t, chord, e).0.last == if chord.Some? then chord else s.last
  {
  }

  lemma {:induction false} LastIsRemembered(events: seq<Event>)
    ensures After(events).last == LastChord(events)
  {
    if events != [] {
      var before, e := events[..|events| - 1], events[|events| - 1];
      LastIsRemembered(before);
      if e.Key? { HandleRemembers(After(before), e.tables, e.chord, e.effect); }
    }
  }

  /** A key is sent through to the terminal only when the key before it was the same leader. */
  lemma {:induction false} SendNeedsTheLeaderTwice(events: seq<Event>, t: Tables, chord: Option<Chord>, e: Effect)
    requires Handle(After(events), t, chord, e).1 == Send
    ensures chord.Some? && LastChord(events) == chord
    ensures After(events).pending.InTable? && After(events).pending.chord == chord.value
    ensures !After(events).pending.repeat
  {
    AfterIsValid(events);
    LastIsRemembered(events);
  }

  /** In every run, the deadline is armed exactly while something is pending. */
  lemma {:induction false} TimerExactlyWhilePending(events: seq<Event>)
    ensures After(events).timer <==> After(events).pending != Nothing
  {
    AfterIsValid(events);
  }

  // The key runs an action.
  predicate Runs(s: State, t: Tables, chord: Chord) {
    var root := (ROOT, chord) !in t.conflicts && Lookup(t, ROOT, chord).Some? && Lookup(t, ROOT, chord).value.Act?;
    match s.pending
    case Nothing => root
    case Asking(_) => IsYes(chord)
    case InTable(table, _, repeat) =>
      && (table, chord) !in t.conflicts
      && if repeat && !Repeats(Lookup(t, table, chord)) then root
         else Lookup(t, table, chord).Some? && Lookup(t, table, chord).value.Act?
  }

  /** A key that neither repeats nor is in conflict ends a repeat: every later state is as if the dispatcher had been
      reset just before it, and its own verdict is that of the root table. */
  lemma RepeatEndsAsRoot(events: seq<Event>, t: Tables, chord: Chord, e: Effect, more: seq<Event>)
    requires var s := After(events);
             && s.pending.InTable? && s.pending.repeat && (s.pending.table, chord) !in t.conflicts
             && !Repeats(Lookup(t, s.pending.table, chord))
    ensures After(events + [Key(t, Some(chord), e)] + more) == After(events + [Reset, Key(t, Some(chord), e)] + more)
    ensures Handle(After(events), t, Some(chord), e).1 == HandleRoot(Set(After(events), Nothing), t, chord, e).1
  {
    var key := Key(t, Some(chord), e);
    Extends(events, key);
    Extends(events, Reset);
    Extends(events + [Reset], key);
    assert events + [Reset] + [key] == events + [Reset, key];
    SameFuture(events + [key], events + [Reset, key], more);
  }

  lemma Extends(events: seq<Event>, e: Event)
    ensures After(events + [e]) == Next(After(events), e)
  {
    assert (events + [e])[..|events|] == events;
  }

  lemma Noted(events: seq<Event>, e: Event)
    ensures After(events + [e]) == Next(After(events), e) && Valid(After(events + [e]))
  {
    Extends(events, e);
    AfterIsValid(events + [e]);
  }

  lemma {:induction false} SameFuture(a: seq<Event>, b: seq<Event>, more: seq<Event>)
    requires After(a) == After(b)
    ensures After(a + more) == After(b + more)
    decreases |more|
  {
    if more == [] {
      assert a + more == a && b + more == b;
    } else {
      var rest, e := more[..|more| - 1], more[|more| - 1];
      SameFuture(a, b, rest);
      assert a + more == a + rest + [e] && b + more == b + rest + [e];
      Extends(a + rest, e);
      Extends(b + rest, e);
    }
  }

  /********** Questions **********/

  // Event e opens the question, in the state it finds: the caller asks it, or the action that a key runs does.
  predicate Opens(s: State, e: Event, question: Question) {
    match e
    case Key(t, chord, effect) => chord.Some? && Runs(s, t, chord.value) && effect.leaves == Some(Asking(question))
    case Confirm(asked) => asked == question
    case _ => false
  }

  // Event e ends whatever was pending before it.
  predicate Settles(e: Event) {
    match e
    case Key(t, chord, effect) => chord.Some?
    case _ => true
  }

  // Step i opened the question and nothing settled it since.
  ghost predicate Asked(events: seq<Event>, i: nat, question: Question) {
    && i < |events| && Opens(After(events[..i]), events[i], question)
    && forall j :: i < j < |events| ==> !Settles(events[j])
  }

  lemma StepAsks(s: State, e: Event, question: Question)
    requires Valid(s)
    ensures Next(s, e).pending == Asking(question)
            <==> Opens(s, e, question) || (s.pending == Asking(question) && !Settles(e))
  {
  }

  /** In every run, a question is pending exactly when some event opened it, possibly the action of a key, and no key
      but bare modifiers, no reset, no deadline and no other question came since. */
  lemma {:induction false} QuestionExactly(events: seq<Event>, question: Question)
    ensures After(events).pending == Asking(question) <==> exists i: nat :: Asked(events, i, question)
  {
    if events != [] {
      var n := |events| - 1;
      var rest, e := events[..n], events[n];
      QuestionExactly(rest, question);
      AfterIsValid(rest);
      StepAsks(After(rest), e, question);
      forall i: nat | i < n ensures Asked(events, i, question) <==> Asked(rest, i, question) && !Settles(e) {
        assert rest[..i] == events[..i];
        assert forall j :: 0 <= j < n ==> rest[j] == events[j];
      }
      assert Asked(events, n, question) <==> Opens(After(rest), e, question);
      if Asked(events, n, question) { assert exists i: nat :: Asked(events, i, question); }
      if i: nat :| Asked(rest, i, question) && !Settles(e) { assert Asked(events, i, question); }
    }
  }

  /********** Tables and repeats **********/

  // A key that is bound in the root table, and is not in conflict there.
  predicate InRoot(t: Tables, chord: Chord, binding: Binding) {
    (ROOT, chord) !in t.conflicts && Lookup(t, ROOT, chord) == Some(binding)
  }

  // The key enters a table, in the state it finds.
  predicate Enters(s: State, e: Event, table: Table, leader: Chord) {
    && e.Key? && e.chord == Some(leader)
    && match s.pending
       case Nothing => InRoot(e.tables, leader, Enter(table))
       case Asking(_) => false
       case InTable(current, _, repeat) =>
         && (current, leader) !in e.tables.conflicts
         && if repeat && !Repeats(Lookup(e.tables, current, leader)) then InRoot(e.tables, leader, Enter(table))
            else Lookup(e.tables, current, leader) == Some(Enter(table))
  }

  // The key runs a repeatable action of the table, which neither asks nor resets.
  predicate RepeatKey(e: Event, table: Table) {
    && e.Key? && e.chord.Some? && (table, e.chord.value) !in e.tables.conflicts
    && Repeats(Lookup(e.tables, table, e.chord.value))
    && (e.effect.leaves.Some? ==> e.effect.leaves.value.InTable?)
  }

  // Step i entered the table, and no key but bare modifiers and nothing else came since.
  ghost predicate Entered(events: seq<Event>, i: nat, table: Table, leader: Chord) {
    && i < |events| && Enters(After(events[..i]), events[i], table, leader)
    && forall j :: i < j < |events| ==> !Settles(events[j])
  }

  // Step i entered the table, and nothing but its repeatable keys and bare modifiers came since, one such key at least.
  ghost predicate Repeating(events: seq<Event>, i: nat, table: Table, leader: Chord) {
    && i < |events| && Enters(After(events[..i]), events[i], table, leader)
    && (forall j :: i < j < |events| ==> RepeatKey(events[j], table) || !Settles(events[j]))
    && (exists j :: i < j < |events| && RepeatKey(events[j], table))
  }

  lemma StepEnters(s: State, e: Event, table: Table, leader: Chord)
    requires Valid(s)
    ensures Next(s, e).pending == InTable(table, leader, false)
       <==> Enters(s, e, table, leader) || (s.pending == InTable(table, leader, false) && !Settles(e))
  {
  }

  lemma StepRepeats(s: State, e: Event, table: Table, leader: Chord)
    requires Valid(s)
    ensures Next(s, e).pending == InTable(table, leader, true)
       <==> || (s.pending == InTable(table, leader, true) && !Settles(e))
            || ((s.pending == InTable(table, leader, true) || s.pending == InTable(table, leader, false))
                && RepeatKey(e, table))
  {
  }

  lemma EnteredMore(rest: seq<Event>, e: Event, i: nat, table: Table, leader: Chord)
    ensures Entered(rest + [e], i, table, leader)
       <==> || (i == |rest| && Enters(After(rest), e, table, leader))
            || (Entered(rest, i, table, leader) && !Settles(e))
  {
    var events := rest + [e];
    assert events[..|rest|] == rest;
    if i < |rest| { assert rest[..i] == events[..i]; }
    assert forall j :: 0 <= j < |rest| ==> rest[j] == events[j];
  }

  lemma RepeatingMore(rest: seq<Event>, e: Event, i: nat, table: Table, leader: Chord)
    ensures Repeating(rest + [e], i, table, leader)
       <==> || (Repeating(rest, i, table, leader) && !Settles(e))
            || ((Repeating(rest, i, table, leader) || Entered(rest, i, table, leader)) && RepeatKey(e, table))
  {
    var events := rest + [e];
    assert forall j :: 0 <= j < |rest| ==> rest[j] == events[j];
    assert events[|rest|] == e;
    if i < |rest| { assert rest[..i] == events[..i]; }
    if Repeating(rest, i, table, leader) {
      var j :| i < j < |rest| && RepeatKey(rest[j], table);
      assert RepeatKey(events[j], table);
    }
    if Repeating(events, i, table, leader) {
      var j :| i < j < |events| && RepeatKey(events[j], table);
      if j < |rest| { assert RepeatKey(rest[j], table); }
      if forall k :: i < k < |rest| ==> !RepeatKey(rest[k], table) {
        forall k | i < k < |rest| ensures !Settles(rest[k]) { assert !RepeatKey(events[k], table); }
      }
    }
  }

  /**
   In every run, a table waits for its key if and only if its leader was the last key; and it repeats if and only if,
   since the leader, only repeatable keys of that table came, one at least, whose actions neither asked nor reset.
   */
  lemma {:induction false} TableExactly(events: seq<Event>, table: Table, leader: Chord)
    ensures After(events).pending == InTable(table, leader, false)
       <==> exists i: nat :: Entered(events, i, table, leader)
    ensures After(events).pending == InTable(table, leader, true)
       <==> exists i: nat :: Repeating(events, i, table, leader)
  {
    hide Entered, Repeating, Enters, RepeatKey, Next;
    if events == [] {
      NoneEntered(table, leader);
    } else {
      var rest, e := events[..|events| - 1], events[|events| - 1];
      assert events == rest + [e];
      TableExactly(rest, table, leader);
      AfterIsValid(rest);
      StepEnters(After(rest), e, table, leader);
      StepRepeats(After(rest), e, table, leader);
      forall i: nat
        ensures Entered(events, i, table, leader)
           <==> || (i == |rest| && Enters(After(rest), e, table, leader))
                || (Entered(rest, i, table, leader) && !Settles(e))
      {
        EnteredMore(rest, e, i, table, leader);
      }
      forall i: nat
        ensures Repeating(events, i, table, leader)
           <==> || (Repeating(rest, i, table, leader) && !Settles(e))
                || ((Repeating(rest, i, table, leader) || Entered(rest, i, table, leader)) && RepeatKey(e, table))
      {
        RepeatingMore(rest, e, i, table, leader);
      }
      EnteredHere(rest, e, table, leader);
      if i: nat :| Entered(rest, i, table, leader) && !Settles(e) { assert Entered(events, i, table, leader); }
      if i: nat :| Repeating(rest, i, table, leader) && !Settles(e) { assert Repeating(events, i, table, leader); }
      if i: nat :| Repeating(rest, i, table, leader) && RepeatKey(e, table) {
        assert Repeating(events, i, table, leader);
      }
      if i: nat :| Entered(rest, i, table, leader) && RepeatKey(e, table) {
        assert Repeating(events, i, table, leader);
      }
    }
  }

  lemma EnteredHere(rest: seq<Event>, e: Event, table: Table, leader: Chord)
    ensures Enters(After(rest), e, table, leader) ==> Entered(rest + [e], |rest|, table, leader)
  {
    assert (rest + [e])[..|rest|] == rest;
  }

  lemma NoneEntered(table: Table, leader: Chord)
    ensures forall i: nat :: !Entered([], i, table, leader) && !Repeating([], i, table, leader)
  {
  }

  /**
   In every run, a key is sent through to the terminal if and only if the key before it was the same leader, which
   entered a table that neither binds the key nor has it in conflict.
   */
  lemma SendExactly(events: seq<Event>, t: Tables, chord: Option<Chord>, e: Effect)
    ensures Handle(After(events), t, chord, e).1 == Send
       <==> chord.Some? && exists table: Table :: SentFrom(events, t, chord.value, table)
  {
    hide Entered;
    if chord.Some? {
      if Handle(After(events), t, chord, e).1 == Send {
        var table := After(events).pending.table;
        TableExactly(events, table, chord.value);
        assert SentFrom(events, t, chord.value, table);
      }
      if table: Table :| SentFrom(events, t, chord.value, table) { TableExactly(events, table, chord.value); }
    }
  }

  ghost predicate SentFrom(events: seq<Event>, t: Tables, chord: Chord, table: Table) {
    && (exists i: nat :: Entered(events, i, table, chord))
    && (table, chord) !in t.conflicts && Lookup(t, table, chord).None?
  }

  /**
   A key passes on as ordinary input if and only if it is a bare modifier, or falls to the root table, without a table
   waiting and not in conflict there, and is unbound or bound to an action that declines.
   */
  lemma PassExactly(s: State, t: Tables, chord: Option<Chord>, e: Effect)
    ensures Handle(s, t, chord, e).1 == Pass
       <==> chord.None?
            || (&& (s.pending.Nothing? || (&& s.pending.InTable? && s.pending.repeat
                                           && (s.pending.table, chord.value) !in t.conflicts
                                           && !Repeats(Lookup(t, s.pending.table, chord.value))))
                && (ROOT, chord.value) !in t.conflicts
                && (|| Lookup(t, ROOT, chord.value).None?
                    || (Lookup(t, ROOT, chord.value).value.Act? && !e.applied)))
  {
  }

  // The closure's variables.
  class KeyDispatcher {
    var pending: Pending
    var timer: bool
    ghost var last: Option<Chord>
    ghost var events: seq<Event>

    // The variables are those of the events so far, and the deadline runs exactly while something is pending.
    ghost predicate Current()
      reads this
    {
      View() == After(events) && (timer <==> pending != Nothing)
    }

    ghost function View(): State
      reads this
    {
      State(pending, timer, last)
    }

    constructor ()
      ensures Current() && View() == INITIAL && events == []
    {
      pending, timer, last, events := Nothing, false, None, [];
    }

    method Put(next: Pending)
      modifies this`pending, this`timer
      ensures View() == Set(old(View()), next)
    {
      if timer { timer := false; }
      timer := next != Nothing;
      pending := next;
    }

    // The application's action, which may call `confirm` or `reset`.
    method Run(e: Effect) returns (applied: bool)
      modifies this`pending, this`timer
      ensures View() == Ran(old(View()), e) && applied == e.applied
    {
      if e.leaves.Some? && !e.leaves.value.InTable? { Put(e.leaves.value); }
      applied := e.applied;
    }

    method OnRoot(t: Tables, chord: Chord, e: Effect) returns (verdict: Verdict)
      modifies this`pending, this`timer
      ensures (View(), verdict) == HandleRoot(old(View()), t, chord, e)
    {
      if (ROOT, chord) in t.conflicts { return Handled; }
      var binding := Lookup(t, ROOT, chord);
      if binding == None { return Pass; }
      if binding.value.Enter? {
        Put(InTable(binding.value.table, chord, false));
        return Handled;
      }
      var applied := Run(e);
      if !applied { return Pass; }
      return Handled;
    }

    method OnConfirm(question: Question)
      requires Current()
      modifies this
      ensures Current() && events == old(events) + [Confirm(question)]
    {
      Noted(events, Confirm(question));
      events := events + [Confirm(question)];
      Put(Asking(question));
    }

    method OnReset()
      requires Current()
      modifies this
      ensures Current() && events == old(events) + [Reset]
    {
      Noted(events, Reset);
      events := events + [Reset];
      if pending != Nothing { Put(Nothing); }
    }

    method OnDeadline()
      requires Current() && timer
      modifies this
      ensures Current() && events == old(events) + [Expire]
    {
      Noted(events, Expire);
      events := events + [Expire];
      Put(Nothing);
    }

    method OnKey(t: Tables, chord: Option<Chord>, e: Effect) returns (verdict: Verdict)
      requires Current()
      modifies this
      ensures Current() && events == old(events) + [Key(t, chord, e)]
      ensures (View(), verdict) == Handle(old(View()), t, chord, e)
      ensures verdict == Send ==> chord.Some? && LastChord(old(events)) == chord
    {
      hide After, LastChord;
      Noted(events, Key(t, chord, e));
      events := events + [Key(t, chord, e)];
      if Handle(View(), t, chord, e).1 == Send { SendNeedsTheLeaderTwice(old(events), t, chord, e); }
      if chord == None { return Pass; }
      last := chord;
      var current := pending;
      if current == Nothing {
        verdict := OnRoot(t, chord.value, e);
        return;
      }
      if current.Asking? {
        Put(Nothing);
        if IsYes(chord.value) { var _ := Run(e); }
        return Handled;
      }
      if (current.table, chord.value) in t.conflicts {
        Put(Nothing);
        return Handled;
      }
      var binding := Lookup(t, current.table, chord.value);
      if current.repeat {
        if !Repeats(binding) {
          Put(Nothing);
          verdict := OnRoot(t, chord.value, e);
          return;
        }
        Put(current);
        var _ := Run(e);
        return Handled;
      }
      if binding == None {
        Put(Nothing);
        return if chord.value == current.chord then Send else Handled;
      }
      if binding.value.Enter? {
        Put(InTable(binding.value.table, chord.value, false));
        return Handled;
      }
      Put(if Repeats(binding) then InTable(current.table, current.chord, true) else Nothing);
      var _ := Run(e);
      return Handled;
    }
  }
}
