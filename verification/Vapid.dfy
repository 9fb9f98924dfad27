/**
 Agreement on one VAPID key pair between any number of processes (apps/server/src/push-vapid.ts).

 One step is one file system call of one process, and any call may fail. A process may stop at any step, and
 the machine may lose power. Files are inodes: the store's name is linked to an inode or absent, writing is
 not atomic, linking is. Deriving a public key from a private key is the parameter `derive`; JSON, file modes
 and the temporary names, which are unique, are left out.
 */
module Vapid {
  import opened Wrappers

  type Inode = nat
  type Process = nat

  datatype Keys = Keys(publicKey: nat, privateKey: nat)

  predicate ValidKeys(derive: nat -> nat, k: Keys) { k.publicKey == derive(k.privateKey) }

  // What an inode holds: a pair that is being written, a whole pair, or anything else.
  datatype Content = Part | Whole(keys: Keys) | Junk

  // Where a call of loadVapidKeys stands: the call it makes next.
  datatype Stage =
    | FirstOpen
    | FirstRead(inode: Inode)
    | Choose
    | Create(keys: Keys)
    | Write(keys: Keys, temporary: Inode)
    | Protect(keys: Keys, temporary: Inode)
    | Sync(keys: Keys, temporary: Inode)
    | Link(keys: Keys, temporary: Inode)
    | SyncEntry
    | Unlink(published: bool)
    | LastOpen
    | LastRead(inode: Inode)

  datatype State = State(
    store: Option<Inode>,           // what the store's name is linked to
    durable: bool,                  // that link would survive a power loss
    contents: map<Inode, Content>,
    synced: set<Inode>,             // inodes whose content would survive
    next: Inode,
    stages: map<Process, Stage>,
    loaded: seq<Keys>)              // what successful calls returned, in order

  datatype Action =
    | Call(process: Process)
    | Step(process: Process, ok: bool)
    | Chooses(process: Process, keys: Keys)   // a migrated or generated pair, checked before use
    | Tolerates(process: Process)             // the file system cannot synchronize directories
    | Crash(process: Process)
    | PowerLoss(lost: set<Inode>, entryLost: bool)

  predicate Enabled(derive: nat -> nat, s: State, a: Action) {
    match a
    case Call(p) => p !in s.stages
    case Step(p, ok) => p in s.stages && (s.stages[p].Choose? ==> !ok)
    case Chooses(p, keys) => p in s.stages && s.stages[p].Choose? && ValidKeys(derive, keys)
    case Tolerates(p) => p in s.stages && s.stages[p].SyncEntry?
    case Crash(p) => p in s.stages
    case PowerLoss(lost, entryLost) => lost !! s.synced && (entryLost ==> !s.durable)
  }

  function Goto(s: State, p: Process, stage: Stage): State { s.(stages := s.stages[p := stage]) }

  // The call returns or throws.
  function Leave(s: State, p: Process): State { s.(stages := s.stages - {p}) }

  // Reading the opened store: a whole valid pair is the result, anything else throws.
  function ReadBack(derive: nat -> nat, s: State, p: Process, inode: Inode): State {
    var content := if inode in s.contents then s.contents[inode] else Junk;
    if content.Whole? && ValidKeys(derive, content.keys) then Leave(s, p).(loaded := s.loaded + [content.keys])
      else Leave(s, p)
  }

  // The step of a call that fails: nothing is undone but the temporary name.
  function Fail(s: State, p: Process, stage: Stage): State {
    match stage
    case Write(keys, temporary) => Goto(s, p, Unlink(false))
    case Protect(keys, temporary) => Goto(s, p, Unlink(false))
    case Sync(keys, temporary) => Goto(s, p, Unlink(false))
    case Link(keys, temporary) => Goto(s, p, Unlink(false))
    case SyncEntry => Goto(s, p, Unlink(false))
    case Unlink(published) => if published then Goto(s, p, LastOpen) else Leave(s, p)
    case _ => Leave(s, p)
  }

  function Succeed(derive: nat -> nat, s: State, p: Process, stage: Stage): State {
    match stage
    case FirstOpen => Goto(s, p, if s.store.Some? then FirstRead(s.store.value) else Choose)
    case FirstRead(inode) => ReadBack(derive, s, p, inode)
    case Choose => Leave(s, p)
    case Create(keys) => Goto(s, p, Write(keys, s.next)).(contents := s.contents[s.next := Part], next := s.next + 1)
    case Write(keys, temporary) =>
      Goto(s, p, Protect(keys, temporary)).(contents := s.contents[temporary := Whole(keys)])
    case Protect(keys, temporary) => Goto(s, p, Sync(keys, temporary))
    case Sync(keys, temporary) => Goto(s, p, Link(keys, temporary)).(synced := s.synced + {temporary})
    case Link(keys, temporary) =>
      if s.store.Some? then Goto(s, p, Unlink(true))
      else Goto(s, p, SyncEntry).(store := Some(temporary), durable := false)
    case SyncEntry => Goto(s, p, Unlink(true)).(durable := true)
    case Unlink(published) => if published then Goto(s, p, LastOpen) else Leave(s, p)
    case LastOpen => if s.store.Some? then Goto(s, p, LastRead(s.store.value)) else Leave(s, p)
    case LastRead(inode) => ReadBack(derive, s, p, inode)
  }

  function Next(derive: nat -> nat, s: State, a: Action): State
    requires Enabled(derive, s, a)
  {
    match a
    case Call(p) => Goto(s, p, FirstOpen)
    case Step(p, ok) => if ok then Succeed(derive, s, p, s.stages[p]) else Fail(s, p, s.stages[p])
    case Chooses(p, keys) => Goto(s, p, Create(keys))
    case Tolerates(p) => Goto(s, p, Unlink(true))
    case Crash(p) => Leave(s, p)
    case PowerLoss(lost, entryLost) =>
      s.(stages := map[], store := if entryLost then None else s.store,
         contents := map i | i in s.contents :: if i in lost then Junk else s.contents[i])
  }

  ghost predicate Run(derive: nat -> nat, s: State, actions: seq<Action>, s': State)
    decreases |actions|
  {
    if actions == [] then s' == s
    else Enabled(derive, s, actions[0]) && Run(derive, Next(derive, s, actions[0]), actions[1..], s')
  }

  predicate LosesName(a: Action) { a.PowerLoss? && a.entryLost }

  // No power loss takes the store's name away.
  predicate NameKept(actions: seq<Action>) { forall a :: a in actions ==> !LosesName(a) }

  // A power loss takes the name away after a call has returned what it read there.
  predicate Harms(s: State, a: Action) { LosesName(a) && s.loaded != [] }

  // Power losses may take the name away, as long as no call has returned.
  ghost predicate Harmless(derive: nat -> nat, s: State, actions: seq<Action>)
    decreases |actions|
  {
    actions == [] || (!Harms(s, actions[0])
                      && (Enabled(derive, s, actions[0])
                          ==> Harmless(derive, Next(derive, s, actions[0]), actions[1..])))
  }

  /********** The invariant **********/

  predicate Holds(stage: Stage) { stage.Write? || stage.Protect? || stage.Sync? || stage.Link? }

  ghost predicate StageOk(derive: nat -> nat, s: State, stage: Stage) {
    match stage
    case FirstRead(inode) => s.store == Some(inode)
    case LastRead(inode) => s.store == Some(inode)
    case Create(keys) => ValidKeys(derive, keys)
    case Write(keys, temporary) => Owned(derive, s, keys, temporary)
    case Protect(keys, temporary) => Owned(derive, s, keys, temporary) && s.contents[temporary] == Whole(keys)
    case Sync(keys, temporary) => Owned(derive, s, keys, temporary) && s.contents[temporary] == Whole(keys)
    case Link(keys, temporary) => Owned(derive, s, keys, temporary) && s.contents[temporary] == Whole(keys)
      && temporary in s.synced
    case SyncEntry => s.store.Some?
    case _ => true
  }

  ghost predicate Owned(derive: nat -> nat, s: State, keys: Keys, temporary: Inode) {
    ValidKeys(derive, keys) && temporary in s.contents && s.store != Some(temporary)
  }

  // The store is what it was at the start, or a whole valid pair published in this run.
  ghost predicate StoreOk(derive: nat -> nat, initial: Option<Content>, s: State) {
    match s.store
    case None => initial.None?
    case Some(i) =>
      && i in s.contents && i in s.synced
      && (if initial.Some? then s.contents[i] == initial.value
          else s.contents[i].Whole? && ValidKeys(derive, s.contents[i].keys))
  }

  ghost predicate Valid(derive: nat -> nat, initial: Option<Content>, s: State) {
    && (forall i :: i in s.contents ==> i < s.next)
    && s.synced <= s.contents.Keys
    && (forall p :: p in s.stages ==> StageOk(derive, s, s.stages[p]))
    && (forall p, q :: (p in s.stages && q in s.stages && Holds(s.stages[p]) && Holds(s.stages[q])
                        && s.stages[p].temporary == s.stages[q].temporary)
                       ==> p == q)
    && StoreOk(derive, initial, s)
    && (initial.Some? ==> s.durable)
  }

  // Every call that returned did so with the pair that the store holds now.
  ghost predicate Agreed(s: State) {
    s.loaded != [] ==> s.store.Some? && s.store.value in s.contents && AllAre(s.loaded, s.contents[s.store.value])
  }

  ghost predicate AllAre(loaded: seq<Keys>, content: Content) {
    forall i :: 0 <= i < |loaded| ==> content == Whole(loaded[i])
  }

  predicate Boots(initial: Option<Content>, s: State) {
    && s.stages == map[] && s.loaded == []
    && match initial
       case None => s == State(None, false, map[], {}, 0, map[], [])
       case Some(content) => s == State(Some(0), true, map[0 := content], {0}, 1, map[], [])
  }

  lemma BootIsValid(derive: nat -> nat, initial: Option<Content>, s: State)
    requires Boots(initial, s)
    ensures Valid(derive, initial, s) && Agreed(s)
  {
  }

  lemma GotoKeeps(derive: nat -> nat, initial: Option<Content>, s: State, p: Process, stage: Stage)
    requires Valid(derive, initial, s) && p in s.stages && StageOk(derive, s, stage)
    requires Holds(stage) ==> Holds(s.stages[p]) && stage.temporary == s.stages[p].temporary
    ensures Valid(derive, initial, Goto(s, p, stage)) && (Agreed(s) ==> Agreed(Goto(s, p, stage)))
  {
  }

  lemma LeaveKeeps(derive: nat -> nat, initial: Option<Content>, s: State, p: Process)
    requires Valid(derive, initial, s)
    ensures Valid(derive, initial, Leave(s, p)) && (Agreed(s) ==> Agreed(Leave(s, p)))
  {
  }

  lemma ReadBackKeeps(derive: nat -> nat, initial: Option<Content>, s: State, p: Process, inode: Inode)
    requires Valid(derive, initial, s) && s.store == Some(inode)
    ensures Valid(derive, initial, ReadBack(derive, s, p, inode))
    ensures (Agreed(s) ==> Agreed(ReadBack(derive, s, p, inode)))
  {
    LeaveKeeps(derive, initial, s, p);
  }

  lemma CreateKeeps(derive: nat -> nat, initial: Option<Content>, s: State, p: Process, keys: Keys)
    requires Valid(derive, initial, s) && p in s.stages && s.stages[p] == Create(keys)
    ensures Valid(derive, initial, Succeed(derive, s, p, s.stages[p]))
  {
    var s' := Succeed(derive, s, p, s.stages[p]);
    assert s.next !in s.contents;
    forall q | q in s'.stages ensures StageOk(derive, s', s'.stages[q]) {
      if q != p { assert StageOk(derive, s, s.stages[q]); }
    }
  }

  lemma WriteKeeps(derive: nat -> nat, initial: Option<Content>, s: State, p: Process, keys: Keys, temporary: Inode)
    requires Valid(derive, initial, s) && p in s.stages && s.stages[p] == Write(keys, temporary)
    ensures Valid(derive, initial, Succeed(derive, s, p, s.stages[p]))
  {
    var s' := Succeed(derive, s, p, s.stages[p]);
    assert StageOk(derive, s, s.stages[p]);
    forall q | q in s'.stages ensures StageOk(derive, s', s'.stages[q]) {
      if q != p { assert StageOk(derive, s, s.stages[q]); }
    }
  }

  lemma SyncKeeps(derive: nat -> nat, initial: Option<Content>, s: State, p: Process, keys: Keys, temporary: Inode)
    requires Valid(derive, initial, s) && p in s.stages && s.stages[p] == Sync(keys, temporary)
    ensures Valid(derive, initial, Succeed(derive, s, p, s.stages[p]))
    ensures (Agreed(s) ==> Agreed(Succeed(derive, s, p, s.stages[p])))
  {
    var s' := Succeed(derive, s, p, s.stages[p]);
    assert StageOk(derive, s, s.stages[p]);
    forall q | q in s'.stages ensures StageOk(derive, s', s'.stages[q]) {
      if q != p { assert StageOk(derive, s, s.stages[q]); }
    }
  }

  // The one step that changes what the name means, and only from absent to a whole valid pair.
  lemma LinkKeeps(derive: nat -> nat, initial: Option<Content>, s: State, p: Process, keys: Keys, temporary: Inode)
    requires Valid(derive, initial, s) && p in s.stages && s.stages[p] == Link(keys, temporary)
    ensures Valid(derive, initial, Succeed(derive, s, p, s.stages[p]))
    ensures (Agreed(s) ==> Agreed(Succeed(derive, s, p, s.stages[p])))
  {
    var s' := Succeed(derive, s, p, s.stages[p]);
    assert StageOk(derive, s, s.stages[p]);
    if s.store.None? {
      forall q | q in s'.stages ensures StageOk(derive, s', s'.stages[q]) {
        if q != p { assert StageOk(derive, s, s.stages[q]); }
      }
    } else {
      GotoKeeps(derive, initial, s, p, Unlink(true));
    }
  }

  lemma ReopenKeeps(derive: nat -> nat, initial: Option<Content>, s: State, p: Process)
    requires Valid(derive, initial, s) && p in s.stages && s.stages[p] == LastOpen
    ensures Valid(derive, initial, Succeed(derive, s, p, LastOpen))
    ensures (Agreed(s) ==> Agreed(Succeed(derive, s, p, LastOpen)))
  {
    if s.store.Some? {
      GotoKeeps(derive, initial, s, p, LastRead(s.store.value));
    } else {
      LeaveKeeps(derive, initial, s, p);
    }
  }

  lemma SucceedKeeps(derive: nat -> nat, initial: Option<Content>, s: State, p: Process)
    requires Valid(derive, initial, s) && p in s.stages && !s.stages[p].Choose?
    ensures Valid(derive, initial, Succeed(derive, s, p, s.stages[p]))
    ensures (Agreed(s) ==> Agreed(Succeed(derive, s, p, s.stages[p])))
  {
    assert StageOk(derive, s, s.stages[p]);
    match s.stages[p]
    case FirstOpen => GotoKeeps(derive, initial, s, p, if s.store.Some? then FirstRead(s.store.value) else Choose);
    case FirstRead(inode) => ReadBackKeeps(derive, initial, s, p, inode);
    case Choose =>
    case Create(keys) => CreateKeeps(derive, initial, s, p, keys);
    case Write(keys, temporary) => WriteKeeps(derive, initial, s, p, keys, temporary);
    case Protect(keys, temporary) => GotoKeeps(derive, initial, s, p, Sync(keys, temporary));
    case Sync(keys, temporary) => SyncKeeps(derive, initial, s, p, keys, temporary);
    case Link(keys, temporary) => LinkKeeps(derive, initial, s, p, keys, temporary);
    case SyncEntry => GotoKeeps(derive, initial, s, p, Unlink(true));
    case Unlink(published) =>
      if published { GotoKeeps(derive, initial, s, p, LastOpen); } else { LeaveKeeps(derive, initial, s, p); }
    case LastOpen => ReopenKeeps(derive, initial, s, p);
    case LastRead(inode) => ReadBackKeeps(derive, initial, s, p, inode);
  }

  lemma FailKeeps(derive: nat -> nat, initial: Option<Content>, s: State, p: Process)
    requires Valid(derive, initial, s) && p in s.stages
    ensures Valid(derive, initial, Fail(s, p, s.stages[p])) && (Agreed(s) ==> Agreed(Fail(s, p, s.stages[p])))
  {
    GotoKeeps(derive, initial, s, p, Unlink(false));
    GotoKeeps(derive, initial, s, p, LastOpen);
    LeaveKeeps(derive, initial, s, p);
  }

  lemma NextKeeps(derive: nat -> nat, initial: Option<Content>, s: State, a: Action)
    requires Valid(derive, initial, s) && Enabled(derive, s, a)
    ensures Valid(derive, initial, Next(derive, s, a))
    ensures Agreed(s) && !Harms(s, a) ==> Agreed(Next(derive, s, a))
  {
    match a
    case Call(p) =>
    case Step(p, ok) => if ok { SucceedKeeps(derive, initial, s, p); } else { FailKeeps(derive, initial, s, p); }
    case Chooses(p, keys) => GotoKeeps(derive, initial, s, p, Create(keys));
    case Tolerates(p) => GotoKeeps(derive, initial, s, p, Unlink(true));
    case Crash(p) => LeaveKeeps(derive, initial, s, p);
    case PowerLoss(lost, entryLost) =>
  }

  lemma {:induction false} RunKeeps(derive: nat -> nat, initial: Option<Content>, s: State, actions: seq<Action>,
                                    s': State)
    requires Run(derive, s, actions, s') && Harmless(derive, s, actions) && Valid(derive, initial, s) && Agreed(s)
    ensures Valid(derive, initial, s') && Agreed(s')
    decreases |actions|
  {
    if actions != [] {
      NextKeeps(derive, initial, s, actions[0]);
      RunKeeps(derive, initial, Next(derive, s, actions[0]), actions[1..], s');
    }
  }

  lemma {:induction false} AnyRunKeeps(derive: nat -> nat, initial: Option<Content>, s: State, actions: seq<Action>,
                                       s': State)
    requires Run(derive, s, actions, s') && Valid(derive, initial, s)
    ensures Valid(derive, initial, s')
    decreases |actions|
  {
    if actions != [] {
      NextKeeps(derive, initial, s, actions[0]);
      AnyRunKeeps(derive, initial, Next(derive, s, actions[0]), actions[1..], s');
    }
  }

  /********** Results **********/

  /** Even across power losses, a store that was absent at first is never seen half written or with a broken pair. */
  lemma StoreIsWhole(derive: nat -> nat, s: State, actions: seq<Action>, s': State)
    requires Boots(None, s) && Run(derive, s, actions, s')
    ensures s'.store.Some? ==> s'.store.value in s'.contents && s'.contents[s'.store.value].Whole?
                               && ValidKeys(derive, s'.contents[s'.store.value].keys)
  {
    BootIsValid(derive, None, s);
    AnyRunKeeps(derive, None, s, actions, s');
  }

  /**
   A step keeps the agreement of all calls so far with the store unless it is a power loss that takes the name away
   after a call has returned, and that always breaks it.
   */
  lemma AgreementExactly(derive: nat -> nat, initial: Option<Content>, s: State, a: Action)
    requires Valid(derive, initial, s) && Enabled(derive, s, a) && Agreed(s)
    ensures Agreed(Next(derive, s, a)) <==> !Harms(s, a)
  {
    NextKeeps(derive, initial, s, a);
  }

  /**
   All successful calls, of any number of processes with failures and crashes anywhere, return the same pair,
   and it is a whole valid pair. Power losses may take the name away before the first of them returns.
   */
  lemma AllCallsAgree(derive: nat -> nat, initial: Option<Content>, s: State, actions: seq<Action>, s': State, i: nat,
                      j: nat)
    requires Boots(initial, s) && Run(derive, s, actions, s') && Harmless(derive, s, actions)
    requires i < |s'.loaded| && j < |s'.loaded|
    ensures s'.loaded[i] == s'.loaded[j]
    ensures s'.store.Some? && s'.store.value in s'.contents && s'.contents[s'.store.value] == Whole(s'.loaded[i])
    ensures initial.None? ==> ValidKeys(derive, s'.loaded[i])
  {
    BootIsValid(derive, initial, s);
    RunKeeps(derive, initial, s, actions, s');
  }

  /********** Calls that nothing disturbs **********/

  // Nothing fails, stops or loses power.
  predicate Faultless(actions: seq<Action>) {
    forall a :: a in actions ==> !a.Crash? && !a.PowerLoss? && (a.Step? ==> a.ok)
  }

  // Where a call stands that nothing disturbed: the store is there once it was linked or read.
  predicate StandsWell(s: State, stage: Stage) {
    && stage != Unlink(false)
    && (stage.FirstRead? || stage.SyncEntry? || stage.Unlink? || stage.LastOpen? || stage.LastRead? ==> s.store.Some?)
  }

  ghost predicate OnCourse(s: State) { forall p :: p in s.stages ==> StandsWell(s, s.stages[p]) }

  // How many steps a call still has before it, at most.
  function Distance(stage: Stage): nat {
    match stage
    case FirstOpen => 10
    case Choose => 9
    case Create(keys) => 8
    case Write(keys, temporary) => 7
    case Protect(keys, temporary) => 6
    case Sync(keys, temporary) => 5
    case Link(keys, temporary) => 4
    case SyncEntry => 3
    case Unlink(published) => 2
    case LastOpen => 1
    case FirstRead(inode) => 0
    case LastRead(inode) => 0
  }

  lemma OnCourseNext(derive: nat -> nat, initial: Option<Content>, s: State, a: Action)
    requires Valid(derive, initial, s) && Enabled(derive, s, a) && OnCourse(s) && Faultless([a])
    ensures OnCourse(Next(derive, s, a))
  {
    assert a in [a];
    if a.Step? { assert StandsWell(s, s.stages[a.process]); }
  }

  lemma {:induction false} OnCourseRun(derive: nat -> nat, initial: Option<Content>, s: State, actions: seq<Action>,
                                       s': State)
    requires Run(derive, s, actions, s') && Faultless(actions) && Valid(derive, initial, s) && OnCourse(s)
    ensures Valid(derive, initial, s') && OnCourse(s')
    decreases |actions|
  {
    if actions != [] {
      assert actions[0] in actions;
      NextKeeps(derive, initial, s, actions[0]);
      OnCourseNext(derive, initial, s, actions[0]);
      OnCourseRun(derive, initial, Next(derive, s, actions[0]), actions[1..], s');
    }
  }

  /**
   In every run in which nothing fails, of any number of processes and from no store or a whole valid one, each step
   brings its call nearer to the end, and the call ends only by returning the pair in the store.
   */
  lemma FaultlessCallsLoad(derive: nat -> nat, initial: Option<Content>, s0: State, actions: seq<Action>, s: State,
                           a: Action, p: Process)
    requires Boots(initial, s0) && Run(derive, s0, actions, s) && Faultless(actions + [a]) && Enabled(derive, s, a)
    requires initial.Some? ==> initial.value.Whole? && ValidKeys(derive, initial.value.keys)
    requires p in s.stages && (a == Step(p, true) || (a.Chooses? && a.process == p) || a == Tolerates(p))
    ensures var s' := Next(derive, s, a);
            if p in s'.stages then Distance(s'.stages[p]) < Distance(s.stages[p]) && s'.loaded == s.loaded
            else && s.store.Some? && s.store.value in s.contents && s.contents[s.store.value].Whole?
                 && s'.loaded == s.loaded + [s.contents[s.store.value].keys]
  {
    assert forall b :: b in actions ==> b in actions + [a];
    BootIsValid(derive, initial, s0);
    OnCourseRun(derive, initial, s0, actions, s);
    assert a in actions + [a];
    StoreHolds(derive, initial, s);
    StepLoads(derive, s, a, p);
  }

  // The store, if there is one, holds a whole valid pair.
  ghost predicate Sound(derive: nat -> nat, s: State) {
    s.store.Some? ==>
      && s.store.value in s.contents && s.contents[s.store.value].Whole?
      && ValidKeys(derive, s.contents[s.store.value].keys)
  }

  lemma StoreHolds(derive: nat -> nat, initial: Option<Content>, s: State)
    requires Valid(derive, initial, s)
    requires initial.Some? ==> initial.value.Whole? && ValidKeys(derive, initial.value.keys)
    ensures Sound(derive, s) && forall p :: p in s.stages ==> StageOk(derive, s, s.stages[p])
  {
  }

  lemma StepLoads(derive: nat -> nat, s: State, a: Action, p: Process)
    requires Enabled(derive, s, a) && p in s.stages && Sound(derive, s)
    requires StandsWell(s, s.stages[p]) && StageOk(derive, s, s.stages[p])
    requires a == Step(p, true) || (a.Chooses? && a.process == p) || a == Tolerates(p)
    ensures var s' := Next(derive, s, a);
            if p in s'.stages then Distance(s'.stages[p]) < Distance(s.stages[p]) && s'.loaded == s.loaded
            else && s.store.Some? && s.store.value in s.contents && s.contents[s.store.value].Whole?
                 && s'.loaded == s.loaded + [s.contents[s.store.value].keys]
  {
    hide ValidKeys, Owned;
  }

  /********** Calls that fail **********/

  // The step of a call that it cannot ignore failed: any but taking away its temporary name.
  predicate Breaks(s: State, a: Action, p: Process) {
    a == Step(p, false) && p in s.stages && !s.stages[p].Unlink?
  }

  // Whether the running call of p had such a step in this run, or before it.
  predicate Broke(derive: nat -> nat, s: State, actions: seq<Action>, p: Process, before: bool)
    decreases |actions|
  {
    if actions == [] then before
    else
      Enabled(derive, s, actions[0])
      && Broke(derive, Next(derive, s, actions[0]), actions[1..], p,
               actions[0] != Call(p) && (before || Breaks(s, actions[0], p)))
  }

  // A call that cannot go on is about to end, and only such a call.
  predicate Marked(s: State, p: Process, broke: bool) { p in s.stages ==> (broke <==> s.stages[p] == Unlink(false)) }

  lemma MarkedNext(derive: nat -> nat, s: State, a: Action, p: Process, broke: bool)
    requires Enabled(derive, s, a) && Marked(s, p, broke)
    ensures Marked(Next(derive, s, a), p, a != Call(p) && (broke || Breaks(s, a, p)))
  {
  }

  lemma {:induction false} MarkedRun(derive: nat -> nat, s: State, actions: seq<Action>, s': State, p: Process,
                                     broke: bool)
    requires Run(derive, s, actions, s') && Marked(s, p, broke)
    ensures Marked(s', p, Broke(derive, s, actions, p, broke))
    decreases |actions|
  {
    hide Marked, Next;
    if actions != [] {
      var a := actions[0];
      MarkedNext(derive, s, a, p, broke);
      MarkedRun(derive, Next(derive, s, a), actions[1..], s', p, a != Call(p) && (broke || Breaks(s, a, p)));
    }
  }

  // Reading this file yields a whole valid pair.
  predicate Readable(derive: nat -> nat, s: State, i: Inode) {
    i in s.contents && s.contents[i].Whole? && ValidKeys(derive, s.contents[i].keys)
  }

  // The step finds what it reads missing or broken.
  predicate FindsNothing(derive: nat -> nat, s: State, stage: Stage) {
    || (stage.LastOpen? && s.store.None?)
    || ((stage.FirstRead? || stage.LastRead?) && !Readable(derive, s, stage.inode))
  }

  /**
   In every run, whatever fails: a call that ends throws if and only if a step of it failed, other than taking away its
   temporary name, or it found no store or a broken one; otherwise it returns the pair that it read.
   */
  lemma CallsThrowExactly(derive: nat -> nat, initial: Option<Content>, s0: State, actions: seq<Action>, s: State,
                          p: Process, ok: bool)
    requires Boots(initial, s0) && Run(derive, s0, actions, s) && Enabled(derive, s, Step(p, ok))
    requires p !in Next(derive, s, Step(p, ok)).stages
    ensures var s', stage := Next(derive, s, Step(p, ok)), s.stages[p];
            if Broke(derive, s0, actions, p, false) || Breaks(s, Step(p, ok), p) || FindsNothing(derive, s, stage)
            then s'.loaded == s.loaded
            else && (stage.FirstRead? || stage.LastRead?) && Readable(derive, s, stage.inode)
                 && s'.loaded == s.loaded + [s.contents[stage.inode].keys]
  {
    MarkedRun(derive, s0, actions, s, p, false);
    EndsBy(derive, s, p, ok, Broke(derive, s0, actions, p, false));
  }

  lemma EndsBy(derive: nat -> nat, s: State, p: Process, ok: bool, broke: bool)
    requires Enabled(derive, s, Step(p, ok)) && p !in Next(derive, s, Step(p, ok)).stages && Marked(s, p, broke)
    ensures var s', stage := Next(derive, s, Step(p, ok)), s.stages[p];
            if broke || Breaks(s, Step(p, ok), p) || FindsNothing(derive, s, stage) then s'.loaded == s.loaded
            else && (stage.FirstRead? || stage.LastRead?) && Readable(derive, s, stage.inode)
                 && s'.loaded == s.loaded + [s.contents[stage.inode].keys]
  {
    hide ValidKeys;
  }

  /**
   A call ends exactly when it reads a store, finds none at last, fails before it has a temporary file or when it reads,
   or has taken its temporary name away after a failure.
   */
  lemma CallsEndExactly(derive: nat -> nat, s: State, p: Process, ok: bool)
    requires Enabled(derive, s, Step(p, ok))
    ensures p !in Next(derive, s, Step(p, ok)).stages
       <==> match s.stages[p]
            case FirstRead(i) => true
            case LastRead(i) => true
            case Choose => true
            case LastOpen => !ok || s.store.None?
            case FirstOpen => !ok
            case Create(keys) => !ok
            case Unlink(published) => !published
            case _ => false
  {
    hide ValidKeys;
  }

  /********** Entries that stay **********/

  lemma DurableNext(derive: nat -> nat, s: State, a: Action)
    requires Enabled(derive, s, a) && s.durable && s.store.Some?
    ensures var s' := Next(derive, s, a); s'.durable && s'.store == s.store
  {
  }

  lemma {:induction false} DurableStays(derive: nat -> nat, s: State, actions: seq<Action>, s': State)
    requires Run(derive, s, actions, s') && s.durable && s.store.Some?
    ensures s'.store == s.store
    decreases |actions|
  {
    if actions != [] {
      DurableNext(derive, s, actions[0]);
      DurableStays(derive, Next(derive, s, actions[0]), actions[1..], s');
    }
  }

  /** Once one process has synchronized the directory, no failure, stop or power loss takes the store away any more. */
  lemma SynchronizedStays(derive: nat -> nat, initial: Option<Content>, s0: State, before: seq<Action>, s: State,
                          p: Process, after: seq<Action>, s': State)
    requires Boots(initial, s0) && Run(derive, s0, before, s)
    requires p in s.stages && s.stages[p] == SyncEntry && Run(derive, Next(derive, s, Step(p, true)), after, s')
    ensures s.store.Some? && s'.store == s.store
  {
    BootIsValid(derive, initial, s0);
    AnyRunKeeps(derive, initial, s0, before, s);
    assert StageOk(derive, s, s.stages[p]);
    DurableStays(derive, Next(derive, s, Step(p, true)), after, s');
  }

  // While the name stays, it means the same, and only whole valid pairs are returned.
  ghost predicate Stays(derive: nat -> nat, s: State, s': State) {
    && (s.store.Some? ==> s'.store == s.store && s.store.value in s.contents && s.store.value in s'.contents
                          && s'.contents[s.store.value] == s.contents[s.store.value])
    && (forall k :: k in s'.loaded && k !in s.loaded ==> ValidKeys(derive, k))
  }

  lemma NextStays(derive: nat -> nat, initial: Option<Content>, s: State, a: Action)
    requires Valid(derive, initial, s) && Enabled(derive, s, a) && !LosesName(a)
    ensures Stays(derive, s, Next(derive, s, a))
  {
    if a.Step? && a.ok {
      assert StageOk(derive, s, s.stages[a.process]);
    }
  }

  lemma {:induction false} RunStays(derive: nat -> nat, initial: Option<Content>, s: State, actions: seq<Action>,
                                    s': State)
    requires Run(derive, s, actions, s') && NameKept(actions) && Valid(derive, initial, s)
    ensures Valid(derive, initial, s') && Stays(derive, s, s')
    decreases |actions|
  {
    if actions != [] {
      assert actions[0] in actions;
      var s1 := Next(derive, s, actions[0]);
      NextKeeps(derive, initial, s, actions[0]);
      NextStays(derive, initial, s, actions[0]);
      RunStays(derive, initial, s1, actions[1..], s');
    }
  }

  // A store that was there at the start is durable.
  lemma {:induction false} DurableRun(derive: nat -> nat, content: Content, s: State, actions: seq<Action>, s': State)
    requires Run(derive, s, actions, s') && Valid(derive, Some(content), s)
    ensures NameKept(actions)
    decreases |actions|
  {
    if actions != [] {
      NextKeeps(derive, Some(content), s, actions[0]);
      DurableRun(derive, content, Next(derive, s, actions[0]), actions[1..], s');
      forall a | a in actions ensures !LosesName(a) { assert a == actions[0] || a in actions[1..]; }
    }
  }

  lemma {:induction false} KeptIsHarmless(derive: nat -> nat, s: State, actions: seq<Action>)
    requires NameKept(actions)
    ensures Harmless(derive, s, actions)
    decreases |actions|
  {
    if actions != [] {
      assert actions[0] in actions;
      if Enabled(derive, s, actions[0]) { KeptIsHarmless(derive, Next(derive, s, actions[0]), actions[1..]); }
    }
  }

  /**
   A store that exists is never replaced, whatever it holds and whatever fails, stops or loses power: broken
   credentials block every call.
   */
  lemma StoreIsNeverReplaced(derive: nat -> nat, content: Content, s: State, actions: seq<Action>, s': State)
    requires Boots(Some(content), s) && Run(derive, s, actions, s')
    ensures s'.store == s.store && s'.store.value in s'.contents && s'.contents[s'.store.value] == content
    ensures !(content.Whole? && ValidKeys(derive, content.keys)) ==> s'.loaded == []
  {
    BootIsValid(derive, Some(content), s);
    DurableRun(derive, content, s, actions, s');
    KeptIsHarmless(derive, s, actions);
    RunStays(derive, Some(content), s, actions, s');
    RunKeeps(derive, Some(content), s, actions, s');
    if s'.loaded != [] {
      assert s'.loaded[0] in s'.loaded;
    }
  }

  // The name is not linked to inode i, and no call can link it to i any more.
  ghost predicate Abandoned(s: State, i: Inode) {
    && i < s.next && s.store != Some(i)
    && forall p :: p in s.stages && Holds(s.stages[p]) ==> s.stages[p].temporary != i
  }

  lemma {:induction false} AbandonedStays(derive: nat -> nat, initial: Option<Content>, s: State, actions: seq<Action>,
                                          s': State, i: Inode)
    requires Run(derive, s, actions, s') && Valid(derive, initial, s) && Abandoned(s, i)
    ensures Abandoned(s', i)
    decreases |actions|
  {
    if actions != [] {
      NextKeeps(derive, initial, s, actions[0]);
      AbandonedNext(derive, s, actions[0], i);
      AbandonedStays(derive, initial, Next(derive, s, actions[0]), actions[1..], s', i);
    }
  }

  lemma AbandonedNext(derive: nat -> nat, s: State, a: Action, i: Inode)
    requires Enabled(derive, s, a) && Abandoned(s, i)
    ensures Abandoned(Next(derive, s, a), i)
  {
    hide Succeed, Fail;
    if a.Step? { if a.ok { AbandonedSucceeds(derive, s, a.process, i); } else { AbandonedFails(s, a.process, i); } }
  }

  lemma AbandonedSucceeds(derive: nat -> nat, s: State, p: Process, i: Inode)
    requires p in s.stages && Abandoned(s, i)
    ensures Abandoned(Succeed(derive, s, p, s.stages[p]), i)
  {
    hide ValidKeys;
  }

  lemma AbandonedFails(s: State, p: Process, i: Inode)
    requires p in s.stages && Abandoned(s, i)
    ensures Abandoned(Fail(s, p, s.stages[p]), i)
  {
  }

  lemma {:induction false} LostForGood(derive: nat -> nat, initial: Option<Content>, s: State, actions: seq<Action>,
                                       s': State)
    requires Run(derive, s, actions, s') && Valid(derive, initial, s) && s.store.Some? && !NameKept(actions)
    ensures s'.store != s.store
    decreases |actions|
  {
    var s1 := Next(derive, s, actions[0]);
    NextKeeps(derive, initial, s, actions[0]);
    if LosesName(actions[0]) {
      AbandonedStays(derive, initial, s1, actions[1..], s', s.store.value);
    } else {
      NextStays(derive, initial, s, actions[0]);
      var a :| a in actions && LosesName(a);
      assert a in actions[1..];
      LostForGood(derive, initial, s1, actions[1..], s');
    }
  }

  /**
   The store goes from absent to one pair at most once: whatever happened before, from any moment on it stays the
   file it is, with the same content, if and only if no power loss takes its name away.
   */
  lemma StoreIsSetOnce(derive: nat -> nat, initial: Option<Content>, s0: State, before: seq<Action>, s: State,
                       after: seq<Action>, s': State)
    requires Boots(initial, s0) && Run(derive, s0, before, s) && Run(derive, s, after, s')
    requires s.store.Some?
    ensures s'.store == s.store <==> NameKept(after)
    ensures s'.store == s.store ==> s.store.value in s.contents && s.store.value in s'.contents
                                    && s'.contents[s.store.value] == s.contents[s.store.value]
  {
    BootIsValid(derive, initial, s0);
    AnyRunKeeps(derive, initial, s0, before, s);
    if NameKept(after) { RunStays(derive, initial, s, after, s'); } else { LostForGood(derive, initial, s, after, s'); }
  }

  /********** Power loss **********/

  function Ok(p: Process): Action { Step(p, true) }

  // Process p has published k up to the link, whose directory entry is not synchronized yet.
  function Published(s: State, p: Process, k: Keys): State {
    s.(store := Some(s.next), durable := false, contents := s.contents[s.next := Whole(k)],
       synced := s.synced + {s.next}, next := s.next + 1, stages := s.stages[p := SyncEntry])
  }

  lemma {:induction false} RunTwo(derive: nat -> nat, s: State, a: seq<Action>, s1: State, b: seq<Action>, s2: State)
    requires Run(derive, s, a, s1) && Run(derive, s1, b, s2)
    ensures Run(derive, s, a + b, s2)
    decreases |a|
  {
    if a == [] {
      assert a + b == b;
    } else {
      assert (a + b)[0] == a[0] && (a + b)[1..] == a[1..] + b;
      RunTwo(derive, Next(derive, s, a[0]), a[1..], s1, b, s2);
    }
  }

  lemma RunOne(derive: nat -> nat, s: State, a: Action)
    requires Enabled(derive, s, a)
    ensures Run(derive, s, [a], Next(derive, s, a))
  {
    assert [a][1..] == [];
  }

  lemma RunMore(derive: nat -> nat, s: State, actions: seq<Action>, s1: State, a: Action)
    requires Run(derive, s, actions, s1) && Enabled(derive, s1, a)
    ensures Run(derive, s, actions + [a], Next(derive, s1, a))
  {
    RunOne(derive, s1, a);
    RunTwo(derive, s, actions, s1, [a], Next(derive, s1, a));
  }

  // The temporary file of process p, created and empty.
  function Created(s: State, p: Process, k: Keys): State {
    Goto(s, p, Write(k, s.next)).(contents := s.contents[s.next := Part], next := s.next + 1)
  }

  lemma Creates(derive: nat -> nat, s: State, p: Process, k: Keys) returns (actions: seq<Action>)
    requires s.store.None? && p !in s.stages && ValidKeys(derive, k)
    ensures Run(derive, s, actions, Created(s, p, k))
  {
    var s1 := Goto(s, p, FirstOpen);
    var s2 := Goto(s, p, Choose);
    var s3 := Goto(s, p, Create(k));
    RunOne(derive, s, Call(p));
    RunMore(derive, s, [Call(p)], s1, Ok(p));
    assert Next(derive, s1, Ok(p)) == s2;
    RunMore(derive, s, [Call(p)] + [Ok(p)], s2, Chooses(p, k));
    assert Next(derive, s2, Chooses(p, k)) == s3;
    RunMore(derive, s, [Call(p)] + [Ok(p)] + [Chooses(p, k)], s3, Ok(p));
    assert Next(derive, s3, Ok(p)) == Created(s, p, k);
    actions := [Call(p)] + [Ok(p)] + [Chooses(p, k)] + [Ok(p)];
  }

  // Process p has written the file of k and is about to link it.
  function Linking(s: State, p: Process, k: Keys): State {
    Goto(s, p, Link(k, s.next)).(contents := s.contents[s.next := Whole(k)], synced := s.synced + {s.next},
                                 next := s.next + 1)
  }

  lemma Written(derive: nat -> nat, s: State, p: Process, k: Keys)
    requires s.store.None? && p !in s.stages && ValidKeys(derive, k)
    ensures var s5 := Goto(Created(s, p, k), p, Protect(k, s.next)).(contents := s.contents[s.next := Whole(k)]);
            Enabled(derive, Created(s, p, k), Ok(p)) && Next(derive, Created(s, p, k), Ok(p)) == s5
  {
  }

  lemma Linked(derive: nat -> nat, s: State, p: Process, k: Keys)
    requires s.store.None? && p !in s.stages && ValidKeys(derive, k)
    ensures var s5 := Goto(Created(s, p, k), p, Protect(k, s.next)).(contents := s.contents[s.next := Whole(k)]);
            var s6 := Goto(s5, p, Sync(k, s.next));
            && Enabled(derive, s5, Ok(p)) && Next(derive, s5, Ok(p)) == s6
            && Enabled(derive, s6, Ok(p)) && Next(derive, s6, Ok(p)) == Linking(s, p, k)
  {
  }

  lemma Writes(derive: nat -> nat, s: State, p: Process, k: Keys) returns (actions: seq<Action>)
    requires s.store.None? && p !in s.stages && ValidKeys(derive, k)
    ensures Run(derive, s, actions, Linking(s, p, k))
  {
    hide Next, Enabled, Run, Created, Linking;
    var s5 := Goto(Created(s, p, k), p, Protect(k, s.next)).(contents := s.contents[s.next := Whole(k)]);
    actions := Creates(derive, s, p, k);
    Written(derive, s, p, k);
    Linked(derive, s, p, k);
    RunMore(derive, s, actions, Created(s, p, k), Ok(p));
    RunMore(derive, s, actions + [Ok(p)], s5, Ok(p));
    RunMore(derive, s, actions + [Ok(p)] + [Ok(p)], Goto(s5, p, Sync(k, s.next)), Ok(p));
    actions := actions + [Ok(p)] + [Ok(p)] + [Ok(p)];
  }

  lemma Publishes(derive: nat -> nat, s: State, p: Process, k: Keys) returns (actions: seq<Action>)
    requires s.store.None? && p !in s.stages && ValidKeys(derive, k)
    ensures Run(derive, s, actions, Published(s, p, k))
  {
    actions := Writes(derive, s, p, k);
    RunMore(derive, s, actions, Linking(s, p, k), Ok(p));
    assert Next(derive, Linking(s, p, k), Ok(p)) == Published(s, p, k);
    actions := actions + [Ok(p)];
  }

  // A process that finds the store reads it.
  lemma Reads(derive: nat -> nat, s: State, p: Process, k: Keys) returns (actions: seq<Action>)
    requires s.store.Some? && s.store.value in s.contents && s.contents[s.store.value] == Whole(k)
    requires ValidKeys(derive, k) && p !in s.stages
    ensures Run(derive, s, actions, s.(loaded := s.loaded + [k]))
  {
    var s1 := Goto(s, p, FirstOpen);
    var s2 := Goto(s, p, FirstRead(s.store.value));
    RunOne(derive, s, Call(p));
    RunMore(derive, s, [Call(p)], s1, Ok(p));
    assert Next(derive, s1, Ok(p)) == s2;
    RunMore(derive, s, [Call(p)] + [Ok(p)], s2, Ok(p));
    assert s2.stages - {p} == s.stages;
    assert Next(derive, s2, Ok(p)) == s.(loaded := s.loaded + [k]);
    actions := [Call(p)] + [Ok(p)] + [Ok(p)];
  }

  lemma LosesEntry(derive: nat -> nat, s: State)
    requires !s.durable
    ensures Run(derive, s, [PowerLoss({}, true)], s.(stages := map[], store := None))
  {
    RunOne(derive, s, PowerLoss({}, true));
    assert (map i | i in s.contents :: if i in {} then Junk else s.contents[i]) == s.contents;
  }

  const BLANK := State(None, false, map[], {}, 0, map[], [])

  // A process publishes k where there is no store, and another one reads it.
  lemma PublishAndRead(derive: nat -> nat, s: State, k: Keys) returns (actions: seq<Action>, s': State)
    requires s.store.None? && s.stages == map[] && ValidKeys(derive, k)
    ensures Run(derive, s, actions, s') && s'.loaded == s.loaded + [k] && !s'.durable
  {
    var a := Publishes(derive, s, 1, k);
    var s1 := Published(s, 1, k);
    var b := Reads(derive, s1, 2, k);
    s' := s1.(loaded := s1.loaded + [k]);
    RunTwo(derive, s, a, s1, b, s');
    actions := a + b;
  }

  /**
   A harmful loss leaves nothing to rely on: from every state in which a power loss can take the name away after
   a call has returned, it can, and then a later call can return any valid pair there is.
   */
  lemma LostEntryAllowsAnyPair(derive: nat -> nat, s: State, k: Keys) returns (actions: seq<Action>, s': State)
    requires s.loaded != [] && !s.durable && ValidKeys(derive, k)
    ensures Enabled(derive, s, PowerLoss({}, true)) && Harms(s, PowerLoss({}, true))
    ensures Run(derive, s, [PowerLoss({}, true)] + actions, s') && s'.loaded == s.loaded + [k]
  {
    var s1 := s.(stages := map[], store := None);
    LosesEntry(derive, s);
    actions, s' := PublishAndRead(derive, s1, k);
    RunTwo(derive, s, [PowerLoss({}, true)], s1, actions, s');
  }

  /**
   Such states are reached: a process that reads the winner's pair returns it before the winner has synchronized
   the directory entry, and a power loss in between lets another pair win.
   */
  lemma LostEntryDisagrees(derive: nat -> nat, k1: Keys, k2: Keys) returns (actions: seq<Action>, s: State)
    requires ValidKeys(derive, k1) && ValidKeys(derive, k2)
    ensures Boots(None, BLANK) && Run(derive, BLANK, actions, s) && s.loaded == [k1, k2]
  {
    var a1, s1 := PublishAndRead(derive, BLANK, k1);
    var a2;
    a2, s := LostEntryAllowsAnyPair(derive, s1, k2);
    RunTwo(derive, BLANK, a1, s1, [PowerLoss({}, true)] + a2, s);
    actions := a1 + ([PowerLoss({}, true)] + a2);
  }
}
