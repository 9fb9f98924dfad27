/**
 Runs that never overlap: the visibility poller of the console (apps/web/src/client-scheduling.ts) and the
 coalesced derive of a pane socket (apps/server/src/app.ts).
 */
module Scheduling {
  /********** The poller **********/

  // `armed` counts the browser's timers; `timer` is the variable that remembers one.
  datatype Poller = Poller(stopped: bool, running: bool, rerun: bool, timer: bool, armed: nat, visible: bool,
                           starts: nat, ends: nat)

  datatype PollEvent = Fires | Shows(visible: bool) | Finishes | Stops

  function ClearTimer(p: Poller): Poller {
    if p.timer then p.(timer := false, armed := if p.armed > 0 then p.armed - 1 else 0) else p
  }

  // `background` is whether the caller gave an interval for hidden pages.
  function Schedule(p: Poller, background: bool): Poller {
    var q := ClearTimer(p);
    if q.stopped || (!q.visible && !background) then q else q.(timer := true, armed := q.armed + 1)
  }

  function Start(p: Poller, background: bool): Poller {
    var q := ClearTimer(p);
    if q.stopped || (!q.visible && !background) then q
    else if q.running then q.(rerun := q.rerun || q.visible)
    else q.(running := true, starts := q.starts + 1)
  }

  function Begin(immediate: bool, visible: bool, background: bool): Poller {
    var p := Poller(false, false, false, false, 0, visible, 0, 0);
    if immediate then Start(p, background) else Schedule(p, background)
  }

  predicate PollEnabled(p: Poller, e: PollEvent) {
    match e
    case Fires => p.armed > 0
    case Shows(visible) => !p.stopped
    case Finishes => p.running
    case Stops => true
  }

  function PollNext(p: Poller, e: PollEvent, background: bool): Poller
    requires PollEnabled(p, e)
  {
    match e
    case Fires => Start(p.(armed := p.armed - 1, timer := false), background)
    case Shows(visible) => var q := p.(visible := visible); if visible then Start(q, background)
      else Schedule(q, background)
    case Finishes =>
      var q := p.(running := false, ends := p.ends + 1);
      if q.rerun then Start(q.(rerun := false), background) else Schedule(q, background)
    case Stops => ClearTimer(p.(stopped := true))
  }

  // The page is polled: not stopped, and visible or polled in the background.
  predicate Polled(p: Poller, background: bool) { !p.stopped && (p.visible || background) }

  // One timer at most, remembered while it runs and only on a page that is polled; and that one runs or will run.
  ghost predicate PollValid(p: Poller, background: bool) {
    && p.armed == (if p.timer then 1 else 0)
    && p.starts == p.ends + (if p.running then 1 else 0)
    && (p.rerun ==> p.running)
    && (p.timer ==> Polled(p, background))
    && (Polled(p, background) ==> p.running || p.timer)
  }

  ghost predicate PollRun(p: Poller, events: seq<PollEvent>, background: bool, p': Poller)
    decreases |events|
  {
    if events == [] then p' == p
    else PollEnabled(p, events[0]) && PollRun(PollNext(p, events[0], background), events[1..], background, p')
  }

  lemma PollKeeps(p: Poller, e: PollEvent, background: bool)
    requires PollValid(p, background) && PollEnabled(p, e)
    ensures PollValid(PollNext(p, e, background), background)
  {
  }

  lemma {:induction false} PollRunKeeps(p: Poller, events: seq<PollEvent>, background: bool, p': Poller)
    requires PollValid(p, background) && PollRun(p, events, background, p')
    ensures PollValid(p', background)
    decreases |events|
  {
    if events != [] {
      PollKeeps(p, events[0], background);
      PollRunKeeps(PollNext(p, events[0], background), events[1..], background, p');
    }
  }

  /**
   In every run, tasks never overlap, two timers are never armed, none outlives a stop or runs for a page that is not
   polled, and a page that is polled has a task or a timer: without a task, it is armed exactly when it is polled.
   */
  lemma PollsSafely(immediate: bool, visible: bool, background: bool, events: seq<PollEvent>, p: Poller)
    requires PollRun(Begin(immediate, visible, background), events, background, p)
    ensures p.ends <= p.starts <= p.ends + 1 && p.armed <= 1
    ensures p.armed == 1 ==> Polled(p, background)
    ensures !p.running ==> (p.armed == 1 <==> Polled(p, background))
  {
    PollRunKeeps(Begin(immediate, visible, background), events, background, p);
  }

  /**
   A task starts exactly when the timer fires or the page becomes visible while none runs, or when one ends that was
   asked for again on a page that is polled.
   */
  lemma TaskStartsExactly(p: Poller, e: PollEvent, background: bool)
    requires PollValid(p, background) && PollEnabled(p, e)
    ensures var q := PollNext(p, e, background);
            && (q.starts == p.starts || q.starts == p.starts + 1)
            && (q.starts == p.starts + 1 <==>
                match e
                case Fires => !p.running
                case Shows(visible) => !p.running && visible
                case Finishes => p.rerun && Polled(p, background)
                case Stops => false)
            && (q.ends == p.ends + 1 <==> e.Finishes?)
  {
  }

  /** While a task runs, another is asked for exactly when the timer fires or the page shows up, and it is visible. */
  lemma AskedAgainExactly(p: Poller, e: PollEvent, background: bool)
    requires PollValid(p, background) && PollEnabled(p, e) && p.running && !e.Finishes?
    ensures PollNext(p, e, background).rerun
       <==> p.rerun || (e.Fires? && p.visible) || (e.Shows? && e.visible)
  {
  }

  /** A visible page that asks again while a task runs gets another task as soon as that one ends. */
  lemma AskedAgain(p: Poller, background: bool)
    requires PollValid(p, background) && p.running && p.visible && !p.stopped
    ensures var q := PollNext(PollNext(p, Shows(true), background), Finishes, background);
            q.running && q.starts == p.starts + 1
  {
  }

  // The closure's variables. The constructor is the first part of pollWhileVisible.
  class VisibilityPoller {
    const background: bool
    var stopped: bool
    var running: bool
    var rerunRequested: bool
    var timer: bool
    var visible: bool
    ghost var armed: nat
    ghost var starts: nat
    ghost var ends: nat

    ghost function View(): Poller
      reads this
    {
      Poller(stopped, running, rerunRequested, timer, armed, visible, starts, ends)
    }

    // Tasks never overlap, one timer at most is armed, and a page that is polled has a task or a timer.
    ghost predicate Safe()
      reads this
    {
      && ends <= starts <= ends + 1 && armed <= 1
      && (armed == 1 ==> Polled(View(), background))
      && (!running ==> (armed == 1 <==> Polled(View(), background)))
    }

    constructor (immediate: bool, visible: bool, background: bool)
      ensures this.background == background && View() == Begin(immediate, visible, background)
      ensures PollValid(View(), background)
    {
      this.background, this.visible := background, visible;
      stopped, running, rerunRequested, timer, armed, starts, ends := false, false, false, false, 0, 0, 0;
      new;
      if immediate { RunTask(); } else { Arm(); }
    }

    method Disarm()
      modifies this`timer, this`armed
      ensures View() == ClearTimer(old(View()))
    {
      if !timer { return; }
      timer := false;
      armed := if armed > 0 then armed - 1 else 0;
    }

    method Arm()
      modifies this`timer, this`armed
      ensures View() == Schedule(old(View()), background)
    {
      Disarm();
      if stopped || (!visible && !background) { return; }
      timer, armed := true, armed + 1;
    }

    // `run` up to its await.
    method RunTask()
      modifies this
      ensures View() == Start(old(View()), background)
    {
      Disarm();
      if stopped || (!visible && !background) { return; }
      if running {
        rerunRequested := rerunRequested || visible;
        return;
      }
      running, starts := true, starts + 1;
    }

    method OnTimer()
      requires armed > 0
      requires PollValid(View(), background)
      modifies this
      ensures View() == PollNext(old(View()), Fires, background)
      ensures PollValid(View(), background) && Safe()
    {
      PollKeeps(View(), Fires, background);
      armed, timer := armed - 1, false;
      RunTask();
    }

    method OnVisibility(nowVisible: bool)
      requires !stopped
      requires PollValid(View(), background)
      modifies this
      ensures View() == PollNext(old(View()), Shows(nowVisible), background)
      ensures PollValid(View(), background) && Safe()
    {
      PollKeeps(View(), Shows(nowVisible), background);
      visible := nowVisible;
      if visible { RunTask(); } else { Arm(); }
    }

    // The `finally` of `run`.
    method OnFinish()
      requires running
      requires PollValid(View(), background)
      modifies this
      ensures View() == PollNext(old(View()), Finishes, background)
      ensures PollValid(View(), background) && Safe()
    {
      PollKeeps(View(), Finishes, background);
      running, ends := false, ends + 1;
      if rerunRequested {
        rerunRequested := false;
        RunTask();
      } else {
        Arm();
      }
    }

    method Stop()
      requires PollValid(View(), background)
      modifies this
      ensures View() == PollNext(old(View()), Stops, background)
      ensures PollValid(View(), background) && Safe()
    {
      PollKeeps(View(), Stops, background);
      stopped := true;
      Disarm();
    }
  }

  /********** The derive **********/

  // Requests and runs of the derive, in order.
  datatype Entry = Asked(force: bool) | Began(force: bool) | Ended

  datatype Derive = Derive(deriving: bool, queued: bool, forceQueued: bool, log: seq<Entry>)

  function Run(d: Derive, force: bool): Derive {
    if d.deriving then d.(queued := true, forceQueued := d.forceQueued || force)
    else d.(deriving := true, log := d.log + [Began(force)])
  }

  function Ask(d: Derive, force: bool): Derive { Run(d.(log := d.log + [Asked(force)]), force) }

  // The `finally` of the derive.
  function End(d: Derive): Derive
    requires d.deriving
  {
    var e := d.(deriving := false, log := d.log + [Ended]);
    if e.queued then Run(e.(queued := false, forceQueued := false), e.forceQueued) else e
  }

  datatype DeriveEvent = Asks(force: bool) | Ends

  function DeriveNext(d: Derive, e: DeriveEvent): Derive {
    match e
    case Asks(force) => Ask(d, force)
    case Ends => if d.deriving then End(d) else d
  }

  function DeriveAfter(events: seq<DeriveEvent>): Derive {
    if events == [] then Derive(false, false, false, [])
      else DeriveNext(DeriveAfter(events[..|events| - 1]), events[|events| - 1])
  }

  // Whether a run is open after these entries, and whether every run began and ended in turn.
  function Open(log: seq<Entry>): bool {
    if log == [] then false
    else
      match log[|log| - 1]
      case Asked(_) => Open(log[..|log| - 1])
      case Began(_) => true
      case Ended => false
  }

  predicate Alternates(log: seq<Entry>) {
    log == [] ||
    (Alternates(log[..|log| - 1]) &&
     match log[|log| - 1]
     case Asked(_) => true
     case Began(_) => !Open(log[..|log| - 1])
     case Ended => Open(log[..|log| - 1]))
  }

  // The request at k was followed by a run that began after it and has its force, or still waits for one.
  ghost predicate Answered(d: Derive, k: nat)
    requires k < |d.log| && d.log[k].Asked?
  {
    Follows(d.log, k) || (d.queued && (d.log[k].force ==> d.forceQueued))
  }

  ghost predicate Follows(log: seq<Entry>, k: nat)
    requires k < |log| && log[k].Asked?
  {
    exists j :: k < j < |log| && log[j].Began? && (log[k].force ==> log[j].force)
  }

  // Whether anything was requested since the last run began, and whether with force.
  predicate Wanted(log: seq<Entry>) {
    log != [] && !log[|log| - 1].Began? && (log[|log| - 1].Asked? || Wanted(log[..|log| - 1]))
  }

  predicate Forced(log: seq<Entry>) {
    log != [] && !log[|log| - 1].Began? && (log[|log| - 1] == Asked(true) || Forced(log[..|log| - 1]))
  }

  // Every run began for a request that none had begun for, and with force exactly if one of those had it.
  predicate Justified(log: seq<Entry>) {
    log == [] ||
    var rest, last := log[..|log| - 1], log[|log| - 1];
    Justified(rest) && (last.Began? ==> Wanted(rest) && (last.force <==> Forced(rest)))
  }

  ghost predicate DeriveValid(d: Derive) {
    && (d.queued <==> Wanted(d.log)) && (d.forceQueued <==> Forced(d.log)) && Justified(d.log)
    && (d.queued ==> d.deriving) && (d.forceQueued ==> d.queued)
    && Alternates(d.log) && Open(d.log) == d.deriving
    && forall k: nat :: k < |d.log| && d.log[k].Asked? ==> Answered(d, k)
  }

  lemma LogMore(log: seq<Entry>, e: Entry)
    ensures (log + [e])[..|log|] == log && (log + [e])[|log|] == e
    ensures Wanted(log + [e]) <==> !e.Began? && (e.Asked? || Wanted(log))
    ensures Forced(log + [e]) <==> !e.Began? && (e == Asked(true) || Forced(log))
    ensures Justified(log + [e]) <==> Justified(log) && (e.Began? ==> Wanted(log) && (e.force <==> Forced(log)))
  {
    assert (log + [e])[..|log|] == log;
  }

  lemma FollowsMore(log: seq<Entry>, e: Entry, k: nat)
    requires k < |log| && log[k].Asked?
    ensures Follows(log, k) ==> Follows(log + [e], k)
    ensures e.Began? && (log[k].force ==> e.force) ==> Follows(log + [e], k)
  {
    var more := log + [e];
    if Follows(log, k) {
      var j :| k < j < |log| && log[j].Began? && (log[k].force ==> log[j].force);
      assert more[j] == log[j] && more[k] == log[k];
    }
    if e.Began? && (log[k].force ==> e.force) { assert more[|log|] == e && more[k] == log[k]; }
  }

  lemma AskKeeps(d: Derive, force: bool)
    requires DeriveValid(d)
    ensures DeriveValid(Ask(d, force))
  {
    var asked := d.log + [Asked(force)];
    LogMore(d.log, Asked(force));
    LogMore(asked, Began(force));
    var q := Ask(d, force);
    forall k: nat | k < |q.log| && q.log[k].Asked? ensures Answered(q, k) {
      if k < |d.log| {
        assert Answered(d, k);
        FollowsMore(d.log, Asked(force), k);
      }
      if !d.deriving { FollowsMore(asked, Began(force), k); }
    }
  }

  lemma EndKeeps(d: Derive)
    requires DeriveValid(d) && d.deriving
    ensures DeriveValid(End(d))
  {
    var ended := d.log + [Ended];
    LogMore(d.log, Ended);
    LogMore(ended, Began(d.forceQueued));
    var q := End(d);
    forall k: nat | k < |q.log| && q.log[k].Asked? ensures Answered(q, k) {
      assert Answered(d, k);
      FollowsMore(d.log, Ended, k);
      if d.queued { FollowsMore(ended, Began(d.forceQueued), k); }
    }
  }

  lemma {:induction false} DeriveIsValid(events: seq<DeriveEvent>)
    ensures DeriveValid(DeriveAfter(events))
  {
    if events != [] {
      var before, e := events[..|events| - 1], events[|events| - 1];
      DeriveIsValid(before);
      if e.Asks? { AskKeeps(DeriveAfter(before), e.force); }
      else if DeriveAfter(before).deriving { EndKeeps(DeriveAfter(before)); }
    }
  }

  /**
   In every run, derives never overlap, and every request is followed by a later derive that carries its force
   flag, or one is running that another will follow with it.
   */
  lemma DeriveCoalesces(events: seq<DeriveEvent>, k: nat)
    requires k < |DeriveAfter(events).log| && DeriveAfter(events).log[k].Asked?
    ensures var d := DeriveAfter(events);
            Alternates(d.log) && Answered(d, k) && (!d.deriving ==> Follows(d.log, k))
  {
    DeriveIsValid(events);
  }

  /**
   In every run, derives begin only for requests, each carries force exactly if a request since the derive before it
   did, and what is queued is exactly what was requested since.
   */
  lemma DerivesAreRequested(events: seq<DeriveEvent>)
    ensures var d := DeriveAfter(events);
            Justified(d.log) && (d.queued <==> Wanted(d.log)) && (d.forceQueued <==> Forced(d.log))
  {
    DeriveIsValid(events);
  }

  // Without a run, no request waits.
  lemma NothingWaits(d: Derive)
    requires DeriveValid(d) && !d.deriving
    ensures forall k: nat :: k < |d.log| && d.log[k].Asked? ==> Follows(d.log, k)
  {
    forall k: nat | k < |d.log| && d.log[k].Asked? ensures Follows(d.log, k) { assert Answered(d, k); }
  }

  // The socket's derive flags.
  class DeriveQueue {
    var deriving: bool
    var deriveQueued: bool
    var forceQueued: bool
    ghost var log: seq<Entry>

    // Runs alternate, and every request was followed by a run with its force or waits for one.
    ghost predicate Coalesced()
      reads this
    {
      && DeriveValid(View()) && Alternates(log) && Justified(log)
      && (!deriving ==> forall k: nat :: k < |log| && log[k].Asked? ==> Follows(log, k))
    }

    ghost function View(): Derive
      reads this
    {
      Derive(deriving, deriveQueued, forceQueued, log)
    }

    constructor ()
      ensures Coalesced() && View() == Derive(false, false, false, [])
    {
      deriving, deriveQueued, forceQueued, log := false, false, false, [];
    }

    method RunDerive(force: bool)
      modifies this
      ensures View() == Run(old(View()), force)
    {
      if deriving {
        deriveQueued, forceQueued := true, forceQueued || force;
        return;
      }
      deriving, log := true, log + [Began(force)];
    }

    method OnRequest(force: bool)
      requires Coalesced()
      modifies this
      ensures Coalesced() && View() == Ask(old(View()), force)
    {
      AskKeeps(View(), force);
      log := log + [Asked(force)];
      RunDerive(force);
    }

    method OnDerived()
      requires Coalesced() && deriving
      modifies this
      ensures Coalesced() && View() == End(old(View()))
    {
      EndKeeps(View());
      if !End(View()).deriving { NothingWaits(End(View())); }
      deriving, log := false, log + [Ended];
      if deriveQueued {
        deriveQueued := false;
        var queued := forceQueued;
        forceQueued := false;
        RunDerive(queued);
      }
    }
  }
}
