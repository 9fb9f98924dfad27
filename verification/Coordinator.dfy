/**
 The agent notification coordinator (apps/server/src/notifications.ts): a finished turn is announced after a
 grace period unless something else happens first.
 */
module Coordinator {
  import opened Wrappers

  type Agent = nat
  type Turn = nat  // a completed turn, named by the step that completed it

  datatype Attention = Working | Question | Finished

  // Questions in the latest message are promoted on presentation surfaces.
  function Presented(attention: Attention, messageQuestion: bool): Attention {
    if attention == Finished && messageQuestion then Question else attention
  }

  datatype Message = Asked(agent: Agent) | Completed(agent: Agent, turn: Turn)

  datatype Observation = Observation(attention: Attention, queued: bool, review: bool)

  datatype Event =
    | Observe(agent: Agent, seen: Observation)
    | Fire(agent: Agent)                        // the grace period ends
    | View(agent: Agent, turn: Option<Turn>)
    | Retain(agents: set<Agent>)
    | Stop

  datatype State = State(
    states: map<Agent, Attention>,
    pending: map<Agent, Turn>,
    unread: map<Agent, Turn>,
    clock: nat,
    delivered: seq<Message>)

  const INITIAL := State(map[], map[], map[], 0, [])

  /********** Steps **********/

  function Clear(s: State, agent: Agent): State {
    s.(pending := s.pending - {agent}, unread := s.unread - {agent})
  }

  function ObserveStep(s: State, agent: Agent, seen: Observation): State {
    var previous := if agent in s.states then Some(s.states[agent]) else None;
    var s1 := s.(states := s.states[agent := seen.attention]);
    if seen.attention == Finished && seen.queued then Clear(s1, agent)
    else
      var s2 := if seen.attention != Finished then Clear(s1, agent) else s1;
      if previous == None || previous == Some(seen.attention) then s2
      else if seen.attention == Question then s2.(delivered := s2.delivered + [Asked(agent)])
      else if previous == Some(Working) && seen.attention == Finished && !seen.review
      then s2.(pending := s2.pending[agent := s.clock])
      else s2
  }

  function FireStep(s: State, agent: Agent): State
    requires agent in s.pending
  {
    var turn := s.pending[agent];
    var s1 := s.(pending := s.pending - {agent});
    if agent !in s.states || s.states[agent] != Finished then s1
    else s1.(unread := s1.unread[agent := turn], delivered := s1.delivered + [Completed(agent, turn)])
  }

  function CompletionId(s: State, agent: Agent): Option<Turn> {
    if agent in s.unread then Some(s.unread[agent]) else if agent in s.pending then Some(s.pending[agent]) else None
  }

  function ViewStep(s: State, agent: Agent, turn: Option<Turn>): State {
    if turn.None? || CompletionId(s, agent) != turn then s else Clear(s, agent)
  }

  // Only agents that have a state are visited.
  function RetainStep(s: State, agents: set<Agent>): State {
    var gone := set a | a in s.states && a !in agents;
    s.(states := s.states - gone, pending := s.pending - gone, unread := s.unread - gone)
  }

  function StopStep(s: State): State { s.(pending := map[], unread := map[]) }

  // A timer that was cancelled or has fired does not fire.
  function Next(s: State, e: Event): State {
    var s1 := match e
      case Observe(agent, seen) => ObserveStep(s, agent, seen)
      case Fire(agent) => if agent in s.pending then FireStep(s, agent) else s
      case View(agent, turn) => ViewStep(s, agent, turn)
      case Retain(agents) => RetainStep(s, agents)
      case Stop => StopStep(s);
    s1.(clock := s.clock + 1)
  }

  function After(trace: seq<Event>): State {
    if trace == [] then INITIAL else Next(After(trace[..|trace| - 1]), trace[|trace| - 1])
  }

  // What one step announces.
  function News(s: State, e: Event): seq<Message> {
    match e
    case Observe(agent, seen) =>
      if seen.attention == Question && agent in s.states && s.states[agent] != Question then [Asked(agent)] else []
    case Fire(agent) =>
      if agent in s.pending && agent in s.states && s.states[agent] == Finished
        then [Completed(agent, s.pending[agent])] else []
    case _ => []
  }

  lemma NewsIsDelivered(s: State, e: Event)
    ensures Next(s, e).delivered == s.delivered + News(s, e)
  {
  }

  /********** The invariant **********/

  // A turn that waits or is unread belongs to a finished agent, and to one of the two only.
  ghost predicate Valid(s: State) {
    && s.pending.Keys !! s.unread.Keys
    && (forall a :: a in s.pending ==> a in s.states && s.states[a] == Finished && s.pending[a] < s.clock)
    && (forall a :: a in s.unread ==> a in s.states && s.states[a] == Finished && s.unread[a] < s.clock)
  }

  lemma ObserveKeepsValid(s: State, agent: Agent, seen: Observation)
    requires Valid(s)
    ensures Valid(ObserveStep(s, agent, seen).(clock := s.clock + 1))
  {
  }

  lemma NextKeepsValid(s: State, e: Event)
    requires Valid(s)
    ensures Valid(Next(s, e))
  {
    if e.Observe? { ObserveKeepsValid(s, e.agent, e.seen); }
  }

  lemma {:induction false} AfterIsValid(trace: seq<Event>)
    ensures Valid(After(trace)) && After(trace).clock == |trace|
  {
    if trace != [] {
      AfterIsValid(trace[..|trace| - 1]);
      NextKeepsValid(After(trace[..|trace| - 1]), trace[|trace| - 1]);
    }
  }

  /** In every run, no agent is both waiting and unread, and either means that it is finished. */
  lemma WaitingOrUnread(trace: seq<Event>)
    ensures var s := After(trace);
            && s.pending.Keys !! s.unread.Keys
            && forall a :: a in s.pending || a in s.unread ==> a in s.states && s.states[a] == Finished
  {
    AfterIsValid(trace);
  }

  /** The timer's own check of the agent's state is never what stops a delivery. */
  lemma FiringDelivers(s: State, agent: Agent)
    requires Valid(s) && agent in s.pending
    ensures FireStep(s, agent).delivered == s.delivered + [Completed(agent, s.pending[agent])]
  {
  }

  /** Retiring agents leaves nothing of them behind, and nothing of the others changes. */
  lemma RetainLeavesNothing(s: State, agents: set<Agent>)
    requires Valid(s)
    ensures var s' := RetainStep(s, agents);
            && s'.states.Keys <= agents && s'.pending.Keys <= agents && s'.unread.Keys <= agents
            && (forall a :: a in agents ==>
                  && (a in s'.states <==> a in s.states) && (a in s.states ==> s'.states[a] == s.states[a])
                  && (a in s'.pending <==> a in s.pending) && (a in s.pending ==> s'.pending[a] == s.pending[a])
                  && (a in s'.unread <==> a in s.unread) && (a in s.unread ==> s'.unread[a] == s.unread[a]))
  {
  }

  /********** The trace specification **********/

  // The last attention an agent was observed with, unless it was retired since.
  function Last(trace: seq<Event>, agent: Agent): Option<Attention> {
    if trace == [] then None
    else
      var rest, e := trace[..|trace| - 1], trace[|trace| - 1];
      if e.Observe? && e.agent == agent then Some(e.seen.attention)
      else if e.Retain? && agent !in e.agents then None
      else Last(rest, agent)
  }

  // Step i completes a turn: a working agent is seen finished with nothing queued, and is no review.
  predicate Completes(trace: seq<Event>, i: nat, agent: Agent) {
    && i < |trace| && trace[i].Observe? && trace[i].agent == agent
    && trace[i].seen.attention == Finished && !trace[i].seen.queued && !trace[i].seen.review
    && Last(trace[..i], agent) == Some(Working)
  }

  // An event that ends turn i of an agent before or after it was announced.
  predicate Ends(e: Event, i: Turn, agent: Agent) {
    match e
    case Observe(a, seen) => a == agent && (seen.attention != Finished || seen.queued)
    case Fire(a) => false
    case View(a, turn) => a == agent && turn == Some(i)
    case Retain(agents) => agent !in agents
    case Stop => true
  }

  ghost predicate Undisturbed(trace: seq<Event>, i: nat, agent: Agent) {
    forall j :: i < j < |trace| ==> !Ends(trace[j], i, agent)
  }

  ghost predicate Unfired(trace: seq<Event>, i: nat, agent: Agent) {
    forall j :: i < j < |trace| ==> trace[j] != Fire(agent)
  }

  // Turn i is in its grace period.
  ghost predicate InGrace(trace: seq<Event>, i: nat, agent: Agent) {
    Completes(trace, i, agent) && Undisturbed(trace, i, agent) && Unfired(trace, i, agent)
  }

  // The agent's timer fires at step j.
  predicate Fires(trace: seq<Event>, j: nat, agent: Agent)
    requires j < |trace|
  {
    trace[j] == Fire(agent)
  }

  // The grace period of turn i ended with its announcement.
  ghost predicate Delivered(trace: seq<Event>, i: nat, agent: Agent) {
    exists j: nat :: j < |trace| && Fires(trace, j, agent) && InGrace(trace[..j], i, agent)
  }

  // Turn i was announced and nothing has ended it since.
  ghost predicate Announced(trace: seq<Event>, i: nat, agent: Agent) {
    Completes(trace, i, agent) && Undisturbed(trace, i, agent) && Delivered(trace, i, agent)
  }

  /********** One more event **********/

  // The next event completes a turn of a working agent.
  predicate FinishesTurn(trace: seq<Event>, e: Event, agent: Agent) {
    && e.Observe? && e.agent == agent && e.seen == Observation(Finished, false, false)
    && Last(trace, agent) == Some(Working)
  }

  lemma CompletesMore(trace: seq<Event>, e: Event, i: nat, agent: Agent)
    ensures i < |trace| ==> (Completes(trace + [e], i, agent) <==> Completes(trace, i, agent))
    ensures i == |trace| ==> (Completes(trace + [e], i, agent) <==> FinishesTurn(trace, e, agent))
  {
    if i < |trace| { assert (trace + [e])[..i] == trace[..i]; }
    if i == |trace| { assert (trace + [e])[..i] == trace; }
  }

  lemma GraceMore(trace: seq<Event>, e: Event, i: nat, agent: Agent)
    requires i < |trace|
    ensures InGrace(trace + [e], i, agent) <==> InGrace(trace, i, agent) && !Ends(e, i, agent) && e != Fire(agent)
  {
    var more := trace + [e];
    CompletesMore(trace, e, i, agent);
    assert more[|trace|] == e;
    assert forall j :: i < j < |trace| ==> more[j] == trace[j];
    if InGrace(trace, i, agent) && !Ends(e, i, agent) && e != Fire(agent) {
      forall j | i < j < |more| ensures !Ends(more[j], i, agent) && more[j] != Fire(agent) {
        if j < |trace| { assert !Ends(trace[j], i, agent); }
      }
    }
    if InGrace(more, i, agent) {
      forall j | i < j < |trace| ensures !Ends(trace[j], i, agent) && trace[j] != Fire(agent) {
        assert !Ends(more[j], i, agent) && more[j] != Fire(agent);
      }
    }
  }

  lemma DeliveredMore(trace: seq<Event>, e: Event, i: nat, agent: Agent)
    ensures Delivered(trace + [e], i, agent)
            <==> Delivered(trace, i, agent) || (e == Fire(agent) && InGrace(trace, i, agent))
  {
    var more := trace + [e];
    assert more[..|trace|] == trace && more[|trace|] == e;
    if Delivered(trace, i, agent) {
      var j: nat :| j < |trace| && Fires(trace, j, agent) && InGrace(trace[..j], i, agent);
      assert more[..j] == trace[..j] && Fires(more, j, agent);
    }
    if e == Fire(agent) && InGrace(trace, i, agent) { assert Fires(more, |trace|, agent); }
    if Delivered(more, i, agent) {
      var j: nat :| j < |more| && Fires(more, j, agent) && InGrace(more[..j], i, agent);
      if j < |trace| { assert more[..j] == trace[..j] && Fires(trace, j, agent); }
    }
  }

  lemma AnnouncedMore(trace: seq<Event>, e: Event, i: nat, agent: Agent)
    requires i < |trace|
    ensures Announced(trace + [e], i, agent)
       <==> (Announced(trace, i, agent) || (e == Fire(agent) && InGrace(trace, i, agent))) && !Ends(e, i, agent)
  {
    var more := trace + [e];
    CompletesMore(trace, e, i, agent);
    DeliveredMore(trace, e, i, agent);
    assert more[|trace|] == e;
    assert Undisturbed(more, i, agent) <==> Undisturbed(trace, i, agent) && !Ends(e, i, agent) by {
      if Undisturbed(trace, i, agent) && !Ends(e, i, agent) {
        forall j | i < j < |more|
          ensures !Ends(more[j], i, agent)
        {
          if j < |trace| { assert !Ends(trace[j], i, agent); }
        }
      }
      if Undisturbed(more, i, agent) {
        forall j | i < j < |trace| ensures !Ends(trace[j], i, agent) { assert !Ends(more[j], i, agent); }
      }
    }
  }

  // A turn that was just completed was not announced.
  lemma NewNotAnnounced(trace: seq<Event>, e: Event, agent: Agent)
    ensures !Announced(trace + [e], |trace|, agent)
  {
    var more := trace + [e];
    forall j: nat | j < |more| && Fires(more, j, agent) ensures !InGrace(more[..j], |trace|, agent) {}
  }

  lemma NewInGrace(trace: seq<Event>, e: Event, agent: Agent)
    ensures InGrace(trace + [e], |trace|, agent) <==> Completes(trace + [e], |trace|, agent)
  {
  }

  lemma LastMore(trace: seq<Event>, e: Event, agent: Agent)
    ensures Last(trace + [e], agent)
         == if e.Observe? && e.agent == agent then Some(e.seen.attention)
            else if e.Retain? && agent !in e.agents then None
            else Last(trace, agent)
  {
    assert (trace + [e])[..|trace|] == trace;
  }

  /********** Refinement **********/

  function At<T>(m: map<Agent, T>, agent: Agent): Option<T> { if agent in m then Some(m[agent]) else None }

  // What the state says of one agent is what the trace says.
  ghost predicate RefinesAt(trace: seq<Event>, s: State, agent: Agent) {
    && Last(trace, agent) == At(s.states, agent)
    && (forall i: nat :: InGrace(trace, i, agent) <==> At(s.pending, agent) == Some(i))
    && (forall i: nat :: Announced(trace, i, agent) <==> At(s.unread, agent) == Some(i))
  }

  lemma Bounded(trace: seq<Event>, i: nat, agent: Agent)
    requires Completes(trace, i, agent)
    ensures i < |trace|
  {
  }

  // Turn i of this agent after one more event.
  lemma TurnNew(trace: seq<Event>, s: State, e: Event, agent: Agent)
    requires Valid(s) && s.clock == |trace| && RefinesAt(trace, s, agent)
    ensures InGrace(trace + [e], |trace|, agent) <==> At(Next(s, e).pending, agent) == Some(|trace|)
    ensures Announced(trace + [e], |trace|, agent) <==> At(Next(s, e).unread, agent) == Some(|trace|)
  {
    CompletesMore(trace, e, |trace|, agent);
    NewInGrace(trace, e, agent);
    NewNotAnnounced(trace, e, agent);
    assert !InGrace(trace, |trace|, agent) && !Announced(trace, |trace|, agent);
  }

  // No turn is numbered beyond the trace.
  lemma TurnBeyond(trace: seq<Event>, s: State, e: Event, agent: Agent, i: nat)
    requires Valid(s) && s.clock == |trace| && RefinesAt(trace, s, agent) && i > |trace|
    ensures !InGrace(trace + [e], i, agent) && At(Next(s, e).pending, agent) != Some(i)
    ensures !Announced(trace + [e], i, agent) && At(Next(s, e).unread, agent) != Some(i)
  {
    assert !InGrace(trace, i, agent) && !Announced(trace, i, agent);
  }

  lemma TurnMore(trace: seq<Event>, s: State, e: Event, agent: Agent, i: nat)
    requires Valid(s) && s.clock == |trace| && RefinesAt(trace, s, agent)
    ensures InGrace(trace + [e], i, agent) <==> At(Next(s, e).pending, agent) == Some(i)
    ensures Announced(trace + [e], i, agent) <==> At(Next(s, e).unread, agent) == Some(i)
  {
    hide InGrace, Announced;
    if i < |trace| {
      GraceMore(trace, e, i, agent);
      AnnouncedMore(trace, e, i, agent);
    } else if i == |trace| {
      TurnNew(trace, s, e, agent);
    } else {
      TurnBeyond(trace, s, e, agent, i);
    }
  }

  lemma NextRefines(trace: seq<Event>, s: State, e: Event, agent: Agent)
    requires Valid(s) && s.clock == |trace| && RefinesAt(trace, s, agent)
    ensures RefinesAt(trace + [e], Next(s, e), agent)
  {
    LastMore(trace, e, agent);
    forall i: nat ensures (InGrace(trace + [e], i, agent) <==> At(Next(s, e).pending, agent) == Some(i))
                       && (Announced(trace + [e], i, agent) <==> At(Next(s, e).unread, agent) == Some(i)) {
      TurnMore(trace, s, e, agent, i);
    }
  }

  /** In every run, the coordinator's tables say of every agent exactly what the trace says. */
  lemma {:induction false} StateRefinesTrace(trace: seq<Event>, agent: Agent)
    ensures RefinesAt(trace, After(trace), agent)
  {
    if trace != [] {
      var before, e := trace[..|trace| - 1], trace[|trace| - 1];
      assert trace == before + [e];
      AfterIsValid(before);
      StateRefinesTrace(before, agent);
      NextRefines(before, After(before), e, agent);
    }
  }

  /**
   A finished turn is announced exactly when its grace period ends before anything else: before any other
   observation than finished with nothing queued, before that turn is viewed, before the agent is retired and
   before the coordinator stops. Nothing is announced twice.
   */
  lemma {:induction false} FinishedExactly(trace: seq<Event>, agent: Agent, turn: Turn)
    ensures Completed(agent, turn) in After(trace).delivered <==> Delivered(trace, turn, agent)
  {
    if trace != [] {
      var before, e := trace[..|trace| - 1], trace[|trace| - 1];
      assert trace == before + [e];
      AfterIsValid(before);
      NewsIsDelivered(After(before), e);
      FinishedExactly(before, agent, turn);
      DeliveredMore(before, e, turn, agent);
      StateRefinesTrace(before, agent);
    }
  }

  // A question is announced when an agent that was in another state is seen with one.
  predicate AsksAt(trace: seq<Event>, j: nat, agent: Agent) {
    && j < |trace| && trace[j].Observe? && trace[j].agent == agent && trace[j].seen.attention == Question
    && Last(trace[..j], agent).Some? && Last(trace[..j], agent) != Some(Question)
  }

  lemma AsksMore(trace: seq<Event>, e: Event, agent: Agent)
    ensures (exists j :: AsksAt(trace + [e], j, agent))
       <==> (exists j :: AsksAt(trace, j, agent))
            || (e.Observe? && e.agent == agent && e.seen.attention == Question && Last(trace, agent).Some?
                && Last(trace, agent) != Some(Question))
  {
    var more := trace + [e];
    assert more[..|trace|] == trace && more[|trace|] == e;
    forall j | 0 <= j < |trace|
      ensures AsksAt(more, j, agent) == AsksAt(trace, j, agent)
    {
      assert more[..j] == trace[..j];
    }
    if j: nat :| AsksAt(trace, j, agent) { assert AsksAt(more, j, agent); }
    if e.Observe? && e.agent == agent && e.seen.attention == Question && Last(trace, agent).Some?
      && Last(trace, agent) != Some(Question) {
      assert AsksAt(more, |trace|, agent);
    }
  }

  /**
   What an observation of an agent announces at once: a question, if and only if the agent was known in another state
   and asks now, or is finished with a question in its latest message.
   */
  lemma ObservationAsks(trace: seq<Event>, agent: Agent, attention: Attention, messageQuestion: bool, queued: bool,
                        review: bool)
    ensures var e := Observe(agent, Observation(Presented(attention, messageQuestion), queued, review));
            var known := Last(trace, agent);
            After(trace + [e]).delivered
            == After(trace).delivered
               + if (attention == Question || (attention == Finished && messageQuestion)) && known.Some?
                    && known != Some(Question) then [Asked(agent)] else []
  {
    var e := Observe(agent, Observation(Presented(attention, messageQuestion), queued, review));
    assert (trace + [e])[..|trace|] == trace;
    NewsIsDelivered(After(trace), e);
    StateRefinesTrace(trace, agent);
  }

  /** A question is announced exactly when an agent known in another state is seen with one. */
  lemma {:induction false} QuestionsExactly(trace: seq<Event>, agent: Agent)
    ensures Asked(agent) in After(trace).delivered <==> exists j :: AsksAt(trace, j, agent)
  {
    if trace != [] {
      var before, e := trace[..|trace| - 1], trace[|trace| - 1];
      assert trace == before + [e];
      NewsIsDelivered(After(before), e);
      QuestionsExactly(before, agent);
      StateRefinesTrace(before, agent);
      AsksMore(before, e, agent);
    }
  }

  ghost predicate Once(delivered: seq<Message>, m: Message) {
    forall i, j :: 0 <= i < j < |delivered| && delivered[i] == m ==> delivered[j] != m
  }

  lemma OnceMore(delivered: seq<Message>, more: seq<Message>, m: Message)
    requires Once(delivered, m) && |more| <= 1 && (m in more ==> m !in delivered)
    ensures Once(delivered + more, m)
  {
  }

  /** No turn is announced twice. */
  lemma {:induction false} AnnouncedOnce(trace: seq<Event>, agent: Agent, turn: Turn)
    ensures Once(After(trace).delivered, Completed(agent, turn))
  {
    if trace != [] {
      var before, e := trace[..|trace| - 1], trace[|trace| - 1];
      var s := After(before);
      AnnouncedOnce(before, agent, turn);
      if Completed(agent, turn) in News(s, e) {
        StateRefinesTrace(before, agent);
        NotYetDelivered(before, turn, agent);
        FinishedExactly(before, agent, turn);
      }
      NewsIsDelivered(s, e);
      OnceMore(s.delivered, News(s, e), Completed(agent, turn));
    }
  }

  lemma NotYetDelivered(trace: seq<Event>, i: nat, agent: Agent)
    requires InGrace(trace, i, agent)
    ensures !Delivered(trace, i, agent)
  {
    forall j: nat | j < |trace| && Fires(trace, j, agent) ensures !InGrace(trace[..j], i, agent) { }
  }

  /********** The coordinator **********/

  lemma MinusOne<K, V>(m: map<K, V>, gone: set<K>, k: K)
    ensures m - gone - {k} == m - (gone + {k})
  {
  }

  lemma Extends(trace: seq<Event>, e: Event)
    ensures After(trace + [e]) == Next(After(trace), e)
  {
    assert (trace + [e])[..|trace|] == trace;
  }

  // What was delivered is what the trace says: turns whose grace period ran out, and questions that were raised.
  ghost predicate Tells(delivered: seq<Message>, trace: seq<Event>) {
    && (forall agent, turn :: Completed(agent, turn) in delivered <==> Delivered(trace, turn, agent))
    && (forall agent :: Asked(agent) in delivered <==> exists j :: AsksAt(trace, j, agent))
  }

  lemma AfterTells(trace: seq<Event>)
    ensures Tells(After(trace).delivered, trace)
  {
    forall agent, turn ensures Completed(agent, turn) in After(trace).delivered <==> Delivered(trace, turn, agent) {
      FinishedExactly(trace, agent, turn);
    }
    forall agent ensures Asked(agent) in After(trace).delivered <==> exists j :: AsksAt(trace, j, agent) {
      QuestionsExactly(trace, agent);
    }
  }

  class AgentNotificationCoordinator {
    var states: map<Agent, Attention>
    var pendingCompletions: map<Agent, Turn>
    var unread: map<Agent, Turn>
    var clock: nat
    ghost var delivered: seq<Message>
    ghost var trace: seq<Event>

    // The tables are those of the trace, and so is what was delivered.
    ghost predicate Faithful()
      reads this
    {
      Contents() == After(trace) && Tells(delivered, trace)
    }

    ghost function Contents(): State
      reads this
    {
      State(states, pendingCompletions, unread, clock, delivered)
    }

    constructor ()
      ensures Faithful() && Contents() == INITIAL && trace == []
    {
      states, pendingCompletions, unread, clock, delivered, trace := map[], map[], map[], 0, [], [];
      AfterTells([]);
    }

    method CancelCompletion(agent: Agent)
      modifies this`pendingCompletions
      ensures pendingCompletions == old(pendingCompletions) - {agent}
    {
      if agent !in pendingCompletions { return; }
      pendingCompletions := pendingCompletions - {agent};
    }

    method OnObserve(agent: Agent, attention: Attention, messageQuestion: bool, queued: bool, review: bool)
      requires Faithful()
      modifies this
      ensures Faithful()
      ensures trace == old(trace) + [Observe(agent, Observation(Presented(attention, messageQuestion), queued, review))]
    {
      hide Tells;
      Extends(trace, Observe(agent, Observation(Presented(attention, messageQuestion), queued, review)));
      AfterTells(trace + [Observe(agent, Observation(Presented(attention, messageQuestion), queued, review))]);
      trace := trace + [Observe(agent, Observation(Presented(attention, messageQuestion), queued, review))];
      Record(agent, Presented(attention, messageQuestion), queued, review);
    }

    method Record(agent: Agent, current: Attention, queued: bool, review: bool)
      modifies this`states, this`pendingCompletions, this`unread, this`clock, this`delivered
      ensures Contents() == Next(old(Contents()), Observe(agent, Observation(current, queued, review)))
    {
      var previous := At(states, agent);
      var turn := clock;
      clock := clock + 1;
      states := states[agent := current];
      if current == Finished && queued {
        CancelCompletion(agent);
        unread := unread - {agent};
        return;
      }
      if current != Finished {
        CancelCompletion(agent);
        unread := unread - {agent};
      }
      if previous == None || previous == Some(current) { return; }
      if current == Question {
        delivered := delivered + [Asked(agent)];
        return;
      }
      if previous == Some(Working) && current == Finished && !review {
        CancelCompletion(agent);
        pendingCompletions := pendingCompletions[agent := turn];
      }
    }

    // The timer of the agent's pending turn.
    method OnTimer(agent: Agent)
      requires agent in pendingCompletions
      requires Faithful()
      modifies this
      ensures Faithful() && trace == old(trace) + [Fire(agent)]
    {
      hide Tells;
      Extends(trace, Fire(agent));
      AfterTells(trace + [Fire(agent)]);
      trace := trace + [Fire(agent)];
      clock := clock + 1;
      var turn := pendingCompletions[agent];
      pendingCompletions := pendingCompletions - {agent};
      if agent !in states || states[agent] != Finished { return; }
      unread := unread[agent := turn];
      delivered := delivered + [Completed(agent, turn)];
    }

    method OnView(agent: Agent, turn: Option<Turn>)
      requires Faithful()
      modifies this
      ensures Faithful() && trace == old(trace) + [View(agent, turn)]
    {
      hide Tells;
      Extends(trace, View(agent, turn));
      AfterTells(trace + [View(agent, turn)]);
      trace := trace + [View(agent, turn)];
      clock := clock + 1;
      var current := if agent in unread then Some(unread[agent]) else At(pendingCompletions, agent);
      if turn == None || current != turn { return; }
      unread := unread - {agent};
      CancelCompletion(agent);
    }

    method OnRetain(agents: set<Agent>)
      requires Faithful()
      modifies this
      ensures Faithful() && trace == old(trace) + [Retain(agents)]
    {
      hide Tells;
      Extends(trace, Retain(agents));
      AfterTells(trace + [Retain(agents)]);
      trace := trace + [Retain(agents)];
      clock := clock + 1;
      RetireOthers(agents);
    }

    // Every agent with a state is visited.
    method RetireOthers(agents: set<Agent>)
      modifies this`states, this`pendingCompletions, this`unread
      ensures Contents() == RetainStep(old(Contents()), agents)
    {
      var left := KeySet(states);
      ghost var gone: set<Agent> := {};
      while left != {}
        invariant left <= old(states).Keys && gone <= old(states).Keys
        invariant forall a :: a in gone <==> a in old(states) && a !in left && a !in agents
        invariant states == old(states) - gone && pendingCompletions == old(pendingCompletions) - gone
        invariant unread == old(unread) - gone
        decreases |left|
      {
        var key :| key in left;
        left := left - {key};
        if key !in agents {
          MinusOne(old(states), gone, key);
          MinusOne(old(pendingCompletions), gone, key);
          MinusOne(old(unread), gone, key);
          gone := gone + {key};
          Retire(key);
        }
      }
      assert gone == set a | a in old(states) && a !in agents;
    }

    method Retire(agent: Agent)
      modifies this`states, this`pendingCompletions, this`unread
      ensures states == old(states) - {agent} && pendingCompletions == old(pendingCompletions) - {agent}
      ensures unread == old(unread) - {agent}
    {
      CancelCompletion(agent);
      states, unread := states - {agent}, unread - {agent};
    }

    method OnStop()
      requires Faithful()
      modifies this
      ensures Faithful() && trace == old(trace) + [Stop]
    {
      hide Tells;
      Extends(trace, Stop);
      AfterTells(trace + [Stop]);
      trace := trace + [Stop];
      clock := clock + 1;
      pendingCompletions, unread := map[], map[];
    }
  }
}
