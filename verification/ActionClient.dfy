/** A bridged action in the client role: the graph issues goals, the bridge sends
    each one, asks for its result once the server accepts it, and hands the result
    back under the goal's own id. */
module ActionClient {
  import opened Wrappers
  import opened Correlation

  /** A result handed to the graph, and which of the issued goals it belongs to. */
  datatype Emission = Emission(issue: nat, goal: GoalId)

  /** The tables of an endpoint, with everything it has done so far. `owners` says
      which issued goal a live correlation is carrying forward. */
  datatype State = State(
    guid: Guid,
    nextSequence: int,
    correlations: map<Identity, GoalId>,
    goals: set<GoalId>,
    owners: map<Identity, nat>,
    issued: seq<GoalId>,
    minted: nat,
    overwritten: nat,       // live correlations lost to an identity minted twice
    rejected: nat,
    consumed: nat,          // get_result replies matched
    emitted: seq<Emission>)

  function Opened(guid: Guid): State {
    State(guid, 1, map[], {}, map[], [], 0, 0, 0, 0, [])
  }

  datatype Event =
    | GraphGoal(goal: Option<GoalId>, encodes: bool)
    | GoalReply(identity: Option<Identity>, accepted: bool)
    | ResultReply(identity: Option<Identity>, decodes: bool)

  // ---------------------------------------------------------------- the steps

  function Mint(s: State): Identity {
    Identity(s.guid, s.nextSequence)
  }

  /** Correlate a newly minted identity with a goal, on behalf of `issue`. */
  function Correlate(s: State, goal: GoalId, issue: nat): State {
    s.(nextSequence := Advance(s.nextSequence),
       minted := s.minted + 1,
       overwritten := s.overwritten + if Mint(s) in s.correlations then 1 else 0,
       correlations := s.correlations[Mint(s) := goal],
       owners := s.owners[Mint(s) := issue])
  }

  function Release(s: State, identity: Identity): State {
    s.(correlations := s.correlations - {identity}, owners := s.owners - {identity})
  }

  function MakeRoom(goals: set<GoalId>): set<GoalId> {
    if |goals| >= MaxGoals then goals - {First(goals)} else goals
  }

  predicate Ours(s: State, identity: Option<Identity>) {
    identity.Some? && identity.value.writer == s.guid && identity.value in s.correlations && identity.value in s.owners
  }

  function ForwardGoal(s: State, goal: GoalId): State {
    var sent := Correlate(s, goal, |s.issued|);
    sent.(issued := s.issued + [goal], goals := MakeRoom(s.goals) + {goal})
  }

  function TakeGoalReply(s: State, identity: Identity, accepted: bool): State
    requires Ours(s, Some(identity))
  {
    var goal, issue, freed := s.correlations[identity], s.owners[identity], Release(s, identity);
    if accepted then Correlate(freed, goal, issue)
    else freed.(goals := s.goals - {goal}, rejected := s.rejected + 1)
  }

  function TakeResultReply(s: State, identity: Identity, decodes: bool): State
    requires Ours(s, Some(identity))
  {
    var goal, issue, freed := s.correlations[identity], s.owners[identity], Release(s, identity);
    freed.(goals := s.goals - {goal}, consumed := s.consumed + 1,
           emitted := if decodes then s.emitted + [Emission(issue, goal)] else s.emitted)
  }

  function Step(s: State, e: Event): State {
    match e
    case GraphGoal(goal, encodes) =>
      if !encodes || goal.None? then s else ForwardGoal(s, goal.value)
    case GoalReply(identity, accepted) =>
      if !Ours(s, identity) then s else TakeGoalReply(s, identity.value, accepted)
    case ResultReply(identity, decodes) =>
      if !Ours(s, identity) then s else TakeResultReply(s, identity.value, decodes)
  }

  function Run(guid: Guid, events: seq<Event>): State {
    if events == [] then Opened(guid) else Step(Run(guid, events[..|events| - 1]), events[|events| - 1])
  }

  // ----------------------------------------------------------- the invariants

  /** Every live correlation carries one issued goal forward, under the id that
      goal was issued with, and no goal is carried twice. */
  ghost predicate Carrying(s: State) {
    && s.owners.Keys == s.correlations.Keys
    && (forall id | id in s.owners :: s.owners[id] < |s.issued| && s.correlations[id] == s.issued[s.owners[id]])
    && (forall x, y | x in s.owners && y in s.owners && s.owners[x] == s.owners[y] :: x == y)
  }

  /** A goal whose result was emitted is not carried any more. */
  ghost predicate EmittedOnce(s: State) {
    && (forall e | e in s.emitted :: e.issue < |s.issued| && e.goal == s.issued[e.issue])
    && (forall i, j | 0 <= i < j < |s.emitted| :: s.emitted[i].issue != s.emitted[j].issue)
    && (forall e, id | e in s.emitted && id in s.owners :: s.owners[id] != e.issue)
  }

  /** Until the counter saturates, the next identity is larger than every live one. */
  ghost predicate Counted(s: State) {
    && s.nextSequence == Counter(s.minted)
    && (forall id | id in s.correlations :: id.writer == s.guid)
    && (s.minted < I64Max ==> forall id | id in s.correlations :: id.sequence < s.nextSequence)
    && (s.minted <= I64Max ==> s.overwritten == 0)
  }

  ghost predicate Conserved(s: State) {
    && |s.correlations| + s.rejected + s.consumed + s.overwritten == |s.issued|
    && |s.emitted| <= s.consumed
  }

  ghost predicate Inv(s: State) {
    Carrying(s) && EmittedOnce(s) && Counted(s) && Conserved(s) && |s.goals| <= MaxGoals
  }

  /** Nobody is carrying `issue` forward, and its result was not emitted. */
  ghost predicate Idle(s: State, issue: nat) {
    (forall id | id in s.owners :: s.owners[id] != issue) && (forall e | e in s.emitted :: e.issue != issue)
  }

  lemma ReleaseKeeps(s: State, identity: Identity)
    requires Carrying(s) && EmittedOnce(s) && Counted(s) && Ours(s, Some(identity))
    ensures var freed := Release(s, identity);
            && Carrying(freed) && EmittedOnce(freed) && Counted(freed) && Idle(freed, s.owners[identity])
            && |freed.correlations| == |s.correlations| - 1
  {
    SizeAfterRemove(s.correlations, identity);
  }

  lemma CorrelateCarries(s: State, goal: GoalId, issue: nat)
    requires Carrying(s) && issue < |s.issued| && s.issued[issue] == goal && Idle(s, issue)
    ensures Carrying(Correlate(s, goal, issue))
  {}

  lemma CorrelateKeeps(s: State, goal: GoalId, issue: nat)
    requires Carrying(s) && EmittedOnce(s) && Counted(s)
    requires issue < |s.issued| && s.issued[issue] == goal && Idle(s, issue)
    ensures var sent := Correlate(s, goal, issue);
            && Carrying(sent) && EmittedOnce(sent) && Counted(sent)
            && |sent.correlations| + sent.overwritten == |s.correlations| + s.overwritten + 1
  {
    hide Carrying;
    CorrelateCarries(s, goal, issue);
    CounterAdvances(s.minted);
    SizeAfterInsert(s.correlations, Mint(s), goal);
  }

  /** An issue that is only now appended has nobody carrying it. */
  lemma IssueKeeps(s: State, goal: GoalId)
    requires Carrying(s) && EmittedOnce(s) && Counted(s)
    ensures var more := s.(issued := s.issued + [goal]);
            Carrying(more) && EmittedOnce(more) && Counted(more) && Idle(more, |s.issued|)
  {}

  lemma EmitKeeps(s: State, issue: nat, goal: GoalId)
    requires EmittedOnce(s) && issue < |s.issued| && s.issued[issue] == goal && Idle(s, issue)
    ensures EmittedOnce(s.(emitted := s.emitted + [Emission(issue, goal)]))
  {
    InSnoc(s.emitted, Emission(issue, goal));
  }

  lemma GoalRoom(goals: set<GoalId>, goal: GoalId)
    requires |goals| <= MaxGoals
    ensures |MakeRoom(goals) + {goal}| <= MaxGoals && |goals - {goal}| <= MaxGoals
  {
    var room := MakeRoom(goals);
    if goal in room { assert room + {goal} == room; }
    if goal !in goals { assert goals - {goal} == goals; }
  }

  /** The invariants that read neither the goal table nor the counts. */
  lemma SameTables(s: State, t: State)
    requires t == s.(goals := t.goals, rejected := t.rejected, consumed := t.consumed)
    requires Carrying(s) && EmittedOnce(s) && Counted(s)
    ensures Carrying(t) && EmittedOnce(t) && Counted(t)
  {}

  lemma GoalKeeps(s: State, goal: GoalId)
    requires Inv(s)
    ensures Inv(ForwardGoal(s, goal))
  {
    hide MakeRoom, Carrying, EmittedOnce, Counted, Idle, Correlate, ForwardGoal;
    var more := s.(issued := s.issued + [goal]);
    IssueKeeps(s, goal);
    CorrelateKeeps(more, goal, |s.issued|);
    IssueIsCorrelate(s, goal);
    SameTables(Correlate(more, goal, |s.issued|), ForwardGoal(s, goal));
    GoalRoom(s.goals, goal);
  }

  /** Issuing a goal is correlating it, on behalf of the issue just added. */
  lemma IssueIsCorrelate(s: State, goal: GoalId)
    ensures var sent := Correlate(s.(issued := s.issued + [goal]), goal, |s.issued|);
            && ForwardGoal(s, goal) == sent.(goals := MakeRoom(s.goals) + {goal})
            && sent.rejected == s.rejected && sent.consumed == s.consumed
            && sent.emitted == s.emitted && |sent.issued| == |s.issued| + 1
  {
    hide MakeRoom;
  }

  lemma GoalReplyKeeps(s: State, identity: Identity, accepted: bool)
    requires Inv(s) && Ours(s, Some(identity))
    ensures Inv(TakeGoalReply(s, identity, accepted))
  {
    hide Carrying, EmittedOnce, Counted, Idle;
    OwnerIssued(s, identity);
    var goal, freed := s.correlations[identity], Release(s, identity);
    ReleaseKeeps(s, identity);
    if accepted {
      CorrelateKeeps(freed, goal, s.owners[identity]);
    } else {
      SameTables(freed, TakeGoalReply(s, identity, accepted));
      GoalRoom(s.goals, goal);
    }
  }

  lemma ResultReplyKeeps(s: State, identity: Identity, decodes: bool)
    requires Inv(s) && Ours(s, Some(identity))
    ensures Inv(TakeResultReply(s, identity, decodes))
  {
    hide Carrying, EmittedOnce, Counted, Idle;
    OwnerIssued(s, identity);
    var goal, freed := s.correlations[identity], Release(s, identity);
    ReleaseKeeps(s, identity);
    GoalRoom(s.goals, goal);
    var matched := freed.(goals := s.goals - {goal}, consumed := s.consumed + 1);
    SameTables(freed, matched);
    if decodes { EmitReplyKeeps(matched, s.owners[identity], goal, freed); }
  }

  lemma EmitReplyKeeps(s: State, issue: nat, goal: GoalId, freed: State)
    requires s == freed.(goals := s.goals, consumed := s.consumed)
    requires Carrying(s) && EmittedOnce(s) && Counted(s) && issue < |s.issued| && s.issued[issue] == goal
    requires Idle(freed, issue)
    ensures Counted(s.(emitted := s.emitted + [Emission(issue, goal)]))
    ensures Carrying(s.(emitted := s.emitted + [Emission(issue, goal)]))
    ensures EmittedOnce(s.(emitted := s.emitted + [Emission(issue, goal)]))
  {
    EmitKeeps(s, issue, goal);
  }

  lemma OwnerIssued(s: State, identity: Identity)
    requires Carrying(s) && Ours(s, Some(identity))
    ensures s.owners[identity] < |s.issued| && s.issued[s.owners[identity]] == s.correlations[identity]
  {}

  lemma {:induction false} RunKeeps(guid: Guid, events: seq<Event>)
    ensures Inv(Run(guid, events)) && Run(guid, events).guid == guid
  {
    hide Inv, ForwardGoal, TakeGoalReply, TakeResultReply;
    if events == [] {
      OpenedKept(guid);
    } else {
      var s, e := Run(guid, events[..|events| - 1]), events[|events| - 1];
      RunKeeps(guid, events[..|events| - 1]);
      StepKeeps(s, e);
    }
  }

  lemma OpenedKept(guid: Guid)
    ensures Inv(Opened(guid))
  {}

  lemma StepKeeps(s: State, e: Event)
    requires Inv(s)
    ensures Inv(Step(s, e)) && Step(s, e).guid == s.guid
  {
    hide Inv;
    match e
    case GraphGoal(goal, encodes) =>
      if encodes && goal.Some? { GoalKeeps(s, goal.value); }
    case GoalReply(identity, accepted) =>
      if Ours(s, identity) { GoalReplyKeeps(s, identity.value, accepted); }
    case ResultReply(identity, decodes) =>
      if Ours(s, identity) { ResultReplyKeeps(s, identity.value, decodes); }
  }

  // ------------------------------------------------------ over every whole run

  /** Live correlations are the goals issued, less rejections and results
      consumed, as long as no more than 2^63 - 1 requests were minted: until then
      no insert overwrites a live identity. */
  lemma ClientConservation(guid: Guid, events: seq<Event>)
    ensures var s := Run(guid, events);
            && |s.goals| <= MaxGoals
            && |s.correlations| + s.rejected + s.consumed + s.overwritten == |s.issued|
            && (s.minted <= I64Max ==> |s.correlations| == |s.issued| - s.rejected - s.consumed)
  {
    hide Run;
    RunKeeps(guid, events);
  }

  /** Each issued goal yields at most one result, carrying the id it was issued
      under, however replies are repeated, reordered or addressed. */
  lemma ResultsOncePerGoal(guid: Guid, events: seq<Event>)
    ensures var s := Run(guid, events);
            && (forall e | e in s.emitted :: e.issue < |s.issued| && e.goal == s.issued[e.issue])
            && (forall i, j | 0 <= i < j < |s.emitted| :: s.emitted[i].issue != s.emitted[j].issue)
            && |s.emitted| + |s.correlations| + s.rejected <= |s.issued|
  {
    hide Run;
    RunKeeps(guid, events);
  }

  /** The next insert overwrites a live identity exactly when the counter has
      saturated and the last identity it can mint is still live. */
  lemma OverwritesExactlyWhen(guid: Guid, events: seq<Event>)
    ensures var s := Run(guid, events);
            Mint(s) in s.correlations <==> s.minted >= I64Max && Identity(guid, I64Max) in s.correlations
  {
    hide Run;
    RunKeeps(guid, events);
  }

  /** A reply addressed to another client, or one already matched, changes nothing. */
  lemma StrayReplyIgnored(guid: Guid, events: seq<Event>, identity: Identity, yes: bool)
    requires identity.writer != guid || identity !in Run(guid, events).correlations
    ensures Run(guid, events + [GoalReply(Some(identity), yes)]) == Run(guid, events)
    ensures Run(guid, events + [ResultReply(Some(identity), yes)]) == Run(guid, events)
  {
    RunKeeps(guid, events);
    assert (events + [GoalReply(Some(identity), yes)])[..|events|] == events;
    assert (events + [ResultReply(Some(identity), yes)])[..|events|] == events;
  }

  // ---------------------------------------------------------------- the endpoint

  class ActionEndpoint {
    const clientGuid: Guid
    var correlations: map<Identity, GoalId>
    var goals: set<GoalId>
    var nextSequence: int
    ghost var past: State

    /** The endpoint as the specification sees it. */
    ghost function Now(): State
      reads this
    {
      past.(guid := clientGuid, nextSequence := nextSequence, correlations := correlations, goals := goals)
    }

    ghost predicate Valid()
      reads this
    {
      past.owners.Keys == correlations.Keys
    }

    constructor (clientGuid: Guid)
      ensures Valid() && Now() == Opened(clientGuid)
    {
      this.clientGuid := clientGuid;
      correlations, goals, nextSequence := map[], {}, 1;
      past := Opened(clientGuid);
    }

    /** Mint the next identity and correlate it with `goal`. */
    method MintFor(goal: GoalId, ghost issue: nat) returns (identity: Identity)
      requires Valid()
      modifies this
      ensures Valid() && Now() == Correlate(old(Now()), goal, issue)
      ensures identity == Mint(old(Now()))
    {
      identity := Identity(clientGuid, nextSequence);
      past := Correlate(Now(), goal, issue);
      nextSequence := if nextSequence < I64Max then nextSequence + 1 else nextSequence;
      correlations := correlations[identity := goal];
    }

    /** The graph issued a goal: send it under an identity of its own. */
    method ForwardOutbound(goal: Option<GoalId>, encodes: bool) returns (sent: Option<Identity>)
      requires Valid()
      modifies this
      ensures Valid() && Now() == Step(old(Now()), GraphGoal(goal, encodes))
      ensures sent.Some? ==> goal.Some? && sent.value in correlations && correlations[sent.value] == goal.value
    {
      if !encodes || goal.None? { return None; }
      var identity := MintFor(goal.value, |past.issued|);
      past := past.(issued := past.issued + [goal.value]);
      if |goals| >= MaxGoals {
        var oldest := First(goals);
        goals := goals - {oldest};
      }
      goals := goals + {goal.value};
      return Some(identity);
    }

    /** Forget a correlation, if it is this endpoint's and still live. */
    method Take(identity: Option<Identity>) returns (goal: Option<GoalId>)
      requires Valid()
      modifies this
      ensures Valid() && (goal.Some? <==> Ours(old(Now()), identity))
      ensures Now() == if goal.Some? then Release(old(Now()), identity.value) else old(Now())
      ensures goal.Some? ==> goal.value == old(correlations)[identity.value]
    {
      if identity.None? || identity.value.writer != clientGuid || identity.value !in correlations { return None; }
      goal := Some(correlations[identity.value]);
      correlations := correlations - {identity.value};
      past := past.(owners := past.owners - {identity.value});
    }

    /** A `send_goal` reply: if the goal was accepted, ask for its result. */
    method HandleGoalReply(identity: Option<Identity>, accepted: bool) returns (asked: Option<Identity>)
      requires Valid()
      modifies this
      ensures Valid() && Now() == Step(old(Now()), GoalReply(identity, accepted))
      ensures asked.Some? <==> Ours(old(Now()), identity) && accepted
      ensures asked.Some? ==> asked.value in correlations
                              && correlations[asked.value] == old(correlations)[identity.value]
    {
      ghost var before := Now();
      var goal := Take(identity);
      if goal.None? { return None; }
      if !accepted {
        goals := goals - {goal.value};
        past := past.(rejected := past.rejected + 1);
        return None;
      }
      var next := MintFor(goal.value, before.owners[identity.value]);
      return Some(next);
    }

    /** A `get_result` reply: hand it to the graph as the goal's last message. */
    method HandleResultReply(identity: Option<Identity>, decodes: bool) returns (emitted: Option<GoalId>)
      requires Valid()
      modifies this
      ensures Valid() && Now() == Step(old(Now()), ResultReply(identity, decodes))
      ensures emitted.Some? <==> Ours(old(Now()), identity) && decodes
      ensures emitted.Some? ==> emitted.value == old(correlations)[identity.value]
    {
      ghost var before := Now();
      var goal := Take(identity);
      if goal.None? { return None; }
      goals := goals - {goal.value};
      past := past.(consumed := past.consumed + 1);
      if !decodes { return None; }
      past := past.(emitted := past.emitted + [Emission(before.owners[identity.value], goal.value)]);
      return goal;
    }
  }
}
