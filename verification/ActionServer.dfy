/** A bridged action in the server role: the graph does the work, the bridge
    keeps the goal table and answers `get_result` when it can. */
module ActionServer {
  import opened Wrappers
  import opened Counting
  import opened Correlation

  datatype Status = Unknown | Accepted | Executing | Canceling | Succeeded | Canceled | Aborted

  predicate IsTerminal(s: Status) {
    s == Succeeded || s == Canceled || s == Aborted
  }

  type Time = int

  type Body = seq<nat>

  datatype Goal = Goal(status: Status, result: Option<Body>, parked: seq<Identity>, acceptedAt: Time)

  function NewGoal(now: Time): Goal {
    Goal(Accepted, None, [], now)
  }

  /** What has happened at the endpoint, in order. */
  datatype Entry =
    | Registered(goal: GoalId)
    | Forgotten(goal: GoalId)
    | Produced(goal: GoalId, body: Body)
    | Asked(goal: GoalId, identity: Identity)
    | Answered(goal: GoalId, identity: Identity, body: Body)
    | Dropped(goal: GoalId, identity: Identity)

  /** One line of a status array, by goal. */
  type StatusArray = map<GoalId, (Status, Time)>

  datatype State = State(goals: map<GoalId, Goal>, log: seq<Entry>, published: Option<StatusArray>)

  const Opened := State(map[], [], None)

  datatype Event =
    | GoalRequest(goal: Option<GoalId>, decodes: bool, now: Time)
    | ResultRequest(query: Option<(Identity, GoalId)>)
    | CancelRequest(wellFormed: bool)
    | GraphResult(goal: Option<GoalId>, body: Option<Body>, status: Status)

  // ---------------------------------------------------------------- the steps

  function StatusOf(goals: map<GoalId, Goal>): StatusArray {
    map g | g in goals :: (goals[g].status, goals[g].acceptedAt)
  }

  function DropAll(g: GoalId, parked: seq<Identity>): seq<Entry> {
    seq(|parked|, k requires 0 <= k < |parked| => Dropped(g, parked[k]))
  }

  function AnswerAll(g: GoalId, parked: seq<Identity>, body: Body): seq<Entry> {
    seq(|parked|, k requires 0 <= k < |parked| => Answered(g, parked[k], body))
  }

  function Forget(s: State, g: GoalId): State
    requires g in s.goals
  {
    s.(goals := s.goals - {g}, log := s.log + DropAll(g, s.goals[g].parked) + [Forgotten(g)])
  }

  /** Record a goal: the first of a full table makes room, and a goal already
      known under this id is replaced, its parked requests with it. */
  function Track(s: State, g: GoalId, goal: Goal): State {
    var room := if |s.goals| >= MaxGoals then Forget(s, First(s.goals.Keys)) else s;
    var clear := if g in room.goals then Forget(room, g) else room;
    clear.(goals := clear.goals[g := goal], log := clear.log + [Registered(g)])
  }

  function Publish(s: State): State {
    s.(published := Some(StatusOf(s.goals)))
  }

  function AskResult(s: State, identity: Identity, g: GoalId): State {
    if g !in s.goals then s.(log := s.log + [Asked(g, identity), Dropped(g, identity)])
    else match s.goals[g].result
      case Some(body) => s.(log := s.log + [Asked(g, identity), Answered(g, identity, body)])
      case None => s.(log := s.log + [Asked(g, identity)],
                      goals := s.goals[g := s.goals[g].(parked := s.goals[g].parked + [identity])])
  }

  function CancelOne(goal: Goal): Goal {
    if IsTerminal(goal.status) then goal else goal.(status := Canceling)
  }

  function CancelAll(goals: map<GoalId, Goal>): map<GoalId, Goal> {
    map g | g in goals :: CancelOne(goals[g])
  }

  function ProduceResult(s: State, g: GoalId, body: Body, status: Status): State {
    if g !in s.goals then s
    else Publish(s.(goals := s.goals[g := s.goals[g].(status := status, result := Some(body), parked := [])],
                    log := s.log + [Produced(g, body)] + AnswerAll(g, s.goals[g].parked, body)))
  }

  function Step(s: State, e: Event): State {
    match e
    case GoalRequest(goal, decodes, now) =>
      if goal.None? || !decodes then s else Publish(Track(s, goal.value, NewGoal(now)))
    case ResultRequest(query) =>
      if query.None? then s else AskResult(s, query.value.0, query.value.1)
    case CancelRequest(wellFormed) =>
      if !wellFormed then s else Publish(s.(goals := CancelAll(s.goals)))
    case GraphResult(goal, body, status) =>
      if goal.None? || body.None? then s else ProduceResult(s, goal.value, body.value, status)
  }

  function Run(events: seq<Event>): State {
    if events == [] then Opened else Step(Run(events[..|events| - 1]), events[|events| - 1])
  }

  // ------------------------------------------------- reading the log of a run

  /** What the log alone says of a goal: not known, or known with the last
      result produced since it was registered. */
  ghost function Latest(log: seq<Entry>, g: GoalId): Option<Option<Body>> {
    if log == [] then None
    else After(log[|log| - 1], g, Latest(log[..|log| - 1], g))
  }

  ghost function After(e: Entry, g: GoalId, before: Option<Option<Body>>): Option<Option<Body>> {
    if e.goal != g then before
    else match e
      case Registered(_) => Some(None)
      case Forgotten(_) => None
      case Produced(_, body) => Some(Some(body))
      case _ => before
  }

  /** Every answer carried the latest result of its goal at that moment. */
  ghost predicate AnswersLatest(log: seq<Entry>) {
    forall k {:trigger log[k].Answered?} | 0 <= k < |log| && log[k].Answered? ::
      Latest(log[..k], log[k].goal) == Some(Some(log[k].body))
  }

  /** The request dropped at `k` had just named a goal not known then. */
  ghost predicate NamedUnknown(log: seq<Entry>, k: nat)
    requires k < |log| && log[k].Dropped?
  {
    k > 0 && log[k - 1] == Asked(log[k].goal, log[k].identity) && Latest(log[..k - 1], log[k].goal).None?
  }

  /** The request dropped at `k` went with its goal, which was forgotten at `m`. */
  ghost predicate WentWithGoal(log: seq<Entry>, k: nat, m: nat)
    requires k < |log| && log[k].Dropped?
  {
    && k < m < |log|
    && log[m] == Forgotten(log[k].goal)
    && forall l | k <= l < m :: log[l].Dropped? && log[l].goal == log[k].goal
  }

  /** No request is dropped for any other reason. */
  ghost predicate DropsExplained(log: seq<Entry>) {
    forall k {:trigger log[k].Dropped?} | 0 <= k < |log| && log[k].Dropped? ::
      NamedUnknown(log, k) || exists m :: WentWithGoal(log, k, m)
  }

  function AskedBy(g: GoalId, i: Identity): Entry -> bool {
    (e: Entry) => e.Asked? && e.goal == g && e.identity == i
  }

  function AnsweredTo(g: GoalId, i: Identity): Entry -> bool {
    (e: Entry) => e.Answered? && e.goal == g && e.identity == i
  }

  function DroppedOf(g: GoalId, i: Identity): Entry -> bool {
    (e: Entry) => e.Dropped? && e.goal == g && e.identity == i
  }

  /** Requests asked and neither answered nor dropped. */
  ghost function Outstanding(log: seq<Entry>, g: GoalId, i: Identity): int {
    CountIf(log, AskedBy(g, i)) - CountIf(log, AnsweredTo(g, i)) - CountIf(log, DroppedOf(g, i))
  }

  ghost function Parked(s: State, g: GoalId, i: Identity): nat {
    if g in s.goals then multiset(s.goals[g].parked)[i] else 0
  }

  // ----------------------------------------------------------- the invariants

  ghost predicate Conserved(s: State) {
    forall g, i :: Outstanding(s.log, g, i) == Parked(s, g, i)
  }

  ghost predicate Remembered(s: State) {
    forall g {:trigger Latest(s.log, g)} :: Latest(s.log, g) == if g in s.goals then Some(s.goals[g].result) else None
  }

  ghost predicate NoneParkedOnResult(s: State) {
    forall g | g in s.goals && s.goals[g].result.Some? :: s.goals[g].parked == []
  }

  ghost predicate StatusCurrent(s: State) {
    if s.published.None? then s.goals == map[] else s.published.value == StatusOf(s.goals)
  }

  /** What holds of the table and the log, whatever was last published. */
  ghost predicate Kept(s: State) {
    |s.goals| <= MaxGoals && Conserved(s) && Remembered(s) && NoneParkedOnResult(s) && AnswersLatest(s.log)
      && DropsExplained(s.log)
  }

  ghost predicate Inv(s: State) {
    Kept(s) && StatusCurrent(s)
  }

  // -------------------------------------------------------------- log lemmas

  predicate Quiet(e: Entry) {
    e.Asked? || e.Answered? || e.Dropped?
  }

  lemma LatestSnoc(log: seq<Entry>, e: Entry, g: GoalId)
    ensures Latest(log + [e], g) == After(e, g, Latest(log, g))
  {
    assert (log + [e])[..|log|] == log;
  }

  lemma {:induction false} LatestQuiet(log: seq<Entry>, more: seq<Entry>, g: GoalId)
    requires forall k | 0 <= k < |more| :: Quiet(more[k])
    ensures Latest(log + more, g) == Latest(log, g)
  {
    if more == [] {
      assert log + more == log;
    } else {
      var init, last := more[..|more| - 1], more[|more| - 1];
      LatestQuiet(log, init, g);
      LatestSnoc(log + init, last, g);
      assert log + more == log + init + [last];
    }
  }

  lemma AnswersSnoc(log: seq<Entry>, e: Entry)
    requires AnswersLatest(log) && (e.Answered? ==> Latest(log, e.goal) == Some(Some(e.body)))
    ensures AnswersLatest(log + [e])
  {
    var more := log + [e];
    forall k | 0 <= k < |more| && more[k].Answered?
      ensures Latest(more[..k], more[k].goal) == Some(Some(more[k].body))
    {
      assert more[..k] == log[..k];
      if k == |log| { assert log[..k] == log; } else { assert log[k].Answered?; }
    }
  }

  lemma {:induction false} AnswersAppend(log: seq<Entry>, more: seq<Entry>)
    requires AnswersLatest(log)
    requires forall k | 0 <= k < |more| ::
             Quiet(more[k]) && (more[k].Answered? ==> Latest(log, more[k].goal) == Some(Some(more[k].body)))
    ensures AnswersLatest(log + more)
  {
    if more == [] {
      assert log + more == log;
    } else {
      var init, last := more[..|more| - 1], more[|more| - 1];
      AnswersAppend(log, init);
      if last.Answered? { LatestQuiet(log, init, last.goal); }
      AnswersSnoc(log + init, last);
      assert log + more == log + init + [last];
    }
  }

  /** Appending `more` explains the drops in it, the earlier ones stay explained. */
  lemma DropsAppend(log: seq<Entry>, more: seq<Entry>)
    requires DropsExplained(log)
    requires forall k | |log| <= k < |log + more| && (log + more)[k].Dropped? ::
               NamedUnknown(log + more, k) || exists m :: WentWithGoal(log + more, k, m)
    ensures DropsExplained(log + more)
  {
    hide Latest;
    var all := log + more;
    forall k | 0 <= k < |log| && all[k].Dropped? ensures NamedUnknown(all, k) || exists m :: WentWithGoal(all, k, m) {
      assert all[k] == log[k] && log[k].Dropped?;
      if NamedUnknown(log, k) {
        assert all[..k - 1] == log[..k - 1];
      } else {
        var m :| WentWithGoal(log, k, m);
        assert WentWithGoal(all, k, m);
      }
    }
  }

  lemma DropsAppendNone(log: seq<Entry>, more: seq<Entry>)
    requires DropsExplained(log) && forall k | 0 <= k < |more| :: !more[k].Dropped?
    ensures DropsExplained(log + more)
  {
    DropsAppend(log, more);
  }

  lemma DropsForget(log: seq<Entry>, g: GoalId, parked: seq<Identity>)
    requires DropsExplained(log)
    ensures DropsExplained(log + DropAll(g, parked) + [Forgotten(g)])
  {
    var more := DropAll(g, parked) + [Forgotten(g)];
    var all := log + more;
    assert all == log + DropAll(g, parked) + [Forgotten(g)];
    forall k | |log| <= k < |all| && all[k].Dropped?
      ensures NamedUnknown(all, k) || exists m :: WentWithGoal(all, k, m)
    {
      assert all[|all| - 1] == Forgotten(g);
      assert WentWithGoal(all, k, |all| - 1);
    }
    DropsAppend(log, more);
  }

  lemma OutstandingAppend(log: seq<Entry>, more: seq<Entry>, g: GoalId, i: Identity)
    ensures Outstanding(log + more, g, i) == Outstanding(log, g, i) + Outstanding(more, g, i)
  {
    CountAppend(log, more, AskedBy(g, i));
    CountAppend(log, more, AnsweredTo(g, i));
    CountAppend(log, more, DroppedOf(g, i));
  }

  lemma OutstandingSnoc(log: seq<Entry>, e: Entry, g: GoalId, i: Identity)
    ensures Outstanding(log + [e], g, i) == Outstanding(log, g, i) +
              if e == Asked(g, i) then 1
              else if e.goal == g && (e.Answered? || e.Dropped?) && e.identity == i then -1
              else 0
  {
    CountSnoc(log, e, AskedBy(g, i));
    CountSnoc(log, e, AnsweredTo(g, i));
    CountSnoc(log, e, DroppedOf(g, i));
  }

  /** Settling requests one by one, by dropping or answering them. */
  lemma {:induction false} OutstandingSettled(more: seq<Entry>, parked: seq<Identity>, h: GoalId, g: GoalId,
                                              i: Identity)
    requires |more| == |parked|
    requires forall k | 0 <= k < |more| ::
             (more[k].Answered? || more[k].Dropped?) && more[k].goal == h && more[k].identity == parked[k]
    ensures Outstanding(more, g, i) == if g == h then -(multiset(parked)[i] as int) else 0
  {
    if more == [] {
      assert parked == [];
    } else {
      var n := |more| - 1;
      OutstandingSettled(more[..n], parked[..n], h, g, i);
      OutstandingSnoc(more[..n], more[n], g, i);
      assert more == more[..n] + [more[n]] && parked == parked[..n] + [parked[n]];
    }
  }

  // ------------------------------------------------- every step keeps them

  lemma ForgetKeeps(s: State, g: GoalId)
    requires Kept(s) && g in s.goals
    ensures Kept(Forget(s, g))
  {
    hide Latest, Outstanding, DropsExplained, AnswersLatest;
    var t, drops := Forget(s, g), DropAll(g, s.goals[g].parked);
    SizeAfterRemove(s.goals, g);
    AnswersAppend(s.log, drops);
    AnswersSnoc(s.log + drops, Forgotten(g));
    DropsForget(s.log, g, s.goals[g].parked);
    forall h ensures Latest(t.log, h) == if h in t.goals then Some(t.goals[h].result) else None {
      LatestQuiet(s.log, drops, h);
      LatestSnoc(s.log + drops, Forgotten(g), h);
      assert Latest(s.log, h) == if h in s.goals then Some(s.goals[h].result) else None;
    }
    forall h, i ensures Outstanding(t.log, h, i) == Parked(t, h, i) {
      assert Outstanding(s.log, h, i) == Parked(s, h, i);
      OutstandingAppend(s.log, drops, h, i);
      OutstandingSettled(drops, s.goals[g].parked, g, h, i);
      OutstandingSnoc(s.log + drops, Forgotten(g), h, i);
    }
  }

  lemma RegisterKeeps(s: State, g: GoalId, now: Time)
    requires Kept(s) && g !in s.goals && |s.goals| < MaxGoals
    ensures Kept(s.(goals := s.goals[g := NewGoal(now)], log := s.log + [Registered(g)]))
  {
    hide Latest, Outstanding, DropsExplained, AnswersLatest;
    var t := s.(goals := s.goals[g := NewGoal(now)], log := s.log + [Registered(g)]);
    SizeAfterInsert(s.goals, g, NewGoal(now));
    AnswersSnoc(s.log, Registered(g));
    DropsAppendNone(s.log, [Registered(g)]);
    forall h ensures Latest(t.log, h) == if h in t.goals then Some(t.goals[h].result) else None {
      LatestSnoc(s.log, Registered(g), h);
    }
    forall h, i ensures Outstanding(t.log, h, i) == Parked(t, h, i) {
      assert Outstanding(s.log, h, i) == Parked(s, h, i);
      OutstandingSnoc(s.log, Registered(g), h, i);
    }
  }

  lemma TrackKeeps(s: State, g: GoalId, now: Time)
    requires Kept(s)
    ensures Kept(Track(s, g, NewGoal(now))) && g in Track(s, g, NewGoal(now)).goals
  {
    hide Conserved, Remembered, AnswersLatest, NoneParkedOnResult, DropsExplained;
    var room := if |s.goals| >= MaxGoals then Forget(s, First(s.goals.Keys)) else s;
    if |s.goals| >= MaxGoals { ForgetKeeps(s, First(s.goals.Keys)); SizeAfterRemove(s.goals, First(s.goals.Keys)); }
    var clear := if g in room.goals then Forget(room, g) else room;
    if g in room.goals { ForgetKeeps(room, g); SizeAfterRemove(room.goals, g); }
    RegisterKeeps(clear, g, now);
  }

  lemma AskConserved(s: State, identity: Identity, g: GoalId)
    requires Conserved(s) && NoneParkedOnResult(s)
    ensures Conserved(AskResult(s, identity, g))
  {
    hide Outstanding;
    var t := AskResult(s, identity, g);
    forall h, i ensures Outstanding(t.log, h, i) == Parked(t, h, i) {
      assert Outstanding(s.log, h, i) == Parked(s, h, i);
      OutstandingSnoc(s.log, Asked(g, identity), h, i);
      if |t.log| == |s.log| + 2 {
        OutstandingSnoc(s.log + [Asked(g, identity)], t.log[|s.log| + 1], h, i);
        assert t.log == s.log + [Asked(g, identity)] + [t.log[|s.log| + 1]];
      }
    }
  }

  lemma AskRemembered(s: State, identity: Identity, g: GoalId)
    requires Remembered(s) && AnswersLatest(s.log) && DropsExplained(s.log)
    ensures var t := AskResult(s, identity, g);
            Remembered(t) && AnswersLatest(t.log) && DropsExplained(t.log)
  {
    hide Latest, DropsExplained, AnswersLatest;
    var t := AskResult(s, identity, g);
    var more := t.log[|s.log|..];
    assert t.log == s.log + more && t.log[..|s.log|] == s.log && more[0] == Asked(g, identity);
    assert Latest(s.log, g) == if g in s.goals then Some(s.goals[g].result) else None;
    AnswersAppend(s.log, more);
    DropsAppend(s.log, more);
    forall h ensures Latest(t.log, h) == if h in t.goals then Some(t.goals[h].result) else None {
      LatestQuiet(s.log, more, h);
    }
  }

  lemma AskKeeps(s: State, identity: Identity, g: GoalId)
    requires Kept(s)
    ensures Kept(AskResult(s, identity, g))
  {
    hide Conserved, Remembered, DropsExplained, AnswersLatest;
    AskConserved(s, identity, g);
    AskRemembered(s, identity, g);
    var t := AskResult(s, identity, g);
    if g in s.goals { SizeAfterInsert(s.goals, g, t.goals[g]); }
  }

  lemma CancelKeeps(s: State)
    requires Kept(s)
    ensures Kept(s.(goals := CancelAll(s.goals)))
  {
    hide Latest, Outstanding, DropsExplained, AnswersLatest;
    var t := s.(goals := CancelAll(s.goals));
    assert t.goals.Keys == s.goals.Keys;
    forall h, i ensures Outstanding(t.log, h, i) == Parked(t, h, i) {
      assert Outstanding(s.log, h, i) == Parked(s, h, i);
    }
  }

  lemma ProduceKeeps(s: State, g: GoalId, body: Body, status: Status)
    requires Kept(s) && g in s.goals
    ensures Kept(ProduceResult(s, g, body, status))
  {
    hide Latest, Outstanding, DropsExplained, AnswersLatest;
    var t, parked := ProduceResult(s, g, body, status), s.goals[g].parked;
    var mid, answers := s.log + [Produced(g, body)], AnswerAll(g, parked, body);
    SizeAfterInsert(s.goals, g, t.goals[g]);
    AnswersSnoc(s.log, Produced(g, body));
    LatestSnoc(s.log, Produced(g, body), g);
    AnswersAppend(mid, answers);
    DropsAppendNone(s.log, [Produced(g, body)]);
    DropsAppendNone(mid, answers);
    forall h ensures Latest(t.log, h) == if h in t.goals then Some(t.goals[h].result) else None {
      LatestQuiet(mid, answers, h);
      LatestSnoc(s.log, Produced(g, body), h);
      assert Latest(s.log, h) == if h in s.goals then Some(s.goals[h].result) else None;
    }
    forall h, i ensures Outstanding(t.log, h, i) == Parked(t, h, i) {
      assert Outstanding(s.log, h, i) == Parked(s, h, i);
      OutstandingSnoc(s.log, Produced(g, body), h, i);
      OutstandingAppend(mid, answers, h, i);
      OutstandingSettled(answers, parked, g, h, i);
    }
  }

  lemma PublishKeeps(s: State)
    requires Kept(s)
    ensures Inv(Publish(s))
  {
    hide Latest, Outstanding, DropsExplained, AnswersLatest;
    assert forall g, i :: Parked(Publish(s), g, i) == Parked(s, g, i);
    assert Conserved(Publish(s));
  }

  lemma StepKeeps(s: State, e: Event)
    requires Inv(s)
    ensures Inv(Step(s, e))
  {
    hide Kept, Track, ProduceResult;
    match e
    case GoalRequest(goal, decodes, now) =>
      if goal.Some? && decodes {
        TrackKeeps(s, goal.value, now);
        PublishKeeps(Track(s, goal.value, NewGoal(now)));
      }
    case ResultRequest(query) =>
      if query.Some? {
        AskKeeps(s, query.value.0, query.value.1);
        var t := AskResult(s, query.value.0, query.value.1);
        assert StatusOf(t.goals) == StatusOf(s.goals);
      }
    case CancelRequest(wellFormed) =>
      if wellFormed {
        CancelKeeps(s);
        PublishKeeps(s.(goals := CancelAll(s.goals)));
      }
    case GraphResult(goal, body, status) =>
      if goal.Some? && body.Some? {
        if goal.value in s.goals { ProduceKeeps(s, goal.value, body.value, status); }
        ProducePublishes(s, goal.value, body.value, status);
      }
  }

  lemma ProducePublishes(s: State, g: GoalId, body: Body, status: Status)
    requires StatusCurrent(s)
    ensures StatusCurrent(ProduceResult(s, g, body, status))
    ensures g !in s.goals ==> ProduceResult(s, g, body, status) == s
  {}

  lemma {:induction false} RunKeeps(events: seq<Event>)
    ensures Inv(Run(events))
  {
    hide Step, Inv;
    if events != [] {
      RunKeeps(events[..|events| - 1]);
      StepKeeps(Run(events[..|events| - 1]), events[|events| - 1]);
    } else {
      OpenedKept();
    }
  }

  lemma OpenedKept()
    ensures Inv(Opened)
  {}

  // ------------------------------------------------------ over every whole run

  /** Each `get_result` request has been answered, is still parked, or was
      dropped, and never answered more often than it was asked; a request is
      dropped only on naming an unknown goal or together with its goal. */
  lemma ResultConservation(events: seq<Event>, g: GoalId, i: Identity)
    ensures var s := Run(events);
            && CountIf(s.log, AskedBy(g, i))
               == CountIf(s.log, AnsweredTo(g, i)) + CountIf(s.log, DroppedOf(g, i)) + Parked(s, g, i)
            && DropsExplained(s.log)
  {
    hide Run, DropsExplained, AnswersLatest, Remembered, NoneParkedOnResult, StatusCurrent;
    RunKeeps(events);
    assert Outstanding(Run(events).log, g, i) == Parked(Run(events), g, i);
  }

  /** Every answer carried the result the graph had last produced for its goal
      since the goal was registered, and a goal that has its result keeps nobody
      waiting. */
  lemma AnswersAreLatest(events: seq<Event>)
    ensures AnswersLatest(Run(events).log) && NoneParkedOnResult(Run(events))
  {
    hide Run, DropsExplained, AnswersLatest, Remembered, NoneParkedOnResult, StatusCurrent, Conserved;
    RunKeeps(events);
  }

  /** Between steps, whoever last read the status topic knows exactly the tracked
      goals, sixty-four at most, with their statuses as they are now. */
  lemma StatusAlwaysCurrent(events: seq<Event>)
    ensures var s := Run(events);
            && |s.goals| <= MaxGoals
            && (s.published.None? ==> s.goals == map[])
            && (s.published.Some? ==> s.published.value.Keys == s.goals.Keys)
            && (s.published.Some? ==> forall g | g in s.goals ::
                s.published.value[g] == (s.goals[g].status, s.goals[g].acceptedAt))
  {
    hide Run, DropsExplained, AnswersLatest, Remembered, NoneParkedOnResult, Conserved;
    RunKeeps(events);
  }

  // ----------------------------------------------------------------- canceling

  datatype GoalInfo = GoalInfo(goal: GoalId, stamp: Time)

  predicate Cancelable(goals: map<GoalId, Goal>, info: GoalInfo) {
    info.goal in goals && !IsTerminal(goals[info.goal].status) && info.stamp == goals[info.goal].acceptedAt
  }

  /** The goals a cancel request is told about: those not yet terminal, each once,
      in key order, with the time it was accepted. */
  ghost predicate CancelReport(goals: map<GoalId, Goal>, report: seq<GoalInfo>) {
    && (forall i, j | 0 <= i < j < |report| :: report[i].goal < report[j].goal)
    && (forall info :: info in report <==> Cancelable(goals, info))
  }

  /** Canceling moves exactly the reported goals, all of them to `Canceling`, and
      touches nothing else about them or about the others. */
  lemma CancelMovesReported(goals: map<GoalId, Goal>, report: seq<GoalInfo>, g: GoalId)
    requires CancelReport(goals, report) && g in goals
    ensures CancelAll(goals).Keys == goals.Keys
    ensures CancelAll(goals)[g] == goals[g].(status := CancelAll(goals)[g].status)
    ensures GoalInfo(g, goals[g].acceptedAt) in report ==> CancelAll(goals)[g].status == Canceling
    ensures GoalInfo(g, goals[g].acceptedAt) !in report
            ==> CancelAll(goals)[g] == goals[g] && IsTerminal(goals[g].status)
  {
    assert GoalInfo(g, goals[g].acceptedAt) in report <==> !IsTerminal(goals[g].status);
  }

  /** A second cancel request changes nothing and is told the same. */
  lemma CancelTwice(goals: map<GoalId, Goal>, first: seq<GoalInfo>, second: seq<GoalInfo>)
    requires CancelReport(goals, first) && CancelReport(CancelAll(goals), second)
    ensures CancelAll(CancelAll(goals)) == CancelAll(goals)
    ensures second == first
  {
    var after := CancelAll(goals);
    forall info ensures info in first <==> info in second {
      assert info in first <==> Cancelable(goals, info);
      assert info in second <==> Cancelable(after, info);
    }
    SortedReportsEqual(first, second);
  }

  lemma {:induction false} SortedReportsEqual(a: seq<GoalInfo>, b: seq<GoalInfo>)
    requires forall i, j | 0 <= i < j < |a| :: a[i].goal < a[j].goal
    requires forall i, j | 0 <= i < j < |b| :: b[i].goal < b[j].goal
    requires forall info :: info in a <==> info in b
    ensures a == b
  {
    assert (a != [] ==> a[0] in b) && (b != [] ==> b[0] in a);
    if a != [] && b != [] {
      assert a == [a[0]] + a[1..] && b == [b[0]] + b[1..];
      forall info ensures info in a[1..] <==> info in b[1..] {
        assert info in a <==> info in b;
      }
      SortedReportsEqual(a[1..], b[1..]);
    }
  }

  // ---------------------------------------------------------------- the endpoint

  class ActionEndpoint {
    var goals: map<GoalId, Goal>
    var published: Option<StatusArray>
    ghost var log: seq<Entry>

    /** The endpoint as the specification sees it. */
    ghost function Now(): State
      reads this
    {
      State(goals, log, published)
    }

    constructor ()
      ensures Now() == Opened
    {
      goals, published, log := map[], None, [];
    }

    method TrackGoal(id: GoalId, goal: Goal)
      modifies this
      ensures Now() == Track(old(Now()), id, goal)
    {
      if |goals| >= MaxGoals {
        var oldest := First(goals.Keys);
        log := Forget(Now(), oldest).log;
        goals := goals - {oldest};
      }
      if id in goals { log := Forget(Now(), id).log; }
      log := log + [Registered(id)];
      assert id in goals ==> (goals - {id})[id := goal] == goals[id := goal];
      goals := goals[id := goal];
    }

    method PublishStatus()
      modifies this`published
      ensures Now() == Publish(old(Now()))
    {
      published := Some(StatusOf(goals));
    }

    /** A `send_goal` request: the graph takes the goal, the caller is told yes. */
    method HandleGoalRequest(goal: Option<GoalId>, decodes: bool, now: Time) returns (sent: bool)
      modifies this
      ensures Now() == Step(old(Now()), GoalRequest(goal, decodes, now))
      ensures sent ==> goal.Some? && goal.value in goals && goals[goal.value] == NewGoal(now)
    {
      if goal.None? || !decodes { return false; }
      TrackGoal(goal.value, NewGoal(now));
      PublishStatus();
      return true;
    }

    /** A `get_result` request: answer it now, or park it. */
    method HandleResultRequest(query: Option<(Identity, GoalId)>) returns (answer: Option<Body>)
      modifies this
      ensures Now() == Step(old(Now()), ResultRequest(query))
      ensures answer.Some? <==> query.Some? && query.value.1 in goals && goals[query.value.1].result.Some?
      ensures answer.Some? ==> log[|log| - 1] == Answered(query.value.1, query.value.0, answer.value)
    {
      if query.None? { return None; }
      var (identity, id) := query.value;
      var ready := if id in goals then goals[id].result else None;
      match ready {
        case Some(body) =>
          log := log + [Asked(id, identity), Answered(id, identity, body)];
          return Some(body);
        case None =>
          if id in goals {
            log := log + [Asked(id, identity)];
            goals := goals[id := goals[id].(parked := goals[id].parked + [identity])];
          } else {
            log := log + [Asked(id, identity), Dropped(id, identity)];
          }
          return None;
      }
    }

    /** A `cancel_goal` request: every goal not yet terminal moves to `Canceling`. */
    method HandleCancelRequest(wellFormed: bool) returns (accepted: bool, canceling: seq<GoalInfo>)
      modifies this
      ensures Now() == Step(old(Now()), CancelRequest(wellFormed))
      ensures if wellFormed then CancelReport(old(goals), canceling) else canceling == []
      ensures accepted <==> canceling != []
    {
      canceling := [];
      if !wellFormed { return false, []; }
      ghost var before := goals;
      var rest := goals.Keys;
      while rest != {}
        invariant rest <= goals.Keys == before.Keys
        invariant forall g | g in goals :: goals[g] == if g in rest then before[g] else CancelOne(before[g])
        invariant Reported(before, rest, canceling)
        invariant log == old(log) && published == old(published)
        decreases rest
      {
        var id := First(rest);
        ReportNext(before, rest, id, canceling);
        rest := rest - {id};
        if IsTerminal(goals[id].status) { continue; }
        canceling := canceling + [GoalInfo(id, goals[id].acceptedAt)];
        goals := goals[id := goals[id].(status := Canceling)];
      }
      assert goals == CancelAll(before);
      accepted := canceling != [];
      PublishStatus();
    }

    /** The graph produced a goal's result: answer everyone who was waiting. */
    method ForwardResult(goal: Option<GoalId>, body: Option<Body>, status: Status) returns (answered: seq<Identity>)
      modifies this
      ensures Now() == Step(old(Now()), GraphResult(goal, body, status))
      ensures answered == if goal.Some? && body.Some? && goal.value in old(goals) then old(goals)[goal.value].parked
              else []
    {
      answered := [];
      if goal.None? || body.None? || goal.value !in goals { return; }
      var id := goal.value;
      var parked := goals[id].parked;
      goals := goals[id := goals[id].(status := status, result := body, parked := [])];
      log := log + [Produced(id, body.value)];
      ghost var before := log;
      for k := 0 to |parked|
        invariant goals == old(goals)[id := old(goals)[id].(status := status, result := body, parked := [])]
        invariant published == old(published)
        invariant answered == parked[..k]
        invariant log == before + AnswerAll(id, parked[..k], body.value)
      {
        answered := answered + [parked[k]];
        log := log + [Answered(id, parked[k], body.value)];
        assert AnswerAll(id, parked[..k + 1], body.value)
            == AnswerAll(id, parked[..k], body.value) + [Answered(id, parked[k], body.value)];
      }
      assert parked[..|parked|] == parked;
      PublishStatus();
    }
  }

  /** The report on the goals outside `rest`, all of which precede those in it. */
  ghost predicate Reported(goals: map<GoalId, Goal>, rest: set<GoalId>, report: seq<GoalInfo>) {
    && CancelReport(goals - rest, report)
    && forall g, h | g in goals && g !in rest && h in rest :: g < h
  }

  lemma ReportNext(goals: map<GoalId, Goal>, rest: set<GoalId>, id: GoalId, report: seq<GoalInfo>)
    requires rest <= goals.Keys && IsFirst(id, rest) && Reported(goals, rest, report)
    ensures Reported(goals, rest - {id},
                     if IsTerminal(goals[id].status) then report else report + [GoalInfo(id, goals[id].acceptedAt)])
  {
    var next := if IsTerminal(goals[id].status) then report else report + [GoalInfo(id, goals[id].acceptedAt)];
    forall i, j | 0 <= i < j < |next| ensures next[i].goal < next[j].goal {
      assert next[i] in report && (j < |report| || next[j].goal == id);
    }
    forall info ensures info in next <==> Cancelable(goals - (rest - {id}), info) {
      assert info in report <==> Cancelable(goals - rest, info);
      InSnoc(report, GoalInfo(id, goals[id].acceptedAt));
    }
  }
}
