/** Opening the endpoints of a plan, and finding the one a message is for. */
module Routing {
  import opened Wrappers
  import opened Counting
  import opened PortMatching
  import opened BridgePlan

  // ------------------------------------------------------- ports of one side

  function TopicAt(side: Side, id: string): TopicBridge -> bool {
    (t: TopicBridge) => TopicSide(t.direction) == side && t.port == id
  }

  /** The service's port on a side: where it asks or where it answers. */
  function ServicePort(side: Side, s: ServiceBridge): string {
    if AskingSide(s.role) == side then s.requestPort else s.responsePort
  }

  function ServiceAt(side: Side, id: string): ServiceBridge -> bool {
    (s: ServiceBridge) => ServicePort(side, s) == id
  }

  function PrimaryPort(side: Side, a: ActionBridge): string {
    if AskingSide(a.role) == side then a.goalPort else a.resultPort
  }

  function PrimaryAt(side: Side, id: string): ActionBridge -> bool {
    (a: ActionBridge) => PrimaryPort(side, a) == id
  }

  function FeedbackAt(side: Side, id: string): ActionBridge -> bool {
    (a: ActionBridge) => AskingSide(a.role) != side && a.feedbackPort == Some(id)
  }

  function GrantedAt(id: string): Claim -> bool {
    (c: Claim) => c.port == Some(id)
  }

  /** How often the plan uses port `id` of a side. */
  ghost function Uses(plan: Plan, side: Side, id: string): nat {
    CountIf(plan.topics, TopicAt(side, id)) + CountIf(plan.services, ServiceAt(side, id))
    + CountIf(plan.actions, PrimaryAt(side, id)) + CountIf(plan.actions, FeedbackAt(side, id))
  }

  lemma CountShort(own: seq<Claim>, p: Claim -> bool)
    ensures own == [] ==> CountIf(own, p) == 0
    ensures |own| == 1 ==> CountIf(own, p) == if p(own[0]) then 1 else 0
    ensures |own| == 2 ==> CountIf(own, p) == (if p(own[0]) then 1 else 0) + if p(own[1]) then 1 else 0
  {
    if |own| == 2 { CountSnoc(own[..1], own[1], p); assert own == own[..1] + [own[1]]; }
  }

  lemma UsesOfEntry(plan: Plan, e: Entry, outs: seq<Claim>, ins: seq<Claim>, side: Side, id: string)
    requires Granted(ClaimsOf(e, Output), outs) && Granted(ClaimsOf(e, Input), ins)
    ensures Uses(WithEntry(plan, e, outs, ins), side, id)
         == Uses(plan, side, id) + CountIf(if side == Output then outs else ins, GrantedAt(id))
  {
    hide PortCandidates, SanitizeRosName, CountIf;
    var after := WithEntry(plan, e, outs, ins);
    CountShort(if side == Output then outs else ins, GrantedAt(id));
    match e
    case Topic(_, _, _) =>
      CountSnoc(plan.topics, after.topics[|plan.topics|], TopicAt(side, id));
    case Service(_, _, _) =>
      CountSnoc(plan.services, after.services[|plan.services|], ServiceAt(side, id));
    case Action(_, _, _) =>
      CountSnoc(plan.actions, after.actions[|plan.actions|], PrimaryAt(side, id));
      CountSnoc(plan.actions, after.actions[|plan.actions|], FeedbackAt(side, id));
  }

  /** The plan uses each port exactly as often as it was granted to a claim. */
  lemma {:induction false} UsesCounted(entries: seq<Entry>, k: nat, outs: seq<Claim>, ins: seq<Claim>, side: Side,
                                       id: string)
    requires k <= |entries|
    requires Granted(AllClaims(entries, Output), outs) && Granted(AllClaims(entries, Input), ins)
    ensures var resolved := if side == Output then outs else ins;
            && |AllClaims(entries[..k], side)| <= |resolved|
            && Uses(PlanOf(entries, k, outs, ins), side, id)
            == CountIf(resolved[..|AllClaims(entries[..k], side)|], GrantedAt(id))
  {
    AllClaimsPrefix(entries, k, side);
    if k > 0 {
      UsesCounted(entries, k - 1, outs, ins, side, id);
      UsesStep(entries, k, outs, ins, side, id);
    }
  }

  lemma PlanStep(entries: seq<Entry>, k: nat, outs: seq<Claim>, ins: seq<Claim>)
    requires 0 < k <= |entries|
    requires Granted(AllClaims(entries, Output), outs) && Granted(AllClaims(entries, Input), ins)
    ensures PlanOf(entries, k, outs, ins) == WithEntry(PlanOf(entries, k - 1, outs, ins), entries[k - 1],
                                                       Own(entries, k - 1, Output, outs),
                                                       Own(entries, k - 1, Input, ins))
  {
    hide WithEntry, ClaimsOf, AllClaims, Granted, Own;
  }

  lemma UsesStep(entries: seq<Entry>, k: nat, outs: seq<Claim>, ins: seq<Claim>, side: Side, id: string)
    requires 0 < k <= |entries|
    requires Granted(AllClaims(entries, Output), outs) && Granted(AllClaims(entries, Input), ins)
    ensures var resolved := if side == Output then outs else ins;
            var before, after := |AllClaims(entries[..k - 1], side)|, |AllClaims(entries[..k], side)|;
            && before <= after <= |resolved|
            && Uses(PlanOf(entries, k, outs, ins), side, id) - Uses(PlanOf(entries, k - 1, outs, ins), side, id)
            == CountIf(resolved[..after], GrantedAt(id)) - CountIf(resolved[..before], GrantedAt(id))
  {
    hide WithEntry, ClaimsOf, CountIf, Uses, AllClaims, Granted, Own, PlanOf;
    PlanStep(entries, k, outs, ins);
    UsesOfEntry(PlanOf(entries, k - 1, outs, ins), entries[k - 1],
                Own(entries, k - 1, Output, outs), Own(entries, k - 1, Input, ins), side, id);
    GrantsStep(entries, k, side, if side == Output then outs else ins, id);
  }

  lemma GrantsStep(entries: seq<Entry>, k: nat, side: Side, resolved: seq<Claim>, id: string)
    requires 0 < k <= |entries| && Granted(AllClaims(entries, side), resolved)
    ensures var before, after := |AllClaims(entries[..k - 1], side)|, |AllClaims(entries[..k], side)|;
            && before <= after <= |resolved|
            && CountIf(resolved[..after], GrantedAt(id)) - CountIf(resolved[..before], GrantedAt(id))
            == CountIf(Own(entries, k - 1, side, resolved), GrantedAt(id))
  {
    hide ClaimsOf, CountIf, AllClaims, Granted, Own;
    var own, at := Own(entries, k - 1, side, resolved), |AllClaims(entries[..k - 1], side)|;
    OwnAtCursor(entries, k - 1, side, resolved);
    assert resolved[..|AllClaims(entries[..k], side)|] == resolved[..at] + own;
    CountAppend(resolved[..at], own, GrantedAt(id));
  }

  /** The ports of a planned bridge are pairwise distinct on each side whose
      declared names are. */
  lemma PortsUsedOnce(entries: seq<Entry>, outputs: seq<string>, inputs: seq<string>, plan: Plan, side: Side,
                      id: string)
    requires PlanSpec(entries, outputs, inputs, Planned(plan))
    requires multiset(if side == Output then outputs else inputs)[id] <= 1
    ensures Uses(plan, side, id) <= 1
  {
    hide ClaimsOf, WithEntry, AllClaims, PlanOf, Uses, CountIf, Resolution;
    var outs, o :| Resolution(multiset(outputs), "output", AllClaims(entries, Output), outs, o)
                   && if o.Refused? then Planned(plan) == Failed(o.error)
                      else InputSpec(entries, outs, inputs, Planned(plan));
    var ins, i :| Resolution(multiset(inputs), "input", AllClaims(entries, Input), ins, i)
                  && if i.Refused? then Planned(plan) == Failed(i.error)
                     else Granted(AllClaims(entries, Output), outs) && Granted(AllClaims(entries, Input), ins)
                          && Planned(plan) == Planned(PlanOf(entries, |entries|, outs, ins));
    UsesCounted(entries, |entries|, outs, ins, side, id);
    assert entries[..|entries|] == entries;
    if side == Output {
      GrantedOnce(multiset(outputs), "output", AllClaims(entries, Output), outs, o, id);
      assert outs[..|outs|] == outs;
    } else {
      GrantedOnce(multiset(inputs), "input", AllClaims(entries, Input), ins, i, id);
      assert ins[..|ins|] == ins;
    }
  }

  lemma GrantedOnce(declared: multiset<string>, direction: string, claims: seq<Claim>, resolved: seq<Claim>,
                    outcome: Outcome, id: string)
    requires Resolution(declared, direction, claims, resolved, outcome) && declared[id] <= 1
    ensures CountIf(resolved, GrantedAt(id)) <= 1
  {
    var ranks :| ResolvedBy(declared, direction, claims, ranks, resolved, outcome);
    forall i, j | 0 <= i < j < |resolved| ensures !(GrantedAt(id)(resolved[i]) && GrantedAt(id)(resolved[j])) {
      if resolved[i].port == Some(id) && resolved[j].port == Some(id) {
        SharedIsSecond(declared, direction, claims, ranks, resolved, outcome, i, j);
      }
    }
    CountsAtMostOne(resolved, GrantedAt(id));
  }

  // ------------------------------------------------------- opening endpoints

  datatype Slot =
    | TopicSlot(index: nat)
    | ServiceRequest(index: nat) | ServiceReply(index: nat)
    | ActionGoalRequest(index: nat) | ActionGoalReply(index: nat)
    | ActionCancelRequest(index: nat) | ActionCancelReply(index: nat)
    | ActionResultRequest(index: nat) | ActionResultReply(index: nat)
    | ActionFeedback(index: nat) | ActionStatus(index: nat)

  datatype Part = SendGoal | CancelGoal | GetResult | FeedbackTopic | StatusTopic

  /** What a DDS subscription was opened for. */
  datatype Subscription = OfTopic(topic: TopicBridge) | OfService(service: ServiceBridge)
    | OfAction(action: ActionBridge, part: Part)

  datatype Bridge = Bridge(
    inbound: seq<TopicBridge>, outbound: seq<TopicBridge>,
    services: seq<ServiceBridge>, actions: seq<ActionBridge>,
    pumps: seq<(Slot, Subscription)>)

  /** `slot` leads `handle_sample` to the endpoint `sub` was opened for, and to
      the handler of the right half of it. */
  predicate LeadsTo(b: Bridge, slot: Slot, sub: Subscription) {
    match slot
    case TopicSlot(i) => i < |b.inbound| && sub == OfTopic(b.inbound[i])
    case ServiceRequest(i) => i < |b.services| && b.services[i].role == Server && sub == OfService(b.services[i])
    case ServiceReply(i) => i < |b.services| && b.services[i].role == Client && sub == OfService(b.services[i])
    case ActionGoalRequest(i) => ActionHalf(b, i, Server, sub, SendGoal)
    case ActionGoalReply(i) => ActionHalf(b, i, Client, sub, SendGoal)
    case ActionCancelRequest(i) => ActionHalf(b, i, Server, sub, CancelGoal)
    case ActionCancelReply(i) => ActionHalf(b, i, Client, sub, CancelGoal)
    case ActionResultRequest(i) => ActionHalf(b, i, Server, sub, GetResult)
    case ActionResultReply(i) => ActionHalf(b, i, Client, sub, GetResult)
    case ActionFeedback(i) => ActionHalf(b, i, Client, sub, FeedbackTopic)
    case ActionStatus(i) => ActionHalf(b, i, Client, sub, StatusTopic)
  }

  predicate ActionHalf(b: Bridge, i: nat, role: Role, sub: Subscription, part: Part) {
    i < |b.actions| && b.actions[i].role == role && sub == OfAction(b.actions[i], part)
  }

  /** Every pump leads to its own endpoint, and no slot is pumped twice. */
  ghost predicate WellPumped(b: Bridge) {
    && (forall k | 0 <= k < |b.pumps| :: LeadsTo(b, b.pumps[k].0, b.pumps[k].1))
    && (forall k, l | 0 <= k < l < |b.pumps| :: b.pumps[k].0 != b.pumps[l].0)
  }

  /** No endpoint of the bridge is left without its pumps. */
  ghost predicate FullyPumped(b: Bridge) {
    forall slot, sub | LeadsTo(b, slot, sub) :: (slot, sub) in b.pumps
  }

  lemma AddedLead(b: Bridge, b': Bridge, added: seq<(Slot, Subscription)>, k: nat)
    requires WellPumped(b) && b'.pumps == b.pumps + added && k < |b'.pumps|
    requires forall slot, sub :: LeadsTo(b', slot, sub) <==> LeadsTo(b, slot, sub) || (slot, sub) in added
    ensures LeadsTo(b', b'.pumps[k].0, b'.pumps[k].1)
    ensures k < |b.pumps| ==> b'.pumps[k] == b.pumps[k] && LeadsTo(b, b.pumps[k].0, b.pumps[k].1)
    ensures k >= |b.pumps| ==> b'.pumps[k] == added[k - |b.pumps|]
  {
    hide LeadsTo;
    if k < |b.pumps| { assert LeadsTo(b, b.pumps[k].0, b.pumps[k].1); } else { assert b'.pumps[k] in added; }
  }

  lemma AddPumps(b: Bridge, b': Bridge, added: seq<(Slot, Subscription)>)
    requires WellPumped(b) && FullyPumped(b)
    requires b'.pumps == b.pumps + added
    requires forall k, l | 0 <= k < l < |added| :: added[k].0 != added[l].0
    requires forall slot, sub :: LeadsTo(b', slot, sub) <==> LeadsTo(b, slot, sub) || (slot, sub) in added
    requires forall k | 0 <= k < |added| :: forall sub :: !LeadsTo(b, added[k].0, sub)
    ensures WellPumped(b') && FullyPumped(b')
  {
    hide LeadsTo;
    forall k | 0 <= k < |b'.pumps| ensures LeadsTo(b', b'.pumps[k].0, b'.pumps[k].1) { AddedLead(b, b', added, k); }
    forall k, l | 0 <= k < l < |b'.pumps| ensures b'.pumps[k].0 != b'.pumps[l].0 {
      AddedLead(b, b', added, k);
      AddedLead(b, b', added, l);
    }
  }

  method OpenTopics(topics: seq<TopicBridge>) returns (b: Bridge)
    ensures WellPumped(b) && FullyPumped(b) && b.services == [] && b.actions == []
    ensures b.inbound == OfDirection(topics, ToAstrs) && b.outbound == OfDirection(topics, FromAstrs)
  {
    b := Bridge([], [], [], [], []);
    for k := 0 to |topics|
      invariant WellPumped(b) && FullyPumped(b) && b.services == [] && b.actions == []
      invariant b.inbound == OfDirection(topics[..k], ToAstrs) && b.outbound == OfDirection(topics[..k], FromAstrs)
    {
      var topic := topics[k];
      assert topics[..k + 1][..k] == topics[..k];
      match topic.direction
      case ToAstrs =>
        var slot, sub := TopicSlot(|b.inbound|), OfTopic(topic);
        ghost var before := b;
        b := b.(inbound := b.inbound + [topic], pumps := b.pumps + [(slot, sub)]);
        AddPumps(before, b, [(slot, sub)]);
      case FromAstrs =>
        ghost var before := b;
        b := b.(outbound := b.outbound + [topic]);
        assert forall s, t :: LeadsTo(b, s, t) <==> LeadsTo(before, s, t);
    }
    assert topics[..|topics|] == topics;
  }

  function OfDirection(topics: seq<TopicBridge>, direction: Direction): seq<TopicBridge> {
    if topics == [] then []
    else
      var last := topics[|topics| - 1];
      OfDirection(topics[..|topics| - 1], direction) + if last.direction == direction then [last] else []
  }

  method OpenServices(b0: Bridge, services: seq<ServiceBridge>) returns (b: Bridge)
    requires WellPumped(b0) && FullyPumped(b0) && b0.services == []
    ensures WellPumped(b) && FullyPumped(b) && b == b0.(services := services, pumps := b.pumps)
  {
    b := b0;
    for k := 0 to |services|
      invariant WellPumped(b) && FullyPumped(b) && b == b0.(services := services[..k], pumps := b.pumps)
    {
      var service := services[k];
      var slot := if service.role == Server then ServiceRequest(|b.services|) else ServiceReply(|b.services|);
      ghost var before := b;
      b := b.(services := b.services + [service], pumps := b.pumps + [(slot, OfService(service))]);
      AddPumps(before, b, [(slot, OfService(service))]);
    }
  }

  /** The subscriptions one action opens, with their slots. */
  function ActionPumps(a: ActionBridge, index: nat): seq<(Slot, Subscription)> {
    match a.role
    case Server =>
      [(ActionGoalRequest(index), OfAction(a, SendGoal)),
       (ActionCancelRequest(index), OfAction(a, CancelGoal)),
       (ActionResultRequest(index), OfAction(a, GetResult))]
    case Client =>
      [(ActionGoalReply(index), OfAction(a, SendGoal)),
       (ActionCancelReply(index), OfAction(a, CancelGoal)),
       (ActionResultReply(index), OfAction(a, GetResult)),
       (ActionFeedback(index), OfAction(a, FeedbackTopic)),
       (ActionStatus(index), OfAction(a, StatusTopic))]
  }

  lemma AddAction(b: Bridge, b': Bridge, a: ActionBridge)
    requires WellPumped(b) && FullyPumped(b)
    requires b' == b.(actions := b.actions + [a], pumps := b.pumps + ActionPumps(a, |b.actions|))
    ensures WellPumped(b') && FullyPumped(b')
  {
    hide ActionPumps, LeadsTo, WellPumped, FullyPumped;
    var added := ActionPumps(a, |b.actions|);
    forall slot, sub ensures LeadsTo(b', slot, sub) <==> LeadsTo(b, slot, sub) || (slot, sub) in added {
      NewLeads(b, b', a, slot, sub);
      PumpedIff(a, |b.actions|, slot, sub);
    }
    forall k, sub | 0 <= k < |added| ensures !LeadsTo(b, added[k].0, sub) {
      assert (added[k].0, added[k].1) in added;
      PumpedIff(a, |b.actions|, added[k].0, added[k].1);
      NewLeads(b, b', a, added[k].0, sub);
    }
    PumpsDistinct(a, |b.actions|);
    AddPumps(b, b', added);
  }

  /** The half of an action a slot stands for, if it stands for one. */
  function HalfOf(slot: Slot): Option<(Role, Part)> {
    match slot
    case TopicSlot(_) => None
    case ServiceRequest(_) => None
    case ServiceReply(_) => None
    case ActionGoalRequest(_) => Some((Server, SendGoal))
    case ActionGoalReply(_) => Some((Client, SendGoal))
    case ActionCancelRequest(_) => Some((Server, CancelGoal))
    case ActionCancelReply(_) => Some((Client, CancelGoal))
    case ActionResultRequest(_) => Some((Server, GetResult))
    case ActionResultReply(_) => Some((Client, GetResult))
    case ActionFeedback(_) => Some((Client, FeedbackTopic))
    case ActionStatus(_) => Some((Client, StatusTopic))
  }

  predicate IsHalf(a: ActionBridge, slot: Slot, sub: Subscription) {
    HalfOf(slot).Some? && HalfOf(slot).value.0 == a.role && sub == OfAction(a, HalfOf(slot).value.1)
  }

  lemma NewLeads(b: Bridge, b': Bridge, a: ActionBridge, slot: Slot, sub: Subscription)
    requires b' == b.(actions := b.actions + [a], pumps := b'.pumps)
    ensures LeadsTo(b', slot, sub) <==> LeadsTo(b, slot, sub) || (slot.index == |b.actions| && IsHalf(a, slot, sub))
    ensures HalfOf(slot).Some? && slot.index == |b.actions| ==> !LeadsTo(b, slot, sub)
  {}

  lemma PumpedIff(a: ActionBridge, index: nat, slot: Slot, sub: Subscription)
    ensures (slot, sub) in ActionPumps(a, index) <==> slot.index == index && IsHalf(a, slot, sub)
  {}

  lemma PumpsDistinct(a: ActionBridge, index: nat)
    ensures forall k, l | 0 <= k < l < |ActionPumps(a, index)| ::
            ActionPumps(a, index)[k].0 != ActionPumps(a, index)[l].0
  {}

  /** Create every endpoint the plan calls for, slot by slot. */
  method Start(plan: Plan) returns (b: Bridge)
    ensures b.inbound == OfDirection(plan.topics, ToAstrs) && b.outbound == OfDirection(plan.topics, FromAstrs)
    ensures b.services == plan.services && b.actions == plan.actions
    ensures WellPumped(b) && FullyPumped(b)
  {
    hide WellPumped, FullyPumped, OfDirection;
    b := OpenTopics(plan.topics);
    b := OpenServices(b, plan.services);
    assert plan.services == plan.services[..|plan.services|];
    for k := 0 to |plan.actions|
      invariant b.inbound == OfDirection(plan.topics, ToAstrs) && b.outbound == OfDirection(plan.topics, FromAstrs)
      invariant b.services == plan.services && b.actions == plan.actions[..k]
      invariant WellPumped(b) && FullyPumped(b)
    {
      ghost var before := b;
      b := b.(actions := b.actions + [plan.actions[k]], pumps := b.pumps + ActionPumps(plan.actions[k], |b.actions|));
      AddAction(before, b, plan.actions[k]);
    }
  }

  // ------------------------------------------------------------ input routing

  datatype Route = Outbound(index: nat) | ServiceInput(index: nat) | ActionPrimary(index: nat)
    | ActionFeedbackInput(index: nat)

  /** The lookups `handle_event` makes, each on its own list. */
  predicate Reaches(b: Bridge, route: Route, id: string) {
    match route
    case Outbound(i) => i < |b.outbound| && b.outbound[i].port == id
    case ServiceInput(i) => i < |b.services| && ServicePort(Input, b.services[i]) == id
    case ActionPrimary(i) => i < |b.actions| && PrimaryPort(Input, b.actions[i]) == id
    case ActionFeedbackInput(i) =>
      && i < |b.actions| && b.actions[i].role == Server
      && b.actions[i].feedbackPort == Some(id)
  }

  method Find<T>(s: seq<T>, p: T -> bool) returns (r: Option<nat>)
    ensures r.Some? ==> r.value < |s| && p(s[r.value])
    ensures r.None? ==> forall k | 0 <= k < |s| :: !p(s[k])
  {
    for i := 0 to |s|
      invariant forall k | 0 <= k < i :: !p(s[k])
    {
      if p(s[i]) { return Some(i); }
    }
    return None;
  }

  /** Four lookups, one after the other. */
  method Dispatch(b: Bridge, id: string) returns (r: Option<Route>)
    ensures r.Some? ==> Reaches(b, r.value, id)
    ensures r.None? ==> forall route :: !Reaches(b, route, id)
  {
    var topic := Find(b.outbound, (t: TopicBridge) => t.port == id);
    if topic.Some? { return Some(Outbound(topic.value)); }
    var service := Find(b.services, ServiceAt(Input, id));
    if service.Some? { return Some(ServiceInput(service.value)); }
    var primary := Find(b.actions, PrimaryAt(Input, id));
    if primary.Some? { return Some(ActionPrimary(primary.value)); }
    var feedback := Find(b.actions, FeedbackAt(Input, id));
    if feedback.Some? { return Some(ActionFeedbackInput(feedback.value)); }
    return None;
  }

  lemma {:induction false} CountOutbound(topics: seq<TopicBridge>, id: string)
    ensures CountIf(OfDirection(topics, FromAstrs), TopicAt(Input, id)) == CountIf(topics, TopicAt(Input, id))
  {
    if topics != [] {
      var init, last := topics[..|topics| - 1], topics[|topics| - 1];
      CountOutbound(init, id);
      CountsAlike(OfDirection(init, FromAstrs), init, last, TopicAt(Input, id), last.direction == FromAstrs);
      assert topics == init + [last];
    }
  }

  /** Leaving out what is not counted leaves the count. */
  lemma CountsAlike<T(!new)>(some: seq<T>, all: seq<T>, x: T, p: T -> bool, taken: bool)
    requires CountIf(some, p) == CountIf(all, p) && (p(x) ==> taken)
    ensures CountIf(some + if taken then [x] else [], p) == CountIf(all + [x], p)
  {
    CountSnoc(some, x, p);
    CountSnoc(all, x, p);
    assert some + [] == some;
  }

  lemma {:induction false} OutboundDirection(topics: seq<TopicBridge>, i: nat)
    requires i < |OfDirection(topics, FromAstrs)|
    ensures OfDirection(topics, FromAstrs)[i].direction == FromAstrs
  {
    if topics != [] && i < |OfDirection(topics[..|topics| - 1], FromAstrs)| {
      OutboundDirection(topics[..|topics| - 1], i);
    }
  }

  /** An input id reaches at most one endpoint, so the order of the four lookups
      is irrelevant. */
  lemma RoutingUnambiguous(plan: Plan, b: Bridge, id: string, r: Route, s: Route)
    requires Uses(plan, Input, id) <= 1
    requires b.outbound == OfDirection(plan.topics, FromAstrs) && b.services == plan.services
    requires b.actions == plan.actions
    requires Reaches(b, r, id) && Reaches(b, s, id)
    ensures r == s
  {
    hide CountIf;
    CountOutbound(plan.topics, id);
    ReachCounts(plan, b, id, r);
    ReachCounts(plan, b, id, s);
    if r.index < s.index { TwiceCounts(plan, b, id, r, s.index); }
    if s.index < r.index { TwiceCounts(plan, b, id, s, r.index); }
  }

  /** So for every bridge that was planned and opened, an input declared once
      leads to one endpoint at the most. */
  lemma PlannedRoutingUnambiguous(entries: seq<Entry>, outputs: seq<string>, inputs: seq<string>, plan: Plan,
                                  b: Bridge, id: string, r: Route, s: Route)
    requires PlanSpec(entries, outputs, inputs, Planned(plan)) && multiset(inputs)[id] <= 1
    requires b.outbound == OfDirection(plan.topics, FromAstrs) && b.services == plan.services
    requires b.actions == plan.actions
    requires Reaches(b, r, id) && Reaches(b, s, id)
    ensures r == s
  {
    hide PlanSpec, Uses, Reaches;
    PortsUsedOnce(entries, outputs, inputs, plan, Input, id);
    RoutingUnambiguous(plan, b, id, r, s);
  }

  ghost function CountOf(b: Bridge, r: Route, id: string): nat {
    match r
    case Outbound(_) => CountIf(b.outbound, TopicAt(Input, id))
    case ServiceInput(_) => CountIf(b.services, ServiceAt(Input, id))
    case ActionPrimary(_) => CountIf(b.actions, PrimaryAt(Input, id))
    case ActionFeedbackInput(_) => CountIf(b.actions, FeedbackAt(Input, id))
  }

  lemma ReachCounts(plan: Plan, b: Bridge, id: string, r: Route)
    requires b.outbound == OfDirection(plan.topics, FromAstrs) && Reaches(b, r, id)
    ensures CountOf(b, r, id) >= 1
  {
    match r
    case Outbound(i) => OutboundDirection(plan.topics, i); CountsOne(b.outbound, TopicAt(Input, id), i);
    case ServiceInput(i) => CountsOne(b.services, ServiceAt(Input, id), i);
    case ActionPrimary(i) => CountsOne(b.actions, PrimaryAt(Input, id), i);
    case ActionFeedbackInput(i) => CountsOne(b.actions, FeedbackAt(Input, id), i);
  }

  lemma TwiceCounts(plan: Plan, b: Bridge, id: string, r: Route, j: nat)
    requires b.outbound == OfDirection(plan.topics, FromAstrs)
    requires r.index < j && Reaches(b, r, id) && Reaches(b, r.(index := j), id)
    ensures CountOf(b, r, id) >= 2
  {
    match r
    case Outbound(i) =>
      OutboundDirection(plan.topics, i);
      OutboundDirection(plan.topics, j);
      CountsTwo(b.outbound, TopicAt(Input, id), i, j);
    case ServiceInput(i) => CountsTwo(b.services, ServiceAt(Input, id), i, j);
    case ActionPrimary(i) => CountsTwo(b.actions, PrimaryAt(Input, id), i, j);
    case ActionFeedbackInput(i) => CountsTwo(b.actions, FeedbackAt(Input, id), i, j);
  }
}
