/** From the entries of a `ros2:` block to endpoints with every port decided. */
module BridgePlan {
  import opened Wrappers
  import opened PortMatching
  import opened PortPool

  datatype Direction = ToAstrs | FromAstrs
  datatype Role = Server | Client

  datatype Entry =
    | Topic(topic: string, messageType: string, direction: Direction)
    | Service(service: string, serviceType: string, role: Role)
    | Action(action: string, actionType: string, role: Role)

  datatype TopicBridge = TopicBridge(topic: string, messageType: string, direction: Direction, port: string)

  datatype ServiceBridge = ServiceBridge(service: string, serviceType: string, role: Role,
                                         requestPort: string, responsePort: string)

  datatype ActionBridge = ActionBridge(action: string, actionType: string, role: Role,
                                       goalPort: string, resultPort: string, feedbackPort: Option<string>)

  datatype Plan = Plan(topics: seq<TopicBridge>, services: seq<ServiceBridge>, actions: seq<ActionBridge>)

  // --------------------------------------------------------- candidate names

  predicate PortChar(c: char) {
    'a' <= c <= 'z' || 'A' <= c <= 'Z' || '0' <= c <= '9' || c == '_' || c == '.'
  }

  function TrimStart(name: string): string {
    if name != [] && name[0] == '/' then TrimStart(name[1..]) else name
  }

  function TrimEnd(name: string): string {
    if name != [] && name[|name| - 1] == '/' then TrimEnd(name[..|name| - 1]) else name
  }

  /** What follows the last slash. */
  function AfterSlash(name: string): string {
    if name == [] || name[|name| - 1] == '/' then [] else AfterSlash(name[..|name| - 1]) + [name[|name| - 1]]
  }

  /** A ROS name as a port name: no leading slash, anything illegal an underscore. */
  function SanitizeRosName(name: string): (port: string)
    ensures port != [] && forall i | 0 <= i < |port| :: PortChar(port[i])
  {
    var trimmed := TrimStart(name);
    if trimmed == [] then "port"
    else seq(|trimmed|, i requires 0 <= i < |trimmed| => if PortChar(trimmed[i]) then trimmed[i] else '_')
  }

  function LastSegment(name: string): string {
    SanitizeRosName(AfterSlash(TrimEnd(name)))
  }

  function PushNew(names: seq<string>, name: string): seq<string> {
    if name in names then names else names + [name]
  }

  /** The names one claim accepts, most specific first. */
  function PortCandidates(rosName: string, extra: seq<string>): seq<string> {
    PushNew(PushNew(extra, SanitizeRosName(rosName)), LastSegment(rosName))
  }

  // ------------------------------------------------------------------ claims

  datatype Side = Output | Input

  /** The side requests and goals travel on. */
  function AskingSide(role: Role): Side {
    if role == Server then Output else Input
  }

  function TopicSide(direction: Direction): Side {
    if direction == ToAstrs then Output else Input
  }

  /** What an entry claims on one side, in the order it registers. */
  function ClaimsOf(e: Entry, side: Side): seq<Claim> {
    match e
    case Topic(topic, _, direction) =>
      if side == TopicSide(direction) then [Claim("topic " + topic, PortCandidates(topic, []), true, None)] else []
    case Service(service, _, role) =>
      var base := SanitizeRosName(service);
      if side == AskingSide(role)
      then [Claim("service " + service + " (request)", PortCandidates(service, [base + "_request", "request"]), true,
                  None)]
      else [Claim("service " + service + " (response)", PortCandidates(service, [base + "_response", "response"]), true,
                  None)]
    case Action(action, _, role) =>
      var base := SanitizeRosName(action);
      if side == AskingSide(role)
      then [Claim("action " + action + " (goal)", PortCandidates(action, [base + "_goal", "goal"]), true, None)]
      else [Claim("action " + action + " (result)", PortCandidates(action, [base + "_result", "result"]), true, None),
            Claim("action " + action + " (feedback)", [base + "_feedback", "feedback"], false, None)]
  }

  function AllClaims(entries: seq<Entry>, side: Side): (claims: seq<Claim>)
    ensures Unassigned(claims)
  {
    if entries == [] then []
    else AllClaims(entries[..|entries| - 1], side) + ClaimsOf(entries[|entries| - 1], side)
  }

  lemma AllClaimsSnoc(entries: seq<Entry>, k: nat, side: Side)
    requires k < |entries|
    ensures AllClaims(entries[..k + 1], side) == AllClaims(entries[..k], side) + ClaimsOf(entries[k], side)
  {
    assert entries[..k + 1][..k] == entries[..k];
  }

  // --------------------------------------------------------------- read back

  /** `resolved` carries the assignments for `claims`, none of a required claim missing. */
  ghost predicate Granted(claims: seq<Claim>, resolved: seq<Claim>) {
    && |resolved| == |claims|
    && forall i | 0 <= i < |claims| ::
         resolved[i].required == claims[i].required && (resolved[i].required ==> resolved[i].port.Some?)
  }

  /** The endpoint of one entry, from the ports granted to its own claims. */
  ghost function WithEntry(plan: Plan, e: Entry, outs: seq<Claim>, ins: seq<Claim>): Plan
    requires Granted(ClaimsOf(e, Output), outs) && Granted(ClaimsOf(e, Input), ins)
  {
    match e
    case Topic(topic, messageType, direction) =>
      var own := if TopicSide(direction) == Output then outs else ins;
      plan.(topics := plan.topics + [TopicBridge(topic, messageType, direction, own[0].port.value)])
    case Service(service, serviceType, role) =>
      var (asks, answers) := if AskingSide(role) == Output then (outs, ins) else (ins, outs);
      plan.(services := plan.services
            + [ServiceBridge(service, serviceType, role, asks[0].port.value, answers[0].port.value)])
    case Action(action, actionType, role) =>
      var (asks, answers) := if AskingSide(role) == Output then (outs, ins) else (ins, outs);
      plan.(actions := plan.actions
            + [ActionBridge(action, actionType, role, asks[0].port.value, answers[0].port.value, answers[1].port)])
  }

  /** The part of `resolved` that belongs to entry `k`. */
  ghost function Own(entries: seq<Entry>, k: nat, side: Side, resolved: seq<Claim>): (own: seq<Claim>)
    requires k < |entries| && Granted(AllClaims(entries, side), resolved)
    ensures Granted(ClaimsOf(entries[k], side), own)
  {
    AllClaimsSnoc(entries, k, side);
    AllClaimsPrefix(entries, k + 1, side);
    resolved[|AllClaims(entries[..k], side)|..|AllClaims(entries[..k + 1], side)|]
  }

  lemma {:induction false} AllClaimsPrefix(entries: seq<Entry>, k: nat, side: Side)
    requires k <= |entries|
    ensures AllClaims(entries[..k], side) <= AllClaims(entries, side)
    decreases |entries| - k
  {
    if k < |entries| {
      AllClaimsSnoc(entries, k, side);
      AllClaimsPrefix(entries, k + 1, side);
    } else {
      assert entries[..k] == entries;
    }
  }

  /** The plan of the first `k` entries: each endpoint gets the ports granted to
      the claims its own entry registered. */
  ghost function PlanOf(entries: seq<Entry>, k: nat, outs: seq<Claim>, ins: seq<Claim>): Plan
    requires k <= |entries|
    requires Granted(AllClaims(entries, Output), outs) && Granted(AllClaims(entries, Input), ins)
  {
    if k == 0 then Plan([], [], [])
    else WithEntry(PlanOf(entries, k - 1, outs, ins), entries[k - 1],
                   Own(entries, k - 1, Output, outs), Own(entries, k - 1, Input, ins))
  }

  // ------------------------------------------------------------- the two passes

  method RegisterEntry(e: Entry, outputs: PortPool, inputs: PortPool)
    requires outputs != inputs
    modifies outputs`claims, inputs`claims
    ensures outputs.claims == old(outputs.claims) + ClaimsOf(e, Output)
    ensures inputs.claims == old(inputs.claims) + ClaimsOf(e, Input)
  {
    match e
    case Topic(topic, _, direction) =>
      var pool := if direction == ToAstrs then outputs else inputs;
      pool.Register("topic " + topic, PortCandidates(topic, []), true);
    case Service(service, _, role) =>
      var base := SanitizeRosName(service);
      var requestPool := if role == Server then outputs else inputs;
      var responsePool := if role == Server then inputs else outputs;
      requestPool.Register("service " + service + " (request)", PortCandidates(service, [base + "_request", "request"]),
                           true);
      responsePool.Register("service " + service + " (response)",
                            PortCandidates(service, [base + "_response", "response"]), true);
    case Action(action, _, role) =>
      var base := SanitizeRosName(action);
      var goalPool, backPool := if role == Server then outputs else inputs, if role == Server then inputs else outputs;
      goalPool.Register("action " + action + " (goal)", PortCandidates(action, [base + "_goal", "goal"]), true);
      backPool.Register("action " + action + " (result)", PortCandidates(action, [base + "_result", "result"]), true);
      backPool.Register("action " + action + " (feedback)", [base + "_feedback", "feedback"], false);
  }

  /** `own` is what lies at the pool's cursor. */
  ghost predicate AtCursor(pool: PortPool, own: seq<Claim>)
    reads pool
  {
    pool.cursor + |own| <= |pool.claims| && pool.claims[pool.cursor..pool.cursor + |own|] == own
  }

  /** What lies at the cursor lies there claim by claim. */
  lemma ClaimsAtCursor(pool: PortPool, own: seq<Claim>)
    requires AtCursor(pool, own)
    ensures pool.cursor + |own| <= |pool.claims|
    ensures forall i | 0 <= i < |own| :: pool.claims[pool.cursor + i] == own[i]
  {}

  method ReadTopic(plan: Plan, e: Entry, outputs: PortPool, inputs: PortPool, ghost outs: seq<Claim>,
                   ghost ins: seq<Claim>)
    returns (r: Result<Plan, PlanError>)
    requires e.Topic? && outputs != inputs && AtCursor(outputs, outs) && AtCursor(inputs, ins)
    requires Granted(ClaimsOf(e, Output), outs) && Granted(ClaimsOf(e, Input), ins)
    modifies outputs`cursor, inputs`cursor
    ensures r == Ok(WithEntry(plan, e, outs, ins))
    ensures outputs.cursor == old(outputs.cursor) + |outs| && inputs.cursor == old(inputs.cursor) + |ins|
  {
    hide PortCandidates, SanitizeRosName, AtCursor;
    ClaimsAtCursor(outputs, outs);
    ClaimsAtCursor(inputs, ins);
    var pool := if e.direction == ToAstrs then outputs else inputs;
    var port := pool.Take();
    match port
    case Err(error) => return Err(error);
    case Ok(id) => return Ok(plan.(topics := plan.topics + [TopicBridge(e.topic, e.messageType, e.direction, id)]));
  }

  method ReadService(plan: Plan, e: Entry, outputs: PortPool, inputs: PortPool, ghost outs: seq<Claim>,
                     ghost ins: seq<Claim>)
    returns (r: Result<Plan, PlanError>)
    requires e.Service? && outputs != inputs && AtCursor(outputs, outs) && AtCursor(inputs, ins)
    requires Granted(ClaimsOf(e, Output), outs) && Granted(ClaimsOf(e, Input), ins)
    modifies outputs`cursor, inputs`cursor
    ensures r == Ok(WithEntry(plan, e, outs, ins))
    ensures outputs.cursor == old(outputs.cursor) + |outs| && inputs.cursor == old(inputs.cursor) + |ins|
  {
    hide PortCandidates, SanitizeRosName, AtCursor;
    ClaimsAtCursor(outputs, outs);
    ClaimsAtCursor(inputs, ins);
    var requestPool, responsePool := inputs, outputs;
    if e.role == Server { requestPool, responsePool := outputs, inputs; }
    var request := requestPool.Take();
    match request
    case Err(error) => return Err(error);
    case Ok(asking) =>
      var response := responsePool.Take();
      match response
      case Err(error) => return Err(error);
      case Ok(answering) =>
        var service := ServiceBridge(e.service, e.serviceType, e.role, asking, answering);
        return Ok(plan.(services := plan.services + [service]));
  }

  method ReadAction(plan: Plan, e: Entry, outputs: PortPool, inputs: PortPool, ghost outs: seq<Claim>,
                    ghost ins: seq<Claim>)
    returns (r: Result<Plan, PlanError>)
    requires e.Action? && outputs != inputs && AtCursor(outputs, outs) && AtCursor(inputs, ins)
    requires Granted(ClaimsOf(e, Output), outs) && Granted(ClaimsOf(e, Input), ins)
    modifies outputs`cursor, inputs`cursor
    ensures r == Ok(WithEntry(plan, e, outs, ins))
    ensures outputs.cursor == old(outputs.cursor) + |outs| && inputs.cursor == old(inputs.cursor) + |ins|
  {
    hide PortCandidates, SanitizeRosName, AtCursor;
    ClaimsAtCursor(outputs, outs);
    ClaimsAtCursor(inputs, ins);
    var goalPool, backPool := inputs, outputs;
    if e.role == Server { goalPool, backPool := outputs, inputs; }
    var goal := goalPool.Take();
    match goal
    case Err(error) => return Err(error);
    case Ok(asking) =>
      var result := backPool.Take();
      match result
      case Err(error) => return Err(error);
      case Ok(answering) =>
        var feedback := backPool.TakeOptional();
        var action := ActionBridge(e.action, e.actionType, e.role, asking, answering, feedback);
        return Ok(plan.(actions := plan.actions + [action]));
  }

  method ReadEntry(plan: Plan, e: Entry, outputs: PortPool, inputs: PortPool, ghost outs: seq<Claim>,
                   ghost ins: seq<Claim>)
    returns (r: Result<Plan, PlanError>)
    requires outputs != inputs && AtCursor(outputs, outs) && AtCursor(inputs, ins)
    requires Granted(ClaimsOf(e, Output), outs) && Granted(ClaimsOf(e, Input), ins)
    modifies outputs`cursor, inputs`cursor
    ensures r == Ok(WithEntry(plan, e, outs, ins))
    ensures outputs.cursor == old(outputs.cursor) + |outs| && inputs.cursor == old(inputs.cursor) + |ins|
  {
    hide WithEntry, Granted, ClaimsOf, AtCursor;
    match e
    case Topic(_, _, _) => r := ReadTopic(plan, e, outputs, inputs, outs, ins);
    case Service(_, _, _) => r := ReadService(plan, e, outputs, inputs, outs, ins);
    case Action(_, _, _) => r := ReadAction(plan, e, outputs, inputs, outs, ins);
  }

  datatype PlanResult = Planned(plan: Plan) | Empty | Failed(error: PlanError)

  /** What planning answers: each side's claims resolve, the outputs first, and
      only then are the assignments read back. */
  ghost predicate PlanSpec(entries: seq<Entry>, outputs: seq<string>, inputs: seq<string>, r: PlanResult) {
    if entries == [] then r == Empty
    else exists outs, o ::
           && Resolution(multiset(outputs), "output", AllClaims(entries, Output), outs, o)
           && if o.Refused? then r == Failed(o.error) else InputSpec(entries, outs, inputs, r)
  }

  ghost predicate InputSpec(entries: seq<Entry>, outs: seq<Claim>, inputs: seq<string>, r: PlanResult) {
    exists ins, i ::
      && Resolution(multiset(inputs), "input", AllClaims(entries, Input), ins, i)
      && if i.Refused? then r == Failed(i.error)
         else
           && Granted(AllClaims(entries, Output), outs)
           && Granted(AllClaims(entries, Input), ins)
           && r == Planned(PlanOf(entries, |entries|, outs, ins))
  }

  lemma ResolvedIsGranted(declared: multiset<string>, direction: string, claims: seq<Claim>, resolved: seq<Claim>)
    requires Resolution(declared, direction, claims, resolved, Resolved)
    ensures Granted(claims, resolved)
  {
    var ranks :| ResolvedBy(declared, direction, claims, ranks, resolved, Resolved);
  }

  method RegisterAll(entries: seq<Entry>, outputs: PortPool, inputs: PortPool)
    requires outputs != inputs && outputs.claims == inputs.claims == []
    modifies outputs`claims, inputs`claims
    ensures outputs.claims == AllClaims(entries, Output) && inputs.claims == AllClaims(entries, Input)
  {
    hide ClaimsOf;
    for k := 0 to |entries|
      invariant outputs.claims == AllClaims(entries[..k], Output) && inputs.claims == AllClaims(entries[..k], Input)
    {
      RegisterEntry(entries[k], outputs, inputs);
      AllClaimsSnoc(entries, k, Output);
      AllClaimsSnoc(entries, k, Input);
    }
    assert entries[..|entries|] == entries;
  }

  /** Read the assignments back in the order the claims were made: no read
      fails, and each finds its own entry's claim under the cursor. */
  method ReadAll(entries: seq<Entry>, outputs: PortPool, inputs: PortPool) returns (r: Result<Plan, PlanError>)
    requires outputs != inputs && outputs.cursor == inputs.cursor == 0
    requires Granted(AllClaims(entries, Output), outputs.claims) && Granted(AllClaims(entries, Input), inputs.claims)
    modifies outputs`cursor, inputs`cursor
    ensures r == Ok(PlanOf(entries, |entries|, old(outputs.claims), old(inputs.claims)))
  {
    hide ClaimsOf, WithEntry, Granted;
    ghost var outs, ins := outputs.claims, inputs.claims;
    var plan := Plan([], [], []);
    for k := 0 to |entries|
      invariant outputs.claims == outs && inputs.claims == ins
      invariant outputs.cursor == |AllClaims(entries[..k], Output)| && inputs.cursor == |AllClaims(entries[..k], Input)|
      invariant plan == PlanOf(entries, k, outs, ins)
    {
      OwnAtCursor(entries, k, Output, outs);
      OwnAtCursor(entries, k, Input, ins);
      r := ReadEntry(plan, entries[k], outputs, inputs, Own(entries, k, Output, outs), Own(entries, k, Input, ins));
      plan := r.value;
    }
    return Ok(plan);
  }

  lemma OwnAtCursor(entries: seq<Entry>, k: nat, side: Side, resolved: seq<Claim>)
    requires k < |entries| && Granted(AllClaims(entries, side), resolved)
    ensures var at := |AllClaims(entries[..k], side)|;
            && at + |Own(entries, k, side, resolved)| == |AllClaims(entries[..k + 1], side)| <= |resolved|
            && resolved[at..at + |Own(entries, k, side, resolved)|] == Own(entries, k, side, resolved)
  {
    AllClaimsSnoc(entries, k, side);
    AllClaimsPrefix(entries, k + 1, side);
    hide AllClaims, ClaimsOf;
  }

  method MakePlan(entries: seq<Entry>, outputPorts: seq<string>, inputPorts: seq<string>) returns (r: PlanResult)
    ensures PlanSpec(entries, outputPorts, inputPorts, r)
  {
    hide ClaimsOf;
    var outputs := new PortPool("output", outputPorts);
    var inputs := new PortPool("input", inputPorts);
    if entries == [] { return Empty; }
    RegisterAll(entries, outputs, inputs);
    var o := outputs.Resolve();
    if o.Refused? { return Failed(o.error); }
    var i := inputs.Resolve();
    ghost var outs, ins := outputs.claims, inputs.claims;
    if i.Refused? {
      assert InputSpec(entries, outs, inputPorts, Failed(i.error));
      return Failed(i.error);
    }
    ResolvedIsGranted(multiset(outputPorts), "output", AllClaims(entries, Output), outs);
    ResolvedIsGranted(multiset(inputPorts), "input", AllClaims(entries, Input), ins);
    var plan := ReadAll(entries, outputs, inputs);
    assert InputSpec(entries, outs, inputPorts, Planned(plan.value));
    return Planned(plan.value);
  }
}
