/** One bridged service: a bounded correlation table between `request_id`
    metadata on the graph side and request identities on the DDS side. */
module ServiceProtocol {
  import opened Wrappers
  import opened NameOrder
  import opened Correlation
  import opened BridgePlan

  const MaxPending := 64

  /** The table and counter of an endpoint, with everything it has done so far. */
  datatype State = State(
    role: Role,
    guid: Guid,
    pending: map<string, Identity>,
    nextSequence: int,
    forwarded: seq<Identity>,             // server: requests handed to the graph
    replied: seq<Identity>,               // server: replies published
    minted: seq<(string, Identity)>,      // client: requests correlated
    emitted: seq<(string, Identity)>,     // client: responses handed to the graph
    failed: nat,                          // correlations used up by a message that could not be passed on
    forgotten: int)                       // correlations evicted or overwritten

  function Opened(role: Role, guid: Guid): State {
    State(role, guid, map[], 1, [], [], [], [], 0, 0)
  }

  /** What can reach an endpoint. Malformed samples carry no identity; whether a
      body decodes, encodes and takes a header is not up to the bridge. */
  datatype Event =
    | RequestSample(identity: Option<Identity>, decodes: bool)
    | ReplySample(identity: Option<Identity>, decodes: bool)
    | GraphMessage(requestId: Option<string>, publishes: bool)

  // ---------------------------------------------------------------- the steps

  /** The table with room for one more correlation. */
  function MakeRoom(pending: map<string, Identity>): map<string, Identity> {
    if |pending| >= MaxPending then pending - {Least(pending.Keys)} else pending
  }

  function Remember(pending: map<string, Identity>, requestId: string, identity: Identity): map<string, Identity> {
    MakeRoom(pending)[requestId := identity]
  }

  function ForwardRequest(s: State, identity: Option<Identity>, decodes: bool, render: Identity -> string): State {
    if identity.None? || !decodes then s
    else s.(pending := Remember(s.pending, render(identity.value), identity.value),
            forwarded := s.forwarded + [identity.value],
            forgotten := s.forgotten + Displaced(s.pending, render(identity.value)))
  }

  /** How many correlations remembering one under this `request_id` displaces. */
  function Displaced(pending: map<string, Identity>, requestId: string): int {
    |pending| - |MakeRoom(pending)| + if requestId in MakeRoom(pending) then 1 else 0
  }

  function Holders(pending: map<string, Identity>, identity: Identity): set<string> {
    set r | r in pending && pending[r] == identity
  }

  function ForwardReply(s: State, identity: Option<Identity>, decodes: bool): State {
    if identity.None? || identity.value.writer != s.guid || Holders(s.pending, identity.value) == {} then s
    else
      var requestId := Least(Holders(s.pending, identity.value));
      var consumed := s.(pending := s.pending - {requestId});
      if decodes then consumed.(emitted := s.emitted + [(requestId, identity.value)])
      else consumed.(failed := s.failed + 1)
  }

  /** A response that cannot be encoded or framed has used its correlation up. */
  function ForwardResponse(s: State, requestId: Option<string>, publishes: bool): State {
    if requestId.None? || requestId.value !in s.pending then s
    else
      var taken := s.(pending := s.pending - {requestId.value});
      if publishes then taken.(replied := s.replied + [s.pending[requestId.value]]) else taken.(failed := s.failed + 1)
  }

  /** A request is correlated before it is known whether it can be sent. */
  function ForwardOwnRequest(s: State, requestId: Option<string>, render: Identity -> string): State {
    var identity := Identity(s.guid, s.nextSequence);
    var name := if requestId.Some? then requestId.value else render(identity);
    s.(nextSequence := Advance(s.nextSequence),
       pending := Remember(s.pending, name, identity),
       minted := s.minted + [(name, identity)],
       forgotten := s.forgotten + Displaced(s.pending, name))
  }

  function Step(s: State, e: Event, render: Identity -> string): State {
    match (s.role, e)
    case (Server, RequestSample(identity, decodes)) => ForwardRequest(s, identity, decodes, render)
    case (Client, ReplySample(identity, decodes)) => ForwardReply(s, identity, decodes)
    case (Server, GraphMessage(requestId, publishes)) => ForwardResponse(s, requestId, publishes)
    case (Client, GraphMessage(requestId, _)) => ForwardOwnRequest(s, requestId, render)
    case _ => s
  }

  function Run(s: State, events: seq<Event>, render: Identity -> string): State {
    if events == [] then s
    else Step(Run(s, events[..|events| - 1], render), events[|events| - 1], render)
  }

  // ----------------------------------------------------------- the invariants

  ghost function InFlight(s: State, render: Identity -> string, id: Identity): nat {
    if render(id) in s.pending && s.pending[render(id)] == id then 1 else 0
  }

  /** Replies already published and the one still owed never exceed the requests
      forwarded, identity by identity; and every request is accounted for. */
  ghost predicate ServerInv(s: State, render: Identity -> string) {
    && |s.pending| <= MaxPending
    && |s.forwarded| == |s.replied| + |s.pending| + s.failed + s.forgotten && s.forgotten >= 0
    && (forall r | r in s.pending :: r == render(s.pending[r]))
    && (forall id :: multiset(s.replied)[id] + InFlight(s, render, id) <= multiset(s.forwarded)[id])
  }

  /** The counter has not saturated yet. */
  predicate Unsaturated(s: State) {
    |s.minted| <= I64Max
  }

  ghost predicate ClientInv(s: State) {
    && |s.pending| <= MaxPending
    && Numbered(s)
    && Known(s)
    && |s.minted| == |s.pending| + |s.emitted| + s.failed + s.forgotten && s.forgotten >= 0
    && (Unsaturated(s) ==> Matched(s))
  }

  ghost predicate Numbered(s: State) {
    && s.nextSequence == Counter(|s.minted|)
    && forall k | 0 <= k < |s.minted| :: s.minted[k].1 == Minted(s.guid, k)
  }

  /** Only correlations that were minted are pending or were answered. */
  ghost predicate Known(s: State) {
    && (forall r | r in s.pending :: (r, s.pending[r]) in s.minted)
    && (forall p | p in s.emitted :: p in s.minted)
  }

  /** Every identity is in flight under one `request_id` at most, or has been
      answered once. */
  ghost predicate Matched(s: State) {
    && (forall r, t | r in s.pending && t in s.pending && s.pending[r] == s.pending[t] :: r == t)
    && (forall p, r | p in s.emitted && r in s.pending :: s.pending[r] != p.1)
    && (forall i, j | 0 <= i < j < |s.emitted| :: s.emitted[i].1 != s.emitted[j].1)
  }

  ghost predicate Inv(s: State, render: Identity -> string) {
    if s.role == Server then ServerInv(s, render) else ClientInv(s)
  }

  lemma RoomSize(pending: map<string, Identity>)
    requires |pending| <= MaxPending
    ensures |MakeRoom(pending)| < MaxPending && |MakeRoom(pending)| <= |pending|
    ensures forall r | r in MakeRoom(pending) :: r in pending && MakeRoom(pending)[r] == pending[r]
  {
    if |pending| >= MaxPending { SizeAfterRemove(pending, Least(pending.Keys)); }
  }

  lemma RequestKeeps(s: State, identity: Identity, render: Identity -> string)
    requires ServerInv(s, render)
    ensures ServerInv(ForwardRequest(s, Some(identity), true, render), render)
  {
    hide MakeRoom;
    var t := ForwardRequest(s, Some(identity), true, render);
    RoomSize(s.pending);
    SizeAfterInsert(MakeRoom(s.pending), render(identity), identity);
    forall id ensures multiset(t.replied)[id] + InFlight(t, render, id) <= multiset(t.forwarded)[id] {
      assert multiset(s.replied)[id] + InFlight(s, render, id) <= multiset(s.forwarded)[id];
      assert multiset(t.forwarded)[id] == multiset(s.forwarded)[id] + if id == identity then 1 else 0;
    }
  }

  lemma ResponseKeeps(s: State, requestId: string, publishes: bool, render: Identity -> string)
    requires ServerInv(s, render) && requestId in s.pending
    ensures ServerInv(ForwardResponse(s, Some(requestId), publishes), render)
  {
    var t, identity := ForwardResponse(s, Some(requestId), publishes), s.pending[requestId];
    SizeAfterRemove(s.pending, requestId);
    forall id ensures multiset(t.replied)[id] + InFlight(t, render, id) <= multiset(t.forwarded)[id] {
      assert multiset(s.replied)[id] + InFlight(s, render, id) <= multiset(s.forwarded)[id];
      assert publishes ==> multiset(t.replied)[id] == multiset(s.replied)[id] + if id == identity then 1 else 0;
    }
  }

  /** A freshly minted identity is not in flight and has not been answered. */
  lemma MintIsNew(s: State)
    requires ClientInv(s) && |s.minted| < I64Max
    ensures forall p | p in s.minted :: p.1 != Identity(s.guid, s.nextSequence)
  {
    forall p | p in s.minted ensures p.1 != Identity(s.guid, s.nextSequence) {
      var k :| 0 <= k < |s.minted| && s.minted[k] == p;
      assert p.1 == Minted(s.guid, k);
    }
  }

  lemma OwnRequestKeeps(s: State, requestId: Option<string>, render: Identity -> string)
    requires ClientInv(s)
    ensures ClientInv(ForwardOwnRequest(s, requestId, render))
  {
    hide MakeRoom, Matched, Numbered, Known;
    var t := ForwardOwnRequest(s, requestId, render);
    var identity := Identity(s.guid, s.nextSequence);
    var name := if requestId.Some? then requestId.value else render(identity);
    RoomSize(s.pending);
    SizeAfterInsert(MakeRoom(s.pending), name, identity);
    OwnRequestKnown(s, t, MakeRoom(s.pending), name);
    if Unsaturated(t) { OwnRequestMatched(s, t, MakeRoom(s.pending), name); }
  }

  lemma OwnRequestKnown(s: State, t: State, room: map<string, Identity>, name: string)
    requires Numbered(s) && Known(s)
    requires forall r | r in room :: r in s.pending && room[r] == s.pending[r]
    requires var identity := Identity(s.guid, s.nextSequence);
             t == s.(nextSequence := Advance(s.nextSequence), pending := room[name := identity],
                     minted := s.minted + [(name, identity)], forgotten := t.forgotten)
    ensures Numbered(t) && Known(t)
  {
    CounterAdvances(|s.minted|);
    InSnoc(s.minted, (name, Identity(s.guid, s.nextSequence)));
  }

  lemma OwnRequestMatched(s: State, t: State, room: map<string, Identity>, name: string)
    requires ClientInv(s) && |s.minted| < I64Max
    requires forall r | r in room :: r in s.pending && room[r] == s.pending[r]
    requires t.pending == room[name := Identity(s.guid, s.nextSequence)] && t.emitted == s.emitted
    ensures Matched(t)
  {
    MintIsNew(s);
  }

  lemma ReplyKeeps(s: State, identity: Identity, decodes: bool)
    requires ClientInv(s)
    ensures ClientInv(ForwardReply(s, Some(identity), decodes))
  {
    hide Matched;
    var t := ForwardReply(s, Some(identity), decodes);
    if identity.writer == s.guid && Holders(s.pending, identity) != {} {
      var requestId := Least(Holders(s.pending, identity));
      SizeAfterRemove(s.pending, requestId);
      assert s.pending[requestId] == identity;
      InSnoc(s.emitted, (requestId, identity));
      if Unsaturated(t) { ReplyMatched(s, t, requestId); }
    }
  }

  lemma ReplyMatched(s: State, t: State, requestId: string)
    requires Matched(s) && requestId in s.pending && t.pending == s.pending - {requestId}
    requires t.emitted == s.emitted || t.emitted == s.emitted + [(requestId, s.pending[requestId])]
    ensures Matched(t)
  {
    InSnoc(s.emitted, (requestId, s.pending[requestId]));
  }

  lemma StepKeeps(s: State, e: Event, render: Identity -> string)
    requires Inv(s, render)
    ensures Inv(Step(s, e, render), render) && Step(s, e, render).role == s.role && Step(s, e, render).guid == s.guid
  {
    hide ServerInv, ClientInv;
    match e
    case RequestSample(identity, decodes) =>
      if s.role == Server && identity.Some? && decodes { RequestKeeps(s, identity.value, render); }
    case ReplySample(identity, decodes) =>
      if s.role == Client && identity.Some? { ReplyKeeps(s, identity.value, decodes); }
    case GraphMessage(requestId, publishes) =>
      if s.role == Client { OwnRequestKeeps(s, requestId, render); }
      else if requestId.Some? && requestId.value in s.pending { ResponseKeeps(s, requestId.value, publishes, render); }
  }

  /** Over every run, however samples and graph messages interleave. */
  lemma {:induction false} RunKeeps(role: Role, guid: Guid, events: seq<Event>, render: Identity -> string)
    ensures var s := Run(Opened(role, guid), events, render);
            Inv(s, render) && s.role == role && s.guid == guid
  {
    if events != [] {
      RunKeeps(role, guid, events[..|events| - 1], render);
      StepKeeps(Run(Opened(role, guid), events[..|events| - 1], render), events[|events| - 1], render);
    }
  }

  /** A server never publishes more replies for an identity than requests it
      forwarded with it, and remembers at most sixty-four of them; every request is
      answered, still owed a reply, answered in vain or forgotten. */
  lemma ServerNeverOverAnswers(guid: Guid, events: seq<Event>, render: Identity -> string)
    ensures var s := Run(Opened(Server, guid), events, render);
            && |s.pending| <= MaxPending && multiset(s.replied) <= multiset(s.forwarded)
            && |s.forwarded| == |s.replied| + |s.pending| + s.failed + s.forgotten
  {
    RunKeeps(Server, guid, events, render);
    var s := Run(Opened(Server, guid), events, render);
    forall id ensures multiset(s.replied)[id] <= multiset(s.forwarded)[id] {
      assert multiset(s.replied)[id] + InFlight(s, render, id) <= multiset(s.forwarded)[id];
    }
  }

  /** Until the counter saturates, every request a client minted is answered at
      most once, under its own `request_id`; and every one is in flight,
      answered, matched but undecodable, or forgotten. */
  lemma ClientAnswersOnce(guid: Guid, events: seq<Event>, render: Identity -> string)
    ensures var s := Run(Opened(Client, guid), events, render);
            && |s.pending| <= MaxPending
            && (forall p | p in s.emitted :: p in s.minted)
            && |s.minted| == |s.pending| + |s.emitted| + s.failed + s.forgotten
            && (|s.minted| <= I64Max ==> forall i, j | 0 <= i < j < |s.emitted| :: s.emitted[i].1 != s.emitted[j].1)
  {
    RunKeeps(Client, guid, events, render);
  }

  /** Another client's reply, on the shared reply topic, changes nothing. */
  lemma ForeignReplyIgnored(guid: Guid, events: seq<Event>, render: Identity -> string, identity: Identity,
                            decodes: bool)
    requires identity.writer != guid
    ensures Run(Opened(Client, guid), events + [ReplySample(Some(identity), decodes)], render)
            == Run(Opened(Client, guid), events, render)
  {
    var e := ReplySample(Some(identity), decodes);
    assert (events + [e])[..|events|] == events;
    RunKeeps(Client, guid, events, render);
  }

  // ---------------------------------------------------------------- the endpoint

  class ServiceEndpoint {
    const role: Role
    const clientGuid: Guid
    const render: Identity -> string
    var pending: map<string, Identity>
    var nextSequence: int
    ghost var past: State

    /** The endpoint as the specification sees it. */
    ghost function Now(): State
      reads this
    {
      past.(role := role, guid := clientGuid, pending := pending, nextSequence := nextSequence)
    }

    constructor (role: Role, clientGuid: Guid, render: Identity -> string)
      ensures Now() == Opened(role, clientGuid) && this.role == role && this.render == render
    {
      this.role, this.clientGuid, this.render := role, clientGuid, render;
      pending, nextSequence := map[], 1;
      past := Opened(role, clientGuid);
    }

    /** Remember one correlation, evicting the first key if the table is full. */
    method RememberPair(requestId: string, identity: Identity)
      modifies this`pending
      ensures pending == Remember(old(pending), requestId, identity)
    {
      if |pending| >= MaxPending {
        var oldest := Least(pending.Keys);
        pending := pending - {oldest};
      }
      pending := pending[requestId := identity];
    }

    method Mint() returns (identity: Identity)
      modifies this`nextSequence
      ensures identity == Identity(clientGuid, old(nextSequence)) && nextSequence == Advance(old(nextSequence))
    {
      identity := Identity(clientGuid, nextSequence);
      nextSequence := if nextSequence < I64Max then nextSequence + 1 else nextSequence;
    }

    /** The first `request_id`, in table order, that holds `identity`. */
    method FindHolder(identity: Identity) returns (r: Option<string>)
      ensures r.None? <==> Holders(pending, identity) == {}
      ensures r.Some? ==> r.value == Least(Holders(pending, identity))
    {
      var rest := pending.Keys;
      while rest != {}
        invariant Holders(pending, identity) <= rest <= pending.Keys
        decreases rest
      {
        var requestId := Least(rest);
        if pending[requestId] == identity {
          assert requestId in Holders(pending, identity);
          LeastUnique(Holders(pending, identity), requestId, Least(Holders(pending, identity)));
          return Some(requestId);
        }
        rest := rest - {requestId};
      }
      return None;
    }

    /** A request sample reached a server: hand it to the graph, then remember
        whom to answer. */
    method ForwardRequest(identity: Option<Identity>, decodes: bool) returns (sent: bool)
      requires role == Server
      modifies this
      ensures Now() == Step(old(Now()), RequestSample(identity, decodes), render)
      ensures sent <==> identity.Some? && decodes
    {
      if identity.None? || !decodes { return false; }
      past := past.(forwarded := past.forwarded + [identity.value],
                    forgotten := past.forgotten + Displaced(pending, render(identity.value)));
      RememberPair(render(identity.value), identity.value);
      return true;
    }

    /** A reply sample reached a client: match it and hand it to the graph. */
    method ForwardReply(identity: Option<Identity>, decodes: bool) returns (emitted: Option<string>)
      requires role == Client
      modifies this
      ensures Now() == Step(old(Now()), ReplySample(identity, decodes), render)
      ensures emitted.Some? ==> identity.Some?
                                && Now().emitted == old(Now()).emitted + [(emitted.value, identity.value)]
      ensures emitted.None? ==> Now().emitted == old(Now()).emitted
    {
      if identity.None? || identity.value.writer != clientGuid { return None; }
      var requestId := FindHolder(identity.value);
      if requestId.None? { return None; }
      pending := pending - {requestId.value};
      if !decodes {
        past := past.(failed := past.failed + 1);
        return None;
      }
      past := past.(emitted := past.emitted + [(requestId.value, identity.value)]);
      return requestId;
    }

    /** A graph message: a server's response, or a client's request. */
    method ForwardOutbound(requestId: Option<string>, publishes: bool) returns (published: Option<Identity>)
      modifies this
      ensures Now() == Step(old(Now()), GraphMessage(requestId, publishes), render)
      ensures published.Some? ==> publishes
      ensures role == Server && published.Some? ==> Now().replied == old(Now()).replied + [published.value]
      ensures role == Client && publishes ==> published == Some(Now().minted[|Now().minted| - 1].1)
    {
      var identity: Identity;
      match role {
        case Server =>
          if requestId.None? || requestId.value !in pending { return None; }
          identity := pending[requestId.value];
          pending := pending - {requestId.value};
          past := if publishes then past.(replied := past.replied + [identity]) else past.(failed := past.failed + 1);
        case Client =>
          identity := Mint();
          var name := if requestId.Some? then requestId.value else render(identity);
          past := past.(minted := past.minted + [(name, identity)],
                        forgotten := past.forgotten + Displaced(pending, name));
          RememberPair(name, identity);
      }
      return if publishes then Some(identity) else None;
    }
  }
}
