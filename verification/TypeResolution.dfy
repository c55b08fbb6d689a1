/** Binding every interface type a plan needs before anything is opened. */
module TypeResolution {
  import opened Wrappers
  import opened Collections
  import opened BridgePlan

  function RequestTypeName(serviceType: string): string { serviceType + "_Request" }

  function ResponseTypeName(serviceType: string): string { serviceType + "_Response" }

  function ActionEndpointTypeName(actionType: string, suffix: string): string { actionType + "_" + suffix }

  const ActionWireSuffixes: seq<string> :=
    ["SendGoal_Request", "SendGoal_Response", "GetResult_Request", "GetResult_Response", "FeedbackMessage"]

  const CancelGoalService := "action_msgs/srv/CancelGoal"

  const GoalStatusArray := "action_msgs/msg/GoalStatusArray"

  function ServiceTypes(s: ServiceBridge): seq<string> {
    [RequestTypeName(s.serviceType), ResponseTypeName(s.serviceType)]
  }

  function ActionTypes(a: ActionBridge): seq<string> {
    seq(|ActionWireSuffixes|,
        i requires 0 <= i < |ActionWireSuffixes| => ActionEndpointTypeName(a.actionType, ActionWireSuffixes[i]))
    + [RequestTypeName(CancelGoalService), ResponseTypeName(CancelGoalService), GoalStatusArray]
  }

  /** Everything opening the plan will look up. */
  ghost predicate Needed(plan: Plan, name: string) {
    || (exists t | t in plan.topics :: t.messageType == name)
    || (exists s | s in plan.services :: name in ServiceTypes(s))
    || (exists a | a in plan.actions :: name in ActionTypes(a))
  }

  /** `bindings` holds what `lookup` finds, for the names of `needed` and no others. */
  ghost predicate Binds<B(!new)>(bindings: map<string, B>, lookup: string -> Option<B>, needed: string -> bool) {
    && (forall n :: n in bindings <==> needed(n))
    && (forall n | n in bindings :: lookup(n) == Some(bindings[n]))
  }

  /** Bind names in order, each at most once; the first unknown one is the error. */
  method BindAll<B>(bindings: map<string, B>, lookup: string -> Option<B>, names: seq<string>)
    returns (r: Result<map<string, B>, string>)
    requires forall n | n in bindings :: lookup(n) == Some(bindings[n])
    ensures r.Ok? ==> r.value.Keys == bindings.Keys + Elements(names)
                      && forall n | n in r.value :: lookup(n) == Some(r.value[n])
    ensures r.Err? ==> r.error in names && lookup(r.error).None?
  {
    var bound := bindings;
    for i := 0 to |names|
      invariant bound.Keys == bindings.Keys + Elements(names[..i])
      invariant forall n | n in bound :: lookup(n) == Some(bound[n])
    {
      assert names[..i + 1] == names[..i] + [names[i]];
      if names[i] !in bound {
        var found := lookup(names[i]);
        if found.None? { return Err(names[i]); }
        bound := bound[names[i] := found.value];
      }
    }
    assert names[..|names|] == names;
    return Ok(bound);
  }

  ghost function NeededBy(plan: Plan): string -> bool {
    n => Needed(plan, n)
  }

  function Flatten(parts: seq<seq<string>>): seq<string> {
    if parts == [] then [] else parts[0] + Flatten(parts[1..])
  }

  lemma {:induction false} InFlatten(parts: seq<seq<string>>, n: string)
    ensures n in Flatten(parts) <==> exists i | 0 <= i < |parts| :: n in parts[i]
  {
    if parts != [] {
      InFlatten(parts[1..], n);
      if i :| 0 <= i < |parts| && n in parts[i] { assert i > 0 ==> parts[1..][i - 1] == parts[i]; }
      if n in Flatten(parts[1..]) { var i :| 0 <= i < |parts| - 1 && n in parts[1..][i]; assert n in parts[i + 1]; }
    }
  }

  function TopicTypes(topics: seq<TopicBridge>): seq<string> {
    seq(|topics|, i requires 0 <= i < |topics| => topics[i].messageType)
  }

  function TypesOfServices(services: seq<ServiceBridge>): seq<seq<string>> {
    seq(|services|, i requires 0 <= i < |services| => ServiceTypes(services[i]))
  }

  function TypesOfActions(actions: seq<ActionBridge>): seq<seq<string>> {
    seq(|actions|, i requires 0 <= i < |actions| => ActionTypes(actions[i]))
  }

  /** Every type name in the order it is bound: topics, services, actions. */
  function AllTypes(plan: Plan): seq<string> {
    TopicTypes(plan.topics) + Flatten(TypesOfServices(plan.services)) + Flatten(TypesOfActions(plan.actions))
  }

  lemma TopicsNeed(topics: seq<TopicBridge>, n: string)
    ensures n in TopicTypes(topics) <==> exists t | t in topics :: t.messageType == n
  {
    if t :| t in topics && t.messageType == n {
      var i :| 0 <= i < |topics| && topics[i] == t;
      assert TopicTypes(topics)[i] == n;
    }
  }

  lemma ServicesNeed(services: seq<ServiceBridge>, n: string)
    ensures n in Flatten(TypesOfServices(services)) <==> exists s | s in services :: n in ServiceTypes(s)
  {
    hide ServiceTypes, Flatten;
    InFlatten(TypesOfServices(services), n);
    if s :| s in services && n in ServiceTypes(s) {
      var i :| 0 <= i < |services| && services[i] == s;
      assert n in TypesOfServices(services)[i];
    }
  }

  lemma ActionsNeed(actions: seq<ActionBridge>, n: string)
    ensures n in Flatten(TypesOfActions(actions)) <==> exists a | a in actions :: n in ActionTypes(a)
  {
    hide ActionTypes, Flatten;
    InFlatten(TypesOfActions(actions), n);
    if a :| a in actions && n in ActionTypes(a) {
      var i :| 0 <= i < |actions| && actions[i] == a;
      assert n in TypesOfActions(actions)[i];
    }
  }

  lemma AllTypesNeeded(plan: Plan, n: string)
    ensures n in AllTypes(plan) <==> Needed(plan, n)
  {
    hide ServiceTypes, ActionTypes, Flatten, TopicTypes, TypesOfServices, TypesOfActions;
    TopicsNeed(plan.topics, n);
    ServicesNeed(plan.services, n);
    ActionsNeed(plan.actions, n);
  }

  /** `lookup` stands for the generated registry and the search path. */
  method ResolvePlan<B(!new)>(plan: Plan, lookup: string -> Option<B>) returns (r: Result<map<string, B>, string>)
    ensures r.Ok? <==> forall n | Needed(plan, n) :: lookup(n).Some?
    ensures r.Ok? ==> Binds(r.value, lookup, NeededBy(plan))
    ensures r.Err? ==> Needed(plan, r.error) && lookup(r.error).None?
  {
    hide Needed, AllTypes;
    r := BindAll(map[], lookup, AllTypes(plan));
    forall n ensures n in AllTypes(plan) <==> Needed(plan, n) { AllTypesNeeded(plan, n); }
  }

  /** After a successful resolution no lookup made while opening topics,
      services and actions can miss. */
  lemma EveryOpenFindsItsTypes<B(!new)>(plan: Plan, lookup: string -> Option<B>, bindings: map<string, B>)
    requires Binds(bindings, lookup, NeededBy(plan))
    ensures forall t | t in plan.topics :: t.messageType in bindings
    ensures forall s | s in plan.services ::
            RequestTypeName(s.serviceType) in bindings && ResponseTypeName(s.serviceType) in bindings
    ensures forall a, suffix | a in plan.actions && suffix in ActionWireSuffixes ::
            ActionEndpointTypeName(a.actionType, suffix) in bindings
    ensures plan.actions != [] ==>
              && RequestTypeName(CancelGoalService) in bindings && ResponseTypeName(CancelGoalService) in bindings
              && GoalStatusArray in bindings
  {
    forall s | s in plan.services
      ensures RequestTypeName(s.serviceType) in bindings && ResponseTypeName(s.serviceType) in bindings
    {
      assert ServiceTypes(s)[0] in ServiceTypes(s) && ServiceTypes(s)[1] in ServiceTypes(s);
      assert Needed(plan, RequestTypeName(s.serviceType)) && Needed(plan, ResponseTypeName(s.serviceType));
    }
    forall a, suffix | a in plan.actions && suffix in ActionWireSuffixes
      ensures ActionEndpointTypeName(a.actionType, suffix) in bindings
    {
      var i :| 0 <= i < |ActionWireSuffixes| && ActionWireSuffixes[i] == suffix;
      assert ActionTypes(a)[i] == ActionEndpointTypeName(a.actionType, suffix);
      assert Needed(plan, ActionEndpointTypeName(a.actionType, suffix));
    }
    forall t | t in plan.topics ensures t.messageType in bindings { assert Needed(plan, t.messageType); }
    if plan.actions != [] {
      var a := plan.actions[0];
      assert ActionTypes(a)[5] == RequestTypeName(CancelGoalService)
          && ActionTypes(a)[6] == ResponseTypeName(CancelGoalService)
          && ActionTypes(a)[7] == GoalStatusArray;
      assert Needed(plan, RequestTypeName(CancelGoalService)) && Needed(plan, ResponseTypeName(CancelGoalService))
          && Needed(plan, GoalStatusArray);
    }
  }

  /** The binding map depends on what is bridged, not on the order of entries. */
  lemma EntryOrderIrrelevant<B(!new)>(p: Plan, q: Plan, lookup: string -> Option<B>, b: map<string, B>, c: map<string,
                                      B>)
    requires multiset(p.topics) == multiset(q.topics) && multiset(p.services) == multiset(q.services)
    requires multiset(p.actions) == multiset(q.actions)
    requires Binds(b, lookup, NeededBy(p)) && Binds(c, lookup, NeededBy(q))
    ensures b == c
  {
    assert forall t :: t in p.topics <==> t in multiset(p.topics);
    assert forall t :: t in q.topics <==> t in multiset(q.topics);
    assert forall s :: s in p.services <==> s in multiset(p.services);
    assert forall s :: s in q.services <==> s in multiset(q.services);
    assert forall a :: a in p.actions <==> a in multiset(p.actions);
    assert forall a :: a in q.actions <==> a in multiset(q.actions);
    forall n ensures Needed(p, n) <==> Needed(q, n) {}
    forall n | n in b ensures n in c && b[n] == c[n] { assert lookup(n) == Some(b[n]); }
  }

  // ---------------------------------------------------------- derived names

  /** The suffixes the generators append, in the order they are tried. */
  function DerivedSuffix(j: nat): (suffix: string)
    requires j < 8
    ensures suffix != []
  {
    ["_SendGoal_Request", "_SendGoal_Response", "_GetResult_Request", "_GetResult_Response",
     "_FeedbackMessage", "_Feedback", "_Request", "_Response"][j]
  }

  datatype InterfaceKind = Msg | Srv | ActionKind

  predicate EndsWith(name: string, suffix: string) {
    |suffix| <= |name| && name[|name| - |suffix|..] == suffix
  }

  /** Suffix `j` fits and leaves a stem. */
  predicate Fits(typeName: string, j: nat)
    requires j < 8
  {
    EndsWith(typeName, DerivedSuffix(j)) && |DerivedSuffix(j)| < |typeName|
  }

  /** The first listed suffix, from `j` on, that leaves a stem. */
  function SplitFrom(typeName: string, j: nat): (string, Option<string>)
    requires j <= 8
    decreases 8 - j
  {
    if j == 8 then (typeName, None)
    else if Fits(typeName, j)
    then (typeName[..|typeName| - |DerivedSuffix(j)|], Some(DerivedSuffix(j)))
    else SplitFrom(typeName, j + 1)
  }

  function SplitDerived(typeName: string, kind: InterfaceKind): (string, Option<string>) {
    if kind == Msg then (typeName, None) else SplitFrom(typeName, 0)
  }

  /** What an action suffix has in front of `_Request` or `_Response`. */
  function Service(j: nat): string {
    if j < 2 then "_SendGoal" else "_GetResult"
  }

  /** The stem itself ends like a goal or result service, so a suffix listed
      before `_Request` or `_Response` fits too. */
  predicate Ambiguous(stem: string, k: nat) {
    k >= 6 && exists j | j in {k - 6, k - 4} :: EndsWith(stem, Service(j)) && |stem| > |Service(j)|
  }

  lemma {:induction false} SkipTo(typeName: string, j: nat, k: nat)
    requires j <= k < 8
    requires forall i | j <= i < k :: !Fits(typeName, i)
    ensures SplitFrom(typeName, j) == SplitFrom(typeName, k)
    decreases k - j
  {
    if j < k { SkipTo(typeName, j + 1, k); }
  }

  /** Two names that end in different characters `d` from the end. */
  lemma EndsDiffer(name: string, suffix: string, other: string, d: nat)
    requires EndsWith(name, suffix) && 0 < d <= |suffix| && d <= |other|
    requires suffix[|suffix| - d] != other[|other| - d]
    ensures !EndsWith(name, other)
  {
    assert name[|name| - |suffix|..][|suffix| - d] == name[|name| - d];
    assert |other| <= |name| ==> name[|name| - |other|..][|other| - d] == name[|name| - d];
  }

  /** Where the end of each listed suffix first differs from a later one, or 0
      when the later one is an ending of it. */
  function DiffersAt(j: nat, k: nat): nat
    requires j < k < 8
  {
    var response := {1, 3, 7};
    if (k == 6 && j in {0, 2}) || (k == 7 && j in {1, 3}) then 0
    else if j == 0 && k == 2 then 9
    else if j == 1 && k == 3 then 10
    else if (j in response && k == 4) || (j == 4 && k in response) then 2
    else 1
  }

  lemma SuffixesDistinct(j: nat, k: nat)
    requires j < k < 8
    ensures DerivedSuffix(j) != DerivedSuffix(k)
  {
    DiffersAtSound(j, k);
  }

  lemma DiffersAtSound(j: nat, k: nat)
    requires j < k < 8
    ensures var d, s, t := DiffersAt(j, k), DerivedSuffix(j), DerivedSuffix(k);
            if d == 0 then s == Service(j) + t && j in {k - 6, k - 4}
            else d <= |s| && d <= |t| && s[|s| - d] != t[|t| - d]
    ensures DiffersAt(j, k) == 0 <==> k >= 6 && j in {k - 6, k - 4}
  {}

  /** An earlier suffix fits `stem + suffix` exactly on the ambiguous stems. */
  lemma EarlierFits(stem: string, j: nat, k: nat)
    requires j < k < 8
    ensures Fits(stem + DerivedSuffix(k), j) <==>
              k >= 6 && j in {k - 6, k - 4} && EndsWith(stem, Service(j)) && |stem| > |Service(j)|
  {
    hide Service, DerivedSuffix, DiffersAt, EndsWith;
    DiffersAtSound(j, k);
    SuffixFits(stem, DerivedSuffix(j), DerivedSuffix(k), Service(j), DiffersAt(j, k));
  }

  /** Whether `s` fits `stem + t`, where it differs from `t` at `d` from the end, or
      for 0 goes on before it with `rest`. */
  lemma SuffixFits(stem: string, s: string, t: string, rest: string, d: nat)
    requires if d == 0 then s == rest + t else d <= |s| && d <= |t| && s[|s| - d] != t[|t| - d]
    ensures EndsWith(stem + t, s) && |s| < |stem + t| <==> d == 0 && EndsWith(stem, rest) && |stem| > |rest|
  {
    hide EndsWith;
    EndsWithOwn(stem, t);
    if d == 0 { LongerFits(stem, rest, t); } else { EndsDiffer(stem + t, t, s, d); }
  }

  lemma EndsWithOwn(stem: string, suffix: string)
    ensures EndsWith(stem + suffix, suffix)
  {
    assert (stem + suffix)[|stem|..] == suffix;
  }

  /** A name ends in a longer suffix exactly when its stem ends in what that adds. */
  lemma LongerFits(stem: string, rest: string, suffix: string)
    ensures EndsWith(stem + suffix, rest + suffix) <==> EndsWith(stem, rest)
  {
    var name := stem + suffix;
    if |rest| <= |stem| {
      var end := stem[|stem| - |rest|..];
      assert name[|name| - |rest + suffix|..] == end + suffix;
      assert (end + suffix)[..|rest|] == end && (rest + suffix)[..|rest|] == rest;
    }
  }

  /** A derived name splits back into its stem and suffix exactly when the stem
      does not itself end like a goal or result service. */
  lemma SplitDerivedRecovers(stem: string, k: nat, kind: InterfaceKind)
    requires stem != [] && k < 8 && kind != Msg
    ensures SplitDerived(stem + DerivedSuffix(k), kind) == (stem, Some(DerivedSuffix(k))) <==> !Ambiguous(stem, k)
  {
    hide Service, DerivedSuffix;
    var name := stem + DerivedSuffix(k);
    forall j | 0 <= j < k
      ensures Fits(name, j) <==> k >= 6 && j in {k - 6, k - 4} && EndsWith(stem, Service(j)) && |stem| > |Service(j)|
    {
      EarlierFits(stem, j, k);
    }
    if Ambiguous(stem, k) {
      var j :| j in {k - 6, k - 4} && EndsWith(stem, Service(j)) && |stem| > |Service(j)|;
      FirstFit(name, 0, j);
      forall i | 0 <= i < k ensures DerivedSuffix(i) != DerivedSuffix(k) { SuffixesDistinct(i, k); }
    } else {
      SkipTo(name, 0, k);
      assert name[|name| - |DerivedSuffix(k)|..] == DerivedSuffix(k) && name[..|stem|] == stem;
    }
  }

  lemma {:induction false} FirstFit(name: string, from: nat, j: nat)
    requires from <= j < 8 && Fits(name, j)
    ensures exists i | from <= i <= j :: SplitFrom(name, from).1 == Some(DerivedSuffix(i))
    decreases j - from
  {
    if !Fits(name, from) { FirstFit(name, from + 1, j); }
  }

  /** So every underscore-free stem survives, which ROS type names are. */
  lemma PlainStemsRecover(stem: string, k: nat, kind: InterfaceKind)
    requires stem != [] && '_' !in stem && k < 8 && kind != Msg
    ensures SplitDerived(stem + DerivedSuffix(k), kind) == (stem, Some(DerivedSuffix(k)))
  {
    SplitDerivedRecovers(stem, k, kind);
    forall j: nat ensures !EndsWith(stem, Service(j)) { FirstCharInside(stem, Service(j)); }
  }

  lemma FirstCharInside(name: string, suffix: string)
    requires suffix != []
    ensures EndsWith(name, suffix) ==> suffix[0] in name
  {
    if EndsWith(name, suffix) { assert name[|name| - |suffix|..][0] == name[|name| - |suffix|]; }
  }
}
