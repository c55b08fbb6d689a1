# Verified models of AstRS

AstRS is a robotics runtime in Rust. This project models, in Dafny, the parts of it
whose correctness rests on arguments over many steps or over every input, and proves
those arguments.

**Publishing and layering** (`NameOrder`, `DependencyGraph`, `Workspace`,
`LayerLint`). The publish order of the workspace is Kahn's algorithm with ties broken
alphabetically; the layer lint is a depth-first cycle search per layer plus a check of
every edge's direction. The two meet in one theorem: a clean lint guarantees that the
publish order exists.

**Planning and routing of the ROS 2 bridge** (`PortMatching`, `PortPool`,
`BridgePlan`, `Routing`, `TypeResolution`). Ports are claimed, matched by name rank by
rank, then by elimination, and read back through a cursor. `PortMatching` states which
port each claim gets without mentioning the algorithm; `PortPool` is the algorithm.

**Request and goal correlation** (`Correlation`, `Counting`, `ServiceProtocol`,
`ActionServer`, `ActionClient`, `GoalIdText`). Each protocol is a state machine driven
by any interleaving of samples and graph messages, with everything it has done on
record; a class with the same tables refines it handler by handler. Whether a body
decodes, encodes or can be framed comes from outside, as part of the event.

**Wire formats** (`Snapshot`, `Align`, `Cdr`, `CdrRoundTrip`, `CdrCanonical`,
`CdrStreams`, `CdrMessage`). The append-only check of protocol snapshots, from text to
verdict; alignment arithmetic on bit masks; and CDR, section 15.3 of CORBA 3.0, with
its second version, section 7.4.3 of OMG DDS-XTypes 1.3, as pure functions that a
mutable writer and reader refine.

**Consensus** (`RaftNode`, `RaftSystem`, `RaftSafety`, `RaftGrowth`, `RaftMoves`,
`RaftReplication`, `RaftRuns`, `RaftSnapshots`, `RaftScenes`, `RaftFailures`,
`RaftProgress`, `RaftReplica`). A cluster of replicas over a network that may lose, repeat, delay and
reorder whatever was ever sent, with restarts, compaction and snapshots. Votes,
elections and logs are in order in every run in which nobody stands in the largest
term. That committed entries are kept is so under a further condition on snapshots,
which the code does not check and which is exact step by step; `RaftFailures` plays
runs in which it is broken and committed entries are lost. A replica that works in place takes exactly the steps of that
cluster.

`Wrappers` and `Collections` hold what the modules share.

## Where the code and its comments differ

The models follow the code.

- `bins/astrs-ros2-bridge-node/src/plan.rs:661-664` describes matching claim by claim;
  the loop goes rank by rank.
- `bins/astrs-ros2-bridge-node/src/plan.rs:740-746` takes it that no two claims hold
  one port; `PortMatching.SharedExactlyWhen` says when they do.
- `bins/astrs-ros2-bridge-node/src/service.rs:126-138` and `action.rs:298-310` speak of
  the oldest entry; what is evicted is the first key.
- `bins/astrs-ros2-bridge-node/src/resolve.rs:472-497` cannot tell some derived names
  apart; `TypeResolution.SplitDerivedRecovers` says which.
- `crates/astrs-cdr/src/traits.rs:94-96` asks of the least size only that it reject no
  legal input; the clamp to one rejects sequences of elements that take no octets, and
  `CdrRoundTrip.RoundTrip` says which.
- `xtask/src/snapshot_protocol.rs:125-143` fails identical texts that list a family
  twice; `Snapshot.ReflexiveExactlyWhen` says when.
- `crates/astrs-raft/src/types.rs:68-73` has a saturated term merely end elections; a
  campaign there votes again in the same term, and two replicas may lead it
  (`RaftFailures.TwoLeaders`).
- `crates/astrs-raft/src/log/store.rs:127-131` has what a replica held past the end of a
  snapshot overwritten by the leader; it may be the leader's own, acknowledged and about
  to be committed (`RaftFailures.SnapshotLosesCommitted`).
- `crates/astrs-raft/src/core/apply.rs:170-171` has the log of a replica that declines a
  snapshot equally valid; it may differ from the leader's, which then counts it as held
  (`RaftFailures.AnswerLosesCommitted`). Both runs are with the default settings,
  pre-vote included, and a snapshot asked for by the caller.
- `crates/astrs-raft/src/core/mod.rs:391-394` has a repeated message change nothing; a
  short append that comes again late lowers the commit index, and
  `RaftProgress.CommitFallsExactlyWhen` says when. Nothing applied is taken back
  (`RaftProgress.AppliedStays`).

## Model

| member | source | states |
|---|---|---|
| `Workspace.TopologicalOrder` | xtask/src/workspace.rs:230-292 | For any member list: an order comes back exactly when no crate depends on itself through others and no name is listed twice; it has every crate after its dependencies and, of all such orders, comes first alphabetically. Otherwise the crates reported are exactly those that depend on a cycle, ascending. |
| `Workspace.ListingOrderIrrelevant` | xtask/src/workspace.rs:230-292 | Listing the same members in another order gives the same answer. |
| `Workspace.Tables` | xtask/src/workspace.rs:233-259 | The dependents table and the in-degrees are those of the graph of regular and build dependencies inside the set, self-edges left out, however often a crate is listed. |
| `Workspace.AddEdge` | xtask/src/workspace.rs:246-258 | One edge enters both tables once, and not at all if it is there already or leads to the crate itself or out of the set. |
| `Workspace.AddEdges` | xtask/src/workspace.rs:242-258 | All the dependencies of one listing of a crate enter the tables. |
| `Workspace.UnlockOne` | xtask/src/workspace.rs:270-279 | While a finished crate is struck from its dependents, every in-degree met is positive, so the saturating subtraction never saturates, and no crate becomes ready that is ready already. |
| `Workspace.Unlock` | xtask/src/workspace.rs:269-280 | After a crate is finished, each in-degree is again the number of dependencies not yet ordered and the ready set is exactly the crates with none. |
| `Workspace.Drain` | xtask/src/workspace.rs:261-281 | The loop ends with nothing ready, having taken at each turn the alphabetically first ready crate. |
| `Workspace.GreedyIsFirst` | xtask/src/workspace.rs:261-281 | Taking the first ready crate each time yields an order that precedes every other order with dependencies first. |
| `Workspace.StuckRemainder` | xtask/src/workspace.rs:283-291 | What is left when nothing is ready is exactly what depends, through any number of steps, on a crate that lies on a cycle; nothing is left exactly when the graph has no cycle. |
| `DependencyGraph.SinklessDependsOnCycle` | xtask/src/workspace.rs:283-291 | In a finite part of the graph where everything depends on something in it, every crate depends on a cycle. |
| `LayerLint.Visit` | xtask/src/layer_lint.rs:333-358 | The depth-first visit ends; a list it returns is a closed walk of the graph with its first crate repeated last, and if it returns none, no crate it finished can reach a cycle. |
| `LayerLint.FindSameLayerCycle` | xtask/src/layer_lint.rs:292-330 | In whatever order crates and edges are visited, a cycle is found exactly when the same-layer graph has one, and it is a cycle of that graph. |
| `LayerLint.SameLayerEdges` | xtask/src/layer_lint.rs:296-314 | The adjacency lists hold exactly the regular and build edges between different crates of one layer. |
| `LayerLint.PushEdges` | xtask/src/layer_lint.rs:298-314 | One listing adds exactly its edges to other crates of the same layer. |
| `LayerLint.UpwardEdges` | xtask/src/layer_lint.rs:229-259 | The violations listed are exactly the edges to a higher layer, with both layers. |
| `LayerLint.Lint` | xtask/src/layer_lint.rs:225-271 | The report is empty exactly when no edge goes upward and the whole layered graph, not only each layer, has no cycle. |
| `LayerLint.CycleStaysInLayer` | xtask/src/layer_lint.rs:18-24 | Without upward edges a cycle cannot leave the layer it starts in. |
| `LayerLint.LayersDescend` | xtask/src/layer_lint.rs:18-24 | Without upward edges no walk, of any length, climbs. |
| `LayerLint.CleanIffAcyclic` | xtask/src/layer_lint.rs:18-24 | Checking each layer for cycles and all edges for direction is as good as checking the whole graph for cycles. |
| `LayerLint.CleanLintPublishes` | xtask/src/preflight.rs:536-547 | After a clean lint in which every publishable member, each listed once, has a layer, the publish order exists. |
| `LayerLint.PublishableMembers` | xtask/src/preflight.rs:538-541 | Exactly the members marked for publishing go to the publish order. |
| `PortPool.PortPool.Register` | bins/astrs-ros2-bridge-node/src/plan.rs:639-655 | A claim, required or optional, is added last and holds no port yet. |
| `PortPool.RankPass` | bins/astrs-ros2-bridge-node/src/plan.rs:666-690 | One pass settles one rank for every claim in registration order: afterwards no claim has cause to complain about this rank or a better one. |
| `PortPool.Ask` | bins/astrs-ros2-bridge-node/src/plan.rs:667-686 | One claim asks at one rank, if it has no port and a candidate of that rank: afterwards neither it nor any claim before it has cause to complain about this rank, nor any claim about a better one. |
| `PortPool.MatchByName` | bins/astrs-ros2-bridge-node/src/plan.rs:665-690 | The passes end in the matching by name without justified envy: a claim that misses a declared port at some rank misses it to a claim that reached it at a smaller rank, or at the same rank and earlier. |
| `PortPool.UnmatchedRequired` | bins/astrs-ros2-bridge-node/src/plan.rs:693-699 | The positions collected are the required claims no name matched, each once and in order. |
| `PortPool.FreePositions` | bins/astrs-ros2-bridge-node/src/plan.rs:700-705 | The free positions hold exactly the declared names, with their multiplicity, that no claim was matched to. |
| `PortPool.ResolveClaims` | bins/astrs-ros2-bridge-node/src/plan.rs:658-737 | Every claim ends with the port the rule gives it, and the outcome names the first required claim left without. |
| `PortPool.FirstMissing` | bins/astrs-ros2-bridge-node/src/plan.rs:713-736 | The refusal names the first required claim without a port and the name it wanted. |
| `PortPool.PortPool.constructor` | bins/astrs-ros2-bridge-node/src/plan.rs:630-637 | A pool starts with its declared ports, no claims and the cursor at the front. |
| `PortPool.PortPool.Resolve` | bins/astrs-ros2-bridge-node/src/plan.rs:658-737 | Resolving replaces the claims by their resolved selves under the same rule. |
| `PortPool.PortPool.Take` | bins/astrs-ros2-bridge-node/src/plan.rs:747-768 | A read returns the port of the next claim that has one, passing over optional claims without; it fails only if a required claim without a port comes first. |
| `PortPool.PortPool.TakeOptional` | bins/astrs-ros2-bridge-node/src/plan.rs:771-778 | An optional read consumes the claim under the cursor, port or not, and leaves a required one alone. |
| `PortMatching.MatchingUnique` | bins/astrs-ros2-bridge-node/src/plan.rs:665-690 | There is only one matching by name that leaves nobody with justified envy. |
| `PortMatching.DeclarationOrderIrrelevant` | bins/astrs-ros2-bridge-node/src/plan.rs:46-49 | Declaring the same ports in another order changes no assignment, and neither whether resolution fails nor for which claim. |
| `PortMatching.SucceedsExactlyWhen` | bins/astrs-ros2-bridge-node/src/plan.rs:692-737 | Resolution succeeds exactly when names leave no required claim unmatched, or one such claim and exactly one free port. |
| `PortMatching.SharedExactlyWhen` | bins/astrs-ros2-bridge-node/src/plan.rs:740-746 | Two claims end with the same port name exactly when the one free port left for elimination repeats a name already matched; so never when names are declared once. |
| `PortMatching.DeclaredTwiceIsShared` | bins/astrs-ros2-bridge-node/src/plan.rs:700-711 | The smallest such case: one name declared twice, a claim for it and a claim for an undeclared name. |
| `PortMatching.AssignedDeclared` | bins/astrs-ros2-bridge-node/src/plan.rs:658-737 | Every assigned port is a declared one. |
| `BridgePlan.SanitizeRosName` | bins/astrs-ros2-bridge-node/src/plan.rs:546-561 | The result is a legal, non-empty port name, whatever the ROS name. |
| `BridgePlan.RegisterEntry` | bins/astrs-ros2-bridge-node/src/plan.rs:226-267 | Each entry registers its own claims on each side, and no others. |
| `BridgePlan.RegisterAll` | bins/astrs-ros2-bridge-node/src/plan.rs:224-267 | Both pools hold the claims of every entry, in entry order. |
| `BridgePlan.ResolvedIsGranted` | bins/astrs-ros2-bridge-node/src/plan.rs:713-737 | A resolution that succeeds has a port for every required claim and changes nothing else about a claim. |
| `BridgePlan.ReadTopic` | bins/astrs-ros2-bridge-node/src/plan.rs:278-288 | If the claim of a topic lies under its cursor with a port granted, the read succeeds, the endpoint carries that port, and only that cursor moves. |
| `BridgePlan.ReadService` | bins/astrs-ros2-bridge-node/src/plan.rs:289-308 | The same for the request and the response of a service, one on either side. |
| `BridgePlan.ReadAction` | bins/astrs-ros2-bridge-node/src/plan.rs:309-330 | The same for an action, whose feedback may be without a port. |
| `BridgePlan.ReadEntry` | bins/astrs-ros2-bridge-node/src/plan.rs:276-332 | If an entry's claims lie under the cursors with their required ports granted, no read fails, the endpoint carries exactly those ports, and the cursors move past them. |
| `BridgePlan.ReadAll` | bins/astrs-ros2-bridge-node/src/plan.rs:272-332 | For any list of entries, once both pools are resolved no read fails and every endpoint gets the ports granted to the claims its own entry registered, optional ones without a match included. |
| `BridgePlan.MakePlan` | bins/astrs-ros2-bridge-node/src/plan.rs:209-342 | Planning answers with that plan, with the first failure of the output side and then of the input side, or with emptiness when there are no entries. |
| `Routing.UsesCounted` | bins/astrs-ros2-bridge-node/src/plan.rs:272-332 | A plan uses each port of a side exactly as often as it was granted to a claim there. |
| `Routing.GrantedOnce` | bins/astrs-ros2-bridge-node/src/plan.rs:740-746 | A port declared once is granted to one claim at the most. |
| `Routing.PortsUsedOnce` | bins/astrs-ros2-bridge-node/src/plan.rs:740-746 | A port declared once on a side is used by one endpoint of a planned bridge at the most. |
| `Routing.Start` | bins/astrs-ros2-bridge-node/src/run.rs:162-214 | Every pump's slot names the endpoint it was opened for and the right half of it, no slot is pumped twice, and no endpoint is left without its pumps. |
| `Routing.OpenTopics` | bins/astrs-ros2-bridge-node/src/run.rs:162-182 | Topics open on their own side, each inbound one pumped under its own slot. |
| `Routing.OpenServices` | bins/astrs-ros2-bridge-node/src/run.rs:184-199 | Services open with one pump each and disturb no topic. |
| `Routing.AddAction` | bins/astrs-ros2-bridge-node/src/action.rs:375-495 | The pumps of one more action name that action and the halves its role has, and collide with no pump before. |
| `Routing.Dispatch` | bins/astrs-ros2-bridge-node/src/run.rs:306-338 | The four lookups find an endpoint that listens to the id, and none only if no endpoint does. |
| `Routing.RoutingUnambiguous` | bins/astrs-ros2-bridge-node/src/run.rs:306-338 | If the plan uses an input once, at most one endpoint is reached by its id, so the order of the lookups does not matter. |
| `Routing.PlannedRoutingUnambiguous` | bins/astrs-ros2-bridge-node/src/run.rs:306-338 | So for every planned and opened bridge and every input declared once. |
| `TypeResolution.ResolvePlan` | bins/astrs-ros2-bridge-node/src/resolve.rs:166-236 | Resolution succeeds exactly when every type the plan needs can be found, binds exactly those to what was found, and otherwise names a needed type that was not. |
| `TypeResolution.BindAll` | bins/astrs-ros2-bridge-node/src/resolve.rs:224-236 | Binding a list of names keeps the bindings there, adds the missing ones and stops at the first name not found. |
| `TypeResolution.AllTypesNeeded` | bins/astrs-ros2-bridge-node/src/resolve.rs:173-199 | The names bound are exactly those the endpoints of the plan need. |
| `TypeResolution.EveryOpenFindsItsTypes` | bins/astrs-ros2-bridge-node/src/action.rs:352-372 | After a successful resolution every lookup made while opening topics, services and actions succeeds. |
| `TypeResolution.EntryOrderIrrelevant` | bins/astrs-ros2-bridge-node/src/resolve.rs:166-205 | The bindings do not depend on the order of the entries. |
| `TypeResolution.SplitDerivedRecovers` | bins/astrs-ros2-bridge-node/src/resolve.rs:472-497 | Splitting a stem joined to a listed suffix gives both back exactly unless the stem itself ends in the action part a longer listed suffix starts with. |
| `TypeResolution.PlainStemsRecover` | bins/astrs-ros2-bridge-node/src/resolve.rs:472-497 | In particular for every non-empty stem without an underscore. |
| `Correlation.MintedDistinctExactlyWhen` | bins/astrs-ros2-bridge-node/src/service.rs:141-145 | The first n identities an endpoint mints are distinct exactly when n is at most the largest 64-bit integer. |
| `ServiceProtocol.ServerNeverOverAnswers` | bins/astrs-ros2-bridge-node/src/service.rs:271-405 | Over every run, replies published for an identity never exceed requests forwarded with it, the table stays within 64, and every request is answered, owed a reply, answered in vain or forgotten. |
| `ServiceProtocol.ClientAnswersOnce` | bins/astrs-ros2-bridge-node/src/service.rs:307-405 | Over every run, each response emitted is for a request that was minted, under its own request_id; until 2^63 - 1 requests were minted no request is answered twice; and every request is in flight, answered, matched in vain or forgotten. |
| `ServiceProtocol.ForeignReplyIgnored` | bins/astrs-ros2-bridge-node/src/service.rs:307-319 | A reply addressed to another client changes nothing, at any point of any run. |
| `ServiceProtocol.StepKeeps` | bins/astrs-ros2-bridge-node/src/service.rs:271-405 | Every sample and every graph message, at either role, keeps the correlation invariant. |
| `ServiceProtocol.ServiceEndpoint.constructor` | bins/astrs-ros2-bridge-node/src/service.rs:155-213 | An endpoint opens with nothing pending and the counter at its start. |
| `ServiceProtocol.ServiceEndpoint.RememberPair` | bins/astrs-ros2-bridge-node/src/service.rs:127-138 | A full table gives up its first key before it takes the new correlation. |
| `ServiceProtocol.ServiceEndpoint.Mint` | bins/astrs-ros2-bridge-node/src/service.rs:141-145 | The counter gives the next number and moves by a saturating increment. |
| `ServiceProtocol.ServiceEndpoint.FindHolder` | bins/astrs-ros2-bridge-node/src/service.rs:321-326 | The first request_id, in table order, that holds an identity. |
| `ServiceProtocol.ServiceEndpoint.ForwardRequest` | bins/astrs-ros2-bridge-node/src/service.rs:271-297 | One step of the protocol: a request sample at a server. |
| `ServiceProtocol.ServiceEndpoint.ForwardReply` | bins/astrs-ros2-bridge-node/src/service.rs:307-345 | One step of the protocol: a reply sample at a client, emitted under the request_id that was waiting. |
| `ServiceProtocol.ServiceEndpoint.ForwardOutbound` | bins/astrs-ros2-bridge-node/src/service.rs:358-405 | One step of the protocol: a response going out, or a request minted and correlated before it is sent. |
| `ActionServer.ResultConservation` | bins/astrs-ros2-bridge-node/src/action.rs:648-682 | Over every run and for every goal and identity, get_result requests asked are those answered, dropped and still parked; and a request is dropped only on naming an unknown goal or together with its goal. |
| `ActionServer.AnswersAreLatest` | bins/astrs-ros2-bridge-node/src/action.rs:853-897 | Over every run, each answer carries the result last produced for its goal since it was registered, and a goal that has a result keeps nobody parked. |
| `ActionServer.StatusAlwaysCurrent` | bins/astrs-ros2-bridge-node/src/action.rs:314-331 | Between any two steps the last published status array lists exactly the tracked goals, at most 64, with their current statuses and acceptance times. |
| `ActionServer.CancelMovesReported` | bins/astrs-ros2-bridge-node/src/action.rs:694-731 | Canceling moves exactly the reported goals, all to Canceling, and changes nothing else about any goal. |
| `ActionServer.CancelTwice` | bins/astrs-ros2-bridge-node/src/action.rs:694-731 | A second cancel changes nothing and reports the same goals. |
| `ActionServer.StepKeeps` | bins/astrs-ros2-bridge-node/src/action.rs:602-897 | Every step keeps the table bound, the conservation of requests, the latest results and the currency of the status array. |
| `ActionServer.ActionEndpoint.constructor` | bins/astrs-ros2-bridge-node/src/action.rs:345-524 | An endpoint opens with no goals. |
| `ActionServer.ActionEndpoint.TrackGoal` | bins/astrs-ros2-bridge-node/src/action.rs:299-310 | A full table forgets its first goal; a goal re-registered loses its parked requests. |
| `ActionServer.ActionEndpoint.HandleGoalRequest` | bins/astrs-ros2-bridge-node/src/action.rs:602-640 | One step of the protocol: a goal request. |
| `ActionServer.ActionEndpoint.HandleResultRequest` | bins/astrs-ros2-bridge-node/src/action.rs:648-682 | One step of the protocol: answer now, park, or drop. |
| `ActionServer.ActionEndpoint.HandleCancelRequest` | bins/astrs-ros2-bridge-node/src/action.rs:694-731 | One step of the protocol, and the report lists exactly the non-terminal goals, once each in key order, with their acceptance times; it is accepted exactly when that list is not empty. |
| `ActionServer.ActionEndpoint.ForwardResult` | bins/astrs-ros2-bridge-node/src/action.rs:853-897 | One step of the protocol: store the result and answer everyone parked, in order. |
| `ActionServer.ActionEndpoint.PublishStatus` | bins/astrs-ros2-bridge-node/src/action.rs:957-964 | Publish the table as it is. |
| `ActionClient.ClientConservation` | bins/astrs-ros2-bridge-node/src/action.rs:739-804 | Over every run, live correlations are goals issued less rejections, results consumed and correlations lost to a repeated identity; none is lost until 2^63 - 1 requests were minted. |
| `ActionClient.ResultsOncePerGoal` | bins/astrs-ros2-bridge-node/src/action.rs:775-804 | Over every run, each issued goal yields one emitted result at the most, under the goal id it was issued with. |
| `ActionClient.OverwritesExactlyWhen` | bins/astrs-ros2-bridge-node/src/action.rs:292-296 | At any point of a run the next insert overwrites a live identity exactly when the counter is exhausted and its last identity is still live. |
| `ActionClient.StrayReplyIgnored` | bins/astrs-ros2-bridge-node/src/action.rs:739-804 | A reply addressed to another client, or to a correlation no longer live, changes nothing. |
| `ActionClient.StepKeeps` | bins/astrs-ros2-bridge-node/src/action.rs:739-931 | Every reply and every goal issued keeps the conservation of correlations. |
| `ActionClient.ActionEndpoint.constructor` | bins/astrs-ros2-bridge-node/src/action.rs:345-524 | An endpoint opens with no goals and no correlations. |
| `ActionClient.ActionEndpoint.Take` | bins/astrs-ros2-bridge-node/src/action.rs:743-751 | A reply is taken exactly when it is addressed to this client and its correlation is live, which it then no longer is. |
| `ActionClient.ActionEndpoint.ForwardOutbound` | bins/astrs-ros2-bridge-node/src/action.rs:900-931 | One step of the protocol: a goal sent under a new identity, correlated with its own id. |
| `ActionClient.ActionEndpoint.HandleGoalReply` | bins/astrs-ros2-bridge-node/src/action.rs:739-767 | One step of the protocol: an accepted goal goes on under a new identity, a rejected one is forgotten. |
| `ActionClient.ActionEndpoint.HandleResultReply` | bins/astrs-ros2-bridge-node/src/action.rs:775-804 | One step of the protocol: the result is emitted under the id the correlation carried. |
| `ActionClient.ActionEndpoint.MintFor` | bins/astrs-ros2-bridge-node/src/action.rs:292-296 | Mint the next identity and correlate it. |
| `GoalIdText.RenderGoalId` | bins/astrs-ros2-bridge-node/src/action.rs:144-151 | Two lower-case digits an octet, high nibble first. |
| `GoalIdText.ParseGoalId` | bins/astrs-ros2-bridge-node/src/action.rs:155-167 | Exactly the texts of 32 hexadecimal digits, of either case, are read, octet by octet. |
| `GoalIdText.GoalIdRoundTrip` | bins/astrs-ros2-bridge-node/src/action.rs:144-167 | Every goal id written is read back. |
| `GoalIdText.TextRoundTrip` | bins/astrs-ros2-bridge-node/src/action.rs:144-185 | A text that reads as a goal id is what that id is written as, up to case. |
| `Snapshot.Sections` | xtask/src/snapshot_protocol.rs:195-215 | The sections are the counted lines from the first header on, cut at the headers, each named by its header; blank lines, comments and what precedes the first header are left out. |
| `Snapshot.SectioningUnique` | xtask/src/snapshot_protocol.rs:195-215 | That determines the sections. |
| `Snapshot.SectionsAreSectioning` | xtask/src/snapshot_protocol.rs:195-215 | The sections computed line by line are that cut of the text. |
| `Snapshot.FindSection` | xtask/src/snapshot_protocol.rs:224-226 | The first section of a name is found, if there is one. |
| `Snapshot.FirstPrefixBreak` | xtask/src/snapshot_protocol.rs:219-247 | The break reported is the first: of the frozen sections in order the first one missing, shrunk or moved, with its first differing line; failing that, the first new live section. |
| `Snapshot.BreakExactlyWhen` | xtask/src/snapshot_protocol.rs:219-247 | None is reported exactly when each frozen section is a prefix of the first live section of its name and every live name is a frozen one. |
| `Snapshot.PassesExactlyWhen` | xtask/src/snapshot_protocol.rs:219-247 | With names unique on both sides: the names are the same and, name by name, the frozen lines come first. |
| `Snapshot.ReflexiveExactlyWhen` | xtask/src/snapshot_protocol.rs:219-247 | A snapshot passes against itself exactly when each section is a prefix of the first of its name; so whenever names are unique. |
| `Snapshot.IdenticalTextsMayFail` | xtask/src/snapshot_protocol.rs:125-143 | A concrete text that lists a family twice with different lines and does not pass against itself. |
| `Snapshot.Transitive` | xtask/src/snapshot_protocol.rs:219-247 | Passing is transitive. |
| `Snapshot.ReleasesNeverMoveALine` | xtask/src/snapshot_protocol.rs:219-247 | Over any number of releases, each passing against the one before, no line of the first has moved in the last. |
| `Snapshot.AppendedTextPasses` | xtask/src/snapshot_protocol.rs:195-247 | Text without headers added after a final newline passes exactly when the text without it does; so whenever section names are unique. |
| `Snapshot.CompareCommitted` | xtask/src/snapshot_protocol.rs:125-143 | The verdict on two texts is that of their sections. |
| `Align.MaskIsRemainder` | crates/astrs-cdr/src/align.rs:58-66 | Masking with one less than a power of two is taking the remainder, for every position. |
| `Align.PaddingIsModular` | crates/astrs-cdr/src/align.rs:58-66 | For every power of two the masked padding is the modular one. |
| `Align.PaddingIsLeast` | crates/astrs-cdr/src/align.rs:58-66 | The padding is the least that reaches a multiple of the alignment; none is needed exactly on one. |
| `Align.AlignUpIsLeast` | crates/astrs-cdr/src/align.rs:79-82 | Aligning up gives the least aligned position at or above the input, and nothing exactly when that exceeds 64 bits. |
| `Align.AlignTwice` | crates/astrs-cdr/src/align.rs:58-82 | Aligning to a smaller power of two first ends in the same place, overflow included. |
| `CdrRoundTrip.RoundTrip` | crates/astrs-cdr/src/bounded.rs:325-355 | For every type built of primitives, characters, strings, wide strings, sequences, arrays and structures, from every position, under both versions and byte orders, whatever precedes and follows: decoding an encoding gives the value back and uses exactly its octets, or is refused for an implausible count, exactly as the counts inside it can or cannot be believed. |
| `CdrRoundTrip.GroundedRoundTrip` | crates/astrs-cdr/src/bounded.rs:325-355 | It gives the value back always if no sequence inside the type has elements that may take no octets. |
| `CdrRoundTrip.EmptyPartsRefused` | crates/astrs-cdr/src/reader.rs:443-461 | A non-empty sequence of empty structures is written and then, with nothing behind it, refused. |
| `CdrRoundTrip.MinSizeHolds` | crates/astrs-cdr/src/traits.rs:90-102 | The least size a type declares is a lower bound on every encoding of it. |
| `Cdr.EndianRoundTrip` | crates/astrs-cdr/src/writer.rs:258-310 | A number that fits its width is read back in either byte order. |
| `CdrRoundTrip.AcceptedIsAcceptable` | crates/astrs-cdr/src/bounded.rs:130-145 | Whatever the octets, a value accepted is one of its type, within every bound, with no NUL inside text and valid UTF-8. |
| `CdrRoundTrip.EncodesExactlyWhen` | crates/astrs-cdr/src/writer.rs:357-487 | A value can be encoded exactly when it is within every bound, has no NUL inside text, its counts fit four octets and so does, under XCDR2, the length of each framed part, reckoned from padding and widths; the octets are then as many as reckoned, and a length that does not fit is the only failure of a value that is otherwise in order. |
| `CdrCanonical.EncodeShift` | crates/astrs-cdr/src/encoding.rs:616-626 | The octets of a value depend on its position only modulo 8, or modulo 4 under XCDR2. |
| `CdrCanonical.SentOnNoLonger` | crates/astrs-cdr/src/reader.rs:603-628 | A value accepted from a peer can be written from the same position or an earlier one, and ends no later than the peer's octets did. |
| `CdrCanonical.SentOnUnchanged` | crates/astrs-cdr/src/reader.rs:603-628 | Writing on what was accepted and reading it again gives the same value in no more octets. |
| `CdrStreams.CdrWriter.AlignTo` | crates/astrs-cdr/src/writer.rs:214-219 | Padding is zero octets up to the version's alignment. |
| `CdrStreams.CdrWriter.constructor` | crates/astrs-cdr/src/writer.rs:165-184 | Positions count from behind the header. |
| `CdrStreams.CdrWriter.Emit` | crates/astrs-cdr/src/writer.rs:55-67 | Octets are appended, or only counted when measuring. |
| `CdrStreams.PatchBlank` | crates/astrs-cdr/src/writer.rs:72-78 | Patching a slot afterwards gives what writing the value there at once would have, and moves no length when measuring. |
| `CdrStreams.CdrWriter.WriteNumber` | crates/astrs-cdr/src/writer.rs:258-310 | A number is appended at its alignment in the stream's byte order, to a buffer or to a count alike. |
| `CdrStreams.CdrWriter.WriteText` | crates/astrs-cdr/src/writer.rs:380-393 | Writing text succeeds exactly when its encoding exists, and has then appended it. |
| `CdrStreams.CdrWriter.Serialize` | crates/astrs-cdr/src/writer.rs:436-438 | Writing any value succeeds exactly when its encoding exists, and has then appended it; otherwise it fails with the same error. |
| `CdrStreams.CdrWriter.SerializeParts` | crates/astrs-cdr/src/writer.rs:476-487 | A framed composite ends with its length where the slot was, though written before the length was known. |
| `CdrStreams.CdrWriter.SerializeBody` | crates/astrs-cdr/src/impls/collection.rs:54-107 | Count and parts in order, stopping at the first failure. |
| `CdrStreams.CdrReader.ReadNumber` | crates/astrs-cdr/src/reader.rs:248-374 | Padding is skipped unread, and a number taken only if all of it is inside the scope. |
| `CdrStreams.CdrReader.constructor` | crates/astrs-cdr/src/reader.rs:125-133 | A reader starts at its origin, with everything up to its end in scope. |
| `CdrStreams.CdrReader.ReadCount` | crates/astrs-cdr/src/reader.rs:443-461 | A count is believed only if so many parts could still be there. |
| `CdrStreams.CdrReader.ReadText` | crates/astrs-cdr/src/reader.rs:480-494 | Reading text is decoding it. |
| `CdrStreams.CdrReader.Deserialize` | crates/astrs-cdr/src/reader.rs:551-553 | Reading any value is decoding it, position and error included, and leaves the scope as it was. |
| `CdrStreams.CdrReader.DeserializeParts` | crates/astrs-cdr/src/reader.rs:584-628 | A frame clamps the scope while its parts are read and is then left at its end. |
| `CdrStreams.CdrReader.DeserializeBody` | crates/astrs-cdr/src/bounded.rs:333-353 | A sequence's bound is checked before its elements are read. |
| `CdrStreams.CdrReader.DeserializeAll` | crates/astrs-cdr/src/impls/collection.rs:78-136 | Parts are read in order up to the first that fails. |
| `CdrMessage.MessageRoundTrip` | crates/astrs-cdr/src/reader.rs:812-817 | Every payload of a grounded type that can be written is read back, under each of the ten encapsulation kinds. |
| `CdrMessage.PaddedRoundTrip` | crates/astrs-cdr/src/writer.rs:647-659 | A padded payload is a multiple of four octets; read strictly it gives the value back under XCDR2, and under XCDR1 exactly when no padding was needed; read tolerantly, always. |
| `CdrMessage.KindRoundTrip` | crates/astrs-cdr/src/encoding.rs:211-247 | Every encapsulation kind is found again from its identifier. |
| `CdrMessage.OpenBody` | crates/astrs-cdr/src/reader.rs:85-102 | Opening a payload finds its kind, sets positions to count behind the header and cuts the announced padding off. |
| `CdrMessage.PadBody` | crates/astrs-cdr/src/writer.rs:647-659 | Zero octets up to a multiple of four, announced in the header under XCDR2 only. |
| `CdrMessage.ToVec` | crates/astrs-cdr/src/writer.rs:678-682 | The payload written is header and encoding. |
| `CdrMessage.ToVecPadded` | crates/astrs-cdr/src/writer.rs:713-720 | The padded payload, its header patched under XCDR2. |
| `CdrMessage.SerializedSize` | crates/astrs-cdr/src/size.rs:36-43 | The measured size is the length of the payload, and measuring fails exactly as writing does. |
| `CdrMessage.SerializedSizePadded` | crates/astrs-cdr/src/size.rs:65-73 | The measured padded size is the length of the padded payload. |
| `CdrMessage.ReadBytes` | crates/astrs-cdr/src/reader.rs:812-834 | Opening, decoding and the check for trailing octets, strict or tolerant. |
| `RaftRuns.ElectionSafety` | crates/astrs-raft/src/core/election.rs:3-14 | Over every run in which nobody stands in the largest term, with messages lost, repeated, delayed and reordered, logs compacted, snapshots installed and replicas restarted at will, no two replicas lead the same term. |
| `RaftRuns.LogsMatch` | crates/astrs-raft/src/core/replication.rs:3-10 | Over all those runs, two logs with the same term at an index are the same up to there, compacted entries included. |
| `RaftRuns.LeadersComplete` | crates/astrs-raft/src/core/election.rs:9-12 | Over those of them in which each snapshot that is taken covers whatever the replica had acknowledged or written and no leader has overruled, and each that is declined is declined by a log that ends like the leader's, what a replica knew committed at any point is in the log of every later leader of a term no earlier than that replica's. |
| `RaftRuns.StateMachineSafety` | crates/astrs-raft/src/core/apply.rs:41-68 | Over the same runs, what one replica had applied at any point and what another has applied at the end agree, one maybe further on. |
| `RaftRuns.ReadyIsCurrent` | crates/astrs-raft/src/core/mod.rs:346-388 | Over the same runs, a leader whose commit index holds an entry of its own term has applied everything that any replica of a term no later knew committed before it took office. |
| `RaftRuns.StepKeeps` | crates/astrs-raft/src/core/mod.rs:469-511 | Every event at every replica, unless it makes one stand in the largest term, keeps the record of votes, elections and logs and only adds to it; and unless it is a snapshot that breaks those conditions, keeps whatever was acknowledged or committed. |
| `RaftRuns.RunKeeps` | crates/astrs-raft/src/core/mod.rs:469-511 | So over every run of such events. |
| `RaftRuns.RunExtends` | crates/astrs-raft/src/core/mod.rs:469-511 | What is on record at any point of a run, votes, wins, leader logs and messages, stays on record. |
| `RaftFailures.TwoLeaders` | crates/astrs-raft/src/types.rs:68-77 | A run of three replicas in which one votes in the largest term and then stands in it, after which two lead that term; with pre-vote off. |
| `RaftSafety.LeaderCompleteness` | crates/astrs-raft/src/core/replication.rs:22-29 | What a quorum has held of a leader's log, up to an entry of its own term, every later leader started with. |
| `RaftSafety.UpToDateHas` | crates/astrs-raft/src/core/election.rs:241-247 | A log at least as up to date as a voter's has whatever committed entries the voter has. |
| `RaftSafety.QuorumsMeet` | crates/astrs-raft/src/core/election.rs:3-8 | Any two quorums share a replica. |
| `RaftSafety.CommittedAgree` | crates/astrs-raft/src/core/replication.rs:300-335 | What two leaders have committed agrees, one maybe further on. |
| `RaftSafety.DecidedAgree` | crates/astrs-raft/src/core/replication.rs:300-335 | Of any two committed sequences one is a prefix of the other. |
| `RaftMoves.FirstToWin` | crates/astrs-raft/src/core/election.rs:165-198 | A candidate that counts a quorum wins a term nobody has led. |
| `RaftReplication.MergeResult` | crates/astrs-raft/src/core/replication.rs:182-211 | Merging a stretch of the leader's log leaves a log that already has it alone, and otherwise makes the log end with it. |
| `RaftReplication.MergeLosesNothing` | crates/astrs-raft/src/core/replication.rs:176-181 | A merge loses nothing the leader has too, so a delayed append never shortens a log that has moved on. |
| `RaftReplication.AcceptKeeps` | crates/astrs-raft/src/core/replication.rs:81-174 | Accepting an append keeps the invariant: what the replica acknowledged it has, what it had committed it keeps. |
| `RaftReplication.CompactedAppendKeeps` | crates/astrs-raft/src/core/replication.rs:101-118 | Answering an append that starts inside the compacted part with where that ends keeps the invariant: what was compacted is committed, so the leader has it. |
| `RaftReplication.CompactKeeps` | crates/astrs-raft/src/core/apply.rs:95-118 | Compacting, at any time, keeps the invariant. |
| `RaftReplication.InstallKeeps` | crates/astrs-raft/src/core/apply.rs:182-206 | Taking a snapshot keeps the invariant, provided that it covers whatever the replica acknowledged or wrote and no leader has overruled. |
| `RaftReplication.InstallHoldsExactlyWhen` | crates/astrs-raft/src/core/apply.rs:182-206 | A replica still has all of that after taking a snapshot exactly when the snapshot covers it. |
| `RaftReplication.NothingLostIsCovered` | crates/astrs-raft/src/core/apply.rs:182-206 | It covers it if it covers all the replica acknowledged or wrote, overruled or not, or if the replica's log does not go on from the last entry covered. |
| `RaftReplication.NoNewsKeeps` | crates/astrs-raft/src/core/apply.rs:169-180 | Declining one keeps the invariant, provided that the leader has an entry of the same term where the replica's log ends. |
| `RaftReplication.EndsAlikeMeans` | crates/astrs-raft/src/core/apply.rs:169-180 | Which is so exactly when the replica's log is part of the leader's. |
| `RaftReplication.DecidedInLeader` | crates/astrs-raft/src/core/election.rs:9-14 | What is committed is in the log of every leader of a term no earlier. |
| `RaftReplication.QuorumCommits` | crates/astrs-raft/src/core/replication.rs:300-335 | An entry of the leader's own term that a quorum of match indices covers is committed. |
| `RaftMoves.ElectKeeps` | crates/astrs-raft/src/core/election.rs:214-233 | Taking office keeps the invariant. |
| `RaftMoves.VoteKeeps` | crates/astrs-raft/src/core/election.rs:109-162 | Granting a vote keeps the invariant, a repeated request included. |
| `RaftMoves.RestartKeeps` | crates/astrs-raft/src/core/mod.rs:195-249 | Losing everything but term, vote, log and snapshot, and what was applied since unless the state machine keeps it itself, keeps the invariant. |
| `RaftMoves.StandKeeps` | crates/astrs-raft/src/core/election.rs:74-105 | Standing for election below the largest term keeps the invariant. |
| `RaftMoves.ExtendKeeps` | crates/astrs-raft/src/core/mod.rs:626-647 | A leader appending to its log keeps the invariant. |
| `RaftMoves.FollowKeeps` | crates/astrs-raft/src/core/mod.rs:676-689 | Stepping down to a term no earlier keeps the invariant. |
| `RaftReplication.NoteAckKeeps` | crates/astrs-raft/src/core/replication.rs:229-281 | Counting an acknowledgement, however late or often it comes, keeps the invariant. |
| `RaftReplication.CommitQuorumKeeps` | crates/astrs-raft/src/core/replication.rs:300-335 | Advancing the commit index keeps the invariant. |
| `RaftReplica.Replica.Step` | crates/astrs-raft/src/core/mod.rs:469-511 | Feeding one message to the replica is one delivery step of the whole system, messages sent included; a misrouted message changes nothing. |
| `RaftReplica.Replica.constructor` | crates/astrs-raft/src/core/mod.rs:195-249 | A new replica is the one the system starts with. |
| `RaftReplica.Replica.Handle` | crates/astrs-raft/src/core/mod.rs:488-511 | Each kind of message at the current term goes to its own handler. |
| `RaftReplica.Replica.TakeMessages` | crates/astrs-raft/src/core/mod.rs:395-397 | The outbox is handed over and emptied. |
| `RaftReplica.Replica.Push` | crates/astrs-raft/src/core/mod.rs:650-652 | A message queued is a message sent. |
| `RaftReplica.Replica.AppendLocal` | crates/astrs-raft/src/core/mod.rs:626-647 | A leader appends, sends round and perhaps commits. |
| `RaftReplica.Replica.Campaign` | crates/astrs-raft/src/core/election.rs:74-105 | Standing for election: a new term, a vote for oneself, requests to all others, or office at once when alone. |
| `RaftReplica.Replica.AskOthers` | crates/astrs-raft/src/core/election.rs:94-103 | Every other voter is asked once. |
| `RaftReplica.Replica.CampaignPreVote` | crates/astrs-raft/src/core/election.rs:39-70 | A pre-vote round, term and vote untouched. |
| `RaftReplica.Replica.BecomeLeader` | crates/astrs-raft/src/core/election.rs:214-233 | Taking office: fresh progress, the no-op appended, sent round and perhaps committed. |
| `RaftReplica.Replica.HandleVoteRequest` | crates/astrs-raft/src/core/election.rs:109-162 | A vote is granted or refused as the system step has it. |
| `RaftReplica.Replica.HandleVoteResponse` | crates/astrs-raft/src/core/election.rs:165-210 | Votes are counted; a quorum either way ends the campaign. |
| `RaftReplica.Replica.HandleAppendEntries` | crates/astrs-raft/src/core/replication.rs:81-174 | Accept, or reject with the conflict hint. |
| `RaftReplica.Replica.Accept` | crates/astrs-raft/src/core/replication.rs:153-161 | Merge, then commit as far as the leader has and the entries reach. |
| `RaftReplica.Replica.MergeEntries` | crates/astrs-raft/src/core/replication.rs:182-211 | The loop over the entries computes the merge. |
| `RaftReplica.Replica.FirstIndexOfTerm` | crates/astrs-raft/src/core/replication.rs:215-226 | The loop finds the start of the run of equal terms. |
| `RaftReplica.Replica.LastIndexOfTerm` | crates/astrs-raft/src/core/replication.rs:284-296 | The loop finds the last entry of a term, if the log has one. |
| `RaftReplica.Replica.HandleAppendResponse` | crates/astrs-raft/src/core/replication.rs:229-281 | An acknowledgement never lowers a match index; a rejection moves the next index by the hint. |
| `RaftReplica.Replica.NoteRejection` | crates/astrs-raft/src/core/replication.rs:267-279 | The next index after a rejection, by the conflicting term or else by the index. |
| `RaftReplica.Replica.QuorumValue` | crates/astrs-raft/src/core/replication.rs:304-318 | The value a quorum down the sorted match indices is the highest index a quorum holds. |
| `RaftReplica.RankedQuorum` | crates/astrs-raft/src/core/replication.rs:304-318 | In any descending ranking of the match indices the value a quorum down is the highest that a quorum reaches. |
| `RaftReplica.Replica.MaybeAdvanceCommit` | crates/astrs-raft/src/core/replication.rs:300-335 | Commit to that index exactly if it is news and of the leader's own term. |
| `RaftReplica.Replica.ApplyEntries` | crates/astrs-raft/src/core/apply.rs:42-66 | Committed entries reach the state machine in order and once. |
| `RaftReplica.Replica.ApplyCommitted` | crates/astrs-raft/src/core/apply.rs:41-82 | They are applied, and the log is compacted once as many have been as the threshold says. |
| `RaftReplica.Replica.SaveSnapshot` | crates/astrs-raft/src/core/apply.rs:95-118 | What the state machine has applied gives way to a snapshot, if the log can still tell its last term; the entries after it stay. |
| `RaftReplica.Replica.TakeSnapshot` | crates/astrs-raft/src/core/apply.rs:95-118 | On a caller's schedule that is one step of the whole system. |
| `RaftReplica.Replica.Settle` | crates/astrs-raft/src/core/mod.rs:644-645 | Commit what a quorum holds, then apply it. |
| `RaftReplica.Replica.BroadcastAppend` | crates/astrs-raft/src/core/replication.rs:40-78 | Every other voter is sent what it is missing. |
| `RaftReplica.Replica.SendAppend` | crates/astrs-raft/src/core/replication.rs:49-78 | One voter is sent the entries from its next index on, as many as one message takes, or the snapshot where those are out of reach. |
| `RaftReplica.Replica.SendSnapshot` | crates/astrs-raft/src/core/apply.rs:122-154 | The snapshot is sent, if there is one, and the next index moves to where it ends, or to the first. |
| `RaftReplica.Replica.HandleInstallSnapshot` | crates/astrs-raft/src/core/apply.rs:158-207 | A snapshot is declined with the length of the log, or replaces log, state machine and commit index. |
| `RaftReplica.Replica.HandleInstallResponse` | crates/astrs-raft/src/core/apply.rs:210-228 | The index it names counts as held. |
| `RaftReplica.Replica.CountAck` | crates/astrs-raft/src/core/replication.rs:245-256 | What a follower is known to hold never goes down. |
| `RaftReplica.Replica.Yield` | crates/astrs-raft/src/core/replication.rs:93-97 | A candidate that hears from a leader of its term follows. |
| `RaftReplica.Replica.Propose` | crates/astrs-raft/src/core/mod.rs:585-587 | A leader appends the command and sends it round; anybody else refuses. |
| `RaftReplica.Replica.StepDown` | crates/astrs-raft/src/core/mod.rs:676-689 | A later term clears the vote; the same term keeps it. |
| `RaftReplica.Replica.RejectStale` | crates/astrs-raft/src/core/mod.rs:534-573 | A message of an earlier term is answered with the current one. |
| `RaftSnapshots.InstallKeepsHeldExactlyWhen` | crates/astrs-raft/src/core/apply.rs:182-206 | At the end of every run so guarded, a replica that takes a snapshot still has whatever it acknowledged or wrote, and no leader has overruled, exactly when the snapshot covers all of that. |
| `RaftSnapshots.OwnCheckSuffices` | crates/astrs-raft/src/core/apply.rs:182-206 | At the end of every run so guarded, that second test, which a replica can make by itself, makes taking the snapshot safe. |
| `RaftSnapshots.StepKeepsExactlyWhen` | crates/astrs-raft/src/core/apply.rs:158-207 | In any state in which nothing has been lost, an event that makes nobody stand in the largest term leads to another such state exactly when it meets the conditions on snapshots. |
| `RaftProgress.CommitFallsExactlyWhen` | crates/astrs-raft/src/core/replication.rs:153-161 | Accepting an append lowers the commit index exactly when the append ends before it and the leader's is beyond it. |
| `RaftProgress.StepGrew` | crates/astrs-raft/src/core/apply.rs:41-68 | No event that meets the conditions on snapshots takes anything back from a state machine, unless it restarts a replica whose state machine keeps nothing. |
| `RaftProgress.AppliedStays` | crates/astrs-raft/src/state_machine.rs:7-11 | Over every run so guarded, what a replica had applied at any point is what its state machine still starts with at the end, unless it was restarted with one that keeps nothing. |
| `RaftFailures.SnapshotLosesCommitted` | crates/astrs-raft/src/log/store.rs:351-355 | A run in which a snapshot discards an acknowledged entry, the leader commits it on that acknowledgement, two replicas apply different entries at its index, and the leader of the next term lacks it; nobody stands in the largest term. |
| `RaftSnapshots.ReplyTruthfulExactlyWhen` | crates/astrs-raft/src/core/apply.rs:169-180 | At the end of every run so guarded, the answer that declines a snapshot is true exactly when the leader has an entry of the same term where the replica's log ends. |
| `RaftFailures.AnswerLosesCommitted` | crates/astrs-raft/src/core/apply.rs:169-180 | A run in which a replica declines a snapshot with a log that differs from the leader's, the leader commits on that answer, and the leader of the next term lacks what was committed. |
| `RaftSnapshots.UncompactedRunsKeep` | crates/astrs-raft/src/config.rs:91-93 | With a threshold of 0 and no snapshot asked for, every run in which nobody stands in the largest term meets both guards. |

## Left out

- DDS endpoints, QoS mapping, tasks, timeouts and shutdown of the bridge: foreign calls. Publishing and emitting append to a record; a write that fails ends the run and is not modelled.
- `collect_entries`, namespace and node name validation (`plan.rs:414-521`): settled by reading single branches.
- Finding, parsing and minting types in `resolve.rs`: a lookup function stands for them.
- The count of checked edges and the list of skipped crates in the lint report: easy members beside the violations.
- Feedback and status samples of an action: passed through. The status of a result comes decoded, with the event.
- The order of goals inside a published status array: the array is modelled as the table it lists. The goal table of an action client is modelled as the set of ids it tracks.
- Identities and goal ids as octets: they are numbers whose order is that of the octets.
- CDR enumerated types, mutable structures and parameter lists (`crates/astrs-cdr/src/xcdr2.rs`, `parameter_list`): the composite types modelled are sequences, arrays and final or appendable structures.
- CDR error payloads: errors are told apart by kind, not by the numbers they carry.
- Raft membership changes: the cluster is fixed.
- The bytes of a snapshot: it carries the entries it stands for and what the state machine had applied; nothing depends on the former but their number and last term.
- Raft leadership transfer: `TimeoutNow`, which no code of the core sends, is an event that may come at any time.
- Raft timers and leases: a timeout, a lost quorum and a leader's silence may come at any time.
- The write-ahead log, transports and the simulator of Raft: persistence is taken as given and the network as above.
- Preflight, schema and version checks, the command line, the C API, record and replay: plumbing around files and subprocesses.
- RaftRuns.ElectionSafety: asks that nobody stands in the largest term, where it fails.
- RaftRuns.LogsMatch: asks the same.
- RaftRuns.LeadersComplete: asks that too, and that every snapshot meets the conditions on snapshots. They are exact for each step that could lose something (RaftSnapshots.StepKeepsExactlyWhen); what a step loses need not show in the end.
- RaftRuns.StateMachineSafety: asks the same as RaftRuns.LeadersComplete.
- RaftRuns.ReadyIsCurrent: asks the same as RaftRuns.LeadersComplete.
- RaftNode.Applied: stops at the end of the log, where `crates/astrs-raft/src/core/apply.rs:43-50` counts entries that are not there as applied; the commit index is beyond the log only where something committed has been lost.
- LayerLint.CleanLintPublishes: asks that publishable members have distinct names, without which no publish order exists.
