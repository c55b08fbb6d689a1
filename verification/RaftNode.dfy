/** One Raft replica as a value: what each input makes of it and what it sends.
    The cluster is fixed. */
module RaftNode {
  import opened Wrappers

  type Peer = nat

  type Term = nat

  const TermMax: Term := 0xffff_ffff_ffff_ffff

  datatype Payload = Command(octets: seq<nat>) | Noop

  /** A log entry; its index is its position, counting from 1. */
  datatype Entry = Entry(term: Term, payload: Payload)

  type Log = seq<Entry>

  datatype Role = Follower | PreCandidate | Candidate | Leader

  datatype Message =
    | PreVoteRequest(term: Term, lastIndex: nat, lastTerm: Term)
    | PreVoteResponse(term: Term, granted: bool)
    | VoteRequest(term: Term, lastIndex: nat, lastTerm: Term)
    | VoteResponse(term: Term, granted: bool)
    | AppendEntries(term: Term, prevIndex: nat, prevTerm: Term, entries: Log, leaderCommit: nat)
    | AppendResponse(term: Term, success: bool, matchIndex: nat, conflictIndex: nat, conflictTerm: Term)
    | InstallSnapshot(term: Term, covers: Log, data: Log)
    | InstallResponse(term: Term, lastIndex: nat)

  /** The most entries one append carries, and how many applied entries call for a
      snapshot, 0 for never. */
  datatype Config = Config(max: nat, threshold: nat)

  datatype Envelope = Envelope(from: Peer, to: Peer, message: Message)

  /** What a replica knows of itself and, while it leads, of the others:
      `next` and `matched` per voter. `machine` is what it has applied.

      The first `base` entries of the log have given way to a snapshot. They stay
      part of `log` so that a snapshot says which entries it stands for; nothing a
      replica does depends on them except the term of the last. `saved` is what the
      state machine had applied when the snapshot was taken. */
  datatype Node = Node(
    id: Peer,
    term: Term,
    votedFor: Option<Peer>,
    log: Log,
    base: nat,
    saved: Log,
    role: Role,
    votes: map<Peer, bool>,
    next: map<Peer, nat>,
    matched: map<Peer, nat>,
    commit: nat,
    machine: Log)

  function Fresh(id: Peer): Node {
    Node(id, 0, None, [], 0, [], Follower, map[], map[], map[], 0, [])
  }

  // ----------------------------------------------------------------- the basics

  function NextTerm(t: Term): Term {
    if t < TermMax then t + 1 else t
  }

  /** The term at an index, 0 standing for the empty log. */
  function TermAt(log: Log, index: nat): Option<Term> {
    if index == 0 then Some(0) else if index <= |log| then Some(log[index - 1].term) else None
  }

  /** The term a replica can still tell at an index. */
  function HeldTerm(n: Node, index: nat): Option<Term> {
    if 0 < index < n.base then None else TermAt(n.log, index)
  }

  function LastTerm(log: Log): Term {
    if log == [] then 0 else log[|log| - 1].term
  }

  function Quorum(cluster: set<Peer>): nat {
    |cluster| / 2 + 1
  }

  predicate IsQuorum(cluster: set<Peer>, votes: nat) {
    cluster != {} && votes >= Quorum(cluster)
  }

  /** A candidate's last entry against a voter's log: term first, length only
      between equals. */
  predicate UpToDate(lastIndex: nat, lastTerm: Term, log: Log) {
    if lastTerm != LastTerm(log) then lastTerm > LastTerm(log) else lastIndex >= |log|
  }

  function Granted(votes: map<Peer, bool>): set<Peer> {
    set p | p in votes && votes[p]
  }

  function Refused(votes: map<Peer, bool>): set<Peer> {
    set p | p in votes && !votes[p]
  }

  // ------------------------------------------------------------------ elections

  function BecomeFollower(n: Node, term: Term): Node {
    n.(term := term, votedFor := if term != n.term then None else n.votedFor,
       role := Follower, votes := map[], next := map[], matched := map[])
  }

  function StartPreVote(n: Node): Node {
    n.(role := PreCandidate, votes := map[n.id := true])
  }

  function StartCampaign(n: Node): Node {
    n.(term := NextTerm(n.term), votedFor := Some(n.id), role := Candidate, votes := map[n.id := true])
  }

  function AskAll(n: Node, cluster: set<Peer>, m: Message): set<Envelope> {
    set p | p in cluster && p != n.id :: Envelope(n.id, p, m)
  }

  predicate CanVote(n: Node, candidate: Peer, lastIndex: nat, lastTerm: Term) {
    (n.votedFor.None? || n.votedFor == Some(candidate)) && UpToDate(lastIndex, lastTerm, n.log)
  }

  /** Take office: forget what earlier leaders knew, and append the no-op that
      will settle what they left behind. */
  function TakeOffice(n: Node, cluster: set<Peer>): Node {
    AppendOwn(n.(role := Leader, votes := map[],
                 next := map p | p in cluster :: |n.log| + 1,
                 matched := map p | p in cluster :: if p == n.id then |n.log| else 0), Noop)
  }

  function AppendOwn(n: Node, payload: Payload): Node {
    var log := n.log + [Entry(n.term, payload)];
    n.(log := log,
       matched := if n.id in n.matched then n.matched[n.id := |log|] else n.matched,
       next := if n.id in n.next then n.next[n.id := |log| + 1] else n.next)
  }

  lemma OfficeIs(n: Node, cluster: set<Peer>, ahead: map<Peer, nat>, none: map<Peer, nat>)
    requires n.id in cluster && ahead == map p | p in cluster :: |n.log| + 1
    requires none == map p | p in cluster :: if p == n.id then |n.log| else 0
    ensures var size := |n.log| + 1;
            TakeOffice(n, cluster) == n.(role := Leader, votes := map[], next := ahead[n.id := size + 1],
                                         matched := none[n.id := size], log := n.log + [Entry(n.term, Noop)])
  {
    var l := n.(role := Leader, votes := map[], next := ahead, matched := none);
    assert TakeOffice(n, cluster) == AppendOwn(l, Noop);
  }

  // ---------------------------------------------------------------- replication

  /** The entries a replica's snapshot stands for. */
  function Covers(n: Node): Log {
    n.log[..Min(n.base, |n.log|)]
  }

  /** A follower to be sent entries from `next` on needs some that this leader has
      compacted, or is ahead of it. */
  predicate OutOfReach(n: Node, next: nat) {
    next <= n.base || next > |n.log| + 1
  }

  /** What a leader sends one follower: the entries from its next index on, or the
      snapshot, if there is one, where those are out of reach. */
  function AppendTo(n: Node, p: Peer, max: nat): set<Envelope> {
    if p !in n.next then {}
    else if OutOfReach(n, n.next[p]) then
      if n.base == 0 then {} else {Envelope(n.id, p, InstallSnapshot(n.term, Covers(n), n.saved))}
    else
      var prev := n.next[p] - 1;
      var count := Min(|n.log| - prev, max);
      {Envelope(n.id, p, AppendEntries(n.term, prev, TermAt(n.log, prev).value, n.log[prev..prev + count], n.commit))}
  }

  function AppendsFor(n: Node, peers: set<Peer>, max: nat): set<Envelope> {
    set p, e | p in peers && e in AppendTo(n, p, max) :: e
  }

  /** After that, a follower out of reach is taken to be where the snapshot ends. */
  function AfterSend(n: Node, peers: set<Peer>): Node {
    n.(next := map p | p in n.next :: if p in peers && OutOfReach(n, n.next[p]) then n.base + 1 else n.next[p])
  }

  /** The entries a replica holds after an append: those it has already, with the
      same terms, are left alone; from the first that differs on, the leader's. */
  function Merge(log: Log, prev: nat, entries: Log): Log
    requires prev <= |log|
    decreases entries
  {
    if entries == [] then log
    else if prev < |log| && log[prev].term == entries[0].term then Merge(log, prev + 1, entries[1..])
    else log[..prev] + entries
  }

  /** The first index, past `base`, of the run of equal terms that ends at `index`. */
  function RunStart(log: Log, base: nat, index: nat, term: Term): nat
    requires index <= |log|
  {
    if index > base + 1 && log[index - 2].term == term then RunStart(log, base, index - 1, term) else index
  }

  /** The last index holding `term`, looking down from `index` and no further than
      the first smaller term, or than `base`. */
  function LastOfTerm(log: Log, base: nat, index: nat, term: Term): Option<nat>
    requires index <= |log|
  {
    if index <= base || log[index - 1].term < term then None
    else if log[index - 1].term == term then Some(index)
    else LastOfTerm(log, base, index - 1, term)
  }

  function Min(a: nat, b: nat): nat {
    if a <= b then a else b
  }

  function Max(a: nat, b: nat): nat {
    if a >= b then a else b
  }

  /** Whether the place an append starts from is one this replica has. */
  predicate Fits(n: Node, prev: nat, prevTerm: Term) {
    TermAt(n.log, prev) == Some(prevTerm)
  }

  function RejectAppend(n: Node, prev: nat): Message {
    if prev > |n.log| then AppendResponse(n.term, false, 0, |n.log| + 1, 0)
    else
      var held := TermAt(n.log, prev).value;
      AppendResponse(n.term, false, 0, RunStart(n.log, n.base, prev, held), held)
  }

  function AcceptAppend(n: Node, prev: nat, entries: Log, leaderCommit: nat, threshold: nat): Node
    requires prev <= |n.log|
  {
    var merged := n.(log := Merge(n.log, prev, entries));
    if leaderCommit > n.commit then Apply(merged.(commit := Min(leaderCommit, prev + |entries|)), threshold) else merged
  }

  /** Hand committed entries to the state machine, in order and once. */
  function Applied(n: Node): Node {
    var end := Min(n.commit, |n.log|);
    if |n.machine| < end then n.(machine := n.machine + n.log[|n.machine|..end]) else n
  }

  /** Let a snapshot of the state machine take the place of what it has applied. */
  function Compacted(n: Node): Node {
    if n.machine == [] || HeldTerm(n, |n.machine|).None? then n else n.(base := |n.machine|, saved := n.machine)
  }

  function Apply(n: Node, threshold: nat): Node {
    var a := Applied(n);
    if threshold > 0 && |a.machine| >= a.base + 1 + threshold then Compacted(a) else a
  }

  lemma ApplyFrame(n: Node, threshold: nat)
    ensures var a := Apply(n, threshold); a == n.(machine := a.machine, base := a.base, saved := a.saved)
    ensures |n.machine| <= |Apply(n, threshold).machine|
  {}

  lemma AcceptFrame(n: Node, prev: nat, entries: Log, leaderCommit: nat, threshold: nat)
    requires prev <= |n.log|
    ensures var a := AcceptAppend(n, prev, entries, leaderCommit, threshold);
            a.id == n.id && a.term == n.term && |n.machine| <= |a.machine|
  {
    hide Merge;
  }

  // ------------------------------------------------------------------ snapshots

  /** A snapshot that covers no more than is known committed is no news. */
  predicate NoNews(n: Node, covers: Log) {
    |covers| <= n.commit
  }

  /** Any other replaces the whole log and the state machine. */
  function Installed(n: Node, covers: Log, data: Log): Node {
    n.(log := covers, base := |covers|, saved := data, commit := |covers|, machine := data)
  }

  function NoteAck(n: Node, p: Peer, index: nat): Node {
    if p !in n.matched then n
    else
      var high := Max(index, n.matched[p]);
      n.(matched := n.matched[p := high], next := n.next[p := high + 1])
  }

  function NoteReject(n: Node, p: Peer, conflictIndex: nat, conflictTerm: Term): Node {
    if p !in n.next || p !in n.matched then n
    else
      var last := if conflictTerm == 0 then None else LastOfTerm(n.log, n.base, |n.log|, conflictTerm);
      var hint := if last.Some? then last.value + 1 else conflictIndex;
      n.(next := n.next[p := Max(Max(hint, n.matched[p] + 1), 1)])
  }

  /** How much of its log a leader knows a voter to hold. */
  function HeldBy(n: Node, p: Peer): nat {
    if p == n.id then |n.log| else if p in n.matched then n.matched[p] else 0
  }

  /** The voters known to hold a leader's log up to `index`. */
  function Holders(n: Node, cluster: set<Peer>, index: nat): set<Peer> {
    set p | p in cluster && HeldBy(n, p) >= index
  }

  /** `index` is the highest that a quorum holds. */
  ghost predicate IsQuorumIndex(n: Node, cluster: set<Peer>, index: nat) {
    && |Holders(n, cluster, index)| >= Quorum(cluster)
    && forall higher: nat | higher > index :: |Holders(n, cluster, higher)| < Quorum(cluster)
  }

  /** Some index is held by nobody. */
  lemma {:induction false} HoldersBounded(n: Node, cluster: set<Peer>) returns (bound: nat)
    ensures forall index: nat | index >= bound :: Holders(n, cluster, index) == {}
  {
    if cluster == {} {
      bound := 0;
    } else {
      var p :| p in cluster;
      var rest := HoldersBounded(n, cluster - {p});
      bound := Max(rest, Max(|n.log|, if p in n.matched then n.matched[p] else 0)) + 1;
      forall index: nat | index >= bound ensures Holders(n, cluster, index) == {} {
        assert Holders(n, cluster - {p}, index) == {};
        assert forall q | q in Holders(n, cluster, index) :: q == p || q in Holders(n, cluster - {p}, index);
      }
    }
  }

  lemma {:induction false} QuorumIndexBelow(n: Node, cluster: set<Peer>, bound: nat)
    requires cluster != {}
    requires forall index: nat | index > bound :: |Holders(n, cluster, index)| < Quorum(cluster)
    ensures exists index: nat :: IsQuorumIndex(n, cluster, index)
  {
    if |Holders(n, cluster, bound)| >= Quorum(cluster) {
      assert IsQuorumIndex(n, cluster, bound);
    } else {
      assert bound == 0 ==> Holders(n, cluster, bound) == cluster;
      QuorumIndexBelow(n, cluster, bound - 1);
    }
  }

  lemma QuorumIndexExists(n: Node, cluster: set<Peer>)
    requires cluster != {}
    ensures exists index: nat :: IsQuorumIndex(n, cluster, index)
  {
    var bound := HoldersBounded(n, cluster);
    QuorumIndexBelow(n, cluster, bound);
  }

  ghost function QuorumIndex(n: Node, cluster: set<Peer>): (index: nat)
    requires cluster != {}
    ensures IsQuorumIndex(n, cluster, index)
  {
    QuorumIndexExists(n, cluster);
    var index: nat :| IsQuorumIndex(n, cluster, index); index
  }

  /** Commit what a quorum holds, if it is news and of the leader's own term. */
  function Advanced(n: Node, index: nat): Node {
    if n.role == Leader && index > n.commit && HeldTerm(n, index) == Some(n.term) then n.(commit := index) else n
  }

  ghost function Settled(n: Node, cluster: set<Peer>, threshold: nat): Node {
    if cluster == {} then n else Apply(Advanced(n, QuorumIndex(n, cluster)), threshold)
  }

  /** A leader that has committed an entry of its own term. */
  predicate IsReady(n: Node) {
    n.role == Leader && HeldTerm(n, n.commit) == Some(n.term)
  }

  /** A restart keeps the term, the vote, the log and the snapshot; and what the
      state machine kept for itself, if it does. */
  function Restarted(n: Node, durable: bool): Node {
    var machine := if durable then n.machine else n.saved;
    Fresh(n.id).(term := n.term, votedFor := n.votedFor, log := n.log, base := n.base, saved := n.saved,
                 machine := machine, commit := |machine|)
  }
}
