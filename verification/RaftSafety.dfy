/** What every reachable state of a cluster satisfies, and what follows from it.

    The invariant has two layers. The record, that is votes, elections and logs, is
    in order in every run. That replicas keep what they have acknowledged is so only
    as long as no snapshot takes it from them; `kept` says that the second layer is
    meant too. */
module RaftSafety {
  import opened Wrappers
  import opened Collections
  import opened RaftNode
  import opened RaftSystem

  // ----------------------------------------------------------------------- logs

  ghost predicate Nondecreasing(log: Log) {
    forall i, j | 0 <= i < j < |log| :: log[i].term <= log[j].term
  }

  ghost predicate TermsUpTo(log: Log, t: Term) {
    forall i | 0 <= i < |log| :: log[i].term <= t
  }

  /** Up to entry `i`, this is the log of the leader that made entry `i`. */
  ghost predicate Recorded(logs: map<Term, Log>, log: Log, i: nat)
    requires i < |log|
  {
    var t := log[i].term;
    t in logs && i < |logs[t]| && log[..i + 1] == logs[t][..i + 1]
  }

  ghost predicate GoodLog(logs: map<Term, Log>, log: Log, bound: Term) {
    && (forall i | 0 <= i < |log| :: Recorded(logs, log, i))
    && Nondecreasing(log)
    && TermsUpTo(log, bound)
  }

  // -------------------------------------------------------------------- history

  ghost predicate Voted(h: History, voter: Peer, term: Term, candidate: Peer) {
    exists log :: Ballot(voter, term, candidate, log) in h.ballots
  }

  ghost predicate Stood(h: History, candidate: Peer, term: Term, lastIndex: nat, lastTerm: Term) {
    exists log :: Bid(candidate, term, log) in h.bids && |log| == lastIndex && LastTerm(log) == lastTerm
  }

  /** The candidate a ballot went to had a log no less up to date. */
  ghost predicate BallotOk(h: History, b: Ballot) {
    && b.voter in h.cluster
    && GoodLog(h.logs, b.log, b.term)
    && exists log :: Bid(b.candidate, b.term, log) in h.bids && UpToDate(|log|, LastTerm(log), b.log)
  }

  ghost predicate BallotsOk(h: History) {
    && (forall b | b in h.ballots :: BallotOk(h, b))
    && (forall a, b | a in h.ballots && b in h.ballots && a.voter == b.voter && a.term == b.term :: a == b)
  }

  ghost predicate BidsOk(h: History) {
    && (forall b | b in h.bids :: b.term > 0 && GoodLog(h.logs, b.log, b.term - 1))
    && (forall a, b | a in h.bids && b in h.bids && a.candidate == b.candidate && a.term == b.term :: a == b)
  }

  /** A leader starts from the log it stood with and adds entries of its own term. */
  ghost predicate WinOk(h: History, t: Term)
    requires t in h.won && t in h.logs
  {
    var w := h.won[t];
    && w.voters <= h.cluster && IsQuorum(h.cluster, |w.voters|)
    && (forall q | q in w.voters :: Voted(h, q, t, w.leader))
    && Bid(w.leader, t, w.log) in h.bids
    && w.log < h.logs[t]
    && (forall i | |w.log| <= i < |h.logs[t]| :: h.logs[t][i].term == t)
    && GoodLog(h.logs, h.logs[t], t)
  }

  ghost predicate WinsOk(h: History) {
    h.won.Keys == h.logs.Keys && forall t | t in h.won :: WinOk(h, t)
  }

  // ---------------------------------------------------------- what peers have held

  predicate Acks(m: Message) {
    (m.AppendResponse? && m.success) || m.InstallResponse?
  }

  function AckIndex(m: Message): nat
    requires Acks(m)
  {
    if m.AppendResponse? then m.matchIndex else m.lastIndex
  }

  ghost predicate IsAck(e: Envelope, p: Peer, t: Term, m: nat) {
    e.from == p && Acks(e.message) && e.message.term == t && m <= AckIndex(e.message)
  }

  /** `p` has acknowledged, or itself written, the first `m` entries of term `t`'s
      leader. */
  ghost predicate Held(h: History, p: Peer, t: Term, m: nat) {
    && t in h.won && t in h.logs && m <= |h.logs[t]|
    && (h.won[t].leader == p || exists e :: e in h.sent && IsAck(e, p, t, m))
  }

  /** Leader `u` came after `t` and lacks the first `m` entries of its log. */
  ghost predicate Lacks(h: History, u: Term, t: Term, m: nat) {
    u in h.won && t < u && t in h.logs && m <= |h.logs[t]| && !(h.logs[t][..m] <= h.won[u].log)
  }

  /** `log` still has what was held, unless some leader up to `bound` lacked it. */
  ghost predicate Retains(h: History, log: Log, t: Term, m: nat, bound: int) {
    t in h.logs && m <= |h.logs[t]| && (h.logs[t][..m] <= log || exists u: Term :: u <= bound && Lacks(h, u, t, m))
  }

  ghost predicate BallotInformed(h: History, b: Ballot) {
    forall t: Term, m: nat | t < b.term && Held(h, b.voter, t, m) :: Retains(h, b.log, t, m, b.term)
  }

  ghost predicate BallotsInformed(h: History) {
    forall b | b in h.ballots :: BallotInformed(h, b)
  }

  /** The ballots that won an election were cast before anybody led its term. */
  ghost predicate WinInformed(h: History, u: Term)
    requires u in h.won
  {
    forall q, log, t: Term, m: nat | q in h.won[u].voters && Ballot(q, u, h.won[u].leader, log) in h.ballots && t < u
        && Held(h, q, t, m) ::
      Retains(h, log, t, m, u - 1)
  }

  ghost predicate WinsInformed(h: History) {
    forall u | u in h.won :: WinInformed(h, u)
  }

  // ----------------------------------------------------------------- commitment

  /** A quorum has held the first `m` entries of term `t`'s leader, the last of
      which is its own. */
  ghost predicate Committed(h: History, t: Term, m: nat) {
    && t in h.won && t in h.logs && 0 < m <= |h.logs[t]|
    && h.logs[t][m - 1].term == t
    && exists q :: QuorumHeld(h, q, t, m)
  }

  ghost predicate QuorumHeld(h: History, q: set<Peer>, t: Term, m: nat) {
    q <= h.cluster && IsQuorum(h.cluster, |q|) && forall p | p in q :: Held(h, p, t, m)
  }

  /** `log` is part of what has been committed by term `bound`. */
  ghost predicate Decided(h: History, log: Log, bound: Term) {
    log == [] || exists t: Term, m: nat :: t <= bound && Committed(h, t, m) && log <= h.logs[t][..m]
  }

  // ------------------------------------------------------------------- messages

  ghost predicate FromLeader(h: History, e: Envelope) {
    var t := e.message.term;
    e.from != e.to && t in h.won && t in h.logs && h.won[t].leader == e.from
  }

  ghost predicate AppendOk(h: History, e: Envelope)
    requires e.message.AppendEntries?
  {
    var AppendEntries(t, prev, prevTerm, entries, _) := e.message;
    && FromLeader(h, e)
    && prev + |entries| <= |h.logs[t]|
    && entries == h.logs[t][prev..prev + |entries|]
    && TermAt(h.logs[t], prev) == Some(prevTerm)
  }

  ghost predicate InstallOk(h: History, e: Envelope)
    requires e.message.InstallSnapshot?
  {
    var InstallSnapshot(t, covers, data) := e.message;
    FromLeader(h, e) && covers <= h.logs[t] && 0 < |covers| == |data|
  }

  ghost predicate EnvelopeOk(h: History, e: Envelope) {
    match e.message
    case VoteRequest(t, lastIndex, lastTerm) => Stood(h, e.from, t, lastIndex, lastTerm)
    case VoteResponse(t, granted) => granted ==> Voted(h, e.from, t, e.to)
    case AppendEntries(_, _, _, _, _) => AppendOk(h, e)
    case InstallSnapshot(_, _, _) => InstallOk(h, e)
    case AppendResponse(_, _, _, _, _) => e.from != e.to
    case InstallResponse(_, _) => e.from != e.to
    case _ => true
  }

  ghost predicate SentOk(h: History) {
    forall e | e in h.sent :: EnvelopeOk(h, e)
  }

  /** What a leader says is committed is, and what is said to be held can be. */
  ghost predicate PromiseOk(h: History, m: Message) {
    match m
    case AppendEntries(t, _, _, _, leaderCommit) =>
      t in h.logs && leaderCommit <= |h.logs[t]| && Decided(h, h.logs[t][..leaderCommit], t)
    case InstallSnapshot(t, covers, data) => Decided(h, covers, t) && data == covers
    case _ => Acks(m) ==> m.term in h.won && m.term in h.logs && AckIndex(m) <= |h.logs[m.term]|
  }

  ghost predicate PromisesOk(h: History) {
    forall e | e in h.sent :: PromiseOk(h, e.message)
  }

  ghost predicate Record(h: History) {
    h.cluster != {} && BallotsOk(h) && BidsOk(h) && WinsOk(h) && SentOk(h)
  }

  ghost predicate Informed(h: History) {
    BallotsInformed(h) && WinsInformed(h) && PromisesOk(h)
  }

  ghost predicate HistoryOk(h: History, kept: bool) {
    Record(h) && (kept ==> Informed(h))
  }

  // ------------------------------------------------------------------- replicas

  /** The record of a replica agrees with what it remembers. */
  ghost predicate Tied(h: History, n: Node) {
    && (forall b | b in h.ballots && b.voter == n.id ::
        b.term <= n.term && (b.term == n.term ==> n.votedFor == Some(b.candidate)))
    && (n.votedFor.Some? ==> Voted(h, n.id, n.term, n.votedFor.value))
    && (forall b | b in h.bids && b.candidate == n.id :: b.term <= n.term)
    && (forall t | t in h.won && h.won[t].leader == n.id ::
        t <= n.term && t in h.logs && (t == n.term ==> n.log == h.logs[t]))
  }

  ghost predicate RoleOk(h: History, n: Node) {
    && (n.role == Leader ==> n.term in h.won && h.won[n.term].leader == n.id)
    && (n.role == Candidate ==> Bid(n.id, n.term, n.log) in h.bids
                                && !(n.term in h.won && h.won[n.term].leader == n.id))
    && (n.role == Candidate ==> forall q | q in n.votes && n.votes[q] :: Voted(h, q, n.term, n.id))
  }

  /** A snapshot stands for a part of the log, all of it applied. */
  ghost predicate ShapeOk(n: Node) {
    |n.saved| == n.base <= |n.machine| && n.base <= |n.log|
  }

  ghost predicate Sound(h: History, n: Node) {
    n.id in h.cluster && GoodLog(h.logs, n.log, n.term) && Tied(h, n) && RoleOk(h, n) && ShapeOk(n)
  }

  ghost predicate MatchedOk(h: History, n: Node) {
    n.role == Leader ==> forall q | q in n.matched && n.matched[q] > 0 :: Held(h, q, n.term, n.matched[q])
  }

  ghost predicate HoldingOk(h: History, n: Node) {
    forall t: Term, m: nat | Held(h, n.id, t, m) :: t <= n.term && Retains(h, n.log, t, m, n.term)
  }

  ghost predicate AppliedOk(h: History, n: Node) {
    && n.commit <= |n.machine|
    && n.machine <= n.log
    && Decided(h, n.machine, n.term)
    && n.saved <= n.machine
  }

  /** `log` is part of what has been committed by term `t`, and `p` has acknowledged
      or written it in that term. */
  ghost predicate HeldDecided(h: History, p: Peer, t: Term, log: Log) {
    Held(h, p, t, |log|) && log <= h.logs[t] && Decided(h, log, t)
  }

  /** What a replica has applied it has acknowledged or written, when that was
      committed or later. */
  ghost predicate MachineHeld(h: History, n: Node) {
    n.machine == [] || exists t: Term :: HeldDecided(h, n.id, t, n.machine)
  }

  ghost predicate CommitOk(h: History, n: Node) {
    AppliedOk(h, n) && MachineHeld(h, n)
  }

  ghost predicate Keeping(h: History, n: Node) {
    MatchedOk(h, n) && HoldingOk(h, n) && CommitOk(h, n)
  }

  ghost predicate NodeOk(h: History, n: Node, kept: bool) {
    Sound(h, n) && (kept ==> Keeping(h, n))
  }

  ghost predicate Inv(s: System, kept: bool) {
    && HistoryOk(s.h, kept)
    && s.nodes.Keys == s.h.cluster
    && forall p | p in s.nodes :: s.nodes[p].id == p && NodeOk(s.h, s.nodes[p], kept)
  }

  // --------------------------------------------------------------- consequences

  /** Any two quorums share a member. */
  lemma QuorumsMeet(cluster: set<Peer>, a: set<Peer>, b: set<Peer>) returns (p: Peer)
    requires a <= cluster && b <= cluster && IsQuorum(cluster, |a|) && IsQuorum(cluster, |b|)
    ensures p in a && p in b
  {
    if a * b == {} {
      assert |a + b| == |a| + |b|;
      SubsetSize(a + b, cluster);
      assert false;
    }
    p :| p in a * b;
  }

  /** A log ending in term `x` is what the leader of `x` had. */
  lemma EndsInLeaderLog(logs: map<Term, Log>, log: Log, bound: Term)
    requires GoodLog(logs, log, bound) && log != []
    ensures var x := LastTerm(log); x in logs && |log| <= |logs[x]| && log == logs[x][..|log|]
  {
    assert Recorded(logs, log, |log| - 1);
    assert log[..|log|] == log;
  }

  /** Log matching: logs that agree on the term at an index agree up to there. */
  lemma LogMatching(logs: map<Term, Log>, a: Log, b: Log, boundA: Term, boundB: Term, i: nat)
    requires GoodLog(logs, a, boundA) && GoodLog(logs, b, boundB)
    requires i < |a| && i < |b| && a[i].term == b[i].term
    ensures a[..i + 1] == b[..i + 1]
  {
    assert Recorded(logs, a, i) && Recorded(logs, b, i);
  }

  /** Of two logs, the more up to date one has whatever the other has of a
      committed prefix, if every leader in between does. */
  lemma UpToDateHas(h: History, t: Term, m: nat, voterLog: Log, winLog: Log, u: Term)
    requires WinsOk(h) && t in h.logs && 0 < m <= |h.logs[t]| && h.logs[t][m - 1].term == t && t < u
    requires GoodLog(h.logs, voterLog, u) && GoodLog(h.logs, winLog, u - 1)
    requires h.logs[t][..m] <= voterLog && UpToDate(|winLog|, LastTerm(winLog), voterLog)
    requires forall x | t < x < u && x in h.won :: h.logs[t][..m] <= h.won[x].log
    ensures h.logs[t][..m] <= winLog
  {
    var prefix := h.logs[t][..m];
    assert voterLog[m - 1] == prefix[m - 1];
    assert LastTerm(voterLog) >= t;
    EndsInLeaderLog(h.logs, voterLog, u);
    EndsInLeaderLog(h.logs, winLog, u - 1);
    var x := LastTerm(winLog);
    if x != LastTerm(voterLog) {
      assert t < x < u && x in h.won;
      assert WinOk(h, x);
      assert prefix <= h.logs[x];
      assert |winLog| > m by { assert winLog[|winLog| - 1] == h.logs[x][|winLog| - 1]; PrefixTerms(h, t, m); }
    }
  }

  lemma PrefixTerms(h: History, t: Term, m: nat)
    requires WinsOk(h) && t in h.logs && m <= |h.logs[t]|
    ensures forall i | 0 <= i < m :: h.logs[t][..m][i].term <= t
  {
    assert WinOk(h, t);
  }

  /** A ballot that elected `u` was cast with a log no more up to date. */
  lemma ElectingBallot(h: History, u: Term, p: Peer) returns (log: Log)
    requires BallotsOk(h) && BidsOk(h) && WinsOk(h) && u in h.won && p in h.won[u].voters
    ensures Ballot(p, u, h.won[u].leader, log) in h.ballots
    ensures GoodLog(h.logs, log, u) && UpToDate(|h.won[u].log|, LastTerm(h.won[u].log), log)
    ensures u > 0 && GoodLog(h.logs, h.won[u].log, u - 1)
  {
    hide GoodLog, UpToDate;
    var w := h.won[u];
    assert WinOk(h, u) && Voted(h, p, u, w.leader);
    log :| Ballot(p, u, w.leader, log) in h.ballots;
    assert BallotOk(h, Ballot(p, u, w.leader, log));
    var bid :| Bid(w.leader, u, bid) in h.bids && UpToDate(|bid|, LastTerm(bid), log);
    assert Bid(w.leader, u, bid) == Bid(w.leader, u, w.log);
  }

  /** Somebody both held what was committed and voted for the later leader. */
  lemma SharedVoter(h: History, t: Term, m: nat, u: Term) returns (p: Peer)
    requires WinsOk(h) && Committed(h, t, m) && u in h.won
    ensures p in h.won[u].voters && Held(h, p, t, m)
  {
    hide GoodLog, Held;
    assert WinOk(h, u);
    var q :| QuorumHeld(h, q, t, m);
    p := QuorumsMeet(h.cluster, q, h.won[u].voters);
  }

  /** Leader completeness: what was committed in one term is in the log of every
      later leader from the start. */
  lemma {:induction false} LeaderCompleteness(h: History, t: Term, m: nat, u: Term)
    requires HistoryOk(h, true) && Committed(h, t, m) && u in h.won && t < u
    ensures h.logs[t][..m] <= h.won[u].log
    decreases u
  {
    hide GoodLog, UpToDate, SentOk, PromisesOk, BallotsInformed, BallotsOk, BidsOk, WinsOk, Held;
    var p := SharedVoter(h, t, m, u);
    var log := ElectingBallot(h, u, p);
    assert WinInformed(h, u) && Retains(h, log, t, m, u - 1);
    forall x | t < x < u && x in h.won ensures h.logs[t][..m] <= h.won[x].log {
      LeaderCompleteness(h, t, m, x);
    }
    assert h.logs[t][..m] <= log;
    UpToDateHas(h, t, m, log, h.won[u].log, u);
  }

  /** What is committed is one sequence: of any two decided logs, one is a prefix
      of the other. */
  lemma DecidedAgree(h: History, a: Log, b: Log, boundA: Term, boundB: Term)
    requires HistoryOk(h, true) && Decided(h, a, boundA) && Decided(h, b, boundB)
    ensures a <= b || b <= a
  {
    hide HistoryOk, QuorumHeld;
    if a != [] && b != [] {
      var t: Term, m: nat :| t <= boundA && Committed(h, t, m) && a <= h.logs[t][..m];
      var u: Term, k: nat :| u <= boundB && Committed(h, u, k) && b <= h.logs[u][..k];
      if t <= u { CommittedAgree(h, t, m, u, k); } else { CommittedAgree(h, u, k, t, m); }
      CommonPrefix(a, b, h.logs[t][..m], h.logs[u][..k]);
    }
  }

  lemma CommittedAgree(h: History, t: Term, m: nat, u: Term, k: nat)
    requires HistoryOk(h, true) && Committed(h, t, m) && Committed(h, u, k) && t <= u
    ensures h.logs[t][..m] <= h.logs[u][..k] || h.logs[u][..k] <= h.logs[t][..m]
  {
    hide BallotsOk, BidsOk, SentOk, PromisesOk, BallotsInformed, WinsInformed;
    if t < u {
      LeaderCompleteness(h, t, m, u);
      assert WinOk(h, u);
      assert h.logs[t][..m] <= h.logs[u];
    }
  }

  lemma CommonPrefix(a: Log, b: Log, x: Log, y: Log)
    requires a <= x && b <= y && (x <= y || y <= x)
    ensures a <= b || b <= a
  {
    var long := if x <= y then y else x;
    assert a <= long && b <= long;
  }
}
