/** The record only grows, and each move adds to it only what concerns the replica
    that moves, in the term it is in. */
module RaftGrowth {
  import opened RaftNode
  import opened RaftSystem
  import opened RaftSafety

  /** `h'` is `h` with more in it. */
  ghost predicate Extends(h: History, h': History) {
    && h'.cluster == h.cluster
    && h.sent <= h'.sent && h.ballots <= h'.ballots && h.bids <= h'.bids
    && (forall t | t in h.won :: t in h'.won && h'.won[t] == h.won[t])
    && (forall t | t in h.logs :: t in h'.logs && h.logs[t] <= h'.logs[t])
  }

  /** What was added is by replica `a` in term `t`. */
  ghost predicate ByAt(h: History, h': History, a: Peer, t: Term) {
    && Extends(h, h')
    && (forall e | e in h'.sent && e !in h.sent :: e.from == a && (Acks(e.message) ==> e.message.term == t))
    && (forall b | b in h'.ballots && b !in h.ballots :: b.voter == a && b.term == t)
    && (forall b | b in h'.bids && b !in h.bids :: b.candidate == a && b.term == t)
    && (forall u | u in h'.won && u !in h.won :: u == t && h'.won[u].leader == a)
    && (forall u | u in h'.logs && (u !in h.logs || h'.logs[u] != h.logs[u]) ::
        u == t && u in h'.won && h'.won[u].leader == a)
  }

  // ------------------------------------------------------------ what carries over

  lemma GoodLogGrows(h: History, h': History, log: Log, bound: Term)
    requires Extends(h, h') && GoodLog(h.logs, log, bound)
    ensures GoodLog(h'.logs, log, bound)
  {
    forall i | 0 <= i < |log| ensures Recorded(h'.logs, log, i) {
      assert Recorded(h.logs, log, i);
      var t := log[i].term;
      assert h.logs[t] <= h'.logs[t];
      assert h'.logs[t][..i + 1] == h.logs[t][..i + 1];
    }
  }

  lemma VotedGrows(h: History, h': History)
    requires Extends(h, h')
    ensures forall p, t, c | Voted(h, p, t, c) :: Voted(h', p, t, c)
  {
    forall p, t, c | Voted(h, p, t, c) ensures Voted(h', p, t, c) {
      var log :| Ballot(p, t, c, log) in h.ballots;
      assert Ballot(p, t, c, log) in h'.ballots;
    }
  }

  lemma HeldGrows(h: History, h': History, p: Peer, t: Term, m: nat)
    requires Extends(h, h') && Held(h, p, t, m)
    ensures Held(h', p, t, m) && h'.logs[t][..m] == h.logs[t][..m]
  {
    assert h.logs[t] <= h'.logs[t];
    if h.won[t].leader != p {
      var e :| e in h.sent && IsAck(e, p, t, m);
      assert e in h'.sent;
    }
  }

  lemma LacksGrows(h: History, h': History, u: Term, t: Term, m: nat)
    requires Extends(h, h') && Lacks(h, u, t, m)
    ensures Lacks(h', u, t, m)
  {
    assert h.logs[t] <= h'.logs[t];
    assert h'.logs[t][..m] == h.logs[t][..m];
  }

  lemma RetainsGrows(h: History, h': History, log: Log, t: Term, m: nat, bound: int)
    requires Extends(h, h') && Retains(h, log, t, m, bound)
    ensures Retains(h', log, t, m, bound)
  {
    hide Lacks;
    assert h.logs[t] <= h'.logs[t];
    assert h'.logs[t][..m] == h.logs[t][..m];
    if !(h.logs[t][..m] <= log) {
      var u: Term :| u <= bound && Lacks(h, u, t, m);
      LacksGrows(h, h', u, t, m);
    }
  }

  lemma CommittedGrows(h: History, h': History, t: Term, m: nat)
    requires Extends(h, h') && Committed(h, t, m)
    ensures Committed(h', t, m) && h'.logs[t][..m] == h.logs[t][..m]
  {
    hide Held;
    assert h.logs[t] <= h'.logs[t];
    var q :| QuorumHeld(h, q, t, m);
    forall p | p in q ensures Held(h', p, t, m) { HeldGrows(h, h', p, t, m); }
    assert QuorumHeld(h', q, t, m);
  }

  lemma DecidedGrows(h: History, h': History, log: Log, bound: Term, more: Term)
    requires Extends(h, h') && Decided(h, log, bound) && bound <= more
    ensures Decided(h', log, more)
  {
    hide QuorumHeld;
    if log != [] {
      var t: Term, m: nat :| t <= bound && Committed(h, t, m) && log <= h.logs[t][..m];
      CommittedGrows(h, h', t, m);
      assert t <= more && Committed(h', t, m) && log <= h'.logs[t][..m];
    }
  }

  lemma EnvelopeGrows(h: History, h': History, e: Envelope)
    requires Extends(h, h') && EnvelopeOk(h, e)
    ensures EnvelopeOk(h', e)
  {
    match e.message
    case VoteRequest(t, lastIndex, lastTerm) =>
      var log :| Bid(e.from, t, log) in h.bids && |log| == lastIndex && LastTerm(log) == lastTerm;
      assert Bid(e.from, t, log) in h'.bids;
    case VoteResponse(t, granted) => VotedGrows(h, h');
    case AppendEntries(t, prev, prevTerm, entries, leaderCommit) =>
      assert h.logs[t] <= h'.logs[t];
      assert h'.logs[t][prev..prev + |entries|] == h.logs[t][prev..prev + |entries|];
    case InstallSnapshot(t, covers, data) => assert h.logs[t] <= h'.logs[t];
    case _ =>
  }

  lemma PromiseGrows(h: History, h': History, m: Message)
    requires Extends(h, h') && PromiseOk(h, m)
    ensures PromiseOk(h', m)
  {
    hide Decided;
    match m
    case AppendEntries(t, _, _, _, leaderCommit) =>
      assert h.logs[t] <= h'.logs[t];
      DecidedGrows(h, h', h.logs[t][..leaderCommit], t, t);
      assert h'.logs[t][..leaderCommit] == h.logs[t][..leaderCommit];
    case InstallSnapshot(t, covers, data) => DecidedGrows(h, h', covers, t, t);
    case AppendResponse(t, success, _, _, _) => if success { assert h.logs[t] <= h'.logs[t]; }
    case InstallResponse(t, _) => assert h.logs[t] <= h'.logs[t];
    case _ =>
  }

  lemma BallotGrows(h: History, h': History, b: Ballot)
    requires Extends(h, h') && BallotOk(h, b)
    ensures BallotOk(h', b)
  {
    hide GoodLog, UpToDate;
    GoodLogGrows(h, h', b.log, b.term);
    var log :| Bid(b.candidate, b.term, log) in h.bids && UpToDate(|log|, LastTerm(log), b.log);
    assert Bid(b.candidate, b.term, log) in h'.bids;
  }

  lemma WinGrows(h: History, h': History, t: Term)
    requires Extends(h, h') && t in h.won && t in h.logs && WinOk(h, t) && h'.logs[t] == h.logs[t]
    ensures WinOk(h', t)
  {
    hide GoodLog;
    VotedGrows(h, h');
    GoodLogGrows(h, h', h.logs[t], t);
  }

  // --------------------------------------------------------------- what is news

  /** Nobody else, and nothing in another term, is newly held. */
  lemma HeldBefore(h: History, h': History, a: Peer, at: Term, p: Peer, t: Term, m: nat)
    requires ByAt(h, h', a, at) && PromisesOk(h) && WinsOk(h) && Held(h', p, t, m) && (p != a || t != at)
    ensures Held(h, p, t, m) && h'.logs[t][..m] == h.logs[t][..m]
  {
    hide WinOk;
    if h'.won[t].leader == p {
      assert t in h.won && h'.logs[t] == h.logs[t];
    } else {
      var e :| e in h'.sent && IsAck(e, p, t, m);
      assert e in h.sent;
      assert PromiseOk(h, e.message);
      assert h.logs[t] <= h'.logs[t];
    }
  }

  lemma InformedGrows(h: History, h': History, a: Peer, at: Term, b: Ballot)
    requires ByAt(h, h', a, at) && PromisesOk(h) && WinsOk(h)
    requires BallotInformed(h, b) && (b.voter == a ==> b.term <= at)
    ensures BallotInformed(h', b)
  {
    hide Held, Retains;
    forall t: Term, m: nat | t < b.term && Held(h', b.voter, t, m) ensures Retains(h', b.log, t, m, b.term) {
      HeldBefore(h, h', a, at, b.voter, t, m);
      RetainsGrows(h, h', b.log, t, m, b.term);
    }
  }

  lemma WinInformedGrows(h: History, h': History, a: Peer, at: Term, u: Term)
    requires ByAt(h, h', a, at) && PromisesOk(h) && WinsOk(h) && BallotsOk(h')
    requires u in h.won && WinInformed(h, u)
    requires forall b | b in h.ballots && b.voter == a :: b.term <= at
    ensures WinInformed(h', u)
  {
    hide Held, Retains, BallotOk;
    var w := h.won[u];
    assert WinOk(h, u);
    forall q, log, t: Term, m: nat | q in w.voters && Ballot(q, u, w.leader, log) in h'.ballots && t < u
        && Held(h', q, t, m)
      ensures Retains(h', log, t, m, u - 1)
    {
      assert Voted(h, q, u, w.leader);
      var was :| Ballot(q, u, w.leader, was) in h.ballots;
      assert Ballot(q, u, w.leader, was) == Ballot(q, u, w.leader, log);
      HeldBefore(h, h', a, at, q, t, m);
      RetainsGrows(h, h', log, t, m, u - 1);
    }
  }

  // ------------------------------------------------------------- other replicas

  lemma TiedGrows(h: History, h': History, a: Peer, at: Term, n: Node)
    requires ByAt(h, h', a, at) && Tied(h, n) && n.id != a
    ensures Tied(h', n)
  {
    VotedGrows(h, h');
  }

  lemma RoleGrows(h: History, h': History, a: Peer, at: Term, n: Node)
    requires ByAt(h, h', a, at) && RoleOk(h, n) && n.id != a
    ensures RoleOk(h', n)
  {
    VotedGrows(h, h');
  }

  lemma MatchedGrows(h: History, h': History, n: Node)
    requires Extends(h, h') && MatchedOk(h, n)
    ensures MatchedOk(h', n)
  {
    hide Held;
    if n.role == Leader {
      forall q | q in n.matched && n.matched[q] > 0 ensures Held(h', q, n.term, n.matched[q]) {
        HeldGrows(h, h', q, n.term, n.matched[q]);
      }
    }
  }

  lemma HoldingGrows(h: History, h': History, a: Peer, at: Term, n: Node)
    requires ByAt(h, h', a, at) && PromisesOk(h) && WinsOk(h) && HoldingOk(h, n) && n.id != a
    ensures HoldingOk(h', n)
  {
    hide Held, Retains;
    forall t: Term, m: nat | Held(h', n.id, t, m) ensures t <= n.term && Retains(h', n.log, t, m, n.term) {
      HeldBefore(h, h', a, at, n.id, t, m);
      RetainsGrows(h, h', n.log, t, m, n.term);
    }
  }

  lemma MachineGrows(h: History, h': History, n: Node, n': Node)
    requires Extends(h, h') && MachineHeld(h, n) && n'.id == n.id && n'.machine == n.machine
    ensures MachineHeld(h', n')
  {
    hide Decided;
    if n.machine != [] {
      var t: Term :| HeldDecided(h, n.id, t, n.machine);
      HeldGrows(h, h', n.id, t, |n.machine|);
      DecidedGrows(h, h', n.machine, t, t);
      assert h.logs[t] <= h'.logs[t];
      assert HeldDecided(h', n'.id, t, n'.machine);
    }
  }

  lemma CommitKeeps(h: History, h': History, n: Node, n': Node)
    requires Extends(h, h') && CommitOk(h, n) && n.term <= n'.term && n'.id == n.id
    requires n'.commit == n.commit && n'.machine == n.machine && n'.saved == n.saved && n.log <= n'.log
    ensures CommitOk(h', n')
  {
    hide Decided, MachineHeld;
    DecidedGrows(h, h', n.machine, n.term, n'.term);
    MachineGrows(h, h', n, n');
  }

  lemma OtherKeeps(h: History, h': History, a: Peer, at: Term, n: Node, kept: bool)
    requires ByAt(h, h', a, at) && HistoryOk(h, kept) && NodeOk(h, n, kept) && n.id != a
    ensures NodeOk(h', n, kept)
  {
    hide Tied, RoleOk, MatchedOk, HoldingOk, CommitOk, GoodLog, BallotsOk, BidsOk, WinsOk, SentOk, PromisesOk,
         BallotsInformed, WinsInformed;
    GoodLogGrows(h, h', n.log, n.term);
    TiedGrows(h, h', a, at, n);
    RoleGrows(h, h', a, at, n);
    if kept {
      MatchedGrows(h, h', n);
      HoldingGrows(h, h', a, at, n);
      CommitKeeps(h, h', n, n);
    }
  }

  /** A move keeps the invariant if it leaves a good record and a good mover. */
  lemma MoveKeeps(s: System, n: Node, h': History, at: Term, kept: bool)
    requires Inv(s, kept) && n.id in s.nodes && ByAt(s.h, h', n.id, at) && HistoryOk(h', kept) && NodeOk(h', n, kept)
    ensures Inv(System(s.nodes[n.id := n], h'), kept)
  {
    hide NodeOk, ByAt, HistoryOk;
    assert h'.cluster == s.h.cluster by { SameCluster(s.h, h', n.id, at); }
    forall p | p in s.nodes && p != n.id ensures NodeOk(h', s.nodes[p], kept) {
      OtherKeeps(s.h, h', n.id, at, s.nodes[p], kept);
    }
  }

  lemma SameCluster(h: History, h': History, a: Peer, at: Term)
    requires ByAt(h, h', a, at)
    ensures h'.cluster == h.cluster
  {}
}
