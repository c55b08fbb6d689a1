/** Every move of every replica keeps the invariant: standing still, sending,
    elections and proposals. */
module RaftMoves {
  import opened Wrappers
  import opened RaftNode
  import opened RaftSystem
  import opened RaftSafety
  import opened RaftGrowth

  // ------------------------------------------------- assembling the new record

  /** What a move adds to the record is in order. */
  ghost predicate NewsOk(h: History, h': History) {
    && (forall b | b in h'.ballots && b !in h.ballots :: BallotOk(h', b))
    && (forall a, b | a in h'.ballots && b in h'.ballots && a.voter == b.voter && a.term == b.term :: a == b)
    && (forall b | b in h'.bids && b !in h.bids :: b.term > 0 && GoodLog(h'.logs, b.log, b.term - 1))
    && (forall a, b | a in h'.bids && b in h'.bids && a.candidate == b.candidate && a.term == b.term :: a == b)
    && h'.won.Keys == h'.logs.Keys
    && (forall t | t in h'.won && (t !in h.won || t !in h.logs || h'.logs[t] != h.logs[t]) :: WinOk(h', t))
    && (forall e | e in h'.sent && e !in h.sent :: EnvelopeOk(h', e))
  }

  ghost predicate NewsInformed(h: History, h': History) {
    && (forall b | b in h'.ballots && b !in h.ballots :: BallotInformed(h', b))
    && (forall t | t in h'.won && t !in h.won :: WinInformed(h', t))
    && (forall e | e in h'.sent && e !in h.sent :: PromiseOk(h', e.message))
  }

  lemma RecordKeeps(h: History, h': History, a: Peer, at: Term)
    requires Record(h) && ByAt(h, h', a, at) && NewsOk(h, h')
    ensures Record(h')
  {
    hide BallotOk, GoodLog, WinOk, EnvelopeOk;
    forall b | b in h'.ballots ensures BallotOk(h', b) {
      if b in h.ballots { BallotGrows(h, h', b); }
    }
    forall b | b in h'.bids ensures b.term > 0 && GoodLog(h'.logs, b.log, b.term - 1) {
      if b in h.bids { GoodLogGrows(h, h', b.log, b.term - 1); }
    }
    forall t | t in h'.won ensures WinOk(h', t) {
      if t in h.won && h'.logs[t] == h.logs[t] { WinGrows(h, h', t); }
    }
    forall e | e in h'.sent ensures EnvelopeOk(h', e) {
      if e in h.sent { EnvelopeGrows(h, h', e); }
    }
  }

  lemma InformedKeeps(h: History, h': History, a: Peer, at: Term)
    requires HistoryOk(h, true) && Record(h') && ByAt(h, h', a, at) && NewsInformed(h, h')
    requires forall b | b in h.ballots && b.voter == a :: b.term <= at
    ensures Informed(h')
  {
    hide BallotOk, BallotInformed, GoodLog, WinOk, WinInformed, EnvelopeOk, PromiseOk;
    forall b | b in h'.ballots ensures BallotInformed(h', b) {
      if b in h.ballots { InformedGrows(h, h', a, at, b); }
    }
    forall t | t in h'.won ensures WinInformed(h', t) {
      if t in h.won { WinInformedGrows(h, h', a, at, t); }
    }
    forall e | e in h'.sent ensures PromiseOk(h', e.message) {
      if e in h.sent { PromiseGrows(h, h', e.message); }
    }
  }

  lemma HistoryKeeps(h: History, h': History, a: Peer, at: Term, kept: bool)
    requires HistoryOk(h, kept) && ByAt(h, h', a, at) && NewsOk(h, h') && (kept ==> NewsInformed(h, h'))
    requires forall b | b in h.ballots && b.voter == a :: b.term <= at
    ensures HistoryOk(h', kept)
  {
    hide Record, Informed, NewsOk, NewsInformed, ByAt;
    RecordKeeps(h, h', a, at);
    if kept { InformedKeeps(h, h', a, at); }
  }

  lemma Unchanged(h: History, a: Peer, at: Term)
    requires Record(h)
    ensures ByAt(h, h, a, at) && Extends(h, h)
  {}

  // ------------------------------------------------------------ moving a replica

  lemma RetainsWider(h: History, log: Log, more: Log, t: Term, m: nat, bound: int, further: int)
    requires Retains(h, log, t, m, bound) && bound <= further && log <= more
    ensures Retains(h, more, t, m, further)
  {
    hide Lacks;
  }

  /** The mover still holds what it held, if its log has only grown and it has
      newly held nothing it does not have. */
  lemma MoverHolds(h: History, h': History, at: Term, n: Node, n': Node)
    requires ByAt(h, h', n.id, at) && PromisesOk(h) && WinsOk(h) && HoldingOk(h, n)
    requires n'.id == n.id && n.log <= n'.log && n.term <= n'.term && at <= n'.term
    requires forall m: nat | Held(h', n.id, at, m) && !Held(h, n.id, at, m) :: h'.logs[at][..m] <= n'.log
    ensures HoldingOk(h', n')
  {
    hide Held, Retains;
    forall t: Term, m: nat | Held(h', n.id, t, m) ensures t <= n'.term && Retains(h', n'.log, t, m, n'.term) {
      if Held(h, n.id, t, m) {
        RetainsGrows(h, h', n.log, t, m, n.term);
        RetainsWider(h', n.log, n'.log, t, m, n.term, n'.term);
      } else {
        if t != at { HeldBefore(h, h', n.id, at, n.id, t, m); }
        NewlyHeld(h', n.id, n'.log, t, m, n'.term);
      }
    }
  }

  lemma NewlyHeld(h: History, p: Peer, log: Log, t: Term, m: nat, bound: int)
    requires Held(h, p, t, m) && h.logs[t][..m] <= log
    ensures Retains(h, log, t, m, bound)
  {}

  lemma GoodLogWider(logs: map<Term, Log>, log: Log, bound: Term, further: Term)
    requires GoodLog(logs, log, bound) && bound <= further
    ensures GoodLog(logs, log, further)
  {}

  lemma AtHome(s: System, p: Peer, kept: bool)
    requires Inv(s, kept) && p in s.nodes
    ensures s.nodes[p].id == p && NodeOk(s.h, s.nodes[p], kept)
  {
    hide NodeOk, HistoryOk;
  }

  lemma HistoryOf(s: System, kept: bool)
    requires Inv(s, kept)
    ensures HistoryOk(s.h, kept) && Record(s.h) && s.h.cluster != {} && s.nodes.Keys == s.h.cluster
  {
    hide NodeOk;
  }

  /** A replica whose term, vote, log and commitment stay as they are. */
  lemma VolatileKeeps(s: System, n: Node, n': Node, kept: bool)
    requires Inv(s, kept) && n.id in s.nodes && NodeOk(s.h, n, kept)
    requires n' == n.(role := n'.role, votes := n'.votes, next := n'.next, matched := n'.matched)
    requires RoleOk(s.h, n') && (kept ==> MatchedOk(s.h, n'))
    ensures Inv(With(s, n'), kept) && NodeOk(s.h, n', kept)
  {
    hide HistoryOk, Record, RoleOk, MatchedOk, GoodLog, HoldingOk, CommitOk;
    HistoryOf(s, kept);
    Unchanged(s.h, n.id, n.term);
    if kept {
      HoldingAlike(s.h, n, n');
      CommitKeeps(s.h, s.h, n, n');
    }
    MoveKeeps(s, n', s.h, n.term, kept);
  }

  lemma HoldingAlike(h: History, n: Node, n': Node)
    requires HoldingOk(h, n) && n'.id == n.id && n'.log == n.log && n'.term == n.term
    ensures HoldingOk(h, n')
  {}

  /** Stepping down, and adopting a later term. */
  lemma FollowKeeps(s: System, n: Node, t: Term, kept: bool)
    requires Inv(s, kept) && n.id in s.nodes && NodeOk(s.h, n, kept) && t >= n.term
    ensures Inv(With(s, BecomeFollower(n, t)), kept) && NodeOk(s.h, BecomeFollower(n, t), kept)
  {
    hide GoodLog, HoldingOk, CommitOk, Held, BallotsOk, BidsOk, SentOk, WinsInformed, BallotsInformed;
    var f := BecomeFollower(n, t);
    HistoryOf(s, kept);
    Unchanged(s.h, n.id, t);
    GoodLogWider(s.h.logs, n.log, n.term, t);
    if kept {
      MoverHolds(s.h, s.h, t, n, f);
      CommitKeeps(s.h, s.h, n, f);
    }
    MoveKeeps(s, f, s.h, t, kept);
  }

  lemma RestartKeeps(s: System, n: Node, durable: bool, kept: bool)
    requires Inv(s, kept) && n.id in s.nodes && NodeOk(s.h, n, kept)
    ensures Inv(With(s, Restarted(n, durable)), kept)
  {
    hide HistoryOk, Record, GoodLog, HoldingOk, Decided, MachineHeld;
    var r := Restarted(n, durable);
    HistoryOf(s, kept);
    if kept {
      HoldingAlike(s.h, n, r);
      assert n.machine[..|n.saved|] == n.saved;
      DecidedPrefix(s.h, n.machine, |n.saved|, n.term);
      MachineHeldPrefix(s.h, n, r);
    }
    Unchanged(s.h, n.id, n.term);
    MoveKeeps(s, r, s.h, n.term, kept);
  }

  lemma MachineHeldPrefix(h: History, n: Node, n': Node)
    requires MachineHeld(h, n) && n'.id == n.id && n'.machine <= n.machine
    ensures MachineHeld(h, n')
  {
    hide Held, Decided;
    if n'.machine != [] {
      var t: Term :| HeldDecided(h, n.id, t, n.machine);
      HeldLess(h, n.id, t, |n.machine|, |n'.machine|);
      DecidedPrefix(h, n.machine, |n'.machine|, t);
      assert n.machine[..|n'.machine|] == n'.machine;
      assert HeldDecided(h, n'.id, t, n'.machine);
    }
  }

  lemma DecidedPrefix(h: History, log: Log, k: nat, bound: Term)
    requires Decided(h, log, bound) && k <= |log|
    ensures Decided(h, log[..k], bound)
  {
    hide QuorumHeld;
    if k > 0 {
      var t: Term, m: nat :| t <= bound && Committed(h, t, m) && log <= h.logs[t][..m];
      assert log[..k] <= h.logs[t][..m];
    }
  }

  lemma HeldLess(h: History, p: Peer, t: Term, m: nat, less: nat)
    requires Held(h, p, t, m) && less <= m
    ensures Held(h, p, t, less)
  {
    if h.won[t].leader != p {
      var e :| e in h.sent && IsAck(e, p, t, m);
      assert IsAck(e, p, t, less);
    }
  }

  // ------------------------------------------------------------------- sending

  /** Messages that report nothing newly held. */
  lemma SendKeeps(s: System, n: Node, envelopes: set<Envelope>, kept: bool)
    requires Inv(s, kept) && n.id in s.nodes && s.nodes[n.id] == n
    requires forall e | e in envelopes :: e.from == n.id && EnvelopeOk(s.h, e) && !Acks(e.message)
    requires kept ==> forall e | e in envelopes :: PromiseOk(s.h, e.message)
    ensures Inv(Send(s, envelopes), kept) && Extends(s.h, Send(s, envelopes).h) && NodeOk(Send(s, envelopes).h, n, kept)
  {
    hide EnvelopeOk, PromiseOk, BallotOk, BallotInformed, GoodLog, WinOk, WinInformed, NodeOk, HistoryOk, Record,
         Informed;
    var h' := s.h.(sent := s.h.sent + envelopes);
    AtHome(s, n.id, kept);
    HistoryOf(s, kept);
    BallotsBefore(s.h, n, kept);
    forall e | e in h'.sent && e !in s.h.sent ensures EnvelopeOk(h', e) && (kept ==> PromiseOk(h', e.message)) {
      EnvelopeGrows(s.h, h', e);
      if kept { PromiseGrows(s.h, h', e.message); }
    }
    SentNews(s.h, h');
    HistoryKeeps(s.h, h', n.id, n.term, kept);
    SenderKeeps(s.h, h', n, kept);
    MoveKeeps(s, n, h', n.term, kept);
    assert s.nodes[n.id := n] == s.nodes;
  }

  lemma SentNews(h: History, h': History)
    requires Record(h) && h' == h.(sent := h'.sent) && h.sent <= h'.sent
    requires forall e | e in h'.sent && e !in h.sent :: EnvelopeOk(h', e)
    ensures NewsOk(h, h')
    ensures (forall e | e in h'.sent && e !in h.sent :: PromiseOk(h', e.message)) ==> NewsInformed(h, h')
  {
    hide EnvelopeOk, PromiseOk, BallotOk, WinOk;
  }

  lemma BallotsBefore(h: History, n: Node, kept: bool)
    requires NodeOk(h, n, kept)
    ensures forall b | b in h.ballots && b.voter == n.id :: b.term <= n.term
  {}

  lemma SenderKeeps(h: History, h': History, n: Node, kept: bool)
    requires ByAt(h, h', n.id, n.term) && h' == h.(sent := h'.sent) && HistoryOk(h, kept) && NodeOk(h, n, kept)
    requires forall e | e in h'.sent && e !in h.sent :: !Acks(e.message)
    ensures NodeOk(h', n, kept)
  {
    hide GoodLog, HoldingOk, CommitOk, MatchedOk, EnvelopeOk, WinOk, BallotsOk, BidsOk, SentOk, BallotsInformed,
         WinsInformed, PromiseOk;
    GoodLogGrows(h, h', n.log, n.term);
    VotedGrows(h, h');
    if kept {
      NoNewsHeld(h, h', n.id, n.term);
      MoverHolds(h, h', n.term, n, n);
      CommitKeeps(h, h', n, n);
      MatchedGrows(h, h', n);
    }
  }

  /** What a leader sends comes from its log, or stands for a part of it. */
  lemma AppendsOk(h: History, n: Node, p: Peer, max: nat, kept: bool)
    requires NodeOk(h, n, kept) && n.role == Leader && p != n.id
    ensures forall e | e in AppendTo(n, p, max) ::
              e.from == n.id && EnvelopeOk(h, e) && !Acks(e.message) && (kept ==> PromiseOk(h, e.message))
  {
    hide GoodLog, HoldingOk, Decided;
    if kept {
      assert n.log[..n.commit] == n.machine[..n.commit] && Covers(n) == n.saved == n.machine[..n.base];
      DecidedPrefix(h, n.machine, n.commit, n.term);
      DecidedPrefix(h, n.machine, n.base, n.term);
    }
  }

  lemma AfterSendKeeps(s: System, n: Node, peers: set<Peer>, kept: bool)
    requires Inv(s, kept) && n.id in s.nodes && NodeOk(s.h, n, kept) && n.role == Leader
    ensures var a := AfterSend(n, peers);
            Inv(With(s, a), kept) && NodeOk(s.h, a, kept) && a.role == Leader && a.id == n.id
  {
    hide GoodLog, Tied, HoldingOk, CommitOk, HistoryOk, OutOfReach;
    VolatileKeeps(s, n, AfterSend(n, peers), kept);
  }

  lemma SendAppendsKeeps(s: System, n: Node, peers: set<Peer>, max: nat, kept: bool)
    requires Inv(s, kept) && n.id in s.nodes && NodeOk(s.h, n, kept) && n.role == Leader && n.id !in peers
    ensures var t, a := SendAppends(s, n, peers, max), AfterSend(n, peers);
            Inv(t, kept) && Extends(s.h, t.h) && NodeOk(t.h, a, kept) && t.nodes == s.nodes[n.id := a]
  {
    hide NodeOk, HistoryOk, EnvelopeOk, PromiseOk, AppendTo, Inv;
    var a := AfterSend(n, peers);
    AfterSendKeeps(s, n, peers, kept);
    forall e | e in AppendsFor(n, peers, max)
      ensures e.from == n.id && EnvelopeOk(s.h, e) && !Acks(e.message) && (kept ==> PromiseOk(s.h, e.message))
    {
      var q :| q in peers && e in AppendTo(n, q, max);
      AppendsOk(s.h, n, q, max, kept);
    }
    SendKeeps(With(s, a), a, AppendsFor(n, peers, max), kept);
  }

  // ------------------------------------------------------------------ elections

  function StandIn(h: History, c: Node): History {
    h.(sent := h.sent + AskAll(c, h.cluster, VoteRequest(c.term, |c.log|, LastTerm(c.log))),
       ballots := h.ballots + {Ballot(c.id, c.term, c.id, c.log)}, bids := h.bids + {Bid(c.id, c.term, c.log)})
  }

  lemma StandNews(h: History, c: Node)
    ensures ByAt(h, StandIn(h, c), c.id, c.term)
    ensures forall e | e in StandIn(h, c).sent && e !in h.sent ::
              EnvelopeOk(StandIn(h, c), e) && PromiseOk(StandIn(h, c), e.message) && !Acks(e.message)
  {
    hide LastTerm;
    var h' := StandIn(h, c);
    assert Bid(c.id, c.term, c.log) in h'.bids;
    assert Stood(h', c.id, c.term, |c.log|, LastTerm(c.log));
  }

  lemma StandRecord(h: History, c: Node)
    requires Record(h) && c.term > 0 && c.id in h.cluster && GoodLog(h.logs, c.log, c.term - 1)
    requires forall b | b in h.ballots && b.voter == c.id :: b.term < c.term
    requires forall b | b in h.bids && b.candidate == c.id :: b.term < c.term
    ensures Record(StandIn(h, c))
  {
    hide GoodLog, WinOk, LastTerm, ByAt, EnvelopeOk, PromiseOk;
    var b, h' := Ballot(c.id, c.term, c.id, c.log), StandIn(h, c);
    StandNews(h, c);
    assert Extends(h, h');
    assert Bid(c.id, c.term, c.log) in h'.bids && b in h'.ballots;
    GoodLogGrows(h, h', c.log, c.term - 1);
    GoodLogWider(h'.logs, c.log, c.term - 1, c.term);
    assert UpToDate(|c.log|, LastTerm(c.log), c.log);
    assert BallotOk(h', b);
    hide BallotOk;
    RecordKeeps(h, h', c.id, c.term);
  }

  lemma StandInformed(h: History, c: Node)
    requires HistoryOk(h, true) && Record(StandIn(h, c)) && c.term > 0
    requires forall b | b in h.ballots && b.voter == c.id :: b.term < c.term
    requires forall t: Term, m: nat | t < c.term && Held(h, c.id, t, m) :: Retains(h, c.log, t, m, c.term)
    ensures Informed(StandIn(h, c))
  {
    hide GoodLog, Held, Retains, WinOk, WinInformed, LastTerm, ByAt, EnvelopeOk, BallotsOk, BidsOk, SentOk, PromiseOk;
    var b, h' := Ballot(c.id, c.term, c.id, c.log), StandIn(h, c);
    StandNews(h, c);
    assert Extends(h, h');
    forall t: Term, m: nat | t < b.term && Held(h', b.voter, t, m) ensures Retains(h', b.log, t, m, b.term) {
      HeldBefore(h, h', c.id, c.term, c.id, t, m);
      RetainsGrows(h, h', c.log, t, m, c.term);
    }
    hide BallotInformed;
    InformedKeeps(h, h', c.id, c.term);
  }

  lemma StandNode(h: History, n: Node, kept: bool)
    requires HistoryOk(h, kept) && NodeOk(h, n, kept) && n.term < TermMax
    ensures NodeOk(StandIn(h, StartCampaign(n)), StartCampaign(n), kept)
  {
    hide GoodLog, Held, HoldingOk, CommitOk, WinOk, EnvelopeOk, PromiseOk, LastTerm, BallotsOk, BidsOk, SentOk,
         BallotsInformed, WinsInformed;
    var c := StartCampaign(n);
    var h' := StandIn(h, c);
    StandNews(h, c);
    GoodLogGrows(h, h', n.log, n.term);
    GoodLogWider(h'.logs, n.log, n.term, c.term);
    assert Ballot(c.id, c.term, c.id, c.log) in h'.ballots && Voted(h', c.id, c.term, c.id);
    if kept {
      NoNewsHeld(h, h', n.id, c.term);
      MoverHolds(h, h', c.term, n, c);
      CommitKeeps(h, h', n, c);
    }
  }

  lemma StandKeeps(s: System, n: Node, kept: bool)
    requires Inv(s, kept) && n.id in s.nodes && NodeOk(s.h, n, kept) && n.term < TermMax
    ensures Inv(Stand(s, n), kept) && NodeOk(Stand(s, n).h, StartCampaign(n), kept) && Extends(s.h, Stand(s, n).h)
  {
    hide GoodLog, Held, CommitOk, MatchedOk, RoleOk, Retains, Record, Informed;
    var c := StartCampaign(n);
    HistoryOf(s, kept);
    StandRecord(s.h, c);
    if kept {
      HoldingSays(s.h, n, c.term);
      StandInformed(s.h, c);
    }
    StandNode(s.h, n, kept);
    StandNews(s.h, c);
    ByExtends(s.h, StandIn(s.h, c), c.id, c.term);
    MoveKeeps(s, c, StandIn(s.h, c), c.term, kept);
  }

  /** Ballots, bids and requests to vote make nobody hold anything. */
  lemma NoNewsHeld(h: History, h': History, p: Peer, t: Term)
    requires h'.won == h.won && h'.logs == h.logs
    requires forall e | e in h'.sent && e !in h.sent :: !Acks(e.message)
    ensures forall m: nat | Held(h', p, t, m) :: Held(h, p, t, m)
  {}

  lemma HoldingSays(h: History, n: Node, bound: int)
    requires HoldingOk(h, n) && n.term <= bound
    ensures forall t: Term, m: nat | Held(h, n.id, t, m) :: Retains(h, n.log, t, m, bound)
  {
    hide Held, Retains;
    forall t: Term, m: nat | Held(h, n.id, t, m) ensures Retains(h, n.log, t, m, bound) {
      RetainsWider(h, n.log, n.log, t, m, n.term, bound);
    }
  }

  function VoteIn(h: History, n: Node, candidate: Peer): History {
    h.(sent := h.sent + {Envelope(n.id, candidate, VoteResponse(n.term, true))},
       ballots := h.ballots + {Ballot(n.id, n.term, candidate, n.log)})
  }

  lemma VoteRecord(h: History, n: Node, candidate: Peer)
    requires Record(h) && Sound(h, n) && n.votedFor.None?
    requires exists log :: Bid(candidate, n.term, log) in h.bids && UpToDate(|log|, LastTerm(log), n.log)
    ensures ByAt(h, VoteIn(h, n, candidate), n.id, n.term) && Record(VoteIn(h, n, candidate))
  {
    hide GoodLog, WinOk, RoleOk, UpToDate;
    var b, h' := Ballot(n.id, n.term, candidate, n.log), VoteIn(h, n, candidate);
    assert b in h'.ballots;
    GoodLogGrows(h, h', n.log, n.term);
    assert BallotOk(h', b);
    assert Voted(h', n.id, n.term, candidate);
    RecordKeeps(h, h', n.id, n.term);
  }

  lemma VoteInformed(h: History, n: Node, candidate: Peer)
    requires HistoryOk(h, true) && NodeOk(h, n, true) && n.votedFor.None?
    requires ByAt(h, VoteIn(h, n, candidate), n.id, n.term) && Record(VoteIn(h, n, candidate))
    ensures Informed(VoteIn(h, n, candidate))
  {
    hide GoodLog, Held, Retains, WinInformed, CommitOk, MatchedOk, RoleOk, BallotsOk, BidsOk, WinOk, SentOk;
    var b, h' := Ballot(n.id, n.term, candidate, n.log), VoteIn(h, n, candidate);
    HoldingSays(h, n, n.term);
    forall t: Term, m: nat | t < b.term && Held(h', b.voter, t, m) ensures Retains(h', b.log, t, m, b.term) {
      HeldBefore(h, h', n.id, n.term, n.id, t, m);
      RetainsGrows(h, h', n.log, t, m, n.term);
    }
    InformedKeeps(h, h', n.id, n.term);
  }

  lemma VoteNode(h: History, n: Node, candidate: Peer, kept: bool)
    requires HistoryOk(h, kept) && NodeOk(h, n, kept) && n.votedFor.None?
    requires ByAt(h, VoteIn(h, n, candidate), n.id, n.term)
    ensures NodeOk(VoteIn(h, n, candidate), n.(votedFor := Some(candidate)), kept)
  {
    hide GoodLog, Held, HoldingOk, CommitOk, WinOk, EnvelopeOk, PromiseOk, BallotsOk, BidsOk, SentOk, BallotsInformed,
         WinsInformed;
    var v, h' := n.(votedFor := Some(candidate)), VoteIn(h, n, candidate);
    assert Ballot(n.id, n.term, candidate, n.log) in h'.ballots && Voted(h', n.id, n.term, candidate);
    GoodLogGrows(h, h', n.log, n.term);
    VotedGrows(h, h');
    if kept {
      NoNewsHeld(h, h', n.id, n.term);
      MoverHolds(h, h', n.term, n, v);
      CommitKeeps(h, h', n, v);
      MatchedGrows(h, h', n);
    }
  }

  lemma VoteKeeps(s: System, n: Node, candidate: Peer, kept: bool)
    requires Inv(s, kept) && n.id in s.nodes && s.nodes[n.id] == n
    requires n.votedFor.None? || n.votedFor == Some(candidate)
    requires exists log :: Bid(candidate, n.term, log) in s.h.bids && UpToDate(|log|, LastTerm(log), n.log)
    ensures Inv(Vote(s, n, candidate), kept) && Extends(s.h, Vote(s, n, candidate).h)
  {
    hide Sound, Keeping, UpToDate, Record, Informed, ByAt;
    AtHome(s, n.id, kept);
    HistoryOf(s, kept);
    var v, h' := n.(votedFor := Some(candidate)), VoteIn(s.h, n, candidate);
    if n.votedFor.None? {
      VoteRecord(s.h, n, candidate);
      if kept { VoteInformed(s.h, n, candidate); }
      VoteNode(s.h, n, candidate, kept);
      ByExtends(s.h, h', n.id, n.term);
      MoveKeeps(s, v, h', n.term, kept);
    } else {
      assert v == n;
      VotedAlready(s.h, n, kept);
      SendKeeps(s, n, {Envelope(n.id, candidate, VoteResponse(n.term, true))}, kept);
      assert s.nodes[n.id := n] == s.nodes;
      assert Vote(s, n, candidate) == Send(s, {Envelope(n.id, candidate, VoteResponse(n.term, true))});
    }
  }

  lemma VotedAlready(h: History, n: Node, kept: bool)
    requires NodeOk(h, n, kept) && n.votedFor.Some?
    ensures Voted(h, n.id, n.term, n.votedFor.value)
  {}

  /** Nobody has led the term a candidate wins. */
  lemma FirstToWin(h: History, n: Node)
    requires Record(h) && Sound(h, n) && n.role == Candidate && IsQuorum(h.cluster, |Granted(n.votes)|)
    ensures n.term !in h.won && Granted(n.votes) <= h.cluster
    ensures forall q | q in Granted(n.votes) :: Voted(h, q, n.term, n.id)
  {
    hide GoodLog, SentOk, BidsOk;
    forall q | q in Granted(n.votes) ensures Voted(h, q, n.term, n.id) && q in h.cluster {
      var log :| Ballot(q, n.term, n.id, log) in h.ballots;
      assert BallotOk(h, Ballot(q, n.term, n.id, log));
    }
    if n.term in h.won {
      var w := h.won[n.term];
      assert WinOk(h, n.term);
      var p := QuorumsMeet(h.cluster, w.voters, Granted(n.votes));
      OneVoteEach(h, p, n.term, w.leader, n.id);
    }
  }

  lemma OneVoteEach(h: History, p: Peer, t: Term, a: Peer, b: Peer)
    requires BallotsOk(h) && Voted(h, p, t, a) && Voted(h, p, t, b)
    ensures a == b
  {
    hide BallotOk;
    var x :| Ballot(p, t, a, x) in h.ballots;
    var y :| Ballot(p, t, b, y) in h.ballots;
  }

  /** A leader's log with one more entry of its own is still a good one, once it is
      on record. */
  lemma GoodLogSnoc(logs: map<Term, Log>, log: Log, e: Entry)
    requires GoodLog(logs, log, e.term) && e.term in logs && logs[e.term] == log + [e]
    ensures GoodLog(logs, log + [e], e.term)
  {
    var more := log + [e];
    forall i | 0 <= i < |more| ensures Recorded(logs, more, i) {
      if i < |log| {
        assert Recorded(logs, log, i);
        assert more[..i + 1] == log[..i + 1];
      }
    }
  }

  function ElectIn(h: History, n: Node): History {
    h.(won := h.won[n.term := Win(n.id, n.log, Granted(n.votes))],
       logs := h.logs[n.term := n.log + [Entry(n.term, Noop)]])
  }

  lemma ElectNews(h: History, n: Node)
    requires WinsOk(h) && n.term !in h.won
    ensures ByAt(h, ElectIn(h, n), n.id, n.term)
  {
    hide WinOk;
  }

  lemma ElectWin(h: History, n: Node)
    requires Record(h) && Sound(h, n) && n.role == Candidate && IsQuorum(h.cluster, |Granted(n.votes)|)
    ensures n.term !in h.won && WinOk(ElectIn(h, n), n.term)
  {
    hide GoodLog, BallotsOk, SentOk, BidsOk, ByAt;
    FirstToWin(h, n);
    ElectNews(h, n);
    var h' := ElectIn(h, n);
    assert Extends(h, h') by { ByExtends(h, h', n.id, n.term); }
    VotedGrows(h, h');
    GoodLogGrows(h, h', n.log, n.term);
    GoodLogSnoc(h'.logs, n.log, Entry(n.term, Noop));
  }

  lemma ByExtends(h: History, h': History, a: Peer, at: Term)
    requires ByAt(h, h', a, at)
    ensures Extends(h, h')
  {}

  lemma ElectInformed(h: History, n: Node)
    requires HistoryOk(h, true) && n.term !in h.won
    ensures WinInformed(ElectIn(h, n), n.term)
  {
    hide Held, BallotsOk, WinsInformed, SentOk, BidsOk, ByAt, WinsOk;
    ElectNews(h, n);
    var h' := ElectIn(h, n);
    ByExtends(h, h', n.id, n.term);
    forall q, log, t: Term, m: nat | q in Granted(n.votes) && Ballot(q, n.term, n.id, log) in h'.ballots && t < n.term
        && Held(h', q, t, m)
      ensures Retains(h', log, t, m, n.term - 1)
    {
      var b := Ballot(q, n.term, n.id, log);
      HeldBefore(h, h', n.id, n.term, q, t, m);
      assert BallotInformed(h, b) && Retains(h, log, t, m, n.term);
      NotYetLed(h, log, t, m, n.term);
      RetainsGrows(h, h', log, t, m, n.term - 1);
    }
  }

  lemma NotYetLed(h: History, log: Log, t: Term, m: nat, bound: Term)
    requires Retains(h, log, t, m, bound) && bound !in h.won
    ensures Retains(h, log, t, m, bound - 1)
  {}

  lemma ElectRecord(h: History, n: Node, kept: bool)
    requires HistoryOk(h, kept) && NodeOk(h, n, kept) && n.role == Candidate && IsQuorum(h.cluster, |Granted(n.votes)|)
    ensures HistoryOk(ElectIn(h, n), kept) && ByAt(h, ElectIn(h, n), n.id, n.term)
  {
    hide Sound, Keeping, BallotOk, BallotInformed, GoodLog, WinOk, WinInformed, EnvelopeOk, PromiseOk, ByAt;
    ElectWin(h, n);
    if kept { ElectInformed(h, n); }
    ElectNews(h, n);
    BallotsBefore(h, n, kept);
    HistoryKeeps(h, ElectIn(h, n), n.id, n.term, kept);
  }

  lemma ElectNode(h: History, n: Node, kept: bool)
    requires HistoryOk(h, kept) && NodeOk(h, n, kept) && n.role == Candidate && n.term !in h.won
    requires WinOk(ElectIn(h, n), n.term)
    ensures NodeOk(ElectIn(h, n), TakeOffice(n, h.cluster), kept)
  {
    hide GoodLog, HoldingOk, CommitOk, WinOk, EnvelopeOk, PromiseOk, BallotsOk, BidsOk, SentOk, BallotsInformed,
         WinsInformed;
    var l, h' := TakeOffice(n, h.cluster), ElectIn(h, n);
    ElectNews(h, n);
    VotedGrows(h, h');
    assert GoodLog(h'.logs, l.log, n.term) by { WinLog(h', n.term); }
    if kept {
      MoverHolds(h, h', n.term, n, l);
      CommitKeeps(h, h', n, l);
    }
  }

  lemma WinLog(h: History, t: Term)
    requires t in h.won && t in h.logs && WinOk(h, t)
    ensures GoodLog(h.logs, h.logs[t], t)
  {}

  lemma ElectKeeps(s: System, n: Node, kept: bool)
    requires Inv(s, kept) && n.id in s.nodes && NodeOk(s.h, n, kept) && n.role == Candidate
    requires IsQuorum(s.h.cluster, |Granted(n.votes)|)
    ensures var t, l := Elect(s, n), TakeOffice(n, s.h.cluster);
            Inv(t, kept) && Extends(s.h, t.h) && NodeOk(t.h, l, kept) && l.role == Leader && l.id == n.id
              && n.id in t.nodes
  {
    hide Sound, Keeping, ByAt, Record, Informed, WinOk;
    HistoryOf(s, kept);
    ElectWin(s.h, n);
    ElectRecord(s.h, n, kept);
    ElectNode(s.h, n, kept);
    ByExtends(s.h, ElectIn(s.h, n), n.id, n.term);
    MoveKeeps(s, TakeOffice(n, s.h.cluster), ElectIn(s.h, n), n.term, kept);
  }

  // ------------------------------------------------------------------ proposing

  function ExtendIn(h: History, n: Node, payload: Payload): History {
    h.(logs := h.logs[n.term := n.log + [Entry(n.term, payload)]])
  }

  lemma ExtendNews(h: History, n: Node, payload: Payload)
    requires WinsOk(h) && Sound(h, n) && n.role == Leader
    ensures n.term in h.won && n.term in h.logs && n.log == h.logs[n.term]
    ensures ByAt(h, ExtendIn(h, n, payload), n.id, n.term)
  {
    hide GoodLog, WinOk;
  }

  lemma ExtendWin(h: History, n: Node, payload: Payload)
    requires WinsOk(h) && Sound(h, n) && n.role == Leader
    ensures var h' := ExtendIn(h, n, payload); n.term in h'.won && n.term in h'.logs && WinOk(h', n.term)
  {
    hide Tied, RoleOk, GoodLog, ByAt;
    var h' := ExtendIn(h, n, payload);
    ExtendNews(h, n, payload);
    ByExtends(h, h', n.id, n.term);
    assert WinOk(h, n.term);
    VotedGrows(h, h');
    GoodLogGrows(h, h', n.log, n.term);
    GoodLogSnoc(h'.logs, n.log, Entry(n.term, payload));
  }

  lemma ExtendNode(h: History, n: Node, payload: Payload, kept: bool)
    requires HistoryOk(h, kept) && NodeOk(h, n, kept) && n.role == Leader
    ensures NodeOk(ExtendIn(h, n, payload), AppendOwn(n, payload), kept)
  {
    hide GoodLog, HoldingOk, CommitOk, WinOk, EnvelopeOk, PromiseOk, BallotsOk, BidsOk, SentOk, BallotsInformed,
         WinsInformed;
    var l, h' := AppendOwn(n, payload), ExtendIn(h, n, payload);
    ExtendNews(h, n, payload);
    ExtendWin(h, n, payload);
    VotedGrows(h, h');
    assert GoodLog(h'.logs, l.log, n.term) by { WinLog(h', n.term); }
    if kept {
      MoverHolds(h, h', n.term, n, l);
      CommitKeeps(h, h', n, l);
      MatchedGrows(h, h', n);
    }
  }

  lemma ExtendKeeps(s: System, n: Node, payload: Payload, kept: bool)
    requires Inv(s, kept) && n.id in s.nodes && NodeOk(s.h, n, kept) && n.role == Leader
    ensures var t, l := Extend(s, n, payload), AppendOwn(n, payload);
            Inv(t, kept) && Extends(s.h, t.h) && NodeOk(t.h, l, kept) && l.role == Leader && l.id == n.id
              && n.id in t.nodes
  {
    hide Sound, Keeping, ByAt, BallotOk, BallotInformed, GoodLog, WinOk, WinInformed, EnvelopeOk, PromiseOk;
    var h' := ExtendIn(s.h, n, payload);
    HistoryOf(s, kept);
    ExtendNews(s.h, n, payload);
    ExtendWin(s.h, n, payload);
    BallotsBefore(s.h, n, kept);
    assert HistoryOk(h', kept) by { HistoryKeeps(s.h, h', n.id, n.term, kept); }
    ExtendNode(s.h, n, payload, kept);
    ByExtends(s.h, h', n.id, n.term);
    MoveKeeps(s, AppendOwn(n, payload), h', n.term, kept);
  }
}
