/** Raft's safety properties, over every run of every cluster. */
module RaftRuns {
  import opened Wrappers
  import opened RaftNode
  import opened RaftSystem
  import opened RaftSafety
  import opened RaftGrowth
  import opened RaftMoves
  import opened RaftReplication

  /** A good state that came out of another by moves. */
  ghost predicate From(s: System, t: System, kept: bool) {
    Inv(t, kept) && Extends(s.h, t.h)
  }

  lemma FromTwice(s: System, t: System, u: System, kept: bool)
    requires Extends(s.h, t.h) && From(t, u, kept)
    ensures From(s, u, kept)
  {
    hide Inv;
    forall x | x in s.h.logs ensures x in u.h.logs && s.h.logs[x] <= u.h.logs[x] {
      assert s.h.logs[x] <= t.h.logs[x] && t.h.logs[x] <= u.h.logs[x];
    }
  }

  lemma FromSame(s: System, t: System, kept: bool)
    requires Inv(t, kept) && t.h == s.h
    ensures From(s, t, kept)
  {
    hide Inv;
  }

  // --------------------------------------------------------------- the handlers

  lemma AnnounceKeeps(s: System, n: Node, c: Config, kept: bool)
    requires Inv(s, kept) && n.id in s.nodes && NodeOk(s.h, n, kept) && n.role == Leader
    ensures From(s, Announce(s, n, c), kept)
  {
    hide Inv, NodeOk, CommitQuorum, SendAppends;
    var others := s.h.cluster - {n.id};
    SendAppendsKeeps(s, n, others, c.max, kept);
    var t, a := Broadcast(s, n, c.max), AfterSend(n, others);
    CommitQuorumKeeps(t, a, c.threshold, kept);
    FromSame(t, CommitQuorum(t, a, c.threshold), kept);
    FromTwice(s, t, CommitQuorum(t, a, c.threshold), kept);
  }

  lemma TakeOverKeeps(s: System, n: Node, c: Config, kept: bool)
    requires Inv(s, kept) && n.id in s.nodes && NodeOk(s.h, n, kept) && n.role == Candidate
    requires IsQuorum(s.h.cluster, |Granted(n.votes)|)
    ensures From(s, TakeOver(s, n, c), kept)
  {
    hide Inv, NodeOk, Announce, Elect, TakeOffice;
    ElectKeeps(s, n, kept);
    AnnounceKeeps(Elect(s, n), TakeOffice(n, s.h.cluster), c, kept);
    FromTwice(s, Elect(s, n), TakeOver(s, n, c), kept);
  }

  lemma CampaignKeeps(s: System, n: Node, c: Config, kept: bool)
    requires Inv(s, kept) && n.id in s.nodes && NodeOk(s.h, n, kept) && n.term < TermMax
    ensures From(s, Campaign(s, n, c), kept)
  {
    hide Inv, NodeOk, TakeOver;
    StandKeeps(s, n, kept);
    var t, stood := Stand(s, n), StartCampaign(n);
    if IsQuorum(s.h.cluster, 1) {
      assert Granted(stood.votes) == {stood.id};
      TakeOverKeeps(t, stood, c, kept);
      FromTwice(s, t, TakeOver(t, stood, c), kept);
    }
  }

  /** A message that grants and acknowledges nothing. */
  predicate Refuses(m: Message) {
    m.PreVoteResponse? || (m.VoteResponse? && !m.granted) || (m.AppendResponse? && !m.success)
  }

  lemma RefuseKeeps(s: System, n: Node, to: Peer, m: Message, kept: bool)
    requires Inv(s, kept) && n.id in s.nodes && s.nodes[n.id] == n && Refuses(m) && (m.AppendResponse? ==> to != n.id)
    ensures From(s, Reply(s, n, to, m), kept)
  {
    hide Inv;
    SendKeeps(s, n, {Envelope(n.id, to, m)}, kept);
  }

  lemma VoteRequestKeeps(s: System, n: Node, e: Envelope, kept: bool)
    requires Inv(s, kept) && n.id in s.nodes && s.nodes[n.id] == n
    requires e in s.h.sent && e.message.VoteRequest? && e.message.term == n.term
    ensures From(s, HandleVoteRequest(s, n, e.from, e.message), kept)
  {
    hide Inv, Vote, LastTerm;
    if CanVote(n, e.from, e.message.lastIndex, e.message.lastTerm) {
      HistoryOf(s, kept);
      StoodFor(s.h, e);
      var log :| Bid(e.from, n.term, log) in s.h.bids && |log| == e.message.lastIndex
          && LastTerm(log) == e.message.lastTerm;
      VoteKeeps(s, n, e.from, kept);
    } else {
      RefuseKeeps(s, n, e.from, VoteResponse(n.term, false), kept);
    }
  }

  lemma StoodFor(h: History, e: Envelope)
    requires Record(h) && e in h.sent && e.message.VoteRequest?
    ensures Stood(h, e.from, e.message.term, e.message.lastIndex, e.message.lastTerm)
  {
    assert EnvelopeOk(h, e);
  }

  /** Counting a vote that was cast, or refused. */
  lemma CountKeeps(s: System, n: Node, e: Envelope, kept: bool)
    requires Inv(s, kept) && n.id in s.nodes && NodeOk(s.h, n, kept) && e in s.h.sent && e.to == n.id
    requires e.message.VoteResponse? && e.message.term == n.term && n.role == Candidate
    ensures var v := n.(votes := n.votes[e.from := e.message.granted]); Inv(With(s, v), kept) && NodeOk(s.h, v, kept)
  {
    hide GoodLog, Tied, HoldingOk, CommitOk, BallotsOk, BidsOk, WinsOk, Informed;
    assert EnvelopeOk(s.h, e);
    hide EnvelopeOk;
    VolatileKeeps(s, n, n.(votes := n.votes[e.from := e.message.granted]), kept);
  }

  lemma NoOfficeKeeps(s: System, n: Node, n': Node, kept: bool)
    requires Inv(s, kept) && n.id in s.nodes && NodeOk(s.h, n, kept)
    requires n' == n.(role := n'.role, votes := n'.votes) && (n'.role == Follower || n'.role == PreCandidate)
    ensures Inv(With(s, n'), kept) && NodeOk(s.h, n', kept)
  {
    hide GoodLog, Tied, HoldingOk, CommitOk, HistoryOk;
    VolatileKeeps(s, n, n', kept);
  }

  lemma VoteResponseKeeps(s: System, n: Node, e: Envelope, c: Config, kept: bool)
    requires Inv(s, kept) && n.id in s.nodes && NodeOk(s.h, n, kept) && e in s.h.sent && e.to == n.id
    requires e.message.VoteResponse? && e.message.term == n.term
    ensures From(s, HandleVoteResponse(s, n, e.from, e.message, c), kept)
  {
    hide Inv, NodeOk, TakeOver;
    if n.role == Candidate {
      CountKeeps(s, n, e, kept);
      var v := n.(votes := n.votes[e.from := e.message.granted]);
      FromSame(s, With(s, v), kept);
      if IsQuorum(s.h.cluster, |Granted(v.votes)|) {
        TakeOverKeeps(s, v, c, kept);
      } else if IsQuorum(s.h.cluster, |Refused(v.votes)|) {
        var f := v.(role := Follower, votes := map[]);
        NoOfficeKeeps(s, v, f, kept);
        FromSame(s, With(s, f), kept);
      }
    } else {
      FromSame(s, s, kept);
    }
  }

  /** With one more answer, a replica that asked has a quorum to stand. */
  predicate AboutToStand(s: System, n: Node, from: Peer, granted: bool) {
    n.role == PreCandidate && IsQuorum(s.h.cluster, |Granted(n.votes[from := granted])|)
  }

  lemma PreVoteResponseKeeps(s: System, n: Node, from: Peer, m: Message, c: Config, kept: bool)
    requires Inv(s, kept) && n.id in s.nodes && NodeOk(s.h, n, kept) && m.PreVoteResponse?
    requires AboutToStand(s, n, from, m.granted) ==> n.term < TermMax
    ensures From(s, HandleVoteResponse(s, n, from, m, c), kept)
  {
    hide Inv, NodeOk, Campaign;
    if n.role == PreCandidate {
      var v := n.(votes := n.votes[from := m.granted]);
      NoOfficeKeeps(s, n, v, kept);
      FromSame(s, With(s, v), kept);
      if IsQuorum(s.h.cluster, |Granted(v.votes)|) {
        CampaignKeeps(With(s, v), v, c, kept);
      } else if IsQuorum(s.h.cluster, |Refused(v.votes)|) {
        var f := v.(role := Follower, votes := map[]);
        NoOfficeKeeps(s, v, f, kept);
        FromSame(s, With(s, f), kept);
      }
    } else {
      FromSame(s, s, kept);
    }
  }

  /** No leader is sent appends or snapshots of its own term. */
  lemma NotToLeader(h: History, n: Node, e: Envelope, kept: bool)
    requires HistoryOk(h, kept) && NodeOk(h, n, kept) && e in h.sent && e.to == n.id
    requires e.message.AppendEntries? || e.message.InstallSnapshot?
    ensures e.from != n.id && (e.message.term == n.term ==> n.role != Leader)
  {
    hide GoodLog, Tied, Keeping, BallotsOk, BidsOk, WinsOk, Informed;
    assert EnvelopeOk(h, e);
  }

  lemma YieldKeeps(s: System, n: Node, kept: bool)
    requires Inv(s, kept) && n.id in s.nodes && NodeOk(s.h, n, kept) && n.role != Leader
    ensures var f := Yielded(n);
            f.role == Follower && f == n.(role := f.role, votes := f.votes, next := f.next, matched := f.matched)
            && NodeOk(s.h, f, kept) && Inv(With(s, f), kept)
  {
    hide GoodLog, HistoryOk, HoldingOk, CommitOk;
    if n.role == PreCandidate || n.role == Candidate {
      FollowKeeps(s, n, n.term, kept);
    } else {
      VolatileKeeps(s, n, n, kept);
    }
  }

  lemma AppendEntriesKeeps(s: System, n: Node, e: Envelope, c: Config, kept: bool)
    requires Inv(s, kept) && n.id in s.nodes && NodeOk(s.h, n, kept) && e in s.h.sent && e.to == n.id
    requires e.message.AppendEntries? && e.message.term == n.term
    ensures From(s, HandleAppendEntries(s, n, e.from, e.message, c), kept)
  {
    hide Inv, NodeOk, HistoryOk, Record, AcceptAppend, RejectAppend, Fits, Yielded;
    HistoryOf(s, kept);
    NotToLeader(s.h, n, e, kept);
    YieldKeeps(s, n, kept);
    var f := Yielded(n);
    if e.message.prevIndex < f.base {
      CompactedAppendKeeps(s, f, e, kept);
    } else if Fits(f, e.message.prevIndex, e.message.prevTerm) {
      AcceptKeeps(s, f, e, c.threshold, kept);
    } else {
      RejectIsRefusal(f, e.message.prevIndex);
      FromSame(s, With(s, f), kept);
      RefuseKeeps(With(s, f), f, e.from, RejectAppend(f, e.message.prevIndex), kept);
    }
  }

  lemma RejectIsRefusal(n: Node, prev: nat)
    ensures var m := RejectAppend(n, prev); m.AppendResponse? && !m.success && m.term == n.term
  {}

  /** A snapshot that is no news is declined by a log that ends like the leader's,
      and any other takes nothing away that was acknowledged. */
  ghost predicate SafeInstall(h: History, n: Node, m: Message)
    requires m.InstallSnapshot?
  {
    if NoNews(n, m.covers) then m.term in h.logs && EndsAlike(n.log, h.logs[m.term])
    else Covered(h, n.id, m.term, m.covers)
  }

  lemma InstallMessageKeeps(s: System, n: Node, e: Envelope, kept: bool)
    requires Inv(s, kept) && n.id in s.nodes && NodeOk(s.h, n, kept) && e in s.h.sent && e.to == n.id
    requires e.message.InstallSnapshot? && e.message.term == n.term && (kept ==> SafeInstall(s.h, n, e.message))
    ensures From(s, HandleInstall(s, n, e.from, e.message), kept)
  {
    hide Inv, NodeOk, HistoryOk, Installed, Yielded, EndsAlike;
    HistoryOf(s, kept);
    NotToLeader(s.h, n, e, kept);
    YieldKeeps(s, n, kept);
    var f := Yielded(n);
    if NoNews(f, e.message.covers) {
      NoNewsKeeps(s, f, e, kept);
    } else {
      InstallKeeps(s, f, e, kept);
    }
  }

  lemma NotFromSelf(s: System, e: Envelope, kept: bool)
    requires Inv(s, kept) && e in s.h.sent && (e.message.AppendResponse? || e.message.InstallResponse?)
    ensures e.from != e.to
  {
    hide NodeOk;
    assert EnvelopeOk(s.h, e);
  }

  lemma RejectedKeeps(s: System, n: Node, e: Envelope, max: nat, kept: bool)
    requires Inv(s, kept) && n.id in s.nodes && NodeOk(s.h, n, kept) && n.role == Leader && e.from != n.id
    requires e.message.AppendResponse?
    ensures var l := NoteReject(n, e.from, e.message.conflictIndex, e.message.conflictTerm);
            From(s, SendAppends(s, l, {e.from}, max), kept)
  {
    hide GoodLog, Tied, HoldingOk, CommitOk, HistoryOk, SendAppends, LastOfTerm;
    var l := NoteReject(n, e.from, e.message.conflictIndex, e.message.conflictTerm);
    VolatileKeeps(s, n, l, kept);
    SendAppendsKeeps(s, l, {e.from}, max, kept);
  }

  lemma AckKeeps(s: System, n: Node, e: Envelope, c: Config, kept: bool)
    requires Inv(s, kept) && n.id in s.nodes && NodeOk(s.h, n, kept) && n.role == Leader && e in s.h.sent
    requires e.from != n.id
    requires Acks(e.message) && e.message.term == n.term
    ensures var l := NoteAck(n, e.from, AckIndex(e.message));
            var t, settled := CommitQuorum(s, l, c.threshold), Settled(l, s.h.cluster, c.threshold);
            From(s, t, kept) && From(s, SendAppends(t, settled, {e.from}, c.max), kept)
  {
    hide Inv, NodeOk, SendAppends, Settled, NoteAck;
    var l := NoteAck(n, e.from, AckIndex(e.message));
    NoteAckKeeps(s, n, e, kept);
    var t, settled := CommitQuorum(s, l, c.threshold), Settled(l, s.h.cluster, c.threshold);
    CommitQuorumKeeps(s, l, c.threshold, kept);
    FromSame(s, t, kept);
    SendAppendsKeeps(t, settled, {e.from}, c.max, kept);
    FromTwice(s, t, SendAppends(t, settled, {e.from}, c.max), kept);
  }

  lemma AppendResponseKeeps(s: System, n: Node, e: Envelope, c: Config, kept: bool)
    requires Inv(s, kept) && n.id in s.nodes && NodeOk(s.h, n, kept) && e in s.h.sent && e.to == n.id
    requires e.message.AppendResponse? && e.message.term == n.term
    ensures From(s, HandleAppendResponse(s, n, e.from, e.message, c), kept)
  {
    hide Inv, NodeOk, CommitQuorum, Settled, NoteAck, NoteReject, SendAppends;
    NotFromSelf(s, e, kept);
    FromSame(s, s, kept);
    if n.role == Leader {
      if e.message.success {
        if e.from in n.matched { AckKeeps(s, n, e, c, kept); }
      } else {
        RejectedKeeps(s, n, e, c.max, kept);
      }
    }
  }

  lemma InstallResponseKeeps(s: System, n: Node, e: Envelope, c: Config, kept: bool)
    requires Inv(s, kept) && n.id in s.nodes && NodeOk(s.h, n, kept) && e in s.h.sent && e.to == n.id
    requires e.message.InstallResponse? && e.message.term == n.term
    ensures From(s, HandleInstallResponse(s, n, e.from, e.message, c), kept)
  {
    hide Inv, NodeOk, CommitQuorum, Settled, NoteAck, SendAppends;
    NotFromSelf(s, e, kept);
    FromSame(s, s, kept);
    if n.role == Leader { AckKeeps(s, n, e, c, kept); }
  }

  lemma StaleKeeps(s: System, n: Node, e: Envelope, kept: bool)
    requires Inv(s, kept) && n.id in s.nodes && s.nodes[n.id] == n && e in s.h.sent && e.to == n.id
    ensures From(s, RejectStale(s, n, e.from, e.message), kept)
  {
    hide Inv, NodeOk, HistoryOk, From, Reply;
    AtHome(s, n.id, kept);
    HistoryOf(s, kept);
    match e.message
    case PreVoteRequest(_, _, _) => RefuseKeeps(s, n, e.from, PreVoteResponse(n.term, false), kept);
    case VoteRequest(_, _, _) => RefuseKeeps(s, n, e.from, VoteResponse(n.term, false), kept);
    case AppendEntries(_, _, _, _, _) =>
      NotToLeader(s.h, n, e, kept);
      RefuseKeeps(s, n, e.from, AppendResponse(n.term, false, 0, 0, 0), kept);
    case InstallSnapshot(_, _, _) =>
      NotToLeader(s.h, n, e, kept);
      RefuseKeeps(s, n, e.from, AppendResponse(n.term, false, 0, 0, 0), kept);
    case _ => FromSame(s, s, kept);
  }

  lemma PreVoteRequestKeeps(s: System, n: Node, e: Envelope, leaderGone: bool, kept: bool)
    requires Inv(s, kept) && n.id in s.nodes && s.nodes[n.id] == n && e.message.PreVoteRequest?
    ensures From(s, HandlePreVoteRequest(s, n, e.from, e.message, leaderGone), kept)
  {
    hide Inv, UpToDate;
    var granted := e.message.term > n.term && UpToDate(e.message.lastIndex, e.message.lastTerm, n.log) && leaderGone;
    RefuseKeeps(s, n, e.from, PreVoteResponse(n.term, granted), kept);
  }

  lemma HandleKeeps(s: System, n: Node, e: Envelope, leaderGone: bool, c: Config, kept: bool)
    requires Inv(s, kept) && n.id in s.nodes && s.nodes[n.id] == n && e in s.h.sent && e.to == n.id
    requires e.message.term == n.term || e.message.PreVoteRequest? || e.message.PreVoteResponse?
    requires e.message.PreVoteResponse? ==> AboutToStand(s, n, e.from, e.message.granted) ==> n.term < TermMax
    requires kept && e.message.InstallSnapshot? ==> SafeInstall(s.h, n, e.message)
    ensures From(s, Handle(s, n, e.from, e.message, leaderGone, c), kept)
  {
    hide Inv, NodeOk, HandleVoteRequest, HandleVoteResponse, HandleAppendEntries, HandleAppendResponse, HandleInstall,
         HandleInstallResponse, SafeInstall;
    AtHome(s, n.id, kept);
    match e.message
    case PreVoteRequest(_, _, _) => PreVoteRequestKeeps(s, n, e, leaderGone, kept);
    case VoteRequest(_, _, _) => VoteRequestKeeps(s, n, e, kept);
    case PreVoteResponse(_, _) => PreVoteResponseKeeps(s, n, e.from, e.message, c, kept);
    case VoteResponse(_, _) => VoteResponseKeeps(s, n, e, c, kept);
    case AppendEntries(_, _, _, _, _) => AppendEntriesKeeps(s, n, e, c, kept);
    case AppendResponse(_, _, _, _, _) => AppendResponseKeeps(s, n, e, c, kept);
    case InstallSnapshot(_, _, _) => InstallMessageKeeps(s, n, e, kept);
    case InstallResponse(_, _) => InstallResponseKeeps(s, n, e, c, kept);
  }

  // ---------------------------------------------------------------- the two guards

  /** The event delivers a message to `p`. */
  ghost predicate Delivers(s: System, e: Event, p: Peer) {
    e.Deliver? && e.envelope in s.h.sent && e.envelope.to == p
  }

  /** The event makes replica `p` stand for election. */
  ghost predicate Stands(s: System, e: Event, p: Peer) {
    p in s.nodes &&
    var n := s.nodes[p];
    match e
    case Timeout(q, preVote, _) => q == p && n.role != Leader && (preVote ==> IsQuorum(s.h.cluster, 1))
    case HandOver(q, _) => q == p
    case Deliver(envelope, _, _) =>
      && Delivers(s, e, p) && envelope.message.PreVoteResponse? && envelope.message.term >= n.term
      && !Adopts(n, envelope.message)
      && AboutToStand(s, n, envelope.from, envelope.message.granted)
    case _ => false
  }

  /** Nobody stands for election in the largest term there is. */
  ghost predicate RoomToStand(s: System, e: Event) {
    forall p | Stands(s, e, p) :: s.nodes[p].term < TermMax
  }

  /** A snapshot that is delivered, and not stale, is safe to take or to decline. */
  ghost predicate SafeSnapshot(s: System, e: Event) {
    forall p | p in s.nodes && Delivers(s, e, p) && e.envelope.message.InstallSnapshot?
        && e.envelope.message.term >= s.nodes[p].term ::
      SafeInstall(s.h, s.nodes[p], e.envelope.message)
  }

  ghost predicate Guarded(s: System, e: Event, kept: bool) {
    RoomToStand(s, e) && (kept ==> SafeSnapshot(s, e))
  }

  // ------------------------------------------------------------------- every step

  lemma ReceiveKeeps(s: System, e: Event, kept: bool)
    requires Inv(s, kept) && e.Deliver? && e.envelope in s.h.sent && e.envelope.to in s.nodes && Guarded(s, e, kept)
    ensures From(s, Receive(s, s.nodes[e.envelope.to], e.envelope.from, e.envelope.message, e.leaderGone, e.config),
                 kept)
  {
    hide Inv, NodeOk, Handle, RejectStale, SafeInstall;
    var p, m := e.envelope.to, e.envelope.message;
    var n := s.nodes[p];
    AtHome(s, p, kept);
    assert Delivers(s, e, p) && (Stands(s, e, p) ==> n.term < TermMax);
    if m.term < n.term {
      StaleKeeps(s, n, e.envelope, kept);
    } else if Adopts(n, m) {
      FollowKeeps(s, n, m.term, kept);
      var f := BecomeFollower(n, m.term);
      FromSame(s, With(s, f), kept);
      if kept && m.InstallSnapshot? { SafeFollowing(s.h, n, f, m); }
      HandleKeeps(With(s, f), f, e.envelope, e.leaderGone, e.config, kept);
    } else {
      HandleKeeps(s, n, e.envelope, e.leaderGone, e.config, kept);
    }
  }

  lemma SafeFollowing(h: History, n: Node, f: Node, m: Message)
    requires m.InstallSnapshot? && SafeInstall(h, n, m) && f.id == n.id && f.log == n.log && f.commit == n.commit
    ensures SafeInstall(h, f, m)
  {}

  lemma TimeoutKeeps(s: System, p: Peer, preVote: bool, c: Config, kept: bool)
    requires Inv(s, kept) && RoomToStand(s, Timeout(p, preVote, c))
    ensures From(s, Step(s, Timeout(p, preVote, c)), kept)
  {
    hide Inv, NodeOk, Campaign;
    FromSame(s, s, kept);
    if p in s.nodes && s.nodes[p].role != Leader {
      AtHome(s, p, kept);
      assert Stands(s, Timeout(p, preVote, c), p) ==> s.nodes[p].term < TermMax;
      if preVote {
        var n := StartPreVote(s.nodes[p]);
        NoOfficeKeeps(s, s.nodes[p], n, kept);
        FromSame(s, With(s, n), kept);
        if IsQuorum(s.h.cluster, 1) { CampaignKeeps(With(s, n), n, c, kept); } else { AskKeeps(With(s, n), n, kept); }
      } else {
        CampaignKeeps(s, s.nodes[p], c, kept);
      }
    }
  }

  lemma AskKeeps(s: System, n: Node, kept: bool)
    requires Inv(s, kept) && n.id in s.nodes && s.nodes[n.id] == n
    ensures From(s, Send(s, AskAll(n, s.h.cluster, PreVoteRequest(NextTerm(n.term), |n.log|, LastTerm(n.log)))), kept)
  {
    hide Inv, LastTerm;
    SendKeeps(s, n, AskAll(n, s.h.cluster, PreVoteRequest(NextTerm(n.term), |n.log|, LastTerm(n.log))), kept);
  }

  lemma StepKeeps(s: System, e: Event, kept: bool)
    requires Inv(s, kept) && Guarded(s, e, kept)
    ensures From(s, Step(s, e), kept)
  {
    hide Inv, NodeOk, Campaign, Receive, Announce, Extend, SendAppends, SafeSnapshot, AppendOwn, Compacted, Restarted,
         BecomeFollower;
    FromSame(s, s, kept);
    match e
    case Timeout(p, preVote, c) => TimeoutKeeps(s, p, preVote, c, kept);
    case HandOver(p, c) =>
      if p in s.nodes {
        AtHome(s, p, kept);
        assert Stands(s, e, p);
        CampaignKeeps(s, s.nodes[p], c, kept);
      }
    case Deliver(envelope, leaderGone, c) =>
      if envelope in s.h.sent && envelope.to in s.nodes { ReceiveKeeps(s, e, kept); }
    case Propose(p, command, c) =>
      if p in s.nodes && s.nodes[p].role == Leader { ProposeKeeps(s, p, command, c, kept); }
    case Heartbeat(p, c) =>
      if p in s.nodes && s.nodes[p].role == Leader {
        AtHome(s, p, kept);
        SendAppendsKeeps(s, s.nodes[p], s.h.cluster - {p}, c.max, kept);
      }
    case LoseQuorum(p) =>
      if p in s.nodes && s.nodes[p].role == Leader {
        AtHome(s, p, kept);
        FollowKeeps(s, s.nodes[p], s.nodes[p].term, kept);
        FromSame(s, With(s, BecomeFollower(s.nodes[p], s.nodes[p].term)), kept);
      }
    case Compact(p) =>
      if p in s.nodes {
        AtHome(s, p, kept);
        CompactKeeps(s, s.nodes[p], kept);
        FromSame(s, With(s, Compacted(s.nodes[p])), kept);
      }
    case Restart(p, durable) =>
      if p in s.nodes {
        AtHome(s, p, kept);
        RestartKeeps(s, s.nodes[p], durable, kept);
        FromSame(s, With(s, Restarted(s.nodes[p], durable)), kept);
      }
  }

  lemma ProposeKeeps(s: System, p: Peer, command: seq<nat>, c: Config, kept: bool)
    requires Inv(s, kept) && p in s.nodes && s.nodes[p].role == Leader
    ensures From(s, Step(s, Propose(p, command, c)), kept)
  {
    hide Inv, NodeOk, Announce, Extend, AppendOwn;
    AtHome(s, p, kept);
    var t, l := Extend(s, s.nodes[p], Command(command)), AppendOwn(s.nodes[p], Command(command));
    ExtendKeeps(s, s.nodes[p], Command(command), kept);
    AnnounceKeeps(t, l, c, kept);
    FromTwice(s, t, Announce(t, l, c), kept);
  }

  lemma StartKept(cluster: set<Peer>, kept: bool)
    requires cluster != {}
    ensures Inv(Start(cluster), kept)
  {
    hide GoodLog;
    var s := Start(cluster);
    forall p | p in s.nodes ensures NodeOk(s.h, s.nodes[p], kept) {
      assert GoodLog(s.h.logs, [], 0) by { EmptyGood(s.h.logs); }
    }
  }

  lemma EmptyGood(logs: map<Term, Log>)
    ensures GoodLog(logs, [], 0)
  {}

  // ------------------------------------------------------------------- every run

  /** A run in which nobody stands in the largest term and, if `kept`, no snapshot
      takes or claims what it should not. */
  ghost predicate Sane(cluster: set<Peer>, events: seq<Event>, kept: bool) {
    cluster != {} && forall k | 0 <= k < |events| :: Guarded(Run(cluster, events[..k]), events[k], kept)
  }

  lemma SaneBefore(cluster: set<Peer>, events: seq<Event>, k: nat, kept: bool)
    requires Sane(cluster, events, kept) && k <= |events|
    ensures Sane(cluster, events[..k], kept)
  {
    hide Guarded;
    forall j | 0 <= j < k ensures Guarded(Run(cluster, events[..k][..j]), events[..k][j], kept) {
      assert events[..k][..j] == events[..j];
    }
  }

  lemma {:induction false} RunKeeps(cluster: set<Peer>, events: seq<Event>, kept: bool)
    requires Sane(cluster, events, kept)
    ensures Inv(Run(cluster, events), kept)
  {
    hide Inv, Step, Guarded;
    if events == [] {
      StartKept(cluster, kept);
    } else {
      var n := |events| - 1;
      SaneBefore(cluster, events, n, kept);
      RunKeeps(cluster, events[..n], kept);
      StepKeeps(Run(cluster, events[..n]), events[n], kept);
    }
  }

  /** What was on record at some point of a run still is at its end. */
  lemma {:induction false} RunExtends(cluster: set<Peer>, events: seq<Event>, k: nat, kept: bool)
    requires Sane(cluster, events, kept) && k <= |events|
    ensures From(Run(cluster, events[..k]), Run(cluster, events), kept)
  {
    hide Inv, Step, Guarded;
    if k == |events| {
      assert events[..k] == events;
      RunKeeps(cluster, events, kept);
      FromSame(Run(cluster, events), Run(cluster, events), kept);
    } else {
      var n := |events| - 1;
      SaneBefore(cluster, events, n, kept);
      RunExtends(cluster, events[..n], k, kept);
      assert events[..n][..k] == events[..k];
      StepKeeps(Run(cluster, events[..n]), events[n], kept);
      FromTwice(Run(cluster, events[..k]), Run(cluster, events[..n]), Run(cluster, events), kept);
    }
  }

  // ------------------------------------------------------------- the properties

  /** Election safety: no two replicas lead the same term. */
  lemma ElectionSafety(cluster: set<Peer>, events: seq<Event>, p: Peer, q: Peer)
    requires Sane(cluster, events, false)
    requires var s := Run(cluster, events);
             && p in s.nodes && q in s.nodes && s.nodes[p].role == Leader && s.nodes[q].role == Leader
             && s.nodes[p].term == s.nodes[q].term
    ensures p == q
  {
    hide Run, Inv, Sane, GoodLog, Tied, Keeping;
    RunKeeps(cluster, events, false);
    AtHome(Run(cluster, events), p, false);
    AtHome(Run(cluster, events), q, false);
  }

  /** Log matching: two logs with the same term at an index are the same up to
      there. */
  lemma LogsMatch(cluster: set<Peer>, events: seq<Event>, p: Peer, q: Peer, i: nat)
    requires Sane(cluster, events, false)
    requires var s := Run(cluster, events);
             && p in s.nodes && q in s.nodes && i < |s.nodes[p].log| && i < |s.nodes[q].log|
             && s.nodes[p].log[i].term == s.nodes[q].log[i].term
    ensures var s := Run(cluster, events); s.nodes[p].log[..i + 1] == s.nodes[q].log[..i + 1]
  {
    hide Run, Inv, Sane, GoodLog, Tied, RoleOk, Keeping;
    RunKeeps(cluster, events, false);
    var s := Run(cluster, events);
    AtHome(s, p, false);
    AtHome(s, q, false);
    LogMatching(s.h.logs, s.nodes[p].log, s.nodes[q].log, s.nodes[p].term, s.nodes[q].term, i);
  }

  /** What replica `n` knew committed is decided, then and later. */
  lemma CommittedStays(cluster: set<Peer>, events: seq<Event>, k: nat, p: Peer)
    requires Sane(cluster, events, true) && k <= |events| && p in Run(cluster, events[..k]).nodes
    ensures var s, h := Run(cluster, events[..k]), Run(cluster, events).h;
            var n := s.nodes[p];
            && HistoryOk(s.h, true) && HistoryOk(h, true) && Extends(s.h, h)
            && n.commit <= |n.machine| <= |n.log| && n.log[..n.commit] <= n.machine <= n.log
            && Decided(s.h, n.machine, n.term) && Decided(h, n.machine, n.term)
            && Decided(s.h, n.log[..n.commit], n.term) && Decided(h, n.log[..n.commit], n.term)
  {
    hide Run, Inv, Sane, Sound, Decided, Record, Informed, HoldingOk, MatchedOk;
    var s, t := Run(cluster, events[..k]), Run(cluster, events);
    SaneBefore(cluster, events, k, true);
    RunKeeps(cluster, events[..k], true);
    RunExtends(cluster, events, k, true);
    HistoryOf(s, true);
    HistoryOf(t, true);
    AtHome(s, p, true);
    var n := s.nodes[p];
    assert n.machine[..n.commit] == n.log[..n.commit];
    DecidedPrefix(s.h, n.machine, n.commit, n.term);
    DecidedGrows(s.h, t.h, n.machine, n.term, n.term);
    DecidedGrows(s.h, t.h, n.log[..n.commit], n.term, n.term);
  }

  lemma LeaderOf(cluster: set<Peer>, events: seq<Event>, q: Peer)
    requires Sane(cluster, events, true) && q in Run(cluster, events).nodes
    ensures var t := Run(cluster, events);
            var l := t.nodes[q];
            && HistoryOk(t.h, true) && NodeOk(t.h, l, true) && l.machine <= l.log && Decided(t.h, l.machine, l.term)
            && (l.role == Leader ==> l.term in t.h.won && l.term in t.h.logs && l.log == t.h.logs[l.term])
  {
    hide Run, Inv, Sane, GoodLog, Decided, HoldingOk, MatchedOk, Record, Informed;
    RunKeeps(cluster, events, true);
    HistoryOf(Run(cluster, events), true);
    AtHome(Run(cluster, events), q, true);
  }

  /** Leader completeness: what a replica knew committed at some point is in the log
      of every later leader of a term no earlier than that replica's. */
  lemma LeadersComplete(cluster: set<Peer>, events: seq<Event>, k: nat, p: Peer, q: Peer)
    requires Sane(cluster, events, true) && k <= |events|
    requires var s, t := Run(cluster, events[..k]), Run(cluster, events);
             p in s.nodes && q in t.nodes && t.nodes[q].role == Leader && t.nodes[q].term >= s.nodes[p].term
    ensures var s, t := Run(cluster, events[..k]), Run(cluster, events);
            && s.nodes[p].commit <= |s.nodes[p].log|
            && s.nodes[p].log[..s.nodes[p].commit] <= t.nodes[q].log
  {
    hide Run, Sane, NodeOk, HistoryOk, Decided;
    var s, t := Run(cluster, events[..k]), Run(cluster, events);
    CommittedStays(cluster, events, k, p);
    LeaderOf(cluster, events, q);
    var n := s.nodes[p];
    DecidedInLeader(t.h, n.log[..n.commit], n.term, t.nodes[q].term);
  }

  /** State machine safety: what one replica had applied at some point and what
      another has applied at the end are the same sequence, one maybe further on. */
  lemma StateMachineSafety(cluster: set<Peer>, events: seq<Event>, k: nat, p: Peer, q: Peer)
    requires Sane(cluster, events, true) && k <= |events|
    requires p in Run(cluster, events[..k]).nodes && q in Run(cluster, events).nodes
    ensures var x, y := Run(cluster, events[..k]).nodes[p].machine, Run(cluster, events).nodes[q].machine;
            x <= y || y <= x
  {
    hide Run, Sane, NodeOk, HistoryOk, Decided;
    var s, t := Run(cluster, events[..k]), Run(cluster, events);
    CommittedStays(cluster, events, k, p);
    LeaderOf(cluster, events, q);
    DecidedAgree(t.h, s.nodes[p].machine, t.nodes[q].machine, s.nodes[p].term, t.nodes[q].term);
  }

  /** A leader that is ready has applied everything that any replica of a term no
      later knew committed before it took office. */
  lemma ReadyIsCurrent(cluster: set<Peer>, events: seq<Event>, k: nat, p: Peer, q: Peer)
    requires Sane(cluster, events, true) && k <= |events|
    requires var s, t := Run(cluster, events[..k]), Run(cluster, events);
             && p in s.nodes && q in t.nodes && IsReady(t.nodes[q])
             && s.nodes[p].term <= t.nodes[q].term && t.nodes[q].term !in s.h.won
    ensures var s, t := Run(cluster, events[..k]), Run(cluster, events);
            && s.nodes[p].commit <= |s.nodes[p].log|
            && s.nodes[p].log[..s.nodes[p].commit] <= t.nodes[q].machine
  {
    hide Run, Sane, HistoryOk, Decided, Record, Sound, HoldingOk, MatchedOk;
    var s, t := Run(cluster, events[..k]), Run(cluster, events);
    CommittedStays(cluster, events, k, p);
    LeaderOf(cluster, events, q);
    var n, l := s.nodes[p], t.nodes[q];
    EarlierBelow(s.h, t.h, n.log[..n.commit], n.term, l.term);
    OwnEntryAbove(t.h, l.term, l.commit);
  }

  /** What was decided before a term was led is in the log its leader began with. */
  lemma EarlierBelow(h: History, h': History, log: Log, bound: Term, t: Term)
    requires Decided(h, log, bound) && Extends(h, h') && HistoryOk(h', true) && bound <= t && t !in h.won && t in h'.won
    ensures log <= h'.won[t].log
  {
    hide HistoryOk, QuorumHeld;
    if log != [] {
      var u: Term, m: nat :| u <= bound && Committed(h, u, m) && log <= h.logs[u][..m];
      CommittedGrows(h, h', u, m);
      LeaderCompleteness(h', u, m, t);
    }
  }

  lemma OwnEntryAbove(h: History, t: Term, index: nat)
    requires HistoryOk(h, true) && t in h.won && t in h.logs && TermAt(h.logs[t], index) == Some(t)
    ensures h.won[t].log < h.logs[t] && index > |h.won[t].log|
  {
    hide BallotsOk, SentOk, Informed;
    assert WinOk(h, t) && Bid(h.won[t].leader, t, h.won[t].log) in h.bids;
    assert GoodLog(h.logs, h.won[t].log, t - 1);
    assert forall i | 0 <= i < |h.won[t].log| :: h.logs[t][i] == h.won[t].log[i];
  }
}
