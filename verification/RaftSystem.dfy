/** A cluster of replicas over a network that loses, repeats, delays and reorders:
    whatever was ever sent may be delivered, any number of times, or never. */
module RaftSystem {
  import opened Wrappers
  import opened RaftNode

  /** A vote cast: by whom, in which term, for whom, and the log it was cast with. */
  datatype Ballot = Ballot(voter: Peer, term: Term, candidate: Peer, log: Log)

  /** A campaign: who stood in which term, with which log. */
  datatype Bid = Bid(candidate: Peer, term: Term, log: Log)

  /** An election won: by whom, with which log, on whose votes. */
  datatype Win = Win(leader: Peer, log: Log, voters: set<Peer>)

  /** Everything sent so far and, for the record, every ballot, bid and win, and
      per term the log of its leader as far as it got. */
  datatype History = History(
    cluster: set<Peer>,
    sent: set<Envelope>,
    ballots: set<Ballot>,
    bids: set<Bid>,
    won: map<Term, Win>,
    logs: map<Term, Log>)

  datatype System = System(nodes: map<Peer, Node>, h: History)

  function Start(cluster: set<Peer>): System {
    System(map p | p in cluster :: Fresh(p), History(cluster, {}, {}, {}, map[], map[]))
  }

  datatype Event =
    | Timeout(peer: Peer, preVote: bool, config: Config)
    | HandOver(peer: Peer, config: Config)
    | Deliver(envelope: Envelope, leaderGone: bool, config: Config)
    | Propose(peer: Peer, command: seq<nat>, config: Config)
    | Heartbeat(peer: Peer, config: Config)
    | LoseQuorum(peer: Peer)
    | Compact(peer: Peer)
    | Restart(peer: Peer, durable: bool)

  // ------------------------------------------------------------------ the moves

  function With(s: System, n: Node): System {
    s.(nodes := s.nodes[n.id := n])
  }

  function Send(s: System, envelopes: set<Envelope>): System {
    s.(h := s.h.(sent := s.h.sent + envelopes))
  }

  function Reply(s: System, n: Node, to: Peer, m: Message): System {
    Send(s, {Envelope(n.id, to, m)})
  }

  /** Vote for oneself in a new term. */
  function Register(s: System, n: Node): System {
    var c := StartCampaign(n);
    With(s, c).(h := s.h.(ballots := s.h.ballots + {Ballot(c.id, c.term, c.id, c.log)},
                          bids := s.h.bids + {Bid(c.id, c.term, c.log)}))
  }

  /** Stand for election, and ask everybody else. */
  function Stand(s: System, n: Node): System {
    var c := StartCampaign(n);
    Send(Register(s, n), AskAll(c, s.h.cluster, VoteRequest(c.term, |c.log|, LastTerm(c.log))))
  }

  function Vote(s: System, n: Node, candidate: Peer): System {
    With(s, n.(votedFor := Some(candidate))).(h := s.h.(
      sent := s.h.sent + {Envelope(n.id, candidate, VoteResponse(n.term, true))},
      ballots := s.h.ballots + if n.votedFor.None? then {Ballot(n.id, n.term, candidate, n.log)} else {}))
  }

  /** Win the election one is standing in. */
  function Elect(s: System, n: Node): System {
    var l := TakeOffice(n, s.h.cluster);
    With(s, l).(h := s.h.(won := s.h.won[n.term := Win(n.id, n.log, Granted(n.votes))],
                          logs := s.h.logs[n.term := l.log]))
  }

  function Extend(s: System, n: Node, payload: Payload): System {
    var l := AppendOwn(n, payload);
    With(s, l).(h := s.h.(logs := s.h.logs[n.term := l.log]))
  }

  /** Send some followers what they are missing. */
  function SendAppends(s: System, n: Node, peers: set<Peer>, max: nat): System {
    Send(With(s, AfterSend(n, peers)), AppendsFor(n, peers, max))
  }

  function Broadcast(s: System, n: Node, max: nat): System {
    SendAppends(s, n, s.h.cluster - {n.id}, max)
  }

  ghost function CommitQuorum(s: System, n: Node, threshold: nat): System {
    With(s, Settled(n, s.h.cluster, threshold))
  }

  /** What a leader does after its log has grown: send it round, see what is
      committed. */
  ghost function Announce(s: System, n: Node, c: Config): System {
    CommitQuorum(Broadcast(s, n, c.max), AfterSend(n, s.h.cluster - {n.id}), c.threshold)
  }

  ghost function TakeOver(s: System, n: Node, c: Config): System {
    Announce(Elect(s, n), TakeOffice(n, s.h.cluster), c)
  }

  ghost function Campaign(s: System, n: Node, c: Config): System {
    var stood := Stand(s, n);
    if IsQuorum(s.h.cluster, 1) then TakeOver(stood, StartCampaign(n), c) else stood
  }

  // --------------------------------------------------------------- the handlers

  function HandlePreVoteRequest(s: System, n: Node, from: Peer, m: Message, leaderGone: bool): System
    requires m.PreVoteRequest?
  {
    Reply(s, n, from, PreVoteResponse(n.term,
                                      m.term > n.term && UpToDate(m.lastIndex, m.lastTerm, n.log) && leaderGone))
  }

  function HandleVoteRequest(s: System, n: Node, from: Peer, m: Message): System
    requires m.VoteRequest?
  {
    if CanVote(n, from, m.lastIndex, m.lastTerm) then Vote(s, n, from)
    else Reply(s, n, from, VoteResponse(n.term, false))
  }

  ghost function HandleVoteResponse(s: System, n: Node, from: Peer, m: Message, c: Config): System
    requires m.VoteResponse? || m.PreVoteResponse?
  {
    if n.role != (if m.VoteResponse? then Candidate else PreCandidate) then s
    else
      var v := n.(votes := n.votes[from := m.granted]);
      if IsQuorum(s.h.cluster, |Granted(v.votes)|) then
        if m.VoteResponse? then TakeOver(s, v, c) else Campaign(With(s, v), v, c)
      else if IsQuorum(s.h.cluster, |Refused(v.votes)|) then With(s, v.(role := Follower, votes := map[]))
      else With(s, v)
  }

  /** A candidate that hears from a leader of its own term has lost. */
  function Yielded(n: Node): Node {
    if n.role == PreCandidate || n.role == Candidate then BecomeFollower(n, n.term) else n
  }

  /** A replica as it meets a leader's message: in the leader's term, and following. */
  function Meeting(n: Node, term: Term): Node {
    Yielded(if term > n.term then BecomeFollower(n, term) else n)
  }

  /** An append that starts inside what has been compacted is answered with where
      that ends, which is committed. */
  function HandleAppendEntries(s: System, n: Node, from: Peer, m: Message, c: Config): System
    requires m.AppendEntries?
  {
    var f := Yielded(n);
    if m.prevIndex < f.base then Reply(With(s, f), f, from, AppendResponse(f.term, true, f.base, 0, 0))
    else if Fits(f, m.prevIndex, m.prevTerm) then
      Reply(With(s, AcceptAppend(f, m.prevIndex, m.entries, m.leaderCommit, c.threshold)), f, from,
            AppendResponse(f.term, true, m.prevIndex + |m.entries|, 0, 0))
    else Reply(With(s, f), f, from, RejectAppend(f, m.prevIndex))
  }

  ghost function HandleAppendResponse(s: System, n: Node, from: Peer, m: Message, c: Config): System
    requires m.AppendResponse?
  {
    if n.role != Leader || m.term != n.term then s
    else if !m.success then
      var l := NoteReject(n, from, m.conflictIndex, m.conflictTerm);
      SendAppends(s, l, {from}, c.max)
    else if from !in n.matched then s
    else
      var l := NoteAck(n, from, m.matchIndex);
      var t, settled := CommitQuorum(s, l, c.threshold), Settled(l, s.h.cluster, c.threshold);
      if from in l.next && l.next[from] <= |l.log| then SendAppends(t, settled, {from}, c.max) else t
  }

  /** A replica that knows all a snapshot covers committed says so, and how long its
      log is; any other takes the snapshot for its log. */
  function HandleInstall(s: System, n: Node, from: Peer, m: Message): System
    requires m.InstallSnapshot?
  {
    var f := Yielded(n);
    if NoNews(f, m.covers) then Reply(With(s, f), f, from, InstallResponse(f.term, |f.log|))
    else Reply(With(s, Installed(f, m.covers, m.data)), f, from, InstallResponse(f.term, |m.covers|))
  }

  ghost function HandleInstallResponse(s: System, n: Node, from: Peer, m: Message, c: Config): System
    requires m.InstallResponse?
  {
    if n.role != Leader || m.term != n.term then s
    else
      var l := NoteAck(n, from, m.lastIndex);
      SendAppends(CommitQuorum(s, l, c.threshold), Settled(l, s.h.cluster, c.threshold), {from}, c.max)
  }

  function RejectStale(s: System, n: Node, from: Peer, m: Message): System {
    match m
    case PreVoteRequest(_, _, _) => Reply(s, n, from, PreVoteResponse(n.term, false))
    case VoteRequest(_, _, _) => Reply(s, n, from, VoteResponse(n.term, false))
    case AppendEntries(_, _, _, _, _) => Reply(s, n, from, AppendResponse(n.term, false, 0, 0, 0))
    case InstallSnapshot(_, _, _) => Reply(s, n, from, AppendResponse(n.term, false, 0, 0, 0))
    case _ => s
  }

  ghost function Handle(s: System, n: Node, from: Peer, m: Message, leaderGone: bool, c: Config): System {
    match m
    case PreVoteRequest(_, _, _) => HandlePreVoteRequest(s, n, from, m, leaderGone)
    case VoteRequest(_, _, _) => HandleVoteRequest(s, n, from, m)
    case PreVoteResponse(_, _) => HandleVoteResponse(s, n, from, m, c)
    case VoteResponse(_, _) => HandleVoteResponse(s, n, from, m, c)
    case AppendEntries(_, _, _, _, _) => HandleAppendEntries(s, n, from, m, c)
    case AppendResponse(_, _, _, _, _) => HandleAppendResponse(s, n, from, m, c)
    case InstallSnapshot(_, _, _) => HandleInstall(s, n, from, m)
    case InstallResponse(_, _) => HandleInstallResponse(s, n, from, m, c)
  }

  /** A term in a pre-vote is one nobody is in yet, and is not adopted. */
  predicate Adopts(n: Node, m: Message) {
    m.term > n.term && !m.PreVoteRequest? && !(m.PreVoteResponse? && m.granted)
  }

  ghost function Receive(s: System, n: Node, from: Peer, m: Message, leaderGone: bool, c: Config): System {
    if m.term < n.term then RejectStale(s, n, from, m)
    else if Adopts(n, m) then
      var f := BecomeFollower(n, m.term);
      Handle(With(s, f), f, from, m, leaderGone, c)
    else Handle(s, n, from, m, leaderGone, c)
  }

  ghost function Step(s: System, e: Event): System {
    match e
    case Timeout(p, preVote, c) =>
      if p !in s.nodes || s.nodes[p].role == Leader then s
      else if preVote then
        var n := StartPreVote(s.nodes[p]);
        if IsQuorum(s.h.cluster, 1) then Campaign(With(s, n), n, c)
        else Send(With(s, n), AskAll(n, s.h.cluster, PreVoteRequest(NextTerm(n.term), |n.log|, LastTerm(n.log))))
      else Campaign(s, s.nodes[p], c)
    case HandOver(p, c) => if p !in s.nodes then s else Campaign(s, s.nodes[p], c)
    case Deliver(envelope, leaderGone, c) =>
      if envelope !in s.h.sent || envelope.to !in s.nodes then s
      else Receive(s, s.nodes[envelope.to], envelope.from, envelope.message, leaderGone, c)
    case Propose(p, command, c) =>
      if p !in s.nodes || s.nodes[p].role != Leader then s
      else
        var n := s.nodes[p];
        Announce(Extend(s, n, Command(command)), AppendOwn(n, Command(command)), c)
    case Heartbeat(p, c) =>
      if p !in s.nodes || s.nodes[p].role != Leader then s else Broadcast(s, s.nodes[p], c.max)
    case LoseQuorum(p) =>
      if p !in s.nodes || s.nodes[p].role != Leader then s
      else With(s, BecomeFollower(s.nodes[p], s.nodes[p].term))
    case Compact(p) => if p !in s.nodes then s else With(s, Compacted(s.nodes[p]))
    case Restart(p, durable) => if p !in s.nodes then s else With(s, Restarted(s.nodes[p], durable))
  }

  ghost function Run(cluster: set<Peer>, events: seq<Event>): System {
    if events == [] then Start(cluster) else Step(Run(cluster, events[..|events| - 1]), events[|events| - 1])
  }
}
