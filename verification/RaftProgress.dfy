/** Commit indices may fall; what a replica has applied does not, while it runs. */
module RaftProgress {
  import opened RaftNode
  import opened RaftSystem
  import opened RaftSafety
  import opened RaftMoves
  import opened RaftReplication
  import opened RaftRuns

  /** An append lowers the commit index exactly when the leader has committed more and
      the append does not reach as far as the replica has: one that was overtaken. */
  lemma CommitFallsExactlyWhen(n: Node, prev: nat, entries: Log, leaderCommit: nat, threshold: nat)
    requires prev <= |n.log|
    ensures AcceptAppend(n, prev, entries, leaderCommit, threshold).commit < n.commit <==>
              prev + |entries| < n.commit < leaderCommit
  {
    hide Merge;
  }

  // ---------------------------------------------------- the state machine's length

  ghost predicate Grew(s: System, t: System) {
    forall p | p in s.nodes :: p in t.nodes && |s.nodes[p].machine| <= |t.nodes[p].machine|
  }

  /** A replica that has applied no less than it had in `s`. */
  ghost predicate Ahead(s: System, n: Node) {
    n.id in s.nodes ==> |s.nodes[n.id].machine| <= |n.machine|
  }

  lemma SettledGrew(n: Node, cluster: set<Peer>, threshold: nat)
    ensures var c := Settled(n, cluster, threshold); c.id == n.id && |n.machine| <= |c.machine|
  {
    hide QuorumIndex, Apply;
    if cluster != {} { ApplyFrame(Advanced(n, QuorumIndex(n, cluster)), threshold); }
  }

  lemma SendAppendsGrew(s: System, n: Node, peers: set<Peer>, max: nat)
    requires Ahead(s, n)
    ensures Grew(s, SendAppends(s, n, peers, max))
    ensures Ahead(SendAppends(s, n, peers, max), AfterSend(n, peers)) && AfterSend(n, peers).machine == n.machine
  {
    hide AppendsFor;
  }

  lemma AnnounceGrew(s: System, n: Node, c: Config)
    requires Ahead(s, n)
    ensures Grew(s, Announce(s, n, c))
  {
    hide SendAppends, Settled, AfterSend;
    var others := s.h.cluster - {n.id};
    SendAppendsGrew(s, n, others, c.max);
    SettledGrew(AfterSend(n, others), s.h.cluster, c.threshold);
    SettledGrew(AfterSend(n, others), Broadcast(s, n, c.max).h.cluster, c.threshold);
  }

  lemma TakeOverGrew(s: System, n: Node, c: Config)
    requires Ahead(s, n)
    ensures Grew(s, TakeOver(s, n, c))
  {
    hide Announce;
    AnnounceGrew(Elect(s, n), TakeOffice(n, s.h.cluster), c);
  }

  lemma CampaignGrew(s: System, n: Node, c: Config)
    requires Ahead(s, n)
    ensures Grew(s, Campaign(s, n, c))
  {
    hide TakeOver, LastTerm;
    TakeOverGrew(Stand(s, n), StartCampaign(n), c);
  }

  lemma AppendEntriesGrew(s: System, n: Node, from: Peer, m: Message, c: Config)
    requires Ahead(s, n) && m.AppendEntries?
    ensures Grew(s, HandleAppendEntries(s, n, from, m, c))
  {
    hide AcceptAppend, RejectAppend;
    var f := Yielded(n);
    if Fits(f, m.prevIndex, m.prevTerm) { AcceptFrame(f, m.prevIndex, m.entries, m.leaderCommit, c.threshold); }
  }

  lemma CountedGrew(s: System, n: Node, from: Peer, index: nat, c: Config)
    requires Ahead(s, n)
    ensures var l := NoteAck(n, from, index);
            var t, settled := CommitQuorum(s, l, c.threshold), Settled(l, s.h.cluster, c.threshold);
            Grew(s, t) && Grew(s, SendAppends(t, settled, {from}, c.max))
  {
    hide SendAppends, Settled;
    var l := NoteAck(n, from, index);
    SettledGrew(l, s.h.cluster, c.threshold);
    SendAppendsGrew(CommitQuorum(s, l, c.threshold), Settled(l, s.h.cluster, c.threshold), {from}, c.max);
  }

  lemma VoteResponseGrew(s: System, n: Node, from: Peer, m: Message, c: Config)
    requires Ahead(s, n) && (m.VoteResponse? || m.PreVoteResponse?)
    ensures Grew(s, HandleVoteResponse(s, n, from, m, c))
  {
    hide Campaign, TakeOver;
    var v := n.(votes := n.votes[from := m.granted]);
    CampaignGrew(With(s, v), v, c);
    TakeOverGrew(s, v, c);
  }

  lemma AppendResponseGrew(s: System, n: Node, from: Peer, m: Message, c: Config)
    requires Ahead(s, n) && m.AppendResponse?
    ensures Grew(s, HandleAppendResponse(s, n, from, m, c))
  {
    hide SendAppends, Settled, CommitQuorum, LastOfTerm, NoteAck;
    CountedGrew(s, n, from, m.matchIndex, c);
    SendAppendsGrew(s, NoteReject(n, from, m.conflictIndex, m.conflictTerm), {from}, c.max);
  }

  lemma InstallMessageGrew(s: System, n: Node, from: Peer, m: Message)
    requires Ahead(s, n) && m.InstallSnapshot? && (!NoNews(n, m.covers) ==> |n.machine| <= |m.data|)
    ensures Grew(s, HandleInstall(s, n, from, m))
  {}

  lemma HandleGrew(s: System, n: Node, from: Peer, m: Message, leaderGone: bool, c: Config)
    requires Ahead(s, n) && (m.InstallSnapshot? && !NoNews(n, m.covers) ==> |n.machine| <= |m.data|)
    ensures Grew(s, Handle(s, n, from, m, leaderGone, c))
  {
    hide HandleVoteResponse, HandleAppendEntries, HandleAppendResponse, HandleInstall, SendAppends, CommitQuorum;
    hide Settled, UpToDate, NoteAck;
    match m
    case PreVoteResponse(_, _) => VoteResponseGrew(s, n, from, m, c);
    case VoteResponse(_, _) => VoteResponseGrew(s, n, from, m, c);
    case AppendEntries(_, _, _, _, _) => AppendEntriesGrew(s, n, from, m, c);
    case AppendResponse(_, _, _, _, _) => AppendResponseGrew(s, n, from, m, c);
    case InstallSnapshot(_, _, _) => InstallMessageGrew(s, n, from, m);
    case InstallResponse(_, lastIndex) => CountedGrew(s, n, from, lastIndex, c);
    case _ =>
  }

  // -------------------------------------------------------------------- snapshots

  /** What a replica has applied no leader has overruled. */
  lemma AppliedStands(h: History, n: Node, bound: Term, t: Term)
    requires HistoryOk(h, true) && HeldDecided(h, n.id, t, n.machine) && n.machine != []
    ensures !Overruled(h, bound, t, |n.machine|)
  {
    hide HistoryOk, QuorumHeld, Held;
    var v: Term, m: nat :| v <= t && Committed(h, v, m) && n.machine <= h.logs[v][..m];
    forall u: Term | u <= bound ensures !Lacks(h, u, t, |n.machine|) {
      if Lacks(h, u, t, |n.machine|) { LeaderCompleteness(h, v, m, u); }
    }
  }

  /** So a snapshot that is safe to take stands for no less than has been applied. */
  lemma InstallGrew(h: History, n: Node, bound: Term, covers: Log)
    requires HistoryOk(h, true) && MachineHeld(h, n) && Covered(h, n.id, bound, covers)
    ensures |n.machine| <= |covers|
  {
    hide HistoryOk, Overruled, Decided;
    if n.machine != [] {
      var t: Term :| HeldDecided(h, n.id, t, n.machine);
      AppliedStands(h, n, bound, t);
    }
  }

  lemma SnapshotGrew(s: System, e: Event)
    requires Inv(s, true) && e.Deliver? && e.envelope in s.h.sent && e.envelope.to in s.nodes && SafeSnapshot(s, e)
    requires e.envelope.message.InstallSnapshot? && e.envelope.message.term >= s.nodes[e.envelope.to].term
    requires !NoNews(s.nodes[e.envelope.to], e.envelope.message.covers)
    ensures |s.nodes[e.envelope.to].machine| <= |e.envelope.message.data|
  {
    hide Inv, Sound, MatchedOk, HoldingOk, AppliedOk, MachineHeld, BallotsOk, BidsOk, WinsOk, Informed, Covered;
    var p, m := e.envelope.to, e.envelope.message;
    HistoryOf(s, true);
    AtHome(s, p, true);
    assert EnvelopeOk(s.h, e.envelope);
    assert Delivers(s, e, p) && SafeInstall(s.h, s.nodes[p], m);
    InstallGrew(s.h, s.nodes[p], m.term, m.covers);
  }

  lemma ReceiveGrew(s: System, e: Event)
    requires Inv(s, true) && e.Deliver? && SafeSnapshot(s, e)
    ensures Grew(s, Step(s, e))
  {
    hide Inv, Handle, SafeSnapshot;
    if e.envelope in s.h.sent && e.envelope.to in s.nodes {
      var n, m, from := s.nodes[e.envelope.to], e.envelope.message, e.envelope.from;
      AtHome(s, e.envelope.to, true);
      hide NodeOk;
      if m.term >= n.term {
        if m.InstallSnapshot? && !NoNews(n, m.covers) { SnapshotGrew(s, e); }
        var f := BecomeFollower(n, m.term);
        HandleGrew(s, n, from, m, e.leaderGone, e.config);
        HandleGrew(With(s, f), f, from, m, e.leaderGone, e.config);
      }
    }
  }

  // --------------------------------------------------------------------- every run

  /** Every guarded event but a restart that forgets leaves a replica with no less
      applied. */
  lemma StepGrew(s: System, e: Event, p: Peer)
    requires Inv(s, true) && SafeSnapshot(s, e) && p in s.nodes && e != Restart(p, false)
    ensures p in Step(s, e).nodes && |s.nodes[p].machine| <= |Step(s, e).nodes[p].machine|
  {
    hide Inv, SafeSnapshot, Campaign, Announce, SendAppends, Receive, LastTerm;
    Homes(s);
    match e
    case Timeout(q, preVote, c) =>
      if q in s.nodes {
        CampaignGrew(s, s.nodes[q], c);
        CampaignGrew(With(s, StartPreVote(s.nodes[q])), StartPreVote(s.nodes[q]), c);
      }
    case HandOver(q, c) => if q in s.nodes { CampaignGrew(s, s.nodes[q], c); }
    case Deliver(_, _, _) => ReceiveGrew(s, e);
    case Propose(q, command, c) =>
      if q in s.nodes {
        var n := s.nodes[q];
        AnnounceGrew(Extend(s, n, Command(command)), AppendOwn(n, Command(command)), c);
      }
    case Heartbeat(q, c) => if q in s.nodes { SendAppendsGrew(s, s.nodes[q], s.h.cluster - {q}, c.max); }
    case _ =>
  }

  lemma Homes(s: System)
    requires Inv(s, true)
    ensures forall p | p in s.nodes :: s.nodes[p].id == p
  {
    hide NodeOk, HistoryOk;
  }

  lemma {:induction false} RunGrew(cluster: set<Peer>, events: seq<Event>, k: nat, p: Peer)
    requires Sane(cluster, events, true) && k <= |events| && p in Run(cluster, events[..k]).nodes
    requires forall i | k <= i < |events| :: events[i] != Restart(p, false)
    ensures p in Run(cluster, events).nodes
    ensures |Run(cluster, events[..k]).nodes[p].machine| <= |Run(cluster, events).nodes[p].machine|
  {
    hide Inv, Step, RoomToStand, SafeSnapshot;
    if k == |events| {
      assert events[..k] == events;
    } else {
      var n := |events| - 1;
      assert events[..n][..k] == events[..k];
      SaneBefore(cluster, events, n, true);
      RunGrew(cluster, events[..n], k, p);
      RunKeeps(cluster, events[..n], true);
      assert Guarded(Run(cluster, events[..n]), events[n], true);
      StepGrew(Run(cluster, events[..n]), events[n], p);
    }
  }

  /** What a replica had applied at some point of a run it still has at the end, and
      maybe more, unless it was restarted without a state machine that remembers. */
  lemma AppliedStays(cluster: set<Peer>, events: seq<Event>, k: nat, p: Peer)
    requires Sane(cluster, events, true) && k <= |events| && p in Run(cluster, events[..k]).nodes
    requires forall i | k <= i < |events| :: events[i] != Restart(p, false)
    ensures p in Run(cluster, events).nodes
    ensures Run(cluster, events[..k]).nodes[p].machine <= Run(cluster, events).nodes[p].machine
  {
    hide Run, Sane;
    RunGrew(cluster, events, k, p);
    StateMachineSafety(cluster, events, k, p, p);
  }
}
