/** When a snapshot may be taken or declined, exactly, and when none is sent. */
module RaftSnapshots {
  import opened RaftNode
  import opened RaftSystem
  import opened RaftSafety
  import opened RaftMoves
  import opened RaftReplication
  import opened RaftRuns

  // ---------------------------------------------------------- taking and declining

  /** At the end of a run, a snapshot of the term replica `p` is in reaches it. */
  ghost predicate Reaches(cluster: set<Peer>, events: seq<Event>, e: Envelope) {
    var s := Run(cluster, events);
    && Sane(cluster, events, true)
    && e in s.h.sent && e.to in s.nodes && e.message.InstallSnapshot? && e.message.term == s.nodes[e.to].term
  }

  lemma ReachesFollower(cluster: set<Peer>, events: seq<Event>, e: Envelope)
    requires Reaches(cluster, events, e)
    ensures var s := Run(cluster, events);
            var n := s.nodes[e.to];
            && WinsOk(s.h) && Sound(s.h, n) && HoldingOk(s.h, n) && InstallOk(s.h, e)
  {
    hide Run, Inv, Sane, GoodLog, Tied, RoleOk, MatchedOk, HoldingOk, CommitOk, BallotsOk, BidsOk, WinsOk, Informed;
    var s := Run(cluster, events);
    RunKeeps(cluster, events, true);
    HistoryOf(s, true);
    AtHome(s, e.to, true);
    assert EnvelopeOk(s.h, e);
  }

  /** After taking a snapshot a replica still has whatever it acknowledged or wrote,
      and no leader has overruled, exactly when the snapshot covers all of that. */
  lemma InstallKeepsHeldExactlyWhen(cluster: set<Peer>, events: seq<Event>, e: Envelope)
    requires Reaches(cluster, events, e)
    ensures var s := Run(cluster, events);
            var n := s.nodes[e.to];
            HoldingOk(s.h, Installed(n, e.message.covers, e.message.data))
            <==> Covered(s.h, n.id, n.term, e.message.covers)
  {
    hide Run, Sane, GoodLog, Tied, RoleOk, WinsOk, HoldingOk, Covered;
    ReachesFollower(cluster, events, e);
    var h, n := Run(cluster, events).h, Run(cluster, events).nodes[e.to];
    InstallHoldsExactlyWhen(h, n, e.message.covers, Installed(n, e.message.covers, e.message.data));
  }

  /** That is so if everything the replica acknowledged or wrote is covered, or its log
      does not go on from where the snapshot ends; which it can tell by itself. */
  lemma OwnCheckSuffices(cluster: set<Peer>, events: seq<Event>, e: Envelope)
    requires Sane(cluster, events, true)
    requires var s := Run(cluster, events);
             && e in s.h.sent && e.to in s.nodes && e.message.InstallSnapshot? && e.message.term >= s.nodes[e.to].term
             && !NoNews(s.nodes[e.to], e.message.covers) && NothingLost(s.h, s.nodes[e.to], e.message.covers)
    ensures SafeInstall(Run(cluster, events).h, Run(cluster, events).nodes[e.to], e.message)
  {
    hide Run, Inv, Sane, Sound, MatchedOk, HoldingOk, CommitOk, BallotsOk, BidsOk, WinsOk, Informed, NothingLost,
         Covered;
    var s := Run(cluster, events);
    RunKeeps(cluster, events, true);
    HistoryOf(s, true);
    AtHome(s, e.to, true);
    assert EnvelopeOk(s.h, e);
    NothingLostIsCovered(s.h, s.nodes[e.to], e.message.covers, e.message.term);
  }

  // ------------------------------------------------------------ exactly those events

  lemma MeetingIs(n: Node, m: Message)
    requires m.InstallSnapshot? && m.term >= n.term
    ensures var f := Meeting(n, m.term);
            f.id == n.id && f.term == m.term && f.log == n.log && f.commit == n.commit && f.machine == n.machine
  {}

  lemma InstallStep(s: System, e: Event)
    requires e.Deliver? && e.envelope in s.h.sent && e.envelope.to in s.nodes
    requires s.nodes[e.envelope.to].id == e.envelope.to
    requires e.envelope.message.InstallSnapshot? && e.envelope.message.term >= s.nodes[e.envelope.to].term
    ensures var p, m := e.envelope.to, e.envelope.message;
            var f, t := Meeting(s.nodes[p], m.term), Step(s, e);
            && f.id == p && f.term == m.term
            && t.nodes == s.nodes[p := if NoNews(f, m.covers) then f else Installed(f, m.covers, m.data)]
            && t.h == AnswerIn(s.h, p, e.envelope.from,
                               InstallResponse(m.term, if NoNews(f, m.covers) then |f.log| else |m.covers|))
  {}

  lemma MeetingHolds(s: System, p: Peer, m: Message)
    requires Inv(s, true) && p in s.nodes && m.InstallSnapshot? && m.term >= s.nodes[p].term
    ensures HoldingOk(s.h, Meeting(s.nodes[p], m.term)) && GoodLog(s.h.logs, s.nodes[p].log, m.term)
  {
    hide Inv, Tied, RoleOk, MatchedOk, HoldingOk, CommitOk, GoodLog;
    AtHome(s, p, true);
    FollowKeeps(s, s.nodes[p], m.term, true);
    var f, b := Meeting(s.nodes[p], m.term), BecomeFollower(s.nodes[p], m.term);
    HoldingAlike(s.h, b, f);
  }

  /** An acknowledgement more, and nothing else, makes nobody hold less. */
  lemma HoldingWas(h: History, n: Node, to: Peer, m: Message)
    requires HoldingOk(AnswerIn(h, n.id, to, m), n)
    ensures HoldingOk(h, n)
  {
    var h' := AnswerIn(h, n.id, to, m);
    forall t: Term, k: nat | Held(h, n.id, t, k) ensures t <= n.term && Retains(h, n.log, t, k, n.term) {
      assert Held(h', n.id, t, k);
      RetainsSame(h, h', n.log, t, k, n.term);
    }
  }

  lemma RetainsSame(h: History, h': History, log: Log, t: Term, m: nat, bound: int)
    requires h'.won == h.won && h'.logs == h.logs && Retains(h', log, t, m, bound)
    ensures Retains(h, log, t, m, bound)
  {
    if !(h.logs[t][..m] <= log) {
      var u: Term :| u <= bound && Lacks(h', u, t, m);
      assert Lacks(h, u, t, m);
    }
  }

  /** A replica that keeps what it says it has, says what is so. */
  lemma SaidIsSo(h: History, n: Node, to: Peer)
    requires var h' := AnswerIn(h, n.id, to, InstallResponse(n.term, |n.log|)); PromisesOk(h') && HoldingOk(h', n)
    ensures n.term in h.logs && |n.log| <= |h.logs[n.term]| && h.logs[n.term][..|n.log|] == n.log
  {
    var m := InstallResponse(n.term, |n.log|);
    var h', e := AnswerIn(h, n.id, to, m), Envelope(n.id, to, m);
    assert e in h'.sent && PromiseOk(h', e.message) && IsAck(e, n.id, n.term, |n.log|);
    assert Held(h', n.id, n.term, |n.log|);
    assert Retains(h', n.log, n.term, |n.log|, n.term);
  }

  lemma InstallNeeds(s: System, e: Event, p: Peer)
    requires Inv(s, true) && Inv(Step(s, e), true) && p in s.nodes && Delivers(s, e, p)
    requires e.envelope.message.InstallSnapshot? && e.envelope.message.term >= s.nodes[p].term
    ensures SafeInstall(s.h, s.nodes[p], e.envelope.message)
  {
    hide Inv, Step, Sound, MatchedOk, HoldingOk, CommitOk, WinsOk, BallotsOk, BidsOk, BallotsInformed, WinsInformed,
         GoodLog, EndsAlike, Covered, Installed, AnswerIn, Meeting;
    var m, n, t := e.envelope.message, s.nodes[p], Step(s, e);
    var f := Meeting(n, m.term);
    AtHome(s, p, true);
    HistoryOf(s, true);
    HistoryOf(t, true);
    MeetingIs(n, m);
    InstallStep(s, e);
    AtHome(t, p, true);
    MeetingHolds(s, p, m);
    assert EnvelopeOk(s.h, e.envelope);
    if NoNews(f, m.covers) {
      SaidIsSo(s.h, f, e.envelope.from);
      LeaderLog(s.h, m.term);
      EndsAlikeMeans(s.h.logs, n.log, s.h.logs[m.term], m.term, m.term);
    } else {
      var i := Installed(f, m.covers, m.data);
      InstalledIs(f, m.covers, m.data);
      HoldingWas(s.h, i, e.envelope.from, InstallResponse(m.term, |m.covers|));
      InstallHoldsExactlyWhen(s.h, f, m.covers, i);
    }
  }

  lemma InstalledIs(n: Node, covers: Log, data: Log)
    ensures var i := Installed(n, covers, data);
            i.id == n.id && i.term == n.term && i.log == covers && i.machine == data
  {}

  /** In a state in which nothing has been lost, an event that makes nobody stand in the
      largest term loses nothing exactly when it is no unsafe snapshot. */
  lemma StepKeepsExactlyWhen(s: System, e: Event)
    requires Inv(s, true) && RoomToStand(s, e)
    ensures Inv(Step(s, e), true) <==> SafeSnapshot(s, e)
  {
    hide Inv, Step, RoomToStand, SafeInstall;
    if SafeSnapshot(s, e) {
      StepKeeps(s, e, true);
    } else {
      var p :| p in s.nodes && Delivers(s, e, p) && e.envelope.message.InstallSnapshot?
               && e.envelope.message.term >= s.nodes[p].term && !SafeInstall(s.h, s.nodes[p], e.envelope.message);
      if Inv(Step(s, e), true) { InstallNeeds(s, e, p); }
    }
  }

  /** What a replica says on declining a snapshot is true exactly when the leader has
      an entry of the same term where the replica's log ends. */
  lemma ReplyTruthfulExactlyWhen(cluster: set<Peer>, events: seq<Event>, e: Envelope)
    requires Reaches(cluster, events, e)
    ensures var s := Run(cluster, events);
            var n := s.nodes[e.to];
            && n.term in s.h.logs
            && (Truthful(s.h, n, InstallResponse(n.term, |n.log|)) <==> EndsAlike(n.log, s.h.logs[n.term]))
  {
    hide Run, Sane, GoodLog, Tied, RoleOk, WinsOk, HoldingOk, EndsAlike;
    ReachesFollower(cluster, events, e);
    var h, n := Run(cluster, events).h, Run(cluster, events).nodes[e.to];
    var leader := h.logs[n.term];
    LeaderLog(h, n.term);
    EndsAlikeMeans(h.logs, n.log, leader, n.term, n.term);
    assert n.log <= leader ==> leader[..|n.log|] == n.log;
    assert |n.log| <= |leader| && leader[..|n.log|] <= n.log ==> leader[..|n.log|] == n.log;
  }

  // ------------------------------------------------------------- without compaction

  /** Nothing has been compacted, and no snapshot sent. */
  ghost predicate Uncompacted(s: System) {
    (forall p | p in s.nodes :: s.nodes[p].base == 0) && (forall e | e in s.h.sent :: !e.message.InstallSnapshot?)
  }

  /** No snapshot is asked for, by call or by threshold. */
  predicate NeverCompacts(e: Event) {
    match e
    case Timeout(_, _, c) => c.threshold == 0
    case HandOver(_, c) => c.threshold == 0
    case Deliver(_, _, c) => c.threshold == 0
    case Propose(_, _, c) => c.threshold == 0
    case Heartbeat(_, _) => true
    case LoseQuorum(_) => true
    case Compact(_) => false
    case Restart(_, _) => true
  }

  lemma SendAppendsUncompacted(s: System, n: Node, peers: set<Peer>, max: nat)
    requires Uncompacted(s) && n.base == 0
    ensures Uncompacted(SendAppends(s, n, peers, max))
  {
    forall e | e in AppendsFor(n, peers, max) ensures !e.message.InstallSnapshot? {
      var p :| p in peers && e in AppendTo(n, p, max);
    }
  }

  lemma SettledUncompacted(n: Node, cluster: set<Peer>)
    requires n.base == 0
    ensures Settled(n, cluster, 0).base == 0
  {
    hide QuorumIndex;
  }

  lemma AnnounceUncompacted(s: System, n: Node, c: Config)
    requires Uncompacted(s) && n.base == 0 && c.threshold == 0
    ensures Uncompacted(Announce(s, n, c))
  {
    hide SendAppends, Settled, Uncompacted;
    var others := s.h.cluster - {n.id};
    SendAppendsUncompacted(s, n, others, c.max);
    SettledUncompacted(AfterSend(n, others), s.h.cluster);
    WithUncompacted(Broadcast(s, n, c.max), Settled(AfterSend(n, others), s.h.cluster, 0));
    assert Broadcast(s, n, c.max).h.cluster == s.h.cluster by { SendAppendsCluster(s, n, others, c.max); }
  }

  lemma SendAppendsCluster(s: System, n: Node, peers: set<Peer>, max: nat)
    ensures SendAppends(s, n, peers, max).h.cluster == s.h.cluster
  {}

  lemma WithUncompacted(s: System, n: Node)
    requires Uncompacted(s) && n.base == 0
    ensures Uncompacted(With(s, n))
  {}

  lemma CampaignUncompacted(s: System, n: Node, c: Config)
    requires Uncompacted(s) && n.base == 0 && c.threshold == 0
    ensures Uncompacted(Campaign(s, n, c))
  {
    hide Announce;
    var stood, candidate := Stand(s, n), StartCampaign(n);
    assert Uncompacted(stood);
    TakeOverUncompacted(stood, candidate, c);
  }

  lemma TakeOverUncompacted(s: System, n: Node, c: Config)
    requires Uncompacted(s) && n.base == 0 && c.threshold == 0
    ensures Uncompacted(TakeOver(s, n, c))
  {
    hide Announce;
    AnnounceUncompacted(Elect(s, n), TakeOffice(n, s.h.cluster), c);
  }

  lemma AppendEntriesUncompacted(s: System, n: Node, from: Peer, m: Message, c: Config)
    requires Uncompacted(s) && n.base == 0 && c.threshold == 0 && m.AppendEntries?
    ensures Uncompacted(HandleAppendEntries(s, n, from, m, c))
  {
    hide Merge, RunStart;
  }

  lemma AcksUncompacted(s: System, n: Node, from: Peer, index: nat, c: Config)
    requires Uncompacted(s) && n.base == 0 && c.threshold == 0
    ensures var l := NoteAck(n, from, index);
            var t, settled := CommitQuorum(s, l, c.threshold), Settled(l, s.h.cluster, c.threshold);
            Uncompacted(t) && Uncompacted(SendAppends(t, settled, {from}, c.max))
  {
    hide SendAppends, Settled, Uncompacted;
    var l := NoteAck(n, from, index);
    SettledUncompacted(l, s.h.cluster);
    WithUncompacted(s, Settled(l, s.h.cluster, 0));
    SendAppendsUncompacted(CommitQuorum(s, l, 0), Settled(l, s.h.cluster, 0), {from}, c.max);
  }

  lemma VoteResponseUncompacted(s: System, n: Node, from: Peer, m: Message, c: Config)
    requires Uncompacted(s) && n.base == 0 && c.threshold == 0 && (m.VoteResponse? || m.PreVoteResponse?)
    ensures Uncompacted(HandleVoteResponse(s, n, from, m, c))
  {
    hide Campaign, TakeOver;
    var v := n.(votes := n.votes[from := m.granted]);
    CampaignUncompacted(With(s, v), v, c);
    TakeOverUncompacted(s, v, c);
  }

  lemma AppendResponseUncompacted(s: System, n: Node, from: Peer, m: Message, c: Config)
    requires Uncompacted(s) && n.base == 0 && c.threshold == 0 && m.AppendResponse?
    ensures Uncompacted(HandleAppendResponse(s, n, from, m, c))
  {
    hide SendAppends, Settled, CommitQuorum, LastOfTerm, NoteAck, Uncompacted;
    AcksUncompacted(s, n, from, m.matchIndex, c);
    SendAppendsUncompacted(s, NoteReject(n, from, m.conflictIndex, m.conflictTerm), {from}, c.max);
  }

  lemma HandleUncompacted(s: System, n: Node, from: Peer, m: Message, leaderGone: bool, c: Config)
    requires Uncompacted(s) && n.base == 0 && c.threshold == 0 && !m.InstallSnapshot?
    ensures Uncompacted(Handle(s, n, from, m, leaderGone, c))
  {
    hide HandleVoteResponse, HandleAppendEntries, HandleAppendResponse, SendAppends, CommitQuorum, Settled, UpToDate;
    match m
    case PreVoteResponse(_, _) => VoteResponseUncompacted(s, n, from, m, c);
    case VoteResponse(_, _) => VoteResponseUncompacted(s, n, from, m, c);
    case AppendEntries(_, _, _, _, _) => AppendEntriesUncompacted(s, n, from, m, c);
    case AppendResponse(_, _, _, _, _) => AppendResponseUncompacted(s, n, from, m, c);
    case InstallResponse(_, lastIndex) => AcksUncompacted(s, n, from, lastIndex, c);
    case _ =>
  }

  lemma StepUncompacted(s: System, e: Event)
    requires Uncompacted(s) && NeverCompacts(e)
    ensures Uncompacted(Step(s, e))
  {
    hide Campaign, Announce, SendAppends, Handle, LastTerm;
    match e
    case Timeout(p, preVote, c) =>
      if p in s.nodes {
        CampaignUncompacted(s, s.nodes[p], c);
        CampaignUncompacted(With(s, StartPreVote(s.nodes[p])), StartPreVote(s.nodes[p]), c);
      }
    case HandOver(p, c) => if p in s.nodes { CampaignUncompacted(s, s.nodes[p], c); }
    case Deliver(envelope, leaderGone, c) =>
      if envelope in s.h.sent && envelope.to in s.nodes {
        var n, m := s.nodes[envelope.to], envelope.message;
        HandleUncompacted(s, n, envelope.from, m, leaderGone, c);
        HandleUncompacted(With(s, BecomeFollower(n, m.term)), BecomeFollower(n, m.term), envelope.from, m, leaderGone,
                          c);
      }
    case Propose(p, command, c) =>
      if p in s.nodes {
        AnnounceUncompacted(Extend(s, s.nodes[p], Command(command)), AppendOwn(s.nodes[p], Command(command)), c);
      }
    case Heartbeat(p, c) =>
      if p in s.nodes { SendAppendsUncompacted(s, s.nodes[p], s.h.cluster - {s.nodes[p].id}, c.max); }
    case _ =>
  }

  lemma {:induction false} RunUncompacted(cluster: set<Peer>, events: seq<Event>)
    requires forall e | e in events :: NeverCompacts(e)
    ensures Uncompacted(Run(cluster, events))
  {
    hide Step, Uncompacted, NeverCompacts;
    if events == [] {
      StartUncompacted(cluster);
    } else {
      RunUncompacted(cluster, events[..|events| - 1]);
      StepUncompacted(Run(cluster, events[..|events| - 1]), events[|events| - 1]);
    }
  }

  lemma StartUncompacted(cluster: set<Peer>)
    ensures Uncompacted(Start(cluster))
  {}

  /** With a threshold of 0 and no snapshot asked for, every run in which nobody
      stands in the largest term keeps what was acknowledged. */
  lemma UncompactedRunsKeep(cluster: set<Peer>, events: seq<Event>)
    requires Sane(cluster, events, false) && forall e | e in events :: NeverCompacts(e)
    ensures Sane(cluster, events, true)
  {
    hide Run, NeverCompacts, RoomToStand, SafeInstall;
    forall k | 0 <= k < |events| ensures Guarded(Run(cluster, events[..k]), events[k], true) {
      assert Guarded(Run(cluster, events[..k]), events[k], false);
      RunUncompacted(cluster, events[..k]);
    }
  }
}
