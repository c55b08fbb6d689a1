/** What single events do in a cluster of three, to play runs event by event. */
module RaftScenes {
  import opened Wrappers
  import opened RaftNode
  import opened RaftSystem
  import opened RaftRuns

  const Trio: set<Peer> := {1, 2, 3}

  /** The default settings. */
  const Defaults: Config := Config(256, 4096)

  ghost predicate Scene(events: seq<Event>, s: System) {
    Run(Trio, events) == s && s.h.cluster == Trio && s.nodes.Keys == Trio && forall p | p in Trio :: s.nodes[p].id == p
  }

  /** Whoever the event may make stand is not in the largest term. */
  predicate Roomy(s: System, e: Event) {
    match e
    case Timeout(p, _, _) => p in s.nodes ==> s.nodes[p].term < TermMax
    case HandOver(p, _) => p in s.nodes ==> s.nodes[p].term < TermMax
    case Deliver(envelope, _, _) =>
      envelope.message.PreVoteResponse? && envelope.to in s.nodes ==> s.nodes[envelope.to].term < TermMax
    case _ => true
  }

  /** `t` follows from `s` by `e`, which leaves one replica as `n`. */
  ghost predicate Next(events: seq<Event>, s: System, e: Event, more: seq<Event>, t: System, n: Node) {
    && more == events + [e] && Scene(more, t) && s.h.sent <= t.h.sent && t.nodes == s.nodes[n.id := n]
    && (Sane(Trio, events, false) && Roomy(s, e) ==> Sane(Trio, more, false))
  }

  lemma RunSnoc(cluster: set<Peer>, events: seq<Event>, e: Event)
    ensures Run(cluster, events + [e]) == Step(Run(cluster, events), e)
  {
    assert (events + [e])[..|events|] == events;
  }

  lemma SaneSnoc(cluster: set<Peer>, events: seq<Event>, e: Event, kept: bool)
    requires Sane(cluster, events, kept) && Guarded(Run(cluster, events), e, kept)
    ensures Sane(cluster, events + [e], kept)
  {
    hide Run, Guarded;
    var more := events + [e];
    forall k | 0 <= k < |more| ensures Guarded(Run(cluster, more[..k]), more[k], kept) {
      assert more[..k] == if k < |events| then events[..k] else events;
    }
  }

  lemma Opening() returns (s: System)
    ensures Scene([], s) && Sane(Trio, [], false) && s == Start(Trio)
    ensures s.nodes == map[1 := Fresh(1), 2 := Fresh(2), 3 := Fresh(3)]
  {
    s := Run(Trio, []);
  }

  /** Any event that changes one replica of a scene and sends something. */
  lemma Play(events: seq<Event>, s: System, e: Event, n: Node) returns (more: seq<Event>, t: System)
    requires Scene(events, s) && n.id in Trio
    requires var u := Step(s, e); u.h.cluster == Trio && u.nodes == s.nodes[n.id := n] && s.h.sent <= u.h.sent
    ensures t == Step(s, e) && Next(events, s, e, more, t, n)
  {
    hide Step, Guarded, Sane, RoomToStand, Roomy;
    more, t := events + [e], Step(s, e);
    RunSnoc(Trio, events, e);
    if Sane(Trio, events, false) && Roomy(s, e) {
      RoomGuards(s, e);
      SaneSnoc(Trio, events, e, false);
    }
  }

  lemma RoomGuards(s: System, e: Event)
    requires Roomy(s, e)
    ensures Guarded(s, e, false)
  {}

  lemma Three()
    ensures |Trio| == 3 && Quorum(Trio) == 2 && forall k: nat :: IsQuorum(Trio, k) <==> k >= 2
  {
    assert Trio == {1} + {2} + {3};
  }

  // ------------------------------------------------------------- the quorum index

  /** Of three, the quorum index is what the two that hold most have in common. */
  lemma Median(n: Node, p: Peer, q: Peer, r: Peer, index: nat)
    requires {p, q, r} == Trio && p != q && q != r && p != r
    requires HeldBy(n, p) >= index && HeldBy(n, q) == index && HeldBy(n, r) <= index
    ensures QuorumIndex(n, Trio) == index
  {
    hide QuorumIndex;
    Three();
    Two(Holders(n, Trio, index), p, q);
    var found := QuorumIndex(n, Trio);
    if found > index { AtMostOne(Holders(n, Trio, found), p); }
  }

  lemma Two(s: set<Peer>, p: Peer, q: Peer)
    requires p in s && q in s && p != q
    ensures |s| >= 2
  {
    assert s == {p} + {q} + (s - {p, q});
  }

  lemma AtMostOne(s: set<Peer>, p: Peer)
    requires s <= {p}
    ensures |s| <= 1
  {
    assert s == {} || s == {p};
  }

  // -------------------------------------------------------------------- elections

  lemma Campaigns(events: seq<Event>, s: System, p: Peer) returns (more: seq<Event>, t: System)
    requires Scene(events, s) && p in Trio && s.nodes[p].role != Leader
    ensures var c := StartCampaign(s.nodes[p]);
            && Next(events, s, Timeout(p, false, Defaults), more, t, c)
            && forall q | q in Trio && q != p ::
               Envelope(p, q, VoteRequest(c.term, |c.log|, LastTerm(c.log))) in t.h.sent
  {
    hide Sane, Roomy, Run, LastTerm;
    Three();
    more, t := Play(events, s, Timeout(p, false, Defaults), StartCampaign(s.nodes[p]));
  }

  lemma Asks(events: seq<Event>, s: System, p: Peer) returns (more: seq<Event>, t: System)
    requires Scene(events, s) && p in Trio && s.nodes[p].role != Leader
    ensures var n := s.nodes[p];
            && Next(events, s, Timeout(p, true, Defaults), more, t, StartPreVote(n))
            && forall q | q in Trio && q != p ::
               Envelope(p, q, PreVoteRequest(NextTerm(n.term), |n.log|, LastTerm(n.log))) in t.h.sent
  {
    hide Sane, Roomy, Run, LastTerm, NextTerm;
    Three();
    more, t := Play(events, s, Timeout(p, true, Defaults), StartPreVote(s.nodes[p]));
  }

  /** A replica that has not heard from its leader says it would vote. */
  lemma Encourages(events: seq<Event>, s: System, e: Envelope) returns (more: seq<Event>, t: System)
    requires Scene(events, s) && e in s.h.sent && e.to in Trio && e.message.PreVoteRequest?
    requires e.message.term > s.nodes[e.to].term && UpToDate(e.message.lastIndex, e.message.lastTerm, s.nodes[e.to].log)
    ensures var v := s.nodes[e.to];
            Next(events, s, Deliver(e, true, Defaults), more, t, v)
              && Envelope(e.to, e.from, PreVoteResponse(v.term, true)) in t.h.sent
  {
    hide Sane, Roomy, Run, UpToDate;
    assert s.nodes[e.to := s.nodes[e.to]] == s.nodes;
    more, t := Play(events, s, Deliver(e, true, Defaults), s.nodes[e.to]);
  }

  lemma Encouraged(events: seq<Event>, s: System, e: Envelope) returns (more: seq<Event>, t: System)
    requires Scene(events, s) && e in s.h.sent && e.to in Trio && e.from in Trio && e.from != e.to
    requires var n := s.nodes[e.to];
             e.message == PreVoteResponse(n.term, true) && n.role == PreCandidate && n.votes == map[n.id := true]
    ensures var c := StartCampaign(s.nodes[e.to]);
            && Next(events, s, Deliver(e, false, Defaults), more, t, c)
            && forall q | q in Trio && q != e.to ::
               Envelope(e.to, q, VoteRequest(c.term, |c.log|, LastTerm(c.log))) in t.h.sent
  {
    hide Sane, Roomy, Run, LastTerm, Next, NextTerm, AskAll;
    var n := s.nodes[e.to];
    var v := n.(votes := n.votes[e.from := true]);
    Three();
    Two(Granted(v.votes), e.to, e.from);
    hide Granted, IsQuorum;
    EncouragedStep(s, e);
    hide Step, StartCampaign;
    more, t := Play(events, s, Deliver(e, false, Defaults), StartCampaign(n));
  }

  lemma EncouragedStep(s: System, e: Envelope)
    requires s.h.cluster == Trio && e in s.h.sent && e.to in s.nodes && s.nodes[e.to].id == e.to
    requires var n := s.nodes[e.to];
             && e.message == PreVoteResponse(n.term, true) && n.role == PreCandidate
             && IsQuorum(Trio, |Granted(n.votes[e.from := true])|) && !IsQuorum(Trio, 1)
    ensures var c, t := StartCampaign(s.nodes[e.to]), Step(s, Deliver(e, false, Defaults));
            && t.nodes == s.nodes[e.to := c] && t.h.cluster == Trio && c.id == e.to
            && s.h.sent <= t.h.sent
            && forall q | q in Trio && q != e.to ::
               Envelope(e.to, q, VoteRequest(c.term, |c.log|, LastTerm(c.log))) in t.h.sent
  {
    hide LastTerm, NextTerm, Granted, IsQuorum;
    var n := s.nodes[e.to];
    var v := n.(votes := n.votes[e.from := true]);
    assert StartCampaign(v) == StartCampaign(n);
  }

  /** A pre-vote round with one answer, and the campaign it leads to. */
  lemma Rises(events: seq<Event>, s: System, p: Peer, q: Peer) returns (more: seq<Event>, t: System)
    requires Scene(events, s) && Sane(Trio, events, false) && p in Trio && q in Trio && p != q
    requires var n, v := s.nodes[p], s.nodes[q];
             n.role != Leader && n.term == v.term < TermMax && UpToDate(|n.log|, LastTerm(n.log), v.log)
    ensures Scene(more, t) && Sane(Trio, more, false) && s.h.sent <= t.h.sent
    ensures var c := StartCampaign(s.nodes[p]);
            && t.nodes == s.nodes[p := c]
            && Envelope(p, q, VoteRequest(c.term, |c.log|, LastTerm(c.log))) in t.h.sent
  {
    hide Sane, Scene, LastTerm, UpToDate;
    Ids(events, s);
    var n, v := s.nodes[p], s.nodes[q];
    more, t := Asks(events, s, p);
    assert t.nodes[q] == v && t.nodes[p] == StartPreVote(n);
    more, t := Encourages(more, t, Envelope(p, q, PreVoteRequest(NextTerm(n.term), |n.log|, LastTerm(n.log))));
    assert t.nodes[p] == StartPreVote(n);
    more, t := Encouraged(more, t, Envelope(q, p, PreVoteResponse(v.term, true)));
  }

  lemma Ids(events: seq<Event>, s: System)
    requires Scene(events, s)
    ensures s.nodes.Keys == Trio && forall p | p in Trio :: s.nodes[p].id == p
  {
    hide Run;
  }

  lemma StepsDown(events: seq<Event>, s: System, p: Peer) returns (more: seq<Event>, t: System)
    requires Scene(events, s) && p in Trio && s.nodes[p].role == Leader
    ensures Next(events, s, LoseQuorum(p), more, t, BecomeFollower(s.nodes[p], s.nodes[p].term))
  {
    hide Sane, Roomy, Run;
    more, t := Play(events, s, LoseQuorum(p), BecomeFollower(s.nodes[p], s.nodes[p].term));
  }

  lemma Votes(events: seq<Event>, s: System, e: Envelope) returns (more: seq<Event>, t: System)
    requires Scene(events, s) && e in s.h.sent && e.to in Trio && e.message.VoteRequest?
    requires e.message.term > s.nodes[e.to].term && UpToDate(e.message.lastIndex, e.message.lastTerm, s.nodes[e.to].log)
    ensures var v := BecomeFollower(s.nodes[e.to], e.message.term).(votedFor := Some(e.from));
            && Next(events, s, Deliver(e, false, Defaults), more, t, v)
            && Envelope(e.to, e.from, VoteResponse(v.term, true)) in t.h.sent
  {
    hide Sane, Roomy, Run, UpToDate;
    more, t := Play(events, s, Deliver(e, false, Defaults),
                    BecomeFollower(s.nodes[e.to], e.message.term).(votedFor := Some(e.from)));
  }

  lemma ReachStays(n: Node, peers: set<Peer>)
    requires forall p | p in n.next && p in peers :: !OutOfReach(n, n.next[p])
    ensures AfterSend(n, peers) == n
  {}

  /** Too few entries have been applied for a snapshot to be due. */
  predicate Few(n: Node, index: nat) {
    |Applied(Advanced(n, index)).machine| <= 4096
  }

  /** A leader whose log has grown, and whose quorum index is known. */
  lemma Announces(s: System, n: Node, index: nat)
    requires s.h.cluster == Trio && QuorumIndex(n, Trio) == index && Few(n, index)
    requires forall p | p in n.next && p != n.id :: !OutOfReach(n, n.next[p])
    ensures var t := Announce(s, n, Defaults);
            && t.nodes == s.nodes[n.id := Applied(Advanced(n, index))] && t.h.cluster == Trio
            && t.h.sent == s.h.sent + AppendsFor(n, Trio - {n.id}, 256)
  {
    hide QuorumIndex, AppendTo, OutOfReach, Applied, Advanced;
    ReachStays(n, Trio - {n.id});
    SettlesTo(n, index);
  }

  lemma SettlesTo(n: Node, index: nat)
    requires QuorumIndex(n, Trio) == index && Few(n, index)
    ensures Settled(n, Trio, 4096) == Applied(Advanced(n, index)) && Applied(Advanced(n, index)).id == n.id
  {
    hide QuorumIndex;
  }

  lemma TakesOffice(n: Node)
    requires n.id in Trio && n.base <= |n.log| && n.commit <= |n.machine| <= 4096
    ensures var l := TakeOffice(n, Trio);
            && l.id == n.id && QuorumIndex(l, Trio) == 0 && Applied(Advanced(l, 0)) == l && Few(l, 0)
            && (forall p | p in l.next :: !OutOfReach(l, l.next[p]))
            && (forall votes :: TakeOffice(n.(votes := votes), Trio) == l)
  {
    hide QuorumIndex;
    var q :| q in Trio && q != n.id;
    var r :| r in Trio && r != n.id && r != q;
    Median(TakeOffice(n, Trio), n.id, q, r, 0);
  }

  /** The append that carries the rest of a leader's log. */
  lemma AppendIs(n: Node, q: Peer, prev: nat, entries: Log)
    requires q in n.next && n.next[q] == prev + 1 && n.base <= prev && prev + |entries| == |n.log| && |entries| <= 256
    requires n.log[prev..] == entries
    ensures AppendTo(n, q, 256)
            == {Envelope(n.id, q, AppendEntries(n.term, prev, TermAt(n.log, prev).value, entries, n.commit))}
  {
    assert n.log[prev..prev + |entries|] == entries;
  }

  lemma Quorate(s: System, n: Node, e: Envelope)
    requires e.message == VoteResponse(n.term, true) && n.role == Candidate
    requires var v := n.(votes := n.votes[e.from := true]);
             s.h.cluster == Trio && IsQuorum(Trio, |Granted(v.votes)|) && TakeOffice(v, Trio) == TakeOffice(n, Trio)
    ensures var v := n.(votes := n.votes[e.from := true]);
            Receive(s, n, e.from, e.message, false, Defaults) == Announce(Elect(s, v), TakeOffice(n, Trio), Defaults)
  {
    hide Announce, Elect, TakeOffice;
  }

  lemma Elected(events: seq<Event>, s: System, e: Envelope) returns (more: seq<Event>, t: System)
    requires Scene(events, s) && e in s.h.sent && e.to in Trio && e.from in Trio && e.from != e.to
    requires var n := s.nodes[e.to];
             && e.message == VoteResponse(n.term, true) && n.role == Candidate && n.votes == map[n.id := true]
             && n.base <= |n.log| && n.commit <= |n.machine| <= 4096
    ensures var l := TakeOffice(s.nodes[e.to], Trio);
            && Next(events, s, Deliver(e, false, Defaults), more, t, l)
            && forall q | q in Trio && q != e.to :: AppendTo(l, q, 256) <= t.h.sent
  {
    hide Sane, Roomy, Run, QuorumIndex, AppendTo, Next, Announce, TakeOffice, OutOfReach, Applied, Advanced, Few;
    var n := s.nodes[e.to];
    var v, l := n.(votes := n.votes[e.from := true]), TakeOffice(n, Trio);
    Three();
    Two(Granted(v.votes), e.to, e.from);
    TakesOffice(n);
    Quorate(s, n, e);
    hide Granted, IsQuorum;
    Announces(Elect(s, v), l, 0);
    hide Receive, Elect;
    more, t := Play(events, s, Deliver(e, false, Defaults), l);
  }

  // ------------------------------------------------------------------ replication

  lemma Proposes(events: seq<Event>, s: System, p: Peer, command: seq<nat>, index: nat)
      returns (more: seq<Event>, t: System)
    requires Scene(events, s) && p in Trio && s.nodes[p].role == Leader
    requires var l := AppendOwn(s.nodes[p], Command(command));
             && QuorumIndex(l, Trio) == index <= l.commit <= |l.machine| <= 4096
             && forall q | q in l.next && q != p :: !OutOfReach(l, l.next[q])
    ensures var l := AppendOwn(s.nodes[p], Command(command));
            && Next(events, s, Propose(p, command, Defaults), more, t, l)
            && forall q | q in Trio && q != p :: AppendTo(l, q, 256) <= t.h.sent
  {
    hide Sane, Roomy, Run, QuorumIndex, AppendTo, Next, Announce, OutOfReach;
    var l := AppendOwn(s.nodes[p], Command(command));
    Announces(Extend(s, s.nodes[p], Command(command)), l, index);
    more, t := Play(events, s, Propose(p, command, Defaults), l);
  }

  lemma Beats(events: seq<Event>, s: System, p: Peer) returns (more: seq<Event>, t: System)
    requires Scene(events, s) && p in Trio && s.nodes[p].role == Leader
    ensures var l := AfterSend(s.nodes[p], Trio - {p});
            && Next(events, s, Heartbeat(p, Defaults), more, t, l)
            && forall q | q in Trio && q != p :: AppendTo(s.nodes[p], q, 256) <= t.h.sent
  {
    hide Sane, Roomy, Run, AppendTo, Next, OutOfReach;
    more, t := Play(events, s, Heartbeat(p, Defaults), AfterSend(s.nodes[p], Trio - {p}));
  }

  lemma Accepts(events: seq<Event>, s: System, e: Envelope) returns (more: seq<Event>, t: System)
    requires Scene(events, s) && e in s.h.sent && e.to in Trio && e.message.AppendEntries?
    requires e.message.term >= s.nodes[e.to].term
    requires s.nodes[e.to].base <= e.message.prevIndex && Fits(s.nodes[e.to], e.message.prevIndex, e.message.prevTerm)
    ensures var f, m := Meeting(s.nodes[e.to], e.message.term), e.message;
            && m.prevIndex <= |f.log| && f.id == e.to && f.term == m.term
            && Next(events, s, Deliver(e, false, Defaults), more, t,
                    AcceptAppend(f, m.prevIndex, m.entries, m.leaderCommit, 4096))
            && Envelope(e.to, e.from, AppendResponse(m.term, true, m.prevIndex + |m.entries|, 0, 0)) in t.h.sent
  {
    hide Sane, Roomy, Run, Next, AcceptAppend;
    var f, m := Meeting(s.nodes[e.to], e.message.term), e.message;
    AcceptFrame(f, m.prevIndex, m.entries, m.leaderCommit, 4096);
    more, t := Play(events, s, Deliver(e, false, Defaults),
                    AcceptAppend(f, m.prevIndex, m.entries, m.leaderCommit, 4096));
  }

  lemma Rejects(events: seq<Event>, s: System, e: Envelope) returns (more: seq<Event>, t: System)
    requires Scene(events, s) && e in s.h.sent && e.to in Trio && e.message.AppendEntries?
    requires e.message.term >= s.nodes[e.to].term
    requires s.nodes[e.to].base <= e.message.prevIndex && !Fits(s.nodes[e.to], e.message.prevIndex, e.message.prevTerm)
    ensures var f := Meeting(s.nodes[e.to], e.message.term);
            && f.id == e.to && Next(events, s, Deliver(e, false, Defaults), more, t, f)
            && Envelope(e.to, e.from, RejectAppend(f, e.message.prevIndex)) in t.h.sent
  {
    hide Sane, Roomy, Run, Next, RejectAppend;
    more, t := Play(events, s, Deliver(e, false, Defaults), Meeting(s.nodes[e.to], e.message.term));
  }

  predicate Acknowledges(m: Message, term: Term, index: nat) {
    m == AppendResponse(term, true, index, 0, 0) || m == InstallResponse(term, index)
  }

  /** A leader counts an acknowledgement and, if the follower is within reach, sends
      it what is next. */
  lemma Counts(events: seq<Event>, s: System, e: Envelope, index: nat, acknowledged: nat)
      returns (more: seq<Event>, t: System)
    requires Scene(events, s) && e in s.h.sent && e.to in Trio
    requires Acknowledges(e.message, s.nodes[e.to].term, acknowledged)
    requires var n := s.nodes[e.to];
             && n.role == Leader && e.from in n.matched
             && QuorumIndex(NoteAck(n, e.from, acknowledged), Trio) == index
             && Few(NoteAck(n, e.from, acknowledged), index)
             && var c := Applied(Advanced(NoteAck(n, e.from, acknowledged), index));
                e.from in c.next && !OutOfReach(c, c.next[e.from])
    ensures Next(events, s, Deliver(e, false, Defaults), more, t,
                 Applied(Advanced(NoteAck(s.nodes[e.to], e.from, acknowledged), index)))
  {
    hide Sane, Roomy, Run, QuorumIndex, AppendTo, Next, OutOfReach, Applied, Advanced, Settled;
    var l := NoteAck(s.nodes[e.to], e.from, acknowledged);
    var c := Applied(Advanced(l, index));
    SettlesTo(l, index);
    ReachStays(c, {e.from});
    CountsStep(s, e, acknowledged, c);
    hide Step;
    more, t := Play(events, s, Deliver(e, false, Defaults), c);
  }

  lemma CountsStep(s: System, e: Envelope, acknowledged: nat, c: Node)
    requires s.h.cluster == Trio && e in s.h.sent && e.to in s.nodes && s.nodes[e.to].id == e.to
    requires var n := s.nodes[e.to];
             && n.role == Leader && e.from in n.matched && Acknowledges(e.message, n.term, acknowledged)
             && Settled(NoteAck(n, e.from, acknowledged), Trio, 4096) == c && c.id == e.to
             && AfterSend(c, {e.from}) == c
    ensures var t := Step(s, Deliver(e, false, Defaults));
            t.nodes == s.nodes[e.to := c] && t.h.cluster == Trio && s.h.sent <= t.h.sent
  {
    hide Settled, AfterSend, AppendsFor, NoteAck;
  }

  lemma LearnsOfRejection(events: seq<Event>, s: System, e: Envelope) returns (more: seq<Event>, t: System)
    requires Scene(events, s) && e in s.h.sent && e.to in Trio && e.message.AppendResponse? && !e.message.success
    requires s.nodes[e.to].role == Leader && e.message.term == s.nodes[e.to].term
    ensures var l := NoteReject(s.nodes[e.to], e.from, e.message.conflictIndex, e.message.conflictTerm);
            && l.id == e.to && Next(events, s, Deliver(e, false, Defaults), more, t, AfterSend(l, {e.from}))
            && AppendTo(l, e.from, 256) <= t.h.sent
  {
    hide Sane, Roomy, Run, AppendTo, Next, OutOfReach, LastOfTerm;
    var l := NoteReject(s.nodes[e.to], e.from, e.message.conflictIndex, e.message.conflictTerm);
    more, t := Play(events, s, Deliver(e, false, Defaults), AfterSend(l, {e.from}));
  }

  // -------------------------------------------------------------------- snapshots

  lemma Compacts(events: seq<Event>, s: System, p: Peer) returns (more: seq<Event>, t: System)
    requires Scene(events, s) && p in Trio
    ensures Next(events, s, Compact(p), more, t, Compacted(s.nodes[p]))
  {
    hide Sane, Roomy, Run, Next;
    more, t := Play(events, s, Compact(p), Compacted(s.nodes[p]));
  }

  lemma Installs(events: seq<Event>, s: System, e: Envelope) returns (more: seq<Event>, t: System)
    requires Scene(events, s) && e in s.h.sent && e.to in Trio && e.message.InstallSnapshot?
    requires e.message.term >= s.nodes[e.to].term
    ensures var f, m := Meeting(s.nodes[e.to], e.message.term), e.message;
            && f.id == e.to && f.term == m.term
            && Next(events, s, Deliver(e, false, Defaults), more, t,
                    if NoNews(f, m.covers) then f else Installed(f, m.covers, m.data))
            && Envelope(e.to, e.from,
                        InstallResponse(f.term, if NoNews(f, m.covers) then |f.log| else |m.covers|)) in t.h.sent
  {
    hide Sane, Roomy, Run, Next;
    var f, m := Meeting(s.nodes[e.to], e.message.term), e.message;
    more, t := Play(events, s, Deliver(e, false, Defaults),
                    if NoNews(f, m.covers) then f else Installed(f, m.covers, m.data));
  }
}
