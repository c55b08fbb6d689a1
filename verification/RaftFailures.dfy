/** Runs in which what the theorems promise fails, each by the one event that the
    theorems exclude. */
module RaftFailures {
  import opened Wrappers
  import opened RaftNode
  import opened RaftSystem
  import opened RaftRuns
  import opened RaftScenes

  // ------------------------------------------------- standing in the largest term

  function Climbed(k: nat): Node {
    if k == 0 then Fresh(1) else Fresh(1).(term := k, votedFor := Some(1), role := Candidate, votes := map[1 := true])
  }

  /** Campaign after campaign, one replica reaches any term there is. */
  lemma {:induction false} Climb(k: nat) returns (events: seq<Event>, s: System)
    requires k <= TermMax
    ensures Scene(events, s) && Sane(Trio, events, false)
    ensures s.nodes == map[1 := Climbed(k), 2 := Fresh(2), 3 := Fresh(3)]
    ensures k > 0 ==> Envelope(1, 2, VoteRequest(k, 0, 0)) in s.h.sent
  {
    hide Sane, Run;
    if k == 0 {
      events := [];
      s := Opening();
    } else {
      events, s := Climb(k - 1);
      events, s := Campaigns(events, s, 1);
    }
  }

  function Candidacy(n: Node, term: Term): Node {
    n.(term := term, votedFor := Some(n.id), role := Candidate, votes := map[n.id := true])
  }

  function Supporter(n: Node, term: Term, candidate: Peer): Node {
    BecomeFollower(n, term).(votedFor := Some(candidate))
  }

  lemma FirstLeader() returns (events: seq<Event>, s: System)
    ensures Scene(events, s)
    ensures s.nodes == map[1 := TakeOffice(Climbed(TermMax), Trio), 2 := Supporter(Fresh(2), TermMax, 1), 3 := Fresh(3)]
  {
    hide Sane, Scene, TakeOffice;
    events, s := Climb(TermMax);
    assert s.nodes[2] == Fresh(2);
    events, s := Votes(events, s, Envelope(1, 2, VoteRequest(TermMax, 0, 0)));
    assert s.nodes[1] == Climbed(TermMax);
    Office(s.nodes[1]);
    events, s := Elected(events, s, Envelope(2, 1, VoteResponse(TermMax, true)));
  }

  /** A replica that votes in the largest term and then stands in it votes twice, and
      two replicas lead that term. */
  lemma TwoLeaders() returns (events: seq<Event>)
    ensures var s := Run(Trio, events);
            && 1 in s.nodes && 2 in s.nodes
            && s.nodes[1].role == Leader && s.nodes[2].role == Leader && s.nodes[1].term == s.nodes[2].term == TermMax
    ensures !Sane(Trio, events, false)
  {
    hide Sane, TakeOffice, Run;
    var s;
    events, s := FirstLeader();
    Office(Climbed(TermMax));
    var v, first := Supporter(Fresh(2), TermMax, 1), s.nodes[1];
    assert s.nodes[2] == v;
    events, s := Campaigns(events, s, 2);
    assert s.nodes[2] == Candidacy(v, TermMax) && s.nodes[3] == Fresh(3);
    events, s := Votes(events, s, Envelope(2, 3, VoteRequest(TermMax, 0, 0)));
    assert s.nodes[2] == Candidacy(v, TermMax);
    Office(Candidacy(v, TermMax));
    events, s := Elected(events, s, Envelope(3, 2, VoteResponse(TermMax, true)));
    assert s.nodes[1] == first;
    if Sane(Trio, events, false) { ElectionSafety(Trio, events, 1, 2); }
  }

  lemma Office(n: Node)
    ensures TakeOffice(n, Trio).role == Leader && TakeOffice(n, Trio).term == n.term && TakeOffice(n, Trio).id == n.id
    ensures n.log <= TakeOffice(n, Trio).log
  {}

  // ------------------------------------------------------------ replicas, spelled out

  function Of(x: nat, y: nat, z: nat): map<Peer, nat> {
    map[1 := x, 2 := y, 3 := z]
  }

  function Lead(id: Peer, term: Term, log: Log, base: nat, next: map<Peer, nat>, matched: map<Peer, nat>,
                commit: nat): Node
    requires base <= commit <= |log|
  {
    Node(id, term, Some(id), log, base, log[..base], Leader, map[], next, matched, commit, log[..commit])
  }

  function Follow(id: Peer, term: Term, votedFor: Option<Peer>, log: Log, base: nat, commit: nat): Node
    requires base <= commit <= |log|
  {
    Node(id, term, votedFor, log, base, log[..base], Follower, map[], map[], map[], commit, log[..commit])
  }

  const N1 := Entry(1, Noop)
  const N2 := Entry(2, Noop)
  const N3 := Entry(3, Noop)
  const B := Entry(1, Command([7]))
  const C := Entry(1, Command([8]))

  /** Replica 1 stands in term 1 and gets the vote of replica 3. */
  lemma ThirdVotes() returns (events: seq<Event>, s: System)
    ensures Scene(events, s) && Sane(Trio, events, false)
    ensures s.nodes == map[1 := Candidacy(Fresh(1), 1), 2 := Fresh(2), 3 := Follow(3, 1, Some(1), [], 0, 0)]
    ensures Envelope(3, 1, VoteResponse(1, true)) in s.h.sent
  {
    hide Sane, Scene;
    events := [];
    s := Opening();
    assert s.nodes[1] == Fresh(1);
    assert s.nodes[3] == Fresh(3);
    events, s := Rises(events, s, 1, 3);
    assert s.nodes[1] == Candidacy(Fresh(1), 1) && s.nodes[3] == Fresh(3);
    events, s := Votes(events, s, Envelope(1, 3, VoteRequest(1, 0, 0)));
  }

  const L1 := Lead(1, 1, [N1], 0, Of(2, 1, 1), Of(1, 0, 0), 0)

  /** It leads term 1. */
  lemma Beginning() returns (events: seq<Event>, s: System)
    ensures Scene(events, s) && Sane(Trio, events, false)
    ensures s.nodes == map[1 := L1, 2 := Fresh(2), 3 := Follow(3, 1, Some(1), [], 0, 0)]
    ensures forall q | q == 2 || q == 3 :: Envelope(1, q, AppendEntries(1, 0, 0, [N1], 0)) in s.h.sent
  {
    hide Sane, Scene, TakeOffice, AppendTo;
    events, s := ThirdVotes();
    assert s.nodes[1] == Candidacy(Fresh(1), 1);
    events, s := Elected(events, s, Envelope(3, 1, VoteResponse(1, true)));
    FirstOffice();
    AppendIs(L1, 2, 0, [N1]);
    AppendIs(L1, 3, 0, [N1]);
  }

  lemma OfficeOf(n: Node)
    requires n.id in Trio
    ensures var k := |n.log| + 1;
            TakeOffice(n, Trio) == n.(role := Leader, votes := map[], log := n.log + [Entry(n.term, Noop)],
                                      next := Of(k, k, k)[n.id := k + 1], matched := Of(0, 0, 0)[n.id := k])
  {
    var k, none := |n.log| + 1, map p | p in Trio :: if p == n.id then |n.log| else 0;
    EachOf(k);
    SelfOf(n.id, |n.log|, k, none);
    hide Of, TakeOffice;
    OfficeIs(n, Trio, Of(k, k, k), none);
  }

  lemma EachOf(k: nat)
    ensures (map p | p in Trio :: k) == Of(k, k, k)
  {}

  lemma SelfOf(id: Peer, size: nat, k: nat, none: map<Peer, nat>)
    requires id in Trio && none == map p | p in Trio :: if p == id then size else 0
    ensures none[id := k] == Of(0, 0, 0)[id := k]
  {
    EachOf(0);
    hide Of;
  }

  lemma FirstOffice()
    ensures TakeOffice(Candidacy(Fresh(1), 1), Trio) == L1
  {
    hide TakeOffice;
    OfficeOf(Candidacy(Fresh(1), 1));
  }

  // ------------------------------------------------- a snapshot that takes too much

  const L2 := Lead(1, 1, [N1, B], 0, Of(3, 1, 1), Of(2, 0, 0), 0)

  /** A second entry is proposed and sent. */
  lemma Second() returns (events: seq<Event>, s: System)
    ensures Scene(events, s) && Sane(Trio, events, false)
    ensures s.nodes == map[1 := L2, 2 := Fresh(2), 3 := Follow(3, 1, Some(1), [], 0, 0)]
    ensures Envelope(1, 2, AppendEntries(1, 0, 0, [N1, B], 0)) in s.h.sent
    ensures Envelope(1, 3, AppendEntries(1, 0, 0, [N1], 0)) in s.h.sent
  {
    hide Sane, Scene, QuorumIndex, AppendTo;
    events, s := Beginning();
    assert s.nodes[1] == Lead(1, 1, [N1], 0, Of(2, 1, 1), Of(1, 0, 0), 0);
    assert AppendOwn(s.nodes[1], Command([7])) == L2;
    Median(L2, 1, 2, 3, 0);
    events, s := Proposes(events, s, 1, [7], 0);
    AppendIs(L2, 2, 0, [N1, B]);
  }

  const L3 := Lead(1, 1, [N1, B], 0, Of(3, 1, 2), Of(2, 0, 1), 1)

  lemma FirstAck()
    ensures QuorumIndex(NoteAck(L2, 3, 1), Trio) == 1 && Applied(Advanced(NoteAck(L2, 3, 1), 1)) == L3
  {
    hide QuorumIndex;
    var acked := Lead(1, 1, [N1, B], 0, Of(3, 1, 2), Of(2, 0, 1), 0);
    assert NoteAck(L2, 3, 1) == acked;
    Median(acked, 1, 3, 2, 1);
    assert acked.machine + acked.log[0..1] == acked.log[..1];
  }

  /** The first is committed on replica 3's word. */
  lemma OneCommitted() returns (events: seq<Event>, s: System)
    ensures Scene(events, s) && Sane(Trio, events, false)
    ensures s.nodes == map[1 := L3, 2 := Fresh(2), 3 := Follow(3, 1, Some(1), [N1], 0, 0)]
    ensures Envelope(1, 2, AppendEntries(1, 0, 0, [N1, B], 0)) in s.h.sent
  {
    hide Sane, Scene, QuorumIndex, NoteAck, Applied, Advanced;
    events, s := Second();
    assert s.nodes[3] == Follow(3, 1, Some(1), [], 0, 0);
    events, s := Accepts(events, s, Envelope(1, 3, AppendEntries(1, 0, 0, [N1], 0)));
    assert s.nodes[3] == Follow(3, 1, Some(1), [N1], 0, 0) && s.nodes[1] == L2;
    FirstAck();
    events, s := Counts(events, s, Envelope(3, 1, AppendResponse(1, true, 1, 0, 0)), 1, 1);
  }

  const L4 := Lead(1, 1, [N1, B], 1, Of(3, 1, 2), Of(2, 0, 1), 1)
  const L5 := Lead(1, 1, [N1, B], 1, Of(3, 2, 2), Of(2, 0, 1), 1)

  lemma FirstIsCompacted()
    ensures Compacted(L3) == L4
  {
    assert L3.machine == L4.saved;
  }

  lemma SecondIsOutOfReach()
    ensures AppendTo(L4, 2, 256) == {Envelope(1, 2, InstallSnapshot(1, [N1], [N1]))}
  {
    assert L4.saved == [N1] == Covers(L4);
  }

  lemma SecondMovesOn()
    ensures AfterSend(L4, Trio - {1}) == L5
  {
    assert AfterSend(L4, Trio - {1}).next == Of(3, 2, 2);
  }

  /** The leader compacts it. */
  lemma FirstCompacts() returns (events: seq<Event>, s: System)
    ensures Scene(events, s) && Sane(Trio, events, false)
    ensures s.nodes == map[1 := L4, 2 := Fresh(2), 3 := Follow(3, 1, Some(1), [N1], 0, 0)]
    ensures Envelope(1, 2, AppendEntries(1, 0, 0, [N1, B], 0)) in s.h.sent
  {
    hide Sane, Scene, Compacted;
    FirstIsCompacted();
    events, s := OneCommitted();
    events, s := Compacts(events, s, 1);
  }

  /** It sends replica 2 the snapshot. */
  lemma SnapshotSent() returns (events: seq<Event>, s: System)
    ensures Scene(events, s) && Sane(Trio, events, false)
    ensures s.nodes == map[1 := L5, 2 := Fresh(2), 3 := Follow(3, 1, Some(1), [N1], 0, 0)]
    ensures Envelope(1, 2, AppendEntries(1, 0, 0, [N1, B], 0)) in s.h.sent
    ensures Envelope(1, 2, InstallSnapshot(1, [N1], [N1])) in s.h.sent
  {
    hide Sane, Scene, AfterSend, AppendTo;
    SecondIsOutOfReach();
    SecondMovesOn();
    events, s := FirstCompacts();
    assert s.nodes[1] == L4;
    events, s := Beats(events, s, 1);
  }

  const F1 := Follow(2, 1, None, [N1], 1, 1)

  /** The entries sent first arrive and are acknowledged; then the snapshot arrives
      and discards the second. */
  lemma SnapshotInstalled() returns (events: seq<Event>, s: System)
    ensures Scene(events, s) && Sane(Trio, events, false)
    ensures s.nodes == map[1 := L5, 2 := F1, 3 := Follow(3, 1, Some(1), [N1], 0, 0)]
    ensures Envelope(2, 1, AppendResponse(1, true, 2, 0, 0)) in s.h.sent
  {
    hide Sane, Scene;
    events, s := SnapshotSent();
    assert s.nodes[2] == Fresh(2);
    events, s := Accepts(events, s, Envelope(1, 2, AppendEntries(1, 0, 0, [N1, B], 0)));
    var f := Follow(2, 1, None, [N1, B], 0, 0);
    assert s.nodes[2] == f;
    assert Installed(f, [N1], [N1]) == F1;
    events, s := Installs(events, s, Envelope(1, 2, InstallSnapshot(1, [N1], [N1])));
  }

  const L6 := Lead(1, 1, [N1, B], 1, Of(3, 3, 2), Of(2, 2, 1), 2)

  lemma SecondAck()
    ensures QuorumIndex(NoteAck(L5, 2, 2), Trio) == 2 && Applied(Advanced(NoteAck(L5, 2, 2), 2)) == L6
  {
    hide QuorumIndex;
    var acked := Lead(1, 1, [N1, B], 1, Of(3, 3, 2), Of(2, 2, 1), 1);
    assert NoteAck(L5, 2, 2) == acked;
    Median(acked, 1, 2, 3, 2);
    assert acked.machine + acked.log[1..2] == acked.log[..2];
  }

  /** On that acknowledgement the leader commits an entry that only it has left. */
  lemma Committed() returns (events: seq<Event>, s: System)
    ensures Scene(events, s) && Sane(Trio, events, false)
    ensures s.nodes == map[1 := L6, 2 := F1, 3 := Follow(3, 1, Some(1), [N1], 0, 0)]
  {
    hide Sane, Scene, QuorumIndex, NoteAck, Applied, Advanced;
    events, s := SnapshotInstalled();
    assert s.nodes[1] == L5;
    SecondAck();
    events, s := Counts(events, s, Envelope(2, 1, AppendResponse(1, true, 2, 0, 0)), 2, 2);
  }

  const M1 := Lead(2, 2, [N1, N2], 1, Of(2, 3, 2), Of(0, 2, 0), 1)

  lemma SecondOffice()
    ensures TakeOffice(Candidacy(F1, 2), Trio) == M1
    ensures AppendTo(M1, 3, 256) == {Envelope(2, 3, AppendEntries(2, 1, 1, [N2], 1))}
  {
    hide TakeOffice, AppendTo;
    OfficeOf(Candidacy(F1, 2));
    assert F1.log + [N2] == [N1, N2] && F1.machine == M1.machine;
    AppendIs(M1, 3, 1, [N2]);
  }

  lemma SecondLeader() returns (events: seq<Event>, s: System)
    ensures Scene(events, s) && Sane(Trio, events, false)
    ensures s.nodes == map[1 := L6, 2 := M1, 3 := Follow(3, 2, Some(2), [N1], 0, 0)]
    ensures Envelope(2, 3, AppendEntries(2, 1, 1, [N2], 1)) in s.h.sent
  {
    hide Sane, Scene, TakeOffice, AppendTo;
    events, s := Committed();
    assert s.nodes[2] == F1 && s.nodes[3] == Follow(3, 1, Some(1), [N1], 0, 0);
    events, s := Rises(events, s, 2, 3);
    assert s.nodes[2] == Candidacy(F1, 2) && s.nodes[3] == Follow(3, 1, Some(1), [N1], 0, 0);
    events, s := Votes(events, s, Envelope(2, 3, VoteRequest(2, 1, 1)));
    assert s.nodes[2] == Candidacy(F1, 2);
    SecondOffice();
    events, s := Elected(events, s, Envelope(3, 2, VoteResponse(2, true)));
  }

  lemma OtherReplicated() returns (events: seq<Event>, s: System)
    ensures Scene(events, s) && Sane(Trio, events, false)
    ensures s.nodes == map[1 := L6, 2 := M1, 3 := Follow(3, 2, Some(2), [N1, N2], 0, 1)]
    ensures Envelope(3, 2, AppendResponse(2, true, 2, 0, 0)) in s.h.sent
  {
    hide Sane, Scene;
    events, s := SecondLeader();
    var f := Follow(3, 2, Some(2), [N1], 0, 0);
    assert s.nodes[3] == f;
    assert Merge([N1], 1, [N2]) == [N1, N2] && f.machine + [N1, N2][0..1] == [N1, N2][..1];
    events, s := Accepts(events, s, Envelope(2, 3, AppendEntries(2, 1, 1, [N2], 1)));
  }

  const M2 := Lead(2, 2, [N1, N2], 1, Of(2, 3, 3), Of(0, 2, 2), 2)

  lemma ThirdAck()
    ensures QuorumIndex(NoteAck(M1, 3, 2), Trio) == 2 && Applied(Advanced(NoteAck(M1, 3, 2), 2)) == M2
  {
    hide QuorumIndex;
    var acked := Lead(2, 2, [N1, N2], 1, Of(2, 3, 3), Of(0, 2, 2), 1);
    assert NoteAck(M1, 3, 2) == acked;
    Median(acked, 2, 3, 1, 2);
    assert acked.machine + acked.log[1..2] == acked.log[..2];
  }

  /** A snapshot that discards an acknowledged entry loses it after it has been
      committed: two replicas apply different entries at one index, and the leader of
      a later term lacks what the leader of an earlier one has committed. */
  lemma SnapshotLosesCommitted() returns (events: seq<Event>)
    ensures Sane(Trio, events, false)
    ensures var s := Run(Trio, events);
            && 1 in s.nodes && 2 in s.nodes
            && !(s.nodes[1].machine <= s.nodes[2].machine) && !(s.nodes[2].machine <= s.nodes[1].machine)
            && s.nodes[2].role == Leader && s.nodes[2].term > s.nodes[1].term
            && s.nodes[1].commit <= |s.nodes[1].log| && !(s.nodes[1].log[..s.nodes[1].commit] <= s.nodes[2].log)
    ensures !Sane(Trio, events, true)
  {
    hide Sane, Run, QuorumIndex, NoteAck, Applied, Advanced;
    var s;
    events, s := OtherReplicated();
    assert s.nodes[2] == M1;
    ThirdAck();
    events, s := Counts(events, s, Envelope(3, 2, AppendResponse(2, true, 2, 0, 0)), 2, 2);
    assert s.nodes[1] == L6 && s.nodes[2] == M2;
    assert L6.machine[1] != M2.machine[1] && L6.log[..2][1] != M2.log[1];
    assert events[..|events|] == events;
    if Sane(Trio, events, true) { LeadersComplete(Trio, events, |events|, 1, 2); }
  }

  // -------------------------------------------------- an answer that claims too much

  const P1 := Lead(1, 1, [N1], 0, Of(2, 2, 1), Of(1, 1, 0), 1)

  lemma FirstAckOfSecond()
    ensures var l := Lead(1, 1, [N1], 0, Of(2, 1, 1), Of(1, 0, 0), 0);
            QuorumIndex(NoteAck(l, 2, 1), Trio) == 1 && Applied(Advanced(NoteAck(l, 2, 1), 1)) == P1
    ensures AfterSend(P1, Trio - {1}) == P1 && AppendTo(P1, 2, 256) == {Envelope(1, 2, AppendEntries(1, 1, 1, [], 1))}
  {
    hide QuorumIndex;
    var acked := Lead(1, 1, [N1], 0, Of(2, 2, 1), Of(1, 1, 0), 0);
    assert NoteAck(Lead(1, 1, [N1], 0, Of(2, 1, 1), Of(1, 0, 0), 0), 2, 1) == acked;
    Median(acked, 1, 2, 3, 1);
    assert acked.machine + acked.log[0..1] == acked.log[..1];
    AppendIs(P1, 2, 1, []);
  }

  /** Replica 2 acknowledges the first entry and hears that it is committed. */
  lemma BothKnow() returns (events: seq<Event>, s: System)
    ensures Scene(events, s) && Sane(Trio, events, false)
    ensures s.nodes == map[1 := P1, 2 := Follow(2, 1, None, [N1], 0, 0), 3 := Follow(3, 1, Some(1), [], 0, 0)]
    ensures Envelope(1, 2, AppendEntries(1, 1, 1, [], 1)) in s.h.sent
  {
    hide Sane, Scene, QuorumIndex, NoteAck, AfterSend, AppendTo, Advanced;
    events, s := Beginning();
    assert s.nodes[2] == Fresh(2);
    events, s := Accepts(events, s, Envelope(1, 2, AppendEntries(1, 0, 0, [N1], 0)));
    assert s.nodes[1] == L1 && s.nodes[2] == Follow(2, 1, None, [N1], 0, 0);
    FirstAckOfSecond();
    events, s := Counts(events, s, Envelope(2, 1, AppendResponse(1, true, 1, 0, 0)), 1, 1);
    assert s.nodes[1] == P1;
    events, s := Beats(events, s, 1);
  }

  /** Replica 2 compacts it. */
  lemma SecondCompacts() returns (events: seq<Event>, s: System)
    ensures Scene(events, s) && Sane(Trio, events, false)
    ensures s.nodes == map[1 := P1, 2 := F1, 3 := Follow(3, 1, Some(1), [], 0, 0)]
  {
    hide Sane, Scene;
    events, s := BothKnow();
    assert s.nodes[2] == Follow(2, 1, None, [N1], 0, 0);
    events, s := Accepts(events, s, Envelope(1, 2, AppendEntries(1, 1, 1, [], 1)));
    assert s.nodes[2] == Follow(2, 1, None, [N1], 0, 1);
    events, s := Compacts(events, s, 2);
  }

  const P2 := Lead(1, 1, [N1, B], 0, Of(3, 2, 1), Of(2, 1, 0), 1)
  const P3 := Lead(1, 1, [N1, B, C], 0, Of(4, 2, 1), Of(3, 1, 0), 1)

  lemma OwnEntries()
    ensures AppendOwn(P1, Command([7])) == P2 && QuorumIndex(P2, Trio) == 1
    ensures AppendOwn(P2, Command([8])) == P3 && QuorumIndex(P3, Trio) == 1
  {
    hide QuorumIndex;
    assert P1.machine == P2.machine == P3.machine;
    Median(P2, 1, 2, 3, 1);
    Median(P3, 1, 2, 3, 1);
  }

  /** Replica 1 goes on alone. */
  lemma FirstGoesOn() returns (events: seq<Event>, s: System)
    ensures Scene(events, s) && Sane(Trio, events, false)
    ensures s.nodes == map[1 := P3, 2 := F1, 3 := Follow(3, 1, Some(1), [], 0, 0)]
  {
    hide Sane, Scene, QuorumIndex, AppendOwn, AppendTo;
    events, s := FirstProposes();
    assert s.nodes[1] == P2;
    OwnEntries();
    events, s := Proposes(events, s, 1, [8], 1);
  }

  lemma FirstProposes() returns (events: seq<Event>, s: System)
    ensures Scene(events, s) && Sane(Trio, events, false)
    ensures s.nodes == map[1 := P2, 2 := F1, 3 := Follow(3, 1, Some(1), [], 0, 0)]
  {
    hide Sane, Scene, QuorumIndex, AppendOwn, AppendTo;
    events, s := SecondCompacts();
    assert s.nodes[1] == P1;
    OwnEntries();
    events, s := Proposes(events, s, 1, [7], 1);
  }

  /** Replica 2 leads term 2. */
  lemma SecondTakesOver() returns (events: seq<Event>, s: System)
    ensures Scene(events, s) && Sane(Trio, events, false)
    ensures s.nodes == map[1 := P3, 2 := M1, 3 := Follow(3, 2, Some(2), [], 0, 0)]
  {
    hide Sane, Scene, TakeOffice, AppendTo;
    events, s := FirstGoesOn();
    assert s.nodes[2] == F1 && s.nodes[3] == Follow(3, 1, Some(1), [], 0, 0);
    events, s := Rises(events, s, 2, 3);
    assert s.nodes[2] == Candidacy(F1, 2) && s.nodes[3] == Follow(3, 1, Some(1), [], 0, 0);
    events, s := Votes(events, s, Envelope(2, 3, VoteRequest(2, 1, 1)));
    assert s.nodes[2] == Candidacy(F1, 2);
    SecondOffice();
    events, s := Elected(events, s, Envelope(3, 2, VoteResponse(2, true)));
  }

  const F2 := Follow(2, 2, Some(2), [N1, N2], 1, 1)
  const Q1 := Lead(2, 3, [N1, N2, N3], 1, Of(3, 4, 3), Of(0, 3, 0), 1)

  lemma ThirdOffice()
    ensures TakeOffice(Candidacy(F2, 3), Trio) == Q1
    ensures AppendTo(Q1, 1, 256) == {Envelope(2, 1, AppendEntries(3, 2, 2, [N3], 1))}
  {
    hide TakeOffice, AppendTo;
    OfficeOf(Candidacy(F2, 3));
    assert F2.log + [N3] == [N1, N2, N3] && F2.machine == Q1.machine;
    AppendIs(Q1, 1, 2, [N3]);
  }

  /** It loses touch with a quorum, and then leads term 3. */
  lemma SecondLeadsAgain() returns (events: seq<Event>, s: System)
    ensures Scene(events, s) && Sane(Trio, events, false)
    ensures s.nodes == map[1 := P3, 2 := Q1, 3 := Follow(3, 3, Some(2), [], 0, 0)]
    ensures Envelope(2, 1, AppendEntries(3, 2, 2, [N3], 1)) in s.h.sent
  {
    hide Sane, Scene, TakeOffice, AppendTo;
    events, s := SecondTakesOver();
    assert s.nodes[2] == M1;
    events, s := StepsDown(events, s, 2);
    assert s.nodes[2] == F2 && s.nodes[3] == Follow(3, 2, Some(2), [], 0, 0);
    events, s := Rises(events, s, 2, 3);
    assert s.nodes[2] == Candidacy(F2, 3) && s.nodes[3] == Follow(3, 2, Some(2), [], 0, 0);
    events, s := Votes(events, s, Envelope(2, 3, VoteRequest(3, 2, 2)));
    assert s.nodes[2] == Candidacy(F2, 3);
    ThirdOffice();
    events, s := Elected(events, s, Envelope(3, 2, VoteResponse(3, true)));
  }

  const G1 := Follow(1, 3, None, [N1, B, C], 0, 1)
  const Q2 := Lead(2, 3, [N1, N2, N3], 1, Of(2, 4, 3), Of(0, 3, 0), 1)

  lemma OutOfReachAgain()
    ensures var l := NoteReject(Q1, 1, 1, 1);
            AppendTo(l, 1, 256) == {Envelope(2, 1, InstallSnapshot(3, [N1], [N1]))} && AfterSend(l, {1}) == Q2
  {
    assert LastOfTerm(Q1.log, 1, 3, 1) == LastOfTerm(Q1.log, 1, 2, 1) == LastOfTerm(Q1.log, 1, 1, 1) == None;
    assert NoteReject(Q1, 1, 1, 1) == Lead(2, 3, [N1, N2, N3], 1, Of(1, 4, 3), Of(0, 3, 0), 1);
    assert Q1.log[..1] == [N1];
  }

  lemma Refusal()
    ensures RejectAppend(G1, 2) == AppendResponse(3, false, 0, 1, 1) && !Fits(P3, 2, 2) && Meeting(P3, 3) == G1
  {
    assert RunStart(G1.log, 0, 2, 1) == RunStart(G1.log, 0, 1, 1) == 1;
    assert P3.log[..0] == [];
  }

  /** Replica 1 rejects the append; its hint leads replica 2 to an entry it has
      compacted, so that it sends the snapshot. */
  lemma SnapshotSentAgain() returns (events: seq<Event>, s: System)
    ensures Scene(events, s) && Sane(Trio, events, false)
    ensures s.nodes == map[1 := G1, 2 := Q2, 3 := Follow(3, 3, Some(2), [], 0, 0)]
    ensures Envelope(2, 1, InstallSnapshot(3, [N1], [N1])) in s.h.sent
  {
    hide Sane, Scene, NoteReject, AppendTo, AfterSend, RejectAppend, Fits, Meeting;
    events, s := SecondLeadsAgain();
    assert s.nodes[1] == P3;
    Refusal();
    events, s := Rejects(events, s, Envelope(2, 1, AppendEntries(3, 2, 2, [N3], 1)));
    assert s.nodes[2] == Q1;
    OutOfReachAgain();
    events, s := LearnsOfRejection(events, s, Envelope(1, 2, AppendResponse(3, false, 0, 1, 1)));
  }

  const Q3 := Lead(2, 3, [N1, N2, N3], 1, Of(4, 4, 3), Of(3, 3, 0), 3)

  lemma FalseAck()
    ensures QuorumIndex(NoteAck(Q2, 1, 3), Trio) == 3 && Applied(Advanced(NoteAck(Q2, 1, 3), 3)) == Q3
  {
    hide QuorumIndex;
    var acked := Lead(2, 3, [N1, N2, N3], 1, Of(4, 4, 3), Of(3, 3, 0), 1);
    assert NoteAck(Q2, 1, 3) == acked;
    Median(acked, 2, 1, 3, 3);
    assert acked.machine + acked.log[1..3] == acked.log[..3];
  }

  /** Replica 1 declines it and names the length of its own, different log; on that
      word replica 2 commits what only it has. */
  lemma FalselyCommitted() returns (events: seq<Event>, s: System)
    ensures Scene(events, s) && Sane(Trio, events, false)
    ensures s.nodes == map[1 := G1, 2 := Q3, 3 := Follow(3, 3, Some(2), [], 0, 0)]
  {
    hide Sane, Scene, QuorumIndex, NoteAck, Applied, Advanced;
    events, s := SnapshotSentAgain();
    assert s.nodes[1] == G1 && Meeting(G1, 3) == G1;
    events, s := Installs(events, s, Envelope(2, 1, InstallSnapshot(3, [N1], [N1])));
    assert s.nodes[2] == Q2;
    FalseAck();
    events, s := Counts(events, s, Envelope(1, 2, InstallResponse(3, 3)), 3, 3);
  }

  const G2 := TakeOffice(Candidacy(G1, 4), Trio)

  lemma FirstLeadsAgain() returns (events: seq<Event>, s: System)
    ensures Scene(events, s) && Sane(Trio, events, false)
    ensures s.nodes == map[1 := G2, 2 := Q3, 3 := Follow(3, 4, Some(1), [], 0, 0)]
  {
    hide Sane, Scene, TakeOffice;
    events, s := FalselyCommitted();
    assert s.nodes[1] == G1 && s.nodes[3] == Follow(3, 3, Some(2), [], 0, 0);
    events, s := Rises(events, s, 1, 3);
    assert s.nodes[1] == Candidacy(G1, 4) && s.nodes[3] == Follow(3, 3, Some(2), [], 0, 0);
    events, s := Votes(events, s, Envelope(1, 3, VoteRequest(4, 3, 1)));
    assert s.nodes[1] == Candidacy(G1, 4);
    Office(Candidacy(G1, 4));
    events, s := Elected(events, s, Envelope(3, 1, VoteResponse(4, true)));
  }

  /** A replica that declines a snapshot with a log that differs from the leader's has
      the leader commit what no quorum holds: the leader of a later term lacks it. */
  lemma AnswerLosesCommitted() returns (events: seq<Event>)
    ensures Sane(Trio, events, false)
    ensures var s := Run(Trio, events);
            && 1 in s.nodes && 2 in s.nodes
            && s.nodes[1].role == Leader && s.nodes[1].term > s.nodes[2].term
            && s.nodes[2].commit <= |s.nodes[2].log| && !(s.nodes[2].log[..s.nodes[2].commit] <= s.nodes[1].log)
    ensures !Sane(Trio, events, true)
  {
    hide Sane, Run, TakeOffice;
    var s;
    events, s := FirstLeadsAgain();
    Office(Candidacy(G1, 4));
    assert s.nodes[1] == G2 && s.nodes[2] == Q3;
    assert Q3.log[..3][1] == N2 != B == G1.log[1] == G2.log[1];
    assert events[..|events|] == events;
    if Sane(Trio, events, true) { LeadersComplete(Trio, events, |events|, 2, 1); }
  }
}
