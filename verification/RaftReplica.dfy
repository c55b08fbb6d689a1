/** The replica that works in place, step by step, on its own log and tables. */
module RaftReplica {
  import opened Wrappers
  import opened Collections
  import opened RaftNode
  import R = RaftSystem

  lemma AfterOneMore(n: Node, done: set<Peer>, p: Peer)
    requires p !in done
    ensures AfterSend(AfterSend(n, done), {p}) == AfterSend(n, done + {p})
  {
    assert AfterSend(AfterSend(n, done), {p}).next == AfterSend(n, done + {p}).next;
  }

  lemma AppendsOneMore(n: Node, done: set<Peer>, p: Peer, max: nat)
    requires p !in done
    ensures AppendsFor(n, done + {p}, max) == AppendsFor(n, done, max) + AppendsFor(AfterSend(n, done), {p}, max)
  {
    assert AppendTo(AfterSend(n, done), p, max) == AppendTo(n, p, max);
    hide AppendTo, AfterSend;
  }

  /** Sending to one more follower. */
  lemma SendOneMore(s: R.System, n: Node, done: set<Peer>, p: Peer, max: nat)
    requires p !in done
    ensures AfterSend(AfterSend(n, done), {p}) == AfterSend(n, done + {p}) && AfterSend(n, done).id == n.id
    ensures R.SendAppends(R.SendAppends(s, n, done, max), AfterSend(n, done), {p}, max)
            == R.SendAppends(s, n, done + {p}, max)
  {
    hide AppendsFor, OutOfReach;
    AfterOneMore(n, done, p);
    AppendsOneMore(n, done, p, max);
  }

  lemma SendToNobody(s: R.System, n: Node, max: nat)
    requires n.id in s.nodes && s.nodes[n.id] == n
    ensures R.SendAppends(s, n, {}, max) == s && AfterSend(n, {}) == n
  {
    assert AppendsFor(n, {}, max) == {};
    assert AfterSend(n, {}).next == n.next;
    assert s.nodes[n.id := n] == s.nodes;
  }

  /** Nothing sent is unsent, and the cluster stays. */
  ghost predicate Grows(s: R.System, t: R.System) {
    t.h.cluster == s.h.cluster && s.h.sent <= t.h.sent
  }

  lemma HandleGrows(s: R.System, n: Node, from: Peer, m: Message, leaderGone: bool, c: Config)
    ensures Grows(s, R.Handle(s, n, from, m, leaderGone, c))
  {
    hide Settled, TakeOffice, AppendsFor, AfterSend, UpToDate, AcceptAppend, RejectAppend, NoteReject, NoteAck,
         LastTerm;
  }

  lemma StepGrows(s: R.System, e: R.Event)
    ensures Grows(s, R.Step(s, e))
  {
    hide R.Handle, Settled, TakeOffice, AppendsFor, AfterSend, AppendOwn, LastTerm;
    if e.Deliver? && e.envelope.to in s.nodes {
      var n, m := s.nodes[e.envelope.to], e.envelope.message;
      HandleGrows(s, n, e.envelope.from, m, e.leaderGone, e.config);
      HandleGrows(R.With(s, BecomeFollower(n, m.term)), BecomeFollower(n, m.term), e.envelope.from, m, e.leaderGone,
                  e.config);
    }
  }

  // ------------------------------------------------------------- counting holders

  /** `values` are what the peers `who` hold, highest first. */
  ghost predicate Ranked(n: Node, peers: set<Peer>, who: seq<Peer>, values: seq<nat>) {
    && |who| == |values| == |peers|
    && (forall i | 0 <= i < |who| :: who[i] in peers && values[i] == HeldBy(n, who[i]))
    && (forall i, j | 0 <= i < j < |who| :: who[i] != who[j])
    && (forall i, j | 0 <= i < j < |values| :: values[i] >= values[j])
  }

  /** The value a quorum down the ranking is the highest a quorum holds. */
  lemma RankedQuorum(n: Node, cluster: set<Peer>, who: seq<Peer>, values: seq<nat>)
    requires Ranked(n, cluster, who, values) && cluster != {}
    ensures Quorum(cluster) <= |values| && IsQuorumIndex(n, cluster, values[Quorum(cluster) - 1])
  {
    hide Ranked, Holders;
    RankedLength(n, cluster, who, values);
    RankedWithin(n, cluster, who, values);
    forall higher: nat | higher > values[Quorum(cluster) - 1] ensures |Holders(n, cluster, higher)| < Quorum(cluster) {
      RankedAbove(n, cluster, who, values, higher);
    }
  }

  lemma NobodyRanked(n: Node, nobody: set<Peer>)
    requires nobody == {}
    ensures Ranked(n, nobody, [], [])
  {}

  lemma RankedSame(n: Node, peers: set<Peer>, who: seq<Peer>, values: seq<nat>)
    requires Ranked(n, peers, who, values)
    ensures |who| == |values|
  {}

  lemma RankedLength(n: Node, cluster: set<Peer>, who: seq<Peer>, values: seq<nat>)
    requires Ranked(n, cluster, who, values) && cluster != {}
    ensures 0 < Quorum(cluster) <= |values| == |who|
  {}

  lemma RankedWithin(n: Node, cluster: set<Peer>, who: seq<Peer>, values: seq<nat>)
    requires Ranked(n, cluster, who, values) && 0 < Quorum(cluster) <= |values|
    ensures |Holders(n, cluster, values[Quorum(cluster) - 1])| >= Quorum(cluster)
  {
    var q := Quorum(cluster);
    var index, first := values[q - 1], who[..q];
    DistinctSize(first);
    forall p | p in Elements(first) ensures p in Holders(n, cluster, index) {
      var i :| 0 <= i < q && first[i] == p;
      assert values[i] >= index && values[i] == HeldBy(n, who[i]);
    }
    SubsetSize(Elements(first), Holders(n, cluster, index));
  }

  lemma RankedAll(n: Node, cluster: set<Peer>, who: seq<Peer>, values: seq<nat>, p: Peer) returns (i: nat)
    requires Ranked(n, cluster, who, values) && p in cluster
    ensures i < |who| && who[i] == p && values[i] == HeldBy(n, p)
  {
    DistinctSize(who);
    SubsetSize(Elements(who), cluster);
    assert p in Elements(who);
    i :| 0 <= i < |who| && who[i] == p;
  }

  lemma RankedAbove(n: Node, cluster: set<Peer>, who: seq<Peer>, values: seq<nat>, higher: nat)
    requires Ranked(n, cluster, who, values) && 0 < Quorum(cluster) <= |values| && higher > values[Quorum(cluster) - 1]
    ensures |Holders(n, cluster, higher)| < Quorum(cluster)
  {
    var before := who[..Quorum(cluster) - 1];
    DistinctSize(before);
    forall p | p in Holders(n, cluster, higher) ensures p in Elements(before) {
      var i := RankedAll(n, cluster, who, values, p);
      assert i < Quorum(cluster) - 1;
      assert before[i] == p;
    }
    SubsetSize(Holders(n, cluster, higher), Elements(before));
  }

  function Inserted(s: seq<nat>, at: nat, x: nat): seq<nat>
    requires at <= |s|
  {
    s[..at] + [x] + s[at..]
  }

  lemma InsertedAt(s: seq<nat>, at: nat, x: nat)
    requires at <= |s|
    ensures |Inserted(s, at, x)| == |s| + 1
    ensures forall i {:trigger Inserted(s, at, x)[i]} | 0 <= i <= |s| ::
            Inserted(s, at, x)[i] == if i < at then s[i] else if i == at then x else s[i - 1]
  {}

  lemma InsertRanked(n: Node, peers: set<Peer>, who: seq<Peer>, values: seq<nat>, p: Peer, at: nat)
    requires Ranked(n, peers, who, values) && p !in peers && at <= |values|
    requires forall i | 0 <= i < at :: values[i] >= HeldBy(n, p)
    requires at < |values| ==> values[at] < HeldBy(n, p)
    ensures Ranked(n, peers + {p}, Inserted(who, at, p), Inserted(values, at, HeldBy(n, p)))
  {
    hide Inserted, HeldBy;
    InsertedAt(who, at, p);
    InsertedAt(values, at, HeldBy(n, p));
    var more, ranks := Inserted(who, at, p), Inserted(values, at, HeldBy(n, p));
    assert forall i | 0 <= i < |more| :: more[i] == if i < at then who[i] else if i == at then p else who[i - 1];
    assert forall i | 0 <= i < |ranks| ::
        ranks[i] == if i < at then values[i] else if i == at then HeldBy(n, p) else values[i - 1];
    forall i, j | 0 <= i < j < |more| ensures more[i] != more[j] && ranks[i] >= ranks[j] {
      assert j > at ==> who[j - 1] in peers && values[j - 1] <= values[at];
    }
    assert |peers + {p}| == |peers| + 1;
  }

  // ------------------------------------------------------------------ the replica

  class Replica {
    const id: Peer
    const cluster: set<Peer>
    const config: Config
    var term: Term
    var votedFor: Option<Peer>
    var log: Log
    var base: nat
    var saved: Log
    var role: Role
    var votes: map<Peer, bool>
    var next: map<Peer, nat>
    var matched: map<Peer, nat>
    var commit: nat
    var machine: Log
    var outbox: seq<Envelope>
    ghost var world: R.System
    ghost var drained: set<Envelope>

    ghost function Now(): Node
      reads this
    {
      Node(id, term, votedFor, log, base, saved, role, votes, next, matched, commit, machine)
    }

    /** The replica is its own part of the world, and what it sent since it was last
        drained is in its outbox. */
    ghost predicate Valid()
      reads this
    {
      && id in world.nodes && world.nodes[id] == Now()
      && world.h.cluster == cluster && id in cluster
      && world.h.sent == drained + Elements(outbox)
    }

    constructor (id: Peer, cluster: set<Peer>, config: Config)
      requires id in cluster
      ensures Valid() && this.id == id && this.cluster == cluster && this.config == config && world == R.Start(cluster)
    {
      this.id, this.cluster, this.config := id, cluster, config;
      term, votedFor, log, base, saved, role, votes := 0, None, [], 0, [], Follower, map[];
      next, matched, commit, machine, outbox := map[], map[], 0, [], [];
      world, drained := R.Start(cluster), {};
    }

    /** Something happens elsewhere in the cluster. */
    ghost method Elsewhere(e: R.Event)
      requires Valid() && id in R.Step(world, e).nodes && R.Step(world, e).nodes[id] == Now()
      modifies this`world, this`drained
      ensures Valid() && world == R.Step(old(world), e)
    {
      StepGrows(world, e);
      world := R.Step(world, e);
      drained := world.h.sent;
    }

    method TakeMessages() returns (messages: seq<Envelope>)
      requires Valid()
      modifies this
      ensures Valid() && messages == old(outbox) && outbox == [] && world == old(world) && Now() == old(Now())
    {
      messages := outbox;
      outbox := [];
      drained := world.h.sent;
    }

    method Push(to: Peer, m: Message)
      requires Valid()
      modifies this
      ensures Valid() && Now() == old(Now()) && world == R.Reply(old(world), Now(), to, m)
    {
      ElementsSnoc(outbox, Envelope(id, to, m));
      outbox := outbox + [Envelope(id, to, m)];
      world := R.Reply(world, Now(), to, m);
    }

    method AskOthers(m: Message)
      requires Valid()
      modifies this
      ensures Valid() && Now() == old(Now()) && world == R.Send(old(world), AskAll(Now(), cluster, m))
    {
      var rest := cluster - {id};
      ghost var n := Now();
      assert world == R.Send(world, {});
      while rest != {}
        invariant Valid() && Now() == n && rest <= cluster - {id}
        invariant world == R.Send(old(world), set p | p in cluster - {id} - rest :: Envelope(n.id, p, m))
        decreases rest
      {
        var p :| p in rest;
        rest := rest - {p};
        ghost var before := world;
        Push(p, m);
        assert (set q | q in cluster - {id} - rest :: Envelope(n.id, q, m))
            == (set q | q in cluster - {id} - (rest + {p}) :: Envelope(n.id, q, m)) + {Envelope(n.id, p, m)};
      }
      assert cluster - {id} - {} == cluster - {id};
      assert AskAll(n, cluster, m) == set p | p in cluster - {id} :: Envelope(n.id, p, m);
    }

    /** The entries a voter needs are out of reach: send the snapshot, if there is
        one, and go on from where it ends. */
    method SendSnapshot(p: Peer)
      requires Valid() && p in next && OutOfReach(Now(), next[p])
      modifies this
      ensures Valid() && Now() == AfterSend(old(Now()), {p})
      ensures world == R.SendAppends(old(world), old(Now()), {p}, config.max)
    {
      ghost var n := Now();
      SingleAppend(n, p, config.max);
      assert AfterSend(n, {p}).next == next[p := base + 1];
      next := next[p := base + 1];
      world := R.With(world, Now());
      if base > 0 { Push(p, InstallSnapshot(term, log[..Min(base, |log|)], saved)); }
    }

    /** Send one voter the entries after its next index, or the snapshot. */
    method SendAppend(p: Peer)
      requires Valid()
      modifies this
      ensures Valid() && Now() == AfterSend(old(Now()), {p})
      ensures world == R.SendAppends(old(world), old(Now()), {p}, config.max)
    {
      if p in next && (next[p] <= base || next[p] > |log| + 1) {
        SendSnapshot(p);
      } else {
        SendEntries(p);
      }
    }

    method SendEntries(p: Peer)
      requires Valid() && !(p in next && OutOfReach(Now(), next[p]))
      modifies this
      ensures Valid() && Now() == AfterSend(old(Now()), {p})
      ensures world == R.SendAppends(old(world), old(Now()), {p}, config.max)
    {
      ghost var n := Now();
      SingleAppend(n, p, config.max);
      assert AfterSend(n, {p}).next == next && world.nodes[id := n] == world.nodes;
      if p !in next { return; }
      var prev := next[p] - 1;
      var count := Min(|log| - prev, config.max);
      var prevTerm := if prev == 0 then 0 else log[prev - 1].term;
      Push(p, AppendEntries(term, prev, prevTerm, log[prev..prev + count], commit));
    }

    method BroadcastAppend()
      requires Valid()
      modifies this
      ensures Valid() && Now() == AfterSend(old(Now()), cluster - {id})
      ensures world == R.Broadcast(old(world), old(Now()), config.max)
    {
      hide AfterSend, AppendsFor, R.SendAppends;
      var rest := cluster - {id};
      ghost var n := Now();
      SendToNobody(world, n, config.max);
      assert cluster - {id} - rest == {};
      while rest != {}
        invariant Valid() && rest <= cluster - {id}
        invariant Now() == AfterSend(n, cluster - {id} - rest)
        invariant world == R.SendAppends(old(world), n, cluster - {id} - rest, config.max)
        decreases rest
      {
        var p :| p in rest;
        ghost var done := cluster - {id} - rest;
        SendOneMore(old(world), n, done, p, config.max);
        SendAppend(p);
        rest := rest - {p};
        assert cluster - {id} - rest == done + {p};
      }
      assert cluster - {id} - {} == cluster - {id};
    }

    method StepDown(t: Term)
      requires Valid()
      modifies this
      ensures Valid() && Now() == BecomeFollower(old(Now()), t) && world == R.With(old(world), Now())
    {
      if t != term { term, votedFor := t, None; }
      role, votes, next, matched := Follower, map[], map[], map[];
      world := R.With(world, Now());
    }

    /** Hand every newly committed entry to the state machine, in order. */
    method ApplyEntries()
      modifies this`machine
      ensures Now() == Applied(old(Now()))
    {
      ghost var end := Min(commit, |log|);
      while |machine| < commit && |machine| < |log|
        invariant old(|machine|) <= |machine| && (|machine| <= end || machine == old(machine))
        invariant |machine| <= end ==> machine == old(machine) + log[old(|machine|)..|machine|]
        decreases |log| - |machine|
      {
        machine := machine + [log[|machine|]];
      }
    }

    /** Capture the state machine and compact the log up to what it has applied. */
    method SaveSnapshot()
      modifies this`base, this`saved
      ensures Now() == Compacted(old(Now()))
    {
      if |machine| == 0 || |machine| < base || |machine| > |log| { return; }
      base, saved := |machine|, machine;
    }

    /** On a caller's own schedule. */
    method TakeSnapshot()
      requires Valid()
      modifies this`base, this`saved, this`world
      ensures Valid() && world == R.Step(old(world), R.Compact(id))
    {
      SaveSnapshot();
      world := R.With(world, Now());
    }

    /** Apply what is committed, and compact once enough has been. */
    method ApplyCommitted()
      modifies this`machine, this`base, this`saved
      ensures Now() == Apply(old(Now()), config.threshold)
    {
      ApplyEntries();
      if config.threshold > 0 && |machine| >= base + 1 + config.threshold { SaveSnapshot(); }
    }

    /** What every voter is known to hold, sorted; a quorum down is the answer. */
    method QuorumValue() returns (index: nat)
      requires cluster != {}
      ensures IsQuorumIndex(Now(), cluster, index)
    {
      hide Ranked, Holders, IsQuorumIndex;
      ghost var n := Now();
      var values: seq<nat> := [];
      ghost var who: seq<Peer> := [];
      var rest := cluster;
      assert Ranked(n, cluster - rest, who, values) by { NobodyRanked(n, cluster - rest); }
      while rest != {}
        invariant rest <= cluster && Ranked(n, cluster - rest, who, values)
        decreases rest
      {
        var p :| p in rest;
        var value := if p == id then |log| else if p in matched then matched[p] else 0;
        var at := 0;
        RankedSame(n, cluster - rest, who, values);
        while at < |values| && values[at] >= value
          invariant 0 <= at <= |values| && forall i | 0 <= i < at :: values[i] >= value
        {
          at := at + 1;
        }
        InsertRanked(n, cluster - rest, who, values, p, at);
        values, who := Inserted(values, at, value), Inserted(who, at, p);
        assert cluster - (rest - {p}) == (cluster - rest) + {p};
        rest := rest - {p};
      }
      assert cluster - {} == cluster;
      RankedLength(n, cluster, who, values);
      RankedQuorum(n, cluster, who, values);
      index := values[|cluster| / 2 + 1 - 1];
    }

    /** Commit the highest entry a quorum holds, if it is of this leader's term. */
    method MaybeAdvanceCommit()
      requires cluster != {}
      modifies this`commit
      ensures Now() == Advanced(old(Now()), QuorumIndex(old(Now()), cluster))
    {
      hide QuorumIndex, IsQuorumIndex;
      ghost var n := Now();
      if role != Leader { return; }
      var candidate := QuorumValue();
      QuorumIndexUnique(n, cluster, candidate, QuorumIndex(n, cluster));
      if candidate <= commit { return; }
      if candidate < base || candidate > |log| || log[candidate - 1].term != term { return; }
      commit := candidate;
    }

    method Settle()
      requires Valid()
      modifies this`commit, this`machine, this`base, this`saved, this`world
      ensures Valid() && world == R.CommitQuorum(old(world), old(Now()), config.threshold)
      ensures Now() == Settled(old(Now()), cluster, config.threshold)
    {
      hide QuorumIndex, Apply, Advanced;
      MaybeAdvanceCommit();
      ghost var n := Now();
      ApplyCommitted();
      ApplyFrame(n, config.threshold);
      world := R.With(world, Now());
    }

    /** The log has grown: send it round, see what is committed. */
    method Announce()
      requires Valid()
      modifies this
      ensures Valid() && world == R.Announce(old(world), old(Now()), config)
    {
      hide AfterSend, R.SendAppends, Settled;
      BroadcastAppend();
      Settle();
    }

    method AppendLocal(payload: Payload)
      requires Valid() && role == Leader
      modifies this
      ensures Valid()
      ensures world == R.Announce(R.Extend(old(world), old(Now()), payload), AppendOwn(old(Now()), payload), config)
    {
      hide R.Announce, AppendOwn;
      ghost var n := Now();
      AppendToLog(payload);
      world := R.Extend(world, n, payload);
      AppendedId(n, payload);
      Announce();
    }

    method AppendToLog(payload: Payload)
      modifies this`log, this`matched, this`next
      ensures Now() == AppendOwn(old(Now()), payload)
    {
      log := log + [Entry(term, payload)];
      if id in matched { matched := matched[id := |log|]; }
      if id in next { next := next[id := |log| + 1]; }
    }

    method TakeSeat()
      requires id in cluster
      modifies this`role, this`votes, this`next, this`matched, this`log
      ensures Now() == TakeOffice(old(Now()), cluster)
    {
      hide TakeOffice;
      var size := |log| + 1;
      var ahead := map p | p in cluster :: size;
      var none := map p | p in cluster :: if p == id then |log| else 0;
      OfficeIs(Now(), cluster, ahead, none);
      role, votes, next, matched := Leader, map[], ahead[id := size + 1], none[id := size];
      log := log + [Entry(term, Noop)];
    }

    method BecomeLeader()
      requires Valid()
      modifies this
      ensures Valid() && world == R.TakeOver(old(world), old(Now()), config)
    {
      hide TakeOffice, Granted;
      ghost var n := Now();
      TakeSeat();
      world := R.Elect(world, n);
      hide R.Elect, R.Announce;
      Announce();
    }

    method RegisterSelf()
      requires Valid()
      modifies this
      ensures Valid() && Now() == StartCampaign(old(Now())) && world == R.Register(old(world), old(Now()))
    {
      hide StartCampaign;
      ghost var n := Now();
      StandForNext();
      world := R.Register(world, n);
    }

    method StandForNext()
      modifies this`term, this`votedFor, this`role, this`votes
      ensures Now() == StartCampaign(old(Now())) && StartCampaign(old(Now())).id == id
    {
      term := if term < TermMax then term + 1 else term;
      votedFor, role, votes := Some(id), Candidate, map[id := true];
    }

    method Campaign()
      requires Valid()
      modifies this
      ensures Valid() && world == R.Campaign(old(world), old(Now()), config)
    {
      hide R.TakeOver, R.Register, AskAll, LastTerm, StartCampaign;
      RegisterSelf();
      ghost var c := Now();
      if |cluster| / 2 + 1 <= 1 {
        AloneAsksNobody(c, cluster, VoteRequest(c.term, |c.log|, LastTerm(c.log)));
        assert world == R.Stand(old(world), old(Now()));
        BecomeLeader();
        return;
      }
      AskOthers(VoteRequest(term, |log|, LastTerm(log)));
    }

    method CampaignPreVote()
      requires Valid() && role != Leader
      modifies this
      ensures Valid() && world == R.Step(old(world), R.Timeout(id, true, config))
    {
      hide R.Campaign, AskAll, LastTerm;
      role, votes := PreCandidate, map[id := true];
      world := R.With(world, Now());
      if |cluster| / 2 + 1 <= 1 {
        Campaign();
        return;
      }
      var lastTerm := LastTerm(log);
      AskOthers(PreVoteRequest(if term < TermMax then term + 1 else term, |log|, lastTerm));
    }

    method HandleVoteRequest(from: Peer, m: Message)
      requires Valid() && m.VoteRequest?
      modifies this
      ensures Valid() && world == R.HandleVoteRequest(old(world), old(Now()), from, m)
    {
      var lastTerm := if log == [] then 0 else log[|log| - 1].term;
      var upToDate := if m.lastTerm != lastTerm then m.lastTerm > lastTerm else m.lastIndex >= |log|;
      var granted := (votedFor.None? || votedFor == Some(from)) && upToDate;
      if granted {
        ghost var n := Now();
        votedFor := Some(from);
        world := R.With(world, Now()).(h := world.h.(
          ballots := world.h.ballots + if n.votedFor.None? then {R.Ballot(n.id, n.term, from, n.log)} else {}));
      }
      Push(from, VoteResponse(term, granted));
    }

    method HandleVoteResponse(from: Peer, m: Message)
      requires Valid() && (m.VoteResponse? || m.PreVoteResponse?)
      modifies this
      ensures Valid() && world == R.HandleVoteResponse(old(world), old(Now()), from, m, config)
    {
      hide R.TakeOver, R.Campaign;
      if role != (if m.VoteResponse? then Candidate else PreCandidate) { return; }
      ghost var before := world;
      votes := votes[from := m.granted];
      var inFavour, against := |Granted(votes)|, |Refused(votes)|;
      world := R.With(world, Now());
      if inFavour >= |cluster| / 2 + 1 {
        if m.VoteResponse? {
          TakeOverAfter(before, Now(), config);
          BecomeLeader();
        } else {
          Campaign();
        }
      } else if against >= |cluster| / 2 + 1 {
        ghost var c := Now();
        role, votes := Follower, map[];
        WithTwice(before, c, Now());
        world := R.With(world, Now());
      }
    }

    /** Skip what is held already, truncate at the first difference, append the rest. */
    method MergeEntries(prev: nat, entries: Log)
      requires prev <= |log|
      modifies this`log
      ensures log == Merge(old(log), prev, entries)
    {
      var offset := 0;
      while offset < |entries| && prev + offset < |log| && log[prev + offset].term == entries[offset].term
        invariant 0 <= offset <= |entries| && prev + offset <= |log|
        invariant Merge(log, prev, entries) == Merge(log, prev + offset, entries[offset..])
      {
        assert entries[offset..][1..] == entries[offset + 1..];
        offset := offset + 1;
      }
      if offset == |entries| { return; }
      if prev + offset < |log| { log := log[..prev + offset]; }
      log := log + entries[offset..];
    }

    method FirstIndexOfTerm(from: nat, held: Term) returns (index: nat)
      requires from <= |log|
      ensures index == RunStart(log, base, from, held)
    {
      index := from;
      while index > base + 1 && log[index - 2].term == held
        invariant index <= |log| && RunStart(log, base, index, held) == RunStart(log, base, from, held)
        decreases index
      {
        index := index - 1;
      }
    }

    /** A candidate that hears from a leader of its own term has lost. */
    method Yield()
      requires Valid()
      modifies this
      ensures Valid() && Now() == R.Yielded(old(Now())) && world == R.With(old(world), Now())
    {
      ghost var n := Now();
      assert world.nodes[id := n] == world.nodes;
      if role == PreCandidate || role == Candidate { StepDown(term); }
    }

    method HandleAppendEntries(from: Peer, m: Message)
      requires Valid() && m.AppendEntries?
      modifies this
      ensures Valid() && world == R.HandleAppendEntries(old(world), old(Now()), from, m, config)
    {
      hide R.Yielded, AcceptAppend;
      Yield();
      if m.prevIndex < base {
        Push(from, AppendResponse(term, true, base, 0, 0));
        return;
      }
      if m.prevIndex > |log| {
        Push(from, AppendResponse(term, false, 0, |log| + 1, 0));
        return;
      }
      var held := if m.prevIndex == 0 then 0 else log[m.prevIndex - 1].term;
      if held != m.prevTerm {
        var conflict := FirstIndexOfTerm(m.prevIndex, held);
        Push(from, AppendResponse(term, false, 0, conflict, held));
        return;
      }
      ghost var f := Now();
      Accept(m.prevIndex, m.entries, m.leaderCommit);
      AcceptFrame(f, m.prevIndex, m.entries, m.leaderCommit, config.threshold);
      WithTwice(old(world), f, Now());
      Push(from, AppendResponse(term, true, m.prevIndex + |m.entries|, 0, 0));
    }

    method Accept(prev: nat, entries: Log, leaderCommit: nat)
      requires Valid() && prev <= |log|
      modifies this
      ensures Valid() && Now() == AcceptAppend(old(Now()), prev, entries, leaderCommit, config.threshold)
      ensures world == R.With(old(world), Now()) && outbox == old(outbox)
    {
      hide Apply;
      MergeEntries(prev, entries);
      if leaderCommit > commit {
        commit := if leaderCommit <= prev + |entries| then leaderCommit else prev + |entries|;
        ghost var n := Now();
        ApplyCommitted();
        ApplyFrame(n, config.threshold);
      }
      world := R.With(world, Now());
    }

    /** Accept a leader's snapshot, replacing the whole log and the state machine,
        unless it covers nothing new. */
    method HandleInstallSnapshot(from: Peer, m: Message)
      requires Valid() && m.InstallSnapshot?
      modifies this
      ensures Valid() && world == R.HandleInstall(old(world), old(Now()), from, m)
    {
      hide R.Yielded;
      Yield();
      if |m.covers| <= commit {
        Push(from, InstallResponse(term, |log|));
        return;
      }
      ghost var f := Now();
      machine, log, base, saved := m.data, m.covers, |m.covers|, m.data;
      commit := |m.covers|;
      WithTwice(old(world), f, Now());
      world := R.With(world, Now());
      Push(from, InstallResponse(term, |m.covers|));
    }

    method HandleInstallResponse(from: Peer, m: Message)
      requires Valid() && m.InstallResponse?
      modifies this
      ensures Valid() && world == R.HandleInstallResponse(old(world), old(Now()), from, m, config)
    {
      hide R.SendAppends, QuorumIndex, Settled, AfterSend;
      if role != Leader || m.term != term { return; }
      ghost var before := world;
      CountAck(from, m.lastIndex);
      SettledAfter(before, Now(), config.threshold);
      Settle();
      SendAppend(from);
    }

    /** Never move what a follower is known to hold backwards. */
    method CountAck(from: Peer, index: nat)
      requires Valid()
      modifies this`matched, this`next, this`world
      ensures Valid() && Now() == NoteAck(old(Now()), from, index) && world == R.With(old(world), Now())
    {
      ghost var n := Now();
      assert world.nodes[id := n] == world.nodes;
      if from in matched {
        var high := if index > matched[from] then index else matched[from];
        matched, next := matched[from := high], next[from := high + 1];
      }
      world := R.With(world, Now());
    }

    method LastIndexOfTerm(wanted: Term) returns (index: Option<nat>)
      ensures index == LastOfTerm(log, base, |log|, wanted)
    {
      var at: nat := |log|;
      while at > base && log[at - 1].term > wanted
        invariant 0 <= at <= |log| && LastOfTerm(log, base, at, wanted) == LastOfTerm(log, base, |log|, wanted)
        decreases at
      {
        at := at - 1;
      }
      return if at > base && log[at - 1].term == wanted then Some(at) else None;
    }

    method NoteRejection(from: Peer, conflictIndex: nat, conflictTerm: Term)
      modifies this`next
      ensures Now() == NoteReject(old(Now()), from, conflictIndex, conflictTerm)
    {
      if from !in next || from !in matched { return; }
      var hint := conflictIndex;
      if conflictTerm != 0 {
        var last := LastIndexOfTerm(conflictTerm);
        if last.Some? { hint := last.value + 1; }
      }
      next := next[from := Max(Max(hint, matched[from] + 1), 1)];
    }

    method HandleAppendResponse(from: Peer, m: Message)
      requires Valid() && m.AppendResponse?
      modifies this
      ensures Valid() && world == R.HandleAppendResponse(old(world), old(Now()), from, m, config)
    {
      hide R.SendAppends, QuorumIndex, Settled, AfterSend, LastOfTerm, NoteReject;
      if role != Leader || m.term != term { return; }
      ghost var before := world;
      if !m.success {
        NoteRejection(from, m.conflictIndex, m.conflictTerm);
        RejectKeepsId(old(Now()), from, m.conflictIndex, m.conflictTerm);
        world := R.With(world, Now());
        SendsAfter(before, Now(), Now(), {from}, config.max);
        SendAppend(from);
        return;
      }
      if from !in matched { return; }
      CountAck(from, m.matchIndex);
      var behind := from in next && next[from] <= |log|;
      SettledAfter(before, Now(), config.threshold);
      Settle();
      if behind { SendAppend(from); }
    }

    method RejectStale(from: Peer, m: Message)
      requires Valid()
      modifies this
      ensures Valid() && world == R.RejectStale(old(world), old(Now()), from, m)
    {
      match m {
        case PreVoteRequest(_, _, _) => Push(from, PreVoteResponse(term, false));
        case VoteRequest(_, _, _) => Push(from, VoteResponse(term, false));
        case AppendEntries(_, _, _, _, _) => Push(from, AppendResponse(term, false, 0, 0, 0));
        case InstallSnapshot(_, _, _) => Push(from, AppendResponse(term, false, 0, 0, 0));
        case _ =>
      }
    }

    method Handle(from: Peer, m: Message, leaderGone: bool)
      requires Valid()
      modifies this
      ensures Valid() && world == R.Handle(old(world), old(Now()), from, m, leaderGone, config)
    {
      hide R.HandleVoteRequest, R.HandleVoteResponse, R.HandleAppendEntries, R.HandleAppendResponse, R.HandleInstall,
           R.HandleInstallResponse, UpToDate;
      match m {
        case PreVoteRequest(_, lastIndex, lastTerm) =>
          Push(from, PreVoteResponse(term, m.term > term && UpToDate(lastIndex, lastTerm, log) && leaderGone));
        case VoteRequest(_, _, _) => HandleVoteRequest(from, m);
        case PreVoteResponse(_, _) => HandleVoteResponse(from, m);
        case VoteResponse(_, _) => HandleVoteResponse(from, m);
        case AppendEntries(_, _, _, _, _) => HandleAppendEntries(from, m);
        case AppendResponse(_, _, _, _, _) => HandleAppendResponse(from, m);
        case InstallSnapshot(_, _, _) => HandleInstallSnapshot(from, m);
        case InstallResponse(_, _) => HandleInstallResponse(from, m);
      }
    }

    /** Feed one message to this replica: a step of the whole system, unless the
        message is for another, which is dropped. */
    method Step(e: Envelope, leaderGone: bool)
      requires Valid() && e in world.h.sent
      modifies this
      ensures Valid()
      ensures e.to == id ==> world == R.Step(old(world), R.Deliver(e, leaderGone, config))
      ensures e.to != id ==> world == old(world) && Now() == old(Now()) && outbox == old(outbox)
    {
      if e.to != id { return; }
      hide R.Handle, R.RejectStale;
      if e.message.term < term {
        RejectStale(e.from, e.message);
        return;
      }
      var hypothetical := e.message.PreVoteRequest? || (e.message.PreVoteResponse? && e.message.granted);
      if e.message.term > term && !hypothetical { StepDown(e.message.term); }
      Handle(e.from, e.message, leaderGone);
    }

    method Propose(command: seq<nat>) returns (accepted: bool)
      requires Valid()
      modifies this
      ensures Valid() && world == R.Step(old(world), R.Propose(id, command, config))
      ensures accepted <==> old(role) == Leader
    {
      hide R.Announce, R.Extend, AppendOwn;
      if role != Leader { return false; }
      AppendLocal(Command(command));
      return true;
    }
  }

  lemma AppendedId(n: Node, payload: Payload)
    ensures AppendOwn(n, payload).id == n.id
  {}

  lemma RejectKeepsId(n: Node, p: Peer, conflictIndex: nat, conflictTerm: Term)
    ensures NoteReject(n, p, conflictIndex, conflictTerm).id == n.id
  {}

  lemma SingleAppend(n: Node, p: Peer, max: nat)
    ensures AppendsFor(n, {p}, max) == AppendTo(n, p, max)
  {
    hide AppendTo;
  }

  lemma SettledAfter(s: R.System, n: Node, threshold: nat)
    ensures R.CommitQuorum(R.With(s, n), n, threshold) == R.CommitQuorum(s, n, threshold)
  {
    hide QuorumIndex;
  }

  lemma SendsAfter(s: R.System, was: Node, n: Node, peers: set<Peer>, max: nat)
    requires was.id == n.id
    ensures R.SendAppends(R.With(s, was), n, peers, max) == R.SendAppends(s, n, peers, max)
  {}

  lemma TakeOverAfter(s: R.System, n: Node, c: Config)
    ensures R.TakeOver(R.With(s, n), n, c) == R.TakeOver(s, n, c)
  {
    hide R.Announce;
    assert R.Elect(R.With(s, n), n) == R.Elect(s, n);
  }

  lemma WithTwice(s: R.System, a: Node, b: Node)
    requires a.id == b.id
    ensures R.With(R.With(s, a), b) == R.With(s, b)
  {}

  lemma AloneAsksNobody(n: Node, cluster: set<Peer>, m: Message)
    requires n.id in cluster && |cluster| / 2 + 1 <= 1
    ensures AskAll(n, cluster, m) == {}
  {
    SubsetSize({n.id}, cluster);
  }

  lemma QuorumIndexUnique(n: Node, cluster: set<Peer>, a: nat, b: nat)
    requires IsQuorumIndex(n, cluster, a) && IsQuorumIndex(n, cluster, b)
    ensures a == b
  {}
}
