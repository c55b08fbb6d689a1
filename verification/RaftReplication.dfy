/** Every move of every replica keeps the invariant: replicating, committing,
    compacting and installing snapshots. */
module RaftReplication {
  import opened Wrappers
  import opened RaftNode
  import opened RaftSystem
  import opened RaftSafety
  import opened RaftGrowth
  import opened RaftMoves

  // --------------------------------------------------------------------- merging

  ghost predicate Matching(a: Log, b: Log) {
    forall i | 0 <= i < |a| && i < |b| && a[i].term == b[i].term :: a[..i + 1] == b[..i + 1]
  }

  /** Merging a stretch of the leader's log leaves a log that already has it alone,
      and otherwise ends exactly with it. */
  lemma {:induction false} MergeResult(log: Log, prev: nat, entries: Log, leader: Log)
    requires Matching(log, leader) && prev <= |log| && prev + |entries| <= |leader|
    requires log[..prev] == leader[..prev] && entries == leader[prev..prev + |entries|]
    ensures Merge(log, prev, entries) == if leader[..prev + |entries|] <= log then log else leader[..prev + |entries|]
    decreases |entries|
  {
    var k := prev + |entries|;
    if entries == [] {
      assert leader[..k] <= log;
    } else {
      assert entries[0] == leader[prev];
      assert leader[..k] <= log ==> prev < |log| && log[prev] == leader[..k][prev];
      if prev < |log| && log[prev].term == entries[0].term {
        assert entries[1..] == leader[prev + 1..k];
        MergeResult(log, prev + 1, entries[1..], leader);
      } else {
        assert leader[..k] == leader[..prev] + leader[prev..k];
      }
    }
  }

  /** So a merge loses nothing the leader has too. */
  lemma MergeLosesNothing(log: Log, prev: nat, entries: Log, leader: Log, p: Log)
    requires Matching(log, leader) && prev <= |log| && prev + |entries| <= |leader|
    requires log[..prev] == leader[..prev] && entries == leader[prev..prev + |entries|]
    requires p <= log && p <= leader
    ensures p <= Merge(log, prev, entries) && leader[..prev + |entries|] <= Merge(log, prev, entries)
  {
    MergeResult(log, prev, entries, leader);
    var k := prev + |entries|;
    assert |p| >= k ==> leader[..k] <= log;
    assert |p| < k ==> p <= leader[..k];
  }

  lemma MergeLength(log: Log, prev: nat, entries: Log)
    requires prev <= |log|
    ensures |Merge(log, prev, entries)| >= prev + |entries|
    decreases |entries|
  {}

  /** Two logs of the record match. */
  lemma LogsMatching(h: History, log: Log, bound: Term, t: Term)
    requires WinsOk(h) && GoodLog(h.logs, log, bound) && t in h.won && t in h.logs
    ensures Matching(log, h.logs[t])
  {
    var leader := h.logs[t];
    WinLog(h, t);
    forall i | 0 <= i < |log| && i < |leader| && log[i].term == leader[i].term ensures log[..i + 1] == leader[..i + 1] {
      LogMatching(h.logs, log, leader, bound, t, i);
    }
  }

  /** A replica that has the place an append starts from has all before it. */
  lemma AppendMatches(h: History, n: Node, e: Envelope)
    requires WinsOk(h) && GoodLog(h.logs, n.log, n.term) && e.message.AppendEntries? && AppendOk(h, e)
    requires Fits(n, e.message.prevIndex, e.message.prevTerm)
    ensures var leader, prev := h.logs[e.message.term], e.message.prevIndex;
            Matching(n.log, leader) && prev <= |n.log| && n.log[..prev] == leader[..prev]
  {
    var t, prev := e.message.term, e.message.prevIndex;
    LogsMatching(h, n.log, n.term, t);
    if prev > 0 { assert n.log[prev - 1].term == h.logs[t][prev - 1].term; }
  }

  // ----------------------------------------------------------- what is committed

  /** What is decided is in the log of every leader of a term no earlier. */
  lemma DecidedInLeader(h: History, log: Log, bound: Term, t: Term)
    requires HistoryOk(h, true) && Decided(h, log, bound) && bound <= t && t in h.won && t in h.logs
    ensures log <= h.logs[t]
  {
    hide BallotsOk, BidsOk, SentOk, PromisesOk, BallotsInformed, WinsInformed, QuorumHeld, GoodLog;
    if log != [] {
      var u: Term, m: nat :| u <= bound && Committed(h, u, m) && log <= h.logs[u][..m];
      assert WinOk(h, t);
      if u < t { LeaderCompleteness(h, u, m, t); }
    }
  }

  /** Handing over committed entries leaves the state machine with all of them, and
      compacting changes nothing a replica stands for. */
  lemma ApplyKeeps(h: History, n: Node, threshold: nat)
    requires n.machine <= n.log && Decided(h, n.machine, n.term) && n.saved <= n.machine
    requires n.commit <= |n.log| && Decided(h, n.log[..n.commit], n.term)
    ensures AppliedOk(h, Apply(n, threshold))
  {
    hide Decided;
    if |n.machine| < n.commit {
      assert n.machine == n.log[..|n.machine|];
      assert n.machine + n.log[|n.machine|..n.commit] == n.log[..n.commit];
    }
  }

  lemma ApplyShape(n: Node, threshold: nat)
    requires ShapeOk(n)
    ensures ShapeOk(Apply(n, threshold))
  {}

  lemma GoodLogPrefix(logs: map<Term, Log>, log: Log, k: nat, bound: Term)
    requires GoodLog(logs, log, bound) && k <= |log|
    ensures GoodLog(logs, log[..k], bound)
  {
    forall i | 0 <= i < k ensures Recorded(logs, log[..k], i) {
      assert Recorded(logs, log, i);
      assert log[..k][..i + 1] == log[..i + 1];
    }
  }

  lemma CompactedNode(h: History, n: Node, kept: bool)
    requires NodeOk(h, n, kept)
    ensures NodeOk(h, Compacted(n), kept) && Compacted(n).id == n.id
  {
    hide GoodLog, HoldingOk, Decided, MachineHeld;
    if kept {
      HoldingAlike(h, n, Compacted(n));
      MachineHeldPrefix(h, n, Compacted(n));
    }
  }

  lemma CompactKeeps(s: System, n: Node, kept: bool)
    requires Inv(s, kept) && n.id in s.nodes && NodeOk(s.h, n, kept)
    ensures Inv(With(s, Compacted(n)), kept)
  {
    hide HistoryOk, Record, NodeOk, Compacted;
    HistoryOf(s, kept);
    CompactedNode(s.h, n, kept);
    Unchanged(s.h, n.id, n.term);
    MoveKeeps(s, Compacted(n), s.h, n.term, kept);
  }

  // ------------------------------------------------------------------- answering

  function AnswerIn(h: History, p: Peer, to: Peer, m: Message): History {
    h.(sent := h.sent + {Envelope(p, to, m)})
  }

  /** The replica has what it says it has of the leader's log. */
  ghost predicate Truthful(h: History, n: Node, m: Message) {
    Acks(m) && n.term in h.won && n.term in h.logs && AckIndex(m) <= |h.logs[n.term]|
      && h.logs[n.term][..AckIndex(m)] <= n.log
  }

  lemma AnswerNews(h: History, n: Node, to: Peer, m: Message, kept: bool)
    requires HistoryOk(h, kept) && Sound(h, n) && to != n.id && Acks(m) && m.term == n.term
    requires kept ==> Truthful(h, n, m)
    ensures ByAt(h, AnswerIn(h, n.id, to, m), n.id, n.term) && HistoryOk(AnswerIn(h, n.id, to, m), kept)
  {
    hide BallotOk, BallotInformed, GoodLog, WinOk, WinInformed, RoleOk;
    var h' := AnswerIn(h, n.id, to, m);
    BallotsBefore(h, n, false);
    hide Tied;
    assert EnvelopeOk(h', Envelope(n.id, to, m)) && (kept ==> PromiseOk(h', m));
    hide EnvelopeOk, PromiseOk;
    HistoryKeeps(h, h', n.id, n.term, kept);
  }

  lemma AnswerHolds(h: History, n: Node, to: Peer, m: Message)
    requires HistoryOk(h, true) && HoldingOk(h, n) && m.term == n.term && Truthful(h, n, m)
    requires ByAt(h, AnswerIn(h, n.id, to, m), n.id, n.term)
    ensures HoldingOk(AnswerIn(h, n.id, to, m), n)
  {
    hide BallotsOk, BidsOk, BallotsInformed, WinsInformed, Held, Retains, SentOk, PromiseOk, WinOk;
    var h' := AnswerIn(h, n.id, to, m);
    forall t: Term, k: nat | Held(h', n.id, t, k) ensures t <= n.term && Retains(h', n.log, t, k, n.term) {
      if Held(h, n.id, t, k) {
        RetainsGrows(h, h', n.log, t, k, n.term);
      } else {
        if t != n.term { HeldBefore(h, h', n.id, n.term, n.id, t, k); }
        JustAcked(h, n.id, to, m, k);
        assert h'.logs[t][..k] <= h.logs[t][..AckIndex(m)];
        NewlyHeld(h', n.id, n.log, t, k, n.term);
      }
    }
  }

  lemma JustAcked(h: History, p: Peer, to: Peer, m: Message, k: nat)
    requires Acks(m) && Held(AnswerIn(h, p, to, m), p, m.term, k) && !Held(h, p, m.term, k)
    ensures m.term in h.logs && k <= |h.logs[m.term]| && k <= AckIndex(m)
  {}

  /** A replica as it should be, but for what it has yet to acknowledge. */
  ghost predicate Nearly(h: History, n: Node, kept: bool) {
    Sound(h, n) && (kept ==> MatchedOk(h, n) && HoldingOk(h, n) && AppliedOk(h, n))
  }

  /** What the replica has applied it has acknowledged, or does with `m`. */
  ghost predicate Acknowledged(h: History, n: Node, m: Message) {
    MachineHeld(h, n) || (Acks(m) && |n.machine| <= AckIndex(m))
  }

  lemma AnswerCommits(h: History, n: Node, to: Peer, m: Message)
    requires AppliedOk(h, n) && Truthful(h, n, m) && m.term == n.term && Acknowledged(h, n, m)
    requires Extends(h, AnswerIn(h, n.id, to, m))
    ensures CommitOk(AnswerIn(h, n.id, to, m), n)
  {
    hide Decided, MachineHeld;
    var h' := AnswerIn(h, n.id, to, m);
    DecidedGrows(h, h', n.machine, n.term, n.term);
    if MachineHeld(h, n) {
      MachineGrows(h, h', n, n);
    } else {
      assert IsAck(Envelope(n.id, to, m), n.id, n.term, |n.machine|);
      assert h.logs[n.term][..|n.machine|] == n.machine;
      assert HeldDecided(h', n.id, n.term, n.machine);
      MachineOf(h', n, n.term);
    }
  }

  lemma MachineOf(h: History, n: Node, t: Term)
    requires HeldDecided(h, n.id, t, n.machine)
    ensures MachineHeld(h, n)
  {}

  /** A follower may move to `n` and acknowledge what it then has. */
  lemma AnswerKeeps(s: System, n: Node, to: Peer, m: Message, kept: bool)
    requires Inv(s, kept) && n.id in s.nodes && Nearly(s.h, n, kept) && n.role == Follower
    requires kept ==> Acknowledged(s.h, n, m)
    requires to != n.id && Acks(m) && m.term == n.term && (kept ==> Truthful(s.h, n, m))
    ensures var t := Reply(With(s, n), n, to, m); Inv(t, kept) && Extends(s.h, t.h)
  {
    hide GoodLog, HoldingOk, CommitOk, AppliedOk, Record, Informed, Truthful, ByAt, Acknowledged;
    var h' := AnswerIn(s.h, n.id, to, m);
    HistoryOf(s, kept);
    AnswerNews(s.h, n, to, m, kept);
    ByExtends(s.h, h', n.id, n.term);
    GoodLogGrows(s.h, h', n.log, n.term);
    VotedGrows(s.h, h');
    if kept {
      AnswerHolds(s.h, n, to, m);
      AnswerCommits(s.h, n, to, m);
    }
    MoveKeeps(s, n, h', n.term, kept);
  }

  // ------------------------------------------------------------------- accepting

  /** A message of the leader of the term a follower is in. */
  ghost predicate Heard(h: History, n: Node, e: Envelope, kept: bool) {
    && HistoryOk(h, kept) && NodeOk(h, n, kept)
    && e in h.sent && e.to == n.id && e.message.term == n.term && n.role == Follower
  }

  /** An append that fits, and starts past what has been compacted. */
  ghost predicate Acceptable(h: History, n: Node, e: Envelope, kept: bool) {
    Heard(h, n, e, kept) && e.message.AppendEntries? && Fits(n, e.message.prevIndex, e.message.prevTerm)
      && n.base <= e.message.prevIndex
  }

  lemma HeardAppend(h: History, n: Node, e: Envelope, kept: bool)
    requires Heard(h, n, e, kept) && e.message.AppendEntries?
    ensures AppendOk(h, e) && WinsOk(h) && Sound(h, n) && (kept ==> PromiseOk(h, e.message))
  {
    hide GoodLog, Keeping, BallotsOk, BidsOk, WinsOk, BallotsInformed, WinsInformed, Tied, RoleOk;
    assert EnvelopeOk(h, e);
  }

  lemma AcceptedLog(h: History, n: Node, e: Envelope, p: Log)
    requires WinsOk(h) && GoodLog(h.logs, n.log, n.term) && e.message.AppendEntries? && e.message.term == n.term
    requires AppendOk(h, e)
    requires Fits(n, e.message.prevIndex, e.message.prevTerm) && p <= n.log && p <= h.logs[n.term]
    ensures e.message.prevIndex <= |n.log|
    ensures var log := Merge(n.log, e.message.prevIndex, e.message.entries);
            var k := e.message.prevIndex + |e.message.entries|;
            GoodLog(h.logs, log, n.term) && p <= log && h.logs[n.term][..k] <= log
  {
    hide GoodLog, Merge, Matching, WinsOk;
    var leader, prev, entries := h.logs[n.term], e.message.prevIndex, e.message.entries;
    AppendMatches(h, n, e);
    MergeResult(n.log, prev, entries, leader);
    MergeLosesNothing(n.log, prev, entries, leader, p);
    assert GoodLog(h.logs, leader, n.term) by { LeaderLog(h, n.term); }
    GoodLogPrefix(h.logs, leader, prev + |entries|, n.term);
  }

  lemma LeaderLog(h: History, t: Term)
    requires WinsOk(h) && t in h.won && t in h.logs
    ensures GoodLog(h.logs, h.logs[t], t)
  {
    WinLog(h, t);
  }

  /** What the replica held it keeps, or the leader it now follows lacks it. */
  lemma HeldStays(h: History, n: Node, log: Log, t: Term, m: nat)
    requires WinsOk(h) && HoldingOk(h, n) && Held(h, n.id, t, m) && n.term in h.won && n.term in h.logs
    requires h.logs[t][..m] <= n.log && h.logs[t][..m] <= h.logs[n.term] ==> h.logs[t][..m] <= log
    ensures t <= n.term && Retains(h, log, t, m, n.term)
  {
    hide GoodLog;
    assert t <= n.term && Retains(h, n.log, t, m, n.term);
    var p := h.logs[t][..m];
    assert WinOk(h, n.term);
    if p <= n.log && !(p <= h.logs[n.term]) {
      assert t < n.term && Lacks(h, n.term, t, m);
    }
  }

  lemma AcceptHolds(h: History, n: Node, e: Envelope, n': Node)
    requires WinsOk(h) && Sound(h, n) && HoldingOk(h, n) && e.message.AppendEntries? && e.message.term == n.term
    requires AppendOk(h, e)
    requires Fits(n, e.message.prevIndex, e.message.prevTerm)
    requires n'.id == n.id && n'.term == n.term && e.message.prevIndex <= |n.log|
    requires n'.log == Merge(n.log, e.message.prevIndex, e.message.entries)
    ensures HoldingOk(h, n')
  {
    hide GoodLog, Merge, Held, Retains, WinsOk, Tied, RoleOk, Fits;
    forall t: Term, m: nat | Held(h, n.id, t, m) ensures t <= n.term && Retains(h, n'.log, t, m, n.term) {
      HeldHas(h, n.id, t, m);
      var p := h.logs[t][..m];
      if p <= n.log && p <= h.logs[n.term] { AcceptedLog(h, n, e, p); }
      HeldStays(h, n, n'.log, t, m);
    }
  }

  lemma HeldHas(h: History, p: Peer, t: Term, m: nat)
    requires Held(h, p, t, m)
    ensures t in h.won && t in h.logs && m <= |h.logs[t]|
  {}

  lemma AcceptCommits(h: History, n: Node, e: Envelope, threshold: nat)
    requires Acceptable(h, n, e, true)
    ensures e.message.prevIndex <= |n.log|
    ensures AppliedOk(h, AcceptAppend(n, e.message.prevIndex, e.message.entries, e.message.leaderCommit, threshold))
  {
    hide HistoryOk, HoldingOk, MatchedOk, MachineHeld, Tied, RoleOk, Decided, GoodLog, Merge, Apply, Fits, AppendOk,
         WinsOk;
    var AppendEntries(t, prev, _, entries, leaderCommit) := e.message;
    HeardAppend(h, n, e, true);
    LeaderTerm(h, e);
    DecidedInLeader(h, n.machine, n.term, t);
    AcceptedLog(h, n, e, n.machine);
    var log, k := Merge(n.log, prev, entries), prev + |entries|;
    if leaderCommit > n.commit {
      var c := Min(leaderCommit, k);
      DecidedPrefix(h, h.logs[t][..leaderCommit], c, t);
      assert log[..c] == h.logs[t][..leaderCommit][..c];
      ApplyKeeps(h, n.(log := log, commit := c), threshold);
    }
  }

  lemma LeaderTerm(h: History, e: Envelope)
    requires e.message.AppendEntries? && AppendOk(h, e)
    ensures FromLeader(h, e) && e.message.prevIndex + |e.message.entries| <= |h.logs[e.message.term]|
  {}

  lemma AcceptNode(h: History, n: Node, e: Envelope, threshold: nat, kept: bool)
    requires Acceptable(h, n, e, kept)
    ensures e.message.prevIndex <= |n.log|
    ensures Nearly(h, AcceptAppend(n, e.message.prevIndex, e.message.entries, e.message.leaderCommit, threshold), kept)
  {
    hide HistoryOk, HoldingOk, CommitOk, AppliedOk, GoodLog, Merge, Apply, Fits, AppendOk;
    var AppendEntries(t, prev, _, entries, leaderCommit) := e.message;
    HeardAppend(h, n, e, kept);
    LeaderTerm(h, e);
    AcceptedLog(h, n, e, []);
    MergeLength(n.log, prev, entries);
    var n' := AcceptAppend(n, prev, entries, leaderCommit, threshold);
    var merged := n.(log := Merge(n.log, prev, entries), commit := Min(leaderCommit, prev + |entries|));
    ApplyFrame(merged, threshold);
    ApplyShape(merged, threshold);
    if kept {
      AcceptHolds(h, n, e, n');
      AcceptCommits(h, n, e, threshold);
    }
  }

  lemma AcceptKeeps(s: System, n: Node, e: Envelope, threshold: nat, kept: bool)
    requires Inv(s, kept) && n.id in s.nodes && Acceptable(s.h, n, e, kept)
    ensures var m := e.message;
            m.prevIndex <= |n.log| &&
            var t := Reply(With(s, AcceptAppend(n, m.prevIndex, m.entries, m.leaderCommit, threshold)), n, e.from,
                           AppendResponse(n.term, true, m.prevIndex + |m.entries|, 0, 0));
            Inv(t, kept) && Extends(s.h, t.h)
  {
    hide NodeOk, HistoryOk, AppendOk, Fits, Merge, Apply, WinsOk, Nearly, Acknowledged;
    var AppendEntries(_, prev, _, entries, leaderCommit) := e.message;
    AcceptNode(s.h, n, e, threshold, kept);
    HeardAppend(s.h, n, e, kept);
    LeaderTerm(s.h, e);
    AcceptedLog(s.h, n, e, []) by { SoundLog(s.h, n); }
    var n' := AcceptAppend(n, prev, entries, leaderCommit, threshold);
    ApplyFrame(n.(log := Merge(n.log, prev, entries), commit := Min(leaderCommit, prev + |entries|)), threshold);
    var m := AppendResponse(n.term, true, prev + |entries|, 0, 0);
    if kept {
      AcceptedMachine(n, prev, entries, leaderCommit, threshold);
      AppliedAcknowledged(s.h, n, n', m);
    }
    AnswerKeeps(s, n', e.from, m, kept);
  }

  /** An append has nothing applied that it does not reach. */
  lemma AcceptedMachine(n: Node, prev: nat, entries: Log, leaderCommit: nat, threshold: nat)
    requires prev <= |n.log|
    ensures var n' := AcceptAppend(n, prev, entries, leaderCommit, threshold);
            n'.machine == n.machine || |n'.machine| <= prev + |entries|
  {
    hide Merge;
  }

  lemma AppliedAcknowledged(h: History, n: Node, n': Node, m: Message)
    requires NodeOk(h, n, true) && n'.id == n.id && Acks(m)
    requires n'.machine == n.machine || |n'.machine| <= AckIndex(m)
    ensures Acknowledged(h, n', m)
  {
    hide Sound, MatchedOk, HoldingOk, AppliedOk, MachineHeld;
    if n'.machine == n.machine { MachineHeldPrefix(h, n, n'); }
  }

  lemma NodeNearly(h: History, n: Node, kept: bool)
    requires NodeOk(h, n, kept)
    ensures Nearly(h, n, kept) && (kept ==> MachineHeld(h, n) && AppliedOk(h, n))
  {
    hide Sound, MatchedOk, HoldingOk, AppliedOk, MachineHeld;
  }

  lemma SoundLog(h: History, n: Node)
    requires Sound(h, n)
    ensures GoodLog(h.logs, n.log, n.term)
  {}

  /** An append that starts inside what has been compacted: what has been is
      committed, so the leader has it. */
  lemma CompactedAppendKeeps(s: System, n: Node, e: Envelope, kept: bool)
    requires Inv(s, kept) && n.id in s.nodes && Heard(s.h, n, e, kept) && e.message.AppendEntries?
    ensures var t := Reply(With(s, n), n, e.from, AppendResponse(n.term, true, n.base, 0, 0));
            Inv(t, kept) && Extends(s.h, t.h)
  {
    hide HistoryOk, AppendOk, WinsOk, NodeOk, Decided, Nearly, MachineHeld;
    HeardAppend(s.h, n, e, kept);
    LeaderTerm(s.h, e);
    NodeNearly(s.h, n, kept);
    ShapeOf(s.h, n);
    if kept {
      DecidedInLeader(s.h, n.machine, n.term, n.term);
      assert s.h.logs[n.term][..n.base] == n.machine[..n.base] <= n.log;
    }
    AnswerKeeps(s, n, e.from, AppendResponse(n.term, true, n.base, 0, 0), kept);
  }

  lemma ShapeOf(h: History, n: Node)
    requires Sound(h, n)
    ensures ShapeOk(n)
  {}

  // ------------------------------------------------------------------- snapshots

  /** Some leader up to `bound` lacked what was held. */
  ghost predicate Overruled(h: History, bound: Term, t: Term, m: nat) {
    exists u: Term :: u <= bound && Lacks(h, u, t, m)
  }

  /** Everything `p` has acknowledged or written, and no leader up to `bound` has
      overruled, is covered. */
  ghost predicate Covered(h: History, p: Peer, bound: Term, covers: Log) {
    forall t: Term, m: nat | Held(h, p, t, m) && !Overruled(h, bound, t, m) :: m <= |covers|
  }

  /** What was held, and not overruled, the leader has; so a part of its log has it
      exactly when it is long enough. */
  lemma PromiseInLeader(h: History, log: Log, covers: Log, bound: Term, t: Term, m: nat)
    requires WinsOk(h) && bound in h.won && bound in h.logs && covers <= h.logs[bound]
    requires t <= bound && t in h.won && t in h.logs && m <= |h.logs[t]| && Retains(h, log, t, m, bound)
    ensures Retains(h, covers, t, m, bound) <==> (!Overruled(h, bound, t, m) ==> m <= |covers|)
    ensures !Overruled(h, bound, t, m) ==> h.logs[t][..m] <= log && h.logs[t][..m] <= h.logs[bound]
  {
    hide GoodLog;
    assert WinOk(h, bound);
    if !Overruled(h, bound, t, m) {
      assert t < bound ==> !Lacks(h, bound, t, m);
      assert h.logs[t][..m] <= h.logs[bound];
    }
  }

  /** The replica's log goes on past the last entry the snapshot stands for. */
  predicate GoesOn(log: Log, covers: Log) {
    |covers| < |log| && covers != [] && log[|covers| - 1].term == LastTerm(covers)
  }

  /** What a replica can tell by itself: everything it has acknowledged or written is
      covered, or its log does not go on from where the snapshot ends. */
  ghost predicate NothingLost(h: History, n: Node, covers: Log) {
    !GoesOn(n.log, covers) || forall t: Term, m: nat | Held(h, n.id, t, m) :: m <= |covers|
  }

  lemma NothingLostIsCovered(h: History, n: Node, covers: Log, bound: Term)
    requires WinsOk(h) && HoldingOk(h, n) && n.term <= bound && bound in h.won && bound in h.logs
    requires covers <= h.logs[bound] && covers != [] && NothingLost(h, n, covers)
    ensures Covered(h, n.id, bound, covers)
  {
    hide GoodLog, Held, Retains, WinsOk, Overruled;
    forall t: Term, m: nat | Held(h, n.id, t, m) && !Overruled(h, bound, t, m) ensures m <= |covers| {
      HeldHas(h, n.id, t, m);
      RetainsWider(h, n.log, n.log, t, m, n.term, bound);
      PromiseInLeader(h, n.log, covers, bound, t, m);
      if m > |covers| { CarriedOn(h.logs[t][..m], n.log, h.logs[bound], covers); }
    }
  }

  /** The leader has an entry of the same term where the replica's log ends. */
  predicate EndsAlike(log: Log, leader: Log) {
    TermAt(leader, |log|) == Some(LastTerm(log))
  }

  /** Which is to say that the replica has nothing the leader has not. */
  lemma EndsAlikeMeans(logs: map<Term, Log>, log: Log, leader: Log, boundA: Term, boundB: Term)
    requires GoodLog(logs, log, boundA) && GoodLog(logs, leader, boundB)
    ensures EndsAlike(log, leader) <==> log <= leader
  {
    if log != [] && EndsAlike(log, leader) { LogMatching(logs, log, leader, boundA, boundB, |log| - 1); }
  }

  lemma HeardInstall(h: History, n: Node, e: Envelope, kept: bool)
    requires Heard(h, n, e, kept) && e.message.InstallSnapshot?
    ensures InstallOk(h, e) && WinsOk(h) && Sound(h, n) && (kept ==> PromiseOk(h, e.message))
  {
    hide GoodLog, Keeping, BallotsOk, BidsOk, WinsOk, BallotsInformed, WinsInformed, Tied, RoleOk;
    assert EnvelopeOk(h, e);
  }

  lemma CarriedOn(p: Log, log: Log, leader: Log, covers: Log)
    requires p <= log && p <= leader && covers <= leader && 0 < |covers| < |p|
    ensures GoesOn(log, covers)
  {
    assert p[|covers| - 1] == log[|covers| - 1] == covers[|covers| - 1];
  }

  /** What a replica held it has after an install, or some leader has overruled it,
      exactly when all the rest is covered. */
  lemma InstallHoldsExactlyWhen(h: History, n: Node, covers: Log, n': Node)
    requires WinsOk(h) && HoldingOk(h, n) && n.term in h.won && n.term in h.logs && covers <= h.logs[n.term]
    requires n'.id == n.id && n'.term == n.term && n'.log == covers
    ensures HoldingOk(h, n') <==> Covered(h, n.id, n.term, covers)
  {
    hide GoodLog, Held, Retains, WinsOk, Overruled;
    forall t: Term, m: nat | Held(h, n.id, t, m)
      ensures t <= n.term && (Retains(h, covers, t, m, n.term) <==> (!Overruled(h, n.term, t, m) ==> m <= |covers|))
    {
      HeldHas(h, n.id, t, m);
      PromiseInLeader(h, n.log, covers, n.term, t, m);
    }
  }

  lemma InstallNode(h: History, n: Node, e: Envelope, kept: bool)
    requires Heard(h, n, e, kept) && e.message.InstallSnapshot?
    requires kept ==> Covered(h, n.id, n.term, e.message.covers)
    ensures Nearly(h, Installed(n, e.message.covers, e.message.data), kept)
  {
    hide HistoryOk, HoldingOk, Decided, GoodLog, WinsOk, Covered, MachineHeld;
    var InstallSnapshot(t, covers, data) := e.message;
    HeardInstall(h, n, e, kept);
    LeaderLog(h, t);
    GoodLogPrefix(h.logs, h.logs[t], |covers|, t);
    assert h.logs[t][..|covers|] == covers;
    if kept { InstallHoldsExactlyWhen(h, n, covers, Installed(n, covers, data)); }
  }

  /** Installing a snapshot, by which nothing acknowledged is lost. */
  lemma InstallKeeps(s: System, n: Node, e: Envelope, kept: bool)
    requires Inv(s, kept) && n.id in s.nodes && Heard(s.h, n, e, kept) && e.message.InstallSnapshot?
    requires kept ==> Covered(s.h, n.id, n.term, e.message.covers)
    ensures var m := e.message;
            var t := Reply(With(s, Installed(n, m.covers, m.data)), n, e.from, InstallResponse(n.term, |m.covers|));
            Inv(t, kept) && Extends(s.h, t.h)
  {
    hide HistoryOk, Sound, Keeping, Covered, WinsOk, Nearly;
    HeardInstall(s.h, n, e, kept);
    InstallNode(s.h, n, e, kept);
    var m := InstallResponse(n.term, |e.message.covers|);
    AnswerKeeps(s, Installed(n, e.message.covers, e.message.data), e.from, m, kept);
  }

  /** Declining one, with a log that has nothing the leader has not. */
  lemma NoNewsKeeps(s: System, n: Node, e: Envelope, kept: bool)
    requires Inv(s, kept) && n.id in s.nodes && Heard(s.h, n, e, kept) && e.message.InstallSnapshot?
    requires kept ==> n.term in s.h.logs && EndsAlike(n.log, s.h.logs[n.term])
    ensures var t := Reply(With(s, n), n, e.from, InstallResponse(n.term, |n.log|)); Inv(t, kept) && Extends(s.h, t.h)
  {
    hide HistoryOk, NodeOk, GoodLog, WinsOk, EndsAlike, Nearly, MachineHeld, AppliedOk;
    HeardInstall(s.h, n, e, kept);
    NodeNearly(s.h, n, kept);
    if kept {
      SoundLog(s.h, n);
      LeaderLog(s.h, n.term);
      EndsAlikeMeans(s.h.logs, n.log, s.h.logs[n.term], n.term, n.term);
      assert s.h.logs[n.term][..|n.log|] == n.log;
    }
    AnswerKeeps(s, n, e.from, InstallResponse(n.term, |n.log|), kept);
  }

  // ------------------------------------------------------------------ committing

  lemma AckedIsHeld(h: History, e: Envelope)
    requires PromisesOk(h) && e in h.sent && Acks(e.message)
    ensures Held(h, e.from, e.message.term, AckIndex(e.message))
  {
    assert PromiseOk(h, e.message);
    assert IsAck(e, e.from, e.message.term, AckIndex(e.message));
  }

  lemma NoteAckKeeps(s: System, n: Node, e: Envelope, kept: bool)
    requires Inv(s, kept) && n.id in s.nodes && NodeOk(s.h, n, kept) && n.role == Leader
    requires e in s.h.sent && Acks(e.message) && e.message.term == n.term
    ensures var l := NoteAck(n, e.from, AckIndex(e.message));
            Inv(With(s, l), kept) && NodeOk(s.h, l, kept) && l.role == Leader && l.id == n.id
  {
    hide GoodLog, Tied, HoldingOk, CommitOk, Held, Record, BallotsInformed, WinsInformed, PromiseOk;
    if kept { AckedIsHeld(s.h, e); }
    VolatileKeeps(s, n, NoteAck(n, e.from, AckIndex(e.message)), kept);
  }

  /** A leader that counts a quorum behind an entry of its own has it committed. */
  lemma QuorumCommits(h: History, n: Node, index: nat)
    requires h.cluster != {} && NodeOk(h, n, true) && n.role == Leader && 0 < index <= |n.log|
    requires n.log[index - 1].term == n.term
    requires |Holders(n, h.cluster, index)| >= Quorum(h.cluster)
    ensures Decided(h, n.log[..index], n.term)
  {
    hide GoodLog, HoldingOk, CommitOk, Held;
    var t := n.term;
    assert n.log == h.logs[t];
    forall p | p in Holders(n, h.cluster, index) ensures Held(h, p, t, index) {
      if p == n.id { LeaderHolds(h, n, index); } else { HeldLess(h, p, t, n.matched[p], index); }
    }
    assert QuorumHeld(h, Holders(n, h.cluster, index), t, index);
    assert Committed(h, t, index);
  }

  lemma LeaderHolds(h: History, n: Node, index: nat)
    requires Tied(h, n) && n.term in h.won && h.won[n.term].leader == n.id && index <= |n.log|
    ensures Held(h, n.id, n.term, index)
  {}

  lemma AdvanceCommits(h: History, n: Node, index: nat, threshold: nat)
    requires h.cluster != {} && NodeOk(h, n, true) && |Holders(n, h.cluster, index)| >= Quorum(h.cluster)
    ensures AppliedOk(h, Apply(Advanced(n, index), threshold))
  {
    hide GoodLog, Tied, RoleOk, MatchedOk, HoldingOk, Decided, Apply, MachineHeld;
    if n.role == Leader && index > n.commit && HeldTerm(n, index) == Some(n.term) {
      QuorumCommits(h, n, index);
    } else {
      DecidedPrefix(h, n.machine, n.commit, n.term);
      assert n.machine[..n.commit] == n.log[..n.commit];
    }
    ApplyKeeps(h, Advanced(n, index), threshold);
  }

  lemma SettledNode(h: History, n: Node, threshold: nat, kept: bool)
    requires h.cluster != {} && NodeOk(h, n, kept)
    ensures var c := Settled(n, h.cluster, threshold);
            NodeOk(h, c, kept) && c == n.(commit := c.commit, machine := c.machine, base := c.base, saved := c.saved)
  {
    hide GoodLog, HoldingOk, AppliedOk, MachineHeld, Apply, QuorumIndex, Holders;
    var index := QuorumIndex(n, h.cluster);
    ApplyFrame(Advanced(n, index), threshold);
    ApplyShape(Advanced(n, index), threshold);
    if kept {
      AdvanceCommits(h, n, index, threshold);
      AdvanceHeld(h, n, index, threshold);
      HoldingAlike(h, n, Settled(n, h.cluster, threshold));
    }
  }

  /** Whatever a leader applies is its own log. */
  lemma AdvanceHeld(h: History, n: Node, index: nat, threshold: nat)
    requires NodeOk(h, n, true) && AppliedOk(h, Apply(Advanced(n, index), threshold))
    ensures MachineHeld(h, Apply(Advanced(n, index), threshold))
  {
    hide GoodLog, MatchedOk, HoldingOk, Decided, MachineHeld, Apply;
    var c := Apply(Advanced(n, index), threshold);
    ApplyFrame(Advanced(n, index), threshold);
    if c.machine == n.machine {
      MachineHeldPrefix(h, n, c);
    } else {
      OnlyLeadersApply(n, index, threshold);
      LeaderHolds(h, n, |c.machine|);
      MachineOf(h, c, n.term);
    }
  }

  lemma OnlyLeadersApply(n: Node, index: nat, threshold: nat)
    requires n.commit <= |n.machine|
    ensures n.role == Leader || Apply(Advanced(n, index), threshold).machine == n.machine
  {}

  lemma CommitQuorumKeeps(s: System, n: Node, threshold: nat, kept: bool)
    requires Inv(s, kept) && n.id in s.nodes && NodeOk(s.h, n, kept)
    ensures var t, c := CommitQuorum(s, n, threshold), Settled(n, s.h.cluster, threshold);
            Inv(t, kept) && t.h == s.h && NodeOk(s.h, c, kept) && c.id == n.id && c.role == n.role
  {
    hide NodeOk, HistoryOk, Record, Settled;
    HistoryOf(s, kept);
    SettledNode(s.h, n, threshold, kept);
    Unchanged(s.h, n.id, n.term);
    MoveKeeps(s, Settled(n, s.h.cluster, threshold), s.h, n.term, kept);
  }
}
