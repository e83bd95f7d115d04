/** Steps of replication are steps of the protocol: both append requests and snapshots make a follower
    adopt a prefix of its leader's log. */
module ReplicationSteps {
  import opened Types
  import opened NodeModel
  import opened SystemModel
  import opened Protocol
  import opened Behaviour
  import opened Actions
  import opened Relation
  import opened ElectionSteps

  // ---------------------------------------------------------------- following a leader

  /** The world after node i has seen a leader's term and follows. */
  ghost function Following(w: World, i: nat, term: nat): World
    requires i < |w.peers|
  {
    Reset(Seen(w, i, term), i)
  }

  lemma FollowingKeeps(w: World, i: nat, term: nat)
    requires Inv(w) && i < |w.peers| && w.peers[i].term <= term
    ensures Inv(Following(w, i, term)) && Grows(w, Following(w, i, term)) && Following(w, i, term).peers[i].term == term
    ensures Performs(w, Following(w, i, term), i)
  {
    hide Inv, Grows, Performs;
    var w1 := Seen(w, i, term);
    SeenKeeps(w, i, term);
    ResetKeeps(w1, i);
    GrowsTransitive(w, w1, Following(w, i, term));
    PerformsOne(w1, StepDown(i));
    PerformsBoth(w, w1, Following(w, i, term), i);
  }

  function Follows(v: Node, term: nat, leader: nat): Node {
    (if term > v.term then v.(term := term, votedFor := -1) else v).(leader := leader, role := Follower)
  }

  /** Following a new leader does not change where the log conflicts with a request. */
  lemma SameConflict(u: Node, u': Node, index: nat, term: nat)
    requires u'.logs == u.logs && u'.base == u.base
    ensures Conflict(u', index, term) == Conflict(u, index, term)
  {
    if u.base <= index < Len(u) { SameRun(u, u', index, At(u, index).term); }
  }

  lemma {:induction false} SameRun(u: Node, u': Node, index: nat, term: int)
    requires u'.logs == u.logs && u'.base == u.base && u.base <= index < Len(u)
    ensures BelowRun(u', index, term) == BelowRun(u, index, term)
  {
    if index > u.base && At(u, index).term == term { SameRun(u, u', index - 1, term); }
  }

  lemma FollowingMoves(w: World, sub: map<int, Submission>, i: nat, v: Node, awaiting: set<nat>, term: nat, leader: nat)
    requires Inv(w) && i < |w.peers| && RaftOk(w, i, v, awaiting) && OpsOk(w.elections, sub) && v.term <= term
    ensures Moves(w, Following(w, i, term), sub, i, v, Persist(Follows(v, term, leader)), awaiting)
    ensures term == v.term ==> Moves(w, Following(w, i, term), sub, i, v, Follows(v, term, leader), awaiting)
  {
    hide Core, ChosenOk, OpsOk, Held, Performs;
    FollowingKeeps(w, i, term);
    Resaved(w.peers[i], |w.peers|, i, v, Following(w, i, term).peers[i], Persist(Follows(v, term, leader)));
    if term == v.term {
      Resaved(w.peers[i], |w.peers|, i, v, Following(w, i, term).peers[i], Follows(v, term, leader));
    }
  }

  /** What a node knows to be committed is in the log of the leader it follows. */
  lemma KnownInLeader(w: World, i: nat, t: nat)
    requires Core(w) && i < |w.peers| && t in w.elections && w.peers[i].term <= t
    ensures Agree(w.peers[i].log, w.elections[t].log, w.peers[i].commit + 1)
    ensures LogOk(w.elections, w.peers[i].log) && LogOk(w.elections, w.elections[t].log)
  {
    assert PeerOk(w, i) && ElectionOk(w, t);
    KnownIsInherited(w, w.peers[i].log, w.peers[i].term, w.peers[i].commit + 1, t);
  }

  /** A peer that follows in a term with this log and has heard of this commit index. */
  ghost function FollowingPeer(p: Peer, term: nat, log: Log, commit: nat): Peer {
    p.(term := term, votedFor := if term > p.term then -1 else p.votedFor, role := Follower, counted := {},
       log := log, commit := if commit > p.commit then commit else p.commit)
  }

  /** Accepting the first m entries of the leader's log, and its word on what is committed. */
  ghost function Accepted(w: World, i: nat, t: nat, m: nat, commit: nat): World
    requires i < |w.peers| && t in w.elections && m <= |w.elections[t].log| && w.peers[i].term <= t
  {
    var w1 := Accept(Following(w, i, t), i, m);
    if commit > w1.peers[i].commit then Learn(w1, i, commit) else w1
  }

  lemma AcceptedKeeps(w: World, i: nat, t: nat, m: nat, commit: nat)
    requires Inv(w) && i < |w.peers| && t in w.elections && w.peers[i].term <= t
    requires 1 <= m <= |w.elections[t].log| && commit < m && CommittedBy(w.elections, t, w.elections[t].log, commit + 1)
    ensures var w' := Accepted(w, i, t, m, commit);
            && Inv(w') && Grows(w, w') && w'.elections == w.elections && w'.chosen == w.chosen
               && Backed(w'.acks, i, t, m)
            && |w'.peers| == |w.peers| && (forall j | 0 <= j < |w.peers| && j != i :: w'.peers[j] == w.peers[j])
            && w'.peers[i] == FollowingPeer(w.peers[i], t, Adopt(w.peers[i].log, w.elections[t].log, m), commit)
            && Agree(w.peers[i].log, w'.peers[i].log, w.peers[i].commit + 1)
            && Agree(w.elections[t].log, w'.peers[i].log, m) && Performs(w, w', i)
  {
    hide Core, ChosenOk, Grows, Adopt, Performs;
    var w0 := Following(w, i, t);
    FollowingKeeps(w, i, t);
    AcceptKeeps(w0, i, m);
    var w1 := Accept(w0, i, m);
    GrowsTransitive(w, w0, w1);
    PerformsAccept(w0, i, m);
    PerformsBoth(w, w0, w1, i);
    assert Ack(i, t, m) in w1.acks;
    if commit > w1.peers[i].commit {
      CommittedByLonger(w.elections, t, w.elections[t].log, w1.peers[i].log, commit + 1);
      LearnKeeps(w1, i, commit);
      GrowsTransitive(w, w1, Learn(w1, i, commit));
      PerformsLearn(w1, i, commit);
      PerformsBoth(w, w1, Learn(w1, i, commit), i);
    }
  }

  // ---------------------------------------------------------------- append requests

  /** From position k on, where log and leader's log agree before k, the scan keeps or adopts. */
  lemma {:induction false} MergeAdopts(E: Elections, log: Log, leaders: Log, v: Node, k: nat, entries: seq<Entry>)
    requires Held(log, v) && LogOk(E, log) && LogOk(E, leaders)
    requires v.base < k <= |log| && Agree(log, leaders, k) && k + |entries| <= |leaders|
    requires forall j | 0 <= j < |entries| :: entries[j] == leaders[k + j]
    ensures Scannable(v.logs, v.base, entries)
    ensures Held(Adopt(log, leaders, k + |entries|), v.(logs := Merge(v.logs, v.base, entries)))
    decreases |entries|
  {
    hide Held, Agree;
    if entries == [] {
      SameAdopted(log, leaders, k);
      assert v.(logs := v.logs) == v;
    } else {
      HeldAt(log, v, k);
      assert entries[0] == leaders[k] && leaders[k].index == k;
      if k < |log| && log[k].term == leaders[k].term {
        LogMatching(E, log, leaders, k);
        MergeAdopts(E, log, leaders, v, k + 1, entries[1..]);
      } else {
        Differ(log, leaders, k, k + |entries|);
        AdoptedLogs(log, leaders, v, k, entries);
        assert v.logs[..|v.logs|] == v.logs;
      }
    }
  }

  lemma HeldAt(log: Log, v: Node, k: nat)
    requires Held(log, v)
    ensures |log| == v.base + |v.logs|
    ensures v.base < k < |log| ==> v.logs[k - v.base] == log[k]
    ensures v.base <= k < |log| ==> v.logs[k - v.base].term == log[k].term
  {
  }

  /** Compaction: dropping the entries before `index` still holds the same log. */
  lemma HeldSuffix(log: Log, v: Node, index: nat)
    requires Held(log, v) && v.base < index < |log| && Consecutive(log, 0)
    ensures Held(log, v.(logs := v.logs[index - v.base..], base := index, baseTerm := log[index].term))
    ensures v.logs[index - v.base..][0] == log[index]
  {
  }

  lemma SameAdopted(log: Log, leaders: Log, k: nat)
    requires Agree(log, leaders, k)
    ensures Adopt(log, leaders, k) == log
  {
  }

  lemma Differ(log: Log, leaders: Log, k: nat, m: nat)
    requires k < m <= |leaders| && (k < |log| ==> log[k] != leaders[k])
    ensures Adopt(log, leaders, m) == leaders[..m]
  {
  }

  lemma AdoptedLogs(log: Log, leaders: Log, v: Node, k: nat, entries: seq<Entry>)
    requires Held(log, v) && v.base < k <= |log| && Agree(log, leaders, k) && k + |entries| <= |leaders|
    requires forall j | 0 <= j < |entries| :: entries[j] == leaders[k + j]
    ensures Held(leaders[..k + |entries|], v.(logs := v.logs[..k - v.base] + entries))
  {
  }

  lemma AppendRequestStep(w: World, s: System, m: Message) returns (w': World)
    requires Inv(w) && Rel(w, s) && m.AppendRequest? && Enabled(s, DeliverMessage(m)) && Safe(s, DeliverMessage(m))
    ensures Followed(w, w', After(s, DeliverMessage(m)), Place(DeliverMessage(m)))
  {
    hide Inv, Rel, Grows, RaftOk, ReaderOk, PendingOk, OpsOk, CanAppend, NodeModel.AppendEntries, AppendOk, Backed,
         Performs;
    var i, args := m.to, m.app;
    RelFacts(w, s, i);
    MsgFacts(w, s, m);
    var x := s.servers[i];
    w' := AppendMoves(w, s.submitted, i, x.raft, x.awaiting, args);
    var (v', reply) := NodeModel.AppendEntries(x.raft, args);
    RaftFrame(w, s, w', i, v', x.awaiting, {AppendAnswer(i, args, reply)});
  }

  lemma AppendMoves(w: World, sub: map<int, Submission>, i: nat, v: Node, awaiting: set<nat>, args: AppendArgs)
    returns (w': World)
    requires Inv(w) && i < |w.peers| && RaftOk(w, i, v, awaiting) && OpsOk(w.elections, sub) && AppendOk(w, args)
    requires CanAppend(v, args)
    ensures Moves(w, w', sub, i, v, NodeModel.AppendEntries(v, args).0, awaiting)
    ensures MsgOk(w', AppendAnswer(i, args, NodeModel.AppendEntries(v, args).1))
  {
    hide Core, ChosenOk, OpsOk, Held, CandidateOk, LeaderOk, Moves, Merge, Performs;
    if args.term < v.term {
      SeenMoves(w, sub, i, v, awaiting, 0);
      w' := w;
    } else if Conflict(v, args.prevIndex, args.prevTerm).Some? {
      FollowingMoves(w, sub, i, v, awaiting, args.term, args.leader);
      w' := Following(w, i, args.term);
      ConflictInLeader(w, i, v, args);
      FollowingKeeps(w, i, args.term);
      AppendOkStays(w, w', args);
    } else {
      w' := AcceptMoves(w, sub, i, v, awaiting, args);
    }
  }

  /** A reported conflict index lies inside the leader's log, even when it points past a snapshot. */
  lemma ConflictInLeader(w: World, i: nat, v: Node, args: AppendArgs)
    requires Core(w) && i < |w.peers| && NodeOk(w.peers[i], |w.peers|, i, v) && AppendOk(w, args) && v.term <= args.term
    requires Conflict(v, args.prevIndex, args.prevTerm).Some?
    ensures 1 <= Conflict(v, args.prevIndex, args.prevTerm).value.0 <= |w.elections[args.term].log|
  {
    hide Core;
    KnownInLeader(w, i, args.term);
  }

  lemma AcceptMoves(w: World, sub: map<int, Submission>, i: nat, v: Node, awaiting: set<nat>, args: AppendArgs)
    returns (w': World)
    requires Inv(w) && i < |w.peers| && RaftOk(w, i, v, awaiting) && OpsOk(w.elections, sub) && AppendOk(w, args)
    requires CanAppend(v, args) && v.term <= args.term && Conflict(v, args.prevIndex, args.prevTerm).None?
    ensures Moves(w, w', sub, i, v, NodeModel.AppendEntries(v, args).0, awaiting)
    ensures MsgOk(w', AppendAnswer(i, args, NodeModel.AppendEntries(v, args).1))
  {
    hide Core, ChosenOk, OpsOk, Grows, Merge, Adopt, Held, CommittedBy, LogOk, NodeOk, LeaderOk, CandidateOk, Backed,
         Accepted, NodeModel.AppendEntries, CanAppend, Conflict, Performs;
    var t, m := args.term, args.prevIndex + 1 + |args.entries|;
    var log, leaders := w.peers[i].log, w.elections[t].log;
    NodeHolds(w.peers[i], |w.peers|, i, v);
    AcceptedKeeps(w, i, t, m, args.leaderCommit);
    w' := Accepted(w, i, t, m, args.leaderCommit);
    AppendOkStays(w, w', args);
    KnownInLeader(w, i, t);
    PrevMatches(w, i, v, args);
    MergeAdopts(w.elections, log, leaders, v, args.prevIndex + 1, args.entries);
    AcceptedNode(w.peers[i], w'.peers[i], |w.peers|, i, v, args);
    AcceptedReply(v, args);
    FollowerOk(w', i, NodeModel.AppendEntries(v, args).0, awaiting);
  }

  lemma AcceptedReply(v: Node, args: AppendArgs)
    requires CanAppend(v, args) && v.term <= args.term && Conflict(v, args.prevIndex, args.prevTerm).None?
    ensures Scannable(v.logs, v.base, args.entries)
    ensures var v1 := Follows(v, args.term, args.leader).(logs := Merge(v.logs, v.base, args.entries));
            && 1 <= |v1.logs|
            && NodeModel.AppendEntries(v, args) ==
               (Persist(LearnCommit(v1, args.leaderCommit)), AppendReply(v.term, true, 0, 0))
  {
    hide Merge;
  }

  lemma FollowerOk(w: World, i: nat, v: Node, awaiting: set<nat>)
    requires i < |w.peers| && NodeOk(w.peers[i], |w.peers|, i, v) && v.role.Follower?
    ensures RaftOk(w, i, v, awaiting)
  {
  }

  lemma NodeHolds(p: Peer, n: nat, i: nat, v: Node)
    requires NodeOk(p, n, i, v)
    ensures Held(p.log, v) && v.term == p.term && v.votedFor == p.votedFor
  {
  }

  lemma PrevMatches(w: World, i: nat, v: Node, args: AppendArgs)
    requires i < |w.peers| && Held(w.peers[i].log, v) && AppendOk(w, args)
    requires Conflict(v, args.prevIndex, args.prevTerm).None?
    requires LogOk(w.elections, w.peers[i].log) && LogOk(w.elections, w.elections[args.term].log)
    ensures v.base <= args.prevIndex < |w.peers[i].log|
    ensures Agree(w.peers[i].log, w.elections[args.term].log, args.prevIndex + 1)
  {
    var log := w.peers[i].log;
    assert At(v, args.prevIndex).term == log[args.prevIndex].term by {
      if args.prevIndex > v.base { assert v.logs[args.prevIndex - v.base] == log[args.prevIndex]; }
    }
    LogMatching(w.elections, log, w.elections[args.term].log, args.prevIndex);
  }

  lemma AcceptedNode(p: Peer, p': Peer, n: nat, i: nat, v: Node, args: AppendArgs)
    requires NodeOk(p, n, i, v) && CanAppend(v, args) && v.term <= args.term
    requires Conflict(v, args.prevIndex, args.prevTerm).None?
    requires Held(p'.log, v.(logs := Merge(v.logs, v.base, args.entries)))
    requires Agree(p.log, p'.log, p.commit + 1) && args.leaderCommit < |p'.log|
    requires p' == FollowingPeer(p, args.term, p'.log, args.leaderCommit)
    ensures NodeOk(p', n, i, NodeModel.AppendEntries(v, args).0)
  {
    hide Merge, NodeModel.AppendEntries, CanAppend, Conflict;
    AcceptedReply(v, args);
    SnapshotSame(p.log, p'.log, v.base);
  }

  // ---------------------------------------------------------------- snapshots

  lemma SnapshotRequestStep(w: World, s: System, m: Message) returns (w': World)
    requires Inv(w) && Rel(w, s) && m.SnapshotRequest? && Enabled(s, DeliverMessage(m)) && Safe(s, DeliverMessage(m))
    ensures Followed(w, w', After(s, DeliverMessage(m)), Place(DeliverMessage(m)))
  {
    hide Inv, Rel, Grows, RaftOk, ReaderOk, PendingOk, OpsOk, Valid, InstallSnapshot, SnapOk, Backed, Performs;
    var i, args := m.to, m.snap;
    RelFacts(w, s, i);
    MsgFacts(w, s, m);
    var x := s.servers[i];
    w' := InstallMoves(w, s.submitted, i, x.raft, x.awaiting, args);
    var (v', reply) := InstallSnapshot(x.raft, args);
    RaftFrame(w, s, w', i, v', x.awaiting, {SnapshotAnswer(i, args, reply)});
  }

  lemma InstallMoves(w: World, sub: map<int, Submission>, i: nat, v: Node, awaiting: set<nat>, args: SnapshotArgs)
    returns (w': World)
    requires Inv(w) && i < |w.peers| && RaftOk(w, i, v, awaiting) && OpsOk(w.elections, sub) && SnapOk(w, args)
    ensures Moves(w, w', sub, i, v, InstallSnapshot(v, args).0, awaiting)
    ensures MsgOk(w', SnapshotAnswer(i, args, InstallSnapshot(v, args).1))
  {
    hide Inv, OpsOk, Moves, NodeOk, LeaderOk, CandidateOk, Performs;
    if args.term < v.term {
      SeenMoves(w, sub, i, v, awaiting, 0);
      w' := w;
    } else {
      w' := CurrentSnapshotMoves(w, sub, i, v, awaiting, args);
    }
  }

  lemma CurrentSnapshotMoves(w: World, sub: map<int, Submission>, i: nat, v: Node, awaiting: set<nat>,
          args: SnapshotArgs) returns (w': World)
    requires Inv(w) && i < |w.peers| && RaftOk(w, i, v, awaiting) && OpsOk(w.elections, sub) && SnapOk(w, args)
    requires v.term <= args.term
    ensures Moves(w, w', sub, i, v, InstallSnapshot(v, args).0, awaiting)
    ensures MsgOk(w', SnapshotAnswer(i, args, InstallSnapshot(v, args).1))
  {
    hide Core, ChosenOk, OpsOk, Grows, Adopt, Held, CommittedBy, SnapshotOf, LogOk, NodeOk, LeaderOk, CandidateOk,
         TruncateWithSnapshot, Backed, Accepted, Performs;
    NodeHolds(w.peers[i], |w.peers|, i, v);
    var t := args.term;
    KnownInLeader(w, i, t);
    AcceptedKeeps(w, i, t, args.lastIndex + 1, args.lastIndex);
    w' := Accepted(w, i, t, args.lastIndex + 1, args.lastIndex);
    SnapOkStays(w, w', args);
    InstalledNode(w.elections, w.peers[i], w'.peers[i], w.elections[t].log, |w.peers|, i, v, args);
    FollowerOk(w', i, InstallSnapshot(v, args).0, awaiting);
  }

  /** Either the log already has the snapshot's last entry and keeps what follows, or it is replaced. */
  lemma InstalledNode(E: Elections, p: Peer, p': Peer, leaders: Log, n: nat, i: nat, v: Node, args: SnapshotArgs)
    requires NodeOk(p, n, i, v) && v.term <= args.term
    requires LogOk(E, p.log) && LogOk(E, leaders) && Agree(p.log, leaders, p.commit + 1)
    requires args.lastIndex < |leaders| && args.lastTerm == leaders[args.lastIndex].term
    requires args.data == SnapshotOf(leaders, args.lastIndex)
    requires p'.log == Adopt(p.log, leaders, args.lastIndex + 1) && Agree(p.log, p'.log, p.commit + 1)
    requires p' == FollowingPeer(p, args.term, p'.log, args.lastIndex)
    ensures NodeOk(p', n, i, InstallSnapshot(v, args).0)
  {
    hide SnapshotOf, LogOk, Agree, Held, InstallSnapshot;
    AgreeBounds(p.log, p'.log, p.commit + 1);
    if args.lastIndex <= v.base {
      Shorter(p.log, leaders, p.commit + 1, args.lastIndex + 1);
      SameAdopted(p.log, leaders, args.lastIndex + 1);
      IgnoredSnapshot(p, p', n, i, v, args);
    } else {
      InstalledLog(E, p.log, leaders, v, args);
      AdoptedSnapshot(p, p', n, i, v, args);
    }
  }

  lemma IgnoredSnapshot(p: Peer, p': Peer, n: nat, i: nat, v: Node, args: SnapshotArgs)
    requires NodeOk(p, n, i, v) && v.term <= args.term && args.lastIndex <= v.base
    requires p' == FollowingPeer(p, args.term, p.log, args.lastIndex)
    ensures NodeOk(p', n, i, InstallSnapshot(v, args).0)
  {
    hide Held;
    HeldSame(p.log, v, InstallSnapshot(v, args).0);
  }

  lemma AdoptedSnapshot(p: Peer, p': Peer, n: nat, i: nat, v: Node, args: SnapshotArgs)
    requires NodeOk(p, n, i, v) && v.term <= args.term && v.base < args.lastIndex < |p'.log| && p.commit < |p'.log|
    requires Held(p'.log, Installed(v, args)) && args.data == SnapshotOf(p'.log, args.lastIndex)
    requires p' == FollowingPeer(p, args.term, p'.log, args.lastIndex)
    ensures NodeOk(p', n, i, InstallSnapshot(v, args).0)
  {
    hide Held, SnapshotOf, TruncateWithSnapshot;
    SameTruncation(v, FirstSaveOfInstall(v, args).(leader := args.leader, role := Follower), args);
    HeldSame(p'.log, Installed(v, args), InstallSnapshot(v, args).0);
  }

  lemma SameTruncation(v: Node, v': Node, args: SnapshotArgs)
    requires v'.logs == v.logs && v'.base == v.base && v.base <= args.lastIndex
    ensures TruncateWithSnapshot(v', args.lastIndex, args.lastTerm) ==
            TruncateWithSnapshot(v, args.lastIndex, args.lastTerm)
  {
  }

  function Installed(v: Node, args: SnapshotArgs): Node
    requires v.base <= args.lastIndex
  {
    v.(logs := TruncateWithSnapshot(v, args.lastIndex, args.lastTerm), base := args.lastIndex,
      baseTerm := args.lastTerm)
  }

  lemma InstalledLog(E: Elections, log: Log, leaders: Log, v: Node, args: SnapshotArgs)
    requires Held(log, v) && LogOk(E, log) && LogOk(E, leaders) && v.base < args.lastIndex
    requires args.lastIndex < |leaders| && args.lastTerm == leaders[args.lastIndex].term
    requires args.data == SnapshotOf(leaders, args.lastIndex)
    ensures var log' := Adopt(log, leaders, args.lastIndex + 1);
            args.lastIndex < |log'| && Held(log', Installed(v, args)) && SnapshotOf(log', args.lastIndex) == args.data
  {
    hide SnapshotOf, LogOk, Agree, Held;
    HeldAt(log, v, args.lastIndex);
    if args.lastIndex < Len(v) && At(v, args.lastIndex).term == args.lastTerm {
      LogMatching(E, log, leaders, args.lastIndex);
      SameAdopted(log, leaders, args.lastIndex + 1);
      Symmetric(log, leaders, args.lastIndex + 1);
      LogIsIndexed(E, log);
      HeldSuffix(log, v, args.lastIndex);
      SnapshotSame(leaders, log, args.lastIndex);
    } else {
      Differ(log, leaders, args.lastIndex, args.lastIndex + 1);
      Prefix(leaders, args.lastIndex + 1);
      SnapshotSame(leaders, leaders[..args.lastIndex + 1], args.lastIndex);
      HeldAlone(leaders, Installed(v, args), args.lastIndex);
    }
  }

  lemma LogIsIndexed(E: Elections, log: Log)
    requires LogOk(E, log)
    ensures Consecutive(log, 0)
  {
  }

  /** Holding a log is about the log and its offset only. */
  lemma HeldSame(log: Log, v: Node, v': Node)
    requires Held(log, v) && v'.logs == v.logs && v'.base == v.base && v'.baseTerm == v.baseTerm
    ensures Held(log, v')
  {
  }

  lemma HeldAlone(log: Log, v: Node, index: nat)
    requires index < |log| && v.base == index && v.baseTerm == log[index].term
    requires v.logs == [Entry(index, log[index].term, NoCommand)]
    ensures Held(log[..index + 1], v)
  {
  }

  lemma Shorter(a: Log, b: Log, k: nat, j: nat)
    requires Agree(a, b, k) && j <= k
    ensures Agree(a, b, j)
  {
  }

  lemma Symmetric(a: Log, b: Log, k: nat)
    requires Agree(a, b, k)
    ensures Agree(b, a, k)
  {
  }

  lemma Prefix(a: Log, k: nat)
    requires k <= |a|
    ensures Agree(a, a[..k], k)
  {
  }

  lemma AgreeBounds(a: Log, b: Log, k: nat)
    requires Agree(a, b, k)
    ensures k <= |a| && k <= |b|
  {
  }

  // ---------------------------------------------------------------- the leader's side

  /** A leader's log is its election's log. */
  lemma LeadersLog(w: World, i: nat, v: Node)
    requires Core(w) && i < |w.peers| && NodeOk(w.peers[i], |w.peers|, i, v) && v.role.Leader?
    ensures 0 < v.term && v.term in w.elections && w.elections[v.term].leader == i
    ensures w.elections[v.term].log == w.peers[i].log
    ensures CommittedBy(w.elections, v.term, w.peers[i].log, v.commit + 1) && |w.peers[i].log| == Len(v)
  {
    assert PeerOk(w, i);
    CommittedByShorter(w.elections, v.term, v.term, w.peers[i].log, w.peers[i].commit + 1, v.commit + 1);
  }

  lemma ReplicateStep(w: World, s: System, i: nat, peer: nat) returns (w': World)
    requires Inv(w) && Rel(w, s) && Enabled(s, Replicate(i, peer)) && Safe(s, Replicate(i, peer))
    ensures Followed(w, w', After(s, Replicate(i, peer)), i) && w' == w
  {
    hide Core, ChosenOk, Rel, Grows, NodeOk, LeaderOk, CandidateOk, ReaderOk, PendingOk, OpsOk, AppendOk, SnapOk,
         Performs;
    w' := w;
    RelFacts(w, s, i);
    var v := s.servers[i].raft;
    NodeIsValid(w, i, v);
    RequestQuotes(w, i, v);
    var m := if v.next[peer] <= v.base then SnapshotRequest(peer, SnapshotArgsFor(v))
             else AppendRequest(peer, AppendArgsFor(v, v.next[peer] - 1));
    SeenMoves(w, s.submitted, i, v, s.servers[i].awaiting, 0);
    RaftFrame(w, s, w, i, v, s.servers[i].awaiting, {m});
    assert SetServer(s, i, s.servers[i].(raft := v, awaiting := s.servers[i].awaiting)) == s;
  }

  lemma RequestQuotes(w: World, i: nat, v: Node)
    requires Core(w) && i < |w.peers| && NodeOk(w.peers[i], |w.peers|, i, v) && v.role.Leader?
    ensures SnapOk(w, SnapshotArgsFor(v))
    ensures forall prev: nat | v.base <= prev < Len(v) :: AppendOk(w, AppendArgsFor(v, prev))
  {
    hide Core;
    LeadersLog(w, i, v);
    CommittedByShorter(w.elections, v.term, v.term, w.peers[i].log, v.commit + 1, v.base + 1);
    forall prev: nat | v.base <= prev < Len(v) ensures AppendOk(w, AppendArgsFor(v, prev)) {
      HeldAt(w.peers[i].log, v, prev);
    }
  }

  lemma AppendAnswerStep(w: World, s: System, m: Message) returns (w': World)
    requires Inv(w) && Rel(w, s) && m.AppendAnswer? && Enabled(s, DeliverMessage(m)) && Safe(s, DeliverMessage(m))
    ensures Followed(w, w', After(s, DeliverMessage(m)), Place(DeliverMessage(m)))
  {
    hide Inv, Rel, Grows, RaftOk, ReaderOk, PendingOk, OpsOk, Valid, HandleAppendReply, MsgOk, Performs;
    var i := m.app.leader;
    RelFacts(w, s, i);
    MsgFacts(w, s, m);
    var x := s.servers[i];
    w' := AppendReplyMoves(w, s.submitted, i, x.raft, x.awaiting, m);
    RaftFrame(w, s, w', i, HandleAppendReply(x.raft, m.src, m.app, m.appReply), x.awaiting, {});
    assert s.net + {} == s.net;
  }

  lemma AppendReplyMoves(w: World, sub: map<int, Submission>, i: nat, v: Node, awaiting: set<nat>, m: Message)
    returns (w': World)
    requires Inv(w) && i < |w.peers| && RaftOk(w, i, v, awaiting) && OpsOk(w.elections, sub)
    requires m.AppendAnswer? && MsgOk(w, m) && m.app.leader == i
    requires Valid(v) && m.src < v.peers && CanHandle(v, m.app, m.appReply)
    ensures Moves(w, w', sub, i, v, HandleAppendReply(v, m.src, m.app, m.appReply), awaiting)
  {
    hide Core, ChosenOk, OpsOk, Held, Moves, Valid, NodeOk, LeaderOk, CandidateOk, Resolve, UpdateCommit, AdvancePeer,
         Backed, Performs;
    NodeTerm(w.peers[i], |w.peers|, i, v);
    SeenMoves(w, sub, i, v, awaiting, m.appReply.term);
    w' := Seen(w, i, m.appReply.term);
    if m.appReply.term <= v.term && v.role.Leader? && v.term == m.app.term {
      LeadersLog(w, i, v);
      if m.appReply.success {
        w' := MatchMoves(w, sub, i, v, awaiting, m.src, m.app);
      } else {
        ResolveMoves(w, sub, i, v, awaiting, m.src, m.app, m.appReply);
      }
    }
  }

  lemma NodeTerm(p: Peer, n: nat, i: nat, v: Node)
    requires NodeOk(p, n, i, v)
    ensures v.term == p.term && v.role == p.role
  {
  }

  /** A change of the leader's indices alone. */
  lemma IndicesMove(w: World, sub: map<int, Submission>, i: nat, v: Node, awaiting: set<nat>, v': Node)
    requires Inv(w) && i < |w.peers| && RaftOk(w, i, v, awaiting) && OpsOk(w.elections, sub) && v.role.Leader?
    requires v' == v.(next := v'.next, matched := v'.matched) && |v'.next| == |v.next| && |v'.matched| == |v.matched|
    requires forall q | 0 <= q < |v.next| :: v'.next[q] == v.next[q] || 1 <= v'.next[q] <= Len(v)
    requires forall q | 0 <= q < |v.matched| ::
               v'.matched[q] == v.matched[q] || Backed(w.acks, q, v.term, v'.matched[q] + 1)
    ensures Moves(w, w, sub, i, v, v', awaiting)
  {
    hide Core, ChosenOk, OpsOk, Backed, Performs;
    GrowsSelf(w);
    PerformsNothing(w, i);
    HeldSame(w.peers[i].log, v, v');
  }

  lemma ResolveMoves(w: World, sub: map<int, Submission>, i: nat, v: Node, awaiting: set<nat>, src: nat,
          args: AppendArgs, reply: AppendReply)
    requires Inv(w) && i < |w.peers| && RaftOk(w, i, v, awaiting) && OpsOk(w.elections, sub) && v.role.Leader?
    requires src < v.peers && CanResolve(v, args, reply) && 1 <= reply.conflictIndex <= Len(v)
    ensures src < |v.next| && Moves(w, w, sub, i, v, Resolve(v, src, args, reply), awaiting)
  {
    hide Core, ChosenOk, OpsOk, Moves, LeaderOk, CandidateOk, Held, FindLast, Performs;
    IndicesMove(w, sub, i, v, awaiting, Resolve(v, src, args, reply));
  }

  lemma MatchMoves(w: World, sub: map<int, Submission>, i: nat, v: Node, awaiting: set<nat>, src: nat,
          args: AppendArgs) returns (w': World)
    requires Inv(w) && i < |w.peers| && RaftOk(w, i, v, awaiting) && OpsOk(w.elections, sub) && v.role.Leader?
    requires src < v.peers && args.prevIndex + 1 + |args.entries| <= Len(v)
    requires Backed(w.acks, src, v.term, args.prevIndex + 1 + |args.entries|)
    ensures src < |v.next| && src < |v.matched| && 1 <= |v.logs| && v.base <= v.commit
    ensures Moves(w, w', sub, i, v, UpdateCommit(AdvancePeer(v, src, args)), awaiting)
  {
    hide Core, ChosenOk, OpsOk, LeaderOk, CandidateOk, Held, Backed, Agree, Grows, UpdateCommit, Performs;
    var v1 := AdvancePeer(v, src, args);
    IndicesMove(w, sub, i, v, awaiting, v1);
    w' := CommitMoves(w, sub, i, v1, awaiting);
  }

  lemma CommitMoves(w: World, sub: map<int, Submission>, i: nat, v: Node, awaiting: set<nat>) returns (w': World)
    requires Inv(w) && i < |w.peers| && RaftOk(w, i, v, awaiting) && OpsOk(w.elections, sub) && v.role.Leader?
    ensures 1 <= |v.logs| && v.base <= v.commit && Moves(w, w', sub, i, v, UpdateCommit(v), awaiting)
  {
    hide Inv, OpsOk, LeaderOk, CandidateOk, Moves, CommitPoint, Performs;
    assert NodeOk(w.peers[i], |w.peers|, i, v);
    var n := CommitPoint(v, Len(v) - 1);
    if n == v.commit {
      SeenMoves(w, sub, i, v, awaiting, 0);
      assert UpdateCommit(v) == v;
      w' := w;
    } else {
      w' := CountedMoves(w, sub, i, v, awaiting, n);
    }
  }

  /** The nodes that are counted, as a set. */
  ghost function Holders(matched: seq<nat>, me: nat, index: nat, n: nat): (s: set<nat>)
    requires n <= |matched|
    ensures forall q :: q in s <==> 0 <= q < n && q != me && matched[q] >= index
    ensures |s| == CountMatches(matched, me, index, n)
  {
    if n == 0 then {}
    else if n - 1 != me && matched[n - 1] >= index then Holders(matched, me, index, n - 1) + {n - 1}
    else Holders(matched, me, index, n - 1)
  }

  /** Whoever is counted at an index above the commit index has acknowledged it in this term. */
  lemma CountedMatchesAreReal(w: World, i: nat, v: Node, n: nat) returns (q: set<nat>)
    requires i < |w.peers| && NodeOk(w.peers[i], |w.peers|, i, v) && LeaderOk(w, i, v) && v.role.Leader?
    requires v.commit < n && NodesWithLogAt(v, n) > v.peers / 2 && Ack(i, v.term, Len(v)) in w.acks && n < Len(v)
    ensures Quorum(q, |w.peers|) && forall x | x in q :: Backed(w.acks, x, v.term, n + 1)
  {
    var others := Holders(v.matched, v.me, n, |v.matched|);
    q := others + {i};
    assert |q| == NodesWithLogAt(v, n);
    forall x | x in q ensures Backed(w.acks, x, v.term, n + 1) {
      if x != i {
        var a :| a in w.acks && a.node == x && a.term == v.term && v.matched[x] + 1 <= a.len;
      }
    }
  }

  lemma CountedMoves(w: World, sub: map<int, Submission>, i: nat, v: Node, awaiting: set<nat>, n: nat)
    returns (w': World)
    requires Inv(w) && i < |w.peers| && RaftOk(w, i, v, awaiting) && OpsOk(w.elections, sub) && v.role.Leader?
    requires v.commit < n < Len(v) && At(v, n).term == v.term && NodesWithLogAt(v, n) > v.peers / 2
    ensures Moves(w, w', sub, i, v, v.(commit := n), awaiting)
  {
    hide Core, ChosenOk, OpsOk, LeaderOk, CandidateOk, Held, Grows, Adopt, CommittedBy, Agree, NodesWithLogAt,
         CountMatches, Quorum, Backed, Performs;
    var p, t := w.peers[i], v.term;
    LeadersLog(w, i, v);
    HeldAt(p.log, v, n);
    SelfAgree(p.log);
    AcceptKeeps(w, i, Len(v));
    var w1 := Accept(w, i, Len(v));
    SameAdopted(p.log, w.elections[t].log, Len(v));
    PerformsAccept(w, i, Len(v));
    LeaderStays(w, w1, i, v);
    var q := CountedMatchesAreReal(w1, i, v, n);
    var w2 := w1;
    GrowsSelf(w1);
    PerformsNothing(w1, i);
    if w1.elections[t].committed < n + 1 {
      CommitKeeps(w1, i, n + 1, q);
      w2 := Commit(w1, i, n + 1, q);
      PerformsCommit(w1, i, n + 1, q);
      SameOps(w1.elections, w2.elections, t, sub);
    }
    GrowsTransitive(w, w1, w2);
    PerformsBoth(w, w1, w2, i);
    w' := w2;
    if n > p.commit {
      OwnCommitted(w2.elections, t, p.log, n + 1);
      LearnKeeps(w2, i, n);
      w' := Learn(w2, i, n);
      GrowsTransitive(w, w2, w');
      PerformsLearn(w2, i, n);
      PerformsBoth(w, w2, w', i);
    }
    CommittedNode(w, w', i, v, n, awaiting);
  }

  lemma SameOps(E: Elections, E': Elections, t: nat, sub: map<int, Submission>)
    requires OpsOk(E, sub) && t in E && t in E' && E' == E[t := E'[t]] && E'[t].log == E[t].log
    ensures OpsOk(E', sub)
  {
  }

  lemma OwnCommitted(E: Elections, t: nat, log: Log, len: nat)
    requires t in E && E[t].log == log && len <= E[t].committed && len <= |log|
    ensures CommittedBy(E, t, log, len)
  {
  }

  lemma CommittedNode(w: World, w': World, i: nat, v: Node, n: nat, awaiting: set<nat>)
    requires i < |w.peers| && |w'.peers| == |w.peers| && RaftOk(w, i, v, awaiting) && v.role.Leader?
    requires v.commit < n < Len(v)
    requires w'.peers[i] == w.peers[i].(commit := if n > w.peers[i].commit then n else w.peers[i].commit)
    requires w.acks <= w'.acks
    ensures RaftOk(w', i, v.(commit := n), awaiting)
    ensures Agree(w.peers[i].log, w'.peers[i].log, w.peers[i].commit + 1)
  {
    hide Backed, Held;
    HeldSame(w.peers[i].log, v, v.(commit := n));
    LeaderStays(w, w', i, v);
  }

  lemma SnapshotAnswerStep(w: World, s: System, m: Message) returns (w': World)
    requires Inv(w) && Rel(w, s) && m.SnapshotAnswer? && Enabled(s, DeliverMessage(m)) && Safe(s, DeliverMessage(m))
    ensures Followed(w, w', After(s, DeliverMessage(m)), Place(DeliverMessage(m)))
  {
    hide Inv, Rel, Grows, RaftOk, ReaderOk, PendingOk, OpsOk, HandleSnapshotReply, MsgOk, Performs;
    var i := m.snap.leader;
    RelFacts(w, s, i);
    MsgFacts(w, s, m);
    var x := s.servers[i];
    w' := SnapshotReplyMoves(w, s.submitted, i, x.raft, x.awaiting, m);
    RaftFrame(w, s, w', i, HandleSnapshotReply(x.raft, m.src, m.snap, m.snapReply), x.awaiting, {});
    assert s.net + {} == s.net;
  }

  lemma SnapshotReplyMoves(w: World, sub: map<int, Submission>, i: nat, v: Node, awaiting: set<nat>, m: Message)
    returns (w': World)
    requires Inv(w) && i < |w.peers| && RaftOk(w, i, v, awaiting) && OpsOk(w.elections, sub)
    requires m.SnapshotAnswer? && MsgOk(w, m) && m.snap.leader == i && m.src < |v.next| && m.src < |v.matched|
    ensures Moves(w, w', sub, i, v, HandleSnapshotReply(v, m.src, m.snap, m.snapReply), awaiting)
  {
    hide Core, ChosenOk, OpsOk, Held, Moves, NodeOk, LeaderOk, CandidateOk, Backed, SnapshotOf, CommittedBy, Performs;
    NodeTerm(w.peers[i], |w.peers|, i, v);
    SeenMoves(w, sub, i, v, awaiting, m.snapReply.term);
    w' := Seen(w, i, m.snapReply.term);
    if m.snapReply.term <= v.term && v.role.Leader? && v.term == m.snap.term {
      LeadersLog(w, i, v);
      w' := w;
      IndicesMove(w, sub, i, v, awaiting, HandleSnapshotReply(v, m.src, m.snap, m.snapReply));
    }
  }
}
