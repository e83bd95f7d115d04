/** Every run of the cluster is a run of the protocol, and no enabled step leaves its slices. */
module Runs {
  import opened Types
  import opened StoreModel
  import opened NodeModel
  import opened SystemModel
  import opened Protocol
  import opened Behaviour
  import opened Actions
  import opened Relation
  import opened ElectionSteps
  import opened ReplicationSteps
  import opened ServiceSteps

  // ---------------------------------------------------------------- the start

  ghost function FirstWorld(n: nat): World {
    World(seq(n, _ => Peer(0, -1, Follower, [Sentinel], 0, {})),
          map[0 := Election(0, {}, [Sentinel], [Sentinel], 1, {})], map[], {}, {}, [Sentinel])
  }

  lemma FirstWorldOk(n: nat)
    ensures Inv(FirstWorld(n))
  {
    var w := FirstWorld(n);
    assert ElectionOk(w, 0);
    forall i | 0 <= i < n ensures PeerOk(w, i) {
      var p := w.peers[i];
      assert 0 in w.elections && Agree(p.log, w.elections[0].log, 1);
    }
    assert 0 in w.elections && |w.chosen| == w.elections[0].committed;
  }

  lemma FirstRel(s: System)
    requires Init(s)
    ensures Rel(FirstWorld(|s.servers|), s)
  {
    var n := |s.servers|;
    var w := FirstWorld(n);
    forall i | 0 <= i < n ensures ServerOk(w, s.submitted, i, s.servers[i]) {
      FirstServerOk(w, s.submitted, i, n);
    }
  }

  lemma FirstServerOk(w: World, sub: map<int, Submission>, i: nat, n: nat)
    requires w == FirstWorld(n) && i < n
    ensures ServerOk(w, sub, i, Boot(i, n, Disk(None, None)))
  {
    var log := [Sentinel];
    assert Replay(log, 1) == StoreModel.Run(Replay(log, 0), log[0].cmd);
  }

  // ---------------------------------------------------------------- one step

  /** In a related state whatever is enabled is safe: no handler indexes or slices out of range. */
  lemma NoPanic(w: World, s: System, e: Event)
    requires Inv(w) && Rel(w, s) && Enabled(s, e)
    ensures Safe(s, e)
  {
    hide Core, ChosenOk, Rel, ReaderOk, PendingOk, CandidateOk, Held, OpsOk;
    var i := Place(e);
    RelFacts(w, s, i);
    var v := s.servers[i].raft;
    NodeIsValid(w, i, v);
    if e.DeliverMessage? {
      MsgFacts(w, s, e.m);
      MessageSafe(w, i, v, e.m);
    }
  }

  lemma MessageSafe(w: World, i: nat, v: Node, m: Message)
    requires Inv(w) && i < |w.peers| && NodeOk(w.peers[i], |w.peers|, i, v) && MsgOk(w, m) && Valid(v)
    ensures m.AppendRequest? ==> CanAppend(v, m.app)
    ensures m.AppendAnswer? && m.app.leader == i && v.role.Leader? && v.term == m.app.term ==> m.app.prevIndex < Len(v)
    ensures !m.VoteRequest? && !m.AppendRequest? && !m.SnapshotRequest? ==> m.src < v.peers
  {
    hide Core, ChosenOk, Held, CommittedBy, LogOk;
    if m.AppendRequest? {
      ElectionFacts(w, m.app.term);
      LogIsIndexed(w.elections, w.elections[m.app.term].log);
      if v.base <= m.app.prevIndex { ConsecutiveScans(v.logs, v.base, m.app.entries, m.app.prevIndex + 1); }
    } else if m.AppendAnswer? && m.app.leader == i && v.role.Leader? && v.term == m.app.term {
      LeadersLog(w, i, v);
    }
  }

  /** Sending, applying, answering and compacting change nothing of the protocol. */
  predicate Stutters(e: Event) {
    e.Replicate? || e.Apply? || e.TakeSnapshotMsg? || e.TakeCommand? || e.Notify? || e.GiveUp?
  }

  /** Every step of a server is a sequence of actions of its node on the uncompacted logs. */
  lemma Simulates(w: World, s: System, e: Event) returns (w': World)
    requires Inv(w) && Rel(w, s) && Enabled(s, e) && Safe(s, e)
    ensures Followed(w, w', After(s, e), Place(e))
    ensures Stutters(e) ==> w' == w
  {
    hide Inv, Rel, Grows, RaftOk, ReaderOk, PendingOk, Performs;
    GrowsSelf(w);
    PerformsNothing(w, Place(e));
    match e
    case Timeout(i) => w' := TimeoutStep(w, s, i);
    case Crash(i) => w' := CrashStep(w, s, i, s.servers[i].raft.disk);
    case CrashInCampaign(i) => w' := CrashStep(w, s, i, FirstSaveOfCampaign(s.servers[i].raft).disk);
    case CrashInInstall(m) => w' := CrashStep(w, s, m.to, FirstSaveOfInstall(s.servers[m.to].raft, m.snap).disk);
    case DeliverMessage(m) => w' := MessageStep(w, s, m);
    case Replicate(i, peer) => w' := ReplicateStep(w, s, i, peer);
    case Submit(i, id, req) => w' := SubmitStep(w, s, i, id, req);
    case Apply(i) => ApplyStep(w, s, i); w' := w;
    case TakeSnapshotMsg(i, isLeader, term) => TakeSnapshotStep(w, s, i, isLeader, term); w' := w;
    case TakeCommand(i) => TakeCommandStep(w, s, i); w' := w;
    case Notify(i, was, now, term, compact) => NotifyStep(w, s, i, was, now, term, compact); w' := w;
    case GiveUp(i, index) => GiveUpStep(w, s, i, index); w' := w;
  }

  lemma MessageStep(w: World, s: System, m: Message) returns (w': World)
    requires Inv(w) && Rel(w, s) && Enabled(s, DeliverMessage(m)) && Safe(s, DeliverMessage(m))
    ensures Followed(w, w', After(s, DeliverMessage(m)), Place(DeliverMessage(m)))
  {
    hide Inv, Rel, Grows, Performs;
    match m
    case VoteRequest(_, _) => w' := VoteRequestStep(w, s, m);
    case VoteAnswer(_, _, _) => w' := VoteAnswerStep(w, s, m);
    case AppendRequest(_, _) => w' := AppendRequestStep(w, s, m);
    case AppendAnswer(_, _, _) => w' := AppendAnswerStep(w, s, m);
    case SnapshotRequest(_, _) => w' := SnapshotRequestStep(w, s, m);
    case SnapshotAnswer(_, _, _) => w' := SnapshotAnswerStep(w, s, m);
  }

  /** Whatever was saved last, between or inside handlers, is enough to start again from. */
  lemma CrashStep(w: World, s: System, i: nat, disk: Disk) returns (w': World)
    requires Inv(w) && Rel(w, s) && i < |s.servers|
    requires var v := s.servers[i].raft;
             || disk == v.disk || disk == FirstSaveOfCampaign(v).disk
             || exists args :: disk == FirstSaveOfInstall(v, args).disk
    ensures Followed(w, w', SetServer(s, i, Boot(s.servers[i].raft.me, s.servers[i].raft.peers, disk)), i)
  {
    hide Inv, Rel, Grows, LeaderOk, CandidateOk, ReaderOk, PendingOk, Held, Performs;
    RelFacts(w, s, i);
    w' := BootStep(w, s, i, disk);
  }

  // ---------------------------------------------------------------- runs

  /** Some node has known index n to be committed at or before state k (every node knows index 0). */
  ghost predicate Reached(run: seq<System>, k: nat, n: int)
    requires k < |run|
  {
    n == 0 || exists j, i :: 0 <= j <= k && 0 <= i < |run[j].servers| && run[j].servers[i].raft.commit == n
  }

  /** A step of the cluster, and what its server's node does in the protocol meanwhile. */
  ghost predicate Matched(w: World, w': World, s: System, s': System) {
    exists e :: Enabled(s, e) && Safe(s, e) && s' == After(s, e)
                && Performs(w, w', Place(e)) && (Stutters(e) ==> w' == w)
  }

  /** A run of the protocol behind a run of the cluster: it starts where the protocol starts, goes on by the
      actions of the nodes whose servers take the steps, and stays related. */
  ghost predicate AreBehind(ws: seq<World>, run: seq<System>) {
    && |ws| == |run| && 0 < |run| && ws[0] == FirstWorld(|run[0].servers|)
    && (forall k | 0 < k < |run| :: Matched(ws[k - 1], ws[k], run[k - 1], run[k]))
    && (forall k | 0 <= k < |run| :: Inv(ws[k]) && Rel(ws[k], run[k]) && Reached(run, k, |ws[k].chosen| - 1))
    && (forall j, k | 0 <= j <= k < |run| :: Grows(ws[j], ws[k]))
  }

  lemma {:induction false} Behind(run: seq<System>) returns (ws: seq<World>)
    requires IsRun(run)
    ensures AreBehind(ws, run)
    decreases |run|
  {
    hide Inv, Rel, Grows, Enabled, Safe, After, Init, AreBehind, Performs;
    var n := |run| - 1;
    if n == 0 {
      FirstWorldOk(|run[0].servers|);
      FirstRel(run[0]);
      ws := [FirstWorld(|run[0].servers|)];
      BehindFirst(run, ws);
    } else {
      var front := run[..n];
      ws := Behind(front);
      LastOfFront(front, ws);
      assert Next(run[n - 1], run[n]);
      var e :| Enabled(run[n - 1], e) && Safe(run[n - 1], e) && run[n] == After(run[n - 1], e);
      var w := Simulates(ws[n - 1], run[n - 1], e);
      assert Matched(ws[n - 1], w, run[n - 1], run[n]);
      BehindNext(run, front, ws, w, Place(e));
      ws := ws + [w];
    }
  }

  lemma BehindFirst(run: seq<System>, ws: seq<World>)
    requires |run| == |ws| == 1 && Inv(ws[0]) && Rel(ws[0], run[0]) && ws[0] == FirstWorld(|run[0].servers|)
    ensures AreBehind(ws, run)
  {
    hide Inv, Rel, Grows;
    GrowsSelf(ws[0]);
  }

  lemma LastOfFront(run: seq<System>, ws: seq<World>)
    requires AreBehind(ws, run) && 0 < |run|
    ensures |ws| == |run| && Inv(ws[|run| - 1]) && Rel(ws[|run| - 1], run[|run| - 1])
  {
  }

  lemma BehindNext(run: seq<System>, front: seq<System>, ws: seq<World>, w: World, i: nat)
    requires 1 < |run| && front == run[..|run| - 1] && AreBehind(ws, front)
    requires Followed(ws[|ws| - 1], w, run[|run| - 1], i) && Matched(ws[|ws| - 1], w, run[|run| - 2], run[|run| - 1])
    ensures AreBehind(ws + [w], run)
  {
    hide Inv, Rel, Grows, Reached, Chose, Performs, Matched, FirstWorld;
    var n := |run| - 1;
    GrowsSelf(w);
    forall j | 0 <= j < n ensures Grows(ws[j], w) { GrowsTransitive(ws[j], ws[n - 1], w); }
    forall k | 0 <= k < n ensures Reached(run, k, |ws[k].chosen| - 1) {
      ReachedStays(run, front, k, k, |ws[k].chosen| - 1);
    }
    ReachedNext(run, front, ws[n - 1], w);
  }

  lemma ReachedNext(run: seq<System>, front: seq<System>, w: World, w': World)
    requires 1 < |run| && front == run[..|run| - 1] && Reached(front, |front| - 1, |w.chosen| - 1)
    requires Chose(w, w', run[|run| - 1])
    ensures Reached(run, |run| - 1, |w'.chosen| - 1)
  {
    var n := |run| - 1;
    if w'.chosen == w.chosen {
      ReachedStays(run, front, n - 1, n, |w.chosen| - 1);
    } else {
      var i :| 0 <= i < |run[n].servers| && |w'.chosen| == run[n].servers[i].raft.commit + 1;
      assert run[n].servers[i].raft.commit == |w'.chosen| - 1;
    }
  }

  lemma ReachedStays(run: seq<System>, front: seq<System>, j: nat, k: nat, n: int)
    requires front <= run && j < |front| && j <= k < |run| && Reached(front, j, n)
    ensures Reached(run, k, n)
  {
    if n != 0 {
      var x, i :| 0 <= x <= j && 0 <= i < |front[x].servers| && front[x].servers[i].raft.commit == n;
      assert run[x].servers[i].raft.commit == n;
    }
  }

  lemma BehindExists(run: seq<System>)
    requires IsRun(run)
    ensures exists ws :: AreBehind(ws, run)
  {
    var ws := Behind(run);
  }

  /** The protocol's states behind a run. */
  ghost function Worlds(run: seq<System>): (ws: seq<World>)
    requires IsRun(run)
    ensures |ws| == |run|
  {
    BehindExists(run);
    var ws :| AreBehind(ws, run);
    ws
  }

  lemma WorldFacts(run: seq<System>, k: nat)
    requires IsRun(run) && k < |run|
    ensures |Worlds(run)| == |run| && Inv(Worlds(run)[k]) && Rel(Worlds(run)[k], run[k])
    ensures |Worlds(run)[k].peers| == |run[k].servers| && Reached(run, k, |Worlds(run)[k].chosen| - 1)
  {
    hide IsRun, Inv, Matched;
    assert AreBehind(Worlds(run), run);
  }

  lemma WorldsGrow(run: seq<System>, j: nat, k: nat)
    requires IsRun(run) && j <= k < |run|
    ensures |Worlds(run)| == |run| && Grows(Worlds(run)[j], Worlds(run)[k])
  {
    hide IsRun, Inv, Rel, Grows, Matched;
    assert AreBehind(Worlds(run), run);
  }
}
