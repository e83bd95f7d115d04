/**
 What holds of every run of the cluster, with message loss, delay, duplication and reordering, crashes at
 any point, local compaction and installed snapshots.

 A node holds only the end of its log; what it has compacted is in its saved snapshot. `LogicalLog` is the
 whole log a node stands for, `CommittedLog` the log behind everything the cluster has done so far.
 */
module Theorems {
  import opened Types
  import opened StoreModel
  import opened NodeModel
  import opened RsmModel
  import opened SystemModel
  import opened Protocol
  import opened Actions
  import opened Relation
  import opened ReplicationSteps
  import opened ServiceSteps
  import opened Runs
  import KvModel

  ghost predicate On(run: seq<System>, k: nat, i: nat) { k < |run| && i < |run[k].servers| }

  ghost function NodeAt(run: seq<System>, k: nat, i: nat): Node
    requires On(run, k, i)
  {
    run[k].servers[i].raft
  }

  // ---------------------------------------------------------------- logical logs

  /** The node holds the end of this log, and its saved snapshot is the replay of the rest. */
  ghost predicate Represents(v: Node, log: Log) {
    Held(log, v) && v.disk.snapshot == SnapshotOf(log, v.base)
  }

  ghost function LogicalLog(run: seq<System>, k: nat, i: nat): (log: Log)
    requires IsRun(run) && On(run, k, i)
    ensures Represents(NodeAt(run, k, i), log)
  {
    WorldFacts(run, k);
    PeerRepresented(Worlds(run)[k], run[k], i);
    Worlds(run)[k].peers[i].log
  }

  lemma PeerRepresented(w: World, s: System, i: nat)
    requires Rel(w, s) && i < |s.servers|
    ensures Represents(s.servers[i].raft, w.peers[i].log)
  {
    hide Held, SnapshotOf, LeaderOk, CandidateOk, ReaderOk, PendingOk;
    RelFacts(w, s, i);
  }

  /** The node has the first n entries of the log: those it holds are the log's, and its boundary and its
      saved snapshot are those of the log at its base. */
  ghost predicate HasPrefix(v: Node, log: Log, n: nat) {
    && n <= Len(v) && n <= |log| && v.base < |log|
    && v.baseTerm == log[v.base].term && v.disk.snapshot == SnapshotOf(log, v.base)
    && forall k | v.base < k < n :: At(v, k) == log[k]
  }

  lemma PrefixHeld(v: Node, log: Log, committed: Log, n: nat)
    requires Represents(v, log) && Agree(log, committed, n) && Agree(log, committed, v.base + 1)
    ensures HasPrefix(v, committed, n)
  {
    hide SnapshotOf;
    SnapshotSame(log, committed, v.base);
    forall k | v.base < k < n ensures At(v, k) == committed[k] { HeldAt(log, v, k); }
  }

  // ---------------------------------------------------------------- the committed log

  ghost predicate ReplaysLog(x: Server, log: Log) {
    x.position < |log| && x.store == Replay(log, x.position + 1)
  }

  /** An answer is what the store says to the submitted request where `log` has it. */
  ghost predicate AnsweredFrom(log: Log, s: System, a: Sent) {
    && a.id in s.submitted && a.index < |log| && log[a.index].cmd.Command?
    && log[a.index].cmd.op.id == a.id && log[a.index].cmd.op.req == s.submitted[a.id].req
    && a.index == s.submitted[a.id].index
    && a.outcome.Done? && a.outcome.val == Answer(log, a.index)
  }

  ghost predicate AtMostOnce(log: Log) {
    forall i, j | 0 <= i < |log| && 0 <= j < |log| && log[i].cmd.Command? && log[j].cmd.Command?
                  && log[i].cmd.op.id == log[j].cmd.op.id :: i == j
  }

  /** The log accounts for everything that can be seen of the cluster: every node has what it knows to be
      committed from it, every store and saved snapshot is a replay of a prefix of it, every command handed
      to a store stands in it, every OK answer is the answer of that replay to the client's own request, and
      no submitted operation is in it twice. */
  ghost predicate Explains(log: Log, s: System) {
    && (forall i | 0 <= i < |s.servers| :: ReplaysLog(s.servers[i], log))
    && (forall i | 0 <= i < |s.servers| :: HasPrefix(s.servers[i].raft, log, s.servers[i].raft.commit + 1))
    && (forall d | d in s.deliveries :: DeliveryOk(log, d))
    && (forall a | a in s.answers && a.outcome.Done? :: AnsweredFrom(log, s, a))
    && AtMostOnce(log)
  }

  ghost function CommittedLog(run: seq<System>, k: nat): (log: Log)
    requires IsRun(run) && k < |run|
    ensures Explains(log, run[k])
  {
    WorldFacts(run, k);
    ChosenExplains(Worlds(run)[k], run[k]);
    Worlds(run)[k].chosen
  }

  /** Behind every run there is one log that only ever grows, explains every state of the run, and ends
      exactly at the highest index that some node has so far known to be committed. */
  lemma OneSequentialHistory(run: seq<System>)
    requires IsRun(run)
    ensures forall k | 0 <= k < |run| :: Explains(CommittedLog(run, k), run[k])
    ensures forall j, k | 0 <= j <= k < |run| :: CommittedLog(run, j) <= CommittedLog(run, k)
    ensures forall k | 0 <= k < |run| :: Reached(run, k, |CommittedLog(run, k)| - 1)
    ensures forall j, k, i | 0 <= j <= k < |run| && 0 <= i < |run[j].servers| ::
              NodeAt(run, j, i).commit < |CommittedLog(run, k)|
  {
    hide IsRun, Explains, Reached, Worlds;
    forall k | 0 <= k < |run| ensures Reached(run, k, |CommittedLog(run, k)| - 1) { WorldReached(run, k); }
    forall j, k | 0 <= j <= k < |run| ensures CommittedLog(run, j) <= CommittedLog(run, k) {
      CommittedGrows(run, j, k);
    }
    forall j, k, i | 0 <= j <= k < |run| && 0 <= i < |run[j].servers|
      ensures NodeAt(run, j, i).commit < |CommittedLog(run, k)|
    {
      CommittedGrows(run, j, k);
      KnownIsCommitted(run, j, i);
    }
  }

  lemma WorldReached(run: seq<System>, k: nat)
    requires IsRun(run) && k < |run|
    ensures Reached(run, k, |CommittedLog(run, k)| - 1)
  {
    hide IsRun, Reached, Inv, Rel, Explains;
    WorldFacts(run, k);
  }

  lemma CommittedGrows(run: seq<System>, j: nat, k: nat)
    requires IsRun(run) && j <= k < |run|
    ensures CommittedLog(run, j) <= CommittedLog(run, k)
  {
    hide IsRun, Explains, HistoryGrows, Worlds;
    WorldsGrow(run, j, k);
  }

  /** What a node knows to be committed is the committed log. */
  lemma KnownIsCommitted(run: seq<System>, k: nat, i: nat)
    requires IsRun(run) && On(run, k, i)
    ensures Agree(LogicalLog(run, k, i), CommittedLog(run, k), NodeAt(run, k, i).commit + 1)
    ensures NodeAt(run, k, i).base <= NodeAt(run, k, i).commit
  {
    hide IsRun, Explains, Represents, Core, ChosenOk, Rel, Held, Durable, SnapshotOf, CandidateOk, LeaderOk, ReaderOk,
         PendingOk, LogOk;
    WorldFacts(run, k);
    RelFacts(Worlds(run)[k], run[k], i);
    ChosenHas(Worlds(run)[k], i, NodeAt(run, k, i).commit);
  }

  lemma ChosenExplains(w: World, s: System)
    requires Inv(w) && Rel(w, s)
    ensures Explains(w.chosen, s)
  {
    hide Core, ChosenOk, Rel, ReplaysLog, AnsweredFrom, HasPrefix, DeliveryOk;
    forall a | a in s.answers && a.outcome.Done? ensures AnsweredFrom(w.chosen, s, a) { AnswerFromChosen(w, s, a); }
    forall i | 0 <= i < |s.servers|
      ensures ReplaysLog(s.servers[i], w.chosen) && HasPrefix(s.servers[i].raft, w.chosen, s.servers[i].raft.commit + 1)
    {
      RelFacts(w, s, i);
      ServerReplays(w, s.submitted, i, s.servers[i]);
    }
    DeliveriesFromChosen(w, s);
    forall i, j | 0 <= i < |w.chosen| && 0 <= j < |w.chosen| && w.chosen[i].cmd.Command? && w.chosen[j].cmd.Command?
                  && w.chosen[i].cmd.op.id == w.chosen[j].cmd.op.id
      ensures i == j
    {
      ChosenEntry(w, s, i);
      ChosenEntry(w, s, j);
    }
  }

  lemma DeliveriesFromChosen(w: World, s: System)
    requires Rel(w, s)
    ensures forall d | d in s.deliveries :: DeliveryOk(w.chosen, d)
  {
    hide ServerOk, MsgOk, OpsOk, SentOk, Apart, DeliveryOk;
  }

  lemma ServerReplays(w: World, sub: map<int, Submission>, i: nat, x: Server)
    requires Inv(w) && i < |w.peers| && ServerOk(w, sub, i, x)
    ensures ReplaysLog(x, w.chosen) && HasPrefix(x.raft, w.chosen, x.raft.commit + 1)
  {
    hide Core, ChosenOk, Held, LeaderOk, CandidateOk, Replay, QueueOk, HasPrefix, SnapshotOf, LogOk;
    ChosenHas(w, i, w.peers[i].commit);
    SameReplay(w.peers[i].log, w.chosen, x.position + 1);
    PrefixHeld(x.raft, w.peers[i].log, w.chosen, x.raft.commit + 1);
  }

  lemma AnswerFromChosen(w: World, s: System, a: Sent)
    requires Inv(w) && Rel(w, s) && a in s.answers && a.outcome.Done?
    ensures AnsweredFrom(w.chosen, s, a)
  {
    hide Core, ServerOk, MsgOk, Apart, DeliveryOk, OpsOk, Replay;
    assert SentOk(w.chosen, s.submitted, a);
    ChosenEntry(w, s, a.index);
  }

  /** Every chosen entry after the sentinel is a submitted operation at its index. */
  lemma ChosenOp(w: World, s: System, j: nat)
    requires Inv(w) && Rel(w, s) && 1 <= j < |w.chosen|
    ensures EntryOk(w.chosen[j], j, s.submitted)
  {
    hide Core, ServerOk, MsgOk, Apart, DeliveryOk, SentOk;
    var t :| t in w.elections && |w.chosen| == w.elections[t].committed;
    assert Agree(w.elections[t].log, w.chosen, w.elections[t].committed);
    ElectionFacts(w, t);
    assert EntryOk(w.elections[t].log[j], j, s.submitted);
  }

  lemma ChosenSentinel(w: World)
    requires Inv(w)
    ensures 1 <= |w.chosen| && w.chosen[0] == Sentinel
  {
    hide Core;
    var t :| t in w.elections && |w.chosen| == w.elections[t].committed;
    assert Agree(w.elections[t].log, w.chosen, w.elections[t].committed);
    ElectionFacts(w, t);
    StartsWithSentinel(w, w.elections[t].log);
  }

  lemma ChosenEntry(w: World, s: System, j: nat)
    requires Inv(w) && Rel(w, s) && j < |w.chosen| && w.chosen[j].cmd.Command?
    ensures EntryOk(w.chosen[j], j, s.submitted)
  {
    hide Inv, Rel, EntryOk;
    ChosenSentinel(w);
    if j > 0 { ChosenOp(w, s, j); }
  }

  // ---------------------------------------------------------------- no handler fails

  /** In every reachable state every step that can be taken stays inside its slices. */
  lemma NoReachablePanic(run: seq<System>, e: Event)
    requires IsRun(run) && Enabled(Final(run), e)
    ensures Safe(Final(run), e)
  {
    hide Inv, Rel, Safe, Enabled;
    WorldFacts(run, |run| - 1);
    NoPanic(Worlds(run)[|run| - 1], Final(run), e);
  }

  /** A leader's next indices always point into its log or right behind it. */
  lemma NextIndicesInRange(run: seq<System>, i: nat, peer: nat)
    requires IsRun(run) && i < |Final(run).servers| && peer < |Final(run).servers|
    requires Final(run).servers[i].raft.role.Leader?
    ensures var v := Final(run).servers[i].raft; peer < |v.next| && 1 <= v.next[peer] <= Len(v)
  {
    hide Inv, Rel, Held, Durable, SnapshotOf, CandidateOk, ReaderOk, PendingOk;
    WorldFacts(run, |run| - 1);
    RelFacts(Worlds(run)[|run| - 1], Final(run), i);
  }

  // ---------------------------------------------------------------- elections

  /** At most one node is ever leader in a term, however far apart in time one looks. */
  lemma ElectionSafety(run: seq<System>, j: nat, k: nat, a: nat, b: nat)
    requires IsRun(run) && j <= k && On(run, j, a) && On(run, k, b)
    requires NodeAt(run, j, a).role.Leader? && NodeAt(run, k, b).role.Leader?
    requires NodeAt(run, j, a).term == NodeAt(run, k, b).term
    ensures a == b
  {
    hide IsRun, Inv, Rel;
    WorldFacts(run, j);
    WorldFacts(run, k);
    WorldsGrow(run, j, k);
    var w, w' := Worlds(run)[j], Worlds(run)[k];
    LeadsElection(w, run[j], a);
    LeadsElection(w', run[k], b);
    var t := NodeAt(run, j, a).term;
    assert ElectionGrows(w.elections[t], w'.elections[t]);
  }

  lemma LeadsElection(w: World, s: System, i: nat)
    requires Inv(w) && Rel(w, s) && i < |s.servers| && s.servers[i].raft.role.Leader?
    ensures i < |w.peers| && s.servers[i].raft.term in w.elections && w.elections[s.servers[i].raft.term].leader == i
    ensures w.elections[s.servers[i].raft.term].log == w.peers[i].log
  {
    hide Core, ChosenOk, Rel, Held, CandidateOk, ReaderOk, PendingOk, LeaderOk;
    RelFacts(w, s, i);
    LeadersLog(w, i, s.servers[i].raft);
  }

  // ---------------------------------------------------------------- logs

  /** Log matching: two logical logs, at any two times, with the same term at one index are equal up to it. */
  lemma LogMatchingHolds(run: seq<System>, j: nat, k: nat, a: nat, b: nat, index: nat)
    requires IsRun(run) && j <= k && On(run, j, a) && On(run, k, b)
    requires index < |LogicalLog(run, j, a)| && index < |LogicalLog(run, k, b)|
    requires LogicalLog(run, j, a)[index].term == LogicalLog(run, k, b)[index].term
    ensures Agree(LogicalLog(run, j, a), LogicalLog(run, k, b), index + 1)
  {
    hide IsRun, Core, ChosenOk, Rel, LogOk, Represents;
    WorldFacts(run, j);
    WorldFacts(run, k);
    WorldsGrow(run, j, k);
    var w, w' := Worlds(run)[j], Worlds(run)[k];
    ChosenHas(w, a, 0);
    ChosenHas(w', b, 0);
    LogOkGrows(w.elections, w'.elections, w.peers[a].log);
    LogMatching(w'.elections, w.peers[a].log, w'.peers[b].log, index);
  }

  function Min(x: nat, y: nat): nat { if x <= y then x else y }

  /** Leader completeness: whatever any node ever knows to be committed is in the whole log of every node that
      ever leads in a later term, before or after it was known, whether compacted or not; and in the log of the
      leader of the same term, as far as that log had come. */
  lemma LeaderCompleteness(run: seq<System>, j: nat, k: nat, a: nat, b: nat)
    requires IsRun(run) && On(run, j, a) && On(run, k, b)
    requires NodeAt(run, k, b).role.Leader? && NodeAt(run, j, a).term <= NodeAt(run, k, b).term
    ensures var n, l := NodeAt(run, j, a).commit + 1, |LogicalLog(run, k, b)|;
            && (j <= k || NodeAt(run, j, a).term < NodeAt(run, k, b).term ==> n <= l)
            && Agree(LogicalLog(run, j, a), LogicalLog(run, k, b), Min(n, l))
            && Agree(LogicalLog(run, j, a), CommittedLog(run, j), n)
            && Agree(LogicalLog(run, k, b), CommittedLog(run, j), Min(n, l))
            && HasPrefix(NodeAt(run, j, a), CommittedLog(run, j), n)
            && HasPrefix(NodeAt(run, k, b), CommittedLog(run, if j <= k then k else j), Min(n, l))
    ensures j <= k ==> CommittedLog(run, j) <= CommittedLog(run, k)
  {
    hide IsRun, Inv, Rel, Represents, Explains, HasPrefix, Worlds, SnapshotOf, Held, LogicalLog, CommittedLog;
    var later := if j <= k then k else j;
    var n := Min(NodeAt(run, j, a).commit + 1, |LogicalLog(run, k, b)|);
    if j <= k { InLaterLeader(run, j, k, a, b); } else { InEarlierLeader(run, j, k, a, b); }
    KnownIsCommitted(run, j, a);
    KnownIsCommitted(run, k, b);
    CommittedGrows(run, j, later);
    CommittedGrows(run, k, later);
    PrefixHeld(NodeAt(run, j, a), LogicalLog(run, j, a), CommittedLog(run, j), NodeAt(run, j, a).commit + 1);
    PrefixHeld(NodeAt(run, k, b), LogicalLog(run, k, b), CommittedLog(run, later), n);
  }

  lemma InLaterLeader(run: seq<System>, j: nat, k: nat, a: nat, b: nat)
    requires IsRun(run) && j <= k && On(run, j, a) && On(run, k, b)
    requires NodeAt(run, k, b).role.Leader? && NodeAt(run, j, a).term <= NodeAt(run, k, b).term
    ensures Agree(LogicalLog(run, j, a), LogicalLog(run, k, b), NodeAt(run, j, a).commit + 1)
  {
    hide IsRun, Core, ChosenOk, Rel, Grows, Held, Durable, SnapshotOf, CandidateOk, ReaderOk, PendingOk, LeaderOk,
         Represents;
    WorldFacts(run, j);
    WorldFacts(run, k);
    WorldsGrow(run, j, k);
    RelFacts(Worlds(run)[j], run[j], a);
    LeadsElection(Worlds(run)[k], run[k], b);
    CommittedThen(Worlds(run)[j], Worlds(run)[k], a, NodeAt(run, k, b).term);
  }

  /** The leader led first: its log then began with what its election started from, which has everything
      that leaders of earlier terms were still to commit. */
  lemma InEarlierLeader(run: seq<System>, j: nat, k: nat, a: nat, b: nat)
    requires IsRun(run) && k <= j && On(run, j, a) && On(run, k, b)
    requires NodeAt(run, k, b).role.Leader? && NodeAt(run, j, a).term <= NodeAt(run, k, b).term
    ensures var n, l := NodeAt(run, j, a).commit + 1, |LogicalLog(run, k, b)|;
            && (NodeAt(run, j, a).term < NodeAt(run, k, b).term ==> n <= l)
            && Agree(LogicalLog(run, j, a), LogicalLog(run, k, b), Min(n, l))
  {
    hide IsRun, Core, ChosenOk, Rel, Grows, Held, Durable, SnapshotOf, CandidateOk, ReaderOk, PendingOk, LeaderOk,
         Represents;
    WorldFacts(run, j);
    WorldFacts(run, k);
    WorldsGrow(run, k, j);
    RelFacts(Worlds(run)[j], run[j], a);
    LeadsElection(Worlds(run)[k], run[k], b);
    CommittedLater(Worlds(run)[k], Worlds(run)[j], a, NodeAt(run, k, b).term);
  }

  lemma CommittedLater(w: World, w': World, a: nat, t: nat)
    requires Inv(w) && Inv(w') && Grows(w, w') && a < |w'.peers| && t in w.elections && w'.peers[a].term <= t
    ensures var n, l := w'.peers[a].commit + 1, |w.elections[t].log|;
            && (w'.peers[a].term < t ==> n <= l)
            && Agree(w'.peers[a].log, w.elections[t].log, Min(n, l))
  {
    hide Core, ChosenOk;
    var p := w'.peers[a];
    PeerFacts(w', a);
    KnownInLeader(w', a, t);
    ElectionFacts(w, t);
    assert ElectionGrows(w.elections[t], w'.elections[t]);
    if p.term < t { InInit(w', p.log, p.term, p.commit + 1, t); }
  }

  /** What was committed by a leader of an earlier term is in what a later leader started from. */
  lemma InInit(w: World, log: Log, term: nat, n: nat, t: nat)
    requires Core(w) && CommittedBy(w.elections, term, log, n) && t in w.elections && term < t
    ensures n <= |w.elections[t].init|
  {
    hide Core;
    var x :| x in w.elections && x <= term && n <= w.elections[x].committed && Agree(log, w.elections[x].log, n);
    CommittedIsInherited(w, x, t);
  }

  lemma CommittedThen(w: World, w': World, a: nat, t: nat)
    requires Inv(w) && Inv(w') && Grows(w, w') && a < |w.peers| && t in w'.elections && w.peers[a].term <= t
    ensures Agree(w.peers[a].log, w'.elections[t].log, w.peers[a].commit + 1)
  {
    var p := w.peers[a];
    assert PeerOk(w, a);
    CommittedByGrows(w.elections, w'.elections, p.term, p.term, p.log, p.commit + 1);
    KnownIsInherited(w', p.log, p.term, p.commit + 1, t);
  }

  /** What two nodes know to be committed, at any two times, is the same log. */
  lemma CommittedEntriesAgree(run: seq<System>, j: nat, k: nat, a: nat, b: nat)
    requires IsRun(run) && j <= k && On(run, j, a) && On(run, k, b)
    ensures var u, v := NodeAt(run, j, a), NodeAt(run, k, b);
            var n := (if u.commit <= v.commit then u.commit else v.commit) + 1;
            && Agree(LogicalLog(run, j, a), LogicalLog(run, k, b), n)
            && HasPrefix(u, CommittedLog(run, k), n) && HasPrefix(v, CommittedLog(run, k), n)
  {
    hide IsRun, Represents, Explains, HasPrefix, SnapshotOf, Held, LogicalLog, CommittedLog;
    var u, v := NodeAt(run, j, a), NodeAt(run, k, b);
    var n := (if u.commit <= v.commit then u.commit else v.commit) + 1;
    KnownIsCommitted(run, j, a);
    KnownIsCommitted(run, k, b);
    CommittedGrows(run, j, k);
    PrefixHeld(u, LogicalLog(run, j, a), CommittedLog(run, k), n);
    PrefixHeld(v, LogicalLog(run, k, b), CommittedLog(run, k), n);
  }

  /** What a node once knew to be committed stays in its log for good, across requests, snapshots and crashes. */
  lemma CommittedNeverDropped(run: seq<System>, j: nat, k: nat, a: nat)
    requires IsRun(run) && j <= k && On(run, j, a) && On(run, k, a)
    ensures var n := NodeAt(run, j, a).commit + 1;
            && Agree(LogicalLog(run, j, a), LogicalLog(run, k, a), n)
               && Agree(LogicalLog(run, k, a), CommittedLog(run, j), n)
            && HasPrefix(NodeAt(run, k, a), CommittedLog(run, k), n)
  {
    hide IsRun, Represents, Explains, HasPrefix, SnapshotOf, Held, LogicalLog, CommittedLog;
    KeepsCommitted(run, j, k, a);
    KnownIsCommitted(run, j, a);
    KnownIsCommitted(run, k, a);
    CommittedGrows(run, j, k);
    PrefixHeld(NodeAt(run, k, a), LogicalLog(run, k, a), CommittedLog(run, k), NodeAt(run, j, a).commit + 1);
  }

  lemma KeepsCommitted(run: seq<System>, j: nat, k: nat, a: nat)
    requires IsRun(run) && j <= k && On(run, j, a) && On(run, k, a)
    ensures Agree(LogicalLog(run, j, a), LogicalLog(run, k, a), NodeAt(run, j, a).commit + 1)
  {
    hide IsRun, Inv, Rel, Held, Durable, SnapshotOf, CandidateOk, ReaderOk, PendingOk, LeaderOk, Represents;
    WorldFacts(run, j);
    WorldFacts(run, k);
    WorldsGrow(run, j, k);
    RelFacts(Worlds(run)[j], run[j], a);
    var p, p', c := Worlds(run)[j].peers[a], Worlds(run)[k].peers[a], NodeAt(run, j, a).commit;
    KnownAgrees(p, p', c);
  }

  lemma KnownAgrees(p: Peer, p': Peer, c: nat)
    requires KnownStays(p, p') && c < |p.log| && c <= p.commit
    ensures Agree(p.log, p'.log, c + 1)
  {
    var e := p.log[c];
    assert p.log[c] == e && c < |p'.log|;
  }

  /** Counted matches are real: a peer that a leader counts at an index above its commit index has the
      leader's log up to there, then and for as long as it stays in the leader's term. */
  lemma CountedPeersHold(run: seq<System>, j: nat, k: nat, i: nat, q: nat, n: nat)
    requires IsRun(run) && j <= k && On(run, j, i) && On(run, k, q) && q != i
    requires var v := NodeAt(run, j, i);
             v.role.Leader? && v.commit < n && q < |v.matched| && n <= v.matched[q] && NodeAt(run, k, q).term == v.term
    ensures Agree(LogicalLog(run, j, i), LogicalLog(run, k, q), n + 1)
  {
    hide IsRun, Inv, Rel, Held, Durable, SnapshotOf, CandidateOk, ReaderOk, PendingOk, Represents, LogicalLog, Backed;
    WorldFacts(run, j);
    var v := NodeAt(run, j, i);
    RelFacts(Worlds(run)[j], run[j], i);
    BackerHolds(run, j, k, i, q, v.matched[q] + 1);
  }

  /** Who acknowledged a prefix of a leader's log has it for as long as it stays in that term. */
  lemma KeptSince(w: World, w': World, q: nat, t: nat, len: nat)
    requires Core(w) && Core(w') && Grows(w, w') && Backed(w.acks, q, t, len)
    requires q < |w'.peers| && w'.peers[q].term == t
    ensures t in w.elections && Agree(w.elections[t].log, w'.peers[q].log, len)
  {
    hide Core;
    var a :| a in w.acks && a.node == q && a.term == t && len <= a.len;
    AckedLength(w, a);
    assert a in w'.acks;
    AckedPrefix(w', a);
    assert ElectionGrows(w.elections[t], w'.elections[t]);
  }

  lemma AckedLength(w: World, a: Ack)
    requires Core(w) && a in w.acks
    ensures a.term in w.elections && a.len <= |w.elections[a.term].log|
  {
    assert AckOk(w, a);
  }

  /** A leader whose commit index holds an entry of its own term has a majority that has its log up to there,
      each for as long as it stays in that term. */
  lemma CommitHasQuorum(run: seq<System>, j: nat, i: nat) returns (quorum: set<nat>)
    requires IsRun(run) && On(run, j, i) && NodeAt(run, j, i).role.Leader?
    requires NodeAt(run, j, i).commit < |LogicalLog(run, j, i)|
    requires LogicalLog(run, j, i)[NodeAt(run, j, i).commit].term == NodeAt(run, j, i).term
    ensures Quorum(quorum, |run[j].servers|)
    ensures forall q, k | q in quorum && j <= k && On(run, k, q) && NodeAt(run, k, q).term == NodeAt(run, j, i).term ::
              Agree(LogicalLog(run, j, i), LogicalLog(run, k, q), NodeAt(run, j, i).commit + 1)
  {
    hide IsRun, LogicalLog, Represents, Worlds, Backed, Quorum;
    quorum := BackersAt(run, j, i);
    forall q, k | q in quorum && j <= k && On(run, k, q) && NodeAt(run, k, q).term == NodeAt(run, j, i).term
      ensures Agree(LogicalLog(run, j, i), LogicalLog(run, k, q), NodeAt(run, j, i).commit + 1)
    {
      BackerHolds(run, j, k, i, q, NodeAt(run, j, i).commit + 1);
    }
  }

  lemma BackersAt(run: seq<System>, j: nat, i: nat) returns (quorum: set<nat>)
    requires IsRun(run) && On(run, j, i) && NodeAt(run, j, i).role.Leader?
    requires NodeAt(run, j, i).commit < |LogicalLog(run, j, i)|
    requires LogicalLog(run, j, i)[NodeAt(run, j, i).commit].term == NodeAt(run, j, i).term
    ensures Quorum(quorum, |run[j].servers|)
    ensures forall q | q in quorum ::
              Backed(Worlds(run)[j].acks, q, NodeAt(run, j, i).term, NodeAt(run, j, i).commit + 1)
  {
    hide IsRun, Inv, Rel, Represents, Backed, Quorum;
    WorldFacts(run, j);
    quorum := LeaderBackers(Worlds(run)[j], run[j], i);
  }

  lemma LeaderBackers(w: World, s: System, i: nat) returns (quorum: set<nat>)
    requires Inv(w) && Rel(w, s) && i < |w.peers| == |s.servers| && s.servers[i].raft.role.Leader?
    requires var v := s.servers[i].raft; v.commit < |w.peers[i].log| && w.peers[i].log[v.commit].term == v.term
    ensures Quorum(quorum, |s.servers|)
    ensures forall q | q in quorum :: Backed(w.acks, q, s.servers[i].raft.term, s.servers[i].raft.commit + 1)
  {
    hide Core, ChosenOk, Rel, Held, Durable, SnapshotOf, CandidateOk, LeaderOk, ReaderOk, PendingOk, Backed, Quorum,
         CommittedBy;
    var v := s.servers[i].raft;
    RelFacts(w, s, i);
    LeadersLog(w, i, v);
    quorum := OwnBackers(w, v.term, v.commit + 1);
  }

  /** Who has acknowledged a prefix of what a leader has, has it for as long as it stays in that term. */
  lemma BackerHolds(run: seq<System>, j: nat, k: nat, i: nat, q: nat, len: nat)
    requires IsRun(run) && j <= k && On(run, j, i) && On(run, k, q) && NodeAt(run, j, i).role.Leader?
    requires NodeAt(run, k, q).term == NodeAt(run, j, i).term
    requires Backed(Worlds(run)[j].acks, q, NodeAt(run, j, i).term, len)
    ensures Agree(LogicalLog(run, j, i), LogicalLog(run, k, q), len)
  {
    hide IsRun, Core, ChosenOk, Rel, Held, Durable, SnapshotOf, CandidateOk, LeaderOk, ReaderOk, PendingOk, LogOk,
         Represents, Grows, Backed;
    WorldFacts(run, j);
    WorldFacts(run, k);
    WorldsGrow(run, j, k);
    RelFacts(Worlds(run)[k], run[k], q);
    LeadsElection(Worlds(run)[j], run[j], i);
    KeptSince(Worlds(run)[j], Worlds(run)[k], q, NodeAt(run, j, i).term, len);
  }

  /** A prefix that ends in the leader's own term can only have been committed by that leader. */
  lemma OwnBackers(w: World, t: nat, n: nat) returns (quorum: set<nat>)
    requires Core(w) && 0 < t && t in w.elections && 1 <= n && CommittedBy(w.elections, t, w.elections[t].log, n)
    requires n <= |w.elections[t].log| && w.elections[t].log[n - 1].term == t
    ensures Quorum(quorum, |w.peers|) && forall q | q in quorum :: Backed(w.acks, q, t, n)
  {
    var E := w.elections;
    assert ElectionOk(w, t);
    var x :| x in E && x <= t && n <= E[x].committed && Agree(E[t].log, E[x].log, n);
    ElectionFacts(w, x);
    assert E[x].log[n - 1].term < x + 1;
    StartsWithSentinel(w, E[t].log);
    quorum := E[t].backers;
    forall q | q in quorum ensures Backed(w.acks, q, t, n) {
      var a :| a in w.acks && a.node == q && a.term == t && E[t].committed <= a.len;
    }
  }

  lemma AckedPrefix(w: World, a: Ack)
    requires Core(w) && a in w.acks && a.node < |w.peers| && w.peers[a.node].term == a.term
    ensures a.term in w.elections && Agree(w.elections[a.term].log, w.peers[a.node].log, a.len)
  {
    assert AckOk(w, a);
  }

  /** Every append request ever sent carries entries up to the commit index it announces. */
  lemma RequestsReachTheirCommit(run: seq<System>, m: Message)
    requires IsRun(run) && m in Final(run).net && m.AppendRequest?
    ensures Sendable(m.app) && m.app.leaderCommit <= m.app.prevIndex + |m.app.entries|
  {
    hide Core, ChosenOk, Rel, CommittedBy, LogOk;
    WorldFacts(run, |run| - 1);
    var w := Worlds(run)[|run| - 1];
    MsgFacts(w, Final(run), m);
    ElectionFacts(w, m.app.term);
    LogIsIndexed(w.elections, w.elections[m.app.term].log);
  }

  /** A request that is accepted leaves exactly the entries it carries at their indices, and moves the
      commit index exactly to what it announces, although the code clamps to the follower's last index. */
  lemma AcceptedRequest(run: seq<System>, m: Message)
    requires IsRun(run) && m in Final(run).net && m.AppendRequest? && m.to < |Final(run).servers|
    ensures var v, args := Final(run).servers[m.to].raft, m.app;
            && CanAppend(v, args)
            && var (v', reply) := NodeModel.AppendEntries(v, args);
            reply.success ==>
              && v'.commit == (if args.leaderCommit > v.commit then args.leaderCommit else v.commit)
              && Carries(v', args)
  {
    hide Core, ChosenOk, Rel, CommittedBy, LogOk, Held, Durable, SnapshotOf, CandidateOk, LeaderOk, ReaderOk, PendingOk,
         NodeModel.AppendEntries, Carries, CanAppend;
    RequestsReachTheirCommit(run, m);
    NoReachablePanic(run, DeliverMessage(m));
    WorldFacts(run, |run| - 1);
    var w, s := Worlds(run)[|run| - 1], Final(run);
    RelFacts(w, s, m.to);
    MsgFacts(w, s, m);
    NodeIsValid(w, m.to, s.servers[m.to].raft);
    AcceptedByNode(w, m.to, s.servers[m.to].raft, m.app);
  }

  /** Whatever a follower then knows to be committed agrees with its sender's log, above and below the
      entries sent, as far as that log has come at any time of the sender's term. */
  lemma AcceptedAgreesWithSender(run: seq<System>, p: nat, k: nat, m: Message)
    requires IsRun(run) && p + 1 < |run| && m.AppendRequest?
    requires Enabled(run[p], DeliverMessage(m)) && Safe(run[p], DeliverMessage(m))
    requires run[p + 1] == After(run[p], DeliverMessage(m))
    requires NodeModel.AppendEntries(run[p].servers[m.to].raft, m.app).1.success
    requires On(run, k, m.app.leader) && NodeAt(run, k, m.app.leader).role.Leader?
    requires NodeAt(run, k, m.app.leader).term == m.app.term
    ensures On(run, p + 1, m.to)
    ensures var sender := LogicalLog(run, k, m.app.leader);
            Agree(LogicalLog(run, p + 1, m.to), sender, Min(NodeAt(run, p + 1, m.to).commit + 1, |sender|))
  {
    hide IsRun, LogicalLog, CommittedLog, HasPrefix, Explains, Represents;
    assert NodeAt(run, p + 1, m.to) == NodeModel.AppendEntries(run[p].servers[m.to].raft, m.app).0;
    LeaderCompleteness(run, p + 1, k, m.to, m.app.leader);
  }

  /** The node's log has the entries of a request at their indices. */
  ghost predicate Carries(v: Node, args: AppendArgs) {
    var d := args.prevIndex + 1 - v.base;
    0 <= d && d + |args.entries| <= |v.logs| && v.logs[d..d + |args.entries|] == args.entries
  }

  lemma AcceptedByNode(w: World, i: nat, v: Node, args: AppendArgs)
    requires Core(w) && i < |w.peers| && Held(w.peers[i].log, v) && v.term == w.peers[i].term && AppendOk(w, args)
    requires CanAppend(v, args) && v.commit < Len(v)
    ensures var (v', reply) := NodeModel.AppendEntries(v, args);
            reply.success ==>
              && v'.commit == (if args.leaderCommit > v.commit then args.leaderCommit else v.commit)
              && Carries(v', args)
  {
    hide Core, LogOk, Held, CommittedBy, Merge, Conflict, NodeModel.AppendEntries, CanAppend;
    if v.term <= args.term && Conflict(v, args.prevIndex, args.prevTerm).None? {
      KnownInLeader(w, i, args.term);
      PrevMatches(w, i, v, args);
      MergeCopies(w.elections, w.peers[i].log, w.elections[args.term].log, v, args.prevIndex + 1, args.entries);
      AcceptedResult(v, args);
    } else {
      RejectedReply(v, args);
    }
  }

  lemma AcceptedResult(v: Node, args: AppendArgs)
    requires CanAppend(v, args) && v.term <= args.term && Conflict(v, args.prevIndex, args.prevTerm).None?
    ensures Scannable(v.logs, v.base, args.entries)
    ensures var v', logs := NodeModel.AppendEntries(v, args).0, Merge(v.logs, v.base, args.entries);
            var last := v.base + |logs| - 1;
            && v'.base == v.base && v'.logs == logs
            && v'.commit == if args.leaderCommit <= v.commit then v.commit
                            else if args.leaderCommit < last then args.leaderCommit else last
  {
    hide Merge, NodeModel.AppendEntries, CanAppend, Conflict;
    AcceptedReply(v, args);
  }

  lemma RejectedReply(v: Node, args: AppendArgs)
    requires CanAppend(v, args) && !(v.term <= args.term && Conflict(v, args.prevIndex, args.prevTerm).None?)
    ensures !NodeModel.AppendEntries(v, args).1.success
  {
    hide Merge, BelowRun;
  }

  lemma MergeCopies(E: Elections, log: Log, leaders: Log, v: Node, start: nat, entries: seq<Entry>)
    requires Held(log, v) && LogOk(E, log) && LogOk(E, leaders)
    requires v.base < start <= |log| && Agree(log, leaders, start) && start + |entries| <= |leaders|
    requires forall j | 0 <= j < |entries| :: entries[j] == leaders[start + j]
    ensures Scannable(v.logs, v.base, entries)
    ensures var logs := Merge(v.logs, v.base, entries);
            start - v.base + |entries| <= |logs| && logs[start - v.base..start - v.base + |entries|] == entries
  {
    hide Held, LogOk, Merge;
    MergeAdopts(E, log, leaders, v, start, entries);
    var v' := v.(logs := Merge(v.logs, v.base, entries));
    forall k | 0 <= k < |entries| ensures start + k < Len(v') && v'.logs[start - v.base + k] == entries[k] {
      HeldAt(Adopt(log, leaders, start + |entries|), v', start + k);
    }
    HeldAt(Adopt(log, leaders, start + |entries|), v', 0);
  }

  // ---------------------------------------------------------------- disks

  /** Between steps memory and disk agree, so a crash there loses only volatile state. */
  lemma WriteAhead(run: seq<System>, i: nat)
    requires IsRun(run) && i < |Final(run).servers|
    ensures var v := Final(run).servers[i].raft;
            && Durable(v) && Valid(v)
            && var r := Restart(v.me, v.peers, v.disk);
            && HardOf(r) == HardOf(v) && Valid(r) && Durable(r)
            && r.disk == v.disk && r.me == v.me && r.peers == v.peers
            && r.role.Follower? && r.leader == -1 && r.commit == r.applied == v.base && r.granted == 0
            && forall q | 0 <= q < v.peers :: r.next[q] == 0 && r.matched[q] == 0
  {
    hide Inv, Rel, Valid, Durable;
    WorldFacts(run, |run| - 1);
    ServerDurable(Worlds(run)[|run| - 1], Final(run), i);
    RestartsValid(Final(run).servers[i].raft);
  }

  lemma ServerDurable(w: World, s: System, i: nat)
    requires Inv(w) && Rel(w, s) && i < |s.servers|
    ensures Durable(s.servers[i].raft) && Valid(s.servers[i].raft)
  {
    hide Core, ChosenOk, Rel, Held, SnapshotOf, CandidateOk, ReaderOk, PendingOk, LeaderOk, Durable, Valid;
    RelFacts(w, s, i);
    NodeIsValid(w, i, s.servers[i].raft);
  }

  lemma RestartsValid(v: Node)
    requires Durable(v) && Valid(v)
    ensures var r := Restart(v.me, v.peers, v.disk);
            && HardOf(r) == HardOf(v) && Valid(r) && Durable(r)
            && r.disk == v.disk && r.me == v.me && r.peers == v.peers
            && r.role.Follower? && r.leader == -1 && r.commit == r.applied == v.base && r.granted == 0
            && forall q | 0 <= q < v.peers :: r.next[q] == 0 && r.matched[q] == 0
  {
  }

  // ---------------------------------------------------------------- the state machine

  /** State machine safety: no two commands are ever applied at the same index. */
  lemma StateMachineSafety(run: seq<System>, d: Delivery, e: Delivery)
    requires IsRun(run) && d in Final(run).deliveries && e in Final(run).deliveries && d.index == e.index
    ensures d.cmd == e.cmd
  {
    hide CommittedLog, ReplaysLog, HasPrefix, AnsweredFrom, AtMostOnce;
    assert Explains(CommittedLog(run, |run| - 1), Final(run));
  }

  /** Two stores whose readers are at the same position are equal, at whatever times one looks. */
  lemma StoresAgree(run: seq<System>, j: nat, k: nat, a: nat, b: nat)
    requires IsRun(run) && j <= k && On(run, j, a) && On(run, k, b)
    requires run[j].servers[a].position == run[k].servers[b].position
    ensures run[j].servers[a].store == run[k].servers[b].store
  {
    hide IsRun, HasPrefix, AnsweredFrom, AtMostOnce, DeliveryOk, CommittedLog;
    var log, log' := CommittedLog(run, j), CommittedLog(run, k);
    assert ReplaysLog(run[j].servers[a], log) && ReplaysLog(run[k].servers[b], log');
    CommittedGrows(run, j, k);
    SameReplay(log, log', run[j].servers[a].position + 1);
  }

  /** The apply stream has no gap and no repeat: the next command is one further than the position, and a
      snapshot lies strictly beyond it. */
  lemma ApplyStreamIsGapless(run: seq<System>, i: nat)
    requires IsRun(run) && i < |Final(run).servers| && Final(run).servers[i].queue != []
    ensures var x := Final(run).servers[i];
            && (forall j | 0 <= j < |x.queue| && x.queue[j].ApplyCommand? ::
                  x.queue[j].index == x.position + 1 + j && x.queue[j].index > x.rsmApplied)
            && (x.queue[0].ApplySnapshot? ==> |x.queue| == 1 && x.queue[0].index > x.position && x.queue[0].data.Some?)
  {
    hide Inv, Rel, RaftOk, PendingOk, Replay;
    WorldFacts(run, |run| - 1);
    RelFacts(Worlds(run)[|run| - 1], Final(run), i);
  }

  // ---------------------------------------------------------------- clients

  /** Linearizability as the repository's tests check it: key by key, the answers of the committed log are
      accepted by the sequential specification and end in the value of any store that has applied it all. */
  lemma KeysAreSequential(run: seq<System>, k: nat, i: nat, key: string)
    requires IsRun(run) && On(run, k, i)
    ensures var x, log := run[k].servers[i], CommittedLog(run, k);
            && x.position < |log|
            && KvModel.Check(KvModel.Projection(log, x.position + 1, key)) == (true, KvModel.Cell(x.store, key))
  {
    hide IsRun, HasPrefix, AnsweredFrom, AtMostOnce, DeliveryOk, CommittedLog, Replay, KvModel.Projection,
         KvModel.Check;
    var log := CommittedLog(run, k);
    assert ReplaysLog(run[k].servers[i], log);
    KvModel.StoreRefinesModel(log, run[k].servers[i].position + 1, key);
  }

  /** Real time: an operation submitted after another was answered takes a later place in the log. */
  lemma AnswersRespectRealTime(run: seq<System>, j: nat, k: nat, a: Sent, b: Sent)
    requires IsRun(run) && j <= k < |run|
    requires a in run[j].answers && a.outcome.Done? && b.id !in run[j].submitted
    requires b in run[k].answers && b.outcome.Done?
    ensures a.index < b.index
  {
    hide IsRun, Inv, Rel, AnsweredFrom;
    WorldFacts(run, j);
    WorldFacts(run, k);
    WorldsGrow(run, j, k);
    var w, w' := Worlds(run)[j], Worlds(run)[k];
    AnswerFromChosen(w, run[j], a);
    AnswerFromChosen(w', run[k], b);
    LaterPlace(w, run[j], w', run[k], a, b);
  }

  lemma LaterPlace(w: World, s: System, w': World, s': System, a: Sent, b: Sent)
    requires Inv(w) && Rel(w, s) && Grows(w, w') && AnsweredFrom(w.chosen, s, a) && AnsweredFrom(w'.chosen, s', b)
    requires b.id !in s.submitted
    ensures a.index < b.index
  {
    hide Core, ChosenOk, Rel, HistoryGrows, Answer;
    if b.index <= a.index {
      ChosenEntry(w, s, b.index);
    }
  }

  /** Nobody waits at an index the reader is done with, nobody waits who was already sent a result, and no
      two waiters are the same client. */
  lemma WaitersAreFresh(run: seq<System>, i: nat, k: nat)
    requires IsRun(run) && i < |Final(run).servers| && k in Final(run).servers[i].pending
    ensures var s := Final(run); var x := s.servers[i];
            && (x.reader.Idle? ==> k > x.position) && k >= x.position
            && (forall a | a in s.answers :: a.id != x.pending[k].id)
            && (forall j, l | 0 <= j < |s.servers| && l in s.servers[j].pending
                && s.servers[j].pending[l].id == x.pending[k].id ::
                  j == i && l == k)
  {
    hide Inv, RaftOk, ReaderOk, MsgOk, OpsOk, SentOk, DeliveryOk;
    WorldFacts(run, |run| - 1);
    var w, s := Worlds(run)[|run| - 1], Final(run);
    assert ServerOk(w, s.submitted, i, s.servers[i]);
    forall j, l | 0 <= j < |s.servers| && l in s.servers[j].pending
      && s.servers[j].pending[l].id == s.servers[i].pending[k].id
      ensures j == i && l == k
    {
      assert ServerOk(w, s.submitted, j, s.servers[j]);
    }
  }

  /** The results a step sends. */
  ghost function SentBy(s: System, e: Event): set<Sent>
    requires Enabled(s, e)
  {
    match e
    case TakeSnapshotMsg(i, isLeader, term) =>
      Outdated(s.servers[i].pending, s.servers[i].queue[0].index, isLeader, term).1
    case Notify(i, was, now, term, _) =>
      var r := s.servers[i].reader;
      Notified(s.servers[i].pending, r.index, r.id, r.val, was, now, term).1
    case _ => {}
  }

  lemma SentByStep(s: System, e: Event)
    requires Enabled(s, e) && Safe(s, e)
    ensures After(s, e).answers == s.answers + SentBy(s, e)
  {
  }

  /** In every reachable state, whatever step comes next sends at most one result to a client, and only to
      clients that were never sent one. */
  lemma ResultsAreNew(run: seq<System>, e: Event)
    requires IsRun(run) && Enabled(Final(run), e)
    ensures forall a, b | a in SentBy(Final(run), e) && b in Final(run).answers :: a.id != b.id
    ensures forall a, b | a in SentBy(Final(run), e) && b in SentBy(Final(run), e) && a.id == b.id :: a == b
  {
    hide IsRun;
    var s, i := Final(run), Place(e);
    forall a, b | a in SentBy(s, e) && b in s.answers ensures a.id != b.id {
      SentToWaiters(s, e, a);
      WaitersAreFresh(run, i, a.index);
    }
    forall a, b | a in SentBy(s, e) && b in SentBy(s, e) && a.id == b.id ensures a == b {
      SentToWaiters(s, e, a);
      SentToWaiters(s, e, b);
      WaitersAreFresh(run, i, a.index);
      OnePerWaiter(s, e, a, b);
    }
  }

  lemma SentToWaiters(s: System, e: Event, a: Sent)
    requires Enabled(s, e) && a in SentBy(s, e)
    ensures a.index in s.servers[Place(e)].pending && s.servers[Place(e)].pending[a.index].id == a.id
  {
  }

  lemma OnePerWaiter(s: System, e: Event, a: Sent, b: Sent)
    requires Enabled(s, e) && a in SentBy(s, e) && b in SentBy(s, e) && a.index == b.index
    ensures a == b
  {
  }

  /** So nobody is ever sent two different results, an OK and a retry for instance. */
  lemma {:induction false} OneResultEach(run: seq<System>, a: Sent, b: Sent)
    requires IsRun(run) && a in Final(run).answers && b in Final(run).answers && a.id == b.id
    ensures a == b
    decreases |run|
  {
    hide Enabled, Safe, After, SentBy;
    var n := |run| - 1;
    if n > 0 {
      var front := run[..n];
      assert forall k | 0 <= k < n - 1 :: Next(front[k], front[k + 1]);
      assert Next(run[n - 1], run[n]);
      var e :| Enabled(run[n - 1], e) && Safe(run[n - 1], e) && run[n] == After(run[n - 1], e);
      SentByStep(run[n - 1], e);
      ResultsAreNew(front, e);
      if a in Final(front).answers && b in Final(front).answers { OneResultEach(front, a, b); }
    }
  }
}
