/**
 How a running cluster relates to the protocol over uncompacted logs: every server holds the suffix of
 its full log from its snapshot boundary on, its disk holds the same, its store is the replay of the full
 log up to the position of its reader, and every message ever sent quotes the log of a leader.
 */
module Relation {
  import opened Types
  import opened StoreModel
  import opened NodeModel
  import opened RsmModel
  import opened SystemModel
  import opened Protocol
  import opened Behaviour

  // ---------------------------------------------------------------- one server

  /** The node holds exactly the entries of `log` after its base, and the term at its base. */
  ghost predicate Held(log: Log, v: Node) {
    && 1 <= |v.logs| && |log| == v.base + |v.logs|
    && v.logs[0].index == v.base && v.logs[0].term == v.baseTerm == log[v.base].term
    && forall k | 1 <= k < |v.logs| :: v.logs[k] == log[v.base + k]
  }

  ghost function SnapshotOf(log: Log, base: nat): Snapshot
    requires base < |log|
  {
    if base == 0 then None else Some(Replay(log, base + 1))
  }

  /** The peer's commit index is the highest the node ever knew: a restart falls back to the snapshot's. */
  ghost predicate NodeOk(p: Peer, n: nat, i: nat, v: Node) {
    && v.me == i && v.peers == n && i < n && |v.next| == n && |v.matched| == n
    && v.role == p.role && v.term == p.term && v.votedFor == p.votedFor
    && Held(p.log, v) && v.base <= v.commit <= p.commit < |p.log| && v.applied <= v.commit
    && Durable(v) && v.disk.snapshot == SnapshotOf(p.log, v.base) && HintOk(v)
  }

  /** A leader takes itself for the leader, a candidate nobody. */
  ghost predicate HintOk(v: Node) {
    (v.role.Leader? ==> v.leader == v.me) && (v.role.Candidate? ==> v.leader == -1)
  }

  /** Next indices stay inside the log; a match index above the commit index was acknowledged. */
  ghost predicate LeaderOk(w: World, i: nat, v: Node) {
    v.role.Leader? ==>
      && (forall q | 0 <= q < |v.next| :: 1 <= v.next[q] <= Len(v))
      && (forall q | 0 <= q < |v.matched| && q != i ::
            v.matched[q] <= v.commit || Backed(w.acks, q, v.term, v.matched[q] + 1))
  }

  /** The counter of granted votes counts distinct voters, none of whom can answer again. */
  ghost predicate CandidateOk(p: Peer, n: nat, i: nat, v: Node, awaiting: set<nat>) {
    v.role.Candidate? ==>
      && i in p.counted && v.granted == |p.counted|
      && forall q | q in p.counted :: q < n && q !in awaiting
  }

  ghost predicate RaftOk(w: World, i: nat, v: Node, awaiting: set<nat>)
    requires i < |w.peers|
  {
    && NodeOk(w.peers[i], |w.peers|, i, v)
    && LeaderOk(w, i, v)
    && CandidateOk(w.peers[i], |w.peers|, i, v, awaiting)
  }

  ghost predicate QueueOk(log: Log, queue: seq<ApplyMsg>, position: nat, applied: nat)
    requires position <= applied < |log|
  {
    if queue != [] && queue[0].ApplySnapshot? then
      && |queue| == 1 && position < applied == queue[0].index
      && queue[0].data == Some(Replay(log, applied + 1))
    else
      && |queue| == applied - position
      && forall j | 0 <= j < |queue| :: queue[j] == ApplyMsg.ApplyCommand(log[position + 1 + j].cmd, position + 1 + j)
  }

  ghost predicate ReaderOk(log: Log, commit: nat, x: Server) {
    && x.position <= x.raft.applied <= commit < |log|
    && QueueOk(log, x.queue, x.position, x.raft.applied)
    && x.store == Replay(log, x.position + 1)
    && x.rsmApplied <= x.position
    && (x.reader.Notifying? ==>
          && x.reader.index == x.position && log[x.position].cmd.Command?
          && x.reader.id == log[x.position].cmd.op.id && x.reader.val == Answer(log, x.position))
  }

  /** Waiters are those submitted here, above what the reader has handled. */
  ghost predicate PendingOk(submitted: map<int, Submission>, i: nat, x: Server) {
    forall k | k in x.pending ::
      && (k > x.position || (x.reader.Notifying? && k == x.position))
      && x.pending[k].id in submitted
      && submitted[x.pending[k].id].server == i && submitted[x.pending[k].id].index == k
  }

  ghost predicate ServerOk(w: World, submitted: map<int, Submission>, i: nat, x: Server)
    requires i < |w.peers|
  {
    && RaftOk(w, i, x.raft, x.awaiting)
    && ReaderOk(w.peers[i].log, w.peers[i].commit, x)
    && PendingOk(submitted, i, x)
  }

  // ---------------------------------------------------------------- messages

  ghost predicate VoteOk(w: World, args: VoteArgs) {
    && Ballot(args.term, args.cand) in w.campaigns
    && var log := w.campaigns[Ballot(args.term, args.cand)];
    1 <= |log| && args.lastIndex == |log| - 1 && args.lastTerm == LastTerm(log)
  }

  /** An append request quotes the rest of its sender's log, and a commit index inside what it quotes. */
  ghost predicate AppendOk(w: World, args: AppendArgs) {
    && 0 < args.term && args.term in w.elections && w.elections[args.term].leader == args.leader < |w.peers|
    && var log := w.elections[args.term].log;
    && args.prevIndex + 1 + |args.entries| <= |log| && args.prevTerm == log[args.prevIndex].term
    && (forall k | 0 <= k < |args.entries| :: args.entries[k] == log[args.prevIndex + 1 + k])
    && args.leaderCommit <= args.prevIndex + |args.entries|
    && CommittedBy(w.elections, args.term, log, args.leaderCommit + 1)
  }

  ghost predicate SnapOk(w: World, args: SnapshotArgs) {
    && 0 < args.term && args.term in w.elections && w.elections[args.term].leader == args.leader < |w.peers|
    && var log := w.elections[args.term].log;
    && args.lastIndex < |log| && args.lastTerm == log[args.lastIndex].term
    && CommittedBy(w.elections, args.term, log, args.lastIndex + 1)
    && args.data == SnapshotOf(log, args.lastIndex)
  }

  ghost predicate MsgOk(w: World, m: Message) {
    match m
    case VoteRequest(to, args) => to < |w.peers| && VoteOk(w, args)
    case VoteAnswer(src, args, reply) =>
      src < |w.peers| && (reply.granted ==> Grant(src, args.term, args.cand) in w.grants)
    case AppendRequest(to, args) => to < |w.peers| && AppendOk(w, args)
    case AppendAnswer(src, args, reply) =>
      && src < |w.peers| && AppendOk(w, args)
      && if reply.success then Backed(w.acks, src, args.term, args.prevIndex + 1 + |args.entries|)
         else reply.term > args.term || 1 <= reply.conflictIndex <= |w.elections[args.term].log|
    case SnapshotRequest(to, args) => to < |w.peers| && SnapOk(w, args)
    case SnapshotAnswer(src, args, reply) =>
      && src < |w.peers| && SnapOk(w, args)
      && (reply.term > args.term || Backed(w.acks, src, args.term, args.lastIndex + 1))
  }

  // ---------------------------------------------------------------- clients

  /** Every entry after the sentinel is one submitted operation, at the place Start gave it. */
  ghost predicate OpsOk(E: Elections, submitted: map<int, Submission>) {
    forall t, j | t in E && 1 <= j < |E[t].log| :: EntryOk(E[t].log[j], j, submitted)
  }

  ghost predicate EntryOk(e: Entry, j: nat, submitted: map<int, Submission>) {
    && e.cmd.Command? && e.cmd.op.id in submitted
    && var sub := submitted[e.cmd.op.id];
    sub.index == j && sub.term == e.term && sub.req == e.cmd.op.req
  }

  /** An OK answer is the store's answer to that very operation where the chosen log has it. */
  ghost predicate SentOk(chosen: Log, submitted: map<int, Submission>, a: Sent) {
    && a.id in submitted
    && (a.outcome.Done? ==>
          && a.index < |chosen| && chosen[a.index].cmd.Command? && chosen[a.index].cmd.op.id == a.id
          && a.outcome.val == Answer(chosen, a.index))
  }

  ghost predicate DeliveryOk(chosen: Log, d: Delivery) {
    d.index < |chosen| && chosen[d.index].cmd == d.cmd
  }

  /** Nobody who was sent a result is still waiting. */
  ghost predicate Apart(s: System) {
    forall i, k, a | 0 <= i < |s.servers| && k in s.servers[i].pending && a in s.answers ::
      a.id != s.servers[i].pending[k].id
  }

  ghost predicate Rel(w: World, s: System) {
    && |w.peers| == |s.servers|
    && (forall i | 0 <= i < |s.servers| :: ServerOk(w, s.submitted, i, s.servers[i]))
    && (forall m | m in s.net :: MsgOk(w, m))
    && OpsOk(w.elections, s.submitted)
    && (forall a | a in s.answers :: SentOk(w.chosen, s.submitted, a))
    && (forall d | d in s.deliveries :: DeliveryOk(w.chosen, d))
    && Apart(s)
  }

  // ---------------------------------------------------------------- what growth preserves

  lemma BackedStays(w: World, w': World, q: nat, t: nat, len: nat)
    requires w.acks <= w'.acks && Backed(w.acks, q, t, len)
    ensures Backed(w'.acks, q, t, len)
  {
  }

  lemma AppendOkStays(w: World, w': World, args: AppendArgs)
    requires Grows(w, w') && AppendOk(w, args)
    ensures AppendOk(w', args) && |w.elections[args.term].log| <= |w'.elections[args.term].log|
  {
    var t := args.term;
    assert ElectionGrows(w.elections[t], w'.elections[t]);
    CommittedByGrows(w.elections, w'.elections, t, t, w.elections[t].log, args.leaderCommit + 1);
    CommittedByAgree(w'.elections, t, w.elections[t].log, w'.elections[t].log, args.leaderCommit + 1);
  }

  lemma CommittedByAgree(E: Elections, term: int, log: Log, log': Log, len: int)
    requires CommittedBy(E, term, log, len) && Agree(log, log', len)
    ensures CommittedBy(E, term, log', len)
  {
  }

  lemma SnapshotSame(a: Log, b: Log, base: nat)
    requires Agree(a, b, base + 1)
    ensures SnapshotOf(a, base) == SnapshotOf(b, base)
  {
    SameReplay(a, b, base + 1);
  }

  lemma SnapOkStays(w: World, w': World, args: SnapshotArgs)
    requires Grows(w, w') && SnapOk(w, args)
    ensures SnapOk(w', args)
  {
    var t := args.term;
    var log, log' := w.elections[t].log, w'.elections[t].log;
    assert ElectionGrows(w.elections[t], w'.elections[t]);
    CommittedByGrows(w.elections, w'.elections, t, t, log, args.lastIndex + 1);
    CommittedByAgree(w'.elections, t, log, log', args.lastIndex + 1);
    SnapshotSame(log, log', args.lastIndex);
  }

  lemma MsgStays(w: World, w': World, m: Message)
    requires Grows(w, w') && MsgOk(w, m)
    ensures MsgOk(w', m)
  {
    match m
    case VoteRequest(to, args) =>
    case VoteAnswer(src, args, reply) =>
    case AppendRequest(to, args) => AppendOkStays(w, w', args);
    case AppendAnswer(src, args, reply) =>
      AppendOkStays(w, w', args);
      if reply.success { BackedStays(w, w', src, args.term, args.prevIndex + 1 + |args.entries|); }
    case SnapshotRequest(to, args) => SnapOkStays(w, w', args);
    case SnapshotAnswer(src, args, reply) =>
      SnapOkStays(w, w', args);
      if reply.term <= args.term { BackedStays(w, w', src, args.term, args.lastIndex + 1); }
  }

  lemma AnswerSame(a: Log, b: Log, i: nat)
    requires Agree(a, b, i + 1) && a[i].cmd.Command?
    ensures b[i] == a[i] && Answer(b, i) == Answer(a, i)
  {
    SameReplay(a, b, i);
  }

  lemma SentStays(chosen: Log, chosen': Log, submitted: map<int, Submission>, submitted': map<int, Submission>, a: Sent)
    requires SentOk(chosen, submitted, a) && Agree(chosen, chosen', |chosen|) && SubmittedGrows(submitted, submitted')
    ensures SentOk(chosen', submitted', a)
  {
    if a.outcome.Done? { AnswerSame(chosen, chosen', a.index); }
  }

  /** The reader's view only depends on the committed part of the log. */
  lemma ReaderStays(log: Log, commit: nat, log': Log, commit': nat, x: Server, x': Server)
    requires ReaderOk(log, commit, x) && x'.raft.applied == x.raft.applied
    requires x' == x.(raft := x'.raft, awaiting := x'.awaiting, pending := x'.pending)
    requires Agree(log, log', commit + 1) && x.raft.applied <= commit' < |log'|
    ensures ReaderOk(log', commit', x')
  {
    SameReplay(log, log', x.position + 1);
    if x.queue != [] && x.queue[0].ApplySnapshot? { SameReplay(log, log', x.raft.applied + 1); }
    if x.reader.Notifying? { AnswerSame(log, log', x.position); }
  }

  lemma LeaderStays(w: World, w': World, i: nat, v: Node)
    requires w.acks <= w'.acks && LeaderOk(w, i, v)
    ensures LeaderOk(w', i, v)
  {
  }

  ghost predicate SubmittedGrows(sub: map<int, Submission>, sub': map<int, Submission>) {
    forall id | id in sub :: id in sub' && sub'[id] == sub[id]
  }

  /** A step of server i that changes nothing but its server, the network and the history. */
  lemma {:induction false} Frame(w: World, s: System, w': World, s': System, i: nat)
    requires Rel(w, s) && Grows(w, w') && i < |s.servers|
    requires |s'.servers| == |s.servers| && s.net <= s'.net
    requires forall j | 0 <= j < |s.servers| && j != i :: s'.servers[j] == s.servers[j] && w'.peers[j] == w.peers[j]
    requires SubmittedGrows(s.submitted, s'.submitted) && s'.answers == s.answers && s'.deliveries == s.deliveries
    requires ServerOk(w', s'.submitted, i, s'.servers[i]) && OpsOk(w'.elections, s'.submitted)
    requires Apart(s')
    requires forall m | m in s'.net && m !in s.net :: MsgOk(w', m)
    ensures Rel(w', s')
  {
    hide NodeOk, CandidateOk, ReaderOk, LeaderOk, PendingOk, MsgOk, OpsOk, SentOk, Apart;
    forall j | 0 <= j < |s'.servers| ensures ServerOk(w', s'.submitted, j, s'.servers[j]) {
      if j != i {
        assert ServerOk(w, s.submitted, j, s.servers[j]);
        LeaderStays(w, w', j, s.servers[j].raft);
        PendingStays(s.submitted, s'.submitted, j, s.servers[j]);
      }
    }
    forall m | m in s'.net ensures MsgOk(w', m) {
      if m in s.net { MsgStays(w, w', m); }
    }
    forall a | a in s'.answers ensures SentOk(w'.chosen, s'.submitted, a) {
      SentStays(w.chosen, w'.chosen, s.submitted, s'.submitted, a);
    }
  }

  lemma ApartFewer(w: World, s: System, s': System)
    requires Rel(w, s) && |s'.servers| == |s.servers| && s'.answers == s.answers
    requires forall j, k | 0 <= j < |s.servers| && k in s'.servers[j].pending ::
             k in s.servers[j].pending && s'.servers[j].pending[k] == s.servers[j].pending[k]
    ensures Apart(s')
  {
    hide ServerOk, MsgOk, OpsOk, SentOk, DeliveryOk;
  }

  lemma PendingStays(sub: map<int, Submission>, sub': map<int, Submission>, i: nat, x: Server)
    requires SubmittedGrows(sub, sub') && PendingOk(sub, i, x)
    ensures PendingOk(sub', i, x)
  {
  }

  /** The protocol moves from w to w' by a step of node i that takes the Raft node v to v'. */
  ghost predicate Moves(w: World, w': World, sub: map<int, Submission>, i: nat, v: Node, v': Node, awaiting: set<nat>)
    requires i < |w.peers|
  {
    && |w'.peers| == |w.peers| && Inv(w') && Grows(w, w') && Performs(w, w', i)
    && (forall j | 0 <= j < |w.peers| && j != i :: w'.peers[j] == w.peers[j])
    && RaftOk(w', i, v', awaiting) && v'.applied == v.applied
    && Agree(w.peers[i].log, w'.peers[i].log, w.peers[i].commit + 1) && w.peers[i].commit <= w'.peers[i].commit
    && OpsOk(w'.elections, sub)
    && (w'.chosen == w.chosen || |w'.chosen| == v'.commit + 1)
  }

  /** The chosen log only grows to what some node then knows to be committed. */
  ghost predicate Chose(w: World, w': World, s': System) {
    w'.chosen == w.chosen || exists i :: 0 <= i < |s'.servers| && |w'.chosen| == s'.servers[i].raft.commit + 1
  }

  /** By actions of node i the protocol has followed a step that led to s'. */
  ghost predicate Followed(w: World, w': World, s': System, i: nat) {
    Performs(w, w', i) && Inv(w') && Grows(w, w') && Rel(w', s') && Chose(w, w', s')
  }

  /** A step that only moves the Raft node of server i (and the outstanding vote calls) and sends messages. */
  lemma {:induction false} RaftFrame(w: World, s: System, w': World, i: nat, v': Node, awaiting: set<nat>,
          ms: set<Message>)
    requires Rel(w, s) && i < |s.servers| && i < |w.peers|
    requires Moves(w, w', s.submitted, i, s.servers[i].raft, v', awaiting)
    requires forall m | m in ms :: MsgOk(w', m)
    ensures Followed(w, w', Send(SetServer(s, i, s.servers[i].(raft := v', awaiting := awaiting)), ms), i)
  {
    hide MsgOk, OpsOk, LeaderOk, CandidateOk, Inv, SentOk, DeliveryOk, Performs;
    var x, x' := s.servers[i], s.servers[i].(raft := v', awaiting := awaiting);
    assert ServerOk(w, s.submitted, i, x);
    ReaderStays(w.peers[i].log, w.peers[i].commit, w'.peers[i].log, w'.peers[i].commit, x, x');
    var s' := Send(SetServer(s, i, x'), ms);
    Frame(w, s, w', s', i);
    assert s'.servers[i].raft == v';
  }

  lemma RelFacts(w: World, s: System, i: nat)
    requires Rel(w, s) && i < |s.servers|
    ensures |w.peers| == |s.servers| && OpsOk(w.elections, s.submitted)
    ensures ServerOk(w, s.submitted, i, s.servers[i]) && RaftOk(w, i, s.servers[i].raft, s.servers[i].awaiting)
  {
  }

  lemma MsgFacts(w: World, s: System, m: Message)
    requires Rel(w, s) && m in s.net
    ensures MsgOk(w, m)
  {
  }

  /** A node related to a peer of the protocol is well formed. */
  lemma NodeIsValid(w: World, i: nat, v: Node)
    requires Core(w) && i < |w.peers| && NodeOk(w.peers[i], |w.peers|, i, v)
    ensures Valid(v) && Len(v) == |w.peers[i].log| && Last(v).index == Len(v) - 1
    ensures Last(v).term == LastTerm(w.peers[i].log)
  {
    hide Core;
    Indexed(w, i);
    HeldShape(w.peers[i].log, v);
  }

  lemma Indexed(w: World, i: nat)
    requires Core(w) && i < |w.peers|
    ensures Consecutive(w.peers[i].log, 0)
  {
    assert PeerOk(w, i);
  }

  lemma HeldShape(log: Log, v: Node)
    requires Held(log, v) && Consecutive(log, 0)
    ensures Consecutive(v.logs, v.base) && Last(v).index == |log| - 1 && Last(v).term == LastTerm(log)
  {
  }
}
