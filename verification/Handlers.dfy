/**
 What single handlers owe their callers beyond keeping the cluster safe: when a vote is given, what a sender
 of an old term learns, whom a node takes for the leader, where a new leader starts, what replies and
 rounds of the applier bring, and what happens to those who wait on a server that no longer leads.
 */
module HandlerLaws {
  import opened Types
  import opened NodeModel
  import opened RsmModel
  import opened SystemModel
  import opened Protocol
  import opened Relation
  import opened ReplicationSteps
  import opened Runs
  import opened Theorems

  // ---------------------------------------------------------------- votes

  /** Compared lexicographically by term and index, a is at least b. */
  predicate AtLeast(aTerm: nat, aIndex: nat, bTerm: nat, bIndex: nat) {
    aTerm > bTerm || (aTerm == bTerm && aIndex >= bIndex)
  }

  /** A vote is given exactly to a candidate whose term is not over, who is the first to ask in that term or
      asks again, and whose last entry is at least the voter's. The voter is then in the candidate's term, has
      given up leading if that is a new term, and has saved its vote; nothing else about it changes. */
  lemma VoteDecision(v: Node, args: VoteArgs)
    requires Shape(v)
    ensures var (v', reply) := RequestVote(v, args);
            && (reply.granted <==>
                  && v.term <= args.term
                  && (v.term == args.term ==> v.votedFor == -1 || v.votedFor == args.cand)
                  && AtLeast(args.lastTerm, args.lastIndex, Last(v).term, Len(v) - 1))
            && reply.term == v.term
            && v' == v.(term := if args.term > v.term then args.term else v.term,
                        role := if args.term > v.term then Follower else v.role,
                        votedFor := if reply.granted then args.cand else if args.term > v.term then -1 else v.votedFor,
                        disk := if args.term < v.term then v.disk else v'.disk)
            && (args.term >= v.term ==> v'.disk == Disk(Some(HardOf(v')), v.disk.snapshot))
  {
  }

  /** In a run the comparison is one of whole logical logs. */
  lemma VoteComparesLogs(run: seq<System>, k: nat, i: nat, args: VoteArgs)
    requires IsRun(run) && On(run, k, i)
    ensures var v, log := NodeAt(run, k, i), LogicalLog(run, k, i);
            && Shape(v) && 1 <= |log|
            && (RequestVote(v, args).1.granted <==>
                  && v.term <= args.term
                  && (v.term == args.term ==> v.votedFor == -1 || v.votedFor == args.cand)
                  && AtLeast(args.lastTerm, args.lastIndex, LastTerm(log), |log| - 1))
  {
    hide IsRun, Inv, Rel, RequestVote, Represents, Shape;
    WorldFacts(run, k);
    ServerShape(Worlds(run)[k], run[k], i);
    VoteDecision(NodeAt(run, k, i), args);
  }

  lemma ServerShape(w: World, s: System, i: nat)
    requires Inv(w) && Rel(w, s) && i < |s.servers|
    ensures |w.peers| == |s.servers| && 1 <= |w.peers[i].log|
    ensures var v, log := s.servers[i].raft, w.peers[i].log;
            Valid(v) && Shape(v) && Len(v) == |log| && Last(v).term == LastTerm(log)
            && Held(log, v) && Consecutive(log, 0)
  {
    hide Core, ChosenOk, Rel, Held, SnapshotOf, CandidateOk, ReaderOk, PendingOk, LeaderOk, Durable;
    RelFacts(w, s, i);
    NodeIsValid(w, i, s.servers[i].raft);
    Indexed(w, i);
  }

  lemma Indexed(w: World, i: nat)
    requires Inv(w) && i < |w.peers|
    ensures Consecutive(w.peers[i].log, 0)
  {
    hide ChosenOk;
    assert PeerOk(w, i);
    LogIsIndexed(w.elections, w.peers[i].log);
  }

  // ---------------------------------------------------------------- old terms

  /** The node follows in this term, without a vote, and has saved that; the rest of it is as it was. */
  ghost predicate Deposed(v: Node, v': Node, term: nat) {
    v' == Save(v.(term := term, votedFor := -1, role := Follower), v.disk.snapshot)
  }

  /** A request of an old term changes nothing at its receiver u, and its reply makes a sender that is still in
      that term step down into exactly the receiver's term. */
  lemma OldVoteRequest(u: Node, v: Node, args: VoteArgs)
    requires Shape(u) && Shape(v) && args.term < u.term && v.role.Candidate? && v.term == args.term
    ensures var (u', reply) := RequestVote(u, args);
            u' == u && !reply.granted && Deposed(v, HandleVoteReply(v, args, reply), u.term)
  {
  }

  lemma OldAppendRequest(u: Node, v: Node, q: nat, args: AppendArgs)
    requires CanAppend(u, args) && Valid(v) && q < v.peers && args.term < u.term && v.term < u.term
    ensures var (u', reply) := NodeModel.AppendEntries(u, args);
            && u' == u && reply == AppendReply(u.term, false, 0, 0)
            && CanHandle(v, args, reply) && Deposed(v, HandleAppendReply(v, q, args, reply), u.term)
  {
  }

  lemma OldSnapshotRequest(u: Node, v: Node, q: nat, args: SnapshotArgs)
    requires Shape(v) && q < v.peers && args.term < u.term && v.term < u.term
    ensures var (u', reply) := InstallSnapshot(u, args);
            u' == u && Deposed(v, HandleSnapshotReply(v, q, args, reply), u.term)
  {
  }

  // ---------------------------------------------------------------- stopping between two saves

  /** A node that stops between the two saves of a campaign comes back in the new term with the vote of the old
      one, and in that term votes for nobody else. One that stops inside an installation comes back in the
      snapshot's term with the log and the snapshot it had. */
  lemma StoppedBetweenSaves(v: Node, ask: VoteArgs, snap: SnapshotArgs)
    requires Shape(v) && Durable(v) && v.term <= snap.term
    ensures var r := Restart(v.me, v.peers, FirstSaveOfCampaign(v).disk);
            && HardOf(r) == HardOf(v).(term := v.term + 1) && r.disk.snapshot == v.disk.snapshot
            && (ask.term == v.term + 1 ==>
                  (RequestVote(r, ask).1.granted <==>
                     && (v.votedFor == -1 || v.votedFor == ask.cand)
                     && AtLeast(ask.lastTerm, ask.lastIndex, Last(v).term, Len(v) - 1)))
    ensures var r := Restart(v.me, v.peers, FirstSaveOfInstall(v, snap).disk);
            && r.disk.snapshot == v.disk.snapshot
            && HardOf(r) == HardOf(v).(term := snap.term, votedFor := if snap.term > v.term then -1 else v.votedFor)
  {
    VoteDecision(Restart(v.me, v.peers, FirstSaveOfCampaign(v).disk), ask);
  }

  // ---------------------------------------------------------------- the leader hint

  /** After a request of its own or a newer term a node follows in that term and takes the right node for the
      leader: the one that leads in that term, whenever it does. */
  lemma HintNamesLeader(run: seq<System>, p: nat, m: Message, k: nat, b: nat)
    requires IsRun(run) && p + 1 < |run| && (m.AppendRequest? || m.SnapshotRequest?)
    requires Enabled(run[p], DeliverMessage(m)) && Safe(run[p], DeliverMessage(m))
    requires run[p + 1] == After(run[p], DeliverMessage(m))
    requires On(run, k, b) && NodeAt(run, k, b).role.Leader?
    requires NodeAt(run, k, b).term == (if m.AppendRequest? then m.app.term else m.snap.term)
    requires run[p].servers[m.to].raft.term <= NodeAt(run, k, b).term
    ensures On(run, p + 1, m.to)
    ensures var u := NodeAt(run, p + 1, m.to); u.leader == b && u.role.Follower? && u.term == NodeAt(run, k, b).term
  {
    hide IsRun, Inv, Rel, Merge, Conflict, TruncateWithSnapshot;
    var sender := if m.AppendRequest? then m.app.leader else m.snap.leader;
    assert sender == b by { SenderLeads(run, p, m, k, b); }
    assert NodeAt(run, p + 1, m.to).leader == sender;
  }

  lemma SenderLeads(run: seq<System>, p: nat, m: Message, k: nat, b: nat)
    requires IsRun(run) && p < |run| && m in run[p].net && (m.AppendRequest? || m.SnapshotRequest?)
    requires On(run, k, b) && NodeAt(run, k, b).role.Leader?
    requires NodeAt(run, k, b).term == (if m.AppendRequest? then m.app.term else m.snap.term)
    ensures b == if m.AppendRequest? then m.app.leader else m.snap.leader
  {
    hide IsRun, Inv, Rel, CommittedBy, SnapshotOf;
    WorldFacts(run, p);
    WorldFacts(run, k);
    var w, w', t := Worlds(run)[p], Worlds(run)[k], NodeAt(run, k, b).term;
    MsgFacts(w, run[p], m);
    LeadsElection(w', run[k], b);
    if p <= k {
      WorldsGrow(run, p, k);
      assert ElectionGrows(w.elections[t], w'.elections[t]);
    } else {
      WorldsGrow(run, k, p);
      assert ElectionGrows(w'.elections[t], w.elections[t]);
    }
  }

  /** In every reachable state a leader takes itself for the leader and a candidate nobody. */
  lemma OwnHint(run: seq<System>, k: nat, i: nat)
    requires IsRun(run) && On(run, k, i)
    ensures NodeAt(run, k, i).role.Leader? ==> NodeAt(run, k, i).leader == i
    ensures NodeAt(run, k, i).role.Candidate? ==> NodeAt(run, k, i).leader == -1
  {
    hide IsRun, Inv, Rel, Held, Durable, SnapshotOf, CandidateOk, LeaderOk, ReaderOk, PendingOk;
    WorldFacts(run, k);
    RelFacts(Worlds(run)[k], run[k], i);
  }

  // ---------------------------------------------------------------- a new leader

  /** A new leader's first request to every peer asks for nothing but agreement on its last entry. It counts
      every peer at its snapshot boundary and nobody but itself above it. */
  lemma NewLeaderStarts(v: Node, p: nat, k: nat)
    requires Shape(v) && p < v.peers
    ensures var v' := BecomeLeader(v);
            && v'.next[p] == Len(v) && v'.matched[v.me] == Len(v) - 1
            && AppendArgsFor(v', v'.next[p] - 1).prevIndex == Len(v) - 1
            && AppendArgsFor(v', v'.next[p] - 1).entries == []
            && NodesWithLogAt(v', k) == if k <= v.base then v.peers else 1
  {
    var v' := BecomeLeader(v);
    CountsAtBoundary(v'.matched, v.me, v.base, k, v.peers);
  }

  lemma {:induction false} CountsAtBoundary(matched: seq<nat>, me: nat, base: nat, k: nat, n: nat)
    requires n <= |matched| && forall q | 0 <= q < |matched| && q != me :: matched[q] == base
    ensures CountMatches(matched, me, k, n) == if k > base then 0 else if me < n then n - 1 else n
  {
    if n > 0 { CountsAtBoundary(matched, me, base, k, n - 1); }
  }

  // ---------------------------------------------------------------- replies to a leader

  function Max(x: nat, y: nat): nat { if x >= y then x else y }

  /** The reply to a snapshot raises the peer's indices to the snapshot's and never lowers them. */
  lemma SnapshotReplyCounts(v: Node, q: nat, args: SnapshotArgs, reply: SnapshotReply)
    requires Shape(v) && q < v.peers && v.role.Leader? && reply.term <= v.term == args.term
    ensures var v' := HandleSnapshotReply(v, q, args, reply);
            && v' == v.(next := v'.next, matched := v'.matched) && |v'.next| == |v.next| && |v'.matched| == |v.matched|
            && v'.next[q] == Max(v.next[q], args.lastIndex + 1) && v'.matched[q] == Max(v.matched[q], args.lastIndex)
            && forall p | 0 <= p < v.peers && p != q :: v'.next[p] == v.next[p] && v'.matched[p] == v.matched[p]
  {
  }

  /** Replies to requests of another term, and to a node that no longer leads, change nothing; neither does a
      rejection whose previous entry the leader has compacted in the meantime. */
  lemma LateReplies(v: Node, q: nat, args: AppendArgs, reply: AppendReply, snap: SnapshotArgs, installed: SnapshotReply)
    requires Valid(v) && q < v.peers && reply.term <= v.term && installed.term <= v.term && CanHandle(v, args, reply)
    ensures !v.role.Leader? || v.term != args.term || (!reply.success && args.prevIndex < v.base) ==>
              HandleAppendReply(v, q, args, reply) == v
    ensures !v.role.Leader? || v.term != snap.term ==> HandleSnapshotReply(v, q, snap, installed) == v
  {
  }

  // ---------------------------------------------------------------- the applier

  ghost predicate Round(log: Log, v: Node, v': Node, msgs: seq<ApplyMsg>) {
    if v.applied < v.base then
      && v' == v.(applied := v.base) && v.base < |log|
      && msgs == [ApplySnapshot(v.disk.snapshot, log[v.base].term, v.base)]
    else
      && v' == v.(applied := v.commit) && v.commit < |log| && |msgs| == v.commit - v.applied
      && forall j | 0 <= j < |msgs| :: msgs[j] == ApplyCommand(log[v.applied + 1 + j].cmd, v.applied + 1 + j)
  }

  /** A round of the applier hands over everything the node knows to be committed, or else the snapshot that
      stands before it. */
  lemma RoundReachesCommit(run: seq<System>, p: nat, i: nat)
    requires IsRun(run) && p + 1 < |run| && Enabled(run[p], Apply(i)) && Safe(run[p], Apply(i))
    requires run[p + 1] == After(run[p], Apply(i))
    ensures On(run, p, i) && On(run, p + 1, i)
    ensures var v, x, log := NodeAt(run, p, i), run[p + 1].servers[i], LogicalLog(run, p, i);
            Round(log, v, x.raft, x.queue)
  {
    hide IsRun, Inv, Rel, Deliver, Held, Represents;
    WorldFacts(run, p);
    ServerShape(Worlds(run)[p], run[p], i);
    BatchOf(LogicalLog(run, p, i), NodeAt(run, p, i));
  }

  /** What one round hands over, by the log the node holds. */
  lemma BatchOf(log: Log, v: Node)
    requires Held(log, v) && Valid(v) && Consecutive(log, 0) && v.applied < v.commit
    ensures Round(log, v, Deliver(v).0, Deliver(v).1)
  {
    if v.applied >= v.base {
      var msgs := Deliver(v).1;
      forall j | 0 <= j < |msgs| ensures msgs[j] == ApplyCommand(log[v.applied + 1 + j].cmd, v.applied + 1 + j) {
        HeldAt(log, v, v.applied + 1 + j);
        assert At(v, v.applied + 1 + j) == log[v.applied + 1 + j];
      }
    } else {
      HeldAt(log, v, v.base);
    }
  }

  /** A command handed over a second time is neither applied nor answered again. */
  lemma AppliedOnce(s: System, again: System, i: nat)
    requires Enabled(s, TakeCommand(i)) && Safe(s, TakeCommand(i))
    requires Enabled(again, TakeCommand(i)) && Safe(again, TakeCommand(i))
    requires var x, y := After(s, TakeCommand(i)).servers[i], again.servers[i];
             y.rsmApplied == x.rsmApplied && y.queue[0] == s.servers[i].queue[0]
    ensures var y := again.servers[i];
            After(again, TakeCommand(i)) == SetServer(again, i, y.(queue := y.queue[1..], position := y.queue[0].index))
  {
  }

  // ---------------------------------------------------------------- waiters

  /** After the reader has handled an index or a snapshot on a server that does not lead, nobody waits there any
      more, and everybody who did has a result. */
  lemma DeposedTellsEveryone(s: System, e: Event)
    requires Enabled(s, e) && Safe(s, e) && Honest(s, e) && (e.Notify? || e.TakeSnapshotMsg?)
    requires !s.servers[e.i].raft.role.Leader?
    ensures After(s, e).servers[e.i].pending == map[]
    ensures forall k | k in s.servers[e.i].pending ::
              Sent(s.servers[e.i].pending[k].id, k, Retry) in After(s, e).answers
  {
    hide Notified, Outdated;
    var x := s.servers[e.i];
    if e.Notify? {
      NobodyWaits(x.pending, x.reader.index, x.reader.id, x.reader.val, e.term);
    } else {
      NobodyWaits(x.pending, x.queue[0].index, -1, PutReply(OK), e.term);
    }
  }
}
