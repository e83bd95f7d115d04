/** Steps of an election, and restarts, are steps of the protocol. */
module ElectionSteps {
  import opened Types
  import opened StoreModel
  import opened NodeModel
  import opened SystemModel
  import opened Protocol
  import opened Behaviour
  import opened Actions
  import opened Relation

  /** What relates a node to its peer survives a change of term, vote, role or hints, once saved. */
  lemma Resaved(p: Peer, n: nat, i: nat, v: Node, p': Peer, v': Node)
    requires NodeOk(p, n, i, v)
    requires p'.log == p.log && p'.commit == p.commit && p'.role == v'.role && p'.term == v'.term
    requires p'.votedFor == v'.votedFor
    requires v' == v.(term := v'.term, votedFor := v'.votedFor, role := v'.role, leader := v'.leader,
             granted := v'.granted,
                      next := v'.next, matched := v'.matched, disk := v'.disk)
    requires |v'.next| == n && |v'.matched| == n && HintOk(v')
    requires v'.disk == Disk(Some(HardOf(v')), v.disk.snapshot)
             || (v'.disk == v.disk && v'.term == v.term && v'.votedFor == v.votedFor)
    ensures NodeOk(p', n, i, v')
  {
  }

  // ---------------------------------------------------------------- campaigns

  lemma TimeoutStep(w: World, s: System, i: nat) returns (w': World)
    requires Inv(w) && Rel(w, s) && Enabled(s, Timeout(i)) && Safe(s, Timeout(i))
    ensures Followed(w, w', After(s, Timeout(i)), i)
  {
    hide Inv, Rel, Grows, RaftOk, ReaderOk, PendingOk, OpsOk, VoteOk, Valid, Performs;
    RelFacts(w, s, i);
    var x, others := s.servers[i], Others(|s.servers|, i);
    w' := CampaignMoves(w, s.submitted, i, x.raft, x.awaiting, others);
    RaftFrame(w, s, w', i, BecomeCandidate(x.raft), others,
              set p | p in others :: VoteRequest(p, CampaignArgs(BecomeCandidate(x.raft))));
  }

  lemma CampaignMoves(w: World, sub: map<int, Submission>, i: nat, v: Node, awaiting: set<nat>, others: set<nat>)
    returns (w': World)
    requires Inv(w) && i < |w.peers| && RaftOk(w, i, v, awaiting) && i !in others && OpsOk(w.elections, sub)
    ensures Moves(w, w', sub, i, v, BecomeCandidate(v), others) && |v.logs| >= 1
    ensures VoteOk(w', CampaignArgs(BecomeCandidate(v)))
  {
    hide Core, ChosenOk, OpsOk, Held, Performs;
    NodeIsValid(w, i, v);
    CampaignKeeps(w, i);
    w' := Campaign(w, i);
    PerformsOne(w, Stand(i));
    Resaved(w.peers[i], |w.peers|, i, v, w'.peers[i], BecomeCandidate(v));
  }

  // ---------------------------------------------------------------- higher terms

  /** The world after the node at i has seen `term`. */
  ghost function Seen(w: World, i: nat, term: nat): World
    requires i < |w.peers|
  {
    if term > w.peers[i].term then Advance(w, i, term, -1) else w
  }

  lemma SeenKeeps(w: World, i: nat, term: nat)
    requires Inv(w) && i < |w.peers|
    ensures Inv(Seen(w, i, term)) && Grows(w, Seen(w, i, term)) && Performs(w, Seen(w, i, term), i)
  {
    hide Inv, Grows, Performs;
    if term > w.peers[i].term {
      AdvanceKeeps(w, i, term, -1);
      PerformsOne(w, EnterTerm(i, term, -1));
    } else {
      GrowsSelf(w);
      PerformsNothing(w, i);
    }
  }

  function SawTerm(v: Node, term: nat): Node {
    if term > v.term then v.(role := Follower, term := term, votedFor := -1) else v
  }

  lemma SeenMoves(w: World, sub: map<int, Submission>, i: nat, v: Node, awaiting: set<nat>, term: nat)
    requires Inv(w) && i < |w.peers| && RaftOk(w, i, v, awaiting) && OpsOk(w.elections, sub)
    ensures Moves(w, Seen(w, i, term), sub, i, v, Persist(SawTerm(v, term)), awaiting)
    ensures term <= v.term ==> Moves(w, w, sub, i, v, v, awaiting)
  {
    hide Core, ChosenOk, OpsOk, Held, Performs;
    SeenKeeps(w, i, term);
    PerformsNothing(w, i);
    Resaved(w.peers[i], |w.peers|, i, v, Seen(w, i, term).peers[i], Persist(SawTerm(v, term)));
  }

  // ---------------------------------------------------------------- votes

  lemma VoteRequestStep(w: World, s: System, m: Message) returns (w': World)
    requires Inv(w) && Rel(w, s) && m.VoteRequest? && Enabled(s, DeliverMessage(m)) && Safe(s, DeliverMessage(m))
    ensures Followed(w, w', After(s, DeliverMessage(m)), Place(DeliverMessage(m)))
  {
    hide Inv, Rel, Grows, RaftOk, ReaderOk, PendingOk, OpsOk, VoteOk, Valid, RequestVote, Performs;
    var i, args := m.to, m.vote;
    RelFacts(w, s, i);
    MsgFacts(w, s, m);
    var x := s.servers[i];
    w' := VoteMoves(w, s.submitted, i, x.raft, x.awaiting, args);
    var (v', reply) := RequestVote(x.raft, args);
    RaftFrame(w, s, w', i, v', x.awaiting, {VoteAnswer(i, args, reply)});
  }

  lemma VoteMoves(w: World, sub: map<int, Submission>, i: nat, v: Node, awaiting: set<nat>, args: VoteArgs)
    returns (w': World)
    requires Inv(w) && i < |w.peers| && RaftOk(w, i, v, awaiting) && OpsOk(w.elections, sub) && VoteOk(w, args)
    ensures |v.logs| >= 1 && Moves(w, w', sub, i, v, RequestVote(v, args).0, awaiting)
    ensures RequestVote(v, args).1.granted ==> Grant(i, args.term, args.cand) in w'.grants
  {
    hide Core, ChosenOk, OpsOk, Held, CandidateOk, LeaderOk, Moves;
    NodeIsValid(w, i, v);
    SeenMoves(w, sub, i, v, awaiting, args.term);
    w' := if args.term < v.term then w else Seen(w, i, args.term);
    if RequestVote(v, args).1.granted {
      w' := GrantMoves(w, sub, i, v, awaiting, args);
    }
  }

  lemma GrantMoves(w: World, sub: map<int, Submission>, i: nat, v: Node, awaiting: set<nat>, args: VoteArgs)
    returns (w': World)
    requires Inv(w) && i < |w.peers| && RaftOk(w, i, v, awaiting) && OpsOk(w.elections, sub) && VoteOk(w, args)
    requires |v.logs| >= 1 && RequestVote(v, args).1.granted
    ensures Moves(w, w', sub, i, v, RequestVote(v, args).0, awaiting)
    ensures Grant(i, args.term, args.cand) in w'.grants
  {
    hide Core, ChosenOk, OpsOk, Held, Grows, Performs;
    var w1 := Seen(w, i, args.term);
    NodeIsValid(w, i, v);
    SeenKeeps(w, i, args.term);
    CampaignsStay(w, w1);
    VoteKeeps(w1, i, args.cand);
    w' := Vote(w1, i, args.cand);
    GrowsTransitive(w, w1, w');
    PerformsOne(w1, CastVote(i, args.cand));
    PerformsBoth(w, w1, w', i);
    Resaved(w.peers[i], |w.peers|, i, v, w'.peers[i], RequestVote(v, args).0);
  }

  lemma CampaignsStay(w: World, w': World)
    requires Grows(w, w')
    ensures forall b | b in w.campaigns :: b in w'.campaigns && w'.campaigns[b] == w.campaigns[b]
  {
  }

  // ---------------------------------------------------------------- counting votes

  lemma VoteAnswerStep(w: World, s: System, m: Message) returns (w': World)
    requires Inv(w) && Rel(w, s) && m.VoteAnswer? && Enabled(s, DeliverMessage(m)) && Safe(s, DeliverMessage(m))
    ensures Followed(w, w', After(s, DeliverMessage(m)), Place(DeliverMessage(m)))
  {
    hide Inv, Rel, Grows, RaftOk, ReaderOk, PendingOk, OpsOk, Valid, HandleVoteReply, Performs;
    var i, args := m.vote.cand, m.vote;
    RelFacts(w, s, i);
    MsgFacts(w, s, m);
    var x := s.servers[i];
    var awaiting := if args.term == x.raft.term then x.awaiting - {m.src} else x.awaiting;
    w' := CountMoves(w, s.submitted, i, x.raft, x.awaiting, m);
    var v' := HandleVoteReply(x.raft, args, m.voteReply);
    RaftFrame(w, s, w', i, v', awaiting, {});
    assert s.net + {} == s.net;
  }

  lemma CountMoves(w: World, sub: map<int, Submission>, i: nat, v: Node, awaiting: set<nat>, m: Message)
    returns (w': World)
    requires Inv(w) && i < |w.peers| && RaftOk(w, i, v, awaiting) && OpsOk(w.elections, sub)
    requires m.VoteAnswer? && MsgOk(w, m) && m.vote.cand == i && (m.vote.term == v.term ==> m.src in awaiting)
    ensures Shape(v)
            && Moves(w, w', sub, i, v, HandleVoteReply(v, m.vote, m.voteReply), if m.vote.term == v.term
               then awaiting - {m.src} else awaiting)
  {
    hide Core, ChosenOk, OpsOk, Held, Moves;
    NodeIsValid(w, i, v);
    var fewer := if m.vote.term == v.term then awaiting - {m.src} else awaiting;
    assert RaftOk(w, i, v, fewer);
    SeenMoves(w, sub, i, v, fewer, m.voteReply.term);
    w' := Seen(w, i, m.voteReply.term);
    if !(v.role.Candidate? && v.term == m.vote.term) {
      SeenMoves(w, sub, i, v, fewer, 0);
      w' := w;
    } else if m.voteReply.term <= v.term && m.voteReply.granted {
      w' := GrantedMoves(w, sub, i, v, awaiting, m.src);
    }
  }

  function OneMore(v: Node): Node
    requires Shape(v)
  {
    var v2 := v.(granted := v.granted + 1);
    if v2.granted == v.peers / 2 + 1 then BecomeLeader(v2) else v2
  }

  lemma GrantedMoves(w: World, sub: map<int, Submission>, i: nat, v: Node, awaiting: set<nat>, src: nat)
    returns (w': World)
    requires Inv(w) && i < |w.peers| && RaftOk(w, i, v, awaiting) && OpsOk(w.elections, sub) && Shape(v)
    requires v.role.Candidate? && src < |w.peers| && src in awaiting && Grant(src, v.term, i) in w.grants
    ensures Moves(w, w', sub, i, v, OneMore(v), awaiting - {src})
  {
    hide Core, ChosenOk, OpsOk, Held, Performs;
    var w1, v1 := Count(w, i, src), v.(granted := v.granted + 1);
    CountKeeps(w, i, src);
    PerformsOne(w, CountVote(i, src));
    Resaved(w.peers[i], |w.peers|, i, v, w1.peers[i], v1);
    w' := w1;
    if v1.granted == v.peers / 2 + 1 {
      w' := LeaderMoves(w1, sub, i, v1, awaiting - {src});
      GrowsTransitive(w, w1, w');
      PerformsBoth(w, w1, w', i);
    }
  }

  lemma LeaderMoves(w: World, sub: map<int, Submission>, i: nat, v: Node, awaiting: set<nat>) returns (w': World)
    requires Inv(w) && i < |w.peers| && RaftOk(w, i, v, awaiting) && OpsOk(w.elections, sub) && Shape(v)
    requires v.role.Candidate? && v.granted == v.peers / 2 + 1
    ensures Moves(w, w', sub, i, v, BecomeLeader(v), awaiting)
  {
    hide Core, ChosenOk, OpsOk, Held, Performs;
    NodeIsValid(w, i, v);
    ElectKeeps(w, i);
    w' := Elect(w, i);
    PerformsOne(w, TakeOffice(i));
    ElectedOps(w, sub, i);
    Resaved(w.peers[i], |w.peers|, i, v, w'.peers[i], BecomeLeader(v));
  }

  lemma ElectedOps(w: World, sub: map<int, Submission>, i: nat)
    requires Core(w) && i < |w.peers| && OpsOk(w.elections, sub)
    ensures OpsOk(Elect(w, i).elections, sub)
  {
    var log := w.peers[i].log;
    assert PeerOk(w, i);
    forall j | 1 <= j < |log| ensures EntryOk(log[j], j, sub) {
      LogEntryOk(w.elections, sub, log, j);
    }
  }

  lemma LogEntryOk(E: Elections, sub: map<int, Submission>, log: Log, j: nat)
    requires OpsOk(E, sub) && LogOk(E, log) && 1 <= j < |log|
    ensures EntryOk(log[j], j, sub)
  {
  }

  // ---------------------------------------------------------------- stopping and starting again

  /** A server started from its own disk, or from one whose term has moved on with any vote. */
  lemma BootStep(w: World, s: System, i: nat, disk: Disk) returns (w': World)
    requires Inv(w) && Rel(w, s) && i < |s.servers|
    requires var h, v := Saved(disk), s.servers[i].raft;
             && disk.snapshot == v.disk.snapshot && h.logs == v.logs && h.base == v.base && h.baseTerm == v.baseTerm
             && (h.term > v.term || (h.term == v.term && h.votedFor == v.votedFor))
    ensures Followed(w, w', SetServer(s, i, Boot(s.servers[i].raft.me, s.servers[i].raft.peers, disk)), i)
  {
    hide Core, ChosenOk, Rel, Grows, OpsOk, Held, Replay, Performs;
    RelFacts(w, s, i);
    var v, h := s.servers[i].raft, Saved(disk);
    var w1 := w;
    GrowsSelf(w);
    PerformsNothing(w, i);
    if h.term > v.term {
      AdvanceKeeps(w, i, h.term, h.votedFor);
      w1 := Advance(w, i, h.term, h.votedFor);
      PerformsOne(w, EnterTerm(i, h.term, h.votedFor));
    }
    ResetKeeps(w1, i);
    w' := Reset(w1, i);
    GrowsTransitive(w, w1, w');
    PerformsOne(w1, StepDown(i));
    PerformsBoth(w, w1, w', i);
    FirstIsSentinel(w, i);
    BootedServer(w, i, s.servers[i], w', disk, s.submitted);
    ApartFewer(w, s, SetServer(s, i, Boot(v.me, v.peers, disk)));
    Frame(w, s, w', SetServer(s, i, Boot(v.me, v.peers, disk)), i);
  }

  lemma FirstIsSentinel(w: World, i: nat)
    requires Core(w) && i < |w.peers|
    ensures 0 < |w.peers[i].log| && w.peers[i].log[0] == Sentinel
  {
    assert PeerOk(w, i);
    StartsWithSentinel(w, w.peers[i].log);
  }

  lemma BootedServer(w: World, i: nat, x: Server, w': World, disk: Disk, sub: map<int, Submission>)
    requires i < |w.peers| && |w'.peers| == |w.peers| && RaftOk(w, i, x.raft, x.awaiting) && 0 < |w.peers[i].log|
    requires var h, v := Saved(disk), x.raft;
             && disk.snapshot == v.disk.snapshot && h.logs == v.logs && h.base == v.base && h.baseTerm == v.baseTerm
             && w'.peers[i] == w.peers[i].(term := h.term, votedFor := h.votedFor, role := Follower, counted := {})
    requires w.peers[i].log[0].cmd.NoCommand?
    ensures ServerOk(w', sub, i, Boot(i, |w.peers|, disk))
  {
    var log := w.peers[i].log;
    assert Replay(log, 1) == Run(Replay(log, 0), log[0].cmd);
  }
}
