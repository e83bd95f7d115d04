/**
 The protocol on uncompacted logs as a transition system: its actions, when each is allowed, and what a node
 reaches by a sequence of its own actions. Every allowed action keeps the invariant and only adds to the
 history, so everything reached does.
 */
module Behaviour {
  import opened Types
  import opened Protocol
  import opened Actions

  /** `i` is the node that acts. */
  datatype Action =
    | EnterTerm(i: nat, term: nat, vote: int)
    | StepDown(i: nat)
    | Stand(i: nat)
    | CastVote(i: nat, cand: nat)
    | CountVote(i: nat, voter: nat)
    | TakeOffice(i: nat)
    | AppendEntry(i: nat, cmd: Command)
    | AcceptPrefix(i: nat, m: nat)
    | LearnCommitted(i: nat, commit: nat)
    | CommitPrefix(i: nat, k: nat, backers: set<nat>)

  ghost predicate Allowed(w: World, a: Action) {
    && a.i < |w.peers|
    && var p := w.peers[a.i];
    match a
    case EnterTerm(_, term, _) => p.term < term
    case StepDown(_) => true
    case Stand(_) => true
    case CastVote(_, cand) =>
      && Ballot(p.term, cand) in w.campaigns && (p.votedFor == -1 || p.votedFor == cand)
      && 1 <= |w.campaigns[Ballot(p.term, cand)]| && 1 <= |p.log|
      && UpToDate(w.campaigns[Ballot(p.term, cand)], p.log)
    case CountVote(i, voter) => Grant(voter, p.term, i) in w.grants
    case TakeOffice(_) => p.role.Candidate? && Quorum(p.counted, |w.peers|)
    case AppendEntry(_, _) => p.role.Leader? && p.term in w.elections
    case AcceptPrefix(_, m) =>
      && p.term in w.elections && 1 <= m <= |w.elections[p.term].log|
      && (p.role.Follower? || Agree(w.elections[p.term].log, p.log, m))
    case LearnCommitted(_, commit) =>
      p.commit <= commit < |p.log| && CommittedBy(w.elections, p.term, p.log, commit + 1)
    case CommitPrefix(_, k, backers) =>
      && p.role.Leader? && p.term in w.elections && w.elections[p.term].committed < k <= |p.log|
      && Own(w.elections, p.term, k) && Quorum(backers, |w.peers|)
      && forall q | q in backers :: Backed(w.acks, q, p.term, k)
  }

  ghost function Do(w: World, a: Action): World
    requires Allowed(w, a)
  {
    match a
    case EnterTerm(i, term, vote) => Advance(w, i, term, vote)
    case StepDown(i) => Reset(w, i)
    case Stand(i) => Campaign(w, i)
    case CastVote(i, cand) => Vote(w, i, cand)
    case CountVote(i, voter) => Count(w, i, voter)
    case TakeOffice(i) => Elect(w, i)
    case AppendEntry(i, cmd) => Append(w, i, cmd)
    case AcceptPrefix(i, m) => Accept(w, i, m)
    case LearnCommitted(i, commit) => Learn(w, i, commit)
    case CommitPrefix(i, k, backers) => Commit(w, i, k, backers)
  }

  lemma DoKeeps(w: World, a: Action)
    requires Inv(w) && Allowed(w, a)
    ensures Inv(Do(w, a)) && Grows(w, Do(w, a))
  {
    hide Inv, Grows;
    match a
    case EnterTerm(i, term, vote) => AdvanceKeeps(w, i, term, vote);
    case StepDown(i) => ResetKeeps(w, i);
    case Stand(i) => CampaignKeeps(w, i);
    case CastVote(i, cand) => VoteKeeps(w, i, cand);
    case CountVote(i, voter) => CountKeeps(w, i, voter);
    case TakeOffice(i) => ElectKeeps(w, i);
    case AppendEntry(i, cmd) => AppendKeeps(w, i, cmd);
    case AcceptPrefix(i, m) => AcceptKeeps(w, i, m);
    case LearnCommitted(i, commit) => LearnKeeps(w, i, commit);
    case CommitPrefix(i, k, backers) => CommitKeeps(w, i, k, backers);
  }

  // ---------------------------------------------------------------- sequences of actions

  ghost predicate Path(w: World, acts: seq<Action>, w': World)
    decreases acts
  {
    if acts == [] then w' == w
    else Allowed(w, acts[0]) && Path(Do(w, acts[0]), acts[1..], w')
  }

  ghost predicate By(acts: seq<Action>, i: nat) {
    forall k | 0 <= k < |acts| :: acts[k].i == i
  }

  /** Node i takes the protocol from w to w' by actions of its own. */
  ghost predicate Performs(w: World, w': World, i: nat) {
    exists acts :: Path(w, acts, w') && By(acts, i)
  }

  lemma {:induction false} PathKeeps(w: World, acts: seq<Action>, w': World)
    requires Inv(w) && Path(w, acts, w')
    ensures Inv(w') && Grows(w, w')
    decreases acts
  {
    hide Inv, Grows, Allowed, Do;
    if acts == [] {
      GrowsSelf(w);
    } else {
      var w1 := Do(w, acts[0]);
      DoKeeps(w, acts[0]);
      PathKeeps(w1, acts[1..], w');
      GrowsTransitive(w, w1, w');
    }
  }

  lemma PerformsKeeps(w: World, w': World, i: nat)
    requires Inv(w) && Performs(w, w', i)
    ensures Inv(w') && Grows(w, w')
  {
    hide Inv, Grows, Path;
    var acts :| Path(w, acts, w') && By(acts, i);
    PathKeeps(w, acts, w');
  }

  lemma PerformsNothing(w: World, i: nat)
    ensures Performs(w, w, i)
  {
    assert Path(w, [], w);
  }

  lemma PerformsOne(w: World, a: Action)
    requires Allowed(w, a)
    ensures Performs(w, Do(w, a), a.i)
  {
    hide Allowed, Do;
    assert [a][1..] == [];
    assert Path(w, [a], Do(w, a));
  }

  lemma PerformsAccept(w: World, i: nat, m: nat)
    requires i < |w.peers| && w.peers[i].term in w.elections && 1 <= m <= |w.elections[w.peers[i].term].log|
    requires w.peers[i].role.Follower? || Agree(w.elections[w.peers[i].term].log, w.peers[i].log, m)
    ensures Performs(w, Accept(w, i, m), i)
  {
    hide Performs;
    PerformsOne(w, AcceptPrefix(i, m));
  }

  lemma PerformsLearn(w: World, i: nat, commit: nat)
    requires i < |w.peers| && w.peers[i].commit <= commit < |w.peers[i].log|
    requires CommittedBy(w.elections, w.peers[i].term, w.peers[i].log, commit + 1)
    ensures Performs(w, Learn(w, i, commit), i)
  {
    hide Performs, CommittedBy;
    PerformsOne(w, LearnCommitted(i, commit));
  }

  lemma PerformsCommit(w: World, i: nat, k: nat, backers: set<nat>)
    requires i < |w.peers| && w.peers[i].role.Leader? && w.peers[i].term in w.elections
    requires w.elections[w.peers[i].term].committed < k <= |w.peers[i].log| && Own(w.elections, w.peers[i].term, k)
    requires Quorum(backers, |w.peers|) && forall q | q in backers :: Backed(w.acks, q, w.peers[i].term, k)
    ensures Performs(w, Commit(w, i, k, backers), i)
  {
    hide Performs, Quorum, Backed, Own;
    PerformsOne(w, CommitPrefix(i, k, backers));
  }

  lemma PerformsBoth(w: World, w1: World, w2: World, i: nat)
    requires Performs(w, w1, i) && Performs(w1, w2, i)
    ensures Performs(w, w2, i)
  {
    hide Path;
    var first :| Path(w, first, w1) && By(first, i);
    var second :| Path(w1, second, w2) && By(second, i);
    PathsJoin(w, first, w1, second, w2);
    assert By(first + second, i);
  }

  lemma {:induction false} PathsJoin(w: World, first: seq<Action>, w1: World, second: seq<Action>, w2: World)
    requires Path(w, first, w1) && Path(w1, second, w2)
    ensures Path(w, first + second, w2)
    decreases first
  {
    hide Allowed, Do;
    if first == [] {
      assert first + second == second;
    } else {
      PathsJoin(Do(w, first[0]), first[1..], w1, second, w2);
      assert (first + second)[1..] == first[1..] + second;
    }
  }

  // ---------------------------------------------------------------- growth

  lemma GrowsSelf(w: World)
    ensures Grows(w, w)
  {
  }

  lemma GrowsTransitive(w: World, w1: World, w2: World)
    requires Grows(w, w1) && Grows(w1, w2)
    ensures Grows(w, w2)
  {
    forall t | t in w.elections ensures t in w2.elections && ElectionGrows(w.elections[t], w2.elections[t]) {
      assert ElectionGrows(w.elections[t], w1.elections[t]) && ElectionGrows(w1.elections[t], w2.elections[t]);
    }
    forall j | 0 <= j < |w.peers| ensures w.peers[j].term <= w2.peers[j].term && KnownStays(w.peers[j], w2.peers[j]) {
      assert w.peers[j].term <= w1.peers[j].term && KnownStays(w.peers[j], w1.peers[j])
             && KnownStays(w1.peers[j], w2.peers[j]);
    }
  }
}
