/**
 The protocol over uncompacted logs, with the history that its safety argument needs.

 A `World` holds every node's full logical log (index 0 is the sentinel) next to an append-only
 history: who was elected with which log, which votes were cast, and which prefixes of a leader's log
 a node has acknowledged. Every handler of the implementation is a short sequence of the small actions
 below, and each action keeps `Inv`. Leader completeness is not itself inductive: it follows from `Inv`.
 */
module Protocol {
  import opened Types

  /** The election of one term: the leader's log when it won, the log it has since grown to, the votes
      that were counted, and how much of the log it committed by counting (and on whose word). */
  datatype Election = Election(leader: nat, voters: set<nat>, init: Log, log: Log,
                               committed: nat, backers: set<nat>)

  datatype Peer = Peer(term: nat, votedFor: int, role: Role, log: Log, commit: nat, counted: set<nat>)

  /** `node` held the first `len` entries of the log of the leader of `term`, while in `term`. */
  datatype Ack = Ack(node: nat, term: nat, len: nat)
  datatype Grant = Grant(voter: nat, term: nat, cand: nat)
  datatype Ballot = Ballot(term: nat, cand: nat)

  type Elections = map<nat, Election>

  datatype World = World(peers: seq<Peer>, elections: Elections, campaigns: map<Ballot, Log>,
                         grants: set<Grant>, acks: set<Ack>, chosen: Log)

  // ---------------------------------------------------------------- logs

  /** The first `k` entries exist in both logs and are equal. */
  ghost predicate Agree(a: Log, b: Log, k: int) {
    0 <= k <= |a| && k <= |b| && forall i | 0 <= i < k :: a[i] == b[i]
  }

  /** Every entry's whole prefix comes from the log of the leader of that entry's term. */
  ghost predicate LogOk(E: Elections, log: Log) {
    && 1 <= |log|
    && forall j | 0 <= j < |log| ::
         log[j].index == j && log[j].term in E && Agree(log, E[log[j].term].log, j + 1)
  }

  ghost predicate TermsBelow(log: Log, bound: int) {
    forall j | 0 <= j < |log| :: log[j].term < bound
  }

  /** Position k (counted from 1) of the log of the leader of `t` holds an entry of term `t` itself. */
  ghost predicate Own(E: Elections, t: nat, k: int) {
    t in E && 1 <= k <= |E[t].log| && E[t].log[k - 1].term == t
  }

  /** Some leader elected after term `t`, at or before `hi`, started without the first k entries of `t`. */
  ghost predicate Lost(E: Elections, t: nat, k: int, hi: int)
    requires t in E
  {
    exists t2 :: t < t2 <= hi && t2 in E && !Agree(E[t].log, E[t2].init, k)
  }

  ghost predicate Kept(E: Elections, t: nat, k: int, log: Log, hi: int)
    requires t in E
  {
    Agree(E[t].log, log, k) || Lost(E, t, k, hi)
  }

  /** The first `len` entries of `log` are committed by the leader of some term not after `term`. */
  ghost predicate CommittedBy(E: Elections, term: int, log: Log, len: int) {
    exists t :: t in E && t <= term && len <= E[t].committed && Agree(log, E[t].log, len)
  }

  ghost function LastTerm(log: Log): nat
    requires 1 <= |log|
  {
    log[|log| - 1].term
  }

  ghost predicate UpToDate(cand: Log, mine: Log)
    requires 1 <= |cand| && 1 <= |mine|
  {
    if LastTerm(cand) != LastTerm(mine) then LastTerm(cand) > LastTerm(mine) else |cand| >= |mine|
  }

  // ---------------------------------------------------------------- quorums

  ghost predicate Quorum(s: set<nat>, n: nat) {
    (forall x | x in s :: x < n) && 2 * |s| > n
  }

  ghost function Range(n: nat): (s: set<nat>)
    ensures forall x :: x in s <==> 0 <= x < n
    ensures |s| == n
  {
    if n == 0 then {} else Range(n - 1) + {n - 1}
  }

  lemma SubsetSize(a: set<nat>, b: set<nat>)
    requires a <= b
    ensures |a| <= |b|
  {
    assert b == a + (b - a);
  }

  lemma QuorumsMeet(a: set<nat>, b: set<nat>, n: nat) returns (x: nat)
    requires Quorum(a, n) && Quorum(b, n)
    ensures x in a && x in b
  {
    if a * b == {} {
      assert |a + b| == |a| + |b|;
      assert a + b <= Range(n);
      SubsetSize(a + b, Range(n));
      assert false;
    }
    x :| x in a * b;
  }

  // ---------------------------------------------------------------- invariant

  ghost predicate Backed(acks: set<Ack>, node: nat, term: nat, len: nat) {
    exists a :: a in acks && a.node == node && a.term == term && len <= a.len
  }

  ghost predicate VotersKeep(w: World, t: nat)
    requires t in w.elections
  {
    forall a, k | a in w.acks && a.node in w.elections[t].voters && a.term < t && k <= a.len
      && Own(w.elections, a.term, k) ::
      Kept(w.elections, a.term, k, w.elections[t].init, t - 1)
  }

  ghost predicate ElectionOk(w: World, t: nat)
    requires t in w.elections
  {
    var e := w.elections[t];
    && 1 <= |e.init| && Agree(e.init, e.log, |e.init|)
    && LogOk(w.elections, e.log)
    && (forall j | |e.init| <= j < |e.log| :: e.log[j].term == t)
    && 1 <= e.committed <= |e.log|
    && if t == 0 then
         e.init == e.log == [Sentinel]
       else
         && TermsBelow(e.init, t)
         && e.leader < |w.peers| && t <= w.peers[e.leader].term
         && Ballot(t, e.leader) in w.campaigns && w.campaigns[Ballot(t, e.leader)] == e.init
         && Quorum(e.voters, |w.peers|)
         && (forall v | v in e.voters :: Grant(v, t, e.leader) in w.grants)
         && VotersKeep(w, t)
         && (e.committed > 1 ==>
               && Own(w.elections, t, e.committed)
               && Quorum(e.backers, |w.peers|)
               && forall q | q in e.backers :: Backed(w.acks, q, t, e.committed))
  }

  ghost predicate CampaignOk(w: World, b: Ballot)
    requires b in w.campaigns
  {
    && LogOk(w.elections, w.campaigns[b]) && TermsBelow(w.campaigns[b], b.term)
    && 1 <= b.term && b.cand < |w.peers| && b.term <= w.peers[b.cand].term
  }

  ghost predicate VoterKeeps(w: World, g: Grant)
    requires Ballot(g.term, g.cand) in w.campaigns
  {
    forall a, k | a in w.acks && a.node == g.voter && a.term < g.term && k <= a.len && Own(w.elections, a.term, k) ::
      Kept(w.elections, a.term, k, w.campaigns[Ballot(g.term, g.cand)], g.term)
  }

  ghost predicate GrantOk(w: World, g: Grant) {
    && g.voter < |w.peers| && g.term <= w.peers[g.voter].term
    && Ballot(g.term, g.cand) in w.campaigns
    && (g.term == w.peers[g.voter].term ==> w.peers[g.voter].votedFor == g.cand)
    && (g.term !in w.elections ==> VoterKeeps(w, g))
  }

  ghost predicate AckOk(w: World, a: Ack) {
    && a.node < |w.peers| && a.term in w.elections && a.len <= |w.elections[a.term].log|
    && a.term <= w.peers[a.node].term
    && (a.term == w.peers[a.node].term ==> Agree(w.elections[a.term].log, w.peers[a.node].log, a.len))
    && forall k | k <= a.len && Own(w.elections, a.term, k) ::
         Kept(w.elections, a.term, k, w.peers[a.node].log, w.peers[a.node].term)
  }

  ghost predicate PeerOk(w: World, i: nat)
    requires i < |w.peers|
  {
    var p := w.peers[i];
    && LogOk(w.elections, p.log) && TermsBelow(p.log, p.term + 1)
    && p.commit < |p.log| && CommittedBy(w.elections, p.term, p.log, p.commit + 1)
    && (p.role.Leader? ==>
          p.term in w.elections && 0 < p.term && w.elections[p.term].leader == i && p.log == w.elections[p.term].log)
    && (p.role.Candidate? ==>
          && Ballot(p.term, i) in w.campaigns && w.campaigns[Ballot(p.term, i)] == p.log
          && !(p.term in w.elections && w.elections[p.term].leader == i)
          && forall v | v in p.counted :: Grant(v, p.term, i) in w.grants)
  }

  ghost predicate ChosenOk(w: World) {
    && (forall t | t in w.elections :: Agree(w.elections[t].log, w.chosen, w.elections[t].committed))
    && exists t :: t in w.elections && |w.chosen| == w.elections[t].committed
  }

  ghost predicate OneVotePerTerm(w: World) {
    forall g, h | g in w.grants && h in w.grants && g.voter == h.voter && g.term == h.term :: g.cand == h.cand
  }

  ghost predicate Core(w: World) {
    && 0 in w.elections
    && (forall t | t in w.elections :: ElectionOk(w, t))
    && (forall b | b in w.campaigns :: CampaignOk(w, b))
    && (forall g | g in w.grants :: GrantOk(w, g))
    && OneVotePerTerm(w)
    && (forall a | a in w.acks :: AckOk(w, a))
    && (forall i | 0 <= i < |w.peers| :: PeerOk(w, i))
  }

  ghost predicate Inv(w: World) {
    Core(w) && ChosenOk(w)
  }

  // ---------------------------------------------------------------- growth of the history

  ghost predicate ElectionGrows(e: Election, e': Election) {
    && e'.leader == e.leader && e'.voters == e.voters && e'.init == e.init
    && Agree(e.log, e'.log, |e.log|) && e.committed <= e'.committed
  }

  ghost predicate ElectionsGrow(E: Elections, E': Elections) {
    forall t | t in E :: t in E' && ElectionGrows(E[t], E'[t])
  }

  /** What a peer ever knew to be committed it keeps, and never knows less. */
  ghost predicate KnownStays(p: Peer, p': Peer) {
    p.commit <= p'.commit && forall k | 0 <= k < |p.log| && k <= p.commit :: k < |p'.log| && p'.log[k] == p.log[k]
  }

  /** What every action, hence every run, only ever adds to. */
  ghost predicate HistoryGrows(w: World, w': World) {
    && |w'.peers| == |w.peers|
    && (forall i | 0 <= i < |w.peers| :: w.peers[i].term <= w'.peers[i].term && KnownStays(w.peers[i], w'.peers[i]))
    && ElectionsGrow(w.elections, w'.elections)
    && (forall b | b in w.campaigns :: b in w'.campaigns && w'.campaigns[b] == w.campaigns[b])
    && w.grants <= w'.grants && w.acks <= w'.acks
  }

  ghost predicate Grows(w: World, w': World) {
    HistoryGrows(w, w') && Agree(w.chosen, w'.chosen, |w.chosen|)
  }

  lemma LogOkGrows(E: Elections, E': Elections, log: Log)
    requires LogOk(E, log) && ElectionsGrow(E, E')
    ensures LogOk(E', log)
  {
  }

  lemma KeptGrows(E: Elections, E': Elections, t: nat, k: int, log: Log, hi: int)
    requires ElectionsGrow(E, E') && t in E && k <= |E[t].log| && Kept(E, t, k, log, hi)
    ensures Kept(E', t, k, log, hi)
  {
  }

  lemma OwnBefore(E: Elections, E': Elections, t: nat, k: int)
    requires ElectionsGrow(E, E') && t in E && k <= |E[t].log| && Own(E', t, k)
    ensures Own(E, t, k)
  {
  }

  lemma CommittedByGrows(E: Elections, E': Elections, term: int, term': int, log: Log, len: int)
    requires ElectionsGrow(E, E') && CommittedBy(E, term, log, len) && term <= term'
    ensures CommittedBy(E', term', log, len)
  {
  }

  // ---------------------------------------------------------------- consequences of the invariant

  /** Entries of a well-formed log have non-decreasing terms. */
  lemma Sorted(w: World, log: Log, i: int, j: int)
    requires Core(w) && LogOk(w.elections, log) && 0 <= i <= j < |log|
    ensures log[i].term <= log[j].term
  {
    var t := log[j].term;
    assert ElectionOk(w, t);
    assert log[i] == w.elections[t].log[i];
  }

  /** Every log starts with the sentinel, which every leader starts with. */
  lemma StartsWithSentinel(w: World, log: Log)
    requires Core(w) && LogOk(w.elections, log)
    ensures log[0] == Sentinel
  {
    var t := log[0].term;
    assert ElectionOk(w, t);
    assert log[0] == w.elections[t].log[0];
  }

  /** Log matching: the same term at the same index means the same log up to that index. */
  lemma LogMatching(E: Elections, a: Log, b: Log, i: int)
    requires LogOk(E, a) && LogOk(E, b) && 0 <= i < |a| && i < |b| && a[i].term == b[i].term
    ensures Agree(a, b, i + 1)
  {
  }

  /** Leader completeness, as an induction over the later terms. */
  lemma {:induction false} CommittedIsInherited(w: World, t: nat, t': nat)
    requires Core(w) && t in w.elections && t' in w.elections && t < t'
    ensures Agree(w.elections[t].log, w.elections[t'].init, w.elections[t].committed)
    decreases t'
  {
    var E := w.elections;
    assert ElectionOk(w, t) && ElectionOk(w, t');
    var k := E[t].committed;
    if k == 1 {
      StartsWithSentinel(w, E[t].log);
      StartsWithSentinel(w, E[t'].log);
    } else {
      var v := QuorumsMeet(E[t].backers, E[t'].voters, |w.peers|);
      assert Backed(w.acks, v, t, k);
      var a :| a in w.acks && a.node == v && a.term == t && k <= a.len;
      assert Kept(E, a.term, k, E[t'].init, t' - 1);
      if Lost(E, t, k, t' - 1) {
        var t2 :| t < t2 <= t' - 1 && t2 in E && !Agree(E[t].log, E[t2].init, k);
        CommittedIsInherited(w, t, t2);
        assert false;
      }
    }
  }

  /** What a node knows to be committed is in the log of every leader of its term or a later one. */
  lemma KnownIsInherited(w: World, log: Log, term: int, len: int, t': nat)
    requires Core(w) && CommittedBy(w.elections, term, log, len) && t' in w.elections && term <= t'
    ensures Agree(log, w.elections[t'].log, len)
  {
    var t :| t in w.elections && t <= term && len <= w.elections[t].committed && Agree(log, w.elections[t].log, len);
    if t != t' {
      CommittedIsInherited(w, t, t');
      assert ElectionOk(w, t');
    }
  }

  lemma KnownIsChosen(w: World, log: Log, term: int, len: int)
    requires Inv(w) && CommittedBy(w.elections, term, log, len)
    ensures Agree(log, w.chosen, len)
  {
    var t :| t in w.elections && t <= term && len <= w.elections[t].committed && Agree(log, w.elections[t].log, len);
    assert Agree(w.elections[t].log, w.chosen, w.elections[t].committed);
  }
}
