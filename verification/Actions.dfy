/**
 The actions of the protocol, and the proof that each keeps the invariant.

 Every action changes one peer and adds to the history. `Advance` lets the vote of the new term be any
 value: that is what a node holds that stopped after saving the new term and before saving its own vote.
 */
module Actions {
  import opened Types
  import opened Protocol

  ghost function SetPeer(w: World, i: nat, p: Peer): World
    requires i < |w.peers|
  {
    w.(peers := w.peers[i := p])
  }

  // ---------------------------------------------------------------- what any step leaves alone

  /** A step adds to the history, acknowledges only in a node's current term or later, and changes a vote
      only in a new term or where there was none. */
  ghost predicate Step(w: World, w': World) {
    && HistoryGrows(w, w')
    && (forall a | a in w'.acks && a !in w.acks :: a.node < |w.peers| && w.peers[a.node].term <= a.term)
    && (forall j | 0 <= j < |w.peers| ::
          w'.peers[j].term == w.peers[j].term && w.peers[j].votedFor != -1 ==>
             w'.peers[j].votedFor == w.peers[j].votedFor)
  }

  /** A step that leaves the elections alone. */
  lemma SameElections(w: World, w': World)
    requires w'.elections == w.elections && |w'.peers| == |w.peers|
    requires forall i | 0 <= i < |w.peers| ::
               w.peers[i].term <= w'.peers[i].term && (w'.peers[i] == w.peers[i] || KnownStays(w.peers[i], w'.peers[i]))
    requires forall b | b in w.campaigns :: b in w'.campaigns && w'.campaigns[b] == w.campaigns[b]
    requires w.grants <= w'.grants && w.acks <= w'.acks
    ensures HistoryGrows(w, w')
  {
  }

  lemma LeaderStep(w: World, w': World)
    requires ElectionsGrow(w.elections, w'.elections) && |w'.peers| == |w.peers|
    requires w'.campaigns == w.campaigns && w'.grants == w.grants && w'.acks == w.acks
    requires forall j | 0 <= j < |w.peers| ::
               w'.peers[j].term == w.peers[j].term && w'.peers[j].votedFor == w.peers[j].votedFor
    requires forall j | 0 <= j < |w.peers| :: w'.peers[j] == w.peers[j] || KnownStays(w.peers[j], w'.peers[j])
    ensures Step(w, w') && HistoryGrows(w, w')
  {
  }

  lemma VotersStay(w: World, w': World, t: nat)
    requires Core(w) && Step(w, w') && t in w.elections && t != 0
    ensures t in w'.elections && VotersKeep(w', t)
  {
    var E, E' := w.elections, w'.elections;
    assert ElectionOk(w, t);
    assert ElectionGrows(E[t], E'[t]);
    forall a, k | a in w'.acks && a.node in E'[t].voters && a.term < t && k <= a.len && Own(E', a.term, k)
      ensures Kept(E', a.term, k, E'[t].init, t - 1)
    {
      assert GrantOk(w, Grant(a.node, t, E[t].leader));
      assert a in w.acks;
      assert AckOk(w, a);
      OwnBefore(E, E', a.term, k);
      KeptGrows(E, E', a.term, k, E[t].init, t - 1);
    }
  }

  lemma ElectionStays(w: World, w': World, t: nat)
    requires Core(w) && Step(w, w') && t in w.elections && t in w'.elections && w'.elections[t] == w.elections[t]
    ensures ElectionOk(w', t)
  {
    assert ElectionOk(w, t);
    LogOkGrows(w.elections, w'.elections, w.elections[t].log);
    if t != 0 {
      VotersStay(w, w', t);
      BackersStay(w, w', t, w.elections[t].committed);
    }
  }

  lemma BackersStay(w: World, w': World, t: nat, len: nat)
    requires HistoryGrows(w, w') && t in w.elections
    ensures forall q | Backed(w.acks, q, t, len) :: Backed(w'.acks, q, t, len)
  {
  }

  lemma CampaignStays(w: World, w': World, b: Ballot)
    requires HistoryGrows(w, w') && b in w.campaigns && CampaignOk(w, b)
    ensures CampaignOk(w', b)
  {
  }

  lemma GrantStays(w: World, w': World, g: Grant)
    requires Core(w) && Step(w, w') && g in w.grants
    ensures GrantOk(w', g)
  {
    var E, E' := w.elections, w'.elections;
    assert GrantOk(w, g);
    if g.term !in E' {
      forall a, k | a in w'.acks && a.node == g.voter && a.term < g.term && k <= a.len && Own(E', a.term, k)
        ensures Kept(E', a.term, k, w'.campaigns[Ballot(g.term, g.cand)], g.term)
      {
        assert a in w.acks;
        assert VoterKeeps(w, g) && AckOk(w, a);
        OwnBefore(E, E', a.term, k);
        KeptGrows(E, E', a.term, k, w.campaigns[Ballot(g.term, g.cand)], g.term);
      }
    }
  }

  lemma AckStays(w: World, w': World, a: Ack)
    requires HistoryGrows(w, w') && AckOk(w, a)
    requires Agree(w.peers[a.node].log, w'.peers[a.node].log, |w.peers[a.node].log|)
    ensures AckOk(w', a)
  {
    var E, E' := w.elections, w'.elections;
    assert ElectionGrows(E[a.term], E'[a.term]);
    var log, log' := w.peers[a.node].log, w'.peers[a.node].log;
    forall k | k <= a.len && Own(E', a.term, k) ensures Kept(E', a.term, k, log', w'.peers[a.node].term) {
      OwnBefore(E, E', a.term, k);
      assert Kept(E, a.term, k, log, w'.peers[a.node].term);
      KeptGrows(E, E', a.term, k, log, w'.peers[a.node].term);
      if Agree(E'[a.term].log, log, k) { assert Agree(E'[a.term].log, log', k); }
    }
  }

  /** A peer that did not change: an election of its term by another node cannot make it wrong. */
  lemma PeerStays(w: World, w': World, i: nat)
    requires Core(w) && HistoryGrows(w, w') && i < |w.peers| && w'.peers[i] == w.peers[i]
    requires w.peers[i].role.Leader? && w.peers[i].term in w.elections ==>
               w'.elections[w.peers[i].term].log == w.elections[w.peers[i].term].log
    requires forall t | t in w'.elections && t !in w.elections :: w'.elections[t].leader != i
    ensures PeerOk(w', i)
  {
    var p := w.peers[i];
    assert PeerOk(w, i);
    LogOkGrows(w.elections, w'.elections, p.log);
    CommittedByGrows(w.elections, w'.elections, p.term, p.term, p.log, p.commit + 1);
    if p.term in w.elections { assert ElectionGrows(w.elections[p.term], w'.elections[p.term]); }
  }

  /** The elections are untouched, and so is every peer but one, whose log keeps what it acknowledged. */
  lemma {:induction false} OnePeerChanged(w: World, w': World, i: nat)
    requires Inv(w) && Step(w, w') && i < |w.peers|
    requires w'.elections == w.elections && w'.chosen == w.chosen
    requires forall j | 0 <= j < |w.peers| && j != i :: w'.peers[j] == w.peers[j]
    requires PeerOk(w', i) && OneVotePerTerm(w')
    requires forall b | b in w'.campaigns && b !in w.campaigns :: CampaignOk(w', b)
    requires forall g | g in w'.grants && g !in w.grants :: GrantOk(w', g)
    requires forall a | a in w'.acks && (a !in w.acks || (a.node == i && w'.peers[i].log != w.peers[i].log)) ::
             AckOk(w', a)
    ensures Inv(w') && Grows(w, w')
  {
    hide ElectionOk, CampaignOk, GrantOk, PeerOk, AckOk;
    forall t | t in w'.elections ensures ElectionOk(w', t) { ElectionStays(w, w', t); }
    forall b | b in w'.campaigns ensures CampaignOk(w', b) {
      if b in w.campaigns { CampaignStays(w, w', b); }
    }
    forall g | g in w'.grants ensures GrantOk(w', g) {
      if g in w.grants { GrantStays(w, w', g); }
    }
    forall a | a in w'.acks ensures AckOk(w', a) {
      if a in w.acks && (a.node != i || w'.peers[i].log == w.peers[i].log) {
        AckBounds(w, a);
        AckStays(w, w', a);
      }
    }
    forall j | 0 <= j < |w'.peers| ensures PeerOk(w', j) {
      if j != i { PeerStays(w, w', j); }
    }
  }

  lemma CommittedByShorter(E: Elections, term: int, term': int, log: Log, len: int, len': int)
    requires CommittedBy(E, term, log, len) && term <= term' && 0 <= len' <= len
    ensures CommittedBy(E, term', log, len')
  {
  }

  lemma CommittedByLonger(E: Elections, term: int, log: Log, log': Log, len: int)
    requires CommittedBy(E, term, log, len) && Agree(log, log', len)
    ensures CommittedBy(E, term, log', len)
  {
  }

  // ---------------------------------------------------------------- terms and roles

  lemma QuietPeer(w: World, w': World, i: nat)
    requires w'.elections == w.elections && |w'.peers| == |w.peers| && i < |w.peers| && PeerOk(w, i)
    requires w'.peers[i].log == w.peers[i].log && w.peers[i].term <= w'.peers[i].term
    requires w'.peers[i].commit <= w.peers[i].commit && w'.peers[i].role.Follower?
    ensures PeerOk(w', i)
  {
    var p, p' := w.peers[i], w'.peers[i];
    CommittedByShorter(w.elections, p.term, p'.term, p.log, p.commit + 1, p'.commit + 1);
  }

  /** A vote given or counted. */
  lemma VotingPeer(w: World, w': World, i: nat)
    requires w'.elections == w.elections && w'.campaigns == w.campaigns && w.grants <= w'.grants
    requires |w'.peers| == |w.peers| && i < |w.peers| && PeerOk(w, i)
    requires w'.peers[i] == w.peers[i].(votedFor := w'.peers[i].votedFor, counted := w'.peers[i].counted)
    requires forall v | v in w'.peers[i].counted && v !in w.peers[i].counted ::
             Grant(v, w.peers[i].term, i) in w'.grants
    ensures PeerOk(w', i)
  {
  }

  ghost function Advance(w: World, i: nat, term: nat, vote: int): World
    requires i < |w.peers|
  {
    SetPeer(w, i, w.peers[i].(term := term, votedFor := vote, role := Follower, counted := {}))
  }

  lemma AdvanceKeeps(w: World, i: nat, term: nat, vote: int)
    requires Inv(w) && i < |w.peers| && w.peers[i].term < term
    ensures Inv(Advance(w, i, term, vote)) && Grows(w, Advance(w, i, term, vote))
  {
    hide ElectionOk, CampaignOk, GrantOk, PeerOk, AckOk;
    QuietPeer(w, Advance(w, i, term, vote), i);
    OnePeerChanged(w, Advance(w, i, term, vote), i);
  }

  /** Become a follower in the same term. */
  ghost function Reset(w: World, i: nat): World
    requires i < |w.peers|
  {
    SetPeer(w, i, w.peers[i].(role := Follower, counted := {}))
  }

  lemma ResetKeeps(w: World, i: nat)
    requires Inv(w) && i < |w.peers|
    ensures Inv(Reset(w, i)) && Grows(w, Reset(w, i))
  {
    hide ElectionOk, CampaignOk, GrantOk, PeerOk, AckOk;
    QuietPeer(w, Reset(w, i), i);
    OnePeerChanged(w, Reset(w, i), i);
  }

  // ---------------------------------------------------------------- elections

  ghost function Campaign(w: World, i: nat): World
    requires i < |w.peers|
  {
    var p := w.peers[i];
    var t := p.term + 1;
    SetPeer(w, i, p.(term := t, votedFor := i, role := Candidate, counted := {i}))
      .(campaigns := w.campaigns[Ballot(t, i) := p.log], grants := w.grants + {Grant(i, t, i)})
  }

  lemma CampaignKeeps(w: World, i: nat)
    requires Inv(w) && i < |w.peers|
    ensures Inv(Campaign(w, i)) && Grows(w, Campaign(w, i))
  {
    var p, t, w' := w.peers[i], w.peers[i].term + 1, Campaign(w, i);
    hide Core, ElectionOk, CampaignOk, GrantOk, PeerOk, AckOk, HistoryGrows, ChosenOk, OneVotePerTerm, KnownStays;
    CampaignIsNew(w, i);
    PeerFacts(w, i);
    CampaigningPeer(w, i);
    SelfVote(w, i);
    SameKnown(p, w'.peers[i]);
    SameElections(w, w');
    OnePeerChanged(w, w', i);
  }

  lemma CampaignIsNew(w: World, i: nat)
    requires Core(w) && i < |w.peers|
    ensures Ballot(w.peers[i].term + 1, i) !in w.campaigns
    ensures forall g | g in w.grants :: !(g.voter == i && g.term == w.peers[i].term + 1)
    ensures !(w.peers[i].term + 1 in w.elections && w.elections[w.peers[i].term + 1].leader == i)
  {
    var t := w.peers[i].term + 1;
    forall b | b in w.campaigns ensures b != Ballot(t, i) { assert CampaignOk(w, b); }
    forall g | g in w.grants ensures !(g.voter == i && g.term == t) { assert GrantOk(w, g); }
    if t in w.elections { assert ElectionOk(w, t); }
  }

  lemma CampaigningPeer(w: World, i: nat)
    requires i < |w.peers| && PeerOk(w, i)
    requires !(w.peers[i].term + 1 in w.elections && w.elections[w.peers[i].term + 1].leader == i)
    ensures PeerOk(Campaign(w, i), i) && CampaignOk(Campaign(w, i), Ballot(w.peers[i].term + 1, i))
  {
    var p := w.peers[i];
    CommittedByShorter(w.elections, p.term, p.term + 1, p.log, p.commit + 1, p.commit + 1);
  }

  lemma SelfVote(w: World, i: nat)
    requires Core(w) && i < |w.peers|
    ensures GrantOk(Campaign(w, i), Grant(i, w.peers[i].term + 1, i)) && OneVotePerTerm(Campaign(w, i))
  {
    CampaignIsNew(w, i);
    var p, t := w.peers[i], w.peers[i].term + 1;
    forall a, k | a in w.acks && a.node == i && a.term < t && k <= a.len && Own(w.elections, a.term, k)
      ensures Kept(w.elections, a.term, k, p.log, t)
    {
      assert AckOk(w, a);
      assert Kept(w.elections, a.term, k, p.log, p.term);
    }
  }

  ghost function Vote(w: World, i: nat, cand: nat): World
    requires i < |w.peers|
  {
    var p := w.peers[i];
    SetPeer(w, i, p.(votedFor := cand)).(grants := w.grants + {Grant(i, p.term, cand)})
  }

  /** A vote is only given to a candidate whose log has everything the voter must not forget. */
  lemma {:induction false} VoterCheck(w: World, i: nat, b: Ballot, a: Ack, k: int)
    requires Core(w) && i < |w.peers| && b in w.campaigns
    requires 1 <= |w.campaigns[b]| && 1 <= |w.peers[i].log| && UpToDate(w.campaigns[b], w.peers[i].log)
    requires a.node == i && AckOk(w, a) && b.term == w.peers[i].term && k <= a.len && Own(w.elections, a.term, k)
    ensures Kept(w.elections, a.term, k, w.campaigns[b], b.term)
  {
    hide ElectionOk, GrantOk;
    var E, mine, theirs := w.elections, w.peers[i].log, w.campaigns[b];
    assert Kept(E, a.term, k, mine, b.term);
    assert PeerOk(w, i) && CampaignOk(w, b);
    if Agree(E[a.term].log, mine, k) {
      if LastTerm(theirs) == LastTerm(mine) {
        SameLastTerm(E, mine, theirs);
      } else {
        LaterLog(w, mine, theirs, a.term, k, b.term);
      }
    }
  }

  /** A log whose last entry is of a later term has the leader's prefix, unless its own leader lost it. */
  lemma LaterLog(w: World, mine: Log, theirs: Log, t: nat, k: int, hi: nat)
    requires Core(w) && LogOk(w.elections, mine) && LogOk(w.elections, theirs) && LastTerm(mine) < LastTerm(theirs)
    requires TermsBelow(theirs, hi)
    requires t in w.elections && Own(w.elections, t, k) && Agree(w.elections[t].log, mine, k)
    ensures Kept(w.elections, t, k, theirs, hi)
  {
    hide Core;
    var E := w.elections;
    Sorted(w, mine, k - 1, |mine| - 1);
    if Agree(E[t].log, E[LastTerm(theirs)].init, k) {
      LastEntryBeyondInit(w, theirs);
    }
  }

  lemma LastEntryBeyondInit(w: World, log: Log)
    requires Core(w) && LogOk(w.elections, log)
    ensures Agree(w.elections[LastTerm(log)].init, log, |w.elections[LastTerm(log)].init|)
  {
    var t := LastTerm(log);
    assert ElectionOk(w, t);
    assert Agree(log, w.elections[t].log, |log|);
    assert log[|log| - 1] == w.elections[t].log[|log| - 1];
  }

  lemma SameLastTerm(E: Elections, a: Log, b: Log)
    requires LogOk(E, a) && LogOk(E, b) && LastTerm(a) == LastTerm(b) && |a| <= |b|
    ensures Agree(a, b, |a|)
  {
  }

  lemma VoteKeeps(w: World, i: nat, cand: nat)
    requires Inv(w) && i < |w.peers| && Ballot(w.peers[i].term, cand) in w.campaigns
    requires w.peers[i].votedFor == -1 || w.peers[i].votedFor == cand
    requires 1 <= |w.campaigns[Ballot(w.peers[i].term, cand)]| && 1 <= |w.peers[i].log|
    requires UpToDate(w.campaigns[Ballot(w.peers[i].term, cand)], w.peers[i].log)
    ensures Inv(Vote(w, i, cand)) && Grows(w, Vote(w, i, cand))
  {
    hide ElectionOk, CampaignOk, GrantOk, PeerOk, AckOk, HistoryGrows, ChosenOk;
    var p, w' := w.peers[i], Vote(w, i, cand);
    VotingPeer(w, w', i);
    SameElections(w, w');
    forall g | g in w.grants && g.voter == i && g.term == p.term ensures g.cand == cand { VoteStands(w, g); }
    VoterKeepsAll(w, i, cand);
    OnePeerChanged(w, w', i);
  }

  lemma VoteStands(w: World, g: Grant)
    requires GrantOk(w, g) && g.term == w.peers[g.voter].term
    ensures w.peers[g.voter].votedFor == g.cand
  {
  }

  lemma VoterKeepsAll(w: World, i: nat, cand: nat)
    requires Core(w) && i < |w.peers| && Ballot(w.peers[i].term, cand) in w.campaigns
    requires 1 <= |w.campaigns[Ballot(w.peers[i].term, cand)]| && 1 <= |w.peers[i].log|
    requires UpToDate(w.campaigns[Ballot(w.peers[i].term, cand)], w.peers[i].log)
    ensures GrantOk(Vote(w, i, cand), Grant(i, w.peers[i].term, cand))
  {
    var p := w.peers[i];
    forall a, k | a in w.acks && a.node == i && a.term < p.term && k <= a.len && Own(w.elections, a.term, k)
      ensures Kept(w.elections, a.term, k, w.campaigns[Ballot(p.term, cand)], p.term)
    {
      VoterCheck(w, i, Ballot(p.term, cand), a, k);
    }
  }

  ghost function Count(w: World, i: nat, voter: nat): World
    requires i < |w.peers|
  {
    SetPeer(w, i, w.peers[i].(counted := w.peers[i].counted + {voter}))
  }

  lemma CountKeeps(w: World, i: nat, voter: nat)
    requires Inv(w) && i < |w.peers| && Grant(voter, w.peers[i].term, i) in w.grants
    ensures Inv(Count(w, i, voter)) && Grows(w, Count(w, i, voter))
  {
    hide ElectionOk, CampaignOk, GrantOk, PeerOk, AckOk;
    var w' := Count(w, i, voter);
    VotingPeer(w, w', i);
    OnePeerChanged(w, w', i);
  }

  ghost function Elect(w: World, i: nat): World
    requires i < |w.peers|
  {
    var p := w.peers[i];
    SetPeer(w, i, p.(role := Leader))
      .(elections := w.elections[p.term := Election(i, p.counted, p.log, p.log, 1, {})])
  }

  /** Two candidates cannot both collect a majority in one term. */
  lemma NoSecondElection(w: World, i: nat)
    requires Core(w) && i < |w.peers| && w.peers[i].role.Candidate? && Quorum(w.peers[i].counted, |w.peers|)
    ensures w.peers[i].term !in w.elections && 0 < w.peers[i].term && LogOk(w.elections, w.peers[i].log)
  {
    var t := w.peers[i].term;
    assert PeerOk(w, i) && CampaignOk(w, Ballot(t, i));
    if t in w.elections {
      assert ElectionOk(w, t);
      var v := QuorumsMeet(w.elections[t].voters, w.peers[i].counted, |w.peers|);
      SameCandidate(w, Grant(v, t, w.elections[t].leader), Grant(v, t, i));
    }
  }

  lemma VotesStand(w: World, w': World)
    requires Core(w) && w'.grants == w.grants
    ensures OneVotePerTerm(w')
  {
  }

  lemma SameCandidate(w: World, g: Grant, h: Grant)
    requires OneVotePerTerm(w) && g in w.grants && h in w.grants && g.voter == h.voter && g.term == h.term
    ensures g.cand == h.cand
  {
  }

  lemma ElectShape(w: World, i: nat)
    requires i < |w.peers|
    ensures var p, t, w' := w.peers[i], w.peers[i].term, Elect(w, i);
            && t in w'.elections && w'.elections[t] == Election(i, p.counted, p.log, p.log, 1, {})
            && w' == w.(peers := w'.peers, elections := w.elections[t := w'.elections[t]])
            && |w'.peers| == |w.peers| && w'.peers[i] == p.(role := Leader) && forall j | 0 <= j < |w.peers|
               && j != i :: w'.peers[j] == w.peers[j]
  {
  }

  lemma ElectKeeps(w: World, i: nat)
    requires Inv(w) && i < |w.peers| && w.peers[i].role.Candidate? && Quorum(w.peers[i].counted, |w.peers|)
    ensures Inv(Elect(w, i)) && Grows(w, Elect(w, i)) && w.peers[i].term !in w.elections
  {
    var p, t, w' := w.peers[i], w.peers[i].term, Elect(w, i);
    hide Core, ElectionOk, PeerOk, ChosenOk, Quorum, LogOk, ElectionsGrow, Step, HistoryGrows, KnownStays, Agree, Elect;
    PeerFacts(w, i);
    ElectShape(w, i);
    SameKnown(p, w'.peers[i]);
    SelfAgree(p.log);
    SelfAgree(w.chosen);
    NoSecondElection(w, i);
    ElectionAdded(w, w', t);
    LeaderStep(w, w');
    LeadingPeer(w, w', i);
    NewElectionOk(w, i);
    NewChosenOk(w, w', t, p.log);
    OneElectionChanged(w, w', i, t);
  }

  /** A peer at the head of its own election, whose log may have grown with it. */
  lemma LeadingPeer(w: World, w': World, i: nat)
    requires ElectionsGrow(w.elections, w'.elections) && |w'.peers| == |w.peers| && i < |w.peers| && PeerOk(w, i)
    requires var p, p' := w.peers[i], w'.peers[i];
             && p'.term == p.term && 0 < p.term && p'.commit == p.commit && p'.role.Leader? && p.term in w'.elections
             && w'.elections[p.term].leader == i && w'.elections[p.term].log == p'.log
             && Agree(p.log, p'.log, |p.log|)
             && forall j | |p.log| <= j < |p'.log| :: p'.log[j].term == p.term && p'.log[j].index == j
    ensures PeerOk(w', i)
  {
    var p, p' := w.peers[i], w'.peers[i];
    LogOkGrows(w.elections, w'.elections, p.log);
    CommittedByGrows(w.elections, w'.elections, p.term, p.term, p.log, p.commit + 1);
    CommittedByLonger(w'.elections, p.term, p.log, p'.log, p.commit + 1);
    forall j | 0 <= j < |p'.log|
      ensures p'.log[j].index == j && p'.log[j].term in w'.elections
      ensures Agree(p'.log, w'.elections[p'.log[j].term].log, j + 1)
    {
      if j < |p.log| { assert Agree(p.log, w'.elections[p.log[j].term].log, j + 1); }
    }
  }

  lemma ElectionAdded(w: World, w': World, t: nat)
    requires Core(w) && t !in w.elections && t in w'.elections && w'.elections == w.elections[t := w'.elections[t]]
    ensures ElectionsGrow(w.elections, w'.elections)
  {
    forall x | x in w.elections ensures x in w'.elections && ElectionGrows(w.elections[x], w'.elections[x]) {
      assert ElectionOk(w, x);
    }
  }

  lemma NewChosenOk(w: World, w': World, t: nat, log: Log)
    requires Inv(w) && t !in w.elections && t in w'.elections && w'.elections == w.elections[t := w'.elections[t]]
    requires w'.elections[t].log == log && w'.elections[t].committed == 1 && w'.chosen == w.chosen
    requires LogOk(w.elections, log)
    ensures ChosenOk(w')
  {
    hide Core;
    var E, E' := w.elections, w'.elections;
    var x :| x in E && |w.chosen| == E[x].committed;
    ElectionFacts(w, x);
    StartsWithSentinel(w, E[x].log);
    StartsWithSentinel(w, log);
    assert Agree(E[x].log, w.chosen, E[x].committed);
    assert Agree(log, w.chosen, 1);
    assert x in E' && |w'.chosen| == E'[x].committed;
  }

  lemma NewElectionOk(w: World, i: nat)
    requires Core(w) && i < |w.peers| && w.peers[i].role.Candidate? && Quorum(w.peers[i].counted, |w.peers|)
    requires w.peers[i].term !in w.elections
    ensures ElectionOk(Elect(w, i), w.peers[i].term)
  {
    var p, t, w' := w.peers[i], w.peers[i].term, Elect(w, i);
    ElectionAdded(w, w', t);
    assert PeerOk(w, i) && CampaignOk(w, Ballot(t, i));
    LogOkGrows(w.elections, w'.elections, p.log);
    assert VotersKeep(w', t) by { CountedKeep(w, i); }
  }

  lemma CountedKeep(w: World, i: nat)
    requires Core(w) && i < |w.peers| && w.peers[i].role.Candidate? && w.peers[i].term !in w.elections
    ensures VotersKeep(Elect(w, i), w.peers[i].term)
  {
    var p, t, w' := w.peers[i], w.peers[i].term, Elect(w, i);
    var E, E' := w.elections, w'.elections;
    ElectionAdded(w, w', t);
    forall a, k | a in w'.acks && a.node in p.counted && a.term < t && k <= a.len && Own(E', a.term, k)
      ensures Kept(E', a.term, k, p.log, t - 1)
    {
      CountedKeeps(w, i, a, k, E');
    }
  }

  lemma CountedKeeps(w: World, i: nat, a: Ack, k: int, E': Elections)
    requires Core(w) && i < |w.peers| && w.peers[i].role.Candidate? && w.peers[i].term !in w.elections
    requires a in w.acks && a.node in w.peers[i].counted && a.term < w.peers[i].term && k <= a.len
    requires Own(E', a.term, k) && ElectionsGrow(w.elections, E')
    ensures Kept(E', a.term, k, w.peers[i].log, w.peers[i].term - 1)
  {
    hide ElectionOk, CampaignOk, AckOk;
    var t := w.peers[i].term;
    AckBounds(w, a);
    OwnBefore(w.elections, E', a.term, k);
    assert PeerOk(w, i);
    assert GrantOk(w, Grant(a.node, t, i));
    assert VoterKeeps(w, Grant(a.node, t, i));
    assert Kept(w.elections, a.term, k, w.peers[i].log, t);
    assert Kept(w.elections, a.term, k, w.peers[i].log, t - 1);
    KeptGrows(w.elections, E', a.term, k, w.peers[i].log, t - 1);
  }

  lemma AckBounds(w: World, a: Ack)
    requires AckOk(w, a)
    ensures a.node < |w.peers| && a.term in w.elections && a.len <= |w.elections[a.term].log|
  {
  }

  /** Only one election is new or has grown, and only the peer that leads it has changed. */
  lemma {:induction false} OneElectionChanged(w: World, w': World, i: nat, t: nat)
    requires Inv(w) && Step(w, w') && i < |w.peers| && t in w'.elections && w.peers[i].term == t
    requires w'.elections == w.elections[t := w'.elections[t]] && w'.elections[t].leader == i
    requires w'.campaigns == w.campaigns && w'.grants == w.grants && w'.acks == w.acks
    requires forall j | 0 <= j < |w.peers| && j != i :: w'.peers[j] == w.peers[j]
    requires Agree(w.peers[i].log, w'.peers[i].log, |w.peers[i].log|)
    requires ElectionOk(w', t) && PeerOk(w', i)
    ensures Core(w') && HistoryGrows(w, w')
  {
    hide ElectionOk, CampaignOk, GrantOk, PeerOk, AckOk;
    forall x | x in w'.elections ensures ElectionOk(w', x) {
      if x != t { ElectionStays(w, w', x); }
    }
    forall b | b in w'.campaigns ensures CampaignOk(w', b) { CampaignStays(w, w', b); }
    forall g | g in w'.grants ensures GrantOk(w', g) { GrantStays(w, w', g); }
    forall a | a in w'.acks ensures AckOk(w', a) {
      AckBounds(w, a);
      AckStays(w, w', a);
    }
    forall j | 0 <= j < |w'.peers| ensures PeerOk(w', j) {
      if j != i {
        OtherLeader(w, w', i, t, j);
        PeerStays(w, w', j);
      }
    }
  }

  lemma OtherLeader(w: World, w': World, i: nat, t: nat, j: nat)
    requires Core(w) && j < |w.peers| && j != i && t in w'.elections && ElectionsGrow(w.elections, w'.elections)
    requires w'.elections == w.elections[t := w'.elections[t]] && w'.elections[t].leader == i
    ensures w.peers[j].role.Leader? ==> w.peers[j].term != t && w.peers[j].term in w.elections
  {
    assert PeerOk(w, j);
    if t in w.elections { assert ElectionGrows(w.elections[t], w'.elections[t]); }
  }

  // ---------------------------------------------------------------- replication

  ghost function Append(w: World, i: nat, cmd: Command): World
    requires i < |w.peers| && w.peers[i].term in w.elections
  {
    var p := w.peers[i];
    var log := p.log + [Entry(|p.log|, p.term, cmd)];
    SetPeer(w, i, p.(log := log))
      .(elections := w.elections[p.term := w.elections[p.term].(log := log)])
  }

  /** A leader's log grows by entries of its own term, or its committed prefix grows. */
  lemma LeaderGrows(w: World, w': World, i: nat)
    requires Inv(w) && i < |w.peers| && w.peers[i].role.Leader? && w.peers[i].term in w.elections
    requires w.peers[i].term in w'.elections
    requires w' == w.(peers := w.peers[i := w.peers[i].(log := w'.elections[w.peers[i].term].log)], chosen := w'.chosen,
                      elections := w.elections[w.peers[i].term := w'.elections[w.peers[i].term]])
    requires var e, e' := w.elections[w.peers[i].term], w'.elections[w.peers[i].term];
             && ElectionGrows(e, e')
             && (forall j | |e.log| <= j < |e'.log| :: e'.log[j].term == w.peers[i].term && e'.log[j].index == j)
             && ((e'.committed == e.committed && e'.backers == e.backers) ||
                 (e'.committed > 1 && Own(w'.elections, w.peers[i].term, e'.committed)
                  && Quorum(e'.backers, |w.peers|) &&
                  forall q | q in e'.backers :: Backed(w'.acks, q, w.peers[i].term, e'.committed)))
    ensures Core(w') && HistoryGrows(w, w')
  {
    hide Core, ElectionOk, PeerOk, ChosenOk, Quorum, LogOk, ElectionsGrow, Step, HistoryGrows, KnownStays, Backed,
         Own, Agree;
    var t := w.peers[i].term;
    PeerFacts(w, i);
    LeaderFacts(w, i);
    LongerKnown(w, i, w'.peers[i]);
    ElectionExtended(w, w', t);
    LeaderStep(w, w');
    LeadingPeer(w, w', i);
    LeadingElection(w, w', i);
    OneElectionChanged(w, w', i, t);
  }

  lemma LongerKnown(w: World, i: nat, p': Peer)
    requires i < |w.peers| && PeerOk(w, i) && Agree(w.peers[i].log, p'.log, |w.peers[i].log|)
    requires p'.commit == w.peers[i].commit
    ensures KnownStays(w.peers[i], p')
  {
  }

  lemma AppendKeeps(w: World, i: nat, cmd: Command)
    requires Inv(w) && i < |w.peers| && w.peers[i].role.Leader? && w.peers[i].term in w.elections
    ensures Inv(Append(w, i, cmd)) && Grows(w, Append(w, i, cmd))
  {
    hide Core, ChosenOk, HistoryGrows, Quorum, Backed, Own;
    LeaderFacts(w, i);
    LeaderGrows(w, Append(w, i, cmd), i);
    ChosenStays(w, Append(w, i, cmd), w.peers[i].term);
  }

  lemma SelfAgree(log: Log)
    ensures Agree(log, log, |log|)
  {
  }

  lemma LeaderFacts(w: World, i: nat)
    requires Core(w) && i < |w.peers| && w.peers[i].role.Leader?
    ensures var t := w.peers[i].term;
            t in w.elections && 0 < t && w.elections[t].leader == i && w.elections[t].log == w.peers[i].log
    ensures LogOk(w.elections, w.peers[i].log)
  {
    assert PeerOk(w, i);
  }

  lemma LeadingElection(w: World, w': World, i: nat)
    requires Core(w) && i < |w.peers| && w.peers[i].role.Leader? && Step(w, w') && PeerOk(w', i)
    requires w'.peers[i].role.Leader?
    requires w'.peers[i].term == w.peers[i].term && w'.acks == w.acks && w.peers[i].term in w.elections
    requires forall j | |w.peers[i].log| <= j < |w'.peers[i].log| :: w'.peers[i].log[j].term == w.peers[i].term
    requires var e, e' := w.elections[w.peers[i].term], w'.elections[w.peers[i].term];
             (e'.committed == e.committed && e'.backers == e.backers) ||
             (e'.committed > 1 && Own(w'.elections, w.peers[i].term, e'.committed) && Quorum(e'.backers, |w.peers|) &&
              forall q | q in e'.backers :: Backed(w'.acks, q, w.peers[i].term, e'.committed))
    ensures ElectionOk(w', w.peers[i].term)
  {
    var t := w.peers[i].term;
    assert PeerOk(w, i) && ElectionOk(w, t);
    assert ElectionGrows(w.elections[t], w'.elections[t]);
    VotersStay(w, w', t);
  }

  lemma ElectionExtended(w: World, w': World, t: nat)
    requires Core(w) && t in w.elections && t in w'.elections && w'.elections == w.elections[t := w'.elections[t]]
    requires ElectionGrows(w.elections[t], w'.elections[t])
    ensures ElectionsGrow(w.elections, w'.elections)
  {
    forall x | x in w.elections ensures x in w'.elections && ElectionGrows(w.elections[x], w'.elections[x]) {
      assert ElectionOk(w, x);
    }
  }

  lemma ChosenStays(w: World, w': World, t: nat)
    requires Inv(w) && t in w.elections && w'.chosen == w.chosen
    requires t in w'.elections && w'.elections == w.elections[t := w'.elections[t]]
    requires ElectionGrows(w.elections[t], w'.elections[t]) && w'.elections[t].committed == w.elections[t].committed
    ensures ChosenOk(w')
  {
    hide Core;
    var E, E' := w.elections, w'.elections;
    assert Agree(E[t].log, w.chosen, E[t].committed);
    var x :| x in E && |w.chosen| == E[x].committed;
    assert x in E' && |w'.chosen| == E'[x].committed;
  }

  /** The log a follower ends with after being sent the first `m` entries of a leader's log:
      unchanged when it already has them, exactly those entries otherwise. */
  ghost function Adopt(log: Log, leaders: Log, m: nat): Log
    requires m <= |leaders|
  {
    if Agree(leaders, log, m) then log else leaders[..m]
  }

  ghost function Accept(w: World, i: nat, m: nat): World
    requires i < |w.peers| && w.peers[i].term in w.elections && m <= |w.elections[w.peers[i].term].log|
  {
    var p := w.peers[i];
    SetPeer(w, i, p.(log := Adopt(p.log, w.elections[p.term].log, m)))
      .(acks := w.acks + {Ack(i, p.term, m)})
  }

  /** Peer i acknowledges m entries with a log that has all it ever acknowledged. */
  lemma PeerAccepts(w: World, w': World, i: nat, m: nat)
    requires Inv(w) && i < |w.peers| && |w'.peers| == |w.peers|
    requires w' == w.(peers := w.peers[i := w.peers[i].(log := w'.peers[i].log)],
             acks := w.acks + {Ack(i, w.peers[i].term, m)})
    requires PeerOk(w', i) && KnownStays(w.peers[i], w'.peers[i])
    requires forall a | a in w'.acks && a.node == i :: AckOk(w', a)
    ensures Inv(w') && Grows(w, w')
  {
    hide Core, ElectionOk, CampaignOk, GrantOk, PeerOk, AckOk, HistoryGrows, ChosenOk, KnownStays, OneVotePerTerm,
         Agree;
    VotesStand(w, w');
    SameElections(w, w');
    OnePeerChanged(w, w', i);
    SelfAgree(w.chosen);
  }

  lemma AcceptKeeps(w: World, i: nat, m: nat)
    requires Inv(w) && i < |w.peers| && w.peers[i].term in w.elections
    requires 1 <= m <= |w.elections[w.peers[i].term].log|
    requires w.peers[i].role.Follower? || Agree(w.elections[w.peers[i].term].log, w.peers[i].log, m)
    ensures Inv(Accept(w, i, m)) && Grows(w, Accept(w, i, m))
    // no committed entry is ever dropped, and the acknowledged prefix is there
    ensures Agree(w.peers[i].log, Accept(w, i, m).peers[i].log, w.peers[i].commit + 1)
    ensures Agree(w.elections[w.peers[i].term].log, Accept(w, i, m).peers[i].log, m)
  {
    hide Core, ElectionOk, CampaignOk, GrantOk, PeerOk, AckOk, ChosenOk, Adopt, Agree, KnownStays, Grows;
    var w' := Accept(w, i, m);
    AcceptedPeer(w, i, m);
    AcceptedAck(w, i, m);
    AcksSurvive(w, i, m);
    AcceptedKnown(w.peers[i], w'.peers[i]);
    PeerAccepts(w, w', i, m);
  }

  lemma SameKnown(p: Peer, p': Peer)
    requires p'.log == p.log && p'.commit == p.commit
    ensures KnownStays(p, p')
  {
  }

  lemma AcceptedKnown(p: Peer, p': Peer)
    requires Agree(p.log, p'.log, p.commit + 1) && p'.commit == p.commit
    ensures KnownStays(p, p')
  {
  }

  lemma AcceptedPeer(w: World, i: nat, m: nat)
    requires Core(w) && i < |w.peers| && w.peers[i].term in w.elections
    requires 1 <= m <= |w.elections[w.peers[i].term].log|
    requires w.peers[i].role.Follower? || Agree(w.elections[w.peers[i].term].log, w.peers[i].log, m)
    ensures PeerOk(Accept(w, i, m), i)
    ensures Agree(w.peers[i].log, Accept(w, i, m).peers[i].log, w.peers[i].commit + 1)
    ensures Agree(w.elections[w.peers[i].term].log, Accept(w, i, m).peers[i].log, m)
  {
    hide Core, ElectionOk, LogOk, TermsBelow, CommittedBy;
    var p, t := w.peers[i], w.peers[i].term;
    PeerFacts(w, i);
    ElectionFacts(w, t);
    KnownIsInherited(w, p.log, t, p.commit + 1, t);
    AcceptedLog(w.elections, p.log, t, m, p.commit + 1);
  }

  lemma PeerFacts(w: World, i: nat)
    requires Core(w) && i < |w.peers|
    ensures PeerOk(w, i)
  {
  }

  lemma ElectionFacts(w: World, t: nat)
    requires Core(w) && t in w.elections
    ensures LogOk(w.elections, w.elections[t].log) && TermsBelow(w.elections[t].log, t + 1)
    ensures Agree(w.elections[t].init, w.elections[t].log, |w.elections[t].init|)
    ensures 1 <= w.elections[t].committed <= |w.elections[t].log|
  {
    assert ElectionOk(w, t);
  }

  lemma AcceptedLog(E: Elections, log: Log, t: nat, m: nat, known: nat)
    requires t in E && 1 <= m <= |E[t].log| && LogOk(E, log) && LogOk(E, E[t].log) && TermsBelow(log, t + 1)
    requires TermsBelow(E[t].log, t + 1)
    requires Agree(log, E[t].log, known) && CommittedBy(E, t, log, known)
    ensures var log' := Adopt(log, E[t].log, m);
            && LogOk(E, log') && TermsBelow(log', t + 1) && Agree(log, log', known) && CommittedBy(E, t, log', known)
            && Agree(E[t].log, log', m)
  {
    var log' := Adopt(log, E[t].log, m);
    AdoptKeeps(log, E[t].log, m, known);
    PrefixOk(E, E[t].log, m);
    CommittedByLonger(E, t, log, log', known);
  }

  /** Adopting a leader's prefix never drops an entry both logs share. */
  lemma AdoptKeeps(log: Log, leaders: Log, m: nat, k: int)
    requires m <= |leaders| && Agree(leaders, log, k)
    ensures Agree(leaders, Adopt(log, leaders, m), k)
  {
    if !Agree(leaders, log, m) {
      assert k < m;
    }
  }

  lemma PrefixOk(E: Elections, log: Log, m: nat)
    requires LogOk(E, log) && 1 <= m <= |log|
    ensures LogOk(E, log[..m])
  {
    forall j | 0 <= j < m
      ensures log[..m][j].index == j && log[..m][j].term in E && Agree(log[..m], E[log[..m][j].term].log, j + 1)
    {
      assert Agree(log, E[log[j].term].log, j + 1);
    }
  }

  lemma AcceptedAck(w: World, i: nat, m: nat)
    requires i < |w.peers| && w.peers[i].term in w.elections && m <= |w.elections[w.peers[i].term].log|
    ensures AckOk(Accept(w, i, m), Ack(i, w.peers[i].term, m))
  {
  }

  lemma AcksSurvive(w: World, i: nat, m: nat)
    requires Core(w) && i < |w.peers| && w.peers[i].term in w.elections
    requires 1 <= m <= |w.elections[w.peers[i].term].log|
    ensures forall a | a in w.acks && a.node == i :: AckOk(Accept(w, i, m), a)
  {
    hide Core, AckOk;
    forall a | a in w.acks && a.node == i ensures AckOk(Accept(w, i, m), a) { AckSurvives(w, i, m, a); }
  }

  lemma AckSurvives(w: World, i: nat, m: nat, a: Ack)
    requires Core(w) && i < |w.peers| && w.peers[i].term in w.elections && a in w.acks && a.node == i
    requires 1 <= m <= |w.elections[w.peers[i].term].log|
    ensures AckOk(Accept(w, i, m), a)
  {
    var p, t, w' := w.peers[i], w.peers[i].term, Accept(w, i, m);
    var E, log' := w.elections, Accept(w, i, m).peers[i].log;
    assert AckOk(w, a);
    if a.term == t {
      AdoptKeeps(p.log, E[t].log, m, a.len);
    } else {
      assert ElectionOk(w, t);
      forall k | k <= a.len && Own(E, a.term, k) ensures Kept(E, a.term, k, log', t) {
        assert Kept(E, a.term, k, p.log, t);
        if !Lost(E, a.term, k, t) {
          assert Agree(E[a.term].log, E[t].init, k);
          assert Agree(E[t].log, p.log, k);
          AdoptKeeps(p.log, E[t].log, m, k);
        }
      }
    }
  }

  ghost function Learn(w: World, i: nat, commit: nat): World
    requires i < |w.peers|
  {
    SetPeer(w, i, w.peers[i].(commit := commit))
  }

  lemma LearnKeeps(w: World, i: nat, commit: nat)
    requires Inv(w) && i < |w.peers| && w.peers[i].commit <= commit < |w.peers[i].log|
    requires CommittedBy(w.elections, w.peers[i].term, w.peers[i].log, commit + 1)
    ensures Inv(Learn(w, i, commit)) && Grows(w, Learn(w, i, commit))
  {
    hide ElectionOk, CampaignOk, GrantOk, PeerOk, AckOk;
    var w' := Learn(w, i, commit);
    LearningPeer(w, i, commit);
    OnePeerChanged(w, w', i);
  }

  lemma LearningPeer(w: World, i: nat, commit: nat)
    requires i < |w.peers| && PeerOk(w, i) && commit < |w.peers[i].log|
    requires CommittedBy(w.elections, w.peers[i].term, w.peers[i].log, commit + 1)
    ensures PeerOk(Learn(w, i, commit), i)
  {
  }

  /** The leader of the peer's term marks its first k entries committed on the word of `backers`. */
  ghost function Commit(w: World, i: nat, k: nat, backers: set<nat>): World
    requires i < |w.peers| && w.peers[i].term in w.elections && k <= |w.peers[i].log|
  {
    var t := w.peers[i].term;
    w.(elections := w.elections[t := w.elections[t].(committed := k, backers := backers)],
       chosen := if k > |w.chosen| then w.peers[i].log[..k] else w.chosen)
  }

  lemma CommitKeeps(w: World, i: nat, k: nat, backers: set<nat>)
    requires Inv(w) && i < |w.peers| && w.peers[i].role.Leader? && w.peers[i].term in w.elections
    requires w.elections[w.peers[i].term].committed < k && Own(w.elections, w.peers[i].term, k)
    requires k <= |w.peers[i].log| && Quorum(backers, |w.peers|)
    requires forall q | q in backers :: Backed(w.acks, q, w.peers[i].term, k)
    ensures Inv(Commit(w, i, k, backers)) && Grows(w, Commit(w, i, k, backers))
  {
    hide Core, ChosenOk, HistoryGrows, Quorum, Backed;
    LeaderFacts(w, i);
    ElectionFacts(w, w.peers[i].term);
    assert w.peers[i := w.peers[i].(log := w.elections[w.peers[i].term].log)] == w.peers;
    LeaderGrows(w, Commit(w, i, k, backers), i);
    ChosenGrows(w, Commit(w, i, k, backers), w.peers[i].term);
  }

  /** By leader completeness the newly committed prefix and the chosen log so far are comparable. */
  lemma ChosenGrows(w: World, w': World, t: nat)
    requires Inv(w) && t in w.elections && t in w'.elections
    requires w'.elections == w.elections[t := w'.elections[t]] && w'.elections[t].log == w.elections[t].log
    requires w.elections[t].committed <= w'.elections[t].committed <= |w.elections[t].log|
    requires w'.chosen == if w'.elections[t].committed > |w.chosen|
             then w.elections[t].log[..w'.elections[t].committed] else w.chosen
    requires Core(w')
    ensures ChosenOk(w') && Agree(w.chosen, w'.chosen, |w.chosen|)
  {
    hide Core;
    var E, E', k := w.elections, w'.elections, w'.elections[t].committed;
    var c :| c in E && |w.chosen| == E[c].committed;
    assert Agree(E[c].log, w.chosen, E[c].committed);
    Comparable(w', c, t);
    assert Agree(E[t].log, w'.chosen, k);
    forall x | x in E' ensures Agree(E'[x].log, w'.chosen, E'[x].committed) {
      if x != t { assert Agree(E[x].log, w.chosen, E[x].committed); }
    }
    assert (if k > |w.chosen| then t else c) in E';
  }

  lemma InitHas(w: World, t: nat, t': nat)
    requires Core(w) && t in w.elections && t' in w.elections && t < t'
    ensures Agree(w.elections[t].log, w.elections[t'].log, w.elections[t].committed)
  {
    hide Core;
    ElectionFacts(w, t');
    CommittedIsInherited(w, t, t');
  }

  lemma Comparable(w: World, t: nat, t': nat)
    requires Core(w) && t in w.elections && t' in w.elections
    ensures var k, k' := w.elections[t].committed, w.elections[t'].committed;
            Agree(w.elections[t].log, w.elections[t'].log, if k <= k' then k else k')
  {
    hide Core;
    ElectionFacts(w, t);
    ElectionFacts(w, t');
    if t < t' { InitHas(w, t, t'); }
    if t' < t { InitHas(w, t', t); }
  }
}
