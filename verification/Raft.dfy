/**
 The Raft object with its fields updated in place, method by method as in the implementation. Every
 method runs under the node's lock, so each is one atomic step; each is proved to do exactly what the
 corresponding function of NodeModel says, and every method that may run between two lock acquisitions
 leaves memory and disk in agreement.
 */
module RaftObject {
  import opened Types
  import N = NodeModel

  class Raft {
    const me: nat
    const peers: nat
    const nextIndex: array<nat>
    const matchIndex: array<nat>

    var state: Role
    var currentTerm: nat
    var votedFor: int
    var currentLeader: int
    var logs: seq<Entry>
    var commitIndex: nat
    var lastApplied: nat
    var lastIncludedIndex: nat
    var lastIncludedTerm: nat
    var grantedVotes: nat
    var persister: N.Disk

    ghost function View(): N.Node
      reads this, nextIndex, matchIndex
    {
      N.Node(me, peers, state, currentTerm, votedFor, currentLeader, logs, commitIndex, lastApplied,
             nextIndex[..], matchIndex[..], lastIncludedIndex, lastIncludedTerm, grantedVotes, persister)
    }

    ghost predicate Separate()
    {
      nextIndex != matchIndex && nextIndex.Length == peers && matchIndex.Length == peers
    }

    /** Make, with readPersist on what the persister holds. */
    constructor (me: nat, peers: nat, disk: N.Disk)
      requires me < peers
      ensures Separate() && View() == N.Restart(me, peers, disk) && N.Durable(View())
    {
      this.me, this.peers := me, peers;
      nextIndex := new nat[peers](_ => 0);
      matchIndex := new nat[peers](_ => 0);
      state, currentTerm, votedFor, currentLeader := Follower, 0, -1, -1;
      logs := [Sentinel];
      commitIndex, lastApplied, lastIncludedIndex, lastIncludedTerm, grantedVotes := 0, 0, 0, 0, 0;
      persister := disk;
      new;
      ReadPersist();
      assert nextIndex[..] == seq(peers, _ => 0) && matchIndex[..] == seq(peers, _ => 0);
    }

    method ReadPersist()
      requires N.HardOf(View()) == N.Blank && commitIndex == 0 && lastApplied == 0
      modifies this
      ensures N.HardOf(View()) == N.Saved(persister) && commitIndex == lastApplied == lastIncludedIndex
      ensures unchanged(`persister) && unchanged(`state) && unchanged(`currentLeader) && unchanged(`grantedVotes)
    {
      if persister.state.None? {
        return;
      }
      var h := persister.state.value;
      currentTerm, votedFor, logs := h.term, h.votedFor, h.logs;
      lastIncludedIndex, lastIncludedTerm := h.base, h.baseTerm;
      if lastIncludedIndex > commitIndex {
        commitIndex := lastIncludedIndex;
      }
      if lastIncludedIndex > lastApplied {
        lastApplied := lastIncludedIndex;
      }
    }

    method Persist()
      modifies `persister
      ensures persister == N.Disk(Some(N.HardOf(View())), old(persister).snapshot)
    {
      persister := N.Disk(Some(N.Hard(currentTerm, votedFor, logs, lastIncludedIndex, lastIncludedTerm)),
                          persister.snapshot);
    }

    function GetLen(): nat
      reads this
    {
      lastIncludedIndex + |logs|
    }

    function GetLog(index: nat): Entry
      requires lastIncludedIndex <= index < GetLen()
      reads this
    {
      logs[index - lastIncludedIndex]
    }

    method HandleHigherTerm(term: nat) returns (higher: bool)
      modifies this
      ensures (View(), higher) == N.HigherTerm(old(View()), term)
      ensures old(N.Durable(View())) ==> N.Durable(View())
    {
      if term > currentTerm {
        currentTerm := term;
        votedFor := -1;
        state := Follower;
        Persist();
        return true;
      }
      higher := false;
    }

    // ---------------------------------------------------------------- elections

    method RequestVote(args: VoteArgs) returns (reply: VoteReply)
      requires N.Shape(View())
      modifies this
      ensures (View(), reply) == N.RequestVote(old(View()), args)
      ensures old(N.Durable(View())) ==> N.Durable(View())
    {
      reply := VoteReply(currentTerm, false);
      if args.term < currentTerm {
        return;
      }
      if args.term > currentTerm {
        state := Follower;
        currentTerm, votedFor := args.term, -1;
      }
      var canVote := votedFor == -1 || votedFor == args.cand;
      var lastLog := logs[|logs| - 1];
      var logUpToDate := if args.lastTerm != lastLog.term then args.lastTerm > lastLog.term
                         else args.lastIndex >= lastLog.index;
      if canVote && logUpToDate {
        reply := reply.(granted := true);
        votedFor := args.cand;
      }
      Persist();
    }

    /** The caller sends the returned request to every other peer. */
    method BecomeCandidate() returns (args: VoteArgs)
      requires N.Shape(View())
      modifies this
      ensures View() == N.BecomeCandidate(old(View())) && args == N.CampaignArgs(View())
      ensures N.Durable(View())
    {
      state := Candidate;
      currentTerm := currentTerm + 1;
      Persist();
      votedFor := me;
      currentLeader := -1;
      Persist();
      var lastLog := logs[|logs| - 1];
      args := VoteArgs(currentTerm, me, lastLog.term, lastLog.index);
      grantedVotes := 1;
    }

    method BecomeLeader()
      requires N.Shape(View()) && Separate()
      modifies this, nextIndex, matchIndex
      ensures View() == N.BecomeLeader(old(View()))
      ensures old(N.Durable(View())) ==> N.Durable(View())
    {
      state := Leader;
      currentLeader := me;
      var lastIndex, base := logs[|logs| - 1].index, lastIncludedIndex;
      for i := 0 to peers
        modifies nextIndex, matchIndex
        invariant forall j | 0 <= j < i :: nextIndex[j] == lastIndex + 1 && matchIndex[j] == base
      {
        nextIndex[i] := lastIndex + 1;
        matchIndex[i] := lastIncludedIndex;
      }
      assert matchIndex[..] == seq(peers, _ => base);
      matchIndex[me] := lastIndex;
      assert nextIndex[..] == seq(peers, _ => lastIndex + 1);
      assert matchIndex[..] == seq(peers, _ => base)[me := lastIndex];
    }

    method HandleVoteReply(args: VoteArgs, reply: VoteReply)
      requires N.Shape(View()) && Separate()
      modifies this, nextIndex, matchIndex
      ensures View() == N.HandleVoteReply(old(View()), args, reply)
      ensures old(N.Durable(View())) ==> N.Durable(View())
    {
      if !(state == Candidate && currentTerm == args.term) {
        return;
      }
      var higher := HandleHigherTerm(reply.term);
      if higher {
        return;
      }
      if reply.granted {
        grantedVotes := grantedVotes + 1;
        if grantedVotes == peers / 2 + 1 {
          BecomeLeader();
        }
      }
    }

    // ---------------------------------------------------------------- the follower's side

    /** The conflict to report, if the request's previous entry is not in the log. */
    method HandleConsistencyConflict(args: AppendArgs) returns (conflict: Option<(nat, int)>)
      ensures conflict == N.Conflict(View(), args.prevIndex, args.prevTerm)
    {
      if args.prevIndex < lastIncludedIndex {
        return Some((lastIncludedIndex + 1, -1));
      }
      if args.prevIndex < GetLen() && GetLog(args.prevIndex).term == args.prevTerm {
        return None;
      }
      if args.prevIndex >= GetLen() {
        return Some((GetLen(), -1));
      }
      var conflictTerm := GetLog(args.prevIndex).term;
      var index := args.prevIndex;
      while index > lastIncludedIndex && GetLog(index).term == conflictTerm
        invariant lastIncludedIndex <= index <= args.prevIndex
        invariant N.BelowRun(View(), args.prevIndex, conflictTerm) == N.BelowRun(View(), index, conflictTerm)
      {
        index := index - 1;
      }
      conflict := Some((index + 1, conflictTerm));
    }

    method AppendNewEntries(entries: seq<Entry>)
      requires N.Scannable(logs, lastIncludedIndex, entries)
      modifies `logs
      ensures logs == N.Merge(old(logs), lastIncludedIndex, entries)
    {
      var i := 0;
      while i < |entries|
        invariant 0 <= i <= |entries| && logs == old(logs)
        invariant N.Scannable(logs, lastIncludedIndex, entries[i..])
        invariant N.Merge(logs, lastIncludedIndex, entries) == N.Merge(logs, lastIncludedIndex, entries[i..])
      {
        var entry := entries[i];
        if entry.index < GetLen() {
          var pIdx := entry.index - lastIncludedIndex;
          if logs[pIdx].term != entry.term {
            logs := logs[..pIdx];
            logs := logs + entries[i..];
            return;
          }
        } else {
          logs := logs + entries[i..];
          return;
        }
        assert entries[i..][1..] == entries[i + 1..];
        i := i + 1;
      }
    }

    method AdvanceCommitIndex(leaderCommit: nat)
      requires 1 <= |logs|
      modifies `commitIndex
      ensures View() == N.LearnCommit(old(View()), leaderCommit)
    {
      if leaderCommit > commitIndex {
        var lastIndex := GetLen() - 1;
        if leaderCommit < lastIndex {
          commitIndex := leaderCommit;
        } else {
          commitIndex := lastIndex;
        }
      }
    }

    method AppendEntries(args: AppendArgs) returns (reply: AppendReply)
      requires N.CanAppend(View(), args)
      modifies this
      ensures (View(), reply) == N.AppendEntries(old(View()), args)
      ensures old(N.Durable(View())) ==> N.Durable(View())
    {
      reply := AppendReply(currentTerm, false, 0, 0);
      if args.term < currentTerm {
        return;
      }
      if args.term > currentTerm {
        currentTerm, votedFor := args.term, -1;
      }
      FollowLeader(args.leader);
      var conflict := HandleConsistencyConflict(args);
      if conflict.Some? {
        reply := reply.(conflictIndex := conflict.value.0, conflictTerm := conflict.value.1);
        Persist();
        return;
      }
      AppendNewEntries(args.entries);
      AdvanceCommitIndex(args.leaderCommit);
      reply := reply.(success := true);
      Persist();
    }

    method FollowLeader(leader: nat)
      modifies `currentLeader, `state
      ensures currentLeader == leader && state == Follower
    {
      currentLeader := leader;
      if state != Follower {
        state := Follower;
      }
    }

    method TruncateLogWithSnapshot(index: nat, term: nat)
      requires lastIncludedIndex <= index
      modifies `logs
      ensures logs == N.TruncateWithSnapshot(old(View()), index, term)
    {
      if index < GetLen() && GetLog(index).term == term {
        logs := logs[index - lastIncludedIndex..];
        return;
      }
      logs := [Entry(index, term, NoCommand)];
    }

    method InstallSnapshot(args: SnapshotArgs) returns (reply: SnapshotReply)
      modifies this
      ensures (View(), reply) == N.InstallSnapshot(old(View()), args)
      ensures old(N.Durable(View())) ==> N.Durable(View())
    {
      reply := SnapshotReply(currentTerm);
      if args.term < currentTerm {
        return;
      }
      if args.term > currentTerm {
        currentTerm, votedFor := args.term, -1;
        Persist();
      }
      FollowLeader(args.leader);
      if args.lastIndex <= lastIncludedIndex {
        return;
      }
      AdoptSnapshot(args);
    }

    method AdoptSnapshot(args: SnapshotArgs)
      requires lastIncludedIndex < args.lastIndex
      modifies `logs, `lastIncludedIndex, `lastIncludedTerm, `commitIndex, `persister
      ensures logs == N.TruncateWithSnapshot(old(View()), args.lastIndex, args.lastTerm)
      ensures lastIncludedIndex == args.lastIndex && lastIncludedTerm == args.lastTerm
      ensures commitIndex == if args.lastIndex > old(commitIndex) then args.lastIndex else old(commitIndex)
      ensures persister == N.Disk(Some(N.HardOf(View())), args.data)
    {
      TruncateLogWithSnapshot(args.lastIndex, args.lastTerm);
      lastIncludedIndex := args.lastIndex;
      lastIncludedTerm := args.lastTerm;
      if args.lastIndex > commitIndex {
        commitIndex := args.lastIndex;
      }
      persister := N.Disk(Some(N.Hard(currentTerm, votedFor, logs, lastIncludedIndex, lastIncludedTerm)), args.data);
    }

    // ---------------------------------------------------------------- the leader's side

    method Start(cmd: Command) returns (r: Option<(nat, nat)>)
      modifies this
      ensures (View(), r) == N.Start(old(View()), cmd)
      ensures old(N.Durable(View())) ==> N.Durable(View())
    {
      if state != Leader {
        return None;
      }
      var newIndex := GetLen();
      logs := logs + [Entry(newIndex, currentTerm, cmd)];
      Persist();
      r := Some((newIndex, currentTerm));
    }

    method GenAppendEntriesArgs(prevLogIndex: nat) returns (args: AppendArgs)
      requires lastIncludedIndex <= prevLogIndex < GetLen()
      ensures args == N.AppendArgsFor(View(), prevLogIndex)
    {
      var pPrev := prevLogIndex - lastIncludedIndex;
      args := AppendArgs(currentTerm, me, prevLogIndex, logs[pPrev].term, logs[pPrev + 1..], commitIndex);
    }

    /** What a leader sends to a peer: its snapshot if the peer needs entries that are gone, else the rest of
        its log. Anyone else sends nothing. */
    method ReplicateToPeer(peer: nat) returns (snapshot: Option<SnapshotArgs>, append: Option<AppendArgs>)
      requires Separate() && peer < peers
      requires state == Leader ==> nextIndex[peer] <= lastIncludedIndex || nextIndex[peer] <= GetLen()
      ensures snapshot == if state == Leader && nextIndex[peer] <= lastIncludedIndex
              then Some(N.SnapshotArgsFor(View())) else None
      ensures append == if state == Leader && nextIndex[peer] > lastIncludedIndex
              then Some(N.AppendArgsFor(View(), nextIndex[peer] - 1)) else None
    {
      snapshot, append := None, None;
      if state != Leader {
        return;
      }
      if nextIndex[peer] <= lastIncludedIndex {
        snapshot := Some(SnapshotArgs(currentTerm, me, lastIncludedIndex, lastIncludedTerm, persister.snapshot));
        return;
      }
      var args := GenAppendEntriesArgs(nextIndex[peer] - 1);
      append := Some(args);
    }

    method FindLastIndexOfTerm(term: int, startSearch: nat) returns (index: int)
      requires startSearch < GetLen()
      ensures index == N.FindLast(View(), term, startSearch)
    {
      var i: nat := startSearch;
      while i > lastIncludedIndex
        invariant i <= startSearch
        invariant N.FindLast(View(), term, startSearch) == N.FindLast(View(), term, i)
      {
        if GetLog(i).term == term {
          return i;
        }
        i := i - 1;
      }
      index := -1;
    }

    method ResolveConflict(peer: nat, args: AppendArgs, reply: AppendReply)
      requires Separate() && peer < peers && N.CanResolve(View(), args, reply)
      modifies nextIndex
      ensures View() == N.Resolve(old(View()), peer, args, reply)
    {
      if args.prevIndex < lastIncludedIndex {
        return;
      }
      if reply.conflictTerm == -1 {
        nextIndex[peer] := reply.conflictIndex;
      } else {
        var lastIdx := FindLastIndexOfTerm(reply.conflictTerm, args.prevIndex);
        if lastIdx > 0 {
          nextIndex[peer] := lastIdx + 1;
        } else {
          nextIndex[peer] := reply.conflictIndex;
        }
      }
    }

    method AdvancePeerIndices(peer: nat, args: AppendArgs)
      requires Separate() && peer < peers
      modifies nextIndex, matchIndex
      ensures View() == N.AdvancePeer(old(View()), peer, args)
    {
      var newMatch := args.prevIndex + |args.entries|;
      if newMatch > matchIndex[peer] {
        matchIndex[peer] := newMatch;
        nextIndex[peer] := newMatch + 1;
      }
    }

    method CountNodesWithLogAt(index: nat) returns (count: nat)
      requires Separate()
      ensures count == N.NodesWithLogAt(View(), index)
    {
      count := 1;
      for i := 0 to matchIndex.Length
        invariant count == 1 + N.CountMatches(matchIndex[..], me, index, i)
      {
        if i != me && matchIndex[i] >= index {
          count := count + 1;
        }
      }
    }

    method UpdateCommitIndex()
      requires Separate() && 1 <= |logs| && lastIncludedIndex <= commitIndex
      modifies `commitIndex
      ensures View() == N.UpdateCommit(old(View()))
    {
      var n: nat := GetLen() - 1;
      while n > commitIndex
        invariant n < GetLen() && commitIndex == old(commitIndex)
        invariant N.CommitPoint(View(), GetLen() - 1) == N.CommitPoint(View(), n)
      {
        if GetLog(n).term == currentTerm {
          var count := CountNodesWithLogAt(n);
          if count > peers / 2 {
            commitIndex := n;
            return;
          }
        }
        n := n - 1;
      }
    }

    method HandleAppendEntriesReply(peer: nat, args: AppendArgs, reply: AppendReply)
      requires N.Valid(View()) && Separate() && peer < peers
      requires N.CanHandle(View(), args, reply)
      modifies this, nextIndex, matchIndex
      ensures View() == N.HandleAppendReply(old(View()), peer, args, reply)
      ensures old(N.Durable(View())) ==> N.Durable(View())
    {
      var higher := HandleHigherTerm(reply.term);
      if higher || state != Leader || currentTerm != args.term {
        return;
      }
      if !reply.success {
        ResolveConflict(peer, args, reply);
        return;
      }
      AdvancePeerIndices(peer, args);
      UpdateCommitIndex();
    }

    method HandleInstallSnapshotReply(peer: nat, args: SnapshotArgs, reply: SnapshotReply)
      requires Separate() && peer < peers
      modifies this, nextIndex, matchIndex
      ensures View() == N.HandleSnapshotReply(old(View()), peer, args, reply)
      ensures old(N.Durable(View())) ==> N.Durable(View())
    {
      var higher := HandleHigherTerm(reply.term);
      if higher {
        return;
      }
      if state == Leader && currentTerm == args.term {
        var newMatch := args.lastIndex;
        var newNext := newMatch + 1;
        if newNext > nextIndex[peer] {
          nextIndex[peer] := newNext;
        }
        if newMatch > matchIndex[peer] {
          matchIndex[peer] := newMatch;
        }
      }
    }

    // ---------------------------------------------------------------- the service above

    method Snapshot(index: nat, data: Types.Snapshot)
      requires N.Valid(View())
      modifies this
      ensures View() == N.TakeSnapshot(old(View()), index, data)
      ensures old(N.Durable(View())) ==> N.Durable(View())
    {
      if index <= lastIncludedIndex || index > commitIndex {
        return;
      }
      logs := logs[index - lastIncludedIndex..];
      lastIncludedIndex := index;
      lastIncludedTerm := logs[0].term;
      persister := N.Disk(Some(N.Hard(currentTerm, votedFor, logs, lastIncludedIndex, lastIncludedTerm)), data);
    }

    /** One pass of the applier's loop: what it sends on the apply channel after releasing the lock. */
    method ApplierRound() returns (msgs: seq<ApplyMsg>)
      requires N.Valid(View()) && lastApplied < commitIndex
      modifies `lastApplied
      ensures (View(), msgs) == N.Deliver(old(View()))
    {
      if lastApplied < lastIncludedIndex {
        msgs := [ApplySnapshot(persister.snapshot, lastIncludedTerm, lastIncludedIndex)];
        lastApplied := lastIncludedIndex;
        return;
      }
      var start := lastApplied + 1;
      var limit := commitIndex;
      var entries := logs[start - lastIncludedIndex..limit - lastIncludedIndex + 1];
      lastApplied := limit;
      msgs := [];
      for i := 0 to |entries|
        invariant |msgs| == i
        invariant forall j | 0 <= j < i :: msgs[j] == ApplyCommand(entries[j].cmd, entries[j].index)
      {
        msgs := msgs + [ApplyCommand(entries[i].cmd, entries[i].index)];
      }
      ghost var sent := N.Deliver(old(View())).1;
      forall j | 0 <= j < |msgs| ensures msgs[j] == sent[j] {
        assert entries[j] == N.At(old(View()), start + j);
      }
      assert msgs == sent;
    }
  }
}
