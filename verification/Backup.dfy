/**
 Fast conflict backup: how a leader finds where a follower's log and its own part.

 The leader probes with a previous index, the follower answers with a conflict, the leader lowers its next
 index. The exchange below is between a leader and a follower that do not otherwise change.
 */
module Backup {
  import opened Types
  import opened NodeModel
  import opened SystemModel
  import opened Protocol
  import opened Relation
  import opened ReplicationSteps
  import opened Runs

  ghost predicate Sorted(log: Log) {
    forall i, j | 0 <= i <= j < |log| :: log[i].term <= log[j].term
  }

  /** Leader and follower hold logs that obey log matching, and share what the follower compacted. */
  ghost predicate Aligned(leader: Log, v: Node, follower: Log, u: Node) {
    && Held(leader, v) && Held(follower, u) && Sorted(leader) && Sorted(follower)
    && (forall i | 0 <= i < |leader| && i < |follower| && leader[i].term == follower[i].term ::
        Agree(leader, follower, i + 1))
    && Agree(leader, follower, u.base + 1)
  }

  /** p is the length of the longest common prefix. */
  ghost predicate Common(leader: Log, follower: Log, p: nat) {
    Agree(leader, follower, p) && (p < |leader| && p < |follower| ==> leader[p] != follower[p])
  }

  /** The conflict the follower reports to a probe with this next index. */
  ghost function ConflictAt(v: Node, u: Node, next: nat): Option<(nat, int)>
    requires v.base < next <= Len(v)
  {
    Conflict(u, next - 1, At(v, next - 1).term)
  }

  /** The next index the leader then sets, as Resolve does. */
  ghost function NextAfter(v: Node, next: nat, index: nat, term: int): nat
    requires v.base < next <= Len(v)
  {
    if term == -1 then index
    else
      var last := FindLast(v, term, next - 1);
      if last > 0 then last + 1 else index
  }

  lemma NextAfterIsResolve(v: Node, u: Node, peer: nat, next: nat, reply: AppendReply)
    requires peer < |v.next| && v.base < next <= Len(v)
    ensures Resolve(v, peer, AppendArgsFor(v, next - 1), reply).next[peer] ==
            NextAfter(v, next, reply.conflictIndex, reply.conflictTerm)
  {
  }

  /** Where the logs agree at the leader's previous index, the probe is accepted. */
  lemma AcceptedInCommonPrefix(leader: Log, v: Node, follower: Log, u: Node, p: nat, next: nat)
    requires Aligned(leader, v, follower, u) && Common(leader, follower, p) && v.base < next <= p && u.base < next
    ensures next <= Len(v) && ConflictAt(v, u, next).None?
  {
    HeldAt(leader, v, next - 1);
    HeldAt(follower, u, next - 1);
  }

  /** A rejection at or above the follower's snapshot lowers the next index, but not below the first index
      after the common prefix unless that lies in what the leader has compacted. And it goes far: into the
      follower's log at once, and past the whole run of the conflicting term, unless it stops at the follower's
      snapshot or where the leader has that term too. */
  lemma RejectionBacksUp(leader: Log, v: Node, follower: Log, u: Node, p: nat, next: nat)
    requires Aligned(leader, v, follower, u) && Common(leader, follower, p)
    requires v.base < next <= Len(v) && u.base < next && ConflictAt(v, u, next).Some?
    ensures var (index, term) := ConflictAt(v, u, next).value;
            var next' := NextAfter(v, next, index, term);
            && 1 <= next' < next && p < next
            && (next' >= p || (next' <= v.base && p <= v.base + 1))
            && (next' > u.base || next' > v.base + 1)
            && next' <= |follower|
            && (next - 1 < |follower| ==>
                  var conflicting := follower[next - 1].term;
                  || follower[next' - 1].term != conflicting || next' - 1 == u.base
                  || leader[next' - 1].term == conflicting)
  {
    var prev := next - 1;
    HeldAt(leader, v, prev);
    HeldAt(follower, u, prev);
    if next <= p { AcceptedInCommonPrefix(leader, v, follower, u, p, next); }
    if prev < |follower| {
      var term := follower[prev].term;
      assert u.base < prev;
      TermAtSplit(leader, v, follower, u, p, prev);
    }
  }

  /** The follower's run of its conflicting term starts after the common prefix, or is the term in which
      the common prefix ends, which the leader then finds unless it has compacted it. */
  lemma TermAtSplit(leader: Log, v: Node, follower: Log, u: Node, p: nat, prev: nat)
    requires Aligned(leader, v, follower, u) && Common(leader, follower, p)
    requires v.base <= prev < |leader| && u.base < prev < |follower| && p <= prev
    requires leader[prev].term != follower[prev].term
    ensures var term := follower[prev].term;
            var start, last := BelowRun(u, prev, term) + 1, FindLast(v, term, prev);
            && start <= prev && last < prev
            && (if last > 0 then last + 1 >= p else start >= p || (start <= v.base && p <= v.base + 1))
            && (last > 0 ==> leader[last].term == term)
            && (start - 1 == u.base || follower[start - 1].term != term)
  {
    hide Held;
    HeldAt(leader, v, prev);
    HeldAt(follower, u, prev);
    var term := follower[prev].term;
    var start, last := BelowRun(u, prev, term) + 1, FindLast(v, term, prev);
    assert leader[p - 1] == follower[p - 1];
    HeldAt(follower, u, start - 1);
    if last > 0 {
      HeldAt(leader, v, last);
      if last + 1 < p { FindsLast(leader, v, term, prev, p - 1); }
    } else if start < p {
      RunReaches(follower, u, term, prev, p - 1);
      if p - 1 > v.base { FindsLast(leader, v, term, prev, p - 1); }
    }
  }

  /** The search returns the last occurrence: nothing of that term lies between it and the start. */
  lemma FindsLast(leader: Log, v: Node, term: nat, prev: nat, k: nat)
    requires Held(leader, v) && v.base < k <= prev < |leader| && leader[k].term == term
    ensures FindLast(v, term, prev) >= k
  {
    HeldAt(leader, v, k);
    assert At(v, k).term == term;
  }

  lemma RunReaches(follower: Log, u: Node, term: nat, prev: nat, k: nat)
    requires Held(follower, u) && Sorted(follower) && k <= prev < |follower| && u.base < prev
    requires follower[prev].term == term
    requires BelowRun(u, prev, term) < k
    ensures u.base < k && follower[k].term == term
  {
    HeldAt(follower, u, k);
    assert At(u, k).term == term;
  }

  /** A rejection because the previous index lies below the follower's snapshot: the leader jumps once, and
      then the probe is accepted or the leader sends its snapshot. */
  lemma OneJumpAboveSnapshot(leader: Log, v: Node, follower: Log, u: Node, next: nat)
    requires Aligned(leader, v, follower, u) && v.base < next <= u.base
    ensures next <= Len(v) && ConflictAt(v, u, next) == Some((u.base + 1, -1))
    ensures var next' := NextAfter(v, next, u.base + 1, -1);
            next' == u.base + 1 <= Len(v) && ConflictAt(v, u, next').None?
  {
  }

  // ---------------------------------------------------------------- reachable states

  /** The uncompacted logs of a leader and of a server not ahead of its term are aligned. */
  lemma AlignedInRun(run: seq<System>, i: nat, q: nat) returns (leader: Log, follower: Log, p: nat)
    requires IsRun(run) && i < |Final(run).servers| && q < |Final(run).servers|
    requires Final(run).servers[i].raft.role.Leader?
    requires Final(run).servers[q].raft.term <= Final(run).servers[i].raft.term
    ensures Aligned(leader, Final(run).servers[i].raft, follower, Final(run).servers[q].raft)
    ensures Common(leader, follower, p)
    ensures Final(run).servers[q].raft.base < p
  {
    hide Core, ChosenOk, Rel, Durable, SnapshotOf, CandidateOk, ReaderOk, PendingOk, LogOk, Held;
    WorldFacts(run, |run| - 1);
    var w, s := Worlds(run)[|run| - 1], Final(run);
    RelFacts(w, s, i);
    RelFacts(w, s, q);
    leader, follower := w.peers[i].log, w.peers[q].log;
    AlignedInWorld(w, i, s.servers[i].raft, q, s.servers[q].raft);
    p := CommonPrefix(leader, follower, 0);
  }

  /** A rejected probe moves the next index from `next` to `next'`: either the follower's snapshot was in the way
      and the leader jumps past it and is accepted; or the index goes down, not into what the follower has
      compacted if the leader has not, to the follower's end if it lay behind it, and otherwise to where the next
      probe is accepted or meets a lower term in the follower's log, unless it has come to what the leader has
      compacted. */
  ghost predicate Backtracks(v: Node, u: Node, next: nat, next': nat)
    requires v.base < next <= Len(v) && next' <= Len(v)
  {
    if next <= u.base then
      next' == u.base + 1 && ConflictAt(v, u, next').None?
    else
      && next' < next && (v.base <= u.base ==> u.base < next') && next' <= Len(u)
      && (next > Len(u) ==> next' == Len(u))
      && (next <= Len(u) ==>
            || next' <= v.base || ConflictAt(v, u, next').None?
            || (u.base < next' && At(u, next' - 1).term < At(u, next - 1).term))
  }

  lemma Rejected(run: seq<System>, i: nat, q: nat, next: nat)
    requires IsRun(run) && i < |Final(run).servers| && q < |Final(run).servers|
    requires Final(run).servers[i].raft.role.Leader?
    requires Final(run).servers[q].raft.term <= Final(run).servers[i].raft.term
    requires var v := Final(run).servers[i].raft; v.base < next <= Len(v)
    requires ConflictAt(Final(run).servers[i].raft, Final(run).servers[q].raft, next).Some?
    ensures var v, u := Final(run).servers[i].raft, Final(run).servers[q].raft;
            var (index, term) := ConflictAt(v, u, next).value;
            var next' := NextAfter(v, next, index, term);
            next' <= Len(v) && Backtracks(v, u, next, next')
  {
    hide IsRun, Aligned, Common, Conflict, FindLast;
    var leader, follower, p := AlignedInRun(run, i, q);
    var v, u := Final(run).servers[i].raft, Final(run).servers[q].raft;
    if next <= u.base {
      OneJumpAboveSnapshot(leader, v, follower, u, next);
    } else {
      RejectionBacksUp(leader, v, follower, u, p, next);
      RejectedProbe(leader, v, follower, u, p, next);
    }
  }

  lemma RejectedProbe(leader: Log, v: Node, follower: Log, u: Node, p: nat, next: nat)
    requires Aligned(leader, v, follower, u) && Common(leader, follower, p) && u.base < p
    requires v.base < next <= Len(v) && u.base < next && ConflictAt(v, u, next).Some?
    ensures var (index, term) := ConflictAt(v, u, next).value;
            var next' := NextAfter(v, next, index, term);
            && 1 <= next' <= Len(u) && (next - 1 >= Len(u) ==> next' == Len(u))
            && (next - 1 < Len(u) ==>
                  || next' <= v.base || (next' <= Len(v) && ConflictAt(v, u, next').None?)
                  || (u.base < next' && At(u, next' - 1).term < At(u, next - 1).term))
  {
    hide Held, FindLast, Common;
    RejectionBacksUp(leader, v, follower, u, p, next);
    HeldAt(leader, v, next - 1);
    HeldAt(follower, u, next - 1);
    var (index, term) := ConflictAt(v, u, next).value;
    var next' := NextAfter(v, next, index, term);
    if next - 1 < |follower| && next' > v.base {
      HeldAt(leader, v, next' - 1);
      HeldAt(follower, u, next' - 1);
      if follower[next' - 1].term == follower[next - 1].term { NextProbeAccepted(leader, v, follower, u, next'); }
    }
  }

  /** Where the logs have the same term, or at the follower's boundary, a probe is accepted. */
  lemma NextProbeAccepted(leader: Log, v: Node, follower: Log, u: Node, next: nat)
    requires Aligned(leader, v, follower, u) && v.base < next <= |leader| && u.base < next <= |follower|
    requires next - 1 == u.base || leader[next - 1].term == follower[next - 1].term
    ensures next <= Len(v) && ConflictAt(v, u, next).None?
  {
    hide Held;
    HeldAt(leader, v, next - 1);
    HeldAt(follower, u, next - 1);
  }

  lemma AlignedInWorld(w: World, i: nat, v: Node, q: nat, u: Node)
    requires Core(w) && i < |w.peers| && q < |w.peers| && NodeOk(w.peers[i], |w.peers|, i, v)
    requires NodeOk(w.peers[q], |w.peers|, q, u)
    requires v.role.Leader? && u.term <= v.term
    ensures Aligned(w.peers[i].log, v, w.peers[q].log, u)
  {
    hide Core, LogOk, Held;
    var a, b := w.peers[i].log, w.peers[q].log;
    LeadersLog(w, i, v);
    KnownInLeader(w, i, v.term);
    KnownInLeader(w, q, v.term);
    forall k | 0 <= k < |a| && k < |b| && a[k].term == b[k].term ensures Agree(a, b, k + 1) {
      LogMatching(w.elections, a, b, k);
    }
    forall x, y | 0 <= x <= y < |a| ensures a[x].term <= a[y].term { Protocol.Sorted(w, a, x, y); }
    forall x, y | 0 <= x <= y < |b| ensures b[x].term <= b[y].term { Protocol.Sorted(w, b, x, y); }
  }

  lemma CommonPrefix(a: Log, b: Log, k: nat) returns (p: nat)
    requires Agree(a, b, k)
    ensures Common(a, b, p)
    decreases |a| - k
  {
    p := k;
    if k < |a| && k < |b| && a[k] == b[k] { p := CommonPrefix(a, b, k + 1); }
  }
}
