/**
 Progress that is always possible: from every reachable state, whatever was lost, delayed or crashed
 before, any majority of the servers can go on without the others to elect a leader, bring its members'
 logs up to date, commit a new request and answer it.

 `Continues` says what "go on" means: every added step is taken by one of those servers, reads the leadership
 its node really has, and is neither a crash nor a client giving up. One assumption of the model matters
 here: sending a result never blocks. In the code a waiter that has timed out takes the lock the reader holds
 while it sends to that waiter; such a server answers nobody until it is restarted.
 */
module Progress {
  import opened Types
  import opened StoreModel
  import opened NodeModel
  import opened RsmModel
  import opened SystemModel
  import opened Protocol
  import opened Relation
  import opened ReplicationSteps
  import opened ServiceSteps
  import opened Runs
  import opened Theorems
  import opened Backup

  // ---------------------------------------------------------------- one follower

  /** Only these servers took part, and of them only the Raft node moved. */
  ghost predicate NodesMoved(s: System, s': System, movers: set<nat>) {
    && |s'.servers| == |s.servers| && s'.submitted == s.submitted
    && forall j | 0 <= j < |s.servers| ::
         var x, x' := s.servers[j], s'.servers[j];
         x' == if j in movers then x.(raft := x'.raft, awaiting := x'.awaiting) else x
  }

  ghost predicate NothingToCommit(v: Node) {
    forall k | v.commit < k < Len(v) :: !Committable(v, k)
  }

  /** The leader is still leader of its term with the same log and has lost no acknowledgement. */
  ghost predicate StillLeads(v: Node, v': Node) {
    && v' == v.(next := v'.next, matched := v'.matched, commit := v'.commit) && v.commit <= v'.commit
    && |v'.matched| == |v.matched|
    && forall p | 0 <= p < |v.matched| :: v'.matched[p] >= v.matched[p]
  }

  /** At the end of the run the logical logs of two servers agree up to n. */
  ghost predicate WholeLog(run: seq<System>, i: nat, q: nat, n: nat)
    requires IsRun(run) && i < |Final(run).servers| && q < |Final(run).servers|
  {
    Agree(LogicalLog(run, |run| - 1, i), LogicalLog(run, |run| - 1, q), n)
  }

  /** What gets smaller: first the follower may lack what the leader has compacted, then the next index may
      lie in what one of them has compacted, then it only goes down. */
  ghost function Rank(s: System, i: nat, q: nat): (bool, bool, bool, nat)
    requires i < |s.servers| && q < |s.servers|
  {
    var v, u := s.servers[i].raft, s.servers[q].raft;
    var next := if q < |v.next| then v.next[q] else 0;
    (u.base < v.base, v.base <= u.base && next <= v.base, v.base <= u.base && next <= u.base, next)
  }

  /** The terms a node still holds, and those up to t. */
  ghost function HeldTerms(u: Node): set<nat> { set e | e in u.logs :: e.term }
  ghost function TermsUpTo(u: Node, t: nat): set<nat> { set e | e in u.logs && e.term <= t :: e.term }

  /** How many exchanges are enough: one for each term of the follower the search may meet, one if the next
      index lies behind the follower's log, one that succeeds, and for what one of them has compacted a jump past
      the follower's snapshot, or the leader's snapshot and what comes after it. */
  ghost function Budget(v: Node, u: Node, next: nat): nat {
    if next <= v.base then 3
    else if next <= u.base then 2
    else
      1 + (if u.base < v.base then 2 else 0)
      + if next > Len(u) then 1 + |HeldTerms(u)| else |TermsUpTo(u, At(u, next - 1).term)|
  }

  lemma BudgetIsSmall(v: Node, u: Node, next: nat)
    ensures Budget(v, u, next) <= 4 + |HeldTerms(u)|
  {
    if v.base < next && u.base < next <= Len(u) { SubsetSize(TermsUpTo(u, At(u, next - 1).term), HeldTerms(u)); }
  }

  /** A rejection that is neither the last one nor leads to a snapshot uses up its share. */
  lemma BudgetShrinks(v: Node, u: Node, next: nat, next': nat)
    requires v.base < next' < next && u.base < next' <= Len(u)
    requires if next > Len(u) then next' == Len(u) else At(u, next' - 1).term < At(u, next - 1).term
    ensures Budget(v, u, next') < Budget(v, u, next)
  {
    var t' := At(u, next' - 1).term;
    if next > Len(u) {
      SubsetSize(TermsUpTo(u, t'), HeldTerms(u));
    } else {
      var t := At(u, next - 1).term;
      assert At(u, next - 1) in u.logs;
      assert t in TermsUpTo(u, t) && t !in TermsUpTo(u, t');
      SubsetSize(TermsUpTo(u, t') + {t}, TermsUpTo(u, t));
    }
  }

  /** A term the search meets is one of the follower's. */
  lemma BudgetForOne(v: Node, u: Node, next: nat)
    requires v.base < next && u.base < next && 1 <= |u.logs|
    ensures Budget(v, u, next) >= (if u.base < v.base then 4 else 2)
  {
    if next <= Len(u) {
      assert At(u, next - 1) in u.logs && At(u, next - 1).term in TermsUpTo(u, At(u, next - 1).term);
    } else {
      assert u.logs[0] in u.logs && u.logs[0].term in HeldTerms(u);
    }
  }

  /** From every reachable state, a leader and a server that is not ahead of its term can exchange requests
      and replies until the server has the leader's whole log, knows as much of it to be committed as the leader
      did, and is counted there: no next index and no combination of logs and snapshots makes the search for the
      common prefix loop or get stuck. The number of exchanges is bounded by the number of terms in what the
      server holds of its log, not by its length. */
  lemma CatchesUp(run: seq<System>, i: nat, q: nat) returns (run': seq<System>, rounds: nat)
    requires IsRun(run) && i < |Final(run).servers| && q < |Final(run).servers| && q != i
    requires Final(run).servers[i].raft.role.Leader?
    requires Final(run).servers[q].raft.term <= Final(run).servers[i].raft.term
    ensures IsRun(run') && Continues(run, run', {i, q}) && NodesMoved(Final(run), Final(run'), {i, q})
    ensures var v, v', u' := Final(run).servers[i].raft, Final(run').servers[i].raft, Final(run').servers[q].raft;
            && StillLeads(v, v') && NothingToCommit(v') && u'.term <= v.term
            && q < |v'.matched| && v'.matched[q] >= Len(v) - 1 && u'.commit >= v.commit
    ensures WholeLog(run', i, q, Len(Final(run).servers[i].raft))
    ensures |run'| == |run| + 3 * rounds && rounds <= 4 + |HeldTerms(Final(run).servers[q].raft)|
    ensures var v, u := Final(run).servers[i].raft, Final(run).servers[q].raft;
            && q < |v.next| && v.next[q] <= Len(v) && rounds <= Budget(v, u, v.next[q])
            && (v.base < v.next[q] && ConflictAt(v, u, v.next[q]).None? ==> rounds == 1)
    decreases Rank(Final(run), i, q).0, Rank(Final(run), i, q).1, Rank(Final(run), i, q).2, Rank(Final(run), i, q).3
  {
    hide IsRun, Final, Exchanged, Conflict, WholeLog, NothingToCommit, Continues, Budget, HeldTerms;
    NextIndicesInRange(run, i, q);
    WriteAhead(run, i);
    WriteAhead(run, q);
    var v, u := Final(run).servers[i].raft, Final(run).servers[q].raft;
    BudgetIsSmall(v, u, v.next[q]);
    if v.next[q] <= v.base {
      var run1 := SnapshotAndReply(run, i, q);
      AtBoundary(run1, i, q);
      run', rounds := CatchesUp(run1, i, q);
      rounds := rounds + 1;
      Joined(run, run1, run', {i, q}, {i, q}, {i, q});
      SnapshotBudget(v, u, Final(run1).servers[i].raft, Final(run1).servers[q].raft, q);
    } else {
      var run1 := RequestAndReply(run, i, q);
      if ConflictAt(v, u, v.next[q]).None? {
        run', rounds := run1, 1;
        Accepted(run, run1, i, q);
        OneIsEnough(v, u, v.next[q]);
      } else {
        RejectedNodes(v, u, Final(run1).servers[i].raft, Final(run1).servers[q].raft, q);
        Rejected(run, i, q, v.next[q]);
        run', rounds := CatchesUp(run1, i, q);
        RejectionBudget(v, u, Final(run1).servers[i].raft, Final(run1).servers[q].raft, q, rounds);
        rounds := rounds + 1;
        Joined(run, run1, run', {i, q}, {i, q}, {i, q});
      }
    }
  }

  lemma OneIsEnough(v: Node, u: Node, next: nat)
    ensures 1 <= Budget(v, u, next)
  {
  }

  /** After the leader's snapshot at most a jump and a success are left. */
  lemma SnapshotBudget(v: Node, u: Node, v': Node, u': Node, q: nat)
    requires q < |v.next| && q < |v'.next| && v.next[q] <= v.base && v'.base == v.base && v'.next[q] == v.base + 1
    ensures 3 <= Budget(v, u, v.next[q]) && (u'.base > v.base ==> Budget(v', u', v'.next[q]) == 2)
  {
  }

  /** One more exchange than what is left after a rejection is still within the budget. */
  lemma RejectionBudget(v: Node, u: Node, v': Node, u': Node, q: nat, rounds: nat)
    requires q < |v.next| && v.base < v.next[q] <= Len(v) && 1 <= |u.logs| && ConflictAt(v, u, v.next[q]).Some?
    requires u'.base == u.base && u'.logs == u.logs
    requires var (index, term) := ConflictAt(v, u, v.next[q]).value;
             && v' == v.(next := v.next[q := NextAfter(v, v.next[q], index, term)])
             && v'.next[q] <= Len(v) && Backtracks(v, u, v.next[q], v'.next[q])
    requires rounds <= Budget(v', u', v'.next[q])
    requires v'.base < v'.next[q] && ConflictAt(v', u', v'.next[q]).None? ==> rounds == 1
    ensures rounds + 1 <= Budget(v, u, v.next[q])
  {
    hide Conflict, NextAfter;
    var next, next' := v.next[q], v'.next[q];
    if next > u.base {
      BudgetForOne(v, u, next);
      if next' > v.base && ConflictAt(v, u, next').Some? { BudgetShrinks(v, u, next, next'); }
    }
    if next' > v.base { SameConflict(u, u', next' - 1, At(v, next' - 1).term); }
    SameBudget(v, u, v', u', next');
  }

  lemma SameBudget(v: Node, u: Node, v': Node, u': Node, next: nat)
    requires v'.base == v.base && u'.base == u.base && u'.logs == u.logs
    ensures Budget(v', u', next) == Budget(v, u, next)
  {
    assert HeldTerms(u') == HeldTerms(u);
    if u.base < next <= Len(u) {
      assert TermsUpTo(u', At(u', next - 1).term) == TermsUpTo(u, At(u, next - 1).term);
    }
  }

  /** At the follower's snapshot boundary, if the leader still holds it, a probe is accepted. */
  lemma AtBoundary(run: seq<System>, i: nat, q: nat)
    requires IsRun(run) && i < |Final(run).servers| && q < |Final(run).servers|
    requires Final(run).servers[i].raft.role.Leader?
    requires Final(run).servers[q].raft.term <= Final(run).servers[i].raft.term
    ensures var v, u := Final(run).servers[i].raft, Final(run).servers[q].raft;
            && u.base + 1 <= Len(v)
            && (v.base <= u.base ==> ConflictAt(v, u, u.base + 1).None?)
  {
    hide IsRun, Common, Conflict;
    var leader, follower, p := AlignedInRun(run, i, q);
    var v, u := Final(run).servers[i].raft, Final(run).servers[q].raft;
    if v.base <= u.base { NextProbeAccepted(leader, v, follower, u, u.base + 1); }
  }

  /** Leader v and follower u have become v' and u' by a request to peer q and its reply. */
  ghost predicate Exchanged(v: Node, u: Node, v': Node, u': Node, q: nat) {
    && Valid(v) && Shape(u) && q < v.peers && v.base < v.next[q] <= Len(v)
    && var args := AppendArgsFor(v, v.next[q] - 1);
    && CanAppend(u, args)
    && var (u1, reply) := NodeModel.AppendEntries(u, args);
    CanHandle(v, args, reply) && u' == u1 && v' == HandleAppendReply(v, q, args, reply)
  }

  /** Three steps: the request is sent, handled, and its reply handled. */
  lemma RequestAndReply(run: seq<System>, i: nat, q: nat) returns (run': seq<System>)
    requires IsRun(run) && i < |Final(run).servers| && q < |Final(run).servers| && q != i
    requires var v := Final(run).servers[i].raft; v.role.Leader? && q < |v.next| && v.base < v.next[q] <= Len(v)
    ensures IsRun(run') && Continues(run, run', {i, q}) && NodesMoved(Final(run), Final(run'), {i, q})
    ensures |run'| == |run| + 3
    ensures Exchanged(Final(run).servers[i].raft, Final(run).servers[q].raft,
                      Final(run').servers[i].raft, Final(run').servers[q].raft, q)
  {
    hide IsRun, NodeModel.AppendEntries, HandleAppendReply, CanAppend, CanHandle, Continues;
    WriteAhead(run, i);
    WriteAhead(run, q);
    var s, v, u := Final(run), Final(run).servers[i].raft, Final(run).servers[q].raft;
    assert v.me == i by { Names(run, i); }
    var args := AppendArgsFor(v, v.next[q] - 1);
    NoReachablePanic(run, Replicate(i, q));
    Unmoved(run, {i, q});
    run' := Extend(run, run, Replicate(i, q), {i, q});
    var s1 := Final(run');
    assert s1 == s.(net := s.net + {AppendRequest(q, args)});
    var ask := DeliverMessage(AppendRequest(q, args));
    NoReachablePanic(run', ask);
    run' := Extend(run, run', ask, {i, q});
    var reply := NodeModel.AppendEntries(u, args).1;
    var answer := DeliverMessage(AppendAnswer(q, args, reply));
    NoReachablePanic(run', answer);
    run' := Extend(run, run', answer, {i, q});
  }

  lemma Names(run: seq<System>, i: nat)
    requires IsRun(run) && i < |Final(run).servers|
    ensures Final(run).servers[i].raft.me == i && Final(run).servers[i].raft.peers == |Final(run).servers|
  {
    hide Inv, Rel, Held, Durable, SnapshotOf, CandidateOk, LeaderOk, ReaderOk, PendingOk;
    WorldFacts(run, |run| - 1);
    RelFacts(Worlds(run)[|run| - 1], Final(run), i);
  }

  /** A follower that accepts the leader's probe ends up with the leader's last term at its last index. */
  lemma FollowerReaches(v: Node, u: Node, next: nat)
    requires Valid(v) && Shape(u) && u.term <= v.term && v.base < next <= Len(v) && ConflictAt(v, u, next).None?
    requires CanAppend(u, AppendArgsFor(v, next - 1))
    ensures var (u', reply) := NodeModel.AppendEntries(u, AppendArgsFor(v, next - 1));
            && reply == AppendReply(u.term, true, 0, 0)
            && u'.term == v.term && u'.base <= Len(v) - 1 < Len(u') && At(u', Len(v) - 1).term == At(v, Len(v) - 1).term
            && u'.commit == if v.commit > u.commit then v.commit else u.commit
  {
    hide Merge;
    MergedTail(v, u, next);
  }

  lemma MergedTail(v: Node, u: Node, next: nat)
    requires Shape(v) && Shape(u) && v.base < next <= Len(v) && ConflictAt(v, u, next).None?
    ensures var args := AppendArgsFor(v, next - 1);
            && u.base <= next - 1 && Scannable(u.logs, u.base, args.entries)
            && var logs := Merge(u.logs, u.base, args.entries);
            Len(v) - u.base <= |logs| && logs[Len(v) - 1 - u.base].term == At(v, Len(v) - 1).term
  {
    hide Merge, Present;
    var args := AppendArgsFor(v, next - 1);
    MergeEnds(u.logs, u.base, args.entries, next);
    assert args.entries != [] ==> args.entries[|args.entries| - 1] == At(v, Len(v) - 1);
  }

  lemma MergeEnds(logs: seq<Entry>, base: nat, entries: seq<Entry>, start: nat)
    requires 1 <= |logs| && Consecutive(logs, base) && Consecutive(entries, start) && base < start <= base + |logs|
    ensures Scannable(logs, base, entries)
    ensures var r, end := Merge(logs, base, entries), start - base + |entries| - 1;
            end < |r| && r[end].term == if entries == [] then logs[end].term else entries[|entries| - 1].term
  {
    hide Merge, Present;
    MergeSpec(logs, base, entries, start);
    if entries == [] {
      assert Merge(logs, base, entries)[start - base - 1] == logs[..start - base][start - base - 1];
    }
  }

  /** A success counts the peer at the last entry sent, and if that is new moves its next index right behind
      it, so that the next request carries exactly what follows; nothing else of the indices changes, and the
      commit index ends as high as it can. */
  lemma LeaderCounts(v: Node, q: nat, args: AppendArgs, reply: AppendReply)
    requires Valid(v) && v.role.Leader? && q < v.peers && reply.success && reply.term <= v.term == args.term
    ensures var v' := HandleAppendReply(v, q, args, reply);
            && v' == v.(next := v'.next, matched := v'.matched, commit := v'.commit) && v.commit <= v'.commit
            && |v'.matched| == v.peers && v'.matched[q] >= args.prevIndex + |args.entries| && NothingToCommit(v')
            && (forall p | 0 <= p < v.peers :: v'.matched[p] >= v.matched[p])
            && (forall p | 0 <= p < v.peers && p != q :: v'.matched[p] == v.matched[p] && v'.next[p] == v.next[p])
            && var acked := args.prevIndex + |args.entries|;
            if acked <= v.matched[q] then
              v'.matched == v.matched && v'.next == v.next
            else
              && v'.matched[q] == acked && v'.next[q] == acked + 1
              && (v.base <= acked < Len(v) ==>
                    var request := AppendArgsFor(v', v'.next[q] - 1);
                    request.prevIndex == acked && request.entries == v.logs[acked - v.base + 1..])
  {
    var v1 := AdvancePeer(v, q, args);
    var v' := UpdateCommit(v1);
    forall k | v'.commit < k < Len(v') ensures !Committable(v', k) { assert !Committable(v1, k); }
  }

  /** After an accepted probe log matching makes the follower's log the leader's, up to the leader's end. */
  lemma Accepted(run: seq<System>, run': seq<System>, i: nat, q: nat)
    requires IsRun(run) && i < |Final(run).servers| && q < |Final(run).servers|
    requires IsRun(run') && |Final(run').servers| == |Final(run).servers|
    requires Exchanged(Final(run).servers[i].raft, Final(run).servers[q].raft,
                       Final(run').servers[i].raft, Final(run').servers[q].raft, q)
    requires var v, u := Final(run).servers[i].raft, Final(run).servers[q].raft;
             v.role.Leader? && u.term <= v.term && ConflictAt(v, u, v.next[q]).None?
    ensures var v, v', u' := Final(run).servers[i].raft, Final(run').servers[i].raft, Final(run').servers[q].raft;
            && StillLeads(v, v') && NothingToCommit(v') && u'.term <= v.term
            && q < |v'.matched| && v'.matched[q] >= Len(v) - 1 && u'.commit >= v.commit
    ensures WholeLog(run', i, q, Len(Final(run).servers[i].raft))
  {
    hide Exchanged, NothingToCommit, Conflict, Held, LogicalLog;
    var v, v', u' := Final(run).servers[i].raft, Final(run').servers[i].raft, Final(run').servers[q].raft;
    var n, k := Len(v) - 1, |run'| - 1;
    AcceptedNodes(v, Final(run).servers[q].raft, v', u', q);
    HeldAt(LogicalLog(run', k, i), v', n);
    HeldAt(LogicalLog(run', k, q), u', n);
    LogMatchingHolds(run', k, k, i, q, n);
  }

  lemma AcceptedNodes(v: Node, u: Node, v': Node, u': Node, q: nat)
    requires Exchanged(v, u, v', u', q) && v.role.Leader? && u.term <= v.term && ConflictAt(v, u, v.next[q]).None?
    ensures StillLeads(v, v') && NothingToCommit(v') && u'.term <= v.term
    ensures q < |v'.matched| && v'.matched[q] >= Len(v) - 1 && u'.commit >= v.commit
    ensures v.base < Len(v) && u'.base <= Len(v) - 1 < Len(u') && At(u', Len(v) - 1).term == At(v, Len(v) - 1).term
  {
    hide NodeModel.AppendEntries, HandleAppendReply, Conflict, NothingToCommit, CanAppend, CanHandle;
    var args := AppendArgsFor(v, v.next[q] - 1);
    FollowerReaches(v, u, v.next[q]);
    LeaderCounts(v, q, args, NodeModel.AppendEntries(u, args).1);
  }

  /** A rejection changes the follower's term at most, and of the leader only the peer's next index. */
  lemma RejectedNodes(v: Node, u: Node, v': Node, u': Node, q: nat)
    requires Exchanged(v, u, v', u', q) && v.role.Leader? && u.term <= v.term && ConflictAt(v, u, v.next[q]).Some?
    ensures var (index, term) := ConflictAt(v, u, v.next[q]).value;
            && u'.base == u.base && u'.logs == u.logs && u'.term == v.term
            && v' == v.(next := v.next[q := NextAfter(v, v.next[q], index, term)])
  {
    hide NodeModel.AppendEntries, HandleAppendReply, NextAfter, Conflict, CanAppend, CanHandle;
    var args := AppendArgsFor(v, v.next[q] - 1);
    var (index, term) := ConflictAt(v, u, v.next[q]).value;
    RejectingFollower(u, args);
    RejectedLeader(v, q, args, AppendReply(u.term, false, index, term));
    NextAfterIsResolve(v, u, q, v.next[q], AppendReply(u.term, false, index, term));
  }

  lemma RejectingFollower(u: Node, args: AppendArgs)
    requires CanAppend(u, args) && u.term <= args.term && Conflict(u, args.prevIndex, args.prevTerm).Some?
    ensures var (index, term) := Conflict(u, args.prevIndex, args.prevTerm).value;
            var (u', reply) := NodeModel.AppendEntries(u, args);
            && reply == AppendReply(u.term, false, index, term)
            && u'.base == u.base && u'.logs == u.logs && u'.term == args.term
  {
    hide Merge, BelowRun;
    SameConflict(u, Follows(u, args.term, args.leader), args.prevIndex, args.prevTerm);
  }

  lemma RejectedLeader(v: Node, q: nat, args: AppendArgs, reply: AppendReply)
    requires Valid(v) && q < v.peers && v.role.Leader? && reply.term <= v.term == args.term && !reply.success
    requires CanHandle(v, args, reply) && v.base <= args.prevIndex
    ensures HandleAppendReply(v, q, args, reply) == v.(next := Resolve(v, q, args, reply).next)
  {
    hide FindLast;
  }

  lemma SnapshotAndReply(run: seq<System>, i: nat, q: nat) returns (run': seq<System>)
    requires IsRun(run) && i < |Final(run).servers| && q < |Final(run).servers| && q != i
    requires var v := Final(run).servers[i].raft;
             v.role.Leader? && Final(run).servers[q].raft.term <= v.term && q < |v.next| && q < |v.matched|
               && v.next[q] <= v.base
    ensures IsRun(run') && Continues(run, run', {i, q}) && NodesMoved(Final(run), Final(run'), {i, q})
    ensures |run'| == |run| + 3
    ensures var v, u := Final(run).servers[i].raft, Final(run).servers[q].raft;
            var v', u' := Final(run').servers[i].raft, Final(run').servers[q].raft;
            && StillLeads(v, v') && v'.next == v.next[q := v.base + 1] && v'.matched[q] >= v.base
            && u'.term == v.term && u'.base == if u.base < v.base then v.base else u.base
  {
    hide IsRun, Continues;
    Names(run, i);
    var v, u := Final(run).servers[i].raft, Final(run).servers[q].raft;
    var args := SnapshotArgsFor(v);
    NoReachablePanic(run, Replicate(i, q));
    Unmoved(run, {i, q});
    run' := Extend(run, run, Replicate(i, q), {i, q});
    var ask := DeliverMessage(SnapshotRequest(q, args));
    NoReachablePanic(run', ask);
    run' := Extend(run, run', ask, {i, q});
    var answer := DeliverMessage(SnapshotAnswer(q, args, SnapshotReply(u.term)));
    NoReachablePanic(run', answer);
    run' := Extend(run, run', answer, {i, q});
  }

  // ---------------------------------------------------------------- a majority

  /** One after the other every server of a set catches up. */
  lemma {:induction false} AllCatchUp(run: seq<System>, i: nat, alive: set<nat>) returns (run': seq<System>)
    requires IsRun(run) && i < |Final(run).servers| && Final(run).servers[i].raft.role.Leader?
    requires alive != {} && i !in alive && NotAhead(Final(run), i, alive)
    ensures IsRun(run') && Continues(run, run', alive + {i}) && NodesMoved(Final(run), Final(run'), alive + {i})
    ensures var v, v' := Final(run).servers[i].raft, Final(run').servers[i].raft;
            && StillLeads(v, v') && NothingToCommit(v')
            && forall q | q in alive :: q < |v'.matched| && v'.matched[q] >= Len(v) - 1
    ensures NotAhead(Final(run'), i, alive)
    decreases alive
  {
    hide IsRun, Final, NothingToCommit, WholeLog, Continues;
    var q :| q in alive;
    var rest := alive - {q};
    if rest == {} {
      assert alive + {i} == {i, q};
      var rounds: nat;
      run', rounds := CatchesUp(run, i, q);
    } else {
      var run1 := AllCatchUp(run, i, rest);
      var rounds: nat;
      run', rounds := CatchesUp(run1, i, q);
      Joined(run, run1, run', rest + {i}, {i, q}, alive + {i});
    }
  }

  ghost predicate NotAhead(s: System, i: nat, alive: set<nat>)
    requires i < |s.servers|
  {
    forall q | q in alive :: q < |s.servers| && s.servers[q].raft.term <= s.servers[i].raft.term
  }

  /** A leader whose last entry is of its own term can commit its whole log with any majority. */
  lemma MajorityCommits(run: seq<System>, i: nat, alive: set<nat>) returns (run': seq<System>)
    requires IsRun(run) && i < |Final(run).servers| && Final(run).servers[i].raft.role.Leader?
    requires alive != {} && i !in alive && NotAhead(Final(run), i, alive) && |alive| + 1 > |Final(run).servers| / 2
    requires OwnTail(Final(run).servers[i].raft)
    ensures IsRun(run') && Continues(run, run', alive + {i}) && NodesMoved(Final(run), Final(run'), alive + {i})
    ensures var v, v' := Final(run).servers[i].raft, Final(run').servers[i].raft;
            StillLeads(v, v') && v'.commit == Len(v) - 1
    ensures NotAhead(Final(run'), i, alive)
  {
    hide IsRun, Final, NothingToCommit, Valid, Continues;
    run' := AllCatchUp(run, i, alive);
    Names(run', i);
    WriteAhead(run', i);
    AllCounted(Final(run').servers[i].raft, alive);
  }

  ghost predicate OwnTail(v: Node) { 1 <= |v.logs| && Last(v).term == v.term }

  lemma AllCounted(v: Node, alive: set<nat>)
    requires Valid(v) && NothingToCommit(v) && OwnTail(v) && v.me !in alive && |alive| + 1 > v.peers / 2
    requires forall q | q in alive :: q < |v.matched| && v.matched[q] >= Len(v) - 1
    ensures v.commit == Len(v) - 1
  {
    SubsetSize(alive, Holders(v.matched, v.me, Len(v) - 1, |v.matched|));
    assert Committable(v, Len(v) - 1);
  }

  // ---------------------------------------------------------------- from commit to answer

  /** What the reader's state says about the node's log. */
  ghost predicate ReaderView(x: Server) {
    var v := x.raft;
    && x.position <= v.applied <= v.commit < Len(v)
    && (x.queue == [] ==> x.position == v.applied)
    && (x.queue != [] && x.queue[0].ApplySnapshot? ==> |x.queue| == 1 && x.position < x.queue[0].index == v.applied)
    && (x.queue != [] && x.queue[0].ApplyCommand? ==>
          && (forall j | 0 <= j < |x.queue| :: x.queue[j].ApplyCommand?)
          && x.queue[0].index == x.position + 1 <= v.applied && x.rsmApplied <= x.position
          && x.queue[0].cmd.Command? && (v.base < x.position + 1 ==> x.queue[0].cmd == At(v, x.position + 1).cmd))
    && (x.reader.Notifying? ==>
          && x.reader.index == x.position
          && (v.base < x.position ==>
                At(v, x.position).cmd.Command? && x.reader.id == At(v, x.position).cmd.op.id))
  }

  lemma ReaderSees(run: seq<System>, i: nat)
    requires IsRun(run) && i < |Final(run).servers|
    ensures ReaderView(Final(run).servers[i])
  {
    hide Core, ChosenOk, Rel, Held, Durable, SnapshotOf, CandidateOk, LeaderOk, PendingOk, Replay, LogOk, Answer;
    WorldFacts(run, |run| - 1);
    var w, s := Worlds(run)[|run| - 1], Final(run);
    RelFacts(w, s, i);
    var x, log := s.servers[i], w.peers[i].log;
    HeldAt(log, x.raft, x.position);
    HeldAt(log, x.raft, x.position + 1);
    if x.queue != [] && x.queue[0].ApplyCommand? { KnownCommand(w, s, i, x.position + 1); }
  }

  lemma KnownCommand(w: World, s: System, i: nat, k: nat)
    requires Inv(w) && Rel(w, s) && i < |w.peers| && 1 <= k <= w.peers[i].commit
    ensures k < |w.peers[i].log| && w.peers[i].log[k].cmd.Command?
  {
    hide Core, ChosenOk, Rel;
    ChosenHas(w, i, k);
    ChosenOp(w, s, k);
  }

  /** On a server that leads in the term of the request, the client `id` waits at a committed index that
      holds its operation and that the reader has not handled. */
  ghost predicate Waits(x: Server, index: nat, id: int, term: nat) {
    && x.raft.role.Leader? && x.raft.term == term
    && x.raft.base < index <= x.raft.commit < Len(x.raft)
    && At(x.raft, index).cmd.Command? && At(x.raft, index).cmd.op.id == id
    && index in x.pending && x.pending[index] == Pending(id, term)
    && (x.position < index || (x.position == index && x.reader.Notifying?))
    && (x.queue != [] && x.queue[0].ApplySnapshot? ==> x.queue[0].index < index)
  }

  ghost predicate Answered(s: System, id: int, index: nat) {
    exists val :: Sent(id, index, Done(val)) in s.answers
  }

  /** The reader has got to the index, and the node is the leader it was and knows what it knew. */
  ghost predicate Arrived(x: Server, v: Node, index: nat) {
    x.position == index && x.raft.role == v.role && x.raft.term == v.term && x.raft.commit == v.commit
  }

  ghost predicate OnlyMoved(s: System, s': System, movers: set<nat>) {
    |s'.servers| == |s.servers| && forall j | 0 <= j < |s.servers| && j !in movers :: s'.servers[j] == s.servers[j]
  }

  /** An OK is sent exactly when the reader notifies while its node leads and the waiter at the index it has
      applied is the one of the applied operation. A waiter whose server has stepped down gets none. */
  lemma OnlyLeadersAnswer(s: System, e: Event)
    requires Enabled(s, e) && Honest(s, e)
    ensures (exists a :: a in SentBy(s, e) && a.outcome.Done?) <==>
            && e.Notify?
            && var x := s.servers[e.i];
            x.raft.role.Leader? && x.reader.index in x.pending && x.pending[x.reader.index].id == x.reader.id
  {
    if e.Notify? {
      var x := s.servers[e.i];
      var r := x.reader;
      if x.raft.role.Leader? && r.index in x.pending && x.pending[r.index].id == r.id {
        assert Sent(r.id, r.index, Done(r.val)) in SentBy(s, e);
      }
    }
  }

  /** The reader gets there and sends the answer; it may then replace the log up to there by a snapshot. */
  lemma {:induction false} GetsAnswered(run: seq<System>, i: nat, index: nat, id: int, term: nat, compact: bool)
    returns (run': seq<System>)
    requires IsRun(run) && i < |Final(run).servers| && Waits(Final(run).servers[i], index, id, term)
    ensures IsRun(run') && Continues(run, run', {i}) && OnlyMoved(Final(run), Final(run'), {i})
    ensures Answered(Final(run'), id, index) && Arrived(Final(run').servers[i], Final(run).servers[i].raft, index)
    ensures compact ==> Final(run').servers[i].raft.base == index
    decreases index - Final(run).servers[i].position, Final(run).servers[i].reader.Notifying?,
              Final(run).servers[i].queue == []
  {
    hide IsRun, Waits, Continues;
    ReaderSees(run, i);
    var s, x := Final(run), Final(run).servers[i];
    var e := ReaderEvent(s, i, index, term, compact);
    StillWaits(s, i, index, id, term, compact);
    NoReachablePanic(run, e);
    Unmoved(run, {i});
    var run1 := Extend(run, run, e, {i});
    run' := run1;
    if !(x.reader.Notifying? && x.position == index) {
      run' := GetsAnswered(run1, i, index, id, term, compact);
      Joined(run, run1, run', {i}, {i}, {i});
    }
  }

  /** What the reader of server i, or the applier that feeds it, does next. */
  ghost function ReaderEvent(s: System, i: nat, index: nat, term: nat, compact: bool): Event
    requires i < |s.servers|
  {
    var x := s.servers[i];
    if x.reader.Notifying? then Notify(i, true, true, term, compact && x.position == index)
    else if x.queue == [] then Apply(i)
    else if x.queue[0].ApplySnapshot? then TakeSnapshotMsg(i, true, term)
    else TakeCommand(i)
  }

  /** The step answers the client, or brings the reader closer to its index. */
  ghost predicate Closer(s: System, s': System, i: nat, index: nat, id: int, term: nat, compact: bool)
    requires i < |s.servers|
  {
    && OnlyMoved(s, s', {i})
    && var x, x' := s.servers[i], s'.servers[i];
    if x.reader.Notifying? && x.position == index then
      Answered(s', id, index) && Arrived(x', x.raft, index) && (compact ==> x'.raft.base == index)
    else
      && Waits(x', index, id, term) && x.position <= x'.position
      && x'.raft.role == x.raft.role && x'.raft.term == x.raft.term && x'.raft.commit == x.raft.commit
      && (x.position == x'.position ==>
            !x'.reader.Notifying? && (x.reader.Notifying? || (x.queue == [] && x'.queue != [])))
  }

  lemma StillWaits(s: System, i: nat, index: nat, id: int, term: nat, compact: bool)
    requires i < |s.servers| && Waits(s.servers[i], index, id, term) && ReaderView(s.servers[i])
    ensures s.servers[i].position <= index
    ensures var e := ReaderEvent(s, i, index, term, compact);
            && Enabled(s, e) && Honest(s, e) && Place(e) == i && Works(e)
            && (Safe(s, e) ==> Closer(s, After(s, e), i, index, id, term, compact))
  {
    hide Closer, After, Safe;
    var x, e := s.servers[i], ReaderEvent(s, i, index, term, compact);
    if Safe(s, e) {
      if x.reader.Notifying? {
        NotifyIsCloser(s, i, index, id, term, compact);
      } else if x.queue == [] {
        ApplyIsCloser(s, i, index, id, term, compact);
      } else {
        TakingIsCloser(s, i, index, id, term, compact);
      }
    }
  }

  lemma NotifyIsCloser(s: System, i: nat, index: nat, id: int, term: nat, compact: bool)
    requires i < |s.servers| && Waits(s.servers[i], index, id, term) && ReaderView(s.servers[i])
    requires s.servers[i].reader.Notifying? && Safe(s, ReaderEvent(s, i, index, term, compact))
    ensures Closer(s, After(s, ReaderEvent(s, i, index, term, compact)), i, index, id, term, compact)
  {
    var x, s' := s.servers[i], After(s, ReaderEvent(s, i, index, term, compact));
    if x.position == index { assert Sent(id, index, Done(x.reader.val)) in s'.answers; }
  }

  lemma ApplyIsCloser(s: System, i: nat, index: nat, id: int, term: nat, compact: bool)
    requires i < |s.servers| && Waits(s.servers[i], index, id, term) && ReaderView(s.servers[i])
    requires s.servers[i].reader.Idle? && s.servers[i].queue == [] && Safe(s, ReaderEvent(s, i, index, term, compact))
    ensures Closer(s, After(s, ReaderEvent(s, i, index, term, compact)), i, index, id, term, compact)
  {
    var x, x' := s.servers[i], After(s, ReaderEvent(s, i, index, term, compact)).servers[i];
    assert x'.queue != [] && (x'.queue[0].ApplySnapshot? ==> x'.queue[0].index == x.raft.base);
  }

  lemma TakingIsCloser(s: System, i: nat, index: nat, id: int, term: nat, compact: bool)
    requires i < |s.servers| && Waits(s.servers[i], index, id, term) && ReaderView(s.servers[i])
    requires s.servers[i].reader.Idle? && s.servers[i].queue != [] && Safe(s, ReaderEvent(s, i, index, term, compact))
    ensures Closer(s, After(s, ReaderEvent(s, i, index, term, compact)), i, index, id, term, compact)
  {
    var x, x' := s.servers[i], After(s, ReaderEvent(s, i, index, term, compact)).servers[i];
    assert |x.queue| > 1 ==> x'.queue[0] == x.queue[1];
  }

  // ---------------------------------------------------------------- from commit to every store

  /** What the reader of server q, or the applier that feeds it, does next, whoever leads. */
  ghost function ReadingEvent(s: System, q: nat): Event
    requires q < |s.servers|
  {
    var x := s.servers[q];
    var leads := x.raft.role.Leader?;
    if x.reader.Notifying? then Notify(q, leads, leads, x.raft.term, false)
    else if x.queue == [] then Apply(q)
    else if x.queue[0].ApplySnapshot? then TakeSnapshotMsg(q, leads, x.raft.term)
    else TakeCommand(q)
  }

  lemma ReadsOn(s: System, q: nat, n: nat)
    requires q < |s.servers| && ReaderView(s.servers[q]) && s.servers[q].position < n <= s.servers[q].raft.commit
    ensures var e := ReadingEvent(s, q);
            && Enabled(s, e) && Honest(s, e) && Place(e) == q && Works(e)
            && (Safe(s, e) ==>
                  && OnlyMoved(s, After(s, e), {q})
                  && var x, x' := s.servers[q], After(s, e).servers[q];
                  && x'.raft == x.raft.(applied := x'.raft.applied) && x.position <= x'.position
                  && (x.position == x'.position ==>
                        !x'.reader.Notifying? && (x.reader.Notifying? || (x.queue == [] && x'.queue != []))))
  {
  }

  /** A server's store gets to every index its node knows to be committed. */
  lemma {:induction false} Reads(run: seq<System>, q: nat, n: nat) returns (run': seq<System>)
    requires IsRun(run) && q < |Final(run).servers| && n <= Final(run).servers[q].raft.commit
    ensures IsRun(run') && Continues(run, run', {q}) && OnlyMoved(Final(run), Final(run'), {q})
    ensures var x, x' := Final(run).servers[q], Final(run').servers[q];
            x'.position >= n && x'.raft == x.raft.(applied := x'.raft.applied)
    decreases if Final(run).servers[q].position < n then n - Final(run).servers[q].position else 0,
              Final(run).servers[q].reader.Notifying?, Final(run).servers[q].queue == []
  {
    hide IsRun, Continues, ReaderView;
    Unmoved(run, {q});
    run' := run;
    var s, x := Final(run), Final(run).servers[q];
    if x.position < n {
      ReaderSees(run, q);
      ReadsOn(s, q, n);
      NoReachablePanic(run, ReadingEvent(s, q));
      var run1 := Extend(run, run, ReadingEvent(s, q), {q});
      run' := Reads(run1, q, n);
      Joined(run, run1, run', {q}, {q}, {q});
    }
  }

  /** A follower not ahead of the leader's term can learn what the leader has committed and apply it. */
  lemma FollowerApplies(run: seq<System>, i: nat, q: nat, n: nat) returns (run': seq<System>)
    requires IsRun(run) && i < |Final(run).servers| && q < |Final(run).servers| && q != i
    requires Final(run).servers[i].raft.role.Leader? && n <= Final(run).servers[i].raft.commit
    requires Final(run).servers[q].raft.term <= Final(run).servers[i].raft.term
    ensures IsRun(run') && Continues(run, run', {i, q}) && OnlyMoved(Final(run), Final(run'), {i, q})
    ensures var x, x' := Final(run).servers[i], Final(run').servers[i];
            x' == x.(raft := x'.raft, awaiting := x'.awaiting) && StillLeads(x.raft, x'.raft)
    ensures Final(run').servers[q].position >= n
    ensures Final(run').servers[q].raft.term <= Final(run').servers[i].raft.term
  {
    hide IsRun, Final, Continues, WholeLog, NothingToCommit, Budget, HeldTerms, Conflict;
    var run1, rounds := CatchesUp(run, i, q);
    run' := Reads(run1, q, n);
    Joined(run, run1, run', {i, q}, {q}, {i, q});
  }

  /** So can every server of a set, one after the other. */
  lemma {:induction false} EveryoneApplies(run: seq<System>, i: nat, others: set<nat>, n: nat)
    returns (run': seq<System>)
    requires IsRun(run) && i < |Final(run).servers| && Final(run).servers[i].raft.role.Leader?
    requires i !in others && NotAhead(Final(run), i, others) && n <= Final(run).servers[i].raft.commit
    ensures IsRun(run') && Continues(run, run', others + {i}) && OnlyMoved(Final(run), Final(run'), others + {i})
    ensures var x, x' := Final(run).servers[i], Final(run').servers[i];
            x' == x.(raft := x'.raft, awaiting := x'.awaiting) && StillLeads(x.raft, x'.raft)
    ensures forall q | q in others :: q < |Final(run').servers| && Final(run').servers[q].position >= n
    decreases others
  {
    hide IsRun, Final, Continues;
    if others == {} {
      Unmoved(run, others + {i});
      run' := run;
    } else {
      var q :| q in others;
      var rest := others - {q};
      var run1 := FollowerApplies(run, i, q, n);
      run' := EveryoneApplies(run1, i, rest, n);
      Joined(run, run1, run', {i, q}, rest + {i}, others + {i});
      assert others == rest + {q};
    }
  }

  // ---------------------------------------------------------------- a request from beginning to end

  /** A leader with a majority that is not ahead of it can take any new request through to its answer. */
  lemma LeaderAnswers(run: seq<System>, i: nat, alive: set<nat>, id: int, req: Request, compact: bool)
    returns (run': seq<System>, index: nat)
    requires IsRun(run) && i < |Final(run).servers| && Final(run).servers[i].raft.role.Leader?
    requires alive != {} && i !in alive && NotAhead(Final(run), i, alive) && |alive| + 1 > |Final(run).servers| / 2
    requires id != -1 && id !in Final(run).submitted
    ensures IsRun(run') && Continues(run, run', alive + {i}) && OnlyMoved(Final(run), Final(run'), alive + {i})
    ensures Answered(Final(run'), id, index) && NotAhead(Final(run'), i, alive)
    ensures var x := Final(run').servers[i]; x.raft.role.Leader? && x.position == index <= x.raft.commit
    ensures compact ==> Final(run').servers[i].raft.base == index
  {
    hide IsRun, Answered, Continues;
    ReaderSees(run, i);
    WriteAhead(run, i);
    var x := Final(run).servers[i];
    index := Len(x.raft);
    NoReachablePanic(run, Submit(i, id, req));
    Unmoved(run, {i});
    var run1 := Extend(run, run, Submit(i, id, req), {i});
    var v1 := Final(run1).servers[i].raft;
    assert v1.role.Leader? && v1.term == x.raft.term && v1.base == x.raft.base
           && v1.logs == x.raft.logs + [Entry(index, x.raft.term, Command(Op(i, id, req)))];
    var run2 := MajorityCommits(run1, i, alive);
    assert Waits(Final(run2).servers[i], index, id, x.raft.term);
    run' := GetsAnswered(run2, i, index, id, x.raft.term, compact);
    Joined(run, run1, run2, {i}, alive + {i}, alive + {i});
    Joined(run, run2, run', alive + {i}, {i}, alive + {i});
  }

  // ---------------------------------------------------------------- elections

  /** Server i campaigns, none of `voters` is ahead of its term or has voted for another in it, its log is at
      least as good as theirs, and its requests to them are out. */
  ghost predicate Standing(s: System, i: nat, voters: set<nat>) {
    && i < |s.servers| && i !in voters && s.servers[i].raft.role.Candidate? && 1 <= |s.servers[i].raft.logs|
    && var args := CampaignArgs(s.servers[i].raft);
    args.cand == i && forall q | q in voters ::
      && q < |s.servers| && q in s.servers[i].awaiting && VoteRequest(q, args) in s.net
      && var u := s.servers[q].raft;
      && (u.term < args.term || (u.term == args.term && (u.votedFor == -1 || u.votedFor == i)))
      && 1 <= |u.logs| && LogUpToDate(u, args.lastTerm, args.lastIndex)
  }

  /** Enough voters make it leader. */
  lemma {:induction false} CollectsVotes(run: seq<System>, i: nat, voters: set<nat>) returns (run': seq<System>)
    requires IsRun(run) && Standing(Final(run), i, voters)
    requires var granted := Final(run).servers[i].raft.granted;
             granted <= |Final(run).servers| / 2 < granted + |voters|
    ensures IsRun(run') && Continues(run, run', voters + {i}) && NodesMoved(Final(run), Final(run'), voters + {i})
    ensures Final(run').servers[i].raft.role.Leader?
    ensures Final(run').servers[i].raft.term == Final(run).servers[i].raft.term
    ensures NotAhead(Final(run'), i, voters)
    decreases voters
  {
    hide IsRun, Final, Standing, Continues, NodesMoved;
    Eligible(Final(run), i, voters);
    var q :| q in voters;
    var run1 := OneVote(run, i, voters, q);
    SameServers(Final(run), Final(run1), {i, q});
    if Final(run1).servers[i].raft.role.Leader? {
      run' := run1;
      Unmoved(run1, {});
      Joined(run, run1, run1, {i, q}, {}, voters + {i});
      MovedMore(Final(run), Final(run1), Final(run1), {i, q}, {}, voters + {i});
      forall x | x in voters ensures Final(run1).servers[x].raft.term <= Final(run1).servers[i].raft.term {
        if x != q { Stayed(Final(run), Final(run1), {i, q}, x); }
      }
    } else {
      var rest := voters - {q};
      run' := CollectsVotes(run1, i, rest);
      Joined(run, run1, run', {i, q}, rest + {i}, voters + {i});
      MovedMore(Final(run), Final(run1), Final(run'), {i, q}, rest + {i}, voters + {i});
      Stayed(Final(run1), Final(run'), rest + {i}, q);
    }
  }

  lemma SameServers(s: System, s': System, movers: set<nat>)
    requires NodesMoved(s, s', movers)
    ensures |s'.servers| == |s.servers| && NodesMoved(s', s', {})
  {
  }

  lemma Stayed(s: System, s': System, movers: set<nat>, j: nat)
    requires NodesMoved(s, s', movers) && j < |s.servers| && j !in movers
    ensures |s'.servers| == |s.servers| && s'.servers[j] == s.servers[j]
  {
  }

  lemma MovedMore(s: System, s1: System, s2: System, m1: set<nat>, m2: set<nat>, movers: set<nat>)
    requires NodesMoved(s, s1, m1) && NodesMoved(s1, s2, m2) && m1 <= movers && m2 <= movers
    ensures NodesMoved(s, s2, movers)
  {
  }

  lemma Eligible(s: System, i: nat, voters: set<nat>)
    requires Standing(s, i, voters)
    ensures i < |s.servers| && i !in voters
    ensures forall q | q in voters :: q < |s.servers| && s.servers[q].raft.term <= s.servers[i].raft.term
  {
  }

  lemma OneVote(run: seq<System>, i: nat, voters: set<nat>, q: nat) returns (run': seq<System>)
    requires IsRun(run) && Standing(Final(run), i, voters) && q in voters
    requires Final(run).servers[i].raft.granted <= |Final(run).servers| / 2
    ensures IsRun(run') && Continues(run, run', {i, q}) && NodesMoved(Final(run), Final(run'), {i, q})
    ensures var v, v' := Final(run).servers[i].raft, Final(run').servers[i].raft;
            && v'.term == v.term == Final(run').servers[q].raft.term
            && (v'.role.Leader?
                || (Standing(Final(run'), i, voters - {q}) && v'.granted == v.granted + 1 <= |Final(run).servers| / 2))
  {
    hide IsRun, Continues;
    Names(run, i);
    var v, u := Final(run).servers[i].raft, Final(run).servers[q].raft;
    var args := CampaignArgs(v);
    var ask := DeliverMessage(VoteRequest(q, args));
    var answer := DeliverMessage(VoteAnswer(q, args, VoteReply(u.term, true)));
    NoReachablePanic(run, ask);
    Unmoved(run, {i, q});
    run' := Extend(run, run, ask, {i, q});
    NoReachablePanic(run', answer);
    run' := Extend(run, run', answer, {i, q});
  }

  /** Among any servers one has a log at least as good as all the others'. */
  lemma {:induction false} BestLog(s: System, alive: set<nat>) returns (i: nat)
    requires alive != {} && forall q | q in alive :: q < |s.servers| && 1 <= |s.servers[q].raft.logs|
    ensures i in alive && AsGood(s, i, alive)
    decreases alive
  {
    var k :| k in alive;
    var rest := alive - {k};
    i := k;
    if rest != {} {
      var j := BestLog(s, rest);
      if LogUpToDate(s.servers[k].raft, Last(s.servers[j].raft).term, Last(s.servers[j].raft).index) { i := j; }
    }
    forall q | q in alive
      ensures LogUpToDate(s.servers[q].raft, Last(s.servers[i].raft).term, Last(s.servers[i].raft).index)
    {
      assert q in rest || q == k;
    }
  }

  lemma {:induction false} HighestTerm(s: System, alive: set<nat>) returns (m: nat)
    requires alive != {} && forall q | q in alive :: q < |s.servers|
    ensures m in alive && NotAhead(s, m, alive)
    decreases alive
  {
    var k :| k in alive;
    var rest := alive - {k};
    m := k;
    if rest != {} {
      var j := HighestTerm(s, rest);
      if s.servers[k].raft.term <= s.servers[j].raft.term { m := j; }
    }
    forall q | q in alive ensures q < |s.servers| && s.servers[q].raft.term <= s.servers[m].raft.term {
      assert q in rest || q == k;
    }
  }

  /** The server with the highest term campaigns, which makes the one with the best log step down if it leads. */
  lemma StepsDown(run: seq<System>, alive: set<nat>, m: nat, i: nat) returns (run': seq<System>)
    requires IsRun(run) && m in alive && i in alive && i != m
    requires AsGood(Final(run), i, alive) && NotAhead(Final(run), m, alive) && !Final(run).servers[m].raft.role.Leader?
    ensures IsRun(run') && Continues(run, run', {m, i}) && NodesMoved(Final(run), Final(run'), {m, i})
    ensures NotAhead(Final(run'), i, alive) && AsGood(Final(run'), i, alive)
    ensures !Final(run').servers[i].raft.role.Leader?
  {
    hide IsRun, Continues, Final, AsGood;
    AsGoodBounds(Final(run), i, alive);
    NoReachablePanic(run, Timeout(m));
    Unmoved(run, {m, i});
    CampaignHeard(Final(run), m, i);
    run' := Extend(run, run, Timeout(m), {m, i});
    var ask := DeliverMessage(VoteRequest(i, CampaignArgs(Final(run').servers[m].raft)));
    NoReachablePanic(run', ask);
    run' := Extend(run, run', ask, {m, i});
    HeardByAll(Final(run), Final(run'), alive, m, i);
  }

  lemma AsGoodBounds(s: System, i: nat, alive: set<nat>)
    requires AsGood(s, i, alive)
    ensures i < |s.servers| && forall q | q in alive :: q < |s.servers|
  {
  }

  /** A campaign of m that i hears of takes i to its term, as a follower. */
  lemma CampaignHeard(s: System, m: nat, i: nat)
    requires m < |s.servers| && i < |s.servers| && i != m && Enabled(s, Timeout(m)) && Safe(s, Timeout(m))
    requires s.servers[i].raft.term <= s.servers[m].raft.term
    ensures var s1 := After(s, Timeout(m));
            && |s1.servers| == |s.servers| && 1 <= |s1.servers[m].raft.logs|
            && var ask := DeliverMessage(VoteRequest(i, CampaignArgs(s1.servers[m].raft)));
            && Enabled(s1, ask)
            && (Safe(s1, ask) ==> Heard(s, After(s1, ask), m, i))
  {
    assert i in Others(|s.servers|, m);
  }

  ghost predicate Heard(s: System, s': System, m: nat, i: nat) {
    && m < |s.servers| && i < |s.servers| && NodesMoved(s, s', {m, i})
    && s'.servers[m].raft.term == s'.servers[i].raft.term == s.servers[m].raft.term + 1
       && !s'.servers[i].raft.role.Leader?
    && s'.servers[m].raft.logs == s.servers[m].raft.logs && s'.servers[i].raft.logs == s.servers[i].raft.logs
  }

  lemma HeardByAll(s: System, s': System, alive: set<nat>, m: nat, i: nat)
    requires Heard(s, s', m, i) && m in alive && i in alive && NotAhead(s, m, alive) && AsGood(s, i, alive)
    ensures NotAhead(s', i, alive) && AsGood(s', i, alive)
  {
  }

  ghost predicate AsGood(s: System, i: nat, alive: set<nat>) {
    && i < |s.servers| && 1 <= |s.servers[i].raft.logs|
    && var best := Last(s.servers[i].raft);
    forall q | q in alive :: q < |s.servers| && 1 <= |s.servers[q].raft.logs|
      && LogUpToDate(s.servers[q].raft, best.term, best.index)
  }

  lemma Stands(run: seq<System>, alive: set<nat>, i: nat) returns (run': seq<System>)
    requires IsRun(run) && i < |Final(run).servers| && NotAhead(Final(run), i, alive) && AsGood(Final(run), i, alive)
    requires !Final(run).servers[i].raft.role.Leader?
    ensures IsRun(run') && Continues(run, run', {i}) && NodesMoved(Final(run), Final(run'), {i})
    ensures Standing(Final(run'), i, alive - {i}) && Final(run').servers[i].raft.granted == 1
  {
    hide IsRun, Continues;
    Names(run, i);
    NoReachablePanic(run, Timeout(i));
    Unmoved(run, {i});
    run' := Extend(run, run, Timeout(i), {i});
    assert forall q | q in alive && q != i :: q in Others(|Final(run).servers|, i);
  }

  /** Any majority of at least two servers can have a leader that none of them is ahead of. */
  lemma ElectsLeader(run: seq<System>, alive: set<nat>) returns (run': seq<System>, i: nat)
    requires IsRun(run) && (forall q | q in alive :: q < |Final(run).servers|) && |alive| > |Final(run).servers| / 2
    requires 2 <= |Final(run).servers|
    ensures IsRun(run') && Continues(run, run', alive) && NodesMoved(Final(run), Final(run'), alive)
    ensures i in alive && Final(run').servers[i].raft.role.Leader? && NotAhead(Final(run'), i, alive)
  {
    hide IsRun, Final, Standing, Valid, AsGood, Continues;
    forall q | q in alive ensures 1 <= |Final(run).servers[q].raft.logs| {
      WriteAhead(run, q);
      ValidLog(Final(run).servers[q].raft);
    }
    var m := HighestTerm(Final(run), alive);
    Unmoved(run, alive);
    run' := run;
    i := m;
    if !Final(run).servers[m].raft.role.Leader? {
      i := BestLog(Final(run), alive);
      var run1 := run;
      if i != m {
        run1 := StepsDown(run, alive, m, i);
        Unmoved(run1, {});
        Joined(run, run1, run1, {m, i}, {}, alive);
      }
      run' := WinsElection(run1, alive, i);
      Joined(run, run1, run', alive, alive, alive);
    }
  }

  lemma WinsElection(run: seq<System>, alive: set<nat>, i: nat) returns (run': seq<System>)
    requires IsRun(run) && i in alive && AsGood(Final(run), i, alive) && NotAhead(Final(run), i, alive)
    requires |alive| > |Final(run).servers| / 2 && 2 <= |Final(run).servers| && !Final(run).servers[i].raft.role.Leader?
    ensures IsRun(run') && Continues(run, run', alive) && NodesMoved(Final(run), Final(run'), alive)
    ensures Final(run').servers[i].raft.role.Leader? && NotAhead(Final(run'), i, alive)
  {
    hide IsRun, Final, Standing, Continues;
    var run1 := Stands(run, alive, i);
    var rest := alive - {i};
    assert alive == rest + {i};
    run' := CollectsVotes(run1, i, rest);
    Joined(run, run1, run', {i}, rest + {i}, alive);
  }

  lemma ValidLog(v: Node)
    requires Valid(v)
    ensures 1 <= |v.logs|
  {
  }

  // ---------------------------------------------------------------- availability

  /** From every reachable state, any majority of at least two servers can, by their own steps alone, take any
      new request through to an OK answer, compact the log up to it, and have it applied by all of them. */
  lemma AlwaysAvailable(run: seq<System>, alive: set<nat>, id: int, req: Request, compact: bool)
    returns (run': seq<System>, i: nat, index: nat)
    requires IsRun(run) && (forall q | q in alive :: q < |Final(run).servers|) && |alive| > |Final(run).servers| / 2
    requires 2 <= |Final(run).servers|
    requires id != -1 && id !in Final(run).submitted
    ensures IsRun(run') && Continues(run, run', alive) && OnlyMoved(Final(run), Final(run'), alive)
    ensures Answered(Final(run'), id, index)
    ensures forall q | q in alive :: q < |Final(run').servers| && Final(run').servers[q].position >= index
    ensures i in alive && (compact ==> Final(run').servers[i].raft.base == index)
  {
    hide IsRun, Final, Answered, Continues;
    var run1: seq<System>;
    run1, i := ElectsLeader(run, alive);
    var rest := alive - {i};
    assert alive == rest + {i};
    var run2: seq<System>;
    run2, index := LeaderAnswers(run1, i, rest, id, req, compact);
    run' := EveryoneApplies(run2, i, rest, index);
    Joined(run, run1, run2, alive, rest + {i}, alive);
    Joined(run, run2, run', alive, rest + {i}, alive);
    StillAnswered(run2, run', alive, id, index);
  }

  /** What was answered stays answered. */
  lemma {:induction false} StillAnswered(run: seq<System>, run': seq<System>, movers: set<nat>, id: int, index: nat)
    requires IsRun(run) && IsRun(run') && Continues(run, run', movers) && Answered(Final(run), id, index)
    ensures Answered(Final(run'), id, index)
    decreases |run'|
  {
    hide Enabled, Safe, After, Honest;
    if |run'| > |run| {
      var n := |run'| - 1;
      var front := run'[..n];
      assert forall k | 0 <= k < n - 1 :: Next(front[k], front[k + 1]);
      assert forall k | |run| <= k < n :: TakenBy(front[k - 1], front[k], movers);
      StillAnswered(run, front, movers, id, index);
      assert Next(run'[n - 1], run'[n]);
      var e :| Enabled(run'[n - 1], e) && Safe(run'[n - 1], e) && run'[n] == After(run'[n - 1], e);
      SentByStep(run'[n - 1], e);
      var val :| Sent(id, index, Done(val)) in Final(front).answers;
      assert Sent(id, index, Done(val)) in Final(run').answers;
    } else {
      assert run' == run;
    }
  }

  /** A cluster of one is different: only a vote reply makes a leader, and nobody replies. */
  lemma {:induction false} LoneServerNeverLeads(run: seq<System>)
    requires IsRun(run) && |run[0].servers| == 1
    ensures Alone(Final(run))
    decreases |run|
  {
    hide Enabled, Safe, After;
    var n := |run| - 1;
    if n > 0 {
      assert forall k | 0 <= k < n - 1 :: Next(run[..n][k], run[..n][k + 1]);
      LoneServerNeverLeads(run[..n]);
      assert Next(run[n - 1], run[n]);
      var e :| Enabled(run[n - 1], e) && Safe(run[n - 1], e) && run[n] == After(run[n - 1], e);
      StaysAlone(run[n - 1], e);
    }
  }

  ghost predicate Alone(s: System) {
    && |s.servers| == 1 && s.servers[0].raft.me == 0 && !s.servers[0].raft.role.Leader? && s.servers[0].pending == map[]
    && s.net == {} && s.submitted == map[] && s.answers == {}
  }

  lemma StaysAlone(s: System, e: Event)
    requires Alone(s) && Enabled(s, e) && Safe(s, e)
    ensures Alone(After(s, e))
  {
    if e.Timeout? {
      assert Others(1, 0) == {};
    }
  }
}
