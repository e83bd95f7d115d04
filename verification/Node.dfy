/**
 One Raft node as a value, and every handler that runs under its lock as a function of it
 (internal/raft/raft.go, ticker.go, log_replication.go, storage.go).

 `logs` is the log that is still held: `logs[0]` stands for the entry at `base` (lastIncludedIndex), of
 which only index and term matter. The node carries its disk, so that "what is saved" can be compared
 with "what is in memory" after every handler.
 */
module NodeModel {
  import opened Types

  /** The five fields that are encoded and saved. */
  datatype Hard = Hard(term: nat, votedFor: int, logs: seq<Entry>, base: nat, baseTerm: nat)
  datatype Disk = Disk(state: Option<Hard>, snapshot: Snapshot)

  datatype Node = Node(
    me: nat, peers: nat,
    role: Role, term: nat, votedFor: int, leader: int,
    logs: seq<Entry>, commit: nat, applied: nat,
    next: seq<nat>, matched: seq<nat>,
    base: nat, baseTerm: nat,
    granted: nat,
    disk: Disk)

  // ---------------------------------------------------------------- indices

  function Len(v: Node): nat { v.base + |v.logs| }

  function At(v: Node, i: nat): Entry
    requires v.base <= i < Len(v)
  {
    v.logs[i - v.base]
  }

  function Last(v: Node): Entry
    requires 1 <= |v.logs|
  {
    v.logs[|v.logs| - 1]
  }

  predicate HasEntry(v: Node, index: nat, term: nat) {
    v.base <= index < Len(v) && At(v, index).term == term
  }

  /** Entries lie at consecutive indices from `start`. */
  predicate Consecutive(entries: seq<Entry>, start: nat) {
    forall i | 0 <= i < |entries| :: entries[i].index == start + i
  }

  predicate Shape(v: Node) {
    && 1 <= |v.logs| && Consecutive(v.logs, v.base) && v.logs[0].term == v.baseTerm
    && v.me < v.peers && |v.next| == v.peers && |v.matched| == v.peers
  }

  predicate Bounded(v: Node) {
    v.base <= v.commit < Len(v) && v.applied <= v.commit
  }

  predicate Valid(v: Node) { Shape(v) && Bounded(v) }

  // ---------------------------------------------------------------- saving and recovering

  function HardOf(v: Node): Hard { Hard(v.term, v.votedFor, v.logs, v.base, v.baseTerm) }

  function Save(v: Node, data: Snapshot): Node { v.(disk := Disk(Some(HardOf(v)), data)) }

  function Persist(v: Node): Node { Save(v, v.disk.snapshot) }

  const Blank: Hard := Hard(0, -1, [Sentinel], 0, 0)

  function Saved(disk: Disk): Hard {
    match disk.state
    case None => Blank
    case Some(h) => h
  }

  /** Memory and disk agree on everything a crash must not lose. */
  predicate Durable(v: Node) { Saved(v.disk) == HardOf(v) }

  /** Make, followed by readPersist. */
  function Restart(me: nat, peers: nat, disk: Disk): Node {
    var h := Saved(disk);
    Node(me, peers, Follower, h.term, h.votedFor, -1, h.logs, h.base, h.base,
         seq(peers, _ => 0), seq(peers, _ => 0), h.base, h.baseTerm, 0, disk)
  }

  // ---------------------------------------------------------------- terms and elections

  function HigherTerm(v: Node, term: nat): (Node, bool) {
    if term > v.term then (Persist(v.(term := term, votedFor := -1, role := Follower)), true) else (v, false)
  }

  predicate LogUpToDate(v: Node, candTerm: nat, candIndex: nat)
    requires 1 <= |v.logs|
  {
    if candTerm != Last(v).term then candTerm > Last(v).term else candIndex >= Last(v).index
  }

  function RequestVote(v: Node, args: VoteArgs): (Node, VoteReply)
    requires 1 <= |v.logs|
  {
    if args.term < v.term then (v, VoteReply(v.term, false))
    else
      var v1 := if args.term > v.term then v.(role := Follower, term := args.term, votedFor := -1) else v;
      if (v1.votedFor == -1 || v1.votedFor == args.cand) && LogUpToDate(v1, args.lastTerm, args.lastIndex)
      then (Persist(v1.(votedFor := args.cand)), VoteReply(v.term, true))
      else (Persist(v1), VoteReply(v.term, false))
  }

  /** The first save of becomeCandidate: the new term with the vote of the old one. */
  function FirstSaveOfCampaign(v: Node): Node {
    Persist(v.(role := Candidate, term := v.term + 1))
  }

  function BecomeCandidate(v: Node): Node {
    Persist(FirstSaveOfCampaign(v).(votedFor := v.me, leader := -1, granted := 1))
  }

  function CampaignArgs(v: Node): VoteArgs
    requires 1 <= |v.logs|
  {
    VoteArgs(v.term, v.me, Last(v).term, Last(v).index)
  }

  function BecomeLeader(v: Node): Node
    requires Shape(v)
  {
    v.(role := Leader, leader := v.me,
       next := seq(v.peers, _ => Last(v).index + 1),
       matched := seq(v.peers, _ => v.base)[v.me := Last(v).index])
  }

  function HandleVoteReply(v: Node, args: VoteArgs, reply: VoteReply): Node
    requires Shape(v)
  {
    if !(v.role.Candidate? && v.term == args.term) then v
    else
      var (v1, higher) := HigherTerm(v, reply.term);
      if higher || !reply.granted then v1
      else
        var v2 := v.(granted := v.granted + 1);
        if v2.granted == v.peers / 2 + 1 then BecomeLeader(v2) else v2
  }

  // ---------------------------------------------------------------- replication: the follower

  /** Walk down from `index` while the term is `term`, stopping at the snapshot boundary. */
  function BelowRun(v: Node, index: nat, term: int): (r: nat)
    requires v.base <= index < Len(v)
    ensures v.base <= r <= index
    ensures forall j | r < j <= index :: At(v, j).term == term
    ensures r == v.base || At(v, r).term != term
  {
    if index > v.base && At(v, index).term == term then BelowRun(v, index - 1, term) else index
  }

  /** Where and with which term a request's previous entry conflicts, if it does. */
  function Conflict(v: Node, prevIndex: nat, prevTerm: nat): Option<(nat, int)> {
    if prevIndex < v.base then Some((v.base + 1, -1))
    else if HasEntry(v, prevIndex, prevTerm) then None
    else if prevIndex >= Len(v) then Some((Len(v), -1))
    else
      var term := At(v, prevIndex).term;
      Some((BelowRun(v, prevIndex, term) + 1, term))
  }

  /** The scan never looks below the snapshot boundary, where it would index out of range. */
  predicate Scannable(logs: seq<Entry>, base: nat, entries: seq<Entry>) {
    entries == [] ||
    (&& base <= entries[0].index
     && (entries[0].index < base + |logs| && logs[entries[0].index - base].term == entries[0].term ==>
           Scannable(logs, base, entries[1..])))
  }

  /** Scan for the first entry that is missing or has another term; from there on take the entries sent. */
  function Merge(logs: seq<Entry>, base: nat, entries: seq<Entry>): (r: seq<Entry>)
    requires Scannable(logs, base, entries)
    ensures 1 <= |logs| ==> 1 <= |r|
  {
    if entries == [] then logs
    else
      var e := entries[0];
      if e.index < base + |logs| then
        if logs[e.index - base].term != e.term then logs[..e.index - base] + entries
        else Merge(logs, base, entries[1..])
      else logs + entries
  }

  function LearnCommit(v: Node, leaderCommit: nat): Node
    requires 1 <= |v.logs|
  {
    if leaderCommit > v.commit then
      v.(commit := if leaderCommit < Len(v) - 1 then leaderCommit else Len(v) - 1)
    else v
  }

  /** Entries that senders copy from their log, consecutive after prevIndex, can always be scanned. */
  predicate Sendable(args: AppendArgs) { Consecutive(args.entries, args.prevIndex + 1) }

  lemma {:induction false} ConsecutiveScans(logs: seq<Entry>, base: nat, entries: seq<Entry>, start: nat)
    requires Consecutive(entries, start) && base <= start
    ensures Scannable(logs, base, entries)
  {
    if entries != [] { ConsecutiveScans(logs, base, entries[1..], start + 1); }
  }

  /** A request that is accepted can be scanned. */
  predicate CanAppend(v: Node, args: AppendArgs) {
    && 1 <= |v.logs|
    && (v.term <= args.term && Conflict(v, args.prevIndex, args.prevTerm).None? ==>
          Scannable(v.logs, v.base, args.entries))
  }

  function AppendEntries(v: Node, args: AppendArgs): (Node, AppendReply)
    requires CanAppend(v, args)
  {
    if args.term < v.term then (v, AppendReply(v.term, false, 0, 0))
    else
      var v0 := if args.term > v.term then v.(term := args.term, votedFor := -1) else v;
      var v1 := v0.(leader := args.leader, role := Follower);
      match Conflict(v1, args.prevIndex, args.prevTerm)
      case Some((index, term)) => (Persist(v1), AppendReply(v.term, false, index, term))
      case None =>
        var logs := Merge(v.logs, v.base, args.entries);
        (Persist(LearnCommit(v1.(logs := logs), args.leaderCommit)), AppendReply(v.term, true, 0, 0))
  }

  /** Nothing before the first index sent changes; afterwards every index sent has the term sent, with the
      entry sent or the one that was there; the log is left alone exactly when it has all that was sent,
      and otherwise ends with the last entry sent. */
  ghost predicate Merged(logs: seq<Entry>, base: nat, entries: seq<Entry>, start: nat, r: seq<Entry>)
    requires base < start <= base + |logs|
  {
    var d := start - base;
    && Consecutive(r, base) && logs[..d] <= r && d + |entries| <= |r|
    && (forall k | 0 <= k < |entries| ::
          && r[d + k].term == entries[k].term
          && (r[d + k] == entries[k] || (d + k < |logs| && r[d + k] == logs[d + k])))
    && (r == logs <==> Present(logs, base, entries, start))
    && (r == logs || |r| == d + |entries|)
  }

  lemma {:induction false} MergeSpec(logs: seq<Entry>, base: nat, entries: seq<Entry>, start: nat)
    requires Consecutive(logs, base) && Consecutive(entries, start) && base < start <= base + |logs|
    ensures Scannable(logs, base, entries) && Merged(logs, base, entries, start, Merge(logs, base, entries))
  {
    hide Merged;
    if entries == [] {
      MergedNothing(logs, base, start);
    } else if start < base + |logs| && logs[start - base].term == entries[0].term {
      MergeSpec(logs, base, entries[1..], start + 1);
      MergedFurther(logs, base, entries, start, Merge(logs, base, entries[1..]));
    } else {
      assert logs[..|logs|] == logs;
      MergedHere(logs, base, entries, start);
    }
  }

  lemma MergedNothing(logs: seq<Entry>, base: nat, start: nat)
    requires Consecutive(logs, base) && base < start <= base + |logs|
    ensures Merged(logs, base, [], start, logs)
  {
  }

  lemma MergedHere(logs: seq<Entry>, base: nat, entries: seq<Entry>, start: nat)
    requires Consecutive(logs, base) && Consecutive(entries, start) && base < start <= base + |logs| && entries != []
    requires start == base + |logs| || logs[start - base].term != entries[0].term
    ensures Merged(logs, base, entries, start, logs[..start - base] + entries)
  {
    var d, r := start - base, logs[..start - base] + entries;
    forall k | 0 <= k < |r| ensures r[k].index == base + k {
      if k < d { assert r[k] == logs[k]; } else { assert r[k] == entries[k - d]; }
    }
    assert r[d] == entries[0];
    assert !Present(logs, base, entries, start) && r != logs;
  }

  lemma MergedFurther(logs: seq<Entry>, base: nat, entries: seq<Entry>, start: nat, r: seq<Entry>)
    requires base < start < base + |logs| && entries != [] && logs[start - base].term == entries[0].term
    requires Merged(logs, base, entries[1..], start + 1, r)
    ensures Merged(logs, base, entries, start, r)
  {
  }

  /** The log has an entry of the same term wherever one was sent. */
  predicate Present(logs: seq<Entry>, base: nat, entries: seq<Entry>, start: nat)
    requires base <= start
  {
    start - base + |entries| <= |logs| && forall j | 0 <= j < |entries| ::
      logs[start - base + j].term == entries[j].term
  }

  function TruncateWithSnapshot(v: Node, index: nat, term: nat): seq<Entry>
    requires v.base <= index
  {
    if index < Len(v) && At(v, index).term == term then v.logs[index - v.base..] else [Entry(index, term, NoCommand)]
  }

  /** What InstallSnapshot has done when it first saves: adopted a higher term. */
  function FirstSaveOfInstall(v: Node, args: SnapshotArgs): Node {
    if args.term > v.term then Persist(v.(term := args.term, votedFor := -1)) else v
  }

  function InstallSnapshot(v: Node, args: SnapshotArgs): (Node, SnapshotReply) {
    if args.term < v.term then (v, SnapshotReply(v.term))
    else
      var v1 := FirstSaveOfInstall(v, args).(leader := args.leader, role := Follower);
      if args.lastIndex <= v1.base then (v1, SnapshotReply(v.term))
      else
        var v2 := v1.(logs := TruncateWithSnapshot(v1, args.lastIndex, args.lastTerm),
                      base := args.lastIndex, baseTerm := args.lastTerm,
                      commit := if args.lastIndex > v1.commit then args.lastIndex else v1.commit);
        (Save(v2, args.data), SnapshotReply(v.term))
  }

  // ---------------------------------------------------------------- replication: the leader

  function Start(v: Node, cmd: Command): (Node, Option<(nat, nat)>) {
    if !v.role.Leader? then (v, None)
    else (Persist(v.(logs := v.logs + [Entry(Len(v), v.term, cmd)])), Some((Len(v), v.term)))
  }

  function AppendArgsFor(v: Node, prevIndex: nat): AppendArgs
    requires v.base <= prevIndex < Len(v)
  {
    AppendArgs(v.term, v.me, prevIndex, At(v, prevIndex).term, v.logs[prevIndex - v.base + 1..], v.commit)
  }

  function SnapshotArgsFor(v: Node): SnapshotArgs {
    SnapshotArgs(v.term, v.me, v.base, v.baseTerm, v.disk.snapshot)
  }

  /** The last index of `term` at or below `start` that is still held, or -1. */
  function FindLast(v: Node, term: int, start: nat): (r: int)
    requires start < Len(v)
    ensures r == -1 || (v.base < r <= start && At(v, r).term == term)
    ensures forall j | (if r == -1 then v.base else r) < j <= start :: At(v, j).term != term
    decreases start
  {
    if start <= v.base then -1
    else if At(v, start).term == term then start
    else FindLast(v, term, start - 1)
  }

  /** The search for a conflicting term starts inside the log. */
  predicate CanResolve(v: Node, args: AppendArgs, reply: AppendReply) {
    v.base <= args.prevIndex && reply.conflictTerm != -1 ==> args.prevIndex < Len(v)
  }

  function Resolve(v: Node, peer: nat, args: AppendArgs, reply: AppendReply): Node
    requires peer < |v.next| && CanResolve(v, args, reply)
  {
    if args.prevIndex < v.base then v
    else if reply.conflictTerm == -1 then v.(next := v.next[peer := reply.conflictIndex])
    else
      var last := FindLast(v, reply.conflictTerm, args.prevIndex);
      v.(next := v.next[peer := if last > 0 then last + 1 else reply.conflictIndex])
  }

  function AdvancePeer(v: Node, peer: nat, args: AppendArgs): Node
    requires peer < |v.next| && peer < |v.matched|
  {
    var match' := args.prevIndex + |args.entries|;
    if match' > v.matched[peer] then v.(matched := v.matched[peer := match'], next := v.next[peer := match' + 1]) else v
  }

  /** Peers other than `me`, among the first n, whose match index reaches `index`. */
  function CountMatches(matched: seq<nat>, me: nat, index: nat, n: nat): nat
    requires n <= |matched|
  {
    if n == 0 then 0
    else CountMatches(matched, me, index, n - 1) + if n - 1 != me && matched[n - 1] >= index then 1 else 0
  }

  function NodesWithLogAt(v: Node, index: nat): nat {
    1 + CountMatches(v.matched, v.me, index, |v.matched|)
  }

  /** A majority, the leader included, is counted as holding the entry, and it is of the current term. */
  predicate Committable(v: Node, index: nat) {
    HasEntry(v, index, v.term) && NodesWithLogAt(v, index) > v.peers / 2
  }

  /** The search downwards from n finds the highest committable index above the commit index, if any. */
  function CommitPoint(v: Node, n: nat): (c: nat)
    requires n < Len(v) && v.base <= v.commit
    ensures c == v.commit || (v.commit < c <= n && Committable(v, c))
    ensures forall k | c < k <= n :: !Committable(v, k)
  {
    if n <= v.commit then v.commit
    else if At(v, n).term == v.term && NodesWithLogAt(v, n) > v.peers / 2 then n
    else CommitPoint(v, n - 1)
  }

  function UpdateCommit(v: Node): Node
    requires 1 <= |v.logs| && v.base <= v.commit
  {
    v.(commit := CommitPoint(v, Len(v) - 1))
  }

  /** Only a current rejection starts a search. */
  predicate CanHandle(v: Node, args: AppendArgs, reply: AppendReply) {
    v.role.Leader? && reply.term <= v.term == args.term && !reply.success ==> CanResolve(v, args, reply)
  }

  function HandleAppendReply(v: Node, peer: nat, args: AppendArgs, reply: AppendReply): Node
    requires Valid(v) && peer < v.peers
    requires CanHandle(v, args, reply)
  {
    var (v1, higher) := HigherTerm(v, reply.term);
    if higher || !v1.role.Leader? || v1.term != args.term then v1
    else if !reply.success then Resolve(v1, peer, args, reply)
    else UpdateCommit(AdvancePeer(v1, peer, args))
  }

  function HandleSnapshotReply(v: Node, peer: nat, args: SnapshotArgs, reply: SnapshotReply): Node
    requires peer < |v.next| && peer < |v.matched|
  {
    var (v1, higher) := HigherTerm(v, reply.term);
    if higher || !v1.role.Leader? || v1.term != args.term then v1
    else
      v1.(next := if args.lastIndex + 1 > v1.next[peer] then v1.next[peer := args.lastIndex + 1] else v1.next,
          matched := if args.lastIndex > v1.matched[peer] then v1.matched[peer := args.lastIndex] else v1.matched)
  }

  // ---------------------------------------------------------------- the service above

  function TakeSnapshot(v: Node, index: nat, data: Snapshot): Node
    requires Valid(v)
  {
    if index <= v.base || index > v.commit then v
    else
      var logs := v.logs[index - v.base..];
      Save(v.(logs := logs, base := index, baseTerm := logs[0].term), data)
  }

  /** One round of the applier: a snapshot if the log no longer reaches back far enough, else a batch. */
  function Deliver(v: Node): (Node, seq<ApplyMsg>)
    requires Valid(v) && v.applied < v.commit
  {
    if v.applied < v.base then
      (v.(applied := v.base), [ApplySnapshot(v.disk.snapshot, v.baseTerm, v.base)])
    else
      (v.(applied := v.commit), seq(v.commit - v.applied, (i: nat) requires i < v.commit - v.applied =>
                                  var e := At(v, v.applied + 1 + i); ApplyCommand(e.cmd, e.index)))
  }
}
