/**
 The cluster: servers made of a Raft node, a reader and a store, and a network.

 A message stays in `net` once sent, so it may be delivered late, more than once, out of order, or never;
 only a vote request is answered at most once per call, which `awaiting` keeps. A server may stop between
 any two steps, and also between the two saves of a campaign or of a snapshot installation. Timers,
 thread scheduling and everything a test of leadership may read are left open.

 `Enabled` says when an event can happen, `Safe` that the handler then stays inside its slices,
 `After` what it does.
 */
module SystemModel {
  import opened Types
  import opened StoreModel
  import opened NodeModel
  import opened RsmModel

  datatype Message =
    | VoteRequest(to: nat, vote: VoteArgs)
    | VoteAnswer(src: nat, vote: VoteArgs, voteReply: VoteReply)
    | AppendRequest(to: nat, app: AppendArgs)
    | AppendAnswer(src: nat, app: AppendArgs, appReply: AppendReply)
    | SnapshotRequest(to: nat, snap: SnapshotArgs)
    | SnapshotAnswer(src: nat, snap: SnapshotArgs, snapReply: SnapshotReply)

  /** Between applying a command and telling its waiter the reader does not hold the lock. */
  datatype Reader = Idle | Notifying(index: nat, id: int, val: Reply)

  /** `queue` is what the applier still has to hand over, `position` the index of the last message taken
      (a history variable: the reader's own `rsmApplied` starts again at 0), `awaiting` the peers whose
      answer to the running campaign's vote request is outstanding. */
  datatype Server = Server(raft: Node, awaiting: set<nat>, queue: seq<ApplyMsg>, reader: Reader,
                           store: KV, rsmApplied: nat, pending: Table, position: nat)

  datatype Submission = Submission(server: nat, index: nat, term: nat, req: Request)
  datatype Delivery = Delivery(server: nat, index: nat, cmd: Command)

  /** `submitted`, `answers` and `deliveries` record what clients and stores have seen. */
  datatype System = System(servers: seq<Server>, net: set<Message>,
                           submitted: map<int, Submission>, answers: set<Sent>, deliveries: set<Delivery>)

  /** A new process: MakeRSM creates the node, an empty store, and restores the saved snapshot if any. */
  function Boot(me: nat, peers: nat, disk: Disk): Server {
    Server(Restart(me, peers, disk), {}, [], Idle,
           if disk.snapshot.None? then map[] else Restored(map[], disk.snapshot), 0, map[], Saved(disk).base)
  }

  predicate Init(s: System) {
    && s.servers == seq(|s.servers|, i requires 0 <= i < |s.servers| => Boot(i, |s.servers|, Disk(None, None)))
    && s.net == {} && s.submitted == map[] && s.answers == {} && s.deliveries == {}
  }

  datatype Event =
    | Timeout(i: nat)
    | Crash(i: nat)
    | CrashInCampaign(i: nat)
    | CrashInInstall(m: Message)
    | DeliverMessage(m: Message)
    | Replicate(i: nat, peer: nat)
    | Submit(i: nat, id: int, req: Request)
    | Apply(i: nat)
    | TakeSnapshotMsg(i: nat, isLeader: bool, term: nat)
    | TakeCommand(i: nat)
    | Notify(i: nat, wasLeader: bool, isLeader: bool, term: nat, compact: bool)
    | GiveUp(i: nat, index: nat)

  /** The server an event happens on. */
  function Place(e: Event): nat {
    match e
    case CrashInInstall(m) => if m.SnapshotRequest? then m.to else 0
    case DeliverMessage(VoteRequest(to, _)) => to
    case DeliverMessage(VoteAnswer(_, args, _)) => args.cand
    case DeliverMessage(AppendRequest(to, _)) => to
    case DeliverMessage(AppendAnswer(_, args, _)) => args.leader
    case DeliverMessage(SnapshotRequest(to, _)) => to
    case DeliverMessage(SnapshotAnswer(_, args, _)) => args.leader
    case _ => e.i
  }

  predicate Enabled(s: System, e: Event) {
    && Place(e) < |s.servers|
    && var x := s.servers[Place(e)];
    match e
    case Timeout(i) => !x.raft.role.Leader?
    case Crash(i) => true
    case CrashInCampaign(i) => !x.raft.role.Leader?
    case CrashInInstall(m) => m in s.net && m.SnapshotRequest? && x.raft.term <= m.snap.term
    case DeliverMessage(m) => m in s.net && (m.VoteAnswer? && m.vote.term == x.raft.term ==> m.src in x.awaiting)
    case Replicate(i, peer) => x.raft.role.Leader? && peer < |s.servers| && peer != i
    case Submit(i, id, req) => id != -1 && id !in s.submitted
    case Apply(i) => x.queue == [] && x.raft.applied < x.raft.commit
    case TakeSnapshotMsg(i, _, _) => x.reader.Idle? && x.queue != [] && x.queue[0].ApplySnapshot?
    case TakeCommand(i) => x.reader.Idle? && x.queue != [] && x.queue[0].ApplyCommand?
    case Notify(i, _, _, _, _) => x.reader.Notifying?
    case GiveUp(i, index) =>
      exists id :: id in s.submitted && s.submitted[id].server == i && s.submitted[id].index == index
  }

  /** The handler's indices and slices are in range. */
  predicate Safe(s: System, e: Event)
    requires Enabled(s, e)
  {
    var v := s.servers[Place(e)].raft;
    match e
    case DeliverMessage(AppendRequest(_, args)) => CanAppend(v, args)
    case DeliverMessage(AppendAnswer(src, args, reply)) =>
      Valid(v) && src < v.peers && CanHandle(v, args, reply)
    case DeliverMessage(SnapshotAnswer(src, _, _)) => src < |v.next| && src < |v.matched|
    case Replicate(i, peer) =>
      peer < |v.next| && (v.next[peer] <= v.base || v.next[peer] <= Len(v))
    case _ => Valid(v)
  }

  function SetServer(s: System, i: nat, x: Server): System
    requires i < |s.servers|
  {
    s.(servers := s.servers[i := x])
  }

  function Send(s: System, ms: set<Message>): System { s.(net := s.net + ms) }

  function OnRaft(s: System, i: nat, v: Node): System
    requires i < |s.servers|
  {
    SetServer(s, i, s.servers[i].(raft := v))
  }

  function Others(n: nat, me: nat): (others: set<nat>)
    ensures forall p :: p in others <==> 0 <= p < n && p != me
  {
    if n == 0 then {} else if n - 1 == me then Others(n - 1, me) else Others(n - 1, me) + {n - 1}
  }

  function AfterTimeout(s: System, i: nat): System
    requires i < |s.servers| && Valid(s.servers[i].raft)
  {
    var v := BecomeCandidate(s.servers[i].raft);
    var others := Others(|s.servers|, i);
    Send(SetServer(s, i, s.servers[i].(raft := v, awaiting := others)),
         set p | p in others :: VoteRequest(p, CampaignArgs(v)))
  }

  function AfterMessage(s: System, m: Message): System
    requires Enabled(s, DeliverMessage(m)) && Safe(s, DeliverMessage(m))
  {
    match m
    case VoteRequest(i, args) =>
      var (v, reply) := RequestVote(s.servers[i].raft, args);
      Send(OnRaft(s, i, v), {VoteAnswer(i, args, reply)})
    case VoteAnswer(src, args, reply) =>
      var x := s.servers[args.cand];
      SetServer(s, args.cand, x.(raft := HandleVoteReply(x.raft, args, reply),
                           awaiting := if args.term == x.raft.term then x.awaiting - {src} else x.awaiting))
    case AppendRequest(i, args) =>
      var (v, reply) := NodeModel.AppendEntries(s.servers[i].raft, args);
      Send(OnRaft(s, i, v), {AppendAnswer(i, args, reply)})
    case AppendAnswer(src, args, reply) =>
      OnRaft(s, args.leader, HandleAppendReply(s.servers[args.leader].raft, src, args, reply))
    case SnapshotRequest(i, args) =>
      var (v, reply) := InstallSnapshot(s.servers[i].raft, args);
      Send(OnRaft(s, i, v), {SnapshotAnswer(i, args, reply)})
    case SnapshotAnswer(src, args, reply) =>
      OnRaft(s, args.leader, HandleSnapshotReply(s.servers[args.leader].raft, src, args, reply))
  }

  /** replicateToPeer: a snapshot if the peer needs entries that are gone, else the rest of the log. */
  function AfterReplicate(s: System, i: nat, peer: nat): System
    requires Enabled(s, Replicate(i, peer)) && Safe(s, Replicate(i, peer))
  {
    var v := s.servers[i].raft;
    if v.next[peer] <= v.base then Send(s, {SnapshotRequest(peer, SnapshotArgsFor(v))})
    else Send(s, {AppendRequest(peer, AppendArgsFor(v, v.next[peer] - 1))})
  }

  /** Start and the registration of the waiter happen under the same lock. */
  function AfterSubmit(s: System, i: nat, id: int, req: Request): System
    requires i < |s.servers|
  {
    var x := s.servers[i];
    var (v, started) := Start(x.raft, Command(Op(i, id, req)));
    match started
    case None => s
    case Some((index, term)) =>
      SetServer(s, i, x.(raft := v, pending := x.pending[index := Pending(id, term)]))
        .(submitted := s.submitted[id := Submission(i, index, term, req)])
  }

  function AfterSnapshotMsg(s: System, i: nat, isLeader: bool, term: nat): System
    requires Enabled(s, TakeSnapshotMsg(i, isLeader, term))
  {
    var x := s.servers[i];
    var msg := x.queue[0];
    var (rest, sent) := Outdated(x.pending, msg.index, isLeader, term);
    SetServer(s, i, x.(queue := x.queue[1..], store := Restored(x.store, msg.data), rsmApplied := msg.index,
                 pending := rest, position := msg.index))
      .(answers := s.answers + sent)
  }

  function AfterCommand(s: System, i: nat): System
    requires Enabled(s, TakeCommand(i))
  {
    var x := s.servers[i];
    var msg := x.queue[0];
    var x1 := x.(queue := x.queue[1..], position := msg.index);
    if msg.cmd.NoCommand? || msg.index <= x.rsmApplied then
      SetServer(s, i, x1)
    else
      var (kv, val) := DoOp(x.store, msg.cmd.op.req);
      SetServer(s, i, x1.(store := kv, rsmApplied := msg.index, reader := Notifying(msg.index, msg.cmd.op.id, val)))
        .(deliveries := s.deliveries + {Delivery(i, msg.index, msg.cmd)})
  }

  function AfterNotify(s: System, i: nat, wasLeader: bool, isLeader: bool, term: nat, compact: bool): System
    requires i < |s.servers| && s.servers[i].reader.Notifying? && Valid(s.servers[i].raft)
  {
    var x := s.servers[i];
    var r := x.reader;
    var (rest, sent) := Notified(x.pending, r.index, r.id, r.val, wasLeader, isLeader, term);
    SetServer(s, i, x.(reader := Idle, pending := rest,
                 raft := if compact then TakeSnapshot(x.raft, r.index, Some(x.store)) else x.raft))
      .(answers := s.answers + sent)
  }

  function After(s: System, e: Event): System
    requires Enabled(s, e) && Safe(s, e)
  {
    var x := s.servers[Place(e)];
    match e
    case Timeout(i) => AfterTimeout(s, i)
    case Crash(i) => SetServer(s, i, Boot(x.raft.me, x.raft.peers, x.raft.disk))
    case CrashInCampaign(i) => SetServer(s, i, Boot(x.raft.me, x.raft.peers, FirstSaveOfCampaign(x.raft).disk))
    case CrashInInstall(m) => SetServer(s, m.to, Boot(x.raft.me, x.raft.peers, FirstSaveOfInstall(x.raft, m.snap).disk))
    case DeliverMessage(m) => AfterMessage(s, m)
    case Replicate(i, peer) => AfterReplicate(s, i, peer)
    case Submit(i, id, req) => AfterSubmit(s, i, id, req)
    case Apply(i) =>
      var (v, msgs) := Deliver(x.raft);
      SetServer(s, i, x.(raft := v, queue := msgs))
    case TakeSnapshotMsg(i, isLeader, term) => AfterSnapshotMsg(s, i, isLeader, term)
    case TakeCommand(i) => AfterCommand(s, i)
    case Notify(i, wasLeader, isLeader, term, compact) => AfterNotify(s, i, wasLeader, isLeader, term, compact)
    case GiveUp(i, index) => SetServer(s, i, x.(pending := x.pending - {index}))
  }

  ghost predicate Next(s: System, s': System) {
    exists e :: Enabled(s, e) && Safe(s, e) && s' == After(s, e)
  }

  /** A run: states one step apart, from an initial one. */
  ghost predicate IsRun(run: seq<System>) {
    && 0 < |run| && Init(run[0])
    && forall k | 0 <= k < |run| - 1 :: Next(run[k], run[k + 1])
  }

  ghost function Final(run: seq<System>): System
    requires IsRun(run)
  {
    run[|run| - 1]
  }

  /** What the reader takes for its node's leadership and term is what they are at that moment. */
  predicate Honest(s: System, e: Event)
    requires Enabled(s, e)
  {
    var v := s.servers[Place(e)].raft;
    match e
    case TakeSnapshotMsg(_, isLeader, term) => isLeader == v.role.Leader? && term == v.term
    case Notify(_, wasLeader, isLeader, term, _) => wasLeader == isLeader == v.role.Leader? && term == v.term
    case _ => true
  }

  /** One of `movers` takes an honest step; nobody stops and no client gives up. */
  ghost predicate TakenBy(s: System, s': System, movers: set<nat>) {
    exists e :: Enabled(s, e) && Safe(s, e) && s' == After(s, e) && Honest(s, e) && Place(e) in movers && Works(e)
  }

  predicate Works(e: Event) { !e.Crash? && !e.CrashInCampaign? && !e.CrashInInstall? && !e.GiveUp? }

  /** The run goes on, by such steps alone. */
  ghost predicate Continues(run: seq<System>, run': seq<System>, movers: set<nat>) {
    && 0 < |run| && run <= run'
    && forall k | |run| <= k < |run'| :: TakenBy(run'[k - 1], run'[k], movers)
  }

  lemma Unmoved(run: seq<System>, movers: set<nat>)
    requires IsRun(run)
    ensures Continues(run, run, movers)
  {
  }

  lemma Joined(run: seq<System>, run1: seq<System>, run2: seq<System>, m1: set<nat>, m2: set<nat>, movers: set<nat>)
    requires Continues(run, run1, m1) && Continues(run1, run2, m2) && m1 <= movers && m2 <= movers
    ensures Continues(run, run2, movers)
  {
    hide TakenBy;
    forall k | |run| <= k < |run2| ensures TakenBy(run2[k - 1], run2[k], movers) {
      if k < |run1| {
        assert run2[k - 1] == run1[k - 1] && run2[k] == run1[k];
        Wider(run2[k - 1], run2[k], m1, movers);
      } else {
        Wider(run2[k - 1], run2[k], m2, movers);
      }
    }
  }

  lemma Wider(s: System, s': System, m: set<nat>, movers: set<nat>)
    requires TakenBy(s, s', m) && m <= movers
    ensures TakenBy(s, s', movers)
  {
  }

  /** A run that has come from `start` by steps of `movers` goes on by one more. */
  lemma Extend(start: seq<System>, run: seq<System>, e: Event, movers: set<nat>) returns (run': seq<System>)
    requires IsRun(run) && Continues(start, run, movers)
    requires Enabled(Final(run), e) && Safe(Final(run), e) && Honest(Final(run), e) && Place(e) in movers && Works(e)
    ensures IsRun(run') && Continues(start, run', movers) && |run'| == |run| + 1 && Final(run') == After(Final(run), e)
  {
    hide Enabled, Safe, After, Honest, Place, Works, Init;
    run' := run + [After(Final(run), e)];
    assert Next(Final(run), After(Final(run), e));
    assert TakenBy(Final(run), After(Final(run), e), movers);
    forall k | 0 <= k < |run'| - 1 ensures Next(run'[k], run'[k + 1]) {
      if k < |run| - 1 { assert Next(run[k], run[k + 1]); }
    }
    forall k | |start| <= k < |run'| ensures TakenBy(run'[k - 1], run'[k], movers) {
      if k < |run| { assert TakenBy(run[k - 1], run[k], movers); }
    }
  }
}
