/** Steps of the service above Raft: submitting, applying, restoring, notifying and compacting. */
module ServiceSteps {
  import opened Types
  import opened StoreModel
  import opened NodeModel
  import opened RsmModel
  import opened SystemModel
  import opened Protocol
  import opened Behaviour
  import opened Actions
  import opened Relation
  import opened ElectionSteps
  import opened ReplicationSteps

  // ---------------------------------------------------------------- submitting

  lemma SubmitStep(w: World, s: System, i: nat, id: int, req: Request) returns (w': World)
    requires Inv(w) && Rel(w, s) && Enabled(s, Submit(i, id, req)) && Safe(s, Submit(i, id, req))
    ensures Followed(w, w', After(s, Submit(i, id, req)), i)
  {
    hide Core, ChosenOk, Rel, Grows, OpsOk, ServerOk, Apart, NodeOk, LeaderOk, CandidateOk, Performs;
    RelFacts(w, s, i);
    var x := s.servers[i];
    if !x.raft.role.Leader? {
      GrowsSelf(w);
      PerformsNothing(w, i);
      w' := w;
    } else {
      var cmd := Command(Op(i, id, req));
      LeadersLog(w, i, x.raft);
      NodeTerm(w.peers[i], |w.peers|, i, x.raft);
      AppendKeeps(w, i, cmd);
      w' := Append(w, i, cmd);
      PerformsOne(w, AppendEntry(i, cmd));
      var s' := AfterSubmit(s, i, id, req);
      AppendedServer(w, s, i, id, req);
      NewWaiter(w, s, i, id, req);
      AppendedOps(w.elections, s.submitted, w'.elections, s'.submitted, x.raft.term, id);
      Frame(w, s, w', s', i);
    }
  }

  lemma NewWaiter(w: World, s: System, i: nat, id: int, req: Request)
    requires Rel(w, s) && i < |s.servers| && id !in s.submitted && s.servers[i].raft.role.Leader?
    ensures Apart(AfterSubmit(s, i, id, req))
  {
    hide ServerOk, MsgOk, OpsOk, DeliveryOk;
    forall a | a in s.answers ensures a.id in s.submitted { assert SentOk(w.chosen, s.submitted, a); }
  }

  lemma AppendedOps(E: Elections, sub: map<int, Submission>, E': Elections, sub': map<int, Submission>, t: nat, id: int)
    requires OpsOk(E, sub) && t in E && t in E' && E' == E[t := E'[t]] && id !in sub && id in sub'
    requires sub' == sub[id := sub'[id]]
    requires |E'[t].log| == |E[t].log| + 1 && E'[t].log[..|E[t].log|] == E[t].log
    requires EntryOk(E'[t].log[|E[t].log|], |E[t].log|, sub')
    ensures OpsOk(E', sub')
  {
  }

  lemma AppendedServer(w: World, s: System, i: nat, id: int, req: Request)
    requires i < |s.servers| && i < |w.peers| && ServerOk(w, s.submitted, i, s.servers[i]) && id !in s.submitted
    requires s.servers[i].raft.role.Leader? && w.peers[i].term in w.elections
    ensures var s' := AfterSubmit(s, i, id, req);
            ServerOk(Append(w, i, Command(Op(i, id, req))), s'.submitted, i, s'.servers[i])
  {
    hide ReaderOk, Held;
    var p, p' := w.peers[i], Append(w, i, Command(Op(i, id, req))).peers[i];
    var x, x' := s.servers[i], AfterSubmit(s, i, id, req).servers[i];
    HeldAt(p.log, x.raft, 0);
    HeldAppend(p.log, x.raft, x'.raft, p'.log[|p.log|]);
    Extended(p.log, p'.log[|p.log|], p.commit + 1);
    Extended(p.log, p'.log[|p.log|], x.raft.base + 1);
    ReaderStays(p.log, p.commit, p'.log, p'.commit, x, x');
    SnapshotSame(p.log, p'.log, x.raft.base);
    AppendedLeader(w, Append(w, i, Command(Op(i, id, req))), i, x.raft, x'.raft);
    BelowCommit(p.log, p.commit, x);
  }

  lemma BelowCommit(log: Log, commit: nat, x: Server)
    requires ReaderOk(log, commit, x)
    ensures x.position <= commit < |log|
  {
  }

  lemma Extended(log: Log, e: Entry, k: nat)
    requires k <= |log|
    ensures Agree(log, log + [e], k)
  {
  }

  lemma HeldAppend(log: Log, v: Node, v': Node, e: Entry)
    requires Held(log, v) && v'.base == v.base && v'.baseTerm == v.baseTerm && v'.logs == v.logs + [e]
    ensures Held(log + [e], v') && Len(v) == |log|
  {
  }

  lemma AppendedLeader(w: World, w': World, i: nat, v: Node, v': Node)
    requires LeaderOk(w, i, v) && w'.acks == w.acks && v'.role == v.role && v'.next == v.next && v'.matched == v.matched
    requires v'.commit == v.commit && v'.term == v.term && Len(v') == Len(v) + 1
    ensures LeaderOk(w', i, v')
  {
  }

  // ---------------------------------------------------------------- steps that leave the protocol alone

  lemma {:induction false} ServiceFrame(w: World, s: System, s': System, i: nat)
    requires Rel(w, s) && i < |s.servers| && i < |w.peers| && |s'.servers| == |s.servers|
    requires forall j | 0 <= j < |s.servers| && j != i :: s'.servers[j] == s.servers[j]
    requires s'.net == s.net && s'.submitted == s.submitted && s.answers <= s'.answers && s.deliveries <= s'.deliveries
    requires ServerOk(w, s.submitted, i, s'.servers[i])
    requires forall a | a in s'.answers && a !in s.answers :: SentOk(w.chosen, s.submitted, a)
    requires forall d | d in s'.deliveries && d !in s.deliveries :: DeliveryOk(w.chosen, d)
    requires Apart(s')
    ensures Rel(w, s')
  {
    hide ServerOk, MsgOk, OpsOk, SentOk, DeliveryOk, Apart;
  }

  /** Whoever leaves the table is answered, and only those: so nobody answered waits. */
  lemma ApartStays(w: World, s: System, i: nat, x: Server, sent: set<Sent>)
    requires Rel(w, s) && i < |s.servers|
    requires forall k | k in x.pending :: k in s.servers[i].pending && x.pending[k] == s.servers[i].pending[k]
    requires forall a | a in sent ::
               && a.index in s.servers[i].pending && a.index !in x.pending
               && s.servers[i].pending[a.index].id == a.id
    ensures Apart(SetServer(s, i, x).(answers := s.answers + sent))
    ensures forall a | a in sent :: a.id in s.submitted
  {
    hide RaftOk, ReaderOk, MsgOk, OpsOk, SentOk, DeliveryOk;
    forall j | 0 <= j < |s.servers| ensures PendingOk(s.submitted, j, s.servers[j]) {
      assert ServerOk(w, s.submitted, j, s.servers[j]);
    }
    var s' := SetServer(s, i, x).(answers := s.answers + sent);
    forall j, k, a | 0 <= j < |s'.servers| && k in s'.servers[j].pending && a in s'.answers
      ensures a.id != s'.servers[j].pending[k].id
    {
      assert s'.servers[j].pending[k] == s.servers[j].pending[k];
      if a in sent {
        assert s.submitted[a.id].server == i && s.submitted[a.id].index == a.index;
      }
    }
  }

  lemma ChosenHas(w: World, i: nat, k: nat)
    requires Inv(w) && i < |w.peers| && k <= w.peers[i].commit
    ensures k < |w.peers[i].log| && Agree(w.peers[i].log, w.chosen, k + 1) && LogOk(w.elections, w.peers[i].log)
  {
    assert PeerOk(w, i);
    KnownIsChosen(w, w.peers[i].log, w.peers[i].term, w.peers[i].commit + 1);
  }

  lemma GiveUpStep(w: World, s: System, i: nat, index: nat)
    requires Inv(w) && Rel(w, s) && Enabled(s, GiveUp(i, index)) && Safe(s, GiveUp(i, index))
    ensures Rel(w, After(s, GiveUp(i, index)))
  {
    hide Inv, MsgOk, OpsOk, SentOk, DeliveryOk, RaftOk;
    RelFacts(w, s, i);
    var x := s.servers[i];
    var x' := x.(pending := x.pending - {index});
    ServiceFrame(w, s, SetServer(s, i, x'), i);
  }

  // ---------------------------------------------------------------- the applier

  lemma ApplyStep(w: World, s: System, i: nat)
    requires Inv(w) && Rel(w, s) && Enabled(s, Apply(i)) && Safe(s, Apply(i))
    ensures Rel(w, After(s, Apply(i)))
  {
    hide Inv, MsgOk, OpsOk, SentOk, DeliveryOk, ServerOk, Apart, Deliver, Rel;
    RelFacts(w, s, i);
    AppliedServer(w, s.submitted, i, s.servers[i]);
    ApartFewer(w, s, After(s, Apply(i)));
    ServiceFrame(w, s, After(s, Apply(i)), i);
  }

  lemma AppliedServer(w: World, sub: map<int, Submission>, i: nat, x: Server)
    requires i < |w.peers| && ServerOk(w, sub, i, x) && Valid(x.raft) && x.queue == [] && x.raft.applied < x.raft.commit
    ensures var (v, msgs) := Deliver(x.raft); ServerOk(w, sub, i, x.(raft := v, queue := msgs))
  {
    hide Replay;
    var log := w.peers[i].log;
    var (v, msgs) := Deliver(x.raft);
    HeldSame(log, x.raft, v);
    if x.raft.applied >= x.raft.base {
      forall j | 0 <= j < |msgs|
        ensures msgs[j] == ApplyMsg.ApplyCommand(log[x.position + 1 + j].cmd, x.position + 1 + j)
      {
        HeldAt(log, x.raft, x.position + 1 + j);
        assert At(x.raft, x.position + 1 + j).index == x.position + 1 + j;
      }
    }
  }

  // ---------------------------------------------------------------- the reader

  lemma TakeSnapshotStep(w: World, s: System, i: nat, isLeader: bool, term: nat)
    requires Inv(w) && Rel(w, s) && Enabled(s, TakeSnapshotMsg(i, isLeader, term))
    requires Safe(s, TakeSnapshotMsg(i, isLeader, term))
    ensures Rel(w, After(s, TakeSnapshotMsg(i, isLeader, term)))
  {
    hide Inv, Rel, MsgOk, OpsOk, DeliveryOk, ServerOk, Apart;
    RelFacts(w, s, i);
    var x, s' := s.servers[i], AfterSnapshotMsg(s, i, isLeader, term);
    var (rest, sent) := Outdated(x.pending, x.queue[0].index, isLeader, term);
    RestoredServer(w, s.submitted, i, x, s'.servers[i]);
    ApartStays(w, s, i, s'.servers[i], sent);
    ServiceFrame(w, s, s', i);
  }

  lemma RestoredServer(w: World, sub: map<int, Submission>, i: nat, x: Server, x': Server)
    requires i < |w.peers| && ServerOk(w, sub, i, x) && x.reader.Idle? && x.queue != [] && x.queue[0].ApplySnapshot?
    requires x' == x.(queue := x.queue[1..], store := Restored(x.store, x.queue[0].data),
             rsmApplied := x.queue[0].index,
                      pending := x'.pending, position := x.queue[0].index)
    requires forall k | k in x'.pending :: k in x.pending && x'.pending[k] == x.pending[k] && k > x.queue[0].index
    ensures ServerOk(w, sub, i, x')
  {
    hide RaftOk, Replay;
    MergeIsReplace(w.peers[i].log, x.position + 1, x.raft.applied + 1);
  }

  lemma TakeCommandStep(w: World, s: System, i: nat)
    requires Inv(w) && Rel(w, s) && Enabled(s, TakeCommand(i)) && Safe(s, TakeCommand(i))
    ensures Rel(w, After(s, TakeCommand(i)))
  {
    hide Inv, Rel, MsgOk, OpsOk, SentOk, ServerOk, Apart;
    RelFacts(w, s, i);
    var x, s' := s.servers[i], AfterCommand(s, i);
    HeadOfQueue(w, i, x, s.submitted);
    var k := x.queue[0].index;
    ChosenHas(w, i, k);
    CommandServer(w, s.submitted, i, x, s'.servers[i]);
    ApartFewer(w, s, s');
    ServiceFrame(w, s, s', i);
  }

  /** The next command on the apply channel is the next committed operation: no gap, no repeat. */
  lemma HeadOfQueue(w: World, i: nat, x: Server, sub: map<int, Submission>)
    requires Inv(w) && i < |w.peers| && ServerOk(w, sub, i, x) && OpsOk(w.elections, sub) && x.queue != []
    requires x.queue[0].ApplyCommand?
    ensures x.queue[0].index == x.position + 1 <= w.peers[i].commit < |w.peers[i].log|
    ensures x.queue[0].cmd == w.peers[i].log[x.position + 1].cmd && x.queue[0].cmd.Command?
    ensures x.rsmApplied < x.position + 1
  {
    hide RaftOk, Core, ChosenOk, Replay, OpsOk;
    ChosenHas(w, i, w.peers[i].commit);
    LogEntryOk(w.elections, sub, w.peers[i].log, x.position + 1);
  }

  lemma CommandServer(w: World, sub: map<int, Submission>, i: nat, x: Server, x': Server)
    requires i < |w.peers| && ServerOk(w, sub, i, x) && x.reader.Idle? && x.queue != [] && x.queue[0].ApplyCommand?
    requires x.queue[0].cmd.Command?
    requires var msg := x.queue[0]; var (kv, val) := DoOp(x.store, msg.cmd.op.req);
             x' == x.(queue := x.queue[1..], position := msg.index, store := kv, rsmApplied := msg.index,
                      reader := Notifying(msg.index, msg.cmd.op.id, val))
    ensures ServerOk(w, sub, i, x')
  {
    hide RaftOk, DoOp;
    var log, k := w.peers[i].log, x.position + 1;
    assert x.queue[0] == ApplyMsg.ApplyCommand(log[k].cmd, k);
    assert Replay(log, k + 1) == Run(Replay(log, k), log[k].cmd);
    assert x'.position == k && x'.queue == x.queue[1..];
    forall j | 0 <= j < |x'.queue| ensures x'.queue[j] == ApplyMsg.ApplyCommand(log[k + 1 + j].cmd, k + 1 + j) {
      assert x'.queue[j] == x.queue[j + 1];
    }
  }

  lemma NotifyStep(w: World, s: System, i: nat, wasLeader: bool, isLeader: bool, term: nat, compact: bool)
    requires Inv(w) && Rel(w, s) && Enabled(s, Notify(i, wasLeader, isLeader, term, compact))
    requires Safe(s, Notify(i, wasLeader, isLeader, term, compact))
    ensures Rel(w, After(s, Notify(i, wasLeader, isLeader, term, compact)))
  {
    hide Core, ChosenOk, Rel, MsgOk, OpsOk, SentOk, DeliveryOk, ServerOk, Apart, Notified, TakeSnapshot;
    RelFacts(w, s, i);
    var x := s.servers[i];
    var r, s' := x.reader, AfterNotify(s, i, wasLeader, isLeader, term, compact);
    var (rest, sent) := Notified(x.pending, r.index, r.id, r.val, wasLeader, isLeader, term);
    TableAfterNotify(x.pending, r.index, r.id, r.val, wasLeader, isLeader, term);
    Leavers(x.pending, rest, sent);
    NotifiedServer(w, s.submitted, i, x, s'.servers[i], compact);
    ApartStays(w, s, i, s'.servers[i], sent);
    forall a | a in sent ensures SentOk(w.chosen, s.submitted, a) { AnswerIsOk(w, s.submitted, i, x, a); }
    ServiceFrame(w, s, s', i);
  }

  lemma Leavers(pending: Table, rest: Table, sent: set<Sent>)
    requires forall i | i in pending :: i in rest <==> !exists o :: Sent(pending[i].id, i, o) in sent
    requires forall s | s in sent :: s.index in pending && pending[s.index].id == s.id
    ensures forall s | s in sent :: s.index !in rest
  {
  }

  lemma AnswerIsOk(w: World, sub: map<int, Submission>, i: nat, x: Server, a: Sent)
    requires Inv(w) && i < |w.peers| && ServerOk(w, sub, i, x) && x.reader.Notifying? && a.id in sub
    requires a.outcome.Done? ==> a.index == x.reader.index && a.id == x.reader.id && a.outcome.val == x.reader.val
    ensures SentOk(w.chosen, sub, a)
  {
    hide RaftOk, Core, ChosenOk, QueueOk, Replay;
    ChosenHas(w, i, x.position);
    AnswerSame(w.peers[i].log, w.chosen, x.position);
  }

  lemma NotifiedServer(w: World, sub: map<int, Submission>, i: nat, x: Server, x': Server, compact: bool)
    requires Core(w) && i < |w.peers| && ServerOk(w, sub, i, x) && x.reader.Notifying? && Valid(x.raft)
    requires x' == x.(reader := Idle, pending := x'.pending, raft := if compact
             then TakeSnapshot(x.raft, x.reader.index, Some(x.store)) else x.raft)
    requires forall k | k in x'.pending :: k > x.reader.index && k in x.pending && x'.pending[k] == x.pending[k]
    ensures ServerOk(w, sub, i, x')
  {
    hide Core, RaftOk, QueueOk, Replay, TakeSnapshot;
    CompactedNode(w, i, x.raft, x.awaiting, x.position);
  }

  /** A local snapshot is a stutter of the protocol: the same full log, held from further on. */
  lemma CompactedNode(w: World, i: nat, v: Node, awaiting: set<nat>, index: nat)
    requires Core(w) && i < |w.peers| && RaftOk(w, i, v, awaiting) && Valid(v) && index < |w.peers[i].log|
    ensures var v' := TakeSnapshot(v, index, Some(Replay(w.peers[i].log, index + 1)));
            RaftOk(w, i, v', awaiting) && v'.applied == v.applied
  {
    hide Core, Replay, Held;
    var log := w.peers[i].log;
    Indexed(w, i);
    if v.base < index <= v.commit {
      HeldAt(log, v, index);
      HeldSuffix(log, v, index);
      var v' := TakeSnapshot(v, index, Some(Replay(log, index + 1)));
      HeldSame(log, v.(logs := v.logs[index - v.base..], base := index, baseTerm := log[index].term), v');
    }
  }
}
