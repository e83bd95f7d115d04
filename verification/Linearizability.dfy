/**
 Linearizability of the clients' own history: what was submitted, when, and what was answered OK, when. The
 sequential object is the per-key specification the repository's tests use (internal/testutils/kvmodel.go).
 */
module Linearizability {
  import opened Types
  import opened StoreModel
  import opened RsmModel
  import opened SystemModel
  import opened Protocol
  import opened Relation
  import opened Runs
  import opened Theorems

  /** An operation that took effect, and the reply of its effect. */
  datatype Effect = Effect(id: int, req: Request, reply: Reply)

  /** The effects on one key among the first n, as the specification sees them. */
  ghost function OnKey(lin: seq<Effect>, n: nat, key: string): seq<KvModel.Operation>
    requires n <= |lin|
  {
    if n == 0 then []
    else if !lin[n - 1].req.Unknown? && lin[n - 1].req.key == key then
      OnKey(lin, n - 1, key) + [KvModel.Operation(KvModel.InputOf(lin[n - 1].req), KvModel.OutputOf(lin[n - 1].reply))]
    else OnKey(lin, n - 1, key)
  }

  ghost predicate Shows(lin: seq<Effect>, x: int, id: int, reply: Reply) {
    0 <= x < |lin| && lin[x].id == id && lin[x].reply == reply
  }

  /** A was answered OK at or before state j, and B had not been submitted by then. */
  ghost predicate Precedes(run: seq<System>, j: nat, a: int, b: int)
    requires j < |run|
  {
    (exists r :: r in run[j].answers && r.outcome.Done? && r.id == a) && b !in run[j].submitted
  }

  /** One sequence of effects explains the history up to state k. It holds only requests as they were
      submitted, none of them twice; every OK answer is the reply of its effect; an operation that was
      answered before another was submitted comes before it; and key by key it is legal. Operations without
      an OK answer may be in it or not. */
  ghost predicate Linearizes(lin: seq<Effect>, run: seq<System>, k: nat)
    requires k < |run|
  {
    && (forall x, y | 0 <= x < |lin| && 0 <= y < |lin| && lin[x].id == lin[y].id :: x == y)
    && (forall x | 0 <= x < |lin| :: lin[x].id in run[k].submitted && run[k].submitted[lin[x].id].req == lin[x].req)
    && (forall a | a in run[k].answers && a.outcome.Done? :: exists x :: Shows(lin, x, a.id, a.outcome.val))
    && (forall j, x, y | 0 <= j <= k && 0 <= x < |lin| && 0 <= y < |lin| && Precedes(run, j, lin[x].id, lin[y].id) ::
          x < y)
    && (forall key :: KvModel.Check(OnKey(lin, |lin|, key)).0)
  }

  /** Every run is linearizable, at every moment, and no operation ever changes its place: the sequences grow. */
  lemma Linearizable(run: seq<System>) returns (lins: seq<seq<Effect>>)
    requires IsRun(run)
    ensures |lins| == |run|
    ensures forall k | 0 <= k < |run| :: Linearizes(lins[k], run, k)
    ensures forall j, k | 0 <= j <= k < |run| :: lins[j] <= lins[k]
  {
    hide IsRun, Linearizes, CommittedLog, Explains;
    forall k | 0 <= k < |run| ensures AllOps(CommittedLog(run, k)) { CommittedOps(run, k); }
    lins := seq(|run|, k requires 0 <= k < |run| && AllOps(CommittedLog(run, k)) => Effects(CommittedLog(run, k)));
    forall k | 0 <= k < |run| ensures Linearizes(lins[k], run, k) { EffectsLinearize(run, k); }
    forall j, k | 0 <= j <= k < |run| ensures lins[j] <= lins[k] {
      CommittedGrows(run, j, k);
      EffectsGrow(CommittedLog(run, j), CommittedLog(run, k));
    }
  }

  // ---------------------------------------------------------------- the committed log as a sequence of effects

  /** After the sentinel a log holds operations. */
  ghost predicate AllOps(log: Log) {
    1 <= |log| && log[0].cmd.NoCommand? && forall x | 1 <= x < |log| :: log[x].cmd.Command?
  }

  ghost function Effects(log: Log): (lin: seq<Effect>)
    requires AllOps(log)
    ensures |lin| == |log| - 1
  {
    seq(|log| - 1, x requires 0 <= x < |log| - 1 =>
      assert log[x + 1].cmd.Command?; Effect(log[x + 1].cmd.op.id, log[x + 1].cmd.op.req, Answer(log, x + 1)))
  }

  lemma CommittedOps(run: seq<System>, k: nat)
    requires IsRun(run) && k < |run|
    ensures AllOps(CommittedLog(run, k))
    ensures forall x | 1 <= x < |CommittedLog(run, k)| :: EntryOk(CommittedLog(run, k)[x], x, run[k].submitted)
  {
    hide IsRun, Inv, Rel, Explains;
    WorldFacts(run, k);
    var w := Worlds(run)[k];
    ChosenSentinel(w);
    forall x | 1 <= x < |w.chosen| ensures EntryOk(w.chosen[x], x, run[k].submitted) { ChosenOp(w, run[k], x); }
  }

  lemma EffectsGrow(log: Log, log': Log)
    requires AllOps(log) && AllOps(log') && log <= log'
    ensures Effects(log) <= Effects(log')
  {
    forall x | 0 <= x < |log| - 1 ensures Effects(log)[x] == Effects(log')[x] {
      assert log[x + 1] == log'[x + 1] && log[x + 1].cmd.Command?;
      AnswerSame(log, log', x + 1);
    }
  }

  lemma {:induction false} OnKeyIsProjection(log: Log, n: nat, key: string)
    requires AllOps(log) && n < |log|
    ensures OnKey(Effects(log), n, key) == KvModel.Projection(log, n + 1, key)
  {
    hide KvModel.InputOf, KvModel.OutputOf, Answer;
    if n > 0 {
      OnKeyIsProjection(log, n - 1, key);
      assert log[n].cmd.Command?;
    } else {
      assert KvModel.Projection(log, 0, key) == [];
    }
  }

  lemma EffectsLegal(log: Log, key: string)
    requires AllOps(log)
    ensures KvModel.Check(OnKey(Effects(log), |log| - 1, key)).0
  {
    OnKeyIsProjection(log, |log| - 1, key);
    KvModel.StoreRefinesModel(log, |log|, key);
  }

  /** An answered operation stands in the committed log at the index it was answered from. */
  lemma AnsweredPlace(run: seq<System>, j: nat, k: nat, a: Sent, x: nat)
    requires IsRun(run) && j <= k < |run| && a in run[j].answers && a.outcome.Done?
    requires 1 <= x < |CommittedLog(run, k)| && CommittedLog(run, k)[x].cmd.Command?
    requires CommittedLog(run, k)[x].cmd.op.id == a.id
    ensures x == a.index < |CommittedLog(run, j)|
  {
    hide IsRun, CommittedLog, ReplaysLog, HasPrefix, DeliveryOk, Answer;
    var log, log' := CommittedLog(run, j), CommittedLog(run, k);
    assert Explains(log, run[j]) && Explains(log', run[k]);
    CommittedGrows(run, j, k);
    assert AnsweredFrom(log, run[j], a);
    assert log'[a.index] == log[a.index];
  }

  lemma InOrder(run: seq<System>, j: nat, k: nat, x: nat, y: nat)
    requires IsRun(run) && j <= k < |run| && AllOps(CommittedLog(run, k))
    requires x < |Effects(CommittedLog(run, k))| && y < |Effects(CommittedLog(run, k))|
    requires Precedes(run, j, Effects(CommittedLog(run, k))[x].id, Effects(CommittedLog(run, k))[y].id)
    ensures x < y
  {
    hide IsRun, CommittedLog, Explains, Answer;
    var log, log' := CommittedLog(run, j), CommittedLog(run, k);
    var a :| a in run[j].answers && a.outcome.Done? && a.id == Effects(log')[x].id;
    assert log'[x + 1].cmd.Command? && log'[y + 1].cmd.Command?;
    AnsweredPlace(run, j, k, a, x + 1);
    SubmittedByThen(run, j, k, y + 1);
  }

  /** What stood in the committed log at state j had been submitted by then. */
  lemma SubmittedByThen(run: seq<System>, j: nat, k: nat, x: nat)
    requires IsRun(run) && j <= k < |run| && 1 <= x < |CommittedLog(run, k)| && CommittedLog(run, k)[x].cmd.Command?
    ensures x < |CommittedLog(run, j)| ==> CommittedLog(run, k)[x].cmd.op.id in run[j].submitted
  {
    hide IsRun, CommittedLog, Explains;
    CommittedGrows(run, j, k);
    CommittedOps(run, j);
    if x < |CommittedLog(run, j)| {
      assert CommittedLog(run, k)[x] == CommittedLog(run, j)[x];
      assert EntryOk(CommittedLog(run, j)[x], x, run[j].submitted);
    }
  }

  lemma AnswersShown(run: seq<System>, k: nat, a: Sent)
    requires IsRun(run) && k < |run| && AllOps(CommittedLog(run, k)) && a in run[k].answers && a.outcome.Done?
    ensures var lin := Effects(CommittedLog(run, k));
            exists x :: Shows(lin, x, a.id, a.outcome.val)
  {
    hide IsRun, CommittedLog, ReplaysLog, HasPrefix, DeliveryOk, Answer;
    var log := CommittedLog(run, k);
    assert Explains(log, run[k]);
    assert AnsweredFrom(log, run[k], a);
    var lin, x := Effects(log), a.index - 1;
    assert Shows(lin, x, a.id, a.outcome.val);
  }

  lemma EffectsLinearize(run: seq<System>, k: nat)
    requires IsRun(run) && k < |run| && AllOps(CommittedLog(run, k))
    ensures Linearizes(Effects(CommittedLog(run, k)), run, k)
  {
    hide IsRun, CommittedLog, Explains, Shows, Precedes, Answer, OnKey, KvModel.Check;
    var log := CommittedLog(run, k);
    var lin := Effects(log);
    CommittedOps(run, k);
    forall x | 0 <= x < |lin|
      ensures lin[x].id in run[k].submitted && run[k].submitted[lin[x].id].req == lin[x].req
      ensures run[k].submitted[lin[x].id].index == x + 1
    {
      assert EntryOk(log[x + 1], x + 1, run[k].submitted);
    }
    forall a | a in run[k].answers && a.outcome.Done?
      ensures exists x :: Shows(lin, x, a.id, a.outcome.val)
    {
      AnswersShown(run, k, a);
    }
    forall j, x, y | 0 <= j <= k && 0 <= x < |lin| && 0 <= y < |lin| && Precedes(run, j, lin[x].id, lin[y].id)
      ensures x < y
    {
      InOrder(run, j, k, x, y);
    }
    forall key ensures KvModel.Check(OnKey(lin, |lin|, key)).0 { EffectsLegal(log, key); }
  }
}
