/** The per-key sequential specification the tests check histories against (internal/testutils/kvmodel.go). */
module KvModel {
  import opened Types
  import opened StoreModel

  /** op 0 is a get, op 1 a put. */
  datatype KvInput = KvInput(op: nat, key: string, value: string, version: nat)
  datatype KvOutput = KvOutput(value: string, version: nat, err: Err)
  datatype KvState = KvState(value: string, version: nat)
  datatype Operation = Operation(input: KvInput, output: KvOutput)

  const Init: KvState := KvState("", 0)

  function Step(st: KvState, inp: KvInput, out: KvOutput): (bool, KvState) {
    if inp.op == 0 then
      if out.err == OK then (out.value == st.value && out.version == st.version, st)
      else if out.err == ErrNoKey then (st.version == 0, st)
      else (true, st)
    else if inp.op == 1 then
      if out.err == OK then
        if st.version == inp.version then (true, KvState(inp.value, st.version + 1)) else (false, st)
      else if out.err == ErrVersion then (st.version != inp.version, st)
      else if out.err == ErrMaybe then
        if st.version == inp.version then (true, KvState(inp.value, st.version + 1)) else (true, st)
      else (true, st)
    else (false, st)
  }

  /** Whether a history is legal from the initial state, and the state it ends in. */
  function Check(h: seq<Operation>): (bool, KvState) {
    if h == [] then (true, Init)
    else
      var (ok, st) := Check(h[..|h| - 1]);
      var (ok', st') := Step(st, h[|h| - 1].input, h[|h| - 1].output);
      (ok && ok', st')
  }

  /** A put that timed out explains whatever really happened: putting ErrMaybe for any put's definite answer
      leaves an accepted history accepted, and ending in the same state. */
  lemma {:induction false} MaybeExplains(h: seq<Operation>, x: nat, value: string, version: nat)
    requires x < |h| && h[x].input.op == 1 && h[x].output.err in {OK, ErrVersion} && Check(h).0
    ensures Check(h[x := h[x].(output := KvOutput(value, version, ErrMaybe))]) == Check(h)
  {
    var h' := h[x := h[x].(output := KvOutput(value, version, ErrMaybe))];
    var n := |h| - 1;
    if x < n {
      MaybeExplains(h[..n], x, value, version);
      assert h'[..n] == h[..n][x := h[x].(output := KvOutput(value, version, ErrMaybe))];
    } else {
      assert h'[..n] == h[..n];
    }
  }

  /** Any other error says nothing: it is always accepted and moves nothing. What is neither get nor put is
      never accepted, and a history once refused stays refused. */
  lemma OtherAnswers(st: KvState, inp: KvInput, out: KvOutput, h: seq<Operation>, o: Operation)
    ensures inp.op == 0 && out.err !in {OK, ErrNoKey} ==> Step(st, inp, out) == (true, st)
    ensures inp.op == 1 && out.err !in {OK, ErrVersion, ErrMaybe} ==> Step(st, inp, out) == (true, st)
    ensures inp.op > 1 ==> Step(st, inp, out) == (false, st)
    ensures Check(h + [o]).0 ==> Check(h).0
  {
    assert (h + [o])[..|h|] == h;
  }

  // ---------------------------------------------------------------- partition

  function OnKey(h: seq<Operation>, key: string): seq<Operation> {
    if h == [] then []
    else if h[|h| - 1].input.key == key then OnKey(h[..|h| - 1], key) + [h[|h| - 1]]
    else OnKey(h[..|h| - 1], key)
  }

  lemma {:induction false} OnKeyHasKey(h: seq<Operation>, key: string)
    ensures forall i | 0 <= i < |OnKey(h, key)| :: OnKey(h, key)[i].input.key == key
  {
    if h != [] { OnKeyHasKey(h[..|h| - 1], key); }
  }

  /** The order of sort.Strings. */
  predicate Before(a: string, b: string) {
    b != [] && (a == [] || a[0] < b[0] || (a[0] == b[0] && Before(a[1..], b[1..])))
  }

  lemma {:induction false} BeforeIsTotal(a: string, b: string)
    ensures a == b || Before(a, b) || Before(b, a)
  {
    if a != [] && b != [] && a[0] == b[0] {
      BeforeIsTotal(a[1..], b[1..]);
      assert a == [a[0]] + a[1..] && b == [b[0]] + b[1..];
    }
  }

  lemma {:induction false} BeforeIsTransitive(a: string, b: string, c: string)
    requires Before(a, b) && Before(b, c)
    ensures Before(a, c)
  {
    if a != [] && a[0] == b[0] == c[0] { BeforeIsTransitive(a[1..], b[1..], c[1..]); }
  }

  method Least(keys: set<string>) returns (least: string)
    requires keys != {}
    ensures least in keys && forall k | k in keys :: k == least || Before(least, k)
  {
    least :| least in keys;
    var todo := keys - {least};
    while todo != {}
      invariant todo <= keys && least in keys - todo
      invariant forall k | k in keys - todo :: k == least || Before(least, k)
      decreases todo
    {
      var k :| k in todo;
      todo := todo - {k};
      BeforeIsTotal(k, least);
      if Before(k, least) {
        forall x | x in keys - todo ensures x == k || Before(k, x) {
          if x != k && x != least { BeforeIsTransitive(k, least, x); }
        }
        least := k;
      }
    }
  }

  ghost predicate HasGroup(groups: seq<seq<Operation>>, key: string) {
    exists g :: 0 <= g < |groups| && groups[g] != [] && groups[g][0].input.key == key
  }

  lemma StillHasGroup(groups: seq<seq<Operation>>, group: seq<Operation>, key: string)
    requires HasGroup(groups, key)
    ensures HasGroup(groups + [group], key)
  {
    var g :| 0 <= g < |groups| && groups[g] != [] && groups[g][0].input.key == key;
    assert (groups + [group])[g] == groups[g];
  }

  /** One group per key that occurs, in the order of the keys, holding that key's operations in order. */
  method Partition(history: seq<Operation>) returns (groups: seq<seq<Operation>>)
    ensures forall g | 0 <= g < |groups| :: groups[g] != [] && groups[g] == OnKey(history, groups[g][0].input.key)
    ensures forall g, h | 0 <= g < h < |groups| :: Before(groups[g][0].input.key, groups[h][0].input.key)
    ensures forall i | 0 <= i < |history| :: HasGroup(groups, history[i].input.key)
  {
    hide OnKey, Before;
    var m := Grouped(history);
    var todo := m.Keys;
    groups := [];
    while todo != {}
      invariant todo <= m.Keys
      invariant forall g | 0 <= g < |groups| ::
                  groups[g] != [] && groups[g][0].input.key in m.Keys - todo
                    && groups[g] == OnKey(history, groups[g][0].input.key)
      invariant forall g, k | 0 <= g < |groups| && k in todo :: Before(groups[g][0].input.key, k)
      invariant forall g, h | 0 <= g < h < |groups| :: Before(groups[g][0].input.key, groups[h][0].input.key)
      invariant forall k | k in m && k !in todo :: HasGroup(groups, k)
      decreases todo
    {
      var key := Least(todo);
      OnKeyHasKey(history, key);
      ghost var before := groups;
      groups := groups + [m[key]];
      assert groups[|before|] == m[key] && HasGroup(groups, key);
      forall k | k in m && k !in todo ensures HasGroup(groups, k) { StillHasGroup(before, m[key], k); }
      todo := todo - {key};
    }
    assert forall i | 0 <= i < |history| :: history[i].input.key in m;
  }

  /** The first loop: operations appended to their key's slice. */
  method Grouped(history: seq<Operation>) returns (m: map<string, seq<Operation>>)
    ensures forall k :: k in m <==> exists i :: 0 <= i < |history| && history[i].input.key == k
    ensures forall k | k in m :: m[k] == OnKey(history, k) && m[k] != []
  {
    m := map[];
    for n := 0 to |history|
      invariant forall k :: k in m <==> exists i :: 0 <= i < n && history[i].input.key == k
      invariant forall k | k in m :: m[k] != []
      invariant forall k :: OnKey(history[..n], k) == if k in m then m[k] else []
    {
      var key := history[n].input.key;
      var before := if key in m then m[key] else [];
      assert history[..n + 1][..n] == history[..n];
      m := m[key := before + [history[n]]];
    }
    assert history[..|history|] == history;
  }

  // ---------------------------------------------------------------- the store refines the specification

  function InputOf(req: Request): KvInput
    requires !req.Unknown?
  {
    match req
    case Get(key) => KvInput(0, key, "", 0)
    case Put(key, value, version) => KvInput(1, key, value, version)
  }

  function OutputOf(reply: Reply): KvOutput {
    match reply
    case GetReply(value, version, err) => KvOutput(value, version, err)
    case PutReply(err) => KvOutput("", 0, err)
  }

  /** One key of the store, as the specification sees it. */
  function Cell(kv: KV, key: string): KvState {
    if key in kv then KvState(kv[key].value, kv[key].version) else Init
  }

  /** Stored versions start at 1, so version 0 means absent. */
  ghost predicate Positive(kv: KV) {
    forall k | k in kv :: kv[k].version > 0
  }

  /** The specification accepts the store's answer and moves with it; other keys do not move. */
  lemma StoreStep(kv: KV, req: Request, key: string)
    requires Positive(kv) && !req.Unknown?
    ensures Positive(DoOp(kv, req).0)
    ensures req.key == key ==>
              Step(Cell(kv, key), InputOf(req), OutputOf(DoOp(kv, req).1)) == (true, Cell(DoOp(kv, req).0, key))
    ensures req.key != key ==> Cell(DoOp(kv, req).0, key) == Cell(kv, key)
  {
  }

  /** Conversely the specification accepts, among definite answers, only the store's answer, except that a
      get on an absent key may also be answered with the empty value at version 0. */
  lemma AcceptedAnswers(kv: KV, req: Request, out: KvOutput)
    requires Positive(kv) && !req.Unknown? && out.err in {OK, ErrNoKey, ErrVersion}
    requires req.Get? ==> out.err != ErrVersion
    requires req.Put? ==> out.err != ErrNoKey
    ensures var answer := OutputOf(DoOp(kv, req).1);
            Step(Cell(kv, req.key), InputOf(req), out).0 <==>
            || (out.err == answer.err && (req.Get? && out.err == OK ==> out == answer))
            || (req.Get? && req.key !in kv && out == KvOutput("", 0, OK))
  {
  }

  /** What the store answered to the operations on `key` among the first n log entries. */
  ghost function Projection(log: Log, n: nat, key: string): seq<Operation>
    requires n <= |log|
  {
    if n == 0 then []
    else if log[n - 1].cmd.Command? && !log[n - 1].cmd.op.req.Unknown? && log[n - 1].cmd.op.req.key == key then
      Projection(log, n - 1, key) + [Operation(InputOf(log[n - 1].cmd.op.req), OutputOf(Answer(log, n - 1)))]
    else Projection(log, n - 1, key)
  }

  /** All the answers along a log, as one history. */
  ghost function History(log: Log, n: nat): seq<Operation>
    requires n <= |log|
  {
    if n == 0 then []
    else if log[n - 1].cmd.Command? && !log[n - 1].cmd.op.req.Unknown? then
      History(log, n - 1) + [Operation(InputOf(log[n - 1].cmd.op.req), OutputOf(Answer(log, n - 1)))]
    else History(log, n - 1)
  }

  /** Partitioning that history gives each key its projection, which the specification accepts. */
  lemma {:induction false} PartitionIsProjection(log: Log, n: nat, key: string)
    requires n <= |log|
    ensures OnKey(History(log, n), key) == Projection(log, n, key)
  {
    if n > 0 {
      PartitionIsProjection(log, n - 1, key);
      if log[n - 1].cmd.Command? && !log[n - 1].cmd.op.req.Unknown? {
        var h, o := History(log, n - 1), Operation(InputOf(log[n - 1].cmd.op.req), OutputOf(Answer(log, n - 1)));
        assert (h + [o])[..|h|] == h;
      }
    }
  }

  lemma {:induction false} ReplayPositive(log: Log, n: nat)
    requires n <= |log|
    ensures Positive(Replay(log, n))
  {
    if n > 0 {
      ReplayPositive(log, n - 1);
      if log[n - 1].cmd.Command? && !log[n - 1].cmd.op.req.Unknown? {
        StoreStep(Replay(log, n - 1), log[n - 1].cmd.op.req, log[n - 1].cmd.op.req.key);
      }
    }
  }

  /** For every log and key, the answers are accepted step by step and end in the stored value. */
  lemma {:induction false} StoreRefinesModel(log: Log, n: nat, key: string)
    requires n <= |log|
    ensures Check(Projection(log, n, key)) == (true, Cell(Replay(log, n), key))
  {
    if n > 0 {
      StoreRefinesModel(log, n - 1, key);
      ReplayPositive(log, n - 1);
      var h := Projection(log, n - 1, key);
      if log[n - 1].cmd.Command? && !log[n - 1].cmd.op.req.Unknown? {
        StoreStep(Replay(log, n - 1), log[n - 1].cmd.op.req, key);
        var o := Operation(InputOf(log[n - 1].cmd.op.req), OutputOf(Answer(log, n - 1)));
        assert (h + [o])[..|h|] == h;
      }
    }
  }
}
