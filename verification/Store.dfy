/** The versioned key-value store (internal/kvserver/store.go) and its replay along a log. */
module StoreModel {
  import opened Types

  function DoOp(kv: KV, req: Request): (KV, Reply) {
    match req
    case Get(key) =>
      if key !in kv then (kv, GetReply("", 0, ErrNoKey))
      else (kv, GetReply(kv[key].value, kv[key].version, OK))
    case Put(key, value, version) =>
      if key !in kv then
        if version != 0 then (kv, PutReply(ErrVersion))
        else (kv[key := Versioned(value, 1)], PutReply(OK))
      else if kv[key].version != version then (kv, PutReply(ErrVersion))
      else (kv[key := Versioned(value, kv[key].version + 1)], PutReply(OK))
    case Unknown => (kv, PutReply(ErrWrongLeader))
  }

  /** Decoding into a live map sets the decoded keys and leaves the others; no bytes mean a reset. */
  function Restored(kv: KV, data: Snapshot): KV {
    match data
    case None => map[]
    case Some(m) => kv + m
  }

  class Store {
    var kv: KV

    constructor ()
      ensures kv == map[]
    {
      kv := map[];
    }

    method Apply(req: Request) returns (reply: Reply)
      modifies this
      ensures (kv, reply) == DoOp(old(kv), req)
    {
      match req
      case Get(key) =>
        if key !in kv {
          return GetReply("", 0, ErrNoKey);
        }
        reply := GetReply(kv[key].value, kv[key].version, OK);
      case Put(key, value, version) =>
        if key !in kv {
          if version != 0 {
            return PutReply(ErrVersion);
          }
          kv := kv[key := Versioned(value, 1)];
          return PutReply(OK);
        }
        var cur := kv[key];
        if cur.version != version {
          return PutReply(ErrVersion);
        }
        kv := kv[key := Versioned(value, cur.version + 1)];
        reply := PutReply(OK);
      case Unknown =>
        reply := PutReply(ErrWrongLeader);
    }

    method TakeSnapshot() returns (data: Snapshot)
      ensures data == Some(kv)
    {
      data := Some(kv);
    }

    /** The decoder walks the encoded map and assigns key by key into the map that is there. */
    method Restore(data: Snapshot)
      modifies this
      ensures kv == Restored(old(kv), data)
    {
      if data.None? {
        kv := map[];
        return;
      }
      var m := data.value;
      var todo := m.Keys;
      while todo != {}
        invariant todo <= m.Keys
        invariant kv.Keys == old(kv).Keys + (m.Keys - todo)
        invariant forall k | k in kv ::
                    kv[k] == if k in m && k !in todo then m[k] else if k in old(kv) then old(kv)[k] else kv[k]
        decreases todo
      {
        var k :| k in todo;
        kv := kv[k := m[k]];
        todo := todo - {k};
      }
      assert kv == old(kv) + m;
    }
  }

  // ---------------------------------------------------------------- replay

  function Run(kv: KV, cmd: Command): KV {
    match cmd
    case NoCommand => kv
    case Command(op) => DoOp(kv, op.req).0
  }

  /** The store after the first n entries of a log. */
  function Replay(log: Log, n: nat): KV
    requires n <= |log|
  {
    if n == 0 then map[] else Run(Replay(log, n - 1), log[n - 1].cmd)
  }

  lemma {:induction false} SameReplay(a: Log, b: Log, n: nat)
    requires n <= |a| && n <= |b| && forall i | 0 <= i < n :: a[i] == b[i]
    ensures Replay(a, n) == Replay(b, n)
  {
    if n > 0 { SameReplay(a, b, n - 1); }
  }

  lemma {:induction false} KeysStay(log: Log, m: nat, n: nat)
    requires m <= n <= |log|
    ensures Replay(log, m).Keys <= Replay(log, n).Keys
  {
    if m < n { KeysStay(log, m, n - 1); }
  }

  /** Merging the snapshot of a longer prefix into the map of a shorter one replaces it. */
  lemma {:induction false} MergeIsReplace(log: Log, m: nat, n: nat)
    requires m <= n <= |log|
    ensures Restored(Replay(log, m), Some(Replay(log, n))) == Replay(log, n)
  {
    KeysStay(log, m, n);
  }

  /** Without the common log the merge is not a replacement: a key absent from the data survives. */
  lemma MergeIsNotReplaceInGeneral(kv: KV, data: KV)
    ensures Restored(kv, Some(data)) == data <==> kv.Keys <= data.Keys
  {
  }

  /** What a key holds after a restore, key by key. */
  lemma RestoredKey(kv: KV, data: Snapshot, key: string)
    ensures var r := Restored(kv, data);
            && (data.None? ==> key !in r)
            && (data.Some? && key in data.value ==> key in r && r[key] == data.value[key])
            && (data.Some? && key !in data.value ==> (key in r <==> key in kv) && (key in r ==> r[key] == kv[key]))
  {
  }

  // ---------------------------------------------------------------- versions

  ghost function Answer(log: Log, i: nat): Reply
    requires i < |log| && log[i].cmd.Command?
  {
    DoOp(Replay(log, i), log[i].cmd.op.req).1
  }

  ghost predicate PutSucceeds(log: Log, i: nat, key: string)
    requires i < |log|
  {
    && log[i].cmd.Command? && log[i].cmd.op.req.Put? && log[i].cmd.op.req.key == key
    && Answer(log, i) == PutReply(OK)
  }

  ghost function Puts(log: Log, n: nat, key: string): nat
    requires n <= |log|
  {
    if n == 0 then 0 else Puts(log, n - 1, key) + if PutSucceeds(log, n - 1, key) then 1 else 0
  }

  function VersionOf(kv: KV, key: string): nat {
    if key in kv then kv[key].version else 0
  }

  /** A key is present exactly when a put on it succeeded, and its version counts those puts. */
  lemma {:induction false} VersionCountsPuts(log: Log, n: nat, key: string)
    requires n <= |log|
    ensures VersionOf(Replay(log, n), key) == Puts(log, n, key)
    ensures key in Replay(log, n) <==> Puts(log, n, key) > 0
  {
    if n > 0 { VersionCountsPuts(log, n - 1, key); }
  }

  /** The last entry before n that put a value on the key, or -1. */
  ghost function LastPut(log: Log, n: nat, key: string): (i: int)
    requires n <= |log|
    ensures -1 <= i < n && (i >= 0 ==> PutSucceeds(log, i, key))
    ensures forall j | i < j < n :: !PutSucceeds(log, j, key)
  {
    if n == 0 then -1 else if PutSucceeds(log, n - 1, key) then n - 1 else LastPut(log, n - 1, key)
  }

  /** A key holds what the last successful put on it wrote, with the number of such puts for a version. */
  lemma {:induction false} StoredByLastPut(log: Log, n: nat, key: string)
    requires n <= |log|
    ensures var kv, i := Replay(log, n), LastPut(log, n, key);
            && (key in kv <==> i >= 0)
            && (i >= 0 ==> kv[key] == Versioned(log[i].cmd.op.req.value, Puts(log, n, key)))
  {
    if n > 0 {
      StoredByLastPut(log, n - 1, key);
      VersionCountsPuts(log, n - 1, key);
    }
  }

  /** Every answer along a log, from the successful puts before it: a get reads the last one, a put succeeds
      exactly when it names their number, and what is neither is refused. */
  lemma AnswerIs(log: Log, i: nat)
    requires i < |log| && log[i].cmd.Command?
    ensures var req := log[i].cmd.op.req;
            && (req.Get? ==>
                  var p := LastPut(log, i, req.key);
                  Answer(log, i) == if p < 0 then GetReply("", 0, ErrNoKey)
                                    else GetReply(log[p].cmd.op.req.value, Puts(log, i, req.key), OK))
            && (req.Put? ==>
                  Answer(log, i) == PutReply(if req.version == Puts(log, i, req.key) then OK else ErrVersion))
            && (req.Unknown? ==> Answer(log, i) == PutReply(ErrWrongLeader))
  {
    if !log[i].cmd.op.req.Unknown? {
      StoredByLastPut(log, i, log[i].cmd.op.req.key);
      VersionCountsPuts(log, i, log[i].cmd.op.req.key);
    }
  }

  /** Along one log, two successful puts on a key never name the same version. */
  lemma {:induction false} PutsNameDistinctVersions(log: Log, i: nat, j: nat, key: string)
    requires i < j < |log| && PutSucceeds(log, i, key) && PutSucceeds(log, j, key)
    ensures log[i].cmd.op.req.version < log[j].cmd.op.req.version
  {
    VersionCountsPuts(log, i, key);
    VersionCountsPuts(log, j, key);
    PutsGrow(log, i + 1, j, key);
  }

  lemma {:induction false} PutsGrow(log: Log, m: nat, n: nat, key: string)
    requires m <= n <= |log|
    ensures Puts(log, m, key) <= Puts(log, n, key)
  {
    if m < n { PutsGrow(log, m, n - 1, key); }
  }
}
