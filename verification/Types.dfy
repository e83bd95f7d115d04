/** Values shared by every layer: client requests, log entries and the RPC records. */
module Types {

  datatype Option<+T> = None | Some(value: T)

  // ---- client requests and replies (api/kv.go, sm/sm.go)

  datatype Err = OK | ErrNoKey | ErrVersion | ErrMaybe | ErrWrongLeader

  /** `Unknown` stands for any request that is neither a Get nor a Put. */
  datatype Request =
    | Get(key: string)
    | Put(key: string, value: string, version: nat)
    | Unknown

  datatype Reply =
    | GetReply(value: string, version: nat, err: Err)
    | PutReply(err: Err)

  datatype Op = Op(me: nat, id: int, req: Request)

  /** The Go field has type `any`: the sentinel entries carry nil, client entries an `Op`. */
  datatype Command = NoCommand | Command(op: Op)

  datatype Versioned = Versioned(value: string, version: nat)
  type KV = map<string, Versioned>

  /** Snapshot bytes: absent (length zero) or an encoded map. */
  type Snapshot = Option<KV>

  // ---- log

  datatype Entry = Entry(index: nat, term: nat, cmd: Command)
  type Log = seq<Entry>

  const Sentinel: Entry := Entry(0, 0, NoCommand)

  datatype Role = Follower | Candidate | Leader

  // ---- RPC records (raft/raft.go)

  datatype VoteArgs = VoteArgs(term: nat, cand: nat, lastTerm: nat, lastIndex: nat)
  datatype VoteReply = VoteReply(term: nat, granted: bool)

  datatype AppendArgs = AppendArgs(term: nat, leader: nat, prevIndex: nat, prevTerm: nat,
                                   entries: seq<Entry>, leaderCommit: nat)
  datatype AppendReply = AppendReply(term: nat, success: bool, conflictIndex: nat, conflictTerm: int)

  datatype SnapshotArgs = SnapshotArgs(term: nat, leader: nat, lastIndex: nat, lastTerm: nat, data: Snapshot)
  datatype SnapshotReply = SnapshotReply(term: nat)

  datatype ApplyMsg =
    | ApplyCommand(cmd: Command, index: nat)
    | ApplySnapshot(data: Snapshot, term: nat, index: nat)
}
