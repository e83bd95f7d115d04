/**
 The replicated-state-machine layer (internal/rsm/rsm.go): the table of waiting clients and the reader
 of the apply channel. What it reads from the Raft object below (is it leader, which term, did Start
 accept) is passed in; a result sent on a waiter's channel becomes an element of `outbox`.
 */
module RsmModel {
  import opened Types
  import opened StoreModel

  datatype Pending = Pending(id: int, term: nat)
  type Table = map<nat, Pending>

  /** `Done` makes Submit return OK with the value; `Retry` (the result with id -1) makes it return ErrWrongLeader. */
  datatype Outcome = Done(val: Reply) | Retry
  datatype Sent = Sent(id: int, index: nat, outcome: Outcome)

  predicate Stale(e: Pending, i: nat, index: nat, isLeader: bool, term: nat) {
    i <= index || !isLeader || e.term != term
  }

  function Outdated(pending: Table, index: nat, isLeader: bool, term: nat): (Table, set<Sent>) {
    (map i | i in pending && !Stale(pending[i], i, index, isLeader, term) :: pending[i],
     set i | i in pending && Stale(pending[i], i, index, isLeader, term) :: Sent(pending[i].id, i, Retry))
  }

  function ResultFor(e: Pending, index: nat, id: int, val: Reply, wasLeader: bool): Sent {
    Sent(e.id, index, if wasLeader && e.id == id then Done(val) else Retry)
  }

  /** The leadership is read twice: once for the waiter at `index`, once for the outdated ones. */
  function Notified(pending: Table, index: nat, id: int, val: Reply,
                    wasLeader: bool, isLeader: bool, term: nat): (Table, set<Sent>) {
    if index in pending then
      var (rest, sent) := Outdated(pending - {index}, index, isLeader, term);
      (rest, sent + {ResultFor(pending[index], index, id, val, wasLeader)})
    else Outdated(pending, index, isLeader, term)
  }

  /** After index i was handled, or a snapshot up to i restored, exactly those still wait who wait above i on
      a leader in the term they submitted in. */
  lemma WhoRemains(pending: Table, index: nat, id: int, val: Reply, wasLeader: bool, isLeader: bool, term: nat, i: nat)
    requires i in pending
    ensures var stays := i > index && isLeader && pending[i].term == term;
            && (i in Notified(pending, index, id, val, wasLeader, isLeader, term).0 <==> stays)
            && (i in Outdated(pending, index, isLeader, term).0 <==> stays)
  {
  }

  /** On a server that does not lead nobody is left waiting, and everybody who was is told to try again. */
  lemma NobodyWaits(pending: Table, index: nat, id: int, val: Reply, term: nat)
    ensures var (rest, sent) := Notified(pending, index, id, val, false, false, term);
            rest == map[] && forall i | i in pending :: Sent(pending[i].id, i, Retry) in sent
    ensures var (rest, sent) := Outdated(pending, index, false, term);
            rest == map[] && forall i | i in pending :: Sent(pending[i].id, i, Retry) in sent
  {
    var sent := Notified(pending, index, id, val, false, false, term).1;
    forall i | i in pending ensures Sent(pending[i].id, i, Retry) in sent {
      if i == index {
        assert ResultFor(pending[i], i, id, val, false) in sent;
      } else {
        assert i in pending - {index} && Stale((pending - {index})[i], i, index, false, term);
      }
    }
  }

  /** After index i was handled nobody waits at or below i; whoever left the table was sent a result and
      whoever stays was not; a value only goes to the waiter of the applied operation. */
  lemma TableAfterNotify(pending: Table, index: nat, id: int, val: Reply, wasLeader: bool, isLeader: bool, term: nat)
    ensures var (rest, sent) := Notified(pending, index, id, val, wasLeader, isLeader, term);
            && (forall i | i in rest :: i > index && i in pending && rest[i] == pending[i])
            && (forall i | i in pending :: i in rest <==> !exists o :: Sent(pending[i].id, i, o) in sent)
            && (forall s | s in sent :: s.index in pending && pending[s.index].id == s.id)
            && (forall s | s in sent && s.outcome.Done? :: s.index == index && s.id == id && s.outcome.val == val)
            && (forall s, t | s in sent && t in sent && s.index == t.index :: s == t)
  {
    var (rest, sent) := Notified(pending, index, id, val, wasLeader, isLeader, term);
    forall i | i in pending ensures i in rest <==> !exists o :: Sent(pending[i].id, i, o) in sent {
      if i !in rest {
        if i == index {
          var s := ResultFor(pending[index], index, id, val, wasLeader);
          assert Sent(pending[i].id, i, s.outcome) in sent;
        } else {
          assert Sent(pending[i].id, i, Retry) in sent;
        }
      }
    }
  }

  class RSM {
    var pending: Table
    var lastApplied: nat
    var outbox: seq<Sent>
    const store: Store

    constructor (store: Store)
      ensures pending == map[] && lastApplied == 0 && outbox == [] && this.store == store
    {
      this.store := store;
      pending, lastApplied, outbox := map[], 0, [];
    }

    /** The part of Submit under the lock, after Start answered `started`. */
    method Register(id: int, started: Option<(nat, nat)>) returns (waiting: bool)
      modifies `pending
      ensures waiting == started.Some?
      ensures pending == if started.Some? then old(pending)[started.value.0 := Pending(id, started.value.1)]
              else old(pending)
    {
      if started.None? {
        return false;
      }
      pending := pending[started.value.0 := Pending(id, started.value.1)];
      waiting := true;
    }

    /** A waiter that returns for whatever reason deletes the entry at its index. */
    method Forget(index: nat)
      modifies `pending
      ensures pending == old(pending) - {index}
    {
      pending := pending - {index};
    }

    /** Walks the table in any order; every outdated waiter is sent exactly one result. */
    method NotifyOutdated(index: nat, isLeader: bool, term: nat)
      modifies `pending, `outbox
      ensures pending == Outdated(old(pending), index, isLeader, term).0
      ensures old(outbox) <= outbox
      ensures (set s | s in outbox[|old(outbox)|..]) == Outdated(old(pending), index, isLeader, term).1
      ensures forall j, k | |old(outbox)| <= j < k < |outbox| :: outbox[j].index != outbox[k].index
    {
      var todo := pending.Keys;
      while todo != {}
        invariant todo <= old(pending).Keys
        invariant pending == map i | i in old(pending)
                  && (i in todo || !Stale(old(pending)[i], i, index, isLeader, term)) :: old(pending)[i]
        invariant old(outbox) <= outbox
        invariant forall j | |old(outbox)| <= j < |outbox| ::
                    var i := outbox[j].index;
                    i in old(pending) && i !in todo && Stale(old(pending)[i], i, index, isLeader, term)
                      && outbox[j] == Sent(old(pending)[i].id, i, Retry)
        invariant forall i | i in old(pending) && i !in todo && Stale(old(pending)[i], i, index, isLeader, term) ::
                    Sent(old(pending)[i].id, i, Retry) in outbox[|old(outbox)|..]
        invariant forall j, k | |old(outbox)| <= j < k < |outbox| :: outbox[j].index != outbox[k].index
        decreases todo
      {
        var idx: nat :| idx in todo;
        todo := todo - {idx};
        var entry := pending[idx];
        if idx <= index || !isLeader || entry.term != term {
          ghost var before := outbox[|old(outbox)|..];
          outbox := outbox + [Sent(entry.id, idx, Retry)];
          pending := pending - {idx};
          assert outbox[|old(outbox)|..] == before + [Sent(entry.id, idx, Retry)];
        }
      }
    }

    method NotifyPending(index: nat, id: int, val: Reply, wasLeader: bool, isLeader: bool, term: nat)
      modifies `pending, `outbox
      ensures pending == Notified(old(pending), index, id, val, wasLeader, isLeader, term).0
      ensures old(outbox) <= outbox
      ensures (set s | s in outbox[|old(outbox)|..]) ==
              Notified(old(pending), index, id, val, wasLeader, isLeader, term).1
    {
      if index in pending {
        var entry := pending[index];
        if wasLeader && entry.id == id {
          outbox := outbox + [Sent(entry.id, index, Done(val))];
        } else {
          outbox := outbox + [Sent(entry.id, index, Retry)];
        }
        pending := pending - {index};
      }
      label mid:
      NotifyOutdated(index, isLeader, term);
      assert outbox[|old(outbox)|..] == old@mid(outbox)[|old(outbox)|..] + outbox[|old@mid(outbox)|..];
    }

    /** The reader's case for a snapshot. */
    method HandleSnapshot(data: Snapshot, index: nat, isLeader: bool, term: nat)
      modifies this, store
      ensures store.kv == Restored(old(store.kv), data) && lastApplied == index
      ensures pending == Outdated(old(pending), index, isLeader, term).0
      ensures old(outbox) <= outbox
      ensures (set s | s in outbox[|old(outbox)|..]) == Outdated(old(pending), index, isLeader, term).1
    {
      store.Restore(data);
      lastApplied := index;
      NotifyOutdated(index, isLeader, term);
    }

    /** The reader's case for a command, up to the point where the waiters are notified. */
    method ApplyCommand(cmd: Command, index: nat) returns (val: Option<Reply>)
      modifies this, store
      ensures pending == old(pending) && outbox == old(outbox)
      ensures if cmd.NoCommand? || index <= old(lastApplied) then
                val == None && store.kv == old(store.kv) && lastApplied == old(lastApplied)
              else
                var (kv, reply) := DoOp(old(store.kv), cmd.op.req);
                val == Some(reply) && store.kv == kv && lastApplied == index
    {
      if cmd.NoCommand? {
        return None;
      }
      if index <= lastApplied {
        return None;
      }
      lastApplied := index;
      var r := store.Apply(cmd.op.req);
      val := Some(r);
    }
  }
}
