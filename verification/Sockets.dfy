/** The session table under any interleaving of GetOrCreate, Remove and RemoveAll.
    The map is changed under its lock; sockets are closed after the lock is released. */
module Sockets {
  import opened Basics
  import opened Frames
  import opened Wire

  type Pair = (Key, Key)

  datatype Addr = Addr(ip: int, port: int)

  /** closes counts the calls to Close. */
  datatype Socket = Socket(src: Key, dst: Key, addr: Addr, open: bool, closes: nat)

  /** closing[t]: sessions thread t has unlinked and still has to close, in order. */
  datatype Table = Table(entries: map<Pair, SessId>, sockets: map<SessId, Socket>, closing: map<Tid, seq<SessId>>)

  datatype Op =
    | GetOrCreate(src: Key, dst: Key, addr: Addr, newId: SessId, listenOk: bool)
    | Unlink(tid: Tid, src: Key, dst: Key)
    | UnlinkAll(tid: Tid, src: Key, order: seq<SessId>)
    | CloseNext(tid: Tid)
    | Finish(tid: Tid)

  predicate Linked(t: Table, sid: SessId) {
    sid in t.sockets && var p := (t.sockets[sid].src, t.sockets[sid].dst); p in t.entries && t.entries[p] == sid
  }

  predicate HeldBy(t: Table, sid: SessId, tid: Tid) {
    tid in t.closing && sid in t.closing[tid]
  }

  /** A map is ranged over in any order. */
  predicate IsRange(t: Table, src: Key, order: seq<SessId>) {
    && Distinct(order)
    && (forall p :: p in t.entries && p.0 == src ==> t.entries[p] in order)
    && (forall sid :: sid in order ==> Linked(t, sid) && t.sockets[sid].src == src)
  }

  predicate Can(t: Table, op: Op) {
    match op
    case GetOrCreate(_, _, _, newId, _) => newId !in t.sockets
    case Unlink(tid, _, _) => tid !in t.closing
    case UnlinkAll(tid, src, order) => tid !in t.closing && IsRange(t, src, order)
    case CloseNext(tid) => tid in t.closing && t.closing[tid] != [] && t.closing[tid][0] in t.sockets
    case Finish(tid) => tid in t.closing && t.closing[tid] == []
  }

  function Do(t: Table, op: Op): Table
    requires Can(t, op)
  {
    match op
    case GetOrCreate(src, dst, addr, newId, listenOk) =>
      var p := (src, dst);
      if p in t.entries then
        var sid := t.entries[p];
        if sid in t.sockets then t.(sockets := t.sockets[sid := t.sockets[sid].(addr := addr)]) else t
      else if !listenOk then t
      else t.(entries := t.entries[p := newId], sockets := t.sockets[newId := Socket(src, dst, addr, true, 0)])
    case Unlink(tid, src, dst) =>
      var p := (src, dst);
      if p in t.entries then t.(entries := t.entries - {p}, closing := t.closing[tid := [t.entries[p]]])
      else t.(closing := t.closing[tid := []])
    case UnlinkAll(tid, src, order) =>
      t.(entries := map p | p in t.entries && p.0 != src :: t.entries[p], closing := t.closing[tid := order])
    case CloseNext(tid) =>
      var sid := t.closing[tid][0];
      var k := t.sockets[sid];
      t.(sockets := t.sockets[sid := k.(open := false, closes := k.closes + 1)],
         closing := t.closing[tid := t.closing[tid][1..]])
    case Finish(tid) => t.(closing := t.closing - {tid})
  }

  /** The session a GetOrCreate call returns, if the socket could be opened. */
  function Got(t: Table, op: Op): Option<SessId>
    requires op.GetOrCreate?
  {
    var p := (op.src, op.dst);
    if p in t.entries then Some(t.entries[p]) else if op.listenOk then Some(op.newId) else None
  }

  /** Open sockets are those in the table plus those a thread has unlinked and not yet closed. */
  ghost predicate Conserved(t: Table) {
    && (forall sid :: sid in t.sockets ==>
          (t.sockets[sid].open <==> Linked(t, sid) || exists tid :: HeldBy(t, sid, tid)))
    && (forall sid :: sid in t.sockets ==> t.sockets[sid].closes == if t.sockets[sid].open then 0 else 1)
  }

  ghost predicate TableInv(t: Table) {
    && (forall p :: p in t.entries ==>
          t.entries[p] in t.sockets && t.sockets[t.entries[p]].src == p.0 && t.sockets[t.entries[p]].dst == p.1)
    && (forall tid :: tid in t.closing ==> Distinct(t.closing[tid]))
    && (forall sid, tid :: HeldBy(t, sid, tid) ==> sid in t.sockets && !Linked(t, sid))
    && (forall sid, tid, other :: HeldBy(t, sid, tid) && HeldBy(t, sid, other) ==> tid == other)
    && Conserved(t)
  }

  lemma GetOrCreateKeeps(t: Table, op: Op)
    requires TableInv(t) && Can(t, op) && op.GetOrCreate?
    ensures TableInv(Do(t, op))
  {
    if (op.src, op.dst) !in t.entries && op.listenOk {
      CreateKeeps(t, op);
    } else {
      var t' := Do(t, op);
      assert forall sid, tid :: HeldBy(t', sid, tid) <==> HeldBy(t, sid, tid);
      assert forall sid :: Linked(t', sid) <==> Linked(t, sid);
    }
  }

  lemma CreateKeeps(t: Table, op: Op)
    requires TableInv(t) && Can(t, op) && op.GetOrCreate? && (op.src, op.dst) !in t.entries && op.listenOk
    ensures TableInv(Do(t, op))
  {
    var t' := Do(t, op);
    assert forall sid, tid :: HeldBy(t', sid, tid) <==> HeldBy(t, sid, tid);
    assert forall sid :: sid in t.sockets ==> (Linked(t', sid) <==> Linked(t, sid));
  }

  lemma UnlinkKeeps(t: Table, op: Op)
    requires TableInv(t) && Can(t, op) && op.Unlink?
    ensures TableInv(Do(t, op))
  {
    var t', p := Do(t, op), (op.src, op.dst);
    assert forall sid, tid :: tid != op.tid ==> (HeldBy(t', sid, tid) <==> HeldBy(t, sid, tid));
    assert forall sid :: HeldBy(t', sid, op.tid) <==> p in t.entries && sid == t.entries[p];
    assert forall sid :: Linked(t', sid) <==> Linked(t, sid) && !HeldBy(t', sid, op.tid);
    forall sid | sid in t'.sockets
      ensures t'.sockets[sid].open <==> Linked(t', sid) || exists tid :: HeldBy(t', sid, tid)
    {
      if tid :| HeldBy(t, sid, tid) {
        assert HeldBy(t', sid, tid);
      }
    }
  }

  lemma UnlinkAllKeeps(t: Table, op: Op)
    requires TableInv(t) && Can(t, op) && op.UnlinkAll?
    ensures TableInv(Do(t, op))
  {
    var t' := Do(t, op);
    assert forall sid, tid :: tid != op.tid ==> (HeldBy(t', sid, tid) <==> HeldBy(t, sid, tid));
    assert forall sid :: HeldBy(t', sid, op.tid) <==> sid in op.order;
    assert forall sid :: Linked(t', sid) <==> Linked(t, sid) && t.sockets[sid].src != op.src;
    assert forall sid :: Linked(t, sid) && t.sockets[sid].src == op.src <==> sid in op.order;
    forall sid | sid in t'.sockets
      ensures t'.sockets[sid].open <==> Linked(t', sid) || exists tid :: HeldBy(t', sid, tid)
    {
      if tid :| HeldBy(t, sid, tid) {
        assert HeldBy(t', sid, tid);
      }
    }
  }

  lemma CloseKeeps(t: Table, op: Op)
    requires TableInv(t) && Can(t, op) && op.CloseNext?
    ensures TableInv(Do(t, op))
  {
    var t', list := Do(t, op), t.closing[op.tid];
    var gone := list[0];
    assert HeldBy(t, gone, op.tid);
    assert forall sid :: sid in list[1..] <==> sid in list && sid != gone;
    assert forall sid, tid :: HeldBy(t', sid, tid) <==> HeldBy(t, sid, tid) && sid != gone;
    assert forall sid :: Linked(t', sid) <==> Linked(t, sid);
    forall sid | sid in t'.sockets
      ensures t'.sockets[sid].open <==> Linked(t', sid) || exists tid :: HeldBy(t', sid, tid)
    {
      if sid != gone {
        if tid :| HeldBy(t, sid, tid) {
          assert HeldBy(t', sid, tid);
        }
      }
    }
  }

  lemma FinishKeeps(t: Table, op: Op)
    requires TableInv(t) && Can(t, op) && op.Finish?
    ensures TableInv(Do(t, op))
  {
    var t' := Do(t, op);
    assert forall sid, tid :: HeldBy(t', sid, tid) <==> HeldBy(t, sid, tid);
    assert forall sid :: Linked(t', sid) <==> Linked(t, sid);
  }

  lemma TableStep(t: Table, op: Op)
    requires TableInv(t) && Can(t, op)
    ensures TableInv(Do(t, op))
  {
    match op
    case GetOrCreate(_, _, _, _, _) => GetOrCreateKeeps(t, op);
    case Unlink(_, _, _) => UnlinkKeeps(t, op);
    case UnlinkAll(_, _, _) => UnlinkAllKeeps(t, op);
    case CloseNext(_) => CloseKeeps(t, op);
    case Finish(_) => FinishKeeps(t, op);
  }

  const EMPTY := Table(map[], map[], map[])

  predicate TableRun(t: Table, ops: seq<Op>)
    decreases |ops|
  {
    ops == [] || (Can(t, ops[0]) && TableRun(Do(t, ops[0]), ops[1..]))
  }

  function TableAfter(t: Table, ops: seq<Op>): Table
    requires TableRun(t, ops)
    decreases |ops|
  {
    if ops == [] then t else TableAfter(Do(t, ops[0]), ops[1..])
  }

  lemma {:induction false} TableInvRun(t: Table, ops: seq<Op>)
    requires TableInv(t) && TableRun(t, ops)
    ensures TableInv(TableAfter(t, ops))
    decreases |ops|
  {
    if ops != [] {
      TableStep(t, ops[0]);
      TableInvRun(Do(t, ops[0]), ops[1..]);
    }
  }

  /** Socket conservation over every interleaving; each socket is closed at most once. */
  lemma SocketConservation(ops: seq<Op>)
    requires TableRun(EMPTY, ops)
    ensures var t := TableAfter(EMPTY, ops);
      && Conserved(t)
      && (forall p, q :: p in t.entries && q in t.entries && t.entries[p] == t.entries[q] ==> p == q)
      && (forall sid, tid :: HeldBy(t, sid, tid) ==> !Linked(t, sid))
      && (forall sid :: sid in t.sockets ==> t.sockets[sid].closes <= 1)
      && (t.closing == map[] ==> forall sid :: sid in t.sockets ==> (t.sockets[sid].open <==> Linked(t, sid)))
  {
    TableInvRun(EMPTY, ops);
  }
}
