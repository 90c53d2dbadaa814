/** Where datagrams go: only to addresses that the endpoint cache gave for their destination. */
module RelayAddresses {
  import opened Basics
  import opened Frames
  import opened Wire
  import opened Sockets
  import opened Relay
  import opened RelayInv
  import opened RelaySteps
  import opened RelayFifo
  import opened RelayTheorems

  predicate Resolves(s: RState, step: RStep, dst: Key, addr: Addr) {
    && step.Resolve? && step.found == Some(addr)
    && step.c in s.conns && s.conns[step.c].pc.Resolving? && s.conns[step.c].pc.dest == dst
  }

  /** The run contains an answer of the cache that names the address for the key. */
  predicate Resolved(s: RState, steps: seq<RStep>, dst: Key, addr: Addr)
    requires RRun(s, steps)
    decreases |steps|
  {
    steps != [] && (Resolves(s, steps[0], dst, addr) || Resolved(RApply(s, steps[0]), steps[1..], dst, addr))
  }

  predicate AtSocket(s: RState, sid: SessId, dst: Key, addr: Addr) {
    sid in s.table.sockets && s.table.sockets[sid].dst == dst && s.table.sockets[sid].addr == addr
  }

  predicate AtLink(s: RState, c: ConnId, dst: Key, addr: Addr) {
    c in s.conns && s.conns[c].pc.Linking? && s.conns[c].pc.dest == dst && s.conns[c].pc.addr == addr
  }

  predicate InDatagram(s: RState, u: nat, dst: Key, addr: Addr) {
    && u < |s.udp| && s.udp[u].addr == addr
    && s.udp[u].sid in s.table.sockets && s.table.sockets[s.udp[u].sid].dst == dst
  }

  ghost predicate InUse(s: RState, dst: Key, addr: Addr) {
    || (exists sid :: AtSocket(s, sid, dst, addr)) || (exists c :: AtLink(s, c, dst, addr))
    || (exists u :: InDatagram(s, u, dst, addr))
  }

  lemma TableNow(s: RState, step: RStep)
    requires REnabled(s, step)
    ensures RApply(s, step).table == match TableOp(s, step) case Some(op) => Do(s.table, op) case None => s.table
  {
  }

  lemma SocketBack(t: Table, op: Op, sid: SessId)
    requires TableInv(t) && Can(t, op) && sid in Do(t, op).sockets
    ensures var k := Do(t, op).sockets[sid];
      || (sid in t.sockets && t.sockets[sid].dst == k.dst && t.sockets[sid].addr == k.addr)
      || (op.GetOrCreate? && op.dst == k.dst && op.addr == k.addr)
  {
  }

  lemma AtSocketBack(s: RState, step: RStep, sid: SessId, dst: Key, addr: Addr)
    requires TableInv(s.table) && REnabled(s, step) && AtSocket(RApply(s, step), sid, dst, addr)
    ensures InUse(s, dst, addr)
  {
    TableNow(s, step);
    if AtSocket(s, sid, dst, addr) {
      return;
    }
    SocketBack(s.table, TableOp(s, step).value, sid);
    assert AtLink(s, step.c, dst, addr);
  }

  lemma AtLinkBack(s: RState, step: RStep, c: ConnId, dst: Key, addr: Addr)
    requires REnabled(s, step) && AtLink(RApply(s, step), c, dst, addr)
    ensures AtLink(s, c, dst, addr) || Resolves(s, step, dst, addr)
  {
  }

  lemma OldSocket(s: RState, step: RStep, sid: SessId, dst: Key)
    requires REnabled(s, step) && sid in s.table.sockets
    requires sid in RApply(s, step).table.sockets && RApply(s, step).table.sockets[sid].dst == dst
    ensures s.table.sockets[sid].dst == dst
  {
    TableNow(s, step);
    if TableOp(s, step).Some? {
      SocketsGrow(s.table, TableOp(s, step).value, sid);
    }
  }

  lemma InDatagramBack(s: RState, step: RStep, u: nat, dst: Key, addr: Addr)
    requires UdpInv(s) && REnabled(s, step) && InDatagram(RApply(s, step), u, dst, addr)
    ensures InUse(s, dst, addr)
  {
    UdpAfter(s, step);
    if u < |s.udp| {
      assert UdpOk(s, s.udp[u]);
      OldSocket(s, step, s.udp[u].sid, dst);
      assert InDatagram(s, u, dst, addr);
    } else {
      OldSocket(s, step, s.conns[step.c].pc.sid, dst);
      assert AtSocket(s, s.conns[step.c].pc.sid, dst, addr);
    }
  }

  lemma InUseBack(s: RState, step: RStep, dst: Key, addr: Addr)
    requires RInv(s) && REnabled(s, step) && InUse(RApply(s, step), dst, addr)
    ensures InUse(s, dst, addr) || Resolves(s, step, dst, addr)
  {
    var s' := RApply(s, step);
    if sid :| AtSocket(s', sid, dst, addr) {
      AtSocketBack(s, step, sid, dst, addr);
    } else if c :| AtLink(s', c, dst, addr) {
      AtLinkBack(s, step, c, dst, addr);
    } else {
      var u :| InDatagram(s', u, dst, addr);
      InDatagramBack(s, step, u, dst, addr);
    }
  }

  lemma {:induction false} InUseRun(s: RState, steps: seq<RStep>, dst: Key, addr: Addr)
    requires RInv(s) && RRun(s, steps) && InUse(RAfter(s, steps), dst, addr) && !InUse(s, dst, addr)
    ensures Resolved(s, steps, dst, addr)
    decreases |steps|
  {
    if steps != [] {
      InvariantStep(s, steps[0]);
      if InUse(RApply(s, steps[0]), dst, addr) {
        InUseBack(s, steps[0], dst, addr);
      } else {
        InUseRun(RApply(s, steps[0]), steps[1..], dst, addr);
      }
    }
  }

  lemma NothingInUse(serverKey: Key)
    ensures RInv(Boot(serverKey)) && forall dst, addr :: !InUse(Boot(serverKey), dst, addr)
  {
  }

  /** The address of a session, and that of every datagram ever sent for it, is one that the endpoint cache gave for
      the session's destination key. */
  lemma OnlyResolvedAddresses(serverKey: Key, steps: seq<RStep>)
    requires RRun(Boot(serverKey), steps)
    ensures var s := Reached(serverKey, steps);
      && (forall sid :: sid in s.table.sockets ==>
            Resolved(Boot(serverKey), steps, s.table.sockets[sid].dst, s.table.sockets[sid].addr))
      && (forall u :: 0 <= u < |s.udp| ==>
            s.udp[u].sid in s.table.sockets &&
            Resolved(Boot(serverKey), steps, s.table.sockets[s.udp[u].sid].dst, s.udp[u].addr))
  {
    var s := Reached(serverKey, steps);
    NothingInUse(serverKey);
    ReachedInv(serverKey, steps);
    forall sid | sid in s.table.sockets
      ensures Resolved(Boot(serverKey), steps, s.table.sockets[sid].dst, s.table.sockets[sid].addr)
    {
      assert AtSocket(s, sid, s.table.sockets[sid].dst, s.table.sockets[sid].addr);
      InUseRun(Boot(serverKey), steps, s.table.sockets[sid].dst, s.table.sockets[sid].addr);
    }
    forall u | 0 <= u < |s.udp|
      ensures s.udp[u].sid in s.table.sockets
      ensures Resolved(Boot(serverKey), steps, s.table.sockets[s.udp[u].sid].dst, s.udp[u].addr)
    {
      assert UdpOk(s, s.udp[u]);
      assert InDatagram(s, u, s.table.sockets[s.udp[u].sid].dst, s.udp[u].addr);
      InUseRun(Boot(serverKey), steps, s.table.sockets[s.udp[u].sid].dst, s.udp[u].addr);
    }
  }
}
