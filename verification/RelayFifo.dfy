/** Relayed frames: nothing is relayed twice, out of order, altered, or to the wrong key. */
module RelayFifo {
  import opened Basics
  import opened Wire
  import opened Relay
  import opened RelayInv
  import opened RelaySteps
  import opened RelayCalls

  // ---- bounds only rise ----

  /** Whether a goroutine is before the lock with a packet of its own. */
  predicate Hands(w: Wire.State, t: Tid) {
    t in w.sends && w.sends[t].stage == Waiting && w.sends[t].entry.origin.Local?
  }

  predicate Holding(pc: Pc) {
    pc.Routing? || pc.Resolving? || pc.Linking? || pc.UdpOut?
  }

  lemma HandsMove(w: Wire.State, m: Wire.Step, t: Tid)
    requires Wire.Enabled(w, m) && Hands(Wire.Apply(w, m), t)
    ensures Hands(w, t) || (m.Begin? && m.tid == t && m.entry.origin.Local?)
  {
  }

  /** A handler comes to hold a packet only by taking it or by carrying it on. */
  lemma HoldingStep(s: RState, step: RStep)
    requires LocallyEnabled(s, step) && ConnOf(s, step).Some? && !step.Accept?
    ensures var k, k' := s.conns[step.c], ConnAfter(s, step);
      && k'.popped >= k.popped
      && (Holding(k'.pc) ==> Holding(k.pc) || k'.popped == k.popped + 1)
  {
  }

  lemma NewHands(s: RState, step: RStep, c: ConnId)
    requires REnabled(s, step) && Hands(RApply(s, step).wire, Handler(c))
    ensures Hands(s.wire, Handler(c)) || (step.Lookup? && step.c == c && s.conns[c].pc.Routing?)
  {
    WireAfter(s, step);
    if WireMove(s, step).Some? {
      HandsMove(s.wire, WireMove(s, step).value, Handler(c));
    }
  }

  lemma ConnAdvance(s: RState, step: RStep, c: ConnId)
    requires REnabled(s, step) && c in s.conns
    ensures c in RApply(s, step).conns
    ensures var k, k' := s.conns[c], RApply(s, step).conns[c];
      && k'.popped >= k.popped
      && (Holding(k'.pc) ==> Holding(k.pc) || k'.popped == k.popped + 1)
  {
    if ConnOf(s, step) == Some(c) {
      HoldingStep(s, step);
    }
  }

  lemma UnsentStep(s: RState, step: RStep, c: ConnId)
    requires REnabled(s, step) && c in s.conns && c in RApply(s, step).conns && Unsent(RApply(s, step), c)
    ensures Unsent(s, c) || RApply(s, step).conns[c].popped == s.conns[c].popped + 1
  {
    ConnAdvance(s, step, c);
    if Hands(RApply(s, step).wire, Handler(c)) {
      NewHands(s, step, c);
    }
  }

  lemma ConnBound(s: RState, step: RStep, c: ConnId, n: nat)
    requires REnabled(s, step) && c in s.conns
    ensures Bound(s, Local(c, n)) <= Bound(RApply(s, step), Local(c, n))
  {
    ConnAdvance(s, step, c);
    if Unsent(RApply(s, step), c) {
      UnsentStep(s, step, c);
    }
  }

  lemma WaitMove(w: Wire.State, m: Wire.Step, t: Tid)
    requires Wire.Enabled(w, m) && t in Wire.Apply(w, m).sends && Wire.Apply(w, m).sends[t].stage == Waiting
    ensures (t in w.sends && w.sends[t].stage == Waiting) || (m.Begin? && m.tid == t)
  {
  }

  lemma LoopCalls(s: RState, step: RStep, sid: SessId)
    requires REnabled(s, step) && WireMove(s, step).Some? && WireMove(s, step).value.Begin?
    requires WireMove(s, step).value.tid == Loop(sid)
    ensures step.Receive? && step.sid == sid
  {
  }

  lemma NewLoopWait(s: RState, step: RStep, sid: SessId)
    requires REnabled(s, step) && WaitingOn(RApply(s, step), Loop(sid))
    ensures WaitingOn(s, Loop(sid)) || (step.Receive? && step.sid == sid)
  {
    WireAfter(s, step);
    if WireMove(s, step).Some? {
      WaitMove(s.wire, WireMove(s, step).value, Loop(sid));
      if !WaitingOn(s, Loop(sid)) {
        LoopCalls(s, step, sid);
      }
    }
  }

  lemma LoopAdvance(s: RState, step: RStep, sid: SessId)
    requires LocallyEnabled(s, step) && sid in s.loops
    ensures sid in LoopsAfter(s, step)
    ensures var l, l' := s.loops[sid], LoopsAfter(s, step)[sid];
      |l'.got| == if step.Receive? && step.sid == sid then |l.got| + 1 else |l.got|
  {
  }

  lemma LoopBound(s: RState, step: RStep, sid: SessId, n: nat)
    requires REnabled(s, step) && sid in s.loops
    ensures Bound(s, Reply(sid, n)) <= Bound(RApply(s, step), Reply(sid, n))
  {
    LoopAdvance(s, step, sid);
    if WaitingOn(RApply(s, step), Loop(sid)) {
      NewLoopWait(s, step, sid);
    }
  }

  lemma BelowKept(s: RState, step: RStep, d: ConnId, e: Entry)
    requires BasicInv(s) && REnabled(s, step) && Grows(s, RApply(s, step))
    requires OriginOk(s, d, e) && Below(s, e.origin)
    ensures OriginOk(RApply(s, step), d, e) && Below(RApply(s, step), e.origin)
  {
    OriginGrows(s, RApply(s, step), d, e);
    match e.origin
    case Control =>
    case Local(c, n) => ConnBound(s, step, c, n);
    case Reply(sid, n) => LoopBound(s, step, sid, n);
  }

  // ---- locking appends the newest item ----

  /** At the lock the item is at its source's bound, so everything relayed before is smaller. */
  lemma AtBound(s: RState, t: Tid)
    requires t in s.wire.sends && CallInv(s, t) && s.wire.sends[t].stage == Waiting
    ensures var o := s.wire.sends[t].entry.origin; o.Control? || o.index == Bound(s, o)
  {
  }

  lemma Acquired(w: Wire.State, t: Tid)
    requires Wire.Enabled(w, Wire.Acquire(t))
    ensures var w' := Wire.Apply(w, Wire.Acquire(t)); t in w'.sends && w'.sends[t].stage != Waiting
  {
  }

  /** The step after the lock counts the item as relayed. */
  lemma PastBound(s: RState, s': RState, t: Tid)
    requires t in s.wire.sends && s.wire.sends[t].stage == Waiting && CallInv(s, t) && Unmoved(s, s', t)
    requires t in s'.wire.sends && s'.wire.sends[t].stage != Waiting
    ensures Below(s', s.wire.sends[t].entry.origin)
  {
  }

  lemma OrderAfter(s: RState, step: RStep, d: ConnId)
    requires REnabled(s, step) && d in RApply(s, step).wire.writers
    ensures var o' := RApply(s, step).wire.writers[d].order;
      if d !in s.wire.writers then o' == []
      else if step.Progress? && step.step.Acquire? && s.wire.sends[step.step.tid].to == d
      then o' == s.wire.writers[d].order + [s.wire.sends[step.step.tid].entry]
      else o' == s.wire.writers[d].order
  {
    WireAfter(s, step);
    if d in s.wire.writers && WireMove(s, step).Some? {
      WritersGrow(s.wire, WireMove(s, step).value, d);
    }
  }

  lemma OldEntry(s: RState, step: RStep, d: ConnId, i: nat)
    requires BasicInv(s) && RelayedInv(s) && REnabled(s, step) && Grows(s, RApply(s, step))
    requires d in s.wire.writers && i < |s.wire.writers[d].order|
    ensures var e := s.wire.writers[d].order[i]; OriginOk(RApply(s, step), d, e) && Below(RApply(s, step), e.origin)
  {
    assert EntryInv(s, d, i);
    BelowKept(s, step, d, s.wire.writers[d].order[i]);
  }

  lemma NewEntry(s: RState, step: RStep, t: Tid)
    requires BasicInv(s) && REnabled(s, step) && step == Progress(Wire.Acquire(t)) && Grows(s, RApply(s, step))
    ensures var send := s.wire.sends[t];
      OriginOk(RApply(s, step), send.to, send.entry) && Below(RApply(s, step), send.entry.origin)
  {
    assert CallInv(s, t);
    OriginGrows(s, RApply(s, step), s.wire.sends[t].to, s.wire.sends[t].entry);
    WireAfter(s, step);
    Acquired(s.wire, t);
    CallerUnmoved(s, step, t);
    PastBound(s, RApply(s, step), t);
  }

  lemma EntryKept(s: RState, step: RStep, d: ConnId, i: nat)
    requires BasicInv(s) && RelayedInv(s) && REnabled(s, step) && Grows(s, RApply(s, step))
    requires d in RApply(s, step).wire.writers && i < |RApply(s, step).wire.writers[d].order|
    ensures EntryInv(RApply(s, step), d, i)
  {
    OrderAfter(s, step, d);
    if i < |s.wire.writers[d].order| {
      OldEntry(s, step, d, i);
    } else {
      NewEntry(s, step, step.step.tid);
    }
  }

  lemma OrderSnoc(s: RState, d: ConnId, t: Tid)
    requires RelayedInv(s) && t in s.wire.sends && CallInv(s, t) && s.wire.sends[t].stage == Waiting
    requires d in s.wire.writers
    ensures OrderInv(s.wire.writers[d].order + [s.wire.sends[t].entry])
  {
    var order, e := s.wire.writers[d].order, s.wire.sends[t].entry;
    AtBound(s, t);
    forall i, j | 0 <= i < j < |order + [e]|
      ensures InOrder((order + [e])[i].origin, (order + [e])[j].origin)
    {
      if j == |order| {
        assert EntryInv(s, d, i);
      }
    }
  }

  lemma OrderKept(s: RState, step: RStep, d: ConnId)
    requires RelayedInv(s) && REnabled(s, step) && d in RApply(s, step).wire.writers
    requires step.Progress? && step.step.Acquire? ==> CallInv(s, step.step.tid)
    ensures OrderInv(RApply(s, step).wire.writers[d].order)
  {
    OrderAfter(s, step, d);
    if d in s.wire.writers && step.Progress? && step.step.Acquire? && s.wire.sends[step.step.tid].to == d {
      OrderSnoc(s, d, step.step.tid);
    }
  }

  // ---- datagrams ----

  lemma UdpAfter(s: RState, step: RStep)
    requires REnabled(s, step)
    ensures RApply(s, step).udp ==
      if step.UdpWrite? && step.ok then
        var k := s.conns[step.c];
        s.udp + [Outgoing(k.pc.sid, step.c, k.popped - 1, s.table.sockets[k.pc.sid].addr, k.pc.data)]
      else s.udp
  {
  }

  /** The datagram a handler writes holds the packet it is relaying, which nothing has used. */
  lemma NewUdp(s: RState, step: RStep)
    requires LocallyEnabled(s, step) && step.UdpWrite? && step.ok && ConnInv(s, step.c)
    ensures var k := s.conns[step.c];
      var o := Outgoing(k.pc.sid, step.c, k.popped - 1, s.table.sockets[k.pc.sid].addr, k.pc.data);
      UdpOk(s, o) && Bound(s, Local(o.from, o.index)) == o.index
  {
  }

  lemma NewUdpBelow(s: RState, step: RStep)
    requires BasicInv(s) && REnabled(s, step) && Grows(s, RApply(s, step)) && step.UdpWrite? && step.ok
    ensures Below(RApply(s, step), Local(step.c, s.conns[step.c].popped - 1))
  {
    var s' := RApply(s, step);
    WireAfter(s, step);
    assert Handler(step.c) in s.wire.sends ==> CallInv(s, Handler(step.c));
    assert s'.conns[step.c] == ConnAfter(s, step);
  }

  lemma UdpOkGrows(s: RState, s': RState, o: Outgoing)
    requires Grows(s, s') && UdpOk(s, o)
    ensures UdpOk(s', o)
  {
    assert ConnGrows(s.conns[o.from], s'.conns[o.from]);
  }

  lemma OldUdp(s: RState, step: RStep, o: Outgoing)
    requires BasicInv(s) && REnabled(s, step) && Grows(s, RApply(s, step))
    requires UdpOk(s, o) && Below(s, Local(o.from, o.index))
    ensures UdpOk(RApply(s, step), o) && Below(RApply(s, step), Local(o.from, o.index))
  {
    UdpOkGrows(s, RApply(s, step), o);
    ConnBound(s, step, o.from, o.index);
  }

  lemma NewUdpEntry(s: RState, step: RStep)
    requires BasicInv(s) && REnabled(s, step) && Grows(s, RApply(s, step)) && step.UdpWrite? && step.ok
    ensures var k := s.conns[step.c];
      var o := Outgoing(k.pc.sid, step.c, k.popped - 1, s.table.sockets[k.pc.sid].addr, k.pc.data);
      UdpOk(RApply(s, step), o) && Below(RApply(s, step), Local(o.from, o.index))
  {
    assert ConnInv(s, step.c);
    NewUdp(s, step);
    var k := s.conns[step.c];
    UdpOkGrows(s, RApply(s, step),
               Outgoing(k.pc.sid, step.c, k.popped - 1, s.table.sockets[k.pc.sid].addr, k.pc.data));
    NewUdpBelow(s, step);
  }

  lemma UdpEntries(s: RState, step: RStep)
    requires BasicInv(s) && UdpInv(s) && REnabled(s, step) && Grows(s, RApply(s, step))
    ensures var s' := RApply(s, step);
      forall i :: 0 <= i < |s'.udp| ==> UdpOk(s', s'.udp[i]) && Below(s', Local(s'.udp[i].from, s'.udp[i].index))
  {
    var s' := RApply(s, step);
    UdpAfter(s, step);
    forall i | 0 <= i < |s'.udp| ensures UdpOk(s', s'.udp[i]) && Below(s', Local(s'.udp[i].from, s'.udp[i].index)) {
      if i < |s.udp| {
        OldUdp(s, step, s.udp[i]);
      } else {
        NewUdpEntry(s, step);
      }
    }
  }

  predicate UdpOrder(udp: seq<Outgoing>) {
    forall i, j :: 0 <= i < j < |udp| ==>
      InOrder(Local(udp[i].from, udp[i].index), Local(udp[j].from, udp[j].index))
  }

  lemma UdpSnoc(s: RState, o: Outgoing)
    requires UdpInv(s) && Bound(s, Local(o.from, o.index)) == o.index
    ensures UdpOrder(s.udp + [o])
  {
    forall i | 0 <= i < |s.udp| ensures InOrder(Local(s.udp[i].from, s.udp[i].index), Local(o.from, o.index)) {
      assert Below(s, Local(s.udp[i].from, s.udp[i].index));
    }
  }

  lemma UdpKept(s: RState, step: RStep)
    requires BasicInv(s) && UdpInv(s) && REnabled(s, step) && Grows(s, RApply(s, step))
    ensures UdpInv(RApply(s, step))
  {
    UdpEntries(s, step);
    UdpOrderKept(s, step);
  }

  lemma UdpOrderKept(s: RState, step: RStep)
    requires BasicInv(s) && UdpInv(s) && REnabled(s, step)
    ensures UdpOrder(RApply(s, step).udp)
  {
    UdpAfter(s, step);
    if step.UdpWrite? && step.ok {
      assert ConnInv(s, step.c);
      NewUdp(s, step);
      var k := s.conns[step.c];
      UdpSnoc(s, Outgoing(k.pc.sid, step.c, k.popped - 1, s.table.sockets[k.pc.sid].addr, k.pc.data));
    }
  }

  lemma OrdersKept(s: RState, step: RStep)
    requires BasicInv(s) && RelayedInv(s) && REnabled(s, step)
    ensures forall d :: d in RApply(s, step).wire.writers ==> OrderInv(RApply(s, step).wire.writers[d].order)
  {
    assert step.Progress? && step.step.Acquire? ==> CallInv(s, step.step.tid);
    forall d | d in RApply(s, step).wire.writers ensures OrderInv(RApply(s, step).wire.writers[d].order) {
      OrderKept(s, step, d);
    }
  }

  lemma RelayedStep(s: RState, step: RStep)
    requires BasicInv(s) && RelayedInv(s) && REnabled(s, step) && Grows(s, RApply(s, step))
    ensures RelayedInv(RApply(s, step))
  {
    var s' := RApply(s, step);
    forall d, i | d in s'.wire.writers && 0 <= i < |s'.wire.writers[d].order| ensures EntryInv(s', d, i) {
      EntryKept(s, step, d, i);
    }
    OrdersKept(s, step);
    UdpKept(s, step);
  }

  // ---- once only ----

  /** A use after the step is an old one or the item just locked, which nothing had used. */
  lemma UseAfter(s: RState, step: RStep, d: ConnId, i: nat, c: ConnId, n: nat)
    requires BasicInv(s) && REnabled(s, step) && UsedBy(RApply(s, step), d, i, c, n)
    ensures UsedBy(s, d, i, c, n) ||
      (step.Progress? && step.step.Acquire? && d in s.wire.writers && i == |s.wire.writers[d].order|
       && s.wire.sends[step.step.tid].to == d && n == Bound(s, Local(c, n)))
  {
    OrderAfter(s, step, d);
    if !UsedBy(s, d, i, c, n) {
      assert CallInv(s, step.step.tid);
      AtBound(s, step.step.tid);
    }
  }

  lemma UsedIsBelow(s: RState, d: ConnId, i: nat, c: ConnId, n: nat)
    requires RelayedInv(s) && UsedBy(s, d, i, c, n)
    ensures n < Bound(s, Local(c, n))
  {
    assert EntryInv(s, d, i);
  }

  lemma UsesStayUnique(s: RState, step: RStep, d: ConnId, i: nat, e: ConnId, j: nat, c: ConnId, n: nat)
    requires BasicInv(s) && RelayedInv(s) && OnceInv(s) && REnabled(s, step)
    requires UsedBy(RApply(s, step), d, i, c, n) && UsedBy(RApply(s, step), e, j, c, n)
    ensures d == e && i == j
  {
    UseAfter(s, step, d, i, c, n);
    UseAfter(s, step, e, j, c, n);
    if UsedBy(s, d, i, c, n) {
      UsedIsBelow(s, d, i, c, n);
    }
    if UsedBy(s, e, j, c, n) {
      UsedIsBelow(s, e, j, c, n);
    }
  }

  lemma NewPath(s: RState, step: RStep, d: ConnId, i: nat, c: ConnId, n: nat)
    requires BasicInv(s) && RelayedInv(s) && LocallyEnabled(s, step)
    requires UsedBy(s, d, i, c, n) && step.UdpWrite? && step.ok
    ensures !(step.c == c && s.conns[step.c].popped - 1 == n)
  {
    assert ConnInv(s, step.c);
    NewUdp(s, step);
    UsedIsBelow(s, d, i, c, n);
  }

  /** A datagram already written is no use of an item that is just being locked, nor of one used before. */
  lemma OldPath(s: RState, d: ConnId, i: nat, c: ConnId, n: nat, u: nat)
    requires UdpInv(s) && OnceInv(s) && u < |s.udp|
    requires UsedBy(s, d, i, c, n) || n == Bound(s, Local(c, n))
    ensures !(s.udp[u].from == c && s.udp[u].index == n)
  {
    assert Below(s, Local(s.udp[u].from, s.udp[u].index));
  }

  lemma PathsStayApart(s: RState, step: RStep, d: ConnId, i: nat, c: ConnId, n: nat, u: nat)
    requires BasicInv(s) && RelayedInv(s) && OnceInv(s) && REnabled(s, step)
    requires UsedBy(RApply(s, step), d, i, c, n) && u < |RApply(s, step).udp|
    ensures !(RApply(s, step).udp[u].from == c && RApply(s, step).udp[u].index == n)
  {
    UdpAfter(s, step);
    UseAfter(s, step, d, i, c, n);
    if u < |s.udp| {
      OldPath(s, d, i, c, n, u);
    } else {
      NewPath(s, step, d, i, c, n);
    }
  }

  lemma OnceStep(s: RState, step: RStep)
    requires BasicInv(s) && RelayedInv(s) && OnceInv(s) && REnabled(s, step) && Grows(s, RApply(s, step))
    ensures OnceInv(RApply(s, step))
  {
    var s' := RApply(s, step);
    forall c, n, d, i, e, j | UsedBy(s', d, i, c, n) && UsedBy(s', e, j, c, n) ensures d == e && i == j {
      UsesStayUnique(s, step, d, i, e, j, c, n);
    }
    forall c, n, d, i, u | UsedBy(s', d, i, c, n) && 0 <= u < |s'.udp|
      ensures !(s'.udp[u].from == c && s'.udp[u].index == n)
    {
      PathsStayApart(s, step, d, i, c, n, u);
    }
  }
}
