/** Every step of the relay keeps the basic invariant and takes nothing back. */
module RelaySteps {
  import opened Basics
  import opened Frames
  import opened Wire
  import opened Sockets
  import opened Relay
  import opened RelayInv

  // ---- the two embedded machines ----

  lemma WireKept(s: RState, step: RStep)
    requires Wire.Inv(s.wire) && REnabled(s, step)
    ensures Wire.Inv(RApply(s, step).wire)
  {
    match WireMove(s, step)
    case Some(m) => Wire.InvStep(s.wire, m);
    case None =>
  }

  lemma TableKept(s: RState, step: RStep)
    requires TableInv(s.table) && REnabled(s, step)
    ensures TableInv(RApply(s, step).table)
  {
    match TableOp(s, step)
    case Some(op) => TableStep(s.table, op);
    case None =>
  }

  lemma WritersGrow(w: Wire.State, m: Wire.Step, d: ConnId)
    requires Wire.Enabled(w, m) && d in w.writers
    ensures d in Wire.Apply(w, m).writers
    ensures Wire.Apply(w, m).writers[d].order ==
      if m.Acquire? && w.sends[m.tid].to == d then w.writers[d].order + [w.sends[m.tid].entry] else w.writers[d].order
  {
  }

  lemma SocketsGrow(t: Table, op: Op, sid: SessId)
    requires Can(t, op) && sid in t.sockets
    ensures sid in Do(t, op).sockets
    ensures var k, k' := t.sockets[sid], Do(t, op).sockets[sid]; k'.src == k.src && k'.dst == k.dst
  {
  }

  lemma GotSocket(t: Table, op: Op)
    requires Can(t, op) && op.GetOrCreate? && TableInv(t) && Got(t, op).Some?
    ensures var sid := Got(t, op).value; var t' := Do(t, op);
      && sid in t'.sockets && t'.sockets[sid].src == op.src && t'.sockets[sid].dst == op.dst
      && t'.sockets[sid].addr == op.addr
  {
  }

  // ---- growth ----

  lemma LoopsGrow(s: RState, step: RStep, sid: SessId)
    requires LocallyEnabled(s, step) && sid in s.loops
    ensures sid in LoopsAfter(s, step) && LoopGrows(s.loops[sid], LoopsAfter(s, step)[sid])
  {
    if step.Receive? {
      var l := s.loops[step.sid];
      assert l.got == (l.got + [step.datagram])[..|l.got|];
    }
  }

  lemma ConnsGrow(s: RState, step: RStep, c: ConnId)
    requires REnabled(s, step) && c in s.conns && ConnInv(s, c)
    ensures c in RApply(s, step).conns && ConnGrows(s.conns[c], RApply(s, step).conns[c])
  {
    if ConnOf(s, step) == Some(c) {
      InputStep(s, step);
    }
  }

  lemma StepGrows(s: RState, step: RStep)
    requires BasicInv(s) && REnabled(s, step)
    ensures Grows(s, RApply(s, step))
  {
    var s' := RApply(s, step);
    forall c | c in s.conns ensures c in s'.conns && ConnGrows(s.conns[c], s'.conns[c]) {
      ConnsGrow(s, step, c);
    }
    forall sid | sid in s.loops ensures sid in s'.loops && LoopGrows(s.loops[sid], s'.loops[sid]) {
      LoopsGrow(s, step, sid);
    }
    forall sid | sid in s.table.sockets ensures SocketOf(s', sid, s.table.sockets[sid].src, s.table.sockets[sid].dst) {
      match TableOp(s, step)
      case Some(op) => SocketsGrow(s.table, op, sid);
      case None =>
    }
  }

  // ---- connections ----

  lemma PopPc(k: Conn, k': Conn)
    requires InputInv(k) && PcInv(k) && k.pc == Select && k.chan != []
    requires k' == k.(chan := k.chan[1..], pc := AfterPop(k.chan[0]),
                      popped := if k.chan[0].Arrived? then k.popped + 1 else k.popped)
    ensures PcInv(k')
  {
    PopKeeps(k, k');
  }

  lemma ReadPc(k: Conn, readError: bool)
    requires InputInv(k) && PcInv(k) && CanRead(k, readError) && k.reader == Reading
    ensures PcInv(ReadDone(k, readError))
  {
    ReadKeeps(k, readError);
    ReadLeavesPc(k, readError);
    PcStays(k, ReadDone(k, readError));
  }

  lemma ReadLeavesPc(k: Conn, readError: bool)
    requires CanRead(k, readError)
    ensures var k' := ReadDone(k, readError); k'.pc == k.pc && k'.key == k.key && k'.popped == k.popped
  {
  }

  lemma PcStays(k: Conn, k': Conn)
    requires PcInv(k) && Joined(k.pc) && ConnGrows(k, k')
    requires k'.pc == k.pc && k'.key == k.key && k'.popped == k.popped
    ensures PcInv(k')
  {
  }

  /** The steps of a handler that relays a packet. */
  predicate Relays(step: RStep) {
    step.Lookup? || step.Resolve? || step.Link? || step.UdpWrite?
  }

  lemma RelayPc(s: RState, step: RStep)
    requires LocallyEnabled(s, step) && Relays(step) && PcInv(s.conns[step.c])
    ensures PcInv(ConnAfter(s, step))
  {
  }

  lemma OtherPc(s: RState, step: RStep)
    requires LocallyEnabled(s, step) && ConnOf(s, step).Some? && !step.Accept?
    requires !Relays(step) && !step.Pop? && !step.ReadNext?
    requires PcInv(s.conns[step.c])
    ensures PcInv(ConnAfter(s, step))
  {
  }

  lemma PcStep(s: RState, step: RStep)
    requires LocallyEnabled(s, step) && ConnOf(s, step).Some? && !step.Accept?
    requires InputInv(s.conns[step.c]) && PcInv(s.conns[step.c])
    ensures PcInv(ConnAfter(s, step))
  {
    var k, k' := s.conns[step.c], ConnAfter(s, step);
    if step.Pop? {
      PopPc(k, k');
    } else if step.ReadNext? {
      ReadPc(k, step.readError);
    } else if Relays(step) {
      RelayPc(s, step);
    } else {
      OtherPc(s, step);
    }
  }

  lemma NewConn()
    ensures InputInv(NEW_CONN) && PcInv(NEW_CONN)
  {
    assert EncodeAll([]) == [];
  }

  lemma WriterStays(s: RState, step: RStep, c: ConnId)
    requires REnabled(s, step) && c in s.wire.writers
    ensures c in RApply(s, step).wire.writers
  {
    if WireMove(s, step).Some? {
      WritersGrow(s.wire, WireMove(s, step).value, c);
    }
  }

  lemma SocketAhead(s: RState, step: RStep)
    requires LocallyEnabled(s, step) && ConnOf(s, step).Some? && !step.Accept? && !step.Link?
    requires s.conns[step.c].pc.UdpOut? || !ConnAfter(s, step).pc.UdpOut?
    requires PcInv(s.conns[step.c])
    ensures var k, k' := s.conns[step.c], ConnAfter(s, step);
      k'.pc.UdpOut? ==> k.key.Some? && k'.key == k.key && k'.pc == k.pc
  {
  }

  lemma NoSocketAhead(s: RState, step: RStep)
    requires LocallyEnabled(s, step) && ConnOf(s, step).Some? && !step.Accept? && !step.Link?
    requires !s.conns[step.c].pc.UdpOut?
    ensures !ConnAfter(s, step).pc.UdpOut?
  {
  }

  lemma LinkedAhead(s: RState, step: RStep)
    requires REnabled(s, step) && step.Link? && TableInv(s.table)
    ensures var k := ConnAfter(s, step); k.pc.UdpOut? && k.key.Some? ==>
      SocketOf(RApply(s, step), k.pc.sid, k.key.value, k.pc.dest)
  {
    var op := TableOp(s, step).value;
    if Got(s.table, op).Some? {
      GotSocket(s.table, op);
    }
  }

  lemma ActiveConnKept(s: RState, step: RStep)
    requires BasicInv(s) && REnabled(s, step) && ConnOf(s, step).Some? && !step.Accept?
    requires Grows(s, RApply(s, step))
    ensures ConnInv(RApply(s, step), step.c)
  {
    var c := step.c;
    assert ConnInv(s, c);
    WriterStays(s, step, c);
    InputStep(s, step);
    PcStep(s, step);
    if step.Link? {
      LinkedAhead(s, step);
    } else if s.conns[c].pc.UdpOut? {
      SocketAhead(s, step);
    } else {
      NoSocketAhead(s, step);
    }
    assert RApply(s, step).conns[c] == ConnAfter(s, step);
  }

  lemma IdleConnKept(s: RState, step: RStep, c: ConnId)
    requires BasicInv(s) && REnabled(s, step) && c in s.conns && ConnOf(s, step) != Some(c)
    requires Grows(s, RApply(s, step))
    ensures c in RApply(s, step).conns && ConnInv(RApply(s, step), c)
  {
    assert ConnInv(s, c);
    WriterStays(s, step, c);
    assert RApply(s, step).conns[c] == s.conns[c];
  }

  lemma ConnKept(s: RState, step: RStep, c: ConnId)
    requires BasicInv(s) && REnabled(s, step) && c in RApply(s, step).conns && Grows(s, RApply(s, step))
    ensures ConnInv(RApply(s, step), c)
  {
    if ConnOf(s, step) != Some(c) {
      assert c in s.conns;
      IdleConnKept(s, step, c);
    } else if step.Accept? {
      NewConn();
    } else {
      ActiveConnKept(s, step);
    }
  }

  // ---- loops ----

  lemma OldLoopKept(s: RState, step: RStep, sid: SessId)
    requires LocallyEnabled(s, step) && sid in s.loops
    requires forall i :: 0 <= i < |s.loops[sid].got| ==> |s.loops[sid].got[i].data| <= MAX_DATAGRAM
    ensures var l' := LoopsAfter(s, step)[sid]; forall i :: 0 <= i < |l'.got| ==> |l'.got[i].data| <= MAX_DATAGRAM
  {
  }

  lemma NewLoop(s: RState, step: RStep, sid: SessId)
    requires TableInv(s.table) && REnabled(s, step) && sid !in s.loops && sid in RApply(s, step).loops
    ensures LoopInv(RApply(s, step), sid)
  {
    OnlyLinkStarts(s, step, sid);
    GotSocket(s.table, TableOp(s, step).value);
  }

  lemma OnlyLinkStarts(s: RState, step: RStep, sid: SessId)
    requires LocallyEnabled(s, step) && sid !in s.loops && sid in LoopsAfter(s, step)
    ensures step.Link? && Got(s.table, TableOp(s, step).value) == Some(sid)
  {
  }

  lemma LoopKept(s: RState, step: RStep, sid: SessId)
    requires BasicInv(s) && REnabled(s, step) && sid in RApply(s, step).loops && Grows(s, RApply(s, step))
    ensures LoopInv(RApply(s, step), sid)
  {
    var s' := RApply(s, step);
    if sid in s.loops {
      assert LoopInv(s, sid);
      OldLoopKept(s, step, sid);
      assert s'.loops == LoopsAfter(s, step);
      assert LoopGrows(s.loops[sid], s'.loops[sid]);
      assert ConnGrows(s.conns[s.loops[sid].conn], s'.conns[s.loops[sid].conn]);
    } else {
      NewLoop(s, step, sid);
    }
  }
}
