/** What becomes of every datagram a session receives: injected if and only if it comes from the filtered address. */
module RelayReplies {
  import opened Frames
  import opened Wire
  import opened Relay
  import opened RelayInv
  import opened RelaySteps
  import opened RelayCalls
  import opened RelayFifo
  import opened RelayRouting
  import opened RelayTheorems

  predicate InjectedAt(s: RState, d: ConnId, i: nat, sid: SessId, n: nat) {
    d in s.wire.writers && i < |s.wire.writers[d].order| && s.wire.writers[d].order[i].origin == Reply(sid, n)
  }

  /** On the way to the connection d: before its lock, or in its log. */
  ghost predicate Injected(s: RState, sid: SessId, n: nat, d: ConnId) {
    || (WaitingOn(s, Loop(sid)) && s.wire.sends[Loop(sid)].to == d
        && s.wire.sends[Loop(sid)].entry.origin == Reply(sid, n))
    || exists i :: InjectedAt(s, d, i, sid, n)
  }

  lemma InjectedLocked(s: RState, step: RStep, sid: SessId, n: nat, d: ConnId)
    requires REnabled(s, step) && step == Progress(Acquire(Loop(sid))) && s.wire.sends[Loop(sid)].to == d
    requires s.wire.sends[Loop(sid)].entry.origin == Reply(sid, n)
    ensures Injected(RApply(s, step), sid, n, d)
  {
    WriterStays(s, step, d);
    OrderAfter(s, step, d);
    assert InjectedAt(RApply(s, step), d, |s.wire.writers[d].order|, sid, n);
  }

  lemma LoopWaits(s: RState, step: RStep, sid: SessId)
    requires REnabled(s, step) && WaitingOn(s, Loop(sid)) && step != Progress(Acquire(Loop(sid)))
    ensures WaitingOn(RApply(s, step), Loop(sid))
    ensures RApply(s, step).wire.sends[Loop(sid)] == s.wire.sends[Loop(sid)]
  {
    WireAfter(s, step);
    if WireMove(s, step).Some? {
      if WireMove(s, step).value == Acquire(Loop(sid)) {
        OnlyProgressLocks(s, step, Loop(sid));
      }
      WaitingMove(s.wire, WireMove(s, step).value, Loop(sid));
    }
  }

  lemma InjectedStays(s: RState, step: RStep, sid: SessId, n: nat, d: ConnId)
    requires REnabled(s, step) && Injected(s, sid, n, d)
    ensures Injected(RApply(s, step), sid, n, d)
  {
    if i :| InjectedAt(s, d, i, sid, n) {
      WriterStays(s, step, d);
      OrderAfter(s, step, d);
      assert InjectedAt(RApply(s, step), d, i, sid, n);
    } else if step == Progress(Acquire(Loop(sid))) {
      InjectedLocked(s, step, sid, n, d);
    } else {
      LoopWaits(s, step, sid);
    }
  }

  /** A datagram from the filtered address is on its way as soon as it is received. */
  lemma ReceivedIsInjected(s: RState, step: RStep)
    requires REnabled(s, step) && step.Receive? && s.loops[step.sid].filter == step.datagram.from
    ensures Injected(RApply(s, step), step.sid, |s.loops[step.sid].got|, s.loops[step.sid].conn)
  {
    WireAfter(s, step);
  }

  /** Nothing has been received before the filter is set, and all that matched it has been injected. */
  ghost predicate LoopReplies(s: RState, sid: SessId)
    requires sid in s.loops
  {
    var l := s.loops[sid];
    && (l.pc == Starting ==> l.got == [])
    && forall n :: 0 <= n < |l.got| && l.got[n].from == l.filter ==> Injected(s, sid, n, l.conn)
  }

  ghost predicate RepliesInv(s: RState) {
    forall sid :: sid in s.loops ==> LoopReplies(s, sid)
  }

  predicate SameLoop(l: ReplyLoop, l': ReplyLoop) {
    l'.got == l.got && l'.conn == l.conn && (l'.filter == l.filter || l.got == [])
    && (l'.pc == Starting ==> l.pc == Starting)
  }

  lemma LoopMoves(s: RState, step: RStep, sid: SessId)
    requires LocallyEnabled(s, step) && sid in s.loops && (s.loops[sid].pc == Starting ==> s.loops[sid].got == [])
    ensures sid in LoopsAfter(s, step)
    ensures SameLoop(s.loops[sid], LoopsAfter(s, step)[sid]) || (step.Receive? && step.sid == sid)
  {
  }

  lemma ReceiveMoves(s: RState, step: RStep)
    requires LocallyEnabled(s, step) && step.Receive?
    ensures var l, l' := s.loops[step.sid], LoopsAfter(s, step)[step.sid];
      l'.got == l.got + [step.datagram] && l'.conn == l.conn && l'.filter == l.filter && l'.pc != Starting
  {
  }

  lemma NewLoopEmpty(s: RState, step: RStep, sid: SessId)
    requires LocallyEnabled(s, step) && sid !in s.loops && sid in LoopsAfter(s, step)
    ensures LoopsAfter(s, step)[sid].got == []
  {
  }

  lemma SameLoopReplies(s: RState, step: RStep, sid: SessId)
    requires REnabled(s, step) && sid in s.loops && LoopReplies(s, sid) && sid in RApply(s, step).loops
    requires SameLoop(s.loops[sid], RApply(s, step).loops[sid])
    ensures LoopReplies(RApply(s, step), sid)
  {
    var l' := RApply(s, step).loops[sid];
    forall n | 0 <= n < |l'.got| && l'.got[n].from == l'.filter ensures Injected(RApply(s, step), sid, n, l'.conn) {
      InjectedStays(s, step, sid, n, l'.conn);
    }
  }

  lemma ReceivingLoopReplies(s: RState, step: RStep)
    requires REnabled(s, step) && step.Receive? && LoopReplies(s, step.sid)
    ensures step.sid in RApply(s, step).loops && LoopReplies(RApply(s, step), step.sid)
  {
    var sid := step.sid;
    ReceiveMoves(s, step);
    var l, l' := s.loops[sid], RApply(s, step).loops[sid];
    forall n | 0 <= n < |l'.got| && l'.got[n].from == l'.filter ensures Injected(RApply(s, step), sid, n, l'.conn) {
      if n < |l.got| {
        InjectedStays(s, step, sid, n, l'.conn);
      } else {
        ReceivedIsInjected(s, step);
      }
    }
  }

  lemma LoopsNow(s: RState, step: RStep)
    requires REnabled(s, step)
    ensures RApply(s, step).loops == LoopsAfter(s, step)
  {
  }

  lemma RepliesStep(s: RState, step: RStep)
    requires RepliesInv(s) && REnabled(s, step)
    ensures RepliesInv(RApply(s, step))
  {
    LoopsNow(s, step);
    forall sid | sid in RApply(s, step).loops ensures LoopReplies(RApply(s, step), sid) {
      if sid !in s.loops {
        NewLoopEmpty(s, step, sid);
      } else if step.Receive? && step.sid == sid {
        ReceivingLoopReplies(s, step);
      } else {
        LoopMoves(s, step, sid);
        SameLoopReplies(s, step, sid);
      }
    }
  }

  lemma {:induction false} RepliesRun(s: RState, steps: seq<RStep>)
    requires RepliesInv(s) && RRun(s, steps)
    ensures RepliesInv(RAfter(s, steps))
    decreases |steps|
  {
    if steps != [] {
      RepliesStep(s, steps[0]);
      RepliesRun(RApply(s, steps[0]), steps[1..]);
    }
  }

  lemma NoReplies(serverKey: Key)
    ensures RepliesInv(Boot(serverKey))
  {
  }

  lemma InjectedMatches(s: RState, sid: SessId, n: nat, d: ConnId)
    requires RInv(s) && sid in s.loops && n < |s.loops[sid].got| && Injected(s, sid, n, d)
    ensures d == s.loops[sid].conn && s.loops[sid].got[n].from == s.loops[sid].filter
  {
    if i :| InjectedAt(s, d, i, sid, n) {
      assert EntryInv(s, d, i);
    } else {
      assert CallInv(s, Loop(sid));
    }
  }

  /** A datagram a session has received is injected into a connection if and only if that is the one the session was
      created for and the datagram comes from the filtered address. */
  lemma InjectedIffFromFilter(serverKey: Key, steps: seq<RStep>, sid: SessId, n: nat, d: ConnId)
    requires RRun(Boot(serverKey), steps)
    requires sid in Reached(serverKey, steps).loops && n < |Reached(serverKey, steps).loops[sid].got|
    ensures var s := Reached(serverKey, steps); var l := s.loops[sid];
      Injected(s, sid, n, d) <==> d == l.conn && l.got[n].from == l.filter
  {
    var s := Reached(serverKey, steps);
    NoReplies(serverKey);
    RepliesRun(Boot(serverKey), steps);
    ReachedInv(serverKey, steps);
    assert LoopReplies(s, sid);
    if Injected(s, sid, n, d) {
      InjectedMatches(s, sid, n, d);
    }
  }
}
