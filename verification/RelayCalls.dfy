/** Calls of sendFrame, registry entries and session owners across a step. */
module RelayCalls {
  import opened Basics
  import opened Frames
  import opened Wire
  import opened Sockets
  import opened Relay
  import opened RelayInv
  import opened RelaySteps

  // ---- a goroutine inside sendFrame stays put until the call returns ----

  lemma HandlerPinned(s: RState, step: RStep, c: ConnId)
    requires LocallyEnabled(s, step) && ConnOf(s, step) == Some(c) && c in s.conns
    requires s.conns[c].pc.Sending? && !step.HandlerReturn?
    ensures ConnAfter(s, step).pc == s.conns[c].pc && ConnAfter(s, step).popped == s.conns[c].popped
  {
  }

  lemma LoopPinned(s: RState, step: RStep, sid: SessId)
    requires LocallyEnabled(s, step) && sid in s.loops
    requires s.loops[sid].pc == Injecting && step != LoopReturn(sid)
    ensures LoopsAfter(s, step)[sid] == s.loops[sid]
  {
  }

  lemma OldCallMove(w: Wire.State, m: Wire.Step, t: Tid)
    requires Wire.Enabled(w, m) && t in w.sends && t in Wire.Apply(w, m).sends
    ensures m != Release(t)
    ensures var a, b := w.sends[t], Wire.Apply(w, m).sends[t];
      b.to == a.to && b.entry == a.entry && (b.stage == Waiting ==> a.stage == Waiting)
  {
  }

  predicate Unmoved(s: RState, s': RState, t: Tid) {
    match t
    case Handler(c) =>
      && c in s.conns && c in s'.conns
      && s'.conns[c].pc == s.conns[c].pc && s'.conns[c].popped == s.conns[c].popped
    case Loop(sid) => sid in s.loops && sid in s'.loops && s'.loops[sid] == s.loops[sid]
  }

  lemma CallerUnmoved(s: RState, step: RStep, t: Tid)
    requires REnabled(s, step) && t in s.wire.sends && CallInv(s, t)
    requires WireMove(s, step) != Some(Release(t))
    ensures Unmoved(s, RApply(s, step), t)
  {
    match t
    case Handler(c) =>
      if ConnOf(s, step) == Some(c) {
        HandlerPinned(s, step, c);
      }
    case Loop(sid) =>
      LoopPinned(s, step, sid);
  }

  lemma CallMoves(s: RState, s': RState, t: Tid)
    requires t in s.wire.sends && t in s'.wire.sends && CallInv(s, t) && Unmoved(s, s', t) && Grows(s, s')
    requires var a, b := s.wire.sends[t], s'.wire.sends[t];
      b.to == a.to && b.entry == a.entry && (b.stage == Waiting ==> a.stage == Waiting)
    ensures CallInv(s', t)
  {
    if s.wire.sends[t].stage == Waiting {
      OriginGrows(s, s', s.wire.sends[t].to, s.wire.sends[t].entry);
    }
  }

  lemma WireAfter(s: RState, step: RStep)
    requires REnabled(s, step)
    ensures RApply(s, step).wire ==
      match WireMove(s, step) case Some(m) => Wire.Apply(s.wire, m) case None => s.wire
  {
  }

  lemma OldCall(s: RState, step: RStep, t: Tid)
    requires REnabled(s, step) && t in s.wire.sends && CallInv(s, t)
    requires t in RApply(s, step).wire.sends && Grows(s, RApply(s, step))
    ensures CallInv(RApply(s, step), t)
  {
    WireAfter(s, step);
    if WireMove(s, step).Some? {
      OldCallMove(s.wire, WireMove(s, step).value, t);
    }
    CallerUnmoved(s, step, t);
    CallMoves(s, RApply(s, step), t);
  }

  lemma LookupCall(s: RState, step: RStep)
    requires REnabled(s, step) && step.Lookup? && WireMove(s, step).Some?
    requires ConnInv(s, step.c) && RegistryInv(s)
    ensures var m := WireMove(s, step).value; OriginOk(s, m.to, m.entry)
  {
    var k := s.conns[step.c];
    assert k.read[k.popped - 1] in k.read;
    assert Fits(k.read[k.popped - 1]);
  }

  lemma ReceiveCall(s: RState, step: RStep)
    requires REnabled(s, step) && step.Receive? && WireMove(s, step).Some? && Grows(s, RApply(s, step))
    requires LoopInv(s, step.sid)
    ensures var m := WireMove(s, step).value; OriginOk(RApply(s, step), m.to, m.entry)
  {
    var l := s.loops[step.sid];
    assert ConnGrows(s.conns[l.conn], RApply(s, step).conns[l.conn]);
  }

  lemma ControlFits(s: RState, step: RStep)
    requires REnabled(s, step) && WireMove(s, step).Some? && WireMove(s, step).value.Begin?
    requires WireMove(s, step).value.entry.origin.Control?
    ensures var f := WireMove(s, step).value.entry.frame; Fits(f) && f.kind != RECV_PACKET
  {
  }

  lemma NewSend(w: Wire.State, m: Wire.Step, t: Tid)
    requires Wire.Enabled(w, m) && t !in w.sends && t in Wire.Apply(w, m).sends
    ensures m.Begin? && m.tid == t && Wire.Apply(w, m).sends[t] == Send(m.to, m.entry, Waiting)
  {
  }

  /** The goroutine that starts a call is at sendFrame after the step, and the call names its newest item. */
  lemma CallerReady(s: RState, step: RStep)
    requires REnabled(s, step) && WireMove(s, step).Some? && WireMove(s, step).value.Begin?
    ensures var s', m := RApply(s, step), WireMove(s, step).value;
      && (match m.tid
          case Handler(c) => c in s'.conns && s'.conns[c].pc.Sending?
          case Loop(sid) => sid in s'.loops && s'.loops[sid].pc == Injecting)
      && (match m.entry.origin
          case Control => true
          case Local(c, n) => m.tid == Handler(c) && n == s'.conns[c].popped - 1
          case Reply(sid, n) => m.tid == Loop(sid) && n == |s'.loops[sid].got| - 1)
  {
  }

  lemma NewOrigin(s: RState, step: RStep)
    requires BasicInv(s) && REnabled(s, step) && Grows(s, RApply(s, step))
    requires WireMove(s, step).Some? && WireMove(s, step).value.Begin?
    ensures var m := WireMove(s, step).value; OriginOk(RApply(s, step), m.to, m.entry)
  {
    var m := WireMove(s, step).value;
    if step.Lookup? {
      assert ConnInv(s, step.c);
      LookupCall(s, step);
      OriginGrows(s, RApply(s, step), m.to, m.entry);
    } else if step.Receive? {
      assert LoopInv(s, step.sid);
      ReceiveCall(s, step);
    } else {
      ControlFits(s, step);
    }
  }

  lemma NewCall(s: RState, step: RStep, t: Tid)
    requires BasicInv(s) && REnabled(s, step) && t !in s.wire.sends && t in RApply(s, step).wire.sends
    requires Grows(s, RApply(s, step))
    ensures CallInv(RApply(s, step), t)
  {
    WireAfter(s, step);
    NewSend(s.wire, WireMove(s, step).value, t);
    CallerReady(s, step);
    NewOrigin(s, step);
  }

  lemma CallKept(s: RState, step: RStep, t: Tid)
    requires BasicInv(s) && REnabled(s, step) && t in RApply(s, step).wire.sends
    requires Grows(s, RApply(s, step))
    ensures CallInv(RApply(s, step), t)
  {
    if t in s.wire.sends {
      OldCall(s, step, t);
    } else {
      NewCall(s, step, t);
    }
  }

  // ---- registry ----

  lemma ServingStays(s: RState, step: RStep)
    requires LocallyEnabled(s, step) && ConnOf(s, step).Some? && !step.Accept? && !step.Leave?
    requires Serving(s.conns[step.c].pc)
    ensures Serving(ConnAfter(s, step).pc)
  {
  }

  lemma ClientsAfter(s: RState, step: RStep)
    requires REnabled(s, step)
    ensures RApply(s, step).clients ==
      if step.Join? then s.clients[s.conns[step.c].key.value := step.c]
      else if step.Leave? then s.clients - {s.conns[step.c].key.value}
      else s.clients
  {
  }

  lemma EntryStays(s: RState, step: RStep, key: Key)
    requires RegistryInv(s) && REnabled(s, step) && Grows(s, RApply(s, step))
    requires key in s.clients && key in RApply(s, step).clients && RApply(s, step).clients[key] == s.clients[key]
    ensures HasKey(RApply(s, step), s.clients[key], key) && Serving(RApply(s, step).conns[s.clients[key]].pc)
  {
    var c := s.clients[key];
    ClientsAfter(s, step);
    assert HasKey(s, c, key) && Serving(s.conns[c].pc);
    assert ConnGrows(s.conns[c], RApply(s, step).conns[c]);
    if ConnOf(s, step) == Some(c) {
      ServingStays(s, step);
    }
  }

  lemma RegistryKept(s: RState, step: RStep)
    requires BasicInv(s) && REnabled(s, step) && Grows(s, RApply(s, step))
    ensures RegistryInv(RApply(s, step))
  {
    var s' := RApply(s, step);
    ClientsAfter(s, step);
    forall key | key in s'.clients
      ensures HasKey(s', s'.clients[key], key) && Serving(s'.conns[s'.clients[key]].pc)
    {
      if key in s.clients && s'.clients[key] == s.clients[key] {
        EntryStays(s, step, key);
      } else {
        assert ConnGrows(s.conns[step.c], s'.conns[step.c]);
      }
    }
  }

  lemma BasicStep(s: RState, step: RStep)
    requires BasicInv(s) && REnabled(s, step)
    ensures BasicInv(RApply(s, step)) && Grows(s, RApply(s, step))
  {
    var s' := RApply(s, step);
    StepGrows(s, step);
    WireKept(s, step);
    TableKept(s, step);
    RegistryKept(s, step);
    forall c | c in s'.conns ensures ConnInv(s', c) {
      ConnKept(s, step, c);
    }
    forall sid | sid in s'.loops ensures LoopInv(s', sid) {
      LoopKept(s, step, sid);
    }
    forall t | t in s'.wire.sends ensures CallInv(s', t) {
      CallKept(s, step, t);
    }
  }

  // ---- owners ----

  lemma EntriesAfter(s: RState, step: RStep, p: Pair)
    requires REnabled(s, step) && p in RApply(s, step).table.entries
    ensures p in s.table.entries || (step.Link? && p == (s.conns[step.c].key.value, s.conns[step.c].pc.dest))
    ensures step.DropAll? ==> p.0 != s.conns[step.c].key.value
  {
  }

  lemma OwningStays(s: RState, step: RStep)
    requires LocallyEnabled(s, step) && ConnOf(s, step).Some? && !step.Accept? && !step.DropAll?
    requires Owning(s.conns[step.c].pc)
    ensures Owning(ConnAfter(s, step).pc)
  {
  }

  lemma OwnerStays(s: RState, step: RStep, c: ConnId, key: Key)
    requires REnabled(s, step) && Grows(s, RApply(s, step)) && OwnerOf(s, c, key)
    requires !(step.DropAll? && step.c == c)
    ensures OwnerOf(RApply(s, step), c, key)
  {
    assert ConnGrows(s.conns[c], RApply(s, step).conns[c]);
    if ConnOf(s, step) == Some(c) {
      OwningStays(s, step);
    }
  }

  lemma NewOwner(s: RState, step: RStep)
    requires LocallyEnabled(s, step) && step.Link?
    ensures OwnerOf(s, step.c, s.conns[step.c].key.value)
  {
  }

  lemma OldOwner(s: RState, step: RStep, p: Pair) returns (c: ConnId)
    requires OwnersInv(s) && p in s.table.entries && LocallyEnabled(s, step)
    requires step.DropAll? ==> p.0 != s.conns[step.c].key.value
    ensures OwnerOf(s, c, p.0) && !(step.DropAll? && step.c == c)
  {
    c :| OwnerOf(s, c, p.0);
  }

  lemma OwnerKept(s: RState, step: RStep, p: Pair) returns (c: ConnId)
    requires BasicInv(s) && OwnersInv(s) && REnabled(s, step) && Grows(s, RApply(s, step))
    requires p in RApply(s, step).table.entries
    ensures OwnerOf(RApply(s, step), c, p.0)
  {
    EntriesAfter(s, step, p);
    if p in s.table.entries {
      c := OldOwner(s, step, p);
    } else {
      NewOwner(s, step);
      c := step.c;
    }
    OwnerStays(s, step, c, p.0);
  }

  lemma OwnersKept(s: RState, step: RStep)
    requires BasicInv(s) && OwnersInv(s) && REnabled(s, step) && Grows(s, RApply(s, step))
    ensures OwnersInv(RApply(s, step))
  {
    forall p | p in RApply(s, step).table.entries ensures exists c :: OwnerOf(RApply(s, step), c, p.0) {
      var c := OwnerKept(s, step, p);
    }
  }
}
