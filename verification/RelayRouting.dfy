/** What becomes of every packet a handler takes: looked up once, and relayed, sent as a datagram or dropped for one of
    three reasons. */
module RelayRouting {
  import opened Basics
  import opened Frames
  import opened Wire
  import opened Relay
  import opened RelayInv
  import opened RelaySteps
  import opened RelayCalls
  import opened RelayFifo
  import opened RelayTheorems

  // ---- before the handshake nothing has been read ----

  predicate FirstFrame(k: Conn) {
    Anonymous(k.pc) ==> k.read == []
  }

  lemma FirstFrameStep(s: RState, step: RStep)
    requires LocallyEnabled(s, step) && ConnOf(s, step).Some?
    requires !step.Accept? ==> PcInv(s.conns[step.c]) && FirstFrame(s.conns[step.c])
    ensures FirstFrame(ConnAfter(s, step))
  {
  }

  ghost predicate RoutedInv(s: RState) {
    RInv(s) && forall c :: c in s.conns ==> FirstFrame(s.conns[c])
  }

  lemma RoutedStep(s: RState, step: RStep)
    requires RoutedInv(s) && REnabled(s, step)
    ensures RoutedInv(RApply(s, step)) && Grows(s, RApply(s, step))
  {
    InvariantStep(s, step);
    FirstFrames(s, step);
  }

  lemma FirstFrames(s: RState, step: RStep)
    requires BasicInv(s) && REnabled(s, step) && forall c :: c in s.conns ==> FirstFrame(s.conns[c])
    ensures forall c :: c in RApply(s, step).conns ==> FirstFrame(RApply(s, step).conns[c])
  {
    var s' := RApply(s, step);
    if ConnOf(s, step).Some? {
      assert !step.Accept? ==> ConnInv(s, step.c);
      FirstFrameStep(s, step);
    }
  }

  // ---- events ----

  /** The n-th frame of c is a packet. */
  predicate PacketAt(s: RState, c: ConnId, n: nat) {
    c in s.conns && n < |s.conns[c].read| && IsSendPacket(s.conns[c].read[n])
  }

  /** The handler of c works on its n-th frame. */
  predicate WorksOn(s: RState, c: ConnId, n: nat) {
    PacketAt(s, c, n) && s.conns[c].popped == n + 1
  }

  /** The destination of the n-th frame of c. */
  function DestOf(s: RState, c: ConnId, n: nat): Key
    requires PacketAt(s, c, n)
  {
    Destination(s.conns[c].read[n])
  }

  /** The packet is looked up while d is registered for its destination. */
  predicate Found(s: RState, steps: seq<RStep>, c: ConnId, n: nat, d: ConnId)
    requires RRun(s, steps)
    decreases |steps|
  {
    && steps != []
    && ((steps[0] == Lookup(c) && WorksOn(s, c, n) && DestOf(s, c, n) in s.clients && s.clients[DestOf(s, c, n)] == d)
        || Found(RApply(s, steps[0]), steps[1..], c, n, d))
  }

  /** The packet is looked up while nobody is registered for its destination. */
  predicate NotFound(s: RState, steps: seq<RStep>, c: ConnId, n: nat)
    requires RRun(s, steps)
    decreases |steps|
  {
    && steps != []
    && ((steps[0] == Lookup(c) && WorksOn(s, c, n) && DestOf(s, c, n) !in s.clients)
        || NotFound(RApply(s, steps[0]), steps[1..], c, n))
  }

  predicate HasSession(s: RState, k: Conn) {
    k.key.Some? && k.pc.Linking? && (k.key.value, k.pc.dest) in s.table.entries
  }

  /** No UDP endpoint is known, no socket can be opened where one is needed, or writing to it fails. */
  predicate GivesUp(s: RState, step: RStep) {
    match step
    case Resolve(_, found) => found == None
    case Link(c, _, listenOk) => !listenOk && c in s.conns && !HasSession(s, s.conns[c])
    case UdpWrite(_, ok) => !ok
    case _ => false
  }

  predicate Dropped(s: RState, steps: seq<RStep>, c: ConnId, n: nat)
    requires RRun(s, steps)
    decreases |steps|
  {
    && steps != []
    && ((ConnOf(s, steps[0]) == Some(c) && WorksOn(s, c, n) && GivesUp(s, steps[0]))
        || Dropped(RApply(s, steps[0]), steps[1..], c, n))
  }

  // ---- where a packet is ----

  predicate Untaken(s: RState, c: ConnId, n: nat) {
    c !in s.conns || s.conns[c].popped <= n
  }

  predicate ToLookUp(s: RState, c: ConnId, n: nat) {
    WorksOn(s, c, n) && s.conns[c].pc.Routing?
  }

  /** On the way to the connection d: before its lock, or in its log. */
  ghost predicate SentTo(s: RState, c: ConnId, n: nat, d: ConnId) {
    || (WaitingOn(s, Handler(c)) && s.wire.sends[Handler(c)].to == d
        && s.wire.sends[Handler(c)].entry.origin == Local(c, n))
    || exists i :: UsedBy(s, d, i, c, n)
  }

  predicate OnUdpPath(s: RState, c: ConnId, n: nat) {
    WorksOn(s, c, n) && (s.conns[c].pc.Resolving? || s.conns[c].pc.Linking? || s.conns[c].pc.UdpOut?)
  }

  predicate SentByUdp(s: RState, c: ConnId, n: nat) {
    exists u :: 0 <= u < |s.udp| && s.udp[u].from == c && s.udp[u].index == n
  }

  // ---- one step ----

  lemma TakeStep(s: RState, step: RStep)
    requires LocallyEnabled(s, step) && ConnOf(s, step).Some? && !step.Accept?
    requires ConnInv(s, step.c) && FirstFrame(s.conns[step.c])
    ensures var k, k' := s.conns[step.c], ConnAfter(s, step);
      || k'.popped == k.popped
      || (k.popped == 0 && k'.popped == 1)
      || (k'.popped == k.popped + 1 && k'.read == k.read && k.popped < |k.read|
          && (IsSendPacket(k.read[k.popped]) ==> k'.pc.Routing?))
  {
    if step.Pop? {
      PopKeeps(s.conns[step.c], ConnAfter(s, step));
    }
  }

  /** A connection after a step of the relay. */
  lemma ConnNow(s: RState, step: RStep, c: ConnId)
    requires REnabled(s, step) && c in RApply(s, step).conns
    ensures c in s.conns || step == Accept(c)
    ensures RApply(s, step).conns[c] == if ConnOf(s, step) == Some(c) then ConnAfter(s, step) else s.conns[c]
  {
  }

  predicate Ready(s: RState, c: ConnId) {
    c in s.conns ==> ConnInv(s, c) && FirstFrame(s.conns[c])
  }

  lemma UntakenStep(s: RState, step: RStep, c: ConnId, n: nat)
    requires Ready(s, c) && REnabled(s, step) && Untaken(s, c, n) && n > 0
    requires PacketAt(RApply(s, step), c, n)
    ensures Untaken(RApply(s, step), c, n) || ToLookUp(RApply(s, step), c, n)
  {
    ConnNow(s, step, c);
    if ConnOf(s, step) == Some(c) && !step.Accept? {
      TakeStep(s, step);
    }
  }

  lemma LookupStep(s: RState, step: RStep, c: ConnId, n: nat)
    requires REnabled(s, step) && ToLookUp(s, c, n) && ConnInv(s, c) && Grows(s, RApply(s, step))
    ensures ToLookUp(RApply(s, step), c, n) ||
      (step == Lookup(c) &&
       if DestOf(s, c, n) in s.clients then SentTo(RApply(s, step), c, n, s.clients[DestOf(s, c, n)])
       else OnUdpPath(RApply(s, step), c, n))
  {
    assert ConnGrows(s.conns[c], RApply(s, step).conns[c]);
    if step == Lookup(c) {
      LookedUp(s, c, n);
    } else {
      NotYetLookedUp(s, step, c, n);
    }
  }

  lemma NotYetLookedUp(s: RState, step: RStep, c: ConnId, n: nat)
    requires REnabled(s, step) && ToLookUp(s, c, n) && step != Lookup(c)
    requires c in RApply(s, step).conns && ConnGrows(s.conns[c], RApply(s, step).conns[c])
    ensures ToLookUp(RApply(s, step), c, n)
  {
    ConnNow(s, step, c);
    if ConnOf(s, step) == Some(c) {
      RoutingStays(s, step);
    }
  }

  lemma RoutingStays(s: RState, step: RStep)
    requires LocallyEnabled(s, step) && ConnOf(s, step).Some? && !step.Accept? && !step.Lookup?
    requires s.conns[step.c].pc.Routing?
    ensures ConnAfter(s, step).pc.Routing? && ConnAfter(s, step).popped == s.conns[step.c].popped
  {
  }

  lemma LookedUp(s: RState, c: ConnId, n: nat)
    requires REnabled(s, Lookup(c)) && ToLookUp(s, c, n) && ConnInv(s, c)
    requires ConnGrows(s.conns[c], RApply(s, Lookup(c)).conns[c])
    ensures var s' := RApply(s, Lookup(c));
      if DestOf(s, c, n) in s.clients then SentTo(s', c, n, s.clients[DestOf(s, c, n)]) else OnUdpPath(s', c, n)
  {
    WireAfter(s, Lookup(c));
  }

  lemma UdpPathStep(s: RState, step: RStep, c: ConnId, n: nat)
    requires REnabled(s, step) && OnUdpPath(s, c, n) && Grows(s, RApply(s, step))
    ensures || OnUdpPath(RApply(s, step), c, n) || SentByUdp(RApply(s, step), c, n)
            || (ConnOf(s, step) == Some(c) && GivesUp(s, step))
  {
    assert ConnGrows(s.conns[c], RApply(s, step).conns[c]);
    ConnNow(s, step, c);
    if ConnOf(s, step) == Some(c) {
      UdpPathMoves(s, step);
      if step.UdpWrite? && step.ok {
        WrittenOut(s, step, n);
      }
    }
  }

  lemma WrittenOut(s: RState, step: RStep, n: nat)
    requires REnabled(s, step) && step.UdpWrite? && step.ok && s.conns[step.c].popped == n + 1
    ensures SentByUdp(RApply(s, step), step.c, n)
  {
    UdpAfter(s, step);
    assert RApply(s, step).udp[|s.udp|].from == step.c;
  }

  lemma UdpPathMoves(s: RState, step: RStep)
    requires LocallyEnabled(s, step) && ConnOf(s, step).Some? && !step.Accept?
    requires var pc := s.conns[step.c].pc; pc.Resolving? || pc.Linking? || pc.UdpOut?
    ensures ConnAfter(s, step).popped == s.conns[step.c].popped
    ensures var pc := ConnAfter(s, step).pc;
      pc.Resolving? || pc.Linking? || pc.UdpOut? || step.UdpWrite? || GivesUp(s, step)
  {
  }

  lemma SentStep(s: RState, step: RStep, c: ConnId, n: nat, d: ConnId)
    requires REnabled(s, step) && SentTo(s, c, n, d)
    ensures SentTo(RApply(s, step), c, n, d)
  {
    if i :| UsedBy(s, d, i, c, n) {
      WriterStays(s, step, d);
      OrderAfter(s, step, d);
      assert UsedBy(RApply(s, step), d, i, c, n);
    } else if step == Progress(Acquire(Handler(c))) {
      WaitingLocked(s, step, c, n, d);
    } else {
      WaitingStays(s, step, c);
    }
  }

  lemma WaitingLocked(s: RState, step: RStep, c: ConnId, n: nat, d: ConnId)
    requires REnabled(s, step) && step == Progress(Acquire(Handler(c))) && s.wire.sends[Handler(c)].to == d
    requires s.wire.sends[Handler(c)].entry.origin == Local(c, n)
    ensures SentTo(RApply(s, step), c, n, d)
  {
    WriterStays(s, step, d);
    OrderAfter(s, step, d);
    assert UsedBy(RApply(s, step), d, |s.wire.writers[d].order|, c, n);
  }

  lemma WaitingStays(s: RState, step: RStep, c: ConnId)
    requires REnabled(s, step) && WaitingOn(s, Handler(c)) && step != Progress(Acquire(Handler(c)))
    ensures WaitingOn(RApply(s, step), Handler(c))
    ensures RApply(s, step).wire.sends[Handler(c)] == s.wire.sends[Handler(c)]
  {
    WireAfter(s, step);
    if WireMove(s, step).Some? {
      if WireMove(s, step).value == Acquire(Handler(c)) {
        OnlyProgressLocks(s, step, Handler(c));
      }
      WaitingMove(s.wire, WireMove(s, step).value, Handler(c));
    }
  }

  lemma OnlyProgressLocks(s: RState, step: RStep, t: Tid)
    requires WireMove(s, step) == Some(Acquire(t))
    ensures step == Progress(Acquire(t))
  {
  }

  lemma WaitingMove(w: Wire.State, m: Wire.Step, t: Tid)
    requires Wire.Enabled(w, m) && t in w.sends && w.sends[t].stage == Waiting && m != Acquire(t)
    ensures t in Wire.Apply(w, m).sends && Wire.Apply(w, m).sends[t] == w.sends[t]
  {
  }

  // ---- whole runs ----

  lemma ReadyAt(s: RState, c: ConnId)
    requires RoutedInv(s)
    ensures Ready(s, c)
  {
  }

  lemma {:induction false} SentRun(s: RState, steps: seq<RStep>, c: ConnId, n: nat, d: ConnId)
    requires RRun(s, steps) && SentTo(s, c, n, d)
    ensures SentTo(RAfter(s, steps), c, n, d)
    decreases |steps|
  {
    if steps != [] {
      SentStep(s, steps[0], c, n, d);
      SentRun(RApply(s, steps[0]), steps[1..], c, n, d);
    }
  }

  lemma SentByUdpStays(s: RState, step: RStep, c: ConnId, n: nat)
    requires REnabled(s, step) && SentByUdp(s, c, n)
    ensures SentByUdp(RApply(s, step), c, n)
  {
    UdpAfter(s, step);
    var u :| 0 <= u < |s.udp| && s.udp[u].from == c && s.udp[u].index == n;
    assert RApply(s, step).udp[u] == s.udp[u];
  }

  lemma {:induction false} UdpRun(s: RState, steps: seq<RStep>, c: ConnId, n: nat)
    requires RoutedInv(s) && RRun(s, steps) && (OnUdpPath(s, c, n) || SentByUdp(s, c, n))
    ensures var t := RAfter(s, steps); OnUdpPath(t, c, n) || SentByUdp(t, c, n) || Dropped(s, steps, c, n)
    decreases |steps|
  {
    if steps != [] {
      RoutedStep(s, steps[0]);
      if SentByUdp(s, c, n) {
        SentByUdpStays(s, steps[0], c, n);
      } else {
        UdpPathStep(s, steps[0], c, n);
      }
      var s' := RApply(s, steps[0]);
      if OnUdpPath(s', c, n) || SentByUdp(s', c, n) {
        UdpRun(s', steps[1..], c, n);
      }
    }
  }

  /** Where a packet is once it was taken. */
  ghost predicate Handled(s: RState, steps: seq<RStep>, c: ConnId, n: nat)
    requires RRun(s, steps)
  {
    var t := RAfter(s, steps);
    || ToLookUp(t, c, n)
    || (exists d :: Found(s, steps, c, n, d) && SentTo(t, c, n, d))
    || (NotFound(s, steps, c, n) && (OnUdpPath(t, c, n) || SentByUdp(t, c, n) || Dropped(s, steps, c, n)))
  }

  lemma HandledLater(s: RState, steps: seq<RStep>, c: ConnId, n: nat)
    requires RRun(s, steps) && steps != [] && Handled(RApply(s, steps[0]), steps[1..], c, n)
    ensures Handled(s, steps, c, n)
  {
    var s', rest := RApply(s, steps[0]), steps[1..];
    var t := RAfter(s, steps);
    if d :| Found(s', rest, c, n, d) && SentTo(t, c, n, d) {
      assert Found(s, steps, c, n, d);
    }
  }

  lemma HandledNow(s: RState, steps: seq<RStep>, c: ConnId, n: nat)
    requires RoutedInv(s) && RRun(s, steps) && steps != [] && steps[0] == Lookup(c) && WorksOn(s, c, n)
    requires var s' := RApply(s, steps[0]);
      if DestOf(s, c, n) in s.clients then SentTo(s', c, n, s.clients[DestOf(s, c, n)]) else OnUdpPath(s', c, n)
    ensures Handled(s, steps, c, n)
  {
    var s', rest := RApply(s, steps[0]), steps[1..];
    if DestOf(s, c, n) in s.clients {
      var d := s.clients[DestOf(s, c, n)];
      SentRun(s', rest, c, n, d);
      assert Found(s, steps, c, n, d);
    } else {
      RoutedStep(s, steps[0]);
      UdpRun(s', rest, c, n);
    }
  }

  lemma NotReadYet(s: RState, steps: seq<RStep>, c: ConnId, n: nat)
    requires RoutedInv(s) && RRun(s, steps) && PacketAt(RAfter(s, steps), c, n) && !PacketAt(s, c, n)
    ensures Untaken(s, c, n)
  {
    RunGrows(s, steps);
    if c in s.conns {
      assert ConnInv(s, c) && ConnGrows(s.conns[c], RAfter(s, steps).conns[c]);
    }
  }

  lemma {:induction false} PacketRun(s: RState, steps: seq<RStep>, c: ConnId, n: nat)
    requires RoutedInv(s) && RRun(s, steps) && n > 0 && PacketAt(RAfter(s, steps), c, n)
    requires Untaken(s, c, n) || ToLookUp(s, c, n)
    ensures Untaken(RAfter(s, steps), c, n) || Handled(s, steps, c, n)
    decreases |steps|
  {
    if steps != [] {
      var s', rest := RApply(s, steps[0]), steps[1..];
      RoutedStep(s, steps[0]);
      ReadyAt(s, c);
      if ToLookUp(s, c, n) {
        LookupStep(s, steps[0], c, n);
      } else if PacketAt(s', c, n) {
        UntakenStep(s, steps[0], c, n);
      } else {
        NotReadYet(s', rest, c, n);
      }
      if Untaken(s', c, n) || ToLookUp(s', c, n) {
        PacketRun(s', rest, c, n);
        if Handled(s', rest, c, n) {
          HandledLater(s, steps, c, n);
        }
      } else {
        HandledNow(s, steps, c, n);
      }
    }
  }

  /** Every packet a handler has taken is about to be looked up, or was looked up while someone was registered for its
      destination and went to just that connection, or while nobody was, and then it went out by UDP or was given up. */
  lemma EveryPacketIsHandled(serverKey: Key, steps: seq<RStep>, c: ConnId, n: nat)
    requires RRun(Boot(serverKey), steps) && PacketAt(Reached(serverKey, steps), c, n)
    requires 0 < n < Reached(serverKey, steps).conns[c].popped
    ensures Handled(Boot(serverKey), steps, c, n)
  {
    BootIsRouted(serverKey);
    PacketRun(Boot(serverKey), steps, c, n);
  }

  lemma BootIsRouted(serverKey: Key)
    ensures RoutedInv(Boot(serverKey)) && forall c, n, d :: !SentTo(Boot(serverKey), c, n, d)
  {
  }

  // ---- and nobody else gets it ----

  /** The handler of c starts to relay its n-th frame to d. */
  predicate LooksUp(s: RState, step: RStep, c: ConnId, n: nat, d: ConnId) {
    step == Lookup(c) && WorksOn(s, c, n) && DestOf(s, c, n) in s.clients && s.clients[DestOf(s, c, n)] == d
  }

  lemma SentBack(s: RState, step: RStep, c: ConnId, n: nat, d: ConnId)
    requires BasicInv(s) && REnabled(s, step) && SentTo(RApply(s, step), c, n, d)
    ensures SentTo(s, c, n, d) || LooksUp(s, step, c, n, d)
  {
    if i :| UsedBy(RApply(s, step), d, i, c, n) {
      UsedBack(s, step, c, n, d, i);
    } else {
      assert c in s.conns ==> ConnInv(s, c);
      HandsBack(s, step, c, n, d);
    }
  }

  lemma HandsBack(s: RState, step: RStep, c: ConnId, n: nat, d: ConnId)
    requires REnabled(s, step) && WaitingOn(RApply(s, step), Handler(c)) && (c in s.conns ==> ConnInv(s, c))
    requires RApply(s, step).wire.sends[Handler(c)].to == d
    requires RApply(s, step).wire.sends[Handler(c)].entry.origin == Local(c, n)
    ensures SentTo(s, c, n, d) || LooksUp(s, step, c, n, d)
  {
    NewHands(s, step, c);
    if Hands(s.wire, Handler(c)) {
      WaitingBack(s, step, c);
    } else {
      CalledNow(s, step, c);
      LookupCallIs(s, c);
    }
  }

  lemma CalledNow(s: RState, step: RStep, c: ConnId)
    requires REnabled(s, step) && step == Lookup(c)
    requires Hands(RApply(s, step).wire, Handler(c)) && !Hands(s.wire, Handler(c))
    ensures WireMove(s, step).Some?
  {
    WireAfter(s, step);
  }

  lemma UsedBack(s: RState, step: RStep, c: ConnId, n: nat, d: ConnId, i: nat)
    requires BasicInv(s) && REnabled(s, step) && UsedBy(RApply(s, step), d, i, c, n)
    ensures SentTo(s, c, n, d)
  {
    OrderAfter(s, step, d);
    if d in s.wire.writers && i < |s.wire.writers[d].order| {
      assert UsedBy(s, d, i, c, n);
    } else {
      LockedNow(s, step.step.tid, c, n);
    }
  }

  /** A packet at the lock waits there in the name of its own handler. */
  lemma LockedNow(s: RState, t: Tid, c: ConnId, n: nat)
    requires t in s.wire.sends && s.wire.sends[t].stage == Waiting && s.wire.sends[t].entry.origin == Local(c, n)
    requires BasicInv(s)
    ensures SentTo(s, c, n, s.wire.sends[t].to)
  {
    assert CallInv(s, t);
  }

  lemma WaitingBack(s: RState, step: RStep, c: ConnId)
    requires REnabled(s, step) && WaitingOn(s, Handler(c)) && WaitingOn(RApply(s, step), Handler(c))
    ensures RApply(s, step).wire.sends[Handler(c)] == s.wire.sends[Handler(c)]
  {
    WireAfter(s, step);
    if WireMove(s, step).Some? {
      StillWaiting(s.wire, WireMove(s, step).value, Handler(c));
    }
  }

  lemma StillWaiting(w: Wire.State, m: Wire.Step, t: Tid)
    requires Wire.Enabled(w, m) && t in w.sends && w.sends[t].stage == Waiting
    requires t in Wire.Apply(w, m).sends && Wire.Apply(w, m).sends[t].stage == Waiting
    ensures Wire.Apply(w, m).sends[t] == w.sends[t]
  {
  }

  lemma LookupCallIs(s: RState, c: ConnId)
    requires REnabled(s, Lookup(c)) && ConnInv(s, c) && WireMove(s, Lookup(c)).Some?
    ensures var send := RApply(s, Lookup(c)).wire.sends[Handler(c)]; var n := s.conns[c].popped - 1;
      && WorksOn(s, c, n) && send.entry.origin == Local(c, n)
      && DestOf(s, c, n) in s.clients && s.clients[DestOf(s, c, n)] == send.to
  {
    WireAfter(s, Lookup(c));
  }

  lemma {:induction false} SentOnlyWhenFound(s: RState, steps: seq<RStep>, c: ConnId, n: nat, d: ConnId)
    requires RoutedInv(s) && RRun(s, steps) && SentTo(RAfter(s, steps), c, n, d) && !SentTo(s, c, n, d)
    ensures Found(s, steps, c, n, d)
    decreases |steps|
  {
    if steps != [] {
      RoutedStep(s, steps[0]);
      if SentTo(RApply(s, steps[0]), c, n, d) {
        SentBack(s, steps[0], c, n, d);
      } else {
        SentOnlyWhenFound(RApply(s, steps[0]), steps[1..], c, n, d);
      }
    }
  }

  /** A packet goes to the connection that was registered for its destination when it was looked up, and to no other. */
  lemma SentIffFound(serverKey: Key, steps: seq<RStep>, c: ConnId, n: nat, d: ConnId)
    requires RRun(Boot(serverKey), steps)
    ensures SentTo(Reached(serverKey, steps), c, n, d) <==> Found(Boot(serverKey), steps, c, n, d)
  {
    var s := Boot(serverKey);
    BootIsRouted(serverKey);
    if SentTo(Reached(serverKey, steps), c, n, d) {
      SentOnlyWhenFound(s, steps, c, n, d);
    }
    if Found(s, steps, c, n, d) {
      FoundIsSent(s, steps, c, n, d);
    }
  }

  lemma {:induction false} FoundIsSent(s: RState, steps: seq<RStep>, c: ConnId, n: nat, d: ConnId)
    requires RoutedInv(s) && RRun(s, steps) && Found(s, steps, c, n, d)
    ensures SentTo(RAfter(s, steps), c, n, d)
    decreases |steps|
  {
    RoutedStep(s, steps[0]);
    if Found(RApply(s, steps[0]), steps[1..], c, n, d) {
      FoundIsSent(RApply(s, steps[0]), steps[1..], c, n, d);
    } else {
      assert ConnInv(s, c);
      LookedUp(s, c, n);
      SentRun(RApply(s, steps[0]), steps[1..], c, n, d);
    }
  }
}
