/** What holds after every run of the relay, for any number of connections, sessions and goroutines. */
module RelayTheorems {
  import opened Basics
  import opened Frames
  import opened Wire
  import opened Sockets
  import opened Relay
  import opened RelayInv
  import opened RelayCalls
  import opened RelayFifo

  lemma InvariantStep(s: RState, step: RStep)
    requires RInv(s) && REnabled(s, step)
    ensures RInv(RApply(s, step)) && Grows(s, RApply(s, step))
  {
    BasicStep(s, step);
    OwnersKept(s, step);
    RelayedStep(s, step);
    OnceStep(s, step);
  }

  lemma {:induction false} InvariantHolds(s: RState, steps: seq<RStep>)
    requires RInv(s) && RRun(s, steps)
    ensures RInv(RAfter(s, steps))
    decreases |steps|
  {
    if steps != [] {
      InvariantStep(s, steps[0]);
      InvariantHolds(RApply(s, steps[0]), steps[1..]);
    }
  }

  lemma {:induction false} RunGrows(s: RState, steps: seq<RStep>)
    requires RInv(s) && RRun(s, steps)
    ensures Grows(s, RAfter(s, steps))
    decreases |steps|
  {
    if steps == [] {
      GrowsSelf(s);
    } else {
      InvariantStep(s, steps[0]);
      RunGrows(RApply(s, steps[0]), steps[1..]);
      GrowthChains(s, RApply(s, steps[0]), RAfter(s, steps));
    }
  }

  lemma GrowsSelf(s: RState)
    ensures Grows(s, s)
  {
  }

  lemma GrowthChains(a: RState, b: RState, c: RState)
    requires Grows(a, b) && Grows(b, c)
    ensures Grows(a, c)
  {
    forall k | k in a.conns ensures k in c.conns && ConnGrows(a.conns[k], c.conns[k]) {
      assert ConnGrows(a.conns[k], b.conns[k]) && ConnGrows(b.conns[k], c.conns[k]);
    }
    forall k | k in a.loops ensures k in c.loops && LoopGrows(a.loops[k], c.loops[k]) {
      assert LoopGrows(a.loops[k], b.loops[k]) && LoopGrows(b.loops[k], c.loops[k]);
    }
    forall k | k in a.table.sockets ensures SocketOf(c, k, a.table.sockets[k].src, a.table.sockets[k].dst) {
      assert SocketOf(b, k, a.table.sockets[k].src, a.table.sockets[k].dst);
    }
  }

  /** The state the relay is in after the given steps. */
  function Reached(serverKey: Key, steps: seq<RStep>): RState
    requires RRun(Boot(serverKey), steps)
  {
    RAfter(Boot(serverKey), steps)
  }

  lemma ReachedInv(serverKey: Key, steps: seq<RStep>)
    requires RRun(Boot(serverKey), steps)
    ensures RInv(Reached(serverKey, steps))
  {
    InvariantHolds(Boot(serverKey), steps);
  }

  /** The frames the far side of d has been able to read. */
  function Delivered(s: RState, d: ConnId): seq<Frame>
    requires d in s.wire.writers
  {
    DecodeAll(s.wire.writers[d].buf.wire).frames
  }

  lemma OrderFits(s: RState, d: ConnId)
    requires RInv(s) && d in s.wire.writers
    ensures AllFit(FramesOf(s.wire.writers[d].order))
  {
    var order := s.wire.writers[d].order;
    forall i | 0 <= i < |order| ensures Fits(order[i].frame) {
      assert EntryInv(s, d, i);
    }
  }

  /** A client reads exactly the first frames in lock order, never a broken one. */
  lemma DeliveredPrefix(serverKey: Key, steps: seq<RStep>, d: ConnId)
    requires RRun(Boot(serverKey), steps) && d in Reached(serverKey, steps).wire.writers
    ensures var s := Reached(serverKey, steps); var w := s.wire.writers[d]; var m := |Delivered(s, d)|;
      && m <= |w.order| && Delivered(s, d) == FramesOf(w.order[..m])
      && DecodeAll(w.buf.wire).error != TooLarge
      && (w.holder == None && !w.buf.failed ==> m == |w.order|)
  {
    ReachedInv(serverKey, steps);
    var s := Reached(serverKey, steps);
    OrderFits(s, d);
    FarSideReads(s.wire, d);
  }

  predicate From(e: Entry, c: ConnId) {
    e.origin.Local? && e.origin.src == c
  }

  /** FIFO relay. Of the frames delivered to d, the i-th with origin Local(c, n) is the packet in the
      n-th frame c sent, tagged with c's verified key and addressed to d's, and two of them keep c's order. */
  lemma FifoRelay(serverKey: Key, steps: seq<RStep>, c: ConnId, d: ConnId)
    requires RRun(Boot(serverKey), steps)
    requires c in Reached(serverKey, steps).conns && d in Reached(serverKey, steps).wire.writers
    ensures var s := Reached(serverKey, steps);
      var k := s.conns[c]; var got := Delivered(s, d); var order := s.wire.writers[d].order;
      && |got| <= |order| && got == FramesOf(order[..|got|])
      && Prefix(EncodeAll(k.read), k.inbound)
      && (forall i :: 0 <= i < |got| && From(order[i], c) ==>
            var n := order[i].origin.index;
            && n < |k.read| && IsSendPacket(k.read[n]) && k.key.Some?
            && HasKey(s, d, Destination(k.read[n]))
            && got[i] == RecvPacket(k.key.value, Data(k.read[n])))
      && (forall i, j :: 0 <= i < j < |got| && From(order[i], c) && From(order[j], c) ==>
            order[i].origin.index < order[j].origin.index)
  {
    ReachedInv(serverKey, steps);
    DeliveredPrefix(serverKey, steps, d);
    var s := Reached(serverKey, steps);
    var got, order := Delivered(s, d), s.wire.writers[d].order;
    assert ConnInv(s, c);
    forall i | 0 <= i < |got| && From(order[i], c)
      ensures LocalOk(s, c, order[i].origin.index, d, got[i])
    {
      assert EntryInv(s, d, i);
    }
    assert OrderInv(order);
    forall i, j | 0 <= i < j < |got| && From(order[i], c) && From(order[j], c)
      ensures order[i].origin.index < order[j].origin.index
    {
      assert InOrder(order[i].origin, order[j].origin);
    }
  }

  /** The UDP path keeps order too, and no frame is relayed twice over all destinations and both paths. */
  lemma RelayedOnce(serverKey: Key, steps: seq<RStep>)
    requires RRun(Boot(serverKey), steps)
    ensures var s := Reached(serverKey, steps);
      && OnceInv(s)
      && (forall i :: 0 <= i < |s.udp| ==> UdpOk(s, s.udp[i]))
      && (forall i, j :: 0 <= i < j < |s.udp| && s.udp[i].from == s.udp[j].from ==> s.udp[i].index < s.udp[j].index)
  {
    ReachedInv(serverKey, steps);
    var s := Reached(serverKey, steps);
    forall i, j | 0 <= i < j < |s.udp| && s.udp[i].from == s.udp[j].from ensures s.udp[i].index < s.udp[j].index {
      assert InOrder(Local(s.udp[i].from, s.udp[i].index), Local(s.udp[j].from, s.udp[j].index));
    }
  }

  /** Every packet a client has been able to read is a relayed one or a reply, and nothing else. */
  lemma EveryPacketHasASource(serverKey: Key, steps: seq<RStep>, d: ConnId, i: nat)
    requires RRun(Boot(serverKey), steps) && d in Reached(serverKey, steps).wire.writers
    requires i < |Delivered(Reached(serverKey, steps), d)|
    requires Delivered(Reached(serverKey, steps), d)[i].kind == RECV_PACKET
    ensures var s := Reached(serverKey, steps); var f := Delivered(s, d)[i];
      && i < |s.wire.writers[d].order|
      && match s.wire.writers[d].order[i].origin
         case Control => false
         case Local(c, n) => LocalOk(s, c, n, d, f)
         case Reply(sid, n) => ReplyOk(s, sid, n, d, f)
  {
    DeliveredPrefix(serverKey, steps, d);
    ReachedInv(serverKey, steps);
    assert EntryInv(Reached(serverKey, steps), d, i);
  }

  /** Reply attribution: an injected frame holds one datagram from the filtered IP, carries the session's
      destination key and goes to a connection of the session's source; datagrams keep their order. */
  lemma ReplyAttribution(serverKey: Key, steps: seq<RStep>, d: ConnId, i: nat)
    requires RRun(Boot(serverKey), steps)
    requires d in Reached(serverKey, steps).wire.writers
    requires i < |Reached(serverKey, steps).wire.writers[d].order|
    requires Reached(serverKey, steps).wire.writers[d].order[i].origin.Reply?
    ensures var s := Reached(serverKey, steps); var order := s.wire.writers[d].order;
      var sid, n := order[i].origin.sess, order[i].origin.index;
      && sid in s.loops && n < |s.loops[sid].got|
      && SocketOf(s, sid, s.loops[sid].src, s.loops[sid].dst)
      && HasKey(s, d, s.loops[sid].src)
      && s.loops[sid].got[n].from == s.loops[sid].filter
      && order[i].frame == RecvPacket(s.loops[sid].dst, s.loops[sid].got[n].data)
      && (forall j :: i < j < |order| && order[j].origin.Reply? && order[j].origin.sess == sid ==>
            n < order[j].origin.index)
  {
    ReachedInv(serverKey, steps);
    var s := Reached(serverKey, steps);
    var order := s.wire.writers[d].order;
    assert EntryInv(s, d, i) && LoopInv(s, order[i].origin.sess);
    assert OrderInv(order);
    forall j | i < j < |order| && order[j].origin.Reply? && order[j].origin.sess == order[i].origin.sess
      ensures order[i].origin.index < order[j].origin.index
    {
      assert InOrder(order[i].origin, order[j].origin);
    }
  }

  /** The filter is the session's address when its loop starts, whatever roams or is removed later. */
  lemma FilterFixed(s: RState, sid: SessId, steps: seq<RStep>)
    requires RInv(s) && REnabled(s, LoopStart(sid)) && RRun(RApply(s, LoopStart(sid)), steps)
    ensures var t := RAfter(RApply(s, LoopStart(sid)), steps);
      sid in t.loops && t.loops[sid].filter == s.table.sockets[sid].addr.ip
  {
    var s' := RApply(s, LoopStart(sid));
    InvariantStep(s, LoopStart(sid));
    RunGrows(s', steps);
    assert LoopGrows(s'.loops[sid], RAfter(s', steps).loops[sid]);
  }

  /** Ownership across reconnects. */
  lemma Ownership(serverKey: Key, steps: seq<RStep>, key: Key)
    requires RRun(Boot(serverKey), steps)
    ensures var s := Reached(serverKey, steps);
      && (key in s.clients ==> HasKey(s, s.clients[key], key) && Serving(s.conns[s.clients[key]].pc))
      && ((forall c :: !OwnerOf(s, c, key)) ==> forall p :: p in s.table.entries ==> p.0 != key)
      && Conserved(s.table)
  {
    ReachedInv(serverKey, steps);
    var s := Reached(serverKey, steps);
    forall p | p in s.table.entries && p.0 == key ensures exists c :: OwnerOf(s, c, key) {
      assert exists c :: OwnerOf(s, c, p.0);
    }
  }

  // ---- who is routed to ----

  /** A step that writes the registry entry of a key. */
  predicate Touches(s: RState, step: RStep, key: Key) {
    (step.Join? || step.Leave?) && HasKey(s, step.c, key)
  }

  lemma TouchOrKeep(s: RState, step: RStep, key: Key)
    requires REnabled(s, step)
    ensures var s' := RApply(s, step);
      if !Touches(s, step, key) then
        (key in s'.clients <==> key in s.clients) && (key in s.clients ==> s'.clients[key] == s.clients[key])
      else if step.Join? then key in s'.clients && s'.clients[key] == step.c
      else key !in s'.clients
  {
    ClientsAfter(s, step);
  }

  predicate NoTouch(s: RState, steps: seq<RStep>, key: Key)
    requires RRun(s, steps)
    decreases |steps|
  {
    steps == [] || (!Touches(s, steps[0], key) && NoTouch(RApply(s, steps[0]), steps[1..], key))
  }

  /** The run contains a Join of c under the key with no Join or Leave for that key after it. */
  predicate LastJoined(s: RState, steps: seq<RStep>, key: Key, c: ConnId)
    requires RRun(s, steps)
    decreases |steps|
  {
    steps != [] &&
    var s' := RApply(s, steps[0]);
    || (steps[0] == Join(c) && HasKey(s, c, key) && NoTouch(s', steps[1..], key))
    || LastJoined(s', steps[1..], key, c)
  }

  lemma {:induction false} Untouched(s: RState, steps: seq<RStep>, key: Key)
    requires RRun(s, steps) && NoTouch(s, steps, key)
    ensures var t := RAfter(s, steps);
      (key in t.clients <==> key in s.clients) && (key in s.clients ==> t.clients[key] == s.clients[key])
    ensures forall c :: !LastJoined(s, steps, key, c)
    decreases |steps|
  {
    if steps != [] {
      TouchOrKeep(s, steps[0], key);
      Untouched(RApply(s, steps[0]), steps[1..], key);
    }
  }

  /** A connection is the one routed to exactly when the last registry write for its key is its own Join:
      a later Join, or the Leave of any older connection with that key, takes it out while it still serves. */
  lemma {:induction false} RoutedIffLastJoined(s: RState, steps: seq<RStep>, key: Key, c: ConnId)
    requires RRun(s, steps) && key !in s.clients
    ensures var t := RAfter(s, steps); key in t.clients && t.clients[key] == c <==> LastJoined(s, steps, key, c)
  {
    RoutedFrom(s, steps, key, c);
    if NoTouch(s, steps, key) {
      Untouched(s, steps, key);
    }
  }

  lemma {:induction false} RoutedFrom(s: RState, steps: seq<RStep>, key: Key, c: ConnId)
    requires RRun(s, steps)
    ensures var t := RAfter(s, steps);
      key in t.clients && t.clients[key] == c <==>
      LastJoined(s, steps, key, c) || (NoTouch(s, steps, key) && key in s.clients && s.clients[key] == c)
    decreases |steps|
  {
    if steps != [] {
      var s' := RApply(s, steps[0]);
      TouchOrKeep(s, steps[0], key);
      RoutedFrom(s', steps[1..], key, c);
      if NoTouch(s', steps[1..], key) {
        Untouched(s', steps[1..], key);
      }
    }
  }
}
