/** Whose key a connection has: only a handshake whose box opened gives one. */
module RelayHandshake {
  import opened Basics
  import opened Frames
  import opened Wire
  import opened Relay
  import opened RelayInv
  import opened RelayTheorems

  /** The bytes c has sent and not yet had read begin with a ClientInfo frame that names the key. */
  predicate Names(k: Conn, key: Key) {
    k.pos <= |k.inbound| &&
    var p := Parse(k.inbound[k.pos..]);
    && p.Good? && p.frame.kind == CLIENT_INFO && |p.frame.payload| >= 32
    && p.frame.payload[..32] == key
  }

  /** The handler of c reads that frame and its box opens under the key. */
  predicate Proves(s: RState, step: RStep, c: ConnId, key: Key) {
    step == ReadHello(c, false, true) && c in s.conns && Names(s.conns[c], key)
  }

  /** The run contains such a step. */
  predicate Proven(s: RState, steps: seq<RStep>, c: ConnId, key: Key)
    requires RRun(s, steps)
    decreases |steps|
  {
    steps != [] && (Proves(s, steps[0], c, key) || Proven(RApply(s, steps[0]), steps[1..], c, key))
  }

  lemma ConnKey(s: RState, step: RStep, c: ConnId)
    requires REnabled(s, step) && c in s.conns && !(step.ReadHello? && step.c == c)
    ensures c in RApply(s, step).conns && RApply(s, step).conns[c].key == s.conns[c].key
  {
  }

  lemma HelloKey(s: RState, step: RStep, key: Key)
    requires LocallyEnabled(s, step) && step.ReadHello? && PcInv(s.conns[step.c])
    ensures ConnAfter(s, step).key == Some(key) <==> Proves(s, step, step.c, key)
  {
  }

  lemma NoEarlyHello(s: RState, step: RStep, c: ConnId, key: Key)
    requires REnabled(s, step) && c in s.conns && ConnInv(s, c) && HasKey(s, c, key)
    ensures !(step.ReadHello? && step.c == c)
  {
  }

  lemma KeyStep(s: RState, step: RStep, c: ConnId, key: Key)
    requires BasicInv(s) && REnabled(s, step)
    ensures HasKey(RApply(s, step), c, key) <==> HasKey(s, c, key) || Proves(s, step, c, key)
  {
    if c in s.conns {
      assert ConnInv(s, c);
      if step.ReadHello? && step.c == c {
        HelloKey(s, step, key);
        assert RApply(s, step).conns[c] == ConnAfter(s, step);
        if HasKey(s, c, key) {
          NoEarlyHello(s, step, c, key);
        }
      } else {
        ConnKey(s, step, c);
      }
    }
  }

  lemma {:induction false} KeyRun(s: RState, steps: seq<RStep>, c: ConnId, key: Key)
    requires RInv(s) && RRun(s, steps)
    ensures HasKey(RAfter(s, steps), c, key) <==> HasKey(s, c, key) || Proven(s, steps, c, key)
    decreases |steps|
  {
    if steps != [] {
      KeyStep(s, steps[0], c, key);
      InvariantStep(s, steps[0]);
      KeyRun(RApply(s, steps[0]), steps[1..], c, key);
    }
  }

  /** A connection has a key if and only if it sent a ClientInfo frame with that key whose box opened. */
  lemma KeyIffProven(serverKey: Key, steps: seq<RStep>, c: ConnId, key: Key)
    requires RRun(Boot(serverKey), steps)
    ensures HasKey(Reached(serverKey, steps), c, key) <==> Proven(Boot(serverKey), steps, c, key)
  {
    KeyRun(Boot(serverKey), steps, c, key);
  }

  /** A connection that has proved no key is not routed to, has no reply loop, and is the source of nothing relayed:
      no frame on any writer, none waiting for one, no datagram. */
  lemma StrangersGetNothing(serverKey: Key, steps: seq<RStep>, c: ConnId)
    requires RRun(Boot(serverKey), steps) && forall key :: !Proven(Boot(serverKey), steps, c, key)
    ensures var s := Reached(serverKey, steps);
      && (forall key :: key in s.clients ==> s.clients[key] != c)
      && (forall sid :: sid in s.loops ==> s.loops[sid].conn != c)
      && (forall d, i :: d in s.wire.writers && 0 <= i < |s.wire.writers[d].order| ==>
            !From(s.wire.writers[d].order[i], c))
      && (forall t :: WaitingOn(s, t) ==> !From(s.wire.sends[t].entry, c))
      && (forall u :: 0 <= u < |s.udp| ==> s.udp[u].from != c)
  {
    var s := Reached(serverKey, steps);
    ReachedInv(serverKey, steps);
    forall key ensures !HasKey(s, c, key) {
      KeyIffProven(serverKey, steps, c, key);
    }
    NoKey(s, c);
    NothingFrom(s, c);
  }

  lemma NoKey(s: RState, c: ConnId)
    requires forall key :: !HasKey(s, c, key)
    ensures c in s.conns ==> s.conns[c].key == None
  {
    if c in s.conns && s.conns[c].key.Some? {
      assert HasKey(s, c, s.conns[c].key.value);
    }
  }

  lemma NothingFrom(s: RState, c: ConnId)
    requires RInv(s) && (c in s.conns ==> s.conns[c].key == None)
    ensures forall key :: key in s.clients ==> s.clients[key] != c
    ensures forall sid :: sid in s.loops ==> s.loops[sid].conn != c
    ensures forall d, i :: d in s.wire.writers && 0 <= i < |s.wire.writers[d].order| ==>
      !From(s.wire.writers[d].order[i], c)
    ensures forall t :: WaitingOn(s, t) ==> !From(s.wire.sends[t].entry, c)
    ensures forall u :: 0 <= u < |s.udp| ==> s.udp[u].from != c
  {
    forall sid | sid in s.loops ensures s.loops[sid].conn != c {
      assert LoopInv(s, sid);
    }
    forall d, i | d in s.wire.writers && 0 <= i < |s.wire.writers[d].order|
      ensures !From(s.wire.writers[d].order[i], c)
    {
      assert EntryInv(s, d, i);
    }
    forall t | WaitingOn(s, t) ensures !From(s.wire.sends[t].entry, c) {
      assert CallInv(s, t);
    }
  }

  /** Every session has a source key that some connection has proved. */
  lemma SessionsAreProven(serverKey: Key, steps: seq<RStep>, p: Sockets.Pair) returns (c: ConnId)
    requires RRun(Boot(serverKey), steps) && p in Reached(serverKey, steps).table.entries
    ensures Proven(Boot(serverKey), steps, c, p.0)
  {
    ReachedInv(serverKey, steps);
    var s := Reached(serverKey, steps);
    c :| OwnerOf(s, c, p.0);
    KeyIffProven(serverKey, steps, c, p.0);
  }
}
