/** A run in which a connection that is still served is no longer routed to. */
module RelayEviction {
  import opened Basics
  import opened Frames
  import opened Wire
  import opened Relay
  import opened RelayInv

  ghost predicate Leads(s: RState, t: RState) {
    exists steps :: RRun(s, steps) && RAfter(s, steps) == t
  }

  lemma {:induction false} RunConcat(s: RState, a: seq<RStep>, b: seq<RStep>)
    requires RRun(s, a) && RRun(RAfter(s, a), b)
    ensures RRun(s, a + b) && RAfter(s, a + b) == RAfter(RAfter(s, a), b)
    decreases |a|
  {
    if a == [] {
      assert a + b == b;
    } else {
      HeadAndTail(a, b);
      RunConcat(RApply(s, a[0]), a[1..], b);
    }
  }

  lemma LeadsOn(s: RState, t: RState, u: RState)
    requires Leads(s, t) && Leads(t, u)
    ensures Leads(s, u)
  {
    var a :| RRun(s, a) && RAfter(s, a) == t;
    var b :| RRun(t, b) && RAfter(t, b) == u;
    RunConcat(s, a, b);
  }

  lemma OneStep(s: RState, step: RStep) returns (t: RState)
    requires REnabled(s, step)
    ensures t == RApply(s, step) && Leads(s, t)
  {
    t := RApply(s, step);
    var steps := [step];
    assert steps[1..] == [] && RRun(t, []) && RAfter(t, []) == t;
    assert RRun(s, steps);
    assert RAfter(s, steps) == t;
  }

  lemma ThenStep(s: RState, t: RState, step: RStep) returns (u: RState)
    requires Leads(s, t) && REnabled(t, step)
    ensures u == RApply(t, step) && Leads(s, u)
  {
    u := OneStep(t, step);
    LeadsOn(s, t, u);
  }

  // ---- one frame sent by a handler to its own connection ----

  /** The handler of c is about to send on its own, idle connection. */
  predicate AboutToSend(s: RState, c: ConnId, next: Next) {
    && Inside(s, c, Relay.Pc.Sending(next)) && Handler(c) in s.wire.sends
    && s.wire.sends[Handler(c)].to == c && s.wire.sends[Handler(c)].stage == Waiting
    && Healthy(s.wire, c)
  }

  predicate Healthy(w: Wire.State, c: ConnId) {
    c in w.writers && w.writers[c].holder == None && !w.writers[c].buf.failed
  }

  lemma ProgressIs(s: RState, m: Wire.Step)
    requires REnabled(s, Progress(m))
    ensures RApply(s, Progress(m)) == s.(wire := Wire.Apply(s.wire, m))
  {
  }

  /** The handler of c has got this far with its frame; only the wire has changed. */
  predicate OnTheWay(s: RState, t: RState, c: ConnId, stage: Stage) {
    && t == s.(wire := t.wire) && Wire.Sending(t.wire, Handler(c), stage)
    && t.wire.sends[Handler(c)].to == c && !t.wire.writers[c].buf.failed
    && t.wire.sends.Keys == s.wire.sends.Keys && t.wire.writers.Keys == s.wire.writers.Keys
  }

  lemma Locked(s: RState, c: ConnId, next: Next) returns (t: RState)
    requires AboutToSend(s, c, next)
    ensures Leads(s, t) && OnTheWay(s, t, c, AtHeader)
  {
    ProgressIs(s, Acquire(Handler(c)));
    t := OneStep(s, Progress(Acquire(Handler(c))));
  }

  lemma HeaderOut(s: RState, c: ConnId) returns (t: RState)
    requires OnTheWay(s, s, c, AtHeader)
    ensures Leads(s, t) && (OnTheWay(s, t, c, AtPayload) || OnTheWay(s, t, c, AtFlush))
  {
    ProgressIs(s, PutHeader(Handler(c), 0, true));
    t := OneStep(s, Progress(PutHeader(Handler(c), 0, true)));
  }

  lemma PayloadOut(s: RState, c: ConnId) returns (t: RState)
    requires OnTheWay(s, s, c, AtPayload)
    ensures Leads(s, t) && OnTheWay(s, t, c, AtFlush)
  {
    ProgressIs(s, PutPayload(Handler(c), 0, true));
    t := OneStep(s, Progress(PutPayload(Handler(c), 0, true)));
  }

  lemma Flushed(s: RState, c: ConnId) returns (t: RState)
    requires OnTheWay(s, s, c, AtFlush)
    ensures Leads(s, t) && OnTheWay(s, t, c, AtUnlock(true))
  {
    var all := |s.wire.writers[c].buf.pending|;
    ProgressIs(s, Flush(Handler(c), all, true));
    t := OneStep(s, Progress(Flush(Handler(c), all, true)));
  }

  /** From the lock to the flush. */
  lemma FrameOut(s: RState, c: ConnId, next: Next) returns (t: RState)
    requires AboutToSend(s, c, next)
    ensures Leads(s, t) && OnTheWay(s, t, c, AtUnlock(true))
  {
    var u := Locked(s, c, next);
    var v := HeaderOut(u, c);
    LeadsOn(s, u, v);
    if OnTheWay(u, v, c, AtPayload) {
      var w := PayloadOut(v, c);
      LeadsOn(s, v, w);
      v := w;
    }
    t := Flushed(v, c);
    LeadsOn(s, v, t);
  }

  /** The two states agree on everything but the connection c, its writer and its calls. */
  predicate Aside(s: RState, t: RState, c: ConnId) {
    && t.conns - {c} == s.conns - {c}
    && t.wire.sends.Keys - {Handler(c)} == s.wire.sends.Keys - {Handler(c)}
    && t.wire.writers.Keys - {c} == s.wire.writers.Keys - {c}
  }

  predicate Idle(s: RState, c: ConnId, k: Conn) {
    c in s.conns && s.conns[c] == k && Healthy(s.wire, c) && Handler(c) !in s.wire.sends
  }

  /** The call returns and the handler goes on. */
  lemma SendOut(s: RState, c: ConnId, next: Next) returns (t: RState)
    requires AboutToSend(s, c, next)
    ensures Leads(s, t) && Aside(s, t, c) && t.clients == s.clients
    ensures Idle(t, c, s.conns[c].(pc := AfterSend(next, true)))
  {
    t := FrameOut(s, c, next);
    t := ThenStep(s, t, HandlerReturn(c));
  }

  // ---- a handshake ----

  predicate Unknown(s: RState, c: ConnId) {
    c !in s.conns && c !in s.wire.writers && Handler(c) !in s.wire.sends
  }

  lemma Accepted(s: RState, c: ConnId) returns (t: RState)
    requires Unknown(s, c)
    ensures Leads(s, t) && Aside(s, t, c) && t.clients == s.clients && Idle(t, c, NEW_CONN)
  {
    t := OneStep(s, Accept(c));
  }

  lemma KeySent(s: RState, c: ConnId, k: Conn) returns (t: RState)
    requires Idle(s, c, k) && k.pc == Greet
    ensures Leads(s, t) && Aside(s, t, c) && t.clients == s.clients && AboutToSend(t, c, ToHello)
    ensures t.conns[c] == k.(pc := Relay.Pc.Sending(ToHello))
  {
    t := OneStep(s, SendServerKey(c));
  }

  lemma Greeted(s: RState, c: ConnId) returns (t: RState)
    requires Unknown(s, c)
    ensures Leads(s, t) && Aside(s, t, c) && t.clients == s.clients && Idle(t, c, NEW_CONN.(pc := Hello))
  {
    var u := Accepted(s, c);
    var v := KeySent(u, c, NEW_CONN);
    LeadsOn(s, u, v);
    t := SendOut(v, c, ToHello);
    LeadsOn(s, v, t);
  }

  lemma HelloArrives(s: RState, c: ConnId, hello: Bytes) returns (t: RState)
    requires Idle(s, c, NEW_CONN.(pc := Hello))
    ensures Leads(s, t) && Aside(s, t, c) && t.clients == s.clients
    ensures Idle(t, c, NEW_CONN.(pc := Hello, inbound := hello))
  {
    t := OneStep(s, ClientBytes(c, hello));
    assert [] + hello == hello;
  }

  /** The client's key is verified. */
  lemma Verified(s: RState, c: ConnId, key: Key) returns (t: RState, k: Conn)
    requires Idle(s, c, NEW_CONN.(pc := Hello, inbound := Encode(Frame(CLIENT_INFO, key))))
    ensures Leads(s, t) && Aside(s, t, c) && t.clients == s.clients && Idle(t, c, k)
    ensures k.pc == Info && k.key == Some(key)
  {
    var f := Frame(CLIENT_INFO, key);
    ParseEncode(f, []);
    assert s.conns[c].inbound[0..] == Encode(f) + [];
    assert f.payload[..PUB_KEY_LEN] == key;
    t := OneStep(s, ReadHello(c, false, true));
    k := t.conns[c];
  }

  lemma InfoSent(s: RState, c: ConnId, k: Conn) returns (t: RState)
    requires Idle(s, c, k) && k.pc == Info
    ensures Leads(s, t) && Aside(s, t, c) && t.clients == s.clients && AboutToSend(t, c, ToRegister)
    ensures t.conns[c] == k.(pc := Relay.Pc.Sending(ToRegister))
  {
    t := OneStep(s, SendServerInfo(c, []));
  }

  lemma Entered(s: RState, c: ConnId, k: Conn, key: Key) returns (t: RState)
    requires Idle(s, c, k) && k.pc == Register && k.key == Some(key)
    ensures Leads(s, t) && Aside(s, t, c) && t.clients == s.clients[key := c]
    ensures Idle(t, c, k.(pc := Select, reader := Reading))
  {
    t := OneStep(s, Join(c));
  }

  /** The second half of the handshake. */
  lemma Registered(s: RState, c: ConnId, k: Conn, key: Key) returns (t: RState)
    requires Idle(s, c, k) && k.pc == Info && k.key == Some(key)
    ensures Leads(s, t) && Aside(s, t, c) && t.clients == s.clients[key := c]
    ensures Idle(t, c, k.(pc := Select, reader := Reading))
  {
    var u := InfoSent(s, c, k);
    var v := SendOut(u, c, ToRegister);
    LeadsOn(s, u, v);
    t := Entered(v, c, k.(pc := Register), key);
    LeadsOn(s, v, t);
  }

  lemma Handshake(s: RState, c: ConnId, key: Key) returns (t: RState)
    requires Unknown(s, c)
    ensures Leads(s, t) && Aside(s, t, c) && t.clients == s.clients[key := c]
    ensures HasKey(t, c, key) && t.conns[c].pc == Select
  {
    var u := Greeted(s, c);
    var v := HelloArrives(u, c, Encode(Frame(CLIENT_INFO, key)));
    LeadsOn(s, u, v);
    var w, k := Verified(v, c, key);
    LeadsOn(s, v, w);
    t := Registered(w, c, k, key);
    LeadsOn(s, w, t);
  }

  // ---- an older handler leaves ----

  lemma HandlerEnds(s: RState, c: ConnId, key: Key) returns (t: RState)
    requires HasKey(s, c, key) && s.conns[c].pc == Select
    ensures Leads(s, t) && t.clients == s.clients - {key} && t.conns - {c} == s.conns - {c}
  {
    t := OneStep(s, ContextDone(c));
    t := ThenStep(s, t, Leave(c));
  }

  /** Two connections of one client, the second taking over; then the handler of the first ends. */
  lemma EvictedWhileServed(serverKey: Key, key: Key) returns (t: RState)
    ensures Leads(Boot(serverKey), t)
    ensures HasKey(t, 1, key) && Serving(t.conns[1].pc) && key !in t.clients
  {
    var s := Boot(serverKey);
    var u := Handshake(s, 0, key);
    assert 1 !in u.conns - {0} && 1 !in u.wire.writers.Keys - {0} && Handler(1) !in u.wire.sends.Keys - {Handler(0)};
    var v := Handshake(u, 1, key);
    LeadsOn(s, u, v);
    assert 0 in u.conns - {1} && (v.conns - {1})[0] == u.conns[0];
    t := HandlerEnds(v, 0, key);
    LeadsOn(s, v, t);
    assert (t.conns - {0})[1] == v.conns[1];
  }
}
