/** What a connection is told besides packets: the greeting first, and then an answer to each of its pings. */
module RelayControl {
  import opened Basics
  import opened Frames
  import opened Wire
  import opened Relay
  import opened RelayInv
  import opened RelaySteps
  import opened RelayCalls
  import opened RelayFifo
  import opened RelayTheorems

  /** The frames of a log that are neither relayed packets nor replies. */
  function Controls(order: seq<Entry>): seq<Frame> {
    if order == [] then []
    else
      var e := order[|order| - 1];
      Controls(order[..|order| - 1]) + if e.origin.Control? then [e.frame] else []
  }

  lemma ControlsSnoc(order: seq<Entry>, e: Entry)
    ensures Controls(order + [e]) == Controls(order) + if e.origin.Control? then [e.frame] else []
  {
    assert (order + [e])[..|order|] == order;
  }

  /** The control frame the handler of c has at a lock. */
  function OwnCall(w: Wire.State, c: ConnId): seq<Frame> {
    var t := Handler(c);
    if t in w.sends && w.sends[t].stage == Waiting && w.sends[t].entry.origin.Control? then [w.sends[t].entry.frame]
    else []
  }

  function Said(w: Wire.State, c: ConnId): seq<Frame>
    requires c in w.writers
  {
    Controls(w.writers[c].order) + OwnCall(w, c)
  }

  function Answers(said: seq<Frame>): seq<Bytes> {
    if said == [] then []
    else
      var f := said[|said| - 1];
      Answers(said[..|said| - 1]) + if f.kind == PONG then [f.payload] else []
  }

  function Pings(read: seq<Frame>): seq<Bytes> {
    if read == [] then []
    else
      var f := read[|read| - 1];
      Pings(read[..|read| - 1]) + if f.kind == PING && |f.payload| == 8 then [f.payload] else []
  }

  // ---- who sends control frames ----

  /** A control frame at the lock is its handler's own, for its own connection. */
  predicate OwnControl(w: Wire.State, t: Tid) {
    t in w.sends && w.sends[t].stage == Waiting && w.sends[t].entry.origin.Control? ==>
      t.Handler? && w.sends[t].to == t.conn
  }

  /** The control frame a move of the wire begins to send for c. */
  function Starts(m: Wire.Step, c: ConnId): seq<Frame> {
    if m.Begin? && m.tid == Handler(c) && m.entry.origin.Control? then [m.entry.frame] else []
  }

  lemma SaidMove(w: Wire.State, m: Wire.Step, c: ConnId)
    requires Wire.Enabled(w, m) && c in w.writers && forall t :: OwnControl(w, t)
    ensures c in Wire.Apply(w, m).writers && Said(Wire.Apply(w, m), c) == Said(w, c) + Starts(m, c)
  {
    if m.Acquire? {
      assert OwnControl(w, m.tid);
      SaidLock(w, m.tid, c);
    } else {
      OtherMove(w, m, c);
      SameSaid(Controls(w.writers[c].order), OwnCall(w, c), Starts(m, c));
    }
  }

  lemma SameSaid(a: seq<Frame>, b: seq<Frame>, more: seq<Frame>)
    ensures (a + b) + more == a + (b + more)
  {
  }

  /** Taking the lock moves a frame from the call into the log. */
  lemma SaidLock(w: Wire.State, t: Tid, c: ConnId)
    requires Wire.Enabled(w, Acquire(t)) && c in w.writers && OwnControl(w, t)
    ensures var w' := Wire.Apply(w, Acquire(t));
      c in w'.writers && Said(w', c) == Said(w, c) && Starts(Acquire(t), c) == []
    ensures Said(w, c) + [] == Said(w, c)
  {
    var w', e := Wire.Apply(w, Acquire(t)), w.sends[t].entry;
    LockMoves(w, t, c);
    if w.sends[t].to == c {
      ControlsSnoc(w.writers[c].order, e);
      FrameMoves(Controls(w.writers[c].order), OwnCall(w, c), if e.origin.Control? then [e.frame] else [],
                 OwnCall(w', c));
    }
  }

  lemma LockMoves(w: Wire.State, t: Tid, c: ConnId)
    requires Wire.Enabled(w, Acquire(t)) && c in w.writers && OwnControl(w, t)
    ensures var w', e := Wire.Apply(w, Acquire(t)), w.sends[t].entry;
      && c in w'.writers
      && w'.writers[c].order == (if w.sends[t].to == c then w.writers[c].order + [e] else w.writers[c].order)
      && OwnCall(w, c) == (if w.sends[t].to == c && e.origin.Control? then [e.frame] else []) + OwnCall(w', c)
  {
  }

  lemma FrameMoves(log: seq<Frame>, own: seq<Frame>, f: seq<Frame>, rest: seq<Frame>)
    requires own == f + rest
    ensures (log + f) + rest == log + own
  {
  }

  lemma OtherMove(w: Wire.State, m: Wire.Step, c: ConnId)
    requires Wire.Enabled(w, m) && c in w.writers && !m.Acquire?
    ensures c in Wire.Apply(w, m).writers && Wire.Apply(w, m).writers[c].order == w.writers[c].order
    ensures OwnCall(Wire.Apply(w, m), c) == OwnCall(w, c) + Starts(m, c)
  {
  }

  lemma BeginsOwn(s: RState, step: RStep)
    requires WireMove(s, step).Some? && WireMove(s, step).value.Begin? && WireMove(s, step).value.entry.origin.Control?
    requires !step.Progress?
    ensures var m := WireMove(s, step).value; ConnOf(s, step).Some? && m.tid == Handler(step.c) && m.to == step.c
  {
  }

  lemma OwnControlMove(w: Wire.State, m: Wire.Step, t: Tid)
    requires Wire.Enabled(w, m) && OwnControl(w, t)
    requires m.Begin? && m.entry.origin.Control? ==> m.tid == Handler(m.to)
    ensures OwnControl(Wire.Apply(w, m), t)
  {
  }

  lemma OwnControlStep(s: RState, step: RStep)
    requires REnabled(s, step) && forall t :: OwnControl(s.wire, t)
    ensures forall t :: OwnControl(RApply(s, step).wire, t)
  {
    WireAfter(s, step);
    if WireMove(s, step).Some? {
      var m := WireMove(s, step).value;
      if m.Begin? && m.entry.origin.Control? {
        BeginsOwn(s, step);
      }
      forall t ensures OwnControl(RApply(s, step).wire, t) {
        OwnControlMove(s.wire, m, t);
      }
    }
  }

  // ---- what a connection has been told ----

  predicate Greeted(serverKey: Key, said: seq<Frame>) {
    |said| >= 2 && said[0] == Frame(SERVER_KEY, MAGIC + serverKey) && said[1].kind == SERVER_INFO
  }

  /** After the greeting: keep-alives and, in order, an answer to every ping taken. */
  predicate Full(serverKey: Key, k: Conn, said: seq<Frame>) {
    && Greeted(serverKey, said) && 1 <= k.popped <= |k.read|
    && (forall i :: 2 <= i < |said| ==> said[i].kind == PONG || said[i] == Frame(KEEP_ALIVE, []))
    && Answers(said[2..]) == Pings(k.read[1..k.popped])
  }

  predicate OnlyKey(serverKey: Key, said: seq<Frame>) {
    said == [Frame(SERVER_KEY, MAGIC + serverKey)]
  }

  predicate Told(serverKey: Key, k: Conn, said: seq<Frame>) {
    match k.pc
    case Greet => said == [] && k.read == []
    case Hello => OnlyKey(serverKey, said) && k.read == []
    case Info => OnlyKey(serverKey, said) && k.popped == 1
    case Sending(next) =>
      if next.ToHello? then OnlyKey(serverKey, said) && k.read == []
      else Full(serverKey, k, said) && (next.ToRegister? ==> |said| == 2 && k.popped == 1)
    case Register => Full(serverKey, k, said) && |said| == 2 && k.popped == 1
    case HangUp => (OnlyKey(serverKey, said) && k.popped <= 1) || Full(serverKey, k, said)
    case Gone => (OnlyKey(serverKey, said) && k.popped <= 1) || Full(serverKey, k, said)
    case _ => Full(serverKey, k, said)
  }

  lemma AnswersSnoc(said: seq<Frame>, f: Frame)
    ensures Answers(said + [f]) == Answers(said) + if f.kind == PONG then [f.payload] else []
  {
    assert (said + [f])[..|said|] == said;
  }

  lemma PingsSnoc(read: seq<Frame>, f: Frame)
    ensures Pings(read + [f]) == Pings(read) + if f.kind == PING && |f.payload| == 8 then [f.payload] else []
  {
    assert (read + [f])[..|read|] == read;
  }

  lemma FullSays(serverKey: Key, k: Conn, said: seq<Frame>, f: Frame)
    requires Full(serverKey, k, said) && f == Frame(KEEP_ALIVE, [])
    ensures Full(serverKey, k, said + [f])
  {
    assert (said + [f])[2..] == said[2..] + [f];
    AnswersSnoc(said[2..], f);
  }

  /** The next frame is taken and answered if it is a ping. */
  lemma FullTakes(serverKey: Key, k: Conn, k': Conn, said: seq<Frame>)
    requires Full(serverKey, k, said) && k.popped < |k.read| && k'.popped == k.popped + 1 && k'.read == k.read
    ensures var f := k.read[k.popped];
      Full(serverKey, k', said + if IsPing(f) then [Frame(PONG, f.payload)] else [])
  {
    var f := k.read[k.popped];
    assert k.read[1..k.popped + 1] == k.read[1..k.popped] + [f];
    PingsSnoc(k.read[1..k.popped], f);
    if IsPing(f) {
      var g := Frame(PONG, f.payload);
      assert (said + [g])[2..] == said[2..] + [g];
      AnswersSnoc(said[2..], g);
    } else {
      assert said + [] == said;
    }
  }

  lemma SamePart(a: seq<Frame>, b: seq<Frame>, n: nat)
    requires |a| <= |b| && a == b[..|a|] && 1 <= n <= |a|
    ensures b[1..n] == a[1..n]
  {
  }

  lemma FullGrows(serverKey: Key, k: Conn, k': Conn, said: seq<Frame>)
    requires Full(serverKey, k, said) && ConnGrows(k, k') && k'.popped == k.popped
    ensures Full(serverKey, k', said)
  {
    SamePart(k.read, k'.read, k.popped);
  }

  // ---- one step ----

  function NewlySaid(s: RState, step: RStep, c: ConnId): seq<Frame> {
    match WireMove(s, step)
    case Some(m) => Starts(m, c)
    case None => []
  }

  /** The steps that leave the handler where it is. */
  predicate Reads(step: RStep) {
    step.ClientBytes? || step.ReadNext? || step.Push?
  }

  lemma ReadsTold(s: RState, step: RStep, said: seq<Frame>)
    requires LocallyEnabled(s, step) && Reads(step) && ConnInv(s, step.c)
    requires Told(s.serverKey, s.conns[step.c], said)
    ensures Told(s.serverKey, ConnAfter(s, step), said) && NewlySaid(s, step, step.c) == []
  {
    var k, k' := s.conns[step.c], ConnAfter(s, step);
    InputStep(s, step);
    ReadsStay(s, step);
    if Full(s.serverKey, k, said) {
      FullGrows(s.serverKey, k, k', said);
    }
  }

  lemma ReadsStay(s: RState, step: RStep)
    requires LocallyEnabled(s, step) && Reads(step) && ConnInv(s, step.c)
    ensures var k, k' := s.conns[step.c], ConnAfter(s, step);
      && k'.pc == k.pc && k'.popped == k.popped && (step.ClientBytes? || Joined(k.pc))
      && (step.ClientBytes? ==> k'.read == k.read)
  {
  }

  lemma HelloTold(s: RState, step: RStep, said: seq<Frame>)
    requires LocallyEnabled(s, step) && step.ReadHello? && ConnInv(s, step.c)
    requires Told(s.serverKey, s.conns[step.c], said)
    ensures Told(s.serverKey, ConnAfter(s, step), said) && NewlySaid(s, step, step.c) == []
  {
  }

  lemma GreetTold(s: RState, step: RStep, said: seq<Frame>)
    requires LocallyEnabled(s, step) && (step.SendServerKey? || step.SendServerInfo?) && ConnInv(s, step.c)
    requires Told(s.serverKey, s.conns[step.c], said)
    ensures Told(s.serverKey, ConnAfter(s, step), said + NewlySaid(s, step, step.c))
  {
    if step.SendServerInfo? {
      var k, all := s.conns[step.c], said + NewlySaid(s, step, step.c);
      assert all[2..] == [] && k.read[1..1] == [];
    }
  }

  lemma TickTold(s: RState, step: RStep, said: seq<Frame>)
    requires LocallyEnabled(s, step) && step.Tick? && ConnInv(s, step.c)
    requires Told(s.serverKey, s.conns[step.c], said)
    ensures Told(s.serverKey, ConnAfter(s, step), said + NewlySaid(s, step, step.c))
  {
    FullSays(s.serverKey, s.conns[step.c], said, Frame(KEEP_ALIVE, []));
  }

  lemma PopTold(s: RState, step: RStep, said: seq<Frame>)
    requires LocallyEnabled(s, step) && step.Pop? && ConnInv(s, step.c)
    requires Told(s.serverKey, s.conns[step.c], said)
    ensures Told(s.serverKey, ConnAfter(s, step), said + NewlySaid(s, step, step.c))
  {
    var k, k' := s.conns[step.c], ConnAfter(s, step);
    PopKeeps(k, k');
    PopSays(s, step);
    if k.chan[0].Arrived? {
      PopReads(k);
      FullTakes(s.serverKey, k, k', said);
    } else {
      assert said + [] == said;
    }
  }

  lemma PopReads(k: Conn)
    requires InputInv(k) && k.chan != [] && k.chan[0].Arrived?
    ensures k.popped < |k.read| && k.read[k.popped] == k.chan[0].frame
  {
    assert k.read[k.popped..] == Payloads(k.chan) + InHand(k.reader);
    assert k.read[k.popped..][0] == k.chan[0].frame;
  }

  lemma PopSays(s: RState, step: RStep)
    requires LocallyEnabled(s, step) && step.Pop?
    ensures var m := s.conns[step.c].chan[0];
      && NewlySaid(s, step, step.c) == (if m.Arrived? && IsPing(m.frame) then [Frame(PONG, m.frame.payload)] else [])
      && (match ConnAfter(s, step).pc
          case Sending(next) => next.ToSelect?
          case Routing(_, _) => true
          case Select => true
          case Deregister => true
          case _ => false)
  {
  }

  lemma ReturnTold(s: RState, step: RStep, said: seq<Frame>)
    requires LocallyEnabled(s, step) && step.HandlerReturn? && ConnInv(s, step.c)
    requires Told(s.serverKey, s.conns[step.c], said)
    ensures Told(s.serverKey, ConnAfter(s, step), said) && NewlySaid(s, step, step.c) == []
  {
  }

  predicate Plain(step: RStep) {
    !Reads(step) && !step.ReadHello? && !step.SendServerKey? && !step.SendServerInfo? && !step.Tick? && !step.Pop?
    && !step.HandlerReturn? && !step.Accept?
  }

  lemma PlainTold(s: RState, step: RStep, said: seq<Frame>)
    requires LocallyEnabled(s, step) && ConnOf(s, step).Some? && Plain(step)
    requires Told(s.serverKey, s.conns[step.c], said)
    ensures Told(s.serverKey, ConnAfter(s, step), said) && NewlySaid(s, step, step.c) == []
  {
  }

  lemma ToldStep(s: RState, step: RStep, said: seq<Frame>)
    requires LocallyEnabled(s, step) && ConnOf(s, step).Some? && !step.Accept? && ConnInv(s, step.c)
    requires Told(s.serverKey, s.conns[step.c], said)
    ensures Told(s.serverKey, ConnAfter(s, step), said + NewlySaid(s, step, step.c))
  {
    if step.SendServerKey? || step.SendServerInfo? {
      GreetTold(s, step, said);
    } else if step.Tick? {
      TickTold(s, step, said);
    } else if step.Pop? {
      PopTold(s, step, said);
    } else {
      QuietTold(s, step, said);
      assert said + [] == said;
    }
  }

  lemma QuietTold(s: RState, step: RStep, said: seq<Frame>)
    requires LocallyEnabled(s, step) && ConnOf(s, step).Some? && !step.Accept? && ConnInv(s, step.c)
    requires !step.SendServerKey? && !step.SendServerInfo? && !step.Tick? && !step.Pop?
    requires Told(s.serverKey, s.conns[step.c], said)
    ensures Told(s.serverKey, ConnAfter(s, step), said) && NewlySaid(s, step, step.c) == []
  {
    if Reads(step) {
      ReadsTold(s, step, said);
    } else if step.ReadHello? {
      HelloTold(s, step, said);
    } else if step.HandlerReturn? {
      ReturnTold(s, step, said);
    } else {
      PlainTold(s, step, said);
    }
  }

  // ---- the whole state ----

  predicate ConnTold(s: RState, c: ConnId) {
    c in s.conns && c in s.wire.writers && Told(s.serverKey, s.conns[c], Said(s.wire, c))
  }

  ghost predicate ToldInv(s: RState) {
    && (forall t :: OwnControl(s.wire, t))
    && (forall c :: c in s.conns ==> ConnTold(s, c))
  }

  lemma SaidStep(s: RState, step: RStep, c: ConnId)
    requires REnabled(s, step) && (forall t :: OwnControl(s.wire, t)) && c in s.wire.writers
    ensures c in RApply(s, step).wire.writers
    ensures Said(RApply(s, step).wire, c) == Said(s.wire, c) + NewlySaid(s, step, c)
  {
    WireAfter(s, step);
    if WireMove(s, step).Some? {
      SaidMove(s.wire, WireMove(s, step).value, c);
    } else {
      assert Said(s.wire, c) + [] == Said(s.wire, c);
    }
  }

  lemma OthersSayNothing(s: RState, step: RStep, c: ConnId)
    requires LocallyEnabled(s, step) && ConnOf(s, step) != Some(c)
    ensures NewlySaid(s, step, c) == []
  {
  }

  lemma OldConnTold(s: RState, step: RStep, c: ConnId)
    requires REnabled(s, step) && (forall t :: OwnControl(s.wire, t)) && ConnTold(s, c) && ConnInv(s, c)
    requires c in RApply(s, step).conns && RApply(s, step).serverKey == s.serverKey
    requires RApply(s, step).conns[c] == if ConnOf(s, step) == Some(c) then ConnAfter(s, step) else s.conns[c]
    ensures ConnTold(RApply(s, step), c)
  {
    SaidStep(s, step, c);
    if ConnOf(s, step) == Some(c) {
      ToldStep(s, step, Said(s.wire, c));
    } else {
      OthersSayNothing(s, step, c);
      assert Said(s.wire, c) + [] == Said(s.wire, c);
    }
  }

  lemma NewConnTold(s: RState, c: ConnId)
    requires REnabled(s, Accept(c)) && Handler(c) !in s.wire.sends
    ensures ConnTold(RApply(s, Accept(c)), c)
  {
  }

  lemma ConnsAfter(s: RState, step: RStep)
    requires REnabled(s, step)
    ensures RApply(s, step).serverKey == s.serverKey
    ensures RApply(s, step).conns ==
      if ConnOf(s, step).Some? then s.conns[ConnOf(s, step).value := ConnAfter(s, step)] else s.conns
  {
  }

  lemma ToldInvStep(s: RState, step: RStep)
    requires BasicInv(s) && ToldInv(s) && REnabled(s, step)
    ensures ToldInv(RApply(s, step))
  {
    var s' := RApply(s, step);
    ConnsAfter(s, step);
    OwnControlStep(s, step);
    forall c | c in s'.conns ensures ConnTold(s', c) {
      if c in s.conns {
        assert ConnInv(s, c) && ConnTold(s, c);
        if !(step.Accept? && step.c == c) {
          OldConnTold(s, step, c);
        }
      } else {
        assert Handler(c) in s.wire.sends ==> CallInv(s, Handler(c));
        NewConnTold(s, c);
      }
    }
  }

  lemma {:induction false} ToldRun(s: RState, steps: seq<RStep>)
    requires RInv(s) && ToldInv(s) && RRun(s, steps)
    ensures ToldInv(RAfter(s, steps)) && RAfter(s, steps).serverKey == s.serverKey
    decreases |steps|
  {
    if steps != [] {
      InvariantStep(s, steps[0]);
      ToldInvStep(s, steps[0]);
      ConnsAfter(s, steps[0]);
      ToldRun(RApply(s, steps[0]), steps[1..]);
    }
  }

  lemma NobodyIsTold(serverKey: Key)
    ensures RInv(Boot(serverKey)) && ToldInv(Boot(serverKey))
  {
  }

  lemma EveryoneIsTold(serverKey: Key, steps: seq<RStep>)
    requires RRun(Boot(serverKey), steps)
    ensures var s := Reached(serverKey, steps);
      s.serverKey == serverKey && forall c :: c in s.conns ==> ConnTold(s, c) && ConnInv(s, c)
  {
    NobodyIsTold(serverKey);
    ReachedInv(serverKey, steps);
    ToldRun(Boot(serverKey), steps);
  }

  /** Pings taken so far; the first frame is the handshake. */
  function PingsTaken(k: Conn): seq<Bytes> {
    if 1 <= k.popped <= |k.read| then Pings(k.read[1..k.popped]) else []
  }

  lemma {:induction false} AnswersSplit(a: seq<Frame>, b: seq<Frame>)
    ensures Answers(a + b) == Answers(a) + Answers(b)
  {
    if b == [] {
      assert a + b == a;
    } else {
      var front, f := b[..|b| - 1], b[|b| - 1];
      AnswersSplit(a, front);
      assert a + b == (a + front) + [f];
      AnswersSnoc(a + front, f);
      Assoc(Answers(a), Answers(front), if f.kind == PONG then [f.payload] else []);
    }
  }

  lemma GreetingAnswersNothing(serverKey: Key, said: seq<Frame>)
    requires Greeted(serverKey, said)
    ensures Answers(said) == Answers(said[2..])
  {
    assert said == ([] + [said[0]] + [said[1]]) + said[2..];
    AnswersSplit([] + [said[0]] + [said[1]], said[2..]);
    AnswersSnoc([] + [said[0]], said[1]);
    AnswersSnoc([], said[0]);
  }

  lemma FewTold(serverKey: Key, k: Conn, said: seq<Frame>)
    requires (said == [] || OnlyKey(serverKey, said)) && k.popped <= 1
    ensures Answers(said) == PingsTaken(k)
  {
    if said != [] {
      assert said == [] + [said[0]];
      AnswersSnoc([], said[0]);
    }
    if k.popped == 1 && |k.read| > 0 {
      assert k.read[1..1] == [];
    }
  }

  lemma ToldAnswers(serverKey: Key, k: Conn, said: seq<Frame>)
    requires Told(serverKey, k, said) && InputInv(k)
    ensures Answers(said) == PingsTaken(k)
  {
    if Full(serverKey, k, said) {
      GreetingAnswersNothing(serverKey, said);
    } else {
      FewTold(serverKey, k, said);
    }
  }

  /** Every ping taken from a connection is answered once, in order and with its payload: the answers logged for the
      connection, with the one its handler may have at the lock, are the payloads of the pings taken. */
  lemma PingsAreAnswered(serverKey: Key, steps: seq<RStep>, c: ConnId)
    requires RRun(Boot(serverKey), steps) && c in Reached(serverKey, steps).conns
    ensures var s := Reached(serverKey, steps);
      && c in s.wire.writers
      && Answers(Controls(s.wire.writers[c].order) + OwnCall(s.wire, c)) == PingsTaken(s.conns[c])
  {
    var s := Reached(serverKey, steps);
    EveryoneIsTold(serverKey, steps);
    assert ConnTold(s, c) && ConnInv(s, c);
    ToldAnswers(serverKey, s.conns[c], Said(s.wire, c));
  }

  // ---- the greeting comes first ----

  predicate Welcomed(w: Wire.State, d: ConnId) {
    d in w.writers && |w.writers[d].order| >= 2
  }

  /** Packets and replies come third at the earliest. */
  predicate LateEntries(w: Wire.State, d: ConnId)
    requires d in w.writers
  {
    forall i :: 0 <= i < |w.writers[d].order| && !w.writers[d].order[i].origin.Control? ==> i >= 2
  }

  predicate LateCall(w: Wire.State, t: Tid)
    requires t in w.sends
  {
    w.sends[t].stage == Waiting && !w.sends[t].entry.origin.Control? ==> Welcomed(w, w.sends[t].to)
  }

  ghost predicate LateInv(s: RState) {
    && (forall d :: d in s.wire.writers ==> LateEntries(s.wire, d))
    && (forall t :: t in s.wire.sends ==> LateCall(s.wire, t))
    && (forall sid :: sid in s.loops ==> Welcomed(s.wire, s.loops[sid].conn))
    && (forall c :: c in s.conns && Joined(s.conns[c].pc) && !Leaving(s.conns[c].pc) ==> Welcomed(s.wire, c))
  }

  lemma WelcomeStays(s: RState, step: RStep, d: ConnId)
    requires REnabled(s, step) && Welcomed(s.wire, d)
    ensures Welcomed(RApply(s, step).wire, d)
  {
    WriterStays(s, step, d);
    OrderAfter(s, step, d);
  }

  lemma EntriesStayLate(s: RState, step: RStep, d: ConnId)
    requires REnabled(s, step) && d in RApply(s, step).wire.writers
    requires d in s.wire.writers ==> LateEntries(s.wire, d)
    requires step.Progress? && step.step.Acquire? ==> LateCall(s.wire, step.step.tid)
    ensures LateEntries(RApply(s, step).wire, d)
  {
    OrderAfter(s, step, d);
  }

  lemma JoiningIsWelcomed(s: RState, c: ConnId)
    requires c in s.conns && ConnTold(s, c) && s.conns[c].pc == Register && Handler(c) !in s.wire.sends
    ensures Welcomed(s.wire, c)
  {
    ControlsFewer(s.wire.writers[c].order);
  }

  lemma {:induction false} ControlsFewer(order: seq<Entry>)
    ensures |Controls(order)| <= |order|
  {
    if order != [] {
      ControlsFewer(order[..|order| - 1]);
    }
  }

  lemma JoinedStep(s: RState, step: RStep)
    requires LocallyEnabled(s, step) && ConnOf(s, step).Some? && !step.Accept?
    ensures var k, k' := s.conns[step.c], ConnAfter(s, step);
      Joined(k'.pc) && !Leaving(k'.pc) ==> step.Join? || (Joined(k.pc) && !Leaving(k.pc))
  {
  }

  lemma JoinedLate(s: RState, step: RStep, c: ConnId)
    requires REnabled(s, step) && c in RApply(s, step).conns
    requires c in s.conns && Joined(s.conns[c].pc) && !Leaving(s.conns[c].pc) ==> Welcomed(s.wire, c)
    requires step == Join(c) ==> Welcomed(s.wire, c)
    requires Joined(RApply(s, step).conns[c].pc) && !Leaving(RApply(s, step).conns[c].pc)
    ensures Welcomed(RApply(s, step).wire, c)
  {
    ConnsAfter(s, step);
    if ConnOf(s, step) == Some(c) && !step.Accept? {
      JoinedStep(s, step);
    }
    WelcomeStays(s, step, c);
  }

  lemma JoinsWelcomed(s: RState, c: ConnId)
    requires BasicInv(s) && ToldInv(s) && LocallyEnabled(s, Join(c))
    ensures Welcomed(s.wire, c)
  {
    assert ConnTold(s, c) && (Handler(c) in s.wire.sends ==> CallInv(s, Handler(c)));
    JoiningIsWelcomed(s, c);
  }

  lemma LoopsLate(s: RState, step: RStep, sid: SessId)
    requires LateInv(s) && REnabled(s, step) && sid in RApply(s, step).loops
    ensures Welcomed(RApply(s, step).wire, RApply(s, step).loops[sid].conn)
  {
    LoopsNow(s, step);
    LoopConn(s, step, sid);
    WelcomeStays(s, step, LoopsAfter(s, step)[sid].conn);
  }

  lemma LoopsNow(s: RState, step: RStep)
    requires REnabled(s, step)
    ensures RApply(s, step).loops == LoopsAfter(s, step)
  {
  }

  lemma LoopConn(s: RState, step: RStep, sid: SessId)
    requires LocallyEnabled(s, step) && sid in LoopsAfter(s, step)
    ensures var l := LoopsAfter(s, step)[sid];
      || (sid in s.loops && l.conn == s.loops[sid].conn)
      || (l.conn in s.conns && s.conns[l.conn].pc.Linking?)
  {
  }

  lemma CallsLate(s: RState, step: RStep, t: Tid)
    requires BasicInv(s) && LateInv(s) && REnabled(s, step) && t in RApply(s, step).wire.sends
    ensures LateCall(RApply(s, step).wire, t)
  {
    WireAfter(s, step);
    if t in s.wire.sends {
      assert LateCall(s.wire, t);
      if WireMove(s, step).Some? {
        OldCallMove(s.wire, WireMove(s, step).value, t);
      }
      if Welcomed(s.wire, s.wire.sends[t].to) {
        WelcomeStays(s, step, s.wire.sends[t].to);
      }
    } else {
      NewCallLate(s, step, t);
    }
  }

  lemma NewCallLate(s: RState, step: RStep, t: Tid)
    requires BasicInv(s) && LateInv(s) && REnabled(s, step)
    requires t !in s.wire.sends && t in RApply(s, step).wire.sends
    ensures LateCall(RApply(s, step).wire, t)
  {
    WireAfter(s, step);
    NewSend(s.wire, WireMove(s, step).value, t);
    var m := WireMove(s, step).value;
    if !m.entry.origin.Control? {
      ClientsWelcomed(s);
      NewReceiver(s, step);
      WelcomeStays(s, step, m.to);
    }
  }

  /** A packet or reply starts on its way only to a registered connection or to the one a session belongs to. */
  lemma NewReceiver(s: RState, step: RStep)
    requires forall key :: key in s.clients ==> Welcomed(s.wire, s.clients[key])
    requires forall sid :: sid in s.loops ==> Welcomed(s.wire, s.loops[sid].conn)
    requires LocallyEnabled(s, step) && WireMove(s, step).Some?
    requires var m := WireMove(s, step).value; m.Begin? && !m.entry.origin.Control? && !step.Progress?
    ensures Welcomed(s.wire, WireMove(s, step).value.to)
  {
    ReceiverIs(s, step);
  }

  lemma ClientsWelcomed(s: RState)
    requires RegistryInv(s) && LateInv(s)
    ensures forall key :: key in s.clients ==> Welcomed(s.wire, s.clients[key])
  {
    forall key | key in s.clients ensures Welcomed(s.wire, s.clients[key]) {
      assert Serving(s.conns[s.clients[key]].pc);
    }
  }

  lemma ReceiverIs(s: RState, step: RStep)
    requires LocallyEnabled(s, step) && WireMove(s, step).Some?
    requires var m := WireMove(s, step).value; m.Begin? && !m.entry.origin.Control? && !step.Progress?
    ensures var to := WireMove(s, step).value.to;
      || (exists key :: key in s.clients && s.clients[key] == to)
      || (exists sid :: sid in s.loops && s.loops[sid].conn == to)
  {
  }

  lemma LateInvStep(s: RState, step: RStep)
    requires BasicInv(s) && ToldInv(s) && LateInv(s) && REnabled(s, step)
    ensures LateInv(RApply(s, step))
  {
    WireStaysLate(s, step);
    StateStaysLate(s, step);
  }

  lemma WireStaysLate(s: RState, step: RStep)
    requires BasicInv(s) && LateInv(s) && REnabled(s, step)
    ensures var w := RApply(s, step).wire;
      (forall d :: d in w.writers ==> LateEntries(w, d)) && (forall t :: t in w.sends ==> LateCall(w, t))
  {
    var s' := RApply(s, step);
    forall d | d in s'.wire.writers ensures LateEntries(s'.wire, d) {
      EntriesStayLate(s, step, d);
    }
    forall t | t in s'.wire.sends ensures LateCall(s'.wire, t) {
      CallsLate(s, step, t);
    }
  }

  lemma StateStaysLate(s: RState, step: RStep)
    requires BasicInv(s) && ToldInv(s) && LateInv(s) && REnabled(s, step)
    ensures var s' := RApply(s, step);
      && (forall sid :: sid in s'.loops ==> Welcomed(s'.wire, s'.loops[sid].conn))
      && (forall c :: c in s'.conns && Joined(s'.conns[c].pc) && !Leaving(s'.conns[c].pc) ==> Welcomed(s'.wire, c))
  {
    var s' := RApply(s, step);
    forall sid | sid in s'.loops ensures Welcomed(s'.wire, s'.loops[sid].conn) {
      LoopsLate(s, step, sid);
    }
    forall c | c in s'.conns && Joined(s'.conns[c].pc) && !Leaving(s'.conns[c].pc) ensures Welcomed(s'.wire, c) {
      if step == Join(c) {
        JoinsWelcomed(s, c);
      }
      JoinedLate(s, step, c);
    }
  }

  lemma {:induction false} LateRun(s: RState, steps: seq<RStep>)
    requires RInv(s) && ToldInv(s) && LateInv(s) && RRun(s, steps)
    ensures LateInv(RAfter(s, steps))
    decreases |steps|
  {
    if steps != [] {
      InvariantStep(s, steps[0]);
      ToldInvStep(s, steps[0]);
      LateInvStep(s, steps[0]);
      LateRun(RApply(s, steps[0]), steps[1..]);
    }
  }

  /** The first two frames of a log are the first two control frames. */
  lemma FirstTwo(order: seq<Entry>)
    requires forall i :: 0 <= i < |order| && !order[i].origin.Control? ==> i >= 2
    ensures |order| >= 1 ==> |Controls(order)| >= 1 && Controls(order)[0] == order[0].frame
    ensures |order| >= 2 ==> |Controls(order)| >= 2 && Controls(order)[1] == order[1].frame
  {
    if |order| > 2 {
      FirstTwo(order[..|order| - 1]);
    } else if |order| == 2 {
      FirstTwo(order[..1]);
    }
  }

  lemma NobodyIsLate(serverKey: Key)
    ensures LateInv(Boot(serverKey))
  {
  }

  lemma GreetedInLog(serverKey: Key, k: Conn, said: seq<Frame>)
    requires Told(serverKey, k, said)
    ensures |said| >= 1 ==> said[0] == Frame(SERVER_KEY, MAGIC + serverKey)
    ensures |said| >= 2 ==> said[1].kind == SERVER_INFO
  {
  }

  lemma LogStarts(serverKey: Key, s: RState, c: ConnId)
    requires c in s.wire.writers && LateEntries(s.wire, c) && c in s.conns
    requires Told(serverKey, s.conns[c], Said(s.wire, c))
    ensures var order := s.wire.writers[c].order;
      && (|order| >= 1 ==> order[0].frame == Frame(SERVER_KEY, MAGIC + serverKey))
      && (|order| >= 2 ==> order[1].frame.kind == SERVER_INFO)
  {
    FirstTwo(s.wire.writers[c].order);
    GreetedInLog(serverKey, s.conns[c], Said(s.wire, c));
  }

  /** What a client reads begins with the server's key behind the protocol's magic and then the server information;
      packets come after that. */
  lemma GreetingFirst(serverKey: Key, steps: seq<RStep>, c: ConnId)
    requires RRun(Boot(serverKey), steps) && c in Reached(serverKey, steps).conns
    ensures c in Reached(serverKey, steps).wire.writers
    ensures var got := Delivered(Reached(serverKey, steps), c);
      && (|got| >= 1 ==> got[0] == Frame(SERVER_KEY, MAGIC + serverKey))
      && (|got| >= 2 ==> got[1].kind == SERVER_INFO)
      && (forall i :: 0 <= i < |got| && got[i].kind == RECV_PACKET ==> i >= 2)
  {
    LogOfClient(serverKey, steps, c);
    DeliveredPrefix(serverKey, steps, c);
  }

  /** A log that begins with the greeting and has its packets behind it. */
  predicate Welcoming(serverKey: Key, order: seq<Entry>) {
    && (|order| >= 1 ==> order[0].frame == Frame(SERVER_KEY, MAGIC + serverKey))
    && (|order| >= 2 ==> order[1].frame.kind == SERVER_INFO)
    && (forall i :: 0 <= i < |order| && order[i].frame.kind == RECV_PACKET ==> i >= 2)
  }

  lemma LogOfClient(serverKey: Key, steps: seq<RStep>, c: ConnId)
    requires RRun(Boot(serverKey), steps) && c in Reached(serverKey, steps).conns
    ensures var s := Reached(serverKey, steps); c in s.wire.writers && Welcoming(serverKey, s.wire.writers[c].order)
  {
    EveryoneIsTold(serverKey, steps);
    assert ConnTold(Reached(serverKey, steps), c);
    ReachedInv(serverKey, steps);
    LogIsLate(serverKey, steps, c);
    LogWelcomes(serverKey, Reached(serverKey, steps), c);
  }

  lemma LogWelcomes(serverKey: Key, s: RState, c: ConnId)
    requires RInv(s) && c in s.wire.writers && LateEntries(s.wire, c) && c in s.conns
    requires Told(serverKey, s.conns[c], Said(s.wire, c))
    ensures Welcoming(serverKey, s.wire.writers[c].order)
  {
    LogStarts(serverKey, s, c);
    var order := s.wire.writers[c].order;
    forall i | 0 <= i < |order| && order[i].frame.kind == RECV_PACKET ensures i >= 2 {
      PacketIsLate(s, c, i);
    }
  }

  lemma PacketIsLate(s: RState, c: ConnId, i: nat)
    requires RInv(s) && c in s.wire.writers && LateEntries(s.wire, c)
    requires i < |s.wire.writers[c].order| && s.wire.writers[c].order[i].frame.kind == RECV_PACKET
    ensures i >= 2
  {
    assert EntryInv(s, c, i);
  }

  lemma LogIsLate(serverKey: Key, steps: seq<RStep>, c: ConnId)
    requires RRun(Boot(serverKey), steps) && c in Reached(serverKey, steps).wire.writers
    ensures LateEntries(Reached(serverKey, steps).wire, c)
  {
    NobodyIsTold(serverKey);
    NobodyIsLate(serverKey);
    LateRun(Boot(serverKey), steps);
  }
}
