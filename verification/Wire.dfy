/** sendFrame under any interleaving: goroutines take the steps lock, write header,
    write payload, flush, unlock on the buffered writers of any number of clients.
    Each writer keeps the history of the frames in lock order. */
module Wire {
  import opened Basics
  import opened Frames

  type ConnId = nat
  type SessId = nat

  /** The goroutines that call sendFrame: a connection's handler and a session's read loop. */
  datatype Tid = Handler(conn: ConnId) | Loop(sess: SessId)

  /** Why a frame was sent. Local: the index-th frame read from connection src;
      Reply: the index-th datagram read from the socket of session sess. */
  datatype Origin = Control | Local(src: ConnId, index: nat) | Reply(sess: SessId, index: nat)

  datatype Entry = Entry(frame: Frame, origin: Origin)

  datatype Stage = Waiting | AtHeader | AtPayload | AtFlush | AtUnlock(ok: bool)

  datatype Send = Send(to: ConnId, entry: Entry, stage: Stage)

  /** A bufio.Writer over a connection: bytes the connection took, bytes still held, sticky error. */
  datatype Buffer = Buffer(wire: Bytes, pending: Bytes, failed: bool)

  datatype Writer = Writer(buf: Buffer, holder: Option<Tid>, order: seq<Entry>)

  datatype State = State(writers: map<ConnId, Writer>, sends: map<Tid, Send>)

  /** emit bytes reach the connection during the call; after a failure nothing ever does. */
  datatype Step =
    | Open(conn: ConnId)
    | Begin(tid: Tid, to: ConnId, entry: Entry)
    | Acquire(tid: Tid)
    | PutHeader(tid: Tid, emit: nat, ok: bool)
    | PutPayload(tid: Tid, emit: nat, ok: bool)
    | Flush(tid: Tid, emit: nat, ok: bool)
    | Release(tid: Tid)

  predicate CanPut(b: Buffer, p: Bytes, emit: nat, ok: bool) {
    if b.failed then !ok && emit == 0 else emit <= |b.pending| + |p|
  }

  function Put(b: Buffer, p: Bytes, emit: nat, ok: bool): Buffer
    requires CanPut(b, p, emit, ok)
  {
    if b.failed then b
    else
      var all := b.pending + p;
      Buffer(b.wire + all[..emit], all[emit..], !ok)
  }

  predicate CanFlush(b: Buffer, emit: nat, ok: bool) {
    CanPut(b, [], emit, ok) && (ok ==> emit == |b.pending|)
  }

  predicate Sending(s: State, t: Tid, stage: Stage) {
    t in s.sends && s.sends[t].stage == stage && s.sends[t].to in s.writers
  }

  predicate Enabled(s: State, step: Step) {
    match step
    case Open(c) => c !in s.writers
    case Begin(t, to, _) => t !in s.sends && to in s.writers
    case Acquire(t) => Sending(s, t, Waiting) && s.writers[s.sends[t].to].holder == None
    case PutHeader(t, emit, ok) =>
      Sending(s, t, AtHeader) && CanPut(s.writers[s.sends[t].to].buf, Header(s.sends[t].entry.frame), emit, ok)
    case PutPayload(t, emit, ok) =>
      Sending(s, t, AtPayload) && CanPut(s.writers[s.sends[t].to].buf, s.sends[t].entry.frame.payload, emit, ok)
    case Flush(t, emit, ok) => Sending(s, t, AtFlush) && CanFlush(s.writers[s.sends[t].to].buf, emit, ok)
    case Release(t) => Sending(s, t, AtUnlock(true)) || Sending(s, t, AtUnlock(false))
  }

  function Update(s: State, t: Tid, stage: Stage, w: Writer): State
    requires t in s.sends
  {
    var send := s.sends[t];
    State(s.writers[send.to := w], s.sends[t := send.(stage := stage)])
  }

  function Apply(s: State, step: Step): State
    requires Enabled(s, step)
  {
    match step
    case Open(c) => s.(writers := s.writers[c := Writer(Buffer([], [], false), None, [])])
    case Begin(t, to, entry) => s.(sends := s.sends[t := Send(to, entry, Waiting)])
    case Acquire(t) =>
      var w := s.writers[s.sends[t].to];
      Update(s, t, AtHeader, w.(holder := Some(t), order := w.order + [s.sends[t].entry]))
    case PutHeader(t, emit, ok) =>
      var w, f := s.writers[s.sends[t].to], s.sends[t].entry.frame;
      var next := if !ok then AtUnlock(false) else if |f.payload| > 0 then AtPayload else AtFlush;
      Update(s, t, next, w.(buf := Put(w.buf, Header(f), emit, ok)))
    case PutPayload(t, emit, ok) =>
      var w, f := s.writers[s.sends[t].to], s.sends[t].entry.frame;
      Update(s, t, if ok then AtFlush else AtUnlock(false), w.(buf := Put(w.buf, f.payload, emit, ok)))
    case Flush(t, emit, ok) =>
      var w := s.writers[s.sends[t].to];
      Update(s, t, AtUnlock(ok), w.(buf := Put(w.buf, [], emit, ok)))
    case Release(t) =>
      var to := s.sends[t].to;
      State(s.writers[to := s.writers[to].(holder := None)], s.sends - {t})
  }

  function FramesOf(order: seq<Entry>): (fs: seq<Frame>)
    ensures |fs| == |order| && forall i :: 0 <= i < |fs| ==> fs[i] == order[i].frame
  {
    seq(|order|, i requires 0 <= i < |order| => order[i].frame)
  }

  /** What the frames locked so far look like on the wire. */
  function Log(order: seq<Entry>): Bytes {
    EncodeAll(FramesOf(order))
  }

  lemma LogSnoc(order: seq<Entry>, e: Entry)
    ensures Log(order + [e]) == Log(order) + Encode(e.frame)
  {
    EncodeAllSnoc(FramesOf(order), e.frame);
    assert FramesOf(order + [e]) == FramesOf(order) + [e.frame];
  }

  /** The part of the current frame handed to the writer before this stage. */
  function Begun(stage: Stage, f: Frame): Bytes {
    match stage
    case Waiting => []
    case AtHeader => []
    case AtPayload => Header(f)
    case AtFlush => Encode(f)
    case AtUnlock(_) => Encode(f)
  }

  predicate Prefix(a: Bytes, b: Bytes) {
    |a| <= |b| && a == b[..|a|]
  }

  predicate IdleInv(w: Writer) {
    if w.buf.failed then Prefix(w.buf.wire, Log(w.order))
    else w.buf.pending == [] && w.buf.wire == Log(w.order)
  }

  /** done is the log before the current frame f. */
  predicate BusyBuffer(b: Buffer, done: Bytes, stage: Stage, f: Frame) {
    && stage != Waiting
    && (stage.AtPayload? || stage.AtFlush? ==> !b.failed)
    && (stage.AtUnlock? ==> stage.ok == !b.failed)
    && if b.failed then Prefix(b.wire, done + Encode(f))
       else
         && b.wire + b.pending == done + Begun(stage, f)
         && (stage.AtUnlock? ==> b.pending == [])
  }

  predicate BusyInv(w: Writer, send: Send) {
    && |w.order| > 0
    && w.order[|w.order| - 1] == send.entry
    && BusyBuffer(w.buf, Log(w.order[..|w.order| - 1]), send.stage, send.entry.frame)
  }

  predicate WriterInv(s: State, d: ConnId)
    requires d in s.writers
  {
    match s.writers[d].holder
    case None => IdleInv(s.writers[d])
    case Some(t) => t in s.sends && s.sends[t].to == d && BusyInv(s.writers[d], s.sends[t])
  }

  predicate SendInv(s: State, t: Tid)
    requires t in s.sends
  {
    && s.sends[t].to in s.writers
    && (s.sends[t].stage != Waiting ==> s.writers[s.sends[t].to].holder == Some(t))
  }

  ghost predicate Inv(s: State) {
    && (forall t :: t in s.sends ==> SendInv(s, t))
    && (forall d :: d in s.writers ==> WriterInv(s, d))
  }

  lemma PutKeeps(b: Buffer, done: Bytes, stage: Stage, f: Frame, p: Bytes, next: Stage, emit: nat, ok: bool)
    requires BusyBuffer(b, done, stage, f) && CanPut(b, p, emit, ok)
    requires Begun(stage, f) + p == Begun(next, f) || !ok
    requires Prefix(Begun(stage, f) + p, Encode(f))
    requires if ok then next.AtPayload? || next.AtFlush? else next == AtUnlock(false)
    ensures BusyBuffer(Put(b, p, emit, ok), done, next, f)
  {
    if !b.failed {
      var all := b.pending + p;
      var b' := Put(b, p, emit, ok);
      assert all[..emit] + all[emit..] == all;
      Assoc(b.wire, all[..emit], all[emit..]);
      Assoc(b.wire, b.pending, p);
      Assoc(done, Begun(stage, f), p);
      assert b'.wire + b'.pending == done + (Begun(stage, f) + p);
      assert b'.wire == (b'.wire + b'.pending)[..|b'.wire|];
    }
  }

  lemma FlushKeeps(b: Buffer, done: Bytes, f: Frame, emit: nat, ok: bool)
    requires BusyBuffer(b, done, AtFlush, f) && CanFlush(b, emit, ok)
    ensures BusyBuffer(Put(b, [], emit, ok), done, AtUnlock(ok), f)
  {
    var all := b.pending + [];
    assert all == b.pending && all[..emit] + all[emit..] == all;
    Assoc(b.wire, all[..emit], all[emit..]);
    var b' := Put(b, [], emit, ok);
    assert b'.wire + b'.pending == done + Encode(f);
    if !b.failed {
      assert b'.wire == (b'.wire + b'.pending)[..|b'.wire|];
    }
    if ok {
      assert b'.pending == [];
      assert b'.wire + [] == b'.wire;
    }
  }

  lemma AcquireKeeps(w: Writer, entry: Entry, t: Tid, w': Writer)
    requires IdleInv(w) && w' == w.(holder := Some(t), order := w.order + [entry])
    ensures BusyInv(w', Send(0, entry, AtHeader))
  {
    assert w'.order[..|w'.order| - 1] == w.order;
    var done := Log(w.order);
    if w.buf.failed {
      assert w.buf.wire == (done + Encode(entry.frame))[..|w.buf.wire|];
    } else {
      assert w.buf.wire + w.buf.pending == done + [];
    }
  }

  lemma ReleaseKeeps(w: Writer, send: Send)
    requires BusyInv(w, send) && send.stage.AtUnlock?
    ensures IdleInv(w.(holder := None))
  {
    var n := |w.order| - 1;
    assert w.order[..n] + [send.entry] == w.order;
    LogSnoc(w.order[..n], send.entry);
    if !w.buf.failed {
      assert w.buf.wire + [] == w.buf.wire;
    }
  }

  /** The bytes a step of writeFrame hands over and the stage after it. */
  function Piece(f: Frame, step: Step): Bytes {
    if step.PutHeader? then Header(f) else if step.PutPayload? then f.payload else []
  }

  function StageAfter(f: Frame, step: Step): Stage
    requires step.PutHeader? || step.PutPayload? || step.Flush?
  {
    if step.Flush? then AtUnlock(step.ok)
    else if !step.ok then AtUnlock(false)
    else if step.PutHeader? && |f.payload| > 0 then AtPayload
    else AtFlush
  }

  lemma PieceKeeps(b: Buffer, done: Bytes, stage: Stage, f: Frame, step: Step)
    requires step.PutHeader? || step.PutPayload? || step.Flush?
    requires stage == (if step.PutHeader? then AtHeader else if step.PutPayload? then AtPayload else AtFlush)
    requires BusyBuffer(b, done, stage, f) && CanPut(b, Piece(f, step), step.emit, step.ok)
    requires step.Flush? ==> CanFlush(b, step.emit, step.ok)
    ensures BusyBuffer(Put(b, Piece(f, step), step.emit, step.ok), done, StageAfter(f, step), f)
  {
    match step
    case PutHeader(_, emit, ok) =>
      assert [] + Header(f) == Header(f) == Encode(f)[..5];
      assert f.payload == [] ==> Encode(f) == Header(f);
      PutKeeps(b, done, AtHeader, f, Header(f), StageAfter(f, step), emit, ok);
    case PutPayload(_, emit, ok) =>
      PutKeeps(b, done, AtPayload, f, f.payload, StageAfter(f, step), emit, ok);
    case Flush(_, emit, ok) =>
      FlushKeeps(b, done, f, emit, ok);
  }

  lemma PieceApplied(s: State, step: Step)
    requires Enabled(s, step) && (step.PutHeader? || step.PutPayload? || step.Flush?)
    ensures var s', send := Apply(s, step), s.sends[step.tid];
      var w := s.writers[send.to];
      && CanPut(w.buf, Piece(send.entry.frame, step), step.emit, step.ok)
      && s'.sends[step.tid] == send.(stage := StageAfter(send.entry.frame, step))
      && s'.writers[send.to] == w.(buf := Put(w.buf, Piece(send.entry.frame, step), step.emit, step.ok))
  {
  }

  lemma BusyStepKeeps(s: State, step: Step)
    requires Enabled(s, step) && (step.PutHeader? || step.PutPayload? || step.Flush?)
    requires SendInv(s, step.tid) && WriterInv(s, s.sends[step.tid].to)
    ensures var s', t := Apply(s, step), step.tid;
      BusyInv(s'.writers[s.sends[t].to], s'.sends[t]) && s'.writers[s.sends[t].to].holder == Some(t)
  {
    var send := s.sends[step.tid];
    var w := s.writers[send.to];
    PieceApplied(s, step);
    PieceKeeps(w.buf, Log(w.order[..|w.order| - 1]), send.stage, send.entry.frame, step);
  }

  /** The writer a step works on; Begin touches none. */
  function Target(s: State, step: Step): Option<ConnId>
    requires Enabled(s, step)
  {
    match step
    case Open(c) => Some(c)
    case Begin(_, _, _) => None
    case _ => Some(s.sends[step.tid].to)
  }

  lemma OthersKeep(s: State, step: Step, d: ConnId)
    requires Inv(s) && Enabled(s, step) && d in s.writers && Target(s, step) != Some(d)
    ensures WriterInv(Apply(s, step), d)
  {
    assert WriterInv(s, d);
  }

  lemma TargetKeeps(s: State, step: Step, d: ConnId)
    requires Inv(s) && Enabled(s, step) && Target(s, step) == Some(d)
    ensures WriterInv(Apply(s, step), d)
  {
    if step.PutHeader? || step.PutPayload? || step.Flush? {
      assert SendInv(s, step.tid) && WriterInv(s, d);
      BusyStepKeeps(s, step);
    } else if step.Acquire? {
      assert SendInv(s, step.tid) && WriterInv(s, d);
      AcquireKeeps(s.writers[d], s.sends[step.tid].entry, step.tid, Apply(s, step).writers[d]);
    } else if step.Release? {
      assert SendInv(s, step.tid) && WriterInv(s, d);
      ReleaseKeeps(s.writers[d], s.sends[step.tid]);
    } else {
      assert Log([]) == [];
    }
  }

  lemma InvStep(s: State, step: Step)
    requires Inv(s) && Enabled(s, step)
    ensures Inv(Apply(s, step))
  {
    var s' := Apply(s, step);
    forall d | d in s'.writers ensures WriterInv(s', d) {
      if Target(s, step) == Some(d) {
        TargetKeeps(s, step, d);
      } else {
        OthersKeep(s, step, d);
      }
    }
    forall t | t in s'.sends ensures SendInv(s', t) {
      assert t in s.sends ==> SendInv(s, t);
      assert !step.Open? && step.tid in s.sends ==> SendInv(s, step.tid);
      SendKeeps(s, step, t);
    }
  }

  lemma SendKeeps(s: State, step: Step, t: Tid)
    requires Enabled(s, step) && t in Apply(s, step).sends
    requires t in s.sends ==> SendInv(s, t)
    requires !step.Open? && step.tid in s.sends ==> SendInv(s, step.tid)
    ensures SendInv(Apply(s, step), t)
  {
  }

  predicate Run(s: State, steps: seq<Step>)
    decreases |steps|
  {
    steps == [] || (Enabled(s, steps[0]) && Run(Apply(s, steps[0]), steps[1..]))
  }

  function After(s: State, steps: seq<Step>): State
    requires Run(s, steps)
    decreases |steps|
  {
    if steps == [] then s else After(Apply(s, steps[0]), steps[1..])
  }

  const INITIAL := State(map[], map[])

  lemma {:induction false} InvRun(s: State, steps: seq<Step>)
    requires Inv(s) && Run(s, steps)
    ensures Inv(After(s, steps))
    decreases |steps|
  {
    if steps != [] {
      InvStep(s, steps[0]);
      InvRun(Apply(s, steps[0]), steps[1..]);
    }
  }

  /** What a connection carries is a prefix of its frames in lock order, all of them once it is quiet. */
  lemma WirePrefix(s: State, d: ConnId)
    requires Inv(s) && d in s.writers
    ensures var w := s.writers[d];
      && Prefix(w.buf.wire, Log(w.order))
      && (w.holder == None && !w.buf.failed ==> w.buf.wire == Log(w.order))
  {
    assert WriterInv(s, d);
    var w := s.writers[d];
    match w.holder
    case None =>
    case Some(t) => BusyPrefix(w, s.sends[t]);
  }

  lemma BusyPrefix(w: Writer, send: Send)
    requires BusyInv(w, send)
    ensures Prefix(w.buf.wire, Log(w.order))
  {
    var n := |w.order| - 1;
    assert w.order[..n] + [send.entry] == w.order;
    LogSnoc(w.order[..n], send.entry);
    if !w.buf.failed {
      BegunPrefix(Log(w.order[..n]), send.stage, send.entry.frame, w.buf.wire, w.buf.pending);
    }
  }

  lemma BegunPrefix(done: Bytes, stage: Stage, f: Frame, wire: Bytes, pending: Bytes)
    requires wire + pending == done + Begun(stage, f)
    ensures Prefix(wire, done + Encode(f))
  {
    var b := Begun(stage, f);
    assert Prefix(b, Encode(f));
    assert wire == (wire + pending)[..|wire|];
    assert (done + b) == (done + Encode(f))[..|done + b|];
  }

  /** The far side reads exactly the first frames in lock order; a cut can only lose a tail. */
  lemma FarSideReads(s: State, d: ConnId)
    requires Inv(s) && d in s.writers && AllFit(FramesOf(s.writers[d].order))
    ensures var w := s.writers[d]; var got := DecodeAll(w.buf.wire); var m := |got.frames|;
      && m <= |w.order| && got.frames == FramesOf(w.order[..m]) && got.error != TooLarge
      && (m < |w.order| ==> |w.buf.wire| < |Log(w.order[..m + 1])|)
      && (w.holder == None && !w.buf.failed ==> m == |w.order|)
  {
    WirePrefix(s, d);
    PrefixReads(s.writers[d].order, s.writers[d].buf.wire);
  }

  /** What a prefix of a log gives the far side. */
  lemma PrefixReads(order: seq<Entry>, wire: Bytes)
    requires Prefix(wire, Log(order)) && AllFit(FramesOf(order))
    ensures var got := DecodeAll(wire); var m := |got.frames|;
      && m <= |order| && got.frames == FramesOf(order[..m]) && got.error != TooLarge
      && (m < |order| ==> |wire| < |Log(order[..m + 1])|)
      && (wire == Log(order) ==> m == |order|)
  {
    var fs, k := FramesOf(order), |wire|;
    TruncatedStream(fs, k);
    WholeIsMaximal(fs, k);
    var m := Whole(fs, k);
    assert FramesOf(order[..m]) == fs[..m];
    if m < |fs| {
      assert FramesOf(order[..m + 1]) == fs[..m + 1];
    }
    if wire == Log(order) {
      RoundTrip(fs);
    }
  }

  /** For every interleaving of any number of sendFrame calls on any number of clients. */
  lemma WireIntegrity(steps: seq<Step>, d: ConnId)
    requires Run(INITIAL, steps) && d in After(INITIAL, steps).writers
    ensures var w := After(INITIAL, steps).writers[d];
      && Prefix(w.buf.wire, Log(w.order))
      && (w.holder == None && !w.buf.failed ==> w.buf.wire == Log(w.order))
      && (AllFit(FramesOf(w.order)) ==>
            var got := DecodeAll(w.buf.wire); var m := |got.frames|;
            && m <= |w.order| && got.frames == FramesOf(w.order[..m]) && got.error != TooLarge
            && (m < |w.order| ==> |w.buf.wire| < |Log(w.order[..m + 1])|)
            && (w.holder == None && !w.buf.failed ==> m == |w.order|))
  {
    InvRun(INITIAL, steps);
    var s := After(INITIAL, steps);
    WirePrefix(s, d);
    if AllFit(FramesOf(s.writers[d].order)) {
      FarSideReads(s, d);
    }
  }
}
