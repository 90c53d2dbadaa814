/** The hybrid relay as a transition system: per connection a handler and a reader
    goroutine joined by a 32-slot channel, per session a reply loop, and the shared
    registry, session table and writers. A step's label fixes what the environment
    chooses; Apply is what the program does with it. */
module Relay {
  import opened Basics
  import opened Frames
  import opened Wire
  import opened Sockets

  const CHANNEL_SLOTS := 32

  datatype InMsg = Arrived(frame: Frame) | ReadFailed

  datatype ReaderPc = Off | Reading | Pushing(msg: InMsg) | Stopped

  /** Where the handler goes when its sendFrame returns; SelectOrLeave leaves on error. */
  datatype Next = ToHello | ToRegister | ToSelect | SelectOrLeave

  datatype Pc =
    | Greet
    | Hello
    | Info
    | Register
    | Sending(next: Next)
    | Select
    | Routing(dest: Key, data: Bytes)
    | Resolving(dest: Key, data: Bytes)
    | Linking(dest: Key, data: Bytes, addr: Addr)
    | UdpOut(dest: Key, data: Bytes, sid: SessId)
    | Unlinking(dest: Key)
    | Closing(leaving: bool)
    | Deregister
    | RemoveAll
    | HangUp
    | Gone

  /** inbound: all bytes the client has sent; read: the frames parsed from the first pos of them,
      popped of which the handler has taken from the channel (the ClientInfo frame counts). */
  datatype Conn = Conn(key: Option<Key>, inbound: Bytes, pos: nat, read: seq<Frame>, popped: nat,
                       chan: seq<InMsg>, reader: ReaderPc, pc: Pc)

  datatype Datagram = Datagram(from: int, data: Bytes)

  datatype LoopPc = Starting | Receiving | Injecting | Ended

  /** conn is the connection captured by the reply callback when the session was created. */
  datatype ReplyLoop = ReplyLoop(conn: ConnId, src: Key, dst: Key, filter: int, got: seq<Datagram>, pc: LoopPc)

  /** A datagram written to the socket of session sid for the index-th frame of a connection. */
  datatype Outgoing = Outgoing(sid: SessId, from: ConnId, index: nat, addr: Addr, data: Bytes)

  datatype RState = RState(serverKey: Key, conns: map<ConnId, Conn>, loops: map<SessId, ReplyLoop>,
                           clients: map<Key, ConnId>, wire: Wire.State, table: Table, udp: seq<Outgoing>)

  datatype RStep =
    | Accept(c: ConnId)
    | ClientBytes(c: ConnId, bytes: Bytes)
    | SendServerKey(c: ConnId)
    | ReadHello(c: ConnId, readError: bool, verified: bool)
    | SendServerInfo(c: ConnId, sealed: Bytes)
    | Join(c: ConnId)
    | ReadNext(c: ConnId, readError: bool)
    | Push(c: ConnId)
    | Tick(c: ConnId)
    | ContextDone(c: ConnId)
    | Pop(c: ConnId)
    | Lookup(c: ConnId)
    | Resolve(c: ConnId, found: Option<Addr>)
    | Link(c: ConnId, newId: SessId, listenOk: bool)
    | UdpWrite(c: ConnId, ok: bool)
    | Drop(c: ConnId)
    | CloseOne(c: ConnId)
    | ClosedAll(c: ConnId)
    | Leave(c: ConnId)
    | DropAll(c: ConnId, order: seq<SessId>)
    | CloseConn(c: ConnId)
    | LoopStart(sid: SessId)
    | Receive(sid: SessId, datagram: Datagram)
    | LoopEnd(sid: SessId)
    | Progress(step: Wire.Step)
    | HandlerReturn(c: ConnId)
    | LoopReturn(sid: SessId)

  function ServerKeyFrame(k: Key): Frame {
    Frame(SERVER_KEY, MAGIC + k)
  }

  predicate Inside(s: RState, c: ConnId, pc: Pc) {
    c in s.conns && s.conns[c].pc == pc
  }

  predicate IsHello(f: Frame) {
    f.kind == CLIENT_INFO && |f.payload| >= PUB_KEY_LEN
  }

  predicate IsPing(f: Frame) {
    f.kind == PING && |f.payload| == 8
  }

  predicate CanRead(k: Conn, readError: bool) {
    && k.pos <= |k.inbound|
    && (readError || Parse(k.inbound[k.pos..]).Good? || Parse(k.inbound[k.pos..]).error == TooLarge)
  }

  predicate Returning(s: RState, t: Tid) {
    Wire.Sending(s.wire, t, AtUnlock(true)) || Wire.Sending(s.wire, t, AtUnlock(false))
  }

  /** The move of the wire a step makes, if any. */
  function WireMove(s: RState, step: RStep): Option<Wire.Step> {
    match step
    case Accept(c) => Some(Open(c))
    case SendServerKey(c) => Some(Begin(Handler(c), c, Entry(ServerKeyFrame(s.serverKey), Control)))
    case SendServerInfo(c, sealed) => Some(Begin(Handler(c), c, Entry(Frame(SERVER_INFO, sealed), Control)))
    case Tick(c) => Some(Begin(Handler(c), c, Entry(Frame(KEEP_ALIVE, []), Control)))
    case Pop(c) =>
      if c in s.conns && s.conns[c].chan != [] && s.conns[c].chan[0].Arrived? && IsPing(s.conns[c].chan[0].frame)
      then Some(Begin(Handler(c), c, Entry(Frame(PONG, s.conns[c].chan[0].frame.payload), Control)))
      else None
    case Lookup(c) =>
      if c in s.conns && s.conns[c].pc.Routing? && s.conns[c].key.Some? && s.conns[c].popped > 0
         && s.conns[c].pc.dest in s.clients
      then
        var k := s.conns[c];
        Some(Begin(Handler(c), s.clients[k.pc.dest], Entry(RecvPacket(k.key.value, k.pc.data), Local(c, k.popped - 1))))
      else None
    case Receive(sid, d) =>
      if sid in s.loops && s.loops[sid].filter == d.from
      then
        var l := s.loops[sid];
        Some(Begin(Loop(sid), l.conn, Entry(RecvPacket(l.dst, Truncated(d.data)), Reply(sid, |l.got|))))
      else None
    case Progress(ws) => Some(ws)
    case HandlerReturn(c) => Some(Release(Handler(c)))
    case LoopReturn(sid) => Some(Release(Loop(sid)))
    case _ => None
  }

  /** A datagram is read into a buffer of the maximal frame size. */
  function Truncated(data: Bytes): Bytes {
    if |data| <= MAX_FRAME_SIZE then data else data[..MAX_FRAME_SIZE]
  }

  /** The operation on the session table a step makes, if any. */
  function TableOp(s: RState, step: RStep): Option<Op> {
    match step
    case Link(c, newId, listenOk) =>
      if c in s.conns && s.conns[c].pc.Linking? && s.conns[c].key.Some?
      then Some(GetOrCreate(s.conns[c].key.value, s.conns[c].pc.dest, s.conns[c].pc.addr, newId, listenOk))
      else None
    case Drop(c) =>
      if c in s.conns && s.conns[c].pc.Unlinking? && s.conns[c].key.Some?
      then Some(Unlink(Handler(c), s.conns[c].key.value, s.conns[c].pc.dest))
      else None
    case DropAll(c, order) =>
      if c in s.conns && s.conns[c].key.Some? then Some(UnlinkAll(Handler(c), s.conns[c].key.value, order)) else None
    case CloseOne(c) => Some(CloseNext(Handler(c)))
    case ClosedAll(c) => Some(Finish(Handler(c)))
    case _ => None
  }

  predicate LocallyEnabled(s: RState, step: RStep) {
    match step
    case Accept(c) => c !in s.conns
    case ClientBytes(c, _) => c in s.conns
    case SendServerKey(c) => Inside(s, c, Greet)
    case ReadHello(c, readError, _) => Inside(s, c, Hello) && CanRead(s.conns[c], readError)
    case SendServerInfo(c, sealed) => Inside(s, c, Info) && |sealed| <= MAX_FRAME_SIZE
    case Join(c) => Inside(s, c, Register) && s.conns[c].key.Some?
    case ReadNext(c, readError) => c in s.conns && s.conns[c].reader == Reading && CanRead(s.conns[c], readError)
    case Push(c) => c in s.conns && s.conns[c].reader.Pushing? && |s.conns[c].chan| < CHANNEL_SLOTS
    case Tick(c) => Inside(s, c, Select)
    case ContextDone(c) => Inside(s, c, Select)
    case Pop(c) => Inside(s, c, Select) && s.conns[c].chan != []
    case Lookup(c) => c in s.conns && s.conns[c].pc.Routing? && s.conns[c].key.Some? && s.conns[c].popped > 0
    case Resolve(c, _) => c in s.conns && s.conns[c].pc.Resolving?
    case Link(c, newId, _) => c in s.conns && s.conns[c].pc.Linking? && s.conns[c].key.Some? && newId !in s.loops
    case UdpWrite(c, ok) =>
      && c in s.conns && s.conns[c].pc.UdpOut? && s.conns[c].popped > 0
      && s.conns[c].pc.sid in s.table.sockets && (ok ==> s.table.sockets[s.conns[c].pc.sid].open)
    case Drop(c) => c in s.conns && s.conns[c].pc.Unlinking? && s.conns[c].key.Some?
    case CloseOne(c) => c in s.conns && s.conns[c].pc.Closing?
    case ClosedAll(c) => c in s.conns && s.conns[c].pc.Closing?
    case Leave(c) => Inside(s, c, Deregister) && s.conns[c].key.Some?
    case DropAll(c, _) => Inside(s, c, RemoveAll) && s.conns[c].key.Some?
    case CloseConn(c) => Inside(s, c, HangUp)
    case LoopStart(sid) => sid in s.loops && s.loops[sid].pc == Starting && sid in s.table.sockets
    case Receive(sid, d) =>
      && sid in s.loops && s.loops[sid].pc == Receiving && |d.data| <= MAX_DATAGRAM
      && sid in s.table.sockets && s.table.sockets[sid].open
    case LoopEnd(sid) => sid in s.loops && s.loops[sid].pc == Receiving
    case Progress(ws) => ws.Acquire? || ws.PutHeader? || ws.PutPayload? || ws.Flush?
    case HandlerReturn(c) => c in s.conns && s.conns[c].pc.Sending? && Returning(s, Handler(c))
    case LoopReturn(sid) => sid in s.loops && s.loops[sid].pc == Injecting && Returning(s, Loop(sid))
  }

  predicate REnabled(s: RState, step: RStep) {
    && LocallyEnabled(s, step)
    && (WireMove(s, step).Some? ==> Wire.Enabled(s.wire, WireMove(s, step).value))
    && (TableOp(s, step).Some? ==> Can(s.table, TableOp(s, step).value))
  }

  /** dispatch: only complete SendPacket frames are routed and only 8-byte pings are answered. */
  function AfterPop(m: InMsg): Pc {
    match m
    case ReadFailed => Deregister
    case Arrived(f) =>
      if IsSendPacket(f) then Routing(Destination(f), Data(f))
      else if IsPing(f) then Sending(ToSelect)
      else Select
  }

  function AfterSend(next: Next, ok: bool): Pc {
    match next
    case ToHello => if ok then Hello else HangUp
    case ToRegister => if ok then Register else HangUp
    case ToSelect => Select
    case SelectOrLeave => if ok then Select else Deregister
  }

  function Consume(k: Conn): Conn
    requires k.pos <= |k.inbound| && Parse(k.inbound[k.pos..]).Good?
  {
    var p := Parse(k.inbound[k.pos..]);
    k.(read := k.read + [p.frame], pos := |k.inbound| - |p.rest|)
  }

  function HelloDone(k: Conn, readError: bool, verified: bool): Conn
    requires CanRead(k, readError)
  {
    var p := Parse(k.inbound[k.pos..]);
    if readError || p.Bad? then k.(pc := HangUp)
    else if IsHello(p.frame) && verified then
      Consume(k).(pc := Info, key := Some(p.frame.payload[..PUB_KEY_LEN]), popped := k.popped + 1)
    else Consume(k).(pc := HangUp, popped := k.popped + 1)
  }

  function ReadDone(k: Conn, readError: bool): Conn
    requires CanRead(k, readError)
  {
    var p := Parse(k.inbound[k.pos..]);
    if readError || p.Bad? then k.(reader := Pushing(ReadFailed)) else Consume(k).(reader := Pushing(Arrived(p.frame)))
  }

  /** The connection a step works on. */
  function ConnOf(s: RState, step: RStep): Option<ConnId> {
    match step
    case LoopStart(_) => None
    case Receive(_, _) => None
    case LoopEnd(_) => None
    case LoopReturn(_) => None
    case Progress(_) => None
    case _ => Some(step.c)
  }

  const NEW_CONN := Conn(None, [], 0, [], 0, [], Off, Greet)

  function ConnAfter(s: RState, step: RStep): Conn
    requires LocallyEnabled(s, step) && ConnOf(s, step).Some?
  {
    if step.Accept? then NEW_CONN
    else
      var k := s.conns[step.c];
      match step
      case ClientBytes(_, bytes) => k.(inbound := k.inbound + bytes)
      case SendServerKey(_) => k.(pc := Sending(ToHello))
      case ReadHello(_, readError, verified) => HelloDone(k, readError, verified)
      case SendServerInfo(_, _) => k.(pc := Sending(ToRegister))
      case Join(_) => k.(pc := Select, reader := Reading)
      case ReadNext(_, readError) => ReadDone(k, readError)
      case Push(_) =>
        k.(chan := k.chan + [k.reader.msg], reader := if k.reader.msg.ReadFailed? then Stopped else Reading)
      case Tick(_) => k.(pc := Sending(SelectOrLeave))
      case ContextDone(_) => k.(pc := Deregister)
      case Pop(_) =>
        k.(chan := k.chan[1..], pc := AfterPop(k.chan[0]),
           popped := if k.chan[0].Arrived? then k.popped + 1 else k.popped)
      case Lookup(_) => k.(pc := if k.pc.dest in s.clients then Sending(ToSelect) else Resolving(k.pc.dest, k.pc.data))
      case Resolve(_, found) => k.(pc := if found.Some? then Linking(k.pc.dest, k.pc.data, found.value) else Select)
      case Link(_, _, _) =>
        var sid := Got(s.table, TableOp(s, step).value);
        k.(pc := if sid.Some? then UdpOut(k.pc.dest, k.pc.data, sid.value) else Select)
      case UdpWrite(_, ok) => k.(pc := if ok then Select else Unlinking(k.pc.dest))
      case Drop(_) => k.(pc := Closing(false))
      case CloseOne(_) => k
      case ClosedAll(_) => k.(pc := if k.pc.leaving then HangUp else Select)
      case Leave(_) => k.(pc := RemoveAll)
      case DropAll(_, _) => k.(pc := Closing(true))
      case CloseConn(_) => k.(pc := Gone)
      case HandlerReturn(_) => k.(pc := AfterSend(k.pc.next, Wire.Sending(s.wire, Handler(step.c), AtUnlock(true))))
  }

  function LoopsAfter(s: RState, step: RStep): map<SessId, ReplyLoop>
    requires LocallyEnabled(s, step)
  {
    match step
    case Link(c, newId, _) =>
      if Got(s.table, TableOp(s, step).value) == Some(newId)
      then s.loops[newId := ReplyLoop(c, s.conns[c].key.value, s.conns[c].pc.dest, 0, [], Starting)]
      else s.loops
    case LoopStart(sid) => s.loops[sid := s.loops[sid].(filter := s.table.sockets[sid].addr.ip, pc := Receiving)]
    case Receive(sid, d) =>
      var l := s.loops[sid];
      s.loops[sid := l.(got := l.got + [d], pc := if l.filter == d.from then Injecting else Receiving)]
    case LoopEnd(sid) => s.loops[sid := s.loops[sid].(pc := Ended)]
    case LoopReturn(sid) => s.loops[sid := s.loops[sid].(pc := Receiving)]
    case _ => s.loops
  }

  function RApply(s: RState, step: RStep): RState
    requires REnabled(s, step)
  {
    RState(
      s.serverKey,
      if ConnOf(s, step).Some? then s.conns[ConnOf(s, step).value := ConnAfter(s, step)] else s.conns,
      LoopsAfter(s, step),
      match step
      case Join(c) => s.clients[s.conns[c].key.value := c]
      case Leave(c) => s.clients - {s.conns[c].key.value}
      case _ => s.clients,
      match WireMove(s, step) case Some(m) => Wire.Apply(s.wire, m) case None => s.wire,
      match TableOp(s, step) case Some(op) => Do(s.table, op) case None => s.table,
      match step
      case UdpWrite(c, true) =>
        var k := s.conns[c];
        s.udp + [Outgoing(k.pc.sid, c, k.popped - 1, s.table.sockets[k.pc.sid].addr, k.pc.data)]
      case _ => s.udp)
  }

  predicate RRun(s: RState, steps: seq<RStep>)
    decreases |steps|
  {
    steps == [] || (REnabled(s, steps[0]) && RRun(RApply(s, steps[0]), steps[1..]))
  }

  function RAfter(s: RState, steps: seq<RStep>): RState
    requires RRun(s, steps)
    decreases |steps|
  {
    if steps == [] then s else RAfter(RApply(s, steps[0]), steps[1..])
  }

  function Boot(serverKey: Key): RState {
    RState(serverKey, map[], map[], map[], Wire.INITIAL, EMPTY, [])
  }
}
