/** The invariant of the relay: what the far side sent, what is queued, what has been
    relayed and for whom, and who may still own a session. */
module RelayInv {
  import opened Basics
  import opened Frames
  import opened Wire
  import opened Sockets
  import opened Relay

  function Payloads(chan: seq<InMsg>): seq<Frame> {
    if chan == [] then []
    else (if chan[0].Arrived? then [chan[0].frame] else []) + Payloads(chan[1..])
  }

  function InHand(r: ReaderPc): seq<Frame> {
    if r.Pushing? && r.msg.Arrived? then [r.msg.frame] else []
  }

  lemma {:induction false} PayloadsSnoc(chan: seq<InMsg>, m: InMsg)
    ensures Payloads(chan + [m]) == Payloads(chan) + InHand(Pushing(m))
  {
    if chan != [] {
      PayloadsSnoc(chan[1..], m);
      assert (chan + [m])[1..] == chan[1..] + [m];
    }
  }

  /** The bytes consumed are exactly the frames read, and those wait in order. */
  predicate InputInv(k: Conn) {
    && k.pos <= |k.inbound|
    && k.inbound[..k.pos] == EncodeAll(k.read)
    && AllFit(k.read)
    && k.popped <= |k.read|
    && k.read[k.popped..] == Payloads(k.chan) + InHand(k.reader)
  }

  predicate Anonymous(pc: Pc) {
    pc.Greet? || pc.Hello? || pc == Sending(ToHello)
  }

  predicate Leaving(pc: Pc) {
    pc.HangUp? || pc.Gone?
  }

  /** Registered and not yet deregistered. */
  predicate Serving(pc: Pc) {
    || pc.Select? || pc.Routing? || pc.Resolving? || pc.Linking? || pc.UdpOut? || pc.Unlinking?
    || pc == Closing(false) || pc == Sending(ToSelect) || pc == Sending(SelectOrLeave) || pc.Deregister?
  }

  /** A handler that has still to run its RemoveAll. */
  predicate Owning(pc: Pc) {
    Serving(pc) || pc.RemoveAll?
  }

  /** The packet a handler is relaying is the last one it took from the channel. */
  predicate Carries(k: Conn, dest: Key, data: Bytes) {
    && 0 < k.popped <= |k.read|
    && var f := k.read[k.popped - 1];
      IsSendPacket(f) && dest == Destination(f) && data == Data(f)
  }

  predicate Joined(pc: Pc) {
    !(Anonymous(pc) || pc.Info? || pc.Register? || pc == Sending(ToRegister))
  }

  predicate PcInv(k: Conn) {
    && (!Joined(k.pc) ==> k.reader == Off && k.chan == [])
    && (Anonymous(k.pc) ==> k.key == None)
    && (!Anonymous(k.pc) && !Leaving(k.pc) ==> k.key.Some?)
    && (match k.pc
        case Routing(dest, data) => Carries(k, dest, data)
        case Resolving(dest, data) => Carries(k, dest, data)
        case Linking(dest, data, _) => Carries(k, dest, data)
        case UdpOut(dest, data, _) => Carries(k, dest, data)
        case _ => true)
  }

  predicate ConnInv(s: RState, c: ConnId)
    requires c in s.conns
  {
    var k := s.conns[c];
    && InputInv(k) && PcInv(k)
    && c in s.wire.writers
    && (k.pc.UdpOut? ==> SocketOf(s, k.pc.sid, k.key.value, k.pc.dest))
  }

  predicate SocketOf(s: RState, sid: SessId, src: Key, dst: Key) {
    sid in s.table.sockets && s.table.sockets[sid].src == src && s.table.sockets[sid].dst == dst
  }

  predicate HasKey(s: RState, c: ConnId, key: Key) {
    c in s.conns && s.conns[c].key == Some(key)
  }

  predicate LoopInv(s: RState, sid: SessId)
    requires sid in s.loops
  {
    var l := s.loops[sid];
    && SocketOf(s, sid, l.src, l.dst)
    && HasKey(s, l.conn, l.src)
    && (forall i :: 0 <= i < |l.got| ==> |l.got[i].data| <= MAX_DATAGRAM)
  }

  /** Every registry entry is a handshaken connection for that key whose handler has not deregistered. */
  predicate RegistryInv(s: RState) {
    forall key :: key in s.clients ==> HasKey(s, s.clients[key], key) && Serving(s.conns[s.clients[key]].pc)
  }

  predicate OwnerOf(s: RState, c: ConnId, key: Key) {
    HasKey(s, c, key) && Owning(s.conns[c].pc)
  }

  /** Every session in the table has a handler for its source that will still run RemoveAll. */
  ghost predicate OwnersInv(s: RState) {
    forall p :: p in s.table.entries ==> exists c :: OwnerOf(s, c, p.0)
  }

  /** The n-th frame read from c is a packet for the key of d, relayed as it should be. */
  predicate LocalOk(s: RState, c: ConnId, n: nat, d: ConnId, f: Frame) {
    && c in s.conns && d in s.conns && n < |s.conns[c].read|
    && var p := s.conns[c].read[n];
      && IsSendPacket(p) && Fits(p)
      && s.conns[c].key.Some? && HasKey(s, d, Destination(p))
      && f == RecvPacket(s.conns[c].key.value, Data(p))
  }

  /** The n-th datagram of session sid came from the filtered IP and goes to a connection of its source. */
  predicate ReplyOk(s: RState, sid: SessId, n: nat, d: ConnId, f: Frame) {
    && sid in s.loops && n < |s.loops[sid].got|
    && var l := s.loops[sid];
      && d == l.conn && HasKey(s, d, l.src) && l.pc != Starting
      && l.got[n].from == l.filter && |l.got[n].data| <= MAX_DATAGRAM
      && f == RecvPacket(l.dst, l.got[n].data)
  }

  predicate OriginOk(s: RState, d: ConnId, e: Entry) {
    match e.origin
    case Control => Fits(e.frame) && e.frame.kind != RECV_PACKET
    case Local(c, n) => LocalOk(s, c, n, d, e.frame)
    case Reply(sid, n) => ReplyOk(s, sid, n, d, e.frame)
  }

  predicate WaitingOn(s: RState, t: Tid) {
    t in s.wire.sends && s.wire.sends[t].stage == Waiting
  }

  /** The packet taken last has not been handed to a locked writer or to a socket. */
  predicate Unsent(s: RState, c: ConnId)
    requires c in s.conns
  {
    var pc := s.conns[c].pc;
    || pc.Routing? || pc.Resolving? || pc.Linking? || pc.UdpOut?
    || (WaitingOn(s, Handler(c)) && s.wire.sends[Handler(c)].entry.origin.Local?)
  }

  /** Indices below the bound may have been relayed already; the others have not. */
  function Bound(s: RState, o: Origin): int {
    match o
    case Control => 0
    case Local(c, _) =>
      if c !in s.conns then 0 else if Unsent(s, c) then s.conns[c].popped - 1 else s.conns[c].popped
    case Reply(sid, _) =>
      if sid !in s.loops then 0 else if WaitingOn(s, Loop(sid)) then |s.loops[sid].got| - 1 else |s.loops[sid].got|
  }

  predicate Below(s: RState, o: Origin) {
    o.Control? || o.index < Bound(s, o)
  }

  predicate EntryInv(s: RState, d: ConnId, i: nat)
    requires d in s.wire.writers && i < |s.wire.writers[d].order|
  {
    var e := s.wire.writers[d].order[i];
    OriginOk(s, d, e) && Below(s, e.origin)
  }

  /** Two frames with one source keep the order in which that source produced them. */
  predicate InOrder(a: Origin, b: Origin) {
    && (a.Local? && b.Local? && a.src == b.src ==> a.index < b.index)
    && (a.Reply? && b.Reply? && a.sess == b.sess ==> a.index < b.index)
  }

  predicate OrderInv(order: seq<Entry>) {
    forall i, j :: 0 <= i < j < |order| ==> InOrder(order[i].origin, order[j].origin)
  }

  /** A call of sendFrame belongs to a goroutine that is inside it; before the lock it names the newest item. */
  predicate CallInv(s: RState, t: Tid)
    requires t in s.wire.sends
  {
    var send := s.wire.sends[t];
    && (match t
        case Handler(c) => c in s.conns && s.conns[c].pc.Sending?
        case Loop(sid) => sid in s.loops && s.loops[sid].pc == Injecting)
    && (send.stage == Waiting ==>
          && OriginOk(s, send.to, send.entry)
          && (match send.entry.origin
              case Control => true
              case Local(c, n) => t == Handler(c) && n == s.conns[c].popped - 1
              case Reply(sid, n) => t == Loop(sid) && n == |s.loops[sid].got| - 1))
  }

  predicate UdpOk(s: RState, o: Outgoing) {
    && o.from in s.conns && o.index < |s.conns[o.from].read| && s.conns[o.from].key.Some?
    && var p := s.conns[o.from].read[o.index];
      && IsSendPacket(p) && o.data == Data(p)
      && SocketOf(s, o.sid, s.conns[o.from].key.value, Destination(p))
  }

  predicate UdpInv(s: RState) {
    && (forall i :: 0 <= i < |s.udp| ==>
          UdpOk(s, s.udp[i]) && Below(s, Local(s.udp[i].from, s.udp[i].index)))
    && (forall i, j :: 0 <= i < j < |s.udp| ==>
          InOrder(Local(s.udp[i].from, s.udp[i].index), Local(s.udp[j].from, s.udp[j].index)))
  }

  ghost predicate BasicInv(s: RState) {
    && Wire.Inv(s.wire)
    && TableInv(s.table)
    && (forall c :: c in s.conns ==> ConnInv(s, c))
    && (forall sid :: sid in s.loops ==> LoopInv(s, sid))
    && (forall t :: t in s.wire.sends ==> CallInv(s, t))
    && RegistryInv(s)
  }

  ghost predicate RelayedInv(s: RState) {
    && (forall d, i :: d in s.wire.writers && 0 <= i < |s.wire.writers[d].order| ==> EntryInv(s, d, i))
    && (forall d :: d in s.wire.writers ==> OrderInv(s.wire.writers[d].order))
    && UdpInv(s)
  }

  predicate UsedBy(s: RState, d: ConnId, i: nat, c: ConnId, n: nat) {
    && d in s.wire.writers && i < |s.wire.writers[d].order|
    && s.wire.writers[d].order[i].origin == Local(c, n)
  }

  /** A frame is relayed at most once, over all destinations and both paths. */
  ghost predicate OnceInv(s: RState) {
    && (forall c, n, d, i, e, j :: UsedBy(s, d, i, c, n) && UsedBy(s, e, j, c, n) ==> d == e && i == j)
    && (forall c, n, d, i, u :: UsedBy(s, d, i, c, n) && 0 <= u < |s.udp| ==>
          !(s.udp[u].from == c && s.udp[u].index == n))
  }

  ghost predicate RInv(s: RState) {
    BasicInv(s) && OwnersInv(s) && RelayedInv(s) && OnceInv(s)
  }

  // ---- growth: what no step takes back ----

  predicate ConnGrows(k: Conn, k': Conn) {
    && (k.key.Some? ==> k'.key == k.key)
    && |k.read| <= |k'.read| && k.read == k'.read[..|k.read|]
    && |k.inbound| <= |k'.inbound| && k.inbound == k'.inbound[..|k.inbound|]
  }

  predicate LoopGrows(l: ReplyLoop, l': ReplyLoop) {
    && l'.conn == l.conn && l'.src == l.src && l'.dst == l.dst
    && (l.pc != Starting ==> l'.filter == l.filter && l'.pc != Starting)
    && |l.got| <= |l'.got| && l.got == l'.got[..|l.got|]
  }

  predicate Grows(s: RState, s': RState) {
    && (forall c :: c in s.conns ==> c in s'.conns && ConnGrows(s.conns[c], s'.conns[c]))
    && (forall sid :: sid in s.loops ==> sid in s'.loops && LoopGrows(s.loops[sid], s'.loops[sid]))
    && (forall sid :: sid in s.table.sockets ==> SocketOf(s', sid, s.table.sockets[sid].src, s.table.sockets[sid].dst))
  }

  lemma OriginGrows(s: RState, s': RState, d: ConnId, e: Entry)
    requires Grows(s, s') && OriginOk(s, d, e)
    ensures OriginOk(s', d, e)
  {
    match e.origin
    case Control =>
    case Local(c, n) => assert ConnGrows(s.conns[c], s'.conns[c]) && ConnGrows(s.conns[d], s'.conns[d]);
    case Reply(sid, n) => assert LoopGrows(s.loops[sid], s'.loops[sid]) && ConnGrows(s.conns[d], s'.conns[d]);
  }

  lemma ConsumeKeeps(k: Conn)
    requires InputInv(k) && Parse(k.inbound[k.pos..]).Good?
    ensures var k' := Consume(k); var f := Parse(k.inbound[k.pos..]).frame;
      && k'.pos <= |k'.inbound| && k'.inbound[..k'.pos] == EncodeAll(k'.read) && AllFit(k'.read)
      && k'.read == k.read + [f] && k'.read[k.popped..] == k.read[k.popped..] + [f]
  {
    var s := k.inbound[k.pos..];
    var f, rest := Parse(s).frame, Parse(s).rest;
    ParseCanonical(s);
    EncodeAllSnoc(k.read, f);
    var k' := Consume(k);
    assert |s| == |Encode(f)| + |rest|;
    TakenSoFar(k.inbound, k.pos, Encode(f), rest);
  }

  lemma TakenSoFar(inbound: Bytes, pos: nat, frame: Bytes, rest: Bytes)
    requires pos <= |inbound| && inbound[pos..] == frame + rest
    ensures |inbound| - |rest| == pos + |frame| && inbound[..pos + |frame|] == inbound[..pos] + frame
  {
    assert inbound == inbound[..pos] + inbound[pos..];
  }

  lemma HelloKeeps(k: Conn, readError: bool, verified: bool)
    requires InputInv(k) && CanRead(k, readError) && k.pc == Hello && PcInv(k)
    ensures InputInv(HelloDone(k, readError, verified)) && ConnGrows(k, HelloDone(k, readError, verified))
  {
    if !readError && Parse(k.inbound[k.pos..]).Good? {
      ConsumeKeeps(k);
    }
  }

  lemma ReadKeeps(k: Conn, readError: bool)
    requires InputInv(k) && CanRead(k, readError) && k.reader == Reading
    ensures InputInv(ReadDone(k, readError)) && ConnGrows(k, ReadDone(k, readError))
  {
    if !readError && Parse(k.inbound[k.pos..]).Good? {
      ConsumeKeeps(k);
    }
  }

  lemma BytesKeep(k: Conn, bytes: Bytes)
    requires InputInv(k)
    ensures InputInv(k.(inbound := k.inbound + bytes)) && ConnGrows(k, k.(inbound := k.inbound + bytes))
  {
    assert (k.inbound + bytes)[..k.pos] == k.inbound[..k.pos];
  }

  lemma SameInput(k: Conn, k': Conn)
    requires InputInv(k)
    requires k'.chan == k.chan && k'.read == k.read && k'.popped == k.popped && k'.inbound == k.inbound
    requires k'.pos == k.pos && k'.key == k.key && InHand(k'.reader) == InHand(k.reader)
    ensures InputInv(k') && ConnGrows(k, k')
  {
  }

  lemma PushKeeps(k: Conn, k': Conn)
    requires InputInv(k) && k.reader.Pushing? && k'.reader in {Reading, Stopped}
    requires k' == k.(chan := k.chan + [k.reader.msg], reader := k'.reader)
    ensures InputInv(k') && ConnGrows(k, k')
  {
    PayloadsSnoc(k.chan, k.reader.msg);
  }

  lemma PopKeeps(k: Conn, k': Conn)
    requires InputInv(k) && k.chan != []
    requires k' == k.(chan := k.chan[1..], pc := k'.pc,
                      popped := if k.chan[0].Arrived? then k.popped + 1 else k.popped)
    ensures InputInv(k') && ConnGrows(k, k')
    ensures k.chan[0].Arrived? ==> k.read[k.popped] == k.chan[0].frame
  {
    var q := Payloads(k.chan) + InHand(k.reader);
    var q' := Payloads(k'.chan) + InHand(k.reader);
    assert k.read[k.popped..] == q;
    if k.chan[0].Arrived? {
      assert q == [k.chan[0].frame] + q';
      assert k.read[k.popped] == q[0];
      assert k.read[k.popped + 1..] == q[1..] == q';
    } else {
      assert q == q';
    }
  }

  predicate TouchesInput(step: RStep) {
    step.ClientBytes? || step.ReadHello? || step.ReadNext? || step.Push? || step.Pop?
  }

  lemma QuietStep(s: RState, step: RStep)
    requires LocallyEnabled(s, step) && ConnOf(s, step).Some? && !step.Accept? && !TouchesInput(step)
    ensures var k, k' := s.conns[step.c], ConnAfter(s, step);
      && k'.chan == k.chan && k'.read == k.read && k'.popped == k.popped
      && k'.inbound == k.inbound && k'.pos == k.pos && k'.key == k.key
      && k'.reader == if step.Join? then Reading else k.reader
  {
  }

  lemma TouchingStep(s: RState, step: RStep)
    requires LocallyEnabled(s, step) && TouchesInput(step)
    requires InputInv(s.conns[step.c]) && PcInv(s.conns[step.c])
    ensures InputInv(ConnAfter(s, step)) && ConnGrows(s.conns[step.c], ConnAfter(s, step))
  {
    var k, k' := s.conns[step.c], ConnAfter(s, step);
    if
    case step.ClientBytes? => BytesKeep(k, step.bytes);
    case step.ReadHello? => HelloKeeps(k, step.readError, step.verified);
    case step.ReadNext? => ReadKeeps(k, step.readError);
    case step.Push? => PushKeeps(k, k');
    case step.Pop? => PopKeeps(k, k');
  }

  /** Reading, queueing and taking frames keeps the queue equal to what was read and not taken. */
  lemma InputStep(s: RState, step: RStep)
    requires LocallyEnabled(s, step) && ConnOf(s, step).Some? && !step.Accept?
    requires InputInv(s.conns[step.c]) && PcInv(s.conns[step.c])
    ensures InputInv(ConnAfter(s, step)) && ConnGrows(s.conns[step.c], ConnAfter(s, step))
  {
    if TouchesInput(step) {
      TouchingStep(s, step);
    } else {
      QuietStep(s, step);
      SameInput(s.conns[step.c], ConnAfter(s, step));
    }
  }
}
