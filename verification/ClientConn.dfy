/** One client's buffered writer and the methods that send frames on it, run by one goroutine
    at a time. How the connection takes bytes and when it fails is left to the environment. */
module ClientConns {
  import opened Frames
  import opened Wire

  class BufioWriter {
    var wire: Bytes
    var pending: Bytes
    var failed: bool

    constructor ()
      ensures View() == Buffer([], [], false)
    {
      wire, pending, failed := [], [], false;
    }

    function View(): Buffer
      reads this
    {
      Buffer(wire, pending, failed)
    }

    /** Some held bytes may go out at once; an error sticks. */
    method Write(p: Bytes) returns (ok: bool)
      modifies this
      ensures exists emit: nat :: CanPut(old(View()), p, emit, ok) && View() == Put(old(View()), p, emit, ok)
    {
      if failed {
        ok := false;
        assert CanPut(old(View()), p, 0, ok);
        return;
      }
      var all := pending + p;
      var emit :| 0 <= emit <= |all|;
      ok := *;
      wire, pending, failed := wire + all[..emit], all[emit..], !ok;
      assert CanPut(old(View()), p, emit, ok);
    }

    method Flush() returns (ok: bool)
      modifies this
      ensures exists emit: nat :: CanFlush(old(View()), emit, ok) && View() == Put(old(View()), [], emit, ok)
    {
      if failed {
        ok := false;
        assert CanFlush(old(View()), 0, ok);
        return;
      }
      var emit :| 0 <= emit <= |pending|;
      ok := emit == |pending|;
      assert pending + [] == pending;
      wire, pending, failed := wire + pending[..emit], pending[emit..], !ok;
      assert CanFlush(old(View()), emit, ok);
    }
  }

  method FillHeader(kind: Byte, payload: Bytes) returns (hdr: array<Byte>)
    ensures fresh(hdr) && hdr[..] == Header(Frame(kind, payload))
  {
    hdr := new Byte[5];
    hdr[0] := kind;
    var size := PutUint32(|payload| % TWO_32);
    hdr[1], hdr[2], hdr[3], hdr[4] := size[0], size[1], size[2], size[3];
    assert hdr[..] == [kind] + size;
  }

  /** One piece of a frame goes to the writer; after an error the frame is over. */
  method Hand(w: BufioWriter, p: Bytes, ghost done: Bytes, ghost stage: Stage, ghost f: Frame, ghost next: Stage)
    returns (ok: bool)
    requires BusyBuffer(w.View(), done, stage, f) && Begun(stage, f) + p == Begun(next, f)
    requires Prefix(Begun(stage, f) + p, Encode(f)) && (next.AtPayload? || next.AtFlush?)
    modifies w
    ensures BusyBuffer(w.View(), done, if ok then next else AtUnlock(false), f)
    ensures Prefix(old(w.wire), w.wire) && (old(w.failed) ==> !ok && w.wire == old(w.wire))
  {
    ghost var b := w.View();
    ok := w.Write(p);
    ghost var emit: nat :| CanPut(b, p, emit, ok) && w.View() == Put(b, p, emit, ok);
    PutKeeps(b, done, stage, f, p, if ok then next else AtUnlock(false), emit, ok);
  }

  /** writeFrame: a 5-byte header filled in place, then the payload unless it is empty. */
  method WriteFrame(w: BufioWriter, kind: Byte, payload: Bytes, ghost done: Bytes) returns (ok: bool)
    requires BusyBuffer(w.View(), done, AtHeader, Frame(kind, payload))
    modifies w
    ensures BusyBuffer(w.View(), done, if ok then AtFlush else AtUnlock(false), Frame(kind, payload))
    ensures Prefix(old(w.wire), w.wire) && (old(w.failed) ==> !ok && w.wire == old(w.wire))
  {
    ghost var f := Frame(kind, payload);
    var hdr := FillHeader(kind, payload);
    assert [] + Header(f) == Header(f) == Encode(f)[..5];
    assert |payload| == 0 ==> Encode(f) == Header(f);
    ok := Hand(w, hdr[..], done, AtHeader, f, if |payload| > 0 then AtPayload else AtFlush);
    if ok && |payload| > 0 {
      ghost var sent := w.wire;
      ok := Hand(w, payload, done, AtPayload, f, AtFlush);
      assert Prefix(old(w.wire), sent) && Prefix(sent, w.wire);
    }
  }

  class ClientConn {
    const pubKey: Key
    const bw: BufioWriter
    var locked: bool

    constructor (pubKey: Key, bw: BufioWriter)
      requires !bw.failed ==> bw.pending == []
      ensures this.pubKey == pubKey && this.bw == bw && Idle()
    {
      this.pubKey := pubKey;
      this.bw := bw;
      locked := false;
    }

    /** Between calls nothing is held back unless the connection has failed. */
    predicate Idle()
      reads this, bw
    {
      !locked && (!bw.failed ==> bw.pending == [])
    }

    /** The whole frame goes out, or the connection has failed for good after a part of it. */
    method SendFrame(kind: Byte, payload: Bytes) returns (ok: bool)
      requires Idle()
      modifies this`locked, bw
      ensures Idle()
      ensures ok ==> bw.wire == old(bw.wire) + Encode(Frame(kind, payload)) && !bw.failed
      ensures !ok ==> bw.failed && Prefix(old(bw.wire), bw.wire)
                      && Prefix(bw.wire, old(bw.wire) + Encode(Frame(kind, payload)))
      ensures old(bw.failed) ==> !ok && bw.wire == old(bw.wire)
    {
      ghost var f := Frame(kind, payload);
      ghost var done := bw.wire;
      locked := true;
      assert done + [] == done;
      assert Prefix(done, done + Encode(f));
      ok := WriteFrame(bw, kind, payload, done);
      if ok {
        ghost var b := bw.View();
        ok := bw.Flush();
        ghost var emit: nat :| CanFlush(b, emit, ok) && bw.View() == Put(b, [], emit, ok);
        FlushKeeps(b, done, f, emit, ok);
        assert b.pending + [] == b.pending;
      }
      assert ok ==> bw.wire + [] == bw.wire;
      locked := false;
    }

    /** The sender's key and the packet, copied into one payload. */
    method SendRecvPacket(srcKey: Key, payload: Bytes) returns (ok: bool)
      requires Idle()
      modifies this`locked, bw
      ensures Idle()
      ensures ok ==> bw.wire == old(bw.wire) + Encode(RecvPacket(srcKey, payload)) && !bw.failed
      ensures !ok ==> bw.failed && Prefix(bw.wire, old(bw.wire) + Encode(RecvPacket(srcKey, payload)))
    {
      var frame := new Byte[PUB_KEY_LEN + |payload|];
      for i := 0 to PUB_KEY_LEN
        invariant frame[..i] == srcKey[..i]
        modifies frame
      {
        frame[i] := srcKey[i];
      }
      for i := 0 to |payload|
        invariant frame[..PUB_KEY_LEN] == srcKey
        invariant frame[PUB_KEY_LEN..PUB_KEY_LEN + i] == payload[..i]
        modifies frame
      {
        frame[PUB_KEY_LEN + i] := payload[i];
      }
      assert frame[..] == frame[..PUB_KEY_LEN] + frame[PUB_KEY_LEN..PUB_KEY_LEN + |payload|];
      assert frame[..] == srcKey + payload;
      ok := SendFrame(RECV_PACKET, frame[..]);
    }
  }
}
