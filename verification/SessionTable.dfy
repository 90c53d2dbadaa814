/** The session table as its methods change it: a map of sessions, each owning one socket. */
module SessionTables {
  import opened Basics
  import opened Frames
  import opened Sockets

  class Session {
    const srcKey: Key
    const dstKey: Key
    var dstAddr: Addr
    var closes: nat

    constructor (srcKey: Key, dstKey: Key, dstAddr: Addr)
      ensures this.srcKey == srcKey && this.dstKey == dstKey && this.dstAddr == dstAddr && closes == 0
    {
      this.srcKey := srcKey;
      this.dstKey := dstKey;
      this.dstAddr := dstAddr;
      closes := 0;
    }

    method Close()
      modifies this`closes
      ensures closes == old(closes) + 1
    {
      closes := closes + 1;
    }
  }

  /** Each session of the list is closed once. */
  method CloseAll(list: seq<Session>)
    requires Distinct(list)
    modifies list
    ensures forall s :: s in list ==> s.closes == old(s.closes) + 1 && s.dstAddr == old(s.dstAddr)
  {
    for i := 0 to |list|
      invariant forall s :: s in list ==> s.closes == old(s.closes) + (if s in list[..i] then 1 else 0)
      invariant forall s :: s in list ==> s.dstAddr == old(s.dstAddr)
    {
      assert list[i] !in list[..i];
      assert list[..i + 1] == list[..i] + [list[i]];
      list[i].Close();
    }
    assert list[..|list|] == list;
  }

  class SessionTable {
    var sessions: map<Pair, Session>

    /** Every entry is filed under its own keys and its socket is open; so no session has two entries. */
    ghost predicate Valid()
      reads this, sessions.Values
    {
      forall p :: p in sessions ==>
        sessions[p].srcKey == p.0 && sessions[p].dstKey == p.1 && sessions[p].closes == 0
    }

    constructor ()
      ensures Valid() && sessions == map[]
    {
      sessions := map[];
    }

    /** listenOk: whether a local UDP socket could be opened. An existing session only changes address. */
    method GetOrCreate(srcKey: Key, dstKey: Key, dstAddr: Addr, listenOk: bool) returns (s: Session?)
      requires Valid()
      modifies this, sessions.Values
      ensures Valid()
      ensures s == null <==> (srcKey, dstKey) !in old(sessions) && !listenOk
      ensures s == null ==> sessions == old(sessions)
      ensures s != null ==> sessions == old(sessions)[(srcKey, dstKey) := s] && s.dstAddr == dstAddr
      ensures if (srcKey, dstKey) in old(sessions) then s == old(sessions)[(srcKey, dstKey)]
              else s != null ==> fresh(s)
      ensures forall t :: t in old(sessions.Values) && t != s ==> unchanged(t)
    {
      var sk := (srcKey, dstKey);
      if sk in sessions {
        s := sessions[sk];
        if s.dstAddr != dstAddr {
          s.dstAddr := dstAddr;
        }
        assert sessions == old(sessions)[sk := s];
        return;
      }
      if !listenOk {
        return null;
      }
      s := new Session(srcKey, dstKey, dstAddr);
      sessions := sessions[sk := s];
    }

    /** The entry goes first, then its socket is closed, once. */
    method Remove(srcKey: Key, dstKey: Key)
      requires Valid()
      modifies this, sessions.Values
      ensures Valid()
      ensures sessions == old(sessions) - {(srcKey, dstKey)}
      ensures forall p :: p in old(sessions) ==>
        old(sessions)[p].closes == if p == (srcKey, dstKey) then 1 else 0
      ensures forall p :: p in old(sessions) ==> old(sessions)[p].dstAddr == old(sessions[p].dstAddr)
    {
      var sk := (srcKey, dstKey);
      if sk in sessions {
        var s := sessions[sk];
        sessions := sessions - {sk};
        s.Close();
      }
    }

    /** Under the lock: the entries of a source leave the map, their sessions are handed to the caller. */
    method TakeAll(srcKey: Key) returns (toClose: seq<Session>)
      requires Valid()
      modifies this
      ensures sessions == map p | p in old(sessions) && p.0 != srcKey :: old(sessions)[p]
      ensures Distinct(toClose)
      ensures forall p :: p in old(sessions) ==> (old(sessions)[p] in toClose <==> p.0 == srcKey)
      ensures forall s :: s in toClose ==> s in old(sessions).Values
    {
      ghost var before := sessions;
      toClose := [];
      var rest := sessions.Keys;
      while rest != {}
        invariant rest <= before.Keys
        invariant sessions == map p | p in before && (p in rest || p.0 != srcKey) :: before[p]
        invariant Distinct(toClose)
        invariant forall p :: p in before ==> (before[p] in toClose <==> p !in rest && p.0 == srcKey)
        invariant forall s :: s in toClose ==> s in before.Values
        decreases rest
      {
        var sk :| sk in rest;
        rest := rest - {sk};
        if sk.0 == srcKey {
          assert before[sk] !in toClose;
          toClose := toClose + [sessions[sk]];
          sessions := sessions - {sk};
        }
      }
    }

    /** All entries of a source go first, then their sockets are closed, each once. */
    method RemoveAll(srcKey: Key)
      requires Valid()
      modifies this, sessions.Values
      ensures Valid()
      ensures sessions == map p | p in old(sessions) && p.0 != srcKey :: old(sessions)[p]
      ensures forall p :: p in old(sessions) ==> old(sessions)[p].closes == if p.0 == srcKey then 1 else 0
      ensures forall p :: p in old(sessions) ==> old(sessions)[p].dstAddr == old(sessions[p].dstAddr)
    {
      var toClose := TakeAll(srcKey);
      CloseAll(toClose);
    }
  }
}
