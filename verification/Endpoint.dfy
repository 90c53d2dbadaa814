/** The endpoint cache: snapshots of the sidecar's peer map with a time to live, from which single peers are
    invalidated. The history of these changes, and of the requests to the sidecar, is its specification. */
module Endpoints {
  import opened Basics
  import opened Frames
  import opened Sockets

  datatype Peer = Peer(curAddr: string, relay: string, addrs: seq<string>)

  /** What parsing an address yields; hidden marks loopback, private and unspecified addresses. */
  datatype Endpoint = Endpoint(addr: Addr, hidden: bool)

  type Parser = string -> Option<Endpoint>

  type Peers = map<Key, Peer>

  /** Stored: a snapshot at a time; Asked: a thread has asked the sidecar, with or without success. */
  datatype Change = Stored(snapshot: Peers, time: int) | Invalidated(key: Key) | Asked(thread: nat)

  /** Snapshot j is the last one before position at, holds the peer, and nothing invalidated it since. */
  predicate Source(h: seq<Change>, at: nat, j: nat, key: Key, p: Peer) {
    && j < at <= |h| && h[j].Stored? && key in h[j].snapshot && h[j].snapshot[key] == p
    && (forall i :: j < i < at ==> !h[i].Stored? && h[i] != Invalidated(key))
  }

  ghost predicate Visible(h: seq<Change>, at: nat, key: Key, p: Peer) {
    exists j: nat :: Source(h, at, j, key, p)
  }

  /** The cached map is the last stored snapshot minus the keys invalidated since. */
  ghost predicate Reflects(peers: Peers, h: seq<Change>) {
    forall key, p :: key in peers && peers[key] == p <==> Visible(h, |h|, key, p)
  }

  lemma SourceStays(h: seq<Change>, more: seq<Change>, at: nat, j: nat, key: Key, p: Peer)
    requires at <= |h|
    ensures Source(h, at, j, key, p) <==> Source(h + more, at, j, key, p)
  {
    assert forall i {:trigger h[i]} {:trigger (h + more)[i]} :: 0 <= i < at ==> (h + more)[i] == h[i];
  }

  lemma VisibleStays(h: seq<Change>, more: seq<Change>, at: nat, key: Key, p: Peer)
    requires at <= |h|
    ensures Visible(h, at, key, p) <==> Visible(h + more, at, key, p)
  {
    forall j: nat ensures Source(h, at, j, key, p) <==> Source(h + more, at, j, key, p) {
      SourceStays(h, more, at, j, key, p);
    }
  }

  lemma StoreReflects(h: seq<Change>, snapshot: Peers, time: int)
    ensures Reflects(snapshot, h + [Stored(snapshot, time)])
  {
    var h' := h + [Stored(snapshot, time)];
    forall key, p ensures key in snapshot && snapshot[key] == p <==> Visible(h', |h'|, key, p) {
      if key in snapshot && snapshot[key] == p {
        assert Source(h', |h'|, |h|, key, p);
      }
      if j: nat :| Source(h', |h'|, j, key, p) {
        assert h'[|h|].Stored?;
      }
    }
  }

  lemma InvalidateReflects(peers: Peers, h: seq<Change>, key: Key)
    requires Reflects(peers, h)
    ensures Reflects(peers - {key}, h + [Invalidated(key)])
  {
    var h' := h + [Invalidated(key)];
    forall k, p ensures k in peers - {key} && (peers - {key})[k] == p <==> Visible(h', |h'|, k, p) {
      VisibleStays(h, [Invalidated(key)], |h|, k, p);
      if k in peers - {key} && (peers - {key})[k] == p {
        assert Visible(h, |h|, k, p);
        var j: nat :| Source(h', |h|, j, k, p);
        assert Source(h', |h'|, j, k, p);
      }
      if j: nat :| Source(h', |h'|, j, k, p) {
        assert h'[|h|] == Invalidated(key);
        assert Source(h', |h|, j, k, p);
      }
    }
  }

  /** A request to the sidecar does not change what is visible. */
  lemma AskedReflects(peers: Peers, h: seq<Change>, thread: nat)
    requires Reflects(peers, h)
    ensures Reflects(peers, h + [Asked(thread)])
  {
    var h' := h + [Asked(thread)];
    forall k, p ensures k in peers && peers[k] == p <==> Visible(h', |h'|, k, p) {
      VisibleStays(h, [Asked(thread)], |h|, k, p);
      if k in peers && peers[k] == p {
        assert Visible(h, |h|, k, p);
        var j: nat :| Source(h', |h|, j, k, p);
        assert Source(h', |h'|, j, k, p);
      }
      if j: nat :| Source(h', |h'|, j, k, p) {
        assert h'[|h|] == Asked(thread);
        assert Source(h', |h|, j, k, p);
      }
    }
  }

  /** When the map was last replaced before position at; zero if never. */
  function StoredAt(h: seq<Change>, at: nat, zero: int): int
    requires at <= |h|
  {
    if at == 0 then zero else if h[at - 1].Stored? then h[at - 1].time else StoredAt(h, at - 1, zero)
  }

  lemma {:induction false} StoredStays(h: seq<Change>, more: seq<Change>, at: nat, zero: int)
    requires at <= |h|
    ensures StoredAt(h + more, at, zero) == StoredAt(h, at, zero)
  {
    if at > 0 {
      StoredStays(h, more, at - 1, zero);
    }
  }

  // ---- lookups, refreshes and invalidations in any interleaving ----

  /** A lookup of key that began at time now, when the history had began entries. The background refresher is a
      thread without a lookup. */
  datatype Query = Query(key: Key, began: nat, now: int)

  datatype Lookup =
    | Fetching(caller: Option<Query>)
    | Storing(caller: Option<Query>, snapshot: Peers)
    | Rereading(q: Query)
    | Answered(q: Query, at: nat, answer: Option<Peer>)

  /** zero is the time an untouched cache takes for its last refresh. */
  datatype Cache = Cache(ttl: int, zero: int, peers: Peers, updated: int, history: seq<Change>,
                         threads: map<nat, Lookup>)

  datatype CStep =
    | StartLookup(t: nat, key: Key, now: int)
    | StartRefresh(t: nat)
    | Fetched(t: nat, status: Option<Peers>)
    | Store(t: nat, now: int)
    | Reread(t: nat)
    | Invalidate(key: Key)

  function Cached(c: Cache, key: Key): Option<Peer> {
    if key in c.peers then Some(c.peers[key]) else None
  }

  predicate CEnabled(c: Cache, step: CStep) {
    match step
    case StartLookup(t, _, _) => t !in c.threads
    case StartRefresh(t) => t !in c.threads
    case Fetched(t, _) => t in c.threads && c.threads[t].Fetching?
    case Store(t, _) => t in c.threads && c.threads[t].Storing?
    case Reread(t) => t in c.threads && c.threads[t].Rereading?
    case Invalidate(_) => true
  }

  function Resume(c: Cache, t: nat, q: Option<Query>): Cache {
    match q
    case Some(query) => c.(threads := c.threads[t := Rereading(query)])
    case None => c.(threads := c.threads - {t})
  }

  function CApply(c: Cache, step: CStep): Cache
    requires CEnabled(c, step)
  {
    match step
    case StartLookup(t, key, now) =>
      var q, p := Query(key, |c.history|, now), Cached(c, key);
      var next := if now - c.updated < c.ttl && p.Some? then Answered(q, |c.history|, p) else Fetching(Some(q));
      c.(threads := c.threads[t := next])
    case StartRefresh(t) => c.(threads := c.threads[t := Fetching(None)])
    case Fetched(t, status) =>
      var asked := c.(history := c.history + [Asked(t)]);
      if status.Some? then asked.(threads := c.threads[t := Storing(c.threads[t].caller, status.value)])
      else Resume(asked, t, c.threads[t].caller)
    case Store(t, now) =>
      var snapshot := c.threads[t].snapshot;
      Resume(c.(peers := snapshot, updated := now, history := c.history + [Stored(snapshot, now)]), t,
             c.threads[t].caller)
    case Reread(t) =>
      var q := c.threads[t].q;
      c.(threads := c.threads[t := Answered(q, |c.history|, Cached(c, q.key))])
    case Invalidate(key) => c.(peers := c.peers - {key}, history := c.history + [Invalidated(key)])
  }

  /** When the lookup began the map was older than its time to live, or held nothing for the key. */
  ghost predicate Missed(ttl: int, zero: int, h: seq<Change>, q: Query)
    requires q.began <= |h|
  {
    q.now - StoredAt(h, q.began, zero) >= ttl || forall p :: !Visible(h, q.began, q.key, p)
  }

  /** The thread has asked the sidecar after its lookup began and before position at. */
  ghost predicate Attempted(h: seq<Change>, q: Query, at: nat, t: nat)
    requires at <= |h|
  {
    exists i :: q.began <= i < at && h[i] == Asked(t)
  }

  ghost predicate LookupOk(ttl: int, zero: int, h: seq<Change>, t: nat, l: Lookup) {
    match l
    case Fetching(q) => q.Some? ==> q.value.began <= |h| && Missed(ttl, zero, h, q.value)
    case Storing(q, _) =>
      q.Some? ==> q.value.began <= |h| && Missed(ttl, zero, h, q.value) && Attempted(h, q.value, |h|, t)
    case Rereading(q) => q.began <= |h| && Missed(ttl, zero, h, q) && Attempted(h, q, |h|, t)
    case Answered(q, at, answer) =>
      && q.began <= at <= |h|
      && (forall p :: answer == Some(p) <==> Visible(h, at, q.key, p))
      && (Missed(ttl, zero, h, q) <==> Attempted(h, q, at, t))
      && (!Missed(ttl, zero, h, q) ==> at == q.began)
  }

  ghost predicate CInv(c: Cache) {
    && Reflects(c.peers, c.history)
    && c.updated == StoredAt(c.history, |c.history|, c.zero)
    && (forall t :: t in c.threads ==> LookupOk(c.ttl, c.zero, c.history, t, c.threads[t]))
  }

  lemma CachedVisible(c: Cache, key: Key)
    requires Reflects(c.peers, c.history)
    ensures forall p :: Cached(c, key) == Some(p) <==> Visible(c.history, |c.history|, key, p)
  {
    forall p ensures Cached(c, key) == Some(p) <==> Visible(c.history, |c.history|, key, p) {
      assert key in c.peers && c.peers[key] == p <==> Visible(c.history, |c.history|, key, p);
    }
  }

  lemma MissedStays(ttl: int, zero: int, h: seq<Change>, more: seq<Change>, q: Query)
    requires q.began <= |h|
    ensures Missed(ttl, zero, h + more, q) <==> Missed(ttl, zero, h, q)
  {
    StoredStays(h, more, q.began, zero);
    forall p ensures Visible(h, q.began, q.key, p) <==> Visible(h + more, q.began, q.key, p) {
      VisibleStays(h, more, q.began, q.key, p);
    }
  }

  lemma AttemptedStays(h: seq<Change>, more: seq<Change>, q: Query, at: nat, t: nat)
    requires at <= |h|
    ensures Attempted(h + more, q, at, t) <==> Attempted(h, q, at, t)
  {
    if i :| q.began <= i < at && h[i] == Asked(t) {
      assert (h + more)[i] == Asked(t);
    }
    if i :| q.began <= i < at && (h + more)[i] == Asked(t) {
      assert h[i] == Asked(t);
    }
  }

  lemma AttemptedLater(h: seq<Change>, more: seq<Change>, q: Query, t: nat)
    requires Attempted(h, q, |h|, t)
    ensures Attempted(h + more, q, |h + more|, t)
  {
    var i :| q.began <= i < |h| && h[i] == Asked(t);
    assert (h + more)[i] == Asked(t);
  }

  /** What holds of a lookup stays when the history grows. */
  lemma LookupStays(ttl: int, zero: int, h: seq<Change>, more: seq<Change>, t: nat, l: Lookup)
    requires LookupOk(ttl, zero, h, t, l)
    ensures LookupOk(ttl, zero, h + more, t, l)
  {
    match l
    case Fetching(q) =>
      if q.Some? {
        MissedStays(ttl, zero, h, more, q.value);
      }
    case Storing(q, _) =>
      if q.Some? {
        MissedStays(ttl, zero, h, more, q.value);
        AttemptedLater(h, more, q.value, t);
      }
    case Rereading(q) =>
      MissedStays(ttl, zero, h, more, q);
      AttemptedLater(h, more, q, t);
    case Answered(q, at, answer) =>
      MissedStays(ttl, zero, h, more, q);
      AttemptedStays(h, more, q, at, t);
      forall p ensures answer == Some(p) <==> Visible(h + more, at, q.key, p) {
        VisibleStays(h, more, at, q.key, p);
      }
  }

  lemma ReflectsKept(c: Cache, step: CStep)
    requires CInv(c) && CEnabled(c, step)
    ensures Reflects(CApply(c, step).peers, CApply(c, step).history)
  {
    match step
    case Fetched(t, _) => AskedReflects(c.peers, c.history, t);
    case Store(t, now) => StoreReflects(c.history, c.threads[t].snapshot, now);
    case Invalidate(key) => InvalidateReflects(c.peers, c.history, key);
    case _ =>
  }

  lemma UpdatedKept(c: Cache, step: CStep)
    requires CInv(c) && CEnabled(c, step)
    ensures var c' := CApply(c, step); c'.updated == StoredAt(c'.history, |c'.history|, c'.zero)
  {
    var c' := CApply(c, step);
    if step.Fetched? || step.Invalidate? {
      StoredStays(c.history, c'.history[|c.history|..], |c.history|, c.zero);
      assert c'.history == c.history + c'.history[|c.history|..];
    }
  }

  lemma LookupStarts(c: Cache, t: nat, key: Key, now: int)
    requires CInv(c) && t !in c.threads
    ensures LookupOk(c.ttl, c.zero, c.history, t, CApply(c, StartLookup(t, key, now)).threads[t])
  {
    CachedVisible(c, key);
    if key in c.peers {
      assert Cached(c, key) == Some(c.peers[key]);
    }
  }

  /** The sidecar has answered, or not: the lookup has made its attempt. */
  lemma AttemptMade(ttl: int, zero: int, h: seq<Change>, t: nat, q: Query)
    requires q.began <= |h| && Missed(ttl, zero, h, q)
    ensures Missed(ttl, zero, h + [Asked(t)], q) && Attempted(h + [Asked(t)], q, |h| + 1, t)
  {
    MissedStays(ttl, zero, h, [Asked(t)], q);
    assert (h + [Asked(t)])[|h|] == Asked(t);
  }

  lemma ThreadMoves(c: Cache, step: CStep)
    requires CInv(c) && CEnabled(c, step) && (step.Fetched? || step.Store? || step.Reread?)
    requires step.t in CApply(c, step).threads
    ensures var c' := CApply(c, step); LookupOk(c'.ttl, c'.zero, c'.history, step.t, c'.threads[step.t])
  {
    var t := step.t;
    assert LookupOk(c.ttl, c.zero, c.history, t, c.threads[t]);
    match step
    case Fetched(_, _) =>
      if c.threads[t].caller.Some? {
        AttemptMade(c.ttl, c.zero, c.history, t, c.threads[t].caller.value);
      }
    case Store(_, now) =>
      LookupStays(c.ttl, c.zero, c.history, [Stored(c.threads[t].snapshot, now)], t, c.threads[t]);
    case Reread(_) =>
      CachedVisible(c, c.threads[t].q.key);
  }

  lemma ThreadKept(c: Cache, step: CStep, t: nat)
    requires CInv(c) && CEnabled(c, step) && t in CApply(c, step).threads
    ensures var c' := CApply(c, step); LookupOk(c'.ttl, c'.zero, c'.history, t, c'.threads[t])
  {
    var c' := CApply(c, step);
    if !step.Invalidate? && step.t == t {
      if step.StartLookup? {
        LookupStarts(c, t, step.key, step.now);
      } else if !step.StartRefresh? {
        ThreadMoves(c, step);
      }
    } else {
      assert c'.history == c.history + c'.history[|c.history|..];
      LookupStays(c.ttl, c.zero, c.history, c'.history[|c.history|..], t, c.threads[t]);
    }
  }

  lemma CStepKeeps(c: Cache, step: CStep)
    requires CInv(c) && CEnabled(c, step)
    ensures CInv(CApply(c, step))
  {
    var c' := CApply(c, step);
    ReflectsKept(c, step);
    UpdatedKept(c, step);
    forall t | t in c'.threads ensures LookupOk(c'.ttl, c'.zero, c'.history, t, c'.threads[t]) {
      ThreadKept(c, step, t);
    }
  }

  predicate CRun(c: Cache, steps: seq<CStep>)
    decreases |steps|
  {
    steps == [] || (CEnabled(c, steps[0]) && CRun(CApply(c, steps[0]), steps[1..]))
  }

  function CAfter(c: Cache, steps: seq<CStep>): Cache
    requires CRun(c, steps)
    decreases |steps|
  {
    if steps == [] then c else CAfter(CApply(c, steps[0]), steps[1..])
  }

  lemma {:induction false} CInvRun(c: Cache, steps: seq<CStep>)
    requires CInv(c) && CRun(c, steps)
    ensures CInv(CAfter(c, steps)) && CAfter(c, steps).ttl == c.ttl && CAfter(c, steps).zero == c.zero
    decreases |steps|
  {
    if steps != [] {
      CStepKeeps(c, steps[0]);
      CInvRun(CApply(c, steps[0]), steps[1..]);
    }
  }

  /** A new cache: nothing stored, and the zero time is never fresh. */
  function NewCache(ttl: int, zero: int): Cache {
    Cache(ttl, zero, map[], zero, [], map[])
  }

  /** In every interleaving the cache is the last snapshot minus what was invalidated since, and a lookup answers from
      it at one moment after it began: at once, without asking the sidecar, exactly when the map was fresh and held
      the key at that time, and after asking otherwise. */
  lemma CacheRefines(ttl: int, zero: int, steps: seq<CStep>, t: nat)
    requires CRun(NewCache(ttl, zero), steps)
    ensures var c := CAfter(NewCache(ttl, zero), steps);
      && Reflects(c.peers, c.history)
      && (t in c.threads && c.threads[t].Answered? ==>
            var l := c.threads[t];
            && l.q.began <= l.at <= |c.history|
            && (forall p :: l.answer == Some(p) <==> Visible(c.history, l.at, l.q.key, p))
            && (Attempted(c.history, l.q, l.at, t) <==> Missed(ttl, zero, c.history, l.q))
            && (!Missed(ttl, zero, c.history, l.q) ==> l.at == l.q.began))
  {
    assert forall key, p :: !Visible([], 0, key, p);
    CInvRun(NewCache(ttl, zero), steps);
    var c := CAfter(NewCache(ttl, zero), steps);
    if t in c.threads {
      assert LookupOk(c.ttl, c.zero, c.history, t, c.threads[t]);
    }
  }

  /** An entry invalidated before a lookup began comes back in its answer only with a snapshot stored since. */
  lemma InvalidatedStaysAway(ttl: int, zero: int, steps: seq<CStep>, t: nat, i: nat)
    requires CRun(NewCache(ttl, zero), steps)
    requires var c := CAfter(NewCache(ttl, zero), steps);
      && t in c.threads && c.threads[t].Answered? && c.threads[t].answer.Some?
      && i < c.threads[t].q.began <= |c.history| && c.history[i] == Invalidated(c.threads[t].q.key)
    ensures var c := CAfter(NewCache(ttl, zero), steps);
      exists j :: i < j < c.threads[t].at <= |c.history| && c.history[j].Stored?
  {
    CacheRefines(ttl, zero, steps, t);
    var c := CAfter(NewCache(ttl, zero), steps);
    var l := c.threads[t];
    assert Visible(c.history, l.at, l.q.key, l.answer.value);
    var j: nat :| Source(c.history, l.at, j, l.q.key, l.answer.value);
    assert i < j;
  }

  // ---- the object itself ----

  /** An address the cache may answer with although the sidecar is not using it. */
  predicate Usable(parse: Parser, text: string) {
    parse(text).Some? && !parse(text).value.hidden
  }

  predicate Direct(parse: Parser, p: Peer) {
    p.curAddr != "" && p.relay == "" && parse(p.curAddr).Some?
  }

  /** What asking the sidecar leaves in the history. */
  function Attempt(thread: nat, status: Option<Peers>, now: int): seq<Change> {
    [Asked(thread)] + if status.Some? then [Stored(status.value, now)] else []
  }

  class EndpointCache {
    var peers: Peers
    var updated: int
    const ttl: int
    const parse: Parser
    ghost var history: seq<Change>

    ghost predicate Valid()
      reads this
    {
      Reflects(peers, history)
    }

    constructor (ttl: int, zero: int, parse: Parser)
      ensures Valid() && history == [] && this.ttl == ttl && this.parse == parse && updated == zero
    {
      this.ttl := ttl;
      this.parse := parse;
      peers, updated, history := map[], zero, [];
      new;
      assert forall key, p :: !Visible([], 0, key, p);
    }

    method Invalidate(key: Key)
      requires Valid()
      modifies this
      ensures Valid() && history == old(history) + [Invalidated(key)] && updated == old(updated)
    {
      InvalidateReflects(peers, history, key);
      peers := peers - {key};
      history := history + [Invalidated(key)];
    }

    /** status: what the sidecar answered, if it did. That it was asked goes into the history either way. */
    method Refresh(ghost thread: nat, status: Option<Peers>, now: int)
      requires Valid()
      modifies this
      ensures Valid()
      ensures history == old(history) + Attempt(thread, status, now)
      ensures if status.Some? then peers == status.value && updated == now
              else peers == old(peers) && updated == old(updated)
    {
      AskedReflects(peers, history, thread);
      history := history + [Asked(thread)];
      if status == None {
        return;
      }
      StoreReflects(history, status.value, now);
      peers, updated, history := status.value, now, history + [Stored(status.value, now)];
    }

    /** A fresh entry is answered as it is; otherwise the sidecar is asked first. */
    method GetPeer(ghost thread: nat, key: Key, now: int, status: Option<Peers>, later: int) returns (p: Option<Peer>)
      requires Valid()
      modifies this
      ensures Valid()
      ensures forall q :: p == Some(q) <==> Visible(history, |history|, key, q)
      ensures var isAsked := !(now - old(updated) < ttl && key in old(peers));
        && history == old(history) + (if isAsked then Attempt(thread, status, later) else [])
        && updated == (if isAsked && status.Some? then later else old(updated))
    {
      var isFresh := now - updated < ttl;
      p := if key in peers then Some(peers[key]) else None;
      if !(isFresh && p.Some?) {
        Refresh(thread, status, later);
        p := if key in peers then Some(peers[key]) else None;
      }
      forall q ensures p == Some(q) <==> Visible(history, |history|, key, q) {
        assert key in peers && peers[key] == q <==> Visible(history, |history|, key, q);
      }
    }

    /** The active direct path, else the first public candidate address, else nothing. */
    method Resolve(ghost thread: nat, key: Key, now: int, status: Option<Peers>, later: int) returns (r: Option<Addr>)
      requires Valid()
      modifies this
      ensures Valid()
      ensures var isFresh := now - old(updated) < ttl && key in old(peers);
        history == old(history) + (if isFresh then [] else Attempt(thread, status, later))
      ensures key !in peers ==> r == None
      ensures key in peers && Direct(parse, peers[key]) ==> r == Some(parse(peers[key].curAddr).value.addr)
      ensures key in peers && !Direct(parse, peers[key]) ==>
        var addrs := peers[key].addrs;
        match r
        case None => forall i :: 0 <= i < |addrs| ==> !Usable(parse, addrs[i])
        case Some(a) => exists i :: 0 <= i < |addrs| && Usable(parse, addrs[i]) && a == parse(addrs[i]).value.addr
                                    && forall j :: 0 <= j < i ==> !Usable(parse, addrs[j])
    {
      var found := GetPeer(thread, key, now, status, later);
      assert forall q :: found == Some(q) <==> key in peers && peers[key] == q;
      assert key in peers ==> found == Some(peers[key]);
      if found == None {
        return None;
      }
      var peer := found.value;
      if peer.curAddr != "" && peer.relay == "" {
        var ap := parse(peer.curAddr);
        if ap.Some? {
          return Some(ap.value.addr);
        }
      }
      for i := 0 to |peer.addrs|
        invariant forall j :: 0 <= j < i ==> !Usable(parse, peer.addrs[j])
      {
        var ap := parse(peer.addrs[i]);
        if ap.Some? && !ap.value.hidden {
          assert Usable(parse, peer.addrs[i]);
          return Some(ap.value.addr);
        }
      }
      r := None;
    }
  }
}
