/** The advertise-on-healthy route agent: one timer tick, and whole runs of ticks. */
module RouteAgents {
  import opened Basics
  import opened RouteFilter

  datatype Config = Config(failThreshold: int, okThreshold: int, minHold: int, maxFlaps: int)

  const DEFAULTS := Config(3, 6, 300, 4)

  const HOUR := 3600

  /** The state files and the routes the node advertises. */
  datatype Agent = Agent(ok: nat, fail: nat, advertised: bool, last: int, flaps: seq<int>, locked: bool,
                         node: set<string>)

  /** What one tick sees: the filtered list of wanted routes, the probe, the clock, and whether
      reading and setting the node's preferences worked. */
  datatype Input = Input(want: seq<string>, probeOk: bool, now: int, prefsOk: bool, applyOk: bool)

  /** A change as the flap log records it: routes advertised or withdrawn. */
  datatype Change = Change(advertise: bool, at: int)

  /** A route in the form the agent finds again in the node's preferences. */
  predicate Plain(r: string) {
    exists k: nat :: k < |r| && PlainAt(r, k)
  }

  predicate PlainAt(r: string, k: nat) {
    && 0 < k < |r| && Digit(r[0]) && r[k] == '/'
    && (forall c :: c in r[..k] ==> Digit(c) || c == '.')
    && Digits(r[k + 1..])
  }

  /** The routes the agent reads back from the node. */
  function Shown(node: set<string>, prefsOk: bool): set<string> {
    if prefsOk then set r | r in node && Plain(r) else {}
  }

  function ToSet(want: seq<string>): set<string> {
    set r | r in want
  }

  /** Both lists are sorted before they are compared, so order does not matter but repetition does. */
  predicate Current(want: seq<string>, node: set<string>, prefsOk: bool) {
    multiset(Shown(node, prefsOk)) == multiset(want)
  }

  predicate Since(cut: int, t: int) {
    cut < t
  }

  function Recent(flaps: seq<int>, cut: int): seq<int> {
    if flaps == [] then []
    else Recent(flaps[..|flaps| - 1], cut) + if Since(cut, flaps[|flaps| - 1]) then [flaps[|flaps| - 1]] else []
  }

  /** Counters and flap log as every tick updates them, whichever branch follows. */
  function Observe(a: Agent, i: Input): Agent {
    a.(ok := if i.probeOk then a.ok + 1 else 0,
       fail := if i.probeOk then 0 else a.fail + 1,
       flaps := Recent(a.flaps, i.now - HOUR))
  }

  datatype Branch = Override | Nothing | Locked | Withdraw | Cooling | Advertise | Steady

  function Choose(cfg: Config, a: Agent, i: Input): Branch {
    var o, want := Observe(a, i), i.want;
    var cur := Current(want, a.node, i.prefsOk);
    if want == [] then if Shown(a.node, i.prefsOk) != {} then Override else Nothing
    else if a.locked then Locked
    else if o.fail >= cfg.failThreshold && cur then Withdraw
    else if o.ok >= cfg.okThreshold && !cur then if i.now - a.last < cfg.minHold then Cooling else Advertise
    else Steady
  }

  function Next(cfg: Config, a: Agent, i: Input): Agent {
    var o := Observe(a, i);
    match Choose(cfg, a, i)
    case Override => o.(advertised := false, last := i.now, node := if i.applyOk then {} else a.node)
    case Withdraw =>
      if i.applyOk then
        o.(advertised := false, last := i.now, node := {}, flaps := o.flaps + [i.now],
           locked := |o.flaps| + 1 >= cfg.maxFlaps)
      else o
    case Advertise =>
      if i.applyOk then
        o.(advertised := true, last := i.now, node := ToSet(i.want), flaps := o.flaps + [i.now])
      else o
    case _ => o
  }

  /** The change a tick records in the flap log, if any. */
  function Recorded(cfg: Config, a: Agent, i: Input): seq<Change> {
    var b := Choose(cfg, a, i);
    if i.applyOk && (b.Withdraw? || b.Advertise?) then [Change(b.Advertise?, i.now)] else []
  }

  /** The routes a tick asks the tailnet client to set, if it asks; the request may fail. */
  function Written(cfg: Config, a: Agent, i: Input): seq<seq<string>> {
    match Choose(cfg, a, i)
    case Override => [[]]
    case Withdraw => [[]]
    case Advertise => [i.want]
    case _ => []
  }

  /** Whether a tick writes the time of the last change. */
  predicate Stamps(cfg: Config, a: Agent, i: Input) {
    Recorded(cfg, a, i) != [] || Choose(cfg, a, i).Override?
  }

  /** The script itself, on its state files. */
  class RouteAgent {
    var ok: nat
    var fail: nat
    var advertised: bool
    var last: int
    var flaps: seq<int>
    var locked: bool
    var node: set<string>
    /** What has been asked of the tailnet client. */
    ghost var calls: seq<seq<string>>

    constructor (node: set<string>)
      ensures View() == Start(node) && calls == []
    {
      ok, fail, advertised, last, flaps, locked := 0, 0, false, 0, [], false;
      this.node := node;
      calls := [];
    }

    function View(): Agent
      reads this
    {
      Agent(ok, fail, advertised, last, flaps, locked, node)
    }

    method Prune(cut: int)
      modifies this`flaps
      ensures flaps == Recent(old(flaps), cut)
    {
      var kept: seq<int> := [];
      for k := 0 to |flaps|
        invariant flaps == old(flaps)
        invariant kept == Recent(flaps[..k], cut)
      {
        assert flaps[..k + 1][..k] == flaps[..k];
        if cut < flaps[k] {
          kept := kept + [flaps[k]];
        }
      }
      assert flaps[..|flaps|] == flaps;
      flaps := kept;
    }

    /** tailscale set --advertise-routes, which replaces the node's routes or fails. */
    method Apply(routes: seq<string>, applyOk: bool) returns (done: bool)
      modifies this`node, this`calls
      ensures done == applyOk && node == if applyOk then ToSet(routes) else old(node)
      ensures calls == old(calls) + [routes]
    {
      calls := calls + [routes];
      done := applyOk;
      if applyOk {
        node := ToSet(routes);
      }
    }

    /** api: the dashboard's list, if it gave one; fallback: the one in the environment. */
    method TickFrom(cfg: Config, api: Option<string>, fallback: string, probeOk: bool, now: int, prefsOk: bool,
                    applyOk: bool)
      modifies this
      ensures var list := if api.Some? then api.value else fallback;
        var i := Input(SafeRoutes(list), probeOk, now, prefsOk, applyOk);
        View() == Next(cfg, old(View()), i) && calls == old(calls) + Written(cfg, old(View()), i)
    {
      var want := FilterRoutes(if api.Some? then api.value else fallback);
      Tick(cfg, Input(want, probeOk, now, prefsOk, applyOk));
    }

    /** The counters, which are written first on every tick, and the pruned flap file. */
    method Count(i: Input)
      modifies this`ok, this`fail, this`flaps
      ensures View() == Observe(old(View()), i)
    {
      if i.probeOk {
        ok, fail := ok + 1, 0;
      } else {
        ok, fail := 0, fail + 1;
      }
      Prune(i.now - HOUR);
    }

    method Tick(cfg: Config, i: Input)
      modifies this
      ensures View() == Next(cfg, old(View()), i)
      ensures calls == old(calls) + Written(cfg, old(View()), i)
      ensures i.want == [] && i.prefsOk && (exists r :: r in old(node) && Plain(r)) ==>
        calls == old(calls) + [[]] && last == i.now && (i.applyOk ==> node == {})
    {
      ghost var before := node;
      var want := i.want;
      Count(i);
      var shown := Shown(node, i.prefsOk);
      var cur := Current(want, node, i.prefsOk);
      var done;
      assert forall r :: r in before && Plain(r) && i.prefsOk ==> r in shown;
      if want == [] && shown != {} {
        done := Apply([], i.applyOk);
        advertised, last := false, i.now;
        return;
      }
      if want == [] {
        return;
      }
      if locked {
        return;
      }
      if fail >= cfg.failThreshold && cur {
        var recent := |flaps|;
        done := Apply([], i.applyOk);
        if done {
          advertised, last, flaps := false, i.now, flaps + [i.now];
          if recent + 1 >= cfg.maxFlaps {
            locked := true;
          }
        }
        return;
      }
      if ok >= cfg.okThreshold && !cur {
        if i.now - last < cfg.minHold {
          return;
        }
        done := Apply(want, i.applyOk);
        if done {
          advertised, last, flaps := true, i.now, flaps + [i.now];
        }
      }
    }
  }

  // ---- runs ----

  function Start(node: set<string>): Agent {
    Agent(0, 0, false, 0, [], false, node)
  }

  function After(cfg: Config, node: set<string>, ins: seq<Input>): Agent {
    if ins == [] then Start(node) else Next(cfg, After(cfg, node, ins[..|ins| - 1]), ins[|ins| - 1])
  }

  /** Every change recorded during the run, never pruned. */
  function Log(cfg: Config, node: set<string>, ins: seq<Input>): seq<Change> {
    if ins == [] then []
    else
      var before := ins[..|ins| - 1];
      Log(cfg, node, before) + Recorded(cfg, After(cfg, node, before), ins[|ins| - 1])
  }

  lemma OneMoreTick(cfg: Config, node: set<string>, ins: seq<Input>, i: Input)
    ensures After(cfg, node, ins + [i]) == Next(cfg, After(cfg, node, ins), i)
    ensures Log(cfg, node, ins + [i]) == Log(cfg, node, ins) + Recorded(cfg, After(cfg, node, ins), i)
  {
    assert (ins + [i])[..|ins|] == ins;
  }

  /** How many probes at the end of the run all came out this way. */
  function Streak(ins: seq<Input>, outcome: bool): nat {
    if ins == [] || ins[|ins| - 1].probeOk != outcome then 0 else 1 + Streak(ins[..|ins| - 1], outcome)
  }

  lemma StreakMeaning(ins: seq<Input>, outcome: bool, k: nat)
    requires k <= |ins|
    ensures k <= Streak(ins, outcome) <==> forall j :: |ins| - k <= j < |ins| ==> ins[j].probeOk == outcome
  {
    if ins != [] && k > 0 {
      var before := ins[..|ins| - 1];
      StreakMeaning(before, outcome, k - 1);
      assert forall j :: 0 <= j < |before| ==> before[j] == ins[j];
    }
  }

  /** The time of the last recorded change or override, or zero. */
  function LastStamp(cfg: Config, node: set<string>, ins: seq<Input>): int {
    if ins == [] then 0
    else
      var before, i := ins[..|ins| - 1], ins[|ins| - 1];
      if Stamps(cfg, After(cfg, node, before), i) then i.now else LastStamp(cfg, node, before)
  }

  /** The persisted counters are the lengths of the final OK and fail streaks, on every branch. */
  lemma {:induction false} CountersAgree(cfg: Config, node: set<string>, ins: seq<Input>)
    ensures var a := After(cfg, node, ins);
      a.ok == Streak(ins, true) && a.fail == Streak(ins, false) && a.last == LastStamp(cfg, node, ins)
  {
    if ins != [] {
      CountersAgree(cfg, node, ins[..|ins| - 1]);
    }
  }

  /** Advertise only when proven healthy: a tick that asks for routes, whether the node has them already or not and
      whether the request works or not, ends a long enough OK streak, keeps the distance from the last change, is
      unlocked, and asks for the wanted list. */
  lemma AdvertiseOnlyWhenHealthy(cfg: Config, node: set<string>, ins: seq<Input>, i: Input, routes: seq<string>)
    requires routes != [] && routes in Written(cfg, After(cfg, node, ins), i)
    ensures Streak(ins + [i], true) >= cfg.okThreshold
    ensures i.now - LastStamp(cfg, node, ins) >= cfg.minHold
    ensures !After(cfg, node, ins).locked && routes == i.want
  {
    StreakSnoc(ins, i);
    CountersAgree(cfg, node, ins);
  }

  lemma StreakSnoc(ins: seq<Input>, i: Input)
    ensures Streak(ins + [i], true) == if i.probeOk then 1 + Streak(ins, true) else 0
  {
    assert (ins + [i])[..|ins|] == ins;
  }

  /** The node's routes change only to what was asked for. */
  lemma NodeFollowsWrites(cfg: Config, a: Agent, i: Input)
    ensures var a' := Next(cfg, a, i);
      if i.applyOk && Written(cfg, a, i) != [] then a'.node == ToSet(Written(cfg, a, i)[0]) else a'.node == a.node
  {
  }

  lemma AllSafe(list: string)
    ensures forall r :: r in SafeRoutes(list) ==> SafeRoute(r)
  {
    forall r | r in SafeRoutes(list) ensures SafeRoute(r) {
      OnlySafe(Fields(list), r);
    }
  }

  /** What a tick asks for came out of the filter: /24 or longer only. */
  lemma AdvertisesOnlySafe(cfg: Config, a: Agent, i: Input, list: string, routes: seq<string>)
    requires i.want == SafeRoutes(list) && routes in Written(cfg, a, i)
    ensures forall r :: r in routes ==> SafeRoute(r)
  {
    AllSafe(list);
  }

  /** Locked implies withdrawn, whatever the dashboard says and however the lists change. */
  lemma {:induction false} LockedIsWithdrawn(cfg: Config, node: set<string>, ins: seq<Input>)
    ensures var a := After(cfg, node, ins); a.locked ==> a.node == {}
  {
    if ins != [] {
      LockedIsWithdrawn(cfg, node, ins[..|ins| - 1]);
    }
  }

  /** The lock is never taken back, and nothing is recorded under it. */
  lemma LockIsFinal(cfg: Config, node: set<string>, ins: seq<Input>, i: Input)
    requires After(cfg, node, ins).locked
    ensures After(cfg, node, ins + [i]).locked && Log(cfg, node, ins + [i]) == Log(cfg, node, ins)
  {
    assert (ins + [i])[..|ins|] == ins;
  }

  // ---- reading back what was written ----

  /** Written routes are recognised: the preferences can be read, no route is listed twice, each is IPv4. */
  predicate ReadsBack(want: seq<string>, prefsOk: bool) {
    prefsOk && Distinct(want) && forall r :: r in want ==> Plain(r)
  }

  lemma {:induction false} DistinctCounts(want: seq<string>)
    ensures Distinct(want) <==> multiset(want) == multiset(ToSet(want))
  {
    if want != [] {
      var n := |want| - 1;
      var front, x := want[..n], want[n];
      DistinctCounts(front);
      assert want == front + [x];
      assert ToSet(want) == ToSet(front) + {x};
      if x in front {
        assert multiset(front)[x] > 0 && multiset(want)[x] == multiset(front)[x] + 1;
        assert multiset(ToSet(want))[x] == 1;
      } else {
        assert multiset(ToSet(want)) == multiset(ToSet(front)) + multiset{x};
        assert multiset(front) == multiset(want) - multiset{x};
        assert multiset(ToSet(front)) == multiset(ToSet(want)) - multiset{x};
      }
    }
  }

  /** A non-empty list on the node is seen as current exactly when it reads back. */
  lemma CurrentIffReadsBack(want: seq<string>, prefsOk: bool)
    requires want != []
    ensures Current(want, ToSet(want), prefsOk) <==> ReadsBack(want, prefsOk)
  {
    DistinctCounts(want);
    var shown := Shown(ToSet(want), prefsOk);
    assert want[0] in multiset(want);
    if Current(want, ToSet(want), prefsOk) {
      assert prefsOk;
      forall r | r in want ensures Plain(r) && r in shown {
        assert r in multiset(want) && r in multiset(shown);
      }
      assert shown == ToSet(want);
    }
    if ReadsBack(want, prefsOk) {
      assert shown == ToSet(want);
    }
  }

  /** Nothing else on the node is taken for the wanted list. */
  lemma CurrentMeansEqual(want: seq<string>, node: set<string>, prefsOk: bool)
    requires Current(want, node, prefsOk) && want != []
    ensures Shown(node, prefsOk) == ToSet(want) && prefsOk
  {
    var shown := Shown(node, prefsOk);
    forall r ensures r in shown <==> r in ToSet(want) {
      assert r in multiset(shown) <==> r in multiset(want);
    }
    assert want[0] in shown;
  }

  /** Bounded reaction: at a tick that completes enough failures and can apply, an advertised wanted list is
      withdrawn exactly when it reads back; a list that does not stays advertised however long the probe fails. */
  lemma BoundedReaction(cfg: Config, node: set<string>, ins: seq<Input>, i: Input)
    requires i.want != [] && i.applyOk && cfg.okThreshold > 0
    requires Streak(ins + [i], false) >= cfg.failThreshold && !i.probeOk
    requires After(cfg, node, ins).node == ToSet(i.want)
    ensures After(cfg, node, ins + [i]).node != ToSet(i.want) <==> ReadsBack(i.want, i.prefsOk)
    ensures ReadsBack(i.want, i.prefsOk) ==> After(cfg, node, ins + [i]).node == {}
  {
    assert (ins + [i])[..|ins|] == ins;
    CountersAgree(cfg, node, ins + [i]);
    LockedIsWithdrawn(cfg, node, ins);
    CurrentIffReadsBack(i.want, i.prefsOk);
    assert i.want[0] in ToSet(i.want);
  }

  /** Whatever was advertised before, a failing tick never puts the wanted list on the node. */
  lemma FailingNeverAdvertises(cfg: Config, node: set<string>, ins: seq<Input>, i: Input)
    requires !i.probeOk && cfg.okThreshold > 0
    ensures var a, a' := After(cfg, node, ins), After(cfg, node, ins + [i]); a'.node == a.node || a'.node == {}
  {
    assert (ins + [i])[..|ins|] == ins;
  }
}
