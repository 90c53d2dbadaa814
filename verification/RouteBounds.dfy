/** When the route agent keeps the bound on its changes, and when it does not. */
module RouteBounds {
  import opened RouteAgents
  import opened RouteFlaps
  import opened RouteHistory

  /** A run under one wanted list with a clock that never goes back; each tick may read the preferences or not. */
  predicate FixedRun(ins: seq<Input>, want: seq<string>) {
    Monotone(ins) && forall k :: 0 <= k < |ins| ==> ins[k].want == want
  }

  /** A run in which the preferences can be read at every tick, or at none. */
  predicate SteadyRun(ins: seq<Input>, want: seq<string>, prefsOk: bool) {
    FixedRun(ins, want) && forall k :: 0 <= k < |ins| ==> ins[k].prefsOk == prefsOk
  }

  /** The changes i to j of a run lie within an hour and are too many. */
  predicate Exceeds(cfg: Config, node: set<string>, ins: seq<Input>, i: nat, j: nat) {
    && i <= j < |Log(cfg, node, ins)|
    && Log(cfg, node, ins)[j].at - Log(cfg, node, ins)[i].at < HOUR
    && j - i + 1 > Limit(cfg)
  }

  /** The bound for all runs, whatever the lists are; for all runs under one list; for those with steady preferences. */
  ghost predicate AlwaysBounded(cfg: Config) {
    forall node, ins, i, j :: Monotone(ins) ==> !Exceeds(cfg, node, ins, i, j)
  }

  ghost predicate HourBounded(cfg: Config, want: seq<string>) {
    forall node, ins, i, j :: FixedRun(ins, want) ==> !Exceeds(cfg, node, ins, i, j)
  }

  ghost predicate SteadilyBounded(cfg: Config, want: seq<string>, prefsOk: bool) {
    forall node, ins, i, j :: SteadyRun(ins, want, prefsOk) ==> !Exceeds(cfg, node, ins, i, j)
  }

  // ---- a list that does not read back is never recognised ----

  lemma NeverCurrent(want: seq<string>, prefsOk: bool, node: set<string>)
    requires want != [] && !ReadsBack(want, prefsOk)
    ensures !Current(want, node, prefsOk)
  {
    if Current(want, node, prefsOk) {
      CurrentMeansEqual(want, node, prefsOk);
      DistinctCounts(want);
      forall r | r in want ensures Plain(r) {
        assert r in ToSet(want);
      }
    }
  }

  /** Without recognition a tick records nothing or an advertisement that keeps the hold time. */
  predicate Renewed(cfg: Config, i: Input, a: Agent, a': Agent, rec: seq<Change>) {
    || (rec == [] && a'.last == a.last)
    || (rec == [Change(true, i.now)] && i.now - a.last >= cfg.minHold && a'.last == i.now)
  }

  lemma TickRenews(cfg: Config, a: Agent, i: Input)
    requires i.want != [] && !ReadsBack(i.want, i.prefsOk)
    ensures Renewed(cfg, i, a, Next(cfg, a, i), Recorded(cfg, a, i))
  {
    NeverCurrent(i.want, i.prefsOk, a.node);
  }

  predicate Spaced(log: seq<Change>, hold: int) {
    forall k :: 0 < k < |log| ==> log[k].at - log[k - 1].at >= hold
  }

  predicate Tracked(a: Agent, log: seq<Change>, hold: int) {
    Spaced(log, hold) && (log != [] ==> a.last == log[|log| - 1].at)
  }

  lemma TrackedStep(cfg: Config, i: Input, a: Agent, a': Agent, log: seq<Change>, rec: seq<Change>)
    requires Tracked(a, log, cfg.minHold) && Renewed(cfg, i, a, a', rec)
    ensures Tracked(a', log + rec, cfg.minHold)
  {
    if rec == [] {
      assert log + rec == log;
    }
  }

  /** At no tick is the list recognised. */
  predicate NeverRecognised(ins: seq<Input>) {
    forall k :: 0 <= k < |ins| ==> ins[k].want != [] && !ReadsBack(ins[k].want, ins[k].prefsOk)
  }

  lemma {:induction false} ChangesAreSpaced(cfg: Config, node: set<string>, ins: seq<Input>)
    requires NeverRecognised(ins)
    ensures Tracked(After(cfg, node, ins), Log(cfg, node, ins), cfg.minHold)
  {
    if ins != [] {
      var before, i := ins[..|ins| - 1], ins[|ins| - 1];
      ChangesAreSpaced(cfg, node, before);
      TickRenews(cfg, After(cfg, node, before), i);
      assert before + [i] == ins;
      OneMoreTick(cfg, node, before, i);
      TrackedStep(cfg, i, After(cfg, node, before), After(cfg, node, ins), Log(cfg, node, before),
                  Recorded(cfg, After(cfg, node, before), i));
    }
  }

  lemma {:induction false} SpacedSpan(log: seq<Change>, hold: int, i: nat, j: nat)
    requires Spaced(log, hold) && i <= j < |log|
    ensures log[j].at - log[i].at >= (j - i) * hold
  {
    if i < j {
      SpacedSpan(log, hold, i, j - 1);
      assert (j - i) * hold == (j - 1 - i) * hold + hold;
    }
  }

  // ---- hold times that keep the bound ----

  /** If nothing is recognised, a hold time that lets no more than the allowed changes into an hour suffices. */
  lemma LongHold(cfg: Config, node: set<string>, ins: seq<Input>, i: nat, j: nat)
    requires NeverRecognised(ins) && Limit(cfg) * cfg.minHold >= HOUR
    ensures !Exceeds(cfg, node, ins, i, j)
  {
    if Exceeds(cfg, node, ins, i, j) {
      ChangesAreSpaced(cfg, node, ins);
      SpacedSpan(Log(cfg, node, ins), cfg.minHold, i, j);
      HoldIsPositive(Limit(cfg), cfg.minHold);
      Product(j - i, Limit(cfg), cfg.minHold);
    }
  }

  lemma HoldIsPositive(n: int, hold: int)
    requires n > 0 && n * hold >= HOUR
    ensures hold > 0
  {
    if hold <= 0 {
      Product(n, 0, -hold);
    }
  }

  /** In any run at all, one that leaves room for half the allowed changes does. */
  lemma LongerHold(cfg: Config, node: set<string>, ins: seq<Input>, i: nat, j: nat)
    requires Monotone(ins) && (Most(cfg) / 2 + 1) * cfg.minHold >= HOUR
    ensures !Exceeds(cfg, node, ins, i, j)
  {
    if Exceeds(cfg, node, ins, i, j) {
      HistoryHolds(cfg, node, ins);
      RoomyHour(cfg, After(cfg, node, ins), Log(cfg, node, ins), ins[|ins| - 1].now, i, j);
    }
  }

  lemma RoomyHour(cfg: Config, a: Agent, log: seq<Change>, now: int, i: nat, j: nat)
    requires History(cfg, a, log, now) && (Most(cfg) / 2 + 1) * cfg.minHold >= HOUR
    requires i + Most(cfg) < j < |log|
    ensures log[j].at - log[i].at >= HOUR
  {
    if log[j].at - log[i].at < HOUR {
      LateAdvertise(cfg, a, log, now, i);
      HoldIsPositive(Most(cfg) / 2 + 1, cfg.minHold);
      CrowdedHour(log, cfg.minHold, now, i, j, Most(cfg));
    }
  }

  lemma RecognisedKeepsTheBound(cfg: Config, want: seq<string>, node: set<string>, ins: seq<Input>, i: nat, j: nat)
    requires want != [] && SteadyRun(ins, want, true) && ReadsBack(want, true)
    ensures !Exceeds(cfg, node, ins, i, j)
  {
    if Exceeds(cfg, node, ins, i, j) {
      FlapBound(cfg, node, ins, want, i, j);
    }
  }

  // ---- a list that is never recognised, written again and again ----

  /** Healthy ticks, one hold time apart, whose requests all work. */
  function HealthyRun(want: seq<string>, prefsOk: bool, hold: nat, n: nat): (ins: seq<Input>)
    ensures |ins| == n && forall k :: 0 <= k < n ==> ins[k] == Input(want, true, hold * (k + 1), prefsOk, true)
  {
    if n == 0 then []
    else HealthyRun(want, prefsOk, hold, n - 1) + [Input(want, true, hold * n, prefsOk, true)]
  }

  /** The tick at which the OK streak is long enough. */
  function FirstOk(cfg: Config): nat {
    if cfg.okThreshold < 1 then 1 else cfg.okThreshold
  }

  /** After n of these ticks every one from the first possible on has recorded an advertisement. */
  predicate Repeats(cfg: Config, hold: nat, n: nat, a: Agent, log: seq<Change>) {
    && a.ok == n && !a.locked && a.last == (if n < FirstOk(cfg) then 0 else hold * n)
    && |log| == (if n < FirstOk(cfg) then 0 else n - FirstOk(cfg) + 1)
    && (forall k :: 0 <= k < |log| ==> log[k] == Change(true, hold * (k + FirstOk(cfg))))
  }

  lemma RepeatsTick(cfg: Config, want: seq<string>, prefsOk: bool, hold: nat, n: nat, a: Agent, log: seq<Change>)
    requires want != [] && !ReadsBack(want, prefsOk) && hold >= cfg.minHold && Repeats(cfg, hold, n, a, log)
    ensures var i := Input(want, true, hold * (n + 1), prefsOk, true);
      Repeats(cfg, hold, n + 1, Next(cfg, a, i), log + Recorded(cfg, a, i))
  {
    NeverCurrent(want, prefsOk, a.node);
    assert hold * (n + 1) == hold * n + hold;
    Product(n, 0, hold);
  }

  lemma {:induction false} HealthyRunRepeats(cfg: Config, want: seq<string>, prefsOk: bool, hold: nat, n: nat)
    requires want != [] && !ReadsBack(want, prefsOk) && hold >= cfg.minHold
    ensures var ins := HealthyRun(want, prefsOk, hold, n);
      Repeats(cfg, hold, n, After(cfg, {}, ins), Log(cfg, {}, ins))
  {
    if n == 0 {
      assert Repeats(cfg, hold, 0, Start({}), []);
    } else {
      HealthyRunRepeats(cfg, want, prefsOk, hold, n - 1);
      RepeatsNext(cfg, want, prefsOk, hold, n - 1, HealthyRun(want, prefsOk, hold, n - 1));
    }
  }

  lemma RepeatsNext(cfg: Config, want: seq<string>, prefsOk: bool, hold: nat, n: nat, ins: seq<Input>)
    requires want != [] && !ReadsBack(want, prefsOk) && hold >= cfg.minHold
    requires Repeats(cfg, hold, n, After(cfg, {}, ins), Log(cfg, {}, ins))
    ensures var more := ins + [Input(want, true, hold * (n + 1), prefsOk, true)];
      Repeats(cfg, hold, n + 1, After(cfg, {}, more), Log(cfg, {}, more))
  {
    RepeatsTick(cfg, want, prefsOk, hold, n, After(cfg, {}, ins), Log(cfg, {}, ins));
    OneMoreTick(cfg, {}, ins, Input(want, true, hold * (n + 1), prefsOk, true));
  }

  lemma HealthyRunIsSteady(want: seq<string>, prefsOk: bool, hold: nat, n: nat)
    ensures SteadyRun(HealthyRun(want, prefsOk, hold, n), want, prefsOk)
  {
    forall k | 0 < k < n ensures hold * k <= hold * (k + 1) {
      Product(k + 1, k, hold);
    }
  }

  lemma NoNegativeHold(n: nat, minHold: int) returns (hold: nat)
    requires n * minHold < HOUR
    ensures hold >= minHold && n * hold < HOUR
  {
    hold := if minHold < 0 then 0 else minHold;
  }

  lemma ShortHold(cfg: Config, want: seq<string>, prefsOk: bool) returns (ins: seq<Input>)
    requires want != [] && !ReadsBack(want, prefsOk) && Limit(cfg) * cfg.minHold < HOUR
    ensures SteadyRun(ins, want, prefsOk) && Exceeds(cfg, {}, ins, 0, Limit(cfg))
  {
    var hold := NoNegativeHold(Limit(cfg), cfg.minHold);
    var n := FirstOk(cfg) + Limit(cfg);
    ins := HealthyRun(want, prefsOk, hold, n);
    HealthyRunRepeats(cfg, want, prefsOk, hold, n);
    HealthyRunIsSteady(want, prefsOk, hold, n);
    TooMany(cfg, hold, After(cfg, {}, ins), Log(cfg, {}, ins));
  }

  lemma TooMany(cfg: Config, hold: nat, a: Agent, log: seq<Change>)
    requires Repeats(cfg, hold, FirstOk(cfg) + Limit(cfg), a, log) && Limit(cfg) * hold < HOUR
    ensures |log| == Limit(cfg) + 1 && log[Limit(cfg)].at - log[0].at < HOUR
  {
    assert hold * (Limit(cfg) + FirstOk(cfg)) - hold * FirstOk(cfg) == Limit(cfg) * hold;
  }

  // ---- a list that is recognised at some ticks, written again and again and withdrawn in between ----

  /** A tick whose request fails changes only the streaks and the flap file. */
  lemma VainTick(cfg: Config, a: Agent, i: Input)
    requires i.want != [] && !i.applyOk
    ensures Next(cfg, a, i) == Observe(a, i) && Recorded(cfg, a, i) == []
  {
  }

  lemma {:induction false} RecentShrinks(flaps: seq<int>, cut: int)
    ensures |Recent(flaps, cut)| <= |flaps|
  {
    if flaps != [] {
      RecentShrinks(flaps[..|flaps| - 1], cut);
    }
  }

  /** Ticks alike that ask in vain, if they ask, have left all but the streaks and the flap file alone. */
  predicate Waited(a: Agent, b: Agent, i: Input, n: nat) {
    && b.node == a.node && b.locked == a.locked && b.last == a.last && |b.flaps| <= |a.flaps|
    && (if i.probeOk then b.ok >= n else b.fail >= n)
  }

  lemma VainTickCounts(cfg: Config, a: Agent, b: Agent, i: Input, n: nat)
    requires i.want != [] && !i.applyOk && Waited(a, b, i, n)
    ensures Waited(a, Next(cfg, b, i), i, n + 1) && Recorded(cfg, b, i) == []
  {
    VainTick(cfg, b, i);
    RecentShrinks(b.flaps, i.now - HOUR);
  }

  /** A run under the list whose ticks are no later than a time. */
  predicate FixedUntil(ins: seq<Input>, want: seq<string>, t: int) {
    FixedRun(ins, want) && forall k :: 0 <= k < |ins| ==> ins[k].now <= t
  }

  lemma OneMoreFixed(ins: seq<Input>, i: Input, t: int)
    requires FixedUntil(ins, i.want, t) && t <= i.now
    ensures FixedUntil(ins + [i], i.want, i.now)
  {
  }

  lemma OneMoreVain(cfg: Config, node: set<string>, a: Agent, ins: seq<Input>, i: Input, n: nat)
    requires i.want != [] && !i.applyOk && Waited(a, After(cfg, node, ins), i, n)
    ensures Waited(a, After(cfg, node, ins + [i]), i, n + 1) && Log(cfg, node, ins + [i]) == Log(cfg, node, ins)
  {
    OneMoreTick(cfg, node, ins, i);
    VainTickCounts(cfg, a, After(cfg, node, ins), i, n);
    assert Log(cfg, node, ins) + [] == Log(cfg, node, ins);
  }

  lemma {:induction false} VainTicks(cfg: Config, node: set<string>, ins: seq<Input>, i: Input, t: int, n: nat)
    returns (all: seq<Input>)
    requires i.want != [] && !i.applyOk && FixedUntil(ins, i.want, t) && t <= i.now
    ensures FixedUntil(all, i.want, i.now)
    ensures Waited(After(cfg, node, ins), After(cfg, node, all), i, n) && Log(cfg, node, all) == Log(cfg, node, ins)
  {
    if n == 0 {
      all := ins;
    } else {
      var most := VainTicks(cfg, node, ins, i, t, n - 1);
      all := most + [i];
      OneMoreFixed(most, i, i.now);
      OneMoreVain(cfg, node, After(cfg, node, ins), most, i, n - 1);
    }
  }

  function FirstFail(cfg: Config): nat {
    if cfg.failThreshold < 1 then 1 else cfg.failThreshold
  }

  /** Healthy ticks at which the preferences cannot be read end with the list written, whatever the node has. */
  lemma Advertises(cfg: Config, want: seq<string>, ins: seq<Input>, t: int, now: int) returns (all: seq<Input>)
    requires want != [] && !After(cfg, {}, ins).locked && now - After(cfg, {}, ins).last >= cfg.minHold
    requires FixedUntil(ins, want, t) && t <= now
    ensures FixedUntil(all, want, now)
    ensures var a, b := After(cfg, {}, ins), After(cfg, {}, all);
      !b.locked && b.last == now && b.node == ToSet(want) && |b.flaps| <= |a.flaps| + 1
    ensures Log(cfg, {}, all) == Log(cfg, {}, ins) + [Change(true, now)]
  {
    var i := Input(want, true, now, false, true);
    var most := VainTicks(cfg, {}, ins, i.(applyOk := false), t, FirstOk(cfg) - 1);
    all := most + [i];
    OneMoreFixed(most, i, now);
    OneMoreTick(cfg, {}, most, i);
    AdvertisingTick(cfg, After(cfg, {}, most), i);
  }

  lemma AdvertisingTick(cfg: Config, a: Agent, i: Input)
    requires i.want != [] && i.probeOk && !i.prefsOk && i.applyOk && a.ok + 1 >= cfg.okThreshold && !a.locked
    requires i.now - a.last >= cfg.minHold
    ensures var b := Next(cfg, a, i);
      && !b.locked && b.last == i.now && b.node == ToSet(i.want) && |b.flaps| <= |a.flaps| + 1
      && Recorded(cfg, a, i) == [Change(true, i.now)]
  {
    NeverCurrent(i.want, false, a.node);
    RecentShrinks(a.flaps, i.now - HOUR);
  }

  /** Failing ticks at which they can be read withdraw it; the lock comes only with enough changes in the file. */
  lemma Withdraws(cfg: Config, want: seq<string>, ins: seq<Input>, t: int, now: int) returns (all: seq<Input>)
    requires want != [] && ReadsBack(want, true)
    requires !After(cfg, {}, ins).locked && After(cfg, {}, ins).node == ToSet(want)
    requires FixedUntil(ins, want, t) && t <= now
    ensures FixedUntil(all, want, now)
    ensures var a, b := After(cfg, {}, ins), After(cfg, {}, all);
      (b.locked ==> |a.flaps| + 1 >= cfg.maxFlaps) && b.last == now && |b.flaps| <= |a.flaps| + 1
    ensures Log(cfg, {}, all) == Log(cfg, {}, ins) + [Change(false, now)]
  {
    var i := Input(want, false, now, true, true);
    var most := VainTicks(cfg, {}, ins, i.(applyOk := false), t, FirstFail(cfg) - 1);
    all := most + [i];
    OneMoreFixed(most, i, now);
    OneMoreTick(cfg, {}, most, i);
    WithdrawingTick(cfg, After(cfg, {}, most), i);
  }

  lemma WithdrawingTick(cfg: Config, a: Agent, i: Input)
    requires i.want != [] && !i.probeOk && i.prefsOk && i.applyOk && a.fail + 1 >= cfg.failThreshold && !a.locked
    requires ReadsBack(i.want, true) && a.node == ToSet(i.want)
    ensures var b := Next(cfg, a, i);
      && (b.locked ==> |a.flaps| + 1 >= cfg.maxFlaps) && b.last == i.now && |b.flaps| <= |a.flaps| + 1
      && Recorded(cfg, a, i) == [Change(false, i.now)]
  {
    CurrentIffReadsBack(i.want, true);
    RecentShrinks(a.flaps, i.now - HOUR);
  }

  /** How many withdrawals within an hour stay below the lock when each follows an advertisement. */
  function Free(cfg: Config): nat {
    (Most(cfg) - 1) / 2
  }

  function ChangesAfter(cfg: Config, k: nat): nat {
    if k <= Free(cfg) then 2 * k else Free(cfg) + k
  }

  /** The state after k rounds, at time t. */
  predicate Cycling(cfg: Config, hold: nat, k: nat, t: int, a: Agent, log: seq<Change>) {
    && !a.locked && a.last == t && |a.flaps| <= |log| && |log| == ChangesAfter(cfg, k)
    && (if k == 0 then t == 0 else log[0].at == hold)
  }

  lemma OneRound(cfg: Config, want: seq<string>, hold: nat, k: nat, t: int, ins: seq<Input>) returns (all: seq<Input>)
    requires want != [] && ReadsBack(want, true) && hold >= cfg.minHold && k > 0 && FixedUntil(ins, want, t)
    requires Cycling(cfg, hold, k - 1, t, After(cfg, {}, ins), Log(cfg, {}, ins))
    ensures FixedUntil(all, want, t + hold)
    ensures Cycling(cfg, hold, k, t + hold, After(cfg, {}, all), Log(cfg, {}, all))
  {
    all := Advertises(cfg, want, ins, t, t + hold);
    if k <= Free(cfg) {
      all := Withdraws(cfg, want, all, t + hold, t + hold);
    }
  }

  lemma NoRounds(cfg: Config, want: seq<string>, hold: nat)
    ensures FixedUntil([], want, 0) && Cycling(cfg, hold, 0, 0, After(cfg, {}, []), Log(cfg, {}, []))
  {
  }

  lemma NextRound(hold: nat, k: nat)
    requires k > 0
    ensures hold * (k - 1) + hold == hold * k
  {
  }

  /** Rounds, one hold time apart: the list is written, and the first times it is then withdrawn. */
  lemma {:induction false} Rounds(cfg: Config, want: seq<string>, hold: nat, k: nat, t: int) returns (ins: seq<Input>)
    requires want != [] && ReadsBack(want, true) && hold >= cfg.minHold && t == hold * k
    ensures FixedUntil(ins, want, t) && Cycling(cfg, hold, k, t, After(cfg, {}, ins), Log(cfg, {}, ins))
    decreases k
  {
    if k == 0 {
      NoRounds(cfg, want, hold);
      ins := [];
    } else {
      NextRound(hold, k);
      ins := Rounds(cfg, want, hold, k - 1, t - hold);
      ins := OneRound(cfg, want, hold, k, t - hold, ins);
    }
  }

  /** After a last advertisement and withdrawal. */
  lemma LastRound(cfg: Config, want: seq<string>, hold: nat, k: nat, t: int, ins: seq<Input>) returns (all: seq<Input>)
    requires want != [] && ReadsBack(want, true) && hold >= cfg.minHold && k > 0 && FixedUntil(ins, want, t)
    requires Cycling(cfg, hold, k, t, After(cfg, {}, ins), Log(cfg, {}, ins))
    ensures FixedRun(all, want)
    ensures var log := Log(cfg, {}, all); |log| == ChangesAfter(cfg, k) + 2 && log[|log| - 1].at - log[0].at == t
  {
    all := Advertises(cfg, want, ins, t, t + hold);
    all := Withdraws(cfg, want, all, t + hold, t + hold);
  }

  /** One change too many, with no more than half the allowed number of hold times between the first and the last. */
  lemma MixedRun(cfg: Config, want: seq<string>, hold: nat, k: nat) returns (ins: seq<Input>)
    requires want != [] && ReadsBack(want, true) && hold >= cfg.minHold && k == Most(cfg) / 2 + 1
    ensures FixedRun(ins, want)
    ensures var log := Log(cfg, {}, ins); |log| == Limit(cfg) + 1 && log[Limit(cfg)].at - log[0].at == k * hold
  {
    var t := hold * k;
    ins := Rounds(cfg, want, hold, k, t);
    ins := LastRound(cfg, want, hold, k, t, ins);
    ChangesInAll(cfg);
    assert hold * k == k * hold;
  }

  lemma ChangesInAll(cfg: Config)
    ensures ChangesAfter(cfg, Most(cfg) / 2 + 1) + 2 == Limit(cfg) + 1
  {
  }

  lemma MixedHold(cfg: Config, want: seq<string>) returns (ins: seq<Input>)
    requires want != [] && ReadsBack(want, true) && (Most(cfg) / 2 + 1) * cfg.minHold < HOUR
    ensures FixedRun(ins, want) && Exceeds(cfg, {}, ins, 0, Limit(cfg))
  {
    var k := Most(cfg) / 2 + 1;
    var hold := NoNegativeHold(k, cfg.minHold);
    ins := MixedRun(cfg, want, hold, k);
  }

  // ---- the bound, exactly ----

  /** Under an empty list no change is recorded. */
  lemma {:induction false} EmptyListIsQuiet(cfg: Config, node: set<string>, ins: seq<Input>)
    requires FixedRun(ins, [])
    ensures Log(cfg, node, ins) == []
  {
    if ins != [] {
      var before, i := ins[..|ins| - 1], ins[|ins| - 1];
      assert i.want == [] && before + [i] == ins;
      EmptyListIsQuiet(cfg, node, before);
      OneMoreTick(cfg, node, before, i);
    }
  }

  lemma EmptyListIsBounded(cfg: Config)
    ensures HourBounded(cfg, []) && forall prefsOk :: SteadilyBounded(cfg, [], prefsOk)
  {
    forall node, ins, i, j | FixedRun(ins, []) ensures !Exceeds(cfg, node, ins, i, j) {
      EmptyListIsQuiet(cfg, node, ins);
    }
  }

  /** With preferences that can always be read, or never: a list keeps the bound if and only if it is recognised once
      written (preferences readable, no route twice, all IPv4), or the hold time alone is long enough. */
  lemma SteadyBoundIff(cfg: Config, want: seq<string>, prefsOk: bool)
    ensures SteadilyBounded(cfg, want, prefsOk) <==>
            want == [] || ReadsBack(want, prefsOk) || Limit(cfg) * cfg.minHold >= HOUR
  {
    if want == [] {
      EmptyListIsBounded(cfg);
    } else if ReadsBack(want, prefsOk) {
      forall node, ins, i, j | SteadyRun(ins, want, prefsOk) ensures !Exceeds(cfg, node, ins, i, j) {
        RecognisedKeepsTheBound(cfg, want, node, ins, i, j);
      }
    } else if Limit(cfg) * cfg.minHold >= HOUR {
      forall node, ins, i, j | SteadyRun(ins, want, prefsOk) ensures !Exceeds(cfg, node, ins, i, j) {
        LongHold(cfg, node, ins, i, j);
      }
    } else {
      var ins := ShortHold(cfg, want, prefsOk);
    }
  }

  /** The hold times of an hour that a list needs: fewer if withdrawals, which need none, can come in between. */
  function HoldsNeeded(cfg: Config, want: seq<string>): nat {
    if ReadsBack(want, true) then Most(cfg) / 2 + 1 else Limit(cfg)
  }

  /** With preferences that may be readable at some ticks and not at others: a list keeps the bound if and only if the
      hold time is long enough; that it is recognised when they are readable makes the condition harder to meet. */
  lemma BoundIff(cfg: Config, want: seq<string>)
    ensures HourBounded(cfg, want) <==> want == [] || HoldsNeeded(cfg, want) * cfg.minHold >= HOUR
  {
    if want == [] {
      EmptyListIsBounded(cfg);
    } else if ReadsBack(want, true) {
      if HoldsNeeded(cfg, want) * cfg.minHold >= HOUR {
        forall node, ins, i, j | FixedRun(ins, want) ensures !Exceeds(cfg, node, ins, i, j) {
          LongerHold(cfg, node, ins, i, j);
        }
      } else {
        var ins := MixedHold(cfg, want);
      }
    } else if HoldsNeeded(cfg, want) * cfg.minHold >= HOUR {
      forall node, ins, i, j | FixedRun(ins, want) ensures !Exceeds(cfg, node, ins, i, j) {
        LongHold(cfg, node, ins, i, j);
      }
    } else {
      var ins := ShortHold(cfg, want, true);
    }
  }

  /** For all runs, with lists that change as they like. */
  lemma AlwaysBoundIff(cfg: Config)
    ensures AlwaysBounded(cfg) <==> (Most(cfg) / 2 + 1) * cfg.minHold >= HOUR
  {
    if (Most(cfg) / 2 + 1) * cfg.minHold >= HOUR {
      forall node, ins, i, j | Monotone(ins) ensures !Exceeds(cfg, node, ins, i, j) {
        LongerHold(cfg, node, ins, i, j);
      }
    } else {
      var want := OneRoute();
      var ins := MixedHold(cfg, want);
    }
  }

  lemma OneRoute() returns (want: seq<string>)
    ensures want != [] && ReadsBack(want, true)
  {
    want := ["1/32"];
    assert PlainAt("1/32", 1);
  }

  /** The script's own settings keep the bound only while the preferences can be read at every tick. */
  lemma DefaultBound(want: seq<string>, prefsOk: bool)
    ensures SteadilyBounded(DEFAULTS, want, prefsOk) <==> want == [] || ReadsBack(want, prefsOk)
    ensures HourBounded(DEFAULTS, want) <==> want == []
  {
    SteadyBoundIff(DEFAULTS, want, prefsOk);
    BoundIff(DEFAULTS, want);
  }

  const LONG_HOLD := Config(1, 1, 720, 4)

  /** Settings that keep the bound with readable and with unreadable preferences and lose it when the two alternate. */
  lemma AlternatingPreferences(want: seq<string>) returns (ins: seq<Input>)
    requires want != [] && ReadsBack(want, true)
    ensures SteadilyBounded(LONG_HOLD, want, true) && SteadilyBounded(LONG_HOLD, want, false) && FixedRun(ins, want)
    ensures var log := Log(LONG_HOLD, {}, ins);
      |log| == 6 && log[5].at - log[0].at == 2160 && Limit(LONG_HOLD) == 5
  {
    LongHoldIsSteady(want);
    ins := FourAllowed(LONG_HOLD, want, 720);
  }

  lemma LongHoldIsSteady(want: seq<string>)
    ensures SteadilyBounded(LONG_HOLD, want, true) && SteadilyBounded(LONG_HOLD, want, false)
  {
    SteadyBoundIff(LONG_HOLD, want, true);
    SteadyBoundIff(LONG_HOLD, want, false);
  }

  /** Six changes within three hold times where four are allowed. */
  lemma FourAllowed(cfg: Config, want: seq<string>, hold: nat) returns (ins: seq<Input>)
    requires want != [] && ReadsBack(want, true) && hold >= cfg.minHold && Most(cfg) == 4
    ensures FixedRun(ins, want) && Limit(cfg) == 5
    ensures var log := Log(cfg, {}, ins); |log| == 6 && log[5].at - log[0].at == 3 * hold
  {
    ins := MixedRun(cfg, want, hold, 3);
  }

  /** How far it goes: twelve recorded changes within an hour where the bound is five. */
  lemma TwelveInAnHour(want: seq<string>, prefsOk: bool)
    requires want != [] && !ReadsBack(want, prefsOk)
    ensures var log := Log(DEFAULTS, {}, HealthyRun(want, prefsOk, 300, 17));
      |log| == 12 && log[11].at - log[0].at < HOUR && Limit(DEFAULTS) == 5
  {
    HealthyRunRepeats(DEFAULTS, want, prefsOk, 300, 17);
  }
}
