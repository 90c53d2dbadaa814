/** How often the route agent changes its mind: the flap log against the whole history. */
module RouteFlaps {
  import opened RouteAgents

  /** A run under one non-empty wanted list that reads back, with a clock that never goes back. */
  predicate FixedList(ins: seq<Input>, want: seq<string>) {
    && want != []
    && (forall k :: 0 <= k < |ins| ==> ins[k].want == want && ReadsBack(want, ins[k].prefsOk))
    && (forall k :: 0 < k < |ins| ==> ins[k - 1].now <= ins[k].now)
  }

  function Times(log: seq<Change>): (ts: seq<int>)
    ensures |ts| == |log| && forall k :: 0 <= k < |ts| ==> ts[k] == log[k].at
  {
    seq(|log|, k requires 0 <= k < |log| => log[k].at)
  }

  lemma {:induction false} RecentTwice(flaps: seq<int>, c1: int, c2: int)
    requires c1 <= c2
    ensures Recent(Recent(flaps, c1), c2) == Recent(flaps, c2)
  {
    if flaps != [] {
      var front, x := flaps[..|flaps| - 1], flaps[|flaps| - 1];
      RecentTwice(front, c1, c2);
      if Since(c1, x) {
        assert (Recent(front, c1) + [x])[..|Recent(front, c1)|] == Recent(front, c1);
      } else {
        assert Recent(flaps, c1) == Recent(front, c1);
        assert !Since(c2, x);
      }
    }
  }

  lemma RecentSnoc(flaps: seq<int>, x: int, cut: int)
    requires cut < x
    ensures Recent(flaps + [x], cut) == Recent(flaps, cut) + [x]
  {
    assert (flaps + [x])[..|flaps|] == flaps;
  }

  lemma WindowSnoc(log: seq<Change>, c: Change)
    ensures Recent(Times(log + [c]), c.at - HOUR) == Recent(Times(log), c.at - HOUR) + [c.at]
  {
    assert Times(log + [c]) == Times(log) + [c.at];
    RecentSnoc(Times(log), c.at, c.at - HOUR);
  }

  /** Times of the log never go back and never exceed the clock. */
  predicate Ordered(log: seq<Change>, now: int) {
    && (forall k :: 0 <= k < |log| ==> log[k].at <= now)
    && (forall j, k :: 0 <= j < k < |log| ==> log[j].at <= log[k].at)
  }

  predicate Alternates(log: seq<Change>) {
    forall k :: 0 < k < |log| ==> log[k - 1].advertise != log[k].advertise
  }

  /** The node shows the last recorded change. */
  predicate NodeFollows(a: Agent, log: seq<Change>, want: seq<string>) {
    log != [] ==> a.node == if log[|log| - 1].advertise then ToSet(want) else {}
  }

  function InHour(log: seq<Change>, k: nat): nat
    requires k < |log|
  {
    |Recent(Times(log[..k + 1]), log[k].at - HOUR)|
  }

  predicate EndsRun(log: seq<Change>, k: nat, locked: bool) {
    k == |log| - 1 && locked
  }

  /** A withdrawal that fills the hour locks the agent and ends the log. */
  predicate FullLocks(cfg: Config, log: seq<Change>, locked: bool) {
    forall k :: 0 <= k < |log| && !log[k].advertise ==> InHour(log, k) < cfg.maxFlaps || EndsRun(log, k, locked)
  }

  lemma NotCurrentWhenEmpty(want: seq<string>, prefsOk: bool)
    requires want != []
    ensures !Current(want, {}, prefsOk)
  {
    assert want[0] in multiset(want);
    assert Shown({}, prefsOk) == {};
  }

  /** A change recorded by a tick, as the files and the node show it. */
  predicate Made(cfg: Config, i: Input, a: Agent, a': Agent, c: Change) {
    && c.at == i.now && !a.locked
    && a'.node == (if c.advertise then ToSet(i.want) else {})
    && a'.locked == (!c.advertise && |Recent(a.flaps, i.now - HOUR)| + 1 >= cfg.maxFlaps)
    && a'.flaps == Recent(a.flaps, i.now - HOUR) + [i.now]
    && a.node != a'.node
  }

  /** What a tick does to the flap file, the lock, the node and the full history. */
  predicate Ticked(cfg: Config, i: Input, a: Agent, a': Agent, log: seq<Change>, log': seq<Change>) {
    || (log' == log && a'.node == a.node && a'.locked == a.locked && a'.flaps == Recent(a.flaps, i.now - HOUR))
    || (|log'| == |log| + 1 && log == log'[..|log|] && Made(cfg, i, a, a', log'[|log|]))
  }

  lemma TickedHolds(cfg: Config, a: Agent, i: Input, log: seq<Change>)
    requires i.want != [] && ReadsBack(i.want, i.prefsOk)
    ensures Ticked(cfg, i, a, Next(cfg, a, i), log, log + Recorded(cfg, a, i))
  {
    CurrentIffReadsBack(i.want, i.prefsOk);
    NotCurrentWhenEmpty(i.want, i.prefsOk);
    if Recorded(cfg, a, i) == [] {
      assert log + [] == log;
    }
  }

  /** The states and histories of a run, tick by tick. */
  predicate Traced(cfg: Config, ins: seq<Input>, states: seq<Agent>, logs: seq<seq<Change>>) {
    && |states| == |logs| == |ins| + 1
    && states[0].flaps == [] && logs[0] == []
    && (forall k :: 0 <= k < |ins| ==> Ticked(cfg, ins[k], states[k], states[k + 1], logs[k], logs[k + 1]))
  }

  lemma TracedSnoc(cfg: Config, ins: seq<Input>, states: seq<Agent>, logs: seq<seq<Change>>, i: Input, a': Agent,
                   log': seq<Change>)
    requires Traced(cfg, ins, states, logs)
    requires Ticked(cfg, i, states[|ins|], a', logs[|ins|], log')
    ensures Traced(cfg, ins + [i], states + [a'], logs + [log'])
  {
  }

  lemma {:induction false} TraceOf(cfg: Config, node: set<string>, ins: seq<Input>, want: seq<string>)
    returns (states: seq<Agent>, logs: seq<seq<Change>>)
    requires FixedList(ins, want)
    ensures Traced(cfg, ins, states, logs)
    ensures states[|ins|] == After(cfg, node, ins) && logs[|ins|] == Log(cfg, node, ins)
  {
    if ins == [] {
      return [Start(node)], [[]];
    }
    var before, i := ins[..|ins| - 1], ins[|ins| - 1];
    var s, l := TraceOf(cfg, node, before, want);
    TickedHolds(cfg, After(cfg, node, before), i, Log(cfg, node, before));
    assert before + [i] == ins;
    OneMoreTick(cfg, node, before, i);
    TracedSnoc(cfg, before, s, l, i, After(cfg, node, ins), Log(cfg, node, ins));
    states, logs := s + [After(cfg, node, ins)], l + [Log(cfg, node, ins)];
  }

  lemma FullLocksSnoc(cfg: Config, log: seq<Change>, c: Change, locked: bool)
    requires FullLocks(cfg, log, false)
    requires !c.advertise ==> locked || |Recent(Times(log), c.at - HOUR)| + 1 < cfg.maxFlaps
    ensures FullLocks(cfg, log + [c], locked)
  {
    var log' := log + [c];
    forall k | 0 <= k < |log'| && !log'[k].advertise
      ensures InHour(log', k) < cfg.maxFlaps || EndsRun(log', k, locked)
    {
      if k < |log| {
        assert log'[..k + 1] == log[..k + 1];
        assert InHour(log', k) == InHour(log, k);
      } else {
        assert log'[..k + 1] == log';
        assert Times(log') == Times(log) + [c.at];
        RecentSnoc(Times(log), c.at, c.at - HOUR);
      }
    }
  }

  predicate FlapInv(cfg: Config, a: Agent, log: seq<Change>, want: seq<string>, now: int) {
    && Alternates(log) && NodeFollows(a, log, want) && FullLocks(cfg, log, a.locked)
    && Ordered(log, now) && a.flaps == Recent(Times(log), now - HOUR)
  }

  lemma AlternatesSnoc(a: Agent, log: seq<Change>, c: Change, want: seq<string>)
    requires Alternates(log) && NodeFollows(a, log, want) && a.node != if c.advertise then ToSet(want) else {}
    ensures Alternates(log + [c])
  {
  }

  lemma FlapChange(cfg: Config, i: Input, a: Agent, a': Agent, log: seq<Change>, c: Change, now: int)
    requires Made(cfg, i, a, a', c) && FlapInv(cfg, a, log, i.want, now) && now <= i.now
    requires Recent(a.flaps, i.now - HOUR) == Recent(Times(log), i.now - HOUR)
    ensures FlapInv(cfg, a', log + [c], i.want, i.now)
  {
    WindowSnoc(log, c);
    FullLocksSnoc(cfg, log, c, a'.locked);
    AlternatesSnoc(a, log, c, i.want);
  }

  lemma FlapStep(cfg: Config, i: Input, a: Agent, a': Agent, log: seq<Change>, log': seq<Change>, now: int)
    requires Ticked(cfg, i, a, a', log, log') && FlapInv(cfg, a, log, i.want, now) && now <= i.now
    ensures FlapInv(cfg, a', log', i.want, i.now)
  {
    RecentTwice(Times(log), now - HOUR, i.now - HOUR);
    if log' != log {
      FlapChange(cfg, i, a, a', log, log'[|log|], now);
      assert log' == log + [log'[|log|]];
    }
  }

  /** At every tick: changes alternate, the node shows the last one, the pruned file is the full history cut
      to the last hour, and a withdrawal that fills the hour has locked the agent. */
  lemma {:induction false} FlapInvHolds(cfg: Config, ins: seq<Input>, want: seq<string>, states: seq<Agent>,
                                        logs: seq<seq<Change>>, n: nat)
    requires FixedList(ins, want) && Traced(cfg, ins, states, logs) && 0 < n <= |ins|
    ensures FlapInv(cfg, states[n], logs[n], want, ins[n - 1].now)
  {
    if n == 1 {
      assert Times([]) == [];
      FlapStep(cfg, ins[0], states[0], states[1], logs[0], logs[1], ins[0].now);
    } else {
      FlapInvHolds(cfg, ins, want, states, logs, n - 1);
      FlapStep(cfg, ins[n - 1], states[n - 1], states[n], logs[n - 1], logs[n], ins[n - 2].now);
    }
  }

  lemma {:induction false} AllRecent(ts: seq<int>, cut: int, i: nat)
    requires i <= |ts| && forall k :: i <= k < |ts| ==> cut < ts[k]
    ensures |Recent(ts, cut)| >= |ts| - i
  {
    if i < |ts| {
      AllRecent(ts[..|ts| - 1], cut, i);
    }
  }

  /** Entries i to p lie within the hour that ends at entry p. */
  lemma EnoughInHour(log: seq<Change>, now: int, i: nat, p: nat)
    requires Ordered(log, now) && i <= p < |log| && log[p].at - log[i].at < HOUR
    ensures InHour(log, p) >= p - i + 1
  {
    var ts := Times(log[..p + 1]);
    forall k | i <= k < |ts| ensures log[p].at - HOUR < ts[k] {
      assert ts[k] == log[k].at >= log[i].at;
    }
    AllRecent(ts, log[p].at - HOUR, i);
  }

  lemma HourBound(cfg: Config, a: Agent, log: seq<Change>, want: seq<string>, now: int, i: nat, j: nat)
    requires FlapInv(cfg, a, log, want, now) && i <= j < |log| && log[j].at - log[i].at < HOUR
    ensures j - i + 1 <= Limit(cfg)
  {
    if j - i + 1 > Limit(cfg) {
      assert log[j - 2].advertise != log[j - 1].advertise;
      var p := if log[j - 1].advertise then j - 2 else j - 1;
      assert !log[p].advertise && !EndsRun(log, p, a.locked);
      EnoughInHour(log, now, i, p);
    }
  }

  /** One more change than the configured number: the first of an hour may follow a withdrawal of the hour before. */
  function Limit(cfg: Config): int {
    (if cfg.maxFlaps < 1 then 1 else cfg.maxFlaps) + 1
  }

  /** The flap bound: any hour of any run holds at most maxFlaps + 1 recorded changes (2 if maxFlaps is below 1). */
  lemma FlapBound(cfg: Config, node: set<string>, ins: seq<Input>, want: seq<string>, i: nat, j: nat)
    requires FixedList(ins, want)
    requires i <= j < |Log(cfg, node, ins)|
    requires Log(cfg, node, ins)[j].at - Log(cfg, node, ins)[i].at < HOUR
    ensures j - i + 1 <= Limit(cfg)
  {
    var states, logs := TraceOf(cfg, node, ins, want);
    if ins != [] {
      FlapInvHolds(cfg, ins, want, states, logs, |ins|);
      HourBound(cfg, states[|ins|], logs[|ins|], want, ins[|ins| - 1].now, i, j);
    }
  }
}
