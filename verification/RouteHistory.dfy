/** What every run of the route agent keeps, however the wanted list changes and whatever fails. */
module RouteHistory {
  import opened RouteAgents
  import opened RouteFlaps

  predicate Monotone(ins: seq<Input>) {
    forall k :: 0 < k < |ins| ==> ins[k - 1].now <= ins[k].now
  }

  /** An advertisement keeps the hold time since the change before it. */
  predicate Held(log: seq<Change>, hold: int) {
    forall k :: 0 < k < |log| && log[k].advertise ==> log[k].at - log[k - 1].at >= hold
  }

  /** Between two withdrawals there is an advertisement. */
  predicate Apart(log: seq<Change>) {
    forall k :: 0 < k < |log| && !log[k].advertise ==> log[k - 1].advertise
  }

  /** How the stored time and the node follow the last recorded change. */
  predicate Follows(a: Agent, log: seq<Change>) {
    log != [] ==> a.last >= log[|log| - 1].at && (log[|log| - 1].advertise || a.node == {})
  }

  predicate History(cfg: Config, a: Agent, log: seq<Change>, now: int) {
    && Ordered(log, now) && a.flaps == Recent(Times(log), now - HOUR) && FullLocks(cfg, log, a.locked)
    && Held(log, cfg.minHold) && Apart(log) && Follows(a, log)
  }

  // ---- one tick ----

  predicate Quiet(i: Input, a: Agent, a': Agent) {
    && a'.flaps == Recent(a.flaps, i.now - HOUR) && a'.locked == a.locked
    && a'.node in {a.node, {}} && a'.last in {a.last, i.now}
  }

  predicate Advertised(cfg: Config, i: Input, a: Agent, a': Agent) {
    && !a.locked && !a'.locked && i.now - a.last >= cfg.minHold && a'.last == i.now
    && a'.flaps == Recent(a.flaps, i.now - HOUR) + [i.now]
  }

  predicate Withdrawn(cfg: Config, i: Input, a: Agent, a': Agent) {
    && !a.locked && a'.locked == (|Recent(a.flaps, i.now - HOUR)| + 1 >= cfg.maxFlaps) && a'.last == i.now
    && a'.flaps == Recent(a.flaps, i.now - HOUR) + [i.now] && a.node != {} && a'.node == {}
  }

  predicate Moved(cfg: Config, i: Input, a: Agent, a': Agent, rec: seq<Change>) {
    || (rec == [] && Quiet(i, a, a'))
    || (rec == [Change(true, i.now)] && Advertised(cfg, i, a, a'))
    || (rec == [Change(false, i.now)] && Withdrawn(cfg, i, a, a'))
  }

  lemma TickMoves(cfg: Config, a: Agent, i: Input)
    ensures Moved(cfg, i, a, Next(cfg, a, i), Recorded(cfg, a, i))
  {
    if i.want != [] {
      NotCurrentWhenEmpty(i.want, i.prefsOk);
    }
  }

  lemma QuietKeeps(cfg: Config, i: Input, a: Agent, a': Agent, log: seq<Change>, now: int)
    requires History(cfg, a, log, now) && now <= i.now && Quiet(i, a, a')
    ensures History(cfg, a', log, i.now)
  {
    RecentTwice(Times(log), now - HOUR, i.now - HOUR);
  }

  /** A change that keeps the hold time if it is an advertisement, and follows one if it is a withdrawal. */
  lemma SpacingSnoc(log: seq<Change>, hold: int, now: int, c: Change)
    requires Held(log, hold) && Apart(log) && Ordered(log, now) && now <= c.at
    requires c.advertise && log != [] ==> c.at - log[|log| - 1].at >= hold
    requires !c.advertise && log != [] ==> log[|log| - 1].advertise
    ensures Held(log + [c], hold) && Apart(log + [c]) && Ordered(log + [c], c.at)
  {
  }

  lemma ChangeKeeps(cfg: Config, i: Input, a: Agent, a': Agent, log: seq<Change>, now: int, c: Change)
    requires History(cfg, a, log, now) && now <= i.now && c.at == i.now
    requires if c.advertise then Advertised(cfg, i, a, a') else Withdrawn(cfg, i, a, a')
    ensures History(cfg, a', log + [c], i.now)
  {
    RecentTwice(Times(log), now - HOUR, i.now - HOUR);
    WindowSnoc(log, c);
    FullLocksSnoc(cfg, log, c, a'.locked);
    SpacingSnoc(log, cfg.minHold, now, c);
  }

  lemma HistoryStep(cfg: Config, i: Input, a: Agent, a': Agent, log: seq<Change>, rec: seq<Change>, now: int)
    requires History(cfg, a, log, now) && now <= i.now && Moved(cfg, i, a, a', rec)
    ensures History(cfg, a', log + rec, i.now)
  {
    if rec == [] {
      assert log + rec == log;
      QuietKeeps(cfg, i, a, a', log, now);
    } else {
      ChangeKeeps(cfg, i, a, a', log, now, rec[0]);
    }
  }

  lemma FreshHistory(cfg: Config, node: set<string>, now: int)
    ensures History(cfg, Start(node), [], now)
  {
    assert Times([]) == [];
  }

  lemma HistoryTick(cfg: Config, node: set<string>, ins: seq<Input>, i: Input, now: int)
    requires History(cfg, After(cfg, node, ins), Log(cfg, node, ins), now) && now <= i.now
    ensures History(cfg, After(cfg, node, ins + [i]), Log(cfg, node, ins + [i]), i.now)
  {
    OneMoreTick(cfg, node, ins, i);
    TickMoves(cfg, After(cfg, node, ins), i);
    HistoryStep(cfg, i, After(cfg, node, ins), After(cfg, node, ins + [i]), Log(cfg, node, ins),
                Recorded(cfg, After(cfg, node, ins), i), now);
  }

  /** After every run with a clock that never goes back: the flap file is the history cut to the last hour, a withdrawal
      that fills the hour has locked the agent, advertisements keep the hold time and separate withdrawals. */
  lemma {:induction false} HistoryHolds(cfg: Config, node: set<string>, ins: seq<Input>)
    requires Monotone(ins) && ins != []
    ensures History(cfg, After(cfg, node, ins), Log(cfg, node, ins), ins[|ins| - 1].now)
  {
    var before, i := ins[..|ins| - 1], ins[|ins| - 1];
    assert before + [i] == ins;
    if before == [] {
      FreshHistory(cfg, node, i.now);
      HistoryTick(cfg, node, before, i, i.now);
    } else {
      HistoryHolds(cfg, node, before);
      HistoryTick(cfg, node, before, i, before[|before| - 1].now);
    }
  }

  lemma FileIsWindow(cfg: Config, a: Agent, log: seq<Change>, now: int)
    requires History(cfg, a, log, now)
    ensures a.flaps == Recent(Times(log), now - HOUR)
  {
  }

  /** The pruned file is the whole history cut to the last hour. */
  lemma PrunedIsWindow(cfg: Config, node: set<string>, ins: seq<Input>)
    requires Monotone(ins) && ins != []
    ensures After(cfg, node, ins).flaps == Recent(Times(Log(cfg, node, ins)), ins[|ins| - 1].now - HOUR)
  {
    HistoryHolds(cfg, node, ins);
    FileIsWindow(cfg, After(cfg, node, ins), Log(cfg, node, ins), ins[|ins| - 1].now);
  }

  // ---- how far apart the changes of an hour are ----

  lemma Product(a: int, b: int, hold: int)
    requires a >= b && hold >= 0
    ensures a * hold >= b * hold
  {
    assert a * hold - b * hold == (a - b) * hold;
  }

  /** Of two changes in a row one is an advertisement. */
  lemma {:induction false} PairsSpan(log: seq<Change>, hold: int, now: int, i: nat, k: nat)
    requires Held(log, hold) && Apart(log) && Ordered(log, now) && hold >= 0 && i + 2 * k < |log|
    ensures log[i + 2 * k].at - log[i].at >= k * hold
  {
    if k > 0 {
      PairsSpan(log, hold, now, i, k - 1);
      var p := i + 2 * k;
      assert log[p].advertise || log[p - 1].advertise;
      assert log[p].at >= log[p - 1].at >= log[p - 2].at;
      assert k * hold == (k - 1) * hold + hold;
    }
  }

  /** The configured number of changes, at least one. */
  function Most(cfg: Config): nat
    ensures Limit(cfg) == Most(cfg) + 1
  {
    if cfg.maxFlaps < 1 then 1 else cfg.maxFlaps
  }

  /** After the configured number of changes within an hour only advertisements go on. */
  lemma LateChangesAdvertise(cfg: Config, a: Agent, log: seq<Change>, now: int, i: nat, p: nat)
    requires History(cfg, a, log, now) && i <= p && p + 1 < |log| && log[p].at - log[i].at < HOUR
    requires p - i + 1 >= Most(cfg)
    ensures log[p].advertise
  {
    EnoughInHour(log, now, i, p);
    assert !EndsRun(log, p, a.locked);
  }

  lemma EarlySpan(log: seq<Change>, hold: int, now: int, i: nat, m: nat)
    requires Held(log, hold) && Apart(log) && Ordered(log, now) && hold >= 0 && m >= 2 && i + m - 2 < |log|
    ensures log[i + m - 2].at - log[i].at >= (m / 2 - 1) * hold
  {
    var k := m / 2 - 1;
    PairsSpan(log, hold, now, i, k);
    assert i + 2 * k <= i + m - 2;
    assert log[i + 2 * k].at <= log[i + m - 2].at;
  }

  /** From the m-th change of an hour that begins with change i, only the last of all may be a withdrawal. */
  predicate OnlyAdvertisesFrom(log: seq<Change>, i: nat, m: nat) {
    forall p :: i <= p < |log| - 1 && p - i + 1 >= m && log[p].at - log[i].at < HOUR ==> log[p].advertise
  }

  lemma LateAdvertise(cfg: Config, a: Agent, log: seq<Change>, now: int, i: nat)
    requires History(cfg, a, log, now)
    ensures OnlyAdvertisesFrom(log, i, Most(cfg))
    ensures Held(log, cfg.minHold) && Apart(log) && Ordered(log, now)
  {
    forall p | i <= p < |log| - 1 && p - i + 1 >= Most(cfg) && log[p].at - log[i].at < HOUR ensures log[p].advertise {
      LateChangesAdvertise(cfg, a, log, now, i, p);
    }
  }

  lemma LastTwo(log: seq<Change>, hold: int, now: int, i: nat, j: nat, p: nat, m: nat)
    requires Held(log, hold) && Ordered(log, now) && OnlyAdvertisesFrom(log, i, m)
    requires i < p < j < |log| && log[j].at - log[i].at < HOUR && p - i + 1 >= m
    ensures log[p].at - log[p - 1].at >= hold
  {
    assert log[p].at <= log[j].at;
  }

  /** An hour with more than m + 1 changes takes half of them as advertisements, each with its hold time. */
  lemma CrowdedHour(log: seq<Change>, hold: int, now: int, i: nat, j: nat, m: nat)
    requires Held(log, hold) && Apart(log) && Ordered(log, now) && OnlyAdvertisesFrom(log, i, m)
    requires m >= 1 && hold >= 0 && i + m < j < |log| && log[j].at - log[i].at < HOUR
    ensures log[j].at - log[i].at >= (m / 2 + 1) * hold
  {
    LastTwo(log, hold, now, i, j, i + m, m);
    assert log[i + m].at <= log[j].at;
    if m >= 2 {
      LastTwo(log, hold, now, i, j, i + m - 1, m);
      EarlySpan(log, hold, now, i, m);
      TwoMore(m / 2 - 1, hold);
    } else {
      assert m / 2 + 1 == 1 && 1 * hold == hold;
    }
  }

  lemma TwoMore(k: int, hold: int)
    ensures (k + 2) * hold == k * hold + hold + hold
  {
  }
}
