/** When a tick of the route agent asks for something, told by the history of the probes and by what the node shows. */
module RouteDecisions {
  import opened Basics
  import opened RouteFilter
  import opened RouteAgents

  /** The preferences can be read and show a route. */
  ghost predicate ShowsRoute(a: Agent, i: Input) {
    i.prefsOk && exists r :: r in a.node && Plain(r)
  }

  lemma ShownMeans(a: Agent, i: Input)
    ensures Shown(a.node, i.prefsOk) != {} <==> ShowsRoute(a, i)
  {
    if ShowsRoute(a, i) {
      var r :| r in a.node && Plain(r);
      assert r in Shown(a.node, i.prefsOk);
    }
    if Shown(a.node, i.prefsOk) != {} {
      var r :| r in Shown(a.node, i.prefsOk);
      assert r in a.node && Plain(r);
    }
  }

  /** An empty list takes every route back at once, whatever the probes, the hold time and the lock say; without a
      visible route such a tick asks for nothing, and changes nothing but streaks and the pruned file. */
  lemma EmptyListWithdraws(cfg: Config, node: set<string>, ins: seq<Input>, i: Input)
    requires i.want == []
    ensures var a, a' := After(cfg, node, ins), After(cfg, node, ins + [i]);
      && (ShowsRoute(a, i) ==>
            Written(cfg, a, i) == [[]] && a'.last == i.now && !a'.advertised && (i.applyOk ==> a'.node == {}))
      && (!ShowsRoute(a, i) ==>
            Written(cfg, a, i) == [] && a'.last == a.last && a'.advertised == a.advertised && a'.node == a.node)
      && a'.locked == a.locked && Log(cfg, node, ins + [i]) == Log(cfg, node, ins)
  {
    OneMoreTick(cfg, node, ins, i);
    ShownMeans(After(cfg, node, ins), i);
    assert Log(cfg, node, ins) + [] == Log(cfg, node, ins);
  }

  /** The preferences can be read and show exactly the wanted routes, none of them wanted twice. */
  predicate Recognised(a: Agent, i: Input) {
    i.prefsOk && Distinct(i.want) && (forall r :: r in i.want ==> Plain(r) && r in a.node)
    && forall r :: r in a.node && Plain(r) ==> r in i.want
  }

  lemma CurrentIffRecognised(a: Agent, i: Input)
    requires i.want != []
    ensures Current(i.want, a.node, i.prefsOk) <==> Recognised(a, i)
  {
    DistinctCounts(i.want);
    if Current(i.want, a.node, i.prefsOk) {
      CurrentMeansEqual(i.want, a.node, i.prefsOk);
      forall r | r in i.want ensures Plain(r) && r in a.node {
        assert r in ToSet(i.want);
      }
      forall r | r in a.node && Plain(r) ensures r in i.want {
        assert r in Shown(a.node, i.prefsOk);
      }
    }
    if Recognised(a, i) {
      assert Shown(a.node, i.prefsOk) == ToSet(i.want);
    }
  }

  /** Under a list with routes an unlocked agent withdraws if and only if the list is recognised and enough probes in a
      row have failed, and advertises if and only if it is not recognised, enough have succeeded and the hold time since
      the last change has passed. */
  lemma TickDecides(cfg: Config, node: set<string>, ins: seq<Input>, i: Input)
    requires i.want != []
    ensures var a, all := After(cfg, node, ins), ins + [i];
      Written(cfg, a, i) ==
        if a.locked then []
        else if Recognised(a, i) then if Streak(all, false) >= cfg.failThreshold then [[]] else []
        else if Streak(all, true) >= cfg.okThreshold && i.now - LastStamp(cfg, node, ins) >= cfg.minHold then [i.want]
        else []
  {
    assert (ins + [i])[..|ins|] == ins;
    CountersAgree(cfg, node, ins);
    CurrentIffRecognised(After(cfg, node, ins), i);
  }

  /** What a request that works leaves behind, and that a failed one under a list with routes leaves nothing. */
  lemma RequestTakesEffect(cfg: Config, a: Agent, i: Input)
    requires i.want != []
    ensures var a', asked := Next(cfg, a, i), Written(cfg, a, i);
      if asked != [] && i.applyOk then
        && a'.node == ToSet(asked[0]) && a'.advertised == (asked[0] != []) && a'.last == i.now
        && Recorded(cfg, a, i) == [Change(asked[0] != [], i.now)]
        && a'.locked == (asked[0] == [] && |Recent(a.flaps, i.now - HOUR)| + 1 >= cfg.maxFlaps)
      else
        && a'.node == a.node && a'.advertised == a.advertised && a'.last == a.last && a'.locked == a.locked
        && Recorded(cfg, a, i) == []
  {
    assert ToSet([]) == {};
  }

  /** Pruning keeps an entry as often as it was there if it is later than the cut, and otherwise not at all. */
  lemma {:induction false} RecentCounts(flaps: seq<int>, cut: int, x: int)
    ensures multiset(Recent(flaps, cut))[x] == if x > cut then multiset(flaps)[x] else 0
  {
    if flaps != [] {
      var front, last := flaps[..|flaps| - 1], flaps[|flaps| - 1];
      assert flaps == front + [last];
      RecentCounts(front, cut, x);
    }
  }

  /** A dotted address with a prefix length is a route the agent sees again; one with a colon is not. */
  lemma PlainRoutes(head: string, bits: string)
    requires head != "" && Digit(head[0]) && '/' !in head && Digits(bits)
    ensures Plain(head + "/" + bits) <==> forall c :: c in head ==> Digit(c) || c == '.'
  {
    var r := head + "/" + bits;
    assert r[0] == head[0] && r[|head|] == '/';
    if forall c :: c in head ==> Digit(c) || c == '.' {
      assert r[..|head|] == head && r[|head| + 1..] == bits;
      assert PlainAt(r, |head|);
    }
    if k: nat :| k < |r| && PlainAt(r, k) {
      SlashAt(head, bits, k);
      assert r[..k] == head;
    }
  }

  lemma SlashAt(head: string, bits: string, k: nat)
    requires '/' !in head && Digits(bits) && k < |head + "/" + bits| && (head + "/" + bits)[k] == '/'
    ensures k == |head|
  {
    assert forall j :: 0 <= j < |bits| ==> bits[j] in bits;
  }
}
