/** Removing duplicate nodes and approving advertised routes (dedup.py): the plans and what applying them does. */
module NodeDedup {
  import opened Basics
  import opened Text

  datatype Node = Node(id: string, hostname: string, givenName: string, user: string, online: bool, lastSeen: int)

  datatype Key = Key(user: string, hostname: string)

  datatype Action = Skip(id: string) | Delete(id: string) | Rename(id: string, to: string)

  function KeyOf(n: Node): Key {
    Key(n.user, n.hostname)
  }

  // ---- orders ----

  /** Strings by their characters. */
  predicate AtMost(a: string, b: string) {
    a == "" || (b != "" && (a[0] < b[0] || (a[0] == b[0] && AtMost(a[1..], b[1..]))))
  }

  lemma {:induction false} AtMostTotal(a: string, b: string)
    ensures AtMost(a, b) || AtMost(b, a)
    ensures AtMost(a, b) && AtMost(b, a) ==> a == b
  {
    if a != "" && b != "" && a[0] == b[0] {
      AtMostTotal(a[1..], b[1..]);
      assert a == [a[0]] + a[1..] && b == [b[0]] + b[1..];
    }
  }

  lemma {:induction false} AtMostTransitive(a: string, b: string, c: string)
    requires AtMost(a, b) && AtMost(b, c)
    ensures AtMost(a, c)
  {
    if a != "" && b != "" && c != "" && a[0] == b[0] == c[0] {
      AtMostTransitive(a[1..], b[1..], c[1..]);
    }
  }

  predicate KeyAtMost(a: Key, b: Key) {
    if a.user == b.user then AtMost(a.hostname, b.hostname) else AtMost(a.user, b.user)
  }

  /** Whom to keep: the online before the offline, then the last seen, then the greater id. */
  predicate RankAtMost(a: Node, b: Node) {
    if a.online != b.online then b.online
    else if a.lastSeen != b.lastSeen then a.lastSeen < b.lastSeen
    else AtMost(a.id, b.id)
  }

  lemma RankTotal(a: Node, b: Node)
    ensures RankAtMost(a, b) || RankAtMost(b, a)
    ensures RankAtMost(a, b) && RankAtMost(b, a) ==> a.id == b.id
  {
    AtMostTotal(a.id, b.id);
  }

  lemma RankTransitive(a: Node, b: Node, c: Node)
    requires RankAtMost(a, b) && RankAtMost(b, c)
    ensures RankAtMost(a, c)
  {
    if a.online == b.online == c.online && a.lastSeen == b.lastSeen == c.lastSeen {
      AtMostTransitive(a.id, b.id, c.id);
    }
  }

  function InsertSorted<T(!new)>(s: seq<T>, x: T, atMost: (T, T) -> bool): (r: seq<T>)
    ensures multiset(r) == multiset(s) + multiset{x}
    ensures forall y :: y in r <==> y == x || y in s
  {
    if s == [] || atMost(x, s[0]) then [x] + s
    else
      assert s == [s[0]] + s[1..];
      [s[0]] + InsertSorted(s[1..], x, atMost)
  }

  /** sorted(...) of a list. */
  function Sorted<T(!new)>(s: seq<T>, atMost: (T, T) -> bool): (r: seq<T>)
    ensures multiset(r) == multiset(s)
    ensures forall y :: y in r <==> y in s
  {
    if s == [] then []
    else
      assert s == s[..|s| - 1] + [s[|s| - 1]];
      InsertSorted(Sorted(s[..|s| - 1], atMost), s[|s| - 1], atMost)
  }

  ghost predicate TotalOrder<T(!new)>(atMost: (T, T) -> bool) {
    && (forall x, y :: atMost(x, y) || atMost(y, x))
    && (forall x, y, z :: atMost(x, y) && atMost(y, z) ==> atMost(x, z))
  }

  predicate Ordered<T>(s: seq<T>, atMost: (T, T) -> bool) {
    forall i, j :: 0 <= i < j < |s| ==> atMost(s[i], s[j])
  }

  lemma {:induction false} InsertOrdered<T(!new)>(s: seq<T>, x: T, atMost: (T, T) -> bool)
    requires TotalOrder(atMost) && Ordered(s, atMost)
    ensures Ordered(InsertSorted(s, x, atMost), atMost)
  {
    if s != [] && !atMost(x, s[0]) {
      InsertOrdered(s[1..], x, atMost);
      var rest := InsertSorted(s[1..], x, atMost);
      forall j | 0 <= j < |rest| ensures atMost(s[0], rest[j]) {
        assert rest[j] in rest;
        if rest[j] != x {
          var k :| 0 <= k < |s[1..]| && s[1..][k] == rest[j];
          assert s[k + 1] == rest[j];
        }
      }
    }
  }

  lemma {:induction false} SortedOrdered<T(!new)>(s: seq<T>, atMost: (T, T) -> bool)
    requires TotalOrder(atMost)
    ensures Ordered(Sorted(s, atMost), atMost)
  {
    if s != [] {
      SortedOrdered(s[..|s| - 1], atMost);
      InsertOrdered(Sorted(s[..|s| - 1], atMost), s[|s| - 1], atMost);
    }
  }

  lemma StringOrder()
    ensures TotalOrder(AtMost)
  {
    forall x, y ensures AtMost(x, y) || AtMost(y, x) {
      AtMostTotal(x, y);
    }
    forall x, y, z | AtMost(x, y) && AtMost(y, z) ensures AtMost(x, z) {
      AtMostTransitive(x, y, z);
    }
  }

  lemma KeyOrder()
    ensures TotalOrder(KeyAtMost)
  {
    StringOrder();
    forall x: Key, y: Key, z: Key | KeyAtMost(x, y) && KeyAtMost(y, z) ensures KeyAtMost(x, z) {
      AtMostTotal(x.user, y.user);
      AtMostTotal(y.user, z.user);
    }
  }

  /** The results for the elements of a list, one after the other. */
  function Collected<A, B>(s: seq<A>, f: A -> seq<B>): seq<B> {
    if s == [] then [] else Collected(s[..|s| - 1], f) + f(s[|s| - 1])
  }

  lemma {:induction false} InCollected<A, B>(s: seq<A>, f: A -> seq<B>, b: B)
    ensures b in Collected(s, f) <==> exists i :: 0 <= i < |s| && b in f(s[i])
  {
    if s != [] {
      InCollected(s[..|s| - 1], f, b);
    }
  }

  // ---- the plan ----

  function Group(nodes: seq<Node>, key: Key): (g: seq<Node>)
    ensures forall n :: n in g <==> n in nodes && KeyOf(n) == key
  {
    if nodes == [] then []
    else
      var front, last := Group(nodes[..|nodes| - 1], key), nodes[|nodes| - 1];
      assert nodes == nodes[..|nodes| - 1] + [last];
      if KeyOf(last) == key then front + [last] else front
  }

  /** The groups in the order their first nodes come. */
  function Keys(nodes: seq<Node>): (keys: seq<Key>)
    ensures forall k :: k in keys <==> exists n :: n in nodes && KeyOf(n) == k
  {
    if nodes == [] then []
    else
      var front, k := Keys(nodes[..|nodes| - 1]), KeyOf(nodes[|nodes| - 1]);
      assert nodes == nodes[..|nodes| - 1] + [nodes[|nodes| - 1]];
      if k in front then front else front + [k]
  }

  /** The first of the nodes of highest rank. */
  function Keeper(group: seq<Node>): (k: Node)
    requires group != []
    ensures k in group && forall n :: n in group ==> RankAtMost(n, k)
  {
    var last := group[|group| - 1];
    assert group == group[..|group| - 1] + [last];
    RankTotal(last, last);
    if |group| == 1 then last
    else
      var k := Keeper(group[..|group| - 1]);
      RankTotal(last, k);
      if RankAtMost(last, k) then k
      else
        assert forall n :: n in group[..|group| - 1] ==> RankAtMost(n, last) by {
          forall n | n in group[..|group| - 1] ensures RankAtMost(n, last) {
            RankTransitive(n, k, last);
          }
        }
        last
  }

  /** A string comes before another if it is a beginning of it, or has the smaller character where they first differ. */
  lemma {:induction false} AtMostMeans(a: string, b: string)
    ensures AtMost(a, b) <==> a <= b || exists i :: 0 <= i < |a| && i < |b| && a[..i] == b[..i] && a[i] < b[i]
  {
    if a != "" && b != "" {
      if a[0] == b[0] {
        AtMostMeans(a[1..], b[1..]);
        SameHead(a, b);
      } else if a[0] < b[0] {
        assert a[..0] == b[..0];
      }
    }
  }

  lemma SameHead(a: string, b: string)
    requires a != "" && b != "" && a[0] == b[0]
    ensures a <= b <==> a[1..] <= b[1..]
    ensures (exists i :: 0 <= i < |a| && i < |b| && a[..i] == b[..i] && a[i] < b[i]) <==>
            exists i :: 0 <= i < |a[1..]| && i < |b[1..]| && a[1..][..i] == b[1..][..i] && a[1..][i] < b[1..][i]
  {
    if a[1..] <= b[1..] {
      assert a == [a[0]] + a[1..] && b == [b[0]] + b[1..];
    }
    if i :| 0 <= i < |a| && i < |b| && a[..i] == b[..i] && a[i] < b[i] {
      assert i > 0 && a[1..][..i - 1] == a[..i][1..] && b[1..][..i - 1] == b[..i][1..];
      assert a[1..][i - 1] < b[1..][i - 1];
    }
    if i :| 0 <= i < |a[1..]| && i < |b[1..]| && a[1..][..i] == b[1..][..i] && a[1..][i] < b[1..][i] {
      assert a[..i + 1] == [a[0]] + a[1..][..i] && b[..i + 1] == [b[0]] + b[1..][..i];
      assert a[i + 1] < b[i + 1];
    }
  }

  /** Who is kept: nobody online goes for somebody offline; among equals the one seen last stays, and among those the
      one with the greater id. */
  lemma KeeperIsBest(group: seq<Node>, n: Node)
    requires n in group
    ensures var k := Keeper(group);
      && (n.online ==> k.online)
      && (n.online == k.online ==> n.lastSeen <= k.lastSeen)
      && (n.online == k.online && n.lastSeen == k.lastSeen ==> AtMost(n.id, k.id))
  {
    assert RankAtMost(n, Keeper(group));
  }

  function OneAction(n: Node, keeper: Node): seq<Action> {
    if n.id == keeper.id then [] else if n.online then [Skip(n.id)] else [Delete(n.id)]
  }

  function DuplicateOf(keeper: Node): Node -> seq<Action> {
    n => OneAction(n, keeper)
  }

  function Duplicates(group: seq<Node>, keeper: Node): seq<Action> {
    Collected(group, DuplicateOf(keeper))
  }

  function GroupActions(group: seq<Node>, hostname: string): seq<Action>
    requires group != []
  {
    var keeper := Keeper(group);
    Duplicates(group, keeper) + if keeper.givenName != hostname then [Rename(keeper.id, hostname)] else []
  }

  function KeyActions(nodes: seq<Node>, key: Key): seq<Action> {
    var group := Group(nodes, key);
    if key.hostname == "" || group == [] then [] else GroupActions(group, key.hostname)
  }

  function ActionsOf(nodes: seq<Node>): Key -> seq<Action> {
    key => KeyActions(nodes, key)
  }

  function AllActions(nodes: seq<Node>, keys: seq<Key>): seq<Action> {
    Collected(keys, ActionsOf(nodes))
  }

  function Plan(nodes: seq<Node>): seq<Action> {
    AllActions(nodes, Sorted(Keys(nodes), KeyAtMost))
  }

  /** Groups are visited by user and then by hostname. */
  lemma GroupsInOrder(nodes: seq<Node>)
    ensures Ordered(Sorted(Keys(nodes), KeyAtMost), KeyAtMost)
  {
    KeyOrder();
    SortedOrdered(Keys(nodes), KeyAtMost);
  }

  // ---- the plan as written ----

  method CollectGroups(nodes: seq<Node>) returns (groups: map<Key, seq<Node>>, order: seq<Key>)
    ensures order == Keys(nodes)
    ensures forall k :: k in groups <==> k in order
    ensures forall k :: k in groups ==> groups[k] == Group(nodes, k)
  {
    groups, order := map[], [];
    for i := 0 to |nodes|
      invariant order == Keys(nodes[..i])
      invariant forall k :: k in groups <==> k in order
      invariant forall k :: k in groups ==> groups[k] == Group(nodes[..i], k)
    {
      assert nodes[..i + 1][..i] == nodes[..i];
      var key := KeyOf(nodes[i]);
      if key !in groups {
        NoGroup(nodes[..i], key);
        groups := groups[key := []];
        order := order + [key];
      }
      groups := groups[key := groups[key] + [nodes[i]]];
    }
    assert nodes[..|nodes|] == nodes;
  }

  lemma {:induction false} NoGroup(nodes: seq<Node>, key: Key)
    requires key !in Keys(nodes)
    ensures Group(nodes, key) == []
  {
    if nodes != [] {
      NoGroup(nodes[..|nodes| - 1], key);
    }
  }

  lemma SomeGroup(nodes: seq<Node>, key: Key)
    requires key in Keys(nodes)
    ensures Group(nodes, key) != []
  {
    var n :| n in nodes && KeyOf(n) == key;
    assert n in Group(nodes, key);
  }

  method PlanGroup(group: seq<Node>, hostname: string) returns (actions: seq<Action>)
    requires group != []
    ensures actions == GroupActions(group, hostname)
  {
    var keeper := Keeper(group);
    actions := [];
    for i := 0 to |group|
      invariant actions == Duplicates(group[..i], keeper)
    {
      assert group[..i + 1][..i] == group[..i];
      var n := group[i];
      if n.id == keeper.id {
        continue;
      }
      if n.online {
        actions := actions + [Skip(n.id)];
      } else {
        actions := actions + [Delete(n.id)];
      }
    }
    assert group[..|group|] == group;
    if keeper.givenName != hostname {
      actions := actions + [Rename(keeper.id, hostname)];
    }
  }

  method PlanKeys(groups: map<Key, seq<Node>>, keys: seq<Key>, ghost nodes: seq<Node>) returns (actions: seq<Action>)
    requires forall k :: k in keys ==> k in groups && groups[k] == Group(nodes, k) && groups[k] != []
    ensures actions == AllActions(nodes, keys)
  {
    actions := [];
    for i := 0 to |keys|
      invariant actions == AllActions(nodes, keys[..i])
    {
      assert keys[..i + 1][..i] == keys[..i];
      assert keys[i] in keys;
      if keys[i].hostname == "" {
        continue;
      }
      var more := PlanGroup(groups[keys[i]], keys[i].hostname);
      actions := actions + more;
    }
    assert keys[..|keys|] == keys;
  }

  method PlanActions(nodes: seq<Node>) returns (actions: seq<Action>)
    ensures actions == Plan(nodes)
  {
    var groups, order := CollectGroups(nodes);
    forall k | k in order ensures groups[k] != [] {
      SomeGroup(nodes, k);
    }
    actions := PlanKeys(groups, Sorted(order, KeyAtMost), nodes);
  }

  // ---- what a plan holds ----

  predicate DistinctIds(nodes: seq<Node>) {
    forall i, j :: 0 <= i < j < |nodes| ==> nodes[i].id != nodes[j].id
  }

  lemma SameNode(nodes: seq<Node>, n: Node, m: Node)
    requires DistinctIds(nodes) && n in nodes && m in nodes && n.id == m.id
    ensures n == m
  {
    var i, j :| 0 <= i < |nodes| && 0 <= j < |nodes| && nodes[i] == n && nodes[j] == m;
  }

  /** The node its group keeps. */
  function KeeperFor(nodes: seq<Node>, n: Node): (k: Node)
    requires n in nodes
    ensures k in nodes && KeyOf(k) == KeyOf(n)
    ensures forall m :: m in nodes && KeyOf(m) == KeyOf(n) ==> RankAtMost(m, k)
  {
    assert n in Group(nodes, KeyOf(n));
    Keeper(Group(nodes, KeyOf(n)))
  }

  predicate Keeps(nodes: seq<Node>, n: Node) {
    n in nodes && KeeperFor(nodes, n).id == n.id
  }

  /** What a plan should ask for one node. */
  predicate Due(nodes: seq<Node>, n: Node, a: Action) {
    && n in nodes && n.hostname != "" && a.id == n.id
    && match a
       case Skip(_) => !Keeps(nodes, n) && n.online
       case Delete(_) => !Keeps(nodes, n) && !n.online
       case Rename(_, to) => Keeps(nodes, n) && to == n.hostname && n.givenName != n.hostname
  }

  lemma InDuplicates(group: seq<Node>, keeper: Node, a: Action)
    ensures a in Duplicates(group, keeper) <==> exists n :: n in group && a in OneAction(n, keeper)
  {
    InCollected(group, DuplicateOf(keeper), a);
    if n :| n in group && a in OneAction(n, keeper) {
      var i :| 0 <= i < |group| && group[i] == n;
      assert a in DuplicateOf(keeper)(group[i]);
    }
  }

  lemma InAllActions(nodes: seq<Node>, keys: seq<Key>, a: Action)
    ensures a in AllActions(nodes, keys) <==> exists k :: k in keys && a in KeyActions(nodes, k)
  {
    InCollected(keys, ActionsOf(nodes), a);
    if k :| k in keys && a in KeyActions(nodes, k) {
      var i :| 0 <= i < |keys| && keys[i] == k;
      assert a in ActionsOf(nodes)(keys[i]);
    }
  }

  lemma AskedIsDue(nodes: seq<Node>, key: Key, a: Action) returns (n: Node)
    requires key.hostname != "" && Group(nodes, key) != [] && a in GroupActions(Group(nodes, key), key.hostname)
    ensures n in Group(nodes, key) && Due(nodes, n, a)
  {
    var group := Group(nodes, key);
    var keeper := Keeper(group);
    InDuplicates(group, keeper, a);
    if a in Duplicates(group, keeper) {
      n :| n in group && a in OneAction(n, keeper);
    } else {
      n := keeper;
    }
  }

  lemma DueIsAsked(nodes: seq<Node>, key: Key, n: Node, a: Action)
    requires DistinctIds(nodes) && key.hostname != "" && n in Group(nodes, key) && Due(nodes, n, a)
    ensures a in GroupActions(Group(nodes, key), key.hostname)
  {
    var group := Group(nodes, key);
    var keeper := Keeper(group);
    if a.Rename? {
      SameNode(nodes, n, keeper);
    } else {
      assert a in OneAction(n, keeper);
      InDuplicates(group, keeper, a);
    }
  }

  lemma InKeyActions(nodes: seq<Node>, key: Key, a: Action)
    requires DistinctIds(nodes)
    ensures a in KeyActions(nodes, key) <==> exists n :: Due(nodes, n, a) && KeyOf(n) == key
  {
    var group := Group(nodes, key);
    if key.hostname != "" && group != [] {
      if a in KeyActions(nodes, key) {
        var n := AskedIsDue(nodes, key, a);
      }
      if n :| Due(nodes, n, a) && KeyOf(n) == key {
        DueIsAsked(nodes, key, n, a);
      }
    } else {
      forall n | Due(nodes, n, a) ensures KeyOf(n) != key {
        assert KeyOf(n) == key ==> n in group;
      }
    }
  }

  /** A plan asks exactly for what is due: a skip or a delete for each node that is not its group's keeper, a rename
      for a keeper under another name. */
  lemma PlanIsDue(nodes: seq<Node>, a: Action)
    requires DistinctIds(nodes)
    ensures a in Plan(nodes) <==> exists n :: Due(nodes, n, a)
  {
    var keys := Sorted(Keys(nodes), KeyAtMost);
    InAllActions(nodes, keys, a);
    if a in Plan(nodes) {
      var k :| k in keys && a in KeyActions(nodes, k);
      InKeyActions(nodes, k, a);
    }
    if n :| Due(nodes, n, a) {
      InKeyActions(nodes, KeyOf(n), a);
      assert KeyOf(n) in keys;
    }
  }

  // ---- applying a plan ----

  function Effect(n: Node, a: Action): Option<Node> {
    if a.id != n.id then Some(n)
    else
      match a
      case Skip(_) => Some(n)
      case Delete(_) => None
      case Rename(_, to) => Some(n.(givenName := to))
  }

  function ApplyOne(nodes: seq<Node>, a: Action): (r: seq<Node>)
    ensures forall m :: m in r <==> exists n :: n in nodes && Effect(n, a) == Some(m)
  {
    if nodes == [] then []
    else
      var front, last := ApplyOne(nodes[..|nodes| - 1], a), nodes[|nodes| - 1];
      assert nodes == nodes[..|nodes| - 1] + [last];
      front + match Effect(last, a) case Some(m) => [m] case None => []
  }

  function Apply(nodes: seq<Node>, actions: seq<Action>): seq<Node> {
    if actions == [] then nodes
    else ApplyOne(Apply(nodes, actions[..|actions| - 1]), actions[|actions| - 1])
  }

  /** What becomes of one node. */
  function Fate(n: Node, actions: seq<Action>): Option<Node> {
    if actions == [] then Some(n)
    else
      match Fate(n, actions[..|actions| - 1])
      case None => None
      case Some(m) => Effect(m, actions[|actions| - 1])
  }

  /** The same node up to its given name. */
  predicate Same(n: Node, m: Node) {
    m == n.(givenName := m.givenName)
  }

  lemma {:induction false} ApplyIsFate(nodes: seq<Node>, actions: seq<Action>, m: Node)
    ensures m in Apply(nodes, actions) <==> exists n :: n in nodes && Fate(n, actions) == Some(m)
  {
    if actions != [] {
      var front, last := actions[..|actions| - 1], actions[|actions| - 1];
      if m in Apply(nodes, actions) {
        var k :| k in Apply(nodes, front) && Effect(k, last) == Some(m);
        ApplyIsFate(nodes, front, k);
        var n :| n in nodes && Fate(n, front) == Some(k);
        assert Fate(n, actions) == Some(m);
      }
      if n :| n in nodes && Fate(n, actions) == Some(m) {
        ApplyIsFate(nodes, front, Fate(n, front).value);
      }
    }
  }

  lemma {:induction false} FateIs(n: Node, actions: seq<Action>)
    ensures match Fate(n, actions)
      case None => Delete(n.id) in actions
      case Some(m) => Delete(n.id) !in actions && Same(n, m)
                      && (m.givenName == n.givenName || Rename(n.id, m.givenName) in actions)
                      && ((forall t :: Rename(n.id, t) !in actions) || Rename(n.id, m.givenName) in actions)
  {
    if actions != [] {
      var front, last := actions[..|actions| - 1], actions[|actions| - 1];
      FateIs(n, front);
      assert actions == front + [last];
    }
  }

  lemma {:induction false} ApplyOneDistinct(nodes: seq<Node>, a: Action)
    requires DistinctIds(nodes)
    ensures DistinctIds(ApplyOne(nodes, a))
  {
    if nodes != [] {
      var front, last := nodes[..|nodes| - 1], nodes[|nodes| - 1];
      ApplyOneDistinct(front, a);
      forall m | m in ApplyOne(front, a) ensures m.id != last.id {
        var n :| n in front && Effect(n, a) == Some(m);
        assert m.id == n.id;
      }
      assert forall i :: 0 <= i < |ApplyOne(front, a)| ==> ApplyOne(front, a)[i] in ApplyOne(front, a);
    }
  }

  lemma {:induction false} ApplyDistinct(nodes: seq<Node>, actions: seq<Action>)
    requires DistinctIds(nodes)
    ensures DistinctIds(Apply(nodes, actions))
  {
    if actions != [] {
      ApplyDistinct(nodes, actions[..|actions| - 1]);
      ApplyOneDistinct(Apply(nodes, actions[..|actions| - 1]), actions[|actions| - 1]);
    }
  }

  // ---- one round is enough ----

  /** Some of the actions a plan asks for, in any order: the round may break off or single calls may fail. */
  predicate PartOfPlan(nodes: seq<Node>, actions: seq<Action>) {
    forall a :: a in actions ==> a in Plan(nodes)
  }

  /** A node that is online, is its group's keeper or has no hostname outlives every part of the plan; it may get
      the hostname as its given name if it is a keeper. */
  lemma Outlives(nodes: seq<Node>, actions: seq<Action>, n: Node) returns (m: Node)
    requires DistinctIds(nodes) && PartOfPlan(nodes, actions)
    requires n in nodes && (n.online || n.hostname == "" || Keeps(nodes, n))
    ensures m in Apply(nodes, actions) && Same(n, m)
    ensures m.givenName == n.givenName || (Keeps(nodes, n) && m.givenName == n.hostname != "")
  {
    FateIs(n, actions);
    PlanIsDue(nodes, Delete(n.id));
    forall k | Due(nodes, k, Delete(n.id)) ensures false {
      SameNode(nodes, n, k);
    }
    m := Fate(n, actions).value;
    ApplyIsFate(nodes, actions, m);
    if m.givenName != n.givenName {
      var a := Rename(n.id, m.givenName);
      PlanIsDue(nodes, a);
      var k :| Due(nodes, k, a);
      SameNode(nodes, n, k);
    }
  }

  /** Where the nodes of the result come from. */
  lemma Origin(nodes: seq<Node>, actions: seq<Action>, m: Node) returns (n: Node)
    requires m in Apply(nodes, actions)
    ensures n in nodes && Same(n, m) && Fate(n, actions) == Some(m) && Delete(n.id) !in actions
  {
    ApplyIsFate(nodes, actions, m);
    n :| n in nodes && Fate(n, actions) == Some(m);
    FateIs(n, actions);
  }

  /** Every group keeps its keeper, whatever part of the plan is carried out. */
  lemma KeeperStays(nodes: seq<Node>, actions: seq<Action>, n: Node) returns (m: Node)
    requires DistinctIds(nodes) && PartOfPlan(nodes, actions) && Keeps(nodes, n)
    ensures m in Apply(nodes, actions) && Same(n, m) && Keeps(Apply(nodes, actions), m)
  {
    var after := Apply(nodes, actions);
    m := Outlives(nodes, actions, n);
    SameNode(nodes, n, KeeperFor(nodes, n));
    var k := KeeperFor(after, m);
    var source := Origin(nodes, actions, k);
    assert RankAtMost(source, n);
    assert RankAtMost(k, m) && RankAtMost(m, k);
    RankTotal(k, m);
  }

  /** The whole plan removes exactly the offline nodes that are not their group's keeper. */
  lemma Survivors(nodes: seq<Node>, n: Node)
    requires DistinctIds(nodes) && n in nodes
    ensures (exists m :: m in Apply(nodes, Plan(nodes)) && m.id == n.id)
            <==> n.online || n.hostname == "" || Keeps(nodes, n)
  {
    var actions := Plan(nodes);
    if n.online || n.hostname == "" || Keeps(nodes, n) {
      var m := Outlives(nodes, actions, n);
    } else {
      assert Due(nodes, n, Delete(n.id));
      PlanIsDue(nodes, Delete(n.id));
      forall m | m in Apply(nodes, actions) ensures m.id != n.id {
        var source := Origin(nodes, actions, m);
      }
    }
  }

  /** After the plan the keeper of a group carries the hostname. */
  lemma KeeperIsNamed(nodes: seq<Node>, n: Node, m: Node)
    requires DistinctIds(nodes) && Keeps(nodes, n) && n.hostname != "" && Fate(n, Plan(nodes)) == Some(m)
    ensures m.givenName == m.hostname == n.hostname
  {
    var actions := Plan(nodes);
    FateIs(n, actions);
    if n.givenName != n.hostname {
      assert Due(nodes, n, Rename(n.id, n.hostname));
      PlanIsDue(nodes, Rename(n.id, n.hostname));
    }
    if Rename(n.id, m.givenName) in actions {
      PlanIsDue(nodes, Rename(n.id, m.givenName));
      var k :| Due(nodes, k, Rename(n.id, m.givenName));
      SameNode(nodes, n, k);
    }
  }

  /** Planning again on the result asks for nothing but skips. */
  lemma Converges(nodes: seq<Node>, a: Action)
    requires DistinctIds(nodes) && a in Plan(Apply(nodes, Plan(nodes)))
    ensures a.Skip?
  {
    var actions := Plan(nodes);
    var after := Apply(nodes, actions);
    ApplyDistinct(nodes, actions);
    PlanIsDue(after, a);
    var m :| Due(after, m, a);
    var n := Origin(nodes, actions, m);
    var keeper := KeeperFor(nodes, n);
    assert Keeps(nodes, keeper) by {
      assert Group(nodes, KeyOf(keeper)) == Group(nodes, KeyOf(n));
    }
    var kept := KeeperStays(nodes, actions, keeper);
    assert KeeperFor(after, m).id == kept.id by {
      assert KeyOf(m) == KeyOf(kept);
    }
    if Keeps(nodes, n) {
      KeeperIsNamed(nodes, n, m);
    } else if !n.online {
      assert Due(nodes, n, Delete(n.id));
      PlanIsDue(nodes, Delete(n.id));
    }
  }

  // ---- route approvals ----

  datatype RouteNode = RouteNode(id: string, available: seq<string>, approved: seq<string>)

  datatype Approval = Approval(id: string, routes: seq<string>)

  function Union(n: RouteNode): seq<string> {
    Sorted(Dedup(n.approved + n.available), AtMost)
  }

  predicate Complete(n: RouteNode) {
    forall r :: r in n.available ==> r in n.approved
  }

  function OneApproval(n: RouteNode): seq<Approval> {
    if n.id == "" || Complete(n) then [] else [Approval(n.id, Union(n))]
  }

  function Approvals(nodes: seq<RouteNode>): seq<Approval> {
    Collected(nodes, OneApproval)
  }

  method PlanApprovals(nodes: seq<RouteNode>) returns (out: seq<Approval>)
    ensures out == Approvals(nodes)
  {
    out := [];
    for i := 0 to |nodes|
      invariant out == Approvals(nodes[..i])
    {
      assert nodes[..i + 1][..i] == nodes[..i];
      var n := nodes[i];
      if n.id == "" {
        continue;
      }
      if !Complete(n) {
        out := out + [Approval(n.id, Union(n))];
      }
    }
    assert nodes[..|nodes|] == nodes;
  }

  /** The control server sets the approved routes of a node to what it is told. */
  function Approve(nodes: seq<RouteNode>, a: Approval): seq<RouteNode> {
    if nodes == [] then []
    else [if nodes[0].id == a.id then nodes[0].(approved := a.routes) else nodes[0]] + Approve(nodes[1..], a)
  }

  function ApproveAll(nodes: seq<RouteNode>, approvals: seq<Approval>): seq<RouteNode> {
    if approvals == [] then nodes
    else Approve(ApproveAll(nodes, approvals[..|approvals| - 1]), approvals[|approvals| - 1])
  }

  lemma UnionIs(n: RouteNode)
    ensures Ordered(Union(n), AtMost) && forall r :: r in Union(n) <==> r in n.approved || r in n.available
  {
    StringOrder();
    SortedOrdered(Dedup(n.approved + n.available), AtMost);
  }

  /** An approval adds to the routes of its node what the node advertises besides. */
  ghost predicate Completes(n: RouteNode, routes: seq<string>) {
    && n.id != "" && !Complete(n) && Ordered(routes, AtMost)
    && forall r :: r in routes <==> r in n.approved || r in n.available
  }

  lemma OneApprovalIs(n: RouteNode, a: Approval)
    requires a in OneApproval(n)
    ensures a.id == n.id && Completes(n, a.routes)
  {
    UnionIs(n);
  }

  predicate DistinctRouteIds(nodes: seq<RouteNode>) {
    forall i, j :: 0 <= i < j < |nodes| ==> nodes[i].id != nodes[j].id || nodes[i].id == ""
  }

  lemma ApprovalIs(nodes: seq<RouteNode>, a: Approval, i: nat)
    requires DistinctRouteIds(nodes) && i < |nodes| && a in Approvals(nodes) && a.id == nodes[i].id
    ensures Completes(nodes[i], a.routes)
  {
    InCollected(nodes, OneApproval, a);
    var j :| 0 <= j < |nodes| && a in OneApproval(nodes[j]);
    OneApprovalIs(nodes[j], a);
  }

  lemma ApprovalExists(nodes: seq<RouteNode>, i: nat) returns (a: Approval)
    requires i < |nodes| && nodes[i].id != "" && !Complete(nodes[i])
    ensures a in Approvals(nodes) && a.id == nodes[i].id
  {
    a := OneApproval(nodes[i])[0];
    InCollected(nodes, OneApproval, a);
  }

  lemma {:induction false} ApproveAt(nodes: seq<RouteNode>, a: Approval)
    ensures |Approve(nodes, a)| == |nodes|
    ensures forall i :: 0 <= i < |nodes| ==>
      Approve(nodes, a)[i] == if nodes[i].id == a.id then nodes[i].(approved := a.routes) else nodes[i]
  {
    if nodes != [] {
      ApproveAt(nodes[1..], a);
    }
  }

  /** After any approvals a node has the routes of one of its approvals, or its own when there is none. */
  lemma {:induction false} ApprovedIs(nodes: seq<RouteNode>, approvals: seq<Approval>, i: nat)
    requires i < |nodes|
    ensures var after := ApproveAll(nodes, approvals);
      && |after| == |nodes| && after[i] == nodes[i].(approved := after[i].approved)
      && if exists a :: a in approvals && a.id == nodes[i].id
         then Approval(nodes[i].id, after[i].approved) in approvals
         else after[i] == nodes[i]
  {
    if approvals != [] {
      var front, last := approvals[..|approvals| - 1], approvals[|approvals| - 1];
      ApprovedIs(nodes, front, i);
      ApproveAt(ApproveAll(nodes, front), last);
      assert approvals == front + [last];
    }
  }

  /** Carrying out any part of the approvals takes no route from a node and gives it none it does not advertise. */
  lemma ApprovalsOnlyAdd(nodes: seq<RouteNode>, approvals: seq<Approval>, i: nat)
    requires DistinctRouteIds(nodes) && i < |nodes| && forall a :: a in approvals ==> a in Approvals(nodes)
    ensures var after := ApproveAll(nodes, approvals);
      && |after| == |nodes| && after[i].id == nodes[i].id && after[i].available == nodes[i].available
      && (forall r :: r in nodes[i].approved ==> r in after[i].approved)
      && (forall r :: r in after[i].approved ==> r in nodes[i].approved || r in nodes[i].available)
  {
    var after := ApproveAll(nodes, approvals);
    ApprovedIs(nodes, approvals, i);
    var a := Approval(nodes[i].id, after[i].approved);
    if a in approvals {
      ApprovalIs(nodes, a, i);
    }
  }

  /** After all the approvals every route a node with an id advertises is approved, and none is left to approve. */
  lemma ApprovalsAreFinal(nodes: seq<RouteNode>)
    requires DistinctRouteIds(nodes)
    ensures var after := ApproveAll(nodes, Approvals(nodes));
      && (forall i :: 0 <= i < |after| && after[i].id != "" ==> Complete(after[i]))
      && Approvals(after) == []
  {
    var approvals := Approvals(nodes);
    var after := ApproveAll(nodes, approvals);
    if nodes != [] {
      ApprovedIs(nodes, approvals, 0);
    } else {
      ApproveNone(approvals);
    }
    forall i | 0 <= i < |after| && after[i].id != "" ensures Complete(after[i]) {
      ApprovedIs(nodes, approvals, i);
      OneIsComplete(nodes, i);
    }
    if Approvals(after) != [] {
      var a := Approvals(after)[0];
      InCollected(after, OneApproval, a);
    }
  }

  lemma {:induction false} ApproveNone(approvals: seq<Approval>)
    ensures ApproveAll([], approvals) == []
  {
    if approvals != [] {
      ApproveNone(approvals[..|approvals| - 1]);
    }
  }

  lemma OneIsComplete(nodes: seq<RouteNode>, i: nat)
    requires DistinctRouteIds(nodes) && i < |nodes| && nodes[i].id != ""
    ensures |ApproveAll(nodes, Approvals(nodes))| == |nodes| && Complete(ApproveAll(nodes, Approvals(nodes))[i])
  {
    var approvals := Approvals(nodes);
    var after := ApproveAll(nodes, approvals);
    ApprovedIs(nodes, approvals, i);
    if !Complete(nodes[i]) {
      var due := ApprovalExists(nodes, i);
    }
    var a := Approval(nodes[i].id, after[i].approved);
    if a in approvals {
      ApprovalIs(nodes, a, i);
    }
  }
}
