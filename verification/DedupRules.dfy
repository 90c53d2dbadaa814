/** The plan for duplicate nodes, told by users, hostnames and who outranks whom. */
module DedupRules {
  import opened NodeDedup

  /** A node of the same user and hostname goes first: an online one before an offline one, then the one seen last,
      then the one with the greater id. */
  predicate Outranks(k: Node, n: Node) {
    && k.user == n.user && k.hostname == n.hostname && k.id != n.id
    && if k.online != n.online then k.online
       else if k.lastSeen != n.lastSeen then k.lastSeen > n.lastSeen
       else !AtMost(k.id, n.id)
  }

  predicate Outranked(nodes: seq<Node>, n: Node) {
    exists k :: k in nodes && Outranks(k, n)
  }

  lemma KeptIffNotOutranked(nodes: seq<Node>, n: Node)
    requires DistinctIds(nodes) && n in nodes
    ensures Keeps(nodes, n) <==> !Outranked(nodes, n)
  {
    var k := KeeperFor(nodes, n);
    AtMostTotal(k.id, n.id);
    if k.id != n.id {
      assert RankAtMost(n, k) && KeyOf(k) == KeyOf(n);
      assert Outranks(k, n);
    } else {
      SameNode(nodes, k, n);
      forall m | m in nodes ensures !Outranks(m, n) {
        if m.user == n.user && m.hostname == n.hostname {
          assert KeyOf(m) == KeyOf(n);
          assert RankAtMost(m, n);
        }
      }
    }
  }

  lemma DueById(nodes: seq<Node>, n: Node, a: Action)
    requires DistinctIds(nodes) && n in nodes && a.id == n.id
    ensures a in Plan(nodes) <==> Due(nodes, n, a)
  {
    PlanIsDue(nodes, a);
    if k :| Due(nodes, k, a) {
      SameNode(nodes, k, n);
    }
  }

  /** What a plan asks for a node: it is deleted if and only if it is offline and outranked, passed over if it is
      online and outranked, and renamed if nobody outranks it and it goes by another name than its hostname. */
  lemma PlanForNode(nodes: seq<Node>, n: Node)
    requires DistinctIds(nodes) && n in nodes
    ensures Delete(n.id) in Plan(nodes) <==> n.hostname != "" && !n.online && Outranked(nodes, n)
    ensures Skip(n.id) in Plan(nodes) <==> n.hostname != "" && n.online && Outranked(nodes, n)
    ensures forall to :: Rename(n.id, to) in Plan(nodes) <==>
      n.hostname != "" && !Outranked(nodes, n) && to == n.hostname && n.givenName != to
  {
    KeptIffNotOutranked(nodes, n);
    DueById(nodes, n, Delete(n.id));
    DueById(nodes, n, Skip(n.id));
    forall to ensures Rename(n.id, to) in Plan(nodes) <==> Due(nodes, n, Rename(n.id, to)) {
      DueById(nodes, n, Rename(n.id, to));
    }
  }

  /** And nothing for anybody else. */
  lemma OnlyForNodes(nodes: seq<Node>, a: Action)
    requires DistinctIds(nodes) && a in Plan(nodes)
    ensures exists n :: n in nodes && n.id == a.id
  {
    PlanIsDue(nodes, a);
    var n :| Due(nodes, n, a);
  }
}
