/** The clustering step of `get_ordered_partitions`: the ops met by a
    topological visit are grouped by the partition they were assigned, the
    groups in the order their partitions are first met, each group in visit
    order. Ops without a partition are skipped. The visit order itself is an
    input. */
module Partitions {
  import opened Wrappers
  import opened Graphs
  import opened Rewriting

  /** Every visited op is in the op store. */
  predicate Known(visit: seq<OpId>, opNodes: map<OpId, Op>) {
    forall k | 0 <= k < |visit| :: visit[k] in opNodes
  }

  /** The partitions of the visited ops, each once, in order of first
      appearance. */
  function Parts(visit: seq<OpId>, opNodes: map<OpId, Op>): (ps: seq<nat>)
    requires Known(visit, opNodes)
    ensures forall a, b | 0 <= a < b < |ps| :: ps[a] != ps[b]
    ensures |ps| <= |visit|
  {
    if visit == [] then []
    else
      var ps := Parts(visit[..|visit| - 1], opNodes);
      var q := opNodes[visit[|visit| - 1]].partition;
      if q.Some? && q.value !in ps then ps + [q.value] else ps
  }

  /** The visited ops of partition p, in visit order. */
  function Members(visit: seq<OpId>, opNodes: map<OpId, Op>, p: nat): (r: seq<OpId>)
    requires Known(visit, opNodes)
    ensures Known(r, opNodes) && |r| <= |visit|
  {
    if visit == [] then []
    else
      var last := visit[|visit| - 1];
      Members(visit[..|visit| - 1], opNodes, p) + (if opNodes[last].partition == Some(p) then [last] else [])
  }

  /** A partition is listed exactly when some visited op carries it. */
  lemma {:induction false} PartsListed(visit: seq<OpId>, opNodes: map<OpId, Op>, p: nat)
    requires Known(visit, opNodes)
    ensures p in Parts(visit, opNodes) <==> exists k | 0 <= k < |visit| :: opNodes[visit[k]].partition == Some(p)
  {
    if visit != [] {
      var prefix := visit[..|visit| - 1];
      PartsListed(prefix, opNodes, p);
      assert forall k | 0 <= k < |prefix| :: prefix[k] == visit[k];
      if exists k | 0 <= k < |visit| :: opNodes[visit[k]].partition == Some(p) {
        var k :| 0 <= k < |visit| && opNodes[visit[k]].partition == Some(p);
        if k < |prefix| {
          assert opNodes[prefix[k]].partition == Some(p);
        }
      }
    }
  }

  /** The members of p are the visited ops carrying p. */
  lemma {:induction false} MembersExact(visit: seq<OpId>, opNodes: map<OpId, Op>, p: nat, o: OpId)
    requires Known(visit, opNodes)
    ensures o in Members(visit, opNodes, p) <==> o in visit && opNodes[o].partition == Some(p)
  {
    if visit != [] {
      var prefix := visit[..|visit| - 1];
      MembersExact(prefix, opNodes, p, o);
      assert visit == prefix + [visit[|visit| - 1]];
    }
  }

  /** The groups `get_ordered_partitions` hands to `rewrite`. */
  function Clusters(visit: seq<OpId>, opNodes: map<OpId, Op>): seq<seq<OpId>>
    requires Known(visit, opNodes)
  {
    var ps := Parts(visit, opNodes);
    seq(|ps|, g requires 0 <= g < |ps| => Members(visit, opNodes, ps[g]))
  }

  /** The clustering loop: each visited op with a partition joins the group
      whose first op has the same partition, or starts a new group. */
  method Cluster(visit: seq<OpId>, opNodes: map<OpId, Op>) returns (fusionOps: seq<seq<OpId>>)
    requires Known(visit, opNodes)
    ensures fusionOps == Clusters(visit, opNodes)
  {
    fusionOps := [];
    assert Known(visit[..0], opNodes);
    for k := 0 to |visit|
      invariant Known(visit[..k], opNodes)
      invariant fusionOps == Clusters(visit[..k], opNodes)
    {
      var n := visit[k];
      var part := opNodes[n].partition;
      ghost var prefix := visit[..k];
      ghost var ps := Parts(prefix, opNodes);
      assert visit[..k + 1] == prefix + [n];
      GroupsHeaded(prefix, opNodes);
      if part.Some? {
        var pos := 0;
        while pos < |fusionOps| && opNodes[fusionOps[pos][0]].partition != part
          invariant 0 <= pos <= |fusionOps|
          invariant forall g | 0 <= g < pos :: ps[g] != part.value
        {
          pos := pos + 1;
        }
        if pos < |fusionOps| {
          JoinGroup(prefix, opNodes, n, pos);
          fusionOps := fusionOps[pos := fusionOps[pos] + [n]];
        } else {
          NewGroup(prefix, opNodes, n);
          fusionOps := fusionOps + [[n]];
        }
      } else {
        Unassigned(prefix, opNodes, n);
      }
    }
    assert visit[..|visit|] == visit;
  }

  /** Every group is non-empty and its first op carries the group's
      partition. */
  lemma GroupsHeaded(visit: seq<OpId>, opNodes: map<OpId, Op>)
    requires Known(visit, opNodes)
    ensures forall g | 0 <= g < |Parts(visit, opNodes)| ::
              Members(visit, opNodes, Parts(visit, opNodes)[g]) != []
              && opNodes[Members(visit, opNodes, Parts(visit, opNodes)[g])[0]].partition == Some(Parts(visit, opNodes)[g])
  {
    var ps := Parts(visit, opNodes);
    forall g | 0 <= g < |ps|
      ensures Members(visit, opNodes, ps[g]) != []
              && opNodes[Members(visit, opNodes, ps[g])[0]].partition == Some(ps[g])
    {
      var ms := Members(visit, opNodes, ps[g]);
      PartsListed(visit, opNodes, ps[g]);
      var k :| 0 <= k < |visit| && opNodes[visit[k]].partition == Some(ps[g]);
      MembersExact(visit, opNodes, ps[g], visit[k]);
      MembersExact(visit, opNodes, ps[g], ms[0]);
    }
  }

  /** An op without a partition changes no group. */
  lemma Unassigned(visit: seq<OpId>, opNodes: map<OpId, Op>, n: OpId)
    requires Known(visit, opNodes) && n in opNodes && opNodes[n].partition == None
    ensures Known(visit + [n], opNodes) && Clusters(visit + [n], opNodes) == Clusters(visit, opNodes)
  {
    var v := visit + [n];
    assert v[..|v| - 1] == visit;
    var ps := Parts(visit, opNodes);
    assert Parts(v, opNodes) == ps;
    forall g | 0 <= g < |ps|
      ensures Members(v, opNodes, ps[g]) == Members(visit, opNodes, ps[g])
    {
    }
  }

  /** An op of an already met partition is appended to that group. */
  lemma JoinGroup(visit: seq<OpId>, opNodes: map<OpId, Op>, n: OpId, pos: nat)
    requires Known(visit, opNodes) && n in opNodes
    requires pos < |Parts(visit, opNodes)| && opNodes[n].partition == Some(Parts(visit, opNodes)[pos])
    ensures Known(visit + [n], opNodes)
    ensures Clusters(visit + [n], opNodes)
            == Clusters(visit, opNodes)[pos := Clusters(visit, opNodes)[pos] + [n]]
  {
    var v := visit + [n];
    assert v[..|v| - 1] == visit;
    var ps := Parts(visit, opNodes);
    assert Parts(v, opNodes) == ps;
    var before, after := Clusters(visit, opNodes), Clusters(v, opNodes);
    forall g | 0 <= g < |ps|
      ensures after[g] == before[pos := before[pos] + [n]][g]
    {
      assert after[g] == Members(v, opNodes, ps[g]);
      assert Members(v, opNodes, ps[g])
             == Members(visit, opNodes, ps[g]) + (if ps[pos] == ps[g] then [n] else []);
    }
  }

  /** An op of a partition not met before starts a new group. */
  lemma NewGroup(visit: seq<OpId>, opNodes: map<OpId, Op>, n: OpId)
    requires Known(visit, opNodes) && n in opNodes
    requires opNodes[n].partition.Some? && opNodes[n].partition.value !in Parts(visit, opNodes)
    ensures Known(visit + [n], opNodes)
    ensures Clusters(visit + [n], opNodes) == Clusters(visit, opNodes) + [[n]]
  {
    var v := visit + [n];
    assert v[..|v| - 1] == visit;
    var p := opNodes[n].partition.value;
    var ps := Parts(visit, opNodes);
    assert Parts(v, opNodes) == ps + [p];
    assert Members(visit, opNodes, p) == [] by {
      if Members(visit, opNodes, p) != [] {
        var o := Members(visit, opNodes, p)[0];
        MembersExact(visit, opNodes, p, o);
        var k :| 0 <= k < |visit| && visit[k] == o;
        PartsListed(visit, opNodes, p);
      }
    }
    var before, after := Clusters(visit, opNodes), Clusters(v, opNodes);
    forall g | 0 <= g < |ps| + 1
      ensures after[g] == (before + [[n]])[g]
    {
      if g < |ps| {
        assert after[g] == Members(v, opNodes, ps[g]);
      }
    }
  }

  /** The clusters split the visited ops that have a partition: such an op is
      in cluster g exactly when its partition is the g-th one met. */
  lemma ClustersPartitionOps(visit: seq<OpId>, opNodes: map<OpId, Op>, o: OpId, g: nat)
    requires Known(visit, opNodes) && g < |Clusters(visit, opNodes)|
    ensures o in Clusters(visit, opNodes)[g] <==>
              o in visit && opNodes[o].partition == Some(Parts(visit, opNodes)[g])
  {
    MembersExact(visit, opNodes, Parts(visit, opNodes)[g], o);
  }

  /** Every visited op with a partition lands in some cluster. */
  lemma ClustersCoverOps(visit: seq<OpId>, opNodes: map<OpId, Op>, k: nat)
    requires Known(visit, opNodes) && k < |visit| && opNodes[visit[k]].partition.Some?
    ensures exists g | 0 <= g < |Clusters(visit, opNodes)| :: visit[k] in Clusters(visit, opNodes)[g]
  {
    var p := opNodes[visit[k]].partition.value;
    PartsListed(visit, opNodes, p);
    var ps := Parts(visit, opNodes);
    var g :| 0 <= g < |ps| && ps[g] == p;
    MembersExact(visit, opNodes, p, visit[k]);
    assert visit[k] in Clusters(visit, opNodes)[g];
  }

  /** Groups come in the order their partitions are first met: wherever the
      b-th partition occurs, the a-th (a < b) occurred earlier. */
  lemma {:induction false} PartsInFirstSeenOrder(visit: seq<OpId>, opNodes: map<OpId, Op>, a: nat, b: nat, k: nat)
    requires Known(visit, opNodes)
    requires a < b < |Parts(visit, opNodes)| && k < |visit|
    requires opNodes[visit[k]].partition == Some(Parts(visit, opNodes)[b])
    ensures exists k' | 0 <= k' < k :: opNodes[visit[k']].partition == Some(Parts(visit, opNodes)[a])
  {
    var prefix := visit[..|visit| - 1];
    var ps := Parts(visit, opNodes);
    var pps := Parts(prefix, opNodes);
    assert forall j | 0 <= j < |prefix| :: prefix[j] == visit[j];
    assert ps[a] == pps[a];
    if k == |visit| - 1 && b >= |pps| {
      PartsListed(prefix, opNodes, pps[a]);
      var k' :| 0 <= k' < |prefix| && opNodes[prefix[k']].partition == Some(pps[a]);
    } else {
      var k2 := k;
      if k == |visit| - 1 {
        PartsListed(prefix, opNodes, pps[b]);
        k2 :| 0 <= k2 < |prefix| && opNodes[prefix[k2]].partition == Some(pps[b]);
      } else {
        PartsListed(prefix, opNodes, ps[b]);
        assert b < |pps|;
      }
      PartsInFirstSeenOrder(prefix, opNodes, a, b, k2);
      var k' :| 0 <= k' < k2 && opNodes[prefix[k']].partition == Some(pps[a]);
    }
  }

  /** The members of a partition of a visit without repeats have no
      repeats. */
  lemma {:induction false} MembersDistinct(visit: seq<OpId>, opNodes: map<OpId, Op>, p: nat)
    requires Known(visit, opNodes) && Distinct(visit)
    ensures Distinct(Members(visit, opNodes, p))
  {
    if visit != [] {
      var prefix := visit[..|visit| - 1];
      var last := visit[|visit| - 1];
      assert Distinct(prefix);
      MembersDistinct(prefix, opNodes, p);
      MembersExact(prefix, opNodes, p, last);
      assert last !in prefix;
    }
  }

  /** The clusters of a visit over graph ops, each op visited once, are what
      `rewrite` expects: non-empty groups of distinct graph ops, no op in two
      groups. */
  lemma ClustersFitRewrite(visit: seq<OpId>, opNodes: map<OpId, Op>, ops: seq<OpId>)
    requires Known(visit, opNodes) && Distinct(visit)
    requires forall k | 0 <= k < |visit| :: visit[k] in ops
    ensures forall g | 0 <= g < |Clusters(visit, opNodes)| :: PatternOk(Clusters(visit, opNodes)[g], ops)
    ensures PatternsDisjoint(Clusters(visit, opNodes))
  {
    var cs := Clusters(visit, opNodes);
    var ps := Parts(visit, opNodes);
    GroupsHeaded(visit, opNodes);
    forall g | 0 <= g < |cs|
      ensures PatternOk(cs[g], ops)
    {
      MembersDistinct(visit, opNodes, ps[g]);
      forall i | 0 <= i < |cs[g]|
        ensures cs[g][i] in ops
      {
        MembersExact(visit, opNodes, ps[g], cs[g][i]);
      }
    }
    forall g1, g2, i, j | 0 <= g1 < g2 < |cs| && 0 <= i < |cs[g1]| && 0 <= j < |cs[g2]|
      ensures cs[g1][i] != cs[g2][j]
    {
      MembersExact(visit, opNodes, ps[g1], cs[g1][i]);
      MembersExact(visit, opNodes, ps[g2], cs[g2][j]);
    }
  }
}
