/**
 Paths through one domain's relation graph, as the shortest-path query of
 src/data.rs explores it: a path starts at the query's start tag with count
 0, and every later node is an entry of the list stored for the previous
 node's name. Its cost is the sum of the weights of the entries stepped to.
 */
module Paths {
  import opened Tags

  /** `b` is one of the tags stored for `a`'s name (only the name of `a` matters). */
  ghost predicate Step(m: Adjacency, a: ConnectedTag, b: ConnectedTag) {
    a.name in m && b in m[a.name]
  }

  /** `p` is a path from `start` that the search can walk. */
  ghost predicate IsPath(m: Adjacency, start: string, p: seq<ConnectedTag>) {
    && |p| >= 1
    && p[0] == ConnectedTag(start, 0)
    && forall i :: 0 < i < |p| ==> Step(m, p[i - 1], p[i])
  }

  /** The final node of a path. */
  function Last(p: seq<ConnectedTag>): ConnectedTag
    requires |p| >= 1
  {
    p[|p| - 1]
  }

  /** The summed weight of stepping to each tag of `s` in turn. */
  function StepSum(s: seq<ConnectedTag>): nat
    requires Weighable(s)
  {
    if s == [] then 0 else StepSum(s[..|s| - 1]) + Weight(s[|s| - 1].count)
  }

  /** The cost of a path: the weights of every node after the start. */
  function PathCost(p: seq<ConnectedTag>): nat
    requires |p| >= 1 && Weighable(p[1..])
  {
    StepSum(p[1..])
  }

  /** Every node after the start of a path has a weight. */
  lemma PathWeighable(m: Adjacency, start: string, p: seq<ConnectedTag>)
    requires PositiveCounts(m) && IsPath(m, start, p)
    ensures Weighable(p[1..])
  {
    forall i | 0 <= i < |p| - 1 ensures p[1..][i].count >= 1 {
      assert Step(m, p[i], p[i + 1]);
    }
  }

  /** The cost of a concatenation is the sum of the costs. */
  lemma {:induction false} StepSumConcat(a: seq<ConnectedTag>, b: seq<ConnectedTag>)
    requires Weighable(a) && Weighable(b)
    ensures Weighable(a + b)
    ensures StepSum(a + b) == StepSum(a) + StepSum(b)
  {
    if b == [] {
      assert a + b == a;
    } else {
      var b' := b[..|b| - 1];
      StepSumConcat(a, b');
      assert (a + b)[..|a + b| - 1] == a + b';
      assert (a + b)[|a + b| - 1] == b[|b| - 1];
    }
  }

  /** Stepping from the end of a path to one of its stored tags extends it by that tag's weight. */
  lemma ExtendPath(m: Adjacency, start: string, p: seq<ConnectedTag>, t: ConnectedTag)
    requires PositiveCounts(m) && IsPath(m, start, p) && Step(m, Last(p), t)
    ensures IsPath(m, start, p + [t])
    ensures Weighable(p[1..]) && Weighable((p + [t])[1..])
    ensures PathCost(p + [t]) == PathCost(p) + Weight(t.count)
  {
    var q := p + [t];
    assert forall i :: 0 <= i < |p| ==> q[i] == p[i];
    PathWeighable(m, start, p);
    PathWeighable(m, start, q);
    assert q[1..][..|q[1..]| - 1] == p[1..];
  }

  /**
   The search's steps are exactly the successors `Neighbours` offers, each
   costing the weight it is offered with.
   */
  lemma StepIsNeighbour(m: Adjacency, a: ConnectedTag, b: ConnectedTag)
    requires PositiveCounts(m)
    ensures Step(m, a, b) <==> b.count >= 1 && (b, Weight(b.count)) in Neighbours(a, m)
  {
  }

  /** Every name a search can visit: the start, the keys, and every stored tag's name. */
  function NodeNames(m: Adjacency, start: string): (names: set<string>)
    ensures start in names
    ensures forall k, t :: k in m && t in m[k] ==> t.name in names
  {
    {start} + m.Keys + (set k, t | k in m && t in m[k] :: t.name)
  }

  /** A path stays within the node names. */
  lemma PathWithinNodes(m: Adjacency, start: string, p: seq<ConnectedTag>)
    requires IsPath(m, start, p)
    ensures forall i :: 0 <= i < |p| ==> p[i].name in NodeNames(m, start)
  {
    forall i | 0 < i < |p| ensures p[i].name in NodeNames(m, start) {
      assert Step(m, p[i - 1], p[i]);
    }
  }

  /** A sequence of tags longer than a set holding all their names repeats a name. */
  lemma {:induction false} RepeatedName(p: seq<ConnectedTag>, names: set<string>) returns (i: nat, j: nat)
    requires forall k :: 0 <= k < |p| ==> p[k].name in names
    requires |p| > |names|
    ensures i < j < |p| && p[i].name == p[j].name
  {
    if k :| 1 <= k < |p| && p[k].name == p[0].name {
      i, j := 0, k;
    } else {
      var rest := names - {p[0].name};
      assert |rest| == |names| - 1;
      forall k | 0 <= k < |p[1..]| ensures p[1..][k].name in rest {
        assert p[k + 1].name != p[0].name;
      }
      var i', j' := RepeatedName(p[1..], rest);
      i, j := i' + 1, j' + 1;
    }
  }

  /** Splicing out the nodes strictly after `i` up to and including `j` keeps a walkable path. */
  lemma CutLoopIsPath(m: Adjacency, start: string, p: seq<ConnectedTag>, i: nat, j: nat)
    requires IsPath(m, start, p)
    requires i < j < |p| && p[i].name == p[j].name
    ensures IsPath(m, start, p[..i + 1] + p[j + 1..])
  {
    var q := p[..i + 1] + p[j + 1..];
    assert forall k :: 0 <= k <= i ==> q[k] == p[k];
    assert forall k :: i < k < |q| ==> q[k] == p[k + j - i];
    forall k | 0 < k < |q| ensures Step(m, q[k - 1], q[k]) {
      if k <= i {
        assert Step(m, p[k - 1], p[k]);
      } else if k == i + 1 {
        assert Step(m, p[j], p[j + 1]);
      } else {
        assert Step(m, p[k - 1 + j - i], p[k + j - i]);
      }
    }
  }

  /** Dropping a middle part of a list of steps never makes it dearer. */
  lemma DropMiddleCost(a: seq<ConnectedTag>, loop: seq<ConnectedTag>, b: seq<ConnectedTag>)
    requires Weighable(a + loop + b)
    ensures Weighable(a + b)
    ensures StepSum(a + b) <= StepSum(a + loop + b)
  {
    var s := a + loop + b;
    assert forall k :: 0 <= k < |a| ==> a[k] == s[k];
    assert forall k :: 0 <= k < |loop| ==> loop[k] == s[|a| + k];
    assert forall k :: 0 <= k < |b| ==> b[k] == s[|a| + |loop| + k];
    StepSumConcat(a, loop);
    StepSumConcat(a + loop, b);
    StepSumConcat(a, b);
  }

  /**
   Cutting out the loop between two visits of the same name leaves a
   shorter path to the same end that costs no more.
   */
  lemma CutLoop(m: Adjacency, start: string, p: seq<ConnectedTag>, i: nat, j: nat)
    returns (q: seq<ConnectedTag>)
    requires PositiveCounts(m) && IsPath(m, start, p)
    requires i < j < |p| && p[i].name == p[j].name
    ensures IsPath(m, start, q) && |q| < |p| && Last(q).name == Last(p).name
    ensures Weighable(p[1..]) && Weighable(q[1..])
    ensures PathCost(q) <= PathCost(p)
  {
    q := p[..i + 1] + p[j + 1..];
    CutLoopIsPath(m, start, p, i, j);
    PathWeighable(m, start, p);
    var a, loop, b := p[1..i + 1], p[i + 1..j + 1], p[j + 1..];
    assert p[1..] == a + loop + b;
    assert q[1..] == a + b;
    DropMiddleCost(a, loop, b);
    if j + 1 == |p| {
      assert Last(q) == p[i];
    } else {
      assert Last(q) == Last(p);
    }
  }

  /**
   For every path there is one to the same name, no dearer, that visits
   each name at most once and so has at most as many nodes as there are
   names.
   */
  lemma {:induction false} ShortenPath(m: Adjacency, start: string, p: seq<ConnectedTag>)
    returns (q: seq<ConnectedTag>)
    requires PositiveCounts(m) && IsPath(m, start, p)
    ensures IsPath(m, start, q) && Last(q).name == Last(p).name
    ensures |q| <= |NodeNames(m, start)|
    ensures Weighable(p[1..]) && Weighable(q[1..])
    ensures PathCost(q) <= PathCost(p)
    decreases |p|
  {
    PathWeighable(m, start, p);
    if |p| <= |NodeNames(m, start)| {
      q := p;
    } else {
      PathWithinNodes(m, start, p);
      var i, j := RepeatedName(p, NodeNames(m, start));
      var cut := CutLoop(m, start, p, i, j);
      q := ShortenPath(m, start, cut);
    }
  }
}
