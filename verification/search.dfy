/**
 The shortest-path query of a domain (`MetaRelation::find_path` in
 src/data.rs). The source hands the search to a Dijkstra routine from an
 external crate; this model computes the same answer by repeated edge
 relaxation that carries an explicit path for every name reached, and
 states the answer relationally: a walkable path from the start to the
 goal, its cost the sum of its step weights, and no walkable path cheaper.
 */
module Search {
  import opened Optional
  import opened Tags
  import opened Relation
  import opened Paths

  /** The cheapest path found so far to each name reached. */
  type Frontier = map<string, seq<ConnectedTag>>

  /**
   Every recorded path is walkable, ends at the name it is recorded under and
   has a cost; the start keeps its one-node path.
   */
  ghost predicate Sound(m: Adjacency, start: string, best: Frontier) {
    && start in best && best[start] == [ConnectedTag(start, 0)]
    && forall v :: v in best ==>
         IsPath(m, start, best[v]) && Last(best[v]).name == v && Weighable(best[v][1..])
  }

  /**
   `best` answers every path of at most `k` steps: its end is reached, at a
   cost no higher.
   */
  ghost predicate Covers(m: Adjacency, start: string, best: Frontier, k: nat) {
    && Sound(m, start, best)
    && forall p :: IsPath(m, start, p) && |p| <= k + 1 && Weighable(p[1..]) ==>
         Last(p).name in best && PathCost(best[Last(p).name]) <= PathCost(p)
  }

  /** `b` reaches every name `a` reaches, each at a cost no higher. */
  ghost predicate Improves(m: Adjacency, start: string, a: Frontier, b: Frontier) {
    && Sound(m, start, a) && Sound(m, start, b)
    && forall v :: v in a ==> v in b && PathCost(b[v]) <= PathCost(a[v])
  }

  lemma ImprovesTransitive(m: Adjacency, start: string, a: Frontier, b: Frontier, c: Frontier)
    requires Improves(m, start, a, b) && Improves(m, start, b, c)
    ensures Improves(m, start, a, c)
  {
  }

  /** The start's one-node path costs nothing, so no path is strictly cheaper. */
  lemma StartIsCheapest(m: Adjacency, start: string, cur: Frontier, path: seq<ConnectedTag>)
    requires Sound(m, start, cur) && |path| >= 1 && Weighable(path[1..])
    ensures !(PathCost(path) < PathCost(cur[start]))
  {
    assert cur[start][1..] == [];
  }

  /** Recording a cheaper path under its end name keeps the frontier sound and improves it. */
  lemma RecordImproves(m: Adjacency, start: string, cur: Frontier, path: seq<ConnectedTag>)
    requires Sound(m, start, cur)
    requires IsPath(m, start, path) && Weighable(path[1..])
    requires var v := Last(path).name; v !in cur || PathCost(path) < PathCost(cur[v])
    ensures Improves(m, start, cur, cur[Last(path).name := path])
  {
    var v := Last(path).name;
    if v == start {
      StartIsCheapest(m, start, cur, path);
    }
    var r := cur[v := path];
    assert Sound(m, start, r);
  }

  /**
   Records `path` for the name it ends at when that name is new or the path
   is strictly cheaper than the one recorded.
   */
  function Offer(m: Adjacency, start: string, cur: Frontier, path: seq<ConnectedTag>): (r: Frontier)
    requires Sound(m, start, cur)
    requires IsPath(m, start, path) && Weighable(path[1..])
    ensures Improves(m, start, cur, r)
    ensures Last(path).name in r && PathCost(r[Last(path).name]) <= PathCost(path)
    ensures r.Keys == cur.Keys + {Last(path).name}
  {
    var v := Last(path).name;
    if v !in cur || PathCost(path) < PathCost(cur[v]) then
      RecordImproves(m, start, cur, path);
      cur[v := path]
    else
      cur
  }

  /** The first `j` stored edges out of `u` have been offered to `next`. */
  ghost predicate OfferedPrefix(m: Adjacency, start: string, best: Frontier, next: Frontier, u: string, j: nat) {
    && PositiveCounts(m) && Sound(m, start, best) && Sound(m, start, next)
    && u in best && u in m && j <= |m[u]|
    && forall i :: 0 <= i < j ==>
         m[u][i].name in next && PathCost(next[m[u][i].name]) <= PathCost(best[u]) + Weight(m[u][i].count)
  }

  /** Every stored edge out of `u` has been offered to `next`. */
  ghost predicate RelaxedFrom(m: Adjacency, start: string, best: Frontier, next: Frontier, u: string) {
    && PositiveCounts(m) && Sound(m, start, best) && Sound(m, start, next)
    && u in best && u in m
    && forall t :: t in m[u] ==>
         t.name in next && PathCost(next[t.name]) <= PathCost(best[u]) + Weight(t.count)
  }

  /** Improving a frontier keeps every edge offered to it offered. */
  lemma RelaxedFromImproved(m: Adjacency, start: string, best: Frontier, a: Frontier, b: Frontier, u: string)
    requires RelaxedFrom(m, start, best, a, u) && Improves(m, start, a, b)
    ensures RelaxedFrom(m, start, best, b, u)
  {
  }

  /** Offering the next edge out of `u` extends the offered prefix by one. */
  lemma OfferNext(m: Adjacency, start: string, best: Frontier, next: Frontier, u: string, j: nat)
    requires OfferedPrefix(m, start, best, next, u, j) && j < |m[u]|
    ensures IsPath(m, start, best[u] + [m[u][j]]) && Weighable((best[u] + [m[u][j]])[1..])
    ensures var next' := Offer(m, start, next, best[u] + [m[u][j]]);
      OfferedPrefix(m, start, best, next', u, j + 1) && Improves(m, start, next, next')
  {
    var t := m[u][j];
    ExtendPath(m, start, best[u], t);
  }

  /** An edge list offered in full is relaxed. */
  lemma OfferedAll(m: Adjacency, start: string, best: Frontier, next: Frontier, u: string)
    requires u in m && OfferedPrefix(m, start, best, next, u, |m[u]|)
    ensures RelaxedFrom(m, start, best, next, u)
  {
    forall t | t in m[u]
      ensures t.name in next && PathCost(next[t.name]) <= PathCost(best[u]) + Weight(t.count)
    {
      var i :| 0 <= i < |m[u]| && m[u][i] == t;
    }
  }

  /** Offers every stored edge out of `u`, in list order. */
  method RelaxFrom(m: Adjacency, start: string, best: Frontier, u: string, cur: Frontier)
    returns (next: Frontier)
    requires PositiveCounts(m)
    requires Sound(m, start, best) && u in best && u in m
    requires Sound(m, start, cur)
    ensures Improves(m, start, cur, next)
    ensures RelaxedFrom(m, start, best, next, u)
  {
    var tags := m[u];
    next := cur;
    for j := 0 to |tags|
      invariant Improves(m, start, cur, next)
      invariant OfferedPrefix(m, start, best, next, u, j)
    {
      OfferNext(m, start, best, next, u, j);
      var before := next;
      next := Offer(m, start, next, best[u] + [tags[j]]);
      ImprovesTransitive(m, start, cur, before, next);
    }
    OfferedAll(m, start, best, next, u);
  }

  /**
   Every stored edge `u -> t` out of a name `u` reached in `best` has been
   offered to `next`: `t`'s name is reached there at a cost no higher than
   going through `u`.
   */
  ghost predicate EdgesRelaxed(m: Adjacency, start: string, best: Frontier, next: Frontier) {
    && PositiveCounts(m) && Sound(m, start, best) && Sound(m, start, next)
    && forall u, t :: u in best && u in m && t in m[u] ==>
         t.name in next && PathCost(next[t.name]) <= PathCost(best[u]) + Weight(t.count)
  }

  /** The first `i` names of `order` that `best` reaches have had their edges offered to `next`. */
  ghost predicate RelaxedUpTo(m: Adjacency, start: string, best: Frontier, next: Frontier, order: seq<string>, i: nat) {
    forall j :: 0 <= j < i <= |order| && order[j] in best ==> RelaxedFrom(m, start, best, next, order[j])
  }

  lemma RelaxedUpToImproved(m: Adjacency, start: string, best: Frontier, a: Frontier, b: Frontier,
                            order: seq<string>, i: nat)
    requires RelaxedUpTo(m, start, best, a, order, i) && Improves(m, start, a, b)
    ensures RelaxedUpTo(m, start, best, b, order, i)
  {
    forall j | 0 <= j < i <= |order| && order[j] in best
      ensures RelaxedFrom(m, start, best, b, order[j])
    {
      RelaxedFromImproved(m, start, best, a, b, order[j]);
    }
  }

  /** Relaxing every key of the map relaxes every stored edge from a reached name. */
  lemma RelaxedAllEdges(m: Adjacency, start: string, best: Frontier, next: Frontier, order: seq<string>)
    requires PositiveCounts(m) && Sound(m, start, best) && Sound(m, start, next)
    requires forall k :: k in m <==> k in order
    requires RelaxedUpTo(m, start, best, next, order, |order|)
    ensures EdgesRelaxed(m, start, best, next)
  {
    forall u, t | u in best && u in m && t in m[u]
      ensures t.name in next && PathCost(next[t.name]) <= PathCost(best[u]) + Weight(t.count)
    {
      var j :| 0 <= j < |order| && order[j] == u;
      assert RelaxedFrom(m, start, best, next, order[j]);
    }
  }

  /** Relaxes the edges out of the `i`-th name of `order` when `best` reaches it. */
  method RelaxNth(m: Adjacency, order: seq<string>, start: string, best: Frontier, cur: Frontier, i: nat)
    returns (next: Frontier)
    requires PositiveCounts(m) && i < |order| && order[i] in m
    requires Improves(m, start, best, cur) && RelaxedUpTo(m, start, best, cur, order, i)
    ensures Improves(m, start, best, next) && RelaxedUpTo(m, start, best, next, order, i + 1)
  {
    var u := order[i];
    if u in best {
      next := RelaxFrom(m, start, best, u, cur);
      ImprovesTransitive(m, start, best, cur, next);
      RelaxedUpToImproved(m, start, best, cur, next, order, i);
    } else {
      next := cur;
    }
  }

  /**
   One round of relaxation: every stored edge `u -> t` from a name `u`
   already reached offers the path to `u` extended by `t`; it replaces the
   path recorded for `t`'s name when that name is new or the offer is
   strictly cheaper. Names are visited in the map's iteration order.
   */
  method Relax(m: Adjacency, order: seq<string>, start: string, best: Frontier)
    returns (next: Frontier)
    requires PositiveCounts(m)
    requires forall k :: k in m <==> k in order
    requires Sound(m, start, best)
    ensures Improves(m, start, best, next)
    ensures EdgesRelaxed(m, start, best, next)
  {
    next := best;
    for i := 0 to |order|
      invariant Improves(m, start, best, next)
      invariant RelaxedUpTo(m, start, best, next, order, i)
    {
      next := RelaxNth(m, order, start, best, next, i);
    }
    RelaxedAllEdges(m, start, best, next, order);
  }

  /** A prefix of a walkable path is walkable. */
  lemma PrefixIsPath(m: Adjacency, start: string, p: seq<ConnectedTag>, n: nat)
    requires IsPath(m, start, p) && 1 <= n <= |p|
    ensures IsPath(m, start, p[..n])
  {
    forall i | 0 < i < n ensures Step(m, p[..n][i - 1], p[..n][i]) {
      assert Step(m, p[i - 1], p[i]);
    }
  }

  /** Before any round only the start is reached, which answers every path of no steps. */
  lemma CoversInitially(m: Adjacency, start: string)
    ensures Covers(m, start, map[start := [ConnectedTag(start, 0)]], 0)
  {
    var best := map[start := [ConnectedTag(start, 0)]];
    assert [ConnectedTag(start, 0)][1..] == [];
    forall p | IsPath(m, start, p) && |p| <= 1 && Weighable(p[1..])
      ensures Last(p).name in best && PathCost(best[Last(p).name]) <= PathCost(p)
    {
      assert p == [ConnectedTag(start, 0)];
    }
  }

  /** A path of two or more nodes is a shorter path extended by one step. */
  lemma LastStep(m: Adjacency, start: string, p: seq<ConnectedTag>)
    requires IsPath(m, start, p) && |p| >= 2
    ensures IsPath(m, start, p[..|p| - 1])
    ensures p[..|p| - 1] + [Last(p)] == p
    ensures Step(m, Last(p[..|p| - 1]), Last(p))
  {
    PrefixIsPath(m, start, p, |p| - 1);
    assert Step(m, p[|p| - 2], p[|p| - 1]);
  }

  /** What `Covers` promises about one path. */
  lemma CoveredPath(m: Adjacency, start: string, best: Frontier, k: nat, p: seq<ConnectedTag>)
    requires Covers(m, start, best, k)
    requires IsPath(m, start, p) && |p| <= k + 1 && Weighable(p[1..])
    ensures Last(p).name in best && PathCost(best[Last(p).name]) <= PathCost(p)
  {
  }

  /** What `EdgesRelaxed` promises about one edge. */
  lemma RelaxedEdge(m: Adjacency, start: string, best: Frontier, next: Frontier, u: string, t: ConnectedTag)
    requires EdgesRelaxed(m, start, best, next)
    requires u in best && u in m && t in m[u]
    ensures t.name in next && PathCost(next[t.name]) <= PathCost(best[u]) + Weight(t.count)
  {
  }

  /** A path one step longer than those `best` answers is answered by the next round. */
  lemma CoveredAfterRelax(m: Adjacency, start: string, best: Frontier, next: Frontier, k: nat,
                          p: seq<ConnectedTag>)
    requires Covers(m, start, best, k) && EdgesRelaxed(m, start, best, next)
    requires IsPath(m, start, p) && |p| == k + 2 && Weighable(p[1..])
    ensures Last(p).name in next && PathCost(next[Last(p).name]) <= PathCost(p)
  {
    var front, t := p[..|p| - 1], Last(p);
    LastStep(m, start, p);
    ExtendPath(m, start, front, t);
    CoveredPath(m, start, best, k, front);
    RelaxedEdge(m, start, best, next, Last(front).name, t);
  }

  /** A path `best` already answers is answered at least as well by an improvement of it. */
  lemma CoveredBefore(m: Adjacency, start: string, best: Frontier, next: Frontier, k: nat,
                      p: seq<ConnectedTag>)
    requires Covers(m, start, best, k) && Improves(m, start, best, next)
    requires IsPath(m, start, p) && |p| <= k + 1 && Weighable(p[1..])
    ensures Last(p).name in next && PathCost(next[Last(p).name]) <= PathCost(p)
  {
    assert Last(p).name in best;
  }

  /** A relaxation round extends the answered paths by one step. */
  lemma CoversAfterRelax(m: Adjacency, start: string, best: Frontier, next: Frontier, k: nat)
    requires Covers(m, start, best, k)
    requires Improves(m, start, best, next) && EdgesRelaxed(m, start, best, next)
    ensures Covers(m, start, next, k + 1)
  {
    forall p | IsPath(m, start, p) && |p| <= k + 2 && Weighable(p[1..])
      ensures Last(p).name in next && PathCost(next[Last(p).name]) <= PathCost(p)
    {
      if |p| > k + 1 {
        CoveredAfterRelax(m, start, best, next, k, p);
      } else {
        CoveredBefore(m, start, best, next, k, p);
      }
    }
  }

  /**
   The cheapest path from `start` to `goal` and its cost. A goal that is not
   a key of the map is refused at once, even when some list names it.
   */
  method FindPath(meta: MetaRelation, start: string, goal: string)
    returns (r: Option<(seq<ConnectedTag>, nat)>)
    requires meta.relationMap.Valid()
    requires PositiveCounts(meta.relationMap.entries)
    ensures goal !in meta.relationMap.entries ==> r == None
    ensures r.Some? ==>
      var (path, cost) := r.value;
      && IsPath(meta.relationMap.entries, start, path)
      && Last(path).name == goal
      && Weighable(path[1..])
      && cost == PathCost(path)
    ensures r.Some? ==>
      forall p :: IsPath(meta.relationMap.entries, start, p) && Last(p).name == goal ==>
        Weighable(p[1..]) && r.value.1 <= PathCost(p)
    ensures goal in meta.relationMap.entries && r == None ==>
      forall p :: IsPath(meta.relationMap.entries, start, p) ==> Last(p).name != goal
    ensures goal in meta.relationMap.entries && start == goal ==>
      r == Some(([ConnectedTag(start, 0)], 0))
  {
    var m := meta.relationMap.entries;
    if goal !in m {
      return None;
    }
    var rounds := |NodeNames(m, start)| - 1;
    var best: Frontier := map[start := [ConnectedTag(start, 0)]];
    CoversInitially(m, start);
    for k := 0 to rounds
      invariant Covers(m, start, best, k)
    {
      var next := Relax(m, meta.relationMap.order, start, best);
      CoversAfterRelax(m, start, best, next, k);
      best := next;
    }
    forall p | IsPath(m, start, p) && Last(p).name == goal
      ensures Weighable(p[1..]) && goal in best && PathCost(best[goal]) <= PathCost(p)
    {
      var q := ShortenPath(m, start, p);
    }
    if goal in best {
      assert [ConnectedTag(start, 0)][1..] == [];
      r := Some((best[goal], PathCost(best[goal])));
    } else {
      r := None;
    }
  }
}
