/**
 Related tags and the per-domain relation map they live in (src/data.rs).

 A relation map sends a tag name to the tags seen together with it, each with
 a co-occurrence count. The source keeps it in a hash map; here the map is a
 Dafny `map` together with the explicit order in which its keys are iterated.
 */
module Tags {

  /** A tag related to some other tag, with the number of co-occurrences. */
  datatype ConnectedTag = ConnectedTag(name: string, count: int)

  /** Tag name to its related tags. */
  type Adjacency = map<string, seq<ConnectedTag>>

  /** A relation map together with the order in which its keys are visited. */
  datatype RelationMap = RelationMap(entries: Adjacency, order: seq<string>) {

    /** `order` lists every key exactly once and nothing else. */
    ghost predicate Valid() {
      && (forall i, j :: 0 <= i < j < |order| ==> order[i] != order[j])
      && (forall k :: k in entries <==> k in order)
    }
  }

  /** Every count in `s` is at least one, so that it has a weight. */
  ghost predicate Weighable(s: seq<ConnectedTag>) {
    forall i :: 0 <= i < |s| ==> s[i].count >= 1
  }

  /** Every count stored in the map is at least one. */
  ghost predicate PositiveCounts(m: Adjacency) {
    forall k, t :: k in m && t in m[k] ==> t.count >= 1
  }

  /**
   The cost of stepping to a related tag: the more often two tags occur
   together, the cheaper the step. The source divides 1000.0 by the count
   and truncates; for a positive count that is integer division.
   */
  function Weight(count: int): nat
    requires count >= 1
  {
    1000 / count
  }

  /** A step to a more frequent co-occurrence never costs more. */
  lemma WeightAntitone(c1: int, c2: int)
    requires 1 <= c1 <= c2
    ensures Weight(c2) <= Weight(c1) <= 1000
  {
    var w1, w2 := 1000 / c1, 1000 / c2;
    assert w2 * c2 <= 1000;
    assert w2 * c1 <= w2 * c2;
    assert c1 * (w1 + 1) > 1000;
  }

  /** Each tag of `s` paired with its weight, in order. */
  function WithWeights(s: seq<ConnectedTag>): (r: seq<(ConnectedTag, nat)>)
    requires Weighable(s)
    ensures |r| == |s|
    ensures forall i :: 0 <= i < |s| ==> r[i] == (s[i], Weight(s[i].count))
  {
    if s == [] then [] else [(s[0], Weight(s[0].count))] + WithWeights(s[1..])
  }

  /**
   The search successors of `tag`: its entry in the map, each related tag
   with the weight of stepping to it; nothing when the tag is not a key.
   Only the name of `tag` is consulted.
   */
  function Neighbours(tag: ConnectedTag, m: Adjacency): (r: seq<(ConnectedTag, nat)>)
    requires PositiveCounts(m)
    ensures tag.name !in m ==> r == []
    ensures tag.name in m ==> |r| == |m[tag.name]|
    ensures tag.name in m ==>
      forall i :: 0 <= i < |r| ==> r[i] == (m[tag.name][i], Weight(m[tag.name][i].count))
    ensures forall t, w :: (t, w) in r <==>
      tag.name in m && t in m[tag.name] && t.count >= 1 && w == Weight(t.count)
  {
    if tag.name in m then
      var s := m[tag.name];
      var r := WithWeights(s);
      assert forall t, w :: (t, w) in r ==> t in s by {
        forall t, w | (t, w) in r ensures t in s {
          var i :| 0 <= i < |r| && r[i] == (t, w);
          assert s[i] == t;
        }
      }
      assert forall t :: t in s ==> (t, Weight(t.count)) in r by {
        forall t | t in s ensures (t, Weight(t.count)) in r {
          var i :| 0 <= i < |s| && s[i] == t;
          assert r[i] == (t, Weight(t.count));
        }
      }
      r
    else
      []
  }
}
