/**
 One domain's relation graph (`MetaRelation` in src/data.rs): loading,
 the top-N query, and the derivation of the domain name from a file name.
 Reading the directory and parsing JSON are outside the model: a relation
 file reaches it already parsed, as a `RelationMap`.
 */
module Relation {
  import opened Tags
  import opened Sorting

  /** A domain (one Stack Exchange site) and its relation map. */
  datatype MetaRelation = MetaRelation(domain: string, relationMap: RelationMap)

  /** Every tag list of the map is ordered by count, highest first. */
  ghost predicate Ranked(rel: RelationMap) {
    forall k :: k in rel.entries ==> NonIncreasing(rel.entries[k])
  }

  /**
   Builds a domain from its parsed relation file: every tag list is sorted
   by count, highest first, keeping the file order among equal counts. The
   keys and their iteration order are those of the parsed map.
   */
  function Load(domain: string, parsed: RelationMap): (meta: MetaRelation)
    ensures meta.domain == domain
    ensures meta.relationMap.order == parsed.order
    ensures meta.relationMap.entries.Keys == parsed.entries.Keys
    ensures forall k :: k in parsed.entries ==>
      StablySorted(meta.relationMap.entries[k], parsed.entries[k])
    ensures parsed.Valid() ==> meta.relationMap.Valid()
    ensures Ranked(meta.relationMap)
    ensures PositiveCounts(parsed.entries) ==> PositiveCounts(meta.relationMap.entries)
  {
    var sorted := map k | k in parsed.entries :: SortByCount(parsed.entries[k]);
    assert PositiveCounts(parsed.entries) ==> PositiveCounts(sorted) by {
      if PositiveCounts(parsed.entries) {
        forall k, t | k in sorted && t in sorted[k] ensures t.count >= 1 {
          assert t in multiset(parsed.entries[k]);
        }
      }
    }
    MetaRelation(domain, RelationMap(sorted, parsed.order))
  }

  /**
   The first `n` related tags of `tag` as stored (fewer when the list is
   shorter); nothing when `tag` is not a key of the map.
   */
  function FindTopN(meta: MetaRelation, tag: string, n: nat): (r: seq<ConnectedTag>)
    ensures tag !in meta.relationMap.entries ==> r == []
    ensures tag in meta.relationMap.entries ==>
      var tags := meta.relationMap.entries[tag];
      && |r| == (if n < |tags| then n else |tags|)
      && forall i :: 0 <= i < |r| ==> r[i] == tags[i]
  {
    var entries := meta.relationMap.entries;
    if tag in entries then
      var tags := entries[tag];
      if n < |tags| then tags[..n] else tags
    else
      []
  }

  /** A prefix of a non-increasing list counts at least as much as everything after it. */
  lemma PrefixOutranksRest(sorted: seq<ConnectedTag>, m: nat)
    requires NonIncreasing(sorted) && m <= |sorted|
    ensures forall x, y :: x in sorted[..m] && y in multiset(sorted) - multiset(sorted[..m]) ==>
      x.count >= y.count
  {
    var r, rest := sorted[..m], sorted[m..];
    assert sorted == r + rest;
    assert multiset(sorted) == multiset(r) + multiset(rest);
    forall x, y | x in r && y in multiset(sorted) - multiset(r)
      ensures x.count >= y.count
    {
      assert y in multiset(rest);
      var i :| 0 <= i < |r| && r[i] == x;
      var j :| 0 <= j < |rest| && rest[j] == y;
      assert sorted[i] == x && sorted[m + j] == y;
    }
  }

  /** The first `m` entries of a ranked permutation of `tags` are the strongest `m` of `tags`. */
  lemma RankedPrefixIsTop(tags: seq<ConnectedTag>, sorted: seq<ConnectedTag>, m: nat)
    requires NonIncreasing(sorted) && multiset(sorted) == multiset(tags) && m <= |sorted|
    ensures NonIncreasing(sorted[..m])
    ensures multiset(sorted[..m]) <= multiset(tags)
    ensures forall x, y :: x in sorted[..m] && y in multiset(tags) - multiset(sorted[..m]) ==>
      x.count >= y.count
  {
    assert sorted == sorted[..m] + sorted[m..];
    assert multiset(sorted) == multiset(sorted[..m]) + multiset(sorted[m..]);
    PrefixOutranksRest(sorted, m);
  }

  /**
   On a loaded domain the top-N query really returns the strongest
   relations: at most `n` entries of the parsed list, counts non-increasing,
   none of the entries left out counting more than one that was kept, and
   all of them when `n` reaches the list's length.
   */
  lemma TopNOfLoaded(domain: string, parsed: RelationMap, tag: string, n: nat)
    requires tag in parsed.entries
    ensures var r := FindTopN(Load(domain, parsed), tag, n);
      var tags := parsed.entries[tag];
      && NonIncreasing(r)
      && |r| == (if n < |tags| then n else |tags|)
      && multiset(r) <= multiset(tags)
      && (forall x, y :: x in r && y in multiset(tags) - multiset(r) ==> x.count >= y.count)
      && (n >= |tags| ==> multiset(r) == multiset(tags))
  {
    var tags := parsed.entries[tag];
    var sorted := SortByCount(tags);
    assert Load(domain, parsed).relationMap.entries[tag] == sorted;
    assert |sorted| == |tags| by {
      assert |multiset(sorted)| == |multiset(tags)|;
    }
    var m := if n < |tags| then n else |tags|;
    var r := FindTopN(Load(domain, parsed), tag, n);
    assert r == sorted[..m];
    RankedPrefixIsTop(tags, sorted, m);
    if n >= |tags| {
      assert r == sorted;
    }
  }

  /**
   The domain named by a dataset file: the file name up to its first '.',
   or the whole name when it has none.
   */
  function DomainName(fileName: string): (d: string)
    ensures '.' !in d
    ensures |d| <= |fileName| && d == fileName[..|d|]
    ensures |d| < |fileName| ==> fileName[|d|] == '.'
  {
    if fileName == [] || fileName[0] == '.' then []
    else [fileName[0]] + DomainName(fileName[1..])
  }

  /** A file named `stem.ext` (or just `stem`) holds domain `stem`. */
  lemma {:induction false} DomainNameOfStem(stem: string, ext: string)
    requires '.' !in stem
    ensures DomainName(stem + "." + ext) == stem
    ensures DomainName(stem) == stem
  {
    if stem != [] {
      assert (stem + "." + ext)[1..] == stem[1..] + "." + ext;
      DomainNameOfStem(stem[1..], ext);
      assert stem == [stem[0]] + stem[1..];
    }
  }

  /**
   All domains of the dataset directory, in directory order: each file's
   parsed map loaded under the domain its file name gives.
   */
  function GetAllRelations(files: seq<(string, RelationMap)>): (metas: seq<MetaRelation>)
    ensures |metas| == |files|
    ensures forall i :: 0 <= i < |files| ==>
      var d := metas[i].domain;
      && '.' !in d && |d| <= |files[i].0| && d == files[i].0[..|d|]
      && (|d| < |files[i].0| ==> files[i].0[|d|] == '.')
    ensures forall i :: 0 <= i < |files| ==>
      && metas[i].relationMap.order == files[i].1.order
      && metas[i].relationMap.entries.Keys == files[i].1.entries.Keys
      && forall k :: k in files[i].1.entries ==>
           StablySorted(metas[i].relationMap.entries[k], files[i].1.entries[k])
  {
    seq(|files|, i requires 0 <= i < |files| => Load(DomainName(files[i].0), files[i].1))
  }
}
