/**
 The universe assembler (`generate_universe_cartography` in
 src/universe.rs): three ordered passes over the loaded domains that build
 one galaxy per domain, one planet per tag name that is a key somewhere, and
 the planets' connections. Hash-map iteration is replaced by the explicit
 order of the domain sequence and of each relation map's `order`.
 */
module Universe {
  import opened Tags
  import opened Relation

  /** One connection from a planet, with the count of the relation it came from. */
  datatype Connection = Connection(planetPairs: set<(string, string)>, count: int)

  /** A tag name seen as a key in some domain, with its connections and home domains. */
  datatype Planet = Planet(name: string, conns: seq<Connection>, belongGalaxy: set<string>)

  /** A domain. */
  datatype Galaxy = Galaxy(name: string)

  ghost predicate AllValid(metas: seq<MetaRelation>) {
    forall i :: 0 <= i < |metas| ==> metas[i].relationMap.Valid()
  }

  /** The names of all domains. */
  function Domains(metas: seq<MetaRelation>): set<string> {
    set i | 0 <= i < |metas| :: metas[i].domain
  }

  /** Every tag name that is a key of some domain's map. */
  function AllKeys(metas: seq<MetaRelation>): set<string> {
    set i, k | 0 <= i < |metas| && k in metas[i].relationMap.entries :: k
  }

  /** The names listed in `keys`. */
  function KeySet(keys: seq<string>): set<string> {
    set k | k in keys
  }

  lemma DomainsSnoc(metas: seq<MetaRelation>)
    requires metas != []
    ensures Domains(metas) == Domains(metas[..|metas| - 1]) + {metas[|metas| - 1].domain}
  {
    var front := metas[..|metas| - 1];
    forall d | d in Domains(metas) ensures d in Domains(front) + {metas[|metas| - 1].domain} {
      var i :| 0 <= i < |metas| && metas[i].domain == d;
      if i < |front| {
        assert front[i] == metas[i];
      }
    }
    forall d | d in Domains(front) ensures d in Domains(metas) {
      var i :| 0 <= i < |front| && front[i].domain == d;
      assert metas[i] == front[i];
    }
  }

  lemma AllKeysSnoc(metas: seq<MetaRelation>)
    requires metas != []
    ensures AllKeys(metas) == AllKeys(metas[..|metas| - 1]) + metas[|metas| - 1].relationMap.entries.Keys
  {
    var front := metas[..|metas| - 1];
    forall k | k in AllKeys(metas)
      ensures k in AllKeys(front) + metas[|metas| - 1].relationMap.entries.Keys
    {
      var i :| 0 <= i < |metas| && k in metas[i].relationMap.entries;
      if i < |front| {
        assert front[i] == metas[i];
      }
    }
    forall k | k in AllKeys(front) ensures k in AllKeys(metas) {
      var i :| 0 <= i < |front| && k in front[i].relationMap.entries;
      assert metas[i] == front[i];
    }
  }

  lemma KeySetSnoc(keys: seq<string>)
    requires keys != []
    ensures KeySet(keys) == KeySet(keys[..|keys| - 1]) + {keys[|keys| - 1]}
  {
    assert keys == keys[..|keys| - 1] + [keys[|keys| - 1]];
  }

  // ---------------------------------------------------------------------
  // Pass 1: galaxies
  // ---------------------------------------------------------------------

  /** One galaxy per distinct domain, named after it. */
  function CollectGalaxies(metas: seq<MetaRelation>): (galaxies: map<string, Galaxy>)
    ensures galaxies.Keys == Domains(metas)
    ensures forall d :: d in galaxies ==> galaxies[d].name == d
  {
    if metas == [] then map[]
    else
      var d := metas[|metas| - 1].domain;
      DomainsSnoc(metas);
      CollectGalaxies(metas[..|metas| - 1])[d := Galaxy(d)]
  }

  // ---------------------------------------------------------------------
  // Pass 2: planets
  // ---------------------------------------------------------------------

  /**
   Adds a planet for each of `keys` not yet discovered. A new planet has no
   connections and belongs to `domain` only; a planet already discovered is
   left exactly as it was.
   */
  function DiscoverInDomain(planets: map<string, Planet>, domain: string, keys: seq<string>)
    : (r: map<string, Planet>)
    ensures r.Keys == planets.Keys + KeySet(keys)
    ensures forall k :: k in planets ==> r[k] == planets[k]
    ensures forall k :: k in r && k !in planets ==> r[k] == Planet(k, [], {domain})
  {
    if keys == [] then planets
    else
      var prev := DiscoverInDomain(planets, domain, keys[..|keys| - 1]);
      var k := keys[|keys| - 1];
      KeySetSnoc(keys);
      if k in prev then prev else prev[k := Planet(k, [], {domain})]
  }

  /** Domain `i` is the first, in iteration order, that has `k` as a key. */
  ghost predicate FirstHolder(metas: seq<MetaRelation>, k: string, i: int) {
    && 0 <= i < |metas|
    && k in metas[i].relationMap.entries
    && forall j :: 0 <= j < i ==> k !in metas[j].relationMap.entries
  }

  /** The first holder among the first domains stays the first holder when more follow. */
  lemma FirstHolderExtends(metas: seq<MetaRelation>, n: nat, k: string, i: int)
    requires n <= |metas| && FirstHolder(metas[..n], k, i)
    ensures FirstHolder(metas, k, i)
  {
    assert forall j :: 0 <= j <= i ==> metas[j] == metas[..n][j];
  }

  /** A key new to the last domain has that domain as its first holder. */
  lemma FirstHolderIsLast(metas: seq<MetaRelation>, k: string)
    requires metas != []
    requires k !in AllKeys(metas[..|metas| - 1])
    requires k in metas[|metas| - 1].relationMap.entries
    ensures FirstHolder(metas, k, |metas| - 1)
  {
    var front := metas[..|metas| - 1];
    forall j | 0 <= j < |front| ensures k !in metas[j].relationMap.entries {
      assert metas[j] == front[j];
    }
  }

  /** Every planet's home is the first domain holding its name. */
  ghost predicate HomesAreFirstHolders(metas: seq<MetaRelation>, planets: map<string, Planet>) {
    forall k :: k in planets ==>
      exists i :: FirstHolder(metas, k, i) && planets[k].belongGalaxy == {metas[i].domain}
  }

  /** Fresh planets: named after their key, without connections. */
  ghost predicate Fresh(planets: map<string, Planet>) {
    forall k :: k in planets ==> planets[k].name == k && planets[k].conns == []
  }

  /** The home of a planet discovered with the last domain, or earlier, is its first holder. */
  lemma HomeOfDiscovered(metas: seq<MetaRelation>, prev: map<string, Planet>, r: map<string, Planet>, k: string)
    requires metas != []
    requires prev.Keys == AllKeys(metas[..|metas| - 1])
    requires HomesAreFirstHolders(metas[..|metas| - 1], prev)
    requires k in r && (k in prev ==> r[k] == prev[k])
    requires k !in prev ==>
      k in metas[|metas| - 1].relationMap.entries &&
      r[k].belongGalaxy == {metas[|metas| - 1].domain}
    ensures exists i :: FirstHolder(metas, k, i) && r[k].belongGalaxy == {metas[i].domain}
  {
    var n := |metas| - 1;
    var front := metas[..n];
    if k in prev {
      var i :| FirstHolder(front, k, i) && prev[k].belongGalaxy == {front[i].domain};
      FirstHolderExtends(metas, n, k, i);
      assert metas[i] == front[i];
    } else {
      FirstHolderIsLast(metas, k);
    }
  }

  /** Discovering the last domain's keys extends the planets of the domains before it. */
  lemma DiscoverLastDomain(metas: seq<MetaRelation>, prev: map<string, Planet>)
    requires metas != [] && metas[|metas| - 1].relationMap.Valid()
    requires prev.Keys == AllKeys(metas[..|metas| - 1]) && Fresh(prev)
    requires HomesAreFirstHolders(metas[..|metas| - 1], prev)
    ensures var last := metas[|metas| - 1];
      var r := DiscoverInDomain(prev, last.domain, last.relationMap.order);
      r.Keys == AllKeys(metas) && Fresh(r) && HomesAreFirstHolders(metas, r)
  {
    var last := metas[|metas| - 1];
    var r := DiscoverInDomain(prev, last.domain, last.relationMap.order);
    AllKeysSnoc(metas);
    assert KeySet(last.relationMap.order) == last.relationMap.entries.Keys;
    forall k | k in r
      ensures exists i :: FirstHolder(metas, k, i) && r[k].belongGalaxy == {metas[i].domain}
    {
      HomeOfDiscovered(metas, prev, r, k);
    }
  }

  /**
   One planet per tag name that is a key in some domain, named after it and
   without connections. As the source is written, a planet belongs only to
   the first domain that has it as a key: later domains are never added.
   */
  function DiscoverPlanets(metas: seq<MetaRelation>): (planets: map<string, Planet>)
    requires AllValid(metas)
    ensures planets.Keys == AllKeys(metas)
    ensures Fresh(planets)
    ensures HomesAreFirstHolders(metas, planets)
  {
    if metas == [] then map[]
    else
      var n := |metas| - 1;
      var front := metas[..n];
      assert AllValid(front) by {
        forall i | 0 <= i < |front| ensures front[i].relationMap.Valid() {
          assert front[i] == metas[i];
        }
      }
      var prev := DiscoverPlanets(front);
      DiscoverLastDomain(metas, prev);
      DiscoverInDomain(prev, metas[n].domain, metas[n].relationMap.order)
  }

  // ---------------------------------------------------------------------
  // Pass 3: connections
  // ---------------------------------------------------------------------

  /**
   The connections made from key `k`: one per entry of its list whose name
   is not yet explored, in list order, carrying that entry's count and the
   pair (k, entry name).
   */
  function NewConnections(k: string, tags: seq<ConnectedTag>, explored: set<string>)
    : (r: seq<Connection>)
    ensures |r| <= |tags|
    ensures forall c :: c in r ==>
      exists t :: t in tags && t.name !in explored && c == Connection({(k, t.name)}, t.count)
    ensures forall t :: t in tags && t.name !in explored ==>
      Connection({(k, t.name)}, t.count) in r
  {
    if tags == [] then []
    else
      var front := tags[..|tags| - 1];
      var t := tags[|tags| - 1];
      assert tags == front + [t];
      var prev := NewConnections(k, front, explored);
      if t.name in explored then prev else prev + [Connection({(k, t.name)}, t.count)]
  }

  /** A single entry makes one connection when its name is unexplored and none otherwise. */
  lemma NewConnectionsOfOne(k: string, t: ConnectedTag, explored: set<string>)
    ensures NewConnections(k, [t], explored) ==
      if t.name in explored then [] else [Connection({(k, t.name)}, t.count)]
  {
    assert [t][..0] == [];
  }

  lemma AppendAssoc<T>(x: seq<T>, y: seq<T>, z: seq<T>)
    ensures (x + y) + z == x + (y + z)
  {
  }

  /** The connections of a list with one more entry: those of the list, then the entry's. */
  lemma NewConnectionsSnoc(k: string, front: seq<ConnectedTag>, t: ConnectedTag, explored: set<string>)
    ensures NewConnections(k, front + [t], explored) ==
      NewConnections(k, front, explored) + NewConnections(k, [t], explored)
  {
    assert (front + [t])[..|front|] == front;
    NewConnectionsOfOne(k, t, explored);
  }

  /**
   The connections of a list are those of its parts, in order: one per
   unexplored entry, in list order, repeated entries giving repeated
   connections.
   */
  lemma {:induction false} NewConnectionsSplit(k: string, a: seq<ConnectedTag>, b: seq<ConnectedTag>,
                                               explored: set<string>)
    ensures NewConnections(k, a + b, explored) ==
      NewConnections(k, a, explored) + NewConnections(k, b, explored)
    decreases |b|
  {
    if b == [] {
      assert a + b == a;
    } else {
      var b', t := b[..|b| - 1], b[|b| - 1];
      assert b == b' + [t];
      assert a + b == (a + b') + [t];
      NewConnectionsSplit(k, a, b', explored);
      NewConnectionsSnoc(k, a + b', t, explored);
      NewConnectionsSnoc(k, b', t, explored);
      AppendAssoc(NewConnections(k, a, explored), NewConnections(k, b', explored),
                  NewConnections(k, [t], explored));
    }
  }

  /** The planets under construction and the names explored so far. */
  datatype Cartography = Cartography(planets: map<string, Planet>, explored: set<string>)

  /**
   Processes one map entry: appends `k`'s new connections to its planet,
   then marks `k` explored.
   */
  function ExploreEntry(s: Cartography, k: string, tags: seq<ConnectedTag>): (r: Cartography)
    requires k in s.planets
    ensures r.explored == s.explored + {k}
    ensures r.planets.Keys == s.planets.Keys
    ensures forall p :: p in s.planets && p != k ==> r.planets[p] == s.planets[p]
    ensures r.planets[k].name == s.planets[k].name
    ensures r.planets[k].belongGalaxy == s.planets[k].belongGalaxy
    ensures r.planets[k].conns == s.planets[k].conns + NewConnections(k, tags, s.explored)
  {
    var p := s.planets[k];
    Cartography(
      s.planets[k := p.(conns := p.conns + NewConnections(k, tags, s.explored))],
      s.explored + {k})
  }

  /** Some connection of some planet joins `a` to `b`. */
  ghost predicate Linked(planets: map<string, Planet>, a: string, b: string) {
    exists k, i :: k in planets && 0 <= i < |planets[k].conns| &&
      (a, b) in planets[k].conns[i].planetPairs
  }

  /** A link after processing `k`'s entry was there before or is one of the entry's new links. */
  lemma LinkedAfterEntryIsOldOrNew(s: Cartography, k: string, tags: seq<ConnectedTag>, a: string, b: string)
    requires k in s.planets && Linked(ExploreEntry(s, k, tags).planets, a, b)
    ensures Linked(s.planets, a, b) || (a == k && exists t :: t in tags && t.name == b && b !in s.explored)
  {
    var r := ExploreEntry(s, k, tags);
    var old_conns := s.planets[k].conns;
    var added := NewConnections(k, tags, s.explored);
    var k', i :| k' in r.planets && 0 <= i < |r.planets[k'].conns| &&
      (a, b) in r.planets[k'].conns[i].planetPairs;
    if k' != k || i < |old_conns| {
      assert (a, b) in s.planets[k'].conns[i].planetPairs;
    } else {
      assert added[i - |old_conns|] in added;
    }
  }

  /** Processing `k`'s entry keeps every link and adds one from `k` to each unexplored entry name. */
  lemma LinkedAfterEntryKeepsAndAdds(s: Cartography, k: string, tags: seq<ConnectedTag>, a: string, b: string)
    requires k in s.planets
    requires Linked(s.planets, a, b) || (a == k && exists t :: t in tags && t.name == b && b !in s.explored)
    ensures Linked(ExploreEntry(s, k, tags).planets, a, b)
  {
    var r := ExploreEntry(s, k, tags);
    var old_conns := s.planets[k].conns;
    var added := NewConnections(k, tags, s.explored);
    if Linked(s.planets, a, b) {
      var k', i :| k' in s.planets && 0 <= i < |s.planets[k'].conns| &&
        (a, b) in s.planets[k'].conns[i].planetPairs;
      assert r.planets[k'].conns[i] == s.planets[k'].conns[i];
    } else {
      var t :| t in tags && t.name == b && b !in s.explored;
      var c := Connection({(k, t.name)}, t.count);
      var i :| 0 <= i < |added| && added[i] == c;
      assert r.planets[k].conns[|old_conns| + i] == c;
    }
  }

  /**
   Processing `k`'s entry links `k` to exactly the names of its entries that
   were not yet explored, and keeps every earlier link.
   */
  lemma LinkedAfterEntry(s: Cartography, k: string, tags: seq<ConnectedTag>, a: string, b: string)
    requires k in s.planets
    ensures Linked(ExploreEntry(s, k, tags).planets, a, b) <==>
      Linked(s.planets, a, b) || (a == k && exists t :: t in tags && t.name == b && b !in s.explored)
  {
    if Linked(ExploreEntry(s, k, tags).planets, a, b) {
      LinkedAfterEntryIsOldOrNew(s, k, tags, a, b);
    }
    if Linked(s.planets, a, b) || (a == k && exists t :: t in tags && t.name == b && b !in s.explored) {
      LinkedAfterEntryKeepsAndAdds(s, k, tags, a, b);
    }
  }

  /**
   The deduplication invariant of pass 3: every link starts at an explored
   name, and no two distinct names are linked both ways.
   */
  ghost predicate Deduplicated(s: Cartography) {
    && (forall a, b :: Linked(s.planets, a, b) ==> a in s.explored)
    && (forall a, b :: a != b && Linked(s.planets, a, b) ==> !Linked(s.planets, b, a))
  }

  lemma ExploreEntryDeduplicated(s: Cartography, k: string, tags: seq<ConnectedTag>)
    requires k in s.planets
    ensures Deduplicated(s) ==> Deduplicated(ExploreEntry(s, k, tags))
  {
    var r := ExploreEntry(s, k, tags);
    if Deduplicated(s) {
      forall a, b | Linked(r.planets, a, b) ensures a in r.explored {
        LinkedAfterEntry(s, k, tags, a, b);
      }
      forall a, b | a != b && Linked(r.planets, a, b) ensures !Linked(r.planets, b, a) {
        LinkedAfterEntry(s, k, tags, a, b);
        LinkedAfterEntry(s, k, tags, b, a);
      }
    }
  }

  /** Pass 3 over one domain: its entries in the map's iteration order. */
  function ExploreDomain(s: Cartography, m: Adjacency, keys: seq<string>): (r: Cartography)
    requires forall k :: k in keys ==> k in m && k in s.planets
    ensures r.explored == s.explored + KeySet(keys)
    ensures r.planets.Keys == s.planets.Keys
    ensures forall p :: p in s.planets ==>
      && r.planets[p].name == s.planets[p].name
      && r.planets[p].belongGalaxy == s.planets[p].belongGalaxy
      && s.planets[p].conns <= r.planets[p].conns
    ensures Deduplicated(s) ==> Deduplicated(r)
  {
    if keys == [] then s
    else
      var k := keys[|keys| - 1];
      var prev := ExploreDomain(s, m, keys[..|keys| - 1]);
      KeySetSnoc(keys);
      ExploreEntryDeduplicated(prev, k, m[k]);
      ExploreEntry(prev, k, m[k])
  }

  /** Pass 3 over every domain, in order, with one explored set shared by all. */
  function ConnectPlanets(s: Cartography, metas: seq<MetaRelation>): (r: Cartography)
    requires AllValid(metas)
    requires AllKeys(metas) <= s.planets.Keys
    ensures r.explored == s.explored + AllKeys(metas)
    ensures r.planets.Keys == s.planets.Keys
    ensures forall p :: p in s.planets ==>
      && r.planets[p].name == s.planets[p].name
      && r.planets[p].belongGalaxy == s.planets[p].belongGalaxy
      && s.planets[p].conns <= r.planets[p].conns
    ensures Deduplicated(s) ==> Deduplicated(r)
  {
    if metas == [] then s
    else
      var n := |metas| - 1;
      var front, last := metas[..n], metas[n];
      AllKeysSnoc(metas);
      assert AllValid(front) by {
        forall i | 0 <= i < |front| ensures front[i].relationMap.Valid() {
          assert front[i] == metas[i];
        }
      }
      assert metas[n].relationMap.Valid();
      assert KeySet(last.relationMap.order) == last.relationMap.entries.Keys;
      var prev := ConnectPlanets(s, front);
      ExploreDomain(prev, last.relationMap.entries, last.relationMap.order)
  }

  /** Some domain stores `b` in the tag list of its key `a`. */
  ghost predicate StoredEdge(metas: seq<MetaRelation>, a: string, b: string) {
    exists i, t :: 0 <= i < |metas| && a in metas[i].relationMap.entries &&
      t in metas[i].relationMap.entries[a] && t.name == b
  }

  /** Pass 3 over one domain only links a key of it to a name in that key's list. */
  lemma {:induction false} ExploreDomainLinks(s: Cartography, m: Adjacency, keys: seq<string>, a: string, b: string)
    requires forall k :: k in keys ==> k in m && k in s.planets
    ensures Linked(ExploreDomain(s, m, keys).planets, a, b) ==>
      Linked(s.planets, a, b) || (a in m && exists t :: t in m[a] && t.name == b)
  {
    if keys != [] && Linked(ExploreDomain(s, m, keys).planets, a, b) {
      var front := keys[..|keys| - 1];
      var prev := ExploreDomain(s, m, front);
      LinkedAfterEntryIsOldOrNew(prev, keys[|keys| - 1], m[keys[|keys| - 1]], a, b);
      ExploreDomainLinks(s, m, front, a, b);
    }
  }

  /** Pass 3 over every domain only links a key to a name stored in its list by some domain. */
  lemma {:induction false} ConnectPlanetsLinks(s: Cartography, metas: seq<MetaRelation>, a: string, b: string)
    requires AllValid(metas)
    requires AllKeys(metas) <= s.planets.Keys
    ensures Linked(ConnectPlanets(s, metas).planets, a, b) ==> Linked(s.planets, a, b) || StoredEdge(metas, a, b)
  {
    if metas != [] && Linked(ConnectPlanets(s, metas).planets, a, b) {
      var n := |metas| - 1;
      var front, last := metas[..n], metas[n];
      ConnectPlanetsSnoc(s, metas);
      var prev := ConnectPlanets(s, front);
      ExploreDomainLinks(prev, last.relationMap.entries, last.relationMap.order, a, b);
      ConnectPlanetsLinks(s, front, a, b);
      if StoredEdge(front, a, b) {
        var i, t :| 0 <= i < |front| && a in front[i].relationMap.entries &&
          t in front[i].relationMap.entries[a] && t.name == b;
        assert front[i] == metas[i];
      }
    }
  }

  /** Links survive when planets are only added and connections only appended. */
  lemma LinksKept(p1: map<string, Planet>, p2: map<string, Planet>, a: string, b: string)
    requires p1.Keys <= p2.Keys
    requires forall p :: p in p1 ==> p1[p].conns <= p2[p].conns
    ensures Linked(p1, a, b) ==> Linked(p2, a, b)
  {
    if Linked(p1, a, b) {
      var k, i :| k in p1 && 0 <= i < |p1[k].conns| && (a, b) in p1[k].conns[i].planetPairs;
      assert p2[k].conns[i] == p1[k].conns[i];
    }
  }

  /** The first `i` elements of the first `n` are the first `i`. */
  lemma PrefixOfPrefix<T>(s: seq<T>, n: nat, i: nat)
    requires i < n <= |s|
    ensures s[..n][..i] == s[..i] && s[..n][i] == s[i]
  {
  }

  /** Pass 3 over several keys is pass 3 over all but the last, followed by the last. */
  lemma ExploreDomainSnoc(s: Cartography, m: Adjacency, keys: seq<string>)
    requires forall k :: k in keys ==> k in m && k in s.planets
    requires keys != []
    ensures var front, k := keys[..|keys| - 1], keys[|keys| - 1];
      && (forall k' :: k' in front ==> k' in m && k' in s.planets)
      && k in m && k in ExploreDomain(s, m, front).planets
      && ExploreDomain(s, m, front).explored == s.explored + KeySet(front)
      && ExploreDomain(s, m, keys) == ExploreEntry(ExploreDomain(s, m, front), k, m[k])
  {
  }

  /** Processing an entry links its key to each of its unexplored names. */
  lemma ExploreEntryAddsLink(s: Cartography, k: string, tags: seq<ConnectedTag>, t: ConnectedTag)
    requires k in s.planets && t in tags && t.name !in s.explored
    ensures Linked(ExploreEntry(s, k, tags).planets, k, t.name)
  {
    LinkedAfterEntryKeepsAndAdds(s, k, tags, k, t.name);
  }

  /** Processing an entry keeps every link. */
  lemma ExploreEntryKeepsLink(s: Cartography, k: string, tags: seq<ConnectedTag>, a: string, b: string)
    requires k in s.planets && Linked(s.planets, a, b)
    ensures Linked(ExploreEntry(s, k, tags).planets, a, b)
  {
    LinkedAfterEntryKeepsAndAdds(s, k, tags, a, b);
  }

  /** Pass 3 over one domain links its last key to each name in its list still unexplored. */
  lemma ExploreDomainLinksLast(s: Cartography, m: Adjacency, keys: seq<string>, t: ConnectedTag)
    requires forall k :: k in keys ==> k in m && k in s.planets
    requires keys != [] && t in m[keys[|keys| - 1]]
    requires t.name !in s.explored + KeySet(keys[..|keys| - 1])
    ensures Linked(ExploreDomain(s, m, keys).planets, keys[|keys| - 1], t.name)
  {
    var k := keys[|keys| - 1];
    ExploreDomainSnoc(s, m, keys);
    ExploreEntryAddsLink(ExploreDomain(s, m, keys[..|keys| - 1]), k, m[k], t);
  }

  /** Pass 3 over one more key keeps the links made before it. */
  lemma ExploreDomainKeepsLinks(s: Cartography, m: Adjacency, keys: seq<string>, a: string, b: string)
    requires forall k :: k in keys ==> k in m && k in s.planets
    requires keys != [] && Linked(ExploreDomain(s, m, keys[..|keys| - 1]).planets, a, b)
    ensures Linked(ExploreDomain(s, m, keys).planets, a, b)
  {
    var k := keys[|keys| - 1];
    ExploreDomainSnoc(s, m, keys);
    ExploreEntryKeepsLink(ExploreDomain(s, m, keys[..|keys| - 1]), k, m[k], a, b);
  }

  /**
   Pass 3 over one domain links its `i`-th key to every name in that key's
   list that was not explored when the key's turn came.
   */
  lemma {:induction false} ExploreDomainMakesLinks(s: Cartography, m: Adjacency, keys: seq<string>,
                                                   i: nat, t: ConnectedTag)
    requires forall k :: k in keys ==> k in m && k in s.planets
    requires i < |keys| && t in m[keys[i]]
    requires t.name !in s.explored + KeySet(keys[..i])
    ensures Linked(ExploreDomain(s, m, keys).planets, keys[i], t.name)
  {
    if i == |keys| - 1 {
      ExploreDomainLinksLast(s, m, keys, t);
    } else {
      var front := keys[..|keys| - 1];
      PrefixOfPrefix(keys, |keys| - 1, i);
      ExploreDomainMakesLinks(s, m, front, i, t);
      assert Linked(ExploreDomain(s, m, front).planets, keys[i], t.name);
      ExploreDomainKeepsLinks(s, m, keys, keys[i], t.name);
    }
  }

  /**
   The `j`-th key lists `b`, and `b` was explored neither before the keys
   were processed nor by an earlier key.
   */
  ghost predicate FreshEntry(m: Adjacency, keys: seq<string>, explored: set<string>, j: int, b: string) {
    && 0 <= j < |keys| && keys[j] in m
    && (exists t :: t in m[keys[j]] && t.name == b)
    && b !in explored + KeySet(keys[..j])
  }

  /**
   Pass 3 over one domain makes no other links: a new link runs from a key
   to a name in its list that was unexplored when the key's turn came.
   */
  lemma {:induction false} ExploreDomainOnlyFreshLinks(s: Cartography, m: Adjacency, keys: seq<string>,
                                                       a: string, b: string)
    requires forall k :: k in keys ==> k in m && k in s.planets
    ensures Linked(ExploreDomain(s, m, keys).planets, a, b) ==>
      Linked(s.planets, a, b) || exists j :: FreshEntry(m, keys, s.explored, j, b) && keys[j] == a
  {
    if keys != [] && Linked(ExploreDomain(s, m, keys).planets, a, b) {
      var n := |keys| - 1;
      var front, k := keys[..|keys| - 1], keys[|keys| - 1];
      ExploreDomainSnoc(s, m, keys);
      var prev := ExploreDomain(s, m, front);
      LinkedAfterEntryIsOldOrNew(prev, k, m[k], a, b);
      if Linked(prev.planets, a, b) {
        ExploreDomainOnlyFreshLinks(s, m, front, a, b);
        if !Linked(s.planets, a, b) {
          var j :| FreshEntry(m, front, s.explored, j, b) && front[j] == a;
          PrefixOfPrefix(keys, n, j);
          assert FreshEntry(m, keys, s.explored, j, b) && keys[j] == a;
        }
      } else {
        assert FreshEntry(m, keys, s.explored, n, b) && keys[n] == a;
      }
    }
  }

  /**
   Pass 3 over every domain links the `j`-th key of domain `i` to every
   name in its list that was not explored when the key's turn came: not
   explored at the start, not a key of an earlier domain and not an
   earlier key of domain `i`.
   */
  lemma {:induction false} ConnectPlanetsMakesLinks(s: Cartography, metas: seq<MetaRelation>,
                                                    i: nat, j: nat, t: ConnectedTag)
    requires AllValid(metas)
    requires AllKeys(metas) <= s.planets.Keys
    requires i < |metas| && j < |metas[i].relationMap.order|
    requires var rel := metas[i].relationMap;
      && t in rel.entries[rel.order[j]]
      && t.name !in s.explored + AllKeys(metas[..i]) + KeySet(rel.order[..j])
    ensures Linked(ConnectPlanets(s, metas).planets, metas[i].relationMap.order[j], t.name)
  {
    var n := |metas| - 1;
    var front, last := metas[..n], metas[n];
    ConnectPlanetsSnoc(s, metas);
    var prev := ConnectPlanets(s, front);
    if i == n {
      assert prev.explored == s.explored + AllKeys(metas[..i]);
      ExploreDomainMakesLinks(prev, last.relationMap.entries, last.relationMap.order, j, t);
    } else {
      PrefixOfPrefix(metas, n, i);
      ConnectPlanetsMakesLinks(s, front, i, j, t);
      var r := ExploreDomain(prev, last.relationMap.entries, last.relationMap.order);
      LinksKept(prev.planets, r.planets, metas[i].relationMap.order[j], t.name);
    }
  }

  /** Pass 3 over several domains is pass 3 over all but the last, followed by the last. */
  lemma ConnectPlanetsSnoc(s: Cartography, metas: seq<MetaRelation>)
    requires AllValid(metas) && metas != []
    requires AllKeys(metas) <= s.planets.Keys
    ensures var front, last := metas[..|metas| - 1], metas[|metas| - 1];
      && AllValid(front) && AllKeys(front) <= s.planets.Keys
      && (forall k :: k in last.relationMap.order ==>
            k in last.relationMap.entries && k in ConnectPlanets(s, front).planets)
      && ConnectPlanets(s, metas) ==
           ExploreDomain(ConnectPlanets(s, front), last.relationMap.entries, last.relationMap.order)
  {
    var n := |metas| - 1;
    var front, last := metas[..n], metas[n];
    AllKeysSnoc(metas);
    assert AllValid(front) by {
      forall x | 0 <= x < |front| ensures front[x].relationMap.Valid() {
        assert front[x] == metas[x];
      }
    }
    assert metas[n].relationMap.Valid();
  }

  /**
   Pass 3 over every domain makes no other links: a new link runs from the
   `j`-th key of domain `i` to a name in its list that was not explored
   when the key's turn came, with the explored set shared across domains.
   */
  lemma {:induction false} ConnectPlanetsOnlyFreshLinks(s: Cartography, metas: seq<MetaRelation>,
                                                        a: string, b: string)
    requires AllValid(metas)
    requires AllKeys(metas) <= s.planets.Keys
    ensures Linked(ConnectPlanets(s, metas).planets, a, b) ==>
      Linked(s.planets, a, b) || FreshEdge(metas, s.explored, a, b)
  {
    if metas != [] && Linked(ConnectPlanets(s, metas).planets, a, b) {
      var n := |metas| - 1;
      var front, last := metas[..|metas| - 1], metas[|metas| - 1];
      ConnectPlanetsSnoc(s, metas);
      var prev := ConnectPlanets(s, front);
      ExploreDomainOnlyFreshLinks(prev, last.relationMap.entries, last.relationMap.order, a, b);
      if Linked(prev.planets, a, b) {
        ConnectPlanetsOnlyFreshLinks(s, front, a, b);
        if !Linked(s.planets, a, b) {
          var i, j :| 0 <= i < |front| &&
            FreshEntry(front[i].relationMap.entries, front[i].relationMap.order,
                       s.explored + AllKeys(front[..i]), j, b) &&
            front[i].relationMap.order[j] == a;
          PrefixOfPrefix(metas, n, i);
          assert FreshEntry(metas[i].relationMap.entries, metas[i].relationMap.order,
                            s.explored + AllKeys(metas[..i]), j, b);
        }
      } else {
        var j :| FreshEntry(last.relationMap.entries, last.relationMap.order, prev.explored, j, b) &&
          last.relationMap.order[j] == a;
        assert FreshEntry(metas[n].relationMap.entries, metas[n].relationMap.order,
                          s.explored + AllKeys(metas[..n]), j, b);
      }
    }
  }

  /** Planets without connections have no links. */
  lemma UnconnectedIsDeduplicated(planets: map<string, Planet>)
    requires forall k :: k in planets ==> planets[k].conns == []
    ensures Deduplicated(Cartography(planets, {}))
  {
  }

  /**
   The whole assembly: galaxies, planets, then connections. No two distinct
   tags are ever connected in both directions; every planet keeps the name
   and the single home domain pass 2 gave it.
   */
  function GenerateUniverse(metas: seq<MetaRelation>)
    : (u: (map<string, Galaxy>, map<string, Planet>))
    requires AllValid(metas)
    ensures u.0.Keys == Domains(metas)
    ensures forall d :: d in u.0 ==> u.0[d].name == d
    ensures u.1.Keys == AllKeys(metas)
    ensures forall k :: k in u.1 ==> u.1[k].name == k
    ensures HomesAreFirstHolders(metas, u.1)
    ensures forall a, b :: a != b && Linked(u.1, a, b) ==> !Linked(u.1, b, a)
  {
    var galaxies := CollectGalaxies(metas);
    var discovered := DiscoverPlanets(metas);
    UnconnectedIsDeduplicated(discovered);
    var connected := ConnectPlanets(Cartography(discovered, {}), metas);
    (galaxies, connected.planets)
  }

  /** Every connection of the universe joins a key to a name stored in its tag list by some domain. */
  lemma UniverseLinksAreStoredEdges(metas: seq<MetaRelation>, a: string, b: string)
    requires AllValid(metas)
    ensures Linked(GenerateUniverse(metas).1, a, b) ==> StoredEdge(metas, a, b)
  {
    var discovered := DiscoverPlanets(metas);
    ConnectPlanetsLinks(Cartography(discovered, {}), metas, a, b);
  }

  /**
   The universe has a connection from the `j`-th key of domain `i` to each
   name in its list that is neither a key of an earlier domain nor an
   earlier key of domain `i`.
   */
  lemma UniverseLinksUnexploredEdges(metas: seq<MetaRelation>, i: nat, j: nat, t: ConnectedTag)
    requires AllValid(metas)
    requires i < |metas| && j < |metas[i].relationMap.order|
    requires var rel := metas[i].relationMap;
      && t in rel.entries[rel.order[j]]
      && t.name !in AllKeys(metas[..i]) + KeySet(rel.order[..j])
    ensures Linked(GenerateUniverse(metas).1, metas[i].relationMap.order[j], t.name)
  {
    var discovered := DiscoverPlanets(metas);
    ConnectPlanetsMakesLinks(Cartography(discovered, {}), metas, i, j, t);
  }

  /**
   Some domain `i` has `a` as its `j`-th key and lists `b` under it, with
   `b` explored neither in `explored`, nor as a key of an earlier domain,
   nor as an earlier key of domain `i`.
   */
  ghost predicate FreshEdge(metas: seq<MetaRelation>, explored: set<string>, a: string, b: string) {
    exists i, j :: 0 <= i < |metas| &&
      FreshEntry(metas[i].relationMap.entries, metas[i].relationMap.order,
                 explored + AllKeys(metas[..i]), j, b) &&
      metas[i].relationMap.order[j] == a
  }

  /** Every connection of the universe is a fresh edge. */
  lemma UniverseLinksAreFreshEdges(metas: seq<MetaRelation>, a: string, b: string)
    requires AllValid(metas)
    ensures Linked(GenerateUniverse(metas).1, a, b) ==> FreshEdge(metas, {}, a, b)
  {
    var discovered := DiscoverPlanets(metas);
    ConnectPlanetsOnlyFreshLinks(Cartography(discovered, {}), metas, a, b);
  }

  /** Every fresh edge is a connection of the universe. */
  lemma FreshEdgesAreUniverseLinks(metas: seq<MetaRelation>, a: string, b: string)
    requires AllValid(metas)
    ensures FreshEdge(metas, {}, a, b) ==> Linked(GenerateUniverse(metas).1, a, b)
  {
    if FreshEdge(metas, {}, a, b) {
      var i, j :| 0 <= i < |metas| &&
        FreshEntry(metas[i].relationMap.entries, metas[i].relationMap.order,
                   {} + AllKeys(metas[..i]), j, b) &&
        metas[i].relationMap.order[j] == a;
      var rel := metas[i].relationMap;
      var t :| t in rel.entries[rel.order[j]] && t.name == b;
      assert {} + AllKeys(metas[..i]) == AllKeys(metas[..i]);
      UniverseLinksUnexploredEdges(metas, i, j, t);
    }
  }

  /**
   Exactly the fresh edges become connections: the universe links `a` to
   `b` if and only if `a` is the `j`-th key of some domain `i`, `b` is in
   its list, and `b` is neither a key of an earlier domain nor an earlier
   key of domain `i`.
   */
  lemma UniverseLinksExactlyFreshEdges(metas: seq<MetaRelation>, a: string, b: string)
    requires AllValid(metas)
    ensures Linked(GenerateUniverse(metas).1, a, b) <==> FreshEdge(metas, {}, a, b)
  {
    UniverseLinksAreFreshEdges(metas, a, b);
    FreshEdgesAreUniverseLinks(metas, a, b);
  }
}
