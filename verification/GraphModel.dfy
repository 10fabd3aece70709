/** The graph's nodes, keys and adjacency rows, as values. */
module GraphModel {
  import opened Wrappers

  datatype Tag = FactTag | TopicTag | EntityTag | MentionsTag | IsAboutTag

  /** A node's identity: its type tag and material, hashed without collisions. */
  datatype Key = Key(tag: Tag, text: string)

  datatype Node =
    | Fact(value: string, time: int)
    | Topic(value: string, time: int)
    | NamedEntity(value: string, time: int)
    | Mentions(fact: string, anchor: string, time: int)
    | IsAbout(fact: string, anchor: string, time: int)
  {
    predicate IsEdge() { Mentions? || IsAbout? }

    predicate IsAnchor() { Topic? || NamedEntity? }

    function Source(): Key
      requires IsEdge()
    {
      Key(FactTag, fact)
    }

    function Target(): Key
      requires IsEdge()
    {
      if Mentions? then Key(EntityTag, anchor) else Key(TopicTag, anchor)
    }

    function Id(): Key {
      match this
      case Fact(v, _) => Key(FactTag, v)
      case Topic(v, _) => Key(TopicTag, v)
      case NamedEntity(v, _) => Key(EntityTag, v)
      case Mentions(f, a, _) => Key(MentionsTag, Material(f, a))
      case IsAbout(f, a, _) => Key(IsAboutTag, Material(f, a))
    }
  }

  /** What an edge's key is made from: the two values around a NUL. */
  function Material(fact: string, anchor: string): string { fact + "\0" + anchor }

  // ---------------------------------------------------------------- edge identity

  /** Two pairs with one material and facts of different lengths: the longer fact and
      the other's anchor contain the separator. */
  lemma SplitApart(f: string, a: string, g: string, b: string)
    requires Material(f, a) == Material(g, b) && |f| < |g|
    ensures '\0' in g && '\0' in a
  {
    var m := Material(f, a);
    assert g[|f|] == m[|f|];
    assert a[|g| - |f| - 1] == m[|g|];
  }

  lemma SplitAlike(f: string, a: string, g: string, b: string)
    requires Material(f, a) == Material(g, b) && |f| == |g|
    ensures f == g && a == b
  {
    var m := Material(f, a);
    assert f == m[..|f|] && g == m[..|g|];
    assert a == m[|f| + 1..] && b == m[|g| + 1..];
  }

  ghost predicate Shared(f: string, a: string) { exists g, b :: (g != f || b != a) && Material(g, b) == Material(f, a) }

  /** A pair shares its edge key with another pair exactly when one of its values
      contains a NUL. */
  lemma SharedMaterial(f: string, a: string)
    ensures Shared(f, a) <==> '\0' in f || '\0' in a
  {
    if '\0' in f {
      var i :| 0 <= i < |f| && f[i] == '\0';
      var g, b := f[..i], f[i + 1..] + "\0" + a;
      assert Material(g, b) == Material(f, a) && |g| < |f|;
    } else if '\0' in a {
      var i :| 0 <= i < |a| && a[i] == '\0';
      var g, b := f + "\0" + a[..i], a[i + 1..];
      assert Material(g, b) == Material(f, a) && |g| > |f|;
    } else if Shared(f, a) {
      var g, b :| (g != f || b != a) && Material(g, b) == Material(f, a);
      hide Material;
      if |g| < |f| {
        SplitApart(g, b, f, a);
      } else if |f| < |g| {
        SplitApart(f, a, g, b);
      } else {
        SplitAlike(f, a, g, b);
      }
    }
  }

  // ---------------------------------------------------------------- rows

  type Rows = map<Key, map<Key, Key>>

  /** The edge a row set records between two nodes. */
  function EdgeAt(m: Rows, a: Key, b: Key): Option<Key> { if a in m && b in m[a] then Some(m[a][b]) else None }

  function Row(m: Rows, a: Key): map<Key, Key> { if a in m then m[a] else map[] }

  function Linked(m: Rows, a: Key, b: Key, e: Key): Rows { m[a := Row(m, a)[b := e]] }

  /** Without the entry, and without its row when that leaves it empty. */
  function Unlinked(m: Rows, a: Key, b: Key): Rows {
    var r := Row(m, a) - {b};
    if r == map[] then m - {a} else m[a := r]
  }

  ghost predicate NoEmptyRow(m: Rows) { forall a :: a in m ==> m[a] != map[] }

  lemma LinkedAt(m: Rows, a: Key, b: Key, e: Key)
    ensures forall x, y :: EdgeAt(Linked(m, a, b, e), x, y) == if x == a && y == b then Some(e) else EdgeAt(m, x, y)
    ensures NoEmptyRow(m) ==> NoEmptyRow(Linked(m, a, b, e))
  {
    assert b in Row(m, a)[b := e];
  }

  lemma UnlinkedAt(m: Rows, a: Key, b: Key)
    ensures forall x, y :: EdgeAt(Unlinked(m, a, b), x, y) == if x == a && y == b then None else EdgeAt(m, x, y)
    ensures NoEmptyRow(m) ==> NoEmptyRow(Unlinked(m, a, b))
  {
    var r := Row(m, a) - {b};
    if r == map[] {
      forall y | y != b ensures EdgeAt(m, a, y) == None {
        assert y in Row(m, a) ==> y in r;
      }
    }
  }

  // ---------------------------------------------------------------- the store

  datatype Store = Store(nodes: map<Key, Node>, targets: Rows, sources: Rows)

  /** The rows are transposes without empty rows, and hold exactly the stored edges,
      each under its own key; the endpoints of every edge are stored. */
  ghost predicate Sound(s: Store) {
    && (forall k :: k in s.nodes ==> s.nodes[k].Id() == k)
    && (forall a, b :: EdgeAt(s.targets, a, b) == EdgeAt(s.sources, b, a))
    && NoEmptyRow(s.targets) && NoEmptyRow(s.sources)
    && (forall a, b :: EdgeAt(s.targets, a, b).Some? ==> IsStoredEdge(s, a, b, EdgeAt(s.targets, a, b).value))
    && (forall e :: e in s.nodes && s.nodes[e].IsEdge() ==>
       EdgeAt(s.targets, s.nodes[e].Source(), s.nodes[e].Target()) == Some(e))
  }

  predicate IsStoredEdge(s: Store, a: Key, b: Key, e: Key) {
    && e in s.nodes && s.nodes[e].IsEdge() && s.nodes[e].Source() == a && s.nodes[e].Target() == b
    && a in s.nodes && b in s.nodes
  }

  /** Storing a node: an edge also goes into both rows. */
  function Stored(s: Store, n: Node): Store {
    var m := s.nodes[n.Id() := n];
    if n.IsEdge() then Store(m, Linked(s.targets, n.Source(), n.Target(), n.Id()),
        Linked(s.sources, n.Target(), n.Source(), n.Id()))
    else s.(nodes := m)
  }

  /** What the store demands of an edge: its endpoints are stored, and its key is not
      another pair's. */
  predicate Fits(s: Store, n: Node) {
    n.IsEdge() ==>
      && n.Source() in s.nodes && n.Target() in s.nodes
      && (n.Id() in s.nodes ==>
         s.nodes[n.Id()].IsEdge() && s.nodes[n.Id()].Source() == n.Source() && s.nodes[n.Id()].Target() == n.Target())
  }

  lemma IdTag(n: Node)
    ensures n.IsEdge() <==> n.Id().tag == MentionsTag || n.Id().tag == IsAboutTag
    ensures n.IsAnchor() <==> n.Id().tag == TopicTag || n.Id().tag == EntityTag
    ensures n.Fact? <==> n.Id().tag == FactTag
    ensures n.IsEdge() ==> n.Source().tag == FactTag && (n.Target().tag == TopicTag || n.Target().tag == EntityTag)
  {
  }

  lemma StoredSound(s: Store, n: Node)
    requires Sound(s) && Fits(s, n)
    ensures Sound(Stored(s, n))
  {
    hide Linked, NoEmptyRow, EdgeAt, Material;
    IdTag(n);
    var t := Stored(s, n);
    if n.IsEdge() {
      LinkedAt(s.targets, n.Source(), n.Target(), n.Id());
      LinkedAt(s.sources, n.Target(), n.Source(), n.Id());
      forall a, b | EdgeAt(t.targets, a, b).Some? ensures IsStoredEdge(t, a, b, EdgeAt(t.targets, a, b).value) {
        if a != n.Source() || b != n.Target() {
          assert IsStoredEdge(s, a, b, EdgeAt(s.targets, a, b).value);
        }
      }
      forall e | e in t.nodes && t.nodes[e].IsEdge()
          ensures EdgeAt(t.targets, t.nodes[e].Source(), t.nodes[e].Target()) == Some(e) {
        if e != n.Id() && t.nodes[e].Source() == n.Source() && t.nodes[e].Target() == n.Target() {
          SamePairSameKey(t.nodes[e], n);
        }
      }
    } else {
      forall k {:trigger s.nodes[k]} | k in s.nodes && s.nodes[k].IsEdge() ensures k != n.Id() {
        IdTag(s.nodes[k]);
      }
      forall a, b | EdgeAt(t.targets, a, b).Some? ensures IsStoredEdge(t, a, b, EdgeAt(t.targets, a, b).value) {
        assert IsStoredEdge(s, a, b, EdgeAt(s.targets, a, b).value);
      }
    }
  }

  /** Storing anything else breaks the store: the entry that names the key no longer
      names its edge's endpoints, or they are missing. */
  lemma StoredUnsound(s: Store, n: Node)
    requires Sound(s) && !Fits(s, n)
    ensures !Sound(Stored(s, n))
  {
    hide NoEmptyRow, EdgeAt, Linked, Material;
    var t := Stored(s, n);
    IdTag(n);
    LinkedAt(s.targets, n.Source(), n.Target(), n.Id());
    assert EdgeAt(t.targets, n.Source(), n.Target()) == Some(n.Id());
    if n.Source() in s.nodes && n.Target() in s.nodes {
      var m := s.nodes[n.Id()];
      IdTag(m);
      assert EdgeAt(s.targets, m.Source(), m.Target()) == Some(n.Id());
      assert EdgeAt(t.targets, m.Source(), m.Target()) == Some(n.Id());
    }
  }

  /** An edge's key is a function of its endpoints. */
  lemma SamePairSameKey(n: Node, m: Node)
    requires n.IsEdge() && m.IsEdge() && n.Source() == m.Source() && n.Target() == m.Target()
    ensures n.Id() == m.Id()
  {
  }

  // ---------------------------------------------------------------- removal

  /** Whether an edge node has the node under key as an endpoint. */
  predicate Touches(n: Node, key: Key) { n.IsEdge() && (n.Source() == key || n.Target() == key) }

  /** Without one edge: neither its entries nor its node. */
  function WithoutEdge(s: Store, a: Key, b: Key): Store {
    var e := EdgeAt(s.targets, a, b);
    Store(if e.Some? then s.nodes - {e.value} else s.nodes, Unlinked(s.targets, a, b), Unlinked(s.sources, b, a))
  }

  lemma WithoutEdgeSound(s: Store, a: Key, b: Key)
    requires Sound(s) && EdgeAt(s.targets, a, b).Some?
    ensures var t := WithoutEdge(s, a, b);
            && Sound(t)
            && (forall x, y :: EdgeAt(t.targets, x, y) == if x == a && y == b then None else EdgeAt(s.targets, x, y))
            && (forall k :: k in t.nodes <==> k in s.nodes && k != EdgeAt(s.targets, a, b).value)
            && (forall k :: k in t.nodes ==> t.nodes[k] == s.nodes[k])
  {
    hide Unlinked, NoEmptyRow, EdgeAt, Material;
    var t := WithoutEdge(s, a, b);
    var e := EdgeAt(s.targets, a, b).value;
    UnlinkedAt(s.targets, a, b);
    UnlinkedAt(s.sources, b, a);
    assert IsStoredEdge(s, a, b, e);
    IdTag(s.nodes[e]);
    forall x, y | EdgeAt(t.targets, x, y).Some? ensures IsStoredEdge(t, x, y, EdgeAt(t.targets, x, y).value) {
      var d := EdgeAt(s.targets, x, y).value;
      assert IsStoredEdge(s, x, y, d);
      IdTag(s.nodes[d]);
      IdTag(s.nodes[x]);
      IdTag(s.nodes[y]);
    }
  }

  /** A vertex with no edge left may leave the store. */
  lemma WithoutVertexSound(s: Store, key: Key)
    requires Sound(s) && key in s.nodes && !s.nodes[key].IsEdge()
    requires forall x :: EdgeAt(s.targets, key, x) == None && EdgeAt(s.targets, x, key) == None
    ensures Sound(s.(nodes := s.nodes - {key}))
  {
    hide NoEmptyRow, EdgeAt, Material;
    var t := s.(nodes := s.nodes - {key});
    forall x, y | EdgeAt(t.targets, x, y).Some? ensures IsStoredEdge(t, x, y, EdgeAt(t.targets, x, y).value) {
      assert IsStoredEdge(s, x, y, EdgeAt(s.targets, x, y).value);
    }
  }

  // ---------------------------------------------------------------- counting edges

  /** The entries of all rows, one by one. */
  ghost function Pairs(m: Rows): set<(Key, Key)> { set a, b | a in m && b in m[a] :: (a, b) }

  ghost function EdgeNodes(s: Store): set<Key> { set k | k in s.nodes && s.nodes[k].IsEdge() }

  /** As many entries as relationship nodes. */
  lemma PairsAreEdges(s: Store)
    requires Sound(s)
    ensures |Pairs(s.targets)| == |EdgeNodes(s)|
  {
    hide NoEmptyRow, EdgeAt, Material;
    Matching(s, Pairs(s.targets), EdgeNodes(s)) by {
      forall a, b ensures (a, b) in Pairs(s.targets) <==> EdgeAt(s.targets, a, b).Some? {
        PairAt(s.targets, a, b);
      }
    }
  }

  lemma PairAt(m: Rows, a: Key, b: Key)
    ensures (a, b) in Pairs(m) <==> EdgeAt(m, a, b).Some?
  {
  }

  lemma {:induction false} Matching(s: Store, ps: set<(Key, Key)>, es: set<Key>)
    requires forall p :: p in ps ==> EdgeAt(s.targets, p.0, p.1).Some? && EdgeAt(s.targets, p.0, p.1).value in es
    requires forall e :: e in es ==>
            e in s.nodes && s.nodes[e].IsEdge() && (s.nodes[e].Source(), s.nodes[e].Target()) in ps
    requires forall p :: p in ps ==> IsStoredEdge(s, p.0, p.1, EdgeAt(s.targets, p.0, p.1).value)
    requires forall e :: e in es ==> EdgeAt(s.targets, s.nodes[e].Source(), s.nodes[e].Target()) == Some(e)
    ensures |ps| == |es|
  {
    hide EdgeAt, Material;
    if ps == {} {
      assert es == {};
    } else {
      var p :| p in ps;
      var e := EdgeAt(s.targets, p.0, p.1).value;
      Matching(s, ps - {p}, es - {e});
      assert ps == ps - {p} + {p} && es == es - {e} + {e};
    }
  }
}
