/** The in-memory graph: nodes, mirrored adjacency rows and the two caches, written
    step by step. */
module GraphStore {
  import opened Wrappers
  import opened GraphModel
  import opened GraphCaches

  /** An in-place insertion sort's step: where an element goes in write order. */
  function InsertBy(s: Store, rank: Order, k: Key, keys: seq<Key>): seq<Key> {
    if keys == [] || Before(s, rank, k, keys[0]) then [k] + keys else [keys[0]] + InsertBy(s, rank, k, keys[1..])
  }

  /** slices.SortFunc by write order. */
  function SortBy(s: Store, rank: Order, keys: seq<Key>): seq<Key> {
    if keys == [] then [] else InsertBy(s, rank, keys[|keys| - 1], SortBy(s, rank, keys[..|keys| - 1]))
  }

  ghost predicate Ordered(s: Store, rank: Order, keys: seq<Key>) {
    forall i, j :: 0 <= i < j < |keys| ==> Before(s, rank, keys[i], keys[j])
  }

  lemma {:induction false} InsertByKeeps(s: Store, rank: Order, k: Key, keys: seq<Key>)
    requires IsTotal(rank) && Ordered(s, rank, keys) && !Lists(keys, k)
    ensures Ordered(s, rank, InsertBy(s, rank, k, keys))
    ensures forall x :: Lists(InsertBy(s, rank, k, keys), x) <==> x == k || Lists(keys, x)
  {
    if keys != [] && !Before(s, rank, k, keys[0]) {
      var t := keys[1..];
      assert keys == [keys[0]] + t;
      forall x ensures Lists(keys, x) <==> x == keys[0] || Lists(t, x) {
        ListsCons(keys[0], t, x);
      }
      InsertByKeeps(s, rank, k, t);
      var r := InsertBy(s, rank, k, t);
      forall x ensures Lists([keys[0]] + r, x) <==> x == keys[0] || Lists(r, x) {
        ListsCons(keys[0], r, x);
      }
      forall j | 0 <= j < |r| ensures Before(s, rank, keys[0], r[j]) {
        assert Lists(r, r[j]);
        if r[j] != k {
          var i :| 0 <= i < |t| && t[i] == r[j];
          assert keys[i + 1] == r[j];
        }
      }
    } else {
      forall x ensures Lists([k] + keys, x) <==> x == k || Lists(keys, x) {
        ListsCons(k, keys, x);
      }
      forall j | 0 <= j < |keys| ensures Before(s, rank, k, keys[j]) {
        assert j > 0 ==> Before(s, rank, keys[0], keys[j]);
      }
    }
  }

  lemma ListsCons(k: Key, s: seq<Key>, x: Key)
    ensures Lists([k] + s, x) <==> x == k || Lists(s, x)
  {
    var t := [k] + s;
    if Lists(s, x) {
      var i :| 0 <= i < |s| && s[i] == x;
      assert t[i + 1] == x;
    }
    assert t[0] == k;
    if Lists(t, x) {
      var i :| 0 <= i < |t| && t[i] == x;
      assert i > 0 ==> s[i - 1] == x;
    }
  }

  lemma ListsSnoc(s: seq<Key>, k: Key, x: Key)
    ensures Lists(s + [k], x) <==> x == k || Lists(s, x)
  {
    var t := s + [k];
    if Lists(s, x) {
      var i :| 0 <= i < |s| && s[i] == x;
      assert t[i] == x;
    }
    assert t[|s|] == k;
    if Lists(t, x) {
      var i :| 0 <= i < |t| && t[i] == x;
      assert i < |s| ==> s[i] == x;
    }
  }

  lemma {:induction false} SortBySorts(s: Store, rank: Order, keys: seq<Key>)
    requires IsTotal(rank) && forall i, j :: 0 <= i < j < |keys| ==> keys[i] != keys[j]
    ensures Ordered(s, rank, SortBy(s, rank, keys))
    ensures forall x :: Lists(SortBy(s, rank, keys), x) <==> Lists(keys, x)
  {
    if keys != [] {
      var n := |keys| - 1;
      var r := keys[..n];
      assert keys == r + [keys[n]];
      SortBySorts(s, rank, r);
      forall x ensures Lists(keys, x) <==> x == keys[n] || Lists(r, x) {
        ListsSnoc(r, keys[n], x);
      }
      assert !Lists(r, keys[n]);
      InsertByKeeps(s, rank, keys[n], SortBy(s, rank, r));
    }
  }

  /** slices.Sort and slices.Compact: in key order, each once. */
  function InsertOnce(rank: Order, k: Key, out: seq<Key>): seq<Key> {
    if out == [] || rank(k) < rank(out[0]) then [k] + out
    else if rank(k) == rank(out[0]) then out
    else [out[0]] + InsertOnce(rank, k, out[1..])
  }

  function SortOnce(rank: Order, keys: seq<Key>): seq<Key> {
    if keys == [] then [] else InsertOnce(rank, keys[|keys| - 1], SortOnce(rank, keys[..|keys| - 1]))
  }

  ghost predicate Ascends(rank: Order, out: seq<Key>) {
    forall i, j :: 0 <= i < j < |out| ==> rank(out[i]) < rank(out[j])
  }

  lemma {:induction false} InsertOnceKeeps(rank: Order, k: Key, out: seq<Key>)
    requires IsTotal(rank) && Ascends(rank, out)
    ensures Ascends(rank, InsertOnce(rank, k, out))
    ensures forall x :: Lists(InsertOnce(rank, k, out), x) <==> x == k || Lists(out, x)
  {
    if out == [] || rank(k) < rank(out[0]) {
      forall x ensures Lists([k] + out, x) <==> x == k || Lists(out, x) {
        ListsCons(k, out, x);
      }
    } else if rank(k) == rank(out[0]) {
      assert out[0] == k;
      assert Lists(out, k);
    } else {
      var t := out[1..];
      var r := InsertOnce(rank, k, t);
      assert out == [out[0]] + t;
      InsertOnceKeeps(rank, k, t);
      forall x ensures Lists(out, x) <==> x == out[0] || Lists(t, x) {
        ListsCons(out[0], t, x);
      }
      forall x ensures Lists([out[0]] + r, x) <==> x == out[0] || Lists(r, x) {
        ListsCons(out[0], r, x);
      }
      forall j | 0 <= j < |r| ensures rank(out[0]) < rank(r[j]) {
        assert Lists(r, r[j]);
        if r[j] != k {
          var i :| 0 <= i < |t| && t[i] == r[j];
          assert out[i + 1] == r[j];
        }
      }
    }
  }

  lemma {:induction false} SortOnceSorts(rank: Order, keys: seq<Key>)
    requires IsTotal(rank)
    ensures Ascends(rank, SortOnce(rank, keys))
    ensures forall x :: Lists(SortOnce(rank, keys), x) <==> Lists(keys, x)
  {
    if keys != [] {
      var n := |keys| - 1;
      var r := keys[..n];
      assert keys == r + [keys[n]];
      SortOnceSorts(rank, r);
      InsertOnceKeeps(rank, keys[n], SortOnce(rank, r));
      forall x ensures Lists(keys, x) <==> x == keys[n] || Lists(r, x) {
        ListsSnoc(r, keys[n], x);
      }
    }
  }

  /** Where a key is in a sequence. */
  function Position(keys: seq<Key>, key: Key): (p: Option<nat>)
    ensures p.Some? ==> p.value < |keys| && keys[p.value] == key
    ensures p.None? ==> forall i :: 0 <= i < |keys| ==> keys[i] != key
  {
    if keys == [] then None
    else if keys[|keys| - 1] == key then Some(|keys| - 1)
    else Position(keys[..|keys| - 1], key)
  }

  /** The entries next to position i. */
  function Around(keys: seq<Key>, i: nat): seq<Key>
    requires i < |keys|
  {
    (if i > 0 then [keys[i - 1]] else []) + (if i + 1 < |keys| then [keys[i + 1]] else [])
  }

  lemma AroundLists(keys: seq<Key>, i: nat, n: Key)
    requires i < |keys|
    ensures Lists(Around(keys, i), n) <==> (i > 0 && keys[i - 1] == n) || (i + 1 < |keys| && keys[i + 1] == n)
  {
    var r := Around(keys, i);
    if i > 0 {
      assert r[0] == keys[i - 1];
    }
    if i + 1 < |keys| {
      assert r[|r| - 1] == keys[i + 1];
    }
  }

  lemma BeforeIsStrict(s: Store, rank: Order, x: Key, y: Key)
    ensures !(Before(s, rank, x, y) && Before(s, rank, y, x)) && !Before(s, rank, x, x)
  {
  }

  /** In a sequence, what stands next to a member is beside it in time. */
  lemma AroundIsBeside(s: Store, rank: Order, a: Key, keys: seq<Key>, i: nat, n: Key)
    requires IsSequence(s, rank, a, keys) && i < |keys|
    ensures Beside(s, rank, a, keys[i], n) <==> (i > 0 && keys[i - 1] == n) || (i + 1 < |keys| && keys[i + 1] == n)
  {
    hide Member, Time;
    if Beside(s, rank, a, keys[i], n) {
      var j :| 0 <= j < |keys| && keys[j] == n;
      BeforeIsStrict(s, rank, keys[i], n);
      BesideIsNext(s, rank, a, keys, i, j);
    }
    if i > 0 && keys[i - 1] == n {
      NextIsFollows(s, rank, a, keys, i - 1);
    }
    if i + 1 < |keys| && keys[i + 1] == n {
      NextIsFollows(s, rank, a, keys, i);
    }
  }

  lemma NextIsFollows(s: Store, rank: Order, a: Key, keys: seq<Key>, i: nat)
    requires IsSequence(s, rank, a, keys) && i + 1 < |keys|
    ensures Follows(s, rank, a, keys[i], keys[i + 1])
  {
    hide Member, Time;
    forall m | Member(s, a, m) ensures !(Before(s, rank, keys[i], m) && Before(s, rank, m, keys[i + 1])) {
      var k :| 0 <= k < |keys| && keys[k] == m;
      BeforeIsStrict(s, rank, keys[i], m);
      BeforeIsStrict(s, rank, m, keys[i + 1]);
      assert k < i ==> Before(s, rank, keys[k], keys[i]);
      assert k > i + 1 ==> Before(s, rank, keys[i + 1], keys[k]);
    }
  }

  lemma FollowsIsNext(s: Store, rank: Order, a: Key, keys: seq<Key>, i: nat, j: nat)
    requires IsSequence(s, rank, a, keys) && i < |keys| && j < |keys| && Follows(s, rank, a, keys[i], keys[j])
    ensures j == i + 1
  {
    if j > i + 1 {
      BetweenThem(s, rank, a, keys, i, i + 1, j);
    } else if j <= i {
      NotAfter(s, rank, a, keys, i, j);
    }
  }

  lemma BetweenThem(s: Store, rank: Order, a: Key, keys: seq<Key>, i: nat, k: nat, j: nat)
    requires IsSequence(s, rank, a, keys) && i < k < j < |keys|
    ensures !Follows(s, rank, a, keys[i], keys[j])
  {
    hide Member, Before;
    assert Before(s, rank, keys[i], keys[k]) && Before(s, rank, keys[k], keys[j]) && Member(s, a, keys[k]);
  }

  lemma NotAfter(s: Store, rank: Order, a: Key, keys: seq<Key>, i: nat, j: nat)
    requires IsSequence(s, rank, a, keys) && j <= i < |keys|
    ensures !Follows(s, rank, a, keys[i], keys[j])
  {
    BeforeIsStrict(s, rank, keys[i], keys[j]);
    assert j < i ==> Before(s, rank, keys[j], keys[i]);
  }

  lemma BesideIsNext(s: Store, rank: Order, a: Key, keys: seq<Key>, i: nat, j: nat)
    requires IsSequence(s, rank, a, keys) && i < |keys| && j < |keys| && Beside(s, rank, a, keys[i], keys[j])
    ensures j == i + 1 || i == j + 1
  {
    hide Follows, Before, IsSequence;
    if Follows(s, rank, a, keys[i], keys[j]) {
      FollowsIsNext(s, rank, a, keys, i, j);
    } else {
      FollowsIsNext(s, rank, a, keys, j, i);
    }
  }

  // ---------------------------------------------------------------- what a write files

  function AnchorOf(a: string, time: int, topics: bool): Node {
    if topics then Topic(a, time) else NamedEntity(a, time)
  }

  function EdgeOf(value: string, a: string, time: int, topics: bool): Node {
    if topics then IsAbout(value, a, time) else Mentions(value, a, time)
  }

  /** A node stored only under a free key. */
  function SetIn(s: Store, n: Node): Store { if n.Id() in s.nodes then s else Stored(s, n) }

  function FiledAll(s: Store, value: string, time: int, anchors: seq<string>, topics: bool): Store {
    if anchors == [] then s else
      var n := |anchors| - 1;
      SetIn(SetIn(FiledAll(s, value, time, anchors[..n], topics), AnchorOf(anchors[n], time, topics)),
          EdgeOf(value, anchors[n], time, topics))
  }

  /** The store after a write. */
  function Remembered(s: Store, value: string, time: int, entities: seq<string>, topics: seq<string>): Store {
    FiledAll(FiledAll(Stored(s, Fact(value, time)), value, time, entities, false), value, time, topics, true)
  }

  /** Filing a fact adds nodes and touches none, and every edge it adds is the fact's. */
  ghost predicate Files(s: Store, t: Store, value: string) {
    && Sound(t)
    && (forall k :: k in s.nodes ==> k in t.nodes && t.nodes[k] == s.nodes[k])
    && (forall k :: k in t.nodes && k !in s.nodes && t.nodes[k].IsEdge() ==> t.nodes[k].fact == value)
    && (forall x, y :: x != Key(FactTag, value) ==> EdgeAt(t.targets, x, y) == EdgeAt(s.targets, x, y))
  }

  lemma FiledOneFiles(s: Store, value: string, time: int, a: string, topics: bool)
    requires Sound(s) && Key(FactTag, value) in s.nodes
    ensures var t := SetIn(SetIn(s, AnchorOf(a, time, topics)), EdgeOf(value, a, time, topics));
            Files(s, t, value) && EdgeOf(value, a, time, topics).Id() in t.nodes
  {
    hide Sound, EdgeAt, Linked, Material;
    var anchor, edge := AnchorOf(a, time, topics), EdgeOf(value, a, time, topics);
    IdTag(anchor);
    IdTag(edge);
    var r := SetIn(s, anchor);
    StoredSound(s, anchor);
    if edge.Id() !in r.nodes {
      StoredSound(r, edge);
      LinkedAt(r.targets, edge.Source(), edge.Target(), edge.Id());
    }
  }

  lemma FilesThrough(s: Store, r: Store, t: Store, value: string)
    requires Files(s, r, value) && Files(r, t, value)
    ensures Files(s, t, value)
  {
    hide Sound, EdgeAt;
  }

  lemma {:induction false} FiledAllFiles(s: Store, value: string, time: int, anchors: seq<string>, topics: bool)
    requires Sound(s) && Key(FactTag, value) in s.nodes
    ensures var t := FiledAll(s, value, time, anchors, topics);
            && Files(s, t, value)
            && forall i :: 0 <= i < |anchors| ==> EdgeOf(value, anchors[i], time, topics).Id() in t.nodes
  {
    hide Sound, EdgeAt, SetIn, Material;
    if anchors != [] {
      var n := |anchors| - 1;
      var r := FiledAll(s, value, time, anchors[..n], topics);
      FiledAllFiles(s, value, time, anchors[..n], topics);
      FiledOneFiles(r, value, time, anchors[n], topics);
      FilesThrough(s, r, FiledAll(s, value, time, anchors, topics), value);
      forall i | 0 <= i < n ensures EdgeOf(value, anchors[i], time, topics).Id() in r.nodes {
        assert anchors[..n][i] == anchors[i];
      }
    }
  }

  /** Whether a pair may use its edge's key: the key is free or its own. */
  predicate Open(s: Store, value: string, a: string, topics: bool) {
    var e := EdgeOf(value, a, 0, topics);
    e.Id() in s.nodes ==> s.nodes[e.Id()].IsEdge() && s.nodes[e.Id()].fact == value && s.nodes[e.Id()].anchor == a
  }

  predicate IsFiled(s: Store, value: string, a: string, topics: bool) {
    EdgeAt(s.targets, Key(FactTag, value), AnchorOf(a, 0, topics).Id()).Some?
  }

  /** An edge is under its key exactly when its pair is linked. */
  lemma FiledIff(s: Store, value: string, a: string, topics: bool)
    requires Sound(s) && EdgeOf(value, a, 0, topics).Id() in s.nodes
    ensures IsFiled(s, value, a, topics) <==> Open(s, value, a, topics)
  {
    hide EdgeAt, NoEmptyRow, Material;
    var e := EdgeOf(value, a, 0, topics);
    IdTag(e);
    IdTag(s.nodes[e.Id()]);
    var at := EdgeAt(s.targets, e.Source(), e.Target());
    if at.Some? {
      assert IsStoredEdge(s, e.Source(), e.Target(), at.value);
      IdTag(s.nodes[at.value]);
      SamePairSameKey(s.nodes[at.value], e);
    }
  }

  /** Filing a fact cannot open or close the key of one of its pairs. */
  lemma OpenKept(s: Store, t: Store, value: string, a: string, topics: bool)
    requires Files(s, t, value) && EdgeOf(value, a, 0, topics).Id() in t.nodes
    ensures Open(t, value, a, topics) <==> Open(s, value, a, topics)
  {
    hide EdgeAt, NoEmptyRow, Material;
    var e := EdgeOf(value, a, 0, topics);
    var n := t.nodes[e.Id()];
    IdTag(e);
    IdTag(n);
    if e.Id() !in s.nodes {
      SplitAlike(n.fact, n.anchor, value, a);
    }
  }

  /** After a write the fact is filed under an anchor it names exactly when, before the
      write, the edge's key was free or this very pair's. */
  lemma FiledExactly(s: Store, value: string, time: int, entities: seq<string>, topics: seq<string>, a: string,
      topic: bool)
    requires Sound(s) && a in (if topic then topics else entities)
    ensures var t := Remembered(s, value, time, entities, topics);
            IsFiled(t, value, a, topic) <==> Open(s, value, a, topic)
  {
    hide Sound, FiledAll, IsFiled, Material, Files;
    var f := Stored(s, Fact(value, time));
    var r := FiledAll(f, value, time, entities, false);
    var t := Remembered(s, value, time, entities, topics);
    StoredSound(s, Fact(value, time));
    FiledAllFiles(f, value, time, entities, false);
    FilesSound(f, r, value);
    FiledAllFiles(r, value, time, topics, true);
    FilesThrough(f, r, t, value);
    FilesSound(r, t, value);
    assert EdgeOf(value, a, 0, topic).Id() in t.nodes by {
      var all := if topic then topics else entities;
      var i :| 0 <= i < |all| && all[i] == a;
      assert EdgeOf(value, a, 0, topic).Id() == EdgeOf(value, all[i], time, topic).Id();
    }
    FiledIff(t, value, a, topic);
    OpenKept(f, t, value, a, topic);
    assert Open(f, value, a, topic) <==> Open(s, value, a, topic) by { IdTag(EdgeOf(value, a, 0, topic)); }
  }

  lemma FilesSound(s: Store, t: Store, value: string)
    requires Files(s, t, value)
    ensures Sound(t) && forall k :: k in s.nodes ==> k in t.nodes
  {
  }

  /** A write touches no other node, and no edge of another fact. */
  lemma RememberedRest(s: Store, value: string, time: int, entities: seq<string>, topics: seq<string>)
    requires Sound(s)
    ensures var t := Remembered(s, value, time, entities, topics);
            && Sound(t) && Key(FactTag, value) in t.nodes && t.nodes[Key(FactTag, value)] == Fact(value, time)
            && (forall k :: k in s.nodes && k != Key(FactTag, value) ==> k in t.nodes && t.nodes[k] == s.nodes[k])
            && (forall x, y :: x != Key(FactTag, value) ==> EdgeAt(t.targets, x, y) == EdgeAt(s.targets, x, y))
  {
    hide Sound, FiledAll, EdgeAt;
    var f := Stored(s, Fact(value, time));
    var r := FiledAll(f, value, time, entities, false);
    StoredSound(s, Fact(value, time));
    FiledAllFiles(f, value, time, entities, false);
    FiledAllFiles(r, value, time, topics, true);
    FilesThrough(f, r, FiledAll(r, value, time, topics, true), value);
  }

  /** Without a NUL in the fact or the anchor no other pair can hold the edge's key. */
  lemma OpenWithoutNul(s: Store, value: string, a: string, topics: bool)
    requires Sound(s) && '\0' !in value && '\0' !in a
    ensures Open(s, value, a, topics)
  {
    hide EdgeAt, NoEmptyRow, Material, Shared;
    var e := EdgeOf(value, a, 0, topics);
    if e.Id() in s.nodes {
      var n := s.nodes[e.Id()];
      IdTag(e);
      IdTag(n);
      SharedMaterial(value, a);
      if n.fact != value || n.anchor != a {
        IsShared(value, a, n.fact, n.anchor);
      }
    }
  }

  lemma IsShared(f: string, a: string, g: string, b: string)
    requires (g != f || b != a) && Material(g, b) == Material(f, a)
    ensures Shared(f, a)
  {
  }

  class Graph {
    const rank: Order
    var nodes: map<Key, Node>
    var targets: Rows
    var sources: Rows
    var sequences: map<Key, seq<Key>>
    var contiguity: map<Key, seq<Key>>

    ghost function View(): Store
      reads `nodes, `targets, `sources
    {
      Store(nodes, targets, sources)
    }

    ghost function Cached(): Caches
      reads `sequences, `contiguity
    {
      Caches(sequences, contiguity)
    }

    ghost predicate Valid()
      reads this
    {
      IsTotal(rank) && Sound(View()) && Fresh(View(), rank, Cached())
    }

    constructor (rank: Order)
      requires IsTotal(rank)
      ensures Valid() && nodes == map[] && this.rank == rank
    {
      this.rank := rank;
      nodes, targets, sources, sequences, contiguity := map[], map[], map[], map[], map[];
    }

    // ------------------------------------------------------------ dropping

    /** Discards an anchor's cached sequence and its members' neighbour lists. */
    method DropSequence(anchor: Key)
      modifies `sequences, `contiguity
      ensures sequences == old(sequences) - {anchor}
      ensures forall k :: k in contiguity <==>
              k in old(contiguity) && !(anchor in old(sequences) && Lists(old(sequences)[anchor], k))
      ensures forall k :: k in contiguity ==> contiguity[k] == old(contiguity)[k]
    {
      if anchor !in sequences {
        assert sequences - {anchor} == sequences;
        return;
      }
      var keys := sequences[anchor];
      for i := 0 to |keys|
        invariant sequences == old(sequences)
        invariant forall k :: k in contiguity <==> k in old(contiguity) && !Lists(keys[..i], k)
        invariant forall k :: k in contiguity ==> contiguity[k] == old(contiguity)[k]
      {
        assert keys[..i + 1] == keys[..i] + [keys[i]];
        forall k ensures Lists(keys[..i + 1], k) <==> k == keys[i] || Lists(keys[..i], k) {
          ListsSnoc(keys[..i], keys[i], k);
        }
        contiguity := contiguity - {keys[i]};
      }
      assert keys[..|keys|] == keys;
      sequences := sequences - {anchor};
    }

    /** What DropRow leaves. */
    ghost static predicate RowDropped(c: Caches, d: Caches, row: map<Key, Key>) {
      && (forall a :: a in d.sequences <==> a in c.sequences && a !in row)
      && (forall a :: a in d.sequences ==> d.sequences[a] == c.sequences[a])
      && (forall k :: k in d.contiguity <==> k in c.contiguity && !ListedIn(c.sequences, row, k))
      && (forall k :: k in d.contiguity ==> d.contiguity[k] == c.contiguity[k])
    }

    /** What dropping key itself leaves. */
    ghost static predicate KeyDropped(c: Caches, d: Caches, key: Key) {
      && (forall a :: a in d.sequences <==> a in c.sequences && a != key)
      && (forall a :: a in d.sequences ==> d.sequences[a] == c.sequences[a])
      && (forall k :: k in d.contiguity <==>
         k in c.contiguity && k != key && !(key in c.sequences && Lists(c.sequences[key], k)))
      && (forall k :: k in d.contiguity ==> d.contiguity[k] == c.contiguity[k])
    }

    method DropKey(key: Key)
      modifies `sequences, `contiguity
      ensures KeyDropped(old(Cached()), Cached(), key)
    {
      hide Lists;
      contiguity := contiguity - {key};
      DropSequence(key);
    }

    /** Discards the sequences of a row's nodes. */
    method DropRow(row: map<Key, Key>)
      modifies `sequences, `contiguity
      ensures RowDropped(old(Cached()), Cached(), row)
    {
      hide Lists;
      var rest := row.Keys;
      while rest != {}
        invariant rest <= row.Keys
        invariant forall a :: a in sequences <==> a in old(sequences) && (a !in row || a in rest)
        invariant forall a :: a in sequences ==> sequences[a] == old(sequences)[a]
        invariant forall k :: k in contiguity <==>
                k in old(contiguity) && !(exists a ::
                a in row && a !in rest && a in old(sequences) && Lists(old(sequences)[a], k))
        invariant forall k :: k in contiguity ==> contiguity[k] == old(contiguity)[k]
        decreases rest
      {
        var a :| a in rest;
        DropSequence(a);
        rest := rest - {a};
      }
    }

    ghost static predicate ListedIn(sequences: map<Key, seq<Key>>, row: map<Key, Key>, k: Key) {
      exists a :: a in row && a in sequences && Lists(sequences[a], k)
    }

    /** The sequences around a key, in the order they are dropped: its own, then those of
        its rows. */
    static lemma AroundParts(s: Store, key: Key, c: Caches, c1: Caches, c2: Caches, k: Key)
      requires KeyDropped(c, c1, key) && RowDropped(c1, c2, Row(s.targets, key))
      ensures ListedAround(s, c, key, k) <==>
                (key in c.sequences && Lists(c.sequences[key], k)) || ListedIn(c1.sequences, Row(s.targets, key), k)
                || ListedIn(c2.sequences, Row(s.sources, key), k)
    {
      hide Lists;
      var t, u := Row(s.targets, key), Row(s.sources, key);
      assert forall a :: Adjacent(s, key, a) <==> a == key || a in t || a in u;
      hide Row, Adjacent, EdgeAt;
      if ListedAround(s, c, key, k) {
        var a :| Adjacent(s, key, a) && a in c.sequences && Lists(c.sequences[a], k);
        assert a == key || a in c1.sequences;
        assert a == key || a in t || a in c2.sequences;
      }
      if ListedIn(c1.sequences, t, k) {
        var a :| a in t && a in c1.sequences && Lists(c1.sequences[a], k);
        assert Adjacent(s, key, a) && a in c.sequences;
      }
      if ListedIn(c2.sequences, u, k) {
        var a :| a in u && a in c2.sequences && Lists(c2.sequences[a], k);
        assert Adjacent(s, key, a) && a in c.sequences;
      }
    }

    static lemma DropsAround(s: Store, key: Key, c: Caches, c1: Caches, c2: Caches, c3: Caches)
      requires KeyDropped(c, c1, key) && RowDropped(c1, c2, Row(s.targets, key))
              && RowDropped(c2, c3, Row(s.sources, key))
      ensures Dropped(s, c, c3, key)
    {
      hide Lists, ListedAround, ListedIn;
      var t, u := Row(s.targets, key), Row(s.sources, key);
      assert forall a :: Adjacent(s, key, a) <==> a == key || a in t || a in u;
      hide Row, Adjacent, EdgeAt;
      forall k ensures ListedAround(s, c, key, k) <==>
                       (key in c.sequences && Lists(c.sequences[key], k))
                           || ListedIn(c1.sequences, Row(s.targets, key), k)
                       || ListedIn(c2.sequences, Row(s.sources, key), k) {
        AroundParts(s, key, c, c1, c2, k);
      }
    }

    /** Discards the sequence of key and of every node adjacent to it. */
    method DropSequences(key: Key)
      modifies `sequences, `contiguity
      ensures Dropped(View(), old(Cached()), Cached(), key)
    {
      hide KeyDropped, RowDropped, Dropped, Row;
      DropKey(key);
      ghost var c1 := Cached();
      DropRow(Row(targets, key));
      ghost var c2 := Cached();
      DropRow(Row(sources, key));
      DropsAround(View(), key, old(Cached()), c1, c2, Cached());
    }

    // ------------------------------------------------------------ storing

    /** Records a node; an edge also goes into both rows. The graph stays right exactly
        when an edge's endpoints are stored and its key is not another pair's. */
    method StoreNode(node: Node)
      requires Valid()
      modifies this
      ensures View() == Stored(old(View()), node)
      ensures Valid() <==> Fits(old(View()), node)
    {
      hide Sound, Fresh, Dropped, EdgeAt, Fits, IsTotal;
      ghost var s := View();
      ghost var c := Cached();
      var key := node.Id();
      nodes := nodes[key := node];
      DropSequences(key);
      DropSameRows(View(), s, c, Cached(), key);
      ghost var c1 := Cached();
      if node.IsEdge() {
        var source, target := node.Source(), node.Target();
        targets := Linked(targets, source, target, key);
        sources := Linked(sources, target, source, key);
        DropSequences(source);
      }
      StoredValid(s, node, rank, c, c1, Cached());
    }

    /** What the two drops leave is right exactly when the node fits. */
    static lemma StoredValid(s: Store, node: Node, rank: Order, c: Caches, c1: Caches, d: Caches)
      requires Sound(s) && Fresh(s, rank, c) && Dropped(s, c, c1, node.Id())
      requires if node.IsEdge() then Dropped(Stored(s, node), c1, d, node.Source()) else d == c1
      ensures Sound(Stored(s, node)) && Fresh(Stored(s, node), rank, d) <==> Fits(s, node)
    {
      hide Sound, Fresh, Dropped, Fits, Stored;
      if !Fits(s, node) {
        StoredUnsound(s, node);
      } else {
        StoredSound(s, node);
        if node.IsEdge() {
          DropFresh(s, s, rank, c, c1, node.Id());
          StoreEdgeFresh(s, node, rank, c1, d);
        } else {
          StoreVertexFresh(s, node, rank, c, c1);
        }
      }
    }

    /** What a drop walks is in the rows alone. */
    static lemma DropSameRows(s: Store, t: Store, c: Caches, d: Caches, key: Key)
      requires Dropped(s, c, d, key) && s.targets == t.targets && s.sources == t.sources
      ensures Dropped(t, c, d, key)
    {
      hide EdgeAt, Lists;
      assert forall a :: Adjacent(s, key, a) <==> Adjacent(t, key, a);
      assert forall k :: ListedAround(s, c, key, k) <==> ListedAround(t, c, key, k);
    }

    /** Inserts a new node under its own key. */
    method Set(node: Node) returns (ok: bool)
      requires Valid()
      modifies this
      ensures ok == (node.Id() !in old(nodes)) && View() == SetIn(old(View()), node)
      ensures Valid() <==> !ok || Fits(old(View()), node)
    {
      hide Sound, Fresh, IsTotal, Fits;
      if node.Id() in nodes {
        return false;
      }
      StoreNode(node);
      return true;
    }

    /** Stores a node, replacing what was under its key. */
    method Put(node: Node)
      requires Valid()
      modifies this
      ensures View() == Stored(old(View()), node)
      ensures Valid() <==> Fits(old(View()), node)
    {
      StoreNode(node);
    }

    /** Stores an anchor and the edge that files a fact under it; either may be stored
        already. */
    method StoreAnchor(anchor: Node, edge: Node)
      requires Valid() && anchor.IsAnchor() && edge.IsEdge() && edge.Target() == anchor.Id() && edge.Source() in nodes
      modifies this
      ensures Valid() && View() == SetIn(SetIn(old(View()), anchor), edge)
    {
      hide Sound, Fresh, EdgeAt, IsTotal, Linked, Material;
      IdTag(anchor);
      IdTag(edge);
      var _ := Set(anchor);
      var _ := Set(edge);
    }

    /** Files a fact under one kind of anchor. */
    method FileUnder(value: string, time: int, anchors: seq<string>, topics: bool)
      requires Valid() && Key(FactTag, value) in nodes
      modifies this
      ensures Valid() && View() == FiledAll(old(View()), value, time, anchors, topics)
    {
      hide Sound, Fresh, IsTotal, SetIn, Stored;
      for i := 0 to |anchors|
        invariant Valid() && Key(FactTag, value) in nodes
        invariant View() == FiledAll(old(View()), value, time, anchors[..i], topics)
      {
        ghost var s := View();
        var anchor := AnchorOf(anchors[i], time, topics);
        var edge := EdgeOf(value, anchors[i], time, topics);
        StoreAnchor(anchor, edge);
        assert anchors[..i + 1][..i] == anchors[..i];
        FiledOneFiles(s, value, time, anchors[i], topics);
      }
      assert anchors[..|anchors|] == anchors;
    }

    /** Commit of a write: the fact, touched, then its anchors and edges. */
    method Remember(value: string, time: int, entities: seq<string>, topics: seq<string>)
      requires Valid()
      modifies this
      ensures Valid() && View() == Remembered(old(View()), value, time, entities, topics)
    {
      hide Sound, Fresh, IsTotal, FiledAll;
      ghost var s := View();
      Put(Fact(value, time));
      FileUnder(value, time, entities, false);
      FiledAllFiles(Stored(s, Fact(value, time)), value, time, entities, false);
      FileUnder(value, time, topics, true);
    }

    // ------------------------------------------------------------ deleting

    /** Removes one edge from both rows, with any row it leaves empty, and its node. */
    method DropEdge(a: Key, b: Key)
      requires Sound(View()) && EdgeAt(targets, a, b).Some?
      modifies `nodes, `targets, `sources
      ensures View() == WithoutEdge(old(View()), a, b)
    {
      var e := targets[a][b];
      targets := Unlinked(targets, a, b);
      sources := Unlinked(sources, b, a);
      nodes := nodes - {e};
    }

    /** Removes every edge a vertex is an endpoint of. */
    method DropIncident(key: Key)
      requires Sound(View())
      modifies `nodes, `targets, `sources
      ensures Sound(View())
      ensures forall x, y :: EdgeAt(targets, x, y) == if x == key || y == key then None else EdgeAt(old(targets), x, y)
      ensures forall k :: k in nodes <==> k in old(nodes) && !Touches(old(nodes)[k], key)
      ensures forall k :: k in nodes ==> nodes[k] == old(nodes)[k]
    {
      hide Sound, WithoutEdge, Unlinked, Material, EdgeAt;
      ghost var s := View();
      OutgoingLeft(s, key);
      while Row(targets, key) != map[]
        invariant Sound(View())
        invariant forall x, y :: EdgeAt(targets, x, y).Some? ==> EdgeAt(targets, x, y) == EdgeAt(s.targets, x, y)
        invariant forall x, y :: x != key ==> EdgeAt(targets, x, y) == EdgeAt(s.targets, x, y)
        invariant Lost(s, View())
        decreases |Row(targets, key)|
      {
        var b :| b in Row(targets, key);
        InRow(targets, key, b);
        WithoutEdgeSound(View(), key, b);
        RowShrinks(View(), key, b, key);
        StillLost(s, View(), key, b);
        DropEdge(key, b);
      }
      assert forall y :: EdgeAt(targets, key, y) == None by { EmptyRow(targets, key); }
      while Row(sources, key) != map[]
        invariant Sound(View())
        invariant forall x, y :: EdgeAt(targets, x, y).Some? ==> EdgeAt(targets, x, y) == EdgeAt(s.targets, x, y)
        invariant forall x, y :: x != key && y != key ==> EdgeAt(targets, x, y) == EdgeAt(s.targets, x, y)
        invariant forall y :: EdgeAt(targets, key, y) == None
        invariant Lost(s, View())
        decreases |Row(sources, key)|
      {
        var a :| a in Row(sources, key);
        InRow(sources, key, a);
        assert EdgeAt(targets, a, key).Some? by { Transposed(View(), a, key); }
        WithoutEdgeSound(View(), a, key);
        RowShrinks(View(), a, key, key);
        StillLost(s, View(), a, key);
        DropEdge(a, key);
      }
      EmptyRow(sources, key);
      forall x ensures EdgeAt(targets, x, key) == None {
        Transposed(View(), x, key);
      }
      NothingElseLost(s, View(), key);
    }

    static lemma InRow(m: Rows, a: Key, b: Key)
      requires b in Row(m, a)
      ensures EdgeAt(m, a, b).Some?
    {
    }

    static lemma EmptyRow(m: Rows, a: Key)
      requires Row(m, a) == map[]
      ensures forall y :: EdgeAt(m, a, y) == None
    {
      forall y ensures y !in Row(m, a) {
      }
    }

    static lemma Transposed(s: Store, a: Key, b: Key)
      requires Sound(s)
      ensures EdgeAt(s.targets, a, b) == EdgeAt(s.sources, b, a)
    {
    }

    static lemma RowShrinks(s: Store, a: Key, b: Key, key: Key)
      requires EdgeAt(s.targets, a, b).Some? && Sound(s)
      ensures a == key ==> |Row(WithoutEdge(s, a, b).targets, key)| < |Row(s.targets, key)|
      ensures b == key ==> |Row(WithoutEdge(s, a, b).sources, key)| < |Row(s.sources, key)|
    {
      Transposed(s, a, b);
      Smaller(Row(s.targets, a), b);
      Smaller(Row(s.sources, b), a);
    }

    static lemma Smaller(m: map<Key, Key>, k: Key)
      requires k in m
      ensures |m - {k}| < |m|
    {
      assert (m - {k}).Keys == m.Keys - {k};
      assert |m.Keys| == |m| && |(m - {k}).Keys| == |m - {k}|;
    }

    /** Nodes only go, and what went was an edge whose entry went with it. */
    ghost static predicate Lost(s: Store, t: Store) {
      && (forall k :: k in t.nodes ==> k in s.nodes && t.nodes[k] == s.nodes[k])
      && (forall k :: k in s.nodes && k !in t.nodes ==>
         s.nodes[k].IsEdge() && EdgeAt(t.targets, s.nodes[k].Source(), s.nodes[k].Target()) == None)
    }

    static lemma OutgoingLeft(s: Store, key: Key)
      ensures Lost(s, s)
    {
    }

    static lemma StillLost(s: Store, t: Store, a: Key, b: Key)
      requires Sound(t) && Lost(s, t) && EdgeAt(t.targets, a, b).Some?
      ensures Lost(s, WithoutEdge(t, a, b))
    {
      WithoutEdgeSound(t, a, b);
      assert IsStoredEdge(t, a, b, EdgeAt(t.targets, a, b).value);
      hide Sound, EdgeAt, Unlinked, WithoutEdge;
    }

    /** The edges that went are exactly those at the vertex. */
    static lemma NothingElseLost(s: Store, t: Store, key: Key)
      requires Sound(s) && Sound(t) && Lost(s, t)
      requires forall x, y :: EdgeAt(t.targets, x, y) == if x == key || y == key then None else EdgeAt(s.targets, x, y)
      ensures forall k :: k in t.nodes <==> k in s.nodes && !Touches(s.nodes[k], key)
    {
      hide EdgeAt, NoEmptyRow, Material, IsStoredEdge;
    }

    /** Removes the node under key with its incident edges; deleting an edge removes its
        entries too. */
    method Delete(key: Key) returns (found: bool)
      requires Valid()
      modifies this
      ensures Valid() && found == (key in old(nodes))
      ensures !found ==> View() == old(View())
      ensures found && !old(nodes)[key].IsEdge() ==> VertexGone(old(View()), View(), key)
      ensures found && old(nodes)[key].IsEdge() ==>
              EdgeGone(old(View()), View(), key, old(nodes)[key].Source(), old(nodes)[key].Target())
    {
      hide Sound, Fresh, Dropped, EdgeAt, IsTotal, VertexGone, EdgeGone, WithoutEdge, Unlinked;
      if key !in nodes {
        return false;
      }
      ghost var s := View();
      ghost var c := Cached();
      var stored := nodes[key];
      DropSequences(key);
      ghost var c1 := Cached();
      if stored.IsEdge() {
        DropSequences(stored.Source());
        DropFresh(s, s, rank, c, c1, key);
        EdgeStored(s, key);
        EdgeGoneBy(s, key);
        DropEdge(stored.Source(), stored.Target());
        DeleteEdgeFresh(s, View(), key, rank, c1, Cached());
      } else {
        DropIncident(key);
        VertexGoneBy(s, View(), key);
        nodes := nodes - {key};
        DeleteVertexFresh(s, View(), key, rank, c, c1);
      }
      return true;
    }

    static lemma EdgeStored(s: Store, e: Key)
      requires Sound(s) && e in s.nodes && s.nodes[e].IsEdge()
      ensures EdgeAt(s.targets, s.nodes[e].Source(), s.nodes[e].Target()) == Some(e)
    {
    }

    static lemma EdgeGoneBy(s: Store, e: Key)
      requires Sound(s) && e in s.nodes && s.nodes[e].IsEdge()
      ensures var t := WithoutEdge(s, s.nodes[e].Source(), s.nodes[e].Target());
              Sound(t) && EdgeGone(s, t, e, s.nodes[e].Source(), s.nodes[e].Target())
    {
      hide Sound;
      EdgeStored(s, e);
      WithoutEdgeSound(s, s.nodes[e].Source(), s.nodes[e].Target());
    }

    static lemma VertexGoneBy(s: Store, t: Store, key: Key)
      requires Sound(s) && Sound(t) && key in s.nodes && !s.nodes[key].IsEdge()
      requires forall x, y :: EdgeAt(t.targets, x, y) == if x == key || y == key then None else EdgeAt(s.targets, x, y)
      requires forall k :: k in t.nodes <==> k in s.nodes && !Touches(s.nodes[k], key)
      requires forall k :: k in t.nodes ==> t.nodes[k] == s.nodes[k]
      ensures var u := t.(nodes := t.nodes - {key}); Sound(u) && VertexGone(s, u, key)
    {
      hide Sound, EdgeAt;
      WithoutVertexSound(t, key);
    }

    // ------------------------------------------------------------ counting

    /** The number of relationships: every row's entries. */
    method Size() returns (size: nat)
      requires Valid()
      ensures size == |EdgeNodes(View())|
    {
      hide Fresh, IsTotal, EdgeNodes;
      size := 0;
      var rest := targets.Keys;
      ghost var done: Rows := map[];
      NoPairs();
      while rest != {}
        invariant rest <= targets.Keys && done.Keys == targets.Keys - rest
                && (forall a :: a in done ==> done[a] == targets[a])
        invariant size == |Pairs(done)|
        decreases rest
      {
        var a :| a in rest;
        MorePairs(done, a, targets[a]);
        size := size + |targets[a]|;
        done := done[a := targets[a]];
        rest := rest - {a};
      }
      assert done == targets;
      PairsAreEdges(View());
    }

    static lemma NoPairs()
      ensures |Pairs(map[])| == 0
    {
      assert Pairs(map[]) == {};
    }

    static lemma MorePairs(m: Rows, a: Key, row: map<Key, Key>)
      requires a !in m
      ensures |Pairs(m[a := row])| == |Pairs(m)| + |row|
    {
      var added := set b | b in row.Keys :: (a, b);
      RowPairs(a, row.Keys);
      PairsWith(m, a, row, added);
      forall p ensures !(p in Pairs(m) && p in added) {
        assert p in Pairs(m) ==> p.0 in m;
      }
      Together(Pairs(m), added);
      assert |row.Keys| == |row|;
    }

    static lemma PairsWith(m: Rows, a: Key, row: map<Key, Key>, added: set<(Key, Key)>)
      requires a !in m && forall p :: p in added <==> p.0 == a && p.1 in row
      ensures Pairs(m[a := row]) == Pairs(m) + added
    {
    }

    static lemma Together(x: set<(Key, Key)>, y: set<(Key, Key)>)
      requires forall p :: !(p in x && p in y)
      ensures |x + y| == |x| + |y|
    {
      assert x !! y;
    }

    static lemma {:induction false} RowPairs(a: Key, bs: set<Key>)
      ensures |set b | b in bs :: (a, b)| == |bs|
    {
      if bs != {} {
        var b :| b in bs;
        RowPairs(a, bs - {b});
        assert (set x | x in bs :: (a, x)) == (set x | x in bs - {b} :: (a, x)) + {(a, b)};
      } else {
        assert (set x | x in bs :: (a, x)) == {};
      }
    }

    // ------------------------------------------------------------ neighbours in time

    /** An anchor's members in write order, built and cached on first use. */
    method SequenceOf(anchor: Key) returns (keys: seq<Key>)
      requires Valid()
      modifies `sequences
      ensures Valid() && IsSequence(View(), rank, anchor, keys) && anchor in sequences
      ensures forall a :: a in old(sequences) ==> a in sequences
    {
      hide Sound, EdgeAt, IsTotal, IsSequence;
      if anchor in sequences {
        return sequences[anchor];
      }
      var members: seq<Key> := [];
      var rest := Row(sources, anchor).Keys;
      NoneListed();
      while rest != {}
        invariant rest <= Row(sources, anchor).Keys
        invariant forall m :: Lists(members, m) <==>
                m in Row(sources, anchor) && m !in rest && m in nodes && nodes[m].Fact?
        invariant forall i, j :: 0 <= i < j < |members| ==> members[i] != members[j]
        decreases rest
      {
        var m :| m in rest;
        if m in nodes && nodes[m].Fact? {
          forall x ensures Lists(members + [m], x) <==> x == m || Lists(members, x) {
            ListsSnoc(members, m, x);
          }
          assert !Lists(members, m);
          members := members + [m];
        }
        rest := rest - {m};
      }
      keys := SortBy(Store(nodes, targets, sources), rank, members);
      SortBySorts(View(), rank, members);
      MembersInRow(View(), anchor);
      IsSequenceBy(View(), rank, anchor, keys);
      sequences := sequences[anchor := keys];
    }

    static lemma NoneListed()
      ensures forall k :: !Lists([], k)
    {
    }

    static lemma MembersInRow(s: Store, anchor: Key)
      ensures forall m :: Member(s, anchor, m) <==> m in Row(s.sources, anchor) && m in s.nodes && s.nodes[m].Fact?
    {
    }

    static lemma IsSequenceBy(s: Store, rank: Order, anchor: Key, keys: seq<Key>)
      requires Ordered(s, rank, keys) && forall m :: Lists(keys, m) <==> Member(s, anchor, m)
      ensures IsSequence(s, rank, anchor, keys)
    {
      hide Member, Before;
      forall i | 0 <= i < |keys| ensures Member(s, anchor, keys[i]) {
        assert Lists(keys, keys[i]);
      }
    }

    /** The facts written just before and after key under each of its anchors, each once,
        in key order; cached until a write drops it. */
    method Contiguous(key: Key) returns (out: seq<Key>)
      requires Valid()
      modifies `sequences, `contiguity
      ensures Valid() && IsContiguity(View(), rank, key, out)
    {
      hide Sound, EdgeAt, IsTotal, IsSequence, IsContiguity, Beside, Member;
      if key in contiguity {
        return contiguity[key];
      }
      var found: seq<Key> := [];
      var rest := Row(targets, key).Keys;
      ghost var s := View();
      NoneListed();
      while rest != {}
        invariant Valid() && View() == s && contiguity == old(contiguity) && rest <= Row(targets, key).Keys
        invariant forall n :: Lists(found, n) <==> BesideUnder(s, rank, Row(targets, key).Keys - rest, key, n)
        invariant forall a :: a in Row(targets, key) && a !in rest && IsAnchor(s, a) ==> a in sequences
        decreases rest
      {
        var a :| a in rest;
        ghost var before := found;
        if a in nodes && nodes[a].IsAnchor() {
          var keys := SequenceOf(a);
          var at := Position(keys, key);
          if at.Some? {
            var near := Around(keys, at.value);
            found := found + near;
            NextTo(s, rank, a, keys, at.value, before);
          } else {
            NotMember(s, rank, a, keys, key);
          }
        }
        MoreBeside(s, rank, Row(targets, key).Keys - rest, a, key);
        assert Row(targets, key).Keys - (rest - {a}) == Row(targets, key).Keys - rest + {a};
        rest := rest - {a};
      }
      out := SortOnce(rank, found);
      SortOnceSorts(rank, found);
      ContiguityBy(s, rank, key, found, out);
      FiledInRow(s, key);
      contiguity := contiguity[key := out];
    }

    /** Whether some of the anchors given put n beside key. */
    ghost static predicate BesideUnder(s: Store, rank: Order, anchors: set<Key>, key: Key, n: Key) {
      exists a :: a in anchors && IsAnchor(s, a) && Beside(s, rank, a, key, n)
    }

    static lemma MoreBeside(s: Store, rank: Order, anchors: set<Key>, a: Key, key: Key)
      ensures forall n :: BesideUnder(s, rank, anchors + {a}, key, n) <==>
              BesideUnder(s, rank, anchors, key, n) || (IsAnchor(s, a) && Beside(s, rank, a, key, n))
    {
      hide Beside, IsAnchor;
    }

    static lemma NextTo(s: Store, rank: Order, a: Key, keys: seq<Key>, i: nat, found: seq<Key>)
      requires IsSequence(s, rank, a, keys) && i < |keys|
      ensures forall n :: Lists(found + Around(keys, i), n) <==> Lists(found, n) || Beside(s, rank, a, keys[i], n)
    {
      hide IsSequence, Beside, Around;
      forall n ensures Lists(found + Around(keys, i), n) <==> Lists(found, n) || Beside(s, rank, a, keys[i], n) {
        AroundIsBeside(s, rank, a, keys, i, n);
        AroundLists(keys, i, n);
        ListsEither(found, Around(keys, i), n);
      }
    }

    static lemma ListsEither(a: seq<Key>, b: seq<Key>, x: Key)
      ensures Lists(a + b, x) <==> Lists(a, x) || Lists(b, x)
    {
      var t := a + b;
      if Lists(a, x) {
        var i :| 0 <= i < |a| && a[i] == x;
        assert t[i] == x;
      }
      if Lists(b, x) {
        var i :| 0 <= i < |b| && b[i] == x;
        assert t[|a| + i] == x;
      }
      if Lists(t, x) {
        var i :| 0 <= i < |t| && t[i] == x;
        assert i < |a| ==> a[i] == x;
        assert i >= |a| ==> b[i - |a|] == x;
      }
    }

    static lemma NotMember(s: Store, rank: Order, a: Key, keys: seq<Key>, key: Key)
      requires IsSequence(s, rank, a, keys) && forall i :: 0 <= i < |keys| ==> keys[i] != key
      ensures forall n :: !Beside(s, rank, a, key, n)
    {
      hide Member, Before;
    }

    static lemma ContiguityBy(s: Store, rank: Order, key: Key, found: seq<Key>, out: seq<Key>)
      requires Ascends(rank, out) && forall n :: Lists(out, n) <==> Lists(found, n)
      requires forall n :: Lists(found, n) <==> BesideUnder(s, rank, Row(s.targets, key).Keys, key, n)
      ensures IsContiguity(s, rank, key, out)
    {
      hide Beside, IsAnchor;
      forall n ensures Neighbours(s, rank, key, n) <==> BesideUnder(s, rank, Row(s.targets, key).Keys, key, n) {
      }
      hide Neighbours, BesideUnder;
      forall i | 0 <= i < |out| ensures Neighbours(s, rank, key, out[i]) {
        assert Lists(out, out[i]);
      }
    }

    static lemma FiledInRow(s: Store, key: Key)
      ensures forall a :: Filed(s, key, a) ==> a in Row(s.targets, key) && IsAnchor(s, a)
    {
    }
  }

  /** Two writes after which a fact is not filed under the one topic it was remembered
      with: the other fact's edge holds the key. */
  method LostToAnchor(rank: Order) returns (g: Graph)
    requires IsTotal(rank)
    ensures g.Valid() && Key(FactTag, "a") in g.nodes && !IsFiled(g.View(), "a", "b\0c", true)
  {
    hide Sound, Fresh, IsTotal, Remembered, Open, IsFiled;
    g := new Graph(rank);
    ghost var s0 := g.View();
    g.Remember("a\0b", 0, [], ["c"]);
    ghost var s1 := g.View();
    FiledExactly(s0, "a\0b", 0, [], ["c"], "c", true);
    FirstOpen(s0);
    SecondShut(s1);
    g.Remember("a", 1, [], ["b\0c"]);
    RememberedRest(s1, "a", 1, [], ["b\0c"]);
    FiledExactly(s1, "a", 1, [], ["b\0c"], "b\0c", true);
  }

  lemma FirstOpen(s: Store)
    requires s.nodes == map[]
    ensures Open(s, "a\0b", "c", true)
  {
  }

  lemma SecondShut(s: Store)
    requires Sound(s) && IsFiled(s, "a\0b", "c", true)
    ensures !Open(s, "a", "b\0c", true)
  {
    hide Sound, EdgeAt;
    var e := IsAbout("a\0b", "c", 0);
    assert Material("a\0b", "c") == Material("a", "b\0c") by {
      assert "a\0b" + "\0" + "c" == "a" + "\0" + "b\0c";
    }
    EdgeUnderKey(s, e);
    assert |"a\0b"| != |"a"|;
  }

  /** A linked pair's edge is under its key. */
  lemma EdgeUnderKey(s: Store, e: Node)
    requires Sound(s) && e.IsEdge() && EdgeAt(s.targets, e.Source(), e.Target()).Some?
    ensures e.Id() in s.nodes && s.nodes[e.Id()].IsEdge()
    ensures s.nodes[e.Id()].fact == e.fact && s.nodes[e.Id()].anchor == e.anchor
  {
    hide EdgeAt, NoEmptyRow, Material;
    var at := EdgeAt(s.targets, e.Source(), e.Target()).value;
    assert IsStoredEdge(s, e.Source(), e.Target(), at);
    IdTag(e);
    IdTag(s.nodes[at]);
    SamePairSameKey(s.nodes[at], e);
  }
}
