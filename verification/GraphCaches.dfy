/** The two derived caches: each anchor's members in write order, and each fact's
    neighbours in time; what dropping them keeps true of the rest. */
module GraphCaches {
  import opened Wrappers
  import opened GraphModel

  type Order = Key -> int

  /** The key order is total: distinct keys have distinct ranks. */
  ghost predicate IsTotal(rank: Order) { forall a, b :: rank(a) == rank(b) ==> a == b }

  /** A fact filed under an anchor. */
  predicate Member(s: Store, anchor: Key, m: Key) {
    EdgeAt(s.sources, anchor, m).Some? && m in s.nodes && s.nodes[m].Fact?
  }

  predicate IsAnchor(s: Store, k: Key) { k in s.nodes && s.nodes[k].IsAnchor() }

  function Time(s: Store, k: Key): int { if k in s.nodes then s.nodes[k].time else 0 }

  /** Write order: by timestamp, then by key. */
  predicate Before(s: Store, rank: Order, x: Key, y: Key) {
    Time(s, x) < Time(s, y) || (Time(s, x) == Time(s, y) && rank(x) < rank(y))
  }

  /** The anchor's members in write order. */
  ghost predicate IsSequence(s: Store, rank: Order, anchor: Key, keys: seq<Key>) {
    && (forall i, j :: 0 <= i < j < |keys| ==> Before(s, rank, keys[i], keys[j]))
    && (forall i :: 0 <= i < |keys| ==> Member(s, anchor, keys[i]))
    && (forall m :: Member(s, anchor, m) ==> exists i :: 0 <= i < |keys| && keys[i] == m)
  }

  /** x immediately before y among the members of an anchor. */
  ghost predicate Follows(s: Store, rank: Order, anchor: Key, x: Key, y: Key) {
    && Member(s, anchor, x) && Member(s, anchor, y) && Before(s, rank, x, y)
    && forall m :: Member(s, anchor, m) ==> !(Before(s, rank, x, m) && Before(s, rank, m, y))
  }

  ghost predicate Beside(s: Store, rank: Order, anchor: Key, x: Key, y: Key) {
    Follows(s, rank, anchor, x, y) || Follows(s, rank, anchor, y, x)
  }

  /** Two facts next to each other in time under an anchor both are filed under. */
  ghost predicate Neighbours(s: Store, rank: Order, x: Key, y: Key) {
    exists a :: EdgeAt(s.targets, x, a).Some? && IsAnchor(s, a) && Beside(s, rank, a, x, y)
  }

  /** A fact's neighbours, each once, in key order. */
  ghost predicate IsContiguity(s: Store, rank: Order, key: Key, out: seq<Key>) {
    && (forall i, j :: 0 <= i < j < |out| ==> rank(out[i]) < rank(out[j]))
    && (forall i :: 0 <= i < |out| ==> Neighbours(s, rank, key, out[i]))
    && (forall n :: Neighbours(s, rank, key, n) ==> exists i :: 0 <= i < |out| && out[i] == n)
  }

  /** a neighbours b exactly when b neighbours a. */
  lemma NeighboursSymmetric(s: Store, rank: Order, x: Key, y: Key)
    requires Sound(s)
    ensures Neighbours(s, rank, x, y) <==> Neighbours(s, rank, y, x)
  {
    hide EdgeAt, Before, Material, NoEmptyRow;
    if Neighbours(s, rank, x, y) {
      var a :| EdgeAt(s.targets, x, a).Some? && IsAnchor(s, a) && Beside(s, rank, a, x, y);
      assert EdgeAt(s.targets, y, a) == EdgeAt(s.sources, a, y);
      assert Beside(s, rank, a, y, x);
    }
    if Neighbours(s, rank, y, x) {
      var a :| EdgeAt(s.targets, y, a).Some? && IsAnchor(s, a) && Beside(s, rank, a, y, x);
      assert EdgeAt(s.targets, x, a) == EdgeAt(s.sources, a, x);
      assert Beside(s, rank, a, x, y);
    }
  }

  lemma {:induction false} OncePerKey(rank: Order, out: seq<Key>, x: Key)
    requires forall i, j :: 0 <= i < j < |out| ==> rank(out[i]) < rank(out[j])
    ensures multiset(out)[x] == if exists i :: 0 <= i < |out| && out[i] == x then 1 else 0
  {
    if out != [] {
      var n := |out| - 1;
      assert out == out[..n] + [out[n]];
      OncePerKey(rank, out[..n], x);
      if exists i :: 0 <= i < n && out[i] == x {
        var i :| 0 <= i < n && out[i] == x;
        assert out[..n][i] == x;
      }
      if exists i :: 0 <= i < n && out[..n][i] == x {
        var i :| 0 <= i < n && out[..n][i] == x;
        assert out[i] == x;
      }
      assert out[n] == x ==> exists i :: 0 <= i < |out| && out[i] == x;
      if exists i :: 0 <= i < |out| && out[i] == x {
        var i :| 0 <= i < |out| && out[i] == x;
        assert i < n ==> out[..n][i] == x;
      }
    }
  }

  /** Two facts' neighbour lists name each other equally often: what a window search
      needs of them. */
  lemma ContiguitySymmetric(s: Store, rank: Order, x: Key, xs: seq<Key>, y: Key, ys: seq<Key>)
    requires Sound(s) && IsContiguity(s, rank, x, xs) && IsContiguity(s, rank, y, ys)
    ensures multiset(xs)[y] == multiset(ys)[x]
  {
    hide Neighbours;
    NeighboursSymmetric(s, rank, x, y);
    OncePerKey(rank, xs, y);
    OncePerKey(rank, ys, x);
  }

  // ---------------------------------------------------------------- the caches

  datatype Caches = Caches(sequences: map<Key, seq<Key>>, contiguity: map<Key, seq<Key>>)

  predicate Lists(s: seq<Key>, x: Key) { exists i :: 0 <= i < |s| && s[i] == x }

  /** A cached sequence or neighbour list equals its recomputation, and every cached
      neighbour list rests on sequences still cached. */
  ghost predicate Fresh(s: Store, rank: Order, c: Caches) {
    && (forall a :: a in c.sequences ==> IsSequence(s, rank, a, c.sequences[a]))
    && (forall k :: k in c.contiguity ==> IsContiguity(s, rank, k, c.contiguity[k]))
    && (forall k, a :: k in c.contiguity && Filed(s, k, a) ==> a in c.sequences)
  }

  /** A fact filed under a stored anchor. */
  predicate Filed(s: Store, k: Key, a: Key) { EdgeAt(s.targets, k, a).Some? && IsAnchor(s, a) && Member(s, a, k) }

  /** What dropSequences walks: key and every node adjacent to it. */
  predicate Adjacent(s: Store, key: Key, a: Key) {
    a == key || EdgeAt(s.targets, key, a).Some? || EdgeAt(s.sources, key, a).Some?
  }

  ghost predicate ListedAround(s: Store, c: Caches, key: Key, k: Key) {
    exists a :: Adjacent(s, key, a) && a in c.sequences && Lists(c.sequences[a], k)
  }

  /** What may stay cached after dropping around key: no dropped anchor's sequence, not
      key's neighbours, and no list of a dropped sequence's member. */
  ghost predicate Dropped(s: Store, c: Caches, d: Caches, key: Key) {
    && (forall a :: a in d.sequences <==> a in c.sequences && !Adjacent(s, key, a))
    && (forall a :: a in d.sequences ==> d.sequences[a] == c.sequences[a])
    && (forall k :: k in d.contiguity <==> k in c.contiguity && k != key && !ListedAround(s, c, key, k))
    && (forall k :: k in d.contiguity ==> d.contiguity[k] == c.contiguity[k])
  }

  /** Which members an anchor has, and when they were written, is the same in both. */
  ghost predicate SameMembers(s: Store, t: Store, a: Key) {
    forall m :: (Member(t, a, m) <==> Member(s, a, m)) && (Member(s, a, m) ==> Time(t, m) == Time(s, m))
  }

  lemma SameSequence(s: Store, t: Store, rank: Order, a: Key, keys: seq<Key>)
    requires SameMembers(s, t, a) && IsSequence(s, rank, a, keys)
    ensures IsSequence(t, rank, a, keys)
  {
    hide Member, Time;
  }

  lemma SameBeside(s: Store, t: Store, rank: Order, a: Key, x: Key, y: Key)
    requires SameMembers(s, t, a)
    ensures Beside(t, rank, a, x, y) <==> Beside(s, rank, a, x, y)
  {
    hide Member, Time;
  }

  /** A fact filed under the same anchors with the same members has the same neighbours. */
  lemma SameNeighbours(s: Store, t: Store, rank: Order, key: Key)
    requires forall a :: Filed(t, key, a) <==> Filed(s, key, a)
    requires forall a :: Filed(s, key, a) ==> SameMembers(s, t, a)
    ensures forall n :: Neighbours(t, rank, key, n) <==> Neighbours(s, rank, key, n)
  {
    hide EdgeAt, Member, SameMembers;
    forall n ensures Neighbours(t, rank, key, n) <==> Neighbours(s, rank, key, n) {
      forall a | Filed(s, key, a) ensures Beside(t, rank, a, key, n) <==> Beside(s, rank, a, key, n) {
        SameBeside(s, t, rank, a, key, n);
      }
      forall a ensures EdgeAt(s.targets, key, a).Some? && IsAnchor(s, a) && Beside(s, rank, a, key, n) <==>
          Filed(s, key, a) && Beside(s, rank, a, key, n) {
        BesideIsFiled(s, rank, a, key, n);
      }
      forall a ensures EdgeAt(t.targets, key, a).Some? && IsAnchor(t, a) && Beside(t, rank, a, key, n) <==>
          Filed(t, key, a) && Beside(t, rank, a, key, n) {
        BesideIsFiled(t, rank, a, key, n);
      }
    }
  }

  lemma BesideIsFiled(s: Store, rank: Order, a: Key, x: Key, y: Key)
    ensures Beside(s, rank, a, x, y) ==> Member(s, a, x)
  {
  }

  /** A cached list rests on the sequences of all its fact's anchors, so what survives a
      drop, around key in some rows, is filed under none of the dropped anchors. */
  lemma KeptRests(s: Store, r: Store, rank: Order, c: Caches, d: Caches, key: Key, k: Key, a: Key)
    requires Fresh(s, rank, c) && Dropped(r, c, d, key) && k in d.contiguity && Filed(s, k, a)
    ensures a in d.sequences && !Adjacent(r, key, a) && k != key
  {
    hide EdgeAt, Before, Adjacent;
    assert a in c.sequences;
    assert IsSequence(s, rank, a, c.sequences[a]);
    assert Lists(c.sequences[a], k);
  }

  /** The caches left after a write are fresh if what they rest on was not changed. */
  lemma StillFresh(s: Store, t: Store, rank: Order, c: Caches, d: Caches)
    requires Fresh(s, rank, c)
    requires forall a :: a in d.sequences ==>
            a in c.sequences && d.sequences[a] == c.sequences[a] && SameMembers(s, t, a)
    requires forall k :: k in d.contiguity ==> k in c.contiguity && d.contiguity[k] == c.contiguity[k]
    requires forall k, a :: k in d.contiguity ==>
            (Filed(t, k, a) <==> Filed(s, k, a)) && (Filed(s, k, a) ==> a in d.sequences)
    ensures Fresh(t, rank, d)
  {
    hide Sound, SameMembers, IsSequence, Neighbours, Filed;
    forall a | a in d.sequences ensures IsSequence(t, rank, a, d.sequences[a]) {
      SameSequence(s, t, rank, a, c.sequences[a]);
    }
    forall k | k in d.contiguity ensures IsContiguity(t, rank, k, d.contiguity[k]) {
      SameNeighbours(s, t, rank, k);
    }
  }

  lemma SameItself(s: Store, a: Key)
    ensures SameMembers(s, s, a)
  {
  }

  /** Dropping only forgets: what is left is as fresh as before. */
  lemma DropFresh(s: Store, r: Store, rank: Order, c: Caches, d: Caches, key: Key)
    requires Sound(s) && Fresh(s, rank, c) && Dropped(r, c, d, key)
    ensures Fresh(s, rank, d)
  {
    hide Sound, SameMembers, IsSequence, Neighbours, Filed, Adjacent, ListedAround;
    forall a ensures SameMembers(s, s, a) {
      SameItself(s, a);
    }
    forall k, a | k in d.contiguity && Filed(s, k, a) {
      KeptRests(s, r, rank, c, d, key, k, a);
    }
    StillFresh(s, s, rank, c, d);
  }

  // ---------------------------------------------------------------- storing

  /** Every node under its own key, and rows that are transposes. */
  ghost predicate Mirrored(s: Store) {
    && (forall k :: k in s.nodes ==> s.nodes[k].Id() == k)
    && (forall a, b :: EdgeAt(s.targets, a, b) == EdgeAt(s.sources, b, a))
  }

  /** Storing a vertex changes the members only of anchors next to it. */
  lemma VertexSameMembers(s: Store, n: Node, a: Key)
    requires Mirrored(s) && !n.IsEdge() && !Adjacent(s, n.Id(), a)
    ensures SameMembers(s, Stored(s, n), a)
  {
    hide EdgeAt, Material;
    assert EdgeAt(s.targets, n.Id(), a) == EdgeAt(s.sources, a, n.Id());
  }

  /** And what is filed under it alone. */
  lemma VertexSameFiled(s: Store, n: Node, k: Key, a: Key)
    requires Mirrored(s) && !n.IsEdge() && k != n.Id() && (a == n.Id() && n.IsAnchor() ==> !Member(s, a, k))
    ensures Filed(Stored(s, n), k, a) <==> Filed(s, k, a)
  {
    hide EdgeAt, Material;
    IdTag(n);
    if a in s.nodes {
      IdTag(s.nodes[a]);
    }
  }

  /** No cached list is of a fact already filed under the vertex. */
  ghost predicate Unlisted(s: Store, c: Caches, n: Node) {
    n.IsAnchor() ==> forall k :: k in c.contiguity ==> !Member(s, n.Id(), k)
  }

  /** Storing a vertex keeps the caches fresh exactly when no list still cached is of a
      fact whose edge to it came first. */
  lemma StoreVertexFreshIff(s: Store, n: Node, rank: Order, c: Caches, d: Caches)
    requires Mirrored(s) && !n.IsEdge() && Fresh(s, rank, c) && Dropped(s, c, d, n.Id())
    ensures Fresh(Stored(s, n), rank, d) <==> Unlisted(s, d, n)
  {
    hide Mirrored, SameMembers, IsSequence, Neighbours, Filed, Adjacent, ListedAround, Stored, Fresh, Member;
    if Unlisted(s, d, n) {
      forall a | a in d.sequences ensures SameMembers(s, Stored(s, n), a) {
        VertexSameMembers(s, n, a);
      }
      forall k, a | k in d.contiguity
        ensures (Filed(Stored(s, n), k, a) <==> Filed(s, k, a)) && (Filed(s, k, a) ==> a in d.sequences)
      {
        VertexSameFiled(s, n, k, a);
        if Filed(s, k, a) {
          KeptRests(s, s, rank, c, d, n.Id(), k, a);
        }
      }
      StillFresh(s, Stored(s, n), rank, c, d);
    } else {
      var k :| k in d.contiguity && Member(s, n.Id(), k);
      FiledNow(s, n, k);
      RestsNow(Stored(s, n), s, rank, c, d, n.Id(), k);
    }
  }

  lemma FiledNow(s: Store, n: Node, k: Key)
    requires Mirrored(s) && n.IsAnchor() && Member(s, n.Id(), k) && k != n.Id()
    ensures Filed(Stored(s, n), k, n.Id())
  {
    hide EdgeAt, Material;
    assert EdgeAt(s.targets, k, n.Id()) == EdgeAt(s.sources, n.Id(), k);
  }

  /** A list that rests on a sequence just dropped is not fresh. */
  lemma RestsNow(t: Store, s: Store, rank: Order, c: Caches, d: Caches, key: Key, k: Key)
    requires Dropped(s, c, d, key) && k in d.contiguity && Filed(t, k, key)
    ensures !Fresh(t, rank, d)
  {
    hide IsSequence, IsContiguity, Filed;
    assert Adjacent(s, key, key);
  }

  /** With endpoints stored before edges there is no such list. */
  lemma StoreVertexFresh(s: Store, n: Node, rank: Order, c: Caches, d: Caches)
    requires Sound(s) && !n.IsEdge() && Fresh(s, rank, c) && Dropped(s, c, d, n.Id())
    ensures Fresh(Stored(s, n), rank, d)
  {
    forall k | k in d.contiguity && n.IsAnchor() && Member(s, n.Id(), k) ensures false {
      SoundFiled(s, n, k);
      KeptRests(s, s, rank, c, d, n.Id(), k, n.Id());
    }
    hide Fresh, Member, Dropped, Stored;
    StoreVertexFreshIff(s, n, rank, c, d);
  }

  lemma SoundFiled(s: Store, n: Node, k: Key)
    requires Sound(s) && n.IsAnchor() && Member(s, n.Id(), k)
    ensures Filed(s, k, n.Id())
  {
    hide EdgeAt, NoEmptyRow, Material;
    assert EdgeAt(s.targets, k, n.Id()) == EdgeAt(s.sources, n.Id(), k);
    assert IsStoredEdge(s, k, n.Id(), EdgeAt(s.targets, k, n.Id()).value);
    IdTag(n);
    IdTag(s.nodes[n.Id()]);
  }

  /** Storing an edge changes the members of its target alone, and what its source alone
      is filed under. */
  lemma EdgeSame(s: Store, n: Node, a: Key, k: Key)
    requires Sound(s) && Fits(s, n) && n.IsEdge()
    ensures a != n.Target() ==> SameMembers(s, Stored(s, n), a)
    ensures k != n.Source() ==> (Filed(Stored(s, n), k, a) <==> Filed(s, k, a))
  {
    hide EdgeAt, NoEmptyRow, Linked, Material;
    LinkedAt(s.targets, n.Source(), n.Target(), n.Id());
    LinkedAt(s.sources, n.Target(), n.Source(), n.Id());
    IdTag(n);
    if n.Id() in s.nodes {
      IdTag(s.nodes[n.Id()]);
    }
  }

  lemma StoreEdgeFresh(s: Store, n: Node, rank: Order, c: Caches, d: Caches)
    requires Sound(s) && Fits(s, n) && n.IsEdge() && Fresh(s, rank, c) && Dropped(Stored(s, n), c, d, n.Source())
    ensures Fresh(Stored(s, n), rank, d)
  {
    hide Sound, SameMembers, IsSequence, Neighbours, Filed, ListedAround, Stored, Fresh, EdgeAt, Linked;
    StoredSound(s, n);
    assert Adjacent(Stored(s, n), n.Source(), n.Target()) by { LinkedNow(s, n); }
    hide Adjacent;
    forall a | a in d.sequences ensures SameMembers(s, Stored(s, n), a) {
      EdgeSame(s, n, a, n.Source());
    }
    forall k, a | k in d.contiguity
      ensures (Filed(Stored(s, n), k, a) <==> Filed(s, k, a)) && (Filed(s, k, a) ==> a in d.sequences)
    {
      EdgeSame(s, n, a, k);
      if Filed(s, k, a) {
        KeptRests(s, Stored(s, n), rank, c, d, n.Source(), k, a);
      }
    }
    StillFresh(s, Stored(s, n), rank, c, d);
  }

  lemma LinkedNow(s: Store, n: Node)
    requires n.IsEdge()
    ensures EdgeAt(Stored(s, n).targets, n.Source(), n.Target()) == Some(n.Id())
  {
    LinkedAt(s.targets, n.Source(), n.Target(), n.Id());
  }

  // ---------------------------------------------------------------- deleting

  /** The store after deleting a vertex: no edge of its own, and not itself. */
  ghost predicate VertexGone(s: Store, t: Store, key: Key) {
    && (forall x, y :: EdgeAt(t.targets, x, y) == if x == key || y == key then None else EdgeAt(s.targets, x, y))
    && (forall k :: k in t.nodes <==> k in s.nodes && k != key && !Touches(s.nodes[k], key))
    && (forall k :: k in t.nodes ==> t.nodes[k] == s.nodes[k])
  }

  /** The store after deleting an edge: neither its entry nor its node. */
  ghost predicate EdgeGone(s: Store, t: Store, e: Key, a: Key, b: Key) {
    && (forall x, y :: EdgeAt(t.targets, x, y) == if x == a && y == b then None else EdgeAt(s.targets, x, y))
    && (forall k :: k in t.nodes <==> k in s.nodes && k != e)
    && (forall k :: k in t.nodes ==> t.nodes[k] == s.nodes[k])
  }

  lemma VertexGoneSame(s: Store, t: Store, key: Key, a: Key, k: Key)
    requires Sound(s) && Sound(t) && VertexGone(s, t, key)
    ensures !Adjacent(s, key, a) ==> SameMembers(s, t, a)
    ensures k != key && a != key ==> (Filed(t, k, a) <==> Filed(s, k, a))
    ensures !Filed(t, k, key)
  {
    hide EdgeAt, NoEmptyRow, Material;
    assert EdgeAt(s.targets, key, a) == EdgeAt(s.sources, a, key);
    forall m ensures EdgeAt(t.sources, a, m) == if m == key || a == key then None else EdgeAt(s.sources, a, m) {
      assert EdgeAt(t.targets, m, a) == EdgeAt(t.sources, a, m);
      assert EdgeAt(s.targets, m, a) == EdgeAt(s.sources, a, m);
    }
    hide Sound;
  }

  lemma DeleteVertexFresh(s: Store, t: Store, key: Key, rank: Order, c: Caches, d: Caches)
    requires Sound(s) && Sound(t) && VertexGone(s, t, key) && Fresh(s, rank, c) && Dropped(s, c, d, key)
    ensures Fresh(t, rank, d)
  {
    hide Sound, SameMembers, IsSequence, Neighbours, Filed, ListedAround, Fresh, EdgeAt, VertexGone;
    assert Adjacent(s, key, key);
    hide Adjacent;
    forall a | a in d.sequences ensures SameMembers(s, t, a) {
      VertexGoneSame(s, t, key, a, key);
    }
    forall k, a | k in d.contiguity
      ensures (Filed(t, k, a) <==> Filed(s, k, a)) && (Filed(s, k, a) ==> a in d.sequences)
    {
      VertexGoneSame(s, t, key, a, k);
      if Filed(s, k, a) {
        KeptRests(s, s, rank, c, d, key, k, a);
      }
    }
    StillFresh(s, t, rank, c, d);
  }

  lemma EdgeGoneSame(s: Store, t: Store, e: Key, src: Key, tgt: Key, a: Key, k: Key)
    requires Sound(s) && Sound(t) && e in s.nodes && s.nodes[e].IsEdge() && src == s.nodes[e].Source()
            && tgt == s.nodes[e].Target()
    requires EdgeGone(s, t, e, src, tgt)
    ensures a != tgt ==> SameMembers(s, t, a)
    ensures k != src ==> (Filed(t, k, a) <==> Filed(s, k, a))
  {
    hide EdgeAt, NoEmptyRow, Material;
    IdTag(s.nodes[e]);
    forall m ensures EdgeAt(t.sources, a, m) == if m == src && a == tgt then None else EdgeAt(s.sources, a, m) {
      assert EdgeAt(t.targets, m, a) == EdgeAt(t.sources, a, m);
      assert EdgeAt(s.targets, m, a) == EdgeAt(s.sources, a, m);
    }
    hide Sound;
  }

  lemma DeleteEdgeFresh(s: Store, t: Store, e: Key, rank: Order, c: Caches, d: Caches)
    requires Sound(s) && Sound(t) && e in s.nodes && s.nodes[e].IsEdge()
    requires EdgeGone(s, t, e, s.nodes[e].Source(), s.nodes[e].Target()) && Fresh(s, rank, c)
            && Dropped(s, c, d, s.nodes[e].Source())
    ensures Fresh(t, rank, d)
  {
    var src, tgt := s.nodes[e].Source(), s.nodes[e].Target();
    assert EdgeAt(s.targets, src, tgt) == Some(e);
    hide Sound, SameMembers, IsSequence, Neighbours, Filed, ListedAround, Fresh, EdgeAt, EdgeGone;
    assert Adjacent(s, src, tgt);
    hide Adjacent;
    forall a | a in d.sequences ensures SameMembers(s, t, a) {
      EdgeGoneSame(s, t, e, src, tgt, a, src);
    }
    forall k, a | k in d.contiguity
      ensures (Filed(t, k, a) <==> Filed(s, k, a)) && (Filed(s, k, a) ==> a in d.sequences)
    {
      EdgeGoneSame(s, t, e, src, tgt, a, k);
      if Filed(s, k, a) {
        KeptRests(s, s, rank, c, d, src, k, a);
      }
    }
    StillFresh(s, t, rank, c, d);
  }

  // ---------------------------------------------------------------- why endpoints come first

  /** Two facts filed under a topic that is not stored yet, and a neighbour list cached
      for one of them. */
  function TooEarly(): Store {
    var f, g, t := Fact("f", 1), Fact("g", 2), Key(TopicTag, "t");
    var e, d := IsAbout("f", "t", 1), IsAbout("g", "t", 2);
    Store(map[f.Id() := f, g.Id() := g, e.Id() := e, d.Id() := d],
          map[f.Id() := map[t := e.Id()], g.Id() := map[t := d.Id()]],
          map[t := map[f.Id() := e.Id(), g.Id() := d.Id()]])
  }

  /** With the anchor stored after its edges a cached list goes stale: the drop around
      the anchor finds no sequence to forget its members by. */
  lemma AnchorStoredLast(rank: Order, d: Caches)
    requires Dropped(TooEarly(), Caches(map[], map[Key(FactTag, "f") := []]), d, Key(TopicTag, "t"))
    ensures Fresh(TooEarly(), rank, Caches(map[], map[Key(FactTag, "f") := []]))
    ensures Key(FactTag, "f") in d.contiguity
    ensures !IsContiguity(Stored(TooEarly(), Topic("t", 3)), rank, Key(FactTag, "f"), d.contiguity[Key(FactTag, "f")])
  {
    var f := Key(FactTag, "f");
    EarlyAlone(rank);
    assert d.contiguity[f] == [] by { assert f in d.contiguity; }
    EarlyNeighbours(rank);
  }

  lemma EarlyAlone(rank: Order)
    ensures Fresh(TooEarly(), rank, Caches(map[], map[Key(FactTag, "f") := []]))
  {
    var s := TooEarly();
    var f, a := Key(FactTag, "f"), Key(TopicTag, "t");
    assert !IsAnchor(s, a) && forall x :: EdgeAt(s.targets, f, x).Some? ==> x == a;
    hide TooEarly, IsAnchor, EdgeAt, Beside;
    assert forall n :: !Neighbours(s, rank, f, n);
    assert forall x :: Filed(s, f, x) ==> x == a;
  }

  lemma EarlyNeighbours(rank: Order)
    ensures Neighbours(Stored(TooEarly(), Topic("t", 3)), rank, Key(FactTag, "f"), Key(FactTag, "g"))
  {
    var t := Stored(TooEarly(), Topic("t", 3));
    var f, g, a := Key(FactTag, "f"), Key(FactTag, "g"), Key(TopicTag, "t");
    assert forall m :: Member(t, a, m) ==> m == f || m == g;
    assert Follows(t, rank, a, f, g);
    assert EdgeAt(t.targets, f, a).Some? && IsAnchor(t, a) && Beside(t, rank, a, f, g);
  }
}
