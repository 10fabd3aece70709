/** The window the text index reads through: the graph's neighbour lists, under their
    hashes. */
module GraphWindow {
  import G = GraphModel
  import Caches = GraphCaches
  import opened Keys
  import opened SearchSpec

  type Hash = G.Key -> int

  ghost predicate Injective(hash: Hash) { forall x, y :: hash(x) == hash(y) ==> x == y }

  function Hashed(hash: Hash, xs: seq<G.Key>): seq<Key> {
    if xs == [] then [] else Hashed(hash, xs[..|xs| - 1]) + [Key(hash(xs[|xs| - 1]))]
  }

  ghost predicate Named(hash: Hash, a: Key) { exists x :: a == Key(hash(x)) }

  /** A node's neighbours in the graph, as the index is told them. */
  ghost predicate IsNear(s: G.Store, rank: Caches.Order, hash: Hash, x: G.Key, near: seq<Key>) {
    exists xs :: Caches.IsContiguity(s, rank, x, xs) && near == Hashed(hash, xs)
  }

  /** Every node's hash is answered with its neighbours, any other key with nothing. */
  ghost predicate Serves(s: G.Store, rank: Caches.Order, hash: Hash, neighbours: Key -> seq<Key>) {
    && (forall x :: IsNear(s, rank, hash, x, neighbours(Key(hash(x)))))
    && (forall a :: !Named(hash, a) ==> neighbours(a) == [])
  }

  lemma {:induction false} HashedOccurs(hash: Hash, xs: seq<G.Key>, y: G.Key)
    requires Injective(hash)
    ensures Occurs(Hashed(hash, xs), Key(hash(y))) == multiset(xs)[y]
  {
    if xs != [] {
      var n := |xs| - 1;
      HashedOccurs(hash, xs[..n], y);
      assert xs == xs[..n] + [xs[n]];
    }
  }

  lemma {:induction false} OnlyNamed(hash: Hash, xs: seq<G.Key>, a: Key)
    requires !Named(hash, a)
    ensures Occurs(Hashed(hash, xs), a) == 0
  {
    if xs != [] {
      OnlyNamed(hash, xs[..|xs| - 1], a);
    }
  }

  /** How often one node's list names another, either way round. */
  lemma NearSymmetric(s: G.Store, rank: Caches.Order, hash: Hash, neighbours: Key -> seq<Key>, a: Key, b: Key)
    requires G.Sound(s) && Injective(hash) && Serves(s, rank, hash, neighbours)
    ensures Occurs(neighbours(a), b) == Occurs(neighbours(b), a)
  {
    hide G.Sound, Caches.IsContiguity, Occurs, Injective;
    if Named(hash, a) && Named(hash, b) {
      var x :| a == Key(hash(x));
      var y :| b == Key(hash(y));
      var xs :| Caches.IsContiguity(s, rank, x, xs) && neighbours(a) == Hashed(hash, xs);
      var ys :| Caches.IsContiguity(s, rank, y, ys) && neighbours(b) == Hashed(hash, ys);
      Caches.ContiguitySymmetric(s, rank, x, xs, y, ys);
      HashedOccurs(hash, xs, y);
      HashedOccurs(hash, ys, x);
    } else if Named(hash, a) {
      Stranger(s, rank, hash, neighbours, b, a);
    } else {
      Stranger(s, rank, hash, neighbours, a, b);
    }
  }

  /** A key that is no node's hash has no neighbours and is nobody's. */
  lemma Stranger(s: G.Store, rank: Caches.Order, hash: Hash, neighbours: Key -> seq<Key>, a: Key, b: Key)
    requires Serves(s, rank, hash, neighbours) && !Named(hash, a)
    ensures Occurs(neighbours(a), b) == 0 && Occurs(neighbours(b), a) == 0
  {
    hide Caches.IsContiguity;
    if Named(hash, b) {
      var y :| b == Key(hash(y));
      var ys :| Caches.IsContiguity(s, rank, y, ys) && neighbours(b) == Hashed(hash, ys);
      OnlyNamed(hash, ys, a);
    }
  }

  /** A window served by a sound graph is symmetric, which is all a search asks of it. */
  lemma WindowIsSymmetric(s: G.Store, rank: Caches.Order, hash: Hash, c: Corpus)
    requires G.Sound(s) && Injective(hash) && (c.neighbours.Some? ==> Serves(s, rank, hash, c.neighbours.value))
    ensures Symmetric(c)
  {
    hide G.Sound, Injective, Serves;
    forall a, b ensures Occurs(Near(c, a), b) == Occurs(Near(c, b), a) {
      if Windowed(c) {
        NearSymmetric(s, rank, hash, c.neighbours.value, a, b);
      }
    }
  }
}
