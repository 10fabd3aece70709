/** The two walks a search may take: breadth-first from every source, and one step across
    the facts and anchors with its full incidence. */
module Traversals {
  import opened Sequences
  import opened Wrappers

  datatype Direction = Outgoing | Incoming | Both

  /** A graph as a walk reads it: the vertices it holds and each one's rows, in the order
      the maps happened to give them. */
  datatype View<!K(==)> = View(held: set<K>, targets: map<K, seq<K>>, sources: map<K, seq<K>>)
  {
    function Out(u: K, dir: Direction): seq<K> {
      (if dir != Incoming && u in targets then targets[u] else [])
          + (if dir != Outgoing && u in sources then sources[u] else [])
    }

    /** Neighbours lists a pair joined by an edge each way twice. */
    function Neighbours(u: K): seq<K> { Out(u, Both) }
  }

  datatype Walk<!K(==)> = Walk(order: seq<K>, parent: map<K, K>, parents: map<K, seq<K>>, depth: map<K, nat>)

  /** The sources a graph holds, each once, in the order given. */
  function Firsts<K(==)>(sources: seq<K>, held: set<K>): seq<K> {
    if sources == [] then [] else
      var r := Firsts(sources[..|sources| - 1], held);
      var e := sources[|sources| - 1];
      if e in held && e !in r then r + [e] else r
  }

  lemma {:induction false} FirstsHold<K(!new)>(sources: seq<K>, held: set<K>)
    ensures NoRepeats(Firsts(sources, held)) && forall k :: k in Firsts(sources, held) <==> k in sources && k in held
  {
    if sources != [] {
      assert sources == sources[..|sources| - 1] + [sources[|sources| - 1]];
      FirstsHold(sources[..|sources| - 1], held);
    }
  }

  // ---------------------------------------------------------------- breadth-first

  /** A vertex some source reaches in exactly n steps. */
  ghost predicate Within<K(!new)>(g: View<K>, dir: Direction, sources: seq<K>, n: nat, v: K) {
    if n == 0 then v in sources && v in g.held
    else exists u :: Within(g, dir, sources, n - 1, u) && v in g.Out(u, dir)
  }

  /** Every vertex visited once, in order of depth. */
  ghost predicate Laid<K(!new)>(w: Walk<K>) {
    && NoRepeats(w.order)
    && (forall v :: v in w.order <==> v in w.depth)
    && (forall i, j :: 0 <= i < j < |w.order| && w.order[i] in w.depth && w.order[j] in w.depth ==>
       w.depth[w.order[i]] <= w.depth[w.order[j]])
  }

  /** Depth 0 for the sources alone, and every other vertex one deeper than its parent. */
  ghost predicate Linked<K(!new)>(g: View<K>, dir: Direction, sources: seq<K>, w: Walk<K>) {
    && w.parent.Keys == w.depth.Keys
    && (forall v :: v in w.depth && w.depth[v] == 0 <==> v in sources && v in g.held)
    && (forall v :: v in w.depth && w.depth[v] == 0 ==> w.parent[v] == v)
    && (forall v :: v in w.depth && w.depth[v] > 0 ==>
          w.parent[v] in w.depth && w.depth[v] == w.depth[w.parent[v]] + 1 && v in g.Out(w.parent[v], dir))
  }

  /** The walk so far, its first done vertices expanded. */
  ghost predicate Grown<K(!new)>(g: View<K>, dir: Direction, sources: seq<K>, w: Walk<K>, done: nat) {
    done <= |w.order| && Laid(w) && Linked(g, dir, sources, w)
  }

  /** Every neighbour of an expanded vertex is visited, at most one deeper. */
  ghost predicate Closed<K(!new)>(g: View<K>, dir: Direction, w: Walk<K>, done: nat) {
    forall i, v :: 0 <= i < done <= |w.order| && w.order[i] in w.depth && v in g.Out(w.order[i], dir) ==>
      v in w.depth && w.depth[v] <= w.depth[w.order[i]] + 1
  }

  /** Nothing queued is more than one deeper than the next vertex to expand. */
  ghost predicate Level<K(!new)>(w: Walk<K>, done: nat) {
    forall i :: 0 <= i < |w.order| && done < |w.order| && w.order[i] in w.depth && w.order[done] in w.depth ==>
      w.depth[w.order[i]] <= w.depth[w.order[done]] + 1
  }

  lemma {:induction false} ReachedWithin<K(!new)>(g: View<K>, dir: Direction, sources: seq<K>, w: Walk<K>, v: K, n: nat)
    requires Linked(g, dir, sources, w) && v in w.depth && w.depth[v] == n
    ensures Within(g, dir, sources, n, v)
    decreases n
  {
    hide View.Out;
    if n > 0 {
      var u := w.parent[v];
      ReachedWithin(g, dir, sources, w, u, n - 1);
      assert Within(g, dir, sources, n - 1, u) && v in g.Out(u, dir);
    }
  }

  lemma {:induction false} ShortestWalk<K(!new)>(g: View<K>, dir: Direction, sources: seq<K>, w: Walk<K>, v: K, n: nat)
    requires Grown(g, dir, sources, w, |w.order|) && Closed(g, dir, w, |w.order|) && Within(g, dir, sources, n, v)
    ensures v in w.depth && w.depth[v] <= n
    decreases n
  {
    if n > 0 {
      var u :| Within(g, dir, sources, n - 1, u) && v in g.Out(u, dir);
      ShortestWalk(g, dir, sources, w, u, n - 1);
      assert u in w.order;
      var i :| 0 <= i < |w.order| && w.order[i] == u;
    }
  }

  /** One vertex discovered from the one being expanded. */
  function Discover<K>(w: Walk<K>, u: K, v: K): Walk<K>
    requires u in w.depth
  {
    w.(order := w.order + [v], parent := w.parent[v := u], depth := w.depth[v := w.depth[u] + 1])
  }

  /** The vertices visited before keep their places and depths. */
  lemma DiscoveredOrder<K(!new)>(w: Walk<K>, done: nat, v: K)
    requires (forall k :: k in w.order <==> k in w.depth) && done < |w.order| && v !in w.depth
    ensures w.order[done] in w.depth && var x := Discover(w, w.order[done], v);
            && (forall i :: 0 <= i < |w.order| ==>
               w.order[i] in w.depth && x.order[i] == w.order[i] && x.depth[x.order[i]] == w.depth[w.order[i]]
               && x.order[i] != v)
            && |x.order| == |w.order| + 1 && x.order[|w.order|] == v && x.depth[v] == w.depth[w.order[done]] + 1
            && (forall k :: k in x.order <==> k in x.depth)
  {
    assert w.order[done] in w.order;
    var x := Discover(w, w.order[done], v);
    forall i | 0 <= i < |w.order| ensures w.order[i] in w.depth && x.order[i] != v {
      assert w.order[i] in w.order;
    }
    forall k ensures k in x.order <==> k in x.depth {
      assert k in x.order <==> k in w.order || k == v;
    }
  }

  lemma DiscoveredLaid<K(!new)>(w: Walk<K>, done: nat, v: K)
    requires Laid(w) && Level(w, done) && done < |w.order| && v !in w.depth
    ensures w.order[done] in w.depth && Laid(Discover(w, w.order[done], v))
  {
    DiscoveredOrder(w, done, v);
  }

  lemma DiscoveredLinked<K(!new)>(g: View<K>, dir: Direction, sources: seq<K>, w: Walk<K>, u: K, v: K)
    requires Linked(g, dir, sources, w) && u in w.depth && v !in w.depth && v in g.Out(u, dir)
    ensures Linked(g, dir, sources, Discover(w, u, v))
  {
    hide View.Out;
  }

  lemma DiscoveredClosed<K(!new)>(g: View<K>, dir: Direction, w: Walk<K>, done: nat, v: K)
    requires (forall k :: k in w.order <==> k in w.depth) && done < |w.order| && v !in w.depth
    requires Level(w, done) && Closed(g, dir, w, done)
    ensures w.order[done] in w.depth && var x := Discover(w, w.order[done], v);
            Level(x, done) && Closed(g, dir, x, done)
  {
    hide View.Out;
    DiscoveredOrder(w, done, v);
  }

  lemma Discovered<K(!new)>(g: View<K>, dir: Direction, sources: seq<K>, w: Walk<K>, done: nat, v: K)
    requires Grown(g, dir, sources, w, done) && Level(w, done) && Closed(g, dir, w, done)
    requires done < |w.order| && v !in w.depth && v in g.Out(w.order[done], dir)
    ensures w.order[done] in w.depth && var x := Discover(w, w.order[done], v);
            Grown(g, dir, sources, x, done) && Level(x, done) && Closed(g, dir, x, done)
  {
    hide View.Out, Level, Closed, NoRepeats, Linked;
    DiscoveredLaid(w, done, v);
    DiscoveredLinked(g, dir, sources, w, w.order[done], v);
    DiscoveredClosed(g, dir, w, done, v);
  }

  /** Every vertex the rows can name. */
  ghost function Named<K>(g: View<K>): set<K> {
    g.held + (set u, v | u in g.targets && v in g.targets[u] :: v)
        + (set u, v | u in g.sources && v in g.sources[u] :: v)
  }

  ghost predicate Bounded<K(!new)>(g: View<K>, w: Walk<K>) { forall v :: v in w.order ==> v in Named(g) }

  lemma OutNamed<K(!new)>(g: View<K>, u: K, dir: Direction, v: K)
    requires v in g.Out(u, dir)
    ensures v in Named(g)
  {
  }

  /** The whole walk: exactly what the sources reach, each vertex once and in order of
      depth, its depth the shortest distance and its parent one step closer. */
  ghost predicate Shortest<K(!new)>(g: View<K>, dir: Direction, sources: seq<K>, w: Walk<K>) {
    && NoRepeats(w.order)
    && (forall v :: v in w.order <==> v in w.depth)
    && (forall v :: v in w.depth <==> exists n :: Within(g, dir, sources, n, v))
    && (forall v :: v in w.depth ==> Within(g, dir, sources, w.depth[v], v))
    && (forall v, n :: v in w.depth && Within(g, dir, sources, n, v) ==> w.depth[v] <= n)
    && (forall i, j :: 0 <= i < j < |w.order| ==> w.depth[w.order[i]] <= w.depth[w.order[j]])
    && w.parent.Keys == w.depth.Keys
    && (forall v :: v in w.depth ==> if w.depth[v] == 0 then w.parent[v] == v
          else w.parent[v] in w.depth && w.depth[w.parent[v]] == w.depth[v] - 1 && v in g.Out(w.parent[v], dir))
  }

  lemma GrownShortest<K(!new)>(g: View<K>, dir: Direction, sources: seq<K>, w: Walk<K>)
    requires Grown(g, dir, sources, w, |w.order|) && Closed(g, dir, w, |w.order|)
    ensures Shortest(g, dir, sources, w)
  {
    hide Within, Closed;
    forall v | v in w.depth ensures Within(g, dir, sources, w.depth[v], v) {
      ReachedWithin(g, dir, sources, w, v, w.depth[v]);
    }
    forall v, n: nat | Within(g, dir, sources, n, v) ensures v in w.depth && w.depth[v] <= n {
      ShortestWalk(g, dir, sources, w, v, n);
    }
  }

  /** The sources a graph holds, at depth 0. */
  method Start<K(!new, ==)>(g: View<K>, dir: Direction, sources: seq<K>) returns (w: Walk<K>)
    ensures Grown(g, dir, sources, w, 0) && Bounded(g, w) && w.order == Firsts(sources, g.held) && Level(w, 0)
  {
    w := Walk([], map[], map[], map[]);
    for i := 0 to |sources|
      invariant w.order == Firsts(sources[..i], g.held)
      invariant forall v :: v in w.order <==> v in w.depth
      invariant w.parent.Keys == w.depth.Keys && forall v :: v in w.depth ==> w.depth[v] == 0 && w.parent[v] == v
    {
      var k := sources[i];
      assert sources[..i + 1][..i] == sources[..i];
      if k !in w.depth && k in g.held {
        w := w.(order := w.order + [k], parent := w.parent[k := k], depth := w.depth[k := 0]);
      }
    }
    assert sources[..|sources|] == sources;
    FirstsHold(sources, g.held);
    forall i | 0 <= i < |w.order| ensures w.order[i] in w.depth {
      assert w.order[i] in w.order;
    }
  }

  /** BFS.traverse. It fails exactly when the graph holds no source. */
  method BreadthFirst<K(!new, ==)>(g: View<K>, dir: Direction, sources: seq<K>) returns (r: Option<Walk<K>>)
    ensures r.None? <==> forall k :: k in sources ==> k !in g.held
    ensures r.Some? ==> Shortest(g, dir, sources, r.value) && Firsts(sources, g.held) <= r.value.order
  {
    hide Grown, Closed, Level, Bounded, Shortest, Firsts;
    var w := Start(g, dir, sources);
    FirstsHold(sources, g.held);
    if w.order == [] {
      assert forall k :: k in sources && k in g.held ==> k in w.order;
      return None;
    }
    var k := w.order[0];
    assert k in w.order;
    var queue := w.order;
    ghost var done := 0;
    assert Closed(g, dir, w, 0) by { NoneClosed(g, dir, w); }
    while queue != []
      invariant Grown(g, dir, sources, w, done) && Closed(g, dir, w, done) && Level(w, done) && Bounded(g, w)
      invariant done <= |w.order| && queue == w.order[done..] && Firsts(sources, g.held) <= w.order
      decreases |Named(g)| - done
    {
      var u := queue[0];
      assert u == w.order[done];
      queue := queue[1..];
      w, queue := Expand(g, dir, sources, w, done, u, queue);
      done := done + 1;
    }
    assert done == |w.order|;
    GrownShortest(g, dir, sources, w);
    return Some(w);
  }

  lemma NoneClosed<K(!new)>(g: View<K>, dir: Direction, w: Walk<K>)
    ensures Closed(g, dir, w, 0)
  {
  }

  lemma InDepth<K(!new)>(g: View<K>, dir: Direction, sources: seq<K>, w: Walk<K>, done: nat, i: nat)
    requires Grown(g, dir, sources, w, done) && i < |w.order|
    ensures w.order[i] in w.depth && NoRepeats(w.order)
  {
    assert w.order[i] in w.order;
  }

  /** Everything next to the vertex dequeued, discovered. */
  method Expand<K(!new, ==)>(g: View<K>, dir: Direction, sources: seq<K>, walk: Walk<K>, ghost done: nat, u: K,
      rest: seq<K>)
    returns (w: Walk<K>, queue: seq<K>)
    requires Grown(g, dir, sources, walk, done) && Closed(g, dir, walk, done) && Level(walk, done) && Bounded(g, walk)
    requires done < |walk.order| && u == walk.order[done] && rest == walk.order[done + 1..]
    ensures Grown(g, dir, sources, w, done + 1) && Closed(g, dir, w, done + 1) && Level(w, done + 1) && Bounded(g, w)
    ensures walk.order <= w.order && done + 1 <= |w.order| && queue == w.order[done + 1..]
    ensures done < |Named(g)|
  {
    hide Grown, Closed, Level, Bounded;
    w, queue := walk, rest;
    var next := g.Out(u, dir);
    for i := 0 to |next|
      invariant Grown(g, dir, sources, w, done) && Closed(g, dir, w, done) && Level(w, done) && Bounded(g, w)
      invariant walk.order <= w.order && queue == w.order[done + 1..]
      invariant forall j :: 0 <= j < i ==> next[j] in w.depth
    {
      var v := next[i];
      assert v in next;
      InDepth(g, dir, sources, w, done, done);
      if v !in w.depth {
        Discovered(g, dir, sources, w, done, v);
        assert Bounded(g, Discover(w, u, v)) by { DiscoveredNamed(g, dir, w, u, v); }
        w := w.(order := w.order + [v], parent := w.parent[v := u], depth := w.depth[v := w.depth[u] + 1]);
        queue := queue + [v];
      }
    }
    assert forall v :: v in next ==> v in w.depth;
    StepOn(g, dir, sources, w, done);
    InDepth(g, dir, sources, w, done, done);
    assert |w.order| <= |Named(g)| by { BoundedSize(g, w); }
  }

  lemma BoundedSize<K(!new)>(g: View<K>, w: Walk<K>)
    requires Bounded(g, w) && NoRepeats(w.order)
    ensures |w.order| <= |Named(g)|
  {
    hide Named;
    AtMost(w.order, Named(g));
  }

  lemma DiscoveredNamed<K(!new)>(g: View<K>, dir: Direction, w: Walk<K>, u: K, v: K)
    requires Bounded(g, w) && u in w.depth && v in g.Out(u, dir)
    ensures Bounded(g, Discover(w, u, v))
  {
    hide Named;
    OutNamed(g, u, dir, v);
  }

  lemma StepLevel<K(!new)>(w: Walk<K>, done: nat)
    requires Laid(w) && Level(w, done) && done < |w.order|
    ensures Level(w, done + 1)
  {
    hide NoRepeats;
    if done + 1 < |w.order| {
      assert w.order[done] in w.order && w.order[done + 1] in w.order;
      assert w.depth[w.order[done]] <= w.depth[w.order[done + 1]];
    }
  }

  lemma StepClosed<K(!new)>(g: View<K>, dir: Direction, w: Walk<K>, done: nat)
    requires Laid(w) && Closed(g, dir, w, done) && Level(w, done) && done < |w.order|
    requires forall v :: v in g.Out(w.order[done], dir) ==> v in w.depth
    ensures Closed(g, dir, w, done + 1)
  {
    hide View.Out, NoRepeats;
    var u := w.order[done];
    assert u in w.order;
    forall v | v in g.Out(u, dir) ensures w.depth[v] <= w.depth[u] + 1 {
      assert v in w.order;
      var i :| 0 <= i < |w.order| && w.order[i] == v;
    }
  }

  /** With all its neighbours visited, a vertex counts as expanded. */
  lemma StepOn<K(!new)>(g: View<K>, dir: Direction, sources: seq<K>, w: Walk<K>, done: nat)
    requires Grown(g, dir, sources, w, done) && Closed(g, dir, w, done) && Level(w, done) && done < |w.order|
    requires forall v :: v in g.Out(w.order[done], dir) ==> v in w.depth
    ensures Grown(g, dir, sources, w, done + 1) && Closed(g, dir, w, done + 1) && Level(w, done + 1)
  {
    hide View.Out, Closed, Level, Linked, NoRepeats;
    StepLevel(w, done);
    StepClosed(g, dir, w, done);
  }

  // ---------------------------------------------------------------- one step, full incidence

  /** Whether a source steps to a vertex: a neighbour of the other kind. */
  function StepsTo<K(==)>(g: View<K>, anchor: K -> bool, v: K): K -> bool {
    s => v in g.Neighbours(s) && anchor(v) != anchor(s)
  }

  /** Every vertex with every held source it was reached from, in source order, each once,
      however often a pair is joined. */
  ghost predicate Incident<K(!new)>(g: View<K>, anchor: K -> bool, sources: seq<K>, w: Walk<K>) {
    && NoRepeats(w.order)
    && (forall v :: v in w.order <==> v in w.parents)
    && (forall v :: v in w.parents <==> exists s :: s in sources && s in g.held && StepsTo(g, anchor, v)(s))
    && (forall v :: v in w.parents ==>
       w.parents[v] == Filter(Firsts(sources, g.held), StepsTo(g, anchor, v)) && w.parents[v] != [])
    && (forall v :: v in w.parents ==>
       v in w.parent && w.parent[v] == w.parents[v][0] && v in w.depth && w.depth[v] == 1)
    && w.parent.Keys == w.depth.Keys == w.parents.Keys
  }

  /** What has been recorded of a vertex once some sources are walked and the next one's
      neighbours are seen up to a point. */
  function Funders<K(==)>(g: View<K>, anchor: K -> bool, walked: seq<K>, source: K, seen: seq<K>, v: K): seq<K> {
    Filter(walked, StepsTo(g, anchor, v)) + if v in seen && anchor(v) != anchor(source) then [source] else []
  }

  ghost predicate Recorded<K(!new)>(g: View<K>, anchor: K -> bool, walked: seq<K>, source: K, seen: seq<K>,
      w: Walk<K>) {
    && NoRepeats(w.order)
    && (forall v :: v in w.order <==> v in w.parents)
    && (forall v :: v in w.parents <==> Funders(g, anchor, walked, source, seen, v) != [])
    && (forall v :: v in w.parents ==> w.parents[v] == Funders(g, anchor, walked, source, seen, v))
    && (forall v :: v in w.parents ==>
       v in w.parent && w.parent[v] == w.parents[v][0] && v in w.depth && w.depth[v] == 1)
    && w.parent.Keys == w.depth.Keys == w.parents.Keys
  }

  lemma SeenMore<K(!new)>(g: View<K>, anchor: K -> bool, walked: seq<K>, source: K, seen: seq<K>, n: K, v: K)
    requires source !in walked
    ensures var f := Funders(g, anchor, walked, source, seen, v);
            var x := Funders(g, anchor, walked, source, seen + [n], v);
            && x == (if v == n && anchor(n) != anchor(source)
               && !(f != [] && f[|f| - 1] == source) then f + [source] else f)
  {
    hide Filter;
    Filters(walked, StepsTo(g, anchor, v));
    var f := Filter(walked, StepsTo(g, anchor, v));
    if f != [] {
      var e := f[|f| - 1];
      assert e in f;
    }
  }

  lemma Skipped<K(!new)>(g: View<K>, anchor: K -> bool, walked: seq<K>, source: K, seen: seq<K>, w: Walk<K>, n: K)
    requires Recorded(g, anchor, walked, source, seen, w) && source !in walked
    requires anchor(n) == anchor(source) || (n in w.parents && w.parents[n] != []
            && w.parents[n][|w.parents[n]| - 1] == source)
    ensures Recorded(g, anchor, walked, source, seen + [n], w)
  {
    hide Funders, NoRepeats;
    forall v ensures Funders(g, anchor, walked, source, seen + [n], v) == Funders(g, anchor, walked, source, seen, v) {
      SeenMore(g, anchor, walked, source, seen, n, v);
    }
  }

  lemma Another<K(!new)>(g: View<K>, anchor: K -> bool, walked: seq<K>, source: K, seen: seq<K>, w: Walk<K>, n: K)
    requires Recorded(g, anchor, walked, source, seen, w) && source !in walked
    requires anchor(n) != anchor(source) && n in w.parents && w.parents[n] != []
            && w.parents[n][|w.parents[n]| - 1] != source
    ensures Recorded(g, anchor, walked, source, seen + [n], w.(parents := w.parents[n := w.parents[n] + [source]]))
  {
    hide Funders, NoRepeats;
    forall v ensures Funders(g, anchor, walked, source, seen + [n], v) ==
        Funders(g, anchor, walked, source, seen, v) + if v == n then [source] else [] {
      SeenMore(g, anchor, walked, source, seen, n, v);
    }
  }

  lemma First<K(!new)>(g: View<K>, anchor: K -> bool, walked: seq<K>, source: K, seen: seq<K>, w: Walk<K>, n: K)
    requires Recorded(g, anchor, walked, source, seen, w) && source !in walked && anchor(n) != anchor(source)
            && n !in w.parents
    ensures Recorded(g, anchor, walked, source, seen + [n],
              w.(order := w.order + [n], parent := w.parent[n := source], parents := w.parents[n := [source]],
                  depth := w.depth[n := 1]))
  {
    hide Funders;
    forall v ensures Funders(g, anchor, walked, source, seen + [n], v) ==
        Funders(g, anchor, walked, source, seen, v) + if v == n then [source] else [] {
      SeenMore(g, anchor, walked, source, seen, n, v);
    }
    assert n !in w.order;
  }

  /** The neighbours one source steps to, recorded. */
  method StepFrom<K(!new, ==)>(g: View<K>, anchor: K -> bool, ghost walked: seq<K>, source: K, walk: Walk<K>)
    returns (w: Walk<K>)
    requires Recorded(g, anchor, walked, source, [], walk) && source !in walked
    ensures Recorded(g, anchor, walked, source, g.Neighbours(source), w)
  {
    hide Recorded, View.Neighbours;
    w := walk;
    var next := g.Neighbours(source);
    var fromAnchor := anchor(source);
    for j := 0 to |next|
      invariant Recorded(g, anchor, walked, source, next[..j], w)
    {
      var n := next[j];
      assert next[..j + 1] == next[..j] + [n];
      if anchor(n) == fromAnchor {
        Skipped(g, anchor, walked, source, next[..j], w, n);
        continue;
      }
      if n in w.parents {
        var parents := w.parents[n];
        assert parents != [] by { SomeFunder(g, anchor, walked, source, next[..j], w, n); }
        if parents[|parents| - 1] == source {
          Skipped(g, anchor, walked, source, next[..j], w, n);
          continue;
        }
        Another(g, anchor, walked, source, next[..j], w, n);
        w := w.(parents := w.parents[n := parents + [source]]);
      } else {
        First(g, anchor, walked, source, next[..j], w, n);
        w := w.(order := w.order + [n], parent := w.parent[n := source], parents := w.parents[n := [source]],
            depth := w.depth[n := 1]);
      }
    }
    assert next[..|next|] == next;
  }

  lemma SomeFunder<K(!new)>(g: View<K>, anchor: K -> bool, walked: seq<K>, source: K, seen: seq<K>, w: Walk<K>, n: K)
    requires Recorded(g, anchor, walked, source, seen, w) && n in w.parents
    ensures w.parents[n] != []
  {
  }

  lemma NextSource<K(!new)>(g: View<K>, anchor: K -> bool, walked: seq<K>, source: K, next: K, w: Walk<K>)
    requires Recorded(g, anchor, walked, source, g.Neighbours(source), w)
    ensures Recorded(g, anchor, walked + [source], next, [], w)
  {
    hide Filter, View.Neighbours;
    forall v ensures Funders(g, anchor, walked + [source], next, [], v) ==
        Funders(g, anchor, walked, source, g.Neighbours(source), v) {
      assert (walked + [source])[..|walked|] == walked;
      FilterOne(walked, source, StepsTo(g, anchor, v));
    }
  }

  lemma RecordedAll<K(!new)>(g: View<K>, anchor: K -> bool, sources: seq<K>, source: K, w: Walk<K>)
    requires Recorded(g, anchor, Firsts(sources, g.held), source, [], w)
    ensures Incident(g, anchor, sources, w)
  {
    hide Filter, Firsts, StepsTo, NoRepeats;
    FirstsHold(sources, g.held);
    var walked := Firsts(sources, g.held);
    forall v ensures v in w.parents <==> exists s :: s in sources && s in g.held && StepsTo(g, anchor, v)(s) {
      Filters(walked, StepsTo(g, anchor, v));
      var f := Filter(walked, StepsTo(g, anchor, v));
      assert Funders(g, anchor, walked, source, [], v) == f;
      if f != [] {
        var s := f[0];
        assert s in f;
      }
    }
  }

  /** ExcessTraversal.traverse, its vertices in ascending key order. It fails exactly when
      the graph holds no source. */
  method OneStep<K(!new, ==)>(g: View<K>, anchor: K -> bool, rank: K -> real, sources: seq<K>)
    returns (r: Option<Walk<K>>)
    ensures r.None? <==> forall k :: k in sources ==> k !in g.held
    ensures r.Some? ==> Incident(g, anchor, sources, r.value) && Ascends(r.value.order, rank)
  {
    hide Incident, Recorded, Ascends, NoRepeats;
    var seen: set<K> := {};
    var walked: seq<K> := [];
    for i := 0 to |sources|
      invariant walked == Firsts(sources[..i], g.held) && forall k :: k in seen <==> k in walked
    {
      assert sources[..i + 1][..i] == sources[..i];
      if sources[i] !in seen && sources[i] in g.held {
        seen := seen + {sources[i]};
        walked := walked + [sources[i]];
      }
    }
    assert sources[..|sources|] == sources;
    FirstsHold(sources, g.held);
    if walked == [] {
      assert forall k :: k in sources && k in g.held ==> k in walked;
      return None;
    }
    var first := walked[0];
    assert first in walked;
    var w := StepAll(g, anchor, walked);
    RecordedAll(g, anchor, sources, first, w);
    SortByKeeps(w.order, rank);
    IncidentSorted(g, anchor, sources, w, SortBy(w.order, rank));
    return Some(w.(order := SortBy(w.order, rank)));
  }

  method StepAll<K(!new, ==)>(g: View<K>, anchor: K -> bool, walked: seq<K>) returns (w: Walk<K>)
    requires NoRepeats(walked) && walked != []
    ensures Recorded(g, anchor, walked, walked[0], [], w)
  {
    hide Recorded;
    w := Walk([], map[], map[], map[]);
    assert Recorded(g, anchor, [], walked[0], [], w) by { NoneRecorded(g, anchor, walked[0]); }
    for i := 0 to |walked|
      invariant Recorded(g, anchor, walked[..i], if i < |walked| then walked[i] else walked[0], [], w)
    {
      assert walked[..i + 1] == walked[..i] + [walked[i]];
      w := StepFrom(g, anchor, walked[..i], walked[i], w);
      NextSource(g, anchor, walked[..i], walked[i], if i + 1 < |walked| then walked[i + 1] else walked[0], w);
    }
    assert walked[..|walked|] == walked;
  }

  lemma NoneRecorded<K(!new)>(g: View<K>, anchor: K -> bool, source: K)
    ensures Recorded(g, anchor, [], source, [], Walk([], map[], map[], map[]))
  {
    forall v ensures Funders(g, anchor, [], source, [], v) == [] {
    }
  }

  lemma IncidentSorted<K(!new)>(g: View<K>, anchor: K -> bool, sources: seq<K>, w: Walk<K>, order: seq<K>)
    requires Incident(g, anchor, sources, w) && multiset(w.order) == multiset(order)
    ensures Incident(g, anchor, sources, w.(order := order))
  {
    hide Firsts, Filter, NoRepeats, StepsTo;
    Reordered(w.order, order);
    SameItems(w.order, order);
  }
}
