/** Executable queries: what they ask, when two are equal, the material their plan-cache
    key is hashed from, and the rewriting they go through before they are planned. */
module Queries {
  import opened FqlGrammar
  import opened FqlPrint
  import opened Sequences
  import opened Wrappers

  /** A time bound: a span before now, or an instant written in some zone. */
  datatype Bound = Relative(span: int) | Absolute(instant: int, zone: int) {
    function Resolve(now: int): int { if Relative? then now - span else instant }

    /** The same kind, with the same span or the same instant, whatever its zone. */
    predicate Equal(other: Bound) {
      if Relative? then other.Relative? && other.span == span else other.Absolute? && other.instant == instant
    }
  }

  /** A finite float: a number, or the zero with a sign, which compares equal to zero. */
  datatype Coordinate = Number(number: real) | NegativeZero {
    function Value(): real { if Number? then number else 0.0 }
  }

  function ValueOf(): Coordinate -> real { (c: Coordinate) => c.Value() }

  /** The coordinates compare equal, one by one. */
  predicate SameVector(v: seq<Coordinate>, w: seq<Coordinate>) {
    |v| == |w| && forall i :: 0 <= i < |v| ==> v[i].Value() == w[i].Value()
  }

  datatype Query =
    | Recall(graph: nat, keywords: seq<string>, entities: seq<string>, topics: seq<string>, top: int, depth: int,
        since: Option<Bound>, until: Option<Bound>, vector: seq<Coordinate>)
    | Remember(graph: nat, value: string, entities: seq<string>, topics: seq<string>, vector: seq<Coordinate>)
  {
    predicate Equal(other: Query) {
      match this
      case Recall(g, k, e, t, n, d, s, u, v) =>
        && other.Recall? && other.graph == g && other.keywords == k && other.entities == e && other.topics == t
        && other.top == n && other.depth == d && SameBound(other.since, s) && SameBound(other.until, u)
        && SameVector(other.vector, v)
      case Remember(g, x, e, t, v) =>
        && other.Remember? && other.graph == g && other.value == x && other.entities == e && other.topics == t
        && SameVector(other.vector, v)
    }
  }

  predicate SameBound(a: Option<Bound>, b: Option<Bound>) {
    a.Some? == b.Some? && (a.None? || a.value.Equal(b.value))
  }

  // ---------------------------------------------------------------- what a query asks

  /** What a query asks at a moment: its window resolved. */
  datatype Request =
    | Read(graph: nat, keywords: seq<string>, entities: seq<string>, topics: seq<string>, top: int, depth: int,
        since: Option<int>, until: Option<int>, vector: seq<real>)
    | Write(graph: nat, value: string, entities: seq<string>, topics: seq<string>, vector: seq<real>)

  function Resolved(b: Option<Bound>, now: int): Option<int> {
    if b.None? then None else Some(b.value.Resolve(now))
  }

  function Asks(q: Query, now: int): Request {
    match q
    case Recall(g, k, e, t, n, d, s, u, v) => Read(g, k, e, t, n, d, Resolved(s, now), Resolved(u, now),
        Sequences.Map(v, ValueOf()))
    case Remember(g, x, e, t, v) => Write(g, x, e, t, Sequences.Map(v, ValueOf()))
  }

  /** Equality is an equivalence, and equal queries ask the same at every moment. */
  lemma EqualAsks(q: Query, r: Query, s: Query, now: int)
    ensures q.Equal(q) && (q.Equal(r) ==> r.Equal(q)) && (q.Equal(r) && r.Equal(s) ==> q.Equal(s))
    ensures q.Equal(r) ==> Asks(q, now) == Asks(r, now)
  {
  }

  // ---------------------------------------------------------------- rewriting

  /** Dedupe: a recall's lists without repeats; any other query untouched. */
  function Optimised(q: Query): Query {
    if q.Recall? then
      q.(keywords := Deduped(q.keywords), entities := Deduped(q.entities), topics := Deduped(q.topics))
    else q
  }

  /** Equal queries are rewritten to equal queries, and once is enough. */
  lemma OptimisedEqual(q: Query, r: Query)
    ensures q.Equal(r) ==> Optimised(q).Equal(Optimised(r))
    ensures Optimised(Optimised(q)) == Optimised(q)
  {
    if q.Recall? {
      DedupedIs(q.keywords);
      DedupedIs(q.entities);
      DedupedIs(q.topics);
      DedupedAgain(Deduped(q.keywords));
      DedupedAgain(Deduped(q.entities));
      DedupedAgain(Deduped(q.topics));
      hide Deduped;
    }
  }

  /** Items already seen are skipped. */
  method DedupeStrings(ss: seq<string>) returns (out: seq<string>)
    ensures out == Deduped(ss)
  {
    if |ss| <= 1 {
      Short(ss);
      return ss;
    }
    var seen: set<string> := {};
    out := [];
    for i := 0 to |ss|
      invariant out == Deduped(ss[..i]) && forall s :: s in seen <==> s in out
    {
      assert ss[..i + 1][..i] == ss[..i];
      if ss[i] !in seen {
        seen := seen + {ss[i]};
        out := out + [ss[i]];
      }
    }
    assert ss[..|ss|] == ss;
  }

  lemma Short(ss: seq<string>)
    requires |ss| <= 1
    ensures Deduped(ss) == ss
  {
    DedupedAgain(ss);
  }

  method Optimise(q: Query) returns (r: Query)
    ensures r == Optimised(q)
  {
    if q.Remember? {
      return q;
    }
    var keywords := DedupeStrings(q.keywords);
    var entities := DedupeStrings(q.entities);
    var topics := DedupeStrings(q.topics);
    return q.(keywords := keywords, entities := entities, topics := topics);
  }

  // ---------------------------------------------------------------- hash material

  /** How values are rendered: a key, a span, an instant in its zone, a coordinate; and
      the hash function. */
  datatype Hasher<!K> = Hasher(
    hash: string -> K,
    show: K -> string,
    duration: int -> string,
    timestamp: (int, int) -> string,
    hex: Coordinate -> string)

  /** A tagged field, before the fields that follow it. */
  function Field(tag: string, body: string, rest: string): string { tag + (body + rest) }

  /** Each string as its length, a colon and itself. */
  function Listed(ss: seq<string>): string {
    if ss == [] then "" else Listed(ss[..|ss| - 1]) + Prefixed(ss[|ss| - 1])
  }

  function Prefixed(s: string): string { Digits(|s|) + (":" + s) }

  function BoundMaterial<K>(h: Hasher<K>, b: Bound): string {
    if b.Relative? then "r" + h.duration(b.span) else "a" + h.timestamp(b.instant, b.zone)
  }

  function BoundText<K>(h: Hasher<K>, b: Option<Bound>): string {
    if b.None? then "" else h.show(h.hash(BoundMaterial(h, b.value)))
  }

  /** The coordinates, a NUL between each two. */
  function VectorMaterial<K>(h: Hasher<K>, v: seq<Coordinate>): string {
    if v == [] then ""
    else if |v| == 1 then h.hex(v[0])
    else VectorMaterial(h, v[..|v| - 1]) + ("\0" + h.hex(v[|v| - 1]))
  }

  function VectorText<K>(h: Hasher<K>, v: seq<Coordinate>): string { h.show(h.hash(VectorMaterial(h, v))) }

  // The fields of a query from each tag on.

  function Vector<K>(h: Hasher<K>, q: Query): string { Field("|vec=", VectorText(h, q.vector), "") }

  function Until<K>(h: Hasher<K>, q: Query): string
    requires q.Recall?
  {
    Field("|u=", BoundText(h, q.until), Vector(h, q))
  }

  function Bounds<K>(h: Hasher<K>, q: Query): string
    requires q.Recall?
  {
    Field("|s=", BoundText(h, q.since), Until(h, q))
  }

  function Top<K>(h: Hasher<K>, q: Query): string
    requires q.Recall?
  {
    Field("|t=", Itoa(q.top), Bounds(h, q))
  }

  function Tail<K>(h: Hasher<K>, q: Query): string {
    if q.Recall? then Field("|d=", Itoa(q.depth), Top(h, q)) else Vector(h, q)
  }

  function Topics<K>(h: Hasher<K>, q: Query): string { Field("|to=", Listed(q.topics), Tail(h, q)) }

  function Entities<K>(h: Hasher<K>, q: Query): string { Field("|en=", Listed(q.entities), Topics(h, q)) }

  function Words<K>(h: Hasher<K>, q: Query): string {
    if q.Recall? then Field("|kw=", Listed(q.keywords), Entities(h, q))
    else Field("|v=", Listed([q.value]), Entities(h, q))
  }

  function Material<K>(h: Hasher<K>, q: Query): string { Field("g=", Itoa(q.graph), Words(h, q)) }

  // ---------------------------------------------------------------- the material decodes

  /** What may follow a field: another field, or nothing. */
  predicate Follows(rest: string) { rest == "" || rest[0] == '|' }

  /** A body without the delimiter ends where the next field begins. */
  lemma TextPeels(tag: string, a: string, x: string, b: string, y: string)
    requires Field(tag, a, x) == Field(tag, b, y) && '|' !in a && '|' !in b && Follows(x) && Follows(y)
    ensures a == b && x == y
  {
    Untagged(tag, a + x, b + y);
    if |a| < |b| {
      Overlap(a, x, b, y);
    } else if |b| < |a| {
      Overlap(b, y, a, x);
    }
    SplitAt(a, x, b, y);
  }

  /** Where one split ends inside the other's first half. */
  lemma Overlap(a: string, x: string, b: string, y: string)
    requires a + x == b + y && |a| < |b|
    ensures x != "" && x[0] in b
  {
    assert |a + x| == |b + y|;
    assert b[|a|] == (b + y)[|a|] == (a + x)[|a|];
  }

  lemma Untagged(tag: string, x: string, y: string)
    requires tag + x == tag + y
    ensures x == y
  {
    assert x == (tag + x)[|tag|..] && y == (tag + y)[|tag|..];
  }

  lemma SplitAt(a: string, x: string, b: string, y: string)
    requires a + x == b + y && |a| == |b|
    ensures a == b && x == y
  {
    assert a == (a + x)[..|a|] && x == (a + x)[|a|..];
    assert b == (b + y)[..|b|] && y == (b + y)[|b|..];
  }

  lemma Numerals(n: nat)
    ensures IsDigits(Digits(n)) && Value(Digits(n)) == n
  {
    DigitsAreDigits(n);
  }

  lemma ItoaIs(i: int)
    ensures var n := if i < 0 then -i else i;
            && '|' !in Itoa(i) && (i < 0 <==> Itoa(i)[0] == '-')
            && Itoa(i) == (if i < 0 then "-" else "") + Digits(n) && Value(Digits(n)) == n
  {
    hide Digits, Value;
    Numerals(if i < 0 then -i else i);
  }

  lemma NumberPeels(tag: string, i: int, x: string, j: int, y: string)
    requires Field(tag, Itoa(i), x) == Field(tag, Itoa(j), y) && Follows(x) && Follows(y)
    ensures i == j && x == y
  {
    hide Digits, Itoa, Value, Field, Follows;
    ItoaIs(i);
    ItoaIs(j);
    TextPeels(tag, Itoa(i), x, Itoa(j), y);
    Untagged(if i < 0 then "-" else "", Digits(if i < 0 then -i else i), Digits(if j < 0 then -j else j));
  }

  lemma {:induction false} ListedFront(ss: seq<string>)
    requires ss != []
    ensures Listed(ss) == Prefixed(ss[0]) + Listed(ss[1..])
  {
    hide Prefixed;
    var n := |ss| - 1;
    if n > 0 {
      ListedFront(ss[..n]);
      assert ss[1..][..n - 1] == ss[..n][1..];
    }
  }

  /** The length says where a string ends, whatever it holds. */
  lemma PrefixPeels(s: string, x: string, t: string, y: string)
    requires Prefixed(s) + x == Prefixed(t) + y
    ensures s == t && x == y
  {
    hide Digits, Value;
    Numerals(|s|);
    Numerals(|t|);
    var a, b, m := Digits(|s|), Digits(|t|), Prefixed(s) + x;
    assert m == a + (":" + (s + x)) && m == b + (":" + (t + y));
    assert ':' !in a && ':' !in b;
    if |a| < |b| {
      Overlap(a, ":" + (s + x), b, ":" + (t + y));
    } else if |b| < |a| {
      Overlap(b, ":" + (t + y), a, ":" + (s + x));
    }
    SplitAt(a, ":" + (s + x), b, ":" + (t + y));
    Untagged(":", s + x, t + y);
    SplitAt(s, x, t, y);
  }

  lemma NotListed(s: string, x: string, y: string)
    requires Follows(y)
    ensures Prefixed(s) + x != y
  {
    hide Digits, Value;
    Numerals(|s|);
    assert (Prefixed(s) + x)[0] == Digits(|s|)[0];
  }

  lemma {:induction false} ListsPeel(ss: seq<string>, x: string, ts: seq<string>, y: string)
    requires Listed(ss) + x == Listed(ts) + y && Follows(x) && Follows(y)
    ensures ss == ts && x == y
    decreases |ss|
  {
    hide Prefixed, Follows;
    assert "" + x == x && "" + y == y;
    if ss != [] {
      ListedFront(ss);
      assert Listed(ss) + x == Prefixed(ss[0]) + (Listed(ss[1..]) + x);
    }
    if ts != [] {
      ListedFront(ts);
      assert Listed(ts) + y == Prefixed(ts[0]) + (Listed(ts[1..]) + y);
    }
    if ss == [] && ts != [] {
      NotListed(ts[0], Listed(ts[1..]) + y, x);
    } else if ss != [] && ts == [] {
      NotListed(ss[0], Listed(ss[1..]) + x, y);
    } else if ss != [] {
      PrefixPeels(ss[0], Listed(ss[1..]) + x, ts[0], Listed(ts[1..]) + y);
      ListsPeel(ss[1..], x, ts[1..], y);
      assert ss == [ss[0]] + ss[1..] && ts == [ts[0]] + ts[1..];
    }
  }

  lemma ListPeels(tag: string, ss: seq<string>, x: string, ts: seq<string>, y: string)
    requires Field(tag, Listed(ss), x) == Field(tag, Listed(ts), y) && Follows(x) && Follows(y)
    ensures ss == ts && x == y
  {
    hide Listed, Follows;
    Untagged(tag, Listed(ss) + x, Listed(ts) + y);
    ListsPeel(ss, x, ts, y);
  }

  lemma FieldFollows(tag: string, body: string, rest: string)
    requires tag != "" && tag[0] == '|'
    ensures Follows(Field(tag, body, rest))
  {
  }

  /** Every field but the first begins with the delimiter. */
  lemma AllFollow<K>(h: Hasher<K>, q: Query)
    ensures Follows(Vector(h, q)) && Follows(Tail(h, q)) && Follows(Topics(h, q)) && Follows(Entities(h, q))
    ensures Follows(Words(h, q)) && (q.Recall? ==> Follows(Until(h, q)) && Follows(Bounds(h, q)) && Follows(Top(h, q)))
  {
    hide Field, Follows;
    FieldFollows("|vec=", VectorText(h, q.vector), "");
    FieldFollows("|to=", Listed(q.topics), Tail(h, q));
    FieldFollows("|en=", Listed(q.entities), Topics(h, q));
    if q.Recall? {
      FieldFollows("|u=", BoundText(h, q.until), Vector(h, q));
      FieldFollows("|s=", BoundText(h, q.since), Until(h, q));
      FieldFollows("|t=", Itoa(q.top), Bounds(h, q));
      FieldFollows("|d=", Itoa(q.depth), Top(h, q));
      FieldFollows("|kw=", Listed(q.keywords), Entities(h, q));
    } else {
      FieldFollows("|v=", Listed([q.value]), Entities(h, q));
    }
  }

  // ---------------------------------------------------------------- equal material

  /** Two recalls that share hash material read the same graph for the same terms and
      anchors, to the same depth and number of hits, whatever the hash function. */
  lemma RecallsPeel<K>(h: Hasher<K>, q: Query, r: Query)
    requires q.Recall? && r.Recall? && Material(h, q) == Material(h, r)
    ensures q.graph == r.graph && q.keywords == r.keywords && q.entities == r.entities && q.topics == r.topics
    ensures q.top == r.top && q.depth == r.depth && Bounds(h, q) == Bounds(h, r)
  {
    hide Field, Follows, Digits, Listed, BoundText, VectorText;
    AllFollow(h, q);
    AllFollow(h, r);
    NumberPeels("g=", q.graph, Words(h, q), r.graph, Words(h, r));
    ListPeels("|kw=", q.keywords, Entities(h, q), r.keywords, Entities(h, r));
    ListPeels("|en=", q.entities, Topics(h, q), r.entities, Topics(h, r));
    ListPeels("|to=", q.topics, Tail(h, q), r.topics, Tail(h, r));
    NumberPeels("|d=", q.depth, Top(h, q), r.depth, Top(h, r));
    NumberPeels("|t=", q.top, Bounds(h, q), r.top, Bounds(h, r));
  }

  /** Two remembers that share hash material write the same fact to the same graph under
      the same anchors, whatever the hash function. */
  lemma RemembersPeel<K>(h: Hasher<K>, q: Query, r: Query)
    requires q.Remember? && r.Remember? && Material(h, q) == Material(h, r)
    ensures q.graph == r.graph && q.value == r.value && q.entities == r.entities && q.topics == r.topics
    ensures Vector(h, q) == Vector(h, r)
  {
    hide Field, Follows, Digits, Listed, VectorText;
    AllFollow(h, q);
    AllFollow(h, r);
    NumberPeels("g=", q.graph, Words(h, q), r.graph, Words(h, r));
    ListPeels("|v=", [q.value], Entities(h, q), [r.value], Entities(h, r));
    assert [q.value][0] == [r.value][0];
    ListPeels("|en=", q.entities, Topics(h, q), r.entities, Topics(h, r));
    ListPeels("|to=", q.topics, Vector(h, q), r.topics, Vector(h, r));
  }

  /** A recall and a remember never share material. */
  lemma KindsApart<K>(h: Hasher<K>, q: Query, r: Query)
    requires q.Recall? && r.Remember?
    ensures Material(h, q) != Material(h, r)
  {
    if Material(h, q) == Material(h, r) {
      hide Field, Follows, Digits, Words;
      AllFollow(h, q);
      AllFollow(h, r);
      NumberPeels("g=", q.graph, Words(h, q), r.graph, Words(h, r));
      WordsTag(h, q);
      WordsTag(h, r);
    }
  }

  lemma WordsTag<K>(h: Hasher<K>, q: Query)
    ensures |Words(h, q)| > 1 && Words(h, q)[1] == if q.Recall? then 'k' else 'v'
  {
  }

  /** Spans and instants are rendered apart. */
  ghost predicate Lossless<K>(h: Hasher<K>) {
    && (forall a, b :: h.duration(a) == h.duration(b) ==> a == b)
    && (forall a, y, b, z :: h.timestamp(a, y) == h.timestamp(b, z) ==> a == b && y == z)
  }

  /** So are some coordinates, the sign of a zero included, without a NUL. */
  ghost predicate Exact<K>(h: Hasher<K>, cs: seq<Coordinate>) {
    && (forall x, y :: x in cs && y in cs && h.hex(x) == h.hex(y) ==> x == y)
    && (forall x :: x in cs ==> h.hex(x) != "" && '\0' !in h.hex(x))
  }

  /** The hash tells two materials apart. */
  predicate TellsApart<K>(h: Hasher<K>, x: string, y: string) { h.show(h.hash(x)) == h.show(h.hash(y)) ==> x == y }

  predicate BoundsTold<K>(h: Hasher<K>, a: Option<Bound>, b: Option<Bound>) {
    a.Some? && b.Some? ==> TellsApart(h, BoundMaterial(h, a.value), BoundMaterial(h, b.value))
  }

  /** The hash tells apart the bounds and the vectors of two queries. */
  predicate Told<K>(h: Hasher<K>, q: Query, r: Query) {
    && TellsApart(h, VectorMaterial(h, q.vector), VectorMaterial(h, r.vector))
    && (q.Recall? && r.Recall? ==> BoundsTold(h, q.since, r.since) && BoundsTold(h, q.until, r.until))
  }

  /** A shown key is not empty and holds no delimiter. */
  ghost predicate Shows<K(!new)>(h: Hasher<K>) { forall k :: '|' !in h.show(k) && h.show(k) != "" }

  lemma BoundTextApart<K(!new)>(h: Hasher<K>, a: Option<Bound>, b: Option<Bound>)
    requires Lossless(h) && Shows(h) && BoundsTold(h, a, b) && BoundText(h, a) == BoundText(h, b)
    ensures a == b
  {
    if a.Some? && b.Some? {
      var x, y := BoundMaterial(h, a.value), BoundMaterial(h, b.value);
      assert x == y && x[0] == (if a.value.Relative? then 'r' else 'a') && x[1..] == y[1..];
    }
  }

  lemma LastPeels(a: string, x: string, b: string, y: string)
    requires a + ("\0" + x) == b + ("\0" + y) && '\0' !in x && '\0' !in y
    ensures a == b && x == y
  {
    var m := a + ("\0" + x);
    if |a| < |b| {
      LaterNul(m, a, x, b, y);
    } else if |b| < |a| {
      LaterNul(m, b, y, a, x);
    }
    SplitAt(a, "\0" + x, b, "\0" + y);
    Untagged("\0", x, y);
  }

  lemma LaterNul(m: string, a: string, x: string, b: string, y: string)
    requires m == a + ("\0" + x) == b + ("\0" + y) && |a| < |b|
    ensures '\0' in x
  {
    assert x[|b| - |a| - 1] == m[|b|] == '\0';
  }

  lemma VectorStep<K>(h: Hasher<K>, v: seq<Coordinate>)
    requires |v| > 1
    ensures var n := |v| - 1; VectorMaterial(h, v) == VectorMaterial(h, v[..n]) + ("\0" + h.hex(v[n]))
    ensures '\0' in VectorMaterial(h, v)
  {
    var m := VectorMaterial(h, v);
    assert m[|VectorMaterial(h, v[..|v| - 1])|] == '\0';
  }

  lemma HexBare<K>(h: Hasher<K>, cs: seq<Coordinate>, x: Coordinate)
    requires Exact(h, cs) && x in cs
    ensures h.hex(x) != "" && '\0' !in h.hex(x)
  {
  }

  lemma HexApart<K>(h: Hasher<K>, cs: seq<Coordinate>, x: Coordinate, y: Coordinate)
    requires Exact(h, cs) && x in cs && y in cs && h.hex(x) == h.hex(y)
    ensures x == y
  {
  }

  ghost predicate Within(v: seq<Coordinate>, cs: seq<Coordinate>) { forall i :: 0 <= i < |v| ==> v[i] in cs }

  lemma {:induction false} VectorsApart<K>(h: Hasher<K>, cs: seq<Coordinate>, v: seq<Coordinate>, w: seq<Coordinate>)
    requires Exact(h, cs) && Within(v, cs) && Within(w, cs) && VectorMaterial(h, v) == VectorMaterial(h, w)
    ensures v == w
  {
    hide Exact;
    if v != [] {
      HexBare(h, cs, v[|v| - 1]);
    }
    if w != [] {
      HexBare(h, cs, w[|w| - 1]);
    }
    if |v| > 1 && |w| > 1 {
      var i, j := |v| - 1, |w| - 1;
      VectorStep(h, v);
      VectorStep(h, w);
      LastPeels(VectorMaterial(h, v[..i]), h.hex(v[i]), VectorMaterial(h, w[..j]), h.hex(w[j]));
      VectorsApart(h, cs, v[..i], w[..j]);
      HexApart(h, cs, v[i], w[j]);
      assert v == v[..i] + [v[i]] && w == w[..j] + [w[j]];
    } else if |v| > 1 {
      VectorStep(h, v);
    } else if |w| > 1 {
      VectorStep(h, w);
    } else if v != [] && w != [] {
      HexApart(h, cs, v[0], w[0]);
      assert v == [v[0]] && w == [w[0]];
    }
  }

  /** What the material of two queries rests on: renderings that lose nothing of theirs,
      and a hash that tells their bounds and vectors apart. */
  ghost predicate Telling<K(!new)>(h: Hasher<K>, q: Query, r: Query) {
    Lossless(h) && Exact(h, q.vector + r.vector) && Shows(h) && Told(h, q, r)
  }

  /** Two queries share hash material exactly when they are the same query, spelling
      included, given a hash that tells their bounds and vectors apart. */
  lemma MaterialIff<K(!new)>(h: Hasher<K>, q: Query, r: Query)
    requires Telling(h, q, r)
    ensures Material(h, q) == Material(h, r) <==> q == r
  {
    hide Field, Digits, Listed, BoundText, VectorMaterial, Words, Lossless, Exact, Follows;
    if Material(h, q) == Material(h, r) {
      if q.Recall? && r.Recall? {
        RecallsPeel(h, q, r);
        AllFollow(h, q);
        AllFollow(h, r);
        BoundTextBare(h, q.since);
        BoundTextBare(h, r.since);
        BoundTextBare(h, q.until);
        BoundTextBare(h, r.until);
        TextPeels("|s=", BoundText(h, q.since), Until(h, q), BoundText(h, r.since), Until(h, r));
        TextPeels("|u=", BoundText(h, q.until), Vector(h, q), BoundText(h, r.until), Vector(h, r));
        BoundTextApart(h, q.since, r.since);
        BoundTextApart(h, q.until, r.until);
      } else if q.Remember? && r.Remember? {
        RemembersPeel(h, q, r);
      } else if q.Recall? {
        KindsApart(h, q, r);
      } else {
        KindsApart(h, r, q);
      }
      VectorPeels(h, q, r);
    }
  }

  predicate SameZone(a: Option<Bound>, b: Option<Bound>) {
    a.Some? && b.Some? && a.value.Absolute? && b.value.Absolute? ==> a.value.zone == b.value.zone
  }

  predicate SameSigns(v: seq<Coordinate>, w: seq<Coordinate>) {
    forall i :: 0 <= i < |v| && i < |w| ==> v[i].NegativeZero? == w[i].NegativeZero?
  }

  /** Spelled alike: bounds in the same zones, zeros with the same signs. */
  predicate SpelledAlike(q: Query, r: Query) {
    && SameSigns(q.vector, r.vector)
    && (q.Recall? && r.Recall? ==> SameZone(q.since, r.since) && SameZone(q.until, r.until))
  }

  lemma SameSpelling(v: seq<Coordinate>, w: seq<Coordinate>)
    requires SameVector(v, w)
    ensures SameSigns(v, w) <==> v == w
  {
    if SameSigns(v, w) {
      forall i | 0 <= i < |v| ensures v[i] == w[i] {
        assert v[i].Value() == w[i].Value();
      }
    }
  }

  lemma SameBoundIff(a: Option<Bound>, b: Option<Bound>)
    requires SameBound(a, b)
    ensures SameZone(a, b) <==> a == b
  {
  }

  /** Equal queries share a key's material exactly when they are spelled alike. */
  lemma EqualShareIff<K(!new)>(h: Hasher<K>, q: Query, r: Query)
    requires Telling(h, q, r) && q.Equal(r)
    ensures Material(h, q) == Material(h, r) <==> SpelledAlike(q, r)
  {
    hide Telling, Material, SameVector, SameSigns, SameBound, SameZone;
    MaterialIff(h, q, r);
    SameSpelling(r.vector, q.vector);
    SignsTurn(q.vector, r.vector);
    if q.Recall? {
      SameBoundIff(r.since, q.since);
      SameBoundIff(r.until, q.until);
      ZonesTurn(q.since, r.since);
      ZonesTurn(q.until, r.until);
    }
  }

  lemma SignsTurn(v: seq<Coordinate>, w: seq<Coordinate>)
    ensures SameSigns(v, w) <==> SameSigns(w, v)
  {
  }

  lemma ZonesTurn(a: Option<Bound>, b: Option<Bound>)
    ensures SameZone(a, b) <==> SameZone(b, a)
  {
  }

  /** Two recalls bounded by one instant, written in two zones. */
  function Zoned(zone: int): Query { Recall(0, ["w"], [], [], 10, 0, Some(Absolute(0, zone)), None, []) }

  /** Two recalls that search with zero, written with and without a sign. */
  function Signed(c: Coordinate): Query { Recall(0, ["w"], [], [], 10, 0, None, None, [c]) }

  /** They are equal, and each has a key of its own. */
  lemma ZonesApart<K(!new)>(h: Hasher<K>)
    requires Telling(h, Zoned(0), Zoned(60))
    ensures Zoned(0).Equal(Zoned(60)) && Material(h, Zoned(0)) != Material(h, Zoned(60))
  {
    hide Telling, Material;
    EqualShareIff(h, Zoned(0), Zoned(60));
  }

  lemma SignsApart<K(!new)>(h: Hasher<K>)
    requires Telling(h, Signed(Number(0.0)), Signed(NegativeZero))
    ensures Signed(Number(0.0)).Equal(Signed(NegativeZero))
    ensures Material(h, Signed(Number(0.0))) != Material(h, Signed(NegativeZero))
  {
    hide Telling, Material;
    var q, r := Signed(Number(0.0)), Signed(NegativeZero);
    assert q.vector[0].NegativeZero? != r.vector[0].NegativeZero?;
    EqualShareIff(h, q, r);
  }

  // ---------------------------------------------------------------- the laws can be met

  function Stamp(instant: int, zone: int): string { Itoa(instant) + ("|" + Itoa(zone)) }

  /** Numbers the materials it is told, and every coordinate by its first place. */
  function Numbering(ms: seq<string>, cs: seq<Coordinate>): Hasher<nat> {
    Hasher((m: string) => First(ms, m), (k: nat) => Digits(k), (n: int) => Itoa(n), (i: int, z: int) => Stamp(i, z),
        (c: Coordinate) => Digits(First(cs, c)))
  }

  function MaterialsOf(h: Hasher<nat>, q: Query): seq<string> {
    [VectorMaterial(h, q.vector)]
    + (if q.Recall? && q.since.Some? then [BoundMaterial(h, q.since.value)] else [])
    + if q.Recall? && q.until.Some? then [BoundMaterial(h, q.until.value)] else []
  }

  lemma StampApart(a: int, y: int, b: int, z: int)
    requires Stamp(a, y) == Stamp(b, z)
    ensures a == b && y == z
  {
    hide Itoa;
    ItoaIs(a);
    ItoaIs(b);
    var m := Stamp(a, y);
    if |Itoa(a)| < |Itoa(b)| {
      Overlap(Itoa(a), "|" + Itoa(y), Itoa(b), "|" + Itoa(z));
    } else if |Itoa(b)| < |Itoa(a)| {
      Overlap(Itoa(b), "|" + Itoa(z), Itoa(a), "|" + Itoa(y));
    }
    SplitAt(Itoa(a), "|" + Itoa(y), Itoa(b), "|" + Itoa(z));
    Untagged("|", Itoa(y), Itoa(z));
    ItoaApart(a, b);
    ItoaApart(y, z);
  }

  lemma ItoaApart(i: int, j: int)
    requires Itoa(i) == Itoa(j)
    ensures i == j
  {
    hide Digits, Itoa, Value;
    ItoaIs(i);
    ItoaIs(j);
    Untagged(if i < 0 then "-" else "", Digits(if i < 0 then -i else i), Digits(if j < 0 then -j else j));
  }

  lemma {:induction false} FirstApart<A>(s: seq<A>, x: A, y: A)
    requires x in s && y in s && First(s, x) == First(s, y)
    ensures x == y
  {
    if s[0] != x && s[0] != y {
      assert s == [s[0]] + s[1..];
      FirstApart(s[1..], x, y);
    }
  }

  lemma DigitsApart(m: nat, n: nat)
    requires Digits(m) == Digits(n)
    ensures m == n
  {
    hide Digits, Value;
    Numerals(m);
    Numerals(n);
  }

  lemma NumberingRenders(ms: seq<string>, cs: seq<Coordinate>)
    ensures Lossless(Numbering(ms, cs)) && Exact(Numbering(ms, cs), cs) && Shows(Numbering(ms, cs))
  {
    hide Digits, Itoa, Stamp, Value, IsDigits;
    var h := Numbering(ms, cs);
    forall a, b | h.duration(a) == h.duration(b) ensures a == b {
      ItoaApart(a, b);
    }
    forall a, y, b, z | h.timestamp(a, y) == h.timestamp(b, z) ensures a == b && y == z {
      StampApart(a, y, b, z);
    }
    forall x, y | x in cs && y in cs && h.hex(x) == h.hex(y) ensures x == y {
      DigitsApart(First(cs, x), First(cs, y));
      FirstApart(cs, x, y);
    }
    forall k: nat ensures '|' !in Digits(k) && Digits(k) != "" && '\0' !in Digits(k) {
      DigitsBare(k);
    }
  }

  lemma DigitsBare(k: nat)
    ensures '|' !in Digits(k) && Digits(k) != "" && '\0' !in Digits(k)
  {
    hide Digits, Value;
    Numerals(k);
  }

  lemma NumberingTells(ms: seq<string>, cs: seq<Coordinate>, x: string, y: string)
    requires x in ms && y in ms
    ensures TellsApart(Numbering(ms, cs), x, y)
  {
    hide Digits;
    if Digits(First(ms, x)) == Digits(First(ms, y)) {
      DigitsApart(First(ms, x), First(ms, y));
      FirstApart(ms, x, y);
    }
  }

  /** For any two queries some hasher tells all of theirs apart. */
  lemma SomeTelling(q: Query, r: Query) returns (h: Hasher<nat>)
    ensures Telling(h, q, r)
  {
    hide Digits, Itoa, Stamp, VectorMaterial, TellsApart, Lossless, Exact, Shows, First;
    var cs := q.vector + r.vector;
    var h0 := Numbering([], cs);
    var ms := MaterialsOf(h0, q) + MaterialsOf(h0, r);
    h := Numbering(ms, cs);
    NumberingRenders(ms, cs);
    SameMaterials(h0, h, q.vector);
    SameMaterials(h0, h, r.vector);
    NumberingTells(ms, cs, VectorMaterial(h, q.vector), VectorMaterial(h, r.vector));
    if q.Recall? && r.Recall? {
      if q.since.Some? && r.since.Some? {
        NumberingTells(ms, cs, BoundMaterial(h, q.since.value), BoundMaterial(h, r.since.value));
      }
      if q.until.Some? && r.until.Some? {
        NumberingTells(ms, cs, BoundMaterial(h, q.until.value), BoundMaterial(h, r.until.value));
      }
    }
  }

  lemma {:induction false} SameMaterials(g: Hasher<nat>, h: Hasher<nat>, v: seq<Coordinate>)
    requires g.hex == h.hex
    ensures VectorMaterial(g, v) == VectorMaterial(h, v)
  {
    if |v| > 1 {
      SameMaterials(g, h, v[..|v| - 1]);
    }
  }

  lemma BoundTextBare<K(!new)>(h: Hasher<K>, b: Option<Bound>)
    requires Shows(h)
    ensures '|' !in BoundText(h, b)
  {
  }

  lemma VectorPeels<K(!new)>(h: Hasher<K>, q: Query, r: Query)
    requires Telling(h, q, r) && Vector(h, q) == Vector(h, r)
    ensures q.vector == r.vector
  {
    hide Field, Exact, Lossless;
    TextPeels("|vec=", VectorText(h, q.vector), "", VectorText(h, r.vector), "");
    VectorsApart(h, q.vector + r.vector, q.vector, r.vector);
  }

  // ---------------------------------------------------------------- writing the material

  /** strings.Builder. */
  class Builder {
    var text: string

    constructor ()
      ensures text == ""
    {
      text := "";
    }

    method Write(s: string)
      modifies this
      ensures text == old(text) + s
    {
      text := text + s;
    }

    /** User text: each string as its byte length, a colon and itself. */
    method WriteStrings(ss: seq<string>)
      modifies this
      ensures text == old(text) + Listed(ss)
    {
      hide Digits;
      for i := 0 to |ss|
        invariant text == old(text) + Listed(ss[..i])
      {
        assert ss[..i + 1][..i] == ss[..i];
        Write(Digits(|ss[i]|));
        Write(":");
        Write(ss[i]);
      }
      assert ss[..|ss|] == ss;
    }

    /** A tag and what follows it, of the material still to write. */
    method WriteField(tag: string, body: string, ghost rest: string, ghost whole: string)
      requires whole == text + Field(tag, body, rest)
      modifies this
      ensures whole == text + rest
    {
      Write(tag);
      Write(body);
    }

    method WriteList(tag: string, ss: seq<string>, ghost rest: string, ghost whole: string)
      requires whole == text + Field(tag, Listed(ss), rest)
      modifies this
      ensures whole == text + rest
    {
      hide Listed;
      Write(tag);
      WriteStrings(ss);
    }
  }

  method BoundHash<K>(h: Hasher<K>, b: Option<Bound>) returns (text: string)
    ensures text == BoundText(h, b)
  {
    return if b.None? then "" else h.show(h.hash(BoundMaterial(h, b.value)));
  }

  lemma NoCoordinates<K>(h: Hasher<K>)
    ensures VectorMaterial(h, []) == ""
  {
  }

  lemma VectorNext<K>(h: Hasher<K>, v: seq<Coordinate>, i: nat)
    requires i < |v|
    ensures VectorMaterial(h, v[..i + 1]) == VectorMaterial(h, v[..i]) + (if i > 0 then "\0" else "") + h.hex(v[i])
  {
    assert v[..i + 1][..i] == v[..i];
  }

  method VectorHash<K>(h: Hasher<K>, v: seq<Coordinate>) returns (text: string)
    ensures text == VectorText(h, v)
  {
    hide VectorMaterial;
    var b := new Builder();
    NoCoordinates(h);
    for i := 0 to |v|
      invariant b.text == VectorMaterial(h, v[..i])
    {
      VectorNext(h, v, i);
      if i > 0 {
        b.Write("\0");
      }
      b.Write(h.hex(v[i]));
    }
    assert v[..|v|] == v;
    return h.show(h.hash(b.text));
  }

  /** The plan-cache key: the hash of the material. */
  method HashOf<K>(h: Hasher<K>, q: Query) returns (key: K)
    ensures key == h.hash(Material(h, q))
  {
    hide Field, Digits, Listed, BoundText, VectorText;
    var b := new Builder();
    ghost var whole := Material(h, q);
    b.WriteField("g=", Itoa(q.graph), Words(h, q), whole);
    if q.Recall? {
      b.WriteList("|kw=", q.keywords, Entities(h, q), whole);
    } else {
      b.WriteList("|v=", [q.value], Entities(h, q), whole);
    }
    b.WriteList("|en=", q.entities, Topics(h, q), whole);
    b.WriteList("|to=", q.topics, Tail(h, q), whole);
    if q.Recall? {
      b.WriteField("|d=", Itoa(q.depth), Top(h, q), whole);
      b.WriteField("|t=", Itoa(q.top), Bounds(h, q), whole);
      var since := BoundHash(h, q.since);
      b.WriteField("|s=", since, Until(h, q), whole);
      var until := BoundHash(h, q.until);
      b.WriteField("|u=", until, Vector(h, q), whole);
    }
    var vector := VectorHash(h, q.vector);
    b.WriteField("|vec=", vector, "", whole);
    assert b.text + "" == b.text;
    return h.hash(b.text);
  }
}
