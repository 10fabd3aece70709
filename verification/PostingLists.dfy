/** One term's posting list: entries in key order, cut into chunks of bounded size,
    with tombstones left in place. */
module PostingLists {
  import opened Keys

  /** One document's sighting of a term; a frequency of zero is a tombstone. */
  datatype Posting = Posting(key: Key, doc: nat, tf: nat)

  const POSTING_CHUNK := 128

  // ---------------------------------------------------------------- entries in key order

  predicate Ascending(s: seq<Posting>) { forall i, j :: 0 <= i < j < |s| ==> s[i].key.hash < s[j].key.hash }

  function FirstKey(s: seq<Posting>): int { if s == [] then 0 else s[0].key.hash }

  function LastKey(s: seq<Posting>): int { if s == [] then 0 else s[|s| - 1].key.hash }

  predicate Below(s: seq<Posting>, key: Key) { forall i :: 0 <= i < |s| ==> s[i].key.hash < key.hash }

  predicate Above(s: seq<Posting>, key: Key) { forall i :: 0 <= i < |s| ==> key.hash < s[i].key.hash }

  predicate Has(s: seq<Posting>, key: Key) { exists i :: 0 <= i < |s| && s[i].key == key }

  /** The frequency recorded under key, zero when there is none. */
  function Tf(s: seq<Posting>, key: Key): nat {
    if s == [] then 0 else if s[0].key == key then s[0].tf else Tf(s[1..], key)
  }

  /** The document number recorded under key. */
  function Number(s: seq<Posting>, key: Key): nat {
    if s == [] then 0 else if s[0].key == key then s[0].doc else Number(s[1..], key)
  }

  /** How many entries are in use. */
  function Live(s: seq<Posting>): nat {
    if s == [] then 0 else (if s[0].tf > 0 then 1 else 0) + Live(s[1..])
  }

  lemma {:induction false} Around(a: seq<Posting>, b: seq<Posting>, key: Key)
    ensures Live(a + b) == Live(a) + Live(b)
    ensures Below(a, key) || Above(a, key) ==> Tf(a + b, key) == Tf(b, key) && Number(a + b, key) == Number(b, key)
    ensures Below(b, key) || Above(b, key) ==> Tf(a + b, key) == Tf(a, key) && Number(a + b, key) == Number(a, key)
    ensures Has(a + b, key) <==> Has(a, key) || Has(b, key)
  {
    if a == [] {
      assert a + b == b;
      if Below(b, key) || Above(b, key) {
        Absent(b, key);
      }
    } else {
      assert (a + b)[1..] == a[1..] + b;
      Around(a[1..], b, key);
    }
    HasEither(a, b, key);
  }

  lemma HasEither(a: seq<Posting>, b: seq<Posting>, key: Key)
    ensures Has(a + b, key) <==> Has(a, key) || Has(b, key)
  {
    if Has(a, key) {
      var i :| 0 <= i < |a| && a[i].key == key;
      assert (a + b)[i].key == key;
    }
    if Has(b, key) {
      var i :| 0 <= i < |b| && b[i].key == key;
      assert (a + b)[|a| + i].key == key;
    }
  }

  lemma {:induction false} Absent(s: seq<Posting>, key: Key)
    requires !Has(s, key)
    ensures Tf(s, key) == 0 && Number(s, key) == 0
  {
    if s != [] {
      assert s[0].key != key;
      forall i | 0 <= i < |s[1..]| ensures s[1..][i].key != key {
        assert s[i + 1].key != key;
      }
      Absent(s[1..], key);
    }
  }

  /** One entry between its neighbours is what its key finds; other keys pass it by. */
  lemma Middle(a: seq<Posting>, p: Posting, b: seq<Posting>, key: Key)
    requires Below(a, p.key) && Above(b, p.key)
    ensures Tf(a + [p] + b, key) == if key == p.key then p.tf else Tf(a + b, key)
    ensures Number(a + [p] + b, key) == if key == p.key then p.doc else Number(a + b, key)
    ensures Has(a + [p] + b, key) <==> key == p.key || Has(a + b, key)
    ensures Live(a + [p] + b) == Live(a + b) + if p.tf > 0 then 1 else 0
    ensures !Has(a + b, p.key)
  {
    hide Tf, Number, Live, Has;
    assert a + [p] + b == a + ([p] + b);
    Around(a, [p] + b, key);
    Around([p], b, key);
    Around(a, b, key);
    Around(a, b, p.key);
    Alone(p, key);
    NotIn(a, p.key);
    NotIn(b, p.key);
    if key != p.key {
      SkipMiddle(a, p, b, key);
    }
  }

  lemma Alone(p: Posting, key: Key)
    ensures Tf([p], p.key) == p.tf && Number([p], p.key) == p.doc && Live([p]) == (if p.tf > 0 then 1 else 0)
    ensures Has([p], key) <==> key == p.key
  {
    assert [p][1..] == [];
    assert [p][0].key == p.key;
  }

  lemma NotIn(s: seq<Posting>, key: Key)
    requires Below(s, key) || Above(s, key)
    ensures !Has(s, key)
  {
  }

  lemma {:induction false} SkipMiddle(a: seq<Posting>, p: Posting, b: seq<Posting>, key: Key)
    requires key != p.key
    ensures Tf(a + [p] + b, key) == Tf(a + b, key) && Number(a + [p] + b, key) == Number(a + b, key)
  {
    var s, t := a + [p] + b, a + b;
    if a == [] {
      assert s[1..] == t;
    } else {
      assert s[1..] == a[1..] + [p] + b && t[1..] == a[1..] + b;
      SkipMiddle(a[1..], p, b, key);
    }
  }

  // ---------------------------------------------------------------- chunks

  function Flat(chunks: seq<seq<Posting>>): seq<Posting> {
    if chunks == [] then [] else chunks[0] + Flat(chunks[1..])
  }

  /** Chunks of 1 to 128 entries, in strict key order within and across. */
  ghost predicate InChunks(chunks: seq<seq<Posting>>) {
    && (forall c :: 0 <= c < |chunks| ==> 0 < |chunks[c]| <= POSTING_CHUNK && Ascending(chunks[c]))
    && (forall c, d :: 0 <= c < d < |chunks| ==> LastKey(chunks[c]) < FirstKey(chunks[d]))
  }

  lemma {:induction false} FlatAppend(a: seq<seq<Posting>>, b: seq<seq<Posting>>)
    ensures Flat(a + b) == Flat(a) + Flat(b)
  {
    if a == [] {
      assert a + b == b;
    } else {
      assert (a + b)[1..] == a[1..] + b;
      FlatAppend(a[1..], b);
    }
  }

  lemma FlatOne(s: seq<Posting>)
    ensures Flat([s]) == s
  {
    assert [s][1..] == [];
  }

  /** What lies before and from position i of chunk c. */
  function Front(chunks: seq<seq<Posting>>, c: nat, i: nat): seq<Posting>
    requires c < |chunks| && i <= |chunks[c]|
  {
    Flat(chunks[..c]) + chunks[c][..i]
  }

  function Back(chunks: seq<seq<Posting>>, c: nat, i: nat): seq<Posting>
    requires c < |chunks| && i <= |chunks[c]|
  {
    chunks[c][i..] + Flat(chunks[c + 1..])
  }

  lemma FrontBack(chunks: seq<seq<Posting>>, c: nat, i: nat)
    requires c < |chunks| && i <= |chunks[c]|
    ensures Flat(chunks) == Front(chunks, c, i) + Back(chunks, c, i)
  {
    hide Flat;
    var a, b, x, y := chunks[..c], chunks[c + 1..], chunks[c][..i], chunks[c][i..];
    assert chunks == a + ([chunks[c]] + b);
    FlatAppend(a, [chunks[c]] + b);
    FlatAppend([chunks[c]], b);
    FlatOne(chunks[c]);
    assert chunks[c] == x + y;
    assert Flat(a) + (x + y + Flat(b)) == Flat(a) + x + (y + Flat(b));
  }

  /** Replacing chunk c by other chunks replaces its entries in the whole. */
  lemma Replaced(chunks: seq<seq<Posting>>, c: nat, mid: seq<seq<Posting>>)
    requires c < |chunks|
    ensures Flat(chunks[..c] + mid + chunks[c + 1..]) == Flat(chunks[..c]) + Flat(mid) + Flat(chunks[c + 1..])
  {
    FlatAppend(chunks[..c] + mid, chunks[c + 1..]);
    FlatAppend(chunks[..c], mid);
  }

  lemma {:induction false} FlatBelow(chunks: seq<seq<Posting>>, key: Key)
    requires InChunks(chunks) && forall c :: 0 <= c < |chunks| ==> LastKey(chunks[c]) < key.hash
    ensures Below(Flat(chunks), key)
  {
    if chunks != [] {
      FlatBelow(chunks[1..], key);
    }
  }

  lemma {:induction false} FlatAbove(chunks: seq<seq<Posting>>, key: Key)
    requires InChunks(chunks) && forall c :: 0 <= c < |chunks| ==> key.hash < FirstKey(chunks[c])
    ensures Above(Flat(chunks), key)
  {
    if chunks != [] {
      FlatAbove(chunks[1..], key);
    }
  }

  lemma {:induction false} FlatAscends(chunks: seq<seq<Posting>>)
    requires InChunks(chunks)
    ensures Ascending(Flat(chunks))
  {
    if chunks != [] {
      FlatAscends(chunks[1..]);
      FlatAbove(chunks[1..], Key(LastKey(chunks[0])));
    }
  }

  // ---------------------------------------------------------------- splicing a chunk

  lemma Joined(a: seq<seq<Posting>>, b: seq<seq<Posting>>)
    requires InChunks(a) && InChunks(b)
    requires a != [] && b != [] ==> LastKey(a[|a| - 1]) < FirstKey(b[0])
    ensures InChunks(a + b)
  {
    var t := a + b;
    forall c, d | 0 <= c < |a| && 0 <= d < |b| ensures LastKey(a[c]) < FirstKey(b[d]) {
      assert LastKey(a[c]) <= LastKey(a[|a| - 1]) by {
        if c < |a| - 1 { assert LastKey(a[c]) < FirstKey(a[|a| - 1]); }
      }
      assert FirstKey(b[0]) <= FirstKey(b[d]) by {
        if d > 0 { assert LastKey(b[0]) < FirstKey(b[d]); }
      }
    }
    assert forall c :: 0 <= c < |t| ==> t[c] == if c < |a| then a[c] else b[c - |a|];
  }

  lemma SliceInChunks(chunks: seq<seq<Posting>>, i: nat, j: nat)
    requires InChunks(chunks) && i <= j <= |chunks|
    ensures InChunks(chunks[i..j])
  {
  }

  /** Chunks in order between their neighbours may stand for chunk c. */
  lemma Spliced(chunks: seq<seq<Posting>>, c: nat, mid: seq<seq<Posting>>)
    requires InChunks(chunks) && c < |chunks| && InChunks(mid) && mid != []
    requires c > 0 ==> LastKey(chunks[c - 1]) < FirstKey(mid[0])
    requires c + 1 < |chunks| ==> LastKey(mid[|mid| - 1]) < FirstKey(chunks[c + 1])
    ensures InChunks(chunks[..c] + mid + chunks[c + 1..])
  {
    hide InChunks;
    assert chunks[0..c] == chunks[..c] && chunks[c + 1..|chunks|] == chunks[c + 1..];
    SliceInChunks(chunks, 0, c);
    SliceInChunks(chunks, c + 1, |chunks|);
    Joined(chunks[..c], mid);
    Joined(chunks[..c] + mid, chunks[c + 1..]);
  }

  lemma OneChunk(s: seq<Posting>)
    requires 0 < |s| <= POSTING_CHUNK && Ascending(s)
    ensures InChunks([s]) && Flat([s]) == s
  {
    FlatOne(s);
  }

  lemma TwoChunks(s: seq<Posting>, half: nat)
    requires 0 < half < |s| && half <= POSTING_CHUNK && |s| - half <= POSTING_CHUNK && Ascending(s)
    ensures InChunks([s[..half], s[half..]]) && Flat([s[..half], s[half..]]) == s
  {
    OneChunk(s[..half]);
    OneChunk(s[half..]);
    assert [s[..half]] + [s[half..]] == [s[..half], s[half..]];
    FlatAppend([s[..half]], [s[half..]]);
    assert s[half - 1].key.hash < s[half].key.hash;
    Joined([s[..half]], [s[half..]]);
    assert s[..half] + s[half..] == s;
  }

  // ---------------------------------------------------------------- compaction

  function IdOf(ids: map<Key, nat>, key: Key): nat { if key in ids then ids[key] else 0 }

  /** The entries in use, numbered afresh. */
  function Compacted(s: seq<Posting>, ids: map<Key, nat>): (r: seq<Posting>)
    ensures |r| <= |s|
  {
    if s == [] then []
    else if s[0].tf == 0 then Compacted(s[1..], ids)
    else [s[0].(doc := IdOf(ids, s[0].key))] + Compacted(s[1..], ids)
  }

  lemma {:induction false} CompactedAppend(a: seq<Posting>, b: seq<Posting>, ids: map<Key, nat>)
    ensures Compacted(a + b, ids) == Compacted(a, ids) + Compacted(b, ids)
  {
    if a == [] {
      assert a + b == b;
    } else {
      assert (a + b)[1..] == a[1..] + b;
      CompactedAppend(a[1..], b, ids);
    }
  }

  lemma {:induction false} CompactedFrom(s: seq<Posting>, ids: map<Key, nat>, key: Key)
    requires Above(s, key)
    ensures Above(Compacted(s, ids), key)
  {
    if s != [] {
      CompactedFrom(s[1..], ids, key);
    }
  }

  lemma {:induction false} CompactedAscends(s: seq<Posting>, ids: map<Key, nat>)
    requires Ascending(s)
    ensures Ascending(Compacted(s, ids))
    ensures forall i :: 0 <= i < |Compacted(s, ids)| ==> FirstKey(s) <= Compacted(s, ids)[i].key.hash <= LastKey(s)
  {
    if s != [] {
      CompactedAscends(s[1..], ids);
      CompactedFrom(s[1..], ids, s[0].key);
    }
  }

  /** Compaction keeps every frequency and count, and only the entries in use. */
  lemma {:induction false} CompactedSame(s: seq<Posting>, ids: map<Key, nat>, key: Key)
    requires Ascending(s)
    ensures var r := Compacted(s, ids);
            && Live(r) == Live(s) == |r| && Tf(r, key) == Tf(s, key)
            && (Has(r, key) <==> Tf(s, key) > 0)
            && (Has(r, key) ==> Number(r, key) == IdOf(ids, key))
  {
    if s != [] {
      var t := s[1..];
      CompactedSame(t, ids, key);
      var r := Compacted(t, ids);
      assert [s[0].(doc := IdOf(ids, s[0].key))] + r == [] + [s[0].(doc := IdOf(ids, s[0].key))] + r;
      assert s == [] + [s[0]] + t;
      if s[0].tf == 0 {
        NotIn(t, s[0].key);
        Absent(t, s[0].key);
      } else {
        CompactedFrom(t, ids, s[0].key);
        hide Compacted, Has;
        Middle([], s[0].(doc := IdOf(ids, s[0].key)), r, key);
        assert [] + r == r;
      }
    } else {
      Absent([], key);
    }
  }

  class PostingList {
    const term: string
    var chunks: seq<seq<Posting>>
    var live: nat

    ghost predicate Valid()
      reads this
    {
      InChunks(chunks) && live == Live(Flat(chunks))
    }

    ghost function Entries(): seq<Posting>
      reads this
    {
      Flat(chunks)
    }

    constructor (term: string)
      ensures Valid() && this.term == term && Entries() == [] && chunks == []
    {
      this.term := term;
      chunks := [];
      live := 0;
    }

    /** Where key sits, or where an insert keeps the order. */
    method Find(key: Key) returns (c: nat, i: nat, found: bool)
      requires Valid()
      ensures chunks == [] ==> c == 0 && i == 0 && !found
      ensures chunks != [] ==> c < |chunks| && i <= |chunks[c]| && Below(Front(chunks, c, i), key)
      ensures chunks != [] && !found ==> Above(Back(chunks, c, i), key)
      ensures chunks != [] && !found && i == 0 && c > 0 ==> LastKey(chunks[c - 1]) < key.hash
      ensures chunks != [] && !found && i == |chunks[c]| ==> c + 1 == |chunks|
      ensures found ==> chunks != [] && i < |chunks[c]| && chunks[c][i].key == key
    {
      hide Flat, Live;
      c := SearchChunks(key);
      if c == |chunks| {
        if c == 0 {
          return 0, 0, false;
        }
        BelowAll(chunks, key);
        return c - 1, |chunks[c - 1]|, false;
      }
      i := SearchChunk(chunks[c], key);
      found := i < |chunks[c]| && chunks[c][i].key == key;
      FoundPlace(chunks, c, i, key);
    }

    /** The first chunk whose last key is not below key. */
    method SearchChunks(key: Key) returns (c: nat)
      requires InChunks(chunks)
      ensures c <= |chunks|
      ensures forall d :: 0 <= d < c ==> LastKey(chunks[d]) < key.hash
      ensures c < |chunks| ==> LastKey(chunks[c]) >= key.hash
    {
      var lo, hi: nat := 0, |chunks|;
      while lo < hi
        invariant lo <= hi <= |chunks|
        invariant forall d :: 0 <= d < lo ==> LastKey(chunks[d]) < key.hash
        invariant hi < |chunks| ==> LastKey(chunks[hi]) >= key.hash
      {
        var mid := (lo + hi) / 2;
        if LastKey(chunks[mid]) >= key.hash {
          hi := mid;
        } else {
          LastsAscend(chunks, mid, key);
          lo := mid + 1;
        }
      }
      c := lo;
    }

    static lemma LastsAscend(chunks: seq<seq<Posting>>, mid: nat, key: Key)
      requires InChunks(chunks) && mid < |chunks| && LastKey(chunks[mid]) < key.hash
      ensures forall d :: 0 <= d <= mid ==> LastKey(chunks[d]) < key.hash
    {
      forall d | 0 <= d < mid ensures LastKey(chunks[d]) < key.hash {
        assert LastKey(chunks[d]) < FirstKey(chunks[mid]) <= LastKey(chunks[mid]);
      }
    }

    /** The first entry of a chunk whose key is not below key. */
    static method SearchChunk(s: seq<Posting>, key: Key) returns (i: nat)
      requires Ascending(s)
      ensures i <= |s| && Below(s[..i], key)
      ensures forall j :: i <= j < |s| ==> s[j].key.hash >= key.hash
    {
      var lo, hi: nat := 0, |s|;
      while lo < hi
        invariant lo <= hi <= |s|
        invariant forall j :: 0 <= j < lo ==> s[j].key.hash < key.hash
        invariant forall j :: hi <= j < |s| ==> s[j].key.hash >= key.hash
      {
        var mid := (lo + hi) / 2;
        if s[mid].key.hash >= key.hash {
          hi := mid;
        } else {
          lo := mid + 1;
        }
      }
      i := lo;
    }

    static lemma BelowAll(chunks: seq<seq<Posting>>, key: Key)
      requires InChunks(chunks) && chunks != [] && forall d :: 0 <= d < |chunks| ==> LastKey(chunks[d]) < key.hash
      ensures Below(Front(chunks, |chunks| - 1, |chunks[|chunks| - 1]|), key)
      ensures Above(Back(chunks, |chunks| - 1, |chunks[|chunks| - 1]|), key)
    {
      var n := |chunks| - 1;
      FrontBack(chunks, n, |chunks[n]|);
      FlatBelow(chunks, key);
      assert chunks[n + 1..] == [] && chunks[n][|chunks[n]|..] == [];
      assert Flat(chunks) == Front(chunks, n, |chunks[n]|);
    }

    static lemma FoundPlace(chunks: seq<seq<Posting>>, c: nat, i: nat, key: Key)
      requires InChunks(chunks) && c < |chunks| && i <= |chunks[c]|
      requires forall d :: 0 <= d < c ==> LastKey(chunks[d]) < key.hash
      requires LastKey(chunks[c]) >= key.hash
      requires Below(chunks[c][..i], key) && forall j :: i <= j < |chunks[c]| ==> chunks[c][j].key.hash >= key.hash
      ensures Below(Front(chunks, c, i), key) && i < |chunks[c]|
      ensures chunks[c][i].key != key ==> Above(Back(chunks, c, i), key)
    {
      FlatBelow(chunks[..c], key);
      if chunks[c][i].key != key {
        var rest := chunks[c + 1..];
        forall d | 0 <= d < |rest| ensures key.hash < FirstKey(rest[d]) {
          assert LastKey(chunks[c]) < FirstKey(chunks[c + 1 + d]);
        }
        FlatAbove(rest, key);
        assert forall j :: i <= j < |chunks[c]| ==> chunks[c][i].key.hash <= chunks[c][j].key.hash;
      }
    }

    /** Puts p where Find placed it, and splits a chunk that outgrows its bound. */
    method Insert(c: nat, i: nat, p: Posting)
      requires Valid() && p.tf > 0
      requires chunks == [] ==> c == 0 && i == 0
      requires chunks != [] ==>
              c < |chunks| && i <= |chunks[c]| && Below(Front(chunks, c, i), p.key) && Above(Back(chunks, c, i), p.key)
      requires chunks != [] && i == 0 && c > 0 ==> LastKey(chunks[c - 1]) < p.key.hash
      requires chunks != [] && i == |chunks[c]| ==> c + 1 == |chunks|
      modifies `chunks
      ensures InChunks(chunks)
      ensures Entries() == if old(chunks) == [] then [p] else Front(old(chunks), c, i) + [p] + Back(old(chunks), c, i)
    {
      hide Flat, Live, InChunks, Above, Below;
      if |chunks| == 0 {
        OneChunk([p]);
        chunks := [[p]];
        return;
      }
      var chunk := chunks[c][..i] + [p] + chunks[c][i..];
      Fits(chunks, c, i, p);
      if |chunk| <= POSTING_CHUNK {
        OneChunk(chunk);
        Regrown(chunks, c, i, p, [chunk]);
        chunks := chunks[c := chunk];
      } else {
        var half := |chunk| / 2;
        TwoChunks(chunk, half);
        Regrown(chunks, c, i, p, [chunk[..half], chunk[half..]]);
        chunks := chunks[..c] + [chunk[..half], chunk[half..]] + chunks[c + 1..];
      }
    }

    /** Chunks holding the grown chunk's entries take its place. */
    static lemma Regrown(chunks: seq<seq<Posting>>, c: nat, i: nat, p: Posting, mid: seq<seq<Posting>>)
      requires InChunks(chunks) && c < |chunks| && i <= |chunks[c]| && InChunks(mid) && mid != []
      requires Flat(mid) == chunks[c][..i] + [p] + chunks[c][i..]
      requires c > 0 ==> LastKey(chunks[c - 1]) < FirstKey(mid[0])
      requires c + 1 < |chunks| ==> LastKey(mid[|mid| - 1]) < FirstKey(chunks[c + 1])
      ensures InChunks(chunks[..c] + mid + chunks[c + 1..])
      ensures Flat(chunks[..c] + mid + chunks[c + 1..]) == Front(chunks, c, i) + [p] + Back(chunks, c, i)
      ensures |mid| == 1 ==> chunks[..c] + mid + chunks[c + 1..] == chunks[c := mid[0]]
    {
      hide Flat, InChunks;
      Spliced(chunks, c, mid);
      Replaced(chunks, c, mid);
      var a, x, y, b := Flat(chunks[..c]), chunks[c][..i], chunks[c][i..], Flat(chunks[c + 1..]);
      assert a + (x + [p] + y) + b == a + x + [p] + (y + b);
    }

    /** The grown chunk is in order and stays between its neighbours. */
    static lemma Fits(chunks: seq<seq<Posting>>, c: nat, i: nat, p: Posting)
      requires InChunks(chunks) && c < |chunks| && i <= |chunks[c]|
      requires Below(Front(chunks, c, i), p.key) && Above(Back(chunks, c, i), p.key)
      requires i == 0 && c > 0 ==> LastKey(chunks[c - 1]) < p.key.hash
      requires i == |chunks[c]| ==> c + 1 == |chunks|
      ensures var s := chunks[c][..i] + [p] + chunks[c][i..];
              && Ascending(s) && |s| <= POSTING_CHUNK + 1
              && (c > 0 ==> LastKey(chunks[c - 1]) < FirstKey(s))
              && (c + 1 < |chunks| ==> LastKey(s) < FirstKey(chunks[c + 1]))
    {
      var a, b := chunks[c][..i], chunks[c][i..];
      assert Below(a, p.key) by {
        forall j | 0 <= j < |a| ensures a[j].key.hash < p.key.hash {
          assert Front(chunks, c, i)[|Flat(chunks[..c])| + j] == a[j];
        }
      }
      assert Above(b, p.key) by {
        forall j | 0 <= j < |b| ensures p.key.hash < b[j].key.hash {
          assert Back(chunks, c, i)[j] == b[j];
        }
      }
      hide Flat;
    }

    /** Records one more sighting of the term under key: a new entry, a revived
        tombstone, or one more for a live entry. */
    method Sight(key: Key, doc: nat)
      requires Valid()
      modifies this
      ensures Valid()
      ensures Tf(Entries(), key) == Tf(old(Entries()), key) + 1
      ensures Number(Entries(), key) == if Has(old(Entries()), key) then Number(old(Entries()), key) else doc
      ensures forall k :: k != key ==>
              Tf(Entries(), k) == Tf(old(Entries()), k) && Number(Entries(), k) == Number(old(Entries()), k)
      ensures forall k :: Has(Entries(), k) <==> k == key || Has(old(Entries()), k)
    {
      hide Flat, Live, InChunks, Has, Tf, Number, Above, Below;
      var c, i, found := Find(key);
      if !found {
        var p := Posting(key, doc, 1);
        ghost var was := chunks;
        Insert(c, i, p);
        NewEntry(was, c, i, p);
        live := live + 1;
      } else {
        var p := chunks[c][i];
        ghost var was := chunks;
        PutTf(c, i, p.tf + 1);
        SetEntry(was, c, i, p.tf + 1);
        if p.tf == 0 {
          live := live + 1;
        }
      }
    }

    static lemma NewEntry(chunks: seq<seq<Posting>>, c: nat, i: nat, p: Posting)
      requires p.tf > 0
      requires chunks != [] ==>
              c < |chunks| && i <= |chunks[c]| && Below(Front(chunks, c, i), p.key) && Above(Back(chunks, c, i), p.key)
      ensures var s := Flat(chunks);
              var t := if chunks == [] then [p] else Front(chunks, c, i) + [p] + Back(chunks, c, i);
              && Live(t) == Live(s) + 1 && !Has(s, p.key) && Tf(s, p.key) == 0
              && Tf(t, p.key) == p.tf && Number(t, p.key) == p.doc
              && (forall k :: k != p.key ==> Tf(t, k) == Tf(s, k) && Number(t, k) == Number(s, k))
              && (forall k :: Has(t, k) <==> k == p.key || Has(s, k))
    {
      var a := if chunks == [] then [] else Front(chunks, c, i);
      var b := if chunks == [] then [] else Back(chunks, c, i);
      if chunks != [] {
        FrontBack(chunks, c, i);
      }
      var s := Flat(chunks);
      var t := if chunks == [] then [p] else Front(chunks, c, i) + [p] + Back(chunks, c, i);
      assert s == a + b && t == a + [p] + b;
      hide Flat, Live, Has, Tf, Number, Front, Back;
      forall k ensures (k != p.key ==> Tf(t, k) == Tf(s, k) && Number(t, k) == Number(s, k))
          && (Has(t, k) <==> k == p.key || Has(s, k)) {
        Middle(a, p, b, k);
      }
      Middle(a, p, b, p.key);
      Absent(s, p.key);
    }

    static lemma SetEntry(chunks: seq<seq<Posting>>, c: nat, i: nat, tf: nat)
      requires InChunks(chunks) && c < |chunks| && i < |chunks[c]|
      ensures var p := chunks[c][i];
              var q := p.(tf := tf);
              var s := Flat(chunks);
              var t := Front(chunks, c, i) + [q] + Back(chunks, c, i + 1);
              && Live(t) + (if p.tf > 0 then 1 else 0) == Live(s) + (if tf > 0 then 1 else 0)
              && Has(s, p.key) && Tf(s, p.key) == p.tf && Number(s, p.key) == p.doc
              && Tf(t, p.key) == tf && Number(t, p.key) == p.doc
              && (forall k :: k != p.key ==> Tf(t, k) == Tf(s, k) && Number(t, k) == Number(s, k))
              && (forall k :: Has(t, k) <==> Has(s, k))
    {
      var p := chunks[c][i];
      var q := p.(tf := tf);
      var a, b := Front(chunks, c, i), Back(chunks, c, i + 1);
      FrontBack(chunks, c, i);
      assert Back(chunks, c, i) == [p] + b;
      assert Flat(chunks) == a + [p] + b;
      FlatAscends(chunks);
      var s := Flat(chunks);
      var t := a + [q] + b;
      assert s[|a|] == p;
      assert Below(a, p.key) by { assert forall j :: 0 <= j < |a| ==> a[j] == s[j]; }
      assert Above(b, p.key) by { assert forall j :: 0 <= j < |b| ==> b[j] == s[|a| + 1 + j]; }
      hide Flat, Live, Has, Tf, Number, Front, Back, Below, Above;
      forall k ensures (k != p.key ==> Tf(t, k) == Tf(s, k) && Number(t, k) == Number(s, k))
          && (Has(t, k) <==> Has(s, k)) {
        Middle(a, p, b, k);
        Middle(a, q, b, k);
      }
      Middle(a, p, b, p.key);
      Middle(a, q, b, p.key);
    }

    /** Writes the frequency of the entry at position i of chunk c. */
    method PutTf(c: nat, i: nat, tf: nat)
      requires InChunks(chunks) && c < |chunks| && i < |chunks[c]|
      modifies `chunks
      ensures InChunks(chunks)
      ensures Entries() == Front(old(chunks), c, i) + [old(chunks)[c][i].(tf := tf)] + Back(old(chunks), c, i + 1)
    {
      var chunk := chunks[c][i := chunks[c][i].(tf := tf)];
      Rewritten(chunks, c, i, tf);
      chunks := chunks[c := chunk];
    }

    static lemma EntrySet(s: seq<Posting>, i: nat, tf: nat)
      requires 0 < |s| <= POSTING_CHUNK && Ascending(s) && i < |s|
      ensures var q := s[i].(tf := tf);
              && InChunks([s[i := q]]) && Flat([s[i := q]]) == s[i := q] == s[..i] + [q] + s[i + 1..]
    {
      OneChunk(s[i := s[i].(tf := tf)]);
    }

    static lemma Rewritten(chunks: seq<seq<Posting>>, c: nat, i: nat, tf: nat)
      requires InChunks(chunks) && c < |chunks| && i < |chunks[c]|
      ensures var q := chunks[c][i].(tf := tf);
              && InChunks(chunks[c := chunks[c][i := q]])
              && Flat(chunks[c := chunks[c][i := q]]) == Front(chunks, c, i) + [q] + Back(chunks, c, i + 1)
    {
      var q := chunks[c][i].(tf := tf);
      var chunk := chunks[c][i := q];
      EntrySet(chunks[c], i, tf);
      EdgesOf(chunks, c, i, chunk);
      RewrittenAs(chunks, c, chunks[c][..i], q, chunks[c][i + 1..], chunk);
    }

    static lemma RewrittenAs(chunks: seq<seq<Posting>>, c: nat, x: seq<Posting>, q: Posting, y: seq<Posting>,
        chunk: seq<Posting>)
      requires InChunks(chunks) && c < |chunks| && InChunks([chunk]) && Flat([chunk]) == x + [q] + y
      requires c > 0 ==> LastKey(chunks[c - 1]) < FirstKey(chunk)
      requires c + 1 < |chunks| ==> LastKey(chunk) < FirstKey(chunks[c + 1])
      ensures InChunks(chunks[c := chunk])
      ensures Flat(chunks[c := chunk]) == Flat(chunks[..c]) + x + [q] + (y + Flat(chunks[c + 1..]))
    {
      hide Flat, InChunks;
      Spliced(chunks, c, [chunk]);
      Replaced(chunks, c, [chunk]);
      assert chunks[..c] + [chunk] + chunks[c + 1..] == chunks[c := chunk];
      var a, b := Flat(chunks[..c]), Flat(chunks[c + 1..]);
      assert a + (x + [q] + y) + b == a + x + [q] + (y + b);
    }

    static lemma EdgesOf(chunks: seq<seq<Posting>>, c: nat, i: nat, chunk: seq<Posting>)
      requires InChunks(chunks) && c < |chunks| && i < |chunks[c]| == |chunk|
      requires forall j :: 0 <= j < |chunk| ==> chunk[j].key == chunks[c][j].key
      ensures c > 0 ==> LastKey(chunks[c - 1]) < FirstKey(chunk)
      ensures c + 1 < |chunks| ==> LastKey(chunk) < FirstKey(chunks[c + 1])
    {
    }

    /** Leaves a tombstone for key, if it has an entry in use. */
    method Tombstone(key: Key)
      requires Valid()
      modifies this
      ensures Valid()
      ensures Tf(Entries(), key) == 0
      ensures forall k :: k != key ==> Tf(Entries(), k) == Tf(old(Entries()), k)
      ensures forall k ::
              Number(Entries(), k) == Number(old(Entries()), k) && (Has(Entries(), k) <==> Has(old(Entries()), k))
    {
      hide Flat, Live, InChunks, Has, Tf, Number, Above, Below;
      var c, i, found := Find(key);
      if found && chunks[c][i].tf != 0 {
        ghost var was := chunks;
        PutTf(c, i, 0);
        SetEntry(was, c, i, 0);
        live := live - 1;
      } else if found {
        SetEntry(chunks, c, i, 0);
      } else {
        NotFound(chunks, c, i, key);
      }
    }

    static lemma NotFound(chunks: seq<seq<Posting>>, c: nat, i: nat, key: Key)
      requires chunks != [] ==>
              c < |chunks| && i <= |chunks[c]| && Below(Front(chunks, c, i), key) && Above(Back(chunks, c, i), key)
      ensures !Has(Flat(chunks), key) && Tf(Flat(chunks), key) == 0
    {
      NewEntry(chunks, c, i, Posting(key, 0, 1));
    }

    /** Drops the tombstones and the chunks they leave empty, and renumbers the rest. */
    method Compact(ids: map<Key, nat>)
      requires Valid()
      modifies this
      ensures Valid() && live == old(live) && Entries() == Compacted(old(Entries()), ids)
    {
      hide Flat, Live, Compacted, InChunks;
      ghost var was := chunks;
      var kept: seq<seq<Posting>> := [];
      NoChunks(ids);
      for i := 0 to |chunks|
        invariant chunks == was && live == old(live) && InChunks(kept) && Flat(kept) == Compacted(Flat(was[..i]), ids)
        invariant kept != [] && i < |chunks| ==> LastKey(kept[|kept| - 1]) < FirstKey(chunks[i])
      {
        var chunk := CompactChunk(chunks[i], ids);
        ChunkIn(was, i, chunk, ids);
        if |chunk| > 0 {
          Joined(kept, [chunk]);
          FlatAppend(kept, [chunk]);
          kept := kept + [chunk];
        } else {
          assert Flat(kept) + chunk == Flat(kept);
          LastsApart(was, kept, i);
        }
      }
      assert was[..|was|] == was;
      chunks := kept;
      FlatAscends(was);
      CompactedSame(Flat(was), ids, Key(0));
    }

    static lemma NoChunks(ids: map<Key, nat>)
      ensures InChunks([]) && Flat([]) == [] == Compacted(Flat([]), ids)
    {
    }

    static lemma ChunkIn(was: seq<seq<Posting>>, i: nat, chunk: seq<Posting>, ids: map<Key, nat>)
      requires InChunks(was) && i < |was| && chunk == Compacted(was[i], ids)
      ensures Compacted(Flat(was[..i + 1]), ids) == Compacted(Flat(was[..i]), ids) + chunk
      ensures chunk != [] ==> InChunks([chunk]) && Flat([chunk]) == chunk && FirstKey(was[i]) <= FirstKey(chunk)
                              && (i + 1 < |was| ==> LastKey(chunk) < FirstKey(was[i + 1]))
    {
      assert was[..i + 1] == was[..i] + [was[i]];
      FlatAppend(was[..i], [was[i]]);
      FlatOne(was[i]);
      CompactedAppend(Flat(was[..i]), was[i], ids);
      CompactedAscends(was[i], ids);
      if chunk != [] {
        OneChunk(chunk);
      }
    }

    static lemma LastsApart(was: seq<seq<Posting>>, kept: seq<seq<Posting>>, i: nat)
      requires InChunks(was) && i < |was| && (kept != [] ==> LastKey(kept[|kept| - 1]) < FirstKey(was[i]))
      ensures kept != [] && i + 1 < |was| ==> LastKey(kept[|kept| - 1]) < FirstKey(was[i + 1])
    {
      if i + 1 < |was| {
        assert LastKey(was[i]) < FirstKey(was[i + 1]);
      }
    }

    static method CompactChunk(chunk: seq<Posting>, ids: map<Key, nat>) returns (kept: seq<Posting>)
      ensures kept == Compacted(chunk, ids)
    {
      kept := [];
      for i := 0 to |chunk|
        invariant kept == Compacted(chunk[..i], ids)
      {
        assert chunk[..i + 1] == chunk[..i] + [chunk[i]];
        CompactedAppend(chunk[..i], [chunk[i]], ids);
        assert [chunk[i]][1..] == [];
        if chunk[i].tf != 0 {
          kept := kept + [chunk[i].(doc := IdOf(ids, chunk[i].key))];
        }
      }
      assert chunk[..|chunk|] == chunk;
    }
  }
}
