/** One search's walk over the query's posting lists, shared by all its readings: each
    document met gets a slot, and what is asked about it is asked once. */
module SearchPass {
  import opened Wrappers
  import opened Keys
  import opened PostingLists
  import opened SearchSpec
  import TopKs

  /** What the readings share about a document. */
  datatype Slot = Slot(key: Key, own: real, lo: nat, hi: nat, resolved: bool, measured: bool)

  /** One slot in one reading: the keep's verdict, 0 until asked, and what it gained. */
  datatype Doc = Doc(verdict: int, measured: bool, seen: nat, tf: real, length: real, score: real, matched: real)

  const NEW_DOC := Doc(0, false, 0, 0.0, 0.0, 0.0, 0.0)

  /** Document numbers are in range and belong to one document each. */
  ghost predicate Numbered(c: Corpus) {
    && (forall x :: x in c.ids ==> c.ids[x] < c.numbered)
    && (forall x, y :: x in c.ids && y in c.ids && c.ids[x] == c.ids[y] ==> x == y)
  }

  /** The slot of a document plus one, zero while it has none. */
  function Found(c: Corpus, at: seq<nat>, unnumbered: map<Key, nat>, x: Key): nat {
    if x in c.ids then (if c.ids[x] < |at| then at[c.ids[x]] else 0)
    else if x in unnumbered then unnumbered[x] + 1 else 0
  }

  /** Every slot is found under its document's key and under no other. */
  ghost predicate Slotted(c: Corpus, at: seq<nat>, unnumbered: map<Key, nat>, slots: seq<Slot>) {
    && |at| == c.numbered
    && (forall s :: 0 <= s < |slots| ==> Found(c, at, unnumbered, slots[s].key) == s + 1)
    && (forall x :: Found(c, at, unnumbered, x) > 0 ==>
       Found(c, at, unnumbered, x) - 1 < |slots| && slots[Found(c, at, unnumbered, x) - 1].key == x)
  }

  /** A resolved slot's run of lent names its neighbours' slots, in order. */
  ghost predicate Runs(c: Corpus, slots: seq<Slot>, lent: seq<nat>, s: nat)
    requires s < |slots|
  {
    var d := slots[s];
    && d.lo <= d.hi <= |lent| && d.hi - d.lo == |Near(c, d.key)|
    && forall j :: d.lo <= j < d.hi ==> lent[j] < |slots| && slots[lent[j]].key == Near(c, d.key)[j - d.lo]
  }

  ghost predicate Resolved(c: Corpus, slots: seq<Slot>, lent: seq<nat>) {
    && (forall s: nat :: s < |slots| && slots[s].resolved ==> Runs(c, slots, lent, s))
    && (forall s: nat :: s < |slots| && slots[s].measured ==> slots[s].own == Own(c, slots[s].key))
  }

  /** What a reading remembers of a document is right, and its state is the view's. */
  predicate Remembers(c: Corpus, keep: Keep, x: Key, d: Doc, cell: Cell) {
    && (d.verdict != 0 ==> (d.verdict > 0) == Keeps(keep, x))
    && (d.measured ==> d.length == Length(c, keep, x))
    && cell == Cell(d.seen, d.tf, d.score, d.matched)
  }

  ghost predicate Reads(c: Corpus, keep: Keep, slots: seq<Slot>, docs: seq<Doc>, v: View) {
    && |docs| == |slots|
    && (forall s :: 0 <= s < |slots| ==> Remembers(c, keep, slots[s].key, docs[s], Look(v, slots[s].key)))
    && (forall x :: x in v ==> exists s :: 0 <= s < |slots| && slots[s].key == x)
  }

  /** The slots the current term has reached, each once. */
  ghost predicate Touched(slots: seq<Slot>, v: View, touched: seq<nat>, term: nat) {
    && (forall a, b :: 0 <= a < b < |touched| ==> touched[a] != touched[b])
    && (forall a :: 0 <= a < |touched| ==> touched[a] < |slots| && Look(v, slots[touched[a]].key).seen == term)
    && (forall s: nat :: s < |slots| && Look(v, slots[s].key).seen == term ==>
       exists a :: 0 <= a < |touched| && touched[a] == s)
  }

  class Pass {
    const c: Corpus
    const m: Model
    const keeps: seq<Keep>
    var at: seq<nat>
    var unnumbered: map<Key, nat>
    var slots: seq<Slot>
    var lent: seq<nat>
    var term: nat
    var docs: seq<seq<Doc>>
    var touched: seq<seq<nat>>
    ghost var view: seq<View>

    ghost predicate Valid()
      reads this
    {
      && Numbered(c) && Slotted(c, at, unnumbered, slots) && Resolved(c, slots, lent)
      && |docs| == |touched| == |view| == |keeps|
      && (forall i :: 0 <= i < |keeps| ==> Reads(c, keeps[i], slots, docs[i], view[i]))
    }

    /** Only slots were added, and nothing the readings gained changed. */
    twostate predicate Kept()
      reads this
    {
      && |old(slots)| <= |slots| && (forall s :: 0 <= s < |old(slots)| ==> slots[s].key == old(slots)[s].key)
      && view == old(view) && term == old(term) && touched == old(touched)
    }

    constructor (c: Corpus, m: Model, keeps: seq<Keep>)
      requires Numbered(c)
      ensures Valid() && this.c == c && this.m == m && this.keeps == keeps && term == 0
      ensures forall i :: 0 <= i < |view| ==> view[i] == map[]
    {
      this.c := c;
      this.m := m;
      this.keeps := keeps;
      at := seq(c.numbered, _ => 0);
      unnumbered := map[];
      slots := [];
      lent := [];
      term := 0;
      docs := seq(|keeps|, _ => []);
      touched := seq(|keeps|, _ => []);
      view := seq(|keeps|, _ => map[]);
    }

    /** Appends a slot for key, with its state in every reading. */
    method Open(key: Key) returns (s: nat)
      modifies `slots, `docs
      ensures s == |old(slots)| && slots == old(slots) + [Slot(key, 0.0, 0, 0, false, false)]
      ensures |docs| == |old(docs)| && forall i :: 0 <= i < |docs| ==> docs[i] == old(docs)[i] + [NEW_DOC]
    {
      s := |slots|;
      slots := slots + [Slot(key, 0.0, 0, 0, false, false)];
      for i := 0 to |docs|
        invariant |docs| == |old(docs)| && slots == old(slots) + [Slot(key, 0.0, 0, 0, false, false)]
        invariant forall j :: 0 <= j < |docs| ==> docs[j] == if j < i then old(docs)[j] + [NEW_DOC] else old(docs)[j]
      {
        docs := docs[i := docs[i] + [NEW_DOC]];
      }
    }

    static lemma OpenFound(c: Corpus, at: seq<nat>, unnumbered: map<Key, nat>, n: nat, key: Key, x: Key)
      requires Numbered(c) && |at| == c.numbered
      ensures key in c.ids ==>
              Found(c, at[c.ids[key] := n + 1], unnumbered, x) ==
              if x == key then n + 1 else Found(c, at, unnumbered, x)
      ensures key !in c.ids ==>
              Found(c, at, unnumbered[key := n], x) == if x == key then n + 1 else Found(c, at, unnumbered, x)
    {
    }

    static lemma SlottedBy(c: Corpus, at: seq<nat>, unnumbered: map<Key, nat>, slots: seq<Slot>, at2: seq<nat>,
        un2: map<Key, nat>, d: Slot)
      requires Slotted(c, at, unnumbered, slots) && Found(c, at, unnumbered, d.key) == 0 && |at2| == |at|
      requires forall x :: Found(c, at2, un2, x) == if x == d.key then |slots| + 1 else Found(c, at, unnumbered, x)
      ensures Slotted(c, at2, un2, slots + [d])
    {
      hide Found;
    }

    static lemma OpenSlotted(c: Corpus, at: seq<nat>, unnumbered: map<Key, nat>, slots: seq<Slot>, key: Key, d: Slot)
      requires Numbered(c) && Slotted(c, at, unnumbered, slots) && Found(c, at, unnumbered, key) == 0 && d.key == key
      ensures key in c.ids ==> c.ids[key] < |at| && Slotted(c, at[c.ids[key] := |slots| + 1], unnumbered, slots + [d])
      ensures key !in c.ids ==> Slotted(c, at, unnumbered[key := |slots|], slots + [d])
    {
      hide Slotted, Found;
      assert |at| == c.numbered by { SizeOf(c, at, unnumbered, slots); }
      forall x {
        OpenFound(c, at, unnumbered, |slots|, key, x);
      }
      if key in c.ids {
        SlottedBy(c, at, unnumbered, slots, at[c.ids[key] := |slots| + 1], unnumbered, d);
      } else {
        SlottedBy(c, at, unnumbered, slots, at, unnumbered[key := |slots|], d);
      }
    }

    static lemma SizeOf(c: Corpus, at: seq<nat>, unnumbered: map<Key, nat>, slots: seq<Slot>)
      requires Slotted(c, at, unnumbered, slots)
      ensures |at| == c.numbered
    {
    }

    static lemma OpenResolved(c: Corpus, slots: seq<Slot>, lent: seq<nat>, d: Slot)
      requires Resolved(c, slots, lent) && !d.resolved && !d.measured
      ensures Resolved(c, slots + [d], lent)
    {
      var t := slots + [d];
      forall s: nat | s < |t| && t[s].resolved ensures Runs(c, t, lent, s) {
        assert Runs(c, slots, lent, s);
      }
    }

    static lemma OpenReads(c: Corpus, keep: Keep, slots: seq<Slot>, docs: seq<Doc>, v: View, d: Slot)
      requires Reads(c, keep, slots, docs, v) && d.key !in v
      ensures Reads(c, keep, slots + [d], docs + [NEW_DOC], v)
    {
      var t := slots + [d];
      forall x | x in v ensures exists s :: 0 <= s < |t| && t[s].key == x {
        var s :| 0 <= s < |slots| && slots[s].key == x;
        assert t[s].key == x;
      }
    }

    static lemma NotViewed(c: Corpus, keep: Keep, at: seq<nat>, unnumbered: map<Key, nat>, slots: seq<Slot>,
        docs: seq<Doc>, v: View, key: Key)
      requires Slotted(c, at, unnumbered, slots) && Reads(c, keep, slots, docs, v) && Found(c, at, unnumbered, key) == 0
      ensures key !in v
    {
    }

    /** The slot of a document, opened the first time the pass meets it. */
    method SlotFor(key: Key) returns (s: nat)
      requires Valid()
      modifies `at, `unnumbered, `slots, `docs
      ensures Valid() && Kept() && s < |slots| && slots[s].key == key
      ensures forall t :: 0 <= t < |old(slots)| ==> slots[t] == old(slots)[t]
    {
      hide Slotted, Resolved, Reads, Numbered;
      assert Found(c, at, unnumbered, key) > 0 ==>
          Found(c, at, unnumbered, key) - 1 < |slots| && slots[Found(c, at, unnumbered, key) - 1].key == key by {
        AtFound(c, at, unnumbered, slots, key);
      }
      if key in c.ids {
        AtRange(c, at, unnumbered, slots, key);
        if at[c.ids[key]] > 0 {
          return at[c.ids[key]] - 1;
        }
      } else if key in unnumbered {
        return unnumbered[key];
      }
      ghost var d := Slot(key, 0.0, 0, 0, false, false);
      OpenSlotted(c, at, unnumbered, slots, key, d);
      OpenResolved(c, slots, lent, d);
      forall i | 0 <= i < |keeps| ensures Reads(c, keeps[i], slots + [d], docs[i] + [NEW_DOC], view[i]) {
        NotViewed(c, keeps[i], at, unnumbered, slots, docs[i], view[i], key);
        OpenReads(c, keeps[i], slots, docs[i], view[i], d);
      }
      s := Open(key);
      if key in c.ids {
        at := at[c.ids[key] := s + 1];
      } else {
        unnumbered := unnumbered[key := s];
      }
    }

    static lemma AtFound(c: Corpus, at: seq<nat>, unnumbered: map<Key, nat>, slots: seq<Slot>, key: Key)
      requires Slotted(c, at, unnumbered, slots)
      ensures Found(c, at, unnumbered, key) > 0 ==>
              Found(c, at, unnumbered, key) - 1 < |slots| && slots[Found(c, at, unnumbered, key) - 1].key == key
    {
    }

    static lemma AtRange(c: Corpus, at: seq<nat>, unnumbered: map<Key, nat>, slots: seq<Slot>, key: Key)
      requires Slotted(c, at, unnumbered, slots) && Numbered(c) && key in c.ids
      ensures c.ids[key] < |at|
    {
    }

    /** Whether a reading's keep accepts a slot; the keep is asked once. */
    method Accepts(i: nat, s: nat) returns (yes: bool)
      requires Valid() && i < |keeps| && s < |slots|
      modifies `docs
      ensures Valid() && Kept() && slots == old(slots) && yes == Keeps(keeps[i], slots[s].key)
    {
      hide Slotted, Resolved, Reads, Numbered;
      ReadAt(c, keeps[i], slots, docs[i], view[i], s);
      var d := docs[i][s];
      if d.verdict == 0 {
        d := d.(verdict := if keeps[i].None? || keeps[i].value(slots[s].key) then 1 else -1);
        SetDoc(c, keeps[i], slots, docs[i], view[i], s, d);
        docs := docs[i := docs[i][s := d]];
      }
      return d.verdict > 0;
    }

    static lemma ReadAt(c: Corpus, keep: Keep, slots: seq<Slot>, docs: seq<Doc>, v: View, s: nat)
      requires Reads(c, keep, slots, docs, v) && s < |slots|
      ensures |docs| == |slots| && Remembers(c, keep, slots[s].key, docs[s], Look(v, slots[s].key))
    {
    }

    static lemma SetDoc(c: Corpus, keep: Keep, slots: seq<Slot>, docs: seq<Doc>, v: View, s: nat, d: Doc)
      requires Reads(c, keep, slots, docs, v) && s < |slots| == |docs|
              && Remembers(c, keep, slots[s].key, d, Look(v, slots[s].key))
      ensures Reads(c, keep, slots, docs[s := d], v)
    {
    }

    /** The slots of a slot's neighbours; the window is asked once. */
    method Adjacent(s: nat) returns (near: seq<nat>)
      requires Valid() && s < |slots| && Windowed(c)
      modifies `at, `unnumbered, `slots, `docs, `lent
      ensures Valid() && Kept()
      ensures |near| == |Near(c, slots[s].key)| && forall j :: 0 <= j < |near| ==>
              near[j] < |slots| && slots[near[j]].key == Near(c, slots[s].key)[j]
    {
      hide Slotted, Resolved, Reads, Numbered;
      if !slots[s].resolved {
        var lo := |lent|;
        var ns := c.neighbours.value(slots[s].key);
        for j := 0 to |ns|
          invariant Valid() && Kept() && s < |slots| && slots[s].key == old(slots)[s].key
          invariant |lent| == lo + j
          invariant forall k :: lo <= k < |lent| ==> lent[k] < |slots| && slots[lent[k]].key == ns[k - lo]
        {
          var n := SlotFor(ns[j]);
          LentMore(c, slots, lent, n);
          lent := lent + [n];
        }
        var d := slots[s].(lo := lo, hi := |lent|, resolved := true);
        MeasureOf(c, slots, lent, s);
        SetSlot(c, at, unnumbered, slots, lent, s, d);
        forall i | 0 <= i < |keeps| ensures Reads(c, keeps[i], slots[s := d], docs[i], view[i]) {
          SameKeys(c, keeps[i], slots, slots[s := d], docs[i], view[i]);
        }
        slots := slots[s := d];
      }
      RunOf(c, slots, lent, s);
      near := lent[slots[s].lo..slots[s].hi];
    }

    static lemma LentMore(c: Corpus, slots: seq<Slot>, lent: seq<nat>, n: nat)
      requires Resolved(c, slots, lent)
      ensures Resolved(c, slots, lent + [n])
    {
      forall s: nat | s < |slots| && slots[s].resolved ensures Runs(c, slots, lent + [n], s) {
        assert Runs(c, slots, lent, s);
      }
    }

    /** A slot may be filled in, if it keeps its key and what it says is right. */
    static lemma SetSlot(c: Corpus, at: seq<nat>, unnumbered: map<Key, nat>, slots: seq<Slot>, lent: seq<nat>, s: nat,
        d: Slot)
      requires Slotted(c, at, unnumbered, slots) && Resolved(c, slots, lent) && s < |slots| && d.key == slots[s].key
      requires d.resolved ==> Runs(c, slots[s := d], lent, s)
      requires d.measured ==> d.own == Own(c, d.key)
      ensures Slotted(c, at, unnumbered, slots[s := d]) && Resolved(c, slots[s := d], lent)
    {
      hide Slotted, Runs, Own;
      SetSlotted(c, at, unnumbered, slots, s, d);
      var t := slots[s := d];
      forall r: nat | r < |t| && t[r].resolved ensures Runs(c, t, lent, r) {
        if r != s {
          assert slots[r].resolved;
          RunsKept(c, slots, lent, s, d, r);
        }
      }
    }

    static lemma RunsKept(c: Corpus, slots: seq<Slot>, lent: seq<nat>, s: nat, d: Slot, r: nat)
      requires s < |slots| && d.key == slots[s].key && r < |slots| && r != s && Runs(c, slots, lent, r)
      ensures Runs(c, slots[s := d], lent, r)
    {
      hide Near;
    }

    static lemma SetSlotted(c: Corpus, at: seq<nat>, unnumbered: map<Key, nat>, slots: seq<Slot>, s: nat, d: Slot)
      requires Slotted(c, at, unnumbered, slots) && s < |slots| && d.key == slots[s].key
      ensures Slotted(c, at, unnumbered, slots[s := d])
    {
      hide Found;
    }

    static lemma SameKeys(c: Corpus, keep: Keep, slots: seq<Slot>, slots2: seq<Slot>, docs: seq<Doc>, v: View)
      requires Reads(c, keep, slots, docs, v) && |slots2| == |slots|
              && forall s :: 0 <= s < |slots| ==> slots2[s].key == slots[s].key
      ensures Reads(c, keep, slots2, docs, v)
    {
      forall x | x in v ensures exists s :: 0 <= s < |slots2| && slots2[s].key == x {
        var s :| 0 <= s < |slots| && slots[s].key == x;
        assert slots2[s].key == x;
      }
    }

    static lemma RunOf(c: Corpus, slots: seq<Slot>, lent: seq<nat>, s: nat)
      requires Resolved(c, slots, lent) && s < |slots| && slots[s].resolved
      ensures Runs(c, slots, lent, s)
    {
    }

    /** A slot's own length, as the relevance model recorded it. */
    method OwnOf(s: nat) returns (l: real)
      requires Valid() && s < |slots|
      modifies `slots
      ensures Valid() && Kept() && |slots| == |old(slots)| && l == Own(c, slots[s].key)
    {
      hide Slotted, Resolved, Reads, Numbered;
      MeasureOf(c, slots, lent, s);
      if !slots[s].measured {
        var d := slots[s].(own := Own(c, slots[s].key), measured := true);
        SetSlot(c, at, unnumbered, slots, lent, s, d);
        forall i | 0 <= i < |keeps| ensures Reads(c, keeps[i], slots[s := d], docs[i], view[i]) {
          SameKeys(c, keeps[i], slots, slots[s := d], docs[i], view[i]);
        }
        slots := slots[s := d];
      }
      return slots[s].own;
    }

    static lemma MeasureOf(c: Corpus, slots: seq<Slot>, lent: seq<nat>, s: nat)
      requires Resolved(c, slots, lent) && s < |slots|
      ensures slots[s].measured ==> slots[s].own == Own(c, slots[s].key)
      ensures slots[s].resolved ==>
              Runs(c, slots[s := slots[s].(own := Own(c, slots[s].key), measured := true)], lent, s)
    {
      assert slots[s].resolved ==> Runs(c, slots, lent, s);
    }

    static lemma MulPlus(g: real, a: real, b: real)
      ensures Mul(g, a + b) == Mul(g, a) + Mul(g, b) && Mul(g, 0.0) == 0.0
    {
    }

    /** A slot's window length in one reading. */
    method LengthOf(i: nat, s: nat) returns (l: real)
      requires Valid() && i < |keeps| && s < |slots| && Windowed(c)
      modifies `at, `unnumbered, `slots, `docs, `lent
      ensures Valid() && Kept() && s < |slots| && l == Length(c, keeps[i], slots[s].key)
    {
      hide Slotted, Resolved, Reads, Numbered, Mul;
      ReadAt(c, keeps[i], slots, docs[i], view[i], s);
      if !docs[i][s].measured {
        l := OwnOf(s);
        ghost var own := l;
        var near := Adjacent(s);
        ghost var keys := Near(c, slots[s].key);
        MulPlus(c.gamma, 0.0, 0.0);
        for j := 0 to |near|
          invariant Valid() && Kept() && s < |slots| && slots[s].key == old(slots)[s].key
          invariant |near| == |keys| && forall k :: 0 <= k < |near| ==>
                  near[k] < |slots| && slots[near[k]].key == keys[k]
          invariant l == own + Mul(c.gamma, Borrowed(keeps[i], keys[..j], SearchSpec.OwnOf(c)))
        {
          assert keys[..j + 1][..j] == keys[..j];
          var yes := Accepts(i, near[j]);
          if yes {
            var theirs := OwnOf(near[j]);
            MulPlus(c.gamma, Borrowed(keeps[i], keys[..j], SearchSpec.OwnOf(c)), theirs);
            l := l + Mul(c.gamma, theirs);
          }
        }
        assert keys[..|keys|] == keys;
        ReadAt(c, keeps[i], slots, docs[i], view[i], s);
        var d := docs[i][s].(length := l, measured := true);
        SetDoc(c, keeps[i], slots, docs[i], view[i], s, d);
        docs := docs[i := docs[i][s := d]];
        return;
      }
      return docs[i][s].length;
    }

    ghost predicate AllTouched()
      requires |touched| == |view| == |keeps|
      reads this
    {
      term > 0 && forall i :: 0 <= i < |keeps| ==> Touched(slots, view[i], touched[i], term)
    }

    /** A slot opened since has not been reached by the term. */
    static lemma StillTouched(c: Corpus, keep: Keep, at: seq<nat>, unnumbered: map<Key, nat>, slots: seq<Slot>,
        slots2: seq<Slot>, docs: seq<Doc>,
                              v: View, touched: seq<nat>, term: nat)
      requires Touched(slots, v, touched, term) && term > 0 && Slotted(c, at, unnumbered, slots2)
              && Reads(c, keep, slots, docs, v)
      requires |slots| <= |slots2| && forall s :: 0 <= s < |slots| ==> slots2[s].key == slots[s].key
      ensures Touched(slots2, v, touched, term)
    {
      forall s: nat | s < |slots2| && Look(v, slots2[s].key).seen == term ensures s < |slots| {
        var x := slots2[s].key;
        var r :| 0 <= r < |slots| && slots[r].key == x;
        assert Found(c, at, unnumbered, slots2[r].key) == r + 1;
        assert Found(c, at, unnumbered, slots2[s].key) == s + 1;
      }
      hide Found, Reads, Slotted, Look;
    }

    twostate lemma TouchedKept()
      requires old(Valid()) && old(AllTouched()) && Valid() && Kept()
      ensures AllTouched()
    {
      hide Slotted, Resolved, Reads, Numbered, Touched;
      forall i | 0 <= i < |keeps| ensures Touched(slots, view[i], touched[i], term) {
        StillTouched(c, keeps[i], at, unnumbered, old(slots), slots, old(docs[i]), view[i], touched[i], term);
      }
    }

    /** Adds an amount to a slot's frequency for the current term. */
    method LendTo(i: nat, s: nat, amount: real)
      requires Valid() && AllTouched() && i < |keeps| && s < |slots|
      modifies `docs, `touched, `view
      ensures Valid() && AllTouched() && view == old(view)[i := Lend(old(view)[i], term, slots[s].key, amount)]
    {
      hide Slotted, Resolved, Reads, Numbered, Touched;
      ghost var v := view[i];
      ghost var x := slots[s].key;
      ReadAt(c, keeps[i], slots, docs[i], v, s);
      ReachedNow(c, keeps[i], at, unnumbered, slots, docs[i], v, touched[i], term, s, amount);
      var d := docs[i][s];
      if d.seen != term {
        d := d.(seen := term, tf := 0.0);
        touched := touched[i := touched[i] + [s]];
      }
      d := d.(tf := d.tf + amount);
      PutDoc(c, keeps[i], at, unnumbered, slots, docs[i], v, s, d, Lend(v, term, x, amount));
      docs := docs[i := docs[i][s := d]];
      view := view[i := Lend(v, term, x, amount)];
    }

    /** A reading with one document's state moved on. */
    static lemma PutDoc(c: Corpus, keep: Keep, at: seq<nat>, unnumbered: map<Key, nat>, slots: seq<Slot>,
        docs: seq<Doc>, v: View, s: nat, d: Doc, w: View)
      requires Slotted(c, at, unnumbered, slots) && Reads(c, keep, slots, docs, v) && s < |slots| == |docs|
      requires Remembers(c, keep, slots[s].key, d, Look(w, slots[s].key))
      requires w == v[slots[s].key := Look(w, slots[s].key)]
      ensures Reads(c, keep, slots, docs[s := d], w)
    {
      forall r | 0 <= r < |slots| && r != s ensures slots[r].key != slots[s].key {
        assert Found(c, at, unnumbered, slots[r].key) == r + 1 && Found(c, at, unnumbered, slots[s].key) == s + 1;
      }
      hide Found, Slotted, Length, Keeps;
      forall x | x in w ensures exists r :: 0 <= r < |slots| && slots[r].key == x {
        assert x == slots[s].key || x in v;
      }
    }

    static lemma ReachedNow(c: Corpus, keep: Keep, at: seq<nat>, unnumbered: map<Key, nat>, slots: seq<Slot>,
        docs: seq<Doc>, v: View,
                            touched: seq<nat>, term: nat, s: nat, amount: real)
      requires Slotted(c, at, unnumbered, slots) && Touched(slots, v, touched, term) && s < |slots|
      ensures var w := Lend(v, term, slots[s].key, amount);
              Touched(slots, w, if Look(v, slots[s].key).seen == term then touched else touched + [s], term)
    {
      hide Touched;
      var w := Lend(v, term, slots[s].key, amount);
      forall r: nat | r < |slots| ensures Look(w, slots[r].key).seen ==
          if r == s then term else Look(v, slots[r].key).seen {
        assert Found(c, at, unnumbered, slots[r].key) == r + 1 && Found(c, at, unnumbered, slots[s].key) == s + 1;
      }
      ReachMore(slots, v, w, touched, term, s);
    }

    static lemma ReachMore(slots: seq<Slot>, v: View, w: View, touched: seq<nat>, term: nat, s: nat)
      requires Touched(slots, v, touched, term) && s < |slots|
      requires forall r: nat :: r < |slots| ==>
              Look(w, slots[r].key).seen == if r == s then term else Look(v, slots[r].key).seen
      ensures Touched(slots, w, if Look(v, slots[s].key).seen == term then touched else touched + [s], term)
    {
      hide Look;
      if Look(v, slots[s].key).seen != term {
        var t := touched + [s];
        forall r: nat | r < |slots| && Look(w, slots[r].key).seen == term
            ensures exists a :: 0 <= a < |t| && t[a] == r {
          if r == s {
            assert t[|touched|] == s;
          } else {
            var a :| 0 <= a < |touched| && touched[a] == r;
            assert t[a] == r;
          }
        }
      }
    }

    /** One posting lends to its document and its neighbours, in every reading. */
    method ScatterPosting(p: Posting)
      requires Valid() && AllTouched() && Windowed(c)
      modifies this
      ensures Valid() && AllTouched() && term == old(term)
      ensures forall i :: 0 <= i < |keeps| ==> view[i] == Scatter(c, keeps[i], old(view)[i], term, p)
    {
      hide Slotted, Resolved, Reads, Numbered, Touched, Lend, LendEach, Mul;
      if p.tf == 0 {
        return;
      }
      ghost var was := view;
      var s := SlotFor(p.key);
      TouchedKept();
      for i := 0 to |keeps|
        invariant Valid() && AllTouched() && term == old(term) && s < |slots| && slots[s].key == p.key
        invariant forall j :: 0 <= j < |keeps| ==>
                view[j] == if j < i then Scatter(c, keeps[j], was[j], term, p) else was[j]
      {
        ScatterReading(i, s, p);
      }
    }

    method ScatterReading(i: nat, s: nat, p: Posting)
      requires Valid() && AllTouched() && Windowed(c) && i < |keeps| && s < |slots| && slots[s].key == p.key && p.tf > 0
      modifies this
      ensures Valid() && AllTouched() && term == old(term) && s < |slots| && slots[s].key == p.key
      ensures view == old(view)[i := Scatter(c, keeps[i], old(view)[i], term, p)]
    {
      hide Slotted, Resolved, Reads, Numbered, Touched, Lend, Mul;
      ghost var was := view;
      var yes := Accepts(i, s);
      TouchedKept();
      if !yes {
        assert was == was[i := was[i]];
        return;
      }
      LendTo(i, s, p.tf as real);
      label Own:
      ghost var v := view[i];
      var near := Adjacent(s);
      TouchedKept@Own();
      ghost var keys := Near(c, p.key);
      for j := 0 to |near|
        invariant Valid() && AllTouched() && term == old(term) && s < |slots| && slots[s].key == p.key
        invariant |near| == |keys| && forall k :: 0 <= k < |near| ==> near[k] < |slots| && slots[near[k]].key == keys[k]
        invariant view == was[i := LendEach(keeps[i], v, term, keys[..j], Share(c, p))]
      {
        label Before:
        assert keys[..j + 1][..j] == keys[..j];
        var lends := Accepts(i, near[j]);
        TouchedKept@Before();
        if lends {
          LendTo(i, near[j], Mul(c.gamma, p.tf as real));
        }
      }
      assert keys[..|keys|] == keys;
    }

    /** Scores what one reading's term reached: every touched slot gains, once. */
    method SettleReading(i: nat, weight: real)
      requires Valid() && AllTouched() && Windowed(c) && i < |keeps|
      modifies `at, `unnumbered, `slots, `docs, `lent, `view
      ensures Valid() && AllTouched() && (forall s :: 0 <= s < |old(slots)| ==>
              s < |slots| && slots[s].key == old(slots)[s].key)
      ensures view == old(view)[i := SettleAll(c, m, keeps[i], weight, old(view)[i], KeysOf(old(slots), touched[i]))]
    {
      hide Slotted, Resolved, Reads, Numbered, Touched, Settle, Length;
      ghost var was := view;
      ghost var start := slots;
      ghost var xs := KeysOf(slots, touched[i]);
      InRange(slots, view[i], touched[i], term);
      assert was == was[i := was[i]];
      for a := 0 to |touched[i]|
        invariant Valid() && AllTouched() && |start| <= |slots|
                && forall s :: 0 <= s < |start| ==> slots[s].key == start[s].key
        invariant view == was[i := SettleAll(c, m, keeps[i], weight, was[i], xs[..a])]
      {
        label Before:
        var s := touched[i][a];
        assert xs[a] == slots[s].key;
        assert xs[..a + 1][..a] == xs[..a];
        var length := LengthOf(i, s);
        TouchedKept@Before();
        ghost var v := view[i];
        ghost var w := Settle(c, m, keeps[i], weight, v, slots[s].key);
        ReadAt(c, keeps[i], slots, docs[i], v, s);
        var d := docs[i][s];
        d := d.(score := d.score + m.gain(weight, d.tf, length, m.prepared), matched := d.matched + weight);
        SettledDoc(c, m, keeps[i], weight, v, slots[s].key, docs[i][s], d, length);
        PutDoc(c, keeps[i], at, unnumbered, slots, docs[i], v, s, d, w);
        SeenSame(slots, v, w, touched[i], term);
        docs := docs[i := docs[i][s := d]];
        view := view[i := w];
      }
      assert xs[..|xs|] == xs;
    }

    static function KeysOf(slots: seq<Slot>, ss: seq<nat>): seq<Key> {
      seq(|ss|, a requires 0 <= a < |ss| => if ss[a] < |slots| then slots[ss[a]].key else Key(0))
    }

    static lemma InRange(slots: seq<Slot>, v: View, touched: seq<nat>, term: nat)
      requires Touched(slots, v, touched, term)
      ensures forall a :: 0 <= a < |touched| ==> touched[a] < |slots|
    {
    }

    static lemma SettledDoc(c: Corpus, m: Model, keep: Keep, weight: real, v: View, x: Key, d: Doc, e: Doc,
        length: real)
      requires Remembers(c, keep, x, d, Look(v, x)) && length == Length(c, keep, x)
      requires e == d.(score := d.score + m.gain(weight, d.tf, length, m.prepared), matched := d.matched + weight)
      ensures var w := Settle(c, m, keep, weight, v, x);
              Remembers(c, keep, x, e, Look(w, x)) && w == v[x := Look(w, x)]
                  && forall y :: Look(w, y).seen == Look(v, y).seen
    {
      hide Length;
    }

    static lemma SeenSame(slots: seq<Slot>, v: View, w: View, touched: seq<nat>, term: nat)
      requires Touched(slots, v, touched, term) && forall y :: Look(w, y).seen == Look(v, y).seen
      ensures Touched(slots, w, touched, term)
    {
      hide Look;
    }

    /** The keys of the touched slots are the documents the term reached, each once. */
    static lemma TouchedKeys(c: Corpus, keep: Keep, at: seq<nat>, unnumbered: map<Key, nat>, slots: seq<Slot>,
        docs: seq<Doc>, v: View, touched: seq<nat>, term: nat)
      requires Slotted(c, at, unnumbered, slots) && Reads(c, keep, slots, docs, v) && Touched(slots, v, touched, term)
              && term > 0
      ensures Distinct(KeysOf(slots, touched)) && forall x :: IsIn(KeysOf(slots, touched), x) <==>
              Look(v, x).seen == term
    {
      var xs := KeysOf(slots, touched);
      forall a, b | 0 <= a < b < |xs| ensures xs[a] != xs[b] {
        assert Found(c, at, unnumbered, slots[touched[a]].key) == touched[a] + 1;
        assert Found(c, at, unnumbered, slots[touched[b]].key) == touched[b] + 1;
      }
      hide Slotted, Found, Keeps, Length;
      forall x ensures IsIn(xs, x) <==> Look(v, x).seen == term {
        if Look(v, x).seen == term {
          assert x in v;
          var s :| 0 <= s < |slots| && slots[s].key == x;
          var a :| 0 <= a < |touched| && touched[a] == s;
          assert xs[a] == x;
        }
      }
    }

    /** Without a window, one posting scores its document in every reading. */
    method PostPosting(p: Posting, weight: real)
      requires Valid()
      modifies `at, `unnumbered, `slots, `docs, `view
      ensures Valid() && forall i :: 0 <= i < |keeps| ==> view[i] == Post(c, m, keeps[i], weight, old(view)[i], term, p)
    {
      hide Slotted, Resolved, Reads, Numbered;
      if p.tf == 0 {
        return;
      }
      ghost var was := view;
      var s := SlotFor(p.key);
      var gain, gained := 0.0, false;
      for i := 0 to |keeps|
        invariant Valid() && s < |slots| && slots[s].key == p.key && term == old(term)
        invariant gained ==> gain == m.gain(weight, p.tf as real, Own(c, p.key), m.prepared)
        invariant forall j :: 0 <= j < |keeps| ==>
                view[j] == if j < i then Post(c, m, keeps[j], weight, was[j], term, p) else was[j]
      {
        var yes := Accepts(i, s);
        if yes {
          if !gained {
            gain, gained := m.gain(weight, p.tf as real, Own(c, p.key), m.prepared), true;
          }
          ghost var v := view[i];
          ghost var w := Post(c, m, keeps[i], weight, v, term, p);
          ReadAt(c, keeps[i], slots, docs[i], v, s);
          var d := docs[i][s];
          d := d.(seen := term, score := d.score + gain, matched := d.matched + weight);
          PutDoc(c, keeps[i], at, unnumbered, slots, docs[i], v, s, d, w);
          docs := docs[i := docs[i][s := d]];
          view := view[i := w];
        }
      }
    }

    /** Posts every posting of a list, chunk by chunk. */
    method PostChunks(chunks: seq<seq<Posting>>, weight: real)
      requires Valid()
      modifies `at, `unnumbered, `slots, `docs, `view
      ensures Valid() && forall i :: 0 <= i < |keeps| ==>
              view[i] == PostAll(c, m, keeps[i], weight, old(view)[i], term, Flat(chunks))
    {
      hide Slotted, Resolved, Reads, Numbered, Flat;
      ghost var was := view;
      Started(chunks);
      for a := 0 to |chunks|
        invariant Valid()
        invariant forall i :: 0 <= i < |keeps| ==>
                view[i] == PostAll(c, m, keeps[i], weight, was[i], term, Flat(chunks[..a]))
      {
        assert Flat(chunks[..a]) + chunks[a][..0] == Flat(chunks[..a]);
        for b := 0 to |chunks[a]|
          invariant Valid()
          invariant forall i :: 0 <= i < |keeps| ==>
                  view[i] == PostAll(c, m, keeps[i], weight, was[i], term, Flat(chunks[..a]) + chunks[a][..b])
        {
          PostPosting(chunks[a][b], weight);
          OneMore(Flat(chunks[..a]), chunks[a], b);
        }
        ChunkDone(chunks, a);
      }
      assert chunks[..|chunks|] == chunks;
    }

    /** Scatters every posting of a list, chunk by chunk. */
    method ScatterChunks(chunks: seq<seq<Posting>>)
      requires Valid() && AllTouched() && Windowed(c)
      modifies this
      ensures Valid() && AllTouched() && term == old(term)
      ensures forall i :: 0 <= i < |keeps| ==> view[i] == ScatterAll(c, keeps[i], old(view)[i], term, Flat(chunks))
    {
      hide Slotted, Resolved, Reads, Numbered, Flat, Touched, Scatter;
      ghost var was := view;
      Started(chunks);
      for a := 0 to |chunks|
        invariant Valid() && AllTouched() && term == old(term)
        invariant forall i :: 0 <= i < |keeps| ==> view[i] == ScatterAll(c, keeps[i], was[i], term, Flat(chunks[..a]))
      {
        assert Flat(chunks[..a]) + chunks[a][..0] == Flat(chunks[..a]);
        for b := 0 to |chunks[a]|
          invariant Valid() && AllTouched() && term == old(term)
          invariant forall i :: 0 <= i < |keeps| ==>
                  view[i] == ScatterAll(c, keeps[i], was[i], term, Flat(chunks[..a]) + chunks[a][..b])
        {
          ScatterPosting(chunks[a][b]);
          OneMore(Flat(chunks[..a]), chunks[a], b);
        }
        ChunkDone(chunks, a);
      }
      assert chunks[..|chunks|] == chunks;
    }

    static lemma Started(chunks: seq<seq<Posting>>)
      ensures Flat(chunks[..0]) == []
    {
    }

    /** Scores one term's posting list into every reading. */
    method Accumulate(chunks: seq<seq<Posting>>, weight: real)
      requires Valid() && InChunks(chunks)
      requires forall i, x :: 0 <= i < |keeps| ==> Look(view[i], x).seen <= term
      modifies this
      ensures Valid() && term == old(term) + 1
      ensures forall i :: 0 <= i < |keeps| ==>
              Scored(c, m, keeps[i], QueryTerm(Flat(chunks), weight), term, old(view)[i], view[i])
    {
      hide Slotted, Resolved, Reads, Numbered, Flat, InChunks, Touched, Scored, Ascending;
      ghost var was := view;
      ghost var q := QueryTerm(Flat(chunks), weight);
      FlatAscends(chunks);
      term := term + 1;
      if !Windowed(c) {
        PostChunks(chunks, weight);
        forall i | 0 <= i < |keeps| ensures Scored(c, m, keeps[i], q, term, was[i], view[i]) {
          PlainScores(c, m, keeps[i], q, term, was[i]);
        }
        return;
      }
      touched := seq(|keeps|, _ => []);
      forall i | 0 <= i < |keeps| ensures Touched(slots, view[i], touched[i], term) {
        NoneTouched(slots, view[i], term);
      }
      ScatterChunks(chunks);
      ghost var scattered := view;
      for i := 0 to |keeps|
        invariant Valid() && AllTouched() && term == old(term) + 1
        invariant forall j :: 0 <= j < i ==> Scored(c, m, keeps[j], q, term, was[j], view[j])
        invariant forall j :: i <= j < |keeps| ==> view[j] == scattered[j]
      {
        TouchedKeys(c, keeps[i], at, unnumbered, slots, docs[i], view[i], touched[i], term);
        WindowScores(c, m, keeps[i], q, term, was[i], KeysOf(slots, touched[i]));
        SettleReading(i, weight);
      }
    }

    static lemma NoneTouched(slots: seq<Slot>, v: View, term: nat)
      requires forall x :: Look(v, x).seen < term
      ensures Touched(slots, v, [], term)
    {
    }

    static lemma OneMore(done: seq<Posting>, chunk: seq<Posting>, b: nat)
      requires b < |chunk|
      ensures var ps := done + chunk[..b + 1];
              ps != [] && ps[|ps| - 1] == chunk[b] && ps[..|ps| - 1] == done + chunk[..b]
    {
    }

    static lemma ChunkDone(chunks: seq<seq<Posting>>, a: nat)
      requires a < |chunks|
      ensures Flat(chunks[..a + 1]) == Flat(chunks[..a]) + chunks[a][..|chunks[a]|]
    {
      assert chunks[..a + 1] == chunks[..a] + [chunks[a]];
      FlatAppend(chunks[..a], [chunks[a]]);
      FlatOne(chunks[a]);
    }

    /** Ranks every document a reading reached. */
    method Rank(i: nat, k: int, totalW: real, ghost qs: seq<QueryTerm>) returns (best: seq<TopKs.Entry>)
      requires Valid() && i < |keeps| && Tracks(c, m, keeps[i], qs, view[i]) && totalW == TotalWeight(qs)
      ensures Answers(c, m, keeps[i], qs, k, best)
    {
      hide Slotted, Resolved, Reads, Numbered, Tracks, Offers, TopKs.Best, Offered, TopKs.TopK.Valid, Truncate,
          TotalWeight;
      var top := new TopKs.TopK(k);
      var total := Truncate(totalW * 1024.0) + 1;
      ghost var ss: seq<nat> := [];
      ReadsSize(c, keeps[i], slots, docs[i], view[i]);
      NoneOffered(slots, docs[i], m, total);
      for s := 0 to |docs[i]|
        invariant Valid() && top.Valid() && fresh(top) && top.k == k
        invariant Offered(s, ss, top.offered, slots, docs[i], m, total)
      {
        var d := docs[i][s];
        if d.seen > 0 {
          OfferOne(s, ss, top.offered, slots, docs[i], m, total);
          top.Offer(slots[s].key.hash, m.finalize(d.score, Truncate(d.matched * 1024.0), total));
          ss := ss + [s];
        } else {
          OfferNone(s, ss, top.offered, slots, docs[i], m, total);
        }
      }
      AllOffered(c, m, keeps[i], at, unnumbered, slots, docs[i], view[i], qs, ss, top.offered, total);
      ghost var offers := top.offered;
      best := top.Drain();
      assert Offers(c, m, keeps[i], qs, offers);
    }

    static lemma ReadsSize(c: Corpus, keep: Keep, slots: seq<Slot>, docs: seq<Doc>, v: View)
      requires Reads(c, keep, slots, docs, v)
      ensures |docs| == |slots|
    {
    }

    /** The offers made for the first n slots, with the slot each came from. */
    ghost static predicate Offered(n: nat, ss: seq<nat>, offers: seq<TopKs.Entry>, slots: seq<Slot>, docs: seq<Doc>,
        m: Model, total: int) {
      && n <= |docs| == |slots| && |ss| == |offers|
      && (forall a, b :: 0 <= a < b < |ss| ==> ss[a] < ss[b])
      && (forall a :: 0 <= a < |ss| ==> ss[a] < n && docs[ss[a]].seen > 0)
      && (forall a :: 0 <= a < |ss| ==>
         offers[a] == TopKs.Entry(slots[ss[a]].key.hash,
         m.finalize(docs[ss[a]].score, Truncate(docs[ss[a]].matched * 1024.0), total)))
      && (forall s: nat :: s < n && docs[s].seen > 0 ==> s in ss)
    }

    static lemma NoneOffered(slots: seq<Slot>, docs: seq<Doc>, m: Model, total: int)
      requires |slots| == |docs|
      ensures Offered(0, [], [], slots, docs, m, total)
    {
    }

    static lemma OfferOne(n: nat, ss: seq<nat>, offers: seq<TopKs.Entry>, slots: seq<Slot>, docs: seq<Doc>, m: Model,
        total: int)
      requires Offered(n, ss, offers, slots, docs, m, total) && n < |docs| && docs[n].seen > 0
      ensures var e := TopKs.Entry(slots[n].key.hash,
              m.finalize(docs[n].score, Truncate(docs[n].matched * 1024.0), total));
              Offered(n + 1, ss + [n], offers + [e], slots, docs, m, total)
    {
      hide Truncate;
    }

    static lemma OfferNone(n: nat, ss: seq<nat>, offers: seq<TopKs.Entry>, slots: seq<Slot>, docs: seq<Doc>, m: Model,
        total: int)
      requires Offered(n, ss, offers, slots, docs, m, total) && n < |docs| && docs[n].seen == 0
      ensures Offered(n + 1, ss, offers, slots, docs, m, total)
    {
    }

    static lemma OffersApart(c: Corpus, m: Model, at: seq<nat>, unnumbered: map<Key, nat>, slots: seq<Slot>,
        docs: seq<Doc>,
                             ss: seq<nat>, offers: seq<TopKs.Entry>, total: int)
      requires Slotted(c, at, unnumbered, slots) && Offered(|docs|, ss, offers, slots, docs, m, total)
      ensures forall a, b :: 0 <= a < b < |offers| ==> offers[a].key != offers[b].key
    {
      hide Truncate;
      forall a, b | 0 <= a < b < |offers| ensures offers[a].key != offers[b].key {
        assert Found(c, at, unnumbered, slots[ss[a]].key) == ss[a] + 1;
        assert Found(c, at, unnumbered, slots[ss[b]].key) == ss[b] + 1;
        assert slots[ss[a]].key != slots[ss[b]].key;
      }
    }

    static lemma OfferMade(c: Corpus, m: Model, keep: Keep, slots: seq<Slot>, docs: seq<Doc>, v: View,
        qs: seq<QueryTerm>,
                           ss: seq<nat>, offers: seq<TopKs.Entry>, total: int, a: nat)
      requires Reads(c, keep, slots, docs, v) && Tracks(c, m, keep, qs, v) && a < |offers|
      requires Offered(|docs|, ss, offers, slots, docs, m, total) && total == Truncate(TotalWeight(qs) * 1024.0) + 1
      ensures MatchesAny(c, keep, qs, Key(offers[a].key))
              && offers[a].score == Final(c, m, keep, qs, Key(offers[a].key))
    {
      hide Score, Matched, MatchesAny, TotalWeight, Truncate, Keeps, Length;
      var x := slots[ss[a]].key;
      assert Key(offers[a].key) == x;
      assert Remembers(c, keep, x, docs[ss[a]], Look(v, x));
    }

    static lemma MatchOffered(c: Corpus, m: Model, keep: Keep, slots: seq<Slot>, docs: seq<Doc>, v: View,
        qs: seq<QueryTerm>,
                              ss: seq<nat>, offers: seq<TopKs.Entry>, total: int, x: Key)
      requires Reads(c, keep, slots, docs, v) && Tracks(c, m, keep, qs, v) && MatchesAny(c, keep, qs, x)
      requires Offered(|docs|, ss, offers, slots, docs, m, total)
      ensures exists a :: 0 <= a < |offers| && offers[a].key == x.hash
    {
      hide Score, Matched, MatchesAny, TotalWeight, Truncate, Keeps, Length;
      assert Look(v, x).seen > 0;
      assert x in v;
      var s: nat :| s < |slots| && slots[s].key == x;
      assert Remembers(c, keep, x, docs[s], Look(v, x));
      var a :| 0 <= a < |ss| && ss[a] == s;
      assert offers[a].key == x.hash;
    }

    /** The offers made are exactly the matching documents at their final relevance. */
    static lemma AllOffered(c: Corpus, m: Model, keep: Keep, at: seq<nat>, unnumbered: map<Key, nat>, slots: seq<Slot>,
        docs: seq<Doc>, v: View,
                            qs: seq<QueryTerm>, ss: seq<nat>, offers: seq<TopKs.Entry>, total: int)
      requires Slotted(c, at, unnumbered, slots) && Reads(c, keep, slots, docs, v) && Tracks(c, m, keep, qs, v)
      requires Offered(|docs|, ss, offers, slots, docs, m, total) && total == Truncate(TotalWeight(qs) * 1024.0) + 1
      ensures Offers(c, m, keep, qs, offers)
    {
      hide MatchesAny, TotalWeight, Truncate, Slotted, Reads, Tracks, Offered, Final;
      OffersApart(c, m, at, unnumbered, slots, docs, ss, offers, total);
      forall a | 0 <= a < |offers| ensures MatchesAny(c, keep, qs, Key(offers[a].key))
          && offers[a].score == Final(c, m, keep, qs, Key(offers[a].key)) {
        OfferMade(c, m, keep, slots, docs, v, qs, ss, offers, total, a);
      }
      forall x | MatchesAny(c, keep, qs, x) ensures exists a :: 0 <= a < |offers| && offers[a].key == x.hash {
        MatchOffered(c, m, keep, slots, docs, v, qs, ss, offers, total, x);
      }
    }
  }
}
