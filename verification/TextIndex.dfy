/** The text index: a dictionary of posting lists kept in step with the raw documents,
    their dense numbers and the length statistics, through tombstones and compaction. */
module TextIndexes {
  import opened Dictionaries
  import opened Documents
  import opened Keys
  import opened PostingLists
  import opened SearchPass
  import opened SearchSpec
  import opened Sequences
  import opened Wrappers
  import TopKs

  /** The relevance model's statistics: the length of each document and their sum. */
  class Statistics {
    var lengths: map<Key, nat>
    var totalLen: int

    ghost predicate Valid()
      reads this
    {
      totalLen == Total(lengths)
    }

    constructor ()
      ensures Valid() && lengths == map[]
    {
      lengths := map[];
      totalLen := 0;
    }

    method Indexed(key: Key, tokens: seq<string>)
      requires Valid() && key !in lengths
      modifies this
      ensures Valid() && lengths == old(lengths)[key := |tokens|]
    {
      TotalWith(lengths, key, |tokens|);
      lengths := lengths[key := |tokens|];
      totalLen := totalLen + |tokens|;
    }

    /** Retires the recorded length, whatever the tokens. */
    method Removed(key: Key)
      requires Valid() && key in lengths
      modifies this
      ensures Valid() && lengths == old(lengths) - {key}
    {
      TotalWithout(lengths, key);
      totalLen := totalLen - lengths[key];
      lengths := lengths - {key};
    }
  }

  class TextIndex {
    const tokenize: string -> seq<string>
    const relevance: Statistics
    const model: Relevance
    var gamma: real
    var neighbours: Option<Key -> seq<Key>>
    const dictionary: Dictionary
    ghost var lists: map<string, PostingList>
    var documents: map<Key, string>
    var dead: nat
    var ids: map<Key, nat>
    var keys: seq<Key>
    /** Documents removed or replaced, and documents rebuilt by automatic compaction. */
    ghost var removals: nat
    ghost var rebuilt: nat

    // ------------------------------------------------------------ the invariant

    ghost function Tokens(key: Key): seq<string>
      reads `documents
    {
      if key in documents then tokenize(documents[key]) else []
    }

    /** The frequency recorded for a document under a term. */
    ghost function TfOf(term: string, key: Key): nat
      reads `lists, lists.Values
    {
      if term in lists then Tf(lists[term].Entries(), key) else 0
    }

    ghost predicate Listed()
      reads `lists, lists.Values
    {
      forall t :: t in lists ==> lists[t].term == t && lists[t].Valid()
    }

    /** The dictionary holds these lists, in nodes nothing else here writes to. */
    ghost predicate Filed()
      reads `lists, dictionary, dictionary.Repr
    {
      && dictionary.Valid() && dictionary.lists == lists
      && this !in dictionary.Repr && relevance !in dictionary.Repr
      && forall t :: t in lists ==> lists[t] !in dictionary.Repr
    }

    /** Numbers and keys are inverse to each other, and every document has a number. */
    ghost predicate Numbered()
      reads `ids, `keys, `documents
    {
      && (forall k :: k in ids ==> ids[k] < |keys| && keys[ids[k]] == k)
      && (forall i :: 0 <= i < |keys| ==> keys[i] in ids && ids[keys[i]] == i)
      && (forall k :: k in documents ==> k in ids)
    }

    /** Every entry, tombstones included, carries its document's number. */
    ghost predicate EntriesNumbered()
      reads `ids, `lists, lists.Values
    {
      forall t, k :: t in lists && Has(lists[t].Entries(), k) ==> k in ids && Number(lists[t].Entries(), k) == ids[k]
    }

    /** For every document but one, the recorded frequency is the count in its text. */
    ghost predicate TalliedBut(key: Key)
      reads `documents, `lists, lists.Values
    {
      forall t, k :: k != key ==> TfOf(t, k) == Count(Tokens(k), t)
    }

    ghost predicate Tallied()
      reads `documents, `lists, lists.Values
    {
      forall t, k :: TfOf(t, k) == Count(Tokens(k), t)
    }

    /** The statistics cover exactly the documents, or all but one of them. */
    ghost predicate MeasuredBut(key: Option<Key>)
      reads `documents, relevance
    {
      && relevance.Valid()
      && (forall k :: k in relevance.lengths <==> k in documents && key != Some(k))
      && (forall k :: k in relevance.lengths ==> relevance.lengths[k] == |tokenize(documents[k])|)
    }

    /** All but the compaction debt. */
    ghost predicate Consistent()
      reads this, lists.Values, relevance, dictionary, dictionary.Repr
    {
      Filed() && Listed() && Numbered() && EntriesNumbered() && Tallied() && MeasuredBut(None)
      && |keys| <= |documents| + dead && rebuilt + dead <= removals
    }

    ghost predicate Valid()
      reads this, lists.Values, relevance, dictionary, dictionary.Repr
    {
      Consistent() && dead <= |documents|
    }

    constructor (tokenize: string -> seq<string>, model: Relevance)
      ensures Valid() && documents == map[] && this.tokenize == tokenize && this.model == model
      ensures fresh(relevance) && fresh(dictionary.Repr)
    {
      this.tokenize := tokenize;
      this.model := model;
      gamma := 0.0;
      neighbours := None;
      relevance := new Statistics();
      dictionary := new Dictionary();
      lists := map[];
      documents := map[];
      dead := 0;
      ids := map[];
      keys := [];
      removals := 0;
      rebuilt := 0;
    }

    // ------------------------------------------------------------ retiring a document

    /** Tombstones one term's entry for key. */
    method Retire(term: string, key: Key)
      requires Filed() && Listed() && EntriesNumbered()
      modifies lists.Values
      ensures Filed() && Listed() && EntriesNumbered()
      ensures TfOf(term, key) == 0
      ensures forall t, k :: t != term || k != key ==> TfOf(t, k) == old(TfOf(t, k))
    {
      hide Tf, Has, Number, Flat, PostingList.Valid, Dictionary.Valid;
      var found := dictionary.Find(term);
      if found.None? {
        return;
      }
      var list := found.value;
      list.Tombstone(key);
      assert forall t :: t in lists && t != term ==> lists[t] != list;
    }

    /** Tombstones every entry of a document. */
    method RetireAll(key: Key, tokens: seq<string>)
      requires Filed() && Listed() && EntriesNumbered() && TalliedBut(key)
      requires forall t :: TfOf(t, key) == Count(tokens, t)
      modifies lists.Values
      ensures Filed() && Listed() && EntriesNumbered() && TalliedBut(key)
      ensures forall t :: TfOf(t, key) == 0
    {
      hide Tf, Has, Number, Flat, PostingList.Valid, Count, Dictionary.Valid;
      for i := 0 to |tokens|
        invariant Filed() && Listed() && EntriesNumbered() && TalliedBut(key)
        invariant forall t :: TfOf(t, key) == if t in tokens[..i] then 0 else Count(tokens, t)
      {
        Retire(tokens[i], key);
        assert tokens[..i + 1] == tokens[..i] + [tokens[i]];
      }
      assert tokens[..|tokens|] == tokens;
      forall t ensures TfOf(t, key) == 0 {
        CountIn(tokens, t);
      }
    }

    method RemovePostings(key: Key, value: string)
      requires Consistent() && key in documents && value == documents[key]
      modifies `dead, `removals, relevance, lists.Values
      ensures Filed() && Listed() && Numbered() && EntriesNumbered() && TalliedBut(key) && MeasuredBut(Some(key))
      ensures forall t :: TfOf(t, key) == 0
      ensures dead == old(dead) + 1 && removals == old(removals) + 1
    {
      hide Listed, Numbered, EntriesNumbered, Tallied, TalliedBut, TfOf, Count, Statistics.Valid, Dictionary.Valid;
      TalliedExcept(key);
      RetireAll(key, tokenize(value));
      dead := dead + 1;
      removals := removals + 1;
      relevance.Removed(key);
    }

    lemma TalliedExcept(key: Key)
      requires Tallied() && key in documents
      ensures TalliedBut(key) && forall t :: TfOf(t, key) == Count(tokenize(documents[key]), t)
    {
      hide Tf, Flat, Count, Dictionary.Valid;
      forall t ensures TfOf(t, key) == Count(Tokens(key), t) {
      }
    }

    // ------------------------------------------------------------ storing a document

    /** Records one occurrence of a term in the document under key. */
    method Record(term: string, key: Key, doc: nat)
      requires Filed() && Listed() && EntriesNumbered() && key in ids && ids[key] == doc
      modifies `lists, lists.Values, dictionary.Repr
      ensures Filed() && Listed() && EntriesNumbered() && Grows()
      ensures forall t, k :: TfOf(t, k) == old(TfOf(t, k)) + if t == term && k == key then 1 else 0
    {
      hide Listed, EntriesNumbered, TfOf, Dictionary.Valid;
      var list := ListOf(term);
      SightIn(list, term, key, doc);
    }

    /** The list of a term, which is added when the dictionary lacks it. */
    method ListOf(term: string) returns (list: PostingList)
      requires Filed() && Listed() && EntriesNumbered()
      modifies `lists, dictionary.Repr
      ensures Filed() && Listed() && EntriesNumbered() && Grows() && term in lists && lists[term] == list
      ensures forall t, k :: TfOf(t, k) == old(TfOf(t, k))
    {
      hide Listed, EntriesNumbered, TfOf, Dictionary.Valid;
      var found := dictionary.Find(term);
      if found.None? {
        list := NewTerm(term);
      } else {
        list := found.value;
      }
    }

    /** Counts one occurrence in a term's list. */
    method SightIn(list: PostingList, ghost term: string, key: Key, doc: nat)
      requires Filed() && Listed() && EntriesNumbered() && key in ids && ids[key] == doc
      requires term in lists && lists[term] == list
      modifies list
      ensures Filed() && Listed() && EntriesNumbered()
      ensures forall t, k :: TfOf(t, k) == old(TfOf(t, k)) + if t == term && k == key then 1 else 0
    {
      hide Tf, Has, Number, Flat, PostingList.Valid, Count, Dictionary.Valid;
      assert forall t :: t in lists && t != term ==> lists[t] != list;
      list.Sight(key, doc);
      assert forall t, k :: t in lists && t != term ==> TfOf(t, k) == old(TfOf(t, k));
    }

    /** Adds an empty list for a term the dictionary lacks. */
    method NewTerm(term: string) returns (list: PostingList)
      requires Filed() && Listed() && EntriesNumbered() && term !in lists
      modifies `lists, dictionary.Repr
      ensures Filed() && Listed() && EntriesNumbered() && Grows() && term in lists && lists[term] == list
      ensures forall t, k :: TfOf(t, k) == old(TfOf(t, k))
    {
      hide Has, Number, Flat, PostingList.Valid, Count, Dictionary.Valid;
      list := new PostingList(term);
      NothingIn();
      var added := dictionary.Insert(list);
      lists := lists[term := list];
    }

    static lemma NothingIn()
      ensures forall k :: !Has([], k) && Tf([], k) == 0
    {
    }

    /** Records every token of a document nothing is recorded for. */
    method RecordAll(key: Key, doc: nat, tokens: seq<string>)
      requires Filed() && Listed() && EntriesNumbered() && TalliedBut(key) && key in ids && ids[key] == doc
      requires forall t :: TfOf(t, key) == 0
      modifies `lists, lists.Values, dictionary.Repr
      ensures Filed() && Listed() && EntriesNumbered() && TalliedBut(key) && Grows()
      ensures forall t :: TfOf(t, key) == Count(tokens, t)
    {
      hide Tf, Has, Number, Flat, PostingList.Valid, Count, Dictionary.Valid;
      NoneCounted(tokens);
      for i := 0 to |tokens|
        invariant Filed() && Listed() && EntriesNumbered() && TalliedBut(key) && Grows()
        invariant forall t :: TfOf(t, key) == Count(tokens[..i], t)
      {
        Record(tokens[i], key, doc);
        forall t ensures TfOf(t, key) == Count(tokens[..i + 1], t) {
          CountAppend(tokens, i, t);
        }
      }
      assert tokens[..|tokens|] == tokens;
    }

    static lemma NoneCounted(tokens: seq<string>)
      ensures forall t :: Count(tokens[..0], t) == 0
    {
    }

    /** Numbers a document the first time it is indexed. */
    method NumberFor(key: Key) returns (doc: nat)
      requires Numbered() && Listed() && EntriesNumbered()
      modifies `ids, `keys
      ensures Numbered() && EntriesNumbered() && key in ids && ids[key] == doc
      ensures |keys| == |old(keys)| + if key in old(ids) then 0 else 1
    {
      hide Has, Number, Flat, PostingList.Valid, Dictionary.Valid;
      if key in ids {
        return ids[key];
      }
      doc := |keys|;
      ids := ids[key := doc];
      keys := keys + [key];
    }

    /** Retires any document under key, numbers the key and records the new tokens. */
    method Reindex(key: Key, tokens: seq<string>)
      requires Consistent()
      modifies this, relevance, lists.Values, dictionary.Repr
      ensures Filed() && Listed() && Numbered() && EntriesNumbered() && TalliedBut(key) && MeasuredBut(Some(key))
      ensures key in ids
      ensures Grows() && forall t :: TfOf(t, key) == Count(tokens, t)
      ensures documents == old(documents) && rebuilt == old(rebuilt)
      ensures dead == old(dead) + (if key in documents then 1 else 0)
              && removals == old(removals) + (if key in documents then 1 else 0)
      ensures |keys| <= |documents| + dead + (if key in documents then 0 else 1) && rebuilt + dead <= removals
    {
      hide Listed, Numbered, EntriesNumbered, Tallied, TalliedBut, MeasuredBut, TfOf, Count, Dictionary.Valid;
      if key in documents {
        RemovePostings(key, documents[key]);
      } else {
        NothingUnder(key);
      }
      var doc := NumberFor(key);
      RecordAll(key, doc, tokens);
    }

    /** Stores value under key, retiring any document it replaces. */
    method Index(key: Key, value: string)
      requires Valid()
      modifies this, relevance, lists.Values, dictionary.Repr
      ensures Valid() && documents == old(documents)[key := value] && Grows()
    {
      hide Listed, Numbered, EntriesNumbered, Tallied, TalliedBut, MeasuredBut, TfOf, Dictionary.Valid;
      var tokens := tokenize(value);
      Reindex(key, tokens);
      Store(key, value, tokens);
      MaybeFlush();
    }

    /** Stores the text whose tokens have been recorded. */
    method Store(key: Key, value: string, tokens: seq<string>)
      requires tokens == tokenize(value) && key in ids
      requires Filed() && Listed() && Numbered() && EntriesNumbered() && TalliedBut(key) && MeasuredBut(Some(key))
      requires forall t :: TfOf(t, key) == Count(tokens, t)
      modifies `documents, relevance
      ensures Filed() && Listed() && Numbered() && EntriesNumbered() && Tallied() && MeasuredBut(None)
      ensures documents == old(documents)[key := value]
              && |documents| == |old(documents)| + if key in old(documents) then 0 else 1
    {
      hide Tf, Has, Number, Flat, PostingList.Valid, Count, Total, Dictionary.Valid;
      Grown(documents, key, value);
      documents := documents[key := value];
      relevance.Indexed(key, tokens);
    }

    lemma NothingUnder(key: Key)
      requires Consistent() && key !in documents
      ensures TalliedBut(key) && MeasuredBut(Some(key)) && forall t :: TfOf(t, key) == 0
    {
      hide Tf, Has, Number, Flat, PostingList.Valid, Dictionary.Valid;
      forall t ensures TfOf(t, key) == 0 {
        assert TfOf(t, key) == Count(Tokens(key), t);
      }
    }

    static lemma Grown<K(!new), V>(m: map<K, V>, key: K, value: V)
      ensures |m[key := value]| == |m| + if key in m then 0 else 1
    {
      var r := m - {key};
      assert m[key := value].Keys == r.Keys + {key};
      assert key in m ==> m.Keys == r.Keys + {key};
      assert key !in m ==> m.Keys == r.Keys;
      assert |m[key := value]| == |m[key := value].Keys| && |m| == |m.Keys|;
    }

    method Insert(key: Key, value: string)
      requires Valid()
      modifies this, relevance, lists.Values, dictionary.Repr
      ensures Valid() && documents == old(documents)[key := value] && Grows()
    {
      Index(key, value);
    }

    method Update(key: Key, value: string) returns (found: bool)
      requires Valid()
      modifies this, relevance, lists.Values, dictionary.Repr
      ensures Valid() && found == (key in old(documents)) && Grows()
      ensures documents == if found then old(documents)[key := value] else old(documents)
    {
      if key !in documents {
        return false;
      }
      Index(key, value);
      return true;
    }

    method Delete(key: Key) returns (found: bool)
      requires Valid()
      modifies this, relevance, lists.Values, dictionary.Repr
      ensures Valid() && found == (key in old(documents)) && Grows()
      ensures documents == old(documents) - {key}
    {
      hide Listed, Numbered, EntriesNumbered, Tallied, TalliedBut, MeasuredBut, TfOf, Dictionary.Valid;
      if key !in documents {
        assert documents - {key} == documents;
        return false;
      }
      RemovePostings(key, documents[key]);
      Forget(key);
      MaybeFlush();
      return true;
    }

    /** Drops the text of a document whose entries are all tombstones. */
    method Forget(key: Key)
      requires Filed() && Listed() && Numbered() && EntriesNumbered() && TalliedBut(key) && MeasuredBut(Some(key))
              && key in documents
      requires forall t :: TfOf(t, key) == 0
      modifies `documents
      ensures Filed() && Listed() && Numbered() && EntriesNumbered() && Tallied() && MeasuredBut(None)
      ensures documents == old(documents) - {key} && |documents| == |old(documents)| - 1
    {
      hide Tf, Has, Number, Flat, PostingList.Valid, Total, Dictionary.Valid;
      Shrunk(documents, key);
      documents := documents - {key};
    }

    static lemma Shrunk<K(!new), V>(m: map<K, V>, key: K)
      requires key in m
      ensures |m - {key}| == |m| - 1
    {
      Grown(m - {key}, key, m[key]);
      assert (m - {key})[key := m[key]] == m;
    }

    // ------------------------------------------------------------ compaction

    /** Numbers the live documents afresh, in the order they hold. */
    method Renumber() returns (ids2: map<Key, nat>, keys2: seq<Key>)
      requires Numbered()
      ensures Numbers(ids2, keys2) && |keys2| <= |documents|
    {
      ids2, keys2 := map[], [];
      for i := 0 to |keys|
        invariant forall k :: k in ids2 <==> k in documents && ids[k] < i
        invariant forall k :: k in ids2 ==> ids2[k] < |keys2| && keys2[ids2[k]] == k
        invariant forall j :: 0 <= j < |keys2| ==> keys2[j] in ids2 && ids2[keys2[j]] == j
      {
        if keys[i] in documents {
          ids2 := ids2[keys[i] := |keys2|];
          keys2 := keys2 + [keys[i]];
        }
      }
      assert |documents.Keys| == |documents|;
      Distinct(keys2, documents.Keys);
    }

    static lemma {:induction false} Distinct(s: seq<Key>, keys: set<Key>)
      requires forall i, j :: 0 <= i < j < |s| ==> s[i] != s[j]
      requires forall i :: 0 <= i < |s| ==> s[i] in keys
      ensures |s| <= |keys|
    {
      if s != [] {
        var n := |s| - 1;
        Distinct(s[..n], keys - {s[n]});
      }
    }

    /** Compacts one term's list, or drops the term when no live document holds it. */
    method CompactTerm(list: PostingList, ghost term: string, ids2: map<Key, nat>)
      requires Filed() && Listed() && term in lists && list == lists[term]
      modifies `lists, lists.Values, dictionary.Repr
      ensures Filed() && Listed() && Shrinks()
      ensures forall t :: t in lists ==> t in old(lists)
      ensures forall t :: t in old(lists) && t != term ==>
              t in lists && lists[t] == old(lists)[t] && lists[t].Entries() == old(lists[t].Entries())
      ensures forall t, k :: TfOf(t, k) == old(TfOf(t, k))
      ensures forall k :: term in lists && Has(lists[term].Entries(), k) ==>
              TfOf(term, k) > 0 && Number(lists[term].Entries(), k) == IdOf(ids2, k)
    {
      hide Tf, Has, Number, Flat, Compacted, Live, InChunks, Dictionary.Valid;
      FlatAscends(list.chunks);
      if list.live == 0 {
        forall k ensures Tf(list.Entries(), k) == 0 {
          NoneLive(list.Entries(), k);
        }
        var removed := dictionary.Delete(list);
        lists := lists - {term};
      } else {
        forall k ensures var r := Compacted(list.Entries(), ids2);
                         Tf(r, k) == Tf(list.Entries(), k) && (Has(r, k) <==> Tf(r, k) > 0)
                             && (Has(r, k) ==> Number(r, k) == IdOf(ids2, k)) {
          CompactedSame(list.Entries(), ids2, k);
        }
        assert forall t :: t in lists && t != term ==> lists[t] != list;
        list.Compact(ids2);
      }
    }

    static lemma {:induction false} NoneLive(s: seq<Posting>, key: Key)
      requires Live(s) == 0
      ensures Tf(s, key) == 0
    {
      if s != [] {
        NoneLive(s[1..], key);
      }
    }

    method CompactAll(ids2: map<Key, nat>)
      requires Filed() && Listed()
      modifies `lists, lists.Values, dictionary.Repr
      ensures Filed() && Listed() && Shrinks() && SameTf() && Compact(ids2)
    {
      hide Tf, Has, Number, Flat, PostingList.Valid, Dictionary.Valid, TermsOf, Before;
      var values := dictionary.Values();
      assert values[0..] == values;
      for i := 0 to |values|
        invariant Filed() && Listed() && Shrinks()
        invariant TermsOf(values[i..]) <= lists.Keys
        invariant forall j :: i <= j < |values| ==> values[j].term in lists && lists[values[j].term] == values[j]
        invariant forall t, k :: TfOf(t, k) == old(TfOf(t, k))
        invariant forall t, k :: t in lists && t !in TermsOf(values[i..]) && Has(lists[t].Entries(), k) ==>
                TfOf(t, k) > 0 && Number(lists[t].Entries(), k) == IdOf(ids2, k)
      {
        NextTerm(values, i);
        CompactTerm(values[i], values[i].term, ids2);
      }
      NoTerms(values[|values|..]);
    }

    static lemma NoTerms(values: seq<PostingList>)
      requires values == []
      ensures TermsOf(values) == {}
    {
    }

    static lemma NextTerm(values: seq<PostingList>, i: nat)
      requires i < |values| && forall j :: i < j < |values| ==> Before(values[i].term, values[j].term)
      ensures TermsOf(values[i..]) == {values[i].term} + TermsOf(values[i + 1..])
      ensures values[i].term !in TermsOf(values[i + 1..])
      ensures forall j :: i < j < |values| ==> values[j].term != values[i].term
    {
      hide Before, Dictionary.Valid;
      assert values[i..] == [values[i]] + values[i + 1..];
      forall j | i < j < |values| ensures values[j].term != values[i].term {
        NotBefore(values[i].term);
      }
      forall v | v in values[i + 1..] ensures v.term != values[i].term {
        var j :| 0 <= j < |values| - (i + 1) && values[i + 1..][j] == v;
        assert values[i + 1 + j] == v;
      }
    }

    static lemma {:induction false} NotBefore(a: string)
      ensures !Before(a, a)
    {
      RankOrders(a, a);
    }

    /** No list or node is one that was there before. */
    twostate predicate Grows()
      reads `lists, dictionary
    {
      fresh(lists.Values - old(lists.Values)) && fresh(dictionary.Repr - old(dictionary.Repr))
    }

    /** Every list and node was there before. */
    twostate predicate Shrinks()
      reads `lists, dictionary
    {
      lists.Values <= old(lists.Values) && dictionary.Repr <= old(dictionary.Repr)
    }

    /** Every frequency is what it was. */
    twostate predicate SameTf()
      reads `lists, lists.Values
    {
      forall t, k :: TfOf(t, k) == old(TfOf(t, k))
    }

    /** Every entry is in use and carries the number given. */
    ghost predicate Compact(ids2: map<Key, nat>)
      reads `lists, lists.Values
    {
      forall t, k :: t in lists && Has(lists[t].Entries(), k) ==>
          TfOf(t, k) > 0 && Number(lists[t].Entries(), k) == IdOf(ids2, k)
    }

    /** An entry in use is a document's, so it has the document's number. */
    lemma InUse()
      requires Tallied() && Numbered() && Compact(ids)
      ensures EntriesNumbered()
    {
      hide Tf, Has, Number, Flat, Count, Dictionary.Valid;
      forall t, k | t in lists && Has(lists[t].Entries(), k)
          ensures k in ids && Number(lists[t].Entries(), k) == ids[k] {
        assert TfOf(t, k) == Count(Tokens(k), t);
        CountIn([], t);
      }
    }

    /** Drops the tombstones, the terms nobody holds, and the numbers of dead documents. */
    method Flush()
      requires Consistent()
      modifies `lists, `ids, `keys, `dead, lists.Values, dictionary.Repr
      ensures Valid() && dead == 0 && Shrinks() && Compact(ids) && |keys| <= |documents|
    {
      hide Listed, Numbered, EntriesNumbered, Tallied, MeasuredBut, SameTf, Compact, Numbers, Dictionary.Valid;
      var ids2, keys2 := Renumber();
      label Ready:
      CompactAll(ids2);
      SameTally@Ready();
      Adopt(ids2, keys2);
      InUse();
    }

    method Adopt(ids2: map<Key, nat>, keys2: seq<Key>)
      requires Numbers(ids2, keys2)
      modifies `ids, `keys, `dead
      ensures ids == ids2 && keys == keys2 && dead == 0 && Numbered()
    {
      hide Numbered, Numbers, Dictionary.Valid;
      ids := ids2;
      keys := keys2;
      dead := 0;
      NumberedBy(ids2, keys2);
    }

    lemma NumberedBy(ids2: map<Key, nat>, keys2: seq<Key>)
      requires ids == ids2 && keys == keys2 && Numbers(ids2, keys2)
      ensures Numbered()
    {
    }

    /** The numbers a compaction gives: the documents', and no others. */
    ghost predicate Numbers(ids2: map<Key, nat>, keys2: seq<Key>)
      reads `documents
    {
      && (forall k :: k in ids2 <==> k in documents)
      && (forall k :: k in ids2 ==> ids2[k] < |keys2| && keys2[ids2[k]] == k)
      && (forall i :: 0 <= i < |keys2| ==> keys2[i] in ids2 && ids2[keys2[i]] == i)
    }

    twostate lemma SameTally()
      requires old(Tallied()) && documents == old(documents) && SameTf()
      ensures Tallied()
    {
    }

    /** Compacts once there are more dead documents than live ones. */
    method MaybeFlush()
      requires Consistent()
      modifies `lists, `ids, `keys, `dead, `rebuilt, lists.Values, dictionary.Repr
      ensures Valid() && Shrinks()
    {
      hide Listed, Numbered, EntriesNumbered, Tallied, MeasuredBut, SameTf, Compact, Dictionary.Valid;
      if dead <= |documents| {
        return;
      }
      Flush();
      rebuilt := rebuilt + |documents|;
    }

    // ------------------------------------------------------------ what the index knows

    /** A term's live count is its document frequency: how many documents contain it. */
    lemma LiveIsDocumentFrequency(term: string)
      requires Valid()
      ensures var holders := set k | k in documents && term in tokenize(documents[k]);
              (if term in lists then lists[term].live else 0) == |holders|
    {
      hide Tf, Live, Flat, InChunks, Count, Dictionary.Valid;
      var holders := set k | k in documents && term in tokenize(documents[k]);
      forall k ensures k in holders <==> TfOf(term, k) > 0 {
        assert TfOf(term, k) == Count(Tokens(k), term);
        CountIn(Tokens(k), term);
      }
      if term in lists {
        FlatAscends(lists[term].chunks);
        LiveHolders(lists[term].Entries());
        assert holders == Holders(lists[term].Entries());
      } else {
        assert forall k :: TfOf(term, k) == 0;
        assert holders == {};
      }
    }

    static function Holders(s: seq<Posting>): set<Key> {
      if s == [] then {} else Holders(s[1..]) + if s[0].tf > 0 then {s[0].key} else {}
    }

    static lemma {:induction false} LiveHolders(s: seq<Posting>)
      requires Ascending(s)
      ensures Live(s) == |Holders(s)|
      ensures forall k :: k in Holders(s) <==> Tf(s, k) > 0
    {
      if s != [] {
        LiveHolders(s[1..]);
        NotIn(s[1..], s[0].key);
        Absent(s[1..], s[0].key);
      }
    }

    /** Entries() is at most twice Count(), the document numbers likewise, and automatic
        compaction has rebuilt no more documents than were removed or replaced. */
    lemma DebtIsBounded()
      requires Valid()
      ensures |documents| + dead <= 2 * |documents| && |keys| <= 2 * |documents| && rebuilt <= removals
    {
    }

    // ------------------------------------------------------------ search

    method SetWindow(gamma: real, neighbours: Option<Key -> seq<Key>>)
      requires Valid()
      modifies `gamma, `neighbours
      ensures Valid() && this.gamma == gamma && this.neighbours == neighbours
    {
      hide Listed, Numbered, EntriesNumbered, Tallied, MeasuredBut, Dictionary.Valid;
      this.gamma := gamma;
      this.neighbours := neighbours;
    }

    /** What a search reads of the index beside its posting lists. */
    function Snapshot(): Corpus
      reads this, relevance
    {
      Corpus(ids, |keys|, relevance.lengths, gamma, neighbours)
    }

    function Prepared(): real
      reads relevance
    {
      if |relevance.lengths| == 0 || relevance.totalLen == 0 then 0.0
      else 1.2 * 0.75 / (relevance.totalLen as real / |relevance.lengths| as real)
    }

    function ModelNow(): Model
      reads relevance
    {
      Model(model.gain, model.finalize, Prepared())
    }

    /** The terms some document holds, with their postings and weights. */
    ghost function QueryOf(terms: seq<string>): seq<QueryTerm>
      reads `documents, `lists, lists.Values
    {
      if terms == [] then [] else
        var t := terms[|terms| - 1];
        var r := QueryOf(terms[..|terms| - 1]);
        if t in lists
            && lists[t].live > 0 then r + [QueryTerm(lists[t].Entries(), model.weight(lists[t].live, |documents|))]
            else r
    }

    static method Terms(tokens: seq<string>) returns (terms: seq<string>)
      ensures terms == Deduped(tokens)
    {
      terms := [];
      for i := 0 to |tokens|
        invariant terms == Deduped(tokens[..i])
      {
        assert tokens[..i + 1][..i] == tokens[..i];
        if tokens[i] !in terms {
          terms := terms + [tokens[i]];
        }
      }
      assert tokens[..|tokens|] == tokens;
    }

    /** A pass that has scored the terms of qs into every reading. */
    ghost predicate Scoring(p: Pass, qs: seq<QueryTerm>)
      reads this, relevance, p
    {
      && p.Valid() && p.c == Snapshot() && p.m == ModelNow() && p.term == |qs|
      && forall i :: 0 <= i < |p.keeps| && i < |p.view| ==> Tracks(p.c, p.m, p.keeps[i], qs, p.view[i])
    }

    /** Scores one more term. */
    method ScoreTerm(p: Pass, list: PostingList, weight: real, ghost qs: seq<QueryTerm>)
      requires Scoring(p, qs) && list.Valid()
      modifies p
      ensures Scoring(p, qs + [QueryTerm(list.Entries(), weight)])
    {
      hide Flat, Pass.Valid, Tracks, Scored, Live, InChunks, Dictionary.Valid;
      ghost var q := QueryTerm(list.Entries(), weight);
      PassSize(p);
      SeenSoFar(p.c, p.m, p.keeps, qs, p.view);
      ghost var was := p.view;
      p.Accumulate(list.chunks, weight);
      PassSize(p);
      forall i | 0 <= i < |p.keeps| ensures Tracks(p.c, p.m, p.keeps[i], qs + [q], p.view[i]) {
        TracksNext(p.c, p.m, p.keeps[i], qs, q, was[i], p.view[i]);
      }
    }

    /** Scores the terms the index holds, and adds up their weights. */
    method ScoreTerms(p: Pass, terms: seq<string>) returns (totalW: real)
      requires Filed() && Listed() && Scoring(p, []) && p !in dictionary.Repr
      modifies p
      ensures Scoring(p, QueryOf(terms)) && totalW == TotalWeight(QueryOf(terms))
    {
      hide Scoring, Flat, QueryOf, TotalWeight, Dictionary.Valid;
      totalW := 0.0;
      NoQuery(terms);
      for j := 0 to |terms|
        invariant Filed() && Listed() && Scoring(p, QueryOf(terms[..j]))
                && totalW == TotalWeight(QueryOf(terms[..j]))
      {
        QueryNext(terms, j);
        var found := dictionary.Find(terms[j]);
        if found.Some? && found.value.live > 0 {
          var list := found.value;
          var weight := model.weight(list.live, |documents|);
          WeightNext(QueryOf(terms[..j]), QueryTerm(list.Entries(), weight));
          ScoreTerm(p, list, weight, QueryOf(terms[..j]));
          totalW := totalW + weight;
        }
      }
      assert terms[..|terms|] == terms;
    }

    lemma NoQuery(terms: seq<string>)
      ensures QueryOf(terms[..0]) == [] && TotalWeight([]) == 0.0
    {
    }

    lemma QueryNext(terms: seq<string>, j: nat)
      requires j < |terms|
      ensures QueryOf(terms[..j + 1]) ==
              if terms[j] in lists && lists[terms[j]].live > 0
              then QueryOf(terms[..j]) + [QueryTerm(lists[terms[j]].Entries(),
                  model.weight(lists[terms[j]].live, |documents|))]
              else QueryOf(terms[..j])
    {
      assert terms[..j + 1][..j] == terms[..j];
    }

    static lemma WeightNext(qs: seq<QueryTerm>, q: QueryTerm)
      ensures TotalWeight(qs + [q]) == TotalWeight(qs) + q.weight
    {
      assert (qs + [q])[..|qs|] == qs;
    }

    method RankAll(p: Pass, k: int, totalW: real, ghost qs: seq<QueryTerm>) returns (readings: seq<seq<TopKs.Entry>>)
      requires Scoring(p, qs) && totalW == TotalWeight(qs)
      ensures |readings| == |p.keeps| && forall i :: 0 <= i < |readings| ==>
              Answers(Snapshot(), ModelNow(), p.keeps[i], qs, k, readings[i])
    {
      hide Pass.Valid, Tracks, Answers, Dictionary.Valid;
      PassSize(p);
      readings := [];
      for i := 0 to |p.keeps|
        invariant p.Valid() && |readings| == i
        invariant forall j :: 0 <= j < i ==> Answers(p.c, p.m, p.keeps[j], qs, k, readings[j])
      {
        var best := p.Rank(i, k, totalW, qs);
        readings := readings + [best];
      }
    }

    /** The stored texts, with what a search makes of them. */
    ghost function Stored(): Library
      reads this
    {
      Library(documents, tokenize, model, gamma, neighbours)
    }

    /** The lengths, their average, and the window are the texts'. */
    lemma StatisticsReflect()
      requires MeasuredBut(None)
      ensures Reflects(Stored(), Snapshot(), ModelNow())
    {
      var l := Stored();
      assert relevance.lengths == l.Sizes();
      assert relevance.lengths.Keys == documents.Keys;
      assert |relevance.lengths.Keys| == |documents.Keys|;
    }

    /** A term's live count is how many texts hold it. */
    lemma LiveIsHolders(term: string)
      requires Valid()
      ensures (if term in lists then lists[term].live else 0) == |Stored().Holders(term)|
    {
      hide Tf, Live, Flat, InChunks, Count, Dictionary.Valid;
      var l := Stored();
      LiveIsDocumentFrequency(term);
      forall k ensures k in l.Holders(term) <==> k in documents && term in tokenize(documents[k]) {
        CountIn(l.Tokens(k), term);
      }
      var holders := set k | k in documents && term in tokenize(documents[k]);
      assert l.Holders(term) == holders;
    }

    /** A term's postings are its texts' counts. */
    lemma TfIsCount(term: string)
      requires Listed() && Tallied() && term in lists
      ensures Ascending(lists[term].Entries())
      ensures forall k :: Tf(lists[term].Entries(), k) == Count(Stored().Tokens(k), term)
    {
      FlatAscends(lists[term].chunks);
      hide Tf, Live, Flat, InChunks, Count, Ascending, Dictionary.Valid;
      forall k ensures Tf(lists[term].Entries(), k) == Count(Stored().Tokens(k), term) {
        assert TfOf(term, k) == Count(Tokens(k), term);
      }
    }

    /** A term's postings and live count are its texts' counts and holders. */
    lemma TermTells(term: string)
      requires Valid()
      ensures Stored().Holders(term) != {} <==> term in lists && lists[term].live > 0
      ensures term in lists && lists[term].live > 0 ==>
                Tells(Stored(), QueryTerm(lists[term].Entries(), model.weight(lists[term].live, |documents|)), term)
    {
      hide Tf, Flat, Count, Ascending, Library.Holders, PostingList.Valid, Numbered, EntriesNumbered, MeasuredBut,
          Dictionary.Valid;
      LiveIsHolders(term);
      if term in lists {
        TfIsCount(term);
      }
    }

    /** With a symmetric window every frequency a search scores with is a document's own
        count and gamma of each accepted neighbour's. */
    lemma WindowGathers(keep: Keep, term: string, x: Key)
      requires Valid() && Symmetric(Snapshot())
      ensures Stored().Matches(keep, term, x) <==> Stored().Gathers(keep, term, x)
      ensures Keeps(keep, x) ==> Stored().Frequency(keep, term, x) == Stored().Gathered(keep, term, x)
    {
      hide Numbered, Tallied, EntriesNumbered, Listed, Reflects, Tells, Symmetric, Library.Frequency,
           Library.Matches, Library.Gathers, Library.Gathered, Library.Holders, Dictionary.Valid;
      StatisticsReflect();
      TermTells(term);
      if Stored().Holders(term) == {} {
        NobodyLends(Stored(), keep, term, x);
        return;
      }
      LentIsGathered(Stored(), Snapshot(), ModelNow(), keep,
          QueryTerm(lists[term].Entries(), model.weight(lists[term].live, |documents|)), term, x);
    }

    lemma {:induction false} QueryReads(terms: seq<string>)
      requires Valid()
      ensures Queries(Stored(), QueryOf(terms), terms)
      decreases |terms|
    {
      hide Valid, Consistent, Tells, Flat, Library.Holders, PostingList.Valid, Dictionary.Valid;
      if terms != [] {
        var n := |terms| - 1;
        QueryReads(terms[..n]);
        TermTells(terms[n]);
        var r := QueryOf(terms[..n]);
        if terms[n] in lists && lists[terms[n]].live > 0 {
          var q := QueryTerm(lists[terms[n]].Entries(), model.weight(lists[terms[n]].live, |documents|));
          assert QueryOf(terms) == r + [q] && (r + [q])[..|r|] == r;
        }
      }
    }

    /** A reading of the index is the answer of the stored texts. */
    lemma ReadingAnswers(keep: Keep, query: string, k: int, answer: seq<TopKs.Entry>)
      requires Valid() && Answers(Snapshot(), ModelNow(), keep, QueryOf(Deduped(tokenize(query))), k, answer)
      ensures Stored().Answers(keep, Deduped(tokenize(query)), k, answer)
    {
      hide Numbered, Tallied, EntriesNumbered, Listed, Answers, Library.Answers, Queries, Reflects, Dictionary.Valid;
      StatisticsReflect();
      QueryReads(Deduped(tokenize(query)));
      AnswersAlike(Stored(), Snapshot(), ModelNow(), keep, QueryOf(Deduped(tokenize(query))),
          Deduped(tokenize(query)), k, answer);
    }

    /** One reading per keep, or one over every document when no keep is given: the k
        best documents the keep accepts, scored from the stored texts themselves. Each is
        the answer a search with that keep alone has. None when the index is empty. */
    method Search(query: string, k: int, keeps: seq<Keep>) returns (answers: Option<seq<seq<TopKs.Entry>>>)
      requires Valid()
      ensures answers.None? <==> documents == map[]
      ensures answers.Some? ==>
                var asked := if keeps == [] then [None] else keeps;
                && |answers.value| == |asked|
                && forall i :: 0 <= i < |asked| ==>
                     Stored().Answers(asked[i], Deduped(tokenize(query)), k, answers.value[i])
    {
      hide Count, Tf, Numbered, Tallied, EntriesNumbered, MeasuredBut, Answers, Library.Answers, Listed, Tracks,
          PostingList.Valid, Pass.Valid, Dictionary.Valid;
      if |documents| == 0 {
        return None;
      }
      var asked: seq<Keep> := if keeps == [] then [None] else keeps;
      var terms := Terms(tokenize(query));
      SnapshotNumbered();
      var p := new Pass(Snapshot(), ModelNow(), asked);
      StartTracks(p.c, p.m, p.keeps, p.view);
      var totalW := ScoreTerms(p, terms);
      var readings := RankAll(p, k, totalW, QueryOf(terms));
      forall i | 0 <= i < |asked| ensures Stored().Answers(asked[i], terms, k, readings[i]) {
        ReadingAnswers(asked[i], query, k, readings[i]);
      }
      return Some(readings);
    }

    lemma SnapshotNumbered()
      requires Numbered()
      ensures SearchPass.Numbered(Snapshot())
    {
    }

    static lemma PassSize(p: Pass)
      requires p.Valid()
      ensures |p.view| == |p.keeps|
    {
    }

    static lemma StartTracks(c: Corpus, m: Model, keeps: seq<Keep>, view: seq<View>)
      requires forall i :: 0 <= i < |view| ==> view[i] == map[]
      ensures forall i :: 0 <= i < |view| && i < |keeps| ==> Tracks(c, m, keeps[i], [], view[i])
    {
    }

    static lemma SeenSoFar(c: Corpus, m: Model, keeps: seq<Keep>, qs: seq<QueryTerm>, view: seq<View>)
      requires |view| == |keeps| && forall i :: 0 <= i < |keeps| ==> Tracks(c, m, keeps[i], qs, view[i])
      ensures forall i, x :: 0 <= i < |keeps| ==> Look(view[i], x).seen <= |qs|
    {
    }
  }
}
