/** The text index's term dictionary: posting lists in a B-tree, ordered by term. */
module Dictionaries {
  import opened BTreeDelete
  import opened BTreeShape
  import opened BTrees
  import opened PostingLists
  import opened Wrappers

  // ---------------------------------------------------------------- terms in order

  /** More than any character. */
  const BASE: real := 1114113.0

  /** A term's place in lexicographic order: its characters read as digits. */
  function Rank(term: string): (r: real)
    ensures 0.0 <= r < 1.0 && (r == 0.0 <==> term == "")
  {
    if term == "" then 0.0 else (term[0] as int as real + 1.0 + Rank(term[1..])) / BASE
  }

  /** Lexicographic order. */
  ghost predicate Before(a: string, b: string) {
    b != "" && (a == "" || a[0] < b[0] || (a[0] == b[0] && Before(a[1..], b[1..])))
  }

  /** Ranks order terms as the comparator does, and no two terms share one. */
  lemma {:induction false} RankOrders(a: string, b: string)
    ensures Rank(a) < Rank(b) <==> Before(a, b)
    ensures Rank(a) == Rank(b) <==> a == b
  {
    if a != "" && b != "" {
      RankOrders(a[1..], b[1..]);
      assert a == [a[0]] + a[1..] && b == [b[0]] + b[1..];
    }
  }

  // ---------------------------------------------------------------- what a tree files

  function Filing(list: PostingList): Entry<PostingList> {
    Entry(Rank(list.term), list)
  }

  /** The tree stores each list under its term, and nothing else. */
  ghost predicate Files(s: seq<Entry<PostingList>>, lists: map<string, PostingList>) {
    && (forall t :: t in lists ==> lists[t].term == t && Filing(lists[t]) in s)
    && (forall e :: e in s ==> e.item.term in lists && lists[e.item.term] == e.item && e == Filing(e.item))
  }

  lemma FiledIff(s: seq<Entry<PostingList>>, lists: map<string, PostingList>, term: string)
    requires Files(s, lists)
    ensures Holds(s, Rank(term)) <==> term in lists
  {
    if Holds(s, Rank(term)) {
      var i :| 0 <= i < |s| && s[i].rank == Rank(term);
      assert s[i] in s;
      RankOrders(s[i].item.term, term);
    }
    if term in lists {
      var e := Filing(lists[term]);
      var i :| 0 <= i < |s| && s[i] == e;
    }
  }

  lemma FiledAt(s: seq<Entry<PostingList>>, lists: map<string, PostingList>, term: string, e: Entry<PostingList>)
    requires Files(s, lists) && e in s && e.rank == Rank(term)
    ensures term in lists && lists[term] == e.item
  {
    RankOrders(e.item.term, term);
  }

  lemma FiledMore(s: seq<Entry<PostingList>>, lists: map<string, PostingList>, list: PostingList)
    requires BTreeShape.Ascending(s) && Files(s, lists)
    ensures Holds(s, Filing(list).rank) <==> list.term in lists
    ensures Files(Add(s, Filing(list)), if list.term in lists then lists else lists[list.term := list])
  {
    hide Add, BTreeShape.Ascending, Holds, Rank;
    var e := Filing(list);
    FiledIff(s, lists, list.term);
    AddToSet(s, e);
    if list.term in lists {
      return;
    }
    var r := Add(s, e);
    forall x ensures x in r <==> x in s || x == e {
      assert x in r <==> x in multiset(r);
      assert x in s <==> x in multiset(s);
    }
    var more := lists[list.term := list];
    forall t | t in more ensures more[t].term == t && Filing(more[t]) in r {
      if t != list.term {
        assert more[t] == lists[t];
      }
    }
    forall x | x in r ensures x.item.term in more && more[x.item.term] == x.item && x == Filing(x.item) {
      if x != e {
        assert x in multiset(r) && x in s;
        assert x.item.term in lists && x == Filing(x.item);
      }
    }
  }

  lemma Remains<T>(s: seq<Entry<T>>, r: real, i: nat)
    requires BTreeShape.Ascending(s) && i < |Del(s, r)|
    ensures Del(s, r)[i] in s && Del(s, r)[i].rank != r
  {
    DelFromSet(s, r);
    assert Del(s, r)[i] in Del(s, r);
  }

  lemma FiledLess(s: seq<Entry<PostingList>>, lists: map<string, PostingList>, term: string)
    requires BTreeShape.Ascending(s) && Files(s, lists)
    ensures Files(Del(s, Rank(term)), lists - {term})
  {
    hide Del, BTreeShape.Ascending, Holds, Rank;
    DelFromSet(s, Rank(term));
    var r := Del(s, Rank(term));
    forall t ensures Rank(t) == Rank(term) <==> t == term {
      RankOrders(t, term);
    }
    var fewer := lists - {term};
    forall t | t in fewer ensures fewer[t].term == t && Filing(fewer[t]) in r {
      assert lists[t].term == t;
    }
    forall x | x in r ensures x.item.term in fewer && fewer[x.item.term] == x.item && x == Filing(x.item) {
      var i :| 0 <= i < |r| && r[i] == x;
      Remains(s, Rank(term), i);
      assert x.item.term in lists && x == Filing(x.item);
    }
  }

  ghost function TermsOf(values: seq<PostingList>): set<string> {
    set v | v in values :: v.term
  }

  class Dictionary {
    const tree: BTree<PostingList>
    ghost var lists: map<string, PostingList>
    ghost var Repr: set<object>

    ghost predicate Valid()
      reads this, Repr
    {
      && this in Repr && tree in Repr && (forall o :: o in Bag(tree.shadow) ==> o in Repr)
      && this !in Bag(tree.shadow)
      && tree.Valid() && tree.InShape() && Files(tree.Stored(), lists)
    }

    constructor ()
      ensures Valid() && lists == map[] && fresh(Repr)
    {
      hide Bag, Rank, Filing, BTree.InShape, Contents, Shape, BTrees.Live, Fit;
      tree := new BTree<PostingList>(32);
      lists := map[];
      Repr := {};
      new;
      Repr := {this, tree, tree.root};
    }

    /** The list of a term, if the dictionary has one. */
    method Find(term: string) returns (list: Option<PostingList>)
      requires Valid()
      ensures list == if term in lists then Some(lists[term]) else None
    {
      hide Bag, Holds, Rank, Files;
      var found, e := tree.Find(Rank(term));
      FiledIff(tree.Stored(), lists, term);
      if !found {
        return None;
      }
      FiledAt(tree.Stored(), lists, term, e.value);
      return Some(e.value.item);
    }

    /** Files a list under its term, unless one is there. */
    method Insert(list: PostingList) returns (added: bool)
      requires Valid() && list !in Repr
      modifies Repr
      ensures Valid() && fresh(Repr - old(Repr)) && old(Repr) <= Repr && list !in Repr
      ensures added == (list.term !in old(lists))
      ensures lists == if added then old(lists)[list.term := list] else old(lists)
    {
      hide Bag, BTreeShape.Ascending, Holds, Rank, Add, Files, Filing, BTree.Valid, BTree.InShape, BTree.Stored;
      Filed();
      FiledMore(tree.Stored(), lists, list);
      added := tree.Insert(Filing(list));
      if added {
        lists := lists[list.term := list];
      }
      Repr := Repr + set o | o in Bag(tree.shadow);
    }

    lemma Filed()
      requires Valid()
      ensures BTreeShape.Ascending(tree.Stored()) && tree !in Bag(tree.shadow)
    {
    }

    /** Drops the list of a term the dictionary has. Every deletion finds its value, so
        the root keeps its shape and the tree is never left as one that stops a deletion. */
    method Delete(list: PostingList) returns (x: Removal)
      requires Valid() && list.term in lists
      modifies Repr
      ensures Valid() && Repr == old(Repr)
      ensures x == Removed && lists == old(lists) - {list.term}
    {
      hide Bag, BTreeShape.Ascending, Holds, Rank, Del, Files;
      FiledIff(tree.Stored(), lists, list.term);
      FiledLess(tree.Stored(), lists, list.term);
      x := tree.Delete(Rank(list.term));
      lists := lists - {list.term};
    }

    /** Every list, in the order of the terms. */
    method Values() returns (values: seq<PostingList>)
      requires Valid()
      ensures forall i :: 0 <= i < |values| ==> values[i].term in lists && lists[values[i].term] == values[i]
      ensures TermsOf(values) == lists.Keys
      ensures forall i, j :: 0 <= i < j < |values| ==> Before(values[i].term, values[j].term)
    {
      var entries := tree.Values();
      values := seq(|entries|, i requires 0 <= i < |entries| => entries[i].item);
      ValuesFiled(entries, lists, values);
    }
  }

  lemma ValuesFiled(s: seq<Entry<PostingList>>, lists: map<string, PostingList>, values: seq<PostingList>)
    requires Files(s, lists) && BTreeShape.Ascending(s)
    requires |values| == |s| && forall i :: 0 <= i < |s| ==> values[i] == s[i].item
    ensures forall i :: 0 <= i < |values| ==> values[i].term in lists && lists[values[i].term] == values[i]
    ensures TermsOf(values) == lists.Keys
    ensures forall i, j :: 0 <= i < j < |values| ==> Before(values[i].term, values[j].term)
  {
    hide Rank, Before;
    forall i | 0 <= i < |values| ensures s[i] == Filing(values[i]) && values[i].term in lists
                                         && lists[values[i].term] == values[i] {
      assert s[i] in s;
    }
    forall t ensures t in TermsOf(values) <==> t in lists {
      if t in lists {
        var i :| 0 <= i < |s| && s[i] == Filing(lists[t]);
        assert values[i] in values && values[i].term == t;
      }
    }
    forall i, j | 0 <= i < j < |values| ensures Before(values[i].term, values[j].term) {
      RankOrders(values[i].term, values[j].term);
    }
  }
}
