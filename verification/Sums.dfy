/** Sums of a function over a finite set. */
module Sums {

  ghost function SumOver<K(!new)>(s: set<K>, f: K -> real): real {
    if s == {} then 0.0 else var k :| k in s; f(k) + SumOver(s - {k}, f)
  }

  lemma {:induction false} SumWithout<K(!new)>(s: set<K>, f: K -> real, k: K)
    requires k in s
    ensures SumOver(s, f) == f(k) + SumOver(s - {k}, f)
  {
    var j :| j in s && SumOver(s, f) == f(j) + SumOver(s - {j}, f);
    if j != k {
      SumWithout(s - {j}, f, k);
      SumWithout(s - {k}, f, j);
      assert s - {j} - {k} == s - {k} - {j};
    }
  }

  lemma SumWith<K(!new)>(s: set<K>, f: K -> real, k: K)
    requires k !in s
    ensures SumOver(s + {k}, f) == SumOver(s, f) + f(k)
  {
    SumWithout(s + {k}, f, k);
    assert s + {k} - {k} == s;
  }

  /** What adds nothing may be left out. */
  lemma {:induction false} SumWithin<K(!new)>(s: set<K>, t: set<K>, f: K -> real)
    requires s <= t && forall k :: k in t && k !in s ==> f(k) == 0.0
    ensures SumOver(s, f) == SumOver(t, f)
    decreases t - s
  {
    if s != t {
      var k :| k in t && k !in s;
      SumWith(s, f, k);
      SumWithin(s + {k}, t, f);
    }
  }

  lemma SumSame<K(!new)>(s: set<K>, t: set<K>, f: K -> real)
    requires forall k :: k in s && k !in t ==> f(k) == 0.0
    requires forall k :: k in t && k !in s ==> f(k) == 0.0
    ensures SumOver(s, f) == SumOver(t, f)
  {
    SumWithin(s, s + t, f);
    SumWithin(t, s + t, f);
  }
}
