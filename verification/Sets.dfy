/** Facts about collections of integers that the solver has to be led to. */
module Sets {

  lemma Inhabited<T>(s: set<T>) returns (x: T)
    requires s != {}
    ensures x in s
  {
    x :| x in s;
  }

  lemma SameSet(a: set<int>, b: set<int>)
    requires forall k :: k in a <==> k in b
    ensures a == b
  {
    if a - b != {} {
      var k := Inhabited(a - b);
      assert false;
    }
    if b - a != {} {
      var k := Inhabited(b - a);
      assert false;
    }
  }

  lemma {:induction false} SameMap<V>(a: map<int, V>, b: map<int, V>)
    requires forall k :: k in a <==> k in b
    requires forall k :: k in a ==> a[k] == b[k]
    ensures a == b
  {
    SameSet(a.Keys, b.Keys);
    if a.Keys != {} {
      var k := Inhabited(a.Keys);
      SameMap(a - {k}, b - {k});
      assert a == (a - {k})[k := a[k]] && b == (b - {k})[k := b[k]];
    }
  }
}

/** Sequences of numbers in increasing order. */
module Sorted {

  ghost predicate Ascending(s: seq<int>) {
    forall i, j :: 0 <= i < j < |s| ==> s[i] < s[j]
  }
}

/** Counting the places a token can be. */
module Counting {

  function One(b: bool): nat {
    if b then 1 else 0
  }
}
