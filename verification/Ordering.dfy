module Ordering {
  /** The elements of a set in increasing order. */
  method Sorted(s: set<nat>) returns (rs: seq<nat>)
    ensures forall r :: r in rs <==> r in s
    ensures forall i, j :: 0 <= i < j < |rs| ==> rs[i] < rs[j]
    decreases |s|
  {
    if s == {} {
      return [];
    }
    LeastExists(s);
    var m :| m in s && forall r :: r in s ==> m <= r;
    var rest := Sorted(s - {m});
    rs := [m] + rest;
    forall j | 1 <= j < |rs| ensures m < rs[j] {
      assert rs[j] in rest;
    }
  }

  lemma {:induction false} LeastExists(s: set<nat>)
    requires s != {}
    ensures exists m :: m in s && forall r :: r in s ==> m <= r
  {
    var x :| x in s;
    LeastBelow(s, x);
  }

  lemma {:induction false} LeastBelow(s: set<nat>, x: nat)
    requires x in s
    ensures exists m :: m in s && forall r :: r in s ==> m <= r
    decreases x
  {
    if y :| y in s && y < x {
      LeastBelow(s, y);
    } else {
      assert forall r :: r in s ==> x <= r;
    }
  }
}
