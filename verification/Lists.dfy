module Lists {
  /** The list with every occurrence of `x` left out. */
  function Without(list: seq<nat>, x: nat): seq<nat> {
    if list == [] then []
    else
      var n := |list| - 1;
      Without(list[..n], x) + if list[n] == x then [] else [list[n]]
  }

  predicate Distinct(list: seq<nat>) {
    forall i, k :: 0 <= i < k < |list| ==> list[i] != list[k]
  }

  lemma {:induction false} WithoutIs(list: seq<nat>, x: nat)
    ensures forall p :: p in Without(list, x) <==> p in list && p != x
    ensures Distinct(list) ==> Distinct(Without(list, x))
  {
    if list != [] {
      var n := |list| - 1;
      WithoutIs(list[..n], x);
      assert list == list[..n] + [list[n]];
      if Distinct(list) {
        var w := Without(list[..n], x);
        forall i | 0 <= i < |w|
          ensures w[i] in list[..n]
        {
          var p := w[i];
          assert p in Without(list[..n], x);
        }
      }
    }
  }
}
