/** Sums over finite sets of keys. */
module Sums {
  ghost function Sum<K(!new)>(keys: set<K>, f: K -> int): int {
    if keys == {} then 0
    else
      var k :| k in keys;
      f(k) + Sum(keys - {k}, f)
  }

  lemma {:induction false} SumPick<K(!new)>(keys: set<K>, f: K -> int, k: K)
    requires k in keys
    ensures Sum(keys, f) == f(k) + Sum(keys - {k}, f)
  {
    var b :| b in keys && Sum(keys, f) == f(b) + Sum(keys - {b}, f);
    if k != b {
      SumPick(keys - {b}, f, k);
      SumPick(keys - {k}, f, b);
      assert keys - {b} - {k} == keys - {k} - {b};
    }
  }

  /** Only the values at the keys count. */
  lemma {:induction false} SumSame<K(!new)>(keys: set<K>, f: K -> int, g: K -> int)
    requires forall k :: k in keys ==> f(k) == g(k)
    ensures Sum(keys, f) == Sum(keys, g)
  {
    if keys != {} {
      var k :| k in keys;
      SumPick(keys, f, k);
      SumPick(keys, g, k);
      SumSame(keys - {k}, f, g);
    }
  }

  /** Keys that count zero may be added. */
  lemma {:induction false} SumWiden<K(!new)>(keys: set<K>, more: set<K>, f: K -> int)
    requires keys <= more && forall k :: k in more - keys ==> f(k) == 0
    ensures Sum(more, f) == Sum(keys, f)
  {
    if keys != more {
      assert more - keys != {} by {
        assert keys + (more - keys) == more;
      }
      var k :| k in more - keys;
      SumPick(more, f, k);
      SumWiden(keys, more - {k}, f);
    }
  }

  /** One value changes. */
  lemma SumChange<K(!new)>(keys: set<K>, f: K -> int, g: K -> int, k: K)
    requires k in keys && forall a :: a in keys && a != k ==> f(a) == g(a)
    ensures Sum(keys, g) == Sum(keys, f) - f(k) + g(k)
  {
    SumPick(keys, f, k);
    SumPick(keys, g, k);
    SumSame(keys - {k}, f, g);
  }

  lemma {:induction false} SumAtLeast<K(!new)>(keys: set<K>, f: K -> int, k: K)
    requires k in keys && forall a :: a in keys ==> f(a) >= 0
    ensures 0 <= f(k) <= Sum(keys, f)
  {
    SumPick(keys, f, k);
    SumNatural(keys - {k}, f);
  }

  lemma {:induction false} SumNatural<K(!new)>(keys: set<K>, f: K -> int)
    requires forall a :: a in keys ==> f(a) >= 0
    ensures Sum(keys, f) >= 0
  {
    if keys != {} {
      var k :| k in keys;
      SumPick(keys, f, k);
      SumNatural(keys - {k}, f);
    }
  }

  lemma {:induction false} SumBelow<K(!new)>(keys: set<K>, f: K -> int, g: K -> int)
    requires forall k :: k in keys ==> f(k) <= g(k)
    ensures Sum(keys, f) <= Sum(keys, g)
  {
    if keys != {} {
      var k :| k in keys;
      SumPick(keys, f, k);
      SumPick(keys, g, k);
      SumBelow(keys - {k}, f, g);
    }
  }

  lemma {:induction false} SumPart<K(!new)>(some: set<K>, all: set<K>, f: K -> int)
    requires some <= all && forall k :: k in all ==> f(k) >= 0
    ensures Sum(some, f) <= Sum(all, f)
  {
    if all != some {
      assert all - some != {} by {
        assert some + (all - some) == all;
      }
      var k :| k in all - some;
      SumPick(all, f, k);
      SumPart(some, all - {k}, f);
    }
  }

  // ----- maps of maps -----

  function Inner<K, L, V>(m: map<K, map<L, V>>, k: K): map<L, V> {
    if k in m then m[k] else map[]
  }

  function Lengths<K(!new), L, V>(m: map<K, map<L, V>>): K -> int {
    (k: K) => |Inner(m, k)|
  }

  /** How many entries there are in all. */
  ghost function Nested<K(!new), L, V>(m: map<K, map<L, V>>): int { Sum(m.Keys, Lengths(m)) }

  lemma SetInner<K(!new), L, V>(m: map<K, map<L, V>>, k: K, q: map<L, V>)
    ensures Nested(m[k := q]) == Nested(m) - |Inner(m, k)| + |q|
  {
    var n := m[k := q];
    assert n.Keys == m.Keys + {k};
    SumWiden(m.Keys, n.Keys, Lengths(m));
    SumChange(n.Keys, Lengths(m), Lengths(n), k);
  }

  lemma DropInner<K(!new), L, V>(m: map<K, map<L, V>>, k: K)
    requires Inner(m, k) == map[]
    ensures Nested(m - {k}) == Nested(m)
  {
    var n := m - {k};
    SumWiden(n.Keys, m.Keys, Lengths(m));
    SumSame(n.Keys, Lengths(m), Lengths(n));
  }

  lemma InnerAtMost<K(!new), L, V>(m: map<K, map<L, V>>, k: K)
    ensures |Inner(m, k)| <= Nested(m)
  {
    SumNatural(m.Keys, Lengths(m));
    if k in m {
      SumAtLeast(m.Keys, Lengths(m), k);
    }
  }
}
