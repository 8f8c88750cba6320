/** Which transactions a block takes: two lanes in admission order, a gas budget, an age window and a byte cap. */
module BlockSelection {
  import opened Ordering
  import opened MempoolSpec
  import opened Words

  const MAX_AGE: nat := 270

  // ----- a lane laid out in order -----

  /** The transactions of a bucket that are still pooled. */
  function Present(ids: seq<nat>, pool: map<nat, Tx>): seq<Tx> {
    if ids == [] then []
    else
      var n := |ids| - 1;
      Present(ids[..n], pool) + if ids[n] in pool then [pool[ids[n]]] else []
  }

  function Listed(keys: seq<nat>, lane: map<nat, seq<nat>>, pool: map<nat, Tx>): seq<Tx> {
    if keys == [] then []
    else
      var n := |keys| - 1;
      Listed(keys[..n], lane, pool) + Present(Bucket(lane, keys[n]), pool)
  }

  ghost predicate Ascending(keys: seq<nat>, lane: map<nat, seq<nat>>) {
    && (forall k :: k in keys <==> k in lane)
    && forall i, j :: 0 <= i < j < |keys| ==> keys[i] < keys[j]
  }

  lemma PresentNext(ids: seq<nat>, pool: map<nat, Tx>, j: nat)
    requires j < |ids|
    ensures Present(ids[..j + 1], pool) == Present(ids[..j], pool) + if ids[j] in pool then [pool[ids[j]]] else []
  {
    assert ids[..j + 1][..j] == ids[..j];
  }

  lemma {:induction false} PresentPrefix(ids: seq<nat>, pool: map<nat, Tx>, j: nat)
    requires j <= |ids|
    ensures Present(ids[..j], pool) <= Present(ids, pool)
  {
    if j == |ids| {
      assert ids[..j] == ids;
    } else {
      var n := |ids| - 1;
      PresentPrefix(ids[..n], pool, j);
      assert ids[..n][..j] == ids[..j];
    }
  }

  lemma ListedNext(keys: seq<nat>, lane: map<nat, seq<nat>>, pool: map<nat, Tx>, i: nat)
    requires i < |keys|
    ensures Listed(keys[..i + 1], lane, pool) == Listed(keys[..i], lane, pool) + Present(Bucket(lane, keys[i]), pool)
  {
    assert keys[..i + 1][..i] == keys[..i];
  }

  lemma {:induction false} ListedPrefix(keys: seq<nat>, lane: map<nat, seq<nat>>, pool: map<nat, Tx>, i: nat)
    requires i <= |keys|
    ensures Listed(keys[..i], lane, pool) <= Listed(keys, lane, pool)
  {
    if i == |keys| {
      assert keys[..i] == keys;
    } else {
      var n := |keys| - 1;
      ListedPrefix(keys[..n], lane, pool, i);
      assert keys[..n][..i] == keys[..i];
    }
  }

  // ----- prefixes -----

  /** Declared gas, added up the way the selection does. */
  function Gas(list: seq<Tx>): nat {
    if list == [] then 0 else SatAdd(Gas(list[..|list| - 1]), list[|list| - 1].gasLimit)
  }

  function Bytes(list: seq<Tx>): nat {
    if list == [] then 8 else Bytes(list[..|list| - 1]) + list[|list| - 1].encoded
  }

  /** `p` stops short of `list` for a reason: the count is used up, or the next one is over the budget. */
  predicate Halted(p: seq<Tx>, list: seq<Tx>, limit: nat, budget: nat) {
    && p <= list && |p| <= limit
    && (|p| == limit || (|p| < |list| && Gas(list[..|p| + 1]) > budget))
  }

  predicate Fits(p: seq<Tx>, limit: nat, budget: nat) {
    |p| <= limit && Gas(p) <= budget
  }

  predicate Longest(p: seq<Tx>, list: seq<Tx>, limit: nat, budget: nat) {
    p <= list && Fits(p, limit, budget) && (p == list || Halted(p, list, limit, budget))
  }

  lemma {:induction false} GasGrows(list: seq<Tx>, i: nat)
    requires i <= |list|
    ensures Gas(list[..i]) <= Gas(list)
  {
    GasInRange(list[..i]);
    if i == |list| {
      assert list[..i] == list;
    } else {
      var n := |list| - 1;
      assert list[..n][..i] == list[..i];
      GasGrows(list[..n], i);
    }
  }

  lemma {:induction false} GasInRange(list: seq<Tx>)
    ensures Gas(list) <= U128_MAX
  {
    if list != [] {
      GasInRange(list[..|list| - 1]);
    }
  }

  lemma SameFront(q: seq<Tx>, list: seq<Tx>, n: nat)
    requires q <= list && n <= |q|
    ensures q[..n] == list[..n]
  {
  }

  /** No prefix within both budgets is longer. */
  lemma LongestIsLongest(p: seq<Tx>, list: seq<Tx>, limit: nat, budget: nat, q: seq<Tx>)
    requires Longest(p, list, limit, budget) && q <= list && Fits(q, limit, budget)
    ensures q <= p
  {
    if |q| > |p| {
      SameFront(q, list, |p| + 1);
      GasGrows(q, |p| + 1);
      assert false;
    }
  }

  lemma HaltedFurther(p: seq<Tx>, list: seq<Tx>, more: seq<Tx>, limit: nat, budget: nat)
    requires Halted(p, list, limit, budget) && list <= more
    ensures Halted(p, more, limit, budget)
  {
    if |p| < |list| {
      assert more[..|p| + 1] == list[..|p| + 1];
    }
  }

  lemma GasNext(p: seq<Tx>, tx: Tx)
    ensures Gas(p + [tx]) == SatAdd(Gas(p), tx.gasLimit)
  {
    assert (p + [tx])[..|p|] == p;
  }

  // ----- draining -----

  /** One bucket; `stop` says that a budget ended the whole drain. */
  method DrainHeavyBucket(ids: seq<nat>, pool: map<nat, Tx>, limit: nat, budget: nat, before: seq<Tx>, reserved: nat)
    returns (out: seq<Tx>, gas: nat, stop: bool)
    requires Fits(before, limit, budget) && reserved == Gas(before)
    ensures Fits(out, limit, budget) && gas == Gas(out)
    ensures if stop then Halted(out, before + Present(ids, pool), limit, budget) else out == before + Present(ids, pool)
  {
    out, gas, stop := before, reserved, false;
    var j := 0;
    assert ids[..0] == [] && before + [] == before;
    while j < |ids| && !stop
      invariant 0 <= j <= |ids|
      invariant Fits(out, limit, budget) && gas == Gas(out)
      invariant if stop then Halted(out, before + Present(ids, pool), limit, budget) else out == before + Present(ids[..j], pool)
      decreases |ids| - j, !stop
    {
      BucketStep(before, ids, pool, j, out, limit, budget);
      if |out| >= limit {
        stop := true;
      } else if ids[j] in pool {
        var tx := pool[ids[j]];
        if SatAdd(gas, tx.gasLimit) > budget {
          stop := true;
        } else {
          gas := SatAdd(gas, tx.gasLimit);
          out := out + [tx];
          j := j + 1;
        }
      } else {
        j := j + 1;
      }
    }
    assert ids[..|ids|] == ids;
  }

  /** Whichever way a turn of the bucket loop goes, it goes right. */
  lemma BucketStep(before: seq<Tx>, ids: seq<nat>, pool: map<nat, Tx>, j: nat, out: seq<Tx>, limit: nat, budget: nat)
    requires j < |ids| && out == before + Present(ids[..j], pool) && |out| <= limit
    ensures |out| == limit ==> Halted(out, before + Present(ids, pool), limit, budget)
    ensures ids[j] !in pool ==> out == before + Present(ids[..j + 1], pool)
    ensures ids[j] in pool ==> var tx := pool[ids[j]];
              && out + [tx] == before + Present(ids[..j + 1], pool) && Gas(out + [tx]) == SatAdd(Gas(out), tx.gasLimit)
              && (SatAdd(Gas(out), tx.gasLimit) > budget ==> Halted(out, before + Present(ids, pool), limit, budget))
  {
    PresentNext(ids, pool, j);
    PresentPrefix(ids, pool, j);
    PresentPrefix(ids, pool, j + 1);
    if ids[j] in pool {
      var tx := pool[ids[j]];
      GasNext(out, tx);
      assert out + [tx] == before + Present(ids[..j + 1], pool);
      if SatAdd(Gas(out), tx.gasLimit) > budget {
        HaltsBefore(out, tx, before + Present(ids, pool), limit, budget);
      }
    }
  }

  lemma HaltsBefore(p: seq<Tx>, tx: Tx, list: seq<Tx>, limit: nat, budget: nat)
    requires p + [tx] <= list && |p| <= limit && Gas(p + [tx]) > budget
    ensures Halted(p, list, limit, budget)
  {
    assert list[..|p| + 1] == p + [tx];
  }

  method DrainHeavy(lane: map<nat, seq<nat>>, pool: map<nat, Tx>, limit: nat, budget: nat)
    returns (out: seq<Tx>, keys: seq<nat>)
    ensures Ascending(keys, lane) && Longest(out, Listed(keys, lane, pool), limit, budget)
  {
    var order := Sorted(lane.Keys);
    keys := order;
    out := [];
    if limit == 0 {
      return;
    }
    var gas, stop, i := 0, false, 0;
    assert order[..0] == [];
    while i < |order| && !stop
      invariant 0 <= i <= |order|
      invariant Fits(out, limit, budget) && gas == Gas(out)
      invariant if stop then Halted(out, Listed(order, lane, pool), limit, budget) else out == Listed(order[..i], lane, pool)
      decreases |order| - i, !stop
    {
      ListedNext(order, lane, pool, i);
      ListedPrefix(order, lane, pool, i);
      ListedPrefix(order, lane, pool, i + 1);
      if |out| >= limit {
        stop := true;
      } else {
        ghost var before := out;
        out, gas, stop := DrainHeavyBucket(lane[order[i]], pool, limit, budget, out, gas);
        if stop {
          HaltedFurther(out, before + Present(lane[order[i]], pool), Listed(order, lane, pool), limit, budget);
        } else {
          i := i + 1;
        }
      }
    }
    assert order[..|order|] == order;
  }

  /** At most `n` from the front. */
  function Front(list: seq<Tx>, n: nat): seq<Tx> {
    if n < |list| then list[..n] else list
  }

  lemma FrontTwice(a: seq<Tx>, b: seq<Tx>, n: nat)
    ensures Front(Front(a, n) + b, n) == Front(a + b, n)
  {
  }

  lemma FrontFull(a: seq<Tx>, b: seq<Tx>, n: nat)
    requires a <= b && |Front(a, n)| == n
    ensures Front(b, n) == Front(a, n)
  {
  }

  method DrainBucket(ids: seq<nat>, pool: map<nat, Tx>, limit: nat, before: seq<Tx>) returns (out: seq<Tx>)
    requires |before| <= limit
    ensures out == Front(before + Present(ids, pool), limit)
  {
    out := before;
    var j := 0;
    assert ids[..0] == [] && before + [] == before;
    while j < |ids| && |out| < limit
      invariant 0 <= j <= |ids| && |out| <= limit && out == before + Present(ids[..j], pool)
    {
      PresentNext(ids, pool, j);
      if ids[j] in pool {
        out := out + [pool[ids[j]]];
      }
      j := j + 1;
    }
    PresentPrefix(ids, pool, j);
    assert ids[..|ids|] == ids;
    if |out| == limit {
      FrontFull(out, before + Present(ids, pool), limit);
    }
  }

  method Drain(lane: map<nat, seq<nat>>, pool: map<nat, Tx>, limit: nat) returns (out: seq<Tx>, keys: seq<nat>)
    ensures Ascending(keys, lane) && out == Front(Listed(keys, lane, pool), limit)
  {
    var order := Sorted(lane.Keys);
    keys := order;
    out := [];
    if limit == 0 {
      return;
    }
    var i := 0;
    assert order[..0] == [];
    while i < |order| && |out| < limit
      invariant 0 <= i <= |order| && out == Front(Listed(order[..i], lane, pool), limit)
    {
      ListedNext(order, lane, pool, i);
      FrontTwice(Listed(order[..i], lane, pool), Present(lane[order[i]], pool), limit);
      out := DrainBucket(lane[order[i]], pool, limit, out);
      i := i + 1;
    }
    assert order[..|order|] == order;
    if |out| == limit {
      ListedPrefix(order, lane, pool, i);
      FrontFull(Listed(order[..i], lane, pool), Listed(order, lane, pool), limit);
    }
  }

  /** Heavy first, then light up to the count; `h` is the heavy part. */
  ghost predicate Chosen(out: seq<Tx>, h: seq<Tx>, heavy: seq<Tx>, light: seq<Tx>, maxCount: nat, maxHeavy: nat,
      budget: nat) {
    && Longest(h, heavy, Least(maxHeavy, maxCount), budget)
    && out == h + Front(light, maxCount - |h|)
  }

  function Least(a: nat, b: nat): nat {
    if a <= b then a else b
  }

  method SelectFifo(l: Lanes, pool: map<nat, Tx>, maxCount: nat, maxHeavy: nat, budget: nat)
    returns (out: seq<Tx>, ghost h: seq<Tx>, ghost heavy: seq<nat>, ghost light: seq<nat>)
    ensures Ascending(heavy, l.heavy) && Ascending(light, l.light)
    ensures Chosen(out, h, Listed(heavy, l.heavy, pool), Listed(light, l.light, pool), maxCount, maxHeavy, budget)
    ensures |out| <= maxCount
  {
    out, heavy := DrainHeavy(l.heavy, pool, Least(maxHeavy, maxCount), budget);
    h := out;
    var rest;
    rest, light := Drain(l.light, pool, maxCount - |out|);
    out := out + rest;
  }

  // ----- what the lanes of a coherent pool list -----

  /** Every pooled transaction of this weight once, in the order of admission. */
  ghost predicate InAdmissionOrder(list: seq<Tx>, key: map<nat, nat>, pool: map<nat, Tx>, heavy: bool) {
    && (forall i :: 0 <= i < |list| ==>
          list[i].id in pool && pool[list[i].id] == list[i] && Heavy(list[i]) == heavy && list[i].id in key)
    && (forall i, j :: 0 <= i < j < |list| ==> key[list[i].id] < key[list[j].id])
    && forall id :: id in pool && Heavy(pool[id]) == heavy ==> pool[id] in list
  }

  lemma {:induction false} ListedOnes(keys: seq<nat>, lane: map<nat, seq<nat>>, pool: map<nat, Tx>)
    requires forall k :: k in keys ==> k in lane && |lane[k]| == 1 && lane[k][0] in pool
    ensures |Listed(keys, lane, pool)| == |keys|
    ensures forall i :: 0 <= i < |keys| ==> Listed(keys, lane, pool)[i] == pool[lane[keys[i]][0]]
  {
    if keys != [] {
      var n := |keys| - 1;
      ListedOnes(keys[..n], lane, pool);
      assert keys[n] in keys;
      ListedNextOne(keys, lane, pool);
    }
  }

  lemma ListedNextOne(keys: seq<nat>, lane: map<nat, seq<nat>>, pool: map<nat, Tx>)
    requires keys != [] && keys[|keys| - 1] in lane
    requires var b := lane[keys[|keys| - 1]]; |b| == 1 && b[0] in pool
    ensures var n := |keys| - 1;
            Listed(keys, lane, pool) == Listed(keys[..n], lane, pool) + [pool[lane[keys[n]][0]]]
  {
    var n := |keys| - 1;
    PresentOne(lane[keys[n]][0], pool);
    assert lane[keys[n]] == [lane[keys[n]][0]];
  }

  lemma PresentOne(id: nat, pool: map<nat, Tx>)
    requires id in pool
    ensures Present([id], pool) == [pool[id]]
  {
    assert [id][..0] == [];
  }

  lemma LaneInOrder(keys: seq<nat>, lane: map<nat, seq<nat>>, key: map<nat, nat>, pool: map<nat, Tx>, heavy: bool)
    requires Ascending(keys, lane) && OneLane(lane, key, pool, heavy) && forall id :: id in pool ==> pool[id].id == id
    ensures InAdmissionOrder(Listed(keys, lane, pool), key, pool, heavy)
  {
    var list := Listed(keys, lane, pool);
    ListedOnes(keys, lane, pool);
    forall i | 0 <= i < |list|
      ensures list[i] == pool[lane[keys[i]][0]] && list[i].id == lane[keys[i]][0] && key[list[i].id] == keys[i]
    {
      assert keys[i] in keys;
    }
    forall id | id in pool && Heavy(pool[id]) == heavy
      ensures pool[id] in list
    {
      var i :| 0 <= i < |keys| && keys[i] == key[id];
      assert list[i] == pool[id];
    }
  }

  /** In a coherent pool the selection is: of the heavy transactions in admission order the longest prefix within
      count and gas, then of the light ones in admission order as many as still fit. */
  lemma SelectionIsFifo(m: Mem, cfg: Config, heavy: seq<nat>, light: seq<nat>)
    requires Good(m, cfg) && Ascending(heavy, m.lanes.heavy) && Ascending(light, m.lanes.light)
    ensures InAdmissionOrder(Listed(heavy, m.lanes.heavy, m.ix.pool), m.lanes.key, m.ix.pool, true)
    ensures InAdmissionOrder(Listed(light, m.lanes.light, m.ix.pool), m.lanes.key, m.ix.pool, false)
  {
    GoodIs(m, cfg);
    IndexedIs(m.ix);
    LanedIs(m.lanes, m.ix.pool);
    LaneInOrder(heavy, m.lanes.heavy, m.lanes.key, m.ix.pool, true);
    LaneInOrder(light, m.lanes.light, m.lanes.key, m.ix.pool, false);
  }

  // ----- what the sender wrote as time does not matter -----

  predicate SameButTime(pool: map<nat, Tx>, other: map<nat, Tx>) {
    pool.Keys == other.Keys && forall id :: id in pool ==> other[id] == pool[id].(timestamp := other[id].timestamp)
  }

  /** The two lists agree but for the timestamps. */
  predicate Alike(a: seq<Tx>, b: seq<Tx>) {
    |a| == |b| && forall i :: 0 <= i < |a| ==> b[i] == a[i].(timestamp := b[i].timestamp)
  }

  lemma {:induction false} PresentAlike(ids: seq<nat>, pool: map<nat, Tx>, other: map<nat, Tx>)
    requires SameButTime(pool, other)
    ensures Alike(Present(ids, pool), Present(ids, other))
  {
    if ids != [] {
      PresentAlike(ids[..|ids| - 1], pool, other);
    }
  }

  lemma {:induction false} ListedAlike(keys: seq<nat>, lane: map<nat, seq<nat>>, pool: map<nat, Tx>,
      other: map<nat, Tx>)
    requires SameButTime(pool, other)
    ensures Alike(Listed(keys, lane, pool), Listed(keys, lane, other))
  {
    if keys != [] {
      var n := |keys| - 1;
      ListedAlike(keys[..n], lane, pool, other);
      PresentAlike(Bucket(lane, keys[n]), pool, other);
      AlikeJoin(Listed(keys[..n], lane, pool), Listed(keys[..n], lane, other),
                Present(Bucket(lane, keys[n]), pool), Present(Bucket(lane, keys[n]), other));
    }
  }

  lemma AlikeJoin(a: seq<Tx>, b: seq<Tx>, c: seq<Tx>, d: seq<Tx>)
    requires Alike(a, b) && Alike(c, d)
    ensures Alike(a + c, b + d)
  {
  }

  lemma {:induction false} AlikeGas(a: seq<Tx>, b: seq<Tx>)
    requires Alike(a, b)
    ensures Gas(a) == Gas(b)
  {
    if a != [] {
      AlikeGas(a[..|a| - 1], b[..|b| - 1]);
    }
  }

  lemma LongestAlike(a: seq<Tx>, b: seq<Tx>, p: seq<Tx>, q: seq<Tx>, limit: nat, budget: nat)
    requires Alike(a, b) && Longest(p, a, limit, budget) && Longest(q, b, limit, budget)
    ensures |q| <= |p|
  {
    var r := a[..|q|];
    AlikeGas(r, q);
    LongestIsLongest(p, a, limit, budget, r);
  }

  /** Whatever timestamps the senders claim, the same transactions are chosen in the same order. */
  lemma TimestampsDoNotOrder(
    l: Lanes, pool: map<nat, Tx>, other: map<nat, Tx>, heavy: seq<nat>, light: seq<nat>,
    out: seq<Tx>, h: seq<Tx>, out': seq<Tx>, h': seq<Tx>, maxCount: nat, maxHeavy: nat, budget: nat)
    requires SameButTime(pool, other)
    requires Chosen(out, h, Listed(heavy, l.heavy, pool), Listed(light, l.light, pool), maxCount, maxHeavy, budget)
    requires Chosen(out', h', Listed(heavy, l.heavy, other), Listed(light, l.light, other), maxCount, maxHeavy, budget)
    ensures Alike(out, out')
  {
    var a, b := Listed(heavy, l.heavy, pool), Listed(heavy, l.heavy, other);
    ListedAlike(heavy, l.heavy, pool, other);
    ListedAlike(light, l.light, pool, other);
    AlikeBack(a, b);
    LongestAlike(a, b, h, h', Least(maxHeavy, maxCount), budget);
    LongestAlike(b, a, h', h, Least(maxHeavy, maxCount), budget);
    FrontAlike(Listed(light, l.light, pool), Listed(light, l.light, other), maxCount - |h|);
    AlikeJoin(h, h', Front(Listed(light, l.light, pool), maxCount - |h|), Front(Listed(light, l.light, other), maxCount - |h|));
  }

  lemma AlikeBack(a: seq<Tx>, b: seq<Tx>)
    requires Alike(a, b)
    ensures Alike(b, a)
  {
  }

  lemma FrontAlike(a: seq<Tx>, b: seq<Tx>, n: nat)
    requires Alike(a, b)
    ensures Alike(Front(a, n), Front(b, n))
  {
  }

  // ----- the age window and the byte cap -----

  predicate TooOld(tx: Tx, now: nat) { tx.timestamp <= now && now - tx.timestamp > MAX_AGE }

  predicate TooNew(tx: Tx, now: nat) { tx.timestamp > now && tx.timestamp - now > MAX_AGE }

  /** What the execution of a block will accept as recent. */
  function Timely(list: seq<Tx>, now: nat): seq<Tx> {
    if list == [] then []
    else
      var n := |list| - 1;
      Timely(list[..n], now) + if TooOld(list[n], now) || TooNew(list[n], now) then [] else [list[n]]
  }

  function Aged(list: seq<Tx>, now: nat): set<nat> {
    set i | 0 <= i < |list| && TooOld(list[i], now) :: list[i].id
  }

  lemma TimelyNext(list: seq<Tx>, now: nat, i: nat)
    requires i < |list|
    ensures Timely(list[..i + 1], now) ==
            Timely(list[..i], now) + if TooOld(list[i], now) || TooNew(list[i], now) then [] else [list[i]]
    ensures Aged(list[..i + 1], now) == Aged(list[..i], now) + if TooOld(list[i], now) then {list[i].id} else {}
  {
    assert list[..i + 1][..i] == list[..i];
  }

  /** Nothing fits only when not even the first one does. */
  predicate LongestBytes(p: seq<Tx>, list: seq<Tx>, cap: nat) {
    && p <= list && (p == [] || Bytes(p) <= cap)
    && (p == list || (|p| < |list| && Bytes(list[..|p| + 1]) > cap))
  }

  lemma {:induction false} BytesGrow(list: seq<Tx>, i: nat)
    requires i <= |list|
    ensures Bytes(list[..i]) <= Bytes(list)
  {
    if i == |list| {
      assert list[..i] == list;
    } else {
      var n := |list| - 1;
      assert list[..n][..i] == list[..i];
      BytesGrow(list[..n], i);
    }
  }

  /** No prefix within the byte cap is longer. */
  lemma BytesIsLongest(p: seq<Tx>, list: seq<Tx>, cap: nat, q: seq<Tx>)
    requires LongestBytes(p, list, cap) && q <= list && Bytes(q) <= cap
    ensures q <= p
  {
    if |q| > |p| {
      SameFront(q, list, |p| + 1);
      BytesGrow(q, |p| + 1);
      assert false;
    }
  }

  method FitBytes(list: seq<Tx>, cap: nat) returns (kept: seq<Tx>)
    ensures LongestBytes(kept, list, cap)
  {
    var total, keep, going := 8, 0, true;
    assert list[..0] == [];
    while keep < |list| && going
      invariant 0 <= keep <= |list| && total == Bytes(list[..keep])
      invariant keep == 0 || total <= cap
      invariant !going ==> keep < |list| && Bytes(list[..keep + 1]) > cap
      decreases |list| - keep, going
    {
      assert list[..keep + 1][..keep] == list[..keep];
      var t := total + list[keep].encoded;
      if t <= cap {
        total, keep := t, keep + 1;
      } else {
        going := false;
      }
    }
    assert list[..|list|] == list;
    kept := list[..keep];
  }
}
