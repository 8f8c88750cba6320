/** The epoch transition as the node runs it: loops over a list of accounts, each change written back. */
module Epoch {
  import opened Options
  import opened Lifecycle
  import opened EpochSpec
  import Ordering
  import opened Words

  datatype SortKey = SortKey(first: nat, second: nat, third: nat)

  predicate Less(a: SortKey, b: SortKey) {
    || a.first < b.first
    || (a.first == b.first && (a.second < b.second || (a.second == b.second && a.third < b.third)))
  }

  predicate Sorted(keys: seq<SortKey>, order: seq<nat>) {
    && (forall k :: 0 <= k < |order| ==> order[k] < |keys|)
    && forall k, l :: 0 <= k < l < |order| ==> order[k] < |keys| && order[l] < |keys| && Less(keys[order[k]], keys[order[l]])
  }

  lemma SortedJoin(keys: seq<SortKey>, a: seq<nat>, b: seq<nat>)
    requires Sorted(keys, a) && Sorted(keys, b)
    requires forall k, l :: 0 <= k < |a| && 0 <= l < |b| ==> Less(keys[a[k]], keys[b[l]])
    ensures Sorted(keys, a + b)
  {
  }

  lemma InsertedSorted(keys: seq<SortKey>, order: seq<nat>, x: nat, i: nat)
    requires Sorted(keys, order) && x < |keys| && i <= |order|
    requires forall k :: 0 <= k < i ==> Less(keys[order[k]], keys[x])
    requires i < |order| ==> !Less(keys[order[i]], keys[x]) && keys[order[i]].third != keys[x].third
    ensures Sorted(keys, order[..i] + [x] + order[i..])
  {
    SortedJoin(keys, order[..i], [x]);
    var tail := order[i..];
    forall l | 0 <= l < |tail|
      ensures Less(keys[x], keys[tail[l]])
    {
      assert l > 0 ==> Less(keys[order[i]], keys[order[i + l]]);
    }
    forall k, l | 0 <= k < |order[..i] + [x]| && 0 <= l < |tail|
      ensures Less(keys[(order[..i] + [x])[k]], keys[tail[l]])
    {
      assert k < i ==> Less(keys[order[k]], keys[order[i + l]]);
    }
    SortedJoin(keys, order[..i] + [x], tail);
  }

  /** Insertion into a sorted order of indices whose keys all differ. */
  method Insert(keys: seq<SortKey>, order: seq<nat>, x: nat) returns (r: seq<nat>)
    requires Sorted(keys, order) && x < |keys|
    requires forall k :: 0 <= k < |order| ==> keys[order[k]].third != keys[x].third
    ensures Sorted(keys, r) && SetOf(r) == SetOf(order) + {x}
  {
    var i := 0;
    while i < |order| && Less(keys[order[i]], keys[x])
      invariant i <= |order|
      invariant forall k :: 0 <= k < i ==> Less(keys[order[k]], keys[x])
    {
      i := i + 1;
    }
    r := order[..i] + [x] + order[i..];
    InsertedSorted(keys, order, x, i);
    assert order == order[..i] + order[i..];
  }

  method SortIndices(keys: seq<SortKey>, items: seq<nat>) returns (order: seq<nat>)
    requires forall k :: 0 <= k < |items| ==> items[k] < |keys|
    requires forall k, l :: 0 <= k < l < |items| ==> keys[items[k]].third != keys[items[l]].third
    ensures Sorted(keys, order) && SetOf(order) == SetOf(items)
  {
    order := [];
    var i := 0;
    while i < |items|
      invariant i <= |items|
      invariant Sorted(keys, order) && SetOf(order) == SetOf(items[..i])
    {
      assert items[..i + 1] == items[..i] + [items[i]];
      forall k | 0 <= k < |order|
        ensures keys[order[k]].third != keys[items[i]].third
      {
        assert order[k] in SetOf(items[..i]);
      }
      order := Insert(keys, order, items[i]);
      i := i + 1;
    }
    assert items[..i] == items;
  }

  // ----- writing back -----

  lemma WriteOne(before: State, s: State, v: seq<Entry>, out: seq<Entry>, i: nat, acc: Account)
    requires WrittenBack(before, s, v, out) && Ascending(v) && i < |v|
    ensures WrittenBack(before, s[v[i].addr := acc], v, out[i := Entry(v[i].addr, acc)])
  {
    OthersDiffer(v, out, i);
    WriteListed(s, out, v[i].addr, i, acc);
    WriteUnlisted(before, s, v, i, acc);
  }

  lemma OthersDiffer(v: seq<Entry>, out: seq<Entry>, i: nat)
    requires SameOrder(v, out) && Ascending(v) && i < |v|
    ensures out[i].addr == v[i].addr && forall k :: 0 <= k < |out| && k != i ==> out[k].addr != v[i].addr
  {
  }

  lemma WriteUnlisted(before: State, s: State, v: seq<Entry>, i: nat, acc: Account)
    requires i < |v|
    requires forall a :: a in s && (forall k :: 0 <= k < |v| ==> v[k].addr != a) ==> a in before && s[a] == before[a]
    ensures var t := s[v[i].addr := acc];
            forall a :: a in t && (forall k :: 0 <= k < |v| ==> v[k].addr != a) ==> a in before && t[a] == before[a]
  {
  }

  lemma WriteListed(s: State, out: seq<Entry>, a: nat, i: nat, acc: Account)
    requires forall k :: 0 <= k < |out| ==> out[k].addr in s && s[out[k].addr] == out[k].acc
    requires i < |out| && out[i].addr == a && forall k :: 0 <= k < |out| && k != i ==> out[k].addr != a
    ensures var next, t := out[i := Entry(a, acc)], s[a := acc];
            forall k :: 0 <= k < |next| ==> next[k].addr in t && t[next[k].addr] == next[k].acc
  {
  }

  lemma WriteNothing(s: State, v: seq<Entry>)
    requires Mirrors(s, v)
    ensures WrittenBack(s, s, v, v)
  {
  }

  lemma WriteThen(a: State, b: State, c: State, v: seq<Entry>, w: seq<Entry>, x: seq<Entry>)
    requires WrittenBack(a, b, v, w) && WrittenBack(b, c, w, x)
    ensures WrittenBack(a, c, v, x)
  {
    forall k | k in c && (forall i :: 0 <= i < |v| ==> v[i].addr != k)
      ensures k in a && c[k] == a[k]
    {
      assert forall i :: 0 <= i < |w| ==> w[i].addr != k by {
        assert forall i :: 0 <= i < |v| ==> w[i].addr == v[i].addr;
      }
    }
  }

  lemma OrderKept(v: seq<Entry>, w: seq<Entry>)
    requires SameOrder(v, w) && Ascending(v)
    ensures Ascending(w)
  {
    assert forall i :: 0 <= i < |v| ==> w[i].addr == v[i].addr;
  }

  /** `out` has reached its target below `i` and is untouched from there on. */
  predicate Halfway(v: seq<Entry>, target: seq<Entry>, out: seq<Entry>, i: nat) {
    && |target| == |out| == |v| && i <= |v|
    && (forall k :: 0 <= k < i ==> out[k] == target[k])
    && forall k :: i <= k < |v| ==> out[k] == v[k]
  }

  lemma HalfwayNext(v: seq<Entry>, target: seq<Entry>, out: seq<Entry>, i: nat, acc: Account)
    requires Halfway(v, target, out, i) && i < |v| && target[i] == Entry(v[i].addr, acc)
    ensures Halfway(v, target, out[i := Entry(v[i].addr, acc)], i + 1)
  {
  }

  lemma HalfwayDone(v: seq<Entry>, target: seq<Entry>, out: seq<Entry>)
    requires Halfway(v, target, out, |v|)
    ensures out == target
  {
  }

  function TotalAfter(total: nat, v: seq<Entry>, m: Moment): nat {
    if v == [] then total
    else
      var n := |v| - 1;
      var before := TotalAfter(total, v[..n], m);
      if StakeDue(v[n].acc, m) then SatAdd(before, v[n].acc.stake.pending, U128_MAX) else before
  }

  // ----- stake over the whole transition -----

  function StakedIn(v: seq<Entry>): nat {
    if v == [] then 0 else StakedIn(v[..|v| - 1]) + v[|v| - 1].acc.stake.staked
  }

  function PendingIn(v: seq<Entry>): nat {
    if v == [] then 0 else PendingIn(v[..|v| - 1]) + v[|v| - 1].acc.stake.pending
  }

  /** No phase but the first touches stake. */
  lemma FinalStake(v: seq<Entry>, r: Rotations, m: Moment, i: nat)
    requires i < |v|
    ensures Final(v, r, m)[i].acc.stake == Settled(v[i].acc, m).stake
  {
    var s := SettledAll(v, m);
    var t := RotatedAll(s, r, m);
    assert t[i].acc.stake == s[i].acc.stake;
    var k := AmnestiedAll(t, m);
    assert k[i].acc.stake == t[i].acc.stake;
    var j := JudgedAll(k, m);
    JudgedStake(k[i].acc, m);
    var p := AfterPenalties(v, r, m);
    assert p[i].acc.stake == j[i].acc.stake;
    assert PromotedAll(p, m)[i].acc.stake == p[i].acc.stake;
  }

  lemma JudgedStake(a: Account, m: Moment)
    ensures Judged(a, m).stake == a.stake
  {
  }

  /** Stake that has matured moves from pending to staked, none appears or is lost, and the recorded total follows
      the staked sum exactly. */
  lemma {:induction false} StakeMoves(v: seq<Entry>, w: seq<Entry>, m: Moment, total: nat)
    requires |w| == |v| && forall i :: 0 <= i < |v| ==> w[i].acc.stake == Settled(v[i].acc, m).stake
    requires total + PendingIn(v) <= U128_MAX && StakedIn(v) + PendingIn(v) <= U128_MAX
    ensures StakedIn(w) + PendingIn(w) == StakedIn(v) + PendingIn(v)
    ensures TotalAfter(total, v, m) + StakedIn(v) == total + StakedIn(w)
    ensures TotalAfter(total, v, m) <= total + PendingIn(v)
  {
    if v != [] {
      var n := |v| - 1;
      StakeMoves(v[..n], w[..n], m, total);
      SettledKeepsStake(v[n].acc, m);
    }
  }

  function MaturedIn(v: seq<Entry>, m: Moment): nat {
    if v == [] then 0
    else MaturedIn(v[..|v| - 1], m) + if StakeDue(v[|v| - 1].acc, m) then v[|v| - 1].acc.stake.pending else 0
  }

  /** The recorded total takes all that has matured, as far as it fits. */
  lemma {:induction false} TotalIsCapped(total: nat, v: seq<Entry>, m: Moment)
    requires total <= U128_MAX
    ensures TotalAfter(total, v, m) == SatAdd(total, MaturedIn(v, m), U128_MAX)
  {
    if v != [] {
      TotalIsCapped(total, v[..|v| - 1], m);
    }
  }

  lemma StakeConserved(v: seq<Entry>, r: Rotations, m: Moment, total: nat)
    requires total + PendingIn(v) <= U128_MAX && StakedIn(v) + PendingIn(v) <= U128_MAX
    ensures var f := Final(v, r, m);
            && StakedIn(f) + PendingIn(f) == StakedIn(v) + PendingIn(v)
            && TotalAfter(total, v, m) + StakedIn(v) == total + StakedIn(f)
  {
    forall i | 0 <= i < |v|
      ensures Final(v, r, m)[i].acc.stake == Settled(v[i].acc, m).stake
    {
      FinalStake(v, r, m, i);
    }
    StakeMoves(v, Final(v, r, m), m, total);
  }

  /** Everyone with stake and a status, and every member of the set that has an account. */
  predicate Listed(s: State, members: seq<Member>, a: nat) {
    a in s && ((s[a].status.Some? && s[a].stake.staked > 0) || exists k :: 0 <= k < |members| && members[k].addr == a)
  }

  predicate IsRegister(s: State, members: seq<Member>, v: seq<Entry>) {
    && Ascending(v)
    && (forall i :: 0 <= i < |v| ==> Listed(s, members, v[i].addr) && s[v[i].addr] == v[i].acc)
    && forall a :: a in s && Listed(s, members, a) ==> exists i :: 0 <= i < |v| && v[i].addr == a
  }

  class ValidatorRegistry {
    var accounts: State
    var rotations: Rotations
    var set_: ActiveSet
    var snapshots: map<nat, ActiveSet>
    var totalStaked: nat

    constructor (s: State, r: Rotations, current: ActiveSet, staked: nat)
      ensures accounts == s && rotations == r && set_ == current && totalStaked == staked
    {
      accounts, rotations, set_, snapshots, totalStaked := s, r, current, map[current.epoch := current], staked;
    }

    method RegisteredAccounts() returns (v: seq<Entry>)
      ensures IsRegister(accounts, set_.members, v)
    {
      var s, members := accounts, set_.members;
      var keys := set a | a in s && Listed(s, members, a);
      var sorted := Ordering.Sorted(keys);
      assert forall i :: 0 <= i < |sorted| ==> sorted[i] in sorted;
      v := seq(|sorted|, i requires 0 <= i < |sorted| && sorted[i] in s => Entry(sorted[i], s[sorted[i]]));
      forall a | a in s && Listed(s, members, a)
        ensures exists i :: 0 <= i < |v| && v[i].addr == a
      {
        assert a in sorted;
        var i :| 0 <= i < |sorted| && sorted[i] == a;
        assert v[i].addr == a;
      }
    }

    method SettleMaturedStake(a: Account, m: Moment) returns (b: Account, changed: bool)
      modifies this`totalStaked
      ensures b == Settled(a, m) && changed == StakeDue(a, m)
      ensures totalStaked == if changed then SatAdd(old(totalStaked), a.stake.pending, U128_MAX) else old(totalStaked)
    {
      if a.stake.pending == 0 || m.now < a.stake.pendingAt {
        return a, false;
      }
      var settling, s := a.stake.pending, a.stake;
      s := s.(rewardDebt := SatAdd(s.rewardDebt, Owed(settling, m.perShare), U128_MAX));
      s := s.(staked := SatAdd(s.staked, settling, U128_MAX));
      s := s.(pending := 0, pendingAt := 0);
      totalStaked := SatAdd(totalStaked, settling, U128_MAX);
      return a.(stake := s), true;
    }

    method SettleAll(v: seq<Entry>, m: Moment) returns (out: seq<Entry>)
      requires Mirrors(accounts, v) && Ascending(v)
      modifies this`accounts, this`totalStaked
      ensures out == SettledAll(v, m) && WrittenBack(old(accounts), accounts, v, out)
      ensures totalStaked == TotalAfter(old(totalStaked), v, m)
    {
      ghost var target := SettledAll(v, m);
      out := v;
      WriteNothing(accounts, v);
      var i := 0;
      while i < |v|
        invariant Halfway(v, target, out, i)
        invariant WrittenBack(old(accounts), accounts, v, out)
        invariant totalStaked == TotalAfter(old(totalStaked), v[..i], m)
      {
        assert v[..i + 1][..i] == v[..i];
        var b, changed := SettleMaturedStake(v[i].acc, m);
        WriteOne(old(accounts), accounts, v, out, i, b);
        HalfwayNext(v, target, out, i, b);
        out := out[i := Entry(v[i].addr, b)];
        accounts := accounts[v[i].addr := b];
        i := i + 1;
      }
      assert v[..i] == v;
      HalfwayDone(v, target, out);
    }

    /** Applied rotations are removed from the waiting list. */
    method ApplyPendingKeyRotations(v: seq<Entry>, m: Moment) returns (out: seq<Entry>, rotated: map<nat, nat>)
      requires Mirrors(accounts, v) && Ascending(v)
      modifies this`accounts, this`rotations
      ensures out == RotatedAll(v, old(rotations), m) && WrittenBack(old(accounts), accounts, v, out)
      ensures forall a :: a in rotated <==> RotatesNow(v, old(rotations), m, a)
      ensures forall a :: a in rotated ==> a in old(rotations) && rotated[a] == old(rotations)[a].key
      ensures rotations == old(rotations) - rotated.Keys
    {
      ghost var target := RotatedAll(v, rotations, m);
      out, rotated := v, map[];
      WriteNothing(accounts, v);
      AppliedIs(rotations, v, 0, m, map[], rotations);
      assert rotations - {} == rotations;
      var i := 0;
      while i < |v|
        invariant 0 <= i <= |v| && Halfway(v, target, out, i)
        invariant WrittenBack(old(accounts), accounts, v, out)
        invariant Applied(old(rotations), v, i, m, rotated, rotations)
      {
        var a, acc := v[i].addr, v[i].acc;
        AppliedNext(old(rotations), v, i, m, rotated, rotations);
        if a in rotations && rotations[a].requestedEpoch < m.epoch {
          acc := acc.(key := rotations[a].key);
          rotated := rotated[a := rotations[a].key];
          rotations := rotations - {a};
        }
        WriteOne(old(accounts), accounts, v, out, i, acc);
        HalfwayNext(v, target, out, i, acc);
        out := out[i := Entry(a, acc)];
        accounts := accounts[a := acc];
        i := i + 1;
      }
      AppliedIs(old(rotations), v, i, m, rotated, rotations);
      assert v[..i] == v;
      HalfwayDone(v, target, out);
    }

    method ReleaseJailed(v: seq<Entry>, m: Moment) returns (out: seq<Entry>)
      requires Mirrors(accounts, v) && Ascending(v)
      modifies this`accounts
      ensures out == AmnestiedAll(v, m) && WrittenBack(old(accounts), accounts, v, out)
    {
      ghost var target := AmnestiedAll(v, m);
      out := v;
      WriteNothing(accounts, v);
      if m.epoch != AMNESTY_EPOCH {
        assert out == target;
        return;
      }
      var i := 0;
      while i < |v|
        invariant Halfway(v, target, out, i)
        invariant WrittenBack(old(accounts), accounts, v, out)
      {
        var acc := v[i].acc;
        if acc.status == Some(Jailed) && acc.stake.staked > 0 {
          acc := acc.(status := Some(Probation), statusEpoch := m.epoch, jailedUntil := 0, liveness := NO_LIVENESS);
          acc := Flagged(acc);
        }
        WriteOne(old(accounts), accounts, v, out, i, acc);
        HalfwayNext(v, target, out, i, acc);
        out := out[i := Entry(v[i].addr, acc)];
        accounts := accounts[v[i].addr := acc];
        i := i + 1;
      }
      HalfwayDone(v, target, out);
    }

    /** Status changes of the boundary; the delinquents are only listed here. */
    method JudgeAll(v: seq<Entry>, m: Moment) returns (out: seq<Entry>, pending: seq<nat>)
      requires Mirrors(accounts, v) && Ascending(v)
      modifies this`accounts
      ensures out == JudgedAll(v, m) && WrittenBack(old(accounts), accounts, v, out)
      ensures SetOf(pending) == Delinquents(v, m) && |pending| == |Delinquents(v, m)|
    {
      ghost var target := JudgedAll(v, m);
      out, pending := v, [];
      WriteNothing(accounts, v);
      var i := 0;
      while i < |v|
        invariant Halfway(v, target, out, i)
        invariant WrittenBack(old(accounts), accounts, v, out)
        invariant forall k :: k in pending <==> 0 <= k < i && Delinquent(v[k].acc, m)
        invariant forall k, l :: 0 <= k < l < |pending| ==> pending[k] != pending[l]
      {
        var acc, delinquent := Judge(v[i].acc, m);
        if delinquent {
          pending := pending + [i];
        }
        WriteOne(old(accounts), accounts, v, out, i, acc);
        HalfwayNext(v, target, out, i, acc);
        out := out[i := Entry(v[i].addr, acc)];
        accounts := accounts[v[i].addr := acc];
        i := i + 1;
      }
      HalfwayDone(v, target, out);
      DistinctSize(pending);
    }

    method DemoteAll(v: seq<Entry>, pending: seq<nat>, m: Moment) returns (out: seq<Entry>)
      requires Mirrors(accounts, v) && Ascending(v)
      requires (forall k :: k in pending ==> k < |v|) && |pending| == |SetOf(pending)|
      modifies this`accounts
      ensures out == DemotedAll(v, SetOf(pending), m) && WrittenBack(old(accounts), accounts, v, out)
    {
      out := v;
      WriteNothing(accounts, v);
      if pending == [] {
        assert DemotedAll(v, {}, m) == v;
        return;
      }
      var active := Count(v, Active);
      var remaining := SatSub(active, |pending|);
      if remaining < MIN_VALIDATORS {
        return;
      }
      ghost var next := DemotedEach(v, m);
      var i := 0;
      while i < |pending|
        invariant i <= |pending| && Replaced(v, out, next, pending[..i])
        invariant WrittenBack(old(accounts), accounts, v, out)
      {
        var idx := pending[i];
        assert idx in pending;
        var acc := Demoted(v[idx].acc, m);
        WriteOne(old(accounts), accounts, v, out, idx, acc);
        ReplaceNext(v, out, next, pending, i);
        out := out[idx := Entry(v[idx].addr, acc)];
        accounts := accounts[v[idx].addr := acc];
        i := i + 1;
      }
      assert pending[..i] == pending;
      DemotedIs(v, out, pending, m);
    }

    method PromoteAll(v: seq<Entry>, m: Moment) returns (out: seq<Entry>)
      requires Mirrors(accounts, v) && Ascending(v)
      modifies this`accounts
      ensures out == PromotedAll(v, m) && WrittenBack(old(accounts), accounts, v, out)
    {
      ghost var target := PromotedAll(v, m);
      out := v;
      WriteNothing(accounts, v);
      var i := 0;
      while i < |v|
        invariant Halfway(v, target, out, i)
        invariant WrittenBack(old(accounts), accounts, v, out)
      {
        var acc := v[i].acc;
        if Graduates(acc, m) {
          acc := MovedTo(acc, Active, m.epoch);
        }
        WriteOne(old(accounts), accounts, v, out, i, acc);
        HalfwayNext(v, target, out, i, acc);
        out := out[i := Entry(v[i].addr, acc)];
        accounts := accounts[v[i].addr := acc];
        i := i + 1;
      }
      HalfwayDone(v, target, out);
    }

    /** The first of the queue, as many as there are free slots. */
    method AdmitAll(v: seq<Entry>, m: Moment) returns (out: seq<Entry>)
      requires Mirrors(accounts, v) && Ascending(v)
      modifies this`accounts
      ensures out == AdmittedAll(v, m) && WrittenBack(old(accounts), accounts, v, out)
    {
      var used := CountOccupied(v);
      var free := SatSub(m.rules.maxValidators, used % 0x1_0000);
      var order := Queue(v);
      var take := if free < |order| then free else |order|;
      out := v;
      WriteNothing(accounts, v);
      ghost var next := AdmittedEach(v, m);
      var i := 0;
      while i < take
        invariant i <= take && Replaced(v, out, next, order[..i])
        invariant WrittenBack(old(accounts), accounts, v, out)
      {
        var idx := order[i];
        var acc := Admitted(v[idx].acc, m);
        WriteOne(old(accounts), accounts, v, out, idx, acc);
        ReplaceNext(v, out, next, order, i);
        out := out[idx := Entry(v[idx].addr, acc)];
        accounts := accounts[v[idx].addr := acc];
        i := i + 1;
      }
      AdmittedIs(v, out, order, m, take);
    }

    /** Phases zero and one: stake, keys, the release of the jailed, judgement and penalties. */
    method Penalise(v: seq<Entry>, m: Moment) returns (out: seq<Entry>, rotated: map<nat, nat>)
      requires Mirrors(accounts, v) && Ascending(v)
      modifies this`accounts, this`rotations, this`totalStaked
      ensures out == AfterPenalties(v, old(rotations), m) && WrittenBack(old(accounts), accounts, v, out)
      ensures forall a :: a in rotated <==> RotatesNow(v, old(rotations), m, a)
      ensures forall a :: a in rotated ==> a in old(rotations) && rotated[a] == old(rotations)[a].key
      ensures rotations == old(rotations) - rotated.Keys
      ensures totalStaked == TotalAfter(old(totalStaked), v, m)
    {
      ghost var s0 := accounts;
      var v1 := SettleAll(v, m);
      OrderKept(v, v1);
      ghost var s1 := accounts;
      var v2;
      v2, rotated := ApplyPendingKeyRotations(v1, m);
      RotatesSame(v, v1, rotations, m);
      RotatesSame(v, v1, old(rotations), m);
      OrderKept(v1, v2);
      WriteThen(s0, s1, accounts, v, v1, v2);
      ghost var s2 := accounts;
      var v3 := ReleaseJailed(v2, m);
      OrderKept(v2, v3);
      WriteThen(s0, s2, accounts, v, v2, v3);
      ghost var s3 := accounts;
      var v4, pending := JudgeAll(v3, m);
      OrderKept(v3, v4);
      WriteThen(s0, s3, accounts, v, v3, v4);
      ghost var s4 := accounts;
      PendingFits(v3, v4, pending, m);
      out := DemoteAll(v4, pending, m);
      WriteThen(s0, s4, accounts, v, v4, out);
    }

    /** All the changes to accounts. */
    method Reassign(v: seq<Entry>, m: Moment) returns (out: seq<Entry>, rotated: map<nat, nat>)
      requires Mirrors(accounts, v) && Ascending(v)
      modifies this`accounts, this`rotations, this`totalStaked
      ensures out == Final(v, old(rotations), m) && WrittenBack(old(accounts), accounts, v, out) && Ascending(out)
      ensures forall a :: a in rotated <==> RotatesNow(v, old(rotations), m, a)
      ensures forall a :: a in rotated ==> a in old(rotations) && rotated[a] == old(rotations)[a].key
      ensures rotations == old(rotations) - rotated.Keys
      ensures totalStaked == TotalAfter(old(totalStaked), v, m)
    {
      ghost var s0 := accounts;
      var penalised;
      penalised, rotated := Penalise(v, m);
      OrderKept(v, penalised);
      ghost var s1 := accounts;
      var promoted := PromoteAll(penalised, m);
      OrderKept(penalised, promoted);
      WriteThen(s0, s1, accounts, v, penalised, promoted);
      ghost var s2 := accounts;
      out := AdmitAll(promoted, m);
      OrderKept(promoted, out);
      WriteThen(s0, s2, accounts, v, promoted, out);
    }

    /** Nothing happens inside an epoch. At a boundary every registered account takes its final state and the
        next set is stored, unless that set would break a rule of sets. */
    method AdvanceEpochIfDue(m: Moment) returns (r: Option<ActiveSet>, ghost v: seq<Entry>, ghost order: seq<nat>)
      requires m.ended == set_.epoch
      modifies this
      ensures m.epoch <= old(set_).epoch ==>
                && r == Some(set_) && set_ == old(set_) && accounts == old(accounts) && rotations == old(rotations)
                && totalStaked == old(totalStaked)
      ensures m.epoch > old(set_).epoch ==>
                var f := Final(v, old(rotations), m);
                && IsRegister(old(accounts), old(set_).members, v)
                && WrittenBack(old(accounts), accounts, v, f) && MemberOrder(f, order)
                && totalStaked == TotalAfter(old(totalStaked), v, m)
                && (var next := NextSet(old(set_), v, old(rotations), m, order);
                    if ValidMembers(next.members) then r == Some(next) && set_ == next
                    else r == None && set_ == old(set_))
      ensures r.Some? && KeysMatch(old(set_).members, old(accounts)) ==> KeysMatch(set_.members, accounts)
    {
      v, order := [], [];
      if m.epoch <= set_.epoch {
        return Some(set_), v, order;
      }
      ghost var s0, old_ := accounts, set_;
      var register := RegisteredAccounts();
      v := register;
      RegisterCovers(s0, old_.members, v);
      var final, rotated := Reassign(register, m);
      r, order := StoreNext(final, rotated, m);
      RekeyedIs(old_.members, v, old(rotations), m, rotated);
      if r.Some? && KeysMatch(old_.members, s0) {
        MemberKeysMatch(old_, s0, accounts, v, old(rotations), m, order);
      }
    }

    /** Stores the next set, the new one or the kept one; `None` when the new one breaks a rule of the set itself. */
    method StoreNext(f: seq<Entry>, rotated: map<nat, nat>, m: Moment) returns (r: Option<ActiveSet>,
        ghost order: seq<nat>)
      requires Ascending(f)
      modifies this`set_, this`snapshots
      ensures MemberOrder(f, order)
      ensures var members := Members(f, order);
              var next := ActiveSet(m.epoch, if Sized(members) then members else Rekeyed(old(set_).members, rotated));
              if ValidMembers(next.members)
              then r == Some(next) && set_ == next && snapshots == old(snapshots)[m.epoch := next]
              else r == None && set_ == old(set_) && snapshots == old(snapshots)
    {
      var actives := ActiveOrder(f);
      order := actives;
      var members := Members(f, actives);
      if !Sized(members) {
        members := Rekeyed(set_.members, rotated);
      }
      if !ValidMembers(members) {
        return None, order;
      }
      set_ := ActiveSet(m.epoch, members);
      snapshots := snapshots[m.epoch := set_];
      return Some(set_), order;
    }
  }

  /** The kept members with the keys rotated at this boundary. */
  function Rekeyed(members: seq<Member>, rotated: map<nat, nat>): seq<Member> {
    seq(|members|, k requires 0 <= k < |members| =>
      if members[k].addr in rotated then members[k].(key := rotated[members[k].addr]) else members[k])
  }

  lemma RekeyedIs(members: seq<Member>, v: seq<Entry>, r: Rotations, m: Moment, rotated: map<nat, nat>)
    requires forall a :: a in rotated <==> RotatesNow(v, r, m, a)
    requires forall a :: a in rotated ==> a in r && rotated[a] == r[a].key
    ensures Rekeyed(members, rotated) == KeptMembers(members, v, r, m)
  {
  }

  lemma RotatesSame(v: seq<Entry>, w: seq<Entry>, r: Rotations, m: Moment)
    requires SameOrder(v, w)
    ensures forall a :: RotatesNow(v, r, m, a) <==> RotatesNow(w, r, m, a)
  {
    forall a
      ensures RotatesNow(v, r, m, a) <==> RotatesNow(w, r, m, a)
    {
      assert forall i :: 0 <= i < |v| ==> w[i].addr == v[i].addr;
    }
  }

  lemma PendingFits(v: seq<Entry>, w: seq<Entry>, pending: seq<nat>, m: Moment)
    requires SetOf(pending) == Delinquents(v, m) && |w| == |v|
    ensures forall k :: k in pending ==> k < |w|
  {
    forall k | k in pending
      ensures k < |w|
    {
      assert k in SetOf(pending);
    }
  }

  lemma RegisterCovers(s: State, members: seq<Member>, v: seq<Entry>)
    requires IsRegister(s, members, v)
    ensures Mirrors(s, v)
    ensures forall k :: 0 <= k < |members| && members[k].addr in s ==> exists i :: 0 <= i < |v| && v[i].addr == members[k].addr
  {
    forall k | 0 <= k < |members| && members[k].addr in s
      ensures exists i :: 0 <= i < |v| && v[i].addr == members[k].addr
    {
      assert Listed(s, members, members[k].addr);
    }
  }

  function DemotedEach(v: seq<Entry>, m: Moment): (w: seq<Entry>)
    ensures SameOrder(v, w)
  {
    seq(|v|, i requires 0 <= i < |v| => v[i].(acc := Demoted(v[i].acc, m)))
  }

  function AdmittedEach(v: seq<Entry>, m: Moment): (w: seq<Entry>)
    ensures SameOrder(v, w)
  {
    seq(|v|, i requires 0 <= i < |v| => v[i].(acc := Admitted(v[i].acc, m)))
  }

  /** `out` takes the entries of `next` at the indices done so far. */
  predicate Replaced(v: seq<Entry>, out: seq<Entry>, next: seq<Entry>, done: seq<nat>) {
    |out| == |next| == |v| && forall k :: 0 <= k < |v| ==> out[k] == if k in done then next[k] else v[k]
  }

  lemma ReplaceNext(v: seq<Entry>, out: seq<Entry>, next: seq<Entry>, order: seq<nat>, i: nat)
    requires i < |order| && order[i] < |v| && Replaced(v, out, next, order[..i])
    ensures Replaced(v, out[order[i] := next[order[i]]], next, order[..i + 1])
  {
    assert order[..i + 1] == order[..i] + [order[i]];
  }

  lemma DemotedIs(v: seq<Entry>, out: seq<Entry>, pending: seq<nat>, m: Moment)
    requires Replaced(v, out, DemotedEach(v, m), pending) && Spared(v, SetOf(pending))
    ensures out == DemotedAll(v, SetOf(pending), m)
  {
  }

  lemma AdmittedIs(v: seq<Entry>, out: seq<Entry>, order: seq<nat>, m: Moment, take: nat)
    requires Ascending(v) && QueueOrder(v, order)
    requires take == if FreeSlots(v, m) < |order| then FreeSlots(v, m) else |order|
    requires Replaced(v, out, AdmittedEach(v, m), order[..take])
    ensures out == AdmittedAll(v, m)
  {
    QueueIsFifo(v, order, m, take);
  }

  /** The rotations of the first `i` entries that were due are applied, and off the waiting list. */
  ghost predicate Applied(r: Rotations, v: seq<Entry>, i: nat, m: Moment, rotated: map<nat, nat>, left: Rotations,
      depth: nat := 3)
    requires i <= |v|
  {
    if depth > 0 then Applied(r, v, i, m, rotated, left, depth - 1)
    else
      && (forall a :: a in rotated <==> RotatesNow(v[..i], r, m, a))
      && (forall a :: a in rotated ==> a in r && rotated[a] == r[a].key)
      && left == r - rotated.Keys
  }

  lemma {:induction false} AppliedIs(
    r: Rotations, v: seq<Entry>, i: nat, m: Moment, rotated: map<nat, nat>, left: Rotations, depth: nat := 3)
    requires i <= |v|
    ensures Applied(r, v, i, m, rotated, left, depth) <==>
              && (forall a :: a in rotated <==> RotatesNow(v[..i], r, m, a))
              && (forall a :: a in rotated ==> a in r && rotated[a] == r[a].key)
              && left == r - rotated.Keys
    decreases depth
  {
    if depth > 0 {
      AppliedIs(r, v, i, m, rotated, left, depth - 1);
    }
  }

  lemma AppliedNext(r: Rotations, v: seq<Entry>, i: nat, m: Moment, rotated: map<nat, nat>, left: Rotations)
    requires i < |v| && Ascending(v) && Applied(r, v, i, m, rotated, left)
    ensures var a := v[i].addr;
            && Pending(left, a) == Pending(r, a)
            && (if a in left && left[a].requestedEpoch < m.epoch
                then Applied(r, v, i + 1, m, rotated[a := left[a].key], left - {a})
                else Applied(r, v, i + 1, m, rotated, left))
  {
    var a := v[i].addr;
    NotYetRotated(v, r, m, i);
    RotatesNext(v, r, m, i);
    AppliedIs(r, v, i, m, rotated, left);
    if a in left && left[a].requestedEpoch < m.epoch {
      AppliedIs(r, v, i + 1, m, rotated[a := left[a].key], left - {a});
      assert r - rotated.Keys - {a} == r - rotated[a := left[a].key].Keys;
    } else {
      AppliedIs(r, v, i + 1, m, rotated, left);
    }
  }

  lemma NotYetRotated(v: seq<Entry>, r: Rotations, m: Moment, i: nat)
    requires Ascending(v) && i < |v|
    ensures !RotatesNow(v[..i], r, m, v[i].addr)
  {
  }

  lemma RotatesNext(v: seq<Entry>, r: Rotations, m: Moment, i: nat)
    requires i < |v|
    ensures forall a :: RotatesNow(v[..i + 1], r, m, a) <==>
              RotatesNow(v[..i], r, m, a) || (a == v[i].addr && RotationDue(Pending(r, a), m.epoch))
  {
    var before, after := v[..i], v[..i + 1];
    forall a | RotatesNow(before, r, m, a)
      ensures RotatesNow(after, r, m, a)
    {
      var k :| 0 <= k < |before| && before[k].addr == a;
      assert after[k].addr == a;
    }
    assert after[i].addr == v[i].addr;
    forall a | RotatesNow(after, r, m, a) && a != v[i].addr
      ensures RotatesNow(before, r, m, a)
    {
      var k :| 0 <= k < |after| && after[k].addr == a;
      assert before[k].addr == a;
    }
  }

  /** One account at step one of the transition. */
  method Judge(a: Account, m: Moment) returns (acc: Account, delinquent: bool)
    ensures acc == Judged(a, m) && delinquent == Delinquent(a, m)
  {
    acc, delinquent := a, false;
    var changed := false;
    match a.status {
      case Some(Exiting) =>
        acc, changed := acc.(status := Some(Removed)), true;
      case Some(Jailed) =>
        if m.now >= acc.jailedUntil {
          acc, changed := acc.(status := Some(Candidate)), true;
        }
      case Some(Active) =>
        if acc.liveness.epoch == m.ended {
          match Bps(acc.liveness) {
            case None =>
            case Some(bps) =>
              var strikes := if bps < Uptime(m) then SatAdd(acc.liveness.strikes, 1, U32_MAX) else 0;
              acc, changed := acc.(liveness := acc.liveness.(strikes := strikes)), true;
          }
        }
        if acc.liveness.strikes >= MaxStrikes(m) && !V2(m) {
          var lock := SatAdd(m.now, m.rules.bondLock, U128_MAX);
          acc := acc.(status := Some(Jailed), jailedUntil := SatAdd(m.now, JAIL_SECONDS, U128_MAX),
                      bondUnlockAt := if acc.bondUnlockAt < lock then lock else acc.bondUnlockAt,
                      liveness := acc.liveness.(strikes := 0));
          changed := true;
        } else if acc.liveness.strikes >= MaxStrikes(m) {
          delinquent := true;
        } else if acc.stake.staked < Threshold(acc, m) {
          acc, changed := acc.(status := Some(Probation)), true;
        }
      case _ =>
    }
    if changed {
      acc := Flagged(acc.(statusEpoch := m.epoch));
    }
  }

  method Count(v: seq<Entry>, s: Status) returns (n: nat)
    ensures n == |With(v, s)|
  {
    ghost var seen: set<nat> := {};
    n := 0;
    var i := 0;
    while i < |v|
      invariant i <= |v| && n == |seen|
      invariant forall k :: k in seen <==> 0 <= k < i && Is(v[k].acc, s)
    {
      if v[i].acc.status == Some(s) {
        n, seen := n + 1, seen + {i};
      }
      i := i + 1;
    }
    assert seen == With(v, s);
  }

  method CountOccupied(v: seq<Entry>) returns (n: nat)
    ensures n == |Occupied(v)|
  {
    ghost var seen: set<nat> := {};
    n := 0;
    var i := 0;
    while i < |v|
      invariant i <= |v| && n == |seen|
      invariant forall k :: k in seen <==> 0 <= k < i && (Is(v[k].acc, Active) || Is(v[k].acc, Probation))
    {
      if v[i].acc.status == Some(Active) || v[i].acc.status == Some(Probation) {
        n, seen := n + 1, seen + {i};
      }
      i := i + 1;
    }
    assert seen == Occupied(v);
  }

  method IndicesWith(v: seq<Entry>, s: Status) returns (items: seq<nat>)
    ensures SetOf(items) == With(v, s)
    ensures forall k, l :: 0 <= k < l < |items| ==> items[k] < items[l]
  {
    items := [];
    var i := 0;
    while i < |v|
      invariant i <= |v|
      invariant forall k :: k in items <==> 0 <= k < i && Is(v[k].acc, s)
      invariant forall k, l :: 0 <= k < l < |items| ==> items[k] < items[l]
    {
      if v[i].acc.status == Some(s) {
        assert forall k :: 0 <= k < |items| ==> items[k] in items;
        items := items + [i];
      }
      i := i + 1;
    }
  }

  predicate QueueOrder(v: seq<Entry>, order: seq<nat>) {
    && SetOf(order) == With(v, Approved)
    && forall k, l :: 0 <= k < l < |order| ==> order[k] < |v| && order[l] < |v| && Before(v[order[k]], v[order[l]])
  }

  method Queue(v: seq<Entry>) returns (order: seq<nat>)
    requires Ascending(v)
    ensures QueueOrder(v, order)
    ensures forall k :: 0 <= k < |order| ==> order[k] < |v|
  {
    var keys := seq(|v|, i requires 0 <= i < |v| => SortKey(v[i].acc.registeredAt, 0, v[i].addr));
    var items := IndicesWith(v, Approved);
    ItemsFit(v, Approved, items);
    order := SortIndices(keys, items);
  }

  method ActiveOrder(v: seq<Entry>) returns (order: seq<nat>)
    requires Ascending(v)
    ensures MemberOrder(v, order)
  {
    var keys := seq(|v|, i requires 0 <= i < |v| => SortKey(v[i].acc.registeredAt, v[i].acc.statusEpoch, v[i].addr));
    var items := IndicesWith(v, Active);
    ItemsFit(v, Active, items);
    order := SortIndices(keys, items);
    forall k | 0 <= k < |order|
      ensures Stands(v, order[k], Active)
    {
      assert order[k] in SetOf(order);
    }
    forall i | 0 <= i < |v| && Is(v[i].acc, Active)
      ensures i in order
    {
      assert i in With(v, Active);
    }
  }

  lemma ItemsFit(v: seq<Entry>, s: Status, items: seq<nat>)
    requires SetOf(items) == With(v, s)
    ensures forall k :: 0 <= k < |items| ==> items[k] < |v|
  {
    forall k | 0 <= k < |items|
      ensures items[k] < |v|
    {
      assert items[k] in SetOf(items);
    }
  }

  /** Being among the first of the queue is having fewer approved validators ahead than there are slots. */
  lemma QueueIsFifo(v: seq<Entry>, order: seq<nat>, m: Moment, take: nat)
    requires Ascending(v) && QueueOrder(v, order)
    requires take == if FreeSlots(v, m) < |order| then FreeSlots(v, m) else |order|
    ensures forall i :: 0 <= i < |v| ==> (i in order[..take] <==> Enters(v, i, m))
  {
    forall i | 0 <= i < |v|
      ensures i in order[..take] <==> Enters(v, i, m)
    {
      if i in order[..take] {
        assert i in SetOf(order);
      }
      if Is(v[i].acc, Approved) {
        assert i in SetOf(order);
        var p :| 0 <= p < |order| && order[p] == i;
        AheadIs(v, order, p);
        PlaceInPrefix(order, p, take);
      }
    }
  }

  lemma PlaceInPrefix(order: seq<nat>, p: nat, take: nat)
    requires p < |order| && take <= |order|
    requires forall k, l :: 0 <= k < l < |order| ==> order[k] != order[l]
    ensures order[p] in order[..take] <==> p < take
  {
    if p < take {
      assert order[..take][p] == order[p];
    }
  }

  lemma AheadIs(v: seq<Entry>, order: seq<nat>, p: nat)
    requires Ascending(v) && QueueOrder(v, order) && p < |order| && order[p] < |v|
    ensures |Ahead(v, order[p])| == p
    ensures forall k, l :: 0 <= k < l < |order| ==> order[k] != order[l]
  {
    var s := SetOf(order[..p]);
    forall j | j in Ahead(v, order[p])
      ensures j in s
    {
      assert j in SetOf(order);
      var k :| 0 <= k < |order| && order[k] == j;
      assert k < p;
      assert order[..p][k] == j;
    }
    forall j | j in s
      ensures j in Ahead(v, order[p])
    {
      var k :| 0 <= k < p && order[..p][k] == j;
      assert j in SetOf(order) by { assert order[k] == j; }
    }
    assert s == Ahead(v, order[p]);
    DistinctSize(order[..p]);
  }
}
