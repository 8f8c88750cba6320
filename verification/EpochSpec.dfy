/** The whole transition over the list of registered validators. */
module EpochSpec {
  import opened Options
  import opened QuorumMath
  import opened Lifecycle
  import opened Words

  datatype Entry = Entry(addr: nat, acc: Account)

  datatype Member = Member(addr: nat, key: nat)

  datatype ActiveSet = ActiveSet(epoch: nat, members: seq<Member>)

  type State = map<nat, Account>

  type Rotations = map<nat, Rotation>

  predicate Ascending(v: seq<Entry>) {
    forall i, j :: 0 <= i < j < |v| ==> v[i].addr < v[j].addr
  }

  predicate SameOrder(v: seq<Entry>, w: seq<Entry>) {
    |w| == |v| && forall i :: 0 <= i < |v| ==> w[i].addr == v[i].addr
  }

  predicate Stands(v: seq<Entry>, i: nat, s: Status) {
    i < |v| && Is(v[i].acc, s)
  }

  function With(v: seq<Entry>, s: Status): set<nat> {
    set i | 0 <= i < |v| && Is(v[i].acc, s)
  }

  function Pending(r: Rotations, a: nat): Option<Rotation> {
    if a in r then Some(r[a]) else None
  }

  // ----- the phases -----

  function SettledAll(v: seq<Entry>, m: Moment): (w: seq<Entry>)
    ensures SameOrder(v, w)
  {
    seq(|v|, i requires 0 <= i < |v| => v[i].(acc := Settled(v[i].acc, m)))
  }

  function RotatedAll(v: seq<Entry>, r: Rotations, m: Moment): (w: seq<Entry>)
    ensures SameOrder(v, w)
  {
    seq(|v|, i requires 0 <= i < |v| => v[i].(acc := Rotated(v[i].acc, Pending(r, v[i].addr), m.epoch)))
  }

  function AmnestiedAll(v: seq<Entry>, m: Moment): (w: seq<Entry>)
    ensures SameOrder(v, w)
  {
    seq(|v|, i requires 0 <= i < |v| => v[i].(acc := Amnestied(v[i].acc, m)))
  }

  function JudgedAll(v: seq<Entry>, m: Moment): (w: seq<Entry>)
    ensures SameOrder(v, w)
  {
    seq(|v|, i requires 0 <= i < |v| => v[i].(acc := Judged(v[i].acc, m)))
  }

  function Delinquents(v: seq<Entry>, m: Moment): set<nat> {
    set i | 0 <= i < |v| && Delinquent(v[i].acc, m)
  }

  /** The breaker: the penalties are carried out only if enough validators stay active. */
  predicate Spared(judged: seq<Entry>, delinquents: set<nat>) {
    SatSub(|With(judged, Active)|, |delinquents|) >= MIN_VALIDATORS
  }

  function DemotedAll(judged: seq<Entry>, delinquents: set<nat>, m: Moment): (w: seq<Entry>)
    ensures SameOrder(judged, w)
  {
    if Spared(judged, delinquents)
    then seq(|judged|, i requires 0 <= i < |judged| =>
               if i in delinquents then judged[i].(acc := Demoted(judged[i].acc, m)) else judged[i])
    else judged
  }

  function PromotedAll(v: seq<Entry>, m: Moment): (w: seq<Entry>)
    ensures SameOrder(v, w)
  {
    seq(|v|, i requires 0 <= i < |v| => v[i].(acc := Promoted(v[i].acc, m)))
  }

  /** First registered, first admitted; the address only breaks ties. */
  predicate Before(a: Entry, b: Entry) {
    a.acc.registeredAt < b.acc.registeredAt || (a.acc.registeredAt == b.acc.registeredAt && a.addr < b.addr)
  }

  function Ahead(v: seq<Entry>, i: nat): set<nat>
    requires i < |v|
  {
    set j | 0 <= j < |v| && Is(v[j].acc, Approved) && Before(v[j], v[i])
  }

  function Occupied(v: seq<Entry>): set<nat> { With(v, Active) + With(v, Probation) }

  /** The count is kept in sixteen bits. */
  function FreeSlots(v: seq<Entry>, m: Moment): nat {
    SatSub(m.rules.maxValidators, |Occupied(v)| % 0x1_0000)
  }

  predicate Enters(v: seq<Entry>, i: nat, m: Moment)
    requires i < |v|
  {
    Is(v[i].acc, Approved) && |Ahead(v, i)| < FreeSlots(v, m)
  }

  function AdmittedAll(v: seq<Entry>, m: Moment): (w: seq<Entry>)
    ensures SameOrder(v, w)
  {
    seq(|v|, i requires 0 <= i < |v| => if Enters(v, i, m) then v[i].(acc := Admitted(v[i].acc, m)) else v[i])
  }

  function AfterKeys(v: seq<Entry>, r: Rotations, m: Moment): (w: seq<Entry>)
    ensures SameOrder(v, w)
  {
    AmnestiedAll(RotatedAll(SettledAll(v, m), r, m), m)
  }

  function AfterPenalties(v: seq<Entry>, r: Rotations, m: Moment): (w: seq<Entry>)
    ensures SameOrder(v, w)
  {
    var k := AfterKeys(v, r, m);
    DemotedAll(JudgedAll(k, m), Delinquents(k, m), m)
  }

  function Final(v: seq<Entry>, r: Rotations, m: Moment): (w: seq<Entry>)
    ensures SameOrder(v, w)
  {
    AdmittedAll(PromotedAll(AfterPenalties(v, r, m), m), m)
  }

  // ----- the new set -----

  /** Proposer order: registration, then the epoch of the status, then the address. */
  predicate Precedes(a: Entry, b: Entry) {
    || a.acc.registeredAt < b.acc.registeredAt
    || (a.acc.registeredAt == b.acc.registeredAt &&
        (a.acc.statusEpoch < b.acc.statusEpoch || (a.acc.statusEpoch == b.acc.statusEpoch && a.addr < b.addr)))
  }

  /** The indices of the active entries, in proposer order. */
  predicate MemberOrder(v: seq<Entry>, order: seq<nat>) {
    && (forall k :: 0 <= k < |order| ==> Stands(v, order[k], Active))
    && (forall i :: 0 <= i < |v| && Is(v[i].acc, Active) ==> i in order)
    && forall k, l :: 0 <= k < l < |order| ==>
         order[k] < |v| && order[l] < |v| && Precedes(v[order[k]], v[order[l]])
  }

  function Members(v: seq<Entry>, order: seq<nat>): (ms: seq<Member>)
    requires forall k :: 0 <= k < |order| ==> order[k] < |v|
    ensures |ms| == |order|
  {
    seq(|order|, k requires 0 <= k < |order| => Member(v[order[k]].addr, v[order[k]].acc.key))
  }

  /** The size as the code sees it, in sixteen bits. */
  predicate Sized(members: seq<Member>) {
    MIN_VALIDATORS <= |members| % 0x1_0000 <= MAX_VALIDATORS_HARD
  }

  predicate ValidMembers(members: seq<Member>) {
    && Sized(members)
    && (forall i, j :: 0 <= i < j < |members| ==> members[i].key != members[j].key && members[i].addr != members[j].addr)
    && forall i :: 0 <= i < |members| ==> members[i].key != 0
  }

  predicate RotatesNow(v: seq<Entry>, r: Rotations, m: Moment, a: nat) {
    RotationDue(Pending(r, a), m.epoch) && exists i :: 0 <= i < |v| && v[i].addr == a
  }

  /** The fallback keeps the old members, with the keys that were rotated at this boundary. */
  function KeptMembers(old_: seq<Member>, v: seq<Entry>, r: Rotations, m: Moment): (ms: seq<Member>)
    ensures |ms| == |old_|
  {
    seq(|old_|, k requires 0 <= k < |old_| =>
      if RotatesNow(v, r, m, old_[k].addr) then old_[k].(key := r[old_[k].addr].key) else old_[k])
  }

  /** The set stored by the transition; `order` is the proposer order of the active entries. */
  function NextSet(old_: ActiveSet, v: seq<Entry>, r: Rotations, m: Moment, order: seq<nat>): ActiveSet
    requires MemberOrder(Final(v, r, m), order)
  {
    var members := Members(Final(v, r, m), order);
    if Sized(members) then ActiveSet(m.epoch, members)
    else ActiveSet(m.epoch, KeptMembers(old_.members, v, r, m))
  }

  // ----- sizes -----

  lemma WithBounded(v: seq<Entry>, s: Status)
    ensures |With(v, s)| <= |v|
  {
    BoundedSize(With(v, s), |v|);
  }

  lemma OrderSize(v: seq<Entry>, order: seq<nat>)
    requires MemberOrder(v, order)
    ensures |order| == |With(v, Active)|
  {
    assert SetOf(order) == With(v, Active);
    DistinctSize(order);
  }

  function SetOf(order: seq<nat>): set<nat> { set i | i in order }

  lemma {:induction false} DistinctSize(order: seq<nat>)
    requires forall k, l :: 0 <= k < l < |order| ==> order[k] != order[l]
    ensures |SetOf(order)| == |order|
  {
    if order != [] {
      var n := |order| - 1;
      DistinctSize(order[..n]);
      assert order[n] !in SetOf(order[..n]);
      assert SetOf(order) == SetOf(order[..n]) + {order[n]} by {
        assert order == order[..n] + [order[n]];
      }
    }
  }

  // ----- the theorems -----

  /** From a valid stored set the transition stores one with a strictly larger epoch and a size between the
      floor and the hard cap. */
  lemma NextSetIsSized(old_: ActiveSet, v: seq<Entry>, r: Rotations, m: Moment, order: seq<nat>)
    requires |v| < 0x1_0000 && |old_.members| < 0x1_0000
    requires m.ended == old_.epoch < m.epoch && Sized(old_.members) && MemberOrder(Final(v, r, m), order)
    ensures var next := NextSet(old_, v, r, m, order);
            next.epoch > old_.epoch && MIN_VALIDATORS <= |next.members| <= MAX_VALIDATORS_HARD
  {
    OrderBounded(Final(v, r, m), order);
  }

  lemma OrderBounded(f: seq<Entry>, order: seq<nat>)
    requires MemberOrder(f, order)
    ensures |order| <= |f|
  {
    OrderSize(f, order);
    WithBounded(f, Active);
  }

  /** Demotion for liveness is all or nothing: either every delinquent is on probation afterwards and at least
      four validators stay active, or none of them has lost its place. */
  lemma DemotionAllOrNone(v: seq<Entry>, r: Rotations, m: Moment)
    ensures var k := AfterKeys(v, r, m);
            var d, p := Delinquents(k, m), AfterPenalties(v, r, m);
            || ((forall i :: i in d ==> i < |p| && Is(p[i].acc, Probation)) && |With(p, Active)| >= MIN_VALIDATORS)
            || (forall i :: i in d ==> i < |p| && Is(p[i].acc, Active))
  {
    var k := AfterKeys(v, r, m);
    DelinquentsActive(k, m);
    DemotedSplit(JudgedAll(k, m), Delinquents(k, m), m);
  }

  lemma DemotedSplit(j: seq<Entry>, d: set<nat>, m: Moment)
    requires d <= With(j, Active)
    ensures var p := DemotedAll(j, d, m);
            || ((forall i :: i in d ==> i < |p| && Is(p[i].acc, Probation)) && |With(p, Active)| >= MIN_VALIDATORS)
            || (forall i :: i in d ==> i < |p| && Is(p[i].acc, Active))
  {
    if Spared(j, d) {
      assert With(DemotedAll(j, d, m), Active) == With(j, Active) - d;
      Difference(With(j, Active), d);
    }
  }

  lemma DelinquentsActive(k: seq<Entry>, m: Moment)
    ensures Delinquents(k, m) <= With(JudgedAll(k, m), Active)
  {
  }

  lemma Difference(a: set<nat>, b: set<nat>)
    requires b <= a
    ensures |a - b| == |a| - |b|
  {
    assert a == (a - b) + b;
  }

  /** A breaker that holds back means carrying out the penalties would have left fewer than four active. */
  lemma BreakerOnlyWhenNeeded(v: seq<Entry>, r: Rotations, m: Moment, i: nat)
    requires var k := AfterKeys(v, r, m); i in Delinquents(k, m) && Stands(AfterPenalties(v, r, m), i, Active)
    ensures var k := AfterKeys(v, r, m);
            |With(JudgedAll(k, m), Active) - Delinquents(k, m)| < MIN_VALIDATORS
  {
    var k := AfterKeys(v, r, m);
    DelinquentsActive(k, m);
    Difference(With(JudgedAll(k, m), Active), Delinquents(k, m));
  }

  /** An account that was active when the penalties began and is not afterwards does not end the transition active. */
  lemma FallenStayDown(v: seq<Entry>, r: Rotations, m: Moment, i: nat)
    requires Stands(AfterKeys(v, r, m), i, Active) && !Stands(AfterPenalties(v, r, m), i, Active)
    ensures !Stands(Final(v, r, m), i, Active)
  {
    var k := AfterKeys(v, r, m);
    FallenStaysDown(k[i].acc, m);
  }

  /** Nobody becomes active except from probation already served and measured. */
  lemma ActiveWasActiveOrProbation(v: seq<Entry>, r: Rotations, m: Moment, i: nat)
    requires Stands(Final(v, r, m), i, Active)
    ensures Stands(AfterPenalties(v, r, m), i, Active)
         || (Stands(AfterPenalties(v, r, m), i, Probation) && Graduates(AfterPenalties(v, r, m)[i].acc, m))
  {
  }

  /** Whoever is admitted was ahead of everyone who still waits. */
  lemma AdmissionIsFifo(v: seq<Entry>, m: Moment, i: nat, j: nat)
    requires i < |v| && j < |v| && Enters(v, i, m) && Is(v[j].acc, Approved) && Before(v[j], v[i])
    ensures Enters(v, j, m)
  {
    assert Ahead(v, j) <= Ahead(v, i);
    SubsetSize(Ahead(v, j), Ahead(v, i));
  }

  lemma {:induction false} AheadDistinct(v: seq<Entry>, s: set<nat>, bound: nat)
    requires Ascending(v)
    requires forall i :: i in s ==> i < |v| && Is(v[i].acc, Approved) && |Ahead(v, i)| < bound
    ensures |s| <= bound
    decreases |s|
  {
    if s != {} {
      var last := Latest(v, s);
      assert s - {last} <= Ahead(v, last) by {
        forall i | i in s && i != last
          ensures i in Ahead(v, last)
        {
          assert v[i].addr < v[last].addr || v[last].addr < v[i].addr;
        }
      }
      SubsetSize(s - {last}, Ahead(v, last));
    }
  }

  /** The entry of `s` that was registered last. */
  lemma {:induction false} Latest(v: seq<Entry>, s: set<nat>) returns (last: nat)
    requires s != {} && forall i :: i in s ==> i < |v|
    ensures last in s && forall i :: i in s ==> !Before(v[last], v[i])
    decreases |s|
  {
    var x :| x in s;
    if s == {x} {
      last := x;
    } else {
      last := Latest(v, s - {x});
      if Before(v[last], v[x]) {
        last := x;
      }
    }
  }

  /** Admissions fill free slots only: occupancy never grows past the maximum. */
  lemma OccupancyBounded(v: seq<Entry>, m: Moment)
    requires Ascending(v) && |v| < 0x1_0000
    ensures var w := AdmittedAll(v, m);
            |Occupied(w)| <= if |Occupied(v)| <= m.rules.maxValidators then m.rules.maxValidators else |Occupied(v)|
  {
    var entering := set i | 0 <= i < |v| && Enters(v, i, m);
    OccupiedAfter(v, m, entering);
    FreeSlotsAre(v, m);
    AheadDistinct(v, entering, FreeSlots(v, m));
    UnionSize(Occupied(v), entering);
  }

  lemma FreeSlotsAre(v: seq<Entry>, m: Moment)
    requires |v| < 0x1_0000
    ensures FreeSlots(v, m) == SatSub(m.rules.maxValidators, |Occupied(v)|)
  {
    BoundedSize(Occupied(v), |v|);
  }

  lemma OccupiedAfter(v: seq<Entry>, m: Moment, entering: set<nat>)
    requires forall i :: i in entering <==> 0 <= i < |v| && Enters(v, i, m)
    ensures Occupied(AdmittedAll(v, m)) == Occupied(v) + entering
  {
    var w := AdmittedAll(v, m);
    forall i | 0 <= i < |v|
      ensures (Is(w[i].acc, Active) || Is(w[i].acc, Probation))
         <==> (Is(v[i].acc, Active) || Is(v[i].acc, Probation) || i in entering)
    {
      if Enters(v, i, m) {
        assert Is(w[i].acc, Probation);
      }
    }
  }

  lemma UnionSize(a: set<nat>, b: set<nat>)
    ensures |a + b| <= |a| + |b|
  {
    assert a + b == a + (b - a);
    SubsetSize(b - a, b);
  }

  /** The member list and the accounts carry the same keys. */
  ghost predicate KeysMatch(members: seq<Member>, s: State) {
    forall k :: 0 <= k < |members| && members[k].addr in s ==> s[members[k].addr].key == members[k].key
  }

  /** The state after the transition: every listed account is replaced by its final value. */
  ghost predicate WrittenBack(before: State, after: State, v: seq<Entry>, f: seq<Entry>) {
    && SameOrder(v, f)
    && (forall i :: 0 <= i < |f| ==> f[i].addr in after && after[f[i].addr] == f[i].acc)
    && (forall a :: a in before ==> a in after)
    && forall a :: a in after && (forall i :: 0 <= i < |v| ==> v[i].addr != a) ==> a in before && after[a] == before[a]
  }

  ghost predicate Mirrors(s: State, v: seq<Entry>) {
    forall i :: 0 <= i < |v| ==> v[i].addr in s && s[v[i].addr] == v[i].acc
  }

  lemma FinalKey(v: seq<Entry>, r: Rotations, m: Moment, i: nat)
    requires i < |v|
    ensures Final(v, r, m)[i].acc.key ==
            if RotationDue(Pending(r, v[i].addr), m.epoch) then r[v[i].addr].key else v[i].acc.key
  {
    var s := SettledAll(v, m);
    var t := RotatedAll(s, r, m);
    assert t[i].acc.key == if RotationDue(Pending(r, v[i].addr), m.epoch) then r[v[i].addr].key else v[i].acc.key;
    var k := AmnestiedAll(t, m);
    assert k[i].acc.key == t[i].acc.key;
    var j := JudgedAll(k, m);
    assert j[i].acc.key == k[i].acc.key;
    var p := AfterPenalties(v, r, m);
    assert p[i].acc.key == j[i].acc.key;
    assert PromotedAll(p, m)[i].acc.key == p[i].acc.key;
  }

  /** Whichever set is stored, the new one or the kept one, each member key is the key of its account. */
  lemma MemberKeysMatch(
      old_: ActiveSet, before: State, after: State, v: seq<Entry>, r: Rotations, m: Moment, order: seq<nat>)
    requires Mirrors(before, v) && Ascending(v) && KeysMatch(old_.members, before)
    requires forall k :: 0 <= k < |old_.members| && old_.members[k].addr in before ==>
               exists i :: 0 <= i < |v| && v[i].addr == old_.members[k].addr
    requires WrittenBack(before, after, v, Final(v, r, m)) && MemberOrder(Final(v, r, m), order)
    ensures KeysMatch(NextSet(old_, v, r, m, order).members, after)
  {
    var f, next := Final(v, r, m), NextSet(old_, v, r, m, order);
    if !Sized(Members(f, order)) {
      forall k | 0 <= k < |next.members| && next.members[k].addr in after
        ensures after[next.members[k].addr].key == next.members[k].key
      {
        KeptKey(old_, before, after, v, r, m, k);
      }
    }
  }

  lemma KeptKey(old_: ActiveSet, before: State, after: State, v: seq<Entry>, r: Rotations, m: Moment, k: nat)
    requires k < |old_.members| && old_.members[k].addr in after
    requires Mirrors(before, v) && KeysMatch(old_.members, before)
    requires old_.members[k].addr in before ==> exists i :: 0 <= i < |v| && v[i].addr == old_.members[k].addr
    requires WrittenBack(before, after, v, Final(v, r, m))
    ensures after[old_.members[k].addr].key == KeptMembers(old_.members, v, r, m)[k].key
  {
    var a := old_.members[k].addr;
    if exists i :: 0 <= i < |v| && v[i].addr == a {
      var i :| 0 <= i < |v| && v[i].addr == a;
      FinalKey(v, r, m, i);
      assert Final(v, r, m)[i].addr == a;
      assert before[a].key == old_.members[k].key;
    }
  }
}
