/** The epoch transition in numbers: who gets a strike, who falls, and who rises. */
module EpochLaws {
  import opened Options
  import opened Lifecycle
  import opened EpochSpec
  import opened QuorumMath
  import opened Words

  /** The share of blocks a validator must take part in, in hundredths of a percent; capped from epoch 48 on. */
  function UptimeAt(m: Moment): nat {
    if m.epoch < 48 || m.rules.uptimeBps < 2_100 then m.rules.uptimeBps else 2_100
  }

  /** How many strikes are too many; at least twelve from epoch 48 on. */
  function LimitAt(m: Moment): nat {
    if m.epoch < 48 || m.rules.maxStrikes > 12 then m.rules.maxStrikes else 12
  }

  /** The epoch that ended was measured for this account. */
  predicate Counted(l: Liveness, m: Moment) { l.epoch == m.ended && l.total > 0 }

  predicate Missed(l: Liveness, m: Moment) { l.participated * 10_000 < UptimeAt(m) * l.total }

  /** One more for a measured epoch below the uptime, none after one that reached it, and the same without a
      measurement. */
  function StrikesAfter(a: Account, m: Moment): nat {
    if !Counted(a.liveness, m) then a.liveness.strikes
    else if Missed(a.liveness, m) then Lesser(a.liveness.strikes + 1, 0xFFFF_FFFF)
    else 0
  }

  function Lesser(x: nat, y: nat): nat { if x <= y then x else y }

  lemma BpsMissed(l: Liveness, m: Moment)
    requires l.total > 0 && m.rules.uptimeBps <= 10_000
    ensures Bps(l).value < Uptime(m) <==> Missed(l, m)
  {
    var p, t, u := l.participated * 10_000, l.total, UptimeAt(m);
    assert Uptime(m) == u;
    QuotientBelow(p, t, u);
  }

  lemma QuotientBelow(p: nat, t: nat, u: nat)
    requires t > 0
    ensures p / t < u <==> p < u * t
  {
    var q := p / t;
    assert p == q * t + p % t;
    if q < u {
      assert (q + 1) * t <= u * t;
    } else {
      assert u * t <= q * t;
    }
  }

  /** What the boundary makes of an active account: too many strikes lead to demotion (before epoch 48 to jail), and
      else too little stake to probation. */
  lemma ActiveJudged(a: Account, m: Moment)
    requires Is(a, Active) && m.rules.uptimeBps <= 10_000 && a.liveness.strikes <= 0xFFFF_FFFF
    ensures var c, j := StrikesAfter(a, m), Judged(a, m);
            if c >= LimitAt(m) && m.epoch < 48 then
              && j.status == Some(Jailed) && j.liveness.strikes == 0 && j.statusEpoch == m.epoch
              && j.jailedUntil == SatAdd(m.now, 604_800, U128_MAX)
              && j.bondUnlockAt >= a.bondUnlockAt && j.bondUnlockAt >= SatAdd(m.now, m.rules.bondLock, U128_MAX)
            else
              && j.liveness.strikes == c
              && j.status == (if c < LimitAt(m) && a.stake.staked < Threshold(a, m) then Some(Probation) else Some(Active))
    ensures Delinquent(a, m) <==> m.epoch >= 48 && StrikesAfter(a, m) >= LimitAt(m)
  {
    if a.liveness.total > 0 {
      BpsMissed(a.liveness, m);
    }
  }

  /** All others: an exit is completed, a jail term ends, and nothing else happens. */
  lemma OthersJudged(a: Account, m: Moment)
    requires !Is(a, Active)
    ensures var j := Judged(a, m);
            && (a.status == Some(Exiting) ==> j.status == Some(Removed))
            && (a.status == Some(Jailed) ==> j.status == if m.now >= a.jailedUntil then Some(Candidate) else Some(Jailed))
            && (a.status != Some(Exiting) && (a.status != Some(Jailed) || m.now < a.jailedUntil) ==> j == a)
            && j.liveness == a.liveness
  {
  }

  /** The delinquents are the active accounts with too many strikes. */
  lemma DelinquentsAre(v: seq<Entry>, m: Moment, i: nat)
    requires i < |v| && m.rules.uptimeBps <= 10_000 && v[i].acc.liveness.strikes <= 0xFFFF_FFFF
    ensures i in Delinquents(v, m) <==>
              v[i].acc.status == Some(Active) && m.epoch >= 48 && StrikesAfter(v[i].acc, m) >= LimitAt(m)
  {
    if Is(v[i].acc, Active) {
      ActiveJudged(v[i].acc, m);
    }
  }

  /** Whoever took part enough in the epoch that ended, and has the stake, keeps its place over the whole transition. */
  lemma UptimeSpares(v: seq<Entry>, r: Rotations, m: Moment, i: nat)
    requires m.rules.uptimeBps <= 10_000 && LimitAt(m) > 0
    requires var k := AfterKeys(v, r, m);
             && i < |k| && k[i].acc.status == Some(Active) && k[i].acc.liveness.strikes <= 0xFFFF_FFFF
             && Counted(k[i].acc.liveness, m) && !Missed(k[i].acc.liveness, m)
             && k[i].acc.stake.staked >= Threshold(k[i].acc, m)
    ensures Stands(Final(v, r, m), i, Active) && Final(v, r, m)[i].acc.liveness.strikes == 0
  {
    var k := AfterKeys(v, r, m);
    ActiveJudged(k[i].acc, m);
    DelinquentsAre(k, m, i);
    var p := AfterPenalties(v, r, m);
    assert p[i] == JudgedAll(k, m)[i];
    assert PromotedAll(p, m)[i] == p[i];
  }

  /** Demotion for liveness: with four or more active validators left over, every delinquent goes to probation. */
  lemma DelinquentFalls(v: seq<Entry>, r: Rotations, m: Moment, i: nat)
    requires var k := AfterKeys(v, r, m);
             i in Delinquents(k, m) && |With(JudgedAll(k, m), Active)| >= |Delinquents(k, m)| + 4
    ensures Stands(AfterPenalties(v, r, m), i, Probation) && AfterPenalties(v, r, m)[i].acc.liveness.strikes == 0
    ensures AfterPenalties(v, r, m)[i].acc.statusEpoch == m.epoch
  {
  }

  /** The stake an active or returning validator needs: what was asked when it registered, less the hysteresis,
      rounded down. */
  lemma ThresholdIs(a: Account, m: Moment)
    requires m.rules.hysteresisBps <= 10_000
    requires (if a.stake.snapshot == 0 then m.minStake else a.stake.snapshot) * 10_000 <= U128_MAX
    ensures var asked := if a.stake.snapshot == 0 then m.minStake else a.stake.snapshot;
            && Threshold(a, m) * 10_000 <= asked * (10_000 - m.rules.hysteresisBps) < (Threshold(a, m) + 1) * 10_000
            && Threshold(a, m) <= asked
  {
    var asked := if a.stake.snapshot == 0 then m.minStake else a.stake.snapshot;
    assert asked * (10_000 - m.rules.hysteresisBps) <= asked * 10_000;
  }

  /** Promotion, in numbers. */
  lemma GraduatesIff(a: Account, m: Moment)
    requires m.rules.uptimeBps <= 10_000
    ensures Graduates(a, m) <==>
              && a.status == Some(Probation)
              && (m.epoch >= a.statusEpoch + m.rules.probationEpochs || m.rules.probationEpochs == 0)
              && a.liveness.total > 0 && !Missed(a.liveness, m)
              && a.stake.staked >= Threshold(a, m) && a.key != 0
  {
    if a.liveness.total > 0 {
      BpsMissed(a.liveness, m);
    }
  }

  /** What becomes of everyone on probation, and of everyone admitted. */
  lemma RisenAre(a: Account, m: Moment)
    ensures Promoted(a, m) == if Graduates(a, m) then a.(status := Some(Active), statusEpoch := m.epoch, registered := true) else a
    ensures Admitted(a, m) == a.(status := Some(Probation), statusEpoch := m.epoch, registered := true, liveness := Liveness(0, 0, 0, 0))
    ensures Demoted(a, m).status == Some(Probation) && Demoted(a, m).liveness == Liveness(a.liveness.epoch, 0, 0, 0)
    ensures Demoted(a, m).stake == a.stake && Demoted(a, m).key == a.key
  {
  }

  // ----- keys, stake and release -----

  /** A requested key takes effect at the first boundary after the epoch of the request. */
  lemma RotatedIs(a: Account, r: Option<Rotation>, epoch: nat)
    ensures Rotated(a, r, epoch) == if r.Some? && r.value.requestedEpoch + 1 <= epoch then a.(key := r.value.key) else a
  {
  }

  /** Pending stake joins when its time has come, and counts for rewards from then on. */
  lemma SettledIs(a: Account, m: Moment)
    ensures var b := Settled(a, m);
            if a.stake.pending > 0 && a.stake.pendingAt <= m.now then
              && b.stake.pending == 0 && b.stake.pendingAt == 0
              && b.stake.staked == SatAdd(a.stake.staked, a.stake.pending)
              && (a.stake.pending * m.perShare / 1_000_000_000_000 <= U128_MAX ==>
                    b.stake.rewardDebt == SatAdd(a.stake.rewardDebt, a.stake.pending * m.perShare / 1_000_000_000_000))
              && b.stake.snapshot == a.stake.snapshot && b.key == a.key && b.status == a.status
            else b == a
  {
  }

  /** Once, at epoch 57, whoever is in jail and has stake goes to probation with a clean record. */
  lemma AmnestiedIs(a: Account, m: Moment)
    ensures Amnestied(a, m) ==
            if m.epoch == 57 && a.status == Some(Jailed) && a.stake.staked > 0
            then a.(status := Some(Probation), statusEpoch := 57, registered := true, jailedUntil := 0,
                    liveness := Liveness(0, 0, 0, 0))
            else a
  {
  }

  // ----- admission and the set -----

  lemma {:induction false} Earliest(v: seq<Entry>, s: set<nat>) returns (first: nat)
    requires s != {} && forall i :: i in s ==> i < |v|
    ensures first in s && forall i :: i in s ==> !Before(v[i], v[first])
    decreases |s|
  {
    var x :| x in s;
    if s == {x} {
      first := x;
    } else {
      first := Earliest(v, s - {x});
      if Before(v[x], v[first]) {
        first := x;
      }
    }
  }

  /** Admission uses every free slot: if anyone is left waiting, the set and its waiting room are full. */
  lemma AdmissionFills(v: seq<Entry>, m: Moment, j: nat)
    requires Ascending(v) && |v| < 0x1_0000
    requires j < |v| && AdmittedAll(v, m)[j].acc.status == Some(Approved)
    ensures |Occupied(AdmittedAll(v, m))| >= m.rules.maxValidators
  {
    var entering := set i | 0 <= i < |v| && Enters(v, i, m);
    var waiting := set i | 0 <= i < |v| && Is(v[i].acc, Approved) && !Enters(v, i, m);
    assert j in waiting;
    var first := Earliest(v, waiting);
    assert Ahead(v, first) <= entering;
    SubsetSize(Ahead(v, first), entering);
    OccupiedAfter(v, m, entering);
    FreeSlotsAre(v, m);
    assert Occupied(v) !! entering;
  }

  /** The stored members stand in the order of registration, then of the epoch of their status, then of address. */
  lemma MembersInOrder(v: seq<Entry>, order: seq<nat>, k: nat, l: nat)
    requires MemberOrder(v, order) && k < l < |order|
    ensures var a, b := v[order[k]], v[order[l]];
            && a.acc.status == b.acc.status == Some(Active)
            && Members(v, order)[k] == Member(a.addr, a.acc.key) && Members(v, order)[l] == Member(b.addr, b.acc.key)
            && a.acc.registeredAt <= b.acc.registeredAt
            && (a.acc.registeredAt == b.acc.registeredAt ==> a.acc.statusEpoch <= b.acc.statusEpoch)
            && (a.acc.registeredAt == b.acc.registeredAt && a.acc.statusEpoch == b.acc.statusEpoch ==> a.addr < b.addr)
  {
  }

  /** A new set of four to 101 members, no key and no address twice and none without a key, is stored as it is. */
  lemma ValidMembersIff(members: seq<Member>)
    requires |members| < 0x1_0000
    ensures ValidMembers(members) <==>
              && 4 <= |members| <= 101
              && (forall i :: 0 <= i < |members| ==> members[i].key > 0)
              && forall i, j :: 0 <= i < |members| && 0 <= j < |members| && i != j ==>
                   members[i].key != members[j].key && members[i].addr != members[j].addr
  {
  }

  // ----- over a run of epochs -----

  /** One epoch of an active validator: what was measured, and the boundary at its end. */
  datatype Turn = Turn(epoch: nat, participated: nat, total: nat, m: Moment)

  function Measured(a: Account, t: Turn): Account {
    a.(liveness := Liveness(t.epoch, t.participated, t.total, a.liveness.strikes))
  }

  function RunJudged(a: Account, ts: seq<Turn>): Account {
    if ts == [] then a
    else Judged(Measured(RunJudged(a, ts[..|ts| - 1]), ts[|ts| - 1]), ts[|ts| - 1].m)
  }

  /** Measured epochs missed since the last one that was not, epochs without a measurement aside. */
  function MissedInARow(ts: seq<Turn>): nat {
    if ts == [] then 0
    else
      var t := ts[|ts| - 1];
      var l := Liveness(t.epoch, t.participated, t.total, 0);
      if !Counted(l, t.m) then MissedInARow(ts[..|ts| - 1])
      else if Missed(l, t.m) then MissedInARow(ts[..|ts| - 1]) + 1
      else 0
  }

  /** As long as a validator stays active, its strikes are the epochs it missed in a row; so whoever is demoted for
      liveness has missed at least as many as the rules allow. */
  lemma {:induction false} StrikesAreMisses(a: Account, ts: seq<Turn>)
    requires a.liveness.strikes == 0 && |ts| < 0xFFFF_FFFF
    requires forall n :: 0 <= n <= |ts| ==> Is(RunJudged(a, ts[..n]), Active)
    requires forall n :: 0 <= n < |ts| ==> ts[n].m.rules.uptimeBps <= 10_000
    ensures RunJudged(a, ts).liveness.strikes == MissedInARow(ts) <= |ts|
  {
    if ts == [] {
      assert ts[..0] == ts;
    } else {
      var n := |ts| - 1;
      forall k | 0 <= k <= n
        ensures Is(RunJudged(a, ts[..n][..k]), Active)
      {
        assert ts[..n][..k] == ts[..k];
      }
      assert ts[..|ts|] == ts;
      StrikesAreMisses(a, ts[..n]);
      ActiveJudged(Measured(RunJudged(a, ts[..n]), ts[n]), ts[n].m);
    }
  }

  lemma DemotedHadMissed(a: Account, ts: seq<Turn>, t: Turn)
    requires a.liveness.strikes == 0 && |ts| + 1 < 0xFFFF_FFFF
    requires forall n :: 0 <= n <= |ts| ==> Is(RunJudged(a, ts[..n]), Active)
    requires t.m.rules.uptimeBps <= 10_000 && forall n :: 0 <= n < |ts| ==> ts[n].m.rules.uptimeBps <= 10_000
    ensures Delinquent(Measured(RunJudged(a, ts), t), t.m) <==> t.m.epoch >= 48 && MissedInARow(ts + [t]) >= LimitAt(t.m)
  {
    StrikesAreMisses(a, ts);
    assert ts[..|ts|] == ts && (ts + [t])[..|ts|] == ts;
    ActiveJudged(Measured(RunJudged(a, ts), t), t.m);
  }
}
