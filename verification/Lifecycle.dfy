/** What an epoch boundary does to one validator account. */
module Lifecycle {
  import opened Options
  import opened Words

  const MIN_VALIDATORS: nat := 4

  const MAX_VALIDATORS_HARD: nat := 101

  const LIVENESS_V2_EPOCH: nat := 48

  const AMNESTY_EPOCH: nat := 57

  const UPTIME_CAP_BPS: nat := 2_100

  const STRIKES_FLOOR: nat := 12

  const JAIL_SECONDS: nat := 7 * 24 * 60 * 60

  const SHARE_SCALE: nat := 1_000_000_000_000

  datatype Status = Candidate | Approved | Probation | Active | Jailed | Exiting | Removed

  datatype Liveness = Liveness(epoch: nat, participated: nat, total: nat, strikes: nat)

  const NO_LIVENESS: Liveness := Liveness(0, 0, 0, 0)

  datatype Stake = Stake(staked: nat, pending: nat, pendingAt: nat, rewardDebt: nat, snapshot: nat)

  /** Key zero stands for a missing consensus key. */
  datatype Account = Account(
    status: Option<Status>, statusEpoch: nat, registeredAt: nat, key: nat, stake: Stake,
    jailedUntil: nat, bondUnlockAt: nat, liveness: Liveness, registered: bool)

  datatype Rotation = Rotation(key: nat, requestedEpoch: nat)

  datatype Rules = Rules(
    maxValidators: nat, uptimeBps: nat, maxStrikes: nat, probationEpochs: nat, hysteresisBps: nat, bondLock: nat)

  /** The moment of the transition: the clock, the new epoch, the epoch that ended, and the rules in force. */
  datatype Moment = Moment(now: nat, epoch: nat, ended: nat, minStake: nat, perShare: nat, rules: Rules)

  predicate Is(a: Account, s: Status) { a.status == Some(s) }

  function Flagged(a: Account): Account {
    a.(registered := Is(a, Candidate) || Is(a, Approved) || Is(a, Probation) || Is(a, Active))
  }

  function MovedTo(a: Account, s: Status, epoch: nat): Account {
    Flagged(a.(status := Some(s), statusEpoch := epoch))
  }

  // ----- stake and key -----

  predicate StakeDue(a: Account, m: Moment) {
    a.stake.pending != 0 && m.now >= a.stake.pendingAt
  }

  function Owed(stake: nat, perShare: nat): nat {
    var owed := stake * perShare / SHARE_SCALE;
    if owed <= U128_MAX then owed else U128_MAX
  }

  function Settled(a: Account, m: Moment): Account {
    if StakeDue(a, m) then
      var s := a.stake;
      a.(stake := s.(staked := SatAdd(s.staked, s.pending, U128_MAX), pending := 0, pendingAt := 0,
                     rewardDebt := SatAdd(s.rewardDebt, Owed(s.pending, m.perShare), U128_MAX)))
    else a
  }

  predicate RotationDue(r: Option<Rotation>, epoch: nat) {
    r.Some? && r.value.requestedEpoch < epoch
  }

  function Rotated(a: Account, r: Option<Rotation>, epoch: nat): Account {
    if RotationDue(r, epoch) then a.(key := r.value.key) else a
  }

  // ----- status -----

  /** The one-off release of validators jailed by the old rule. */
  predicate Released(a: Account, m: Moment) {
    m.epoch == AMNESTY_EPOCH && Is(a, Jailed) && a.stake.staked > 0
  }

  function Amnestied(a: Account, m: Moment): Account {
    if Released(a, m) then MovedTo(a.(jailedUntil := 0, liveness := NO_LIVENESS), Probation, m.epoch) else a
  }

  predicate V2(m: Moment) { m.epoch >= LIVENESS_V2_EPOCH }

  function Uptime(m: Moment): nat {
    if V2(m) && m.rules.uptimeBps > UPTIME_CAP_BPS then UPTIME_CAP_BPS else m.rules.uptimeBps
  }

  function MaxStrikes(m: Moment): nat {
    if V2(m) && m.rules.maxStrikes < STRIKES_FLOOR then STRIKES_FLOOR else m.rules.maxStrikes
  }

  /** No measurement is not a pass. */
  function Bps(l: Liveness): Option<nat> {
    if l.total == 0 then None
    else
      var bps := l.participated * 10_000 / l.total;
      Some(if bps < 10_000 then bps else 10_000)
  }

  function Threshold(a: Account, m: Moment): nat {
    var base := if a.stake.snapshot == 0 then m.minStake else a.stake.snapshot;
    SatMul(base, SatSub(10_000, m.rules.hysteresisBps)) / 10_000
  }

  predicate Measured(a: Account, m: Moment) {
    a.liveness.epoch == m.ended && Bps(a.liveness).Some?
  }

  /** Only a measurement of the epoch that ended counts: below the threshold adds a strike, otherwise they clear. */
  function Struck(a: Account, m: Moment): Account {
    if !Measured(a, m) then a
    else if Bps(a.liveness).value < Uptime(m) then
      a.(liveness := a.liveness.(strikes := SatAdd(a.liveness.strikes, 1, U32_MAX)))
    else a.(liveness := a.liveness.(strikes := 0))
  }

  predicate OutOfStrikes(a: Account, m: Moment) {
    Struck(a, m).liveness.strikes >= MaxStrikes(m)
  }

  /** A candidate for demotion; under the new rule the penalty itself waits for the breaker. */
  predicate Delinquent(a: Account, m: Moment) {
    Is(a, Active) && OutOfStrikes(a, m) && V2(m)
  }

  function Judged(a: Account, m: Moment): Account {
    if Is(a, Exiting) then MovedTo(a, Removed, m.epoch)
    else if Is(a, Jailed) && m.now >= a.jailedUntil then MovedTo(a, Candidate, m.epoch)
    else if Is(a, Active) then
      var b := Struck(a, m);
      if OutOfStrikes(a, m) && !V2(m) then
        var lock := SatAdd(m.now, m.rules.bondLock, U128_MAX);
        MovedTo(b.(jailedUntil := SatAdd(m.now, JAIL_SECONDS, U128_MAX),
                   bondUnlockAt := if b.bondUnlockAt < lock then lock else b.bondUnlockAt,
                   liveness := b.liveness.(strikes := 0)), Jailed, m.epoch)
      else if !OutOfStrikes(a, m) && b.stake.staked < Threshold(b, m) then MovedTo(b, Probation, m.epoch)
      else if Measured(a, m) then MovedTo(b, Active, m.epoch)
      else b
    else a
  }

  function Demoted(a: Account, m: Moment): Account {
    MovedTo(a.(liveness := Liveness(a.liveness.epoch, 0, 0, 0)), Probation, m.epoch)
  }

  predicate Graduates(a: Account, m: Moment) {
    && Is(a, Probation)
    && SatSub(m.epoch, a.statusEpoch) >= m.rules.probationEpochs
    && Bps(a.liveness).Some? && Bps(a.liveness).value >= Uptime(m)
    && a.stake.staked >= Threshold(a, m) && a.key != 0
  }

  function Promoted(a: Account, m: Moment): Account {
    if Graduates(a, m) then MovedTo(a, Active, m.epoch) else a
  }

  function Admitted(a: Account, m: Moment): Account {
    MovedTo(a.(liveness := NO_LIVENESS), Probation, m.epoch)
  }

  // ----- the objects are updated one at a time -----

  /** Matured stake joins the staked balance; the sum is kept exactly when it fits. */
  lemma SettledKeepsStake(a: Account, m: Moment)
    requires a.stake.staked <= U128_MAX
    ensures Settled(a, m).stake.staked + Settled(a, m).stake.pending == a.stake.staked + a.stake.pending
       <==> !StakeDue(a, m) || a.stake.staked + a.stake.pending <= U128_MAX
  {
  }

  /** Losing Active at a boundary, whether by strikes, by stake or by the old jail, cannot be undone by the
      promotion of the same boundary. */
  lemma FallenStaysDown(a: Account, m: Moment)
    requires Is(a, Active)
    ensures !Is(Judged(a, m), Active) ==> !Graduates(Judged(a, m), m)
    ensures !Graduates(Demoted(Judged(a, m), m), m)
  {
  }
}
