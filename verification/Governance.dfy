/** The life of a proposal and of its deposit. */
module Governance {
  import opened Lists
  import opened Tally
  import opened Words

  const REWARD_POOL: nat := 1

  const SHARE_SCALE: nat := 1_000_000_000_000

  datatype Channel = Consensus | Economic

  /** What a proposal asks for, as far as the rules of counting go. */
  datatype Action = Text | Typed(channel: Channel, upgrade: bool)

  datatype Status = Active | Queued | Executed | Rejected | Vetoed

  /** `votesFor` and `votesAgainst` are the weights as voted; the counting at the boundary does not use them. */
  datatype Proposal = Proposal(
    proposer: nat, action: Action, status: Status, executesAt: nat, votingEnds: nat,
    createdAt: nat, votesFor: nat, votesAgainst: nat)

  /** What a proposal counts as at some second. */
  datatype Standing = Stored(status: Status) | Archived | Expired | Succeeded

  datatype Money = Money(deposits: map<nat, nat>, escrow: nat, balances: map<nat, nat>, perShare: nat)

  datatype Registry = Registry(proposals: map<nat, Proposal>, list: seq<nat>, activeCount: nat)

  /** What is worth remembering: deposits taken, acceptances, executions and payouts. */
  datatype Record =
    | Charged(pid: nat, amount: nat)
    | Accepted(pid: nat, epoch: nat, timelock: nat, yes: nat, members: nat, stakersAgree: bool)
    | Ran(pid: nat, epoch: nat)
    | Paid(pid: nat, amount: nat, to: nat)

  /** The limits of the configuration. */
  datatype Limits = Limits(minStake: nat, fee: nat, maxActive: nat, votingSecs: nat, expirySecs: nat)

  datatype Gov = Gov(money: Money, reg: Registry, votes: Votes, stakes: Stakes, log: seq<Record>)

  datatype Rules = Rules(voteCapBps: nat, stakerQuorumBps: nat, timelock: nat)

  /** The epoch, its validator set, the rules in force, and which executions will go through. */
  datatype Env = Env(epoch: nat, members: seq<nat>, rules: Rules, works: set<nat>)

  // ----- money -----

  function DepositOf(m: Money, pid: nat): nat {
    if pid in m.deposits then m.deposits[pid] else 0
  }

  function BalanceOf(m: Money, a: nat): nat {
    if a in m.balances then m.balances[a] else 0
  }

  function Credited(m: Money, a: nat, amount: nat): Money {
    m.(balances := m.balances[a := BalanceOf(m, a) + amount])
  }

  function Debited(m: Money, a: nat, amount: nat): Money
    requires BalanceOf(m, a) >= amount
  {
    m.(balances := m.balances[a := BalanceOf(m, a) - amount])
  }

  function Escrowed(m: Money, pid: nat, amount: nat): Money {
    if amount == 0 then m
    else m.(deposits := m.deposits[pid := DepositOf(m, pid) + amount], escrow := m.escrow + amount)
  }

  /** The reward pool takes the amount; whoever stakes shares in it. */
  function Forfeited(m: Money, totalStaked: nat, amount: nat): Money {
    if amount == 0 then m
    else
      var paid := Credited(m, REWARD_POOL, amount);
      if totalStaked > 0 then paid.(perShare := SatAdd(m.perShare, SatMul(amount, SHARE_SCALE) / totalStaked)) else paid
  }

  function Settled(m: Money, pid: nat, proposer: nat, totalStaked: nat, refund: bool): Money {
    var amount := DepositOf(m, pid);
    if amount == 0 then m
    else
      var open := m.(deposits := m.deposits[pid := 0], escrow := SatSub(m.escrow, amount));
      if refund then Credited(open, proposer, amount) else Forfeited(open, totalStaked, amount)
  }

  function PaidRecord(m: Money, pid: nat, proposer: nat, refund: bool): seq<Record> {
    var amount := DepositOf(m, pid);
    if amount == 0 then [] else [Paid(pid, amount, if refund then proposer else REWARD_POOL)]
  }

  // ----- the register -----

  function Delisted(r: Registry, pid: nat): Registry { r.(list := Without(r.list, pid)) }

  function Listed(r: Registry, pid: nat): Registry {
    if pid in r.list then r else r.(list := r.list + [pid])
  }

  function Terminalized(r: Registry, pid: nat, s: Status): Registry
    requires pid in r.proposals
  {
    Delisted(r.(proposals := r.proposals[pid := r.proposals[pid].(status := s)], activeCount := SatSub(r.activeCount, 1)), pid)
  }

  // ----- one proposal at an epoch boundary -----

  predicate ValidatorsAgree(a: Action, yes: nat, members: nat) {
    if a.Typed? && a.upgrade then 5 * yes >= 4 * members else 3 * yes >= 2 * members
  }

  datatype Verdict = Verdict(accepted: bool, quorum: bool)

  function Judge(g: Gov, env: Env, pid: nat, a: Action): Verdict
    requires a.Typed?
  {
    var yes, voted, n := YesVoices(g.votes, pid, env.members), Voices(g.votes, pid, env.members), |env.members|;
    var agree := ValidatorsAgree(a, yes, n);
    if a.channel.Consensus? then
      Verdict(agree, n > 0 && SatMul(voted, 10_000) >= SatMul(n, env.rules.stakerQuorumBps))
    else
      var s := StakersSay(g.votes, g.stakes, pid, env.rules.voteCapBps, env.rules.stakerQuorumBps);
      Verdict(agree && s.accepted, s.quorum)
  }

  function Paying(g: Gov, pid: nat, refund: bool): Gov
    requires pid in g.reg.proposals
  {
    var who := g.reg.proposals[pid].proposer;
    g.(money := Settled(g.money, pid, who, g.stakes.total, refund),
       log := g.log + PaidRecord(g.money, pid, who, refund))
  }

  function Ending(g: Gov, pid: nat, s: Status): Gov
    requires pid in g.reg.proposals
  {
    g.(reg := Terminalized(g.reg, pid, s))
  }

  function Queueing(g: Gov, env: Env, pid: nat): Gov
    requires pid in g.reg.proposals
  {
    var p := g.reg.proposals[pid];
    var q := p.(status := Queued, executesAt := env.epoch + env.rules.timelock);
    g.(reg := g.reg.(proposals := g.reg.proposals[pid := q]),
       log := g.log + [Accepted(pid, env.epoch, env.rules.timelock, YesVoices(g.votes, pid, env.members), |env.members|,
                                StakersSay(g.votes, g.stakes, pid, env.rules.voteCapBps, env.rules.stakerQuorumBps).accepted)])
  }

  function Processed(g: Gov, env: Env, pid: nat): Gov {
    if pid !in g.reg.proposals then g.(reg := Delisted(g.reg, pid))
    else
      var p := g.reg.proposals[pid];
      match p.status
      case Active =>
        if env.epoch < p.votingEnds then g
        else if p.action.Text? then
          var s := StakersSay(g.votes, g.stakes, pid, env.rules.voteCapBps, env.rules.stakerQuorumBps);
          var paid := Paying(g, pid, s.quorum);
          paid.(reg := Delisted(g.reg, pid))
        else
          var v := Judge(g, env, pid, p.action);
          if v.accepted then Paying(Queueing(g, env, pid), pid, true)
          else Ending(Paying(g, pid, v.quorum), pid, Rejected)
      case Queued =>
        if env.epoch < p.executesAt then g
        else if pid in env.works then
          Ending(g, pid, Executed).(log := g.log + [Ran(pid, env.epoch)])
        else Ending(g, pid, Rejected)
      case _ => g.(reg := Delisted(g.reg, pid))
  }

  function ProcessedAll(g: Gov, env: Env, pids: seq<nat>): Gov {
    if pids == [] then g
    else Processed(ProcessedAll(g, env, pids[..|pids| - 1]), env, pids[|pids| - 1])
  }

  // ----- the other transitions -----

  /** A new proposal; `pid` is the identifier of its transaction, `sound` the verdict of the early checks on its
      payload. */
  datatype Submission = Submission(
    pid: nat, proposer: nat, action: Action, sound: bool, escrowed: bool, votingEnds: nat, createdAt: nat)

  predicate MaySubmit(g: Gov, s: Submission, lim: Limits) {
    && s.pid !in g.reg.proposals
    && StakeOf(g.stakes, s.proposer) >= lim.minStake && BalanceOf(g.money, s.proposer) >= lim.fee
    && g.reg.activeCount < lim.maxActive
    && s.sound
  }

  function Fresh(s: Submission): Proposal {
    Proposal(s.proposer, s.action, Active, 0, s.votingEnds, s.createdAt, 0, 0)
  }

  /** The fee goes into escrow, or straight to the reward pool. */
  function Charge(m: Money, s: Submission, fee: nat): Money
    requires BalanceOf(m, s.proposer) >= fee
  {
    var charged := Debited(m, s.proposer, fee);
    if s.escrowed then Escrowed(charged, s.pid, fee) else Credited(charged, REWARD_POOL, fee)
  }

  function Entered(r: Registry, s: Submission): Registry {
    var n := r.(proposals := r.proposals[s.pid := Fresh(s)], activeCount := r.activeCount + 1);
    if s.action.Typed? || s.escrowed then Listed(n, s.pid) else n
  }

  function Submitted(g: Gov, s: Submission, lim: Limits): Gov
    requires MaySubmit(g, s, lim)
  {
    g.(money := Charge(g.money, s, lim.fee), reg := Entered(g.reg, s), log := g.log + ChargedRecord(s, lim.fee))
  }

  function ChargedRecord(s: Submission, fee: nat): seq<Record> {
    if s.escrowed && fee > 0 then [Charged(s.pid, fee)] else []
  }

  /** Times decide, unless the stored status is one that stays: a stored rejection is not. */
  function StandingAt(p: Proposal, secs: nat, lim: Limits): Standing {
    if p.status == Executed || p.status == Queued || p.status == Vetoed then Stored(p.status)
    else if secs >= SatAdd(p.createdAt, lim.expirySecs, U64_MAX) then Archived
    else if secs < SatAdd(p.createdAt, lim.votingSecs, U64_MAX) then Stored(Active)
    else if p.votesFor == 0 && p.votesAgainst == 0 then Expired
    else if p.votesFor > p.votesAgainst then Succeeded
    else Stored(Rejected)
  }

  predicate MayVote(g: Gov, pid: nat, a: nat, secs: nat, lim: Limits) {
    && pid in g.reg.proposals && StandingAt(g.reg.proposals[pid], secs, lim) == Stored(Active)
    && a !in BallotsOn(g.votes, pid) && StakeOf(g.stakes, a) > 0
  }

  function Weighed(p: Proposal, support: bool, weight: nat): Proposal {
    if support then p.(votesFor := SatAdd(p.votesFor, weight)) else p.(votesAgainst := SatAdd(p.votesAgainst, weight))
  }

  function Voted(g: Gov, pid: nat, a: nat, support: bool): Gov
    requires pid in g.reg.proposals
  {
    var weight := StakeOf(g.stakes, a);
    g.(votes := Recorded(g.votes, pid, a, Ballot(support, weight)),
       reg := g.reg.(proposals := g.reg.proposals[pid := Weighed(g.reg.proposals[pid], support, weight)]))
  }

  predicate MayVeto(g: Gov, pid: nat) {
    && pid in g.reg.proposals
    && g.reg.proposals[pid].action.Typed? && g.reg.proposals[pid].action.channel.Consensus?
    && (g.reg.proposals[pid].status == Active || g.reg.proposals[pid].status == Queued)
  }

  function VetoApplied(g: Gov, pid: nat): Gov
    requires pid in g.reg.proposals
  {
    Ending(Paying(g, pid, false), pid, Vetoed)
  }

  // ----- the object -----

  class GovernanceState {
    const lim: Limits
    var deposits: map<nat, nat>
    var escrow: nat
    var balances: map<nat, nat>
    var perShare: nat
    var proposals: map<nat, Proposal>
    var typedActive: seq<nat>
    var activeCount: nat
    var votes: Votes
    var stakes: Stakes
    ghost var log: seq<Record>

    constructor (limits: Limits, b: map<nat, nat>, s: Stakes)
      ensures lim == limits && MoneyView() == Money(map[], 0, b, 0) && RegView() == Registry(map[], [], 0)
      ensures votes == Votes(map[], map[]) && stakes == s && log == []
    {
      lim := limits;
      deposits, escrow, balances, perShare := map[], 0, b, 0;
      proposals, typedActive, activeCount := map[], [], 0;
      votes, stakes, log := Votes(map[], map[]), s, [];
    }

    function MoneyView(): Money
      reads this`deposits, this`escrow, this`balances, this`perShare
    {
      Money(deposits, escrow, balances, perShare)
    }

    function RegView(): Registry
      reads this`proposals, this`typedActive, this`activeCount
    {
      Registry(proposals, typedActive, activeCount)
    }

    ghost function View(): Gov
      reads this
    {
      Gov(MoneyView(), RegView(), votes, stakes, log)
    }

    method AddBalance(a: nat, amount: nat)
      modifies this`balances
      ensures MoneyView() == Credited(old(MoneyView()), a, amount)
    {
      balances := balances[a := (if a in balances then balances[a] else 0) + amount];
    }

    method EscrowDeposit(pid: nat, amount: nat)
      modifies this`deposits, this`escrow
      ensures MoneyView() == Escrowed(old(MoneyView()), pid, amount)
    {
      if amount == 0 {
        return;
      }
      deposits := deposits[pid := (if pid in deposits then deposits[pid] else 0) + amount];
      escrow := escrow + amount;
    }

    method ForfeitToHevsel(amount: nat)
      modifies this`balances, this`perShare
      ensures MoneyView() == Forfeited(old(MoneyView()), stakes.total, amount)
    {
      if amount == 0 {
        return;
      }
      AddBalance(REWARD_POOL, amount);
      if stakes.total > 0 {
        perShare := SatAdd(perShare, SatMul(amount, SHARE_SCALE) / stakes.total);
      }
    }

    /** A second call for the same proposal does nothing. */
    method SettleDeposit(pid: nat, refund: bool) returns (amount: nat)
      requires pid in proposals
      modifies this`deposits, this`escrow, this`balances, this`perShare, this`log
      ensures amount == DepositOf(old(MoneyView()), pid)
      ensures MoneyView() == Settled(old(MoneyView()), pid, proposals[pid].proposer, stakes.total, refund)
      ensures log == old(log) + PaidRecord(old(MoneyView()), pid, proposals[pid].proposer, refund)
    {
      amount := if pid in deposits then deposits[pid] else 0;
      if amount == 0 {
        return;
      }
      log := log + PaidRecord(MoneyView(), pid, proposals[pid].proposer, refund);
      deposits := deposits[pid := 0];
      escrow := SatSub(escrow, amount);
      if refund {
        AddBalance(proposals[pid].proposer, amount);
      } else {
        ForfeitToHevsel(amount);
      }
    }

    method RemoveTypedActive(pid: nat)
      modifies this`typedActive
      ensures RegView() == Delisted(old(RegView()), pid)
    {
      var kept: seq<nat> := [];
      var i := 0;
      while i < |typedActive|
        invariant i <= |typedActive|
        invariant kept == Without(typedActive[..i], pid)
      {
        assert typedActive[..i + 1][..i] == typedActive[..i];
        if typedActive[i] != pid {
          kept := kept + [typedActive[i]];
        }
        i := i + 1;
      }
      assert typedActive[..i] == typedActive;
      typedActive := kept;
    }

    method Terminalize(pid: nat, s: Status)
      requires pid in proposals
      modifies this`proposals, this`typedActive, this`activeCount
      ensures RegView() == Terminalized(old(RegView()), pid, s)
    {
      proposals := proposals[pid := proposals[pid].(status := s)];
      activeCount := SatSub(activeCount, 1);
      RemoveTypedActive(pid);
    }

    method Verdicts(pid: nat, a: Action, env: Env) returns (v: Verdict)
      requires a.Typed?
      ensures v == Judge(View(), env, pid, a)
    {
      var yes, voted := ValidatorTally(votes, pid, env.members);
      var n := |env.members|;
      var agree := if a.upgrade then 5 * yes >= 4 * n else 3 * yes >= 2 * n;
      match a.channel {
        case Consensus =>
          v := Verdict(agree, n > 0 && SatMul(voted, 10_000) >= SatMul(n, env.rules.stakerQuorumBps));
        case Economic =>
          var s := StakerTally(votes, stakes, pid, env.rules.voteCapBps, env.rules.stakerQuorumBps);
          v := Verdict(agree && s.accepted, s.quorum);
      }
    }

    method Queue(pid: nat, env: Env)
      requires pid in proposals
      modifies this`proposals, this`log
      ensures View() == Queueing(old(View()), env, pid)
    {
      var p := proposals[pid];
      log := log + [Accepted(pid, env.epoch, env.rules.timelock, YesVoices(votes, pid, env.members), |env.members|,
                             StakersSay(votes, stakes, pid, env.rules.voteCapBps, env.rules.stakerQuorumBps).accepted)];
      proposals := proposals[pid := p.(status := Queued, executesAt := env.epoch + env.rules.timelock)];
    }

    method CloseVoting(pid: nat, env: Env)
      requires pid in proposals && proposals[pid].status == Active && env.epoch >= proposals[pid].votingEnds
      modifies this
      ensures View() == Processed(old(View()), env, pid)
    {
      var p := proposals[pid];
      if p.action == Text {
        var s := StakerTally(votes, stakes, pid, env.rules.voteCapBps, env.rules.stakerQuorumBps);
        var _ := SettleDeposit(pid, s.quorum);
        RemoveTypedActive(pid);
        return;
      }
      var v := Verdicts(pid, p.action, env);
      if v.accepted {
        Queue(pid, env);
        var _ := SettleDeposit(pid, true);
      } else {
        var _ := SettleDeposit(pid, v.quorum);
        Terminalize(pid, Rejected);
      }
    }

    method ProcessOne(pid: nat, env: Env)
      modifies this
      ensures View() == Processed(old(View()), env, pid)
    {
      if pid !in proposals {
        RemoveTypedActive(pid);
        return;
      }
      var p := proposals[pid];
      match p.status {
        case Active =>
          if env.epoch >= p.votingEnds {
            CloseVoting(pid, env);
          }
        case Queued =>
          if env.epoch >= p.executesAt {
            if pid in env.works {
              Terminalize(pid, Executed);
              log := log + [Ran(pid, env.epoch)];
            } else {
              Terminalize(pid, Rejected);
            }
          }
        case _ => RemoveTypedActive(pid);
      }
    }

    method ProcessAtEpoch(env: Env)
      modifies this
      ensures View() == ProcessedAll(old(View()), env, old(typedActive))
    {
      var list := typedActive;
      var i := 0;
      while i < |list|
        invariant i <= |list|
        invariant View() == ProcessedAll(old(View()), env, list[..i])
      {
        assert list[..i + 1][..i] == list[..i];
        ProcessOne(list[i], env);
        i := i + 1;
      }
      assert list[..i] == list;
    }

    method ApplyVeto(pid: nat) returns (ok: bool)
      modifies this
      ensures ok == MayVeto(old(View()), pid)
      ensures ok ==> View() == VetoApplied(old(View()), pid)
      ensures !ok ==> View() == old(View())
    {
      if pid !in proposals {
        return false;
      }
      var p := proposals[pid];
      if p.action.Text? || p.action.channel != Consensus {
        return false;
      }
      if p.status != Active && p.status != Queued {
        return false;
      }
      var _ := SettleDeposit(pid, false);
      Terminalize(pid, Vetoed);
      return true;
    }

    method RecordVote(pid: nat, a: nat, support: bool, secs: nat) returns (ok: bool)
      modifies this`votes, this`proposals
      ensures ok == MayVote(old(View()), pid, a, secs, lim)
      ensures View() == if ok then Voted(old(View()), pid, a, support) else old(View())
    {
      if pid !in proposals || StandingAt(proposals[pid], secs, lim) != Stored(Active) {
        return false;
      }
      var weight := StakeOf(stakes, a);
      if a in BallotsOn(votes, pid) || weight == 0 {
        return false;
      }
      var p := proposals[pid];
      if support {
        p := p.(votesFor := SatAdd(p.votesFor, weight));
      } else {
        p := p.(votesAgainst := SatAdd(p.votesAgainst, weight));
      }
      proposals := proposals[pid := p];
      votes := Recorded(votes, pid, a, Ballot(support, weight));
      return true;
    }

    method TakeFee(s: Submission)
      requires BalanceOf(MoneyView(), s.proposer) >= lim.fee
      modifies this`deposits, this`escrow, this`balances, this`log
      ensures MoneyView() == Charge(old(MoneyView()), s, lim.fee)
      ensures log == old(log) + ChargedRecord(s, lim.fee)
    {
      balances := balances[s.proposer := (if s.proposer in balances then balances[s.proposer] else 0) - lim.fee];
      log := log + ChargedRecord(s, lim.fee);
      if s.escrowed {
        EscrowDeposit(s.pid, lim.fee);
      } else {
        AddBalance(REWARD_POOL, lim.fee);
      }
    }

    method Enter(s: Submission)
      modifies this`proposals, this`typedActive, this`activeCount
      ensures RegView() == Entered(old(RegView()), s)
    {
      proposals := proposals[s.pid := Fresh(s)];
      activeCount := activeCount + 1;
      if s.action.Typed? || s.escrowed {
        if s.pid !in typedActive {
          typedActive := typedActive + [s.pid];
        }
      }
    }

    /** A refusal after the fee has been taken is undone with the transaction. */
    method Submit(s: Submission) returns (ok: bool)
      modifies this
      ensures ok == MaySubmit(old(View()), s, lim)
      ensures ok ==> View() == Submitted(old(View()), s, lim)
      ensures !ok ==> View() == old(View())
    {
      var held := if s.proposer in balances then balances[s.proposer] else 0;
      if s.pid in proposals || StakeOf(stakes, s.proposer) < lim.minStake || held < lim.fee {
        return false;
      }
      if activeCount >= lim.maxActive || !s.sound {
        return false;
      }
      TakeFee(s);
      Enter(s);
      return true;
    }
  }
}
