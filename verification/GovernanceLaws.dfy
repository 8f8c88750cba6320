/** What a boundary decides, in numbers of votes. */
module GovernanceLaws {
  import opened Options
  import opened Lists
  import opened Tally
  import opened Governance
  import opened GovernanceRuns
  import opened Words
  import opened Products

  /** The seats of the set whose holder voted, and those whose holder voted in favour. */
  function Voters(v: Votes, pid: nat, members: seq<nat>): set<nat> {
    set i | 0 <= i < |members| && members[i] in BallotsOn(v, pid)
  }

  function Favour(v: Votes, pid: nat, members: seq<nat>): set<nat> {
    set i | 0 <= i < |members| && members[i] in BallotsOn(v, pid) && BallotsOn(v, pid)[members[i]].support
  }

  lemma FavourNext(v: Votes, pid: nat, members: seq<nat>)
    requires members != []
    ensures var n, bs := |members| - 1, BallotsOn(v, pid);
            |Favour(v, pid, members)| ==
            |Favour(v, pid, members[..n])| + if members[n] in bs && bs[members[n]].support then 1 else 0
  {
    var n, bs := |members| - 1, BallotsOn(v, pid);
    var few, all := Favour(v, pid, members[..n]), Favour(v, pid, members);
    assert forall i :: 0 <= i < n ==> members[..n][i] == members[i];
    if members[n] in bs && bs[members[n]].support {
      assert all == few + {n};
    } else {
      assert all == few;
    }
  }

  lemma VotersNext(v: Votes, pid: nat, members: seq<nat>)
    requires members != []
    ensures var n := |members| - 1;
            |Voters(v, pid, members)| == |Voters(v, pid, members[..n])| + if members[n] in BallotsOn(v, pid) then 1 else 0
  {
    var n := |members| - 1;
    var few, all := Voters(v, pid, members[..n]), Voters(v, pid, members);
    assert forall i :: 0 <= i < n ==> members[..n][i] == members[i];
    if members[n] in BallotsOn(v, pid) {
      assert all == few + {n};
    } else {
      assert all == few;
    }
  }

  lemma {:induction false} VoicesAre(v: Votes, pid: nat, members: seq<nat>)
    ensures YesVoices(v, pid, members) == |Favour(v, pid, members)|
    ensures Voices(v, pid, members) == |Voters(v, pid, members)|
  {
    if members != [] {
      VoicesAre(v, pid, members[..|members| - 1]);
      FavourNext(v, pid, members);
      VotersNext(v, pid, members);
    }
  }

  /** The number asked for: four fifths of the set for an upgrade, two thirds for anything else; on the economic
      channel the stakers have to agree as well. */
  ghost predicate Carries(g: Gov, env: Env, pid: nat)
    requires pid in g.reg.proposals && g.reg.proposals[pid].action.Typed?
  {
    var a, yes, n := g.reg.proposals[pid].action, |Favour(g.votes, pid, env.members)|, |env.members|;
    && (a.upgrade ==> 5 * yes >= 4 * n) && (!a.upgrade ==> 3 * yes >= 2 * n)
    && (a.channel.Economic? ==>
          StakersSay(g.votes, g.stakes, pid, env.rules.voteCapBps, env.rules.stakerQuorumBps).accepted)
  }

  /** A proposal whose voting is over is accepted exactly when it carries, and else rejected. */
  lemma Decision(g: Gov, env: Env, pid: nat)
    requires pid in g.reg.proposals && g.reg.proposals[pid].status == Active && g.reg.proposals[pid].action.Typed?
    requires env.epoch >= g.reg.proposals[pid].votingEnds
    ensures var p, h := g.reg.proposals[pid], Processed(g, env, pid);
            && h.reg.proposals == g.reg.proposals[pid :=
                 if Carries(g, env, pid) then p.(status := Queued, executesAt := env.epoch + env.rules.timelock)
                 else p.(status := Rejected)]
            && h.votes == g.votes && h.stakes == g.stakes
  {
    VoicesAre(g.votes, pid, env.members);
  }

  /** Whoever took part enough has the proposer's deposit come back: on the consensus channel the voting members,
      on the economic one the voting stake. */
  ghost predicate Quorate(g: Gov, env: Env, pid: nat)
    requires pid in g.reg.proposals
  {
    var a, n := g.reg.proposals[pid].action, |env.members|;
    if a.Typed? && a.channel.Consensus?
    then n > 0 && |Voters(g.votes, pid, env.members)| * 10_000 >= n * env.rules.stakerQuorumBps
    else StakersSay(g.votes, g.stakes, pid, env.rules.voteCapBps, env.rules.stakerQuorumBps).quorum
  }

  lemma RefundedIff(g: Gov, env: Env, pid: nat)
    requires pid in g.reg.proposals && g.reg.proposals[pid].status == Active
    requires env.epoch >= g.reg.proposals[pid].votingEnds && DepositOf(g.money, pid) > 0
    requires |env.members| * 10_000 <= U128_MAX && env.rules.stakerQuorumBps <= 10_000
    ensures var p, h, amount := g.reg.proposals[pid], Processed(g, env, pid).money, DepositOf(g.money, pid);
            var back := Quorate(g, env, pid) || (p.action.Typed? && Carries(g, env, pid));
            var to := if back then p.proposer else REWARD_POOL;
            && h.balances == g.money.balances[to := BalanceOf(g.money, to) + amount]
            && DepositOf(h, pid) == 0
            && (back ==> h.perShare == g.money.perShare)
  {
    QuorateIs(g, env, pid);
    PaidOut(g.money, pid, g.reg.proposals[pid].proposer, g.stakes.total, true);
    PaidOut(g.money, pid, g.reg.proposals[pid].proposer, g.stakes.total, false);
    if g.reg.proposals[pid].action.Typed? {
      VoicesAre(g.votes, pid, env.members);
    }
  }

  lemma QuorateIs(g: Gov, env: Env, pid: nat)
    requires pid in g.reg.proposals && |env.members| * 10_000 <= U128_MAX && env.rules.stakerQuorumBps <= 10_000
    ensures var a := g.reg.proposals[pid].action; a.Typed? ==> (Judge(g, env, pid, a).quorum <==> Quorate(g, env, pid))
  {
    VoicesAre(g.votes, pid, env.members);
    VoicesBounded(g.votes, pid, env.members);
    Fits(|env.members|, Voices(g.votes, pid, env.members), env.rules.stakerQuorumBps);
  }

  lemma Fits(n: nat, voted: nat, bps: nat)
    requires n * 10_000 <= U128_MAX && bps <= 10_000 && voted <= n
    ensures SatMul(voted, 10_000) == voted * 10_000 && SatMul(n, bps) == n * bps
  {
    Grow(bps, 10_000, n);
  }

  lemma PaidOut(m: Money, pid: nat, proposer: nat, totalStaked: nat, refund: bool)
    requires DepositOf(m, pid) > 0
    ensures var n, to, amount := Settled(m, pid, proposer, totalStaked, refund), if refund then proposer else REWARD_POOL, DepositOf(m, pid);
            && n.balances == m.balances[to := BalanceOf(m, to) + amount] && DepositOf(n, pid) == 0
            && (refund ==> n.perShare == m.perShare)
  {
  }

  /** A forfeited deposit raises what each unit staked has earned by its share, rounded down. */
  lemma ForfeitShared(m: Money, totalStaked: nat, amount: nat)
    requires totalStaked > 0 && amount > 0 && amount * 1_000_000_000_000 <= U128_MAX
    requires m.perShare + amount * 1_000_000_000_000 <= U128_MAX
    ensures var n := Forfeited(m, totalStaked, amount);
            && (n.perShare - m.perShare) * totalStaked <= amount * 1_000_000_000_000 < (n.perShare - m.perShare + 1) * totalStaked
            && BalanceOf(n, REWARD_POOL) == BalanceOf(m, REWARD_POOL) + amount
  {
    var whole := amount * 1_000_000_000_000;
    Quotients(whole, totalStaked);
    Grow(1, totalStaked, whole / totalStaked);
  }

  /** Carrying out: when its delay is over an accepted proposal is executed if its effect goes through, and else
      rejected; before that nothing happens to it. */
  lemma CarryingOut(g: Gov, env: Env, pid: nat)
    requires pid in g.reg.proposals && g.reg.proposals[pid].status == Queued
    ensures Processed(g, env, pid).reg.proposals[pid].status ==
            if env.epoch < g.reg.proposals[pid].executesAt then Queued
            else if pid in env.works then Executed else Rejected
  {
  }

  // ----- submitting, voting, vetoing -----

  /** A new proposal takes the fee, from whoever has stake and fee, while there is room under the ceiling. */
  lemma SubmittedExact(g: Gov, s: Submission, lim: Limits)
    requires s.pid !in g.reg.proposals && s.sound && s.proposer != REWARD_POOL
    ensures var h := Next(g, Submit(s), lim);
            if StakeOf(g.stakes, s.proposer) >= lim.minStake && BalanceOf(g.money, s.proposer) >= lim.fee
               && g.reg.activeCount < lim.maxActive
            then
              && h.reg.proposals == g.reg.proposals[s.pid :=
                   Proposal(s.proposer, s.action, Active, 0, s.votingEnds, s.createdAt, 0, 0)]
              && h.reg.activeCount == g.reg.activeCount + 1
              && BalanceOf(h.money, s.proposer) == BalanceOf(g.money, s.proposer) - lim.fee
              && (s.escrowed ==> DepositOf(h.money, s.pid) == DepositOf(g.money, s.pid) + lim.fee)
              && (!s.escrowed ==> BalanceOf(h.money, REWARD_POOL) == BalanceOf(g.money, REWARD_POOL) + lim.fee)
              && (s.escrowed || s.action.Typed? ==> s.pid in h.reg.list)
            else h == g
  {
  }

  /** A vote counts once per address, at the stake of that moment, while the window is open. */
  lemma VoteExact(g: Gov, pid: nat, a: nat, support: bool, secs: nat, lim: Limits)
    requires pid in g.reg.proposals
    ensures var p, h := g.reg.proposals[pid], Next(g, CastVote(pid, a, support, secs), lim);
            if (p.status == Active || p.status == Rejected)
               && secs < SatAdd(p.createdAt, lim.votingSecs, U64_MAX) && secs < SatAdd(p.createdAt, lim.expirySecs, U64_MAX)
               && a !in BallotsOn(g.votes, pid) && StakeOf(g.stakes, a) > 0
            then
              && BallotsOn(h.votes, pid) == BallotsOn(g.votes, pid)[a := Ballot(support, StakeOf(g.stakes, a))]
              && VotersOn(h.votes, pid) == VotersOn(g.votes, pid) + [a]
              && h.reg.proposals[pid].votesFor == (if support then SatAdd(p.votesFor, StakeOf(g.stakes, a)) else p.votesFor)
              && h.reg.proposals[pid].votesAgainst ==
                 (if support then p.votesAgainst else SatAdd(p.votesAgainst, StakeOf(g.stakes, a)))
              && Decided(h.reg.proposals[pid]) == Decided(p) && h.money == g.money
            else h == g
  {
    VotableIff(g.reg.proposals[pid], secs, lim);
  }

  /** Only open proposals of the consensus channel can be vetoed; the deposit is forfeited. */
  lemma VetoExact(g: Gov, pid: nat, lim: Limits)
    ensures var h := Next(g, Veto(pid), lim);
            if pid in g.reg.proposals
               && g.reg.proposals[pid].action.Typed? && g.reg.proposals[pid].action.channel == Consensus
               && (g.reg.proposals[pid].status == Active || g.reg.proposals[pid].status == Queued)
            then
              && h.reg.proposals == g.reg.proposals[pid := g.reg.proposals[pid].(status := Vetoed)]
              && pid !in h.reg.list && DepositOf(h.money, pid) == 0
              && BalanceOf(h.money, REWARD_POOL) == BalanceOf(g.money, REWARD_POOL) + DepositOf(g.money, pid)
            else h == g
  {
    if pid in g.reg.proposals {
      WithoutIs(g.reg.list, pid);
      if DepositOf(g.money, pid) > 0 {
        PaidOut(g.money, pid, g.reg.proposals[pid].proposer, g.stakes.total, false);
      }
    }
  }

  // ----- over a whole boundary -----

  lemma OthersUntouched(g: Gov, env: Env, q: nat, pid: nat)
    requires pid in g.reg.proposals && q != pid
    ensures var h := Processed(g, env, q);
            pid in h.reg.proposals && h.reg.proposals[pid] == g.reg.proposals[pid] && h.votes == g.votes && h.stakes == g.stakes
  {
  }

  lemma {:induction false} NotAmong(g: Gov, env: Env, pids: seq<nat>, pid: nat)
    requires pid in g.reg.proposals && pid !in pids
    ensures var h := ProcessedAll(g, env, pids);
            pid in h.reg.proposals && h.reg.proposals[pid] == g.reg.proposals[pid] && h.votes == g.votes && h.stakes == g.stakes
  {
    if pids != [] {
      var n := |pids| - 1;
      NotAmong(g, env, pids[..n], pid);
      OthersUntouched(ProcessedAll(g, env, pids[..n]), env, pids[n], pid);
    }
  }

  lemma {:induction false} DecidedAmong(g: Gov, env: Env, pids: seq<nat>, pid: nat)
    requires pid in g.reg.proposals && g.reg.proposals[pid].status == Active && g.reg.proposals[pid].action.Typed?
    requires env.epoch >= g.reg.proposals[pid].votingEnds && pid in pids && Distinct(pids)
    ensures var h, p := ProcessedAll(g, env, pids), g.reg.proposals[pid];
            && pid in h.reg.proposals
            && h.reg.proposals[pid] ==
               if Carries(g, env, pid) then p.(status := Queued, executesAt := env.epoch + env.rules.timelock)
               else p.(status := Rejected)
  {
    var n := |pids| - 1;
    var h := ProcessedAll(g, env, pids[..n]);
    assert pids == pids[..n] + [pids[n]];
    if pids[n] == pid {
      assert pid !in pids[..n] by {
        assert forall i :: 0 <= i < n ==> pids[..n][i] != pid;
      }
      NotAmong(g, env, pids[..n], pid);
      Decision(h, env, pid);
    } else {
      DecidedAmong(g, env, pids[..n], pid);
      OthersUntouched(h, env, pids[n], pid);
    }
  }

  /** The next boundary accepts every open proposal whose voting is over and that carries, and rejects every other
      one, whatever else is on the list. */
  lemma BoundaryDecides(g: Gov, env: Env, lim: Limits, pid: nat)
    requires Inv(g) && pid in g.reg.proposals && g.reg.proposals[pid].status == Active
    requires g.reg.proposals[pid].action.Typed? && env.epoch >= g.reg.proposals[pid].votingEnds
    ensures var h := Next(g, Epoch(env), lim);
            && pid in h.reg.proposals
            && (h.reg.proposals[pid].status == Queued <==> Carries(g, env, pid))
            && (h.reg.proposals[pid].status == Rejected <==> !Carries(g, env, pid))
            && (Carries(g, env, pid) ==> h.reg.proposals[pid].executesAt == env.epoch + env.rules.timelock)
  {
    assert pid in LiveTyped(g.reg);
    DecidedAmong(g, env, g.reg.list, pid);
  }

  /** Whatever waits for its execution or was executed has a record of its acceptance that reaches the number, four
      fifths for an upgrade and two thirds for anything else. */
  lemma AcceptedInNumbers(g: Gov, es: seq<Event>, lim: Limits, pid: nat)
    requires Inv(g) && pid in Run(g, es, lim).reg.proposals
    requires Run(g, es, lim).reg.proposals[pid].status == Queued || Run(g, es, lim).reg.proposals[pid].status == Executed
    ensures var n := Run(g, es, lim);
            var p, a := n.reg.proposals[pid], Acceptance(n.log, pid);
            && a.Some? && p.action.Typed?
            && (p.action.upgrade ==> 5 * a.value.yes >= 4 * a.value.members)
            && (!p.action.upgrade ==> 3 * a.value.yes >= 2 * a.value.members)
            && (p.action.channel.Economic? ==> a.value.stakersAgree)
  {
    RunInvariant(g, es, lim);
    assert Earned(Run(g, es, lim), pid);
  }

  /** And that record holds the votes of the boundary that accepted it. */
  lemma RecordedVotes(g: Gov, env: Env, pid: nat)
    requires pid in g.reg.proposals && g.reg.proposals[pid].status == Active && g.reg.proposals[pid].action.Typed?
    requires env.epoch >= g.reg.proposals[pid].votingEnds && Carries(g, env, pid)
    ensures Acceptance(Processed(g, env, pid).log, pid) ==
            Some(Accepted(pid, env.epoch, env.rules.timelock, |Favour(g.votes, pid, env.members)|, |env.members|,
                          StakersSay(g.votes, g.stakes, pid, env.rules.voteCapBps, env.rules.stakerQuorumBps).accepted))
  {
    VoicesAre(g.votes, pid, env.members);
    var q, who := Queueing(g, env, pid), g.reg.proposals[pid].proposer;
    LogPush(g.log, q.log[|g.log|], pid);
    PaidKeepsAcceptance(q.log, q.money, pid, who, true);
    assert Processed(g, env, pid).log == q.log + PaidRecord(q.money, pid, who, true);
  }

  lemma PaidKeepsAcceptance(log: seq<Record>, m: Money, pid: nat, who: nat, refund: bool)
    ensures Acceptance(log + PaidRecord(m, pid, who, refund), pid) == Acceptance(log, pid)
  {
    var rec := PaidRecord(m, pid, who, refund);
    if rec == [] {
      assert log + rec == log;
    } else {
      LogPush(log, rec[0], pid);
    }
  }
}
