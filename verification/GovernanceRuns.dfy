/** What every run of submissions, votes, vetoes and epoch boundaries keeps. */
module GovernanceRuns {
  import opened Options
  import opened Lists
  import opened Sums
  import opened Tally
  import opened Governance
  import opened Words

  // ----- money -----

  function Deposits(m: Money): nat -> int { (p: nat) => DepositOf(m, p) }

  function Balances(m: Money): nat -> int { (a: nat) => BalanceOf(m, a) }

  /** The escrow is the sum of the deposits not yet settled; the depth keeps the sums folded until
      `MoneyIs` opens them. */
  ghost predicate Backed(m: Money, depth: nat := 3)
  {
    if depth > 0 then Backed(m, depth - 1) else m.escrow == Sum(m.deposits.Keys, Deposits(m))
  }

  /** All ZAGROS of accounts and escrow. */
  ghost function Total(m: Money, depth: nat := 3): int
  {
    if depth > 0 then Total(m, depth - 1) else Sum(m.balances.Keys, Balances(m)) + m.escrow
  }

  lemma {:induction false} MoneyIs(m: Money, depth: nat := 3)
    ensures Backed(m, depth) <==> m.escrow == Sum(m.deposits.Keys, Deposits(m))
    ensures Total(m, depth) == Sum(m.balances.Keys, Balances(m)) + m.escrow
    decreases depth
  {
    if depth > 0 {
      MoneyIs(m, depth - 1);
    }
  }

  lemma SetOne(keys: set<nat>, f: nat -> int, g: nat -> int, k: nat)
    requires forall a: nat :: a !in keys ==> f(a) == 0
    requires forall a: nat :: a != k ==> f(a) == g(a)
    ensures Sum(keys + {k}, g) == Sum(keys, f) - f(k) + g(k)
  {
    SumWiden(keys, keys + {k}, f);
    SumChange(keys + {k}, f, g, k);
  }

  lemma CreditTotal(m: Money, a: nat, amount: nat)
    ensures Total(Credited(m, a, amount)) == Total(m) + amount
    ensures Backed(Credited(m, a, amount)) <==> Backed(m)
  {
    var n := Credited(m, a, amount);
    MoneyIs(m);
    MoneyIs(n);
    SetOne(m.balances.Keys, Balances(m), Balances(n), a);
    assert n.balances.Keys == m.balances.Keys + {a};
    SumSame(m.deposits.Keys, Deposits(m), Deposits(n));
  }

  lemma DepositSet(m: Money, pid: nat, amount: nat, escrow: nat)
    requires Backed(m) && escrow == m.escrow - DepositOf(m, pid) + amount
    ensures var n := m.(deposits := m.deposits[pid := amount], escrow := escrow);
            Backed(n) && Total(n) == Total(m) - m.escrow + escrow
  {
    var n := m.(deposits := m.deposits[pid := amount], escrow := escrow);
    assert Backed(n) by {
      MoneyIs(m);
      MoneyIs(n);
      SetOne(m.deposits.Keys, Deposits(m), Deposits(n), pid);
      assert n.deposits.Keys == m.deposits.Keys + {pid};
    }
    assert Total(n) == Total(m) - m.escrow + escrow by {
      MoneyIs(m);
      MoneyIs(n);
      SumSame(m.balances.Keys, Balances(m), Balances(n));
    }
  }

  lemma DepositAtMost(m: Money, pid: nat)
    requires Backed(m)
    ensures DepositOf(m, pid) <= m.escrow
  {
    MoneyIs(m);
    if pid !in m.deposits {
      SumNatural(m.deposits.Keys, Deposits(m));
    } else {
      SumAtLeast(m.deposits.Keys, Deposits(m), pid);
    }
  }

  lemma ShareKeeps(m: Money, share: nat)
    ensures Total(m.(perShare := share)) == Total(m) && (Backed(m.(perShare := share)) <==> Backed(m))
  {
    var n := m.(perShare := share);
    MoneyIs(m);
    MoneyIs(n);
    SumSame(m.balances.Keys, Balances(m), Balances(n));
    SumSame(m.deposits.Keys, Deposits(m), Deposits(n));
  }

  lemma ForfeitTotal(m: Money, totalStaked: nat, amount: nat)
    requires Backed(m)
    ensures var n := Forfeited(m, totalStaked, amount); Backed(n) && Total(n) == Total(m) + amount
  {
    if amount > 0 {
      CreditTotal(m, REWARD_POOL, amount);
      var paid := Credited(m, REWARD_POOL, amount);
      ShareKeeps(paid, SatAdd(m.perShare, if totalStaked > 0 then SatMul(amount, SHARE_SCALE) / totalStaked else 0));
    }
  }

  lemma SettleDeposits(m: Money, pid: nat, proposer: nat, totalStaked: nat, refund: bool)
    ensures var n := Settled(m, pid, proposer, totalStaked, refund);
            && DepositOf(n, pid) == 0
            && forall q :: q != pid ==> DepositOf(n, q) == DepositOf(m, q)
  {
  }

  /** Settling empties one deposit, keeps the others, and moves the amount without loss. */
  lemma SettleMoney(m: Money, pid: nat, proposer: nat, totalStaked: nat, refund: bool)
    requires Backed(m)
    ensures var n := Settled(m, pid, proposer, totalStaked, refund);
            && Backed(n) && Total(n) == Total(m)
            && DepositOf(n, pid) == 0
            && forall q :: q != pid ==> DepositOf(n, q) == DepositOf(m, q)
  {
    SettleDeposits(m, pid, proposer, totalStaked, refund);
    SettleTotals(m, pid, proposer, totalStaked, refund);
  }

  lemma SettleTotals(m: Money, pid: nat, proposer: nat, totalStaked: nat, refund: bool)
    requires Backed(m)
    ensures var n := Settled(m, pid, proposer, totalStaked, refund); Backed(n) && Total(n) == Total(m)
  {
    var amount := DepositOf(m, pid);
    if amount > 0 {
      DepositAtMost(m, pid);
      DepositSet(m, pid, 0, m.escrow - amount);
      var open := m.(deposits := m.deposits[pid := 0], escrow := m.escrow - amount);
      if refund {
        CreditTotal(open, proposer, amount);
      } else {
        ForfeitTotal(open, totalStaked, amount);
      }
    }
  }

  lemma ChargeTotal(m: Money, a: nat, fee: nat)
    requires BalanceOf(m, a) >= fee
    ensures var n := Debited(m, a, fee);
            Total(n) == Total(m) - fee && (Backed(n) <==> Backed(m))
  {
    var n := Debited(m, a, fee);
    MoneyIs(m);
    MoneyIs(n);
    SetOne(m.balances.Keys, Balances(m), Balances(n), a);
    assert n.balances.Keys == m.balances.Keys + {a};
    SumSame(m.deposits.Keys, Deposits(m), Deposits(n));
  }

  lemma ChargeMoney(m: Money, s: Submission, fee: nat)
    requires BalanceOf(m, s.proposer) >= fee && Backed(m)
    ensures Backed(Charge(m, s, fee)) && Total(Charge(m, s, fee)) == Total(m)
  {
    ChargeTotal(m, s.proposer, fee);
    var charged := Debited(m, s.proposer, fee);
    if s.escrowed {
      EscrowTotal(charged, s.pid, fee);
    } else {
      CreditTotal(charged, REWARD_POOL, fee);
    }
  }

  lemma EscrowTotal(m: Money, pid: nat, amount: nat)
    requires Backed(m)
    ensures Backed(Escrowed(m, pid, amount)) && Total(Escrowed(m, pid, amount)) == Total(m) + amount
  {
    if amount > 0 {
      DepositSet(m, pid, DepositOf(m, pid) + amount, m.escrow + amount);
    }
  }

  lemma SubmitDeposits(g: Gov, s: Submission, lim: Limits)
    requires MaySubmit(g, s, lim)
    ensures var n := Submitted(g, s, lim).money;
            && DepositOf(n, s.pid) == DepositOf(g.money, s.pid) + (if s.escrowed then lim.fee else 0)
            && forall q :: q != s.pid ==> DepositOf(n, q) == DepositOf(g.money, q)
  {
  }

  // ----- the register -----

  predicate Open(p: Proposal) { p.status == Active || p.status == Queued }

  predicate Terminal(p: Proposal) { !Open(p) }

  function LiveTyped(r: Registry): set<nat> {
    set p | p in r.proposals && r.proposals[p].action.Typed? && Open(r.proposals[p])
  }

  function Texts(r: Registry): set<nat> {
    set p | p in r.proposals && r.proposals[p].action.Text?
  }

  /** Open typed proposals are on the list; the counter counts them and every text ever submitted. */
  predicate Kept(r: Registry) {
    Shaped(r) && r.activeCount == |LiveTyped(r)| + |Texts(r)|
  }

  predicate Shaped(r: Registry) {
    && (forall p :: p in r.proposals && r.proposals[p].action.Text? ==> r.proposals[p].status == Active)
    && (forall p :: p in LiveTyped(r) ==> p in r.list)
    && Distinct(r.list)
    && (forall p :: p in r.list ==> p in r.proposals)
  }

  lemma DelistedKept(r: Registry, pid: nat)
    requires Kept(r) && pid !in LiveTyped(r)
    ensures Kept(Delisted(r, pid))
  {
    WithoutIs(r.list, pid);
    assert LiveTyped(Delisted(r, pid)) == LiveTyped(r) && Texts(Delisted(r, pid)) == Texts(r);
  }

  /** Ending takes exactly one from the counter. */
  lemma TerminalizedKept(r: Registry, pid: nat, s: Status)
    requires Kept(r) && pid in LiveTyped(r) && s != Active && s != Queued
    ensures var t := Terminalized(r, pid, s);
            && Kept(t) && t.activeCount == r.activeCount - 1 && pid !in t.list
            && t.proposals.Keys == r.proposals.Keys
            && t.proposals[pid] == r.proposals[pid].(status := s)
            && forall q :: q in r.proposals && q != pid ==> t.proposals[q] == r.proposals[q]
  {
    var t := Terminalized(r, pid, s);
    WithoutIs(r.list, pid);
    assert LiveTyped(t) == LiveTyped(r) - {pid} && Texts(t) == Texts(r);
  }

  lemma QueuedKept(r: Registry, pid: nat, at: nat)
    requires Kept(r) && pid in LiveTyped(r)
    ensures Kept(r.(proposals := r.proposals[pid := r.proposals[pid].(status := Queued, executesAt := at)]))
  {
    var t := r.(proposals := r.proposals[pid := r.proposals[pid].(status := Queued, executesAt := at)]);
    assert LiveTyped(t) == LiveTyped(r) && Texts(t) == Texts(r);
  }

  lemma SubmittedKept(g: Gov, s: Submission, lim: Limits)
    requires MaySubmit(g, s, lim) && Kept(g.reg)
    ensures Kept(Submitted(g, s, lim).reg)
  {
    NewKept(g.reg, s.pid, Fresh(s), s.action.Typed? || s.escrowed);
  }

  lemma NewKept(r: Registry, pid: nat, p: Proposal, listed: bool)
    requires Kept(r) && pid !in r.proposals && p.status == Active && (p.action.Typed? ==> listed)
    ensures var n := r.(proposals := r.proposals[pid := p], activeCount := r.activeCount + 1);
            Kept(if listed then Listed(n, pid) else n)
  {
    NewShaped(r, pid, p, r.activeCount + 1, listed);
    NewCounted(r, pid, p, r.activeCount + 1);
  }

  lemma NewCounted(r: Registry, pid: nat, p: Proposal, count: nat)
    requires pid !in r.proposals && p.status == Active
    ensures var n := r.(proposals := r.proposals[pid := p], activeCount := count);
            && |LiveTyped(n)| + |Texts(n)| == |LiveTyped(r)| + |Texts(r)| + 1
            && |LiveTyped(Listed(n, pid))| + |Texts(Listed(n, pid))| == |LiveTyped(r)| + |Texts(r)| + 1
  {
    NewSets(r, pid, p, count);
    assert pid !in LiveTyped(r) && pid !in Texts(r);
  }

  lemma NewShaped(r: Registry, pid: nat, p: Proposal, count: nat, listed: bool)
    requires Shaped(r) && pid !in r.proposals && p.status == Active && (p.action.Typed? ==> listed)
    ensures var n := r.(proposals := r.proposals[pid := p], activeCount := count);
            Shaped(if listed then Listed(n, pid) else n)
  {
    assert pid !in r.list;
    NewSets(r, pid, p, count);
  }

  lemma NewSets(r: Registry, pid: nat, p: Proposal, count: nat)
    requires pid !in r.proposals && p.status == Active
    ensures var n := r.(proposals := r.proposals[pid := p], activeCount := count);
            && LiveTyped(n) == LiveTyped(r) + (if p.action.Typed? then {pid} else {})
            && Texts(n) == Texts(r) + (if p.action.Text? then {pid} else {})
            && LiveTyped(Listed(n, pid)) == LiveTyped(n) && Texts(Listed(n, pid)) == Texts(n)
  {
  }

  // ----- deposits wait only for open voting -----

  predicate Waiting(g: Gov, pid: nat) {
    && pid in g.reg.proposals && g.reg.proposals[pid].status == Active && pid in g.reg.list
  }

  ghost predicate Linked(g: Gov) {
    forall p :: DepositOf(g.money, p) > 0 ==> Waiting(g, p)
  }

  // ----- the log, seen from one proposal -----

  function Front(log: seq<Record>): seq<Record>
    requires log != []
  {
    log[..|log| - 1]
  }

  function ChargedFor(log: seq<Record>, pid: nat): nat {
    if log == [] then 0
    else
      var r := log[|log| - 1];
      ChargedFor(Front(log), pid) + if r.Charged? && r.pid == pid then r.amount else 0
  }

  function PaidFor(log: seq<Record>, pid: nat): nat {
    if log == [] then 0
    else
      var r := log[|log| - 1];
      PaidFor(Front(log), pid) + if r.Paid? && r.pid == pid then r.amount else 0
  }

  function PaidTimes(log: seq<Record>, pid: nat): nat {
    if log == [] then 0
    else
      var r := log[|log| - 1];
      PaidTimes(Front(log), pid) + if r.Paid? && r.pid == pid then 1 else 0
  }

  function PaidTo(log: seq<Record>, pid: nat): set<nat> {
    if log == [] then {}
    else
      var r := log[|log| - 1];
      PaidTo(Front(log), pid) + if r.Paid? && r.pid == pid then {r.to} else {}
  }

  /** The latest acceptance and the latest execution of the proposal. */
  function Acceptance(log: seq<Record>, pid: nat): (r: Option<Record>)
    ensures r.Some? ==> r.value.Accepted?
  {
    if log == [] then None
    else
      var r := log[|log| - 1];
      if r.Accepted? && r.pid == pid then Some(r) else Acceptance(Front(log), pid)
  }

  function RunEpoch(log: seq<Record>, pid: nat): Option<nat> {
    if log == [] then None
    else
      var r := log[|log| - 1];
      if r.Ran? && r.pid == pid then Some(r.epoch) else RunEpoch(Front(log), pid)
  }

  /** What the log says about `pid` when a record is added. */
  lemma LogPush(log: seq<Record>, r: Record, pid: nat)
    ensures var n := log + [r];
            && ChargedFor(n, pid) == ChargedFor(log, pid) + (if r.Charged? && r.pid == pid then r.amount else 0)
            && PaidFor(n, pid) == PaidFor(log, pid) + (if r.Paid? && r.pid == pid then r.amount else 0)
            && PaidTimes(n, pid) == PaidTimes(log, pid) + (if r.Paid? && r.pid == pid then 1 else 0)
            && PaidTo(n, pid) == PaidTo(log, pid) + (if r.Paid? && r.pid == pid then {r.to} else {})
            && Acceptance(n, pid) == (if r.Accepted? && r.pid == pid then Some(r) else Acceptance(log, pid))
            && RunEpoch(n, pid) == (if r.Ran? && r.pid == pid then Some(r.epoch) else RunEpoch(log, pid))
  {
    assert Front(log + [r]) == log;
  }

  // ----- what holds of each proposal -----

  /** What was charged is held or has been paid, once, to the proposer or to the reward pool. */
  predicate Accounted(g: Gov, pid: nat) {
    && ChargedFor(g.log, pid) == DepositOf(g.money, pid) + PaidFor(g.log, pid)
    && PaidTimes(g.log, pid) <= 1
    && (PaidTimes(g.log, pid) == 1 <==> PaidFor(g.log, pid) > 0)
    && (PaidFor(g.log, pid) > 0 ==> DepositOf(g.money, pid) == 0)
    && (pid in g.reg.proposals ==> PaidTo(g.log, pid) <= {g.reg.proposals[pid].proposer, REWARD_POOL})
    && (pid !in g.reg.proposals ==> ChargedFor(g.log, pid) == 0 && PaidTo(g.log, pid) == {})
  }

  /** The counts of the record reach the thresholds of the action. */
  predicate Carried(a: Action, r: Record) {
    && r.Accepted? && a.Typed?
    && ValidatorsAgree(a, r.yes, r.members)
    && (a.channel.Economic? ==> r.stakersAgree)
  }

  /** Whatever waits or ran was accepted by its thresholds, and ran no sooner than the delay set then. */
  predicate Earned(g: Gov, pid: nat) {
    pid in g.reg.proposals ==>
      var p := g.reg.proposals[pid];
      && (p.status == Queued || p.status == Executed ==>
            && Acceptance(g.log, pid).Some?
            && var a := Acceptance(g.log, pid).value;
               Carried(p.action, a) && p.executesAt == a.epoch + a.timelock)
      && (p.status == Executed ==> RunEpoch(g.log, pid).Some? && RunEpoch(g.log, pid).value >= p.executesAt)
  }

  ghost predicate Inv(g: Gov) {
    && Backed(g.money) && Kept(g.reg) && Linked(g)
    && forall p: nat :: Accounted(g, p) && Earned(g, p)
  }

  // ----- the moves -----

  lemma PayingAccounts(g: Gov, pid: nat, refund: bool, q: nat)
    requires Backed(g.money) && pid in g.reg.proposals && Accounted(g, q)
    ensures var n := Paying(g, pid, refund);
            && Accounted(n, q)
            && Acceptance(n.log, q) == Acceptance(g.log, q) && RunEpoch(n.log, q) == RunEpoch(g.log, q)
  {
    var who := g.reg.proposals[pid].proposer;
    SettleMoney(g.money, pid, who, g.stakes.total, refund);
    var rec := PaidRecord(g.money, pid, who, refund);
    if rec == [] {
      assert g.log + rec == g.log;
    } else {
      LogPush(g.log, rec[0], q);
    }
  }

  /** After paying, with any register in which the proposal keeps its proposer. */
  lemma AccountsCarryOver(g: Gov, h: Gov, q: nat)
    requires Accounted(g, q) && h.log == g.log && h.money == g.money
    requires g.reg.proposals.Keys == h.reg.proposals.Keys
    requires q in g.reg.proposals ==> h.reg.proposals[q].proposer == g.reg.proposals[q].proposer
    ensures Accounted(h, q)
  {
  }

  lemma DelistInv(g: Gov, pid: nat)
    requires Inv(g) && pid !in LiveTyped(g.reg) && DepositOf(g.money, pid) == 0
    ensures Inv(g.(reg := Delisted(g.reg, pid)))
  {
    var h := g.(reg := Delisted(g.reg, pid));
    DelistedKept(g.reg, pid);
    WithoutIs(g.reg.list, pid);
    forall q: nat
      ensures Accounted(h, q) && Earned(h, q)
    {
      assert Accounted(g, q) && Earned(g, q);
      AccountsCarryOver(g, h, q);
    }
  }

  /** Paying alone keeps everything: an open vote may lose its deposit. */
  lemma PayInv(g: Gov, pid: nat, refund: bool)
    requires Inv(g) && pid in g.reg.proposals
    ensures Inv(Paying(g, pid, refund)) && DepositOf(Paying(g, pid, refund).money, pid) == 0
    ensures Total(Paying(g, pid, refund).money) == Total(g.money)
  {
    var n := Paying(g, pid, refund);
    SettleMoney(g.money, pid, g.reg.proposals[pid].proposer, g.stakes.total, refund);
    forall q | DepositOf(n.money, q) > 0
      ensures Waiting(n, q)
    {
      assert Waiting(g, q);
    }
    forall q: nat
      ensures Accounted(n, q) && Earned(n, q)
    {
      assert Accounted(g, q) && Earned(g, q);
      PayingAccounts(g, pid, refund, q);
    }
  }

  /** A proposal whose deposit is settled may end, other than by running. */
  lemma EndInv(g: Gov, pid: nat, s: Status)
    requires Inv(g) && pid in LiveTyped(g.reg) && DepositOf(g.money, pid) == 0 && (s == Rejected || s == Vetoed)
    ensures Inv(Ending(g, pid, s)) && Ending(g, pid, s).reg.activeCount == g.reg.activeCount - 1
  {
    var n := Ending(g, pid, s);
    TerminalizedKept(g.reg, pid, s);
    EndLinks(g, pid, s);
    forall q: nat
      ensures Accounted(n, q) && Earned(n, q)
    {
      assert Accounted(g, q) && Earned(g, q);
      AccountsCarryOver(g, n, q);
    }
  }

  lemma EndLinks(g: Gov, pid: nat, s: Status)
    requires Linked(g) && pid in g.reg.proposals && DepositOf(g.money, pid) == 0
    ensures Linked(Ending(g, pid, s))
  {
    var n := Ending(g, pid, s);
    WithoutIs(g.reg.list, pid);
    forall q | DepositOf(n.money, q) > 0
      ensures Waiting(n, q)
    {
      assert Waiting(g, q);
    }
  }

  /** Queued and due, and the execution went through. */
  lemma RunInv(g: Gov, pid: nat, epoch: nat)
    requires Inv(g) && pid in LiveTyped(g.reg)
    requires g.reg.proposals[pid].status == Queued && epoch >= g.reg.proposals[pid].executesAt
    ensures var n := Ending(g, pid, Executed).(log := g.log + [Ran(pid, epoch)]);
            Inv(n) && n.reg.activeCount == g.reg.activeCount - 1
  {
    assert DepositOf(g.money, pid) == 0 by {
      assert DepositOf(g.money, pid) > 0 ==> Waiting(g, pid);
    }
    var e := Ending(g, pid, Executed);
    var n := e.(log := g.log + [Ran(pid, epoch)]);
    TerminalizedKept(g.reg, pid, Executed);
    EndLinks(g, pid, Executed);
    assert forall q :: DepositOf(n.money, q) > 0 ==> Waiting(e, q) == Waiting(n, q);
    forall q: nat
      ensures Accounted(n, q) && Earned(n, q)
    {
      assert Accounted(g, q) && Earned(g, q);
      AccountsCarryOver(g, e, q);
      LogPush(g.log, Ran(pid, epoch), q);
    }
  }

  /** Accepted: the deposit goes back and the delay begins. */
  lemma AcceptInv(g: Gov, env: Env, pid: nat)
    requires Inv(g) && pid in LiveTyped(g.reg) && g.reg.proposals[pid].status == Active
    requires g.reg.proposals[pid].action.Typed? && Judge(g, env, pid, g.reg.proposals[pid].action).accepted
    ensures var n := Paying(Queueing(g, env, pid), pid, true);
            Inv(n) && Total(n.money) == Total(g.money) && n.reg.activeCount == g.reg.activeCount
  {
    var q, n := Queueing(g, env, pid), Paying(Queueing(g, env, pid), pid, true);
    QueuedKept(g.reg, pid, env.epoch + env.rules.timelock);
    SettleMoney(g.money, pid, g.reg.proposals[pid].proposer, g.stakes.total, true);
    AcceptLinks(g, env, pid);
    forall p: nat
      ensures Accounted(n, p) && Earned(n, p)
    {
      AcceptAccounts(g, env, pid, p);
    }
  }

  lemma AcceptLinks(g: Gov, env: Env, pid: nat)
    requires Linked(g) && pid in g.reg.proposals
    ensures Linked(Paying(Queueing(g, env, pid), pid, true))
  {
    var n := Paying(Queueing(g, env, pid), pid, true);
    SettleDeposits(g.money, pid, g.reg.proposals[pid].proposer, g.stakes.total, true);
    forall p | DepositOf(n.money, p) > 0
      ensures Waiting(n, p)
    {
      assert Waiting(g, p);
    }
  }

  lemma AcceptAccounts(g: Gov, env: Env, pid: nat, p: nat)
    requires Inv(g) && pid in g.reg.proposals && g.reg.proposals[pid].status == Active
    requires g.reg.proposals[pid].action.Typed? && Judge(g, env, pid, g.reg.proposals[pid].action).accepted
    ensures var n := Paying(Queueing(g, env, pid), pid, true); Accounted(n, p) && Earned(n, p)
  {
    assert Accounted(g, p) && Earned(g, p);
    QueueingAccounts(g, env, pid, p);
    PayingAccounts(Queueing(g, env, pid), pid, true, p);
  }

  lemma QueueingAccounts(g: Gov, env: Env, pid: nat, p: nat)
    requires pid in g.reg.proposals && Accounted(g, p) && Earned(g, p)
    requires g.reg.proposals[pid].status == Active
    requires g.reg.proposals[pid].action.Typed? && Judge(g, env, pid, g.reg.proposals[pid].action).accepted
    ensures Accounted(Queueing(g, env, pid), p) && Earned(Queueing(g, env, pid), p)
  {
    var q := Queueing(g, env, pid);
    var rec := q.log[|g.log|];
    assert q.log == g.log + [rec];
    LogPush(g.log, rec, p);
  }

  lemma SubmitInv(g: Gov, s: Submission, lim: Limits)
    requires Inv(g) && MaySubmit(g, s, lim)
    ensures var n := Submitted(g, s, lim); Inv(n) && Total(n.money) == Total(g.money)
  {
    var n := Submitted(g, s, lim);
    ChargeMoney(g.money, s, lim.fee);
    SubmitDeposits(g, s, lim);
    SubmittedKept(g, s, lim);
    assert DepositOf(g.money, s.pid) == 0 by {
      assert DepositOf(g.money, s.pid) > 0 ==> Waiting(g, s.pid);
    }
    forall p | DepositOf(n.money, p) > 0
      ensures Waiting(n, p)
    {
      assert p != s.pid ==> Waiting(g, p);
    }
    forall p: nat
      ensures Accounted(n, p) && Earned(n, p)
    {
      assert Accounted(g, p) && Earned(g, p);
      SubmitAccounts(g, s, lim, p);
    }
  }

  lemma SubmitAccounts(g: Gov, s: Submission, lim: Limits, p: nat)
    requires MaySubmit(g, s, lim) && Accounted(g, p) && Earned(g, p) && DepositOf(g.money, s.pid) == 0
    ensures Accounted(Submitted(g, s, lim), p) && Earned(Submitted(g, s, lim), p)
  {
    SubmitDeposits(g, s, lim);
    if ChargedRecord(s, lim.fee) == [] {
      assert g.log + ChargedRecord(s, lim.fee) == g.log;
    } else {
      LogPush(g.log, Charged(s.pid, lim.fee), p);
    }
  }

  // ----- the steps -----

  lemma CloseInv(g: Gov, env: Env, pid: nat)
    requires Inv(g) && pid in g.reg.proposals
    requires g.reg.proposals[pid].status == Active && env.epoch >= g.reg.proposals[pid].votingEnds
    ensures var n := Processed(g, env, pid); Inv(n) && Total(n.money) == Total(g.money)
  {
    var p := g.reg.proposals[pid];
    if p.action.Text? {
      var s := StakersSay(g.votes, g.stakes, pid, env.rules.voteCapBps, env.rules.stakerQuorumBps);
      PayInv(g, pid, s.quorum);
      DelistInv(Paying(g, pid, s.quorum), pid);
    } else if Judge(g, env, pid, p.action).accepted {
      AcceptInv(g, env, pid);
    } else {
      var v := Judge(g, env, pid, p.action);
      PayInv(g, pid, v.quorum);
      EndInv(Paying(g, pid, v.quorum), pid, Rejected);
    }
  }

  lemma ProcessInv(g: Gov, env: Env, pid: nat)
    requires Inv(g)
    ensures var n := Processed(g, env, pid); Inv(n) && Total(n.money) == Total(g.money)
  {
    assert DepositOf(g.money, pid) > 0 ==> Waiting(g, pid);
    if pid !in g.reg.proposals {
      DelistInv(g, pid);
    } else {
      var p := g.reg.proposals[pid];
      match p.status {
        case Active => if env.epoch >= p.votingEnds { CloseInv(g, env, pid); }
        case Queued =>
          if env.epoch >= p.executesAt {
            if pid in env.works {
              RunInv(g, pid, env.epoch);
            } else {
              EndInv(g, pid, Rejected);
            }
          }
        case _ => DelistInv(g, pid);
      }
    }
  }

  lemma {:induction false} EpochInv(g: Gov, env: Env, pids: seq<nat>)
    requires Inv(g)
    ensures var n := ProcessedAll(g, env, pids); Inv(n) && Total(n.money) == Total(g.money)
  {
    if pids != [] {
      EpochInv(g, env, pids[..|pids| - 1]);
      ProcessInv(ProcessedAll(g, env, pids[..|pids| - 1]), env, pids[|pids| - 1]);
    }
  }

  lemma VetoInv(g: Gov, pid: nat)
    requires Inv(g) && MayVeto(g, pid)
    ensures var n := VetoApplied(g, pid); Inv(n) && Total(n.money) == Total(g.money)
  {
    PayInv(g, pid, false);
    EndInv(Paying(g, pid, false), pid, Vetoed);
  }

  // ----- runs -----

  datatype Event =
    | Submit(s: Submission)
    | CastVote(pid: nat, voter: nat, support: bool, secs: nat)
    | Epoch(env: Env)
    | Veto(pid: nat)
    | Restake(stakes: Stakes)

  function Next(g: Gov, e: Event, lim: Limits): Gov {
    match e
    case Submit(s) => if MaySubmit(g, s, lim) then Submitted(g, s, lim) else g
    case CastVote(pid, a, yes, secs) => if MayVote(g, pid, a, secs, lim) then Voted(g, pid, a, yes) else g
    case Epoch(env) => ProcessedAll(g, env, g.reg.list)
    case Veto(pid) => if MayVeto(g, pid) then VetoApplied(g, pid) else g
    case Restake(s) => g.(stakes := s)
  }

  function Run(g: Gov, es: seq<Event>, lim: Limits): Gov {
    if es == [] then g else Next(Run(g, es[..|es| - 1], lim), es[|es| - 1], lim)
  }

  lemma RestakeInv(g: Gov, s: Stakes)
    requires Inv(g)
    ensures Inv(g.(stakes := s))
  {
    var h := g.(stakes := s);
    forall p: nat
      ensures Accounted(h, p) && Earned(h, p)
    {
      assert Accounted(g, p) && Earned(g, p);
    }
    forall p | DepositOf(h.money, p) > 0
      ensures Waiting(h, p)
    {
      assert Waiting(g, p);
    }
  }

  /** A vote changes the two weights of the record, and nothing the rules go by. */
  lemma VoteKept(g: Gov, pid: nat, a: nat, yes: bool)
    requires Kept(g.reg) && pid in g.reg.proposals
    ensures Kept(Voted(g, pid, a, yes).reg)
  {
    var n := Voted(g, pid, a, yes);
    assert LiveTyped(n.reg) == LiveTyped(g.reg) && Texts(n.reg) == Texts(g.reg);
  }

  lemma VoteInv(g: Gov, pid: nat, a: nat, yes: bool)
    requires Inv(g) && pid in g.reg.proposals
    ensures Inv(Voted(g, pid, a, yes))
  {
    var n := Voted(g, pid, a, yes);
    VoteKept(g, pid, a, yes);
    forall p: nat
      ensures Accounted(n, p) && Earned(n, p)
    {
      assert Accounted(g, p) && Earned(g, p);
      AccountsCarryOver(g, n, p);
    }
    forall p | DepositOf(n.money, p) > 0
      ensures Waiting(n, p)
    {
      assert Waiting(g, p);
    }
  }

  lemma NextInv(g: Gov, e: Event, lim: Limits)
    requires Inv(g)
    ensures Inv(Next(g, e, lim)) && Total(Next(g, e, lim).money) == Total(g.money)
  {
    match e {
      case Submit(s) => if MaySubmit(g, s, lim) { SubmitInv(g, s, lim); }
      case CastVote(pid, a, yes, secs) => if MayVote(g, pid, a, secs, lim) { VoteInv(g, pid, a, yes); }
      case Epoch(env) => EpochInv(g, env, g.reg.list);
      case Veto(pid) => if MayVeto(g, pid) { VetoInv(g, pid); }
      case Restake(s) => RestakeInv(g, s);
    }
  }

  /** Over every run: the escrow is the sum of the unsettled deposits, and together with all balances it
      never changes in total; every deposit is held or has been paid once; what ran was accepted and waited. */
  lemma {:induction false} RunInvariant(g: Gov, es: seq<Event>, lim: Limits)
    requires Inv(g)
    ensures Inv(Run(g, es, lim)) && Total(Run(g, es, lim).money) == Total(g.money)
  {
    if es != [] {
      RunInvariant(g, es[..|es| - 1], lim);
      NextInv(Run(g, es[..|es| - 1], lim), es[|es| - 1], lim);
    }
  }

  lemma {:induction false} EpochLowers(g: Gov, env: Env, pids: seq<nat>)
    ensures ProcessedAll(g, env, pids).reg.activeCount <= g.reg.activeCount
  {
    if pids != [] {
      EpochLowers(g, env, pids[..|pids| - 1]);
    }
  }

  /** Over every run the counter stays within its ceiling. */
  lemma {:induction false} CeilingHolds(g: Gov, es: seq<Event>, lim: Limits)
    requires g.reg.activeCount <= lim.maxActive
    ensures Run(g, es, lim).reg.activeCount <= lim.maxActive
  {
    if es != [] {
      var h := Run(g, es[..|es| - 1], lim);
      CeilingHolds(g, es[..|es| - 1], lim);
      match es[|es| - 1] {
        case Epoch(env) => EpochLowers(h, env, h.reg.list);
        case _ =>
      }
    }
  }

  /** Before any proposal: balances and stakes only. */
  function Beginning(b: map<nat, nat>, s: Stakes): Gov {
    Gov(Money(map[], 0, b, 0), Registry(map[], [], 0), Votes(map[], map[]), s, [])
  }

  /** So the invariant holds in every reachable state, and all that was ever in the balances is still there. */
  lemma Reachable(b: map<nat, nat>, s: Stakes, es: seq<Event>, lim: Limits)
    ensures var h := Run(Beginning(b, s), es, lim);
            && Inv(h) && Orderly(h.votes) && h.reg.activeCount <= lim.maxActive
            && Total(h.money) == Sum(b.Keys, Balances(Beginning(b, s).money))
  {
    var g := Beginning(b, s);
    MoneyIs(g.money);
    RunInvariant(g, es, lim);
    VotesStayOrderly(g, es, lim);
    CeilingHolds(g, es, lim);
  }

  // ----- what a reader may conclude -----

  /** Once its voting is over, a deposit has been paid exactly once, in full, to the proposer or the reward pool.
      A text proposal, whose status never changes, is over when it has left the list. */
  lemma EndedIsPaid(g: Gov, pid: nat)
    requires Inv(g) && pid in g.reg.proposals && !Waiting(g, pid) && ChargedFor(g.log, pid) > 0
    ensures PaidTimes(g.log, pid) == 1 && PaidFor(g.log, pid) == ChargedFor(g.log, pid)
    ensures PaidTo(g.log, pid) <= {g.reg.proposals[pid].proposer, REWARD_POOL}
  {
    assert Accounted(g, pid);
    assert DepositOf(g.money, pid) > 0 ==> Waiting(g, pid);
  }

  lemma ProcessedEnds(g: Gov, env: Env, pid: nat)
    requires Inv(g) && pid in g.reg.proposals
    requires g.reg.proposals[pid].status == Active ==> env.epoch >= g.reg.proposals[pid].votingEnds
    ensures !Waiting(Processed(g, env, pid), pid)
  {
    WithoutIs(g.reg.list, pid);
  }

  lemma StaysOver(g: Gov, env: Env, q: nat, pid: nat)
    requires pid in g.reg.proposals && !Waiting(g, pid)
    ensures pid in Processed(g, env, q).reg.proposals && !Waiting(Processed(g, env, q), pid)
  {
    WithoutIs(g.reg.list, q);
  }

  /** The boundary at which its window is over ends the voting on every proposal, texts included. */
  lemma {:induction false} VotingEnds(g: Gov, env: Env, pids: seq<nat>, pid: nat)
    requires Inv(g) && pid in pids && pid in g.reg.proposals
    requires g.reg.proposals[pid].status == Active && env.epoch >= g.reg.proposals[pid].votingEnds && Distinct(pids)
    ensures var n := ProcessedAll(g, env, pids); pid in n.reg.proposals && !Waiting(n, pid)
  {
    var k := |pids| - 1;
    var h := ProcessedAll(g, env, pids[..k]);
    assert pids == pids[..k] + [pids[k]];
    if pids[k] == pid {
      EpochInv(g, env, pids[..k]);
      OneStepPerCall(g, env, pids[..k], pid);
      assert forall i :: 0 <= i < k ==> pids[..k][i] != pid;
      ProcessedEnds(h, env, pid);
    } else {
      VotingEnds(g, env, pids[..k], pid);
      StaysOver(h, env, pids[k], pid);
    }
  }

  /** What ran had been accepted by its thresholds, and the delay set at that time was over. */
  lemma ExecutedWasAccepted(g: Gov, es: seq<Event>, lim: Limits, pid: nat)
    requires Inv(g) && pid in Run(g, es, lim).reg.proposals && Run(g, es, lim).reg.proposals[pid].status == Executed
    ensures var n := Run(g, es, lim);
            var a, ran := Acceptance(n.log, pid), RunEpoch(n.log, pid);
            && a.Some? && ran.Some? && Carried(n.reg.proposals[pid].action, a.value)
            && ran.value >= a.value.epoch + a.value.timelock
  {
    RunInvariant(g, es, lim);
    assert Earned(Run(g, es, lim), pid);
  }

  // ----- what stays -----

  /** The record without its two weights. */
  function Decided(p: Proposal): Proposal { p.(votesFor := 0, votesAgainst := 0) }

  predicate SameEnd(g: Gov, h: Gov, pid: nat) {
    pid in g.reg.proposals && Terminal(g.reg.proposals[pid]) ==>
      pid in h.reg.proposals && Decided(h.reg.proposals[pid]) == Decided(g.reg.proposals[pid])
  }

  /** Processing leaves an ended record as it is. */
  lemma {:induction false} EpochKeepsEnds(g: Gov, env: Env, pids: seq<nat>, pid: nat)
    requires pid in g.reg.proposals && Terminal(g.reg.proposals[pid])
    ensures var h := ProcessedAll(g, env, pids); pid in h.reg.proposals && h.reg.proposals[pid] == g.reg.proposals[pid]
  {
    if pids != [] {
      EpochKeepsEnds(g, env, pids[..|pids| - 1], pid);
      ProcessedKeepsEnd(ProcessedAll(g, env, pids[..|pids| - 1]), env, pids[|pids| - 1], pid);
    }
  }

  lemma ProcessedKeepsEnd(g: Gov, env: Env, q: nat, pid: nat)
    requires pid in g.reg.proposals && Terminal(g.reg.proposals[pid])
    ensures var h := Processed(g, env, q); pid in h.reg.proposals && h.reg.proposals[pid] == g.reg.proposals[pid]
  {
  }

  lemma NextKeepsEnd(g: Gov, e: Event, lim: Limits, pid: nat)
    requires pid in g.reg.proposals && Terminal(g.reg.proposals[pid])
    ensures var h := Next(g, e, lim);
            && pid in h.reg.proposals && Decided(h.reg.proposals[pid]) == Decided(g.reg.proposals[pid])
            && (!(e.CastVote? && e.pid == pid && MayVote(g, pid, e.voter, e.secs, lim)) ==>
                  h.reg.proposals[pid] == g.reg.proposals[pid])
  {
    match e {
      case Epoch(env) => EpochKeepsEnds(g, env, g.reg.list, pid);
      case _ =>
    }
  }

  /** Status, action and schedule of a terminal proposal never change again. */
  lemma {:induction false} TerminalIsFinal(g: Gov, es: seq<Event>, lim: Limits, pid: nat)
    ensures SameEnd(g, Run(g, es, lim), pid)
  {
    if es != [] && pid in g.reg.proposals && Terminal(g.reg.proposals[pid]) {
      TerminalIsFinal(g, es[..|es| - 1], lim, pid);
      NextKeepsEnd(Run(g, es[..|es| - 1], lim), es[|es| - 1], lim, pid);
    }
  }

  /** A proposal is open for votes exactly while its time window is, if it is stored as active, or as rejected. */
  lemma VotableIff(p: Proposal, secs: nat, lim: Limits)
    ensures StandingAt(p, secs, lim) == Stored(Active) <==>
              && (p.status == Active || p.status == Rejected)
              && secs < SatAdd(p.createdAt, lim.votingSecs, U64_MAX) && secs < SatAdd(p.createdAt, lim.expirySecs, U64_MAX)
  {
  }

  /** The whole record of a terminal proposal stays, weights included, unless it was rejected and its time window
      is still open. */
  lemma {:induction false} RecordIsFinal(g: Gov, es: seq<Event>, lim: Limits, pid: nat)
    requires pid in g.reg.proposals && Terminal(g.reg.proposals[pid])
    requires g.reg.proposals[pid].status == Rejected ==>
               forall i :: 0 <= i < |es| && es[i].CastVote? && es[i].pid == pid ==>
                 es[i].secs >= SatAdd(g.reg.proposals[pid].createdAt, lim.votingSecs, U64_MAX)
    ensures var h := Run(g, es, lim); pid in h.reg.proposals && h.reg.proposals[pid] == g.reg.proposals[pid]
  {
    if es != [] {
      var n := |es| - 1;
      assert forall i :: 0 <= i < n ==> es[..n][i] == es[i];
      RecordIsFinal(g, es[..n], lim, pid);
      NextKeepsEnd(Run(g, es[..n], lim), es[n], lim, pid);
      assert es[n] == es[|es| - 1];
    }
  }

  /** Otherwise it does not: a vote on a rejected proposal inside its window is taken and raises a weight. */
  lemma RejectedStillVotable(g: Gov, lim: Limits, pid: nat, a: nat, secs: nat)
    requires pid in g.reg.proposals && g.reg.proposals[pid].status == Rejected
    requires a !in BallotsOn(g.votes, pid) && StakeOf(g.stakes, a) > 0
    requires g.reg.proposals[pid].votesFor < U128_MAX
    ensures Next(g, CastVote(pid, a, true, secs), lim).reg.proposals[pid].votesFor > g.reg.proposals[pid].votesFor
       <==> secs < SatAdd(g.reg.proposals[pid].createdAt, lim.votingSecs, U64_MAX)
            && secs < SatAdd(g.reg.proposals[pid].createdAt, lim.expirySecs, U64_MAX)
  {
    VotableIff(g.reg.proposals[pid], secs, lim);
  }

  lemma RunNext(g: Gov, es: seq<Event>, e: Event, lim: Limits)
    ensures Run(g, es + [e], lim) == Next(Run(g, es, lim), e, lim)
  {
    assert (es + [e])[..|es|] == es;
  }

  /** It happens: submitted, rejected by a boundary at which nobody had voted, and voted for after that. */
  lemma VotedAfterRejection(b: map<nat, nat>, s: Stakes, lim: Limits)
    returns (es: seq<Event>, vote: Event)
    requires s == Stakes(map[7 := 100], 100) && b == map[7 := 10] && lim == Limits(1, 10, 5, 604_800, 2_592_000)
    ensures var before, after := Run(Beginning(b, s), es, lim), Run(Beginning(b, s), es + [vote], lim);
            && 1 in before.reg.proposals && 1 in after.reg.proposals
            && before.reg.proposals[1].status == after.reg.proposals[1].status == Rejected
            && before.reg.proposals[1].votesFor == 0 && after.reg.proposals[1].votesFor == 100
  {
    var env := Env(168, [3, 4, 5, 6], Rules(1_000, 2_000, 1), {});
    var submit := Submit(Submission(1, 7, Typed(Consensus, false), true, true, 168, 1_000));
    vote := CastVote(1, 7, true, 605_000);
    es := [submit] + [Epoch(env)];
    var g := Beginning(b, s);
    var one := Next(g, submit, lim);
    RunNext(g, [], submit, lim);
    assert [] + [submit] == [submit];
    RunNext(g, [submit], Epoch(env), lim);
    RunNext(g, es, vote, lim);
    assert one.reg.list == [1] && [1][..0] == [];
    assert Next(one, Epoch(env), lim) == Processed(ProcessedAll(one, env, []), env, 1);
    UnvotedIsRejected(one, env, 1);
  }

  /** A proposal on the set of validators for which nobody voted ends rejected. */
  lemma UnvotedIsRejected(g: Gov, env: Env, pid: nat)
    requires pid in g.reg.proposals && g.reg.proposals[pid].status == Active
    requires g.reg.proposals[pid].action.Typed? && g.reg.proposals[pid].action.channel.Consensus?
    requires env.epoch >= g.reg.proposals[pid].votingEnds && env.members != [] && BallotsOn(g.votes, pid) == map[]
    ensures var h := Processed(g, env, pid);
            && h.reg.proposals == g.reg.proposals[pid := g.reg.proposals[pid].(status := Rejected)]
            && h.votes == g.votes && h.stakes == g.stakes
  {
    NobodyVoted(g.votes, pid, env.members);
  }

  lemma {:induction false} NobodyVoted(v: Votes, pid: nat, members: seq<nat>)
    requires BallotsOn(v, pid) == map[]
    ensures YesVoices(v, pid, members) == 0 && Voices(v, pid, members) == 0
  {
    if members != [] {
      NobodyVoted(v, pid, members[..|members| - 1]);
    }
  }

  lemma ProcessedOther(g: Gov, env: Env, q: nat, pid: nat)
    requires pid in g.reg.proposals && q != pid
    ensures pid in Processed(g, env, q).reg.proposals && Processed(g, env, q).reg.proposals[pid] == g.reg.proposals[pid]
  {
  }

  lemma ProcessedActive(g: Gov, env: Env, pid: nat)
    requires pid in g.reg.proposals && g.reg.proposals[pid].status == Active
    ensures pid in Processed(g, env, pid).reg.proposals && Processed(g, env, pid).reg.proposals[pid].status != Executed
  {
  }

  /** In one call a proposal takes at most one step: nothing is accepted and carried out at the same boundary. */
  lemma {:induction false} OneStepPerCall(g: Gov, env: Env, pids: seq<nat>, pid: nat)
    requires Distinct(pids) && pid in g.reg.proposals && g.reg.proposals[pid].status == Active
    ensures var n := ProcessedAll(g, env, pids);
            && pid in n.reg.proposals && n.reg.proposals[pid].status != Executed
            && (pid !in pids ==> n.reg.proposals[pid] == g.reg.proposals[pid])
  {
    if pids != [] {
      var k := |pids| - 1;
      var h := ProcessedAll(g, env, pids[..k]);
      OneStepPerCall(g, env, pids[..k], pid);
      assert pids == pids[..k] + [pids[k]];
      if pids[k] == pid {
        assert forall i :: 0 <= i < k ==> pids[..k][i] != pid;
        ProcessedActive(h, env, pid);
      } else {
        ProcessedOther(h, env, pids[k], pid);
      }
    }
  }

  ghost predicate Orderly(v: Votes) {
    forall pid: nat :: Consistent(v, pid)
  }

  lemma {:induction false} EpochKeepsVotes(g: Gov, env: Env, pids: seq<nat>)
    ensures ProcessedAll(g, env, pids).votes == g.votes
  {
    if pids != [] {
      EpochKeepsVotes(g, env, pids[..|pids| - 1]);
    }
  }

  /** Nobody is counted twice: every voter list names each address once. */
  lemma {:induction false} VotesStayOrderly(g: Gov, es: seq<Event>, lim: Limits)
    requires Orderly(g.votes)
    ensures Orderly(Run(g, es, lim).votes)
  {
    if es != [] {
      var h := Run(g, es[..|es| - 1], lim);
      VotesStayOrderly(g, es[..|es| - 1], lim);
      match es[|es| - 1] {
        case CastVote(pid, a, yes, secs) =>
          if MayVote(h, pid, a, secs, lim) {
            RecordedConsistent(h.votes, pid, a, Ballot(yes, StakeOf(h.stakes, a)));
          }
        case Epoch(env) => EpochKeepsVotes(h, env, h.reg.list);
        case _ =>
      }
    }
  }
}
