/** Every run of the mempool's operations, and what the counters are good for. */
module MempoolRuns {
  import opened Options
  import opened Sums
  import opened MempoolSpec
  import opened MempoolQueue
  import opened MempoolMoves
  import opened MempoolTurns
  import opened Words

  /** The operations, block selection being a run of removals; `order` is the order in which the sweep came across
      what it removed. */
  datatype Op =
    | Add(tx: Tx, floor: nat, balance: nat, now: nat)
    | Remove(id: nat)
    | MarkLocal(id: nat, now: nat)
    | Enqueue(tx: Tx, local: bool, fee: nat, balance: nat, now: nat)
    | Admit(raw: Tx, chain: Chain, now: nat)
    | Promote(a: nat, chain: Chain, now: nat)
    | Purge(a: nat, n: nat, chain: Chain, now: nat)
    | Expire(order: seq<nat>, now: nat)

  ghost function Step(s: MemState, cfg: Config, fees: Fees, op: Op): MemState {
    match op
    case Add(tx, floor, balance, now) => s.(mem := Added(s.mem, cfg, tx, floor, balance, now))
    case Remove(id) => s.(mem := Removed(s.mem, id))
    case MarkLocal(id, now) => if id in s.mem.ix.pool then s.(mem := Marked(s.mem, id, now)) else s
    case Enqueue(tx, local, fee, balance, now) =>
      if Queueable(tx, fee, balance) && Room(s.waiting, tx) then s.(waiting := Enqueued(s.waiting, tx, now, local)) else s
    case Admit(raw, chain, now) => AfterAdmission(s, cfg, fees, raw, chain, now)
    case Promote(a, chain, now) => Promotion(s, cfg, fees, a, chain, now)
    case Purge(a, n, chain, now) => Promotion(s.(mem := AfterPurge(s.mem, a, n)), cfg, fees, a, chain, now)
    case Expire(order, now) => MemState(RemovedAll(s.mem, order), Swept(s.waiting, now, cfg.expiry))
  }

  ghost function Run(s: MemState, cfg: Config, fees: Fees, ops: seq<Op>): MemState {
    if ops == [] then s else Step(Run(s, cfg, fees, ops[..|ops| - 1]), cfg, fees, ops[|ops| - 1])
  }

  lemma StepGood(s: MemState, cfg: Config, fees: Fees, op: Op)
    requires Good(s.mem, cfg) && Sound(s.waiting)
    ensures var t := Step(s, cfg, fees, op); Good(t.mem, cfg) && Sound(t.waiting)
  {
    match op
    case Add(tx, floor, balance, now) => AddedGood(s.mem, cfg, tx, floor, balance, now);
    case Remove(id) => RemovedGood(s.mem, cfg, id);
    case MarkLocal(id, now) =>
      if id in s.mem.ix.pool {
        MarkedGood(s.mem, cfg, id, now);
      }
    case Enqueue(tx, local, fee, balance, now) =>
      if Room(s.waiting, tx) {
        EnqueuedSound(s.waiting, tx, now, local);
      }
    case Admit(raw, chain, now) => AdmissionKeeps(s, cfg, fees, raw, chain, now);
    case Promote(a, chain, now) => PromotionKeeps(s, cfg, fees, a, chain, now);
    case Purge(a, n, chain, now) =>
      PurgeKeeps(s.mem, cfg, a, n);
      PromotionKeeps(s.(mem := AfterPurge(s.mem, a, n)), cfg, fees, a, chain, now);
    case Expire(order, now) =>
      RemovedAllGood(s.mem, cfg, order);
      SweptSound(s.waiting, now, cfg.expiry);
  }

  /** Over every run the companion indexes agree with the pool, the limits hold, and the queue is counted exactly. */
  lemma {:induction false} RunGood(s: MemState, cfg: Config, fees: Fees, ops: seq<Op>)
    requires Good(s.mem, cfg) && Sound(s.waiting)
    ensures var t := Run(s, cfg, fees, ops); Good(t.mem, cfg) && Sound(t.waiting)
  {
    if ops != [] {
      RunGood(s, cfg, fees, ops[..|ops| - 1]);
      StepGood(Run(s, cfg, fees, ops[..|ops| - 1]), cfg, fees, ops[|ops| - 1]);
    }
  }

  /** After any run, each counter is the number or the sum it stands for. */
  lemma CountersExact(s: MemState, cfg: Config, fees: Fees, ops: seq<Op>, a: nat)
    requires Good(s.mem, cfg) && Sound(s.waiting)
    ensures var t := Run(s, cfg, fees, ops);
            var n := t.mem;
            && n.ix.count == |n.ix.pool| <= cfg.capacity
            && n.ix.bytes == Sum(n.ix.pool.Keys, SizeIn(n.ix.pool)) <= cfg.maxBytes
            && At(n.ledger.perAddress, a) == |From(n.ix.pool, a)|
            && (cfg.bridge != Some(a) ==> At(n.ledger.pending, a) == CostFrom(n.ix.pool, a))
            && At(n.ledger.pending, a) <= ReservedFrom(n.ix.pool, cfg.bridge, a)
            && t.waiting.total == Nested(t.waiting.queued) <= MAX_QUEUED_TOTAL
  {
    var t := Run(s, cfg, fees, ops);
    RunGood(s, cfg, fees, ops);
    GoodIs(t.mem, cfg);
    MeasuredIs(t.mem.ix);
    BalancedIs(t.mem.ledger, t.mem.ix.pool, cfg.bridge, a);
    TalliedIs(t.waiting);
  }

  /** After any run, no two pooled transactions share a sender and a nonce, whatever the letter case. */
  lemma NoncesDistinct(s: MemState, cfg: Config, fees: Fees, ops: seq<Op>, i: nat, k: nat)
    requires Good(s.mem, cfg) && Sound(s.waiting)
    requires var pool := Run(s, cfg, fees, ops).mem.ix.pool;
             i in pool && k in pool && Canon(pool[i]) == Canon(pool[k]) && pool[i].nonce == pool[k].nonce
    ensures i == k
  {
    RunGood(s, cfg, fees, ops);
    GoodId(Run(s, cfg, fees, ops).mem, cfg, i);
    GoodId(Run(s, cfg, fees, ops).mem, cfg, k);
  }

  // ----- the bridge authority -----

  /** By how much what is held for `a` falls below what its transactions reserved. */
  ghost function Short(m: Mem, cfg: Config, a: nat): int {
    ReservedFrom(m.ix.pool, cfg.bridge, a) - At(m.ledger.pending, a)
  }

  ghost predicate HeldExactly(m: Mem, cfg: Config, a: nat) { Short(m, cfg, a) == 0 }

  /** What the exempt mints of `a` in the pool would cost; they reserved none of it. */
  ghost function Exempted(m: Mem, cfg: Config, a: nat): int {
    CostFrom(m.ix.pool, a) - ReservedFrom(m.ix.pool, cfg.bridge, a)
  }

  /** From `m` to `n` by removals: exempt mints give back a cost that was never held, until nothing is. */
  ghost predicate Drained(m: Mem, n: Mem, cfg: Config, a: nat) {
    && 0 <= ReservedFrom(n.ix.pool, cfg.bridge, a) <= ReservedFrom(m.ix.pool, cfg.bridge, a)
    && 0 <= Exempted(n, cfg, a) <= Exempted(m, cfg, a)
    && Short(n, cfg, a) ==
         Lesser(Short(m, cfg, a) + Exempted(m, cfg, a) - Exempted(n, cfg, a), ReservedFrom(n.ix.pool, cfg.bridge, a))
  }

  function Lesser(x: int, y: int): int { if x <= y then x else y }

  /** What is accepted can be paid for together with everything its sender has reserved, as far as that is held; a
      transaction that reserves nothing needs nothing. */
  lemma AcceptedIsAffordable(m: Mem, cfg: Config, tx: Tx, floor: nat, balance: nat, now: nat)
    requires Good(m, cfg) && Accepts(m, cfg, tx, floor, balance)
    ensures var a, n := Canon(tx), Added(m, cfg, tx, floor, balance, now);
            && (ReservedFrom(n.ix.pool, cfg.bridge, a) <= balance + Short(m, cfg, a) || Reserve(tx, cfg.bridge) == 0)
            && (cfg.bridge != Some(a) ==> CostFrom(n.ix.pool, a) <= balance || Cost(tx) == 0)
  {
    AcceptedFits(m, cfg, tx, floor, balance);
    AddedPool(m, cfg, tx, floor, balance, now);
    GoodIs(m, cfg);
    BalancedIs(m.ledger, m.ix.pool, cfg.bridge, Canon(tx));
    FromInsert(m.ix.pool, cfg.bridge, tx, Canon(tx));
  }

  lemma AcceptedFits(m: Mem, cfg: Config, tx: Tx, floor: nat, balance: nat)
    requires Accepts(m, cfg, tx, floor, balance)
    ensures tx.id !in m.ix.pool && Reserve(tx, cfg.bridge) <= SatSub(balance, At(m.ledger.pending, Canon(tx)))
  {
    AcceptsIs(m, cfg, tx, floor, balance);
  }

  lemma AddedPool(m: Mem, cfg: Config, tx: Tx, floor: nat, balance: nat, now: nat)
    requires Accepts(m, cfg, tx, floor, balance)
    ensures Added(m, cfg, tx, floor, balance, now).ix.pool == m.ix.pool[tx.id := tx]
  {
    AddedEffect(m, cfg, tx, floor, balance, now);
  }

  lemma AddedShort(m: Mem, cfg: Config, a: nat, tx: Tx, floor: nat, balance: nat, now: nat)
    ensures Short(Added(m, cfg, tx, floor, balance, now), cfg, a) == Short(m, cfg, a)
  {
    AddedIs(m, cfg, tx, floor, balance, now);
    AcceptsIs(m, cfg, tx, floor, balance);
    AddedEffect(m, cfg, tx, floor, balance, now);
    if Accepts(m, cfg, tx, floor, balance) {
      FromInsert(m.ix.pool, cfg.bridge, tx, a);
      RaisedAt(m.ledger, tx, Reserve(tx, cfg.bridge), a);
    }
  }

  lemma Unchanged(m: Mem, cfg: Config, a: nat)
    ensures Drained(m, m, cfg, a)
  {
    var pool := m.ix.pool;
    SumNatural(From(pool, a), ReserveIn(pool, cfg.bridge));
    SumBelow(From(pool, a), ReserveIn(pool, cfg.bridge), CostIn(pool));
  }

  lemma RemovedAmounts(m: Mem, cfg: Config, a: nat, id: nat)
    requires Good(m, cfg) && id in m.ix.pool
    ensures var n, tx := Removed(m, id), m.ix.pool[id];
            var mine := Canon(tx) == a;
            && CostFrom(n.ix.pool, a) == CostFrom(m.ix.pool, a) - (if mine then Cost(tx) else 0)
            && ReservedFrom(n.ix.pool, cfg.bridge, a)
               == ReservedFrom(m.ix.pool, cfg.bridge, a) - (if mine then Reserve(tx, cfg.bridge) else 0)
            && At(n.ledger.pending, a) == if mine then SatSub(At(m.ledger.pending, a), Cost(tx)) else At(m.ledger.pending, a)
  {
    var tx := m.ix.pool[id];
    RemovedIs(m, id);
    GoodId(m, cfg, id);
    FromDelete(m.ix.pool, cfg.bridge, tx, a);
    LoweredAt(m.ledger.pending, Canon(tx), Cost(tx), a);
  }

  lemma HeldAtMost(m: Mem, cfg: Config, a: nat)
    requires Good(m, cfg)
    ensures Short(m, cfg, a) >= 0
  {
    GoodIs(m, cfg);
    BalancedIs(m.ledger, m.ix.pool, cfg.bridge, a);
  }

  lemma RemovedDrains(m: Mem, cfg: Config, a: nat, id: nat)
    requires Good(m, cfg)
    ensures Drained(m, Removed(m, id), cfg, a)
  {
    Unchanged(m, cfg, a);
    Unchanged(Removed(m, id), cfg, a);
    HeldAtMost(m, cfg, a);
    if id in m.ix.pool {
      RemovedAmounts(m, cfg, a, id);
    } else {
      RemovedIs(m, id);
    }
  }

  lemma DrainedTrans(m: Mem, n: Mem, k: Mem, cfg: Config, a: nat)
    requires Drained(m, n, cfg, a) && Drained(n, k, cfg, a)
    ensures Drained(m, k, cfg, a)
  {
  }

  lemma {:induction false} PurgeDrains(m: Mem, cfg: Config, a: nat, b: nat, n: nat)
    requires Good(m, cfg)
    ensures Drained(m, AfterPurge(m, b, n), cfg, a)
    decreases n
  {
    if n > 0 && NonceKey(b, n - 1) in m.ix.byNonce {
      var id := m.ix.byNonce[NonceKey(b, n - 1)];
      RemovedGood(m, cfg, id);
      RemovedDrains(m, cfg, a, id);
      var r := Removed(m, id);
      PurgeDrains(r, cfg, a, b, n - 1);
      DrainedTrans(m, r, AfterPurge(r, b, n - 1), cfg, a);
    } else {
      Unchanged(m, cfg, a);
    }
  }

  lemma {:induction false} SweepDrains(m: Mem, cfg: Config, a: nat, ids: seq<nat>)
    requires Good(m, cfg)
    ensures Drained(m, RemovedAll(m, ids), cfg, a)
  {
    Unchanged(m, cfg, a);
    if ids != [] {
      var most := ids[..|ids| - 1];
      SweepDrains(m, cfg, a, most);
      RemovedAllGood(m, cfg, most);
      RemovedDrains(RemovedAll(m, most), cfg, a, ids[|ids| - 1]);
      DrainedTrans(m, RemovedAll(m, most), RemovedAll(m, ids), cfg, a);
    }
  }

  lemma {:induction false} TurnsShort(s: MemState, cfg: Config, fees: Fees, a: nat, b: nat, chain: Chain, now: nat)
    ensures Short(AfterTurns(s, cfg, fees, b, chain, now).mem, cfg, a) == Short(s.mem, cfg, a)
    decreases QueueOf(s.waiting, b).Keys
  {
    var due, q := DueIn(s, b, chain), QueueOf(s.waiting, b);
    TurnToIs(s, cfg, fees, b, chain, now);
    if due in q {
      AddedShort(s.mem, cfg, a, Offered(s.mem, fees, q[due]), FloorFor(s.mem, fees, q[due]), At(chain.balance, b), now);
    }
    if GoesOn(s, cfg, fees, b, chain) {
      TurnShrinks(s, cfg, fees, b, chain, now);
      TurnsShort(TurnTo(s, cfg, fees, b, chain, now), cfg, fees, a, b, chain, now);
    }
  }

  lemma AdmissionShort(s: MemState, cfg: Config, fees: Fees, a: nat, raw: Tx, chain: Chain, now: nat)
    ensures Short(AfterAdmission(s, cfg, fees, raw, chain, now).mem, cfg, a) == Short(s.mem, cfg, a)
  {
    var fee := fees(raw, s.mem.ix.count);
    DueShort(s, cfg, fees, a, Priced(raw, fee), Floor(Priced(raw, fee), fee), chain, now);
  }

  lemma DueShort(s: MemState, cfg: Config, fees: Fees, a: nat, tx: Tx, floor: nat, chain: Chain, now: nat)
    ensures Short(AfterDue(s, cfg, fees, tx, floor, chain, now).mem, cfg, a) == Short(s.mem, cfg, a)
  {
    var n := Added(s.mem, cfg, tx, floor, At(chain.balance, Canon(tx)), now);
    AddedShort(s.mem, cfg, a, tx, floor, At(chain.balance, Canon(tx)), now);
    TurnsShort(s.(mem := n), cfg, fees, a, Canon(tx), chain, now);
  }

  /** The pool once the operation has removed what it removes; additions come after. */
  function Cleared(m: Mem, op: Op): Mem {
    match op
    case Remove(id) => Removed(m, id)
    case Purge(b, n, _, _) => AfterPurge(m, b, n)
    case Expire(order, _) => RemovedAll(m, order)
    case _ => m
  }

  lemma ClearedDrains(m: Mem, cfg: Config, a: nat, op: Op)
    requires Good(m, cfg)
    ensures Drained(m, Cleared(m, op), cfg, a)
  {
    Unchanged(m, cfg, a);
    match op
    case Remove(id) => RemovedDrains(m, cfg, a, id);
    case Purge(b, n, _, _) => PurgeDrains(m, cfg, a, b, n);
    case Expire(order, _) => SweepDrains(m, cfg, a, order);
    case _ =>
  }

  lemma ClearedShort(s: MemState, cfg: Config, fees: Fees, a: nat, op: Op)
    ensures Short(Step(s, cfg, fees, op).mem, cfg, a) == Short(Cleared(s.mem, op), cfg, a)
  {
    match op
    case Add(tx, floor, balance, now) => AddedShort(s.mem, cfg, a, tx, floor, balance, now);
    case Admit(raw, chain, now) => AdmissionShort(s, cfg, fees, a, raw, chain, now);
    case Promote(b, chain, now) => TurnsShort(s, cfg, fees, a, b, chain, now);
    case Purge(b, n, chain, now) => TurnsShort(s.(mem := AfterPurge(s.mem, b, n)), cfg, fees, a, b, chain, now);
    case _ =>
  }

  /** How far any operation lets the hold of `a` fall short, and when it keeps it exact: exactly when the exempt
      mints it removes cost nothing, or nothing reserved remains. */
  lemma StepHeld(s: MemState, cfg: Config, fees: Fees, a: nat, op: Op)
    requires Good(s.mem, cfg)
    ensures var r, n := Cleared(s.mem, op), Step(s, cfg, fees, op).mem;
            var freed, left := Exempted(s.mem, cfg, a) - Exempted(r, cfg, a), ReservedFrom(r.ix.pool, cfg.bridge, a);
            && freed >= 0 && Short(n, cfg, a) == Lesser(Short(s.mem, cfg, a) + freed, left)
            && (HeldExactly(s.mem, cfg, a) ==> (HeldExactly(n, cfg, a) <==> freed == 0 || left == 0))
  {
    ClearedDrains(s.mem, cfg, a, op);
    ClearedShort(s, cfg, fees, a, op);
  }

  // ----- it happens -----

  /** Accepted into the empty pool, or beside one other transaction. */
  lemma FitsIn(m: Mem, cfg: Config, tx: Tx, floor: nat, balance: nat)
    requires !tx.kind.DeployContract? && !Evm(tx) && tx.sound && tx.payload <= cfg.maxPayload
    requires m.ix.count < cfg.capacity && m.ix.bytes + Size(tx) <= cfg.maxBytes
    requires At(m.ledger.perAddress, Canon(tx)) < cfg.maxPerAddress
    requires tx.id !in m.ix.pool && KeyOf(tx) !in m.ix.byNonce
    requires floor <= Fee(tx) <= balance && Cost(tx) + At(m.ledger.pending, Canon(tx)) <= balance
    ensures Accepts(m, cfg, tx, floor, balance)
  {
    AcceptsIs(m, cfg, tx, floor, balance);
  }

  function Payment(a: nat): Tx { Tx(2, Address(a, 0), 1, Transfer, 10, 1, 5, 0, 0, 0, 0, true, true) }

  function MintOf(a: nat): Tx { Tx(1, Address(a, 0), 0, BridgeMint, 0, 1, 5, 0, 0, 0, 0, true, true) }

  lemma Costs(a: nat)
    ensures Cost(Payment(a)) == 15 && Fee(Payment(a)) == 5 && Cost(MintOf(a)) == 5 && Fee(MintOf(a)) == 5
  {
    FeeIs(Payment(a));
    FeeIs(MintOf(a));
  }

  /** For every bridge authority, on any mempool with room for two: a payment and a mint of its own come in, the
      mint leaves, and ten units are held where the remaining payment reserved fifteen. */
  lemma BridgeShortfall(a: nat, room: nat)
    returns (one: Mem, two: Mem, three: Mem)
    requires room >= 1_000
    ensures var cfg := Config(room, room, room, room, room, room, Some(a));
            && one == Added(EMPTY, cfg, Payment(a), 5, room, 0) && two == Added(one, cfg, MintOf(a), 5, room, 0)
            && three == Removed(two, 1) && three.ix.pool == map[2 := Payment(a)]
            && At(three.ledger.pending, a) == 10 && ReservedFrom(three.ix.pool, cfg.bridge, a) == 15
  {
    var cfg := Config(room, room, room, room, room, room, Some(a));
    Costs(a);
    one := FirstIn(cfg, Payment(a), room);
    two := SecondIn(cfg, one, MintOf(a), room);
    three := Removed(two, 1);
    RemovedIs(two, 1);
    LoweredAt(two.ledger.pending, a, 5, a);
    assert three.ix.pool == map[2 := Payment(a)];
    assert From(map[], a) == {};
    FromInsert(map[], cfg.bridge, Payment(a), a);
  }

  lemma FirstIn(cfg: Config, tx: Tx, room: nat) returns (one: Mem)
    requires cfg == Config(room, room, room, room, room, room, Some(Canon(tx))) && room >= 1_000
    requires !tx.kind.DeployContract? && !Evm(tx) && tx.sound && Size(tx) <= 200 && Fee(tx) == 5 && Cost(tx) == 15
    requires !Exempt(tx, cfg.bridge)
    ensures one == Added(EMPTY, cfg, tx, 5, room, 0)
    ensures one.ix == IndexInserted(EMPTY.ix, tx) && one.ledger == LedgerInserted(EMPTY.ledger, tx, 15)
  {
    one := Added(EMPTY, cfg, tx, 5, room, 0);
    FitsIn(EMPTY, cfg, tx, 5, room);
    AcceptsIs(EMPTY, cfg, tx, 5, room);
    AddedIs(EMPTY, cfg, tx, 5, room, 0);
  }

  lemma SecondIn(cfg: Config, one: Mem, mint: Tx, room: nat) returns (two: Mem)
    requires cfg == Config(room, room, room, room, room, room, Some(Canon(mint))) && room >= 1_000
    requires mint.kind.BridgeMint? && mint.sound && Size(mint) <= 200 && Fee(mint) == 5 && Cost(mint) == 5
    requires one.ix.count <= 1 && one.ix.bytes <= 200 && At(one.ledger.perAddress, Canon(mint)) <= 1
    requires mint.id !in one.ix.pool && KeyOf(mint) !in one.ix.byNonce && At(one.ledger.pending, Canon(mint)) == 15
    ensures two == Added(one, cfg, mint, 5, room, 0)
    ensures two.ix == IndexInserted(one.ix, mint) && two.ledger == LedgerInserted(one.ledger, mint, 0)
  {
    two := Added(one, cfg, mint, 5, room, 0);
    FitsIn(one, cfg, mint, 5, room);
    AcceptsIs(one, cfg, mint, 5, room);
    AddedIs(one, cfg, mint, 5, room, 0);
  }
}
