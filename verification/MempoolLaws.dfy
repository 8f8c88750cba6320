/** What the pool and the queue take and give up, in numbers. */
module MempoolLaws {
  import opened Options
  import opened MempoolSpec
  import opened MempoolQueue
  import opened MempoolMoves
  import opened BlockSelection
  import opened Words

  // ----- what a transaction costs -----

  /** A transfer, a sale, a stake, a swap for burning and a contract call are charged their amount as well as the
      fee; everything else the fee alone. */
  lemma CostIs(tx: Tx)
    ensures var fee := SatMul(tx.gasLimit, tx.gasPrice);
            match tx.kind
            case Transfer => Cost(tx) == SatAdd(fee, tx.amount)
            case SwapSell => Cost(tx) == SatAdd(fee, tx.amount)
            case StakeZagros => Cost(tx) == SatAdd(fee, tx.amount)
            case BridgeSwapAndBurn => Cost(tx) == SatAdd(fee, tx.amount)
            case ContractCall => Cost(tx) == SatAdd(fee, tx.amount)
            case CallContract => Cost(tx) == SatAdd(fee, tx.amount)
            case _ => Cost(tx) == fee
  {
    FeeIs(tx);
  }

  /** A native transaction carries the fixed fee of the moment, at least one; a contract call what it declared. */
  lemma PricedIs(tx: Tx, fee: nat)
    ensures var evm := tx.kind.ContractCall? || tx.kind.CallContract?;
            && (evm ==> Priced(tx, fee) == tx && Floor(tx, fee) == fee)
            && (!evm ==> Priced(tx, fee) == tx.(gasLimit := 1, gasPrice := if fee == 0 then 1 else fee)
                         && Floor(tx, fee) == if fee == 0 then 1 else fee)
  {
  }

  // ----- admission -----

  /** Only a mint of the bridge authority is exempt from the fee. */
  predicate FreeOfFee(tx: Tx, bridge: Option<nat>) {
    (tx.kind == BridgeMint || tx.kind == BridgeMintAndSwap) && bridge.Some? && tx.sender.canonical == bridge.value
  }

  lemma AcceptsIff(m: Mem, cfg: Config, tx: Tx, floor: nat, balance: nat)
    ensures Accepts(m, cfg, tx, floor, balance) <==>
              && tx.kind != DeployContract && tx.sound
              && tx.payload <= cfg.maxPayload && m.ix.count < cfg.capacity
              && m.ix.bytes + tx.payload + tx.envelope + 128 <= cfg.maxBytes
              && (tx.kind == ContractCall || tx.kind == CallContract ==> tx.gasOk)
              && (FreeOfFee(tx, cfg.bridge) || floor <= SatMul(tx.gasLimit, tx.gasPrice) <= balance)
              && At(m.ledger.perAddress, tx.sender.canonical) < cfg.maxPerAddress
              && tx.id !in m.ix.pool && NonceKey(tx.sender.canonical, tx.nonce) !in m.ix.byNonce
              && (FreeOfFee(tx, cfg.bridge) || Cost(tx) == 0 || Cost(tx) + At(m.ledger.pending, tx.sender.canonical) <= balance)
  {
    AcceptsIs(m, cfg, tx, floor, balance);
    FeeIs(tx);
  }

  /** What is accepted is pooled under its own identifier, dated now, and admitted after everything before it. */
  lemma AddedExact(m: Mem, cfg: Config, tx: Tx, floor: nat, balance: nat, now: nat)
    requires Accepts(m, cfg, tx, floor, balance)
    ensures var n := Added(m, cfg, tx, floor, balance, now);
            && n.ix.pool == m.ix.pool[tx.id := tx] && n.times.arrival == m.times.arrival[tx.id := now]
            && n.lanes.key == m.lanes.key[tx.id := m.lanes.next] && n.lanes.next == m.lanes.next + 1
            && At(n.ledger.pending, tx.sender.canonical)
               == At(m.ledger.pending, tx.sender.canonical) + if FreeOfFee(tx, cfg.bridge) then 0 else Cost(tx)
  {
    AddedIs(m, cfg, tx, floor, balance, now);
    AcceptsIs(m, cfg, tx, floor, balance);
  }

  // ----- the queue -----

  /** A sound transaction joins the queue when the balance covers fee and amount, fewer than 5000 wait in all and
      fewer than 32 of its sender, its own nonce aside. */
  lemma QueuedIff(w: Waiting, tx: Tx, fee: nat, balance: nat)
    ensures Queueable(tx, fee, balance) && Room(w, tx) <==>
              && tx.sound && SatAdd(fee, tx.amount) <= balance && w.total < 5_000
              && (|QueueOf(w, tx.sender.canonical)| < 32 || tx.nonce in QueueOf(w, tx.sender.canonical))
  {
  }

  lemma EnqueuedExact(w: Waiting, tx: Tx, now: nat, local: bool)
    ensures var a, v := tx.sender.canonical, Enqueued(w, tx, now, local);
            && QueueOf(v, a) == QueueOf(w, a)[tx.nonce := Queued(tx, now, local)]
            && v.total == w.total + (if tx.nonce in QueueOf(w, a) then 0 else 1)
            && v.queued - {a} == w.queued - {a}
  {
  }

  /** From outside: a nonce up to 32 ahead waits, the one expected is tried, any other is refused. */
  lemma VerdictIs(m: Mem, w: Waiting, cfg: Config, tx: Tx, floor: nat, queueFee: nat, expected: nat, balance: nat)
    ensures var v := Verdict(m, w, cfg, tx, floor, queueFee, expected, balance);
            && (v == Full <==> m.ix.count >= cfg.capacity)
            && (v == Forwarded(tx.id) <==>
                  && m.ix.count < cfg.capacity && expected < tx.nonce <= expected + 32
                  && Queueable(tx, queueFee, balance) && Room(w, tx))
            && (v == Pooled(tx.id) <==>
                  m.ix.count < cfg.capacity && tx.nonce == expected && Accepts(m, cfg, tx, floor, balance))
            && (v.Forwarded? || v.Pooled? ==> v.id == tx.id)
            && (v.InvalidNonce? <==> m.ix.count < cfg.capacity && (tx.nonce < expected || tx.nonce > expected + 32))
            && (v.InvalidNonce? ==> v == InvalidNonce(expected, tx.nonce))
  {
  }

  // ----- age -----

  /** An entry goes once it is older than the expiry, in the pool as in the queue. */
  lemma ExpiredIff(arrival: map<nat, nat>, q: map<nat, Queued>, now: nat, expiry: nat, k: nat)
    ensures k in Overdue(arrival, now, expiry) <==> k in arrival && arrival[k] + expiry < now
    ensures k in Recent(q, now, expiry) <==> k in q && now <= q[k].at + expiry
    ensures k in Recent(q, now, expiry) ==> Recent(q, now, expiry)[k] == q[k]
  {
  }

  /** Proposed are, in their order, the transactions dated within 270 seconds of now; those older than that leave
      the pool. */
  lemma {:induction false} TimelyAre(list: seq<Tx>, now: nat, tx: Tx)
    ensures tx in Timely(list, now) <==> tx in list && tx.timestamp <= now + 270 && now <= tx.timestamp + 270
    ensures |Timely(list, now)| <= |list|
  {
    if list != [] {
      var n := |list| - 1;
      TimelyAre(list[..n], now, tx);
      assert list == list[..n] + [list[n]];
    }
  }

  lemma {:induction false} TimelyInOrder(a: seq<Tx>, b: seq<Tx>, now: nat)
    ensures Timely(a + b, now) == Timely(a, now) + Timely(b, now)
  {
    if b == [] {
      assert a + b == a;
    } else {
      var n := |b| - 1;
      assert (a + b)[..|a + b| - 1] == a + b[..n] && (a + b)[|a + b| - 1] == b[n];
      TimelyInOrder(a, b[..n], now);
    }
  }

  lemma AgedAre(list: seq<Tx>, now: nat, id: nat)
    ensures id in Aged(list, now) <==>
              exists i :: 0 <= i < |list| && list[i].id == id && list[i].timestamp + 270 < now
  {
  }

  /** Contract calls and deployments take the heavy lane. */
  lemma HeavyIff(tx: Tx)
    ensures Heavy(tx) <==> tx.kind == ContractCall || tx.kind == CallContract || tx.kind == DeployContract
  {
  }
}
