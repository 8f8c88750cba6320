/** The mempool: admission, removal, promotion of queued nonces, and the two sweeps. */
module Mempool {
  import opened Options
  import opened Lists
  import opened MempoolSpec
  import opened MempoolQueue
  import opened MempoolMoves
  import opened MempoolTurns
  import opened BlockSelection
  import opened Words

  class Mempool {
    const cfg: Config
    /** The minimum fee for a transaction at a given load. */
    const minFee: (Tx, nat) -> nat
    var pool: map<nat, Tx>
    var nonceIndex: map<NonceKey, nat>
    var txCount: nat
    var totalBytes: nat
    var fifoQueue: map<nat, seq<nat>>
    var heavyFifoQueue: map<nat, seq<nat>>
    var fifoKey: map<nat, nat>
    var fifoSeq: nat
    var addressTxCount: map<nat, nat>
    var pendingCosts: map<nat, nat>
    var arrivalTime: map<nat, nat>
    var localOrigin: map<nat, nat>
    var queued: map<nat, map<nat, Queued>>
    var queuedTotal: nat

    constructor (c: Config, fees: (Tx, nat) -> nat)
      ensures cfg == c && minFee == fees
      ensures Good(View(), cfg) && Sound(Queue()) && pool == map[]
    {
      cfg, minFee := c, fees;
      pool, nonceIndex, txCount, totalBytes := map[], map[], 0, 0;
      fifoQueue, heavyFifoQueue, fifoKey, fifoSeq := map[], map[], map[], 0;
      addressTxCount, pendingCosts, arrivalTime, localOrigin := map[], map[], map[], map[];
      queued, queuedTotal := map[], 0;
      new;
      EmptyGood(cfg);
      TalliedIs(Queue());
      assert View() == EMPTY && Queue() == Waiting(map[], 0);
    }

    function Ix(): Index
      reads this`pool, this`nonceIndex, this`txCount, this`totalBytes
    {
      Index(pool, nonceIndex, txCount, totalBytes)
    }

    function LanesNow(): Lanes
      reads this`fifoQueue, this`heavyFifoQueue, this`fifoKey, this`fifoSeq
    {
      Lanes(fifoQueue, heavyFifoQueue, fifoKey, fifoSeq)
    }

    function LedgerNow(): Ledger
      reads this`addressTxCount, this`pendingCosts
    {
      Ledger(addressTxCount, pendingCosts)
    }

    function TimesNow(): Times
      reads this`arrivalTime, this`localOrigin
    {
      Times(arrivalTime, localOrigin)
    }

    function View(): Mem
      reads this`pool, this`nonceIndex, this`txCount, this`totalBytes
      reads this`fifoQueue, this`heavyFifoQueue, this`fifoKey, this`fifoSeq
      reads this`addressTxCount, this`pendingCosts, this`arrivalTime, this`localOrigin
    {
      Mem(Ix(), LanesNow(), LedgerNow(), TimesNow())
    }

    function Queue(): Waiting
      reads this`queued, this`queuedTotal
    {
      Waiting(queued, queuedTotal)
    }

    function State(): MemState
      reads this`pool, this`nonceIndex, this`txCount, this`totalBytes
      reads this`fifoQueue, this`heavyFifoQueue, this`fifoKey, this`fifoSeq
      reads this`addressTxCount, this`pendingCosts, this`arrivalTime, this`localOrigin
      reads this`queued, this`queuedTotal
    {
      MemState(View(), Queue())
    }

    method PushLane(tx: Tx)
      modifies this`fifoQueue, this`heavyFifoQueue, this`fifoKey, this`fifoSeq
      ensures LanesNow() == LanesInserted(old(LanesNow()), tx)
    {
      var key := fifoSeq;
      fifoSeq := fifoSeq + 1;
      fifoKey := fifoKey[tx.id := key];
      if Heavy(tx) {
        heavyFifoQueue := heavyFifoQueue[key := Bucket(heavyFifoQueue, key) + [tx.id]];
      } else {
        fifoQueue := fifoQueue[key := Bucket(fifoQueue, key) + [tx.id]];
      }
    }

    method PushIndex(tx: Tx)
      modifies this`pool, this`nonceIndex, this`txCount, this`totalBytes
      ensures Ix() == IndexInserted(old(Ix()), tx)
    {
      nonceIndex := nonceIndex[KeyOf(tx) := tx.id];
      totalBytes := totalBytes + Size(tx);
      pool := pool[tx.id := tx];
      txCount := txCount + 1;
    }

    method PushLedger(tx: Tx, reserve: nat)
      modifies this`addressTxCount, this`pendingCosts
      ensures LedgerNow() == LedgerInserted(old(LedgerNow()), tx, reserve)
    {
      var a := Canon(tx);
      pendingCosts := pendingCosts[a := At(pendingCosts, a) + reserve];
      addressTxCount := addressTxCount[a := At(addressTxCount, a) + 1];
    }

    /** The cheap checks, before any counter is touched. */
    method EarlyChecks(tx: Tx, floor: nat, balance: nat) returns (ok: bool)
      ensures ok == EarlyOk(View(), cfg, tx, floor, balance)
    {
      if tx.kind == DeployContract || tx.payload > cfg.maxPayload || txCount >= cfg.capacity {
        return false;
      }
      if totalBytes + Size(tx) > cfg.maxBytes || !tx.sound || (Evm(tx) && !tx.gasOk) {
        return false;
      }
      if !Exempt(tx, cfg.bridge) {
        if Fee(tx) < floor || balance < Fee(tx) {
          return false;
        }
      }
      return true;
    }

    /** The sender's counter is opened even when the transaction is then refused. */
    method LateChecks(tx: Tx, balance: nat) returns (ok: bool)
      modifies this`addressTxCount
      ensures ok == LateOk(old(View()), cfg, tx, balance)
      ensures addressTxCount == old(addressTxCount)[Canon(tx) := At(old(addressTxCount), Canon(tx))]
    {
      var a := Canon(tx);
      var count := At(addressTxCount, a);
      addressTxCount := addressTxCount[a := count];
      if count >= cfg.maxPerAddress || tx.id in pool || KeyOf(tx) in nonceIndex {
        return false;
      }
      ok := Reserve(tx, cfg.bridge) <= SatSub(balance, At(pendingCosts, a));
    }

    method Insert(tx: Tx, now: nat)
      modifies this`pool, this`nonceIndex, this`txCount, this`totalBytes
      modifies this`fifoQueue, this`heavyFifoQueue, this`fifoKey, this`fifoSeq
      modifies this`addressTxCount, this`pendingCosts, this`arrivalTime
      ensures Ix() == IndexInserted(old(Ix()), tx) && LanesNow() == LanesInserted(old(LanesNow()), tx)
      ensures LedgerNow() == LedgerInserted(old(LedgerNow()), tx, Reserve(tx, cfg.bridge))
      ensures arrivalTime == old(arrivalTime)[tx.id := now]
    {
      PushLane(tx);
      PushIndex(tx);
      PushLedger(tx, Reserve(tx, cfg.bridge));
      arrivalTime := arrivalTime[tx.id := now];
    }

    /** Early checks, late checks, insertion. */
    method AddTransaction(tx: Tx, floor: nat, balance: nat, now: nat) returns (ok: bool)
      requires Good(View(), cfg)
      modifies this`pool, this`nonceIndex, this`txCount, this`totalBytes
      modifies this`fifoQueue, this`heavyFifoQueue, this`fifoKey, this`fifoSeq
      modifies this`addressTxCount, this`pendingCosts, this`arrivalTime
      ensures View() == Added(old(View()), cfg, tx, floor, balance, now)
      ensures ok == Accepts(old(View()), cfg, tx, floor, balance)
      ensures Good(View(), cfg)
    {
      AddedGood(View(), cfg, tx, floor, balance, now);
      AddedIs(View(), cfg, tx, floor, balance, now);
      AcceptsIs(View(), cfg, tx, floor, balance);
      ok := EarlyChecks(tx, floor, balance);
      if ok {
        ok := LateChecks(tx, balance);
        if ok {
          Insert(tx, now);
          CountedThenInserted(old(LedgerNow()), tx, Reserve(tx, cfg.bridge));
        }
      }
    }

    method PopIndex(tx: Tx)
      modifies this`pool, this`nonceIndex, this`txCount, this`totalBytes
      ensures Ix() == IndexRemoved(old(Ix()), tx)
    {
      pool := pool - {tx.id};
      txCount := SatSub(txCount, 1);
      nonceIndex := nonceIndex - {KeyOf(tx)};
      totalBytes := SatSub(totalBytes, Size(tx));
    }

    method PopLane(tx: Tx)
      modifies this`fifoQueue, this`heavyFifoQueue, this`fifoKey
      ensures LanesNow() == LanesRemoved(old(LanesNow()), tx)
    {
      LanesRemovedIs(LanesNow(), tx);
      if tx.id !in fifoKey {
        return;
      }
      var key := fifoKey[tx.id];
      fifoKey := fifoKey - {tx.id};
      if Heavy(tx) {
        heavyFifoQueue := PopBucket(heavyFifoQueue, key, tx.id);
      } else {
        fifoQueue := PopBucket(fifoQueue, key, tx.id);
      }
    }

    method PopLedger(tx: Tx)
      modifies this`addressTxCount, this`pendingCosts
      ensures LedgerNow() == LedgerRemoved(old(LedgerNow()), tx)
    {
      pendingCosts := Lower(pendingCosts, Canon(tx), Cost(tx));
      addressTxCount := Lower(addressTxCount, Canon(tx), 1);
    }

    method RemoveTransaction(id: nat) returns (removed: Option<Tx>)
      requires Good(View(), cfg)
      modifies this`pool, this`nonceIndex, this`txCount, this`totalBytes
      modifies this`fifoQueue, this`heavyFifoQueue, this`fifoKey
      modifies this`addressTxCount, this`pendingCosts, this`arrivalTime, this`localOrigin
      ensures View() == Removed(old(View()), id)
      ensures removed == if id in old(pool) then Some(old(pool)[id]) else None
      ensures Good(View(), cfg)
    {
      RemovedGood(View(), cfg, id);
      RemovedIs(View(), id);
      if id !in pool {
        return None;
      }
      GoodId(View(), cfg, id);
      var tx := pool[id];
      PopIndex(tx);
      arrivalTime := arrivalTime - {id};
      localOrigin := localOrigin - {id};
      PopLedger(tx);
      PopLane(tx);
      return Some(tx);
    }

    // ----- the forward-nonce queue -----

    method EnqueueForwardNonce(tx: Tx, local: bool, balance: nat, now: nat) returns (r: Admission)
      requires Sound(Queue())
      modifies this`queued, this`queuedTotal
      ensures Sound(Queue())
      ensures r == if Queueable(tx, minFee(tx, txCount), balance) && Room(old(Queue()), tx) then Forwarded(tx.id) else Refused
      ensures Queue() == if r.Forwarded? then Enqueued(old(Queue()), tx, now, local) else old(Queue())
    {
      if !tx.sound || balance < SatAdd(minFee(tx, txCount), tx.amount) || queuedTotal >= MAX_QUEUED_TOTAL {
        return Refused;
      }
      var a := Canon(tx);
      var q := QueueOf(Queue(), a);
      if |q| >= MAX_QUEUED_PER_SENDER && tx.nonce !in q {
        return Refused;
      }
      EnqueuedSound(Queue(), tx, now, local);
      if tx.nonce !in q {
        queuedTotal := queuedTotal + 1;
      }
      queued := queued[a := q[tx.nonce := Queued(tx, now, local)]];
      return Forwarded(tx.id);
    }

    method Unqueue(a: nat, n: nat)
      requires Loose(Queue(), a) && a in queued && n in queued[a]
      modifies this`queued, this`queuedTotal
      ensures Loose(Queue(), a)
      ensures queued == old(queued)[a := old(queued)[a] - {n}]
    {
      var q := queued[a] - {n};
      LooseShrunk(Queue(), a, q);
      assert |q| == |queued[a]| - 1;
      queued := queued[a := q];
      queuedTotal := queuedTotal - 1;
    }

    /** Drops what the chain has already consumed and takes out the entry that is due, if there is one. */
    method TakeDue(a: nat, expected: nat) returns (due: Option<Queued>)
      requires Loose(Queue(), a)
      modifies this`queued, this`queuedTotal
      ensures Loose(Queue(), a) && queued == Cut(old(queued), a, expected + 1)
      ensures due == if expected in QueueOf(old(Queue()), a) then Some(QueueOf(old(Queue()), a)[expected]) else None
    {
      if a !in queued {
        return None;
      }
      ghost var q := queued[a];
      var stale := set n | n in queued[a] && n < expected;
      assert Left(q, stale, expected) == q;
      assert queued[a := q] == queued;
      while stale != {}
        invariant Loose(Queue(), a)
        invariant stale <= q.Keys && forall n :: n in stale ==> n < expected
        invariant queued == old(queued)[a := Left(q, stale, expected)]
        decreases stale
      {
        var n :| n in stale;
        Unqueue(a, n);
        stale := stale - {n};
        assert queued[a] == Left(q, stale, expected);
      }
      assert queued[a] == Above(q, expected);
      if expected in queued[a] {
        due := Some(queued[a][expected]);
        Unqueue(a, expected);
      } else {
        due := None;
      }
      assert queued[a] == Above(q, expected + 1);
    }

    /** The entry that was due tries the pool, at the fee of the moment. */
    method TryPromote(e: Queued, balance: nat, now: nat) returns (joined: bool)
      requires Good(View(), cfg)
      modifies this`pool, this`nonceIndex, this`txCount, this`totalBytes
      modifies this`fifoQueue, this`heavyFifoQueue, this`fifoKey, this`fifoSeq
      modifies this`addressTxCount, this`pendingCosts, this`arrivalTime, this`localOrigin
      ensures View() == AfterOffer(old(View()), cfg, minFee, e, balance, now)
      ensures joined == Wanted(old(View()), cfg, minFee, e, balance)
    {
      var tx := Priced(e.tx, minFee(e.tx, txCount));
      joined := AddTransaction(tx, Floor(tx, minFee(e.tx, txCount)), balance, now);
      if joined && e.local {
        localOrigin := localOrigin[tx.id := 0];
      }
    }

    /** One turn of the promotion loop: the entry that is due leaves the queue and tries the pool. */
    method PromoteNext(a: nat, chain: Chain, now: nat) returns (more: bool)
      requires Good(View(), cfg) && Loose(Queue(), a)
      modifies this`pool, this`nonceIndex, this`txCount, this`totalBytes
      modifies this`fifoQueue, this`heavyFifoQueue, this`fifoKey, this`fifoSeq
      modifies this`addressTxCount, this`pendingCosts, this`arrivalTime, this`localOrigin
      modifies this`queued, this`queuedTotal
      ensures State() == TurnTo(old(State()), cfg, minFee, a, chain, now)
      ensures more == GoesOn(old(State()), cfg, minFee, a, chain)
    {
      var due := NextDue(a, chain);
      more := false;
      if due.Some? {
        more := TryPromote(due.value, At(chain.balance, a), now);
      }
      TurnFrom(old(State()), due, View(), Queue(), cfg, minFee, a, chain, now);
    }

    method NextDue(a: nat, chain: Chain) returns (due: Option<Queued>)
      requires Loose(Queue(), a)
      modifies this`queued, this`queuedTotal
      ensures due == DueEntry(old(State()), a, chain)
      ensures Queue() == CutWaiting(old(Queue()), a, DueIn(old(State()), a, chain) + 1)
    {
      var expected := PendingNonce(nonceIndex, At(chain.nonce, a), a);
      CutLoose(Queue(), a, expected + 1);
      due := TakeDue(a, expected);
      LooseSame(Queue(), CutWaiting(old(Queue()), a, expected + 1), a);
    }

    method PromoteRun(a: nat, chain: Chain, now: nat) returns (promoted: nat)
      requires Good(View(), cfg) && Loose(Queue(), a)
      modifies this`pool, this`nonceIndex, this`txCount, this`totalBytes
      modifies this`fifoQueue, this`heavyFifoQueue, this`fifoKey, this`fifoSeq
      modifies this`addressTxCount, this`pendingCosts, this`arrivalTime, this`localOrigin
      modifies this`queued, this`queuedTotal
      ensures Good(View(), cfg) && Loose(Queue(), a)
      ensures State() == AfterTurns(old(State()), cfg, minFee, a, chain, now)
      ensures promoted == Turns(old(State()), cfg, minFee, a, chain, now)
    {
      promoted := 0;
      var going := true;
      while going
        invariant Good(View(), cfg) && Loose(Queue(), a)
        invariant if going then AfterTurns(State(), cfg, minFee, a, chain, now) == AfterTurns(old(State()), cfg, minFee, a, chain, now)
                  else State() == AfterTurns(old(State()), cfg, minFee, a, chain, now)
        invariant promoted + (if going then Turns(State(), cfg, minFee, a, chain, now) else 0)
                  == Turns(old(State()), cfg, minFee, a, chain, now)
        decreases going, QueueOf(Queue(), a).Keys
      {
        TurnGood(State(), cfg, minFee, a, chain, now);
        if GoesOn(State(), cfg, minFee, a, chain) {
          TurnShrinks(State(), cfg, minFee, a, chain, now);
        }
        going := PromoteNext(a, chain, now);
        promoted := if going then promoted + 1 else promoted;
      }
    }

    /** Entries move to the pool in nonce order until one is missing or refused. In the end the queue of `a` holds
        exactly what was queued above the nonce now expected. */
    method PromoteQueued(a: nat, chain: Chain, now: nat) returns (promoted: nat)
      requires Good(View(), cfg) && Sound(Queue())
      modifies this`pool, this`nonceIndex, this`txCount, this`totalBytes
      modifies this`fifoQueue, this`heavyFifoQueue, this`fifoKey, this`fifoSeq
      modifies this`addressTxCount, this`pendingCosts, this`arrivalTime, this`localOrigin
      modifies this`queued, this`queuedTotal
      ensures Good(View(), cfg) && Sound(Queue())
      ensures State() == Promotion(old(State()), cfg, minFee, a, chain, now)
      ensures txCount == old(txCount) + promoted && Grown(old(pool), pool, QueueIn(old(queued), a))
      ensures QueueIn(queued, a) == Above(QueueIn(old(queued), a), Expected(Ix(), a, chain) + 1)
      ensures queued - {a} == old(queued) - {a}
    {
      PromotionKeeps(State(), cfg, minFee, a, chain, now);
      SoundIsLoose(Queue(), a);
      promoted := PromoteRun(a, chain, now);
      if a in queued && queued[a] == map[] {
        queued := queued - {a};
      }
    }

    // ----- admission -----

    /** The expected nonce tries the pool; if it gets in, its successors are promoted. */
    method AdmitDue(tx: Tx, floor: nat, chain: Chain, now: nat) returns (ok: bool)
      requires Good(View(), cfg) && Sound(Queue())
      modifies this`pool, this`nonceIndex, this`txCount, this`totalBytes
      modifies this`fifoQueue, this`heavyFifoQueue, this`fifoKey, this`fifoSeq
      modifies this`addressTxCount, this`pendingCosts, this`arrivalTime, this`localOrigin
      modifies this`queued, this`queuedTotal
      ensures Good(View(), cfg) && Sound(Queue())
      ensures ok == Accepts(old(View()), cfg, tx, floor, At(chain.balance, Canon(tx)))
      ensures State() == AfterDue(old(State()), cfg, minFee, tx, floor, chain, now)
      ensures ok ==> tx.id in pool && pool[tx.id] == tx && tx.id !in old(pool)
      ensures ok ==> Grown(old(pool)[tx.id := tx], pool, QueueIn(old(queued), Canon(tx)))
      ensures !ok ==> Ix() == old(Ix()) && Queue() == old(Queue())
    {
      AddedEffect(View(), cfg, tx, floor, At(chain.balance, Canon(tx)), now);
      ok := AddTransaction(tx, floor, At(chain.balance, Canon(tx)), now);
      if ok {
        ghost var mid := pool;
        var promoted := PromoteQueued(Canon(tx), chain, now);
        GrownIs(mid, pool, QueueIn(old(queued), Canon(tx)));
      }
    }

    method AdmitPriced(tx: Tx, floor: nat, chain: Chain, now: nat) returns (r: Admission)
      requires Good(View(), cfg) && Sound(Queue()) && txCount < cfg.capacity
      modifies this`pool, this`nonceIndex, this`txCount, this`totalBytes
      modifies this`fifoQueue, this`heavyFifoQueue, this`fifoKey, this`fifoSeq
      modifies this`addressTxCount, this`pendingCosts, this`arrivalTime, this`localOrigin
      modifies this`queued, this`queuedTotal
      ensures Good(View(), cfg) && Sound(Queue())
      ensures r == Verdict(old(View()), old(Queue()), cfg, tx, floor, minFee(tx, old(txCount)),
                           Expected(old(Ix()), Canon(tx), chain), At(chain.balance, Canon(tx)))
      ensures State() == AfterPriced(old(State()), cfg, minFee, tx, floor, chain, now)
      ensures r.Forwarded? ==> Queue() == Enqueued(old(Queue()), tx, now, false)
      ensures r.Pooled? ==> tx.id in pool && pool[tx.id] == tx
      ensures r.Pooled? ==> Grown(old(pool)[tx.id := tx], pool, QueueIn(old(queued), Canon(tx)))
      ensures !r.Pooled? ==> Ix() == old(Ix())
      ensures !r.Pooled? && !r.Forwarded? ==> Queue() == old(Queue())
    {
      var expected := PendingNonce(nonceIndex, At(chain.nonce, Canon(tx)), Canon(tx));
      if tx.nonce > expected && tx.nonce - expected <= MAX_QUEUE_GAP {
        r := EnqueueForwardNonce(tx, false, At(chain.balance, Canon(tx)), now);
      } else if tx.nonce != expected {
        r := InvalidNonce(expected, tx.nonce);
      } else {
        var ok := AdmitDue(tx, floor, chain, now);
        r := if ok then Pooled(tx.id) else Refused;
      }
    }

    /** The one way in for transactions from outside. */
    method AdmitTransaction(raw: Tx, chain: Chain, now: nat) returns (r: Admission)
      requires Good(View(), cfg) && Sound(Queue())
      modifies this`pool, this`nonceIndex, this`txCount, this`totalBytes
      modifies this`fifoQueue, this`heavyFifoQueue, this`fifoKey, this`fifoSeq
      modifies this`addressTxCount, this`pendingCosts, this`arrivalTime, this`localOrigin
      modifies this`queued, this`queuedTotal
      ensures Good(View(), cfg) && Sound(Queue())
      ensures State() == AfterAdmission(old(State()), cfg, minFee, raw, chain, now)
      ensures var fee := minFee(raw, old(txCount));
              var tx := Priced(raw, fee);
              && r == Verdict(old(View()), old(Queue()), cfg, tx, Floor(tx, fee), minFee(tx, old(txCount)),
                              Expected(old(Ix()), Canon(tx), chain), At(chain.balance, Canon(tx)))
              && (r.Forwarded? ==> Queue() == Enqueued(old(Queue()), tx, now, false))
              && (r.Pooled? ==> tx.id in pool && pool[tx.id] == tx)
              && (r.Pooled? ==> Grown(old(pool)[tx.id := tx], pool, QueueIn(old(queued), Canon(tx))))
      ensures !r.Pooled? ==> Ix() == old(Ix())
      ensures !r.Pooled? && !r.Forwarded? ==> Queue() == old(Queue())
    {
      if txCount >= cfg.capacity {
        return Full;
      }
      var fee := minFee(raw, txCount);
      var tx := Priced(raw, fee);
      r := AdmitPriced(tx, Floor(tx, fee), chain, now);
    }

    // ----- the sweeps -----

    /** Down from `n`, as long as the nonces are consecutive. */
    method PurgeConsecutive(a: nat, n: nat) returns (removed: nat, ghost lo: nat)
      requires Good(View(), cfg)
      modifies this`pool, this`nonceIndex, this`txCount, this`totalBytes
      modifies this`fifoQueue, this`heavyFifoQueue, this`fifoKey
      modifies this`addressTxCount, this`pendingCosts, this`arrivalTime, this`localOrigin
      ensures Good(View(), cfg)
      ensures View() == AfterPurge(old(View()), a, n)
      ensures Purged(old(Ix()), Ix(), a, lo, n) && removed == n - lo && lo <= n
      ensures lo == 0 || NonceKey(a, lo - 1) !in nonceIndex
    {
      removed, lo := 0, n;
      var k, going := n, true;
      PurgedNone(Ix(), a, n);
      while k > 0 && going
        invariant Good(View(), cfg)
        invariant lo == n - removed >= 0 && Purged(old(Ix()), Ix(), a, lo, n)
        invariant AfterPurge(View(), a, lo) == AfterPurge(old(View()), a, n)
        invariant if going then k == lo else lo > 0 && NonceKey(a, lo - 1) !in nonceIndex
        decreases going, k
      {
        k := k - 1;
        if NonceKey(a, k) in nonceIndex {
          PurgedStep(old(Ix()), View(), cfg, a, k, n);
          var tx := RemoveTransaction(nonceIndex[NonceKey(a, k)]);
          removed, lo := removed + 1, lo - 1;
        } else {
          going := false;
        }
      }
    }

    /** After a block: what it consumed leaves the pool, and what waited behind it may enter. */
    method PurgeBelowNonce(a: nat, n: nat, chain: Chain, now: nat) returns (removed: nat, ghost lo: nat,
        ghost mid: Index)
      requires Good(View(), cfg) && Sound(Queue())
      modifies this`pool, this`nonceIndex, this`txCount, this`totalBytes
      modifies this`fifoQueue, this`heavyFifoQueue, this`fifoKey, this`fifoSeq
      modifies this`addressTxCount, this`pendingCosts, this`arrivalTime, this`localOrigin
      modifies this`queued, this`queuedTotal
      ensures Good(View(), cfg) && Sound(Queue())
      ensures State() == Promotion(old(State()).(mem := AfterPurge(old(View()), a, n)), cfg, minFee, a, chain, now)
      ensures Purged(old(Ix()), mid, a, lo, n) && removed == n - lo && lo <= n
      ensures (lo == 0 || NonceKey(a, lo - 1) !in mid.byNonce)
      ensures Grown(mid.pool, pool, QueueIn(old(queued), a))
      ensures QueueIn(queued, a) == Above(QueueIn(old(queued), a), Expected(Ix(), a, chain) + 1)
    {
      removed, lo := PurgeConsecutive(a, n);
      mid := Ix();
      var promoted := PromoteQueued(a, chain, now);
    }

    method ExpirePool(now: nat) returns (count: nat, ghost order: seq<nat>)
      requires Good(View(), cfg)
      modifies this`pool, this`nonceIndex, this`txCount, this`totalBytes
      modifies this`fifoQueue, this`heavyFifoQueue, this`fifoKey
      modifies this`addressTxCount, this`pendingCosts, this`arrivalTime, this`localOrigin
      ensures Good(View(), cfg) && View() == RemovedAll(old(View()), order)
      ensures var overdue := Overdue(old(arrivalTime), now, cfg.expiry);
              && count == |overdue| && (forall id :: id in order <==> id in overdue)
              && pool == old(pool) - overdue && arrivalTime == old(arrivalTime) - overdue
    {
      var expired := Overdue(arrivalTime, now, cfg.expiry);
      ghost var all, gone: set<nat> := expired, {};
      count, order := |expired|, [];
      SweepNone(View());
      while expired != {}
        invariant Good(View(), cfg) && Sweeping(old(View()), View(), order, gone)
        invariant expired == all - gone && gone <= all
        decreases expired
      {
        var id :| id in expired;
        SweepOpen(old(View()), View(), cfg, order, gone, id);
        SweepNext(old(View()), View(), cfg, order, gone, id);
        var tx := RemoveTransaction(id);
        expired, gone, order := expired - {id}, gone + {id}, order + [id];
      }
      assert gone == all;
      SweepingIs(old(View()), View(), order, gone);
    }

    method ExpireQueues(now: nat)
      requires Sound(Queue())
      modifies this`queued, this`queuedTotal
      ensures Sound(Queue()) && queued == StillQueued(old(queued), now, cfg.expiry)
    {
      ghost var was, done: set<nat> := queued, {};
      var keys, empties: set<nat> := queued.Keys, {};
      BookedIs(Queue());
      RecentNone(was, now, cfg.expiry);
      while keys != {}
        invariant Booked(Queue())
        invariant keys == was.Keys - done && done <= was.Keys
        invariant queued == AllRecent(was, done, now, cfg.expiry) && empties == Emptied(was, done, now, cfg.expiry)
        decreases keys
      {
        var a :| a in keys;
        RecentStep(was, done, a, now, cfg.expiry);
        EmptiedStep(was, done, a, now, cfg.expiry);
        var empty := ExpireQueue(a, now);
        if empty {
          empties := empties + {a};
        }
        keys, done := keys - {a}, done + {a};
      }
      assert done == was.Keys;
      RecentAll(was, now, cfg.expiry);
      DropEmpties(empties);
    }

    method ExpireQueue(a: nat, now: nat) returns (empty: bool)
      requires Booked(Queue()) && a in queued
      modifies this`queued, this`queuedTotal
      ensures Booked(Queue()) && queued == old(queued)[a := Recent(old(queued)[a], now, cfg.expiry)]
      ensures empty <==> Recent(old(queued)[a], now, cfg.expiry) == map[]
    {
      var q := Recent(queued[a], now, cfg.expiry);
      BookedShrunk(Queue(), a, q);
      queuedTotal := queuedTotal - (|queued[a]| - |q|);
      queued := queued[a := q];
      empty := q == map[];
    }

    method DropEmpties(empties: set<nat>)
      requires Booked(Queue()) && forall a :: a in queued ==> (queued[a] == map[] <==> a in empties)
      modifies this`queued
      ensures Sound(Queue()) && queued == old(queued) - empties
    {
      var keys := empties;
      ghost var gone: set<nat> := {};
      assert queued - {} == queued;
      while keys != {}
        invariant Booked(Queue())
        invariant keys == empties - gone && gone <= empties && queued == old(queued) - gone
        decreases keys
      {
        var a :| a in keys;
        BookedDropped(Queue(), a);
        assert old(queued) - gone - {a} == old(queued) - (gone + {a});
        queued := queued - {a};
        keys, gone := keys - {a}, gone + {a};
      }
      assert gone == empties;
      BookedIs(Queue());
    }

    /** Pool entries and queue entries older than the expiry go, and nothing else. */
    method EvictExpired(now: nat) returns (count: nat, ghost order: seq<nat>)
      requires Good(View(), cfg) && Sound(Queue())
      modifies this`pool, this`nonceIndex, this`txCount, this`totalBytes
      modifies this`fifoQueue, this`heavyFifoQueue, this`fifoKey, this`fifoSeq
      modifies this`addressTxCount, this`pendingCosts, this`arrivalTime, this`localOrigin
      modifies this`queued, this`queuedTotal
      ensures Good(View(), cfg) && Sound(Queue())
      ensures View() == RemovedAll(old(View()), order)
      ensures forall id :: id in order <==> id in Overdue(old(arrivalTime), now, cfg.expiry)
      ensures pool == old(pool) - Overdue(old(arrivalTime), now, cfg.expiry)
      ensures Queue() == Swept(old(Queue()), now, cfg.expiry)
    {
      SweptSound(Queue(), now, cfg.expiry);
      count, order := ExpirePool(now);
      ExpireQueues(now);
      SoundSame(Queue(), Swept(old(Queue()), now, cfg.expiry));
    }

    // ----- block selection -----

    /** Keeps what is recent; what has grown too old leaves the pool as well. */
    method KeepTimely(list: seq<Tx>, now: nat) returns (kept: seq<Tx>)
      requires Good(View(), cfg)
      modifies this`pool, this`nonceIndex, this`txCount, this`totalBytes
      modifies this`fifoQueue, this`heavyFifoQueue, this`fifoKey
      modifies this`addressTxCount, this`pendingCosts, this`arrivalTime, this`localOrigin
      ensures Good(View(), cfg)
      ensures kept == Timely(list, now) && pool == old(pool) - Aged(list, now)
    {
      kept := [];
      var i := 0;
      assert list[..0] == [] && Aged([], now) == {} && pool - {} == pool;
      while i < |list|
        invariant 0 <= i <= |list| && Good(View(), cfg)
        invariant kept == Timely(list[..i], now) && pool == old(pool) - Aged(list[..i], now)
      {
        TimelyNext(list, now, i);
        if TooOld(list[i], now) {
          RemovedPool(View(), cfg, list[i].id);
          MinusOne(old(pool), Aged(list[..i], now), list[i].id);
          var gone := RemoveTransaction(list[i].id);
        } else if !TooNew(list[i], now) {
          kept := kept + [list[i]];
        }
        i := i + 1;
      }
      assert list[..|list|] == list;
    }

    /** First in, first out within count and gas; then the age window; then the byte cap. */
    method GetTransactionsForBlock(maxCount: nat, maxHeavy: nat, maxBytes: nat, now: nat)
      returns (out: seq<Tx>, ghost chosen: seq<Tx>, ghost h: seq<Tx>, ghost heavy: seq<nat>, ghost light: seq<nat>)
      requires Good(View(), cfg)
      modifies this`pool, this`nonceIndex, this`txCount, this`totalBytes
      modifies this`fifoQueue, this`heavyFifoQueue, this`fifoKey
      modifies this`addressTxCount, this`pendingCosts, this`arrivalTime, this`localOrigin
      ensures Good(View(), cfg)
      ensures Ascending(heavy, old(heavyFifoQueue)) && Ascending(light, old(fifoQueue))
      ensures Chosen(chosen, h, Listed(heavy, old(heavyFifoQueue), old(pool)), Listed(light, old(fifoQueue), old(pool)),
                     maxCount, maxHeavy, cfg.gasBudget)
      ensures if maxBytes == U64_MAX then out == Timely(chosen, now) else LongestBytes(out, Timely(chosen, now), maxBytes)
      ensures pool == old(pool) - Aged(chosen, now)
    {
      out, h, heavy, light := SelectFifo(LanesNow(), pool, maxCount, maxHeavy, cfg.gasBudget);
      chosen := out;
      out := KeepTimely(out, now);
      if maxBytes != U64_MAX {
        out := FitBytes(out, maxBytes);
      }
    }
  }

  lemma CountedThenInserted(l: Ledger, tx: Tx, reserve: nat)
    ensures var a := Canon(tx);
            LedgerInserted(l.(perAddress := l.perAddress[a := At(l.perAddress, a)]), tx, reserve) == LedgerInserted(l, tx, reserve)
  {
    var a, n := Canon(tx), At(l.perAddress, Canon(tx));
    assert l.perAddress[a := n][a := n + 1] == l.perAddress[a := n + 1];
  }

  method PopBucket(lane: map<nat, seq<nat>>, k: nat, id: nat) returns (r: map<nat, seq<nat>>)
    ensures r == LaneWithout(lane, k, id)
  {
    r := lane;
    if k in lane {
      var kept := Without(lane[k], id);
      if kept == [] {
        r := r - {k};
      } else {
        r := r[k := kept];
      }
    }
  }

  method Lower(m: map<nat, nat>, a: nat, d: nat) returns (r: map<nat, nat>)
    ensures r == Lowered(m, a, d)
  {
    r := m;
    if a in m {
      var left := SatSub(m[a], d);
      r := r[a := left];
      if left == 0 {
        r := r - {a};
      }
    }
  }
}
