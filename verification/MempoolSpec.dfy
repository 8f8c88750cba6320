/** The pool, its companion indexes, and what admission and removal do to them. */
module MempoolSpec {
  import opened Options
  import opened Lists
  import opened Sums
  import opened Words

  const FIXED_OVERHEAD: nat := 128

  const MAX_QUEUE_GAP: nat := 32

  const MAX_QUEUED_PER_SENDER: nat := 32

  const MAX_QUEUED_TOTAL: nat := 5_000

  /** An address as written; `canonical` is the same for every letter case. */
  datatype Address = Address(canonical: nat, spelling: nat)

  datatype Kind =
    | Transfer | SwapSell | StakeZagros | BridgeSwapAndBurn | ContractCall | CallContract | DeployContract
    | BridgeMint | BridgeMintAndSwap | OtherKind

  /** `envelope` is the length of signature and addresses, `encoded` the size inside a block body,
      `sound` the verdict of the structural and signature checks, `gasOk` that of the intrinsic-gas check. */
  datatype Tx = Tx(
    id: nat, sender: Address, nonce: nat, kind: Kind, amount: nat, gasLimit: nat, gasPrice: nat,
    payload: nat, envelope: nat, encoded: nat, timestamp: nat, sound: bool, gasOk: bool)

  predicate Heavy(tx: Tx) { tx.kind.ContractCall? || tx.kind.CallContract? || tx.kind.DeployContract? }

  predicate Evm(tx: Tx) { tx.kind.ContractCall? || tx.kind.CallContract? }

  function Canon(tx: Tx): nat { tx.sender.canonical }

  function Size(tx: Tx): nat { tx.payload + tx.envelope + FIXED_OVERHEAD }

  /** The depth keeps the product folded; nothing here depends on its value. */
  function Fee(tx: Tx, depth: nat := 3): nat
  {
    if depth > 0 then Fee(tx, depth - 1) else SatMul(tx.gasLimit, tx.gasPrice)
  }

  lemma {:induction false} FeeIs(tx: Tx, depth: nat := 3)
    ensures Fee(tx, depth) == SatMul(tx.gasLimit, tx.gasPrice)
    decreases depth
  {
    if depth > 0 {
      FeeIs(tx, depth - 1);
    }
  }

  /** What the sender's balance will be charged. */
  function Cost(tx: Tx): nat {
    if tx.kind.Transfer? || tx.kind.SwapSell? || tx.kind.StakeZagros? || tx.kind.BridgeSwapAndBurn? || Evm(tx)
    then SatAdd(Fee(tx), tx.amount) else Fee(tx)
  }

  datatype Config = Config(
    capacity: nat, maxPerAddress: nat, maxPayload: nat, maxBytes: nat, gasBudget: nat, expiry: nat, bridge: Option<nat>)

  predicate Exempt(tx: Tx, bridge: Option<nat>) {
    (tx.kind.BridgeMint? || tx.kind.BridgeMintAndSwap?) && bridge == Some(Canon(tx))
  }

  function Reserve(tx: Tx, bridge: Option<nat>): nat {
    if Exempt(tx, bridge) then 0 else Cost(tx)
  }

  // ----- the structures -----

  datatype NonceKey = NonceKey(sender: nat, nonce: nat)

  function KeyOf(tx: Tx): NonceKey { NonceKey(Canon(tx), tx.nonce) }

  datatype Index = Index(pool: map<nat, Tx>, byNonce: map<NonceKey, nat>, count: nat, bytes: nat)

  datatype Lanes = Lanes(light: map<nat, seq<nat>>, heavy: map<nat, seq<nat>>, key: map<nat, nat>, next: nat)

  datatype Ledger = Ledger(perAddress: map<nat, nat>, pending: map<nat, nat>)

  datatype Times = Times(arrival: map<nat, nat>, local: map<nat, nat>)

  datatype Mem = Mem(ix: Index, lanes: Lanes, ledger: Ledger, times: Times)

  function At(m: map<nat, nat>, a: nat): nat {
    if a in m then m[a] else 0
  }

  // ----- admission -----

  /** The checks before the sender's counter is looked up. */
  predicate EarlyOk(m: Mem, cfg: Config, tx: Tx, minFee: nat, balance: nat) {
    && !tx.kind.DeployContract?
    && tx.payload <= cfg.maxPayload
    && m.ix.count < cfg.capacity
    && m.ix.bytes + Size(tx) <= cfg.maxBytes
    && tx.sound && (Evm(tx) ==> tx.gasOk)
    && (Exempt(tx, cfg.bridge) || (Fee(tx) >= minFee && balance >= Fee(tx)))
  }

  predicate LateOk(m: Mem, cfg: Config, tx: Tx, balance: nat) {
    && At(m.ledger.perAddress, Canon(tx)) < cfg.maxPerAddress
    && tx.id !in m.ix.pool
    && KeyOf(tx) !in m.ix.byNonce
    && Reserve(tx, cfg.bridge) <= SatSub(balance, At(m.ledger.pending, Canon(tx)))
  }

  function IndexInserted(ix: Index, tx: Tx): Index {
    Index(ix.pool[tx.id := tx], ix.byNonce[KeyOf(tx) := tx.id], ix.count + 1, ix.bytes + Size(tx))
  }

  function Bucket(lane: map<nat, seq<nat>>, k: nat): seq<nat> {
    if k in lane then lane[k] else []
  }

  function LanesInserted(l: Lanes, tx: Tx): Lanes {
    Lanes(LaneWith(l.light, l.next, tx, false), LaneWith(l.heavy, l.next, tx, true), l.key[tx.id := l.next], l.next + 1)
  }

  /** A transaction joins the lane of its own weight only. */
  function LaneWith(lane: map<nat, seq<nat>>, k: nat, tx: Tx, heavy: bool): map<nat, seq<nat>> {
    if Heavy(tx) == heavy then lane[k := Bucket(lane, k) + [tx.id]] else lane
  }

  function LedgerInserted(l: Ledger, tx: Tx, reserve: nat): Ledger {
    Ledger(l.perAddress[Canon(tx) := At(l.perAddress, Canon(tx)) + 1],
           l.pending[Canon(tx) := At(l.pending, Canon(tx)) + reserve])
  }

  function Inserted(m: Mem, cfg: Config, tx: Tx, now: nat): Mem {
    Mem(IndexInserted(m.ix, tx), LanesInserted(m.lanes, tx), LedgerInserted(m.ledger, tx, Reserve(tx, cfg.bridge)),
        m.times.(arrival := m.times.arrival[tx.id := now]))
  }

  /** A refusal after the counter was looked up leaves a zero entry behind. */
  function Counted(m: Mem, a: nat): Mem {
    m.(ledger := m.ledger.(perAddress := m.ledger.perAddress[a := At(m.ledger.perAddress, a)]))
  }

  predicate Accepts(m: Mem, cfg: Config, tx: Tx, minFee: nat, balance: nat, depth: nat := 3) {
    if depth > 0 then Accepts(m, cfg, tx, minFee, balance, depth - 1)
    else EarlyOk(m, cfg, tx, minFee, balance) && LateOk(m, cfg, tx, balance)
  }

  lemma {:induction false} AcceptsIs(m: Mem, cfg: Config, tx: Tx, minFee: nat, balance: nat, depth: nat := 3)
    ensures Accepts(m, cfg, tx, minFee, balance, depth) <==>
              EarlyOk(m, cfg, tx, minFee, balance) && LateOk(m, cfg, tx, balance)
    decreases depth
  {
    if depth > 0 {
      AcceptsIs(m, cfg, tx, minFee, balance, depth - 1);
    }
  }

  function Added(m: Mem, cfg: Config, tx: Tx, minFee: nat, balance: nat, now: nat, depth: nat := 3): Mem {
    if depth > 0 then Added(m, cfg, tx, minFee, balance, now, depth - 1)
    else if !EarlyOk(m, cfg, tx, minFee, balance) then m
    else if !LateOk(m, cfg, tx, balance) then Counted(m, Canon(tx))
    else Inserted(m, cfg, tx, now)
  }

  lemma {:induction false} AddedIs(m: Mem, cfg: Config, tx: Tx, minFee: nat, balance: nat, now: nat, depth: nat := 3)
    ensures Added(m, cfg, tx, minFee, balance, now, depth) ==
            if !EarlyOk(m, cfg, tx, minFee, balance) then m
            else if !LateOk(m, cfg, tx, balance) then Counted(m, Canon(tx))
            else Inserted(m, cfg, tx, now)
    decreases depth
  {
    if depth > 0 {
      AddedIs(m, cfg, tx, minFee, balance, now, depth - 1);
    }
  }

  // ----- removal -----

  function IndexRemoved(ix: Index, tx: Tx): Index {
    Index(ix.pool - {tx.id}, ix.byNonce - {KeyOf(tx)}, SatSub(ix.count, 1), SatSub(ix.bytes, Size(tx)))
  }

  function LaneWithout(lane: map<nat, seq<nat>>, k: nat, id: nat): map<nat, seq<nat>> {
    if k !in lane then lane
    else if Without(lane[k], id) == [] then lane - {k}
    else lane[k := Without(lane[k], id)]
  }

  function LaneLess(lane: map<nat, seq<nat>>, k: nat, tx: Tx, heavy: bool): map<nat, seq<nat>> {
    if Heavy(tx) == heavy then LaneWithout(lane, k, tx.id) else lane
  }

  function LanesRemoved(l: Lanes, tx: Tx, depth: nat := 3): Lanes {
    if depth > 0 then LanesRemoved(l, tx, depth - 1)
    else if tx.id !in l.key then l
    else
      Lanes(LaneLess(l.light, l.key[tx.id], tx, false), LaneLess(l.heavy, l.key[tx.id], tx, true),
            l.key - {tx.id}, l.next)
  }

  lemma {:induction false} LanesRemovedIs(l: Lanes, tx: Tx, depth: nat := 3)
    ensures LanesRemoved(l, tx, depth) ==
            if tx.id !in l.key then l
            else
              Lanes(LaneLess(l.light, l.key[tx.id], tx, false), LaneLess(l.heavy, l.key[tx.id], tx, true),
                    l.key - {tx.id}, l.next)
    decreases depth
  {
    if depth > 0 {
      LanesRemovedIs(l, tx, depth - 1);
    }
  }

  function Lowered(m: map<nat, nat>, a: nat, d: nat): map<nat, nat> {
    if a !in m then m
    else if SatSub(m[a], d) == 0 then m - {a}
    else m[a := SatSub(m[a], d)]
  }

  function LedgerRemoved(l: Ledger, tx: Tx): Ledger {
    Ledger(Lowered(l.perAddress, Canon(tx), 1), Lowered(l.pending, Canon(tx), Cost(tx)))
  }

  function Taken(m: Mem, id: nat, tx: Tx): Mem {
    Mem(IndexRemoved(m.ix, tx), LanesRemoved(m.lanes, tx), LedgerRemoved(m.ledger, tx),
        Times(m.times.arrival - {id}, m.times.local - {id}))
  }

  function Removed(m: Mem, id: nat, depth: nat := 3): Mem {
    if depth > 0 then Removed(m, id, depth - 1)
    else if id !in m.ix.pool then m
    else Taken(m, id, m.ix.pool[id])
  }

  lemma {:induction false} RemovedIs(m: Mem, id: nat, depth: nat := 3)
    ensures Removed(m, id, depth) == if id !in m.ix.pool then m else Taken(m, id, m.ix.pool[id])
    decreases depth
  {
    if depth > 0 {
      RemovedIs(m, id, depth - 1);
    }
  }

  // ----- coherence -----

  // The depths below keep each property folded until its `…Is` lemma opens it.

  /** Every transaction sits under its own identifier; the nonce index is exact. */
  predicate Indexed(ix: Index, depth: nat := 3)
  {
    if depth > 0 then Indexed(ix, depth - 1) else IndexExact(ix)
  }

  lemma {:induction false} IndexedIs(ix: Index, depth: nat := 3)
    ensures Indexed(ix, depth) <==> IndexExact(ix)
    decreases depth
  {
    if depth > 0 {
      IndexedIs(ix, depth - 1);
    }
  }

  predicate IndexExact(ix: Index) {
    && (forall id :: id in ix.pool ==> ix.pool[id].id == id)
    && (forall id :: id in ix.pool ==> KeyOf(ix.pool[id]) in ix.byNonce && ix.byNonce[KeyOf(ix.pool[id])] == id)
    && (forall k :: k in ix.byNonce ==> ix.byNonce[k] in ix.pool && KeyOf(ix.pool[ix.byNonce[k]]) == k)
  }

  function SizeIn(pool: map<nat, Tx>): nat -> int {
    (id: nat) => if id in pool then Size(pool[id]) else 0
  }

  ghost predicate Measured(ix: Index, depth: nat := 3)
  {
    if depth > 0 then Measured(ix, depth - 1)
    else ix.count == |ix.pool| && ix.bytes == Sum(ix.pool.Keys, SizeIn(ix.pool))
  }

  lemma {:induction false} MeasuredIs(ix: Index, depth: nat := 3)
    ensures Measured(ix, depth) <==> ix.count == |ix.pool| && ix.bytes == Sum(ix.pool.Keys, SizeIn(ix.pool))
    decreases depth
  {
    if depth > 0 {
      MeasuredIs(ix, depth - 1);
    }
  }

  predicate OneLane(lane: map<nat, seq<nat>>, key: map<nat, nat>, pool: map<nat, Tx>, heavy: bool) {
    && (forall k :: k in lane ==>
          |lane[k]| == 1 && lane[k][0] in key && key[lane[k][0]] == k && lane[k][0] in pool
          && Heavy(pool[lane[k][0]]) == heavy)
    && (forall id :: id in pool && Heavy(pool[id]) == heavy ==> id in key && key[id] in lane && lane[key[id]] == [id])
  }

  /** Each pooled transaction is in exactly one lane, alone under its own admission number. */
  predicate Laned(l: Lanes, pool: map<nat, Tx>, depth: nat := 3)
  {
    if depth > 0 then Laned(l, pool, depth - 1) else LanesExact(l, pool)
  }

  lemma {:induction false} LanedIs(l: Lanes, pool: map<nat, Tx>, depth: nat := 3)
    ensures Laned(l, pool, depth) <==> LanesExact(l, pool)
    decreases depth
  {
    if depth > 0 {
      LanedIs(l, pool, depth - 1);
    }
  }

  predicate LanesExact(l: Lanes, pool: map<nat, Tx>) {
    && l.key.Keys == pool.Keys
    && (forall id :: id in l.key ==> l.key[id] < l.next)
    && (forall a, b :: a in l.key && b in l.key && l.key[a] == l.key[b] ==> a == b)
    && OneLane(l.light, l.key, pool, false) && OneLane(l.heavy, l.key, pool, true)
  }

  function From(pool: map<nat, Tx>, a: nat): set<nat> {
    set id | id in pool && Canon(pool[id]) == a
  }

  function CostIn(pool: map<nat, Tx>): nat -> int {
    (id: nat) => if id in pool then Cost(pool[id]) else 0
  }

  function ReserveIn(pool: map<nat, Tx>, bridge: Option<nat>): nat -> int {
    (id: nat) => if id in pool then Reserve(pool[id], bridge) else 0
  }

  ghost function CostFrom(pool: map<nat, Tx>, a: nat): int { Sum(From(pool, a), CostIn(pool)) }

  ghost function ReservedFrom(pool: map<nat, Tx>, bridge: Option<nat>, a: nat): int {
    Sum(From(pool, a), ReserveIn(pool, bridge))
  }

  /** The counters of one sender stand for its pooled transactions; of the bridge authority no more than
      what its transactions reserved is held. */
  ghost predicate Balanced(l: Ledger, pool: map<nat, Tx>, bridge: Option<nat>, a: nat, depth: nat := 3)
  {
    if depth > 0 then Balanced(l, pool, bridge, a, depth - 1)
    else
      && At(l.perAddress, a) == |From(pool, a)|
      && (bridge != Some(a) ==> At(l.pending, a) == CostFrom(pool, a))
      && At(l.pending, a) <= ReservedFrom(pool, bridge, a)
  }

  ghost predicate AllBalanced(l: Ledger, pool: map<nat, Tx>, bridge: Option<nat>) {
    forall a: nat :: Balanced(l, pool, bridge, a)
  }

  lemma {:induction false} BalancedIs(l: Ledger, pool: map<nat, Tx>, bridge: Option<nat>, a: nat, depth: nat := 3)
    ensures Balanced(l, pool, bridge, a, depth) <==>
              && At(l.perAddress, a) == |From(pool, a)|
              && (bridge != Some(a) ==> At(l.pending, a) == CostFrom(pool, a))
              && At(l.pending, a) <= ReservedFrom(pool, bridge, a)
    decreases depth
  {
    if depth > 0 {
      BalancedIs(l, pool, bridge, a, depth - 1);
    }
  }

  predicate Dated(t: Times, pool: map<nat, Tx>) {
    t.arrival.Keys == pool.Keys && t.local.Keys <= pool.Keys
  }

  ghost predicate Parts(ix: Index, l: Lanes, g: Ledger, t: Times, bridge: Option<nat>) {
    && Indexed(ix) && Measured(ix)
    && Laned(l, ix.pool)
    && AllBalanced(g, ix.pool, bridge)
    && Dated(t, ix.pool)
  }

  ghost predicate Coherent(m: Mem, cfg: Config) {
    Parts(m.ix, m.lanes, m.ledger, m.times, cfg.bridge)
  }

  /** The configured bounds. */
  predicate Within(m: Mem, cfg: Config) {
    && m.ix.count <= cfg.capacity && m.ix.bytes <= cfg.maxBytes
    && forall a :: a in m.ledger.perAddress ==> m.ledger.perAddress[a] <= cfg.maxPerAddress
  }

  const EMPTY: Mem := Mem(Index(map[], map[], 0, 0), Lanes(map[], map[], map[], 0), Ledger(map[], map[]), Times(map[], map[]))

  // ----- each structure is kept -----

  lemma IndexedKept(ix: Index, tx: Tx)
    requires Indexed(ix) && tx.id !in ix.pool && KeyOf(tx) !in ix.byNonce
    ensures Indexed(IndexInserted(ix, tx))
  {
    IndexedIs(ix);
    IndexedIs(IndexInserted(ix, tx));
  }

  lemma IndexedLess(ix: Index, tx: Tx)
    requires Indexed(ix) && tx.id in ix.pool && ix.pool[tx.id] == tx
    ensures Indexed(IndexRemoved(ix, tx))
  {
    IndexedIs(ix);
    IndexedIs(IndexRemoved(ix, tx));
  }

  lemma SumInsert(keys: set<nat>, f: nat -> int, g: nat -> int, k: nat)
    requires k !in keys && forall a :: a in keys ==> f(a) == g(a)
    ensures Sum(keys + {k}, g) == Sum(keys, f) + g(k)
  {
    SumPick(keys + {k}, g, k);
    assert keys + {k} - {k} == keys;
    SumSame(keys, f, g);
  }

  lemma SumDelete(keys: set<nat>, f: nat -> int, g: nat -> int, k: nat)
    requires k in keys && forall a :: a in keys && a != k ==> f(a) == g(a)
    ensures Sum(keys - {k}, g) == Sum(keys, f) - f(k)
  {
    SumPick(keys, f, k);
    SumSame(keys - {k}, f, g);
  }

  lemma MeasuredKept(ix: Index, tx: Tx)
    requires Measured(ix) && tx.id !in ix.pool
    ensures Measured(IndexInserted(ix, tx))
  {
    MeasuredIs(ix);
    MeasuredIs(IndexInserted(ix, tx));
    SizesInsert(ix.pool, tx);
  }

  lemma SizesInsert(pool: map<nat, Tx>, tx: Tx)
    requires tx.id !in pool
    ensures var q := pool[tx.id := tx];
            |q| == |pool| + 1 && Sum(q.Keys, SizeIn(q)) == Sum(pool.Keys, SizeIn(pool)) + Size(tx)
  {
    var q := pool[tx.id := tx];
    assert q.Keys == pool.Keys + {tx.id};
    assert |q| == |pool| + 1;
    assert Sum(q.Keys, SizeIn(q)) == Sum(pool.Keys, SizeIn(pool)) + Size(tx) by {
      SumInsert(pool.Keys, SizeIn(pool), SizeIn(q), tx.id);
    }
  }

  lemma SizesDelete(pool: map<nat, Tx>, tx: Tx)
    requires tx.id in pool && pool[tx.id] == tx
    ensures var q := pool - {tx.id};
            |q| == |pool| - 1 && Sum(q.Keys, SizeIn(q)) == Sum(pool.Keys, SizeIn(pool)) - Size(tx) >= 0
  {
    var q := pool - {tx.id};
    assert q.Keys == pool.Keys - {tx.id};
    assert |q| == |pool| - 1;
    assert Sum(q.Keys, SizeIn(q)) == Sum(pool.Keys, SizeIn(pool)) - Size(tx) >= 0 by {
      SumDelete(pool.Keys, SizeIn(pool), SizeIn(q), tx.id);
      SumAtLeast(pool.Keys, SizeIn(pool), tx.id);
    }
  }

  lemma MeasuredLess(ix: Index, tx: Tx)
    requires Measured(ix) && tx.id in ix.pool && ix.pool[tx.id] == tx
    ensures Measured(IndexRemoved(ix, tx))
  {
    MeasuredIs(ix);
    MeasuredIs(IndexRemoved(ix, tx));
    SizesDelete(ix.pool, tx);
  }

  lemma LaneInserted(lane: map<nat, seq<nat>>, key: map<nat, nat>, pool: map<nat, Tx>, tx: Tx, k: nat, heavy: bool)
    requires OneLane(lane, key, pool, heavy) && tx.id !in pool && tx.id !in key
    requires forall id :: id in key ==> key[id] < k
    ensures OneLane(LaneWith(lane, k, tx, heavy), key[tx.id := k], pool[tx.id := tx], heavy)
  {
    assert k !in lane;
  }

  lemma LanedKept(l: Lanes, pool: map<nat, Tx>, tx: Tx)
    requires Laned(l, pool) && tx.id !in pool
    ensures Laned(LanesInserted(l, tx), pool[tx.id := tx])
  {
    LanedIs(l, pool);
    ExactKept(l, pool, tx);
    LanedIs(LanesInserted(l, tx), pool[tx.id := tx]);
  }

  lemma ExactKept(l: Lanes, pool: map<nat, Tx>, tx: Tx)
    requires LanesExact(l, pool) && tx.id !in pool
    ensures LanesExact(LanesInserted(l, tx), pool[tx.id := tx])
  {
    KeysInserted(l.key, l.next, tx.id);
    LaneInserted(l.light, l.key, pool, tx, l.next, false);
    LaneInserted(l.heavy, l.key, pool, tx, l.next, true);
  }

  /** Admission numbers stay distinct. */
  lemma KeysInserted(key: map<nat, nat>, next: nat, id: nat)
    requires (forall i :: i in key ==> key[i] < next) && id !in key
    requires forall a, b :: a in key && b in key && key[a] == key[b] ==> a == b
    ensures var k := key[id := next];
            (forall i :: i in k ==> k[i] < next + 1) && forall a, b :: a in k && b in k && k[a] == k[b] ==> a == b
  {
  }

  lemma LaneRemoved(lane: map<nat, seq<nat>>, key: map<nat, nat>, pool: map<nat, Tx>, tx: Tx, heavy: bool)
    requires OneLane(lane, key, pool, heavy) && tx.id in pool && pool[tx.id] == tx && tx.id in key
    requires forall a, b :: a in key && b in key && key[a] == key[b] ==> a == b
    ensures OneLane(LaneLess(lane, key[tx.id], tx, heavy), key - {tx.id}, pool - {tx.id}, heavy)
  {
    if Heavy(tx) == heavy {
      assert lane[key[tx.id]] == [tx.id] && [tx.id][..0] == [];
      assert Without([tx.id], tx.id) == [];
    }
  }

  lemma LanedLess(l: Lanes, pool: map<nat, Tx>, tx: Tx)
    requires Laned(l, pool) && tx.id in pool && pool[tx.id] == tx
    ensures Laned(LanesRemoved(l, tx), pool - {tx.id})
  {
    LanedIs(l, pool);
    LanedIs(LanesRemoved(l, tx), pool - {tx.id});
    LanesRemovedIs(l, tx);
    LaneRemoved(l.light, l.key, pool, tx, false);
    LaneRemoved(l.heavy, l.key, pool, tx, true);
  }

  /** What one more transaction adds to the sums of its sender, and of nobody else. */
  lemma FromInsert(pool: map<nat, Tx>, bridge: Option<nat>, tx: Tx, a: nat)
    requires tx.id !in pool
    ensures var q := pool[tx.id := tx];
            && |From(q, a)| == |From(pool, a)| + (if Canon(tx) == a then 1 else 0)
            && CostFrom(q, a) == CostFrom(pool, a) + (if Canon(tx) == a then Cost(tx) else 0)
            && ReservedFrom(q, bridge, a) == ReservedFrom(pool, bridge, a) + (if Canon(tx) == a then Reserve(tx, bridge) else 0)
  {
    var q := pool[tx.id := tx];
    if Canon(tx) == a {
      assert From(q, a) == From(pool, a) + {tx.id};
      SumInsert(From(pool, a), CostIn(pool), CostIn(q), tx.id);
      SumInsert(From(pool, a), ReserveIn(pool, bridge), ReserveIn(q, bridge), tx.id);
    } else {
      assert From(q, a) == From(pool, a);
      SumSame(From(pool, a), CostIn(pool), CostIn(q));
      SumSame(From(pool, a), ReserveIn(pool, bridge), ReserveIn(q, bridge));
    }
  }

  lemma FromDelete(pool: map<nat, Tx>, bridge: Option<nat>, tx: Tx, a: nat)
    requires tx.id in pool && pool[tx.id] == tx
    ensures var q := pool - {tx.id};
            && |From(q, a)| == |From(pool, a)| - (if Canon(tx) == a then 1 else 0)
            && CostFrom(q, a) == CostFrom(pool, a) - (if Canon(tx) == a then Cost(tx) else 0) >= 0
            && ReservedFrom(q, bridge, a) == ReservedFrom(pool, bridge, a) - (if Canon(tx) == a then Reserve(tx, bridge) else 0) >= 0
  {
    var q := pool - {tx.id};
    if Canon(tx) == a {
      assert From(q, a) == From(pool, a) - {tx.id};
      SumDelete(From(pool, a), CostIn(pool), CostIn(q), tx.id);
      SumDelete(From(pool, a), ReserveIn(pool, bridge), ReserveIn(q, bridge), tx.id);
    } else {
      assert From(q, a) == From(pool, a);
      SumSame(From(pool, a), CostIn(pool), CostIn(q));
      SumSame(From(pool, a), ReserveIn(pool, bridge), ReserveIn(q, bridge));
    }
    SumNatural(From(q, a), CostIn(q));
    SumNatural(From(q, a), ReserveIn(q, bridge));
  }

  lemma BalancedKept(l: Ledger, pool: map<nat, Tx>, bridge: Option<nat>, tx: Tx, a: nat)
    requires Balanced(l, pool, bridge, a) && tx.id !in pool
    ensures Balanced(LedgerInserted(l, tx, Reserve(tx, bridge)), pool[tx.id := tx], bridge, a)
  {
    var k := LedgerInserted(l, tx, Reserve(tx, bridge));
    BalancedIs(l, pool, bridge, a);
    BalancedIs(k, pool[tx.id := tx], bridge, a);
    FromInsert(pool, bridge, tx, a);
    ReserveAtMost(tx, bridge);
    RaisedAt(l, tx, Reserve(tx, bridge), a);
  }

  lemma RaisedAt(l: Ledger, tx: Tx, reserve: nat, a: nat)
    ensures var k := LedgerInserted(l, tx, reserve);
            && At(k.perAddress, a) == At(l.perAddress, a) + (if a == Canon(tx) then 1 else 0)
            && At(k.pending, a) == At(l.pending, a) + (if a == Canon(tx) then reserve else 0)
  {
  }

  lemma BalancedLess(l: Ledger, pool: map<nat, Tx>, bridge: Option<nat>, tx: Tx, a: nat)
    requires Balanced(l, pool, bridge, a) && tx.id in pool && pool[tx.id] == tx
    ensures Balanced(LedgerRemoved(l, tx), pool - {tx.id}, bridge, a)
  {
    var k := LedgerRemoved(l, tx);
    BalancedIs(l, pool, bridge, a);
    BalancedIs(k, pool - {tx.id}, bridge, a);
    FromDelete(pool, bridge, tx, a);
    ReserveAtMost(tx, bridge);
    LoweredAt(l.perAddress, Canon(tx), 1, a);
    LoweredAt(l.pending, Canon(tx), Cost(tx), a);
  }

  lemma ReserveAtMost(tx: Tx, bridge: Option<nat>)
    ensures Reserve(tx, bridge) <= Cost(tx)
    ensures bridge != Some(Canon(tx)) ==> Reserve(tx, bridge) == Cost(tx)
  {
  }

  lemma LoweredAt(m: map<nat, nat>, c: nat, d: nat, a: nat)
    ensures At(Lowered(m, c, d), a) == if a == c then SatSub(At(m, a), d) else At(m, a)
  {
  }

  lemma BalancedSame(l: Ledger, k: Ledger, pool: map<nat, Tx>, bridge: Option<nat>, a: nat)
    requires Balanced(l, pool, bridge, a) && At(k.perAddress, a) == At(l.perAddress, a)
    requires At(k.pending, a) == At(l.pending, a)
    ensures Balanced(k, pool, bridge, a)
  {
    BalancedIs(l, pool, bridge, a);
    BalancedIs(k, pool, bridge, a);
  }

  // ----- coherence is kept -----

  lemma InsertedParts(ix: Index, l: Lanes, g: Ledger, t: Times, bridge: Option<nat>, tx: Tx, now: nat)
    requires Parts(ix, l, g, t, bridge) && tx.id !in ix.pool && KeyOf(tx) !in ix.byNonce
    ensures Parts(IndexInserted(ix, tx), LanesInserted(l, tx), LedgerInserted(g, tx, Reserve(tx, bridge)),
                  t.(arrival := t.arrival[tx.id := now]), bridge)
  {
    IndexedKept(ix, tx);
    MeasuredKept(ix, tx);
    LanedKept(l, ix.pool, tx);
    AllBalancedKept(g, ix.pool, bridge, tx);
  }

  lemma InsertedCoherent(m: Mem, cfg: Config, tx: Tx, now: nat)
    requires Coherent(m, cfg) && tx.id !in m.ix.pool && KeyOf(tx) !in m.ix.byNonce
    ensures Coherent(Inserted(m, cfg, tx, now), cfg)
  {
    InsertedParts(m.ix, m.lanes, m.ledger, m.times, cfg.bridge, tx, now);
  }

  lemma AllBalancedKept(l: Ledger, pool: map<nat, Tx>, bridge: Option<nat>, tx: Tx)
    requires tx.id !in pool && AllBalanced(l, pool, bridge)
    ensures AllBalanced(LedgerInserted(l, tx, Reserve(tx, bridge)), pool[tx.id := tx], bridge)
  {
    var k, q := LedgerInserted(l, tx, Reserve(tx, bridge)), pool[tx.id := tx];
    forall a: nat
      ensures Balanced(k, q, bridge, a)
    {
      BalancedKept(l, pool, bridge, tx, a);
    }
  }

  lemma CountedCoherent(m: Mem, cfg: Config, c: nat)
    requires Coherent(m, cfg)
    ensures Coherent(Counted(m, c), cfg)
  {
    var n := Counted(m, c);
    forall a: nat
      ensures Balanced(n.ledger, n.ix.pool, cfg.bridge, a)
    {
      BalancedSame(m.ledger, n.ledger, m.ix.pool, cfg.bridge, a);
    }
  }

  /** Admission keeps every index exact, whether it accepts or refuses. */
  lemma AddedCoherent(m: Mem, cfg: Config, tx: Tx, minFee: nat, balance: nat, now: nat)
    requires Coherent(m, cfg)
    ensures Coherent(Added(m, cfg, tx, minFee, balance, now), cfg)
  {
    AddedIs(m, cfg, tx, minFee, balance, now);
    if EarlyOk(m, cfg, tx, minFee, balance) {
      if LateOk(m, cfg, tx, balance) {
        InsertedCoherent(m, cfg, tx, now);
      } else {
        CountedCoherent(m, cfg, Canon(tx));
      }
    }
  }

  lemma AddedWithin(m: Mem, cfg: Config, tx: Tx, minFee: nat, balance: nat, now: nat)
    requires Within(m, cfg)
    ensures Within(Added(m, cfg, tx, minFee, balance, now), cfg)
  {
    AddedIs(m, cfg, tx, minFee, balance, now);
  }

  /** So does removal. */
  lemma RemovedCoherent(m: Mem, cfg: Config, id: nat)
    requires Coherent(m, cfg)
    ensures Coherent(Removed(m, id), cfg)
  {
    RemovedIs(m, id);
    if id in m.ix.pool {
      IdIs(m.ix, id);
      RemovedOne(m, cfg, m.ix.pool[id]);
    }
  }

  lemma IdIs(ix: Index, id: nat)
    requires Indexed(ix) && id in ix.pool
    ensures ix.pool[id].id == id
  {
    IndexedIs(ix);
  }

  lemma RemovedOne(m: Mem, cfg: Config, tx: Tx)
    requires Coherent(m, cfg) && tx.id in m.ix.pool && m.ix.pool[tx.id] == tx
    ensures Coherent(Taken(m, tx.id, tx), cfg)
  {
    var n := Taken(m, tx.id, tx);
    IndexedLess(m.ix, tx);
    MeasuredLess(m.ix, tx);
    LanedLess(m.lanes, m.ix.pool, tx);
    forall a: nat
      ensures Balanced(n.ledger, n.ix.pool, cfg.bridge, a)
    {
      BalancedLess(m.ledger, m.ix.pool, cfg.bridge, tx, a);
    }
  }

  lemma RemovedWithin(m: Mem, cfg: Config, id: nat)
    requires Within(m, cfg)
    ensures Within(Removed(m, id), cfg)
  {
    RemovedIs(m, id);
  }

  // ----- both together, folded -----

  ghost predicate Good(m: Mem, cfg: Config, depth: nat := 3) {
    if depth > 0 then Good(m, cfg, depth - 1) else Coherent(m, cfg) && Within(m, cfg)
  }

  lemma {:induction false} GoodIs(m: Mem, cfg: Config, depth: nat := 3)
    ensures Good(m, cfg, depth) <==> Coherent(m, cfg) && Within(m, cfg)
    decreases depth
  {
    if depth > 0 {
      GoodIs(m, cfg, depth - 1);
    }
  }

  lemma AddedGood(m: Mem, cfg: Config, tx: Tx, minFee: nat, balance: nat, now: nat)
    requires Good(m, cfg)
    ensures Good(Added(m, cfg, tx, minFee, balance, now), cfg)
  {
    GoodIs(m, cfg);
    GoodIs(Added(m, cfg, tx, minFee, balance, now), cfg);
    AddedCoherent(m, cfg, tx, minFee, balance, now);
    AddedWithin(m, cfg, tx, minFee, balance, now);
  }

  lemma RemovedGood(m: Mem, cfg: Config, id: nat)
    requires Good(m, cfg)
    ensures Good(Removed(m, id), cfg)
  {
    GoodIs(m, cfg);
    GoodIs(Removed(m, id), cfg);
    RemovedCoherent(m, cfg, id);
    RemovedWithin(m, cfg, id);
  }

  /** A transaction promoted from the queue is marked for immediate publication. */
  function Marked(m: Mem, id: nat, at: nat): Mem {
    m.(times := m.times.(local := m.times.local[id := at]))
  }

  lemma MarkedGood(m: Mem, cfg: Config, id: nat, at: nat)
    requires Good(m, cfg) && id in m.ix.pool
    ensures Good(Marked(m, id, at), cfg)
  {
    GoodIs(m, cfg);
    GoodIs(Marked(m, id, at), cfg);
  }

  lemma GoodId(m: Mem, cfg: Config, id: nat)
    requires Good(m, cfg) && id in m.ix.pool
    ensures m.ix.pool[id].id == id && KeyOf(m.ix.pool[id]) in m.ix.byNonce && m.ix.byNonce[KeyOf(m.ix.pool[id])] == id
  {
    GoodIs(m, cfg);
    IndexedIs(m.ix);
  }

  lemma GoodKey(m: Mem, cfg: Config, k: NonceKey)
    requires Good(m, cfg) && k in m.ix.byNonce
    ensures m.ix.byNonce[k] in m.ix.pool && KeyOf(m.ix.pool[m.ix.byNonce[k]]) == k
  {
    GoodIs(m, cfg);
    IndexedIs(m.ix);
  }

  /** An accepted transaction is the only new entry, under a nonce that was free. */
  lemma AddedEffect(m: Mem, cfg: Config, tx: Tx, minFee: nat, balance: nat, now: nat)
    ensures var n := Added(m, cfg, tx, minFee, balance, now);
            n.times.local == m.times.local &&
            if Accepts(m, cfg, tx, minFee, balance) then
              && tx.id !in m.ix.pool && KeyOf(tx) !in m.ix.byNonce
              && n.ix == IndexInserted(m.ix, tx)
            else n.ix == m.ix
  {
    AddedIs(m, cfg, tx, minFee, balance, now);
    AcceptsIs(m, cfg, tx, minFee, balance);
  }

  lemma RemovedEffect(m: Mem, cfg: Config, id: nat)
    requires Good(m, cfg) && id in m.ix.pool
    ensures var n := Removed(m, id);
            && n.ix.pool == m.ix.pool - {id}
            && n.ix.byNonce == m.ix.byNonce - {KeyOf(m.ix.pool[id])}
            && n.times.arrival == m.times.arrival - {id}
  {
    RemovedIs(m, id);
    GoodId(m, cfg, id);
  }

  lemma GoodDated(m: Mem, cfg: Config)
    requires Good(m, cfg)
    ensures m.times.arrival.Keys == m.ix.pool.Keys
  {
    GoodIs(m, cfg);
  }

  lemma EmptyGood(cfg: Config)
    ensures Good(EMPTY, cfg)
  {
    IndexedIs(EMPTY.ix);
    MeasuredIs(EMPTY.ix);
    LanedIs(EMPTY.lanes, EMPTY.ix.pool);
    forall a: nat
      ensures Balanced(EMPTY.ledger, EMPTY.ix.pool, cfg.bridge, a)
    {
      BalancedIs(EMPTY.ledger, EMPTY.ix.pool, cfg.bridge, a);
      assert From(EMPTY.ix.pool, a) == {};
    }
    GoodIs(EMPTY, cfg);
  }

  lemma RemovedPool(m: Mem, cfg: Config, id: nat)
    requires Good(m, cfg)
    ensures Removed(m, id).ix.pool == m.ix.pool - {id}
  {
    RemovedIs(m, id);
    if id in m.ix.pool {
      RemovedEffect(m, cfg, id);
    }
  }
}
