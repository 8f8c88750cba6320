/** What promotion, purging and expiry do to the pool and the queue. */
module MempoolMoves {
  import opened MempoolSpec
  import opened MempoolQueue
  import opened Words

  /** What the state says about accounts, by canonical address. */
  datatype Chain = Chain(balance: map<nat, nat>, nonce: map<nat, nat>)

  datatype Admission = Pooled(id: nat) | Forwarded(id: nat) | Full | InvalidNonce(expected: nat, got: nat) | Refused

  /** Native transactions are given the fixed fee of the moment, at least one unit. */
  function Priced(tx: Tx, fee: nat): Tx {
    if Evm(tx) then tx else tx.(gasLimit := 1, gasPrice := AtLeastOne(fee))
  }

  function AtLeastOne(fee: nat): nat {
    if fee == 0 then 1 else fee
  }

  /** The floor the admission check uses: the embedded fee, or for EVM transactions the current minimum. */
  function Floor(tx: Tx, fee: nat): nat {
    if Evm(tx) then fee else AtLeastOne(fee)
  }

  /** The nonce `a` is to use next: the committed one, moved past what is already pooled. */
  function Expected(ix: Index, a: nat, chain: Chain): nat { NextFree(ix.byNonce, a, At(chain.nonce, a)) }

  /** What a queued transaction must show: it is sound, and the balance covers fee and amount. */
  predicate Queueable(tx: Tx, fee: nat, balance: nat) {
    tx.sound && balance >= SatAdd(fee, tx.amount)
  }

  /** The answer to a transaction from outside, priced: one whose nonce is due is tried, one a little ahead waits. */
  function Verdict(m: Mem, w: Waiting, cfg: Config, tx: Tx, floor: nat, queueFee: nat, expected: nat,
      balance: nat): Admission {
    if m.ix.count >= cfg.capacity then Full
    else if 0 < tx.nonce - expected <= MAX_QUEUE_GAP then
      if Queueable(tx, queueFee, balance) && Room(w, tx) then Forwarded(tx.id) else Refused
    else if tx.nonce != expected then InvalidNonce(expected, tx.nonce)
    else if Accepts(m, cfg, tx, floor, balance) then Pooled(tx.id) else Refused
  }

  function Left(q: map<nat, Queued>, stale: set<nat>, n: nat): map<nat, Queued> {
    map k | k in q && (k >= n || k in stale) :: q[k]
  }

  /** Nothing pooled is lost, and whatever is new waited in `q` under its own nonce. */
  predicate Grown(p: map<nat, Tx>, r: map<nat, Tx>, q: map<nat, Queued>, depth: nat := 3) {
    if depth > 0 then Grown(p, r, q, depth - 1)
    else
      && (forall id :: id in p ==> id in r && r[id] == p[id])
      && forall id :: id in r && id !in p ==> r[id].nonce in q && Repriced(r[id], q[r[id].nonce].tx)
  }

  lemma {:induction false} GrownIs(p: map<nat, Tx>, r: map<nat, Tx>, q: map<nat, Queued>, depth: nat := 3)
    ensures Grown(p, r, q, depth) <==>
              && (forall id :: id in p ==> id in r && r[id] == p[id])
              && forall id :: id in r && id !in p ==> r[id].nonce in q && Repriced(r[id], q[r[id].nonce].tx)
    decreases depth
  {
    if depth > 0 {
      GrownIs(p, r, q, depth - 1);
    }
  }

  /** From `before`, every entry of `a` below `k` has left the queue, and `n` of them joined the pool. */
  predicate Promoted(before: Index, after: Index, was: map<nat, map<nat, Queued>>, queued: map<nat, map<nat, Queued>>,
                     a: nat, k: nat, n: nat, depth: nat := 3) {
    if depth > 0 then Promoted(before, after, was, queued, a, k, n, depth - 1)
    else queued == Cut(was, a, k) && after.count == before.count + n && Grown(before.pool, after.pool, QueueIn(was, a))
  }

  lemma {:induction false} PromotedIs(
    before: Index, after: Index, was: map<nat, map<nat, Queued>>, queued: map<nat, map<nat, Queued>>,
    a: nat, k: nat, n: nat, depth: nat := 3)
    ensures Promoted(before, after, was, queued, a, k, n, depth) <==>
              && queued == Cut(was, a, k) && after.count == before.count + n
              && Grown(before.pool, after.pool, QueueIn(was, a))
    decreases depth
  {
    if depth > 0 {
      PromotedIs(before, after, was, queued, a, k, n, depth - 1);
    }
  }

  lemma PromotedMeans(
    before: Index, after: Index, was: map<nat, map<nat, Queued>>, queued: map<nat, map<nat, Queued>>, a: nat, k: nat, n: nat)
    requires Promoted(before, after, was, queued, a, k, n)
    ensures after.count == before.count + n && Grown(before.pool, after.pool, QueueIn(was, a))
    ensures QueueIn(queued, a) == Above(QueueIn(was, a), k) && queued - {a} == was - {a}
  {
    PromotedIs(before, after, was, queued, a, k, n);
  }

  lemma CutTwice(was: map<nat, map<nat, Queued>>, a: nat, k: nat, n: nat)
    requires k <= n
    ensures Cut(Cut(was, a, k), a, n) == Cut(was, a, n)
  {
    if a in was {
      assert Above(Above(was[a], k), n) == Above(was[a], n);
    }
  }

  lemma CutNone(was: map<nat, map<nat, Queued>>, a: nat)
    ensures Cut(was, a, 0) == was
  {
    if a in was {
      assert Above(was[a], 0) == was[a];
    }
  }

  lemma GrownBy(before: Index, mid: Index, after: Index, q: map<nat, Queued>, tx: Tx)
    requires Grown(before.pool, mid.pool, q) && Joined(mid, after, tx)
    requires tx.nonce in q && q[tx.nonce].tx == tx
    ensures Grown(before.pool, after.pool, q) && after.count == mid.count + 1
    ensures after.byNonce == mid.byNonce[KeyOf(tx) := tx.id]
  {
    JoinedIs(mid, after, tx);
    GrownIs(before.pool, mid.pool, q);
    GrownIs(before.pool, after.pool, q);
    var t := after.pool[tx.id];
    assert after.pool == mid.pool[t.id := t];
  }

  lemma NextFreeMoves(byNonce: map<NonceKey, nat>, a: nat, n: nat, id: nat)
    ensures var due := NextFree(byNonce, a, n); due < NextFree(byNonce[NonceKey(a, due) := id], a, n)
  {
    var due := NextFree(byNonce, a, n);
    var after := byNonce[NonceKey(a, due) := id];
    NextFreeIs(byNonce, a, n, due);
    NextFreeIs(after, a, n, NextFree(after, a, n));
  }

  /** A turn of the loop carries the account on. */
  lemma PromotedStep(
    before: Index, mid: Index, after: Index, was: map<nat, map<nat, Queued>>, q: map<nat, map<nat, Queued>>,
    queued: map<nat, map<nat, Queued>>, a: nat, stateNonce: nat, k: nat, n: nat, more: bool)
    requires Promoted(before, mid, was, q, a, k, n) && Turned(mid, after, q, queued, a, stateNonce, more)
    requires k <= NextFree(mid.byNonce, a, stateNonce)
    ensures var due := NextFree(mid.byNonce, a, stateNonce);
            && Promoted(before, after, was, queued, a, due + 1, if more then n + 1 else n)
            && (if more then due < NextFree(after.byNonce, a, stateNonce) && QueueIn(queued, a).Keys < QueueIn(q, a).Keys
                else due == NextFree(after.byNonce, a, stateNonce))
  {
    var due := NextFree(mid.byNonce, a, stateNonce);
    TurnedIs(mid, after, q, queued, a, stateNonce, more);
    PromotedIs(before, mid, was, q, a, k, n);
    PromotedIs(before, after, was, queued, a, due + 1, if more then n + 1 else n);
    CutTwice(was, a, k, due + 1);
    if more {
      var tx := q[a][due].tx;
      GrownBy(before, mid, after, QueueIn(was, a), tx);
      NextFreeMoves(mid.byNonce, a, stateNonce, tx.id);
      assert due in QueueIn(q, a) && due !in QueueIn(queued, a);
    }
  }

  /** What one turn of the promotion loop does to the pool and the queue of `a`. */
  predicate Turned(before: Index, after: Index, was: map<nat, map<nat, Queued>>, queued: map<nat, map<nat, Queued>>,
                   a: nat, stateNonce: nat, more: bool, depth: nat := 3) {
    if depth > 0 then Turned(before, after, was, queued, a, stateNonce, more, depth - 1)
    else TurnedBy(before, after, was, queued, a, NextFree(before.byNonce, a, stateNonce), more)
  }

  lemma {:induction false} TurnedIs(
    before: Index, after: Index, was: map<nat, map<nat, Queued>>, queued: map<nat, map<nat, Queued>>,
    a: nat, stateNonce: nat, more: bool, depth: nat := 3)
    ensures Turned(before, after, was, queued, a, stateNonce, more, depth) <==>
              TurnedBy(before, after, was, queued, a, NextFree(before.byNonce, a, stateNonce), more)
    decreases depth
  {
    if depth > 0 {
      TurnedIs(before, after, was, queued, a, stateNonce, more, depth - 1);
    }
  }

  predicate TurnedBy(before: Index, after: Index, was: map<nat, map<nat, Queued>>, queued: map<nat, map<nat, Queued>>,
                     a: nat, due: nat, more: bool) {
    && queued == Cut(was, a, due + 1)
    && if more then a in was && due in was[a] && KeyOf(was[a][due].tx) == NonceKey(a, due) && Joined(before, after, was[a][due].tx)
       else after == before
  }

  function Cut(queued: map<nat, map<nat, Queued>>, a: nat, n: nat): map<nat, map<nat, Queued>> {
    if a in queued then queued[a := Above(queued[a], n)] else queued
  }

  /** The same transaction but for the embedded fee. */
  predicate Repriced(t: Tx, tx: Tx) {
    t == tx.(gasLimit := t.gasLimit, gasPrice := t.gasPrice)
  }

  /** `tx`, repriced, is the one new entry. */
  predicate Joined(before: Index, after: Index, tx: Tx, depth: nat := 3) {
    if depth > 0 then Joined(before, after, tx, depth - 1)
    else
    && tx.id !in before.pool && KeyOf(tx) !in before.byNonce
    && tx.id in after.pool && Repriced(after.pool[tx.id], tx)
    && after == IndexInserted(before, after.pool[tx.id])
  }

  lemma {:induction false} JoinedIs(before: Index, after: Index, tx: Tx, depth: nat := 3)
    ensures Joined(before, after, tx, depth) <==>
              && tx.id !in before.pool && KeyOf(tx) !in before.byNonce
              && tx.id in after.pool && Repriced(after.pool[tx.id], tx)
              && after == IndexInserted(before, after.pool[tx.id])
    decreases depth
  {
    if depth > 0 {
      JoinedIs(before, after, tx, depth - 1);
    }
  }

  lemma JoinedBy(before: Index, tx: Tx, t: Tx)
    requires Repriced(t, tx) && t.id !in before.pool && KeyOf(t) !in before.byNonce
    ensures Joined(before, IndexInserted(before, t), tx)
  {
    JoinedIs(before, IndexInserted(before, t), tx);
  }

  // ----- purging -----

  predicate Between(tx: Tx, a: nat, lo: nat, hi: nat) { Canon(tx) == a && lo <= tx.nonce < hi }

  /** Exactly the transactions of `a` with nonces in `[lo, hi)` are gone, and there was one for each. */
  predicate Purged(before: Index, after: Index, a: nat, lo: nat, hi: nat, depth: nat := 3) {
    if depth > 0 then Purged(before, after, a, lo, hi, depth - 1)
    else
      && after.pool == (map id | id in before.pool && !Between(before.pool[id], a, lo, hi) :: before.pool[id])
      && after.byNonce == (map k | k in before.byNonce && !(k.sender == a && lo <= k.nonce < hi) :: before.byNonce[k])
      && forall n :: lo <= n < hi ==> NonceKey(a, n) in before.byNonce
  }

  lemma {:induction false} PurgedIs(before: Index, after: Index, a: nat, lo: nat, hi: nat, depth: nat := 3)
    ensures Purged(before, after, a, lo, hi, depth) <==>
              && after.pool == (map id | id in before.pool && !Between(before.pool[id], a, lo, hi) :: before.pool[id])
              && after.byNonce == (map k | k in before.byNonce && !(k.sender == a && lo <= k.nonce < hi) :: before.byNonce[k])
              && forall n :: lo <= n < hi ==> NonceKey(a, n) in before.byNonce
    decreases depth
  {
    if depth > 0 {
      PurgedIs(before, after, a, lo, hi, depth - 1);
    }
  }

  lemma PurgedNone(ix: Index, a: nat, n: nat)
    ensures Purged(ix, ix, a, n, n)
  {
    PurgedIs(ix, ix, a, n, n);
  }

  lemma PurgedStep(before: Index, m: Mem, cfg: Config, a: nat, n: nat, hi: nat)
    requires n < hi && Purged(before, m.ix, a, n + 1, hi) && Good(m, cfg) && NonceKey(a, n) in m.ix.byNonce
    ensures m.ix.byNonce[NonceKey(a, n)] in m.ix.pool
    ensures Purged(before, Removed(m, m.ix.byNonce[NonceKey(a, n)]).ix, a, n, hi)
  {
    var id := m.ix.byNonce[NonceKey(a, n)];
    GoodKey(m, cfg, NonceKey(a, n));
    RemovedEffect(m, cfg, id);
    var after := Removed(m, id).ix;
    PurgedIs(before, m.ix, a, n + 1, hi);
    PurgedIs(before, after, a, n, hi);
    forall i | i in m.ix.pool && i != id
      ensures KeyOf(m.ix.pool[i]) != NonceKey(a, n)
    {
      GoodId(m, cfg, i);
    }
  }

  // ----- expiry -----

  predicate Stale(at: nat, now: nat, expiry: nat) { SatSub(now, at) > expiry }

  function Overdue(arrival: map<nat, nat>, now: nat, expiry: nat): set<nat> {
    set id | id in arrival && Stale(arrival[id], now, expiry)
  }

  lemma MinusOne<K, V>(m: map<K, V>, gone: set<K>, k: K)
    ensures m - gone - {k} == m - (gone + {k})
  {
  }

  /** What is left of a queue. */
  function Recent(q: map<nat, Queued>, now: nat, expiry: nat): map<nat, Queued> {
    map n | n in q && !Stale(q[n].at, now, expiry) :: q[n]
  }

  function AllRecent(queued: map<nat, map<nat, Queued>>, done: set<nat>, now: nat, expiry: nat)
    : map<nat, map<nat, Queued>>
  {
    map a | a in queued :: if a in done then Recent(queued[a], now, expiry) else queued[a]
  }

  /** Queues left empty go. */
  function StillQueued(queued: map<nat, map<nat, Queued>>, now: nat, expiry: nat): map<nat, map<nat, Queued>> {
    map a | a in queued && Recent(queued[a], now, expiry) != map[] :: Recent(queued[a], now, expiry)
  }

  lemma RecentStep(was: map<nat, map<nat, Queued>>, done: set<nat>, a: nat, now: nat, expiry: nat)
    requires a in was && a !in done
    ensures var q := AllRecent(was, done, now, expiry);
            q[a] == was[a] && AllRecent(was, done + {a}, now, expiry) == q[a := Recent(was[a], now, expiry)]
  {
  }

  /** The senders done with that have nothing left. */
  function Emptied(was: map<nat, map<nat, Queued>>, done: set<nat>, now: nat, expiry: nat): set<nat> {
    set a | a in was && a in done && Recent(was[a], now, expiry) == map[]
  }

  lemma EmptiedStep(was: map<nat, map<nat, Queued>>, done: set<nat>, a: nat, now: nat, expiry: nat)
    requires a in was
    ensures Emptied(was, done + {a}, now, expiry) ==
            Emptied(was, done, now, expiry) + if Recent(was[a], now, expiry) == map[] then {a} else {}
  {
  }

  lemma RecentAll(was: map<nat, map<nat, Queued>>, now: nat, expiry: nat)
    ensures var q, e := AllRecent(was, was.Keys, now, expiry), Emptied(was, was.Keys, now, expiry);
            q - e == StillQueued(was, now, expiry) && forall a :: a in q ==> (q[a] == map[] <==> a in e)
  {
  }

  lemma RecentNone(was: map<nat, map<nat, Queued>>, now: nat, expiry: nat)
    ensures AllRecent(was, {}, now, expiry) == was
  {
  }
}
