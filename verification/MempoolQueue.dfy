/** The forward-nonce queue, and the nonce a sender is expected to use next. */
module MempoolQueue {
  import opened Sums
  import opened MempoolSpec

  datatype Queued = Queued(tx: Tx, at: nat, local: bool)

  datatype Waiting = Waiting(queued: map<nat, map<nat, Queued>>, total: nat)

  function QueueIn(queued: map<nat, map<nat, Queued>>, a: nat): map<nat, Queued> {
    if a in queued then queued[a] else map[]
  }

  function QueueOf(w: Waiting, a: nat): map<nat, Queued> { QueueIn(w.queued, a) }

  // ----- the next nonce -----

  /** The pooled nonces of `a` from `n` on. */
  function NoncesFrom(byNonce: map<NonceKey, nat>, a: nat, n: nat): set<NonceKey> {
    set k | k in byNonce && k.sender == a && k.nonce >= n
  }

  /** The first nonce from `n` on that is not pooled. */
  function NextFree(byNonce: map<NonceKey, nat>, a: nat, n: nat): nat
    decreases NoncesFrom(byNonce, a, n)
  {
    if NonceKey(a, n) in byNonce then
      assert NonceKey(a, n) in NoncesFrom(byNonce, a, n) && NonceKey(a, n) !in NoncesFrom(byNonce, a, n + 1);
      NextFree(byNonce, a, n + 1)
    else n
  }

  /** It is the one number with nothing but pooled nonces between it and `n`. */
  lemma {:induction false} NextFreeIs(byNonce: map<NonceKey, nat>, a: nat, n: nat, r: nat)
    ensures NextFree(byNonce, a, n) == r <==>
              n <= r && NonceKey(a, r) !in byNonce && forall k :: n <= k < r ==> NonceKey(a, k) in byNonce
    decreases NoncesFrom(byNonce, a, n)
  {
    if NonceKey(a, n) in byNonce {
      assert NonceKey(a, n) in NoncesFrom(byNonce, a, n) && NonceKey(a, n) !in NoncesFrom(byNonce, a, n + 1);
      NextFreeIs(byNonce, a, n + 1, r);
      NextFreeIs(byNonce, a, n + 1, NextFree(byNonce, a, n + 1));
    }
  }

  method PendingNonce(byNonce: map<NonceKey, nat>, stateNonce: nat, a: nat) returns (next: nat)
    ensures next == NextFree(byNonce, a, stateNonce)
  {
    next := stateNonce;
    while NonceKey(a, next) in byNonce
      invariant stateNonce <= next
      invariant forall k :: stateNonce <= k < next ==> NonceKey(a, k) in byNonce
      decreases NoncesFrom(byNonce, a, next)
    {
      assert NonceKey(a, next) in NoncesFrom(byNonce, a, next) && NonceKey(a, next) !in NoncesFrom(byNonce, a, next + 1);
      next := next + 1;
    }
    NextFreeIs(byNonce, a, stateNonce, next);
  }

  // ----- the queue is counted exactly -----

  /** Each entry waits under its own sender and nonce; the total is the sum of the queue lengths, and both
      stay within their caps. The depth keeps the sum folded until `WaitingIs` opens it. */
  ghost predicate Tallied(w: Waiting, depth: nat := 3) {
    if depth > 0 then Tallied(w, depth - 1) else w.total == Nested(w.queued)
  }

  lemma {:induction false} TalliedIs(w: Waiting, depth: nat := 3)
    ensures Tallied(w, depth) <==> w.total == Nested(w.queued)
    decreases depth
  {
    if depth > 0 {
      TalliedIs(w, depth - 1);
    }
  }

  predicate Filed(w: Waiting) {
    && w.total <= MAX_QUEUED_TOTAL
    && (forall a :: a in w.queued ==> |w.queued[a]| <= MAX_QUEUED_PER_SENDER)
    && forall a, n :: a in w.queued && n in w.queued[a] ==>
         Canon(w.queued[a][n].tx) == a && w.queued[a][n].tx.nonce == n
  }

  predicate NoneEmpty(w: Waiting) {
    forall a :: a in w.queued ==> w.queued[a] != map[]
  }

  ghost predicate Sound(w: Waiting) { Tallied(w) && Filed(w) && NoneEmpty(w) }

  /** Replacing one sender's queue moves the total by the difference in length. */
  lemma Retallied(w: Waiting, a: nat, q: map<nat, Queued>, total: nat)
    requires Tallied(w) && total == w.total - |QueueOf(w, a)| + |q|
    ensures Tallied(Waiting(w.queued[a := q], total))
  {
    TalliedIs(w);
    TalliedIs(Waiting(w.queued[a := q], total));
    SetInner(w.queued, a, q);
  }

  lemma Dropped(w: Waiting, a: nat)
    requires Tallied(w) && QueueOf(w, a) == map[]
    ensures Tallied(Waiting(w.queued - {a}, w.total))
  {
    TalliedIs(w);
    TalliedIs(Waiting(w.queued - {a}, w.total));
    DropInner(w.queued, a);
  }

  lemma QueueAtMostTotal(w: Waiting, a: nat)
    requires Tallied(w)
    ensures |QueueOf(w, a)| <= w.total
  {
    TalliedIs(w);
    InnerAtMost(w.queued, a);
  }

  /** Entries of `q` below `n` taken out. */
  function Above(q: map<nat, Queued>, n: nat): map<nat, Queued> {
    map k | k in q && k >= n :: q[k]
  }

  lemma SubmapSize(p: map<nat, Queued>, q: map<nat, Queued>)
    requires p.Keys <= q.Keys
    ensures |p| <= |q|
  {
    assert q.Keys == p.Keys + (q.Keys - p.Keys);
    assert |q.Keys| == |p.Keys| + |q.Keys - p.Keys|;
  }

  /** Shrinking one queue keeps everything but possibly its emptiness. */
  lemma Shrunk(w: Waiting, a: nat, q: map<nat, Queued>)
    requires Tallied(w) && Filed(w) && a in w.queued
    requires q.Keys <= w.queued[a].Keys && forall n :: n in q ==> q[n] == w.queued[a][n]
    ensures |q| <= |w.queued[a]| <= w.total
    ensures var v := Waiting(w.queued[a := q], w.total - |w.queued[a]| + |q|); Tallied(v) && Filed(v)
  {
    SubmapSize(q, w.queued[a]);
    QueueAtMostTotal(w, a);
    Retallied(w, a, q, w.total - |w.queued[a]| + |q|);
  }

  /** Sound, except that the queue of `a` may be empty for the moment. */
  ghost predicate Loose(w: Waiting, a: nat, depth: nat := 3) {
    if depth > 0 then Loose(w, a, depth - 1)
    else Tallied(w) && Filed(w) && forall b :: b in w.queued && b != a ==> w.queued[b] != map[]
  }

  lemma {:induction false} LooseIs(w: Waiting, a: nat, depth: nat := 3)
    ensures Loose(w, a, depth) <==>
              Tallied(w) && Filed(w) && forall b :: b in w.queued && b != a ==> w.queued[b] != map[]
    decreases depth
  {
    if depth > 0 {
      LooseIs(w, a, depth - 1);
    }
  }

  lemma LooseShrunk(w: Waiting, a: nat, q: map<nat, Queued>)
    requires Loose(w, a) && a in w.queued
    requires q.Keys <= w.queued[a].Keys && forall n :: n in q ==> q[n] == w.queued[a][n]
    ensures |q| <= |w.queued[a]| <= w.total && Loose(Waiting(w.queued[a := q], w.total - |w.queued[a]| + |q|), a)
  {
    LooseIs(w, a);
    Shrunk(w, a, q);
    LooseIs(Waiting(w.queued[a := q], w.total - |w.queued[a]| + |q|), a);
  }

  lemma SoundIsLoose(w: Waiting, a: nat)
    requires Sound(w)
    ensures Loose(w, a)
  {
    LooseIs(w, a);
  }

  lemma LooseIsSound(w: Waiting, a: nat)
    requires Loose(w, a) && (a in w.queued ==> w.queued[a] != map[])
    ensures Sound(w)
  {
    LooseIs(w, a);
  }

  lemma LooseDropped(w: Waiting, a: nat)
    requires Loose(w, a) && a in w.queued && w.queued[a] == map[]
    ensures Sound(Waiting(w.queued - {a}, w.total))
  {
    LooseIs(w, a);
    Dropped(w, a);
  }

  lemma LooseEntry(w: Waiting, a: nat, n: nat)
    requires Loose(w, a) && n in QueueOf(w, a)
    ensures Canon(QueueOf(w, a)[n].tx) == a && QueueOf(w, a)[n].tx.nonce == n
  {
    LooseIs(w, a);
  }

  // ----- queueing -----

  /** The two caps; an entry that replaces one under the same nonce is not held to the sender's cap. */
  predicate Room(w: Waiting, tx: Tx) {
    && w.total < MAX_QUEUED_TOTAL
    && (|QueueOf(w, Canon(tx))| < MAX_QUEUED_PER_SENDER || tx.nonce in QueueOf(w, Canon(tx)))
  }

  function Enqueued(w: Waiting, tx: Tx, now: nat, local: bool): Waiting {
    var q := QueueOf(w, Canon(tx));
    Waiting(w.queued[Canon(tx) := q[tx.nonce := Queued(tx, now, local)]], w.total + if tx.nonce in q then 0 else 1)
  }

  lemma EnqueuedSound(w: Waiting, tx: Tx, now: nat, local: bool)
    requires Sound(w) && Room(w, tx)
    ensures Sound(Enqueued(w, tx, now, local))
  {
    var a := Canon(tx);
    var q := QueueOf(w, a);
    var p, total := q[tx.nonce := Queued(tx, now, local)], w.total + if tx.nonce in q then 0 else 1;
    Retallied(w, a, p, total);
    Widened(q, tx.nonce, Queued(tx, now, local));
    QueueFiled(w, a);
    FiledSet(w, a, p, total);
  }

  lemma QueueFiled(w: Waiting, a: nat)
    requires Filed(w)
    ensures |QueueOf(w, a)| <= MAX_QUEUED_PER_SENDER
    ensures forall n :: n in QueueOf(w, a) ==> Canon(QueueOf(w, a)[n].tx) == a && QueueOf(w, a)[n].tx.nonce == n
  {
  }

  lemma Widened(q: map<nat, Queued>, n: nat, e: Queued)
    ensures |q[n := e]| == |q| + if n in q then 0 else 1
    ensures q[n := e] != map[]
  {
    assert q[n := e].Keys == q.Keys + {n};
    assert n in q[n := e];
  }

  lemma FiledSet(w: Waiting, a: nat, p: map<nat, Queued>, total: nat)
    requires Filed(w) && total <= MAX_QUEUED_TOTAL && |p| <= MAX_QUEUED_PER_SENDER
    requires forall n :: n in p ==> Canon(p[n].tx) == a && p[n].tx.nonce == n
    ensures Filed(Waiting(w.queued[a := p], total))
  {
  }

  // ----- counted, though some queues may be empty -----

  ghost predicate Booked(w: Waiting, depth: nat := 3) {
    if depth > 0 then Booked(w, depth - 1) else Tallied(w) && Filed(w)
  }

  lemma {:induction false} BookedIs(w: Waiting, depth: nat := 3)
    ensures Booked(w, depth) <==> Tallied(w) && Filed(w)
    decreases depth
  {
    if depth > 0 {
      BookedIs(w, depth - 1);
    }
  }

  lemma BookedShrunk(w: Waiting, a: nat, q: map<nat, Queued>)
    requires Booked(w) && a in w.queued
    requires q.Keys <= w.queued[a].Keys && forall n :: n in q ==> q[n] == w.queued[a][n]
    ensures |q| <= |w.queued[a]| <= w.total && Booked(Waiting(w.queued[a := q], w.total - |w.queued[a]| + |q|))
  {
    BookedIs(w);
    Shrunk(w, a, q);
    BookedIs(Waiting(w.queued[a := q], w.total - |w.queued[a]| + |q|));
  }

  lemma BookedDropped(w: Waiting, a: nat)
    requires Booked(w) && QueueOf(w, a) == map[]
    ensures Booked(Waiting(w.queued - {a}, w.total))
  {
    BookedIs(w);
    Dropped(w, a);
    BookedIs(Waiting(w.queued - {a}, w.total));
  }
}
