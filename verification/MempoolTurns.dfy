/** Promotion as a function: turn by turn, each with its one possible outcome. */
module MempoolTurns {
  import opened Options
  import opened Sums
  import opened MempoolSpec
  import opened MempoolQueue
  import opened MempoolMoves
  import opened Words

  datatype MemState = MemState(mem: Mem, waiting: Waiting)

  type Fees = (Tx, nat) -> nat

  // ----- the entry that is due -----

  /** The transaction as it is offered to the pool, and the floor it has to reach. */
  function Offered(m: Mem, fees: Fees, e: Queued): Tx { Priced(e.tx, fees(e.tx, m.ix.count)) }

  function FloorFor(m: Mem, fees: Fees, e: Queued): nat { Floor(Offered(m, fees, e), fees(e.tx, m.ix.count)) }

  predicate Wanted(m: Mem, cfg: Config, fees: Fees, e: Queued, balance: nat) {
    Accepts(m, cfg, Offered(m, fees, e), FloorFor(m, fees, e), balance)
  }

  /** The pool after the offer; what came in locally is marked for immediate publication. */
  function AfterOffer(m: Mem, cfg: Config, fees: Fees, e: Queued, balance: nat, now: nat): Mem {
    var n := Added(m, cfg, Offered(m, fees, e), FloorFor(m, fees, e), balance, now);
    if Wanted(m, cfg, fees, e, balance) && e.local then Marked(n, e.tx.id, 0) else n
  }

  lemma OfferGood(m: Mem, cfg: Config, fees: Fees, e: Queued, balance: nat, now: nat)
    requires Good(m, cfg)
    ensures var n := AfterOffer(m, cfg, fees, e, balance, now);
            && Good(n, cfg)
            && (if Wanted(m, cfg, fees, e, balance) then Joined(m.ix, n.ix, e.tx) else n.ix == m.ix)
  {
    var tx, floor := Offered(m, fees, e), FloorFor(m, fees, e);
    AddedGood(m, cfg, tx, floor, balance, now);
    AddedEffect(m, cfg, tx, floor, balance, now);
    if Wanted(m, cfg, fees, e, balance) {
      JoinedBy(m.ix, e.tx, tx);
      if e.local {
        MarkedGood(Added(m, cfg, tx, floor, balance, now), cfg, tx.id, 0);
      }
    }
  }

  // ----- the queue without what is due or past -----

  function CutWaiting(w: Waiting, a: nat, k: nat): Waiting {
    if a !in w.queued then w
    else
      var q := Above(w.queued[a], k);
      Waiting(w.queued[a := q], SatSub(w.total + |q|, |w.queued[a]|))
  }

  lemma CutLoose(w: Waiting, a: nat, k: nat)
    requires Loose(w, a)
    ensures Loose(CutWaiting(w, a, k), a) && CutWaiting(w, a, k).queued == Cut(w.queued, a, k)
  {
    if a in w.queued {
      LooseShrunk(w, a, Above(w.queued[a], k));
    }
  }

  /** The total is determined by the queues. */
  lemma LooseSame(w: Waiting, v: Waiting, a: nat)
    requires Loose(w, a) && Loose(v, a) && w.queued == v.queued
    ensures w == v
  {
    LooseIs(w, a);
    LooseIs(v, a);
    TalliedIs(w);
    TalliedIs(v);
  }

  // ----- one turn -----

  function DueIn(s: MemState, a: nat, chain: Chain): nat { Expected(s.mem.ix, a, chain) }

  /** The loop goes on exactly when the due entry is there and the pool accepts it. */
  predicate GoesOn(s: MemState, cfg: Config, fees: Fees, a: nat, chain: Chain, depth: nat := 3) {
    if depth > 0 then GoesOn(s, cfg, fees, a, chain, depth - 1)
    else
      var due, q := DueIn(s, a, chain), QueueOf(s.waiting, a);
      due in q && Wanted(s.mem, cfg, fees, q[due], At(chain.balance, a))
  }

  function TurnTo(s: MemState, cfg: Config, fees: Fees, a: nat, chain: Chain, now: nat, depth: nat := 3): MemState {
    if depth > 0 then TurnTo(s, cfg, fees, a, chain, now, depth - 1)
    else
      var due, q := DueIn(s, a, chain), QueueOf(s.waiting, a);
      MemState(if due in q then AfterOffer(s.mem, cfg, fees, q[due], At(chain.balance, a), now) else s.mem,
               CutWaiting(s.waiting, a, due + 1))
  }

  lemma {:induction false} GoesOnIs(s: MemState, cfg: Config, fees: Fees, a: nat, chain: Chain, depth: nat := 3)
    ensures GoesOn(s, cfg, fees, a, chain, depth) <==>
            var due, q := DueIn(s, a, chain), QueueOf(s.waiting, a);
            due in q && Wanted(s.mem, cfg, fees, q[due], At(chain.balance, a))
    decreases depth
  {
    if depth > 0 {
      GoesOnIs(s, cfg, fees, a, chain, depth - 1);
    }
  }

  lemma {:induction false} TurnToIs(
    s: MemState, cfg: Config, fees: Fees, a: nat, chain: Chain, now: nat, depth: nat := 3)
    ensures TurnTo(s, cfg, fees, a, chain, now, depth) ==
            var due, q := DueIn(s, a, chain), QueueOf(s.waiting, a);
            MemState(if due in q then AfterOffer(s.mem, cfg, fees, q[due], At(chain.balance, a), now) else s.mem,
                     CutWaiting(s.waiting, a, due + 1))
    decreases depth
  {
    if depth > 0 {
      TurnToIs(s, cfg, fees, a, chain, now, depth - 1);
    }
  }

  function DueEntry(s: MemState, a: nat, chain: Chain): Option<Queued> {
    var due, q := DueIn(s, a, chain), QueueOf(s.waiting, a);
    if due in q then Some(q[due]) else None
  }

  /** A turn put together from the queue without the due entry and the pool after its offer. */
  lemma TurnFrom(s: MemState, due: Option<Queued>, n: Mem, w: Waiting, cfg: Config, fees: Fees, a: nat, chain: Chain, now: nat)
    requires due == DueEntry(s, a, chain) && w == CutWaiting(s.waiting, a, DueIn(s, a, chain) + 1)
    requires n == if due.Some? then AfterOffer(s.mem, cfg, fees, due.value, At(chain.balance, a), now) else s.mem
    ensures TurnTo(s, cfg, fees, a, chain, now) == MemState(n, w)
    ensures GoesOn(s, cfg, fees, a, chain) <==> due.Some? && Wanted(s.mem, cfg, fees, due.value, At(chain.balance, a))
  {
    GoesOnIs(s, cfg, fees, a, chain);
    TurnToIs(s, cfg, fees, a, chain, now);
  }

  lemma TurnGood(s: MemState, cfg: Config, fees: Fees, a: nat, chain: Chain, now: nat)
    requires Good(s.mem, cfg) && Loose(s.waiting, a)
    ensures var t := TurnTo(s, cfg, fees, a, chain, now);
            && Good(t.mem, cfg) && Loose(t.waiting, a)
            && Turned(s.mem.ix, t.mem.ix, s.waiting.queued, t.waiting.queued, a, At(chain.nonce, a),
                      GoesOn(s, cfg, fees, a, chain))
  {
    var due, q, more := DueIn(s, a, chain), QueueOf(s.waiting, a), GoesOn(s, cfg, fees, a, chain);
    var t := TurnTo(s, cfg, fees, a, chain, now);
    GoesOnIs(s, cfg, fees, a, chain);
    TurnToIs(s, cfg, fees, a, chain, now);
    CutLoose(s.waiting, a, due + 1);
    TurnedIs(s.mem.ix, t.mem.ix, s.waiting.queued, t.waiting.queued, a, At(chain.nonce, a), more);
    if due in q {
      LooseEntry(s.waiting, a, due);
      OfferGood(s.mem, cfg, fees, q[due], At(chain.balance, a), now);
    }
  }

  lemma TurnShrinks(s: MemState, cfg: Config, fees: Fees, a: nat, chain: Chain, now: nat)
    requires GoesOn(s, cfg, fees, a, chain)
    ensures QueueOf(TurnTo(s, cfg, fees, a, chain, now).waiting, a).Keys < QueueOf(s.waiting, a).Keys
  {
    GoesOnIs(s, cfg, fees, a, chain);
    TurnToIs(s, cfg, fees, a, chain, now);
    var due := DueIn(s, a, chain);
    assert due in QueueOf(s.waiting, a) && due !in Above(QueueOf(s.waiting, a), due + 1);
  }

  // ----- the loop -----

  function AfterTurns(s: MemState, cfg: Config, fees: Fees, a: nat, chain: Chain, now: nat): MemState
    decreases QueueOf(s.waiting, a).Keys
  {
    var t := TurnTo(s, cfg, fees, a, chain, now);
    if GoesOn(s, cfg, fees, a, chain) then
      TurnShrinks(s, cfg, fees, a, chain, now);
      AfterTurns(t, cfg, fees, a, chain, now)
    else t
  }

  /** How many entries join. */
  function Turns(s: MemState, cfg: Config, fees: Fees, a: nat, chain: Chain, now: nat): nat
    decreases QueueOf(s.waiting, a).Keys
  {
    if GoesOn(s, cfg, fees, a, chain) then
      TurnShrinks(s, cfg, fees, a, chain, now);
      1 + Turns(TurnTo(s, cfg, fees, a, chain, now), cfg, fees, a, chain, now)
    else 0
  }

  /** An emptied queue is taken out of the table. */
  function Tidied(w: Waiting, a: nat): Waiting {
    if a in w.queued && w.queued[a] == map[] then Waiting(w.queued - {a}, w.total) else w
  }

  function Promotion(s: MemState, cfg: Config, fees: Fees, a: nat, chain: Chain, now: nat): MemState {
    var t := AfterTurns(s, cfg, fees, a, chain, now);
    MemState(t.mem, Tidied(t.waiting, a))
  }

  lemma {:induction false} TurnsKeep(
    before: Index, was: map<nat, map<nat, Queued>>, s: MemState, k: nat, n: nat,
    cfg: Config, fees: Fees, a: nat, chain: Chain, now: nat)
    requires Good(s.mem, cfg) && Loose(s.waiting, a)
    requires Promoted(before, s.mem.ix, was, s.waiting.queued, a, k, n) && k <= DueIn(s, a, chain)
    ensures var t := AfterTurns(s, cfg, fees, a, chain, now);
            && Good(t.mem, cfg) && Loose(t.waiting, a)
            && Promoted(before, t.mem.ix, was, t.waiting.queued, a, DueIn(t, a, chain) + 1,
                        n + Turns(s, cfg, fees, a, chain, now))
    decreases QueueOf(s.waiting, a).Keys
  {
    var t, more := TurnTo(s, cfg, fees, a, chain, now), GoesOn(s, cfg, fees, a, chain);
    TurnGood(s, cfg, fees, a, chain, now);
    PromotedStep(before, s.mem.ix, t.mem.ix, was, s.waiting.queued, t.waiting.queued, a, At(chain.nonce, a), k, n, more);
    if more {
      TurnShrinks(s, cfg, fees, a, chain, now);
      TurnsKeep(before, was, t, DueIn(s, a, chain) + 1, n + 1, cfg, fees, a, chain, now);
    }
  }

  /** Promotion keeps everything exact; in the end the queue of `a` holds exactly what was queued above the nonce
      now expected, other queues are as they were, and what joined the pool waited there under its own nonce. */
  lemma PromotionKeeps(s: MemState, cfg: Config, fees: Fees, a: nat, chain: Chain, now: nat)
    requires Good(s.mem, cfg) && Sound(s.waiting)
    ensures var t := Promotion(s, cfg, fees, a, chain, now);
            && Good(t.mem, cfg) && Sound(t.waiting)
            && t.mem.ix.count == s.mem.ix.count + Turns(s, cfg, fees, a, chain, now)
            && Grown(s.mem.ix.pool, t.mem.ix.pool, QueueOf(s.waiting, a))
            && QueueOf(t.waiting, a) == Above(QueueOf(s.waiting, a), DueIn(t, a, chain) + 1)
            && t.waiting.queued - {a} == s.waiting.queued - {a}
  {
    var r := AfterTurns(s, cfg, fees, a, chain, now);
    var n := Turns(s, cfg, fees, a, chain, now);
    SoundIsLoose(s.waiting, a);
    CutNone(s.waiting.queued, a);
    PromotedIs(s.mem.ix, s.mem.ix, s.waiting.queued, s.waiting.queued, a, 0, 0);
    GrownIs(s.mem.ix.pool, s.mem.ix.pool, QueueIn(s.waiting.queued, a));
    TurnsKeep(s.mem.ix, s.waiting.queued, s, 0, 0, cfg, fees, a, chain, now);
    PromotedMeans(s.mem.ix, r.mem.ix, s.waiting.queued, r.waiting.queued, a, DueIn(r, a, chain) + 1, n);
    TidiedSound(r.waiting, a);
  }

  lemma TidiedSound(w: Waiting, a: nat)
    requires Loose(w, a)
    ensures var v := Tidied(w, a); Sound(v) && QueueOf(v, a) == QueueOf(w, a) && v.queued - {a} == w.queued - {a}
  {
    if a in w.queued && w.queued[a] == map[] {
      LooseDropped(w, a);
    } else {
      LooseIsSound(w, a);
    }
  }

  // ----- admission from outside -----

  function AfterDue(s: MemState, cfg: Config, fees: Fees, tx: Tx, floor: nat, chain: Chain, now: nat): MemState {
    var balance := At(chain.balance, Canon(tx));
    var t := s.(mem := Added(s.mem, cfg, tx, floor, balance, now));
    if Accepts(s.mem, cfg, tx, floor, balance) then Promotion(t, cfg, fees, Canon(tx), chain, now) else t
  }

  function AfterPriced(s: MemState, cfg: Config, fees: Fees, tx: Tx, floor: nat, chain: Chain, now: nat): MemState {
    var a, expected := Canon(tx), DueIn(s, Canon(tx), chain);
    if 0 < tx.nonce - expected <= MAX_QUEUE_GAP then
      if Queueable(tx, fees(tx, s.mem.ix.count), At(chain.balance, a)) && Room(s.waiting, tx)
      then s.(waiting := Enqueued(s.waiting, tx, now, false)) else s
    else if tx.nonce != expected then s
    else AfterDue(s, cfg, fees, tx, floor, chain, now)
  }

  /** The whole effect of the one way in. */
  function AfterAdmission(s: MemState, cfg: Config, fees: Fees, raw: Tx, chain: Chain, now: nat): MemState {
    if s.mem.ix.count >= cfg.capacity then s
    else
      var fee := fees(raw, s.mem.ix.count);
      AfterPriced(s, cfg, fees, Priced(raw, fee), Floor(Priced(raw, fee), fee), chain, now)
  }

  lemma AdmissionKeeps(s: MemState, cfg: Config, fees: Fees, raw: Tx, chain: Chain, now: nat)
    requires Good(s.mem, cfg) && Sound(s.waiting)
    ensures var t := AfterAdmission(s, cfg, fees, raw, chain, now); Good(t.mem, cfg) && Sound(t.waiting)
  {
    var fee := fees(raw, s.mem.ix.count);
    PricedKeeps(s, cfg, fees, Priced(raw, fee), Floor(Priced(raw, fee), fee), chain, now);
  }

  lemma PricedKeeps(s: MemState, cfg: Config, fees: Fees, tx: Tx, floor: nat, chain: Chain, now: nat)
    requires Good(s.mem, cfg) && Sound(s.waiting)
    ensures var t := AfterPriced(s, cfg, fees, tx, floor, chain, now); Good(t.mem, cfg) && Sound(t.waiting)
  {
    if Room(s.waiting, tx) {
      EnqueuedSound(s.waiting, tx, now, false);
    }
    var balance := At(chain.balance, Canon(tx));
    AddedGood(s.mem, cfg, tx, floor, balance, now);
    PromotionKeeps(s.(mem := Added(s.mem, cfg, tx, floor, balance, now)), cfg, fees, Canon(tx), chain, now);
  }

  // ----- the sweeps -----

  /** Removal down from `n`, as long as the nonces are consecutive. */
  function AfterPurge(m: Mem, a: nat, n: nat): Mem
    decreases n
  {
    if n > 0 && NonceKey(a, n - 1) in m.ix.byNonce then
      AfterPurge(Removed(m, m.ix.byNonce[NonceKey(a, n - 1)]), a, n - 1)
    else m
  }

  lemma {:induction false} PurgeKeeps(m: Mem, cfg: Config, a: nat, n: nat)
    requires Good(m, cfg)
    ensures Good(AfterPurge(m, a, n), cfg)
    decreases n
  {
    if n > 0 && NonceKey(a, n - 1) in m.ix.byNonce {
      RemovedGood(m, cfg, m.ix.byNonce[NonceKey(a, n - 1)]);
      PurgeKeeps(Removed(m, m.ix.byNonce[NonceKey(a, n - 1)]), cfg, a, n - 1);
    }
  }

  function RemovedAll(m: Mem, ids: seq<nat>): Mem {
    if ids == [] then m else Removed(RemovedAll(m, ids[..|ids| - 1]), ids[|ids| - 1])
  }

  lemma RemovedNext(m: Mem, ids: seq<nat>, id: nat)
    ensures RemovedAll(m, ids + [id]) == Removed(RemovedAll(m, ids), id)
  {
    assert (ids + [id])[..|ids|] == ids;
  }

  lemma {:induction false} RemovedAllGood(m: Mem, cfg: Config, ids: seq<nat>)
    requires Good(m, cfg)
    ensures Good(RemovedAll(m, ids), cfg)
  {
    if ids != [] {
      RemovedAllGood(m, cfg, ids[..|ids| - 1]);
      RemovedGood(RemovedAll(m, ids[..|ids| - 1]), cfg, ids[|ids| - 1]);
    }
  }

  /** What a sweep has removed so far, in the order in which it came across it. */
  ghost predicate Sweeping(m: Mem, r: Mem, order: seq<nat>, gone: set<nat>, depth: nat := 3) {
    if depth > 0 then Sweeping(m, r, order, gone, depth - 1)
    else
      && r == RemovedAll(m, order) && (forall id :: id in order <==> id in gone)
      && r.ix.pool == m.ix.pool - gone && r.times.arrival == m.times.arrival - gone
  }

  lemma {:induction false} SweepingIs(m: Mem, r: Mem, order: seq<nat>, gone: set<nat>, depth: nat := 3)
    ensures Sweeping(m, r, order, gone, depth) <==>
              && r == RemovedAll(m, order) && (forall id :: id in order <==> id in gone)
              && r.ix.pool == m.ix.pool - gone && r.times.arrival == m.times.arrival - gone
    decreases depth
  {
    if depth > 0 {
      SweepingIs(m, r, order, gone, depth - 1);
    }
  }

  lemma SweepNone(m: Mem)
    ensures Sweeping(m, m, [], {})
  {
    SweepingIs(m, m, [], {});
    assert m.ix.pool - {} == m.ix.pool && m.times.arrival - {} == m.times.arrival;
  }

  lemma SweepNext(m: Mem, r: Mem, cfg: Config, order: seq<nat>, gone: set<nat>, id: nat)
    requires Good(r, cfg) && id in r.ix.pool && Sweeping(m, r, order, gone)
    ensures Sweeping(m, Removed(r, id), order + [id], gone + {id})
  {
    SweepingIs(m, r, order, gone);
    SweepingIs(m, Removed(r, id), order + [id], gone + {id});
    RemovedEffect(r, cfg, id);
    RemovedNext(m, order, id);
    MinusOne(m.ix.pool, gone, id);
    MinusOne(m.times.arrival, gone, id);
  }

  lemma SweepOpen(m: Mem, r: Mem, cfg: Config, order: seq<nat>, gone: set<nat>, id: nat)
    requires Good(m, cfg) && Sweeping(m, r, order, gone) && id in m.times.arrival && id !in gone
    ensures id in r.ix.pool
  {
    SweepingIs(m, r, order, gone);
    GoodDated(m, cfg);
  }

  /** Queue entries past their time are gone, and with them the queues left empty. */
  ghost function Swept(w: Waiting, now: nat, expiry: nat): Waiting {
    var q := StillQueued(w.queued, now, expiry);
    NestedNatural(q);
    Waiting(q, Nested(q))
  }

  lemma NestedNatural(q: map<nat, map<nat, Queued>>)
    ensures Nested(q) >= 0
  {
    SumNatural(q.Keys, Lengths(q));
  }

  lemma SweptSmaller(q: map<nat, map<nat, Queued>>, now: nat, expiry: nat)
    ensures Nested(StillQueued(q, now, expiry)) <= Nested(q)
  {
    var r := StillQueued(q, now, expiry);
    forall a | a in r.Keys
      ensures Lengths(r)(a) <= Lengths(q)(a)
    {
      SubmapSize(r[a], q[a]);
    }
    SumBelow(r.Keys, Lengths(r), Lengths(q));
    SumPart(r.Keys, q.Keys, Lengths(q));
  }

  lemma SweptFiled(w: Waiting, now: nat, expiry: nat, total: nat)
    requires Filed(w) && total <= w.total
    ensures var v := Waiting(StillQueued(w.queued, now, expiry), total); Filed(v) && NoneEmpty(v)
  {
    var q := StillQueued(w.queued, now, expiry);
    forall a | a in q
      ensures |q[a]| <= MAX_QUEUED_PER_SENDER
    {
      SubmapSize(q[a], w.queued[a]);
    }
  }

  lemma SweptSound(w: Waiting, now: nat, expiry: nat)
    requires Sound(w)
    ensures Sound(Swept(w, now, expiry))
  {
    var v := Swept(w, now, expiry);
    TalliedIs(w);
    TalliedIs(v);
    SweptSmaller(w.queued, now, expiry);
    SweptFiled(w, now, expiry, v.total);
  }

  /** The total is determined by the queues. */
  lemma SoundSame(w: Waiting, v: Waiting)
    requires Sound(w) && Sound(v) && w.queued == v.queued
    ensures w == v
  {
    TalliedIs(w);
    TalliedIs(v);
  }
}
