/** The pruned replay ledger for the votes of validators on probation. */
module ShadowVotes {
  import opened Text
  import opened Words

  const MAX_PER_BLOCK: nat := 256

  const MAX_AGE: nat := 128

  /** What the replay hash stands for; the address is in lower case. */
  datatype VoteKey = VoteKey(address: string, height: nat, round: nat)

  /** `sound` says that the account exists and the signature is by its key. */
  datatype Attestation = Attestation(address: string, height: nat, round: nat, sound: bool)

  datatype Liveness = Liveness(epoch: nat, participated: nat, total: nat, strikes: nat)

  function KeyOf(a: Attestation): VoteKey {
    VoteKey(Lower(a.address), a.height, a.round)
  }

  /** A vote may only speak of the recent past. */
  predicate InWindow(a: Attestation, block: nat) {
    a.height < block && SatSub(block, a.height) <= MAX_AGE
  }

  function Pruned(used: set<VoteKey>, block: nat): set<VoteKey> {
    set k | k in used && k.height >= SatSub(block, MAX_AGE)
  }

  predicate Counts(used: set<VoteKey>, block: nat, a: Attestation) {
    InWindow(a, block) && a.sound && KeyOf(a) !in used
  }

  function Ticked(live: map<string, Liveness>, address: string, epoch: nat): map<string, Liveness> {
    var old_ := if address in live then live[address] else Liveness(0, 0, 0, 0);
    var l := if old_.epoch != epoch then Liveness(epoch, 0, 0, old_.strikes) else old_;
    live[address := l.(total := l.total + 1, participated := l.participated + 1)]
  }

  /** `counted` is the history of everything that raised a counter. */
  datatype Ledger = Ledger(used: set<VoteKey>, live: map<string, Liveness>, counted: seq<VoteKey>)

  function One(l: Ledger, block: nat, epoch: nat, a: Attestation, prune: bool): Ledger {
    if Counts(l.used, block, a) then
      Ledger((if prune then Pruned(l.used, block) else l.used) + {KeyOf(a)},
             Ticked(l.live, Lower(a.address), epoch), l.counted + [KeyOf(a)])
    else l
  }

  function Several(l: Ledger, block: nat, epoch: nat, atts: seq<Attestation>, prune: bool): Ledger {
    if atts == [] then l
    else One(Several(l, block, epoch, atts[..|atts| - 1], prune), block, epoch, atts[|atts| - 1], prune)
  }

  function Taken(atts: seq<Attestation>): seq<Attestation> {
    if |atts| <= MAX_PER_BLOCK then atts else atts[..MAX_PER_BLOCK]
  }

  class ShadowVoteState {
    var used: set<VoteKey>
    var live: map<string, Liveness>
    ghost var counted: seq<VoteKey>

    constructor ()
      ensures View() == Ledger({}, map[], [])
    {
      used, live, counted := {}, map[], [];
    }

    ghost function View(): Ledger
      reads this
    {
      Ledger(used, live, counted)
    }

    /** Pruned first, inserted second. */
    method MarkUsed(k: VoteKey, block: nat)
      modifies this`used
      ensures used == Pruned(old(used), block) + {k}
    {
      var floor := SatSub(block, MAX_AGE);
      used := set e | e in used && e.height >= floor;
      used := used + {k};
    }

    method VerifyAndRecord(a: Attestation, epoch: nat, block: nat) returns (ok: bool)
      modifies this
      ensures ok == (a.sound && KeyOf(a) !in old(used))
      ensures ok ==> used == Pruned(old(used), block) + {KeyOf(a)}
                     && live == Ticked(old(live), Lower(a.address), epoch)
                     && counted == old(counted) + [KeyOf(a)]
      ensures !ok ==> View() == old(View())
    {
      if !a.sound || KeyOf(a) in used {
        return false;
      }
      MarkUsed(KeyOf(a), block);
      live := Ticked(live, Lower(a.address), epoch);
      counted := counted + [KeyOf(a)];
      return true;
    }

    method ApplyAttestations(block: nat, epoch: nat, atts: seq<Attestation>)
      modifies this
      ensures View() == Several(old(View()), block, epoch, Taken(atts), true)
    {
      var i := 0;
      while i < |atts| && i < MAX_PER_BLOCK
        invariant i <= |Taken(atts)|
        invariant View() == Several(old(View()), block, epoch, atts[..i], true)
      {
        assert atts[..i + 1][..i] == atts[..i];
        if atts[i].height < block && SatSub(block, atts[i].height) <= MAX_AGE {
          var _ := VerifyAndRecord(atts[i], epoch, block);
        }
        i := i + 1;
      }
      assert atts[..i] == Taken(atts);
    }
  }

  // ----- pruned and unbounded agree -----

  /** The pruned ledger forgets only what no later block may still refer to. */
  predicate Agrees(l: Ledger, u: Ledger, block: nat) {
    && l.used <= u.used && l.live == u.live && l.counted == u.counted
    && forall k :: k in u.used && k.height >= SatSub(block, MAX_AGE) ==> k in l.used
  }

  lemma OneAgrees(l: Ledger, u: Ledger, before: nat, block: nat, epoch: nat, a: Attestation)
    requires Agrees(l, u, before) && before <= block
    ensures Agrees(One(l, block, epoch, a, true), One(u, block, epoch, a, false), block)
  {
    if InWindow(a, block) {
      assert KeyOf(a) in u.used <==> KeyOf(a) in l.used;
    }
  }

  lemma {:induction false} SomeAgree(l: Ledger, u: Ledger, before: nat, block: nat, epoch: nat, atts: seq<Attestation>)
    requires Agrees(l, u, before) && before <= block
    ensures Agrees(Several(l, block, epoch, atts, true), Several(u, block, epoch, atts, false), block)
  {
    if atts != [] {
      var n := |atts| - 1;
      SomeAgree(l, u, before, block, epoch, atts[..n]);
      OneAgrees(Several(l, block, epoch, atts[..n], true), Several(u, block, epoch, atts[..n], false), block, block, epoch, atts[n]);
    }
  }

  datatype Block = Block(number: nat, epoch: nat, atts: seq<Attestation>)

  function Run(bs: seq<Block>, prune: bool): Ledger {
    if bs == [] then Ledger({}, map[], [])
    else
      var b := bs[|bs| - 1];
      Several(Run(bs[..|bs| - 1], prune), b.number, b.epoch, Taken(b.atts), prune)
  }

  predicate Ordered(bs: seq<Block>) {
    forall i, k :: 0 <= i < k < |bs| ==> bs[i].number <= bs[k].number
  }

  predicate Increasing(bs: seq<Block>) {
    forall i, k :: 0 <= i < k < |bs| ==> bs[i].number < bs[k].number
  }

  function Last(bs: seq<Block>): nat {
    if bs == [] then 0 else bs[|bs| - 1].number
  }

  lemma {:induction false} RunAgrees(bs: seq<Block>)
    requires Ordered(bs)
    ensures Agrees(Run(bs, true), Run(bs, false), Last(bs))
  {
    if bs != [] {
      var n := |bs| - 1;
      RunAgrees(bs[..n]);
      SomeAgree(Run(bs[..n], true), Run(bs[..n], false), Last(bs[..n]), bs[n].number, bs[n].epoch, Taken(bs[n].atts));
    }
  }

  /** Over any run with non-decreasing block numbers, pruning changes neither a counter nor what is counted. */
  lemma PruningIsInvisible(bs: seq<Block>)
    requires Ordered(bs)
    ensures Run(bs, true).live == Run(bs, false).live && Run(bs, true).counted == Run(bs, false).counted
  {
    RunAgrees(bs);
  }

  predicate Once(l: Ledger) {
    && (forall i :: 0 <= i < |l.counted| ==> l.counted[i] in l.used)
    && forall i, k :: 0 <= i < k < |l.counted| ==> l.counted[i] != l.counted[k]
  }

  lemma {:induction false} SomeOnce(l: Ledger, block: nat, epoch: nat, atts: seq<Attestation>)
    requires Once(l)
    ensures Once(Several(l, block, epoch, atts, false))
  {
    if atts != [] {
      SomeOnce(l, block, epoch, atts[..|atts| - 1]);
    }
  }

  lemma {:induction false} RunOnce(bs: seq<Block>)
    ensures Once(Run(bs, false))
  {
    if bs != [] {
      var b := bs[|bs| - 1];
      RunOnce(bs[..|bs| - 1]);
      SomeOnce(Run(bs[..|bs| - 1], false), b.number, b.epoch, Taken(b.atts));
    }
  }

  /** Although entries are discarded, no vote raises a counter twice over a whole run. */
  lemma CountedAtMostOnce(bs: seq<Block>, i: nat, k: nat)
    requires Ordered(bs)
    requires var counted := Run(bs, true).counted; i < k < |counted|
    ensures Run(bs, true).counted[i] != Run(bs, true).counted[k]
  {
    PruningIsInvisible(bs);
    RunOnce(bs);
  }

  // ----- the size of the ledger -----

  /** The block that inserted each entry still held. */
  ghost predicate Dated(l: Ledger, at: map<VoteKey, nat>, block: nat) {
    && at.Keys == l.used
    && (forall k :: k in at ==> k.height < at[k] <= block)
    && forall b :: |Inserted(at, b)| <= MAX_PER_BLOCK
  }

  ghost function Inserted(at: map<VoteKey, nat>, b: nat): set<VoteKey> {
    set k | k in at && at[k] == b
  }

  ghost predicate Fresh(l: Ledger, block: nat) {
    forall k :: k in l.used ==> k.height >= SatSub(block, MAX_AGE)
  }

  ghost function InsertedFrom(at: map<VoteKey, nat>, lo: nat, hi: nat): set<VoteKey> {
    set k | k in at && lo <= at[k] < hi
  }

  lemma {:induction false} InsertedBound(at: map<VoteKey, nat>, lo: nat, hi: nat)
    requires lo <= hi && forall b :: |Inserted(at, b)| <= MAX_PER_BLOCK
    ensures |InsertedFrom(at, lo, hi)| <= (hi - lo) * MAX_PER_BLOCK
    decreases hi
  {
    if lo == hi {
      assert InsertedFrom(at, lo, hi) == {};
    } else {
      InsertedBound(at, lo, hi - 1);
      assert InsertedFrom(at, lo, hi) == InsertedFrom(at, lo, hi - 1) + Inserted(at, hi - 1);
    }
  }

  lemma SubsetSizes<T>(a: set<T>, b: set<T>)
    requires a <= b
    ensures |a| <= |b|
  {
    assert b == a + (b - a);
  }

  /** While `block` is processed, `n` of its attestations done. */
  lemma OneDated(l: Ledger, at: map<VoteKey, nat>, block: nat, epoch: nat, a: Attestation, n: nat)
      returns (at': map<VoteKey, nat>)
    requires Dated(l, at, block) && |Inserted(at, block)| <= n < MAX_PER_BLOCK
    ensures var m := One(l, block, epoch, a, true);
            && Dated(m, at', block) && |Inserted(at', block)| <= n + 1
            && (m.used == l.used || Fresh(m, block))
  {
    if Counts(l.used, block, a) {
      at' := Redated(at, Pruned(l.used, block), KeyOf(a), block);
      RedatedSizes(at, Pruned(l.used, block), KeyOf(a), block, n);
    } else {
      at' := at;
    }
  }

  ghost function Redated(at: map<VoteKey, nat>, kept: set<VoteKey>, new_: VoteKey, block: nat): map<VoteKey, nat> {
    (map k | k in at && k in kept :: at[k])[new_ := block]
  }

  lemma RedatedSizes(at: map<VoteKey, nat>, kept: set<VoteKey>, new_: VoteKey, block: nat, n: nat)
    requires |Inserted(at, block)| <= n < MAX_PER_BLOCK && forall b :: |Inserted(at, b)| <= MAX_PER_BLOCK
    ensures var at' := Redated(at, kept, new_, block);
            |Inserted(at', block)| <= n + 1 && forall b :: |Inserted(at', b)| <= MAX_PER_BLOCK
  {
    var at' := Redated(at, kept, new_, block);
    forall b
      ensures |Inserted(at', b)| <= if b == block then n + 1 else MAX_PER_BLOCK
    {
      if b == block {
        SubsetSizes(Inserted(at', b), Inserted(at, b) + {new_});
      } else {
        SubsetSizes(Inserted(at', b), Inserted(at, b));
      }
    }
  }

  lemma {:induction false} SomeDated(l: Ledger, at: map<VoteKey, nat>, block: nat, epoch: nat, atts: seq<Attestation>)
      returns (at': map<VoteKey, nat>)
    requires Dated(l, at, block) && Inserted(at, block) == {} && |atts| <= MAX_PER_BLOCK
    ensures var m := Several(l, block, epoch, atts, true);
            && Dated(m, at', block) && |Inserted(at', block)| <= |atts|
            && (m.used == l.used || Fresh(m, block))
  {
    if atts == [] {
      at' := at;
    } else {
      var n := |atts| - 1;
      var before := SomeDated(l, at, block, epoch, atts[..n]);
      at' := OneDated(Several(l, block, epoch, atts[..n], true), before, block, epoch, atts[n], n);
    }
  }

  /** Everything held was inserted by one of the last 128 blocks. */
  lemma FreshIsSmall(l: Ledger, at: map<VoteKey, nat>, block: nat)
    requires Dated(l, at, block) && Fresh(l, block)
    ensures |l.used| <= MAX_AGE * MAX_PER_BLOCK
  {
    var lo := SatSub(block, MAX_AGE) + 1;
    if block == 0 {
      assert l.used == {} by {
        assert forall k :: k in l.used ==> k in at;
      }
    } else {
      assert l.used <= InsertedFrom(at, lo, block + 1) by {
        assert forall k :: k in l.used ==> k in at;
      }
      SubsetSizes(l.used, InsertedFrom(at, lo, block + 1));
      InsertedBound(at, lo, block + 1);
      Times(block + 1 - lo, MAX_AGE);
    }
  }

  lemma Times(a: nat, b: nat)
    requires a <= b
    ensures a * MAX_PER_BLOCK <= b * MAX_PER_BLOCK
  {
  }

  lemma {:induction false} RunDated(bs: seq<Block>) returns (at: map<VoteKey, nat>)
    requires Increasing(bs)
    ensures Dated(Run(bs, true), at, Last(bs))
    ensures |Run(bs, true).used| <= MAX_AGE * MAX_PER_BLOCK
  {
    if bs == [] {
      at := map[];
      assert forall b: nat :: Inserted(at, b) == {};
    } else {
      var n := |bs| - 1;
      var l, b := Run(bs[..n], true), bs[n];
      var before := RunDated(bs[..n]);
      assert Inserted(before, b.number) == {} by {
        NoneYet(bs[..n], before, l, b.number);
      }
      assert Dated(l, before, b.number);
      at := SomeDated(l, before, b.number, b.epoch, Taken(b.atts));
      if Run(bs, true).used != l.used {
        FreshIsSmall(Run(bs, true), at, b.number);
      }
    }
  }

  lemma NoneYet(bs: seq<Block>, at: map<VoteKey, nat>, l: Ledger, number: nat)
    requires Dated(l, at, Last(bs)) && (bs == [] || Last(bs) < number)
    ensures Inserted(at, number) == {}
  {
    assert forall k :: k in at ==> k.height < at[k] <= Last(bs);
  }

  /** With one call per block the ledger never holds more than 128 times 256 entries. */
  lemma LedgerIsBounded(bs: seq<Block>)
    requires Increasing(bs)
    ensures |Run(bs, true).used| <= MAX_AGE * MAX_PER_BLOCK
  {
    var _ := RunDated(bs);
  }
}
