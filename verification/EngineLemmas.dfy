/** Each elementary change of an engine's view keeps the invariant. */
module EngineLemmas {
  import opened Options
  import opened ConsensusTypes
  import opened QuorumMath
  import opened EngineSpec

  /** At most one hash reaches a quorum in a slot. */
  lemma OneQuorum(slot: Slot, n: nat, h1: Hash, h2: Hash)
    requires n >= MIN_VALIDATORS && forall i :: i in slot ==> i < n
    requires |Backers(slot, h1)| >= Quorum(n) && |Backers(slot, h2)| >= Quorum(n)
    ensures h1 == h2
  {
    ToleranceBelowQuorum(n);
    OverlapSize(Backers(slot, h1), Backers(slot, h2), n);
    var i :| i in Backers(slot, h1) * Backers(slot, h2);
  }

  lemma BookPolka(v: View, n: nat, me: Option<nat>, r: nat, hash: Hash)
    requires Core(v, n, me) && HasPolka(v, n, r, hash)
    ensures Polka(v.life.seen, n, v.height, r, hash)
  {
    var slot := SlotOf(v.prevotes, r);
    forall i | i in Backers(slot, hash)
      ensures i in Supporters(v.life.seen, Prevote, v.height, r, hash)
    {
      var w := v.prevotes[r][i];
      assert w in v.life.seen;
    }
    SubsetSize(Backers(slot, hash), Supporters(v.life.seen, Prevote, v.height, r, hash));
  }

  lemma JustifiedGrows(log: set<Vote>, a: set<Vote>, b: set<Vote>, n: nat)
    requires a <= b && Justified(log, a, n)
    ensures Justified(log, b, n)
  {
    forall c | c in log && c.phase == Precommit && c.blockHash != NilHash
      ensures Polka(b, n, c.height, c.round, c.blockHash)
    {
      SupportersGrow(a, b, Prevote, c.height, c.round, c.blockHash);
    }
    forall c, p | c in log && p in log && Supersedes(c, p)
      ensures Unlocked(b, n, c, p.round, p.blockHash)
    {
      UnlockedGrows(a, b, n, c, p.round, p.blockHash);
    }
  }

  lemma UnlockedGrows(a: set<Vote>, b: set<Vote>, n: nat, c: Vote, r: nat, hash: Hash)
    requires a <= b && Unlocked(a, n, c, r, hash)
    ensures Unlocked(b, n, c, r, hash)
  {
    var vr :| c.round < vr < r && Polka(a, n, c.height, vr, hash);
    SupportersGrow(a, b, Prevote, c.height, vr, hash);
    assert Polka(b, n, c.height, vr, hash);
  }

  lemma QcGrows(a: View, b: View, n: nat, qc: Qc)
    requires a.life.seen <= b.life.seen && QcOk(a, n, qc)
    ensures QcOk(b, n, qc)
  {
    assert Supporters(a.life.seen, Precommit, qc.height, qc.round, qc.blockHash)
        <= Supporters(b.life.seen, Precommit, qc.height, qc.round, qc.blockHash);
  }

  /** Seeing one more valid vote disturbs nothing. */
  lemma SeeVote(a: View, b: View, n: nat, me: Option<nat>, w: Vote)
    requires Core(a, n, me) && GoodVote(w, n) && b == a.(life := a.life.(seen := a.life.seen + {w}))
    ensures Core(b, n, me)
    ensures forall r :: VotersAt(b, r) == VotersAt(a, r)
  {
    JustifiedGrows(a.life.log, a.life.seen, b.life.seen, n);
    SeeCertificates(a, b, n);
    SeeBooks(a, b, n, me);
  }

  lemma SeeCertificates(a: View, b: View, n: nat)
    requires a.life.seen <= b.life.seen && b == a.(life := a.life.(seen := b.life.seen)) && CommitsOk(a, n)
    requires AccusedOk(a, n)
    ensures CommitsOk(b, n) && AccusedOk(b, n)
  {
    forall qc | qc in a.life.decided ensures QcOk(b, n, qc) { QcGrows(a, b, n, qc); }
    if a.pendingQc.Some? { QcGrows(a, b, n, a.pendingQc.value); }
  }

  lemma SeeBooks(a: View, b: View, n: nat, me: Option<nat>)
    requires a.life.seen <= b.life.seen && b == a.(life := a.life.(seen := b.life.seen))
    requires LogBehind(a, n, me) && LockOk(a, n) && LockHolds(a)
    requires Filed(a.prevotes, Prevote, n, a.height, a.life.seen)
    requires Filed(a.precommits, Precommit, n, a.height, a.life.seen)
    ensures LogBehind(b, n, me) && LockOk(b, n) && LockHolds(b)
    ensures Filed(b.prevotes, Prevote, n, b.height, b.life.seen)
    ensures Filed(b.precommits, Precommit, n, b.height, b.life.seen)
    ensures forall r :: VotersAt(b, r) == VotersAt(a, r)
  {
    assert forall r, h :: HasPolka(b, n, r, h) == HasPolka(a, n, r, h);
  }

  /** Reporting two conflicting votes. */
  lemma Accuse(a: View, b: View, n: nat, me: Option<nat>, x: Vote, y: Vote)
    requires Core(a, n, me) && x in a.life.seen && GoodVote(y, n)
    requires SameSlot(x, y) && x.blockHash != y.blockHash
    requires b == a.(life := a.life.(seen := a.life.seen + {y}, accused := a.life.accused + {(x, y)}))
    ensures Core(b, n, me)
    ensures forall r :: VotersAt(b, r) == VotersAt(a, r)
  {
    SeeVote(a, a.(life := a.life.(seen := a.life.seen + {y})), n, me, y);
    assert forall r, h :: HasPolka(b, n, r, h) == HasPolka(a, n, r, h);
    assert forall qc :: QcOk(b, n, qc) == QcOk(a.(life := a.life.(seen := a.life.seen + {y})), n, qc);
  }

  // ----- filing a vote -----

  function Put(book: Book, w: Vote): Book {
    book[w.round := SlotOf(book, w.round)[w.idx := w]]
  }

  function Record(a: View, w: Vote): View {
    match w.phase
    case Prevote => a.(prevotes := Put(a.prevotes, w), life := a.life.(seen := a.life.seen + {w}))
    case Precommit => a.(precommits := Put(a.precommits, w), life := a.life.(seen := a.life.seen + {w}))
  }

  lemma PutStays(book: Book, w: Vote)
    ensures w.idx !in SlotOf(book, w.round) ==> Keeps(book, Put(book, w))
  {
  }

  /** Once a value has reached Q in a slot it stays there. */
  lemma BackersStay(a: Book, b: Book, r: nat, hash: Hash)
    requires Keeps(a, b)
    ensures Backers(SlotOf(a, r), hash) <= Backers(SlotOf(b, r), hash)
  {
  }

  lemma PutKeeps(book: Book, w: Vote, r: nat, hash: Hash)
    requires w.idx !in SlotOf(book, w.round)
    ensures |Backers(SlotOf(book, r), hash)| <= |Backers(SlotOf(Put(book, w), r), hash)|
  {
    PutStays(book, w);
    BackersStay(book, Put(book, w), r, hash);
    SubsetSize(Backers(SlotOf(book, r), hash), Backers(SlotOf(Put(book, w), r), hash));
  }

  lemma FileVote(a: View, n: nat, me: Option<nat>, w: Vote)
    requires Core(a, n, me) && a.active && GoodVote(w, n) && w.height == a.height
    requires w.idx !in SlotOf(if w.phase == Prevote then a.prevotes else a.precommits, w.round)
    ensures Core(Record(a, w), n, me)
    ensures forall r :: VotersAt(Record(a, w), r) == if r == w.round then VotersAt(a, r) + {w.idx} else VotersAt(a, r)
  {
    var m := a.(life := a.life.(seen := a.life.seen + {w}));
    SeeVote(a, m, n, me, w);
    FileSeen(m, n, me, w);
    VotersAfter(a, w);
  }

  lemma VotersAfter(a: View, w: Vote)
    ensures forall r :: VotersAt(Record(a, w), r) == if r == w.round then VotersAt(a, r) + {w.idx} else VotersAt(a, r)
  {
  }

  lemma VotersThere(a: View, w: Vote)
    ensures VotersAt(Record(a, w), w.round) == VotersAt(a, w.round) + {w.idx}
  {
    VotersAfter(a, w);
  }

  lemma FileSeen(m: View, n: nat, me: Option<nat>, w: Vote)
    requires Core(m, n, me) && m.active && GoodVote(w, n) && w.height == m.height && w in m.life.seen
    requires w.idx !in SlotOf(if w.phase == Prevote then m.prevotes else m.precommits, w.round)
    ensures Core(Record(m, w), n, me) && Record(m, w).life == m.life
  {
    var b := Record(m, w);
    assert m.life.seen + {w} == m.life.seen;
    assert forall qc :: QcOk(b, n, qc) == QcOk(m, n, qc);
    if w.phase == Prevote {
      FiledPut(m.prevotes, Prevote, n, m.height, m.life.seen, w);
      forall r, hash | HasPolka(m, n, r, hash) ensures HasPolka(b, n, r, hash) {
        PutKeeps(m.prevotes, w, r, hash);
      }
    } else {
      FiledPut(m.precommits, Precommit, n, m.height, m.life.seen, w);
      assert forall r, hash :: HasPolka(m, n, r, hash) == HasPolka(b, n, r, hash);
    }
  }

  lemma FiledPut(book: Book, phase: Phase, n: nat, h: nat, seen: set<Vote>, w: Vote)
    requires Filed(book, phase, n, h, seen) && GoodVote(w, n) && w.height == h && w in seen
    ensures w.phase == phase ==> Filed(Put(book, w), phase, n, h, seen)
  {
  }

  /** After filing a vote only its own round can have gained a voter. */
  lemma FileQuiet(a: View, n: nat, me: Option<nat>, w: Vote)
    requires Inv(a, n, me) && a.active && GoodVote(w, n) && w.height == a.height
    requires w.idx !in SlotOf(if w.phase == Prevote then a.prevotes else a.precommits, w.round)
    ensures AheadQuiet(Record(a, w), n, if w.round > a.round then w.round else a.round)
    ensures w.round <= a.round || |VotersAt(Record(a, w), w.round)| <= Tolerance(n) ==> Inv(Record(a, w), n, me)
  {
    FileVote(a, n, me, w);
  }

  // ----- signing a vote -----

  ghost predicate Unvoted(v: View, phase: Phase) {
    forall w :: w in v.life.log && w.height == v.height && w.round == v.round ==> w.phase != phase
  }

  /** What the lock demands of a prevote in the current round. */
  ghost predicate PrevoteAllowed(v: View, n: nat, hash: Hash) {
    hash != NilHash ==>
      forall c :: c in v.life.log && c.height == v.height && c.phase == Precommit && c.blockHash != NilHash && c.blockHash != hash
        ==> c.round < v.round ==> Unlocked(v.life.seen, n, c, v.round, hash)
  }

  function Sign(a: View, w: Vote): View {
    a.(life := a.life.(log := a.life.log + {w}, seen := a.life.seen + {w}))
  }

  lemma SignPrevote(a: View, n: nat, i: nat, hash: Hash)
    requires Inv(a, n, Some(i)) && a.active && a.step == PrevoteStep
    requires Unvoted(a, Prevote) && PrevoteAllowed(a, n, hash)
    ensures Inv(Sign(a, SignVote(i, a.height, a.round, Prevote, hash)), n, Some(i))
  {
    var w := SignVote(i, a.height, a.round, Prevote, hash);
    var m, b := a.(life := a.life.(seen := a.life.seen + {w})), Sign(a, w);
    SeeVote(a, m, n, Some(i), w);
    forall c, p | c in b.life.log && p in b.life.log && Supersedes(c, p)
      ensures Unlocked(b.life.seen, n, c, p.round, p.blockHash)
    {
      if p == w { UnlockedGrows(a.life.seen, b.life.seen, n, c, p.round, p.blockHash); }
    }
    SignedElsewhere(m, b, n);
  }

  lemma SignPrecommit(a: View, n: nat, i: nat, hash: Hash)
    requires Inv(a, n, Some(i)) && a.active && a.step == PrecommitStep
    requires Unvoted(a, Precommit) && (hash != NilHash ==> a.locked == Some((a.round, hash)))
    ensures Inv(Sign(a, SignVote(i, a.height, a.round, Precommit, hash)), n, Some(i))
  {
    var w := SignVote(i, a.height, a.round, Precommit, hash);
    var m, b := a.(life := a.life.(seen := a.life.seen + {w})), Sign(a, w);
    SeeVote(a, m, n, Some(i), w);
    if hash != NilHash { BookPolka(m, n, Some(i), a.round, hash); }
    SignedElsewhere(m, b, n);
  }

  /** Adding to the log touches neither books, certificates nor locks. */
  lemma SignedElsewhere(m: View, b: View, n: nat)
    requires b == m.(life := m.life.(log := b.life.log))
    ensures forall r, h :: HasPolka(b, n, r, h) == HasPolka(m, n, r, h)
    ensures forall qc :: QcOk(b, n, qc) == QcOk(m, n, qc)
    ensures forall r :: VotersAt(b, r) == VotersAt(m, r)
  {
  }

  /** The rule of `on_proposal` lets through only prevotes the lock allows. */
  lemma LockRule(v: View, n: nat, me: Option<nat>, hash: Hash, vr: Option<nat>)
    requires Inv(v, n, me) && v.active && v.step == ProposeStep
    requires
      || v.locked.None?
      || v.locked.value.1 == hash
      || (vr.Some? && v.locked.value.0 < vr.value < v.round && HasPolka(v, n, vr.value, hash))
    ensures PrevoteAllowed(v, n, hash)
  {
    forall c | c in v.life.log && c.height == v.height && c.phase == Precommit && c.blockHash != NilHash && c.blockHash != hash
      ensures Unlocked(v.life.seen, n, c, v.round, hash)
    {
      var r := if v.locked.value.1 == hash then v.locked.value.0 else vr.value;
      BookPolka(v, n, me, r, hash);
      assert c.round < r < v.round;
    }
  }

  // ----- moving on -----

  lemma SwitchRound(a: View, n: nat, me: Option<nat>, k: nat)
    requires Core(a, n, me) && AheadQuiet(a, n, k) && a.active && k > a.round
    ensures Inv(a.(round := k, step := ProposeStep), n, me)
  {
    var b := a.(round := k, step := ProposeStep);
    assert forall r, h :: HasPolka(b, n, r, h) == HasPolka(a, n, r, h);
    assert forall qc :: QcOk(b, n, qc) == QcOk(a, n, qc);
    assert forall r :: VotersAt(b, r) == VotersAt(a, r);
  }

  /** Taking the proposal of the current round as valid value and, in the prevote
      step, as lock. */
  lemma AdoptValid(a: View, n: nat, me: Option<nat>, p: Proposal, hash: Hash)
    requires Inv(a, n, me) && a.active && a.step != ProposeStep && hash != NilHash
    requires HasPolka(a, n, a.round, hash) && p.BlockHash() == hash
    ensures Inv(a.(valid := Some((a.round, hash)), validProposal := Some(p)), n, me)
  {
    var b := a.(valid := Some((a.round, hash)), validProposal := Some(p));
    assert forall r, h :: HasPolka(b, n, r, h) == HasPolka(a, n, r, h);
    assert forall qc :: QcOk(b, n, qc) == QcOk(a, n, qc);
    assert forall r :: VotersAt(b, r) == VotersAt(a, r);
    if a.locked.Some? && a.locked.value.0 == a.round {
      assert forall i :: i in SlotOf(a.prevotes, a.round) ==> i < n;
      OneQuorum(SlotOf(a.prevotes, a.round), n, hash, a.locked.value.1);
    }
  }

  lemma AdoptLock(a: View, n: nat, me: Option<nat>, hash: Hash)
    requires Inv(a, n, me) && a.active && a.step == PrevoteStep && hash != NilHash
    requires HasPolka(a, n, a.round, hash) && a.valid == Some((a.round, hash))
    ensures var b := a.(locked := Some((a.round, hash)), step := PrecommitStep);
            Inv(b, n, me) && Unvoted(b, Precommit) && LockLe(a.locked, b.locked)
  {
    var b := a.(locked := Some((a.round, hash)), step := PrecommitStep);
    assert forall r, h :: HasPolka(b, n, r, h) == HasPolka(a, n, r, h);
    assert forall qc :: QcOk(b, n, qc) == QcOk(a, n, qc);
    assert forall r :: VotersAt(b, r) == VotersAt(a, r);
  }

  /** Moving to a later step of the round without voting yet. */
  lemma AdvanceStep(a: View, n: nat, me: Option<nat>, s: StepKind)
    requires Inv(a, n, me) && a.active && StepRank(s) < StepRank(a.step)
    ensures var b := a.(step := s);
            && Inv(b, n, me)
            && (s == PrevoteStep ==> Unvoted(b, Prevote))
            && (s == PrecommitStep ==> Unvoted(b, Precommit))
  {
    var b := a.(step := s);
    assert forall r, h :: HasPolka(b, n, r, h) == HasPolka(a, n, r, h);
    assert forall qc :: QcOk(b, n, qc) == QcOk(a, n, qc);
    assert forall r :: VotersAt(b, r) == VotersAt(a, r);
  }

  lemma SetPending(a: View, n: nat, me: Option<nat>, qc: Qc)
    requires Inv(a, n, me) && a.active && QcOk(a, n, qc) && qc.height == a.height
    ensures Inv(a.(pendingQc := Some(qc)), n, me)
  {
    var b := a.(pendingQc := Some(qc));
    assert forall r, h :: HasPolka(b, n, r, h) == HasPolka(a, n, r, h);
    assert forall q :: QcOk(b, n, q) == QcOk(a, n, q);
    assert forall r :: VotersAt(b, r) == VotersAt(a, r);
  }

  /** The view after `commit`: next height, nothing known about it. */
  function NextHeight(a: View, qc: Qc): View {
    View(a.height + 1, 0, ProposeStep, false, None, None, None, map[], map[], None,
         a.life.(decided := a.life.decided + {qc}))
  }

  lemma CommitHeight(a: View, n: nat, me: Option<nat>)
    requires Inv(a, n, me) && a.pendingQc.Some?
    ensures Inv(NextHeight(a, a.pendingQc.value), n, me)
  {
    var b := NextHeight(a, a.pendingQc.value);
    assert forall q :: QcOk(b, n, q) == QcOk(a, n, q);
    assert forall r :: VotersAt(b, r) == {};
  }

  lemma Activate(a: View, n: nat, me: Option<nat>)
    requires Inv(a, n, me) && !a.active
    ensures Inv(a.(active := true), n, me)
  {
    var b := a.(active := true);
    assert forall q :: QcOk(b, n, q) == QcOk(a, n, q);
    assert forall r :: VotersAt(b, r) == VotersAt(a, r);
  }

  // ----- heat -----

  /** A round above the current one is cold: its voters and oneself are fewer than Q. */
  lemma AheadIsCold(a: View, n: nat, me: Option<nat>, k: nat)
    requires Inv(a, n, me) && k > a.round
    ensures Hot(a.(round := k, step := ProposeStep), n, me) == 0
  {
    var b := a.(round := k, step := ProposeStep);
    assert VotersAt(b, k) == VotersAt(a, k);
    assert |VotersAt(a, k) + MyVoice(me)| <= |VotersAt(a, k)| + |MyVoice(me)|;
    ToleranceBelowQuorum(n);
    HotOpen(b, n, me);
  }

  /** A quorum in the current round means the round is hot. */
  lemma QuorumIsHot(a: View, n: nat, me: Option<nat>, book: Book, hash: Hash)
    requires a.active && (book == a.prevotes || book == a.precommits)
    requires |Backers(SlotOf(book, a.round), hash)| >= Quorum(n)
    ensures Hot(a, n, me) == 1
  {
    HotOpen(a, n, me);
    SubsetSize(Backers(SlotOf(book, a.round), hash), VotersAt(a, a.round) + MyVoice(me));
  }

  /** The view of a new engine built for height `h` on the record of a node. */
  function Rebuilt(past: View, h: nat): View {
    View(h, 0, ProposeStep, false, None, None, None, map[], map[], None,
         past.life)
  }

  lemma RebuildKeeps(past: View, n: nat, me: Option<nat>, h: nat)
    requires Inv(past, n, me) && past.height <= h
    requires forall w :: w in past.life.log ==> w.height < h
    ensures Inv(Rebuilt(past, h), n, me)
  {
    var b := Rebuilt(past, h);
    assert forall q :: QcOk(b, n, q) == QcOk(past, n, q);
    assert forall r :: VotersAt(b, r) == {};
  }

  lemma HoldKeeps(a: View, n: nat, me: Option<nat>, s: set<Vote>)
    requires Inv(a, n, me)
    ensures Inv(a.(life := a.life.(held := a.life.held + s)), n, me)
  {
    var b := a.(life := a.life.(held := a.life.held + s));
    assert forall r, h :: HasPolka(b, n, r, h) == HasPolka(a, n, r, h);
    assert forall q :: QcOk(b, n, q) == QcOk(a, n, q);
    assert forall r :: VotersAt(b, r) == VotersAt(a, r);
  }
}
