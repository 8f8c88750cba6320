/**
 The contracts of the handlers, in a form their proofs can carry around cheaply.

 The verifier unfolds a recursive predicate only once or twice, so a predicate
 that takes `n` detours before it states its content stays closed unless the
 `...Open` lemma is called.  `Good`, `Did`, `Nest` and `CanSign` are `Inv`,
 `Evolves`, `Evolves` with `Settles`, and the licence to vote, closed this way;
 the lemmas say what each elementary move of the engine does to them.
 */
module EngineMoves {
  import opened Options
  import opened ConsensusTypes
  import opened EngineSpec
  import opened EngineLemmas

  ghost predicate GoodAt(k: nat, v: View, n: nat, me: Option<nat>) {
    if k == 0 then Inv(v, n, me) else GoodAt(k - 1, v, n, me)
  }

  ghost predicate Good(v: View, n: nat, me: Option<nat>) {
    n >= MIN_VALIDATORS && GoodAt(n, v, n, me) == true
  }

  lemma {:induction false} GoodAtOpen(k: nat, v: View, n: nat, me: Option<nat>)
    ensures GoodAt(k, v, n, me) == Inv(v, n, me)
  {
    if k > 0 { GoodAtOpen(k - 1, v, n, me); }
  }

  lemma GoodOpen(v: View, n: nat, me: Option<nat>)
    ensures Good(v, n, me) == Inv(v, n, me)
  {
    GoodAtOpen(n, v, n, me);
  }

  ghost predicate DidAt(k: nat, a: View, b: View, outs: seq<Output>, delivered: set<Vote>) {
    if k == 0 then Evolves(a, b, outs, delivered) else DidAt(k - 1, a, b, outs, delivered)
  }

  ghost predicate Did(n: nat, a: View, b: View, outs: seq<Output>, delivered: set<Vote>) {
    n >= MIN_VALIDATORS && DidAt(n, a, b, outs, delivered) == true
  }

  lemma {:induction false} DidAtOpen(k: nat, a: View, b: View, outs: seq<Output>, delivered: set<Vote>)
    ensures DidAt(k, a, b, outs, delivered) == Evolves(a, b, outs, delivered)
  {
    if k > 0 { DidAtOpen(k - 1, a, b, outs, delivered); }
  }

  lemma DidOpen(n: nat, a: View, b: View, outs: seq<Output>, delivered: set<Vote>)
    ensures Did(n, a, b, outs, delivered) == (n >= MIN_VALIDATORS && Evolves(a, b, outs, delivered))
  {
    DidAtOpen(n, a, b, outs, delivered);
  }

  ghost predicate NestAt(k: nat, a: View, b: View, n: nat, me: Option<nat>, outs: seq<Output>) {
    if k == 0 then Evolves(a, b, outs, {}) && Settles(a, b, n, me, outs) else NestAt(k - 1, a, b, n, me, outs)
  }

  ghost predicate Nest(a: View, b: View, n: nat, me: Option<nat>, outs: seq<Output>) {
    n >= MIN_VALIDATORS && NestAt(n, a, b, n, me, outs) == true
  }

  lemma {:induction false} NestAtOpen(k: nat, a: View, b: View, n: nat, me: Option<nat>, outs: seq<Output>)
    ensures NestAt(k, a, b, n, me, outs) == (Evolves(a, b, outs, {}) && Settles(a, b, n, me, outs))
  {
    if k > 0 { NestAtOpen(k - 1, a, b, n, me, outs); }
  }

  lemma NestOpen(a: View, b: View, n: nat, me: Option<nat>, outs: seq<Output>)
    ensures Nest(a, b, n, me, outs) == (n >= MIN_VALIDATORS && Evolves(a, b, outs, {}) && Settles(a, b, n, me, outs))
  {
    NestAtOpen(n, a, b, n, me, outs);
  }

  /** The node stands at the step of `phase`, has not voted in it, and its lock
      allows a vote for `hash`. */
  ghost predicate Licence(v: View, n: nat, phase: Phase, hash: Hash) {
    && v.active && Unvoted(v, phase)
    && (phase == Prevote ==> v.step == PrevoteStep && PrevoteAllowed(v, n, hash))
    && (phase == Precommit ==> v.step == PrecommitStep && (hash != NilHash ==> v.locked == Some((v.round, hash))))
  }

  ghost predicate CanSignAt(k: nat, v: View, n: nat, phase: Phase, hash: Hash) {
    if k == 0 then Licence(v, n, phase, hash) else CanSignAt(k - 1, v, n, phase, hash)
  }

  ghost predicate CanSign(v: View, n: nat, phase: Phase, hash: Hash) {
    n >= MIN_VALIDATORS && CanSignAt(n, v, n, phase, hash) == true
  }

  lemma {:induction false} CanSignAtOpen(k: nat, v: View, n: nat, phase: Phase, hash: Hash)
    ensures CanSignAt(k, v, n, phase, hash) == Licence(v, n, phase, hash)
  {
    if k > 0 { CanSignAtOpen(k - 1, v, n, phase, hash); }
  }

  lemma CanSignOpen(v: View, n: nat, phase: Phase, hash: Hash)
    ensures CanSign(v, n, phase, hash) == (n >= MIN_VALIDATORS && Licence(v, n, phase, hash))
  {
    CanSignAtOpen(n, v, n, phase, hash);
  }

  // ----- thresholds that have been answered -----

  /** Once the proposal step is over, Q prevotes for nil or for a block whose proposal is here have led to the
      precommit step, and such a block is the valid value. */
  ghost predicate Followed(v: View, proposals: map<nat, Proposal>, n: nat) {
    v.active && v.step != ProposeStep ==>
      forall hash :: HasPolka(v, n, v.round, hash) ==>
        && (hash == NilHash ==> v.step == PrecommitStep)
        && (hash != NilHash && v.round in proposals && proposals[v.round].BlockHash() == hash ==>
              v.step == PrecommitStep && v.valid == Some((v.round, hash)))
  }

  ghost predicate FollowedAt(k: nat, v: View, proposals: map<nat, Proposal>, n: nat) {
    if k == 0 then Followed(v, proposals, n) else FollowedAt(k - 1, v, proposals, n)
  }

  ghost predicate Prevoted(v: View, proposals: map<nat, Proposal>, n: nat) {
    n >= MIN_VALIDATORS && FollowedAt(n, v, proposals, n) == true
  }

  lemma {:induction false} FollowedAtOpen(k: nat, v: View, proposals: map<nat, Proposal>, n: nat)
    ensures FollowedAt(k, v, proposals, n) == Followed(v, proposals, n)
  {
    if k > 0 { FollowedAtOpen(k - 1, v, proposals, n); }
  }

  lemma PrevotedOpen(v: View, proposals: map<nat, Proposal>, n: nat)
    ensures Prevoted(v, proposals, n) == (n >= MIN_VALIDATORS && Followed(v, proposals, n))
  {
    FollowedAtOpen(n, v, proposals, n);
  }

  ghost predicate NoneCertified(v: View, n: nat) {
    forall r, hash :: !CertifiableAt(v.precommits, r, hash, n)
  }

  /** Unless a certificate is pending, no round holds Q precommits for a block (without a grace window), and in the
      precommit step the current one does not hold them for nil. */
  ghost predicate Closed(v: View, graceMs: nat, n: nat) {
    v.active && v.pendingQc.None? ==>
      && (graceMs == 0 ==> NoneCertified(v, n))
      && (v.step == PrecommitStep ==> |Backers(SlotOf(v.precommits, v.round), NilHash)| < Quorum(n))
  }

  ghost predicate AnsweredAt(k: nat, v: View, proposals: map<nat, Proposal>, graceMs: nat, n: nat) {
    if k == 0 then Followed(v, proposals, n) && Closed(v, graceMs, n) else AnsweredAt(k - 1, v, proposals, graceMs, n)
  }

  /** No threshold that has been reached is left without its consequence. */
  ghost predicate Answered(v: View, proposals: map<nat, Proposal>, graceMs: nat, n: nat) {
    n >= MIN_VALIDATORS && AnsweredAt(n, v, proposals, graceMs, n) == true
  }

  lemma {:induction false} AnsweredAtOpen(k: nat, v: View, proposals: map<nat, Proposal>, graceMs: nat, n: nat)
    ensures AnsweredAt(k, v, proposals, graceMs, n) == (Followed(v, proposals, n) && Closed(v, graceMs, n))
  {
    if k > 0 { AnsweredAtOpen(k - 1, v, proposals, graceMs, n); }
  }

  lemma AnsweredOpen(v: View, proposals: map<nat, Proposal>, graceMs: nat, n: nat)
    ensures Answered(v, proposals, graceMs, n) ==
            (n >= MIN_VALIDATORS && Followed(v, proposals, n) && Closed(v, graceMs, n))
  {
    AnsweredAtOpen(n, v, proposals, graceMs, n);
  }

  /** With everything answered nothing is due. */
  lemma CalmIs(v: View, proposals: map<nat, Proposal>, graceMs: nat, n: nat)
    requires Answered(v, proposals, graceMs, n) && v.active
    ensures Followed(v, proposals, n) && Closed(v, graceMs, n)
    ensures v.step == PrevoteStep ==> forall hash :: HasPolka(v, n, v.round, hash) ==>
              hash != NilHash && !(v.round in proposals && proposals[v.round].BlockHash() == hash)
  {
    AnsweredOpen(v, proposals, graceMs, n);
  }

  lemma AnsweredPrevoted(v: View, proposals: map<nat, Proposal>, graceMs: nat, n: nat)
    requires Answered(v, proposals, graceMs, n)
    ensures Prevoted(v, proposals, n)
  {
    AnsweredOpen(v, proposals, graceMs, n);
    PrevotedOpen(v, proposals, n);
  }

  /** Both depend on position, books, valid value and certificate, and on fewer or other rounds' proposals not at all. */
  lemma AnsweredSame(a: View, b: View, p: map<nat, Proposal>, q: map<nat, Proposal>, graceMs: nat, n: nat)
    requires b.round == a.round && b.step == a.step && b.active == a.active && b.valid == a.valid
    requires b.prevotes == a.prevotes && b.precommits == a.precommits && b.pendingQc == a.pendingQc
    requires b.round in q ==> b.round in p && p[b.round] == q[b.round]
    ensures Prevoted(a, p, n) ==> Prevoted(b, q, n)
    ensures Answered(a, p, graceMs, n) ==> Answered(b, q, graceMs, n)
  {
    assert forall hash :: HasPolka(b, n, b.round, hash) == HasPolka(a, n, a.round, hash);
    PrevotedOpen(a, p, n);
    PrevotedOpen(b, q, n);
    AnsweredOpen(a, p, graceMs, n);
    AnsweredOpen(b, q, graceMs, n);
  }

  lemma PolledStill(a: View, b: View, proposals: map<nat, Proposal>, n: nat)
    requires Prevoted(a, proposals, n) && b == a.(pendingQc := b.pendingQc)
    ensures Prevoted(b, proposals, n)
  {
    assert forall hash :: HasPolka(b, n, b.round, hash) == HasPolka(a, n, a.round, hash);
    PrevotedOpen(a, proposals, n);
    PrevotedOpen(b, proposals, n);
  }

  lemma AnsweredFrom(v: View, proposals: map<nat, Proposal>, graceMs: nat, n: nat)
    requires Prevoted(v, proposals, n) && Closed(v, graceMs, n)
    ensures Answered(v, proposals, graceMs, n)
  {
    PrevotedOpen(v, proposals, n);
    AnsweredOpen(v, proposals, graceMs, n);
  }

  /** Only one value can have Q prevotes, so it is enough to have followed that one. */
  lemma PolledOne(v: View, proposals: map<nat, Proposal>, n: nat, me: Option<nat>, hash: Hash)
    requires Good(v, n, me) && HasPolka(v, n, v.round, hash) && v.active
    requires hash == NilHash ==> v.step == PrecommitStep
    requires hash != NilHash && v.round in proposals && proposals[v.round].BlockHash() == hash ==>
               v.step == PrecommitStep && v.valid == Some((v.round, hash))
    ensures Prevoted(v, proposals, n)
  {
    SlotsBounded(v, n, me, v.round);
    forall h | HasPolka(v, n, v.round, h)
      ensures h == hash
    {
      OneQuorum(SlotOf(v.prevotes, v.round), n, h, hash);
    }
    PrevotedOpen(v, proposals, n);
  }

  lemma PolledNone(v: View, proposals: map<nat, Proposal>, n: nat)
    requires n >= MIN_VALIDATORS
    requires v.active && v.step != ProposeStep ==> forall hash :: !HasPolka(v, n, v.round, hash)
    ensures Prevoted(v, proposals, n)
  {
    PrevotedOpen(v, proposals, n);
  }

  lemma IdleAnswered(v: View, proposals: map<nat, Proposal>, graceMs: nat, n: nat)
    requires n >= MIN_VALIDATORS && !v.active
    ensures Answered(v, proposals, graceMs, n) && Prevoted(v, proposals, n)
  {
    AnsweredOpen(v, proposals, graceMs, n);
    PrevotedOpen(v, proposals, n);
  }

  // ----- composing calls -----

  lemma NestTrans(a: View, b: View, c: View, n: nat, me: Option<nat>, o1: seq<Output>, o2: seq<Output>)
    requires Nest(a, b, n, me, o1) && Nest(b, c, n, me, o2)
    ensures Nest(a, c, n, me, o1 + o2)
  {
    NestOpen(a, b, n, me, o1);
    NestOpen(b, c, n, me, o2);
    NestOpen(a, c, n, me, o1 + o2);
    EvolvesTrans(a, b, c, o1, o2, {}, {});
    SettlesTrans(a, b, c, n, me, o1, o2);
  }

  lemma DidTrans(n: nat, a: View, b: View, c: View, o1: seq<Output>, o2: seq<Output>, d1: set<Vote>, d2: set<Vote>)
    requires Did(n, a, b, o1, d1) && Did(n, b, c, o2, d2)
    ensures Did(n, a, c, o1 + o2, d1 + d2)
  {
    DidOpen(n, a, b, o1, d1);
    DidOpen(n, b, c, o2, d2);
    DidOpen(n, a, c, o1 + o2, d1 + d2);
    EvolvesTrans(a, b, c, o1, o2, d1, d2);
  }

  /** A silent move before a call adds nothing to its outputs. */
  lemma DidAfter(n: nat, a: View, b: View, c: View, outs: seq<Output>, d: set<Vote>)
    requires Did(n, a, b, [], d) && Did(n, b, c, outs, {})
    ensures Did(n, a, c, outs, d)
  {
    DidTrans(n, a, b, c, [], outs, d, {});
    assert [] + outs == outs && d + {} == d;
  }

  lemma NestAfter(a: View, b: View, c: View, n: nat, me: Option<nat>, outs: seq<Output>)
    requires Nest(a, b, n, me, []) && Nest(b, c, n, me, outs)
    ensures Nest(a, c, n, me, outs)
  {
    NestTrans(a, b, c, n, me, [], outs);
    assert [] + outs == outs;
  }

  lemma DidThen(n: nat, a: View, b: View, c: View, o1: seq<Output>, o2: seq<Output>)
    requires Did(n, a, b, o1, {}) && Did(n, b, c, o2, {})
    ensures Did(n, a, c, o1 + o2, {})
  {
    DidTrans(n, a, b, c, o1, o2, {}, {});
    DidMore(n, a, c, o1 + o2, {} + {}, {});
  }

  lemma DidMore(n: nat, a: View, b: View, outs: seq<Output>, d: set<Vote>, d': set<Vote>)
    requires Did(n, a, b, outs, d) && d <= d'
    ensures Did(n, a, b, outs, d')
  {
    DidOpen(n, a, b, outs, d);
    DidOpen(n, a, b, outs, d');
  }

  /** What a nested call leaves to its caller. */
  lemma NestGives(a: View, b: View, n: nat, me: Option<nat>, outs: seq<Output>)
    requires Nest(a, b, n, me, outs)
    ensures Did(n, a, b, outs, {})
    ensures Rank(b, n, me) <= Rank(a, n, me)
    ensures ViewChanges(outs) + Hot(b, n, me) <= Hot(a, n, me)
    ensures b.active ==> a.active && b.height == a.height && (b.round == a.round || b.step != PrecommitStep)
  {
    NestOpen(a, b, n, me, outs);
    DidOpen(n, a, b, outs, {});
  }

  /** A lock of this height gives way only to a later round. */
  lemma LockKept(a: View, b: View, n: nat, me: Option<nat>, outs: seq<Output>)
    requires Nest(a, b, n, me, outs) && b.height == a.height
    ensures LockLe(a.locked, b.locked)
  {
    NestOpen(a, b, n, me, outs);
  }

  /** Within a height nobody who backs a value in a slot ever leaves it: what has reached Q stays there. */
  lemma QuorumsStay(n: nat, a: View, b: View, outs: seq<Output>, d: set<Vote>, r: nat, hash: Hash)
    requires Did(n, a, b, outs, d) && b.height == a.height
    ensures Backers(SlotOf(a.prevotes, r), hash) <= Backers(SlotOf(b.prevotes, r), hash)
    ensures Backers(SlotOf(a.precommits, r), hash) <= Backers(SlotOf(b.precommits, r), hash)
  {
    DidOpen(n, a, b, outs, d);
    BackersStay(a.prevotes, b.prevotes, r, hash);
    BackersStay(a.precommits, b.precommits, r, hash);
  }

  /** Whatever call commits hands out the block its certificate names. */
  lemma BodyIsCertified(n: nat, a: View, b: View, outs: seq<Output>, d: set<Vote>, o: Output)
    requires Did(n, a, b, outs, d) && o in outs && o.Commit?
    ensures o.proposal.BlockHash() == o.qc.blockHash && o.qc in b.life.decided
  {
    DidOpen(n, a, b, outs, d);
  }

  // ----- moves -----

  predicate IsQuiet(outs: seq<Output>) {
    forall o :: o in outs ==> o.Dropped? || o.NeedProposal? || o.DoublePropose? || (o.Broadcast? && !o.msg.VoteMsg?)
  }

  lemma {:induction false} QuietTrace(outs: seq<Output>, r: nat)
    requires IsQuiet(outs)
    ensures ViewChanges(outs) == 0 && RoundAfter(outs, r) == r
    ensures VotesIn(outs) == {} && CommitsIn(outs) == {} && AccusedIn(outs) == {}
  {
    if outs != [] {
      var last := outs[|outs| - 1];
      assert last in outs;
      assert forall o :: o in outs[..|outs| - 1] ==> o in outs;
      QuietTrace(outs[..|outs| - 1], r);
    }
  }

  /** A single output that is not a view change keeps the round, or resets it on a commit. */
  lemma OneTrace(o: Output, r: nat)
    requires !o.ViewChange?
    ensures ViewChanges([o]) == 0 && RoundAfter([o], r) == if o.Commit? then 0 else r
    ensures VotesIn([o]) == if o.Broadcast? && o.msg.VoteMsg? then {o.msg.vote} else {}
    ensures CommitsIn([o]) == if o.Commit? then {o.qc} else {}
    ensures AccusedIn([o]) == if o.DoubleVote? then {(o.a, o.b)} else {}
  {
    assert [o][..0] == [];
  }

  /** Same record, books and position, apart from lock, valid value and step. */
  ghost predicate Beside(a: View, b: View) {
    && b.height == a.height && b.round == a.round && b.active == a.active
    && b.prevotes == a.prevotes && b.precommits == a.precommits
    && b.life.log == a.life.log && b.life.seen == a.life.seen && b.life.held == a.life.held
    && b.life.decided == a.life.decided && b.life.accused == a.life.accused
    && LockLe(a.locked, b.locked)
  }

  /** Heat and rank depend only on the position and the books. */
  lemma SameHeat(a: View, b: View, n: nat, me: Option<nat>)
    requires b.round == a.round && b.active == a.active
    requires VotersAt(b, a.round) + MyVoice(me) == VotersAt(a, a.round) + MyVoice(me)
    ensures Hot(b, n, me) == Hot(a, n, me)
    ensures b.step == a.step ==> Rank(b, n, me) == Rank(a, n, me)
  {
    HotOpen(a, n, me);
    HotOpen(b, n, me);
  }

  /** Closing the contracts of one move that stays in its round. */
  lemma CloseMove(a: View, b: View, n: nat, me: Option<nat>, outs: seq<Output>)
    requires n >= MIN_VALIDATORS && Evolves(a, b, outs, {}) && ViewChanges(outs) == 0
    requires b.round == a.round && b.active == a.active && b.height == a.height && Hot(b, n, me) == Hot(a, n, me)
    ensures Did(n, a, b, outs, {})
    ensures StepRank(b.step) <= StepRank(a.step) && (b.step == PrecommitStep ==> a.step == PrecommitStep || Hot(a, n, me) == 1)
      ==> Nest(a, b, n, me, outs)
  {
    DidOpen(n, a, b, outs, {});
    NestOpen(a, b, n, me, outs);
  }

  lemma BesideNest(a: View, b: View, n: nat, me: Option<nat>, outs: seq<Output>)
    requires n >= MIN_VALIDATORS && Beside(a, b) && IsQuiet(outs)
    ensures Did(n, a, b, outs, {}) && Hot(b, n, me) == Hot(a, n, me)
    ensures StepRank(b.step) <= StepRank(a.step) && (b.step == PrecommitStep ==> a.step == PrecommitStep || Hot(a, n, me) == 1)
      ==> Nest(a, b, n, me, outs)
  {
    QuietTrace(outs, a.round);
    assert Evolves(a, b, outs, {});
    assert VotersAt(b, a.round) == VotersAt(a, a.round);
    SameHeat(a, b, n, me);
    CloseMove(a, b, n, me, outs);
  }

  lemma Stay(a: View, n: nat, me: Option<nat>, outs: seq<Output>)
    requires n >= MIN_VALIDATORS && IsQuiet(outs)
    ensures Nest(a, a, n, me, outs) && Did(n, a, a, outs, {})
  {
    BesideNest(a, a, n, me, outs);
  }

  lemma Untouched(a: View, n: nat, me: Option<nat>)
    requires Good(a, n, me) && !a.active
    ensures a.step == ProposeStep && a.round == 0 && a.pendingQc.None? && a.precommits == map[]
  {
    GoodOpen(a, n, me);
  }

  lemma SignMove(a: View, n: nat, i: nat, phase: Phase, hash: Hash)
    requires Good(a, n, Some(i)) && CanSign(a, n, phase, hash)
    ensures var w := SignVote(i, a.height, a.round, phase, hash);
            var b := Sign(a, w);
            && Good(b, n, Some(i)) && Nest(a, b, n, Some(i), [Broadcast(VoteMsg(w))])
            && Rank(b, n, Some(i)) == Rank(a, n, Some(i))
  {
    SignGood(a, n, i, phase, hash);
    SignNest(a, n, Some(i), SignVote(i, a.height, a.round, phase, hash));
  }

  lemma SignGood(a: View, n: nat, i: nat, phase: Phase, hash: Hash)
    requires Good(a, n, Some(i)) && CanSign(a, n, phase, hash)
    ensures Good(Sign(a, SignVote(i, a.height, a.round, phase, hash)), n, Some(i))
  {
    GoodOpen(a, n, Some(i));
    GoodOpen(Sign(a, SignVote(i, a.height, a.round, phase, hash)), n, Some(i));
    CanSignOpen(a, n, phase, hash);
    if phase == Prevote { SignPrevote(a, n, i, hash); } else { SignPrecommit(a, n, i, hash); }
  }

  lemma SignNest(a: View, n: nat, me: Option<nat>, w: Vote)
    requires n >= MIN_VALIDATORS
    ensures Nest(a, Sign(a, w), n, me, [Broadcast(VoteMsg(w))]) && Rank(Sign(a, w), n, me) == Rank(a, n, me)
  {
    var b, outs := Sign(a, w), [Broadcast(VoteMsg(w))];
    OneTrace(outs[0], a.round);
    assert Evolves(a, b, outs, {});
    assert VotersAt(b, b.round) == VotersAt(a, a.round);
    SameHeat(a, b, n, me);
    CloseMove(a, b, n, me, outs);
  }

  /** Filing a delivered vote; too many voters ahead allow a skip to their round. */
  lemma FileMove(a: View, n: nat, me: Option<nat>, w: Vote)
    requires Good(a, n, me) && a.active && GoodVote(w, n) && w.height == a.height
    requires w.idx !in SlotOf(if w.phase == Prevote then a.prevotes else a.precommits, w.round)
    ensures w.round <= a.round || |VotersAt(Record(a, w), w.round)| <= Tolerance(n) ==> Good(Record(a, w), n, me)
    ensures w.round > a.round ==> Good(Record(a, w).(round := w.round, step := ProposeStep), n, me)
    ensures Did(n, a, Record(a, w), [], {w})
  {
    var b := Record(a, w);
    if w.round <= a.round || |VotersAt(b, w.round)| <= Tolerance(n) {
      GoodOpen(a, n, me);
      GoodOpen(b, n, me);
      FileQuiet(a, n, me, w);
    }
    if w.round > a.round {
      FileAhead(a, n, me, w);
    }
    FileDid(a, n, w);
  }

  lemma FileDid(a: View, n: nat, w: Vote)
    requires n >= MIN_VALIDATORS
    requires w.idx !in SlotOf(if w.phase == Prevote then a.prevotes else a.precommits, w.round)
    ensures Did(n, a, Record(a, w), [], {w})
  {
    PutStays(a.prevotes, w);
    PutStays(a.precommits, w);
    DidOpen(n, a, Record(a, w), [], {w});
  }

  lemma FileAhead(a: View, n: nat, me: Option<nat>, w: Vote)
    requires Good(a, n, me) && a.active && GoodVote(w, n) && w.height == a.height && w.round > a.round
    requires w.idx !in SlotOf(if w.phase == Prevote then a.prevotes else a.precommits, w.round)
    ensures Good(Record(a, w).(round := w.round, step := ProposeStep), n, me)
  {
    var b := Record(a, w);
    GoodOpen(b.(round := w.round, step := ProposeStep), n, me);
    assert Core(b, n, me) && AheadQuiet(b, n, w.round) by {
      GoodOpen(a, n, me);
      FileVote(a, n, me, w);
      FileQuiet(a, n, me, w);
    }
    SwitchRound(b, n, me, w.round);
  }

  /** Filing one's own vote is part of a nested call. */
  lemma FileOwnMove(a: View, n: nat, w: Vote)
    requires Good(a, n, Some(w.idx)) && a.active && GoodVote(w, n) && w.height == a.height && w.round == a.round && w in a.life.seen
    requires w.idx !in SlotOf(if w.phase == Prevote then a.prevotes else a.precommits, w.round)
    ensures var b := Record(a, w);
            Nest(a, b, n, Some(w.idx), []) && Rank(b, n, Some(w.idx)) == Rank(a, n, Some(w.idx))
  {
    FileNest(a, n, w);
  }

  lemma FileNest(a: View, n: nat, w: Vote)
    requires n >= MIN_VALIDATORS && w.round == a.round && w in a.life.seen
    requires w.idx !in SlotOf(if w.phase == Prevote then a.prevotes else a.precommits, w.round)
    ensures Nest(a, Record(a, w), n, Some(w.idx), []) && Rank(Record(a, w), n, Some(w.idx)) == Rank(a, n, Some(w.idx))
  {
    var b := Record(a, w);
    FileHeat(a, n, w);
    assert a.life.seen + {w} == a.life.seen;
    PutStays(a.prevotes, w);
    PutStays(a.precommits, w);
    assert Evolves(a, b, [], {});
    CloseMove(a, b, n, Some(w.idx), []);
  }

  lemma FileHeat(a: View, n: nat, w: Vote)
    requires w.round == a.round
    ensures Hot(Record(a, w), n, Some(w.idx)) == Hot(a, n, Some(w.idx))
  {
    VotersAfter(a, w);
    assert VotersAt(Record(a, w), a.round) + {w.idx} == VotersAt(a, a.round) + {w.idx};
    SameHeat(a, Record(a, w), n, Some(w.idx));
  }

  /** What is known once a vote is on file. */
  lemma FiledMove(a: View, n: nat, me: Option<nat>, w: Vote)
    requires Good(a, n, me) && a.active && GoodVote(w, n) && w.height == a.height
    requires w.idx !in SlotOf(if w.phase == Prevote then a.prevotes else a.precommits, w.round)
    ensures var b := Record(a, w);
            && Did(n, a, b, [], {w})
            && (w.round <= a.round || |VotersAt(b, w.round)| <= Tolerance(n) ==> Good(b, n, me))
            && (w.round > a.round ==> Good(b.(round := w.round, step := ProposeStep), n, me))
            && (me == Some(w.idx) && w.round == a.round && w in a.life.seen ==>
                  Nest(a, b, n, me, []) && Rank(b, n, me) == Rank(a, n, me))
            && VotersAt(b, w.round) == VotersAt(a, w.round) + {w.idx}
  {
    FileMove(a, n, me, w);
    if me == Some(w.idx) && w.round == a.round && w in a.life.seen { FileOwnMove(a, n, w); }
    VotersThere(a, w);
  }

  lemma HeightLasts(n: nat, a: View, b: View, outs: seq<Output>, d: set<Vote>)
    requires Did(n, a, b, outs, d)
    ensures a.height <= b.height && a.life.seen <= b.life.seen
    ensures b.height == a.height ==> (a.active ==> b.active) && a.round <= b.round
  {
    DidOpen(n, a, b, outs, d);
  }

  /** A valid vote once processed stays known, and while the height lasts what is on file stays there. */
  lemma FiledStays(n: nat, a: View, b: View, outs: seq<Output>, d: set<Vote>, w: Vote)
    requires Did(n, a, b, outs, d)
    ensures a.life.seen <= b.life.seen
    ensures b.height == a.height ==> (OnFile(a, w) ==> OnFile(b, w)) && (a.active ==> b.active) && a.round <= b.round
    ensures a.height <= b.height
  {
    DidOpen(n, a, b, outs, d);
  }

  /** What is on file in a slot is a sound vote for it, the same one when it is for the same value. */
  lemma SlotFiled(v: View, n: nat, me: Option<nat>, w: Vote)
    requires Good(v, n, me) && GoodVote(w, n) && w.height == v.height
    requires w.idx in SlotOf(BookOf(v, w.phase), w.round)
    ensures var e := SlotOf(BookOf(v, w.phase), w.round)[w.idx];
            OnFile(v, e) && e in v.life.seen && (e.blockHash == w.blockHash ==> e == w)
  {
    GoodOpen(v, n, me);
  }

  /** A further vote of a validator already reported is remembered and does nothing. */
  lemma SeeMove(a: View, n: nat, me: Option<nat>, w: Vote)
    requires Good(a, n, me) && GoodVote(w, n)
    ensures var b := a.(life := a.life.(seen := a.life.seen + {w}));
            && Good(b, n, me) && Did(n, a, b, [Dropped], {w})
            && (w in a.life.seen ==> b == a)
  {
    var b := a.(life := a.life.(seen := a.life.seen + {w}));
    assert Good(b, n, me) by {
      GoodOpen(a, n, me);
      GoodOpen(b, n, me);
      SeeVote(a, b, n, me, w);
    }
    QuietTrace([Dropped], a.round);
    DidOpen(n, a, b, [Dropped], {w});
    if w in a.life.seen {
      assert a.life.seen + {w} == a.life.seen;
    }
  }

  lemma AccuseMove(a: View, n: nat, me: Option<nat>, x: Vote, y: Vote)
    requires Good(a, n, me) && GoodVote(y, n) && y.height == a.height && a.active
    requires var slot := SlotOf(if y.phase == Prevote then a.prevotes else a.precommits, y.round);
             y.idx in slot && slot[y.idx] == x && x.blockHash != y.blockHash
    ensures var b := a.(life := a.life.(seen := a.life.seen + {y}, accused := a.life.accused + {(x, y)}));
            var outs := [DoubleVote(x, y)] + [Dropped];
            && Good(b, n, me) && Did(n, a, b, outs, {y}) && ViewChanges(outs) == 0
            && (y in a.life.seen ==> Nest(a, b, n, me, outs)) && Hot(b, n, me) == Hot(a, n, me)
  {
    var b := a.(life := a.life.(seen := a.life.seen + {y}, accused := a.life.accused + {(x, y)}));
    GoodOpen(a, n, me);
    GoodOpen(b, n, me);
    Accuse(a, b, n, me, x, y);
    AccuseDid(a, n, me, x, y);
  }

  lemma AccuseDid(a: View, n: nat, me: Option<nat>, x: Vote, y: Vote)
    requires n >= MIN_VALIDATORS
    ensures var b := a.(life := a.life.(seen := a.life.seen + {y}, accused := a.life.accused + {(x, y)}));
            var outs := [DoubleVote(x, y)] + [Dropped];
            && Did(n, a, b, outs, {y}) && ViewChanges(outs) == 0
            && (y in a.life.seen ==> Nest(a, b, n, me, outs)) && Hot(b, n, me) == Hot(a, n, me)
  {
    var b := a.(life := a.life.(seen := a.life.seen + {y}, accused := a.life.accused + {(x, y)}));
    var outs := [DoubleVote(x, y)] + [Dropped];
    assert Evolves(a, b, outs, {y}) && ViewChanges(outs) == 0 by {
      OneTrace(DoubleVote(x, y), a.round);
      OneTrace(Dropped, a.round);
      TraceConcat([DoubleVote(x, y)], [Dropped], a.round);
      EffectsConcat([DoubleVote(x, y)], [Dropped]);
    }
    assert VotersAt(b, b.round) == VotersAt(a, a.round);
    SameHeat(a, b, n, me);
    DidOpen(n, a, b, outs, {y});
    if y in a.life.seen {
      assert a.life.seen + {y} == a.life.seen;
      assert Evolves(a, b, outs, {});
      CloseMove(a, b, n, me, outs);
    }
  }

  /** A view change and what the new round does. */
  lemma SkipMove(b: View, c: View, k: nat, reason: ViewChangeReason, n: nat, me: Option<nat>, tail: seq<Output>)
    requires b.active && k > b.round && Nest(b.(round := k, step := ProposeStep), c, n, me, tail)
    ensures var outs := [ViewChange(b.height, b.round, k, reason)] + tail;
            Did(n, b, c, outs, {}) && ViewChanges(outs) == 1 + ViewChanges(tail) && ViewChanges(outs) + Hot(c, n, me) <= 2
    ensures Hot(b.(round := k, step := ProposeStep), n, me) == 0 && Hot(b, n, me) == 1 ==>
      Nest(b, c, n, me, [ViewChange(b.height, b.round, k, reason)] + tail)
  {
    var b' := b.(round := k, step := ProposeStep);
    var vc := [ViewChange(b.height, b.round, k, reason)];
    assert Did(n, b, b', vc, {}) by {
      assert vc[..0] == [] && RoundAfter(vc, b.round) == k;
      assert VotesIn(vc) == {} && CommitsIn(vc) == {} && AccusedIn(vc) == {};
      DidOpen(n, b, b', vc, {});
    }
    NestGives(b', c, n, me, tail);
    DidTrans(n, b, b', c, vc, tail, {}, {});
    DidMore(n, b, c, vc + tail, {} + {}, {});
    TraceConcat(vc, tail, b.round);
    if Hot(b', n, me) == 0 && Hot(b, n, me) == 1 {
      NestOpen(b', c, n, me, tail);
      NestOpen(b, c, n, me, vc + tail);
      DidOpen(n, b, c, vc + tail, {});
    }
  }

  /** Q nil precommits license the next round, which is cold. */
  lemma NilQuorumMove(a: View, n: nat, me: Option<nat>)
    requires Good(a, n, me) && a.active && |Backers(SlotOf(a.precommits, a.round), NilHash)| >= Quorum(n)
    ensures Good(a.(round := a.round + 1, step := ProposeStep), n, me)
    ensures Hot(a, n, me) == 1 && Hot(a.(round := a.round + 1, step := ProposeStep), n, me) == 0
  {
    QuorumIsHot(a, n, me, a.precommits, NilHash);
    NextRoundMove(a, n, me);
  }

  lemma NextRoundMove(a: View, n: nat, me: Option<nat>)
    requires Good(a, n, me) && a.active
    ensures Good(a.(round := a.round + 1, step := ProposeStep), n, me)
    ensures Hot(a.(round := a.round + 1, step := ProposeStep), n, me) == 0
  {
    NextRoundCold(a, n, me);
    NextRoundGood(a, n, me);
  }

  lemma NextRoundGood(a: View, n: nat, me: Option<nat>)
    requires Good(a, n, me) && a.active
    ensures Good(a.(round := a.round + 1, step := ProposeStep), n, me)
  {
    GoodOpen(a, n, me);
    SwitchRound(a, n, me, a.round + 1);
    GoodOpen(a.(round := a.round + 1, step := ProposeStep), n, me);
  }

  lemma NextRoundCold(a: View, n: nat, me: Option<nat>)
    requires Good(a, n, me)
    ensures Hot(a.(round := a.round + 1, step := ProposeStep), n, me) == 0
  {
    GoodOpen(a, n, me);
    AheadIsCold(a, n, me, a.round + 1);
  }

  /** Entering the prevote step licenses a prevote the lock allows. */
  lemma PrevoteStepMove(a: View, n: nat, me: Option<nat>, hash: Hash, vr: Option<nat>)
    requires Good(a, n, me) && a.active && a.step == ProposeStep
    requires hash == NilHash || a.locked.None? || a.locked.value.1 == hash
          || (vr.Some? && a.locked.value.0 < vr.value < a.round && HasPolka(a, n, vr.value, hash))
    ensures var b := a.(step := PrevoteStep);
            && Good(b, n, me) && CanSign(b, n, Prevote, hash) && Nest(a, b, n, me, [])
            && Rank(b, n, me) < Rank(a, n, me)
  {
    var b := a.(step := PrevoteStep);
    assert Inv(a, n, me) by { GoodOpen(a, n, me); }
    assert Inv(b, n, me) && Unvoted(b, Prevote) by { AdvanceStep(a, n, me, PrevoteStep); }
    assert PrevoteAllowed(b, n, hash) by {
      if hash != NilHash { LockRule(a, n, me, hash, vr); }
    }
    GoodOpen(b, n, me);
    CanSignOpen(b, n, Prevote, hash);
    BesideNest(a, b, n, me, []);
  }

  /** Entering the precommit step without a block licenses a nil precommit; with
      a quorum behind it this is part of a nested call. */
  lemma NilPrecommitMove(a: View, n: nat, me: Option<nat>)
    requires Good(a, n, me) && a.active && a.step == PrevoteStep
    ensures var b := a.(step := PrecommitStep);
            && Good(b, n, me) && CanSign(b, n, Precommit, NilHash) && Did(n, a, b, [], {})
            && Rank(b, n, me) < Rank(a, n, me) && Hot(b, n, me) == Hot(a, n, me)
            && (Hot(a, n, me) == 1 ==> Nest(a, b, n, me, []))
  {
    var b := a.(step := PrecommitStep);
    assert Inv(b, n, me) && Unvoted(b, Precommit) by {
      GoodOpen(a, n, me);
      AdvanceStep(a, n, me, PrecommitStep);
    }
    GoodOpen(b, n, me);
    CanSignOpen(b, n, Precommit, NilHash);
    BesideNest(a, b, n, me, []);
  }

  /** A polka for the block of the current round makes it the valid value. */
  lemma ValidMove(a: View, n: nat, me: Option<nat>, p: Proposal)
    requires Good(a, n, me) && a.active && a.step != ProposeStep && HasPolka(a, n, a.round, p.BlockHash())
    ensures var b := a.(valid := Some((a.round, p.BlockHash())), validProposal := Some(p));
            Good(b, n, me) && Nest(a, b, n, me, []) && Rank(b, n, me) == Rank(a, n, me)
  {
    var b := a.(valid := Some((a.round, p.BlockHash())), validProposal := Some(p));
    assert Inv(b, n, me) by {
      GoodOpen(a, n, me);
      AdoptValid(a, n, me, p, p.BlockHash());
    }
    GoodOpen(b, n, me);
    BesideNest(a, b, n, me, []);
  }

  /** ... and in the prevote step the lock, with a licence to precommit it. */
  lemma LockMove(a: View, n: nat, me: Option<nat>, hash: Hash)
    requires Good(a, n, me) && a.active && a.step == PrevoteStep && hash != NilHash
    requires HasPolka(a, n, a.round, hash) && a.valid == Some((a.round, hash))
    ensures var b := a.(locked := Some((a.round, hash)), step := PrecommitStep);
            && Good(b, n, me) && CanSign(b, n, Precommit, hash) && Nest(a, b, n, me, [])
            && Rank(b, n, me) < Rank(a, n, me)
  {
    var b := a.(locked := Some((a.round, hash)), step := PrecommitStep);
    assert Inv(b, n, me) && Unvoted(b, Precommit) && LockLe(a.locked, b.locked) by {
      GoodOpen(a, n, me);
      AdoptLock(a, n, me, hash);
    }
    GoodOpen(b, n, me);
    CanSignOpen(b, n, Precommit, hash);
    QuorumIsHot(a, n, me, a.prevotes, hash);
    BesideNest(a, b, n, me, []);
  }

  lemma PendingMove(a: View, n: nat, me: Option<nat>, qc: Qc)
    requires Good(a, n, me) && a.active && QcOk(a, n, qc) && qc.height == a.height
    ensures var b := a.(pendingQc := Some(qc));
            Good(b, n, me) && Nest(a, b, n, me, [])
  {
    var b := a.(pendingQc := Some(qc));
    assert Inv(b, n, me) by {
      GoodOpen(a, n, me);
      SetPending(a, n, me, qc);
    }
    GoodOpen(b, n, me);
    BesideNest(a, b, n, me, []);
  }

  lemma CommitMove(a: View, n: nat, me: Option<nat>, p: Proposal, used: nat, close: QcClose)
    requires Good(a, n, me) && a.pendingQc.Some? && p.BlockHash() == a.pendingQc.value.blockHash
    ensures var b, outs := NextHeight(a, a.pendingQc.value), [Commit(p, a.pendingQc.value, used, close)];
            Good(b, n, me) && Nest(a, b, n, me, outs)
  {
    var qc := a.pendingQc.value;
    var b, outs := NextHeight(a, qc), [Commit(p, qc, used, close)];
    assert Good(b, n, me) by {
      GoodOpen(a, n, me);
      GoodOpen(b, n, me);
      CommitHeight(a, n, me);
    }
    OneTrace(outs[0], a.round);
    NestOpen(a, b, n, me, outs);
  }

  lemma StartMove(a: View, n: nat, me: Option<nat>)
    requires Good(a, n, me) && !a.active
    ensures var b := a.(active := true);
            Good(b, n, me) && Did(n, a, b, [], {}) && b == b.(round := 0, step := ProposeStep)
  {
    var b := a.(active := true);
    Untouched(a, n, me);
    assert Good(b, n, me) by {
      GoodOpen(a, n, me);
      GoodOpen(b, n, me);
      Activate(a, n, me);
    }
    DidOpen(n, a, b, [], {});
  }

  lemma RebuildMove(past: View, n: nat, me: Option<nat>, h: nat)
    requires Good(past, n, me) && past.height <= h && forall w :: w in past.life.log ==> w.height < h
    ensures Good(Rebuilt(past, h), n, me)
  {
    GoodOpen(past, n, me);
    GoodOpen(Rebuilt(past, h), n, me);
    RebuildKeeps(past, n, me, h);
  }

  lemma HoldMove(a: View, n: nat, me: Option<nat>, s: set<Vote>)
    requires Good(a, n, me)
    ensures var b := a.(life := a.life.(held := a.life.held + s));
            Good(b, n, me) && Did(n, a, b, [Dropped], s)
  {
    var b := a.(life := a.life.(held := a.life.held + s));
    assert Good(b, n, me) by {
      GoodOpen(a, n, me);
      GoodOpen(b, n, me);
      HoldKeeps(a, n, me, s);
    }
    OneTrace(Dropped, a.round);
    DidOpen(n, a, b, [Dropped], s);
  }

  /** Slots hold votes of validators of the set. */
  lemma SlotsBounded(a: View, n: nat, me: Option<nat>, r: nat)
    requires Good(a, n, me)
    ensures forall i :: i in SlotOf(a.prevotes, r) ==> i < n
    ensures forall i :: i in SlotOf(a.precommits, r) ==> i < n
  {
    GoodOpen(a, n, me);
  }

  lemma SlotVotes(a: View, n: nat, me: Option<nat>, r: nat)
    requires Good(a, n, me) && r in a.precommits
    ensures forall i :: i in a.precommits[r] ==>
              var w := a.precommits[r][i];
              GoodVote(w, n) && w.phase == Precommit && w.height == a.height && w.round == r && w.idx == i && w in a.life.seen
  {
    GoodOpen(a, n, me);
  }

  lemma LockedHasValid(a: View, n: nat, me: Option<nat>)
    requires Good(a, n, me)
    ensures a.locked.Some? ==> a.valid.Some? && a.valid.value.0 >= a.locked.value.0
    ensures a.valid.Some? ==>
      && a.validProposal.Some? && a.validProposal.value.BlockHash() == a.valid.value.1
      && a.valid.value.0 <= a.round && HasPolka(a, n, a.valid.value.0, a.valid.value.1)
  {
    GoodOpen(a, n, me);
  }

  /** Replaying votes that were put aside earlier delivers nothing new. */
  lemma ReplayMove(n: nat, a: View, b: View, c: View, o1: seq<Output>, o2: seq<Output>, d: set<Vote>)
    requires Did(n, a, b, o1, {}) && Did(n, b, c, o2, d) && d <= b.life.held
    ensures Did(n, a, c, o1 + o2, {}) && b.life.held <= c.life.held
  {
    DidOpen(n, a, b, o1, {});
    DidOpen(n, b, c, o2, d);
    DidOpen(n, a, c, o1 + o2, {});
    EvolvesTrans(a, b, c, o1, o2, {}, d);
  }

  // ----- what the invariant says, one fact at a time -----

  lemma LogSigned(v: View, n: nat, me: Option<nat>)
    requires Good(v, n, me)
    ensures forall w :: w in v.life.log ==> GoodVote(w, n) && me == Some(w.idx) && w in v.life.seen && w.height <= v.height
  {
    GoodOpen(v, n, me);
  }

  lemma LogRules(v: View, n: nat, me: Option<nat>)
    requires Good(v, n, me)
    ensures OneVote(v.life.log) && Justified(v.life.log, v.life.seen, n)
  {
    GoodOpen(v, n, me);
  }

  lemma LifeRules(v: View, n: nat, me: Option<nat>)
    requires Good(v, n, me)
    ensures forall qc :: qc in v.life.decided ==> QcOk(v, n, qc) && qc.height < v.height
    ensures AccusedOk(v, n)
  {
    GoodOpen(v, n, me);
  }

  /** At most f validators have been heard from in any round above the current one. */
  lemma FewAhead(v: View, n: nat, me: Option<nat>, r: nat)
    requires Good(v, n, me) && r > v.round
    ensures |VotersAt(v, r)| <= Tolerance(n)
  {
    GoodOpen(v, n, me);
  }

  /** The lock never outruns the valid value, and both carry a polka. */
  lemma LockBehindValid(v: View, n: nat, me: Option<nat>)
    requires Good(v, n, me) && v.locked.Some?
    ensures v.valid.Some? && v.locked.value.0 <= v.valid.value.0 <= v.round
    ensures v.locked.value.0 == v.valid.value.0 ==> v.locked.value == v.valid.value
    ensures HasPolka(v, n, v.locked.value.0, v.locked.value.1) && HasPolka(v, n, v.valid.value.0, v.valid.value.1)
    ensures v.validProposal.Some? && v.validProposal.value.BlockHash() == v.valid.value.1
  {
    GoodOpen(v, n, me);
  }

  /** Every view change of a call goes up, and starts where the one before ended. */
  lemma {:induction false} RoundsRise(outs: seq<Output>, r: nat, i: nat)
    requires RoundAfter(outs, r) >= 0 && i < |outs| && outs[i].ViewChange?
    ensures outs[i].fromRound < outs[i].toRound && outs[i].fromRound == RoundAfter(outs[..i], r)
  {
    var init := outs[..|outs| - 1];
    if i < |init| {
      assert outs[..i] == init[..i];
      RoundsRise(init, r, i);
    }
  }
}
