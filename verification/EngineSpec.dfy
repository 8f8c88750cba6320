/**
 What one engine knows and has done, as a value, and the invariant every
 handler keeps.  `View` holds the engine fields that voting depends on, plus the
 record of the node's whole life, over all heights.
 */
module EngineSpec {
  import opened Options
  import opened ConsensusTypes
  import opened QuorumMath

  datatype StepKind = ProposeStep | PrevoteStep | PrecommitStep

  type Slot = map<nat, Vote>
  type Book = map<nat, Slot>

  datatype View = View(
    height: nat, round: nat, step: StepKind, active: bool,
    locked: Option<(nat, Hash)>, valid: Option<(nat, Hash)>, validProposal: Option<Proposal>,
    prevotes: Book, precommits: Book, pendingQc: Option<Qc>,
    life: Life)

  /** What the node did in its whole life: the votes it signed, the valid votes it
      processed, those it put aside for later, the certificates it committed and
      the double votes it reported. */
  datatype Life = Life(log: set<Vote>, seen: set<Vote>, held: set<Vote>, decided: set<Qc>, accused: set<(Vote, Vote)>)

  datatype Message =
    | ProposalMsg(proposal: Proposal)
    | VoteMsg(vote: Vote)
    | HeartbeatMsg(heartbeat: Heartbeat)
    | ShadowVoteMsg(shadowHeight: nat)
  {
    function Height(): nat {
      match this
      case ProposalMsg(p) => p.Height()
      case VoteMsg(v) => v.height
      case HeartbeatMsg(h) => h.height
      case ShadowVoteMsg(h) => h
    }
  }

  datatype ViewChangeReason = Timeout | NilQuorum | RoundSkip

  datatype QcClose = Immediate | Full | GraceExpired | Clamped

  datatype Output =
    | Broadcast(msg: Message)
    | NeedProposal(height: nat, round: nat)
    | Commit(proposal: Proposal, qc: Qc, roundsUsed: nat, qcClose: QcClose)
    | DoubleVote(a: Vote, b: Vote)
    | DoublePropose(first: Header, second: Header)
    | ViewChange(height: nat, fromRound: nat, toRound: nat, reason: ViewChangeReason)
    | Dropped

  // ----- what a list of outputs did -----

  function VotesIn(outs: seq<Output>): set<Vote> {
    set o | o in outs && o.Broadcast? && o.msg.VoteMsg? :: o.msg.vote
  }

  function CommitsIn(outs: seq<Output>): set<Qc> {
    set o | o in outs && o.Commit? :: o.qc
  }

  function AccusedIn(outs: seq<Output>): set<(Vote, Vote)> {
    set o | o in outs && o.DoubleVote? :: (o.a, o.b)
  }

  function ViewChanges(outs: seq<Output>): nat {
    if outs == [] then 0
    else ViewChanges(outs[..|outs| - 1]) + if outs[|outs| - 1].ViewChange? then 1 else 0
  }

  /** The round reached from `r` by the view changes of `outs`; -1 when some view
      change does not start where the previous one ended or does not go up. */
  function RoundAfter(outs: seq<Output>, r: nat): int {
    if outs == [] then r
    else
      var k := RoundAfter(outs[..|outs| - 1], r);
      match outs[|outs| - 1]
      case ViewChange(_, from, to, _) => if k == from < to then to else -1
      case Commit(_, _, _, _) => if k >= 0 then 0 else -1
      case _ => k
  }

  lemma {:induction false} TraceConcat(a: seq<Output>, b: seq<Output>, r: nat)
    ensures ViewChanges(a + b) == ViewChanges(a) + ViewChanges(b)
    ensures RoundAfter(a, r) >= 0 ==> RoundAfter(a + b, r) == RoundAfter(b, RoundAfter(a, r))
  {
    if b == [] {
      assert a + b == a;
    } else {
      TraceConcat(a, b[..|b| - 1], r);
      assert (a + b)[..|a + b| - 1] == a + b[..|b| - 1];
    }
  }

  lemma EffectsConcat(a: seq<Output>, b: seq<Output>)
    ensures VotesIn(a + b) == VotesIn(a) + VotesIn(b)
    ensures CommitsIn(a + b) == CommitsIn(a) + CommitsIn(b)
    ensures AccusedIn(a + b) == AccusedIn(a) + AccusedIn(b)
  {
  }

  // ----- counting votes -----

  function SlotOf(book: Book, r: nat): Slot {
    if r in book then book[r] else map[]
  }

  function BookOf(v: View, phase: Phase): Book {
    if phase == Prevote then v.prevotes else v.precommits
  }

  /** The vote is the one that counts for its slot. */
  predicate OnFile(v: View, w: Vote) {
    var slot := SlotOf(BookOf(v, w.phase), w.round);
    w.idx in slot && slot[w.idx] == w
  }

  /** Validators whose recorded vote in the slot is for `hash`. */
  function Backers(slot: Slot, hash: Hash): set<nat> {
    set i | i in slot && slot[i].blockHash == hash
  }

  /** Q precommits for a block in round `r`. */
  ghost predicate CertifiableAt(precommits: Book, r: nat, h: Hash, n: nat) {
    h != NilHash && |Backers(SlotOf(precommits, r), h)| >= Quorum(n)
  }

  function VotersAt(v: View, r: nat): set<nat> {
    SlotOf(v.prevotes, r).Keys + SlotOf(v.precommits, r).Keys
  }

  /** Validators with a vote for `hash` in a set of votes. */
  ghost function Supporters(votes: set<Vote>, phase: Phase, h: nat, r: nat, hash: Hash): set<nat> {
    set w | w in votes && w.phase == phase && w.height == h && w.round == r && w.blockHash == hash :: w.idx
  }

  /** Q prevotes (a "polka") and Q precommits, as evidenced by a set of votes. */
  ghost predicate Polka(votes: set<Vote>, n: nat, h: nat, r: nat, hash: Hash) {
    |Supporters(votes, Prevote, h, r, hash)| >= Quorum(n)
  }

  ghost predicate Certified(votes: set<Vote>, n: nat, h: nat, r: nat, hash: Hash) {
    |Supporters(votes, Precommit, h, r, hash)| >= Quorum(n)
  }

  lemma SupportersGrow(a: set<Vote>, b: set<Vote>, phase: Phase, h: nat, r: nat, hash: Hash)
    requires a <= b
    ensures |Supporters(a, phase, h, r, hash)| <= |Supporters(b, phase, h, r, hash)|
  {
    SubsetSize(Supporters(a, phase, h, r, hash), Supporters(b, phase, h, r, hash));
  }

  // ----- the invariant -----

  ghost predicate GoodVote(w: Vote, n: nat) {
    VerifyVote(w, n) && !w.shadow
  }

  /** Every book entry is a verified vote of this height filed under its own key. */
  ghost predicate Filed(book: Book, phase: Phase, n: nat, h: nat, seen: set<Vote>) {
    forall r, i :: r in book && i in book[r] ==>
      var w := book[r][i];
      GoodVote(w, n) && w.phase == phase && w.height == h && w.round == r && w.idx == i && w in seen
  }

  /** At most f validators have been heard from in any round above `r0`. */
  ghost predicate AheadQuiet(v: View, n: nat, r0: nat) {
    forall r :: r > r0 ==> |VotersAt(v, r)| <= Tolerance(n)
  }

  /** One vote per height, round and phase. */
  ghost predicate OneVote(log: set<Vote>) {
    forall a, b :: a in log && b in log && a.height == b.height && a.round == b.round && a.phase == b.phase
      ==> a == b
  }

  /** A precommit for a block needs a polka for it in that round; a later prevote
      for another block needs a polka for that other block in between. */
  ghost predicate Justified(log: set<Vote>, seen: set<Vote>, n: nat) {
    && (forall c :: c in log && c.phase == Precommit && c.blockHash != NilHash ==>
          Polka(seen, n, c.height, c.round, c.blockHash))
    && (forall c, p :: c in log && p in log && Supersedes(c, p) ==> Unlocked(seen, n, c, p.round, p.blockHash))
  }

  ghost predicate Supersedes(c: Vote, p: Vote) {
    && c.phase == Precommit && c.blockHash != NilHash
    && p.phase == Prevote && p.blockHash != NilHash
    && c.height == p.height && c.round < p.round && c.blockHash != p.blockHash
  }

  ghost predicate Unlocked(seen: set<Vote>, n: nat, c: Vote, r: nat, hash: Hash) {
    exists vr :: c.round < vr < r && Polka(seen, n, c.height, vr, hash)
  }

  /** The votes a node has signed so far sit behind its current position. */
  ghost predicate LogBehind(v: View, n: nat, me: Option<nat>) {
    forall w :: w in v.life.log ==>
      && GoodVote(w, n) && me == Some(w.idx) && w in v.life.seen && w.height <= v.height
      && (w.height == v.height ==>
            && v.active && w.round <= v.round
            && (w.round == v.round ==> v.step != ProposeStep && (w.phase == Precommit ==> v.step == PrecommitStep)))
  }

  ghost predicate HasPolka(v: View, n: nat, r: nat, hash: Hash) {
    |Backers(SlotOf(v.prevotes, r), hash)| >= Quorum(n)
  }

  /** Lock and valid value: both carry a polka from the book, and the valid value
      is at least as recent as the lock. */
  ghost predicate LockOk(v: View, n: nat) {
    && (v.locked.Some? ==>
          var (lr, lh) := v.locked.value;
          && lh != NilHash && lr <= v.round && HasPolka(v, n, lr, lh)
          && (lr == v.round ==> v.step == PrecommitStep)
          && v.valid.Some? && v.valid.value.0 >= lr && (v.valid.value.0 == lr ==> v.valid.value.1 == lh))
    && (v.valid.Some? ==>
          var (vr, vh) := v.valid.value;
          && vh != NilHash && vr <= v.round && HasPolka(v, n, vr, vh)
          && (vr == v.round ==> v.step != ProposeStep)
          && v.validProposal.Some? && v.validProposal.value.BlockHash() == vh)
  }

  /** A block precommitted at this height is still locked, or a newer one is. */
  ghost predicate LockHolds(v: View) {
    forall c :: c in v.life.log && c.height == v.height && c.phase == Precommit && c.blockHash != NilHash ==>
      && v.locked.Some? && v.locked.value.0 >= c.round
      && (v.locked.value.0 == c.round ==> v.locked.value.1 == c.blockHash)
  }

  ghost predicate QcOk(v: View, n: nat, qc: Qc) {
    && VerifyQc(qc, n) && qc.sigs.Keys <= Supporters(v.life.seen, Precommit, qc.height, qc.round, qc.blockHash)
  }

  ghost predicate CommitsOk(v: View, n: nat) {
    && (v.pendingQc.Some? ==> QcOk(v, n, v.pendingQc.value) && v.pendingQc.value.height == v.height)
    && (forall qc :: qc in v.life.decided ==> QcOk(v, n, qc) && qc.height < v.height)
  }

  ghost predicate SameSlot(a: Vote, b: Vote) {
    a.height == b.height && a.round == b.round && a.phase == b.phase && a.idx == b.idx
  }

  ghost predicate AccusedOk(v: View, n: nat) {
    forall e :: e in v.life.accused ==>
      e.0 in v.life.seen && e.1 in v.life.seen && SameSlot(e.0, e.1) && e.0.blockHash != e.1.blockHash
  }

  ghost predicate SeenOk(v: View, n: nat) {
    forall w :: w in v.life.seen ==> GoodVote(w, n)
  }

  /** Before `start` and after a commit the height is untouched. */
  ghost predicate Blank(v: View) {
    && v.round == 0 && v.step == ProposeStep && v.locked.None? && v.valid.None?
    && v.prevotes == map[] && v.precommits == map[] && v.pendingQc.None?
  }

  /** The invariant, except for the quiet rounds ahead. */
  ghost predicate Core(v: View, n: nat, me: Option<nat>) {
    && MIN_VALIDATORS <= n <= MAX_VALIDATORS_HARD && (me.Some? ==> me.value < n)
    && Filed(v.prevotes, Prevote, n, v.height, v.life.seen)
    && Filed(v.precommits, Precommit, n, v.height, v.life.seen)
    && SeenOk(v, n) && OneVote(v.life.log) && Justified(v.life.log, v.life.seen, n)
    && LogBehind(v, n, me) && LockOk(v, n) && LockHolds(v)
    && CommitsOk(v, n) && AccusedOk(v, n)
    && (!v.active ==> Blank(v))
  }

  ghost predicate Inv(v: View, n: nat, me: Option<nat>) {
    Core(v, n, me) && AheadQuiet(v, n, v.round)
  }

  // ----- what a call may do -----

  /** What is on file stays there: the first vote of a validator in a slot is the one that counts. */
  ghost predicate Keeps(a: Book, b: Book) {
    forall r, i :: r in a && i in a[r] ==> r in b && i in b[r] && b[r][i] == a[r][i]
  }

  /** Every block handed out is the one its certificate names. */
  predicate BodiesMatch(outs: seq<Output>) {
    forall o :: o in outs && o.Commit? ==> o.proposal.BlockHash() == o.qc.blockHash
  }

  ghost predicate LockLe(a: Option<(nat, Hash)>, b: Option<(nat, Hash)>) {
    a.Some? ==> b.Some? && a.value.0 <= b.value.0 && (a.value.0 == b.value.0 ==> a.value == b.value)
  }

  /** The two-state contract of every entry point: the record changes exactly by
      what the outputs say, every block committed is the certified one, rounds,
      locks and books only go forward within a height, and no vote is seen that was
      not delivered, put aside or signed here. */
  ghost predicate Evolves(a: View, b: View, outs: seq<Output>, delivered: set<Vote>) {
    && b.life.log == a.life.log + VotesIn(outs)
    && b.life.decided == a.life.decided + CommitsIn(outs)
    && b.life.accused == a.life.accused + AccusedIn(outs)
    && a.life.seen <= b.life.seen <= a.life.seen + b.life.log + a.life.held + delivered
    && a.life.held <= b.life.held <= a.life.held + delivered
    && RoundAfter(outs, a.round) == b.round && BodiesMatch(outs)
    && a.height <= b.height
    && (a.height == b.height ==>
          (a.active ==> b.active) && a.round <= b.round && LockLe(a.locked, b.locked) && Keeps(a.prevotes, b.prevotes) && Keeps(a.precommits, b.precommits))
  }

  lemma EvolvesTrans(a: View, b: View, c: View, o1: seq<Output>, o2: seq<Output>, d1: set<Vote>, d2: set<Vote>)
    requires Evolves(a, b, o1, d1) && Evolves(b, c, o2, d2)
    ensures Evolves(a, c, o1 + o2, d1 + d2)
  {
    TraceConcat(o1, o2, a.round);
    EffectsConcat(o1, o2);
  }

  // ----- the recursion of the handlers -----

  ghost function MyVoice(me: Option<nat>): set<nat> {
    if me.Some? then {me.value} else {}
  }

  /** The round could reach a quorum with the node's own vote.  Stated after `k`
      detours, so that the verifier leaves the count alone until `HotOpen`. */
  ghost predicate IsHotAt(k: nat, v: View, n: nat, me: Option<nat>) {
    if k == 0 then v.active && |VotersAt(v, v.round) + MyVoice(me)| >= Quorum(n)
    else IsHotAt(k - 1, v, n, me)
  }

  ghost predicate IsHot(v: View, n: nat, me: Option<nat>) {
    v.active && IsHotAt(n, v, n, me)
  }

  lemma {:induction false} HotAtOpen(k: nat, v: View, n: nat, me: Option<nat>)
    ensures IsHotAt(k, v, n, me) == (v.active && |VotersAt(v, v.round) + MyVoice(me)| >= Quorum(n))
  {
    if k > 0 { HotAtOpen(k - 1, v, n, me); }
  }

  lemma HotOpen(v: View, n: nat, me: Option<nat>)
    ensures IsHot(v, n, me) == (v.active && |VotersAt(v, v.round) + MyVoice(me)| >= Quorum(n))
  {
    HotAtOpen(n, v, n, me);
  }

  ghost function Hot(v: View, n: nat, me: Option<nat>): nat {
    if IsHot(v, n, me) then 1 else 0
  }

  ghost function StepRank(s: StepKind): nat {
    match s case ProposeStep => 2 case PrevoteStep => 1 case PrecommitStep => 0
  }

  /** Bounds the work left in a call: steps of this round, and one more round
      when this one is hot. */
  ghost function Rank(v: View, n: nat, me: Option<nat>): nat {
    if !v.active then 0 else 4 * Hot(v, n, me) + StepRank(v.step)
  }

  /** What a nested call does to the engine's position. */
  ghost predicate Settles(a: View, b: View, n: nat, me: Option<nat>, outs: seq<Output>) {
    && (b.active ==> a.active && b.height == a.height)
    && ViewChanges(outs) + Hot(b, n, me) <= Hot(a, n, me)
    && Rank(b, n, me) <= Rank(a, n, me)
    && (b.active && b.round != a.round ==> b.step != PrecommitStep)
    && (b.active && Hot(a, n, me) == 0 && a.step != PrecommitStep ==> b.step != PrecommitStep)
    && (b.active && ViewChanges(outs) == 0 ==> b.round == a.round)
  }

  lemma SettlesTrans(a: View, b: View, c: View, n: nat, me: Option<nat>, o1: seq<Output>, o2: seq<Output>)
    requires Settles(a, b, n, me, o1) && Settles(b, c, n, me, o2)
    ensures Settles(a, c, n, me, o1 + o2)
  {
    TraceConcat(o1, o2, 0);
  }
}
