/**
 The BFT engine: proposer rotation, prevote and precommit, lock and valid value,
 round skip, nil-quorum view change, QC grace window and commit.  The handlers
 call each other; `Rank` proves that they come back.
 */
module Engine {
  import opened Options
  import opened ConsensusTypes
  import opened EngineSpec
  import opened EngineLemmas
  import opened EngineMoves
  import opened Certificates
  import opened Ordering
  import opened DoubleSign
  import opened Text
  import opened Words

  const MAX_BUFFERED_PER_HEIGHT: nat := 4096
  const MAX_LOOKAHEAD_HEIGHTS: nat := 2
  const MAX_LOOKAHEAD_ROUNDS: nat := 16
  const TIMEOUT_CAP_MULTIPLIER: nat := 10

  datatype ChainParams = ChainParams(tBaseMs: nat, blockIntervalMs: nat, maxClockSkewMs: nat, idleBlockIntervalS: nat,
                                     othersOk: bool)

  /** The last committed block. */
  datatype ChainTip = ChainTip(height: nat, hash: Hash, qc: Option<Qc>, timestampMs: nat)

  /** The host's block checks: header structure, agreement of the body with the
      header (count, root, size, chain id) and execution on the tip state. */
  datatype Verifier = Verifier(
    structureOk: Header -> bool, bodyOk: (Header, nat) -> bool, simulate: (Header, nat) -> Option<nat>)

  function Min(a: nat, b: nat): nat { if a <= b then a else b }
  function Max(a: nat, b: nat): nat { if a <= b then b else a }

  /** Votes put aside for later are remembered in `held`. */
  ghost predicate HeldCovers(buffered: map<nat, seq<Message>>, held: set<Vote>, n: nat) {
    forall h, m :: h in buffered && m in buffered[h] && m.VoteMsg? && GoodVote(m.vote, n) ==> m.vote in held
  }

  lemma NoneCertifiable(precommits: Book, rounds: seq<nat>, n: nat)
    requires forall r :: r in precommits ==> r in rounds
    requires forall j, h :: 0 <= j < |rounds| ==> !CertifiableAt(precommits, rounds[j], h, n)
    ensures forall r, h :: !CertifiableAt(precommits, r, h, n)
  {
    forall r, h ensures !CertifiableAt(precommits, r, h, n) {
      if r !in precommits {
        assert Backers(SlotOf(precommits, r), h) == {};
      }
    }
  }

  lemma NoneBefore(precommits: Book, rounds: seq<nat>, i: nat, n: nat)
    requires i < |rounds| && n >= MIN_VALIDATORS && forall r :: r in precommits ==> r in rounds
    requires forall j, k :: 0 <= j < k < |rounds| ==> rounds[j] < rounds[k]
    requires forall j, h :: 0 <= j < i ==> !CertifiableAt(precommits, rounds[j], h, n)
    ensures forall r: nat, h :: r < rounds[i] ==> !CertifiableAt(precommits, r, h, n)
  {
    forall r: nat, h | r < rounds[i] ensures !CertifiableAt(precommits, r, h, n) {
      if r in precommits {
        var j :| 0 <= j < |rounds| && rounds[j] == r;
        assert j < i;
      } else {
        assert Backers(SlotOf(precommits, r), h) == {};
      }
    }
  }

  predicate Passed(deadline: Option<nat>, now: nat) { deadline.Some? && now >= deadline.value }

  /** The broadcast of a vote signed by validator `i`. */
  function Ballot(i: nat, h: nat, r: nat, phase: Phase, hash: Hash): Output {
    Broadcast(VoteMsg(SignVote(i, h, r, phase, hash)))
  }

  /** `outs` is nothing, or leads with that ballot of this validator. */
  predicate LeadsWith(outs: seq<Output>, me: Option<nat>, h: nat, r: nat, phase: Phase, hash: Hash) {
    outs == [] || (me.Some? && outs[0] == Ballot(me.value, h, r, phase, hash))
  }

  /** Where the body of a block is looked for: among the stored proposals, and only if none is for
      this block, in the valid value. */
  function Copies(stored: map<nat, Proposal>, kept: Option<Proposal>, hash: Hash): set<Proposal> {
    var here := set r | r in stored && stored[r].BlockHash() == hash :: stored[r];
    if here != {} then here else if kept.Some? && kept.value.BlockHash() == hash then {kept.value} else {}
  }

  /** One output, the commit of the certified block. */
  predicate Commits(outs: seq<Output>, qc: Option<Qc>) {
    |outs| == 1 && outs[0].Commit? && Some(outs[0].qc) == qc && outs[0].proposal.BlockHash() == outs[0].qc.blockHash
  }

  predicate Skipped(outs: seq<Output>, h: nat, from: nat, to: nat) {
    |outs| > 0 && outs[0] == ViewChange(h, from, to, RoundSkip)
  }

  function Capped(unit: int, k: int, most: int): int {
    if unit * k <= most then unit * k else most
  }

  lemma Multiples(t: nat, k: nat)
    requires 100 <= t <= 120_000 && k > 0
    ensures var whole, half, most := t * k, t / 2 * k, t * 10;
            && most <= 1_200_000 && (k <= 10 ==> whole <= most) && (k >= 10 ==> most <= whole) && half <= whole
            && Min(Min(whole, U64_MAX), Min(most, U64_MAX)) == t * (if k <= 10 then k else 10)
            && Min(Min(Max(t / 2, 1) * k, U64_MAX), Min(most, U64_MAX)) == Capped(t / 2, k, most)
  {
    if k <= 10 {
      Scale(t, k, 10);
    } else {
      Scale(t, 10, k);
    }
    Scale(k, t / 2, t);
    assert Max(t / 2, 1) == t / 2;
  }

  lemma Scale(t: nat, x: nat, y: nat)
    requires x <= y
    ensures t * x <= t * y && x * t <= y * t
  {
  }

  lemma Rotation(x: nat, e: nat, n: nat)
    requires e < n
    ensures (x + e) % n == if x % n + e < n then x % n + e else x % n + e - n
  {
    var q := x / n;
    assert x == q * n + x % n;
    if x % n + e < n {
      Remainder(x + e, q, x % n + e, n);
    } else {
      Remainder(x + e, q + 1, x % n + e - n, n);
    }
  }

  lemma Remainder(a: nat, q: nat, r: nat, n: nat)
    requires a == q * n + r && r < n
    ensures a % n == r
  {
    assert (a / n - q) * n == r - a % n;
    if a / n > q {
      Scale(n, 1, a / n - q);
    } else if a / n < q {
      Scale(n, 1, q - a / n);
    }
  }

  /** A seat of the validator set; 0 is the key of nobody. */
  datatype Seat = Seat(address: string, key: nat)

  datatype Identity = Identity(idx: nat, key: nat)

  predicate ValidSet(seats: seq<Seat>) {
    && MIN_VALIDATORS <= |seats| <= MAX_VALIDATORS_HARD
    && (forall i :: 0 <= i < |seats| ==> seats[i].key != 0)
    && forall i, k :: 0 <= i < k < |seats| ==>
         seats[i].key != seats[k].key && Lower(seats[i].address) != Lower(seats[k].address)
  }

  /** The ranges of what the engine reads; `othersOk` is the verdict on the other parameters. */
  predicate ValidParams(p: ChainParams) {
    && 100 <= p.blockIntervalMs <= 60_000 && p.blockIntervalMs <= p.tBaseMs <= 120_000
    && p.maxClockSkewMs <= 60_000 && p.idleBlockIntervalS >= 10 && p.othersOk
  }

  /** The parameters and both sets are valid, the identity holds its seat, and beyond
      genesis the tip carries its own valid certificate. */
  predicate MayOpen(seats: seq<Seat>, id: Option<Identity>, params: ChainParams, tip: ChainTip, tipSeats: Option<seq<Seat>>) {
    && ValidParams(params) && ValidSet(seats) && (tipSeats.Some? ==> ValidSet(tipSeats.value))
    && (id.Some? ==> id.value.idx < |seats| && seats[id.value.idx].key == id.value.key)
    && (tip.height > 0 ==>
          && tip.qc.Some? && tip.qc.value.height == tip.height && tip.qc.value.blockHash == tip.hash
          && VerifyQc(tip.qc.value, if tipSeats.Some? then |tipSeats.value| else |seats|))
  }

  lemma OpensIff(seats: seq<Seat>, id: Option<Identity>, p: ChainParams, tip: ChainTip)
    ensures MayOpen(seats, id, p, tip, None) <==>
              && p.othersOk && 100 <= p.blockIntervalMs <= 60_000 && p.blockIntervalMs <= p.tBaseMs <= 120_000
              && p.maxClockSkewMs <= 60_000 && 10 <= p.idleBlockIntervalS
              && 4 <= |seats| <= 101
              && (forall i :: 0 <= i < |seats| ==> seats[i].key > 0)
              && (forall i, k :: 0 <= i < |seats| && 0 <= k < |seats| && i != k ==>
                    seats[i].key != seats[k].key && Lower(seats[i].address) != Lower(seats[k].address))
              && (id.Some? ==> id.value.idx < |seats| && seats[id.value.idx].key == id.value.key)
              && (tip.height > 0 ==>
                    && tip.qc.Some? && tip.qc.value.height == tip.height && tip.qc.value.blockHash == tip.hash
                    && VerifyQc(tip.qc.value, |seats|))
  {
  }

  function IndexOf(id: Option<Identity>): Option<nat> { if id.Some? then Some(id.value.idx) else None }

  class BftEngine {
    const n: nat
    const me: Option<nat>
    const params: ChainParams
    const signer: DoubleSignProtector?
    const hashBytes: Hash -> seq<byte>

    var tip: ChainTip
    var tipN: nat
    var tipCommittedAtMs: nat
    var height: nat
    var round: nat
    var step: StepKind
    var roundActive: bool
    var locked: Option<(nat, Hash)>
    var valid: Option<(nat, Hash)>
    var validProposal: Option<Proposal>
    var proposals: map<nat, Proposal>
    var verified: set<Hash>
    var prevotes: Book
    var precommits: Book
    var pendingQc: Option<Qc>
    var buffered: map<nat, seq<Message>>
    var evidenceSeen: set<(nat, nat, nat)>
    var qcGraceMs: nat
    var qcGraceWait: Option<(nat, Hash, nat)>
    var lastQcClose: QcClose
    var proposeReadyAt: Option<nat>
    var proposeDeadline: Option<nat>
    var prevoteDeadline: Option<nat>
    var precommitDeadline: Option<nat>

    ghost var life: Life

    ghost function View(): View
      reads this`height, this`round, this`step, this`roundActive, this`locked, this`valid, this`validProposal
      reads this`prevotes, this`precommits, this`pendingQc, this`life
    {
      EngineSpec.View(height, round, step, roundActive, locked, valid, validProposal,
                      prevotes, precommits, pendingQc, life)
    }

    ghost predicate Valid()
      reads this
    {
      Good(View(), n, me) && HeldCovers(buffered, life.held, n)
    }

    /** No threshold that has been reached is left without its consequence. */
    ghost predicate Settled()
      reads this`height, this`round, this`step, this`roundActive, this`locked, this`valid, this`validProposal
      reads this`prevotes, this`precommits, this`pendingQc, this`life, this`proposals, this`qcGraceMs
    {
      Answered(View(), proposals, qcGraceMs, n)
    }

    /** As much for the prevotes of the current round. */
    ghost predicate Polled()
      reads this
    {
      Prevoted(View(), proposals, n)
    }

    /** An engine for the height after `tip`.  `past` is the record of earlier
        engines of this node; it must not reach into the new height. */
    constructor (n: nat, me: Option<nat>, params: ChainParams, signer: DoubleSignProtector?, hashBytes: Hash -> seq<byte>,
                 tip: ChainTip, tipN: nat, ghost past: View)
      requires Good(past, n, me) && past.height <= tip.height + 1
      requires forall w :: w in past.life.log ==> w.height <= tip.height
      ensures Valid() && this.n == n && this.me == me && this.params == params && this.signer == signer
      ensures this.tip == tip && this.tipN == tipN
      ensures View() == Rebuilt(past, tip.height + 1)
    {
      this.n, this.me, this.params, this.signer, this.hashBytes := n, me, params, signer, hashBytes;
      this.tip, this.tipN, tipCommittedAtMs := tip, tipN, 0;
      height, round, step, roundActive := tip.height + 1, 0, ProposeStep, false;
      locked, valid, validProposal := None, None, None;
      proposals, verified, prevotes, precommits, pendingQc := map[], {}, map[], map[], None;
      buffered, evidenceSeen := map[], {};
      qcGraceMs, qcGraceWait, lastQcClose := 0, None, Immediate;
      proposeReadyAt, proposeDeadline, prevoteDeadline, precommitDeadline := None, None, None, None;
      life := past.life;
      new;
      RebuildMove(past, n, me, tip.height + 1);
    }

    /** `tipSeats` is the set that certified the tip, if it is another one. */
    static method New(seats: seq<Seat>, id: Option<Identity>, params: ChainParams, signer: DoubleSignProtector?,
                      hashBytes: Hash -> seq<byte>, tip: ChainTip, tipSeats: Option<seq<Seat>>, ghost past: View)
      returns (e: BftEngine?)
      requires MayOpen(seats, id, params, tip, tipSeats) ==>
        && Good(past, |seats|, IndexOf(id)) && past.height <= tip.height + 1
        && forall w :: w in past.life.log ==> w.height <= tip.height
      ensures e != null <==> MayOpen(seats, id, params, tip, tipSeats)
      ensures e != null ==>
        && fresh(e) && e.Valid() && e.n == |seats| && e.me == IndexOf(id) && e.params == params
        && e.signer == signer && e.tip == tip
        && e.tipN == if tipSeats.Some? then |tipSeats.value| else |seats|
      ensures e != null ==> e.View() == Rebuilt(past, tip.height + 1)
    {
      e := null;
      if MayOpen(seats, id, params, tip, tipSeats) {
        e := new BftEngine(|seats|, IndexOf(id), params, signer, hashBytes, tip,
                           if tipSeats.Some? then |tipSeats.value| else |seats|, past);
      }
    }

    method SetQcGrace(ms: nat)
      modifies this`qcGraceMs
      ensures qcGraceMs == ms
    {
      qcGraceMs := ms;
    }

    // ----- helpers that only compute -----

    function ProposerFor(h: nat, r: nat): nat
      reads this
      requires n > 0
    {
      (h + r) % n
    }

    predicate IsProposer()
      reads this
      requires n > 0
    {
      me == Some(ProposerFor(height, round))
    }

    function TPropose(r: nat): nat
      reads this
    {
      Min(Min(params.tBaseMs * (1 + r), U64_MAX), Min(params.tBaseMs * TIMEOUT_CAP_MULTIPLIER, U64_MAX))
    }

    function TVote(r: nat): nat
      reads this
    {
      Min(Min(Max(params.tBaseMs / 2, 1) * (1 + r), U64_MAX), Min(params.tBaseMs * TIMEOUT_CAP_MULTIPLIER, U64_MAX))
    }

    function GraceDeadline(since: nat): Option<nat>
      reads this
    {
      if qcGraceMs == 0 then None
      else
        var at := SatAdd(since, qcGraceMs, U64_MAX);
        if precommitDeadline.Some? && SatAdd(at, 1, U64_MAX) >= precommitDeadline.value then None else Some(at)
    }

    predicate HasQuorumPrevotes(r: nat, hash: Hash)
      reads this
    {
      r in prevotes && |Backers(prevotes[r], hash)| >= Quorum(n)
    }

    /** `check_proposal`. */
    predicate CheckProposal(p: Proposal, now: nat, verifier: Verifier)
      reads this
      requires n > 0
    {
      var h := p.header;
      && verifier.structureOk(h)
      && h.number == height && h.round <= p.round
      && h.proposerIdx == ProposerFor(h.number, h.round)
      && p.headerSig == Signed(h.proposerIdx, HeaderDigest(p.BlockHash()))
      && (p.validRound.Some? ==> p.validRound.value < p.round)
      && h.parentHash == tip.hash
      && (match (h.lastQc, tip.qc)
          case (Some(qc), Some(_)) => VerifyQc(qc, tipN)
          case (None, None) => height == 1
          case _ => false)
      && tip.timestampMs < h.timestampMs <= SatAdd(now, params.maxClockSkewMs, U64_MAX)
      && verifier.bodyOk(h, p.body)
      && (p.BlockHash() in verified || verifier.simulate(h, p.body) == Some(h.stateRoot))
    }

    /** A proposal that checks out extends the tip: next height, signed by the proposer of its rotation slot, on the
        tip's hash and after its time but not in the future, with the tip certified and the state root as computed. */
    lemma CheckedExtendsTip(p: Proposal, now: nat, verifier: Verifier)
      requires n > 0 && CheckProposal(p, now, verifier)
      ensures p.header.number == height && p.header.parentHash == tip.hash && p.header.round <= p.round
      ensures p.header.proposerIdx == (height + p.header.round) % n
      ensures p.headerSig == Signed(p.header.proposerIdx, HeaderDigest(HeaderHash(p.header.digest)))
      ensures p.validRound.Some? ==> p.validRound.value < p.round
      ensures tip.timestampMs < p.header.timestampMs
      ensures now + params.maxClockSkewMs <= U64_MAX ==> p.header.timestampMs <= now + params.maxClockSkewMs
      ensures if tip.qc.Some? then p.header.lastQc.Some? && VerifyQc(p.header.lastQc.value, tipN)
              else p.header.lastQc.None? && height == 1
      ensures verifier.structureOk(p.header) && verifier.bodyOk(p.header, p.body)
      ensures HeaderHash(p.header.digest) in verified || verifier.simulate(p.header, p.body) == Some(p.header.stateRoot)
    {
    }

    /** For parameters in range the timeouts are multiples of the base that grow with the round, up to ten of them. */
    lemma TimeoutsAre(r: nat)
      requires ValidParams(params)
      ensures TPropose(r) == params.tBaseMs * if r < 10 then 1 + r else 10
      ensures TVote(r) == Capped(params.tBaseMs / 2, 1 + r, params.tBaseMs * 10)
      ensures TVote(r) <= TPropose(r)
    {
      Multiples(params.tBaseMs, 1 + r);
    }

    lemma TimeoutsGrow(r: nat, k: nat)
      requires ValidParams(params) && r <= k
      ensures TPropose(r) <= TPropose(k) && TVote(r) <= TVote(k)
    {
      TimeoutsAre(r);
      TimeoutsAre(k);
      Scale(params.tBaseMs, if r < 10 then 1 + r else 10, if k < 10 then 1 + k else 10);
      Scale(params.tBaseMs / 2, 1 + r, 1 + k);
    }

    /** Each validator proposes exactly once in any n consecutive rounds of a height. */
    lemma ProposersRotate(h: nat, from: nat, i: nat, k: nat)
      requires i < n && from <= k < from + n
      ensures ProposerFor(h, k) == i <==> k == from + (if i >= (h + from) % n then 0 else n) + i - (h + from) % n
    {
      Rotation(h + from, k - from, n);
    }

    // ----- voting -----

    method ArmVoteTimer(phase: Phase, now: nat)
      modifies this`prevoteDeadline, this`precommitDeadline
      ensures prevoteDeadline == if phase == Prevote && old(prevoteDeadline).None? then Some(SatAdd(now, TVote(round), U64_MAX))
                                 else old(prevoteDeadline)
      ensures precommitDeadline == if phase == Precommit && old(precommitDeadline).None? then Some(SatAdd(now, TVote(round), U64_MAX))
                                   else old(precommitDeadline)
    {
      var at := SatAdd(now, TVote(round), U64_MAX);
      if phase == Prevote && prevoteDeadline.None? {
        prevoteDeadline := Some(at);
      } else if phase == Precommit && precommitDeadline.None? {
        precommitDeadline := Some(at);
      }
    }

    /** Asks the double-sign guard, if there is one. */
    method MaySign(stepCode: nat, hash: Hash) returns (ok: bool)
      modifies signer
      ensures signer == null ==> ok
      ensures signer != null && Repeat(old(signer.Model()), Watermark(height, round, stepCode, hashBytes(hash))) ==> ok
      ensures signer != null && ok ==>
        signer.granted == old(signer.granted) + [Watermark(height, round, stepCode, hashBytes(hash))]
    {
      ok := true;
      if signer != null {
        var writeOk: bool := *;
        ok := signer.Allow(Watermark(height, round, stepCode, hashBytes(hash)), writeOk);
      }
    }

    /** A validator without a guard that has not voted in this round and phase. */
    predicate CanVote(phase: Phase)
      reads this`round, this`prevotes, this`precommits
    {
      me.Some? && signer == null && me.value !in SlotOf(if phase == Prevote then prevotes else precommits, round)
    }

    method CastVote(phase: Phase, hash: Hash, now: nat, verifier: Verifier) returns (outs: seq<Output>)
      requires Valid() && CanSign(View(), n, phase, hash) && roundActive
      modifies this, signer
      ensures Valid() && buffered == old(buffered) && Nest(old(View()), View(), n, me, outs)
      ensures LeadsWith(outs, me, old(height), old(round), phase, hash)
      ensures old(CanVote(phase)) ==> outs != []
      ensures old(Polled()) ==> Polled()
      ensures outs == [] ==> View() == old(View()) && proposeDeadline == old(proposeDeadline)
                             && proposeReadyAt == old(proposeReadyAt)
                             && (phase == Precommit ==> prevoteDeadline == old(prevoteDeadline))
      decreases Rank(View(), n, me), 3
    {
      ghost var a := View();
      outs := [];
      Stay(a, n, me, outs);
      var vote := SignBallot(phase, hash, now);
      if vote.None? {
        return;
      }
      outs := [Broadcast(VoteMsg(vote.value))];
      ghost var b := View();
      AnsweredSame(a, b, proposals, proposals, qcGraceMs, n);
      var more := OnVote(vote.value, now, verifier);
      NestTrans(a, b, View(), n, me, outs, more);
      outs := outs + more;
    }

    /** A validator whose slot is still free signs, if its guard lets it; it and an observer start the vote timer
        either way. */
    method SignBallot(phase: Phase, hash: Hash, now: nat) returns (vote: Option<Vote>)
      requires Valid() && CanSign(View(), n, phase, hash) && roundActive
      modifies this`prevoteDeadline, this`precommitDeadline, this`life, signer
      ensures Valid()
      ensures var slot := SlotOf(if phase == Prevote then prevotes else precommits, round);
              var taken := me.Some? && me.value in slot;
              && (vote.Some? ==> me.Some? && !taken && vote.value == SignVote(me.value, height, round, phase, hash))
              && (me.Some? && !taken && signer == null ==> vote.Some?)
              && View() == (if vote.Some? then Sign(old(View()), vote.value) else old(View()))
              && prevoteDeadline == (if phase == Prevote && !taken && old(prevoteDeadline).None?
                                     then Some(SatAdd(now, TVote(round), U64_MAX)) else old(prevoteDeadline))
              && precommitDeadline == (if phase == Precommit && !taken && old(precommitDeadline).None?
                                       then Some(SatAdd(now, TVote(round), U64_MAX)) else old(precommitDeadline))
      ensures vote.Some? ==>
        Nest(old(View()), View(), n, me, [Broadcast(VoteMsg(vote.value))]) && Rank(View(), n, me) == Rank(old(View()), n, me)
      ensures vote.Some? && signer != null ==>
        signer.granted == old(signer.granted) + [Watermark(height, round, if phase == Prevote then 1 else 2, hashBytes(hash))]
    {
      vote := None;
      if me.None? {
        ArmVoteTimer(phase, now);
        return;
      }
      var book: Book := if phase == Prevote then prevotes else precommits;
      if round in book && me.value in book[round] {
        return;
      }
      var ok := MaySign(if phase == Prevote then 1 else 2, hash);
      ArmVoteTimer(phase, now);
      if !ok {
        return;
      }
      vote := Some(SignVote(me.value, height, round, phase, hash));
      SignMove(View(), n, me.value, phase, hash);
      life := life.(log := life.log + {vote.value}, seen := life.seen + {vote.value});
    }

    /** With this vote more than f validators will have been heard from in its later round. */
    ghost predicate Ahead(v: Vote)
      reads this
    {
      && v.round > round && |VotersAt(View(), v.round) + {v.idx}| > Tolerance(n)
      && v.idx !in SlotOf(if v.phase == Prevote then prevotes else precommits, v.round)
    }

    /** The first vote of its validator in the slot; a vote for a slot still free is the first itself. */
    function FirstVote(v: Vote): Vote
      reads this
    {
      var slot := SlotOf(if v.phase == Prevote then prevotes else precommits, v.round);
      if v.idx in slot then slot[v.idx] else v
    }

    /** A sound vote not too far ahead is known afterwards. While the height lasts the first vote of its slot is on
        file, and a different one is reported with it, once. */
    twostate predicate VoteTaken(v: Vote, outs: seq<Output>)
      reads this
    {
      && (GoodVote(v, n) && v.round <= old(round) + 16 ==>
            && v in life.seen && (height == old(height) ==> OnFile(View(), old(FirstVote(v))))
            && (old(FirstVote(v)).blockHash != v.blockHash ==>
                  var key := (v.idx, v.round, if v.phase == Prevote then 1 else 2);
                  key in old(evidenceSeen) || DoubleVote(old(FirstVote(v)), v) in outs))
      && (!(GoodVote(v, n) && v.round <= old(round) + 16) ==>
            outs == [Dropped] && View() == old(View()) && proposals == old(proposals))
      && (old(Settled()) ==> Settled()) && (old(Polled()) ==> Polled())
    }

    method OnVote(v: Vote, now: nat, verifier: Verifier) returns (outs: seq<Output>)
      requires Valid() && roundActive && v.height == height
      modifies this, signer
      ensures Valid() && buffered == old(buffered)
      ensures Did(n, old(View()), View(), outs, if GoodVote(v, n) then {v} else {})
      ensures me == Some(v.idx) && v.round == old(round) && v in old(life.seen) ==> Nest(old(View()), View(), n, me, outs)
      ensures ViewChanges(outs) + Hot(View(), n, me) <= 2
      ensures GoodVote(v, n) && old(Ahead(v)) && v.round <= old(round) + MAX_LOOKAHEAD_ROUNDS ==>
        Skipped(outs, old(height), old(round), v.round)
      ensures VoteTaken(v, outs)
      decreases if me == Some(v.idx) && v.round == round && v in life.seen then Rank(View(), n, me) else 9, 2
    {
      ghost var a := View();
      outs := [Dropped];
      Stay(a, n, me, outs);
      QuietTrace(outs, round);
      DidMore(n, a, a, outs, {}, if GoodVote(v, n) then {v} else {});
      if v.shadow || v.round > round + MAX_LOOKAHEAD_ROUNDS || !VerifyVote(v, n) {
        return;
      }
      var book: Book := if v.phase == Prevote then prevotes else precommits;
      if v.round in book && v.idx in book[v.round] {
        var existing: Vote := book[v.round][v.idx];
        SlotFiled(a, n, me, v);
        if existing.blockHash != v.blockHash {
          outs := ReportDoubleVote(existing, v);
          AnsweredSame(a, View(), proposals, proposals, qcGraceMs, n);
        }
        return;
      }
      outs := CountVote(v, now, verifier);
      AnsweredPrevoted(View(), proposals, qcGraceMs, n);
    }

    /** Files a new vote; f+1 voters of a later round pull the node there. */
    method CountVote(v: Vote, now: nat, verifier: Verifier) returns (outs: seq<Output>)
      requires Valid() && roundActive && v.height == height && GoodVote(v, n)
      requires v.idx !in SlotOf(if v.phase == Prevote then prevotes else precommits, v.round)
      modifies this, signer
      ensures Valid() && buffered == old(buffered) && Did(n, old(View()), View(), outs, {v})
      ensures me == Some(v.idx) && v.round == old(round) && v in old(life.seen) ==> Nest(old(View()), View(), n, me, outs)
      ensures ViewChanges(outs) + Hot(View(), n, me) <= 2
      ensures old(Ahead(v)) ==> Skipped(outs, old(height), old(round), v.round)
      ensures v in life.seen && (height == old(height) ==> OnFile(View(), v)) && Settled()
      decreases if me == Some(v.idx) && v.round == round && v in life.seen then Rank(View(), n, me) else 9, 1, 2
    {
      ghost var a := View();
      ghost var own := me == Some(v.idx) && v.round == round && v in life.seen;
      FileVote(v);
      ghost var b := View();
      outs := AfterFiling(v, now, verifier);
      FiledStays(n, b, View(), outs, {}, v);
      if own { NestAfter(a, b, View(), n, me, outs); }
      DidAfter(n, a, b, View(), outs, {v});
    }

    /** The book and what is known of the round afterwards. */
    method FileVote(v: Vote)
      requires Valid() && roundActive && v.height == height && GoodVote(v, n)
      requires v.idx !in SlotOf(if v.phase == Prevote then prevotes else precommits, v.round)
      modifies this`prevotes, this`precommits, this`life
      ensures HeldCovers(buffered, life.held, n) && Did(n, old(View()), View(), [], {v})
      ensures v in life.seen && OnFile(View(), v) && height == old(height)
      ensures v.round <= round || |VotersAt(View(), v.round)| <= Tolerance(n) ==> Good(View(), n, me)
      ensures v.round > round ==> Good(View().(round := v.round, step := ProposeStep), n, me)
      ensures me == Some(v.idx) && v.round == round && v in old(life.seen) ==>
        Nest(old(View()), View(), n, me, []) && Rank(View(), n, me) == Rank(old(View()), n, me)
      ensures old(Ahead(v)) ==> v.round > round && |VotersAt(View(), v.round)| > Tolerance(n)
    {
      ghost var a := View();
      FiledMove(a, n, me, v);
      FileInBook(v);
    }

    /** Skips to the round of the vote just filed, or checks the thresholds. */
    method AfterFiling(v: Vote, now: nat, verifier: Verifier) returns (outs: seq<Output>)
      requires HeldCovers(buffered, life.held, n) && roundActive
      requires v.round <= round || |VotersAt(View(), v.round)| <= Tolerance(n) ==> Good(View(), n, me)
      requires v.round > round ==> Good(View().(round := v.round, step := ProposeStep), n, me)
      modifies this, signer
      ensures Valid() && buffered == old(buffered) && Did(n, old(View()), View(), outs, {})
      ensures v.round <= old(round) ==> Nest(old(View()), View(), n, me, outs)
      ensures ViewChanges(outs) + Hot(View(), n, me) <= 2
      ensures v.round > old(round) && old(|VotersAt(View(), v.round)|) > Tolerance(n) ==>
        Skipped(outs, old(height), old(round), v.round)
      ensures Settled()
      decreases if v.round <= round then Rank(View(), n, me) else 9, 1, 1
    {
      if v.round > round && |SlotOf(prevotes, v.round).Keys + SlotOf(precommits, v.round).Keys| > Tolerance(n) {
        outs := SkipTo(v.round, now, verifier);
      } else {
        ghost var b := View();
        outs := TryAdvance(now, verifier);
        NestGives(b, View(), n, me, outs);
      }
    }

    method SkipTo(k: nat, now: nat, verifier: Verifier) returns (outs: seq<Output>)
      requires HeldCovers(buffered, life.held, n) && roundActive && k > round
      requires Good(View().(round := k, step := ProposeStep), n, me)
      modifies this, signer
      ensures Valid() && buffered == old(buffered) && Did(n, old(View()), View(), outs, {}) && ViewChanges(outs) + Hot(View(), n, me) <= 2
      ensures Skipped(outs, old(height), old(round), k) && Settled()
      decreases 8, 0
    {
      ghost var b := View();
      ghost var tail;
      outs, tail := StartRound(k, now, Some(RoundSkip), verifier);
      SkipMove(b, View(), k, RoundSkip, n, me, tail);
    }

    method FileInBook(v: Vote)
      modifies this`prevotes, this`precommits, this`life
      ensures View() == Record(old(View()), v) && life.held == old(life).held
    {
      if v.phase == Prevote {
        prevotes := Put(prevotes, v);
      } else {
        precommits := Put(precommits, v);
      }
      life := life.(seen := life.seen + {v});
    }

    method ReportDoubleVote(existing: Vote, v: Vote) returns (outs: seq<Output>)
      requires Valid() && roundActive && GoodVote(v, n) && v.height == height && existing.blockHash != v.blockHash
      requires var slot := SlotOf(if v.phase == Prevote then prevotes else precommits, v.round);
               v.idx in slot && slot[v.idx] == existing
      modifies this`evidenceSeen, this`life
      ensures Valid() && Did(n, old(View()), View(), outs, {v}) && ViewChanges(outs) == 0
      ensures v in old(life.seen) ==> Nest(old(View()), View(), n, me, outs)
      ensures var key := (v.idx, v.round, if v.phase == Prevote then 1 else 2);
        evidenceSeen == old(evidenceSeen) + {key} && (key in old(evidenceSeen) || DoubleVote(existing, v) in outs)
      ensures View() == old(View()).(life := life) && v in life.seen
    {
      ghost var a := View();
      outs := [Dropped];
      Stay(a, n, me, outs);
      QuietTrace(outs, round);
      DidMore(n, a, a, outs, {}, {v});
      var key := (v.idx, v.round, if v.phase == Prevote then 1 else 2);
      if key !in evidenceSeen {
        evidenceSeen := evidenceSeen + {key};
        AccuseMove(a, n, me, existing, v);
        life := life.(seen := life.seen + {v}, accused := life.accused + {(existing, v)});
        outs := [DoubleVote(existing, v)] + [Dropped];
      } else {
        SeeMove(a, n, me, v);
        life := life.(seen := life.seen + {v});
      }
    }

    // ----- rounds -----

    method StartRound(k: nat, now: nat, reason: Option<ViewChangeReason>, verifier: Verifier)
      returns (outs: seq<Output>, ghost tail: seq<Output>)
      requires HeldCovers(buffered, life.held, n) && roundActive
      requires Good(View().(round := k, step := ProposeStep), n, me)
      requires reason.Some? ==> k > round
      modifies this, signer
      ensures Valid() && buffered == old(buffered)
      ensures outs == (if reason.Some? then [ViewChange(old(height), old(round), k, reason.value)] else []) + tail
      ensures Nest(old(View()).(round := k, step := ProposeStep), View(), n, me, tail)
      ensures Settled() && (old(Asked(k, now)) ==> NeedProposal(old(height), k) in outs)
      decreases 4 * Hot(View().(round := k, step := ProposeStep), n, me) + 3, 0
    {
      ghost var a := View().(round := k, step := ProposeStep);
      var first := if reason.Some? then [ViewChange(height, round, k, reason.value)] else [];
      var need := EnterRound(k, now);
      Stay(a, n, me, need);
      var o1 := ReplayProposal(k, now, verifier);
      ghost var b := View();
      NestGives(a, b, n, me, o1);
      NestTrans(a, a, b, n, me, need, o1);
      var o2 := TryAdvance(now, verifier);
      NestTrans(a, b, View(), n, me, need + o1, o2);
      tail := need + o1 + o2;
      outs := first + (need + o1 + o2);
    }

    /** The node is to propose in round `k` and may do so now. */
    predicate Asked(k: nat, now: nat)
      reads this
      requires n > 0
    {
      k !in proposals && me == Some(ProposerFor(height, k)) && now >= WindowStart(now)
    }

    /** Handles the proposal that was stored for this round, if there is one. */
    method ReplayProposal(k: nat, now: nat, verifier: Verifier) returns (outs: seq<Output>)
      requires Valid() && roundActive && round == k
      modifies this, signer
      ensures Valid() && buffered == old(buffered) && Nest(old(View()), View(), n, me, outs)
      ensures k in old(proposals) && old(step) == ProposeStep && old(Genuine(proposals[k])) && old(proposals[k]).round == k
              && old(CanVote(Prevote)) ==>
        Ballot(me.value, old(height), k, Prevote, old(PrevoteFor(proposals[k], CheckProposal(proposals[k], now, verifier)))) in outs
      decreases Rank(View(), n, me), 5
    {
      outs := [];
      Stay(View(), n, me, outs);
      if k in proposals {
        var p := proposals[k];
        proposals := proposals - {k};
        outs := OnProposal(p, now, verifier);
      }
    }

    /** Blocks are at least the block interval apart. */
    function WindowStart(now: nat): nat
      reads this`tip
    {
      Max(now, SatAdd(tip.timestampMs, params.blockIntervalMs, U64_MAX))
    }

    /** Resets the step and the timers for round `k`. */
    method EnterRound(k: nat, now: nat) returns (need: seq<Output>)
      requires n > 0
      modifies this`round, this`step, this`qcGraceWait
      modifies this`proposeReadyAt, this`proposeDeadline, this`prevoteDeadline, this`precommitDeadline
      ensures round == k && step == ProposeStep && IsQuiet(need)
      ensures var mine := old(k !in proposals) && me == Some(ProposerFor(height, k));
              && proposeDeadline == Some(SatAdd(WindowStart(now), TPropose(k), U64_MAX))
              && (need == if mine && now >= WindowStart(now) then [NeedProposal(height, k)] else [])
              && (proposeReadyAt == if mine && now < WindowStart(now) then Some(WindowStart(now)) else None)
              && prevoteDeadline.None? && precommitDeadline.None? && qcGraceWait.None?
    {
      round, step := k, ProposeStep;
      ClearTimers();
      var windowStart := WindowStart(now);
      proposeDeadline := Some(SatAdd(windowStart, TPropose(k), U64_MAX));
      need := [];
      if IsProposer() && k !in proposals {
        if now >= windowStart {
          need := [NeedProposal(height, k)];
        } else {
          proposeReadyAt := Some(windowStart);
        }
      }
    }

    /** Signed by the proposer of its round. */
    predicate Genuine(p: Proposal)
      reads this
      requires n > 0
    {
      p.sig == Signed(ProposerFor(height, p.round), p.EnvelopeOf())
    }

    /** The certificate that is pending asks for this block. */
    predicate Wanted(p: Proposal)
      reads this
    {
      pendingQc.Some? && pendingQc.value.blockHash == p.BlockHash()
    }

    /** The first signed proposal for this round, arriving in time. */
    predicate Current(p: Proposal)
      reads this
      requires n > 0
    {
      && step == ProposeStep && p.round == round && round !in proposals
      && Genuine(p)
    }

    /** A validator free to vote answers the first timely proposal of the round. One of a later round is stored, once
        per round and not too far ahead, a second one of a round is compared with the first, one of an earlier round
        brings at most the body of the certified block, and one not signed by its proposer does nothing. */
    twostate predicate ProposalTaken(p: Proposal, now: nat, verifier: Verifier, outs: seq<Output>)
      reads this
      requires n > 0
    {
      && (old(Current(p)) && old(CanVote(Prevote)) ==>
            Ballot(me.value, old(height), old(round), Prevote, old(PrevoteFor(p, CheckProposal(p, now, verifier)))) in outs)
      && (!old(Genuine(p)) ==>
            outs == [Dropped] && View() == old(View()) && proposals == old(proposals) && verified == old(verified))
      && (old(Genuine(p)) && p.round > old(round) ==>
            && View() == old(View()) && verified == old(verified)
            && (if p.round <= old(round) + 16 && p.round !in old(proposals)
                then outs == [Dropped] && proposals == old(proposals)[p.round := p] else proposals == old(proposals)))
      && (old(Genuine(p)) && p.round in old(proposals) && old(round) <= p.round <= old(round) + 16 ==>
            outs == old(Report(proposals[p.round], p)))
      && (p.round < old(round) && !old(Wanted(p) && CheckProposal(p, now, verifier)) ==>
            outs == [Dropped] && View() == old(View()) && proposals == old(proposals) && verified == old(verified))
      && (old(Genuine(p)) && p.round < old(round) && old(Wanted(p) && CheckProposal(p, now, verifier))
          && p.round !in old(proposals) && old(NothingDue()) ==>
            Commits(outs, old(pendingQc)))
      && (old(Settled()) || (old(Genuine(p)) && p.round == old(round) && old(round) !in old(proposals)) ==> Settled())
    }

    method OnProposal(p: Proposal, now: nat, verifier: Verifier) returns (outs: seq<Output>)
      requires Valid() && roundActive
      modifies this, signer
      ensures Valid() && buffered == old(buffered) && Nest(old(View()), View(), n, me, outs)
      ensures ProposalTaken(p, now, verifier, outs)
      decreases Rank(View(), n, me), 4
    {
      ghost var a := View();
      outs := [Dropped];
      Stay(a, n, me, outs);
      if !Genuine(p) {
        return;
      }
      if p.round < round {
        outs := PastProposal(p, now, verifier);
        return;
      }
      if p.round > round || p.round in proposals {
        if p.round > round {
          AnsweredSame(a, a, proposals, proposals[p.round := p], qcGraceMs, n);
        }
        outs := FileProposal(p);
        Stay(a, n, me, outs);
        return;
      }
      var good;
      good, outs := KeepIfGood(p, now, verifier);
      Stay(a, n, me, outs);
      var o1 := PrevoteOn(p, good, now, verifier);
      ghost var b := View();
      NestGives(a, b, n, me, o1);
      NestTrans(a, a, b, n, me, outs, o1);
      var o2 := TryAdvance(now, verifier);
      NestTrans(a, b, View(), n, me, outs + o1, o2);
      outs := outs + o1 + o2;
    }

    /** A proposal of this round is kept, and its hash remembered as good, exactly when it checks out. */
    method KeepIfGood(p: Proposal, now: nat, verifier: Verifier) returns (good: bool, outs: seq<Output>)
      requires n > 0
      modifies this`verified, this`proposals
      ensures good == old(CheckProposal(p, now, verifier)) && outs == if good then [] else [Dropped]
      ensures proposals == if good then old(proposals)[p.round := p] else old(proposals)
      ensures verified == old(verified) + if good then {p.BlockHash()} else {}
    {
      good := CheckProposal(p, now, verifier);
      outs := if good then [] else [Dropped];
      if good {
        verified := verified + {p.BlockHash()};
        proposals := proposals[p.round := p];
      }
    }

    /** A proposal of a later round is stored if it is the first of its round and
        not too far ahead; a second one of a round is compared with the first. */
    method FileProposal(p: Proposal) returns (outs: seq<Output>)
      requires p.round > round || p.round in proposals
      modifies this`proposals, this`evidenceSeen
      ensures IsQuiet(outs)
      ensures proposals ==
        if p.round <= round + MAX_LOOKAHEAD_ROUNDS && p.round !in old(proposals) then old(proposals)[p.round := p] else old(proposals)
      ensures outs ==
        if p.round <= round + MAX_LOOKAHEAD_ROUNDS && p.round in old(proposals) then old(Report(proposals[p.round], p)) else [Dropped]
    {
      outs := [Dropped];
      if p.round <= round + MAX_LOOKAHEAD_ROUNDS {
        if p.round in proposals {
          outs := ReportDoublePropose(proposals[p.round], p);
        } else {
          proposals := proposals[p.round := p];
        }
      }
    }

    /** A proposal of an earlier round counts only as the body of the certified block. */
    method PastProposal(p: Proposal, now: nat, verifier: Verifier) returns (outs: seq<Output>)
      requires Valid() && roundActive && p.round < round
      modifies this, signer
      ensures Valid() && buffered == old(buffered) && Nest(old(View()), View(), n, me, outs)
      ensures !old(Wanted(p) && CheckProposal(p, now, verifier)) ==>
        outs == [Dropped] && View() == old(View()) && proposals == old(proposals) && verified == old(verified)
      ensures old(Wanted(p) && CheckProposal(p, now, verifier) && p.round !in proposals && NothingDue()) ==>
        Commits(outs, old(pendingQc))
      ensures old(Settled()) ==> Settled()
      decreases Rank(View(), n, me), 3
    {
      ghost var a := View();
      outs := [Dropped];
      Stay(a, n, me, outs);
      if Wanted(p) && CheckProposal(p, now, verifier) {
        verified := verified + {p.BlockHash()};
        if p.round !in proposals {
          proposals := proposals[p.round := p];
        }
        assert p.round in proposals;
        assert old(NothingDue()) ==> NothingDue() by {
          assert forall hash :: DuePrecommit(hash) ==> old(DuePrecommit(hash));
        }
        outs := TryAdvance(now, verifier);
      }
    }

    /** What a prevote on the proposal has to be for. */
    function PrevoteFor(p: Proposal, good: bool): Hash
      reads this
    {
      var hash := p.BlockHash();
      if !good then NilHash
      else if locked.None? || locked.value.1 == hash then hash
      else if p.validRound.Some? && locked.value.0 < p.validRound.value < round && HasQuorumPrevotes(p.validRound.value, hash) then hash
      else NilHash
    }

    /** In numbers: a proposal that checks out gets the vote when nothing is locked, or this very block, or when more
        than two thirds of the set prevoted it in a round after the lock and before this one. */
    lemma PrevoteIff(p: Proposal, good: bool)
      ensures PrevoteFor(p, good) == p.BlockHash() <==>
                && good
                && (|| locked.None? || locked.value.1 == p.BlockHash()
                    || (p.validRound.Some? && locked.value.0 < p.validRound.value < round
                        && p.validRound.value in prevotes
                        && |Backers(prevotes[p.validRound.value], p.BlockHash())| > 2 * n / 3))
      ensures PrevoteFor(p, good) == p.BlockHash() || PrevoteFor(p, good) == NilHash
    {
    }

    /** The prevote of `on_proposal`: for the block when the lock allows it, else nil. */
    method PrevoteOn(p: Proposal, good: bool, now: nat, verifier: Verifier) returns (outs: seq<Output>)
      requires Valid() && roundActive
      modifies this, signer
      ensures Valid() && buffered == old(buffered) && Nest(old(View()), View(), n, me, outs)
      ensures old(step) != ProposeStep ==> outs == []
      ensures LeadsWith(outs, me, old(height), old(round), Prevote, old(PrevoteFor(p, good)))
      ensures old(step) == ProposeStep && old(CanVote(Prevote)) ==> outs != []
      decreases Rank(View(), n, me), 3
    {
      ghost var a := View();
      outs := [];
      if step != ProposeStep {
        Stay(a, n, me, outs);
        return;
      }
      var hash := p.BlockHash();
      var voteFor := NilHash;
      if good {
        if locked.None? || locked.value.1 == hash {
          voteFor := hash;
        } else if p.validRound.Some? && locked.value.0 < p.validRound.value < round && HasQuorumPrevotes(p.validRound.value, hash) {
          voteFor := hash;
        }
      }
      PrevoteStepMove(a, n, me, voteFor, p.validRound);
      step := PrevoteStep;
      ghost var b := View();
      outs := CastVote(Prevote, voteFor, now, verifier);
      NestAfter(a, b, View(), n, me, outs);
    }

    /** Two blocks of one proposer and round are evidence, the first time. */
    function Report(a: Proposal, b: Proposal): seq<Output>
      reads this
    {
      if a.BlockHash() != b.BlockHash() && a.header.round == b.header.round && a.header.proposerIdx == b.header.proposerIdx
         && (a.header.proposerIdx, a.header.round, 0xFF) !in evidenceSeen
      then [DoublePropose(a.header, b.header), Dropped] else [Dropped]
    }

    lemma ReportIff(a: Proposal, b: Proposal)
      ensures DoublePropose(a.header, b.header) in Report(a, b) <==>
                && a.header.digest != b.header.digest
                && a.header.round == b.header.round && a.header.proposerIdx == b.header.proposerIdx
                && (a.header.proposerIdx, a.header.round, 255) !in evidenceSeen
      ensures Report(a, b)[|Report(a, b)| - 1] == Dropped && |Report(a, b)| <= 2
    {
    }

    method ReportDoublePropose(a: Proposal, b: Proposal) returns (outs: seq<Output>)
      modifies this`evidenceSeen
      ensures IsQuiet(outs) && outs == old(Report(a, b))
      ensures |outs| == 2 ==> Report(a, b) == [Dropped]
    {
      outs := Report(a, b);
      if |outs| == 2 {
        evidenceSeen := evidenceSeen + {(a.header.proposerIdx, a.header.round, 0xFF)};
      }
    }

    // ----- thresholds -----

    method TryAdvance(now: nat, verifier: Verifier) returns (outs: seq<Output>)
      requires Valid()
      modifies this, signer
      ensures Valid() && buffered == old(buffered) && Nest(old(View()), View(), n, me, outs)
      ensures forall hash :: old(roundActive && DuePrecommit(hash) && CanVote(Precommit)) ==>
        outs != [] && LeadsWith(outs, me, old(height), old(round), Precommit, hash)
      ensures old(roundActive && pendingQc.Some? && Arrived(pendingQc.value.blockHash) && NothingDue()) ==>
        Commits(outs, old(pendingQc))
      ensures old(Settled() && pendingQc.None?) && old(qcGraceMs) == 0 ==> outs == []
      ensures Settled()
      decreases Rank(View(), n, me), 1, 0
    {
      ghost var a := View();
      outs := [];
      if !roundActive {
        Stay(a, n, me, outs);
        IdleAnswered(a, proposals, qcGraceMs, n);
        return;
      }
      var r := round;
      ghost var calm := Settled() && pendingQc.None? && qcGraceMs == 0;
      if calm {
        CalmIs(a, proposals, qcGraceMs, n);
        assert NothingDue() by {
          assert forall hash :: DuePrecommit(hash) ==> HasPolka(a, n, a.round, hash);
        }
      }
      ghost var ready := pendingQc.Some? && Arrived(pendingQc.value.blockHash) && NothingDue();
      ghost var k :| ready ==> k in proposals && proposals[k].BlockHash() == pendingQc.value.blockHash;
      var o1 := AdvancePrevotes(now, verifier);
      ghost var b := View();
      NestGives(a, b, n, me, o1);
      assert ready ==> k in proposals && HasBody(pendingQc.value.blockHash);
      assert calm ==> o1 == [] && NoneCertified(b, n) && Closed(b, qcGraceMs, n);
      var o2 := AdvancePrecommits(r, now, verifier);
      NestTrans(a, b, View(), n, me, o1, o2);
      outs := o1 + o2;
      assert ready ==> outs == o2;
    }

    /** The precommit thresholds: of any round for a block, of the current one for nil. */
    method AdvancePrecommits(r: nat, now: nat, verifier: Verifier) returns (outs: seq<Output>)
      requires Valid() && Polled() && (roundActive && step == PrecommitStep ==> r == round)
      modifies this, signer
      ensures Valid() && buffered == old(buffered) && Nest(old(View()), View(), n, me, outs)
      ensures old(pendingQc.Some? && HasBody(pendingQc.value.blockHash) && pendingQc.value.blockHash in verified) ==>
        Commits(outs, old(pendingQc))
      ensures old(pendingQc.None? && NoneCertified(View(), n) && Closed(View(), qcGraceMs, n)) ==> outs == []
      ensures Settled()
      decreases Rank(View(), n, me), 0, 1
    {
      ghost var a := View();
      CloseQc(now);
      ghost var b := View();
      PolledStill(a, b, proposals, n);
      NestGives(a, b, n, me, []);
      var done;
      outs, done := CommitPending(now, verifier);
      NestAfter(a, b, View(), n, me, outs);
      if done || pendingQc.Some? || step != PrecommitStep {
        if roundActive {
          AnsweredSame(b, View(), old(proposals), proposals, qcGraceMs, n);
          AnsweredFrom(View(), proposals, qcGraceMs, n);
        } else {
          IdleAnswered(View(), proposals, qcGraceMs, n);
        }
        return;
      }
      if !roundActive { Untouched(b, n, me); }
      var o2 := NilQuorumSkip(r, now, verifier);
      NestAfter(a, b, View(), n, me, o2);
      outs := o2;
    }

    /** Q precommits for nil in the current round start the next one. */
    method NilQuorumSkip(r: nat, now: nat, verifier: Verifier) returns (outs: seq<Output>)
      requires Valid() && roundActive && r == round && step == PrecommitStep
      requires Polled() && (pendingQc.None? && qcGraceMs == 0 ==> NoneCertified(View(), n))
      modifies this, signer
      ensures Valid() && buffered == old(buffered) && Nest(old(View()), View(), n, me, outs)
      ensures old(|Backers(SlotOf(precommits, r), NilHash)|) >= Quorum(n) ==>
        |outs| > 0 && outs[0] == ViewChange(old(height), old(round), r + 1, NilQuorum)
      ensures old(|Backers(SlotOf(precommits, r), NilHash)|) < Quorum(n) ==> outs == []
      ensures Settled()
      decreases Rank(View(), n, me), 0, 0
    {
      ghost var c := View();
      outs := [];
      Stay(c, n, me, outs);
      SlotsBounded(c, n, me, r);
      var qv := QuorumValue(SlotOf(precommits, r), n);
      if qv.Some? && |Backers(SlotOf(precommits, r), NilHash)| >= Quorum(n) {
        OneQuorum(SlotOf(precommits, r), n, NilHash, qv.value.0);
      }
      if |Backers(SlotOf(precommits, r), NilHash)| < Quorum(n) {
        AnsweredFrom(c, proposals, qcGraceMs, n);
      }
      if qv.Some? && qv.value.0 == NilHash {
        NilQuorumMove(c, n, me);
        ghost var tail;
        outs, tail := StartRound(r + 1, now, Some(NilQuorum), verifier);
        SkipMove(c, View(), r + 1, NilQuorum, n, me, tail);
      }
    }

    /** The prevote step is over: Q prevotes for nil, or for a block whose proposal is here. */
    predicate DuePrecommit(hash: Hash)
      reads this
    {
      && step == PrevoteStep && |Backers(SlotOf(prevotes, round), hash)| >= Quorum(n)
      && (hash == NilHash || (round in proposals && proposals[round].BlockHash() == hash))
    }

    ghost predicate NothingDue()
      reads this
    {
      forall hash :: !DuePrecommit(hash)
    }

    /** The prevote thresholds of the current round. */
    method AdvancePrevotes(now: nat, verifier: Verifier) returns (outs: seq<Output>)
      requires Valid() && roundActive
      modifies this, signer
      ensures Valid() && buffered == old(buffered) && Nest(old(View()), View(), n, me, outs)
      ensures forall hash :: old(DuePrecommit(hash)) ==>
        LeadsWith(outs, me, old(height), old(round), Precommit, hash) && (old(CanVote(Precommit)) ==> outs != [])
        && (hash != NilHash && height == old(height) ==> LockLe(Some((old(round), hash)), locked))
      ensures Polled()
      ensures old(NothingDue()) ==>
        && outs == [] && pendingQc == old(pendingQc) && proposals == old(proposals) && verified == old(verified)
        && View() == old(View()).(valid := valid, validProposal := validProposal) && qcGraceMs == old(qcGraceMs)
      decreases Rank(View(), n, me), 0, 1
    {
      ghost var a := View();
      outs := [];
      Stay(a, n, me, outs);
      SlotsBounded(a, n, me, round);
      var qv := QuorumValue(SlotOf(prevotes, round), n);
      if qv.None? || step == ProposeStep {
        PolledNone(a, proposals, n);
        return;
      }
      var hash := qv.value.0;
      forall h | old(DuePrecommit(h)) ensures h == hash {
        OneQuorum(SlotOf(prevotes, round), n, h, hash);
      }
      if hash == NilHash {
        if step == PrevoteStep {
          assert DuePrecommit(hash);
          outs := PrecommitNil(now, verifier);
        } else {
          PolledOne(a, proposals, n, me, hash);
        }
      } else if round in proposals && proposals[round].BlockHash() == hash {
        assert step == PrevoteStep ==> DuePrecommit(hash);
        ValidMove(a, n, me, proposals[round]);
        valid, validProposal := Some((round, hash)), Some(proposals[round]);
        if step == PrevoteStep {
          ghost var b := View();
          outs := LockAndPrecommit(hash, now, verifier);
          NestAfter(a, b, View(), n, me, outs);
        } else {
          PolledOne(View(), proposals, n, me, hash);
        }
      } else {
        PolledOne(a, proposals, n, me, hash);
      }
    }

    method PrecommitNil(now: nat, verifier: Verifier) returns (outs: seq<Output>)
      requires Valid() && roundActive && step == PrevoteStep && |Backers(SlotOf(prevotes, round), NilHash)| >= Quorum(n)
      modifies this, signer
      ensures Valid() && buffered == old(buffered) && Nest(old(View()), View(), n, me, outs)
      ensures LeadsWith(outs, me, old(height), old(round), Precommit, NilHash)
      ensures old(CanVote(Precommit)) ==> outs != []
      ensures Polled()
      decreases Rank(View(), n, me), 0, 0
    {
      ghost var a := View();
      NilPrecommitMove(a, n, me);
      QuorumIsHot(a, n, me, prevotes, NilHash);
      step, prevoteDeadline := PrecommitStep, None;
      ghost var b := View();
      PolledOne(b, proposals, n, me, NilHash);
      outs := CastVote(Precommit, NilHash, now, verifier);
      NestAfter(a, b, View(), n, me, outs);
    }

    /** Locks the polka's block and precommits it.  While the height lasts, nested
        calls can only replace the lock by that of a later round. */
    method LockAndPrecommit(hash: Hash, now: nat, verifier: Verifier) returns (outs: seq<Output>)
      requires Valid() && roundActive && step == PrevoteStep && hash != NilHash
      requires valid == Some((round, hash)) && HasPolka(View(), n, round, hash)
      modifies this, signer
      ensures Valid() && buffered == old(buffered) && Nest(old(View()), View(), n, me, outs)
      ensures LeadsWith(outs, me, old(height), old(round), Precommit, hash)
      ensures old(CanVote(Precommit)) ==> outs != []
      ensures Polled()
      ensures height == old(height) ==> LockLe(Some((old(round), hash)), locked)
      decreases Rank(View(), n, me), 0, 0
    {
      ghost var b := View();
      LockMove(b, n, me, hash);
      locked, step, prevoteDeadline := Some((round, hash)), PrecommitStep, None;
      ghost var c := View();
      PolledOne(c, proposals, n, me, hash);
      outs := CastVote(Precommit, hash, now, verifier);
      if height == old(height) { LockKept(c, View(), n, me, outs); }
      NestAfter(b, c, View(), n, me, outs);
    }

    /** Some round has Q precommits for a block. */
    ghost predicate Certifiable()
      reads this
    {
      exists r, h :: CertifiableAt(precommits, r, h, n)
    }

    /** The certificate is for the first such round and its block, signed by all
        who precommitted it there. */
    ghost predicate FirstCertified(qc: Qc)
      reads this
    {
      && CertifiableAt(precommits, qc.round, qc.blockHash, n)
      && qc.height == height && qc.sigs.Keys == Backers(SlotOf(precommits, qc.round), qc.blockHash)
      && forall r: nat, h :: r < qc.round ==> !CertifiableAt(precommits, r, h, n)
    }

    /** Turns Q precommits for a block into a certificate, after the grace window
        if one is configured: the window can delay a certificate, never add one. */
    method CloseQc(now: nat)
      requires Valid()
      modifies this`pendingQc, this`qcGraceWait, this`lastQcClose
      ensures Valid() && Nest(old(View()), View(), n, me, [])
      ensures old(pendingQc).Some? ==> pendingQc == old(pendingQc)
      ensures old(pendingQc).None? && pendingQc.Some? ==> FirstCertified(pendingQc.value)
      ensures old(pendingQc).None? && qcGraceMs == 0 ==> (pendingQc.Some? <==> Certifiable())
      ensures pendingQc.None? && qcGraceMs == 0 ==> NoneCertified(View(), n)
    {
      ghost var a := View();
      Stay(a, n, me, []);
      if pendingQc.Some? {
        return;
      }
      var rounds := Sorted(precommits.Keys);
      var i := 0;
      while i < |rounds|
        invariant 0 <= i <= |rounds| && pendingQc.None? && View() == a
        invariant forall j, h :: 0 <= j < i ==> !CertifiableAt(precommits, rounds[j], h, n)
      {
        var stop := CloseRound(rounds[i], now);
        if stop {
          NoneBefore(precommits, rounds, i, n);
          return;
        }
        i := i + 1;
      }
      NoneCertifiable(precommits, rounds, n);
    }

    /** One round of the search; `stop` says that it holds Q precommits for a block. */
    method CloseRound(r: nat, now: nat) returns (stop: bool)
      requires Valid() && pendingQc.None? && r in precommits
      modifies this`pendingQc, this`qcGraceWait, this`lastQcClose
      ensures Valid() && Nest(old(View()), View(), n, me, [])
      ensures stop <==> exists h :: CertifiableAt(precommits, r, h, n)
      ensures pendingQc.Some? ==>
        var qc := pendingQc.value;
        && stop && qc.round == r && CertifiableAt(precommits, r, qc.blockHash, n)
        && qc.height == height && qc.sigs.Keys == Backers(SlotOf(precommits, r), qc.blockHash)
      ensures qcGraceMs == 0 && stop ==> pendingQc.Some?
      ensures pendingQc.None? ==> View() == old(View())
    {
      ghost var a := View();
      Stay(a, n, me, []);
      SlotsBounded(a, n, me, r);
      var qv := QuorumValue(SlotOf(precommits, r), n);
      stop := qv.Some? && qv.value.0 != NilHash;
      if !stop {
        forall h ensures !CertifiableAt(precommits, r, h, n) {
          if qv.Some? && CertifiableAt(precommits, r, h, n) { OneQuorum(SlotOf(precommits, r), n, h, NilHash); }
        }
        return;
      }
      var (hash, votes) := qv.value;
      assert CertifiableAt(precommits, r, hash, n);
      var close, wait := GraceVerdict(r, hash, |votes|, now);
      if !wait {
        SetCertificate(r, hash, votes, close);
      }
    }

    method SetCertificate(r: nat, hash: Hash, votes: seq<Vote>, close: QcClose)
      requires Valid() && hash != NilHash && r in precommits
      requires votes == VotesFor(precommits[r], n, hash) && |Backers(precommits[r], hash)| >= Quorum(n)
      modifies this`pendingQc, this`qcGraceWait, this`lastQcClose
      ensures Valid() && Nest(old(View()), View(), n, me, [])
      ensures pendingQc.Some?
      ensures var qc := pendingQc.value;
              && qc.round == r && qc.blockHash == hash && qc.height == height && qc.sigs.Keys == Backers(precommits[r], hash)
    {
      ghost var a := View();
      var qc := CertifySlot(r, hash, votes);
      if !roundActive { Untouched(a, n, me); }
      PendingMove(a, n, me, qc);
      pendingQc, qcGraceWait, lastQcClose := Some(qc), None, close;
    }

    /** Until when precommits for this block of this round are already awaited. */
    static function Awaited(w: Option<(nat, Hash, nat)>, r: nat, hash: Hash): Option<nat> {
      if w.Some? && w.value.0 == r && w.value.1 == hash then Some(w.value.2) else None
    }

    /** A window that is open lasts until its time; a new one is opened only if it ends before the round does. */
    predicate MayWait(w: Option<(nat, Hash, nat)>, r: nat, hash: Hash, now: nat)
      reads this`qcGraceMs, this`precommitDeadline
    {
      var at := Awaited(w, r, hash);
      if at.Some? then now < at.value
      else precommitDeadline.None? || SatAdd(SatAdd(now, qcGraceMs, U64_MAX), 1, U64_MAX) < precommitDeadline.value
    }

    /** Whether to wait for more precommits, and why the certificate closes if not. */
    method GraceVerdict(r: nat, hash: Hash, count: nat, now: nat) returns (close: QcClose, wait: bool)
      modifies this`qcGraceWait
      ensures wait <==> (qcGraceMs > 0 && count < n && MayWait(old(qcGraceWait), r, hash, now))
      ensures qcGraceWait == if wait && Awaited(old(qcGraceWait), r, hash).None?
                             then Some((r, hash, SatAdd(now, qcGraceMs, U64_MAX))) else old(qcGraceWait)
      ensures !wait && count >= n ==> close == if old(qcGraceWait).Some? then Full else Immediate
      ensures !wait && count < n && qcGraceMs == 0 ==> close == Immediate
      ensures !wait && count < n && qcGraceMs > 0 ==>
        close == if Awaited(old(qcGraceWait), r, hash).Some? then GraceExpired else Clamped
    {
      close, wait := Immediate, false;
      if count >= n {
        close := if qcGraceWait.Some? then Full else Immediate;
      } else if qcGraceMs == 0 {
      } else if qcGraceWait.Some? && qcGraceWait.value.0 == r && qcGraceWait.value.1 == hash {
        wait := now < qcGraceWait.value.2;
        close := GraceExpired;
      } else {
        var at := GraceDeadline(now);
        if at.Some? {
          qcGraceWait, wait := Some((r, hash, at.value)), true;
        } else {
          close := Clamped;
        }
      }
    }

    /** The recorded precommits of a quorum always make a valid certificate. */
    method CertifySlot(r: nat, hash: Hash, votes: seq<Vote>) returns (qc: Qc)
      requires Valid() && hash != NilHash && r in precommits
      requires votes == VotesFor(precommits[r], n, hash) && |Backers(precommits[r], hash)| >= Quorum(n)
      ensures QcOk(View(), n, qc) && qc.height == height && qc.round == r && qc.blockHash == hash
      ensures qc.sigs.Keys == Backers(precommits[r], hash)
    {
      SlotVotes(View(), n, me, r);
      CountedSigners(precommits[r], votes, life.seen, n, height, r, hash);
      var built := BuildQc(votes, n, height, r, hash);
      qc := built.value;
    }

    /** A proposal for the block is here and was checked. */
    predicate Arrived(hash: Hash)
      reads this
    {
      hash in verified && exists r :: r in proposals && proposals[r].BlockHash() == hash
    }

    /** The block itself has arrived, as a proposal or as the valid value. */
    predicate HasBody(hash: Hash)
      reads this`proposals, this`validProposal
    {
      || (exists r :: r in proposals && proposals[r].BlockHash() == hash)
      || (validProposal.Some? && validProposal.value.BlockHash() == hash)
    }

    /** A copy of the certified block that may be handed out: checked now, unless its hash is known to be good. */
    predicate MayHandOut(p: Proposal, now: nat, verifier: Verifier)
      reads this
      requires n > 0
    {
      && Wanted(p) && p in Copies(proposals, validProposal, p.BlockHash())
      && (p.BlockHash() in verified || CheckProposal(p, now, verifier))
    }

    /** The engine remembers which hashes are good and not which bodies: every copy it may hand out passes the
        check exactly when the hash is not yet known to be good or all copies pass. */
    lemma HandsOutChecked(now: nat, verifier: Verifier)
      requires n > 0 && pendingQc.Some?
      ensures var hash := pendingQc.value.blockHash;
              (forall p :: MayHandOut(p, now, verifier) ==> CheckProposal(p, now, verifier)) <==>
                hash !in verified || forall p :: p in Copies(proposals, validProposal, hash) ==> CheckProposal(p, now, verifier)
    {
    }

    /** The envelope does not cover the body: a second copy of the certified block, put aside for the next round
        with another body and never checked, may be handed out. */
    lemma OtherBodyHandedOut(p: Proposal, q: Proposal, now: nat, verifier: Verifier)
      requires n > 0 && Wanted(p) && p.BlockHash() in verified
      requires var next := p.round + 1;
               q == p.(round := next, body := q.body,
                       sig := Signed(ProposerFor(height, next), EnvelopeDigest(p.Height(), next, p.BlockHash())))
      requires proposals == map[p.round := p, q.round := q] && !verifier.bodyOk(p.header, q.body)
      ensures Genuine(q) && MayHandOut(q, now, verifier) && !CheckProposal(q, now, verifier)
    {
      assert q in Copies(proposals, validProposal, p.BlockHash()) by {
        assert proposals[q.round] == q && q.BlockHash() == p.BlockHash();
      }
    }

    /** Commits the certified block when its body is here and checks out. */
    method CommitPending(now: nat, verifier: Verifier) returns (outs: seq<Output>, done: bool)
      requires Valid()
      modifies this
      ensures Valid() && buffered == old(buffered) && Nest(old(View()), View(), n, me, outs)
      ensures outs == [] || outs == [Dropped] || Commits(outs, old(pendingQc))
      ensures old(pendingQc).None? ==> !done
      ensures !done ==> outs == [] && View() == old(View()) && proposals == old(proposals) && qcGraceMs == old(qcGraceMs)
      ensures done && roundActive ==>
        && pendingQc.Some? && View() == old(View())
        && forall r :: r in proposals ==> r in old(proposals) && proposals[r] == old(proposals)[r]
      ensures old(pendingQc).Some? && old(HasBody(pendingQc.value.blockHash)) && old(pendingQc).value.blockHash in old(verified)
        ==> done && Commits(outs, old(pendingQc))
      ensures Commits(outs, old(pendingQc)) ==> old(MayHandOut(outs[0].proposal, now, verifier))
    {
      ghost var a := View();
      outs, done := [], false;
      Stay(a, n, me, outs);
      if pendingQc.None? {
        return;
      }
      var qc := pendingQc.value;
      var body: Option<Proposal> := None;
      if r :| r in proposals && proposals[r].BlockHash() == qc.blockHash {
        body := Some(proposals[r]);
      } else if validProposal.Some? && validProposal.value.BlockHash() == qc.blockHash {
        body := validProposal;
      }
      if body.None? {
        return;
      }
      var good := CheckBody(body.value, now, verifier);
      if !good {
        outs, done := [Dropped], true;
        Stay(a, n, me, outs);
        return;
      }
      outs := CommitBlock(body.value, qc, now);
      done := true;
    }

    /** A hash not yet known to be good is checked now; all copies of a bad one are thrown away. */
    method CheckBody(p: Proposal, now: nat, verifier: Verifier) returns (good: bool)
      requires n > 0
      modifies this`verified, this`proposals
      ensures good == old(p.BlockHash() in verified || CheckProposal(p, now, verifier))
      ensures verified == if good then old(verified) + {p.BlockHash()} else old(verified)
      ensures proposals ==
        if good then old(proposals)
        else map r | r in old(proposals) && old(proposals)[r].BlockHash() != p.BlockHash() :: old(proposals)[r]
    {
      good := true;
      if p.BlockHash() !in verified {
        if !CheckProposal(p, now, verifier) {
          proposals := map r | r in proposals && proposals[r].BlockHash() != p.BlockHash() :: proposals[r];
          return false;
        }
        verified := verified + {p.BlockHash()};
      }
    }

    method CommitBlock(p: Proposal, qc: Qc, now: nat) returns (outs: seq<Output>)
      requires Valid() && pendingQc == Some(qc) && p.BlockHash() == qc.blockHash
      modifies this
      ensures Valid() && buffered == old(buffered)
      ensures outs == [Commit(p, qc, old(round) + 1, old(lastQcClose))]
      ensures tip == ChainTip(old(height), p.BlockHash(), Some(qc), p.header.timestampMs) && !roundActive
      ensures Nest(old(View()), View(), n, me, outs)
    {
      CommitMove(View(), n, me, p, round + 1, lastQcClose);
      outs := [Commit(p, qc, round + 1, lastQcClose)];
      TurnPage(p, qc, now);
    }

    /** The next height starts blank on the new tip. */
    method TurnPage(p: Proposal, qc: Qc, now: nat)
      modifies this
      ensures View() == NextHeight(old(View()), qc) && buffered == old(buffered)
      ensures proposals == map[] && verified == {} && evidenceSeen == {} && tipN == n && tipCommittedAtMs == now
      ensures proposeReadyAt.None? && proposeDeadline.None? && qcGraceWait.None?
      ensures prevoteDeadline.None? && precommitDeadline.None?
      ensures tip == ChainTip(old(height), p.BlockHash(), Some(qc), p.header.timestampMs)
    {
      NextTip(p, qc, now);
      ForgetHeight();
      ClearTimers();
    }

    method NextTip(p: Proposal, qc: Qc, now: nat)
      modifies this`tip, this`tipN, this`tipCommittedAtMs, this`life, this`height, this`round, this`step, this`roundActive
      ensures tip == ChainTip(old(height), p.BlockHash(), Some(qc), p.header.timestampMs)
      ensures life == old(life).(decided := old(life).decided + {qc})
      ensures height == old(height) + 1 && round == 0 && step == ProposeStep && !roundActive
      ensures tipN == n && tipCommittedAtMs == now
    {
      tip, tipN, tipCommittedAtMs := ChainTip(height, p.BlockHash(), Some(qc), p.header.timestampMs), n, now;
      life := life.(decided := life.decided + {qc});
      height, round, step, roundActive := height + 1, 0, ProposeStep, false;
    }

    method ForgetHeight()
      modifies this`locked, this`valid, this`validProposal, this`proposals, this`verified,
               this`prevotes, this`precommits, this`pendingQc, this`evidenceSeen
      ensures locked.None? && valid.None? && validProposal.None? && pendingQc.None?
      ensures proposals == map[] && prevotes == map[] && precommits == map[] && verified == {} && evidenceSeen == {}
    {
      locked, valid, validProposal := None, None, None;
      proposals, verified, prevotes, precommits, pendingQc := map[], {}, map[], map[], None;
      evidenceSeen := {};
    }

    method ClearTimers()
      modifies this`qcGraceWait, this`proposeReadyAt, this`proposeDeadline, this`prevoteDeadline, this`precommitDeadline
      ensures qcGraceWait.None? && proposeReadyAt.None?
      ensures proposeDeadline.None? && prevoteDeadline.None? && precommitDeadline.None?
    {
      qcGraceWait, proposeReadyAt, proposeDeadline, prevoteDeadline, precommitDeadline := None, None, None, None, None;
    }

    // ----- entry points -----

    /** The timers of the step have had their effect; when none is due and nothing is left to answer, there is none. */
    twostate predicate TimersServed(now: nat, outs: seq<Output>)
      reads this
      requires n > 0
    {
      var h, r := old(height), old(round);
      && (old(step) == ProposeStep && Passed(old(proposeDeadline), now) && old(CanVote(Prevote)) ==>
            Ballot(me.value, h, r, Prevote, NilHash) in outs)
      && (old(step) == PrevoteStep && Passed(old(prevoteDeadline), now) && old(CanVote(Precommit)) ==>
            Ballot(me.value, h, r, Precommit, NilHash) in outs)
      && (old(step) == PrecommitStep && Passed(old(precommitDeadline), now)
          && old(pendingQc).None? && old(qcGraceWait).None? ==>
            ViewChange(h, r, r + 1, Timeout) in outs)
      && (old(Settled()) && old(pendingQc).None? && old(qcGraceMs) == 0 && !old(AnyDue(now)) ==> outs == [])
    }

    predicate AnyDue(now: nat)
      reads this`proposeDeadline, this`prevoteDeadline, this`precommitDeadline
    {
      Passed(proposeDeadline, now) || Passed(prevoteDeadline, now) || Passed(precommitDeadline, now)
    }

    /** `tick`: a proposer that waited is reminded, then come the timers; before `start` nothing happens. */
    method Tick(now: nat, verifier: Verifier) returns (outs: seq<Output>)
      requires Valid()
      modifies this, signer
      ensures Valid() && Did(n, old(View()), View(), outs, {}) && ViewChanges(outs) <= 2
      ensures !old(roundActive) ==> outs == [] && View() == old(View())
      ensures old(roundActive) ==>
        var first := old(Reminder(now));
        Settled() && first <= outs && TimersServed(now, outs[|first|..])
    {
      ghost var a := View();
      outs := [];
      Stay(a, n, me, outs);
      if !roundActive {
        return;
      }
      outs := RemindProposer(now);
      Stay(a, n, me, outs);
      QuietTrace(outs, round);
      var rest := ServeTimers(now, verifier);
      DidThen(n, a, a, View(), outs, rest);
      TraceConcat(outs, rest, a.round);
      assert (outs + rest)[|outs|..] == rest;
      outs := outs + rest;
    }

    /** The request for a block that was put off until the block interval is over. */
    function Reminder(now: nat): seq<Output>
      reads this
      requires n > 0
    {
      if Passed(proposeReadyAt, now) && IsProposer() && step == ProposeStep && round !in proposals
      then [NeedProposal(height, round)] else []
    }

    method ServeTimers(now: nat, verifier: Verifier) returns (outs: seq<Output>)
      requires Valid() && roundActive
      modifies this, signer
      ensures Valid() && Did(n, old(View()), View(), outs, {}) && ViewChanges(outs) <= 2
      ensures Settled() && TimersServed(now, outs)
    {
      ghost var a := View();
      outs := ProposeTimeout(now, verifier);
      ghost var b := View();
      NestGives(a, b, n, me, outs);
      var o2 := PrevoteTimeout(now, verifier);
      ghost var c := View();
      DidThen(n, a, b, c, outs, o2);
      TraceConcat(outs, o2, a.round);
      outs := outs + o2;
      var o3 := PrecommitTimeout(now, verifier);
      DidThen(n, a, c, View(), outs, o3);
      TraceConcat(outs, o3, a.round);
      outs := outs + o3;
    }

    method RemindProposer(now: nat) returns (outs: seq<Output>)
      requires n > 0
      modifies this`proposeReadyAt
      ensures IsQuiet(outs)
      ensures outs == old(Reminder(now))
      ensures proposeReadyAt == if Passed(old(proposeReadyAt), now) then None else old(proposeReadyAt)
    {
      outs := [];
      if proposeReadyAt.Some? && now >= proposeReadyAt.value {
        proposeReadyAt := None;
        if IsProposer() && step == ProposeStep && round !in proposals {
          outs := [NeedProposal(height, round)];
        }
      }
    }

    twostate predicate SameLaterTimers()
      reads this
    {
      prevoteDeadline == old(prevoteDeadline) && precommitDeadline == old(precommitDeadline) && qcGraceWait == old(qcGraceWait)
    }

    /** A silent proposer earns a nil prevote. */
    method ProposeTimeout(now: nat, verifier: Verifier) returns (outs: seq<Output>)
      requires Valid() && roundActive
      modifies this, signer
      ensures Valid() && Nest(old(View()), View(), n, me, outs)
      ensures LeadsWith(outs, me, old(height), old(round), Prevote, NilHash)
      ensures old(step) == ProposeStep && Passed(old(proposeDeadline), now) && old(CanVote(Prevote)) ==> outs != []
      ensures old(step) != ProposeStep ==> outs == [] && View() == old(View()) && SameLaterTimers()
      ensures !Passed(old(proposeDeadline), now) ==>
        outs == [] && View() == old(View()) && proposals == old(proposals) && qcGraceMs == old(qcGraceMs) && SameLaterTimers()
        && proposeDeadline == old(proposeDeadline) && proposeReadyAt == old(proposeReadyAt)
      ensures Passed(old(proposeDeadline), now) && outs == [] ==> proposeDeadline.None? && proposeReadyAt.None?
    {
      ghost var a := View();
      outs := [];
      Stay(a, n, me, outs);
      if proposeDeadline.None? || now < proposeDeadline.value {
        return;
      }
      proposeDeadline, proposeReadyAt := None, None;
      if step == ProposeStep {
        PrevoteStepMove(a, n, me, NilHash, None);
        step := PrevoteStep;
        ghost var b := View();
        outs := CastVote(Prevote, NilHash, now, verifier);
        NestAfter(a, b, View(), n, me, outs);
      }
    }

    /** No polka in time earns a nil precommit. */
    method PrevoteTimeout(now: nat, verifier: Verifier) returns (outs: seq<Output>)
      requires Valid()
      modifies this, signer
      ensures Valid() && Did(n, old(View()), View(), outs, {})
      ensures ViewChanges(outs) + Hot(View(), n, me) <= Hot(old(View()), n, me)
      ensures LeadsWith(outs, me, old(height), old(round), Precommit, NilHash)
      ensures old(step) == PrevoteStep && Passed(old(prevoteDeadline), now) && old(CanVote(Precommit)) ==> outs != []
      ensures old(step) == PrecommitStep ==> outs == [] && View() == old(View()) && precommitDeadline == old(precommitDeadline)
                                             && qcGraceWait == old(qcGraceWait)
      ensures !Passed(old(prevoteDeadline), now) ==>
        outs == [] && View() == old(View()) && proposals == old(proposals) && qcGraceMs == old(qcGraceMs) && SameLaterTimers()
      ensures Passed(old(prevoteDeadline), now) && outs == [] ==> prevoteDeadline.None?
    {
      ghost var a := View();
      outs := [];
      Stay(a, n, me, outs);
      if prevoteDeadline.None? || now < prevoteDeadline.value {
        return;
      }
      prevoteDeadline := None;
      if step == PrevoteStep {
        if !roundActive { Untouched(a, n, me); }
        NilPrecommitMove(a, n, me);
        step := PrecommitStep;
        ghost var b := View();
        outs := CastVote(Precommit, NilHash, now, verifier);
        NestGives(b, View(), n, me, outs);
        DidThen(n, a, b, View(), [], outs);
        assert [] + outs == outs;
      }
    }

    /** A timer fires once. */
    method PrecommitDue(now: nat) returns (due: bool)
      modifies this`precommitDeadline
      ensures due == Passed(old(precommitDeadline), now)
      ensures precommitDeadline == if due then None else old(precommitDeadline)
    {
      due := precommitDeadline.Some? && now >= precommitDeadline.value;
      if due {
        precommitDeadline := None;
      }
    }

    /** No certificate in time starts the next round; otherwise the thresholds are
        checked once more. */
    method PrecommitTimeout(now: nat, verifier: Verifier) returns (outs: seq<Output>)
      requires Valid()
      modifies this, signer
      ensures Valid() && Did(n, old(View()), View(), outs, {})
      ensures ViewChanges(outs) <= 1
      ensures old(step) == PrecommitStep && Passed(old(precommitDeadline), now) && old(pendingQc).None? && old(qcGraceWait).None?
        ==> |outs| > 0 && outs[0] == ViewChange(old(height), old(round), old(round) + 1, Timeout)
      ensures !Passed(old(precommitDeadline), now) && old(Settled() && pendingQc.None?) && old(qcGraceMs) == 0 ==> outs == []
      ensures Settled()
    {
      ghost var a := View();
      var due := PrecommitDue(now);
      if due {
        if step == PrecommitStep && pendingQc.None? && qcGraceWait.None? {
          if !roundActive { Untouched(a, n, me); }
          NextRoundMove(a, n, me);
          ghost var tail;
          outs, tail := StartRound(round + 1, now, Some(Timeout), verifier);
          NestGives(a.(round := a.round + 1, step := ProposeStep), View(), n, me, tail);
          SkipMove(a, View(), a.round + 1, Timeout, n, me, tail);
          return;
        }
      }
      outs := TryAdvance(now, verifier);
      NestGives(a, View(), n, me, outs);
    }

    /** From the proposer of this round, while a proposal is still awaited and the chain may idle. */
    predicate ProposerAlive(hb: Heartbeat, now: nat)
      reads this
      requires n > 0
    {
      && hb.round == round && hb.idx == ProposerFor(height, round)
      && hb.sig == Signed(hb.idx, HeartbeatDigest(hb.height, hb.round, hb.timestampMs))
      && hb.timestampMs <= SatAdd(now, params.maxClockSkewMs, U64_MAX)
      && step == ProposeStep
      && now < SatAdd(tipCommittedAtMs, Min(params.idleBlockIntervalS * 1000, U64_MAX), U64_MAX)
    }

    twostate predicate HeartbeatTaken(hb: Heartbeat, now: nat)
      reads this
      requires n > 0
    {
      && proposeDeadline == (if old(ProposerAlive(hb, now)) then Some(SatAdd(now, TPropose(round), U64_MAX)) else old(proposeDeadline))
      && View() == old(View()) && proposals == old(proposals)
    }

    /** A heartbeat counts when it is signed by the awaited proposer and not from the future, as long as the chain may
        still idle. */
    lemma AliveIff(hb: Heartbeat, now: nat)
      requires n > 0 && ValidParams(params)
      requires now + 60_000 <= U64_MAX && tipCommittedAtMs + params.idleBlockIntervalS * 1000 <= U64_MAX
      ensures ProposerAlive(hb, now) <==>
                && step == ProposeStep && hb.round == round && hb.idx == (height + round) % n
                && hb.sig == Signed(hb.idx, HeartbeatDigest(hb.height, hb.round, hb.timestampMs))
                && hb.timestampMs <= now + params.maxClockSkewMs
                && now < tipCommittedAtMs + params.idleBlockIntervalS * 1000
    {
    }

    method OnHeartbeat(hb: Heartbeat, now: nat)
      requires n > 0
      modifies this`proposeDeadline
      ensures HeartbeatTaken(hb, now)
    {
      if ProposerAlive(hb, now) {
        proposeDeadline := Some(SatAdd(now, TPropose(round), U64_MAX));
      }
    }

    /** The votes a message delivers. */
    ghost function Delivers(msg: Message): set<Vote>
      reads this
    {
      if msg.VoteMsg? && GoodVote(msg.vote, n) then {msg.vote} else {}
    }

    /** Kept in order of arrival, for heights not too far ahead and up to the limit of each. */
    twostate predicate PutAside(msg: Message)
      reads this
    {
      var h: nat := msg.Height();
      var q: seq<Message> := if h in old(buffered) then old(buffered)[h] else [];
      && buffered == (if h <= old(height) + 2 && |q| < 4096
                      then old(buffered)[h := q + [msg]] else old(buffered))
      && View() == old(View()).(life := life) && life == old(life).(held := life.held)
    }

    /** `handle`: one message from the network. */
    method Handle(msg: Message, now: nat, verifier: Verifier) returns (outs: seq<Output>)
      requires Valid()
      modifies this, signer
      ensures Valid() && Did(n, old(View()), View(), outs, Delivers(msg)) && ViewChanges(outs) <= 2
      ensures msg.Height() < old(height) || (msg.ShadowVoteMsg? && msg.Height() == old(height) && old(roundActive)) ==>
        outs == [Dropped] && View() == old(View()) && buffered == old(buffered) && proposals == old(proposals)
      ensures msg.Height() > old(height) || (msg.Height() == old(height) && !old(roundActive)) ==>
        outs == [Dropped] && PutAside(msg) && proposals == old(proposals)
      ensures old(roundActive) && msg.Height() == old(height) ==>
        && (msg.VoteMsg? ==> VoteTaken(msg.vote, outs))
        && (msg.ProposalMsg? ==> ProposalTaken(msg.proposal, now, verifier, outs))
        && (msg.HeartbeatMsg? ==> outs == [Dropped] && HeartbeatTaken(msg.heartbeat, now))
      ensures old(Settled()) ==> Settled()
    {
      ghost var a := View();
      outs := [Dropped];
      Stay(a, n, me, outs);
      QuietTrace(outs, round);
      DidMore(n, a, a, outs, {}, Delivers(msg));
      if msg.Height() < height {
        return;
      }
      if msg.Height() > height || !roundActive {
        Buffer(msg);
        AnsweredSame(a, View(), proposals, proposals, qcGraceMs, n);
        return;
      }
      match msg
      case ProposalMsg(p) =>
        outs := OnProposal(p, now, verifier);
        NestGives(a, View(), n, me, outs);
      case VoteMsg(v) =>
        outs := OnVote(v, now, verifier);
      case HeartbeatMsg(hb) =>
        OnHeartbeat(hb, now);
      case ShadowVoteMsg(_) =>
    }

    /** Sets a message of a later height, or of a height not started yet, aside. */
    method Buffer(msg: Message)
      requires Valid()
      modifies this`buffered, this`life
      ensures Valid() && Did(n, old(View()), View(), [Dropped], Delivers(msg)) && PutAside(msg)
    {
      ghost var a := View();
      Stay(a, n, me, [Dropped]);
      DidMore(n, a, a, [Dropped], {}, Delivers(msg));
      var h: nat := msg.Height();
      var q: seq<Message> := if h in buffered then buffered[h] else [];
      if h <= height + MAX_LOOKAHEAD_HEIGHTS && |q| < MAX_BUFFERED_PER_HEIGHT {
        HoldMove(a, n, me, Delivers(msg));
        buffered := buffered[h := q + [msg]];
        life := life.(held := life.held + Delivers(msg));
      }
    }

    /** `start`: opens the height and replays what was put aside for it.  Unless that already led to a commit, every
        sound vote put aside has been counted. */
    method Start(now: nat, verifier: Verifier) returns (outs: seq<Output>)
      requires Valid()
      modifies this, signer
      ensures Valid() && Did(n, old(View()), View(), outs, {})
      ensures (height == old(height) ==> roundActive) && (old(Settled()) || !old(roundActive) ==> Settled())
      ensures !old(roundActive) && old(Asked(0, now)) ==> NeedProposal(old(height), 0) in outs
      ensures height == old(height) && height in old(buffered) ==>
        forall m :: m in old(buffered)[height] && Countable(m, height, old(round)) ==> m.vote in life.seen
    {
      ghost var a := View();
      OpenClock(now);
      outs := OpenHeight(now, verifier);
      ghost var b := View();
      HeightLasts(n, a, b, outs, {});
      var replay := TakeBuffered();
      var more := Replay(replay, now, verifier);
      DidThen(n, a, b, View(), outs, more);
      HeightLasts(n, b, View(), more, {});
      outs := outs + more;
    }

    /** A node without a commit yet counts its idle time from here. */
    method OpenClock(now: nat)
      modifies this`tipCommittedAtMs
      ensures tipCommittedAtMs == if old(tipCommittedAtMs) == 0 then now else old(tipCommittedAtMs)
    {
      if tipCommittedAtMs == 0 {
        tipCommittedAtMs := now;
      }
    }

    /** What was put aside for this height is taken out, and what was for earlier ones dropped. */
    method TakeBuffered() returns (replay: seq<Message>)
      requires Valid()
      modifies this`buffered
      ensures Valid() && replay == if height in old(buffered) then old(buffered)[height] else []
      ensures forall m :: m in replay && m.VoteMsg? && GoodVote(m.vote, n) ==> m.vote in life.held
      ensures buffered == map h: nat | h in old(buffered) && h > height :: old(buffered)[h]
    {
      replay := if height in buffered then buffered[height] else [];
      buffered := map h: nat | h in buffered && h > height :: buffered[h];
    }

    /** Messages put aside earlier, in their order. */
    method Replay(replay: seq<Message>, now: nat, verifier: Verifier) returns (outs: seq<Output>)
      requires Valid() && forall m :: m in replay && m.VoteMsg? && GoodVote(m.vote, n) ==> m.vote in life.held
      modifies this, signer
      ensures Valid() && Did(n, old(View()), View(), outs, {}) && (old(Settled()) ==> Settled())
      ensures height == old(height) && old(roundActive) ==>
        forall m :: m in replay && Countable(m, height, old(round)) ==> m.vote in life.seen
    {
      ghost var a := View();
      outs := [];
      Stay(a, n, me, outs);
      for i := 0 to |replay|
        invariant Valid() && Did(n, a, View(), outs, {}) && a.life.held <= life.held && (old(Settled()) ==> Settled())
        invariant a.height <= height && (height == a.height && a.active ==> roundActive && a.round <= round)
        invariant height == a.height && a.active ==>
          forall m :: m in replay[..i] && Countable(m, a.height, a.round) ==> m.vote in life.seen
      {
        ghost var b := View();
        var more := Handle(replay[i], now, verifier);
        HeightLasts(n, b, View(), more, Delivers(replay[i]));
        ReplayMove(n, a, b, View(), outs, more, Delivers(replay[i]));
        outs := outs + more;
        assert replay[..i + 1] == replay[..i] + [replay[i]];
      }
      assert replay[..|replay|] == replay;
    }

    /** A sound vote of height `h`, not too far ahead of round `r`. */
    ghost predicate Countable(m: Message, h: nat, r: nat)
      reads this
    {
      m.VoteMsg? && GoodVote(m.vote, n) && m.vote.height == h && m.vote.round <= r + 16
    }

    method OpenHeight(now: nat, verifier: Verifier) returns (outs: seq<Output>)
      requires Valid()
      modifies this, signer
      ensures Valid() && Did(n, old(View()), View(), outs, {})
      ensures buffered == old(buffered)
      ensures (height == old(height) ==> roundActive) && (old(Settled()) || !old(roundActive) ==> Settled())
      ensures !old(roundActive) && old(Asked(0, now)) ==> NeedProposal(old(height), 0) in outs
    {
      ghost var a := View();
      outs := [];
      Stay(a, n, me, outs);
      if !roundActive {
        StartMove(a, n, me);
        roundActive := true;
        ghost var b := View();
        ghost var tail;
        outs, tail := StartRound(0, now, None, verifier);
        NestGives(b, View(), n, me, tail);
        HeightLasts(n, b, View(), tail, {});
        DidThen(n, a, b, View(), [], tail);
        assert [] + tail == outs == tail;
      }
    }

    /** This node is to propose now and has not. */
    predicate Turn()
      reads this
      requires n > 0
    {
      me.Some? && roundActive && IsProposer() && step == ProposeStep && round !in proposals
    }

    /** A new block on the tip, before its state root and hash are known. */
    function Blank(now: nat, body: nat): Header
      reads this
      requires me.Some?
    {
      Header(height, round, me.value, tip.hash, tip.qc, Max(now, SatAdd(tip.timestampMs, 1, U64_MAX)), 0, body, 0)
    }

    /** The block that would be proposed for this body, if the host can execute it and finds it sound. */
    function NewHeader(now: nat, body: nat, verifier: Verifier, hashOf: Header -> nat): Option<Header>
      reads this
      requires me.Some?
    {
      var root := verifier.simulate(Blank(now, body), body);
      if root.None? then None
      else
        var header := Blank(now, body).(stateRoot := root.value);
        var hashed := header.(digest := hashOf(header));
        if verifier.structureOk(hashed) && verifier.bodyOk(hashed, body) then Some(hashed) else None
    }

    /** The signed proposal, if it is this node's turn and its guard lets it: the valid value under this round, or a
        new block, whose hash is good without a check. */
    method Draft(now: nat, body: nat, verifier: Verifier, hashOf: Header -> nat) returns (draft: Option<Proposal>)
      requires n > 0 && (valid.Some? ==> validProposal.Some?)
      modifies this`verified, signer
      ensures draft.Some? ==>
        var p := draft.value;
        && Turn() && p.round == round && p.sig == Signed(me.value, p.EnvelopeOf())
        && (if valid.Some? then p == validProposal.value.(round := round, validRound := Some(valid.value.0), sig := p.sig)
            else
              var header := NewHeader(now, body, verifier, hashOf);
              header.Some? && p == Proposal(header.value, Signed(me.value, HeaderDigest(HeaderHash(header.value.digest))),
                                            body, round, None, p.sig))
      ensures verified == old(verified) + if draft.Some? && valid.None? then {draft.value.BlockHash()} else {}
      ensures signer == null ==>
        (draft.Some? <==> Turn() && (valid.Some? || NewHeader(now, body, verifier, hashOf).Some?))
      ensures signer != null && draft.Some? ==>
        signer.granted == old(signer.granted) + [Watermark(height, round, 0, hashBytes(draft.value.BlockHash()))]
    {
      draft := None;
      if !Turn() {
        return;
      }
      var p: Proposal;
      if valid.Some? {
        p := validProposal.value.(round := round, validRound := Some(valid.value.0));
      } else {
        var root := verifier.simulate(Blank(now, body), body);
        if root.None? {
          return;
        }
        var header := Blank(now, body).(stateRoot := root.value);
        header := header.(digest := hashOf(header));
        if !verifier.structureOk(header) || !verifier.bodyOk(header, body) {
          return;
        }
        p := Proposal(header, Signed(me.value, HeaderDigest(HeaderHash(header.digest))), body, round, None, Forged);
      }
      var allowed := MaySign(0, p.BlockHash());
      if !allowed {
        return;
      }
      if valid.None? {
        verified := verified + {p.BlockHash()};
      }
      draft := Some(p.(sig := Signed(me.value, p.EnvelopeOf())));
    }

    /** The proposer handles its own proposal like any other. */
    method Offer(p: Proposal, now: nat, verifier: Verifier) returns (outs: seq<Output>)
      requires Valid() && roundActive && Current(p)
      modifies this, signer
      ensures Valid() && Nest(old(View()), View(), n, me, outs) && Settled()
      ensures old(CanVote(Prevote)) ==>
        Ballot(me.value, old(height), old(round), Prevote, old(PrevoteFor(p, CheckProposal(p, now, verifier)))) in outs
    {
      outs := OnProposal(p, now, verifier);
    }

    /** `propose`: the valid value again if there is one, else a new block. */
    method Propose(now: nat, body: nat, verifier: Verifier, hashOf: Header -> nat) returns (ok: bool, outs: seq<Output>)
      requires Valid()
      modifies this, signer
      ensures Valid() && Did(n, old(View()), View(), outs, {}) && ViewChanges(outs) <= 1
      ensures !ok ==> outs == []
      ensures ok ==> Settled()
      ensures ok ==> |outs| > 0 && outs[0].Broadcast? && outs[0].msg.ProposalMsg?
      ensures ok ==>
        var p := outs[0].msg.proposal;
        && old(roundActive) && me == Some(ProposerFor(old(height), old(round))) && old(step) == ProposeStep
        && old(round) !in old(proposals) && p.round == old(round) && p.sig == Signed(me.value, p.EnvelopeOf())
      ensures old(Turn()) && signer == null && old(valid).Some? ==> ok
      ensures ok && old(valid).None? ==>
        var p := outs[0].msg.proposal;
        && p.header.number == old(height) && p.header.round == old(round) && p.header.proposerIdx == me.value
        && p.header.parentHash == old(tip).hash && p.header.lastQc == old(tip).qc && p.body == body && p.validRound.None?
        && p.header.timestampMs >= now && verifier.structureOk(p.header) && verifier.bodyOk(p.header, body)
      ensures ok && old(valid).Some? ==>
        var p := outs[0].msg.proposal;
        && p.BlockHash() == old(valid).value.1 && p.round == old(round)
        && p.validRound == Some(old(valid).value.0) && old(HasPolka(View(), n, valid.value.0, valid.value.1))
      ensures ok && old(locked).Some? ==>
        outs[0].msg.proposal.validRound.Some? && outs[0].msg.proposal.validRound.value >= old(locked).value.0
    {
      ghost var a := View();
      ok, outs := false, [];
      Stay(a, n, me, outs);
      LockedHasValid(a, n, me);
      var draft := Draft(now, body, verifier, hashOf);
      if draft.None? {
        return;
      }
      var p := draft.value;
      var first := [Broadcast(ProposalMsg(p))];
      Stay(a, n, me, first);
      var more := Offer(p, now, verifier);
      NestTrans(a, a, View(), n, me, first, more);
      NestGives(a, View(), n, me, first + more);
      assert (first + more)[0] == first[0];
      ok, outs := true, first + more;
    }
  }
}
