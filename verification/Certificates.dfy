/** Counting the votes of one slot and building a quorum certificate from them. */
module Certificates {
  import opened Options
  import opened ConsensusTypes
  import opened QuorumMath
  import opened EngineSpec

  /** The votes of the slot for `hash` by validators below `k`, in index order. */
  function VotesFor(slot: Slot, k: nat, hash: Hash): seq<Vote> {
    if k == 0 then []
    else
      VotesFor(slot, k - 1, hash)
      + if k - 1 in slot && slot[k - 1].blockHash == hash then [slot[k - 1]] else []
  }

  ghost function BackersBelow(slot: Slot, k: nat, hash: Hash): set<nat> {
    set i | i in slot && i < k && slot[i].blockHash == hash
  }

  lemma {:induction false} VotesForCount(slot: Slot, k: nat, hash: Hash)
    ensures |VotesFor(slot, k, hash)| == |BackersBelow(slot, k, hash)|
  {
    if k == 0 {
      assert BackersBelow(slot, 0, hash) == {};
    } else {
      VotesForCount(slot, k - 1, hash);
      var b := BackersBelow(slot, k - 1, hash);
      if k - 1 in slot && slot[k - 1].blockHash == hash {
        assert BackersBelow(slot, k, hash) == b + {k - 1};
      } else {
        assert BackersBelow(slot, k, hash) == b;
      }
    }
  }

  lemma {:induction false} VotesForMembers(slot: Slot, k: nat, hash: Hash)
    ensures forall w :: w in VotesFor(slot, k, hash) <==> exists i :: i in slot && i < k && slot[i] == w && w.blockHash == hash
  {
    if k > 0 {
      VotesForMembers(slot, k - 1, hash);
    }
  }

  lemma AllVotesCount(slot: Slot, n: nat, hash: Hash)
    requires forall i :: i in slot ==> i < n
    ensures |VotesFor(slot, n, hash)| == |Backers(slot, hash)|
  {
    VotesForCount(slot, n, hash);
    assert BackersBelow(slot, n, hash) == Backers(slot, hash);
  }

  /** `quorum_value`: the value with at least Q votes in the slot, if there is one. */
  method QuorumValue(slot: Slot, n: nat) returns (r: Option<(Hash, seq<Vote>)>)
    requires n >= MIN_VALIDATORS && forall i :: i in slot ==> i < n
    ensures r.Some? ==> |Backers(slot, r.value.0)| >= Quorum(n) && r.value.1 == VotesFor(slot, n, r.value.0)
    ensures r.None? ==> forall h :: |Backers(slot, h)| < Quorum(n)
  {
    var tally: map<Hash, seq<Vote>> := map[];
    for k := 0 to n
      invariant forall h :: (if h in tally then tally[h] else []) == VotesFor(slot, k, h)
    {
      if k in slot {
        var h := slot[k].blockHash;
        tally := tally[h := (if h in tally then tally[h] else []) + [slot[k]]];
      }
    }
    forall h ensures |VotesFor(slot, n, h)| == |Backers(slot, h)| {
      AllVotesCount(slot, n, h);
    }
    if h :| h in tally && |tally[h]| >= Quorum(n) {
      assert tally[h] == VotesFor(slot, n, h);
      r := Some((h, tally[h]));
    } else {
      r := None;
    }
  }

  /** A vote that `build_qc` picks up for the given block. */
  predicate Counts(v: Vote, n: nat, height: nat, round: nat, hash: Hash) {
    && !v.shadow && v.blockHash != NilHash && v.height == height && v.round == round
    && v.blockHash == hash && v.phase == Precommit && v.idx < n
  }

  ghost function Signers(votes: seq<Vote>, n: nat, height: nat, round: nat, hash: Hash): set<nat> {
    set v | v in votes && Counts(v, n, height, round, hash) :: v.idx
  }

  /** `build_qc`: succeeds exactly when the first counted vote of every validator
      verifies and Q distinct validators are counted, and then certifies them all. */
  method BuildQc(votes: seq<Vote>, n: nat, height: nat, round: nat, hash: Hash) returns (r: Option<Qc>)
    requires n >= MIN_VALIDATORS
    ensures r.Some? ==>
      && VerifyQc(r.value, n) && r.value.height == height && r.value.round == round && r.value.blockHash == hash
      && r.value.sigs.Keys == Signers(votes, n, height, round, hash)
    ensures (forall v :: v in votes && Counts(v, n, height, round, hash) ==> VerifyVote(v, n))
      ==> (r.Some? <==> hash != NilHash && |Signers(votes, n, height, round, hash)| >= Quorum(n))
  {
    var picked: map<nat, Signature> := map[];
    for k := 0 to |votes|
      invariant picked.Keys == Signers(votes[..k], n, height, round, hash)
      invariant forall i :: i in picked ==> i < n && picked[i] == Signed(i, VoteDigest(height, round, Precommit, hash, false))
    {
      var v := votes[k];
      assert votes[..k + 1] == votes[..k] + [v];
      if Counts(v, n, height, round, hash) && v.idx !in picked {
        if !VerifyVote(v, n) {
          return None;
        }
        picked := picked[v.idx := v.sig];
      }
    }
    assert votes[..|votes|] == votes;
    var qc := Qc(height, round, hash, picked);
    if VerifyQc(qc, n) {
      return Some(qc);
    }
    assert |picked| == |picked.Keys|;
    return None;
  }

  /** A slot of verified precommits supplies `build_qc` with exactly its backers. */
  lemma CountedSigners(slot: Slot, votes: seq<Vote>, seen: set<Vote>, n: nat, height: nat, round: nat, hash: Hash)
    requires votes == VotesFor(slot, n, hash) && hash != NilHash
    requires forall i :: i in slot ==>
      var w := slot[i];
      GoodVote(w, n) && w.phase == Precommit && w.height == height && w.round == round && w.idx == i && w in seen
    ensures Signers(votes, n, height, round, hash) == Backers(slot, hash)
    ensures Backers(slot, hash) <= Supporters(seen, Precommit, height, round, hash)
    ensures forall v :: v in votes ==> VerifyVote(v, n)
  {
    VotesForMembers(slot, n, hash);
    forall i | i in Backers(slot, hash)
      ensures i in Signers(votes, n, height, round, hash) && i in Supporters(seen, Precommit, height, round, hash)
    {
      assert slot[i] in votes;
    }
  }

  /** A valid certificate names at least Q distinct validators, each of whom signed
      a non-shadow precommit for its block. */
  lemma QcIsQuorum(qc: Qc, n: nat)
    requires VerifyQc(qc, n)
    ensures |qc.sigs.Keys| >= Quorum(n) && forall i :: i in qc.sigs.Keys ==>
      VerifyVote(Vote(qc.height, qc.round, Precommit, qc.blockHash, i, false, qc.sigs[i]), n)
  {
    assert |qc.sigs| == |qc.sigs.Keys|;
  }

  /** Two certificates for one height and round certify one block, unless more
      than f validators signed both. */
  lemma OneCertificatePerRound(a: Qc, b: Qc, n: nat, faulty: set<nat>) returns (i: nat)
    requires n >= MIN_VALIDATORS && VerifyQc(a, n) && VerifyQc(b, n) && |faulty| <= Tolerance(n)
    ensures i in a.sigs && i in b.sigs && i !in faulty
  {
    QcIsQuorum(a, n);
    QcIsQuorum(b, n);
    i := QuorumsShareHonest(a.sigs.Keys, b.sigs.Keys, faulty, n);
  }
}
