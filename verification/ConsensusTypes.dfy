/**
 Messages, certificates and thresholds of the consensus layer.

 A header carries the digest of its own encoding; no header hashes to the
 all-zero `NilHash`, and nothing else is assumed of the hash function.
 Signatures are ideal: `Signed(i, d)` is the signature of validator `i` over
 digest `d`, and verification compares it with what the message says it signs.
 */
module ConsensusTypes {
  import opened Options

  datatype Phase = Prevote | Precommit

  datatype Hash = NilHash | HeaderHash(digest: nat)

  datatype Header = Header(
    number: nat, round: nat, proposerIdx: nat, parentHash: Hash,
    lastQc: Option<Qc>, timestampMs: nat, stateRoot: nat, bodyRoot: nat, digest: nat)

  datatype Digest =
    | VoteDigest(height: nat, round: nat, phase: Phase, blockHash: Hash, shadow: bool)
    | HeaderDigest(blockHash: Hash)
    | EnvelopeDigest(height: nat, round: nat, blockHash: Hash)
    | HeartbeatDigest(height: nat, round: nat, timestampMs: nat)

  datatype Signature = Forged | Signed(signer: nat, digest: Digest)

  datatype Vote = Vote(height: nat, round: nat, phase: Phase, blockHash: Hash,
                       idx: nat, shadow: bool, sig: Signature)

  /** A quorum certificate: the signer bit set with the signatures listed in bit
      order is the map from signer to signature. */
  datatype Qc = Qc(height: nat, round: nat, blockHash: Hash, sigs: map<nat, Signature>)

  /** `body` names the transactions and the other block contents. */
  datatype Proposal = Proposal(header: Header, headerSig: Signature, body: nat,
                               round: nat, validRound: Option<nat>, sig: Signature) {
    function BlockHash(): Hash { HeaderHash(header.digest) }

    function Height(): nat { header.number }

    function EnvelopeOf(): Digest { EnvelopeDigest(Height(), round, BlockHash()) }
  }

  datatype Heartbeat = Heartbeat(height: nat, round: nat, timestampMs: nat, idx: nat, sig: Signature)

  const MIN_VALIDATORS: nat := 4
  const MAX_VALIDATORS_HARD: nat := 101

  /** f, the number of faulty validators tolerated. */
  function Tolerance(n: nat): nat {
    if n == 0 then 0 else (n - 1) / 3
  }

  /** Q, more than two thirds of the set. */
  function Quorum(n: nat): nat {
    2 * n / 3 + 1
  }

  /** Q is the least number above two thirds, f the greatest below one third. */
  lemma ThresholdsAre(n: nat)
    ensures 3 * Quorum(n) > 2 * n && 3 * (Quorum(n) - 1) <= 2 * n
    ensures n > 0 ==> 3 * Tolerance(n) < n <= 3 * Tolerance(n) + 3
  {
  }

  function VoteDigestOf(v: Vote): Digest {
    VoteDigest(v.height, v.round, v.phase, v.blockHash, v.shadow)
  }

  predicate VerifyVote(v: Vote, n: nat) {
    v.idx < n && v.sig == Signed(v.idx, VoteDigestOf(v))
  }

  function SignVote(idx: nat, height: nat, round: nat, phase: Phase, hash: Hash): (v: Vote)
    ensures forall n :: idx < n ==> VerifyVote(v, n)
  {
    Vote(height, round, phase, hash, idx, false,
         Signed(idx, VoteDigest(height, round, phase, hash, false)))
  }

  /** Structure and signatures of a certificate against a set of `n` validators. */
  predicate VerifyQc(qc: Qc, n: nat) {
    && qc.blockHash != NilHash
    && (forall i :: i in qc.sigs ==>
          i < n && qc.sigs[i] == Signed(i, VoteDigest(qc.height, qc.round, Precommit, qc.blockHash, false)))
    && |qc.sigs| >= Quorum(n)
  }
}

/** Set arithmetic behind quorum intersection. */
module QuorumMath {
  import opened ConsensusTypes

  function Range(n: nat): (s: set<nat>)
    ensures forall i: nat :: i in s <==> i < n
  {
    if n == 0 then {} else Range(n - 1) + {n - 1}
  }

  lemma {:induction false} RangeSize(n: nat)
    ensures |Range(n)| == n
  {
    if n > 0 {
      RangeSize(n - 1);
      assert Range(n) == Range(n - 1) + {n - 1};
    }
  }

  lemma {:induction false} SubsetSize(a: set<nat>, b: set<nat>)
    requires a <= b
    ensures |a| <= |b|
  {
    assert b == a + (b - a);
  }

  lemma BoundedSize(a: set<nat>, n: nat)
    requires forall i :: i in a ==> i < n
    ensures |a| <= n
  {
    SubsetSize(a, Range(n));
    RangeSize(n);
  }

  /** Two sets of voters overlap by at least the excess of their sizes over n. */
  lemma OverlapSize(a: set<nat>, b: set<nat>, n: nat)
    requires forall i :: i in a + b ==> i < n
    ensures |a * b| >= |a| + |b| - n
  {
    BoundedSize(a + b, n);
    assert |a + b| + |a * b| == |a| + |b|;
  }

  /** INV-C2: any two quorums share a validator outside any faulty set of size f. */
  lemma QuorumsShareHonest(a: set<nat>, b: set<nat>, faulty: set<nat>, n: nat) returns (i: nat)
    requires n >= 1
    requires forall j :: j in a + b ==> j < n
    requires |a| >= Quorum(n) && |b| >= Quorum(n) && |faulty| <= Tolerance(n)
    ensures i in a && i in b && i !in faulty
  {
    OverlapSize(a, b, n);
    if a * b <= faulty {
      SubsetSize(a * b, faulty);
      assert false;
    }
    i :| i in a * b && i !in faulty;
  }

  /** f+1 votes plus one's own never make a quorum. */
  lemma ToleranceBelowQuorum(n: nat)
    requires n >= MIN_VALIDATORS
    ensures Tolerance(n) + 1 < Quorum(n)
    ensures 2 * Quorum(n) > n
  {
  }
}
