/**
 A network of engines with at most f faulty validators, and agreement over all
 its runs.  Messages may be delayed, lost, repeated and reordered at will: the
 `wire` is the set of all valid votes ever signed, and any of them may be
 delivered to anyone at any time.
 */
module Network {
  import opened Options
  import opened ConsensusTypes
  import opened QuorumMath
  import opened EngineSpec
  import opened EngineLemmas
  import opened EngineMoves

  datatype Config = Config(n: nat, faulty: set<nat>)

  ghost predicate Sane(c: Config) {
    && MIN_VALIDATORS <= c.n <= MAX_VALIDATORS_HARD
    && |c.faulty| <= Tolerance(c.n)
  }

  /** Validators have indices below n; higher node numbers are observers. */
  function Identity(c: Config, p: nat): Option<nat> {
    if p < c.n then Some(p) else None
  }

  datatype Net = Net(nodes: map<nat, View>, wire: set<Vote>)

  ghost predicate Start(c: Config, s: Net) {
    && s.wire == {}
    && forall p :: p in s.nodes ==>
         p !in c.faulty && Good(s.nodes[p], c.n, Identity(c, p)) && s.nodes[p].life == Life({}, {}, {}, {}, {})
  }

  datatype Event =
    | Act(p: nat, outs: seq<Output>, delivered: set<Vote>)   // one call of an honest engine
    | Rebuild(p: nat, height: nat)                           // a new engine at a height not voted in yet
    | Forge(votes: set<Vote>)                                // faulty validators sign anything

  /** An honest engine moves by its contract on votes from the wire and puts its
      own votes there; nobody signs for anybody else.  `Good` and `Did` are what
      every entry point of `BftEngine` ensures of its own view. */
  ghost predicate Next(c: Config, s: Net, e: Event, t: Net) {
    match e
    case Act(p, outs, delivered) =>
      && p in s.nodes && p in t.nodes && t.nodes == s.nodes[p := t.nodes[p]]
      && Good(t.nodes[p], c.n, Identity(c, p)) && Did(c.n, s.nodes[p], t.nodes[p], outs, delivered)
      && delivered <= s.wire && t.wire == s.wire + VotesIn(outs)
    case Rebuild(p, h) =>
      && p in s.nodes && s.nodes[p].height <= h && (forall w :: w in s.nodes[p].life.log ==> w.height < h)
      && t == s.(nodes := s.nodes[p := Rebuilt(s.nodes[p], h)])
    case Forge(votes) =>
      && (forall w :: w in votes ==> GoodVote(w, c.n) && w.idx in c.faulty)
      && t == s.(wire := s.wire + votes)
  }

  ghost predicate Run(c: Config, run: seq<Net>, events: seq<Event>) {
    && |run| == |events| + 1 && Start(c, run[0])
    && forall i :: 0 <= i < |events| ==> Next(c, run[i], events[i], run[i + 1])
  }

  ghost predicate NodeOk(c: Config, s: Net, p: nat)
    requires p in s.nodes
  {
    var a := s.nodes[p];
    && p !in c.faulty && Good(a, c.n, Identity(c, p))
    && a.life.seen <= s.wire && a.life.held <= s.wire && a.life.log <= s.wire
  }

  /** Every vote on the wire was signed by a faulty validator or is in the log of
      its signer, and nodes know only what is on the wire. */
  ghost predicate NetInv(c: Config, s: Net) {
    && Sane(c)
    && (forall p :: p in s.nodes ==> NodeOk(c, s, p))
    && (forall w :: w in s.wire ==>
          GoodVote(w, c.n) && (w.idx in c.faulty || (w.idx in s.nodes && w in s.nodes[w.idx].life.log)))
  }

  lemma ActKeeps(c: Config, s: Net, p: nat, outs: seq<Output>, delivered: set<Vote>, t: Net)
    requires NetInv(c, s) && Next(c, s, Act(p, outs, delivered), t)
    ensures NetInv(c, t)
  {
    var a, b := s.nodes[p], t.nodes[p];
    assert NodeOk(c, s, p);
    DidOpen(c.n, a, b, outs, delivered);
    LogSigned(b, c.n, Identity(c, p));
    assert b.life.log == a.life.log + VotesIn(outs);
    forall w | w in VotesIn(outs) ensures GoodVote(w, c.n) && w.idx == p && w in b.life.log {
      assert w in b.life.log;
    }
    forall x | x in t.nodes ensures NodeOk(c, t, x) {
      if x != p { assert NodeOk(c, s, x); }
    }
    forall w | w in t.wire
      ensures GoodVote(w, c.n) && (w.idx in c.faulty || (w.idx in t.nodes && w in t.nodes[w.idx].life.log))
    {
      if w !in VotesIn(outs) { assert w in s.wire; }
    }
  }

  lemma NextKeeps(c: Config, s: Net, e: Event, t: Net)
    requires NetInv(c, s) && Next(c, s, e, t)
    ensures NetInv(c, t)
  {
    match e
    case Act(p, outs, delivered) => ActKeeps(c, s, p, outs, delivered, t);
    case Rebuild(p, h) =>
      assert NodeOk(c, s, p);
      RebuildMove(s.nodes[p], c.n, Identity(c, p), h);
    case Forge(votes) =>
  }

  lemma StartOk(c: Config, s: Net)
    requires Sane(c) && Start(c, s)
    ensures NetInv(c, s)
  {
  }

  lemma {:induction false} RunKeeps(c: Config, run: seq<Net>, events: seq<Event>, i: nat)
    requires Sane(c) && Run(c, run, events) && i < |run|
    ensures NetInv(c, run[i])
  {
    if i == 0 {
      StartOk(c, run[0]);
    } else {
      RunKeeps(c, run, events, i - 1);
      NextKeeps(c, run[i - 1], events[i - 1], run[i]);
    }
  }

  // ----- agreement -----

  /** Two quorums of votes on the wire share an honest signer. */
  lemma SharedSigner(c: Config, s: Net, f1: Phase, f2: Phase, h: nat, r1: nat, r2: nat, v1: Hash, v2: Hash)
    returns (i: nat, a: Vote, b: Vote)
    requires NetInv(c, s)
    requires |Supporters(s.wire, f1, h, r1, v1)| >= Quorum(c.n) && |Supporters(s.wire, f2, h, r2, v2)| >= Quorum(c.n)
    ensures i in s.nodes && a in s.nodes[i].life.log && b in s.nodes[i].life.log
    ensures a.phase == f1 && a.height == h && a.round == r1 && a.blockHash == v1
    ensures b.phase == f2 && b.height == h && b.round == r2 && b.blockHash == v2
  {
    var x, y := Supporters(s.wire, f1, h, r1, v1), Supporters(s.wire, f2, h, r2, v2);
    i := QuorumsShareHonest(x, y, c.faulty, c.n);
    a :| a in s.wire && a.phase == f1 && a.height == h && a.round == r1 && a.blockHash == v1 && a.idx == i;
    b :| b in s.wire && b.phase == f2 && b.height == h && b.round == r2 && b.blockHash == v2 && b.idx == i;
  }

  lemma OnWire(c: Config, s: Net, i: nat, h: nat, r: nat, v: Hash)
    requires NetInv(c, s) && i in s.nodes && Polka(s.nodes[i].life.seen, c.n, h, r, v)
    ensures Polka(s.wire, c.n, h, r, v)
  {
    SupportersGrow(s.nodes[i].life.seen, s.wire, Prevote, h, r, v);
  }

  lemma CertifiedHasPolka(c: Config, s: Net, h: nat, r: nat, v: Hash)
    requires NetInv(c, s) && v != NilHash && Certified(s.wire, c.n, h, r, v)
    ensures Polka(s.wire, c.n, h, r, v)
  {
    var i, a, _ := SharedSigner(c, s, Precommit, Precommit, h, r, r, v, v);
    assert NodeOk(c, s, i);
    LogRules(s.nodes[i], c.n, Identity(c, i));
    OnWire(c, s, i, h, r, v);
  }

  /** Once Q validators precommitted `v`, no other block gathers Q prevotes in
      that round or any later one. */
  lemma {:induction false} NoRival(c: Config, s: Net, h: nat, r: nat, v: Hash, r': nat, v': Hash)
    requires NetInv(c, s) && v != NilHash && v' != NilHash && r <= r'
    requires Certified(s.wire, c.n, h, r, v) && Polka(s.wire, c.n, h, r', v')
    ensures v == v'
    decreases r'
  {
    if r == r' {
      CertifiedHasPolka(c, s, h, r, v);
      var i, a, b := SharedSigner(c, s, Prevote, Prevote, h, r, r, v, v');
      assert NodeOk(c, s, i);
      LogRules(s.nodes[i], c.n, Identity(c, i));
    } else if v != v' {
      var i, a, b := SharedSigner(c, s, Precommit, Prevote, h, r, r', v, v');
      assert NodeOk(c, s, i);
      LogRules(s.nodes[i], c.n, Identity(c, i));
      assert Supersedes(a, b);
      var vr :| r < vr < r' && Polka(s.nodes[i].life.seen, c.n, h, vr, v');
      OnWire(c, s, i, h, vr, v');
      NoRival(c, s, h, r, v, vr, v');
    }
  }

  lemma CommitCertified(c: Config, s: Net, p: nat, qc: Qc)
    requires NetInv(c, s) && p in s.nodes && qc in s.nodes[p].life.decided
    ensures qc.blockHash != NilHash && Certified(s.wire, c.n, qc.height, qc.round, qc.blockHash)
  {
    var mine := Supporters(s.nodes[p].life.seen, Precommit, qc.height, qc.round, qc.blockHash);
    var all := Supporters(s.wire, Precommit, qc.height, qc.round, qc.blockHash);
    assert NodeOk(c, s, p);
    LifeRules(s.nodes[p], c.n, Identity(c, p));
    SupportersGrow(s.nodes[p].life.seen, s.wire, Precommit, qc.height, qc.round, qc.blockHash);
    assert |qc.sigs| == |qc.sigs.Keys|;
    SubsetSize(qc.sigs.Keys, mine);
  }

  lemma AgreementNow(c: Config, s: Net, p: nat, q: nat, x: Qc, y: Qc)
    requires NetInv(c, s) && p in s.nodes && q in s.nodes
    requires x in s.nodes[p].life.decided && y in s.nodes[q].life.decided && x.height == y.height
    ensures x.blockHash == y.blockHash
  {
    CommitCertified(c, s, p, x);
    CommitCertified(c, s, q, y);
    if x.round <= y.round {
      CertifiedHasPolka(c, s, y.height, y.round, y.blockHash);
      NoRival(c, s, x.height, x.round, x.blockHash, y.round, y.blockHash);
    } else {
      CertifiedHasPolka(c, s, x.height, x.round, x.blockHash);
      NoRival(c, s, y.height, y.round, y.blockHash, x.round, x.blockHash);
    }
  }

  /** Commits are never taken back. */
  lemma {:induction false} DecidedGrows(c: Config, run: seq<Net>, events: seq<Event>, i: nat, j: nat, p: nat)
    requires Run(c, run, events) && i <= j < |run| && p in run[i].nodes
    ensures p in run[j].nodes && run[i].nodes[p].life.decided <= run[j].nodes[p].life.decided
    decreases j
  {
    if i < j {
      DecidedGrows(c, run, events, i, j - 1, p);
      assert Next(c, run[j - 1], events[j - 1], run[j]);
      var e := events[j - 1];
      if e.Act? && e.p == p {
        DidOpen(c.n, run[j - 1].nodes[p], run[j].nodes[p], e.outs, e.delivered);
      }
    }
  }

  /** In every run with at most f faulty validators, whatever certificates two honest
      nodes committed at one height, at whatever times, are for the same block. */
  lemma CertificatesAgree(c: Config, run: seq<Net>, events: seq<Event>, i: nat, j: nat, p: nat, q: nat, x: Qc, y: Qc)
    requires Sane(c) && Run(c, run, events) && i < |run| && j < |run|
    requires p in run[i].nodes && q in run[j].nodes
    requires x in run[i].nodes[p].life.decided && y in run[j].nodes[q].life.decided && x.height == y.height
    ensures x.blockHash == y.blockHash
  {
    var k := if i <= j then j else i;
    RunKeeps(c, run, events, k);
    DecidedGrows(c, run, events, i, k, p);
    DecidedGrows(c, run, events, j, k, q);
    AgreementNow(c, run[k], p, q, x, y);
  }

  /** AGREEMENT: whatever blocks honest nodes hand out as committed at one height, in
      whatever calls of a run, are the same block. */
  lemma Agreement(c: Config, run: seq<Net>, events: seq<Event>, i: nat, j: nat, x: Output, y: Output)
    requires Sane(c) && Run(c, run, events) && i < |events| && j < |events|
    requires events[i].Act? && x in events[i].outs && x.Commit?
    requires events[j].Act? && y in events[j].outs && y.Commit? && x.qc.height == y.qc.height
    ensures x.proposal.BlockHash() == y.proposal.BlockHash()
  {
    var p, q := events[i].p, events[j].p;
    CommitRecorded(c, run, events, i, x);
    CommitRecorded(c, run, events, j, y);
    CertificatesAgree(c, run, events, i + 1, j + 1, p, q, x.qc, y.qc);
  }

  lemma CommitRecorded(c: Config, run: seq<Net>, events: seq<Event>, i: nat, x: Output)
    requires Run(c, run, events) && i < |events| && events[i].Act? && x in events[i].outs && x.Commit?
    ensures x.proposal.BlockHash() == x.qc.blockHash
    ensures events[i].p in run[i + 1].nodes && x.qc in run[i + 1].nodes[events[i].p].life.decided
  {
    var p, e := events[i].p, events[i];
    assert Next(c, run[i], e, run[i + 1]);
    BodyIsCertified(c.n, run[i].nodes[p], run[i + 1].nodes[p], e.outs, e.delivered, x);
  }

  /** Every block ever committed carries a certificate signed by more than f
      honest validators, each of whom precommitted exactly that block. */
  lemma CommitsAreQuorums(c: Config, run: seq<Net>, events: seq<Event>, i: nat, p: nat, x: Qc)
    requires Sane(c) && Run(c, run, events) && i < |run| && p in run[i].nodes && x in run[i].nodes[p].life.decided
    ensures VerifyQc(x, c.n) && |x.sigs.Keys - c.faulty| > Tolerance(c.n)
    ensures forall k :: k in x.sigs.Keys - c.faulty ==>
      k in run[i].nodes && SignVote(k, x.height, x.round, Precommit, x.blockHash) in run[i].nodes[k].life.log
  {
    RunKeeps(c, run, events, i);
    QuorumBehind(c, run[i], p, x);
  }

  lemma QuorumBehind(c: Config, s: Net, p: nat, x: Qc)
    requires NetInv(c, s) && p in s.nodes && x in s.nodes[p].life.decided
    ensures VerifyQc(x, c.n) && |x.sigs.Keys - c.faulty| > Tolerance(c.n)
    ensures forall k :: k in x.sigs.Keys - c.faulty ==>
      k in s.nodes && SignVote(k, x.height, x.round, Precommit, x.blockHash) in s.nodes[k].life.log
  {
    var signers := x.sigs.Keys;
    assert QcOk(s.nodes[p], c.n, x) by {
      assert NodeOk(c, s, p);
      LifeRules(s.nodes[p], c.n, Identity(c, p));
    }
    HonestShare(signers, c);
    forall k | k in signers - c.faulty
      ensures k in s.nodes && SignVote(k, x.height, x.round, Precommit, x.blockHash) in s.nodes[k].life.log
    {
      var w :| w in s.nodes[p].life.seen && w.phase == Precommit && w.height == x.height && w.round == x.round
            && w.blockHash == x.blockHash && w.idx == k;
      assert w in s.wire by { assert NodeOk(c, s, p); }
      assert w == SignVote(k, x.height, x.round, Precommit, x.blockHash);
    }
  }

  lemma HonestShare(signers: set<nat>, c: Config)
    requires Sane(c) && |signers| >= Quorum(c.n)
    ensures |signers - c.faulty| > Tolerance(c.n)
  {
    assert signers == signers * c.faulty + (signers - c.faulty);
    SubsetSize(signers * c.faulty, c.faulty);
  }

  /** Only faulty validators are ever reported for double voting. */
  lemma HonestNeverAccused(c: Config, run: seq<Net>, events: seq<Event>, i: nat, p: nat, e: (Vote, Vote))
    requires Sane(c) && Run(c, run, events) && i < |run| && p in run[i].nodes && e in run[i].nodes[p].life.accused
    ensures e.0.idx in c.faulty && e.0.idx == e.1.idx
  {
    RunKeeps(c, run, events, i);
    assert NodeOk(c, run[i], p);
    LifeRules(run[i].nodes[p], c.n, Identity(c, p));
    if e.0.idx !in c.faulty {
      assert NodeOk(c, run[i], e.0.idx);
      LogRules(run[i].nodes[e.0.idx], c.n, Identity(c, e.0.idx));
    }
    assert SameSlot(e.0, e.1) && e.0 in run[i].wire && e.1 in run[i].wire;
  }
}
