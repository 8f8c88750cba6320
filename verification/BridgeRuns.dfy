/** What stands behind every execution of a run: the time lock, and the authorities. */
module BridgeRuns {
  import opened Multisig
  import opened Bridge

  /** Every signature is by an active authority of the configuration, with its key over this content, and no
      authority appears twice. */
  predicate Attested(k: Config, p: Proposal) {
    && (forall i :: 0 <= i < |p.signatures| ==>
          var s := p.signatures[i];
          && s.authority in k.authorities && k.authorities[s.authority].active && s.key == k.authorities[s.authority].key
          && s.signature == Made(s.key, SigningMessage(p.content, k.chainId, s.timestamp)))
    && forall i, j :: 0 <= i < j < |p.signatures| ==> p.signatures[i].authority != p.signatures[j].authority
  }

  /** In memory and on disk. */
  predicate AllAttested(k: Config, w: World) {
    && (forall id :: id in w.memory.proposals ==> Attested(k, w.memory.proposals[id]))
    && (forall id :: id in w.store.active ==> Attested(k, w.store.active[id]))
  }

  /** Blocks bring along only proposals the manager itself would have signed off. */
  predicate Tame(k: Config, e: Event) { e.Ingest? ==> Attested(k, e.p) }

  lemma SignedAttested(k: Config, m: Memory, id: ProposalId, s: BridgeSignature, nowMs: nat)
    requires forall a :: a in m.proposals ==> Attested(k, m.proposals[a])
    ensures var n := Signed(k, m, id, s, nowMs); forall a :: a in n.proposals ==> Attested(k, n.proposals[a])
  {
    if id in m.proposals && MaySign(k, m.proposals[id], s, nowMs) {
      var p := m.proposals[id];
      var q := p.(signatures := p.signatures + [s]);
      assert Attested(k, p);
      assert Attested(k, q);
    }
  }

  lemma StepAttested(k: Config, w: World, e: Event)
    requires AllAttested(k, w) && Tame(k, e)
    ensures AllAttested(k, Step(k, w, e))
  {
    match e
    case Create(r, now) => CreatedAttested(k, w.memory, w.store.processed, r, now);
    case Sign(id, s, now) => SignedAttested(k, w.memory, id, s, now);
    case Execute(id, now) => ExecutedAttested(k, w.memory, w.store.processed, id, now);
    case _ =>
  }

  lemma CreatedAttested(k: Config, m: Memory, processed: set<string>, r: Request, nowMs: nat)
    requires forall a :: a in m.proposals ==> Attested(k, m.proposals[a])
    ensures var n := Created(k, m, processed, r, nowMs); forall a :: a in n.proposals ==> Attested(k, n.proposals[a])
  {
    var id := IdFor(r, m.meta.nonce + 1, k.chainId);
    assert Attested(k, NewProposal(r, id, m.meta.nonce + 1));
  }

  lemma ExecutedAttested(k: Config, m: Memory, processed: set<string>, id: ProposalId, nowMs: nat)
    requires forall a :: a in m.proposals ==> Attested(k, m.proposals[a])
    ensures var n := Executed(k, m, processed, id, nowMs); forall a :: a in n.proposals ==> Attested(k, n.proposals[a])
  {
    if id in m.proposals {
      assert Attested(k, m.proposals[id]);
      assert Attested(k, m.proposals[id].(executed := true));
    }
  }

  lemma {:induction false} RunAttested(k: Config, w: World, es: seq<Event>)
    requires AllAttested(k, w) && forall i :: 0 <= i < |es| ==> Tame(k, es[i])
    ensures AllAttested(k, Run(k, w, es))
  {
    if es != [] {
      var n := |es| - 1;
      assert forall i :: 0 <= i < n ==> es[..n][i] == es[i];
      RunAttested(k, w, es[..n]);
      StepAttested(k, Run(k, w, es[..n]), es[n]);
    }
  }

  function SecondOf(e: Event): nat
    requires e.Execute? || e.Mint?
  {
    match e
    case Execute(_, nowMs) => nowMs / 1000
    case Mint(_, _, secs) => secs
  }

  function Names(p: Proposal): set<string> { set i | 0 <= i < |p.signatures| :: p.signatures[i].authority }

  /** Event `e` executed `p`: signed often enough, past its time lock, and on the chain with the threshold of
      distinct active authorities of the set in force. */
  predicate Due(k: Config, e: Event, p: Proposal) {
    && (e.Execute? || e.Mint?) && !p.executed && |p.signatures| >= k.required
    && SecondOf(e) >= p.content.timestamp + k.timelock
    && (e.Mint? ==>
          p == e.tx.payload && |Signers(e.set_, p.signatures, p.content, k.chainId)| >= e.set_.required > 0)
  }

  lemma StepDue(k: Config, w: World, e: Event)
    ensures var v := Step(k, w, e);
            || v.done == w.done
            || (|v.done| == |w.done| + 1 && v.done[..|w.done|] == w.done && Due(k, e, v.done[|w.done|])
                && (e.Execute? ==> e.id in w.memory.proposals && v.done[|w.done|] == w.memory.proposals[e.id]))
  {
    if e.Mint? && Valid(e.set_) {
      CountIsSigners(e.set_, e.tx.payload.signatures, e.tx.payload.content, k.chainId);
    }
  }

  /** Everything that is executed in a run had waited for its time lock and carried the signatures asked for. */
  lemma {:induction false} ExecutedWhenDue(k: Config, w: World, es: seq<Event>, j: nat) returns (i: nat)
    requires |w.done| <= j < |Run(k, w, es).done|
    ensures i < |es| && Due(k, es[i], Run(k, w, es).done[j])
    ensures es[i].Execute? ==> Held(Run(k, w, es[..i]).memory, es[i].id, Run(k, w, es).done[j])
  {
    assert es != [];
    var n := |es| - 1;
    var v := Run(k, w, es[..n]);
    StepDue(k, v, es[n]);
    if j < |v.done| {
      i := ExecutedWhenDue(k, w, es[..n], j);
      assert es[..n][..i] == es[..i] && es[..n][i] == es[i];
      assert Run(k, w, es).done[j] == v.done[j] by {
        assert Run(k, w, es).done[..|v.done|] == v.done;
      }
    } else {
      i := n;
    }
  }

  predicate Held(m: Memory, id: ProposalId, p: Proposal) { id in m.proposals && m.proposals[id] == p }

  /** What the manager executed carried its signatures from as many distinct active authorities, if it began with
      attested proposals and blocks brought no others. */
  lemma ExecutedByAuthorities(k: Config, w: World, es: seq<Event>, j: nat) returns (i: nat)
    requires AllAttested(k, w) && forall n :: 0 <= n < |es| ==> Tame(k, es[n])
    requires |w.done| <= j < |Run(k, w, es).done|
    ensures i < |es| && Due(k, es[i], Run(k, w, es).done[j])
    ensures es[i].Execute? ==>
              var names := Names(Run(k, w, es).done[j]);
              |names| >= k.required && forall a :: a in names ==> a in k.authorities && k.authorities[a].active
  {
    i := ExecutedWhenDue(k, w, es, j);
    if es[i].Execute? {
      assert forall n :: 0 <= n < i ==> es[..i][n] == es[n];
      RunAttested(k, w, es[..i]);
      NamesCount(Run(k, w, es).done[j].signatures);
    }
  }

  lemma {:induction false} NamesCount(sigs: seq<BridgeSignature>)
    requires forall i, j :: 0 <= i < j < |sigs| ==> sigs[i].authority != sigs[j].authority
    ensures |set i | 0 <= i < |sigs| :: sigs[i].authority| == |sigs|
  {
    if sigs != [] {
      var n := |sigs| - 1;
      NamesCount(sigs[..n]);
      var some, all := set i | 0 <= i < n :: sigs[..n][i].authority, set i | 0 <= i < |sigs| :: sigs[i].authority;
      assert all == some + {sigs[n].authority} by {
        assert forall i :: 0 <= i < n ==> sigs[..n][i] == sigs[i];
      }
    }
  }

  /** A block may bring along another version of a pending proposal, and a restart then takes over its list of
      signatures, whoever made them: that is the one way into memory the manager does not check. */
  lemma IngestedReplaces(k: Config, w: World, set_: AuthoritySet, p: Proposal)
    requires Valid(set_) && |Seen(set_, p.signatures, p.content, k.chainId)| >= set_.required
    ensures var m := Run(k, w, [Ingest(set_, p), Reload]).memory;
            Held(m, p.content.id, p.(executed := false)) <==> p.content.id in w.store.pending
  {
    var es := [Ingest(set_, p), Reload];
    assert es[..1] == [Ingest(set_, p)] && es[..1][..0] == [];
    assert Run(k, w, es[..1]) == Step(k, w, Ingest(set_, p));
  }
}
