/** Which votes are counted over a run, and what the counters then say. */
module ShadowLaws {
  import opened Text
  import opened ShadowVotes

  // ----- exactly the timely votes are counted -----

  /** A sound vote among the first 256 of its block, for one of the 128 blocks before it. */
  predicate Timely(b: Block, k: int) {
    && 0 <= k < |b.atts| && k < 256 && b.atts[k].sound
    && b.atts[k].height < b.number <= b.atts[k].height + 128
  }

  /** The unbounded ledger holds exactly what was counted. */
  ghost predicate UsedIsCounted(l: Ledger) { forall k :: k in l.used <==> k in l.counted }

  lemma {:induction false} SomeUsed(l: Ledger, block: nat, epoch: nat, atts: seq<Attestation>)
    requires UsedIsCounted(l)
    ensures UsedIsCounted(Several(l, block, epoch, atts, false))
  {
    if atts != [] {
      SomeUsed(l, block, epoch, atts[..|atts| - 1]);
    }
  }

  lemma {:induction false} RunUsed(bs: seq<Block>)
    ensures UsedIsCounted(Run(bs, false))
  {
    if bs != [] {
      var b := bs[|bs| - 1];
      RunUsed(bs[..|bs| - 1]);
      SomeUsed(Run(bs[..|bs| - 1], false), b.number, b.epoch, Taken(b.atts));
    }
  }

  /** What a block adds to the votes counted: exactly its sound votes inside the window. */
  lemma {:induction false} SomeCount(l: Ledger, block: nat, epoch: nat, atts: seq<Attestation>, key: VoteKey)
    requires UsedIsCounted(l)
    ensures key in Several(l, block, epoch, atts, false).counted <==>
              key in l.counted
              || exists k :: 0 <= k < |atts| && KeyOf(atts[k]) == key && atts[k].sound
                             && atts[k].height < block <= atts[k].height + 128
  {
    if atts != [] {
      var n := |atts| - 1;
      SomeCount(l, block, epoch, atts[..n], key);
      SomeUsed(l, block, epoch, atts[..n]);
      assert forall k :: 0 <= k < n ==> atts[..n][k] == atts[k];
      var m, a := Several(l, block, epoch, atts[..n], false), atts[n];
      assert Counts(m.used, block, a) <==> a.sound && a.height < block <= a.height + 128 && KeyOf(a) !in m.counted;
    }
  }

  /** The block carries this vote, soundly and in time. */
  predicate Carries(b: Block, key: VoteKey) {
    exists k :: 0 <= k < |b.atts| && Timely(b, k) && KeyOf(b.atts[k]) == key
  }

  lemma CarriesIs(b: Block, key: VoteKey)
    ensures Carries(b, key) <==>
              exists k :: 0 <= k < |Taken(b.atts)| && KeyOf(Taken(b.atts)[k]) == key && Taken(b.atts)[k].sound
                          && Taken(b.atts)[k].height < b.number <= Taken(b.atts)[k].height + 128
  {
    var some := Taken(b.atts);
    assert forall k :: 0 <= k < |some| ==> some[k] == b.atts[k];
    if k :| 0 <= k < |some| && KeyOf(some[k]) == key && some[k].sound && some[k].height < b.number <= some[k].height + 128 {
      assert Timely(b, k);
    }
    if k :| 0 <= k < |b.atts| && Timely(b, k) && KeyOf(b.atts[k]) == key {
      assert some[k] == b.atts[k];
    }
  }

  lemma {:induction false} CountedFull(bs: seq<Block>, key: VoteKey)
    ensures key in Run(bs, false).counted <==> exists j :: 0 <= j < |bs| && Carries(bs[j], key)
  {
    if bs != [] {
      var n := |bs| - 1;
      var b, l := bs[n], Run(bs[..n], false);
      CountedFull(bs[..n], key);
      RunUsed(bs[..n]);
      SomeCount(l, b.number, b.epoch, Taken(b.atts), key);
      CarriesIs(b, key);
      assert forall j :: 0 <= j < n ==> bs[..n][j] == bs[j];
    }
  }

  /** Over any run with non-decreasing block numbers a vote is counted if and only if some block carries it, sound,
      among its first 256, and about one of the 128 blocks before it. */
  lemma CountedIffTimely(bs: seq<Block>, key: VoteKey)
    requires Ordered(bs)
    ensures key in Run(bs, true).counted <==> exists j :: 0 <= j < |bs| && Carries(bs[j], key)
  {
    PruningIsInvisible(bs);
    CountedFull(bs, key);
  }

  // ----- what the counters say -----

  /** A counted vote is one block taken part in out of one more; with a new epoch the count starts again, strikes
      aside, and nobody else's counters move. */
  lemma TickedExact(live: map<string, Liveness>, address: string, epoch: nat)
    ensures var was := if address in live then live[address] else Liveness(0, 0, 0, 0);
            var new_ := Ticked(live, address, epoch);
            && address in new_ && new_[address].epoch == epoch && new_[address].strikes == was.strikes
            && new_[address].participated == (if was.epoch == epoch then was.participated else 0) + 1
            && new_[address].total == (if was.epoch == epoch then was.total else 0) + 1
            && forall a :: a != address ==> (a in new_ <==> a in live) && (a in live ==> new_[a] == live[a])
  {
  }

  /** How many of the counted votes are by this address. */
  function Tally(counted: seq<VoteKey>, address: string): nat {
    if counted == [] then 0
    else Tally(counted[..|counted| - 1], address) + if counted[|counted| - 1].address == address then 1 else 0
  }

  predicate Matches(l: Ledger, address: string, epoch: nat) {
    var n := Tally(l.counted, address);
    if n == 0 then address !in l.live else address in l.live && l.live[address] == Liveness(epoch, n, n, 0)
  }

  lemma {:induction false} SomeMatch(l: Ledger, block: nat, epoch: nat, atts: seq<Attestation>, address: string)
    requires Matches(l, address, epoch)
    ensures Matches(Several(l, block, epoch, atts, true), address, epoch)
  {
    if atts != [] {
      var n := |atts| - 1;
      SomeMatch(l, block, epoch, atts[..n], address);
      var m := Several(l, block, epoch, atts[..n], true);
      if Counts(m.used, block, atts[n]) {
        assert (m.counted + [KeyOf(atts[n])])[..|m.counted|] == m.counted;
        TickedExact(m.live, Lower(atts[n].address), epoch);
      }
    }
  }

  /** Within one epoch the counters of an address are the number of its votes that were counted. */
  lemma {:induction false} CountersAreCounts(bs: seq<Block>, address: string, epoch: nat)
    requires forall i :: 0 <= i < |bs| ==> bs[i].epoch == epoch
    ensures Matches(Run(bs, true), address, epoch)
  {
    if bs != [] {
      var n := |bs| - 1;
      CountersAreCounts(bs[..n], address, epoch);
      SomeMatch(Run(bs[..n], true), bs[n].number, epoch, Taken(bs[n].atts), address);
    }
  }
}
