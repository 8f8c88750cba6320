/** Counting votes on a proposal: one voice per validator, capped stake for stakers. */
module Tally {
  import opened Sums
  import opened Words
  import opened Products

  /** The weight is the stake at the time of the vote. */
  datatype Ballot = Ballot(support: bool, weight: nat)

  /** Ballots by proposal and address, and the addresses in the order they voted. */
  datatype Votes = Votes(ballots: map<nat, map<nat, Ballot>>, voters: map<nat, seq<nat>>)

  datatype Stakes = Stakes(staked: map<nat, nat>, total: nat)

  function BallotsOn(v: Votes, pid: nat): map<nat, Ballot> {
    if pid in v.ballots then v.ballots[pid] else map[]
  }

  function VotersOn(v: Votes, pid: nat): seq<nat> {
    if pid in v.voters then v.voters[pid] else []
  }

  function StakeOf(s: Stakes, a: nat): nat {
    if a in s.staked then s.staked[a] else 0
  }

  function Recorded(v: Votes, pid: nat, a: nat, b: Ballot): Votes {
    Votes(v.ballots[pid := BallotsOn(v, pid)[a := b]], v.voters[pid := VotersOn(v, pid) + [a]])
  }

  /** Every address on the list has exactly one ballot and appears once. */
  predicate Consistent(v: Votes, pid: nat) {
    var list, bs := VotersOn(v, pid), BallotsOn(v, pid);
    && (forall i :: 0 <= i < |list| ==> list[i] in bs)
    && (forall a :: a in bs ==> a in list)
    && forall i, k :: 0 <= i < k < |list| ==> list[i] != list[k]
  }

  lemma RecordedConsistent(v: Votes, pid: nat, a: nat, b: Ballot)
    requires Consistent(v, pid) && a !in BallotsOn(v, pid)
    ensures Consistent(Recorded(v, pid, a, b), pid)
    ensures forall q :: q != pid && Consistent(v, q) ==> Consistent(Recorded(v, pid, a, b), q)
  {
    var w := Recorded(v, pid, a, b);
    assert VotersOn(w, pid) == VotersOn(v, pid) + [a];
    forall q | q != pid && Consistent(v, q)
      ensures Consistent(w, q)
    {
      assert BallotsOn(w, q) == BallotsOn(v, q) && VotersOn(w, q) == VotersOn(v, q);
    }
  }

  // ----- validators -----

  function YesVoices(v: Votes, pid: nat, members: seq<nat>): nat {
    if members == [] then 0
    else
      var bs, m := BallotsOn(v, pid), members[|members| - 1];
      YesVoices(v, pid, members[..|members| - 1]) + if m in bs && bs[m].support then 1 else 0
  }

  function Voices(v: Votes, pid: nat, members: seq<nat>): nat {
    if members == [] then 0
    else Voices(v, pid, members[..|members| - 1]) + if members[|members| - 1] in BallotsOn(v, pid) then 1 else 0
  }

  method ValidatorTally(v: Votes, pid: nat, members: seq<nat>) returns (yes: nat, voted: nat)
    ensures yes == YesVoices(v, pid, members) && voted == Voices(v, pid, members)
    ensures yes <= voted <= |members|
  {
    yes, voted := 0, 0;
    var i := 0;
    while i < |members|
      invariant i <= |members|
      invariant yes == YesVoices(v, pid, members[..i]) && voted == Voices(v, pid, members[..i])
    {
      assert members[..i + 1][..i] == members[..i];
      var bs := BallotsOn(v, pid);
      if members[i] in bs {
        voted := voted + 1;
        if bs[members[i]].support {
          yes := yes + 1;
        }
      }
      i := i + 1;
    }
    assert members[..i] == members;
    VoicesBounded(v, pid, members);
  }

  lemma {:induction false} VoicesBounded(v: Votes, pid: nat, members: seq<nat>)
    ensures YesVoices(v, pid, members) <= Voices(v, pid, members) <= |members|
  {
    if members != [] {
      VoicesBounded(v, pid, members[..|members| - 1]);
    }
  }

  // ----- stakers -----

  function Min(a: nat, b: nat): nat {
    if a <= b then a else b
  }

  /** Never more than the stake at the vote, the stake now, or the cap. */
  function Weight(v: Votes, s: Stakes, pid: nat, cap: nat, a: nat): nat {
    var bs := BallotsOn(v, pid);
    if a in bs then Min(Min(bs[a].weight, StakeOf(s, a)), cap) else 0
  }

  function SideWeight(v: Votes, s: Stakes, pid: nat, cap: nat, side: bool, list: seq<nat>): nat {
    if list == [] then 0
    else
      var bs, a := BallotsOn(v, pid), list[|list| - 1];
      var rest := SideWeight(v, s, pid, cap, side, list[..|list| - 1]);
      if a in bs && bs[a].support == side then SatAdd(rest, Weight(v, s, pid, cap, a)) else rest
  }

  datatype StakerResult = StakerResult(accepted: bool, quorum: bool, participation: nat, yes: nat, no: nat)

  function CapOf(s: Stakes, capBps: nat): nat { SatMul(s.total, capBps) / 10_000 }

  function StakersSay(v: Votes, s: Stakes, pid: nat, capBps: nat, quorumBps: nat): StakerResult {
    if s.total == 0 then StakerResult(false, false, 0, 0, 0)
    else
      var cap, list := CapOf(s, capBps), VotersOn(v, pid);
      var yes, no := SideWeight(v, s, pid, cap, true, list), SideWeight(v, s, pid, cap, false, list);
      var part := SatAdd(yes, no);
      var quorum := SatMul(part, 10_000) >= SatMul(s.total, quorumBps);
      StakerResult(quorum && yes > no, quorum, part, yes, no)
  }

  method StakerTally(v: Votes, s: Stakes, pid: nat, capBps: nat, quorumBps: nat) returns (r: StakerResult)
    ensures r == StakersSay(v, s, pid, capBps, quorumBps)
  {
    if s.total == 0 {
      return StakerResult(false, false, 0, 0, 0);
    }
    var cap, list := CapOf(s, capBps), VotersOn(v, pid);
    var yes, no := 0, 0;
    var i := 0;
    while i < |list|
      invariant i <= |list|
      invariant yes == SideWeight(v, s, pid, cap, true, list[..i])
      invariant no == SideWeight(v, s, pid, cap, false, list[..i])
    {
      assert list[..i + 1][..i] == list[..i];
      var bs, a := BallotsOn(v, pid), list[i];
      if a in bs {
        var w := Min(Min(bs[a].weight, StakeOf(s, a)), cap);
        if bs[a].support {
          yes := SatAdd(yes, w);
        } else {
          no := SatAdd(no, w);
        }
      }
      i := i + 1;
    }
    assert list[..i] == list;
    var part := SatAdd(yes, no);
    var quorum := SatMul(part, 10_000) >= SatMul(s.total, quorumBps);
    r := StakerResult(quorum && yes > no, quorum, part, yes, no);
  }

  function LiveStake(s: Stakes): nat -> int { (a: nat) => StakeOf(s, a) }

  function SetOf(list: seq<nat>): set<nat> { set a | a in list }

  lemma LastApart(list: seq<nat>)
    requires |list| > 0 && forall i, k :: 0 <= i < k < |list| ==> list[i] != list[k]
    ensures var n := |list| - 1;
            list[n] in SetOf(list) && SetOf(list) - {list[n]} == SetOf(list[..n])
  {
    var n := |list| - 1;
    assert list == list[..n] + [list[n]];
  }

  /** Both sides together never weigh more than what the voters have staked now. */
  lemma {:induction false} WeightIsBacked(v: Votes, s: Stakes, pid: nat, cap: nat, list: seq<nat>)
    requires forall i, k :: 0 <= i < k < |list| ==> list[i] != list[k]
    ensures SideWeight(v, s, pid, cap, true, list) + SideWeight(v, s, pid, cap, false, list)
         <= Sum(SetOf(list), LiveStake(s))
  {
    if list == [] {
      assert SetOf(list) == {};
    } else {
      var n := |list| - 1;
      var rest, a := list[..n], list[n];
      WeightIsBacked(v, s, pid, cap, rest);
      LastApart(list);
      SumPick(SetOf(list), LiveStake(s), a);
    }
  }

  /** Stake accounts add up to the recorded total. */
  ghost predicate Sound(s: Stakes) {
    Sum(s.staked.Keys, LiveStake(s)) == s.total && s.total <= U128_MAX / 10_000
  }

  /** When stakers accept, distinct addresses that hold at least the quorum of all stake now have voted,
      and more weight is for than against, no address above the cap. */
  lemma AcceptanceIsBacked(v: Votes, s: Stakes, pid: nat, capBps: nat, quorumBps: nat)
    requires Consistent(v, pid) && Sound(s) && quorumBps <= 10_000
    requires StakersSay(v, s, pid, capBps, quorumBps).accepted
    ensures var r, held := StakersSay(v, s, pid, capBps, quorumBps), Sum(SetOf(VotersOn(v, pid)), LiveStake(s));
            && r.yes > r.no && r.yes + r.no <= held <= s.total
            && held * 10_000 >= s.total * quorumBps
            && forall a :: Weight(v, s, pid, CapOf(s, capBps), a) <= CapOf(s, capBps)
  {
    var list := VotersOn(v, pid);
    WeightIsBacked(v, s, pid, CapOf(s, capBps), list);
    StakeAtMostTotal(s, SetOf(list));
    Scaled(s.total, quorumBps);
  }

  /** The addresses of the list that voted this way. */
  function OnSide(v: Votes, pid: nat, side: bool, list: seq<nat>): set<nat> {
    set a | a in list && a in BallotsOn(v, pid) && BallotsOn(v, pid)[a].support == side
  }

  /** What a ballot is worth: the stake when it was cast, but no more than is staked now or than the cap. */
  function Worth(v: Votes, s: Stakes, pid: nat, cap: nat): nat -> int {
    (a: nat) =>
      if a !in BallotsOn(v, pid) then 0
      else
        var w := BallotsOn(v, pid)[a].weight;
        if w <= StakeOf(s, a) && w <= cap then w else if StakeOf(s, a) <= cap then StakeOf(s, a) else cap
  }

  lemma SideNext(v: Votes, pid: nat, side: bool, list: seq<nat>)
    requires |list| > 0 && forall i, k :: 0 <= i < k < |list| ==> list[i] != list[k]
    ensures var n, bs := |list| - 1, BallotsOn(v, pid);
            if list[n] in bs && bs[list[n]].support == side
            then list[n] in OnSide(v, pid, side, list) && OnSide(v, pid, side, list) - {list[n]} == OnSide(v, pid, side, list[..n])
            else OnSide(v, pid, side, list) == OnSide(v, pid, side, list[..n])
  {
    var n := |list| - 1;
    assert list == list[..n] + [list[n]];
    LastApart(list);
  }

  lemma SideStep(v: Votes, s: Stakes, pid: nat, cap: nat, side: bool, list: seq<nat>)
    requires |list| > 0
    requires var n := |list| - 1; SideWeight(v, s, pid, cap, side, list[..n]) + StakeOf(s, list[n]) <= U128_MAX
    ensures var n, bs := |list| - 1, BallotsOn(v, pid);
            SideWeight(v, s, pid, cap, side, list) == SideWeight(v, s, pid, cap, side, list[..n])
              + if list[n] in bs && bs[list[n]].support == side then Worth(v, s, pid, cap)(list[n]) else 0
  {
  }

  lemma {:induction false} SideIs(v: Votes, s: Stakes, pid: nat, cap: nat, side: bool, list: seq<nat>)
    requires forall i, k :: 0 <= i < k < |list| ==> list[i] != list[k]
    requires Sum(SetOf(list), LiveStake(s)) <= U128_MAX
    ensures SideWeight(v, s, pid, cap, side, list) == Sum(OnSide(v, pid, side, list), Worth(v, s, pid, cap))
  {
    if list == [] {
      assert OnSide(v, pid, side, list) == {};
    } else {
      var n := |list| - 1;
      var rest, a := list[..n], list[n];
      LastApart(list);
      SumPick(SetOf(list), LiveStake(s), a);
      SideIs(v, s, pid, cap, side, rest);
      WeightIsBacked(v, s, pid, cap, rest);
      SideNext(v, pid, side, list);
      SideStep(v, s, pid, cap, side, list);
      if a in OnSide(v, pid, side, list) {
        SumPick(OnSide(v, pid, side, list), Worth(v, s, pid, cap), a);
      }
    }
  }

  /** The stakers accept exactly when the ballots, each at its worth, reach the quorum of all stake and more of them
      are in favour than against. */
  lemma StakersIff(v: Votes, s: Stakes, pid: nat, capBps: nat, quorumBps: nat)
    requires Consistent(v, pid) && Sound(s) && quorumBps <= 10_000 && capBps <= 10_000
    ensures var list, worth := VotersOn(v, pid), Worth(v, s, pid, s.total * capBps / 10_000);
            var yes, no := Sum(OnSide(v, pid, true, list), worth), Sum(OnSide(v, pid, false, list), worth);
            var r := StakersSay(v, s, pid, capBps, quorumBps);
            && (r.quorum <==> s.total > 0 && (yes + no) * 10_000 >= s.total * quorumBps)
            && (r.accepted <==> s.total > 0 && (yes + no) * 10_000 >= s.total * quorumBps && yes > no)
  {
    var list := VotersOn(v, pid);
    Scaled(s.total, quorumBps);
    Scaled(s.total, capBps);
    StakeAtMostTotal(s, SetOf(list));
    SideIs(v, s, pid, CapOf(s, capBps), true, list);
    SideIs(v, s, pid, CapOf(s, capBps), false, list);
    WeightIsBacked(v, s, pid, CapOf(s, capBps), list);
  }

  lemma Scaled(t: nat, q: nat)
    requires t <= U128_MAX / 10_000 && q <= 10_000
    ensures t * q <= U128_MAX
  {
    Grow(q, 10_000, t);
  }

  lemma StakeAtMostTotal(s: Stakes, some: set<nat>)
    requires Sound(s)
    ensures Sum(some, LiveStake(s)) <= s.total
  {
    var f, all := LiveStake(s), s.staked.Keys + some;
    SumWiden(s.staked.Keys, all, f);
    SumPart(some, all, f);
  }
}
