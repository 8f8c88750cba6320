/** The on-chain daily mint limit: a log pruned to the last twenty-four hours. */
module MintLimit {
  import opened Options
  import opened TimedLog
  import opened Words

  const DAY: nat := 86_400

  function Kept(entries: seq<Timed>, start: nat): seq<Timed> {
    if entries == [] then []
    else
      var n := |entries| - 1;
      Kept(entries[..n], start) + if entries[n].secs > start then [entries[n]] else []
  }

  function Total(entries: seq<Timed>): nat {
    if entries == [] then 0 else Total(entries[..|entries| - 1]) + entries[|entries| - 1].amount
  }

  /** The log written back, unless the limit would be passed. */
  function Checked(entries: seq<Timed>, amount: nat, now: nat, limit: nat): Option<seq<Timed>> {
    var kept := Kept(entries, SatSub(now, DAY));
    var minted := Total(kept) + amount;
    if minted <= U128_MAX && minted <= limit then Some(kept + [Timed(now, amount)]) else None
  }

  datatype Status = Status(minted: nat, remaining: nat, retryAfter: nat)

  function Wait(e: Timed, now: nat): nat { SatSub(e.secs + DAY, now) }

  /** The shortest wait over the entries, zero when there are none. */
  function Soonest(entries: seq<Timed>, now: nat): nat {
    if entries == [] then 0
    else
      var n := |entries| - 1;
      var w := Wait(entries[n], now);
      if n == 0 || w < Soonest(entries[..n], now) then w else Soonest(entries[..n], now)
  }

  function StatusAt(entries: seq<Timed>, now: nat, limit: nat): Status {
    var active := Kept(entries, SatSub(now, DAY));
    var remaining := SatSub(limit, Total(active));
    Status(Total(active), remaining, if remaining > 0 then 0 else Soonest(active, now))
  }

  class DailyMintTracker {
    var entries: seq<Timed>

    constructor ()
      ensures entries == []
    {
      entries := [];
    }

    method Retained(start: nat) returns (kept: seq<Timed>)
      ensures kept == Kept(entries, start)
    {
      kept := [];
      var i := 0;
      while i < |entries|
        invariant i <= |entries|
        invariant kept == Kept(entries[..i], start)
      {
        assert entries[..i + 1][..i] == entries[..i];
        if entries[i].secs > start {
          kept := kept + [entries[i]];
        }
        i := i + 1;
      }
      assert entries[..i] == entries;
    }

    /** A refused mint leaves the log as it was. */
    method CheckAndRecord(amount: nat, now: nat, limit: nat) returns (ok: bool)
      modifies this
      ensures match Checked(old(entries), amount, now, limit)
              case Some(log) => ok && entries == log
              case None => !ok && entries == old(entries)
    {
      var kept := Retained(SatSub(now, DAY));
      var minted := SumOf(kept);
      if minted + amount > U128_MAX || minted + amount > limit {
        return false;
      }
      entries := kept + [Timed(now, amount)];
      return true;
    }

    method DailyMintStatus(now: nat, limit: nat) returns (r: Status)
      ensures r == StatusAt(entries, now, limit)
    {
      var active := Retained(SatSub(now, DAY));
      var minted := SumOf(active);
      var remaining := SatSub(limit, minted);
      var retry := 0;
      if remaining == 0 {
        retry := SoonestOf(active, now);
      }
      r := Status(minted, remaining, retry);
    }
  }

  method SumOf(entries: seq<Timed>) returns (sum: nat)
    ensures sum == Total(entries)
  {
    sum := 0;
    var i := 0;
    while i < |entries|
      invariant i <= |entries|
      invariant sum == Total(entries[..i])
    {
      assert entries[..i + 1][..i] == entries[..i];
      sum, i := sum + entries[i].amount, i + 1;
    }
    assert entries[..i] == entries;
  }

  method SoonestOf(entries: seq<Timed>, now: nat) returns (min: nat)
    ensures min == Soonest(entries, now)
    ensures forall i :: 0 <= i < |entries| ==> min <= Wait(entries[i], now)
    ensures entries != [] ==> exists i :: 0 <= i < |entries| && min == Wait(entries[i], now)
  {
    min := 0;
    var i := 0;
    while i < |entries|
      invariant i <= |entries|
      invariant min == Soonest(entries[..i], now)
    {
      assert entries[..i + 1][..i] == entries[..i];
      var w := Wait(entries[i], now);
      if i == 0 || w < min {
        min := w;
      }
      i := i + 1;
    }
    assert entries[..i] == entries;
    SoonestIsLeast(entries, now);
  }

  lemma {:induction false} SoonestIsLeast(entries: seq<Timed>, now: nat)
    ensures forall i :: 0 <= i < |entries| ==> Soonest(entries, now) <= Wait(entries[i], now)
    ensures entries != [] ==> exists i :: 0 <= i < |entries| && Soonest(entries, now) == Wait(entries[i], now)
  {
    if entries != [] {
      var n := |entries| - 1;
      SoonestIsLeast(entries[..n], now);
      if n > 0 && Soonest(entries, now) != Wait(entries[n], now) {
        var i :| 0 <= i < n && Soonest(entries[..n], now) == Wait(entries[..n][i], now);
        assert Soonest(entries, now) == Wait(entries[i], now);
      } else {
        assert Soonest(entries, now) == Wait(entries[n], now);
      }
    }
  }

  // ----- the pruned log stands for the whole one -----

  /** What was minted in the twenty-four hours ending at `now`. */
  function Window(log: seq<Timed>, now: nat): nat {
    SumIn(log, now - DAY + 1, now + 1)
  }

  /** The part of it the code sees: on the first day second zero is left out. */
  function Counted(log: seq<Timed>, now: nat): nat {
    SumIn(log, SatSub(now, DAY) + 1, now + 1)
  }

  function AtZero(log: seq<Timed>): nat { SumIn(log, 0, 1) }

  lemma WindowIs(log: seq<Timed>, now: nat)
    ensures Window(log, now) == Counted(log, now) + if now < DAY then AtZero(log) else 0
  {
    if now < DAY {
      SumSplit(log, now - DAY + 1, 0, now + 1);
      SumNone(log, now - DAY + 1, 0);
      SumSplit(log, 0, 1, now + 1);
    }
  }

  /** A day is 86400 seconds, the last of them `now`. */
  lemma DayIs(log: seq<Timed>, now: nat)
    ensures Window(log, now) == SumIn(log, now - 86_399, now + 1)
  {
  }

  predicate UpTo(log: seq<Timed>, now: nat) {
    forall i :: 0 <= i < |log| ==> log[i].secs <= now
  }

  lemma {:induction false} KeptSums(entries: seq<Timed>, now: nat)
    requires UpTo(entries, now)
    ensures var kept := Kept(entries, SatSub(now, DAY));
            && UpTo(kept, now) && Total(kept) == Counted(entries, now)
            && forall i :: 0 <= i < |kept| ==> SatSub(now, DAY) < kept[i].secs
  {
    if entries != [] {
      var n := |entries| - 1;
      var start := SatSub(now, DAY);
      KeptSums(entries[..n], now);
      var kept := Kept(entries, start);
      if entries[n].secs > start {
        assert kept[..|kept| - 1] == Kept(entries[..n], start);
      } else {
        assert kept == Kept(entries[..n], start);
      }
    }
  }

  /** Pruning loses nothing that a later call can see. */
  lemma {:induction false} KeptCounted(entries: seq<Timed>, now: nat, later: nat)
    requires now <= later
    ensures Counted(Kept(entries, SatSub(now, DAY)), later) == Counted(entries, later)
  {
    if entries != [] {
      var n := |entries| - 1;
      var start := SatSub(now, DAY);
      KeptCounted(entries[..n], now, later);
      var kept := Kept(entries, start);
      if entries[n].secs > start {
        assert kept[..|kept| - 1] == Kept(entries[..n], start);
      } else {
        assert kept == Kept(entries[..n], start);
      }
    }
  }

  lemma SumPush(log: seq<Timed>, e: Timed, lo: int, hi: int)
    ensures SumIn(log + [e], lo, hi) == SumIn(log, lo, hi) + if lo <= e.secs < hi then e.amount else 0
  {
    assert (log + [e])[..|log|] == log;
  }

  // ----- runs -----

  datatype Mint = Mint(amount: nat, secs: nat)

  function StoredAfter(ms: seq<Mint>, limit: nat): seq<Timed> {
    if ms == [] then []
    else
      var n := |ms| - 1;
      var before := StoredAfter(ms[..n], limit);
      match Checked(before, ms[n].amount, ms[n].secs, limit)
      case Some(log) => log
      case None => before
  }

  function Accepted(ms: seq<Mint>, limit: nat): seq<Timed> {
    if ms == [] then []
    else
      var n := |ms| - 1;
      var log := Accepted(ms[..n], limit);
      if Checked(StoredAfter(ms[..n], limit), ms[n].amount, ms[n].secs, limit).Some?
      then log + [Timed(ms[n].secs, ms[n].amount)] else log
  }

  /** Time does not run backwards. */
  predicate Timely(ms: seq<Mint>) {
    forall i, k :: 0 <= i < k < |ms| ==> ms[i].secs <= ms[k].secs
  }

  function LastSecs(ms: seq<Mint>): nat {
    if ms == [] then 0 else ms[|ms| - 1].secs
  }

  /** From `now` on the stored log and the full one count alike. */
  ghost predicate Stands(stored: seq<Timed>, log: seq<Timed>, now: nat) {
    && UpTo(stored, now) && UpTo(log, now)
    && forall later: nat :: now <= later ==> Counted(stored, later) == Counted(log, later)
  }

  lemma StepStands(stored: seq<Timed>, log: seq<Timed>, before: nat, m: Mint, limit: nat)
    requires Stands(stored, log, before) && before <= m.secs
    requires Checked(stored, m.amount, m.secs, limit).Some?
    ensures Stands(Checked(stored, m.amount, m.secs, limit).value, log + [Timed(m.secs, m.amount)], m.secs)
  {
    var e := Timed(m.secs, m.amount);
    var kept := Kept(stored, SatSub(m.secs, DAY));
    KeptSums(stored, m.secs);
    forall later: nat | m.secs <= later
      ensures Counted(kept + [e], later) == Counted(log + [e], later)
    {
      CountedPush(stored, log, e, later);
    }
  }

  lemma CountedPush(stored: seq<Timed>, log: seq<Timed>, e: Timed, later: nat)
    requires e.secs <= later && Counted(stored, later) == Counted(log, later)
    ensures Counted(Kept(stored, SatSub(e.secs, DAY)) + [e], later) == Counted(log + [e], later)
  {
    var lo, hi := SatSub(later, DAY) + 1, later + 1;
    KeptCounted(stored, e.secs, later);
    SumPush(Kept(stored, SatSub(e.secs, DAY)), e, lo, hi);
    SumPush(log, e, lo, hi);
  }

  lemma {:induction false} RunStands(ms: seq<Mint>, limit: nat)
    requires Timely(ms)
    ensures Stands(StoredAfter(ms, limit), Accepted(ms, limit), LastSecs(ms))
  {
    if ms != [] {
      var n := |ms| - 1;
      RunStands(ms[..n], limit);
      var stored := StoredAfter(ms[..n], limit);
      if Checked(stored, ms[n].amount, ms[n].secs, limit).Some? {
        StepStands(stored, Accepted(ms[..n], limit), LastSecs(ms[..n]), ms[n], limit);
      }
    }
  }

  /** The code counts, over every run, exactly the accepted mints of the last twenty-four hours after second zero. */
  lemma CountsExactly(ms: seq<Mint>, limit: nat, amount: nat, now: nat)
    requires Timely(ms) && LastSecs(ms) <= now && limit <= U128_MAX
    ensures Checked(StoredAfter(ms, limit), amount, now, limit).Some?
       <==> Counted(Accepted(ms, limit), now) + amount <= limit
  {
    RunStands(ms, limit);
    KeptSums(StoredAfter(ms, limit), now);
  }

  lemma {:induction false} CountedHolds(ms: seq<Mint>, limit: nat, end: nat)
    requires Timely(ms) && limit <= U128_MAX
    ensures Counted(Accepted(ms, limit), end) <= limit
  {
    if ms != [] {
      var n := |ms| - 1;
      var log := Accepted(ms[..n], limit);
      CountedHolds(ms[..n], limit, end);
      if Accepted(ms, limit) != log {
        var e := Timed(ms[n].secs, ms[n].amount);
        SumPush(log, e, SatSub(end, DAY) + 1, end + 1);
        if SatSub(end, DAY) < e.secs <= end {
          CountsExactly(ms[..n], limit, e.amount, e.secs);
          RunStands(ms[..n], limit);
          EarlierCounted(log, e.secs, end);
        }
      }
    }
  }

  lemma EarlierCounted(log: seq<Timed>, now: nat, end: nat)
    requires UpTo(log, now) && SatSub(end, DAY) < now <= end
    ensures Counted(log, end) <= Counted(log, now)
  {
    SumSplit(log, SatSub(now, DAY) + 1, SatSub(end, DAY) + 1, end + 1);
    SumSplit(log, SatSub(now, DAY) + 1, now + 1, end + 1);
    SumNone(log, now + 1, end + 1);
  }

  /** The limiter is an exact sliding window, one that accepts a mint if and only if it and everything accepted in
      the last twenty-four hours stay within the limit, exactly when the first day is over or nothing was minted
      at second zero. */
  lemma ExactWindow(ms: seq<Mint>, limit: nat, now: nat)
    requires Timely(ms) && LastSecs(ms) <= now && limit <= U128_MAX
    ensures (forall amount: nat :: Checked(StoredAfter(ms, limit), amount, now, limit).Some?
                              <==> Window(Accepted(ms, limit), now) + amount <= limit)
       <==> now >= DAY || AtZero(Accepted(ms, limit)) == 0
  {
    var log := Accepted(ms, limit);
    WindowIs(log, now);
    CountedHolds(ms, limit, now);
    forall amount: nat
      ensures Checked(StoredAfter(ms, limit), amount, now, limit).Some? <==> Counted(log, now) + amount <= limit
    {
      CountsExactly(ms, limit, amount, now);
    }
    var most := limit - Counted(log, now);
    assert Checked(StoredAfter(ms, limit), most, now, limit).Some?;
  }

  /** Accepted mints of every twenty-four hours sum to at most the limit exactly when those of the first day do. */
  lemma LimitHolds(ms: seq<Mint>, limit: nat)
    requires Timely(ms) && limit <= U128_MAX
    ensures (forall end: nat :: Window(Accepted(ms, limit), end) <= limit)
       <==> Window(Accepted(ms, limit), DAY - 1) <= limit
  {
    var log := Accepted(ms, limit);
    forall end: nat | Window(log, DAY - 1) <= limit
      ensures Window(log, end) <= limit
    {
      WindowIs(log, end);
      WindowIs(log, DAY - 1);
      CountedHolds(ms, limit, end);
      if end < DAY {
        SumNarrow(log, 1, 1, end + 1, DAY);
      }
    }
  }

  /** With nothing at second zero, which real timestamps guarantee, it always holds. */
  lemma LimitAlwaysHolds(ms: seq<Mint>, limit: nat, end: nat)
    requires Timely(ms) && limit <= U128_MAX && AtZero(Accepted(ms, limit)) == 0
    ensures Window(Accepted(ms, limit), end) <= limit
  {
    WindowIs(Accepted(ms, limit), end);
    CountedHolds(ms, limit, end);
  }

  /** The reported remainder is exactly the largest amount the next check accepts. */
  lemma RemainingIsExact(ms: seq<Mint>, limit: nat, amount: nat, now: nat)
    requires Timely(ms) && LastSecs(ms) <= now && limit <= U128_MAX
    ensures var s := StatusAt(StoredAfter(ms, limit), now, limit);
            && s.minted == Counted(Accepted(ms, limit), now) && s.minted + s.remaining == limit
            && (Checked(StoredAfter(ms, limit), amount, now, limit).Some? <==> amount <= s.remaining)
  {
    RunStands(ms, limit);
    KeptSums(StoredAfter(ms, limit), now);
    CountsExactly(ms, limit, amount, now);
    CountedHolds(ms, limit, now);
  }

  lemma {:induction false} WaitKeeps(entries: seq<Timed>, now: nat, later: nat)
    requires UpTo(entries, now) && now <= later
    requires forall i :: 0 <= i < |entries| ==> entries[i].secs > 0 && later < now + Wait(entries[i], now)
    ensures Counted(entries, later) == Total(entries)
  {
    if entries != [] {
      var n := |entries| - 1;
      assert later < now + Wait(entries[n], now);
      WaitKeeps(entries[..n], now, later);
    }
  }

  lemma OneOnlyAdds(ms: seq<Mint>, limit: nat, end: nat)
    requires ms != []
    ensures Counted(Accepted(ms, limit), end) >= Counted(Accepted(ms[..|ms| - 1], limit), end)
  {
    var n := |ms| - 1;
    SumPush(Accepted(ms[..n], limit), Timed(ms[n].secs, ms[n].amount), SatSub(end, DAY) + 1, end + 1);
  }

  lemma {:induction false} MoreOnlyAdds(ms: seq<Mint>, more: seq<Mint>, limit: nat, end: nat)
    ensures Counted(Accepted(ms + more, limit), end) >= Counted(Accepted(ms, limit), end)
  {
    if more == [] {
      assert ms + more == ms;
    } else {
      var n := |more| - 1;
      MoreOnlyAdds(ms, more[..n], limit, end);
      OneOnlyAdds(ms + more, limit, end);
      assert (ms + more)[..|ms + more| - 1] == ms + more[..n];
    }
  }

  /** While the limit is used up, nothing positive is minted before the reported wait is over,
      whatever is requested in between. */
  lemma RetryIsSound(ms: seq<Mint>, more: seq<Mint>, limit: nat, now: nat, amount: nat, later: nat)
    requires Timely(ms + more) && LastSecs(ms) <= now && limit <= U128_MAX
    requires now <= later && LastSecs(ms + more) <= later && amount > 0
    requires later < now + StatusAt(StoredAfter(ms, limit), now, limit).retryAfter
    ensures Checked(StoredAfter(ms + more, limit), amount, later, limit).None?
  {
    var stored := StoredAfter(ms, limit);
    var active := Kept(stored, SatSub(now, DAY));
    assert Timely(ms) by {
      assert forall i :: 0 <= i < |ms| ==> (ms + more)[i] == ms[i];
    }
    RunStands(ms, limit);
    KeptSums(stored, now);
    SoonestIsLeast(active, now);
    WaitKeeps(active, now, later);
    KeptCounted(stored, now, later);
    MoreOnlyAdds(ms, more, limit, later);
    CountsExactly(ms + more, limit, amount, later);
  }

  lemma {:induction false} KeptAre(entries: seq<Timed>, start: nat, e: Timed)
    requires e in Kept(entries, start)
    ensures e.secs > start && e in entries
  {
    var n := |entries| - 1;
    assert entries == entries[..n] + [entries[n]];
    if e in Kept(entries[..n], start) {
      KeptAre(entries[..n], start, e);
    }
  }

  lemma {:induction false} KeptDrops(entries: seq<Timed>, lo: nat, hi: nat, e: Timed)
    requires lo <= hi
    ensures Total(Kept(entries, hi)) <= Total(Kept(entries, lo))
    ensures e in entries && lo < e.secs <= hi ==> Total(Kept(entries, hi)) + e.amount <= Total(Kept(entries, lo))
  {
    if entries != [] {
      var n := |entries| - 1;
      KeptDrops(entries[..n], lo, hi, e);
      assert entries == entries[..n] + [entries[n]];
      TotalSnoc(Kept(entries[..n], lo), entries[n]);
      TotalSnoc(Kept(entries[..n], hi), entries[n]);
    }
  }

  lemma TotalSnoc(entries: seq<Timed>, e: Timed)
    ensures Total(entries + [e]) == Total(entries) + e.amount && entries + [] == entries
  {
    assert (entries + [e])[..|entries|] == entries;
  }

  lemma {:induction false} StoredPositive(ms: seq<Mint>, limit: nat, e: Timed)
    requires forall i :: 0 <= i < |ms| ==> ms[i].amount > 0
    requires e in StoredAfter(ms, limit)
    ensures e.amount > 0
  {
    if ms != [] {
      var n := |ms| - 1;
      var before, m := StoredAfter(ms[..n], limit), ms[n];
      var kept := Kept(before, SatSub(m.secs, DAY));
      if e in kept {
        KeptAre(before, SatSub(m.secs, DAY), e);
      }
      if e in before {
        StoredPositive(ms[..n], limit, e);
      }
    }
  }

  /** And once it is over something is: with nothing minted in between, the first unit fits again exactly then. */
  lemma RetryIsEnough(ms: seq<Mint>, limit: nat, now: nat)
    requires Timely(ms) && LastSecs(ms) <= now && 0 < limit <= U128_MAX
    requires forall i :: 0 <= i < |ms| ==> ms[i].amount > 0
    ensures var wait := StatusAt(StoredAfter(ms, limit), now, limit).retryAfter;
            && (wait == 0 <==> StatusAt(StoredAfter(ms, limit), now, limit).remaining > 0)
            && Checked(StoredAfter(ms, limit), 1, now + wait, limit).Some?
  {
    var stored := StoredAfter(ms, limit);
    RemainingIsExact(ms, limit, 1, now);
    forall e | e in stored
      ensures e.amount > 0
    {
      StoredPositive(ms, limit, e);
    }
    WaitFrees(stored, limit, now);
  }

  lemma WaitFrees(entries: seq<Timed>, limit: nat, now: nat)
    requires 0 < limit <= U128_MAX && Total(Kept(entries, SatSub(now, DAY))) <= limit
    requires forall e :: e in entries ==> e.amount > 0
    ensures var s := StatusAt(entries, now, limit);
            (s.retryAfter == 0 <==> s.remaining > 0) && Checked(entries, 1, now + s.retryAfter, limit).Some?
  {
    var active := Kept(entries, SatSub(now, DAY));
    if StatusAt(entries, now, limit).remaining == 0 {
      SoonestIsLeast(active, now);
      assert active != [];
      var i :| 0 <= i < |active| && Soonest(active, now) == Wait(active[i], now);
      KeptAre(entries, SatSub(now, DAY), active[i]);
      FreesUp(entries, limit, now, active[i]);
    }
  }

  lemma FreesUp(entries: seq<Timed>, limit: nat, now: nat, e: Timed)
    requires e in entries && SatSub(now, DAY) < e.secs && e.amount > 0
    requires Total(Kept(entries, SatSub(now, DAY))) <= limit <= U128_MAX
    ensures Wait(e, now) > 0 && Checked(entries, 1, now + Wait(e, now), limit).Some?
  {
    assert now + Wait(e, now) == e.secs + DAY;
    KeptDrops(entries, SatSub(now, DAY), e.secs, e);
  }

  lemma ZeroPushed(entries: seq<Timed>, limit: nat)
    requires limit <= U128_MAX && Kept(entries, 0) == []
    ensures Checked(entries, limit, 0, limit) == Some([Timed(0, limit)])
  {
    var none: seq<Timed> := [];
    assert none + [Timed(0, limit)] == [Timed(0, limit)];
  }

  lemma ZeroRun(limit: nat)
    requires limit <= U128_MAX
    ensures var m, e := Mint(limit, 0), Timed(0, limit);
            StoredAfter([m], limit) == [e] && Accepted([m], limit) == [e] && Kept([e], 0) == []
  {
    var m, e := Mint(limit, 0), Timed(0, limit);
    assert [m][..0] == [] && [e][..0] == [];
    ZeroPushed([], limit);
  }

  /** It can fail: twice the limit is minted at second zero. */
  lemma SecondZeroForgotten(limit: nat)
    requires 0 < limit <= U128_MAX
    ensures var ms := [Mint(limit, 0), Mint(limit, 0)];
            Timely(ms) && Window(Accepted(ms, limit), 0) == 2 * limit
  {
    var m, e := Mint(limit, 0), Timed(0, limit);
    ZeroRun(limit);
    ZeroPushed([e], limit);
    assert [m, m][..1] == [m] && [e] + [e] == [e, e];
    assert Accepted([m, m], limit) == [e] + [e];
    SumPush([e], e, 1 - DAY, 1);
    SumPush([], e, 1 - DAY, 1);
    assert [] + [e] == [e];
  }
}
