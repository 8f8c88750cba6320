/** Amounts accepted at moments in time, oldest first. */
module TimedLog {
  datatype Timed = Timed(secs: nat, amount: nat)

  /** Accepted between the seconds `lo` and `hi`, the latter left out. */
  function SumIn(log: seq<Timed>, lo: int, hi: int): nat {
    if log == [] then 0
    else
      var e := log[|log| - 1];
      SumIn(log[..|log| - 1], lo, hi) + if lo <= e.secs < hi then e.amount else 0
  }

  predicate Ordered(log: seq<Timed>) {
    forall i, k :: 0 <= i < k < |log| ==> log[i].secs <= log[k].secs
  }

  lemma {:induction false} SumNone(log: seq<Timed>, lo: int, hi: int)
    requires forall i :: 0 <= i < |log| ==> !(lo <= log[i].secs < hi)
    ensures SumIn(log, lo, hi) == 0
  {
    if log != [] {
      SumNone(log[..|log| - 1], lo, hi);
    }
  }

  lemma {:induction false} SumSplit(log: seq<Timed>, lo: int, mid: int, hi: int)
    requires lo <= mid <= hi
    ensures SumIn(log, lo, hi) == SumIn(log, lo, mid) + SumIn(log, mid, hi)
  {
    if log != [] {
      SumSplit(log[..|log| - 1], lo, mid, hi);
    }
  }

  lemma SumNarrow(log: seq<Timed>, lo: int, lo': int, hi': int, hi: int)
    requires lo <= lo' <= hi' <= hi
    ensures SumIn(log, lo', hi') <= SumIn(log, lo, hi)
  {
    SumSplit(log, lo, lo', hi);
    SumSplit(log, lo', hi', hi);
  }

  /** What came at or after `hi` does not count. */
  lemma {:induction false} SumPrefix(log: seq<Timed>, k: nat, lo: int, hi: int)
    requires k <= |log| && forall i :: k <= i < |log| ==> log[i].secs >= hi
    ensures SumIn(log[..k], lo, hi) == SumIn(log, lo, hi)
    decreases |log|
  {
    if k == |log| {
      assert log[..k] == log;
    } else {
      var n := |log| - 1;
      assert log[..n][..k] == log[..k];
      SumPrefix(log[..n], k, lo, hi);
    }
  }

  /** The last entry between `lo` and `hi`, if there is one. */
  lemma {:induction false} LastIn(log: seq<Timed>, lo: int, hi: int) returns (k: int)
    requires Ordered(log)
    ensures -1 <= k < |log|
    ensures k >= 0 ==> lo <= log[k].secs < hi && forall i :: k < i < |log| ==> log[i].secs >= hi
    ensures k < 0 ==> SumIn(log, lo, hi) == 0
  {
    if log == [] {
      k := -1;
    } else {
      var n := |log| - 1;
      if lo <= log[n].secs < hi {
        k := n;
      } else {
        k := LastIn(log[..n], lo, hi);
        if k < 0 {
          assert SumIn(log, lo, hi) == 0;
        }
      }
    }
  }
}
