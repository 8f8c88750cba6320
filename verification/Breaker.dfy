/** The pool-wide volume breaker: two sixty-second buckets that stand for a sliding window. */
module Breaker {
  import opened Options
  import opened TimedLog
  import opened Words

  const WINDOW: nat := 60

  const MAX_SWAP_PERCENT: nat := 5

  datatype Direction = ZerenyaIn | ZagrosIn

  datatype Bucket = Bucket(current: nat, previous: nat)

  datatype Tracker = Tracker(start: nat, zerenya: Bucket, zagros: Bucket)

  function Of(t: Tracker, d: Direction): Bucket {
    if d == ZerenyaIn then t.zerenya else t.zagros
  }

  function Align(secs: nat): nat { secs - secs % WINDOW }

  function Fresh(secs: nat): Tracker {
    Tracker(Align(secs), Bucket(0, 0), Bucket(0, 0))
  }

  function Shifted(b: Bucket, quiet: bool): Bucket {
    Bucket(0, if quiet then 0 else b.current)
  }

  function Advanced(t: Tracker, secs: nat): Tracker {
    var to := Align(secs);
    if to <= t.start then t
    else
      var quiet := to - t.start >= 2 * WINDOW;
      Tracker(to, Shifted(t.zerenya, quiet), Shifted(t.zagros, quiet))
  }

  function Remaining(start: nat, secs: nat): nat {
    var elapsed := if secs < start then 0 else secs - start;
    WINDOW - (if elapsed < WINDOW then elapsed else WINDOW)
  }

  function Effective(t: Tracker, d: Direction, secs: nat): nat {
    SatAdd(Of(t, d).current, SatMul(Of(t, d).previous, Remaining(t.start, secs)) / WINDOW)
  }

  function Added(t: Tracker, d: Direction, amount: nat): Tracker {
    match d
    case ZerenyaIn => t.(zerenya := t.zerenya.(current := SatAdd(t.zerenya.current, amount)))
    case ZagrosIn => t.(zagros := t.zagros.(current := SatAdd(t.zagros.current, amount)))
  }

  function Cap(reserve: nat): nat { SatMul(reserve, MAX_SWAP_PERCENT) / 100 }

  function Loaded(stored: Option<Tracker>, secs: nat): Tracker {
    match stored case Some(t) => t case None => Fresh(secs)
  }

  /** The tracker written back and the new effective volume, unless the cap would be passed. */
  function Checked(stored: Option<Tracker>, d: Direction, amount: nat, reserve: nat,
      secs: nat): Option<(Tracker, nat)> {
    var t := Advanced(Loaded(stored, secs), secs);
    var volume := Effective(t, d, secs) + amount;
    if volume <= U128_MAX && volume <= Cap(reserve) then Some((Added(t, d, amount), volume)) else None
  }

  class SwapVolumeTracker {
    var windowStart: nat
    var currentZerenya: nat
    var currentZagros: nat
    var previousZerenya: nat
    var previousZagros: nat

    constructor (t: Tracker)
      ensures View() == t
    {
      windowStart := t.start;
      currentZerenya, previousZerenya := t.zerenya.current, t.zerenya.previous;
      currentZagros, previousZagros := t.zagros.current, t.zagros.previous;
    }

    function View(): Tracker
      reads this
    {
      Tracker(windowStart, Bucket(currentZerenya, previousZerenya), Bucket(currentZagros, previousZagros))
    }

    method AdvanceTo(secs: nat)
      modifies this
      ensures View() == Advanced(old(View()), secs)
    {
      var to := Align(secs);
      if to <= windowStart {
        return;
      }
      if to - windowStart >= 2 * WINDOW {
        previousZerenya, previousZagros := 0, 0;
      } else {
        previousZerenya, previousZagros := currentZerenya, currentZagros;
      }
      currentZerenya, currentZagros := 0, 0;
      windowStart := to;
    }

    method EffectiveVolume(d: Direction, secs: nat) returns (v: nat)
      ensures v == Effective(View(), d, secs)
    {
      var current, previous := currentZerenya, previousZerenya;
      if d == ZagrosIn {
        current, previous := currentZagros, previousZagros;
      }
      v := SatAdd(current, SatMul(previous, Remaining(windowStart, secs)) / WINDOW);
    }

    method Add(d: Direction, amount: nat)
      modifies this
      ensures View() == Added(old(View()), d, amount)
    {
      match d {
        case ZerenyaIn => currentZerenya := SatAdd(currentZerenya, amount);
        case ZagrosIn => currentZagros := SatAdd(currentZagros, amount);
      }
    }
  }

  /** The tracker record of the state. */
  class VolumeRecord {
    var stored: Option<Tracker>

    constructor ()
      ensures stored == None
    {
      stored := None;
    }

    /** A refused swap leaves the record as it was. */
    method CheckAndRecord(d: Direction, amount: nat, reserve: nat, secs: nat) returns (r: Option<nat>)
      modifies this
      ensures match Checked(old(stored), d, amount, reserve, secs)
              case Some(out) => stored == Some(out.0) && r == Some(out.1)
              case None => stored == old(stored) && r == None
    {
      var tracker := new SwapVolumeTracker(Loaded(stored, secs));
      tracker.AdvanceTo(secs);
      var current := tracker.EffectiveVolume(d, secs);
      if current + amount > U128_MAX {
        return None;
      }
      if current + amount > Cap(reserve) {
        return None;
      }
      tracker.Add(d, amount);
      stored := Some(tracker.View());
      return Some(current + amount);
    }
  }

  // ----- the log of accepted swaps -----

  /** `p` weighted by `r` of the sixty seconds; the depth keeps the product folded until `ShareIs` opens it. */
  function Share(p: nat, r: nat, depth: nat := 3): nat
  {
    if depth == 0 then p * r / WINDOW else Share(p, r, depth - 1)
  }

  lemma {:induction false} ShareIs(p: nat, r: nat, depth: nat := 3)
    ensures Share(p, r, depth) == p * r / WINDOW
    decreases depth
  {
    if depth > 0 {
      ShareIs(p, r, depth - 1);
    }
  }

  lemma Lighter(p: nat, r: nat, r': nat)
    requires r <= r'
    ensures Share(p, r) <= Share(p, r')
  {
    ShareIs(p, r);
    ShareIs(p, r');
    Scale(p, r, r');
  }

  lemma AtMostWhole(p: nat, r: nat)
    requires r <= WINDOW
    ensures Share(p, r) <= p
  {
    Lighter(p, r, WINDOW);
    ShareIs(p, WINDOW);
  }

  lemma Scale(p: nat, r: nat, r': nat)
    requires r <= r'
    ensures p * r <= p * r'
  {
  }

  /** The window of `secs`, and the weighted window before it. */
  function Volume(log: seq<Timed>, secs: nat): nat {
    var w := Align(secs);
    SumIn(log, w, w + WINDOW) + Share(SumIn(log, w - WINDOW, w), WINDOW - (secs - w))
  }

  /** When swap `i` was accepted, its window and the weighted window before stayed within `c`. */
  predicate FitsAt(log: seq<Timed>, i: nat, c: nat)
    requires i < |log|
  {
    Volume(log[..i + 1], log[i].secs) <= c
  }

  predicate Fitting(log: seq<Timed>, c: nat) {
    forall i :: 0 <= i < |log| ==> FitsAt(log, i, c)
  }

  /** The stored buckets are the sums of the two latest windows. */
  predicate Counts(b: Bucket, start: nat, log: seq<Timed>) {
    && b.current == SumIn(log, start, start + WINDOW)
    && b.previous == SumIn(log, start - WINDOW, start)
    && b.current <= U128_MAX / 100 && b.previous <= U128_MAX / 100
    && start % WINDOW == 0
    && forall i :: 0 <= i < |log| ==> log[i].secs < start + WINDOW
  }

  lemma AdvancedBuckets(t: Tracker, d: Direction, log: seq<Timed>, secs: nat)
    requires Counts(Of(t, d), t.start, log) && t.start <= secs
    ensures var u := Advanced(t, secs); u.start == Align(secs) && Counts(Of(u, d), u.start, log)
  {
    var u := Advanced(t, secs);
    if Align(secs) > t.start {
      SumNone(log, u.start, u.start + WINDOW);
      if u.start - t.start >= 2 * WINDOW {
        SumNone(log, u.start - WINDOW, u.start);
      }
    }
  }

  /** What the code computes at `secs` is the weighted sum over the log, with no saturation. */
  lemma AdvancedCounts(t: Tracker, d: Direction, log: seq<Timed>, secs: nat)
    requires Counts(Of(t, d), t.start, log) && t.start <= secs
    ensures var u := Advanced(t, secs);
            && u.start == Align(secs)
            && Counts(Of(u, d), u.start, log)
            && Effective(u, d, secs) == Volume(log, secs)
  {
    AdvancedBuckets(t, d, log, secs);
    var u := Advanced(t, secs);
    var r := WINDOW - (secs - u.start);
    assert Remaining(u.start, secs) == r;
    WeightBound(Of(u, d).previous, r);
    ShareIs(Of(u, d).previous, r);
  }

  lemma WeightBound(p: nat, r: nat)
    requires p <= U128_MAX / 100 && r <= WINDOW
    ensures p * r <= U128_MAX && p * r / WINDOW <= p
  {
    Scale(p, r, WINDOW);
    ShareIs(p, r);
    AtMostWhole(p, r);
  }

  // ----- runs of requests -----

  datatype Request = Request(d: Direction, amount: nat, reserve: nat, secs: nat)

  function Result(stored: Option<Tracker>, r: Request): Option<(Tracker, nat)> {
    Checked(stored, r.d, r.amount, r.reserve, r.secs)
  }

  function StoredAfter(rs: seq<Request>): Option<Tracker> {
    if rs == [] then None
    else
      var n := |rs| - 1;
      match Result(StoredAfter(rs[..n]), rs[n])
      case Some(out) => Some(out.0)
      case None => StoredAfter(rs[..n])
  }

  /** The accepted swaps of one direction. */
  function Accepted(rs: seq<Request>, d: Direction): seq<Timed> {
    if rs == [] then []
    else
      var n := |rs| - 1;
      var log := Accepted(rs[..n], d);
      if rs[n].d == d && Result(StoredAfter(rs[..n]), rs[n]).Some? then log + [Timed(rs[n].secs, rs[n].amount)]
      else log
  }

  predicate Timely(rs: seq<Request>) {
    forall i, k :: 0 <= i < k < |rs| ==> rs[i].secs <= rs[k].secs
  }

  predicate Tracks(stored: Option<Tracker>, d: Direction, log: seq<Timed>, c: nat, now: nat) {
    && (match stored
        case None => log == []
        case Some(t) => Counts(Of(t, d), t.start, log) && t.start <= now)
    && Ordered(log) && Fitting(log, c)
    && forall i :: 0 <= i < |log| ==> log[i].secs <= now
  }

  lemma FittingPush(log: seq<Timed>, e: Timed, c: nat)
    requires Fitting(log, c) && FitsAt(log + [e], |log|, c)
    ensures Fitting(log + [e], c)
  {
    var more := log + [e];
    forall i | 0 <= i < |more|
      ensures FitsAt(more, i, c)
    {
      if i < |log| {
        assert more[..i + 1] == log[..i + 1] && more[i] == log[i];
        assert FitsAt(log, i, c);
      }
    }
  }

  lemma LoadedTracks(stored: Option<Tracker>, d: Direction, log: seq<Timed>, c: nat, now: nat, secs: nat)
    requires Tracks(stored, d, log, c, now) && now <= secs
    ensures var t := Loaded(stored, secs); Counts(Of(t, d), t.start, log) && t.start <= secs
  {
  }

  lemma PushedCounts(t: Tracker, d: Direction, log: seq<Timed>, amount: nat, reserve: nat, secs: nat, c: nat)
    requires Counts(Of(t, d), t.start, log) && t.start == Align(secs) && Fitting(log, c)
    requires Effective(t, d, secs) == Volume(log, secs)
    requires Effective(t, d, secs) + amount <= Cap(reserve) <= c
    ensures Counts(Of(Added(t, d, amount), d), t.start, log + [Timed(secs, amount)])
    ensures Fitting(log + [Timed(secs, amount)], c)
  {
    var e := Timed(secs, amount);
    var more := log + [e];
    assert more[..|more| - 1] == log && more[..|log| + 1] == more;
    assert Cap(reserve) <= U128_MAX / 100;
    FittingPush(log, e, c);
  }

  lemma StepTracks(stored: Option<Tracker>, d: Direction, log: seq<Timed>, c: nat, now: nat, r: Request)
    requires Tracks(stored, d, log, c, now) && now <= r.secs && Cap(r.reserve) <= c
    requires Result(stored, r).Some?
    ensures Tracks(Some(Result(stored, r).value.0), d,
              if r.d == d then log + [Timed(r.secs, r.amount)] else log, c, r.secs)
  {
    LoadedTracks(stored, d, log, c, now, r.secs);
    var t := Loaded(stored, r.secs);
    AdvancedCounts(t, d, log, r.secs);
    if r.d == d {
      PushedCounts(Advanced(t, r.secs), d, log, r.amount, r.reserve, r.secs, c);
    }
  }

  /** Over any run with non-decreasing time and caps of at most `c`, the two stored buckets are
      exactly the accepted volumes of the two latest windows, and nothing ever saturates. */
  lemma {:induction false} RunTracks(rs: seq<Request>, d: Direction, c: nat)
    requires Timely(rs) && forall i :: 0 <= i < |rs| ==> Cap(rs[i].reserve) <= c
    ensures Tracks(StoredAfter(rs), d, Accepted(rs, d), c, if rs == [] then 0 else rs[|rs| - 1].secs)
  {
    if rs != [] {
      var n := |rs| - 1;
      RunTracks(rs[..n], d, c);
      var now := if n == 0 then 0 else rs[n - 1].secs;
      var stored, log := StoredAfter(rs[..n]), Accepted(rs[..n], d);
      if Result(stored, rs[n]).Some? {
        StepTracks(stored, d, log, c, now, rs[n]);
      } else {
        LaterTracks(stored, d, log, c, now, rs[n].secs);
      }
    }
  }

  lemma LaterTracks(stored: Option<Tracker>, d: Direction, log: seq<Timed>, c: nat, now: nat, later: nat)
    requires Tracks(stored, d, log, c, now) && now <= later
    ensures Tracks(stored, d, log, c, later)
  {
  }

  // ----- the bounds -----

  lemma WindowFits(log: seq<Timed>, w: nat, c: nat)
    requires Ordered(log) && Fitting(log, c) && w % WINDOW == 0
    ensures SumIn(log, w, w + WINDOW) <= c
  {
    var k := LastIn(log, w, w + WINDOW);
    if k >= 0 {
      assert FitsAt(log, k, c);
      assert Align(log[k].secs) == w;
      SumPrefix(log, k + 1, w, w + WINDOW);
    }
  }

  /** Inside one window the effective volume only shrinks after its last swap. */
  lemma LaterVolume(log: seq<Timed>, k: nat, secs: nat)
    requires k < |log| && Align(log[k].secs) == Align(secs) && log[k].secs <= secs
    requires forall i :: k < i < |log| ==> log[i].secs >= Align(secs) + WINDOW
    ensures Volume(log, secs) <= Volume(log[..k + 1], log[k].secs)
  {
    var w := Align(secs);
    SumPrefix(log, k + 1, w, w + WINDOW);
    SumPrefix(log, k + 1, w - WINDOW, w);
    Lighter(SumIn(log, w - WINDOW, w), WINDOW - (secs - w), WINDOW - (log[k].secs - w));
  }

  /** What is left of the cap at second `secs` of a window never falls below zero. */
  lemma EffectiveFits(log: seq<Timed>, secs: nat, c: nat)
    requires Ordered(log) && Fitting(log, c) && forall i :: 0 <= i < |log| ==> log[i].secs <= secs
    ensures Volume(log, secs) <= c
  {
    var w := Align(secs);
    var k := LastIn(log, w, w + WINDOW);
    var p := SumIn(log, w - WINDOW, w);
    if k >= 0 {
      assert FitsAt(log, k, c);
      assert Align(log[k].secs) == w;
      LaterVolume(log, k, secs);
    } else {
      AtMostWhole(p, WINDOW - (secs - w));
      if w >= WINDOW {
        WindowFits(log, w - WINDOW, c);
      } else {
        SumNone(log, w - WINDOW, w);
      }
    }
  }

  /** At every later moment the effective volume of either direction is within the cap. */
  lemma EffectiveWithinCap(rs: seq<Request>, d: Direction, c: nat, secs: nat)
    requires Timely(rs) && forall i :: 0 <= i < |rs| ==> Cap(rs[i].reserve) <= c && rs[i].secs <= secs
    ensures Effective(Advanced(Loaded(StoredAfter(rs), secs), secs), d, secs) <= c
  {
    RunTracks(rs, d, c);
    var now := if rs == [] then 0 else rs[|rs| - 1].secs;
    var log := Accepted(rs, d);
    LoadedTracks(StoredAfter(rs), d, log, c, now, secs);
    AdvancedCounts(Loaded(StoredAfter(rs), secs), d, log, secs);
    EffectiveFits(log, secs, c);
  }

  /** Sixty consecutive seconds that straddle a boundary. */
  lemma StraddleFits(log: seq<Timed>, w: nat, s: nat, c: nat)
    requires Ordered(log) && Fitting(log, c) && w % WINDOW == 0 && w < s < w + WINDOW
    ensures SumIn(log, s, s + WINDOW) <= c + (58 * c + 59) / 60
  {
    var b := w + WINDOW;
    SumSplit(log, s, b, s + WINDOW);
    SumNarrow(log, w, s, b, b);
    WindowFits(log, w, c);
    var p := SumIn(log, w, b);
    var k := LastIn(log, b, s + WINDOW);
    if k >= 0 {
      NextFits(log, k, b, s, c);
      Rounding(p, c, SumIn(log, s, b), SumIn(log, b, s + WINDOW));
    }
  }

  lemma Rounding(p: nat, c: nat, x: nat, y: nat)
    requires x <= p <= c && y + Share(p, 2) <= c
    ensures x + y <= c + (58 * c + 59) / 60
  {
    ShareIs(p, 2);
  }

  /** What the second window takes leaves room for two sixtieths of the first. */
  lemma NextFits(log: seq<Timed>, k: nat, b: nat, s: nat, c: nat)
    requires Ordered(log) && Fitting(log, c) && b % WINDOW == 0 && s < b < s + WINDOW
    requires k < |log| && b <= log[k].secs < s + WINDOW
    requires forall i :: k < i < |log| ==> log[i].secs >= s + WINDOW
    ensures SumIn(log, b, s + WINDOW) + Share(SumIn(log, b - WINDOW, b), 2) <= c
  {
    var t := log[k].secs;
    assert FitsAt(log, k, c);
    assert Align(t) == b;
    SumPrefix(log, k + 1, b, s + WINDOW);
    SumPrefix(log, k + 1, b - WINDOW, b);
    SumNarrow(log[..k + 1], b, b, s + WINDOW, b + WINDOW);
    Lighter(SumIn(log, b - WINDOW, b), 2, WINDOW - (t - b));
  }

  /** The breaker bound: no sixty consecutive seconds accept more than `c + ceil(58c / 60)` in one direction. */
  lemma SixtySecondBound(rs: seq<Request>, d: Direction, c: nat, s: nat)
    requires Timely(rs) && forall i :: 0 <= i < |rs| ==> Cap(rs[i].reserve) <= c
    ensures SumIn(Accepted(rs, d), s, s + WINDOW) <= c + (58 * c + 59) / 60
  {
    RunTracks(rs, d, c);
    var log := Accepted(rs, d);
    if Align(s) == s {
      WindowFits(log, s, c);
    } else {
      StraddleFits(log, Align(s), s, c);
    }
  }

  /** Fill the cap in the last second of a window, and what is left in the last but one of the next. */
  function Worst(reserve: nat): seq<Request> {
    var c := Cap(reserve);
    [Request(ZerenyaIn, c, reserve, 59), Request(ZerenyaIn, c - 2 * c / 60, reserve, 118)]
  }

  lemma WorstAccepted(reserve: nat)
    ensures var c := Cap(reserve);
            Accepted(Worst(reserve), ZerenyaIn) == [Timed(59, c), Timed(118, c - 2 * c / 60)]
  {
    var c, rs := Cap(reserve), Worst(reserve);
    var first, second := rs[0], rs[1];
    var t := Tracker(0, Bucket(c, 0), Bucket(0, 0));
    assert Result(None, first) == Some((t, c)) by {
      assert SatMul(0, Remaining(0, 59)) == 0;
    }
    assert Result(Some(t), second).Some? by {
      assert Advanced(t, 118) == Tracker(60, Bucket(0, c), Bucket(0, 0));
      assert Remaining(60, 118) == 2;
    }
    assert rs[..1] == [first] && [first][..0] == [];
    assert StoredAfter([first]) == Some(t);
    assert Accepted([first], ZerenyaIn) == [Timed(59, c)];
  }

  /** The bound is reached. */
  lemma BoundReached(reserve: nat)
    ensures var c := Cap(reserve);
            SumIn(Accepted(Worst(reserve), ZerenyaIn), 59, 59 + WINDOW) == c + (58 * c + 59) / 60
  {
    var c := Cap(reserve);
    WorstAccepted(reserve);
    var log := [Timed(59, c), Timed(118, c - 2 * c / 60)];
    assert log[..1] == [Timed(59, c)] && [Timed(59, c)][..0] == [];
    assert SumIn([Timed(59, c)], 59, 59 + WINDOW) == c;
  }
}
