/**
 The restart-safe double-sign guard.  The highest signed (height, round, step)
 with its hash is written to a one-line file before a signature is released;
 `disk` is what a reload would find there.
 */
module DoubleSign {
  import opened Options
  import opened Text
  import opened Words

  datatype Watermark = Watermark(height: nat, round: nat, step: nat, hash: seq<byte>) {
    /** The value fits the u64, u32, u8 and 32-byte fields of the source. */
    predicate Fits() {
      height <= U64_MAX && round <= U32_MAX && step <= U8_MAX && |hash| == 32
    }
  }

  /** Lexicographic order of (height, round, step). */
  predicate Below(a: Watermark, b: Watermark) {
    || a.height < b.height
    || (a.height == b.height && a.round < b.round)
    || (a.height == b.height && a.round == b.round && a.step < b.step)
  }

  predicate SameTriple(a: Watermark, b: Watermark) {
    a.height == b.height && a.round == b.round && a.step == b.step
  }

  /** Height, round and step as one number. */
  function Place(w: Watermark): nat { (w.height * 0x1_0000_0000 + w.round) * 0x100 + w.step }

  lemma BelowIsEarlier(a: Watermark, b: Watermark)
    requires a.Fits() && b.Fits()
    ensures Below(a, b) <==> Place(a) < Place(b)
    ensures SameTriple(a, b) <==> Place(a) == Place(b)
  {
  }

  // ----- the file -----

  datatype Disk = Absent | Unreadable | File(content: string)

  function Format(w: Watermark): string {
    Dec(w.height) + [' '] + (Dec(w.round) + [' '] + (Dec(w.step) + [' '] + (Hex(w.hash) + ['\n'] + [])))
  }

  function Parse(s: string): (r: Option<Watermark>)
    ensures r.Some? ==> r.value.Fits()
  {
    var ts := Tokens(s);
    if |ts| < 4 then None
    else
      match (ParseNat(ts[0], U64_MAX), ParseNat(ts[1], U32_MAX), ParseNat(ts[2], U8_MAX), Unhex(ts[3]))
      case (Some(h), Some(r), Some(step), Some(hash)) =>
        if |hash| == 32 then Some(Watermark(h, r, step, hash)) else None
      case _ => None
  }

  /** Reading back the line written by `persist` yields the same watermark. */
  lemma ParseFormat(w: Watermark)
    requires w.Fits()
    ensures Parse(Format(w)) == Some(w)
  {
    var t3 := Hex(w.hash) + ['\n'] + [];
    var t2 := Dec(w.step) + [' '] + t3;
    var t1 := Dec(w.round) + [' '] + t2;
    DecIsDigits(w.height);
    DecIsDigits(w.round);
    DecIsDigits(w.step);
    TokensCons(Dec(w.height), ' ', t1);
    TokensCons(Dec(w.round), ' ', t2);
    TokensCons(Dec(w.step), ' ', t3);
    TokensCons(Hex(w.hash), '\n', []);
    assert Tokens(Format(w)) == [Dec(w.height), Dec(w.round), Dec(w.step), Hex(w.hash)];
    ParseDec(w.height, U64_MAX);
    ParseDec(w.round, U32_MAX);
    ParseDec(w.step, U8_MAX);
    UnhexHex(w.hash);
  }

  /** The file holds height, round, step and hash, in this order. */
  lemma FormatIs(w: Watermark)
    ensures Format(w) == Dec(w.height) + " " + Dec(w.round) + " " + Dec(w.step) + " " + Hex(w.hash) + "\n"
  {
  }

  // ----- the guard as a state machine -----

  /** `granted` lists every watermark for which signing was allowed, over all
      processes that used the file. */
  datatype Guard = Guard(highest: Option<Watermark>, poisoned: bool, disk: Disk, granted: seq<Watermark>)

  function Load(disk: Disk, granted: seq<Watermark>): Guard {
    match disk
    case Absent => Guard(None, false, disk, granted)
    case Unreadable => Guard(None, true, disk, granted)
    case File(s) =>
      match Parse(s)
      case Some(w) => Guard(Some(w), false, disk, granted)
      case None => Guard(None, true, disk, granted)
  }

  /** How a request met the file system: the write succeeds, it fails, or the
      process dies before or after the file is replaced. */
  datatype Fate = Written | WriteFailed | DiedBefore | DiedAfter

  datatype Event =
    | Request(w: Watermark, fate: Fate)
    | Reload
    | Spoil(found: Disk)   // the file is damaged or becomes unreadable; never deleted

  predicate Fresh(g: Guard, w: Watermark) {
    !g.poisoned && (g.highest.None? || Below(g.highest.value, w))
  }

  predicate Repeat(g: Guard, w: Watermark) {
    !g.poisoned && g.highest.Some? && SameTriple(g.highest.value, w) && g.highest.value.hash == w.hash
  }

  /** The decision of `allow` when the write has the given fate. */
  predicate Grants(g: Guard, w: Watermark, fate: Fate) {
    Repeat(g, w) || (Fresh(g, w) && fate == Written)
  }

  /** Signing needs a place after the last one, and the record written; the last place itself is granted again for
      the same hash alone. */
  lemma GrantsIff(g: Guard, w: Watermark, fate: Fate)
    requires w.Fits() && (g.highest.Some? ==> g.highest.value.Fits())
    ensures Grants(g, w, fate) <==>
              && !g.poisoned
              && (g.highest.None? ==> fate == Written)
              && (g.highest.Some? && Place(g.highest.value) == Place(w) ==> g.highest.value.hash == w.hash)
              && (g.highest.Some? && Place(g.highest.value) != Place(w) ==> Place(g.highest.value) < Place(w) && fate == Written)
  {
    if g.highest.Some? {
      BelowIsEarlier(g.highest.value, w);
    }
  }

  function Apply(g: Guard, e: Event): Guard {
    match e
    case Reload => Load(g.disk, g.granted)
    case Spoil(d) => g.(disk := d)
    case Request(w, fate) =>
      var alive := fate.Written? || fate.WriteFailed?;
      var granted := if alive && Grants(g, w, fate) then g.granted + [w] else g.granted;
      var disk := if Fresh(g, w) && (fate.Written? || fate.DiedAfter?) then File(Format(w)) else g.disk;
      if !alive then Load(disk, granted)
      else Guard(if Fresh(g, w) && fate.Written? then Some(w) else g.highest, g.poisoned, disk, granted)
  }

  function Run(g: Guard, es: seq<Event>): Guard {
    if es == [] then g else Apply(Run(g, es[..|es| - 1]), es[|es| - 1])
  }

  predicate Legal(e: Event) {
    match e
    case Request(w, _) => w.Fits()
    case Reload => true
    case Spoil(d) => d.Unreadable? || (d.File? && Parse(d.content).None?)
  }

  // ----- what the guard guarantees -----

  /** Grants go up lexicographically, and equal triples carry equal hashes. */
  ghost predicate NoEquivocation(granted: seq<Watermark>) {
    forall i, j :: 0 <= i < j < |granted| ==>
      Below(granted[i], granted[j]) || granted[i] == granted[j]
  }

  ghost predicate Covered(granted: seq<Watermark>, w: Watermark) {
    forall i :: 0 <= i < |granted| ==> Below(granted[i], w) || granted[i] == w
  }

  /** What a process that reloads now would know: nothing it may sign is lost. */
  ghost predicate DiskCovers(g: Guard) {
    match g.disk
    case Absent => g.granted == []
    case Unreadable => true
    case File(s) => Parse(s).Some? ==> Covered(g.granted, Parse(s).value)
  }

  ghost predicate GuardOk(g: Guard) {
    && NoEquivocation(g.granted)
    && DiskCovers(g)
    && (!g.poisoned ==> (g.disk.Absent? ==> g.highest.None?))
    && (!g.poisoned && g.disk.File? && Parse(g.disk.content).Some? ==> g.highest == Parse(g.disk.content))
    && (!g.poisoned ==>
          if g.highest.Some? then Covered(g.granted, g.highest.value) && g.highest.value.Fits()
          else g.granted == [])
  }

  lemma CoveredBelow(granted: seq<Watermark>, w: Watermark, w': Watermark)
    requires Covered(granted, w) && (Below(w, w') || w == w')
    ensures Covered(granted, w')
  {
    forall i | 0 <= i < |granted| ensures Below(granted[i], w') || granted[i] == w' {
      assert Below(granted[i], w) || granted[i] == w;
    }
  }

  lemma RepeatKeeps(g: Guard, w: Watermark)
    requires GuardOk(g) && Repeat(g, w)
    ensures GuardOk(g.(granted := g.granted + [w]))
  {
    assert g.highest.value == w;
  }

  lemma WriteKeeps(g: Guard, w: Watermark, line: string)
    requires GuardOk(g) && Fresh(g, w) && w.Fits() && Parse(line) == Some(w)
    ensures GuardOk(Guard(Some(w), false, File(line), g.granted + [w]))
    ensures GuardOk(Guard(Some(w), false, File(line), g.granted))
  {
    if g.highest.Some? {
      CoveredBelow(g.granted, g.highest.value, w);
    }
    assert Covered(g.granted, w) && Covered(g.granted + [w], w);
  }

  lemma ApplyKeeps(g: Guard, e: Event)
    requires GuardOk(g) && Legal(e)
    ensures GuardOk(Apply(g, e))
  {
    match e
    case Reload =>
    case Spoil(d) =>
    case Request(w, fate) =>
      if Fresh(g, w) && (fate.Written? || fate.DiedAfter?) {
        ParseFormat(w);
        WriteKeeps(g, w, Format(w));
        assert Load(File(Format(w)), g.granted) == Guard(Some(w), false, File(Format(w)), g.granted);
      } else if Repeat(g, w) {
        RepeatKeeps(g, w);
      }
  }

  /** Over any run of requests, failed writes, crashes, reloads and file damage
      nothing is ever signed twice at one (height, round, step). */
  lemma {:induction false} NeverEquivocates(disk: Disk, es: seq<Event>)
    requires forall e :: e in es ==> Legal(e)
    ensures GuardOk(Run(Load(disk, []), es))
    ensures NoEquivocation(Run(Load(disk, []), es).granted)
  {
    if es == [] {
    } else {
      NeverEquivocates(disk, es[..|es| - 1]);
      ApplyKeeps(Run(Load(disk, []), es[..|es| - 1]), es[|es| - 1]);
    }
  }

  /** A guard that loaded an unreadable or garbled file signs nothing until a
      reload finds a good one. */
  lemma {:induction false} PoisonedGrantsNothing(g: Guard, es: seq<Event>)
    requires g.poisoned && (forall e :: e in es ==> e.Request?)
    requires Load(g.disk, g.granted).poisoned
    ensures Run(g, es).granted == g.granted && Run(g, es).poisoned && Run(g, es).disk == g.disk
  {
    if es != [] {
      PoisonedGrantsNothing(g, es[..|es| - 1]);
    }
  }

  class DoubleSignProtector {
    var highest: Option<Watermark>
    var poisoned: bool
    var disk: Disk
    ghost var granted: seq<Watermark>

    ghost function Model(): Guard
      reads this
    {
      Guard(highest, poisoned, disk, granted)
    }

    /** `load`: `past` are the grants of earlier processes on the same file. */
    constructor (found: Disk, ghost past: seq<Watermark>)
      ensures Model() == Load(found, past)
    {
      highest, poisoned := None, false;
      match found {
        case Absent =>
        case Unreadable => poisoned := true;
        case File(s) =>
          var w := Parse(s);
          highest, poisoned := w, w.None?;
      }
      disk, granted := found, past;
    }

    /** `allow`: the write outcome is an input. */
    method Allow(w: Watermark, writeOk: bool) returns (ok: bool)
      modifies this
      ensures Model() == Apply(old(Model()), Request(w, if writeOk then Written else WriteFailed))
      ensures ok == Grants(old(Model()), w, if writeOk then Written else WriteFailed)
      ensures granted == if ok then old(granted) + [w] else old(granted)
    {
      if poisoned {
        return false;
      }
      if highest.Some? {
        if SameTriple(highest.value, w) {
          ok := highest.value.hash == w.hash;
          granted := if ok then granted + [w] else granted;
          return;
        }
        if Below(w, highest.value) {
          return false;
        }
      }
      ok := writeOk;
      if ok {
        disk := File(Format(w));
        highest := Some(w);
        granted := granted + [w];
      }
    }
  }
}
