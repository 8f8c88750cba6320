/** The replay-guard file: one line for every account nonce and every bridge deposit
    that a new genesis must treat as already spent. */
module ReplayGuard {
  import opened Options
  import opened Text
  import opened Words

  datatype Entry = Entry(address: string, finalNonce: nat)

  datatype Data = Data(nonces: seq<Entry>, sources: seq<string>)

  const SOURCE_PREFIX: string := "BridgeProcessedSource_"

  const SOURCE_TAG: string := "SRC "

  predicate StartsWith(s: string, p: string) {
    p == "" || (s != "" && s[0] == p[0] && StartsWith(s[1..], p[1..]))
  }

  predicate IsAccountAddress(key: string) {
    && |key| == 42
    && key[0] == '0' && (key[1] == 'x' || key[1] == 'X')
    && forall i :: 2 <= i < |key| ==> IsHex(key[i])
  }

  // ----- lines -----

  predicate OneLine(s: string) {
    s == [] || (s[|s| - 1] != '\n' && OneLine(s[..|s| - 1]))
  }

  lemma {:induction false} OneLineMeans(s: string)
    ensures OneLine(s) <==> forall i :: 0 <= i < |s| ==> s[i] != '\n'
  {
    if s != [] {
      OneLineMeans(s[..|s| - 1]);
      assert forall i :: 0 <= i < |s| - 1 ==> s[..|s| - 1][i] == s[i];
    }
  }

  lemma OneLinePart(s: string, i: nat, j: nat)
    requires i <= j <= |s| && OneLine(s)
    ensures OneLine(s[i..j])
  {
    OneLineMeans(s);
    OneLineMeans(s[i..j]);
  }

  lemma OneLineJoin(s: string, t: string)
    requires OneLine(s) && OneLine(t)
    ensures OneLine(s + t)
  {
    OneLineMeans(s);
    OneLineMeans(t);
    OneLineMeans(s + t);
  }

  /** A line feed ends a line and takes a carriage return before it along. */
  function WithoutReturn(s: string): string {
    if s != [] && s[|s| - 1] == '\r' then s[..|s| - 1] else s
  }

  /** The lines ended so far and the text since the last line feed. */
  datatype Cut = Cut(ended: seq<string>, open: string)

  function Feed(p: Cut, s: string): Cut
    decreases |s|
  {
    if s == [] then p
    else
      var n := |s| - 1;
      var q := Feed(p, s[..n]);
      if s[n] == '\n' then Cut(q.ended + [WithoutReturn(q.open)], "")
      else q.(open := q.open + [s[n]])
  }

  function Lines(s: string): seq<string> {
    var p := Feed(Cut([], ""), s);
    if p.open == "" then p.ended else p.ended + [p.open]
  }

  function TrimStart(s: string): (r: string)
    ensures r == [] || !IsSpace(r[0])
  {
    if s != [] && IsSpace(s[0]) then TrimStart(s[1..]) else s
  }

  function TrimEnd(s: string): (r: string)
    ensures r <= s
    ensures r == [] || !IsSpace(r[|r| - 1])
  {
    if s != [] && IsSpace(s[|s| - 1]) then TrimEnd(s[..|s| - 1]) else s
  }

  function Trim(s: string): (r: string)
    ensures r == [] || (!IsSpace(r[0]) && !IsSpace(r[|r| - 1]))
  {
    TrimEnd(TrimStart(s))
  }

  predicate Trimmed(s: string) {
    s == [] || (!IsSpace(s[0]) && !IsSpace(s[|s| - 1]))
  }

  // ----- one line -----

  datatype Item = Blank | Nonce(entry: Entry) | Source(key: string) | Malformed

  lemma {:induction false} TagLength(s: string, p: string := SOURCE_TAG)
    requires StartsWith(s, p)
    ensures |p| <= |s|
  {
    if p != "" {
      TagLength(s[1..], p[1..]);
    }
  }

  function ParseLine(raw: string): Item {
    var line := Trim(raw);
    if line == [] || line[0] == '#' then Blank
    else if StartsWith(line, SOURCE_TAG) then
      TagLength(line);
      var key := Trim(line[|SOURCE_TAG|..]);
      if StartsWith(key, SOURCE_PREFIX) then Source(key) else Malformed
    else
      var ts := Tokens(line);
      if |ts| != 2 || !IsAccountAddress(ts[0]) then Malformed
      else
        match ParseNat(ts[1], U64_MAX)
        case Some(n) => Nonce(Entry(Lower(ts[0]), n))
        case None => Malformed
  }

  /** The two printed line forms. */
  function EntryLine(e: Entry): string { e.address + [' '] + Dec(e.finalNonce) }

  function SourceLine(key: string): string { SOURCE_TAG + key }

  /** The forms of a line: blank, a comment, a tagged source key of the bridge, or an address with its nonce. */
  lemma LineForms(raw: string)
    ensures var line := Trim(raw);
            && (ParseLine(raw) == Blank <==> line == "" || line[0] == '#')
            && (ParseLine(raw).Source? ==>
                  StartsWith(line, "SRC ") && StartsWith(ParseLine(raw).key, "BridgeProcessedSource_"))
            && (ParseLine(raw).Nonce? ==>
                  && |Tokens(line)| == 2 && IsAccountAddress(Tokens(line)[0])
                  && ParseLine(raw).entry.address == Lower(Tokens(line)[0])
                  && ParseNat(Tokens(line)[1], 0xFFFF_FFFF_FFFF_FFFF) == Some(ParseLine(raw).entry.finalNonce))
  {
  }

  lemma LinesPrinted(e: Entry, key: string)
    ensures EntryLine(e) == e.address + " " + Dec(e.finalNonce) && SourceLine(key) == "SRC " + key
  {
  }

  // ----- the whole file -----

  function Then(r: Option<Data>, item: Item): Option<Data> {
    match r
    case None => None
    case Some(d) =>
      match item
      case Blank => r
      case Nonce(e) => Some(d.(nonces := d.nonces + [e]))
      case Source(k) => Some(d.(sources := d.sources + [k]))
      case Malformed => None
  }

  /** What the items say, taken from the first to the last; one malformed item spoils them all. */
  function Gather(items: seq<Item>): Option<Data> {
    if items == [] then Some(Data([], []))
    else
      var n := |items| - 1;
      Then(Gather(items[..n]), items[n])
  }

  function Items(ls: seq<string>): (items: seq<Item>)
    ensures |items| == |ls|
  {
    seq(|ls|, i requires 0 <= i < |ls| => ParseLine(ls[i]))
  }

  lemma GatherSnoc(ls: seq<string>, l: string)
    ensures Gather(Items(ls + [l])) == Then(Gather(Items(ls)), ParseLine(l))
  {
    assert Items(ls + [l])[..|ls|] == Items(ls);
  }

  lemma GatherNext(ls: seq<string>, k: nat)
    requires k < |ls|
    ensures Gather(Items(ls)[..k + 1]) == Then(Gather(Items(ls)[..k]), ParseLine(ls[k]))
  {
    assert Items(ls)[..k + 1][..k] == Items(ls)[..k];
  }

  function Parsed(content: string): Option<Data> { Gather(Items(Lines(content))) }

  function LineAt(d: Data, k: nat): string
    requires k < |d.nonces| + |d.sources|
  {
    if k < |d.nonces| then EntryLine(d.nonces[k]) else SourceLine(d.sources[k - |d.nonces|])
  }

  function Push(out: string, line: string): string { out + (line + "\n") }

  /** The first `k` printed lines, each closed by a line feed. */
  function TextUpTo(d: Data, k: nat): string
    requires k <= |d.nonces| + |d.sources|
    decreases k
  {
    if k == 0 then "" else Push(TextUpTo(d, k - 1), LineAt(d, k - 1))
  }

  function Printed(d: Data): string { TextUpTo(d, |d.nonces| + |d.sources|) }

  /** `out` is the first `k` printed lines; the depth keeps the equation folded until `WroteIs` opens it. */
  predicate Wrote(out: string, d: Data, k: nat, depth: nat := 3)
    requires k <= |d.nonces| + |d.sources|
  {
    if depth == 0 then out == TextUpTo(d, k) else Wrote(out, d, k, depth - 1)
  }

  lemma {:induction false} WroteIs(out: string, d: Data, k: nat, depth: nat := 3)
    requires k <= |d.nonces| + |d.sources|
    ensures Wrote(out, d, k, depth) <==> out == TextUpTo(d, k)
    decreases depth
  {
    if depth > 0 {
      WroteIs(out, d, k, depth - 1);
    }
  }

  lemma WroteNext(d: Data, k: nat, out: string, after: string)
    requires k < |d.nonces| + |d.sources|
    requires Wrote(out, d, k) && after == Push(out, LineAt(d, k))
    ensures Wrote(after, d, k + 1)
  {
    WroteIs(out, d, k);
    WroteIs(after, d, k + 1);
  }

  lemma WroteNothing(d: Data, out: string)
    requires out == ""
    ensures Wrote(out, d, 0)
  {
    WroteIs(out, d, 0);
  }

  lemma WroteAll(out: string, d: Data)
    requires Wrote(out, d, |d.nonces| + |d.sources|)
    ensures out == Printed(d)
  {
    WroteIs(out, d, |d.nonces| + |d.sources|);
  }

  method PushEntry(out: string, e: Entry, ghost d: Data, ghost i: nat) returns (after: string)
    requires i < |d.nonces| && e == d.nonces[i] && Wrote(out, d, i)
    ensures after == Push(out, EntryLine(e)) && Wrote(after, d, i + 1)
  {
    after := out + (EntryLine(e) + "\n");
    WroteNext(d, i, out, after);
  }

  method PushSource(out: string, key: string, ghost d: Data, ghost i: nat) returns (after: string)
    requires i < |d.sources| && key == d.sources[i] && Wrote(out, d, |d.nonces| + i)
    ensures after == Push(out, SourceLine(key)) && Wrote(after, d, |d.nonces| + i + 1)
  {
    after := out + (SourceLine(key) + "\n");
    WroteNext(d, |d.nonces| + i, out, after);
  }

  method ToFileFormat(data: Data) returns (out: string)
    ensures out == Printed(data)
  {
    out := "";
    WroteNothing(data, out);
    var i := 0;
    while i < |data.nonces|
      invariant i <= |data.nonces|
      invariant Wrote(out, data, i)
    {
      out := PushEntry(out, data.nonces[i], data, i);
      i := i + 1;
    }
    var j := 0;
    while j < |data.sources|
      invariant j <= |data.sources|
      invariant Wrote(out, data, |data.nonces| + j)
    {
      out := PushSource(out, data.sources[j], data, j);
      j := j + 1;
    }
    WroteAll(out, data);
  }

  /** Stops at the first malformed line. */
  method ParseFile(content: string) returns (r: Option<Data>)
    ensures r == Parsed(content)
  {
    var nonces: seq<Entry>, sources: seq<string> := [], [];
    var ls := Lines(content);
    var i := 0;
    while i < |ls|
      invariant i <= |ls|
      invariant Gather(Items(ls)[..i]) == Some(Data(nonces, sources))
    {
      var item := ParseLine(ls[i]);
      GatherNext(ls, i);
      match item {
        case Blank =>
        case Nonce(e) => nonces := nonces + [e];
        case Source(k) => sources := sources + [k];
        case Malformed =>
          FailClosed(Items(ls), i);
          return None;
      }
      i := i + 1;
    }
    assert Items(ls)[..|ls|] == Items(ls);
    return Some(Data(nonces, sources));
  }

  /** Nothing is salvaged from a file with a malformed line. */
  lemma {:induction false} FailClosed(items: seq<Item>, k: nat)
    requires k < |items| && items[k] == Malformed
    ensures Gather(items).None?
    decreases |items|
  {
    var n := |items| - 1;
    if k < n {
      FailClosed(items[..n], k);
    }
  }

  /** A file is accepted exactly when each of its lines is blank, a comment or one of the two forms. */
  lemma AcceptedIff(content: string)
    ensures Parsed(content).Some? <==> forall l :: l in Lines(content) ==> ParseLine(l) != Malformed
  {
    var ls := Lines(content);
    GatherIff(Items(ls));
    assert forall i :: 0 <= i < |ls| ==> Items(ls)[i] == ParseLine(ls[i]);
  }

  lemma {:induction false} GatherIff(items: seq<Item>)
    ensures Gather(items).Some? <==> Malformed !in items
  {
    if items != [] {
      var n := |items| - 1;
      GatherIff(items[..n]);
      assert items == items[..n] + [items[n]];
    }
  }

  // ----- round trip -----

  /** What the node exports: lower-case addresses and trimmed one-line source keys. */
  predicate Canonical(d: Data) {
    && (forall e :: e in d.nonces ==> CanonicalEntry(e))
    && (forall k :: k in d.sources ==> CanonicalKey(k))
  }

  /** A lower-case address and a 64-bit nonce. */
  predicate CanonicalEntry(e: Entry) {
    IsAccountAddress(e.address) && Lower(e.address) == e.address && e.finalNonce <= U64_MAX
  }

  predicate CanonicalKey(k: string) {
    StartsWith(k, SOURCE_PREFIX) && Trimmed(k) && OneLine(k)
  }

  lemma {:induction false} FeedLine(p: Cut, l: string)
    requires OneLine(l)
    ensures Feed(p, l) == p.(open := p.open + l)
  {
    if l == [] {
      assert p.open + l == p.open;
    } else {
      var n := |l| - 1;
      FeedLine(p, l[..n]);
      assert l == l[..n] + [l[n]];
      assert p.open + l == p.open + l[..n] + [l[n]];
    }
  }

  lemma {:induction false} FeedJoin(p: Cut, a: string, b: string)
    ensures Feed(p, a + b) == Feed(Feed(p, a), b)
  {
    if b == [] {
      assert a + b == a;
    } else {
      FeedJoin(p, a, b[..|b| - 1]);
      assert (a + b)[..|a + b| - 1] == a + b[..|b| - 1];
    }
  }

  /** A line that survives being written out and split off again. */
  predicate Splittable(l: string) {
    l != [] && OneLine(l) && l[|l| - 1] != '\r'
  }

  lemma FeedPush(p: Cut, s: string, l: string)
    requires Splittable(l) && Feed(p, s).open == ""
    ensures Feed(p, Push(s, l)) == Cut(Feed(p, s).ended + [l], "")
  {
    var q := Feed(p, s);
    FeedJoin(p, s, l + "\n");
    FeedLine(q, l);
    assert q.open + l == l;
    assert (l + "\n")[..|l|] == l;
  }

  lemma {:induction false} LinesAreSingle(s: string)
    ensures forall l :: l in Feed(Cut([], ""), s).ended ==> OneLine(l)
    ensures OneLine(Feed(Cut([], ""), s).open)
    ensures forall l :: l in Lines(s) ==> OneLine(l)
  {
    if s != [] {
      LinesAreSingle(s[..|s| - 1]);
    }
  }

  lemma TrimTrimmed(s: string)
    requires Trimmed(s)
    ensures Trim(s) == s
  {
  }

  lemma ReadEntryLine(e: Entry)
    requires CanonicalEntry(e)
    ensures var l := EntryLine(e);
            ParseLine(l) == Nonce(e) && Splittable(l)
  {
    EntryLineShape(e);
    TrimTrimmed(EntryLine(e));
    EntryLineTokens(e);
    ParseDec(e.finalNonce, U64_MAX);
  }

  lemma EntryLineShape(e: Entry)
    requires CanonicalEntry(e)
    ensures var l := EntryLine(e); Splittable(l) && Trimmed(l) && l[0] == '0'
  {
    var a, n := e.address, Dec(e.finalNonce);
    var l := a + [' '] + n;
    DecIsDigits(e.finalNonce);
    assert l[|l| - 1] == n[|n| - 1];
    assert l[0] == a[0];
    OneLineMeans(a);
    OneLineMeans(n);
    OneLineJoin(a, [' ']);
    OneLineJoin(a + [' '], n);
  }

  lemma EntryLineTokens(e: Entry)
    requires CanonicalEntry(e)
    ensures Tokens(EntryLine(e)) == [e.address, Dec(e.finalNonce)]
  {
    DecIsDigits(e.finalNonce);
    assert Solid(e.address) by {
      assert forall i :: 2 <= i < |e.address| ==> IsHex(e.address[i]);
    }
    TokensCons(e.address, ' ', Dec(e.finalNonce));
    TokensOne(Dec(e.finalNonce));
  }

  lemma {:induction false} TagIsPrefix(p: string, s: string)
    ensures StartsWith(p + s, p)
  {
    if p != "" {
      TagIsPrefix(p[1..], s);
      assert (p + s)[1..] == p[1..] + s;
    }
  }

  lemma ReadSourceLine(key: string)
    requires CanonicalKey(key)
    ensures var l := SourceLine(key);
            ParseLine(l) == Source(key) && Splittable(l)
  {
    var l := SourceLine(key);
    assert l[|l| - 1] == key[|key| - 1];
    assert l[0] == 'S';
    OneLineMeans(SOURCE_TAG);
    OneLineJoin(SOURCE_TAG, key);
    TrimTrimmed(l);
    TrimTrimmed(key);
    TagIsPrefix(SOURCE_TAG, key);
    assert l[|SOURCE_TAG|..] == key;
  }

  function ItemAt(d: Data, k: nat): Item
    requires k < |d.nonces| + |d.sources|
  {
    if k < |d.nonces| then Nonce(d.nonces[k]) else Source(d.sources[k - |d.nonces|])
  }

  /** One printed line says one item. Folded like `Wrote`. */
  predicate Says(l: string, item: Item, depth: nat := 3)
  {
    if depth == 0 then Splittable(l) && ParseLine(l) == item else Says(l, item, depth - 1)
  }

  lemma {:induction false} SaysIs(l: string, item: Item, depth: nat := 3)
    ensures Says(l, item, depth) <==> Splittable(l) && ParseLine(l) == item
    decreases depth
  {
    if depth > 0 {
      SaysIs(l, item, depth - 1);
    }
  }

  lemma LineAtSays(d: Data, k: nat)
    requires Canonical(d) && k < |d.nonces| + |d.sources|
    ensures Says(LineAt(d, k), ItemAt(d, k))
  {
    SaysIs(LineAt(d, k), ItemAt(d, k));
    if k < |d.nonces| {
      assert CanonicalEntry(d.nonces[k]);
      ReadEntryLine(d.nonces[k]);
    } else {
      assert CanonicalKey(d.sources[k - |d.nonces|]);
      ReadSourceLine(d.sources[k - |d.nonces|]);
    }
  }

  /** A text of whole lines says `d`. Folded like `Wrote`. */
  predicate Reads(s: string, d: Data, depth: nat := 3)
  {
    if depth == 0 then
      var p := Feed(Cut([], ""), s);
      p.open == "" && Gather(Items(p.ended)) == Some(d)
    else Reads(s, d, depth - 1)
  }

  lemma {:induction false} ReadsIs(s: string, d: Data, depth: nat := 3)
    ensures var p := Feed(Cut([], ""), s);
            Reads(s, d, depth) <==> p.open == "" && Gather(Items(p.ended)) == Some(d)
    decreases depth
  {
    if depth > 0 {
      ReadsIs(s, d, depth - 1);
    }
  }

  lemma ReadsPush(s: string, d: Data, l: string, item: Item, e: Data)
    requires Reads(s, d) && Says(l, item) && Then(Some(d), item) == Some(e)
    ensures Reads(Push(s, l), e)
  {
    ReadsIs(s, d);
    SaysIs(l, item);
    ReadsIs(Push(s, l), e);
    FeedPush(Cut([], ""), s, l);
    GatherSnoc(Feed(Cut([], ""), s).ended, l);
  }

  function FirstItems(d: Data, k: nat): Data
    requires k <= |d.nonces| + |d.sources|
  {
    if k <= |d.nonces| then Data(d.nonces[..k], []) else d.(sources := d.sources[..k - |d.nonces|])
  }

  lemma FirstItemsNext(d: Data, k: nat)
    requires k < |d.nonces| + |d.sources|
    ensures Then(Some(FirstItems(d, k)), ItemAt(d, k)) == Some(FirstItems(d, k + 1))
  {
    if k < |d.nonces| {
      assert d.nonces[..k + 1] == d.nonces[..k] + [d.nonces[k]];
    } else {
      var j := k - |d.nonces|;
      assert d.sources[..j + 1] == d.sources[..j] + [d.sources[j]];
      assert k == |d.nonces| ==> d.nonces[..k] == d.nonces && d.sources[..j] == [];
    }
  }

  /** The first `k` printed lines come apart again and give back what they were printed from. */
  lemma {:induction false} TextReads(d: Data, k: nat)
    requires Canonical(d) && k <= |d.nonces| + |d.sources|
    ensures Reads(TextUpTo(d, k), FirstItems(d, k))
    decreases k
  {
    if k == 0 {
      ReadsIs("", Data([], []));
    } else {
      TextReads(d, k - 1);
      ReadsNext(d, k - 1, k);
    }
  }

  lemma ReadsNext(d: Data, k: nat, next: nat)
    requires Canonical(d) && next == k + 1 <= |d.nonces| + |d.sources|
    requires Reads(TextUpTo(d, k), FirstItems(d, k))
    ensures Reads(TextUpTo(d, next), FirstItems(d, next))
  {
    LineAtSays(d, k);
    FirstItemsNext(d, k);
    ReadsPush(TextUpTo(d, k), FirstItems(d, k), LineAt(d, k), ItemAt(d, k), FirstItems(d, next));
  }

  lemma PrintedReads(d: Data)
    requires Canonical(d)
    ensures Parsed(Printed(d)) == Some(d)
  {
    var n := |d.nonces| + |d.sources|;
    TextReads(d, n);
    FirstItemsAll(d, n);
    ReadsParsed(Printed(d), d);
  }

  lemma FirstItemsAll(d: Data, n: nat)
    requires n == |d.nonces| + |d.sources|
    ensures FirstItems(d, n) == d
  {
  }

  lemma ReadsParsed(s: string, d: Data)
    requires Reads(s, d)
    ensures Parsed(s) == Some(d)
  {
    ReadsIs(s, d);
  }

  lemma LowerIsCanonical(a: string)
    requires IsAccountAddress(a)
    ensures IsAccountAddress(Lower(a)) && Lower(Lower(a)) == Lower(a)
  {
    var b := Lower(a);
    assert a[0] == '0' && (a[1] == 'x' || a[1] == 'X');
    assert b[0] == '0' && b[1] == 'x';
    forall i | 2 <= i < |b|
      ensures IsHex(b[i])
    {
      assert IsHex(a[i]);
    }
  }

  lemma {:induction false} TrimIsPart(s: string) returns (i: nat, j: nat)
    ensures i <= j <= |s| && Trim(s) == s[i..j]
  {
    if s != [] && IsSpace(s[0]) {
      i, j := TrimIsPart(s[1..]);
      i, j := i + 1, j + 1;
    } else {
      i, j := 0, |Trim(s)|;
    }
  }

  lemma TrimmedIsSingle(s: string)
    requires OneLine(s)
    ensures OneLine(Trim(s))
  {
    var i, j := TrimIsPart(s);
    OneLinePart(s, i, j);
  }

  lemma LineIsCanonical(l: string)
    requires OneLine(l)
    ensures match ParseLine(l)
            case Nonce(e) => CanonicalEntry(e)
            case Source(k) => CanonicalKey(k)
            case _ => true
  {
    var line := Trim(l);
    match ParseLine(l) {
      case Nonce(e) => LowerIsCanonical(Tokens(line)[0]);
      case Source(k) => KeyIsSingle(l);
      case _ =>
    }
  }

  lemma KeyIsSingle(l: string)
    requires OneLine(l) && StartsWith(Trim(l), SOURCE_TAG)
    ensures |SOURCE_TAG| <= |Trim(l)|
    ensures OneLine(Trim(Trim(l)[|SOURCE_TAG|..]))
  {
    var line := Trim(l);
    TrimmedIsSingle(l);
    TagLength(line);
    OneLinePart(line, |SOURCE_TAG|, |line|);
    assert line[|SOURCE_TAG|..] == line[|SOURCE_TAG|..|line|];
    TrimmedIsSingle(line[|SOURCE_TAG|..]);
  }

  /** Whatever the parser accepts is canonical, however the file was laid out. */
  lemma ParsedIsCanonical(content: string)
    requires Parsed(content).Some?
    ensures Canonical(Parsed(content).value)
  {
    LinesAreSingle(content);
    GatherIsCanonical(Lines(content));
  }

  lemma {:induction false} GatherIsCanonical(ls: seq<string>)
    requires (forall l :: l in ls ==> OneLine(l)) && Gather(Items(ls)).Some?
    ensures Canonical(Gather(Items(ls)).value)
  {
    if ls != [] {
      var n := |ls| - 1;
      assert Items(ls)[..n] == Items(ls[..n]);
      GatherIsCanonical(ls[..n]);
      LineIsCanonical(ls[n]);
    }
  }

  /** Printing then parsing gives the data back exactly when the data is canonical. */
  lemma RoundTrip(d: Data)
    ensures Parsed(Printed(d)) == Some(d) <==> Canonical(d)
  {
    if Canonical(d) {
      PrintedReads(d);
    }
    if Parsed(Printed(d)) == Some(d) {
      ParsedIsCanonical(Printed(d));
    }
  }

  /** One that is not read back: a source key that ends in a space. */
  lemma SpaceIsLost()
    ensures var d := Data([], [SOURCE_PREFIX + " "]); Parsed(Printed(d)) != Some(d)
  {
    var d := Data([], [SOURCE_PREFIX + " "]);
    RoundTrip(d);
    assert d.sources[0] in d.sources;
    assert IsSpace(d.sources[0][|d.sources[0]| - 1]);
  }

  /** Rewriting an accepted file in the printed layout changes nothing it says. */
  lemma Normalises(content: string)
    requires Parsed(content).Some?
    ensures Parsed(Printed(Parsed(content).value)) == Parsed(content)
  {
    ParsedIsCanonical(content);
    RoundTrip(Parsed(content).value);
  }
}
