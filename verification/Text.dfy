/** The text primitives used by the watermark file and the replay-guard file. */
module Text {
  import opened Options

  newtype byte = x: int | 0 <= x < 256

  /** The Unicode White_Space property. */
  predicate IsSpace(c: char) {
    var k := c as int;
    || 0x09 <= k <= 0x0D || k == 0x20 || k == 0x85 || k == 0xA0 || k == 0x1680
    || 0x2000 <= k <= 0x200A || k == 0x2028 || k == 0x2029 || k == 0x202F || k == 0x205F || k == 0x3000
  }

  /** No white space: what one token may contain. */
  predicate Solid(s: string) {
    forall i :: 0 <= i < |s| ==> !IsSpace(s[i])
  }

  function WordLen(s: string): (k: nat)
    ensures k <= |s| && Solid(s[..k]) && (k < |s| ==> IsSpace(s[k]))
  {
    if s == [] || IsSpace(s[0]) then 0
    else
      var k := WordLen(s[1..]);
      assert s[..k + 1] == [s[0]] + s[1..][..k];
      k + 1
  }

  /** Maximal runs of non-space characters. */
  function Tokens(s: string): (ts: seq<string>)
    ensures forall t :: t in ts ==> t != [] && Solid(t)
    decreases |s|
  {
    if s == [] then []
    else if IsSpace(s[0]) then Tokens(s[1..])
    else
      var k := WordLen(s);
      assert k > 0;
      [s[..k]] + Tokens(s[k..])
  }

  lemma {:induction false} WordLenIs(w: string, rest: string)
    requires Solid(w) && (rest == [] || IsSpace(rest[0]))
    ensures WordLen(w + rest) == |w|
  {
    if w == [] {
      assert w + rest == rest;
    } else {
      WordLenIs(w[1..], rest);
      assert (w + rest)[1..] == w[1..] + rest;
    }
  }

  lemma TokensCons(w: string, c: char, rest: string)
    requires w != [] && Solid(w) && IsSpace(c)
    ensures Tokens(w + [c] + rest) == [w] + Tokens(rest)
  {
    var s := w + ([c] + rest);
    assert s == w + [c] + rest;
    WordLenIs(w, [c] + rest);
    assert s[..|w|] == w && s[|w|..] == [c] + rest;
    assert ([c] + rest)[1..] == rest;
  }

  lemma TokensOne(w: string)
    requires w != [] && Solid(w)
    ensures Tokens(w) == [w]
  {
    WordLenIs(w, []);
    assert w + [] == w;
    assert w[..|w|] == w && w[|w|..] == [];
  }

  // ----- decimal numbers -----

  predicate IsDigit(c: char) { '0' <= c <= '9' }

  function DigitOf(c: char): nat
    requires IsDigit(c)
  {
    c as int - '0' as int
  }

  function Dec(n: nat): (s: string)
    ensures s != []
  {
    if n < 10 then [(n + '0' as int) as char]
    else Dec(n / 10) + [(n % 10 + '0' as int) as char]
  }

  lemma {:induction false} DecIsDigits(n: nat)
    ensures forall i :: 0 <= i < |Dec(n)| ==> IsDigit(Dec(n)[i])
    ensures Solid(Dec(n))
  {
    if n >= 10 {
      DecIsDigits(n / 10);
    }
  }

  function Digits(s: string): Option<nat> {
    if s == [] then Some(0)
    else
      var c := s[|s| - 1];
      match Digits(s[..|s| - 1])
      case Some(k) => if IsDigit(c) then Some(10 * k + DigitOf(c)) else None
      case None => None
  }

  /** Unsigned parsing as the standard library does it: an optional plus sign, at
      least one digit, no overflow. */
  function ParseNat(s: string, max: nat): (r: Option<nat>)
    ensures r.Some? ==> r.value <= max
  {
    var ds := if s != [] && s[0] == '+' then s[1..] else s;
    if ds == [] then None
    else
      match Digits(ds)
      case Some(k) => if k <= max then Some(k) else None
      case None => None
  }

  lemma {:induction false} DigitsDec(n: nat)
    ensures Digits(Dec(n)) == Some(n)
  {
    if n < 10 {
      assert Dec(n)[..0] == [];
    } else {
      DigitsDec(n / 10);
      var c := (n % 10 + '0' as int) as char;
      assert Dec(n)[..|Dec(n)| - 1] == Dec(n / 10);
    }
  }

  lemma ParseDec(n: nat, max: nat)
    requires n <= max
    ensures ParseNat(Dec(n), max) == Some(n)
  {
    DigitsDec(n);
    DecIsDigits(n);
  }

  // ----- hexadecimal bytes -----

  function HexChar(d: nat): char
    requires d < 16
  {
    if d < 10 then (d + '0' as int) as char else (d - 10 + 'a' as int) as char
  }

  predicate IsHex(c: char) {
    IsDigit(c) || 'a' <= c <= 'f' || 'A' <= c <= 'F'
  }

  function HexVal(c: char): (d: nat)
    requires IsHex(c)
    ensures d < 16
  {
    if IsDigit(c) then DigitOf(c)
    else if 'a' <= c <= 'f' then c as int - 'a' as int + 10
    else c as int - 'A' as int + 10
  }

  function Hex(bs: seq<byte>): (s: string)
    ensures |s| == 2 * |bs| && Solid(s)
  {
    if bs == [] then []
    else [HexChar(bs[0] as int / 16), HexChar(bs[0] as int % 16)] + Hex(bs[1..])
  }

  function Unhex(s: string): Option<seq<byte>> {
    if s == [] then Some([])
    else if |s| == 1 || !IsHex(s[0]) || !IsHex(s[1]) then None
    else
      match Unhex(s[2..])
      case Some(bs) => Some([(16 * HexVal(s[0]) + HexVal(s[1])) as byte] + bs)
      case None => None
  }

  lemma {:induction false} UnhexHex(bs: seq<byte>)
    ensures Unhex(Hex(bs)) == Some(bs)
  {
    if bs != [] {
      UnhexHex(bs[1..]);
      UnhexStep(bs[0], Hex(bs[1..]));
      assert bs == [bs[0]] + bs[1..];
    }
  }

  lemma UnhexStep(b: byte, rest: string)
    ensures var s := [HexChar(b as int / 16), HexChar(b as int % 16)] + rest;
            Unhex(s) == match Unhex(rest) case Some(bs) => Some([b] + bs) case None => None
  {
    var s := [HexChar(b as int / 16), HexChar(b as int % 16)] + rest;
    HexPair(b);
    assert s[2..] == rest;
  }

  lemma HexPair(b: byte)
    ensures var h, l := HexChar(b as int / 16), HexChar(b as int % 16);
            IsHex(h) && IsHex(l) && 16 * HexVal(h) + HexVal(l) == b as int
  {
  }

  // ----- ASCII case -----

  function LowerChar(c: char): char {
    if 'A' <= c <= 'Z' then (c as int + 32) as char else c
  }

  function Lower(s: string): (r: string)
    ensures |r| == |s| && forall i :: 0 <= i < |s| ==> r[i] == LowerChar(s[i])
  {
    seq(|s|, i requires 0 <= i < |s| => LowerChar(s[i]))
  }
}
