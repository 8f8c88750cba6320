/** The on-chain bridge authorities and the counting of their signatures. */
module Multisig {
  import opened Options
  import opened Text

  const KEY_LENGTH: nat := 32

  type Key = seq<byte>

  /** Text is bytes here, one character each. A hash is ideal: it stands for the text hashed into it. */
  datatype ProposalId = ProposalId(preimage: string)

  datatype Content = Content(
    id: ProposalId, mint: bool, amount: nat, recipient: string, chain: string, hash: string,
    timestamp: nat, nonce: nat, minOut: nat, autoSwap: bool)

  /** The hashed bytes: the identifier fills the first 32 of them, `text` the rest; the time of the signature
      is bound to the hash of both. */
  datatype Message = Message(id: ProposalId, text: string, signedAt: nat)

  // ----- what is hashed -----

  /** `n` in `width` bytes, lowest first. */
  function LittleEndian(n: nat, width: nat): (r: string)
    ensures |r| == width
  {
    if width == 0 then [] else [(n % 256) as char] + LittleEndian(n / 256, width - 1)
  }

  /** What the bytes say, lowest first. */
  function Value(s: string): nat {
    if s == [] then 0 else s[0] as nat + 256 * Value(s[1..])
  }

  lemma {:induction false} ValueIs(n: nat, width: nat)
    requires n < Span(width)
    ensures Value(LittleEndian(n, width)) == n
  {
    if width > 0 {
      ValueIs(n / 256, width - 1);
      var rest := LittleEndian(n / 256, width - 1);
      assert ([(n % 256) as char] + rest)[1..] == rest;
    }
  }

  /** Where each field stands among the hashed bytes: four of kind, sixteen of amount, the three texts, and 41 of
      times, counters, minimum, flag and chain. */
  lemma Layout(c: Content, chainId: nat, signedAt: nat)
    ensures var t, k := SigningMessage(c, chainId, signedAt).text, 20 + |c.recipient| + |c.chain| + |c.hash|;
            && |t| == k + 41
            && t[..4] == (if c.mint then "Mint" else "Burn") && t[4..20] == LittleEndian(c.amount, 16)
            && t[20..k] == c.recipient + c.chain + c.hash
            && t[k..k + 8] == LittleEndian(c.timestamp, 8) && t[k + 8..k + 16] == LittleEndian(c.nonce, 8)
            && t[k + 16..k + 32] == LittleEndian(c.minOut, 16)
            && t[k + 32] == (if c.autoSwap then 1 as char else 0 as char)
            && t[k + 33..] == LittleEndian(chainId, 8)
  {
    var t, k := SigningMessage(c, chainId, signedAt).text, 20 + |c.recipient| + |c.chain| + |c.hash|;
    var front, texts, back := Front(c), Texts(c), Back(c, chainId);
    assert t[..20] == front && t[20..k] == texts && t[k..] == back;
    assert t[..4] == t[..20][..4] && t[4..20] == t[..20][4..];
    assert back[..8] == LittleEndian(c.timestamp, 8) && back[8..16] == LittleEndian(c.nonce, 8);
    assert back[16..32] == LittleEndian(c.minOut, 16) && back[33..] == LittleEndian(chainId, 8);
    assert t[k..k + 8] == t[k..][..8] && t[k + 8..k + 16] == t[k..][8..16] && t[k + 16..k + 32] == t[k..][16..32];
    assert t[k + 33..] == t[k..][33..] && t[k + 32] == t[k..][32];
  }

  function Span(width: nat): nat {
    if width == 0 then 1 else 256 * Span(width - 1)
  }

  function KindText(mint: bool): (r: string)
    ensures |r| == 4
  {
    if mint then "Mint" else "Burn"
  }

  /** No lengths and no separators: the three texts follow each other directly. */
  function Texts(c: Content): string { c.recipient + c.chain + c.hash }

  function Front(c: Content): string { KindText(c.mint) + LittleEndian(c.amount, 16) }

  function Back(c: Content, chainId: nat): string {
    LittleEndian(c.timestamp, 8) + (LittleEndian(c.nonce, 8) + (LittleEndian(c.minOut, 16)
      + ([if c.autoSwap then 1 as char else 0 as char] + LittleEndian(chainId, 8))))
  }

  function SigningMessage(c: Content, chainId: nat, signedAt: nat): Message {
    Message(c.id, Front(c) + Texts(c) + Back(c, chainId), signedAt)
  }

  /** Signatures are ideal: one is either made with a key over a message, or worthless. */
  datatype Signature = Made(key: Key, message: Message) | Garbage

  datatype BridgeSignature = BridgeSignature(authority: string, signature: Signature, key: Key, timestamp: nat)

  datatype Proposal = Proposal(content: Content, signatures: seq<BridgeSignature>, executed: bool)

  datatype Authority = Authority(address: string, key: Key, active: bool)

  datatype AuthoritySet = AuthoritySet(authorities: seq<Authority>, required: nat)

  // ----- a well-formed set -----

  function ActiveCount(authorities: seq<Authority>): nat {
    if authorities == [] then 0
    else ActiveCount(authorities[..|authorities| - 1]) + if authorities[|authorities| - 1].active then 1 else 0
  }

  predicate Distinct(authorities: seq<Authority>) {
    forall i, k :: 0 <= i < k < |authorities| ==>
      Lower(authorities[i].address) != Lower(authorities[k].address) && authorities[i].key != authorities[k].key
  }

  predicate Valid(s: AuthoritySet) {
    && s.authorities != [] && s.required > 0
    && s.required <= ActiveCount(s.authorities)
    && Distinct(s.authorities)
  }

  method Validate(s: AuthoritySet) returns (ok: bool)
    ensures ok == Valid(s)
  {
    if s.authorities == [] || s.required == 0 {
      return false;
    }
    var active := CountActive(s.authorities);
    if s.required > active {
      return false;
    }
    ok := AllDistinct(s.authorities);
  }

  method CountActive(authorities: seq<Authority>) returns (n: nat)
    ensures n == ActiveCount(authorities)
  {
    n := 0;
    var i := 0;
    while i < |authorities|
      invariant i <= |authorities|
      invariant n == ActiveCount(authorities[..i])
    {
      assert authorities[..i + 1][..i] == authorities[..i];
      if authorities[i].active {
        n := n + 1;
      }
      i := i + 1;
    }
    assert authorities[..i] == authorities;
  }

  method AllDistinct(authorities: seq<Authority>) returns (ok: bool)
    ensures ok == Distinct(authorities)
  {
    var seenAddresses: set<string>, seenKeys: set<Key> := {}, {};
    var i := 0;
    while i < |authorities|
      invariant i <= |authorities|
      invariant seenAddresses == set k | 0 <= k < i :: Lower(authorities[k].address)
      invariant seenKeys == set k | 0 <= k < i :: authorities[k].key
      invariant Distinct(authorities[..i])
    {
      var a := authorities[i];
      if Lower(a.address) in seenAddresses {
        return false;
      }
      seenAddresses := seenAddresses + {Lower(a.address)};
      if a.key in seenKeys {
        return false;
      }
      seenKeys := seenKeys + {a.key};
      i := i + 1;
    }
    assert authorities[..i] == authorities;
    return true;
  }

  // ----- counting -----

  function Find(authorities: seq<Authority>, canonical: string): Option<Authority> {
    if authorities == [] then None
    else if Lower(authorities[0].address) == canonical then Some(authorities[0])
    else Find(authorities[1..], canonical)
  }

  predicate Verifies(sig: Signature, message: Message, key: Key) {
    sig == Made(key, message)
  }

  /** The checks on one signature of the list. */
  predicate Accepts(s: AuthoritySet, sig: BridgeSignature, c: Content, chainId: nat) {
    match Find(s.authorities, Lower(sig.authority))
    case None => false
    case Some(a) =>
      a.active && |sig.key| == KEY_LENGTH && sig.key == a.key
      && Verifies(sig.signature, SigningMessage(c, chainId, sig.timestamp), a.key)
  }

  function Seen(s: AuthoritySet, sigs: seq<BridgeSignature>, c: Content, chainId: nat): set<string> {
    set i | 0 <= i < |sigs| && Accepts(s, sigs[i], c, chainId) :: Lower(sigs[i].authority)
  }

  method CountValidSignatures(s: AuthoritySet, p: Proposal, chainId: nat) returns (n: nat)
    ensures n == |Seen(s, p.signatures, p.content, chainId)|
  {
    var seen: set<string> := {};
    var i := 0;
    while i < |p.signatures|
      invariant i <= |p.signatures|
      invariant seen == Seen(s, p.signatures[..i], p.content, chainId)
    {
      var sig := p.signatures[i];
      SeenNext(s, p.signatures, i, p.content, chainId);
      var canonical := Lower(sig.authority);
      if canonical !in seen {
        match Find(s.authorities, canonical) {
          case None =>
          case Some(a) =>
            if a.active && |sig.key| == KEY_LENGTH && sig.key == a.key
               && Verifies(sig.signature, SigningMessage(p.content, chainId, sig.timestamp), a.key) {
              seen := seen + {canonical};
            }
        }
      }
      i := i + 1;
    }
    assert p.signatures[..i] == p.signatures;
    return |seen|;
  }

  lemma SeenNext(s: AuthoritySet, sigs: seq<BridgeSignature>, i: nat, c: Content, chainId: nat)
    requires i < |sigs|
    ensures Seen(s, sigs[..i + 1], c, chainId) == Seen(s, sigs[..i], c, chainId) +
            if Accepts(s, sigs[i], c, chainId) then {Lower(sigs[i].authority)} else {}
  {
    var before, after := sigs[..i], sigs[..i + 1];
    forall x | x in Seen(s, before, c, chainId)
      ensures x in Seen(s, after, c, chainId)
    {
      var k :| 0 <= k < |before| && Accepts(s, before[k], c, chainId) && x == Lower(before[k].authority);
      assert after[k] == before[k];
    }
    forall x | x in Seen(s, after, c, chainId)
      ensures x in Seen(s, before, c, chainId) || (Accepts(s, sigs[i], c, chainId) && x == Lower(sigs[i].authority))
    {
      var k :| 0 <= k < |after| && Accepts(s, after[k], c, chainId) && x == Lower(after[k].authority);
      if k < i {
        assert before[k] == after[k];
      }
    }
    assert after[i] == sigs[i];
  }

  // ----- what the count means -----

  /** The signature names this authority in some letter case and is made with its key over the proposal. */
  predicate Backs(sig: BridgeSignature, a: Authority, c: Content, chainId: nat) {
    && Lower(sig.authority) == Lower(a.address)
    && |sig.key| == KEY_LENGTH && sig.key == a.key
    && Verifies(sig.signature, SigningMessage(c, chainId, sig.timestamp), a.key)
  }

  /** The active authorities with at least one valid signature in the list. */
  function Signers(s: AuthoritySet, sigs: seq<BridgeSignature>, c: Content, chainId: nat): set<Authority> {
    set a | a in s.authorities && a.active && exists i :: 0 <= i < |sigs| && Backs(sigs[i], a, c, chainId)
  }

  lemma {:induction false} FindIs(authorities: seq<Authority>, canonical: string, i: nat)
    requires Distinct(authorities) && i < |authorities| && Lower(authorities[i].address) == canonical
    ensures Find(authorities, canonical) == Some(authorities[i])
  {
    if i > 0 {
      assert Distinct(authorities[1..]);
      FindIs(authorities[1..], canonical, i - 1);
    }
  }

  lemma {:induction false} FindGives(authorities: seq<Authority>, canonical: string)
    ensures match Find(authorities, canonical)
            case Some(a) => a in authorities && Lower(a.address) == canonical
            case None => forall a :: a in authorities ==> Lower(a.address) != canonical
  {
    if authorities != [] {
      FindGives(authorities[1..], canonical);
      assert authorities == [authorities[0]] + authorities[1..];
    }
  }

  lemma AcceptsIff(s: AuthoritySet, sig: BridgeSignature, c: Content, chainId: nat)
    requires Distinct(s.authorities)
    ensures Accepts(s, sig, c, chainId)
       <==> exists a :: a in s.authorities && a.active && Backs(sig, a, c, chainId)
  {
    FindGives(s.authorities, Lower(sig.authority));
    forall a | a in s.authorities && a.active && Backs(sig, a, c, chainId)
      ensures Accepts(s, sig, c, chainId)
    {
      var i :| 0 <= i < |s.authorities| && s.authorities[i] == a;
      FindIs(s.authorities, Lower(sig.authority), i);
    }
    if Accepts(s, sig, c, chainId) {
      var a := Find(s.authorities, Lower(sig.authority)).value;
      assert Backs(sig, a, c, chainId);
    }
  }

  /** The image of a set under a map that keeps its members apart has as many members. */
  lemma {:induction false} ImageSize<A(!new), B>(s: set<A>, t: set<B>, f: A -> B)
    requires forall a, b :: a in s && b in s && f(a) == f(b) ==> a == b
    requires forall a :: a in s ==> f(a) in t
    requires forall y :: y in t ==> exists a :: a in s && f(a) == y
    ensures |t| == |s|
  {
    if s == {} {
      assert t == {};
    } else {
      var a :| a in s;
      forall y | y in t - {f(a)}
        ensures exists b :: b in s - {a} && f(b) == y
      {
        var b :| b in s && f(b) == y;
        assert b in s - {a};
      }
      ImageSize(s - {a}, t - {f(a)}, f);
    }
  }

  /** The count is the number of active authorities that have signed, for every valid set. */
  lemma CountIsSigners(s: AuthoritySet, sigs: seq<BridgeSignature>, c: Content, chainId: nat)
    requires Distinct(s.authorities)
    ensures |Seen(s, sigs, c, chainId)| == |Signers(s, sigs, c, chainId)|
  {
    var f := (a: Authority) => Lower(a.address);
    var signers, seen := Signers(s, sigs, c, chainId), Seen(s, sigs, c, chainId);
    forall y | y in seen
      ensures exists a :: a in signers && f(a) == y
    {
      var i :| 0 <= i < |sigs| && Accepts(s, sigs[i], c, chainId) && y == Lower(sigs[i].authority);
      AcceptsIff(s, sigs[i], c, chainId);
      var a :| a in s.authorities && a.active && Backs(sigs[i], a, c, chainId);
      assert a in signers && f(a) == y;
    }
    forall a | a in signers
      ensures f(a) in seen
    {
      var i :| 0 <= i < |sigs| && Backs(sigs[i], a, c, chainId);
      AcceptsIff(s, sigs[i], c, chainId);
    }
    ImageSize(signers, seen, f);
  }

  /** The signatures of a list with their authorities in lower case, order and repetition dropped. */
  function Essence(sigs: seq<BridgeSignature>): set<BridgeSignature> {
    set i | 0 <= i < |sigs| :: sigs[i].(authority := Lower(sigs[i].authority))
  }

  /** Reordering, repeating, or changing the letter case of signatures never changes the count. */
  lemma CountIgnoresOrder(s: AuthoritySet, sigs: seq<BridgeSignature>, other: seq<BridgeSignature>, c: Content,
      chainId: nat)
    requires Essence(sigs) == Essence(other)
    ensures Seen(s, sigs, c, chainId) == Seen(s, other, c, chainId)
  {
    SeenWithin(s, sigs, other, c, chainId);
    SeenWithin(s, other, sigs, c, chainId);
  }

  lemma SeenWithin(s: AuthoritySet, sigs: seq<BridgeSignature>, other: seq<BridgeSignature>, c: Content, chainId: nat)
    requires Essence(sigs) <= Essence(other)
    ensures Seen(s, sigs, c, chainId) <= Seen(s, other, c, chainId)
  {
    forall y | y in Seen(s, sigs, c, chainId)
      ensures y in Seen(s, other, c, chainId)
    {
      var i :| 0 <= i < |sigs| && Accepts(s, sigs[i], c, chainId) && y == Lower(sigs[i].authority);
      var e := sigs[i].(authority := Lower(sigs[i].authority));
      assert e in Essence(sigs);
      var k :| 0 <= k < |other| && e == other[k].(authority := Lower(other[k].authority));
      assert Lower(other[k].authority) == y && Accepts(s, other[k], c, chainId);
    }
  }

  // ----- what a signature binds -----

  /** The numbers fit their fields. */
  predicate InRange(c: Content, chainId: nat) {
    && c.amount < Span(16) && c.minOut < Span(16)
    && c.timestamp < Span(8) && c.nonce < Span(8) && chainId < Span(8)
  }

  lemma {:induction false} LittleEndianIs(n: nat, m: nat, width: nat)
    requires n < Span(width) && m < Span(width) && LittleEndian(n, width) == LittleEndian(m, width)
    ensures n == m
  {
    if width > 0 {
      var a, b := LittleEndian(n, width), LittleEndian(m, width);
      assert a[0] == b[0] && a[1..] == b[1..];
      assert a[1..] == LittleEndian(n / 256, width - 1) && b[1..] == LittleEndian(m / 256, width - 1);
      LittleEndianIs(n / 256, m / 256, width - 1);
    }
  }

  /** Equal texts split at the same place have equal parts. */
  lemma SplitHere(a: string, b: string, a': string, b': string)
    requires a + b == a' + b' && |a| == |a'|
    ensures a == a' && b == b'
  {
    assert a == (a + b)[..|a|] && a' == (a' + b')[..|a|];
    assert b == (a + b)[|a|..] && b' == (a' + b')[|a|..];
  }

  lemma FrontIs(c: Content, d: Content)
    requires c.amount < Span(16) && d.amount < Span(16) && Front(c) == Front(d)
    ensures c.mint == d.mint && c.amount == d.amount
  {
    SplitHere(KindText(c.mint), LittleEndian(c.amount, 16), KindText(d.mint), LittleEndian(d.amount, 16));
    assert "Mint"[0] != "Burn"[0];
    LittleEndianIs(c.amount, d.amount, 16);
  }

  lemma BackIs(c: Content, d: Content, chainId: nat, other: nat)
    requires InRange(c, chainId) && InRange(d, other) && Back(c, chainId) == Back(d, other)
    ensures c.timestamp == d.timestamp && c.nonce == d.nonce && c.minOut == d.minOut
    ensures c.autoSwap == d.autoSwap && chainId == other
  {
    var x, y := LittleEndian(chainId, 8), LittleEndian(other, 8);
    var f, g := [if c.autoSwap then 1 as char else 0 as char], [if d.autoSwap then 1 as char else 0 as char];
    var u, v := LittleEndian(c.minOut, 16), LittleEndian(d.minOut, 16);
    var k, l := LittleEndian(c.nonce, 8), LittleEndian(d.nonce, 8);
    SplitHere(LittleEndian(c.timestamp, 8), k + (u + (f + x)), LittleEndian(d.timestamp, 8), l + (v + (g + y)));
    SplitHere(k, u + (f + x), l, v + (g + y));
    SplitHere(u, f + x, v, g + y);
    SplitHere(f, x, g, y);
    LittleEndianIs(c.timestamp, d.timestamp, 8);
    LittleEndianIs(c.nonce, d.nonce, 8);
    LittleEndianIs(c.minOut, d.minOut, 16);
    LittleEndianIs(chainId, other, 8);
    assert f[0] == g[0];
  }

  /** Two proposals share a message exactly when all numbers, flags and the identifier agree and the three
      texts run together to the same text. */
  lemma MessageIs(c: Content, d: Content, chainId: nat, other: nat, at: nat, at': nat)
    requires InRange(c, chainId) && InRange(d, other)
    ensures SigningMessage(c, chainId, at) == SigningMessage(d, other, at') <==>
              && c.id == d.id && c.mint == d.mint && c.amount == d.amount && Texts(c) == Texts(d)
              && c.timestamp == d.timestamp && c.nonce == d.nonce && c.minOut == d.minOut
              && c.autoSwap == d.autoSwap && chainId == other && at == at'
  {
    var b, e := Back(c, chainId), Back(d, other);
    if SigningMessage(c, chainId, at) == SigningMessage(d, other, at') {
      var x, y := Front(c) + Texts(c), Front(d) + Texts(d);
      assert |b| == 41 == |e|;
      SplitHere(x, b, y, e);
      SplitHere(Front(c), Texts(c), Front(d), Texts(d));
      FrontIs(c, d);
      BackIs(c, d, chainId, other);
    }
  }

  /** Texts that run together alike are alike exactly when they are cut at the same places. */
  lemma SameTexts(c: Content, d: Content)
    requires Texts(c) == Texts(d)
    ensures c.recipient == d.recipient && c.chain == d.chain && c.hash == d.hash <==>
            |c.recipient| == |d.recipient| && |c.chain| == |d.chain|
  {
    if |c.recipient| == |d.recipient| && |c.chain| == |d.chain| {
      assert c.recipient + (c.chain + c.hash) == Texts(c) == Texts(d) == d.recipient + (d.chain + d.hash);
      SplitHere(c.recipient, c.chain + c.hash, d.recipient, d.chain + d.hash);
      SplitHere(c.chain, c.hash, d.chain, d.hash);
    }
  }

  /** A signature that counts for two proposals: they differ in nothing but where the texts are cut, and are the
      same exactly when the recipients are equally long and the chain names are. */
  lemma SignatureBindsContent(s: AuthoritySet, sig: BridgeSignature, c: Content, d: Content, chainId: nat, other: nat)
    requires InRange(c, chainId) && InRange(d, other)
    requires Accepts(s, sig, c, chainId) && Accepts(s, sig, d, other)
    ensures Texts(c) == Texts(d) && chainId == other
    ensures d == c.(recipient := d.recipient, chain := d.chain, hash := d.hash)
    ensures c == d <==> |c.recipient| == |d.recipient| && |c.chain| == |d.chain|
  {
    MessageIs(c, d, chainId, other, sig.timestamp, sig.timestamp);
    SameTexts(c, d);
  }
}
