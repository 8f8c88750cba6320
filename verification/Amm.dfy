/** The constant-product pool: the four native quotes and the two EVM ones. */
module Amm {
  import opened Options
  import opened Breaker
  import opened Words
  import opened Products

  const TOKEN: nat := 1_000_000_000_000_000_000

  const MIN_ZAGROS: nat := 1_000_000 * TOKEN

  const MIN_ZERENYA: nat := 250 * TOKEN

  const FEE_BPS: nat := 10

  datatype Pool = Pool(zagros: nat, zerenya: nat)

  /** What the trader receives, the fee in ZAGROS, and the pool afterwards. */
  datatype Quote = Quote(out: nat, fee: nat, pool: Pool)

  predicate Thin(p: Pool) {
    p.zagros < MIN_ZAGROS || p.zerenya < MIN_ZERENYA
  }

  /** `x` in against reserves `rin`, `rout`; the 256-bit product cannot saturate. The depth keeps
      the quotient folded until `OutIs` opens it. */
  function OutFor(x: nat, rin: nat, rout: nat, depth: nat := 3): nat
  {
    if depth > 0 then OutFor(x, rin, rout, depth - 1)
    else if rin + x == 0 then 0
    else x * rout / (rin + x)
  }

  function FeeOf(amount: nat, bps: nat): nat { SatMul(amount, bps) / 10_000 }

  // ----- ZERENYA in, ZAGROS out -----

  function SwapBuy(x: nat, p: Pool, bps: nat): Option<Quote> {
    if Thin(p) then None
    else if x > Cap(p.zerenya) then None
    else
      var raw := OutFor(x, p.zerenya, p.zagros);
      if raw == 0 then None
      else
        var fee := FeeOf(raw, bps);
        var out := SatSub(raw, fee);
        if out == 0 then None
        else Some(Quote(out, fee, Pool(SatSub(p.zagros, raw), SatAdd(p.zerenya, x))))
  }

  function BridgeMintAndSwap(x: nat, p: Pool, bps: nat): Option<Quote> {
    if Thin(p) then None
    else if x == 0 then None
    else if x > Cap(p.zerenya) then None
    else
      var raw := OutFor(x, p.zerenya, p.zagros);
      if raw == 0 || raw > p.zagros then None
      else
        var fee := FeeOf(raw, bps);
        var out := SatSub(raw, fee);
        if out == 0 then None
        else Some(Quote(out, fee, Pool(p.zagros - raw, SatAdd(p.zerenya, x))))
  }

  function EvmBuy(x: nat, minOut: nat, p: Pool, bps: nat): Option<Quote> {
    if x == 0 then None
    else if Thin(p) then None
    else if x > Cap(p.zerenya) then None
    else
      var raw := OutFor(x, p.zerenya, p.zagros);
      var fee := FeeOf(raw, bps);
      var out := SatSub(raw, fee);
      if raw == 0 then None
      else if out == 0 then None
      else if out < minOut then None
      else Some(Quote(out, fee, Pool(SatSub(p.zagros, raw), SatAdd(p.zerenya, x))))
  }

  // ----- ZAGROS in, ZERENYA out -----

  function NativeSell(x: nat, minOut: nat, p: Pool, bps: nat): Option<Quote> {
    if Thin(p) then None
    else if x > Cap(p.zagros) then None
    else
      var fee := FeeOf(x, bps);
      var net := SatSub(x, fee);
      var out := OutFor(net, p.zagros, p.zerenya);
      if out == 0 then None
      else if out < minOut then None
      else Some(Quote(out, fee, Pool(SatAdd(p.zagros, net), SatSub(p.zerenya, out))))
  }

  function BridgeSwapAndBurn(x: nat, p: Pool, bps: nat): Option<Quote> {
    if x == 0 || Thin(p) then None
    else if x > Cap(p.zagros) then None
    else
      var fee := FeeOf(x, bps);
      var net := SatSub(x, fee);
      var out := OutFor(net, p.zagros, p.zerenya);
      if out == 0 || out > p.zerenya then None
      else Some(Quote(out, fee, Pool(SatAdd(p.zagros, net), p.zerenya - out)))
  }

  function EvmSell(x: nat, minOut: nat, p: Pool, bps: nat): Option<Quote> {
    if x == 0 then None
    else if Thin(p) then None
    else if x > Cap(p.zagros) then None
    else
      var fee := FeeOf(x, bps);
      var net := SatSub(x, fee);
      if net == 0 then None
      else
        var out := OutFor(net, p.zagros, p.zerenya);
        if out == 0 then None
        else if out < minOut then None
        else Some(Quote(out, fee, Pool(SatAdd(p.zagros, net), SatSub(p.zerenya, out))))
  }

  // ----- arithmetic -----

  lemma {:induction false} OutUnfolds(x: nat, rin: nat, rout: nat, depth: nat := 3)
    ensures OutFor(x, rin, rout, depth) == if rin + x == 0 then 0 else x * rout / (rin + x)
    decreases depth
  {
    if depth > 0 {
      OutUnfolds(x, rin, rout, depth - 1);
    }
  }

  /** The quotient rounds down, and never empties the other side. */
  lemma OutIs(x: nat, rin: nat, rout: nat)
    requires rin + x > 0
    ensures var out := OutFor(x, rin, rout);
            && out * (rin + x) <= x * rout < (out + 1) * (rin + x)
            && out <= rout && (x == 0 ==> out == 0)
  {
    OutUnfolds(x, rin, rout);
    var d := rin + x;
    Quotients(x * rout, d);
    Grow(x, d, rout);
    AtMost(OutFor(x, rin, rout), rout, x * rout, d);
  }

  /** Adding `x` on one side and taking the quoted amount from the other keeps the product. */
  lemma ProductKept(x: nat, rin: nat, rout: nat, out: nat)
    requires out <= rout && out * (rin + x) <= x * rout
    ensures (rin + x) * (rout - out) >= rin * rout
  {
    Distribute(rin, x, rout);
    Remove(rin + x, rout, out);
  }

  lemma Distribute(a: nat, b: nat, c: nat)
    ensures (a + b) * c == a * c + b * c
  {
  }

  lemma Remove(d: nat, a: nat, b: nat)
    requires b <= a
    ensures d * (a - b) == d * a - b * d
  {
  }

  lemma FeeBelow(amount: nat)
    ensures FeeOf(amount, FEE_BPS) <= amount / 1_000
    ensures amount > 0 ==> FeeOf(amount, FEE_BPS) < amount
    ensures amount * FEE_BPS <= U128_MAX ==> FeeOf(amount, FEE_BPS) == amount / 1_000
  {
    if amount * FEE_BPS <= U128_MAX {
      assert amount * 10 / 10_000 == amount / 1_000;
    } else {
      assert U128_MAX / 10_000 <= amount / 1_000;
    }
  }

  // ----- what a quote does -----

  predicate Fits(p: Pool) {
    p.zagros <= U128_MAX && p.zerenya <= U128_MAX
  }

  /** The product of the reserves is no smaller. Folded like `OutFor`. */
  predicate Grows(p: Pool, q: Pool, depth: nat := 3)
  {
    if depth > 0 then Grows(p, q, depth - 1) else q.zagros * q.zerenya >= p.zagros * p.zerenya
  }

  lemma {:induction false} GrowsIs(p: Pool, q: Pool, depth: nat := 3)
    ensures Grows(p, q, depth) <==> q.zagros * q.zerenya >= p.zagros * p.zerenya
    decreases depth
  {
    if depth > 0 {
      GrowsIs(p, q, depth - 1);
    }
  }

  lemma BuyGrows(x: nat, p: Pool, q: Pool, raw: nat)
    requires p.zerenya > 0 && raw == OutFor(x, p.zerenya, p.zagros)
    requires raw <= p.zagros && q == Pool(p.zagros - raw, p.zerenya + x)
    ensures Grows(p, q)
  {
    OutIs(x, p.zerenya, p.zagros);
    ProductKept(x, p.zerenya, p.zagros, raw);
    GrowsIs(p, q);
  }

  lemma SellGrows(net: nat, p: Pool, q: Pool, out: nat)
    requires p.zagros > 0 && out == OutFor(net, p.zagros, p.zerenya)
    requires out <= p.zerenya && q == Pool(p.zagros + net, p.zerenya - out)
    ensures Grows(p, q)
  {
    OutIs(net, p.zagros, p.zerenya);
    ProductKept(net, p.zagros, p.zerenya, out);
    GrowsIs(p, q);
  }

  lemma OutAtMost(x: nat, rin: nat, rout: nat)
    requires rin > 0
    ensures OutFor(x, rin, rout) <= rout
    ensures x == 0 ==> OutFor(x, rin, rout) == 0
  {
    OutIs(x, rin, rout);
  }

  /** Buying: the rounded-down quotient leaves the pool, a thousandth of it as the fee and the rest
      to the trader; all the ZERENYA stays; the product grows. */
  lemma BuyExact(x: nat, p: Pool)
    requires Fits(p) && p.zerenya + x <= U128_MAX && SwapBuy(x, p, FEE_BPS).Some?
    ensures var q := SwapBuy(x, p, FEE_BPS).value;
            && q.out + q.fee == OutFor(x, p.zerenya, p.zagros)
            && 0 < q.out && q.fee <= (q.out + q.fee) / 1_000
            && q.pool.zagros == p.zagros - q.out - q.fee && q.pool.zerenya == p.zerenya + x
            && Grows(p, q.pool)
  {
    var raw := OutFor(x, p.zerenya, p.zagros);
    OutAtMost(x, p.zerenya, p.zagros);
    FeeBelow(raw);
    BuyGrows(x, p, Pool(p.zagros - raw, p.zerenya + x), raw);
  }

  /** Selling: the fee never enters the pool, the rest does, and the quotient leaves it. */
  lemma SellExact(x: nat, minOut: nat, p: Pool)
    requires Fits(p) && p.zagros + x <= U128_MAX && NativeSell(x, minOut, p, FEE_BPS).Some?
    ensures var q := NativeSell(x, minOut, p, FEE_BPS).value;
            && q.fee <= x / 1_000 && q.out == OutFor(x - q.fee, p.zagros, p.zerenya)
            && 0 < q.out && minOut <= q.out
            && q.pool.zagros == p.zagros + x - q.fee && q.pool.zerenya == p.zerenya - q.out
            && Grows(p, q.pool)
  {
    FeeBelow(x);
    var net := x - FeeOf(x, FEE_BPS);
    var out := OutFor(net, p.zagros, p.zerenya);
    OutAtMost(net, p.zagros, p.zerenya);
    SellGrows(net, p, Pool(p.zagros + net, p.zerenya - out), out);
  }

  /** The three ways of buying agree on every input, refusals included. */
  lemma BuysAgree(x: nat, p: Pool, bps: nat)
    requires Fits(p)
    ensures BridgeMintAndSwap(x, p, bps) == SwapBuy(x, p, bps) == EvmBuy(x, 0, p, bps)
    ensures forall m: nat :: EvmBuy(x, m, p, bps) ==
              if SwapBuy(x, p, bps).Some? && SwapBuy(x, p, bps).value.out >= m then SwapBuy(x, p, bps) else None
  {
    if !Thin(p) {
      OutAtMost(x, p.zerenya, p.zagros);
    }
  }

  /** So do the three ways of selling. */
  lemma SellsAgree(x: nat, minOut: nat, p: Pool, bps: nat)
    requires Fits(p)
    ensures EvmSell(x, minOut, p, bps) == NativeSell(x, minOut, p, bps)
    ensures BridgeSwapAndBurn(x, p, bps) == NativeSell(x, 0, p, bps)
  {
    if !Thin(p) {
      var net := SatSub(x, FeeOf(x, bps));
      OutAtMost(net, p.zagros, p.zerenya);
    }
  }

  /** A single swap may be at most a twentieth of the reserve it goes into. */
  lemma CapIs(reserve: nat)
    requires reserve * 5 <= U128_MAX
    ensures Cap(reserve) * 20 <= reserve < (Cap(reserve) + 1) * 20
  {
  }

  /** A purchase is quoted exactly when the pool holds a million ZAGROS and 250 ZERENYA, the amount is at most a
      twentieth of the ZERENYA in it, and something is left after the fee of a thousandth. */
  lemma BuyQuotedIff(x: nat, p: Pool)
    requires Fits(p) && p.zagros * 10 <= U128_MAX && p.zerenya * 5 <= U128_MAX
    ensures var raw := OutFor(x, p.zerenya, p.zagros);
            && (SwapBuy(x, p, FEE_BPS).Some? <==>
                  && p.zagros >= 1_000_000 * 1_000_000_000_000_000_000 && p.zerenya >= 250 * 1_000_000_000_000_000_000
                  && x * 20 <= p.zerenya && raw > 0)
            && (SwapBuy(x, p, FEE_BPS).Some? ==> SwapBuy(x, p, FEE_BPS).value.fee == raw / 1_000)
  {
    if !Thin(p) {
      OutAtMost(x, p.zerenya, p.zagros);
      FeeBelow(OutFor(x, p.zerenya, p.zagros));
    }
  }

  lemma SellQuotedIff(x: nat, minOut: nat, p: Pool)
    requires Fits(p) && p.zagros * 5 <= U128_MAX && x * 10 <= U128_MAX
    ensures var out := OutFor(x - FeeOf(x, FEE_BPS), p.zagros, p.zerenya);
            && FeeOf(x, FEE_BPS) == x / 1_000
            && (NativeSell(x, minOut, p, FEE_BPS).Some? <==>
                  && p.zagros >= 1_000_000 * 1_000_000_000_000_000_000 && p.zerenya >= 250 * 1_000_000_000_000_000_000
                  && x * 20 <= p.zagros && out > 0 && out >= minOut)
            && (NativeSell(x, minOut, p, FEE_BPS).Some? ==> NativeSell(x, minOut, p, FEE_BPS).value.fee == x / 1_000)
  {
    FeeBelow(x);
  }

  lemma GrowsTrans(p: Pool, q: Pool, r: Pool)
    requires Grows(p, q) && Grows(q, r)
    ensures Grows(p, r)
  {
    GrowsIs(p, q);
    GrowsIs(q, r);
    GrowsIs(p, r);
  }

  lemma Cancel(a: nat, b: nat, c: nat, d: nat)
    requires a * b >= c * d && b <= d && d > 0
    ensures a >= c
  {
    Grow(b, d, a);
    AtMost(c, a, a * d, d);
  }

  /** Whoever takes one asset out of a pool whose product did not fall left the other in. */
  lemma OneSideHolds(p: Pool, q: Pool)
    requires Grows(p, q) && p.zagros > 0 && p.zerenya > 0
    ensures q.zerenya <= p.zerenya ==> q.zagros >= p.zagros
    ensures q.zagros <= p.zagros ==> q.zerenya >= p.zerenya
  {
    GrowsIs(p, q);
    if q.zerenya <= p.zerenya {
      Cancel(q.zagros, q.zerenya, p.zagros, p.zerenya);
    }
    if q.zagros <= p.zagros {
      Cancel(q.zerenya, q.zagros, p.zerenya, p.zagros);
    }
  }
}
