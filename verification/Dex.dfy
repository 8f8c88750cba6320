/** Swaps settled against accounts: who pays, who receives, and what is conserved. */
module Dex {
  import opened Options
  import opened Sums
  import opened Breaker
  import opened Amm
  import opened Words

  datatype Holding = Holding(zagros: nat, zerenya: nat)

  type Accounts = map<nat, Holding>

  /** The pool's reserves are the balances of the zero address. */
  const POOL: nat := 0

  function At(s: Accounts, a: nat): Holding {
    if a in s then s[a] else Holding(0, 0)
  }

  function PoolOf(s: Accounts): Pool {
    Pool(At(s, POOL).zagros, At(s, POOL).zerenya)
  }

  function WithPool(s: Accounts, p: Pool): Accounts {
    s[POOL := Holding(p.zagros, p.zerenya)]
  }

  // ----- settling one quote -----

  function PayZagros(s: Accounts, a: nat, amount: nat): Accounts {
    s[a := At(s, a).(zagros := SatSub(At(s, a).zagros, amount))]
  }

  function PayZerenya(s: Accounts, a: nat, amount: nat): Accounts {
    s[a := At(s, a).(zerenya := SatSub(At(s, a).zerenya, amount))]
  }

  function GetZagros(s: Accounts, a: nat, amount: nat): Accounts {
    s[a := At(s, a).(zagros := SatAdd(At(s, a).zagros, amount))]
  }

  function GetZerenya(s: Accounts, a: nat, amount: nat): Accounts {
    s[a := At(s, a).(zerenya := SatAdd(At(s, a).zerenya, amount))]
  }

  function BuySettled(s: Accounts, caller: nat, x: nat, q: Quote): Accounts {
    WithPool(GetZagros(PayZerenya(s, caller, x), caller, q.out), q.pool)
  }

  function SellSettled(s: Accounts, caller: nat, x: nat, q: Quote): Accounts {
    WithPool(GetZerenya(PayZagros(s, caller, x), caller, q.out), q.pool)
  }

  class EvmExecutor {
    var accounts: Accounts
    const volume: VolumeRecord

    constructor (s: Accounts, v: VolumeRecord)
      ensures accounts == s && volume == v
    {
      accounts, volume := s, v;
    }

    method SubNative(a: nat, amount: nat) returns (ok: bool)
      modifies this
      ensures ok == (At(old(accounts), a).zagros >= amount)
      ensures accounts == if ok then PayZagros(old(accounts), a, amount) else old(accounts)
    {
      var acc := if a in accounts then accounts[a] else Holding(0, 0);
      if acc.zagros < amount {
        return false;
      }
      accounts := accounts[a := acc.(zagros := acc.zagros - amount)];
      return true;
    }

    method SubZerenya(a: nat, amount: nat) returns (ok: bool)
      modifies this
      ensures ok == (At(old(accounts), a).zerenya >= amount)
      ensures accounts == if ok then PayZerenya(old(accounts), a, amount) else old(accounts)
    {
      var acc := if a in accounts then accounts[a] else Holding(0, 0);
      if acc.zerenya < amount {
        return false;
      }
      accounts := accounts[a := acc.(zerenya := acc.zerenya - amount)];
      return true;
    }

    method AddNative(a: nat, amount: nat)
      modifies this
      ensures accounts == GetZagros(old(accounts), a, amount)
    {
      var acc := if a in accounts then accounts[a] else Holding(0, 0);
      accounts := accounts[a := acc.(zagros := SatAdd(acc.zagros, amount))];
    }

    method AddZerenya(a: nat, amount: nat)
      modifies this
      ensures accounts == GetZerenya(old(accounts), a, amount)
    {
      var acc := if a in accounts then accounts[a] else Holding(0, 0);
      accounts := accounts[a := acc.(zerenya := SatAdd(acc.zerenya, amount))];
    }

    method SetPoolReserves(p: Pool)
      modifies this
      ensures accounts == WithPool(old(accounts), p)
    {
      accounts := accounts[POOL := Holding(p.zagros, p.zerenya)];
    }

    /** Moves the money of a sale exactly as the native sale would, at the native quote; a refusal
        leaves the accounts as they were. */
    method SwapSell(caller: nat, x: nat, minOut: nat, secs: nat) returns (fee: Option<nat>)
      requires Amm.Fits(PoolOf(accounts))
      modifies this, volume
      ensures var s := old(accounts);
              var p := PoolOf(s);
              var q := NativeSell(x, minOut, p, FEE_BPS);
              && (fee.Some? <==> q.Some? && At(s, caller).zagros >= x
                                 && Checked(old(volume.stored), ZagrosIn, x, p.zagros, secs).Some?)
              && (fee.Some? ==> fee.value == q.value.fee && accounts == SellSettled(s, caller, x, q.value))
              && (fee.None? ==> accounts == s)
    {
      var p := PoolOf(accounts);
      SellsAgree(x, minOut, p, FEE_BPS);
      if x == 0 || Thin(p) || x > Cap(p.zagros) {
        return None;
      }
      var recorded := volume.CheckAndRecord(ZagrosIn, x, p.zagros, secs);
      if recorded.None? {
        return None;
      }
      var swapFee := FeeOf(x, FEE_BPS);
      var net := SatSub(x, swapFee);
      if net == 0 {
        return None;
      }
      var out := OutFor(net, p.zagros, p.zerenya);
      if out == 0 || out < minOut {
        return None;
      }
      var paid := SubNative(caller, x);
      if !paid {
        return None;
      }
      AddZerenya(caller, out);
      SetPoolReserves(Pool(SatAdd(p.zagros, net), SatSub(p.zerenya, out)));
      return Some(swapFee);
    }

    method SwapBuy(caller: nat, x: nat, minOut: nat, secs: nat) returns (fee: Option<nat>)
      requires Amm.Fits(PoolOf(accounts))
      modifies this, volume
      ensures var s := old(accounts);
              var p := PoolOf(s);
              var q := Amm.SwapBuy(x, p, FEE_BPS);
              && (fee.Some? <==> q.Some? && q.value.out >= minOut && At(s, caller).zerenya >= x
                                 && Checked(old(volume.stored), ZerenyaIn, x, p.zerenya, secs).Some?)
              && (fee.Some? ==> fee.value == q.value.fee && accounts == BuySettled(s, caller, x, q.value))
              && (fee.None? ==> accounts == s)
    {
      var p := PoolOf(accounts);
      BuysAgree(x, p, FEE_BPS);
      if x == 0 || Thin(p) || x > Cap(p.zerenya) {
        return None;
      }
      var recorded := volume.CheckAndRecord(ZerenyaIn, x, p.zerenya, secs);
      if recorded.None? {
        return None;
      }
      var raw := OutFor(x, p.zerenya, p.zagros);
      var swapFee := FeeOf(raw, FEE_BPS);
      var out := SatSub(raw, swapFee);
      if raw == 0 || out == 0 || out < minOut {
        return None;
      }
      var paid := SubZerenya(caller, x);
      if !paid {
        return None;
      }
      AddNative(caller, out);
      SetPoolReserves(Pool(SatSub(p.zagros, raw), SatAdd(p.zerenya, x)));
      return Some(swapFee);
    }
  }

  // ----- runs -----

  /** `fees` is the ZAGROS handed on as rewards, `backed` the ZERENYA minted over the bridge. */
  datatype World = World(accounts: Accounts, fees: nat, backed: nat)

  datatype Deal =
    | Buying(caller: nat, x: nat, minOut: nat)
    | Selling(caller: nat, x: nat, minOut: nat)
    | Minting(receiver: nat, x: nat, minOut: nat)
    | Burning(caller: nat, x: nat, minOut: nat)

  function QuoteFor(w: World, d: Deal): Option<Quote> {
    var p := PoolOf(w.accounts);
    match d
    case Buying(_, x, _) => Amm.SwapBuy(x, p, FEE_BPS)
    case Selling(_, x, m) => NativeSell(x, m, p, FEE_BPS)
    case Minting(_, x, _) => BridgeMintAndSwap(x, p, FEE_BPS)
    case Burning(_, x, _) => BridgeSwapAndBurn(x, p, FEE_BPS)
  }

  /** The sender can pay, and what leaves the bridge is backed. */
  predicate Covered(w: World, d: Deal, q: Quote) {
    match d
    case Buying(c, x, _) => At(w.accounts, c).zerenya >= x
    case Selling(c, x, _) => At(w.accounts, c).zagros >= x
    case Minting(_, _, _) => true
    case Burning(c, x, _) => At(w.accounts, c).zagros >= x && w.backed >= q.out
  }

  function Settled(w: World, d: Deal, q: Quote): World {
    var s := w.accounts;
    match d
    case Buying(c, x, _) => World(BuySettled(s, c, x, q), w.fees + q.fee, w.backed)
    case Selling(c, x, _) => World(SellSettled(s, c, x, q), w.fees + q.fee, w.backed)
    case Minting(r, x, _) => World(WithPool(GetZagros(s, r, q.out), q.pool), w.fees + q.fee, SatAdd(w.backed, x))
    case Burning(c, x, _) => World(WithPool(PayZagros(s, c, x), q.pool), w.fees + q.fee, SatSub(w.backed, q.out))
  }

  function Done(w: World, d: Deal): World {
    match QuoteFor(w, d)
    case None => w
    case Some(q) => if Covered(w, d, q) && q.out >= d.minOut then Settled(w, d, q) else w
  }

  /** A deal goes through exactly when it is quoted at the minimum asked for or better, its party has what it gives,
      and what leaves over the bridge is backed; the pool is the zero address. */
  lemma DoneIff(w: World, d: Deal)
    ensures var q, pool := QuoteFor(w, d), At(w.accounts, 0);
            var mine := match d case Minting(r, _, _) => At(w.accounts, r) case Buying(c, _, _) => At(w.accounts, c)
                                case Selling(c, _, _) => At(w.accounts, c) case Burning(c, _, _) => At(w.accounts, c);
            && PoolOf(w.accounts) == Pool(pool.zagros, pool.zerenya)
            && Done(w, d) ==
               if q.Some? && d.minOut <= q.value.out
                  && (d.Buying? ==> d.x <= mine.zerenya)
                  && (d.Selling? || d.Burning? ==> d.x <= mine.zagros)
                  && (d.Burning? ==> q.value.out <= w.backed)
               then Settled(w, d, q.value) else w
  {
  }

  function Party(d: Deal): nat {
    if d.Minting? then d.receiver else d.caller
  }

  function ZagrosHeld(s: Accounts): nat -> int { (a: nat) => At(s, a).zagros }

  function ZerenyaHeld(s: Accounts): nat -> int { (a: nat) => At(s, a).zerenya }

  /** All ZAGROS, the fees included. */
  ghost function ZagrosTotal(w: World): int { Sum(w.accounts.Keys, ZagrosHeld(w.accounts)) + w.fees }

  /** All ZERENYA that did not come over the bridge. */
  ghost function NativeZerenya(w: World): int { Sum(w.accounts.Keys, ZerenyaHeld(w.accounts)) - w.backed }

  ghost predicate Bounded(w: World) {
    && ZagrosTotal(w) <= U128_MAX
    && NativeZerenya(w) + w.backed <= U128_MAX
    && w.backed <= U128_MAX
  }

  lemma HeldAtMost(s: Accounts, a: nat, b: nat)
    requires a != b
    ensures At(s, a).zagros + At(s, b).zagros <= Sum(s.Keys, ZagrosHeld(s))
    ensures At(s, a).zerenya + At(s, b).zerenya <= Sum(s.Keys, ZerenyaHeld(s))
  {
    PairAtMost(s.Keys, ZagrosHeld(s), a, b);
    PairAtMost(s.Keys, ZerenyaHeld(s), a, b);
  }

  lemma PairAtMost(keys: set<nat>, f: nat -> int, a: nat, b: nat)
    requires a != b && (forall k: nat :: f(k) >= 0) && forall k: nat :: k !in keys ==> f(k) == 0
    ensures f(a) + f(b) <= Sum(keys, f)
  {
    var more := keys + {a, b};
    SumWiden(keys, more, f);
    SumPick(more, f, a);
    SumPick(more - {a}, f, b);
    SumNatural(more - {a} - {b}, f);
  }

  /** When only the party and the pool change, the sums move by what those two gain. */
  lemma TwoChange(keys: set<nat>, keys': set<nat>, f: nat -> int, g: nat -> int, a: nat, b: nat)
    requires a != b && keys' == keys + {a, b}
    requires forall k: nat :: k !in keys ==> f(k) == 0
    requires forall k: nat :: k != a && k != b ==> f(k) == g(k)
    ensures Sum(keys', g) == Sum(keys, f) + (g(a) - f(a)) + (g(b) - f(b))
  {
    SumWiden(keys, keys', f);
    SumPick(keys', f, a);
    SumPick(keys' - {a}, f, b);
    SumPick(keys', g, a);
    SumPick(keys' - {a}, g, b);
    SumSame(keys' - {a} - {b}, f, g);
  }

  /** Only the party and the pool change; together with the fees they keep all ZAGROS, and all
      ZERENYA up to the change of the backing. */
  predicate Balanced(w: World, t: World, a: nat) {
    var party, pool := At(t.accounts, a), At(t.accounts, POOL);
    var party0, pool0 := At(w.accounts, a), At(w.accounts, POOL);
    && t.accounts.Keys == w.accounts.Keys + {a, POOL}
    && (forall b | b in t.accounts && b != a && b != POOL :: t.accounts[b] == At(w.accounts, b))
    && party.zagros + pool.zagros + t.fees == party0.zagros + pool0.zagros + w.fees
    && party.zerenya + pool.zerenya - t.backed == party0.zerenya + pool0.zerenya - w.backed
  }

  /** Both balances of the pair, and what is about to be minted, fit into 128 bits. */
  predicate Room(w: World, a: nat, minted: nat) {
    && a != POOL
    && At(w.accounts, a).zagros + At(w.accounts, POOL).zagros <= U128_MAX
    && At(w.accounts, a).zerenya + At(w.accounts, POOL).zerenya + minted <= U128_MAX
  }

  lemma BuyBalanced(w: World, c: nat, x: nat, minOut: nat, q: Quote)
    requires var d := Buying(c, x, minOut); QuoteFor(w, d) == Some(q) && Covered(w, d, q)
    requires Room(w, c, 0)
    ensures Balanced(w, Settled(w, Buying(c, x, minOut), q), c)
  {
    BuyExact(x, PoolOf(w.accounts));
  }

  lemma SellBalanced(w: World, c: nat, x: nat, minOut: nat, q: Quote)
    requires var d := Selling(c, x, minOut); QuoteFor(w, d) == Some(q) && Covered(w, d, q)
    requires Room(w, c, 0)
    ensures Balanced(w, Settled(w, Selling(c, x, minOut), q), c)
  {
    SellExact(x, minOut, PoolOf(w.accounts));
  }

  lemma MintBalanced(w: World, r: nat, x: nat, minOut: nat, q: Quote)
    requires QuoteFor(w, Minting(r, x, minOut)) == Some(q)
    requires Room(w, r, x) && w.backed + x <= U128_MAX
    ensures Balanced(w, Settled(w, Minting(r, x, minOut), q), r)
  {
    BuysAgree(x, PoolOf(w.accounts), FEE_BPS);
    BuyExact(x, PoolOf(w.accounts));
  }

  lemma BurnBalanced(w: World, c: nat, x: nat, minOut: nat, q: Quote)
    requires var d := Burning(c, x, minOut); QuoteFor(w, d) == Some(q) && Covered(w, d, q)
    requires Room(w, c, 0)
    ensures Balanced(w, Settled(w, Burning(c, x, minOut), q), c)
  {
    SellsAgree(x, 0, PoolOf(w.accounts), FEE_BPS);
    SellExact(x, 0, PoolOf(w.accounts));
  }

  lemma DealBalanced(w: World, d: Deal, q: Quote)
    requires QuoteFor(w, d) == Some(q) && Covered(w, d, q)
    requires Room(w, Party(d), if d.Minting? then d.x else 0)
    requires d.Minting? ==> w.backed + d.x <= U128_MAX
    ensures Balanced(w, Settled(w, d, q), Party(d))
  {
    match d {
      case Buying(c, x, m) => BuyBalanced(w, c, x, m, q);
      case Selling(c, x, m) => SellBalanced(w, c, x, m, q);
      case Minting(r, x, m) => MintBalanced(w, r, x, m, q);
      case Burning(c, x, m) => BurnBalanced(w, c, x, m, q);
    }
  }

  lemma BalancedSums(w: World, t: World, a: nat)
    requires Balanced(w, t, a) && a != POOL
    ensures ZagrosTotal(t) == ZagrosTotal(w) && NativeZerenya(t) == NativeZerenya(w)
  {
    var s, u := w.accounts, t.accounts;
    assert forall b: nat :: b != a && b != POOL ==> At(u, b) == At(s, b);
    TwoChange(s.Keys, u.Keys, ZagrosHeld(s), ZagrosHeld(u), a, POOL);
    TwoChange(s.Keys, u.Keys, ZerenyaHeld(s), ZerenyaHeld(u), a, POOL);
  }

  /** Backing moves by what is minted or burned, and stays within the pool's side. */
  lemma BackingMoves(w: World, d: Deal, q: Quote)
    requires QuoteFor(w, d) == Some(q) && Covered(w, d, q) && w.backed <= U128_MAX
    requires d.Minting? ==> w.backed + d.x <= U128_MAX
    ensures Settled(w, d, q).backed
         == w.backed + (if d.Minting? then d.x else 0) - (if d.Burning? then q.out else 0)
  {
  }

  lemma DealConserves(w: World, d: Deal)
    requires Party(d) != POOL && Bounded(w)
    requires d.Minting? ==> NativeZerenya(w) + w.backed + d.x <= U128_MAX && w.backed + d.x <= U128_MAX
    ensures var t := Done(w, d);
            Bounded(t) && ZagrosTotal(t) == ZagrosTotal(w) && NativeZerenya(t) == NativeZerenya(w)
  {
    var t := Done(w, d);
    match QuoteFor(w, d) {
      case None =>
      case Some(q) =>
        if Covered(w, d, q) && q.out >= d.minOut {
          HeldAtMost(w.accounts, Party(d), POOL);
          DealBalanced(w, d, q);
          BalancedSums(w, t, Party(d));
          BackingMoves(w, d, q);
        }
    }
  }

  function AfterDeals(w: World, ds: seq<Deal>): World {
    if ds == [] then w else Done(AfterDeals(w, ds[..|ds| - 1]), ds[|ds| - 1])
  }

  /** No deal is struck by the pool itself, and minting stays within 128 bits. */
  ghost predicate Possible(w: World, ds: seq<Deal>) {
    ds == [] ||
    (var before, d := AfterDeals(w, ds[..|ds| - 1]), ds[|ds| - 1];
     && Possible(w, ds[..|ds| - 1])
     && Party(d) != POOL
     && (d.Minting? ==> NativeZerenya(before) + before.backed + d.x <= U128_MAX && before.backed + d.x <= U128_MAX))
  }

  /** Over every run of buys, sells and bridge swaps, all ZAGROS is still there, and ZERENYA appears
      and disappears only together with its bridge backing. */
  lemma {:induction false} MoneyConserved(w: World, ds: seq<Deal>)
    requires Bounded(w) && Possible(w, ds)
    ensures var t := AfterDeals(w, ds);
            Bounded(t) && ZagrosTotal(t) == ZagrosTotal(w) && NativeZerenya(t) == NativeZerenya(w)
  {
    if ds != [] {
      MoneyConserved(w, ds[..|ds| - 1]);
      DealConserves(AfterDeals(w, ds[..|ds| - 1]), ds[|ds| - 1]);
    }
  }

  lemma DealGrows(w: World, d: Deal)
    requires Party(d) != POOL && Bounded(w)
    requires d.Minting? ==> NativeZerenya(w) + w.backed + d.x <= U128_MAX
    ensures Grows(PoolOf(w.accounts), PoolOf(Done(w, d).accounts))
  {
    var p := PoolOf(w.accounts);
    GrowsIs(p, p);
    HeldAtMost(w.accounts, Party(d), POOL);
    match QuoteFor(w, d) {
      case None =>
      case Some(q) =>
        if Covered(w, d, q) {
          QuoteGrows(w, d, q);
          assert PoolOf(Settled(w, d, q).accounts) == q.pool;
        }
    }
  }

  lemma QuoteGrows(w: World, d: Deal, q: Quote)
    requires QuoteFor(w, d) == Some(q) && Covered(w, d, q)
    requires Room(w, Party(d), if d.Minting? then d.x else 0)
    ensures Grows(PoolOf(w.accounts), q.pool)
  {
    var p := PoolOf(w.accounts);
    match d {
      case Buying(c, x, m) => BuyExact(x, p);
      case Selling(c, x, m) => SellExact(x, m, p);
      case Minting(r, x, m) =>
        BuysAgree(x, p, FEE_BPS);
        BuyExact(x, p);
      case Burning(c, x, m) =>
        SellsAgree(x, 0, p, FEE_BPS);
        SellExact(x, 0, p);
    }
  }

  lemma {:induction false} RunGrows(w: World, ds: seq<Deal>)
    requires Bounded(w) && Possible(w, ds)
    ensures Grows(PoolOf(w.accounts), PoolOf(AfterDeals(w, ds).accounts))
  {
    if ds == [] {
      GrowsIs(PoolOf(w.accounts), PoolOf(w.accounts));
    } else {
      var before := AfterDeals(w, ds[..|ds| - 1]);
      RunGrows(w, ds[..|ds| - 1]);
      MoneyConserved(w, ds[..|ds| - 1]);
      DealGrows(before, ds[|ds| - 1]);
      GrowsTrans(PoolOf(w.accounts), PoolOf(before.accounts), PoolOf(AfterDeals(w, ds).accounts));
    }
  }

  /** Over every run, bridge swaps and refused deals included, a pool that ends with no more of one
      asset ends with at least as much of the other. */
  lemma PoolNotDrained(w: World, ds: seq<Deal>)
    requires Bounded(w) && Possible(w, ds)
    requires PoolOf(w.accounts).zagros > 0 && PoolOf(w.accounts).zerenya > 0
    ensures var p, q := PoolOf(w.accounts), PoolOf(AfterDeals(w, ds).accounts);
            && (q.zerenya <= p.zerenya ==> q.zagros >= p.zagros)
            && (q.zagros <= p.zagros ==> q.zerenya >= p.zerenya)
  {
    RunGrows(w, ds);
    OneSideHolds(PoolOf(w.accounts), PoolOf(AfterDeals(w, ds).accounts));
  }
}
