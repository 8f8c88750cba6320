/** Sums of ZERENYA over a state. */
module Supply {
  import opened Journal
  import opened Sums

  ghost function Held(s: State): Address -> int {
    a => Lookup(s, a).zerenya
  }

  ghost function Total(s: State): int { Sum(s.Keys, Held(s)) }

  lemma TotalSame(s: State, t: State)
    requires Same(s, t)
    ensures Total(s) == Total(t)
  {
    SumWiden(s.Keys, s.Keys + t.Keys, Held(s));
    SumWiden(t.Keys, s.Keys + t.Keys, Held(t));
    SumSame(s.Keys + t.Keys, Held(s), Held(t));
  }

  lemma TotalWrite(s: State, a: Address, v: Account)
    ensures Total(s[a := v]) + Lookup(s, a).zerenya == Total(s) + v.zerenya
  {
    var t := s[a := v];
    SumWiden(s.Keys, t.Keys, Held(s));
    SumChange(t.Keys, Held(s), Held(t), a);
  }

  lemma AtMostTotal(s: State, a: Address)
    ensures Lookup(s, a).zerenya <= Total(s)
  {
    if a in s {
      SumAtLeast(s.Keys, Held(s), a);
    } else {
      SumNatural(s.Keys, Held(s));
    }
  }
}

/** ZERENYA as an ERC-20 token over native balances, inside nested EVM calls. */
module Interceptor {
  import opened Options
  import opened Journal
  import opened Words

  /** The zero address is the liquidity pool. */
  const POOL: nat := 0

  const MAX_RECENT_TRANSFERS: nat := 10_000

  // ----- what each arm does to the journal -----

  function AddOps(s: State, to: nat, amount: nat): seq<Op> {
    var acc := Lookup(s, User(to));
    if acc.zerenya + amount <= U128_MAX then [Write(User(to), acc.(zerenya := acc.zerenya + amount))] else []
  }

  function IndexOps(next: nat, sender: nat, receiver: nat, amount: nat): seq<Op> {
    var write := Write(Record(next), BLANK.(record := Some(Transfer(sender, receiver, amount, next))));
    if next >= MAX_RECENT_TRANSFERS then
      var evicted := Record(next - MAX_RECENT_TRANSFERS);
      [Touch(Record(next)), Touch(evicted), write, Write(evicted, BLANK)]
    else [Touch(Record(next)), write]
  }

  /** Debit already written; `s` is the state after it. */
  function CreditOps(s: State, next: nat, sender: nat, to: nat, amount: nat): seq<Op> {
    [Touch(User(to))] + AddOps(s, to, amount) + IndexOps(next, sender, to, amount)
  }

  datatype Call =
    | TransferCall(caller: nat, to: nat, amount: nat)
    | TransferFromCall(spender: nat, owner: nat, to: nat, amount: nat)
    | ApproveCall(owner: nat, spender: nat, amount: nat)
    | OtherCall

  function Allowance(acc: Account, spender: nat): nat {
    if spender in acc.storage then acc.storage[spender] else 0
  }

  /** No entry is kept for a zero allowance. */
  function SetAllowance(acc: Account, spender: nat, amount: nat): Account {
    acc.(storage := if amount == 0 then acc.storage - {spender} else acc.storage[spender := amount])
  }

  predicate Succeeds(s: State, c: Call) {
    match c
    case TransferCall(caller, to, amount) =>
      to != POOL && amount <= U128_MAX && User(caller) in s && amount <= s[User(caller)].zerenya
    case TransferFromCall(spender, owner, to, amount) =>
      var acc := Lookup(s, User(owner));
      to != POOL && amount <= U128_MAX && amount <= Allowance(acc, spender) && amount <= acc.zerenya
    case _ => true
  }

  /** The account written by the debit of a successful call. */
  function Debited(s: State, c: Call): Account {
    match c
    case TransferCall(caller, _, amount) =>
      var acc := Lookup(s, User(caller));
      acc.(zerenya := if amount <= acc.zerenya then acc.zerenya - amount else 0)
    case TransferFromCall(spender, owner, _, amount) =>
      var acc := Lookup(s, User(owner));
      var left := if amount <= Allowance(acc, spender) then Allowance(acc, spender) - amount else 0;
      SetAllowance(acc, spender, left).(zerenya := if amount <= acc.zerenya then acc.zerenya - amount else 0)
    case ApproveCall(owner, spender, amount) => SetAllowance(Lookup(s, User(owner)), spender, amount)
    case OtherCall => BLANK
  }

  function CallOps(s: State, next: nat, c: Call): seq<Op> {
    match c
    case TransferCall(caller, to, amount) =>
      if Succeeds(s, c) then
        [Touch(User(caller)), Write(User(caller), Debited(s, c))]
        + CreditOps(s[User(caller) := Debited(s, c)], next, caller, to, amount)
      else if to == POOL || amount > U128_MAX then []
      else [Touch(User(caller))]
    case TransferFromCall(spender, owner, to, amount) =>
      if Succeeds(s, c) then
        [Touch(User(owner)), Write(User(owner), Debited(s, c))]
        + CreditOps(s[User(owner) := Debited(s, c)], next, owner, to, amount)
      else []
    case ApproveCall(owner, spender, amount) => [Touch(User(owner)), Write(User(owner), Debited(s, c))]
    case OtherCall => []
  }

  function NextIndex(s: State, next: nat, c: Call): nat {
    if (c.TransferCall? || c.TransferFromCall?) && Succeeds(s, c) then next + 1 else next
  }

  lemma RunOne(j: Journal, op: Op)
    ensures Run(j, [op]) == Step(j, op)
  {
    assert Init([op]) == [];
  }

  lemma RunCons(j: Journal, op: Op, ops: seq<Op>)
    ensures Run(j, [op] + ops) == Run(Step(j, op), ops)
    ensures Disciplined(j, [op] + ops) <==> Covered(j, op) && Disciplined(Step(j, op), ops)
  {
    RunJoin(j, [op], ops);
    RunOne(j, op);
    assert Init([op]) == [];
  }

  class ZerenyaInterceptor {
    var state: State
    var frames: seq<Frame>
    var next: nat

    constructor (s: State, counter: nat)
      ensures View() == Journal(s, []) && next == counter
    {
      state, frames, next := s, [], counter;
    }

    function View(): Journal
      reads this
    {
      Journal(state, frames)
    }

    method PushFrame()
      modifies this`frames
      ensures View() == Step(old(View()), Push)
    {
      frames := frames + [map[]];
    }

    method RecordMutation(a: Address)
      modifies this`frames
      ensures View() == Step(old(View()), Touch(a))
    {
      if frames != [] {
        var top := frames[|frames| - 1];
        if a !in top {
          top := top[a := if a in state then Some(state[a]) else None];
        }
        frames := frames[..|frames| - 1] + [top];
      }
    }

    method SetAccount(a: Address, v: Account)
      modifies this`state
      ensures View() == Step(old(View()), Write(a, v))
    {
      state := state[a := v];
    }

    /** The entries of the closed frame come in no particular order. */
    method PopFrame(succeeded: bool)
      modifies this`state, this`frames
      ensures View() == Step(old(View()), Pop(succeeded))
    {
      if frames == [] {
        return;
      }
      var f := frames[|frames| - 1];
      frames := frames[..|frames| - 1];
      if f == map[] {
        EmptyFrame(old(View()), succeeded);
        return;
      }
      if succeeded {
        if frames != [] {
          var parent := Inherit(frames[|frames| - 1], f);
          frames := frames[..|frames| - 1] + [parent];
        }
      } else {
        state := WriteBack(state, f, BLANK);
        RestoredIs(old(state), f);
      }
    }

    method AddZerenya(to: nat, amount: nat)
      modifies this`state
      ensures View() == Run(old(View()), AddOps(old(state), to, amount))
    {
      var acc := if User(to) in state then state[User(to)] else BLANK;
      if acc.zerenya + amount <= U128_MAX {
        RunOne(View(), Write(User(to), acc.(zerenya := acc.zerenya + amount)));
        SetAccount(User(to), acc.(zerenya := acc.zerenya + amount));
      }
    }

    method RecordTransfer(sender: nat, receiver: nat, amount: nat)
      modifies this
      ensures View() == Run(old(View()), IndexOps(old(next), sender, receiver, amount))
      ensures next == old(next) + 1
    {
      ghost var j := View();
      ghost var ops := IndexOps(next, sender, receiver, amount);
      var index := next;
      RecordMutation(Record(index));
      if index >= MAX_RECENT_TRANSFERS {
        RecordMutation(Record(index - MAX_RECENT_TRANSFERS));
      }
      next := next + 1;
      SetAccount(Record(index), BLANK.(record := Some(Transfer(sender, receiver, amount, index))));
      if index >= MAX_RECENT_TRANSFERS {
        SetAccount(Record(index - MAX_RECENT_TRANSFERS), BLANK);
      }
      IndexRun(j, index, sender, receiver, amount);
    }

    /** The part the two transfer arms share. */
    method Credit(sender: nat, to: nat, amount: nat)
      modifies this
      ensures View() == Run(old(View()), CreditOps(old(state), old(next), sender, to, amount))
      ensures next == old(next) + 1
    {
      ghost var j := View();
      RecordMutation(User(to));
      ghost var j1 := View();
      AddZerenya(to, amount);
      ghost var j2 := View();
      RecordTransfer(sender, to, amount);
      ghost var add, index := AddOps(j.state, to, amount), IndexOps(old(next), sender, to, amount);
      RunCons(j, Touch(User(to)), add + index);
      RunJoin(j1, add, index);
      assert [Touch(User(to))] + add + index == [Touch(User(to))] + (add + index);
    }

    method TransferArm(caller: nat, to: nat, amount: nat) returns (ok: bool)
      modifies this
      ensures var c := TransferCall(caller, to, amount);
              && ok == Succeeds(old(state), c)
              && View() == Run(old(View()), CallOps(old(state), old(next), c))
              && next == NextIndex(old(state), old(next), c)
      ensures ok <==> to != 0 && amount <= U128_MAX && User(caller) in old(state) && amount <= old(state)[User(caller)].zerenya
      ensures next == old(next) + if ok then 1 else 0
    {
      if to == POOL || amount > U128_MAX {
        return false;
      }
      ghost var j := View();
      ghost var c := TransferCall(caller, to, amount);
      RecordMutation(User(caller));
      if User(caller) !in state || state[User(caller)].zerenya < amount {
        RunOne(j, Touch(User(caller)));
        return false;
      }
      var acc := state[User(caller)];
      SetAccount(User(caller), acc.(zerenya := acc.zerenya - amount));
      ghost var rest := CreditOps(state, next, caller, to, amount);
      Credit(caller, to, amount);
      TransferRun(j, old(next), c, User(caller), rest);
      return true;
    }

    method TransferFromArm(spender: nat, owner: nat, to: nat, amount: nat) returns (ok: bool)
      modifies this
      ensures var c := TransferFromCall(spender, owner, to, amount);
              && ok == Succeeds(old(state), c)
              && View() == Run(old(View()), CallOps(old(state), old(next), c))
              && next == NextIndex(old(state), old(next), c)
      ensures var acc := Lookup(old(state), User(owner));
              ok <==> to != 0 && amount <= U128_MAX && amount <= Allowance(acc, spender) && amount <= acc.zerenya
      ensures next == old(next) + if ok then 1 else 0
    {
      if to == POOL || amount > U128_MAX {
        return false;
      }
      ghost var j := View();
      ghost var c := TransferFromCall(spender, owner, to, amount);
      var acc := if User(owner) in state then state[User(owner)] else BLANK;
      var allowance := if spender in acc.storage then acc.storage[spender] else 0;
      if allowance < amount || acc.zerenya < amount {
        return false;
      }
      acc := SetAllowance(acc, spender, allowance - amount).(zerenya := acc.zerenya - amount);
      RecordMutation(User(owner));
      SetAccount(User(owner), acc);
      ghost var rest := CreditOps(state, next, owner, to, amount);
      Credit(owner, to, amount);
      TransferRun(j, old(next), c, User(owner), rest);
      return true;
    }

    method ApproveArm(owner: nat, spender: nat, amount: nat)
      modifies this`state, this`frames
      ensures View() == Run(old(View()), CallOps(old(state), next, ApproveCall(owner, spender, amount)))
    {
      ghost var j := View();
      var acc := if User(owner) in state then state[User(owner)] else BLANK;
      acc := SetAllowance(acc, spender, amount);
      RecordMutation(User(owner));
      SetAccount(User(owner), acc);
      DebitRun(j, User(owner), acc, []);
      assert [Touch(User(owner)), Write(User(owner), acc)] + [] == [Touch(User(owner)), Write(User(owner), acc)];
    }
  }

  lemma EmptyFrame(j: Journal, ok: bool)
    requires j.frames != [] && Top(j.frames) == map[]
    ensures PopFrame(j, ok) == Journal(j.state, Init(j.frames))
  {
    assert Restored(j.state, map[]) == j.state;
    if ok && |j.frames| > 1 {
      var rest := Init(j.frames);
      assert Merged(Top(rest), map[]) == Top(rest);
      assert Init(rest) + [Top(rest)] == rest;
    }
  }

  lemma RestoredIs(s: State, f: Frame)
    ensures Restored(s, f) == s + map a | a in f :: (match f[a] case Some(v) => v case None => BLANK)
  {
  }

  lemma DebitRun(j: Journal, a: Address, v: Account, rest: seq<Op>)
    ensures Run(j, [Touch(a), Write(a, v)] + rest) == Run(Step(Step(j, Touch(a)), Write(a, v)), rest)
    ensures Disciplined(j, [Touch(a), Write(a, v)] + rest)
            <==> Disciplined(Step(Step(j, Touch(a)), Write(a, v)), rest)
  {
    assert [Touch(a), Write(a, v)] + rest == [Touch(a)] + ([Write(a, v)] + rest);
    RunCons(j, Touch(a), [Write(a, v)] + rest);
    RunCons(Step(j, Touch(a)), Write(a, v), rest);
  }

  lemma TransferRun(j: Journal, next: nat, c: Call, a: Address, rest: seq<Op>)
    requires Succeeds(j.state, c)
    requires match c
             case TransferCall(caller, to, amount) =>
               a == User(caller) && rest == CreditOps(j.state[a := Debited(j.state, c)], next, caller, to, amount)
             case TransferFromCall(_, owner, to, amount) =>
               a == User(owner) && rest == CreditOps(j.state[a := Debited(j.state, c)], next, owner, to, amount)
             case _ => false
    ensures Run(j, CallOps(j.state, next, c)) == Run(Step(Step(j, Touch(a)), Write(a, Debited(j.state, c))), rest)
  {
    DebitRun(j, a, Debited(j.state, c), rest);
  }

  lemma IndexRun(j: Journal, next: nat, sender: nat, receiver: nat, amount: nat)
    ensures var write := Write(Record(next), BLANK.(record := Some(Transfer(sender, receiver, amount, next))));
            var touched := Step(j, Touch(Record(next)));
            Run(j, IndexOps(next, sender, receiver, amount)) ==
            if next >= MAX_RECENT_TRANSFERS then
              var evicted := Record(next - MAX_RECENT_TRANSFERS);
              Step(Step(Step(touched, Touch(evicted)), write), Write(evicted, BLANK))
            else Step(touched, write)
    ensures Disciplined(j, IndexOps(next, sender, receiver, amount))
  {
    var write := Write(Record(next), BLANK.(record := Some(Transfer(sender, receiver, amount, next))));
    var touched := Step(j, Touch(Record(next)));
    if next >= MAX_RECENT_TRANSFERS {
      var evicted := Record(next - MAX_RECENT_TRANSFERS);
      RunTwo(j, Touch(Record(next)), Touch(evicted));
      RunTwo(Step(touched, Touch(evicted)), write, Write(evicted, BLANK));
      var first, second := [Touch(Record(next)), Touch(evicted)], [write, Write(evicted, BLANK)];
      RunJoin(j, first, second);
      assert first + second == IndexOps(next, sender, receiver, amount);
    } else {
      RunTwo(j, Touch(Record(next)), write);
    }
  }

  lemma RunTwo(j: Journal, a: Op, b: Op)
    ensures Run(j, [a, b]) == Step(Step(j, a), b)
    ensures Disciplined(j, [a, b]) <==> Covered(j, a) && Covered(Step(j, a), b)
  {
    RunCons(j, a, [b]);
    RunCons(Step(j, a), b, []);
    assert [a] + [b] == [a, b] && [b] + [] == [b];
  }

  /** Entries the parent lacks are handed up. */
  method Inherit<K, V>(parent: map<K, V>, child: map<K, V>) returns (r: map<K, V>)
    ensures r == child + parent
  {
    r := parent;
    var left := child.Keys;
    while left != {}
      invariant left <= child.Keys
      invariant r.Keys == parent.Keys + (child.Keys - left)
      invariant forall a :: a in r ==> r[a] == if a in parent then parent[a] else child[a]
      decreases |left|
    {
      var a :| a in left;
      if a !in r {
        r := r[a := child[a]];
      }
      left := left - {a};
    }
  }

  method WriteBack<K, V>(s: map<K, V>, f: map<K, Option<V>>, blank: V) returns (r: map<K, V>)
    ensures r == s + map a | a in f :: (match f[a] case Some(v) => v case None => blank)
  {
    r := s;
    var left := f.Keys;
    while left != {}
      invariant left <= f.Keys
      invariant r.Keys == s.Keys + (f.Keys - left)
      invariant forall a :: a in r && (a !in f || a in left) ==> r[a] == s[a]
      invariant forall a :: a in f && a !in left ==> r[a] == match f[a] case Some(v) => v case None => blank
      decreases |left|
    {
      var a :| a in left;
      match f[a] {
        case Some(v) => r := r[a := v];
        case None => r := r[a := blank];
      }
      left := left - {a};
    }
  }
}
