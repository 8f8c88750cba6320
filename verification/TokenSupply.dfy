/** What the token arms do to balances, and the supply over whole runs of nested calls. */
module TokenSupply {
  import opened Options
  import opened Journal
  import opened Supply
  import opened Interceptor
  import opened Words

  // ----- one arm -----

  lemma AddDisciplined(j: Journal, s: State, to: nat, amount: nat)
    requires j.frames != [] ==> User(to) in Top(j.frames)
    ensures Disciplined(j, AddOps(s, to, amount))
  {
    if AddOps(s, to, amount) != [] {
      RunCons(j, AddOps(s, to, amount)[0], []);
      assert [AddOps(s, to, amount)[0]] + [] == AddOps(s, to, amount);
    }
  }

  lemma CreditRun(j: Journal, s: State, next: nat, sender: nat, to: nat, amount: nat)
    ensures var add, index := AddOps(s, to, amount), IndexOps(next, sender, to, amount);
            var j1 := Step(j, Touch(User(to)));
            && Run(j, CreditOps(s, next, sender, to, amount)) == Run(Run(j1, add), index)
            && (Disciplined(j, CreditOps(s, next, sender, to, amount)) <==>
                Disciplined(j1, add) && Disciplined(Run(j1, add), index))
  {
    var add, index := AddOps(s, to, amount), IndexOps(next, sender, to, amount);
    RunCons(j, Touch(User(to)), add + index);
    RunJoin(Step(j, Touch(User(to))), add, index);
    assert [Touch(User(to))] + add + index == [Touch(User(to))] + (add + index);
  }

  lemma CreditDisciplined(j: Journal, s: State, next: nat, sender: nat, to: nat, amount: nat)
    ensures Disciplined(j, CreditOps(s, next, sender, to, amount))
  {
    CreditRun(j, s, next, sender, to, amount);
    var j1 := Step(j, Touch(User(to)));
    AddDisciplined(j1, s, to, amount);
    IndexRun(Run(j1, AddOps(s, to, amount)), next, sender, to, amount);
  }

  /** No arm writes an account it has not recorded first. */
  lemma CallDisciplined(j: Journal, next: nat, c: Call)
    ensures Disciplined(j, CallOps(j.state, next, c))
  {
    var s := j.state;
    match c {
      case TransferCall(caller, to, amount) =>
        var a, v := User(caller), Debited(s, c);
        if Succeeds(s, c) {
          DebitRun(j, a, v, CreditOps(s[a := v], next, caller, to, amount));
          CreditDisciplined(Step(Step(j, Touch(a)), Write(a, v)), s[a := v], next, caller, to, amount);
        } else {
          RunCons(j, Touch(a), []);
          assert [Touch(a)] + [] == [Touch(a)];
        }
      case TransferFromCall(spender, owner, to, amount) =>
        var a, v := User(owner), Debited(s, c);
        if Succeeds(s, c) {
          DebitRun(j, a, v, CreditOps(s[a := v], next, owner, to, amount));
          CreditDisciplined(Step(Step(j, Touch(a)), Write(a, v)), s[a := v], next, owner, to, amount);
        }
      case ApproveCall(owner, spender, amount) =>
        DebitRun(j, User(owner), Debited(s, c), []);
        assert [Touch(User(owner)), Write(User(owner), Debited(s, c))] + []
            == [Touch(User(owner)), Write(User(owner), Debited(s, c))];
      case OtherCall =>
    }
  }

  /** The accounts after the index entry and the credit. */
  function Indexed(s: State, next: nat, sender: nat, to: nat, amount: nat): State {
    var t := s[Record(next) := BLANK.(record := Some(Transfer(sender, to, amount, next)))];
    if next >= MAX_RECENT_TRANSFERS then t[Record(next - MAX_RECENT_TRANSFERS) := BLANK] else t
  }

  predicate Fits(s: State, to: nat, amount: nat) {
    Lookup(s, User(to)).zerenya + amount <= U128_MAX
  }

  function Credited(s: State, to: nat, amount: nat): State {
    var acc := Lookup(s, User(to));
    if Fits(s, to, amount) then s[User(to) := acc.(zerenya := acc.zerenya + amount)] else s
  }

  lemma CreditState(j: Journal, next: nat, sender: nat, to: nat, amount: nat)
    ensures Run(j, CreditOps(j.state, next, sender, to, amount)).state
         == Indexed(Credited(j.state, to, amount), next, sender, to, amount)
  {
    CreditRun(j, j.state, next, sender, to, amount);
    var j1 := Step(j, Touch(User(to)));
    AddState(j1, to, amount);
    IndexState(Run(j1, AddOps(j.state, to, amount)), next, sender, to, amount);
  }

  lemma AddState(j: Journal, to: nat, amount: nat)
    ensures Run(j, AddOps(j.state, to, amount)).state == Credited(j.state, to, amount)
  {
    if Fits(j.state, to, amount) {
      RunOne(j, AddOps(j.state, to, amount)[0]);
    }
  }

  lemma IndexState(j: Journal, next: nat, sender: nat, to: nat, amount: nat)
    ensures Run(j, IndexOps(next, sender, to, amount)).state == Indexed(j.state, next, sender, to, amount)
  {
    IndexRun(j, next, sender, to, amount);
  }

  /** The account a transfer takes from, where it goes, and how much. */
  function Source(c: Call): nat
    requires c.TransferCall? || c.TransferFromCall?
  {
    if c.TransferCall? then c.caller else c.owner
  }

  predicate Moves(s: State, c: Call) {
    (c.TransferCall? || c.TransferFromCall?) && Succeeds(s, c)
  }

  function AfterMove(s: State, next: nat, c: Call): State
    requires Moves(s, c)
  {
    var t := s[User(Source(c)) := Debited(s, c)];
    Indexed(Credited(t, c.to, c.amount), next, Source(c), c.to, c.amount)
  }

  lemma MoveState(j: Journal, next: nat, c: Call)
    requires Moves(j.state, c)
    ensures Run(j, CallOps(j.state, next, c)).state == AfterMove(j.state, next, c)
  {
    var a, v := User(Source(c)), Debited(j.state, c);
    var t := j.state[a := v];
    TransferRun(j, next, c, a, CreditOps(t, next, Source(c), c.to, c.amount));
    var j1 := Step(Step(j, Touch(a)), Write(a, v));
    assert j1.state == t;
    CreditState(j1, next, Source(c), c.to, c.amount);
  }

  /** The amount leaves the source and arrives at the target, for a transfer to oneself too;
      allowances of anyone but the spender, and every other account, stay. */
  lemma MoveExact(s: State, next: nat, c: Call, u: nat)
    requires Moves(s, c) && Fits(s[User(Source(c)) := Debited(s, c)], c.to, c.amount)
    ensures var before, after := Lookup(s, User(u)), Lookup(AfterMove(s, next, c), User(u));
            && after.zerenya == before.zerenya - (if u == Source(c) then c.amount else 0)
                                               + (if u == c.to then c.amount else 0)
            && after.balance == before.balance && after.nonce == before.nonce && after.record == before.record
            && forall p :: Allowance(after, p) ==
                 if c.TransferFromCall? && u == c.owner && p == c.spender
                 then Allowance(before, p) - c.amount else Allowance(before, p)
  {
  }

  /** An approval sets what this spender may take from this owner, and changes nothing else of any account. */
  lemma ApproveExact(j: Journal, next: nat, owner: nat, spender: nat, amount: nat, u: nat)
    ensures var t := Run(j, CallOps(j.state, next, ApproveCall(owner, spender, amount))).state;
            var before, after := Lookup(j.state, User(u)), Lookup(t, User(u));
            && (forall p :: Allowance(after, p) == if u == owner && p == spender then amount else Allowance(before, p))
            && after.balance == before.balance && after.zerenya == before.zerenya
            && after.nonce == before.nonce && after.record == before.record
            && forall i: nat :: Lookup(t, Record(i)) == Lookup(j.state, Record(i))
  {
    var c := ApproveCall(owner, spender, amount);
    DebitRun(j, User(owner), Debited(j.state, c), []);
    assert [Touch(User(owner)), Write(User(owner), Debited(j.state, c))] + []
        == [Touch(User(owner)), Write(User(owner), Debited(j.state, c))];
  }

  /** The spender may then take up to that amount, whenever the owner has it and it does not go to the pool. */
  lemma ApprovedMaySpend(j: Journal, next: nat, owner: nat, spender: nat, amount: nat, to: nat, part: nat)
    requires part <= U128_MAX
    ensures var t := Run(j, CallOps(j.state, next, ApproveCall(owner, spender, amount))).state;
            Succeeds(t, TransferFromCall(spender, owner, to, part)) <==>
              to != 0 && part <= amount && part <= Lookup(j.state, User(owner)).zerenya
  {
    ApproveExact(j, next, owner, spender, amount, owner);
  }

  /** A transfer is listed under the next number with its parties and amount; the list keeps the last ten thousand. */
  lemma ListedExact(s: State, next: nat, c: Call, i: nat)
    requires Moves(s, c)
    ensures Lookup(AfterMove(s, next, c), Record(i)) ==
            if i == next then BLANK.(record := Some(Transfer(Source(c), c.to, c.amount, next)))
            else if i + 10_000 == next then BLANK
            else Lookup(s, Record(i))
  {
  }

  ghost predicate Clean(s: State) {
    forall i: nat :: Lookup(s, Record(i)).zerenya == 0
  }

  lemma IndexedTotal(s: State, next: nat, sender: nat, to: nat, amount: nat)
    requires Clean(s)
    ensures Total(Indexed(s, next, sender, to, amount)) == Total(s)
    ensures Clean(Indexed(s, next, sender, to, amount))
  {
    var v := BLANK.(record := Some(Transfer(sender, to, amount, next)));
    TotalWrite(s, Record(next), v);
    var t := s[Record(next) := v];
    assert Clean(t) by {
      forall i: nat
        ensures Lookup(t, Record(i)).zerenya == 0
      {
        assert Lookup(s, Record(i)).zerenya == 0;
      }
    }
    if next >= MAX_RECENT_TRANSFERS {
      var e := Record(next - MAX_RECENT_TRANSFERS);
      TotalWrite(t, e, BLANK);
      var w := t[e := BLANK];
      forall i: nat
        ensures Lookup(w, Record(i)).zerenya == 0
      {
        assert Lookup(t, Record(i)).zerenya == 0;
      }
    }
  }

  lemma UserWriteClean(s: State, u: nat, v: Account)
    requires Clean(s)
    ensures Clean(s[User(u) := v])
  {
    var t := s[User(u) := v];
    forall i: nat
      ensures Lookup(t, Record(i)).zerenya == 0
    {
      assert Lookup(s, Record(i)).zerenya == 0;
    }
  }

  lemma DebitSupply(s: State, c: Call, t: State)
    requires Moves(s, c) && Clean(s) && t == s[User(Source(c)) := Debited(s, c)]
    ensures Clean(t) && Total(t) == Total(s) - c.amount
  {
    TotalWrite(s, User(Source(c)), Debited(s, c));
    UserWriteClean(s, Source(c), Debited(s, c));
  }

  lemma CreditSupply(t: State, to: nat, amount: nat)
    requires Clean(t)
    ensures var u := Credited(t, to, amount);
            Clean(u) && Total(u) == if Fits(t, to, amount) then Total(t) + amount else Total(t)
  {
    var acc := Lookup(t, User(to));
    TotalWrite(t, User(to), acc.(zerenya := acc.zerenya + amount));
    UserWriteClean(t, to, acc.(zerenya := acc.zerenya + amount));
  }

  /** A transfer keeps the supply exactly when the credit does not overflow; otherwise the amount is lost. */
  lemma MoveSupply(s: State, next: nat, c: Call)
    requires Moves(s, c) && Clean(s)
    ensures var t := s[User(Source(c)) := Debited(s, c)];
            var after := AfterMove(s, next, c);
            && Clean(after)
            && (Total(after) == Total(s) <==> c.amount == 0 || Fits(t, c.to, c.amount))
            && (!Fits(t, c.to, c.amount) ==> Total(after) == Total(s) - c.amount)
  {
    var t := s[User(Source(c)) := Debited(s, c)];
    DebitSupply(s, c, t);
    CreditSupply(t, c.to, c.amount);
    IndexedTotal(Credited(t, c.to, c.amount), next, Source(c), c.to, c.amount);
  }

  /** One that loses its amount: the receiver already holds all that fits. */
  lemma OverflowLoses(s: State, caller: nat, to: nat, amount: nat, next: nat)
    requires caller != to && to != POOL && Clean(s)
    requires User(caller) in s && 0 < amount <= s[User(caller)].zerenya && amount <= U128_MAX
    requires Lookup(s, User(to)).zerenya == U128_MAX
    ensures Total(AfterMove(s, next, TransferCall(caller, to, amount))) == Total(s) - amount
  {
    MoveSupply(s, next, TransferCall(caller, to, amount));
  }

  lemma OverflowHappens()
    ensures var s: State := map[User(1) := BLANK.(zerenya := 5), User(2) := BLANK.(zerenya := U128_MAX)];
            Moves(s, TransferCall(1, 2, 5)) && Total(AfterMove(s, 0, TransferCall(1, 2, 5))) == Total(s) - 5
  {
    var s: State := map[User(1) := BLANK.(zerenya := 5), User(2) := BLANK.(zerenya := U128_MAX)];
    OverflowLoses(s, 1, 2, 5, 0);
  }

  /** While the whole supply fits into 128 bits, no arm changes it. */
  lemma CallSupply(j: Journal, next: nat, c: Call)
    requires Clean(j.state) && Total(j.state) <= U128_MAX
    ensures var after := Run(j, CallOps(j.state, next, c)).state;
            Clean(after) && Total(after) == Total(j.state)
  {
    var s := j.state;
    if Moves(s, c) {
      MoveState(j, next, c);
      MoveSupply(s, next, c);
      var t := s[User(Source(c)) := Debited(s, c)];
      DebitSupply(s, c, t);
      AtMostTotal(t, User(c.to));
    } else if c.ApproveCall? {
      DebitRun(j, User(c.owner), Debited(s, c), []);
      assert [Touch(User(c.owner)), Write(User(c.owner), Debited(s, c))] + []
          == [Touch(User(c.owner)), Write(User(c.owner), Debited(s, c))];
      TotalWrite(s, User(c.owner), Debited(s, c));
      UserWriteClean(s, c.owner, Debited(s, c));
    } else if c.TransferCall? {
      RunOne(j, Touch(User(c.caller)));
    }
  }

  /** Two states that read alike differ at most in blank accounts. A transfer tells them apart exactly when it
      moves nothing and only one of them has the caller. */
  lemma BlankMatters(s: State, t: State, caller: nat, to: nat, amount: nat)
    requires Same(s, t)
    ensures var c := TransferCall(caller, to, amount);
            (Succeeds(s, c) <==> Succeeds(t, c)) <==>
            (amount > 0 || to == POOL || (User(caller) in s <==> User(caller) in t))
  {
    assert Lookup(s, User(caller)) == Lookup(t, User(caller));
  }

  /** No other call can tell, and every call does the same on both unless only one lets it succeed. */
  lemma OthersCannotTell(s: State, t: State, next: nat, c: Call)
    requires Same(s, t)
    ensures !c.TransferCall? ==> (Succeeds(s, c) <==> Succeeds(t, c))
    ensures (Succeeds(s, c) <==> Succeeds(t, c)) ==> CallOps(s, next, c) == CallOps(t, next, c)
  {
    match c {
      case TransferCall(caller, to, amount) =>
        assert Lookup(s, User(caller)) == Lookup(t, User(caller));
        SameWrite(s, t, User(caller), Debited(s, c));
        assert Lookup(s[User(caller) := Debited(s, c)], User(to)) == Lookup(t[User(caller) := Debited(s, c)], User(to));
      case TransferFromCall(spender, owner, to, amount) =>
        assert Lookup(s, User(owner)) == Lookup(t, User(owner));
        SameWrite(s, t, User(owner), Debited(s, c));
        assert Lookup(s[User(owner) := Debited(s, c)], User(to)) == Lookup(t[User(owner) := Debited(s, c)], User(to));
      case ApproveCall(owner, _, _) =>
        assert Lookup(s, User(owner)) == Lookup(t, User(owner));
      case OtherCall =>
    }
  }

  // ----- runs of calls -----

  datatype Event = Enter(c: Call) | Leave(ok: bool)

  datatype Machine = Machine(j: Journal, next: nat)

  function EventOps(m: Machine, e: Event): seq<Op> {
    match e
    case Enter(c) => [Push] + CallOps(m.j.state, m.next, c)
    case Leave(ok) => [Pop(ok)]
  }

  function Move(m: Machine, e: Event): Machine {
    Machine(Run(m.j, EventOps(m, e)), if e.Enter? then NextIndex(m.j.state, m.next, e.c) else m.next)
  }

  function Play(m: Machine, es: seq<Event>): Machine {
    if es == [] then m else Move(Play(m, Init(es)), Top(es))
  }

  /** The state and every state it may fall back to hold the supply `total`. */
  ghost predicate Holds(s: Snaps, total: int) {
    && Clean(s.state) && Total(s.state) == total
    && forall k :: 0 <= k < |s.saved| ==> Clean(s.saved[k]) && Total(s.saved[k]) == total
  }

  lemma CleanSame(s: State, t: State)
    requires Same(s, t) && Clean(s)
    ensures Clean(t)
  {
    forall i: nat
      ensures Lookup(t, Record(i)).zerenya == 0
    {
      assert Lookup(s, Record(i)) == Lookup(t, Record(i));
    }
  }

  predicate Flat(ops: seq<Op>) {
    forall i :: 0 <= i < |ops| ==> ops[i].Touch? || ops[i].Write?
  }

  lemma CallIsFlat(s: State, next: nat, c: Call)
    ensures Flat(CallOps(s, next, c))
  {
  }

  lemma {:induction false} SavedSteady(s: Snaps, ops: seq<Op>)
    requires Flat(ops)
    ensures SnapRun(s, ops).saved == s.saved
  {
    if ops != [] {
      SavedSteady(s, Init(ops));
      assert ops[|ops| - 1].Touch? || ops[|ops| - 1].Write?;
    }
  }

  lemma EnterHolds(m: Machine, s: Snaps, c: Call, total: int) returns (t: Snaps)
    requires Refines(m.j, s) && Holds(s, total) && total <= U128_MAX
    ensures Refines(Move(m, Enter(c)).j, t) && Holds(t, total)
  {
    var j1, s1, ops := Step(m.j, Push), SnapStep(s, Push), CallOps(m.j.state, m.next, c);
    PushRefines(m.j, s);
    t := InsideHolds(j1, s1, m.next, c, total);
    RunCons(m.j, Push, ops);
  }

  lemma InsideHolds(j: Journal, s: Snaps, next: nat, c: Call, total: int) returns (t: Snaps)
    requires Refines(j, s) && Holds(s, total) && total <= U128_MAX
    ensures Refines(Run(j, CallOps(j.state, next, c)), t) && Holds(t, total)
  {
    var ops := CallOps(j.state, next, c);
    CallDisciplined(j, next, c);
    RunRefines(j, s, ops);
    t := SnapRun(s, ops);
    CleanSame(s.state, j.state);
    TotalSame(s.state, j.state);
    CallSupply(j, next, c);
    TotalSame(Run(j, ops).state, t.state);
    CleanSame(Run(j, ops).state, t.state);
    CallIsFlat(j.state, next, c);
    SavedSteady(s, ops);
  }

  lemma LeaveHolds(m: Machine, s: Snaps, ok: bool, total: int) returns (t: Snaps)
    requires Refines(m.j, s) && Holds(s, total)
    ensures Refines(Move(m, Leave(ok)).j, t) && Holds(t, total)
  {
    t := SnapStep(s, Pop(ok));
    PopRefines(m.j, s, ok);
    RunOne(m.j, Pop(ok));
  }

  lemma {:induction false} PlayHolds(m: Machine, es: seq<Event>, s: Snaps, total: int) returns (t: Snaps)
    requires Refines(m.j, s) && Holds(s, total) && total <= U128_MAX
    ensures Refines(Play(m, es).j, t) && Holds(t, total)
  {
    if es == [] {
      t := s;
    } else {
      var u := PlayHolds(m, Init(es), s, total);
      var n := Play(m, Init(es));
      match Top(es) {
        case Enter(c) => t := EnterHolds(n, u, c, total);
        case Leave(ok) => t := LeaveHolds(n, u, ok, total);
      }
    }
  }

  /** Whatever calls are nested, and however each of them ends, no ZERENYA appears or disappears. */
  lemma SupplyConserved(m: Machine, es: seq<Event>)
    requires m.j.frames == [] && Clean(m.j.state) && Total(m.j.state) <= U128_MAX
    ensures Total(Play(m, es).j.state) == Total(m.j.state)
  {
    var s := Snaps(m.j.state, []);
    var t := PlayHolds(m, es, s, Total(m.j.state));
    TotalSame(Play(m, es).j.state, t.state);
  }

  /** It happens: a transfer by an unknown caller fails, and from then on the caller has a blank account. */
  lemma BlankLeft(m: Machine, caller: nat, to: nat, amount: nat)
    requires User(caller) !in m.j.state && to != POOL && 0 < amount <= U128_MAX
    ensures Play(m, [Enter(TransferCall(caller, to, amount)), Leave(false)])
            == Machine(Journal(m.j.state[User(caller) := BLANK], m.j.frames), m.next)
  {
    var c := TransferCall(caller, to, amount);
    var k := Move(m, Enter(c));
    PlayTwo(m, Enter(c), Leave(false));
    assert [Push] + CallOps(m.j.state, m.next, c) == [Push, Touch(User(caller))];
    RunTwo(m.j, Push, Touch(User(caller)));
    var f: Frame := map[User(caller) := None];
    assert Step(m.j, Push) == Journal(m.j.state, m.j.frames + [map[]]);
    assert k.j == Journal(m.j.state, m.j.frames + [f]) by {
      OneTouch(m.j, User(caller));
    }
    RunOne(k.j, Pop(false));
    OneFailure(m.j.state, m.j.frames, User(caller));
  }

  lemma OneTouch(j: Journal, a: Address)
    requires a !in j.state
    ensures Step(Step(j, Push), Touch(a)) == Journal(j.state, j.frames + [map[a := None]])
  {
    assert Init(j.frames + [map[]]) == j.frames;
  }

  lemma OneFailure(s: State, frames: seq<Frame>, a: Address)
    ensures PopFrame(Journal(s, frames + [map[a := None]]), false) == Journal(s[a := BLANK], frames)
  {
    var f: Frame := map[a := None];
    assert Init(frames + [f]) == frames && Top(frames + [f]) == f;
    assert Restored(s, f) == s[a := BLANK];
  }

  lemma PlayTwo(m: Machine, first: Event, second: Event)
    ensures Play(m, [first, second]) == Move(Move(m, first), second)
  {
    assert Init([first, second]) == [first] && Init([first]) == [];
    assert Play(m, [first]) == Move(m, first);
  }

  /** On the empty state that is the difference between a refused and an accepted transfer of nothing. */
  lemma BlankTells()
    ensures var before := Machine(Journal(map[], []), 0);
            var after := Play(before, [Enter(TransferCall(1, 2, 5)), Leave(false)]);
            Succeeds(after.j.state, TransferCall(1, 2, 0)) && !Succeeds(before.j.state, TransferCall(1, 2, 0))
  {
    var before := Machine(Journal(map[], []), 0);
    BlankLeft(before, 1, 2, 5);
  }
}
