/** The undo journal wrapped around nested EVM calls, as a value: a stack of first-touch
    logs, and the stack of full snapshots it stands for. */
module Journal {
  import opened Options

  /** Accounts, and the numbered records of the recent-transfer index. */
  datatype Address = User(id: nat) | Record(index: nat)

  datatype Transfer = Transfer(sender: nat, receiver: nat, amount: nat, index: nat)

  /** `storage` maps the slot of a spender to the allowance; `record` stands for the code bytes. */
  datatype Account = Account(balance: nat, zerenya: nat, nonce: nat, storage: map<nat, nat>, record: Option<Transfer>)

  const BLANK: Account := Account(0, 0, 0, map[], None)

  type State = map<Address, Account>

  type Frame = map<Address, Option<Account>>

  /** A missing account reads as the blank one. */
  function Lookup(s: State, a: Address): Account {
    if a in s then s[a] else BLANK
  }

  function OrBlank(o: Option<Account>): Account {
    match o case Some(v) => v case None => BLANK
  }

  ghost predicate Same(s: State, t: State) {
    forall a: Address :: Lookup(s, a) == Lookup(t, a)
  }

  // ----- the journal -----

  datatype Op = Push | Pop(succeeded: bool) | Touch(a: Address) | Write(a: Address, v: Account)

  datatype Journal = Journal(state: State, frames: seq<Frame>)

  function Current(s: State, a: Address): Option<Account> {
    if a in s then Some(s[a]) else None
  }

  /** Only the first touch inside a frame is recorded. */
  function Recorded(f: Frame, s: State, a: Address): Frame {
    if a in f then f else f[a := Current(s, a)]
  }

  /** What a parent already holds is older and wins. */
  function Merged(parent: Frame, child: Frame): Frame { child + parent }

  function Restored(s: State, f: Frame): State {
    s + map a | a in f :: OrBlank(f[a])
  }

  function Init<T>(s: seq<T>): seq<T>
    requires s != []
  {
    s[..|s| - 1]
  }

  function Top<T>(s: seq<T>): T
    requires s != []
  {
    s[|s| - 1]
  }

  function PopFrame(j: Journal, succeeded: bool): Journal {
    if j.frames == [] then j
    else
      var f, rest := Top(j.frames), Init(j.frames);
      if !succeeded then Journal(Restored(j.state, f), rest)
      else if rest == [] then Journal(j.state, [])
      else Journal(j.state, Init(rest) + [Merged(Top(rest), f)])
  }

  function Step(j: Journal, op: Op): Journal {
    match op
    case Push => j.(frames := j.frames + [map[]])
    case Touch(a) =>
      if j.frames == [] then j
      else j.(frames := Init(j.frames) + [Recorded(Top(j.frames), j.state, a)])
    case Write(a, v) => j.(state := j.state[a := v])
    case Pop(ok) => PopFrame(j, ok)
  }

  function Run(j: Journal, ops: seq<Op>): Journal {
    if ops == [] then j else Step(Run(j, Init(ops)), Top(ops))
  }

  /** Every write is preceded by a touch of the same address in the open frame. */
  predicate Covered(j: Journal, op: Op) {
    op.Write? && j.frames != [] ==> op.a in Top(j.frames)
  }

  predicate Disciplined(j: Journal, ops: seq<Op>) {
    ops == [] || (Disciplined(j, Init(ops)) && Covered(Run(j, Init(ops)), Top(ops)))
  }

  // ----- the reference: whole snapshots -----

  datatype Snaps = Snaps(state: State, saved: seq<State>)

  function SnapStep(s: Snaps, op: Op): Snaps {
    match op
    case Push => s.(saved := s.saved + [s.state])
    case Touch(_) => s
    case Write(a, v) => s.(state := s.state[a := v])
    case Pop(ok) =>
      if s.saved == [] then s
      else Snaps(if ok then s.state else Top(s.saved), Init(s.saved))
  }

  function SnapRun(s: Snaps, ops: seq<Op>): Snaps {
    if ops == [] then s else SnapStep(SnapRun(s, Init(ops)), Top(ops))
  }

  // ----- the journal refines the snapshots -----

  /** A frame holds the older value of every address it lists, and nothing else differs. */
  ghost predicate Spans(f: Frame, before: State, after: State) {
    forall a: Address ::
      Lookup(before, a) == if a in f then OrBlank(f[a]) else Lookup(after, a)
  }

  function Level(s: Snaps, k: nat): State
    requires k <= |s.saved|
  {
    if k < |s.saved| then s.saved[k] else s.state
  }

  ghost predicate Refines(j: Journal, s: Snaps) {
    && |j.frames| == |s.saved|
    && Same(j.state, s.state)
    && forall k :: 0 <= k < |j.frames| ==> Spans(j.frames[k], s.saved[k], Level(s, k + 1))
  }

  lemma SpansMerged(parent: Frame, child: Frame, before: State, between: State, after: State)
    requires Spans(parent, before, between) && Spans(child, between, after)
    ensures Spans(Merged(parent, child), before, after)
  {
  }

  lemma SpansWrite(f: Frame, before: State, after: State, a: Address, v: Account)
    requires Spans(f, before, after) && a in f
    ensures Spans(f, before, after[a := v])
  {
  }

  lemma SpansTouch(f: Frame, before: State, after: State, now: State, a: Address)
    requires Spans(f, before, after) && Same(now, after)
    ensures Spans(Recorded(f, now, a), before, after)
  {
    assert Lookup(now, a) == Lookup(after, a);
  }

  lemma SpansRestored(f: Frame, before: State, after: State, now: State)
    requires Spans(f, before, after) && Same(now, after)
    ensures Same(Restored(now, f), before)
  {
    forall a: Address
      ensures Lookup(Restored(now, f), a) == Lookup(before, a)
    {
      assert Lookup(now, a) == Lookup(after, a);
    }
  }

  lemma SameWrite(s: State, t: State, a: Address, v: Account)
    requires Same(s, t)
    ensures Same(s[a := v], t[a := v])
  {
    var u, w := s[a := v], t[a := v];
    forall b: Address
      ensures Lookup(u, b) == Lookup(w, b)
    {
      assert Lookup(s, b) == Lookup(t, b);
    }
  }

  lemma PushRefines(j: Journal, s: Snaps)
    requires Refines(j, s)
    ensures Refines(Step(j, Push), SnapStep(s, Push))
  {
    var t := SnapStep(s, Push);
    forall k | 0 <= k < |j.frames| + 1
      ensures Spans(Step(j, Push).frames[k], t.saved[k], Level(t, k + 1))
    {
      if k < |j.frames| {
        assert Level(t, k + 1) == Level(s, k + 1);
      }
    }
  }

  lemma TouchRefines(j: Journal, s: Snaps, a: Address)
    requires Refines(j, s)
    ensures Refines(Step(j, Touch(a)), s)
  {
    var n := |j.frames| - 1;
    if n >= 0 {
      SpansTouch(j.frames[n], s.saved[n], s.state, j.state, a);
    }
  }

  lemma WriteRefines(j: Journal, s: Snaps, a: Address, v: Account)
    requires Refines(j, s) && Covered(j, Write(a, v))
    ensures Refines(Step(j, Write(a, v)), SnapStep(s, Write(a, v)))
  {
    var n, t := |j.frames| - 1, SnapStep(s, Write(a, v));
    SameWrite(j.state, s.state, a, v);
    forall k | 0 <= k <= n
      ensures Spans(j.frames[k], t.saved[k], Level(t, k + 1))
    {
      if k == n {
        SpansWrite(j.frames[n], s.saved[n], s.state, a, v);
      } else {
        assert Level(t, k + 1) == Level(s, k + 1);
      }
    }
  }

  lemma PopRefines(j: Journal, s: Snaps, ok: bool)
    requires Refines(j, s)
    ensures Refines(Step(j, Pop(ok)), SnapStep(s, Pop(ok)))
  {
    if j.frames != [] {
      if ok {
        KeepRefines(j, s);
      } else {
        RestoreRefines(j, s);
      }
    }
  }

  lemma RestoreRefines(j: Journal, s: Snaps)
    requires Refines(j, s) && j.frames != []
    ensures Refines(PopFrame(j, false), Snaps(Top(s.saved), Init(s.saved)))
  {
    var n, t := |j.frames| - 1, Snaps(Top(s.saved), Init(s.saved));
    SpansRestored(j.frames[n], s.saved[n], s.state, j.state);
    forall k | 0 <= k < n
      ensures Spans(j.frames[k], t.saved[k], Level(t, k + 1))
    {
      assert Level(t, k + 1) == Level(s, k + 1);
    }
  }

  lemma KeepRefines(j: Journal, s: Snaps)
    requires Refines(j, s) && j.frames != []
    ensures Refines(PopFrame(j, true), Snaps(s.state, Init(s.saved)))
  {
    var n, t := |j.frames| - 1, Snaps(s.state, Init(s.saved));
    var i := PopFrame(j, true);
    forall k | 0 <= k < n
      ensures Spans(i.frames[k], t.saved[k], Level(t, k + 1))
    {
      if k == n - 1 {
        assert Spans(j.frames[k], s.saved[k], Level(s, k + 1)) && Level(s, k + 1) == s.saved[n];
        SpansMerged(j.frames[k], j.frames[n], s.saved[k], s.saved[n], s.state);
      } else {
        assert Level(t, k + 1) == Level(s, k + 1);
      }
    }
  }

  lemma StepRefines(j: Journal, s: Snaps, op: Op)
    requires Refines(j, s) && Covered(j, op)
    ensures Refines(Step(j, op), SnapStep(s, op))
  {
    match op {
      case Push => PushRefines(j, s);
      case Touch(a) => TouchRefines(j, s, a);
      case Write(a, v) => WriteRefines(j, s, a, v);
      case Pop(ok) => PopRefines(j, s, ok);
    }
  }

  /** In every run whose writes are covered, the first-touch logs do what whole snapshots would. */
  lemma {:induction false} RunRefines(j: Journal, s: Snaps, ops: seq<Op>)
    requires Refines(j, s) && Disciplined(j, ops)
    ensures Refines(Run(j, ops), SnapRun(s, ops))
  {
    if ops != [] {
      RunRefines(j, s, Init(ops));
      StepRefines(Run(j, Init(ops)), SnapRun(s, Init(ops)), Top(ops));
    }
  }

  // ----- matching calls -----

  /** Open frames after the run, counted from `d`; `None` once a pop would reach below `d`. */
  function Depth(ops: seq<Op>, d: nat): Option<nat> {
    if ops == [] then Some(d)
    else
      match Depth(Init(ops), d)
      case None => None
      case Some(k) =>
        match Top(ops)
        case Push => Some(k + 1)
        case Pop(_) => if k <= d then None else Some(k - 1)
        case _ => Some(k)
  }

  /** Pushes and pops match inside the run. */
  predicate Nested(ops: seq<Op>) { Depth(ops, 0) == Some(0) }

  lemma {:induction false} SavedBelow(s: Snaps, ops: seq<Op>)
    requires Depth(ops, 0).Some?
    ensures var t := SnapRun(s, ops);
            |t.saved| == |s.saved| + Depth(ops, 0).value && t.saved[..|s.saved|] == s.saved
  {
    if ops != [] {
      SavedBelow(s, Init(ops));
    }
  }

  lemma {:induction false} RunJoin(j: Journal, a: seq<Op>, b: seq<Op>)
    ensures Run(j, a + b) == Run(Run(j, a), b)
    ensures Disciplined(j, a + b) <==> Disciplined(j, a) && Disciplined(Run(j, a), b)
  {
    if b == [] {
      assert a + b == a;
    } else {
      RunJoin(j, a, Init(b));
      assert Init(a + b) == a + Init(b) && Top(a + b) == Top(b);
    }
  }

  lemma {:induction false} SnapJoin(s: Snaps, a: seq<Op>, b: seq<Op>)
    ensures SnapRun(s, a + b) == SnapRun(SnapRun(s, a), b)
  {
    if b == [] {
      assert a + b == a;
    } else {
      SnapJoin(s, a, Init(b));
      assert Init(a + b) == a + Init(b) && Top(a + b) == Top(b);
    }
  }

  /** A call that fails leaves every account as it was when the call began, whatever nested calls
      did inside it and however they ended. */
  lemma FailedCallUndone(j: Journal, s: Snaps, body: seq<Op>)
    requires Refines(j, s) && Nested(body) && Disciplined(j, [Push] + body + [Pop(false)])
    ensures Same(Run(j, [Push] + body + [Pop(false)]).state, j.state)
  {
    var ops := [Push] + body + [Pop(false)];
    RunRefines(j, s, ops);
    SnapJoin(s, [Push] + body, [Pop(false)]);
    SnapJoin(s, [Push], body);
    var t := SnapRun(s, [Push]);
    assert Init([Push]) == [] && t == SnapStep(s, Push);
    SavedBelow(t, body);
    var u := SnapRun(t, body);
    assert Top(u.saved) == t.saved[|s.saved|];
    assert Init([Pop(false)]) == [] && SnapRun(u, [Pop(false)]) == SnapStep(u, Pop(false));
  }

  // ----- what a failed call leaves behind -----

  function Touched(ops: seq<Op>): set<Address> {
    if ops == [] then {}
    else Touched(Init(ops)) + if Top(ops).Touch? then {Top(ops).a} else {}
  }

  /** The addresses listed in the frames from number `d` on. */
  function ListedFrom(frames: seq<Frame>, d: nat): set<Address> {
    if |frames| <= d then {} else ListedFrom(Init(frames), d) + Top(frames).Keys
  }

  /** What is in the state, or will be once the frames from `d` on have failed. */
  function Reach(j: Journal, d: nat): set<Address> { j.state.Keys + ListedFrom(j.frames, d) }

  lemma ListedPush(frames: seq<Frame>, f: Frame, d: nat)
    requires d <= |frames|
    ensures ListedFrom(frames + [f], d) == ListedFrom(frames, d) + f.Keys
  {
    assert Init(frames + [f]) == frames;
  }

  lemma StepReach(j: Journal, op: Op, d: nat)
    requires |j.frames| > d && Covered(j, op) && (op.Pop? ==> |j.frames| > d + 1)
    ensures Reach(Step(j, op), d) == Reach(j, d) + if op.Touch? then {op.a} else {}
  {
    var f, rest := Top(j.frames), Init(j.frames);
    match op {
      case Push => ListedPush(j.frames, map[], d);
      case Touch(a) => ListedPush(rest, Recorded(f, j.state, a), d);
      case Write(a, v) => assert a in ListedFrom(j.frames, d);
      case Pop(ok) =>
        if ok {
          ListedPush(Init(rest), Merged(Top(rest), f), d);
        }
    }
  }

  lemma {:induction false} RunReach(j: Journal, ops: seq<Op>, d: nat)
    requires |j.frames| > d && Depth(ops, 0).Some? && Disciplined(j, ops)
    ensures |Run(j, ops).frames| == |j.frames| + Depth(ops, 0).value
    ensures Reach(Run(j, ops), d) == Reach(j, d) + Touched(ops)
  {
    if ops != [] {
      RunReach(j, Init(ops), d);
      StepReach(Run(j, Init(ops)), Top(ops), d);
    }
  }

  lemma CallShape(j: Journal, body: seq<Op>, ok: bool)
    ensures Run(j, [Push] + body + [Pop(ok)]) == PopFrame(Run(Step(j, Push), body), ok)
    ensures Disciplined(j, [Push] + body + [Pop(ok)]) ==> Disciplined(Step(j, Push), body)
  {
    RunJoin(j, [Push] + body, [Pop(ok)]);
    RunJoin(j, [Push], body);
    assert Init([Push]) == [] && Init([Pop(ok)]) == [];
    assert Run(j, [Push]) == Step(j, Push);
  }

  lemma FailedKeys(j: Journal, body: seq<Op>)
    requires Nested(body) && Disciplined(Step(j, Push), body)
    ensures PopFrame(Run(Step(j, Push), body), false).state.Keys == j.state.Keys + Touched(body)
  {
    var k, d := Step(j, Push), |j.frames|;
    ListedPush(j.frames, map[], d);
    RunReach(k, body, d);
    var u := Run(k, body);
    assert ListedFrom(Init(u.frames), d) == {};
  }

  lemma SameEntries(s: State, t: State)
    requires Same(s, t) && s.Keys == t.Keys
    ensures s == t
  {
    forall a | a in s ensures s[a] == t[a] {
      assert Lookup(s, a) == Lookup(t, a);
    }
  }

  /** After a failed call the state has an entry for every address touched in it, and is the very state it was
      exactly when each of them had one before. */
  lemma FailedCallExact(j: Journal, s: Snaps, body: seq<Op>)
    requires Refines(j, s) && Nested(body) && Disciplined(j, [Push] + body + [Pop(false)])
    ensures var t := Run(j, [Push] + body + [Pop(false)]).state;
            t.Keys == j.state.Keys + Touched(body) && (t == j.state <==> Touched(body) <= j.state.Keys)
  {
    var t := Run(j, [Push] + body + [Pop(false)]).state;
    FailedCallUndone(j, s, body);
    CallShape(j, body, false);
    FailedKeys(j, body);
    if t.Keys == j.state.Keys {
      SameEntries(t, j.state);
    }
  }
}
