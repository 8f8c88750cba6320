/** Bridge proposals, and the record that lets each source transaction be executed once. */
module Bridge {
  import opened Options
  import opened Text
  import opened Multisig
  import opened Words

  const TOKEN: nat := 1_000_000_000_000_000_000

  const MAX_SINGLE_MINT: nat := 100 * TOKEN

  const DAILY_LIMIT: nat := 10_000_000 * TOKEN

  const HOUR: nat := 3_600

  const SKEW: nat := 300

  const DAY: nat := 86_400

  /** The name of a source transaction, letter case folded away. */
  function SourceKey(chain: string, hash: string): string {
    Lower(chain) + "|" + Lower(hash)
  }

  function KeyOf(c: Content): string { SourceKey(c.chain, c.hash) }

  /** What is on disk: the processed sources, the stored proposals, the pending list and the counters. */
  datatype Meta = Meta(dailyMinted: nat, lastReset: nat, nonce: nat)

  datatype Store = Store(
    processed: set<string>, active: map<ProposalId, Proposal>, archive: map<ProposalId, Proposal>,
    pending: set<ProposalId>, meta: Option<Meta>)

  /** What one manager holds in memory. */
  datatype Memory = Memory(proposals: map<ProposalId, Proposal>, meta: Meta)

  datatype Config = Config(authorities: map<string, Authority>, required: nat, timelock: nat, chainId: nat)

  datatype Request = Request(
    mint: bool, amount: nat, recipient: string, chain: string, hash: string,
    timestamp: nat, autoSwap: bool, minOut: nat)

  // ----- the transitions, as values -----

  predicate Fresh(timestamp: nat, nowMs: nat) {
    SatSub(nowMs / 1000, HOUR) <= timestamp <= nowMs / 1000 + SKEW
  }

  predicate Known(proposals: map<ProposalId, Proposal>, chain: string, hash: string) {
    exists id :: id in proposals && proposals[id].content.chain == chain && proposals[id].content.hash == hash
  }

  /** The in-memory counter starts again once a day has passed; time running backwards resets nothing. */
  function Reset(m: Meta, nowMs: nat): Meta {
    if nowMs / 1000 >= m.lastReset + DAY then m.(dailyMinted := 0, lastReset := nowMs / 1000) else m
  }

  /** What the counter stands at: nothing once a day has passed since it was last reset. */
  function MintedBy(dailyMinted: nat, lastReset: nat, nowMs: nat): nat {
    if nowMs / 1000 >= lastReset + 86_400 then 0 else dailyMinted
  }

  function IdFor(r: Request, nonce: nat, chainId: nat): ProposalId {
    ProposalId(r.chain + r.hash + r.recipient + LittleEndian(r.amount, 16) + LittleEndian(nonce, 8) + LittleEndian(chainId, 8))
  }

  function NewProposal(r: Request, id: ProposalId, nonce: nat): Proposal {
    Proposal(Content(id, r.mint, r.amount, r.recipient, r.chain, r.hash, r.timestamp, nonce, r.minOut, r.autoSwap), [], false)
  }

  function Created(k: Config, m: Memory, processed: set<string>, r: Request, nowMs: nat): Memory {
    if !Fresh(r.timestamp, nowMs) || Known(m.proposals, r.chain, r.hash) || SourceKey(r.chain, r.hash) in processed then m
    else
      var meta := m.meta.(nonce := m.meta.nonce + 1);
      Entered(m.(meta := meta), r, IdFor(r, meta.nonce, k.chainId), nowMs)
  }

  /** The nonce of the identifier has been drawn; a refusal from here on uses it up. */
  function Entered(m: Memory, r: Request, id: ProposalId, nowMs: nat): Memory {
    if id in m.proposals || r.amount == 0 || (r.mint && r.amount > MAX_SINGLE_MINT) then m
    else
      var counted := if r.mint then Reset(m.meta, nowMs) else m.meta;
      if r.mint && counted.dailyMinted + r.amount > DAILY_LIMIT then m.(meta := counted)
      else Memory(m.proposals[id := NewProposal(r, id, m.meta.nonce)], counted)
  }

  predicate MaySign(k: Config, p: Proposal, s: BridgeSignature, nowMs: nat) {
    && s.authority in k.authorities
    && (var a := k.authorities[s.authority];
        && a.active && |s.key| == KEY_LENGTH && s.key == a.key
        && !p.executed
        && (forall i :: 0 <= i < |p.signatures| ==> p.signatures[i].authority != s.authority)
        && Fresh(s.timestamp, nowMs)
        && Verifies(s.signature, SigningMessage(p.content, k.chainId, s.timestamp), a.key))
  }

  function Signed(k: Config, m: Memory, id: ProposalId, s: BridgeSignature, nowMs: nat): Memory {
    if id in m.proposals && MaySign(k, m.proposals[id], s, nowMs) then
      var p := m.proposals[id];
      m.(proposals := m.proposals[id := p.(signatures := p.signatures + [s])])
    else m
  }

  predicate Executable(p: Proposal, required: nat, timelock: nat, nowMs: nat) {
    !p.executed && |p.signatures| >= required && nowMs / 1000 >= p.content.timestamp + timelock
  }

  predicate MayExecute(k: Config, m: Memory, processed: set<string>, id: ProposalId, nowMs: nat) {
    && id in m.proposals
    && Executable(m.proposals[id], k.required, k.timelock, nowMs)
    && (m.proposals[id].content.mint ==> Reset(m.meta, nowMs).dailyMinted + m.proposals[id].content.amount <= DAILY_LIMIT)
    && KeyOf(m.proposals[id].content) !in processed
  }

  function Executed(k: Config, m: Memory, processed: set<string>, id: ProposalId, nowMs: nat): Memory {
    if id !in m.proposals || !Executable(m.proposals[id], k.required, k.timelock, nowMs) then m
    else
      var p := m.proposals[id];
      var meta := if p.content.mint then Reset(m.meta, nowMs) else m.meta;
      if !MayExecute(k, m, processed, id, nowMs) then m.(meta := meta)
      else Memory(m.proposals[id := p.(executed := true)],
                  if p.content.mint then meta.(dailyMinted := meta.dailyMinted + p.content.amount) else meta)
  }

  /** The transaction that carries a signed proposal onto the chain. */
  datatype MintTx = MintTx(txId: ProposalId, receiver: string, amount: nat, swap: bool, payload: Proposal)

  predicate MayMint(k: Config, set_: AuthoritySet, processed: set<string>, tx: MintTx, secs: nat) {
    var p := tx.payload;
    && p.content.id == tx.txId
    && Executable(p, k.required, k.timelock, secs * 1000)
    && Valid(set_) && |Seen(set_, p.signatures, p.content, k.chainId)| >= set_.required
    && p.content.mint && p.content.recipient == tx.receiver && p.content.amount == tx.amount
    && p.content.autoSwap == tx.swap
    && KeyOf(p.content) !in processed
  }

  function Archived(s: Store, p: Proposal): Store {
    var id := p.content.id;
    s.(archive := s.archive[id := p.(executed := true)], active := s.active - {id}, pending := s.pending - {id})
  }

  function Minted(s: Store, p: Proposal): Store {
    Archived(s.(processed := s.processed + {KeyOf(p.content)}), p)
  }

  function Pending(m: Memory): set<ProposalId> {
    set id | id in m.proposals && !m.proposals[id].executed
  }

  function Persisted(s: Store, m: Memory, id: ProposalId): Store
    requires id in m.proposals
  {
    s.(active := s.active[id := m.proposals[id]], pending := Pending(m))
  }

  function Loaded(s: Store): Memory {
    Memory(map id | id in s.pending && id in s.active :: s.active[id],
           match s.meta case Some(meta) => meta case None => Meta(0, 0, 0))
  }

  /** Blocks bring proposals along; only those with enough valid signatures are stored, never as executed. */
  function Ingested(s: Store, set_: AuthoritySet, p: Proposal, chainId: nat): Store {
    if Valid(set_) && |Seen(set_, p.signatures, p.content, chainId)| >= set_.required
    then s.(active := s.active[p.content.id := p.(executed := false)]) else s
  }

  // ----- the objects -----

  class State {
    var processed: set<string>
    var active: map<ProposalId, Proposal>
    var archive: map<ProposalId, Proposal>
    var pending: set<ProposalId>
    var meta: Option<Meta>

    constructor ()
      ensures View() == Store({}, map[], map[], {}, None)
    {
      processed, active, archive, pending, meta := {}, map[], map[], {}, None;
    }

    function View(): Store
      reads this
    {
      Store(processed, active, archive, pending, meta)
    }

    method MarkProcessed(chain: string, hash: string)
      modifies this`processed
      ensures processed == old(processed) + {SourceKey(chain, hash)}
    {
      processed := processed + {SourceKey(chain, hash)};
    }

    method ArchiveExecuted(p: Proposal)
      modifies this`active, this`archive, this`pending
      ensures View() == Archived(old(View()), p)
      ensures p.content.id !in active && p.content.id !in pending && p.content.id in archive
      ensures archive[p.content.id] == p.(executed := true)
    {
      archive := archive[p.content.id := p.(executed := true)];
      if p.content.id in active {
        active := active - {p.content.id};
      }
      if p.content.id in pending {
        pending := pending - {p.content.id};
      }
    }
  }

  class BridgeManager {
    const config: Config
    var proposals: map<ProposalId, Proposal>
    var dailyMinted: nat
    var lastReset: nat
    var nonceCounter: nat

    /** Counters and pending proposals come from disk, the authorities always from the configuration. */
    constructor Load(k: Config, state: State)
      ensures config == k && View() == Loaded(state.View())
    {
      config := k;
      var meta := match state.meta case Some(meta) => meta case None => Meta(0, 0, 0);
      dailyMinted, lastReset, nonceCounter := meta.dailyMinted, meta.lastReset, meta.nonce;
      proposals := map id | id in state.pending && id in state.active :: state.active[id];
    }

    function View(): Memory
      reads this
    {
      Memory(proposals, Meta(dailyMinted, lastReset, nonceCounter))
    }

    method ResetDailyLimitIfNeeded(nowMs: nat)
      modifies this`dailyMinted, this`lastReset
      ensures View().meta == Reset(old(View().meta), nowMs)
    {
      var now := nowMs / 1000;
      if now < lastReset {
        return;
      }
      if now >= lastReset + DAY {
        dailyMinted, lastReset := 0, now;
      }
    }

    /** Returns the identifier of a stored proposal for this source, new or found. */
    method CreateProposal(r: Request, nowMs: nat, state: State) returns (id: Option<ProposalId>)
      modifies this
      ensures View() == Created(config, old(View()), state.processed, r, nowMs)
      ensures id.Some? <==>
        && r.timestamp + 3_600 >= nowMs / 1000 && r.timestamp <= nowMs / 1000 + 300
        && (old(Known(proposals, r.chain, r.hash))
            || (&& SourceKey(r.chain, r.hash) !in state.processed && r.amount > 0
                && IdFor(r, old(nonceCounter) + 1, config.chainId) !in old(proposals)
                && (r.mint ==>
                      && r.amount <= 100 * TOKEN
                      && MintedBy(old(dailyMinted), old(lastReset), nowMs) + r.amount <= 10_000_000 * TOKEN)))
      ensures id.Some? ==>
        if old(Known(proposals, r.chain, r.hash)) then View() == old(View())
        else
          && id.value == IdFor(r, old(nonceCounter) + 1, config.chainId) && nonceCounter == old(nonceCounter) + 1
          && proposals == old(proposals)[id.value := Proposal(
               Content(id.value, r.mint, r.amount, r.recipient, r.chain, r.hash, r.timestamp, nonceCounter, r.minOut, r.autoSwap),
               [], false)]
      ensures id.Some? ==> id.value in proposals && proposals[id.value].content.chain == r.chain
                                                 && proposals[id.value].content.hash == r.hash
    {
      var now := nowMs / 1000;
      if r.timestamp < SatSub(now, HOUR) {
        return None;
      }
      if r.timestamp > now + SKEW {
        return None;
      }
      if Known(proposals, r.chain, r.hash) {
        var found :| found in proposals && proposals[found].content.chain == r.chain
                                        && proposals[found].content.hash == r.hash;
        return Some(found);
      }
      if SourceKey(r.chain, r.hash) in state.processed {
        return None;
      }
      nonceCounter := nonceCounter + 1;
      id := Enter(r, IdFor(r, nonceCounter, config.chainId), nowMs);
    }

    method Enter(r: Request, drawn: ProposalId, nowMs: nat) returns (id: Option<ProposalId>)
      modifies this
      ensures View() == Entered(old(View()), r, drawn, nowMs)
      ensures id.Some? ==> id.value == drawn && proposals == old(proposals)[drawn := NewProposal(r, drawn, nonceCounter)]
      ensures id.Some? <==>
        && drawn !in old(proposals) && r.amount > 0
        && (r.mint ==>
              && r.amount <= 100 * TOKEN
              && MintedBy(old(dailyMinted), old(lastReset), nowMs) + r.amount <= 10_000_000 * TOKEN)
    {
      if drawn in proposals || r.amount == 0 {
        return None;
      }
      if r.mint {
        if r.amount > MAX_SINGLE_MINT {
          return None;
        }
        ResetDailyLimitIfNeeded(nowMs);
        if dailyMinted + r.amount > DAILY_LIMIT {
          return None;
        }
      }
      proposals := proposals[drawn := NewProposal(r, drawn, nonceCounter)];
      return Some(drawn);
    }

    method SignProposal(id: ProposalId, s: BridgeSignature, nowMs: nat) returns (ok: bool)
      modifies this`proposals
      ensures View() == Signed(config, old(View()), id, s, nowMs)
      ensures ok <==>
        && id in old(proposals) && !old(proposals)[id].executed
        && s.authority in config.authorities && config.authorities[s.authority].active
        && |s.key| == 32 && s.key == config.authorities[s.authority].key
        && (forall i :: 0 <= i < |old(proposals)[id].signatures| ==> old(proposals)[id].signatures[i].authority != s.authority)
        && s.timestamp + 3_600 >= nowMs / 1000 && s.timestamp <= nowMs / 1000 + 300
        && s.signature == Made(s.key, SigningMessage(old(proposals)[id].content, config.chainId, s.timestamp))
      ensures ok ==> proposals == old(proposals)[id := old(proposals)[id].(signatures := old(proposals)[id].signatures + [s])]
    {
      if s.authority !in config.authorities {
        return false;
      }
      var a := config.authorities[s.authority];
      if !a.active || |s.key| != KEY_LENGTH || s.key != a.key || id !in proposals {
        return false;
      }
      var p := proposals[id];
      if p.executed || exists i :: 0 <= i < |p.signatures| && p.signatures[i].authority == s.authority {
        return false;
      }
      if !Fresh(s.timestamp, nowMs) || !Verifies(s.signature, SigningMessage(p.content, config.chainId, s.timestamp), a.key) {
        return false;
      }
      proposals := proposals[id := p.(signatures := p.signatures + [s])];
      return true;
    }

    method ExecuteProposal(id: ProposalId, nowMs: nat, state: State) returns (r: Option<Proposal>)
      modifies this, state`processed
      ensures View() == Executed(config, old(View()), old(state.processed), id, nowMs)
      ensures r.Some? <==>
        && id in old(proposals)
        && (var p := old(proposals)[id];
            && !p.executed && |p.signatures| >= config.required && nowMs / 1000 >= p.content.timestamp + config.timelock
            && SourceKey(p.content.chain, p.content.hash) !in old(state.processed)
            && (p.content.mint ==>
                  MintedBy(old(dailyMinted), old(lastReset), nowMs) + p.content.amount <= 10_000_000 * TOKEN))
      ensures r.Some? ==> r.value == old(proposals)[id].(executed := true)
      ensures r.Some? && r.value.content.mint ==>
        dailyMinted == MintedBy(old(dailyMinted), old(lastReset), nowMs) + r.value.content.amount
      ensures r.Some? ==>
                (r.value == proposals[id] && state.processed == old(state.processed) + {KeyOf(r.value.content)})
      ensures r.None? ==> state.processed == old(state.processed)
    {
      if id !in proposals || !Executable(proposals[id], config.required, config.timelock, nowMs) {
        return None;
      }
      var p := proposals[id];
      if p.content.mint {
        ResetDailyLimitIfNeeded(nowMs);
        if dailyMinted + p.content.amount > DAILY_LIMIT {
          return None;
        }
      }
      if SourceKey(p.content.chain, p.content.hash) in state.processed {
        return None;
      }
      p := p.(executed := true);
      proposals := proposals[id := p];
      if p.content.mint {
        dailyMinted := dailyMinted + p.content.amount;
      }
      state.MarkProcessed(p.content.chain, p.content.hash);
      return Some(p);
    }

    method PersistMeta(state: State)
      modifies state`meta
      ensures state.meta == Some(View().meta)
    {
      state.meta := Some(Meta(dailyMinted, lastReset, nonceCounter));
    }

    method PersistProposal(id: ProposalId, state: State) returns (ok: bool)
      modifies state`active, state`pending
      ensures ok == (id in proposals)
      ensures state.View() == if ok then Persisted(old(state.View()), View(), id) else old(state.View())
    {
      if id !in proposals {
        return false;
      }
      state.active := state.active[id := proposals[id]];
      state.pending := set other | other in proposals && !proposals[other].executed;
      return true;
    }
  }

  /** The executor's side of a mint: everything is checked again against the chain's own set. */
  method ExecuteMint(k: Config, set_: AuthoritySet, tx: MintTx, secs: nat, state: State) returns (ok: bool)
    modifies state`processed, state`active, state`archive, state`pending
    ensures ok == MayMint(k, set_, old(state.processed), tx, secs)
    ensures ok <==>
      && tx.payload.content.id == tx.txId && !tx.payload.executed && |tx.payload.signatures| >= k.required
      && secs >= tx.payload.content.timestamp + k.timelock
      && Valid(set_) && |Signers(set_, tx.payload.signatures, tx.payload.content, k.chainId)| >= set_.required
      && tx.payload.content.mint && tx.payload.content.recipient == tx.receiver && tx.payload.content.amount == tx.amount
      && tx.payload.content.autoSwap == tx.swap
      && SourceKey(tx.payload.content.chain, tx.payload.content.hash) !in old(state.processed)
    ensures state.View() == if ok then Minted(old(state.View()), tx.payload) else old(state.View())
  {
    var p := tx.payload;
    if Valid(set_) {
      CountIsSigners(set_, p.signatures, p.content, k.chainId);
    }
    if p.content.id != tx.txId || !Executable(p, k.required, k.timelock, secs * 1000) {
      return false;
    }
    var sound := Validate(set_);
    if !sound {
      return false;
    }
    var valid := CountValidSignatures(set_, p, k.chainId);
    if valid < set_.required || !p.content.mint {
      return false;
    }
    if p.content.recipient != tx.receiver || p.content.amount != tx.amount || p.content.autoSwap != tx.swap {
      return false;
    }
    if SourceKey(p.content.chain, p.content.hash) in state.processed {
      return false;
    }
    state.MarkProcessed(p.content.chain, p.content.hash);
    state.ArchiveExecuted(p);
    return true;
  }

  // ----- runs on one state -----

  datatype Event =
    | Create(r: Request, nowMs: nat)
    | Sign(id: ProposalId, s: BridgeSignature, nowMs: nat)
    | Execute(id: ProposalId, nowMs: nat)
    | Mint(set_: AuthoritySet, tx: MintTx, secs: nat)
    | Ingest(set_: AuthoritySet, p: Proposal)
    | PersistMeta
    | PersistProposal(id: ProposalId)
    | Prune(keep: set<ProposalId>)
    | Reload

  /** `done` lists what was executed, by the manager or by a mint transaction. */
  datatype World = World(store: Store, memory: Memory, done: seq<Proposal>)

  function Step(k: Config, w: World, e: Event): World {
    match e
    case Create(r, now) => w.(memory := Created(k, w.memory, w.store.processed, r, now))
    case Sign(id, s, now) => w.(memory := Signed(k, w.memory, id, s, now))
    case Execute(id, now) =>
      var m := Executed(k, w.memory, w.store.processed, id, now);
      if MayExecute(k, w.memory, w.store.processed, id, now) then
        var p := w.memory.proposals[id];
        World(w.store.(processed := w.store.processed + {KeyOf(p.content)}), m, w.done + [p])
      else w.(memory := m)
    case Mint(set_, tx, secs) =>
      if MayMint(k, set_, w.store.processed, tx, secs) then
        World(Minted(w.store, tx.payload), w.memory, w.done + [tx.payload])
      else w
    case Ingest(set_, p) => w.(store := Ingested(w.store, set_, p, k.chainId))
    case PersistMeta => w.(store := w.store.(meta := Some(w.memory.meta)))
    case PersistProposal(id) => if id in w.memory.proposals then w.(store := Persisted(w.store, w.memory, id)) else w
    case Prune(keep) =>
      w.(memory := w.memory.(proposals := map id | id in w.memory.proposals && id in keep :: w.memory.proposals[id]))
    case Reload => w.(memory := Loaded(w.store))
  }

  function Run(k: Config, w: World, es: seq<Event>): World {
    if es == [] then w else Step(k, Run(k, w, es[..|es| - 1]), es[|es| - 1])
  }

  /** Everything executed is on record, and no two executions share a source. */
  predicate Recorded(w: World) {
    && (forall i :: 0 <= i < |w.done| ==> KeyOf(w.done[i].content) in w.store.processed)
    && forall i, j :: 0 <= i < j < |w.done| ==> KeyOf(w.done[i].content) != KeyOf(w.done[j].content)
  }

  lemma StepRecorded(k: Config, w: World, e: Event)
    requires Recorded(w)
    ensures Recorded(Step(k, w, e))
    ensures w.store.processed <= Step(k, w, e).store.processed
  {
  }

  lemma {:induction false} RunRecorded(k: Config, w: World, es: seq<Event>)
    requires Recorded(w)
    ensures Recorded(Run(k, w, es))
    ensures w.store.processed <= Run(k, w, es).store.processed
  {
    if es != [] {
      RunRecorded(k, w, es[..|es| - 1]);
      StepRecorded(k, Run(k, w, es[..|es| - 1]), es[|es| - 1]);
    }
  }

  /** Whatever is created, signed, executed, minted, pruned and reloaded, in any order and by any number
      of coexisting proposals: two executions never name the same source, in any letter case. */
  lemma ExecutedAtMostOnce(k: Config, w: World, es: seq<Event>, i: nat, j: nat)
    requires w.done == []
    requires var done := Run(k, w, es).done;
             i < |done| && j < |done|
             && Lower(done[i].content.chain) == Lower(done[j].content.chain)
             && Lower(done[i].content.hash) == Lower(done[j].content.hash)
    ensures i == j
  {
    RunRecorded(k, w, es);
  }

  /** A source once processed stays so: no later run executes it, and no new proposal is made for it. */
  lemma ProcessedIsFinal(k: Config, w: World, es: seq<Event>, chain: string, hash: string, r: Request, nowMs: nat)
    requires Recorded(w) && SourceKey(chain, hash) in w.store.processed
    requires r.chain == chain && r.hash == hash
    ensures var v := Run(k, w, es);
            && (forall i :: |w.done| <= i < |v.done| ==> KeyOf(v.done[i].content) != SourceKey(chain, hash))
            && Created(k, v.memory, v.store.processed, r, nowMs) == v.memory
  {
    RunRecorded(k, w, es);
    LaterDiffer(k, w, es, SourceKey(chain, hash));
  }

  lemma {:induction false} LaterDiffer(k: Config, w: World, es: seq<Event>, key: string)
    requires Recorded(w) && key in w.store.processed
    ensures var v := Run(k, w, es);
            |w.done| <= |v.done| && forall i :: |w.done| <= i < |v.done| ==> KeyOf(v.done[i].content) != key
  {
    if es != [] {
      LaterDiffer(k, w, es[..|es| - 1], key);
      RunRecorded(k, w, es[..|es| - 1]);
    }
  }

  /** Behind every mint on the chain stand the threshold of distinct active authorities, and whatever each of them
      signed agrees with what is executed in amount, time, nonce, minimum output and the swap flag, and has a
      recipient, a chain and a transaction hash that run together to the same text. */
  lemma MintIsAuthorised(
    k: Config, set_: AuthoritySet, processed: set<string>, tx: MintTx, secs: nat, a: Authority)
    returns (sig: BridgeSignature)
    requires MayMint(k, set_, processed, tx, secs)
    requires a in Signers(set_, tx.payload.signatures, tx.payload.content, k.chainId)
    ensures |Signers(set_, tx.payload.signatures, tx.payload.content, k.chainId)| >= set_.required > 0
    ensures a.active && sig in tx.payload.signatures
    ensures sig.signature == Made(a.key, SigningMessage(tx.payload.content, k.chainId, sig.timestamp))
    ensures tx.payload.content.recipient == tx.receiver && tx.payload.content.amount == tx.amount
  {
    var p := tx.payload;
    CountIsSigners(set_, p.signatures, p.content, k.chainId);
    var i :| 0 <= i < |p.signatures| && Backs(p.signatures[i], a, p.content, k.chainId);
    sig := p.signatures[i];
  }

  /** What was signed, when the executed content shares its message. Chain names of one length leave no choice. */
  lemma SignedIsExecuted(k: Config, tx: MintTx, signed: Content, chainId: nat, at: nat, at': nat)
    requires InRange(signed, chainId) && InRange(tx.payload.content, k.chainId)
    requires SigningMessage(signed, chainId, at) == SigningMessage(tx.payload.content, k.chainId, at')
    ensures var c := tx.payload.content;
            && signed == c.(recipient := signed.recipient, chain := signed.chain, hash := signed.hash)
            && Texts(signed) == Texts(c)
            && (signed == c <==> |signed.recipient| == |c.recipient| && |signed.chain| == |c.chain|)
  {
    MessageIs(signed, tx.payload.content, chainId, k.chainId, at, at');
    SameTexts(signed, tx.payload.content);
  }

  /** The same deposit under another name: the texts are cut elsewhere, the signatures still count, and the record
      of processed sources does not know it. */
  lemma SourceCutElsewhere(k: Config, set_: AuthoritySet, processed: set<string>, tx: MintTx, secs: nat)
    requires MayMint(k, set_, processed, tx, secs)
    requires tx.payload.content.chain == "Ethereum" && tx.payload.content.hash == "0xab12"
    requires SourceKey("Ethereum0", "xab12") !in processed
    ensures var c := tx.payload.content;
            var d := c.(chain := "Ethereum0", hash := "xab12");
            && SourceKey(c.chain, c.hash) != SourceKey(d.chain, d.hash)
            && MayMint(k, set_, processed + {KeyOf(c)}, tx.(payload := tx.payload.(content := d)), secs)
  {
    var c := tx.payload.content;
    var d := c.(chain := "Ethereum0", hash := "xab12");
    assert "Ethereum" + "0xab12" == "Ethereum0" + "xab12";
    assert Texts(c) == c.recipient + (c.chain + c.hash) && Texts(d) == d.recipient + (d.chain + d.hash);
    SameMessageSameCount(set_, tx.payload.signatures, c, d, k.chainId);
    assert SourceKey(c.chain, c.hash)[8] == '|' && SourceKey(d.chain, d.hash)[8] == '0';
  }

  /** It happens: with one authority and nothing processed, one signature mints under two source keys. */
  lemma MintedTwice() returns (k: Config, set_: AuthoritySet, tx: MintTx, again: MintTx)
    ensures tx.payload.signatures == again.payload.signatures && tx.txId == again.txId
    ensures KeyOf(tx.payload.content) != KeyOf(again.payload.content)
    ensures MayMint(k, set_, {}, tx, 100) && MayMint(k, set_, {KeyOf(tx.payload.content)}, again, 100)
  {
    var key := seq(KEY_LENGTH, _ => 1 as byte);
    var a := Authority("a", key, true);
    k, set_ := Config(map["a" := a], 1, 0, 7), AuthoritySet([a], 1);
    var c := Content(ProposalId("p"), true, 5, "r", "Ethereum", "0xab12", 100, 1, 0, false);
    var sig := BridgeSignature("a", Made(key, SigningMessage(c, 7, 100)), key, 100);
    tx := MintTx(c.id, "r", 5, false, Proposal(c, [sig], false));
    MintsOnce(k, set_, tx, a, sig);
    SourceCutElsewhere(k, set_, {}, tx, 100);
    again := tx.(payload := tx.payload.(content := c.(chain := "Ethereum0", hash := "xab12")));
    assert {} + {KeyOf(c)} == {KeyOf(c)};
  }

  lemma MintsOnce(k: Config, set_: AuthoritySet, tx: MintTx, a: Authority, sig: BridgeSignature)
    requires set_ == AuthoritySet([a], 1) && a.active && |a.key| == KEY_LENGTH && k.required == 1 && k.timelock == 0
    requires var c := tx.payload.content;
             && sig == BridgeSignature(a.address, Made(a.key, SigningMessage(c, k.chainId, 100)), a.key, 100)
             && tx == MintTx(c.id, c.recipient, c.amount, c.autoSwap, Proposal(c, [sig], false))
             && c.mint && c.timestamp <= 100
    ensures MayMint(k, set_, {}, tx, 100)
  {
    OneSigner(a, sig, tx.payload.content, k.chainId);
  }

  lemma OneSigner(a: Authority, sig: BridgeSignature, c: Content, chainId: nat)
    requires a.active && |a.key| == KEY_LENGTH
    requires sig == BridgeSignature(a.address, Made(a.key, SigningMessage(c, chainId, sig.timestamp)), a.key, sig.timestamp)
    ensures var s := AuthoritySet([a], 1); Valid(s) && |Seen(s, [sig], c, chainId)| == 1
  {
    var s := AuthoritySet([a], 1);
    assert ActiveCount([a]) == 1 by {
      assert ActiveCount([a][..0]) == 0;
    }
    assert Find([a], Lower(a.address)) == Some(a);
    assert Accepts(s, [sig][0], c, chainId);
    assert Seen(s, [sig], c, chainId) == {Lower(a.address)};
  }

  lemma SameMessageSameCount(s: AuthoritySet, sigs: seq<BridgeSignature>, c: Content, d: Content, chainId: nat)
    requires forall at :: SigningMessage(c, chainId, at) == SigningMessage(d, chainId, at)
    ensures Seen(s, sigs, c, chainId) == Seen(s, sigs, d, chainId)
  {
    forall i | 0 <= i < |sigs|
      ensures Accepts(s, sigs[i], c, chainId) <==> Accepts(s, sigs[i], d, chainId)
    {
      assert SigningMessage(c, chainId, sigs[i].timestamp) == SigningMessage(d, chainId, sigs[i].timestamp);
    }
  }

  // ----- restarts -----

  /** The disk knows every pending proposal as it is in memory, and the counters. */
  predicate Synced(s: Store, m: Memory) {
    && s.pending == Pending(m)
    && (forall id :: id in Pending(m) ==> id in s.active && s.active[id] == m.proposals[id])
    && (match s.meta case Some(meta) => meta case None => Meta(0, 0, 0)) == m.meta
  }

  /** A call of the manager and the writes that follow it. */
  datatype Change =
    | Creation(r: Request, nowMs: nat)
    | Signing(id: ProposalId, s: BridgeSignature, nowMs: nat)
    | Execution(id: ProposalId, nowMs: nat)

  function Call(c: Change): Event {
    match c
    case Creation(r, now) => Create(r, now)
    case Signing(id, s, now) => Sign(id, s, now)
    case Execution(id, now) => Execute(id, now)
  }

  /** The proposal a call may have changed. */
  function Concerned(k: Config, w: World, c: Change): ProposalId {
    match c
    case Creation(r, now) => IdFor(r, w.memory.meta.nonce + 1, k.chainId)
    case Signing(id, _, _) => id
    case Execution(id, _) => id
  }

  function Saved(k: Config, w: World, c: Change): World {
    Step(k, Step(k, Step(k, w, Call(c)), PersistProposal(Concerned(k, w, c))), PersistMeta)
  }

  function SavedAll(k: Config, w: World, cs: seq<Change>): World {
    if cs == [] then w else Saved(k, SavedAll(k, w, cs[..|cs| - 1]), cs[|cs| - 1])
  }

  /** A call leaves every other proposal alone. */
  lemma OthersStay(k: Config, w: World, c: Change)
    ensures var m := Step(k, w, Call(c)).memory;
            forall id :: id != Concerned(k, w, c) ==>
              (id in m.proposals <==> id in w.memory.proposals)
              && (id in m.proposals ==> m.proposals[id] == w.memory.proposals[id])
    ensures Step(k, w, Call(c)).store.active == w.store.active
    ensures Step(k, w, Call(c)).store.pending == w.store.pending
    ensures Concerned(k, w, c) in w.memory.proposals ==> Concerned(k, w, c) in Step(k, w, Call(c)).memory.proposals
  {
  }

  lemma SavedSynced(k: Config, w: World, c: Change)
    requires Synced(w.store, w.memory)
    ensures Synced(Saved(k, w, c).store, Saved(k, w, c).memory)
  {
    var id, v := Concerned(k, w, c), Step(k, w, Call(c));
    OthersStay(k, w, c);
    if id !in v.memory.proposals {
      assert Pending(v.memory) == Pending(w.memory);
    }
  }

  /** As long as each call is followed by its writes, a restart at any later time finds exactly the unexecuted
      proposals with all their signatures, and the counters. */
  lemma {:induction false} ReloadRestores(k: Config, w: World, cs: seq<Change>)
    requires Synced(w.store, w.memory)
    ensures var v := SavedAll(k, w, cs);
            && Synced(v.store, v.memory)
            && Step(k, v, Reload).memory ==
               Memory(map id | id in Pending(v.memory) :: v.memory.proposals[id], v.memory.meta)
  {
    if cs != [] {
      ReloadRestores(k, w, cs[..|cs| - 1]);
      SavedSynced(k, SavedAll(k, w, cs[..|cs| - 1]), cs[|cs| - 1]);
    }
  }
}
