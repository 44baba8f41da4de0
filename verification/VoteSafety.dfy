/**
 * What every event of one coordinator keeps, through crashes at any point.
 *
 * A `World` is what outlives the process: the ledger file, the messages sent, the heights pruned,
 * the blocks finalized, and the votes that honest nodes have attested so far. `Durable` is the
 * invariant on it alone; it holds between any two effects, so also after a crash. `NodeInv` adds
 * what the running process keeps in memory.
 */
module VoteSafety {
  import opened BftTypes
  import opened Quorum
  import opened Round
  import opened VoteLedger
  import opened EquivocationDetection
  import opened Coordinator

  /** A vote that its owner put on the wire; only the owner can produce its signature. */
  datatype Attest = Attest(id: Id, kind: VoteKind, height: int, hash: Hash)

  /** The stake tables in use, the quorum mode, the node itself, and the nodes that follow the program. */
  datatype Params = Params(tables: set<seq<Validator>>, relaxed: bool, local: Id, honest: set<Id>) {
    ghost predicate InUse(cfg: RoundConfig) {
      cfg.validators in tables && cfg.localId == local && cfg.relaxed == relaxed
    }

    /** The honest nodes are counted as such where one vote per height can be kept. */
    ghost predicate Fits() {
      local in honest <==> SoundNode(tables, relaxed, local)
    }
  }

  /** Outside relaxed mode with a single unit of stake, only validators get past prepare. */
  ghost predicate SoundNode(tables: set<seq<Validator>>, relaxed: bool, id: Id) {
    forall vals :: vals in tables ==> IsKnown(vals, id) || !(relaxed && TotalStake(vals) == 1)
  }

  datatype World = World(
    disk: Snapshot, sent: set<Msg>, fin: int, att: set<Attest>, done: set<Block>, accused: set<Id>)

  ghost function Perform(p: Params, w: World, e: Effect): World {
    match e
    case Flushed(snap) => w.(disk := snap)
    case Sent(m) => w.(sent := w.sent + {m}, att := w.att + {Attest(p.local, m.kind, m.height, m.hash)})
    case PrunedTo(h, snap) => w.(disk := snap, fin := if h > w.fin then h else w.fin)
    case FinalizedBlock(b) => w.(done := w.done + {b})
    case Accused(id, _, _, _, _) => w.(accused := w.accused + {id})
  }

  ghost function PerformAll(p: Params, w: World, fx: seq<Effect>): World
    decreases |fx|
  {
    if fx == [] then w else PerformAll(p, Perform(p, w, fx[0]), fx[1..])
  }

  // ----- Invariants ----------------------------------------------------------------------

  /** A quorum of known validators under some table, gathered by an honest one and with a peer in it. */
  ghost predicate Committee(tables: set<seq<Validator>>, relaxed: bool, honest: set<Id>, vals: seq<Validator>, quorum: set<Id>, me: Id) {
    && vals in tables && IsQuorum(vals, relaxed, quorum) && (forall id :: id in quorum ==> IsKnown(vals, id))
    && me in honest && me in quorum && (exists id :: id in quorum && id != me)
  }

  ghost predicate AllPrepared(honest: set<Id>, att: set<Attest>, height: int, hash: Hash, quorum: set<Id>) {
    forall k :: k in quorum && k in honest ==> Attest(k, Prepare, height, hash) in att
  }

  /** A committee whose honest members all prepared this hash at this height. */
  ghost predicate CertifiedBy(p: Params, att: set<Attest>, height: int, hash: Hash, vals: seq<Validator>, quorum: set<Id>, me: Id) {
    Committee(p.tables, p.relaxed, p.honest, vals, quorum, me) && AllPrepared(p.honest, att, height, hash, quorum)
  }

  /** There is such a committee; nothing is promised at a node that is not counted as honest. */
  ghost predicate Certified(p: Params, att: set<Attest>, height: int, hash: Hash) {
    p.local in p.honest ==> exists vals, quorum, me :: CertifiedBy(p, att, height, hash, vals, quorum, me)
  }

  /** No honest node attests two hashes at one height, in either phase. */
  ghost predicate OneHash(honest: set<Id>, att: set<Attest>) {
    forall a, b :: a in att && b in att && a.id == b.id && a.id in honest && a.height == b.height ==> a.hash == b.hash
  }

  /** Every own vote above the pruned heights is in the ledger. */
  ghost predicate Remembered(p: Params, w: World) {
    forall a :: a in w.att && a.id == p.local && p.local in p.honest ==>
      a.height <= w.fin || (a.height in w.disk.prepared && w.disk.prepared[a.height] == a.hash)
  }

  ghost predicate LedgerOk(p: Params, w: World) {
    && (forall h :: h in w.disk.prepared ==> h > w.fin)
    && (forall h :: h in w.disk.committed ==>
          && h in w.disk.prepared && w.disk.prepared[h] == w.disk.committed[h]
          && Certified(p, w.att, h, w.disk.committed[h]))
  }

  ghost predicate SentOk(p: Params, w: World) {
    forall m :: m in w.sent ==>
      && m.sender == p.local && Attest(p.local, m.kind, m.height, m.hash) in w.att
      && (m.kind == Commit ==> Certified(p, w.att, m.height, m.hash))
  }

  ghost predicate Durable(p: Params, w: World) {
    && OneHash(p.honest, w.att)
    && Remembered(p, w)
    && LedgerOk(p, w)
    && SentOk(p, w)
    && (forall b :: b in w.done ==> Certified(p, w.att, b.number, b.hash))
    && w.accused !! p.honest
    && w.fin >= 0
  }

  /** Honest votes counted in a round were attested; the node's own one is in the ledger too. */
  ghost predicate Counted(p: Params, cfg: RoundConfig, prepared: map<int, Hash>, w: World, s: RoundState) {
    && p.InUse(cfg)
    && RoundInv(cfg, s)
    && s.height > w.fin
    && (forall id :: id in s.prepareVotes && id in p.honest ==>
          Attest(id, Prepare, s.height, s.prepareVotes[id].hash) in w.att)
    && (s.proposed.Some? && cfg.IsValidator() ==>
          && s.height in prepared && prepared[s.height] == s.proposed.value.hash
          && Attest(p.local, Prepare, s.height, s.proposed.value.hash) in w.att)
  }

  ghost predicate RoundOk(p: Params, c: Coord, w: World, a: Active) {
    Counted(p, a.cfg, c.preparedAt, w, a.state) && !IsTerminal(a.state.phase)
  }

  /** Lingering votes repeat the finalized hash, which the node itself prepared. */
  ghost predicate LingerOk(p: Params, w: World, l: Linger) {
    && l.height <= w.fin
    && Certified(p, w.att, l.height, l.hash)
    && (p.local in p.honest ==> Attest(p.local, Prepare, l.height, l.hash) in w.att)
    && (l.prepare.Some? ==>
          l.prepare.value.kind == Prepare && l.prepare.value.height == l.height
          && l.prepare.value.hash == l.hash && l.prepare.value.sender == p.local)
  }

  ghost predicate SeenOk(p: Params, att: set<Attest>, seen: VoteTable) {
    forall id, h, k :: id in p.honest && Seen(seen, id, h, k).Some? ==>
      Attest(id, k, h, Seen(seen, id, h, k).value.hash) in att
  }

  ghost predicate Coupled(c: Coord, w: World) {
    && c.ledger == w.disk
    && c.preparedAt == w.disk.prepared
    && c.committedAt == w.disk.committed
  }

  ghost predicate NodeInv(p: Params, c: Coord, w: World) {
    && p.Fits()
    && Durable(p, w)
    && p.InUse(c.cfg)
    && Coupled(c, w)
    && c.lastFinalized <= w.fin
    && (forall h :: h in c.preparedBlock ==>
          c.preparedBlock[h].number == h && h in c.preparedAt && c.preparedAt[h] == c.preparedBlock[h].hash)
    && (c.active.Some? ==> RoundOk(p, c, w, c.active.value))
    && (c.linger.Some? ==> LingerOk(p, w, c.linger.value))
    && SeenOk(p, w.att, c.seen)
  }

  // ----- Effects one at a time -------------------------------------------------------------

  /** The durable invariant holds before, between and after the effects. */
  ghost predicate Safe(p: Params, w: World, fx: seq<Effect>)
    decreases |fx|
  {
    Durable(p, w) && (fx == [] || Safe(p, Perform(p, w, fx[0]), fx[1..]))
  }

  /** An outcome is good: every prefix of its effects is durable and the process invariant holds. */
  ghost predicate Good(p: Params, w: World, c: Coord, fx: seq<Effect>) {
    Safe(p, w, fx) && NodeInv(p, c, PerformAll(p, w, fx))
  }

  lemma {:induction false} PerformConcat(p: Params, w: World, a: seq<Effect>, b: seq<Effect>)
    ensures PerformAll(p, w, a + b) == PerformAll(p, PerformAll(p, w, a), b)
    decreases |a|
  {
    if a == [] {
      assert a + b == b;
    } else {
      assert (a + b)[0] == a[0] && (a + b)[1..] == a[1..] + b;
      PerformConcat(p, Perform(p, w, a[0]), a[1..], b);
    }
  }

  lemma {:induction false} SafeConcat(p: Params, w: World, a: seq<Effect>, b: seq<Effect>)
    requires Safe(p, w, a) && Safe(p, PerformAll(p, w, a), b)
    ensures Safe(p, w, a + b)
    decreases |a|
  {
    if a == [] {
      assert a + b == b;
    } else {
      assert (a + b)[0] == a[0] && (a + b)[1..] == a[1..] + b;
      SafeConcat(p, Perform(p, w, a[0]), a[1..], b);
    }
  }

  lemma {:induction false} SafePrefix(p: Params, w: World, fx: seq<Effect>, n: nat)
    requires Safe(p, w, fx) && n <= |fx|
    ensures Durable(p, PerformAll(p, w, fx[..n]))
    decreases n
  {
    if n > 0 {
      assert fx[..n][0] == fx[0] && fx[..n][1..] == fx[1..][..n - 1];
      SafePrefix(p, Perform(p, w, fx[0]), fx[1..], n - 1);
    } else {
      assert fx[..n] == [];
    }
  }

  lemma {:induction false} Grows(p: Params, w: World, fx: seq<Effect>)
    ensures w.att <= PerformAll(p, w, fx).att && w.fin <= PerformAll(p, w, fx).fin
    ensures w.sent <= PerformAll(p, w, fx).sent && w.done <= PerformAll(p, w, fx).done
    ensures forall a :: a in PerformAll(p, w, fx).att && a !in w.att ==> a.id == p.local
    decreases |fx|
  {
    if fx != [] {
      Grows(p, Perform(p, w, fx[0]), fx[1..]);
    }
  }

  lemma GoodConcat(p: Params, w: World, a: seq<Effect>, c: Coord, b: seq<Effect>)
    requires Safe(p, w, a) && Good(p, PerformAll(p, w, a), c, b)
    ensures Good(p, w, c, a + b)
  {
    SafeConcat(p, w, a, b);
    PerformConcat(p, w, a, b);
  }

  lemma GoodParts(p: Params, w: World, c: Coord, fx: seq<Effect>)
    requires Good(p, w, c, fx)
    ensures Safe(p, w, fx) && NodeInv(p, c, PerformAll(p, w, fx))
  {
  }

  lemma OneEffect(p: Params, w: World, e: Effect)
    ensures PerformAll(p, w, [e]) == Perform(p, w, e)
    ensures Durable(p, w) && Durable(p, Perform(p, w, e)) ==> Safe(p, w, [e])
  {
    assert [e][1..] == [];
    assert PerformAll(p, Perform(p, w, e), []) == Perform(p, w, e);
  }

  lemma TwoEffects(p: Params, w: World, e1: Effect, e2: Effect)
    ensures PerformAll(p, w, [e1, e2]) == Perform(p, Perform(p, w, e1), e2)
    ensures Durable(p, w) && Durable(p, Perform(p, w, e1)) && Durable(p, Perform(p, Perform(p, w, e1), e2))
      ==> Safe(p, w, [e1, e2])
  {
    assert [e1, e2][1..] == [e2];
    OneEffect(p, Perform(p, w, e1), e2);
  }

  lemma CertifiedGrows(p: Params, att: set<Attest>, att': set<Attest>, height: int, hash: Hash)
    requires Certified(p, att, height, hash) && att <= att'
    ensures Certified(p, att', height, hash)
  {
    if p.local in p.honest {
      var vals, quorum, me :| CertifiedBy(p, att, height, hash, vals, quorum, me);
      assert CertifiedBy(p, att', height, hash, vals, quorum, me);
    }
  }

  // ----- Sending ---------------------------------------------------------------------------

  /** The node may send a vote for the hash its ledger holds, or repeat a hash it voted for. */
  ghost predicate MaySend(p: Params, w: World, m: Msg) {
    && m.sender == p.local
    && (m.kind == Commit ==> Certified(p, w.att, m.height, m.hash))
    && (p.local in p.honest ==>
          if m.height > w.fin then OnFile(w, m) else Attest(p.local, Prepare, m.height, m.hash) in w.att)
  }

  ghost predicate OnFile(w: World, m: Msg) {
    m.height in w.disk.prepared && w.disk.prepared[m.height] == m.hash
  }

  lemma CertifiedGrowsAll(p: Params, att: set<Attest>, att': set<Attest>)
    requires att <= att'
    ensures forall h, x :: Certified(p, att, h, x) ==> Certified(p, att', h, x)
  {
    forall h, x | Certified(p, att, h, x) ensures Certified(p, att', h, x) {
      CertifiedGrows(p, att, att', h, x);
    }
  }

  lemma SendKeepsDurable(p: Params, w: World, m: Msg)
    requires Durable(p, w) && MaySend(p, w, m)
    ensures Durable(p, Perform(p, w, Sent(m)))
  {
    CertifiedGrowsAll(p, w.att, Perform(p, w, Sent(m)).att);
  }

  lemma SendKeepsNode(p: Params, c: Coord, w: World, m: Msg)
    requires NodeInv(p, c, w) && MaySend(p, w, m)
    ensures NodeInv(p, c, Perform(p, w, Sent(m)))
  {
    SendKeepsDurable(p, w, m);
    CertifiedGrowsAll(p, w.att, Perform(p, w, Sent(m)).att);
  }

  /** A vote the process repeats keeps everything. */
  lemma SendOne(p: Params, c: Coord, w: World, m: Msg)
    requires NodeInv(p, c, w) && MaySend(p, w, m)
    ensures Good(p, w, c, [Sent(m)])
  {
    SendKeepsNode(p, c, w, m);
    OneEffect(p, w, Sent(m));
  }

  /** What the round's own quorum certifies. */
  lemma PreparedIsCertified(p: Params, cfg: RoundConfig, w: World, s: RoundState)
    requires p.Fits() && p.InUse(cfg) && RoundInv(cfg, s) && s.phase in {Committing, Finalized}
    requires forall id :: id in s.prepareVotes && id in p.honest ==>
      Attest(id, Prepare, s.height, s.prepareVotes[id].hash) in w.att
    ensures s.proposed.Some? && Certified(p, w.att, s.height, s.proposed.value.hash)
  {
    if p.local in p.honest {
      PastPrepareIsValidator(p, cfg, s);
      var quorum := s.prepareVotes.Keys;
      StakeInMonotone(cfg.validators, AnchoredGroup(s.prepareVotes, p.local), quorum);
      assert CertifiedBy(p, w.att, s.height, s.proposed.value.hash, cfg.validators, quorum, p.local);
    }
  }

  /** A sound node past prepare is a validator. */
  lemma PastPrepareIsValidator(p: Params, cfg: RoundConfig, s: RoundState)
    requires p.Fits() && p.InUse(cfg) && RoundInv(cfg, s) && s.phase in {Committing, Finalized}
    ensures p.local in p.honest ==> cfg.IsValidator()
  {
    if !cfg.IsValidator() {
      assert AnchoredGroup(s.prepareVotes, p.local) == {};
      EmptyGroupQuorum(cfg);
    }
  }

  // ----- Delivering messages -----------------------------------------------------------------

  /** Signatures verify only for votes that honest senders attested. */
  ghost predicate ValidOk(p: Params, att: set<Attest>, valid: set<Msg>) {
    forall m :: m in valid && m.sender in p.honest ==> Attest(m.sender, m.kind, m.height, m.hash) in att
  }

  lemma NoteKeepsSeen(p: Params, c: Coord, w: World, msg: Msg, valid: set<Msg>)
    requires SeenOk(p, w.att, c.seen) && ValidOk(p, w.att, valid) && msg in valid
    ensures SeenOk(p, w.att, KeepHighest(Noted(c.seen, msg.sender, msg.height, msg.kind, msg.hash, ""), TRACKED_HEIGHTS))
  {
    var seen := KeepHighest(Noted(c.seen, msg.sender, msg.height, msg.kind, msg.hash, ""), TRACKED_HEIGHTS);
    forall id, h, k | id in p.honest && Seen(seen, id, h, k).Some?
      ensures Attest(id, k, h, Seen(seen, id, h, k).value.hash) in w.att
    {
      NotedSeen(c.seen, TRACKED_HEIGHTS, msg.sender, msg.height, msg.kind, msg.hash, "", id, h, k);
    }
  }

  lemma SetActiveKeeps(p: Params, c: Coord, w: World, a: Active)
    requires NodeInv(p, c, w) && RoundOk(p, c, w, a)
    ensures NodeInv(p, c.(active := Some(a)), w)
  {
  }

  lemma SameVotesKeeps(p: Params, c: Coord, c': Coord, w: World)
    requires NodeInv(p, c, w) && SameVotes(c, c')
    ensures NodeInv(p, c', w)
  {
  }

  lemma SameVotesGood(p: Params, w: World, c: Coord, c': Coord, fx: seq<Effect>)
    requires Good(p, w, c, fx) && SameVotes(c, c')
    ensures Good(p, w, c', fx)
  {
    SameVotesKeeps(p, c, c', PerformAll(p, w, fx));
  }

  lemma ActiveRoundOk(p: Params, c: Coord, w: World)
    requires NodeInv(p, c, w) && c.active.Some?
    ensures RoundOk(p, c, w, c.active.value)
    ensures NodeInv(p, c.(active := None), w)
  {
  }

  lemma FinishKeeps(p: Params, c: Coord, w: World, block: Block)
    requires c.active.Some? && NodeInv(p, c.(active := None), w)
    requires Counted(p, c.active.value.cfg, c.preparedAt, w, c.active.value.state)
    requires c.active.value.state.phase == Finalized && c.active.value.state.proposed == Some(block)
    ensures Good(p, w, Finish(c, block).c, Finish(c, block).fx)
    ensures PerformAll(p, w, Finish(c, block).fx).fin == Finish(c, block).c.lastFinalized
    ensures Finish(c, block).finalized && Finish(c, block).c.active.None? && Finish(c, block).c.deferred == c.deferred
  {
    var cfg, s := c.active.value.cfg, c.active.value.state;
    var h := s.height;
    PastPrepareIsValidator(p, cfg, s);
    PreparedIsCertified(p, cfg, w, s);
    assert block.number == h && (p.local in p.honest ==> Attest(p.local, Prepare, h, block.hash) in w.att);
    hide RoundInv, Certified, AnchoredGroup;
    var d := Finish(c, block);
    var w1 := Perform(p, w, PrunedTo(h, d.c.ledger));
    var w2 := Perform(p, w1, FinalizedBlock(block));
    assert w1.fin == h && w1.disk == Pruned(w.disk, h);
    PruneKeepsDurable(p, w, h);
    DoneKeepsDurable(p, w1, block);
    assert LingerOk(p, w2, LingerFor(c, block));
    FinishedNode(p, c, w, block, w2);
    hide Durable, LingerFor, NodeInv;
    TwoEffects(p, w, PrunedTo(h, d.c.ledger), FinalizedBlock(block));
  }

  lemma FinishedNode(p: Params, c: Coord, w: World, block: Block, w': World)
    requires c.active.Some? && NodeInv(p, c.(active := None), w) && Durable(p, w')
    requires w'.fin == c.active.value.state.height > w.fin && w'.att == w.att && w'.disk == Pruned(w.disk, w'.fin)
    requires LingerOk(p, w', LingerFor(c, block))
    ensures NodeInv(p, Finish(c, block).c, w')
  {
    hide Durable, LingerOk, LingerFor, Certified, SeenOk;
  }

  lemma PruneKeepsDurable(p: Params, w: World, h: int)
    requires Durable(p, w) && h > w.fin
    ensures Durable(p, Perform(p, w, PrunedTo(h, Pruned(w.disk, h))))
  {
    hide Certified;
  }

  lemma DoneKeepsDurable(p: Params, w: World, block: Block)
    requires Durable(p, w) && Certified(p, w.att, block.number, block.hash)
    ensures Durable(p, Perform(p, w, FinalizedBlock(block)))
  {
    hide Certified;
  }

  /** The commit that a prepare quorum triggers is never refused, and sending it is safe. */
  lemma SendCommitKeeps(p: Params, c: Coord, w: World, m: Msg)
    requires NodeInv(p, c, w) && MaySend(p, w, m) && m.kind == Commit && m.height > w.fin && OnFile(w, m)
    ensures Good(p, w, SendCommit(c, m).c, SendCommit(c, m).fx)
    ensures SendCommit(c, m).c.committedAt == c.committedAt[m.height := m.hash]
    ensures |SendCommit(c, m).fx| >= 1 && SendCommit(c, m).fx[|SendCommit(c, m).fx| - 1] == Sent(m)
    ensures SendCommit(c, m).c.deferred == c.deferred
  {
    var ledger := WithCommitted(c.ledger, m.height, m.hash);
    var c' := SendCommit(c, m).c;
    if ledger == c.ledger {
      assert c.committedAt[m.height] == m.hash;
      assert c' == c && SendCommit(c, m).fx == [Sent(m)];
      SendOne(p, c, w, m);
    } else {
      var w1 := Perform(p, w, Flushed(ledger));
      WriteCommitKeeps(p, c, w, m);
      hide Certified;
      SendKeepsNode(p, c', w1, m);
      hide NodeInv;
      TwoEffects(p, w, Flushed(ledger), Sent(m));
      assert SendCommit(c, m).fx == [Flushed(ledger), Sent(m)];
    }
  }

  lemma WriteCommitKeeps(p: Params, c: Coord, w: World, m: Msg)
    requires NodeInv(p, c, w) && MaySend(p, w, m) && m.kind == Commit && m.height > w.fin && OnFile(w, m)
    ensures var ledger := WithCommitted(c.ledger, m.height, m.hash);
      NodeInv(p, c.(committedAt := c.committedAt[m.height := m.hash], ledger := ledger), Perform(p, w, Flushed(ledger)))
  {
    hide Certified;
  }

  ghost predicate Delivered(p: Params, c: Coord, w: World, d: Delivery) {
    && Good(p, w, d.c, d.fx)
    && d.c.deferred == c.deferred
    && (d.finalized ==> d.c.active.None? && d.c.lastFinalized == PerformAll(p, w, d.fx).fin)
  }

  lemma PrepareCounts(p: Params, cfg: RoundConfig, c: Coord, w: World, s: RoundState, msg: Msg)
    requires Counted(p, cfg, c.preparedAt, w, s) && msg.height == s.height
    requires msg.sender in p.honest ==> Attest(msg.sender, Prepare, msg.height, msg.hash) in w.att
    ensures Counted(p, cfg, c.preparedAt, w, HandlePrepare(cfg, s, msg.sender, msg.hash, msg.root).0)
  {
    PrepareKeepsInv(cfg, s, msg.sender, msg.hash, msg.root);
  }

  lemma CommitShape(cfg: RoundConfig, s: RoundState, msg: Msg)
    ensures var (s', finalized) := HandleCommit(cfg, s, msg.sender, msg.hash, msg.root);
      && s'.height == s.height && s'.proposed == s.proposed
      && (if finalized then s'.phase == Finalized && s'.proposed.Some? else s'.phase == s.phase)
  {
  }

  lemma CommitCounts(p: Params, cfg: RoundConfig, c: Coord, w: World, s: RoundState, msg: Msg)
    requires Counted(p, cfg, c.preparedAt, w, s)
    ensures Counted(p, cfg, c.preparedAt, w, HandleCommit(cfg, s, msg.sender, msg.hash, msg.root).0)
  {
    CommitKeepsInv(cfg, s, msg.sender, msg.hash, msg.root);
  }

  lemma NothingDone(p: Params, c: Coord, w: World)
    requires NodeInv(p, c, w)
    ensures Good(p, w, c, [])
  {
  }

  /** The commit a prepare quorum sends carries the certified hash. */
  lemma CommitAllowed(p: Params, cfg: RoundConfig, c: Coord, w: World, s: RoundState, msg: Msg)
    requires NodeInv(p, c, w) && Counted(p, cfg, c.preparedAt, w, s)
    requires HandlePrepare(cfg, s, msg.sender, msg.hash, msg.root).1 != []
    requires Counted(p, cfg, c.preparedAt, w, HandlePrepare(cfg, s, msg.sender, msg.hash, msg.root).0)
    ensures var m := HandlePrepare(cfg, s, msg.sender, msg.hash, msg.root).1[0];
      MaySend(p, w, m) && m.kind == Commit && m.height > w.fin && OnFile(w, m)
  {
    var s' := HandlePrepare(cfg, s, msg.sender, msg.hash, msg.root).0;
    PreparedIsCertified(p, cfg, w, s');
  }

  lemma PrepareShape(cfg: RoundConfig, s: RoundState, msg: Msg)
    ensures var (s', out) := HandlePrepare(cfg, s, msg.sender, msg.hash, msg.root);
      && s'.height == s.height && s'.proposed == s.proposed
      && (s'.phase == s.phase || (s'.phase in {Committing, Finalized} && s'.proposed.Some?))
      && (s'.phase == Finalized && s.phase != Finalized ==> out == [])
  {
  }

  lemma DeliverPrepareKeeps(p: Params, c: Coord, w: World, msg: Msg)
    requires NodeInv(p, c, w) && c.active.Some? && msg.height == c.active.value.state.height
    requires msg.sender in p.honest ==> Attest(msg.sender, Prepare, msg.height, msg.hash) in w.att
    ensures Delivered(p, c, w, DeliverPrepare(c, msg))
  {
    hide NodeInv, Counted, Good, PerformAll, HandlePrepare, SendCommit, Finish;
    ActiveRoundOk(p, c, w);
    var a := c.active.value;
    var (s, out) := HandlePrepare(a.cfg, a.state, msg.sender, msg.hash, msg.root);
    PrepareCounts(p, a.cfg, c, w, a.state, msg);
    PrepareShape(a.cfg, a.state, msg);
    var c1 := c.(active := Some(a.(state := s)));
    if s.phase == Finalized {
      assert c1.(active := None) == c.(active := None);
      FinishKeeps(p, c1, w, s.proposed.value);
    } else {
      SetActiveKeeps(p, c, w, a.(state := s));
      var o := if out == [] then Out(c1, []) else SendCommit(c1, out[0]);
      if out == [] {
        NothingDone(p, c1, w);
      } else {
        CommitAllowed(p, a.cfg, c, w, a.state, msg);
        SendCommitKeeps(p, c1, w, out[0]);
      }
      RetryFlagKeeps(p, w, o.c, o.c.commitRetry || s.phase == Committing, o.fx);
    }
  }

  lemma RetryFlagKeeps(p: Params, w: World, c: Coord, retry: bool, fx: seq<Effect>)
    requires Good(p, w, c, fx)
    ensures Good(p, w, c.(commitRetry := retry), fx)
  {
    SameVotesGood(p, w, c, c.(commitRetry := retry), fx);
  }

  lemma DeliverCommitKeeps(p: Params, c: Coord, w: World, msg: Msg)
    requires NodeInv(p, c, w) && c.active.Some? && msg.height == c.active.value.state.height
    ensures Delivered(p, c, w, DeliverCommit(c, msg))
  {
    hide NodeInv, Counted, Good, PerformAll, HandleCommit, Finish;
    ActiveRoundOk(p, c, w);
    var a := c.active.value;
    var (s, finalized) := HandleCommit(a.cfg, a.state, msg.sender, msg.hash, msg.root);
    CommitCounts(p, a.cfg, c, w, a.state, msg);
    CommitShape(a.cfg, a.state, msg);
    var c1 := c.(active := Some(a.(state := s)));
    if finalized {
      assert c1.(active := None) == c.(active := None);
      FinishKeeps(p, c1, w, s.proposed.value);
    } else {
      SetActiveKeeps(p, c, w, a.(state := s));
      NothingDone(p, c1, w);
    }
  }

  /** Two different attested votes cannot be, so nobody honest is reported. */
  lemma AccuseKeeps(p: Params, c: Coord, w: World, msg: Msg, valid: set<Msg>)
    requires NodeInv(p, c, w) && ValidOk(p, w.att, valid) && msg in valid
    requires Conflicts(c.seen, msg.sender, msg.height, msg.kind, msg.hash)
    ensures msg.sender !in p.honest
    ensures var first := Seen(c.seen, msg.sender, msg.height, msg.kind).value.hash;
      Good(p, w, c, [Accused(msg.sender, msg.height, msg.kind, first, msg.hash)])
  {
    var first := Seen(c.seen, msg.sender, msg.height, msg.kind).value.hash;
    assert msg.sender in p.honest ==>
      Attest(msg.sender, msg.kind, msg.height, first) in w.att && Attest(msg.sender, msg.kind, msg.height, msg.hash) in w.att;
    OneEffect(p, w, Accused(msg.sender, msg.height, msg.kind, first, msg.hash));
  }

  lemma NoteKeepsNode(p: Params, c: Coord, w: World, msg: Msg, valid: set<Msg>)
    requires NodeInv(p, c, w) && ValidOk(p, w.att, valid) && msg in valid
    ensures NodeInv(p, c.(seen := KeepHighest(Noted(c.seen, msg.sender, msg.height, msg.kind, msg.hash, ""), TRACKED_HEIGHTS)), w)
  {
    NoteKeepsSeen(p, c, w, msg, valid);
  }

  lemma BufferIsQuiet(c: Coord, msg: Msg)
    ensures SameVotes(c, c)
    ensures SameVotes(c, Buffer(c, msg)) && Buffer(c, msg).deferred == c.deferred
  {
    hide IsDuplicate;
  }

  lemma QuietDeliveryKeeps(p: Params, c: Coord, w: World, d: Delivery)
    requires NodeInv(p, c, w) && SameVotes(c, d.c) && d.c.deferred == c.deferred && d.fx == [] && !d.finalized
    ensures Delivered(p, c, w, d)
  {
    SameVotesKeeps(p, c, d.c, w);
    NothingDone(p, d.c, w);
  }

  lemma CountVoteKeeps(p: Params, c: Coord, w: World, msg: Msg, valid: set<Msg>)
    requires NodeInv(p, c, w) && ValidOk(p, w.att, valid) && msg in valid
    requires c.active.Some? && msg.height == c.active.value.state.height && msg.kind != Propose
    ensures Delivered(p, c, w, CountVote(c, msg))
  {
    hide NodeInv, Good, PerformAll, Noted, KeepHighest, DeliverPrepare, DeliverCommit, Conflicts;
    if Conflicts(c.seen, msg.sender, msg.height, msg.kind, msg.hash) {
      AccuseKeeps(p, c, w, msg, valid);
    } else {
      NoteKeepsNode(p, c, w, msg, valid);
      var c1 := c.(seen := KeepHighest(Noted(c.seen, msg.sender, msg.height, msg.kind, msg.hash, ""), TRACKED_HEIGHTS));
      if msg.kind == Prepare { DeliverPrepareKeeps(p, c1, w, msg); } else { DeliverCommitKeeps(p, c1, w, msg); }
    }
  }

  lemma DeliverKeeps(p: Params, c: Coord, w: World, msg: Msg, valid: set<Msg>)
    requires NodeInv(p, c, w) && ValidOk(p, w.att, valid)
    ensures Delivered(p, c, w, Deliver(c, msg, valid))
  {
    hide NodeInv, Delivered, CountVote, Buffer, SameVotes, ValidOk;
    BufferIsQuiet(c, msg);
    if c.active.Some? && msg.height == c.active.value.state.height && msg.kind != Propose && msg in valid {
      CountVoteKeeps(p, c, w, msg, valid);
    } else {
      QuietDeliveryKeeps(p, c, w, Deliver(c, msg, valid));
    }
  }

  lemma {:induction false} DrainKeeps(p: Params, c: Coord, w: World, msgs: seq<Msg>, valid: set<Msg>)
    requires NodeInv(p, c, w) && ValidOk(p, w.att, valid)
    ensures Good(p, w, Drain(c, msgs, valid).c, Drain(c, msgs, valid).fx)
    decreases |msgs|
  {
    if msgs != [] && c.active.Some? {
      var d := Deliver(c, msgs[0], valid);
      DeliverKeeps(p, c, w, msgs[0], valid);
      Grows(p, w, d.fx);
      DrainKeeps(p, d.c, PerformAll(p, w, d.fx), msgs[1..], valid);
      GoodConcat(p, w, d.fx, Drain(d.c, msgs[1..], valid).c, Drain(d.c, msgs[1..], valid).fx);
    }
  }

  // ----- Starting rounds -----------------------------------------------------------------------

  /** Voting for the block cannot contradict an earlier vote. */
  ghost predicate MayPrepare(c: Coord, w: World, block: Block) {
    && block.number > w.fin
    && (block.number in c.preparedAt ==> c.preparedAt[block.number] == block.hash)
  }

  /** The own prepare is in the ledger before it is sent. */
  lemma WriteAheadKeeps(p: Params, c: Coord, w: World, block: Block, m: Msg)
    requires NodeInv(p, c, w) && MayPrepare(c, w, block)
    requires m.kind == Prepare && m.height == block.number && m.hash == block.hash && m.sender == p.local
    ensures var w1 := Perform(p, w, Flushed(WithPrepared(c.ledger, block.number, block.hash)));
      Durable(p, w1) && Durable(p, Perform(p, w1, Sent(m)))
  {
    var w1 := Perform(p, w, Flushed(WithPrepared(c.ledger, block.number, block.hash)));
    assert Durable(p, w1);
    SendKeepsDurable(p, w1, m);
  }

  /** The node after opening a round that it votes in. */
  lemma OwnVoteKeepsNode(p: Params, c: Coord, w: World, block: Block, root: Option<Hash>)
    requires NodeInv(p, c, w) && MayPrepare(c, w, block)
    requires c.cfg.IsValidator() && IsKnown(c.cfg.validators, block.proposer)
    ensures var o := OpenRound(c, block, root);
      var w1 := Perform(p, w, Flushed(o.c.ledger));
      NodeInv(p, o.c, Perform(p, w1, Sent(Msg(Prepare, block.number, block.hash, p.local, root))))
  {
    var m := Msg(Prepare, block.number, block.hash, p.local, root);
    var o := OpenRound(c, block, root);
    var w2 := Perform(p, Perform(p, w, Flushed(o.c.ledger)), Sent(m));
    OwnVoteCounted(p, c, w, block, root);
    WriteAheadKeeps(p, c, w, block, m);
    CertifiedGrowsAll(p, w.att, w2.att);
    hide Counted, Durable, Certified, HandlePropose;
    AttestedGrows(p, c, w, w2);
    hide SeenOk, LingerOk, WithPrepared;
    assert o.c.ledger == w2.disk && o.c.ledger.prepared == o.c.preparedAt by { OpenedLedger(c, block, root); }
  }

  lemma OpenedLedger(c: Coord, block: Block, root: Option<Hash>)
    requires c.ledger == Snapshot(c.preparedAt, c.committedAt)
    ensures var c' := OpenRound(c, block, root).c; c'.ledger == Snapshot(c'.preparedAt, c'.committedAt)
  {
  }

  /** What was seen and what lingers stays attested. */
  lemma AttestedGrows(p: Params, c: Coord, w: World, w': World)
    requires NodeInv(p, c, w) && w.att <= w'.att && w.fin <= w'.fin
    ensures SeenOk(p, w'.att, c.seen) && (c.linger.Some? ==> LingerOk(p, w', c.linger.value))
  {
    CertifiedGrowsAll(p, w.att, w'.att);
    hide Certified, Durable, Counted;
  }

  lemma OwnVoteCounted(p: Params, c: Coord, w: World, block: Block, root: Option<Hash>)
    requires NodeInv(p, c, w) && block.number > w.fin
    requires c.cfg.IsValidator() && IsKnown(c.cfg.validators, block.proposer)
    ensures var o := OpenRound(c, block, root);
      var w1 := Perform(p, w, Flushed(o.c.ledger));
      var w2 := Perform(p, w1, Sent(Msg(Prepare, block.number, block.hash, p.local, root)));
      o.c.active.Some? && RoundOk(p, o.c, w2, o.c.active.value)
  {
    ProposeKeepsInv(c.cfg, NewRound(block.number), block, block.proposer, root);
  }

  lemma OpenRoundKeeps(p: Params, c: Coord, w: World, block: Block, root: Option<Hash>)
    requires NodeInv(p, c, w) && c.active.None? && MayPrepare(c, w, block)
    ensures Good(p, w, OpenRound(c, block, root).c, OpenRound(c, block, root).fx)
  {
    var o := OpenRound(c, block, root);
    if c.cfg.IsValidator() && IsKnown(c.cfg.validators, block.proposer) {
      var m := Msg(Prepare, block.number, block.hash, p.local, root);
      OpenRoundVotes(p, c, w, block, root);
      OwnVoteKeepsNode(p, c, w, block, root);
      WriteAheadKeeps(p, c, w, block, m);
      OneEffect(p, w, Sent(m));
      TwoEffects(p, w, Flushed(o.c.ledger), Sent(m));
    } else {
      ProposeKeepsInv(c.cfg, NewRound(block.number), block, block.proposer, root);
      assert Counted(p, c.cfg, c.preparedAt, w, o.c.active.value.state);
      SetActiveKeeps(p, c, w, o.c.active.value);
      NothingDone(p, o.c, w);
    }
  }

  /** Opening replaces whatever round is active. */
  lemma OpenAnywhereKeeps(p: Params, c: Coord, w: World, block: Block, root: Option<Hash>)
    requires NodeInv(p, c, w) && MayPrepare(c, w, block)
    ensures Good(p, w, OpenRound(c, block, root).c, OpenRound(c, block, root).fx)
  {
    var c0 := c.(active := None);
    SameVotesKeeps(p, c, c0, w);
    OpenRoundKeeps(p, c0, w, block, root);
    OpenIgnoresActive(c, block, root);
    hide NodeInv, Good, OpenRound;
  }

  /** Opening with the configuration taken before the state root was awaited, whatever it is now. */
  lemma OpenWithKeeps(p: Params, c: Coord, w: World, cfg: RoundConfig, block: Block, root: Option<Hash>)
    requires NodeInv(p, c, w) && MayPrepare(c, w, block) && p.InUse(cfg)
    ensures Good(p, w, OpenWith(c, cfg, block, root).c, OpenWith(c, cfg, block, root).fx)
  {
    hide OpenRound, Good;
    ConfigKeeps(p, c, w, cfg);
    var o := OpenRound(c.(cfg := cfg), block, root);
    OpenAnywhereKeeps(p, c.(cfg := cfg), w, block, root);
    GoodConfig(p, w, o.c, o.fx, c.cfg);
  }

  /** No vote depends on the stakes of the current table: rounds keep the one they began with. */
  lemma ConfigKeeps(p: Params, c: Coord, w: World, cfg: RoundConfig)
    requires NodeInv(p, c, w) && p.InUse(cfg)
    ensures NodeInv(p, c.(cfg := cfg), w)
  {
  }

  lemma GoodConfig(p: Params, w: World, c: Coord, fx: seq<Effect>, cfg: RoundConfig)
    requires Good(p, w, c, fx) && p.InUse(cfg)
    ensures Good(p, w, c.(cfg := cfg), fx)
  {
    hide NodeInv;
    ConfigKeeps(p, c, PerformAll(p, w, fx), cfg);
  }

  /** New stakes for the same members keep everything, in the middle of a round too. */
  lemma ReweighKeeps(p: Params, c: Coord, w: World, vals: seq<Validator>)
    requires NodeInv(p, c, w) && vals in p.tables && Ids(vals) == Ids(c.cfg.validators)
    ensures Good(p, w, UpdateValidators(c, vals).c, UpdateValidators(c, vals).fx)
  {
    NodeFacts(p, c, w);
    hide NodeInv;
    ConfigKeeps(p, c, w, c.cfg.(validators := vals));
    NothingDone(p, c.(cfg := c.cfg.(validators := vals)), w);
  }

  lemma OpenIgnoresActive(c: Coord, block: Block, root: Option<Hash>)
    ensures OpenRound(c.(active := None), block, root) == OpenRound(c, block, root)
  {
  }

  lemma OpenRoundVotes(p: Params, c: Coord, w: World, block: Block, root: Option<Hash>)
    requires NodeInv(p, c, w)
    requires c.cfg.IsValidator() && IsKnown(c.cfg.validators, block.proposer)
    ensures var o := OpenRound(c, block, root);
      var m := Msg(Prepare, block.number, block.hash, p.local, root);
      && o.c.ledger == WithPrepared(c.ledger, block.number, block.hash)
      && (o.fx == [Flushed(o.c.ledger), Sent(m)] || (o.c.ledger == w.disk && o.fx == [Sent(m)]))
  {
  }

  lemma StartFinishKeeps(p: Params, c: Coord, w: World, block: Block, root: Option<Hash>, valid: set<Msg>)
    requires NodeInv(p, c, w) && c.active.None? && MayPrepare(c, w, block) && ValidOk(p, w.att, valid)
    ensures Good(p, w, StartFinish(c, block, root, valid).c, StartFinish(c, block, root, valid).fx)
  {
    var o := OpenRound(c, block, root);
    OpenRoundKeeps(p, c, w, block, root);
    Grows(p, w, o.fx);
    var w1 := PerformAll(p, w, o.fx);
    var buffered := Select(c.pending, block.number, false) + Select(c.pending, block.number, true);
    var c1 := o.c.(pending := Newer(c.pending, block.number));
    hide NodeInv, OpenRound, Drain, PerformAll, Select, Newer;
    SameVotesKeeps(p, o.c, c1, w1);
    DrainKeeps(p, c1, w1, buffered, valid);
    var r := Drain(c1, buffered, valid);
    hide Good, Safe;
    RetryFlagKeeps(p, w1, r.c, true, r.fx);
    assert Safe(p, w, o.fx) by { GoodParts(p, w, o.c, o.fx); }
    GoodConcat(p, w, o.fx, StartFinish(c, block, root, valid).c, r.fx);
  }

  /** The staleness floor covers every height whose votes were already pruned. */
  ghost predicate FloorOk(c: Coord, w: World, tip: Option<int>) {
    Floor(c.lastFinalized, tip) >= w.fin
  }

  lemma NodeFacts(p: Params, c: Coord, w: World)
    requires NodeInv(p, c, w)
    ensures Durable(p, w) && p.InUse(c.cfg) && Coupled(c, w)
    ensures c.active.Some? ==> !IsTerminal(c.active.value.state.phase)
  {
  }

  lemma StartKeeps(p: Params, c: Coord, w: World, block: Block, tip: Option<int>, root: Option<Hash>, valid: set<Msg>)
    requires NodeInv(p, c, w) && FloorOk(c, w, tip) && ValidOk(p, w.att, valid)
    ensures Good(p, w, StartRound(c, block, tip, root, valid).c, StartRound(c, block, tip, root, valid).fx)
  {
    hide NodeInv, Good, StartFinish, ValidOk;
    NodeFacts(p, c, w);
    var d := StartCheck(c, block, tip);
    SameVotesKeeps(p, c, d.c, w);
    match d
    case Refused(c1) => NothingDone(p, c1, w);
    case Proceed(c1) => StartFinishKeeps(p, c1, w, block, root, valid);
  }

  lemma ProcessDeferredKeeps(p: Params, c: Coord, w: World, env: Env)
    requires NodeInv(p, c, w) && FloorOk(c, w, env.tipAfter) && ValidOk(p, w.att, env.valid)
    ensures Good(p, w, ProcessDeferred(c, env).c, ProcessDeferred(c, env).fx)
  {
    hide NodeInv, Good, StartRound, ValidOk;
    SameVotesKeeps(p, c, c.(deferred := None), w);
    NothingDone(p, c.(deferred := None), w);
    if c.deferred.Some? {
      StartKeeps(p, c.(deferred := None), w, c.deferred.value, env.tipAfter, env.root, env.valid);
    }
  }

  lemma HandleMessageKeeps(p: Params, c: Coord, w: World, msg: Msg, env: Env)
    requires NodeInv(p, c, w) && ValidOk(p, w.att, env.valid)
    ensures Good(p, w, HandleMessage(c, msg, env).c, HandleMessage(c, msg, env).fx)
  {
    DeliverKeeps(p, c, w, msg, env.valid);
    var d := Deliver(c, msg, env.valid);
    if d.finalized {
      var w1 := PerformAll(p, w, d.fx);
      Grows(p, w, d.fx);
      ProcessDeferredKeeps(p, d.c, w1, env);
      GoodConcat(p, w, d.fx, ProcessDeferred(d.c, env).c, ProcessDeferred(d.c, env).fx);
    }
  }

  // ----- Timers ----------------------------------------------------------------------------------

  /** Repeating votes that the ledger holds keeps everything, in any order. */
  lemma {:induction false} RepeatsKeep(p: Params, c: Coord, w: World, fx: seq<Effect>)
    requires NodeInv(p, c, w)
    requires forall i :: 0 <= i < |fx| ==> fx[i].Sent? && MaySend(p, w, fx[i].msg)
    ensures Good(p, w, c, fx)
    decreases |fx|
  {
    if fx != [] {
      var w1 := Perform(p, w, fx[0]);
      SendKeepsNode(p, c, w, fx[0].msg);
      CertifiedGrowsAll(p, w.att, w1.att);
      RepeatsKeep(p, c, w1, fx[1..]);
    }
  }

  lemma CommitTickKeeps(p: Params, c: Coord, w: World)
    requires NodeInv(p, c, w)
    ensures Good(p, w, CommitTick(c).c, CommitTick(c).fx)
  {
    if CommitTick(c).fx == [] {
      SameVotesKeeps(p, c, CommitTick(c).c, w);
      NothingDone(p, CommitTick(c).c, w);
    } else {
      var s := c.active.value.state;
      var m := Msg(Commit, s.height, s.proposed.value.hash, c.cfg.localId, None);
      CommitMayBeSent(p, c, w, m);
      hide NodeInv, MaySend, Good;
      SendOne(p, c, w, m);
    }
  }

  /** In the commit phase the node may send, and send again, its commit for the proposed block. */
  lemma CommitMayBeSent(p: Params, c: Coord, w: World, m: Msg)
    requires NodeInv(p, c, w) && c.active.Some? && c.active.value.state.phase == Committing
    requires c.active.value.state.proposed.Some?
    requires m == Msg(Commit, c.active.value.state.height, c.active.value.state.proposed.value.hash, c.cfg.localId, None)
    ensures MaySend(p, w, m)
  {
    var a := c.active.value;
    PastPrepareIsValidator(p, a.cfg, a.state);
    PreparedIsCertified(p, a.cfg, w, a.state);
    hide Certified, RoundInv, SeenOk, LingerOk;
  }

  lemma PrepareTickKeeps(p: Params, c: Coord, w: World)
    requires NodeInv(p, c, w)
    ensures Good(p, w, PrepareTick(c).c, PrepareTick(c).fx)
  {
    RepeatsKeep(p, PrepareTick(c).c, w, PrepareTick(c).fx);
  }

  lemma LingerTickKeeps(p: Params, c: Coord, w: World)
    requires NodeInv(p, c, w)
    ensures Good(p, w, LingerTick(c).c, LingerTick(c).fx)
  {
    if c.linger.None? {
      NothingDone(p, c, w);
    } else if c.linger.value.remaining == 0 {
      NothingDone(p, c.(linger := None), w);
    } else {
      LingerSendKeeps(p, c, w);
    }
  }

  lemma LingerSendKeeps(p: Params, c: Coord, w: World)
    requires NodeInv(p, c, w) && c.linger.Some? && c.linger.value.remaining > 0
    ensures Good(p, w, LingerTick(c).c, LingerTick(c).fx)
  {
    var l := c.linger.value;
    var c' := c.(linger := Some(l.(remaining := l.remaining - 1)));
    LingerVotesOk(p, c, w);
    hide NodeInv, Good, LingerOk, MaySend;
    SameVotesKeeps(p, c, c', w);
    LingerMaySend(p, w, l);
    hide SameVotes;
    var commit := Sent(Msg(Commit, l.height, l.hash, p.local, None));
    if l.prepare.Some? {
      RepeatsKeep(p, c', w, [Sent(l.prepare.value), commit]);
    } else {
      RepeatsKeep(p, c', w, [commit]);
      assert [] + [commit] == [commit];
    }
  }

  lemma LingerMaySend(p: Params, w: World, l: Linger)
    requires LingerOk(p, w, l)
    ensures MaySend(p, w, Msg(Commit, l.height, l.hash, p.local, None))
    ensures l.prepare.Some? ==> MaySend(p, w, l.prepare.value)
  {
  }

  lemma LingerVotesOk(p: Params, c: Coord, w: World)
    requires NodeInv(p, c, w) && c.linger.Some?
    ensures c.cfg.localId == p.local && LingerOk(p, w, c.linger.value)
  {
  }

  lemma ReplayKeeps(p: Params, c: Coord, w: World, floor: int, commits: seq<int>, prepares: seq<int>, fx: seq<Effect>)
    requires NodeInv(p, c, w) && IsReplay(c, floor, commits, prepares, fx)
    ensures Good(p, w, c, fx)
  {
    forall i | 0 <= i < |fx| ensures fx[i].Sent? && MaySend(p, w, fx[i].msg) {
      ReplayIsOnRecord(c, floor, commits, prepares, fx, i);
    }
    RepeatsKeep(p, c, w, fx);
  }

  /** A vote on record may be repeated at any time. */
  lemma RepeatKeeps(p: Params, c: Coord, w: World, msg: Msg)
    requires NodeInv(p, c, w) && OnRecord(c, msg)
    ensures Good(p, w, c, [Sent(msg)])
  {
    SendOne(p, c, w, msg);
  }

  // ----- Any event -----------------------------------------------------------------------------

  /**
   * The environment keeps its side: real signatures, a tip that covers the pruned heights, and, when a
   * state root arrives for a start that was interrupted, no other vote at that height in the meantime.
   */
  ghost predicate EventOk(p: Params, c: Coord, w: World, ev: Event) {
    match ev
    case StartEvent(_, env) => FloorOk(c, w, env.tip) && ValidOk(p, w.att, env.valid)
    case MessageEvent(_, env) => ValidOk(p, w.att, env.valid)
    case BlockEvent(_, env) => FloorOk(c, w, env.tip) && ValidOk(p, w.att, env.valid)
    case TimeoutEvent(env) => FloorOk(c, w, env.tipAfter) && ValidOk(p, w.att, env.valid)
    case LivenessEvent(env) => FloorOk(c, w, env.tipAfter) && ValidOk(p, w.att, env.valid)
    case OpenEvent(cfg, block, _) => p.InUse(cfg) && MayPrepare(c, w, block)
    case DeliverEvent(_, valid) => ValidOk(p, w.att, valid)
    case UpdateEvent(vals) => vals in p.tables && Ids(vals) == Ids(c.cfg.validators)
    case _ => true
  }

  lemma BlockKeeps(p: Params, c: Coord, w: World, block: Block, env: Env)
    requires NodeInv(p, c, w) && FloorOk(c, w, env.tip) && ValidOk(p, w.att, env.valid)
    ensures Good(p, w, HandleReceivedBlock(c, block, env).c, HandleReceivedBlock(c, block, env).fx)
  {
    hide NodeInv, Good, StartRound, ValidOk;
    NodeFacts(p, c, w);
    assert ClearTerminal(c) == c;
    if block.proposer == c.cfg.localId {
      NothingDone(p, c, w);
    } else if c.active.None? {
      StartKeeps(p, c, w, block, env.tip, env.root, env.valid);
    } else {
      NothingDone(p, c, w);
      SameVotesKeeps(p, c, c.(deferred := Some(block)), w);
      NothingDone(p, c.(deferred := Some(block)), w);
      SameVotesKeeps(p, c, ClearRound(c), w);
      StartKeeps(p, ClearRound(c), w, block, env.tip, env.root, env.valid);
    }
  }

  lemma TimeoutKeeps(p: Params, c: Coord, w: World, env: Env)
    requires NodeInv(p, c, w) && FloorOk(c, w, env.tipAfter) && ValidOk(p, w.att, env.valid)
    ensures Good(p, w, Timeout(c, env).c, Timeout(c, env).fx)
    ensures Good(p, w, LivenessReset(c, env).c, LivenessReset(c, env).fx)
  {
    hide NodeInv, Good, ProcessDeferred, ValidOk;
    NothingDone(p, c, w);
    if c.active.Some? {
      var h := c.active.value.state.height;
      var c1 := Reenter(ClearRound(c), h);
      var c2 := Reenter(ClearRound(c).(pending := [], deferred := None), h);
      SameVotesKeeps(p, c, c1, w);
      SameVotesKeeps(p, c, c2, w);
      ProcessDeferredKeeps(p, c1, w, env);
      ProcessDeferredKeeps(p, c2, w, env);
    }
  }

  lemma DeliverIsGood(p: Params, c: Coord, w: World, msg: Msg, valid: set<Msg>)
    requires NodeInv(p, c, w) && ValidOk(p, w.att, valid)
    ensures Good(p, w, Deliver(c, msg, valid).c, Deliver(c, msg, valid).fx)
  {
    hide NodeInv, Good, Deliver;
    DeliverKeeps(p, c, w, msg, valid);
  }

  lemma ClearingIsQuiet(c: Coord)
    ensures SameVotes(c, ForceClear(c)) && SameVotes(c, Stop(c))
  {
  }

  lemma QuietKeeps(p: Params, c: Coord, w: World, next: Coord)
    requires NodeInv(p, c, w) && SameVotes(c, next)
    ensures Good(p, w, next, [])
  {
    hide NodeInv, Good;
    SameVotesKeeps(p, c, next, w);
    NothingDone(p, next, w);
  }

  lemma StepKeeps(p: Params, c: Coord, w: World, ev: Event, o: Out)
    requires NodeInv(p, c, w) && EventOk(p, c, w, ev) && Step(c, ev, o)
    ensures Good(p, w, o.c, o.fx)
  {
    hide NodeInv, Good, StartRound, HandleMessage, HandleReceivedBlock, Timeout, LivenessReset, OpenWith, Deliver, MayPrepare;
    hide UpdateValidators, OnRecord, FloorOk, ValidOk, CommitTick, PrepareTick, LingerTick, IsReplay, ForceClear, Stop, SameVotes;
    match ev
    case StartEvent(block, env) => StartKeeps(p, c, w, block, env.tip, env.root, env.valid);
    case MessageEvent(msg, env) => HandleMessageKeeps(p, c, w, msg, env);
    case BlockEvent(block, env) => BlockKeeps(p, c, w, block, env);
    case TimeoutEvent(env) => TimeoutKeeps(p, c, w, env);
    case LivenessEvent(env) => TimeoutKeeps(p, c, w, env);
    case ForceClearEvent => ClearingIsQuiet(c); QuietKeeps(p, c, w, ForceClear(c));
    case CommitTickEvent => CommitTickKeeps(p, c, w);
    case PrepareTickEvent => PrepareTickKeeps(p, c, w);
    case LingerTickEvent => LingerTickKeeps(p, c, w);
    case ReplayEvent(tip, commits, prepares) => ReplayKeeps(p, c, w, Floor(c.lastFinalized, tip), commits, prepares, o.fx);
    case StopEvent => ClearingIsQuiet(c); QuietKeeps(p, c, w, Stop(c));
    case OpenEvent(cfg, block, root) => OpenWithKeeps(p, c, w, cfg, block, root);
    case DeliverEvent(msg, valid) => DeliverIsGood(p, c, w, msg, valid);
    case QuietEvent(next) => QuietKeeps(p, c, w, next);
    case UpdateEvent(vals) => ReweighKeeps(p, c, w, vals);
    case RepeatEvent(msg) => RepeatKeeps(p, c, w, msg);
  }

  /** A process restarted from the file, after a crash at any point, has the invariant again. */
  lemma RestartKeeps(p: Params, cfg: RoundConfig, w: World)
    requires p.Fits() && p.InUse(cfg) && Durable(p, w)
    ensures NodeInv(p, Restart(cfg, w.disk), w)
  {
  }
}
