/**
 * Where the one-vote-per-height guarantee rests on something outside the code, and exactly when
 * it fails without it: the chain tip and ledger file read at a restart, two starts overlapping
 * around the state-root computation, and a change of membership.
 */
module Hazards {
  import opened BftTypes
  import opened Quorum
  import opened Round
  import opened VoteLedger
  import opened EquivocationDetection
  import opened Coordinator
  import opened VoteSafety

  /** The outcome sends a prepare that contradicts a vote already attested by the node. */
  ghost predicate Contradicts(local: Id, att: set<Attest>, fx: seq<Effect>) {
    exists i, a :: 0 <= i < |fx| && a in att && fx[i].Sent? && fx[i].msg.kind == Prepare
      && a.id == local && a.height == fx[i].msg.height && a.hash != fx[i].msg.hash
  }

  /** Opening a round sends exactly one vote: the prepare for the block. */
  lemma OpenRoundSends(c: Coord, block: Block, root: Option<Hash>)
    ensures var m := Msg(Prepare, block.number, block.hash, c.cfg.localId, root);
      var fx := OpenRound(c, block, root).fx;
      if IsKnown(c.cfg.validators, c.cfg.localId) && IsKnown(c.cfg.validators, block.proposer)
      then fx == [Sent(m)] || fx == [Flushed(WithPrepared(c.ledger, block.number, block.hash)), Sent(m)]
      else fx == []
  {
  }

  /** Later effects of a start are commits for the same block or bookkeeping, never a prepare. */
  lemma {:induction false} DrainSendsNoPrepare(c: Coord, msgs: seq<Msg>, valid: set<Msg>)
    ensures forall e :: e in Drain(c, msgs, valid).fx && e.Sent? ==> e.msg.kind == Commit
    decreases |msgs|
  {
    if msgs != [] && c.active.Some? {
      var d := Deliver(c, msgs[0], valid);
      DeliverSendsNoPrepare(c, msgs[0], valid);
      DrainSendsNoPrepare(d.c, msgs[1..], valid);
    }
  }

  lemma DeliverSendsNoPrepare(c: Coord, msg: Msg, valid: set<Msg>)
    ensures forall e :: e in Deliver(c, msg, valid).fx && e.Sent? ==> e.msg.kind == Commit
  {
    hide DeliverPrepare, DeliverCommit, Conflicts, Seen, Noted, KeepHighest, Buffer;
    if c.active.Some? {
      CountingSendsNoPrepare(c.(seen := KeepHighest(Noted(c.seen, msg.sender, msg.height, msg.kind, msg.hash, ""), TRACKED_HEIGHTS)), msg);
    }
  }

  lemma CountingSendsNoPrepare(c: Coord, msg: Msg)
    requires c.active.Some?
    ensures forall e :: e in DeliverPrepare(c, msg).fx && e.Sent? ==> e.msg.kind == Commit
    ensures forall e :: e in DeliverCommit(c, msg).fx && e.Sent? ==> e.msg.kind == Commit
  {
    PreparingSendsCommits(c, msg);
    hide DeliverPrepare, HandleCommit, Finish;
    var a := c.active.value;
    var (s, finalized) := HandleCommit(a.cfg, a.state, msg.sender, msg.hash, msg.root);
    if finalized && s.proposed.Some? {
      FinishSendsNothing(c.(active := Some(a.(state := s))), s.proposed.value);
    }
  }

  lemma PreparingSendsCommits(c: Coord, msg: Msg)
    requires c.active.Some?
    ensures forall e :: e in DeliverPrepare(c, msg).fx && e.Sent? ==> e.msg.kind == Commit
  {
    var a := c.active.value;
    PrepareSendsCommit(a.cfg, a.state, msg);
    hide HandlePrepare, Finish, SendCommit;
    var (s, out) := HandlePrepare(a.cfg, a.state, msg.sender, msg.hash, msg.root);
    var c1 := c.(active := Some(a.(state := s)));
    if s.phase == Finalized && s.proposed.Some? {
      FinishSendsNothing(c1, s.proposed.value);
    } else if out != [] {
      SendsOnlyThat(c1, out[0]);
    }
  }

  lemma SendsOnlyThat(c: Coord, m: Msg)
    ensures forall e :: e in SendCommit(c, m).fx && e.Sent? ==> e.msg == m
  {
    hide WithCommitted;
  }

  lemma FinishSendsNothing(c: Coord, block: Block)
    requires c.active.Some?
    ensures forall e :: e in Finish(c, block).fx ==> !e.Sent?
  {
    hide LingerFor, Later, Pruned;
  }

  lemma PrepareSendsCommit(cfg: RoundConfig, s: RoundState, msg: Msg)
    ensures var out := HandlePrepare(cfg, s, msg.sender, msg.hash, msg.root).1; out == [] || out[0].kind == Commit
  {
    hide GroupHasQuorum, Accepts;
  }

  lemma StartFinishPrepares(c: Coord, block: Block, root: Option<Hash>, valid: set<Msg>)
    ensures forall e :: e in StartFinish(c, block, root, valid).fx && e.Sent? && e.msg.kind == Prepare ==>
      e.msg.height == block.number && e.msg.hash == block.hash
    ensures IsKnown(c.cfg.validators, c.cfg.localId) && IsKnown(c.cfg.validators, block.proposer) ==>
      Sent(Msg(Prepare, block.number, block.hash, c.cfg.localId, root)) in StartFinish(c, block, root, valid).fx
  {
    OpenRoundSends(c, block, root);
    var o := OpenRound(c, block, root);
    var buffered := Select(c.pending, block.number, false) + Select(c.pending, block.number, true);
    DrainSendsNoPrepare(o.c.(pending := Newer(c.pending, block.number)), buffered, valid);
    hide Drain, OpenRound;
  }

  // ----- Restarts --------------------------------------------------------------------------

  /** Every height above the tip at which the node voted is in the reloaded ledger, with that hash. */
  ghost predicate Covered(local: Id, att: set<Attest>, disk: Snapshot, tip: Option<int>) {
    forall a :: a in att && a.id == local && a.height > Floor(0, tip) ==>
      a.height in disk.prepared && disk.prepared[a.height] == a.hash
  }

  /**
   * A validator restarted from `disk` with chain tip `tip` can be made to contradict an earlier
   * vote by some block exactly when the file and the tip together miss one of its votes: a write
   * that failed, a file that was wiped or unreadable, or a pruned height the chain has not reached.
   */
  lemma RestartSafeIff(cfg: RoundConfig, att: set<Attest>, disk: Snapshot, tip: Option<int>)
    requires cfg.IsValidator()
    ensures (forall block, root ::
               !Contradicts(cfg.localId, att, StartRound(Restart(cfg, disk), block, tip, root, {}).fx))
            <==> Covered(cfg.localId, att, disk, tip)
  {
    var c := Restart(cfg, disk);
    if !Covered(cfg.localId, att, disk, tip) {
      var a :| a in att && a.id == cfg.localId && a.height > Floor(0, tip)
        && !(a.height in disk.prepared && disk.prepared[a.height] == a.hash);
      var other := if a.height in disk.prepared then disk.prepared[a.height] else a.hash + "'";
      var block := Block(a.height, other, cfg.localId);
      UncoveredContradicts(c, att, a, block, tip);
    } else {
      forall block, root ensures !Contradicts(cfg.localId, att, StartRound(c, block, tip, root, {}).fx) {
        CoveredIsSafe(c, att, block, tip, root);
      }
    }
  }

  lemma UncoveredContradicts(c: Coord, att: set<Attest>, a: Attest, block: Block, tip: Option<int>)
    requires c.active.None? && !c.stopped && IsKnown(c.cfg.validators, c.cfg.localId)
    requires a in att && a.id == c.cfg.localId && a.height == block.number > Floor(c.lastFinalized, tip)
    requires a.hash != block.hash && block.proposer == c.cfg.localId
    requires block.number in c.preparedAt ==> c.preparedAt[block.number] == block.hash
    ensures Contradicts(c.cfg.localId, att, StartRound(c, block, tip, None, {}).fx)
  {
    var c1 := StartCheck(c, block, tip).c;
    StartFinishPrepares(c1, block, None, {});
    hide StartFinish;
    var fx := StartRound(c, block, tip, None, {}).fx;
    var e := Sent(Msg(Prepare, block.number, block.hash, c.cfg.localId, None));
    assert e in fx;
    var i :| 0 <= i < |fx| && fx[i] == e;
    assert fx[i].msg.height == a.height;
  }

  lemma CoveredIsSafe(c: Coord, att: set<Attest>, block: Block, tip: Option<int>, root: Option<Hash>)
    requires c.active.None?
    requires forall a :: a in att && a.id == c.cfg.localId && a.height > Floor(c.lastFinalized, tip) ==>
      a.height in c.preparedAt && c.preparedAt[a.height] == a.hash
    ensures !Contradicts(c.cfg.localId, att, StartRound(c, block, tip, root, {}).fx)
  {
    var d := StartCheck(c, block, tip);
    if d.Proceed? {
      StartFinishPrepares(d.c, block, root, {});
      hide StartFinish;
      var fx := StartRound(c, block, tip, root, {}).fx;
      assert forall i :: 0 <= i < |fx| ==> fx[i] in fx;
    }
  }

  /**
   * A restart loses the state root. Whatever round a validator opens with a root, after a crash the replay from
   * the file sends the same prepare without one, so a validator that restarts at a height has sent both.
   */
  lemma RestartDropsRoot(p: Params, c: Coord, w: World, block: Block, root: Hash, tip: Option<int>,
      commits: seq<int>, prepares: seq<int>, fx: seq<Effect>)
    requires Coupled(c, w) && c.cfg.IsValidator() && IsKnown(c.cfg.validators, block.proposer)
    requires block.number !in c.committedAt && block.number > Floor(0, tip)
    requires IsReplay(Restart(c.cfg, PerformAll(p, w, OpenRound(c, block, Some(root)).fx).disk), Floor(0, tip), commits, prepares, fx)
    ensures Sent(Msg(Prepare, block.number, block.hash, c.cfg.localId, Some(root))) in OpenRound(c, block, Some(root)).fx
    ensures Sent(Msg(Prepare, block.number, block.hash, c.cfg.localId, None)) in fx
  {
    OpenedDisk(p, c, w, block, root);
    OpenRoundSends(c, block, Some(root));
    hide OpenRound, PerformAll;
    assert block.number in prepares;
    var i :| 0 <= i < |prepares| && prepares[i] == block.number;
    assert fx[|commits| + i] in fx;
  }

  /** A vote of this node for the hash at the height. */
  predicate IsVoteFor(e: Effect, local: Id, height: int, hash: Hash) {
    e.Sent? && e.msg.sender == local && e.msg.height == height && e.msg.hash == hash && e.msg.kind != Propose
  }

  /**
   * After a restart the replay repeats a vote for every hash the node voted for above the pruned heights and the
   * tip: its commit where it committed, else its prepare.
   */
  lemma ReplayRepeatsVotes(p: Params, w: World, cfg: RoundConfig, tip: Option<int>, commits: seq<int>, prepares: seq<int>,
      fx: seq<Effect>, a: Attest)
    requires Durable(p, w) && p.local in p.honest && p.InUse(cfg)
    requires IsReplay(Restart(cfg, w.disk), Floor(0, tip), commits, prepares, fx)
    requires a in w.att && a.id == p.local && a.height > w.fin && a.height > Floor(0, tip)
    ensures exists i :: 0 <= i < |fx| && IsVoteFor(fx[i], p.local, a.height, a.hash) &&
              (a.height in w.disk.committed <==> fx[i].msg.kind == Commit)
  {
    assert Remembered(p, w) && LedgerOk(p, w);
    var h := a.height;
    assert h in w.disk.prepared && w.disk.prepared[h] == a.hash;
    if h in w.disk.committed {
      assert h in commits;
      var i :| 0 <= i < |commits| && commits[i] == h;
      assert IsVoteFor(fx[i], p.local, h, a.hash);
    } else {
      assert h in prepares;
      var i :| 0 <= i < |prepares| && prepares[i] == h;
      assert IsVoteFor(fx[|commits| + i], p.local, h, a.hash);
    }
  }

  lemma OpenedDisk(p: Params, c: Coord, w: World, block: Block, root: Hash)
    requires Coupled(c, w) && c.cfg.IsValidator() && IsKnown(c.cfg.validators, block.proposer)
    ensures PerformAll(p, w, OpenRound(c, block, Some(root)).fx).disk == WithPrepared(c.ledger, block.number, block.hash)
  {
    var o := OpenRound(c, block, Some(root));
    var m := Msg(Prepare, block.number, block.hash, c.cfg.localId, Some(root));
    if o.c.ledger == c.ledger {
      assert o.fx == [Sent(m)];
      OneEffect(p, w, Sent(m));
    } else {
      assert o.fx == [Flushed(o.c.ledger), Sent(m)];
      TwoEffects(p, w, Flushed(o.c.ledger), Sent(m));
    }
  }

  // ----- Overlapping starts --------------------------------------------------------------------

  /**
   * The check for an earlier vote comes before the state root is awaited and is not repeated. If
   * two starts for one height both pass it before either finishes, both prepares are sent; the
   * second contradicts the first exactly when the blocks differ.
   */
  lemma OverlappingStarts(c: Coord, a: Block, b: Block, tip: Option<int>, root: Option<Hash>, valid: set<Msg>)
    requires a.number == b.number && IsKnown(c.cfg.validators, c.cfg.localId)
    requires IsKnown(c.cfg.validators, a.proposer) && IsKnown(c.cfg.validators, b.proposer)
    requires StartCheck(c, a, tip).Proceed? && StartCheck(c, b, tip).Proceed?
    ensures var first := StartFinish(StartCheck(c, a, tip).c, a, root, valid);
      var second := StartFinish(first.c, b, root, valid);
      && Sent(Msg(Prepare, a.number, a.hash, c.cfg.localId, root)) in first.fx
      && Sent(Msg(Prepare, b.number, b.hash, c.cfg.localId, root)) in second.fx
      && (Contradicts(c.cfg.localId, {Attest(c.cfg.localId, Prepare, a.number, a.hash)}, second.fx) <==> a.hash != b.hash)
  {
    var c1 := StartCheck(c, a, tip).c;
    var first := StartFinish(c1, a, root, valid);
    StartFinishPrepares(c1, a, root, valid);
    StartFinishConfig(c1, a, root, valid);
    StartFinishPrepares(first.c, b, root, valid);
    hide StartFinish;
    var fx := StartFinish(first.c, b, root, valid).fx;
    var e := Sent(Msg(Prepare, b.number, b.hash, c.cfg.localId, root));
    var i :| 0 <= i < |fx| && fx[i] == e;
    assert forall j :: 0 <= j < |fx| ==> fx[j] in fx;
    assert fx[i].msg.height == a.number;
  }

  /** The node attested some vote at the height. */
  ghost predicate HasVoted(local: Id, att: set<Attest>, height: int) {
    exists a :: a in att && a.id == local && a.height == height
  }

  /**
   * In general, whatever happened while a start was waiting: above the pruned heights, a start that goes on
   * contradicts a vote of its node exactly when the node has meanwhile prepared another block there and sent a
   * vote. The configuration is the one the start took before waiting.
   */
  lemma LateStartContradictsIff(p: Params, c: Coord, w: World, cfg: RoundConfig, block: Block, root: Option<Hash>, valid: set<Msg>)
    requires NodeInv(p, c, w) && p.local in p.honest && p.InUse(cfg) && block.number > w.fin
    requires cfg.IsValidator() && IsKnown(cfg.validators, block.proposer)
    ensures Contradicts(p.local, w.att, OpenWith(c, cfg, block, root).fx) <==>
      block.number in c.preparedAt && c.preparedAt[block.number] != block.hash && HasVoted(p.local, w.att, block.number)
    ensures Contradicts(p.local, w.att, StartFinish(c.(cfg := cfg), block, root, valid).fx) <==>
      Contradicts(p.local, w.att, OpenWith(c, cfg, block, root).fx)
  {
    VotesOnRecord(p, c, w);
    OpenRoundSends(c.(cfg := cfg), block, root);
    StartFinishPrepares(c.(cfg := cfg), block, root, valid);
    hide OpenRound, StartFinish, NodeInv;
    PreparesFor(p.local, w.att, OpenWith(c, cfg, block, root).fx, block, root);
    PreparesFor(p.local, w.att, StartFinish(c.(cfg := cfg), block, root, valid).fx, block, root);
    if HasVoted(p.local, w.att, block.number) {
      var a :| a in w.att && a.id == p.local && a.height == block.number;
      assert c.preparedAt[block.number] == a.hash;
    }
  }

  /** Own votes above the pruned heights are in the map of prepares. */
  lemma VotesOnRecord(p: Params, c: Coord, w: World)
    requires NodeInv(p, c, w) && p.local in p.honest
    ensures forall a :: a in w.att && a.id == p.local && a.height > w.fin ==>
      a.height in c.preparedAt && c.preparedAt[a.height] == a.hash
  {
    assert Remembered(p, w) && Coupled(c, w);
  }

  /** Effects whose prepares are all this one contradict a vote exactly when one for another hash was attested. */
  lemma PreparesFor(local: Id, att: set<Attest>, fx: seq<Effect>, block: Block, root: Option<Hash>)
    requires Sent(Msg(Prepare, block.number, block.hash, local, root)) in fx
    requires forall e :: e in fx && e.Sent? && e.msg.kind == Prepare ==> e.msg.height == block.number && e.msg.hash == block.hash
    ensures Contradicts(local, att, fx) <==>
      exists a :: a in att && a.id == local && a.height == block.number && a.hash != block.hash
  {
    var e := Sent(Msg(Prepare, block.number, block.hash, local, root));
    var i :| 0 <= i < |fx| && fx[i] == e;
    if a :| a in att && a.id == local && a.height == block.number && a.hash != block.hash {
      assert fx[i].msg.height == a.height;
    }
    if Contradicts(local, att, fx) {
      var j, a :| 0 <= j < |fx| && a in att && fx[j].Sent? && fx[j].msg.kind == Prepare
        && a.id == local && a.height == fx[j].msg.height && a.hash != fx[j].msg.hash;
      assert fx[j] in fx;
    }
  }

  /**
   * A start can also go on after its height was finalized. By then the record of the vote there is pruned, in
   * memory and on file, and the start contradicts that vote exactly when its block is not the finalized one.
   */
  lemma StartAfterFinality(p: Params, c: Coord, w: World, block: Block, root: Option<Hash>, valid: set<Msg>)
    requires NodeInv(p, c, w) && p.local in p.honest && c.active.Some? && c.active.value.state.proposed.Some?
    requires c.active.value.cfg.IsValidator() && c.cfg.IsValidator() && IsKnown(c.cfg.validators, block.proposer)
    requires block.number == c.active.value.state.height
    ensures var done := c.active.value.state.proposed.value;
      var d := Finish(c, done);
      var w' := PerformAll(p, w, d.fx);
      && block.number !in d.c.preparedAt && block.number !in w'.disk.prepared
      && (Contradicts(p.local, w'.att, StartFinish(d.c, block, root, valid).fx) <==> block.hash != done.hash)
  {
    var done := c.active.value.state.proposed.value;
    var d := Finish(c, done);
    var w' := PerformAll(p, w, d.fx);
    FinishLeaves(p, c, w, done);
    assert Attest(p.local, Prepare, block.number, done.hash) in w.att && OneHash(p.honest, w.att);
    FinishedConfig(c, done);
    StartFinishPrepares(d.c, block, root, valid);
    hide StartFinish, NodeInv, Finish, PerformAll;
    PreparesFor(p.local, w'.att, StartFinish(d.c, block, root, valid).fx, block, root);
    if block.hash != done.hash {
      var a := Attest(p.local, Prepare, block.number, done.hash);
      assert a in w'.att && a.id == p.local && a.height == block.number && a.hash != block.hash;
    }
  }

  /** Finality attests nothing and prunes the height from memory and from the file. */
  lemma FinishLeaves(p: Params, c: Coord, w: World, block: Block)
    requires c.active.Some?
    ensures var d := Finish(c, block);
      var w' := PerformAll(p, w, d.fx);
      w'.att == w.att && c.active.value.state.height !in d.c.preparedAt && c.active.value.state.height !in w'.disk.prepared
  {
    var h := c.active.value.state.height;
    var ledger := Pruned(c.ledger, h);
    hide LingerFor;
    TwoEffects(p, w, PrunedTo(h, ledger), FinalizedBlock(block));
    hide PerformAll, Safe;
  }

  lemma StartFinishConfig(c: Coord, block: Block, root: Option<Hash>, valid: set<Msg>)
    ensures SameConfig(c, StartFinish(c, block, root, valid).c)
  {
    var o := OpenRound(c, block, root);
    var buffered := Select(c.pending, block.number, false) + Select(c.pending, block.number, true);
    var c1 := o.c.(pending := Newer(c.pending, block.number));
    OpenRoundConfig(c, block, root);
    DrainConfig(c1, buffered, valid);
    hide Drain, OpenRound, Select, Newer;
  }

  ghost predicate SameConfig(c: Coord, c': Coord) {
    c'.cfg == c.cfg
  }

  lemma OpenRoundConfig(c: Coord, block: Block, root: Option<Hash>)
    ensures SameConfig(c, OpenRound(c, block, root).c)
  {
    if HandlePropose(c.cfg, NewRound(block.number), block, block.proposer, root).1 == [] {
    } else {
    }
  }

  lemma {:induction false} DrainConfig(c: Coord, msgs: seq<Msg>, valid: set<Msg>)
    ensures SameConfig(c, Drain(c, msgs, valid).c)
    decreases |msgs|
  {
    hide Deliver;
    if msgs != [] && c.active.Some? {
      DeliverConfig(c, msgs[0], valid);
      DrainConfig(Deliver(c, msgs[0], valid).c, msgs[1..], valid);
    }
  }

  lemma DeliverConfig(c: Coord, msg: Msg, valid: set<Msg>)
    ensures SameConfig(c, Deliver(c, msg, valid).c)
  {
    hide DeliverPrepare, DeliverCommit, Conflicts, Seen, Noted, KeepHighest, IsDuplicate;
    if c.active.Some? {
      var c1 := c.(seen := KeepHighest(Noted(c.seen, msg.sender, msg.height, msg.kind, msg.hash, ""), TRACKED_HEIGHTS));
      CountedConfig(c1, msg);
    }
  }

  lemma CountedConfig(c: Coord, msg: Msg)
    requires c.active.Some?
    ensures SameConfig(c, DeliverPrepare(c, msg).c) && SameConfig(c, DeliverCommit(c, msg).c)
  {
    PreparedConfig(c, msg);
    hide DeliverPrepare, HandleCommit, Finish;
    var (s, finalized) := HandleCommit(c.active.value.cfg, c.active.value.state, msg.sender, msg.hash, msg.root);
    if finalized && s.proposed.Some? {
      FinishedConfig(c.(active := Some(c.active.value.(state := s))), s.proposed.value);
    }
  }

  lemma PreparedConfig(c: Coord, msg: Msg)
    requires c.active.Some?
    ensures SameConfig(c, DeliverPrepare(c, msg).c)
  {
    hide HandlePrepare, Finish, SendCommit;
    var (s, out) := HandlePrepare(c.active.value.cfg, c.active.value.state, msg.sender, msg.hash, msg.root);
    var c1 := c.(active := Some(c.active.value.(state := s)));
    if s.phase == Finalized && s.proposed.Some? {
      FinishedConfig(c1, s.proposed.value);
    } else if out != [] {
      SentConfig(c1, out[0]);
    }
  }

  lemma SentConfig(c: Coord, m: Msg)
    ensures SameConfig(c, SendCommit(c, m).c)
  {
    hide WithCommitted, ChangeLedger;
  }

  lemma FinishedConfig(c: Coord, block: Block)
    requires c.active.Some?
    ensures SameConfig(c, Finish(c, block).c)
  {
    hide LingerFor, Later, Pruned;
  }

  /**
   * Repeating the two checks when the state root is known would close that gap: whatever happened in the
   * meantime, finishing the start is then safe.
   */
  lemma RecheckedFinishKeeps(p: Params, c: Coord, w: World, block: Block, tip: Option<int>, root: Option<Hash>, valid: set<Msg>)
    requires NodeInv(p, c, w) && FloorOk(c, w, tip) && ValidOk(p, w.att, valid)
    requires block.number > Floor(c.lastFinalized, tip)
    requires block.number in c.preparedAt ==> c.preparedAt[block.number] == block.hash
    ensures Good(p, w, StartFinish(c, block, root, valid).c, StartFinish(c, block, root, valid).fx)
  {
    var c0 := c.(active := None);
    SameVotesKeeps(p, c, c0, w);
    StartFinishKeeps(p, c0, w, block, root, valid);
    OpenIgnoresActive(c, block, root);
    hide NodeInv, Good, OpenRound, Drain, Select, Newer;
  }

  // ----- Membership ----------------------------------------------------------------------------

  /**
   * After new validators are installed, a running validator refuses a second, different block at
   * a height it prepared exactly when the membership is unchanged.
   */
  lemma SecondVoteAfterUpdateIff(c: Coord, vals: seq<Validator>, block: Block, tip: Option<int>, root: Option<Hash>)
    requires !c.stopped && IsKnown(vals, c.cfg.localId) && IsKnown(vals, block.proposer)
    requires block.number > Floor(c.lastFinalized, tip)
    requires block.number in c.preparedAt && c.preparedAt[block.number] != block.hash
    ensures var c1 := UpdateValidators(c, vals).c;
      Sent(Msg(Prepare, block.number, block.hash, c.cfg.localId, root)) in StartRound(c1, block, tip, root, {}).fx
      <==> Ids(vals) != Ids(c.cfg.validators)
  {
    if Ids(vals) != Ids(c.cfg.validators) {
      NewMembersVote(c, vals, block, tip, root);
    } else {
      SameMembersRefuse(c.(cfg := c.cfg.(validators := vals)), block, tip, root);
    }
  }

  /**
   * A change of membership leaves the node as if it had just started with an empty ledger, except for what it
   * has seen and finalized, the votes it still lingers on, and timers that find no round.
   */
  lemma NewMembersStartAfresh(c: Coord, vals: seq<Validator>)
    requires Ids(vals) != Ids(c.cfg.validators)
    ensures var c' := UpdateValidators(c, vals).c;
      c' == Restart(c.cfg.(validators := vals), EMPTY).(stopped := c.stopped, lastFinalized := c.lastFinalized, seen := c.seen,
        linger := c.linger, commitRetry := c'.commitRetry, prepareRetry := c'.prepareRetry)
    ensures c.ledger != EMPTY ==> UpdateValidators(c, vals).fx == [Flushed(EMPTY)]
  {
    hide Ids;
  }

  lemma NewMembersVote(c: Coord, vals: seq<Validator>, block: Block, tip: Option<int>, root: Option<Hash>)
    requires !c.stopped && IsKnown(vals, c.cfg.localId) && IsKnown(vals, block.proposer)
    requires block.number > Floor(c.lastFinalized, tip) && Ids(vals) != Ids(c.cfg.validators)
    ensures var c1 := UpdateValidators(c, vals).c;
      Sent(Msg(Prepare, block.number, block.hash, c.cfg.localId, root)) in StartRound(c1, block, tip, root, {}).fx
  {
    hide Ids, StartFinish;
    var c1 := UpdateValidators(c, vals).c;
    StartFinishPrepares(StartCheck(c1, block, tip).c, block, root, {});
  }

  lemma SameMembersRefuse(c: Coord, block: Block, tip: Option<int>, root: Option<Hash>)
    requires block.number in c.preparedAt && c.preparedAt[block.number] != block.hash
    ensures StartRound(c, block, tip, root, {}).fx == []
  {
    hide StartFinish, HoldsBack, Floor;
  }
}
