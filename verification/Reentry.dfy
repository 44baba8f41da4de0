/**
 * A node does not give its vote up. While a round lasts, its timers repeat the node's votes; when the round times
 * out or stalls, the node takes up the block it prepared again; a block that had to wait is started when its turn
 * comes; and after finality the votes stay on the wire for a while.
 */
module Reentry {
  import opened BftTypes
  import opened Quorum
  import opened Round
  import opened VoteLedger
  import Detection = EquivocationDetection
  import opened Coordinator
  import opened VoteSafety
  import opened Network
  import Hazards

  // ----- What a round in progress has ready --------------------------------------------------------

  /**
   * A validator with a proposal keeps the block it prepared and repeats its prepare; a committing node repeats its
   * commit.
   */
  ghost predicate Armed(c: Coord) {
    c.active.Some? ==> Ready(c.active.value, c.commitRetry, c.prepareRetry, c.preparedBlock)
  }

  ghost predicate Ready(a: Active, commitRetry: bool, prepareRetry: bool, preparedBlock: map<int, Block>) {
    && (a.state.phase == Committing ==> commitRetry)
    && (a.cfg.IsValidator() && a.state.proposed.Some? ==>
          && prepareRetry && a.state.height in preparedBlock
          && preparedBlock[a.state.height] == a.state.proposed.value)
  }

  lemma OpenArms(c: Coord, cfg: RoundConfig, block: Block, root: Option<Hash>)
    ensures Armed(OpenWith(c, cfg, block, root).c)
  {
    ProposalArms(cfg, block, root, c.commitRetry, c.preparedBlock);
    OpenFields(c, cfg, block, root);
    hide Ready, OpenWith, HandlePropose;
  }

  /** The new round, and what is kept for it if the node votes. */
  lemma OpenFields(c: Coord, cfg: RoundConfig, block: Block, root: Option<Hash>)
    ensures var o, (s, out) := OpenWith(c, cfg, block, root), HandlePropose(cfg, NewRound(block.number), block, block.proposer, root);
      && o.c.active == Some(Active(cfg, s)) && o.c.commitRetry == c.commitRetry
      && (if out == [] then o.c.prepareRetry == c.prepareRetry && o.c.preparedBlock == c.preparedBlock
          else o.c.prepareRetry && o.c.preparedBlock == c.preparedBlock[block.number := block])
  {
    hide HandlePropose, WithPrepared, ChangeLedger;
  }

  lemma ProposalArms(cfg: RoundConfig, block: Block, root: Option<Hash>, commitRetry: bool, preparedBlock: map<int, Block>)
    ensures var (s, out) := HandlePropose(cfg, NewRound(block.number), block, block.proposer, root);
      if out == [] then forall prepareRetry :: Ready(Active(cfg, s), commitRetry, prepareRetry, preparedBlock)
      else Ready(Active(cfg, s), commitRetry, true, preparedBlock[block.number := block])
  {
    hide IsKnown;
  }

  lemma PrepareKeepsProposal(cfg: RoundConfig, s: RoundState, msg: Msg)
    ensures var next := HandlePrepare(cfg, s, msg.sender, msg.hash, msg.root).0;
      next.proposed == s.proposed && next.height == s.height
  {
    hide GroupHasQuorum, Accepts;
  }

  lemma CommitKeepsProposal(cfg: RoundConfig, s: RoundState, msg: Msg)
    ensures var (next, finalized) := HandleCommit(cfg, s, msg.sender, msg.hash, msg.root);
      && next.proposed == s.proposed && next.height == s.height
      && (!finalized ==> next.phase == s.phase)
  {
    hide GroupHasQuorum, Accepts;
  }

  /** The node still has the round, with its proposal, or has handed the proposal on. */
  ghost predicate SameRound(c: Coord, c': Coord, fx: seq<Effect>)
    requires c.active.Some?
  {
    var s := c.active.value.state;
    if c'.active.None? then s.proposed.Some? && FinalizedBlock(s.proposed.value) in fx
    else
      && c'.active.value.cfg == c.active.value.cfg
      && c'.active.value.state.height == s.height && c'.active.value.state.proposed == s.proposed
      && c'.reentered == c.reentered
  }

  lemma PrepareArmed(c: Coord, msg: Msg)
    requires c.active.Some?
    ensures var d := DeliverPrepare(c, msg); SameRound(c, d.c, d.fx) && (Armed(c) ==> Armed(d.c))
  {
    var a := c.active.value;
    PrepareKeepsProposal(a.cfg, a.state, msg);
    PrepareFields(c, msg);
    hide DeliverPrepare, HandlePrepare, IsKnown;
  }

  /** What delivering a prepare does: the round ends with its block handed on, or moves on with its timers. */
  lemma PrepareFields(c: Coord, msg: Msg)
    requires c.active.Some?
    ensures var a, d := c.active.value, DeliverPrepare(c, msg);
      var s := HandlePrepare(a.cfg, a.state, msg.sender, msg.hash, msg.root).0;
      if s.phase == Finalized && s.proposed.Some? then d.c.active.None? && FinalizedBlock(s.proposed.value) in d.fx
      else
        && d.c.active == Some(a.(state := s)) && d.c.reentered == c.reentered && d.c.prepareRetry == c.prepareRetry
        && d.c.preparedBlock == c.preparedBlock && (s.phase == Committing ==> d.c.commitRetry)
  {
    hide HandlePrepare, SendCommit, Finish;
    var a := c.active.value;
    var (s, out) := HandlePrepare(a.cfg, a.state, msg.sender, msg.hash, msg.root);
    var c1 := c.(active := Some(a.(state := s)));
    if s.phase == Finalized && s.proposed.Some? {
      FinishEnds(c1, s.proposed.value);
    } else if out != [] {
      SendKeepsRound(c1, out[0]);
    }
  }

  lemma FinishEnds(c: Coord, block: Block)
    requires c.active.Some?
    ensures var d := Finish(c, block); d.c.active.None? && FinalizedBlock(block) in d.fx
  {
    hide LingerFor, Later, Pruned;
  }

  lemma SendKeepsRound(c: Coord, m: Msg)
    ensures var c' := SendCommit(c, m).c;
      c' == c.(committedAt := c'.committedAt, ledger := c'.ledger)
  {
    hide WithCommitted, ChangeLedger;
  }

  lemma CommitArmed(c: Coord, msg: Msg)
    requires c.active.Some?
    ensures var d := DeliverCommit(c, msg); SameRound(c, d.c, d.fx) && (Armed(c) ==> Armed(d.c))
  {
    var a := c.active.value;
    CommitKeepsProposal(a.cfg, a.state, msg);
    var (s, finalized) := HandleCommit(a.cfg, a.state, msg.sender, msg.hash, msg.root);
    var c1 := c.(active := Some(a.(state := s)));
    hide HandleCommit, Finish, IsKnown;
    if finalized && s.proposed.Some? {
      FinishEnds(c1, s.proposed.value);
    }
  }

  lemma CountArmed(c: Coord, msg: Msg)
    requires c.active.Some?
    ensures var d := CountVote(c, msg); (Armed(c) ==> Armed(d.c)) && SameRound(c, d.c, d.fx)
  {
    hide DeliverPrepare, DeliverCommit, Detection.Conflicts, Detection.Seen, Detection.Noted, Detection.KeepHighest, Ready;
    var seen := Detection.KeepHighest(Detection.Noted(c.seen, msg.sender, msg.height, msg.kind, msg.hash, ""), TRACKED_HEIGHTS);
    PrepareArmed(c.(seen := seen), msg);
    CommitArmed(c.(seen := seen), msg);
  }

  lemma DeliverArmed(c: Coord, msg: Msg, valid: set<Msg>)
    ensures var d := Deliver(c, msg, valid); (Armed(c) ==> Armed(d.c)) && (c.active.Some? ==> SameRound(c, d.c, d.fx))
  {
    if c.active.Some? {
      CountArmed(c, msg);
      RoundItself(c, c);
    }
    BufferChanges(c, msg);
    hide CountVote, Buffer, Ready, Armed, SameRound;
    var c1 := Buffer(c, msg);
    if Armed(c) {
      PendingArmed(c, c1);
    }
    if c.active.Some? {
      RoundItself(c, c1);
    }
  }

  lemma RoundItself(c: Coord, c': Coord)
    requires c.active.Some? && c' == c.(pending := c'.pending)
    ensures SameRound(c, c', [])
  {
  }

  lemma BufferChanges(c: Coord, msg: Msg)
    ensures Buffer(c, msg) == c.(pending := Buffer(c, msg).pending)
  {
    hide IsDuplicate;
  }

  lemma {:induction false} DrainArmed(c: Coord, msgs: seq<Msg>, valid: set<Msg>)
    ensures var r := Drain(c, msgs, valid); (Armed(c) ==> Armed(r.c)) && (c.active.Some? ==> SameRound(c, r.c, r.fx))
    decreases |msgs|
  {
    if msgs != [] && c.active.Some? {
      var d := Deliver(c, msgs[0], valid);
      DeliverArmed(c, msgs[0], valid);
      hide Deliver, Armed;
      DrainArmed(d.c, msgs[1..], valid);
    }
  }

  /** A start leaves a round on its block or hands the block on; it never ends with nothing. */
  lemma StartFinishArmed(c: Coord, block: Block, root: Option<Hash>, valid: set<Msg>)
    ensures var o := StartFinish(c, block, root, valid);
      && Armed(o.c)
      && SameRound(OpenRound(c, block, root).c, o.c, o.fx)
  {
    var open := OpenRound(c, block, root);
    var c1 := open.c.(pending := Newer(c.pending, block.number));
    OpenArms(c, c.cfg, block, root);
    assert OpenWith(c, c.cfg, block, root) == open;
    hide OpenRound, Drain, Newer, Select, OpenWith, Armed, SameRound;
    PendingArmed(open.c, c1);
    var buffered := Select(c.pending, block.number, false) + Select(c.pending, block.number, true);
    DrainArmed(c1, buffered, valid);
    var r, o := Drain(c1, buffered, valid), StartFinish(c, block, root, valid);
    RetryArmed(r.c, o.c);
    RoundCarries(open.c, c1, r.c, o.c, open.fx, r.fx);
  }

  lemma PendingArmed(c: Coord, c': Coord)
    requires Armed(c) && c' == c.(pending := c'.pending)
    ensures Armed(c')
  {
    hide Ready;
  }

  lemma RoundCarries(c0: Coord, c1: Coord, c2: Coord, c3: Coord, fx: seq<Effect>, more: seq<Effect>)
    requires c0.active.Some? && c1 == c0.(pending := c1.pending) && c3 == c2.(commitRetry := c3.commitRetry)
    requires SameRound(c1, c2, more)
    ensures SameRound(c0, c3, fx + more)
  {
  }

  lemma RetryArmed(c: Coord, c': Coord)
    requires Armed(c) && c' == c.(commitRetry := c'.commitRetry) && (c.commitRetry ==> c'.commitRetry)
    ensures Armed(c')
  {
    hide IsKnown;
  }

  lemma CheckArmed(c: Coord, block: Block, tip: Option<int>)
    requires Armed(c)
    ensures Armed(StartCheck(c, block, tip).c)
  {
    hide Floor;
  }

  lemma StartArmed(c: Coord, block: Block, tip: Option<int>, root: Option<Hash>, valid: set<Msg>)
    requires Armed(c)
    ensures Armed(StartRound(c, block, tip, root, valid).c)
  {
    CheckArmed(c, block, tip);
    hide StartCheck, StartFinish, Armed;
    StartFinishArmed(StartCheck(c, block, tip).c, block, root, valid);
  }

  lemma DeferredArmed(c: Coord, env: Env)
    requires Armed(c)
    ensures Armed(ProcessDeferred(c, env).c)
  {
    var c1 := c.(deferred := None);
    assert Armed(c1);
    hide StartRound, Armed, Floor;
    if c.deferred.Some? {
      StartArmed(c1, c.deferred.value, env.tipAfter, env.root, env.valid);
    }
  }

  lemma MessageArmed(c: Coord, msg: Msg, env: Env)
    requires Armed(c)
    ensures Armed(HandleMessage(c, msg, env).c)
  {
    hide Deliver, ProcessDeferred, Armed;
    DeliverArmed(c, msg, env.valid);
    DeferredArmed(Deliver(c, msg, env.valid).c, env);
  }

  lemma BlockArmed(c: Coord, block: Block, env: Env)
    requires Armed(c)
    ensures Armed(HandleReceivedBlock(c, block, env).c)
  {
    var c1 := ClearTerminal(c);
    assert Armed(c1) && Armed(ClearRound(c1)) && Armed(c1.(deferred := Some(block)));
    hide StartRound, Armed, Busy, ClearTerminal, ClearRound;
    StartArmed(c1, block, env.tip, env.root, env.valid);
    StartArmed(ClearRound(c1), block, env.tip, env.root, env.valid);
  }

  lemma TimerArmed(c: Coord, env: Env)
    requires Armed(c)
    ensures Armed(Timeout(c, env).c) && Armed(LivenessReset(c, env).c)
  {
    if c.active.Some? {
      var h := c.active.value.state.height;
      IdleArmed(Reenter(ClearRound(c), h));
      IdleArmed(Reenter(ClearRound(c).(pending := [], deferred := None), h));
      hide ProcessDeferred, Armed;
      DeferredArmed(Reenter(ClearRound(c), h), env);
      DeferredArmed(Reenter(ClearRound(c).(pending := [], deferred := None), h), env);
    }
  }

  lemma IdleArmed(c: Coord)
    ensures c.active.None? ==> Armed(c)
  {
  }

  lemma CommitTickArmed(c: Coord)
    requires Armed(c)
    ensures Armed(CommitTick(c).c)
  {
    hide IsKnown;
  }

  lemma LingerTickArmed(c: Coord)
    requires Armed(c)
    ensures Armed(LingerTick(c).c)
  {
    LingerTickFields(c);
    hide LingerTick, Ready;
  }

  lemma LingerTickFields(c: Coord)
    ensures var c' := LingerTick(c).c;
      c'.active == c.active && c'.commitRetry == c.commitRetry && c'.prepareRetry == c.prepareRetry && c'.preparedBlock == c.preparedBlock
  {
    match c.linger
    case None =>
    case Some(l) =>
      if l.remaining == 0 {
      } else {
      }
  }

  lemma PrepareTickArmed(c: Coord)
    requires Armed(c) && (c.active.Some? && c.active.value.state.phase !in {Preparing, Committing} ==> c.active.value.state.proposed.None?)
    ensures Armed(PrepareTick(c).c)
  {
    hide IsKnown;
  }

  lemma ResetsArmed(c: Coord, vals: seq<Validator>)
    requires Armed(c)
    ensures Armed(ForceClear(c)) && Armed(Stop(c)) && Armed(UpdateValidators(c, vals).c)
  {
    hide Ids, Ready;
    assert Armed(c.(cfg := c.cfg.(validators := vals)));
  }

  lemma QuietArmed(c: Coord, next: Coord)
    requires Armed(c) && IsQuiet(c, next)
    ensures Armed(next)
  {
    hide OnlyDrops, IsKnown;
  }

  /** Rounds on record are not terminal, and have a proposal except at the very beginning. */
  ghost predicate LiveRound(c: Coord) {
    c.active.Some? && c.active.value.state.phase !in {Preparing, Committing} ==> c.active.value.state.proposed.None?
  }

  /** Every step keeps what a round in progress needs. */
  lemma StepKeepsArmed(c: Coord, ev: Event, o: Out)
    requires Armed(c) && LiveRound(c) && Step(c, ev, o)
    ensures Armed(o.c)
  {
    hide Armed, StartRound, HandleMessage, HandleReceivedBlock, Timeout, LivenessReset, CommitTick, PrepareTick, LingerTick;
    hide IsReplay, OnRecord, IsQuiet, UpdateValidators, Deliver, OpenWith, Stop, ForceClear;
    match ev
    case StartEvent(block, env) => StartArmed(c, block, env.tip, env.root, env.valid);
    case MessageEvent(msg, env) => MessageArmed(c, msg, env);
    case BlockEvent(block, env) => BlockArmed(c, block, env);
    case TimeoutEvent(env) => TimerArmed(c, env);
    case LivenessEvent(env) => TimerArmed(c, env);
    case ForceClearEvent => ResetsArmed(c, []);
    case CommitTickEvent => CommitTickArmed(c);
    case PrepareTickEvent => PrepareTickArmed(c);
    case LingerTickEvent => LingerTickArmed(c);
    case ReplayEvent(_, _, _) =>
    case StopEvent => ResetsArmed(c, []);
    case UpdateEvent(vals) => ResetsArmed(c, vals);
    case OpenEvent(cfg, block, root) => OpenArms(c, cfg, block, root);
    case DeliverEvent(msg, valid) => DeliverArmed(c, msg, valid);
    case RepeatEvent(_) =>
    case QuietEvent(next) => QuietArmed(c, next);
  }

  lemma NodeIsLive(p: Params, c: Coord, w: World)
    requires NodeInv(p, c, w)
    ensures LiveRound(c)
  {
  }

  ghost predicate AllArmed(net: Net) {
    forall i :: i in net.nodes ==> Armed(net.nodes[i].c)
  }

  lemma ActionKeepsArmed(net: Net, a: Action)
    requires NetInv(net) && AllArmed(net) && Enabled(net, a)
    ensures AllArmed(After(net, a))
  {
    var c := net.nodes[a.id].c;
    NodeIsLive(ParamsOf(net, a.id), c, WorldOf(net, a.id));
    hide NetInv, Step, PerformAll, EventOk, Armed, LiveRound;
    StepKeepsArmed(c, a.ev, a.o);
    match a
    case Act(_, _, _) =>
    case Crash(id, _, _, _, _) => IdleArmed(After(net, a).nodes[id].c);
  }

  lemma {:induction false} RunKeepsArmed(nets: seq<Net>, actions: seq<Action>, n: nat)
    requires IsRun(nets, actions) && n < |nets|
    ensures AllArmed(nets[n])
  {
    hide NetInv, After, Enabled, Armed;
    if n == 0 {
      forall i | i in nets[0].nodes ensures Armed(nets[0].nodes[i].c) {
        IdleArmed(nets[0].nodes[i].c);
      }
    } else {
      RunKeeps(nets, actions, n - 1);
      RunKeepsArmed(nets, actions, n - 1);
      ActionKeepsArmed(nets[n - 1], actions[n - 1]);
    }
  }

  // ----- Timers repeat the votes ------------------------------------------------------------------------

  /** The node's round is on this block. */
  ghost predicate RoundOn(c: Coord, block: Block) {
    c.active.Some? && c.active.value.state.proposed == Some(block) && c.active.value.state.height == block.number
  }

  /** In every run, every tick during the commit phase sends the commit again, unless the hash is empty. */
  lemma CommitTickSends(nets: seq<Net>, actions: seq<Action>, n: nat, i: Id, block: Block, o: Out)
    requires IsRun(nets, actions) && n < |nets| && i in nets[n].nodes
    requires var c := nets[n].nodes[i].c;
      RoundOn(c, block) && c.active.value.state.phase == Committing && Step(c, CommitTickEvent, o)
    ensures o.fx == if block.hash == "" then [] else [Sent(Msg(Commit, block.number, block.hash, i, None))]
  {
    ReachedNode(nets, actions, n, i);
    hide IsRun, NodeInv, Armed;
    CommitTickIs(nets[n].nodes[i].c, block, o);
  }

  /** What every node has in every run. */
  lemma ReachedNode(nets: seq<Net>, actions: seq<Action>, n: nat, i: Id)
    requires IsRun(nets, actions) && n < |nets| && i in nets[n].nodes
    ensures NodeInv(ParamsOf(nets[n], i), nets[n].nodes[i].c, WorldOf(nets[n], i)) && Armed(nets[n].nodes[i].c)
    ensures nets[n].nodes[i].c.cfg.localId == i && SameSetting(nets[0], nets[n])
  {
    hide NodeInv, Armed, IsRun;
    RunKeeps(nets, actions, n);
    RunKeepsArmed(nets, actions, n);
    NodeFacts(ParamsOf(nets[n], i), nets[n].nodes[i].c, WorldOf(nets[n], i));
  }

  lemma CommitTickIs(c: Coord, block: Block, o: Out)
    requires Armed(c) && RoundOn(c, block) && c.active.value.state.phase == Committing && Step(c, CommitTickEvent, o)
    ensures o.fx == if block.hash == "" then [] else [Sent(Msg(Commit, block.number, block.hash, c.cfg.localId, None))]
  {
    hide IsKnown;
  }

  /**
   * In every run, every tick of a validator's round sends its prepare again, and the commit with it when the node
   * committed to the block in an earlier round.
   */
  lemma PrepareTickSends(nets: seq<Net>, actions: seq<Action>, n: nat, i: Id, block: Block, o: Out)
    requires IsRun(nets, actions) && n < |nets| && i in nets[n].nodes
    requires var c := nets[n].nodes[i].c;
      RoundOn(c, block) && c.active.value.cfg.IsValidator() && block.hash != "" && Step(c, PrepareTickEvent, o)
    ensures exists root :: Sent(Msg(Prepare, block.number, block.hash, i, root)) in o.fx
    ensures var c := nets[n].nodes[i].c;
      block.number in c.committedAt && c.committedAt[block.number] == block.hash && c.active.value.state.phase == Preparing ==>
        Sent(Msg(Commit, block.number, block.hash, i, None)) in o.fx
  {
    ReachedNode(nets, actions, n, i);
    var c := nets[n].nodes[i].c;
    RoundFacts(ParamsOf(nets[n], i), c, WorldOf(nets[n], i));
    hide IsRun, NodeInv, Armed, Step, IsKnown;
    PrepareTickIs(c, block, o);
  }

  lemma PrepareTickIs(c: Coord, block: Block, o: Out)
    requires Armed(c) && RoundOn(c, block) && c.active.value.cfg.IsValidator() && block.hash != "" && Step(c, PrepareTickEvent, o)
    requires c.active.value.state.phase in {Preparing, Committing}
    requires block.number in c.preparedAt && c.preparedAt[block.number] == block.hash
    ensures exists root :: Sent(Msg(Prepare, block.number, block.hash, c.cfg.localId, root)) in o.fx
    ensures block.number in c.committedAt && c.committedAt[block.number] == block.hash && c.active.value.state.phase == Preparing ==>
      Sent(Msg(Commit, block.number, block.hash, c.cfg.localId, None)) in o.fx
  {
    hide IsKnown;
    var votes := c.active.value.state.prepareVotes;
    var root := if c.cfg.localId in votes then votes[c.cfg.localId].root else None;
    assert o.fx[0] == Sent(Msg(Prepare, block.number, block.hash, c.cfg.localId, root));
    assert |o.fx| == 2 ==> o.fx[1] == Sent(Msg(Commit, block.number, block.hash, c.cfg.localId, None));
  }

  lemma RoundFacts(p: Params, c: Coord, w: World)
    requires NodeInv(p, c, w) && c.active.Some? && c.active.value.state.proposed.Some? && c.active.value.cfg.IsValidator()
    ensures var s := c.active.value.state;
      && s.phase in {Preparing, Committing} && c.cfg.localId == p.local
      && s.height in c.preparedAt && c.preparedAt[s.height] == s.proposed.value.hash
      && s.proposed.value.number == s.height && IsKnown(c.active.value.cfg.validators, s.proposed.value.proposer)
      && s.height > c.lastFinalized
  {
    var a := c.active.value;
    assert RoundOk(p, c, w, a) && Counted(p, a.cfg, c.preparedAt, w, a.state) && RoundInv(a.cfg, a.state);
    hide Durable, SeenOk, LingerOk, GroupHasQuorum, Prepared;
  }

  // ----- A start sends and keeps a round -----------------------------------------------------------------

  /** The block is above what is final, and no other was prepared there. */
  ghost predicate Open(c: Coord, block: Block, floor: int) {
    block.number > floor && (block.number in c.preparedAt ==> c.preparedAt[block.number] == block.hash)
  }

  /** The node may vote for the block under its present table. */
  ghost predicate MayVote(c: Coord, block: Block) {
    !c.stopped && c.cfg.IsValidator() && IsKnown(c.cfg.validators, block.proposer)
  }

  /** The prepare goes out, and the node has a round on the block or has handed it on. */
  ghost predicate TakenUp(c: Coord, block: Block, root: Option<Hash>, o: Out) {
    && Sent(Msg(Prepare, block.number, block.hash, c.cfg.localId, root)) in o.fx
    && (RoundOn(o.c, block) || FinalizedBlock(block) in o.fx)
  }

  lemma FinishTakesUp(c: Coord, block: Block, root: Option<Hash>, valid: set<Msg>)
    requires MayVote(c, block)
    ensures TakenUp(c, block, root, StartFinish(c, block, root, valid))
    ensures var o := StartFinish(c, block, root, valid);
      o.c.active.Some? ==> o.c.reentered == c.reentered
  {
    Hazards.StartFinishPrepares(c, block, root, valid);
    StartFinishArmed(c, block, root, valid);
    OpenedOn(c, block, root);
    hide StartFinish, OpenRound, IsKnown, Armed;
  }

  lemma OpenedOn(c: Coord, block: Block, root: Option<Hash>)
    requires MayVote(c, block)
    ensures var o := OpenRound(c, block, root).c;
      RoundOn(o, block) && o.reentered == c.reentered
  {
    ProposedOn(c.cfg, block, root);
    hide WithPrepared, ChangeLedger, HandlePropose, IsKnown;
  }

  lemma ProposedOn(cfg: RoundConfig, block: Block, root: Option<Hash>)
    requires IsKnown(cfg.validators, block.proposer)
    ensures var s := HandlePropose(cfg, NewRound(block.number), block, block.proposer, root).0;
      s.proposed == Some(block) && s.height == block.number
  {
  }

  lemma IdleStartTakesUp(c: Coord, block: Block, tip: Option<int>, root: Option<Hash>, valid: set<Msg>)
    requires c.active.None? && MayVote(c, block) && Open(c, block, Floor(c.lastFinalized, tip))
    ensures TakenUp(c, block, root, StartRound(c, block, tip, root, valid))
    ensures var o := StartRound(c, block, tip, root, valid);
      o.c.active.Some? ==> o.c.reentered == c.reentered
  {
    var c1 := ClearRound(c).(deferred := None);
    assert StartCheck(c, block, tip) == Proceed(c1) by { IdleProceeds(c, block, tip); }
    hide StartCheck, StartFinish, IsKnown;
    FinishTakesUp(c1, block, root, valid);
  }

  lemma IdleProceeds(c: Coord, block: Block, tip: Option<int>)
    requires c.active.None? && !c.stopped && Open(c, block, Floor(c.lastFinalized, tip))
    ensures StartCheck(c, block, tip) == Proceed(ClearRound(c).(deferred := None))
  {
  }

  /** A block that waits is started when its turn comes. */
  lemma DeferredTakesUp(c: Coord, block: Block, env: Env)
    requires c.active.None? && c.deferred == Some(block) && MayVote(c, block)
    requires Open(c, block, Floor(c.lastFinalized, env.tip)) && Open(c, block, Floor(c.lastFinalized, env.tipAfter))
    ensures TakenUp(c, block, env.root, ProcessDeferred(c, env))
    ensures var o := ProcessDeferred(c, env);
      o.c.active.Some? ==> o.c.reentered == c.reentered
  {
    hide StartRound, Floor, IsKnown;
    IdleStartTakesUp(c.(deferred := None), block, env.tipAfter, env.root, env.valid);
  }

  // ----- After a timeout ------------------------------------------------------------------------------------

  /** The tip is below the height, whenever the node asks. */
  ghost predicate TipBelow(c: Coord, env: Env, height: int) {
    Floor(c.lastFinalized, env.tip) < height && Floor(c.lastFinalized, env.tipAfter) < height
  }

  /**
   * A validator that times out, or whose round stalls, takes up the block it prepared again: it sends its prepare
   * and has a round on that block or hands it on. After a timeout a later block that waits comes first; a stall
   * drops it.
   */
  lemma TakesUpAgain(p: Params, c: Coord, w: World, ev: Event, o: Out, block: Block)
    requires NodeInv(p, c, w) && Armed(c) && Step(c, ev, o) && (ev.TimeoutEvent? || ev.LivenessEvent?)
    requires RoundOn(c, block) && c.active.value.cfg.IsValidator() && MayVote(c, block)
    requires ev.TimeoutEvent? && c.deferred.Some? ==> c.deferred.value.number <= block.number
    requires TipBelow(c, ev.env, block.number)
    ensures TakenUp(c, block, ev.env.root, o)
    ensures o.c.active.Some? ==> o.c.reentered == Some(block.number)
    ensures ev.LivenessEvent? ==> o.c.pending == []
  {
    RoundFacts(p, c, w);
    var c1 := ClearRound(c).(deferred := Some(block), reentered := Some(block.number));
    var c2 := c1.(pending := []);
    Requeues(c, block, ev.env);
    assert block.number in c.preparedAt && c.preparedAt[block.number] == block.hash;
    hide NodeInv, Step, ProcessDeferred, IsKnown, RoundInv, Armed;
    if ev.TimeoutEvent? {
      DeferredTakesUp(c1, block, ev.env);
      assert o == ProcessDeferred(c1, ev.env) by { StepIs(c, ev, o); }
    } else {
      DeferredTakesUp(c2, block, ev.env);
      NothingWaits(c2, block, ev.env);
      assert o == ProcessDeferred(c2, ev.env) by { StepIs(c, ev, o); }
    }
  }

  /** A stall empties the buffer for good. */
  lemma NothingWaits(c: Coord, block: Block, env: Env)
    requires c.active.None? && c.deferred == Some(block) && c.pending == []
    ensures ProcessDeferred(c, env).c.pending == []
  {
    var c1 := c.(deferred := None);
    CheckedPending(c1, block, env.tipAfter);
    hide StartCheck, OpenRound, Floor;
  }

  lemma CheckedPending(c: Coord, block: Block, tip: Option<int>)
    ensures StartCheck(c, block, tip).c.pending == c.pending
  {
    hide Floor, HoldsBack;
  }

  lemma StepIs(c: Coord, ev: Event, o: Out)
    requires Step(c, ev, o)
    ensures ev.TimeoutEvent? ==> o == Timeout(c, ev.env)
    ensures ev.LivenessEvent? ==> o == LivenessReset(c, ev.env)
  {
  }

  lemma Requeues(c: Coord, block: Block, env: Env)
    requires RoundOn(c, block) && Armed(c) && c.active.value.cfg.IsValidator() && !c.stopped
    requires c.active.value.state.phase in {Preparing, Committing}
    ensures var c1 := ClearRound(c).(deferred := Some(block), reentered := Some(block.number));
      && (c.deferred.None? || c.deferred.value.number <= block.number ==> Timeout(c, env) == ProcessDeferred(c1, env))
      && LivenessReset(c, env) == ProcessDeferred(c1.(pending := []), env)
  {
    hide ProcessDeferred, IsKnown;
    assert c.preparedBlock[block.number] == block;
  }

  /** A later block that waits is started instead of the one that timed out. */
  lemma LaterBlockFirst(c: Coord, env: Env, o: Out, later: Block)
    requires Step(c, TimeoutEvent(env), o) && c.active.Some? && !IsTerminal(c.active.value.state.phase)
    requires c.deferred == Some(later) && later.number > c.active.value.state.height && MayVote(c, later)
    requires Open(c, later, Floor(c.lastFinalized, env.tip)) && Open(c, later, Floor(c.lastFinalized, env.tipAfter))
    ensures TakenUp(c, later, env.root, o)
  {
    hide ProcessDeferred, IsKnown, Floor;
    NotRequeued(c, env, later);
    DeferredTakesUp(ClearRound(c), later, env);
  }

  lemma NotRequeued(c: Coord, env: Env, later: Block)
    requires c.active.Some? && !IsTerminal(c.active.value.state.phase)
    requires c.deferred == Some(later) && later.number > c.active.value.state.height
    ensures Timeout(c, env) == ProcessDeferred(ClearRound(c), env)
  {
    hide ProcessDeferred;
  }

  /**
   * In every run: a sound validator that has sent its prepare at the height of its round, and times out or stalls,
   * sends that prepare again and has a round on that very block, or hands it on.
   */
  lemma PreparedBlockIsTakenUpAgain(nets: seq<Net>, actions: seq<Action>, n: nat, i: Id, ev: Event, o: Out, m: Msg)
    requires IsRun(nets, actions) && n < |nets| && i in nets[n].nodes
    requires SoundNode(nets[0].tables, nets[0].relaxed, i) && OneMembership(nets[0].tables)
    requires m in nets[n].nodes[i].sent && m.kind == Prepare
    requires var c := nets[n].nodes[i].c;
      && c.active.Some? && c.active.value.state.height == m.height && c.active.value.state.proposed.Some?
      && c.active.value.cfg.IsValidator() && !c.stopped
      && (ev.TimeoutEvent? && c.deferred.Some? ==> c.deferred.value.number <= m.height)
      && (ev.TimeoutEvent? || ev.LivenessEvent?) && Step(c, ev, o) && TipBelow(c, ev.env, m.height)
    ensures Sent(Msg(Prepare, m.height, m.hash, i, ev.env.root)) in o.fx
    ensures exists block: Block :: block.number == m.height && block.hash == m.hash && (RoundOn(o.c, block) || FinalizedBlock(block) in o.fx)
  {
    ReachedNode(nets, actions, n, i);
    var c, p, w := nets[n].nodes[i].c, ParamsOf(nets[n], i), WorldOf(nets[n], i);
    RoundFacts(p, c, w);
    SentIsPrepared(p, c, w, m);
    var block := c.active.value.state.proposed.value;
    SameMembers(p, c, w, nets[0].tables, block.proposer);
    hide NetInv, IsRun, AllArmed, NodeInv, Step, IsKnown, OneMembership, SoundNode, Armed, TipBelow;
    TakesUpAgain(p, c, w, ev, o, block);
  }

  lemma SentIsPrepared(p: Params, c: Coord, w: World, m: Msg)
    requires NodeInv(p, c, w) && p.local in p.honest && m in w.sent && c.active.Some? && m.height == c.active.value.state.height
    requires c.active.value.state.proposed.Some? && c.active.value.cfg.IsValidator()
    ensures m.hash == c.active.value.state.proposed.value.hash
  {
    var a := c.active.value;
    assert Counted(p, a.cfg, c.preparedAt, w, a.state) && SentOk(p, w) && OneHash(p.honest, w.att);
    hide RoundInv, SeenOk, Remembered, LedgerOk;
  }

  lemma SameMembers(p: Params, c: Coord, w: World, tables: set<seq<Validator>>, proposer: Id)
    requires NodeInv(p, c, w) && p.tables == tables && OneMembership(tables) && c.active.Some?
    requires c.active.value.cfg.IsValidator() && IsKnown(c.active.value.cfg.validators, proposer)
    ensures c.cfg.IsValidator() && IsKnown(c.cfg.validators, proposer)
  {
    var a := c.active.value;
    assert p.InUse(c.cfg) && p.InUse(a.cfg);
    hide Durable, Counted, SeenOk, LingerOk;
    assert Ids(c.cfg.validators) == Ids(a.cfg.validators);
    KnownIds(c.cfg.validators, proposer);
    KnownIds(a.cfg.validators, proposer);
    KnownIds(c.cfg.validators, p.local);
    KnownIds(a.cfg.validators, p.local);
  }

  /** A round taken up again makes way for any later block, however many votes it holds. */
  lemma ReenteredMakesWay(c: Coord, later: Block, env: Env)
    requires c.active.Some? && c.reentered == Some(c.active.value.state.height) && later.number > c.active.value.state.height
    requires !IsTerminal(c.active.value.state.phase)
    requires MayVote(c, later) && later.proposer != c.cfg.localId && Open(c, later, Floor(c.lastFinalized, env.tip))
    ensures TakenUp(c, later, env.root, HandleReceivedBlock(c, later, env))
  {
    assert ClearTerminal(c) == c && !Busy(c, later);
    hide StartRound, IsKnown, Floor;
    IdleStartTakesUp(ClearRound(c), later, env.tip, env.root, env.valid);
  }

  // ----- Rounds that are not given up, and blocks that wait -----------------------------------------------------

  /** A round with a proposal in which the node or a peer has voted, and which was not taken up again. */
  ghost predicate VotesIn(c: Coord) {
    && c.active.Some? && c.active.value.state.phase in {Preparing, Committing}
    && (c.active.value.state.prepareVotes != map[] || c.active.value.state.commitVotes != map[])
    && c.reentered != Some(c.active.value.state.height)
  }

  /** A start does not give up a round with votes: it sends nothing, and its block waits if it is not stale. */
  lemma StartKeepsRound(c: Coord, block: Block, tip: Option<int>, root: Option<Hash>, valid: set<Msg>)
    requires VotesIn(c)
    ensures StartRound(c, block, tip, root, valid) ==
      Out(if c.stopped || block.number <= Floor(c.lastFinalized, tip) then c else c.(deferred := Some(block)), [])
  {
    hide StartFinish, Floor;
  }

  /** The round is committing, or a peer has voted in it, and it was not taken up again. */
  ghost predicate PeerVotesIn(c: Coord) {
    && c.active.Some? && c.reentered != Some(c.active.value.state.height)
    && var s := c.active.value.state;
       s.phase == Committing || (s.phase == Preparing && (|s.prepareVotes| > 1 || s.commitVotes != map[]))
  }

  /** A gossiped block does not displace a round with peers' votes; it waits, and earlier ones are ignored. */
  lemma GossipKeepsRound(c: Coord, block: Block, env: Env)
    requires PeerVotesIn(c) && block.proposer != c.cfg.localId
    ensures HandleReceivedBlock(c, block, env) ==
      Out(if block.number <= c.active.value.state.height then c else c.(deferred := Some(block)), [])
  {
    hide StartRound;
  }

  /** A gossiped block is taken up by a node without a round. */
  lemma GossipStartsRound(c: Coord, block: Block, env: Env)
    requires c.active.None? && block.proposer != c.cfg.localId && MayVote(c, block)
    requires Open(c, block, Floor(c.lastFinalized, env.tip))
    ensures TakenUp(c, block, env.root, HandleReceivedBlock(c, block, env))
  {
    hide StartRound, IsKnown, Floor;
    IdleStartTakesUp(c, block, env.tip, env.root, env.valid);
  }

  /** A block that arrives during such a round waits, and is started as soon as a message ends that round. */
  lemma WaitingBlockIsStarted(c: Coord, later: Block, env: Env, msg: Msg, env': Env)
    requires PeerVotesIn(c) && later.number > c.active.value.state.height
    requires later.proposer != c.cfg.localId && MayVote(c, later) && later.number !in c.preparedAt
    requires var c1 := HandleReceivedBlock(c, later, env).c;
      Deliver(c1, msg, env'.valid).finalized && TipBelow(Deliver(c1, msg, env'.valid).c, env', later.number)
    ensures var c1 := HandleReceivedBlock(c, later, env).c;
      TakenUp(c, later, env'.root, HandleMessage(c1, msg, env'))
  {
    GossipKeepsRound(c, later, env);
    var c1 := c.(deferred := Some(later));
    var d := Deliver(c1, msg, env'.valid);
    FinalityLeaves(c1, msg, env'.valid);
    hide HandleReceivedBlock, Deliver, ProcessDeferred, IsKnown, Floor, PeerVotesIn;
    DeferredTakesUp(d.c, later, env');
    assert HandleMessage(c1, msg, env').fx == d.fx + ProcessDeferred(d.c, env').fx;
  }

  /** What a message that ends the round leaves for the next one. */
  lemma FinalityLeaves(c: Coord, msg: Msg, valid: set<Msg>)
    requires Deliver(c, msg, valid).finalized
    ensures var d := Deliver(c, msg, valid).c;
      && d.active.None? && d.deferred == c.deferred && d.cfg == c.cfg && d.stopped == c.stopped
      && forall h :: h in d.preparedAt ==> h in c.preparedAt
  {
    hide Detection.Conflicts, Detection.Seen, Detection.Noted, Detection.KeepHighest, DeliverPrepare, DeliverCommit, Buffer;
    var seen := Detection.KeepHighest(Detection.Noted(c.seen, msg.sender, msg.height, msg.kind, msg.hash, ""), TRACKED_HEIGHTS);
    PrepareLeaves(c.(seen := seen), msg);
    CommitLeaves(c.(seen := seen), msg);
  }

  lemma PrepareLeaves(c: Coord, msg: Msg)
    requires c.active.Some?
    ensures var d := DeliverPrepare(c, msg);
      d.finalized ==> FinishedFrom(c, d.c)
  {
    hide HandlePrepare, SendCommit, Finish;
    var a := c.active.value;
    var (s, _) := HandlePrepare(a.cfg, a.state, msg.sender, msg.hash, msg.root);
    if s.phase == Finalized && s.proposed.Some? {
      FinishLeaves(c.(active := Some(a.(state := s))), s.proposed.value);
    }
  }

  lemma CommitLeaves(c: Coord, msg: Msg)
    requires c.active.Some?
    ensures var d := DeliverCommit(c, msg);
      d.finalized ==> FinishedFrom(c, d.c)
  {
    hide HandleCommit, Finish;
    var a := c.active.value;
    var (s, finalized) := HandleCommit(a.cfg, a.state, msg.sender, msg.hash, msg.root);
    if finalized && s.proposed.Some? {
      FinishLeaves(c.(active := Some(a.(state := s))), s.proposed.value);
    }
  }

  ghost predicate FinishedFrom(c: Coord, c': Coord) {
    && c'.active.None? && c'.deferred == c.deferred && c'.cfg == c.cfg && c'.stopped == c.stopped
    && forall h :: h in c'.preparedAt ==> h in c.preparedAt
  }

  lemma FinishLeaves(c: Coord, block: Block)
    requires c.active.Some?
    ensures FinishedFrom(c, Finish(c, block).c)
  {
    hide LingerFor, Pruned;
  }

  // ----- After finality -------------------------------------------------------------------------------------------

  /** The node after some linger ticks. */
  function Ticked(c: Coord, n: nat): Coord {
    if n == 0 then c else LingerTick(Ticked(c, n - 1)).c
  }

  /** The votes a node keeps on the wire for a block it saw finalized. */
  function LastVotes(c: Coord, block: Block): seq<Effect>
    requires c.active.Some?
  {
    var l := LingerFor(c, block);
    (if l.prepare.Some? then [Sent(l.prepare.value)] else []) + [Sent(Msg(Commit, l.height, block.hash, c.cfg.localId, None))]
  }

  lemma {:induction false} LingerCounts(c: Coord, l: Linger, k: nat)
    requires c.linger == Some(l) && k <= l.remaining
    ensures Ticked(c, k) == c.(linger := Some(l.(remaining := l.remaining - k)))
  {
    if k > 0 {
      LingerCounts(c, l, k - 1);
    }
  }

  lemma {:induction false} LingerOver(c: Coord, l: Linger, k: nat)
    requires c.linger == Some(l) && k > l.remaining
    ensures Ticked(c, k) == c.(linger := None)
  {
    if k - 1 > l.remaining {
      LingerOver(c, l, k - 1);
    } else {
      LingerCounts(c, l, k - 1);
    }
  }

  /**
   * After finality the next six ticks send the node's commit, and its prepare if it prepared the block; later ones
   * send nothing.
   */
  lemma LingersSixTimes(c: Coord, block: Block, k: nat)
    requires c.active.Some?
    ensures LingerTick(Ticked(Finish(c, block).c, k)).fx == if k < 6 then LastVotes(c, block) else []
    ensures var h := c.active.value.state.height;
      && Sent(Msg(Commit, h, block.hash, c.cfg.localId, None)) in LastVotes(c, block)
      && ((exists root :: Sent(Msg(Prepare, h, block.hash, c.cfg.localId, root)) in LastVotes(c, block)) <==>
            h in c.preparedAt && c.preparedAt[h] == block.hash)
  {
    var l, d := LingerFor(c, block), Finish(c, block).c;
    assert d.linger == Some(l) && d.cfg == c.cfg && l.remaining == 6 by { FinishLingers(c, block); }
    if k <= 6 {
      LingerCounts(d, l, k);
    } else {
      LingerOver(d, l, k);
    }
    LastVotesAre(c, block);
    hide Finish, Ticked;
  }

  lemma FinishLingers(c: Coord, block: Block)
    requires c.active.Some?
    ensures Finish(c, block).c.linger == Some(LingerFor(c, block)) && Finish(c, block).c.cfg == c.cfg
    ensures LingerFor(c, block).remaining == 6
  {
    hide Later, Pruned;
  }

  lemma LastVotesAre(c: Coord, block: Block)
    requires c.active.Some?
    ensures var h, votes := c.active.value.state.height, LastVotes(c, block);
      && Sent(Msg(Commit, h, block.hash, c.cfg.localId, None)) in votes
      && ((exists root :: Sent(Msg(Prepare, h, block.hash, c.cfg.localId, root)) in votes) <==>
            h in c.preparedAt && c.preparedAt[h] == block.hash)
  {
    var h, l := c.active.value.state.height, LingerFor(c, block);
    if h in c.preparedAt && c.preparedAt[h] == block.hash {
      assert LastVotes(c, block)[0] == Sent(Msg(Prepare, h, block.hash, c.cfg.localId, l.prepare.value.root));
      assert LastVotes(c, block)[1] == Sent(Msg(Commit, h, block.hash, c.cfg.localId, None));
    } else {
      assert LastVotes(c, block) == [Sent(Msg(Commit, h, block.hash, c.cfg.localId, None))];
    }
  }

  /** Once a block is final at a node, no start at its height or below opens a round, whatever the tip says. */
  lemma FinalHeightIsClosed(c: Coord, done: Block, block: Block, tip: Option<int>, root: Option<Hash>, valid: set<Msg>)
    requires c.active.Some? && block.number <= c.active.value.state.height
    ensures var c1 := Finish(c, done).c; StartRound(c1, block, tip, root, valid) == Out(c1, [])
  {
    FinalizedAt(c, done);
    hide Finish, StartFinish;
  }

  lemma FinalizedAt(c: Coord, done: Block)
    requires c.active.Some?
    ensures Finish(c, done).c.lastFinalized == c.active.value.state.height
  {
    hide LingerFor, Later, Pruned;
  }

  // ----- After a stop -------------------------------------------------------------------------------------------------

  /** Stopped, with no round and nothing to repeat. */
  ghost predicate Silent(c: Coord) {
    c.stopped && c.active.None? && c.linger.None? && !c.commitRetry && !c.prepareRetry
  }

  /** Calls and timers; a replay is only made at the start of the process. */
  predicate IsCallOrTimer(ev: Event) {
    || ev.StartEvent? || ev.MessageEvent? || ev.BlockEvent? || ev.TimeoutEvent? || ev.LivenessEvent? || ev.ForceClearEvent?
    || ev.CommitTickEvent? || ev.PrepareTickEvent? || ev.LingerTickEvent? || ev.StopEvent?
  }

  lemma StopIsSilent(c: Coord)
    ensures Silent(Stop(c))
  {
  }

  /** A stopped coordinator does nothing any more, whatever it is called with. */
  lemma StaysSilent(c: Coord, ev: Event, o: Out)
    requires Silent(c) && IsCallOrTimer(ev) && Step(c, ev, o)
    ensures Silent(o.c) && o.fx == []
  {
    match ev
    case StartEvent(block, env) => SilentStart(c, block, env.tip, env.root, env.valid);
    case MessageEvent(msg, env) => hide IsDuplicate;
    case BlockEvent(block, env) => SilentStart(c, block, env.tip, env.root, env.valid);
    case TimeoutEvent(env) =>
    case LivenessEvent(env) =>
    case ForceClearEvent =>
    case CommitTickEvent =>
    case PrepareTickEvent =>
    case LingerTickEvent =>
    case StopEvent => StopIsSilent(c);
  }

  lemma SilentStart(c: Coord, block: Block, tip: Option<int>, root: Option<Hash>, valid: set<Msg>)
    requires Silent(c)
    ensures StartRound(c, block, tip, root, valid) == Out(c, [])
  {
  }
}
