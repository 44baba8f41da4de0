/**
 * The coordinator as a state machine on values.
 *
 * Each event maps a `Coord` to a new one and a list of effects in the order in which the program
 * performs them: writes of the vote ledger, messages sent, blocks finalized, equivocations
 * reported. A crash between two effects keeps the earlier ones and loses the `Coord`.
 * A call is given first as if nothing else happened meanwhile; what the program reads from outside
 * during it (chain tip, state root, which signatures verify) comes in as `Env`. The pieces between
 * its awaits are events of their own, which other calls may come between.
 */
module Coordinator {
  import opened BftTypes
  import opened Quorum
  import opened Round
  import opened VoteLedger
  import opened EquivocationDetection

  const PENDING_CAP: nat := 50
  const FUTURE_GAP: nat := 10
  const LINGER_COUNT: nat := 6
  const TRACKED_HEIGHTS: nat := 100

  datatype Active = Active(cfg: RoundConfig, state: RoundState)

  /** Votes kept on the wire for a while after finalization. */
  datatype Linger = Linger(height: int, hash: Hash, prepare: Option<Msg>, remaining: nat)

  datatype Coord = Coord(
    cfg: RoundConfig,
    stopped: bool,
    active: Option<Active>,
    reentered: Option<int>,
    pending: seq<Msg>,
    deferred: Option<Block>,
    lastFinalized: int,
    preparedAt: map<int, Hash>,
    committedAt: map<int, Hash>,
    preparedBlock: map<int, Block>,
    ledger: Snapshot,
    seen: VoteTable,
    commitRetry: bool,
    prepareRetry: bool,
    linger: Option<Linger>)

  datatype Effect =
    | Flushed(snap: Snapshot)
    | Sent(msg: Msg)
    | PrunedTo(height: int, snap: Snapshot)
    | FinalizedBlock(block: Block)
    | Accused(id: Id, height: int, kind: VoteKind, hash1: Hash, hash2: Hash)

  datatype Out = Out(c: Coord, fx: seq<Effect>)

  /**
   * Answers of the environment during one call: the chain tip when first and when next asked
   * (none when there is no callback or it fails), the state root computed for the block, and
   * the messages whose signatures verify.
   */
  datatype Env = Env(tip: Option<int>, tipAfter: Option<int>, root: Option<Hash>, valid: set<Msg>)

  /** A process starting from what the ledger file held. */
  function Restart(cfg: RoundConfig, disk: Snapshot): Coord {
    Coord(cfg, false, None, None, [], None, 0,
          disk.prepared, disk.committed, map[], disk, map[], false, false, None)
  }

  function Floor(lastFinalized: int, tip: Option<int>): int {
    if tip.Some? && tip.value > lastFinalized then tip.value else lastFinalized
  }

  function ClearRound(c: Coord): Coord {
    c.(active := None, commitRetry := false, prepareRetry := false)
  }

  function ForceClear(c: Coord): Coord {
    if c.active.None? then c else ClearRound(c)
  }

  predicate IsTerminal(phase: Phase) {
    phase == Finalized || phase == Failed
  }

  function ClearTerminal(c: Coord): Coord {
    if c.active.Some? && IsTerminal(c.active.value.state.phase) then ClearRound(c) else c
  }

  /** A round re-entered after a timeout never holds back a block for a higher height. */
  predicate Superseded(c: Coord, block: Block) {
    c.active.Some? && c.reentered == Some(c.active.value.state.height) && block.number > c.active.value.state.height
  }

  function ChangeLedger(before: Snapshot, after: Snapshot): seq<Effect> {
    if before == after then [] else [Flushed(after)]
  }

  // ----- Messages ----------------------------------------------------------------------

  /** A message of this sender, kind and height is already waiting. */
  predicate IsDuplicate(pending: seq<Msg>, msg: Msg) {
    exists i :: 0 <= i < |pending| &&
      pending[i].sender == msg.sender && pending[i].kind == msg.kind && pending[i].height == msg.height
  }

  function Buffer(c: Coord, msg: Msg): Coord {
    if |c.pending| >= PENDING_CAP || IsDuplicate(c.pending, msg) then c
    else c.(pending := c.pending + [msg])
  }

  predicate Apart(a: Msg, b: Msg) {
    a.sender != b.sender || a.kind != b.kind || a.height != b.height
  }

  predicate AllApart(msgs: seq<Msg>) {
    forall i, j :: 0 <= i < j < |msgs| ==> Apart(msgs[i], msgs[j])
  }

  /** No more than fifty messages wait, and no two of one sender, kind and height. */
  predicate BufferOk(pending: seq<Msg>) {
    |pending| <= PENDING_CAP && AllApart(pending)
  }

  datatype Delivery = Delivery(c: Coord, fx: seq<Effect>, finalized: bool)

  function LingerFor(c: Coord, block: Block): Linger
    requires c.active.Some?
  {
    var h, votes := c.active.value.state.height, c.active.value.state.prepareVotes;
    var root := if c.cfg.localId in votes then votes[c.cfg.localId].root else None;
    Linger(h, block.hash,
      if h in c.preparedAt && c.preparedAt[h] == block.hash then Some(Msg(Prepare, h, block.hash, c.cfg.localId, root)) else None,
      LINGER_COUNT)
  }

  /** The round is finalized: start lingering, drop the round, prune the ledger, hand the block on. */
  function Finish(c: Coord, block: Block): (d: Delivery)
    requires c.active.Some?
    ensures d.finalized && d.c.active.None? && d.c.deferred == c.deferred && d.c.pending == c.pending
  {
    var h := c.active.value.state.height;
    var ledger := Pruned(c.ledger, h);
    var c' := ClearRound(c).(
      lastFinalized := h,
      linger := Some(LingerFor(c, block)),
      preparedAt := Later(c.preparedAt, h),
      committedAt := Later(c.committedAt, h),
      preparedBlock := Later(c.preparedBlock, h),
      reentered := if c.reentered.Some? && c.reentered.value <= h then None else c.reentered,
      ledger := ledger);
    Delivery(c', [PrunedTo(h, ledger), FinalizedBlock(block)], true)
  }

  /** Record the commit, write it ahead, send it; refused when another commit is on record. */
  function SendCommit(c: Coord, m: Msg): Out {
    if m.height in c.committedAt && c.committedAt[m.height] != m.hash then Out(c, [])
    else
      var ledger := WithCommitted(c.ledger, m.height, m.hash);
      Out(c.(committedAt := c.committedAt[m.height := m.hash], ledger := ledger),
          ChangeLedger(c.ledger, ledger) + [Sent(m)])
  }

  ghost function DeliverPrepare(c: Coord, msg: Msg): Delivery
    requires c.active.Some?
  {
    var a := c.active.value;
    var (s, out) := HandlePrepare(a.cfg, a.state, msg.sender, msg.hash, msg.root);
    var c1 := c.(active := Some(a.(state := s)));
    if s.phase == Finalized && s.proposed.Some? then Finish(c1, s.proposed.value)
    else
      var o := if out == [] then Out(c1, []) else SendCommit(c1, out[0]);
      Delivery(o.c.(commitRetry := o.c.commitRetry || s.phase == Committing), o.fx, false)
  }

  ghost function DeliverCommit(c: Coord, msg: Msg): Delivery
    requires c.active.Some?
  {
    var a := c.active.value;
    var (s, finalized) := HandleCommit(a.cfg, a.state, msg.sender, msg.hash, msg.root);
    var c1 := c.(active := Some(a.(state := s)));
    if finalized && s.proposed.Some? then Finish(c1, s.proposed.value) else Delivery(c1, [], false)
  }

  /** A verified vote for the active height: report it if it conflicts with one seen, else count it. */
  ghost function CountVote(c: Coord, msg: Msg): Delivery
    requires c.active.Some?
  {
    if Conflicts(c.seen, msg.sender, msg.height, msg.kind, msg.hash) then
      var first := Seen(c.seen, msg.sender, msg.height, msg.kind).value.hash;
      Delivery(c, [Accused(msg.sender, msg.height, msg.kind, first, msg.hash)], false)
    else
      var c1 := c.(seen := KeepHighest(Noted(c.seen, msg.sender, msg.height, msg.kind, msg.hash, ""), TRACKED_HEIGHTS));
      if msg.kind == Prepare then DeliverPrepare(c1, msg) else DeliverCommit(c1, msg)
  }

  ghost function Deliver(c: Coord, msg: Msg, valid: set<Msg>): Delivery {
    if c.active.None? then Delivery(Buffer(c, msg), [], false)
    else
      var h := c.active.value.state.height;
      if msg.height != h then
        Delivery(if h < msg.height <= h + FUTURE_GAP then Buffer(c, msg) else c, [], false)
      else if msg.kind == Propose || msg !in valid then Delivery(c, [], false)
      else CountVote(c, msg)
  }

  // ----- Starting rounds ---------------------------------------------------------------

  /** The buffered messages in turn, until one of them ends the round. */
  ghost function Drain(c: Coord, msgs: seq<Msg>, valid: set<Msg>): Out
    decreases |msgs|
  {
    if msgs == [] || c.active.None? then Out(c, [])
    else
      var d := Deliver(c, msgs[0], valid);
      var r := Drain(d.c, msgs[1..], valid);
      Out(r.c, d.fx + r.fx)
  }

  function Select(msgs: seq<Msg>, height: int, commits: bool): seq<Msg> {
    if msgs == [] then []
    else (if msgs[0].height == height && (msgs[0].kind == Commit) == commits then [msgs[0]] else [])
         + Select(msgs[1..], height, commits)
  }

  function Newer(msgs: seq<Msg>, height: int): seq<Msg> {
    if msgs == [] then []
    else (if msgs[0].height > height then [msgs[0]] else []) + Newer(msgs[1..], height)
  }

  datatype StartDecision = Refused(c: Coord) | Proceed(c: Coord)

  /** A round with votes is not given up for the block. */
  predicate HoldsBack(c: Coord, block: Block) {
    && c.active.Some?
    && c.active.value.state.phase in {Preparing, Committing}
    && (c.active.value.state.prepareVotes != map[] || c.active.value.state.commitVotes != map[])
    && !Superseded(c, block)
  }

  /** Everything a start checks before it computes the state root. */
  function StartCheck(c: Coord, block: Block, tip: Option<int>): StartDecision {
    if c.stopped || block.number <= Floor(c.lastFinalized, tip) then Refused(c)
    else
      var c1 := ClearTerminal(c);
      if HoldsBack(c1, block) then Refused(c1.(deferred := Some(block)))
      else if block.number in c1.preparedAt && c1.preparedAt[block.number] != block.hash then Refused(c1)
      else Proceed(ClearRound(c1).(deferred := None))
  }

  /** The new round with the node's own prepare, written ahead and then sent. */
  function OpenRound(c: Coord, block: Block, root: Option<Hash>): (o: Out)
    ensures o.c.active.Some? && o.c.pending == c.pending && o.c.deferred == c.deferred && o.c.cfg == c.cfg
  {
    var (s, out) := HandlePropose(c.cfg, NewRound(block.number), block, block.proposer, root);
    var c1 := c.(active := Some(Active(c.cfg, s)));
    if out == [] then Out(c1, [])
    else
      var ledger := WithPrepared(c.ledger, block.number, block.hash);
      Out(c1.(preparedAt := c.preparedAt[block.number := block.hash],
              preparedBlock := c.preparedBlock[block.number := block],
              ledger := ledger,
              prepareRetry := true),
          ChangeLedger(c.ledger, ledger) + [Sent(out[0])])
  }

  /** The same with the configuration taken before the state root was awaited. */
  function OpenWith(c: Coord, cfg: RoundConfig, block: Block, root: Option<Hash>): Out {
    var o := OpenRound(c.(cfg := cfg), block, root);
    Out(o.c.(cfg := c.cfg), o.fx)
  }

  /** Everything a start does once the state root is known. */
  ghost function StartFinish(c: Coord, block: Block, root: Option<Hash>, valid: set<Msg>): Out {
    var o := OpenRound(c, block, root);
    var buffered := Select(c.pending, block.number, false) + Select(c.pending, block.number, true);
    var r := Drain(o.c.(pending := Newer(c.pending, block.number)), buffered, valid);
    Out(if r.c.active.Some? && r.c.active.value.state.phase == Committing then r.c.(commitRetry := true) else r.c,
        o.fx + r.fx)
  }

  ghost function StartRound(c: Coord, block: Block, tip: Option<int>, root: Option<Hash>, valid: set<Msg>): Out {
    match StartCheck(c, block, tip)
    case Refused(c1) => Out(c1, [])
    case Proceed(c1) => StartFinish(c1, block, root, valid)
  }

  ghost function ProcessDeferred(c: Coord, env: Env): Out {
    var c1 := c.(deferred := None);
    if c.deferred.None? || c.deferred.value.number <= Floor(c.lastFinalized, env.tip) then Out(c1, [])
    else StartRound(c1, c.deferred.value, env.tipAfter, env.root, env.valid)
  }

  ghost function HandleMessage(c: Coord, msg: Msg, env: Env): Out {
    var d := Deliver(c, msg, env.valid);
    if !d.finalized then Out(d.c, d.fx)
    else
      var r := ProcessDeferred(d.c, env);
      Out(r.c, d.fx + r.fx)
  }

  /** The round has peers' votes and is not given up for a gossiped block. */
  predicate Busy(c: Coord, block: Block)
    requires c.active.Some?
  {
    var s := c.active.value.state;
    && (s.phase == Committing || (s.phase == Preparing && (|s.prepareVotes| > 1 || s.commitVotes != map[])))
    && !Superseded(c, block)
  }

  ghost function HandleReceivedBlock(c: Coord, block: Block, env: Env): Out {
    if block.proposer == c.cfg.localId then Out(c, [])
    else
      var c1 := ClearTerminal(c);
      if c1.active.None? then StartRound(c1, block, env.tip, env.root, env.valid)
      else
        var s := c1.active.value.state;
        if block.number <= s.height then Out(c1, [])
        else if Busy(c1, block) then Out(c1.(deferred := Some(block)), [])
        else StartRound(ClearRound(c1), block, env.tip, env.root, env.valid)
  }

  // ----- Timers and resets ---------------------------------------------------------------

  /** Queue the block we prepared at a height whose round just ended, unless a newer one waits. */
  function Reenter(c: Coord, height: int): Coord {
    if c.stopped || (c.deferred.Some? && c.deferred.value.number > height) || height !in c.preparedBlock then c
    else c.(deferred := Some(c.preparedBlock[height]), reentered := Some(height))
  }

  ghost function Timeout(c: Coord, env: Env): Out {
    if c.active.None? || IsTerminal(c.active.value.state.phase) then Out(c, [])
    else ProcessDeferred(Reenter(ClearRound(c), c.active.value.state.height), env)
  }

  ghost function LivenessReset(c: Coord, env: Env): Out {
    if c.active.None? then Out(c, [])
    else
      var c1 := ClearRound(c).(pending := [], deferred := None);
      ProcessDeferred(Reenter(c1, c.active.value.state.height), env)
  }

  function Stop(c: Coord): Coord {
    ClearRound(c).(stopped := true, reentered := None, linger := None, pending := [], deferred := None)
  }

  function CommitTick(c: Coord): Out {
    if !c.commitRetry then Out(c, [])
    else if c.active.None? || c.active.value.state.phase != Committing then Out(c.(commitRetry := false), [])
    else
      var s := c.active.value.state;
      if s.proposed.None? || s.proposed.value.hash == "" then Out(c, [])
      else Out(c, [Sent(Msg(Commit, s.height, s.proposed.value.hash, c.cfg.localId, None))])
  }

  function PrepareTick(c: Coord): Out {
    if !c.prepareRetry then Out(c, [])
    else if c.active.None? || c.active.value.state.phase !in {Preparing, Committing} then Out(c.(prepareRetry := false), [])
    else
      var s := c.active.value.state;
      if s.proposed.None? || s.proposed.value.hash == "" then Out(c, [])
      else
        var hash := s.proposed.value.hash;
        if s.height !in c.preparedAt || c.preparedAt[s.height] != hash then Out(c, [])
        else
          var root := if c.cfg.localId in s.prepareVotes then s.prepareVotes[c.cfg.localId].root else None;
          var again := if s.phase == Preparing && s.height in c.committedAt && c.committedAt[s.height] == hash
                       then [Sent(Msg(Commit, s.height, hash, c.cfg.localId, None))] else [];
          Out(c, [Sent(Msg(Prepare, s.height, hash, c.cfg.localId, root))] + again)
  }

  function LingerTick(c: Coord): Out {
    match c.linger
    case None => Out(c, [])
    case Some(l) =>
      if l.remaining == 0 then Out(c.(linger := None), [])
      else Out(c.(linger := Some(l.(remaining := l.remaining - 1))),
               (if l.prepare.Some? then [Sent(l.prepare.value)] else [])
               + [Sent(Msg(Commit, l.height, l.hash, c.cfg.localId, None))])
  }

  /** The votes a restarted node repeats: commits first, then prepares it never committed. */
  function ReplayedCommit(c: Coord, h: int): Msg
    requires h in c.committedAt
  {
    Msg(Commit, h, c.committedAt[h], c.cfg.localId, None)
  }

  function ReplayedPrepare(c: Coord, h: int): Msg
    requires h in c.preparedAt
  {
    Msg(Prepare, h, c.preparedAt[h], c.cfg.localId, None)
  }

  /** Map order decides the order within commits and within prepares, so any order is admitted. */
  ghost predicate IsReplay(c: Coord, floor: int, commits: seq<int>, prepares: seq<int>, fx: seq<Effect>) {
    && Distinct(commits) && (forall h :: h in commits <==> h in c.committedAt && h > floor)
    && Distinct(prepares) && (forall h :: h in prepares <==> h in c.preparedAt && h > floor && h !in c.committedAt)
    && |fx| == |commits| + |prepares|
    && (forall i :: 0 <= i < |commits| ==> fx[i] == Sent(ReplayedCommit(c, commits[i])))
    && (forall i :: 0 <= i < |prepares| ==> fx[|commits| + i] == Sent(ReplayedPrepare(c, prepares[i])))
  }

  /** A vote that a replay may send now. */
  predicate OnRecord(c: Coord, m: Msg) {
    || (m.height in c.committedAt && m == ReplayedCommit(c, m.height))
    || (m.height in c.preparedAt && m == ReplayedPrepare(c, m.height))
  }

  lemma ReplayIsOnRecord(c: Coord, floor: int, commits: seq<int>, prepares: seq<int>, fx: seq<Effect>, i: nat)
    requires IsReplay(c, floor, commits, prepares, fx) && i < |fx|
    ensures fx[i].Sent? && OnRecord(c, fx[i].msg)
  {
    if i < |commits| {
      assert commits[i] in commits;
    } else {
      assert prepares[i - |commits|] in prepares;
      assert fx[|commits| + (i - |commits|)] == Sent(ReplayedPrepare(c, prepares[i - |commits|]));
    }
  }

  /** New validators; a change of membership (not of stakes) wipes all memory of own votes. */
  ghost function UpdateValidators(c: Coord, vals: seq<Validator>): Out {
    var cfg := c.cfg.(validators := vals);
    if Ids(vals) == Ids(c.cfg.validators) then Out(c.(cfg := cfg), [])
    else
      Out(ForceClear(c).(cfg := cfg, preparedAt := map[], committedAt := map[], preparedBlock := map[],
            ledger := EMPTY, reentered := None, pending := [], deferred := None),
          ChangeLedger(c.ledger, EMPTY))
  }

  // ----- Events --------------------------------------------------------------------------

  /** Two coordinators that differ only in what no vote depends on. */
  ghost predicate SameVotes(c: Coord, c': Coord) {
    && c'.cfg == c.cfg
    && c'.lastFinalized == c.lastFinalized && c'.ledger == c.ledger
    && c'.preparedAt == c.preparedAt && c'.committedAt == c.committedAt && c'.preparedBlock == c.preparedBlock
    && c'.seen == c.seen
    && (c'.active == c.active || c'.active == None)
    && (c'.linger.Some? ==> c.linger.Some? && c'.linger.value.(remaining := 0) == c.linger.value.(remaining := 0))
  }

  /** Waiting messages are dropped: none, all, or those up to a height. */
  ghost predicate OnlyDrops(before: seq<Msg>, after: seq<Msg>) {
    after == before || after == [] || exists h :: after == Newer(before, h)
  }

  /** No timer of a round that goes on is switched off. */
  ghost predicate TimersKept(c: Coord, c': Coord) {
    c'.active.Some? ==> (c.commitRetry ==> c'.commitRetry) && (c.prepareRetry ==> c'.prepareRetry)
  }

  ghost predicate IsQuiet(c: Coord, c': Coord) {
    SameVotes(c, c') && OnlyDrops(c.pending, c'.pending) && TimersKept(c, c')
  }

  /**
   * Whole calls, timer ticks, new validators, and the pieces that calls consist of between two awaits:
   * opening a round once the state root is known, taking one message, repeating one vote on record, and
   * anything that neither votes nor changes what votes depend on and buffers no message.
   */
  datatype Event =
    | StartEvent(block: Block, env: Env)
    | MessageEvent(msg: Msg, env: Env)
    | BlockEvent(block: Block, env: Env)
    | TimeoutEvent(env: Env)
    | LivenessEvent(env: Env)
    | ForceClearEvent
    | CommitTickEvent
    | PrepareTickEvent
    | LingerTickEvent
    | ReplayEvent(tip: Option<int>, commits: seq<int>, prepares: seq<int>)
    | StopEvent
    | UpdateEvent(vals: seq<Validator>)
    | OpenEvent(cfg: RoundConfig, block: Block, root: Option<Hash>)
    | DeliverEvent(msg: Msg, valid: set<Msg>)
    | RepeatEvent(msg: Msg)
    | QuietEvent(next: Coord)

  ghost predicate Step(c: Coord, ev: Event, o: Out) {
    match ev
    case StartEvent(block, env) => o == StartRound(c, block, env.tip, env.root, env.valid)
    case MessageEvent(msg, env) => o == HandleMessage(c, msg, env)
    case BlockEvent(block, env) => o == HandleReceivedBlock(c, block, env)
    case TimeoutEvent(env) => o == Timeout(c, env)
    case LivenessEvent(env) => o == LivenessReset(c, env)
    case ForceClearEvent => o == Out(ForceClear(c), [])
    case CommitTickEvent => o == CommitTick(c)
    case PrepareTickEvent => o == PrepareTick(c)
    case LingerTickEvent => o == LingerTick(c)
    case ReplayEvent(tip, commits, prepares) =>
      o.c == c && IsReplay(c, Floor(c.lastFinalized, tip), commits, prepares, o.fx)
    case StopEvent => o == Out(Stop(c), [])
    case UpdateEvent(vals) => o == UpdateValidators(c, vals)
    case OpenEvent(cfg, block, root) => o == OpenWith(c, cfg, block, root)
    case DeliverEvent(msg, valid) => o == Out(Deliver(c, msg, valid).c, Deliver(c, msg, valid).fx)
    case RepeatEvent(msg) => o == Out(c, [Sent(msg)]) && OnRecord(c, msg)
    case QuietEvent(next) => o == Out(next, []) && IsQuiet(c, next)
  }
}
