/**
 * The coordinator object. Its methods update the fields, the round, the ledger and the detector
 * in place and append what they do to a trace; each is proved to compute the corresponding
 * function of the state machine in `Coordinator`, effects and order included. `Valid` ties the trace
 * to the ledger file, so the safety theorems hold of the object and of what it restarts into after
 * a crash anywhere (`Take`, `CrashAnywhere`).
 */
module CoordinatorObject {
  import opened BftTypes
  import opened Quorum
  import opened Round
  import opened VoteLedger
  import opened EquivocationDetection
  import opened Coordinator
  import opened VoteSafety
  import Buffering

  // ----- Traces and the file -----------------------------------------------------------------

  function DiskAfter(disk: Snapshot, e: Effect): Snapshot {
    match e
    case Flushed(snap) => snap
    case PrunedTo(_, snap) => snap
    case _ => disk
  }

  /** The last snapshot written by these effects, or what was there before. */
  function DiskOf(base: Snapshot, fx: seq<Effect>): Snapshot {
    if fx == [] then base else DiskAfter(DiskOf(base, fx[..|fx| - 1]), fx[|fx| - 1])
  }

  lemma DiskOfOneMore(base: Snapshot, fx: seq<Effect>, e: Effect)
    ensures DiskOf(base, fx + [e]) == DiskAfter(DiskOf(base, fx), e)
  {
    assert (fx + [e])[..|fx|] == fx;
  }

  /** What was read back after each effect is what the effects up to there wrote. */
  ghost predicate Logged(base: Snapshot, trace: seq<Effect>, disks: seq<Snapshot>) {
    |disks| == |trace| + 1 && forall k :: 0 <= k <= |trace| ==> disks[k] == DiskOf(base, trace[..k])
  }

  /** The ledger holds the last snapshot of the trace, and a writable file held the last one at every point. */
  ghost predicate InStep(base: Snapshot, trace: seq<Effect>, disks: seq<Snapshot>, ledger: Snapshot, disk: Option<Snapshot>) {
    && DiskOf(base, trace) == ledger
    && (disk.Some? ==> disk.value == ledger && Logged(base, trace, disks))
  }

  /** One more effect, after which the ledger holds what the effect says and a writable file the same. */
  lemma StaysInStep(base: Snapshot, trace: seq<Effect>, disks: seq<Snapshot>, before: Snapshot, e: Effect, disk: Option<Snapshot>)
    requires InStep(base, trace, disks, before, if disk.Some? then Some(before) else None)
    requires disk.Some? ==> disk.value == DiskAfter(before, e)
    ensures forall read :: disk == Some(read) || disk == None ==>
      InStep(base, trace + [e], disks + [read], DiskAfter(before, e), disk)
  {
    LoggedOneMore(base, trace, disks, e);
  }

  lemma LoggedOneMore(base: Snapshot, trace: seq<Effect>, disks: seq<Snapshot>, e: Effect)
    ensures DiskOf(base, trace + [e]) == DiskAfter(DiskOf(base, trace), e)
    ensures Logged(base, trace, disks) ==> Logged(base, trace + [e], disks + [DiskOf(base, trace + [e])])
  {
    DiskOfOneMore(base, trace, e);
    var trace', disks' := trace + [e], disks + [DiskOf(base, trace + [e])];
    if Logged(base, trace, disks) {
      forall k | 0 <= k <= |trace'| ensures disks'[k] == DiskOf(base, trace'[..k]) {
        if k <= |trace| {
          assert trace'[..k] == trace[..k];
        } else {
          assert trace'[..k] == trace';
        }
      }
    }
  }

  /** The file as the effects leave it is the file of the outside world of the state machine. */
  lemma {:induction false} DiskIsWorlds(p: Params, w: World, fx: seq<Effect>)
    ensures PerformAll(p, w, fx).disk == DiskOf(w.disk, fx)
    decreases |fx|
  {
    if fx != [] {
      var front, e := fx[..|fx| - 1], fx[|fx| - 1];
      DiskIsWorlds(p, w, front);
      PerformConcat(p, w, front, [e]);
      OneEffect(p, PerformAll(p, w, front), e);
      assert front + [e] == fx;
    }
  }

  // ----- Repeating votes from the maps, one at a time ------------------------------------------

  /** The commits above the floor have been sent, except those of the heights left. */
  ghost predicate CommitsRepeated(c: Coord, floor: int, left: set<int>, commits: seq<int>, fx: seq<Effect>) {
    && Distinct(commits) && (forall h :: h in commits <==> h in c.committedAt && h > floor && h !in left)
    && |fx| == |commits| && (forall i :: 0 <= i < |commits| ==> commits[i] in commits && fx[i] == Sent(ReplayedCommit(c, commits[i])))
  }

  ghost predicate PreparesRepeated(c: Coord, floor: int, left: set<int>, prepares: seq<int>, fx: seq<Effect>) {
    && Distinct(prepares)
    && (forall h :: h in prepares <==> h in c.preparedAt && h > floor && h !in c.committedAt && h !in left)
    && |fx| == |prepares| && (forall i :: 0 <= i < |prepares| ==> prepares[i] in prepares && fx[i] == Sent(ReplayedPrepare(c, prepares[i])))
  }

  lemma NothingRepeated(c: Coord, floor: int)
    ensures CommitsRepeated(c, floor, c.committedAt.Keys, [], []) && PreparesRepeated(c, floor, c.preparedAt.Keys, [], [])
  {
  }

  lemma OneMoreCommit(c: Coord, floor: int, left: set<int>, commits: seq<int>, fx: seq<Effect>, h: int)
    requires CommitsRepeated(c, floor, left, commits, fx) && h in left && h in c.committedAt
    ensures if h > floor
      then CommitsRepeated(c, floor, left - {h}, commits + [h], fx + [Sent(ReplayedCommit(c, h))])
      else CommitsRepeated(c, floor, left - {h}, commits, fx)
  {
    assert h !in commits;
  }

  lemma OneMorePrepare(c: Coord, floor: int, left: set<int>, prepares: seq<int>, fx: seq<Effect>, h: int)
    requires PreparesRepeated(c, floor, left, prepares, fx) && h in left && h in c.preparedAt
    ensures if h > floor && h !in c.committedAt
      then PreparesRepeated(c, floor, left - {h}, prepares + [h], fx + [Sent(ReplayedPrepare(c, h))])
      else PreparesRepeated(c, floor, left - {h}, prepares, fx)
  {
    assert h !in prepares;
  }

  lemma ReplayInTwoParts(c: Coord, floor: int, commits: seq<int>, fx1: seq<Effect>, prepares: seq<int>, fx2: seq<Effect>)
    requires CommitsRepeated(c, floor, {}, commits, fx1) && PreparesRepeated(c, floor, {}, prepares, fx2)
    ensures IsReplay(c, floor, commits, prepares, fx1 + fx2)
  {
  }

  /** How a gossiped block is taken: ignored, deferred behind a busy round, or way made for it. */
  ghost predicate Admits(c: Coord, block: Block, go: bool, next: Coord) {
    var c1 := ClearTerminal(c);
    if c1.active.None? then go && next == c1
    else if block.number <= c1.active.value.state.height then !go && next == c1
    else if Busy(c1, block) then !go && next == c1.(deferred := Some(block))
    else go && next == ClearRound(c1)
  }

  lemma AdmittedOutcome(c: Coord, block: Block, env: Env, go: bool, next: Coord)
    requires block.proposer != c.cfg.localId && Admits(c, block, go, next)
    ensures HandleReceivedBlock(c, block, env) ==
      if go then StartRound(next, block, env.tip, env.root, env.valid) else Out(next, [])
  {
    hide StartRound, ClearTerminal, ClearRound, Busy;
  }

  class BftCoordinator {
    var cfg: RoundConfig
    var stopped: bool
    var activeRound: BftRound?
    var reenteredHeight: Option<int>
    var pendingMessages: seq<Msg>
    var deferredBlock: Option<Block>
    var lastFinalizedHeight: int
    var localPreparedAt: map<int, Hash>
    var localCommittedAt: map<int, Hash>
    var localPreparedBlock: map<int, Block>
    const voteLedger: BftVoteLedger
    const equivocationDetector: EquivocationDetector
    var commitRetry: bool
    var prepareRetry: bool
    var linger: Option<Linger>
    /** Everything done to the outside world so far, in order. */
    ghost var trace: seq<Effect>
    /** What the file held when the process started. */
    ghost const base: Snapshot
    /** What a process starting then would have read: at the beginning and after each effect. */
    ghost var disks: seq<Snapshot>

    ghost function Repr(): set<object>
      reads this
    {
      {this, voteLedger, equivocationDetector} + (if activeRound != null then {activeRound} else {})
    }

    /** What a process starting now would read; nothing is promised of a file that refuses writes. */
    ghost function OnDisk(): Option<Snapshot>
      reads voteLedger.file
    {
      if voteLedger.file == null || !voteLedger.file.writable then None else Some(Loaded(voteLedger.file.content))
    }

    ghost predicate Valid()
      reads this, voteLedger, voteLedger.file
    {
      && equivocationDetector.caps.heights == TRACKED_HEIGHTS
      && InStep(base, trace, disks, voteLedger.Contents(), OnDisk())
    }

    ghost function CurrentRound(): Option<Active>
      reads this, activeRound
    {
      if activeRound == null then None else Some(Active(activeRound.config, activeRound.State()))
    }

    ghost function State(): Coord
      reads this, activeRound, voteLedger, equivocationDetector
    {
      Coord(cfg, stopped, CurrentRound(), reenteredHeight, pendingMessages, deferredBlock, lastFinalizedHeight,
            localPreparedAt, localCommittedAt, localPreparedBlock, voteLedger.Contents(),
            equivocationDetector.votes, commitRetry, prepareRetry, linger)
    }

    /** A process starting up: the maps come from the file. */
    constructor (cfg: RoundConfig, file: LedgerFile?)
      ensures Valid() && voteLedger.file == file && fresh(voteLedger) && fresh(equivocationDetector)
      ensures State() == Restart(cfg, if file == null then EMPTY else Loaded(file.content))
      ensures trace == [] && base == if file == null then EMPTY else Loaded(file.content)
    {
      this.cfg := cfg;
      stopped := false;
      activeRound := null;
      reenteredHeight := None;
      pendingMessages := [];
      deferredBlock := None;
      lastFinalizedHeight := 0;
      voteLedger := new BftVoteLedger(file);
      equivocationDetector := new EquivocationDetector(100, 1000, 100);
      localPreparedBlock := map[];
      commitRetry, prepareRetry := false, false;
      linger := None;
      trace, base := [], if file == null then EMPTY else Loaded(file.content);
      disks := [if file == null then EMPTY else Loaded(file.content)];
      new;
      localPreparedAt := voteLedger.prepared;
      localCommittedAt := voteLedger.committed;
    }

    /** Notes an effect that was just performed, and what the file holds after it. */
    ghost method Note(before: Snapshot, e: Effect)
      requires equivocationDetector.caps.heights == TRACKED_HEIGHTS
      requires InStep(base, trace, disks, before, if OnDisk().Some? then Some(before) else None)
      requires voteLedger.Contents() == DiskAfter(before, e)
      requires OnDisk().Some? ==> OnDisk().value == voteLedger.Contents()
      modifies `trace, `disks
      ensures Valid() && trace == old(trace) + [e]
    {
      hide InStep, DiskAfter;
      StaysInStep(base, trace, disks, before, e, OnDisk());
      trace, disks := trace + [e], disks + [if OnDisk().Some? then OnDisk().value else EMPTY];
    }

    /** In step, a writable file holds what the ledger holds. */
    lemma FileInStep()
      requires Valid()
      ensures OnDisk() == if OnDisk().Some? then Some(voteLedger.Contents()) else None
    {
    }

    method Broadcast(m: Msg)
      requires Valid()
      modifies `trace, `disks
      ensures Valid() && State() == old(State()) && trace == old(trace) + [Sent(m)]
    {
      FileInStep();
      hide InStep;
      Note(voteLedger.Contents(), Sent(m));
    }

    method Clear()
      requires Valid()
      modifies `activeRound, `commitRetry, `prepareRetry
      ensures Valid() && State() == ClearRound(old(State())) && activeRound == null
    {
      hide InStep;
      activeRound := null;
      commitRetry := false;
      prepareRetry := false;
    }

    method ClearIfTerminal()
      requires Valid()
      modifies `activeRound, `commitRetry, `prepareRetry
      ensures Valid() && State() == ClearTerminal(old(State()))
      ensures activeRound == null || activeRound == old(activeRound)
    {
      hide InStep;
      if activeRound != null && IsTerminal(activeRound.phase) {
        Clear();
      }
    }

    method WritePrepared(height: int, hash: Hash)
      requires Valid()
      modifies `trace, `disks, voteLedger, voteLedger.Files()`content
      ensures Valid()
      ensures State() == old(State()).(ledger := WithPrepared(old(voteLedger.Contents()), height, hash))
      ensures trace == old(trace) + ChangeLedger(old(voteLedger.Contents()), voteLedger.Contents())
    {
      FileInStep();
      hide InStep;
      ghost var before := voteLedger.Contents();
      var changed := voteLedger.RecordPrepared(height, hash);
      if changed { Note(before, Flushed(voteLedger.Contents())); }
    }

    method WriteCommitted(height: int, hash: Hash)
      requires Valid()
      modifies `trace, `disks, voteLedger, voteLedger.Files()`content
      ensures Valid()
      ensures State() == old(State()).(ledger := WithCommitted(old(voteLedger.Contents()), height, hash))
      ensures trace == old(trace) + ChangeLedger(old(voteLedger.Contents()), voteLedger.Contents())
    {
      FileInStep();
      hide InStep;
      ghost var before := voteLedger.Contents();
      var changed := voteLedger.RecordCommitted(height, hash);
      if changed { Note(before, Flushed(voteLedger.Contents())); }
    }

    method PushPending(msg: Msg)
      requires Valid()
      modifies `pendingMessages
      ensures Valid() && State() == Buffer(old(State()), msg)
      ensures BufferOk(old(pendingMessages)) ==> BufferOk(pendingMessages)
    {
      hide InStep, IsDuplicate;
      Buffering.BufferedOk(State(), msg);
      hide BufferOk;
      if |pendingMessages| < PENDING_CAP && !IsDuplicate(pendingMessages, msg) {
        pendingMessages := pendingMessages + [msg];
      }
    }

    // ----- Messages --------------------------------------------------------------------

    /** What `handleMessage` does up to, not including, a deferred block. */
    method Receive(msg: Msg, valid: set<Msg>) returns (finalized: bool)
      requires Valid()
      modifies Repr(), voteLedger.Files()`content
      ensures Valid() && (activeRound == null || activeRound == old(activeRound))
      ensures var d := Deliver(old(State()), msg, valid);
        State() == d.c && trace == old(trace) + d.fx && finalized == d.finalized
    {
      hide InStep, CountVote, Buffer;
      finalized := false;
      if activeRound == null {
        PushPending(msg);
        return;
      }
      if msg.height != activeRound.height {
        if activeRound.height < msg.height <= activeRound.height + FUTURE_GAP {
          PushPending(msg);
        }
        return;
      }
      if msg.kind == Propose || msg !in valid { return; }
      finalized := Count(msg);
    }

    method Count(msg: Msg) returns (finalized: bool)
      requires Valid() && activeRound != null && msg.kind != Propose && msg.height == activeRound.height
      modifies Repr(), voteLedger.Files()`content
      ensures Valid() && (activeRound == null || activeRound == old(activeRound))
      ensures var d := CountVote(old(State()), msg);
        State() == d.c && trace == old(trace) + d.fx && finalized == d.finalized
    {
      hide InStep, State, Valid, DeliverPrepare, DeliverCommit, Conflicts, Seen, Noted, KeepHighest;
      var conflict := Screen(msg);
      if conflict { return false; }
      if msg.kind == Prepare {
        finalized := CountPrepare(msg);
      } else {
        finalized := CountCommit(msg);
      }
    }

    /** Shows the vote to the detector and reports what it finds. */
    method Screen(msg: Msg) returns (conflict: bool)
      requires Valid() && activeRound != null && msg.kind != Propose
      modifies `trace, `disks, equivocationDetector
      ensures Valid()
      ensures var c := old(State());
        && conflict == Conflicts(c.seen, msg.sender, msg.height, msg.kind, msg.hash)
        && if conflict then
             var first := Seen(c.seen, msg.sender, msg.height, msg.kind).value.hash;
             State() == c && trace == old(trace) + [Accused(msg.sender, msg.height, msg.kind, first, msg.hash)]
           else
             && State() == c.(seen := KeepHighest(Noted(c.seen, msg.sender, msg.height, msg.kind, msg.hash, ""), TRACKED_HEIGHTS))
             && trace == old(trace)
    {
      FileInStep();
      hide InStep, Noted, KeepHighest;
      var found, _ := equivocationDetector.Record(msg.sender, msg.height, msg.kind, msg.hash, "");
      conflict := found.Some?;
      if conflict {
        StoreAddsOnly(old(equivocationDetector.State()), found.value, true, "");
        assert equivocationDetector.votes == old(equivocationDetector.votes);
        Note(voteLedger.Contents(), Accused(msg.sender, msg.height, msg.kind, found.value.hash1, msg.hash));
      }
    }

    method CountPrepare(msg: Msg) returns (finalized: bool)
      requires Valid() && activeRound != null
      modifies Repr(), voteLedger.Files()`content
      ensures Valid() && (activeRound == null || activeRound == old(activeRound))
      ensures var d := DeliverPrepare(old(State()), msg);
        State() == d.c && trace == old(trace) + d.fx && finalized == d.finalized
    {
      hide InStep, HandlePrepare, Finish, SendCommit;
      var outgoing := activeRound.PrepareVote(msg.sender, msg.hash, msg.root);
      if activeRound.phase == Finalized && activeRound.proposedBlock.Some? {
        Conclude(activeRound.proposedBlock.value);
        return true;
      }
      AfterPrepare(outgoing);
      return false;
    }

    /** The round goes on: let the commit out, if there is one, and keep repeating it in the commit phase. */
    method AfterPrepare(outgoing: seq<Msg>)
      requires Valid() && activeRound != null
      modifies `localCommittedAt, `commitRetry, `trace, `disks, voteLedger, voteLedger.Files()`content
      ensures Valid()
      ensures var c := old(State());
        var o := if outgoing == [] then Out(c, []) else SendCommit(c, outgoing[0]);
        && State() == o.c.(commitRetry := o.c.commitRetry || c.active.value.state.phase == Committing)
        && trace == old(trace) + o.fx
    {
      hide InStep, SendCommit;
      if outgoing != [] {
        EmitCommit(outgoing[0]);
      }
      if activeRound.phase == Committing {
        commitRetry := true;
      }
    }

    /** Write the commit ahead, then send it, unless another commit is on record. */
    method EmitCommit(m: Msg)
      requires Valid()
      modifies `localCommittedAt, `trace, `disks, voteLedger, voteLedger.Files()`content
      ensures Valid()
      ensures var o := SendCommit(old(State()), m); State() == o.c && trace == old(trace) + o.fx
    {
      ghost var c := State();
      assert c.committedAt == localCommittedAt && c.ledger == voteLedger.Contents();
      hide InStep, State, Valid, WithCommitted, ChangeLedger;
      if m.height in localCommittedAt && localCommittedAt[m.height] != m.hash { return; }
      RememberCommit(m.height, m.hash);
      ghost var flushed := ChangeLedger(c.ledger, WithCommitted(c.ledger, m.height, m.hash));
      Broadcast(m);
      assert old(trace) + flushed + [Sent(m)] == old(trace) + (flushed + [Sent(m)]);
    }

    method RememberCommit(height: int, hash: Hash)
      requires Valid()
      modifies `localCommittedAt, `trace, `disks, voteLedger, voteLedger.Files()`content
      ensures Valid()
      ensures var c := old(State());
        var ledger := WithCommitted(c.ledger, height, hash);
        && State() == c.(committedAt := c.committedAt[height := hash], ledger := ledger)
        && trace == old(trace) + ChangeLedger(c.ledger, ledger)
    {
      hide InStep, WithCommitted, ChangeLedger;
      localCommittedAt := localCommittedAt[height := hash];
      WriteCommitted(height, hash);
    }

    method CountCommit(msg: Msg) returns (finalized: bool)
      requires Valid() && activeRound != null
      modifies Repr(), voteLedger.Files()`content
      ensures Valid() && (activeRound == null || activeRound == old(activeRound))
      ensures var d := DeliverCommit(old(State()), msg);
        State() == d.c && trace == old(trace) + d.fx && finalized == d.finalized
    {
      hide InStep, HandleCommit, Finish;
      finalized := activeRound.CommitVote(msg.sender, msg.hash, msg.root);
      if finalized && activeRound.proposedBlock.Some? {
        Conclude(activeRound.proposedBlock.value);
        return true;
      }
      return false;
    }

    /** The round is finalized. */
    method Conclude(block: Block)
      requires Valid() && activeRound != null
      modifies `lastFinalizedHeight, `linger, `activeRound, `commitRetry, `prepareRetry, `trace, `disks
      modifies `localPreparedAt, `localCommittedAt, `localPreparedBlock, `reenteredHeight
      modifies voteLedger, voteLedger.Files()`content, equivocationDetector
      ensures Valid() && activeRound == null
      ensures var d := Finish(old(State()), block); State() == d.c && trace == old(trace) + d.fx
    {
      FileInStep();
      hide InStep, Later, Pruned, LingerFor, Loaded;
      ghost var before := voteLedger.Contents();
      var h := activeRound.height;
      WindUp(block);
      Note(before, PrunedTo(h, voteLedger.Contents()));
      FileInStep();
      Note(voteLedger.Contents(), FinalizedBlock(block));
    }

    /** Everything but handing the block on; the trace has yet to say so. */
    method WindUp(block: Block)
      requires Valid() && activeRound != null
      modifies `lastFinalizedHeight, `linger, `activeRound, `commitRetry, `prepareRetry
      modifies `localPreparedAt, `localCommittedAt, `localPreparedBlock, `reenteredHeight
      modifies voteLedger, voteLedger.Files()`content, equivocationDetector
      ensures activeRound == null && State() == Finish(old(State()), block).c
      ensures OnDisk().Some? && old(OnDisk() == Some(voteLedger.Contents())) ==> OnDisk().value == voteLedger.Contents()
    {
      hide InStep, Later, Pruned, LingerFor, Loaded;
      var h := activeRound.height;
      StartLinger(block);
      ghost var c1 := State();
      var _ := equivocationDetector.ClearEvidenceBefore(h + 1);
      assert State() == c1;
      PruneLocalVoteLedger(h);
    }

    method StartLinger(block: Block)
      requires Valid() && activeRound != null
      modifies `lastFinalizedHeight, `linger, `activeRound, `commitRetry, `prepareRetry
      ensures activeRound == null
      ensures State() == ClearRound(old(State())).(
        lastFinalized := old(activeRound.height), linger := Some(LingerFor(old(State()), block)))
    {
      hide InStep;
      var h, votes := activeRound.height, activeRound.prepareVotes;
      var root := if cfg.localId in votes then votes[cfg.localId].root else None;
      var prepare := if h in localPreparedAt && localPreparedAt[h] == block.hash
                     then Some(Msg(Prepare, h, block.hash, cfg.localId, root)) else None;
      Clear();
      lastFinalizedHeight := h;
      linger := Some(Linger(h, block.hash, prepare, LINGER_COUNT));
      assert linger.value == LingerFor(old(State()), block);
    }

    method PruneLocalVoteLedger(h: int)
      modifies `localPreparedAt, `localCommittedAt, `localPreparedBlock, `reenteredHeight
      modifies voteLedger, voteLedger.Files()`content
      ensures State() == old(State()).(
        preparedAt := Later(old(localPreparedAt), h),
        committedAt := Later(old(localCommittedAt), h),
        preparedBlock := Later(old(localPreparedBlock), h),
        reentered := if old(reenteredHeight).Some? && old(reenteredHeight).value <= h then None else old(reenteredHeight),
        ledger := Pruned(old(voteLedger.Contents()), h))
      ensures OnDisk().Some? && old(OnDisk() == Some(voteLedger.Contents())) ==> OnDisk().value == voteLedger.Contents()
    {
      hide Later, Pruned, Loaded;
      PruneMaps(h);
      PruneFile(h);
    }

    method PruneMaps(h: int)
      modifies `localPreparedAt, `localCommittedAt, `localPreparedBlock, `reenteredHeight
      ensures localPreparedAt == Later(old(localPreparedAt), h) && localCommittedAt == Later(old(localCommittedAt), h)
      ensures localPreparedBlock == Later(old(localPreparedBlock), h)
      ensures reenteredHeight ==
        if old(reenteredHeight).Some? && old(reenteredHeight).value <= h then None else old(reenteredHeight)
    {
      hide Later;
      localPreparedAt := DropUpTo(localPreparedAt, h);
      localCommittedAt := DropUpTo(localCommittedAt, h);
      localPreparedBlock := DropUpTo(localPreparedBlock, h);
      if reenteredHeight.Some? && reenteredHeight.value <= h { reenteredHeight := None; }
    }

    method PruneFile(h: int)
      modifies voteLedger, voteLedger.Files()`content
      ensures voteLedger.Contents() == Pruned(old(voteLedger.Contents()), h)
      ensures OnDisk().Some? && old(OnDisk() == Some(voteLedger.Contents())) ==> OnDisk().value == voteLedger.Contents()
    {
      voteLedger.Prune(h);
    }

    method HandleBftMessage(msg: Msg, env: Env)
      requires Valid()
      modifies Repr(), voteLedger.Files()`content
      ensures Valid() && fresh(Repr() - old(Repr()))
      ensures var o := HandleMessage(old(State()), msg, env); State() == o.c && trace == old(trace) + o.fx
    {
      hide State, Valid, Deliver, ProcessDeferred;
      var finalized := Receive(msg, env.valid);
      if finalized {
        ghost var before := State();
        ProcessDeferredBlock(env);
        var d, r := Deliver(old(State()), msg, env.valid), ProcessDeferred(before, env);
        assert old(trace) + d.fx + r.fx == old(trace) + (d.fx + r.fx);
      }
    }

    // ----- Starting rounds -----------------------------------------------------------------

    method Start(block: Block, tip: Option<int>, root: Option<Hash>, valid: set<Msg>)
      requires Valid()
      modifies Repr(), voteLedger.Files()`content
      ensures Valid() && fresh(Repr() - old(Repr()))
      ensures var o := StartRound(old(State()), block, tip, root, valid); State() == o.c && trace == old(trace) + o.fx
    {
      hide State, Valid, StartCheck, StartFinish;
      var proceed := CheckStart(block, tip);
      if proceed {
        FinishStart(block, root, valid);
      }
    }

    method CheckStart(block: Block, tip: Option<int>) returns (proceed: bool)
      requires Valid()
      modifies this
      ensures Valid() && trace == old(trace)
      ensures activeRound == null || activeRound == old(activeRound)
      ensures proceed <==> StartCheck(old(State()), block, tip).Proceed?
      ensures State() == StartCheck(old(State()), block, tip).c
    {
      hide InStep, ClearRound, ClearTerminal, HoldsBack;
      if stopped { return false; }
      if block.number <= Floor(lastFinalizedHeight, tip) { return false; }
      ClearIfTerminal();
      var holdsBack := RoundHoldsBack(block);
      if holdsBack {
        deferredBlock := Some(block);
        return false;
      }
      if block.number in localPreparedAt && localPreparedAt[block.number] != block.hash { return false; }
      Clear();
      deferredBlock := None;
      return true;
    }

    method RoundHoldsBack(block: Block) returns (yes: bool)
      ensures yes == HoldsBack(State(), block)
    {
      if activeRound == null { return false; }
      var hasProgress := activeRound.prepareVotes != map[] || activeRound.commitVotes != map[];
      var superseded := reenteredHeight == Some(activeRound.height) && block.number > activeRound.height;
      return (activeRound.phase == Preparing || activeRound.phase == Committing) && hasProgress && !superseded;
    }

    method Open(block: Block, root: Option<Hash>)
      requires Valid()
      modifies `activeRound, `localPreparedAt, `localPreparedBlock, `prepareRetry, `trace, `disks
      modifies voteLedger, voteLedger.Files()`content
      ensures Valid() && activeRound != null && fresh(activeRound)
      ensures var o := OpenRound(old(State()), block, root); State() == o.c && trace == old(trace) + o.fx
    {
      hide InStep, HandlePropose, WithPrepared, ChangeLedger;
      activeRound := new BftRound(block.number, cfg);
      var outgoing := activeRound.Propose(block, block.proposer, root);
      if outgoing != [] {
        EmitPrepare(block, outgoing[0]);
      }
    }

    method EmitPrepare(block: Block, m: Msg)
      requires Valid()
      modifies `localPreparedAt, `localPreparedBlock, `prepareRetry, `trace, `disks
      modifies voteLedger, voteLedger.Files()`content
      ensures Valid()
      ensures var c := old(State());
        var ledger := WithPrepared(c.ledger, block.number, block.hash);
        && State() == c.(
             preparedAt := c.preparedAt[block.number := block.hash],
             preparedBlock := c.preparedBlock[block.number := block],
             ledger := ledger,
             prepareRetry := true)
        && trace == old(trace) + (ChangeLedger(c.ledger, ledger) + [Sent(m)])
    {
      hide InStep, State, Valid, WithPrepared, ChangeLedger;
      ghost var ledger := old(State()).ledger;
      RememberPrepare(block);
      ghost var flushed := ChangeLedger(ledger, WithPrepared(ledger, block.number, block.hash));
      Broadcast(m);
      assert old(trace) + flushed + [Sent(m)] == old(trace) + (flushed + [Sent(m)]);
    }

    method RememberPrepare(block: Block)
      requires Valid()
      modifies `localPreparedAt, `localPreparedBlock, `prepareRetry, `trace, `disks
      modifies voteLedger, voteLedger.Files()`content
      ensures Valid()
      ensures var c := old(State());
        var ledger := WithPrepared(c.ledger, block.number, block.hash);
        && State() == c.(
             preparedAt := c.preparedAt[block.number := block.hash],
             preparedBlock := c.preparedBlock[block.number := block],
             ledger := ledger,
             prepareRetry := true)
        && trace == old(trace) + ChangeLedger(c.ledger, ledger)
    {
      hide InStep, WithPrepared, ChangeLedger;
      localPreparedAt := localPreparedAt[block.number := block.hash];
      localPreparedBlock := localPreparedBlock[block.number := block];
      prepareRetry := true;
      WritePrepared(block.number, block.hash);
    }

    method FinishStart(block: Block, root: Option<Hash>, valid: set<Msg>)
      requires Valid()
      modifies this, voteLedger, voteLedger.Files()`content, equivocationDetector
      ensures Valid() && (activeRound == null || fresh(activeRound))
      ensures var o := StartFinish(old(State()), block, root, valid); State() == o.c && trace == old(trace) + o.fx
    {
      hide State, Valid, OpenRound, Drain, Select, Newer;
      Open(block, root);
      ghost var o := OpenRound(old(State()), block, root);
      var buffered := TakeBuffered(block.number);
      ghost var r := Drain(State(), buffered, valid);
      DrainBuffered(buffered, valid);
      RetryIfCommitting();
      assert old(trace) + o.fx + r.fx == old(trace) + (o.fx + r.fx);
    }

    /** Prepares first, then commits; everything not newer is dropped from the buffer. */
    method TakeBuffered(height: int) returns (buffered: seq<Msg>)
      requires Valid()
      modifies `pendingMessages
      ensures Valid() && State() == old(State()).(pending := Newer(old(State()).pending, height))
      ensures buffered == Select(old(State()).pending, height, false) + Select(old(State()).pending, height, true)
    {
      hide InStep, Select, Newer;
      buffered := Select(pendingMessages, height, false) + Select(pendingMessages, height, true);
      pendingMessages := Newer(pendingMessages, height);
    }

    method RetryIfCommitting()
      requires Valid()
      modifies `commitRetry
      ensures Valid() && State() ==
        if old(State()).active.Some? && old(State()).active.value.state.phase == Committing
        then old(State()).(commitRetry := true) else old(State())
    {
      hide InStep;
      if activeRound != null && activeRound.phase == Committing {
        commitRetry := true;
      }
    }

    /** The deferred block was dropped when the round started, so each message is just delivered. */
    method DrainBuffered(msgs: seq<Msg>, valid: set<Msg>)
      requires Valid() && activeRound != null
      modifies Repr(), voteLedger.Files()`content
      ensures Valid() && (activeRound == null || activeRound == old(activeRound))
      ensures var o := Drain(old(State()), msgs, valid); State() == o.c && trace == old(trace) + o.fx
    {
      hide InStep, Deliver;
      ghost var fx: seq<Effect> := [];
      var i := 0;
      while i < |msgs| && activeRound != null
        invariant 0 <= i <= |msgs|
        invariant Valid() && (activeRound == null || activeRound == old(activeRound))
        invariant trace == old(trace) + fx
        invariant var o := Drain(State(), msgs[i..], valid);
          Drain(old(State()), msgs, valid) == Out(o.c, fx + o.fx)
      {
        ghost var before := State();
        assert msgs[i..][0] == msgs[i] && msgs[i..][1..] == msgs[i + 1..];
        var _ := Receive(msgs[i], valid);
        ghost var d := Deliver(before, msgs[i], valid);
        ghost var rest := Drain(d.c, msgs[i + 1..], valid);
        assert fx + (d.fx + rest.fx) == (fx + d.fx) + rest.fx;
        fx := fx + d.fx;
        i := i + 1;
      }
      assert fx + [] == fx;
    }

    method ProcessDeferredBlock(env: Env)
      requires Valid()
      modifies Repr(), voteLedger.Files()`content
      ensures Valid() && fresh(Repr() - old(Repr()))
      ensures var o := ProcessDeferred(old(State()), env); State() == o.c && trace == old(trace) + o.fx
    {
      hide InStep, StartRound;
      var deferred := deferredBlock;
      deferredBlock := None;
      if deferred.None? { return; }
      if deferred.value.number <= Floor(lastFinalizedHeight, env.tip) { return; }
      Start(deferred.value, env.tipAfter, env.root, env.valid);
    }

    method ReceiveBlock(block: Block, env: Env)
      requires Valid()
      modifies Repr(), voteLedger.Files()`content
      ensures Valid() && fresh(Repr() - old(Repr()))
      ensures var o := HandleReceivedBlock(old(State()), block, env); State() == o.c && trace == old(trace) + o.fx
    {
      if block.proposer == cfg.localId { return; }
      assert State().cfg.localId == cfg.localId;
      hide State, Valid, StartRound, Admits, HandleReceivedBlock;
      var go := AdmitBlock(block);
      AdmittedOutcome(old(State()), block, env, go, State());
      if go {
        Start(block, env.tip, env.root, env.valid);
      }
    }

    /** Ignores the block, defers it behind a busy round, or makes way for it. */
    method AdmitBlock(block: Block) returns (go: bool)
      requires Valid()
      modifies this
      ensures Valid() && trace == old(trace) && (activeRound == null || activeRound == old(activeRound))
      ensures Admits(old(State()), block, go, State())
    {
      hide InStep, ClearTerminal, ClearRound, Busy;
      ClearIfTerminal();
      if activeRound == null { return true; }
      if block.number <= activeRound.height { return false; }
      var busy := RoundIsBusy(block);
      if busy {
        deferredBlock := Some(block);
        return false;
      }
      Clear();
      return true;
    }

    method RoundIsBusy(block: Block) returns (busy: bool)
      requires activeRound != null
      ensures busy == Busy(State(), block)
    {
      var hasVotes := |activeRound.prepareVotes| > 1 || activeRound.commitVotes != map[];
      var superseded := reenteredHeight == Some(activeRound.height) && block.number > activeRound.height;
      return (activeRound.phase == Committing || (activeRound.phase == Preparing && hasVotes)) && !superseded;
    }

    // ----- Timers and resets ------------------------------------------------------------------

    method ReenterLocallyPreparedRound(height: int)
      requires Valid()
      modifies `deferredBlock, `reenteredHeight
      ensures Valid() && State() == Reenter(old(State()), height)
    {
      hide InStep;
      if stopped { return; }
      if deferredBlock.Some? && deferredBlock.value.number > height { return; }
      if height !in localPreparedBlock { return; }
      deferredBlock := Some(localPreparedBlock[height]);
      reenteredHeight := Some(height);
    }

    method OnTimeout(env: Env)
      requires Valid()
      modifies Repr(), voteLedger.Files()`content
      ensures Valid() && fresh(Repr() - old(Repr()))
      ensures var o := Timeout(old(State()), env); State() == o.c && trace == old(trace) + o.fx
    {
      hide InStep, ProcessDeferred, Reenter;
      if activeRound == null || IsTerminal(activeRound.phase) { return; }
      var timedOutHeight := activeRound.height;
      activeRound.Abort();
      Clear();
      ReenterLocallyPreparedRound(timedOutHeight);
      ProcessDeferredBlock(env);
    }

    method OnLivenessStall(env: Env)
      requires Valid()
      modifies Repr(), voteLedger.Files()`content
      ensures Valid() && fresh(Repr() - old(Repr()))
      ensures var o := LivenessReset(old(State()), env); State() == o.c && trace == old(trace) + o.fx
    {
      if activeRound == null { return; }
      var stuckHeight := activeRound.height;
      assert stuckHeight == State().active.value.state.height;
      hide State, Valid, InStep, ProcessDeferred, Reenter;
      Abandon();
      ReenterLocallyPreparedRound(stuckHeight);
      ProcessDeferredBlock(env);
    }

    /** Drops the round and everything waiting. */
    method Abandon()
      requires Valid()
      modifies `activeRound, `commitRetry, `prepareRetry, `pendingMessages, `deferredBlock
      ensures Valid() && State() == ClearRound(old(State())).(pending := [], deferred := None) && activeRound == null
    {
      hide InStep;
      Clear();
      pendingMessages := [];
      deferredBlock := None;
    }

    method ForceClearRound()
      requires Valid()
      modifies `activeRound, `commitRetry, `prepareRetry
      ensures Valid() && State() == ForceClear(old(State()))
      ensures activeRound == null || activeRound == old(activeRound)
    {
      hide InStep;
      if activeRound == null { return; }
      Clear();
    }

    method Halt()
      requires Valid()
      modifies this
      ensures Valid() && State() == Stop(old(State())) && trace == old(trace) && activeRound == null
    {
      hide InStep;
      Abandon();
      stopped := true;
      reenteredHeight := None;
      linger := None;
    }

    method OnCommitTick()
      requires Valid()
      modifies `commitRetry, `trace, `disks
      ensures Valid()
      ensures var o := CommitTick(old(State())); State() == o.c && trace == old(trace) + o.fx
    {
      hide InStep;
      if !commitRetry { return; }
      if activeRound == null || activeRound.phase != Committing {
        commitRetry := false;
        return;
      }
      if activeRound.proposedBlock.None? || activeRound.proposedBlock.value.hash == "" { return; }
      Broadcast(Msg(Commit, activeRound.height, activeRound.proposedBlock.value.hash, cfg.localId, None));
    }

    method OnPrepareTick()
      requires Valid()
      modifies `prepareRetry, `trace, `disks
      ensures Valid()
      ensures var o := PrepareTick(old(State())); State() == o.c && trace == old(trace) + o.fx
    {
      hide InStep;
      if !prepareRetry { return; }
      if activeRound == null || (activeRound.phase != Preparing && activeRound.phase != Committing) {
        prepareRetry := false;
        return;
      }
      if activeRound.proposedBlock.None? || activeRound.proposedBlock.value.hash == "" { return; }
      var h, hash := activeRound.height, activeRound.proposedBlock.value.hash;
      if h !in localPreparedAt || localPreparedAt[h] != hash { return; }
      RepeatVotes(h, hash);
    }

    method RepeatVotes(h: int, hash: Hash)
      requires Valid() && activeRound != null
      modifies `trace, `disks
      ensures Valid() && State() == old(State())
      ensures var s := old(State()).active.value.state;
        var root := if cfg.localId in s.prepareVotes then s.prepareVotes[cfg.localId].root else None;
        var again := if s.phase == Preparing && h in localCommittedAt && localCommittedAt[h] == hash
                     then [Sent(Msg(Commit, h, hash, cfg.localId, None))] else [];
        trace == old(trace) + ([Sent(Msg(Prepare, h, hash, cfg.localId, root))] + again)
    {
      var votes := activeRound.prepareVotes;
      var root := if cfg.localId in votes then votes[cfg.localId].root else None;
      var again := activeRound.phase == Preparing && h in localCommittedAt && localCommittedAt[h] == hash;
      hide InStep, Valid;
      Broadcast(Msg(Prepare, h, hash, cfg.localId, root));
      if again {
        Broadcast(Msg(Commit, h, hash, cfg.localId, None));
      }
    }

    method OnLingerTick()
      requires Valid()
      modifies `linger, `trace, `disks
      ensures Valid()
      ensures var o := LingerTick(old(State())); State() == o.c && trace == old(trace) + o.fx
    {
      hide InStep;
      if linger.None? { return; }
      var l := linger.value;
      if l.remaining == 0 {
        linger := None;
        return;
      }
      linger := Some(l.(remaining := l.remaining - 1));
      assert State() == LingerTick(old(State())).c;
      hide State, Valid;
      if l.prepare.Some? { Broadcast(l.prepare.value); }
      Broadcast(Msg(Commit, l.height, l.hash, cfg.localId, None));
    }

    method ReplayUnfinalizedVotes(tip: Option<int>) returns (commits: seq<int>, prepares: seq<int>, ghost fx: seq<Effect>)
      requires Valid()
      modifies `trace, `disks
      ensures Valid() && State() == old(State()) && trace == old(trace) + fx
      ensures IsReplay(State(), Floor(lastFinalizedHeight, tip), commits, prepares, fx)
    {
      hide IsReplay, CommitsRepeated, PreparesRepeated;
      var floor := Floor(lastFinalizedHeight, tip);
      ghost var fx1, fx2;
      commits, fx1 := RepeatCommits(floor);
      prepares, fx2 := RepeatPrepares(floor);
      fx := fx1 + fx2;
      assert old(trace) + fx1 + fx2 == old(trace) + fx;
      ReplayInTwoParts(State(), floor, commits, fx1, prepares, fx2);
    }

    method RepeatCommits(floor: int) returns (commits: seq<int>, ghost fx: seq<Effect>)
      requires Valid()
      modifies `trace, `disks
      ensures Valid() && State() == old(State()) && trace == old(trace) + fx
      ensures CommitsRepeated(State(), floor, {}, commits, fx)
    {
      hide CommitsRepeated, InStep;
      ghost var c := State();
      commits, fx := [], [];
      var todo := localCommittedAt.Keys;
      NothingRepeated(c, floor);
      while todo != {}
        invariant todo <= localCommittedAt.Keys
        invariant Valid() && State() == c && trace == old(trace) + fx
        invariant CommitsRepeated(c, floor, todo, commits, fx)
        decreases todo
      {
        Inhabited(todo);
        var h :| h in todo;
        OneMoreCommit(c, floor, todo, commits, fx, h);
        todo := todo - {h};
        if h > floor {
          Broadcast(Msg(Commit, h, localCommittedAt[h], cfg.localId, None));
          fx := fx + [Sent(ReplayedCommit(c, h))];
          commits := commits + [h];
        }
      }
    }

    method RepeatPrepares(floor: int) returns (prepares: seq<int>, ghost fx: seq<Effect>)
      requires Valid()
      modifies `trace, `disks
      ensures Valid() && State() == old(State()) && trace == old(trace) + fx
      ensures PreparesRepeated(State(), floor, {}, prepares, fx)
    {
      hide PreparesRepeated, InStep;
      ghost var c := State();
      prepares, fx := [], [];
      var todo := localPreparedAt.Keys;
      NothingRepeated(c, floor);
      while todo != {}
        invariant todo <= localPreparedAt.Keys
        invariant Valid() && State() == c && trace == old(trace) + fx
        invariant PreparesRepeated(c, floor, todo, prepares, fx)
        decreases todo
      {
        Inhabited(todo);
        var h :| h in todo;
        OneMorePrepare(c, floor, todo, prepares, fx, h);
        todo := todo - {h};
        if h > floor && h !in localCommittedAt {
          Broadcast(Msg(Prepare, h, localPreparedAt[h], cfg.localId, None));
          fx := fx + [Sent(ReplayedPrepare(c, h))];
          prepares := prepares + [h];
        }
      }
    }

    method SetValidators(vals: seq<Validator>)
      requires Valid()
      modifies this, voteLedger, voteLedger.Files()`content
      ensures Valid() && (activeRound == null || activeRound == old(activeRound))
      ensures var o := UpdateValidators(old(State()), vals); State() == o.c && trace == old(trace) + o.fx
    {
      hide InStep, Ids, ForceClear, ChangeLedger;
      var membershipChanged := Ids(cfg.validators) != Ids(vals);
      if !membershipChanged {
        cfg := cfg.(validators := vals);
        return;
      }
      ForceClearRound();
      ForgetVotes();
      Reconfigure(vals);
    }

    method Reconfigure(vals: seq<Validator>)
      requires Valid()
      modifies `cfg, `reenteredHeight, `pendingMessages, `deferredBlock
      ensures Valid()
      ensures State() == old(State()).(
        cfg := old(cfg).(validators := vals), reentered := None, pending := [], deferred := None)
    {
      hide InStep;
      cfg := cfg.(validators := vals);
      reenteredHeight := None;
      pendingMessages := [];
      deferredBlock := None;
    }

    method ForgetVotes()
      requires Valid()
      modifies `localPreparedAt, `localCommittedAt, `localPreparedBlock, `trace, `disks
      modifies voteLedger, voteLedger.Files()`content
      ensures Valid() && (OnDisk().Some? ==> OnDisk().value == EMPTY)
      ensures State() == old(State()).(preparedAt := map[], committedAt := map[], preparedBlock := map[], ledger := EMPTY)
      ensures trace == old(trace) + ChangeLedger(old(voteLedger.Contents()), EMPTY)
    {
      WipeLedger();
      FileInStep();
      hide InStep;
      localPreparedAt, localCommittedAt, localPreparedBlock := map[], map[], map[];
    }

    method WipeLedger()
      requires Valid()
      modifies `trace, `disks, voteLedger, voteLedger.Files()`content
      ensures Valid()
      ensures State() == old(State()).(ledger := EMPTY)
      ensures trace == old(trace) + ChangeLedger(old(voteLedger.Contents()), EMPTY)
    {
      FileInStep();
      hide InStep;
      ghost var before := voteLedger.Contents();
      var changed := voteLedger.ClearAll();
      if changed { Note(before, Flushed(voteLedger.Contents())); }
    }

    // ----- Safety of the object -----------------------------------------------------------------

    /** Whole calls; what happens between the awaits of a call is not a method of its own. */
    static predicate IsMethod(ev: Event) {
      !ev.OpenEvent? && !ev.DeliverEvent? && !ev.RepeatEvent? && !ev.QuietEvent?
    }

    /** Every call is a step of the state machine; a replay finds its own order. */
    method Call(ev: Event) returns (ghost taken: Event, ghost fx: seq<Effect>)
      requires Valid() && IsMethod(ev)
      modifies Repr(), voteLedger.Files()`content
      ensures Valid() && fresh(Repr() - old(Repr())) && trace == old(trace) + fx
      ensures taken == ev || (ev.ReplayEvent? && taken.ReplayEvent?)
      ensures Step(old(State()), taken, Out(State(), fx))
      ensures BufferOk(old(State()).pending) ==> BufferOk(State().pending)
    {
      hide BufferOk, State, Valid, StartRound, HandleMessage, HandleReceivedBlock, Timeout, LivenessReset, UpdateValidators;
      hide CommitTick, PrepareTick, LingerTick, IsReplay, ForceClear, Stop;
      taken := ev;
      match ev {
        case StartEvent(block, env) => Start(block, env.tip, env.root, env.valid);
        case MessageEvent(msg, env) => HandleBftMessage(msg, env);
        case BlockEvent(block, env) => ReceiveBlock(block, env);
        case TimeoutEvent(env) => OnTimeout(env);
        case LivenessEvent(env) => OnLivenessStall(env);
        case ForceClearEvent => ForceClearRound();
        case CommitTickEvent => OnCommitTick();
        case PrepareTickEvent => OnPrepareTick();
        case LingerTickEvent => OnLingerTick();
        case ReplayEvent(tip, _, _) =>
          assert State().lastFinalized == lastFinalizedHeight by { StateFloor(); }
          var commits, prepares, _ := ReplayUnfinalizedVotes(tip);
          taken := ReplayEvent(tip, commits, prepares);
        case StopEvent => Halt();
        case UpdateEvent(vals) => SetValidators(vals);
      }
      fx := trace[|old(trace)|..];
      if BufferOk(old(State()).pending) {
        Buffering.StepKeepsBuffer(old(State()), taken, Out(State(), fx));
      }
    }

    lemma StateFloor()
      ensures State().lastFinalized == lastFinalizedHeight
    {
    }

    /**
     * Any call keeps the object's whole history safe: from the file it started with, the votes it sent, the file
     * and the blocks it finalized satisfied the safety invariant after every single effect.
     */
    method Take(ev: Event, ghost p: Params, ghost start: World)
      requires Valid() && IsMethod(ev) && start.disk == base && Good(p, start, State(), trace)
      requires EventOk(p, State(), PerformAll(p, start, trace), ev)
      modifies Repr(), voteLedger.Files()`content
      ensures Valid() && fresh(Repr() - old(Repr())) && old(trace) <= trace
      ensures Good(p, start, State(), trace)
    {
      hide State, Valid, Good, PerformAll, Step;
      ghost var c, w := State(), PerformAll(p, start, trace);
      ghost var taken, fx := Call(ev);
      GoodParts(p, start, c, old(trace));
      hide NodeInv, Safe;
      StepKeeps(p, c, w, taken, Out(State(), fx));
      GoodConcat(p, start, old(trace), State(), fx);
    }

    /**
     * A crash after any prefix of what the object did leaves a file from which the next process starts with the
     * safety invariant: while the file is writable, it held then what the state machine says it held.
     */
    lemma CrashAnywhere(p: Params, start: World, k: nat, next: RoundConfig)
      requires Valid() && OnDisk().Some? && start.disk == base && Good(p, start, State(), trace)
      requires k <= |trace| && p.InUse(next)
      ensures |disks| == |trace| + 1 && disks[k] == PerformAll(p, start, trace[..k]).disk
      ensures NodeInv(p, Restart(next, disks[k]), PerformAll(p, start, trace[..k]))
      ensures OnDisk() == Some(disks[|trace|])
    {
      hide State;
      GoodParts(p, start, State(), trace);
      SafePrefix(p, start, trace, k);
      DiskIsWorlds(p, start, trace[..k]);
      assert trace[..|trace|] == trace;
      RestartKeeps(p, next, PerformAll(p, start, trace[..k]));
    }
  }

  /** A process that has just started has a safe history, whatever durable state it starts from. */
  lemma StartIsGood(p: Params, cfg: RoundConfig, start: World)
    requires p.Fits() && p.InUse(cfg) && Durable(p, start)
    ensures Good(p, start, Restart(cfg, start.disk), [])
  {
    RestartKeeps(p, cfg, start);
    NothingDone(p, Restart(cfg, start.disk), start);
  }
}
