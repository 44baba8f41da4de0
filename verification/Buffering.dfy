/**
 * The buffer of messages for rounds that have not begun: whatever the coordinator does, at most fifty messages
 * wait in it, and no two of one sender, kind and height.
 */
module Buffering {
  import opened BftTypes
  import opened Quorum
  import opened Round
  import opened VoteLedger
  import opened EquivocationDetection
  import opened Coordinator

  ghost predicate BufferKept(c: Coord, c': Coord) {
    BufferOk(c.pending) ==> BufferOk(c'.pending)
  }

  lemma BufferedOk(c: Coord, msg: Msg)
    ensures BufferKept(c, Buffer(c, msg))
  {
  }

  lemma {:induction false} NewerApart(msgs: seq<Msg>, height: int)
    requires AllApart(msgs)
    ensures |Newer(msgs, height)| <= |msgs| && AllApart(Newer(msgs, height))
    ensures forall m :: m in Newer(msgs, height) ==> m in msgs
  {
    if msgs != [] {
      hide Apart;
      var rest, all := Newer(msgs[1..], height), Newer(msgs, height);
      NewerApart(msgs[1..], height);
      forall i | 0 <= i < |rest| ensures Apart(msgs[0], rest[i]) {
        assert rest[i] in msgs[1..];
      }
      if msgs[0].height > height {
        assert all == [msgs[0]] + rest;
      }
    }
  }

  lemma DroppedOk(before: seq<Msg>, after: seq<Msg>)
    requires BufferOk(before) && OnlyDrops(before, after)
    ensures BufferOk(after)
  {
    hide AllApart;
    if after != before && after != [] {
      var h :| after == Newer(before, h);
      NewerApart(before, h);
    } else {
      assert AllApart([]) by { NoneApart(); }
    }
  }

  lemma NoneApart()
    ensures AllApart([])
  {
  }

  lemma EmptyBufferOk()
    ensures BufferOk([])
  {
  }

  /** Counting a vote leaves the buffer alone; any other message at most joins it. */
  lemma DeliverBuffer(c: Coord, msg: Msg, valid: set<Msg>)
    ensures BufferKept(c, Deliver(c, msg, valid).c)
  {
    BufferedOk(c, msg);
    hide BufferOk, Buffer, CountVote;
    if c.active.Some? {
      CountBuffer(c, msg);
    }
  }

  lemma CountBuffer(c: Coord, msg: Msg)
    requires c.active.Some?
    ensures CountVote(c, msg).c.pending == c.pending
  {
    hide DeliverPrepare, DeliverCommit, Conflicts, Seen, Noted, KeepHighest;
    var c1 := c.(seen := KeepHighest(Noted(c.seen, msg.sender, msg.height, msg.kind, msg.hash, ""), TRACKED_HEIGHTS));
    PrepareBuffer(c1, msg);
    CommitBuffer(c1, msg);
  }

  lemma PrepareBuffer(c: Coord, msg: Msg)
    requires c.active.Some?
    ensures DeliverPrepare(c, msg).c.pending == c.pending
  {
    hide HandlePrepare, Finish, SendCommit;
    var a := c.active.value;
    var (s, out) := HandlePrepare(a.cfg, a.state, msg.sender, msg.hash, msg.root);
    if out != [] {
      SendBuffer(c.(active := Some(a.(state := s))), out[0]);
    }
  }

  lemma SendBuffer(c: Coord, m: Msg)
    ensures SendCommit(c, m).c.pending == c.pending
  {
    hide WithCommitted, ChangeLedger;
  }

  lemma CommitBuffer(c: Coord, msg: Msg)
    requires c.active.Some?
    ensures DeliverCommit(c, msg).c.pending == c.pending
  {
    hide HandleCommit, Finish;
  }

  lemma {:induction false} DrainBuffer(c: Coord, msgs: seq<Msg>, valid: set<Msg>)
    ensures BufferKept(c, Drain(c, msgs, valid).c)
    decreases |msgs|
  {
    hide Deliver, BufferOk;
    if msgs != [] && c.active.Some? {
      DeliverBuffer(c, msgs[0], valid);
      DrainBuffer(Deliver(c, msgs[0], valid).c, msgs[1..], valid);
    }
  }

  lemma FinishBuffer(c: Coord, block: Block, root: Option<Hash>, valid: set<Msg>)
    ensures BufferKept(c, StartFinish(c, block, root, valid).c)
  {
    hide OpenRound, Drain, Select, Newer, BufferOk;
    if BufferOk(c.pending) {
      DroppedOk(c.pending, Newer(c.pending, block.number));
    }
    var o := OpenRound(c, block, root);
    var buffered := Select(c.pending, block.number, false) + Select(c.pending, block.number, true);
    DrainBuffer(o.c.(pending := Newer(c.pending, block.number)), buffered, valid);
  }

  lemma CheckBuffer(c: Coord, block: Block, tip: Option<int>)
    ensures StartCheck(c, block, tip).c.pending == c.pending
  {
    hide Floor, HoldsBack;
  }

  lemma StartBuffer(c: Coord, block: Block, tip: Option<int>, root: Option<Hash>, valid: set<Msg>)
    ensures BufferKept(c, StartRound(c, block, tip, root, valid).c)
  {
    hide StartCheck, StartFinish, BufferOk;
    CheckBuffer(c, block, tip);
    FinishBuffer(StartCheck(c, block, tip).c, block, root, valid);
  }

  lemma DeferredBuffer(c: Coord, env: Env)
    ensures BufferKept(c, ProcessDeferred(c, env).c)
  {
    hide StartRound, BufferOk, Floor;
    if c.deferred.Some? {
      StartBuffer(c.(deferred := None), c.deferred.value, env.tipAfter, env.root, env.valid);
    }
  }

  lemma MessageBuffer(c: Coord, msg: Msg, env: Env)
    ensures BufferKept(c, HandleMessage(c, msg, env).c)
  {
    hide Deliver, ProcessDeferred, BufferOk;
    DeliverBuffer(c, msg, env.valid);
    DeferredBuffer(Deliver(c, msg, env.valid).c, env);
  }

  lemma BlockBuffer(c: Coord, block: Block, env: Env)
    ensures BufferKept(c, HandleReceivedBlock(c, block, env).c)
  {
    hide StartRound, BufferOk, Busy;
    var c1 := ClearTerminal(c);
    StartBuffer(c1, block, env.tip, env.root, env.valid);
    StartBuffer(ClearRound(c1), block, env.tip, env.root, env.valid);
  }

  lemma TimerBuffer(c: Coord, env: Env)
    ensures BufferKept(c, Timeout(c, env).c) && BufferKept(c, LivenessReset(c, env).c)
  {
    NoneApart();
    hide ProcessDeferred, AllApart;
    if c.active.Some? {
      var h := c.active.value.state.height;
      DeferredBuffer(Reenter(ClearRound(c), h), env);
      DeferredBuffer(Reenter(ClearRound(c).(pending := [], deferred := None), h), env);
    }
  }

  lemma UpdateBuffer(c: Coord, vals: seq<Validator>)
    ensures BufferKept(c, UpdateValidators(c, vals).c)
  {
    NoneApart();
    hide AllApart, Ids;
  }

  lemma CommitTickBuffer(c: Coord)
    ensures CommitTick(c).c.pending == c.pending
  {
  }

  lemma LingerTickBuffer(c: Coord)
    ensures LingerTick(c).c.pending == c.pending
  {
  }

  lemma PrepareTickBuffer(c: Coord)
    ensures PrepareTick(c).c.pending == c.pending
  {
  }

  lemma ClearsBuffer(c: Coord)
    ensures ForceClear(c).pending == c.pending && BufferOk(Stop(c).pending)
  {
    NoneApart();
    hide AllApart;
  }

  /** Every step of the coordinator keeps the buffer within its bounds. */
  lemma StepKeepsBuffer(c: Coord, ev: Event, o: Out)
    requires Step(c, ev, o) && BufferOk(c.pending)
    ensures BufferOk(o.c.pending)
  {
    hide BufferOk, StartRound, HandleMessage, HandleReceivedBlock, Timeout, LivenessReset, CommitTick, PrepareTick, LingerTick;
    hide IsReplay, OnRecord, SameVotes, OnlyDrops, UpdateValidators, Deliver, OpenRound, Stop, ForceClear;
    CommitTickBuffer(c);
    LingerTickBuffer(c);
    PrepareTickBuffer(c);
    ClearsBuffer(c);
    match ev
    case StartEvent(block, env) => StartBuffer(c, block, env.tip, env.root, env.valid);
    case MessageEvent(msg, env) => MessageBuffer(c, msg, env);
    case BlockEvent(block, env) => BlockBuffer(c, block, env);
    case TimeoutEvent(env) => TimerBuffer(c, env);
    case LivenessEvent(env) => TimerBuffer(c, env);
    case UpdateEvent(vals) => UpdateBuffer(c, vals);
    case DeliverEvent(msg, valid) => DeliverBuffer(c, msg, valid);
    case QuietEvent(next) => DroppedOk(c.pending, next.pending);
    case _ =>
  }
}
