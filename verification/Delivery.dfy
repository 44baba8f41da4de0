/**
 * From messages to finality at one node. Votes that arrive before the round is open wait in the buffer and count
 * like those that arrive later; the node hands the block on exactly when the votes delivered to it, early and late
 * and in whatever order, are the two quorums a round needs.
 */
module Delivery {
  import opened BftTypes
  import opened Quorum
  import opened Round
  import opened RoundOutcome
  import opened VoteLedger
  import opened EquivocationDetection
  import opened Coordinator
  import Buffering

  // ----- Votes among messages --------------------------------------------------------------------

  /** A prepare or commit at the height whose signature verifies. */
  predicate IsVote(m: Msg, height: int, valid: set<Msg>) {
    m.height == height && m.kind != Propose && m in valid
  }

  function EventOf(m: Msg): RoundEvent {
    if m.kind == Prepare then OnPrepare(m.sender, m.hash, m.root) else OnCommit(m.sender, m.hash, m.root)
  }

  /** The votes among the messages, as events of a round. */
  function EventsOf(msgs: seq<Msg>, height: int, valid: set<Msg>): seq<RoundEvent> {
    if msgs == [] then []
    else (if IsVote(msgs[0], height, valid) then [EventOf(msgs[0])] else []) + EventsOf(msgs[1..], height, valid)
  }

  /** Nobody votes for two hashes, in these messages or against what the detector has seen. */
  ghost predicate Consistent(seen: VoteTable, msgs: seq<Msg>, height: int, valid: set<Msg>) {
    && (forall m :: m in msgs && IsVote(m, height, valid) ==> !Conflicts(seen, m.sender, height, m.kind, m.hash))
    && (forall m, m' :: m in msgs && m' in msgs && IsVote(m, height, valid) && IsVote(m', height, valid) ==>
          m.sender != m'.sender || m.kind != m'.kind || m.hash == m'.hash)
  }

  lemma {:induction false} EventsConcat(a: seq<Msg>, b: seq<Msg>, height: int, valid: set<Msg>)
    ensures EventsOf(a + b, height, valid) == EventsOf(a, height, valid) + EventsOf(b, height, valid)
  {
    hide IsVote, EventOf;
    if a == [] {
      assert a + b == b;
    } else {
      EventsConcat(a[1..], b, height, valid);
      assert (a + b)[0] == a[0] && (a + b)[1..] == a[1..] + b;
    }
  }

  lemma {:induction false} EventsCome(msgs: seq<Msg>, height: int, valid: set<Msg>, e: RoundEvent)
    ensures e in EventsOf(msgs, height, valid) <==> exists m :: m in msgs && IsVote(m, height, valid) && EventOf(m) == e
  {
    if msgs != [] {
      EventsCome(msgs[1..], height, valid, e);
      assert msgs == [msgs[0]] + msgs[1..];
    }
  }

  // ----- One message --------------------------------------------------------------------------------

  /** A round in progress on a proposal. */
  ghost predicate InProgress(c: Coord) {
    c.active.Some? &&
      var a := c.active.value;
      RoundInv(a.cfg, a.state) && a.state.phase in {Preparing, Committing} && a.state.proposed.Some?
  }

  /** Where these events take the active round. */
  ghost function RoundAfter(c: Coord, events: seq<RoundEvent>): RoundState
    requires c.active.Some?
  {
    RoundRun(c.active.value.cfg, c.active.value.state, events)
  }

  /** The node's round follows: handed on if it is finalized, else still active and nothing handed on. */
  ghost predicate FollowsTo(c: Coord, s: RoundState, c': Coord, fx: seq<Effect>)
    requires c.active.Some?
  {
    if s.phase == Finalized
    then c'.active.None? && s.proposed.Some? && FinalizedBlock(s.proposed.value) in fx
    else c'.active == Some(c.active.value.(state := s)) && forall b :: FinalizedBlock(b) !in fx
  }

  lemma CountFollows(c: Coord, msg: Msg)
    requires InProgress(c) && msg.kind != Propose && msg.height == c.active.value.state.height
    requires !Conflicts(c.seen, msg.sender, msg.height, msg.kind, msg.hash)
    ensures var d := CountVote(c, msg);
      && FollowsTo(c, RoundStep(c.active.value.cfg, c.active.value.state, EventOf(msg)), d.c, d.fx)
      && (d.c.active.Some? ==> InProgress(d.c))
      && d.c.seen == KeepHighest(Noted(c.seen, msg.sender, msg.height, msg.kind, msg.hash, ""), TRACKED_HEIGHTS)
  {
    var a := c.active.value;
    StepKeepsInv(a.cfg, a.state, EventOf(msg));
    var c1 := c.(seen := KeepHighest(Noted(c.seen, msg.sender, msg.height, msg.kind, msg.hash, ""), TRACKED_HEIGHTS));
    hide KeepHighest, Noted, Conflicts, RoundInv, DeliverPrepare, DeliverCommit;
    if msg.kind == Prepare {
      PrepareFollows(c1, msg);
    } else {
      CommitFollows(c1, msg);
    }
  }

  lemma PrepareFollows(c: Coord, msg: Msg)
    requires InProgress(c) && msg.kind == Prepare
    ensures var d := DeliverPrepare(c, msg);
      && FollowsTo(c, RoundStep(c.active.value.cfg, c.active.value.state, EventOf(msg)), d.c, d.fx)
      && d.c.seen == c.seen && (d.c.active.Some? ==> InProgress(d.c))
  {
    var a := c.active.value;
    StepKeepsInv(a.cfg, a.state, EventOf(msg));
    var (s, out) := HandlePrepare(a.cfg, a.state, msg.sender, msg.hash, msg.root);
    PreparePhase(a.cfg, a.state, msg);
    hide HandlePrepare, RoundInv, Finish, SendCommit;
    var c1 := c.(active := Some(a.(state := s)));
    if s.phase == Finalized {
      FinishHandsOn(c1, s.proposed.value);
    } else if out != [] {
      SendHandsNothingOn(c1, out[0]);
    }
  }

  lemma PreparePhase(cfg: RoundConfig, s: RoundState, msg: Msg)
    requires s.phase in {Preparing, Committing}
    ensures HandlePrepare(cfg, s, msg.sender, msg.hash, msg.root).0.phase in {Preparing, Committing, Finalized}
  {
  }

  lemma CommitFollows(c: Coord, msg: Msg)
    requires InProgress(c) && msg.kind == Commit
    ensures var d := DeliverCommit(c, msg);
      && FollowsTo(c, RoundStep(c.active.value.cfg, c.active.value.state, EventOf(msg)), d.c, d.fx)
      && d.c.seen == c.seen && (d.c.active.Some? ==> InProgress(d.c))
  {
    var a := c.active.value;
    StepKeepsInv(a.cfg, a.state, EventOf(msg));
    CommitKeepsInv(a.cfg, a.state, msg.sender, msg.hash, msg.root);
    CommitPhase(a.cfg, a.state, msg);
    var (s, finalized) := HandleCommit(a.cfg, a.state, msg.sender, msg.hash, msg.root);
    hide HandleCommit, RoundInv, Finish;
    var c1 := c.(active := Some(a.(state := s)));
    if finalized {
      FinishHandsOn(c1, s.proposed.value);
    }
  }

  lemma CommitPhase(cfg: RoundConfig, s: RoundState, msg: Msg)
    requires s.phase in {Preparing, Committing}
    ensures var (next, finalized) := HandleCommit(cfg, s, msg.sender, msg.hash, msg.root);
      next.phase in {Preparing, Committing, Finalized} && (finalized <==> next.phase == Finalized)
  {
  }

  lemma FinishHandsOn(c: Coord, block: Block)
    requires c.active.Some?
    ensures var d := Finish(c, block); d.c.active.None? && FinalizedBlock(block) in d.fx && d.c.seen == c.seen
  {
    hide LingerFor, Later, Pruned;
  }

  lemma SendHandsNothingOn(c: Coord, m: Msg)
    ensures var o := SendCommit(c, m); o.c.active == c.active && o.c.seen == c.seen && forall b :: FinalizedBlock(b) !in o.fx
  {
    hide WithCommitted;
  }

  // ----- All messages in turn ----------------------------------------------------------------------

  lemma ConsistentNext(seen: VoteTable, msgs: seq<Msg>, height: int, valid: set<Msg>)
    requires msgs != [] && Consistent(seen, msgs, height, valid)
    ensures Consistent(seen, msgs[1..], height, valid)
    ensures IsVote(msgs[0], height, valid) ==>
      && !Conflicts(seen, msgs[0].sender, height, msgs[0].kind, msgs[0].hash)
      && Consistent(KeepHighest(Noted(seen, msgs[0].sender, height, msgs[0].kind, msgs[0].hash, ""), TRACKED_HEIGHTS), msgs[1..], height, valid)
  {
    var m0, rest := msgs[0], msgs[1..];
    assert m0 in msgs && forall m :: m in rest ==> m in msgs;
    if IsVote(m0, height, valid) {
      forall m | m in rest && IsVote(m, height, valid)
        ensures !Conflicts(KeepHighest(Noted(seen, m0.sender, height, m0.kind, m0.hash, ""), TRACKED_HEIGHTS), m.sender, height, m.kind, m.hash)
      {
        NotedSeen(seen, TRACKED_HEIGHTS, m0.sender, height, m0.kind, m0.hash, "", m.sender, height, m.kind);
      }
    }
  }

  lemma OtherMessages(c: Coord, msg: Msg, valid: set<Msg>)
    requires c.active.Some? && !IsVote(msg, c.active.value.state.height, valid)
    ensures var d := Deliver(c, msg, valid); d.c.active == c.active && d.c.seen == c.seen && d.fx == []
  {
    hide IsDuplicate, CountVote;
  }

  lemma {:induction false} FinalizedStays(cfg: RoundConfig, s: RoundState, events: seq<RoundEvent>)
    requires s.phase == Finalized && NoFailure(events)
    ensures RoundRun(cfg, s, events) == s
    decreases |events|
  {
    if events != [] {
      assert RoundStep(cfg, s, events[0]) == s;
      FinalizedStays(cfg, s, events[1..]);
    }
  }

  lemma {:induction false} EventsNeverFail(msgs: seq<Msg>, height: int, valid: set<Msg>)
    ensures NoFailure(EventsOf(msgs, height, valid))
  {
    if msgs != [] {
      EventsNeverFail(msgs[1..], height, valid);
    }
  }

  /** Delivering messages to a node takes its round exactly where their votes take a round. */
  lemma {:induction false} DrainFollows(c: Coord, msgs: seq<Msg>, valid: set<Msg>)
    requires InProgress(c) && Consistent(c.seen, msgs, c.active.value.state.height, valid)
    ensures var h, r := c.active.value.state.height, Drain(c, msgs, valid);
      && FollowsTo(c, RoundAfter(c, EventsOf(msgs, h, valid)), r.c, r.fx)
      && (r.c.active.Some? ==> InProgress(r.c))
    decreases |msgs|
  {
    if msgs != [] {
      var h, d := c.active.value.state.height, Deliver(c, msgs[0], valid);
      ConsistentNext(c.seen, msgs, h, valid);
      if IsVote(msgs[0], h, valid) {
        DrainVote(c, msgs, valid);
      } else {
        OtherMessages(c, msgs[0], valid);
        hide InProgress, Deliver, Consistent, RoundRun, IsVote;
        assert InProgress(d.c) by { SameRoundInProgress(c, d.c); }
        DrainFollows(d.c, msgs[1..], valid);
        assert EventsOf(msgs, h, valid) == EventsOf(msgs[1..], h, valid);
      }
    }
  }

  lemma SameRoundInProgress(c: Coord, c': Coord)
    requires InProgress(c) && c'.active == c.active
    ensures InProgress(c')
  {
  }

  lemma {:induction false} DrainVote(c: Coord, msgs: seq<Msg>, valid: set<Msg>)
    requires InProgress(c) && msgs != [] && IsVote(msgs[0], c.active.value.state.height, valid)
    requires Consistent(c.seen, msgs, c.active.value.state.height, valid)
    ensures var h, r := c.active.value.state.height, Drain(c, msgs, valid);
      && FollowsTo(c, RoundAfter(c, EventsOf(msgs, h, valid)), r.c, r.fx)
      && (r.c.active.Some? ==> InProgress(r.c))
    decreases |msgs|, 0
  {
    var a, m, rest := c.active.value, msgs[0], msgs[1..];
    var h, d := a.state.height, Deliver(c, m, valid);
    var s := RoundStep(a.cfg, a.state, EventOf(m));
    ConsistentNext(c.seen, msgs, h, valid);
    CountFollows(c, m);
    StepKeepsInv(a.cfg, a.state, EventOf(m));
    assert d == CountVote(c, m);
    var events := EventsOf(rest, h, valid);
    FirstVote(c, msgs, valid);
    hide InProgress, CountVote, Deliver, Consistent, RoundRun, RoundStep, EventsOf;
    if s.phase == Finalized {
      EventsNeverFail(rest, h, valid);
      FinalizedStays(a.cfg, s, events);
    } else {
      DrainFollows(d.c, rest, valid);
    }
  }

  lemma FirstVote(c: Coord, msgs: seq<Msg>, valid: set<Msg>)
    requires c.active.Some? && msgs != [] && IsVote(msgs[0], c.active.value.state.height, valid)
    ensures var a := c.active.value;
      RoundAfter(c, EventsOf(msgs, a.state.height, valid)) ==
        RoundRun(a.cfg, RoundStep(a.cfg, a.state, EventOf(msgs[0])), EventsOf(msgs[1..], a.state.height, valid))
  {
    var a := c.active.value;
    var events := EventsOf(msgs[1..], a.state.height, valid);
    assert EventsOf(msgs, a.state.height, valid) == [EventOf(msgs[0])] + events;
    assert ([EventOf(msgs[0])] + events)[1..] == events;
    hide RoundStep;
  }

  /** Messages still to come stay free of contradictions with what the detector has seen by then. */
  lemma {:induction false} ConsistentAfter(c: Coord, msgs: seq<Msg>, more: seq<Msg>, valid: set<Msg>)
    requires InProgress(c) && Consistent(c.seen, msgs + more, c.active.value.state.height, valid)
    ensures var r := Drain(c, msgs, valid);
      r.c.active.Some? ==> Consistent(r.c.seen, more, c.active.value.state.height, valid)
    decreases |msgs|
  {
    if msgs == [] {
      assert msgs + more == more;
    } else {
      var h, d := c.active.value.state.height, Deliver(c, msgs[0], valid);
      assert (msgs + more)[0] == msgs[0] && (msgs + more)[1..] == msgs[1..] + more;
      ConsistentNext(c.seen, msgs + more, h, valid);
      if IsVote(msgs[0], h, valid) {
        CountFollows(c, msgs[0]);
        StepKeepsInv(c.active.value.cfg, c.active.value.state, EventOf(msgs[0]));
        assert d == CountVote(c, msgs[0]);
      } else {
        OtherMessages(c, msgs[0], valid);
        SameRoundInProgress(c, d.c);
      }
      hide InProgress, CountVote, Deliver, Consistent, RoundStep;
      if d.c.active.Some? {
        ConsistentAfter(d.c, msgs[1..], more, valid);
      }
    }
  }

  // ----- From the start of the round to the end -------------------------------------------------------

  lemma {:induction false} SelectHas(msgs: seq<Msg>, height: int, commits: bool, m: Msg)
    ensures m in Select(msgs, height, commits) <==> m in msgs && m.height == height && (m.kind == Commit) == commits
  {
    if msgs != [] {
      SelectHas(msgs[1..], height, commits, m);
      assert msgs == [msgs[0]] + msgs[1..];
    }
  }

  /** What was waiting for the height, in the order it is taken out. */
  function TakenOut(pending: seq<Msg>, height: int): seq<Msg> {
    Select(pending, height, false) + Select(pending, height, true)
  }

  lemma TakenHas(pending: seq<Msg>, height: int, m: Msg)
    ensures m in TakenOut(pending, height) <==> m in pending && m.height == height
  {
    SelectHas(pending, height, false, m);
    SelectHas(pending, height, true, m);
  }

  lemma TakenConsistent(seen: VoteTable, pending: seq<Msg>, late: seq<Msg>, height: int, valid: set<Msg>)
    requires Consistent(seen, pending + late, height, valid)
    ensures Consistent(seen, TakenOut(pending, height) + late, height, valid)
  {
    forall m | m in TakenOut(pending, height) + late ensures m in pending + late {
      TakenHas(pending, height, m);
    }
    hide TakenOut, Conflicts;
  }

  /** The round as it is opened. */
  lemma OpenedInProgress(c: Coord, block: Block, root: Option<Hash>, pending: seq<Msg>)
    requires c.cfg.IsValidator() && IsKnown(c.cfg.validators, block.proposer)
    ensures var o := OpenRound(c, block, root).c.(pending := pending);
      && InProgress(o) && o.seen == c.seen
      && o.active.value.cfg == c.cfg && o.active.value.state.height == block.number
      && o.active.value.state == RoundStep(c.cfg, NewRound(block.number), OnPropose(block, block.proposer, root))
    ensures forall b :: FinalizedBlock(b) !in OpenRound(c, block, root).fx
  {
    OpenInv(c.cfg, block, root);
    hide WithPrepared;
  }

  /** The votes that count: those waiting when the round opens, then the late ones. */
  function AllEvents(pending: seq<Msg>, late: seq<Msg>, height: int, valid: set<Msg>): seq<RoundEvent> {
    EventsOf(TakenOut(pending, height) + late, height, valid)
  }

  /**
   * A start with votes waiting for it, and late votes: the node hands the block on exactly when all these votes
   * together finalize a round, and otherwise ends in the phase they come to.
   */
  lemma StartComesTo(c: Coord, block: Block, root: Option<Hash>, late: seq<Msg>, valid: set<Msg>)
    requires c.cfg.IsValidator() && IsKnown(c.cfg.validators, block.proposer)
    requires Consistent(c.seen, c.pending + late, block.number, valid)
    ensures var o := StartFinish(c, block, root, valid);
      var r := Drain(o.c, late, valid);
      var phase := PhaseOf(c.cfg, block, root, AllEvents(c.pending, late, block.number, valid));
      if phase == Finalized then FinalizedBlock(block) in o.fx + r.fx && r.c.active.None?
      else
        && (forall b :: FinalizedBlock(b) !in o.fx + r.fx)
        && r.c.active.Some? && r.c.active.value.state.phase == phase && r.c.active.value.state.proposed == Some(block)
  {
    var h, pending := block.number, Newer(c.pending, block.number);
    var waiting, open := TakenOut(c.pending, block.number), OpenRound(c, block, root).c.(pending := pending);
    OpenedInProgress(c, block, root, pending);
    TakenConsistent(c.seen, c.pending, late, h, valid);
    TwoBatches(open, waiting, late, valid);
    RoundComesTo(c.cfg, block, root, AllEvents(c.pending, late, h, valid));
    EventsNeverFail(waiting + late, h, valid);
    FromTheProposal(c.cfg, block, root, AllEvents(c.pending, late, h, valid));
    RetryOnly(c, block, root, late, valid);
    hide StartFinish, Drain, InProgress, RoundRun, RoundStep, PhaseOf, OpenRound, Consistent, TakenOut, EventsOf, Newer;
  }

  lemma FromTheProposal(cfg: RoundConfig, block: Block, root: Option<Hash>, events: seq<RoundEvent>)
    ensures var first := OnPropose(block, block.proposer, root);
      RoundRun(cfg, NewRound(block.number), [first] + events) == RoundRun(cfg, RoundStep(cfg, NewRound(block.number), first), events)
  {
    var first := OnPropose(block, block.proposer, root);
    assert ([first] + events)[1..] == events;
  }

  /** Two batches of messages, whatever happens to the retry flag between them. */
  lemma TwoBatches(c: Coord, first: seq<Msg>, late: seq<Msg>, valid: set<Msg>)
    requires InProgress(c) && Consistent(c.seen, first + late, c.active.value.state.height, valid)
    ensures var r1 := Drain(c, first, valid);
      forall retry ::
        var r2 := Drain(r1.c.(commitRetry := retry), late, valid);
        FollowsTo(c, RoundAfter(c, EventsOf(first + late, c.active.value.state.height, valid)), r2.c, r1.fx + r2.fx)
  {
    var h, r1 := c.active.value.state.height, Drain(c, first, valid);
    FrontConsistent(c.seen, first, late, h, valid);
    DrainFollows(c, first, valid);
    ConsistentAfter(c, first, late, valid);
    EventsConcat(first, late, h, valid);
    RunConcat(c.active.value.cfg, c.active.value.state, EventsOf(first, h, valid), EventsOf(late, h, valid));
    EventsNeverFail(late, h, valid);
    SameHeight(c, EventsOf(first, h, valid));
    forall retry: bool
      ensures var r2 := Drain(r1.c.(commitRetry := retry), late, valid);
        FollowsTo(c, RoundAfter(c, EventsOf(first + late, h, valid)), r2.c, r1.fx + r2.fx)
    {
      var c1 := r1.c.(commitRetry := retry);
      if r1.c.active.Some? {
        SameRoundInProgress(r1.c, c1);
        hide InProgress, Consistent, RoundRun, EventsOf;
        DrainFollows(c1, late, valid);
      } else {
        hide InProgress, Consistent, RoundRun, EventsOf;
        FinalizedStays(c.active.value.cfg, RoundAfter(c, EventsOf(first, h, valid)), EventsOf(late, h, valid));
      }
    }
  }

  lemma FrontConsistent(seen: VoteTable, a: seq<Msg>, b: seq<Msg>, height: int, valid: set<Msg>)
    requires Consistent(seen, a + b, height, valid)
    ensures Consistent(seen, a, height, valid)
  {
    assert forall m :: m in a ==> m in a + b;
  }

  lemma SameHeight(c: Coord, events: seq<RoundEvent>)
    requires InProgress(c)
    ensures RoundAfter(c, events).height == c.active.value.state.height
  {
    RoundRunSafe(c.active.value.cfg, c.active.value.state, events);
  }

  /** A start is: open the round, take the waiting votes, turn the retry on if it is needed. */
  lemma RetryOnly(c: Coord, block: Block, root: Option<Hash>, late: seq<Msg>, valid: set<Msg>)
    ensures var open, o := OpenRound(c, block, root), StartFinish(c, block, root, valid);
      var r1 := Drain(open.c.(pending := Newer(c.pending, block.number)), TakenOut(c.pending, block.number), valid);
      && o.c == r1.c.(commitRetry := o.c.commitRetry) && o.fx == open.fx + r1.fx
      && o.fx + Drain(o.c, late, valid).fx == open.fx + (r1.fx + Drain(r1.c.(commitRetry := o.c.commitRetry), late, valid).fx)
  {
    hide OpenRound, Drain, Newer, Select;
  }

  // ----- In terms of who voted --------------------------------------------------------------------------

  /** The validators who sent a vote of this kind for the hash. */
  ghost function VoteSenders(cfg: RoundConfig, msgs: seq<Msg>, height: int, valid: set<Msg>, kind: VoteKind, hash: Hash): set<Id> {
    set m | m in msgs && IsVote(m, height, valid) && m.kind == kind && m.hash == hash && m.sender in Ids(cfg.validators)
      :: m.sender
  }

  /** No vote for the hash carries a root against the node's. */
  ghost predicate RootsFit(msgs: seq<Msg>, height: int, valid: set<Msg>, hash: Hash, own: Option<Hash>) {
    forall m :: m in msgs && IsVote(m, height, valid) && m.hash == hash ==> Fits(own, m.root)
  }

  /** The two quorums a round needs, by who sent what. */
  ghost predicate BothQuorums(cfg: RoundConfig, msgs: seq<Msg>, height: int, valid: set<Msg>, hash: Hash) {
    var prepares := VoteSenders(cfg, msgs, height, valid, Prepare, hash);
    && IsQuorum(cfg.validators, cfg.relaxed, {cfg.localId} + prepares) && !(prepares <= {cfg.localId})
    && IsQuorum(cfg.validators, cfg.relaxed, {cfg.localId} + VoteSenders(cfg, msgs, height, valid, Commit, hash))
  }

  lemma EventSender(pending: seq<Msg>, late: seq<Msg>, height: int, valid: set<Msg>, e: RoundEvent)
    ensures e in AllEvents(pending, late, height, valid) <==>
      exists m :: m in pending + late && IsVote(m, height, valid) && EventOf(m) == e
  {
    EventsCome(TakenOut(pending, height) + late, height, valid, e);
    forall m | IsVote(m, height, valid) ensures m in TakenOut(pending, height) + late <==> m in pending + late {
      TakenHas(pending, height, m);
    }
    hide TakenOut, EventsOf;
  }

  lemma SendersMatch(cfg: RoundConfig, pending: seq<Msg>, late: seq<Msg>, height: int, valid: set<Msg>, hash: Hash, own: Option<Hash>)
    requires RootsFit(pending + late, height, valid, hash, own)
    ensures var events := AllEvents(pending, late, height, valid);
      && PrepareSenders(cfg, events, hash) == VoteSenders(cfg, pending + late, height, valid, Prepare, hash)
      && CommitSenders(cfg, events, hash) == VoteSenders(cfg, pending + late, height, valid, Commit, hash)
      && NoneContradicts(events, hash, own)
  {
    var events := AllEvents(pending, late, height, valid);
    forall e ensures e in events <==> exists m :: m in pending + late && IsVote(m, height, valid) && EventOf(m) == e {
      EventSender(pending, late, height, valid, e);
    }
    hide AllEvents, IsVote, Ids;
    forall i | 0 <= i < |events| ensures events[i] in events {
    }
    forall m | m in pending + late && IsVote(m, height, valid) && m.hash == hash && m.sender in Ids(cfg.validators)
      ensures m.kind == Prepare ==> m.sender in PrepareSenders(cfg, events, hash)
      ensures m.kind == Commit ==> m.sender in CommitSenders(cfg, events, hash)
    {
      assert EventOf(m) in events;
      assert m.kind != Propose by { VoteKinds(m, height, valid); }
    }
    forall i | 0 <= i < |events|
      ensures exists m :: m in pending + late && IsVote(m, height, valid) && EventOf(m) == events[i] && m.kind != Propose
    {
      EventSender(pending, late, height, valid, events[i]);
      var m :| m in pending + late && IsVote(m, height, valid) && EventOf(m) == events[i];
      VoteKinds(m, height, valid);
    }
  }

  lemma VoteKinds(m: Msg, height: int, valid: set<Msg>)
    requires IsVote(m, height, valid)
    ensures m.kind != Propose
  {
  }

  /**
   * A validator that starts a round on a block, with votes waiting and votes to come, hands the block on exactly
   * when the senders of the prepares, with itself, are a quorum with a peer among them and the senders of the
   * commits, with itself, are a quorum. It does not matter which of them were early, nor in what order they came.
   */
  lemma FinalizesIff(c: Coord, block: Block, root: Option<Hash>, late: seq<Msg>, valid: set<Msg>)
    requires c.cfg.IsValidator() && IsKnown(c.cfg.validators, block.proposer)
    requires Consistent(c.seen, c.pending + late, block.number, valid)
    requires RootsFit(c.pending + late, block.number, valid, block.hash, root)
    ensures var o := StartFinish(c, block, root, valid);
      FinalizedBlock(block) in o.fx + Drain(o.c, late, valid).fx <==>
        BothQuorums(c.cfg, c.pending + late, block.number, valid, block.hash)
  {
    var events := AllEvents(c.pending, late, block.number, valid);
    StartComesTo(c, block, root, late, valid);
    SendersMatch(c.cfg, c.pending, late, block.number, valid, block.hash, root);
    BackersAreSenders(c.cfg, events, block.hash, root);
    hide StartFinish, Drain, AllEvents, Consistent, PrepareBackers, CommitBackers, PrepareSenders, CommitSenders, VoteSenders, PeerPrepared;
  }

  // ----- What waits in the buffer -------------------------------------------------------------------------

  /** The first message of each sender, kind and height. */
  function Firsts(msgs: seq<Msg>): seq<Msg> {
    if msgs == [] then []
    else
      var n := |msgs| - 1;
      Firsts(msgs[..n]) + if IsDuplicate(msgs[..n], msgs[n]) then [] else [msgs[n]]
  }

  function UpTo(msgs: seq<Msg>, n: nat): seq<Msg> {
    if |msgs| <= n then msgs else msgs[..n]
  }

  /** The messages delivered one after the other. */
  ghost function DeliverAll(c: Coord, msgs: seq<Msg>, valid: set<Msg>): Coord {
    if msgs == [] then c else Deliver(DeliverAll(c, msgs[..|msgs| - 1], valid), msgs[|msgs| - 1], valid).c
  }

  lemma {:induction false} FirstsCover(msgs: seq<Msg>, m: Msg)
    ensures IsDuplicate(Firsts(msgs), m) <==> IsDuplicate(msgs, m)
  {
    if msgs != [] {
      var n := |msgs| - 1;
      var front, last := msgs[..n], msgs[n];
      FirstsCover(front, m);
      FirstsCover(front, last);
      DuplicateNext(front, last, m);
      DuplicateNext(Firsts(front), last, m);
      assert msgs == front + [last];
      hide IsDuplicate;
      if IsDuplicate(front, last) {
        assert Firsts(msgs) == Firsts(front);
        if !Apart(last, m) {
          SlotsAgree(front, last, m);
        }
      }
    }
  }

  lemma DuplicateNext(msgs: seq<Msg>, last: Msg, m: Msg)
    ensures IsDuplicate(msgs + [last], m) <==> IsDuplicate(msgs, m) || !Apart(last, m)
  {
    var all := msgs + [last];
    assert all[|msgs|] == last && forall i :: 0 <= i < |msgs| ==> all[i] == msgs[i];
  }

  lemma SlotsAgree(msgs: seq<Msg>, a: Msg, b: Msg)
    requires IsDuplicate(msgs, a) && !Apart(a, b)
    ensures IsDuplicate(msgs, b)
  {
  }

  lemma {:induction false} ApartAreFirsts(msgs: seq<Msg>)
    requires AllApart(msgs)
    ensures Firsts(msgs) == msgs
  {
    hide AllApart, IsDuplicate, Firsts;
    if msgs == [] {
      NoFirsts();
    } else {
      var front, last := msgs[..|msgs| - 1], msgs[|msgs| - 1];
      LastIsApart(msgs);
      ApartAreFirsts(front);
      FirstsNext(front, last);
      assert msgs == front + [last];
    }
  }

  lemma NoFirsts()
    ensures Firsts([]) == []
  {
  }

  lemma LastIsApart(msgs: seq<Msg>)
    requires AllApart(msgs) && msgs != []
    ensures AllApart(msgs[..|msgs| - 1]) && !IsDuplicate(msgs[..|msgs| - 1], msgs[|msgs| - 1])
  {
    assert forall i :: 0 <= i < |msgs| - 1 ==> Apart(msgs[i], msgs[|msgs| - 1]);
  }

  lemma FirstsNext(before: seq<Msg>, m: Msg)
    ensures Firsts(before + [m]) == Firsts(before) + if IsDuplicate(before, m) then [] else [m]
  {
    assert (before + [m])[..|before|] == before;
    hide IsDuplicate;
  }

  /** One more message at a node without a round. */
  lemma BufferNext(c: Coord, before: seq<Msg>, m: Msg)
    requires c.pending == UpTo(Firsts(before), PENDING_CAP)
    ensures Buffer(c, m) == c.(pending := UpTo(Firsts(before + [m]), PENDING_CAP))
  {
    FirstsCover(before, m);
    FirstsNext(before, m);
    hide IsDuplicate, Firsts;
    var firsts := Firsts(before);
    if |firsts| < PENDING_CAP {
    } else {
      assert firsts + [] == firsts;
      assert UpTo(firsts + [m], PENDING_CAP) == UpTo(firsts, PENDING_CAP);
    }
  }

  /** The node has no round yet, or one at a height shortly before that of the messages. */
  ghost predicate TooEarly(c: Coord, msgs: seq<Msg>) {
    c.active.Some? ==> var h := c.active.value.state.height; forall m :: m in msgs ==> h < m.height <= h + FUTURE_GAP
  }

  /**
   * Messages before their round only wait: what is kept is the first message of each sender, kind and height,
   * whether or not its signature verifies, up to the fiftieth.
   */
  lemma {:induction false} BufferKeepsFirsts(c: Coord, msgs: seq<Msg>, valid: set<Msg>)
    requires TooEarly(c, msgs) && BufferOk(c.pending)
    ensures DeliverAll(c, msgs, valid) == c.(pending := UpTo(Firsts(c.pending + msgs), PENDING_CAP))
  {
    if msgs == [] {
      ApartAreFirsts(c.pending);
      assert c.pending + msgs == c.pending;
    } else {
      var n := |msgs| - 1;
      assert msgs[n] in msgs;
      BufferKeepsFirsts(c, msgs[..n], valid);
      BufferNext(DeliverAll(c, msgs[..n], valid), c.pending + msgs[..n], msgs[n]);
      assert c.pending + msgs[..n] + [msgs[n]] == c.pending + msgs;
      hide Buffer, Firsts, UpTo;
    }
  }

  /** The whole way: messages before the round, the start, messages after it. */
  lemma EarlyAndLateVotesCount(c: Coord, early: seq<Msg>, block: Block, tip: Option<int>, root: Option<Hash>, late: seq<Msg>, valid: set<Msg>)
    requires TooEarly(c, early) && BufferOk(c.pending) && StartCheck(c, block, tip).Proceed?
    requires c.cfg.IsValidator() && IsKnown(c.cfg.validators, block.proposer)
    requires var msgs := UpTo(Firsts(c.pending + early), PENDING_CAP) + late;
      Consistent(c.seen, msgs, block.number, valid) && RootsFit(msgs, block.number, valid, block.hash, root)
    ensures var o := StartRound(DeliverAll(c, early, valid), block, tip, root, valid);
      FinalizedBlock(block) in o.fx + Drain(o.c, late, valid).fx <==>
        BothQuorums(c.cfg, UpTo(Firsts(c.pending + early), PENDING_CAP) + late, block.number, valid, block.hash)
  {
    BufferKeepsFirsts(c, early, valid);
    var waiting := UpTo(Firsts(c.pending + early), PENDING_CAP);
    ProceedsWith(c, waiting, block, tip);
    hide DeliverAll, Firsts, UpTo, StartCheck, StartFinish, Drain, Consistent, RootsFit, BothQuorums, BufferOk;
    FinalizesIff(StartCheck(c.(pending := waiting), block, tip).c, block, root, late, valid);
  }

  lemma ProceedsWith(c: Coord, pending: seq<Msg>, block: Block, tip: Option<int>)
    requires StartCheck(c, block, tip).Proceed?
    ensures StartCheck(c.(pending := pending), block, tip).Proceed?
    ensures var c1 := StartCheck(c.(pending := pending), block, tip).c; c1.cfg == c.cfg && c1.pending == pending && c1.seen == c.seen
  {
    ClearTerminalWith(c, pending);
    var c1 := ClearTerminal(c);
    HoldsBackWith(c1, pending, block);
    hide ClearTerminal, HoldsBack, Floor;
  }

  lemma ClearTerminalWith(c: Coord, pending: seq<Msg>)
    ensures ClearTerminal(c.(pending := pending)) == ClearTerminal(c).(pending := pending)
    ensures var c1 := ClearTerminal(c); c1.cfg == c.cfg && c1.seen == c.seen && c1.preparedAt == c.preparedAt
  {
    if c.active.Some? && IsTerminal(c.active.value.state.phase) {
      assert ClearTerminal(c) == ClearRound(c);
      assert ClearTerminal(c.(pending := pending)) == ClearRound(c.(pending := pending));
    } else {
      assert ClearTerminal(c) == c;
    }
  }

  lemma HoldsBackWith(c: Coord, pending: seq<Msg>, block: Block)
    ensures HoldsBack(c.(pending := pending), block) <==> HoldsBack(c, block)
  {
  }

  // ----- Messages for later heights --------------------------------------------------------------------------

  lemma {:induction false} NewerHas(msgs: seq<Msg>, height: int, m: Msg)
    ensures m in Newer(msgs, height) <==> m in msgs && m.height > height
  {
    if msgs != [] {
      NewerHas(msgs[1..], height, m);
      assert msgs == [msgs[0]] + msgs[1..];
    }
  }

  lemma DeliverKeepsWaiting(c: Coord, msg: Msg, valid: set<Msg>, m: Msg)
    requires m in c.pending
    ensures m in Deliver(c, msg, valid).c.pending
  {
    hide CountVote, IsDuplicate;
    if c.active.Some? {
      Buffering.CountBuffer(c, msg);
    }
  }

  lemma {:induction false} DrainKeepsWaiting(c: Coord, msgs: seq<Msg>, valid: set<Msg>, m: Msg)
    requires m in c.pending
    ensures m in Drain(c, msgs, valid).c.pending
    decreases |msgs|
  {
    if msgs != [] && c.active.Some? {
      DeliverKeepsWaiting(c, msgs[0], valid, m);
      hide Deliver;
      DrainKeepsWaiting(Deliver(c, msgs[0], valid).c, msgs[1..], valid, m);
    }
  }

  /** Messages for later heights keep waiting through a start and the whole round, also when it is finalized. */
  lemma LaterVotesStay(c: Coord, block: Block, root: Option<Hash>, late: seq<Msg>, valid: set<Msg>, m: Msg)
    requires m in c.pending && m.height > block.number
    ensures var o := StartFinish(c, block, root, valid); m in o.c.pending && m in Drain(o.c, late, valid).c.pending
  {
    NewerHas(c.pending, block.number, m);
    var o := StartFinish(c, block, root, valid);
    var c1 := OpenRound(c, block, root).c.(pending := Newer(c.pending, block.number));
    hide OpenRound, Drain, Select, Newer;
    DrainKeepsWaiting(c1, Select(c.pending, block.number, false) + Select(c.pending, block.number, true), valid, m);
    DrainKeepsWaiting(o.c, late, valid, m);
  }

  /** During a round, messages for past heights or for heights far ahead change nothing. */
  lemma OutOfReach(c: Coord, msg: Msg, valid: set<Msg>)
    requires c.active.Some? && (msg.height < c.active.value.state.height || msg.height > c.active.value.state.height + 10)
    ensures Deliver(c, msg, valid) == Coordinator.Delivery(c, [], false)
  {
    hide CountVote;
  }

  // ----- Votes that contradict each other ---------------------------------------------------------------------------

  /** The detector holds this hash for the vote. */
  ghost predicate OnFirst(c: Coord, id: Id, height: int, kind: VoteKind, hash: Hash) {
    Seen(c.seen, id, height, kind).Some? && Seen(c.seen, id, height, kind).value.hash == hash
  }

  ghost predicate Tracks100(seen: VoteTable, height: int) {
    |Above(seen.Keys, height)| < TRACKED_HEIGHTS
  }

  lemma CountedIsSeen(c: Coord, m: Msg)
    requires c.active.Some? && m.height == c.active.value.state.height && Tracks100(c.seen, m.height)
    requires !Conflicts(c.seen, m.sender, m.height, m.kind, m.hash)
    ensures var d := CountVote(c, m).c; OnFirst(d, m.sender, m.height, m.kind, m.hash) && Tracks100(d.seen, m.height)
  {
    var seen := KeepHighest(Noted(c.seen, m.sender, m.height, m.kind, m.hash, ""), TRACKED_HEIGHTS);
    SeenAfterNoting(c.seen, m);
    CountKeepsSeen(c.(seen := seen), m);
    hide KeepHighest, Noted, DeliverPrepare, DeliverCommit, Seen, Tracks100;
  }

  lemma SeenAfterNoting(seen: VoteTable, m: Msg)
    requires Tracks100(seen, m.height)
    ensures var next := KeepHighest(Noted(seen, m.sender, m.height, m.kind, m.hash, ""), TRACKED_HEIGHTS);
      && Seen(next, m.sender, m.height, m.kind) == Some(SeenVote(m.hash, "")) && Tracks100(next, m.height)
      && forall id, kind :: (id, kind) != (m.sender, m.kind) ==> Seen(next, id, m.height, kind) == Seen(seen, id, m.height, kind)
  {
    var noted := Noted(seen, m.sender, m.height, m.kind, m.hash, "");
    assert noted.Keys == seen.Keys + {m.height};
    assert Above(noted.Keys, m.height) == Above(seen.Keys, m.height);
    var next := KeepHighest(noted, TRACKED_HEIGHTS);
    SubsetSize(Above(next.Keys, m.height), Above(noted.Keys, m.height));
  }

  /** Counting changes neither what the detector holds nor the height of the round. */
  lemma CountKeepsSeen(c: Coord, m: Msg)
    requires c.active.Some?
    ensures DeliverPrepare(c, m).c.seen == c.seen && DeliverCommit(c, m).c.seen == c.seen
    ensures var d := DeliverPrepare(c, m).c; d.active.Some? ==> d.active.value.state.height == c.active.value.state.height
    ensures var d := DeliverCommit(c, m).c; d.active.Some? ==> d.active.value.state.height == c.active.value.state.height
  {
    PrepareKeepsSeen(c, m);
    CommitKeepsSeen(c, m);
    hide DeliverPrepare, DeliverCommit;
  }

  lemma PrepareKeepsSeen(c: Coord, m: Msg)
    requires c.active.Some?
    ensures var d := DeliverPrepare(c, m).c;
      d.seen == c.seen && (d.active.Some? ==> d.active.value.state.height == c.active.value.state.height)
  {
    var a := c.active.value;
    var (s, out) := HandlePrepare(a.cfg, a.state, m.sender, m.hash, m.root);
    assert s.height == a.state.height;
    var c1 := c.(active := Some(a.(state := s)));
    hide HandlePrepare, SendCommit, Finish;
    if s.phase == Finalized && s.proposed.Some? {
      FinishHandsOn(c1, s.proposed.value);
    } else if out != [] {
      SendHandsNothingOn(c1, out[0]);
    }
  }

  lemma CommitKeepsSeen(c: Coord, m: Msg)
    requires c.active.Some?
    ensures var d := DeliverCommit(c, m).c;
      d.seen == c.seen && (d.active.Some? ==> d.active.value.state.height == c.active.value.state.height)
  {
    var a := c.active.value;
    var (s, finalized) := HandleCommit(a.cfg, a.state, m.sender, m.hash, m.root);
    assert s.height == a.state.height;
    hide HandleCommit, Finish;
    if finalized && s.proposed.Some? {
      FinishHandsOn(c.(active := Some(a.(state := s))), s.proposed.value);
    }
  }

  /** What the detector holds stays through the rest of the round. */
  lemma {:induction false} DrainKeepsFirst(c: Coord, msgs: seq<Msg>, valid: set<Msg>, height: int, id: Id, kind: VoteKind, hash: Hash)
    requires c.active.Some? && c.active.value.state.height == height && Tracks100(c.seen, height)
    requires hash != "" && OnFirst(c, id, height, kind, hash)
    ensures var r := Drain(c, msgs, valid);
      r.c.active.Some? ==>
        r.c.active.value.state.height == height && OnFirst(r.c, id, height, kind, hash) && Tracks100(r.c.seen, height)
    decreases |msgs|
  {
    if msgs != [] {
      var d := Deliver(c, msgs[0], valid);
      DeliverKeepsFirst(c, msgs[0], valid, height, id, kind, hash);
      hide Deliver, OnFirst, Tracks100;
      if d.c.active.Some? {
        DrainKeepsFirst(d.c, msgs[1..], valid, height, id, kind, hash);
      }
    }
  }

  lemma DeliverKeepsFirst(c: Coord, m: Msg, valid: set<Msg>, height: int, id: Id, kind: VoteKind, hash: Hash)
    requires c.active.Some? && c.active.value.state.height == height && Tracks100(c.seen, height)
    requires hash != "" && OnFirst(c, id, height, kind, hash)
    ensures var d := Deliver(c, m, valid).c;
      d.active.Some? ==> d.active.value.state.height == height && OnFirst(d, id, height, kind, hash) && Tracks100(d.seen, height)
  {
    if !IsVote(m, height, valid) {
      OtherMessages(c, m, valid);
      hide Deliver;
    } else if Conflicts(c.seen, m.sender, height, m.kind, m.hash) {
      assert Deliver(c, m, valid).c == c;
    } else {
      var seen := KeepHighest(Noted(c.seen, m.sender, height, m.kind, m.hash, ""), TRACKED_HEIGHTS);
      SeenAfterNoting(c.seen, m);
      CountKeepsSeen(c.(seen := seen), m);
      hide KeepHighest, Noted, DeliverPrepare, DeliverCommit, Tracks100, Buffer;
    }
  }

  /**
   * A validator that votes for two hashes in one round, in the same phase, is accused at every node where both
   * votes arrive while the round lasts, and the accusation names both hashes.
   */
  lemma EquivocatorIsAccused(c: Coord, first: Msg, between: seq<Msg>, second: Msg, valid: set<Msg>)
    requires c.active.Some? && Tracks100(c.seen, first.height)
    requires IsVote(first, c.active.value.state.height, valid) && IsVote(second, c.active.value.state.height, valid)
    requires first.sender == second.sender && first.kind == second.kind && first.hash != "" && first.hash != second.hash
    requires !Conflicts(c.seen, first.sender, first.height, first.kind, first.hash)
    requires Drain(Deliver(c, first, valid).c, between, valid).c.active.Some?
    ensures Deliver(Drain(Deliver(c, first, valid).c, between, valid).c, second, valid).fx ==
      [Accused(first.sender, first.height, first.kind, first.hash, second.hash)]
  {
    var d, h := Deliver(c, first, valid).c, c.active.value.state.height;
    assert d == CountVote(c, first).c;
    CountedIsSeen(c, first);
    var seen := KeepHighest(Noted(c.seen, first.sender, h, first.kind, first.hash, ""), TRACKED_HEIGHTS);
    CountKeepsSeen(c.(seen := seen), first);
    SecondIsAccused(d, first, between, second, valid) by {
      hide KeepHighest, Noted, DeliverPrepare, DeliverCommit, Tracks100, OnFirst, Drain;
    }
  }

  lemma SecondIsAccused(d: Coord, first: Msg, between: seq<Msg>, second: Msg, valid: set<Msg>)
    requires IsVote(first, first.height, valid) && IsVote(second, first.height, valid)
    requires first.sender == second.sender && first.kind == second.kind && first.hash != "" && first.hash != second.hash
    requires OnFirst(d, first.sender, first.height, first.kind, first.hash) && Tracks100(d.seen, first.height)
    requires d.active.Some? ==> d.active.value.state.height == first.height
    requires Drain(d, between, valid).c.active.Some?
    ensures Deliver(Drain(d, between, valid).c, second, valid).fx ==
      [Accused(first.sender, first.height, first.kind, first.hash, second.hash)]
  {
    assert d.active.Some? by { IdleStays(d, between, valid); }
    DrainKeepsFirst(d, between, valid, first.height, first.sender, first.kind, first.hash);
    hide Drain, DeliverPrepare, DeliverCommit, KeepHighest, Noted;
  }

  lemma IdleStays(c: Coord, msgs: seq<Msg>, valid: set<Msg>)
    ensures c.active.None? ==> Drain(c, msgs, valid).c == c
  {
  }
}
