/**
 * One consensus round: propose, prepare, commit, finalized or failed.
 *
 * The handlers are first given as functions on a value of type `RoundState`, with quorums as sets
 * of ids. The class `BftRound` below does what the program does, with its vote-grouping loop and
 * its list-based stake sums, and is proved to compute exactly those functions.
 */
module Round {
  import opened BftTypes
  import opened Quorum

  datatype Phase = Proposing | Preparing | Committing | Finalized | Failed {
    function Rank(): nat {
      match this
      case Proposing => 0
      case Preparing => 1
      case Committing => 2
      case Finalized => 3
      case Failed => 4
    }
  }

  datatype RoundConfig = RoundConfig(validators: seq<Validator>, localId: Id, relaxed: bool) {
    predicate IsValidator() {
      IsKnown(validators, localId)
    }
  }

  datatype RoundState = RoundState(
    height: int,
    phase: Phase,
    proposed: Option<Block>,
    prepareVotes: map<Id, Vote>,
    commitVotes: map<Id, Vote>)

  // ----- Vote groups ---------------------------------------------------------------

  /** A vote falls in the anchor's group: same hash, and no two different roots. */
  predicate Matches(anchor: Vote, v: Vote) {
    v.hash == anchor.hash && (anchor.root.None? || v.root.None? || v.root == anchor.root)
  }

  ghost function AnchoredGroup(votes: map<Id, Vote>, anchor: Id): set<Id> {
    if anchor !in votes then {} else set id | id in votes && Matches(votes[anchor], votes[id])
  }

  ghost predicate GroupHasQuorum(cfg: RoundConfig, votes: map<Id, Vote>) {
    IsQuorum(cfg.validators, cfg.relaxed, AnchoredGroup(votes, cfg.localId))
  }

  // ----- Handlers ------------------------------------------------------------------

  function NewRound(height: int): RoundState {
    RoundState(height, Proposing, None, map[], map[])
  }

  function HandlePropose(cfg: RoundConfig, s: RoundState, block: Block, sender: Id, root: Option<Hash>)
    : (RoundState, seq<Msg>)
  {
    if s.phase != Proposing || block.number != s.height || !IsKnown(cfg.validators, sender) || block.proposer != sender
    then (s, [])
    else
      var s1 := s.(proposed := Some(block), phase := Preparing);
      if cfg.IsValidator() then
        (s1.(prepareVotes := s.prepareVotes[cfg.localId := Vote(block.hash, root)]),
         [Msg(Prepare, s.height, block.hash, cfg.localId, root)])
      else (s1, [])
  }

  /** The votes a round takes: from a known validator, for the proposed block, the first one only. */
  predicate Accepts(cfg: RoundConfig, s: RoundState, votes: map<Id, Vote>, sender: Id, hash: Hash) {
    s.proposed.Some? && IsKnown(cfg.validators, sender) && hash == s.proposed.value.hash && sender !in votes
  }

  ghost function HandlePrepare(cfg: RoundConfig, s: RoundState, sender: Id, hash: Hash, root: Option<Hash>)
    : (RoundState, seq<Msg>)
  {
    if s.phase != Preparing || !Accepts(cfg, s, s.prepareVotes, sender, hash) then (s, [])
    else
      var s1 := s.(prepareVotes := s.prepareVotes[sender := Vote(hash, root)]);
      if !GroupHasQuorum(cfg, s1.prepareVotes) then (s1, [])
      else if !cfg.IsValidator() then (s1.(phase := Committing), [])
      else
        var ownRoot := if cfg.localId in s1.prepareVotes then s1.prepareVotes[cfg.localId].root else None;
        var s2 := s1.(phase := Committing, commitVotes := s1.commitVotes[cfg.localId := Vote(hash, ownRoot)]);
        if GroupHasQuorum(cfg, s2.commitVotes) then (s2.(phase := Finalized), [])
        else (s2, [Msg(Commit, s.height, hash, cfg.localId, ownRoot)])
  }

  ghost function HandleCommit(cfg: RoundConfig, s: RoundState, sender: Id, hash: Hash, root: Option<Hash>)
    : (RoundState, bool)
  {
    if s.phase !in {Committing, Preparing} || !Accepts(cfg, s, s.commitVotes, sender, hash) then (s, false)
    else
      var s1 := s.(commitVotes := s.commitVotes[sender := Vote(hash, root)]);
      if s.phase == Committing && GroupHasQuorum(cfg, s1.commitVotes) then (s1.(phase := Finalized), true)
      else (s1, false)
  }

  function Fail(s: RoundState): RoundState {
    s.(phase := Failed)
  }

  // ----- Invariant -----------------------------------------------------------------

  /** Every vote is by a known validator for the proposed block. */
  ghost predicate VotesForProposal(cfg: RoundConfig, s: RoundState, votes: map<Id, Vote>) {
    forall id :: id in votes ==>
      IsKnown(cfg.validators, id) && s.proposed.Some? && votes[id].hash == s.proposed.value.hash
  }

  /** The node's own commit vote carries the root of its own prepare vote. */
  ghost predicate OwnVotesAgree(cfg: RoundConfig, s: RoundState) {
    cfg.IsValidator() ==>
      && cfg.localId in s.prepareVotes && cfg.localId in s.commitVotes
      && s.commitVotes[cfg.localId] == s.prepareVotes[cfg.localId]
  }

  /** Past prepare: a prepare quorum in the group anchored on the node's own vote, and a peer's vote. */
  ghost predicate Prepared(cfg: RoundConfig, s: RoundState) {
    && GroupHasQuorum(cfg, s.prepareVotes)
    && (exists id :: id in s.prepareVotes && id != cfg.localId)
    && OwnVotesAgree(cfg, s)
  }

  ghost predicate RoundInv(cfg: RoundConfig, s: RoundState) {
    && VotesForProposal(cfg, s, s.prepareVotes)
    && VotesForProposal(cfg, s, s.commitVotes)
    && (s.proposed.Some? ==> s.proposed.value.number == s.height && IsKnown(cfg.validators, s.proposed.value.proposer))
    && (s.proposed.Some? && cfg.IsValidator() ==> cfg.localId in s.prepareVotes)
    && match s.phase
       case Proposing => s.proposed.None?
       case Preparing =>
         // Still preparing means that no peer vote has completed a quorum.
         s.proposed.Some? && (GroupHasQuorum(cfg, s.prepareVotes) ==> s.prepareVotes.Keys <= {cfg.localId})
       case Committing =>
         // Still committing means that the commits seen so far are not a quorum.
         s.proposed.Some? && Prepared(cfg, s) && (cfg.IsValidator() ==> !GroupHasQuorum(cfg, s.commitVotes))
       case Finalized =>
         s.proposed.Some? && Prepared(cfg, s) && GroupHasQuorum(cfg, s.commitVotes)
       case Failed => true
  }

  lemma ProposeKeepsInv(cfg: RoundConfig, s: RoundState, block: Block, sender: Id, root: Option<Hash>)
    requires RoundInv(cfg, s)
    ensures RoundInv(cfg, HandlePropose(cfg, s, block, sender, root).0)
    ensures s.phase.Rank() <= HandlePropose(cfg, s, block, sender, root).0.phase.Rank()
  {
    if s.phase == Proposing {
      assert s.prepareVotes == map[] by { assert forall id :: id in s.prepareVotes ==> false; }
    }
  }

  lemma PrepareKeepsInv(cfg: RoundConfig, s: RoundState, sender: Id, hash: Hash, root: Option<Hash>)
    requires RoundInv(cfg, s)
    ensures RoundInv(cfg, HandlePrepare(cfg, s, sender, hash, root).0)
    ensures s.phase.Rank() <= HandlePrepare(cfg, s, sender, hash, root).0.phase.Rank()
  {
    hide GroupHasQuorum, IsKnown;
    if s.phase == Preparing && Accepts(cfg, s, s.prepareVotes, sender, hash) {
      assert sender != cfg.localId;
    }
  }

  lemma CommitKeepsInv(cfg: RoundConfig, s: RoundState, sender: Id, hash: Hash, root: Option<Hash>)
    requires RoundInv(cfg, s)
    ensures RoundInv(cfg, HandleCommit(cfg, s, sender, hash, root).0)
    ensures s.phase.Rank() <= HandleCommit(cfg, s, sender, hash, root).0.phase.Rank()
    ensures HandleCommit(cfg, s, sender, hash, root).1 <==>
      s.phase == Committing && HandleCommit(cfg, s, sender, hash, root).0.phase == Finalized
  {
    hide GroupHasQuorum, IsKnown;
  }

  // ----- Whole runs of a round -----------------------------------------------------

  datatype RoundEvent =
    | OnPropose(block: Block, sender: Id, root: Option<Hash>)
    | OnPrepare(sender: Id, hash: Hash, root: Option<Hash>)
    | OnCommit(sender: Id, hash: Hash, root: Option<Hash>)
    | OnFail

  ghost function RoundStep(cfg: RoundConfig, s: RoundState, e: RoundEvent): RoundState {
    match e
    case OnPropose(block, sender, root) => HandlePropose(cfg, s, block, sender, root).0
    case OnPrepare(sender, hash, root) => HandlePrepare(cfg, s, sender, hash, root).0
    case OnCommit(sender, hash, root) => HandleCommit(cfg, s, sender, hash, root).0
    case OnFail => Fail(s)
  }

  ghost function RoundRun(cfg: RoundConfig, s: RoundState, events: seq<RoundEvent>): RoundState
    decreases |events|
  {
    if events == [] then s else RoundRun(cfg, RoundStep(cfg, s, events[0]), events[1..])
  }

  lemma {:induction false} RunConcat(cfg: RoundConfig, s: RoundState, x: seq<RoundEvent>, y: seq<RoundEvent>)
    ensures RoundRun(cfg, s, x + y) == RoundRun(cfg, RoundRun(cfg, s, x), y)
    decreases |x|
  {
    if x == [] {
      assert x + y == y;
    } else {
      assert (x + y)[1..] == x[1..] + y && (x + y)[0] == x[0];
      RunConcat(cfg, RoundStep(cfg, s, x[0]), x[1..], y);
    }
  }

  lemma StepKeepsInv(cfg: RoundConfig, s: RoundState, e: RoundEvent)
    requires RoundInv(cfg, s)
    ensures RoundInv(cfg, RoundStep(cfg, s, e))
    ensures s.phase.Rank() <= RoundStep(cfg, s, e).phase.Rank()
    ensures s.phase == Failed ==> RoundStep(cfg, s, e) == s
    ensures RoundStep(cfg, s, e).height == s.height
    ensures s.proposed.Some? ==> RoundStep(cfg, s, e).proposed == s.proposed
  {
    match e
    case OnPropose(block, sender, root) => ProposeKeepsInv(cfg, s, block, sender, root);
    case OnPrepare(sender, hash, root) => PrepareKeepsInv(cfg, s, sender, hash, root);
    case OnCommit(sender, hash, root) => CommitKeepsInv(cfg, s, sender, hash, root);
    case OnFail =>
  }

  /** The invariant holds, the phase never goes back and a failed round stays failed, over any events. */
  lemma {:induction false} RoundRunSafe(cfg: RoundConfig, s: RoundState, events: seq<RoundEvent>)
    requires RoundInv(cfg, s)
    ensures RoundInv(cfg, RoundRun(cfg, s, events))
    ensures s.phase.Rank() <= RoundRun(cfg, s, events).phase.Rank()
    ensures s.phase == Failed ==> RoundRun(cfg, s, events) == s
    ensures RoundRun(cfg, s, events).height == s.height
    ensures s.proposed.Some? ==> RoundRun(cfg, s, events).proposed == s.proposed
    decreases |events|
  {
    hide RoundInv, RoundStep;
    if events != [] {
      StepKeepsInv(cfg, s, events[0]);
      RoundRunSafe(cfg, RoundStep(cfg, s, events[0]), events[1..]);
    }
  }

  /**
   * A finalized round holds a prepare quorum and a commit quorum, each anchored on the node's own
   * vote and all for the one proposed block at the round's height.
   */
  lemma FinalizedMeansTwoQuorums(cfg: RoundConfig, height: int, events: seq<RoundEvent>)
    ensures var s := RoundRun(cfg, NewRound(height), events);
      s.phase == Finalized ==>
        && s.proposed.Some? && s.proposed.value.number == height
        && IsQuorum(cfg.validators, cfg.relaxed, AnchoredGroup(s.prepareVotes, cfg.localId))
        && IsQuorum(cfg.validators, cfg.relaxed, AnchoredGroup(s.commitVotes, cfg.localId))
        && (forall id :: id in s.prepareVotes ==> s.prepareVotes[id].hash == s.proposed.value.hash)
        && (forall id :: id in s.commitVotes ==> s.commitVotes[id].hash == s.proposed.value.hash)
  {
    RoundRunSafe(cfg, NewRound(height), events);
  }

  /** A group with no anchor is a quorum only in relaxed mode with one unit of stake in all. */
  lemma EmptyGroupQuorum(cfg: RoundConfig)
    ensures IsQuorum(cfg.validators, cfg.relaxed, {}) <==> cfg.relaxed && TotalStake(cfg.validators) == 1
  {
    StakeInNone(cfg.validators);
  }

  /**
   * A node that is no validator leaves the prepare phase on an accepted prepare exactly in relaxed
   * mode with one unit of total stake; under strict quorum its rounds never get past prepare.
   */
  lemma ObserverLeavesPrepareIff(cfg: RoundConfig, s: RoundState, sender: Id, hash: Hash, root: Option<Hash>)
    requires RoundInv(cfg, s) && !cfg.IsValidator()
    requires s.phase == Preparing && Accepts(cfg, s, s.prepareVotes, sender, hash)
    ensures HandlePrepare(cfg, s, sender, hash, root).0.phase != Preparing <==>
      cfg.relaxed && TotalStake(cfg.validators) == 1
  {
    assert AnchoredGroup(s.prepareVotes[sender := Vote(hash, root)], cfg.localId) == {};
    EmptyGroupQuorum(cfg);
  }

  lemma ObserverStaysInPrepare(cfg: RoundConfig, height: int, events: seq<RoundEvent>)
    requires !cfg.IsValidator() && !cfg.relaxed
    ensures RoundRun(cfg, NewRound(height), events).phase !in {Committing, Finalized}
  {
    RoundRunSafe(cfg, NewRound(height), events);
    var s := RoundRun(cfg, NewRound(height), events);
    assert AnchoredGroup(s.prepareVotes, cfg.localId) == {};
    EmptyGroupQuorum(cfg);
  }

  /**
   * Quorum is only evaluated when a peer's prepare arrives, so a validator that is alone never
   * commits, however much stake it holds.
   */
  lemma SoleValidatorNeverCommits(cfg: RoundConfig, height: int, events: seq<RoundEvent>)
    requires Ids(cfg.validators) == {cfg.localId}
    ensures RoundRun(cfg, NewRound(height), events).phase !in {Committing, Finalized}
  {
    RoundRunSafe(cfg, NewRound(height), events);
    assert forall id :: IsKnown(cfg.validators, id) ==> id in Ids(cfg.validators);
  }

  // ----- The round object ----------------------------------------------------------

  /** The ids whose votes fall in the group of the anchor's vote, and that vote. */
  method PickWinningVoteGroup(votes: map<Id, Vote>, anchorId: Id) returns (ids: seq<Id>, key: Option<Vote>)
    ensures Distinct(ids) && Elements(ids) == AnchoredGroup(votes, anchorId)
    ensures key == if anchorId in votes then Some(votes[anchorId]) else None
  {
    ids := [];
    if anchorId !in votes { return [], None; }
    var anchor := votes[anchorId];
    var todo := votes.Keys;
    while todo != {}
      invariant todo <= votes.Keys
      invariant Distinct(ids) && Elements(ids) !! todo
      invariant Elements(ids) + (AnchoredGroup(votes, anchorId) * todo) == AnchoredGroup(votes, anchorId)
      decreases todo
    {
      var voterId :| voterId in todo;
      ghost var before := ids;
      var v := votes[voterId];
      if v.hash == anchor.hash &&
         !(anchor.root.Some? && v.root.Some? && v.root != anchor.root)
      {
        ids := ids + [voterId];
        assert Elements(ids) == Elements(before) + {voterId};
      }
      todo := todo - {voterId};
    }
    return ids, Some(anchor);
  }

  class BftRound {
    const config: RoundConfig
    const height: int
    var phase: Phase
    var proposedBlock: Option<Block>
    var prepareVotes: map<Id, Vote>
    var commitVotes: map<Id, Vote>

    ghost function State(): RoundState
      reads this
    {
      RoundState(height, phase, proposedBlock, prepareVotes, commitVotes)
    }

    constructor (height: int, config: RoundConfig)
      ensures State() == NewRound(height) && this.config == config
    {
      this.height := height;
      this.config := config;
      phase := Proposing;
      proposedBlock := None;
      prepareVotes := map[];
      commitVotes := map[];
    }

    method Propose(block: Block, sender: Id, root: Option<Hash>) returns (out: seq<Msg>)
      modifies this
      ensures (State(), out) == HandlePropose(config, old(State()), block, sender, root)
    {
      out := [];
      if phase != Proposing { return; }
      if block.number != height { return; }
      if !IsKnown(config.validators, sender) { return; }
      if block.proposer != sender { return; }
      proposedBlock := Some(block);
      phase := Preparing;
      if config.IsValidator() {
        prepareVotes := prepareVotes[config.localId := Vote(block.hash, root)];
        out := [Msg(Prepare, height, block.hash, config.localId, root)];
      }
    }

    method PrepareVote(sender: Id, hash: Hash, root: Option<Hash>) returns (out: seq<Msg>)
      modifies this
      ensures (State(), out) == HandlePrepare(config, old(State()), sender, hash, root)
    {
      out := [];
      if phase != Preparing { return; }
      if proposedBlock.None? { return; }
      if !IsKnown(config.validators, sender) { return; }
      if hash != proposedBlock.value.hash { return; }
      if sender in prepareVotes { return; }
      prepareVotes := prepareVotes[sender := Vote(hash, root)];
      var ids, _ := PickWinningVoteGroup(prepareVotes, config.localId);
      AccumulatedStakeIsStakeIn(ids, config.validators);
      if HasQuorum(ids, config.validators, config.relaxed) {
        phase := Committing;
        if config.IsValidator() {
          var ownRoot := if config.localId in prepareVotes then prepareVotes[config.localId].root else None;
          commitVotes := commitVotes[config.localId := Vote(hash, ownRoot)];
          var commitIds, _ := PickWinningVoteGroup(commitVotes, config.localId);
          AccumulatedStakeIsStakeIn(commitIds, config.validators);
          if HasQuorum(commitIds, config.validators, config.relaxed) {
            phase := Finalized;
            return;
          }
          out := [Msg(Commit, height, hash, config.localId, ownRoot)];
        }
      }
    }

    method CommitVote(sender: Id, hash: Hash, root: Option<Hash>) returns (finalized: bool)
      modifies this
      ensures (State(), finalized) == HandleCommit(config, old(State()), sender, hash, root)
    {
      finalized := false;
      if phase != Committing && phase != Preparing { return; }
      if !IsKnown(config.validators, sender) { return; }
      if proposedBlock.None? { return; }
      if hash != proposedBlock.value.hash { return; }
      if sender in commitVotes { return; }
      commitVotes := commitVotes[sender := Vote(hash, root)];
      if phase == Committing {
        var ids, _ := PickWinningVoteGroup(commitVotes, config.localId);
        AccumulatedStakeIsStakeIn(ids, config.validators);
        if HasQuorum(ids, config.validators, config.relaxed) {
          phase := Finalized;
          finalized := true;
        }
      }
    }

    method Abort()
      modifies this
      ensures State() == Fail(old(State()))
    {
      phase := Failed;
    }
  }
}
