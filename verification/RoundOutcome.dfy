/**
 * What a round comes to, over all message orders: its phase is a function of who voted, with what root, and
 * whether it was failed. Nothing here looks at the votes the round has on record; everything is said of the
 * events delivered to it.
 */
module RoundOutcome {
  import opened BftTypes
  import opened Quorum
  import opened Round

  // ----- Who voted -----------------------------------------------------------------------------

  predicate IsPrepareOf(e: RoundEvent, id: Id, hash: Hash) {
    e.OnPrepare? && e.sender == id && e.hash == hash
  }

  predicate IsCommitOf(e: RoundEvent, id: Id, hash: Hash) {
    e.OnCommit? && e.sender == id && e.hash == hash
  }

  /** The root in the sender's first prepare for the hash, if there is one. */
  function FirstPrepare(events: seq<RoundEvent>, id: Id, hash: Hash): Option<Option<Hash>> {
    if events == [] then None
    else
      var before, e := FirstPrepare(events[..|events| - 1], id, hash), events[|events| - 1];
      if before.Some? then before else if IsPrepareOf(e, id, hash) then Some(e.root) else None
  }

  function FirstCommit(events: seq<RoundEvent>, id: Id, hash: Hash): Option<Option<Hash>> {
    if events == [] then None
    else
      var before, e := FirstCommit(events[..|events| - 1], id, hash), events[|events| - 1];
      if before.Some? then before else if IsCommitOf(e, id, hash) then Some(e.root) else None
  }

  /** No two different roots. */
  predicate Fits(own: Option<Hash>, root: Option<Hash>) {
    own.None? || root.None? || own == root
  }

  /** The validators whose first prepare for the hash does not contradict the node's root, and the node. */
  ghost function PrepareBackers(cfg: RoundConfig, events: seq<RoundEvent>, hash: Hash, own: Option<Hash>): set<Id> {
    {cfg.localId} + set id | id in Ids(cfg.validators) && FirstPrepare(events, id, hash).Some?
                             && Fits(own, FirstPrepare(events, id, hash).value)
  }

  ghost function CommitBackers(cfg: RoundConfig, events: seq<RoundEvent>, hash: Hash, own: Option<Hash>): set<Id> {
    {cfg.localId} + set id | id in Ids(cfg.validators) && FirstCommit(events, id, hash).Some?
                             && Fits(own, FirstCommit(events, id, hash).value)
  }

  /** A peer prepared the hash, with whatever root. */
  ghost predicate PeerPrepared(cfg: RoundConfig, events: seq<RoundEvent>, hash: Hash) {
    exists id :: id in Ids(cfg.validators) && id != cfg.localId && FirstPrepare(events, id, hash).Some?
  }

  ghost predicate PrepareDone(cfg: RoundConfig, events: seq<RoundEvent>, hash: Hash, own: Option<Hash>) {
    IsQuorum(cfg.validators, cfg.relaxed, PrepareBackers(cfg, events, hash, own)) && PeerPrepared(cfg, events, hash)
  }

  ghost predicate CommitDone(cfg: RoundConfig, events: seq<RoundEvent>, hash: Hash, own: Option<Hash>) {
    IsQuorum(cfg.validators, cfg.relaxed, CommitBackers(cfg, events, hash, own))
  }

  // ----- The votes on record follow -------------------------------------------------------------

  /** The peers' votes on record are their first ones. */
  ghost predicate HoldsPrepares(cfg: RoundConfig, events: seq<RoundEvent>, hash: Hash, own: Option<Hash>, votes: map<Id, Vote>) {
    && cfg.localId in votes && votes[cfg.localId] == Vote(hash, own)
    && forall id :: id != cfg.localId ==>
      && (id in votes <==> id in Ids(cfg.validators) && FirstPrepare(events, id, hash).Some?)
      && (id in votes ==> votes[id] == Vote(hash, FirstPrepare(events, id, hash).value))
  }

  ghost predicate HoldsCommits(cfg: RoundConfig, events: seq<RoundEvent>, hash: Hash, votes: map<Id, Vote>) {
    forall id :: id != cfg.localId ==>
      && (id in votes <==> id in Ids(cfg.validators) && FirstCommit(events, id, hash).Some?)
      && (id in votes ==> votes[id] == Vote(hash, FirstCommit(events, id, hash).value))
  }

  ghost predicate Tracks(cfg: RoundConfig, block: Block, own: Option<Hash>, events: seq<RoundEvent>, s: RoundState) {
    s.proposed == Some(block) &&
    match s.phase
    case Proposing => false
    case Preparing =>
      && HoldsPrepares(cfg, events, block.hash, own, s.prepareVotes) && HoldsCommits(cfg, events, block.hash, s.commitVotes)
      && !PrepareDone(cfg, events, block.hash, own)
    case Committing =>
      && PrepareDone(cfg, events, block.hash, own) && HoldsCommits(cfg, events, block.hash, s.commitVotes)
      && cfg.localId in s.commitVotes && s.commitVotes[cfg.localId] == Vote(block.hash, own)
      && !CommitDone(cfg, events, block.hash, own)
    case Finalized => PrepareDone(cfg, events, block.hash, own) && CommitDone(cfg, events, block.hash, own)
    case Failed => false
  }

  /** The group the round counts is the set of backers. */
  lemma PrepareGroup(cfg: RoundConfig, events: seq<RoundEvent>, hash: Hash, own: Option<Hash>, votes: map<Id, Vote>)
    requires HoldsPrepares(cfg, events, hash, own, votes)
    ensures AnchoredGroup(votes, cfg.localId) == PrepareBackers(cfg, events, hash, own)
  {
    forall id ensures id in AnchoredGroup(votes, cfg.localId) <==> id in PrepareBackers(cfg, events, hash, own) {
    }
  }

  lemma CommitGroup(cfg: RoundConfig, events: seq<RoundEvent>, hash: Hash, own: Option<Hash>, votes: map<Id, Vote>)
    requires HoldsCommits(cfg, events, hash, votes) && cfg.localId in votes && votes[cfg.localId] == Vote(hash, own)
    ensures AnchoredGroup(votes, cfg.localId) == CommitBackers(cfg, events, hash, own)
  {
    forall id ensures id in AnchoredGroup(votes, cfg.localId) <==> id in CommitBackers(cfg, events, hash, own) {
    }
  }

  // ----- One more event ---------------------------------------------------------------------------

  lemma OneMorePrepare(events: seq<RoundEvent>, e: RoundEvent, id: Id, hash: Hash)
    ensures FirstPrepare(events + [e], id, hash) ==
      if FirstPrepare(events, id, hash).Some? then FirstPrepare(events, id, hash)
      else if IsPrepareOf(e, id, hash) then Some(e.root) else None
  {
    assert (events + [e])[..|events|] == events;
  }

  lemma OneMoreCommit(events: seq<RoundEvent>, e: RoundEvent, id: Id, hash: Hash)
    ensures FirstCommit(events + [e], id, hash) ==
      if FirstCommit(events, id, hash).Some? then FirstCommit(events, id, hash)
      else if IsCommitOf(e, id, hash) then Some(e.root) else None
  {
    assert (events + [e])[..|events|] == events;
  }

  /** What is done stays done. */
  lemma DoneStays(cfg: RoundConfig, events: seq<RoundEvent>, e: RoundEvent, hash: Hash, own: Option<Hash>)
    ensures PrepareDone(cfg, events, hash, own) ==> PrepareDone(cfg, events + [e], hash, own)
    ensures CommitDone(cfg, events, hash, own) ==> CommitDone(cfg, events + [e], hash, own)
  {
    var all := events + [e];
    forall id
      ensures FirstPrepare(events, id, hash).Some? ==> FirstPrepare(all, id, hash) == FirstPrepare(events, id, hash)
      ensures FirstCommit(events, id, hash).Some? ==> FirstCommit(all, id, hash) == FirstCommit(events, id, hash)
    {
      OneMorePrepare(events, e, id, hash);
      OneMoreCommit(events, e, id, hash);
    }
    assert PrepareBackers(cfg, events, hash, own) <= PrepareBackers(cfg, all, hash, own);
    assert CommitBackers(cfg, events, hash, own) <= CommitBackers(cfg, all, hash, own);
    hide FirstPrepare, FirstCommit, PrepareBackers, CommitBackers;
    StakeInMonotone(cfg.validators, PrepareBackers(cfg, events, hash, own), PrepareBackers(cfg, all, hash, own));
    StakeInMonotone(cfg.validators, CommitBackers(cfg, events, hash, own), CommitBackers(cfg, all, hash, own));
  }

  /** A peer's prepare that is not news changes no set; so does a prepare of the node itself. */
  lemma NoNews(cfg: RoundConfig, events: seq<RoundEvent>, e: RoundEvent, hash: Hash, own: Option<Hash>)
    requires !News(cfg, events, e, hash)
    ensures PrepareDone(cfg, events + [e], hash, own) <==> PrepareDone(cfg, events, hash, own)
    ensures CommitDone(cfg, events + [e], hash, own) <==> CommitDone(cfg, events, hash, own)
    ensures forall votes :: HoldsPrepares(cfg, events, hash, own, votes) ==> HoldsPrepares(cfg, events + [e], hash, own, votes)
    ensures forall votes :: HoldsCommits(cfg, events, hash, votes) ==> HoldsCommits(cfg, events + [e], hash, votes)
  {
    var all := events + [e];
    forall id | id in Ids(cfg.validators) && id != cfg.localId
      ensures FirstPrepare(all, id, hash) == FirstPrepare(events, id, hash)
      ensures FirstCommit(all, id, hash) == FirstCommit(events, id, hash)
    {
      OneMorePrepare(events, e, id, hash);
      OneMoreCommit(events, e, id, hash);
    }
    hide FirstPrepare, FirstCommit;
    assert PrepareBackers(cfg, events, hash, own) == PrepareBackers(cfg, all, hash, own);
    assert CommitBackers(cfg, events, hash, own) == CommitBackers(cfg, all, hash, own);
  }

  /** The event is the first vote of its kind of a peer that is a validator, for the hash. */
  ghost predicate News(cfg: RoundConfig, events: seq<RoundEvent>, e: RoundEvent, hash: Hash) {
    match e
    case OnPrepare(id, x, _) =>
      x == hash && id in Ids(cfg.validators) && id != cfg.localId && FirstPrepare(events, id, hash).None?
    case OnCommit(id, x, _) =>
      x == hash && id in Ids(cfg.validators) && id != cfg.localId && FirstCommit(events, id, hash).None?
    case _ => false
  }

  lemma NewPrepare(cfg: RoundConfig, events: seq<RoundEvent>, e: RoundEvent, hash: Hash, own: Option<Hash>, votes: map<Id, Vote>)
    requires e.OnPrepare? && News(cfg, events, e, hash) && HoldsPrepares(cfg, events, hash, own, votes)
    ensures HoldsPrepares(cfg, events + [e], hash, own, votes[e.sender := Vote(hash, e.root)])
    ensures PeerPrepared(cfg, events + [e], hash)
  {
    forall id
      ensures FirstPrepare(events + [e], id, hash) ==
        if FirstPrepare(events, id, hash).Some? then FirstPrepare(events, id, hash)
        else if IsPrepareOf(e, id, hash) then Some(e.root) else None
    {
      OneMorePrepare(events, e, id, hash);
    }
  }

  lemma NewCommit(cfg: RoundConfig, events: seq<RoundEvent>, e: RoundEvent, hash: Hash, votes: map<Id, Vote>)
    requires e.OnCommit? && News(cfg, events, e, hash) && HoldsCommits(cfg, events, hash, votes)
    ensures HoldsCommits(cfg, events + [e], hash, votes[e.sender := Vote(hash, e.root)])
  {
    forall id
      ensures FirstCommit(events + [e], id, hash) ==
        if FirstCommit(events, id, hash).Some? then FirstCommit(events, id, hash)
        else if IsCommitOf(e, id, hash) then Some(e.root) else None
    {
      OneMoreCommit(events, e, id, hash);
    }
  }

  /** A prepare leaves the commits where they are, and the other way round. */
  lemma OtherKind(cfg: RoundConfig, events: seq<RoundEvent>, e: RoundEvent, hash: Hash, own: Option<Hash>)
    ensures e.OnPrepare? ==> (CommitDone(cfg, events + [e], hash, own) <==> CommitDone(cfg, events, hash, own))
    ensures e.OnPrepare? ==> forall votes :: HoldsCommits(cfg, events, hash, votes) ==> HoldsCommits(cfg, events + [e], hash, votes)
    ensures e.OnCommit? ==> (PrepareDone(cfg, events + [e], hash, own) <==> PrepareDone(cfg, events, hash, own))
    ensures e.OnCommit? ==> forall votes :: HoldsPrepares(cfg, events, hash, own, votes) ==> HoldsPrepares(cfg, events + [e], hash, own, votes)
  {
    var all := events + [e];
    forall id
      ensures e.OnCommit? ==> FirstPrepare(all, id, hash) == FirstPrepare(events, id, hash)
      ensures e.OnPrepare? ==> FirstCommit(all, id, hash) == FirstCommit(events, id, hash)
    {
      OneMorePrepare(events, e, id, hash);
      OneMoreCommit(events, e, id, hash);
    }
    hide FirstPrepare, FirstCommit;
    if e.OnPrepare? {
      assert CommitBackers(cfg, events, hash, own) == CommitBackers(cfg, all, hash, own);
    }
    if e.OnCommit? {
      assert PrepareBackers(cfg, events, hash, own) == PrepareBackers(cfg, all, hash, own);
    }
  }

  lemma PrepareStep(cfg: RoundConfig, block: Block, own: Option<Hash>, events: seq<RoundEvent>, s: RoundState, e: RoundEvent)
    requires cfg.IsValidator() && Tracks(cfg, block, own, events, s) && s.phase == Preparing
    requires e.OnPrepare? && News(cfg, events, e, block.hash)
    ensures Tracks(cfg, block, own, events + [e], RoundStep(cfg, s, e))
  {
    var hash := block.hash;
    var votes := s.prepareVotes[e.sender := Vote(hash, e.root)];
    KnownIds(cfg.validators, e.sender);
    NewPrepare(cfg, events, e, hash, own, s.prepareVotes);
    PrepareGroup(cfg, events + [e], hash, own, votes);
    OtherKind(cfg, events, e, hash, own);
    var commits := s.commitVotes[cfg.localId := Vote(hash, own)];
    assert HoldsCommits(cfg, events + [e], hash, s.commitVotes);
    assert HoldsCommits(cfg, events + [e], hash, commits);
    CommitGroup(cfg, events + [e], hash, own, commits);
    assert e.sender !in s.prepareVotes && votes[cfg.localId].root == own;
    hide AnchoredGroup, PrepareBackers, CommitBackers, HoldsCommits, FirstPrepare, FirstCommit, IsKnown, IsQuorum;
  }

  lemma CommitStep(cfg: RoundConfig, block: Block, own: Option<Hash>, events: seq<RoundEvent>, s: RoundState, e: RoundEvent)
    requires cfg.IsValidator() && Tracks(cfg, block, own, events, s) && s.phase in {Preparing, Committing}
    requires e.OnCommit? && News(cfg, events, e, block.hash)
    ensures Tracks(cfg, block, own, events + [e], RoundStep(cfg, s, e))
  {
    var hash := block.hash;
    var votes := s.commitVotes[e.sender := Vote(hash, e.root)];
    KnownIds(cfg.validators, e.sender);
    NewCommit(cfg, events, e, hash, s.commitVotes);
    OtherKind(cfg, events, e, hash, own);
    assert e.sender !in s.commitVotes;
    if s.phase == Committing {
      CommitGroup(cfg, events + [e], hash, own, votes);
    }
    hide AnchoredGroup, PrepareBackers, CommitBackers, HoldsCommits, HoldsPrepares, FirstPrepare, FirstCommit, IsKnown, IsQuorum;
  }

  /** Anything else leaves the round as it is, except that an own commit may be noted early. */
  lemma StaleStep(cfg: RoundConfig, block: Block, own: Option<Hash>, events: seq<RoundEvent>, s: RoundState, e: RoundEvent)
    requires cfg.IsValidator() && Tracks(cfg, block, own, events, s) && !e.OnFail?
    requires !News(cfg, events, e, block.hash)
    ensures Tracks(cfg, block, own, events + [e], RoundStep(cfg, s, e))
  {
    NoNews(cfg, events, e, block.hash, own);
    if !e.OnPropose? {
      KnownIds(cfg.validators, e.sender);
    }
    StaleIsIgnored(cfg, block, own, events, s, e);
    hide PrepareDone, CommitDone, RoundStep;
  }

  lemma StaleIsIgnored(cfg: RoundConfig, block: Block, own: Option<Hash>, events: seq<RoundEvent>, s: RoundState, e: RoundEvent)
    requires Tracks(cfg, block, own, events, s) && !e.OnFail? && !News(cfg, events, e, block.hash)
    requires !e.OnPropose? ==> (IsKnown(cfg.validators, e.sender) <==> e.sender in Ids(cfg.validators))
    ensures var next := RoundStep(cfg, s, e);
      next == s || (s.phase == Preparing && e.OnCommit? && e.sender == cfg.localId
                    && next == s.(commitVotes := s.commitVotes[cfg.localId := Vote(block.hash, e.root)]))
  {
    hide GroupHasQuorum, PrepareDone, CommitDone, IsKnown, Ids;
  }

  lemma TracksStep(cfg: RoundConfig, block: Block, own: Option<Hash>, events: seq<RoundEvent>, s: RoundState, e: RoundEvent)
    requires cfg.IsValidator() && Tracks(cfg, block, own, events, s) && !e.OnFail?
    ensures Tracks(cfg, block, own, events + [e], RoundStep(cfg, s, e))
  {
    if !News(cfg, events, e, block.hash) {
      StaleStep(cfg, block, own, events, s, e);
    } else if e.OnPrepare? && s.phase == Preparing {
      PrepareStep(cfg, block, own, events, s, e);
    } else if e.OnCommit? && s.phase in {Preparing, Committing} {
      CommitStep(cfg, block, own, events, s, e);
    } else {
      DoneStays(cfg, events, e, block.hash, own);
      OtherKind(cfg, events, e, block.hash, own);
      hide PrepareDone, CommitDone, HoldsCommits, HoldsPrepares;
    }
  }

  // ----- Whole runs -----------------------------------------------------------------------------

  predicate NoFailure(events: seq<RoundEvent>) {
    forall i :: 0 <= i < |events| ==> !events[i].OnFail?
  }

  lemma {:induction false} RunTracks(cfg: RoundConfig, block: Block, own: Option<Hash>, s: RoundState, events: seq<RoundEvent>)
    requires cfg.IsValidator() && NoFailure(events) && Tracks(cfg, block, own, [], s)
    ensures Tracks(cfg, block, own, events, RoundRun(cfg, s, events))
  {
    hide Tracks, RoundStep;
    if events != [] {
      var front, e := events[..|events| - 1], events[|events| - 1];
      RunTracks(cfg, block, own, s, front);
      TracksStep(cfg, block, own, front, RoundRun(cfg, s, front), e);
      assert front + [e] == events;
      RunConcat(cfg, s, front, [e]);
      assert RoundRun(cfg, RoundRun(cfg, s, front), [e]) == RoundStep(cfg, RoundRun(cfg, s, front), e) by {
        assert [e][1..] == [];
      }
    }
  }

  lemma OpenedTracks(cfg: RoundConfig, block: Block, own: Option<Hash>)
    requires cfg.IsValidator() && IsKnown(cfg.validators, block.proposer)
    ensures Tracks(cfg, block, own, [], HandlePropose(cfg, NewRound(block.number), block, block.proposer, own).0)
  {
  }

  /** The phase that these votes come to. */
  ghost function PhaseOf(cfg: RoundConfig, block: Block, own: Option<Hash>, events: seq<RoundEvent>): Phase {
    if !PrepareDone(cfg, events, block.hash, own) then Preparing
    else if !CommitDone(cfg, events, block.hash, own) then Committing
    else Finalized
  }

  /**
   * The outcome of a validator's round: after the proposal, whatever comes in whatever order, it is finalized
   * exactly when the peers whose first prepare fits, with the node, are a quorum and some peer prepared, and the
   * peers whose first commit fits, with the node, are a quorum; it is committing exactly when only the former
   * holds. A failure ends it at any point.
   */
  lemma RoundComesTo(cfg: RoundConfig, block: Block, own: Option<Hash>, events: seq<RoundEvent>)
    requires cfg.IsValidator() && IsKnown(cfg.validators, block.proposer)
    ensures var s := RoundRun(cfg, NewRound(block.number), [OnPropose(block, block.proposer, own)] + events);
      && s.proposed == Some(block)
      && s.phase == if NoFailure(events) then PhaseOf(cfg, block, own, events) else Failed
  {
    var first := OnPropose(block, block.proposer, own);
    var s := RoundStep(cfg, NewRound(block.number), first);
    OpenedTracks(cfg, block, own);
    assert ([first] + events)[1..] == events && ([first] + events)[0] == first;
    if NoFailure(events) {
      RunTracks(cfg, block, own, s, events);
    } else {
      OpenInv(cfg, block, own);
      hide RoundInv, RoundStep;
      FailureEnds(cfg, s, events);
      RoundRunSafe(cfg, s, events);
    }
  }

  /**
   * The commit goes out exactly once: when a prepare completes the prepare quorum and the commits so far are not
   * one yet. It carries the node's own root.
   */
  lemma CommitSentWhen(cfg: RoundConfig, block: Block, own: Option<Hash>, events: seq<RoundEvent>, id: Id, hash: Hash, root: Option<Hash>)
    requires cfg.IsValidator() && IsKnown(cfg.validators, block.proposer) && NoFailure(events)
    ensures var s := RoundRun(cfg, NewRound(block.number), [OnPropose(block, block.proposer, own)] + events);
      var before, after := PhaseOf(cfg, block, own, events), PhaseOf(cfg, block, own, events + [OnPrepare(id, hash, root)]);
      HandlePrepare(cfg, s, id, hash, root).1 ==
        if before == Preparing && after == Committing then [Msg(Commit, block.number, block.hash, cfg.localId, own)] else []
  {
    var first, e := OnPropose(block, block.proposer, own), OnPrepare(id, hash, root);
    var s1 := RoundStep(cfg, NewRound(block.number), first);
    OpenedTracks(cfg, block, own);
    assert ([first] + events)[1..] == events;
    RunTracks(cfg, block, own, s1, events);
    var s := RoundRun(cfg, s1, events);
    TracksStep(cfg, block, own, events, s, e);
    OpenInv(cfg, block, own);
    RoundRunSafe(cfg, s1, events);
    hide RoundRun, RoundInv;
    MessageFollowsPhase(cfg, block, own, events, s, id, hash, root);
  }

  lemma MessageFollowsPhase(cfg: RoundConfig, block: Block, own: Option<Hash>, events: seq<RoundEvent>, s: RoundState,
                            id: Id, hash: Hash, root: Option<Hash>)
    requires cfg.IsValidator() && Tracks(cfg, block, own, events, s) && s.height == block.number
    requires Tracks(cfg, block, own, events + [OnPrepare(id, hash, root)], HandlePrepare(cfg, s, id, hash, root).0)
    ensures var before, after := PhaseOf(cfg, block, own, events), PhaseOf(cfg, block, own, events + [OnPrepare(id, hash, root)]);
      HandlePrepare(cfg, s, id, hash, root).1 ==
        if before == Preparing && after == Committing then [Msg(Commit, block.number, block.hash, cfg.localId, own)] else []
  {
    var (next, out) := HandlePrepare(cfg, s, id, hash, root);
    PhaseIs(cfg, block, own, events, s);
    PhaseIs(cfg, block, own, events + [OnPrepare(id, hash, root)], next);
    hide GroupHasQuorum, PrepareDone, CommitDone, HoldsCommits, PhaseOf, IsKnown;
  }

  lemma PhaseIs(cfg: RoundConfig, block: Block, own: Option<Hash>, events: seq<RoundEvent>, s: RoundState)
    requires Tracks(cfg, block, own, events, s)
    ensures s.phase == PhaseOf(cfg, block, own, events)
  {
    hide PrepareDone, CommitDone, HoldsPrepares, HoldsCommits;
  }

  lemma OpenInv(cfg: RoundConfig, block: Block, own: Option<Hash>)
    ensures RoundInv(cfg, RoundStep(cfg, NewRound(block.number), OnPropose(block, block.proposer, own)))
  {
    ProposeKeepsInv(cfg, NewRound(block.number), block, block.proposer, own);
  }

  lemma {:induction false} FailureEnds(cfg: RoundConfig, s: RoundState, events: seq<RoundEvent>)
    requires RoundInv(cfg, s) && (s.phase == Failed || !NoFailure(events))
    ensures RoundRun(cfg, s, events).phase == Failed
    decreases |events|
  {
    hide RoundInv;
    if events != [] {
      StepKeepsInv(cfg, s, events[0]);
      assert events[0].OnFail? || s.phase == Failed || !NoFailure(events[1..]);
      FailureEnds(cfg, RoundStep(cfg, s, events[0]), events[1..]);
    }
  }

  // ----- When nobody contradicts ------------------------------------------------------------------

  /** Who sent a prepare for the hash. */
  ghost function PrepareSenders(cfg: RoundConfig, events: seq<RoundEvent>, hash: Hash): set<Id> {
    set i | 0 <= i < |events| && events[i].OnPrepare? && events[i].hash == hash && events[i].sender in Ids(cfg.validators)
      :: events[i].sender
  }

  ghost function CommitSenders(cfg: RoundConfig, events: seq<RoundEvent>, hash: Hash): set<Id> {
    set i | 0 <= i < |events| && events[i].OnCommit? && events[i].hash == hash && events[i].sender in Ids(cfg.validators)
      :: events[i].sender
  }

  /** No vote for the hash carries a root against the node's. */
  ghost predicate NoneContradicts(events: seq<RoundEvent>, hash: Hash, own: Option<Hash>) {
    forall i :: 0 <= i < |events| && (events[i].OnPrepare? || events[i].OnCommit?) && events[i].hash == hash ==>
      Fits(own, events[i].root)
  }

  lemma {:induction false} FirstOnes(events: seq<RoundEvent>, id: Id, hash: Hash)
    ensures FirstPrepare(events, id, hash).Some? <==> exists i :: 0 <= i < |events| && IsPrepareOf(events[i], id, hash)
    ensures FirstCommit(events, id, hash).Some? <==> exists i :: 0 <= i < |events| && IsCommitOf(events[i], id, hash)
    ensures FirstPrepare(events, id, hash).Some? ==>
      exists i :: 0 <= i < |events| && IsPrepareOf(events[i], id, hash) && events[i].root == FirstPrepare(events, id, hash).value
    ensures FirstCommit(events, id, hash).Some? ==>
      exists i :: 0 <= i < |events| && IsCommitOf(events[i], id, hash) && events[i].root == FirstCommit(events, id, hash).value
  {
    if events != [] {
      var n := |events| - 1;
      var front := events[..n];
      FirstOnes(front, id, hash);
      assert forall i :: 0 <= i < n ==> front[i] == events[i];
      assert events[n] == events[|events| - 1];
    }
  }

  /** Then the backers are simply the senders, and the node. */
  lemma BackersAreSenders(cfg: RoundConfig, events: seq<RoundEvent>, hash: Hash, own: Option<Hash>)
    requires NoneContradicts(events, hash, own)
    ensures PrepareBackers(cfg, events, hash, own) == {cfg.localId} + PrepareSenders(cfg, events, hash)
    ensures CommitBackers(cfg, events, hash, own) == {cfg.localId} + CommitSenders(cfg, events, hash)
    ensures PeerPrepared(cfg, events, hash) <==> !(PrepareSenders(cfg, events, hash) <= {cfg.localId})
  {
    forall id | id in Ids(cfg.validators)
      ensures id in PrepareSenders(cfg, events, hash) <==> FirstPrepare(events, id, hash).Some?
      ensures id in CommitSenders(cfg, events, hash) <==> FirstCommit(events, id, hash).Some?
      ensures FirstPrepare(events, id, hash).Some? ==> Fits(own, FirstPrepare(events, id, hash).value)
      ensures FirstCommit(events, id, hash).Some? ==> Fits(own, FirstCommit(events, id, hash).value)
    {
      FirstOnes(events, id, hash);
    }
    hide FirstPrepare, FirstCommit, NoneContradicts, Fits;
  }

  /**
   * When nobody contradicts the node's root, a validator's round is finalized exactly when the senders of the
   * prepares, with the node, are a quorum with a peer among them, and the senders of the commits, with the node,
   * are a quorum, in whatever order they arrive.
   */
  lemma FinalizedIffQuorumsSent(cfg: RoundConfig, block: Block, own: Option<Hash>, events: seq<RoundEvent>)
    requires cfg.IsValidator() && IsKnown(cfg.validators, block.proposer)
    requires NoFailure(events) && NoneContradicts(events, block.hash, own)
    ensures var s := RoundRun(cfg, NewRound(block.number), [OnPropose(block, block.proposer, own)] + events);
      s.phase == Finalized <==>
        && IsQuorum(cfg.validators, cfg.relaxed, {cfg.localId} + PrepareSenders(cfg, events, block.hash))
        && !(PrepareSenders(cfg, events, block.hash) <= {cfg.localId})
        && IsQuorum(cfg.validators, cfg.relaxed, {cfg.localId} + CommitSenders(cfg, events, block.hash))
  {
    RoundComesTo(cfg, block, own, events);
    BackersAreSenders(cfg, events, block.hash, own);
    hide RoundRun, PrepareBackers, CommitBackers, PrepareSenders, CommitSenders, PeerPrepared;
  }
}
