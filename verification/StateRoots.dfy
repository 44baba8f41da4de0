/**
 * When do nodes that commit to one block agree on its state root?
 *
 * A vote without a root joins every group, so a quorum on the hash is not a quorum on the root. The
 * theorem below gives the exact condition on the tables of stakes in use under which every two nodes that
 * get past prepare, each on a table of its own and in whatever order votes reach them, commit to one root.
 */
module StateRoots {
  import opened BftTypes
  import opened Quorum
  import opened Round

  /**
   * The tables of stakes in use, who is honest, and which honest ones report: every prepare they send at the
   * height carries one and the same root. A validator that restarts and repeats its vote from the ledger,
   * where no root is kept, is honest and does not report.
   */
  datatype Setting = Setting(tables: set<seq<Validator>>, relaxed: bool, honest: set<Id>, rooted: set<Id>) {
    function Cfg(vals: seq<Validator>, me: Id): RoundConfig {
      RoundConfig(vals, me, relaxed)
    }
  }

  type Ballots = map<Id, Option<Hash>>

  /** The root each honest validator computed for the block, if any; those that report have one. */
  ghost predicate BallotsOf(x: Setting, ballots: Ballots) {
    forall id :: id in x.honest ==> id in ballots && (id in x.rooted ==> ballots[id].Some?)
  }

  /**
   * A reporting validator always sends its root. An honest one that does not report sends its root or
   * none, and not necessarily the same to everyone. Faulty ones send anything.
   */
  ghost predicate MaySendRoot(x: Setting, ballots: Ballots, id: Id, root: Option<Hash>)
    requires BallotsOf(x, ballots)
  {
    id in x.honest ==> root == ballots[id] || (id !in x.rooted && root.None?)
  }

  ghost predicate Follows(x: Setting, ballots: Ballots, me: Id, e: RoundEvent)
    requires BallotsOf(x, ballots)
  {
    match e
    case OnPropose(_, _, root) => MaySendRoot(x, ballots, me, root)
    case OnPrepare(sender, _, root) => MaySendRoot(x, ballots, sender, root)
    case OnCommit(_, _, _) => true
    case OnFail => true
  }

  ghost predicate RunFollows(x: Setting, ballots: Ballots, me: Id, events: seq<RoundEvent>)
    requires BallotsOf(x, ballots)
  {
    forall i :: 0 <= i < |events| ==> Follows(x, ballots, me, events[i])
  }

  ghost predicate PastPrepare(s: RoundState) {
    s.phase == Committing || s.phase == Finalized
  }

  ghost function Outcome(x: Setting, vals: seq<Validator>, me: Id, height: int, events: seq<RoundEvent>): RoundState {
    RoundRun(x.Cfg(vals, me), NewRound(height), events)
  }

  /** If both nodes got past prepare on one block, their own commits carry one root. */
  ghost predicate SameRoot(a: Id, s1: RoundState, b: Id, s2: RoundState) {
    PastPrepare(s1) && PastPrepare(s2) && s1.proposed == s2.proposed ==>
      a in s1.commitVotes && b in s2.commitVotes && s1.commitVotes[a].root == s2.commitVotes[b].root
  }

  /** A validator of a table in use that reports roots. */
  ghost predicate Reports(x: Setting, vals: seq<Validator>, id: Id) {
    vals in x.tables && id in x.rooted && IsKnown(vals, id)
  }

  /** A reporting validator on its table, and a run of its round that the ballots allow. */
  ghost predicate Takes(x: Setting, ballots: Ballots, vals: seq<Validator>, me: Id, events: seq<RoundEvent>)
    requires BallotsOf(x, ballots)
  {
    Reports(x, vals, me) && RunFollows(x, ballots, me, events)
  }

  ghost predicate RootsAgree(x: Setting) {
    forall ballots, v1, a, v2, b, height, e1, e2 ::
      BallotsOf(x, ballots) && Takes(x, ballots, v1, a, e1) && Takes(x, ballots, v2, b, e2)
      ==> SameRoot(a, Outcome(x, v1, a, height, e1), b, Outcome(x, v2, b, height, e2))
  }

  /** A quorum of known validators that holds the reporting node itself. */
  ghost predicate Anchored(x: Setting, vals: seq<Validator>, me: Id, g: set<Id>) {
    Reports(x, vals, me) && me in g && IsQuorum(vals, x.relaxed, g) && forall id :: id in g ==> IsKnown(vals, id)
  }

  ghost predicate Share(x: Setting, g1: set<Id>, g2: set<Id>) {
    exists k :: k in g1 && k in g2 && k in x.rooted
  }

  /** The quorums of two reporting validators always share a validator that reports. */
  ghost predicate QuorumsShareReporter(x: Setting) {
    forall v1, a, g1, v2, b, g2 :: a != b && Anchored(x, v1, a, g1) && Anchored(x, v2, b, g2) ==> Share(x, g1, g2)
  }

  // ----- Enough --------------------------------------------------------------------------------

  /** Votes on record carry the roots of the reporting validators that sent them. */
  ghost predicate VotesFollow(x: Setting, ballots: Ballots, votes: map<Id, Vote>)
    requires BallotsOf(x, ballots)
  {
    forall id :: id in votes && id in x.honest && id in x.rooted ==> votes[id].root == ballots[id]
  }

  lemma {:induction false} RunKeepsBallots(x: Setting, ballots: Ballots, cfg: RoundConfig, s: RoundState, events: seq<RoundEvent>)
    requires BallotsOf(x, ballots) && RunFollows(x, ballots, cfg.localId, events) && VotesFollow(x, ballots, s.prepareVotes)
    ensures VotesFollow(x, ballots, RoundRun(cfg, s, events).prepareVotes)
    decreases |events|
  {
    if events != [] {
      assert Follows(x, ballots, cfg.localId, events[0]);
      StepKeepsBallots(x, ballots, cfg, s, events[0]);
      RunKeepsBallots(x, ballots, cfg, RoundStep(cfg, s, events[0]), events[1..]);
    }
  }

  lemma StepKeepsBallots(x: Setting, ballots: Ballots, cfg: RoundConfig, s: RoundState, e: RoundEvent)
    requires BallotsOf(x, ballots) && Follows(x, ballots, cfg.localId, e) && VotesFollow(x, ballots, s.prepareVotes)
    ensures VotesFollow(x, ballots, RoundStep(cfg, s, e).prepareVotes)
  {
    hide GroupHasQuorum, IsKnown;
  }

  /** Past prepare, the node's quorum is anchored on its ballot and its commit repeats it. */
  lemma QuorumFollowsBallot(x: Setting, ballots: Ballots, vals: seq<Validator>, me: Id, height: int, events: seq<RoundEvent>)
    requires x.rooted <= x.honest && BallotsOf(x, ballots) && Takes(x, ballots, vals, me, events)
    requires PastPrepare(Outcome(x, vals, me, height, events))
    ensures var s := Outcome(x, vals, me, height, events);
      && me in s.commitVotes && s.commitVotes[me].root == ballots[me]
      && Anchored(x, vals, me, AnchoredGroup(s.prepareVotes, me))
      && forall k :: k in AnchoredGroup(s.prepareVotes, me) && k in x.rooted ==> ballots[k] == ballots[me]
  {
    RoundRunSafe(x.Cfg(vals, me), NewRound(height), events);
    RunKeepsBallots(x, ballots, x.Cfg(vals, me), NewRound(height), events);
  }

  lemma SharedReporterIsEnough(x: Setting, ballots: Ballots, height: int,
                               v1: seq<Validator>, a: Id, e1: seq<RoundEvent>, v2: seq<Validator>, b: Id, e2: seq<RoundEvent>)
    requires x.rooted <= x.honest && QuorumsShareReporter(x) && BallotsOf(x, ballots)
    requires Takes(x, ballots, v1, a, e1) && Takes(x, ballots, v2, b, e2)
    ensures SameRoot(a, Outcome(x, v1, a, height, e1), b, Outcome(x, v2, b, height, e2))
  {
    var s1, s2 := Outcome(x, v1, a, height, e1), Outcome(x, v2, b, height, e2);
    assert a in ballots && b in ballots;
    hide Outcome, Anchored, Takes;
    if PastPrepare(s1) && PastPrepare(s2) {
      QuorumFollowsBallot(x, ballots, v1, a, height, e1);
      QuorumFollowsBallot(x, ballots, v2, b, height, e2);
      if a != b {
        var g1, g2 := AnchoredGroup(s1.prepareVotes, a), AnchoredGroup(s2.prepareVotes, b);
        assert Share(x, g1, g2);
        var k :| k in g1 && k in g2 && k in x.rooted;
        assert ballots[k] == ballots[a] && ballots[k] == ballots[b];
      }
    }
  }

  // ----- Needed -----------------------------------------------------------------------------------

  /** Prepares for a hash from a list of validators, each with its root. */
  ghost function Prepares(ids: seq<Id>, hash: Hash, roots: Ballots): seq<RoundEvent>
    requires forall id :: id in ids ==> id in roots
  {
    if ids == [] then [] else [OnPrepare(ids[0], hash, roots[ids[0]])] + Prepares(ids[1..], hash, roots)
  }

  /** A round that can still take these prepares. */
  ghost predicate Open(cfg: RoundConfig, s: RoundState, hash: Hash) {
    RoundInv(cfg, s) && s.proposed.Some? && s.proposed.value.hash == hash && (s.phase == Preparing || PastPrepare(s))
  }

  lemma OnePrepare(cfg: RoundConfig, s: RoundState, id: Id, hash: Hash, root: Option<Hash>)
    requires Open(cfg, s, hash) && IsKnown(cfg.validators, id)
    ensures var next := RoundStep(cfg, s, OnPrepare(id, hash, root));
      && Open(cfg, next, hash) && next.proposed == s.proposed && (PastPrepare(s) ==> PastPrepare(next))
      && (next.phase == Preparing && id !in s.prepareVotes ==> next.prepareVotes == s.prepareVotes[id := Vote(hash, root)])
  {
    StepKeepsInv(cfg, s, OnPrepare(id, hash, root));
    hide RoundInv, GroupHasQuorum;
  }

  /** Either the round gets past prepare, or it holds all those votes. */
  lemma {:induction false} AllPrepares(cfg: RoundConfig, s: RoundState, ids: seq<Id>, hash: Hash, roots: Ballots)
    requires Open(cfg, s, hash) && Distinct(ids)
    requires forall id :: id in ids ==> id in roots && IsKnown(cfg.validators, id) && id !in s.prepareVotes
    ensures var s' := RoundRun(cfg, s, Prepares(ids, hash, roots));
      && Open(cfg, s', hash) && s'.proposed == s.proposed && (PastPrepare(s) ==> PastPrepare(s'))
      && (s'.phase == Preparing ==>
            && (forall k :: k in s'.prepareVotes <==> k in s.prepareVotes || k in ids)
            && (forall k :: k in s.prepareVotes ==> s'.prepareVotes[k] == s.prepareVotes[k])
            && (forall k :: k in ids ==> s'.prepareVotes[k] == Vote(hash, roots[k])))
    decreases |ids|
  {
    hide Open, RoundStep;
    if ids != [] {
      var id, rest := ids[0], ids[1..];
      assert id in ids && forall k :: k in rest ==> k in ids;
      var e := OnPrepare(id, hash, roots[id]);
      var next := RoundStep(cfg, s, e);
      OnePrepare(cfg, s, id, hash, roots[id]);
      assert Prepares(ids, hash, roots) == [e] + Prepares(rest, hash, roots);
      assert ([e] + Prepares(rest, hash, roots))[1..] == Prepares(rest, hash, roots);
      assert PastPrepare(next) || next.phase == Preparing by { OpenPhase(cfg, next, hash); }
      if next.phase == Preparing {
        assert forall k :: k in rest ==> k != id && k !in next.prepareVotes;
        AllPrepares(cfg, next, rest, hash, roots);
        assert forall k :: k in ids <==> k == id || k in rest;
      } else {
        StaysPast(cfg, next, rest, hash, roots);
      }
    }
  }

  lemma OpenPhase(cfg: RoundConfig, s: RoundState, hash: Hash)
    requires Open(cfg, s, hash)
    ensures s.phase == Preparing || PastPrepare(s)
  {
  }

  lemma {:induction false} StaysPast(cfg: RoundConfig, s: RoundState, ids: seq<Id>, hash: Hash, roots: Ballots)
    requires Open(cfg, s, hash) && PastPrepare(s)
    requires forall id :: id in ids ==> id in roots && IsKnown(cfg.validators, id)
    ensures var s' := RoundRun(cfg, s, Prepares(ids, hash, roots));
      Open(cfg, s', hash) && s'.proposed == s.proposed && PastPrepare(s')
    decreases |ids|
  {
    hide Open, RoundStep;
    if ids != [] {
      var e := OnPrepare(ids[0], hash, roots[ids[0]]);
      assert ids[0] in ids && forall k :: k in ids[1..] ==> k in ids;
      OnePrepare(cfg, s, ids[0], hash, roots[ids[0]]);
      assert ([e] + Prepares(ids[1..], hash, roots))[1..] == Prepares(ids[1..], hash, roots);
      StaysPast(cfg, RoundStep(cfg, s, e), ids[1..], hash, roots);
    }
  }

  /** The run of one node: the proposal, its quorum's prepares, and one more at the end. */
  ghost function Script(block: Block, me: Id, g: set<Id>, other: Id, roots: Ballots): seq<RoundEvent>
    requires (forall id :: id in g ==> id in roots) && me in roots && other in roots
  {
    [OnPropose(block, block.proposer, roots[me])] + Prepares(Listed(g - {me, other}), block.hash, roots)
      + [OnPrepare(other, block.hash, roots[other])]
  }

  lemma Proposed(cfg: RoundConfig, block: Block, root: Option<Hash>)
    requires cfg.IsValidator() && IsKnown(cfg.validators, block.proposer)
    ensures var s := RoundStep(cfg, NewRound(block.number), OnPropose(block, block.proposer, root));
      && Open(cfg, s, block.hash) && s.proposed == Some(block)
      && s.phase == Preparing && s.prepareVotes == map[cfg.localId := Vote(block.hash, root)]
  {
    StepKeepsInv(cfg, NewRound(block.number), OnPropose(block, block.proposer, root));
  }

  /** Once the votes of a quorum with no root against the node's own are in, the last prepare moves it on. */
  lemma LastPrepare(cfg: RoundConfig, s: RoundState, g: set<Id>, other: Id, hash: Hash, root: Option<Hash>)
    requires Open(cfg, s, hash) && cfg.localId in g && IsQuorum(cfg.validators, cfg.relaxed, g)
    requires IsKnown(cfg.validators, other)
    requires s.phase == Preparing ==> other !in s.prepareVotes && cfg.localId in s.prepareVotes
    requires s.phase == Preparing ==>
      forall id :: id in g && id != other ==> id in s.prepareVotes && Matches(s.prepareVotes[cfg.localId], s.prepareVotes[id])
    requires s.phase == Preparing && other in g ==> Matches(s.prepareVotes[cfg.localId], Vote(hash, root))
    ensures var next := RoundStep(cfg, s, OnPrepare(other, hash, root));
      PastPrepare(next) && Open(cfg, next, hash) && next.proposed == s.proposed
  {
    OnePrepare(cfg, s, other, hash, root);
    if s.phase == Preparing {
      var votes := s.prepareVotes[other := Vote(hash, root)];
      assert g <= AnchoredGroup(votes, cfg.localId);
      StakeInMonotone(cfg.validators, g, AnchoredGroup(votes, cfg.localId));
      hide RoundInv, AnchoredGroup;
      assert GroupHasQuorum(cfg, votes);
    }
  }

  /** No member of the quorum has a root against the node's. */
  ghost predicate Compatible(g: set<Id>, me: Id, roots: Ballots)
    requires (forall id :: id in g ==> id in roots) && me in roots
  {
    forall id :: id in g ==> Matches(Vote("", roots[me]), Vote("", roots[id]))
  }

  lemma ScriptGetsThrough(cfg: RoundConfig, block: Block, g: set<Id>, other: Id, roots: Ballots)
    requires IsKnown(cfg.validators, block.proposer) && IsKnown(cfg.validators, other) && other != cfg.localId
    requires cfg.localId in g && IsQuorum(cfg.validators, cfg.relaxed, g)
    requires forall id :: id in g ==> id in roots && IsKnown(cfg.validators, id)
    requires other in roots && Compatible(g, cfg.localId, roots)
    ensures var s := RoundRun(cfg, NewRound(block.number), Script(block, cfg.localId, g, other, roots));
      PastPrepare(s) && s.proposed == Some(block)
  {
    var me := cfg.localId;
    var first, last := OnPropose(block, block.proposer, roots[me]), OnPrepare(other, block.hash, roots[other]);
    var ids := Listed(g - {me, other});
    var middle := Prepares(ids, block.hash, roots);
    var s0 := NewRound(block.number);
    var s1 := RoundStep(cfg, s0, first);
    Proposed(cfg, block, roots[me]);
    hide Open, RoundStep;
    AllPrepares(cfg, s1, ids, block.hash, roots);
    var s2 := RoundRun(cfg, s1, middle);
    if s2.phase == Preparing {
      forall id | id in g && id != other
        ensures id in s2.prepareVotes && Matches(s2.prepareVotes[me], s2.prepareVotes[id])
      {
        assert id == me || id in ids;
        assert Matches(Vote("", roots[me]), Vote("", roots[id]));
      }
      assert other in g ==> Matches(Vote("", roots[me]), Vote("", roots[other]));
    }
    LastPrepare(cfg, s2, g, other, block.hash, roots[other]);
    RunConcat(cfg, s0, [first] + middle, [last]);
    assert ([first] + middle)[1..] == middle && [last][1..] == [];
    assert RoundRun(cfg, s0, [first] + middle) == s2;
    assert RoundRun(cfg, s2, [last]) == RoundStep(cfg, s2, last);
  }

  lemma {:induction false} PreparesFollow(x: Setting, ballots: Ballots, me: Id, ids: seq<Id>, hash: Hash, roots: Ballots)
    requires BallotsOf(x, ballots) && forall id :: id in ids ==> id in roots && MaySendRoot(x, ballots, id, roots[id])
    ensures RunFollows(x, ballots, me, Prepares(ids, hash, roots))
  {
    if ids != [] {
      assert ids[0] in ids && forall k :: k in ids[1..] ==> k in ids;
      PreparesFollow(x, ballots, me, ids[1..], hash, roots);
    }
  }

  lemma ScriptFollows(x: Setting, ballots: Ballots, block: Block, me: Id, g: set<Id>, other: Id, roots: Ballots)
    requires BallotsOf(x, ballots) && me in roots && other in roots && forall id :: id in g ==> id in roots
    requires forall id :: id in roots ==> MaySendRoot(x, ballots, id, roots[id])
    ensures RunFollows(x, ballots, me, Script(block, me, g, other, roots))
  {
    var ids := Listed(g - {me, other});
    PreparesFollow(x, ballots, me, ids, block.hash, roots);
  }

  /** The script takes a reporting validator past prepare, and its commit carries its ballot. */
  lemma ScriptCommits(x: Setting, ballots: Ballots, vals: seq<Validator>, block: Block, me: Id, g: set<Id>, other: Id, roots: Ballots)
    requires x.rooted <= x.honest && BallotsOf(x, ballots) && Anchored(x, vals, me, g)
    requires IsKnown(vals, block.proposer) && IsKnown(vals, other) && other != me && other in roots
    requires (forall id :: id in g ==> id in roots) && Compatible(g, me, roots)
    requires forall id :: id in roots ==> MaySendRoot(x, ballots, id, roots[id])
    ensures Takes(x, ballots, vals, me, Script(block, me, g, other, roots))
    ensures var s := Outcome(x, vals, me, block.number, Script(block, me, g, other, roots));
      PastPrepare(s) && s.proposed == Some(block) && me in s.commitVotes && s.commitVotes[me].root == ballots[me]
  {
    ScriptGetsThrough(x.Cfg(vals, me), block, g, other, roots);
    ScriptFollows(x, ballots, block, me, g, other, roots);
    hide Script, IsQuorum, Compatible;
    QuorumFollowsBallot(x, ballots, vals, me, block.number, Script(block, me, g, other, roots));
  }

  /** What the validators send in a split: one root inside the first quorum, another outside it. */
  ghost function SplitRoots(x: Setting, vals: seq<Validator>, g1: set<Id>): Ballots {
    map id | id in Ids(vals) + x.honest ::
      if id !in x.rooted then None else if id in g1 then Some("r1") else Some("r2")
  }

  lemma KnownInBoth(tables: set<seq<Validator>>, v1: seq<Validator>, v2: seq<Validator>, id: Id)
    requires OneMembership(tables) && v1 in tables && v2 in tables
    ensures IsKnown(v1, id) <==> IsKnown(v2, id)
  {
    KnownIds(v1, id);
    KnownIds(v2, id);
  }

  /** Two quorums that share no reporter let two validators commit to one block with two roots. */
  lemma UnsharedQuorumsSplit(x: Setting, v1: seq<Validator>, a: Id, g1: set<Id>, v2: seq<Validator>, b: Id, g2: set<Id>)
    requires x.rooted <= x.honest && OneMembership(x.tables) && a != b
    requires Anchored(x, v1, a, g1) && Anchored(x, v2, b, g2) && !Share(x, g1, g2)
    ensures !RootsAgree(x)
  {
    var roots, block := SplitRoots(x, v1, g1), Block(1, "x", a);
    forall id ensures IsKnown(v1, id) <==> IsKnown(v2, id) { KnownInBoth(x.tables, v1, v2, id); }
    forall id | IsKnown(v1, id) ensures id in roots { KnownIds(v1, id); }
    assert b !in g1 && a !in g2;
    assert BallotsOf(x, roots);
    var e1, e2 := Script(block, a, g1, b, roots), Script(block, b, g2, a, roots);
    ScriptCommits(x, roots, v1, block, a, g1, b, roots);
    ScriptCommits(x, roots, v2, block, b, g2, a, roots);
    hide Script, Outcome;
    assert !SameRoot(a, Outcome(x, v1, a, 1, e1), b, Outcome(x, v2, b, 1, e2));
  }

  /**
   * Over all ballots, all message orders, all choices of tables with one membership and anything faulty
   * validators send, nodes that report roots commit to a block with one root exactly when their quorums, each
   * under any table in use, always share a validator that reports. What the honest validators that do not
   * report send makes no difference: the same holds when they may send any root, as after recomputing it for a
   * round entered again.
   */
  lemma RootsAgreeIff(x: Setting)
    requires x.rooted <= x.honest && OneMembership(x.tables)
    ensures RootsAgree(x) <==> QuorumsShareReporter(x)
    ensures RootsAgree(x) <==> RootsAgree(x.(honest := x.rooted))
  {
    RootsAgreeOnce(x);
    var y := x.(honest := x.rooted);
    RootsAgreeOnce(y);
    assert QuorumsShareReporter(x) <==> QuorumsShareReporter(y) by {
      assert forall g1, g2 :: Share(x, g1, g2) <==> Share(y, g1, g2);
      assert forall vals, me, g :: Anchored(x, vals, me, g) <==> Anchored(y, vals, me, g);
    }
  }

  lemma RootsAgreeOnce(x: Setting)
    requires x.rooted <= x.honest && OneMembership(x.tables)
    ensures RootsAgree(x) <==> QuorumsShareReporter(x)
  {
    hide Anchored, Takes, Outcome, SameRoot, Share, OneMembership;
    if QuorumsShareReporter(x) {
      forall ballots, v1, a, v2, b, height, e1, e2 |
        BallotsOf(x, ballots) && Takes(x, ballots, v1, a, e1) && Takes(x, ballots, v2, b, e2)
        ensures SameRoot(a, Outcome(x, v1, a, height, e1), b, Outcome(x, v2, b, height, e2))
      {
        SharedReporterIsEnough(x, ballots, height, v1, a, e1, v2, b, e2);
      }
    } else {
      var v1, a, g1, v2, b, g2 :| a != b && Anchored(x, v1, a, g1) && Anchored(x, v2, b, g2) && !Share(x, g1, g2);
      UnsharedQuorumsSplit(x, v1, a, g1, v2, b, g2);
    }
  }

  /** The stake outside the set stays below the overlap of two quorums, together with what moved between the tables. */
  ghost predicate Tolerates(x: Setting, v1: seq<Validator>, v2: seq<Validator>) {
    || (v1 == v2 && ToleratesFaults(v1, x.relaxed, x.rooted))
    || ToleratesMove(v1, v2, x.relaxed, x.rooted)
    || ToleratesMove(v2, v1, x.relaxed, x.rooted)
  }

  /** In stake: it is enough that those who are faulty or report no root, and moved stake, stay below that overlap. */
  lemma RootBudget(x: Setting)
    requires forall v1, v2 :: v1 in x.tables && v2 in x.tables ==> Tolerates(x, v1, v2)
    ensures QuorumsShareReporter(x)
  {
    forall v1, a, g1, v2, b, g2 | a != b && Anchored(x, v1, a, g1) && Anchored(x, v2, b, g2) ensures Share(x, g1, g2) {
      QuorumsShareTolerated(x, v1, a, g1, v2, b, g2);
    }
  }

  lemma QuorumsShareTolerated(x: Setting, v1: seq<Validator>, a: Id, g1: set<Id>, v2: seq<Validator>, b: Id, g2: set<Id>)
    requires Tolerates(x, v1, v2) && Anchored(x, v1, a, g1) && Anchored(x, v2, b, g2)
    ensures Share(x, g1, g2)
  {
    assert g1 <= Ids(v1) && g2 <= Ids(v2);
    hide ToleratesFaults, ToleratesMove, IsQuorum, Ids;
    if v1 == v2 && ToleratesFaults(v1, x.relaxed, x.rooted) {
      var k := QuorumsShareHonest(v1, x.relaxed, x.rooted, g1, g2);
    } else if ToleratesMove(v1, v2, x.relaxed, x.rooted) {
      var k := QuorumsShareHonestAcross(v1, v2, x.relaxed, x.rooted, g1, g2);
    } else {
      var k := QuorumsShareHonestAcross(v2, v1, x.relaxed, x.rooted, g2, g1);
    }
  }

  // ----- Which validators can commit at all ------------------------------------------------------------

  ghost predicate CanGetPastPrepare(cfg: RoundConfig) {
    exists height, events :: PastPrepare(RoundRun(cfg, NewRound(height), events))
  }

  /**
   * A validator can get past prepare in some run exactly when all validators together are a quorum and
   * it is not alone: quorum is only evaluated when a peer's prepare arrives.
   */
  lemma CanGetPastPrepareIff(cfg: RoundConfig)
    requires cfg.IsValidator()
    ensures CanGetPastPrepare(cfg) <==>
      IsQuorum(cfg.validators, cfg.relaxed, Ids(cfg.validators)) && Ids(cfg.validators) != {cfg.localId}
  {
    var all := Ids(cfg.validators);
    KnownIds(cfg.validators, cfg.localId);
    if CanGetPastPrepare(cfg) {
      var height, events :| PastPrepare(RoundRun(cfg, NewRound(height), events));
      PastPrepareNeedsQuorum(cfg, height, events);
      if all == {cfg.localId} {
        SoleValidatorNeverCommits(cfg, height, events);
      }
    }
    if IsQuorum(cfg.validators, cfg.relaxed, all) && all != {cfg.localId} {
      var other :| other in all && other != cfg.localId;
      TogetherTheyCommit(cfg, other);
    }
  }

  lemma PastPrepareNeedsQuorum(cfg: RoundConfig, height: int, events: seq<RoundEvent>)
    requires PastPrepare(RoundRun(cfg, NewRound(height), events))
    ensures IsQuorum(cfg.validators, cfg.relaxed, Ids(cfg.validators))
  {
    RoundRunSafe(cfg, NewRound(height), events);
    var s := RoundRun(cfg, NewRound(height), events);
    var g := AnchoredGroup(s.prepareVotes, cfg.localId);
    forall id | id in g ensures id in Ids(cfg.validators) {
      KnownIds(cfg.validators, id);
    }
    StakeInMonotone(cfg.validators, g, Ids(cfg.validators));
  }

  lemma TogetherTheyCommit(cfg: RoundConfig, other: Id)
    requires cfg.IsValidator() && other in Ids(cfg.validators) && other != cfg.localId
    requires IsQuorum(cfg.validators, cfg.relaxed, Ids(cfg.validators))
    ensures CanGetPastPrepare(cfg)
  {
    var all := Ids(cfg.validators);
    var roots: Ballots := map id | id in all :: None;
    forall id ensures id in all <==> IsKnown(cfg.validators, id) {
      KnownIds(cfg.validators, id);
    }
    ScriptGetsThrough(cfg, Block(1, "x", cfg.localId), all, other, roots);
  }

  // ----- Four equal validators -------------------------------------------------------------------------

  function FourEqual(): seq<Validator> {
    [Validator("a", 1), Validator("b", 1), Validator("c", 1), Validator("d", 1)]
  }

  /** With two of four validators sending no root, strict quorum is not enough, though nobody is faulty. */
  lemma TwoSilentOfFourSplit()
    ensures !RootsAgree(Setting({FourEqual()}, false, {"a", "b", "c", "d"}, {"a", "b"}))
  {
    var x := Setting({FourEqual()}, false, {"a", "b", "c", "d"}, {"a", "b"});
    ThreeOfFour("a");
    ThreeOfFour("b");
    UnsharedQuorumsSplit(x, FourEqual(), "a", {"a", "c", "d"}, FourEqual(), "b", {"b", "c", "d"});
  }

  /** Both runs get past prepare on one block and commit to it with these roots. */
  ghost predicate SplitsInto(x: Setting, ballots: Ballots, e1: seq<RoundEvent>, r1: Hash, e2: seq<RoundEvent>, r2: Hash)
    requires BallotsOf(x, ballots)
  {
    var s1, s2 := Outcome(x, FourEqual(), "a", 1, e1), Outcome(x, FourEqual(), "b", 1, e2);
    && RunFollows(x, ballots, "a", e1) && RunFollows(x, ballots, "b", e2)
    && PastPrepare(s1) && PastPrepare(s2) && s1.proposed == s2.proposed
    && "a" in s1.commitVotes && s1.commitVotes["a"].root == Some(r1)
    && "b" in s2.commitVotes && s2.commitVotes["b"].root == Some(r2)
  }

  /**
   * Restarts alone are enough. All four validators are honest and compute a root, and three compute the same
   * one. Validator a hears it from c and d; then c and d restart and repeat their votes from the ledger, which
   * is all that b hears.
   */
  lemma RestartsSplitFour(r1: Hash, r2: Hash) returns (e1: seq<RoundEvent>, e2: seq<RoundEvent>)
    requires r1 != r2
    ensures var x := Setting({FourEqual()}, false, {"a", "b", "c", "d"}, {"a", "b"});
      SplitsInto(x, map["a" := Some(r1), "c" := Some(r1), "d" := Some(r1), "b" := Some(r2)], e1, r1, e2, r2)
  {
    var x := Setting({FourEqual()}, false, {"a", "b", "c", "d"}, {"a", "b"});
    var ballots: Ballots := map["a" := Some(r1), "c" := Some(r1), "d" := Some(r1), "b" := Some(r2)];
    var again := ballots["c" := None]["d" := None];
    var block := Block(1, "x", "a");
    ThreeOfFour("a");
    ThreeOfFour("b");
    e1 := Script(block, "a", {"a", "c", "d"}, "b", ballots);
    e2 := Script(block, "b", {"b", "c", "d"}, "a", again);
    hide FourEqual, IsKnown, IsQuorum, Script, Outcome;
    ScriptCommits(x, ballots, FourEqual(), block, "a", {"a", "c", "d"}, "b", ballots);
    ScriptCommits(x, ballots, FourEqual(), block, "b", {"b", "c", "d"}, "a", again);
  }

  lemma ThreeOfFour(me: Id)
    requires me in {"a", "b"}
    ensures IsQuorum(FourEqual(), false, {me, "c", "d"})
    ensures forall id :: id in {me, "c", "d"} ==> IsKnown(FourEqual(), id)
  {
    var v1 := [Validator("a", 1)];
    var v2 := v1 + [Validator("b", 1)];
    var v3 := v2 + [Validator("c", 1)];
    var v4 := FourEqual();
    assert v2[..1] == v1 && v3[..2] == v2 && v4[..3] == v3 && v1[..0] == [];
    assert v4[0].id == "a" && v4[1].id == "b" && v4[2].id == "c" && v4[3].id == "d";
    assert TotalStake(v1) == 1;
    assert TotalStake(v2) == 2;
    assert TotalStake(v3) == 3;
    assert {me, "c", "d"} - {"d"} == {me, "c"} && {me, "c"} - {"c"} == {me};
    assert StakeIn(v2, {me}) == 1 by {
      StakeInSingleton(v2, me);
      assert StakeMap(v1) == map["a" := 1];
      assert StakeMap(v2) == map["a" := 1, "b" := 1];
    }
    assert StakeIn(v3, {me, "c"}) == 2;
  }
}
