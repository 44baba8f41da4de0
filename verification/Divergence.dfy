/**
 * The divergence alarm: do peers holding two thirds of the stake agree on a block and state root
 * that this node did not reproduce?
 */
module Divergence {
  import opened BftTypes
  import opened Quorum
  import opened Round

  datatype PeerVote = PeerVote(id: Id, hash: Hash, root: Option<Hash>)

  datatype Pair = Pair(hash: Hash, root: Hash)

  datatype Alarm = Alarm(peer: Pair, localRoot: Option<Hash>)

  /** An absent and an empty root count alike. */
  predicate HasRoot(root: Option<Hash>) {
    root.Some? && root.value != ""
  }

  // ----- What the alarm means ----------------------------------------------------------

  /** The vote counts: it has a root and is its sender's first one that does. */
  ghost predicate IsFirst(votes: seq<PeerVote>, i: nat)
    requires i < |votes|
  {
    HasRoot(votes[i].root) && forall j :: 0 <= j < i && HasRoot(votes[j].root) ==> votes[j].id != votes[i].id
  }

  ghost predicate Endorses(votes: seq<PeerVote>, i: nat, p: Pair)
    requires i < |votes|
  {
    IsFirst(votes, i) && votes[i].hash == p.hash && votes[i].root == Some(p.root)
  }

  ghost function Supporters(votes: seq<PeerVote>, p: Pair): set<Id> {
    set i | 0 <= i < |votes| && Endorses(votes, i, p) :: votes[i].id
  }

  ghost function Support(votes: seq<PeerVote>, vals: seq<Validator>, p: Pair): nat {
    StakeIn(vals, Supporters(votes, p))
  }

  /** Some stake stands behind the pair, and at least two thirds of the total, rounded down. */
  ghost predicate Passes(votes: seq<PeerVote>, vals: seq<Validator>, p: Pair) {
    Support(votes, vals, p) > 0 && Support(votes, vals, p) >= TotalStake(vals) * 2 / 3
  }

  ghost predicate IsBest(votes: seq<PeerVote>, vals: seq<Validator>, p: Pair) {
    Passes(votes, vals, p) && forall q :: Support(votes, vals, q) <= Support(votes, vals, p)
  }

  /** The vote counts for the pair, with stake behind it. */
  ghost predicate Backs(votes: seq<PeerVote>, vals: seq<Validator>, i: nat, p: Pair)
    requires i < |votes|
  {
    Endorses(votes, i, p) && StakeOf(vals, votes[i].id) > 0
  }

  /** The first vote with stake for the one comes before all those for the other. */
  ghost predicate Earlier(votes: seq<PeerVote>, vals: seq<Validator>, p: Pair, q: Pair) {
    exists i :: 0 <= i < |votes| && Backs(votes, vals, i, p) &&
      forall j :: 0 <= j < |votes| && Backs(votes, vals, j, q) ==> i < j
  }

  /** A best pair, and the earliest of them. */
  ghost predicate Leads(votes: seq<PeerVote>, vals: seq<Validator>, p: Pair) {
    IsBest(votes, vals, p) && forall q :: IsBest(votes, vals, q) && q != p ==> Earlier(votes, vals, p, q)
  }

  /** What a call answers: an alarm for the leading pair unless its root is the local one. */
  ghost predicate Answers(votes: seq<PeerVote>, vals: seq<Validator>, localRoot: Option<Hash>, r: Option<Alarm>) {
    match r
    case Some(alarm) =>
      Leads(votes, vals, alarm.peer) && alarm.localRoot == localRoot
      && !(HasRoot(localRoot) && localRoot.value == alarm.peer.root)
    case None =>
      || (forall p :: !Passes(votes, vals, p))
      || (exists p :: Leads(votes, vals, p) && HasRoot(localRoot) && localRoot.value == p.root)
  }

  /** There is only one answer. */
  lemma OneAnswer(votes: seq<PeerVote>, vals: seq<Validator>, localRoot: Option<Hash>, r: Option<Alarm>, r': Option<Alarm>)
    requires Answers(votes, vals, localRoot, r) && Answers(votes, vals, localRoot, r')
    ensures r == r'
  {
    forall p, q | Leads(votes, vals, p) && Leads(votes, vals, q) ensures p == q {
      OneLeads(votes, vals, p, q);
    }
  }

  lemma OneLeads(votes: seq<PeerVote>, vals: seq<Validator>, p: Pair, q: Pair)
    requires Leads(votes, vals, p) && Leads(votes, vals, q)
    ensures p == q
  {
  }

  /** A sender endorses at most one pair. */
  lemma EndorsesOnce(votes: seq<PeerVote>, i: nat, p: Pair, j: nat, q: Pair)
    requires i < |votes| && j < |votes| && votes[i].id == votes[j].id
    requires Endorses(votes, i, p) && Endorses(votes, j, q)
    ensures p == q
  {
    assert i == j;
  }

  lemma SupportersDisjoint(votes: seq<PeerVote>, p: Pair, q: Pair)
    ensures p == q || Supporters(votes, p) !! Supporters(votes, q)
  {
    if id :| id in Supporters(votes, p) && id in Supporters(votes, q) {
      var i :| 0 <= i < |votes| && Endorses(votes, i, p) && votes[i].id == id;
      var j :| 0 <= j < |votes| && Endorses(votes, j, q) && votes[j].id == id;
      EndorsesOnce(votes, i, p, j, q);
    }
  }

  lemma SupportsFitInTotal(votes: seq<PeerVote>, vals: seq<Validator>, p: Pair, q: Pair)
    requires p != q
    ensures Support(votes, vals, p) + Support(votes, vals, q) <= TotalStake(vals)
  {
    var a, b := Supporters(votes, p), Supporters(votes, q);
    SupportersDisjoint(votes, p, q);
    StakeInModular(vals, a, b);
    assert a * b == {};
    StakeInNone(vals);
    StakeInAtMostTotal(vals, a + b);
  }

  /** For every total except 2 and 4 at most one pair passes. */
  lemma AtMostOnePasses(votes: seq<PeerVote>, vals: seq<Validator>, p: Pair, q: Pair)
    requires TotalStake(vals) !in {2, 4}
    requires Passes(votes, vals, p) && Passes(votes, vals, q)
    ensures p == q
  {
    if p != q {
      SupportsFitInTotal(votes, vals, p, q);
    }
  }

  ghost predicate BothBest(votes: seq<PeerVote>, vals: seq<Validator>, p: Pair, q: Pair) {
    DistinctIds(vals) && p != q && IsBest(votes, vals, p) && IsBest(votes, vals, q)
  }

  /** For the totals 2 and 4, two equal validators that disagree both pass. */
  lemma TwoCanPass(total: nat)
    requires total in {2, 4}
    ensures exists votes, vals, p, q :: TotalStake(vals) == total && BothBest(votes, vals, p, q)
  {
    var half := total / 2;
    var vals := [Validator("a", half), Validator("b", half)];
    var votes := [PeerVote("a", "x", Some("r")), PeerVote("b", "x", Some("s"))];
    var p, q := Pair("x", "r"), Pair("x", "s");
    assert vals[..1] == [Validator("a", half)] && vals[..1][..0] == [];
    assert TotalStake(vals[..1]) == half;
    assert StakeMap(vals[..1]) == map["a" := half];
    assert IsFirst(votes, 0) && IsFirst(votes, 1);
    assert Supporters(votes, p) == {"a"} by {
      assert Endorses(votes, 0, p);
      assert forall id :: id in Supporters(votes, p) ==> id == "a";
    }
    assert Supporters(votes, q) == {"b"} by {
      assert Endorses(votes, 1, q);
      assert forall id :: id in Supporters(votes, q) ==> id == "b";
    }
    StakeInSingleton(vals, "a");
    StakeInSingleton(vals, "b");
    forall o ensures Support(votes, vals, o) <= half {
      if o != p && o != q {
        assert Supporters(votes, o) == {};
        StakeInNone(vals);
      }
    }
    assert BothBest(votes, vals, p, q);
  }

  ghost predicate OneVoteEach(votes: seq<PeerVote>) {
    forall i, j :: 0 <= i < j < |votes| ==> votes[i].id != votes[j].id
  }

  lemma SupportersByMembership(votes: seq<PeerVote>, p: Pair, id: Id)
    requires OneVoteEach(votes)
    ensures id in Supporters(votes, p) <==> p.root != "" && PeerVote(id, p.hash, Some(p.root)) in votes
  {
    var v := PeerVote(id, p.hash, Some(p.root));
    if v in votes && p.root != "" {
      var i :| 0 <= i < |votes| && votes[i] == v;
      assert Endorses(votes, i, p);
    }
    if id in Supporters(votes, p) {
      var i :| 0 <= i < |votes| && Endorses(votes, i, p) && votes[i].id == id;
      assert votes[i] == v;
    }
  }

  /** With one vote per peer and a total other than 2 or 4, the answer does not depend on vote order. */
  lemma OrderIrrelevant(
      votes: seq<PeerVote>, votes': seq<PeerVote>, vals: seq<Validator>, localRoot: Option<Hash>,
      r: Option<Alarm>, r': Option<Alarm>)
    requires OneVoteEach(votes) && OneVoteEach(votes') && Elements(votes) == Elements(votes')
    requires TotalStake(vals) !in {2, 4}
    requires Answers(votes, vals, localRoot, r) && Answers(votes', vals, localRoot, r')
    ensures r == r'
  {
    forall p ensures Supporters(votes, p) == Supporters(votes', p) {
      forall id ensures id in Supporters(votes, p) <==> id in Supporters(votes', p) {
        SupportersByMembership(votes, p, id);
        SupportersByMembership(votes', p, id);
        var v := PeerVote(id, p.hash, Some(p.root));
        assert v in votes <==> v in Elements(votes);
        assert v in votes' <==> v in Elements(votes');
      }
    }
    forall p, q | Passes(votes, vals, p) && Passes(votes, vals, q) ensures p == q {
      AtMostOnePasses(votes, vals, p, q);
    }
    assert forall p :: Passes(votes, vals, p) <==> Passes(votes', vals, p);
    assert forall p :: IsBest(votes', vals, p) ==> Passes(votes, vals, p);
    assert forall p :: IsBest(votes, vals, p) <==> IsBest(votes', vals, p);
    assert forall p :: Leads(votes, vals, p) <==> Leads(votes', vals, p);
  }

  // ----- The alarm and the round -----------------------------------------------------------

  /** The other validators' prepare votes that carry a root, in validator order. */
  function OtherVotes(vals: seq<Validator>, localId: Id, votes: map<Id, Vote>): seq<PeerVote> {
    if vals == [] then []
    else
      var rest, id := OtherVotes(vals[..|vals| - 1], localId, votes), vals[|vals| - 1].id;
      if id == localId || id !in votes || !HasRoot(votes[id].root) then rest
      else rest + [PeerVote(id, votes[id].hash, votes[id].root)]
  }

  lemma {:induction false} OtherVotesAreVotes(vals: seq<Validator>, localId: Id, votes: map<Id, Vote>)
    ensures forall v :: v in OtherVotes(vals, localId, votes) ==> v.id in votes && votes[v.id] == Vote(v.hash, v.root)
  {
    if vals != [] {
      OtherVotesAreVotes(vals[..|vals| - 1], localId, votes);
    }
  }

  /**
   * Once a round is past prepare with a root of its own, the alarm stays silent for that round: the
   * quorum that agrees with the node leaves too little stake for another root. Relaxed mode needs a
   * total for which two quorums always meet.
   */
  lemma SilentAfterCommit(cfg: RoundConfig, s: RoundState, r: Option<Alarm>)
    requires RoundInv(cfg, s) && s.phase in {Committing, Finalized} && cfg.IsValidator()
    requires !cfg.relaxed || TotalStake(cfg.validators) !in {1, 2, 4}
    requires HasRoot(s.prepareVotes[cfg.localId].root)
    requires Answers(OtherVotes(cfg.validators, cfg.localId, s.prepareVotes), cfg.validators,
                     s.prepareVotes[cfg.localId].root, r)
    ensures r == None
  {
    if r.Some? {
      var votes, p := OtherVotes(cfg.validators, cfg.localId, s.prepareVotes), r.value.peer;
      var mine, theirs := AnchoredGroup(s.prepareVotes, cfg.localId), Supporters(votes, p);
      OtherVotesAreVotes(cfg.validators, cfg.localId, s.prepareVotes);
      forall id | id in theirs ensures id !in mine {
        var i :| 0 <= i < |votes| && Endorses(votes, i, p) && votes[i].id == id;
        assert votes[i] in votes;
      }
      StakeInModular(cfg.validators, mine, theirs);
      assert mine * theirs == {};
      StakeInNone(cfg.validators);
      StakeInAtMostTotal(cfg.validators, mine + theirs);
    }
  }

  /** The node's own check of its round, as the timeout makes it, may answer this. */
  ghost predicate ChecksRound(cfg: RoundConfig, s: RoundState, r: Option<Alarm>) {
    && cfg.IsValidator() && cfg.localId in s.prepareVotes && HasRoot(s.prepareVotes[cfg.localId].root)
    && Answers(OtherVotes(cfg.validators, cfg.localId, s.prepareVotes), cfg.validators, s.prepareVotes[cfg.localId].root, r)
  }

  /** No round that is still committing when it times out raises the alarm. */
  ghost predicate SilentWhileCommitting(relaxed: bool, total: nat) {
    forall cfg: RoundConfig, height, events, r ::
      && cfg.relaxed == relaxed && TotalStake(cfg.validators) == total
      && RoundRun(cfg, NewRound(height), events).phase == Committing
      && ChecksRound(cfg, RoundRun(cfg, NewRound(height), events), r)
      ==> r == None
  }

  /** Rounds in commit are silent in all runs exactly in strict mode, or when the total stake is not 2 or 4. */
  lemma SilentIff(relaxed: bool, total: nat)
    ensures SilentWhileCommitting(relaxed, total) <==> !relaxed || total !in {2, 4}
  {
    if relaxed && total in {2, 4} {
      var cfg, events, r := AlarmInCommit(Case(total, "me", "x", "y", Block(1, "b", "me"), "r", "s"));
      assert RoundRun(cfg, NewRound(1), events).phase == Committing;
    } else {
      forall cfg: RoundConfig, height, events, r |
        && cfg.relaxed == relaxed && TotalStake(cfg.validators) == total
        && RoundRun(cfg, NewRound(height), events).phase == Committing
        && ChecksRound(cfg, RoundRun(cfg, NewRound(height), events), r)
        ensures r == None
      {
        CommittingIsSilent(cfg, height, events, r);
      }
    }
  }

  lemma CommittingIsSilent(cfg: RoundConfig, height: int, events: seq<RoundEvent>, r: Option<Alarm>)
    requires !cfg.relaxed || TotalStake(cfg.validators) !in {2, 4}
    requires RoundRun(cfg, NewRound(height), events).phase == Committing
    requires ChecksRound(cfg, RoundRun(cfg, NewRound(height), events), r)
    ensures r == None
  {
    var s := RoundRun(cfg, NewRound(height), events);
    RoundRunSafe(cfg, NewRound(height), events);
    hide RoundRun, Answers;
    // With a relaxed total of one, the node's own commit is a quorum and the round is already finalized.
    if !cfg.relaxed || TotalStake(cfg.validators) != 1 {
      SilentAfterCommit(cfg, s, r);
    }
  }

  /** Two validators agree with each other, a third with as much stake does not; the threshold is half of the total. */
  datatype Case = Case(total: nat, me: Id, x: Id, y: Id, block: Block, root: Hash, otherRoot: Hash) {
    predicate Fits() {
      && total in {2, 4} && me != x && me != y && x != y
      && root != otherRoot && root != "" && otherRoot != "" && block.number == 1 && block.proposer == me
    }

    function Vals(): seq<Validator>
      requires Fits()
    {
      [Validator(me, total / 2 - 1), Validator(y, total / 2), Validator(x, 1)]
    }

    function Cfg(): RoundConfig
      requires Fits()
    {
      RoundConfig(Vals(), me, true)
    }

    function Votes(): map<Id, Vote> {
      map[me := Mine(), y := Other(), x := Mine()]
    }

    /** The other two prepares, in validator order. */
    function Others(): seq<PeerVote> {
      [PeerVote(y, block.hash, Some(otherRoot)), PeerVote(x, block.hash, Some(root))]
    }

    function OtherPair(): Pair {
      Pair(block.hash, otherRoot)
    }

    function Mine(): Vote {
      Vote(block.hash, Some(root))
    }

    function Other(): Vote {
      Vote(block.hash, Some(otherRoot))
    }
  }

  lemma CaseStakes(k: Case)
    requires k.Fits()
    ensures var vals := k.Vals();
      && TotalStake(vals) == k.total && StakeIn(vals, {k.me}) == k.total / 2 - 1 && StakeIn(vals, {k.me, k.x}) == k.total / 2
      && StakeIn(vals, {k.y}) == k.total / 2 && StakeIn(vals, {k.x}) == 1
      && IsKnown(vals, k.me) && IsKnown(vals, k.y) && IsKnown(vals, k.x)
      && StakeOf(vals, k.y) == k.total / 2 && StakeOf(vals, k.x) == 1
  {
    var v3 := k.Vals();
    var v1, v2 := v3[..1], v3[..2];
    assert v2[..1] == v1 && v1[..0] == [] && v1 == [v3[0]] && v2 == [v3[0], v3[1]];
    assert v3[0].id == k.me && v3[1].id == k.y && v3[2].id == k.x;
    assert TotalStake(v1) == k.total / 2 - 1;
    assert TotalStake(v2) == k.total - 1;
    assert StakeMap(v1) == map[k.me := k.total / 2 - 1];
    assert StakeMap(v2) == map[k.me := k.total / 2 - 1, k.y := k.total / 2];
    assert StakeMap(v3) == map[k.me := k.total / 2 - 1, k.y := k.total / 2, k.x := 1];
    StakeInSingleton(v3, k.me);
    StakeInSingleton(v3, k.y);
    StakeInSingleton(v3, k.x);
    StakeInModular(v3, {k.me}, {k.x});
    assert {k.me} + {k.x} == {k.me, k.x} && {k.me} * {k.x} == {};
    StakeInNone(v3);
  }

  /** The proposal with the node's own root, then a prepare with another. */
  lemma AfterTwo(k: Case)
    requires k.Fits()
    ensures var s1 := RoundStep(k.Cfg(), NewRound(1), OnPropose(k.block, k.me, Some(k.root)));
      RoundStep(k.Cfg(), s1, OnPrepare(k.y, k.block.hash, Some(k.otherRoot)))
      == RoundState(1, Preparing, Some(k.block), map[k.me := k.Mine(), k.y := k.Other()], map[])
  {
    CaseStakes(k);
    hide TotalStake, StakeIn, IsKnown;
    var s1 := RoundStep(k.Cfg(), NewRound(1), OnPropose(k.block, k.me, Some(k.root)));
    assert s1.prepareVotes == map[k.me := k.Mine()];
    assert s1.prepareVotes[k.y := k.Other()] == map[k.me := k.Mine(), k.y := k.Other()];
    assert AnchoredGroup(s1.prepareVotes[k.y := k.Other()], k.me) == {k.me};
  }

  /** A prepare with the node's root completes the quorum; its own commit does not make one. */
  lemma AfterThree(k: Case)
    requires k.Fits()
    ensures var s2 := RoundState(1, Preparing, Some(k.block), map[k.me := k.Mine(), k.y := k.Other()], map[]);
      var s3 := RoundStep(k.Cfg(), s2, OnPrepare(k.x, k.block.hash, Some(k.root)));
      s3.phase == Committing && s3.prepareVotes == k.Votes()
  {
    CaseStakes(k);
    hide TotalStake, StakeIn, IsKnown;
    var votes := k.Votes();
    assert map[k.me := k.Mine(), k.y := k.Other()][k.x := k.Mine()] == votes;
    assert AnchoredGroup(votes, k.me) == {k.me, k.x};
    assert map[][k.me := k.Mine()] == map[k.me := k.Mine()] && AnchoredGroup(map[k.me := k.Mine()], k.me) == {k.me};
  }

  lemma AlarmInCommit(k: Case) returns (cfg: RoundConfig, events: seq<RoundEvent>, r: Option<Alarm>)
    requires k.Fits()
    ensures cfg.relaxed && TotalStake(cfg.validators) == k.total && r.Some?
    ensures RoundRun(cfg, NewRound(1), events).phase == Committing
    ensures ChecksRound(cfg, RoundRun(cfg, NewRound(1), events), r)
  {
    cfg := k.Cfg();
    CaseStakes(k);
    AfterTwo(k);
    AfterThree(k);
    hide RoundStep, Case.Vals, TotalStake, StakeIn, OtherVotes, Leads;
    var e1, e2 := OnPropose(k.block, k.me, Some(k.root)), OnPrepare(k.y, k.block.hash, Some(k.otherRoot));
    var e3 := OnPrepare(k.x, k.block.hash, Some(k.root));
    events := [e1, e2, e3];
    assert events[1..] == [e2, e3] && [e2, e3][1..] == [e3] && [e3][1..] == [];
    var s2 := RoundStep(k.Cfg(), RoundStep(k.Cfg(), NewRound(1), e1), e2);
    assert RoundRun(cfg, NewRound(1), events) == RoundRun(cfg, s2, [e3]) == RoundStep(k.Cfg(), s2, e3);
    r := Some(Alarm(k.OtherPair(), Some(k.root)));
    OtherSideLeads(k);
  }

  lemma OtherSideLeads(k: Case)
    requires k.Fits()
    ensures Leads(OtherVotes(k.Vals(), k.me, k.Votes()), k.Vals(), k.OtherPair())
  {
    var vals, p, q := k.Vals(), k.OtherPair(), Pair(k.block.hash, k.root);
    var others := k.Others();
    OthersOfThree(k);
    CaseStakes(k);
    TwoPairs(k, others);
    StakeInNone(vals);
    hide OtherVotes, TotalStake, StakeIn, StakeOf, Supporters, Endorses;
    assert forall o :: Support(others, vals, o) <= k.total / 2;
    assert Backs(others, vals, 0, p);
    assert forall o :: IsBest(others, vals, o) && o != p ==> o == q;
    assert Earlier(others, vals, p, q);
  }

  lemma OthersOfThree(k: Case)
    requires k.Fits()
    ensures OtherVotes(k.Vals(), k.me, k.Votes())
      == k.Others()
  {
    var vals, votes := k.Vals(), k.Votes();
    assert vals[..2][..1] == vals[..1] && vals[..1][..0] == [];
    assert OtherVotes(vals[..1], k.me, votes) == [];
    assert OtherVotes(vals[..2], k.me, votes) == [PeerVote(k.y, k.block.hash, Some(k.otherRoot))];
  }

  lemma TwoPairs(k: Case, votes: seq<PeerVote>)
    requires k.Fits() && votes == k.Others()
    ensures Supporters(votes, k.OtherPair()) == {k.y} && Supporters(votes, Pair(k.block.hash, k.root)) == {k.x}
    ensures forall o :: o != k.OtherPair() && o != Pair(k.block.hash, k.root) ==> Supporters(votes, o) == {}
    ensures Endorses(votes, 0, k.OtherPair()) && !Endorses(votes, 0, Pair(k.block.hash, k.root))
  {
    var p, q := k.OtherPair(), Pair(k.block.hash, k.root);
    assert IsFirst(votes, 0) && IsFirst(votes, 1);
    assert Endorses(votes, 0, p) && Endorses(votes, 1, q);
    assert forall id :: id in Supporters(votes, p) ==> id == k.y;
    assert forall id :: id in Supporters(votes, q) ==> id == k.x;
    assert k.y in Supporters(votes, p) && k.x in Supporters(votes, q);
  }

  // ----- The computation -------------------------------------------------------------------

  datatype PairStake = PairStake(pair: Pair, stake: nat)

  /** Stake tallied for a pair so far. */
  ghost function Tally(entries: seq<PairStake>, p: Pair): nat {
    if entries == [] then 0
    else if entries[0].pair == p then entries[0].stake
    else Tally(entries[1..], p)
  }

  ghost predicate DistinctPairs(entries: seq<PairStake>) {
    forall i, j :: 0 <= i < j < |entries| ==> entries[i].pair != entries[j].pair
  }

  lemma {:induction false} TallyAt(entries: seq<PairStake>, i: nat)
    requires DistinctPairs(entries) && i < |entries|
    ensures Tally(entries, entries[i].pair) == entries[i].stake
  {
    if i > 0 {
      TallyAt(entries[1..], i - 1);
    }
  }

  lemma {:induction false} TallyMissing(entries: seq<PairStake>, p: Pair)
    requires forall i :: 0 <= i < |entries| ==> entries[i].pair != p
    ensures Tally(entries, p) == 0
  {
    if entries != [] {
      TallyMissing(entries[1..], p);
    }
  }

  ghost function PairsOf(entries: seq<PairStake>): seq<Pair> {
    seq(|entries|, i requires 0 <= i < |entries| => entries[i].pair)
  }

  function IndexOf(entries: seq<PairStake>, p: Pair): (i: nat)
    ensures i <= |entries| && (i < |entries| ==> entries[i].pair == p)
    ensures forall j :: 0 <= j < i ==> entries[j].pair != p
  {
    if entries == [] || entries[0].pair == p then 0 else 1 + IndexOf(entries[1..], p)
  }

  method AddStake(entries: seq<PairStake>, p: Pair, stake: nat) returns (r: seq<PairStake>)
    requires DistinctPairs(entries)
    ensures DistinctPairs(r)
    ensures forall q :: Tally(r, q) == Tally(entries, q) + if q == p then stake else 0
    ensures (forall i :: 0 <= i < |entries| ==> entries[i].stake > 0) && stake > 0 ==>
      forall i :: 0 <= i < |r| ==> r[i].stake > 0
    ensures PairsOf(r) == if p in PairsOf(entries) then PairsOf(entries) else PairsOf(entries) + [p]
  {
    var i := IndexOf(entries, p);
    if i < |entries| {
      r := entries[i := PairStake(p, entries[i].stake + stake)];
      assert PairsOf(entries)[i] == p;
      assert PairsOf(r) == PairsOf(entries);
    } else {
      r := entries + [PairStake(p, stake)];
      assert PairsOf(r) == PairsOf(entries) + [p];
      assert p !in PairsOf(entries);
    }
    forall q ensures Tally(r, q) == Tally(entries, q) + if q == p then stake else 0 {
      var j := IndexOf(entries, q);
      if j < |entries| {
        TallyAt(entries, j);
        assert r[j].pair == q;
        TallyAt(r, j);
      } else {
        TallyMissing(entries, q);
        if q == p { TallyAt(r, i); } else { TallyMissing(r, q); }
      }
    }
  }

  lemma {:induction false} SupportersStep(votes: seq<PeerVote>, n: nat, p: Pair)
    requires n < |votes|
    ensures Supporters(votes[..n + 1], p) ==
      Supporters(votes[..n], p) + if Endorses(votes, n, p) then {votes[n].id} else {}
    ensures Endorses(votes, n, p) ==> votes[n].id !in Supporters(votes[..n], p)
  {
    hide Endorses;
    var a, b := votes[..n], votes[..n + 1];
    forall i | 0 <= i < n ensures Endorses(a, i, p) <==> Endorses(b, i, p) {
      EndorsesInPrefix(votes, n, i, p);
      EndorsesInPrefix(votes, n + 1, i, p);
    }
    EndorsesInPrefix(votes, n + 1, n, p);
    assert forall i :: 0 <= i < n ==> a[i] == b[i] == votes[i];
    forall id | id in Supporters(b, p)
      ensures id in Supporters(a, p) + if Endorses(votes, n, p) then {votes[n].id} else {}
    {
      var i :| 0 <= i < |b| && Endorses(b, i, p) && b[i].id == id;
      if i < n { assert Endorses(a, i, p); }
    }
    forall id | id in Supporters(a, p) ensures id in Supporters(b, p) {
      var i :| 0 <= i < |a| && Endorses(a, i, p) && a[i].id == id;
      assert Endorses(b, i, p);
    }
    if Endorses(votes, n, p) {
      assert Endorses(b, n, p);
      NoEarlierSupport(votes, n, p);
    }
  }

  lemma NoEarlierSupport(votes: seq<PeerVote>, n: nat, p: Pair)
    requires n < |votes| && Endorses(votes, n, p)
    ensures votes[n].id !in Supporters(votes[..n], p)
  {
    var a := votes[..n];
    forall id | id in Supporters(a, p) ensures id != votes[n].id {
      var i :| 0 <= i < |a| && Endorses(a, i, p) && a[i].id == id;
      assert HasRoot(votes[i].root);
    }
  }

  lemma EndorsesInPrefix(votes: seq<PeerVote>, n: nat, i: nat, p: Pair)
    requires i < n <= |votes|
    ensures Endorses(votes[..n], i, p) <==> Endorses(votes, i, p)
  {
    assert forall j :: 0 <= j < n ==> votes[..n][j] == votes[j];
  }

  lemma SupportStep(votes: seq<PeerVote>, vals: seq<Validator>, n: nat, p: Pair)
    requires n < |votes|
    ensures Support(votes[..n + 1], vals, p) ==
      Support(votes[..n], vals, p) + if Endorses(votes, n, p) then StakeOf(vals, votes[n].id) else 0
  {
    SupportersStep(votes, n, p);
    if Endorses(votes, n, p) {
      var a, id := Supporters(votes[..n], p), votes[n].id;
      StakeInModular(vals, a, {id});
      assert a * {id} == {};
      StakeInNone(vals);
      StakeInSingleton(vals, id);
    } else {
      assert Supporters(votes[..n], p) + {} == Supporters(votes[..n], p);
    }
  }

  lemma SupportSteps(votes: seq<PeerVote>, vals: seq<Validator>, n: nat)
    requires n < |votes|
    ensures forall p ::
      Support(votes[..n + 1], vals, p) == Support(votes[..n], vals, p) + if Endorses(votes, n, p) then StakeOf(vals, votes[n].id) else 0
  {
    forall p ensures Support(votes[..n + 1], vals, p) ==
      Support(votes[..n], vals, p) + if Endorses(votes, n, p) then StakeOf(vals, votes[n].id) else 0
    {
      SupportStep(votes, vals, n, p);
    }
  }

  ghost predicate FirstBacks(votes: seq<PeerVote>, vals: seq<Validator>, i: nat, p: Pair)
    requires i < |votes|
  {
    Backs(votes, vals, i, p) && forall j :: 0 <= j < |votes| && Backs(votes, vals, j, p) ==> i <= j
  }

  /** The pairs backed so far, in the order of their first votes with stake, given by their positions. */
  ghost predicate InOrder(votes: seq<PeerVote>, vals: seq<Validator>, n: nat, pairs: seq<Pair>, firsts: seq<nat>)
    requires n <= |votes|
  {
    && |firsts| == |pairs|
    && (forall i :: 0 <= i < |firsts| ==> firsts[i] < n && FirstBacks(votes, vals, firsts[i], pairs[i]))
    && (forall i, j :: 0 <= i < j < |firsts| ==> firsts[i] < firsts[j])
    && (forall p, j :: 0 <= j < n && Backs(votes, vals, j, p) ==> p in pairs)
  }

  lemma BacksOnce(votes: seq<PeerVote>, vals: seq<Validator>, n: nat, p: Pair, q: Pair)
    requires n < |votes| && Backs(votes, vals, n, p) && Backs(votes, vals, n, q)
    ensures p == q
  {
    EndorsesOnce(votes, n, p, n, q);
  }

  lemma InOrderKnown(votes: seq<PeerVote>, vals: seq<Validator>, n: nat, pairs: seq<Pair>, firsts: seq<nat>)
    requires n < |votes| && InOrder(votes, vals, n, pairs, firsts)
    requires forall p :: Backs(votes, vals, n, p) ==> p in pairs
    ensures InOrder(votes, vals, n + 1, pairs, firsts)
  {
    hide Backs, FirstBacks;
  }

  lemma InOrderNew(votes: seq<PeerVote>, vals: seq<Validator>, n: nat, pairs: seq<Pair>, firsts: seq<nat>, p: Pair)
    requires n < |votes| && InOrder(votes, vals, n, pairs, firsts) && Backs(votes, vals, n, p) && p !in pairs
    ensures InOrder(votes, vals, n + 1, pairs + [p], firsts + [n])
  {
    assert FirstBacks(votes, vals, n, p) by { hide Backs; }
    forall q | Backs(votes, vals, n, q) ensures q == p { BacksOnce(votes, vals, n, p, q); }
    hide Backs, FirstBacks;
  }

  lemma InOrderIsEarlier(votes: seq<PeerVote>, vals: seq<Validator>, pairs: seq<Pair>, firsts: seq<nat>, i: nat, j: nat)
    requires InOrder(votes, vals, |votes|, pairs, firsts) && i < j < |pairs|
    ensures Earlier(votes, vals, pairs[i], pairs[j])
  {
    assert FirstBacks(votes, vals, firsts[i], pairs[i]) && FirstBacks(votes, vals, firsts[j], pairs[j]);
    hide Backs;
  }

  lemma NothingTallied(votes: seq<PeerVote>, vals: seq<Validator>)
    ensures InOrder(votes, vals, 0, PairsOf([]), []) && forall p :: Tally([], p) == Support(votes[..0], vals, p)
  {
    forall p ensures Support(votes[..0], vals, p) == 0 {
      assert Supporters(votes[..0], p) == {};
      StakeInNone(vals);
    }
  }

  method TallyVotes(votes: seq<PeerVote>, vals: seq<Validator>) returns (entries: seq<PairStake>)
    ensures forall i, j :: 0 <= i < j < |entries| ==> Earlier(votes, vals, entries[i].pair, entries[j].pair)
    ensures DistinctPairs(entries)
    ensures forall i :: 0 <= i < |entries| ==> entries[i].stake > 0
    ensures forall p :: Tally(entries, p) == Support(votes, vals, p)
  {
    var stakeById := StakeMap(vals);
    entries := [];
    var counted: set<Id> := {};
    ghost var firsts: seq<nat> := [];
    NothingTallied(votes, vals);
    hide InOrder, Backs, Support, Tally, PairsOf, Earlier;
    for n := 0 to |votes|
      invariant DistinctPairs(entries)
      invariant forall i :: 0 <= i < |entries| ==> entries[i].stake > 0
      invariant forall id :: id in counted <==> exists j :: 0 <= j < n && HasRoot(votes[j].root) && votes[j].id == id
      invariant forall p :: Tally(entries, p) == Support(votes[..n], vals, p)
      invariant InOrder(votes, vals, n, PairsOf(entries), firsts)
    {
      var vote := votes[n];
      SupportSteps(votes, vals, n);
      if HasRoot(vote.root) && vote.id !in counted {
        counted := counted + {vote.id};
        assert IsFirst(votes, n);
        var pair := Pair(vote.hash, vote.root.value);
        if vote.id in stakeById && stakeById[vote.id] > 0 {
          CountsFor(votes, vals, n, pair);
          if pair in PairsOf(entries) {
            InOrderKnown(votes, vals, n, PairsOf(entries), firsts);
          } else {
            InOrderNew(votes, vals, n, PairsOf(entries), firsts, pair);
            firsts := firsts + [n];
          }
          entries := AddStake(entries, pair, stakeById[vote.id]);
        } else {
          NoStakeNoBacking(votes, vals, n);
          InOrderKnown(votes, vals, n, PairsOf(entries), firsts);
        }
      } else {
        assert !IsFirst(votes, n);
        NotFirstNoBacking(votes, vals, n);
        InOrderKnown(votes, vals, n, PairsOf(entries), firsts);
      }
    }
    forall i, j | 0 <= i < j < |entries| ensures Earlier(votes, vals, entries[i].pair, entries[j].pair) {
      PairAt(entries, i);
      PairAt(entries, j);
      InOrderIsEarlier(votes, vals, PairsOf(entries), firsts, i, j);
    }
    assert votes[..|votes|] == votes;
  }

  lemma CountsFor(votes: seq<PeerVote>, vals: seq<Validator>, n: nat, p: Pair)
    requires n < |votes| && IsFirst(votes, n) && StakeOf(vals, votes[n].id) > 0
    requires p == Pair(votes[n].hash, votes[n].root.value)
    ensures forall q :: Backs(votes, vals, n, q) <==> q == p
  {
  }

  lemma PairAt(entries: seq<PairStake>, i: nat)
    requires i < |entries|
    ensures |PairsOf(entries)| == |entries| && PairsOf(entries)[i] == entries[i].pair
  {
  }

  lemma NoStakeNoBacking(votes: seq<PeerVote>, vals: seq<Validator>, n: nat)
    requires n < |votes| && StakeOf(vals, votes[n].id) == 0
    ensures forall p :: !Backs(votes, vals, n, p)
  {
  }

  lemma NotFirstNoBacking(votes: seq<PeerVote>, vals: seq<Validator>, n: nat)
    requires n < |votes| && !IsFirst(votes, n)
    ensures forall p :: !Backs(votes, vals, n, p)
  {
  }

  /** Alarm for the best-supported pair that passes, unless the node has that root itself. */
  method ComputePeerQuorumDivergence(votes: seq<PeerVote>, localRoot: Option<Hash>, vals: seq<Validator>)
    returns (r: Option<Alarm>)
    ensures Answers(votes, vals, localRoot, r)
  {
    var entries := TallyVotes(votes, vals);
    var twoThirds := TotalStake(vals) * 2 / 3;
    var best: Option<PairStake> := None;
    ghost var k := 0;
    for i := 0 to |entries|
      invariant best.None? ==> forall j :: 0 <= j < i ==> entries[j].stake < twoThirds
      invariant best.Some? ==> k < i && best.value == entries[k] && best.value.stake >= twoThirds
      invariant best.Some? ==> forall j :: 0 <= j < i ==> entries[j].stake <= best.value.stake
      invariant best.Some? ==> forall j :: 0 <= j < k ==> entries[j].stake < best.value.stake
    {
      if entries[i].stake >= twoThirds && (best.None? || entries[i].stake > best.value.stake) {
        best, k := Some(entries[i]), i;
      }
    }
    forall p
      ensures best.None? ==> !Passes(votes, vals, p)
      ensures best.Some? ==> Support(votes, vals, p) <= best.value.stake
    {
      var j := IndexOf(entries, p);
      if j < |entries| { TallyAt(entries, j); } else { TallyMissing(entries, p); }
    }
    if best.None? { return None; }
    TallyAt(entries, k);
    assert IsBest(votes, vals, best.value.pair);
    hide Earlier;
    forall q | IsBest(votes, vals, q) && q != best.value.pair ensures Earlier(votes, vals, best.value.pair, q) {
      var j := IndexOf(entries, q);
      if j < |entries| { TallyAt(entries, j); } else { TallyMissing(entries, q); }
      assert k < j < |entries|;
    }
    assert Leads(votes, vals, best.value.pair);
    if HasRoot(localRoot) && localRoot.value == best.value.pair.root { return None; }
    return Some(Alarm(best.value.pair, localRoot));
  }

  /** The check at a round's timeout. */
  method DetectPeerQuorumDivergence(round: BftRound, localId: Id, vals: seq<Validator>) returns (r: Option<Alarm>)
    ensures Answers(OtherVotes(vals, localId, round.prepareVotes), vals,
      if localId in round.prepareVotes then round.prepareVotes[localId].root else None, r)
  {
    var localRoot := if localId in round.prepareVotes then round.prepareVotes[localId].root else None;
    var others: seq<PeerVote> := [];
    for i := 0 to |vals|
      invariant others == OtherVotes(vals[..i], localId, round.prepareVotes)
    {
      assert vals[..i + 1][..i] == vals[..i];
      var id := vals[i].id;
      if id != localId && id in round.prepareVotes && HasRoot(round.prepareVotes[id].root) {
        others := others + [PeerVote(id, round.prepareVotes[id].hash, round.prepareVotes[id].root)];
      }
    }
    assert vals[..|vals|] == vals;
    r := ComputePeerQuorumDivergence(others, localRoot, vals);
  }
}
