/**
 * Runs of the network built step by step, to show that the conditions of the safety theorems are exact:
 * two committees without an honest validator in common let two honest nodes commit to different blocks, and
 * a node that is not sound can be made to commit twice at one height.
 */
module Schedules {
  import opened BftTypes
  import opened Quorum
  import opened Round
  import opened VoteLedger
  import Detection = EquivocationDetection
  import opened Coordinator
  import opened VoteSafety
  import opened Network
  import StateRoots

  ghost predicate Reachable(net0: Net, net: Net) {
    exists nets, actions :: IsRun(nets, actions) && nets[0] == net0 && nets[|actions|] == net
  }

  lemma Begin(net0: Net)
    requires Initial(net0)
    ensures Reachable(net0, net0)
  {
    var nets, actions: seq<Action> := [net0], [];
    assert IsRun(nets, actions) && nets[|actions|] == net0;
  }

  lemma Onward(net0: Net, net: Net, a: Action)
    requires Reachable(net0, net) && Enabled(net, a)
    ensures Reachable(net0, After(net, a))
  {
    hide Enabled, After, Initial;
    var nets, actions :| IsRun(nets, actions) && nets[0] == net0 && nets[|actions|] == net;
    var nets', actions' := nets + [After(net, a)], actions + [a];
    forall i | 0 <= i < |actions'| ensures Enabled(nets'[i], actions'[i]) && nets'[i + 1] == After(nets'[i], actions'[i]) {
      if i < |actions| {
        assert nets'[i] == nets[i] && nets'[i + 1] == nets[i + 1] && actions'[i] == actions[i];
      }
    }
    assert IsRun(nets', actions') && nets'[|actions'|] == After(net, a);
  }

  /** Only this node changed; more may be attested. */
  ghost predicate OnlyAt(net: Net, net': Net, i: Id) {
    SameSetting(net, net') && net.att <= net'.att && forall j :: j in net.nodes && j != i ==> net'.nodes[j] == net.nodes[j]
  }

  /** One node takes one event. */
  lemma Take(net0: Net, net: Net, i: Id, ev: Event, o: Out) returns (net': Net)
    requires Reachable(net0, net) && i in net.nodes && Step(net.nodes[i].c, ev, o)
    requires EventOk(ParamsOf(net, i), net.nodes[i].c, WorldOf(net, i), ev)
    ensures Reachable(net0, net') && OnlyAt(net, net', i)
    ensures net' == Updated(net, i, o.c, PerformAll(ParamsOf(net, i), WorldOf(net, i), o.fx))
  {
    hide Step, EventOk, PerformAll;
    var a := Act(i, ev, o);
    Onward(net0, net, a);
    net' := After(net, a);
    Grows(ParamsOf(net, i), WorldOf(net, i), o.fx);
  }

  lemma {:induction false} Performed(p: Params, w: World, fx: seq<Effect>, e: Effect)
    requires e in fx
    ensures e.Sent? ==> e.msg in PerformAll(p, w, fx).sent && Attest(p.local, e.msg.kind, e.msg.height, e.msg.hash) in PerformAll(p, w, fx).att
    ensures e.FinalizedBlock? ==> e.block in PerformAll(p, w, fx).done
    decreases |fx|
  {
    if e == fx[0] {
      Grows(p, Perform(p, w, fx[0]), fx[1..]);
    } else {
      Performed(p, Perform(p, w, fx[0]), fx[1..], e);
    }
  }

  // ----- One node gathers prepares ----------------------------------------------------------------

  /** The round for the block is open, and these peers' prepares for it have been counted, without roots. */
  ghost predicate Waiting(c: Coord, cfg: RoundConfig, block: Block, heard: set<Id>) {
    && c.active.Some? && c.active.value.cfg == cfg
    && var s := c.active.value.state;
    && s.phase == Preparing && s.height == block.number && s.proposed == Some(block) && RoundInv(cfg, s)
    && s.prepareVotes.Keys == {cfg.localId} + heard
    && (forall id :: id in s.prepareVotes ==> s.prepareVotes[id].root.None?)
    && c.committedAt == map[]
    && (forall id :: id !in heard ==> Detection.Seen(c.seen, id, block.number, Prepare).None?)
  }

  lemma OpensWaiting(cfg: RoundConfig, block: Block)
    requires cfg.IsValidator() && IsKnown(cfg.validators, block.proposer)
    ensures var o := OpenRound(Restart(cfg, EMPTY), block, None);
      Waiting(o.c, cfg, block, {}) && Sent(Msg(Prepare, block.number, block.hash, cfg.localId, None)) in o.fx
  {
    ProposeKeepsInv(cfg, NewRound(block.number), block, block.proposer, None);
  }

  /** Once all votes of a quorum with a peer in it are counted, the round is not waiting any more. */
  lemma QuorumEndsWaiting(c: Coord, cfg: RoundConfig, block: Block, heard: set<Id>)
    requires heard != {} && cfg.localId !in heard && IsQuorum(cfg.validators, cfg.relaxed, {cfg.localId} + heard)
    ensures !Waiting(c, cfg, block, heard)
  {
    if Waiting(c, cfg, block, heard) {
      WholeGroup(c.active.value.state.prepareVotes, cfg.localId, block.hash);
    }
  }

  lemma WholeGroup(votes: map<Id, Vote>, me: Id, hash: Hash)
    requires me in votes && forall id :: id in votes ==> votes[id] == Vote(hash, None)
    ensures AnchoredGroup(votes, me) == votes.Keys
  {
  }

  /** The outcome commits to the block. */
  ghost predicate Commits(fx: seq<Effect>, block: Block) {
    || (exists m :: Sent(m) in fx && m.kind == Commit && m.height == block.number && m.hash == block.hash)
    || FinalizedBlock(block) in fx
  }

  lemma OnePrepareMore(cfg: RoundConfig, s: RoundState, id: Id, hash: Hash)
    requires RoundInv(cfg, s) && s.phase == Preparing && cfg.IsValidator()
    requires IsKnown(cfg.validators, id) && id !in s.prepareVotes && hash == s.proposed.value.hash
    ensures var (s', out) := HandlePrepare(cfg, s, id, hash, None);
      && RoundInv(cfg, s') && s'.proposed == s.proposed && s'.height == s.height
      && (|| (s'.phase == Preparing && out == [] && s'.prepareVotes == s.prepareVotes[id := Vote(hash, None)])
          || (s'.phase == Finalized && out == [])
          || (s'.phase == Committing && |out| == 1 && out[0].kind == Commit && out[0].height == s.height && out[0].hash == hash))
  {
    PrepareKeepsInv(cfg, s, id, hash, None);
    hide RoundInv, GroupHasQuorum;
  }

  /** A peer's prepare is counted, or completes the quorum and makes the node commit. */
  lemma HearsOne(c: Coord, cfg: RoundConfig, block: Block, heard: set<Id>, id: Id)
    requires Waiting(c, cfg, block, heard) && cfg.IsValidator()
    requires IsKnown(cfg.validators, id) && id !in heard && id != cfg.localId
    ensures var m := Msg(Prepare, block.number, block.hash, id, None);
      var d := Deliver(c, m, {m});
      Waiting(d.c, cfg, block, heard + {id}) || Commits(d.fx, block)
  {
    var m := Msg(Prepare, block.number, block.hash, id, None);
    var s := c.active.value.state;
    OnePrepareMore(cfg, s, id, block.hash);
    var seen := Detection.KeepHighest(Detection.Noted(c.seen, id, block.number, Prepare, block.hash, ""), TRACKED_HEIGHTS);
    StillUnseen(c.seen, heard, id, block);
    hide HandlePrepare, DeliverPrepare, Detection.Noted, Detection.KeepHighest, Detection.Seen, Detection.Conflicts;
    PrepareOutcome(c.(seen := seen), m);
    var s' := HandlePrepare(cfg, s, id, block.hash, None).0;
    if s'.phase == Preparing {
      StillWaiting(c, cfg, block, heard, id, seen, s');
    }
    hide Waiting, RoundInv;
  }

  lemma StillWaiting(c: Coord, cfg: RoundConfig, block: Block, heard: set<Id>, id: Id, seen: Detection.VoteTable, s: RoundState)
    requires Waiting(c, cfg, block, heard) && s.phase == Preparing && s.proposed == Some(block) && s.height == block.number
    requires RoundInv(cfg, s) && s.prepareVotes == c.active.value.state.prepareVotes[id := Vote(block.hash, None)]
    requires forall k :: k !in heard + {id} ==> Detection.Seen(seen, k, block.number, Prepare).None?
    ensures Waiting(c.(seen := seen, active := Some(Active(cfg, s))), cfg, block, heard + {id})
  {
    hide RoundInv, Detection.Seen;
  }

  lemma StillUnseen(seen: Detection.VoteTable, heard: set<Id>, id: Id, block: Block)
    requires id !in heard && forall k :: k !in heard ==> Detection.Seen(seen, k, block.number, Prepare).None?
    ensures !Detection.Conflicts(seen, id, block.number, Prepare, block.hash)
    ensures var next := Detection.KeepHighest(Detection.Noted(seen, id, block.number, Prepare, block.hash, ""), TRACKED_HEIGHTS);
      forall k :: k !in heard + {id} ==> Detection.Seen(next, k, block.number, Prepare).None?
  {
    var next := Detection.KeepHighest(Detection.Noted(seen, id, block.number, Prepare, block.hash, ""), TRACKED_HEIGHTS);
    forall k | k !in heard + {id} ensures Detection.Seen(next, k, block.number, Prepare).None? {
      Detection.NotedSeen(seen, TRACKED_HEIGHTS, id, block.number, Prepare, block.hash, "", k, block.number, Prepare);
    }
  }

  lemma PrepareOutcome(c: Coord, m: Msg)
    requires c.active.Some? && c.committedAt == map[]
    ensures var a := c.active.value;
      var (s, out) := HandlePrepare(a.cfg, a.state, m.sender, m.hash, m.root);
      var d := DeliverPrepare(c, m);
      && (s.phase == Preparing && out == [] ==> d.c == c.(active := Some(a.(state := s))))
      && (s.phase == Finalized && s.proposed.Some? ==> FinalizedBlock(s.proposed.value) in d.fx)
      && (s.phase == Committing && out != [] ==> Sent(out[0]) in d.fx)
  {
    hide HandlePrepare, WithCommitted;
  }

  // ----- The network --------------------------------------------------------------------------------

  /** The node has voted for the block and heard nothing yet. */
  ghost predicate Voted(net: Net, i: Id, cfg: RoundConfig, block: Block) {
    i in net.nodes && Waiting(net.nodes[i].c, cfg, block, {}) && Attest(i, Prepare, block.number, block.hash) in net.att
  }

  lemma Reweighs(net0: Net, net: Net, i: Id, vals: seq<Validator>) returns (net': Net)
    requires Reachable(net0, net) && i in net.nodes && net.nodes[i] == Fresh(net.nodes[i].c.cfg)
    requires ParamsOf(net, i).InUse(net.nodes[i].c.cfg) && vals in net.tables && Ids(vals) == Ids(net.nodes[i].c.cfg.validators)
    ensures Reachable(net0, net') && OnlyAt(net, net', i) && net'.nodes[i] == Fresh(RoundConfig(vals, i, net.relaxed))
  {
    hide Reachable, SoundIn, Ids;
    net' := Take(net0, net, i, UpdateEvent(vals), Out(Restart(RoundConfig(vals, i, net.relaxed), EMPTY), []));
  }

  lemma Opens(net0: Net, net: Net, i: Id, cfg: RoundConfig, block: Block) returns (net': Net)
    requires Reachable(net0, net) && i in net.nodes && net.nodes[i] == Fresh(cfg) && ParamsOf(net, i).InUse(cfg)
    requires cfg.IsValidator() && IsKnown(cfg.validators, block.proposer) && block.number > 0
    ensures Reachable(net0, net') && OnlyAt(net, net', i) && Voted(net', i, cfg, block)
  {
    OpensWaiting(cfg, block);
    hide Waiting, OpenRound, Reachable, SoundIn, PerformAll, OnlyAt;
    var o := OpenRound(Restart(cfg, EMPTY), block, None);
    var p, w := ParamsOf(net, i), WorldOf(net, i);
    assert OpenWith(net.nodes[i].c, cfg, block, None) == o;
    net' := Take(net0, net, i, OpenEvent(cfg, block, None), o);
    Performed(p, w, o.fx, Sent(Msg(Prepare, block.number, block.hash, i, None)));
  }

  /** A fresh node is given new stakes, then votes for the block. */
  lemma Votes(net0: Net, net: Net, i: Id, vals: seq<Validator>, block: Block) returns (net': Net)
    requires Reachable(net0, net) && i in net.nodes && net.nodes[i] == Fresh(net.nodes[i].c.cfg)
    requires ParamsOf(net, i).InUse(net.nodes[i].c.cfg) && vals in net.tables && Ids(vals) == Ids(net.nodes[i].c.cfg.validators)
    requires IsKnown(vals, i) && IsKnown(vals, block.proposer) && block.number > 0
    ensures Reachable(net0, net') && OnlyAt(net, net', i) && Voted(net', i, RoundConfig(vals, i, net.relaxed), block)
  {
    hide Voted, Reachable, SoundIn, Ids, IsKnown;
    var net1 := Reweighs(net0, net, i, vals);
    net' := Opens(net0, net1, i, RoundConfig(vals, i, net.relaxed), block);
  }

  lemma Delivers(net0: Net, net: Net, i: Id, m: Msg) returns (net': Net)
    requires Reachable(net0, net) && i in net.nodes
    requires m.sender in SoundIn(net) ==> Attest(m.sender, m.kind, m.height, m.hash) in net.att
    ensures Reachable(net0, net') && OnlyAt(net, net', i)
    ensures var d := Deliver(net.nodes[i].c, m, {m});
      net' == Updated(net, i, d.c, PerformAll(ParamsOf(net, i), WorldOf(net, i), d.fx))
  {
    hide Deliver, Reachable, SoundIn, PerformAll, OnlyAt;
    var d := Deliver(net.nodes[i].c, m, {m});
    net' := Take(net0, net, i, DeliverEvent(m, {m}), Out(d.c, d.fx));
  }

  /** The node hears one peer's prepare, and keeps waiting or commits. */
  lemma Hears(net0: Net, net: Net, i: Id, cfg: RoundConfig, block: Block, heard: set<Id>, id: Id) returns (net': Net)
    requires Reachable(net0, net) && i in net.nodes && cfg.localId == i && cfg.IsValidator()
    requires Waiting(net.nodes[i].c, cfg, block, heard)
    requires IsKnown(cfg.validators, id) && id !in heard && id != i
    requires id in SoundIn(net) ==> Attest(id, Prepare, block.number, block.hash) in net.att
    ensures Reachable(net0, net') && OnlyAt(net, net', i)
    ensures Waiting(net'.nodes[i].c, cfg, block, heard + {id}) || CommittedTo(net', i, block.number, block.hash)
  {
    var m := Msg(Prepare, block.number, block.hash, id, None);
    var c := net.nodes[i].c;
    hide Waiting, Deliver, Reachable, SoundIn, PerformAll, OnlyAt, Commits, CommittedTo, IsKnown;
    HearsOne(c, cfg, block, heard, id);
    var d := Deliver(c, m, {m});
    net' := Delivers(net0, net, i, m);
    if Commits(d.fx, block) {
      CommitsOnWire(net, i, d.c, d.fx, block);
    }
  }

  /** The node hears the prepares of these peers, which with those heard before make a quorum, and commits. */
  lemma {:induction false} Gathers(net0: Net, net: Net, i: Id, cfg: RoundConfig, block: Block, heard: set<Id>, ids: seq<Id>)
      returns (net': Net)
    requires Reachable(net0, net) && i in net.nodes && cfg.localId == i && cfg.IsValidator()
    requires Waiting(net.nodes[i].c, cfg, block, heard)
    requires Distinct(ids) && i !in heard && (ids != [] || heard != {})
    requires forall id :: id in ids ==> IsKnown(cfg.validators, id) && id !in heard && id != i
    requires forall id :: id in ids && id in SoundIn(net) ==> Attest(id, Prepare, block.number, block.hash) in net.att
    requires IsQuorum(cfg.validators, cfg.relaxed, {i} + heard + Elements(ids))
    ensures Reachable(net0, net') && OnlyAt(net, net', i) && CommittedTo(net', i, block.number, block.hash)
    decreases |ids|
  {
    hide Waiting, Reachable, IsQuorum, CommittedTo, IsKnown, SoundNode;
    if ids == [] {
      assert {i} + heard + Elements(ids) == {i} + heard;
      QuorumEndsWaiting(net.nodes[i].c, cfg, block, heard);
      assert false;
    } else {
      var id, rest := ids[0], ids[1..];
      assert id in ids && forall k :: k in rest ==> k in ids && k != id;
      net' := Hears(net0, net, i, cfg, block, heard, id);
      if !CommittedTo(net', i, block.number, block.hash) {
        assert {i} + heard + Elements(ids) == {i} + (heard + {id}) + Elements(rest);
        net' := Gathers(net0, net', i, cfg, block, heard + {id}, rest);
      }
    }
  }

  lemma CommitsOnWire(net: Net, i: Id, c: Coord, fx: seq<Effect>, block: Block)
    requires i in net.nodes && Commits(fx, block)
    ensures CommittedTo(Updated(net, i, c, PerformAll(ParamsOf(net, i), WorldOf(net, i), fx)), i, block.number, block.hash)
  {
    var p, w := ParamsOf(net, i), WorldOf(net, i);
    if m :| Sent(m) in fx && m.kind == Commit && m.height == block.number && m.hash == block.hash {
      Performed(p, w, fx, Sent(m));
    } else {
      Performed(p, w, fx, FinalizedBlock(block));
    }
  }

  // ----- When agreement fails -----------------------------------------------------------------------

  /** Two quorums under two tables, each with the node that gathers it; the first votes for one block, the rest for another. */
  datatype Split = Split(v1: seq<Validator>, q1: set<Id>, a: Id, v2: seq<Validator>, q2: set<Id>, b: Id) {
    function TableFor(i: Id): seq<Validator> {
      if i in q1 then v1 else v2
    }

    function BlockFor(i: Id): Block {
      if i in q1 then Block(1, "x", a) else Block(1, "y", b)
    }
  }

  /** They are committees without an honest validator in common. */
  ghost predicate Splits(net: Net, d: Split) {
    && Committee(net.tables, net.relaxed, SoundIn(net), d.v1, d.q1, d.a)
    && Committee(net.tables, net.relaxed, SoundIn(net), d.v2, d.q2, d.b)
    && !Meet(SoundIn(net), d.q1, d.q2)
  }

  /** The node is as it was at the start, on the common table. */
  ghost predicate Untouched(net: Net, i: Id, base: seq<Validator>) {
    i in net.nodes && net.nodes[i] == Fresh(RoundConfig(base, i, net.relaxed))
  }

  ghost predicate HasVoted(net: Net, d: Split, i: Id) {
    Voted(net, i, RoundConfig(d.TableFor(i), i, net.relaxed), d.BlockFor(i))
  }

  lemma VotesItsSide(net0: Net, net: Net, d: Split, base: seq<Validator>, i: Id) returns (net': Net)
    requires Reachable(net0, net) && Splits(net, d) && base in net.tables && OneMembership(net.tables)
    requires i in d.q1 + d.q2 && Untouched(net, i, base)
    ensures Reachable(net0, net') && OnlyAt(net, net', i) && HasVoted(net', d, i)
  {
    hide Reachable, SoundIn, Voted, Meet, OnlyAt;
    net' := Votes(net0, net, i, d.TableFor(i), d.BlockFor(i));
    assert SameSetting(net, net') by { AtOneNode(net, net', i); }
  }

  lemma AtOneNode(net: Net, net': Net, i: Id)
    requires OnlyAt(net, net', i)
    ensures SameSetting(net, net') && SoundIn(net') == SoundIn(net)
  {
  }

  /** All these nodes vote, each on its side. */
  lemma {:induction false} AllVote(net0: Net, net: Net, d: Split, base: seq<Validator>, ids: seq<Id>) returns (net': Net)
    requires Reachable(net0, net) && Splits(net, d) && base in net.tables && OneMembership(net.tables)
    requires Distinct(ids) && forall i :: i in ids ==> i in d.q1 + d.q2 && Untouched(net, i, base)
    ensures Reachable(net0, net') && SameSetting(net, net') && forall i :: i in ids ==> HasVoted(net', d, i)
    ensures net.att <= net'.att && forall i :: i in net.nodes && i !in ids ==> net'.nodes[i] == net.nodes[i]
    decreases |ids|
  {
    hide Reachable, SoundNode, Waiting, Committee, Meet, Fresh, OneMembership;
    net' := net;
    if ids != [] {
      var i, rest := ids[0], ids[1..];
      assert i in ids && forall k :: k in rest ==> k in ids && k != i;
      var net1 := VotesItsSide(net0, net, d, base, i);
      net' := AllVote(net0, net1, d, base, rest);
      assert HasVoted(net1, d, i) && net'.nodes[i] == net1.nodes[i];
      assert HasVoted(net', d, i);
    }
  }

  /** A node that voted hears the rest of its committee and commits. */
  lemma CommitteeCommits(net0: Net, net: Net, vals: seq<Validator>, q: set<Id>, i: Id, block: Block) returns (net': Net)
    requires Reachable(net0, net) && Committee(net.tables, net.relaxed, SoundIn(net), vals, q, i)
    requires Voted(net, i, RoundConfig(vals, i, net.relaxed), block)
    requires forall id :: id in q && id in SoundIn(net) ==> Attest(id, Prepare, block.number, block.hash) in net.att
    ensures Reachable(net0, net') && OnlyAt(net, net', i) && CommittedTo(net', i, block.number, block.hash)
  {
    hide Reachable, SoundIn, Waiting, OnlyAt, CommittedTo, IsQuorum, IsKnown;
    var ids := Listed(q - {i});
    var peer :| peer in q && peer != i;
    assert peer in ids;
    assert {i} + {} + Elements(ids) == q;
    net' := Gathers(net0, net, i, RoundConfig(vals, i, net.relaxed), block, {}, ids);
  }

  /** From the common start, two honest nodes commit to different blocks at one height. */
  lemma SplitRun(net0: Net, d: Split, base: seq<Validator>) returns (net: Net)
    requires Initial(net0) && Splits(net0, d) && base in net0.tables && OneMembership(net0.tables)
    requires forall i :: i in net0.nodes ==> Untouched(net0, i, base)
    ensures Reachable(net0, net) && SameSetting(net0, net)
    ensures d.a in SoundIn(net) && d.b in SoundIn(net) && CommittedTo(net, d.a, 1, "x") && CommittedTo(net, d.b, 1, "y")
  {
    Begin(net0);
    SplitFacts(net0, d);
    var voters := Listed((d.q1 + d.q2) * SoundIn(net0));
    forall i | i in voters ensures i in net0.nodes { SoundAreNodes(net0, i); }
    hide Reachable, SoundIn, Initial, Untouched, Committee, CommittedTo, Waiting, Meet, OneMembership, OnlyAt;
    var net1 := AllVote(net0, net0, d, base, voters);
    SameSound(net0, net1);
    assert d.a in voters && d.b in voters;
    forall id | id in d.q1 && id in SoundIn(net1) ensures Attest(id, Prepare, 1, "x") in net1.att {
      assert id in voters && HasVoted(net1, d, id);
    }
    forall id | id in d.q2 && id in SoundIn(net1) ensures Attest(id, Prepare, 1, "y") in net1.att {
      assert id in voters && HasVoted(net1, d, id);
      NotInBoth(net0, d, id);
    }
    assert HasVoted(net1, d, d.a) && HasVoted(net1, d, d.b);
    var net2 := CommitteeCommits(net0, net1, d.v1, d.q1, d.a, Block(1, "x", d.a));
    Beside(net1, net2, d.a, d.b);
    var net3 := CommitteeCommits(net0, net2, d.v2, d.q2, d.b, Block(1, "y", d.b));
    Beside(net2, net3, d.b, d.a);
    assert CommittedTo(net3, d.a, 1, "x") by { SameNodeCommitted(net2, net3, d.a, 1, "x"); }
    net := net3;
  }

  lemma SplitFacts(net: Net, d: Split)
    requires Splits(net, d)
    ensures d.a != d.b && d.a in SoundIn(net) && d.b in SoundIn(net) && d.a in d.q1 && d.b in d.q2 && d.b !in d.q1
  {
  }

  lemma NotInBoth(net: Net, d: Split, id: Id)
    requires Splits(net, d) && id in SoundIn(net) && id in d.q2
    ensures id !in d.q1
  {
  }

  lemma SoundAreNodes(net: Net, i: Id)
    requires i in SoundIn(net)
    ensures i in net.nodes
  {
  }

  lemma SameSound(net: Net, net': Net)
    requires SameSetting(net, net')
    ensures SoundIn(net') == SoundIn(net)
  {
  }

  lemma Beside(net: Net, net': Net, i: Id, j: Id)
    requires OnlyAt(net, net', i) && j in net.nodes && j != i
    ensures SameSetting(net, net') && SoundIn(net') == SoundIn(net) && net.att <= net'.att
    ensures j in net'.nodes && net'.nodes[j] == net.nodes[j]
  {
  }

  lemma SameNodeCommitted(net: Net, net': Net, i: Id, height: int, hash: Hash)
    requires i in net.nodes && i in net'.nodes && net'.nodes[i] == net.nodes[i] && CommittedTo(net, i, height, hash)
    ensures CommittedTo(net', i, height, hash)
  {
  }

  ghost predicate AgreesAt(net: Net) {
    forall i, j, height, x, y ::
      i in SoundIn(net) && j in SoundIn(net) && CommittedTo(net, i, height, x) && CommittedTo(net, j, height, y) ==> x == y
  }

  /** A network of these nodes at the start, all on one table. */
  ghost predicate StartsOn(net: Net, tables: set<seq<Validator>>, relaxed: bool, ids: set<Id>, base: seq<Validator>) {
    && Initial(net) && net.tables == tables && net.relaxed == relaxed && net.nodes.Keys == ids
    && forall i :: i in net.nodes ==> Untouched(net, i, base)
  }

  ghost predicate AlwaysAgree(tables: set<seq<Validator>>, relaxed: bool, ids: set<Id>, base: seq<Validator>) {
    forall net0, net :: StartsOn(net0, tables, relaxed, ids, base) && Reachable(net0, net) ==> AgreesAt(net)
  }

  /**
   * Agreement over all runs, from a common table and through any changes of stakes within a fixed membership,
   * holds exactly when any two committees under any tables in use have an honest validator in common.
   */
  lemma AgreementIff(tables: set<seq<Validator>>, relaxed: bool, ids: set<Id>, base: seq<Validator>)
    requires base in tables && OneMembership(tables)
    ensures AlwaysAgree(tables, relaxed, ids, base) <==> CommitteesMeet(tables, relaxed, Sound(tables, relaxed, ids))
  {
    hide StartsOn, Reachable, AgreesAt, CommitteesMeet, Sound;
    if CommitteesMeet(tables, relaxed, Sound(tables, relaxed, ids)) {
      forall net0, net | StartsOn(net0, tables, relaxed, ids, base) && Reachable(net0, net) ensures AgreesAt(net) {
        MeetingAgrees(tables, relaxed, ids, base, net0, net);
      }
    } else {
      var net0, net := PartedDisagree(tables, relaxed, ids, base);
      assert StartsOn(net0, tables, relaxed, ids, base) && Reachable(net0, net) && !AgreesAt(net);
    }
  }

  lemma MeetingAgrees(tables: set<seq<Validator>>, relaxed: bool, ids: set<Id>, base: seq<Validator>, net0: Net, net: Net)
    requires CommitteesMeet(tables, relaxed, Sound(tables, relaxed, ids))
    requires StartsOn(net0, tables, relaxed, ids, base) && Reachable(net0, net)
    ensures AgreesAt(net)
  {
    hide CommitteesMeet, CommittedTo, Initial, SoundNode, Enabled, After;
    var nets, actions :| IsRun(nets, actions) && nets[0] == net0 && nets[|actions|] == net;
    forall i, j, height, x, y |
      i in SoundIn(net) && j in SoundIn(net) && CommittedTo(net, i, height, x) && CommittedTo(net, j, height, y)
      ensures x == y
    {
      Agreement(nets, actions, |actions|, i, j, height, x, y);
    }
  }

  function StartNet(tables: set<seq<Validator>>, relaxed: bool, ids: set<Id>, base: seq<Validator>): Net {
    Net(tables, relaxed, map i | i in ids :: Fresh(RoundConfig(base, i, relaxed)), {})
  }

  lemma StartNetStarts(tables: set<seq<Validator>>, relaxed: bool, ids: set<Id>, base: seq<Validator>)
    requires base in tables
    ensures StartsOn(StartNet(tables, relaxed, ids, base), tables, relaxed, ids, base)
    ensures SoundIn(StartNet(tables, relaxed, ids, base)) == Sound(tables, relaxed, ids)
  {
    hide SoundNode;
    assert StartNet(tables, relaxed, ids, base).nodes.Keys == ids;
  }

  lemma PartedDisagree(tables: set<seq<Validator>>, relaxed: bool, ids: set<Id>, base: seq<Validator>) returns (net0: Net, net: Net)
    requires base in tables && OneMembership(tables) && !CommitteesMeet(tables, relaxed, Sound(tables, relaxed, ids))
    ensures StartsOn(net0, tables, relaxed, ids, base) && Reachable(net0, net) && !AgreesAt(net)
  {
    var honest := Sound(tables, relaxed, ids);
    var v1, q1, a, v2, q2, b :| Committee(tables, relaxed, honest, v1, q1, a) && Committee(tables, relaxed, honest, v2, q2, b)
      && !Meet(honest, q1, q2);
    var d := Split(v1, q1, a, v2, q2, b);
    net0 := StartNet(tables, relaxed, ids, base);
    StartNetStarts(tables, relaxed, ids, base);
    hide Committee, Meet, CommittedTo, CommitteesMeet, Reachable, OneMembership, SoundIn, StartNet, Initial, Untouched;
    hide AgreesAt;
    net := SplitRun(net0, d, base);
    Disagrees(net, d.a, d.b, 1, "x", "y");
  }

  lemma Disagrees(net: Net, i: Id, j: Id, height: int, x: Hash, y: Hash)
    requires i in SoundIn(net) && j in SoundIn(net) && x != y
    requires CommittedTo(net, i, height, x) && CommittedTo(net, j, height, y)
    ensures !AgreesAt(net)
  {
    hide CommittedTo;
  }

  /** Four validators of equal stake, then one of them with ten times as much. */
  function OneHeavy(): seq<Validator> {
    [Validator("a", 10), Validator("b", 1), Validator("c", 1), Validator("d", 1)]
  }

  /**
   * New stakes can break agreement although faulty stake is below a third in both tables: d votes for one block
   * towards b and c, still on the old table, and for another towards a, on the new one.
   */
  lemma NewStakesSplit()
    ensures var honest := {"a", "b", "c"};
      && 3 * FaultyStake(StateRoots.FourEqual(), honest) < TotalStake(StateRoots.FourEqual())
      && 3 * FaultyStake(OneHeavy(), honest) < TotalStake(OneHeavy())
      && !AlwaysAgree({StateRoots.FourEqual(), OneHeavy()}, false, honest, StateRoots.FourEqual())
  {
    var honest := {"a", "b", "c"};
    FourStakes(1);
    FourStakes(10);
    FourCommittees();
    hide CommitteesMeet, OneMembership, AlwaysAgree, FaultyStake, TotalStake, StateRoots.FourEqual, OneHeavy;
    var tables := {StateRoots.FourEqual(), OneHeavy()};
    assert Sound(tables, false, honest) == honest;
    AgreementIff(tables, false, honest, StateRoots.FourEqual());
  }

  /**
   * The same two tables split state roots: nobody is faulty and only d reports no root. Either table alone
   * keeps one root; with b on the old table and a on the new one, their quorums share no one but d.
   */
  lemma NewStakesSplitRoots()
    ensures var everyone, rooted := {"a", "b", "c", "d"}, {"a", "b", "c"};
      && StateRoots.RootsAgree(StateRoots.Setting({StateRoots.FourEqual()}, false, everyone, rooted))
      && StateRoots.RootsAgree(StateRoots.Setting({OneHeavy()}, false, everyone, rooted))
      && !StateRoots.RootsAgree(StateRoots.Setting({StateRoots.FourEqual(), OneHeavy()}, false, everyone, rooted))
  {
    FourStakes(1);
    FourStakes(10);
    FourCommittees();
    OneTableKeepsRoots(StateRoots.FourEqual());
    OneTableKeepsRoots(OneHeavy());
    TwoTablesSplitRoots();
  }

  lemma OneTableKeepsRoots(vals: seq<Validator>)
    requires 3 * FaultyStake(vals, {"a", "b", "c"}) < TotalStake(vals)
    ensures StateRoots.RootsAgree(StateRoots.Setting({vals}, false, {"a", "b", "c", "d"}, {"a", "b", "c"}))
  {
    hide StateRoots.RootsAgree, StateRoots.QuorumsShareReporter, FaultyStake, TotalStake, ToleratesFaults;
    var x := StateRoots.Setting({vals}, false, {"a", "b", "c", "d"}, {"a", "b", "c"});
    FaultBudget(vals, x.rooted);
    assert StateRoots.Tolerates(x, vals, vals);
    StateRoots.RootBudget(x);
    StateRoots.RootsAgreeIff(x);
  }

  /** The setting of both tables, with d the only one that reports no root. */
  ghost function BothTables(): StateRoots.Setting {
    StateRoots.Setting({StateRoots.FourEqual(), OneHeavy()}, false, {"a", "b", "c", "d"}, {"a", "b", "c"})
  }

  lemma TwoTablesSplitRoots()
    ensures !StateRoots.RootsAgree(BothTables())
  {
    var x := BothTables();
    FourCommittees();
    OldSide();
    NewSide();
    assert !StateRoots.Share(x, {"b", "c", "d"}, {"a", "d"});
    hide OneMembership, CommitteesMeet, StateRoots.FourEqual, OneHeavy, StateRoots.RootsAgree, StateRoots.Anchored, StateRoots.Share;
    StateRoots.UnsharedQuorumsSplit(x, StateRoots.FourEqual(), "b", {"b", "c", "d"}, OneHeavy(), "a", {"a", "d"});
  }

  lemma OldSide()
    ensures StateRoots.Anchored(BothTables(), StateRoots.FourEqual(), "b", {"b", "c", "d"})
  {
    StateRoots.ThreeOfFour("b");
    hide IsKnown, IsQuorum, StateRoots.FourEqual, OneHeavy;
    assert "b" in {"b", "c", "d"};
  }

  lemma NewSide()
    ensures StateRoots.Anchored(BothTables(), OneHeavy(), "a", {"a", "d"})
  {
    FourStakes(10);
    hide IsKnown, TotalStake, StakeIn, Ids, FaultyStake;
    assert "a" in {"a", "d"};
  }

  lemma FourCommittees()
    ensures var tables := {StateRoots.FourEqual(), OneHeavy()};
      OneMembership(tables) && !CommitteesMeet(tables, false, {"a", "b", "c"})
  {
    var v1, v2, honest := StateRoots.FourEqual(), OneHeavy(), {"a", "b", "c"};
    FourStakes(1);
    FourStakes(10);
    StateRoots.ThreeOfFour("b");
    hide TotalStake, StakeIn, IsKnown, Ids;
    assert Committee({v1, v2}, false, honest, v1, {"b", "c", "d"}, "b") by { assert "c" in {"b", "c", "d"}; }
    assert Committee({v1, v2}, false, honest, v2, {"a", "d"}, "a") by { assert "d" in {"a", "d"}; }
    assert !Meet(honest, {"b", "c", "d"}, {"a", "d"});
  }

  lemma FourStakes(heavy: nat)
    ensures var vals := [Validator("a", heavy), Validator("b", 1), Validator("c", 1), Validator("d", 1)];
      && TotalStake(vals) == heavy + 3 && Ids(vals) == {"a", "b", "c", "d"}
      && (forall id :: id in {"a", "b", "c", "d"} ==> IsKnown(vals, id))
      && StakeIn(vals, {"a", "d"}) == heavy + 1 && FaultyStake(vals, {"a", "b", "c"}) == 1
  {
    var v1 := [Validator("a", heavy)];
    var v2 := v1 + [Validator("b", 1)];
    var v3 := v2 + [Validator("c", 1)];
    var v4 := [Validator("a", heavy), Validator("b", 1), Validator("c", 1), Validator("d", 1)];
    assert v2[..1] == v1 && v3[..2] == v2 && v4[..3] == v3 && v1[..0] == [];
    assert v4[0].id == "a" && v4[1].id == "b" && v4[2].id == "c" && v4[3].id == "d";
    assert TotalStake(v1) == heavy;
    assert TotalStake(v2) == heavy + 1;
    assert TotalStake(v3) == heavy + 2;
    assert {"a", "d"} - {"d"} == {"a"} && {"a"} - {"c"} == {"a"} && {"a"} - {"b"} == {"a"};
    assert StakeIn(v1, {"a"}) == heavy;
    assert StakeIn(v2, {"a"}) == heavy;
    assert StakeIn(v3, {"a"}) == heavy;
    assert Ids(v4) - {"a", "b", "c"} == {"d"} && {"d"} - {"d"} == {};
    StakeInNone(v3);
  }

  // ----- When a node votes twice ----------------------------------------------------------------------

  /** The node's coordinator is fresh and nothing is on file, whatever it sent before. */
  ghost predicate Blank(net: Net, i: Id, cfg: RoundConfig) {
    i in net.nodes && net.nodes[i].c == Restart(cfg, EMPTY) && net.nodes[i].disk == EMPTY && net.nodes[i].fin == 0
  }

  /** An observer's round that one prepare takes to the commit phase. */
  ghost predicate CommitsAlone(c: Coord, cfg: RoundConfig, hash: Hash) {
    && c.commitRetry && c.cfg == cfg && c.active.Some?
    && c.active.value.state.phase == Committing && c.active.value.state.height == 1
    && c.active.value.state.proposed.Some? && c.active.value.state.proposed.value.hash == hash
  }

  /** In relaxed mode with one unit of stake, the empty group of an observer is a quorum. */
  lemma ObserverRound(cfg: RoundConfig, block: Block)
    requires !cfg.IsValidator() && cfg.relaxed && TotalStake(cfg.validators) == 1
    requires IsKnown(cfg.validators, block.proposer) && block.number == 1
    ensures var o := OpenRound(Restart(cfg, EMPTY), block, None);
      var m := Msg(Prepare, 1, block.hash, block.proposer, None);
      var d := Deliver(o.c, m, {m});
      o.fx == [] && d.fx == [] && CommitsAlone(d.c, cfg, block.hash)
  {
    var o := OpenRound(Restart(cfg, EMPTY), block, None);
    var s := o.c.active.value.state;
    ProposeKeepsInv(cfg, NewRound(1), block, block.proposer, None);
    ObserverLeavesPrepareIff(cfg, s, block.proposer, block.hash, None);
    hide RoundInv, GroupHasQuorum;
  }

  /** Whatever it did before, a blank observer can be made to commit to any block, and is blank again after a crash. */
  lemma ObserverCommits(net0: Net, net: Net, i: Id, cfg: RoundConfig, block: Block) returns (net': Net)
    requires Reachable(net0, net) && Blank(net, i, cfg) && ParamsOf(net, i).InUse(cfg) && net.nodes.Keys == {i}
    requires !cfg.IsValidator() && cfg.relaxed && TotalStake(cfg.validators) == 1
    requires IsKnown(cfg.validators, block.proposer) && block.number == 1 && block.hash != ""
    ensures Reachable(net0, net') && SameSetting(net, net') && Blank(net', i, cfg)
    ensures net'.nodes[i].sent == net.nodes[i].sent + {Msg(Commit, 1, block.hash, i, None)}
  {
    ObserverRound(cfg, block);
    var m := Msg(Prepare, 1, block.hash, block.proposer, None);
    var net1 := ObserverOpens(net0, net, i, cfg, block);
    hide OpenRound, Deliver, CommitsAlone, Reachable, IsKnown;
    assert m.sender !in SoundIn(net1) by { SoundAreNodesOnly(net1, i, m.sender, cfg); }
    hide SoundIn;
    var net2 := Delivers(net0, net1, i, m);
    net' := TicksAndCrashes(net0, net2, i, cfg, block.hash);
  }

  lemma SoundAreNodesOnly(net: Net, i: Id, voter: Id, cfg: RoundConfig)
    requires net.nodes.Keys == {i} && IsKnown(cfg.validators, voter) && !IsKnown(cfg.validators, i)
    ensures voter !in SoundIn(net)
  {
  }

  lemma ObserverOpens(net0: Net, net: Net, i: Id, cfg: RoundConfig, block: Block) returns (net': Net)
    requires Reachable(net0, net) && Blank(net, i, cfg) && ParamsOf(net, i).InUse(cfg) && block.number == 1
    requires OpenRound(Restart(cfg, EMPTY), block, None).fx == []
    ensures Reachable(net0, net') && SameSetting(net, net')
    ensures net'.nodes[i] == net.nodes[i].(c := OpenRound(Restart(cfg, EMPTY), block, None).c)
  {
    hide OpenRound, Reachable, SoundIn;
    var o := OpenRound(Restart(cfg, EMPTY), block, None);
    assert OpenWith(net.nodes[i].c, cfg, block, None) == o;
    net' := Take(net0, net, i, OpenEvent(cfg, block, None), o);
  }

  lemma TicksAndCrashes(net0: Net, net: Net, i: Id, cfg: RoundConfig, hash: Hash) returns (net': Net)
    requires Reachable(net0, net) && i in net.nodes && CommitsAlone(net.nodes[i].c, cfg, hash) && hash != ""
    requires ParamsOf(net, i).InUse(cfg) && net.nodes[i].disk == EMPTY && net.nodes[i].fin == 0
    ensures Reachable(net0, net') && SameSetting(net, net') && Blank(net', i, cfg)
    ensures net'.nodes[i].sent == net.nodes[i].sent + {Msg(Commit, 1, hash, i, None)}
  {
    hide Reachable, SoundIn;
    var o := CommitTick(net.nodes[i].c);
    var e := Sent(Msg(Commit, 1, hash, i, None));
    assert o.fx == [e] && o.fx[..1] == [e];
    var a := Crash(i, CommitTickEvent, o, 1, cfg.validators);
    Onward(net0, net, a);
    net' := After(net, a);
    OneEffect(ParamsOf(net, i), WorldOf(net, i), e);
  }

  /** Nothing the node ever sends contradicts an earlier vote of its own. */
  ghost predicate AlwaysOneHash(tables: set<seq<Validator>>, relaxed: bool, i: Id) {
    forall net0, net, m1, m2 ::
      && Initial(net0) && net0.tables == tables && net0.relaxed == relaxed && Reachable(net0, net) && i in net.nodes
      && m1 in net.nodes[i].sent && m2 in net.nodes[i].sent && m1.height == m2.height
      ==> m1.hash == m2.hash
  }

  /**
   * A node keeps one hash per height in all runs exactly when it is a validator or no table in use lets an
   * empty group be a quorum: relaxed mode with one unit of stake.
   */
  lemma OneHashIff(tables: set<seq<Validator>>, relaxed: bool, i: Id)
    ensures AlwaysOneHash(tables, relaxed, i) <==> SoundNode(tables, relaxed, i)
  {
    hide Reachable;
    if SoundNode(tables, relaxed, i) {
      forall net0, net, m1, m2 |
        && Initial(net0) && net0.tables == tables && net0.relaxed == relaxed && Reachable(net0, net) && i in net.nodes
        && m1 in net.nodes[i].sent && m2 in net.nodes[i].sent && m1.height == m2.height
        ensures m1.hash == m2.hash
      {
        SoundSendsOneHash(net0, net, i, m1, m2);
      }
    } else {
      var vals :| vals in tables && !IsKnown(vals, i) && relaxed && TotalStake(vals) == 1;
      var net0, net := ObserverCommitsTwice(tables, vals, i);
      assert Initial(net0) && Reachable(net0, net);
    }
  }

  lemma SoundSendsOneHash(net0: Net, net: Net, i: Id, m1: Msg, m2: Msg)
    requires Initial(net0) && Reachable(net0, net) && i in net.nodes && SoundNode(net0.tables, net0.relaxed, i)
    requires m1 in net.nodes[i].sent && m2 in net.nodes[i].sent && m1.height == m2.height
    ensures m1.hash == m2.hash
  {
    hide Initial, Enabled, After, SoundNode;
    var nets, actions :| IsRun(nets, actions) && nets[0] == net0 && nets[|actions|] == net;
    OneHashPerHeight(nets, actions, |actions|, i, m1, m2);
  }

  /** The run: two blocks, one prepare for each from the same validator, two commits and a crash in between. */
  lemma ObserverCommitsTwice(tables: set<seq<Validator>>, vals: seq<Validator>, i: Id) returns (net0: Net, net: Net)
    requires vals in tables && !IsKnown(vals, i) && TotalStake(vals) == 1
    ensures Initial(net0) && net0.tables == tables && net0.relaxed && Reachable(net0, net) && i in net.nodes
    ensures Msg(Commit, 1, "x", i, None) in net.nodes[i].sent && Msg(Commit, 1, "y", i, None) in net.nodes[i].sent
  {
    var cfg, voter := RoundConfig(vals, i, true), vals[0].id;
    assert IsKnown(vals, voter);
    net0 := StartNet(tables, true, {i}, vals);
    StartNetStarts(tables, true, {i}, vals);
    Begin(net0);
    hide Reachable, SoundIn, StartNet, IsKnown;
    var net1 := ObserverCommits(net0, net0, i, cfg, Block(1, "x", voter));
    net := ObserverCommits(net0, net1, i, cfg, Block(1, "y", voter));
  }
}
