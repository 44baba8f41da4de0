/**
 * A network of honest coordinators, each using one of several tables of stakes. Everything else (faulty validators,
 * the transport, timers, crashes, the order in which calls go on after an await) is the
 * environment: any event may happen to any node at any time, with any message, as long as
 * signatures of honest nodes verify only for votes they sent, the chain tip a restarted node reads
 * covers the heights whose votes it has pruned, a start that was interrupted may still vote
 * when its state root arrives, and new validators change stakes but not membership.
 */
module Network {
  import opened BftTypes
  import opened Quorum
  import opened Round
  import opened VoteLedger
  import opened Coordinator
  import opened VoteSafety
  import Buffering

  datatype Node = Node(c: Coord, disk: Snapshot, sent: set<Msg>, fin: int, done: set<Block>, accused: set<Id>)

  datatype Net = Net(tables: set<seq<Validator>>, relaxed: bool, nodes: map<Id, Node>, att: set<Attest>)

  /** The nodes that can keep one vote per height: all of them, outside relaxed mode with one unit of stake. */
  ghost function Sound(tables: set<seq<Validator>>, relaxed: bool, ids: set<Id>): set<Id> {
    set i | i in ids && SoundNode(tables, relaxed, i)
  }

  ghost function SoundIn(net: Net): set<Id> {
    Sound(net.tables, net.relaxed, net.nodes.Keys)
  }

  ghost function ParamsOf(net: Net, i: Id): Params {
    Params(net.tables, net.relaxed, i, SoundIn(net))
  }

  function WorldOf(net: Net, i: Id): World
    requires i in net.nodes
  {
    var n := net.nodes[i];
    World(n.disk, n.sent, n.fin, net.att, n.done, n.accused)
  }

  function Updated(net: Net, i: Id, c: Coord, w: World): Net {
    net.(nodes := net.nodes[i := Node(c, w.disk, w.sent, w.fin, w.done, w.accused)], att := w.att)
  }

  /** One node takes an event, either to the end or crashing after some of its effects and starting again. */
  datatype Action =
    | Act(id: Id, ev: Event, o: Out)
    | Crash(id: Id, ev: Event, o: Out, kept: nat, vals: seq<Validator>)

  ghost predicate Enabled(net: Net, a: Action) {
    && a.id in net.nodes
    && EventOk(ParamsOf(net, a.id), net.nodes[a.id].c, WorldOf(net, a.id), a.ev)
    && Step(net.nodes[a.id].c, a.ev, a.o)
    && (a.Crash? ==> a.kept <= |a.o.fx| && a.vals in net.tables)
  }

  ghost function After(net: Net, a: Action): Net
    requires Enabled(net, a)
  {
    var p, w := ParamsOf(net, a.id), WorldOf(net, a.id);
    match a
    case Act(id, _, o) => Updated(net, id, o.c, PerformAll(p, w, o.fx))
    case Crash(id, _, o, kept, vals) =>
      var w' := PerformAll(p, w, o.fx[..kept]);
      Updated(net, id, Restart(RoundConfig(vals, id, net.relaxed), w'.disk), w')
  }

  function Fresh(cfg: RoundConfig): Node {
    Node(Restart(cfg, EMPTY), EMPTY, {}, 0, {}, {})
  }

  ghost predicate Initial(net: Net) {
    && net.att == {}
    && forall i :: i in net.nodes ==>
      ParamsOf(net, i).InUse(net.nodes[i].c.cfg) && net.nodes[i] == Fresh(net.nodes[i].c.cfg)
  }

  ghost predicate IsRun(nets: seq<Net>, actions: seq<Action>) {
    && |nets| == |actions| + 1
    && Initial(nets[0])
    && forall i :: 0 <= i < |actions| ==> Enabled(nets[i], actions[i]) && nets[i + 1] == After(nets[i], actions[i])
  }

  ghost predicate NetInv(net: Net) {
    forall i :: i in net.nodes ==> NodeInv(ParamsOf(net, i), net.nodes[i].c, WorldOf(net, i))
  }

  /** Votes attested by others leave a node's invariant alone. */
  lemma OthersKeep(p: Params, c: Coord, w: World, att: set<Attest>)
    requires NodeInv(p, c, w) && w.att <= att && OneHash(p.honest, att)
    requires forall a :: a in att && a !in w.att ==> a.id != p.local
    ensures NodeInv(p, c, w.(att := att))
  {
    CertifiedGrowsAll(p, w.att, att);
  }

  lemma UpdatedKeeps(net: Net, i: Id, c: Coord, w: World)
    requires NetInv(net) && i in net.nodes && NodeInv(ParamsOf(net, i), c, w)
    requires net.att <= w.att && forall a :: a in w.att && a !in net.att ==> a.id == i
    ensures NetInv(Updated(net, i, c, w)) && SameSetting(net, Updated(net, i, c, w))
  {
    hide NodeInv;
    var net' := Updated(net, i, c, w);
    assert net'.nodes.Keys == net.nodes.Keys;
    NodeFacts(ParamsOf(net, i), c, w);
    assert WorldOf(net', i) == w;
    forall j | j in net'.nodes ensures NodeInv(ParamsOf(net', j), net'.nodes[j].c, WorldOf(net', j)) {
      assert ParamsOf(net', j) == ParamsOf(net, j);
      if j != i {
        OthersKeep(ParamsOf(net, j), net.nodes[j].c, WorldOf(net, j), w.att);
      }
    }
  }

  ghost predicate SameSetting(net: Net, net': Net) {
    net'.tables == net.tables && net'.relaxed == net.relaxed && net'.nodes.Keys == net.nodes.Keys
  }

  lemma ActionKeeps(net: Net, a: Action)
    requires NetInv(net) && Enabled(net, a)
    ensures NetInv(After(net, a)) && SameSetting(net, After(net, a))
  {
    hide NodeInv, Step, PerformAll, EventOk;
    var p, w := ParamsOf(net, a.id), WorldOf(net, a.id);
    StepKeeps(p, net.nodes[a.id].c, w, a.ev, a.o);
    match a
    case Act(id, _, o) =>
      Grows(p, w, o.fx);
      UpdatedKeeps(net, id, o.c, PerformAll(p, w, o.fx));
    case Crash(id, _, o, kept, vals) =>
      SafePrefix(p, w, o.fx, kept);
      Grows(p, w, o.fx[..kept]);
      RestartKeeps(p, RoundConfig(vals, id, net.relaxed), PerformAll(p, w, o.fx[..kept]));
      UpdatedKeeps(net, id, After(net, a).nodes[id].c, PerformAll(p, w, o.fx[..kept]));
  }

  lemma InitialHolds(net: Net)
    requires Initial(net)
    ensures NetInv(net)
  {
    forall i | i in net.nodes ensures NodeInv(ParamsOf(net, i), net.nodes[i].c, WorldOf(net, i)) {
      RestartKeeps(ParamsOf(net, i), net.nodes[i].c.cfg, WorldOf(net, i));
    }
  }

  lemma {:induction false} RunKeeps(nets: seq<Net>, actions: seq<Action>, n: nat)
    requires IsRun(nets, actions) && n < |nets|
    ensures NetInv(nets[n]) && SameSetting(nets[0], nets[n])
  {
    hide NodeInv, NetInv, Step, EventOk, PerformAll;
    if n == 0 {
      InitialHolds(nets[0]);
    } else {
      RunKeeps(nets, actions, n - 1);
      ActionKeeps(nets[n - 1], actions[n - 1]);
    }
  }

  // ----- What the runs guarantee -------------------------------------------------------------

  /** The node sent a commit for this hash at this height, or finalized it. */
  ghost predicate CommittedTo(net: Net, i: Id, height: int, hash: Hash)
    requires i in net.nodes
  {
    || (exists m :: m in net.nodes[i].sent && m.kind == Commit && m.height == height && m.hash == hash)
    || (exists b :: b in net.nodes[i].done && b.number == height && b.hash == hash)
  }

  /**
   * No coordinator ever sends prepares or commits for two hashes at one height, whatever happens to the
   * stakes. The only exception are nodes outside the validator set in relaxed mode with one unit of stake.
   */
  lemma OneHashPerHeight(nets: seq<Net>, actions: seq<Action>, n: nat, i: Id, m1: Msg, m2: Msg)
    requires IsRun(nets, actions) && n < |nets| && i in nets[n].nodes && SoundNode(nets[0].tables, nets[0].relaxed, i)
    requires m1 in nets[n].nodes[i].sent && m2 in nets[n].nodes[i].sent && m1.height == m2.height
    ensures m1.hash == m2.hash
  {
    RunKeeps(nets, actions, n);
    var p, w := ParamsOf(nets[n], i), WorldOf(nets[n], i);
    assert SentOk(p, w) && OneHash(p.honest, w.att);
  }

  /** No honest node's detector ever reports a sound honest node. */
  lemma HonestNeverAccused(nets: seq<Net>, actions: seq<Action>, n: nat, i: Id)
    requires IsRun(nets, actions) && n < |nets| && i in nets[n].nodes
    ensures nets[n].nodes[i].accused !! SoundIn(nets[0])
  {
    RunKeeps(nets, actions, n);
    assert Durable(ParamsOf(nets[n], i), WorldOf(nets[n], i));
  }

  /**
   * The maps in memory are the ledger and the file at every point of every run, commits are among
   * the prepares, and the votes of unpruned heights are all there where one vote per height can be kept.
   */
  lemma LedgerCoupling(nets: seq<Net>, actions: seq<Action>, n: nat, i: Id)
    requires IsRun(nets, actions) && n < |nets| && i in nets[n].nodes
    ensures var node := nets[n].nodes[i];
      && node.c.preparedAt == node.c.ledger.prepared == node.disk.prepared
      && node.c.committedAt == node.c.ledger.committed == node.disk.committed
      && (forall h :: h in node.disk.committed ==> h in node.disk.prepared && node.disk.prepared[h] == node.disk.committed[h])
      && (SoundNode(nets[0].tables, nets[0].relaxed, i) ==> forall m :: m in node.sent && m.height > node.fin ==>
            m.height in node.disk.prepared && node.disk.prepared[m.height] == m.hash)
  {
    RunKeeps(nets, actions, n);
    var p, w := ParamsOf(nets[n], i), WorldOf(nets[n], i);
    assert Coupled(nets[n].nodes[i].c, w) && LedgerOk(p, w) && Remembered(p, w) && SentOk(p, w);
  }

  /** In no reachable state does the guard against a second, different commit refuse anything. */
  lemma CommitNeverRefused(nets: seq<Net>, actions: seq<Action>, n: nat, i: Id, msg: Msg)
    requires IsRun(nets, actions) && n < |nets| && i in nets[n].nodes
    requires var c := nets[n].nodes[i].c;
      && c.active.Some? && msg.height == c.active.value.state.height
      && (msg.sender in SoundIn(nets[n]) ==> Attest(msg.sender, Prepare, msg.height, msg.hash) in nets[n].att)
      && HandlePrepare(c.active.value.cfg, c.active.value.state, msg.sender, msg.hash, msg.root).1 != []
    ensures var c := nets[n].nodes[i].c;
      var m := HandlePrepare(c.active.value.cfg, c.active.value.state, msg.sender, msg.hash, msg.root).1[0];
      Sent(m) in DeliverPrepare(c, msg).fx
  {
    RunKeeps(nets, actions, n);
    hide NodeInv, HandlePrepare, Counted;
    var p, w, c := ParamsOf(nets[n], i), WorldOf(nets[n], i), nets[n].nodes[i].c;
    var a := c.active.value;
    ActiveRoundOk(p, c, w);
    PrepareCounts(p, a.cfg, c, w, a.state, msg);
    PrepareShape(a.cfg, a.state, msg);
    CommitAllowed(p, a.cfg, c, w, a.state, msg);
    var (s, out) := HandlePrepare(a.cfg, a.state, msg.sender, msg.hash, msg.root);
    SetActiveKeeps(p, c, w, a.(state := s));
    SendCommitKeeps(p, c.(active := Some(a.(state := s))), w, out[0]);
  }

  ghost predicate BuffersOk(net: Net) {
    forall i :: i in net.nodes ==> BufferOk(net.nodes[i].c.pending)
  }

  lemma ActionKeepsBuffers(net: Net, a: Action)
    requires BuffersOk(net) && Enabled(net, a)
    ensures BuffersOk(After(net, a))
  {
    hide Step, PerformAll, EventOk, BufferOk;
    Buffering.StepKeepsBuffer(net.nodes[a.id].c, a.ev, a.o);
    assert BufferOk([]) by { Buffering.EmptyBufferOk(); }
  }

  /** In every run no node ever holds more than fifty messages back, nor two of one sender, kind and height. */
  lemma {:induction false} BuffersBounded(nets: seq<Net>, actions: seq<Action>, n: nat)
    requires IsRun(nets, actions) && n < |nets|
    ensures BuffersOk(nets[n])
  {
    hide After, Enabled, BufferOk;
    if n == 0 {
      assert BufferOk([]) by { Buffering.EmptyBufferOk(); }
    } else {
      BuffersBounded(nets, actions, n - 1);
      ActionKeepsBuffers(nets[n - 1], actions[n - 1]);
    }
  }

  // ----- Agreement -----------------------------------------------------------------------------

  /** A committee whose honest members all prepared the hash. */
  ghost predicate HasCertificate(net: Net, height: int, hash: Hash) {
    exists vals, quorum, me ::
      Committee(net.tables, net.relaxed, SoundIn(net), vals, quorum, me) && AllPrepared(SoundIn(net), net.att, height, hash, quorum)
  }

  lemma CommitmentIsCertified(net: Net, i: Id, height: int, hash: Hash)
    requires NetInv(net) && i in SoundIn(net) && CommittedTo(net, i, height, hash)
    ensures HasCertificate(net, height, hash)
  {
    var p, w := ParamsOf(net, i), WorldOf(net, i);
    assert Durable(p, w);
    assert Certified(p, w.att, height, hash);
    hide NetInv, CommittedTo, Durable, Committee;
    var vals, quorum, me :| CertifiedBy(p, w.att, height, hash, vals, quorum, me);
  }

  ghost predicate Meet(honest: set<Id>, q1: set<Id>, q2: set<Id>) {
    exists k :: k in q1 && k in q2 && k in honest
  }

  /** Any two committees, under any tables in use, have an honest validator in common. */
  ghost predicate CommitteesMeet(tables: set<seq<Validator>>, relaxed: bool, honest: set<Id>) {
    forall v1, q1, a, v2, q2, b ::
      Committee(tables, relaxed, honest, v1, q1, a) && Committee(tables, relaxed, honest, v2, q2, b) ==> Meet(honest, q1, q2)
  }

  /**
   * Agreement: when committees meet, honest nodes never commit to or finalize different blocks at a height,
   * over all runs with message loss, reordering, interleaved calls, new stakes, timeouts, restarts and crashes.
   */
  lemma Agreement(nets: seq<Net>, actions: seq<Action>, n: nat, i: Id, j: Id, height: int, x: Hash, y: Hash)
    requires IsRun(nets, actions) && n < |nets|
    requires CommitteesMeet(nets[0].tables, nets[0].relaxed, SoundIn(nets[0]))
    requires i in SoundIn(nets[n]) && j in SoundIn(nets[n])
    requires CommittedTo(nets[n], i, height, x) && CommittedTo(nets[n], j, height, y)
    ensures x == y
  {
    hide NetInv, CommittedTo, CommitteesMeet, Enabled, After, Initial, SoundNode;
    RunKeeps(nets, actions, n);
    AgreementAt(nets[n], i, j, height, x, y);
  }

  lemma AgreementAt(net: Net, i: Id, j: Id, height: int, x: Hash, y: Hash)
    requires NetInv(net) && CommitteesMeet(net.tables, net.relaxed, SoundIn(net))
    requires i in SoundIn(net) && j in SoundIn(net)
    requires CommittedTo(net, i, height, x) && CommittedTo(net, j, height, y)
    ensures x == y
  {
    hide NetInv, CommittedTo, CommitteesMeet, HasCertificate, OneHash, SoundNode;
    CommitmentIsCertified(net, i, height, x);
    CommitmentIsCertified(net, j, height, y);
    NetAttests(net, i);
    CertificatesAgree(net, height, x, y);
  }

  lemma CertificatesAgree(net: Net, height: int, x: Hash, y: Hash)
    requires OneHash(SoundIn(net), net.att) && CommitteesMeet(net.tables, net.relaxed, SoundIn(net))
    requires HasCertificate(net, height, x) && HasCertificate(net, height, y)
    ensures x == y
  {
    hide Committee, SoundIn, AllPrepared, OneHash;
    var v1, q1, a :| Committee(net.tables, net.relaxed, SoundIn(net), v1, q1, a) && AllPrepared(SoundIn(net), net.att, height, x, q1);
    var v2, q2, b :| Committee(net.tables, net.relaxed, SoundIn(net), v2, q2, b) && AllPrepared(SoundIn(net), net.att, height, y, q2);
    assert Meet(SoundIn(net), q1, q2);
    var k :| k in q1 && k in q2 && k in SoundIn(net);
    SharedVoter(SoundIn(net), net.att, height, x, q1, y, q2, k);
  }

  lemma SharedVoter(honest: set<Id>, att: set<Attest>, height: int, x: Hash, q1: set<Id>, y: Hash, q2: set<Id>, k: Id)
    requires OneHash(honest, att) && AllPrepared(honest, att, height, x, q1) && AllPrepared(honest, att, height, y, q2)
    requires k in q1 && k in q2 && k in honest
    ensures x == y
  {
    assert Attest(k, Prepare, height, x) in att && Attest(k, Prepare, height, y) in att;
  }

  lemma NetAttests(net: Net, i: Id)
    requires NetInv(net) && i in net.nodes
    ensures OneHash(SoundIn(net), net.att)
  {
    assert Durable(ParamsOf(net, i), WorldOf(net, i));
  }

  /** With one table, it is enough that faulty stake stays below the overlap of two quorums. */
  lemma BudgetIsEnough(vals: seq<Validator>, relaxed: bool, honest: set<Id>)
    requires ToleratesFaults(vals, relaxed, honest)
    ensures CommitteesMeet({vals}, relaxed, honest)
  {
    forall v1, q1, a, v2, q2, b |
      Committee({vals}, relaxed, honest, v1, q1, a) && Committee({vals}, relaxed, honest, v2, q2, b)
      ensures Meet(honest, q1, q2)
    {
      var k := QuorumsShareHonest(vals, relaxed, honest, q1, q2);
    }
  }

  /** With several, it is enough that for any two faulty and moved stake together stay below that overlap. */
  lemma MoveBudgetIsEnough(tables: set<seq<Validator>>, relaxed: bool, honest: set<Id>)
    requires forall v1, v2 :: v1 in tables && v2 in tables ==>
      ToleratesMove(v1, v2, relaxed, honest) || ToleratesMove(v2, v1, relaxed, honest)
    ensures CommitteesMeet(tables, relaxed, honest)
  {
    hide ToleratesMove, IsQuorum;
    forall v1, q1, a, v2, q2, b |
      Committee(tables, relaxed, honest, v1, q1, a) && Committee(tables, relaxed, honest, v2, q2, b)
      ensures Meet(honest, q1, q2)
    {
      assert q1 <= Ids(v1) && q2 <= Ids(v2);
      if ToleratesMove(v1, v2, relaxed, honest) {
        var k := QuorumsShareHonestAcross(v1, v2, relaxed, honest, q1, q2);
      } else {
        var k := QuorumsShareHonestAcross(v2, v1, relaxed, honest, q2, q1);
      }
    }
  }

  lemma AllSound(net: Net, vals: seq<Validator>)
    requires net.tables == {vals} && !(net.relaxed && TotalStake(vals) == 1)
    ensures SoundIn(net) == net.nodes.Keys
  {
  }

  /** Strict mode in the documented terms: faulty stake below a third of the total. */
  lemma StrictAgreement(nets: seq<Net>, actions: seq<Action>, n: nat, vals: seq<Validator>, i: Id, j: Id, height: int, x: Hash, y: Hash)
    requires IsRun(nets, actions) && n < |nets| && nets[0].tables == {vals} && !nets[0].relaxed
    requires 3 * FaultyStake(vals, nets[0].nodes.Keys) < TotalStake(vals)
    requires i in nets[n].nodes && j in nets[n].nodes
    requires CommittedTo(nets[n], i, height, x) && CommittedTo(nets[n], j, height, y)
    ensures x == y
  {
    hide NetInv, CommittedTo, CommitteesMeet, IsRun, FaultyStake, ToleratesFaults;
    RunKeeps(nets, actions, n);
    AllSound(nets[0], vals);
    AllSound(nets[n], vals);
    FaultBudget(vals, nets[0].nodes.Keys);
    BudgetIsEnough(vals, false, nets[0].nodes.Keys);
    Agreement(nets, actions, n, i, j, height, x, y);
  }

  /** Relaxed mode keeps agreement among non-faulty nodes when the total stake is 3 or at least 5. */
  lemma RelaxedAgreement(nets: seq<Net>, actions: seq<Action>, n: nat, vals: seq<Validator>, i: Id, j: Id, height: int, x: Hash, y: Hash)
    requires IsRun(nets, actions) && n < |nets| && nets[0].tables == {vals} && nets[0].relaxed
    requires FaultyStake(vals, nets[0].nodes.Keys) == 0 && TotalStake(vals) !in {1, 2, 4}
    requires i in nets[n].nodes && j in nets[n].nodes
    requires CommittedTo(nets[n], i, height, x) && CommittedTo(nets[n], j, height, y)
    ensures x == y
  {
    hide NetInv, CommittedTo, CommitteesMeet, IsRun, FaultyStake, ToleratesFaults;
    RunKeeps(nets, actions, n);
    AllSound(nets[0], vals);
    AllSound(nets[n], vals);
    FaultBudget(vals, nets[0].nodes.Keys);
    BudgetIsEnough(vals, true, nets[0].nodes.Keys);
    Agreement(nets, actions, n, i, j, height, x, y);
  }
}
