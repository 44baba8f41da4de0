/**
 * Runs of the chain engine in which applies, adoptions and the emptying of the chain interleave at every wait:
 * what every such run keeps, and exactly when the chain stays numbered from one.
 */
module ChainRuns {
  import opened BftTypes
  import opened ChainIndex

  function After(e: Engine, depth: int, segs: seq<Segment>): Engine {
    if segs == [] then e else Segmented(After(e, depth, segs[..|segs| - 1]), depth, segs[|segs| - 1])
  }

  /** The engine after the first n stretches of a run from the empty chain. */
  function At(depth: int, segs: seq<Segment>, n: nat): Engine
    requires n <= |segs|
  {
    After(Engine([], None), depth, segs[..n])
  }

  lemma AtNext(depth: int, segs: seq<Segment>, n: nat)
    requires n < |segs|
    ensures At(depth, segs, n + 1) == Segmented(At(depth, segs, n), depth, segs[n])
  {
    assert segs[..n + 1][..n] == segs[..n];
  }

  lemma {:induction false} AfterAdd(e: Engine, depth: int, a: seq<Segment>, b: seq<Segment>)
    ensures After(e, depth, a + b) == After(After(e, depth, a), depth, b)
  {
    if b == [] {
      assert a + b == a;
    } else {
      var n := |a + b| - 1;
      assert (a + b)[..n] == a + b[..|b| - 1] && (a + b)[n] == b[|b| - 1];
      AfterAdd(e, depth, a, b[..|b| - 1]);
    }
  }

  /** After every run, however its calls interleave, the chain is linked and its flags are exact. */
  lemma {:induction false} InterleavedRunKeepsInv(depth: int, segs: seq<Segment>, n: nat)
    requires n <= |segs|
    ensures EngineInv(At(depth, segs, n), depth)
  {
    if n > 0 {
      hide EngineInv, Segmented;
      InterleavedRunKeepsInv(depth, segs, n - 1);
      AtNext(depth, segs, n - 1);
      SegmentKeeps(At(depth, segs, n - 1), depth, segs[n - 1]);
    } else {
      assert EngineInv(Engine([], None), depth);
    }
  }

  // ----- Whole calls -----------------------------------------------------------------------------

  function RebuildSegments(blocks: seq<ChainBlock>, depth: int, incoming: seq<Incoming>): seq<Segment>
    decreases |incoming|
  {
    if incoming == [] then []
    else
      var (next, o) := Applied(blocks, depth, incoming[0].block, false, incoming[0].accepted);
      [Check(incoming[0].block, false, incoming[0].accepted), Finish]
      + if o != Done then [] else RebuildSegments(next, depth, incoming[1..])
  }

  /** The stretches of a call that nothing comes between. */
  function SegmentsOf(blocks: seq<ChainBlock>, depth: int, op: Op): seq<Segment> {
    match op
    case ApplyBlock(b, local, accepted) => [Check(b, local, accepted), Finish]
    case Restart(saved) => [Wipe] + RebuildSegments([], depth, saved)
    case Adopt(snapshot) =>
      if AdoptedSnapshot(blocks, depth, snapshot).1 == Kept then [] else [Wipe] + RebuildSegments([], depth, snapshot)
  }

  lemma ApplyIsSegments(blocks: seq<ChainBlock>, depth: int, b: ChainBlock, local: bool, accepted: bool)
    ensures After(Engine(blocks, None), depth, [Check(b, local, accepted), Finish]) ==
      Engine(Applied(blocks, depth, b, local, accepted).0, None)
  {
    hide HasHash, LinksTo, MarkFinal, Promote;
    var segs := [Check(b, local, accepted), Finish];
    assert segs[..1] == [Check(b, local, accepted)] && segs[..1][..0] == [];
    assert After(Engine(blocks, None), depth, segs[..1]) == Segmented(Engine(blocks, None), depth, segs[0]);
  }

  lemma {:induction false} RebuildIsSegments(blocks: seq<ChainBlock>, depth: int, incoming: seq<Incoming>)
    ensures After(Engine(blocks, None), depth, RebuildSegments(blocks, depth, incoming)) ==
      Engine(AppliedAll(blocks, depth, incoming).0, None)
    decreases |incoming|
  {
    hide Applied, Segmented;
    if incoming != [] {
      var b, accepted := incoming[0].block, incoming[0].accepted;
      var (next, o) := Applied(blocks, depth, b, false, accepted);
      ApplyIsSegments(blocks, depth, b, false, accepted);
      var rest := if o != Done then [] else RebuildSegments(next, depth, incoming[1..]);
      AfterAdd(Engine(blocks, None), depth, [Check(b, false, accepted), Finish], rest);
      if o == Done {
        RebuildIsSegments(next, depth, incoming[1..]);
      }
    }
  }

  /** A call without interruption is one of the runs: its stretches one after the other. */
  lemma CallIsSegments(blocks: seq<ChainBlock>, depth: int, op: Op)
    ensures After(Engine(blocks, None), depth, SegmentsOf(blocks, depth, op)) == Engine(Step(blocks, depth, op), None)
  {
    hide Applied, AppliedAll, RebuildSegments, Verifies, Height;
    assert [Wipe][..0] == [];
    assert After(Engine(blocks, None), depth, [Wipe]) == Engine([], None);
    match op
    case ApplyBlock(b, local, accepted) => ApplyIsSegments(blocks, depth, b, local, accepted);
    case Restart(saved) =>
      AfterAdd(Engine(blocks, None), depth, [Wipe], RebuildSegments([], depth, saved));
      RebuildIsSegments([], depth, saved);
    case Adopt(snapshot) =>
      AfterAdd(Engine(blocks, None), depth, [Wipe], RebuildSegments([], depth, snapshot));
      RebuildIsSegments([], depth, snapshot);
  }

  // ----- When the chain starts at block one ---------------------------------------------------------

  /** An apply of a block above one is in flight and the chain under it is gone. */
  predicate Displaced(e: Engine) {
    e.flight.Some? && e.flight.value.block.number > 1 && e.blocks == []
  }

  /** No apply ends from the i-th stretch up to the j-th. */
  predicate NoneEnds(segs: seq<Segment>, i: nat, j: nat)
    requires j <= |segs|
  {
    forall k :: i <= k < j ==> !segs[k].Finish? && !segs[k].Drop?
  }

  /** The chain is emptied while an apply of a block above one is in flight. */
  ghost predicate EmptiedUnder(depth: int, segs: seq<Segment>, i: nat)
    requires i < |segs|
  {
    segs[i].Wipe? && At(depth, segs, i).flight.Some? && At(depth, segs, i).flight.value.block.number > 1
  }

  /** The chain is emptied under an apply that goes on to push. */
  ghost predicate Overtaken(depth: int, segs: seq<Segment>) {
    exists i, j :: 0 <= i < j < |segs| && EmptiedUnder(depth, segs, i) && NoneEnds(segs, i + 1, j) && segs[j].Finish?
  }

  /** How a stretch can leave the chain starting elsewhere. */
  lemma OnlyDisplacedBreaks(e: Engine, depth: int, s: Segment)
    requires EngineInv(e, depth) && FromOne(e.blocks)
    ensures !FromOne(Segmented(e, depth, s).blocks) <==> s.Finish? && Displaced(e)
  {
    match s
    case Check(b, local, ok) =>
    case Finish =>
      if e.flight.Some? && !Displaced(e) {
        FromOneAppend(e.blocks, depth, Stored(e.flight.value.block, e.flight.value.local));
      }
    case Drop =>
    case Wipe =>
  }

  /** How an apply comes to be displaced, and what it takes to stay so. */
  lemma DisplacedNext(e: Engine, depth: int, s: Segment)
    ensures Displaced(Segmented(e, depth, s)) <==>
      || (s.Wipe? && e.flight.Some? && e.flight.value.block.number > 1)
      || (Displaced(e) && !s.Finish? && !s.Drop?)
  {
    hide MarkFinal;
  }

  lemma {:induction false} DisplacedSince(depth: int, segs: seq<Segment>, n: nat)
    requires n <= |segs| && Displaced(At(depth, segs, n))
    ensures exists i :: 0 <= i < n && EmptiedUnder(depth, segs, i) && NoneEnds(segs, i + 1, n)
  {
    if n > 0 {
      AtNext(depth, segs, n - 1);
      DisplacedNext(At(depth, segs, n - 1), depth, segs[n - 1]);
      hide Displaced, EmptiedUnder;
      if EmptiedUnder(depth, segs, n - 1) {
        assert NoneEnds(segs, n, n);
      } else {
        EmptiedUnderSaid(depth, segs, n - 1);
        DisplacedSince(depth, segs, n - 1);
        var i :| 0 <= i < n - 1 && EmptiedUnder(depth, segs, i) && NoneEnds(segs, i + 1, n - 1);
        assert NoneEnds(segs, i + 1, n);
      }
    }
  }

  lemma EmptiedUnderSaid(depth: int, segs: seq<Segment>, n: nat)
    requires n < |segs|
    ensures EmptiedUnder(depth, segs, n) <==>
      var e := At(depth, segs, n); segs[n].Wipe? && e.flight.Some? && e.flight.value.block.number > 1
  {
  }

  lemma {:induction false} StaysDisplaced(depth: int, segs: seq<Segment>, i: nat, j: nat)
    requires i < j <= |segs| && EmptiedUnder(depth, segs, i) && NoneEnds(segs, i + 1, j)
    ensures Displaced(At(depth, segs, j))
    decreases j
  {
    AtNext(depth, segs, j - 1);
    DisplacedNext(At(depth, segs, j - 1), depth, segs[j - 1]);
    if i < j - 1 {
      StaysDisplaced(depth, segs, i, j - 1);
    }
  }

  lemma {:induction false} BreaksSomewhere(depth: int, segs: seq<Segment>, n: nat)
    requires n <= |segs| && !FromOne(At(depth, segs, n).blocks)
    ensures Overtaken(depth, segs)
  {
    if n > 0 {
      hide FromOne, Displaced, EmptiedUnder;
      if !FromOne(At(depth, segs, n - 1).blocks) {
        BreaksSomewhere(depth, segs, n - 1);
      } else {
        InterleavedRunKeepsInv(depth, segs, n - 1);
        AtNext(depth, segs, n - 1);
        OnlyDisplacedBreaks(At(depth, segs, n - 1), depth, segs[n - 1]);
        DisplacedSince(depth, segs, n - 1);
      }
    }
  }

  /**
   * The chain starts at block one all through a run exactly when it is never emptied under an apply of a
   * later block that goes on to push.
   */
  lemma FromOneIff(depth: int, segs: seq<Segment>)
    ensures (forall n :: 0 <= n <= |segs| ==> FromOne(At(depth, segs, n).blocks)) <==> !Overtaken(depth, segs)
  {
    hide FromOne, EmptiedUnder, NoneEnds;
    if n :| 0 <= n <= |segs| && !FromOne(At(depth, segs, n).blocks) {
      BreaksSomewhere(depth, segs, n);
    }
    if Overtaken(depth, segs) {
      var i, j :| 0 <= i < j < |segs| && EmptiedUnder(depth, segs, i) && NoneEnds(segs, i + 1, j) && segs[j].Finish?;
      PushedElsewhere(depth, segs, i, j);
    }
  }

  lemma PushedElsewhere(depth: int, segs: seq<Segment>, i: nat, j: nat)
    requires i < j < |segs| && EmptiedUnder(depth, segs, i) && NoneEnds(segs, i + 1, j) && segs[j].Finish?
    ensures !FromOne(At(depth, segs, j + 1).blocks)
  {
    StaysDisplaced(depth, segs, i, j);
    InterleavedRunKeepsInv(depth, segs, j);
    AtNext(depth, segs, j);
    assert FromOne(At(depth, segs, j).blocks);
    OnlyDisplacedBreaks(At(depth, segs, j), depth, segs[j]);
  }

  // ----- A rebuild that overtakes an apply -----------------------------------------------------------

  /** The rebuild empties the chain, the apply in flight pushes, and the blocks of the snapshot queue behind it. */
  function OvertakingRebuild(e: Engine, depth: int, incoming: seq<Incoming>): (seq<ChainBlock>, Outcome) {
    AppliedAll(Segmented(Segmented(e, depth, Wipe), depth, Finish).blocks, depth, incoming)
  }

  /**
   * Whatever the chain was, a snapshot from block one that overtakes an apply of a later block leaves that
   * block alone on the chain and is refused at its first block, unless that is the very same block.
   */
  lemma RebuildOvertakesApply(e: Engine, depth: int, incoming: seq<Incoming>)
    requires EngineInv(e, depth) && e.flight.Some? && e.flight.value.block.number > 1
    requires incoming != [] && incoming[0].block.number == 1 && incoming[0].block.hash != e.flight.value.block.hash
    ensures OvertakingRebuild(e, depth, incoming) == ([Stored(e.flight.value.block, e.flight.value.local)], InvalidLink)
    ensures !FromOne(OvertakingRebuild(e, depth, incoming).0)
  {
    var b := Stored(e.flight.value.block, e.flight.value.local);
    assert [] + [b] == [b];
    assert MarkFinal([b], depth) == [b];
    var first := incoming[0];
    assert !HasHash([b], first.block.hash) && !LinksTo([b], first.block);
  }

  /** Such a run exists above every chain: every block of it applied, the next one in flight. */
  lemma OvertakingIsReachable(e: Engine, depth: int, b: ChainBlock)
    requires EngineInv(e, depth) && e.flight.None? && LinksTo(e.blocks, b) && !HasHash(e.blocks, b.hash) && e.blocks != []
    ensures var next := After(e, depth, [Check(b, false, true), Wipe, Finish]);
      next.blocks == [Stored(b, false)] && !FromOne(next.blocks) && EngineInv(next, depth)
  {
    var segs := [Check(b, false, true), Wipe, Finish];
    assert segs[..2] == [Check(b, false, true), Wipe] && segs[..2][..1] == [Check(b, false, true)];
    assert segs[..2][..1][..0] == [];
    var e1 := Segmented(e, depth, segs[0]);
    assert After(e, depth, segs[..2][..1]) == e1;
    var e2 := Segmented(e1, depth, Wipe);
    assert After(e, depth, segs[..2]) == e2;
    SegmentKeeps(e, depth, segs[0]);
    SegmentKeeps(e1, depth, Wipe);
    SegmentKeeps(e2, depth, Finish);
    var s := Stored(b, false);
    assert [] + [s] == [s];
    assert MarkFinal([s], depth) == [s];
  }
}
