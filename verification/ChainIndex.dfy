/**
 * The in-memory chain: the block array, its two lookup maps and the receipts, with the finality
 * flag that follows the tip at a fixed depth.
 *
 * Everything that decides whether a block is otherwise acceptable (proposer, hash, signatures,
 * execution) is a given truth value; the index updates, the link check and the flags are the model.
 *
 * An apply checks its block, waits for the execution and then pushes. Applies wait for each other, but a
 * rebuild empties the chain without waiting, so it can come between the two halves.
 */
module ChainIndex {
  import opened BftTypes

  datatype ChainBlock = ChainBlock(number: int, hash: Hash, parentHash: Hash, finalized: bool, bftFinalized: bool)

  datatype Outcome = Done | InvalidLink | Rejected

  const ZERO_HASH: Hash := "0x0000000000000000000000000000000000000000000000000000000000000000"

  // ----- The chain as a sequence -------------------------------------------------------------

  function Height(blocks: seq<ChainBlock>): int {
    if blocks == [] then 0 else blocks[|blocks| - 1].number
  }

  function Depth(finalityDepth: int): (d: int)
    ensures d >= 1 && d >= finalityDepth
  {
    if finalityDepth > 1 then finalityDepth else 1
  }

  function HighestFinalized(blocks: seq<ChainBlock>, finalityDepth: int): int {
    var finalized := Height(blocks) - Depth(finalityDepth);
    if finalized < 0 then 0 else finalized
  }

  predicate LinksTo(blocks: seq<ChainBlock>, b: ChainBlock) {
    if blocks == [] then b.number == 1 && b.parentHash == ZERO_HASH
    else b.number == blocks[|blocks| - 1].number + 1 && b.parentHash == blocks[|blocks| - 1].hash
  }

  predicate HasHash(blocks: seq<ChainBlock>, hash: Hash) {
    exists i :: 0 <= i < |blocks| && blocks[i].hash == hash
  }

  /** The chain with the block of that number flagged final. */
  function Finalize(blocks: seq<ChainBlock>, number: int): seq<ChainBlock> {
    seq(|blocks|, i requires 0 <= i < |blocks| =>
      if blocks[i].number == number then blocks[i].(finalized := true) else blocks[i])
  }

  /** The chain with the block of that hash flagged as finalized by vote. */
  function Promote(blocks: seq<ChainBlock>, hash: Hash): seq<ChainBlock> {
    seq(|blocks|, i requires 0 <= i < |blocks| =>
      if blocks[i].hash == hash then blocks[i].(bftFinalized := true) else blocks[i])
  }

  function Stored(b: ChainBlock, local: bool): ChainBlock {
    b.(finalized := false, bftFinalized := local && b.bftFinalized)
  }

  function MarkFinal(blocks: seq<ChainBlock>, finalityDepth: int): seq<ChainBlock> {
    var number := Height(blocks) - Depth(finalityDepth);
    if number < 1 then blocks else Finalize(blocks, number)
  }

  function Applied(blocks: seq<ChainBlock>, depth: int, b: ChainBlock, local: bool, accepted: bool)
    : (seq<ChainBlock>, Outcome)
  {
    if HasHash(blocks, b.hash) then
      (if local && b.bftFinalized then Promote(blocks, b.hash) else blocks, Done)
    else if !LinksTo(blocks, b) then (blocks, InvalidLink)
    else if !accepted then (blocks, Rejected)
    else (MarkFinal(blocks + [Stored(b, local)], depth), Done)
  }

  /** A block offered by a snapshot: whether its own contents verify and whether applying accepts it. */
  datatype Incoming = Incoming(block: ChainBlock, sound: bool, accepted: bool)

  /** Applying in order from a given chain, up to the first failure. */
  function AppliedAll(blocks: seq<ChainBlock>, depth: int, incoming: seq<Incoming>): (seq<ChainBlock>, Outcome)
    decreases |incoming|
  {
    if incoming == [] then (blocks, Done)
    else
      var (next, o) := Applied(blocks, depth, incoming[0].block, false, incoming[0].accepted);
      if o != Done then (next, o) else AppliedAll(next, depth, incoming[1..])
  }

  /** What the pre-check of a snapshot demands. */
  predicate Verifies(incoming: seq<Incoming>) {
    && (forall i :: 0 <= i < |incoming| ==> incoming[i].sound)
    && (|incoming| > 0 && incoming[0].block.number == 1 ==> incoming[0].block.parentHash == ZERO_HASH)
    && (forall i :: 0 < i < |incoming| ==> Follows(incoming[i - 1].block, incoming[i].block))
  }

  predicate Follows(a: ChainBlock, b: ChainBlock) {
    b.parentHash == a.hash && b.number == a.number + 1
  }

  datatype Adoption = Kept | Adopted | Broken(o: Outcome)

  function AdoptedSnapshot(blocks: seq<ChainBlock>, depth: int, incoming: seq<Incoming>): (seq<ChainBlock>, Adoption) {
    if incoming == [] || incoming[|incoming| - 1].block.number <= Height(blocks) || !Verifies(incoming) then (blocks, Kept)
    else
      var (next, o) := AppliedAll([], depth, incoming);
      (next, if o == Done then Adopted else Broken(o))
  }

  // ----- What every operation keeps ------------------------------------------------------------

  /** The number of the first block, or of the one an empty chain takes. */
  function First(blocks: seq<ChainBlock>): int {
    if blocks == [] then 1 else blocks[0].number
  }

  /** Blocks are numbered without gaps, each names its parent, and no hash occurs twice. */
  predicate Linked(blocks: seq<ChainBlock>) {
    && First(blocks) >= 1
    && (forall i :: 0 <= i < |blocks| ==> blocks[i].number == First(blocks) + i)
    && (forall i :: 0 < i < |blocks| ==> blocks[i].parentHash == blocks[i - 1].hash)
    && (forall i, j :: 0 <= i < j < |blocks| ==> blocks[i].hash != blocks[j].hash)
  }

  /** The chain starts at block one. */
  predicate FromOne(blocks: seq<ChainBlock>) {
    blocks != [] ==> blocks[0].number == 1 && blocks[0].parentHash == ZERO_HASH
  }

  /** A block that the chain can take at its end; an emptied chain takes any. */
  predicate Joins(blocks: seq<ChainBlock>, b: ChainBlock) {
    !HasHash(blocks, b.hash) && b.number >= 1 && (blocks != [] ==> LinksTo(blocks, b))
  }

  /** A block is flagged final exactly when its number is at most the highest final one. */
  predicate FlagsExact(blocks: seq<ChainBlock>, depth: int) {
    forall i :: 0 <= i < |blocks| ==> (blocks[i].finalized <==> blocks[i].number <= HighestFinalized(blocks, depth))
  }

  predicate ChainInv(blocks: seq<ChainBlock>, depth: int) {
    Linked(blocks) && FlagsExact(blocks, depth)
  }

  /** Two chains of the same blocks, flags aside. */
  predicate SameBlocks(a: seq<ChainBlock>, b: seq<ChainBlock>) {
    && |a| == |b|
    && forall i :: 0 <= i < |a| ==> a[i].number == b[i].number && a[i].hash == b[i].hash && a[i].parentHash == b[i].parentHash
  }

  lemma SameBlocksLinked(a: seq<ChainBlock>, b: seq<ChainBlock>)
    requires SameBlocks(a, b) && Linked(a)
    ensures Linked(b) && Height(a) == Height(b) && First(a) == First(b) && (FromOne(a) ==> FromOne(b))
  {
  }

  lemma LinkedAppend(blocks: seq<ChainBlock>, b: ChainBlock)
    requires Linked(blocks) && Joins(blocks, b)
    ensures Linked(blocks + [b]) && Height(blocks + [b]) == b.number
    ensures blocks != [] ==> First(blocks + [b]) == First(blocks) && b.number == First(blocks) + |blocks| == Height(blocks) + 1
  {
    var longer := blocks + [b];
    assert forall i :: 0 <= i < |blocks| ==> longer[i] == blocks[i] && longer[i].hash != b.hash;
    assert longer[|blocks|] == b;
  }

  lemma FlagsAppend(blocks: seq<ChainBlock>, depth: int, b: ChainBlock)
    requires ChainInv(blocks, depth) && Joins(blocks, b) && !b.finalized
    ensures FlagsExact(MarkFinal(blocks + [b], depth), depth)
  {
    LinkedAppend(blocks, b);
    var longer := blocks + [b];
    var next := MarkFinal(longer, depth);
    assert Height(next) == Height(longer) == b.number;
    assert forall i :: 0 <= i < |blocks| ==> longer[i] == blocks[i];
    hide Joins, HasHash;
    forall i | 0 <= i < |next| ensures next[i].finalized <==> next[i].number <= HighestFinalized(next, depth) {
      assert next[i].number == longer[i].number == First(longer) + i;
      if i < |blocks| {
        assert blocks[i].finalized <==> blocks[i].number <= HighestFinalized(blocks, depth);
      }
    }
  }

  lemma AppendKeepsInv(blocks: seq<ChainBlock>, depth: int, b: ChainBlock)
    requires ChainInv(blocks, depth) && Joins(blocks, b) && !b.finalized
    ensures ChainInv(MarkFinal(blocks + [b], depth), depth)
    ensures Height(MarkFinal(blocks + [b], depth)) == b.number
    ensures SameBlocks(blocks + [b], MarkFinal(blocks + [b], depth))
  {
    hide Linked, FlagsExact;
    LinkedAppend(blocks, b);
    FlagsAppend(blocks, depth, b);
    SameBlocksLinked(blocks + [b], MarkFinal(blocks + [b], depth));
  }

  lemma PromoteKeepsInv(blocks: seq<ChainBlock>, depth: int, hash: Hash)
    requires ChainInv(blocks, depth)
    ensures ChainInv(Promote(blocks, hash), depth) && Height(Promote(blocks, hash)) == Height(blocks)
    ensures SameBlocks(blocks, Promote(blocks, hash))
  {
    hide Linked;
    var next := Promote(blocks, hash);
    SameBlocksLinked(blocks, next);
    assert forall i :: 0 <= i < |next| ==> next[i].finalized == blocks[i].finalized && next[i].number == blocks[i].number;
  }

  /** A block that passed the link check can be taken, now or after the chain was emptied. */
  lemma LinkedJoins(blocks: seq<ChainBlock>, b: ChainBlock, local: bool)
    requires Linked(blocks) && LinksTo(blocks, b) && !HasHash(blocks, b.hash)
    ensures Joins(blocks, Stored(b, local)) && b.number == Height(blocks) + 1
    ensures b.number == 1 ==> b.parentHash == ZERO_HASH
  {
  }

  lemma FromOneAppend(blocks: seq<ChainBlock>, depth: int, b: ChainBlock)
    requires FromOne(blocks) && (blocks == [] ==> b.number == 1 && b.parentHash == ZERO_HASH)
    ensures FromOne(MarkFinal(blocks + [b], depth))
  {
  }

  /**
   * One apply keeps the chain linked, numbered from one and its flags exact, adds at most one block and
   * nothing on failure.
   */
  lemma AppliedKeepsInv(blocks: seq<ChainBlock>, depth: int, b: ChainBlock, local: bool, accepted: bool)
    requires ChainInv(blocks, depth)
    ensures ChainInv(Applied(blocks, depth, b, local, accepted).0, depth)
    ensures FromOne(blocks) ==> FromOne(Applied(blocks, depth, b, local, accepted).0)
    ensures var (next, o) := Applied(blocks, depth, b, local, accepted);
      Height(blocks) <= Height(next) <= Height(blocks) + 1 && (o != Done ==> next == blocks)
  {
    assert Linked(blocks);
    hide Linked, FlagsExact, MarkFinal, Promote, HasHash, Height, Joins;
    if HasHash(blocks, b.hash) {
      PromoteKeepsInv(blocks, depth, b.hash);
      SameBlocksLinked(blocks, Promote(blocks, b.hash));
    } else if LinksTo(blocks, b) && accepted {
      LinkedJoins(blocks, b, local);
      AppendKeepsInv(blocks, depth, Stored(b, local));
      if FromOne(blocks) {
        FromOneAppend(blocks, depth, Stored(b, local));
      }
    }
  }

  lemma {:induction false} AppliedAllKeepsInv(blocks: seq<ChainBlock>, depth: int, incoming: seq<Incoming>)
    requires ChainInv(blocks, depth)
    ensures ChainInv(AppliedAll(blocks, depth, incoming).0, depth)
    ensures FromOne(blocks) ==> FromOne(AppliedAll(blocks, depth, incoming).0)
    decreases |incoming|
  {
    hide ChainInv, FromOne, Applied;
    if incoming != [] {
      AppliedKeepsInv(blocks, depth, incoming[0].block, false, incoming[0].accepted);
      var next := Applied(blocks, depth, incoming[0].block, false, incoming[0].accepted).0;
      AppliedAllKeepsInv(next, depth, incoming[1..]);
    }
  }

  datatype Op =
    | ApplyBlock(block: ChainBlock, local: bool, accepted: bool)
    | Restart(saved: seq<Incoming>)
    | Adopt(snapshot: seq<Incoming>)

  function Step(blocks: seq<ChainBlock>, depth: int, op: Op): seq<ChainBlock> {
    match op
    case ApplyBlock(b, local, accepted) => Applied(blocks, depth, b, local, accepted).0
    case Restart(saved) => AppliedAll([], depth, saved).0
    case Adopt(snapshot) => AdoptedSnapshot(blocks, depth, snapshot).0
  }

  function Run(depth: int, ops: seq<Op>): seq<ChainBlock> {
    if ops == [] then [] else Step(Run(depth, ops[..|ops| - 1]), depth, ops[|ops| - 1])
  }

  /** After any run of whole calls the chain is linked, numbered from one, and its flags are exact. */
  lemma {:induction false} RunKeepsInv(depth: int, ops: seq<Op>)
    ensures ChainInv(Run(depth, ops), depth) && FromOne(Run(depth, ops))
  {
    if ops != [] {
      var before, op := Run(depth, ops[..|ops| - 1]), ops[|ops| - 1];
      RunKeepsInv(depth, ops[..|ops| - 1]);
      assert ChainInv([], depth);
      match op
      case ApplyBlock(b, local, accepted) => AppliedKeepsInv(before, depth, b, local, accepted);
      case Restart(saved) => AppliedAllKeepsInv([], depth, saved);
      case Adopt(snapshot) => AppliedAllKeepsInv([], depth, snapshot);
    }
  }

  // ----- Which blocks carry the vote flag ----------------------------------------------------------

  /** The local path applies a block of this hash with its vote flag. */
  predicate Marks(op: Op, hash: Hash) {
    op.ApplyBlock? && op.local && op.block.bftFinalized && op.block.hash == hash
  }

  function AppliedOp(blocks: seq<ChainBlock>, depth: int, op: Op): (seq<ChainBlock>, Outcome)
    requires op.ApplyBlock?
  {
    Applied(blocks, depth, op.block, op.local, op.accepted)
  }

  /**
   * One apply: a block carries the vote flag afterwards exactly when it did before, or when the local path applied
   * a block of its hash with the flag, new or known. A block that is new on the chain is the one applied.
   */
  lemma ApplySetsVoteFlag(blocks: seq<ChainBlock>, depth: int, op: Op, i: nat)
    requires op.ApplyBlock? && i < |AppliedOp(blocks, depth, op).0|
    ensures var next := AppliedOp(blocks, depth, op).0;
      && (next[i].bftFinalized <==> (i < |blocks| && blocks[i].bftFinalized) || Marks(op, next[i].hash))
      && |blocks| <= |next| && (if i < |blocks| then next[i].hash == blocks[i].hash else next[i].hash == op.block.hash)
      && (i >= |blocks| ==> !HasHash(blocks, next[i].hash))
  {
    hide LinksTo, Height;
  }

  /** A hash on the chain stays there through applies. */
  lemma {:induction false} HashStays(depth: int, ops: seq<Op>, k: nat, hash: Hash)
    requires forall j :: 0 <= j < |ops| ==> ops[j].ApplyBlock?
    requires k <= |ops| && HasHash(Run(depth, ops[..k]), hash)
    ensures HasHash(Run(depth, ops), hash)
  {
    if k == |ops| {
      assert ops[..k] == ops;
    } else {
      var n := |ops| - 1;
      hide Applied, HasHash;
      assert ops[..n][..k] == ops[..k];
      HashStays(depth, ops[..n], k, hash);
      ApplyKeepsHash(Run(depth, ops[..n]), depth, ops[n], hash);
    }
  }

  lemma ApplyKeepsHash(blocks: seq<ChainBlock>, depth: int, op: Op, hash: Hash)
    requires op.ApplyBlock? && HasHash(blocks, hash)
    ensures HasHash(AppliedOp(blocks, depth, op).0, hash)
  {
    var i :| 0 <= i < |blocks| && blocks[i].hash == hash;
    LongerBy(blocks, depth, op);
    ApplySetsVoteFlag(blocks, depth, op, i);
    hide AppliedOp;
    assert AppliedOp(blocks, depth, op).0[i].hash == hash;
  }

  lemma LongerBy(blocks: seq<ChainBlock>, depth: int, op: Op)
    requires op.ApplyBlock?
    ensures |blocks| <= |AppliedOp(blocks, depth, op).0| <= |blocks| + 1
  {
    hide LinksTo, HasHash, Height;
  }

  /** At this point of the run the local path applied the hash with its flag, and it is on the chain. */
  ghost predicate MarkedAt(depth: int, ops: seq<Op>, k: nat, hash: Hash)
    requires k < |ops|
  {
    Marks(ops[k], hash) && HasHash(Run(depth, ops[..k + 1]), hash)
  }

  /**
   * Over any run of applies a block carries the vote flag exactly when the local path applied it with the flag at
   * some point, first or again, and was not refused.
   */
  lemma {:induction false} VoteFlagIff(depth: int, ops: seq<Op>, i: nat)
    requires forall k :: 0 <= k < |ops| ==> ops[k].ApplyBlock?
    requires i < |Run(depth, ops)|
    ensures Run(depth, ops)[i].bftFinalized <==> exists k :: 0 <= k < |ops| && MarkedAt(depth, ops, k, Run(depth, ops)[i].hash)
  {
    var n := |ops| - 1;
    var front, before, now := ops[..n], Run(depth, ops[..n]), Run(depth, ops);
    var hash := now[i].hash;
    ApplySetsVoteFlag(before, depth, ops[n], i);
    assert ops[..n + 1] == ops && HasHash(now, hash);
    hide Applied, AppliedOp, Marks;
    assert MarkedAt(depth, ops, n, hash) <==> Marks(ops[n], hash);
    forall k | 0 <= k < n ensures MarkedAt(depth, ops, k, hash) <==> MarkedAt(depth, front, k, hash) {
      assert front[..k + 1] == ops[..k + 1];
    }
    if i < |before| {
      VoteFlagIff(depth, front, i);
      if k :| 0 <= k < n && MarkedAt(depth, front, k, hash) {
        assert MarkedAt(depth, ops, k, hash);
      }
    } else {
      forall k | 0 <= k < n ensures !MarkedAt(depth, front, k, hash) {
        if MarkedAt(depth, front, k, hash) {
          HashStays(depth, front, k + 1, hash);
        }
      }
    }
  }

  // ----- Applies in two halves -------------------------------------------------------------------

  /** An apply past its checks, waiting for the execution. */
  datatype Flight = Flight(block: ChainBlock, local: bool)

  datatype Engine = Engine(blocks: seq<ChainBlock>, flight: Option<Flight>)

  datatype Segment =
    | Check(block: ChainBlock, local: bool, ok: bool)
    | Finish
    | Drop
    | Wipe

  /** How the checks of an apply end it, if they do. */
  function Checked(blocks: seq<ChainBlock>, b: ChainBlock, ok: bool): Option<Outcome> {
    if HasHash(blocks, b.hash) then Some(Done)
    else if !LinksTo(blocks, b) then Some(InvalidLink)
    else if !ok then Some(Rejected)
    else None
  }

  /** One stretch between waits. No apply begins while one is in flight, and none ends without one. */
  function Segmented(e: Engine, depth: int, s: Segment): Engine {
    match s
    case Check(b, local, ok) =>
      if e.flight.Some? then e
      else if Checked(e.blocks, b, ok).None? then e.(flight := Some(Flight(b, local)))
      else if HasHash(e.blocks, b.hash) && local && b.bftFinalized then e.(blocks := Promote(e.blocks, b.hash))
      else e
    case Finish =>
      if e.flight.None? then e
      else Engine(MarkFinal(e.blocks + [Stored(e.flight.value.block, e.flight.value.local)], depth), None)
    case Drop => e.(flight := None)
    case Wipe => e.(blocks := [])
  }

  /** What is in flight can still be pushed. */
  predicate FlightOk(e: Engine) {
    e.flight.Some? ==>
      var b := e.flight.value.block;
      Joins(e.blocks, Stored(b, e.flight.value.local)) && (b.number == 1 ==> b.parentHash == ZERO_HASH)
  }

  predicate EngineInv(e: Engine, depth: int) {
    ChainInv(e.blocks, depth) && FlightOk(e)
  }

  /** Every stretch keeps the chain linked and its flags exact, wherever the chain starts. */
  lemma SegmentKeeps(e: Engine, depth: int, s: Segment)
    requires EngineInv(e, depth)
    ensures EngineInv(Segmented(e, depth, s), depth)
  {
    assert Linked(e.blocks);
    hide Linked, FlagsExact, MarkFinal, Promote, HasHash, LinksTo, Joins;
    match s
    case Check(b, local, ok) =>
      if e.flight.None? {
        if Checked(e.blocks, b, ok).None? {
          LinkedJoins(e.blocks, b, local);
        } else {
          PromoteKeepsInv(e.blocks, depth, b.hash);
        }
      }
    case Finish =>
      if e.flight.Some? {
        AppendKeepsInv(e.blocks, depth, Stored(e.flight.value.block, e.flight.value.local));
      }
    case Drop =>
    case Wipe => WipedOk(e, depth);
  }

  lemma WipedOk(e: Engine, depth: int)
    requires FlightOk(e)
    ensures EngineInv(e.(blocks := []), depth)
  {
  }

  /** A block is final exactly when at least the finality depth of blocks, and at least one, are above it. */
  lemma FinalIffDeep(blocks: seq<ChainBlock>, depth: int, i: nat)
    requires ChainInv(blocks, depth) && i < |blocks|
    ensures blocks[i].finalized <==> |blocks| - 1 - i >= depth && |blocks| - 1 - i >= 1
  {
    assert blocks[i].number == First(blocks) + i && Height(blocks) == First(blocks) + |blocks| - 1;
  }

  /** A block once final stays final and keeps its number and hash through later applies. */
  lemma FinalStaysFinal(blocks: seq<ChainBlock>, depth: int, b: ChainBlock, local: bool, accepted: bool, i: nat)
    requires ChainInv(blocks, depth) && i < |blocks| && blocks[i].finalized
    ensures var next := Applied(blocks, depth, b, local, accepted).0;
      i < |next| && next[i].finalized && next[i].number == blocks[i].number && next[i].hash == blocks[i].hash
  {
  }

  // ----- Restarts and snapshots -------------------------------------------------------------------

  /** Rebuilding forgets which blocks were finalized by vote, also the ones saved with that flag. */
  lemma {:induction false} RebuildForgetsVotes(blocks: seq<ChainBlock>, depth: int, incoming: seq<Incoming>)
    requires forall i :: 0 <= i < |blocks| ==> !blocks[i].bftFinalized
    ensures forall b :: b in AppliedAll(blocks, depth, incoming).0 ==> !b.bftFinalized
    decreases |incoming|
  {
    if incoming != [] {
      var next := Applied(blocks, depth, incoming[0].block, false, incoming[0].accepted).0;
      assert forall i :: 0 <= i < |next| ==> !next[i].bftFinalized;
      RebuildForgetsVotes(next, depth, incoming[1..]);
    }
  }

  function SavedBlocks(incoming: seq<Incoming>): seq<ChainBlock> {
    seq(|incoming|, i requires 0 <= i < |incoming| => incoming[i].block)
  }

  predicate AllAccepted(incoming: seq<Incoming>) {
    forall i :: 0 <= i < |incoming| ==> incoming[i].accepted
  }

  /** The next block of a linked chain extends a copy of the blocks before it. */
  lemma CopyStep(blocks: seq<ChainBlock>, depth: int, done: seq<ChainBlock>)
    requires Linked(blocks) && FromOne(blocks) && |done| < |blocks|
    requires ChainInv(done, depth) && SameBlocks(done, blocks[..|done|])
    ensures var (next, o) := Applied(done, depth, blocks[|done|], false, true);
      o == Done && ChainInv(next, depth) && |next| == |done| + 1 && SameBlocks(next, blocks[..|next|])
  {
    var n, b := |done|, blocks[|done|];
    var prefix := blocks[..n];
    assert forall i :: 0 <= i < n ==> prefix[i] == blocks[i];
    assert forall i :: 0 <= i < n ==> done[i].hash == blocks[i].hash;
    assert !HasHash(done, b.hash);
    assert LinksTo(done, b);
    LinkedJoins(done, b, false);
    hide ChainInv, Linked, Joins;
    AppendKeepsInv(done, depth, Stored(b, false));
    var longer, next := done + [Stored(b, false)], MarkFinal(done + [Stored(b, false)], depth);
    assert SameBlocks(longer, blocks[..n + 1]);
    assert SameBlocks(next, blocks[..n + 1]);
  }

  /** Rebuilding from a linked chain whose blocks are accepted again gives those blocks back. */
  lemma {:induction false} RebuildRoundTrip(blocks: seq<ChainBlock>, depth: int, incoming: seq<Incoming>, done: seq<ChainBlock>)
    requires Linked(blocks) && FromOne(blocks) && AllAccepted(incoming) && |done| + |incoming| == |blocks|
    requires forall i :: 0 <= i < |incoming| ==> incoming[i].block == blocks[|done| + i]
    requires ChainInv(done, depth) && SameBlocks(done, blocks[..|done|])
    ensures var (next, o) := AppliedAll(done, depth, incoming);
      o == Done && SameBlocks(next, blocks) && ChainInv(next, depth)
    decreases |incoming|
  {
    hide Linked, ChainInv, SameBlocks, Applied;
    if incoming == [] {
      assert blocks[..|done|] == blocks;
    } else {
      assert incoming[0].block == blocks[|done|] && incoming[0].accepted;
      CopyStep(blocks, depth, done);
      RebuildRoundTrip(blocks, depth, incoming[1..], Applied(done, depth, blocks[|done|], false, true).0);
    }
  }

  /** The block is accepted and its hash does not occur before it. */
  predicate Extends(incoming: seq<Incoming>, i: nat)
    requires i < |incoming|
  {
    incoming[i].accepted && !Repeats(incoming, i, i)
  }

  predicate Repeats(incoming: seq<Incoming>, i: nat, n: nat)
    requires i < |incoming| && n <= |incoming|
  {
    exists j :: 0 <= j < n && incoming[j].block.hash == incoming[i].block.hash
  }

  /** How many leading blocks go onto the new chain. */
  function Usable(incoming: seq<Incoming>, i: nat): (n: nat)
    requires i <= |incoming|
    ensures i <= n <= |incoming| && (forall j :: i <= j < n ==> Extends(incoming, j))
    ensures n < |incoming| ==> !Extends(incoming, n)
    decreases |incoming| - i
  {
    if i < |incoming| && Extends(incoming, i) then Usable(incoming, i + 1) else i
  }

  function UsableFromOne(incoming: seq<Incoming>): nat {
    if incoming != [] && incoming[0].block.number == 1 then Usable(incoming, 0) else 0
  }

  /**
   * What a snapshot that passes the pre-check leaves behind: exactly its leading blocks up to the first that
   * is refused or repeats a hash, and nothing if it does not start at block one. The call reports success
   * exactly when every block after those repeats the hash of one of them.
   */
  lemma AdoptionOutcome(blocks: seq<ChainBlock>, depth: int, incoming: seq<Incoming>)
    requires incoming != [] && incoming[|incoming| - 1].block.number > Height(blocks) && Verifies(incoming)
    ensures var (next, a) := AdoptedSnapshot(blocks, depth, incoming);
      var n := UsableFromOne(incoming);
      && n <= |incoming| && SameBlocks(next, SavedBlocks(incoming)[..n]) && Height(next) == n
      && (a == Adopted <==> forall i :: n <= i < |incoming| ==> Repeats(incoming, i, n))
  {
    var n := UsableFromOne(incoming);
    if incoming[0].block.number == 1 {
      NumbersFollow(incoming);
      FrontIsRebuilt(depth, incoming, n);
      var chain := AppliedAll([], depth, incoming[..n]).0;
      assert incoming == incoming[..n] + incoming[n..];
      AppliedAllAdd([], depth, incoming[..n], incoming[n..]);
      hide AppliedAll, SameBlocks, Verifies, UsableFromOne, Repeats, Extends;
      SavedHashes(incoming, n, chain);
      RestChangesNothing(chain, depth, incoming, n, n);
      SameHeight(chain, incoming, n);
    } else {
      assert !Repeats(incoming, 0, 0);
      assert AppliedAll([], depth, incoming) == ([], InvalidLink);
    }
  }

  /** The usable blocks are all applied. */
  lemma FrontIsRebuilt(depth: int, incoming: seq<Incoming>, n: nat)
    requires incoming != [] && Verifies(incoming) && incoming[0].block.number == 1 && n <= |incoming|
    requires forall i :: 0 <= i < |incoming| ==> incoming[i].block.number == i + 1
    requires forall i :: 0 <= i < n ==> Extends(incoming, i)
    ensures var (chain, o) := AppliedAll([], depth, incoming[..n]);
      o == Done && SameBlocks(chain, SavedBlocks(incoming)[..n])
  {
    UsableLinked(incoming, n);
    hide Verifies, Linked, FromOne, AppliedAll, SameBlocks, Extends;
    var saved := SavedBlocks(incoming)[..n];
    assert saved[..0] == [];
    assert SameBlocks([], []) by { NothingIsTheSame(); }
    RebuildRoundTrip(saved, depth, incoming[..n], []);
  }

  lemma NothingIsTheSame()
    ensures SameBlocks([], [])
  {
  }

  /** A snapshot is taken up exactly when it is higher than the chain, every block is sound and each follows the last. */
  lemma TakenUpIff(blocks: seq<ChainBlock>, depth: int, incoming: seq<Incoming>)
    ensures AdoptedSnapshot(blocks, depth, incoming).1 != Kept <==>
      && incoming != [] && incoming[|incoming| - 1].block.number > Height(blocks)
      && (forall i :: 0 <= i < |incoming| ==> incoming[i].sound)
      && (incoming[0].block.number == 1 ==> incoming[0].block.parentHash == ZERO_HASH)
      && (forall i :: 0 < i < |incoming| ==>
            incoming[i].block.number == incoming[i - 1].block.number + 1 && incoming[i].block.parentHash == incoming[i - 1].block.hash)
    ensures AdoptedSnapshot(blocks, depth, incoming).1 == Kept ==> AdoptedSnapshot(blocks, depth, incoming).0 == blocks
  {
    hide AppliedAll, Height;
    if Verifies(incoming) {
      forall i | 0 < i < |incoming|
        ensures incoming[i].block.number == incoming[i - 1].block.number + 1 && incoming[i].block.parentHash == incoming[i - 1].block.hash
      {
        assert Follows(incoming[i - 1].block, incoming[i].block);
      }
    }
  }

  /** Adoption never lowers the height exactly when at least as many leading blocks are usable as it was. */
  lemma AdoptionShortensIff(blocks: seq<ChainBlock>, depth: int, incoming: seq<Incoming>)
    requires ChainInv(blocks, depth)
    ensures Height(AdoptedSnapshot(blocks, depth, incoming).0) < Height(blocks) <==>
      && incoming != [] && incoming[|incoming| - 1].block.number > Height(blocks) && Verifies(incoming)
      && UsableFromOne(incoming) < Height(blocks)
  {
    if incoming != [] && incoming[|incoming| - 1].block.number > Height(blocks) && Verifies(incoming) {
      AdoptionOutcome(blocks, depth, incoming);
    }
  }

  lemma UsableLinked(incoming: seq<Incoming>, n: nat)
    requires incoming != [] && Verifies(incoming) && incoming[0].block.number == 1 && n <= |incoming|
    requires forall i :: 0 <= i < |incoming| ==> incoming[i].block.number == i + 1
    requires forall i :: 0 <= i < n ==> Extends(incoming, i)
    ensures Linked(SavedBlocks(incoming)[..n]) && FromOne(SavedBlocks(incoming)[..n]) && AllAccepted(incoming[..n])
  {
    var saved := SavedBlocks(incoming)[..n];
    forall i | 0 < i < n ensures saved[i].parentHash == saved[i - 1].hash {
      assert Follows(incoming[i - 1].block, incoming[i].block);
    }
    forall i, j | 0 <= i < j < n ensures saved[i].hash != saved[j].hash {
      assert Extends(incoming, j);
    }
    forall i | 0 <= i < n ensures incoming[..n][i].accepted {
      assert Extends(incoming, i);
    }
  }

  lemma {:induction false} AppliedAllAdd(blocks: seq<ChainBlock>, depth: int, a: seq<Incoming>, b: seq<Incoming>)
    ensures var (next, o) := AppliedAll(blocks, depth, a);
      AppliedAll(blocks, depth, a + b) == if o == Done then AppliedAll(next, depth, b) else (next, o)
    decreases |a|
  {
    hide Applied;
    if a == [] {
      assert a + b == b;
    } else {
      assert (a + b)[0] == a[0] && (a + b)[1..] == a[1..] + b;
      AppliedAllAdd(Applied(blocks, depth, a[0].block, false, a[0].accepted).0, depth, a[1..], b);
    }
  }

  /** The chain holds the hashes of exactly these leading blocks. */
  ghost predicate HoldsHashes(chain: seq<ChainBlock>, incoming: seq<Incoming>, n: nat)
    requires n <= |incoming|
  {
    && |chain| == n && (n > 0 ==> Height(chain) == n)
    && forall i :: 0 <= i < |incoming| ==> (HasHash(chain, incoming[i].block.hash) <==> Repeats(incoming, i, n))
  }

  lemma SavedHashes(incoming: seq<Incoming>, n: nat, chain: seq<ChainBlock>)
    requires n <= |incoming| && SameBlocks(chain, SavedBlocks(incoming)[..n])
    requires forall i :: 0 <= i < |incoming| ==> incoming[i].block.number == i + 1
    ensures HoldsHashes(chain, incoming, n)
  {
    assert forall j :: 0 <= j < n ==> chain[j].hash == incoming[j].block.hash && chain[j].number == j + 1;
    forall i | 0 <= i < |incoming| ensures HasHash(chain, incoming[i].block.hash) <==> Repeats(incoming, i, n) {
      if Repeats(incoming, i, n) {
        var j :| 0 <= j < n && incoming[j].block.hash == incoming[i].block.hash;
        assert chain[j].hash == incoming[i].block.hash;
      }
    }
  }

  lemma SameHeight(chain: seq<ChainBlock>, incoming: seq<Incoming>, n: nat)
    requires n <= |incoming| && HoldsHashes(chain, incoming, n)
    ensures Height(chain) == n
  {
  }

  /** Past the first block that cannot be used, the others repeat a hash or do not link. */
  lemma {:induction false} RestChangesNothing(chain: seq<ChainBlock>, depth: int, incoming: seq<Incoming>, n: nat, i: nat)
    requires n <= i <= |incoming| && HoldsHashes(chain, incoming, n)
    requires forall k :: 0 <= k < |incoming| ==> incoming[k].block.number == k + 1
    requires i == n < |incoming| ==> !Extends(incoming, n)
    ensures var (next, o) := AppliedAll(chain, depth, incoming[i..]);
      next == chain && (o == Done <==> forall k :: i <= k < |incoming| ==> Repeats(incoming, k, n))
    decreases |incoming| - i
  {
    hide Applied, HoldsHashes, Extends, Repeats;
    if i < |incoming| {
      assert incoming[i..][0] == incoming[i] && incoming[i..][1..] == incoming[i + 1..];
      if Repeats(incoming, i, n) {
        KnownIsSkipped(chain, depth, incoming, n, i);
        RestChangesNothing(chain, depth, incoming, n, i + 1);
      } else {
        NotTaken(chain, depth, incoming, n, i);
      }
    }
  }

  lemma KnownIsSkipped(chain: seq<ChainBlock>, depth: int, incoming: seq<Incoming>, n: nat, i: nat)
    requires n <= i < |incoming| && HoldsHashes(chain, incoming, n) && Repeats(incoming, i, n)
    ensures Applied(chain, depth, incoming[i].block, false, incoming[i].accepted) == (chain, Done)
  {
  }

  lemma NotTaken(chain: seq<ChainBlock>, depth: int, incoming: seq<Incoming>, n: nat, i: nat)
    requires n <= i < |incoming| && HoldsHashes(chain, incoming, n) && !Repeats(incoming, i, n)
    requires incoming[i].block.number == i + 1 && (i == n ==> !Extends(incoming, n))
    ensures Applied(chain, depth, incoming[i].block, false, incoming[i].accepted).0 == chain
    ensures Applied(chain, depth, incoming[i].block, false, incoming[i].accepted).1 != Done
  {
  }

  lemma NumbersFollow(incoming: seq<Incoming>)
    requires incoming != [] && incoming[0].block.number == 1 && Verifies(incoming)
    ensures forall i :: 0 <= i < |incoming| ==> incoming[i].block.number == i + 1
  {
    var i := 1;
    while i < |incoming|
      invariant 1 <= i <= |incoming|
      invariant forall j :: 0 <= j < i ==> incoming[j].block.number == j + 1
    {
      assert Follows(incoming[i - 1].block, incoming[i].block);
      i := i + 1;
    }
  }

  /** A valid chain, and a snapshot that starts above block one, after which the chain is gone. */
  lemma AdoptionCanWipe()
    ensures exists blocks, incoming :: ChainInv(blocks, 1) && WipedBy(blocks, incoming)
  {
    var blocks := [ChainBlock(1, "a", ZERO_HASH, false, false)];
    var incoming := [Incoming(ChainBlock(2, "b", "a", false, false), true, true)];
    assert WipedBy(blocks, incoming);
  }

  predicate WipedBy(blocks: seq<ChainBlock>, incoming: seq<Incoming>) {
    blocks != [] && Verifies(incoming) && AllAccepted(incoming) && AdoptedSnapshot(blocks, 1, incoming).0 == []
  }

  // ----- The engine object ---------------------------------------------------------------------------

  ghost predicate NumberIndex(blocks: seq<ChainBlock>, byNumber: map<int, ChainBlock>) {
    && (forall n :: n in byNumber <==> First(blocks) <= n < First(blocks) + |blocks|)
    && (forall n :: n in byNumber ==> byNumber[n] == blocks[n - First(blocks)])
  }

  ghost predicate HashIndex(blocks: seq<ChainBlock>, byHash: map<Hash, ChainBlock>) {
    && (forall i :: 0 <= i < |blocks| ==> blocks[i].hash in byHash && byHash[blocks[i].hash] == blocks[i])
    && (forall h :: h in byHash ==> HasHash(blocks, h))
  }

  /** Both maps hold exactly the blocks of the array, and receipts are kept for the same heights. */
  ghost predicate IndexesAgree(
      blocks: seq<ChainBlock>, byNumber: map<int, ChainBlock>, byHash: map<Hash, ChainBlock>, receipts: map<int, string>)
  {
    Linked(blocks) && NumberIndex(blocks, byNumber) && HashIndex(blocks, byHash) && receipts.Keys == byNumber.Keys
  }

  lemma ReplaceInHashes(blocks: seq<ChainBlock>, byHash: map<Hash, ChainBlock>, i: nat, now: ChainBlock)
    requires Linked(blocks) && HashIndex(blocks, byHash) && i < |blocks| && now.hash == blocks[i].hash
    ensures HashIndex(blocks[i := now], byHash[now.hash := now])
  {
    var next := blocks[i := now];
    forall h | h in byHash ensures HasHash(next, h) {
      var k :| 0 <= k < |blocks| && blocks[k].hash == h;
      assert next[k].hash == h;
    }
    assert next[i].hash == now.hash;
  }

  lemma ReplaceInNumbers(blocks: seq<ChainBlock>, byNumber: map<int, ChainBlock>, i: nat, now: ChainBlock)
    requires NumberIndex(blocks, byNumber) && i < |blocks| && now.number == blocks[i].number == First(blocks) + i
    ensures NumberIndex(blocks[i := now], byNumber[now.number := now])
    ensures byNumber[now.number := now].Keys == byNumber.Keys
  {
    assert now.number in byNumber && First(blocks[i := now]) == First(blocks);
  }

  lemma ReplaceInIndexes(blocks: seq<ChainBlock>, byNumber: map<int, ChainBlock>, byHash: map<Hash, ChainBlock>,
                         i: nat, now: ChainBlock)
    requires Linked(blocks) && NumberIndex(blocks, byNumber) && HashIndex(blocks, byHash) && i < |blocks|
    requires now.number == blocks[i].number && now.hash == blocks[i].hash && now.parentHash == blocks[i].parentHash
    ensures Linked(blocks[i := now]) && NumberIndex(blocks[i := now], byNumber[now.number := now])
    ensures HashIndex(blocks[i := now], byHash[now.hash := now]) && byNumber[now.number := now].Keys == byNumber.Keys
  {
    assert now.number == First(blocks) + i;
    hide Linked, NumberIndex, HashIndex;
    SameBlocksLinked(blocks, blocks[i := now]);
    ReplaceInNumbers(blocks, byNumber, i, now);
    ReplaceInHashes(blocks, byHash, i, now);
  }

  lemma AppendToHashes(blocks: seq<ChainBlock>, byHash: map<Hash, ChainBlock>, b: ChainBlock)
    requires HashIndex(blocks, byHash) && !HasHash(blocks, b.hash)
    ensures HashIndex(blocks + [b], byHash[b.hash := b])
  {
    var next := blocks + [b];
    forall i | 0 <= i < |blocks| ensures next[i] == blocks[i] && next[i].hash != b.hash {
    }
    forall h | h in byHash ensures HasHash(next, h) {
      var k :| 0 <= k < |blocks| && blocks[k].hash == h;
      assert next[k].hash == h;
    }
    assert next[|blocks|].hash == b.hash;
  }

  lemma AppendToIndexes(blocks: seq<ChainBlock>, byNumber: map<int, ChainBlock>, byHash: map<Hash, ChainBlock>, b: ChainBlock)
    requires Linked(blocks) && NumberIndex(blocks, byNumber) && HashIndex(blocks, byHash)
    requires Joins(blocks, b)
    ensures Linked(blocks + [b]) && NumberIndex(blocks + [b], byNumber[b.number := b])
    ensures HashIndex(blocks + [b], byHash[b.hash := b])
  {
    LinkedAppend(blocks, b);
    AppendToHashes(blocks, byHash, b);
    hide Linked, HashIndex, HasHash, Joins, NumberIndex;
    AppendToNumbers(blocks, byNumber, b);
  }

  lemma AppendToNumbers(blocks: seq<ChainBlock>, byNumber: map<int, ChainBlock>, b: ChainBlock)
    requires NumberIndex(blocks, byNumber)
    requires blocks != [] ==> First(blocks + [b]) == First(blocks) && b.number == First(blocks) + |blocks|
    ensures NumberIndex(blocks + [b], byNumber[b.number := b])
  {
    var longer := blocks + [b];
    assert longer[|blocks|] == b && forall i :: 0 <= i < |blocks| ==> longer[i] == blocks[i];
    assert b.number == First(longer) + |blocks|;
  }

  lemma LookUpNumber(blocks: seq<ChainBlock>, byNumber: map<int, ChainBlock>, n: int)
    requires Linked(blocks) && NumberIndex(blocks, byNumber)
    ensures n in byNumber ==> byNumber[n] in blocks && byNumber[n].number == n
    ensures n !in byNumber ==> Unnumbered(blocks, n) && Finalize(blocks, n) == blocks
  {
  }

  predicate Unnumbered(blocks: seq<ChainBlock>, number: int) {
    forall i :: 0 <= i < |blocks| ==> blocks[i].number != number
  }

  lemma LookUpHash(blocks: seq<ChainBlock>, byHash: map<Hash, ChainBlock>, hash: Hash)
    requires HashIndex(blocks, byHash)
    ensures hash in byHash <==> HasHash(blocks, hash)
    ensures hash in byHash ==> byHash[hash] in blocks && byHash[hash].hash == hash
  {
  }

  /** The chain with every block of a hash replaced. */
  function Swapped(blocks: seq<ChainBlock>, hash: Hash, now: ChainBlock): seq<ChainBlock> {
    seq(|blocks|, i requires 0 <= i < |blocks| => if blocks[i].hash == hash then now else blocks[i])
  }

  lemma SwappedAt(blocks: seq<ChainBlock>, i: nat, now: ChainBlock)
    requires Linked(blocks) && i < |blocks| && now.hash == blocks[i].hash
    ensures blocks[i := now] == Swapped(blocks, now.hash, now)
  {
    assert forall j :: 0 <= j < |blocks| && j != i ==> blocks[j].hash != blocks[i].hash;
  }

  lemma OneBlockPerHash(blocks: seq<ChainBlock>, was: ChainBlock, i: nat)
    requires Linked(blocks) && was in blocks && i < |blocks|
    ensures blocks[i].hash == was.hash || blocks[i].number == was.number ==> blocks[i] == was
  {
    var k :| 0 <= k < |blocks| && blocks[k] == was;
    assert i == k || blocks[i].hash != blocks[k].hash;
  }

  /** Swapping a block for itself with a flag set is what flagging the chain does. */
  lemma SwappedIsFlagged(blocks: seq<ChainBlock>, was: ChainBlock)
    requires Linked(blocks) && was in blocks
    ensures Swapped(blocks, was.hash, was.(finalized := true)) == Finalize(blocks, was.number)
    ensures Swapped(blocks, was.hash, was.(bftFinalized := true)) == Promote(blocks, was.hash)
  {
    forall i | 0 <= i < |blocks|
      ensures blocks[i].hash == was.hash <==> blocks[i].number == was.number
      ensures blocks[i].hash == was.hash ==> blocks[i] == was
    {
      OneBlockPerHash(blocks, was, i);
    }
  }

  lemma AlreadyFlagged(blocks: seq<ChainBlock>, was: ChainBlock)
    requires Linked(blocks) && was in blocks
    ensures was.finalized ==> Finalize(blocks, was.number) == blocks
    ensures was.bftFinalized ==> Promote(blocks, was.hash) == blocks
  {
    forall i | 0 <= i < |blocks| ensures blocks[i].hash == was.hash || blocks[i].number == was.number ==> blocks[i] == was {
      OneBlockPerHash(blocks, was, i);
    }
  }

  class ChainEngine {
    const finalityDepth: int
    var blocks: seq<ChainBlock>
    var blockByNumber: map<int, ChainBlock>
    var blockByHash: map<Hash, ChainBlock>
    var receiptsByBlock: map<int, string>
    var applying: Option<Flight>

    function State(): Engine
      reads this
    {
      Engine(blocks, applying)
    }

    ghost predicate Valid()
      reads this
    {
      && EngineInv(State(), finalityDepth)
      && Agree()
    }

    ghost predicate Agree()
      reads this
    {
      IndexesAgree(blocks, blockByNumber, blockByHash, receiptsByBlock)
    }

    constructor (finalityDepth: int)
      ensures Valid() && State() == Engine([], None) && this.finalityDepth == finalityDepth
    {
      this.finalityDepth := finalityDepth;
      blocks, blockByNumber, blockByHash, receiptsByBlock, applying := [], map[], map[], map[], None;
    }

    method GetHeight() returns (h: int)
      requires Valid()
      ensures h == Height(blocks) && forall i :: 0 <= i < |blocks| ==> blocks[i].number <= h
    {
      h := if |blocks| == 0 then 0 else blocks[|blocks| - 1].number;
    }

    method GetHighestFinalizedBlock() returns (n: int)
      requires Valid()
      ensures forall i :: 0 <= i < |blocks| ==> (blocks[i].finalized <==> blocks[i].number <= n)
      ensures 0 <= n <= Height(blocks)
    {
      var tip := GetHeight();
      var finalized := tip - Depth(finalityDepth);
      n := if finalized < 0 then 0 else finalized;
    }

    method GetBlockByNumber(number: int) returns (b: Option<ChainBlock>)
      requires Valid()
      ensures b.Some? ==> b.value in blocks && b.value.number == number
      ensures b.None? ==> Unnumbered(blocks, number)
    {
      LookUpNumber(blocks, blockByNumber, number);
      b := if number in blockByNumber then Some(blockByNumber[number]) else None;
    }

    method GetBlockByHash(hash: Hash) returns (b: Option<ChainBlock>)
      requires Valid()
      ensures b.Some? ==> b.value in blocks && b.value.hash == hash
      ensures b.None? ==> !HasHash(blocks, hash)
    {
      b := if hash in blockByHash then Some(blockByHash[hash]) else None;
    }

    /** Replaces a block by one that differs in its flags, in the array and in both maps. */
    method Replace(was: ChainBlock, now: ChainBlock)
      requires Agree()
      requires was in blocks && now.number == was.number && now.hash == was.hash && now.parentHash == was.parentHash
      modifies this`blocks, this`blockByNumber, this`blockByHash
      ensures Agree()
      ensures blocks == Swapped(old(blocks), was.hash, now)
    {
      var i := IndexOf(was);
      ReplaceInIndexes(blocks, blockByNumber, blockByHash, i, now);
      SwappedAt(blocks, i, now);
      hide Linked, NumberIndex, HashIndex, Swapped;
      blocks := blocks[i := now];
      blockByNumber := blockByNumber[now.number := now];
      blockByHash := blockByHash[now.hash := now];
    }

    method IndexOf(b: ChainBlock) returns (i: nat)
      requires b in blocks
      ensures i < |blocks| && blocks[i] == b && forall j :: 0 <= j < i ==> blocks[j] != b
    {
      i := 0;
      while blocks[i] != b
        invariant i < |blocks| && b !in blocks[..i]
        decreases |blocks| - i
      {
        assert blocks[i] in blocks;
        i := i + 1;
      }
    }

    method UpdateFinalityFlags()
      requires Agree()
      modifies this`blocks, this`blockByNumber, this`blockByHash
      ensures blocks == MarkFinal(old(blocks), finalityDepth)
      ensures Agree()
    {
      var tip := if |blocks| == 0 then 0 else blocks[|blocks| - 1].number;
      var newlyFinal := tip - Depth(finalityDepth);
      if newlyFinal < 1 { return; }
      assert MarkFinal(blocks, finalityDepth) == Finalize(blocks, newlyFinal);
      LookUpNumber(blocks, blockByNumber, newlyFinal);
      hide Linked, NumberIndex, HashIndex, Finalize, Swapped, MarkFinal, Unnumbered;
      if newlyFinal !in blockByNumber { return; }
      var b := blockByNumber[newlyFinal];
      AlreadyFlagged(blocks, b);
      SwappedIsFlagged(blocks, b);
      if !b.finalized {
        Replace(b, b.(finalized := true));
      }
    }

    /** The path for a block that is already in the chain. */
    method PromoteExisting(block: ChainBlock)
      requires Agree() && HasHash(blocks, block.hash)
      modifies this`blocks, this`blockByNumber, this`blockByHash
      ensures Agree() && blocks == Promote(old(blocks), block.hash)
    {
      LookUpHash(blocks, blockByHash, block.hash);
      hide Linked, NumberIndex, HashIndex, Promote, Swapped;
      var existing := blockByHash[block.hash];
      if existing.bftFinalized {
        AlreadyFlagged(blocks, existing);
      } else {
        Replace(existing, existing.(bftFinalized := true));
        SwappedIsFlagged(old(blocks), existing);
      }
    }

    /** The first half of an apply, up to the wait for the execution; nothing comes back while it goes on. */
    method BeginApply(block: ChainBlock, locallyProposed: bool, ok: bool) returns (o: Option<Outcome>)
      requires Valid() && applying.None?
      modifies this
      ensures Valid() && State() == Segmented(old(State()), finalityDepth, Check(block, locallyProposed, ok))
      ensures o == Checked(old(blocks), block, ok) && (o.None? <==> applying.Some?)
    {
      SegmentKeeps(State(), finalityDepth, Check(block, locallyProposed, ok));
      LookUpHash(blocks, blockByHash, block.hash);
      hide IndexesAgree, HashIndex, EngineInv, Promote, HasHash, LinksTo;
      if block.hash in blockByHash {
        if locallyProposed && block.bftFinalized {
          PromoteExisting(block);
        }
        return Some(Done);
      }
      if !LinksTo(blocks, block) { return Some(InvalidLink); }
      if !ok { return Some(Rejected); }
      applying := Some(Flight(block, locallyProposed));
      return None;
    }

    /** The second half of an apply, after the execution, whatever the chain is by then. */
    method FinishApply(receipts: string)
      requires Valid() && applying.Some?
      modifies this
      ensures Valid() && State() == Segmented(old(State()), finalityDepth, Finish)
    {
      SegmentKeeps(State(), finalityDepth, Finish);
      var flight := applying.value;
      assert Joins(blocks, Stored(flight.block, flight.local));
      hide IndexesAgree, EngineInv, MarkFinal, Joins;
      applying := None;
      PushBlock(Stored(flight.block, flight.local), receipts);
      UpdateFinalityFlags();
    }

    /** The execution failed: nothing is pushed. */
    method DropApply()
      requires Valid() && applying.Some?
      modifies this`applying
      ensures Valid() && State() == Segmented(old(State()), finalityDepth, Drop)
    {
      applying := None;
    }

    method ApplyBlock(block: ChainBlock, locallyProposed: bool, ok: bool, executes: bool, receipts: string) returns (o: Outcome)
      requires Valid() && applying.None?
      modifies this
      ensures Valid() && applying.None?
      ensures (blocks, o) == Applied(old(blocks), finalityDepth, block, locallyProposed, ok && executes)
    {
      hide Valid, HasHash, LinksTo, Promote, MarkFinal;
      var checked := BeginApply(block, locallyProposed, ok);
      if checked.Some? { return checked.value; }
      if !executes {
        DropApply();
        return Rejected;
      }
      FinishApply(receipts);
      return Done;
    }

    method PushBlock(b: ChainBlock, receipts: string)
      requires Agree()
      requires Joins(blocks, b)
      modifies this`blocks, this`blockByNumber, this`blockByHash, this`receiptsByBlock
      ensures blocks == old(blocks) + [b]
      ensures Agree()
    {
      AppendToIndexes(blocks, blockByNumber, blockByHash, b);
      hide Linked, NumberIndex, HashIndex;
      blocks := blocks + [b];
      blockByNumber := blockByNumber[b.number := b];
      blockByHash := blockByHash[b.hash := b];
      receiptsByBlock := receiptsByBlock[b.number := receipts];
      assert receiptsByBlock.Keys == old(receiptsByBlock).Keys + {b.number};
      assert blockByNumber.Keys == old(blockByNumber).Keys + {b.number};
    }

    /** Empties the chain, also while an apply waits for its execution. */
    method Clear()
      requires Valid()
      modifies this
      ensures Valid() && State() == Segmented(old(State()), finalityDepth, Wipe)
    {
      SegmentKeeps(State(), finalityDepth, Wipe);
      blocks, blockByNumber, blockByHash, receiptsByBlock := [], map[], map[], map[];
    }

    method RebuildFromBlocks(incoming: seq<Incoming>) returns (o: Outcome)
      requires Valid() && applying.None?
      modifies this
      ensures Valid() && applying.None? && (blocks, o) == AppliedAll([], finalityDepth, incoming)
    {
      Clear();
      hide Valid, Applied;
      var i := 0;
      assert incoming[0..] == incoming;
      while i < |incoming|
        invariant 0 <= i <= |incoming| && Valid() && applying.None?
        invariant AppliedAll(blocks, finalityDepth, incoming[i..]) == AppliedAll([], finalityDepth, incoming)
      {
        assert incoming[i..][0] == incoming[i] && incoming[i..][1..] == incoming[i + 1..];
        o := ApplyBlock(incoming[i].block, false, incoming[i].accepted, true, "");
        if o != Done { return; }
        i := i + 1;
      }
      o := Done;
    }

    method VerifyBlockChain(incoming: seq<Incoming>) returns (ok: bool)
      ensures ok <==> Verifies(incoming)
    {
      var i := 0;
      while i < |incoming|
        invariant 0 <= i <= |incoming| && Verifies(incoming[..i])
      {
        var b := incoming[i].block;
        var upTo := incoming[..i + 1];
        assert forall j :: 0 <= j < i ==> upTo[j] == incoming[..i][j];
        if !incoming[i].sound {
          return false;
        }
        if i == 0 {
          if b.number == 1 && b.parentHash != ZERO_HASH { return false; }
        } else {
          if b.parentHash != incoming[i - 1].block.hash || b.number != incoming[i - 1].block.number + 1 {
            assert !Follows(incoming[i - 1].block, incoming[i].block);
            return false;
          }
        }
        i := i + 1;
      }
      assert incoming[..i] == incoming;
      return true;
    }

    method MaybeAdoptSnapshot(incoming: seq<Incoming>) returns (a: Adoption)
      requires Valid() && applying.None?
      modifies this
      ensures Valid() && applying.None? && (blocks, a) == AdoptedSnapshot(old(blocks), finalityDepth, incoming)
    {
      hide Valid, AppliedAll, Verifies;
      if |incoming| == 0 { return Kept; }
      var height := if |blocks| == 0 then 0 else blocks[|blocks| - 1].number;
      if incoming[|incoming| - 1].block.number <= height { return Kept; }
      var verified := VerifyBlockChain(incoming);
      if !verified { return Kept; }
      var o := RebuildFromBlocks(incoming);
      a := if o == Done then Adopted else Broken(o);
    }
  }
}
