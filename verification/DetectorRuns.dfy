/**
 * What the equivocation detector finds, over whole runs: said of the votes recorded with it, not of the table it
 * keeps. It tracks the highest heights recorded so far, holds for each of them the first hash of every validator
 * and phase, and reports every later vote that differs from it.
 */
module DetectorRuns {
  import opened BftTypes
  import opened Quorum
  import opened EquivocationDetection

  // ----- What was recorded -----------------------------------------------------------------------

  /** The heights at which votes were recorded. */
  function Recorded(ops: seq<Op>): set<int> {
    set i | 0 <= i < |ops| && ops[i].Record? :: ops[i].height
  }

  /** The first non-empty hash recorded for the validator, height and phase; empty when there is none. */
  function FirstHash(ops: seq<Op>, id: Id, height: int, kind: VoteKind): Hash {
    if ops == [] then ""
    else
      var before, op := FirstHash(ops[..|ops| - 1], id, height, kind), ops[|ops| - 1];
      if before != "" || !IsRecord(op, id, height, kind) then before else op.hash
  }

  /** The signature that came with the hash when it was last recorded. */
  function LastSignature(ops: seq<Op>, id: Id, height: int, kind: VoteKind, hash: Hash): string {
    if ops == [] then ""
    else
      var op := ops[|ops| - 1];
      if IsRecord(op, id, height, kind) && op.hash == hash then op.signature
      else LastSignature(ops[..|ops| - 1], id, height, kind, hash)
  }

  /** The n highest. */
  function Highest(heights: set<int>, n: nat): set<int> {
    set h | h in heights && |Above(heights, h)| < n
  }

  // ----- The highest of the highest -----------------------------------------------------------------

  lemma {:induction false} LowestIn(s: set<int>) returns (m: int)
    requires s != {}
    ensures m in s && forall k :: k in s ==> m <= k
  {
    Inhabited(s);
    var x :| x in s;
    if s == {x} {
      m := x;
    } else {
      assert s - {x} != {};
      var y := LowestIn(s - {x});
      m := if x < y then x else y;
      forall k | k in s ensures m <= k {
        assert k == x || k in s - {x};
      }
    }
  }

  lemma {:induction false} EnoughHighest(s: set<int>, n: nat)
    requires |s| >= n
    ensures |Highest(s, n)| >= n
  {
    if |s| == n {
      forall h | h in s ensures |Above(s, h)| < n {
        StrictSubset(Above(s, h), s, h);
      }
      assert Highest(s, n) == s;
    } else {
      var m := LowestIn(s);
      EnoughHighest(s - {m}, n);
      forall h | h in s - {m} ensures Above(s, h) == Above(s - {m}, h) {
      }
      SubsetSize(Highest(s - {m}, n), Highest(s, n));
    }
  }

  /** What is not among the highest has as many of them above it. */
  lemma BelowHighest(s: set<int>, n: nat, y: int)
    requires |Above(s, y)| >= n
    ensures |Above(Highest(s, n), y)| >= n
  {
    var above := Above(s, y);
    EnoughHighest(above, n);
    forall h | h in above ensures Above(above, h) == Above(s, h) {
    }
    SubsetSize(Highest(above, n), Above(Highest(s, n), y));
  }

  /** Dropping low heights early makes no difference to what is kept in the end. */
  lemma HighestOfHighest(s: set<int>, x: int, n: nat)
    ensures Highest(Highest(s, n) + {x}, n) == Highest(s + {x}, n)
  {
    var kept, all := Highest(s, n) + {x}, s + {x};
    forall h | h in Highest(all, n) ensures h in Highest(kept, n) {
      SubsetSize(Above(s, h), Above(all, h));
      SubsetSize(Above(kept, h), Above(all, h));
    }
    forall h | h in Highest(kept, n) ensures h in Highest(all, n) {
      if |Above(all, h)| >= n {
        StillBelow(s, x, n, h);
      }
    }
  }

  lemma StillBelow(s: set<int>, x: int, n: nat, h: int)
    requires |Above(s + {x}, h)| >= n
    ensures |Above(Highest(s, n) + {x}, h)| >= n
  {
    var kept, all := Highest(s, n) + {x}, s + {x};
    if Above(all, h) != Above(kept, h) {
      var y :| y in Above(all, h) && y !in Above(kept, h);
      BelowHighest(s, n, y);
      SubsetSize(Above(Highest(s, n), y), Above(kept, h));
    }
  }

  // ----- The table follows the records --------------------------------------------------------------

  ghost predicate HoldsFirst(ops: seq<Op>, votes: VoteTable, id: Id, height: int, kind: VoteKind) {
    var first, seen := FirstHash(ops, id, height, kind), Seen(votes, id, height, kind);
    if first != "" then seen == Some(SeenVote(first, LastSignature(ops, id, height, kind, first)))
    else seen.None? || seen.value.hash == ""
  }

  ghost predicate FollowsRecords(ops: seq<Op>, votes: VoteTable, n: nat) {
    && votes.Keys == Highest(Recorded(ops), n)
    && forall id, height, kind :: height in votes ==> HoldsFirst(ops, votes, id, height, kind)
  }

  lemma {:induction false} UnrecordedHasNoHash(ops: seq<Op>, id: Id, height: int, kind: VoteKind)
    ensures FirstHash(ops, id, height, kind) != "" ==> height in Recorded(ops)
  {
    if ops != [] {
      var n := |ops| - 1;
      UnrecordedHasNoHash(ops[..n], id, height, kind);
      assert forall i :: 0 <= i < n ==> ops[..n][i] == ops[i];
      assert ops[n].Record? ==> ops[n].height in Recorded(ops);
    }
  }

  lemma RecordedNext(ops: seq<Op>, op: Op)
    ensures Recorded(ops + [op]) == Recorded(ops) + if op.Record? then {op.height} else {}
  {
    var all := ops + [op];
    assert forall i :: 0 <= i < |ops| ==> all[i] == ops[i];
    assert all[|ops|] == op;
  }

  lemma HashNext(ops: seq<Op>, op: Op, id: Id, height: int, kind: VoteKind, hash: Hash)
    ensures FirstHash(ops + [op], id, height, kind) ==
      if FirstHash(ops, id, height, kind) != "" || !IsRecord(op, id, height, kind) then FirstHash(ops, id, height, kind) else op.hash
    ensures LastSignature(ops + [op], id, height, kind, hash) ==
      if IsRecord(op, id, height, kind) && op.hash == hash then op.signature else LastSignature(ops, id, height, kind, hash)
  {
    assert (ops + [op])[..|ops|] == ops;
  }

  /** Operations other than a record leave the table alone. */
  lemma OthersKeepTable(d: Detector, op: Op)
    requires Legal(d, op) && !op.Record?
    ensures Apply(d, op).votes == d.votes && Apply(d, op).caps == d.caps
  {
    if op.Import? {
      StoreAddsOnly(d, op.ev, false, op.victim);
    }
  }

  lemma OtherStep(ops: seq<Op>, d: Detector, op: Op)
    requires FollowsRecords(ops, d.votes, d.caps.heights) && Legal(d, op) && !op.Record?
    ensures FollowsRecords(ops + [op], Apply(d, op).votes, d.caps.heights)
  {
    OthersKeepTable(d, op);
    RecordedNext(ops, op);
    assert Recorded(ops + [op]) == Recorded(ops);
    forall id, height, kind | height in d.votes ensures HoldsFirst(ops + [op], d.votes, id, height, kind) {
      assert HoldsFirst(ops, d.votes, id, height, kind);
      HashNext(ops, op, id, height, kind, FirstHash(ops, id, height, kind));
    }
  }

  /** A vote that differs from the first one is reported and leaves the table alone. */
  lemma ConflictStep(ops: seq<Op>, d: Detector, op: Op)
    requires FollowsRecords(ops, d.votes, d.caps.heights) && op.Record?
    requires Conflicts(d.votes, op.id, op.height, op.kind, op.hash)
    ensures FollowsRecords(ops + [op], Apply(d, op).votes, d.caps.heights)
  {
    StoreAddsOnly(d, RecordVote(d, op.id, op.height, op.kind, op.hash, op.signature, op.victim).1.value, true, op.victim);
    RecordedNext(ops, op);
    assert op.height in d.votes.Keys && op.height in Recorded(ops);
    assert Recorded(ops + [op]) == Recorded(ops);
    assert HoldsFirst(ops, d.votes, op.id, op.height, op.kind);
    forall id, height, kind | height in d.votes ensures HoldsFirst(ops + [op], d.votes, id, height, kind) {
      assert HoldsFirst(ops, d.votes, id, height, kind);
      HashNext(ops, op, id, height, kind, FirstHash(ops, id, height, kind));
    }
  }

  lemma NotedKeys(votes: VoteTable, op: Op, n: nat)
    requires op.Record?
    ensures KeepHighest(Noted(votes, op.id, op.height, op.kind, op.hash, op.signature), n).Keys == Highest(votes.Keys + {op.height}, n)
  {
    assert Noted(votes, op.id, op.height, op.kind, op.hash, op.signature).Keys == votes.Keys + {op.height};
  }

  /** What the table says of a height it keeps, after noting a vote. */
  lemma NotedEntry(votes: VoteTable, op: Op, n: nat, id: Id, height: int, kind: VoteKind)
    requires op.Record?
    ensures var next := KeepHighest(Noted(votes, op.id, op.height, op.kind, op.hash, op.signature), n);
      height in next ==>
        Seen(next, id, height, kind) ==
          if IsRecord(op, id, height, kind) then Some(SeenVote(op.hash, op.signature)) else Seen(votes, id, height, kind)
  {
  }

  lemma NoteStep(ops: seq<Op>, d: Detector, op: Op)
    requires FollowsRecords(ops, d.votes, d.caps.heights) && op.Record?
    requires !Conflicts(d.votes, op.id, op.height, op.kind, op.hash)
    ensures FollowsRecords(ops + [op], Apply(d, op).votes, d.caps.heights)
  {
    var n, next := d.caps.heights, Apply(d, op).votes;
    RecordedNext(ops, op);
    NotedKeys(d.votes, op, n);
    HighestOfHighest(Recorded(ops), op.height, n);
    hide Highest, Recorded, KeepHighest, Noted, HoldsFirst, Conflicts;
    forall id, height, kind | height in next ensures HoldsFirst(ops + [op], next, id, height, kind) {
      NewOrTracked(ops, d.votes, n, op, height);
      NoteEntry(ops, d.votes, n, op, id, height, kind);
    }
  }

  lemma NoteEntry(ops: seq<Op>, votes: VoteTable, n: nat, op: Op, id: Id, height: int, kind: VoteKind)
    requires op.Record? && !Conflicts(votes, op.id, op.height, op.kind, op.hash)
    requires height in KeepHighest(Noted(votes, op.id, op.height, op.kind, op.hash, op.signature), n)
    requires if height in votes then HoldsFirst(ops, votes, id, height, kind) else height !in Recorded(ops)
    ensures HoldsFirst(ops + [op], KeepHighest(Noted(votes, op.id, op.height, op.kind, op.hash, op.signature), n), id, height, kind)
  {
    NotedEntry(votes, op, n, id, height, kind);
    UnrecordedHasNoHash(ops, id, height, kind);
    HashNext(ops, op, id, height, kind, FirstHash(ops + [op], id, height, kind));
    hide KeepHighest, Noted, FirstHash, LastSignature, Recorded;
  }

  /** A height that is kept was tracked before or is recorded for the first time. */
  lemma NewOrTracked(ops: seq<Op>, votes: VoteTable, n: nat, op: Op, height: int)
    requires votes.Keys == Highest(Recorded(ops), n) && op.Record?
    requires height in Highest(Recorded(ops) + {op.height}, n)
    ensures height in votes || height !in Recorded(ops)
  {
    SubsetSize(Above(Recorded(ops), height), Above(Recorded(ops) + {op.height}, height));
  }

  lemma {:induction false} RunFollowsRecords(caps: Caps, ds: seq<Detector>, ops: seq<Op>, n: nat)
    requires IsRun(ds, ops) && ds[0] == NewDetector(caps) && n < |ds|
    ensures FollowsRecords(ops[..n], ds[n].votes, caps.heights) && ds[n].caps == caps
  {
    if n == 0 {
      assert Recorded(ops[..0]) == {};
    } else {
      RunFollowsRecords(caps, ds, ops, n - 1);
      var d, op := ds[n - 1], ops[n - 1];
      assert Legal(d, op) && ds[n] == Apply(d, op);
      hide FollowsRecords, Legal;
      assert ops[..n - 1] + [op] == ops[..n];
      CapsStay(d, op);
      if !op.Record? {
        OtherStep(ops[..n - 1], d, op);
      } else if Conflicts(d.votes, op.id, op.height, op.kind, op.hash) {
        ConflictStep(ops[..n - 1], d, op);
      } else {
        NoteStep(ops[..n - 1], d, op);
      }
    }
  }

  lemma CapsStay(d: Detector, op: Op)
    requires Legal(d, op)
    ensures Apply(d, op).caps == d.caps
  {
  }

  // ----- What is found ---------------------------------------------------------------------------------

  /** Fewer than the tracked number of heights above this one have been recorded. */
  ghost predicate InWindow(caps: Caps, ops: seq<Op>, height: int) {
    |Above(Recorded(ops), height)| < caps.heights
  }

  /**
   * Exactly the heights in the window are tracked: those recorded with fewer than the tracked number of higher
   * ones recorded so far.
   */
  lemma TracksTheHighest(caps: Caps, ds: seq<Detector>, ops: seq<Op>, n: nat, height: int)
    requires IsRun(ds, ops) && ds[0] == NewDetector(caps) && n < |ds|
    ensures height in ds[n].votes <==> height in Recorded(ops[..n]) && InWindow(caps, ops[..n], height)
  {
    RunFollowsRecords(caps, ds, ops, n);
  }

  function SomeIfAny(signature: string): Option<string> {
    if |signature| == 0 then None else Some(signature)
  }

  function Answer(d: Detector, op: Op): Option<Evidence>
    requires op.Record?
  {
    RecordVote(d, op.id, op.height, op.kind, op.hash, op.signature, op.victim).1
  }

  /**
   * Recording a vote finds an equivocation exactly when its height is in the window and another hash was recorded
   * before for the validator and phase. The evidence names the first hash and this one, with the signatures that
   * came with them, and is in the store.
   */
  lemma FoundIff(caps: Caps, ds: seq<Detector>, ops: seq<Op>, n: nat)
    requires IsRun(ds, ops) && ds[0] == NewDetector(caps) && n < |ops| && ops[n].Record?
    ensures var op := ops[n];
      var first := FirstHash(ops[..n], op.id, op.height, op.kind);
      var found := first != "" && first != op.hash && InWindow(caps, ops[..n], op.height);
      var e := Evidence(op.id, op.height, op.kind, first, op.hash,
                        SomeIfAny(LastSignature(ops[..n], op.id, op.height, op.kind, first)), SomeIfAny(op.signature));
      Answer(ds[n], op) == (if found then Some(e) else None) && (found ==> e in ds[n + 1].evidence)
  {
    var d, op := ds[n], ops[n];
    RunFollowsRecords(caps, ds, ops, n);
    UnrecordedHasNoHash(ops[..n], op.id, op.height, op.kind);
    assert op.height in d.votes ==> HoldsFirst(ops[..n], d.votes, op.id, op.height, op.kind);
    assert ds[n + 1] == Apply(d, op);
    hide FirstHash, LastSignature, Store;
    if Conflicts(d.votes, op.id, op.height, op.kind, op.hash) {
      StoreAddsOnly(d, Answer(d, op).value, true, op.victim);
    }
  }

  lemma {:induction false} SomeHashIsFirst(ops: seq<Op>, i: nat)
    requires i < |ops| && ops[i].Record? && ops[i].hash != ""
    ensures FirstHash(ops, ops[i].id, ops[i].height, ops[i].kind) != ""
  {
    if i < |ops| - 1 {
      SomeHashIsFirst(ops[..|ops| - 1], i);
    }
  }

  /**
   * Once any two different hashes have been recorded for a validator, height and phase, and the height is still in
   * the window at the later one, the detector has found it out: every record of a hash other than the first one
   * is answered with evidence that names the first.
   */
  lemma LaterConflictReported(caps: Caps, ds: seq<Detector>, ops: seq<Op>, i: nat, n: nat)
    requires IsRun(ds, ops) && ds[0] == NewDetector(caps) && i < n < |ops|
    requires ops[i].Record? && ops[i].hash != "" && IsRecord(ops[n], ops[i].id, ops[i].height, ops[i].kind)
    requires InWindow(caps, ops[..n], ops[n].height)
    ensures var first := FirstHash(ops[..n], ops[n].id, ops[n].height, ops[n].kind);
      && first != ""
      && (ops[n].hash != first ==>
            && Answer(ds[n], ops[n]).Some? && Answer(ds[n], ops[n]).value in ds[n + 1].evidence
            && Answer(ds[n], ops[n]).value.validatorId == ops[i].id
            && Answer(ds[n], ops[n]).value.hash1 == first && Answer(ds[n], ops[n]).value.hash2 == ops[n].hash)
  {
    assert ops[..n][i] == ops[i];
    SomeHashIsFirst(ops[..n], i);
    FoundIff(caps, ds, ops, n);
    hide FirstHash, LastSignature, InWindow;
  }

  // ----- Evidence from peers ----------------------------------------------------------------------------

  /**
   * Evidence from a peer is taken exactly when it is well formed, verifies and its case is not held yet. It is
   * then in the store, so any further evidence on the case is a duplicate.
   */
  lemma ImportedIff(d: Detector, ev: Evidence, verified: bool, victim: Id, again: Evidence, verified': bool, victim': Id)
    requires WellFormed(again) && SameCase(again, ev)
    ensures var (next, r) := ImportEvidence(d, ev, verified, victim);
      && (r == Imported <==> WellFormed(ev) && verified && !exists e :: e in d.evidence && SameCase(e, ev))
      && (r == Imported ==> ev in next.evidence && ImportEvidence(next, again, verified', victim') == (next, Duplicate))
      && (r != Imported ==> next == d)
  {
    StoreAddsOnly(d, ev, false, victim);
    hide Store;
  }

  // ----- Which evidence is given up -------------------------------------------------------------------------

  /** The entries about a validator, oldest first. */
  function EntriesOf(evidence: seq<Evidence>, id: Id): seq<Evidence> {
    if evidence == [] then []
    else (if evidence[0].validatorId == id then [evidence[0]] else []) + EntriesOf(evidence[1..], id)
  }

  lemma {:induction false} EntriesConcat(a: seq<Evidence>, b: seq<Evidence>, id: Id)
    ensures EntriesOf(a + b, id) == EntriesOf(a, id) + EntriesOf(b, id)
  {
    if a == [] {
      assert a + b == b;
    } else {
      assert (a + b)[0] == a[0] && (a + b)[1..] == a[1..] + b;
      EntriesConcat(a[1..], b, id);
    }
  }

  lemma {:induction false} NoEntries(evidence: seq<Evidence>, id: Id)
    requires forall i :: 0 <= i < |evidence| ==> evidence[i].validatorId != id
    ensures EntriesOf(evidence, id) == []
  {
    if evidence != [] {
      NoEntries(evidence[1..], id);
    }
  }

  /** Taking out the oldest entry of a validator drops its first and touches no other validator. */
  lemma OldestTakenOut(evidence: seq<Evidence>, victim: Id, id: Id)
    requires Oldest(evidence, victim) < |evidence|
    ensures var rest := EntriesOf(RemoveAt(evidence, Oldest(evidence, victim)), id);
      if id == victim then EntriesOf(evidence, id) != [] && rest == EntriesOf(evidence, id)[1..] else rest == EntriesOf(evidence, id)
  {
    var k := Oldest(evidence, victim);
    var before, e, after := evidence[..k], evidence[k], evidence[k + 1..];
    assert evidence == before + ([e] + after);
    EntriesConcat(before, [e] + after, id);
    EntriesConcat([e], after, id);
    EntriesConcat(before, after, id);
    assert [e][1..] == [] && EntriesOf([e], id) == if e.validatorId == id then [e] else [];
    if id == victim {
      NoEntries(before, id);
    }
  }

  /** The store gives this validator's oldest entry up to take in the new one. */
  ghost predicate GivesUp(d: Detector, ev: Evidence, victim: Id, id: Id) {
    if CountOf(d.counts, ev.validatorId) >= d.caps.perValidator then id == ev.validatorId
    else |d.evidence| >= d.caps.evidence && id == victim
  }

  /**
   * Storing evidence adds it as the newest entry of its validator and gives up at most one entry: the oldest of
   * that validator when it is at its cap, else, when the store is full, the oldest of a validator with the most.
   */
  lemma StoreGivesUpOldest(d: Detector, ev: Evidence, repair: bool, victim: Id, id: Id)
    requires Exact(d) && Legal(d, Op.Import(ev, true, victim))
    ensures var was, now := EntriesOf(d.evidence, id), EntriesOf(Store(d, ev, repair, victim).evidence, id);
      var kept := if GivesUp(d, ev, victim, id) then was[if was == [] then 0 else 1..] else was;
      (GivesUp(d, ev, victim, id) ==> was != []) && now == kept + if ev.validatorId == id then [ev] else []
  {
    var own := CountOf(d.counts, ev.validatorId) >= d.caps.perValidator;
    var d1 := EvictOwn(d, ev.validatorId, repair);
    if own {
      AtCapIsListed(d, ev.validatorId);
      OldestTakenOut(d.evidence, ev.validatorId, id);
    } else if |d.evidence| >= d.caps.evidence {
      VictimIsPresent(d, ev.validatorId, victim);
      OldestTakenOut(d.evidence, victim, id);
    }
    var d2 := EvictGlobal(d1, victim);
    EntriesConcat(d2.evidence, [ev], id);
    assert [ev][1..] == [] && EntriesOf([ev], id) == if ev.validatorId == id then [ev] else [];
    hide Exact, EntriesOf, Oldest;
  }

  lemma AtCapIsListed(d: Detector, id: Id)
    requires Exact(d) && CountOf(d.counts, id) >= d.caps.perValidator
    ensures Oldest(d.evidence, id) < |d.evidence| && |Without(d, id).evidence| < d.caps.evidence
  {
    if Oldest(d.evidence, id) == |d.evidence| {
      NoneListed(d.evidence, id);
    }
  }

  lemma {:induction false} NoneListed(evidence: seq<Evidence>, id: Id)
    requires forall i :: 0 <= i < |evidence| ==> evidence[i].validatorId != id
    ensures Multiplicity(evidence, id) == 0
  {
    if evidence != [] {
      NoneListed(evidence[..|evidence| - 1], id);
    }
  }
}
