/**
 * The equivocation detector: a table of the votes seen at the tracked heights and a bounded
 * store of evidence with one counter per validator.
 *
 * Operations are functions on a `Detector` value; the class at the end does the program's loops.
 * When the global cap evicts, the program takes a validator with the most entries; ties follow
 * its map order, so the operations take the evicted validator as an argument and `IsVictim` says
 * which ones the program may choose.
 */
module EquivocationDetection {
  import opened BftTypes
  import opened Quorum

  datatype SeenVote = SeenVote(hash: Hash, signature: string)

  /** Height to phase and validator to the vote seen there. */
  type VoteTable = map<int, map<(VoteKind, Id), SeenVote>>

  datatype Evidence = Evidence(
    validatorId: Id, height: int, kind: VoteKind, hash1: Hash, hash2: Hash,
    signature1: Option<string>, signature2: Option<string>)

  datatype Caps = Caps(heights: nat, evidence: nat, perValidator: nat)

  datatype Detector = Detector(caps: Caps, votes: VoteTable, evidence: seq<Evidence>, counts: map<Id, int>, dropped: nat)

  function NewDetector(caps: Caps): Detector {
    Detector(caps, map[], [], map[], 0)
  }

  // ----- The vote table --------------------------------------------------------------

  function Seen(votes: VoteTable, id: Id, height: int, kind: VoteKind): Option<SeenVote> {
    if height in votes && (kind, id) in votes[height] then Some(votes[height][(kind, id)]) else None
  }

  /** A different, non-empty hash is on record; an empty hash counts as none. */
  predicate Conflicts(votes: VoteTable, id: Id, height: int, kind: VoteKind, hash: Hash) {
    var seen := Seen(votes, id, height, kind);
    seen.Some? && seen.value.hash != "" && seen.value.hash != hash
  }

  function Above(keys: set<int>, h: int): set<int> {
    set k | k in keys && k > h
  }

  /** Only the n highest heights. */
  function KeepHighest(votes: VoteTable, n: nat): VoteTable {
    map h | h in votes && |Above(votes.Keys, h)| < n :: votes[h]
  }

  function Noted(votes: VoteTable, id: Id, height: int, kind: VoteKind, hash: Hash, signature: string): VoteTable {
    votes[height := (if height in votes then votes[height] else map[])[(kind, id) := SeenVote(hash, signature)]]
  }

  // ----- The evidence store ------------------------------------------------------------

  function CountOf(counts: map<Id, int>, id: Id): int {
    if id in counts then counts[id] else 0
  }

  /** How many entries accuse the validator. */
  ghost function Multiplicity(evidence: seq<Evidence>, id: Id): nat {
    if evidence == [] then 0
    else Multiplicity(evidence[..|evidence| - 1], id) + if evidence[|evidence| - 1].validatorId == id then 1 else 0
  }

  /** Position of the oldest entry about the validator, or the length when there is none. */
  function Oldest(evidence: seq<Evidence>, id: Id): (i: nat)
    ensures i <= |evidence|
    ensures i < |evidence| ==> evidence[i].validatorId == id
    ensures forall j :: 0 <= j < i ==> evidence[j].validatorId != id
  {
    if evidence == [] || evidence[0].validatorId == id then 0
    else 1 + Oldest(evidence[1..], id)
  }

  function RemoveAt<T>(s: seq<T>, i: nat): seq<T>
    requires i < |s|
  {
    s[..i] + s[i + 1..]
  }

  function Without(d: Detector, id: Id): Detector
    requires Oldest(d.evidence, id) < |d.evidence|
  {
    d.(evidence := RemoveAt(d.evidence, Oldest(d.evidence, id)))
  }

  /** Sliding window of one validator; `repair` is the branch that only recording has. */
  function EvictOwn(d: Detector, id: Id, repair: bool): Detector {
    if CountOf(d.counts, id) < d.caps.perValidator then d
    else if Oldest(d.evidence, id) < |d.evidence| then Without(d, id)
    else if repair then d.(counts := d.counts[id := 0], dropped := d.dropped + 1)
    else d
  }

  /** A validator with the most entries, the accused one unless another has strictly more. */
  ghost predicate IsVictim(counts: map<Id, int>, id: Id, victim: Id) {
    && (victim == id || (victim in counts && counts[victim] > CountOf(counts, id)))
    && forall v :: v in counts ==> counts[v] <= CountOf(counts, victim)
  }

  function EvictGlobal(d: Detector, victim: Id): Detector {
    if |d.evidence| < d.caps.evidence || Oldest(d.evidence, victim) == |d.evidence| then d
    else Without(d, victim).(counts := d.counts[victim := (if victim in d.counts then d.counts[victim] else 1) - 1])
  }

  function Push(d: Detector, ev: Evidence): Detector {
    var n := CountOf(d.counts, ev.validatorId) + 1;
    d.(evidence := d.evidence + [ev],
       counts := d.counts[ev.validatorId := if d.caps.perValidator < n then d.caps.perValidator else n])
  }

  function Store(d: Detector, ev: Evidence, repair: bool, victim: Id): Detector {
    Push(EvictGlobal(EvictOwn(d, ev.validatorId, repair), victim), ev)
  }

  // ----- Operations --------------------------------------------------------------------

  function Given(signature: string): Option<string> {
    if signature == "" then None else Some(signature)
  }

  function RecordVote(d: Detector, id: Id, height: int, kind: VoteKind, hash: Hash, signature: string, victim: Id)
    : (Detector, Option<Evidence>)
  {
    if Conflicts(d.votes, id, height, kind, hash) then
      var seen := d.votes[height][(kind, id)];
      var ev := Evidence(id, height, kind, seen.hash, hash, Given(seen.signature), Given(signature));
      (Store(d, ev, true, victim), Some(ev))
    else
      (d.(votes := KeepHighest(Noted(d.votes, id, height, kind, hash, signature), d.caps.heights)), None)
  }

  datatype ImportResult = Imported | Duplicate | Invalid

  predicate WellFormed(ev: Evidence) {
    && ev.kind != Propose
    && ev.signature1.Some? && ev.signature1.value != "" && ev.signature2.Some? && ev.signature2.value != ""
    && ev.hash1 != ev.hash2
  }

  predicate SameCase(a: Evidence, b: Evidence) {
    a.validatorId == b.validatorId && a.height == b.height && a.kind == b.kind
  }

  /** `verified` is whether both signatures recover to the accused validator. */
  function ImportEvidence(d: Detector, ev: Evidence, verified: bool, victim: Id): (Detector, ImportResult) {
    if !WellFormed(ev) then (d, Invalid)
    else if exists e :: e in d.evidence && SameCase(e, ev) then (d, Duplicate)
    else if !verified then (d, Invalid)
    else (Store(d, ev, false, victim), Imported)
  }

  function Kept(evidence: seq<Evidence>, height: int): seq<Evidence> {
    if evidence == [] then []
    else Kept(evidence[..|evidence| - 1], height) +
         if evidence[|evidence| - 1].height >= height then [evidence[|evidence| - 1]] else []
  }

  /** One entry less; a counter that would become zero is removed. */
  function ReleaseOne(counts: map<Id, int>, id: Id): map<Id, int> {
    if id !in counts || counts[id] <= 1 then counts - {id} else counts[id := counts[id] - 1]
  }

  function Released(counts: map<Id, int>, evidence: seq<Evidence>, height: int): map<Id, int> {
    if evidence == [] then counts
    else
      var c, last := Released(counts, evidence[..|evidence| - 1], height), evidence[|evidence| - 1];
      if last.height >= height then c else ReleaseOne(c, last.validatorId)
  }

  function ClearBefore(d: Detector, height: int): Detector {
    d.(evidence := Kept(d.evidence, height), counts := Released(d.counts, d.evidence, height))
  }

  ghost function Heights(evidence: seq<Evidence>): set<int> {
    set i | 0 <= i < |evidence| :: evidence[i].height
  }

  // ----- Exact bookkeeping ---------------------------------------------------------------

  ghost predicate Exact(d: Detector) {
    d.caps.evidence >= 1 && d.caps.perValidator >= 1 && BooksHold(d)
  }

  /** Counters are the true multiplicities, both caps hold and the repair branch never ran. */
  ghost predicate BooksHold(d: Detector) {
    && (forall id :: CountOf(d.counts, id) == Multiplicity(d.evidence, id))
    && (forall id :: Multiplicity(d.evidence, id) <= d.caps.perValidator)
    && |d.evidence| <= d.caps.evidence
    && d.dropped == 0
  }

  lemma {:induction false} MultiplicityConcat(a: seq<Evidence>, b: seq<Evidence>, id: Id)
    ensures Multiplicity(a + b, id) == Multiplicity(a, id) + Multiplicity(b, id)
  {
    if b == [] {
      assert a + b == a;
    } else {
      assert (a + b)[..|a + b| - 1] == a + b[..|b| - 1];
      MultiplicityConcat(a, b[..|b| - 1], id);
    }
  }

  lemma MultiplicityRemoved(s: seq<Evidence>, i: nat, id: Id)
    requires i < |s|
    ensures Multiplicity(RemoveAt(s, i), id) == Multiplicity(s, id) - if s[i].validatorId == id then 1 else 0
  {
    assert s == (s[..i] + [s[i]]) + s[i + 1..];
    MultiplicityConcat(s[..i] + [s[i]], s[i + 1..], id);
    MultiplicityConcat(s[..i], [s[i]], id);
    MultiplicityConcat(s[..i], s[i + 1..], id);
    assert [s[i]][..0] == [];
  }

  lemma {:induction false} PresentIffCounted(s: seq<Evidence>, id: Id)
    ensures Multiplicity(s, id) > 0 <==> exists i :: 0 <= i < |s| && s[i].validatorId == id
  {
    if s != [] {
      PresentIffCounted(s[..|s| - 1], id);
      assert forall i :: 0 <= i < |s| - 1 ==> s[i] == s[..|s| - 1][i];
    }
  }

  lemma MultiplicityPushed(s: seq<Evidence>, ev: Evidence, id: Id)
    ensures Multiplicity(s + [ev], id) == Multiplicity(s, id) + if ev.validatorId == id then 1 else 0
  {
    assert (s + [ev])[..|s|] == s;
  }

  /** Storing one more piece of evidence keeps the books exact, through both evictions. */
  lemma StoreKeepsExact(d: Detector, ev: Evidence, repair: bool, victim: Id)
    requires Exact(d)
    requires |EvictOwn(d, ev.validatorId, repair).evidence| >= d.caps.evidence ==>
      IsVictim(EvictOwn(d, ev.validatorId, repair).counts, ev.validatorId, victim)
    ensures Exact(Store(d, ev, repair, victim))
  {
    var id := ev.validatorId;
    hide Multiplicity, IsVictim, Oldest;
    if CountOf(d.counts, id) >= d.caps.perValidator {
      OwnWindowKeepsExact(d, ev, repair, victim);
    } else if |d.evidence| >= d.caps.evidence {
      GlobalCapKeepsExact(d, ev, repair, victim);
    } else {
      forall v ensures Multiplicity(d.evidence + [ev], v) == Multiplicity(d.evidence, v) + if v == id then 1 else 0 {
        MultiplicityPushed(d.evidence, ev, v);
      }
    }
  }

  lemma OwnWindowKeepsExact(d: Detector, ev: Evidence, repair: bool, victim: Id)
    requires Exact(d) && CountOf(d.counts, ev.validatorId) >= d.caps.perValidator
    ensures Exact(Store(d, ev, repair, victim))
  {
    var id := ev.validatorId;
    PresentIffCounted(d.evidence, id);
    var i := Oldest(d.evidence, id);
    var d1 := EvictOwn(d, id, repair);
    assert d1 == Without(d, id) && EvictGlobal(d1, victim) == d1;
    forall v ensures Multiplicity(d1.evidence + [ev], v) == Multiplicity(d.evidence, v) {
      MultiplicityRemoved(d.evidence, i, v);
      MultiplicityPushed(d1.evidence, ev, v);
    }
  }

  lemma GlobalCapKeepsExact(d: Detector, ev: Evidence, repair: bool, victim: Id)
    requires Exact(d) && CountOf(d.counts, ev.validatorId) < d.caps.perValidator
    requires |d.evidence| >= d.caps.evidence && IsVictim(d.counts, ev.validatorId, victim)
    ensures Exact(Store(d, ev, repair, victim))
  {
    var id := ev.validatorId;
    VictimIsPresent(d, id, victim);
    hide Multiplicity, IsVictim;
    var d2 := EvictGlobal(d, victim);
    forall v
      ensures Multiplicity(d2.evidence, v) == Multiplicity(d.evidence, v) - if v == victim then 1 else 0
      ensures Multiplicity(d2.evidence + [ev], v) == Multiplicity(d2.evidence, v) + if v == id then 1 else 0
    {
      MultiplicityRemoved(d.evidence, Oldest(d.evidence, victim), v);
      MultiplicityPushed(d2.evidence, ev, v);
    }
    assert Store(d, ev, repair, victim) == Push(d2, ev);
  }

  lemma VictimIsPresent(d: Detector, id: Id, victim: Id)
    requires Exact(d) && |d.evidence| >= d.caps.evidence && IsVictim(d.counts, id, victim)
    ensures victim in d.counts && d.counts[victim] > 0
    ensures Oldest(d.evidence, victim) < |d.evidence|
  {
    var top := d.evidence[0].validatorId;
    PresentIffCounted(d.evidence, top);
    assert CountOf(d.counts, top) > 0;
    PresentIffCounted(d.evidence, victim);
  }

  /** One counter goes down by the number of its validator's entries that are dropped. */
  lemma {:induction false} ReleasedCount(evidence: seq<Evidence>, counts: map<Id, int>, height: int, id: Id)
    requires CountOf(counts, id) >= Multiplicity(evidence, id)
    ensures Multiplicity(Kept(evidence, height), id) <= Multiplicity(evidence, id)
    ensures CountOf(Released(counts, evidence, height), id)
      == CountOf(counts, id) - (Multiplicity(evidence, id) - Multiplicity(Kept(evidence, height), id))
  {
    if evidence != [] {
      var front, last := evidence[..|evidence| - 1], evidence[|evidence| - 1];
      ReleasedCount(front, counts, height, id);
      hide CountOf, ReleaseOne;
      if last.height >= height {
        assert Kept(evidence, height) == Kept(front, height) + [last];
        MultiplicityPushed(Kept(front, height), last, id);
      } else {
        assert Kept(evidence, height) == Kept(front, height);
        CountAfterRelease(Released(counts, front, height), last.validatorId, id);
      }
    }
  }

  lemma CountAfterRelease(counts: map<Id, int>, id: Id, other: Id)
    ensures other != id ==> CountOf(ReleaseOne(counts, id), other) == CountOf(counts, other)
    ensures CountOf(counts, id) >= 1 ==> CountOf(ReleaseOne(counts, id), id) == CountOf(counts, id) - 1
  {
  }

  lemma {:induction false} KeptIsFilter(evidence: seq<Evidence>, height: int)
    ensures |Kept(evidence, height)| <= |evidence|
    ensures forall e :: e in Kept(evidence, height) <==> e in evidence && e.height >= height
  {
    if evidence != [] {
      var front, last := evidence[..|evidence| - 1], evidence[|evidence| - 1];
      KeptIsFilter(front, height);
      assert evidence == front + [last];
    }
  }

  /** Clearing keeps exactly the entries at or above the height, and the books stay exact. */
  lemma ClearKeepsExact(d: Detector, height: int)
    requires Exact(d)
    ensures Exact(ClearBefore(d, height))
    ensures forall e :: e in ClearBefore(d, height).evidence <==> e in d.evidence && e.height >= height
  {
    forall id
      ensures CountOf(Released(d.counts, d.evidence, height), id) == Multiplicity(Kept(d.evidence, height), id)
      ensures Multiplicity(Kept(d.evidence, height), id) <= d.caps.perValidator
    {
      ReleasedCount(d.evidence, d.counts, height, id);
    }
    KeptIsFilter(d.evidence, height);
  }

  // ----- Pruning by number of heights ------------------------------------------------------

  ghost predicate Ascending(s: seq<int>) {
    forall i, j :: 0 <= i < j < |s| ==> s[i] < s[j]
  }

  /** In an ascending list of the keys, the entry at i has the later ones above it. */
  lemma {:induction false} AboveInAscending(s: seq<int>, i: nat)
    requires Ascending(s) && i < |s|
    ensures |Above(Elements(s), s[i])| == |s| - 1 - i
    decreases |s| - i
  {
    if i == |s| - 1 {
      assert Above(Elements(s), s[i]) == {};
    } else {
      AboveInAscending(s, i + 1);
      assert Above(Elements(s), s[i]) == Above(Elements(s), s[i + 1]) + {s[i + 1]};
    }
  }

  /** The result of `pruneByMaxHeight`. */
  ghost predicate PrunedByMax(d: Detector, keep: int, d': Detector) {
    if keep <= 0 then d' == d.(evidence := [], counts := map[])
    else if |Heights(d.evidence)| <= keep then d' == d
    else exists cutoff :: cutoff in Heights(d.evidence) && |Above(Heights(d.evidence), cutoff)| == keep - 1
           && d' == ClearBefore(d, cutoff)
  }

  /** Exactly the evidence at the `keep` highest heights survives. */
  lemma PruneKeepsHighest(d: Detector, keep: int, d': Detector)
    requires Exact(d) && PrunedByMax(d, keep, d')
    ensures Exact(d')
    ensures forall e :: e in d'.evidence <==> e in d.evidence && |Above(Heights(d.evidence), e.height)| < keep
  {
    hide Exact;
    var hs := Heights(d.evidence);
    if keep <= 0 {
      NothingIsExact(d);
    } else if |hs| <= keep {
      forall e | e in d.evidence ensures |Above(hs, e.height)| < keep {
        var i :| 0 <= i < |d.evidence| && d.evidence[i] == e;
        assert e.height in hs;
        StrictSubset(Above(hs, e.height), hs, e.height);
      }
    } else {
      var cutoff :| cutoff in hs && |Above(hs, cutoff)| == keep - 1 && d' == ClearBefore(d, cutoff);
      ClearKeepsExact(d, cutoff);
      forall e | e in d.evidence ensures e.height >= cutoff <==> |Above(hs, e.height)| < keep {
        CutoffCounts(hs, cutoff, e.height);
      }
    }
  }

  lemma NothingIsExact(d: Detector)
    requires Exact(d)
    ensures Exact(d.(evidence := [], counts := map[]))
  {
  }

  /** Heights from the cutoff up are those with no more heights above them than it has. */
  lemma CutoffCounts(hs: set<int>, cutoff: int, h: int)
    requires cutoff in hs
    ensures h >= cutoff <==> |Above(hs, h)| <= |Above(hs, cutoff)|
  {
    if h >= cutoff {
      SubsetSize(Above(hs, h), Above(hs, cutoff));
    } else {
      assert Above(hs, cutoff) + {cutoff} <= Above(hs, h);
      SubsetSize(Above(hs, cutoff) + {cutoff}, Above(hs, h));
    }
  }

  lemma Inhabited(keys: set<int>)
    ensures keys == {} || exists k :: k in keys
  {
    assert (forall k :: k !in keys) ==> keys == {};
  }

  lemma {:induction false} SubsetSize(a: set<int>, b: set<int>)
    requires a <= b
    ensures |a| <= |b|
  {
    if a != {} {
      Inhabited(a);
      var x :| x in a;
      SubsetSize(a - {x}, b - {x});
    }
  }

  lemma StrictSubset(a: set<int>, b: set<int>, x: int)
    requires a <= b && x in b && x !in a
    ensures |a| < |b|
  {
    SubsetSize(a, b - {x});
  }

  // ----- Whole runs ----------------------------------------------------------------------

  datatype Op =
    | Record(id: Id, height: int, kind: VoteKind, hash: Hash, signature: string, victim: Id)
    | Import(ev: Evidence, verified: bool, victim: Id)
    | Clear(height: int)
    | PruneMax(keep: int, result: Detector)

  /** The operation is one the program can take from this state. */
  ghost predicate Legal(d: Detector, op: Op) {
    match op
    case Record(id, _, _, _, _, victim) =>
      |EvictOwn(d, id, true).evidence| >= d.caps.evidence ==> IsVictim(EvictOwn(d, id, true).counts, id, victim)
    case Import(ev, _, victim) =>
      |EvictOwn(d, ev.validatorId, false).evidence| >= d.caps.evidence ==>
        IsVictim(EvictOwn(d, ev.validatorId, false).counts, ev.validatorId, victim)
    case Clear(_) => true
    case PruneMax(keep, result) => PrunedByMax(d, keep, result)
  }

  function Apply(d: Detector, op: Op): Detector {
    match op
    case Record(id, height, kind, hash, signature, victim) =>
      RecordVote(d, id, height, kind, hash, signature, victim).0
    case Import(ev, verified, victim) => ImportEvidence(d, ev, verified, victim).0
    case Clear(height) => ClearBefore(d, height)
    case PruneMax(_, result) => result
  }

  ghost predicate IsRun(ds: seq<Detector>, ops: seq<Op>) {
    && |ds| == |ops| + 1
    && forall i :: 0 <= i < |ops| ==> Legal(ds[i], ops[i]) && ds[i + 1] == Apply(ds[i], ops[i])
  }

  lemma StepKeepsExact(d: Detector, op: Op)
    requires Exact(d) && Legal(d, op)
    ensures Exact(Apply(d, op))
  {
    match op
    case Record(id, height, kind, hash, signature, victim) =>
      if Conflicts(d.votes, id, height, kind, hash) {
        StoreKeepsExact(d, RecordVote(d, id, height, kind, hash, signature, victim).1.value, true, victim);
      }
    case Import(ev, verified, victim) =>
      if ImportEvidence(d, ev, verified, victim).1 == Imported {
        StoreKeepsExact(d, ev, false, victim);
      }
    case Clear(height) => ClearKeepsExact(d, height);
    case PruneMax(keep, result) => PruneKeepsHighest(d, keep, result);
  }

  /**
   * Over any mix of records, imports, clears and prunes, counters equal multiplicities, both caps
   * hold, and the counter-repair branch is never taken.
   */
  lemma {:induction false} BookkeepingExact(caps: Caps, ds: seq<Detector>, ops: seq<Op>, n: nat)
    requires caps.evidence >= 1 && caps.perValidator >= 1
    requires IsRun(ds, ops) && ds[0] == NewDetector(caps)
    requires n < |ds|
    ensures Exact(ds[n])
  {
    if n > 0 {
      BookkeepingExact(caps, ds, ops, n - 1);
      StepKeepsExact(ds[n - 1], ops[n - 1]);
    }
  }

  ghost predicate AlwaysExact(caps: Caps) {
    forall ds, ops, n: nat :: IsRun(ds, ops) && ds[0] == NewDetector(caps) && n < |ds| ==> BooksHold(ds[n])
  }

  /** The books stay exact over every run exactly when both caps leave room for one entry. */
  lemma AlwaysExactIff(caps: Caps)
    ensures AlwaysExact(caps) <==> caps.evidence >= 1 && caps.perValidator >= 1
  {
    if caps.evidence >= 1 && caps.perValidator >= 1 {
      forall ds, ops, n: nat | IsRun(ds, ops) && ds[0] == NewDetector(caps) && n < |ds| ensures BooksHold(ds[n]) {
        BookkeepingExact(caps, ds, ops, n);
      }
    } else {
      ZeroCapOverflows(caps);
    }
  }

  lemma ZeroCapOverflows(caps: Caps)
    requires caps.evidence == 0 || caps.perValidator == 0
    ensures !AlwaysExact(caps)
  {
    ImportOverflows(caps, Evidence("v", 1, Prepare, "x", "y", Some("s"), Some("t")));
  }

  lemma ImportOverflows(caps: Caps, ev: Evidence)
    requires (caps.evidence == 0 || caps.perValidator == 0) && WellFormed(ev)
    ensures !AlwaysExact(caps)
  {
    var d := NewDetector(caps);
    var op := Op.Import(ev, true, ev.validatorId);
    FirstImport(caps, ev);
    hide Apply;
    var ds := [d, Apply(d, op)];
    assert IsRun(ds, [op]);
    MultiplicityPushed([], ev, ev.validatorId);
    assert [] + [ev] == [ev];
    assert !BooksHold(ds[1]);
  }

  lemma FirstImport(caps: Caps, ev: Evidence)
    requires WellFormed(ev)
    ensures var op := Op.Import(ev, true, ev.validatorId);
      Legal(NewDetector(caps), op) && Apply(NewDetector(caps), op).evidence == [ev] && Apply(NewDetector(caps), op).caps == caps
  {
  }

  // ----- Soundness --------------------------------------------------------

  datatype SignedVote = SignedVote(id: Id, height: int, kind: VoteKind, hash: Hash)

  /** The accused really cast both votes, and they differ. */
  ghost predicate Justified(e: Evidence, signed: iset<SignedVote>) {
    && e.hash1 != e.hash2
    && SignedVote(e.validatorId, e.height, e.kind, e.hash1) in signed
    && SignedVote(e.validatorId, e.height, e.kind, e.hash2) in signed
  }

  /** Recorded votes were cast by their validators, and verification accepts only real signatures. */
  ghost predicate Authentic(op: Op, signed: iset<SignedVote>) {
    match op
    case Record(id, height, kind, hash, _, _) => SignedVote(id, height, kind, hash) in signed
    case Import(ev, verified, _) => verified && WellFormed(ev) ==> Justified(ev, signed)
    case Clear(_) => true
    case PruneMax(_, _) => true
  }

  ghost predicate Sound(d: Detector, signed: iset<SignedVote>) {
    && (forall e :: e in d.evidence ==> Justified(e, signed))
    && (forall id, height, kind :: Seen(d.votes, id, height, kind).Some? ==>
          SignedVote(id, height, kind, Seen(d.votes, id, height, kind).value.hash) in signed)
  }

  lemma WithoutIsSubset(d: Detector, id: Id)
    requires Oldest(d.evidence, id) < |d.evidence|
    ensures forall e :: e in Without(d, id).evidence ==> e in d.evidence
    ensures Without(d, id).votes == d.votes
  {
  }

  lemma StoreAddsOnly(d: Detector, ev: Evidence, repair: bool, victim: Id)
    ensures forall e :: e in Store(d, ev, repair, victim).evidence ==> e in d.evidence || e == ev
    ensures Store(d, ev, repair, victim).votes == d.votes
    ensures ev in Store(d, ev, repair, victim).evidence
  {
    hide Without;
    var d1 := EvictOwn(d, ev.validatorId, repair);
    if Oldest(d.evidence, ev.validatorId) < |d.evidence| {
      WithoutIsSubset(d, ev.validatorId);
    }
    var d2 := EvictGlobal(d1, victim);
    if Oldest(d1.evidence, victim) < |d1.evidence| {
      WithoutIsSubset(d1, victim);
    }
    assert Push(d2, ev).evidence[|d2.evidence|] == ev;
  }

  /** What the table holds after noting a vote is that vote or was there before. */
  lemma NotedSeen(votes: VoteTable, n: nat, id: Id, height: int, kind: VoteKind, hash: Hash, signature: string,
      id': Id, height': int, kind': VoteKind)
    ensures var votes' := KeepHighest(Noted(votes, id, height, kind, hash, signature), n);
      Seen(votes', id', height', kind').Some? ==>
        if id' == id && height' == height && kind' == kind
        then Seen(votes', id', height', kind') == Some(SeenVote(hash, signature))
        else Seen(votes', id', height', kind') == Seen(votes, id', height', kind')
  {
  }

  lemma StepKeepsSound(d: Detector, op: Op, signed: iset<SignedVote>)
    requires Sound(d, signed) && Legal(d, op) && Authentic(op, signed)
    ensures Sound(Apply(d, op), signed)
  {
    match op
    case Record(id, height, kind, hash, signature, victim) =>
      if Conflicts(d.votes, id, height, kind, hash) {
        var seen := Seen(d.votes, id, height, kind).value;
        StoreAddsOnly(d, Evidence(id, height, kind, seen.hash, hash, Given(seen.signature), Given(signature)), true, victim);
      } else {
        forall id', h', k' | Seen(Apply(d, op).votes, id', h', k').Some?
          ensures SignedVote(id', h', k', Seen(Apply(d, op).votes, id', h', k').value.hash) in signed
        {
          NotedSeen(d.votes, d.caps.heights, id, height, kind, hash, signature, id', h', k');
        }
      }
    case Import(ev, verified, victim) =>
      if ImportEvidence(d, ev, verified, victim).1 == Imported {
        StoreAddsOnly(d, ev, false, victim);
      }
    case Clear(height) => KeptIsFilter(d.evidence, height);
    case PruneMax(keep, result) =>
      if keep > 0 && |Heights(d.evidence)| > keep {
        var cutoff :| cutoff in Heights(d.evidence) && |Above(Heights(d.evidence), cutoff)| == keep - 1
          && result == ClearBefore(d, cutoff);
        KeptIsFilter(d.evidence, cutoff);
      }
  }

  /**
   * Every piece of evidence ever held, recorded or imported, is two different votes that its
   * validator cast at one height and phase.
   */
  lemma {:induction false} EvidenceIsJustified(
      caps: Caps, ds: seq<Detector>, ops: seq<Op>, n: nat, signed: iset<SignedVote>)
    requires IsRun(ds, ops) && ds[0] == NewDetector(caps)
    requires forall i :: 0 <= i < |ops| ==> Authentic(ops[i], signed)
    requires n < |ds|
    ensures Sound(ds[n], signed)
  {
    if n > 0 {
      EvidenceIsJustified(caps, ds, ops, n - 1, signed);
      StepKeepsSound(ds[n - 1], ops[n - 1], signed);
    }
  }

  /** A validator with one hash per height and phase is never accused. */
  lemma ConsistentVoterNeverAccused(
      caps: Caps, ds: seq<Detector>, ops: seq<Op>, n: nat, signed: iset<SignedVote>, id: Id)
    requires IsRun(ds, ops) && ds[0] == NewDetector(caps)
    requires forall i :: 0 <= i < |ops| ==> Authentic(ops[i], signed)
    requires n < |ds|
    requires forall h, k, x, y :: SignedVote(id, h, k, x) in signed && SignedVote(id, h, k, y) in signed ==> x == y
    ensures forall e :: e in ds[n].evidence ==> e.validatorId != id
  {
    EvidenceIsJustified(caps, ds, ops, n, signed);
  }

  predicate IsRecord(op: Op, id: Id, height: int, kind: VoteKind) {
    op.Record? && op.id == id && op.height == height && op.kind == kind
  }

  // ----- The detector object ---------------------------------------------------------------

  method SortedAscending(keys: set<int>) returns (s: seq<int>)
    ensures Ascending(s) && Elements(s) == keys && |s| == |keys|
  {
    s := [];
    var todo := keys;
    while todo != {}
      invariant todo <= keys && Ascending(s) && Elements(s) == keys - todo
      invariant |s| + |todo| == |keys|
      invariant forall x, y :: x in s && y in todo ==> x < y
      decreases todo
    {
      var least := Least(todo);
      OneMoreAscending(s, todo, least);
      s := s + [least];
      todo := todo - {least};
    }
  }

  lemma OneMoreAscending(s: seq<int>, todo: set<int>, least: int)
    requires Ascending(s) && least in todo && (forall k :: k in todo ==> least <= k)
    requires forall x, y :: x in s && y in todo ==> x < y
    ensures Ascending(s + [least]) && Elements(s + [least]) == Elements(s) + {least}
    ensures forall x, y :: x in s + [least] && y in todo - {least} ==> x < y
  {
    assert forall i :: 0 <= i < |s| ==> s[i] in s;
  }

  method Least(keys: set<int>) returns (m: int)
    requires keys != {}
    ensures m in keys && forall k :: k in keys ==> m <= k
  {
    Inhabited(keys);
    m :| m in keys;
    var rest := keys - {m};
    while rest != {}
      invariant m in keys && rest <= keys
      invariant forall k :: k in keys && k !in rest ==> m <= k
      decreases rest
    {
      Inhabited(rest);
      var x :| x in rest;
      if x < m { m := x; }
      rest := rest - {x};
    }
  }

  class EquivocationDetector {
    const caps: Caps
    var votes: VoteTable
    var evidence: seq<Evidence>
    var evidenceCountByValidator: map<Id, int>
    var droppedTotal: nat

    ghost function State(): Detector
      reads this
    {
      Detector(caps, votes, evidence, evidenceCountByValidator, droppedTotal)
    }

    constructor (maxTrackedHeights: nat := 100, maxEvidence: nat := 1000, maxEvidencePerValidator: nat := 100)
      ensures State() == NewDetector(Caps(maxTrackedHeights, maxEvidence, maxEvidencePerValidator))
    {
      caps := Caps(maxTrackedHeights, maxEvidence, maxEvidencePerValidator);
      votes := map[];
      evidence := [];
      evidenceCountByValidator := map[];
      droppedTotal := 0;
    }

    method Record(id: Id, height: int, kind: VoteKind, hash: Hash, signature: string)
      returns (found: Option<Evidence>, ghost victim: Id)
      modifies this
      ensures (State(), found) == RecordVote(old(State()), id, height, kind, hash, signature, victim)
      ensures Legal(old(State()), Op.Record(id, height, kind, hash, signature, victim))
    {
      if height !in votes {
        votes := votes[height := map[]];
      }
      var phaseMap := votes[height];
      if (kind, id) in phaseMap && phaseMap[(kind, id)].hash != "" && phaseMap[(kind, id)].hash != hash {
        assert votes == old(votes);
        var seen := phaseMap[(kind, id)];
        var ev := Evidence(id, height, kind, seen.hash, hash, Given(seen.signature), Given(signature));
        SlideWindow(id, true);
        victim := FitGlobalCap(id);
        Append(ev);
        return Some(ev), victim;
      }
      votes := votes[height := phaseMap[(kind, id) := SeenVote(hash, signature)]];
      assert votes == Noted(old(votes), id, height, kind, hash, signature);
      PruneOldHeights();
      victim := ChooseVictim(EvictOwn(old(State()), id, true).counts, id);
      return None, victim;
    }

    method Import(ev: Evidence, verified: bool) returns (r: ImportResult, ghost victim: Id)
      modifies this
      ensures (State(), r) == ImportEvidence(old(State()), ev, verified, victim)
      ensures Legal(old(State()), Op.Import(ev, verified, victim))
    {
      victim := ChooseVictim(EvictOwn(State(), ev.validatorId, false).counts, ev.validatorId);
      if !WellFormed(ev) { return Invalid, victim; }
      if exists e :: e in evidence && SameCase(e, ev) { return Duplicate, victim; }
      if !verified { return Invalid, victim; }
      SlideWindow(ev.validatorId, false);
      victim := FitGlobalCap(ev.validatorId);
      Append(ev);
      return Imported, victim;
    }

    method SlideWindow(id: Id, repair: bool)
      modifies this
      ensures State() == EvictOwn(old(State()), id, repair)
    {
      if CountOf(evidenceCountByValidator, id) >= caps.perValidator {
        var oldest := Oldest(evidence, id);
        if oldest < |evidence| {
          evidence := RemoveAt(evidence, oldest);
        } else if repair {
          evidenceCountByValidator := evidenceCountByValidator[id := 0];
          droppedTotal := droppedTotal + 1;
        }
      }
    }

    method FitGlobalCap(id: Id) returns (ghost victim: Id)
      modifies this
      ensures State() == EvictGlobal(old(State()), victim)
      ensures IsVictim(old(evidenceCountByValidator), id, victim)
    {
      victim := ChooseVictim(evidenceCountByValidator, id);
      if |evidence| >= caps.evidence {
        var maxValidator, maxCount := id, CountOf(evidenceCountByValidator, id);
        var todo := evidenceCountByValidator.Keys;
        while todo != {}
          invariant todo <= evidenceCountByValidator.Keys
          invariant maxCount == CountOf(evidenceCountByValidator, maxValidator)
          invariant maxValidator == id ||
            (maxValidator in evidenceCountByValidator && maxCount > CountOf(evidenceCountByValidator, id))
          invariant forall v :: v in evidenceCountByValidator.Keys - todo ==> evidenceCountByValidator[v] <= maxCount
          decreases todo
        {
          var v :| v in todo;
          if evidenceCountByValidator[v] > maxCount {
            maxValidator, maxCount := v, evidenceCountByValidator[v];
          }
          todo := todo - {v};
        }
        victim := maxValidator;
        var oldest := Oldest(evidence, maxValidator);
        if oldest < |evidence| {
          evidence := RemoveAt(evidence, oldest);
          var n := if maxValidator in evidenceCountByValidator then evidenceCountByValidator[maxValidator] else 1;
          evidenceCountByValidator := evidenceCountByValidator[maxValidator := n - 1];
        }
      }
    }

    method Append(ev: Evidence)
      modifies this
      ensures State() == Push(old(State()), ev)
    {
      evidence := evidence + [ev];
      var n := CountOf(evidenceCountByValidator, ev.validatorId) + 1;
      evidenceCountByValidator :=
        evidenceCountByValidator[ev.validatorId := if caps.perValidator < n then caps.perValidator else n];
    }

    method ClearEvidenceBefore(height: int) returns (removed: nat)
      modifies this
      ensures State() == ClearBefore(old(State()), height)
      ensures removed == |old(evidence)| - |evidence|
    {
      hide Compacted, Released, ReleaseOne;
      ghost var was := evidence;
      NothingCleared(was, evidenceCountByValidator, height);
      var writeIdx, i := 0, 0;
      while i < |evidence|
        invariant 0 <= writeIdx <= i <= |evidence| == |was|
        invariant Compacted(evidence, was, writeIdx, i, height)
        invariant evidenceCountByValidator == Released(old(evidenceCountByValidator), was[..i], height)
        invariant unchanged(`votes) && unchanged(`droppedTotal)
      {
        CompactNext(evidence, was, writeIdx, i, height);
        ReleaseNext(old(evidenceCountByValidator), was, i, height);
        if evidence[i].height >= height {
          evidence := evidence[writeIdx := evidence[i]];
          writeIdx := writeIdx + 1;
        } else {
          ReleaseCount(evidence[i].validatorId);
        }
        i := i + 1;
      }
      AllCompacted(evidence, was, writeIdx, height);
      assert was[..i] == was;
      removed := |evidence| - writeIdx;
      evidence := evidence[..writeIdx];
    }

    method ReleaseCount(vid: Id)
      modifies this`evidenceCountByValidator
      ensures evidenceCountByValidator == ReleaseOne(old(evidenceCountByValidator), vid)
    {
      var cnt := if vid in evidenceCountByValidator then evidenceCountByValidator[vid] else 1;
      if cnt <= 1 {
        evidenceCountByValidator := evidenceCountByValidator - {vid};
      } else {
        evidenceCountByValidator := evidenceCountByValidator[vid := cnt - 1];
      }
    }

    method PruneOldHeights()
      modifies this`votes
      ensures votes == KeepHighest(old(votes), caps.heights)
    {
      hide KeepHighest, Ascending;
      if |votes| <= caps.heights {
        FewHeightsAllKept(votes, caps.heights);
        return;
      }
      var heights := SortedAscending(votes.Keys);
      var toRemove := |heights| - caps.heights;
      LowestRemoved(votes, heights, caps.heights);
      DeleteHeights(heights[..toRemove]);
    }

    method DeleteHeights(heights: seq<int>)
      modifies this`votes
      ensures votes == old(votes) - Elements(heights)
    {
      hide Elements;
      NoneDropped(votes, heights);
      for i := 0 to |heights|
        invariant votes == old(votes) - Elements(heights[..i])
      {
        DropNext(old(votes), heights, i);
        votes := votes - {heights[i]};
      }
      assert heights[..|heights|] == heights;
    }

    method PruneByMaxHeight(keep: int) returns (removed: nat)
      modifies this
      ensures PrunedByMax(old(State()), keep, State())
      ensures removed == |old(evidence)| - |evidence|
    {
      if keep <= 0 {
        removed := |evidence|;
        evidence := [];
        evidenceCountByValidator := map[];
        return;
      }
      var uniqueHeights := set e | e in evidence :: e.height;
      assert uniqueHeights == Heights(evidence) by {
        assert forall i :: 0 <= i < |evidence| ==> evidence[i] in evidence;
      }
      if |uniqueHeights| <= keep { return 0; }
      var sorted := SortedAscending(uniqueHeights);
      var cutoff := sorted[|sorted| - keep];
      AboveInAscending(sorted, |sorted| - keep);
      assert cutoff in Elements(sorted);
      removed := ClearEvidenceBefore(cutoff);
    }
  }

  /** The store in the middle of clearing: the kept entries moved to the front, the rest as it was. */
  predicate Compacted(now: seq<Evidence>, was: seq<Evidence>, w: nat, i: nat, height: int) {
    w <= i <= |was| == |now| && now[..w] == Kept(was[..i], height) && now[i..] == was[i..]
  }

  lemma NothingCleared(was: seq<Evidence>, counts: map<Id, int>, height: int)
    ensures Compacted(was, was, 0, 0, height) && Released(counts, was[..0], height) == counts
  {
  }

  lemma CompactNext(now: seq<Evidence>, was: seq<Evidence>, w: nat, i: nat, height: int)
    requires Compacted(now, was, w, i, height) && i < |was|
    ensures now[i] == was[i]
    ensures was[i].height >= height ==> Compacted(now[w := now[i]], was, w + 1, i + 1, height)
    ensures was[i].height < height ==> Compacted(now, was, w, i + 1, height)
  {
    assert now[i] == now[i..][0] && was[i] == was[i..][0];
    assert was[..i + 1][..i] == was[..i];
    assert now[i + 1..] == now[i..][1..] && was[i + 1..] == was[i..][1..];
    assert now[w := now[i]][..w + 1] == now[..w] + [now[i]];
    assert now[w := now[i]][i + 1..] == now[i + 1..];
  }

  lemma AllCompacted(now: seq<Evidence>, was: seq<Evidence>, w: nat, height: int)
    requires Compacted(now, was, w, |was|, height)
    ensures now[..w] == Kept(was, height)
  {
    assert was[..|was|] == was;
  }

  lemma ReleaseNext(counts: map<Id, int>, was: seq<Evidence>, i: nat, height: int)
    requires i < |was|
    ensures Released(counts, was[..i + 1], height) ==
      if was[i].height >= height then Released(counts, was[..i], height)
      else ReleaseOne(Released(counts, was[..i], height), was[i].validatorId)
  {
    assert was[..i + 1][..i] == was[..i];
  }

  lemma NoneDropped(votes: VoteTable, heights: seq<int>)
    ensures votes - Elements(heights[..0]) == votes
  {
  }

  lemma FewHeightsAllKept(votes: VoteTable, n: nat)
    requires |votes| <= n
    ensures KeepHighest(votes, n) == votes
  {
    assert |votes.Keys| == |votes|;
    forall h | h in votes ensures |Above(votes.Keys, h)| < n {
      StrictSubset(Above(votes.Keys, h), votes.Keys, h);
    }
  }

  lemma DropNext(votes: VoteTable, heights: seq<int>, i: nat)
    requires i < |heights|
    ensures votes - Elements(heights[..i]) - {heights[i]} == votes - Elements(heights[..i + 1])
  {
    assert Elements(heights[..i + 1]) == Elements(heights[..i]) + {heights[i]};
  }

  /** Deleting the lowest heights one by one leaves the n highest. */
  lemma LowestRemoved(votes: VoteTable, heights: seq<int>, n: nat)
    requires Ascending(heights) && Elements(heights) == votes.Keys && |heights| >= n
    ensures votes - Elements(heights[..|heights| - n]) == KeepHighest(votes, n)
  {
    var low := Elements(heights[..|heights| - n]);
    forall h | h in votes ensures h in low <==> |Above(votes.Keys, h)| >= n {
      var j :| 0 <= j < |heights| && heights[j] == h;
      AboveInAscending(heights, j);
      if j < |heights| - n {
        assert heights[..|heights| - n][j] == h;
      } else {
        assert forall i :: 0 <= i < |heights| - n ==> heights[i] < heights[j];
      }
    }
  }

  lemma {:induction false} MostEntries(counts: map<Id, int>) returns (v: Id)
    requires counts != map[]
    ensures v in counts && forall w :: w in counts ==> counts[w] <= counts[v]
    decreases |counts|
  {
    v :| v in counts;
    var rest := counts - {v};
    assert forall w :: w in counts ==> w == v || w in rest;
    if rest != map[] {
      assert |rest| < |counts| by { assert rest.Keys == counts.Keys - {v}; assert |rest.Keys| == |rest|; }
      var w := MostEntries(rest);
      if counts[w] > counts[v] { v := w; }
    }
  }

  /** Some validator always qualifies as the one to evict. */
  lemma ChooseVictim(counts: map<Id, int>, id: Id) returns (victim: Id)
    ensures IsVictim(counts, id, victim)
  {
    victim := id;
    if counts != map[] {
      var v := MostEntries(counts);
      if counts[v] > CountOf(counts, id) { victim := v; }
    }
  }
}
