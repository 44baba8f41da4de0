/**
 * Who proposes the next block: stake-weighted over the active validators when governance knows any,
 * round robin over the configured ones otherwise.
 *
 * The order in which ids are compared is a parameter: any total order. The hash of the height is a
 * given number.
 */
module Proposer {
  import opened Arithmetic
  import opened BftTypes
  import opened Quorum

  datatype Choice = Chosen(id: Id) | EmptySet | NoSuchIndex

  type Order = (Id, Id) -> bool

  ghost predicate IsTotalOrder(le: Order) {
    && (forall a, b :: le(a, b) || le(b, a))
    && (forall a, b :: le(a, b) && le(b, a) ==> a == b)
    && (forall a, b, c :: le(a, b) && le(b, c) ==> le(a, c))
  }

  predicate Sorted(s: seq<Validator>, le: Order) {
    forall i, j :: 0 <= i < j < |s| ==> le(s[i].id, s[j].id)
  }

  // ----- Shares of the seed range ------------------------------------------------------------

  /** Stake held under an id. */
  function Own(vals: seq<Validator>, id: Id): nat {
    if vals == [] then 0 else (if vals[0].id == id then vals[0].stake else 0) + Own(vals[1..], id)
  }

  /** Stake held under smaller ids. */
  function Below(vals: seq<Validator>, id: Id, le: Order): nat {
    if vals == [] then 0
    else (if le(vals[0].id, id) && vals[0].id != id then vals[0].stake else 0) + Below(vals[1..], id, le)
  }

  /** The id whose share of the range holds the seed. */
  predicate Owns(vals: seq<Validator>, id: Id, seed: nat, le: Order) {
    Below(vals, id, le) <= seed < Below(vals, id, le) + Own(vals, id)
  }

  /** Shares of different ids do not overlap and lie within the total. */
  lemma {:induction false} SharesApart(vals: seq<Validator>, a: Id, b: Id, le: Order)
    requires IsTotalOrder(le) && le(a, b)
    ensures a != b ==> Below(vals, a, le) + Own(vals, a) <= Below(vals, b, le)
    ensures Below(vals, b, le) + Own(vals, b) <= TotalStake(vals)
  {
    if vals != [] {
      TotalFromFront(vals);
      SharesApart(vals[1..], a, b, le);
    }
  }

  lemma OwnerUnique(vals: seq<Validator>, a: Id, b: Id, seed: nat, le: Order)
    requires IsTotalOrder(le) && Owns(vals, a, seed, le) && Owns(vals, b, seed, le)
    ensures a == b
  {
    if le(a, b) { SharesApart(vals, a, b, le); } else { SharesApart(vals, b, a, le); }
  }

  // Order of the list does not matter

  lemma {:induction false} SharesSplit(x: seq<Validator>, y: seq<Validator>, id: Id, le: Order)
    ensures Own(x + y, id) == Own(x, id) + Own(y, id)
    ensures Below(x + y, id, le) == Below(x, id, le) + Below(y, id, le)
    ensures TotalStake(x + y) == TotalStake(x) + TotalStake(y)
  {
    if x == [] {
      assert x + y == y;
    } else {
      assert (x + y)[1..] == x[1..] + y;
      TotalFromFront(x);
      TotalFromFront(x + y);
      SharesSplit(x[1..], y, id, le);
    }
  }

  lemma {:induction false} SharesPermute(x: seq<Validator>, y: seq<Validator>, id: Id, le: Order)
    requires multiset(x) == multiset(y)
    ensures Own(x, id) == Own(y, id) && Below(x, id, le) == Below(y, id, le) && TotalStake(x) == TotalStake(y)
    decreases |x|
  {
    if x == [] {
      assert |y| == |multiset(y)| == 0;
    } else {
      var k := TakeOut(x, y);
      SharesPermute(x[1..], y[..k] + y[k + 1..], id, le);
      SharesSplit(y[..k], y[k + 1..], id, le);
      SharesSplit(y[..k], y[k..], id, le);
      assert y == y[..k] + y[k..];
      assert y[k..][1..] == y[k + 1..];
      TotalFromFront(x);
      TotalFromFront(y[k..]);
    }
  }

  /** A permutation holds the first element somewhere, and the rest is a permutation of the rest. */
  lemma TakeOut<T>(x: seq<T>, y: seq<T>) returns (k: nat)
    requires multiset(x) == multiset(y) && x != []
    ensures k < |y| && y[k] == x[0] && multiset(x[1..]) == multiset(y[..k] + y[k + 1..])
  {
    assert x[0] in multiset(y);
    k :| 0 <= k < |y| && y[k] == x[0];
    assert x == [x[0]] + x[1..];
    assert y == y[..k] + [x[0]] + y[k + 1..];
    assert multiset(x) - multiset{x[0]} == multiset(x[1..]);
    assert multiset(y) - multiset{x[0]} == multiset(y[..k] + y[k + 1..]);
  }

  // ----- The walk -------------------------------------------------------------------------------

  /** Walks the list with what is left of the seed. */
  function Walk(s: seq<Validator>, seed: int): Option<Id> {
    if s == [] then None
    else if seed < s[0].stake then Some(s[0].id)
    else Walk(s[1..], seed - s[0].stake)
  }

  lemma {:induction false} NoneBelow(s: seq<Validator>, id: Id, le: Order)
    requires IsTotalOrder(le) && forall i :: 0 <= i < |s| ==> le(id, s[i].id)
    ensures Below(s, id, le) == 0
  {
    if s != [] {
      assert le(id, s[0].id);
      NoneBelow(s[1..], id, le);
    }
  }

  /** On a sorted list the walk ends at the owner of the seed, and it always ends before the list does. */
  lemma {:induction false} WalkFindsOwner(s: seq<Validator>, seed: nat, le: Order)
    requires IsTotalOrder(le) && Sorted(s, le) && seed < TotalStake(s)
    ensures Walk(s, seed).Some? && Owns(s, Walk(s, seed).value, seed, le)
    ensures exists i :: 0 <= i < |s| && s[i].id == Walk(s, seed).value
  {
    var v, rest := s[0], s[1..];
    TotalFromFront(s);
    if seed < v.stake {
      assert le(v.id, v.id);
      NoneBelow(s, v.id, le);
    } else {
      WalkFindsOwner(rest, seed - v.stake, le);
      var id := Walk(rest, seed - v.stake).value;
      var i :| 0 <= i < |rest| && rest[i].id == id;
      assert s[i + 1].id == id && le(v.id, id);
    }
  }

  // ----- Selection ---------------------------------------------------------------------------------

  function Insert(v: Validator, s: seq<Validator>, le: Order): seq<Validator> {
    if s == [] || le(v.id, s[0].id) then [v] + s else [s[0]] + Insert(v, s[1..], le)
  }

  function SortById(vals: seq<Validator>, le: Order): seq<Validator> {
    if vals == [] then [] else Insert(vals[0], SortById(vals[1..], le), le)
  }

  lemma {:induction false} InsertKeepsAll(v: Validator, s: seq<Validator>, le: Order)
    ensures multiset(Insert(v, s, le)) == multiset{v} + multiset(s)
  {
    if s != [] && !le(v.id, s[0].id) {
      InsertKeepsAll(v, s[1..], le);
      assert s == [s[0]] + s[1..];
    }
  }

  lemma {:induction false} InsertKeepsSorted(v: Validator, s: seq<Validator>, le: Order)
    requires IsTotalOrder(le) && Sorted(s, le)
    ensures Sorted(Insert(v, s, le), le) && multiset(Insert(v, s, le)) == multiset{v} + multiset(s)
  {
    InsertKeepsAll(v, s, le);
    if s == [] {
    } else if le(v.id, s[0].id) {
      forall j | 0 <= j < |s| ensures le(v.id, s[j].id) {
        assert j == 0 || le(s[0].id, s[j].id);
      }
    } else {
      var rest := Insert(v, s[1..], le);
      InsertKeepsSorted(v, s[1..], le);
      forall j | 0 <= j < |rest| ensures le(s[0].id, rest[j].id) {
        InsertedFrom(v, s[1..], le, j);
      }
    }
  }

  lemma InsertedFrom(v: Validator, s: seq<Validator>, le: Order, j: nat)
    requires j < |Insert(v, s, le)|
    ensures Insert(v, s, le)[j] == v || Insert(v, s, le)[j] in s
  {
    InsertKeepsAll(v, s, le);
    assert Insert(v, s, le)[j] in multiset(Insert(v, s, le));
  }

  lemma {:induction false} SortByIdSorts(vals: seq<Validator>, le: Order)
    requires IsTotalOrder(le)
    ensures Sorted(SortById(vals, le), le) && multiset(SortById(vals, le)) == multiset(vals)
  {
    if vals != [] {
      SortByIdSorts(vals[1..], le);
      InsertKeepsSorted(vals[0], SortById(vals[1..], le), le);
      assert vals == [vals[0]] + vals[1..];
    }
  }

  /** Remainder with the sign of the dividend. */
  function Rem(a: int, n: nat): int
    requires n > 0
  {
    if a >= 0 then a % n else -((-a) % n)
  }

  function StakeWeighted(vals: seq<Validator>, height: int, hash: nat, le: Order): Choice {
    var sorted := SortById(vals, le);
    if sorted == [] then EmptySet
    else if TotalStake(sorted) == 0 then
      var index := Rem(height - 1, |sorted|);
      if 0 <= index < |sorted| then Chosen(sorted[index].id) else NoSuchIndex
    else
      match Walk(sorted, hash % TotalStake(sorted))
      case Some(id) => Chosen(id)
      case None => Chosen(sorted[0].id)
  }

  /** With stake in the set, the choice is the owner of the seed; the fallback after the walk is never taken. */
  lemma ChoiceIsOwner(vals: seq<Validator>, height: int, hash: nat, le: Order)
    requires IsTotalOrder(le) && TotalStake(vals) > 0
    ensures var c := StakeWeighted(vals, height, hash, le);
      c.Chosen? && Owns(vals, c.id, hash % TotalStake(vals), le)
    ensures Walk(SortById(vals, le), hash % TotalStake(vals)).Some?
  {
    var s := SortById(vals, le);
    SortByIdSorts(vals, le);
    SharesPermute(s, vals, "", le);
    WalkFindsOwner(s, hash % TotalStake(vals), le);
    var id := Walk(s, hash % TotalStake(vals)).value;
    SharesPermute(s, vals, id, le);
  }

  function Names(s: seq<Validator>): seq<Id> {
    seq(|s|, i requires 0 <= i < |s| => s[i].id)
  }

  lemma {:induction false} NamesPermute(x: seq<Validator>, y: seq<Validator>)
    requires multiset(x) == multiset(y)
    ensures multiset(Names(x)) == multiset(Names(y))
    decreases |x|
  {
    if x == [] {
      assert |y| == |multiset(y)| == 0;
    } else {
      var k := TakeOut(x, y);
      var rest := y[..k] + y[k + 1..];
      NamesPermute(x[1..], rest);
      assert Names(x) == [x[0].id] + Names(x[1..]);
      assert Names(rest) == Names(y[..k]) + Names(y[k + 1..]);
      assert Names(y) == Names(y[..k]) + [y[k].id] + Names(y[k + 1..]);
    }
  }

  predicate Ascending(s: seq<Id>, le: Order) {
    forall i, j :: 0 <= i < j < |s| ==> le(s[i], s[j])
  }

  lemma SortedHeads(x: seq<Id>, y: seq<Id>, le: Order)
    requires IsTotalOrder(le) && Ascending(x, le) && Ascending(y, le) && multiset(x) == multiset(y) && x != [] && y != []
    ensures x[0] == y[0]
  {
    assert x[0] in multiset(y) && y[0] in multiset(x);
    var i :| 0 <= i < |y| && y[i] == x[0];
    var j :| 0 <= j < |x| && x[j] == y[0];
    assert le(x[0], x[0]) && le(y[0], y[0]);
    assert le(y[0], y[i]) && le(x[0], x[j]);
  }

  lemma {:induction false} SortedUnique(x: seq<Id>, y: seq<Id>, le: Order)
    requires IsTotalOrder(le) && Ascending(x, le) && Ascending(y, le) && multiset(x) == multiset(y)
    ensures x == y
    decreases |x|
  {
    hide IsTotalOrder, Ascending;
    assert |x| == |multiset(x)| == |multiset(y)| == |y|;
    if x != [] {
      SortedHeads(x, y, le);
      TailAscending(x, le);
      TailAscending(y, le);
      WithoutHead(x);
      WithoutHead(y);
      SortedUnique(x[1..], y[1..], le);
      assert x == [x[0]] + x[1..] && y == [y[0]] + y[1..];
    }
  }

  lemma TailAscending(s: seq<Id>, le: Order)
    requires Ascending(s, le) && s != []
    ensures Ascending(s[1..], le)
  {
  }

  lemma WithoutHead(s: seq<Id>)
    requires s != []
    ensures multiset(s[1..]) == multiset(s) - multiset{s[0]}
  {
    assert s == [s[0]] + s[1..];
  }

  /** Sorting puts the same ids in the same places whatever order they come in. */
  lemma SortedNames(x: seq<Validator>, y: seq<Validator>, le: Order)
    requires IsTotalOrder(le) && multiset(x) == multiset(y)
    ensures Names(SortById(x, le)) == Names(SortById(y, le))
  {
    SortByIdSorts(x, le);
    SortByIdSorts(y, le);
    NamesPermute(SortById(x, le), SortById(y, le));
    SortedUnique(Names(SortById(x, le)), Names(SortById(y, le)), le);
  }

  /** The choice does not depend on the order the validators come in. */
  lemma ChoiceIgnoresOrder(x: seq<Validator>, y: seq<Validator>, height: int, hash: nat, le: Order)
    requires IsTotalOrder(le) && multiset(x) == multiset(y)
    ensures StakeWeighted(x, height, hash, le) == StakeWeighted(y, height, hash, le)
  {
    SharesPermute(x, y, "", le);
    if TotalStake(x) > 0 {
      ChoiceIsOwner(x, height, hash, le);
      ChoiceIsOwner(y, height, hash, le);
      var a, b := StakeWeighted(x, height, hash, le).id, StakeWeighted(y, height, hash, le).id;
      SharesPermute(x, y, b, le);
      OwnerUnique(x, a, b, hash % TotalStake(x), le);
    } else {
      EqualWeightIgnoresOrder(x, y, height, hash, le);
    }
  }

  lemma EqualWeightIgnoresOrder(x: seq<Validator>, y: seq<Validator>, height: int, hash: nat, le: Order)
    requires IsTotalOrder(le) && multiset(x) == multiset(y) && TotalStake(x) == 0
    ensures StakeWeighted(x, height, hash, le) == StakeWeighted(y, height, hash, le)
  {
    hide SortById, IsTotalOrder, Sorted, TotalStake;
    SortedNames(x, y, le);
    SortKeepsTotal(x, le);
    SortKeepsTotal(y, le);
    SharesPermute(x, y, "", le);
    var s, r := SortById(x, le), SortById(y, le);
    assert |s| == |Names(s)| == |Names(r)| == |r|;
    if s != [] {
      var index := Rem(height - 1, |s|);
      if 0 <= index < |s| {
        assert s[index].id == Names(s)[index] == Names(r)[index] == r[index].id;
      }
    }
  }

  lemma SortKeepsTotal(vals: seq<Validator>, le: Order)
    requires IsTotalOrder(le)
    ensures TotalStake(SortById(vals, le)) == TotalStake(vals)
  {
    SortByIdSorts(vals, le);
    SharesPermute(SortById(vals, le), vals, "", le);
  }

  /** The seeds that choose an id. */
  ghost function Seeds(vals: seq<Validator>, height: int, id: Id, le: Order): set<int> {
    set seed: nat | seed < TotalStake(vals) && StakeWeighted(vals, height, seed, le) == Chosen(id)
  }

  ghost function Interval(lo: int, hi: int): (s: set<int>)
    ensures forall k :: k in s <==> lo <= k < hi
    ensures lo <= hi ==> |s| == hi - lo
    decreases hi - lo
  {
    if hi <= lo then {} else Interval(lo, hi - 1) + {hi - 1}
  }

  /** Over all seeds each id is chosen exactly as often as it has stake. */
  lemma ExactlyProportional(vals: seq<Validator>, height: int, id: Id, le: Order)
    requires IsTotalOrder(le)
    ensures |Seeds(vals, height, id, le)| == Own(vals, id)
  {
    var lo, hi := Below(vals, id, le), Below(vals, id, le) + Own(vals, id);
    SharesApart(vals, id, id, le);
    forall seed: nat | seed < TotalStake(vals)
      ensures StakeWeighted(vals, height, seed, le) == Chosen(id) <==> lo <= seed < hi
    {
      SeedChoosesOwner(vals, height, id, seed, le);
    }
    assert Seeds(vals, height, id, le) == Interval(lo, hi);
  }

  lemma SeedChoosesOwner(vals: seq<Validator>, height: int, id: Id, seed: nat, le: Order)
    requires IsTotalOrder(le) && seed < TotalStake(vals)
    ensures StakeWeighted(vals, height, seed, le) == Chosen(id) <==> Owns(vals, id, seed, le)
  {
    assert seed % TotalStake(vals) == seed;
    ChoiceIsOwner(vals, height, seed, le);
    if Owns(vals, id, seed, le) {
      OwnerUnique(vals, id, StakeWeighted(vals, height, seed, le).id, seed, le);
    }
  }

  // ----- Round robin ----------------------------------------------------------------------------------

  /** The persistent engine's slot for a height, which may lie outside the list. */
  function Slot(height: int, n: nat): int
    requires n > 0
  {
    Rem(height - 1, n)
  }

  lemma TurnExists(start: int, n: nat, slot: nat)
    requires start >= 1 && slot < n
    ensures exists h :: TurnOf(h, start, n, slot)
  {
    var q, base := (start - 1) / n, (start - 1) % n;
    assert start - 1 == q * n + base;
    var h := if slot >= base then start + (slot - base) else start + (slot - base + n);
    if slot >= base {
      RemainderUnique(h - 1, n, q, slot);
    } else {
      assert h - 1 == (q + 1) * n + slot;
      RemainderUnique(h - 1, n, q + 1, slot);
    }
    assert TurnOf(h, start, n, slot);
  }

  lemma TurnUnique(a: int, b: int, start: int, n: nat, slot: nat)
    requires start >= 1 && n > 0 && TurnOf(a, start, n, slot) && TurnOf(b, start, n, slot)
    ensures a == b
  {
    if a <= b { SameRemainder(a - 1, b - 1, n); } else { SameRemainder(b - 1, a - 1, n); }
  }

  /** In any n consecutive heights from one up, each slot has exactly one turn. */
  lemma OneTurnEach(start: int, n: nat, slot: nat)
    requires start >= 1 && slot < n
    ensures exists h :: TurnOf(h, start, n, slot)
    ensures forall h, h' :: TurnOf(h, start, n, slot) && TurnOf(h', start, n, slot) ==> h == h'
  {
    hide TurnOf;
    TurnExists(start, n, slot);
    forall a, b | TurnOf(a, start, n, slot) && TurnOf(b, start, n, slot) ensures a == b {
      TurnUnique(a, b, start, n, slot);
    }
  }

  predicate TurnOf(h: int, start: int, n: nat, slot: nat)
    requires n > 0
  {
    start <= h < start + n && Slot(h, n) == slot
  }

  function RoundRobin(ids: seq<Id>, nodeId: Id, height: int): Choice {
    if ids == [] then Chosen(nodeId)
    else
      var index := Slot(height, |ids|);
      if 0 <= index < |ids| then Chosen(ids[index]) else NoSuchIndex
  }

  /** The in-memory engine's form, which guards against heights below one. */
  function GuardedRoundRobin(ids: seq<Id>, nodeId: Id, height: int): Choice {
    if ids == [] then Chosen(nodeId)
    else if height < 1 then Chosen(ids[0])
    else Chosen(ids[(height - 1) % |ids|])
  }

  /** The two engines' rotations agree exactly from height one up, or where the slot is zero anyway. */
  lemma EnginesAgreeIff(ids: seq<Id>, nodeId: Id, height: int)
    ensures RoundRobin(ids, nodeId, height) == GuardedRoundRobin(ids, nodeId, height)
      <==> (ids == [] || height >= 1 || (1 - height) % |ids| == 0)
    ensures RoundRobin(ids, nodeId, height) == NoSuchIndex
      <==> (ids != [] && height < 1 && (1 - height) % |ids| != 0)
  {
  }

  function Expected(active: seq<Validator>, ids: seq<Id>, nodeId: Id, height: int, hash: nat, le: Order): Choice {
    if active != [] then StakeWeighted(active, height, hash, le) else RoundRobin(ids, nodeId, height)
  }

  /** Every height from one up has a proposer, and it is one of those the engine may choose from. */
  lemma AlwaysAProposer(active: seq<Validator>, ids: seq<Id>, nodeId: Id, height: int, hash: nat, le: Order)
    requires IsTotalOrder(le) && height >= 1
    ensures var c := Expected(active, ids, nodeId, height, hash, le);
      && c.Chosen?
      && (active != [] ==> IsKnown(active, c.id))
      && (active == [] && ids != [] ==> c.id in ids)
      && (active == [] && ids == [] ==> c.id == nodeId)
  {
    if active != [] {
      var s := SortById(active, le);
      SortByIdSorts(active, le);
      assert |s| == |multiset(s)| == |active|;
      SharesPermute(s, active, "", le);
      if TotalStake(s) > 0 {
        WalkFindsOwner(s, hash % TotalStake(s), le);
        var i :| 0 <= i < |s| && s[i].id == Walk(s, hash % TotalStake(s)).value;
        Present(s, active, i);
      } else {
        Present(s, active, Rem(height - 1, |s|));
      }
    }
  }

  // What the engine answers, with stake among the active validators

  /** The answer is the id whose share of the range holds the hash, wherever the hash falls. */
  lemma ExpectedIsOwner(active: seq<Validator>, ids: seq<Id>, nodeId: Id, height: int, hash: nat, le: Order, id: Id)
    requires IsTotalOrder(le) && TotalStake(active) > 0
    ensures Expected(active, ids, nodeId, height, hash, le) == Chosen(id) <==> Owns(active, id, hash % TotalStake(active), le)
  {
    var total := TotalStake(active);
    ChoiceIsOwner(active, height, hash, le);
    if Owns(active, id, hash % total, le) {
      OwnerUnique(active, id, StakeWeighted(active, height, hash, le).id, hash % total, le);
    }
  }

  /** The hashes below the total for which the engine answers this id. */
  ghost function Answers(active: seq<Validator>, ids: seq<Id>, nodeId: Id, height: int, le: Order, id: Id): set<int> {
    set hash: nat | hash < TotalStake(active) && Expected(active, ids, nodeId, height, hash, le) == Chosen(id)
  }

  /** Each id is the answer for exactly as many of them as it has stake. */
  lemma ExpectedIsProportional(active: seq<Validator>, ids: seq<Id>, nodeId: Id, height: int, le: Order, id: Id)
    requires IsTotalOrder(le) && TotalStake(active) > 0
    ensures |Answers(active, ids, nodeId, height, le, id)| == Own(active, id)
  {
    var lo, hi := Below(active, id, le), Below(active, id, le) + Own(active, id);
    ShareWithinTotal(active, id, le);
    hide IsTotalOrder, Expected, TotalStake, Below, Own, Answers;
    forall hash: int ensures hash in Answers(active, ids, nodeId, height, le, id) <==> lo <= hash < hi {
      AnswersTo(active, ids, nodeId, height, le, id, hash);
    }
    assert Answers(active, ids, nodeId, height, le, id) == Interval(lo, hi);
  }

  lemma ShareWithinTotal(active: seq<Validator>, id: Id, le: Order)
    requires IsTotalOrder(le)
    ensures Below(active, id, le) + Own(active, id) <= TotalStake(active)
  {
    assert le(id, id);
    SharesApart(active, id, id, le);
  }

  lemma AnswersTo(active: seq<Validator>, ids: seq<Id>, nodeId: Id, height: int, le: Order, id: Id, hash: int)
    requires IsTotalOrder(le) && TotalStake(active) > 0
    ensures hash in Answers(active, ids, nodeId, height, le, id) <==>
      Below(active, id, le) <= hash < Below(active, id, le) + Own(active, id)
  {
    hide IsTotalOrder, Expected, TotalStake, Below, Own, Owns;
    ShareWithinTotal(active, id, le);
    if 0 <= hash < TotalStake(active) {
      AnswersOwner(active, ids, nodeId, height, le, id, hash);
    }
  }

  lemma AnswersOwner(active: seq<Validator>, ids: seq<Id>, nodeId: Id, height: int, le: Order, id: Id, hash: nat)
    requires IsTotalOrder(le) && hash < TotalStake(active)
    ensures Expected(active, ids, nodeId, height, hash, le) == Chosen(id) <==>
      Below(active, id, le) <= hash < Below(active, id, le) + Own(active, id)
  {
    hide IsTotalOrder, Expected, TotalStake, Below, Own;
    SmallRemainder(hash, TotalStake(active));
    ExpectedIsOwner(active, ids, nodeId, height, hash, le, id);
  }

  /** The order in which the active validators are listed makes no difference. */
  lemma ExpectedIgnoresOrder(x: seq<Validator>, y: seq<Validator>, ids: seq<Id>, nodeId: Id, height: int, hash: nat, le: Order)
    requires IsTotalOrder(le) && multiset(x) == multiset(y)
    ensures Expected(x, ids, nodeId, height, hash, le) == Expected(y, ids, nodeId, height, hash, le)
  {
    assert |x| == |multiset(x)| == |multiset(y)| == |y|;
    ChoiceIgnoresOrder(x, y, height, hash, le);
  }

  // What it answers without stake: turns

  /** Who takes turns: the active validators by id, or the listed ones when none is active. */
  function Rota(active: seq<Validator>, ids: seq<Id>, le: Order): seq<Id> {
    if active != [] then Names(SortById(active, le)) else ids
  }

  /** Without stake the rota takes turns in its order from height one on. */
  lemma TurnsInOrder(active: seq<Validator>, ids: seq<Id>, nodeId: Id, hash: nat, le: Order, k: nat)
    requires IsTotalOrder(le) && TotalStake(active) == 0 && k < |Rota(active, ids, le)|
    ensures Expected(active, ids, nodeId, 1 + k, hash, le) == Chosen(Rota(active, ids, le)[k])
  {
    hide Expected, Rota, IsTotalOrder, TotalStake, RoundRobin;
    TakesTurns(active, ids, nodeId, 1 + k, hash, le);
    FirstRound(Rota(active, ids, le), nodeId, k);
  }

  lemma FirstRound(ids: seq<Id>, nodeId: Id, k: nat)
    requires k < |ids|
    ensures RoundRobin(ids, nodeId, 1 + k) == Chosen(ids[k])
  {
    assert k % |ids| == k;
  }

  /** It begins again after its last, whatever the hashes are. */
  lemma TurnsRepeat(active: seq<Validator>, ids: seq<Id>, nodeId: Id, height: int, hash: nat, hash': nat, le: Order)
    requires IsTotalOrder(le) && TotalStake(active) == 0 && Rota(active, ids, le) != [] && height >= 1
    ensures Expected(active, ids, nodeId, height + |Rota(active, ids, le)|, hash', le) == Expected(active, ids, nodeId, height, hash, le)
  {
    hide Expected, Rota, IsTotalOrder, TotalStake, Slot;
    var n := |Rota(active, ids, le)|;
    TakesTurns(active, ids, nodeId, height, hash, le);
    TakesTurns(active, ids, nodeId, height + n, hash', le);
    SlotRepeats(height, n);
  }

  lemma SlotRepeats(height: int, n: nat)
    requires height >= 1 && n > 0
    ensures Slot(height + n, n) == Slot(height, n) && 0 <= Slot(height, n) < n
  {
    RemainderUnique(height + n - 1, n, (height - 1) / n + 1, (height - 1) % n);
  }

  lemma TakesTurns(active: seq<Validator>, ids: seq<Id>, nodeId: Id, height: int, hash: nat, le: Order)
    requires IsTotalOrder(le) && TotalStake(active) == 0 && Rota(active, ids, le) != []
    ensures Expected(active, ids, nodeId, height, hash, le) == RoundRobin(Rota(active, ids, le), nodeId, height)
  {
    if active != [] {
      SortKeepsTotal(active, le);
      hide SortById, IsTotalOrder, TotalStake;
    }
  }

  /** The heights among n from a start at which the engine answers this id, with the hash of each height. */
  ghost function Turns(active: seq<Validator>, ids: seq<Id>, nodeId: Id, hash: int -> nat, le: Order, start: int, n: nat, id: Id): set<int> {
    set h | start <= h < start + n && Expected(active, ids, nodeId, h, hash(h), le) == Chosen(id)
  }

  /** In as many consecutive heights as the rota is long, each id has as many turns as places on it. */
  lemma {:induction false} FairTurns(active: seq<Validator>, ids: seq<Id>, nodeId: Id, hash: int -> nat, le: Order, start: int, id: Id)
    requires IsTotalOrder(le) && TotalStake(active) == 0 && Rota(active, ids, le) != [] && start >= 1
    ensures var rota := Rota(active, ids, le);
      |Turns(active, ids, nodeId, hash, le, start, |rota|, id)| == multiset(rota)[id]
    decreases start
  {
    hide IsTotalOrder, TotalStake, Expected, Rota;
    var rota := Rota(active, ids, le);
    var n := |rota|;
    if start == 1 {
      FirstTurns(active, ids, nodeId, hash, le, n, id);
      assert rota[..n] == rota;
    } else {
      FairTurns(active, ids, nodeId, hash, le, start - 1, id);
      TurnsRepeat(active, ids, nodeId, start - 1, hash(start - 1), hash(start - 1 + n), le);
      TurnsShift(active, ids, nodeId, hash, le, start - 1, n, id);
    }
  }

  /** One height further on: the first turn is left out and one at the end comes in. */
  lemma TurnsShift(active: seq<Validator>, ids: seq<Id>, nodeId: Id, hash: int -> nat, le: Order, start: int, n: nat, id: Id)
    requires n > 0
    requires Expected(active, ids, nodeId, start + n, hash(start + n), le) == Expected(active, ids, nodeId, start, hash(start), le)
    ensures |Turns(active, ids, nodeId, hash, le, start + 1, n, id)| == |Turns(active, ids, nodeId, hash, le, start, n, id)|
  {
    hide Expected, Turns;
    TurnsAtFront(active, ids, nodeId, hash, le, start, n, id);
    TurnsAtBack(active, ids, nodeId, hash, le, start + 1, n, id);
    TurnsWithin(active, ids, nodeId, hash, le, start + 1, n - 1, id);
  }

  lemma TurnsAtFront(active: seq<Validator>, ids: seq<Id>, nodeId: Id, hash: int -> nat, le: Order, start: int, n: nat, id: Id)
    requires n > 0
    ensures Turns(active, ids, nodeId, hash, le, start, n, id) == Turns(active, ids, nodeId, hash, le, start + 1, n - 1, id)
      + if Expected(active, ids, nodeId, start, hash(start), le) == Chosen(id) then {start} else {}
  {
    hide Expected;
  }

  lemma TurnsAtBack(active: seq<Validator>, ids: seq<Id>, nodeId: Id, hash: int -> nat, le: Order, start: int, n: nat, id: Id)
    requires n > 0
    ensures var h := start + n - 1;
      Turns(active, ids, nodeId, hash, le, start, n, id) == Turns(active, ids, nodeId, hash, le, start, n - 1, id)
        + if Expected(active, ids, nodeId, h, hash(h), le) == Chosen(id) then {h} else {}
  {
    hide Expected;
  }

  lemma TurnsWithin(active: seq<Validator>, ids: seq<Id>, nodeId: Id, hash: int -> nat, le: Order, start: int, n: nat, id: Id)
    ensures forall h :: h in Turns(active, ids, nodeId, hash, le, start, n, id) ==> start <= h < start + n
  {
    hide Expected;
  }

  lemma {:induction false} FirstTurns(active: seq<Validator>, ids: seq<Id>, nodeId: Id, hash: int -> nat, le: Order, m: nat, id: Id)
    requires IsTotalOrder(le) && TotalStake(active) == 0 && m <= |Rota(active, ids, le)|
    ensures |Turns(active, ids, nodeId, hash, le, 1, m, id)| == multiset(Rota(active, ids, le)[..m])[id]
  {
    hide IsTotalOrder, TotalStake, Expected, Rota;
    var rota := Rota(active, ids, le);
    if m == 0 {
      assert Turns(active, ids, nodeId, hash, le, 1, 0, id) == {};
    } else {
      FirstTurns(active, ids, nodeId, hash, le, m - 1, id);
      TurnsInOrder(active, ids, nodeId, hash(m), le, m - 1);
      assert rota[..m] == rota[..m - 1] + [rota[m - 1]];
      TurnsAtBack(active, ids, nodeId, hash, le, 1, m, id);
      TurnsWithin(active, ids, nodeId, hash, le, 1, m - 1, id);
    }
  }

  lemma Present(s: seq<Validator>, vals: seq<Validator>, i: nat)
    requires multiset(s) == multiset(vals) && i < |s|
    ensures IsKnown(vals, s[i].id)
  {
    assert s[i] in multiset(vals);
    var k :| 0 <= k < |vals| && vals[k] == s[i];
    assert vals[k].id == s[i].id;
  }

  // ----- The program's loops -----------------------------------------------------------------------------

  method StakeWeightedProposer(vals: seq<Validator>, height: int, hash: nat, le: Order) returns (c: Choice)
    ensures c == StakeWeighted(vals, height, hash, le)
  {
    var sorted := SortById(vals, le);
    if |sorted| == 0 { return EmptySet; }
    var totalStake := 0;
    for i := 0 to |sorted|
      invariant totalStake == TotalStake(sorted[..i])
    {
      assert sorted[..i + 1][..i] == sorted[..i];
      totalStake := totalStake + sorted[i].stake;
    }
    assert sorted[..|sorted|] == sorted;
    if totalStake == 0 {
      var index := Rem(height - 1, |sorted|);
      return if 0 <= index < |sorted| then Chosen(sorted[index].id) else NoSuchIndex;
    }
    var seed := hash % totalStake;
    var cumulative := 0;
    assert sorted[0..] == sorted;
    for i := 0 to |sorted|
      invariant cumulative <= seed
      invariant Walk(sorted[i..], seed - cumulative) == Walk(sorted, seed)
    {
      assert sorted[i..][1..] == sorted[i + 1..];
      cumulative := cumulative + sorted[i].stake;
      if seed < cumulative { return Chosen(sorted[i].id); }
    }
    return Chosen(sorted[0].id);
  }

  method ExpectedProposer(active: seq<Validator>, ids: seq<Id>, nodeId: Id, height: int, hash: nat, le: Order)
    returns (c: Choice)
    ensures c == Expected(active, ids, nodeId, height, hash, le)
  {
    if |active| > 0 {
      c := StakeWeightedProposer(active, height, hash, le);
      return;
    }
    if |ids| == 0 { return Chosen(nodeId); }
    var index := Rem(height - 1, |ids|);
    c := if 0 <= index < |ids| then Chosen(ids[index]) else NoSuchIndex;
  }
}
