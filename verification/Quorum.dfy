/** Values shared by the consensus modules: validators, blocks, votes and messages. */
module BftTypes {
  /** Validator ids, taken as already lower-cased. */
  type Id = string
  /** Block hashes and state roots, opaque strings. */
  type Hash = string

  datatype Option<+T> = None | Some(value: T)

  datatype Validator = Validator(id: Id, stake: nat)

  datatype Block = Block(number: int, hash: Hash, proposer: Id)

  datatype VoteKind = Propose | Prepare | Commit

  /** What a validator endorsed; the root is absent on the hash-only path. */
  datatype Vote = Vote(hash: Hash, root: Option<Hash>)

  datatype Msg = Msg(kind: VoteKind, height: int, hash: Hash, sender: Id, root: Option<Hash>)
}

/** Stake-weighted quorums: the reductions of the round code and their arithmetic. */
module Quorum {
  import opened BftTypes

  const MAX_SAFE_INTEGER: nat := 9007199254740991

  function TotalStake(vals: seq<Validator>): nat {
    if vals == [] then 0 else TotalStake(vals[..|vals| - 1]) + vals[|vals| - 1].stake
  }

  lemma {:induction false} TotalFromFront(vals: seq<Validator>)
    requires vals != []
    ensures TotalStake(vals) == vals[0].stake + TotalStake(vals[1..])
  {
    if |vals| > 1 {
      var front := vals[..|vals| - 1];
      TotalFromFront(front);
      assert front[1..] == vals[1..][..|vals| - 2];
    }
  }

  function QuorumThreshold(vals: seq<Validator>, relaxed: bool): nat {
    var total := TotalStake(vals);
    if total == 0 then MAX_SAFE_INTEGER
    else if relaxed then total * 2 / 3
    else total * 2 / 3 + 1
  }

  /** The lookup table of ids to stakes; a later entry for an id replaces an earlier one. */
  function StakeMap(vals: seq<Validator>): map<Id, nat> {
    if vals == [] then map[]
    else StakeMap(vals[..|vals| - 1])[vals[|vals| - 1].id := vals[|vals| - 1].stake]
  }

  function StakeOf(vals: seq<Validator>, id: Id): nat {
    var m := StakeMap(vals);
    if id in m then m[id] else 0
  }

  function AccumulatedStake(ids: seq<Id>, vals: seq<Validator>): nat {
    if ids == [] then 0
    else AccumulatedStake(ids[..|ids| - 1], vals) + StakeOf(vals, ids[|ids| - 1])
  }

  predicate HasQuorum(ids: seq<Id>, vals: seq<Validator>, relaxed: bool) {
    AccumulatedStake(ids, vals) >= QuorumThreshold(vals, relaxed)
  }

  predicate IsKnown(vals: seq<Validator>, id: Id) {
    exists i :: 0 <= i < |vals| && vals[i].id == id
  }

  ghost predicate Distinct<T>(s: seq<T>) {
    forall i, j :: 0 <= i < j < |s| ==> s[i] != s[j]
  }

  ghost function Elements<T>(s: seq<T>): set<T> {
    set x | x in s
  }

  /** Some listing of a set without repeats. */
  ghost function Listed(s: set<Id>): (r: seq<Id>)
    ensures Distinct(r) && forall id :: id in r <==> id in s
  {
    if s == {} then []
    else
      var x :| x in s;
      var rest := Listed(s - {x});
      assert forall i :: 0 <= i < |rest| ==> rest[i] in rest;
      [x] + rest
  }

  // ----- Quorums as sets of ids ---------------------------------------------------

  /** Stake carried by a set of ids, each id counted once with its last listed stake. */
  ghost function StakeIn(vals: seq<Validator>, ids: set<Id>): nat {
    if vals == [] then 0
    else
      var last := vals[|vals| - 1];
      (if last.id in ids then last.stake else 0) + StakeIn(vals[..|vals| - 1], ids - {last.id})
  }

  ghost predicate IsQuorum(vals: seq<Validator>, relaxed: bool, ids: set<Id>) {
    StakeIn(vals, ids) >= QuorumThreshold(vals, relaxed)
  }

  lemma {:induction false} StakeInSingleton(vals: seq<Validator>, id: Id)
    ensures StakeIn(vals, {id}) == StakeOf(vals, id)
  {
    if vals != [] {
      var rest, last := vals[..|vals| - 1], vals[|vals| - 1];
      if last.id == id {
        assert {id} - {last.id} == {};
        StakeInNone(rest);
      } else {
        assert {id} - {last.id} == {id};
        StakeInSingleton(rest, id);
      }
    }
  }

  lemma {:induction false} StakeInNone(vals: seq<Validator>)
    ensures StakeIn(vals, {}) == 0
  {
    if vals != [] {
      assert {} - {vals[|vals| - 1].id} == {};
      StakeInNone(vals[..|vals| - 1]);
    }
  }

  /** Stake is modular over sets of ids. */
  lemma {:induction false} StakeInModular(vals: seq<Validator>, a: set<Id>, b: set<Id>)
    ensures StakeIn(vals, a + b) + StakeIn(vals, a * b) == StakeIn(vals, a) + StakeIn(vals, b)
  {
    if vals != [] {
      var rest, x := vals[..|vals| - 1], vals[|vals| - 1].id;
      assert (a + b) - {x} == (a - {x}) + (b - {x});
      assert (a * b) - {x} == (a - {x}) * (b - {x});
      StakeInModular(rest, a - {x}, b - {x});
    }
  }

  lemma {:induction false} StakeInAtMostTotal(vals: seq<Validator>, a: set<Id>)
    ensures StakeIn(vals, a) <= TotalStake(vals)
  {
    if vals != [] {
      StakeInAtMostTotal(vals[..|vals| - 1], a - {vals[|vals| - 1].id});
    }
  }

  lemma StakeInMonotone(vals: seq<Validator>, a: set<Id>, b: set<Id>)
    requires a <= b
    ensures StakeIn(vals, a) <= StakeIn(vals, b)
  {
    StakeInModular(vals, a, b - a);
    assert a + (b - a) == b && a * (b - a) == {};
    StakeInNone(vals);
  }

  /** A duplicate-free list of voters weighs exactly what its set of ids weighs. */
  lemma {:induction false} AccumulatedStakeIsStakeIn(ids: seq<Id>, vals: seq<Validator>)
    requires Distinct(ids)
    ensures AccumulatedStake(ids, vals) == StakeIn(vals, Elements(ids))
    ensures HasQuorum(ids, vals, true) <==> IsQuorum(vals, true, Elements(ids))
    ensures HasQuorum(ids, vals, false) <==> IsQuorum(vals, false, Elements(ids))
  {
    if ids == [] {
      StakeInNone(vals);
      assert Elements(ids) == {};
    } else {
      var front, x := ids[..|ids| - 1], ids[|ids| - 1];
      AccumulatedStakeIsStakeIn(front, vals);
      assert Elements(ids) == Elements(front) + {x};
      assert Elements(front) * {x} == {};
      StakeInModular(vals, Elements(front), {x});
      StakeInSingleton(vals, x);
      StakeInNone(vals);
    }
  }

  /** Ids outside the validator set carry no stake. */
  lemma {:induction false} StakeInOnlyKnown(vals: seq<Validator>, a: set<Id>)
    ensures StakeIn(vals, a) == StakeIn(vals, a * Ids(vals))
  {
    if vals != [] {
      var rest, x := vals[..|vals| - 1], vals[|vals| - 1].id;
      assert x in Ids(vals);
      assert Ids(vals) == Ids(rest) + {x} by {
        forall y | y in Ids(vals) ensures y in Ids(rest) + {x} {
          var i :| 0 <= i < |vals| && vals[i].id == y;
          if i < |rest| { assert rest[i].id in Ids(rest); }
        }
        forall y | y in Ids(rest) ensures y in Ids(vals) {
          var i :| 0 <= i < |rest| && rest[i].id == y;
          assert vals[i].id in Ids(vals);
        }
      }
      StakeInOnlyKnown(rest, a - {x});
      StakeInOnlyKnown(rest, a * Ids(vals) - {x});
      assert (a - {x}) * Ids(rest) == (a * Ids(vals) - {x}) * Ids(rest);
    }
  }

  // ----- Intersection ------------------------------------------------------------

  /** Any two quorums share at least twice the threshold minus the total stake. */
  lemma QuorumOverlap(vals: seq<Validator>, relaxed: bool, a: set<Id>, b: set<Id>)
    requires IsQuorum(vals, relaxed, a) && IsQuorum(vals, relaxed, b)
    ensures StakeIn(vals, a * b) >= 2 * QuorumThreshold(vals, relaxed) - TotalStake(vals)
  {
    StakeInModular(vals, a, b);
    StakeInAtMostTotal(vals, a + b);
  }

  /** Two strict quorums share more than a third of all stake. */
  lemma StrictQuorumsShareAThird(vals: seq<Validator>, a: set<Id>, b: set<Id>)
    requires IsQuorum(vals, false, a) && IsQuorum(vals, false, b)
    ensures 3 * StakeIn(vals, a * b) > TotalStake(vals)
  {
    QuorumOverlap(vals, false, a, b);
    StakeInAtMostTotal(vals, a);
  }

  /** Stake held by validators outside the honest set. */
  ghost function FaultyStake(vals: seq<Validator>, honest: set<Id>): nat {
    StakeIn(vals, Ids(vals) - honest)
  }

  /** The fault budget: faulty stake below the guaranteed overlap of two quorums. */
  ghost predicate ToleratesFaults(vals: seq<Validator>, relaxed: bool, honest: set<Id>) {
    FaultyStake(vals, honest) < 2 * QuorumThreshold(vals, relaxed) - TotalStake(vals)
  }

  /** Within the fault budget any two quorums share an honest validator. */
  lemma QuorumsShareHonest(vals: seq<Validator>, relaxed: bool, honest: set<Id>, a: set<Id>, b: set<Id>) returns (k: Id)
    requires ToleratesFaults(vals, relaxed, honest)
    requires IsQuorum(vals, relaxed, a) && IsQuorum(vals, relaxed, b)
    ensures k in a && k in b && k in honest
  {
    QuorumOverlap(vals, relaxed, a, b);
    StakeInOnlyKnown(vals, a * b);
    if (a * b) * Ids(vals) <= Ids(vals) - honest {
      StakeInMonotone(vals, (a * b) * Ids(vals), Ids(vals) - honest);
    }
    k :| k in (a * b) * Ids(vals) && k !in Ids(vals) - honest;
  }

  /**
   * The budget in the terms the documentation uses: strict mode tolerates faulty stake below a
   * third of the total; relaxed mode tolerates no faulty stake, and needs a total of 3 or at least 5.
   */
  lemma FaultBudget(vals: seq<Validator>, honest: set<Id>)
    ensures 3 * FaultyStake(vals, honest) < TotalStake(vals) ==> ToleratesFaults(vals, false, honest)
    ensures FaultyStake(vals, honest) == 0 ==>
      (ToleratesFaults(vals, true, honest) <==> TotalStake(vals) !in {1, 2, 4})
  {
    StakeInAtMostTotal(vals, Ids(vals) - honest);
  }

  // ----- Two tables of stakes -----------------------------------------------------

  /** How much stake an id loses from one table to another. */
  function LossOf(v1: seq<Validator>, v2: seq<Validator>, id: Id): nat {
    if StakeOf(v1, id) > StakeOf(v2, id) then StakeOf(v1, id) - StakeOf(v2, id) else 0
  }

  ghost function Loss(v1: seq<Validator>, v2: seq<Validator>, ids: set<Id>): nat {
    if ids == {} then 0
    else
      var id :| id in ids;
      LossOf(v1, v2, id) + Loss(v1, v2, ids - {id})
  }

  lemma {:induction false} LossWithout(v1: seq<Validator>, v2: seq<Validator>, ids: set<Id>, id: Id)
    requires id in ids
    ensures Loss(v1, v2, ids) == LossOf(v1, v2, id) + Loss(v1, v2, ids - {id})
    decreases |ids|
  {
    hide LossOf;
    var first :| first in ids && Loss(v1, v2, ids) == LossOf(v1, v2, first) + Loss(v1, v2, ids - {first});
    if first != id {
      LossWithout(v1, v2, ids - {first}, id);
      LossWithout(v1, v2, ids - {id}, first);
      assert ids - {first} - {id} == ids - {id} - {first};
    }
  }

  lemma {:induction false} LossMonotone(v1: seq<Validator>, v2: seq<Validator>, a: set<Id>, b: set<Id>)
    requires a <= b
    ensures Loss(v1, v2, a) <= Loss(v1, v2, b)
    decreases |b|
  {
    hide LossOf;
    if b != {} {
      var id :| id in b;
      LossWithout(v1, v2, b, id);
      if id in a {
        LossWithout(v1, v2, a, id);
        LossMonotone(v1, v2, a - {id}, b - {id});
      } else {
        LossMonotone(v1, v2, a, b - {id});
      }
    }
  }

  /** A set of ids carries under the second table what it carries under the first, up to its losses. */
  lemma {:induction false} StakeUnderNewTable(v1: seq<Validator>, v2: seq<Validator>, ids: set<Id>)
    ensures StakeIn(v1, ids) <= StakeIn(v2, ids) + Loss(v1, v2, ids)
    decreases |ids|
  {
    StakeInNone(v1);
    StakeInNone(v2);
    if ids != {} {
      var id :| id in ids;
      LossWithout(v1, v2, ids, id);
      StakeUnderNewTable(v1, v2, ids - {id});
      assert {id} + (ids - {id}) == ids && {id} * (ids - {id}) == {};
      StakeInModular(v1, {id}, ids - {id});
      StakeInModular(v2, {id}, ids - {id});
      StakeInSingleton(v1, id);
      StakeInSingleton(v2, id);
    }
  }

  /** The fault budget across two tables: what validators lose counts like faulty stake. */
  ghost predicate ToleratesMove(v1: seq<Validator>, v2: seq<Validator>, relaxed: bool, honest: set<Id>) {
    FaultyStake(v2, honest) + Loss(v1, v2, Ids(v1)) < QuorumThreshold(v1, relaxed) + QuorumThreshold(v2, relaxed) - TotalStake(v2)
  }

  lemma QuorumsShareHonestAcross(v1: seq<Validator>, v2: seq<Validator>, relaxed: bool, honest: set<Id>, a: set<Id>, b: set<Id>)
      returns (k: Id)
    requires ToleratesMove(v1, v2, relaxed, honest) && a <= Ids(v1)
    requires IsQuorum(v1, relaxed, a) && IsQuorum(v2, relaxed, b)
    ensures k in a && k in b && k in honest
  {
    StakeUnderNewTable(v1, v2, a);
    LossMonotone(v1, v2, a, Ids(v1));
    StakeInModular(v2, a, b);
    StakeInAtMostTotal(v2, a + b);
    StakeInOnlyKnown(v2, a * b);
    if (a * b) * Ids(v2) <= Ids(v2) - honest {
      StakeInMonotone(v2, (a * b) * Ids(v2), Ids(v2) - honest);
    }
    k :| k in (a * b) * Ids(v2) && k !in Ids(v2) - honest;
  }

  /** With no stake at all nobody reaches quorum. */
  lemma NoQuorumWithoutStake(vals: seq<Validator>, relaxed: bool, a: set<Id>)
    requires TotalStake(vals) == 0
    ensures !IsQuorum(vals, relaxed, a)
  {
    StakeInAtMostTotal(vals, a);
  }

  function Ids(vals: seq<Validator>): set<Id> {
    set i | 0 <= i < |vals| :: vals[i].id
  }

  lemma KnownIds(vals: seq<Validator>, id: Id)
    ensures IsKnown(vals, id) <==> id in Ids(vals)
  {
  }

  /** The tables list the same members. */
  ghost predicate OneMembership(tables: set<seq<Validator>>) {
    forall v1, v2 :: v1 in tables && v2 in tables ==> Ids(v1) == Ids(v2)
  }

  ghost predicate DistinctIds(vals: seq<Validator>) {
    forall i, j :: 0 <= i < j < |vals| ==> vals[i].id != vals[j].id
  }

  /** When ids are distinct the whole set carries all stake, so it is a quorum unless there is none. */
  lemma {:induction false} FullSetStake(vals: seq<Validator>, ids: set<Id>)
    requires DistinctIds(vals) && Ids(vals) <= ids
    ensures StakeIn(vals, ids) == TotalStake(vals)
    ensures TotalStake(vals) > 0 ==> IsQuorum(vals, false, ids) && IsQuorum(vals, true, ids)
  {
    if vals != [] {
      var rest, x := vals[..|vals| - 1], vals[|vals| - 1].id;
      assert vals[|vals| - 1].id in Ids(vals);
      forall y | y in Ids(rest) ensures y in ids - {x} {
        var i :| 0 <= i < |rest| && rest[i].id == y;
        assert vals[i].id in Ids(vals);
      }
      FullSetStake(rest, ids - {x});
    }
  }

  /**
   * Relaxed quorums meet in some stake for every total except 1, 2 and 4; those three totals
   * admit validator sets in which two relaxed quorums have no stake in common.
   */
  lemma RelaxedQuorumsMeet(vals: seq<Validator>, a: set<Id>, b: set<Id>)
    requires TotalStake(vals) !in {1, 2, 4}
    requires IsQuorum(vals, true, a) && IsQuorum(vals, true, b)
    ensures StakeIn(vals, a * b) > 0
  {
    QuorumOverlap(vals, true, a, b);
    StakeInAtMostTotal(vals, a);
  }

  lemma RelaxedQuorumsCanBeDisjoint(total: nat) returns (vals: seq<Validator>, a: set<Id>, b: set<Id>)
    requires total in {1, 2, 4}
    ensures TotalStake(vals) == total && DistinctIds(vals)
    ensures IsQuorum(vals, true, a) && IsQuorum(vals, true, b) && a !! b
  {
    var half := total / 2;
    vals, a, b := [Validator("a", total - half), Validator("b", half)], {"a"}, {"b"};
    assert vals[..1] == [Validator("a", total - half)];
    assert vals[..1][..0] == [];
    assert TotalStake(vals[..1]) == total - half;
    assert StakeIn(vals[..1], {"a"}) == total - half;
    assert {"a"} - {"b"} == {"a"};
    assert StakeIn(vals, a) == total - half;
    assert {"b"} - {"b"} == {};
    StakeInNone(vals[..1]);
    assert StakeIn(vals, b) == half;
  }
}
