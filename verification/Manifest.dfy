/**
 * Scaling a reward manifest to a budget: proportional shares rounded down, then the units that are left,
 * one each, to the leaves with the largest claims. Then the plan and the settlement on the scaled leaves, and
 * exactly when no node can receive more than its cap.
 *
 * Comparing node ids is a parameter, as in the choice of a proposer: any total order.
 */
module Manifest {
  import opened Arithmetic
  import opened Quorum
  import opened Rewards
  import opened Settlement
  import Proposer

  type Order = Proposer.Order

  /** A claim as the manifest states it; only positive ones are paid. */
  datatype Leaf = Leaf(nodeId: NodeId, claim: int)

  // ----- Shares ----------------------------------------------------------------------------------

  function Share1(claim: int, budget: nat, total: nat): nat
    requires total > 0
  {
    if claim <= 0 then 0 else claim * budget / total
  }

  function Shares(ls: seq<Leaf>, budget: nat, total: nat): (rs: seq<Reward>)
    requires total > 0
    ensures |rs| == |ls|
    ensures forall i :: 0 <= i < |ls| ==> rs[i] == Reward(ls[i].nodeId, Share1(ls[i].claim, budget, total))
  {
    if ls == [] then []
    else
      var n := |ls| - 1;
      Shares(ls[..n], budget, total) + [Reward(ls[n].nodeId, Share1(ls[n].claim, budget, total))]
  }

  /** The claims that count, added up. */
  function Claims(ls: seq<Leaf>): nat {
    if ls == [] then 0 else Claims(ls[..|ls| - 1]) + if ls[|ls| - 1].claim > 0 then ls[|ls| - 1].claim else 0
  }

  function Claimants(ls: seq<Leaf>): nat {
    if ls == [] then 0 else Claimants(ls[..|ls| - 1]) + if ls[|ls| - 1].claim > 0 then 1 else 0
  }

  lemma Share1Bounds(claim: nat, budget: nat, total: nat)
    requires total > 0 && claim > 0
    ensures Share1(claim, budget, total) * total <= claim * budget
    ensures claim * budget <= Share1(claim, budget, total) * total + (total - 1)
  {
    var x := claim * budget;
    assert x == total * (x / total) + x % total;
  }

  /** Rounding down loses less than one unit per claimant. */
  lemma {:induction false} SharesBounds(ls: seq<Leaf>, budget: nat, total: nat)
    requires total > 0
    ensures Sum(Shares(ls, budget, total)) * total <= Claims(ls) * budget
    ensures Claims(ls) * budget <= Sum(Shares(ls, budget, total)) * total + Claimants(ls) * (total - 1)
  {
    if ls != [] {
      var n := |ls| - 1;
      var front, leaf := ls[..n], ls[n];
      var s := Share1(leaf.claim, budget, total);
      if leaf.claim > 0 {
        Share1Bounds(leaf.claim, budget, total);
      }
      hide Share1;
      SharesBounds(front, budget, total);
      AppendReward(Shares(front, budget, total), Reward(leaf.nodeId, s));
      assert Shares(ls, budget, total) == Shares(front, budget, total) + [Reward(leaf.nodeId, s)];
      hide Sum, Shares;
      if leaf.claim > 0 {
        OneMoreShare(Sum(Shares(front, budget, total)), s, Claims(front), leaf.claim, Claimants(front), budget, total);
      }
    }
  }

  lemma OneMoreShare(d: nat, s: nat, claims: nat, claim: nat, count: nat, budget: nat, total: nat)
    requires total > 0 && d * total <= claims * budget <= d * total + count * (total - 1)
    requires s * total <= claim * budget <= s * total + (total - 1)
    ensures (d + s) * total <= (claims + claim) * budget <= (d + s) * total + (count + 1) * (total - 1)
  {
    assert (d + s) * total == d * total + s * total;
    assert (claims + claim) * budget == claims * budget + claim * budget;
    assert (count + 1) * (total - 1) == count * (total - 1) + (total - 1);
  }

  // ----- Ranking ---------------------------------------------------------------------------------

  /** The larger claim first, then the smaller node id, then the earlier place. */
  predicate Ahead(ls: seq<Leaf>, i: nat, j: nat, le: Order)
    requires i < |ls| && j < |ls|
  {
    || ls[i].claim > ls[j].claim
    || (ls[i].claim == ls[j].claim && ls[i].nodeId != ls[j].nodeId && le(ls[i].nodeId, ls[j].nodeId))
    || (ls[i].claim == ls[j].claim && ls[i].nodeId == ls[j].nodeId && i <= j)
  }

  /** A list of places in the manifest. */
  predicate Places(ls: seq<Leaf>, order: seq<nat>) {
    forall k :: 0 <= k < |order| ==> order[k] < |ls|
  }

  function Insert(ls: seq<Leaf>, order: seq<nat>, x: nat, le: Order): (r: seq<nat>)
    requires x < |ls| && Places(ls, order)
    ensures |r| == |order| + 1 && Places(ls, r)
  {
    if order == [] then [x]
    else if Ahead(ls, order[0], x, le) then [order[0]] + Insert(ls, order[1..], x, le)
    else [x] + order
  }

  /** The first n places in rank order. */
  function Ranked(ls: seq<Leaf>, n: nat, le: Order): (order: seq<nat>)
    requires n <= |ls|
    ensures |order| == n && Places(ls, order)
  {
    if n == 0 then [] else Insert(ls, Ranked(ls, n - 1, le), n - 1, le)
  }

  lemma {:induction false} InsertHas(ls: seq<Leaf>, order: seq<nat>, x: nat, le: Order, y: nat)
    requires x < |ls| && Places(ls, order)
    ensures y in Insert(ls, order, x, le) <==> y == x || y in order
  {
    hide Ahead;
    if order != [] && Ahead(ls, order[0], x, le) {
      InsertHas(ls, order[1..], x, le, y);
      assert order == [order[0]] + order[1..];
    }
  }

  lemma {:induction false} RankedHas(ls: seq<Leaf>, n: nat, le: Order, y: nat)
    requires n <= |ls|
    ensures y in Ranked(ls, n, le) <==> y < n
  {
    if n > 0 {
      RankedHas(ls, n - 1, le, y);
      InsertHas(ls, Ranked(ls, n - 1, le), n - 1, le, y);
    }
  }

  ghost predicate InRank(ls: seq<Leaf>, order: seq<nat>, le: Order)
    requires Places(ls, order)
  {
    forall i, j :: 0 <= i < j < |order| ==> order[i] != order[j] && Ahead(ls, order[i], order[j], le)
  }

  lemma AheadTotal(ls: seq<Leaf>, i: nat, j: nat, le: Order)
    requires Proposer.IsTotalOrder(le) && i < |ls| && j < |ls|
    ensures Ahead(ls, i, j, le) || Ahead(ls, j, i, le)
  {
  }

  lemma AheadTransitive(ls: seq<Leaf>, i: nat, j: nat, k: nat, le: Order)
    requires Proposer.IsTotalOrder(le) && i < |ls| && j < |ls| && k < |ls| && Ahead(ls, i, j, le) && Ahead(ls, j, k, le)
    ensures Ahead(ls, i, k, le)
  {
  }

  /** Everything listed ranks behind the place. */
  ghost predicate AllBehind(ls: seq<Leaf>, x: nat, order: seq<nat>, le: Order)
    requires x < |ls| && Places(ls, order)
  {
    forall k :: 0 <= k < |order| ==> order[k] != x && Ahead(ls, x, order[k], le)
  }

  lemma {:induction false} InsertBehind(ls: seq<Leaf>, order: seq<nat>, x: nat, le: Order, first: nat)
    requires x < |ls| && first < |ls| && Places(ls, order)
    requires AllBehind(ls, first, order, le) && first != x && Ahead(ls, first, x, le)
    ensures AllBehind(ls, first, Insert(ls, order, x, le), le)
  {
    hide Ahead;
    if order != [] {
      InsertBehind(ls, order[1..], x, le, first);
    }
  }

  lemma {:induction false} InsertKeepsRank(ls: seq<Leaf>, order: seq<nat>, x: nat, le: Order)
    requires Proposer.IsTotalOrder(le) && Places(ls, order) && InRank(ls, order, le) && x < |ls| && x !in order
    ensures InRank(ls, Insert(ls, order, x, le), le)
  {
    hide Ahead, Proposer.IsTotalOrder;
    if order != [] {
      var first, rest := order[0], order[1..];
      assert AllBehind(ls, first, rest, le);
      if Ahead(ls, first, x, le) {
        InsertKeepsRank(ls, rest, x, le);
        InsertBehind(ls, rest, x, le, first);
      } else {
        AheadTotal(ls, first, x, le);
        forall i | 0 <= i < |order| ensures order[i] != x && Ahead(ls, x, order[i], le) {
          assert order[i] in order;
          if i > 0 { AheadTransitive(ls, x, first, order[i], le); }
        }
      }
    }
  }

  lemma {:induction false} RankedIsInRank(ls: seq<Leaf>, n: nat, le: Order)
    requires Proposer.IsTotalOrder(le) && n <= |ls|
    ensures InRank(ls, Ranked(ls, n, le), le)
  {
    if n > 0 {
      RankedIsInRank(ls, n - 1, le);
      RankedHas(ls, n - 1, le, n - 1);
      InsertKeepsRank(ls, Ranked(ls, n - 1, le), n - 1, le);
    }
  }

  /** How many of these places hold claims that count. */
  function Counting(ls: seq<Leaf>, order: seq<nat>): nat
    requires Places(ls, order)
  {
    if order == [] then 0 else (if ls[order[0]].claim > 0 then 1 else 0) + Counting(ls, order[1..])
  }

  lemma {:induction false} CountingInserted(ls: seq<Leaf>, order: seq<nat>, x: nat, le: Order)
    requires x < |ls| && Places(ls, order)
    ensures Counting(ls, Insert(ls, order, x, le)) == Counting(ls, order) + if ls[x].claim > 0 then 1 else 0
  {
    hide Ahead;
    if order != [] {
      var r := Insert(ls, order, x, le);
      if Ahead(ls, order[0], x, le) {
        CountingInserted(ls, order[1..], x, le);
        assert r[1..] == Insert(ls, order[1..], x, le);
      } else {
        assert r[1..] == order;
      }
    }
  }

  lemma {:induction false} CountingRanked(ls: seq<Leaf>, n: nat, le: Order)
    requires n <= |ls|
    ensures Counting(ls, Ranked(ls, n, le)) == Claimants(ls[..n])
  {
    if n > 0 {
      CountingRanked(ls, n - 1, le);
      CountingInserted(ls, Ranked(ls, n - 1, le), n - 1, le);
      assert ls[..n][..n - 1] == ls[..n - 1];
    }
  }

  // ----- The units that are left --------------------------------------------------------------------

  function PlusOne(rs: seq<Reward>, i: nat): (r: seq<Reward>)
    requires i < |rs|
  {
    rs[i := Reward(rs[i].nodeId, rs[i].amount + 1)]
  }

  /** One unit each to the claimants in this order, while there are any left. */
  function AddOnes(ls: seq<Leaf>, rs: seq<Reward>, order: seq<nat>, left: nat): (r: seq<Reward>)
    requires |rs| == |ls| && Places(ls, order)
    ensures |r| == |rs| && forall i :: 0 <= i < |rs| ==> r[i].nodeId == rs[i].nodeId
    decreases |order|
  {
    if order == [] || left == 0 then rs
    else if ls[order[0]].claim <= 0 then AddOnes(ls, rs, order[1..], left)
    else AddOnes(ls, PlusOne(rs, order[0]), order[1..], left - 1)
  }

  lemma {:induction false} AddOnesSum(ls: seq<Leaf>, rs: seq<Reward>, order: seq<nat>, left: nat)
    requires |rs| == |ls| && Places(ls, order)
    ensures Sum(AddOnes(ls, rs, order, left)) == Sum(rs) + Lesser(left, Counting(ls, order))
    decreases |order|
  {
    hide Sum;
    if order != [] && left > 0 {
      var i := order[0];
      if ls[i].claim <= 0 {
        AddOnesSum(ls, rs, order[1..], left);
      } else {
        SumUpdate(rs, i, PlusOne(rs, i)[i]);
        AddOnesSum(ls, PlusOne(rs, i), order[1..], left - 1);
      }
    }
  }

  /** Who received one of them. */
  ghost function Served(ls: seq<Leaf>, order: seq<nat>, left: nat): set<nat>
    requires Places(ls, order)
    decreases |order|
  {
    if order == [] || left == 0 then {}
    else if ls[order[0]].claim <= 0 then Served(ls, order[1..], left)
    else {order[0]} + Served(ls, order[1..], left - 1)
  }

  function LeftAfter(ls: seq<Leaf>, i: nat, left: nat): nat
    requires i < |ls|
  {
    if ls[i].claim <= 0 || left == 0 then left else left - 1
  }

  lemma {:induction false} ServedAreListed(ls: seq<Leaf>, order: seq<nat>, left: nat, p: nat)
    requires Places(ls, order) && p in Served(ls, order, left)
    ensures p in order && p < |ls| && ls[p].claim > 0
    decreases |order|
  {
    if p in Served(ls, order[1..], LeftAfter(ls, order[0], left)) {
      ServedAreListed(ls, order[1..], LeftAfter(ls, order[0], left), p);
    }
  }

  lemma {:induction false} AddOnesAmounts(ls: seq<Leaf>, rs: seq<Reward>, order: seq<nat>, left: nat, p: nat)
    requires |rs| == |ls| && Places(ls, order) && Distinct(order) && p < |ls|
    ensures AddOnes(ls, rs, order, left)[p].amount == rs[p].amount + if p in Served(ls, order, left) then 1 else 0
    decreases |order|
  {
    if order != [] && left > 0 {
      var i, rest := order[0], order[1..];
      assert i !in rest;
      if i in Served(ls, rest, LeftAfter(ls, i, left)) {
        ServedAreListed(ls, rest, LeftAfter(ls, i, left), i);
      }
      AddOnesAmounts(ls, if ls[i].claim <= 0 then rs else PlusOne(rs, i), rest, LeftAfter(ls, i, left), p);
    }
  }

  /** Whoever is served stands before every claimant who is not. */
  lemma {:induction false} ServedInOrder(ls: seq<Leaf>, order: seq<nat>, left: nat, a: nat, b: nat)
    requires Places(ls, order) && Distinct(order) && a < |order| && b < |order|
    requires order[a] in Served(ls, order, left) && order[b] !in Served(ls, order, left) && ls[order[b]].claim > 0
    ensures a < b
    decreases |order|
  {
    if a > 0 {
      var rest := order[1..];
      assert order[0] !in rest && rest[a - 1] == order[a];
      if b > 0 {
        assert rest[b - 1] == order[b];
        ServedInOrder(ls, rest, LeftAfter(ls, order[0], left), a - 1, b - 1);
      }
    }
  }

  // ----- The scaled manifest ----------------------------------------------------------------------------

  function Zeros(ls: seq<Leaf>): (rs: seq<Reward>)
    ensures |rs| == |ls| && forall i :: 0 <= i < |ls| ==> rs[i] == Reward(ls[i].nodeId, 0)
  {
    seq(|ls|, i requires 0 <= i < |ls| => Reward(ls[i].nodeId, 0))
  }

  function Scaled(ls: seq<Leaf>, budget: int, total: int, le: Order): (rs: seq<Reward>)
    ensures |rs| == |ls| && forall i :: 0 <= i < |ls| ==> rs[i].nodeId == ls[i].nodeId
  {
    if budget <= 0 || total <= 0 || ls == [] then Zeros(ls)
    else
      var rs := Shares(ls, budget, total);
      if Sum(rs) >= budget then rs else AddOnes(ls, rs, Ranked(ls, |ls|, le), budget - Sum(rs))
  }

  /** What the scaled leaves add up to: the rounded shares, and one unit more per claimant up to the budget. */
  lemma ScaledSum(ls: seq<Leaf>, budget: nat, total: nat, le: Order)
    requires budget > 0 && total > 0
    ensures var d := Sum(Shares(ls, budget, total));
      Sum(Scaled(ls, budget, total, le)) == if d >= budget then d else Lesser(budget, d + Claimants(ls))
  {
    hide Share1, AddOnes, Ranked, Counting;
    var rs := Shares(ls, budget, total);
    if ls == [] {
      assert rs == [] && Scaled(ls, budget, total, le) == [];
    } else if Sum(rs) < budget {
      AddOnesSum(ls, rs, Ranked(ls, |ls|, le), budget - Sum(rs));
      CountingRanked(ls, |ls|, le);
      assert ls[..|ls|] == ls;
    }
  }

  /** Scaling hits the budget exactly when the rounded shares leave no more than one unit per claimant. */
  lemma ScaledExactIff(ls: seq<Leaf>, budget: nat, total: nat, le: Order)
    requires budget > 0 && total > 0
    ensures Sum(Scaled(ls, budget, total, le)) == budget <==>
      Sum(Shares(ls, budget, total)) <= budget <= Sum(Shares(ls, budget, total)) + Claimants(ls)
  {
    hide Sum, Share1, Shares, Scaled, Claimants;
    ScaledSum(ls, budget, total, le);
  }

  /** If the claims add up to the stated total, all of the budget is given out and no more. */
  lemma ScaledIsExact(ls: seq<Leaf>, budget: nat, total: nat, le: Order)
    requires budget > 0 && total > 0 && Claims(ls) == total
    ensures Sum(Scaled(ls, budget, total, le)) == budget
  {
    hide Sum, Share1, Shares, Scaled, Claims, Claimants;
    SharesBounds(ls, budget, total);
    ScaledExactIff(ls, budget, total, le);
    NoMoreThan(Sum(Shares(ls, budget, total)), total, budget, total);
    NoLessThan(Sum(Shares(ls, budget, total)), Claimants(ls), budget, total);
  }

  lemma NoMoreThan(d: nat, claims: nat, budget: nat, total: nat)
    requires total > 0 && d * total <= claims * budget && claims <= total
    ensures d <= budget
  {
    MulMono(budget, claims, total);
    MulCancel(total, d, budget + 1) by {
      assert total * (budget + 1) == budget * total + total;
    }
  }

  lemma NoLessThan(d: nat, count: nat, budget: nat, total: nat)
    requires total > 0 && total * budget <= d * total + count * (total - 1)
    ensures budget <= d + count
  {
    assert count * (total - 1) == count * total - count;
    MulCancel(total, budget, d + count + 1) by {
      assert total * (d + count + 1) == d * total + count * total + total;
    }
  }

  /** No budget up to the total is ever exceeded exactly when the claims do not add up to more than the total. */
  lemma NeverOverIff(ls: seq<Leaf>, total: nat, le: Order)
    requires total > 0
    ensures (forall budget: nat :: 0 < budget <= total ==> Sum(Scaled(ls, budget, total, le)) <= budget) <==> Claims(ls) <= total
  {
    if Claims(ls) <= total {
      forall budget: nat | 0 < budget <= total ensures Sum(Scaled(ls, budget, total, le)) <= budget {
        NotOver(ls, budget, total, le);
      }
    } else {
      SharesOfAll(ls, total);
      ScaledSum(ls, total, total, le);
    }
  }

  lemma NotOver(ls: seq<Leaf>, budget: nat, total: nat, le: Order)
    requires budget > 0 && total > 0 && Claims(ls) <= total
    ensures Sum(Scaled(ls, budget, total, le)) <= budget
  {
    hide Sum, Share1, Shares, Scaled, Claims, Claimants;
    SharesBounds(ls, budget, total);
    ScaledSum(ls, budget, total, le);
    NoMoreThan(Sum(Shares(ls, budget, total)), Claims(ls), budget, total);
  }

  /** Scaled to the total itself, every claim stays what it is. */
  lemma {:induction false} SharesOfAll(ls: seq<Leaf>, total: nat)
    requires total > 0
    ensures Sum(Shares(ls, total, total)) == Claims(ls)
    ensures forall i :: 0 <= i < |ls| ==> Shares(ls, total, total)[i].amount == if ls[i].claim > 0 then ls[i].claim else 0
  {
    forall i | 0 <= i < |ls| && ls[i].claim > 0 ensures ls[i].claim * total / total == ls[i].claim {
      DivCancel(ls[i].claim, total);
    }
    if ls != [] {
      var n := |ls| - 1;
      SharesOfAll(ls[..n], total);
      AppendReward(Shares(ls[..n], total, total), Reward(ls[n].nodeId, Share1(ls[n].claim, total, total)));
    }
  }

  /** Each claimant receives its share rounded down or one unit more; nobody else receives anything. */
  lemma ScaledWithinOne(ls: seq<Leaf>, budget: nat, total: nat, le: Order, i: nat)
    requires budget > 0 && total > 0 && i < |ls| && Proposer.IsTotalOrder(le)
    ensures Share1(ls[i].claim, budget, total) <= Scaled(ls, budget, total, le)[i].amount <= Share1(ls[i].claim, budget, total) + 1
    ensures ls[i].claim <= 0 ==> Scaled(ls, budget, total, le)[i].amount == 0
  {
    var rs, order := Shares(ls, budget, total), Ranked(ls, |ls|, le);
    RankedIsInRank(ls, |ls|, le);
    assert Distinct(order);
    hide Sum, Ranked, AddOnes, Served;
    if Sum(rs) < budget {
      var left := budget - Sum(rs);
      AddOnesAmounts(ls, rs, order, left, i);
      if i in Served(ls, order, left) {
        ServedAreListed(ls, order, left, i);
      }
    }
  }

  /** The extra units go to the largest claims: whoever has one ranks before every claimant without. */
  lemma LargestFirst(ls: seq<Leaf>, budget: nat, total: nat, le: Order, i: nat, j: nat)
    requires budget > 0 && total > 0 && i < |ls| && j < |ls| && Proposer.IsTotalOrder(le) && ls[j].claim > 0
    requires Scaled(ls, budget, total, le)[i].amount > Share1(ls[i].claim, budget, total)
    requires Scaled(ls, budget, total, le)[j].amount == Share1(ls[j].claim, budget, total)
    ensures Ahead(ls, i, j, le) && ls[i].claim >= ls[j].claim
  {
    var rs, order := Shares(ls, budget, total), Ranked(ls, |ls|, le);
    RankedIsInRank(ls, |ls|, le);
    assert Distinct(order);
    hide Ranked, AddOnes, Served, Shares;
    var left := budget - Sum(rs);
    AddOnesAmounts(ls, rs, order, left, i);
    AddOnesAmounts(ls, rs, order, left, j);
    RankedHas(ls, |ls|, le, i);
    RankedHas(ls, |ls|, le, j);
    var a :| 0 <= a < |order| && order[a] == i;
    var b :| 0 <= b < |order| && order[b] == j;
    ServedInOrder(ls, order, left, a, b);
  }

  // ----- The program's loops -----------------------------------------------------------------------------

  method ScaleLeaves(ls: seq<Leaf>, budget: int, total: int, le: Order) returns (rs: seq<Reward>)
    ensures rs == Scaled(ls, budget, total, le)
  {
    hide Sum, Share1, Shares, Ranked, AddOnes;
    if budget <= 0 || total <= 0 || |ls| == 0 { return Zeros(ls); }
    var distributed;
    rs, distributed := ShareOut(ls, budget, total);
    if distributed < budget {
      rs := HandOutRest(ls, rs, budget - distributed, le);
    }
  }

  method ShareOut(ls: seq<Leaf>, budget: nat, total: nat) returns (rs: seq<Reward>, distributed: nat)
    requires total > 0
    ensures rs == Shares(ls, budget, total) && distributed == Sum(rs)
  {
    rs, distributed := [], 0;
    for i := 0 to |ls|
      invariant rs == Shares(ls[..i], budget, total) && distributed == Sum(rs)
    {
      var amount := Share1(ls[i].claim, budget, total);
      hide Share1, Sum;
      assert ls[..i + 1][..i] == ls[..i];
      AppendReward(rs, Reward(ls[i].nodeId, amount));
      rs := rs + [Reward(ls[i].nodeId, amount)];
      distributed := distributed + amount;
    }
    assert ls[..|ls|] == ls;
  }

  method HandOutRest(ls: seq<Leaf>, shares: seq<Reward>, rest: nat, le: Order) returns (rs: seq<Reward>)
    requires |shares| == |ls|
    ensures rs == AddOnes(ls, shares, Ranked(ls, |ls|, le), rest)
  {
    var ranked, left := Ranked(ls, |ls|, le), rest;
    rs := shares;
    assert ranked[0..] == ranked;
    for k := 0 to |ranked|
      invariant |rs| == |ls|
      invariant AddOnes(ls, shares, ranked, rest) == AddOnes(ls, rs, ranked[k..], left)
    {
      hide Ranked;
      assert ranked[k..][0] == ranked[k] && ranked[k..][1..] == ranked[k + 1..];
      if left == 0 { return; }
      if ls[ranked[k]].claim > 0 {
        rs := PlusOne(rs, ranked[k]);
        left := left - 1;
      }
    }
  }

  /** The leaves a plan works on: the manifest scaled to the budget, or to its own total if that is less. */
  function PlannedLeaves(ls: seq<Leaf>, total: int, budget: nat, le: Order): (rs: seq<Reward>)
    ensures |rs| == |ls| && forall i :: 0 <= i < |ls| ==> rs[i].nodeId == ls[i].nodeId
  {
    Scaled(ls, if budget < total then budget else total, total, le)
  }

  /** When the claims add up to the stated total, exactly the smaller of budget and total is planned for. */
  lemma PlannedAddsUp(ls: seq<Leaf>, total: nat, budget: nat, le: Order)
    requires Claims(ls) == total > 0
    ensures Sum(PlannedLeaves(ls, total, budget, le)) == Lesser(budget, total)
  {
    hide Sum, Scaled, Claims;
    if budget > 0 {
      ScaledIsExact(ls, Lesser(budget, total), total, le);
    } else {
      ZeroBudget(ls, total, le);
    }
  }

  lemma ZeroBudget(ls: seq<Leaf>, total: int, le: Order)
    ensures Sum(Scaled(ls, 0, total, le)) == 0
  {
    NothingAddsUp(Zeros(ls));
  }

  lemma {:induction false} NothingAddsUp(rs: seq<Reward>)
    requires forall i :: 0 <= i < |rs| ==> rs[i].amount == 0
    ensures Sum(rs) == 0
  {
    if rs != [] {
      NothingAddsUp(rs[..|rs| - 1]);
    }
  }

  method PlanFromManifest(ls: seq<Leaf>, total: int, budget: nat, active: set<NodeId>, le: Order) returns (p: Plan)
    ensures p == PlanAll(PlannedLeaves(ls, total, budget, le), budget, active)
    ensures PlanOk(p, budget)
  {
    var leaves := ScaleLeaves(ls, if budget < total then budget else total, total, le);
    p := PlanV1RewardDistribution(leaves, budget, active);
    PlanWithinBudget(leaves, budget, active);
  }

  // ----- When the cap per node holds ------------------------------------------------------------------------

  function SettleManifest(entries: seq<Entry>, ls: seq<Leaf>, total: int, active: set<NodeId>, pool: nat, bps: nat, le: Order): Merge {
    var budget := NodeBudget(pool, SumShares(Allocate(Batches(entries), pool, bps)));
    Settle(entries, PlannedLeaves(ls, total, budget, le), active, pool, bps)
  }

  function NamesOf(ls: seq<Leaf>): seq<NodeId> {
    seq(|ls|, i requires 0 <= i < |ls| => ls[i].nodeId)
  }

  /** No node receives more than the cap in all, whatever the manifest with these names claims. */
  ghost predicate CapHolds(names: seq<NodeId>, le: Order) {
    forall entries, ls, total, active, pool, bps, id :: NamesOf(ls) == names ==>
      SumFor(SettleManifest(entries, ls, total, active, pool, bps, le).rewards, id) <= Cap(pool)
  }

  /** The cap per node holds for all settlements exactly when the manifest names no node twice. */
  lemma CapPerNodeIff(names: seq<NodeId>, le: Order)
    ensures CapHolds(names, le) <==> Distinct(names)
  {
    if Distinct(names) {
      forall entries, ls, total, active, pool, bps, id | NamesOf(ls) == names
        ensures SumFor(SettleManifest(entries, ls, total, active, pool, bps, le).rewards, id) <= Cap(pool)
      {
        NamedOnce(entries, ls, total, active, pool, bps, le, id);
      }
    } else {
      var i, j :| 0 <= i < j < |names| && names[i] == names[j];
      NamedTwice(names, i, j, le);
    }
  }

  lemma NamedOnce(entries: seq<Entry>, ls: seq<Leaf>, total: int, active: set<NodeId>, pool: nat, bps: nat, le: Order, id: NodeId)
    requires Distinct(NamesOf(ls))
    ensures SumFor(SettleManifest(entries, ls, total, active, pool, bps, le).rewards, id) <= Cap(pool)
  {
    hide Scaled, Settle, Cap, SumFor, Listings, NodeBudget, Allocate, Batches;
    var leaves := PlannedLeaves(ls, total, NodeBudget(pool, SumShares(Allocate(Batches(entries), pool, bps))), le);
    assert forall i :: 0 <= i < |ls| ==> NamesOf(ls)[i] == leaves[i].nodeId;
    PaidOnce(entries, leaves, active, pool, bps, id);
  }

  lemma PaidOnce(entries: seq<Entry>, leaves: seq<Reward>, active: set<NodeId>, pool: nat, bps: nat, id: NodeId)
    requires DistinctNodes(leaves)
    ensures SumFor(Settle(entries, leaves, active, pool, bps).rewards, id) <= Cap(pool)
  {
    hide Settle, Cap, SumFor, Listings, AllWithin, DistinctNodes, Sum;
    ListedAtMostOnce(leaves, id);
    SettleWithinPool(entries, leaves, active, pool, bps);
    assert TimesListed(leaves, id) * Cap(pool) == Cap(pool);
  }

  lemma {:induction false} ListedAtMostOnce(rs: seq<Reward>, id: NodeId)
    requires DistinctNodes(rs)
    ensures Listings(rs, id) <= 1
  {
    if rs != [] {
      var n := |rs| - 1;
      ListedAtMostOnce(rs[..n], id);
      if rs[n].nodeId == id {
        Unlisted(rs[..n], id);
      }
    }
  }

  /** Claims of three thousand at two places of one name, nothing elsewhere. */
  function TwoClaims(names: seq<NodeId>, i: nat, j: nat): (ls: seq<Leaf>)
    ensures |ls| == |names| && NamesOf(ls) == names
  {
    seq(|names|, k requires 0 <= k < |names| => Leaf(names[k], if k == i || k == j then 3000 else 0))
  }

  function CountUpTo(i: nat, j: nat, n: nat): nat {
    (if i < n then 1 else 0) + (if j < n then 1 else 0)
  }

  lemma {:induction false} TwoClaimsAddUp(names: seq<NodeId>, i: nat, j: nat, n: nat)
    requires i < j < |names| && n <= |names|
    ensures Claims(TwoClaims(names, i, j)[..n]) == 3000 * CountUpTo(i, j, n)
  {
    if n > 0 {
      TwoClaimsAddUp(names, i, j, n - 1);
      assert TwoClaims(names, i, j)[..n][..n - 1] == TwoClaims(names, i, j)[..n - 1];
    }
  }

  lemma {:induction false} BothPaid(leaves: seq<Reward>, id: NodeId, i: nat, j: nat, n: nat)
    requires i < j < |leaves| && n <= |leaves| && leaves[i].nodeId == leaves[j].nodeId == id
    requires forall k :: 0 <= k < |leaves| ==> leaves[k].amount == if k == i || k == j then 3000 else 0
    ensures var p := PlanAll(leaves[..n], 10000, {id});
      SumFor(p.rewards, id) == p.total == 3000 * CountUpTo(i, j, n)
  {
    if n > 0 {
      BothPaid(leaves, id, i, j, n - 1);
      assert leaves[..n][..n - 1] == leaves[..n - 1] && leaves[..n][n - 1] == leaves[n - 1];
      var p, leaf := PlanAll(leaves[..n - 1], 10000, {id}), leaves[n - 1];
      assert PlanAll(leaves[..n], 10000, {id}) == PlanOne(p, leaf, 10000, {id});
      assert Cap(10000) == 3000;
      hide SumFor, Cap, PlanAll;
      if leaf.nodeId == id {
        PaysWhatIsLeft(p, id, leaf.amount, 10000);
      }
    }
  }

  lemma TwicePaid(names: seq<NodeId>, i: nat, j: nat, le: Order)
    requires i < j < |names| && names[i] == names[j]
    ensures SumFor(SettleManifest([], TwoClaims(names, i, j), 6000, {names[i]}, 10000, 0, le).rewards, names[i]) == 6000
  {
    hide Scaled, PlannedLeaves, SettleManifest, SumFor, PlanAll, TwoClaims;
    var ls, id := TwoClaims(names, i, j), names[i];
    TwoClaimsScaled(names, i, j, le);
    var leaves := PlannedLeaves(ls, 6000, 10000, le);
    BothPaid(leaves, id, i, j, |leaves|);
    assert leaves[..|leaves|] == leaves;
    WholePool(ls, 6000, {id}, 10000, le);
  }

  /** A name at two places can receive twice the cap. */
  lemma NamedTwice(names: seq<NodeId>, i: nat, j: nat, le: Order)
    requires i < j < |names| && names[i] == names[j]
    ensures SumFor(SettleManifest([], TwoClaims(names, i, j), 6000, {names[i]}, 10000, 0, le).rewards, names[i]) == 2 * Cap(10000)
    ensures !CapHolds(names, le)
  {
    hide SettleManifest, SumFor, TwoClaims;
    assert Cap(10000) == 3000;
    TwicePaid(names, i, j, le);
    assert NamesOf(TwoClaims(names, i, j)) == names;
  }

  /** Without challengers the whole pool is the budget. */
  lemma WholePool(ls: seq<Leaf>, total: int, active: set<NodeId>, pool: nat, le: Order)
    ensures SettleManifest([], ls, total, active, pool, 0, le).rewards ==
      PlanAll(PlannedLeaves(ls, total, pool, le), pool, active).rewards
  {
    assert Totals(Batches([])) == [];
    AllocateSum(Batches([]), pool, 0);
    hide PlannedLeaves, Settle, PlanAll, Allocate;
    NothingToMerge(PlannedLeaves(ls, total, pool, le), active, pool, 0);
  }

  lemma TwoClaimsScaled(names: seq<NodeId>, i: nat, j: nat, le: Order)
    requires i < j < |names|
    ensures forall k :: 0 <= k < |names| ==>
      PlannedLeaves(TwoClaims(names, i, j), 6000, 10000, le)[k] == Reward(names[k], if k == i || k == j then 3000 else 0)
  {
    var ls := TwoClaims(names, i, j);
    TwoClaimsAddUp(names, i, j, |names|);
    assert ls[..|names|] == ls;
    SharesOfAll(ls, 6000);
    assert PlannedLeaves(ls, 6000, 10000, le) == Shares(ls, 6000, 6000);
  }
}
