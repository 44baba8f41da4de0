/**
 * Planning node rewards from a budget and merging challenger rewards into the plan, and what the
 * whole settlement of an epoch guarantees about the pool.
 */
module Settlement {
  import opened Arithmetic
  import opened Rewards

  const MAX_PER_NODE_BPS: nat := 3000
  const BPS: nat := 10000

  function Cap(pool: nat): nat {
    pool * MAX_PER_NODE_BPS / BPS
  }

  function Sum(rs: seq<Reward>): nat {
    if rs == [] then 0 else Sum(rs[..|rs| - 1]) + rs[|rs| - 1].amount
  }

  predicate DistinctNodes(rs: seq<Reward>) {
    forall i, j :: 0 <= i < j < |rs| ==> rs[i].nodeId != rs[j].nodeId
  }

  function NodeIndex(rs: seq<Reward>, id: NodeId): (i: nat)
    ensures i <= |rs| && (i < |rs| ==> rs[i].nodeId == id)
    ensures forall j :: 0 <= j < i ==> rs[j].nodeId != id
  {
    if rs == [] || rs[0].nodeId == id then 0 else 1 + NodeIndex(rs[1..], id)
  }

  /** What a node receives: its first entry, or nothing. */
  function AmountFor(rs: seq<Reward>, id: NodeId): nat {
    var i := NodeIndex(rs, id);
    if i < |rs| then rs[i].amount else 0
  }

  lemma {:induction false} SumUpdate(rs: seq<Reward>, k: nat, r: Reward)
    requires k < |rs|
    ensures Sum(rs[k := r]) == Sum(rs) - rs[k].amount + r.amount
  {
    var n := |rs| - 1;
    if k == n {
      assert rs[k := r][..n] == rs[..n];
    } else {
      assert rs[k := r][..n] == rs[..n][k := r];
      SumUpdate(rs[..n], k, r);
    }
  }

  // ----- The plan ----------------------------------------------------------------------------------

  datatype Plan = Plan(rewards: seq<Reward>, total: nat, inactive: seq<NodeId>)

  function PlanOne(p: Plan, leaf: Reward, budget: nat, active: set<NodeId>): Plan {
    if leaf.nodeId !in active then p.(inactive := p.inactive + [leaf.nodeId])
    else
      var capped := if leaf.amount > Cap(budget) then Cap(budget) else leaf.amount;
      var amount: int := if p.total + capped > budget then budget - p.total else capped;
      if amount <= 0 then p
      else p.(rewards := p.rewards + [Reward(leaf.nodeId, amount)], total := p.total + amount)
  }

  function PlanAll(leaves: seq<Reward>, budget: nat, active: set<NodeId>): Plan {
    if leaves == [] then Plan([], 0, [])
    else PlanOne(PlanAll(leaves[..|leaves| - 1], budget, active), leaves[|leaves| - 1], budget, active)
  }

  predicate PlanOk(p: Plan, budget: nat) {
    && p.total == Sum(p.rewards) <= budget
    && forall i :: 0 <= i < |p.rewards| ==> 0 < p.rewards[i].amount <= Cap(budget)
  }

  lemma AppendReward(rs: seq<Reward>, r: Reward)
    ensures Sum(rs + [r]) == Sum(rs) + r.amount
  {
    assert (rs + [r])[..|rs|] == rs;
  }

  /** The plan's total is what it pays out, within the budget and the cap per node. */
  lemma {:induction false} PlanWithinBudget(leaves: seq<Reward>, budget: nat, active: set<NodeId>)
    ensures PlanOk(PlanAll(leaves, budget, active), budget)
  {
    if leaves != [] {
      var n := |leaves| - 1;
      PlanWithinBudget(leaves[..n], budget, active);
      var p, next := PlanAll(leaves[..n], budget, active), PlanAll(leaves, budget, active);
      if next.rewards != p.rewards {
        AppendReward(p.rewards, next.rewards[|p.rewards|]);
        assert next.rewards == p.rewards + [next.rewards[|p.rewards|]];
      }
    }
  }

  /** How often a node is listed. */
  function Listings(rs: seq<Reward>, id: NodeId): nat {
    if rs == [] then 0 else Listings(rs[..|rs| - 1], id) + if rs[|rs| - 1].nodeId == id then 1 else 0
  }

  /** What a node receives in all its entries together. */
  function SumFor(rs: seq<Reward>, id: NodeId): nat {
    if rs == [] then 0 else SumFor(rs[..|rs| - 1], id) + if rs[|rs| - 1].nodeId == id then rs[|rs| - 1].amount else 0
  }

  lemma AppendListing(rs: seq<Reward>, r: Reward)
    ensures forall id :: Listings(rs + [r], id) == Listings(rs, id) + if r.nodeId == id then 1 else 0
  {
    assert (rs + [r])[..|rs|] == rs;
  }

  lemma {:induction false} SameListings(a: seq<Reward>, b: seq<Reward>, id: NodeId)
    requires |a| == |b| && forall i :: 0 <= i < |a| ==> a[i].nodeId == b[i].nodeId
    ensures Listings(a, id) == Listings(b, id)
  {
    if a != [] {
      SameListings(a[..|a| - 1], b[..|b| - 1], id);
    }
  }

  lemma {:induction false} Unlisted(rs: seq<Reward>, id: NodeId)
    requires forall i :: 0 <= i < |rs| ==> rs[i].nodeId != id
    ensures Listings(rs, id) == 0
  {
    if rs != [] {
      Unlisted(rs[..|rs| - 1], id);
    }
  }

  lemma {:induction false} SumForWithin(rs: seq<Reward>, id: NodeId, cap: nat)
    requires AllWithin(rs, cap)
    ensures SumFor(rs, id) <= Listings(rs, id) * cap
  {
    if rs != [] {
      var n := |rs| - 1;
      SumForWithin(rs[..n], id, cap);
      if rs[n].nodeId == id {
        assert Listings(rs, id) * cap == Listings(rs[..n], id) * cap + cap;
      }
    }
  }

  lemma {:induction false} SumForAtMostSum(rs: seq<Reward>, id: NodeId)
    ensures SumFor(rs, id) <= Sum(rs)
  {
    if rs != [] {
      SumForAtMostSum(rs[..|rs| - 1], id);
    }
  }

  /** Each paid node is an active leaf, in order; leaves that name no node twice give such a plan. */
  lemma {:induction false} PlanFromLeaves(leaves: seq<Reward>, budget: nat, active: set<NodeId>)
    ensures DistinctNodes(leaves) ==> DistinctNodes(PlanAll(leaves, budget, active).rewards)
    ensures forall r :: r in PlanAll(leaves, budget, active).rewards ==>
      r.nodeId in active && exists i :: 0 <= i < |leaves| && leaves[i].nodeId == r.nodeId && r.amount <= leaves[i].amount
  {
    if leaves != [] {
      var n := |leaves| - 1;
      var rest, leaf := leaves[..n], leaves[n];
      PlanFromLeaves(rest, budget, active);
      var p, next := PlanAll(rest, budget, active), PlanAll(leaves, budget, active);
      forall r | r in next.rewards
        ensures r.nodeId in active
        ensures exists i :: 0 <= i < |leaves| && leaves[i].nodeId == r.nodeId && r.amount <= leaves[i].amount
      {
        if r in p.rewards {
          var i :| 0 <= i < |rest| && rest[i].nodeId == r.nodeId && r.amount <= rest[i].amount;
          assert leaves[i] == rest[i];
        } else {
          assert leaves[n].nodeId == r.nodeId && r.amount <= leaves[n].amount;
        }
      }
      forall i | DistinctNodes(leaves) && 0 <= i < |p.rewards| ensures p.rewards[i].nodeId != leaf.nodeId {
        assert p.rewards[i] in p.rewards;
        var j :| 0 <= j < |rest| && rest[j].nodeId == p.rewards[i].nodeId && p.rewards[i].amount <= rest[j].amount;
        assert leaves[j].nodeId != leaves[n].nodeId;
      }
    }
  }

  /** The plan lists a node no more often than the leaves name it. */
  lemma {:induction false} PlanListings(leaves: seq<Reward>, budget: nat, active: set<NodeId>)
    ensures forall id :: Listings(PlanAll(leaves, budget, active).rewards, id) <= Listings(leaves, id)
  {
    if leaves != [] {
      var n := |leaves| - 1;
      PlanListings(leaves[..n], budget, active);
      var p, next := PlanAll(leaves[..n], budget, active), PlanAll(leaves, budget, active);
      if next.rewards != p.rewards {
        AppendListing(p.rewards, next.rewards[|p.rewards|]);
        assert next.rewards == p.rewards + [next.rewards[|p.rewards|]];
      }
    }
  }

  function Lesser(a: nat, b: nat): nat {
    if a <= b then a else b
  }

  /** What each active leaf is due: its amount, cut at the cap. */
  function Due(leaves: seq<Reward>, budget: nat, active: set<NodeId>): seq<Reward> {
    if leaves == [] then []
    else
      var n := |leaves| - 1;
      var leaf := leaves[n];
      var amount := Lesser(leaf.amount, Cap(budget));
      Due(leaves[..n], budget, active) + if leaf.nodeId in active && amount > 0 then [Reward(leaf.nodeId, amount)] else []
  }

  /** The plan pays all that is due, or else the whole budget: until it runs out every active leaf gets its due. */
  lemma {:induction false} PlanPaysWhatIsDue(leaves: seq<Reward>, budget: nat, active: set<NodeId>)
    ensures var p, due := PlanAll(leaves, budget, active), Due(leaves, budget, active);
      p.total == Lesser(Sum(due), budget) && (Sum(due) <= budget ==> p.rewards == due)
  {
    if leaves != [] {
      var n := |leaves| - 1;
      PlanPaysWhatIsDue(leaves[..n], budget, active);
      var leaf, amount, before := leaves[n], Lesser(leaves[n].amount, Cap(budget)), Due(leaves[..n], budget, active);
      AppendReward(before, Reward(leaf.nodeId, amount));
      PaysDue(PlanAll(leaves[..n], budget, active), leaf, budget, active);
      hide PlanOne, Sum, Cap;
      assert before + [] == before;
    }
  }

  lemma PaysDue(p: Plan, leaf: Reward, budget: nat, active: set<NodeId>)
    requires p.total <= budget
    ensures var next, amount := PlanOne(p, leaf, budget, active), Lesser(leaf.amount, Cap(budget));
      if leaf.nodeId in active && amount > 0
      then
        && next.total == Lesser(p.total + amount, budget)
        && (p.total + amount <= budget ==> next.rewards == p.rewards + [Reward(leaf.nodeId, amount)])
      else next.total == p.total && next.rewards == p.rewards
  {
    hide Cap;
  }

  method PlanV1RewardDistribution(leaves: seq<Reward>, budget: nat, active: set<NodeId>) returns (p: Plan)
    ensures p == PlanAll(leaves, budget, active)
  {
    var maxPerNode := budget * 3000 / 10000;
    var rewards: seq<Reward> := [];
    var inactive: seq<NodeId> := [];
    var total := 0;
    for i := 0 to |leaves|
      invariant Plan(rewards, total, inactive) == PlanAll(leaves[..i], budget, active)
    {
      assert leaves[..i + 1][..i] == leaves[..i];
      var leaf := leaves[i];
      if leaf.nodeId !in active {
        inactive := inactive + [leaf.nodeId];
        continue;
      }
      var amount: int := leaf.amount;
      if amount > maxPerNode { amount := maxPerNode; }
      if total + amount > budget { amount := budget - total; }
      if amount <= 0 { continue; }
      rewards := rewards + [Reward(leaf.nodeId, amount)];
      total := total + amount;
    }
    assert leaves[..|leaves|] == leaves;
    p := Plan(rewards, total, inactive);
  }

  // ----- The merge ----------------------------------------------------------------------------------

  datatype Applied = Applied(entry: Entry, amount: nat)
  datatype Reason = CapReached | PoolExhausted
  datatype Skipped = Skipped(entry: Entry, reward: nat, reason: Reason)

  datatype Merge = Merge(rewards: seq<Reward>, total: nat, applied: seq<Applied>, skipped: seq<Skipped>)

  /** What a challenger was allocated. */
  function Lookup(shares: seq<Share>, a: Address): nat {
    if shares == [] then 0 else if shares[0].address == a then shares[0].amount else Lookup(shares[1..], a)
  }

  /** The first share under an address is the only one, so it is all that was allocated there. */
  lemma {:induction false} LookupOfShares(ts: seq<Tally>, pool: nat, total: nat, distributed: nat, a: Address)
    requires total > 0 && DistinctTallies(ts)
    ensures Lookup(Shares(ts, pool, total, distributed), a) == AmountTo(Shares(ts, pool, total, distributed), a)
    decreases |ts|
  {
    hide Floor;
    if |ts| > 1 {
      var reward := Floor(pool, ts[0].count, total);
      var rest := Shares(ts[1..], pool, total, distributed + reward);
      LookupOfShares(ts[1..], pool, total, distributed + reward, a);
      if reward > 0 {
        assert ([Share(ts[0].address, reward)] + rest)[1..] == rest;
        NoShare(ts[1..], pool, total, distributed + reward, ts[0].address);
      }
    }
  }

  /** What the merge takes as a challenger's reward is what was allocated to it. */
  lemma LookupIsAllocated(batches: seq<Tally>, pool: nat, bps: nat, a: Address)
    ensures Lookup(Allocate(batches, pool, bps), a) == AmountTo(Allocate(batches, pool, bps), a)
  {
    if batches != [] && ChallengerPool(pool, bps) > 0 && SumCounts(batches) > 0 {
      TotalsKeepCounts(batches);
      hide Totals, Shares, SumCounts, ChallengerPool, Lookup, AmountTo, DistinctTallies;
      LookupOfShares(Totals(batches), ChallengerPool(pool, bps), SumCounts(batches), 0, a);
    }
  }

  /** The amount that fits under the cap and in the pool; not positive when the pool is used up. */
  function Fitting(m: Merge, existing: nat, reward: nat, pool: nat): int {
    var capped := if existing + reward > Cap(pool) then Cap(pool) - existing else reward;
    if m.total + capped > pool then pool - m.total else capped
  }

  function Paid(rs: seq<Reward>, id: NodeId, amount: nat): seq<Reward> {
    var k := NodeIndex(rs, id);
    if k < |rs| then rs[k := Reward(id, rs[k].amount + amount)] else rs + [Reward(id, amount)]
  }

  function MergeOne(m: Merge, e: Entry, reward: nat, pool: nat): Merge {
    var existing := AmountFor(m.rewards, e.nodeId);
    if reward == 0 then m
    else if existing >= Cap(pool) then m.(skipped := m.skipped + [Skipped(e, reward, CapReached)])
    else
      var amount := Fitting(m, existing, reward, pool);
      if amount <= 0 then m.(skipped := m.skipped + [Skipped(e, reward, PoolExhausted)])
      else m.(rewards := Paid(m.rewards, e.nodeId, amount), total := m.total + amount,
              applied := m.applied + [Applied(e, amount)])
  }

  function MergeAll(plan: Plan, entries: seq<Entry>, shares: seq<Share>, pool: nat): Merge {
    if entries == [] then Merge(plan.rewards, plan.total, [], [])
    else
      var e := entries[|entries| - 1];
      MergeOne(MergeAll(plan, entries[..|entries| - 1], shares, pool), e, Lookup(shares, e.address), pool)
  }

  method MergeChallengerRewards(plan: Plan, entries: seq<Entry>, shares: seq<Share>, pool: nat) returns (m: Merge)
    ensures m == MergeAll(plan, entries, shares, pool)
  {
    m := Merge(plan.rewards, plan.total, [], []);
    for i := 0 to |entries|
      invariant m == MergeAll(plan, entries[..i], shares, pool)
    {
      hide MergeOne;
      assert entries[..i + 1][..i] == entries[..i];
      m := MergeEntry(m, entries[i], Lookup(shares, entries[i].address), pool);
    }
    assert entries[..|entries|] == entries;
  }

  /** One turn of the merge loop. */
  method MergeEntry(m: Merge, entry: Entry, reward: nat, pool: nat) returns (next: Merge)
    ensures next == MergeOne(m, entry, reward, pool)
  {
    next := m;
    if reward <= 0 { return; }
    var maxPerNode := pool * 3000 / 10000;
    var k := NodeIndex(m.rewards, entry.nodeId);
    var existing := if k < |m.rewards| then m.rewards[k].amount else 0;
    var amount: int := reward;
    if existing >= maxPerNode {
      next := m.(skipped := m.skipped + [Skipped(entry, reward, CapReached)]);
      return;
    }
    if existing + amount > maxPerNode { amount := maxPerNode - existing; }
    if m.total + amount > pool { amount := pool - m.total; }
    if amount <= 0 {
      next := m.(skipped := m.skipped + [Skipped(entry, reward, PoolExhausted)]);
      return;
    }
    var rewards := if k < |m.rewards| then m.rewards[k := Reward(entry.nodeId, existing + amount)]
                   else m.rewards + [Reward(entry.nodeId, amount)];
    next := Merge(rewards, m.total + amount, m.applied + [Applied(entry, amount)], m.skipped);
  }

  // What one payment does

  lemma PaidSum(rs: seq<Reward>, id: NodeId, amount: nat)
    ensures Sum(Paid(rs, id, amount)) == Sum(rs) + amount
  {
    var k := NodeIndex(rs, id);
    if k < |rs| {
      SumUpdate(rs, k, Reward(id, rs[k].amount + amount));
    } else {
      AppendReward(rs, Reward(id, amount));
    }
  }

  lemma PaidAmounts(rs: seq<Reward>, id: NodeId, amount: nat, other: NodeId)
    ensures AmountFor(Paid(rs, id, amount), other) == AmountFor(rs, other) + if other == id then amount else 0
    ensures DistinctNodes(rs) ==> DistinctNodes(Paid(rs, id, amount))
  {
    var next := Paid(rs, id, amount);
    var k, i, j := NodeIndex(rs, id), NodeIndex(rs, other), NodeIndex(next, other);
    assert forall x :: 0 <= x < |rs| ==> next[x].nodeId == rs[x].nodeId;
    if i < |rs| {
      assert next[i].nodeId == other;
    } else if other == id {
      assert next[|rs|].nodeId == other;
    }
    assert i < |rs| || other == id ==> i == j;
  }

  // Over the whole merge

  /** The amounts paid sum to the running total, which stays within the pool. */
  lemma {:induction false} MergeConserves(plan: Plan, entries: seq<Entry>, shares: seq<Share>, pool: nat)
    requires plan.total == Sum(plan.rewards) <= pool
    ensures var m := MergeAll(plan, entries, shares, pool);
      m.total == Sum(m.rewards) <= pool && m.total == plan.total + AppliedSum(m.applied)
  {
    if entries != [] {
      var n := |entries| - 1;
      var e := entries[n];
      var before := MergeAll(plan, entries[..n], shares, pool);
      MergeConserves(plan, entries[..n], shares, pool);
      var existing := AmountFor(before.rewards, e.nodeId);
      var amount := Fitting(before, existing, Lookup(shares, e.address), pool);
      if amount > 0 {
        PaidSum(before.rewards, e.nodeId, amount);
        AppendApplied(before.applied, Applied(e, amount));
      }
    }
  }

  function AppliedSum(applied: seq<Applied>): nat {
    if applied == [] then 0 else AppliedSum(applied[..|applied| - 1]) + applied[|applied| - 1].amount
  }

  lemma AppendApplied(applied: seq<Applied>, a: Applied)
    ensures AppliedSum(applied + [a]) == AppliedSum(applied) + a.amount
    ensures forall id :: AppliedTo(applied + [a], id) == AppliedTo(applied, id) + if a.entry.nodeId == id then a.amount else 0
  {
    assert (applied + [a])[..|applied|] == applied;
  }

  /** What was applied to one node. */
  function AppliedTo(applied: seq<Applied>, id: NodeId): nat {
    if applied == [] then 0
    else
      var before, last := AppliedTo(applied[..|applied| - 1], id), applied[|applied| - 1];
      if last.entry.nodeId == id then before + last.amount else before
  }

  /**
   * Node by node: a node ends with its planned amount plus what was applied to it, is never lifted
   * above the cap, and no node is listed twice if none was.
   */
  lemma {:induction false} MergeNodeByNode(plan: Plan, entries: seq<Entry>, shares: seq<Share>, pool: nat, id: NodeId)
    ensures var m := MergeAll(plan, entries, shares, pool);
      && AmountFor(m.rewards, id) == AmountFor(plan.rewards, id) + AppliedTo(m.applied, id)
      && (AppliedTo(m.applied, id) > 0 ==> AmountFor(m.rewards, id) <= Cap(pool))
      && (DistinctNodes(plan.rewards) ==> DistinctNodes(m.rewards))
  {
    if entries != [] {
      var n := |entries| - 1;
      hide MergeOne, AmountFor, Cap, DistinctNodes, AppliedTo;
      MergeNodeByNode(plan, entries[..n], shares, pool, id);
      OneByNode(MergeAll(plan, entries[..n], shares, pool), entries[n], Lookup(shares, entries[n].address), pool, id);
    }
  }

  lemma OneByNode(m: Merge, e: Entry, reward: nat, pool: nat, id: NodeId)
    ensures var next := MergeOne(m, e, reward, pool);
      && AmountFor(next.rewards, id) - AppliedTo(next.applied, id) == AmountFor(m.rewards, id) - AppliedTo(m.applied, id)
      && AppliedTo(next.applied, id) >= AppliedTo(m.applied, id)
      && (AppliedTo(next.applied, id) > AppliedTo(m.applied, id) ==> AmountFor(next.rewards, id) <= Cap(pool))
      && (DistinctNodes(m.rewards) ==> DistinctNodes(next.rewards))
  {
    hide AmountFor, Paid, Cap, DistinctNodes;
    var existing := AmountFor(m.rewards, e.nodeId);
    var amount := Fitting(m, existing, reward, pool);
    if amount > 0 {
      PaidAmounts(m.rewards, e.nodeId, amount, id);
      AppendApplied(m.applied, Applied(e, amount));
    }
  }

  /** Why an entry got less than its reward: the node is at the cap, or the pool is used up. */
  ghost predicate NoRoom(m: Merge, id: NodeId, pool: nat) {
    AmountFor(m.rewards, id) == Cap(pool) || m.total == pool
  }

  ghost predicate PaidMost(m: Merge, shares: seq<Share>, pool: nat) {
    && (forall a :: a in m.applied ==> a.amount == Lookup(shares, a.entry.address) || NoRoom(m, a.entry.nodeId, pool))
    && (forall s :: s in m.skipped ==>
          && (s.reason == CapReached ==> AmountFor(m.rewards, s.entry.nodeId) >= Cap(pool))
          && (s.reason == PoolExhausted ==> m.total == pool))
  }

  /**
   * Nothing that could be paid is held back: in the end every entry has its whole reward, or its node is at the
   * cap, or the pool is used up, and an entry is skipped only for the reason it is given.
   */
  lemma {:induction false} MergePaysMost(plan: Plan, entries: seq<Entry>, shares: seq<Share>, pool: nat)
    requires plan.total <= pool
    ensures PaidMost(MergeAll(plan, entries, shares, pool), shares, pool)
    ensures MergeAll(plan, entries, shares, pool).total <= pool
  {
    if entries != [] {
      var n := |entries| - 1;
      hide MergeOne, PaidMost;
      MergePaysMost(plan, entries[..n], shares, pool);
      OnePaysMost(MergeAll(plan, entries[..n], shares, pool), entries[n], shares, pool);
    } else {
      assert PaidMost(Merge(plan.rewards, plan.total, [], []), shares, pool);
    }
  }

  /** What one turn does to its node: the smallest of the reward, the room under the cap and the rest of the pool. */
  lemma OneTurn(m: Merge, e: Entry, reward: nat, pool: nat)
    requires m.total <= pool
    ensures var next, was := MergeOne(m, e, reward, pool), AmountFor(m.rewards, e.nodeId);
      var room := if was >= Cap(pool) then 0 else Cap(pool) - was;
      var paid := Lesser(Lesser(reward, room), pool - m.total);
      && next.total == m.total + paid
      && (forall id :: AmountFor(next.rewards, id) == AmountFor(m.rewards, id) + if id == e.nodeId then paid else 0)
      && (if paid > 0 then next.applied == m.applied + [Applied(e, paid)] && next.skipped == m.skipped
          else
            && next.applied == m.applied && next.rewards == m.rewards
            && next.skipped == m.skipped + if reward == 0 then []
                                           else [Skipped(e, reward, if room == 0 then CapReached else PoolExhausted)])
  {
    var was := AmountFor(m.rewards, e.nodeId);
    hide AmountFor, Paid, Cap;
    var amount := Fitting(m, was, reward, pool);
    if reward > 0 && was < Cap(pool) && amount > 0 {
      forall id ensures AmountFor(Paid(m.rewards, e.nodeId, amount), id) == AmountFor(m.rewards, id) + if id == e.nodeId then amount else 0 {
        PaidAmounts(m.rewards, e.nodeId, amount, id);
      }
    }
  }

  lemma OnePaysMost(m: Merge, e: Entry, shares: seq<Share>, pool: nat)
    requires m.total <= pool && PaidMost(m, shares, pool)
    ensures PaidMost(MergeOne(m, e, Lookup(shares, e.address), pool), shares, pool)
    ensures MergeOne(m, e, Lookup(shares, e.address), pool).total <= pool
  {
    var reward := Lookup(shares, e.address);
    var next := MergeOne(m, e, reward, pool);
    OneTurn(m, e, reward, pool);
    hide MergeOne, AmountFor, Cap, Lookup;
    forall a | a in next.applied ensures a.amount == Lookup(shares, a.entry.address) || NoRoom(next, a.entry.nodeId, pool) {
      assert a in m.applied || a == next.applied[|m.applied|];
    }
    forall s | s in next.skipped
      ensures s.reason == CapReached ==> AmountFor(next.rewards, s.entry.nodeId) >= Cap(pool)
      ensures s.reason == PoolExhausted ==> next.total == pool
    {
      assert s in m.skipped || s == next.skipped[|m.skipped|];
    }
  }

  /** The entries with something to settle. */
  function Rewarded(entries: seq<Entry>, shares: seq<Share>): seq<Entry> {
    if entries == [] then []
    else
      var before, e := Rewarded(entries[..|entries| - 1], shares), entries[|entries| - 1];
      if Lookup(shares, e.address) == 0 then before else before + [e]
  }

  function AppliedEntries(applied: seq<Applied>): multiset<Entry> {
    if applied == [] then multiset{}
    else AppliedEntries(applied[..|applied| - 1]) + multiset{applied[|applied| - 1].entry}
  }

  function SkippedEntries(skipped: seq<Skipped>): multiset<Entry> {
    if skipped == [] then multiset{}
    else SkippedEntries(skipped[..|skipped| - 1]) + multiset{skipped[|skipped| - 1].entry}
  }

  /** Every positive reward is settled once: applied or skipped, never both and never dropped. */
  lemma {:induction false} EachSettledOnce(plan: Plan, entries: seq<Entry>, shares: seq<Share>, pool: nat)
    ensures var m := MergeAll(plan, entries, shares, pool);
      AppliedEntries(m.applied) + SkippedEntries(m.skipped) == multiset(Rewarded(entries, shares))
  {
    if entries != [] {
      var n := |entries| - 1;
      var e := entries[n];
      var before, m := MergeAll(plan, entries[..n], shares, pool), MergeAll(plan, entries, shares, pool);
      EachSettledOnce(plan, entries[..n], shares, pool);
      var reward := Lookup(shares, e.address);
      assert m == MergeOne(before, e, reward, pool);
      hide MergeAll, MergeOne;
      SettledByOne(before, e, reward, pool);
    }
  }

  lemma SettledByOne(m: Merge, e: Entry, reward: nat, pool: nat)
    ensures var next := MergeOne(m, e, reward, pool);
      AppliedEntries(next.applied) + SkippedEntries(next.skipped)
        == AppliedEntries(m.applied) + SkippedEntries(m.skipped) + if reward == 0 then multiset{} else multiset{e}
  {
    hide Fitting, AmountFor, Paid, Cap, AppliedEntries, SkippedEntries;
    var amount := Fitting(m, AmountFor(m.rewards, e.nodeId), reward, pool);
    if amount > 0 {
      OneMoreApplied(m.applied, Applied(e, amount));
    }
    OneMoreSkipped(m.skipped, Skipped(e, reward, CapReached));
    OneMoreSkipped(m.skipped, Skipped(e, reward, PoolExhausted));
  }

  lemma OneMoreApplied(applied: seq<Applied>, a: Applied)
    ensures AppliedEntries(applied + [a]) == AppliedEntries(applied) + multiset{a.entry}
  {
    assert (applied + [a])[..|applied|] == applied;
  }

  lemma OneMoreSkipped(skipped: seq<Skipped>, s: Skipped)
    ensures SkippedEntries(skipped + [s]) == SkippedEntries(skipped) + multiset{s.entry}
  {
    assert (skipped + [s])[..|skipped|] == skipped;
  }

  /** What is applied never exceeds what was allocated. */
  lemma {:induction false} AppliedWithinReward(plan: Plan, entries: seq<Entry>, shares: seq<Share>, pool: nat)
    ensures forall a :: a in MergeAll(plan, entries, shares, pool).applied ==>
      0 < a.amount <= Lookup(shares, a.entry.address)
  {
    if entries != [] {
      AppliedWithinReward(plan, entries[..|entries| - 1], shares, pool);
    }
  }

  // ----- The pool is not exhausted --------------------------------------------------------------------

  function RewardSum(entries: seq<Entry>, shares: seq<Share>): nat {
    if entries == [] then 0
    else RewardSum(entries[..|entries| - 1], shares) + Lookup(shares, entries[|entries| - 1].address)
  }

  predicate NoneExhausted(m: Merge) {
    forall i :: 0 <= i < |m.skipped| ==> m.skipped[i].reason != PoolExhausted
  }

  /** If plan and rewards together fit in the pool, no reward is ever skipped for lack of funds. */
  lemma {:induction false} NotExhausted(plan: Plan, entries: seq<Entry>, shares: seq<Share>, pool: nat)
    requires plan.total + RewardSum(entries, shares) <= pool
    ensures var m := MergeAll(plan, entries, shares, pool);
      NoneExhausted(m) && m.total <= plan.total + RewardSum(entries, shares)
  {
    if entries != [] {
      NotExhausted(plan, entries[..|entries| - 1], shares, pool);
    }
  }

  lemma {:induction false} LookupFirst(entries: seq<Entry>, s: Share, rest: seq<Share>)
    requires DistinctAddresses(entries)
    ensures RewardSum(entries, [s] + rest) <= s.amount + RewardSum(entries, rest)
    ensures !Mentions(entries, s.address) ==> RewardSum(entries, [s] + rest) == RewardSum(entries, rest)
  {
    if entries != [] {
      var n := |entries| - 1;
      var before, e := entries[..n], entries[n];
      assert ([s] + rest)[1..] == rest;
      LookupFirst(before, s, rest);
      if e.address == s.address {
        assert !Mentions(before, s.address);
      } else if Mentions(before, s.address) {
        var i :| 0 <= i < |before| && before[i].address == s.address;
        assert entries[i].address == s.address;
      }
    }
  }

  /** Distinct challengers together receive no more than was allocated. */
  lemma {:induction false} RewardsWithinShares(entries: seq<Entry>, shares: seq<Share>)
    requires DistinctAddresses(entries)
    ensures RewardSum(entries, shares) <= SumShares(shares)
  {
    if shares == [] {
      NothingAllocated(entries);
    } else {
      LookupFirst(entries, shares[0], shares[1..]);
      assert shares == [shares[0]] + shares[1..];
      RewardsWithinShares(entries, shares[1..]);
    }
  }

  lemma {:induction false} NothingAllocated(entries: seq<Entry>)
    ensures RewardSum(entries, []) == 0
  {
    if entries != [] {
      NothingAllocated(entries[..|entries| - 1]);
    }
  }

  // ----- The settlement of an epoch --------------------------------------------------------------------

  /** The counts that allocation uses: valid receipts if there are any, else challenges. */
  function Batches(entries: seq<Entry>): seq<Tally> {
    if entries == [] then []
    else
      var e := entries[0];
      var count := if e.validReceiptCount > 0 then e.validReceiptCount else e.challengeCount;
      (if count > 0 then [Tally(e.address, count)] else []) + Batches(entries[1..])
  }

  function CountOf(ts: seq<Tally>, a: Address): nat {
    if ts == [] then 0 else (if ts[0].address == a then ts[0].count else 0) + CountOf(ts[1..], a)
  }

  lemma BatchStep(entries: seq<Entry>, a: Address)
    requires entries != []
    ensures
      var e := entries[0];
      var weight := if e.validReceiptCount == 0 then e.challengeCount else e.validReceiptCount;
      CountOf(Batches(entries), a) == (if e.address == a then weight else 0) + CountOf(Batches(entries[1..]), a)
  {
    var e, rest := entries[0], Batches(entries[1..]);
    var count := if e.validReceiptCount > 0 then e.validReceiptCount else e.challengeCount;
    if count > 0 {
      assert ([Tally(e.address, count)] + rest)[1..] == rest;
    } else {
      assert [] + rest == rest;
    }
  }

  lemma {:induction false} UnlistedHasNoWeight(entries: seq<Entry>, a: Address)
    requires forall i :: 0 <= i < |entries| ==> entries[i].address != a
    ensures CountOf(Batches(entries), a) == 0
  {
    if entries != [] {
      BatchStep(entries, a);
      UnlistedHasNoWeight(entries[1..], a);
    }
  }

  /** Each challenger is weighed by its valid receipts if it has any, else by its challenges. */
  lemma {:induction false} BatchesWeigh(entries: seq<Entry>, i: nat)
    requires DistinctAddresses(entries) && i < |entries|
    ensures CountOf(Batches(entries), entries[i].address) ==
      if entries[i].validReceiptCount == 0 then entries[i].challengeCount else entries[i].validReceiptCount
  {
    BatchStep(entries, entries[i].address);
    if i == 0 {
      UnlistedHasNoWeight(entries[1..], entries[0].address);
    } else {
      BatchesWeigh(entries[1..], i - 1);
    }
  }

  function NodeBudget(pool: nat, reserved: nat): nat {
    if reserved >= pool then 0 else pool - reserved
  }

  function Settle(entries: seq<Entry>, leaves: seq<Reward>, active: set<NodeId>, pool: nat, bps: nat): Merge {
    var shares := Allocate(Batches(entries), pool, bps);
    var plan := PlanAll(leaves, NodeBudget(pool, SumShares(shares)), active);
    MergeAll(plan, entries, shares, pool)
  }

  /** Once, or as often as the leaves name the node. */
  function TimesListed(leaves: seq<Reward>, id: NodeId): nat {
    if Listings(leaves, id) > 1 then Listings(leaves, id) else 1
  }

  /**
   * The settlement pays out what it says, within the pool, and no single entry is above the cap. A node in all
   * its entries together receives at most the cap as often as the leaves name it, and at most the pool.
   */
  lemma SettleWithinPool(entries: seq<Entry>, leaves: seq<Reward>, active: set<NodeId>, pool: nat, bps: nat)
    ensures var m := Settle(entries, leaves, active, pool, bps);
      && m.total == Sum(m.rewards) <= pool
      && AllWithin(m.rewards, Cap(pool))
      && (DistinctNodes(leaves) ==> DistinctNodes(m.rewards))
      && (forall id :: SumFor(m.rewards, id) <= Lesser(TimesListed(leaves, id) * Cap(pool), pool))
  {
    var shares := Allocate(Batches(entries), pool, bps);
    var budget := NodeBudget(pool, SumShares(shares));
    var plan := PlanAll(leaves, budget, active);
    PlanWithinBudget(leaves, budget, active);
    PlanFromLeaves(leaves, budget, active);
    PlanListings(leaves, budget, active);
    CapGrows(budget, pool);
    assert AllWithin(plan.rewards, Cap(pool));
    SettleParts(entries, leaves, active, pool, bps);
    hide Cap, PlanAll, MergeAll, Allocate, Settle, AllWithin, Listings, SumFor, DistinctNodes, TimesListed, Sum;
    MergeConserves(plan, entries, shares, pool);
    MergeNodeByNode(plan, entries, shares, pool, "");
    MergeCapped(plan, entries, shares, pool);
    MergePerNode(plan, entries, shares, pool, leaves);
  }

  /** The nodes are paid all that is due to them from what the challengers' shares leave of the pool, or all of that. */
  lemma SettlePaysNodes(entries: seq<Entry>, leaves: seq<Reward>, active: set<NodeId>, pool: nat, bps: nat)
    ensures var reserved := SumShares(Allocate(Batches(entries), pool, bps));
      var rest := if reserved <= pool then pool - reserved else 0;
      Settle(entries, leaves, active, pool, bps).total >= Lesser(Sum(Due(leaves, rest, active)), rest)
  {
    var shares := Allocate(Batches(entries), pool, bps);
    var budget := NodeBudget(pool, SumShares(shares));
    PlanPaysWhatIsDue(leaves, budget, active);
    PlanWithinBudget(leaves, budget, active);
    SettleParts(entries, leaves, active, pool, bps);
    hide Sum, Due, PlanAll, MergeAll, Allocate, Settle;
    MergeConserves(PlanAll(leaves, budget, active), entries, shares, pool);
  }

  /** What each node receives in all, when the plan lists it no more often than the leaves. */
  lemma MergePerNode(plan: Plan, entries: seq<Entry>, shares: seq<Share>, pool: nat, leaves: seq<Reward>)
    requires var m := MergeAll(plan, entries, shares, pool); Sum(m.rewards) <= pool && AllWithin(m.rewards, Cap(pool))
    requires forall id :: Listings(plan.rewards, id) <= Listings(leaves, id)
    ensures forall id ::
      SumFor(MergeAll(plan, entries, shares, pool).rewards, id) <= Lesser(TimesListed(leaves, id) * Cap(pool), pool)
  {
    hide Cap, MergeAll, AllWithin, Listings, SumFor;
    var m := MergeAll(plan, entries, shares, pool);
    forall id ensures SumFor(m.rewards, id) <= Lesser(TimesListed(leaves, id) * Cap(pool), pool) {
      SumForAtMostSum(m.rewards, id);
      MergeListings(plan, entries, shares, pool, id);
      SumForWithin(m.rewards, id, Cap(pool));
      MulMono(Cap(pool), Listings(m.rewards, id), TimesListed(leaves, id));
    }
  }

  predicate AllWithin(rs: seq<Reward>, cap: nat) {
    forall i :: 0 <= i < |rs| ==> rs[i].amount <= cap
  }

  /** The same leaf several times, each asking for the cap. */
  function Copies(id: NodeId, pool: nat, k: nat): seq<Reward> {
    seq(k, i => Reward(id, Cap(pool)))
  }

  /** The bound is reached: a node named any number of times receives the cap as often, up to the whole pool. */
  lemma RepeatedNodeReceives(id: NodeId, pool: nat, bps: nat, k: nat)
    ensures SumFor(Settle([], Copies(id, pool, k), {id}, pool, bps).rewards, id) == Lesser(k * Cap(pool), pool)
  {
    NothingToMerge(Copies(id, pool, k), {id}, pool, bps);
    CopiesPaid(id, pool, k);
  }

  /** Without challengers the settlement is the plan for the whole pool. */
  lemma NothingToMerge(leaves: seq<Reward>, active: set<NodeId>, pool: nat, bps: nat)
    ensures Settle([], leaves, active, pool, bps).rewards == PlanAll(leaves, pool, active).rewards
  {
    hide Allocate, PlanAll, Settle, Batches;
    NothingReserved(pool, bps);
    SettleParts([], leaves, active, pool, bps);
  }

  lemma NothingReserved(pool: nat, bps: nat)
    ensures SumShares(Allocate(Batches([]), pool, bps)) == 0
  {
    assert Batches([]) == [];
  }

  lemma {:induction false} CopiesPaid(id: NodeId, pool: nat, k: nat)
    ensures var p := PlanAll(Copies(id, pool, k), pool, {id});
      SumFor(p.rewards, id) == p.total == Lesser(k * Cap(pool), pool)
  {
    if k > 0 {
      hide Cap, Copies, PlanOne, PlanAll, SumFor;
      var cap, before := Cap(pool), PlanAll(Copies(id, pool, k - 1), pool, {id});
      OneMoreCopy(id, pool, k);
      CopiesPaid(id, pool, k - 1);
      PaysWhatIsLeft(before, id, cap, pool);
      OneMoreCap(k - 1, cap, pool);
    }
  }

  lemma OneMoreCopy(id: NodeId, pool: nat, k: nat)
    requires k > 0
    ensures PlanAll(Copies(id, pool, k), pool, {id}) ==
      PlanOne(PlanAll(Copies(id, pool, k - 1), pool, {id}), Reward(id, Cap(pool)), pool, {id})
  {
    hide Cap, PlanOne;
    var leaves := Copies(id, pool, k);
    assert leaves[..k - 1] == Copies(id, pool, k - 1) && leaves[k - 1] == Reward(id, Cap(pool));
  }

  lemma OneMoreCap(k: nat, cap: nat, pool: nat)
    ensures Lesser(Lesser(k * cap, pool) + cap, pool) == Lesser((k + 1) * cap, pool)
  {
    assert (k + 1) * cap == k * cap + cap;
  }

  lemma PaysWhatIsLeft(p: Plan, id: NodeId, amount: nat, budget: nat)
    requires p.total <= budget && amount <= Cap(budget)
    ensures var next := PlanOne(p, Reward(id, amount), budget, {id});
      && next.total == Lesser(p.total + amount, budget)
      && SumFor(next.rewards, id) == SumFor(p.rewards, id) + next.total - p.total
  {
    hide Cap;
    var next := PlanOne(p, Reward(id, amount), budget, {id});
    if next.rewards != p.rewards {
      assert next.rewards[..|p.rewards|] == p.rewards;
    }
  }

  /** No entry of the merge is above the cap if none of the plan is. */
  lemma {:induction false} MergeCapped(plan: Plan, entries: seq<Entry>, shares: seq<Share>, pool: nat)
    requires AllWithin(plan.rewards, Cap(pool))
    ensures AllWithin(MergeAll(plan, entries, shares, pool).rewards, Cap(pool))
  {
    hide MergeOne, Lookup, AllWithin;
    if entries != [] {
      var n := |entries| - 1;
      MergeCapped(plan, entries[..n], shares, pool);
      OneCapped(MergeAll(plan, entries[..n], shares, pool), entries[n], Lookup(shares, entries[n].address), pool);
    }
  }

  lemma OneCapped(m: Merge, e: Entry, reward: nat, pool: nat)
    requires AllWithin(m.rewards, Cap(pool))
    ensures AllWithin(MergeOne(m, e, reward, pool).rewards, Cap(pool))
  {
    hide Cap;
  }

  /** The merge lists a node once, or as often as the plan did. */
  lemma {:induction false} MergeListings(plan: Plan, entries: seq<Entry>, shares: seq<Share>, pool: nat, id: NodeId)
    ensures Listings(MergeAll(plan, entries, shares, pool).rewards, id) <= TimesListed(plan.rewards, id)
  {
    hide Cap, Listings;
    if entries != [] {
      var n := |entries| - 1;
      MergeListings(plan, entries[..n], shares, pool, id);
      var before, e := MergeAll(plan, entries[..n], shares, pool), entries[n];
      var amount := Fitting(before, AmountFor(before.rewards, e.nodeId), Lookup(shares, e.address), pool);
      if amount > 0 {
        PaidListings(before.rewards, e.nodeId, amount, id);
      }
    }
  }

  lemma PaidListings(rs: seq<Reward>, id: NodeId, amount: nat, other: NodeId)
    ensures Listings(Paid(rs, id, amount), other) ==
      if other == id && Listings(rs, id) == 0 then 1 else Listings(rs, other)
  {
    var k := NodeIndex(rs, id);
    if k < |rs| {
      SameListings(Paid(rs, id, amount), rs, other);
      Listed(rs, k);
    } else {
      AppendListing(rs, Reward(id, amount));
      Unlisted(rs, id);
    }
  }

  lemma {:induction false} Listed(rs: seq<Reward>, k: nat)
    requires k < |rs|
    ensures Listings(rs, rs[k].nodeId) > 0
  {
    if k < |rs| - 1 {
      Listed(rs[..|rs| - 1], k);
    }
  }

  lemma SettleParts(entries: seq<Entry>, leaves: seq<Reward>, active: set<NodeId>, pool: nat, bps: nat)
    ensures
      var shares := Allocate(Batches(entries), pool, bps);
      Settle(entries, leaves, active, pool, bps)
        == MergeAll(PlanAll(leaves, NodeBudget(pool, SumShares(shares)), active), entries, shares, pool)
  {
  }

  lemma CapGrows(a: nat, b: nat)
    requires a <= b
    ensures Cap(a) <= Cap(b)
  {
  }

  ghost predicate NeverExhausted(bps: nat) {
    forall entries: seq<Entry>, leaves: seq<Reward>, active: set<NodeId>, pool: nat ::
      DistinctAddresses(entries) ==> NoneExhausted(Settle(entries, leaves, active, pool, bps))
  }

  lemma ReserveLeavesRoom(entries: seq<Entry>, leaves: seq<Reward>, active: set<NodeId>, pool: nat, bps: nat)
    requires DistinctAddresses(entries) && bps <= 10000
    ensures NoneExhausted(Settle(entries, leaves, active, pool, bps))
  {
    var shares := Allocate(Batches(entries), pool, bps);
    var budget := NodeBudget(pool, SumShares(shares));
    AllocateSum(Batches(entries), pool, bps);
    ReserveFitsIff(bps);
    PlanWithinBudget(leaves, budget, active);
    RewardsWithinShares(entries, shares);
    hide MergeAll, PlanAll, Allocate;
    NotExhausted(PlanAll(leaves, budget, active), entries, shares, pool);
  }

  // A share above the whole

  const POOL: nat := 10000

  /** Four challengers with a quarter of the pool each, and a fifth with what the share has above it. */
  function Count(i: nat, bps: nat): nat
    requires bps > 10000
  {
    if i < 4 then 2500 else bps - 10000
  }

  /** Names told apart by their length. */
  function Name(i: nat): (s: string)
    ensures |s| == i + 1
  {
    if i == 0 then "n" else Name(i - 1) + "n"
  }

  function FiveEntries(bps: nat): seq<Entry>
    requires bps > 10000
  {
    seq(5, i requires 0 <= i => Entry(Name(i), Name(i), Count(i, bps), 0))
  }

  function FiveTallies(bps: nat): seq<Tally>
    requires bps > 10000
  {
    seq(5, i requires 0 <= i => Tally(Name(i), Count(i, bps)))
  }

  function FiveShares(bps: nat): seq<Share>
    requires bps > 10000
  {
    seq(5, i requires 0 <= i => Share(Name(i), Count(i, bps)))
  }

  lemma {:induction false} FiveBatches(bps: nat, k: nat)
    requires bps > 10000 && k <= 5
    ensures Batches(FiveEntries(bps)[k..]) == FiveTallies(bps)[k..]
    ensures k < 5 ==> SumCounts(FiveTallies(bps)[k..]) == bps - 2500 * k
    decreases 5 - k
  {
    var es, ts := FiveEntries(bps), FiveTallies(bps);
    if k < 5 {
      FiveBatches(bps, k + 1);
      assert es[k..][1..] == es[k + 1..] && ts[k..][1..] == ts[k + 1..];
      assert es[k..][0] == Entry(Name(k), Name(k), Count(k, bps), 0);
      assert ts[k..] == [Tally(Name(k), Count(k, bps))] + ts[k + 1..];
    }
  }

  lemma QuarterFloor(bps: nat)
    requires bps > 0
    ensures Floor(bps, 2500, bps) == 2500
  {
  }

  lemma {:induction false} FiveSharesFrom(bps: nat, k: nat)
    requires bps > 10000 && k <= 5
    ensures SharesFrom(FiveTallies(bps), k, bps, bps, if k < 5 then 2500 * k else bps) == FiveShares(bps)[k..]
    decreases 5 - k
  {
    var ts, shares := FiveTallies(bps), FiveShares(bps);
    if k < 5 {
      FiveSharesFrom(bps, k + 1);
      QuarterFloor(bps);
      hide Floor, SharesFrom;
      SharesStep(ts, k, bps, bps, 2500 * k, Count(k, bps));
      assert shares[k..] == [Share(Name(k), Count(k, bps))] + shares[k + 1..];
    }
  }

  lemma {:induction false} FiveLookup(bps: nat, k: nat, i: nat)
    requires bps > 10000 && k <= i < 5
    ensures Lookup(FiveShares(bps)[k..], Name(i)) == Count(i, bps)
    decreases 5 - k
  {
    var shares := FiveShares(bps);
    assert shares[k..][1..] == shares[k + 1..];
    assert shares[k..][0] == Share(Name(k), Count(k, bps));
    if k < i {
      FiveLookup(bps, k + 1, i);
    }
  }

  lemma FiveAllocated(bps: nat)
    requires bps > 10000
    ensures Allocate(Batches(FiveEntries(bps)), POOL, bps) == FiveShares(bps) && SumShares(FiveShares(bps)) == bps
  {
    var es, ts, shares := FiveEntries(bps), FiveTallies(bps), FiveShares(bps);
    FiveBatches(bps, 0);
    FiveSharesFrom(bps, 0);
    assert es[0..] == es && ts[0..] == ts && shares[0..] == shares;
    assert forall i, j :: 0 <= i < j < 5 ==> ts[i].address == Name(i) && ts[j].address == Name(j);
    TotalsOfDistinct(ts);
    assert ChallengerPool(POOL, bps) == bps;
    AllocateSum(ts, POOL, bps);
  }

  const NOTHING := Plan([], 0, [])

  /** The first four are paid in full and use the pool up. */
  predicate NamesUpTo(rs: seq<Reward>, k: nat) {
    forall i :: 0 <= i < |rs| ==> |rs[i].nodeId| <= k
  }

  lemma {:induction false} FourPaid(bps: nat, k: nat)
    requires bps > 10000 && k <= 4
    ensures var m := MergeAll(NOTHING, FiveEntries(bps)[..k], FiveShares(bps), POOL);
      m.total == 2500 * k && NamesUpTo(m.rewards, k)
  {
    if k > 0 {
      var es, shares := FiveEntries(bps), FiveShares(bps);
      FourPaid(bps, k - 1);
      FiveLookup(bps, 0, k - 1);
      var e := es[k - 1];
      assert Lookup(shares, e.address) == 2500 && |e.nodeId| == k by { assert shares[0..] == shares; }
      assert es[..k][k - 1] == e && es[..k][..k - 1] == es[..k - 1];
      hide MergeOne, Lookup, FiveEntries, FiveShares, Name, Count, NamesUpTo;
      OnePaid(MergeAll(NOTHING, es[..k - 1], shares, POOL), e, k - 1);
    }
  }

  lemma OnePaid(m: Merge, e: Entry, k: nat)
    requires k < 4 && m.total == 2500 * k && NamesUpTo(m.rewards, k) && |e.nodeId| == k + 1
    ensures var next := MergeOne(m, e, 2500, POOL);
      next.total == 2500 * (k + 1) && NamesUpTo(next.rewards, k + 1)
  {
    hide MergeOne;
    PaysFresh(m, e, 2500);
  }

  /** With a share above the whole, the fifth challenger finds the pool used up. */
  lemma OversubscribedExhausts(bps: nat)
    requires bps > 10000
    ensures !NoneExhausted(Settle(FiveEntries(bps), [], {}, POOL, bps)) && DistinctAddresses(FiveEntries(bps))
  {
    var es, shares := FiveEntries(bps), FiveShares(bps);
    FiveAllocated(bps);
    FourPaid(bps, 4);
    FiveLookup(bps, 0, 4);
    assert shares[0..] == shares && es[..5] == es && es[..5][..4] == es[..4];
    hide MergeOne, Lookup, Allocate;
    FindsNothing(MergeAll(NOTHING, es[..4], shares, POOL), es[4], bps - 10000);
    assert forall i, j :: 0 <= i < j < 5 ==> es[i].address == Name(i) && es[j].address == Name(j);
  }

  /** A node not yet listed, with a reward that fits. */
  lemma PaysFresh(m: Merge, e: Entry, reward: nat)
    requires forall i :: 0 <= i < |m.rewards| ==> m.rewards[i].nodeId != e.nodeId
    requires 0 < reward <= 3000 && m.total + reward <= POOL
    ensures MergeOne(m, e, reward, POOL) == m.(
      rewards := m.rewards + [Reward(e.nodeId, reward)], total := m.total + reward, applied := m.applied + [Applied(e, reward)])
  {
    assert NodeIndex(m.rewards, e.nodeId) == |m.rewards|;
  }

  lemma FindsNothing(m: Merge, e: Entry, reward: nat)
    requires forall i :: 0 <= i < |m.rewards| ==> m.rewards[i].nodeId != e.nodeId
    requires reward > 0 && m.total == POOL
    ensures !NoneExhausted(MergeOne(m, e, reward, POOL))
  {
    assert NodeIndex(m.rewards, e.nodeId) == |m.rewards|;
    var next := MergeOne(m, e, reward, POOL);
    assert next.skipped[|m.skipped|].reason == PoolExhausted;
  }

  /** No challenger is ever turned away for lack of funds exactly when the share is at most the whole pool. */
  lemma NeverExhaustedIff(bps: nat)
    ensures NeverExhausted(bps) <==> bps <= 10000
  {
    if bps <= 10000 {
      forall entries: seq<Entry>, leaves: seq<Reward>, active: set<NodeId>, pool: nat | DistinctAddresses(entries)
        ensures NoneExhausted(Settle(entries, leaves, active, pool, bps))
      {
        ReserveLeavesRoom(entries, leaves, active, pool, bps);
      }
    } else {
      OversubscribedExhausts(bps);
    }
  }
}
