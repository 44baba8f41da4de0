/**
 * Epoch reward settlement in the relayer: challenger entries are aggregated, a share of the pool is
 * allocated to challengers, node rewards are planned from what is left, and the two are merged under
 * a per-node cap.
 *
 * JavaScript maps keep insertion order, so an ordered list of keyed entries stands for them.
 * Addresses and node ids are in their normal form (lower case, 32 bytes).
 */
module Rewards {
  import opened Arithmetic

  type Address = string
  type NodeId = string

  datatype Entry = Entry(address: Address, nodeId: NodeId, challengeCount: nat, validReceiptCount: nat)
  datatype Tally = Tally(address: Address, count: nat)
  datatype Share = Share(address: Address, amount: nat)
  datatype Reward = Reward(nodeId: NodeId, amount: nat)

  // ----- Aggregation ---------------------------------------------------------------------------

  function Challenges(entries: seq<Entry>, a: Address): nat {
    if entries == [] then 0
    else
      var before, last := Challenges(entries[..|entries| - 1], a), entries[|entries| - 1];
      if last.address == a then before + last.challengeCount else before
  }

  function Receipts(entries: seq<Entry>, a: Address): nat {
    if entries == [] then 0
    else
      var before, last := Receipts(entries[..|entries| - 1], a), entries[|entries| - 1];
      if last.address == a then before + last.validReceiptCount else before
  }

  /** The first node id the address gives, or none. */
  function FirstNode(entries: seq<Entry>, a: Address): NodeId {
    if entries == [] then ""
    else
      var before, last := FirstNode(entries[..|entries| - 1], a), entries[|entries| - 1];
      if before == "" && last.address == a then last.nodeId else before
  }

  predicate Mentions(entries: seq<Entry>, a: Address) {
    exists i :: 0 <= i < |entries| && entries[i].address == a
  }

  predicate DistinctAddresses(entries: seq<Entry>) {
    forall i, j :: 0 <= i < j < |entries| ==> entries[i].address != entries[j].address
  }

  function AddressesOf(entries: seq<Entry>): seq<Address> {
    seq(|entries|, i requires 0 <= i < |entries| => entries[i].address)
  }

  /** The addresses in the order in which they are first mentioned. */
  function FirstMentions(entries: seq<Entry>): seq<Address> {
    if entries == [] then []
    else
      var before, a := FirstMentions(entries[..|entries| - 1]), entries[|entries| - 1].address;
      if a in before then before else before + [a]
  }

  /** One entry per address, in order of first mention, with counts added up and the first node id kept. */
  predicate IsAggregate(r: seq<Entry>, entries: seq<Entry>) {
    && AddressesOf(r) == FirstMentions(entries)
    && DistinctAddresses(r) && AllTotals(r, entries) && AllCovered(r, entries)
  }

  predicate AllTotals(r: seq<Entry>, entries: seq<Entry>) {
    forall i :: 0 <= i < |r| ==> Mentions(entries, r[i].address) && r[i] == Total(entries, r[i].address)
  }

  predicate AllCovered(r: seq<Entry>, entries: seq<Entry>) {
    forall i :: 0 <= i < |entries| ==> Mentions(r, entries[i].address)
  }

  function Total(entries: seq<Entry>, a: Address): (e: Entry)
    ensures e.address == a
  {
    Entry(a, FirstNode(entries, a), Challenges(entries, a), Receipts(entries, a))
  }

  /** The first place of a value, or the length. */
  function IndexIn<T(==)>(s: seq<T>, x: T): (i: nat)
    ensures i <= |s| && (i < |s| ==> s[i] == x)
    ensures forall j :: 0 <= j < i ==> s[j] != x
  {
    if s == [] || s[0] == x then 0 else 1 + IndexIn(s[1..], x)
  }

  function Position(entries: seq<Entry>, a: Address): (i: nat)
    ensures i <= |entries| && (i < |entries| ==> entries[i].address == a)
    ensures forall j :: 0 <= j < i ==> entries[j].address != a
  {
    var s := AddressesOf(entries);
    assert forall j :: 0 <= j < |entries| ==> s[j] == entries[j].address;
    IndexIn(s, a)
  }

  lemma {:induction false} UnmentionedIsEmpty(entries: seq<Entry>, a: Address)
    requires !Mentions(entries, a)
    ensures Total(entries, a) == Entry(a, "", 0, 0)
  {
    if entries != [] {
      var rest := entries[..|entries| - 1];
      assert entries[|entries| - 1].address != a;
      assert !Mentions(rest, a) by {
        assert forall i :: 0 <= i < |rest| ==> rest[i] == entries[i];
      }
      UnmentionedIsEmpty(rest, a);
    }
  }

  method AggregateChallengerRewards(entries: seq<Entry>) returns (r: seq<Entry>)
    ensures IsAggregate(r, entries)
  {
    r := [];
    for n := 0 to |entries|
      invariant IsAggregate(r, entries[..n])
    {
      var e := entries[n];
      assert entries[..n + 1][..n] == entries[..n];
      ghost var before := r;
      var k := Position(r, e.address);
      if k == |r| {
        assert !Mentions(entries[..n], e.address);
        UnmentionedIsEmpty(entries[..n], e.address);
        r := r + [e];
      } else {
        var x := r[k];
        r := r[k := Entry(x.address, if x.nodeId == "" && e.nodeId != "" then e.nodeId else x.nodeId,
                          x.challengeCount + e.challengeCount, x.validReceiptCount + e.validReceiptCount)];
      }
      AggregateStep(before, entries, n, k, r);
    }
    assert entries[..|entries|] == entries;
  }

  lemma AggregateStep(before: seq<Entry>, entries: seq<Entry>, n: nat, k: nat, r: seq<Entry>)
    requires n < |entries| && IsAggregate(before, entries[..n]) && k == Position(before, entries[n].address)
    requires r == if k == |before| then before + [Total(entries[..n + 1], entries[n].address)]
      else before[k := Total(entries[..n + 1], entries[n].address)]
    ensures IsAggregate(r, entries[..n + 1])
  {
    hide AllTotals, AllCovered, Total;
    TotalsStep(before, entries, n, k, r);
    CoveredStep(before, entries, n, k, r);
    OrderStep(before, entries, n, k, r);
  }

  lemma OrderStep(before: seq<Entry>, entries: seq<Entry>, n: nat, k: nat, r: seq<Entry>)
    requires n < |entries| && AddressesOf(before) == FirstMentions(entries[..n]) && k == Position(before, entries[n].address)
    requires |r| == if k == |before| then |before| + 1 else |before|
    requires k < |r| && r[k].address == entries[n].address
    requires forall i :: 0 <= i < |before| ==> r[i].address == before[i].address
    ensures AddressesOf(r) == FirstMentions(entries[..n + 1])
  {
    var a := entries[n].address;
    assert entries[..n + 1][..n] == entries[..n];
    if k == |before| {
      assert a !in AddressesOf(before);
      assert AddressesOf(r) == AddressesOf(before) + [a];
    } else {
      assert AddressesOf(before)[k] == a;
      assert AddressesOf(r) == AddressesOf(before);
    }
  }

  lemma TotalsStep(before: seq<Entry>, entries: seq<Entry>, n: nat, k: nat, r: seq<Entry>)
    requires n < |entries| && AllTotals(before, entries[..n]) && k == Position(before, entries[n].address)
    requires DistinctAddresses(before)
    requires r == if k == |before| then before + [Total(entries[..n + 1], entries[n].address)]
      else before[k := Total(entries[..n + 1], entries[n].address)]
    ensures AllTotals(r, entries[..n + 1])
  {
    hide Total;
    var now, e := entries[..n + 1], entries[n];
    assert now[n] == e;
    forall i | 0 <= i < |r| ensures Mentions(now, r[i].address) && r[i] == Total(now, r[i].address) {
      if i == k {
        assert now[n].address == r[i].address;
      } else {
        assert r[i] == before[i] && before[i].address != e.address;
        OtherTotals(entries, n, r[i].address);
      }
    }
  }

  /** A further entry changes nothing for the other addresses. */
  lemma OtherTotals(entries: seq<Entry>, n: nat, a: Address)
    requires n < |entries| && a != entries[n].address
    ensures Total(entries[..n + 1], a) == Total(entries[..n], a)
    ensures Mentions(entries[..n], a) ==> Mentions(entries[..n + 1], a)
  {
    var was, now := entries[..n], entries[..n + 1];
    assert now[..n] == was && now[n] == entries[n];
    if Mentions(was, a) {
      var j :| 0 <= j < |was| && was[j].address == a;
      assert now[j].address == a;
    }
  }

  lemma CoveredStep(before: seq<Entry>, entries: seq<Entry>, n: nat, k: nat, r: seq<Entry>)
    requires n < |entries| && AllCovered(before, entries[..n]) && k == Position(before, entries[n].address)
    requires |before| <= |r| && k < |r| && r[k].address == entries[n].address
    requires forall i :: 0 <= i < |before| ==> r[i].address == before[i].address
    ensures AllCovered(r, entries[..n + 1])
  {
    var was, now := entries[..n], entries[..n + 1];
    forall i | 0 <= i < |now| ensures Mentions(r, now[i].address) {
      if i == n {
        assert r[k].address == now[n].address;
      } else {
        assert now[i] == was[i];
        var j :| 0 <= j < |before| && before[j].address == was[i].address;
        assert r[j].address == before[j].address;
      }
    }
  }

  // ----- Allocation among challengers ------------------------------------------------------------

  function SumCounts(ts: seq<Tally>): nat {
    if ts == [] then 0 else ts[0].count + SumCounts(ts[1..])
  }

  function TallyOf(ts: seq<Tally>, a: Address): (i: nat)
    ensures i <= |ts| && (i < |ts| ==> ts[i].address == a)
    ensures forall j :: 0 <= j < i ==> ts[j].address != a
  {
    var s := seq(|ts|, i requires 0 <= i < |ts| => ts[i].address);
    assert forall j :: 0 <= j < |ts| ==> s[j] == ts[j].address;
    IndexIn(s, a)
  }

  function AddCount(ts: seq<Tally>, t: Tally): seq<Tally> {
    var k := TallyOf(ts, t.address);
    if k == |ts| then ts + [t] else ts[k := Tally(t.address, ts[k].count + t.count)]
  }

  /** Counts added up per address, in order of first mention. */
  function Totals(batches: seq<Tally>): seq<Tally> {
    if batches == [] then [] else AddCount(Totals(batches[..|batches| - 1]), batches[|batches| - 1])
  }

  predicate DistinctTallies(ts: seq<Tally>) {
    forall i, j :: 0 <= i < j < |ts| ==> ts[i].address != ts[j].address
  }

  lemma {:induction false} SumCountsUpdate(ts: seq<Tally>, k: nat, t: Tally)
    requires k < |ts|
    ensures SumCounts(ts[k := t]) == SumCounts(ts) - ts[k].count + t.count
  {
    if k == 0 {
      assert ts[k := t][1..] == ts[1..];
    } else {
      assert ts[k := t][1..] == ts[1..][k - 1 := t];
      SumCountsUpdate(ts[1..], k - 1, t);
    }
  }

  lemma {:induction false} SumCountsAppend(ts: seq<Tally>, t: Tally)
    ensures SumCounts(ts + [t]) == SumCounts(ts) + t.count
  {
    if ts == [] {
      assert [t][1..] == [];
    } else {
      assert (ts + [t])[1..] == ts[1..] + [t];
      SumCountsAppend(ts[1..], t);
    }
  }

  /** Adding up per address loses no count and names no address twice. */
  lemma {:induction false} TotalsKeepCounts(batches: seq<Tally>)
    ensures SumCounts(Totals(batches)) == SumCounts(batches) && DistinctTallies(Totals(batches))
    ensures batches != [] ==> Totals(batches) != []
  {
    if batches != [] {
      var n := |batches| - 1;
      var before, t := Totals(batches[..n]), batches[n];
      TotalsKeepCounts(batches[..n]);
      assert batches == batches[..n] + [t];
      SumCountsAppend(batches[..n], t);
      var k := TallyOf(before, t.address);
      if k == |before| {
        SumCountsAppend(before, t);
      } else {
        SumCountsUpdate(before, k, Tally(t.address, before[k].count + t.count));
      }
    }
  }

  /** Tallies that name no address twice are their own totals. */
  lemma {:induction false} TotalsOfDistinct(batches: seq<Tally>)
    requires DistinctTallies(batches)
    ensures Totals(batches) == batches
  {
    if batches != [] {
      var n := |batches| - 1;
      TotalsOfDistinct(batches[..n]);
      assert batches == batches[..n] + [batches[n]];
    }
  }

  function SumShares(s: seq<Share>): nat {
    if s == [] then 0 else s[0].amount + SumShares(s[1..])
  }

  /** Proportional shares rounded down, the last one taking what is left; shares of nothing are dropped. */
  function Shares(ts: seq<Tally>, pool: nat, total: nat, distributed: nat): seq<Share>
    requires total > 0
  {
    if ts == [] then []
    else if |ts| == 1 then
      if pool > distributed then [Share(ts[0].address, pool - distributed)] else []
    else
      var reward := Floor(pool, ts[0].count, total);
      if reward > 0 then [Share(ts[0].address, reward)] + Shares(ts[1..], pool, total, distributed + reward)
      else Shares(ts[1..], pool, total, distributed)
  }

  function Floor(pool: nat, count: nat, total: nat): nat
    requires total > 0
  {
    assert pool * count >= 0;
    pool * count / total
  }

  function ChallengerPool(pool: nat, bps: nat): nat {
    pool * bps / 10000
  }

  function Allocate(batches: seq<Tally>, pool: nat, bps: nat): seq<Share> {
    if batches == [] || ChallengerPool(pool, bps) == 0 || SumCounts(batches) == 0 then []
    else Shares(Totals(batches), ChallengerPool(pool, bps), SumCounts(batches), 0)
  }

  /** What has been given out never runs ahead of the counts already served. */
  predicate OnPace(pool: nat, total: nat, distributed: nat, left: nat) {
    left <= total && distributed * total <= pool * (total - left)
  }

  lemma PaceStep(pool: nat, total: nat, distributed: nat, count: nat, left: nat)
    requires total > 0 && OnPace(pool, total, distributed, count + left)
    ensures OnPace(pool, total, distributed + Floor(pool, count, total), left)
  {
    var f := Floor(pool, count, total);
    assert f * total <= pool * count by { QuotientTimes(pool * count, total); }
    assert (distributed + f) * total == distributed * total + f * total;
    assert pool * (total - left) == pool * (total - (count + left)) + pool * count;
  }

  lemma QuotientTimes(a: nat, d: nat)
    requires d > 0
    ensures a / d * d <= a
  {
    assert a == d * (a / d) + a % d;
  }

  lemma PaceBound(pool: nat, total: nat, distributed: nat, left: nat)
    requires total > 0 && OnPace(pool, total, distributed, left)
    ensures distributed + Floor(pool, left, total) <= pool
  {
    PaceStep(pool, total, distributed, left, 0);
    var d := distributed + Floor(pool, left, total);
    assert total * d == d * total && total * (pool + 1) == pool * total + total;
    MulCancel(total, d, pool + 1);
  }

  /** The shares add up to exactly what was left to give. */
  lemma {:induction false} SharesSum(ts: seq<Tally>, pool: nat, total: nat, distributed: nat)
    requires total > 0 && ts != [] && OnPace(pool, total, distributed, SumCounts(ts))
    ensures distributed <= pool && SumShares(Shares(ts, pool, total, distributed)) == pool - distributed
    decreases |ts|
  {
    hide Floor, OnPace;
    PaceBound(pool, total, distributed, SumCounts(ts));
    if |ts| > 1 {
      var reward := Floor(pool, ts[0].count, total);
      PaceStep(pool, total, distributed, ts[0].count, SumCounts(ts[1..]));
      SharesSum(ts[1..], pool, total, distributed + reward);
      var rest := Shares(ts[1..], pool, total, distributed + reward);
      assert ([Share(ts[0].address, reward)] + rest)[1..] == rest;
    }
  }

  predicate GetsAtLeast(shares: seq<Share>, a: Address, amount: nat) {
    exists i :: 0 <= i < |shares| && shares[i].address == a && shares[i].amount >= amount
  }

  lemma GetsAtLeastLater(first: Share, shares: seq<Share>, a: Address, amount: nat)
    requires GetsAtLeast(shares, a, amount)
    ensures GetsAtLeast([first] + shares, a, amount)
  {
    var i :| 0 <= i < |shares| && shares[i].address == a && shares[i].amount >= amount;
    assert ([first] + shares)[i + 1] == shares[i];
  }

  /** Every challenger gets at least its proportional share, rounded down. */
  lemma {:induction false} SharesAtLeast(ts: seq<Tally>, pool: nat, total: nat, distributed: nat, i: nat)
    requires total > 0 && i < |ts| && OnPace(pool, total, distributed, SumCounts(ts))
    requires Floor(pool, ts[i].count, total) > 0
    ensures GetsAtLeast(Shares(ts, pool, total, distributed), ts[i].address, Floor(pool, ts[i].count, total))
    decreases |ts|
  {
    hide Floor, OnPace;
    var all := Shares(ts, pool, total, distributed);
    if |ts| == 1 {
      assert SumCounts(ts[1..]) == 0;
      PaceBound(pool, total, distributed, ts[0].count);
      assert all[0] == Share(ts[0].address, pool - distributed);
    } else {
      var reward := Floor(pool, ts[0].count, total);
      PaceStep(pool, total, distributed, ts[0].count, SumCounts(ts[1..]));
      if i == 0 {
        assert all[0] == Share(ts[0].address, reward);
      } else {
        SharesAtLeast(ts[1..], pool, total, distributed + reward, i - 1);
        GetsAtLeastLater(Share(ts[0].address, reward), Shares(ts[1..], pool, total, distributed + reward),
                         ts[i].address, Floor(pool, ts[i].count, total));
      }
    }
  }

  /** The counts under an address. */
  function CountFor(ts: seq<Tally>, a: Address): nat {
    if ts == [] then 0 else (if ts[0].address == a then ts[0].count else 0) + CountFor(ts[1..], a)
  }

  function AmountTo(shares: seq<Share>, a: Address): nat {
    if shares == [] then 0 else (if shares[0].address == a then shares[0].amount else 0) + AmountTo(shares[1..], a)
  }

  lemma {:induction false} CountForConcat(x: seq<Tally>, y: seq<Tally>, a: Address)
    ensures CountFor(x + y, a) == CountFor(x, a) + CountFor(y, a)
  {
    if x == [] {
      assert x + y == y;
    } else {
      assert (x + y)[1..] == x[1..] + y;
      CountForConcat(x[1..], y, a);
    }
  }

  lemma CountForOne(t: Tally, a: Address)
    ensures CountFor([t], a) == if t.address == a then t.count else 0
  {
    assert [t][1..] == [];
  }

  /** Adding up per address keeps every address's count. */
  lemma {:induction false} TotalsPerAddress(batches: seq<Tally>, a: Address)
    ensures CountFor(Totals(batches), a) == CountFor(batches, a)
  {
    if batches != [] {
      var n := |batches| - 1;
      var before, t := Totals(batches[..n]), batches[n];
      TotalsPerAddress(batches[..n], a);
      assert batches == batches[..n] + [t];
      CountForConcat(batches[..n], [t], a);
      CountForOne(t, a);
      AddCountPerAddress(before, t, a);
    }
  }

  lemma AddCountPerAddress(ts: seq<Tally>, t: Tally, a: Address)
    ensures CountFor(AddCount(ts, t), a) == CountFor(ts, a) + if t.address == a then t.count else 0
  {
    var k := TallyOf(ts, t.address);
    CountForOne(t, a);
    if k == |ts| {
      CountForConcat(ts, [t], a);
    } else {
      var sum := Tally(t.address, ts[k].count + t.count);
      hide CountFor;
      CountForReplaced(ts, k, sum, a);
    }
  }

  lemma CountForReplaced(ts: seq<Tally>, k: nat, t: Tally, a: Address)
    requires k < |ts| && t.address == ts[k].address
    ensures CountFor(ts[k := t], a) == CountFor(ts, a) + if t.address == a then t.count - ts[k].count else 0
  {
    CountForSplit(ts, k, a);
    CountForSplit(ts[k := t], k, a);
    hide CountFor;
    assert ts[k := t][..k] == ts[..k] && ts[k := t][k + 1..] == ts[k + 1..];
  }

  lemma CountForSplit(ts: seq<Tally>, k: nat, a: Address)
    requires k < |ts|
    ensures CountFor(ts, a) == CountFor(ts[..k], a) + (if ts[k].address == a then ts[k].count else 0) + CountFor(ts[k + 1..], a)
  {
    CountForConcat(ts[..k], ts[k..], a);
    assert ts == ts[..k] + ts[k..] && ts[k..][1..] == ts[k + 1..];
  }

  lemma {:induction false} OneTally(ts: seq<Tally>, i: nat)
    requires DistinctTallies(ts) && i < |ts|
    ensures CountFor(ts, ts[i].address) == ts[i].count
  {
    if i == 0 {
      NoTally(ts[1..], ts[0].address);
    } else {
      OneTally(ts[1..], i - 1);
    }
  }

  lemma {:induction false} NoTally(ts: seq<Tally>, a: Address)
    requires forall i :: 0 <= i < |ts| ==> ts[i].address != a
    ensures CountFor(ts, a) == 0
  {
    if ts != [] {
      NoTally(ts[1..], a);
    }
  }

  lemma {:induction false} NoShare(ts: seq<Tally>, pool: nat, total: nat, distributed: nat, a: Address)
    requires total > 0 && forall i :: 0 <= i < |ts| ==> ts[i].address != a
    ensures AmountTo(Shares(ts, pool, total, distributed), a) == 0
    decreases |ts|
  {
    if |ts| > 1 {
      hide Floor;
      var reward := Floor(pool, ts[0].count, total);
      NoShare(ts[1..], pool, total, distributed + reward, a);
      FirstShare(ts, pool, total, distributed, a);
    }
  }

  lemma FirstShare(ts: seq<Tally>, pool: nat, total: nat, distributed: nat, a: Address)
    requires total > 0 && |ts| > 1
    ensures var reward := Floor(pool, ts[0].count, total);
      AmountTo(Shares(ts, pool, total, distributed), a) ==
        (if ts[0].address == a then reward else 0) + AmountTo(Shares(ts[1..], pool, total, distributed + reward), a)
  {
    hide Floor;
    var reward := Floor(pool, ts[0].count, total);
    var rest := Shares(ts[1..], pool, total, distributed + reward);
    if reward > 0 {
      assert ([Share(ts[0].address, reward)] + rest)[1..] == rest;
    }
  }

  /** Everyone but the last gets exactly its proportional share, rounded down. */
  lemma {:induction false} SharesExact(ts: seq<Tally>, pool: nat, total: nat, distributed: nat, i: nat)
    requires total > 0 && i < |ts| - 1 && DistinctTallies(ts)
    ensures AmountTo(Shares(ts, pool, total, distributed), ts[i].address) == Floor(pool, ts[i].count, total)
    decreases |ts|
  {
    hide Floor;
    var reward := Floor(pool, ts[0].count, total);
    FirstShare(ts, pool, total, distributed, ts[i].address);
    if i == 0 {
      NoShare(ts[1..], pool, total, distributed + reward, ts[0].address);
    } else {
      SharesExact(ts[1..], pool, total, distributed + reward, i - 1);
    }
  }

  /**
   * The allocation, address by address: each gets its exact proportion of the challengers' pool rounded down,
   * except the one mentioned last, which takes what is left.
   */
  lemma AllocatedExactly(batches: seq<Tally>, pool: nat, bps: nat, i: nat)
    requires i < |Totals(batches)| - 1 && SumCounts(batches) > 0
    ensures var a := Totals(batches)[i].address;
      AmountTo(Allocate(batches, pool, bps), a) == (pool * bps / 10000) * CountFor(batches, a) / SumCounts(batches)
  {
    var ts, a, share := Totals(batches), Totals(batches)[i].address, ChallengerPool(pool, bps);
    assert batches != [];
    assert share == pool * bps / 10000;
    FloorIs(share, CountFor(batches, a), SumCounts(batches));
    hide Totals, ChallengerPool, Shares, Floor, CountFor, SumCounts, DistinctTallies;
    TotalsKeepCounts(batches);
    TotalsPerAddress(batches, a);
    OneTally(ts, i);
    if share > 0 {
      SharesExact(ts, share, SumCounts(batches), 0, i);
    } else {
      FloorOfNothing(CountFor(batches, a), SumCounts(batches));
    }
  }

  lemma FloorIs(pool: nat, count: nat, total: nat)
    requires total > 0
    ensures Floor(pool, count, total) == pool * count / total
  {
  }

  lemma FloorOfNothing(count: nat, total: nat)
    requires total > 0
    ensures Floor(0, count, total) == 0
  {
    assert 0 * count == 0;
  }

  /** Something is allocated exactly when there is a pool and a count, and then all of it. */
  lemma AllocateSum(batches: seq<Tally>, pool: nat, bps: nat)
    ensures SumShares(Allocate(batches, pool, bps)) == if SumCounts(batches) == 0 then 0 else ChallengerPool(pool, bps)
  {
    if batches != [] && ChallengerPool(pool, bps) > 0 && SumCounts(batches) > 0 {
      TotalsKeepCounts(batches);
      SharesSum(Totals(batches), ChallengerPool(pool, bps), SumCounts(batches), 0);
    }
  }

  /** The reserve fits the pool for every pool exactly when the share is at most the whole. */
  lemma ReserveFitsIff(bps: nat)
    ensures (forall pool: nat :: ChallengerPool(pool, bps) <= pool) <==> bps <= 10000
  {
    if bps <= 10000 {
      forall pool: nat ensures ChallengerPool(pool, bps) <= pool {
        assert pool * bps <= pool * 10000;
      }
    } else {
      assert ChallengerPool(10000, bps) == bps;
    }
  }

  method AllocateChallengerRewards(batches: seq<Tally>, pool: nat, bps: nat) returns (r: seq<Share>)
    ensures r == Allocate(batches, pool, bps)
  {
    var challengerPool := pool * bps / 10000;
    if |batches| == 0 || challengerPool == 0 { return []; }
    var totals: seq<Tally> := [];
    var total := 0;
    for i := 0 to |batches|
      invariant totals == Totals(batches[..i]) && total == SumCounts(batches[..i])
    {
      assert batches[..i + 1][..i] == batches[..i];
      assert batches[..i + 1] == batches[..i] + [batches[i]];
      SumCountsAppend(batches[..i], batches[i]);
      totals := AddCount(totals, batches[i]);
      total := total + batches[i].count;
    }
    assert batches[..|batches|] == batches;
    if total == 0 { return []; }
    TotalsKeepCounts(batches);
    r := ShareOut(totals, challengerPool, total);
  }

  /** The shares from one position on. */
  function SharesFrom(ts: seq<Tally>, i: nat, pool: nat, total: nat, distributed: nat): seq<Share>
    requires total > 0 && i <= |ts|
  {
    if i == |ts| then [] else Shares(ts[i..], pool, total, distributed)
  }

  lemma SharesStep(ts: seq<Tally>, i: nat, pool: nat, total: nat, distributed: nat, reward: nat)
    requires total > 0 && i < |ts| && distributed <= pool
    requires reward == if i == |ts| - 1 then pool - distributed else Floor(pool, ts[i].count, total)
    ensures SharesFrom(ts, i, pool, total, distributed) ==
      (if reward > 0 then [Share(ts[i].address, reward)] else []) + SharesFrom(ts, i + 1, pool, total, distributed + reward)
  {
    hide Floor;
    assert ts[i..][1..] == ts[i + 1..];
  }

  method ShareOut(ts: seq<Tally>, pool: nat, total: nat) returns (r: seq<Share>)
    requires ts != [] && total == SumCounts(ts) && total > 0
    ensures r == Shares(ts, pool, total, 0)
  {
    r := [];
    var distributed := 0;
    var i := 0;
    assert ts[0..] == ts;
    OnPaceStart(pool, total);
    while i < |ts|
      invariant 0 <= i <= |ts|
      invariant i < |ts| ==> OnPace(pool, total, distributed, SumCounts(ts[i..]))
      invariant r + SharesFrom(ts, i, pool, total, distributed) == SharesFrom(ts, 0, pool, total, 0)
    {
      hide OnPace, Floor, SharesFrom, Shares;
      PaceBound(pool, total, distributed, SumCounts(ts[i..]));
      var reward := if i == |ts| - 1 then pool - distributed else Floor(pool, ts[i].count, total);
      SharesStep(ts, i, pool, total, distributed, reward);
      if i < |ts| - 1 {
        assert ts[i..][1..] == ts[i + 1..];
        PaceStep(pool, total, distributed, ts[i].count, SumCounts(ts[i + 1..]));
      }
      if reward > 0 {
        r := r + [Share(ts[i].address, reward)];
        distributed := distributed + reward;
      }
      i := i + 1;
    }
  }

  lemma OnPaceStart(pool: nat, total: nat)
    ensures OnPace(pool, total, 0, total)
  {
  }
}
