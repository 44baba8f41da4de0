/**
 * Fee and emission arithmetic: the base fee of the next block, the blob gas price and the block
 * reward. All amounts are unbounded integers, as in the program; its division truncates toward zero.
 */
module Fees {
  import opened Arithmetic

  const MIN_BASE_FEE: int := 1_000_000_000
  const TARGET_PERCENT: int := 50
  const MAX_CHANGE_DENOMINATOR: int := 8
  const TARGET_BLOB_GAS: nat := 393_216
  const BLOB_FRACTION: nat := 3_338_477
  const MIN_BLOB_PRICE: nat := 1

  /** Division that truncates toward zero. */
  function Quot(a: int, b: int): int
    requires b > 0
  {
    if a >= 0 then a / b else -((-a) / b)
  }

  function Pow(b: nat, n: nat): nat {
    if n == 0 then 1 else b * Pow(b, n - 1)
  }

  // ----- Base fee --------------------------------------------------------------------------

  function Target(limit: int): int {
    Quot(limit * TARGET_PERCENT, 100)
  }

  function NextBaseFee(fee: int, used: int, limit: int): int {
    if limit <= 0 then fee
    else
      var gas := if used > limit then limit else used;
      var target := Target(limit);
      if target == 0 || gas == target then fee
      else if gas > target then
        var increase := Quot(Quot(fee * (gas - target), target), MAX_CHANGE_DENOMINATOR);
        fee + (if increase > 0 then increase else 1)
      else
        var decrease := Quot(Quot(fee * (target - gas), target), MAX_CHANGE_DENOMINATOR);
        var lower := fee - decrease;
        if lower > MIN_BASE_FEE then lower else MIN_BASE_FEE
  }

  lemma TargetIsHalf(limit: int)
    requires limit > 0
    ensures Target(limit) == limit / 2
  {
  }

  /** A share of a fee: the quotient lies between zero and the fee, and grows with both factors. */
  lemma ShareBounds(fee: nat, part: nat, whole: nat)
    requires whole > 0
    ensures fee * part >= 0
    ensures part <= whole ==> fee * part / whole <= fee
    ensures part >= whole ==> fee * part / whole >= fee
  {
    if part <= whole { MulMono(fee, part, whole); DivMono(fee * part, fee * whole, whole); }
    if part >= whole { MulMono(fee, whole, part); DivMono(fee * whole, fee * part, whole); }
    assert fee * whole / whole == fee by { DivCancel(fee, whole); }
  }

  /** The eighth of a share that a step adds or takes. */
  function Change(fee: nat, part: nat, whole: nat): nat
    requires whole > 0
  {
    assert fee * part >= 0;
    fee * part / whole / 8
  }

  lemma ChangeMonoPart(fee: nat, p: nat, q: nat, whole: nat)
    requires whole > 0 && p <= q
    ensures Change(fee, p, whole) <= Change(fee, q, whole)
  {
    MulMono(fee, p, q);
    DivMono(fee * p, fee * q, whole);
  }

  lemma ChangeMonoFee(fee: nat, fee': nat, part: nat, whole: nat)
    requires whole > 0 && fee <= fee'
    ensures Change(fee, part, whole) <= Change(fee', part, whole)
  {
    MulMono(part, fee, fee');
    DivMono(fee * part, fee' * part, whole);
  }

  /** Above the target the fee rises, at the target it stays, below it falls no further than the floor. */
  lemma BaseFeeDirection(fee: int, used: nat, limit: int)
    requires fee >= MIN_BASE_FEE && limit > 1
    ensures used > limit / 2 ==> NextBaseFee(fee, used, limit) > fee
    ensures used == limit / 2 ==> NextBaseFee(fee, used, limit) == fee
    ensures used < limit / 2 ==> MIN_BASE_FEE <= NextBaseFee(fee, used, limit) <= fee
  {
    hide NextBaseFee, Change;
    StepForm(fee, used, limit);
    if used < limit / 2 {
      DecreaseAtMost(fee, limit / 2 - used, limit / 2);
    }
  }

  function Clamped(used: nat, limit: nat): nat {
    if used > limit then limit else used
  }

  /** The step once target and gas are known. */
  function StepFee(fee: nat, gas: nat, target: nat): int
    requires target > 0
  {
    if gas == target then fee
    else if gas > target then
      if Change(fee, gas - target, target) > 0 then fee + Change(fee, gas - target, target) else fee + 1
    else if fee - Change(fee, target - gas, target) > MIN_BASE_FEE then fee - Change(fee, target - gas, target)
    else MIN_BASE_FEE
  }

  lemma StepForm(fee: nat, used: nat, limit: int)
    requires limit > 1
    ensures NextBaseFee(fee, used, limit) == StepFee(fee, Clamped(used, limit), limit / 2)
  {
    TargetIsHalf(limit);
    var target, gas := limit / 2, Clamped(used, limit);
    if gas > target {
      ShareIsChange(fee, gas - target, target);
    } else {
      ShareIsChange(fee, target - gas, target);
    }
    hide Change, Quot, Target;
  }

  lemma ShareIsChange(fee: nat, part: nat, whole: nat)
    requires whole > 0
    ensures Quot(Quot(fee * part, whole), MAX_CHANGE_DENOMINATOR) == Change(fee, part, whole)
  {
    assert fee * part >= 0;
  }

  lemma NoTarget(fee: int, used: int, limit: int)
    requires limit <= 1
    ensures NextBaseFee(fee, used, limit) == fee
  {
    if limit == 1 {
      TargetIsHalf(limit);
    }
  }

  lemma DecreaseAtMost(fee: nat, part: nat, whole: nat)
    requires whole > 0 && part <= whole
    ensures 8 * Change(fee, part, whole) <= fee
  {
    ShareBounds(fee, part, whole);
  }

  /** A change is the exact fraction of the fee, rounded down. */
  lemma ChangeExact(fee: nat, part: nat, whole: nat)
    requires whole > 0
    ensures whole * (8 * Change(fee, part, whole)) <= fee * part < whole * (8 * Change(fee, part, whole) + 8)
  {
    var a := fee * part;
    assert a >= 0;
    var q := a / whole;
    var d := q / 8;
    assert whole * q <= a < whole * q + whole == whole * (q + 1);
    MulMono(whole, 8 * d, q);
    MulMono(whole, q + 1, 8 * d + 8);
  }

  /**
   * One step moves the fee by an eighth of its share of the distance to the target, rounded down: up by
   * at least one, down to no less than the floor.
   */
  lemma BaseFeeStep(fee: int, used: nat, limit: int)
    requires fee >= MIN_BASE_FEE && limit > 1
    ensures
      var target, gas, next := limit / 2, Clamped(used, limit), NextBaseFee(fee, used, limit);
      && (gas > target ==>
            var up := next - fee;
            up >= 1 && (up == 1 || target * (8 * up) <= fee * (gas - target)) && fee * (gas - target) < target * (8 * up + 8))
      && (gas < target && next > MIN_BASE_FEE ==>
            var down := fee - next;
            target * (8 * down) <= fee * (target - gas) < target * (8 * down + 8))
      && (gas < target && next == MIN_BASE_FEE ==> target * (8 * (fee - next)) <= fee * (target - gas))
  {
    hide NextBaseFee, Change;
    StepForm(fee, used, limit);
    var target, gas := limit / 2, Clamped(used, limit);
    if gas > target {
      ChangeExact(fee, gas - target, target);
    } else if gas < target {
      ChangeExact(fee, target - gas, target);
      var d := Change(fee, target - gas, target);
      if fee - d <= MIN_BASE_FEE {
        MulMono(target, 8 * (fee - MIN_BASE_FEE), 8 * d);
      }
    }
  }

  /** More gas used never gives a lower fee. */
  lemma BaseFeeMonotone(fee: int, used: nat, used': nat, limit: int)
    requires fee >= MIN_BASE_FEE && used <= used'
    ensures NextBaseFee(fee, used, limit) <= NextBaseFee(fee, used', limit)
  {
    hide NextBaseFee, StepFee;
    if limit > 1 {
      StepForm(fee, used, limit);
      StepForm(fee, used', limit);
      StepMonotone(fee, Clamped(used, limit), Clamped(used', limit), limit / 2);
    } else {
      NoTarget(fee, used, limit);
      NoTarget(fee, used', limit);
    }
  }

  lemma StepMonotone(fee: nat, gas: nat, gas': nat, target: nat)
    requires fee >= MIN_BASE_FEE && gas <= gas' && target > 0
    ensures StepFee(fee, gas, target) <= StepFee(fee, gas', target)
  {
    hide Change;
    if gas > target {
      ChangeMonoPart(fee, gas - target, gas' - target, target);
    } else if gas' < target {
      ChangeMonoPart(fee, target - gas', target - gas, target);
    }
  }

  /** Below the floor that fails at once, so the floor is the exact condition. */
  lemma MonotoneIffAtFloor(fee: int, limit: int)
    requires limit > 1
    ensures (forall u: nat, u': nat :: u <= u' ==> NextBaseFee(fee, u, limit) <= NextBaseFee(fee, u', limit))
      <==> fee >= MIN_BASE_FEE
  {
    if fee >= MIN_BASE_FEE {
      forall u: nat, u': nat | u <= u' ensures NextBaseFee(fee, u, limit) <= NextBaseFee(fee, u', limit) {
        BaseFeeMonotone(fee, u, u', limit);
      }
    } else {
      TargetIsHalf(limit);
      var target := limit / 2;
      assert NextBaseFee(fee, target, limit) == fee;
      EmptyBlockMeetsFloor(fee, limit);
    }
  }

  lemma EmptyBlockMeetsFloor(fee: int, limit: int)
    requires limit > 1 && fee < MIN_BASE_FEE
    ensures NextBaseFee(fee, 0, limit) == MIN_BASE_FEE
  {
    TargetIsHalf(limit);
    var target := limit / 2;
    if fee >= 0 {
      DivCancel(fee, target);
    } else {
      DivCancel(-fee, target);
      assert (-fee) * target == -(fee * target);
    }
  }

  /** A higher fee stays a higher fee under the same load. */
  lemma BaseFeeMonotoneInFee(fee: int, fee': int, used: nat, limit: int)
    requires fee <= fee'
    ensures NextBaseFee(fee, used, limit) <= NextBaseFee(fee', used, limit)
  {
    hide NextBaseFee, StepFee;
    if limit <= 1 {
      NoTarget(fee, used, limit);
      NoTarget(fee', used, limit);
    } else if fee >= 0 {
      StepForm(fee, used, limit);
      StepForm(fee', used, limit);
      StepMonotoneInFee(fee, fee', Clamped(used, limit), limit / 2);
    } else {
      NegativeStep(fee, used, limit);
      if fee' < 0 {
        NegativeStep(fee', used, limit);
      } else {
        StepForm(fee', used, limit);
        StepAtLeast(fee', Clamped(used, limit), limit / 2);
      }
    }
  }

  /** A negative fee rises by one above the target and goes to the floor below it. */
  lemma NegativeStep(fee: int, used: nat, limit: int)
    requires fee < 0 && limit > 1
    ensures var gas, target := Clamped(used, limit), limit / 2;
      NextBaseFee(fee, used, limit) == if gas == target then fee else if gas > target then fee + 1 else MIN_BASE_FEE
  {
    TargetIsHalf(limit);
    var target, gas := limit / 2, Clamped(used, limit);
    if gas > target {
      NegativeShare(fee, gas - target, target);
    } else {
      NegativeShare(fee, target - gas, target);
      DecreaseAtMost(-fee, target - gas, target);
    }
  }

  lemma NegativeShare(fee: int, part: nat, whole: nat)
    requires fee < 0 && whole > 0
    ensures Quot(Quot(fee * part, whole), MAX_CHANGE_DENOMINATOR) + Change(-fee, part, whole) == 0
  {
    assert (-fee) * part == -(fee * part) && (-fee) * part >= 0;
  }

  lemma StepAtLeast(fee: nat, gas: nat, target: nat)
    requires target > 0
    ensures gas >= target ==> StepFee(fee, gas, target) >= fee
    ensures gas < target ==> StepFee(fee, gas, target) >= MIN_BASE_FEE
  {
    hide Change;
  }

  lemma StepMonotoneInFee(fee: nat, fee': nat, gas: nat, target: nat)
    requires fee <= fee' && target > 0
    ensures StepFee(fee, gas, target) <= StepFee(fee', gas, target)
  {
    hide Change;
    if gas > target {
      ChangeMonoFee(fee, fee', gas - target, target);
    } else if gas < target {
      DecreaseGrowsSlowly(fee, fee', target - gas, target);
    }
  }

  /** The decrease grows no faster than the fee. */
  lemma DecreaseGrowsSlowly(fee: nat, fee': nat, part: nat, whole: nat)
    requires whole > 0 && part <= whole && fee <= fee'
    ensures fee - Change(fee, part, whole) <= fee' - Change(fee', part, whole)
  {
    var a, b, d := fee * part, fee' * part, fee' - fee;
    MulMono(d, part, whole);
    assert b == a + d * part;
    assert b <= a + d * whole;
    DivMono(b, a + d * whole, whole);
    assert (a + d * whole) / whole == a / whole + d by { DivPlus(a, d, whole); }
    DivMono(b / whole, a / whole + d, 8);
  }

  // The one-eighth bound

  /** The fee moves by at most an eighth in one step. */
  predicate WithinEighth(fee: int, next: int) {
    8 * (next - fee) <= fee && 8 * (fee - next) <= fee
  }

  lemma EvenLimitStep(fee: int, used: nat, limit: int)
    requires fee >= MIN_BASE_FEE && (limit <= 1 || limit % 2 == 0)
    ensures WithinEighth(fee, NextBaseFee(fee, used, limit))
  {
    hide NextBaseFee, StepFee;
    if limit > 1 {
      StepForm(fee, used, limit);
      StepWithinEighth(fee, Clamped(used, limit), limit / 2);
    } else {
      NoTarget(fee, used, limit);
    }
  }

  lemma StepWithinEighth(fee: nat, gas: nat, target: nat)
    requires fee >= MIN_BASE_FEE && target > 0 && gas <= 2 * target
    ensures WithinEighth(fee, StepFee(fee, gas, target))
  {
    hide Change;
    if gas > target {
      DecreaseAtMost(fee, gas - target, target);
    } else if gas < target {
      DecreaseAtMost(fee, target - gas, target);
    }
  }

  /** With an odd limit a full block overshoots: the target rounds down. */
  lemma OddLimitOvershoots(limit: int)
    requires limit > 1 && limit % 2 == 1
    ensures !WithinEighth(8 * (limit / 2) * MIN_BASE_FEE, NextBaseFee(8 * (limit / 2) * MIN_BASE_FEE, limit, limit))
  {
    var target := limit / 2;
    var fee := 8 * target * MIN_BASE_FEE;
    StepForm(fee, limit, limit);
    assert limit - target == target + 1;
    var grown := 8 * (target + 1) * MIN_BASE_FEE;
    assert fee * (target + 1) == grown * target;
    DivCancel(grown, target);
    assert Change(fee, target + 1, target) == (target + 1) * MIN_BASE_FEE;
  }

  /** The one-eighth bound holds at every fee from the floor up exactly when the limit is even or at most one. */
  lemma EighthIffEvenLimit(limit: int)
    ensures (forall fee: int, used: nat :: fee >= MIN_BASE_FEE ==> WithinEighth(fee, NextBaseFee(fee, used, limit)))
      <==> (limit <= 1 || limit % 2 == 0)
  {
    if limit <= 1 || limit % 2 == 0 {
      forall fee: int, used: nat | fee >= MIN_BASE_FEE ensures WithinEighth(fee, NextBaseFee(fee, used, limit)) {
        EvenLimitStep(fee, used, limit);
      }
    } else {
      OddLimitOvershoots(limit);
      assert 8 * (limit / 2) * MIN_BASE_FEE >= MIN_BASE_FEE;
    }
  }

  // Whole chains

  function FeeAfter(fee: int, used: seq<nat>, limit: int): int {
    if used == [] then fee
    else NextBaseFee(FeeAfter(fee, used[..|used| - 1], limit), used[|used| - 1], limit)
  }

  lemma {:induction false} FeeNeverBelowFloor(fee: int, used: seq<nat>, limit: int)
    requires fee >= MIN_BASE_FEE
    ensures FeeAfter(fee, used, limit) >= MIN_BASE_FEE
  {
    if used != [] {
      FeeNeverBelowFloor(fee, used[..|used| - 1], limit);
      if limit > 1 {
        BaseFeeDirection(FeeAfter(fee, used[..|used| - 1], limit), used[|used| - 1], limit);
      }
    }
  }

  /** With an even limit a chain of blocks moves the fee by at most nine eighths and seven eighths a block. */
  lemma {:induction false} FeeEnvelope(fee: int, used: seq<nat>, limit: int)
    requires fee >= MIN_BASE_FEE && (limit <= 1 || limit % 2 == 0)
    ensures Pow(7, |used|) * fee <= Pow(8, |used|) * FeeAfter(fee, used, limit) <= Pow(9, |used|) * fee
  {
    if used != [] {
      var rest := used[..|used| - 1];
      FeeEnvelope(fee, rest, limit);
      FeeNeverBelowFloor(fee, rest, limit);
      var f := FeeAfter(fee, rest, limit);
      EvenLimitStep(f, used[|used| - 1], limit);
      hide NextBaseFee, Pow;
      EnvelopeStep(|rest|, fee, f, NextBaseFee(f, used[|used| - 1], limit));
    }
  }

  lemma EnvelopeStep(n: nat, fee: int, f: int, next: int)
    requires Pow(7, n) * fee <= Pow(8, n) * f <= Pow(9, n) * fee && 7 * f <= 8 * next <= 9 * f
    ensures Pow(7, n + 1) * fee <= Pow(8, n + 1) * next <= Pow(9, n + 1) * fee
  {
    Scale(Pow(8, n), f, next, Pow(7, n) * fee, Pow(9, n) * fee);
    Unfold(7, n, fee);
    Unfold(8, n, next);
    Unfold(9, n, fee);
  }

  lemma Unfold(b: nat, n: nat, x: int)
    ensures Pow(b, n + 1) * x == b * (Pow(b, n) * x)
  {
    assert b * Pow(b, n) * x == b * (Pow(b, n) * x);
  }

  lemma Scale(p: nat, f: int, next: int, lo: int, hi: int)
    requires lo <= p * f <= hi && 7 * f <= 8 * next <= 9 * f
    ensures 7 * lo <= 8 * (p * next) <= 9 * hi
  {
    assert p * (7 * f) <= p * (8 * next) <= p * (9 * f);
    assert p * (7 * f) == 7 * (p * f) && p * (8 * next) == 8 * (p * next) && p * (9 * f) == 9 * (p * f);
  }

  /** Of two chains, the one that starts no lower and is loaded no less never has the lower fee. */
  lemma {:induction false} FeeOrderKept(fee: int, used: seq<nat>, fee': int, used': seq<nat>, limit: int)
    requires MIN_BASE_FEE <= fee <= fee' && |used| == |used'|
    requires forall i :: 0 <= i < |used| ==> used[i] <= used'[i]
    ensures FeeAfter(fee, used, limit) <= FeeAfter(fee', used', limit)
  {
    if used != [] {
      var n := |used| - 1;
      FeeOrderKept(fee, used[..n], fee', used'[..n], limit);
      FeeNeverBelowFloor(fee, used[..n], limit);
      var f, f' := FeeAfter(fee, used[..n], limit), FeeAfter(fee', used'[..n], limit);
      BaseFeeMonotoneInFee(f, f', used[n], limit);
      BaseFeeMonotone(f', used[n], used'[n], limit);
    }
  }

  // ----- Excess blob gas ---------------------------------------------------------------------

  function NextExcess(excess: nat, used: nat): (r: nat)
    ensures r == 0 || r == excess + used - TARGET_BLOB_GAS
  {
    if excess + used < TARGET_BLOB_GAS then 0 else excess + used - TARGET_BLOB_GAS
  }

  function ExcessAfter(excess: nat, used: seq<nat>): nat {
    if used == [] then excess
    else NextExcess(ExcessAfter(excess, used[..|used| - 1]), used[|used| - 1])
  }

  /** Gas above the target, over a stretch of blocks. */
  function Net(used: seq<nat>): int {
    if used == [] then 0 else Net(used[..|used| - 1]) + used[|used| - 1] - TARGET_BLOB_GAS
  }

  /** The excess is at least what every recent stretch used above its targets, and one of them attains it. */
  lemma {:induction false} ExcessIsWorstStretch(excess: nat, used: seq<nat>)
    ensures forall k :: 0 <= k <= |used| ==> Net(used[k..]) <= ExcessAfter(excess, used)
    ensures excess + Net(used) <= ExcessAfter(excess, used)
    ensures ExcessAfter(excess, used) == excess + Net(used)
      || exists k :: 0 <= k <= |used| && ExcessAfter(excess, used) == Net(used[k..])
  {
    if used == [] {
      assert used[0..] == [];
    } else {
      var n := |used| - 1;
      var rest, last := used[..n], used[n];
      ExcessIsWorstStretch(excess, rest);
      assert used[n + 1..] == [];
      forall k | 0 <= k <= n ensures Net(used[k..]) == Net(rest[k..]) + last - TARGET_BLOB_GAS {
        assert used[k..][..|used[k..]| - 1] == rest[k..];
      }
      var e := ExcessAfter(excess, rest);
      if e + last < TARGET_BLOB_GAS {
        assert ExcessAfter(excess, used) == Net(used[n + 1..]);
      } else if e != excess + Net(rest) {
        var k :| 0 <= k <= n && e == Net(rest[k..]);
        assert ExcessAfter(excess, used) == Net(used[k..]);
      }
    }
  }

  // ----- Blob gas price ------------------------------------------------------------------------

  /** One step of the series, rounded down. */
  function NextTerm(acc: nat, num: nat, den: nat, i: nat): nat
    requires den > 0 && i > 0
  {
    assert den * i > 0;
    acc * num / (den * i)
  }

  /** The terms still to come once the current one is `acc` and the next divisor is `i`. */
  function TermSum(acc: nat, num: nat, den: nat, i: nat): nat
    requires den > 0 && i > 0
    decreases if num / den < i then 0 else num / den + 1 - i, acc
  {
    if acc == 0 then 0
    else
      TermShrinks(acc, num, den, i);
      acc + TermSum(NextTerm(acc, num, den, i), num, den, i + 1)
  }

  lemma TermShrinks(acc: nat, num: nat, den: nat, i: nat)
    requires acc > 0 && den > 0 && i > 0
    ensures num / den < i ==> NextTerm(acc, num, den, i) < acc
  {
    assert den * i > 0;
    if num / den < i {
      assert num < den * i by {
        MulMono(den, num / den + 1, i);
      }
      StrictMul(acc, num, den * i);
      var d, next := den * i, NextTerm(acc, num, den, i);
      assert d * next <= acc * num < acc * d == d * acc;
      MulCancel(d, next, acc);
    }
  }

  lemma StrictMul(a: nat, x: nat, y: nat)
    requires a > 0 && x < y
    ensures a * x < a * y
  {
  }

  function FakeExponential(factor: nat, num: nat, den: nat): nat
    requires den > 0
  {
    TermSum(factor * den, num, den, 1) / den
  }

  method ComputeFakeExponential(factor: nat, num: nat, den: nat) returns (r: nat)
    requires den > 0
    ensures r == FakeExponential(factor, num, den)
  {
    var i, output := 1, 0;
    var acc: nat := factor * den;
    while acc > 0
      invariant i > 0
      invariant output + TermSum(acc, num, den, i) == TermSum(factor * den, num, den, 1)
      decreases if num / den < i then 0 else num / den + 1 - i, acc
    {
      hide NextTerm;
      TermShrinks(acc, num, den, i);
      output := output + acc;
      acc := NextTerm(acc, num, den, i);
      i := i + 1;
    }
    return output / den;
  }

  /** A larger first term and a larger numerator give a larger sum. */
  lemma {:induction false} TermSumMonotone(acc: nat, acc': nat, num: nat, num': nat, den: nat, i: nat)
    requires den > 0 && i > 0 && acc <= acc' && num <= num'
    ensures TermSum(acc, num, den, i) <= TermSum(acc', num', den, i)
    decreases if num / den < i then 0 else num / den + 1 - i, acc
  {
    if acc > 0 {
      TermShrinks(acc, num, den, i);
      MulMono(acc, num, num');
      MulMono(num', acc, acc');
      DivMono(acc * num, acc' * num', den * i);
      TermSumMonotone(NextTerm(acc, num, den, i), NextTerm(acc', num', den, i), num, num', den, i + 1);
    }
  }

  /** The price never falls when the numerator grows, starts at the factor and never goes below it. */
  lemma FakeExponentialMonotone(factor: nat, num: nat, num': nat, den: nat)
    requires den > 0 && num <= num'
    ensures FakeExponential(factor, num, den) <= FakeExponential(factor, num', den)
    ensures FakeExponential(factor, 0, den) == factor <= FakeExponential(factor, num, den)
  {
    TermSumMonotone(factor * den, factor * den, num, num', den, 1);
    TermSumMonotone(factor * den, factor * den, 0, num, den, 1);
    DivMono(TermSum(factor * den, num, den, 1), TermSum(factor * den, num', den, 1), den);
    DivMono(TermSum(factor * den, 0, den, 1), TermSum(factor * den, num, den, 1), den);
    assert TermSum(factor * den, 0, den, 1) == factor * den;
    DivCancel(factor, den);
  }

  function BlobPrice(excess: nat): nat {
    FakeExponential(MIN_BLOB_PRICE, excess, BLOB_FRACTION)
  }

  /** Blocks at or above the blob target never lower the blob price, blocks at or below never raise it. */
  lemma BlobPriceFollowsLoad(excess: nat, used: nat)
    ensures BlobPrice(excess) >= 1
    ensures used >= TARGET_BLOB_GAS ==> BlobPrice(NextExcess(excess, used)) >= BlobPrice(excess)
    ensures used <= TARGET_BLOB_GAS ==> BlobPrice(NextExcess(excess, used)) <= BlobPrice(excess)
  {
    hide FakeExponential;
    var next := NextExcess(excess, used);
    if used >= TARGET_BLOB_GAS {
      FakeExponentialMonotone(1, excess, next, BLOB_FRACTION);
    } else {
      FakeExponentialMonotone(1, next, excess, BLOB_FRACTION);
      FakeExponentialMonotone(1, excess, excess, BLOB_FRACTION);
    }
  }

  // How close the price comes to the exponential

  /** What one step of the series makes of a term. */
  function Ratio(a: real, x: real, i: nat): real
    requires i > 0
  {
    a * x / i as real
  }

  /** Terms and partial sums of the exponential series. */
  function SeriesTerm(x: real, i: nat): real {
    if i == 0 then 1.0 else Ratio(SeriesTerm(x, i - 1), x, i)
  }

  function Series(x: real, n: nat): real {
    if n == 0 then 0.0 else Series(x, n - 1) + SeriesTerm(x, n - 1)
  }

  /** The terms the loop adds, rounded down at each step, and their sums. */
  function LoopTerm(factor: nat, num: nat, den: nat, i: nat): nat
    requires den > 0
  {
    if i == 0 then factor * den
    else NextTerm(LoopTerm(factor, num, den, i - 1), num, den, i)
  }

  function LoopSum(factor: nat, num: nat, den: nat, n: nat): nat
    requires den > 0
  {
    if n == 0 then 0 else LoopSum(factor, num, den, n - 1) + LoopTerm(factor, num, den, n - 1)
  }

  /** How many terms the loop adds from here on. */
  function TermCount(acc: nat, num: nat, den: nat, i: nat): nat
    requires den > 0 && i > 0
    decreases if num / den < i then 0 else num / den + 1 - i, acc
  {
    if acc == 0 then 0
    else
      TermShrinks(acc, num, den, i);
      1 + TermCount(NextTerm(acc, num, den, i), num, den, i + 1)
  }

  /** Once a term is zero, the loop has added exactly the terms before it. */
  lemma {:induction false} LoopUnrolled(factor: nat, num: nat, den: nat, i: nat, n: nat)
    requires den > 0 && i <= n && LoopTerm(factor, num, den, n) == 0
    ensures LoopSum(factor, num, den, i) + TermSum(LoopTerm(factor, num, den, i), num, den, i + 1) == LoopSum(factor, num, den, n)
    decreases n - i
  {
    var acc := LoopTerm(factor, num, den, i);
    if i < n {
      hide NextTerm;
      LoopUnrolled(factor, num, den, i + 1, n);
      if acc == 0 {
        assert LoopTerm(factor, num, den, i + 1) == 0 by { NothingLeft(num, den, i + 1); }
      } else {
        TermShrinks(acc, num, den, i + 1);
      }
    }
  }

  lemma NothingLeft(num: nat, den: nat, i: nat)
    requires den > 0 && i > 0
    ensures NextTerm(0, num, den, i) == 0
  {
    assert den * i > 0;
  }

  /** The term after the last one counted is zero. */
  lemma {:induction false} CountedAll(factor: nat, num: nat, den: nat, i: nat)
    requires den > 0
    ensures LoopTerm(factor, num, den, i + TermCount(LoopTerm(factor, num, den, i), num, den, i + 1)) == 0
    decreases if num / den < i + 1 then 0 else num / den - i, LoopTerm(factor, num, den, i)
  {
    var acc := LoopTerm(factor, num, den, i);
    if acc > 0 {
      TermShrinks(acc, num, den, i + 1);
      CountedAll(factor, num, den, i + 1);
    }
  }

  lemma {:induction false} RealMul(a: nat, b: nat)
    ensures (a * b) as real == a as real * b as real
  {
    if b > 0 {
      RealMul(a, b - 1);
      assert a * b == a * (b - 1) + a;
    }
  }

  /** An integer quotient is the real one rounded down. */
  lemma RealQuot(a: nat, b: nat)
    requires b > 0
    ensures (a / b) as real <= a as real / b as real < (a / b) as real + 1.0
  {
    var q := a / b;
    RealMul(q, b);
    assert q * b <= a < q * b + b;
    var x, y, d := q as real, a as real, b as real;
    assert x * d <= y < x * d + d;
    RealDivBounds(x, y, d);
  }

  lemma RealMulMono(a: real, b: real, d: real)
    requires a <= b && d >= 0.0
    ensures a * d <= b * d
  {
    assert (b - a) * d >= 0.0;
  }

  lemma RealStrictMul(a: real, b: real, d: real)
    requires a < b && d > 0.0
    ensures a * d < b * d
  {
    assert (b - a) * d > 0.0;
  }

  lemma RealMulCancel(a: real, b: real, d: real)
    requires d > 0.0 && a * d <= b * d
    ensures a <= b
  {
    if b < a {
      RealStrictMul(b, a, d);
    }
  }

  lemma RealDivBounds(x: real, y: real, d: real)
    requires d > 0.0 && x * d <= y < x * d + d
    ensures x <= y / d < x + 1.0
  {
    var z := y / d;
    assert z * d == y;
    RealMulCancel(x, z, d);
    assert (x + 1.0) * d == x * d + d;
    if x + 1.0 <= z {
      RealMulMono(x + 1.0, z, d);
    }
  }

  lemma RatioAdds(a: real, b: real, x: real, i: nat)
    requires i > 0
    ensures Ratio(a + b, x, i) == Ratio(a, x, i) + Ratio(b, x, i)
  {
    assert (a + b) * x == a * x + b * x;
  }

  lemma RatioScales(c: real, a: real, x: real, i: nat)
    requires i > 0
    ensures c * Ratio(a, x, i) == Ratio(c * a, x, i)
  {
    var z := a * x / i as real;
    assert z * i as real == a * x;
    assert c * z * i as real == c * (a * x) == c * a * x;
  }

  lemma RatioNonnegative(a: real, x: real, i: nat)
    requires a >= 0.0 && x >= 0.0 && i > 0
    ensures Ratio(a, x, i) >= 0.0
  {
    assert a * x >= 0.0;
  }

  lemma RatioMono(a: real, b: real, x: real, i: nat)
    requires a <= b && x >= 0.0 && i > 0
    ensures Ratio(a, x, i) <= Ratio(b, x, i)
  {
    hide Ratio;
    RatioNonnegative(b - a, x, i);
    RatioAdds(b - a, a, x, i);
    assert b - a + a == b;
  }

  /** A later step makes less of the same term. */
  lemma RatioFalls(a: real, x: real, m: nat, i: nat)
    requires a >= 0.0 && x >= 0.0 && 0 < m <= i
    ensures Ratio(a, x, i) <= Ratio(a, x, m)
  {
    var z, d, e := Ratio(a, x, i), m as real, i as real;
    RatioNonnegative(a, x, i);
    assert z * e == a * x;
    RealMulMono(d, e, z);
    assert z * d <= a * x;
    assert Ratio(a, x, m) * d == a * x;
    RealMulCancel(z, Ratio(a, x, m), d);
  }

  lemma {:induction false} SeriesPositive(x: real, n: nat)
    requires x >= 0.0
    ensures SeriesTerm(x, n) >= 0.0 && Series(x, n) >= 0.0
  {
    hide Ratio;
    if n > 0 {
      SeriesPositive(x, n - 1);
      RatioNonnegative(SeriesTerm(x, n - 1), x, n);
    }
  }

  /** A partial sum times the next ratio is within the next partial sum. */
  lemma {:induction false} SeriesShift(x: real, m: nat, i: nat)
    requires x >= 0.0 && m <= i && i > 0
    ensures Ratio(Series(x, m), x, i) + 1.0 <= Series(x, m + 1)
  {
    if m == 0 {
      assert Series(x, 1) == Series(x, 0) + SeriesTerm(x, 0) == 1.0;
    } else {
      hide Ratio;
      SeriesShift(x, m - 1, i);
      SeriesPositive(x, m - 1);
      RatioAdds(Series(x, m - 1), SeriesTerm(x, m - 1), x, i);
      RatioFalls(SeriesTerm(x, m - 1), x, m, i);
    }
  }

  /** The value a loop term would have without rounding. */
  function Exact(factor: nat, num: nat, den: nat, i: nat): real
    requires den > 0
  {
    (factor * den) as real * SeriesTerm(num as real / den as real, i)
  }

  lemma ProductQuot(acc: nat, num: nat, den: nat, i: nat)
    requires den > 0 && i > 0
    ensures den * i > 0 && den as real * i as real > 0.0
    ensures
      var z := (acc as real * num as real) / (den as real * i as real);
      NextTerm(acc, num, den, i) as real <= z < NextTerm(acc, num, den, i) as real + 1.0
  {
    var a, b := acc * num, den * i;
    assert b > 0;
    RealMul(acc, num);
    RealMul(den, i);
    RealQuot(a, b);
  }

  /** One rounded step against the exact one. */
  lemma NextTermRounds(acc: nat, num: nat, den: nat, i: nat)
    requires den > 0 && i > 0
    ensures
      var exact := Ratio(acc as real, num as real / den as real, i);
      NextTerm(acc, num, den, i) as real <= exact < NextTerm(acc, num, den, i) as real + 1.0
  {
    hide NextTerm, Ratio;
    ProductQuot(acc, num, den, i);
    RatioIsQuot(acc, num, den, i);
  }

  lemma RatioIsQuot(acc: nat, num: nat, den: nat, i: nat)
    requires den > 0 && i > 0
    ensures den as real * i as real > 0.0
    ensures Ratio(acc as real, num as real / den as real, i) == (acc as real * num as real) / (den as real * i as real)
  {
    Regroup(acc as real, num as real, den as real, i as real);
  }

  lemma Regroup(a: real, n: real, d: real, k: real)
    requires d > 0.0 && k > 0.0
    ensures d * k > 0.0 && a * (n / d) / k == (a * n) / (d * k)
  {
    var z := a * (n / d) / k;
    assert z * k == a * (n / d);
    assert (n / d) * d == n;
    assert z * k * d == a * (n / d) * d == a * ((n / d) * d);
    assert z * (d * k) == a * n;
  }

  lemma AccuracyStep(p: real, e: real, s: real, s': real, t: real, x: real, i: nat)
    requires x >= 0.0 && i > 0
    requires p <= e <= p + s && t <= Ratio(p, x, i) < t + 1.0 && Ratio(s, x, i) + 1.0 <= s'
    ensures t <= Ratio(e, x, i) <= t + s'
  {
    hide Ratio;
    RatioMono(p, e, x, i);
    RatioMono(e, p + s, x, i);
    RatioAdds(p, s, x, i);
  }

  lemma ExactStep(factor: nat, num: nat, den: nat, i: nat)
    requires den > 0 && i > 0
    ensures Exact(factor, num, den, i) == Ratio(Exact(factor, num, den, i - 1), num as real / den as real, i)
  {
    hide Ratio;
    var x := num as real / den as real;
    var c, u := (factor * den) as real, SeriesTerm(x, i - 1);
    RatioScales(c, u, x, i);
    assert SeriesTerm(x, i) == Ratio(u, x, i);
    assert Exact(factor, num, den, i) == c * Ratio(u, x, i);
    assert Exact(factor, num, den, i - 1) == c * u;
  }

  /** Rounding only loses, and by the i-th term it has lost at most the partial sum of the series. */
  lemma {:induction false} TermAccuracy(factor: nat, num: nat, den: nat, i: nat)
    requires den > 0
    ensures
      var x, term := num as real / den as real, LoopTerm(factor, num, den, i) as real;
      term <= Exact(factor, num, den, i) <= term + Series(x, i)
  {
    var x := num as real / den as real;
    if i == 0 {
      assert SeriesTerm(x, 0) == 1.0;
    } else {
      hide NextTerm, Ratio, Series, SeriesTerm, Exact;
      var prev := LoopTerm(factor, num, den, i - 1);
      TermAccuracy(factor, num, den, i - 1);
      ExactStep(factor, num, den, i);
      NextTermRounds(prev, num, den, i);
      SeriesShift(x, i - 1, i);
      AccuracyStep(prev as real, Exact(factor, num, den, i - 1), Series(x, i - 1), Series(x, i),
                   LoopTerm(factor, num, den, i) as real, x, i);
    }
  }

  function ExactSum(factor: nat, num: nat, den: nat, n: nat): real
    requires den > 0
  {
    (factor * den) as real * Series(num as real / den as real, n)
  }

  /** What rounding may lose over so many terms. */
  function Loss(n: nat, s: real): real {
    n as real * s
  }

  lemma ExactSumStep(factor: nat, num: nat, den: nat, n: nat)
    requires den > 0 && n > 0
    ensures ExactSum(factor, num, den, n) == ExactSum(factor, num, den, n - 1) + Exact(factor, num, den, n - 1)
  {
    var x := num as real / den as real;
    var c, s, u := (factor * den) as real, Series(x, n - 1), SeriesTerm(x, n - 1);
    assert Series(x, n) == s + u;
    assert c * (s + u) == c * s + c * u;
  }

  lemma LossStep(n: nat, s: real, s': real)
    requires n > 0 && 0.0 <= s <= s'
    ensures Loss(n - 1, s) + s <= Loss(n, s')
  {
    var k := n as real;
    assert (n - 1) as real == k - 1.0;
    assert (k - 1.0) * s + s == k * s;
    RealMulMono(s, s', k);
    assert s * k == k * s && s' * k == k * s';
  }

  lemma {:induction false} SumAccuracy(factor: nat, num: nat, den: nat, n: nat)
    requires den > 0
    ensures
      var sum, exact := LoopSum(factor, num, den, n) as real, ExactSum(factor, num, den, n);
      sum <= exact <= sum + Loss(n, Series(num as real / den as real, n))
  {
    hide Exact, SeriesTerm, LoopTerm;
    if n > 0 {
      hide ExactSum, Loss;
      var x := num as real / den as real;
      SumAccuracy(factor, num, den, n - 1);
      TermAccuracy(factor, num, den, n - 1);
      SeriesPositive(x, n - 1);
      ExactSumStep(factor, num, den, n);
      LossStep(n, Series(x, n - 1), Series(x, n));
    }
  }

  /** The loop returns the factor times the partial sum up to any vanished term, rounded down, less the loss. */
  lemma StoppedAccuracy(factor: nat, num: nat, den: nat, n: nat)
    requires den > 0 && LoopTerm(factor, num, den, n) == 0
    ensures
      var s, r := Series(num as real / den as real, n), FakeExponential(factor, num, den) as real;
      r <= factor as real * s < r + 1.0 + Loss(n, s) / den as real
  {
    hide FakeExponential, LoopSum, Series, Loss, LoopTerm, ExactSum;
    SumOfLoop(factor, num, den, n);
    var s := Series(num as real / den as real, n);
    SumIsClose(factor, num, den, n);
    QuotientAccuracy(factor, s, Loss(n, s), LoopSum(factor, num, den, n), den);
  }

  lemma SumIsClose(factor: nat, num: nat, den: nat, n: nat)
    requires den > 0
    ensures var s, sum := Series(num as real / den as real, n), LoopSum(factor, num, den, n) as real;
      sum <= (factor * den) as real * s <= sum + Loss(n, s)
  {
    hide LoopSum, Series, Loss;
    SumAccuracy(factor, num, den, n);
  }

  lemma SumOfLoop(factor: nat, num: nat, den: nat, n: nat)
    requires den > 0 && LoopTerm(factor, num, den, n) == 0
    ensures FakeExponential(factor, num, den) == LoopSum(factor, num, den, n) / den
  {
    LoopUnrolled(factor, num, den, 0, n);
  }

  /**
   * The loop returns the factor times the partial sum of the exponential series it has run through,
   * rounded down, less at most one series sum per `den` for each term. The exact term after the last one it
   * counted is itself within what rounding loses.
   */
  lemma FakeExponentialAccuracy(factor: nat, num: nat, den: nat)
    requires den > 0
    ensures
      var n := TermCount(factor * den, num, den, 1);
      var s, r := Series(num as real / den as real, n), FakeExponential(factor, num, den) as real;
      r <= factor as real * s < r + 1.0 + Loss(n, s) / den as real && Exact(factor, num, den, n) <= s
  {
    hide FakeExponential, LoopTerm, TermCount, Series, Loss, Exact;
    var n := TermCount(factor * den, num, den, 1);
    CountedFromStart(factor, num, den);
    StoppedAccuracy(factor, num, den, n);
    LeftOut(factor, num, den, n);
  }

  lemma CountedFromStart(factor: nat, num: nat, den: nat)
    requires den > 0
    ensures LoopTerm(factor, num, den, TermCount(factor * den, num, den, 1)) == 0
  {
    hide TermCount;
    assert LoopTerm(factor, num, den, 0) == factor * den;
    CountedAll(factor, num, den, 0);
  }

  lemma LeftOut(factor: nat, num: nat, den: nat, n: nat)
    requires den > 0 && LoopTerm(factor, num, den, n) == 0
    ensures Exact(factor, num, den, n) <= Series(num as real / den as real, n)
  {
    hide LoopTerm, Series, Exact;
    TermAccuracy(factor, num, den, n);
  }

  /**
   * However many terms the loop runs through: the result is the factor times the partial sum of the series up to
   * any term whose exact value is below one unit, rounded down, less what rounding loses.
   */
  lemma FakeExponentialIsSeries(factor: nat, num: nat, den: nat, n: nat)
    requires den > 0 && Exact(factor, num, den, n) < 1.0
    ensures
      var s, r := Series(num as real / den as real, n), FakeExponential(factor, num, den) as real;
      r <= factor as real * s < r + 1.0 + Loss(n, s) / den as real
  {
    hide FakeExponential, LoopTerm, Series, Loss, Exact;
    TermAccuracy(factor, num, den, n);
    StoppedAccuracy(factor, num, den, n);
  }

  /** There is such a term for every input, and all from some place on are. */
  lemma TermsVanish(factor: nat, num: nat, den: nat) returns (m: nat)
    requires den > 0
    ensures forall n :: n >= m ==> Exact(factor, num, den, n) < 1.0
  {
    var half := 2 * (num / den + 1);
    var first := Exact(factor, num, den, half);
    ExactNonnegative(factor, num, den, half);
    var k := first.Floor + 1;
    m := half + k;
    hide Exact;
    forall n | n >= m ensures Exact(factor, num, den, n) < 1.0 {
      HalvesFrom(factor, num, den, half, n - half);
      BelowOne(first, Exact(factor, num, den, n), n - half);
    }
  }

  lemma ExactNonnegative(factor: nat, num: nat, den: nat, i: nat)
    requires den > 0
    ensures Exact(factor, num, den, i) >= 0.0
  {
    var x := num as real / den as real;
    SeriesPositive(x, i);
    RealMulMono(0.0, SeriesTerm(x, i), (factor * den) as real);
  }

  /** From twice the exponent on, each term is at most half of the one before. */
  lemma {:induction false} HalvesFrom(factor: nat, num: nat, den: nat, half: nat, k: nat)
    requires den > 0 && half == 2 * (num / den + 1)
    ensures Pow(2, k) as real * Exact(factor, num, den, half + k) <= Exact(factor, num, den, half)
  {
    if k > 0 {
      var p, a, b := Pow(2, k - 1), Exact(factor, num, den, half + k), Exact(factor, num, den, half + k - 1);
      HalvesFrom(factor, num, den, half, k - 1);
      ExactNonnegative(factor, num, den, half + k - 1);
      ExactStep(factor, num, den, half + k);
      HalfOf(b, num, den, half + k);
      assert Pow(2, k) == 2 * p;
      hide Exact, Pow, Ratio;
      DoubleAgain(p, a, b, Exact(factor, num, den, half));
    }
  }

  lemma DoubleAgain(p: nat, a: real, b: real, first: real)
    requires 2.0 * a <= b && p as real * b <= first
    ensures (2 * p) as real * a <= first
  {
    assert (2 * p) as real * a == (2.0 * a) * p as real;
    RealMulMono(2.0 * a, b, p as real);
  }

  lemma HalfOf(b: real, num: nat, den: nat, i: nat)
    requires den > 0 && b >= 0.0 && i >= 2 * (num / den + 1)
    ensures 2.0 * Ratio(b, num as real / den as real, i) <= b
  {
    var x, z, d := num as real / den as real, Ratio(b, num as real / den as real, i), i as real;
    RealQuot(num, den);
    assert 2.0 * x <= d;
    assert z * d == b * x;
    RealMulMono(2.0 * x, d, b);
    assert 2.0 * z * d == 2.0 * x * b <= d * b;
    RealMulCancel(2.0 * z, b, d);
  }

  lemma {:induction false} PowerExceeds(k: nat)
    ensures Pow(2, k) > k
  {
    if k > 0 {
      PowerExceeds(k - 1);
    }
  }

  lemma BelowOne(first: real, a: real, k: nat)
    requires 0.0 <= first && Pow(2, k) as real * a <= first && k >= first.Floor + 1
    ensures a < 1.0
  {
    PowerExceeds(k);
    var p := Pow(2, k) as real;
    assert p > first;
    if a >= 1.0 {
      RealMulMono(1.0, a, p);
    }
  }

  /** A term of the series for the blob price, in units of one part in the update fraction. */
  function BlobTerm(excess: nat, n: nat): real {
    BLOB_FRACTION as real * SeriesTerm(excess as real / BLOB_FRACTION as real, n)
  }

  /**
   * The blob price is the exponential of the excess over the update fraction: it lies below every partial sum of
   * the series up to a term smaller than one such unit, by less than one and the rounding loss.
   */
  lemma BlobPriceIsExponential(excess: nat, n: nat)
    requires BlobTerm(excess, n) < 1.0
    ensures
      var s, price := Series(excess as real / BLOB_FRACTION as real, n), BlobPrice(excess) as real;
      price <= s < price + 1.0 + Loss(n, s) / BLOB_FRACTION as real
  {
    hide FakeExponential, Series, SeriesTerm, Loss;
    FakeExponentialIsSeries(MIN_BLOB_PRICE, excess, BLOB_FRACTION, n);
  }

  /** For every excess, all terms from some place on are that small. */
  lemma BlobTermsVanish(excess: nat) returns (m: nat)
    ensures forall n :: n >= m ==> BlobTerm(excess, n) < 1.0
  {
    hide SeriesTerm;
    m := TermsVanish(MIN_BLOB_PRICE, excess, BLOB_FRACTION);
    forall n | n >= m ensures BlobTerm(excess, n) < 1.0 {
      assert Exact(MIN_BLOB_PRICE, excess, BLOB_FRACTION, n) < 1.0;
    }
  }

  lemma QuotientAccuracy(factor: nat, s: real, loss: real, sum: nat, den: nat)
    requires den > 0 && sum as real <= (factor * den) as real * s <= sum as real + loss
    ensures (sum / den) as real <= factor as real * s < (sum / den) as real + 1.0 + loss / den as real
  {
    RealMul(factor, den);
    ScaleDown(factor as real, s, loss, sum as real, den as real);
    RealQuot(sum, den);
  }

  lemma ScaleDown(f: real, s: real, loss: real, sum: real, d: real)
    requires d > 0.0 && sum <= f * d * s <= sum + loss
    ensures sum / d <= f * s <= sum / d + loss / d
  {
    assert f * d * s == (f * s) * d;
    var lo, hi := sum / d, (sum + loss) / d;
    assert lo * d == sum && hi * d == sum + loss;
    RealMulCancel(lo, f * s, d);
    RealMulCancel(f * s, hi, d);
    assert hi == lo + loss / d;
  }

  // ----- Block reward ------------------------------------------------------------------------------

  function Halved(initial: nat, k: nat): nat {
    if k == 0 then initial else Halved(initial, k - 1) / 2
  }

  /** Shifting right is dividing by two that many times. */
  lemma {:induction false} HalvedIsShift(initial: nat, k: nat)
    ensures Pow(2, k) > 0 && Halved(initial, k) == initial / Pow(2, k)
  {
    if k > 0 {
      HalvedIsShift(initial, k - 1);
      HalfOfQuotient(initial, Pow(2, k - 1));
    }
  }

  lemma HalfOfQuotient(a: nat, p: nat)
    requires p > 0
    ensures a / p / 2 == a / (2 * p)
  {
    var q, b := a / p, a / p % 2;
    var h := q / 2;
    assert q == 2 * h + b && b <= 1;
    var r := a - q * p;
    assert 0 <= r < p by { DivRemainder(a, p); }
    assert a == h * (2 * p) + (b * p + r) by {
      Distribute(h, b, p);
    }
    assert b * p <= p by { if b == 0 {} else {} }
    QuotientUnique(a, 2 * p, h, b * p + r);
  }

  lemma Distribute(h: nat, b: nat, p: nat)
    ensures (2 * h + b) * p == h * (2 * p) + b * p
  {
  }

  lemma DivRemainder(a: nat, p: nat)
    requires p > 0
    ensures 0 <= a - (a / p) * p < p
  {
    assert a == p * (a / p) + a % p;
  }

  function BlockReward(height: int, initial: int, interval: int): int {
    if height <= 0 || initial <= 0 then 0
    else if interval <= 0 then initial
    else
      var halvings := height / interval;
      if halvings >= 64 then 0
      else
        HalvedIsShift(initial, halvings);
        initial / Pow(2, halvings)
  }

  function Emitted(n: nat, initial: int, interval: int): int {
    if n == 0 then 0 else Emitted(n - 1, initial, interval) + BlockReward(n, initial, interval)
  }

  lemma RewardIsHalved(height: int, initial: int, interval: int)
    requires height > 0 && initial > 0 && interval > 0
    ensures 0 <= height / interval
    ensures 0 <= BlockReward(height, initial, interval) <= Halved(initial, height / interval)
    ensures height / interval < 64 ==> BlockReward(height, initial, interval) == Halved(initial, height / interval)
  {
    DivNonnegative(height, interval);
    HalvedIsShift(initial, height / interval);
  }

  lemma DivNonnegative(a: nat, b: nat)
    requires b > 0
    ensures a / b >= 0
  {
  }

  lemma {:induction false} HalvedFalls(initial: nat, k: nat, m: nat)
    requires k <= m
    ensures Halved(initial, m) <= Halved(initial, k)
    decreases m
  {
    if k < m {
      HalvedFalls(initial, k, m - 1);
    }
  }

  /** Rewards never rise with height, and stop for good after 64 intervals. */
  lemma RewardNeverRises(h: int, h': int, initial: int, interval: int)
    requires 0 < h <= h'
    ensures 0 <= BlockReward(h', initial, interval) <= BlockReward(h, initial, interval)
    ensures interval > 0 && h >= 64 * interval ==> BlockReward(h, initial, interval) == 0
  {
    if initial > 0 && interval > 0 {
      hide Halved, Pow;
      RewardIsHalved(h, initial, interval);
      RewardIsHalved(h', initial, interval);
      DivMono(h, h', interval);
      HalvedFalls(initial, h / interval, h' / interval);
      if h >= 64 * interval {
        DivMono(64 * interval, h, interval);
        DivCancel(64, interval);
      }
    }
  }

  /**
   * What has been emitted, plus what the current rate would still give over the rest of this interval
   * and one more, never exceeds two intervals at the initial rate, less one block.
   */
  lemma {:induction false} EmissionPotential(n: nat, initial: int, interval: int)
    requires initial > 0 && interval > 0
    ensures 0 <= n / interval && 0 <= n % interval < interval
    ensures Emitted(n, initial, interval) + (2 * interval - 1 - n % interval) * Halved(initial, n / interval)
      <= (2 * interval - 1) * initial
  {
    if n > 0 {
      hide BlockReward;
      EmissionPotential(n - 1, initial, interval);
      RewardIsHalved(n, initial, interval);
      NextHeight(n, interval);
      var k, r := (n - 1) / interval, (n - 1) % interval;
      if r < interval - 1 {
        SameRate(interval, r, Halved(initial, k));
      } else {
        HalfRate(interval, Halved(initial, k), Halved(initial, k + 1));
      }
    } else {
      QuotientUnique(0, interval, 0, 0);
    }
  }

  lemma SameRate(interval: int, r: int, rate: int)
    ensures (2 * interval - 1 - r) * rate == rate + (2 * interval - 1 - (r + 1)) * rate
  {
  }

  lemma HalfRate(interval: nat, rate: nat, next: nat)
    requires 2 * next <= rate
    ensures next + (2 * interval - 1 - 0) * next <= (2 * interval - 1 - (interval - 1)) * rate
  {
    MulMono(interval, 2 * next, rate);
    assert next + (2 * interval - 1) * next == interval * (2 * next);
  }

  lemma NextHeight(n: nat, interval: nat)
    requires n > 0 && interval > 0
    ensures (n - 1) % interval < interval - 1 ==>
      n / interval == (n - 1) / interval && n % interval == (n - 1) % interval + 1
    ensures (n - 1) % interval == interval - 1 ==> n / interval == (n - 1) / interval + 1 && n % interval == 0
  {
    var q, r := (n - 1) / interval, (n - 1) % interval;
    assert n == q * interval + r + 1;
    if r < interval - 1 {
      QuotientUnique(n, interval, q, r + 1);
    } else {
      assert n == (q + 1) * interval;
      QuotientUnique(n, interval, q + 1, 0);
    }
  }

  ghost predicate EmissionWithin(initial: int, interval: int, bound: int) {
    forall n: nat :: Emitted(n, initial, interval) <= bound
  }

  lemma HalvingCapsEmission(initial: int, interval: int)
    requires initial > 0 && interval > 0
    ensures EmissionWithin(initial, interval, (2 * interval - 1) * initial)
  {
    forall n: nat ensures Emitted(n, initial, interval) <= (2 * interval - 1) * initial {
      EmissionPotential(n, initial, interval);
      var left, rate := 2 * interval - 1 - n % interval, Halved(initial, n / interval);
      assert left * rate >= 0;
    }
  }

  lemma {:induction false} FlatEmission(n: nat, initial: int, interval: int)
    requires initial <= 0 || interval <= 0
    ensures Emitted(n, initial, interval) == if initial <= 0 then 0 else n * initial
  {
    if n > 0 {
      FlatEmission(n - 1, initial, interval);
      assert n * initial == (n - 1) * initial + initial;
    }
  }

  /** Total emission has a bound exactly when nothing is emitted or the rate halves. */
  lemma EmissionBoundedIff(initial: int, interval: int)
    ensures (exists bound :: EmissionWithin(initial, interval, bound)) <==> (initial <= 0 || interval > 0)
  {
    if initial <= 0 {
      forall n: nat ensures Emitted(n, initial, interval) <= 0 {
        FlatEmission(n, initial, interval);
      }
      assert EmissionWithin(initial, interval, 0);
    } else if interval > 0 {
      HalvingCapsEmission(initial, interval);
    } else {
      forall bound ensures !EmissionWithin(initial, interval, bound) {
        var n: nat := if bound < 0 then 0 else bound + 1;
        FlatEmission(n, initial, interval);
        MulMono(n, 1, initial);
        assert Emitted(n, initial, interval) > bound;
      }
    }
  }
}
