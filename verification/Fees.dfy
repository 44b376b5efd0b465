// Platform-fee arithmetic and the customer-pays gross-up.
module Fees {
  import opened Wrappers

  const MAX_BPS := 10_000
  const MAX_I64 := 0x7FFF_FFFF_FFFF_FFFF

  datatype FeeError = NegativeFlat | InvalidBps | BpsNotBelowMax | AmountTooLarge

  // Rust's `/`: the quotient is cut toward zero.
  function TruncDiv(a: int, b: int): int
    requires b > 0
  {
    if a >= 0 then a / b else -((-a) / b)
  }

  function BpsAmount(gross: int, bps: int): Result<int, FeeError> {
    if bps < 0 || bps > MAX_BPS then Err(InvalidBps)
    else Ok(TruncDiv(gross * bps, MAX_BPS))
  }

  function PlatformFeeTotal(gross: int, bps: int, flat: int): Result<int, FeeError> {
    if flat < 0 then Err(NegativeFlat)
    else match BpsAmount(gross, bps)
      case Err(e) => Err(e)
      case Ok(fee) => Ok(fee + flat)
  }

  // The proportional fee inside the gross-up loops.
  function Proportional(total: int, bps: int): int {
    TruncDiv(total * bps, MAX_BPS)
  }

  // What is left of `total` once the proportional fee is taken.
  function AfterFee(total: int, bps: int): int {
    total - Proportional(total, bps)
  }

  // The first estimate of the gross-up: target * 10000 / (10000 - bps), rounded up.
  function Estimate(target: nat, bps: int): nat
    requires bps < MAX_BPS
  {
    var denominator := MAX_BPS - bps;
    assert target * MAX_BPS + denominator - 1 >= 0;
    (target * MAX_BPS + denominator - 1) / denominator
  }

  lemma EstimateBounds(target: nat, bps: int)
    requires bps < MAX_BPS
    ensures var d := MAX_BPS - bps; var e := Estimate(target, bps);
      target * MAX_BPS <= e * d <= target * MAX_BPS + d - 1
  {
    var d := MAX_BPS - bps;
    var x := target * MAX_BPS + d - 1;
    var q := x / d;
    assert x == q * d + x % d;
  }

  lemma AfterFeeBounds(total: nat, bps: int)
    requires bps < MAX_BPS
    ensures var kept := total * (MAX_BPS - bps);
      kept - MAX_BPS < AfterFee(total, bps) * MAX_BPS < kept + MAX_BPS
    ensures bps >= 0 ==> total * (MAX_BPS - bps) <= AfterFee(total, bps) * MAX_BPS
    ensures bps < 0 ==> AfterFee(total, bps) == total * (MAX_BPS - bps) / MAX_BPS
  {
    var x := total * bps;
    assert total * (MAX_BPS - bps) == total * MAX_BPS - x;
    if bps >= 0 {
      assert x >= 0;
    } else {
      assert -x == total * (-bps);
      assert -x >= 0;
    }
  }

  // Raising the total never lowers what is left after the fee.
  lemma AfterFeeStep(total: int, bps: int)
    requires bps < MAX_BPS
    ensures AfterFee(total, bps) <= AfterFee(total + 1, bps)
  {
    assert (total + 1) * bps == total * bps + bps;
  }

  lemma {:induction false} AfterFeeMonotone(low: int, high: int, bps: int)
    requires bps < MAX_BPS && low <= high
    ensures AfterFee(low, bps) <= AfterFee(high, bps)
    decreases high - low
  {
    if low < high {
      AfterFeeMonotone(low, high - 1, bps);
      AfterFeeStep(high - 1, bps);
    }
  }

  // The rounded-up estimate always covers the target, so the raising loop of
  // the gross-up never takes a step.
  lemma EstimateCovers(target: nat, bps: int)
    requires bps < MAX_BPS
    ensures AfterFee(Estimate(target, bps), bps) >= target
  {
    var e := Estimate(target, bps);
    EstimateBounds(target, bps);
    AfterFeeBounds(e, bps);
  }

  // At most 10000 / (10000 - bps) + 1 totals lie between the estimate and any
  // total that still covers the target.
  lemma EstimateOvershoot(target: nat, bps: int, total: nat)
    requires bps < MAX_BPS && AfterFee(total, bps) >= target
    ensures (Estimate(target, bps) - total - 1) * (MAX_BPS - bps) < MAX_BPS
  {
    var e, d := Estimate(target, bps), MAX_BPS - bps;
    EstimateBounds(target, bps);
    AfterFeeBounds(total, bps);
    assert (e - total - 1) * d == e * d - total * d - d;
  }

  // A negative total leaves nothing.
  lemma AfterFeeOfNegative(total: int, bps: int)
    requires bps < MAX_BPS && total < 0
    ensures AfterFee(total, bps) < 0
  {
    var n: nat := -total;
    NegativeProduct(n, bps);
    assert total * bps == -(n * bps) by {
      assert (0 - n) * bps == 0 - n * bps;
    }
  }

  lemma NegativeProduct(n: nat, bps: int)
    requires n > 0 && bps < MAX_BPS
    ensures n * bps < n * MAX_BPS
  {
    assert n * (MAX_BPS - bps) > 0;
  }

  // A fee that is not negative never raises the value.
  lemma AfterFeeAtMost(total: nat, bps: nat)
    ensures AfterFee(total, bps) <= total
  {
    assert total * bps >= 0;
  }

  // With a rebate in place of a fee the estimate itself is the least total.
  lemma EstimateLeast(target: nat, bps: int)
    requires bps < 0
    ensures AfterFee(Estimate(target, bps) - 1, bps) < target
  {
    var e, d := Estimate(target, bps), MAX_BPS - bps;
    EstimateBounds(target, bps);
    if e == 0 {
      AfterFeeOfNegative(-1, bps);
    } else {
      AfterFeeBounds(e - 1, bps);
      assert (e - 1) * d == e * d - d;
    }
  }

  // Where the lowering loop stops, its total is the least that covers the target.
  lemma StopIsLeast(target: nat, bps: int, total: nat)
    requires bps < MAX_BPS
    requires total == Estimate(target, bps) || bps >= 0
    requires total <= target || AfterFee(total - 1, bps) < target
    ensures forall t :: t < total ==> AfterFee(t, bps) < target
  {
    assert AfterFee(total - 1, bps) < target by {
      if bps < 0 {
        EstimateLeast(target, bps);
      } else if total == 0 {
        AfterFeeOfNegative(-1, bps);
      } else {
        AfterFeeAtMost(total - 1, bps);
      }
    }
    forall t | t < total ensures AfterFee(t, bps) < target {
      AfterFeeMonotone(t, total - 1, bps);
    }
  }

  // The number of totals the lowering loop passes over.
  lemma FewStepsBack(target: nat, bps: int, total: nat, lowered: nat)
    requires bps < MAX_BPS && AfterFee(total, bps) >= target
    requires lowered + total <= Estimate(target, bps)
    ensures (lowered - 1) * (MAX_BPS - bps) < MAX_BPS
  {
    EstimateOvershoot(target, bps, total);
    var slack := Estimate(target, bps) - total - lowered;
    assert (Estimate(target, bps) - total - 1) * (MAX_BPS - bps)
        == (lowered - 1) * (MAX_BPS - bps) + slack * (MAX_BPS - bps);
  }

  // The first correction loop: raise the total until it covers the target.
  method RaiseToCover(start: nat, target: nat, bps: int) returns (total: nat)
    requires bps < MAX_BPS
    ensures start <= total && AfterFee(total, bps) >= target
    ensures total == start || AfterFee(total - 1, bps) < target
  {
    total := start;
    ghost var enough := Estimate(target, bps);
    EstimateCovers(target, bps);
    while total - Proportional(total, bps) < target
      invariant start <= total && (total == start || AfterFee(total - 1, bps) < target)
      decreases enough - total
    {
      if enough <= total {
        AfterFeeMonotone(enough, total, bps);
      }
      total := total + 1;
    }
  }

  // The second correction loop: lower the total while it still covers the
  // target. `lowered` counts its turns.
  method LowerToLeast(start: nat, target: nat, bps: int) returns (total: nat, ghost lowered: nat)
    requires bps < MAX_BPS && AfterFee(start, bps) >= target
    ensures total <= start && lowered == start - total
    ensures AfterFee(total, bps) >= target
    ensures total <= target || AfterFee(total - 1, bps) < target
  {
    total, lowered := start, 0;
    while total > target && (total - 1) - Proportional(total - 1, bps) >= target
      invariant total <= start && lowered == start - total
      invariant AfterFee(total, bps) >= target
    {
      total := total - 1;
      lowered := lowered + 1;
    }
  }

  // The least total whose value after the proportional fee covers
  // `requested + flat`: the rounded-up estimate, corrected upward and then downward.
  method CustomerPaidAmounts(requested: nat, bps: int, flat: int)
    returns (r: Result<(int, int, int), FeeError>, ghost lowered: nat)
    ensures flat < 0 ==> r == Err(NegativeFlat)
    ensures flat >= 0 && bps >= MAX_BPS ==> r == Err(BpsNotBelowMax)
    ensures flat >= 0 && bps < MAX_BPS ==> r.Ok? && IsGrossUp(requested, bps, flat, r.value)
    ensures r.Ok? ==> (lowered - 1) * (MAX_BPS - bps) < MAX_BPS
  {
    if flat < 0 {
      return Err(NegativeFlat), 0;
    }
    if bps >= MAX_BPS {
      return Err(BpsNotBelowMax), 0;
    }
    var target: nat := requested + flat;
    var denominator := MAX_BPS - bps;
    var total: nat := (target * MAX_BPS + denominator - 1) / denominator;
    EstimateCovers(target, bps);
    total := RaiseToCover(total, target, bps);
    assert total == Estimate(target, bps) by {
      if total > Estimate(target, bps) {
        AfterFeeMonotone(Estimate(target, bps), total - 1, bps);
      }
    }
    total, lowered := LowerToLeast(total, target, bps);
    FewStepsBack(target, bps, total, lowered);
    if bps < 0 {
      EstimateLeast(target, bps);
      if total < Estimate(target, bps) {
        AfterFeeMonotone(total, Estimate(target, bps) - 1, bps);
      }
    }
    StopIsLeast(target, bps, total);
    r := Ok((total - requested, total, Proportional(total, bps) + flat));
  }

  // (service fee, total, platform fee) is the gross-up of `requested`: the total
  // covers the request after the platform fee and no smaller total does.
  ghost predicate IsGrossUp(requested: nat, bps: int, flat: int, amounts: (int, int, int)) {
    var (serviceFee, total, platformFee) := amounts;
    && total == requested + serviceFee
    && platformFee == Proportional(total, bps) + flat
    && total - platformFee >= requested
    && (forall t :: t < total ==> AfterFee(t, bps) < requested + flat)
  }

  // There is one gross-up of a request.
  lemma GrossUpUnique(requested: nat, bps: int, flat: int, a: (int, int, int), b: (int, int, int))
    requires IsGrossUp(requested, bps, flat, a) && IsGrossUp(requested, bps, flat, b)
    ensures a == b
  {
    assert AfterFee(a.1, bps) >= requested + flat;
    assert AfterFee(b.1, bps) >= requested + flat;
  }

  // One validated invoice line: both factors are checked before they get here.
  datatype Item = Item(unitAmount: nat, quantity: nat)

  function Subtotal(items: seq<Item>): nat {
    if items == [] then 0
    else Subtotal(items[..|items| - 1]) + items[|items| - 1].unitAmount * items[|items| - 1].quantity
  }

  // Every line counts its price times its quantity, wherever it stands.
  lemma {:induction false} SubtotalCounts(before: seq<Item>, line: Item, rest: seq<Item>)
    ensures Subtotal(before + [line] + rest) == Subtotal(before) + line.unitAmount * line.quantity + Subtotal(rest)
    decreases |rest|
  {
    var items := before + [line] + rest;
    if rest == [] {
      assert items == before + [line] && items[..|items| - 1] == before;
    } else {
      var front := rest[..|rest| - 1];
      SubtotalCounts(before, line, front);
      assert items[..|items| - 1] == before + [line] + front;
    }
  }

  // The amounts an invoice is created with: (subtotal, service fee, total).
  method InvoiceAmounts(items: seq<Item>, customerPays: bool, bps: int, flat: int)
    returns (r: Result<(int, int, int), FeeError>)
    ensures !customerPays ==>
      r == if Subtotal(items) <= MAX_I64 then Ok((Subtotal(items), 0, Subtotal(items))) else Err(AmountTooLarge)
    ensures customerPays && flat < 0 ==> r == Err(NegativeFlat)
    ensures customerPays && flat >= 0 && bps >= MAX_BPS ==> r == Err(BpsNotBelowMax)
    ensures customerPays && flat >= 0 && bps < MAX_BPS && r.Err? ==> r.error == AmountTooLarge
    ensures customerPays && flat >= 0 && bps < MAX_BPS && r.Err? ==>
      forall a :: IsGrossUp(Subtotal(items), bps, flat, a) ==> Subtotal(items) > MAX_I64 || a.1 > MAX_I64
    ensures customerPays && r.Ok? ==>
      && r.value.0 == Subtotal(items) && r.value.2 <= MAX_I64
      && IsGrossUp(Subtotal(items), bps, flat, (r.value.1, r.value.2, r.value.2 - AfterFee(r.value.2, bps) + flat))
  {
    var subtotal: nat := 0;
    for i := 0 to |items|
      invariant subtotal == Subtotal(items[..i])
    {
      assert items[..i + 1][..i] == items[..i];
      subtotal := subtotal + items[i].unitAmount * items[i].quantity;
    }
    assert items[..|items|] == items;
    var serviceFee := 0;
    if customerPays {
      var amounts, _ := CustomerPaidAmounts(subtotal, bps, flat);
      if amounts.Err? {
        return Err(amounts.error);
      }
      serviceFee := amounts.value.0;
      forall a | IsGrossUp(subtotal, bps, flat, a) ensures a == amounts.value {
        GrossUpUnique(subtotal, bps, flat, a, amounts.value);
      }
    }
    var total := subtotal + serviceFee;
    if subtotal > MAX_I64 || total > MAX_I64 || serviceFee > MAX_I64 {
      return Err(AmountTooLarge);
    }
    r := Ok((subtotal, serviceFee, total));
  }
}
