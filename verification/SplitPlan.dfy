// The payout split of one payment: how it is computed, stored, read back, and
// why the release that pays it fits the node's storage-mass cap.
module SplitPlan {
  import opened Wrappers
  import opened Text
  import opened Fees
  import opened Setup
  import opened Sorting

  const STORAGE_MASS_PARAM := 1_000_000_000_000
  const MAX_SETTLEMENT_STORAGE_MASS := 450_000
  const CONSENSUS_MASS_CAP := 500_000
  const KEEPER_CHANGE_FLOOR := 100_000_000
  const MAX_PAYOUTS := 8

  datatype FeeConfig = FeeConfig(feeBps: int, feeFlat: int, feeAddress: string, minInvoice: int)

  datatype Plan = Plan(merchantAddress: string, feeAddress: string, tax: TaxConfig, splits: seq<SplitOut>,
                       splitAmounts: seq<int>, platformFee: int, taxAmount: int, merchantNet: int)

  datatype PlanError = BelowMinimum | InSetup(setup: SetupError) | InFee(fee: FeeError)
                     | TaxTooSmall | SplitTooSmall | RatesExceedWhole | NothingForMerchant | TooMuchStorageMass

  function Sum(values: seq<int>): int {
    if values == [] then 0 else values[0] + Sum(values[1..])
  }

  // The storage mass of outputs with these values; empty outputs add nothing.
  function StorageMass(values: seq<int>): nat {
    if values == [] then 0
    else (if values[0] > 0 then STORAGE_MASS_PARAM / values[0] else 0) + StorageMass(values[1..])
  }

  function SplitAmounts(amount: int, splits: seq<SplitOut>): (r: Result<seq<int>, FeeError>)
    ensures r.Ok? ==> |r.value| == |splits|
    ensures r.Ok? ==> forall i :: 0 <= i < |splits| ==> BpsAmount(amount, splits[i].bps) == Ok(r.value[i])
  {
    if splits == [] then Ok([])
    else match BpsAmount(amount, splits[0].bps)
      case Err(e) => Err(e)
      case Ok(first) =>
        match SplitAmounts(amount, splits[1..])
        case Err(e) => Err(e)
        case Ok(rest) => Ok([first] + rest)
  }

  // The values the release pays, in output order.
  function PayoutValues(plan: Plan): seq<int> {
    [plan.merchantNet] + (if plan.tax.enabled && plan.taxAmount > 0 then [plan.taxAmount] else [])
    + plan.splitAmounts + [plan.platformFee]
  }

  function AmountChecks(cfg: FeeConfig, amount: int, merchant: string, tax: TaxConfig, totalBps: int, splits: seq<SplitOut>)
    : Result<Plan, PlanError>
  {
    match (PlatformFeeTotal(amount, cfg.feeBps, cfg.feeFlat), BpsAmount(amount, tax.bps), SplitAmounts(amount, splits))
    case (Err(e), _, _) => Err(InFee(e))
    case (Ok(_), Err(e), _) => Err(InFee(e))
    case (Ok(_), Ok(_), Err(e)) => Err(InFee(e))
    case (Ok(fee), Ok(taxAmount), Ok(splitAmounts)) =>
      var merchantNet := amount - fee - taxAmount - Sum(splitAmounts);
      var plan := Plan(merchant, cfg.feeAddress, tax, splits, splitAmounts, fee, taxAmount, merchantNet);
      if tax.enabled && taxAmount <= 0 then Err(TaxTooSmall)
      else if exists i :: 0 <= i < |splitAmounts| && splitAmounts[i] <= 0 then Err(SplitTooSmall)
      else if tax.bps + cfg.feeBps + totalBps > MAX_BPS then Err(RatesExceedWhole)
      else if amount <= 0 || merchantNet <= 0 then Err(NothingForMerchant)
      else if StorageMass(PayoutValues(plan)) > MAX_SETTLEMENT_STORAGE_MASS then Err(TooMuchStorageMass)
      else Ok(plan)
  }

  // `setup` is the row found for the store, or failing that the merchant's own row.
  function ComputeSplitPlan(cfg: FeeConfig, num: Numerals, setup: Option<SetupRow>, amount: int): Result<Plan, PlanError> {
    if amount < cfg.minInvoice then Err(BelowMinimum)
    else if setup.None? then Err(InSetup(NoPayoutAddress))
    else match MerchantAddress(setup.value)
      case Err(e) => Err(InSetup(e))
      case Ok(merchant) =>
        if !IsKaspaAddress(cfg.feeAddress) then Err(InSetup(BadFeeAddress))
        else match ResolveTaxConfig(num, setup.value)
          case Err(e) => Err(InSetup(e))
          case Ok(tax) =>
            match ResolveSplitConfig(num, setup.value)
            case Err(e) => Err(InSetup(e))
            case Ok((totalBps, splits)) => AmountChecks(cfg, amount, merchant, tax, totalBps, splits)
  }

  // ---- storing and reading the outputs ----

  datatype RequiredOutput = RequiredOutput(role: string, address: string, amountSompi: int)

  function OutputJson(o: RequiredOutput): Json {
    Obj(map["role" := Str(o.role), "address" := Str(o.address), "amountSompi" := Str(PrintInt(o.amountSompi))])
  }

  function SplitJson(s: SplitOut, amount: int): Json {
    Obj(map["role" := Str("split"), "address" := Str(s.address), "amountSompi" := Str(PrintInt(amount)),
            "identifier" := Str(s.identifier), "percentage" := Number(s.percentage)])
  }

  function SplitPayouts(splits: seq<SplitOut>, amounts: seq<int>): seq<RequiredOutput>
    requires |splits| == |amounts|
  {
    seq(|splits|, i requires 0 <= i < |splits| => RequiredOutput("split", splits[i].address, amounts[i]))
  }

  // The merchant's output, and the tax output when there is one.
  function FrontPayouts(plan: Plan): seq<RequiredOutput> {
    [RequiredOutput("merchant_net", plan.merchantAddress, plan.merchantNet)]
    + (if plan.tax.enabled && plan.taxAmount > 0 && plan.tax.address.Some?
       then [RequiredOutput("tax", plan.tax.address.value, plan.taxAmount)] else [])
  }

  // The plan's payouts in output order: merchant, tax, splits, platform fee.
  function Payouts(plan: Plan): seq<RequiredOutput>
    requires |plan.splits| == |plan.splitAmounts|
  {
    FrontPayouts(plan) + SplitPayouts(plan.splits, plan.splitAmounts)
    + [RequiredOutput("kasway_fee", plan.feeAddress, plan.platformFee)]
  }

  function ParseOutput(o: Json): Option<RequiredOutput> {
    match (AsStr(Get(o, "role")), AsStr(Get(o, "address")), AsStr(Get(o, "amountSompi")))
    case (Some(role), Some(address), Some(text)) =>
      (match ParseInt(text)
       case Some(amount) => Some(RequiredOutput(role, address, amount))
       case None => None)
    case _ => None
  }

  // Entries that do not parse are dropped.
  function ParseOutputs(items: seq<Json>): seq<RequiredOutput> {
    if items == [] then []
    else
      var front := ParseOutputs(items[..|items| - 1]);
      match ParseOutput(items[|items| - 1])
      case Some(o) => front + [o]
      case None => front
  }

  function ParseRequiredOutputs(stored: StoredJson): seq<RequiredOutput> {
    match stored
    case Parsed(Arr(items)) => ParseOutputs(items)
    case _ => []
  }

  lemma OneMoreOutput(items: seq<Json>, item: Json)
    ensures ParseOutputs(items + [item])
         == ParseOutputs(items) + (match ParseOutput(item) case Some(o) => [o] case None => [])
  {
    assert (items + [item])[..|items|] == items;
  }

  // What does not parse is passed over, and what follows still read.
  lemma {:induction false} UnreadableIsDropped(items: seq<Json>, bad: Json, rest: seq<Json>)
    requires ParseOutput(bad).None?
    ensures ParseOutputs(items + [bad] + rest) == ParseOutputs(items + rest)
    decreases |rest|
  {
    if rest == [] {
      OneMoreOutput(items, bad);
      assert items + [bad] + rest == items + [bad] && items + rest == items;
    } else {
      var front, last := rest[..|rest| - 1], rest[|rest| - 1];
      UnreadableIsDropped(items, bad, front);
      OneMoreOutput(items + [bad] + front, last);
      OneMoreOutput(items + front, last);
      assert items + [bad] + rest == items + [bad] + front + [last] && items + rest == items + front + [last];
    }
  }

  lemma ParseOutputBack(o: RequiredOutput)
    ensures ParseOutput(OutputJson(o)) == Some(o)
  {
    ParsePrintInt(o.amountSompi);
  }

  lemma ParseSplitBack(s: SplitOut, amount: int)
    ensures ParseOutput(SplitJson(s, amount)) == Some(RequiredOutput("split", s.address, amount))
  {
    ParsePrintInt(amount);
  }

  lemma PushOutput(items: seq<Json>, o: RequiredOutput)
    ensures ParseOutputs(items + [OutputJson(o)]) == ParseOutputs(items) + [o]
  {
    assert (items + [OutputJson(o)])[..|items|] == items;
    ParseOutputBack(o);
  }

  lemma PushSplit(items: seq<Json>, s: SplitOut, amount: int)
    ensures ParseOutputs(items + [SplitJson(s, amount)]) == ParseOutputs(items) + [RequiredOutput("split", s.address, amount)]
  {
    assert (items + [SplitJson(s, amount)])[..|items|] == items;
    ParseSplitBack(s, amount);
  }

  // Pushes one output per split; reading back finds each of them.
  method PushSplits(items: seq<Json>, splits: seq<SplitOut>, amounts: seq<int>) returns (outputs: seq<Json>)
    requires |splits| == |amounts|
    ensures |outputs| == |items| + |splits|
    ensures ParseOutputs(outputs) == ParseOutputs(items) + SplitPayouts(splits, amounts)
  {
    outputs := items;
    for i := 0 to |splits|
      invariant |outputs| == |items| + i
      invariant ParseOutputs(outputs) == ParseOutputs(items) + SplitPayouts(splits[..i], amounts[..i])
    {
      PushSplit(outputs, splits[i], amounts[i]);
      outputs := outputs + [SplitJson(splits[i], amounts[i])];
      assert SplitPayouts(splits[..i + 1], amounts[..i + 1])
          == SplitPayouts(splits[..i], amounts[..i]) + [RequiredOutput("split", splits[i].address, amounts[i])];
    }
    assert splits[..|splits|] == splits && amounts[..|splits|] == amounts;
  }

  method PushFront(plan: Plan) returns (outputs: seq<Json>)
    ensures ParseOutputs(outputs) == FrontPayouts(plan) && |outputs| == |FrontPayouts(plan)|
  {
    var merchant := RequiredOutput("merchant_net", plan.merchantAddress, plan.merchantNet);
    PushOutput([], merchant);
    outputs := [OutputJson(merchant)];
    assert [] + outputs == outputs;
    if plan.tax.enabled && plan.taxAmount > 0 && plan.tax.address.Some? {
      var tax := RequiredOutput("tax", plan.tax.address.value, plan.taxAmount);
      PushOutput(outputs, tax);
      outputs := outputs + [OutputJson(tax)];
    }
  }

  // Builds the stored outputs; reading them back gives exactly the plan's payouts.
  method OutputsJson(plan: Plan) returns (outputs: seq<Json>)
    requires |plan.splits| == |plan.splitAmounts|
    ensures ParseRequiredOutputs(Parsed(Arr(outputs))) == Payouts(plan)
    ensures |outputs| == |Payouts(plan)|
  {
    outputs := PushFront(plan);
    outputs := PushSplits(outputs, plan.splits, plan.splitAmounts);
    var fee := RequiredOutput("kasway_fee", plan.feeAddress, plan.platformFee);
    PushOutput(outputs, fee);
    outputs := outputs + [OutputJson(fee)];
  }

  // ---- what an accepted plan guarantees ----

  function Amounts(outs: seq<RequiredOutput>): seq<int> {
    seq(|outs|, i requires 0 <= i < |outs| => outs[i].amountSompi)
  }

  lemma {:induction false} SumAppend(a: seq<int>, b: seq<int>)
    ensures Sum(a + b) == Sum(a) + Sum(b)
  {
    if a == [] {
      assert a + b == b;
    } else {
      assert (a + b)[1..] == a[1..] + b;
      SumAppend(a[1..], b);
    }
  }

  lemma {:induction false} MassAppend(a: seq<int>, b: seq<int>)
    ensures StorageMass(a + b) == StorageMass(a) + StorageMass(b)
  {
    if a == [] {
      assert a + b == b;
    } else {
      assert (a + b)[1..] == a[1..] + b;
      MassAppend(a[1..], b);
    }
  }

  // One output weighs 10^12 over its value.
  lemma MassOfOne(value: int)
    ensures StorageMass([value]) == if value > 0 then 1_000_000_000_000 / value else 0
  {
    assert StorageMass([value]) == (if value > 0 then STORAGE_MASS_PARAM / value else 0) + StorageMass([value][1..]);
  }

  // What the checks on the amounts leave through.
  lemma CheckedAmounts(cfg: FeeConfig, amount: int, merchant: string, tax: TaxConfig, totalBps: int, splits: seq<SplitOut>, plan: Plan)
    requires AmountChecks(cfg, amount, merchant, tax, totalBps, splits) == Ok(plan)
    ensures plan.tax == tax && plan.splits == splits && |plan.splits| == |plan.splitAmounts|
    ensures amount > 0 && plan.merchantNet > 0 && plan.platformFee >= 0
    ensures tax.enabled ==> plan.taxAmount > 0
    ensures tax.bps == 0 ==> plan.taxAmount == 0
    ensures forall i :: 0 <= i < |plan.splitAmounts| ==> plan.splitAmounts[i] > 0
    ensures plan.merchantNet + plan.taxAmount + Sum(plan.splitAmounts) + plan.platformFee == amount
    ensures PlatformFeeTotal(amount, cfg.feeBps, cfg.feeFlat) == Ok(plan.platformFee)
    ensures StorageMass(PayoutValues(plan)) <= MAX_SETTLEMENT_STORAGE_MASS
    ensures plan.merchantAddress == merchant && plan.feeAddress == cfg.feeAddress
  {
    ProductNotNegative(amount, cfg.feeBps);
  }

  // Each split's share of the amount, rounded down.
  function Slices(amount: nat, splits: seq<SplitOut>): seq<int> {
    seq(|splits|, i requires 0 <= i < |splits| => amount * splits[i].bps / 10_000)
  }

  lemma RateOf(amount: nat, bps: int)
    ensures BpsAmount(amount, bps) == if 0 <= bps <= 10_000 then Ok(amount * bps / 10_000) else Err(InvalidBps)
  {
    ProductNotNegative(amount, bps);
  }

  lemma {:induction false} SlicesAreAmounts(amount: nat, splits: seq<SplitOut>)
    ensures SplitAmounts(amount, splits).Ok? <==> forall i :: 0 <= i < |splits| ==> 0 <= splits[i].bps <= 10_000
    ensures SplitAmounts(amount, splits).Ok? ==> SplitAmounts(amount, splits).value == Slices(amount, splits)
    decreases |splits|
  {
    if splits != [] {
      SlicesAreAmounts(amount, splits[1..]);
      RateOf(amount, splits[0].bps);
      assert splits == [splits[0]] + splits[1..];
      SlicesCons(amount, splits);
    }
  }

  lemma SlicesCons(amount: nat, splits: seq<SplitOut>)
    requires splits != []
    ensures Slices(amount, splits) == [amount * splits[0].bps / 10_000] + Slices(amount, splits[1..])
  {
  }

  // What the plan of an amount is, if there is one.
  function PlanOf(cfg: FeeConfig, amount: nat, merchant: string, tax: TaxConfig, splits: seq<SplitOut>): Plan {
    var fee, taxAmount, slices := amount * cfg.feeBps / 10_000 + cfg.feeFlat, amount * tax.bps / 10_000, Slices(amount, splits);
    Plan(merchant, cfg.feeAddress, tax, splits, slices, fee, taxAmount, amount - fee - taxAmount - Sum(slices))
  }

  // The rates are rates, every slice that is due is there, the merchant is left with
  // something, and the release is not too heavy.
  predicate AmountsFit(cfg: FeeConfig, amount: nat, totalBps: int, plan: Plan) {
    && cfg.feeFlat >= 0 && 0 <= cfg.feeBps <= 10_000 && 0 <= plan.tax.bps <= 10_000
    && (forall i :: 0 <= i < |plan.splits| ==> 0 <= plan.splits[i].bps <= 10_000)
    && plan.tax.bps + cfg.feeBps + totalBps <= 10_000
    && (plan.tax.enabled ==> plan.taxAmount > 0)
    && (forall i :: 0 <= i < |plan.splitAmounts| ==> plan.splitAmounts[i] > 0)
    && plan.merchantNet > 0
    && StorageMass(PayoutValues(plan)) <= 450_000
  }

  lemma AmountsFitExactly(cfg: FeeConfig, amount: nat, merchant: string, tax: TaxConfig, totalBps: int, splits: seq<SplitOut>)
    requires amount > 0
    ensures var plan := PlanOf(cfg, amount, merchant, tax, splits);
      AmountChecks(cfg, amount, merchant, tax, totalBps, splits).Ok? <==> AmountsFit(cfg, amount, totalBps, plan)
    ensures AmountChecks(cfg, amount, merchant, tax, totalBps, splits).Ok? ==>
      AmountChecks(cfg, amount, merchant, tax, totalBps, splits).value == PlanOf(cfg, amount, merchant, tax, splits)
  {
    SlicesAreAmounts(amount, splits);
    ProductNotNegative(amount, cfg.feeBps);
    ProductNotNegative(amount, tax.bps);
  }

  lemma NothingForNothing(cfg: FeeConfig, amount: int, merchant: string, tax: TaxConfig, totalBps: int, splits: seq<SplitOut>)
    requires amount <= 0
    ensures AmountChecks(cfg, amount, merchant, tax, totalBps, splits).Err?
  {
  }

  // A plan is accepted exactly when the amount reaches the minimum, the addresses are
  // Kaspa addresses, tax and splits resolve, and the amounts fit; and then it is the plan
  // of that amount, with the merchant, tax and splits of the setup and the configured
  // fee address.
  lemma PlanAcceptedExactly(cfg: FeeConfig, num: Numerals, setup: SetupRow, amount: int)
    ensures var r := ComputeSplitPlan(cfg, num, Some(setup), amount);
      && (r.Ok? <==>
            && amount >= cfg.minInvoice && amount > 0 && MerchantAddress(setup).Ok? && IsKaspaAddress(cfg.feeAddress)
            && ResolveTaxConfig(num, setup).Ok? && ResolveSplitConfig(num, setup).Ok?
            && var (totalBps, splits) := ResolveSplitConfig(num, setup).value;
            AmountsFit(cfg, amount, totalBps,
                       PlanOf(cfg, amount, MerchantAddress(setup).value, ResolveTaxConfig(num, setup).value, splits)))
      && (r.Ok? ==>
            && amount > 0 && MerchantAddress(setup).Ok? && ResolveTaxConfig(num, setup).Ok? && ResolveSplitConfig(num, setup).Ok?
            && var (merchant, tax, splits) :=
                 (MerchantAddress(setup).value, ResolveTaxConfig(num, setup).value, ResolveSplitConfig(num, setup).value.1);
            r.value == PlanOf(cfg, amount, merchant, tax, splits))
  {
    if MerchantAddress(setup).Ok? && ResolveTaxConfig(num, setup).Ok? && ResolveSplitConfig(num, setup).Ok? {
      var merchant, tax := MerchantAddress(setup).value, ResolveTaxConfig(num, setup).value;
      var (totalBps, splits) := ResolveSplitConfig(num, setup).value;
      if amount > 0 {
        AmountsFitExactly(cfg, amount, merchant, tax, totalBps, splits);
      } else {
        NothingForNothing(cfg, amount, merchant, tax, totalBps, splits);
      }
    }
  }

  lemma ProductNotNegative(a: int, b: int)
    ensures a >= 0 && b >= 0 ==> a * b >= 0
  {
  }

  lemma PlanShape(cfg: FeeConfig, num: Numerals, setup: Option<SetupRow>, amount: int, plan: Plan)
    requires ComputeSplitPlan(cfg, num, setup, amount) == Ok(plan)
    ensures |plan.splits| == |plan.splitAmounts| <= MAX_SPLIT_ADDRESSES
    ensures plan.tax.enabled <==> plan.tax.address.Some?
    ensures amount > 0 && plan.merchantNet > 0 && plan.platformFee >= 0
    ensures plan.tax.enabled ==> plan.taxAmount > 0
    ensures !plan.tax.enabled ==> plan.taxAmount == 0
    ensures forall i :: 0 <= i < |plan.splitAmounts| ==> plan.splitAmounts[i] > 0
    ensures plan.merchantNet + plan.taxAmount + Sum(plan.splitAmounts) + plan.platformFee == amount
    ensures PlatformFeeTotal(amount, cfg.feeBps, cfg.feeFlat) == Ok(plan.platformFee)
    ensures StorageMass(PayoutValues(plan)) <= MAX_SETTLEMENT_STORAGE_MASS
    ensures plan.feeAddress == cfg.feeAddress
  {
    var merchant := MerchantAddress(setup.value).value;
    var tax := ResolveTaxConfig(num, setup.value).value;
    var (totalBps, splits) := ResolveSplitConfig(num, setup.value).value;
    CheckedAmounts(cfg, amount, merchant, tax, totalBps, splits, plan);
  }

  lemma PayoutAmounts(plan: Plan)
    requires |plan.splits| == |plan.splitAmounts| && (plan.tax.enabled <==> plan.tax.address.Some?)
    ensures Amounts(Payouts(plan)) == PayoutValues(plan)
  {
    assert Amounts(SplitPayouts(plan.splits, plan.splitAmounts)) == plan.splitAmounts;
  }

  // The amounts of such payouts add up to the whole.
  lemma PayoutsAddUp(plan: Plan, amount: int)
    requires |plan.splits| == |plan.splitAmounts| && (plan.tax.enabled <==> plan.tax.address.Some?)
    requires plan.tax.enabled ==> plan.taxAmount > 0
    requires !plan.tax.enabled ==> plan.taxAmount == 0
    requires plan.merchantNet + plan.taxAmount + Sum(plan.splitAmounts) + plan.platformFee == amount
    ensures Sum(Amounts(Payouts(plan))) == amount
  {
    PayoutAmounts(plan);
    var tax := if plan.tax.enabled && plan.taxAmount > 0 then [plan.taxAmount] else [];
    SumAppend([plan.merchantNet] + tax + plan.splitAmounts, [plan.platformFee]);
    SumAppend([plan.merchantNet] + tax, plan.splitAmounts);
    SumAppend([plan.merchantNet], tax);
  }

  // Merchant first, then the tax if there is one, the splits in order, and the platform.
  predicate PaysOut(outs: seq<RequiredOutput>, plan: Plan, feeAddress: string) {
    var n := if plan.tax.enabled then 2 else 1;
    && |plan.splits| == |plan.splitAmounts| && |outs| == n + |plan.splits| + 1
    && outs[0] == RequiredOutput("merchant_net", plan.merchantAddress, plan.merchantNet)
    && (plan.tax.enabled ==>
          plan.tax.address.Some? && outs[1] == RequiredOutput("tax", plan.tax.address.value, plan.taxAmount))
    && (forall i :: 0 <= i < |plan.splits| ==>
          outs[n + i] == RequiredOutput("split", plan.splits[i].address, plan.splitAmounts[i]))
    && outs[n + |plan.splits|] == RequiredOutput("kasway_fee", feeAddress, plan.platformFee)
  }

  lemma PayoutsInOrder(plan: Plan)
    requires |plan.splits| == |plan.splitAmounts| && (plan.tax.enabled <==> plan.tax.address.Some?)
    requires plan.tax.enabled ==> plan.taxAmount > 0
    ensures PaysOut(Payouts(plan), plan, plan.feeAddress)
  {
  }

  // Every accepted plan accounts for the whole amount, in at most eight outputs,
  // with a positive slice for everyone but a platform that charges nothing.
  lemma AcceptedPlanConserves(cfg: FeeConfig, num: Numerals, setup: Option<SetupRow>, amount: int, plan: Plan)
    requires ComputeSplitPlan(cfg, num, setup, amount) == Ok(plan)
    ensures |plan.splits| == |plan.splitAmounts|
    ensures var outs := Payouts(plan);
      && 2 <= |outs| <= 8
      && Sum(Amounts(outs)) == amount
      && outs[0] == RequiredOutput("merchant_net", plan.merchantAddress, plan.merchantNet)
      && (forall i :: 0 <= i < |outs| ==> outs[i].amountSompi >= 0)
      && (forall i :: 0 <= i < |outs| - 1 ==> outs[i].amountSompi > 0)
  {
    PlanShape(cfg, num, setup, amount, plan);
    PayoutsAddUp(plan, amount);
    PayoutsInOrder(plan);
    PayoutsPositive(plan);
  }

  // It pays the merchant, the tax if there is one, every split and the configured fee
  // address, in that order.
  lemma AcceptedPlanPays(cfg: FeeConfig, num: Numerals, setup: Option<SetupRow>, amount: int, plan: Plan)
    requires ComputeSplitPlan(cfg, num, setup, amount) == Ok(plan)
    ensures |plan.splits| == |plan.splitAmounts| && PaysOut(Payouts(plan), plan, cfg.feeAddress)
  {
    PlanShape(cfg, num, setup, amount, plan);
    PayoutsInOrder(plan);
  }

  lemma PayoutsPositive(plan: Plan)
    requires |plan.splits| == |plan.splitAmounts| && PaysOut(Payouts(plan), plan, plan.feeAddress)
    requires plan.merchantNet > 0 && plan.platformFee >= 0 && (plan.tax.enabled ==> plan.taxAmount > 0)
    requires forall i :: 0 <= i < |plan.splitAmounts| ==> plan.splitAmounts[i] > 0
    ensures var outs := Payouts(plan);
      forall i :: 0 <= i < |outs| ==> outs[i].amountSompi >= 0 && (i < |outs| - 1 ==> outs[i].amountSompi > 0)
  {
    var outs, n := Payouts(plan), if plan.tax.enabled then 2 else 1;
    forall i | 0 <= i < |outs| ensures outs[i].amountSompi >= 0 && (i < |outs| - 1 ==> outs[i].amountSompi > 0) {
      if n <= i < |outs| - 1 {
        assert outs[n + (i - n)].amountSompi == plan.splitAmounts[i - n];
      }
    }
  }

  // `part` is the share of `amount` at a rate in basis points, rounded down.
  predicate IsShare(part: int, amount: int, bps: int) {
    0 <= part && part * MAX_BPS <= amount * bps < (part + 1) * MAX_BPS
  }

  lemma BpsAmountIsShare(amount: int, bps: int)
    requires amount >= 0 && BpsAmount(amount, bps).Ok?
    ensures IsShare(BpsAmount(amount, bps).value, amount, bps)
  {
    ProductNotNegative(amount, bps);
  }

  // Every slice of an accepted plan is its own configured share of the amount; what
  // rounding leaves over stays with the merchant.
  lemma AcceptedPlanShares(cfg: FeeConfig, num: Numerals, setup: Option<SetupRow>, amount: int, plan: Plan)
    requires ComputeSplitPlan(cfg, num, setup, amount) == Ok(plan)
    ensures |plan.splits| == |plan.splitAmounts|
    ensures IsShare(plan.platformFee - cfg.feeFlat, amount, cfg.feeBps)
    ensures IsShare(plan.taxAmount, amount, plan.tax.bps)
    ensures forall i :: 0 <= i < |plan.splits| ==> IsShare(plan.splitAmounts[i], amount, plan.splits[i].bps)
  {
    PlanShape(cfg, num, setup, amount, plan);
    PlanSlices(cfg, num, setup, amount, plan);
    BpsAmountIsShare(amount, cfg.feeBps);
    BpsAmountIsShare(amount, plan.tax.bps);
    forall i | 0 <= i < |plan.splits| ensures IsShare(plan.splitAmounts[i], amount, plan.splits[i].bps) {
      BpsAmountIsShare(amount, plan.splits[i].bps);
    }
  }

  lemma PlanSlices(cfg: FeeConfig, num: Numerals, setup: Option<SetupRow>, amount: int, plan: Plan)
    requires ComputeSplitPlan(cfg, num, setup, amount) == Ok(plan)
    ensures BpsAmount(amount, plan.tax.bps) == Ok(plan.taxAmount)
    ensures SplitAmounts(amount, plan.splits) == Ok(plan.splitAmounts)
  {
    var merchant := MerchantAddress(setup.value).value;
    var tax := ResolveTaxConfig(num, setup.value).value;
    var (totalBps, splits) := ResolveSplitConfig(num, setup.value).value;
    assert AmountChecks(cfg, amount, merchant, tax, totalBps, splits) == Ok(plan);
  }

  // A gross-up total leaves the merchant, the tax office and the split partners
  // together at least the subtotal that was asked for.
  lemma GrossUpFundsSubtotal(cfg: FeeConfig, num: Numerals, setup: Option<SetupRow>, plan: Plan,
                             subtotal: nat, amounts: (int, int, int))
    requires cfg.feeBps < MAX_BPS && cfg.feeFlat >= 0
    requires IsGrossUp(subtotal, cfg.feeBps, cfg.feeFlat, amounts)
    requires ComputeSplitPlan(cfg, num, setup, amounts.1) == Ok(plan)
    ensures plan.platformFee == amounts.2
    ensures plan.merchantNet + plan.taxAmount + Sum(plan.splitAmounts) >= subtotal
  {
    PlanShape(cfg, num, setup, amounts.1, plan);
  }

  // ---- the keeper's fee input and the storage mass of a release ----

  // A node UTXO: transaction id (ordered as its bytes are), output index, value.
  datatype FeeUtxo = FeeUtxo(txid: nat, index: nat, value: nat)

  // Larger value first; ties by transaction id, then by index.
  predicate Preferred(a: FeeUtxo, b: FeeUtxo) {
    if a.value != b.value then a.value > b.value
    else if a.txid != b.txid then a.txid < b.txid
    else a.index <= b.index
  }

  const preferred: (FeeUtxo, FeeUtxo) -> bool := (a, b) => Preferred(a, b)

  lemma PreferredIsTotal()
    ensures TotalPreorder(preferred)
    ensures forall xs :: TieFree(preferred, xs)
  {
  }

  predicate Spendable(u: FeeUtxo, minFee: nat) {
    u.value > minFee + KEEPER_CHANGE_FLOOR
  }

  function Retained(utxos: seq<FeeUtxo>, minFee: nat): seq<FeeUtxo> {
    if utxos == [] then []
    else
      var last := utxos[|utxos| - 1];
      var front := Retained(utxos[..|utxos| - 1], minFee);
      if Spendable(last, minFee) then front + [last] else front
  }

  lemma {:induction false} RetainedMembers(utxos: seq<FeeUtxo>, minFee: nat)
    ensures forall u :: u in Retained(utxos, minFee) <==> u in utxos && Spendable(u, minFee)
  {
    if utxos != [] {
      var front, last := utxos[..|utxos| - 1], utxos[|utxos| - 1];
      RetainedMembers(front, minFee);
      assert utxos == front + [last];
    }
  }

  // The answer `PickFeeUtxo` gives: the largest UTXO that leaves more than one KAS of
  // change, the least transaction and index among the largest.
  ghost predicate IsPick(utxos: seq<FeeUtxo>, minFee: nat, pick: Option<FeeUtxo>) {
    match pick
    case None => forall u :: u in utxos ==> u.value <= minFee + 100_000_000
    case Some(best) =>
      && best in utxos && best.value > minFee + 100_000_000
      && forall u :: u in utxos && u != best ==>
           || u.value < best.value
           || (u.value == best.value && (best.txid < u.txid || (best.txid == u.txid && best.index < u.index)))
  }

  // Retain what is spendable, sort, take the first.
  method PickFeeUtxo(utxos: seq<FeeUtxo>, minFee: nat) returns (pick: Option<FeeUtxo>)
    ensures IsPick(utxos, minFee, pick)
  {
    var kept := [];
    for i := 0 to |utxos|
      invariant kept == Retained(utxos[..i], minFee)
    {
      assert utxos[..i + 1][..i] == utxos[..i];
      if Spendable(utxos[i], minFee) {
        kept := kept + [utxos[i]];
      }
    }
    assert utxos[..|utxos|] == utxos;
    RetainedMembers(utxos, minFee);
    var sorted := Sort(preferred, kept);
    PreferredIsTotal();
    SortSorts(preferred, kept);
    SameMembers(kept, sorted);
    if sorted == [] {
      pick := None;
    } else {
      pick := Some(sorted[0]);
      forall u | u in utxos && Spendable(u, minFee) ensures Preferred(sorted[0], u) {
        FirstIsLeast(preferred, sorted, u);
      }
    }
  }

  // Whatever order the node lists its UTXOs in, the pick is the same, so the
  // transaction prepared for signing and the one submitted later are identical.
  lemma PickIsDeterministic(utxos: seq<FeeUtxo>, relisted: seq<FeeUtxo>, minFee: nat,
                            pick: Option<FeeUtxo>, again: Option<FeeUtxo>)
    requires multiset(utxos) == multiset(relisted)
    requires IsPick(utxos, minFee, pick) && IsPick(relisted, minFee, again)
    ensures pick == again
  {
    SameMembers(utxos, relisted);
  }

  // The change output, when anything is left over the miner fee.
  function Change(feeValue: nat, minerFee: nat): seq<int> {
    if feeValue > minerFee then [feeValue - minerFee] else []
  }

  // Every release the keeper can build for an accepted plan fits the node's cap
  // with room to spare.
  lemma ReleaseFitsMassCap(cfg: FeeConfig, num: Numerals, setup: Option<SetupRow>, amount: int, plan: Plan,
                           utxos: seq<FeeUtxo>, minFee: nat, pick: FeeUtxo)
    requires ComputeSplitPlan(cfg, num, setup, amount) == Ok(plan)
    requires IsPick(utxos, minFee, Some(pick))
    ensures |plan.splits| == |plan.splitAmounts|
    ensures StorageMass(Amounts(Payouts(plan)) + Change(pick.value, minFee)) <= 459_999 < CONSENSUS_MASS_CAP
  {
    PlanShape(cfg, num, setup, amount, plan);
    PayoutAmounts(plan);
    ChangeAddsLittle(PayoutValues(plan), pick, minFee);
  }

  lemma ChangeAddsLittle(values: seq<int>, pick: FeeUtxo, minFee: nat)
    requires pick.value > minFee + 100_000_000
    ensures StorageMass(values + Change(pick.value, minFee)) <= StorageMass(values) + 9_999
  {
    var change := pick.value - minFee;
    MassAppend(values, [change]);
    OutputMass(change, 100_000_001);
  }

  lemma OutputMass(value: int, floor: int)
    requires value >= floor > 0
    ensures StorageMass([value]) <= STORAGE_MASS_PARAM / floor
  {
    LargerDivisor(STORAGE_MASS_PARAM, value, floor);
    assert StorageMass([value]) == STORAGE_MASS_PARAM / value + StorageMass([value][1..]);
  }

  // A larger divisor gives no larger quotient.
  lemma LargerDivisor(n: nat, value: int, floor: int)
    requires value >= floor > 0
    ensures n / value <= n / floor
  {
    var q, f := n / value, n / floor;
    QuotientTimesDivisor(n, value);
    QuotientTimesDivisor(n, floor);
    SmallerFactor(q, floor, value);
    Distribute(q, f, floor);
    SmallMultiple(q - f, floor);
  }

  lemma QuotientTimesDivisor(n: nat, d: int)
    requires d > 0
    ensures n / d >= 0 && n / d * d <= n < n / d * d + d
  {
  }

  lemma SmallerFactor(q: nat, floor: int, value: int)
    requires floor <= value
    ensures q * floor <= q * value
  {
  }

  lemma Distribute(a: int, b: int, d: int)
    ensures (a - b) * d == a * d - b * d
  {
  }

  lemma SmallMultiple(k: int, d: int)
    requires d > 0 && k * d < d
    ensures k <= 0
  {
  }

  // At the default fee of 2% with no tax and no splits, two KAS is always enough.
  lemma DefaultRateAccepted(cfg: FeeConfig, num: Numerals, setup: SetupRow, amount: int)
    requires cfg.feeBps == 200 && cfg.feeFlat == 0 && cfg.minInvoice == 200_000_000
    requires IsKaspaAddress(cfg.feeAddress) && MerchantAddress(setup).Ok?
    requires !setup.taxEnabled && !setup.splitEnabled
    ensures ComputeSplitPlan(cfg, num, Some(setup), amount).Ok? <==> amount >= 200_000_000
  {
    if amount >= 200_000_000 {
      var fee := amount * 200 / MAX_BPS;
      assert PlatformFeeTotal(amount, 200, 0) == Ok(fee);
      assert BpsAmount(amount, 0) == Ok(0);
      OutputMass(fee, 4_000_000);
      OutputMass(amount - fee, 196_000_000);
      MassAppend([amount - fee], [fee]);
      assert [amount - fee] + [] + [] + [fee] == [amount - fee] + [fee];
    }
  }
}
