// The subscription covenant cell: one funded output that the keeper claims from
// once per period until it is used up.
module SubscriptionCell {
  import opened Wrappers
  import opened Fees
  import opened SplitPlan
  import opened Escrow
  import opened Text

  const MAX_U32 := 0xFFFF_FFFF

  datatype CellParams = CellParams(payouts: seq<Payout>, keeper: Key, customer: Destination, periodDaa: nat, sweepThreshold: nat)

  datatype CellError = CellNoPayouts | CellTooManyPayouts | CellKind | InvalidPeriod | CellOverflow | InsufficientValue

  function ClaimTotal(p: CellParams): Result<nat, CellError> {
    var sum := Sum(Values(p.payouts));
    if 0 <= sum <= MAX_I64 then Ok(sum) else Err(CellOverflow)
  }

  // Whether the covenant compiles for these parameters.
  function CheckCell(p: CellParams): Result<nat, CellError> {
    if p.payouts == [] then Err(CellNoPayouts)
    else if |p.payouts| > MAX_PAYOUTS then Err(CellTooManyPayouts)
    else if p.customer.kind != P2PK then Err(CellKind)
    else if p.periodDaa == 0 || p.periodDaa > MAX_U32 then Err(InvalidPeriod)
    else match ClaimTotal(p)
      case Err(e) => Err(e)
      case Ok(total) =>
        if (exists i :: 0 <= i < |p.payouts| && p.payouts[i].value > MAX_I64) || p.sweepThreshold > MAX_I64
        then Err(CellOverflow) else Ok(total)
  }

  // The covenant compiles exactly for one to eight payouts that sum to a 64-bit amount,
  // a customer key, a period that fits the relative lock and a 64-bit threshold.
  lemma CellCompilesExactly(p: CellParams)
    ensures CheckCell(p).Ok? <==>
      && 1 <= |p.payouts| <= 8 && p.customer.kind == P2PK && 1 <= p.periodDaa <= 0xFFFF_FFFF
      && Sum(Values(p.payouts)) <= MAX_I64 && p.sweepThreshold <= MAX_I64
    ensures CheckCell(p).Ok? ==> CheckCell(p).value == Sum(Values(p.payouts))
  {
    var values := Values(p.payouts);
    SumNotNegative(values);
    forall i | 0 <= i < |p.payouts| ensures p.payouts[i].value <= Sum(values) {
      PartOfSum(values, i);
    }
  }

  // Payouts, then the remainder back into the cell unless it is below the sweep
  // threshold, then the fee payer's change.
  function ClaimOutputs(p: CellParams, cellValue: nat, feeValue: nat, minerFee: nat, feePayer: Destination)
    : Result<seq<TxOut>, CellError>
  {
    match ClaimTotal(p)
    case Err(e) => Err(e)
    case Ok(total) =>
      if cellValue < total then Err(InsufficientValue)
      else
        var remainder := cellValue - total;
        var outs := PayoutOutputs(p.payouts);
        var cell := if remainder >= p.sweepThreshold then [TxOut(remainder, ToCovenant)] else [];
        Ok(WithChange(outs + cell, feeValue, minerFee, feePayer))
  }

  // The contract's demands on a claim, the relative lock aside.
  predicate ScriptAcceptsClaim(p: CellParams, claimTotal: nat, cellValue: nat, outs: seq<TxOut>) {
    && |p.payouts| <= |outs|
    && (forall i :: 0 <= i < |p.payouts| ==> outs[i] == TxOut(p.payouts[i].value, PayTo(p.payouts[i].destination)))
    && cellValue >= claimTotal
    && (cellValue - claimTotal >= p.sweepThreshold ==>
          |p.payouts| < |outs| && outs[|p.payouts|] == TxOut(cellValue - claimTotal, ToCovenant))
  }

  // The value that goes back into the cell.
  function Replicated(outs: seq<TxOut>): nat {
    if outs == [] then 0
    else (if outs[0].lock == ToCovenant then outs[0].value else 0) + Replicated(outs[1..])
  }

  lemma {:induction false} ReplicatedAppend(a: seq<TxOut>, b: seq<TxOut>)
    ensures Replicated(a + b) == Replicated(a) + Replicated(b)
  {
    if a == [] {
      assert a + b == b;
    } else {
      assert (a + b)[1..] == a[1..] + b;
      ReplicatedAppend(a[1..], b);
    }
  }

  lemma {:induction false} PayoutsReplicateNothing(payouts: seq<Payout>)
    ensures Replicated(PayoutOutputs(payouts)) == 0
  {
    if payouts != [] {
      assert PayoutOutputs(payouts)[1..] == PayoutOutputs(payouts[1..]);
      PayoutsReplicateNothing(payouts[1..]);
    }
  }

  // The dust a claim gives up: a remainder too small to go back into the cell.
  function Dust(p: CellParams, claimTotal: nat, cellValue: nat): nat
    requires claimTotal <= cellValue
  {
    if cellValue - claimTotal < p.sweepThreshold then cellValue - claimTotal else 0
  }

  // A claim that can be built satisfies the script, returns exactly the remainder
  // to the cell or sweeps it, and balances: inputs equal outputs plus the miner
  // fee plus the dust.
  lemma ClaimIsSound(p: CellParams, cellValue: nat, feeValue: nat, minerFee: nat, feePayer: Destination)
    requires ClaimOutputs(p, cellValue, feeValue, minerFee, feePayer).Ok?
    ensures var outs, total := ClaimOutputs(p, cellValue, feeValue, minerFee, feePayer).value, Sum(Values(p.payouts));
      && 0 <= total <= cellValue
      && ScriptAcceptsClaim(p, total, cellValue, outs)
      && Replicated(outs) + Dust(p, total, cellValue) == cellValue - total
      && Sum(OutValues(outs)) + Min(feeValue, minerFee) + Dust(p, total, cellValue) == cellValue + feeValue
  {
    var total := Sum(Values(p.payouts));
    var remainder := cellValue - total;
    var payouts := PayoutOutputs(p.payouts);
    var cell := if remainder >= p.sweepThreshold then [TxOut(remainder, ToCovenant)] else [];
    var change := if feeValue > minerFee then [TxOut(feeValue - minerFee, PayTo(feePayer))] else [];
    var outs := ClaimOutputs(p, cellValue, feeValue, minerFee, feePayer).value;
    assert outs == payouts + cell + change;
    ReplicatedAppend(payouts + cell, change);
    ReplicatedAppend(payouts, cell);
    PayoutsReplicateNothing(p.payouts);
    ChangeBalances(payouts + cell, feeValue, minerFee, feePayer);
    assert OutValues(payouts) == Values(p.payouts);
    assert OutValues(payouts + cell) == OutValues(payouts) + OutValues(cell);
    SumAppend(OutValues(payouts), OutValues(cell));
    assert remainder >= p.sweepThreshold ==> OutValues(cell) == [remainder];
  }

  // ---- the life of a cell ----

  // A cell on the chain: its value, and the DAA score at which it was created.
  datatype Cell = Live(value: nat, createdAt: nat) | Swept(dust: nat)

  // One claim at a DAA score. Consensus refuses it before the relative lock has
  // run out; the builder refuses it when the cell cannot cover the claim.
  function Claim(p: CellParams, cell: Cell, at: nat): Option<Cell> {
    if cell.Swept? || at < cell.createdAt + p.periodDaa then None
    else match ClaimTotal(p)
      case Err(_) => None
      case Ok(total) =>
        if cell.value < total then None
        else if cell.value - total >= p.sweepThreshold then Some(Live(cell.value - total, at))
        else Some(Swept(cell.value - total))
  }

  // The chain's view of a claim agrees with the outputs the builder makes for it.
  lemma ClaimMatchesOutputs(p: CellParams, cell: Cell, at: nat, feeValue: nat, minerFee: nat, feePayer: Destination)
    requires cell.Live?
    ensures Claim(p, cell, at).Some? <==>
      at >= cell.createdAt + p.periodDaa && ClaimOutputs(p, cell.value, feeValue, minerFee, feePayer).Ok?
    ensures Claim(p, cell, at).Some? ==>
      var next := Claim(p, cell, at).value;
      Replicated(ClaimOutputs(p, cell.value, feeValue, minerFee, feePayer).value) == if next.Live? then next.value else 0
  {
    if ClaimOutputs(p, cell.value, feeValue, minerFee, feePayer).Ok? {
      ClaimIsSound(p, cell.value, feeValue, minerFee, feePayer);
    }
  }

  // The cell after a run of claims at the given scores, if every one succeeds.
  function Run(p: CellParams, cell: Cell, times: seq<nat>): Option<Cell>
    decreases |times|
  {
    if times == [] then Some(cell)
    else match Claim(p, cell, times[0])
      case None => None
      case Some(next) => Run(p, next, times[1..])
  }

  function ValueOf(cell: Cell): nat {
    match cell
    case Live(v, _) => v
    case Swept(d) => d
  }

  lemma NothingAfterSweep(p: CellParams, dust: nat, times: seq<nat>)
    ensures Run(p, Swept(dust), times).Some? <==> times == []
  {
  }

  // Every run of claims on a cell of value V takes out exactly the claim total C
  // each time: V = n*C + what is left, so there are at most V/C claims; claims are
  // at least a period apart; and dust is below the sweep threshold.
  lemma {:induction false} CellLifetime(p: CellParams, cell: Cell, times: seq<nat>)
    requires cell.Live? && ClaimTotal(p).Ok? && Run(p, cell, times).Some?
    ensures var end, total := Run(p, cell, times).value, ClaimTotal(p).value;
      && cell.value == |times| * total + ValueOf(end)
      && (end.Swept? ==> end.dust < p.sweepThreshold && times != [])
      && (times != [] ==> times[0] >= cell.createdAt + p.periodDaa)
      && (forall i :: 0 <= i < |times| - 1 ==> times[i + 1] >= times[i] + p.periodDaa)
      && (end.Live? && times != [] ==> end.createdAt == times[|times| - 1])
    decreases |times|
  {
    if times == [] {
    } else {
      var next := Claim(p, cell, times[0]).value;
      if next.Swept? {
        NothingAfterSweep(p, next.dust, times[1..]);
      } else {
        CellLifetime(p, next, times[1..]);
        forall i | 0 <= i < |times| - 1 ensures times[i + 1] >= times[i] + p.periodDaa {
          if i > 0 {
            assert times[1..][i] >= times[1..][i - 1] + p.periodDaa;
          }
        }
        assert times != [] ==> times[|times| - 1] == if times[1..] == [] then times[0] else times[1..][|times| - 2];
      }
      assert |times| * ClaimTotal(p).value == ClaimTotal(p).value + (|times| - 1) * ClaimTotal(p).value;
    }
  }

  // No cell outlives its value.
  lemma ClaimsAreBounded(p: CellParams, cell: Cell, times: seq<nat>)
    requires cell.Live? && ClaimTotal(p).Ok? && ClaimTotal(p).value > 0 && Run(p, cell, times).Some?
    ensures |times| <= cell.value / ClaimTotal(p).value
  {
    CellLifetime(p, cell, times);
    AtMostQuotient(|times|, ClaimTotal(p).value, cell.value);
  }

  // ---- any spend the script accepts ----

  // A spend of the cell through its claim entrypoint, whoever built it.
  datatype Spend = Spend(outs: seq<TxOut>, at: nat)

  // The output in the cell's place, if it is locked to the covenant again.
  function Successor(p: CellParams, total: nat, cell: Cell, spend: Spend): Cell
    requires cell.Live? && total <= cell.value
  {
    var n := |p.payouts|;
    if n < |spend.outs| && spend.outs[n].lock == ToCovenant then Live(spend.outs[n].value, spend.at)
    else Swept(cell.value - total)
  }

  // What consensus and the script let through: the relative lock and the script's demands.
  predicate CanSpend(p: CellParams, total: nat, cell: Cell, spend: Spend) {
    cell.Live? && spend.at >= cell.createdAt + p.periodDaa && ScriptAcceptsClaim(p, total, cell.value, spend.outs)
  }

  function SpendAll(p: CellParams, total: nat, cell: Cell, spends: seq<Spend>): Option<Cell>
    decreases |spends|
  {
    if spends == [] then Some(cell)
    else if CanSpend(p, total, cell, spends[0]) then SpendAll(p, total, Successor(p, total, cell, spends[0]), spends[1..])
    else None
  }

  // The script leaves no choice about a remainder of at least the threshold, and
  // every spend pays each payout its exact value.
  lemma ScriptPinsRemainder(p: CellParams, total: nat, cell: Cell, spend: Spend)
    requires CanSpend(p, total, cell, spend)
    ensures forall i :: 0 <= i < |p.payouts| ==> spend.outs[i] == TxOut(p.payouts[i].value, PayTo(p.payouts[i].destination))
    ensures cell.value - total >= p.sweepThreshold ==>
      Successor(p, total, cell, spend) == Live(cell.value - total, spend.at)
    ensures Successor(p, total, cell, spend).Swept? ==> cell.value - total < p.sweepThreshold
  {
  }

  lemma SpendFirst(p: CellParams, total: nat, cell: Cell, spends: seq<Spend>) returns (next: Cell)
    requires cell.Live? && spends != [] && SpendAll(p, total, cell, spends).Some?
    ensures CanSpend(p, total, cell, spends[0]) && next == Successor(p, total, cell, spends[0])
    ensures SpendAll(p, total, next, spends[1..]) == SpendAll(p, total, cell, spends)
    ensures next.Swept? ==> |spends| == 1
  {
    next := Successor(p, total, cell, spends[0]);
    SweptEnds(p, total, cell.value - total, spends[1..]);
  }

  lemma SweptEnds(p: CellParams, total: nat, dust: nat, spends: seq<Spend>)
    ensures SpendAll(p, total, Swept(dust), spends).Some? <==> spends == []
  {
  }

  lemma MoreSpends(n: nat, total: nat)
    ensures (n + 1) * total == n * total + total
  {
  }

  // As long as the spends before the last one leave at least the threshold, n of them
  // take n times the claim total out of the cell, and no more than it holds; and when
  // the last one does too, exactly the rest is in the cell.
  lemma {:induction false} ScriptAccounts(p: CellParams, total: nat, cell: Cell, spends: seq<Spend>)
    requires cell.Live? && spends != [] && SpendAll(p, total, cell, spends).Some?
    requires cell.value - (|spends| - 1) * total >= p.sweepThreshold || |spends| == 1
    ensures |spends| * total <= cell.value
    ensures var end, rest := SpendAll(p, total, cell, spends).value, cell.value - |spends| * total;
      && (rest >= p.sweepThreshold ==> end == Live(rest, spends[|spends| - 1].at))
      && (end.Swept? ==> end.dust == rest < p.sweepThreshold)
    decreases |spends|
  {
    var n := |spends| - 1;
    var next := SpendFirst(p, total, cell, spends);
    MoreSpends(n, total);
    ScriptPinsRemainder(p, total, cell, spends[0]);
    if n > 0 {
      ProtectedBefore(p, total, cell, n);
      MoreSpends(n - 1, total);
      ScriptAccounts(p, total, next, spends[1..]);
    }
  }

  // A remainder the n-th spend leaves protected was protected all along.
  lemma ProtectedBefore(p: CellParams, total: nat, cell: Cell, n: nat)
    requires cell.Live? && n > 0 && cell.value - n * total >= p.sweepThreshold
    ensures cell.value - total >= p.sweepThreshold
  {
    MoreSpends(n - 1, total);
    assert (n - 1) * total >= 0;
  }

  // No spend puts a remainder below the threshold back under the covenant's lock.
  predicate NothingPutBack(p: CellParams, total: nat, cell: Cell, spends: seq<Spend>)
    requires SpendAll(p, total, cell, spends).Some?
    decreases |spends|
  {
    spends == [] ||
    (var next := Successor(p, total, cell, spends[0]);
     (next.Live? ==> cell.value - total >= p.sweepThreshold) && NothingPutBack(p, total, next, spends[1..]))
  }

  // Whoever builds the spends, unless such a remainder is put back: V is n claims and
  // what is left, which is the cell, or dust below the threshold; and spends are at
  // least a period apart in any case.
  lemma {:induction false} ScriptLifetime(p: CellParams, total: nat, cell: Cell, spends: seq<Spend>)
    requires cell.Live? && SpendAll(p, total, cell, spends).Some?
    ensures var end := SpendAll(p, total, cell, spends).value;
      && (NothingPutBack(p, total, cell, spends) ==> cell.value == |spends| * total + ValueOf(end))
      && (end.Swept? ==> end.dust < p.sweepThreshold && spends != [])
      && (spends != [] ==> spends[0].at >= cell.createdAt + p.periodDaa)
      && (forall i :: 0 <= i < |spends| - 1 ==> spends[i + 1].at >= spends[i].at + p.periodDaa)
    decreases |spends|
  {
    if spends != [] {
      var rest := spends[1..];
      var next := SpendFirst(p, total, cell, spends);
      ScriptPinsRemainder(p, total, cell, spends[0]);
      MoreSpends(|rest|, total);
      if next.Live? {
        ScriptLifetime(p, total, next, rest);
        forall i | 0 <= i < |spends| - 1 ensures spends[i + 1].at >= spends[i].at + p.periodDaa {
          if i > 0 {
            assert rest[i].at >= rest[i - 1].at + p.periodDaa;
          }
        }
      }
    }
  }

  // The script does let such a remainder be put back, at any value: from there on the
  // cell's value is whatever the spender chose.
  lemma PutBackIsFree(p: CellParams, total: nat, cell: Cell, at: nat, value: nat)
    requires cell.Live? && total <= cell.value && cell.value - total < p.sweepThreshold
    requires at >= cell.createdAt + p.periodDaa
    ensures var spend := Spend(PayoutOutputs(p.payouts) + [TxOut(value, ToCovenant)], at);
      CanSpend(p, total, cell, spend) && Successor(p, total, cell, spend) == Live(value, at)
  {
  }

  // A claim the keeper builds is such a spend, and leaves the same cell behind.
  lemma BuiltClaimIsSpend(p: CellParams, cell: Cell, at: nat, feeValue: nat, minerFee: nat, feePayer: Destination)
    requires cell.Live? && Claim(p, cell, at).Some?
    ensures var total := Sum(Values(p.payouts));
      && 0 <= total <= cell.value && ClaimOutputs(p, cell.value, feeValue, minerFee, feePayer).Ok?
      && var spend := Spend(ClaimOutputs(p, cell.value, feeValue, minerFee, feePayer).value, at);
      && CanSpend(p, total, cell, spend) && Successor(p, total, cell, spend) == Claim(p, cell, at).value
  {
    ClaimMatchesOutputs(p, cell, at, feeValue, minerFee, feePayer);
    ClaimIsSound(p, cell.value, feeValue, minerFee, feePayer);
  }

  lemma AtMostQuotient(n: nat, d: nat, v: nat)
    requires d > 0 && n * d <= v
    ensures n <= v / d
  {
    var q := v / d;
    assert v == q * d + v % d;
    assert (n - q) * d == n * d - q * d;
    SmallMultiple(n - q, d);
  }
}
