// The escrow covenant of one invoice: how its parameters are derived when the
// payer finalizes, stored on the intent row, and rebuilt when it is settled; and
// the spends that are built for it.
module Escrow {
  import opened Wrappers
  import opened Text
  import opened Fees
  import opened Setup
  import opened SplitPlan

  const TWO_32 := 0x1_0000_0000
  const TWO_64 := 0x1_0000_0000_0000_0000
  const MAX_I32 := 0x7FFF_FFFF

  type U32 = n: int | 0 <= n < TWO_32

  datatype Kind = P2PK | P2SH

  datatype Destination = Destination(kind: Kind, payload: Key)

  datatype Payout = Payout(destination: Destination, value: nat)

  datatype EscrowParams = EscrowParams(payouts: seq<Payout>, customerRefund: Destination, merchant: Destination,
                                       arbiterPanel: seq<Key>, arbiterThreshold: U32,
                                       grossAmount: nat, captureTime: nat)

  // The arguments handed to the contract compiler.
  datatype ContractArgs = ContractArgs(payloads: seq<Key>, kinds: seq<Kind>, values: seq<nat>, customer: Key, merchant: Key,
                                       panel: seq<Key>, threshold: U32, gross: nat, captureTime: nat)

  type Script = seq<byte>

  // The address parser, the contract compiler and the address encoder.
  datatype Chain = Chain(parse: string -> Option<Destination>, prefixOf: string -> Option<nat>,
                         compile: ContractArgs -> Option<Script>, addressOf: (Script, nat) -> Option<string>)

  datatype EscrowError = NoPayouts | TooManyPayouts | UnsupportedKind | BadPanel | PayoutSumMismatch | AmountOverflow
                       | Missing | BadAddress | NoMerchant | BadAmount | UnknownNetwork | CompileFailed
                       | InvoiceNotOpen | PaymentExpired

  function Values(payouts: seq<Payout>): seq<int> {
    seq(|payouts|, i requires 0 <= i < |payouts| => payouts[i].value)
  }

  // The checks are made in the order the contract constructor makes them.
  function ConstructorArgs(p: EscrowParams): Result<ContractArgs, EscrowError> {
    if p.payouts == [] then Err(NoPayouts)
    else if |p.payouts| > MAX_PAYOUTS then Err(TooManyPayouts)
    else if p.customerRefund.kind != P2PK || p.merchant.kind != P2PK then Err(UnsupportedKind)
    else if p.arbiterPanel == [] then Err(BadPanel)
    else if p.arbiterThreshold == 0 || p.arbiterThreshold > |p.arbiterPanel| then Err(BadPanel)
    else if Sum(Values(p.payouts)) != p.grossAmount then Err(PayoutSumMismatch)
    else if exists i :: 0 <= i < |p.payouts| && p.payouts[i].value > MAX_I64 then Err(AmountOverflow)
    else if p.grossAmount > MAX_I64 || p.captureTime > MAX_I64 then Err(AmountOverflow)
    else Ok(ContractArgs(
      seq(|p.payouts|, i requires 0 <= i < |p.payouts| => p.payouts[i].destination.payload),
      seq(|p.payouts|, i requires 0 <= i < |p.payouts| => p.payouts[i].destination.kind),
      seq(|p.payouts|, i requires 0 <= i < |p.payouts| => p.payouts[i].value),
      p.customerRefund.payload, p.merchant.payload, p.arbiterPanel, p.arbiterThreshold, p.grossAmount, p.captureTime))
  }

  function CompiledAddress(chain: Chain, p: EscrowParams, prefix: nat): Result<string, EscrowError> {
    match ConstructorArgs(p)
    case Err(e) => Err(e)
    case Ok(args) =>
      match chain.compile(args)
      case None => Err(CompileFailed)
      case Some(script) =>
        match chain.addressOf(script, prefix)
        case None => Err(BadAddress)
        case Some(a) => Ok(a)
  }

  // ---- the arbiter panel ----

  datatype PanelConfig = PanelConfig(panelHex: seq<string>, threshold: U32, ownKey: Option<Key>)

  function ParsePanel(hexes: seq<string>): Result<seq<Key>, EscrowError> {
    if hexes == [] then Ok([])
    else match ParsePanel(hexes[..|hexes| - 1])
      case Err(e) => Err(e)
      case Ok(front) =>
        match DecodeHex32(Trim(hexes[|hexes| - 1]))
        case None => Err(BadPanel)
        case Some(k) => Ok(front + [k])
  }

  // The threshold is held between one and the panel size.
  function ClampThreshold(threshold: U32, size: nat): U32 {
    if threshold < 1 then 1 else if threshold > size then size else threshold
  }

  function ConfiguredPanel(cfg: PanelConfig): Result<(seq<Key>, U32), EscrowError> {
    if cfg.panelHex == [] then
      match cfg.ownKey
      case None => Err(BadPanel)
      case Some(k) => Ok(([k], 1))
    else match ParsePanel(cfg.panelHex)
      case Err(e) => Err(e)
      case Ok(panel) => Ok((panel, ClampThreshold(cfg.threshold, |panel|)))
  }

  lemma {:induction false} PanelKeysInOrder(hexes: seq<string>, i: nat)
    requires ParsePanel(hexes).Ok? && i < |hexes|
    ensures |ParsePanel(hexes).value| == |hexes| && DecodeHex32(Trim(hexes[i])) == Some(ParsePanel(hexes).value[i])
  {
    var n := |hexes| - 1;
    assert ParsePanel(hexes[..n]).Ok? && ParsePanel(hexes).value
        == ParsePanel(hexes[..n]).value + [DecodeHex32(Trim(hexes[n])).value];
    if i < n {
      PanelKeysInOrder(hexes[..n], i);
      assert hexes[..n][i] == hexes[i];
    } else if n > 0 {
      PanelKeysInOrder(hexes[..n], 0);
    }
  }

  // The panel is the configured one key by key, the threshold the configured one held
  // between one and the number of keys; without a panel the server's own key alone.
  lemma ConfiguredExactly(cfg: PanelConfig)
    requires ConfiguredPanel(cfg).Ok?
    ensures var (panel, threshold) := ConfiguredPanel(cfg).value;
      && (cfg.panelHex == [] ==> Some(panel) == (if cfg.ownKey.Some? then Some([cfg.ownKey.value]) else None) && threshold == 1)
      && (cfg.panelHex != [] ==>
            && |panel| == |cfg.panelHex|
            && (forall i :: 0 <= i < |panel| ==> DecodeHex32(Trim(cfg.panelHex[i])) == Some(panel[i]))
            && threshold == if cfg.threshold == 0 then 1 else if cfg.threshold > |panel| then |panel| else cfg.threshold)
  {
    if cfg.panelHex != [] {
      forall i | 0 <= i < |cfg.panelHex| ensures |ParsePanel(cfg.panelHex).value| == |cfg.panelHex|
        && DecodeHex32(Trim(cfg.panelHex[i])) == Some(ParsePanel(cfg.panelHex).value[i]) {
        PanelKeysInOrder(cfg.panelHex, i);
      }
      assert cfg.panelHex[0] == cfg.panelHex[0];
    }
  }

  function EncodePanel(panel: seq<Key>): seq<string> {
    seq(|panel|, i requires 0 <= i < |panel| => EncodeHex(panel[i]))
  }

  lemma {:induction false} PanelRoundTrip(panel: seq<Key>)
    ensures ParsePanel(EncodePanel(panel)) == Ok(panel)
  {
    if panel != [] {
      var front := panel[..|panel| - 1];
      PanelRoundTrip(front);
      DecodeEncode(panel[|panel| - 1]);
      assert EncodePanel(panel)[..|panel| - 1] == EncodePanel(front);
      assert panel == front + [panel[|panel| - 1]];
    }
  }

  // ---- the intent row ----

  datatype IntentRow = IntentRow(network: string, requiredOutputs: StoredJson, gross: Option<int>, expiryTs: Option<int>,
                                 pending: bool, paymentDeadline: Option<nat>,
                                 covenantAddress: Option<string>, refundAddress: Option<string>,
                                 panelJson: Option<seq<string>>, panelThreshold: Option<int>)

  predicate InI64(n: Option<int>) {
    n.Some? ==> -MAX_I64 - 1 <= n.value <= MAX_I64
  }

  // `as u64` of a signed column.
  function AsU64(n: int): nat
    requires -MAX_I64 - 1 <= n <= MAX_I64
  {
    if n < 0 then n + TWO_64 else n
  }

  // `as i32` of a u32, and back.
  function AsI32(n: U32): (r: int)
    ensures -MAX_I32 - 1 <= r <= MAX_I32
  {
    if n > MAX_I32 then n - TWO_32 else n
  }

  function AsU32(n: int): U32
    requires -MAX_I32 - 1 <= n <= MAX_I32
  {
    if n < 0 then n + TWO_32 else n
  }

  function SaturatingMul(n: nat, factor: nat): nat {
    if n * factor >= TWO_64 then TWO_64 - 1 else n * factor
  }

  function MerchantOutput(outs: seq<RequiredOutput>): Option<string> {
    if outs == [] then None
    else if outs[0].role == "merchant_net" then Some(outs[0].address)
    else MerchantOutput(outs[1..])
  }

  predicate FirstMerchant(outs: seq<RequiredOutput>, i: nat) {
    i < |outs| && outs[i].role == "merchant_net" && forall j :: 0 <= j < i ==> outs[j].role != "merchant_net"
  }

  // The first output of the merchant's role, wherever it stands.
  lemma {:induction false} MerchantExactly(outs: seq<RequiredOutput>)
    ensures MerchantOutput(outs).None? <==> forall o :: o in outs ==> o.role != "merchant_net"
    ensures MerchantOutput(outs).Some? ==> exists i: nat :: FirstMerchant(outs, i) && outs[i].address == MerchantOutput(outs).value
  {
    if outs != [] && outs[0].role != "merchant_net" {
      MerchantExactly(outs[1..]);
      assert outs == [outs[0]] + outs[1..];
      if MerchantOutput(outs[1..]).Some? {
        var i: nat :| FirstMerchant(outs[1..], i) && outs[1..][i].address == MerchantOutput(outs[1..]).value;
        forall j | 0 <= j < i + 1 ensures outs[j].role != "merchant_net" {
          assert j > 0 ==> outs[j] == outs[1..][j - 1];
        }
        assert FirstMerchant(outs, i + 1);
      }
    } else if outs != [] {
      assert FirstMerchant(outs, 0);
    }
  }

  function ToPayouts(chain: Chain, outs: seq<RequiredOutput>): Result<seq<Payout>, EscrowError> {
    if outs == [] then Ok([])
    else match ToPayouts(chain, outs[..|outs| - 1])
      case Err(e) => Err(e)
      case Ok(front) =>
        var last := outs[|outs| - 1];
        match chain.parse(last.address)
        case None => Err(BadAddress)
        case Some(d) =>
          if last.amountSompi < 0 || last.amountSompi >= TWO_64 then Err(BadAmount)
          else Ok(front + [Payout(d, last.amountSompi)])
  }

  // The parties and payouts named by the stored outputs, read the same way by
  // finalize and by settlement.
  function Parties(chain: Chain, row: IntentRow): Result<(seq<Payout>, Destination), EscrowError> {
    var outs := ParseRequiredOutputs(row.requiredOutputs);
    match MerchantOutput(outs)
    case None => Err(NoMerchant)
    case Some(address) =>
      match chain.parse(address)
      case None => Err(BadAddress)
      case Some(merchant) =>
        match ToPayouts(chain, outs)
        case Err(e) => Err(e)
        case Ok(payouts) => Ok((payouts, merchant))
  }

  function FinalizeParams(chain: Chain, cfg: PanelConfig, row: IntentRow, refundAddress: string): Result<EscrowParams, EscrowError>
    requires InI64(row.gross) && InI64(row.expiryTs)
  {
    if row.gross.None? || row.expiryTs.None? then Err(Missing)
    else match chain.parse(refundAddress)
      case None => Err(BadAddress)
      case Some(refund) =>
        match ConfiguredPanel(cfg)
        case Err(e) => Err(e)
        case Ok((panel, threshold)) =>
          match Parties(chain, row)
          case Err(e) => Err(e)
          case Ok((payouts, merchant)) =>
            Ok(EscrowParams(payouts, refund, merchant, panel, threshold,
                            AsU64(row.gross.value), SaturatingMul(AsU64(row.expiryTs.value), 1000)))
  }

  datatype Finalized = Existing(address: string, refund: string)
                     | Stored(row: IntentRow, params: EscrowParams)
                     | Refused(error: EscrowError)

  // What finalize writes back; `Existing` and `Refused` write nothing to the row.
  function Finalize(chain: Chain, cfg: PanelConfig, invoiceOpen: bool, now: nat, row: IntentRow, refundAddress: string): Finalized
    requires InI64(row.gross) && InI64(row.expiryTs)
  {
    if row.gross.None? || row.expiryTs.None? then Refused(Missing)
    else if !row.pending && row.covenantAddress.Some? then
      Existing(row.covenantAddress.value, if row.refundAddress.Some? then row.refundAddress.value else "")
    else if !invoiceOpen then Refused(InvoiceNotOpen)
    else if row.paymentDeadline.Some? && row.paymentDeadline.value <= now then Refused(PaymentExpired)
    else match chain.prefixOf(row.network)
      case None => Refused(UnknownNetwork)
      case Some(prefix) =>
        match FinalizeParams(chain, cfg, row, refundAddress)
        case Err(e) => Refused(e)
        case Ok(params) =>
          match CompiledAddress(chain, params, prefix)
          case Err(e) => Refused(e)
          case Ok(address) =>
            Stored(row.(pending := false, covenantAddress := Some(address), refundAddress := Some(refundAddress),
                        panelJson := Some(EncodePanel(params.arbiterPanel)),
                        panelThreshold := Some(AsI32(params.arbiterThreshold))), params)
  }

  // Settlement's reading of the row: parameters, address prefix, stored address.
  function RebuildParams(chain: Chain, cfg: PanelConfig, row: IntentRow): Result<(EscrowParams, nat, string), EscrowError>
    requires row.panelThreshold.Some? ==> -MAX_I32 - 1 <= row.panelThreshold.value <= MAX_I32
  {
    if row.covenantAddress.None? || row.refundAddress.None? || row.gross.None? then Err(Missing)
    else if row.gross.value < 0 then Err(BadAmount)
    else if row.expiryTs.None? then Err(Missing)
    else if row.expiryTs.value < 0 then Err(BadAmount)
    else match chain.prefixOf(row.network)
      case None => Err(UnknownNetwork)
      case Some(prefix) =>
        match chain.parse(row.refundAddress.value)
        case None => Err(BadAddress)
        case Some(refund) =>
          match RowPanel(cfg, row)
          case Err(e) => Err(e)
          case Ok((panel, threshold)) =>
            match Parties(chain, row)
            case Err(e) => Err(e)
            case Ok((payouts, merchant)) =>
              Ok((EscrowParams(payouts, refund, merchant, panel, threshold, row.gross.value,
                               SaturatingMul(row.expiryTs.value, 1000)), prefix, row.covenantAddress.value))
  }

  // The panel snapshot, or the configured panel for a row without one.
  function RowPanel(cfg: PanelConfig, row: IntentRow): Result<(seq<Key>, U32), EscrowError>
    requires row.panelThreshold.Some? ==> -MAX_I32 - 1 <= row.panelThreshold.value <= MAX_I32
  {
    match (row.panelJson, row.panelThreshold)
    case (Some(hexes), Some(th)) =>
      (match ParsePanel(hexes)
       case Err(e) => Err(e)
       case Ok(panel) => Ok((panel, AsU32(th))))
    case _ => ConfiguredPanel(cfg)
  }

  lemma CastsRoundTrip(n: U32)
    ensures AsU32(AsI32(n)) == n
  {
  }

  // Only amounts and times that are not negative get past the compiler's i64
  // checks, so both readings of the signed columns agree on a stored row.
  lemma StoredColumnsNotNegative(chain: Chain, cfg: PanelConfig, row: IntentRow, refundAddress: string)
    requires InI64(row.gross) && InI64(row.expiryTs)
    requires FinalizeParams(chain, cfg, row, refundAddress).Ok?
    requires ConstructorArgs(FinalizeParams(chain, cfg, row, refundAddress).value).Ok?
    ensures row.gross.value >= 0 && row.expiryTs.value >= 0
  {
  }

  // Whatever finalize stores, settlement rebuilds the same parameters and the
  // same address from it, even after the configured panel has changed.
  lemma FinalizeRebuild(chain: Chain, cfg: PanelConfig, later: PanelConfig, invoiceOpen: bool, now: nat,
                        row: IntentRow, refundAddress: string)
    requires InI64(row.gross) && InI64(row.expiryTs)
    requires Finalize(chain, cfg, invoiceOpen, now, row, refundAddress).Stored?
    ensures var Stored(stored, params) := Finalize(chain, cfg, invoiceOpen, now, row, refundAddress);
      && stored.panelThreshold.Some? && -MAX_I32 - 1 <= stored.panelThreshold.value <= MAX_I32
      && var rebuilt := RebuildParams(chain, later, stored);
      && rebuilt.Ok? && rebuilt.value.0 == params
      && CompiledAddress(chain, rebuilt.value.0, rebuilt.value.1) == Ok(rebuilt.value.2)
  {
    var Stored(stored, params) := Finalize(chain, cfg, invoiceOpen, now, row, refundAddress);
    StoredColumnsNotNegative(chain, cfg, row, refundAddress);
    PanelRoundTrip(params.arbiterPanel);
    CastsRoundTrip(params.arbiterThreshold);
  }

  // A covenant is derived exactly for a pending intent, or one without a covenant, of
  // an open invoice before its deadline, whose parameters can be read and compiled.
  lemma FinalizedExactly(chain: Chain, cfg: PanelConfig, invoiceOpen: bool, now: nat, row: IntentRow, refundAddress: string)
    requires InI64(row.gross) && InI64(row.expiryTs)
    ensures var r, stated := Finalize(chain, cfg, invoiceOpen, now, row, refundAddress), row.gross.Some? && row.expiryTs.Some?;
      && (r.Existing? <==> stated && !row.pending && row.covenantAddress.Some?)
      && (r.Existing? ==> Some(r.address) == row.covenantAddress)
      && (r.Stored? <==>
            && stated && (row.pending || row.covenantAddress.None?) && invoiceOpen
            && (row.paymentDeadline.None? || now < row.paymentDeadline.value)
            && chain.prefixOf(row.network).Some?
            && FinalizeParams(chain, cfg, row, refundAddress).Ok?
            && CompiledAddress(chain, FinalizeParams(chain, cfg, row, refundAddress).value, chain.prefixOf(row.network).value).Ok?)
  {
  }

  // What finalize bakes into a covenant: the refund address asked for, the merchant and
  // payouts of the stored outputs, the configured panel, the gross, and a capture time of
  // the expiry in milliseconds. Of the row only the covenant's own columns change.
  lemma StoredTerms(chain: Chain, cfg: PanelConfig, invoiceOpen: bool, now: nat, row: IntentRow, refundAddress: string)
    requires InI64(row.gross) && InI64(row.expiryTs)
    requires Finalize(chain, cfg, invoiceOpen, now, row, refundAddress).Stored?
    ensures var Stored(stored, params) := Finalize(chain, cfg, invoiceOpen, now, row, refundAddress);
      && chain.parse(refundAddress) == Some(params.customerRefund)
      && Parties(chain, row) == Ok((params.payouts, params.merchant))
      && ConfiguredPanel(cfg) == Ok((params.arbiterPanel, params.arbiterThreshold))
      && row.gross == Some(params.grossAmount) && row.expiryTs.Some? && params.captureTime == 1000 * row.expiryTs.value
      && chain.prefixOf(row.network).Some?
      && stored.covenantAddress.Some?
      && ConstructorArgs(params).Ok?
      && var script := chain.compile(ConstructorArgs(params).value);
      && script.Some? && chain.addressOf(script.value, chain.prefixOf(row.network).value) == stored.covenantAddress
      && stored == row.(pending := false, covenantAddress := stored.covenantAddress, refundAddress := Some(refundAddress),
                        panelJson := stored.panelJson, panelThreshold := stored.panelThreshold)
  {
    StoredColumnsNotNegative(chain, cfg, row, refundAddress);
  }

  // The compiler is handed the parameters themselves, payout by payout.
  lemma CompiledTerms(p: EscrowParams)
    requires ConstructorArgs(p).Ok?
    ensures var args := ConstructorArgs(p).value;
      && |args.payloads| == |args.kinds| == |args.values| == |p.payouts|
      && (forall i :: 0 <= i < |p.payouts| ==>
            p.payouts[i] == Payout(Destination(args.kinds[i], args.payloads[i]), args.values[i]))
      && p.customerRefund == Destination(P2PK, args.customer) && p.merchant == Destination(P2PK, args.merchant)
      && args.panel == p.arbiterPanel && args.threshold == p.arbiterThreshold && 1 <= args.threshold <= |args.panel|
      && args.gross == p.grossAmount && args.captureTime == p.captureTime
  {
  }

  // Settlement reads a covenant exactly when all its columns can be read, and with its own
  // terms; a row without a panel snapshot goes by the panel configured now.
  lemma RebuiltTerms(chain: Chain, cfg: PanelConfig, row: IntentRow)
    requires InI64(row.gross) && InI64(row.expiryTs)
    requires row.panelThreshold.Some? ==> -MAX_I32 - 1 <= row.panelThreshold.value <= MAX_I32
    ensures RebuildParams(chain, cfg, row).Ok? <==>
      && row.covenantAddress.Some? && row.refundAddress.Some? && chain.parse(row.refundAddress.value).Some?
      && row.gross.Some? && row.gross.value >= 0 && row.expiryTs.Some? && row.expiryTs.value >= 0
      && chain.prefixOf(row.network).Some? && Parties(chain, row).Ok?
      && (if row.panelJson.Some? && row.panelThreshold.Some? then ParsePanel(row.panelJson.value).Ok? else ConfiguredPanel(cfg).Ok?)
    ensures RebuildParams(chain, cfg, row).Ok? ==>
      var (params, prefix, address) := RebuildParams(chain, cfg, row).value;
      && row.covenantAddress == Some(address) && chain.prefixOf(row.network) == Some(prefix)
      && row.refundAddress.Some? && chain.parse(row.refundAddress.value) == Some(params.customerRefund)
      && Parties(chain, row) == Ok((params.payouts, params.merchant))
      && row.gross == Some(params.grossAmount) && row.expiryTs.Some?
      && (1000 * row.expiryTs.value < TWO_64 ==> params.captureTime == 1000 * row.expiryTs.value)
      && (row.panelJson.None? || row.panelThreshold.None? ==>
            ConfiguredPanel(cfg) == Ok((params.arbiterPanel, params.arbiterThreshold)))
      && (row.panelJson.Some? && row.panelThreshold.Some? ==> ParsePanel(row.panelJson.value) == Ok(params.arbiterPanel))
  {
  }

  // Finalizing twice returns the first covenant, whatever the second payer asks for.
  lemma FinalizeIsIdempotent(chain: Chain, cfg: PanelConfig, later: PanelConfig, invoiceOpen: bool, now: nat, after: nat,
                             row: IntentRow, refundAddress: string, other: string)
    requires InI64(row.gross) && InI64(row.expiryTs)
    requires Finalize(chain, cfg, invoiceOpen, now, row, refundAddress).Stored?
    ensures var stored := Finalize(chain, cfg, invoiceOpen, now, row, refundAddress).row;
      stored.covenantAddress.Some? &&
      Finalize(chain, later, invoiceOpen, after, stored, other) == Existing(stored.covenantAddress.value, refundAddress)
  {
  }

  // ---- the finalize handler, statement by statement ----

  lemma {:induction false} BadOutputStops(chain: Chain, outs: seq<RequiredOutput>, n: nat)
    requires n <= |outs| && ToPayouts(chain, outs[..n]).Err?
    ensures ToPayouts(chain, outs) == ToPayouts(chain, outs[..n])
    decreases |outs|
  {
    if n < |outs| {
      assert outs[..|outs| - 1][..n] == outs[..n];
      BadOutputStops(chain, outs[..|outs| - 1], n);
    } else {
      assert outs[..n] == outs;
    }
  }

  predicate PaysTo(chain: Chain, o: RequiredOutput, p: Payout) {
    chain.parse(o.address) == Some(p.destination) && o.amountSompi == p.value
  }

  // Every output is one payout, in order; a list with an unreadable address, or an amount
  // that does not fit 64 bits, is none.
  lemma {:induction false} PayoutsReadExactly(chain: Chain, outs: seq<RequiredOutput>)
    ensures ToPayouts(chain, outs).Ok? <==>
      forall o :: o in outs ==> chain.parse(o.address).Some? && 0 <= o.amountSompi <= 0xFFFF_FFFF_FFFF_FFFF
    ensures ToPayouts(chain, outs).Ok? ==>
      && |ToPayouts(chain, outs).value| == |outs|
      && forall i :: 0 <= i < |outs| ==> PaysTo(chain, outs[i], ToPayouts(chain, outs).value[i])
  {
    if outs != [] {
      var n := |outs| - 1;
      PayoutsReadExactly(chain, outs[..n]);
      assert outs == outs[..n] + [outs[n]];
    }
  }

  // The loop that turns stored outputs into payouts, at finalize and at settlement.
  method CollectPayouts(chain: Chain, outs: seq<RequiredOutput>) returns (r: Result<seq<Payout>, EscrowError>)
    ensures r == ToPayouts(chain, outs)
    ensures r.Ok? <==> forall o :: o in outs ==> chain.parse(o.address).Some? && 0 <= o.amountSompi <= 0xFFFF_FFFF_FFFF_FFFF
  {
    PayoutsReadExactly(chain, outs);
    var payouts: seq<Payout> := [];
    for i := 0 to |outs|
      invariant ToPayouts(chain, outs[..i]) == Ok(payouts)
    {
      assert outs[..i + 1][..i] == outs[..i];
      var destination := chain.parse(outs[i].address);
      if destination.None? {
        BadOutputStops(chain, outs, i + 1);
        return Err(BadAddress);
      }
      if outs[i].amountSompi < 0 || outs[i].amountSompi >= TWO_64 {
        BadOutputStops(chain, outs, i + 1);
        return Err(BadAmount);
      }
      payouts := payouts + [Payout(destination.value, outs[i].amountSompi)];
    }
    assert outs[..|outs|] == outs;
    r := Ok(payouts);
  }

  class Intents {
    var row: IntentRow

    constructor (minted: IntentRow)
      ensures row == minted
    {
      row := minted;
    }

    // Reading the parties and payouts off the stored outputs.
    method ReadParties(chain: Chain) returns (r: Result<(seq<Payout>, Destination), EscrowError>)
      ensures r == Parties(chain, row)
    {
      var outs := ParseRequiredOutputs(row.requiredOutputs);
      var address := MerchantOutput(outs);
      if address.None? {
        return Err(NoMerchant);
      }
      var merchant := chain.parse(address.value);
      if merchant.None? {
        return Err(BadAddress);
      }
      var payouts := CollectPayouts(chain, outs);
      if payouts.Err? {
        return Err(payouts.error);
      }
      r := Ok((payouts.value, merchant.value));
    }

    method DeriveParams(chain: Chain, cfg: PanelConfig, refundAddress: string) returns (r: Result<EscrowParams, EscrowError>)
      requires InI64(row.gross) && InI64(row.expiryTs) && row.gross.Some? && row.expiryTs.Some?
      ensures r == FinalizeParams(chain, cfg, row, refundAddress)
    {
      var refund := chain.parse(refundAddress);
      if refund.None? {
        return Err(BadAddress);
      }
      var panel := ConfiguredPanel(cfg);
      if panel.Err? {
        return Err(panel.error);
      }
      var parties := ReadParties(chain);
      if parties.Err? {
        return Err(parties.error);
      }
      r := Ok(EscrowParams(parties.value.0, refund.value, parties.value.1, panel.value.0, panel.value.1,
                           AsU64(row.gross.value), SaturatingMul(AsU64(row.expiryTs.value), 1000)));
    }

    // Finalize writes the row exactly when it derives a covenant, and never twice.
    method FinalizeCovenant(chain: Chain, cfg: PanelConfig, invoiceOpen: bool, now: nat, refundAddress: string)
      returns (r: Finalized)
      requires InI64(row.gross) && InI64(row.expiryTs)
      modifies this`row
      ensures r == Finalize(chain, cfg, invoiceOpen, now, old(row), refundAddress)
      ensures row == if r.Stored? then r.row else old(row)
    {
      if row.gross.None? || row.expiryTs.None? {
        return Refused(Missing);
      }
      if !row.pending && row.covenantAddress.Some? {
        return Existing(row.covenantAddress.value, if row.refundAddress.Some? then row.refundAddress.value else "");
      }
      if !invoiceOpen {
        return Refused(InvoiceNotOpen);
      }
      if row.paymentDeadline.Some? && row.paymentDeadline.value <= now {
        return Refused(PaymentExpired);
      }
      var prefix := chain.prefixOf(row.network);
      if prefix.None? {
        return Refused(UnknownNetwork);
      }
      var params := DeriveParams(chain, cfg, refundAddress);
      if params.Err? {
        return Refused(params.error);
      }
      var address := CompiledAddress(chain, params.value, prefix.value);
      if address.Err? {
        return Refused(address.error);
      }
      row := row.(pending := false, covenantAddress := Some(address.value), refundAddress := Some(refundAddress),
                  panelJson := Some(EncodePanel(params.value.arbiterPanel)),
                  panelThreshold := Some(AsI32(params.value.arbiterThreshold)));
      r := Stored(row, params.value);
    }
  }

  // ---- an accepted plan always makes a covenant ----

  predicate AllParse(chain: Chain, outs: seq<RequiredOutput>) {
    forall i :: 0 <= i < |outs| ==> chain.parse(outs[i].address).Some?
  }

  lemma {:induction false} PayoutsCarryAmounts(chain: Chain, outs: seq<RequiredOutput>)
    requires AllParse(chain, outs)
    requires forall i :: 0 <= i < |outs| ==> 0 <= outs[i].amountSompi <= MAX_I64
    ensures ToPayouts(chain, outs).Ok?
    ensures Values(ToPayouts(chain, outs).value) == Amounts(outs)
  {
    if outs != [] {
      var front := outs[..|outs| - 1];
      PayoutsCarryAmounts(chain, front);
      assert Amounts(outs) == Amounts(front) + [outs[|outs| - 1].amountSompi];
      assert Values(ToPayouts(chain, outs).value)
          == Values(ToPayouts(chain, front).value) + [outs[|outs| - 1].amountSompi];
    }
  }

  lemma {:induction false} PartOfSum(values: seq<int>, i: nat)
    requires i < |values| && forall j :: 0 <= j < |values| ==> values[j] >= 0
    ensures 0 <= values[i] <= Sum(values)
  {
    if i == 0 {
      SumNotNegative(values[1..]);
    } else {
      PartOfSum(values[1..], i - 1);
    }
  }

  lemma {:induction false} SumNotNegative(values: seq<int>)
    requires forall j :: 0 <= j < |values| ==> values[j] >= 0
    ensures Sum(values) >= 0
  {
    if values != [] {
      SumNotNegative(values[1..]);
    }
  }

  // The contract takes exactly one to eight payouts that sum to the gross, customer and
  // merchant keys, a threshold the panel can reach, and a gross and a capture time that
  // fit 63 bits; each payout then does too.
  lemma CompilesExactly(p: EscrowParams)
    ensures ConstructorArgs(p).Ok? <==>
      && 1 <= |p.payouts| <= 8 && Sum(Values(p.payouts)) == p.grossAmount <= MAX_I64
      && p.customerRefund.kind == P2PK && p.merchant.kind == P2PK
      && 1 <= p.arbiterThreshold <= |p.arbiterPanel| && p.captureTime <= MAX_I64
  {
    var values := Values(p.payouts);
    forall i | 0 <= i < |p.payouts| ensures p.payouts[i].value <= Sum(values) {
      PartOfSum(values, i);
    }
  }

  // The stored outputs of an accepted plan never trip the contract's checks on
  // payouts: of all its errors only those about the parties' address kinds, the
  // panel and the capture time remain possible.
  lemma AcceptedPlanCompiles(chain: Chain, cfg: FeeConfig, num: Numerals, setup: Option<SetupRow>, amount: int, plan: Plan,
                             p: EscrowParams)
    requires ComputeSplitPlan(cfg, num, setup, amount) == Ok(plan) && amount <= MAX_I64
    requires |plan.splits| == |plan.splitAmounts| && AllParse(chain, Payouts(plan))
    requires ToPayouts(chain, Payouts(plan)) == Ok(p.payouts) && p.grossAmount == amount
    ensures ConstructorArgs(p).Ok? <==>
      && p.customerRefund.kind == P2PK && p.merchant.kind == P2PK
      && 1 <= p.arbiterThreshold <= |p.arbiterPanel| && p.captureTime <= MAX_I64
  {
    var outs := Payouts(plan);
    AcceptedPlanConserves(cfg, num, setup, amount, plan);
    AmountsBounded(outs, amount);
    PayoutsCarryAmounts(chain, outs);
    assert |Values(p.payouts)| == |p.payouts| == |outs|;
    CompilesExactly(p);
  }

  lemma AmountsBounded(outs: seq<RequiredOutput>, amount: int)
    requires Sum(Amounts(outs)) == amount <= MAX_I64
    requires forall i :: 0 <= i < |outs| ==> outs[i].amountSompi >= 0
    ensures forall i :: 0 <= i < |outs| ==> 0 <= outs[i].amountSompi <= MAX_I64
  {
    forall i | 0 <= i < |outs| ensures 0 <= outs[i].amountSompi <= MAX_I64 {
      PartOfSum(Amounts(outs), i);
    }
  }

  // Stored as JSON and read back at finalize, an accepted plan names its own
  // merchant and pays out every output in order.
  lemma StoredPlanParties(chain: Chain, cfg: FeeConfig, num: Numerals, setup: Option<SetupRow>, amount: int, plan: Plan,
                          row: IntentRow)
    requires ComputeSplitPlan(cfg, num, setup, amount) == Ok(plan) && amount <= MAX_I64
    requires |plan.splits| == |plan.splitAmounts| && AllParse(chain, Payouts(plan))
    requires ParseRequiredOutputs(row.requiredOutputs) == Payouts(plan)
    ensures var parties := Parties(chain, row);
      && parties.Ok? && parties.value.1 == chain.parse(plan.merchantAddress).value
      && ToPayouts(chain, Payouts(plan)) == Ok(parties.value.0)
      && Values(parties.value.0) == Amounts(Payouts(plan))
  {
    var outs := Payouts(plan);
    AcceptedPlanConserves(cfg, num, setup, amount, plan);
    AmountsBounded(outs, amount);
    PayoutsCarryAmounts(chain, outs);
    assert chain.parse(outs[0].address).Some?;
  }

  // ---- the spends ----

  datatype Lock = PayTo(destination: Destination) | ToCovenant

  datatype TxOut = TxOut(value: nat, lock: Lock)

  function OutValues(outs: seq<TxOut>): seq<int> {
    seq(|outs|, i requires 0 <= i < |outs| => outs[i].value)
  }

  // The fee payer's change follows the outputs when anything is left over.
  function WithChange(outs: seq<TxOut>, feeValue: nat, minerFee: nat, feePayer: Destination): seq<TxOut> {
    if feeValue > minerFee then outs + [TxOut(feeValue - minerFee, PayTo(feePayer))] else outs
  }

  function PayoutOutputs(payouts: seq<Payout>): seq<TxOut> {
    seq(|payouts|, i requires 0 <= i < |payouts| => TxOut(payouts[i].value, PayTo(payouts[i].destination)))
  }

  function MerchantSplitOutputs(p: EscrowParams, feeValue: nat, minerFee: nat, feePayer: Destination): seq<TxOut> {
    WithChange(PayoutOutputs(p.payouts), feeValue, minerFee, feePayer)
  }

  function CustomerRefundOutputs(p: EscrowParams, feeValue: nat, minerFee: nat, feePayer: Destination): seq<TxOut> {
    WithChange([TxOut(p.grossAmount, PayTo(p.customerRefund))], feeValue, minerFee, feePayer)
  }

  function SettlementOutputs(split: seq<Payout>, feeValue: nat, minerFee: nat, feePayer: Destination): seq<TxOut> {
    WithChange(PayoutOutputs(split), feeValue, minerFee, feePayer)
  }

  // The contract's demands on a spend that pays the merchant split.
  predicate ScriptAcceptsSplit(args: ContractArgs, inputValue: nat, outs: seq<TxOut>) {
    && inputValue == args.gross
    && |args.payloads| == |args.kinds| == |args.values| <= |outs|
    && forall i :: 0 <= i < |args.values| ==>
         outs[i] == TxOut(args.values[i], PayTo(Destination(args.kinds[i], args.payloads[i])))
  }

  // The contract's demands on a spend that refunds the customer.
  predicate ScriptAcceptsRefund(args: ContractArgs, inputValue: nat, outs: seq<TxOut>) {
    && inputValue == args.gross
    && |outs| > 0 && outs[0] == TxOut(args.gross, PayTo(Destination(P2PK, args.customer)))
  }

  // The spends built for a covenant satisfy the script that covenant compiled to,
  // and only for a covenant output of exactly the gross.
  lemma SpendsSatisfyScript(p: EscrowParams, inputValue: nat, feeValue: nat, minerFee: nat, feePayer: Destination)
    requires ConstructorArgs(p).Ok?
    ensures ScriptAcceptsSplit(ConstructorArgs(p).value, inputValue, MerchantSplitOutputs(p, feeValue, minerFee, feePayer))
      <==> inputValue == p.grossAmount
    ensures ScriptAcceptsRefund(ConstructorArgs(p).value, inputValue, CustomerRefundOutputs(p, feeValue, minerFee, feePayer))
      <==> inputValue == p.grossAmount
  {
  }

  function Min(a: nat, b: nat): nat {
    if a < b then a else b
  }

  lemma ChangeBalances(outs: seq<TxOut>, feeValue: nat, minerFee: nat, feePayer: Destination)
    ensures Sum(OutValues(WithChange(outs, feeValue, minerFee, feePayer))) + Min(feeValue, minerFee)
      == Sum(OutValues(outs)) + feeValue
  {
    if feeValue > minerFee {
      var change := TxOut(feeValue - minerFee, PayTo(feePayer));
      assert OutValues(outs + [change]) == OutValues(outs) + [feeValue - minerFee];
      SumAppend(OutValues(outs), [feeValue - minerFee]);
    }
  }

  // Every spend pays its parties in order, to the sompi, and then at most the fee payer.
  lemma SpendsPayParties(p: EscrowParams, split: seq<Payout>, feeValue: nat, minerFee: nat, feePayer: Destination)
    ensures var change := if feeValue > minerFee then [TxOut(feeValue - minerFee, PayTo(feePayer))] else [];
      var release, settled := MerchantSplitOutputs(p, feeValue, minerFee, feePayer), SettlementOutputs(split, feeValue, minerFee, feePayer);
      && |release| == |p.payouts| + |change| && release[|p.payouts|..] == change
      && (forall i :: 0 <= i < |p.payouts| ==> release[i] == TxOut(p.payouts[i].value, PayTo(p.payouts[i].destination)))
      && CustomerRefundOutputs(p, feeValue, minerFee, feePayer) == [TxOut(p.grossAmount, PayTo(p.customerRefund))] + change
      && |settled| == |split| + |change| && settled[|split|..] == change
      && (forall i :: 0 <= i < |split| ==> settled[i] == TxOut(split[i].value, PayTo(split[i].destination)))
  {
  }

  // Every spend balances: what goes in comes out, less a miner fee that the
  // covenant value never pays.
  lemma SpendsBalance(p: EscrowParams, split: seq<Payout>, feeValue: nat, minerFee: nat, feePayer: Destination)
    requires ConstructorArgs(p).Ok? && Sum(Values(split)) == p.grossAmount
    ensures Sum(OutValues(MerchantSplitOutputs(p, feeValue, minerFee, feePayer))) + Min(feeValue, minerFee) == p.grossAmount + feeValue
    ensures Sum(OutValues(CustomerRefundOutputs(p, feeValue, minerFee, feePayer))) + Min(feeValue, minerFee) == p.grossAmount + feeValue
    ensures Sum(OutValues(SettlementOutputs(split, feeValue, minerFee, feePayer))) + Min(feeValue, minerFee) == p.grossAmount + feeValue
  {
    ChangeBalances(PayoutOutputs(p.payouts), feeValue, minerFee, feePayer);
    ChangeBalances(PayoutOutputs(split), feeValue, minerFee, feePayer);
    ChangeBalances([TxOut(p.grossAmount, PayTo(p.customerRefund))], feeValue, minerFee, feePayer);
    assert OutValues(PayoutOutputs(p.payouts)) == Values(p.payouts);
    assert OutValues(PayoutOutputs(split)) == Values(split);
  }

  // An agreed split is accepted exactly when it is not empty, every address
  // parses, and the amounts add up to the gross.
  method ParseSplit(chain: Chain, split: seq<(string, nat)>, gross: nat) returns (r: Result<seq<Payout>, EscrowError>)
    requires gross < TWO_64
    ensures r.Ok? <==>
      && split != [] && (forall i :: 0 <= i < |split| ==> chain.parse(split[i].0).Some?)
      && Sum(seq(|split|, i requires 0 <= i < |split| => split[i].1)) == gross
    ensures r.Ok? ==> Sum(Values(r.value)) == gross && |r.value| == |split|
    ensures r.Ok? ==> forall i :: 0 <= i < |split| ==> r.value[i] == Payout(chain.parse(split[i].0).value, split[i].1)
  {
    if split == [] {
      return Err(Missing);
    }
    ghost var amounts := seq(|split|, i requires 0 <= i < |split| => split[i].1 as int);
    var dests: seq<Payout> := [];
    var total: nat := 0;
    for i := 0 to |split|
      invariant |dests| == i
      invariant forall k :: 0 <= k < i ==> chain.parse(split[k].0).Some? && dests[k] == Payout(chain.parse(split[k].0).value, split[k].1)
      invariant total == Sum(amounts[..i]) && total < TWO_64
    {
      var dest := chain.parse(split[i].0);
      if dest.None? {
        return Err(BadAddress);
      }
      assert amounts[..i + 1] == amounts[..i] + [amounts[i]];
      SumAppend(amounts[..i], [amounts[i]]);
      total := total + split[i].1;
      if total >= TWO_64 {
        SumPrefix(amounts, i + 1);
        return Err(AmountOverflow);
      }
      dests := dests + [Payout(dest.value, split[i].1)];
    }
    assert amounts[..|split|] == amounts;
    if total != gross {
      return Err(PayoutSumMismatch);
    }
    assert Values(dests) == amounts;
    r := Ok(dests);
  }

  lemma SumPrefix(values: seq<int>, n: nat)
    requires n <= |values| && forall j :: 0 <= j < |values| ==> values[j] >= 0
    ensures Sum(values[..n]) <= Sum(values)
  {
    assert values == values[..n] + values[n..];
    SumAppend(values[..n], values[n..]);
    SumNotNegative(values[n..]);
  }
}
