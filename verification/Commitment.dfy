// The commitment to a merchant's rate configuration: what the store publishes
// and what the minter binds into every signed intent. Both hash the canonical
// input below, so equal inputs mean equal commitments.
module Commitment {
  import opened Wrappers
  import opened Sorting
  import opened Text
  import opened Setup
  import opened SplitPlan

  datatype SplitRate = SplitRate(identifier: string, address: string, bps: int)

  datatype ConfigInput = ConfigInput(merchant: string, taxEnabled: bool, taxBps: int, taxAddress: Option<string>,
                                     splits: seq<SplitRate>, feeBps: int, feeFlat: int, feeAddress: string)

  // The order of strings: character by character, a prefix before its extensions.
  predicate TextLe(a: string, b: string)
    decreases |a|
  {
    a == [] || (b != [] && (a[0] < b[0] || (a[0] == b[0] && TextLe(a[1..], b[1..]))))
  }

  // Up to some place they agree, and there the one ends or has the smaller character.
  predicate Precedes(a: string, b: string, k: nat) {
    k <= |a| && k <= |b| && a[..k] == b[..k] && (k == |a| || (k < |b| && a[k] < b[k]))
  }

  lemma SameStart(a: string, b: string, k: nat)
    requires Precedes(a, b, k) && k > 0
    ensures a != [] && b != [] && a[0] == b[0]
  {
    assert a[..k][0] == b[..k][0];
  }

  lemma {:induction false} TextLeExactly(a: string, b: string)
    ensures TextLe(a, b) <==> exists k: nat :: Precedes(a, b, k)
    decreases |a|
  {
    if a == [] {
      assert Precedes(a, b, 0);
    } else if b != [] && a[0] == b[0] {
      TextLeExactly(a[1..], b[1..]);
      if TextLe(a[1..], b[1..]) {
        var k: nat :| Precedes(a[1..], b[1..], k);
        assert a[..k + 1] == [a[0]] + a[1..][..k] && b[..k + 1] == [b[0]] + b[1..][..k];
        assert Precedes(a, b, k + 1);
      }
      forall k: nat | Precedes(a, b, k) ensures TextLe(a[1..], b[1..]) {
        assert k > 0;
        assert a[1..][..k - 1] == a[..k][1..] && b[1..][..k - 1] == b[..k][1..];
        assert Precedes(a[1..], b[1..], k - 1);
      }
    } else {
      if b != [] && a[0] < b[0] {
        assert Precedes(a, b, 0);
      }
      forall k: nat | Precedes(a, b, k) ensures k == 0 {
        if k > 0 {
          SameStart(a, b, k);
        }
      }
    }
  }

  lemma {:induction false} TextLeTotal(a: string, b: string)
    ensures TextLe(a, b) || TextLe(b, a)
    ensures TextLe(a, b) && TextLe(b, a) ==> a == b
    decreases |a|
  {
    if a != [] && b != [] {
      TextLeTotal(a[1..], b[1..]);
      assert a == [a[0]] + a[1..] && b == [b[0]] + b[1..];
    }
  }

  lemma {:induction false} TextLeTransitive(a: string, b: string, c: string)
    requires TextLe(a, b) && TextLe(b, c)
    ensures TextLe(a, c)
    decreases |a|
  {
    if a != [] && a[0] == b[0] == c[0] {
      TextLeTransitive(a[1..], b[1..], c[1..]);
    }
  }

  const byIdentifier: (SplitRate, SplitRate) -> bool :=
    (a: SplitRate, b: SplitRate) => TextLe(a.identifier, b.identifier)

  lemma ByIdentifierIsTotal()
    ensures TotalPreorder(byIdentifier)
  {
    forall a: SplitRate, b: SplitRate ensures byIdentifier(a, b) || byIdentifier(b, a) {
      TextLeTotal(a.identifier, b.identifier);
    }
    forall a: SplitRate, b: SplitRate, c: SplitRate | byIdentifier(a, b) && byIdentifier(b, c) ensures byIdentifier(a, c) {
      TextLeTransitive(a.identifier, b.identifier, c.identifier);
    }
  }

  // The canonical input; the splits may come in any order.
  function CommitmentInput(merchant: string, taxEnabled: bool, taxBps: int, taxAddress: Option<string>,
                           splits: seq<SplitRate>, cfg: FeeConfig): ConfigInput {
    ConfigInput(merchant, taxEnabled, taxBps, taxAddress, Sort(byIdentifier, splits), cfg.feeBps, cfg.feeFlat, cfg.feeAddress)
  }

  predicate DistinctNames(splits: seq<SplitRate>) {
    forall i, j :: 0 <= i < j < |splits| ==> splits[i].identifier != splits[j].identifier
  }

  // Splits with distinct identifiers commit to the same configuration in any order.
  lemma CommitmentIgnoresOrder(merchant: string, taxEnabled: bool, taxBps: int, taxAddress: Option<string>,
                               splits: seq<SplitRate>, reordered: seq<SplitRate>, cfg: FeeConfig)
    requires DistinctNames(splits) && multiset(splits) == multiset(reordered)
    ensures CommitmentInput(merchant, taxEnabled, taxBps, taxAddress, splits, cfg)
      == CommitmentInput(merchant, taxEnabled, taxBps, taxAddress, reordered, cfg)
  {
    ByIdentifierIsTotal();
    assert TieFree(byIdentifier, splits) by {
      forall x, y | x in splits && y in splits && byIdentifier(x, y) && byIdentifier(y, x) ensures x == y {
        TextLeTotal(x.identifier, y.identifier);
      }
    }
    SortIgnoresInputOrder(byIdentifier, splits, reordered);
  }

  // ---- the minter's side ----

  function Rates(splits: seq<SplitOut>): seq<SplitRate> {
    seq(|splits|, i requires 0 <= i < |splits| => SplitRate(splits[i].identifier, splits[i].address, splits[i].bps))
  }

  function MintedInput(cfg: FeeConfig, plan: Plan): ConfigInput {
    CommitmentInput(plan.merchantAddress, plan.tax.enabled, plan.tax.bps, plan.tax.address, Rates(plan.splits), cfg)
  }

  // The terms a plan commits to, splits in no particular order.
  predicate SameTerms(cfg: FeeConfig, plan: Plan, cfg': FeeConfig, plan': Plan) {
    && plan.merchantAddress == plan'.merchantAddress
    && plan.tax == plan'.tax
    && multiset(Rates(plan.splits)) == multiset(Rates(plan'.splits))
    && cfg.feeBps == cfg'.feeBps && cfg.feeFlat == cfg'.feeFlat && cfg.feeAddress == cfg'.feeAddress
  }

  // Two plans commit to the same input exactly when their terms are the same:
  // nothing a payer could be charged differently escapes the commitment.
  lemma CommitmentBindsTerms(cfg: FeeConfig, plan: Plan, cfg': FeeConfig, plan': Plan)
    requires DistinctIdentifiers(plan.splits)
    ensures MintedInput(cfg, plan) == MintedInput(cfg', plan') <==> SameTerms(cfg, plan, cfg', plan')
  {
    var rates, rates' := Rates(plan.splits), Rates(plan'.splits);
    assert multiset(Sort(byIdentifier, rates)) == multiset(rates);
    assert multiset(Sort(byIdentifier, rates')) == multiset(rates');
    if multiset(rates) == multiset(rates') {
      assert DistinctNames(rates);
      CommitmentIgnoresOrder(plan.merchantAddress, plan.tax.enabled, plan.tax.bps, plan.tax.address, rates, rates', cfg);
    }
  }

  // ---- the publisher's side ----

  // A row is read as it stands; unlike the minter, nothing is trimmed.
  function PublishedRate(num: Numerals, item: Json): Option<SplitRate> {
    match (AsStr(Get(item, "identifier")), AsStr(Get(item, "address")), Get(item, "percentage"))
    case (Some(identifier), Some(address), Some(_)) =>
      (match PercentageToBps(num, Some(PercentageText(num, item)))
       case Ok(bps) => Some(SplitRate(identifier, address, bps))
       case Err(_) => None)
    case _ => None
  }

  function PublishedRates(num: Numerals, rows: seq<Json>): Option<seq<SplitRate>> {
    if rows == [] then Some([])
    else match PublishedRates(num, rows[..|rows| - 1])
      case None => None
      case Some(front) =>
        match PublishedRate(num, rows[|rows| - 1])
        case None => None
        case Some(s) => Some(front + [s])
  }

  // The rows of the split column; a column that is no array stops publication.
  function PublishedRows(setup: SetupRow): Option<seq<Json>> {
    match setup.splitAddresses
    case None => Some([])
    case Some(Parsed(Arr(rows))) => Some(rows)
    case _ => None
  }

  function PublishedInput(cfg: FeeConfig, num: Numerals, setup: SetupRow): Option<ConfigInput> {
    var merchant := NonBlank(setup.mainAddress);
    if merchant.None? || !IsKaspaAddress(merchant.value) then None
    else
      var taxBps := if setup.taxEnabled then PercentageToBps(num, setup.taxPercentage) else Result.Ok(0);
      if taxBps.Err? then None
      else
        var taxAddress := if setup.taxEnabled then NonBlank(setup.taxAddress) else None;
        var rows := if setup.splitEnabled then PublishedRows(setup) else Some([]);
        if rows.None? then None
        else match PublishedRates(num, rows.value)
          case None => None
          case Some(splits) =>
            Some(CommitmentInput(merchant.value, setup.taxEnabled, taxBps.value, taxAddress, splits, cfg))
  }

  lemma {:induction false} RatesPublishedExactly(num: Numerals, rows: seq<Json>)
    ensures PublishedRates(num, rows).Some? <==> forall row :: row in rows ==> PublishedRate(num, row).Some?
  {
    if rows != [] {
      var n := |rows| - 1;
      RatesPublishedExactly(num, rows[..n]);
      LastRatePublished(num, rows);
      assert rows == rows[..n] + [rows[n]];
      assert forall row :: row in rows <==> row in rows[..n] || row == rows[n];
    }
  }

  lemma LastRatePublished(num: Numerals, rows: seq<Json>)
    requires rows != []
    ensures PublishedRates(num, rows).Some? <==>
      PublishedRates(num, rows[..|rows| - 1]).Some? && PublishedRate(num, rows[|rows| - 1]).Some?
  {
  }

  // A store publishes its configuration exactly when its address is a Kaspa address, a
  // tax that is on has a readable rate, and the rows of splits that are on each have an
  // identifier, an address and a readable rate; no column at all is no rows.
  lemma PublishedExactly(cfg: FeeConfig, num: Numerals, setup: SetupRow)
    ensures PublishedInput(cfg, num, setup).Some? <==>
      && setup.mainAddress.Some? && IsKaspaAddress(Trim(setup.mainAddress.value))
      && (setup.taxEnabled ==> PercentageToBps(num, setup.taxPercentage).Ok?)
      && (setup.splitEnabled ==>
            && (setup.splitAddresses.None? || (setup.splitAddresses.value.Parsed? && setup.splitAddresses.value.value.Arr?))
            && forall row :: row in SplitRows(setup) ==> PublishedRate(num, row).Some?)
  {
    MerchantAddressExactly(setup);
    RatesPublishedExactly(num, if setup.splitEnabled then SplitRows(setup) else []);
  }

  lemma {:induction false} BadRowStopsPublication(num: Numerals, rows: seq<Json>, n: nat)
    requires n <= |rows| && PublishedRates(num, rows[..n]).None?
    ensures PublishedRates(num, rows).None?
    decreases |rows|
  {
    if n < |rows| {
      assert rows[..|rows| - 1][..n] == rows[..n];
      BadRowStopsPublication(num, rows[..|rows| - 1], n);
    } else {
      assert rows[..n] == rows;
    }
  }

  // The publisher's loop over the split rows.
  method CollectRates(num: Numerals, rows: seq<Json>) returns (splits: Option<seq<SplitRate>>)
    ensures splits == PublishedRates(num, rows)
  {
    var out := [];
    for i := 0 to |rows|
      invariant PublishedRates(num, rows[..i]) == Some(out)
    {
      assert rows[..i + 1][..i] == rows[..i];
      var s := PublishedRate(num, rows[i]);
      if s.None? {
        BadRowStopsPublication(num, rows, i + 1);
        return None;
      }
      out := out + [s.value];
    }
    assert rows[..|rows|] == rows;
    splits := Some(out);
  }

  // ---- when the two agree ----

  predicate TidyRow(item: Json) {
    match (AsStr(Get(item, "identifier")), AsStr(Get(item, "address")))
    case (Some(identifier), Some(address)) => Trimmed(identifier) && Trimmed(address)
    case _ => false
  }

  // Every stored split row carries a trimmed identifier and a trimmed address.
  predicate TidySplits(setup: SetupRow) {
    setup.splitEnabled ==> forall i :: 0 <= i < |SplitRows(setup)| ==> TidyRow(SplitRows(setup)[i])
  }

  // How the publisher's and the minter's readings of one row relate.
  predicate Readings(item: Json, p: SplitRate, m: SplitRate) {
    && Trimmed(m.identifier) && Trimmed(m.address)
    && (TidyRow(item) <==> Trimmed(p.identifier) && Trimmed(p.address))
    && (TidyRow(item) ==> p == m)
  }

  lemma RowReadings(num: Numerals, item: Json)
    requires PublishedRate(num, item).Some? && ResolveSplitRow(num, item).Ok?
    ensures var m := ResolveSplitRow(num, item).value;
      Readings(item, PublishedRate(num, item).value, SplitRate(m.identifier, m.address, m.bps))
  {
    TrimTrims(StrOr(item, "identifier", ""));
    TrimTrims(StrOr(item, "address", ""));
  }

  lemma LastRowRates(num: Numerals, rows: seq<Json>)
    requires rows != [] && PublishedRates(num, rows).Some? && ResolveSplitRows(num, rows).Ok?
    ensures var n := |rows| - 1; var last := rows[n];
      && PublishedRates(num, rows[..n]).Some? && ResolveSplitRows(num, rows[..n]).Ok?
      && PublishedRate(num, last).Some? && ResolveSplitRow(num, last).Ok?
      && PublishedRates(num, rows).value == PublishedRates(num, rows[..n]).value + [PublishedRate(num, last).value]
      && var m := ResolveSplitRow(num, last).value;
      && Rates(ResolveSplitRows(num, rows).value)
         == Rates(ResolveSplitRows(num, rows[..n]).value) + [SplitRate(m.identifier, m.address, m.bps)]
  {
    LastRowResolves(num, rows);
  }

  lemma AllRowReadings(num: Numerals, rows: seq<Json>)
    requires PublishedRates(num, rows).Some? && ResolveSplitRows(num, rows).Ok?
    ensures var ps, ms := PublishedRates(num, rows).value, Rates(ResolveSplitRows(num, rows).value);
      && |ps| == |ms| == |rows|
      && forall i :: 0 <= i < |rows| ==> Readings(rows[i], ps[i], ms[i])
  {
    RatesLength(num, rows);
    var ps, ms := PublishedRates(num, rows).value, Rates(ResolveSplitRows(num, rows).value);
    forall i | 0 <= i < |rows| ensures Readings(rows[i], ps[i], ms[i]) {
      RowReadingsAt(num, rows, i);
    }
  }

  lemma {:induction false} RatesLength(num: Numerals, rows: seq<Json>)
    requires PublishedRates(num, rows).Some?
    ensures |PublishedRates(num, rows).value| == |rows|
  {
    if rows != [] {
      RatesLength(num, rows[..|rows| - 1]);
    }
  }

  lemma {:induction false} RowReadingsAt(num: Numerals, rows: seq<Json>, i: nat)
    requires PublishedRates(num, rows).Some? && ResolveSplitRows(num, rows).Ok? && i < |rows|
    requires |PublishedRates(num, rows).value| == |rows|
    ensures Readings(rows[i], PublishedRates(num, rows).value[i], Rates(ResolveSplitRows(num, rows).value)[i])
  {
    var n := |rows| - 1;
    LastRowRates(num, rows);
    if i < n {
      RowReadingsAt(num, rows[..n], i);
      assert rows[..n][i] == rows[i];
      assert PublishedRates(num, rows).value[i] == PublishedRates(num, rows[..n]).value[i];
      assert Rates(ResolveSplitRows(num, rows).value)[i] == Rates(ResolveSplitRows(num, rows[..n]).value)[i];
    } else {
      RowReadings(num, rows[n]);
      assert PublishedRates(num, rows).value[i] == PublishedRate(num, rows[n]).value;
    }
  }

  // Two readings of the same rows have the same members exactly when the rows are tidy.
  lemma ReadingsAgreeIffTidy(rows: seq<Json>, ps: seq<SplitRate>, ms: seq<SplitRate>)
    requires |ps| == |ms| == |rows| && forall i :: 0 <= i < |rows| ==> Readings(rows[i], ps[i], ms[i])
    ensures (Sort(byIdentifier, ps) == Sort(byIdentifier, ms)) <==> (forall i :: 0 <= i < |rows| ==> TidyRow(rows[i]))
  {
    if Sort(byIdentifier, ps) == Sort(byIdentifier, ms) {
      SameMembers(ps, ms);
      forall i | 0 <= i < |rows| ensures TidyRow(rows[i]) {
        assert ps[i] in ms;
        var j :| 0 <= j < |ms| && ms[j] == ps[i];
        assert Readings(rows[j], ps[j], ms[j]);
      }
    } else {
      assert ps != ms;
      var i :| 0 <= i < |rows| && ps[i] != ms[i];
    }
  }

  lemma PlanSources(cfg: FeeConfig, num: Numerals, setup: SetupRow, amount: int, plan: Plan)
    requires ComputeSplitPlan(cfg, num, Some(setup), amount) == Ok(plan)
    ensures MerchantAddress(setup) == Ok(plan.merchantAddress)
    ensures ResolveTaxConfig(num, setup) == Ok(plan.tax)
    ensures ResolveSplitConfig(num, setup).Ok? && ResolveSplitConfig(num, setup).value.1 == plan.splits
  {
    assert MerchantAddress(setup).Ok? && ResolveTaxConfig(num, setup).Ok? && ResolveSplitConfig(num, setup).Ok?;
    var merchant, tax := MerchantAddress(setup).value, ResolveTaxConfig(num, setup).value;
    var (totalBps, splits) := ResolveSplitConfig(num, setup).value;
    assert AmountChecks(cfg, amount, merchant, tax, totalBps, splits) == Ok(plan);
    CheckedAmounts(cfg, amount, merchant, tax, totalBps, splits, plan);
  }

  lemma TaxReadings(num: Numerals, setup: SetupRow)
    requires ResolveTaxConfig(num, setup).Ok?
    ensures var tax := ResolveTaxConfig(num, setup).value;
      && tax.enabled == setup.taxEnabled
      && tax.address == (if setup.taxEnabled then NonBlank(setup.taxAddress) else None)
      && (setup.taxEnabled ==> PercentageToBps(num, setup.taxPercentage) == Ok(tax.bps))
      && (!setup.taxEnabled ==> tax.bps == 0)
  {
  }

  lemma PublishedParts(cfg: FeeConfig, num: Numerals, setup: SetupRow, merchant: string, tax: TaxConfig, rows: seq<Json>)
    requires PublishedInput(cfg, num, setup).Some?
    requires MerchantAddress(setup) == Ok(merchant) && ResolveTaxConfig(num, setup) == Ok(tax)
    requires rows == if setup.splitEnabled then SplitRows(setup) else []
    ensures PublishedRates(num, rows).Some?
    ensures PublishedInput(cfg, num, setup).value
      == CommitmentInput(merchant, tax.enabled, tax.bps, tax.address, PublishedRates(num, rows).value, cfg)
  {
    TaxReadings(num, setup);
  }

  // The rows both sides read: none when splits are off.
  function UsedRows(setup: SetupRow): seq<Json> {
    if setup.splitEnabled then SplitRows(setup) else []
  }

  lemma SplitSidesAgree(num: Numerals, setup: SetupRow, splits: seq<SplitOut>)
    requires ResolveSplitConfig(num, setup).Ok? && ResolveSplitConfig(num, setup).value.1 == splits
    requires PublishedRates(num, UsedRows(setup)).Some?
    ensures Sort(byIdentifier, PublishedRates(num, UsedRows(setup)).value) == Sort(byIdentifier, Rates(splits)) <==> TidySplits(setup)
  {
    if setup.splitEnabled {
      AllRowReadings(num, SplitRows(setup));
      ReadingsAgreeIffTidy(SplitRows(setup), PublishedRates(num, SplitRows(setup)).value, Rates(splits));
    } else {
      assert Rates(splits) == [];
    }
  }

  // Whenever the store publishes a commitment and the minter mints, the two
  // commit to the same configuration exactly when the stored splits are tidy.
  lemma PublishedMatchesMinted(cfg: FeeConfig, num: Numerals, setup: SetupRow, amount: int, plan: Plan)
    requires ComputeSplitPlan(cfg, num, Some(setup), amount) == Ok(plan)
    requires PublishedInput(cfg, num, setup).Some?
    ensures PublishedInput(cfg, num, setup).value == MintedInput(cfg, plan) <==> TidySplits(setup)
  {
    PlanSources(cfg, num, setup, amount, plan);
    PublishedParts(cfg, num, setup, plan.merchantAddress, plan.tax, UsedRows(setup));
    SplitSidesAgree(num, setup, plan.splits);
  }

  // ---- the setup handlers ----

  // What the handlers check about percentages: the canonical text of an
  // acceptable one, whether a list exceeds the whole, whether a tax is allowed.
  datatype PercentRules = PercentRules(canonical: Json -> Option<string>, exceedsWhole: seq<string> -> bool,
                                       taxAllowed: Option<string> -> bool)

  datatype SplitEntry = SplitEntry(address: string, identifier: string, percentage: string)

  function EntryJson(e: SplitEntry): Json {
    Obj(map["address" := Str(e.address), "identifier" := Str(e.identifier), "percentage" := Number(e.percentage)])
  }

  // The entry stored for a submitted row: its address and identifier, trimmed, and its
  // percentage as the rules have it.
  predicate EntryFor(rules: PercentRules, item: Json, e: SplitEntry) {
    && e.address == Trim(StrOr(item, "address", "")) && IsKaspaAddress(e.address)
    && e.identifier == Trim(StrOr(item, "identifier", "")) && e.identifier != ""
    && Get(item, "percentage").Some? && rules.canonical(Get(item, "percentage").value) == Some(e.percentage)
  }

  lemma BlankIsNoAddress()
    ensures !IsKaspaAddress("")
  {
    assert Trim("") == "";
  }

  // A row is accepted exactly when there is such an entry, and stored as it.
  lemma RowAcceptedExactly(rules: PercentRules, item: Json, e: SplitEntry)
    ensures NormalizeRow(rules, item) == Some(e) <==> EntryFor(rules, item, e)
  {
    BlankIsNoAddress();
  }

  function NormalizeRow(rules: PercentRules, item: Json): (r: Option<SplitEntry>)
    ensures r.Some? ==> EntryFor(rules, item, r.value)
  {
    var address := Trim(StrOr(item, "address", ""));
    var identifier := Trim(StrOr(item, "identifier", ""));
    var percentage := match Get(item, "percentage") case Some(p) => rules.canonical(p) case None => None;
    if address == "" || !IsKaspaAddress(address) || identifier == "" || percentage.None? then None
    else Some(SplitEntry(address, identifier, percentage.value))
  }

  lemma StoredEntryIsTidy(rules: PercentRules, item: Json, e: SplitEntry)
    requires EntryFor(rules, item, e)
    ensures TidyRow(EntryJson(e)) && Trimmed(e.address) && Trimmed(e.identifier)
  {
    TrimTrims(StrOr(item, "address", ""));
    TrimTrims(StrOr(item, "identifier", ""));
  }

  // Stored, a tidy entry is read back by publisher and minter alike with its own
  // identifier, address and rate.
  lemma StoredEntryReadsBack(num: Numerals, e: SplitEntry, bps: int)
    requires Trimmed(e.address) && IsKaspaAddress(e.address) && Trimmed(e.identifier) && e.identifier != ""
    requires PercentageToBps(num, Some(num.render(Number(e.percentage)))) == Ok(bps) && bps > 0
    ensures PublishedRate(num, EntryJson(e)) == Some(SplitRate(e.identifier, e.address, bps))
    ensures ResolveSplitRow(num, EntryJson(e))
         == Ok(SplitOut(e.address, e.identifier, num.render(Number(e.percentage)), bps))
  {
    TrimTrims(e.address);
    TrimTrims(e.identifier);
    SplitRowExactly(num, EntryJson(e));
  }

  function Percentages(entries: seq<SplitEntry>): seq<string> {
    seq(|entries|, i requires 0 <= i < |entries| => entries[i].percentage)
  }

  // One stored entry per submitted row, in order, with no identifier or address
  // twice and no more than the whole handed out.
  predicate SplitsAccepted(rules: PercentRules, raw: Option<Json>, entries: seq<SplitEntry>) {
    && raw.Some? && raw.value.Arr? && 1 <= |raw.value.items| <= MAX_SPLIT_ADDRESSES
    && |entries| == |raw.value.items|
    && (forall i :: 0 <= i < |entries| ==> Gives(rules, raw.value.items[i], entries[i]))
    && (forall i, j :: 0 <= i < j < |entries| ==> entries[i].identifier != entries[j].identifier)
    && (forall i, j :: 0 <= i < j < |entries| ==> entries[i].address != entries[j].address)
    && !rules.exceedsWhole(Percentages(entries))
  }

  // Normalizing is row by row, so only one list of entries can be accepted.
  lemma AcceptedAreTheRows(rules: PercentRules, raw: Option<Json>, entries: seq<SplitEntry>, out: seq<SplitEntry>)
    requires SplitsAccepted(rules, raw, entries) && |out| == |raw.value.items|
    requires forall i :: 0 <= i < |out| ==> Gives(rules, raw.value.items[i], out[i])
    ensures entries == out
  {
    forall i | 0 <= i < |out| ensures entries[i] == out[i] {
      assert Gives(rules, raw.value.items[i], out[i]);
    }
  }

  predicate Gives(rules: PercentRules, item: Json, e: SplitEntry) {
    NormalizeRow(rules, item) == Some(e)
  }

  // The loop over the submitted rows, stopping at the first bad one.
  method NormalizeRows(rules: PercentRules, items: seq<Json>) returns (r: Option<seq<SplitEntry>>)
    ensures r.Some? ==> |r.value| == |items| && forall i :: 0 <= i < |items| ==> Gives(rules, items[i], r.value[i])
    ensures r.None? ==> exists i :: 0 <= i < |items| && NormalizeRow(rules, items[i]).None?
  {
    var out: seq<SplitEntry> := [];
    for i := 0 to |items|
      invariant |out| == i
      invariant forall k :: 0 <= k < i ==> Gives(rules, items[k], out[k])
    {
      var entry := NormalizeRow(rules, items[i]);
      if entry.None? {
        assert NormalizeRow(rules, items[i]).None?;
        return None;
      }
      assert Gives(rules, items[i], entry.value);
      out := out + [entry.value];
    }
    r := Some(out);
  }

  // Validates and normalizes the submitted splits.
  method NormalizeSplits(rules: PercentRules, enabled: bool, raw: Option<Json>)
    returns (r: Result<Option<seq<SplitEntry>>, SetupError>)
    ensures !enabled ==> r == Ok(None)
    ensures enabled && r.Ok? ==> r.value.Some? && SplitsAccepted(rules, raw, r.value.value)
    ensures enabled && r.Err? ==> forall entries :: !SplitsAccepted(rules, raw, entries)
  {
    if !enabled {
      return Ok(None);
    }
    var items := match raw case Some(Arr(rows)) => rows case _ => [];
    if items == [] {
      return Err(NoSplits);
    }
    if |items| > MAX_SPLIT_ADDRESSES {
      return Err(TooManySplits);
    }
    var normalized := NormalizeRows(rules, items);
    if normalized.None? {
      return Err(BadSplitAddress);
    }
    var out := normalized.value;
    forall entries | SplitsAccepted(rules, raw, entries) ensures entries == out {
      AcceptedAreTheRows(rules, raw, entries, out);
    }
    if exists i, j :: 0 <= i < j < |out| && out[i].identifier == out[j].identifier {
      return Err(RepeatedIdentifier);
    }
    if exists i, j :: 0 <= i < j < |out| && out[i].address == out[j].address {
      return Err(RepeatedAddress);
    }
    if rules.exceedsWhole(Percentages(out)) {
      return Err(SplitsExceedWhole);
    }
    r := Ok(Some(out));
  }

  function StoredEntries(entries: seq<SplitEntry>): Json {
    Arr(seq(|entries|, i requires 0 <= i < |entries| => EntryJson(entries[i])))
  }

  // The kaspa section of a submitted setup, merged over an existing row when
  // there is one.
  datatype KaspaInput = KaspaInput(mainAddress: string, taxEnabled: bool, taxAddress: Option<string>,
                                   taxPercentage: Option<string>, splitEnabled: bool, splits: Option<Json>)

  // Whether a tax section is complete enough to be stored.
  predicate TaxAccepted(rules: PercentRules, input: KaspaInput) {
    input.taxEnabled ==> NonBlank(input.taxAddress).Some? && IsKaspaAddress(NonBlank(input.taxAddress).value)
                         && rules.taxAllowed(input.taxPercentage)
  }

  // The row an accepted section is stored as.
  ghost predicate RowFor(rules: PercentRules, input: KaspaInput, row: SetupRow) {
    && row.mainAddress == Some(Trim(input.mainAddress)) && Trim(input.mainAddress) != ""
    && TaxAccepted(rules, input) && row.taxEnabled == input.taxEnabled && row.splitEnabled == input.splitEnabled
    && row.taxAddress == (if input.taxEnabled then NonBlank(input.taxAddress) else None)
    && row.taxPercentage == (if input.taxEnabled then input.taxPercentage else None)
    && (!input.splitEnabled ==> row.splitAddresses == None)
    && (input.splitEnabled ==> exists entries ::
          SplitsAccepted(rules, input.splits, entries) && row.splitAddresses == Some(Parsed(StoredEntries(entries))))
  }

  function EmptyRow(): SetupRow {
    SetupRow(None, false, None, None, false, None)
  }

  // `to` with the chosen sections of `from`.
  function WithSections(to: SetupRow, from: SetupRow, payout: bool, tax: bool, split: bool): SetupRow {
    SetupRow(if payout then from.mainAddress else to.mainAddress,
             if tax then from.taxEnabled else to.taxEnabled,
             if tax then from.taxAddress else to.taxAddress,
             if tax then from.taxPercentage else to.taxPercentage,
             if split then from.splitEnabled else to.splitEnabled,
             if split then from.splitAddresses else to.splitAddresses)
  }

  // Each section of the result resolves as it does in the setup it comes from.
  lemma SectionsResolve(num: Numerals, to: SetupRow, from: SetupRow, payout: bool, tax: bool, split: bool)
    ensures var row := WithSections(to, from, payout, tax, split);
      && MerchantAddress(row) == MerchantAddress(if payout then from else to)
      && ResolveTaxConfig(num, row) == ResolveTaxConfig(num, if tax then from else to)
      && ResolveSplitConfig(num, row) == ResolveSplitConfig(num, if split then from else to)
  {
  }

  // The basis points of stored percentages.
  function StoredBps(num: Numerals, entries: seq<SplitEntry>): int {
    if entries == [] then 0
    else
      var first := PercentageToBps(num, Some(num.render(Number(entries[0].percentage))));
      (if first.Ok? then first.value else 0) + StoredBps(num, entries[1..])
  }

  // The handlers' checks on percentages and the minter's reading of them agree: what is
  // let through is a positive rate, and lists within the whole stay within it.
  ghost predicate Agree(rules: PercentRules, num: Numerals) {
    && (forall p: Option<string> :: rules.taxAllowed(p) ==> PercentageToBps(num, p).Ok? && PercentageToBps(num, p).value > 0)
    && (forall j: Json :: rules.canonical(j).Some? ==>
          var rate := PercentageToBps(num, Some(num.render(Number(rules.canonical(j).value)))); rate.Ok? && rate.value > 0)
    && (forall entries: seq<SplitEntry> :: !rules.exceedsWhole(Percentages(entries)) ==> StoredBps(num, entries) <= 10_000)
  }

  // The split a stored entry is minted as.
  function MintedSplit(num: Numerals, e: SplitEntry): SplitOut {
    var text := num.render(Number(e.percentage));
    var rate := PercentageToBps(num, Some(text));
    SplitOut(e.address, e.identifier, text, if rate.Ok? then rate.value else 0)
  }

  function MintedSplits(num: Numerals, entries: seq<SplitEntry>): seq<SplitOut> {
    seq(|entries|, i requires 0 <= i < |entries| => MintedSplit(num, entries[i]))
  }

  predicate Mintable(num: Numerals, e: SplitEntry) {
    && Trimmed(e.address) && IsKaspaAddress(e.address) && Trimmed(e.identifier) && e.identifier != ""
    && PercentageToBps(num, Some(num.render(Number(e.percentage)))).Ok?
    && PercentageToBps(num, Some(num.render(Number(e.percentage)))).value > 0
  }

  lemma StoredEntriesResolve(num: Numerals, entries: seq<SplitEntry>)
    requires forall i :: 0 <= i < |entries| ==> Mintable(num, entries[i])
    ensures ResolveSplitRows(num, StoredEntries(entries).items) == Ok(MintedSplits(num, entries))
  {
    var rows, splits := StoredEntries(entries).items, MintedSplits(num, entries);
    forall i | 0 <= i < |rows| ensures ResolvesTo(num, rows[i], splits[i]) {
      MintableResolves(num, entries[i]);
    }
    RowsResolveTo(num, rows, splits);
  }

  lemma MintableResolves(num: Numerals, e: SplitEntry)
    requires Mintable(num, e)
    ensures ResolvesTo(num, EntryJson(e), MintedSplit(num, e))
  {
    StoredEntryReadsBack(num, e, MintedSplit(num, e).bps);
  }

  lemma {:induction false} MintedTotal(num: Numerals, entries: seq<SplitEntry>)
    ensures TotalBps(MintedSplits(num, entries)) == StoredBps(num, entries)
  {
    if entries != [] {
      MintedTotal(num, entries[1..]);
      assert MintedSplits(num, entries)[1..] == MintedSplits(num, entries[1..]);
    }
  }

  lemma MintedDistinct(num: Numerals, entries: seq<SplitEntry>)
    requires forall i, j :: 0 <= i < j < |entries| ==> entries[i].identifier != entries[j].identifier
    requires forall i, j :: 0 <= i < j < |entries| ==> entries[i].address != entries[j].address
    ensures DistinctIdentifiers(MintedSplits(num, entries)) && DistinctAddresses(MintedSplits(num, entries))
  {
  }

  lemma AcceptedIsMintable(rules: PercentRules, num: Numerals, item: Json, e: SplitEntry)
    requires Agree(rules, num) && EntryFor(rules, item, e)
    ensures Mintable(num, e)
  {
    StoredEntryIsTidy(rules, item, e);
  }

  // Where checks and reading of percentages agree, no setup the handlers store ever trips
  // the minter's checks on tax and splits, and each split is minted as stored.
  lemma StoredSetupResolves(rules: PercentRules, num: Numerals, input: KaspaInput, row: SetupRow)
    requires Agree(rules, num) && RowFor(rules, input, row)
    ensures ResolveTaxConfig(num, row).Ok? && ResolveTaxConfig(num, row).value.enabled == input.taxEnabled
    ensures ResolveSplitConfig(num, row).Ok?
    ensures input.splitEnabled ==> exists entries ::
      && SplitsAccepted(rules, input.splits, entries)
      && ResolveSplitConfig(num, row).value.1 == MintedSplits(num, entries)
  {
    StoredTaxResolves(rules, num, input, row);
    if input.splitEnabled {
      var entries :| SplitsAccepted(rules, input.splits, entries) && row.splitAddresses == Some(Parsed(StoredEntries(entries)));
      StoredSplitsResolve(rules, num, input, row, entries);
    }
  }

  lemma StoredTaxResolves(rules: PercentRules, num: Numerals, input: KaspaInput, row: SetupRow)
    requires Agree(rules, num) && RowFor(rules, input, row)
    ensures ResolveTaxConfig(num, row).Ok? && ResolveTaxConfig(num, row).value.enabled == input.taxEnabled
  {
    if input.taxEnabled {
      TrimTrims(input.taxAddress.value);
      TrimTrims(Trim(input.taxAddress.value));
    }
  }

  lemma StoredSplitsResolve(rules: PercentRules, num: Numerals, input: KaspaInput, row: SetupRow, entries: seq<SplitEntry>)
    requires Agree(rules, num) && row.splitEnabled
    requires SplitsAccepted(rules, input.splits, entries) && row.splitAddresses == Some(Parsed(StoredEntries(entries)))
    ensures ResolveSplitConfig(num, row).Ok? && ResolveSplitConfig(num, row).value.1 == MintedSplits(num, entries)
  {
    forall i | 0 <= i < |entries| ensures Mintable(num, entries[i]) {
      AcceptedIsMintable(rules, num, input.splits.value.items[i], entries[i]);
    }
    StoredEntriesResolve(num, entries);
    MintedTotal(num, entries);
    MintedDistinct(num, entries);
    RowsFit(num, row, entries);
  }

  lemma RowsFit(num: Numerals, row: SetupRow, entries: seq<SplitEntry>)
    requires row.splitEnabled && row.splitAddresses == Some(Parsed(StoredEntries(entries))) && 1 <= |entries| <= 5
    requires ResolveSplitRows(num, StoredEntries(entries).items) == Ok(MintedSplits(num, entries))
    requires DistinctIdentifiers(MintedSplits(num, entries)) && DistinctAddresses(MintedSplits(num, entries))
    requires TotalBps(MintedSplits(num, entries)) <= 10_000
    ensures ResolveSplitConfig(num, row).Ok? && ResolveSplitConfig(num, row).value.1 == MintedSplits(num, entries)
  {
    SplitsExactly(num, row);
  }

  // The setup rows of one merchant, by store.
  class Setups {
    var rows: map<nat, SetupRow>

    constructor ()
      ensures AllTidy()
    {
      rows := map[];
    }

    ghost predicate AllTidy()
      reads this
    {
      forall id :: id in rows ==> TidySplits(rows[id])
    }

    // Creating a setup, or updating its kaspa section.
    method Write(rules: PercentRules, storeId: nat, input: KaspaInput) returns (r: Result<SetupRow, SetupError>)
      requires AllTidy()
      modifies this
      ensures AllTidy()
      ensures r.Ok? ==> RowFor(rules, input, r.value) && rows == old(rows)[storeId := r.value]
      ensures r.Err? ==> rows == old(rows) && forall row :: !RowFor(rules, input, row)
    {
      var main := Trim(input.mainAddress);
      TrimTrims(input.mainAddress);
      if main == "" {
        return Err(NoPayoutAddress);
      }
      var taxAddress := NonBlank(input.taxAddress);
      if input.taxEnabled && (taxAddress.None? || !IsKaspaAddress(taxAddress.value)) {
        return Err(BadTaxAddress);
      }
      if input.taxEnabled && !rules.taxAllowed(input.taxPercentage) {
        return Err(TaxNotPositive);
      }
      var splits := NormalizeSplits(rules, input.splitEnabled, input.splits);
      if splits.Err? {
        return Err(splits.error);
      }
      var row := SetupRow(Some(main), input.taxEnabled,
                          if input.taxEnabled then taxAddress else None,
                          if input.taxEnabled then input.taxPercentage else None,
                          input.splitEnabled,
                          if splits.value.Some? then Some(Parsed(StoredEntries(splits.value.value))) else None);
      if input.splitEnabled {
        forall i | 0 <= i < |splits.value.value| ensures TidyRow(SplitRows(row)[i]) {
          assert Gives(rules, input.splits.value.items[i], splits.value.value[i]);
          StoredEntryIsTidy(rules, input.splits.value.items[i], splits.value.value[i]);
        }
      }
      assert TidySplits(row);
      rows := rows[storeId := row];
      r := Ok(row);
    }

    // Copying chosen sections from one store's setup to another's.
    method CopySections(target: nat, source: nat, payout: bool, tax: bool, split: bool) returns (found: bool)
      requires AllTidy()
      modifies this
      ensures AllTidy()
      ensures found <==> source in old(rows)
      ensures !found ==> rows == old(rows)
      ensures found ==> rows == old(rows)[target :=
        WithSections(if target in old(rows) then old(rows)[target] else EmptyRow(), old(rows)[source], payout, tax, split)]
    {
      if source !in rows {
        return false;
      }
      var from := rows[source];
      var row := if target in rows then rows[target] else EmptyRow();
      if payout {
        row := row.(mainAddress := from.mainAddress);
      }
      if tax {
        row := row.(taxEnabled := from.taxEnabled, taxAddress := from.taxAddress, taxPercentage := from.taxPercentage);
      }
      if split {
        row := row.(splitEnabled := from.splitEnabled, splitAddresses := from.splitAddresses);
      }
      assert TidySplits(row) by {
        if split {
          assert SplitRows(row) == SplitRows(from);
        } else if target in rows {
          assert SplitRows(row) == SplitRows(rows[target]);
        }
      }
      rows := rows[target := row];
      found := true;
    }
  }
}
