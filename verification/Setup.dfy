// The merchant's stored rate configuration and how the minter reads it.
module Setup {
  import opened Wrappers
  import opened Text
  import opened Fees

  const MAX_SPLIT_ADDRESSES := 5

  // Stored JSON values; a number is kept as its text.
  datatype Json = Null | Bool(b: bool) | Number(text: string) | Str(s: string)
                | Arr(items: seq<Json>) | Obj(fields: map<string, Json>)

  // A text column holding JSON.
  datatype StoredJson = Parsed(value: Json) | Unparseable

  // The two numeric text conversions of the platform: a trimmed, non-empty
  // percentage to basis points, and a JSON value to its text.
  datatype Numerals = Numerals(bpsOf: string -> Option<int>, render: Json -> string)

  function Get(j: Json, key: string): Option<Json> {
    if j.Obj? && key in j.fields then Some(j.fields[key]) else None
  }

  function AsStr(j: Option<Json>): Option<string> {
    match j
    case Some(Str(s)) => Some(s)
    case _ => None
  }

  function StrOr(j: Json, key: string, default: string): string {
    match AsStr(Get(j, key))
    case Some(s) => s
    case None => default
  }

  predicate HasPrefix(s: string, prefix: string) {
    |prefix| <= |s| && s[..|prefix|] == prefix
  }

  predicate IsAddressChar(c: char) {
    'a' <= c <= 'z' || 'A' <= c <= 'Z' || '0' <= c <= '9' || c == ':' || c == '_' || c == '-'
  }

  predicate IsKaspaAddress(value: string) {
    var v := Trim(value);
    var skip := if HasPrefix(v, "kaspatest:") then 10 else if HasPrefix(v, "kaspa:") then 6 else 0;
    skip > 0 && |v| >= skip + 12 && forall c :: c in v[skip..] ==> IsAddressChar(c)
  }

  // Either network's prefix and at least twelve characters of the address alphabet.
  lemma KaspaAddressExactly(body: string)
    requires Trimmed("kaspa:" + body) && Trimmed("kaspatest:" + body)
    ensures IsKaspaAddress("kaspa:" + body) <==> |body| >= 12 && forall c :: c in body ==> IsAddressChar(c)
    ensures IsKaspaAddress("kaspatest:" + body) <==> |body| >= 12 && forall c :: c in body ==> IsAddressChar(c)
  {
    var main, test := "kaspa:" + body, "kaspatest:" + body;
    TrimTrims(main);
    TrimTrims(test);
    assert main[..6] == "kaspa:" && main[6..] == body;
    assert test[..10] == "kaspatest:" && test[10..] == body;
    assert main[5] != "kaspatest:"[5] && test[5] != "kaspa:"[5];
  }

  // Anything else is no address.
  lemma NoPrefixNoAddress(value: string)
    requires !HasPrefix(Trim(value), "kaspa:") && !HasPrefix(Trim(value), "kaspatest:")
    ensures !IsKaspaAddress(value)
  {
  }

  datatype SetupRow = SetupRow(mainAddress: Option<string>,
                               taxEnabled: bool, taxAddress: Option<string>, taxPercentage: Option<string>,
                               splitEnabled: bool, splitAddresses: Option<StoredJson>)

  datatype TaxConfig = TaxConfig(enabled: bool, bps: int, address: Option<string>)

  datatype SplitOut = SplitOut(address: string, identifier: string, percentage: string, bps: int)

  datatype SetupError = BadPercentage | BadTaxAddress | TaxNotPositive
                      | NoSplits | TooManySplits | BadSplitAddress | NoSplitIdentifier | SplitNotPositive
                      | RepeatedIdentifier | RepeatedAddress | SplitsExceedWhole
                      | NoPayoutAddress | BadFeeAddress

  // An absent or blank percentage counts as zero.
  function PercentageToBps(num: Numerals, p: Option<string>): Result<int, SetupError> {
    if p.None? || Trim(p.value) == "" then Ok(0)
    else match num.bpsOf(Trim(p.value))
      case Some(bps) => Ok(bps)
      case None => Err(BadPercentage)
  }

  // A trimmed, non-empty column.
  function NonBlank(column: Option<string>): Option<string> {
    if column.None? || Trim(column.value) == "" then None else Some(Trim(column.value))
  }

  function MerchantAddress(setup: SetupRow): Result<string, SetupError> {
    match NonBlank(setup.mainAddress)
    case Some(a) => if IsKaspaAddress(a) then Ok(a) else Err(NoPayoutAddress)
    case None => Err(NoPayoutAddress)
  }

  // The merchant's address is the trimmed column, if that is a Kaspa address.
  lemma MerchantAddressExactly(setup: SetupRow)
    ensures MerchantAddress(setup).Ok? <==> setup.mainAddress.Some? && IsKaspaAddress(Trim(setup.mainAddress.value))
    ensures MerchantAddress(setup).Ok? ==> MerchantAddress(setup).value == Trim(setup.mainAddress.value)
  {
    assert !IsKaspaAddress("") by {
      assert Trim("") == "";
    }
    if setup.mainAddress.Some? {
      TrimTrims(setup.mainAddress.value);
    }
  }

  function ResolveTaxConfig(num: Numerals, setup: SetupRow): (r: Result<TaxConfig, SetupError>)
    ensures r.Ok? ==> (r.value.enabled <==> r.value.address.Some?) && (!r.value.enabled ==> r.value.bps == 0)
    ensures r.Ok? ==> r.value.enabled == setup.taxEnabled
    ensures r.Ok? && r.value.enabled ==>
      && r.value.bps > 0 && setup.taxAddress.Some? && r.value.address == Some(Trim(setup.taxAddress.value))
      && IsKaspaAddress(r.value.address.value)
  {
    if !setup.taxEnabled then Ok(TaxConfig(false, 0, None))
    else match NonBlank(setup.taxAddress)
      case None => Err(BadTaxAddress)
      case Some(a) =>
        if !IsKaspaAddress(a) then Err(BadTaxAddress)
        else match PercentageToBps(num, setup.taxPercentage)
          case Err(e) => Err(e)
          case Ok(bps) => if bps <= 0 then Err(TaxNotPositive) else Ok(TaxConfig(true, bps, Some(a)))
  }

  // The percentage of a split row as text: a string as it stands, anything else rendered.
  function PercentageText(num: Numerals, item: Json): string {
    match Get(item, "percentage")
    case None => ""
    case Some(Str(s)) => s
    case Some(other) => num.render(other)
  }

  function ResolveSplitRow(num: Numerals, item: Json): Result<SplitOut, SetupError>
  {
    var address := Trim(StrOr(item, "address", ""));
    var identifier := Trim(StrOr(item, "identifier", ""));
    var percentage := PercentageText(num, item);
    match PercentageToBps(num, Some(percentage))
    case Err(e) => Err(e)
    case Ok(bps) =>
      if address == "" || !IsKaspaAddress(address) then Err(BadSplitAddress)
      else if identifier == "" then Err(NoSplitIdentifier)
      else if bps <= 0 then Err(SplitNotPositive)
      else Ok(SplitOut(address, identifier, percentage, bps))
  }

  // A row is accepted exactly with a Kaspa address, an identifier and a positive rate,
  // and is what it says, trimmed.
  lemma SplitRowExactly(num: Numerals, item: Json)
    ensures var r, rate := ResolveSplitRow(num, item), PercentageToBps(num, Some(PercentageText(num, item)));
      && (r.Ok? <==>
            && IsKaspaAddress(Trim(StrOr(item, "address", ""))) && Trim(StrOr(item, "identifier", "")) != ""
            && rate.Ok? && rate.value > 0)
      && (r.Ok? ==> r.value == SplitOut(Trim(StrOr(item, "address", "")), Trim(StrOr(item, "identifier", "")),
                                        PercentageText(num, item), rate.value))
  {
  }

  // Row by row, stopping at the first bad one.
  function ResolveSplitRows(num: Numerals, rows: seq<Json>): (r: Result<seq<SplitOut>, SetupError>)
    ensures r.Ok? ==> |r.value| == |rows| && forall s :: s in r.value ==> s.bps > 0
  {
    if rows == [] then Ok([])
    else match ResolveSplitRows(num, rows[..|rows| - 1])
      case Err(e) => Err(e)
      case Ok(front) =>
        match ResolveSplitRow(num, rows[|rows| - 1])
        case Err(e) => Err(e)
        case Ok(s) => Ok(front + [s])
  }

  // Where row by row resolution stops: all rows before it resolve, it does not.
  predicate FirstBadRow(num: Numerals, rows: seq<Json>, i: nat, error: SetupError) {
    && i < |rows| && ResolveSplitRow(num, rows[i]) == Err(error)
    && forall j :: 0 <= j < i ==> ResolveSplitRow(num, rows[j]).Ok?
  }

  // Each accepted row is the resolution of its own stored row, in order.
  lemma {:induction false} RowsResolveInOrder(num: Numerals, rows: seq<Json>)
    requires ResolveSplitRows(num, rows).Ok?
    ensures forall i :: 0 <= i < |rows| ==> ResolveSplitRow(num, rows[i]) == Ok(ResolveSplitRows(num, rows).value[i])
  {
    forall i | 0 <= i < |rows| ensures ResolveSplitRow(num, rows[i]) == Ok(ResolveSplitRows(num, rows).value[i]) {
      RowResolves(num, rows, i);
    }
  }

  lemma {:induction false} RowResolves(num: Numerals, rows: seq<Json>, i: nat)
    requires ResolveSplitRows(num, rows).Ok? && i < |rows|
    ensures ResolveSplitRow(num, rows[i]) == Ok(ResolveSplitRows(num, rows).value[i])
  {
    var n := |rows| - 1;
    LastRowResolves(num, rows);
    if i < n {
      RowResolves(num, rows[..n], i);
      assert rows[..n][i] == rows[i];
      assert ResolveSplitRows(num, rows).value[i] == ResolveSplitRows(num, rows[..n]).value[i];
    } else {
      assert ResolveSplitRows(num, rows).value[i] == ResolveSplitRow(num, rows[n]).value;
    }
  }

  lemma LastRowResolves(num: Numerals, rows: seq<Json>)
    requires rows != [] && ResolveSplitRows(num, rows).Ok?
    ensures ResolveSplitRows(num, rows[..|rows| - 1]).Ok? && ResolveSplitRow(num, rows[|rows| - 1]).Ok?
    ensures ResolveSplitRows(num, rows).value
         == ResolveSplitRows(num, rows[..|rows| - 1]).value + [ResolveSplitRow(num, rows[|rows| - 1]).value]
  {
  }

  // A refusal is that of the first bad row.
  lemma {:induction false} RefusalIsFirstBadRow(num: Numerals, rows: seq<Json>) returns (i: nat)
    requires ResolveSplitRows(num, rows).Err?
    ensures FirstBadRow(num, rows, i, ResolveSplitRows(num, rows).error)
  {
    var front := rows[..|rows| - 1];
    if ResolveSplitRows(num, front).Err? {
      i := RefusalIsFirstBadRow(num, front);
      assert forall j :: 0 <= j <= i ==> front[j] == rows[j];
    } else {
      i := |rows| - 1;
      RowsResolveInOrder(num, front);
      forall j | 0 <= j < i ensures ResolveSplitRow(num, rows[j]).Ok? {
        assert front[j] == rows[j];
      }
    }
  }

  predicate ResolvesTo(num: Numerals, item: Json, s: SplitOut) {
    ResolveSplitRow(num, item) == Ok(s)
  }

  // Rows that each resolve do so together.
  lemma RowsResolveTo(num: Numerals, rows: seq<Json>, splits: seq<SplitOut>)
    requires |rows| == |splits| && forall i :: 0 <= i < |rows| ==> ResolvesTo(num, rows[i], splits[i])
    ensures ResolveSplitRows(num, rows) == Ok(splits)
  {
    if ResolveSplitRows(num, rows).Err? {
      var i := RefusalIsFirstBadRow(num, rows);
      assert false;
    } else {
      RowsResolveInOrder(num, rows);
      var all := ResolveSplitRows(num, rows).value;
      forall i | 0 <= i < |rows| ensures all[i] == splits[i] {
        assert ResolvesTo(num, rows[i], splits[i]);
      }
      assert |all| == |rows| && all == splits;
    }
  }

  // A row's percentage is read off its own field; an absent or blank one is zero, any
  // other what its trimmed text says.
  lemma PercentageRead(num: Numerals, item: Json, text: string)
    ensures Get(item, "percentage") == Some(Str(text)) ==> PercentageText(num, item) == text
    ensures Get(item, "percentage") == Some(Number(text)) ==> PercentageText(num, item) == num.render(Number(text))
    ensures Get(item, "percentage").None? ==> PercentageText(num, item) == ""
    ensures PercentageToBps(num, None) == Ok(0)
    ensures (forall c :: c in text ==> IsSpace(c)) ==> PercentageToBps(num, Some(text)) == Ok(0)
    ensures Trimmed(text) && text != "" ==>
      PercentageToBps(num, Some(text)) == (match num.bpsOf(text) case Some(bps) => Ok(bps) case None => Err(BadPercentage))
  {
    TrimTrims(text);
    if forall c :: c in text ==> IsSpace(c) {
      BlankTrims(text);
    }
  }

  // Splits are accepted exactly when they are off, or there are one to five rows, each
  // resolves, no identifier or address repeats and the rates fit into the whole.
  lemma SplitsExactly(num: Numerals, setup: SetupRow)
    ensures var r, rows := ResolveSplitConfig(num, setup), ResolveSplitRows(num, SplitRows(setup));
      && (!setup.splitEnabled ==> r == Ok((0, [])))
      && (setup.splitEnabled ==> (r.Ok? <==>
            && 1 <= |SplitRows(setup)| <= 5 && rows.Ok?
            && DistinctIdentifiers(rows.value) && DistinctAddresses(rows.value) && TotalBps(rows.value) <= 10_000))
      && (setup.splitEnabled && r.Ok? ==> r.value == (TotalBps(rows.value), rows.value))
  {
  }

  predicate DistinctIdentifiers(splits: seq<SplitOut>) {
    forall i, j :: 0 <= i < j < |splits| ==> splits[i].identifier != splits[j].identifier
  }

  predicate DistinctAddresses(splits: seq<SplitOut>) {
    forall i, j :: 0 <= i < j < |splits| ==> splits[i].address != splits[j].address
  }

  function TotalBps(splits: seq<SplitOut>): int {
    if splits == [] then 0 else splits[0].bps + TotalBps(splits[1..])
  }

  // Every rate counts, wherever it stands.
  lemma {:induction false} TotalCounts(before: seq<SplitOut>, s: SplitOut, rest: seq<SplitOut>)
    ensures TotalBps(before + [s] + rest) == TotalBps(before) + s.bps + TotalBps(rest)
    decreases |before|
  {
    var splits := before + [s] + rest;
    if before == [] {
      assert splits[1..] == rest;
    } else {
      TotalCounts(before[1..], s, rest);
      assert splits[1..] == before[1..] + [s] + rest;
    }
  }

  // The rows of the split column; anything but an array reads as no rows.
  function SplitRows(setup: SetupRow): seq<Json> {
    match setup.splitAddresses
    case Some(Parsed(Arr(rows))) => rows
    case _ => []
  }

  function ResolveSplitConfig(num: Numerals, setup: SetupRow): (r: Result<(int, seq<SplitOut>), SetupError>)
    ensures r.Ok? ==>
      var (total, splits) := r.value;
      && |splits| <= MAX_SPLIT_ADDRESSES && total == TotalBps(splits) <= MAX_BPS
      && DistinctIdentifiers(splits) && DistinctAddresses(splits)
      && forall s :: s in splits ==> s.bps > 0
  {
    if !setup.splitEnabled then Ok((0, []))
    else
      var rows := SplitRows(setup);
      if rows == [] then Err(NoSplits)
      else if |rows| > MAX_SPLIT_ADDRESSES then Err(TooManySplits)
      else match ResolveSplitRows(num, rows)
        case Err(e) => Err(e)
        case Ok(splits) =>
          if !DistinctIdentifiers(splits) then Err(RepeatedIdentifier)
          else if !DistinctAddresses(splits) then Err(RepeatedAddress)
          else if TotalBps(splits) > MAX_BPS then Err(SplitsExceedWhole)
          else Ok((TotalBps(splits), splits))
  }
}
