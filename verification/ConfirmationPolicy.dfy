// How many confirmations a funding transaction needs before it counts.
module ConfirmationPolicy {
  import opened Wrappers
  import opened Text
  import opened Fees
  import opened Setup
  import opened Sorting

  const PLATFORM_MIN_CONFIRMATIONS := 10

  datatype Override = Override(network: Option<string>, assetId: Option<string>, currency: Option<string>,
                               minInvoiceAmount: string, requiredConfirmations: int)

  datatype Policy = Policy(defaultConfirmations: Option<int>, overrides: seq<Override>)

  datatype Payment = Payment(network: string, assetId: string, currency: string, amount: int)

  function AsI64(j: Option<Json>): Option<int> {
    match j
    case Some(Number(text)) =>
      (match ParseInt(text)
       case Some(n) => if -MAX_I64 - 1 <= n <= MAX_I64 then Some(n) else None
       case None => None)
    case _ => None
  }

  // An override that asks for less than one confirmation is dropped.
  function NormalizeOverride(o: Json): Option<Override> {
    match AsI64(Get(o, "requiredConfirmations"))
    case Some(rc) =>
      if rc < 1 then None
      else Some(Override(AsStr(Get(o, "network")), AsStr(Get(o, "assetId")), AsStr(Get(o, "currency")),
                         StrOr(o, "minInvoiceAmount", "0"), rc))
    case None => None
  }

  function NormalizeOverrides(items: seq<Json>): (r: seq<Override>)
    ensures forall o :: o in r ==> o.requiredConfirmations >= 1
    ensures forall o :: o in r <==> exists i :: 0 <= i < |items| && NormalizeOverride(items[i]) == Some(o)
  {
    if items == [] then []
    else
      var front := NormalizeOverrides(items[..|items| - 1]);
      match NormalizeOverride(items[|items| - 1])
      case Some(o) => front + [o]
      case None => front
  }

  function NormalizePolicy(stored: Option<StoredJson>): Policy {
    match stored
    case Some(Parsed(parsed)) =>
      var overrides := match Get(parsed, "overrides")
        case Some(Arr(items)) => NormalizeOverrides(items)
        case _ => [];
      var default := match AsI64(Get(parsed, "defaultConfirmations"))
        case Some(d) => if d >= 1 then Some(d) else None
        case None => None;
      Policy(default, overrides)
    case _ => Policy(None, [])
  }

  const MAX_I128 := 0x7FFF_FFFF_FFFF_FFFF_FFFF_FFFF_FFFF_FFFF

  // The stored threshold as a 128-bit number; an unreadable one counts as zero.
  function Threshold(text: string): int {
    match ParseInt(text)
    case Some(n) => if -MAX_I128 - 1 <= n <= MAX_I128 then n else 0
    case None => 0
  }

  // An absent field matches anything.
  predicate Matches(o: Override, p: Payment) {
    var threshold := Threshold(o.minInvoiceAmount);
    && (o.network.None? || o.network.value == p.network)
    && (o.assetId.None? || o.assetId.value == p.assetId)
    && (o.currency.None? || o.currency.value == p.currency)
    && p.amount >= threshold
  }

  // An override applies exactly to the payments of its network, asset and currency, each
  // where it names one, from its threshold on.
  lemma MatchesExactly(network: Option<string>, asset: Option<string>, currency: Option<string>, threshold: int, rc: int, p: Payment)
    ensures Matches(Override(network, asset, currency, PrintInt(threshold), rc), p) <==>
      && network in {None, Some(p.network)} && asset in {None, Some(p.assetId)} && currency in {None, Some(p.currency)}
      && p.amount >= if -MAX_I128 - 1 <= threshold <= MAX_I128 then threshold else 0
    ensures Matches(Override(network, asset, currency, "", rc), p) <==>
      && network in {None, Some(p.network)} && asset in {None, Some(p.assetId)} && currency in {None, Some(p.currency)}
      && p.amount >= 0
  {
    ParsePrintInt(threshold);
  }

  // ---- storing a policy ----

  function OptJson(s: Option<string>): Json {
    match s case Some(text) => Str(text) case None => Null
  }

  function OverrideJson(o: Override): Json {
    Obj(map["network" := OptJson(o.network), "assetId" := OptJson(o.assetId), "currency" := OptJson(o.currency),
            "minInvoiceAmount" := Str(o.minInvoiceAmount), "requiredConfirmations" := Number(PrintInt(o.requiredConfirmations))])
  }

  function OverridesJson(overrides: seq<Override>): seq<Json> {
    seq(|overrides|, i requires 0 <= i < |overrides| => OverrideJson(overrides[i]))
  }

  function PolicyJson(policy: Policy): Json {
    var overrides := Arr(OverridesJson(policy.overrides));
    match policy.defaultConfirmations
    case Some(d) => Obj(map["defaultConfirmations" := Number(PrintInt(d)), "overrides" := overrides])
    case None => Obj(map["overrides" := overrides])
  }

  // Every count asks for something and fits its column.
  predicate IsNormal(policy: Policy) {
    && (policy.defaultConfirmations.Some? ==> 1 <= policy.defaultConfirmations.value <= MAX_I64)
    && forall i :: 0 <= i < |policy.overrides| ==> 1 <= policy.overrides[i].requiredConfirmations <= MAX_I64
  }

  lemma OverrideReadsBack(o: Override)
    requires 1 <= o.requiredConfirmations <= MAX_I64
    ensures NormalizeOverride(OverrideJson(o)) == Some(o)
  {
    ParsePrintInt(o.requiredConfirmations);
  }

  lemma {:induction false} OverridesReadBack(overrides: seq<Override>)
    requires forall i :: 0 <= i < |overrides| ==> 1 <= overrides[i].requiredConfirmations <= MAX_I64
    ensures NormalizeOverrides(OverridesJson(overrides)) == overrides
  {
    if overrides != [] {
      var n := |overrides| - 1;
      OverridesReadBack(overrides[..n]);
      OverrideReadsBack(overrides[n]);
      assert OverridesJson(overrides)[..n] == OverridesJson(overrides[..n]);
      assert overrides == overrides[..n] + [overrides[n]];
    }
  }

  // Nothing stored, or nothing readable, is the empty policy; an override without a
  // threshold applies from zero.
  lemma DefaultsRead(rc: int)
    requires 1 <= rc <= MAX_I64
    ensures NormalizePolicy(None) == NormalizePolicy(Some(Unparseable)) == Policy(None, [])
    ensures NormalizeOverride(Obj(map["requiredConfirmations" := Number(PrintInt(rc))])) == Some(Override(None, None, None, "0", rc))
  {
    ParsePrintInt(rc);
  }

  // A normalized policy is stored and read back unchanged, overrides in order; so
  // normalizing settles in one step.
  lemma PolicyReadsBack(policy: Policy)
    requires IsNormal(policy)
    ensures NormalizePolicy(Some(Parsed(PolicyJson(policy)))) == policy
  {
    OverridesReadBack(policy.overrides);
    if policy.defaultConfirmations.Some? {
      ParsePrintInt(policy.defaultConfirmations.value);
    }
  }

  lemma {:induction false} NormalOverrides(items: seq<Json>)
    ensures forall o :: o in NormalizeOverrides(items) ==> 1 <= o.requiredConfirmations <= MAX_I64
  {
    if items != [] {
      NormalOverrides(items[..|items| - 1]);
    }
  }

  // Whatever is stored, what is read from it is normal: smaller counts are dropped.
  lemma NormalizedIsNormal(stored: Option<StoredJson>)
    ensures IsNormal(NormalizePolicy(stored))
  {
    if stored.Some? && stored.value.Parsed? {
      var overrides := Get(stored.value.value, "overrides");
      if overrides.Some? && overrides.value.Arr? {
        NormalOverrides(overrides.value.items);
      }
    }
  }

  // The largest of the platform minimum, the tenant's default and the matching overrides.
  ghost predicate IsRequired(policy: Policy, p: Payment, required: int) {
    && required >= PLATFORM_MIN_CONFIRMATIONS
    && (policy.defaultConfirmations.Some? ==> required >= policy.defaultConfirmations.value)
    && (forall o :: o in policy.overrides && Matches(o, p) ==> required >= o.requiredConfirmations)
    && (|| required == PLATFORM_MIN_CONFIRMATIONS
        || policy.defaultConfirmations == Some(required)
        || exists o :: o in policy.overrides && Matches(o, p) && o.requiredConfirmations == required)
  }

  method ResolvePolicy(policy: Policy, p: Payment) returns (required: int, clamped: bool)
    ensures IsRequired(policy, p, required)
    ensures clamped <==>
      && policy.defaultConfirmations.Some? && policy.defaultConfirmations.value < PLATFORM_MIN_CONFIRMATIONS
      && forall o :: o in policy.overrides && Matches(o, p) ==> o.requiredConfirmations < PLATFORM_MIN_CONFIRMATIONS
  {
    required := match policy.defaultConfirmations case Some(d) => d case None => PLATFORM_MIN_CONFIRMATIONS;
    ghost var start := required;
    for i := 0 to |policy.overrides|
      invariant required >= start
      invariant forall k :: 0 <= k < i && Matches(policy.overrides[k], p) ==> required >= policy.overrides[k].requiredConfirmations
      invariant required == start
        || exists k :: 0 <= k < i && Matches(policy.overrides[k], p) && policy.overrides[k].requiredConfirmations == required
    {
      var o := policy.overrides[i];
      if Matches(o, p) && o.requiredConfirmations > required {
        required := o.requiredConfirmations;
      }
    }
    clamped := required < PLATFORM_MIN_CONFIRMATIONS;
    if clamped {
      required := PLATFORM_MIN_CONFIRMATIONS;
    }
  }

  // The order of the overrides does not matter.
  lemma RequiredIgnoresOrder(policy: Policy, reordered: Policy, p: Payment, a: int, b: int)
    requires policy.defaultConfirmations == reordered.defaultConfirmations
    requires multiset(policy.overrides) == multiset(reordered.overrides)
    requires IsRequired(policy, p, a) && IsRequired(reordered, p, b)
    ensures a == b
  {
    SameMembers(policy.overrides, reordered.overrides);
  }
}
