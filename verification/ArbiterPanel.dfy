// M-of-N arbiter signatures: what the server accepts, the order it puts them
// in, and what the covenant script then demands of them.
module ArbiterPanel {
  import opened Wrappers
  import opened Sorting
  import opened Text
  import opened Escrow

  datatype PanelSignature = PanelSignature(index: U32, sig: seq<byte>)

  datatype PanelError = OutsidePanel | Repeated | BadLength | TooFew

  const byIndex: (PanelSignature, PanelSignature) -> bool := (a: PanelSignature, b: PanelSignature) => a.index <= b.index

  function Indices(sigs: seq<PanelSignature>): seq<U32> {
    seq(|sigs|, i requires 0 <= i < |sigs| => sigs[i].index)
  }

  function Signatures(sigs: seq<PanelSignature>): seq<seq<byte>> {
    seq(|sigs|, i requires 0 <= i < |sigs| => sigs[i].sig)
  }

  predicate NoRepeats(xs: seq<U32>) {
    forall i, j :: 0 <= i < j < |xs| ==> xs[i] != xs[j]
  }

  predicate StrictlyIncreasing(xs: seq<U32>) {
    forall i, j :: 0 <= i < j < |xs| ==> xs[i] < xs[j]
  }

  predicate Shaped(panelSize: nat, s: PanelSignature) {
    s.index < panelSize && |s.sig| == 65
  }

  // What the server asks of the signatures it is handed, in any order.
  predicate Acceptable(panelSize: nat, threshold: U32, provided: seq<PanelSignature>) {
    && NoRepeats(Indices(provided))
    && (forall i :: 0 <= i < |provided| ==> Shaped(panelSize, provided[i]))
    && |provided| >= threshold
  }

  lemma IndicesCons(x: PanelSignature, xs: seq<PanelSignature>)
    ensures multiset(Indices([x] + xs)) == multiset{x.index} + multiset(Indices(xs))
  {
    assert Indices([x] + xs) == [x.index] + Indices(xs);
  }

  lemma {:induction false} InsertIndices(x: PanelSignature, xs: seq<PanelSignature>)
    ensures multiset(Indices(Insert(byIndex, x, xs))) == multiset{x.index} + multiset(Indices(xs))
  {
    if xs == [] || byIndex(x, xs[0]) {
      IndicesCons(x, xs);
    } else {
      InsertIndices(x, xs[1..]);
      IndicesCons(xs[0], Insert(byIndex, x, xs[1..]));
      IndicesCons(xs[0], xs[1..]);
      assert xs == [xs[0]] + xs[1..];
    }
  }

  lemma {:induction false} SortIndices(xs: seq<PanelSignature>)
    ensures multiset(Indices(Sort(byIndex, xs))) == multiset(Indices(xs))
  {
    if xs != [] {
      SortIndices(xs[1..]);
      InsertIndices(xs[0], Sort(byIndex, xs[1..]));
      IndicesCons(xs[0], xs[1..]);
      assert xs == [xs[0]] + xs[1..];
    }
  }

  lemma {:induction false} NoRepeatsCount(xs: seq<U32>)
    ensures NoRepeats(xs) <==> forall x :: multiset(xs)[x] <= 1
  {
    if xs != [] {
      var first, rest := xs[0], xs[1..];
      assert xs == [first] + rest;
      NoRepeatsCount(rest);
      if first in rest {
        var j :| 0 <= j < |rest| && rest[j] == first;
        assert xs[0] == xs[j + 1];
        assert multiset(xs)[first] == 1 + multiset(rest)[first] >= 2;
      } else {
        assert NoRepeats(xs) <==> NoRepeats(rest);
        forall x ensures multiset(xs)[x] <= 1 <==> multiset(rest)[x] <= 1 {
          assert multiset(xs)[x] == (if x == first then 1 else 0) + multiset(rest)[x];
        }
      }
    }
  }

  // Sorting brings out a repeat: distinct indices are exactly those that end up
  // strictly increasing.
  lemma SortedDistinct(provided: seq<PanelSignature>)
    ensures var sorted := Sort(byIndex, provided);
      && |sorted| == |provided|
      && Sorted(byIndex, sorted)
      && (NoRepeats(Indices(provided)) <==> StrictlyIncreasing(Indices(sorted)))
  {
    var sorted := Sort(byIndex, provided);
    SortSorts(byIndex, provided);
    SameMembers(provided, sorted);
    SortIndices(provided);
    NoRepeatsCount(Indices(provided));
    NoRepeatsCount(Indices(sorted));
    assert forall i :: 0 <= i < |sorted| ==> Indices(sorted)[i] == sorted[i].index;
  }

  function Zip(sigs: seq<seq<byte>>, idx: seq<U32>): seq<PanelSignature>
    requires |sigs| == |idx|
  {
    seq(|idx|, i requires 0 <= i < |idx| => PanelSignature(idx[i], sigs[i]))
  }

  // The answer to an acceptable set of signatures: the same (index, signature)
  // pairs, arranged by strictly increasing index.
  ghost predicate Arranged(provided: seq<PanelSignature>, sigs: seq<seq<byte>>, idx: seq<U32>) {
    |sigs| == |idx| && StrictlyIncreasing(idx) && multiset(Zip(sigs, idx)) == multiset(provided)
  }

  // The checking loop over the sorted signatures.
  method CheckSorted(panelSize: nat, sorted: seq<PanelSignature>) returns (error: Option<PanelError>)
    requires Sorted(byIndex, sorted)
    ensures error.None? <==>
      && StrictlyIncreasing(Indices(sorted))
      && forall i :: 0 <= i < |sorted| ==> Shaped(panelSize, sorted[i])
    ensures error != Some(TooFew)
  {
    var last: Option<U32> := None;
    for i := 0 to |sorted|
      invariant last == if i == 0 then None else Some(sorted[i - 1].index)
      invariant forall k :: 0 <= k < i ==> Shaped(panelSize, sorted[k])
      invariant forall j, k :: 0 <= j < k < i ==> sorted[j].index < sorted[k].index
    {
      if sorted[i].index >= panelSize {
        return Some(OutsidePanel);
      }
      if last == Some(sorted[i].index) {
        assert Indices(sorted)[i - 1] == Indices(sorted)[i];
        return Some(Repeated);
      }
      if |sorted[i].sig| != 65 {
        return Some(BadLength);
      }
      last := Some(sorted[i].index);
    }
    error := None;
  }

  method PrepareArbiterSignatures(panelSize: nat, threshold: U32, provided: seq<PanelSignature>)
    returns (r: Result<(seq<seq<byte>>, seq<U32>), PanelError>)
    ensures r.Ok? <==> Acceptable(panelSize, threshold, provided)
    ensures r == Err(TooFew) <==> Acceptable(panelSize, 0, provided) && |provided| < threshold
    ensures r.Ok? ==> Arranged(provided, r.value.0, r.value.1)
  {
    var sorted := Sort(byIndex, provided);
    SortedDistinct(provided);
    SameShapes(panelSize, provided, sorted);
    var error := CheckSorted(panelSize, sorted);
    if error.Some? {
      return Err(error.value);
    }
    if |provided| < threshold {
      return Err(TooFew);
    }
    assert Zip(Signatures(sorted), Indices(sorted)) == sorted;
    r := Ok((Signatures(sorted), Indices(sorted)));
  }

  lemma SameShapes(panelSize: nat, xs: seq<PanelSignature>, ys: seq<PanelSignature>)
    requires multiset(xs) == multiset(ys)
    ensures (forall i :: 0 <= i < |xs| ==> Shaped(panelSize, xs[i])) <==> (forall i :: 0 <= i < |ys| ==> Shaped(panelSize, ys[i]))
  {
    SameMembers(xs, ys);
    assert (forall i :: 0 <= i < |xs| ==> Shaped(panelSize, xs[i])) <==> (forall x :: x in xs ==> Shaped(panelSize, x));
    assert (forall i :: 0 <= i < |ys| ==> Shaped(panelSize, ys[i])) <==> (forall x :: x in ys ==> Shaped(panelSize, x));
  }

  // There is one such arrangement, whatever order the signatures arrive in.
  lemma ArrangementUnique(provided: seq<PanelSignature>, reordered: seq<PanelSignature>,
                          sigs: seq<seq<byte>>, idx: seq<U32>, sigs': seq<seq<byte>>, idx': seq<U32>)
    requires multiset(provided) == multiset(reordered)
    requires Arranged(provided, sigs, idx) && Arranged(reordered, sigs', idx')
    ensures sigs == sigs' && idx == idx'
  {
    var a := Zip(sigs, idx);
    var b := Zip(sigs', idx');
    assert TieFree(byIndex, a) by {
      forall x, y | x in a && y in a && byIndex(x, y) && byIndex(y, x) ensures x == y {
        var i :| 0 <= i < |a| && a[i] == x;
        var j :| 0 <= j < |a| && a[j] == y;
      }
    }
    SortedUnique(byIndex, a, b);
    assert forall i :: 0 <= i < |idx| ==> idx[i] == a[i].index && sigs[i] == a[i].sig;
    assert forall i :: 0 <= i < |idx'| ==> idx'[i] == b[i].index && sigs'[i] == b[i].sig;
  }

  // What the covenant script checks before it verifies the signatures themselves.
  predicate ScriptAcceptsSigners(panelSize: nat, threshold: U32, sigs: seq<seq<byte>>, idx: seq<U32>) {
    && |sigs| == threshold && |idx| == threshold
    && StrictlyIncreasing(idx)
    && forall i :: 0 <= i < |idx| ==> idx[i] < panelSize
  }

  // The server asks for at least the threshold, the script for exactly it: of the
  // signature sets the server accepts, the script takes those of threshold size.
  lemma ScriptTakesExactThreshold(panelSize: nat, threshold: U32, provided: seq<PanelSignature>,
                                  sigs: seq<seq<byte>>, idx: seq<U32>)
    requires Acceptable(panelSize, threshold, provided) && Arranged(provided, sigs, idx)
    ensures ScriptAcceptsSigners(panelSize, threshold, sigs, idx) <==> |provided| == threshold
  {
    var a := Zip(sigs, idx);
    SameMembers(provided, a);
    forall i | 0 <= i < |idx| ensures idx[i] < panelSize {
      assert a[i] in provided;
    }
  }

  // All three members of a 2-of-3 panel signing is one signature too many.
  lemma ThreeOfTwoOfThree(sig: seq<byte>)
    requires |sig| == 65
    ensures var provided := [PanelSignature(0, sig), PanelSignature(1, sig), PanelSignature(2, sig)];
      Acceptable(3, 2, provided) && Arranged(provided, [sig, sig, sig], [0, 1, 2])
      && !ScriptAcceptsSigners(3, 2, [sig, sig, sig], [0, 1, 2])
  {
    var provided := [PanelSignature(0, sig), PanelSignature(1, sig), PanelSignature(2, sig)];
    var idx: seq<U32>, sigs := [0, 1, 2], [sig, sig, sig];
    assert Indices(provided) == idx;
    assert Zip(sigs, idx) == provided;
  }
}
