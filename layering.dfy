/** The front/back rule for fin instances. Each of the n instances of a fin set sits at an
    azimuth around the body; an instance whose azimuth, reduced modulo 2π, is at most π is
    drawn in front of the body tube and every other instance behind it. This one-bit rule
    stands in for a depth test. */
module Layering {
  import opened Geometry

  /** Azimuth of instance i of n, for a roll of b radians: `diff * i + beta` with
      `diff = 2π / n`. */
  function Azimuth(i: int, n: nat, b: real, pi: real): real
    requires n >= 1
  {
    (2.0 * pi / (n as real)) * (i as real) + b
  }

  /** `theta % (2π) <= π`: true means "forward", drawn after the body tube. */
  predicate IsForward(theta: real, pi: real)
    requires pi > 0.0
  {
    FMod(theta, 2.0 * pi) <= pi
  }

  /** The `z_order` list of a fin set: one flag per instance, in index order. */
  function ZOrder(n: nat, b: real, pi: real): seq<bool>
    requires n >= 1 && pi > 0.0
  {
    seq(n, i requires 0 <= i < n => IsForward(Azimuth(i, n, b, pi), pi))
  }

  /** The flag depends only on the angle modulo 2π. */
  lemma IsForwardPeriodic(theta: real, pi: real, k: int)
    requires pi > 0.0
    ensures IsForward(theta + 2.0 * pi * (k as real), pi) == IsForward(theta, pi)
  {
    var m := 2.0 * pi;
    var t := theta + m * (k as real);
    assert t == theta + 2.0 * pi * (k as real);
    FModPeriodic(theta, m, k);
    assert IsForward(t, pi) == (FMod(t, m) <= pi);
    assert IsForward(theta, pi) == (FMod(theta, m) <= pi);
  }

  /** Within one turn [0, 2π) the instance is forward exactly on [0, π]. */
  lemma IsForwardInFirstTurn(theta: real, pi: real)
    requires pi > 0.0 && 0.0 <= theta < 2.0 * pi
    ensures IsForward(theta, pi) <==> theta <= pi
  {
    FModOfSmall(theta, 2.0 * pi);
  }

  /** Both ends of the forward half-turn count as forward; just past π is backward. */
  lemma IsForwardBoundaries(pi: real, eps: real)
    requires pi > 0.0 && 0.0 < eps < pi
    ensures IsForward(0.0, pi)
    ensures IsForward(pi, pi)
    ensures !IsForward(pi + eps, pi)
  {
    IsForwardInFirstTurn(0.0, pi);
    IsForwardInFirstTurn(pi, pi);
    IsForwardInFirstTurn(pi + eps, pi);
  }

  /** Shifting the azimuth offset b by a whole number of turns leaves every instance on the
      same side. */
  lemma ZOrderPeriodic(n: nat, b: real, pi: real, k: int)
    requires n >= 1 && pi > 0.0
    ensures ZOrder(n, b + 2.0 * pi * (k as real), pi) == ZOrder(n, b, pi)
  {
    var b' := b + 2.0 * pi * (k as real);
    forall i | 0 <= i < n
      ensures ZOrder(n, b', pi)[i] == ZOrder(n, b, pi)[i]
    {
      assert Azimuth(i, n, b', pi) == Azimuth(i, n, b, pi) + 2.0 * pi * (k as real);
      IsForwardPeriodic(Azimuth(i, n, b, pi), pi, k);
    }
  }

  /** Four fins at zero roll sit at 0, π/2, π and 3π/2: the first three are forward
      (π/2 and π included), the last is backward. */
  lemma ZOrderFourFinsAtZeroRoll(pi: real)
    requires pi > 0.0
    ensures ZOrder(4, 0.0, pi) == [true, true, true, false]
  {
    var z := ZOrder(4, 0.0, pi);
    forall i | 0 <= i < 4
      ensures Azimuth(i, 4, 0.0, pi) == (pi / 2.0) * (i as real)
    {
    }
    IsForwardInFirstTurn(0.0, pi);
    IsForwardInFirstTurn(pi / 2.0, pi);
    IsForwardInFirstTurn(pi, pi);
    IsForwardInFirstTurn(3.0 * pi / 2.0, pi);
    assert z[0] && z[1] && z[2] && !z[3];
  }

  /** The items whose flag equals `want`, in index order: the polygons one draw pass
      emits from `zip(polygons, z_order)`, which stops at the end of the shorter list. */
  function Selected<T>(items: seq<T>, flags: seq<bool>, want: bool): seq<T>
    decreases |items|
  {
    var n := if |items| <= |flags| then |items| else |flags|;
    if n == 0 then []
    else Selected(items[..n - 1], flags[..n - 1], want) + (if flags[n - 1] == want then [items[n - 1]] else [])
  }

  /** Like `zip`, a pass only looks at the common prefix of the two lists. */
  lemma SelectedCommonPrefix<T>(items: seq<T>, flags: seq<bool>, want: bool, n: nat)
    requires n <= |items| && n <= |flags| && (n == |items| || n == |flags|)
    ensures Selected(items[..n], flags[..n], want) == Selected(items, flags, want)
  {
    if n > 0 {
      assert items[..n][..n - 1] == items[..n - 1];
      assert flags[..n][..n - 1] == flags[..n - 1];
    }
  }

  /** The indices whose flag equals `want`, in increasing order. */
  function Indices(flags: seq<bool>, want: bool): seq<nat>
  {
    if |flags| == 0 then []
    else
      var n := |flags| - 1;
      Indices(flags[..n], want) + (if flags[n] == want then [n] else [])
  }

  /** One more loop iteration over the zipped lists adds at most the current item. */
  lemma SelectedSnoc<T>(items: seq<T>, flags: seq<bool>, want: bool, i: nat)
    requires i < |items| && i < |flags|
    ensures Selected(items[..i + 1], flags[..i + 1], want)
         == Selected(items[..i], flags[..i], want) + (if flags[i] == want then [items[i]] else [])
  {
    assert items[..i + 1][..i] == items[..i];
    assert flags[..i + 1][..i] == flags[..i];
  }

  /** A pass emits exactly the items at the selected indices, in that order. */
  lemma {:induction false} SelectedAtIndices<T>(items: seq<T>, flags: seq<bool>, want: bool)
    requires |items| == |flags|
    ensures |Selected(items, flags, want)| == |Indices(flags, want)|
    ensures forall j :: 0 <= j < |Indices(flags, want)| ==>
      Indices(flags, want)[j] < |items| &&
      Selected(items, flags, want)[j] == items[Indices(flags, want)[j]]
  {
    if |items| > 0 {
      var n := |items| - 1;
      SelectedAtIndices(items[..n], flags[..n], want);
      IndicesSound(flags[..n], want);
    }
  }

  /** The selected indices are in range, carry the wanted flag and strictly increase. */
  lemma {:induction false} IndicesSound(flags: seq<bool>, want: bool)
    ensures forall j :: 0 <= j < |Indices(flags, want)| ==>
      Indices(flags, want)[j] < |flags| && flags[Indices(flags, want)[j]] == want
    ensures forall j, j' :: 0 <= j < j' < |Indices(flags, want)| ==>
      Indices(flags, want)[j] < Indices(flags, want)[j']
  {
    if |flags| > 0 {
      var n := |flags| - 1;
      IndicesSound(flags[..n], want);
    }
  }

  /** Every index carrying the wanted flag is selected. */
  lemma {:induction false} IndicesComplete(flags: seq<bool>, want: bool, i: nat)
    requires i < |flags| && flags[i] == want
    ensures i in Indices(flags, want)
  {
    var n := |flags| - 1;
    if i < n {
      IndicesComplete(flags[..n], want, i);
    }
  }

  /** The backward and forward passes split the instances: every index lands in exactly one
      pass, and the two passes together are as long as the list. */
  lemma {:induction false} PassesPartition(flags: seq<bool>)
    ensures |Indices(flags, false)| + |Indices(flags, true)| == |flags|
    ensures forall i :: 0 <= i < |flags| ==>
      ((i in Indices(flags, false)) <==> !flags[i]) &&
      ((i in Indices(flags, true)) <==> flags[i])
  {
    if |flags| > 0 {
      PassesPartition(flags[..|flags| - 1]);
    }
    IndicesSound(flags, false);
    IndicesSound(flags, true);
    forall i | 0 <= i < |flags|
      ensures flags[i] ==> i in Indices(flags, true)
      ensures !flags[i] ==> i in Indices(flags, false)
    {
      if flags[i] {
        IndicesComplete(flags, true, i);
      } else {
        IndicesComplete(flags, false, i);
      }
    }
  }

  /** The backward and forward passes together draw every instance: their lengths add up to
      the number of instances, and each instance appears in the pass its flag selects. */
  lemma EveryInstanceDrawn<T>(items: seq<T>, flags: seq<bool>)
    requires |items| == |flags|
    ensures |Selected(items, flags, false)| + |Selected(items, flags, true)| == |items|
    ensures forall i :: 0 <= i < |items| ==> items[i] in Selected(items, flags, flags[i])
  {
    SelectedAtIndices(items, flags, false);
    SelectedAtIndices(items, flags, true);
    PassesPartition(flags);
    forall i | 0 <= i < |items|
      ensures items[i] in Selected(items, flags, flags[i])
    {
      var ix := Indices(flags, flags[i]);
      var j :| 0 <= j < |ix| && ix[j] == i;
      assert Selected(items, flags, flags[i])[j] == items[i];
    }
  }
}
