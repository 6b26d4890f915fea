/**
 * Radial length factors of the wedges: evenly spaced values between the
 * configured minimum and maximum, jittered by up to five per cent of the
 * spacing, clamped back into range, sorted, and then dealt out smallest,
 * largest, second smallest, second largest, ... so that wedges of similar
 * length never sit next to each other.
 *
 * Math.random() is replaced by `rolls`, the values it would have returned.
 */
module LengthFactors {

  ghost predicate Sorted(s: seq<real>) {
    forall i, j :: 0 <= i < j < |s| ==> s[i] <= s[j]
  }

  ghost predicate StrictlySorted(s: seq<real>) {
    forall i, j :: 0 <= i < j < |s| ==> s[i] < s[j]
  }

  /** Low/high/low pattern: f[0] <= f[1] >= f[2] <= f[3] ... */
  ghost predicate Alternates(s: seq<real>) {
    forall i :: 0 <= i < |s| - 1 ==> if i % 2 == 0 then s[i] <= s[i + 1] else s[i] >= s[i + 1]
  }

  /** The strict form: f[0] < f[1] > f[2] < f[3] ... */
  ghost predicate StrictlyAlternates(s: seq<real>) {
    forall i :: 0 <= i < |s| - 1 ==> if i % 2 == 0 then s[i] < s[i + 1] else s[i] > s[i + 1]
  }

  ghost predicate AllRolls(rolls: seq<real>) {
    forall k :: 0 <= k < |rolls| ==> 0.0 <= rolls[k] < 1.0
  }

  // ---------------------------------------------------------------------
  // Spacing, jitter and clamp
  // ---------------------------------------------------------------------

  /** Distance between neighbouring factors; a single service divides by one. */
  function Step(n: nat, minFactor: real, maxFactor: real): real {
    (maxFactor - minFactor) / (if n > 1 then (n - 1) as real else 1.0)
  }

  /** Math.max(lo, Math.min(hi, x)). */
  function Clamp(lo: real, hi: real, x: real): (r: real)
    ensures lo <= r
    ensures lo <= hi ==> r <= hi
    ensures lo <= x <= hi ==> r == x
  {
    var capped := if hi < x then hi else x;
    if lo < capped then capped else lo
  }

  /** f + (Math.random() - 0.5) * step * 0.1 */
  function Jitter(f: real, step: real, roll: real): real {
    f + (roll - 0.5) * step * 0.1
  }

  /**
   * minFactor + i * step, written as i repeated additions of the step so that
   * the ordering proofs below stay within linear arithmetic (SpacedIsProduct).
   */
  function Spaced(minFactor: real, step: real, i: nat): real {
    if i == 0 then minFactor else Spaced(minFactor, step, i - 1) + step
  }

  lemma {:induction false} SpacedIsProduct(minFactor: real, step: real, i: nat)
    ensures Spaced(minFactor, step, i) == minFactor + i as real * step
  {
    if i > 0 {
      SpacedIsProduct(minFactor, step, i - 1);
      assert (i - 1) as real * step + step == i as real * step;
    }
  }

  /** Factor i after jitter and clamp: minFactor + i * step, moved by `roll`. */
  function JitteredAt(n: nat, minFactor: real, maxFactor: real, roll: real, i: nat): real {
    var step := Step(n, minFactor, maxFactor);
    Clamp(minFactor, maxFactor, Jitter(Spaced(minFactor, step, i), step, roll))
  }

  /** The jittered, clamped factors before sorting, in their original order. */
  function Jittered(n: nat, minFactor: real, maxFactor: real, rolls: seq<real>): (r: seq<real>)
    requires |rolls| == n
    ensures |r| == n
    ensures forall i :: 0 <= i < n ==> r[i] == JitteredAt(n, minFactor, maxFactor, rolls[i], i)
  {
    seq(n, i requires 0 <= i < n => JitteredAt(n, minFactor, maxFactor, rolls[i], i))
  }

  // ---------------------------------------------------------------------
  // Sorting (Array.prototype.sort with (a, b) => a - b)
  // ---------------------------------------------------------------------

  /** `x` put into sorted `s` in front of the first element not below it. */
  function Insert(x: real, s: seq<real>): (r: seq<real>)
    requires Sorted(s)
    ensures Sorted(r)
    ensures multiset(r) == multiset(s) + multiset{x}
    ensures |r| == |s| + 1 && r[0] == if s == [] || x <= s[0] then x else s[0]
  {
    if s == [] || x <= s[0] then [x] + s
    else
      var rest := Insert(x, s[1..]);
      assert s == [s[0]] + s[1..];
      assert |s| > 1 ==> s[0] <= s[1];
      [s[0]] + rest
  }

  /** The ascending permutation of `s`; any correct sort yields this one. */
  function SortAscending(s: seq<real>): (r: seq<real>)
    ensures Sorted(r)
    ensures multiset(r) == multiset(s)
  {
    if s == [] then []
    else
      assert s == [s[0]] + s[1..];
      Insert(s[0], SortAscending(s[1..]))
  }

  lemma {:induction false} SortOfSorted(s: seq<real>)
    requires Sorted(s)
    ensures SortAscending(s) == s
  {
    if s != [] {
      SortOfSorted(s[1..]);
      assert s == [s[0]] + s[1..];
    }
  }

  // ---------------------------------------------------------------------
  // Interleaving
  // ---------------------------------------------------------------------

  /** Smallest, largest, then the same arrangement of what lies between. */
  function Zigzag(s: seq<real>): (r: seq<real>)
    ensures |r| == |s|
    decreases |s|
  {
    if |s| <= 1 then s else [s[0], s[|s| - 1]] + Zigzag(s[1..|s| - 1])
  }

  /** Position k of the interleaving: sorted[k/2] at even k, sorted[n-1-(k-1)/2] at odd k. */
  function ZigzagSource(n: nat, k: nat): (j: nat)
    requires k < n
    ensures j < n
  {
    if k % 2 == 0 then k / 2 else n - 1 - (k - 1) / 2
  }

  lemma {:induction false} ZigzagAt(s: seq<real>, k: nat)
    requires k < |s|
    ensures Zigzag(s)[k] == s[ZigzagSource(|s|, k)]
    decreases |s|
  {
    if |s| > 1 && k >= 2 {
      var mid := s[1..|s| - 1];
      ZigzagAt(mid, k - 2);
      ZigzagSourceShift(|s|, k);
      assert Zigzag(s)[k] == Zigzag(mid)[k - 2];
    }
  }

  /** Dropping both ends shifts every source position down by one. */
  lemma ZigzagSourceShift(n: nat, k: nat)
    requires 2 <= k < n
    ensures ZigzagSource(n, k) == 1 + ZigzagSource(n - 2, k - 2)
  {
    assert k % 2 == (k - 2) % 2;
    assert k / 2 == (k - 2) / 2 + 1;
    assert (k - 1) / 2 == (k - 3) / 2 + 1 || k == 2;
  }

  lemma {:induction false} ZigzagPermutation(s: seq<real>)
    ensures multiset(Zigzag(s)) == multiset(s)
    decreases |s|
  {
    if |s| > 1 {
      var mid := s[1..|s| - 1];
      ZigzagPermutation(mid);
      EndsAndMiddle(s);
      assert Zigzag(s) == [s[0], s[|s| - 1]] + Zigzag(mid);
    }
  }

  lemma EndsAndMiddle(s: seq<real>)
    requires |s| > 1
    ensures multiset(s) == multiset([s[0], s[|s| - 1]]) + multiset(s[1..|s| - 1])
  {
    assert s == [s[0]] + s[1..|s| - 1] + [s[|s| - 1]];
  }

  lemma ZigzagAlternates(s: seq<real>)
    requires Sorted(s)
    ensures Alternates(Zigzag(s))
  {
    var z := Zigzag(s);
    forall i | 0 <= i < |z| - 1
      ensures if i % 2 == 0 then z[i] <= z[i + 1] else z[i] >= z[i + 1]
    {
      ZigzagAt(s, i);
      ZigzagAt(s, i + 1);
    }
  }

  lemma ZigzagStrictlyAlternates(s: seq<real>)
    requires StrictlySorted(s)
    ensures StrictlyAlternates(Zigzag(s))
  {
    var z := Zigzag(s);
    forall i | 0 <= i < |z| - 1
      ensures if i % 2 == 0 then z[i] < z[i + 1] else z[i] > z[i + 1]
    {
      ZigzagAt(s, i);
      ZigzagAt(s, i + 1);
    }
  }

  /** The for-loop with `left`/`right` cursors filling arrangedLengthFactors. */
  method Interleave(sorted: seq<real>) returns (arranged: seq<real>)
    ensures arranged == Zigzag(sorted)
  {
    var n := |sorted|;
    var a := new real[n];
    var left, right := 0, n - 1;
    for i := 0 to n
      invariant left == (i + 1) / 2 && right == n - 1 - i / 2
      invariant forall k :: 0 <= k < i ==> a[k] == sorted[ZigzagSource(n, k)]
    {
      if i % 2 == 0 {
        a[i] := sorted[left];
        left := left + 1;
      } else {
        a[i] := sorted[right];
        right := right - 1;
      }
    }
    arranged := a[..];
    forall k | 0 <= k < n ensures arranged[k] == Zigzag(sorted)[k] {
      ZigzagAt(sorted, k);
    }
  }

  // ---------------------------------------------------------------------
  // The jitter keeps the spaced sequence in order
  // ---------------------------------------------------------------------

  lemma ClampMonotone(lo: real, hi: real, x: real, y: real)
    requires x <= y
    ensures Clamp(lo, hi, x) <= Clamp(lo, hi, y)
  {
  }

  /** The jitter moves a factor by less than five per cent of the step either way. */
  lemma JitterBounds(f: real, step: real, roll: real)
    requires step >= 0.0 && 0.0 <= roll < 1.0
    ensures f - step * 0.05 <= Jitter(f, step, roll) <= f + step * 0.05
    ensures step > 0.0 ==> Jitter(f, step, roll) < f + step * 0.05
  {
    assert roll * step >= 0.0;
    assert (1.0 - roll) * step >= 0.0;
    assert step > 0.0 ==> (1.0 - roll) * step > 0.0;
  }

  lemma {:induction false} SpacedGap(minFactor: real, step: real, i: nat, j: nat)
    requires step >= 0.0 && i < j
    ensures Spaced(minFactor, step, j) >= Spaced(minFactor, step, i) + step
    decreases j
  {
    if i + 1 < j {
      SpacedGap(minFactor, step, i, j - 1);
    }
  }

  lemma StepSpansRange(n: nat, minFactor: real, maxFactor: real)
    requires n >= 2
    ensures Step(n, minFactor, maxFactor) * (n - 1) as real == maxFactor - minFactor
    ensures minFactor <= maxFactor ==> Step(n, minFactor, maxFactor) >= 0.0
    ensures minFactor < maxFactor ==> Step(n, minFactor, maxFactor) > 0.0
  {
  }

  /** The last evenly spaced factor is exactly the maximum. */
  lemma SpacedTop(n: nat, minFactor: real, maxFactor: real)
    requires n >= 2
    ensures Spaced(minFactor, Step(n, minFactor, maxFactor), n - 1) == maxFactor
  {
    StepSpansRange(n, minFactor, maxFactor);
    SpacedIsProduct(minFactor, Step(n, minFactor, maxFactor), n - 1);
  }

  /** Linear core: values at least a step apart, each moved by under five per cent of it. */
  lemma ClampedOrder(lo: real, hi: real, step: real, fi: real, ui: real, fj: real, uj: real)
    requires lo <= fi && fj <= hi && step >= 0.0 && fj >= fi + step
    requires fi - step * 0.05 <= ui <= fi + step * 0.05
    requires fj - step * 0.05 <= uj <= fj + step * 0.05
    requires step > 0.0 ==> ui < fi + step * 0.05 && fi + step <= hi && lo + step <= fj
    ensures Clamp(lo, hi, ui) <= Clamp(lo, hi, uj)
    ensures step > 0.0 ==> Clamp(lo, hi, ui) < Clamp(lo, hi, uj)
  {
  }

  /** Two spaced positions keep their order through jitter and clamp. */
  lemma PairOrdered(n: nat, minFactor: real, maxFactor: real, i: nat, j: nat, ri: real, rj: real)
    requires i < j < n && 0.0 <= ri < 1.0 && 0.0 <= rj < 1.0
    requires minFactor <= maxFactor
    ensures JitteredAt(n, minFactor, maxFactor, ri, i) <= JitteredAt(n, minFactor, maxFactor, rj, j)
    ensures minFactor < maxFactor ==>
              JitteredAt(n, minFactor, maxFactor, ri, i) < JitteredAt(n, minFactor, maxFactor, rj, j)
  {
    StepSpansRange(n, minFactor, maxFactor);
    var step := Step(n, minFactor, maxFactor);
    var fi, fj := Spaced(minFactor, step, i), Spaced(minFactor, step, j);
    SpacedGap(minFactor, step, i, j);
    JitterBounds(fi, step, ri);
    JitterBounds(fj, step, rj);
    // Only the last factor can rise above the maximum, only the first fall below the minimum.
    SpacedTop(n, minFactor, maxFactor);
    SpacedGap(minFactor, step, i, n - 1);
    SpacedGap(minFactor, step, 0, j);
    if 0 < i { SpacedGap(minFactor, step, 0, i); }
    if j < n - 1 { SpacedGap(minFactor, step, j, n - 1); }
    ClampedOrder(minFactor, maxFactor, step, fi, Jitter(fi, step, ri), fj, Jitter(fj, step, rj));
  }

  /** A jitter of at most five per cent of the step cannot overtake a neighbour. */
  lemma JitteredSorted(n: nat, minFactor: real, maxFactor: real, rolls: seq<real>)
    requires |rolls| == n && AllRolls(rolls)
    requires minFactor <= maxFactor
    ensures Sorted(Jittered(n, minFactor, maxFactor, rolls))
  {
    var s := Jittered(n, minFactor, maxFactor, rolls);
    forall i, j | 0 <= i < j < n ensures s[i] <= s[j] {
      PairOrdered(n, minFactor, maxFactor, i, j, rolls[i], rolls[j]);
    }
  }

  /** With a real range the jittered factors are pairwise distinct and increasing. */
  lemma JitteredStrictlySorted(n: nat, minFactor: real, maxFactor: real, rolls: seq<real>)
    requires |rolls| == n && AllRolls(rolls)
    requires minFactor < maxFactor
    ensures StrictlySorted(Jittered(n, minFactor, maxFactor, rolls))
  {
    var s := Jittered(n, minFactor, maxFactor, rolls);
    forall i, j | 0 <= i < j < n ensures s[i] < s[j] {
      PairOrdered(n, minFactor, maxFactor, i, j, rolls[i], rolls[j]);
    }
  }

  // ---------------------------------------------------------------------
  // The whole distribution (script.js lines 269-292)
  // ---------------------------------------------------------------------

  method DistributeLengthFactors(n: nat, minFactor: real, maxFactor: real, rolls: seq<real>)
    returns (factors: seq<real>)
    requires |rolls| == n
    ensures factors == Zigzag(SortAscending(Jittered(n, minFactor, maxFactor, rolls)))
    ensures |factors| == n
    ensures multiset(factors) == multiset(Jittered(n, minFactor, maxFactor, rolls))
    ensures forall i :: 0 <= i < n ==> minFactor <= factors[i]
    ensures minFactor <= maxFactor ==> forall i :: 0 <= i < n ==> factors[i] <= maxFactor
    ensures Alternates(factors)
    ensures AllRolls(rolls) && minFactor <= maxFactor ==>
              factors == Zigzag(Jittered(n, minFactor, maxFactor, rolls))
    ensures AllRolls(rolls) && minFactor < maxFactor ==> StrictlyAlternates(factors)
  {
    var step := Step(n, minFactor, maxFactor);
    var spaced: seq<real> := [];
    for i := 0 to n
      invariant |spaced| == i
      invariant forall k :: 0 <= k < i ==> spaced[k] == minFactor + k as real * step
    {
      spaced := spaced + [minFactor + i as real * step];
    }
    var jittered := seq(n, i requires 0 <= i < n => Clamp(minFactor, maxFactor, Jitter(spaced[i], step, rolls[i])));
    forall i | 0 <= i < n ensures jittered[i] == Jittered(n, minFactor, maxFactor, rolls)[i] {
      SpacedIsProduct(minFactor, step, i);
      assert spaced[i] == Spaced(minFactor, step, i);
      assert jittered[i] == Clamp(minFactor, maxFactor, Jitter(spaced[i], step, rolls[i]));
    }
    assert jittered == Jittered(n, minFactor, maxFactor, rolls);
    var sorted := SortAscending(jittered);
    factors := Interleave(sorted);

    ZigzagPermutation(sorted);
    ZigzagAlternates(sorted);
    forall i | 0 <= i < n ensures minFactor <= factors[i] && (minFactor <= maxFactor ==> factors[i] <= maxFactor) {
      assert factors[i] in multiset(jittered);
    }
    if AllRolls(rolls) && minFactor <= maxFactor {
      JitteredSorted(n, minFactor, maxFactor, rolls);
      SortOfSorted(jittered);
      if minFactor < maxFactor {
        JitteredStrictlySorted(n, minFactor, maxFactor, rolls);
        ZigzagStrictlyAlternates(jittered);
      }
    }
  }
}
