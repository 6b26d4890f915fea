/**
 * Colour assignment for the wedges. Two pools, primary and secondary, start
 * as copies of the configured palettes. Each service draws one colour: from
 * the primary pool while it is non-empty, then from the secondary pool, and
 * when both are empty the primary pool is refilled without the colour just
 * used (the secondary pool only when no primary colour is left after that
 * exclusion). Within a pool a colour different from the previous one is
 * preferred, and the drawn colour is removed from its pool.
 *
 * Math.random() is replaced by `rolls`, one value in [0, 1) per service.
 */
module ColourAssignment {

  type Colour = string

  datatype Option<T> = None | Some(value: T)

  /** Mint, the colour used when no other is available. */
  const FallbackColour: Colour := "#75c9b9"

  /** No colour occurs twice. */
  ghost predicate Distinct(s: seq<Colour>) {
    forall c :: multiset(s)[c] <= 1
  }

  ghost predicate AllRolls(rolls: seq<real>) {
    forall k :: 0 <= k < |rolls| ==> 0.0 <= rolls[k] < 1.0
  }

  /** pool.filter(color => color !== lastAssignedColor) */
  function Without(pool: seq<Colour>, last: Option<Colour>): (r: seq<Colour>)
    ensures forall c :: c in r <==> c in pool && Some(c) != last
    ensures forall c :: multiset(r)[c] <= multiset(pool)[c]
  {
    if pool == [] then []
    else
      assert pool == [pool[0]] + pool[1..];
      (if Some(pool[0]) != last then [pool[0]] else []) + Without(pool[1..], last)
  }

  /** Math.floor(Math.random() * length) */
  function PickIndex(roll: real, length: nat): (k: nat)
    requires 0.0 <= roll < 1.0 && length > 0
    ensures k < length
  {
    var scaled := roll * length as real;
    assert 0.0 <= scaled by {
      assert roll * length as real >= 0.0 * length as real;
    }
    assert scaled < length as real by {
      assert (1.0 - roll) * length as real > 0.0;
    }
    scaled.Floor
  }

  /** pool.indexOf(c), for a colour the pool holds: the position of its first occurrence. */
  function IndexOf(pool: seq<Colour>, c: Colour): (k: nat)
    requires c in pool
    ensures k < |pool| && pool[k] == c
    ensures c !in pool[..k]
  {
    if pool[0] == c then 0
    else
      var k := 1 + IndexOf(pool[1..], c);
      assert pool[..k] == [pool[0]] + pool[1..][..k - 1];
      k
  }

  /** pool.splice(k, 1) */
  function RemoveAt(pool: seq<Colour>, k: nat): (r: seq<Colour>)
    requires k < |pool|
    ensures |r| == |pool| - 1
    ensures multiset(r) == multiset(pool) - multiset{pool[k]}
  {
    assert pool == pool[..k] + [pool[k]] + pool[k + 1..];
    pool[..k] + pool[k + 1..]
  }

  /** primaryColors[0] || "#75c9b9" */
  function Fallback(primaryColours: seq<Colour>): Colour {
    if |primaryColours| > 0 && primaryColours[0] != "" then primaryColours[0] else FallbackColour
  }

  /** What the loop carries from one service to the next. */
  datatype Pools = Pools(primary: seq<Colour>, secondary: seq<Colour>, last: Option<Colour>)

  /** Some colour of `colours` differs from `last`. */
  ghost predicate HasOther(colours: seq<Colour>, last: Option<Colour>) {
    exists c :: c in colours && Some(c) != last
  }

  // ---------------------------------------------------------------------
  // What the pools keep true
  // ---------------------------------------------------------------------

  /** Every colour left in a pool comes from that pool's palette. */
  ghost predicate Within(primaryColours: seq<Colour>, secondaryColours: seq<Colour>, p: Pools) {
    && (forall c :: c in p.primary ==> c in primaryColours)
    && (forall c :: c in p.secondary ==> c in secondaryColours)
  }

  /** ... and, for duplicate-free palettes, no pool repeats a colour or holds the last one. */
  ghost predicate PoolsInv(primaryColours: seq<Colour>, secondaryColours: seq<Colour>, p: Pools) {
    && Within(primaryColours, secondaryColours, p)
    && Distinct(p.primary) && Distinct(p.secondary)
    && (p.last.Some? ==> p.last.value !in p.primary && p.last.value !in p.secondary)
  }

  lemma DistinctParts(primaryColours: seq<Colour>, secondaryColours: seq<Colour>)
    requires Distinct(primaryColours + secondaryColours)
    ensures Distinct(primaryColours) && Distinct(secondaryColours)
    ensures forall c :: c in primaryColours ==> c !in secondaryColours
  {
    assert multiset(primaryColours + secondaryColours) == multiset(primaryColours) + multiset(secondaryColours);
    forall c
      ensures multiset(primaryColours)[c] <= 1 && multiset(secondaryColours)[c] <= 1
      ensures c in primaryColours ==> c !in secondaryColours
    {
      assert multiset(primaryColours + secondaryColours)[c] == multiset(primaryColours)[c] + multiset(secondaryColours)[c];
    }
  }

  /** With two or more distinct colours, a refill always has something other than the last colour. */
  lemma RefillHasOther(primaryColours: seq<Colour>, secondaryColours: seq<Colour>, last: Option<Colour>)
    requires Distinct(primaryColours + secondaryColours) && |primaryColours + secondaryColours| >= 2
    ensures HasOther(primaryColours, last) || HasOther(secondaryColours, last)
  {
    var all := primaryColours + secondaryColours;
    var x, y := all[0], all[1];
    assert all == [x, y] + all[2..];
    assert x in primaryColours || x in secondaryColours;
    assert y in primaryColours || y in secondaryColours;
    assert multiset(all) == multiset{x, y} + multiset(all[2..]);
    assert multiset(all)[x] >= multiset{x, y}[x];
    assert x != y;
    assert Some(x) != last || Some(y) != last;
  }

  lemma WithoutDistinct(pool: seq<Colour>, last: Option<Colour>)
    requires Distinct(pool)
    ensures Distinct(Without(pool, last))
  {
    forall x ensures multiset(Without(pool, last))[x] <= 1 {
      assert multiset(Without(pool, last))[x] <= multiset(pool)[x];
    }
  }

  /** Taking one colour out of a pool leaves only pool colours; from a duplicate-free pool, not that colour. */
  lemma RemovalKeeps(pool: seq<Colour>, rest: seq<Colour>, c: Colour)
    requires c in pool && multiset(rest) == multiset(pool) - multiset{c}
    ensures forall x :: x in rest ==> x in pool
    ensures Distinct(pool) ==> Distinct(rest) && c !in rest
  {
    forall x | x in rest ensures x in pool {
      assert multiset(rest)[x] > 0;
    }
    if Distinct(pool) {
      forall x ensures multiset(rest)[x] <= 1 {
        assert multiset(rest)[x] <= multiset(pool)[x];
      }
      assert multiset(rest)[c] == 0;
    }
  }

  // ---------------------------------------------------------------------
  // The assignment loop (script.js lines 295-385)
  // ---------------------------------------------------------------------

  /**
   * Steps 1 and 2 of a draw: the primary pool is drawn while it is non-empty,
   * then the secondary pool; the drawn colour leaves its pool, the other pool
   * is untouched, and a colour other than the last is taken when there is one.
   */
  ghost predicate PoolDrawn(p: Pools, chosen: Colour, next: Pools) {
    && (|p.primary| > 0 ==>
          && chosen in p.primary
          && |next.primary| == |p.primary| - 1
          && multiset(next.primary) == multiset(p.primary) - multiset{chosen}
          && next.secondary == p.secondary
          && (HasOther(p.primary, p.last) ==> Some(chosen) != p.last))
    && (|p.primary| == 0 && |p.secondary| > 0 ==>
          && chosen in p.secondary
          && next.primary == []
          && |next.secondary| == |p.secondary| - 1
          && multiset(next.secondary) == multiset(p.secondary) - multiset{chosen}
          && (HasOther(p.secondary, p.last) ==> Some(chosen) != p.last))
  }

  /**
   * One draw from a non-empty pool (lines 312-328 and 335-351): a colour other
   * than `last` when the pool has one, any colour of the pool otherwise; the
   * first occurrence of the drawn colour leaves the pool.
   */
  method TakeFrom(pool: seq<Colour>, last: Option<Colour>, roll: real) returns (chosen: Colour, rest: seq<Colour>)
    requires |pool| > 0 && 0.0 <= roll < 1.0
    ensures chosen in pool
    ensures |rest| == |pool| - 1 && multiset(rest) == multiset(pool) - multiset{chosen}
    ensures HasOther(pool, last) ==> Some(chosen) != last
    ensures forall x :: x in rest ==> x in pool
    ensures Distinct(pool) ==> Distinct(rest) && chosen !in rest
  {
    var nonAdjacent := Without(pool, last);
    if |nonAdjacent| > 0 {
      chosen := nonAdjacent[PickIndex(roll, |nonAdjacent|)];
    } else {
      chosen := pool[PickIndex(roll, |pool|)];
    }
    rest := RemoveAt(pool, IndexOf(pool, chosen));
    RemovalKeeps(pool, rest, chosen);
  }

  /** A refilled pool is drawn at a random index, which is then spliced out (lines 364-367 and 375-377). */
  method PickAndRemove(pool: seq<Colour>, roll: real) returns (chosen: Colour, rest: seq<Colour>)
    requires |pool| > 0 && 0.0 <= roll < 1.0
    ensures chosen in pool
    ensures |rest| == |pool| - 1 && multiset(rest) == multiset(pool) - multiset{chosen}
    ensures forall x :: x in rest ==> x in pool
    ensures Distinct(pool) ==> Distinct(rest) && chosen !in rest
  {
    var k := PickIndex(roll, |pool|);
    chosen := pool[k];
    rest := RemoveAt(pool, k);
    RemovalKeeps(pool, rest, chosen);
  }

  /**
   * Step 3 of a draw, after both pools ran empty: the primary palette without
   * the last colour is drawn from and the secondary pool stays empty; when the
   * primary palette has no other colour, the secondary palette is used the
   * same way and the primary pool stays empty; when neither has one, the
   * fallback colour is used and both pools stay empty.
   */
  ghost predicate Refilled(primaryColours: seq<Colour>, secondaryColours: seq<Colour>, last: Option<Colour>,
                           chosen: Colour, next: Pools) {
    && (HasOther(primaryColours, last) ==>
          && chosen in primaryColours && Some(chosen) != last
          && multiset(next.primary) == multiset(Without(primaryColours, last)) - multiset{chosen}
          && next.secondary == [])
    && (!HasOther(primaryColours, last) && HasOther(secondaryColours, last) ==>
          && chosen in secondaryColours && Some(chosen) != last
          && next.primary == []
          && multiset(next.secondary) == multiset(Without(secondaryColours, last)) - multiset{chosen})
    && (!HasOther(primaryColours, last) && !HasOther(secondaryColours, last) ==>
          chosen == Fallback(primaryColours) && next.primary == [] && next.secondary == [])
  }

  /** One pass of the loop body: the colour for this service and the pools for the next. */
  method DrawColour(primaryColours: seq<Colour>, secondaryColours: seq<Colour>, p: Pools, roll: real)
    returns (chosen: Colour, next: Pools)
    requires 0.0 <= roll < 1.0
    ensures next.last == Some(chosen)
    ensures PoolDrawn(p, chosen, next)
    // step 3: both empty, a refill
    ensures |p.primary| == 0 && |p.secondary| == 0 ==> Refilled(primaryColours, secondaryColours, p.last, chosen, next)
    // the pools only ever hold palette colours
    ensures Within(primaryColours, secondaryColours, p) ==>
              && Within(primaryColours, secondaryColours, next)
              && (chosen in primaryColours || chosen in secondaryColours || chosen == Fallback(primaryColours))
    // with two or more distinct colours the last colour is never drawn again straight away
    ensures Distinct(primaryColours + secondaryColours) && |primaryColours + secondaryColours| >= 2
            && PoolsInv(primaryColours, secondaryColours, p) ==>
              Some(chosen) != p.last && PoolsInv(primaryColours, secondaryColours, next)
  {
    if Distinct(primaryColours + secondaryColours) {
      DistinctParts(primaryColours, secondaryColours);
    }
    if |p.primary| > 0 {
      var rest;
      chosen, rest := TakeFrom(p.primary, p.last, roll);
      next := Pools(rest, p.secondary, Some(chosen));
      if PoolsInv(primaryColours, secondaryColours, p) {
        assert p.primary[0] in p.primary;
      }
    } else if |p.secondary| > 0 {
      var rest;
      chosen, rest := TakeFrom(p.secondary, p.last, roll);
      next := Pools(p.primary, rest, Some(chosen));
      if PoolsInv(primaryColours, secondaryColours, p) {
        assert p.secondary[0] in p.secondary;
      }
    } else {
      chosen, next := Refill(primaryColours, secondaryColours, p.last, roll);
    }
  }

  /**
   * Both pools are empty: the primary pool is refilled without the last colour
   * and drawn from; when that leaves nothing the secondary pool is; when that
   * leaves nothing either, the first primary colour (or mint) is used.
   */
  method Refill(primaryColours: seq<Colour>, secondaryColours: seq<Colour>, last: Option<Colour>, roll: real)
    returns (chosen: Colour, next: Pools)
    requires 0.0 <= roll < 1.0
    ensures next.last == Some(chosen)
    ensures Refilled(primaryColours, secondaryColours, last, chosen, next)
    ensures Within(primaryColours, secondaryColours, next)
    ensures Distinct(primaryColours + secondaryColours) && |primaryColours + secondaryColours| >= 2 ==>
              Some(chosen) != last && PoolsInv(primaryColours, secondaryColours, next)
  {
    if Distinct(primaryColours + secondaryColours) && |primaryColours + secondaryColours| >= 2 {
      DistinctParts(primaryColours, secondaryColours);
      RefillHasOther(primaryColours, secondaryColours, last);
    }
    var refilledPrimary := Without(primaryColours, last);
    if Distinct(primaryColours + secondaryColours) {
      WithoutDistinct(primaryColours, last);
      WithoutDistinct(secondaryColours, last);
    }
    if |refilledPrimary| > 0 {
      var rest;
      chosen, rest := PickAndRemove(refilledPrimary, roll);
      next := Pools(rest, [], Some(chosen));
    } else {
      assert !HasOther(primaryColours, last);
      var refilledSecondary := Without(secondaryColours, last);
      if |refilledSecondary| > 0 {
        var rest;
        chosen, rest := PickAndRemove(refilledSecondary, roll);
        next := Pools(refilledPrimary, rest, Some(chosen));
      } else {
        assert !HasOther(secondaryColours, last);
        chosen := Fallback(primaryColours);
        next := Pools(refilledPrimary, refilledSecondary, Some(chosen));
      }
    }
  }

  /**
   * The colour of every wedge. The first |primaryColours| wedges use every
   * primary colour once, the next |secondaryColours| every secondary colour
   * once, and with at least two distinct colours no two neighbours match.
   */
  method AssignColours(primaryColours: seq<Colour>, secondaryColours: seq<Colour>, rolls: seq<real>)
    returns (wedgeColours: seq<Colour>)
    requires AllRolls(rolls)
    ensures |wedgeColours| == |rolls|
    ensures forall k :: 0 <= k < |wedgeColours| ==>
              wedgeColours[k] in primaryColours || wedgeColours[k] in secondaryColours
              || wedgeColours[k] == Fallback(primaryColours)
    ensures |rolls| >= |primaryColours| ==> multiset(wedgeColours[..|primaryColours|]) == multiset(primaryColours)
    ensures |rolls| >= |primaryColours| + |secondaryColours| ==>
              multiset(wedgeColours[|primaryColours|..|primaryColours| + |secondaryColours|]) == multiset(secondaryColours)
    ensures Distinct(primaryColours + secondaryColours) && |primaryColours + secondaryColours| >= 2 ==>
              forall k :: 0 < k < |wedgeColours| ==> wedgeColours[k] != wedgeColours[k - 1]
  {
    ghost var apart := Distinct(primaryColours + secondaryColours) && |primaryColours + secondaryColours| >= 2;
    if apart {
      DistinctParts(primaryColours, secondaryColours);
    }
    var pools := Pools(primaryColours, secondaryColours, None);
    wedgeColours := [];
    for i := 0 to |rolls|
      invariant |wedgeColours| == i
      invariant pools.last == if i == 0 then None else Some(wedgeColours[i - 1])
      invariant Within(primaryColours, secondaryColours, pools)
      invariant FromPalettes(primaryColours, secondaryColours, wedgeColours)
      invariant Drained(primaryColours, secondaryColours, wedgeColours, pools)
      invariant apart ==> PoolsInv(primaryColours, secondaryColours, pools) && NeighboursDiffer(wedgeColours)
    {
      var chosen, next := DrawColour(primaryColours, secondaryColours, pools, rolls[i]);
      DrainedStep(primaryColours, secondaryColours, wedgeColours, chosen, pools, next);
      FromPalettesStep(primaryColours, secondaryColours, wedgeColours, chosen);
      if apart {
        NeighboursDifferStep(wedgeColours, chosen);
      }
      wedgeColours := wedgeColours + [chosen];
      pools := next;
    }
    DrainedEnd(primaryColours, secondaryColours, wedgeColours, pools);
  }

  // ---------------------------------------------------------------------
  // Loop invariants of AssignColours, one step at a time
  // ---------------------------------------------------------------------

  ghost predicate FromPalettes(primaryColours: seq<Colour>, secondaryColours: seq<Colour>, drawn: seq<Colour>) {
    forall k :: 0 <= k < |drawn| ==>
      drawn[k] in primaryColours || drawn[k] in secondaryColours || drawn[k] == Fallback(primaryColours)
  }

  ghost predicate NeighboursDiffer(drawn: seq<Colour>) {
    forall k :: 0 < k < |drawn| ==> drawn[k] != drawn[k - 1]
  }

  /**
   * The first |primaryColours| draws empty the primary pool and the next
   * |secondaryColours| the secondary one: drawn and left over make up the palette.
   */
  ghost predicate Drained(primaryColours: seq<Colour>, secondaryColours: seq<Colour>, drawn: seq<Colour>, p: Pools) {
    var m, n, i := |primaryColours|, |secondaryColours|, |drawn|;
    && (i <= m ==>
          && |p.primary| == m - i && p.secondary == secondaryColours
          && multiset(p.primary) + multiset(drawn) == multiset(primaryColours))
    && (m <= i <= m + n ==>
          && |p.primary| == 0 && |p.secondary| == m + n - i
          && multiset(p.secondary) + multiset(drawn[m..]) == multiset(secondaryColours))
    && (m <= i ==> multiset(drawn[..m]) == multiset(primaryColours))
    && (m + n <= i ==> multiset(drawn[m..m + n]) == multiset(secondaryColours))
  }

  lemma FromPalettesStep(primaryColours: seq<Colour>, secondaryColours: seq<Colour>, drawn: seq<Colour>, c: Colour)
    requires FromPalettes(primaryColours, secondaryColours, drawn)
    requires c in primaryColours || c in secondaryColours || c == Fallback(primaryColours)
    ensures FromPalettes(primaryColours, secondaryColours, drawn + [c])
  {
  }

  lemma NeighboursDifferStep(drawn: seq<Colour>, c: Colour)
    requires NeighboursDiffer(drawn) && (|drawn| > 0 ==> c != drawn[|drawn| - 1])
    ensures NeighboursDiffer(drawn + [c])
  {
  }

  lemma DrainedStep(primaryColours: seq<Colour>, secondaryColours: seq<Colour>, drawn: seq<Colour>, c: Colour, p: Pools, next: Pools)
    requires Drained(primaryColours, secondaryColours, drawn, p)
    requires PoolDrawn(p, c, next)
    ensures Drained(primaryColours, secondaryColours, drawn + [c], next)
  {
    var m, n, i := |primaryColours|, |secondaryColours|, |drawn|;
    if i < m {
      DrainedPrimaryStep(primaryColours, secondaryColours, drawn, c, p, next);
    } else if i < m + n {
      DrainedSecondaryStep(primaryColours, secondaryColours, drawn, c, p, next);
    } else {
      AppendSlices(drawn, c, m, n);
    }
  }

  lemma DrainedPrimaryStep(primaryColours: seq<Colour>, secondaryColours: seq<Colour>, drawn: seq<Colour>, c: Colour, p: Pools, next: Pools)
    requires |drawn| < |primaryColours|
    requires Drained(primaryColours, secondaryColours, drawn, p)
    requires PoolDrawn(p, c, next)
    ensures Drained(primaryColours, secondaryColours, drawn + [c], next)
  {
    var m, after := |primaryColours|, drawn + [c];
    MoveToDrawn(drawn, c, 0, p.primary, next.primary);
    AppendSlices(drawn, c, 0, 0);
    if |after| == m {
      assert after[..m] == after && after[m..] == [];
    }
  }

  lemma DrainedSecondaryStep(primaryColours: seq<Colour>, secondaryColours: seq<Colour>, drawn: seq<Colour>, c: Colour, p: Pools, next: Pools)
    requires |primaryColours| <= |drawn| < |primaryColours| + |secondaryColours|
    requires Drained(primaryColours, secondaryColours, drawn, p)
    requires PoolDrawn(p, c, next)
    ensures Drained(primaryColours, secondaryColours, drawn + [c], next)
  {
    var m, n := |primaryColours|, |secondaryColours|;
    MoveToDrawn(drawn, c, m, p.secondary, next.secondary);
    AppendSlices(drawn, c, m, 0);
    if |drawn| + 1 == m + n {
      AppendSlices(drawn, c, m, n);
    }
  }

  lemma DrainedEnd(primaryColours: seq<Colour>, secondaryColours: seq<Colour>, drawn: seq<Colour>, p: Pools)
    requires Drained(primaryColours, secondaryColours, drawn, p)
    ensures |drawn| >= |primaryColours| ==> multiset(drawn[..|primaryColours|]) == multiset(primaryColours)
    ensures |drawn| >= |primaryColours| + |secondaryColours| ==>
              multiset(drawn[|primaryColours|..|primaryColours| + |secondaryColours|]) == multiset(secondaryColours)
  {
  }

  /** Appending one colour leaves every window of the old sequence alone. */
  lemma AppendSlices(s: seq<Colour>, c: Colour, m: nat, n: nat)
    requires m <= |s|
    ensures (s + [c])[..m] == s[..m]
    ensures (s + [c])[0..] == s + [c] && s[0..] == s
    ensures m + n <= |s| ==> (s + [c])[m..m + n] == s[m..m + n]
    ensures m + n == |s| + 1 ==> (s + [c])[m..m + n] == (s + [c])[m..]
  {
  }

  /** Moving the drawn colour from the pool to the end of the drawn colours keeps their union. */
  lemma MoveToDrawn(drawn: seq<Colour>, c: Colour, from: nat, pool: seq<Colour>, left: seq<Colour>)
    requires from <= |drawn| && c in pool && multiset(left) == multiset(pool) - multiset{c}
    ensures multiset(left) + multiset((drawn + [c])[from..]) == multiset(pool) + multiset(drawn[from..])
  {
    assert (drawn + [c])[from..] == drawn[from..] + [c];
  }
}
