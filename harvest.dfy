/**
 * Repeated harvests. Pressing R over and over takes every vegetable off the
 * cell, most recent first, then the fertilizer, then the grass, and after that
 * does nothing.
 */
module Harvesting {
  import opened Vegetables
  import opened Cells

  /** What one harvest takes off the cell. */
  datatype Yield = Crop(v: Vegetable) | Fertilizer | Grass | Nothing

  /** What `remove` takes off a cell in state `s`. */
  function Take(s: CellState): (y: Yield) {
    if s.veggies != [] then Crop(s.veggies[|s.veggies| - 1])
    else if s.fertilizer then Fertilizer
    else if s.grass then Grass
    else Nothing
  }

  /** The state after `n` harvests. */
  function Harvests(s: CellState, n: nat): (r: CellState)
    decreases n
  {
    if n == 0 then s else Harvests(Harvest(s), n - 1)
  }

  /** What each of `n` harvests takes off, in order. */
  function Harvested(s: CellState, n: nat): (ys: seq<Yield>) {
    seq(n, i requires 0 <= i => Take(Harvests(s, i)))
  }

  /** How many harvests change the cell: one per vegetable and one per flag set. */
  function Pending(s: CellState): (n: nat) {
    |s.veggies| + (if s.fertilizer then 1 else 0) + (if s.grass then 1 else 0)
  }

  /** The vegetables of a stack, top first. */
  function TopFirst(veggies: seq<Vegetable>): (ys: seq<Yield>)
    decreases |veggies|
  {
    if veggies == [] then [] else [Crop(veggies[|veggies| - 1])] + TopFirst(veggies[..|veggies| - 1])
  }

  /** A harvest changes the cell exactly when something is left on it, and then there is one thing less. */
  lemma HarvestStep(s: CellState)
    ensures Pending(s) == 0 <==> s == Empty
    ensures (Harvest(s) == s) <==> s == Empty
    ensures s != Empty ==> Pending(Harvest(s)) == Pending(s) - 1
    ensures (Take(s) == Nothing) <==> s == Empty
  {
    if s.veggies != [] {
      var top := s.veggies[|s.veggies| - 1];
      assert top in s.veggies;
      assert |Harvest(s).veggies| == |s.veggies| - 1;
    }
  }

  /** `Pending(s)` harvests leave the cell empty with both flags false. */
  lemma {:induction false} HarvestsClearCell(s: CellState)
    ensures Harvests(s, Pending(s)) == Empty
    decreases Pending(s)
  {
    HarvestStep(s);
    if Pending(s) > 0 {
      HarvestsClearCell(Harvest(s));
    }
  }

  /** Harvesting an empty cell never changes it and takes nothing. */
  lemma {:induction false} EmptyStaysEmpty(n: nat)
    ensures Harvests(Empty, n) == Empty
    ensures Harvested(Empty, n) == seq(n, _ => Nothing)
    decreases n
  {
    HarvestStep(Empty);
    if n > 0 {
      EmptyStaysEmpty(n - 1);
      forall i | 0 <= i < n
        ensures Harvests(Empty, i) == Empty
      {
        EmptyStaysEmpty(i);
      }
    }
  }

  /** `m + n` harvests are `m` harvests followed by `n` more. */
  lemma {:induction false} HarvestsSplit(s: CellState, m: nat, n: nat)
    ensures Harvests(s, m + n) == Harvests(Harvests(s, m), n)
    decreases m
  {
    if m > 0 {
      HarvestsSplit(Harvest(s), m - 1, n);
      assert Harvests(s, m + n) == Harvests(Harvest(s), (m - 1) + n);
    }
  }

  /** The first of `n` harvests takes `Take(s)`; the others are the harvests of what it leaves. */
  lemma HarvestedCons(s: CellState, n: nat)
    requires n > 0
    ensures Harvested(s, n) == [Take(s)] + Harvested(Harvest(s), n - 1)
  {
    forall i | 1 <= i < n
      ensures Harvests(s, i) == Harvests(Harvest(s), i - 1)
    {
    }
  }

  /**
   * From any cell, `Pending(s)` harvests clear it, and every harvest after
   * that takes nothing and changes nothing.
   */
  lemma HarvestThenIdle(s: CellState, k: nat)
    ensures Harvests(s, Pending(s) + k) == Empty
    ensures Harvested(s, Pending(s) + k) == Harvested(s, Pending(s)) + seq(k, _ => Nothing)
  {
    var p := Pending(s);
    HarvestsSplit(s, p, k);
    HarvestsClearCell(s);
    EmptyStaysEmpty(k);
    forall i | p <= i < p + k
      ensures Harvests(s, i) == Empty
    {
      HarvestsSplit(s, p, i - p);
      EmptyStaysEmpty(i - p);
    }
  }

  /** The flags a full harvest takes after the vegetables: fertilizer first, then grass. */
  function Flags(s: CellState): (ys: seq<Yield>) {
    (if s.fertilizer then [Fertilizer] else []) + (if s.grass then [Grass] else [])
  }

  /**
   * The order of a full harvest: the vegetables most recent first, then the
   * fertilizer if it was set, then the grass if it was set.
   */
  lemma {:induction false} HarvestOrder(s: CellState)
    requires Distinct(s.veggies)
    ensures Harvested(s, Pending(s)) == TopFirst(s.veggies) + Flags(s)
    decreases |s.veggies|
  {
    if s.veggies != [] {
      var t := CellState(s.veggies[..|s.veggies| - 1], s.fertilizer, s.grass);
      var top := [Crop(s.veggies[|s.veggies| - 1])];
      HarvestedPop(s);
      HarvestOrder(t);
      assert top + (TopFirst(t.veggies) + Flags(t)) == (top + TopFirst(t.veggies)) + Flags(t);
    } else {
      FlagsOrder(s);
    }
  }

  /**
   * The first harvest of a full harvest takes the top vegetable; the rest
   * are the full harvest of the stack below it.
   */
  lemma HarvestedPop(s: CellState)
    requires s.veggies != [] && Distinct(s.veggies)
    ensures var t := CellState(s.veggies[..|s.veggies| - 1], s.fertilizer, s.grass);
      Distinct(t.veggies) && Pending(t) == Pending(s) - 1 && Flags(t) == Flags(s) &&
      TopFirst(s.veggies) == [Crop(s.veggies[|s.veggies| - 1])] + TopFirst(t.veggies) &&
      Harvested(s, Pending(s)) == [Crop(s.veggies[|s.veggies| - 1])] + Harvested(t, Pending(t))
  {
    HarvestPopsTop(s);
    HarvestedCons(s, Pending(s));
  }

  /** With no vegetable left, a full harvest takes the fertilizer before the grass. */
  lemma FlagsOrder(s: CellState)
    requires s.veggies == []
    ensures Harvested(s, Pending(s)) == Flags(s)
  {
    var t := Harvest(s);
    if s.fertilizer && s.grass {
      HarvestedCons(s, 2);
      HarvestedCons(t, 1);
    } else if s.fertilizer || s.grass {
      HarvestedCons(s, 1);
    }
  }
}
