/**
 * A garden cell: a stack of planted vegetables and two flags, fertilizer and
 * grass, changed by four commands. `CellState` is the cell's abstract value;
 * the functions on it specify the commands, which `Cell` carries out in place.
 */
module Cells {
  import opened Options
  import opened Vegetables

  /** The abstract value of a cell. */
  datatype CellState = CellState(veggies: seq<Vegetable>, fertilizer: bool, grass: bool)

  /** A cell with nothing on it: the state of every cell when the grid is built. */
  const Empty := CellState([], false, false)

  /** No object occurs twice in `s`. */
  predicate Distinct<T(==)>(s: seq<T>) {
    forall i, j :: 0 <= i < j < |s| ==> s[i] != s[j]
  }

  /**
   * `List.remove(Object)`: drops the first element identical to `x`, and
   * leaves the list alone when `x` is not in it.
   */
  function RemoveFirst<T(==)>(s: seq<T>, x: T): (r: seq<T>)
    ensures x in s ==> |r| == |s| - 1
    ensures x !in s ==> r == s
  {
    if s == [] then []
    else if s[0] == x then s[1..]
    else [s[0]] + RemoveFirst(s[1..], x)
  }

  /** `RemoveFirst` takes away exactly one copy of `x` when there is one, and nothing else. */
  lemma {:induction false} RemoveFirstMultiset<T>(s: seq<T>, x: T)
    ensures multiset(RemoveFirst(s, x)) == multiset(s) - multiset{x}
  {
    if s != [] {
      assert s == [s[0]] + s[1..];
      if s[0] != x {
        RemoveFirstMultiset(s[1..], x);
        assert RemoveFirst(s, x) == [s[0]] + RemoveFirst(s[1..], x);
      }
    }
  }

  /**
   * Removing the first occurrence of the last element drops the top of the
   * stack when no vegetable occurs twice.
   */
  lemma {:induction false} RemoveFirstOfLast<T>(s: seq<T>)
    requires |s| > 0 && Distinct(s)
    ensures RemoveFirst(s, s[|s| - 1]) == s[..|s| - 1]
  {
    if |s| > 1 {
      assert s[0] != s[|s| - 1];
      var t := s[1..];
      assert Distinct(t) by {
        forall i, j | 0 <= i < j < |t| ensures t[i] != t[j] {
          assert t[i] == s[i + 1] && t[j] == s[j + 1];
        }
      }
      RemoveFirstOfLast(t);
      assert t[|t| - 1] == s[|s| - 1];
      assert [s[0]] + t[..|t| - 1] == s[..|s| - 1];
    }
  }

  /** `RemoveFirst` takes out the first occurrence of `x`, wherever it is, and keeps the rest in order. */
  lemma {:induction false} RemoveFirstAt<T>(s: seq<T>, x: T, i: int)
    requires 0 <= i < |s| && s[i] == x && x !in s[..i]
    ensures RemoveFirst(s, x) == s[..i] + s[i + 1..]
  {
    if i > 0 {
      assert s[0] == s[..i][0];
      assert s[..i] == [s[0]] + s[1..][..i - 1];
      assert x !in s[1..][..i - 1];
      RemoveFirstAt(s[1..], x, i - 1);
      assert s[1..][i..] == s[i + 1..];
    }
  }

  /** With a repeated object, the earlier copy is the one removed. */
  lemma RemoveFirstOfRepeated<T>(a: T, b: T)
    requires a != b
    ensures RemoveFirst([a, b, a], a) == [b, a] != [a, b]
  {
    RemoveFirstAt([a, b, a], a, 0);
  }

  /** A prefix of a list without repetitions has none either. */
  lemma PrefixDistinct<T>(s: seq<T>, n: nat)
    requires n <= |s| && Distinct(s)
    ensures Distinct(s[..n])
  {
    forall i, j | 0 <= i < j < n ensures s[..n][i] != s[..n][j] {
      assert s[..n][i] == s[i] && s[..n][j] == s[j];
    }
  }

  /** Pushing an object that is not in the list keeps it free of repetitions. */
  lemma AppendDistinct<T>(s: seq<T>, x: T)
    requires Distinct(s) && x !in s
    ensures Distinct(s + [x])
  {
    forall i, j | 0 <= i < j < |s| + 1 ensures (s + [x])[i] != (s + [x])[j] {
      if j == |s| {
        assert (s + [x])[i] == s[i] && s[i] in s;
      }
    }
  }

  /** The vegetable the view shows: the last one planted (`getLastVegetable`). */
  function LastVegetable(veggies: seq<Vegetable>): (r: Option<Vegetable>)
    ensures r.None? <==> veggies == []
    ensures r.Some? ==> r.value == veggies[|veggies| - 1]
  {
    if veggies == [] then None else Some(veggies[|veggies| - 1])
  }

  /** `addVegetable`: the vegetable is pushed on top; the flags stay. */
  function Plant(s: CellState, v: Vegetable): (r: CellState) {
    s.(veggies := s.veggies + [v])
  }

  /** `applyFertilizer`. */
  function Fertilize(s: CellState): (r: CellState) {
    s.(fertilizer := true)
  }

  /** `applyGrass`. */
  function AddGrass(s: CellState): (r: CellState) {
    s.(grass := true)
  }

  /**
   * `remove`, the harvest command: the top vegetable if there is one, else the
   * fertilizer, else the grass, else nothing.
   */
  function Harvest(s: CellState): (r: CellState) {
    if s.veggies != [] then s.(veggies := RemoveFirst(s.veggies, s.veggies[|s.veggies| - 1]))
    else if s.fertilizer then s.(fertilizer := false)
    else if s.grass then s.(grass := false)
    else s
  }

  /** The four commands of a cell, named after the methods of `Cell` that carry them out. */
  datatype Command = AddVegetable(veg: Vegetable) | ApplyFertilizer | ApplyGrass | Remove

  /** The state a command leaves the cell in. */
  function Apply(s: CellState, cmd: Command): (r: CellState) {
    match cmd
    case AddVegetable(v) => Plant(s, v)
    case ApplyFertilizer => Fertilize(s)
    case ApplyGrass => AddGrass(s)
    case Remove => Harvest(s)
  }

  /** A command fires the change notification unless it is a harvest of an empty cell. */
  predicate Notifies(s: CellState, cmd: Command) {
    !(cmd.Remove? && s == Empty)
  }

  /**
   * Every command that changes the cell fires the notification, and a harvest
   * fires it exactly when it changes the cell. The other commands fire it even
   * when they change nothing (fertilizer or grass applied a second time).
   */
  lemma NotifiesWhenChanged(s: CellState, cmd: Command)
    ensures Apply(s, cmd) != s ==> Notifies(s, cmd)
    ensures cmd.Remove? ==> (Notifies(s, cmd) <==> Apply(s, cmd) != s)
    ensures !cmd.Remove? ==> Notifies(s, cmd)
  {
    if cmd.Remove? && s.veggies != [] {
      assert |Harvest(s).veggies| == |s.veggies| - 1 by {
        assert s.veggies[|s.veggies| - 1] in s.veggies;
      }
    }
  }

  /** When the list has no repeated vegetable, harvesting a non-empty cell pops its top and keeps both flags. */
  lemma {:induction false} HarvestPopsTop(s: CellState)
    requires s.veggies != [] && Distinct(s.veggies)
    ensures Harvest(s) == CellState(s.veggies[..|s.veggies| - 1], s.fertilizer, s.grass)
    ensures Distinct(Harvest(s).veggies)
  {
    RemoveFirstOfLast(s.veggies);
    PrefixDistinct(s.veggies, |s.veggies| - 1);
  }

  /**
   * The vegetable the view shows after each command, on a list without
   * repetitions: a plant shows the new vegetable, fertilizer and grass keep
   * the one shown, and a harvest shows the one below the top, or none when
   * at most one was planted.
   */
  lemma {:induction false} CurrentAfter(s: CellState, cmd: Command)
    requires Distinct(s.veggies)
    ensures cmd.AddVegetable? ==> LastVegetable(Apply(s, cmd).veggies) == Some(cmd.veg)
    ensures cmd.ApplyFertilizer? || cmd.ApplyGrass? ==>
      LastVegetable(Apply(s, cmd).veggies) == LastVegetable(s.veggies)
    ensures cmd.Remove? && |s.veggies| >= 2 ==>
      LastVegetable(Apply(s, cmd).veggies) == Some(s.veggies[|s.veggies| - 2])
    ensures cmd.Remove? && |s.veggies| <= 1 ==> LastVegetable(Apply(s, cmd).veggies) == None
  {
    if cmd.Remove? && s.veggies != [] {
      HarvestPopsTop(s);
    }
  }

  /** Harvest undoes a plant of a vegetable not already on the cell. */
  lemma {:induction false} HarvestUndoesPlant(s: CellState, v: Vegetable)
    requires v !in s.veggies
    ensures Harvest(Plant(s, v)) == s
    ensures LastVegetable(Plant(s, v).veggies) == Some(v)
  {
    RemoveFirstAppended(s.veggies, v);
  }

  lemma {:induction false} RemoveFirstAppended<T>(s: seq<T>, x: T)
    requires x !in s
    ensures RemoveFirst(s + [x], x) == s
  {
    if s != [] {
      assert (s + [x])[0] == s[0] && (s + [x])[1..] == s[1..] + [x];
      RemoveFirstAppended(s[1..], x);
    }
  }

  /** One grid square: the source's `Cell`. */
  class Cell {
    var veggieList: seq<Vegetable>
    var fertilizerAdded: bool
    var appliedGrass: bool

    constructor ()
      ensures State() == Empty
    {
      veggieList := [];
      fertilizerAdded := false;
      appliedGrass := false;
    }

    function State(): (r: CellState)
      reads this
    {
      CellState(veggieList, fertilizerAdded, appliedGrass)
    }

    /** `addVegetable`; `changed` is the change notification, which always fires. */
    method AddVegetable(veg: Vegetable) returns (changed: bool)
      modifies this
      ensures veggieList == old(veggieList) + [veg]
      ensures fertilizerAdded == old(fertilizerAdded) && appliedGrass == old(appliedGrass)
      ensures State() == Plant(old(State()), veg)
      ensures changed
    {
      veggieList := veggieList + [veg];
      changed := true;
    }

    method ApplyFertilizer() returns (changed: bool)
      modifies this
      ensures fertilizerAdded
      ensures veggieList == old(veggieList) && appliedGrass == old(appliedGrass)
      ensures State() == Fertilize(old(State()))
      ensures changed
    {
      fertilizerAdded := true;
      changed := true;
    }

    method ApplyGrass() returns (changed: bool)
      modifies this
      ensures appliedGrass
      ensures veggieList == old(veggieList) && fertilizerAdded == old(fertilizerAdded)
      ensures State() == AddGrass(old(State()))
      ensures changed
    {
      appliedGrass := true;
      changed := true;
    }

    /**
     * `remove`: takes off one thing in the fixed order vegetable, fertilizer,
     * grass. The change notification fires unless the cell was already empty.
     */
    method Remove() returns (changed: bool)
      modifies this
      ensures State() == Harvest(old(State()))
      ensures changed <==> old(State()) != Empty
      ensures old(veggieList) != [] && Distinct(old(veggieList)) ==>
        veggieList == old(veggieList)[..|old(veggieList)| - 1] &&
        fertilizerAdded == old(fertilizerAdded) && appliedGrass == old(appliedGrass)
      ensures old(veggieList) == [] && old(fertilizerAdded) ==>
        veggieList == [] && !fertilizerAdded && appliedGrass == old(appliedGrass)
      ensures old(veggieList) == [] && !old(fertilizerAdded) ==>
        veggieList == [] && !fertilizerAdded && !appliedGrass
    {
      if veggieList != [] {
        if Distinct(veggieList) {
          RemoveFirstOfLast(veggieList);
        }
        veggieList := RemoveFirst(veggieList, veggieList[|veggieList| - 1]);
        changed := true;
      } else if fertilizerAdded {
        fertilizerAdded := false;
        changed := true;
      } else if appliedGrass {
        appliedGrass := false;
        changed := true;
      } else {
        changed := false;
      }
    }
  }
}
