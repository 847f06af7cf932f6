/**
 * The veggie patch: the cursor, the cells of the grid, the key handler that
 * routes commands to the cell under the cursor, and the ripening timers that
 * have been armed and not yet fired.
 */
module Patch {
  import opened Options
  import opened Vegetables
  import opened Cells
  import opened ViewModels
  import opened Grid

  /** The keys the handler reacts to; every other key is ignored. */
  datatype KeyCode = Arrow(dir: Direction) | G | C | T | F | R | Other

  /** `after` is `before` with one more vegetable, of kind `kind`, on top. */
  predicate PlantedOn(before: CellState, after: CellState, kind: Kind) {
    |after.veggies| > 0 &&
    after == Plant(before, after.veggies[|after.veggies| - 1]) &&
    after.veggies[|after.veggies| - 1].kind == kind
  }

  /** There is a cell for every square of the grid and for nothing else. */
  ghost predicate Covers(cells: map<Coord, Cell>) {
    forall c :: c in cells <==> InGrid(c)
  }

  /** Distinct squares hold distinct cells. */
  ghost predicate Injective(cells: map<Coord, Cell>) {
    forall c, d :: c in cells && d in cells && c != d ==> cells[c] != cells[d]
  }

  /** Every cell has a view model listening to it. */
  ghost predicate Linked(cells: map<Coord, Cell>, views: map<Coord, CellViewModel>) {
    forall c :: c in cells ==> c in views && views[c].cell == cells[c]
  }

  /**
   * What holds of a cell and its view model between commands: no vegetable
   * is planted twice, and the view listening to the cell is in sync with it.
   */
  ghost predicate Sound(cell: Cell, view: CellViewModel)
    reads cell, view
  {
    view.cell == cell && Distinct(cell.veggieList) && view.Synced()
  }

  /** The cell map holds the columns before `i` and the first `j` rows of column `i`. */
  ghost predicate Filled<V>(cells: map<Coord, V>, i: int, j: int) {
    (forall c :: c in cells ==> (0 <= c.0 < i && 0 <= c.1 < ROWS) || (c.0 == i && 0 <= c.1 < j)) &&
    (forall a, b :: (0 <= a < i && 0 <= b < ROWS) || (a == i && 0 <= b < j) ==> (a, b) in cells)
  }

  /** A cell as the grid is built: empty, its view showing nothing. */
  ghost predicate Blank(cell: Cell, view: CellViewModel)
    reads cell, view
  {
    cell.State() == Empty && view.cell == cell && view.currentVegetable == None &&
    view.currentVegetableStatus == None && !view.appliedGrass && !view.fertilizerInUse
  }

  /**
   * The grid as `buildBase` has built it up to square `(i, j)`: the squares
   * before it are filled with distinct blank cells in `repr`, each with its
   * view model.
   */
  ghost predicate Partial(cells: map<Coord, Cell>, views: map<Coord, CellViewModel>, repr: set<object>, i: int, j: int)
    reads repr
  {
    Filled(cells, i, j) && Injective(cells) && Linked(cells, views) &&
    forall c :: c in cells ==> c in views && cells[c] in repr && views[c] in repr && Blank(cells[c], views[c])
  }

  /** Adding a new blank cell and its view model at the next square of column `i`. */
  lemma Grow(cells: map<Coord, Cell>, views: map<Coord, CellViewModel>, repr: set<object>,
             i: int, j: int, cell: Cell, view: CellViewModel)
    requires Partial(cells, views, repr, i, j) && 0 <= j
    requires cell !in repr && view.cell == cell && Blank(cell, view)
    ensures Partial(cells[(i, j) := cell], views[(i, j) := view], repr + {cell, view}, i, j + 1)
  {
  }

  /** Every square of `cells0` keeps its cell, and its view model from `views0`. */
  ghost predicate Keeps(cells0: map<Coord, Cell>, views0: map<Coord, CellViewModel>,
                        cells: map<Coord, Cell>, views: map<Coord, CellViewModel>)
  {
    forall c :: c in cells0 ==> c in cells && cells[c] == cells0[c] && c in views0 && c in views && views[c] == views0[c]
  }

  /** A grid keeps its own squares. */
  lemma KeepsSelf(cells: map<Coord, Cell>, views: map<Coord, CellViewModel>)
    requires Linked(cells, views)
    ensures Keeps(cells, views, cells, views)
  {
  }

  /** Adding a square of column `i` keeps the squares of the columns before it. */
  lemma KeepsGrow(cells0: map<Coord, Cell>, views0: map<Coord, CellViewModel>,
                  cells: map<Coord, Cell>, views: map<Coord, CellViewModel>,
                  i: int, j: int, cell: Cell, view: CellViewModel)
    requires Keeps(cells0, views0, cells, views)
    requires forall c :: c in cells0 ==> c.0 < i
    ensures Keeps(cells0, views0, cells[(i, j) := cell], views[(i, j) := view])
  {
  }

  /** A full column `i` is the columns before `i + 1`. */
  lemma NextColumn(cells: map<Coord, Cell>, views: map<Coord, CellViewModel>, repr: set<object>, i: int)
    requires 0 <= i && Partial(cells, views, repr, i, ROWS)
    ensures Partial(cells, views, repr, i + 1, 0)
  {
  }

  /** A key that fires no change notification: an unhandled key, or R on an empty cell. */
  predicate Quiet(code: KeyCode, before: CellState) {
    code == Other || (code == R && before == Empty)
  }

  /** How a letter key changes the cell under the cursor, from `before` to `after`. */
  predicate LetterEffect(code: KeyCode, before: CellState, after: CellState) {
    match code
    case Arrow(_) => after == before
    case G => after == AddGrass(before)
    case C => PlantedOn(before, after, Carrot)
    case T => PlantedOn(before, after, Turnip)
    case F => after == Fertilize(before)
    case R => after == Harvest(before)
    case Other => after == before
  }

  /**
   * The grid the patch is built with: a cell and a view model for every
   * square, distinct cells on distinct squares, each cell sound.
   */
  ghost predicate GridOk(cells: map<Coord, Cell>, views: map<Coord, CellViewModel>, repr: set<object>)
    reads repr
  {
    Covers(cells) && Injective(cells) && Linked(cells, views) &&
    (forall c :: c in cells ==> cells[c] in repr && views[c] in repr) &&
    forall c :: c in cells ==> Sound(cells[c], views[c])
  }

  class VeggiePatch {
    /** The cursor (the farmer's position). */
    var x: int
    var y: int
    var cells: map<Coord, Cell>
    /** The view model listening to each cell. */
    var views: map<Coord, CellViewModel>
    /** Ripening timers armed and not fired yet, oldest first. */
    var pending: seq<Task>

    /** The cells and view models of the grid. */
    ghost var Repr: set<object>

    /**
     * The cursor is on the grid, the grid is sound, and every pending timer
     * calls back the view model of a square of the grid.
     */
    ghost predicate Valid()
      reads this, Repr
    {
      this !in Repr && InGrid((x, y)) && GridOk(cells, views, Repr) &&
      (forall i :: 0 <= i < |pending| ==> pending[i].view in Repr) &&
      forall i :: 0 <= i < |pending| ==> exists c :: c in cells && c in views && views[c] == pending[i].view
    }

    /** `buildBase`: one new, empty cell and its view model for every square of the grid. */
    constructor ()
      ensures Valid() && fresh(Repr)
      ensures x == 0 && y == 0 && pending == []
      ensures forall c :: c in cells ==> cells[c].State() == Empty
      ensures forall c :: c in cells ==> c in views && views[c].currentVegetable == None && views[c].currentVegetableStatus == None
    {
      x, y := 0, 0;
      cells, views := map[], map[];
      pending := [];
      Repr := {};
      new;
      var i := 0;
      while i < COLS
        invariant 0 <= i <= COLS
        invariant Partial(cells, views, Repr, i, 0)
        invariant fresh(Repr) && this !in Repr
        invariant x == 0 && y == 0 && pending == []
      {
        AddColumn(i);
        i := i + 1;
      }
      assert Covers(cells);
    }

    /** The inner loop of `buildBase`: the cells of column `i`, top to bottom. */
    method AddColumn(i: int)
      requires 0 <= i < COLS
      requires Partial(cells, views, Repr, i, 0) && this !in Repr
      modifies this`cells, this`views, this`Repr
      ensures Partial(cells, views, Repr, i + 1, 0)
      ensures old(Repr) <= Repr && fresh(Repr - old(Repr))
      ensures Keeps(old(cells), old(views), cells, views)
      ensures forall k :: 0 <= k < ROWS ==> (i, k) in cells && (i, k) in views && fresh(cells[(i, k)]) && fresh(views[(i, k)])
    {
      var j := 0;
      ghost var cells0, views0 := cells, views;
      assert forall c :: c in cells0 ==> c.0 < i;
      KeepsSelf(cells0, views0);
      while j < ROWS
        invariant 0 <= j <= ROWS
        invariant Partial(cells, views, Repr, i, j) && this !in Repr
        invariant old(Repr) <= Repr && fresh(Repr - old(Repr))
        invariant Keeps(cells0, views0, cells, views)
        invariant forall k :: 0 <= k < j ==> (i, k) in cells && (i, k) in views && fresh(cells[(i, k)]) && fresh(views[(i, k)])
      {
        ghost var before, viewsBefore := cells, views;
        var cell, view := AddCell(i, j);
        KeepsGrow(cells0, views0, before, viewsBefore, i, j, cell, view);
        j := j + 1;
      }
      NextColumn(cells, views, Repr, i);
    }

    /** One step of the inner loop of `buildBase`: a new blank cell and its view model at `(i, j)`. */
    method AddCell(i: int, j: int) returns (cell: Cell, view: CellViewModel)
      requires 0 <= i < COLS && 0 <= j < ROWS
      requires Partial(cells, views, Repr, i, j) && this !in Repr
      modifies this`cells, this`views, this`Repr
      ensures Partial(cells, views, Repr, i, j + 1)
      ensures fresh(cell) && fresh(view) && Repr == old(Repr) + {cell, view}
      ensures cells == old(cells)[(i, j) := cell] && views == old(views)[(i, j) := view]
    {
      cell := new Cell();
      view := new CellViewModel(cell);
      cells := cells[(i, j) := cell];
      views := views[(i, j) := view];
      Repr := Repr + {cell, view};
      Grow(old(cells), old(views), old(Repr), i, j, cell, view);
    }

    /** `getCell`: the cell under the cursor, which always exists. */
    method GetCell() returns (cell: Cell)
      requires Valid()
      ensures (x, y) in cells && cell == cells[(x, y)]
    {
      cell := cells[(x, y)];
    }

    /** An arrow key. */
    method MoveCursor(d: Direction)
      requires Valid()
      modifies this`x, this`y
      ensures Valid()
      ensures (x, y) == Step(old((x, y)), d)
    {
      match d
      case Up =>
        if y > 0 { y := y - 1; }
      case Right =>
        if x < COLS - 1 { x := x + 1; }
      case Left =>
        if x > 0 { x := x - 1; }
      case Down =>
        if y < ROWS - 1 { y := y + 1; }
    }

    /** The cell under the cursor. */
    function CurrentCell(): (cell: Cell)
      reads this
      requires (x, y) in cells
    {
      cells[(x, y)]
    }

    /** The view model listening to the cell under the cursor. */
    function CurrentView(): (view: CellViewModel)
      reads this
      requires (x, y) in views
    {
      views[(x, y)]
    }

    /**
     * One of the keys G, C, T, F and R: the command goes to the cell under
     * the cursor (`getCell()`), and the notification it fires may arm a
     * ripening timer. No other cell changes.
     */
    method Perform(cmd: Command)
      requires Valid()
      requires cmd.AddVegetable? ==> cmd.veg !in CurrentCell().veggieList
      modifies this`pending, CurrentCell(), CurrentView()
      ensures Valid()
      ensures CurrentCell().State() == Apply(old(CurrentCell().State()), cmd)
      ensures Notifies(old(CurrentCell().State()), cmd) ==>
        pending == old(pending) + Armed(CurrentView(), CurrentCell().State()) &&
        CurrentView().notifications == old(CurrentView().notifications) + 1 &&
        CurrentView().fertilizerInUse == CurrentCell().fertilizerAdded &&
        CurrentView().currentVegetableStatus == StatusOf(CurrentView().currentVegetable)
      ensures !Notifies(old(CurrentCell().State()), cmd) ==>
        pending == old(pending) && unchanged(CurrentView())
    {
      var cell := GetCell();
      var view := views[(x, y)];
      Others(cell, view);
      var armed := RunCommand(cell, view, cmd);
      pending := pending + armed;
      forall c | c in cells && c != (x, y)
        ensures Sound(cells[c], views[c])
      {
        assert old(Sound(cells[c], views[c]));
      }
    }

    /** The cells and view models other than the ones under the cursor. */
    lemma Others(cell: Cell, view: CellViewModel)
      requires InGrid((x, y)) && Covers(cells) && Injective(cells) && Linked(cells, views)
      requires cell == cells[(x, y)] && view == views[(x, y)]
      ensures forall c :: c in cells && c != (x, y) ==> cells[c] != cell && views[c] != view
    {
    }

    /** The key handler: an arrow key moves the cursor, a letter key acts on the cell under it. */
    method HandleKey(code: KeyCode)
      requires Valid()
      modifies this`x, this`y, this`pending, CurrentCell(), CurrentView()
      ensures Valid()
      ensures cells == old(cells) && views == old(views)
      ensures code.Arrow? ==>
        (x, y) == Step(old((x, y)), code.dir) && pending == old(pending) &&
        unchanged(old(CurrentCell()), old(CurrentView()))
      ensures !code.Arrow? ==> (x, y) == old((x, y)) && LetterEffect(code, old(CurrentCell().State()), CurrentCell().State())
      ensures code == C || code == T ==>
        var top := CurrentCell().veggieList[|CurrentCell().veggieList| - 1];
        fresh(top) && top.status == Raw
      ensures !code.Arrow? && Quiet(code, old(CurrentCell().State())) ==>
        pending == old(pending) && unchanged(CurrentView())
      ensures !code.Arrow? && !Quiet(code, old(CurrentCell().State())) ==>
        pending == old(pending) + Armed(CurrentView(), CurrentCell().State()) &&
        CurrentView().notifications == old(CurrentView().notifications) + 1 &&
        CurrentView().fertilizerInUse == CurrentCell().fertilizerAdded &&
        CurrentView().currentVegetableStatus == StatusOf(CurrentView().currentVegetable)
    {
      if code.Arrow? {
        MoveCursor(code.dir);
      } else {
        PressLetter(code);
      }
    }

    /** The letter keys G, C, T, F and R; any other key does nothing. */
    method PressLetter(code: KeyCode)
      requires Valid() && !code.Arrow?
      modifies this`pending, CurrentCell(), CurrentView()
      ensures Valid()
      ensures LetterEffect(code, old(CurrentCell().State()), CurrentCell().State())
      ensures Quiet(code, old(CurrentCell().State())) ==> pending == old(pending) && unchanged(CurrentView())
      ensures !Quiet(code, old(CurrentCell().State())) ==>
        pending == old(pending) + Armed(CurrentView(), CurrentCell().State()) &&
        CurrentView().notifications == old(CurrentView().notifications) + 1 &&
        CurrentView().fertilizerInUse == CurrentCell().fertilizerAdded &&
        CurrentView().currentVegetableStatus == StatusOf(CurrentView().currentVegetable)
      ensures code == C || code == T ==>
        var top := CurrentCell().veggieList[|CurrentCell().veggieList| - 1];
        fresh(top) && top.status == Raw
    {
      if code != Other {
        var cmd: Command;
        if code == C || code == T {
          var veg := new Vegetable(if code == C then Carrot else Turnip);
          cmd := AddVegetable(veg);
        } else {
          cmd := if code == G then ApplyGrass else if code == F then ApplyFertilizer else Remove;
        }
        Perform(cmd);
      }
    }

    /**
     * The oldest armed timer fires: the vegetable it captured becomes RIPE,
     * and its view model shows RIPE and stops showing fertilizer. No cell
     * changes, so the cell keeps its fertilizer flag.
     */
    method Fire()
      requires Valid() && pending != []
      modifies this`pending, pending[0].view`currentVegetableStatus, pending[0].view`fertilizerInUse, pending[0].target
      ensures Valid()
      ensures pending == old(pending)[1..]
      ensures var t := old(pending[0]);
        t.target.status == Ripe &&
        t.view.currentVegetableStatus == Some(Ripe) && !t.view.fertilizerInUse &&
        t.view.currentVegetable == old(t.view.currentVegetable)
      ensures forall c :: c in cells ==> cells[c].State() == old(cells[c].State())
      ensures forall v: Vegetable :: old(allocated(v)) && old(v.status) == Ripe ==> v.status == Ripe
    {
      var t := pending[0];
      pending := pending[1..];
      t.view.Ripen(t.target);
      forall c | c in cells
        ensures Sound(cells[c], views[c])
      {
        assert old(Sound(cells[c], views[c]));
      }
    }
  }

  /**
   * A command on one cell followed by the change notification, which runs
   * the view model's listener; returns the timers the listener arms.
   */
  method RunCommand(cell: Cell, view: CellViewModel, cmd: Command) returns (armed: seq<Task>)
    requires view.cell == cell && Sound(cell, view)
    requires cmd.AddVegetable? ==> cmd.veg !in cell.veggieList
    modifies cell, view
    ensures Sound(cell, view)
    ensures cell.State() == Apply(old(cell.State()), cmd)
    ensures Notifies(old(cell.State()), cmd) ==>
      armed == Armed(view, cell.State()) &&
      view.notifications == old(view.notifications) + 1 &&
      view.currentVegetableStatus == StatusOf(view.currentVegetable) &&
      view.fertilizerInUse == cell.fertilizerAdded
    ensures !Notifies(old(cell.State()), cmd) ==> armed == [] && unchanged(view)
  {
    ghost var before := cell.veggieList;
    var changed: bool;
    match cmd {
      case AddVegetable(veg) =>
        changed := cell.AddVegetable(veg);
        AppendDistinct(before, veg);
      case ApplyFertilizer =>
        changed := cell.ApplyFertilizer();
      case ApplyGrass =>
        changed := cell.ApplyGrass();
      case Remove =>
        changed := cell.Remove();
        if before != [] {
          PrefixDistinct(before, |before| - 1);
        }
    }
    if changed {
      armed := view.OnModified();
    } else {
      armed := [];
    }
  }
}
