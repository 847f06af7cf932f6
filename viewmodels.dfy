/**
 * The view model of one cell (`CellViewModel`): what the view shows of the
 * cell, refreshed by the cell's change notification, and the ripening rule.
 * A change on a fertilized cell with a vegetable arms a one-shot timer that,
 * when it fires, ripens the vegetable that was on top when it was armed.
 */
module ViewModels {
  import opened Options
  import opened Vegetables
  import opened Cells

  /**
   * A ripening timer that has been armed and has not fired yet: the view
   * model whose callback runs and the vegetable captured when it was armed.
   */
  datatype Task = Task(view: CellViewModel, target: Vegetable)

  /**
   * The timers one change notification arms (`updateFertilizer`): one when the
   * cell is fertilized and has a vegetable, capturing its top vegetable.
   */
  function Armed(view: CellViewModel, s: CellState): (r: seq<Task>)
    ensures |r| <= 1
    ensures |r| == 1 <==> s.fertilizer && s.veggies != []
    ensures |r| == 1 ==> r[0].view == view && r[0].target == s.veggies[|s.veggies| - 1]
  {
    if s.fertilizer then
      match LastVegetable(s.veggies)
      case Some(v) => [Task(view, v)]
      case None => []
    else []
  }

  /**
   * The timer callback leaves the cell's fertilizer flag set, so once a cell
   * is fertilized and has a vegetable, every later change other than a
   * harvest arms another timer, on the vegetable then on top.
   */
  lemma ChangesRearm(view: CellViewModel, s: CellState, cmd: Command)
    requires s.fertilizer && s.veggies != [] && !cmd.Remove?
    ensures var after := Apply(s, cmd);
      Armed(view, after) == [Task(view, after.veggies[|after.veggies| - 1])]
  {
  }

  /** The status the view shows for an optional vegetable. */
  function StatusOf(v: Option<Vegetable>): (r: Option<Status>)
    reads if v.Some? then {v.value} else {}
  {
    match v
    case Some(veg) => Some(veg.status)
    case None => None
  }

  class CellViewModel {
    const cell: Cell
    var currentVegetable: Option<Vegetable>
    var currentVegetableStatus: Option<Status>
    var fertilizerInUse: bool
    var appliedGrass: bool
    /** How many change notifications this view model has received. */
    ghost var notifications: nat

    /** A new view model shows nothing; it listens to `cell`. */
    constructor (cell: Cell)
      ensures this.cell == cell
      ensures currentVegetable == None && currentVegetableStatus == None
      ensures !fertilizerInUse && !appliedGrass && notifications == 0
    {
      this.cell := cell;
      currentVegetable := None;
      currentVegetableStatus := None;
      fertilizerInUse := false;
      appliedGrass := false;
      notifications := 0;
    }

    /**
     * What holds between notifications: the view shows the cell's top
     * vegetable and its grass, and shows fertilizer only while the cell has
     * it. The shown status is not part of it: a firing timer sets it to RIPE
     * whatever the top vegetable is.
     */
    ghost predicate Synced()
      reads this, cell
    {
      currentVegetable == LastVegetable(cell.veggieList) &&
      appliedGrass == cell.appliedGrass &&
      (fertilizerInUse ==> cell.fertilizerAdded)
    }

    /**
     * The listener on the cell's `modified` property: `updateGrass`, then
     * `updateFertilizer` (which returns the timers it arms), then
     * `updateVegetable`.
     */
    method OnModified() returns (armed: seq<Task>)
      modifies this
      ensures appliedGrass == cell.appliedGrass
      ensures fertilizerInUse == cell.fertilizerAdded
      ensures currentVegetable == LastVegetable(cell.veggieList)
      ensures currentVegetableStatus == StatusOf(currentVegetable)
      ensures armed == Armed(this, cell.State())
      ensures notifications == old(notifications) + 1
      ensures Synced()
    {
      notifications := notifications + 1;
      UpdateGrass();
      armed := UpdateFertilizer();
      UpdateVegetable();
    }

    method UpdateVegetable()
      modifies this`currentVegetable, this`currentVegetableStatus
      ensures currentVegetable == LastVegetable(cell.veggieList)
      ensures currentVegetableStatus == StatusOf(currentVegetable)
    {
      currentVegetable := LastVegetable(cell.veggieList);
      currentVegetableStatus := match currentVegetable
        case Some(v) => Some(v.status)
        case None => None;
    }

    method UpdateGrass()
      modifies this`appliedGrass
      ensures appliedGrass == cell.appliedGrass
    {
      appliedGrass := cell.appliedGrass;
    }

    method UpdateFertilizer() returns (armed: seq<Task>)
      modifies this`fertilizerInUse
      ensures fertilizerInUse == cell.fertilizerAdded
      ensures armed == Armed(this, cell.State())
    {
      fertilizerInUse := cell.fertilizerAdded;
      armed := [];
      if cell.fertilizerAdded {
        var lastVeg := LastVegetable(cell.veggieList);
        if lastVeg.Some? {
          armed := [Task(this, lastVeg.value)];
        }
      }
    }

    /**
     * The timer callback: ripens the captured vegetable, shows RIPE, and stops
     * showing fertilizer. The cell itself, its fertilizer flag included, is
     * left as it is.
     */
    method Ripen(veg: Vegetable)
      modifies this`currentVegetableStatus, this`fertilizerInUse, veg
      ensures veg.status == Ripe
      ensures currentVegetableStatus == Some(Ripe) && !fertilizerInUse
    {
      veg.SetStatus(Ripe);
      currentVegetableStatus := Some(Ripe);
      fertilizerInUse := false;
    }
  }
}
