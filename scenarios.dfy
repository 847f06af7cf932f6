/**
 * Command sequences on one new cell and its view model, with the ripening
 * timers each notification arms. Each shows a consequence of the timer
 * callback leaving the cell's own fertilizer flag set.
 */
module Scenarios {
  import opened Options
  import opened Vegetables
  import opened Cells
  import opened ViewModels
  import opened Patch

  /**
   * Plant a carrot, fertilize, let the timer fire, then apply grass: the
   * carrot ripens and the view stops showing fertilizer, but the cell still
   * has it, so the grass arms a second timer on the same carrot and the view
   * shows fertilizer again.
   */
  method RipenThenRearm() returns (status: Status, cellFertilized: bool, shownAfterFire: bool, shownAfterGrass: bool, rearmed: nat)
    ensures status == Ripe && cellFertilized
    ensures !shownAfterFire && shownAfterGrass && rearmed == 1
  {
    var cell := new Cell();
    var view := new CellViewModel(cell);
    var carrot := new Vegetable(Carrot);
    var armed := RunCommand(cell, view, AddVegetable(carrot));
    assert armed == [];
    armed := RunCommand(cell, view, ApplyFertilizer);
    assert armed == [Task(view, carrot)];
    view.Ripen(armed[0].target);
    status, cellFertilized, shownAfterFire := carrot.status, cell.fertilizerAdded, view.fertilizerInUse;
    armed := RunCommand(cell, view, ApplyGrass);
    shownAfterGrass, rearmed := view.fertilizerInUse, |armed|;
  }

  /**
   * Plant a carrot, fertilize, harvest it, then let the timer fire: the
   * harvested carrot still ripens, and the view shows RIPE for a cell that
   * has no vegetable.
   */
  method HarvestBeforeRipe() returns (status: Status, shown: Option<Vegetable>, shownStatus: Option<Status>)
    ensures status == Ripe && shown == None && shownStatus == Some(Ripe)
  {
    var cell := new Cell();
    var view := new CellViewModel(cell);
    var carrot := new Vegetable(Carrot);
    var armed := RunCommand(cell, view, AddVegetable(carrot));
    var timers := armed;
    armed := RunCommand(cell, view, ApplyFertilizer);
    timers := timers + armed;
    armed := RunCommand(cell, view, Remove);
    timers := timers + armed;
    assert timers == [Task(view, carrot)];
    view.Ripen(timers[0].target);
    status, shown, shownStatus := carrot.status, view.currentVegetable, view.currentVegetableStatus;
  }

  /**
   * Harvesting an empty cell fires no notification and arms nothing; the view
   * is left as it was.
   */
  method HarvestEmpty() returns (timers: nat, shown: Option<Vegetable>, grass: bool, fert: bool, status: Option<Status>)
    ensures timers == 0 && shown == None && !grass && !fert && status == None
  {
    var cell := new Cell();
    var view := new CellViewModel(cell);
    var armed := RunCommand(cell, view, Remove);
    assert view.notifications == 0;
    timers, shown, grass := |armed|, view.currentVegetable, view.appliedGrass;
    fert, status := view.fertilizerInUse, view.currentVegetableStatus;
  }
}
