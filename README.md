# Veggie patch — a verified model of the garden grid

The veggie patch is an 18 × 14 grid of garden cells with a farmer (the cursor)
standing on one of them. The arrow keys move the farmer, and the keys G, C, T,
F and R act on the cell under the farmer:

- G applies grass.
- C plants a carrot.
- T plants a turnip.
- F applies fertilizer.
- R harvests one thing, in a fixed order: the most recent vegetable, else the
  fertilizer, else the grass.

Every vegetable is planted RAW. When a change leaves a cell fertilized and with
a vegetable on it, its view model arms a one-shot ripening timer. When the timer fires, it turns the
vegetable that was on top at arming time RIPE.

The model follows the single source file `veggipatch/VeggiePatch_Demo.java`. It
is imperative, like the source:

- `Vegetable`, `Cell`, `CellViewModel` and `VeggiePatch` are classes whose
  methods update their fields in place.
- The cell commands, the listener, the cursor moves and the key handler are
  proved against value-level specifications: `CellState` with `Plant`,
  `Fertilize`, `AddGrass`, `Harvest` and `Apply` in `Cells`, `Armed` in
  `ViewModels`, and `Step` in `Grid`. The other methods (`setStatus`, the
  timer callback, `getCell`) have contracts on the fields they change or read.
- Lemmas about those functions state what the source promises.

Modules, one per file:

- `Options`: the `Option` type standing in for Java `null`.
- `Vegetables`: `Status`, the two vegetable kinds, and the `Vegetable` class.
- `Cells`: the cell state, its four commands, the identity-based list removal,
  and the `Cell` class.
- `Harvesting`: repeated harvests.
- `ViewModels`: the per-cell view model, the listener, and the ripening timer.
- `Grid`: the geometry and the arrow-key step.
- `Patch`: the grid of cells built by `buildBase`, `getCell`, the key handler,
  and the pending timers.
- `Scenarios`: key sequences on one cell and its view model, and what they end in.

How the model represents things the source leaves implicit:

- **Change notifications.** The source signals a change by setting a
  `BooleanProperty` to true. Its one listener runs `updateGrass`,
  `updateFertilizer` and `updateVegetable`, then resets the property to false.
  So each mutating call runs the listener exactly once. In the model, each
  `Cell` command returns `changed`, and `RunCommand` runs the view model's
  `OnModified` exactly when `changed` is true. A ghost counter
  `notifications` counts the listener runs. Only `remove` on an empty cell
  fires no notification. Applying fertilizer or grass a second time fires one
  even though nothing changes (`Cells.NotifiesWhenChanged`).
- **Ripening timers.** Every armed timer has the same delay and none is ever
  cancelled, so they fire in the order they were armed. The model keeps them as
  a first-in first-out list, `VeggiePatch.pending`. `Fire` is the expiry of the
  oldest one. There is no clock.
- **The cell map.** The source keys its cell map by the string `col + "-" + row`,
  which is injective on the grid. The model keys it by the pair `(col, row)`.
  The source keeps no map of view models: each one is held by the `CellView`
  on its square, by the listener it registers, and by every timer it has
  armed (`Task.view` in the model). The model
  keeps the view models in a second map, `views`, with the same keys.
- **Vegetable identity.** Vegetables are objects, because a timer holds a
  reference to one. List removal is by identity, so `remove` drops the top
  vegetable only because a vegetable is never on a list twice. The key handler
  always plants a `new` one, and the model keeps this as an invariant
  (`Distinct`).

Where the class comment and the code disagree, the model follows the code:

- **The fertilizer flag is not cleared.** The comment says ripening "will
  remove the fertilizer". The timer callback only clears the view model's
  `fertilzerInuse` flag; the cell's `fertilizerAdded` stays true. As a result,
  every later planting, fertilizing or grassing of that cell re-arms a timer on
  its top vegetable. A harvest re-arms one too, unless it takes the last
  vegetable or clears the fertilizer: `ViewModels.ChangesRearm`,
  `Patch.VeggiePatch.Fire`, `Scenarios.RipenThenRearm`.
- **Harvesting does not cancel a timer.** A carrot harvested before its timer
  fires still turns RIPE. The view then shows the status RIPE for a cell that has
  no vegetable (`Scenarios.HarvestBeforeRipe`).

## Model

| member | source | states |
|---|---|---|
| Vegetables.TypeNameIdentifiesKind | veggipatch/VeggiePatch_Demo.java:206-228 | two vegetables have the same `getType` name exactly when they are of the same kind, so the view can draw each kind by its name |
| Vegetables.Vegetable.constructor | veggipatch/VeggiePatch_Demo.java:203-223 | a new carrot or turnip has its kind and status RAW |
| Vegetables.Vegetable.SetStatus | veggipatch/VeggiePatch_Demo.java:216-219 | the status becomes the given one; nothing else of the vegetable changes |
| Cells.RemoveFirst | veggipatch/VeggiePatch_Demo.java:285 | `List.remove(Object)` shortens the list by one when the object is in it and leaves it as it is otherwise |
| Cells.RemoveFirstMultiset | veggipatch/VeggiePatch_Demo.java:285 | removal by identity takes away exactly one copy of the object and nothing else |
| Cells.RemoveFirstOfLast | veggipatch/VeggiePatch_Demo.java:284-285 | removing the last element by identity from a list without repetitions leaves exactly the list without its last element |
| Cells.RemoveFirstAt | veggipatch/VeggiePatch_Demo.java:285 | `List.remove(Object)` takes out the first occurrence of the object, wherever it is, and keeps every other element in order |
| Cells.RemoveFirstOfRepeated | veggipatch/VeggiePatch_Demo.java:285 | as an instance of `RemoveFirstAt`: with a repeated object, removal by identity takes the earlier copy, not the top one |
| Cells.CurrentAfter | veggipatch/VeggiePatch_Demo.java:344-346 | which vegetable `getLastVegetable` gives after each command: the one just planted, the same one after fertilizer or grass, and after a harvest the one below the old top, or none |
| Cells.NotifiesWhenChanged | veggipatch/VeggiePatch_Demo.java:252-294 | every command that changes the cell fires the change notification; `remove` fires it exactly when it changes the cell; the other three always fire it |
| Cells.HarvestPopsTop | veggipatch/VeggiePatch_Demo.java:283-286 | on a non-empty cell without a repeated vegetable, a harvest drops exactly the top vegetable and keeps both flags, and the list stays without repetitions |
| Cells.HarvestUndoesPlant | veggipatch/VeggiePatch_Demo.java:252-286 | harvesting right after planting a vegetable not already on the cell restores the previous state, and the planted vegetable is the current one in between |
| Cells.Cell.constructor | veggipatch/VeggiePatch_Demo.java:243-248 | a new cell has no vegetable, no fertilizer and no grass |
| Cells.Cell.AddVegetable | veggipatch/VeggiePatch_Demo.java:252-255 | the vegetable is appended at the end of the list; earlier elements and both flags are unchanged; the notification fires |
| Cells.Cell.ApplyFertilizer | veggipatch/VeggiePatch_Demo.java:257-260 | the fertilizer flag is true whatever it was; the list and the grass flag are unchanged; the notification fires |
| Cells.Cell.ApplyGrass | veggipatch/VeggiePatch_Demo.java:262-265 | the grass flag is true whatever it was; the list and the fertilizer flag are unchanged; the notification fires |
| Cells.Cell.Remove | veggipatch/VeggiePatch_Demo.java:283-294 | strict priority: drop the top vegetable and nothing else, else clear only fertilizer, else clear only grass, else nothing; the notification fires exactly when the cell was not empty |
| Harvesting.HarvestStep | veggipatch/VeggiePatch_Demo.java:283-294 | a harvest changes the cell exactly when the cell is not empty, and then lowers the count of things on it by one |
| Harvesting.HarvestsClearCell | veggipatch/VeggiePatch_Demo.java:283-294 | N + [F] + [G] harvests of a cell with N vegetables leave it empty with both flags false |
| Harvesting.EmptyStaysEmpty | veggipatch/VeggiePatch_Demo.java:283-294 | harvesting an empty cell any number of times changes nothing and takes nothing |
| Harvesting.HarvestsSplit | veggipatch/VeggiePatch_Demo.java:283-294 | m + n harvests are m harvests followed by n more |
| Harvesting.HarvestedCons | veggipatch/VeggiePatch_Demo.java:283-294 | the first of n harvests takes what `remove` takes, and the others harvest the state it leaves |
| Harvesting.HarvestThenIdle | veggipatch/VeggiePatch_Demo.java:283-294 | after N + [F] + [G] harvests, every further harvest leaves the cell empty and takes nothing |
| Harvesting.HarvestedPop | veggipatch/VeggiePatch_Demo.java:283-286 | a full harvest of a non-empty cell takes the top vegetable first, then is the full harvest of the stack below it |
| Harvesting.HarvestOrder | veggipatch/VeggiePatch_Demo.java:283-294 | a full harvest takes the vegetables most recent first, then the fertilizer if set, then the grass if set |
| Harvesting.FlagsOrder | veggipatch/VeggiePatch_Demo.java:287-293 | with no vegetable, a full harvest takes the fertilizer before the grass |
| ViewModels.Armed | veggipatch/VeggiePatch_Demo.java:329-341 | a notification arms at most one timer; it arms one exactly when the cell is fertilized and has a vegetable, and that timer captures the top vegetable |
| ViewModels.ChangesRearm | veggipatch/VeggiePatch_Demo.java:329-341 | once a cell is fertilized and has a vegetable, every later plant, grass or fertilize arms another timer on the vegetable then on top |
| ViewModels.CellViewModel.constructor | veggipatch/VeggiePatch_Demo.java:308-318 | a new view model listens to its cell and shows no vegetable, no status, no fertilizer and no grass |
| ViewModels.CellViewModel.OnModified | veggipatch/VeggiePatch_Demo.java:310-316 | after the listener the view shows the cell's grass, fertilizer and top vegetable with its status, and the timers armed are those of `Armed` |
| ViewModels.CellViewModel.UpdateVegetable | veggipatch/VeggiePatch_Demo.java:320-323 | the current vegetable is the last of the list, or none, and the shown status is its status, or none |
| ViewModels.CellViewModel.UpdateGrass | veggipatch/VeggiePatch_Demo.java:325-327 | the view's grass flag is the cell's |
| ViewModels.CellViewModel.UpdateFertilizer | veggipatch/VeggiePatch_Demo.java:329-342 | the view's fertilizer flag is the cell's, and the timer is armed as `Armed` says |
| ViewModels.CellViewModel.Ripen | veggipatch/VeggiePatch_Demo.java:334-338 | the timer callback makes the captured vegetable RIPE, shows RIPE, and clears only the view's fertilizer flag |
| Grid.StepInGrid | veggipatch/VeggiePatch_Demo.java:91-113 | an arrow move keeps 0 ≤ x < 18 and 0 ≤ y < 14 |
| Grid.StepMoves | veggipatch/VeggiePatch_Demo.java:91-113 | a move is a no-op exactly at the edge the arrow points at, and otherwise changes one coordinate by exactly one in the arrow's direction |
| Grid.StepBack | veggipatch/VeggiePatch_Demo.java:91-113 | away from that edge, the opposite arrow undoes a move |
| Patch.VeggiePatch.constructor | veggipatch/VeggiePatch_Demo.java:168-176 | `buildBase` leaves a cell for every (i, j) with 0 ≤ i < 18 and 0 ≤ j < 14 and nothing else; distinct squares have distinct new cells, all empty, and every view model shows no vegetable and no status; the cursor starts at (0, 0) with no timer pending |
| Patch.VeggiePatch.AddCell | veggipatch/VeggiePatch_Demo.java:170-174 | one step of the inner loop puts a new empty cell and its new view model at square (i, j), and changes no other square |
| Patch.VeggiePatch.AddColumn | veggipatch/VeggiePatch_Demo.java:169-175 | the inner loop adds a fresh, distinct, empty cell and a fresh view model for every row of column i, and only those; every cell and view model already in the maps stays on its square |
| Patch.VeggiePatch.GetCell | veggipatch/VeggiePatch_Demo.java:138-140 | `getCell` always finds a cell: the one under the cursor |
| Patch.VeggiePatch.MoveCursor | veggipatch/VeggiePatch_Demo.java:91-113 | an arrow key moves the cursor by `Step` and keeps the grid invariant |
| Patch.VeggiePatch.Perform | veggipatch/VeggiePatch_Demo.java:115-133 | a command reaches the cell under the cursor, which ends in the `Apply` state; when it notifies, the timers `Armed` says are appended to the pending ones; otherwise the view is untouched; no other cell changes |
| Patch.VeggiePatch.HandleKey | veggipatch/VeggiePatch_Demo.java:88-135 | an arrow moves only the cursor; G, C, T, F and R leave the cursor alone and change the cell under it as `LetterEffect` says; C and T plant a new RAW vegetable; when the key notifies, the view shows the cell's fertilizer and the current vegetable's status, and pending timers grow by what the notification arms |
| Patch.VeggiePatch.PressLetter | veggipatch/VeggiePatch_Demo.java:115-133 | each letter key's effect on the cell under the cursor, the vegetable it plants, what the view shows after the notification, and the timers it arms |
| Patch.VeggiePatch.Fire | veggipatch/VeggiePatch_Demo.java:334-338 | the oldest timer fires: its vegetable becomes RIPE, its view shows RIPE and no fertilizer, and no other field of the view changes; no cell changes, so the cell keeps its fertilizer; no RIPE vegetable becomes RAW |
| Patch.RunCommand | veggipatch/VeggiePatch_Demo.java:252-316 | one cell command followed by its notification: the cell ends in the `Apply` state; the listener runs exactly when the command notifies, and then the view is in sync and the timers armed are those of `Armed` |
| Scenarios.RipenThenRearm | veggipatch/VeggiePatch_Demo.java:329-341 | C, F, timer, G: the carrot is RIPE and the view stops showing fertilizer, but the cell keeps it, so G arms one more timer and the view shows fertilizer again |
| Scenarios.HarvestBeforeRipe | veggipatch/VeggiePatch_Demo.java:334-338 | C, F, R, timer: the harvested carrot still ripens, and the view shows RIPE with no current vegetable |
| Scenarios.HarvestEmpty | veggipatch/VeggiePatch_Demo.java:283-294 | R on an empty cell arms nothing and leaves the view as it was: no vegetable, no status, neither grass nor fertilizer shown, and no notification |

## Left out

- Rendering: the JavaFX stage and scene, the labels and indexes of `buildBase`, `Farmer`, `CellView`, and the style classes are user interface only.
- The mouse click that places the cursor. It divides pixel coordinates held as `double`, from a JavaFX event.
- Real time: the `Timeline` with its 10-second `KeyFrame` and the JavaFX application thread. A timer is an entry of `pending`, and `Fire` is its expiry.
- The timers fire oldest first. This is what equal delays give, but the model does not let two timers expire in any other order.
- The property and listener machinery (`BooleanProperty`, `ObjectProperty`, `modifiedProperty`, `setModified`) and the view's bindings. The model keeps only what the listener does: one run for each command that calls `change()`.
- The accessors `isAppliedGrass`, `getCurrentVegetable` and `fertilzerInuseProperty`, and the other property getters. They only read fields the model exposes directly.
- The string key `col + "-" + row`. The map is keyed by the pair, since only the key's injectivity on the grid matters.
- Cells.Cell.Remove: the promise that the top vegetable is dropped, and nothing else, is stated only for a list without a repeated vegetable. The general case is `Harvest` by `RemoveFirst`: removal by identity, first copy.
- Patch.VeggiePatch.Perform: a planted vegetable must not already be on the cell. Patch.RunCommand requires the same. The key handler only ever plants a `new` vegetable, so it always meets this.
- Patch.VeggiePatch.HandleKey: the key codes the handler ignores are one `Other` code. The source's `switch` has no default branch.
- The scenarios drive one cell and its view model through `Patch.RunCommand` and `CellViewModel.Ripen`. They do not go through the whole grid: `VeggiePatch.HandleKey` and `Fire` carry the same contracts cell by cell.
