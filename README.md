# Shopping basket of The Warming Table

A Dafny model of the basket bookkeeping in the `NumberToIncrease` component of
`ShoppingUI.cs`. The component keeps these per catalog item:

- a count, which a "+" or "-" button moves by one and which never goes below zero;
- the 3D instances it has spawned.

Instances are tracked twice: in one global list, in spawn order, and in one
list per item. A "+" on an item with a prefab spawns an instance in the next
grid slot (row `n / 10`, column `n % 10`). A "-" removes that item's latest
instance and lays every remaining instance out again without gaps. After every
press the component shows:

- each item's count and its carbon and calorie subtotals;
- the basket totals;
- a warning when the carbon total reaches the limit.

Two modules:

- `BasketSpec` (`basket_spec.dfy`) is pure. It holds:
  - the value types (`FoodItem`, `Slot`, `Basket`);
  - the sums behind the totals;
  - the list operations the component relies on (`List<T>.Remove` as `RemoveFirst`);
  - the grid layout;
  - the invariants of the basket and the lemmas that they hold across a spawn, a despawn and a press.
- `ShoppingUI` (`shopping_ui.dfy`) holds the class `NumberToIncrease`:
  - the component's fields and its methods, written as loops and field updates the way the C# is;
  - each method proved against the functions of `BasketSpec`;
  - the class invariant `Valid()`: the bookkeeping is consistent, instances match counts, and every widget is current. The constructor establishes it and `UpdateItem` keeps it; each helper keeps the part of it that it touches.

Modelling choices:

- Engine objects are `nat` ids handed out by a counter (`nextId`).
- A local position is an integer `Slot` kept in a map from id to slot.
- A text widget is the number it shows.
- `FoodItem.prefab` becomes `hasPrefab`.

Error and edge cases, as the code has them:

- The component has no error results. An out-of-range index throws from list indexing (ShoppingUI.cs:85), so it is a precondition here.
- Removing from an item with no instances does nothing (ShoppingUI.cs:146): `Despawn` returns the basket unchanged.
- An item without a prefab counts units but spawns nothing (ShoppingUI.cs:118), so the invariant is `Expected(item)`:
  - the count for an item with a prefab;
  - 0 otherwise.

`UpdateItem` is written in two parts:

- `UpdateItem` does the clamp and the totals.
- `ApplyChange` does the rest of the press: lines 86 and 95-104.

## Model

| member | source | states |
|---|---|---|
| ShoppingUI.NumberToIncrease.constructor | ShoppingUI.cs:56-78 | Start over a catalog with zero counts gives empty spawn lists, one per item, no positions, zero totals, every widget current and `Valid()` |
| ShoppingUI.NumberToIncrease.UpdateItem | ShoppingUI.cs:83-109 | a press keeps `Valid()` (counts never negative, instances match counts, widgets and totals current); a "-" at count 0 changes nothing at all; otherwise only this item's count moves by `change` and the basket is `AddOrRemove` of the old one |
| ShoppingUI.NumberToIncrease.ApplyChange | ShoppingUI.cs:95-104 | stores the new count, the item's widgets show the count and both subtotals, the basket steps by `AddOrRemove`, and bookkeeping, balance and per-item widgets stay consistent |
| ShoppingUI.NumberToIncrease.AddFoodItem | ShoppingUI.cs:114-139 | with a prefab the basket becomes `Spawn`: a fresh id is appended to the global list and the item's list, in slot `SlotAt(old length)`; without one nothing changes; consistency is kept |
| ShoppingUI.NumberToIncrease.RemoveFoodItem | ShoppingUI.cs:144-157 | the basket becomes `Despawn`: the item's last instance is popped, removed from the global list, destroyed, and the rest re-laid; an item with no instances is left as is; consistency is kept |
| ShoppingUI.NumberToIncrease.RepositionItems | ShoppingUI.cs:162-176 | every instance of a duplicate-free global list ends at the slot of its index: positions become `Layout(allSpawnedItems)` |
| ShoppingUI.NumberToIncrease.CalculateTotalCarbon | ShoppingUI.cs:181-193 | the shown total is the sum of `count * carbonValue` over the catalog, and the warning is shown exactly when that total is at least `carbonLimit` |
| ShoppingUI.NumberToIncrease.CalculateTotalCalories | ShoppingUI.cs:218-227 | the shown total is the sum of `count * calories` over the catalog |
| ShoppingUI.NumberToIncrease.UpdateAllDisplays | ShoppingUI.cs:239-251 | every item widget shows its count and subtotals and both totals and the warning are current |
| BasketSpec.TotalAfterCountChange | ShoppingUI.cs:183-188 | setting one item's count to c changes every running total that includes it by exactly `(c - count) * unit value` and leaves the others alone |
| BasketSpec.TotalNonNegative | ShoppingUI.cs:183-188 | with non-negative counts and unit values the totals are never negative |
| BasketSpec.TotalOfEmptyBasket | ShoppingUI.cs:76-77 | an all-zero basket has zero totals |
| BasketSpec.ShowsItemsAfterUpdate | ShoppingUI.cs:96-98 | rewriting one item's three widgets after its count changed keeps every widget current |
| BasketSpec.SlotAt | ShoppingUI.cs:123-125 | the slot of index n has column in [0, 10), row >= 0, and `row * 10 + col == n` |
| BasketSpec.SlotAtInjective | ShoppingUI.cs:123-125 | different indices get different slots, so no two instances share a cell |
| BasketSpec.IndexOf | ShoppingUI.cs:151 | the position `List.Remove` finds holds x and no earlier position does |
| BasketSpec.RemoveFirstSplits | ShoppingUI.cs:151 | removing x cuts the list at x's first position: the elements before and after keep their order |
| BasketSpec.RemoveFirstMultiset | ShoppingUI.cs:151 | removing x takes exactly one x out when there is one, and leaves a list without x unchanged |
| BasketSpec.UnionOfEmptyLists | ShoppingUI.cs:59-62 | the empty per-item lists built at start hold no instance |
| BasketSpec.UnionSize | ShoppingUI.cs:44-45 | the per-item lists together hold as many instances as the sum of their lengths |
| BasketSpec.BalancedLengths | ShoppingUI.cs:86-104 | when each item's list has Expected(item) instances, the lists together hold the number of units of items with a prefab |
| BasketSpec.BasketSize | ShoppingUI.cs:44-45 | in a consistent basket matching the counts, the global list length equals the sum of the per-item lengths and the number of units of items with a prefab |
| BasketSpec.SpawnKeepsTracking | ShoppingUI.cs:136-137 | appending a fresh id to both lists keeps the global list duplicate-free, made of issued ids, and equal as a multiset to the per-item lists |
| BasketSpec.LatestIsTracked | ShoppingUI.cs:148-151 | the latest instance of an item is in the global list, so `Remove` finds it |
| BasketSpec.DespawnKeepsTracking | ShoppingUI.cs:150-151 | popping an item's latest instance and cutting it out of the global list keeps the lists consistent |
| BasketSpec.Layout | ShoppingUI.cs:164-174 | the layout places exactly the instances of the global list |
| BasketSpec.LayoutIsCompact | ShoppingUI.cs:162-176 | in the layout of a duplicate-free list the instance at index i sits at `SlotAt(i)`: no gaps |
| BasketSpec.CompactIsLayout | ShoppingUI.cs:162-176 | a gap-free placement of exactly the list's instances is the layout, so the loop's result is determined |
| BasketSpec.LayoutAfterAppend | ShoppingUI.cs:123-137 | placing a new instance in the next slot and appending it gives the layout of the longer list, so spawning needs no re-layout |
| BasketSpec.SpawnKeepsConsistent | ShoppingUI.cs:114-138 | spawning uses an id not in the basket and keeps the basket consistent |
| BasketSpec.DespawnKeepsConsistent | ShoppingUI.cs:144-157 | despawning keeps the basket consistent, the grid included |
| BasketSpec.DespawnRemovesLatest | ShoppingUI.cs:146-152 | despawning removes the item's last instance from its list, leaves every other item's list unchanged, drops only that instance's position and keeps the id counter |
| BasketSpec.DespawnClosesGap | ShoppingUI.cs:151 | despawning cuts the latest instance out of the global list at its index: the instances before and after it keep their relative order |
| BasketSpec.AddOrRemoveKeepsBalance | ShoppingUI.cs:86-104 | a press that leaves the count non-negative keeps every count non-negative and every item at Expected(item) instances |

## Left out

- Unity lifecycle and input wiring are not modelled: `MonoBehaviour`, the button listeners of `Start`, and the ocean lookup. A press is a direct `UpdateItem(index, ±1)` call.
- `Instantiate`, `Destroy` and `transform.localPosition` are engine calls. They are replaced:
  - `Instantiate` by a fresh id from a counter;
  - `Destroy` by removing the id's position;
  - `localPosition` by an integer (row, column) slot.
- The float spacing (`0.2f`) and the random jitter of each position are left out. They are floating point and nondeterministic.
- Text formatting, the progress bars and `WaterMovement.UpdateWaterLevel` are left out: each widget is the integer it would display. The rendering, and classes not part of this model, are not captured.
- `FoodItem` is a C# class shared by reference. Here it is a value that `foodItems` holds and replaces. Nothing else in the component holds a `FoodItem`, so no aliasing is lost.
- CalculateTotalCarbon: totals are mathematical integers. C# `int` arithmetic wraps at 32 bits, and that wrap-around of a huge total is not modelled.
- CalculateTotalCalories: totals are mathematical integers, so the 32-bit wrap-around of C# `int` is not modelled.
- ApplyChange: the per-item subtotals `count * carbonValue` and `count * calories` and the count update `count + change` are mathematical integers. Their 32-bit wrap-around in C# is not modelled.
- UpdateAllDisplays: the widget arrays are sized to the catalog, by the constructor and by the precondition of `UpdateAllDisplays`. The source throws when one of the button or text arrays is shorter than `foodItems`, and in a press that throw comes after the count is stored. That mis-sized-scene behaviour is not modelled.
- UpdateItem: `change` must be 1 or -1, the only values the buttons pass. Other values are not modelled.
- UpdateItem: the count is stored only once it is known to be non-negative. The source briefly stores -1 before putting 0 back, which leaves the same state.
- ShoppingUI.NumberToIncrease.constructor: requires every catalog count to be 0, which is what the hidden `count` field holds when the catalog is loaded.
- `caloriesIntakeRequired` is stored but read by no code of the component, and no warning depends on it.
