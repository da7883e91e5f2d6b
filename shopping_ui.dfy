/**
 * The basket bookkeeping of the NumberToIncrease component: per-item counts,
 * the spawned instances (one global list in spawn order and one list per
 * item), their grid slots, and the figures the widgets display. Engine
 * objects are ids handed out by a counter, positions are integer slots, and
 * each text widget is modelled by the number it shows.
 */
module ShoppingUI {
  import opened BasketSpec

  class NumberToIncrease {
    // Food data
    var foodItems: seq<FoodItem>

    // Thresholds
    const carbonLimit: int
    const caloriesIntakeRequired: int

    // 3D basket display
    var allSpawnedItems: seq<GameObject>       // every live instance, in spawn order
    var spawnedItems: seq<seq<GameObject>>     // live instances of each item, in spawn order
    var positions: map<GameObject, Slot>       // local position of each live instance
    var nextId: GameObject                     // id the next instantiated object receives

    // Figures shown by the UI widgets
    var numberTexts: seq<int>                  // count of each item
    var carbonTexts: seq<int>                  // carbon subtotal of each item
    var caloriesTexts: seq<int>                // calorie subtotal of each item
    var totalCarbonText: int
    var warningShown: bool                     // "Carbon limit reached"
    var caloriesText: int

    /** The instance bookkeeping as a value. */
    ghost function Contents(): Basket
      reads this`allSpawnedItems, this`spawnedItems, this`positions, this`nextId
    {
      Basket(allSpawnedItems, spawnedItems, positions, nextId)
    }

    /**
     * Instance bookkeeping: every live instance is tracked once, globally and
     * under its item, and sits at its grid slot.
     */
    ghost predicate Tracked()
      reads this`allSpawnedItems, this`spawnedItems, this`positions, this`nextId
    {
      Consistent(Contents())
    }

    /** Counts are never negative and each item has as many instances as Expected says. */
    ghost predicate Balanced()
      reads this`foodItems, this`spawnedItems
    {
      InstancesMatchCounts(foodItems, spawnedItems)
    }

    /** Every widget shows the figure computed from the current counts. */
    ghost predicate Displayed()
      reads this`foodItems, this`numberTexts, this`carbonTexts, this`caloriesTexts
      reads this`totalCarbonText, this`warningShown, this`caloriesText
    {
      ShowsItems(foodItems, numberTexts, carbonTexts, caloriesTexts)
      && totalCarbonText == Total(foodItems, Carbon)
      && warningShown == (totalCarbonText >= carbonLimit)
      && caloriesText == Total(foodItems, Calories)
    }

    ghost predicate Valid()
      reads this
    {
      Tracked() && Balanced() && Displayed()
    }

    /**
     * Start, without the button wiring and the ocean lookup: one empty spawn
     * list per item, then every display refreshed.
     */
    constructor (catalog: seq<FoodItem>, carbonLimit: int, caloriesIntakeRequired: int)
      requires forall i :: 0 <= i < |catalog| ==> catalog[i].count == 0
      ensures Valid()
      ensures foodItems == catalog
      ensures this.carbonLimit == carbonLimit && this.caloriesIntakeRequired == caloriesIntakeRequired
      ensures allSpawnedItems == [] && positions == map[]
      ensures |spawnedItems| == |catalog| && forall i :: 0 <= i < |catalog| ==> spawnedItems[i] == []
      ensures totalCarbonText == 0 && caloriesText == 0 && warningShown == (0 >= carbonLimit)
    {
      foodItems := catalog;
      this.carbonLimit := carbonLimit;
      this.caloriesIntakeRequired := caloriesIntakeRequired;
      allSpawnedItems := [];
      spawnedItems := seq(|catalog|, _ => []);
      positions := map[];
      nextId := 0;
      numberTexts := seq(|catalog|, _ => 0);
      carbonTexts := seq(|catalog|, _ => 0);
      caloriesTexts := seq(|catalog|, _ => 0);
      totalCarbonText := 0;
      warningShown := false;
      caloriesText := 0;
      new;
      UnionOfEmptyLists(spawnedItems);
      UpdateAllDisplays();
      TotalOfEmptyBasket(foodItems, |foodItems|, Carbon);
      TotalOfEmptyBasket(foodItems, |foodItems|, Calories);
    }

    /**
     * A "+" (change == 1) or "-" (change == -1) press on item index. A "-"
     * at count 0 clamps the count back to 0 and returns before anything else
     * happens; otherwise the item's widgets are refreshed, an instance is
     * spawned or the item's latest instance removed, and the totals are
     * recomputed.
     */
    method UpdateItem(index: nat, change: int)
      requires Valid() && index < |foodItems|
      requires change == 1 || change == -1
      modifies this`foodItems, this`allSpawnedItems, this`spawnedItems, this`positions, this`nextId
      modifies this`numberTexts, this`carbonTexts, this`caloriesTexts
      modifies this`totalCarbonText, this`warningShown, this`caloriesText
      ensures Valid()
      // a "-" at zero changes nothing
      ensures old(foodItems[index].count) + change < 0 ==> unchanged(this)
      // otherwise only this item's count moves, and the basket adds or removes one instance
      ensures old(foodItems[index].count) + change >= 0 ==>
        foodItems == old(foodItems)[index := old(foodItems[index]).(count := old(foodItems[index].count) + change)]
        && Contents() == AddOrRemove(old(Contents()), old(foodItems[index]), index, change)
    {
      var item := foodItems[index];
      var count := item.count + change;

      // Prevent negative counts: a "-" at 0 puts the count back to 0
      if count < 0 {
        foodItems := foodItems[index := item.(count := 0)];
        assert foodItems == old(foodItems);
        return;
      }

      ApplyChange(index, change);

      // Totals
      CalculateTotalCarbon();
      CalculateTotalCalories();
    }

    /**
     * The rest of a press once the new count is known to be non-negative:
     * the count is stored, the item's widgets show it, and an instance is
     * spawned ("+") or the item's latest one removed ("-"). Bookkeeping and
     * per-item widgets stay consistent with the counts.
     */
    method ApplyChange(index: nat, change: int)
      requires Tracked() && Balanced() && ShowsItems(foodItems, numberTexts, carbonTexts, caloriesTexts)
      requires index < |foodItems| && (change == 1 || change == -1) && foodItems[index].count + change >= 0
      modifies this`foodItems, this`allSpawnedItems, this`spawnedItems, this`positions, this`nextId
      modifies this`numberTexts, this`carbonTexts, this`caloriesTexts
      ensures Tracked() && Balanced() && ShowsItems(foodItems, numberTexts, carbonTexts, caloriesTexts)
      ensures foodItems == old(foodItems)[index := old(foodItems[index]).(count := old(foodItems[index].count) + change)]
      ensures Contents() == AddOrRemove(old(Contents()), old(foodItems[index]), index, change)
    {
      var item := foodItems[index];
      var count := item.count + change;
      // Store the count and update the individual displays
      foodItems, numberTexts, carbonTexts, caloriesTexts :=
        foodItems[index := item.(count := count)],
        numberTexts[index := count], carbonTexts[index := count * item.carbonValue], caloriesTexts[index := count * item.calories];
      ShowsItemsAfterUpdate(old(foodItems), old(numberTexts), old(carbonTexts), old(caloriesTexts), index, count,
                            foodItems, numberTexts, carbonTexts, caloriesTexts);
      ghost var before := Contents();

      // Add or remove the 3D instance
      if change > 0 {
        AddFoodItem(index);
      } else {
        RemoveFoodItem(index);
      }
      assert Contents() == AddOrRemove(before, item, index, change);
      AddOrRemoveKeepsBalance(old(foodItems), before, index, change, foodItems, spawnedItems);
    }

    /** Spawns one instance of item index in the next free slot, when the item has a prefab. */
    method AddFoodItem(index: nat)
      requires Tracked() && index < |foodItems| == |spawnedItems|
      modifies this`allSpawnedItems, this`spawnedItems, this`positions, this`nextId
      ensures Tracked()
      ensures Contents() == if foodItems[index].hasPrefab then Spawn(old(Contents()), index) else old(Contents())
    {
      var item := foodItems[index];
      if item.hasPrefab {
        SpawnKeepsConsistent(Contents(), index);

        // Instantiate: a fresh object
        var newFood := nextId;
        nextId := nextId + 1;

        // Position based on total number of items
        var total := |allSpawnedItems|;
        var row := total / 10;
        var col := total % 10;
        positions := positions[newFood := Slot(row, col)];

        // Track item
        allSpawnedItems := allSpawnedItems + [newFood];
        spawnedItems := spawnedItems[index := spawnedItems[index] + [newFood]];
      }
    }

    /** Removes the most recently spawned instance of item index, if it has one, and re-lays the grid. */
    method RemoveFoodItem(index: nat)
      requires Tracked() && index < |spawnedItems|
      modifies this`allSpawnedItems, this`spawnedItems, this`positions
      ensures Tracked()
      ensures Contents() == Despawn(old(Contents()), index)
    {
      if |spawnedItems[index]| > 0 {
        var mine := spawnedItems[index];
        var last := mine[|mine| - 1];
        DespawnKeepsConsistent(Contents(), index);
        DespawnRemovesLatest(Contents(), index);

        spawnedItems := spawnedItems[index := mine[..|mine| - 1]];
        allSpawnedItems := RemoveFirst(allSpawnedItems, last);
        // Destroy: the object and its position go away
        positions := positions - {last};

        // Re-layout items
        RepositionItems();
      }
    }

    /** Gives every live instance the slot of its index in the global list. */
    method RepositionItems()
      requires Distinct(allSpawnedItems) && positions.Keys == Elements(allSpawnedItems)
      modifies this`positions
      ensures positions == Layout(allSpawnedItems)
    {
      var i := 0;
      while i < |allSpawnedItems|
        invariant 0 <= i <= |allSpawnedItems|
        invariant positions.Keys == Elements(allSpawnedItems)
        invariant forall j :: 0 <= j < i ==>
          allSpawnedItems[j] in positions && positions[allSpawnedItems[j]] == SlotAt(j)
      {
        var obj := allSpawnedItems[i];
        var row := i / 10;
        var col := i % 10;
        positions := positions[obj := Slot(row, col)];
        i := i + 1;
      }
      assert CompactGrid(allSpawnedItems, positions);
      CompactIsLayout(allSpawnedItems, positions);
    }

    /** Shows the total carbon of the basket, and the warning when it reaches the limit. */
    method CalculateTotalCarbon()
      modifies this`totalCarbonText, this`warningShown
      ensures totalCarbonText == Total(foodItems, Carbon)
      ensures warningShown <==> totalCarbonText >= carbonLimit
    {
      var totalCarbon := 0;
      var i := 0;
      while i < |foodItems|
        invariant 0 <= i <= |foodItems|
        invariant totalCarbon == TotalOfFirst(foodItems, i, Carbon)
      {
        var item := foodItems[i];
        totalCarbon := totalCarbon + item.count * item.carbonValue;
        i := i + 1;
      }
      totalCarbonText := totalCarbon;
      // Show warning if over limit
      warningShown := totalCarbon >= carbonLimit;
    }

    /** Shows the total calories of the basket. */
    method CalculateTotalCalories()
      modifies this`caloriesText
      ensures caloriesText == Total(foodItems, Calories)
    {
      var totalCalories := 0;
      var i := 0;
      while i < |foodItems|
        invariant 0 <= i <= |foodItems|
        invariant totalCalories == TotalOfFirst(foodItems, i, Calories)
      {
        var item := foodItems[i];
        totalCalories := totalCalories + item.count * item.calories;
        i := i + 1;
      }
      caloriesText := totalCalories;
    }

    /** Refreshes every item's widgets and both totals from the current counts. */
    method UpdateAllDisplays()
      requires |numberTexts| == |foodItems| && |carbonTexts| == |foodItems| && |caloriesTexts| == |foodItems|
      modifies this`numberTexts, this`carbonTexts, this`caloriesTexts
      modifies this`totalCarbonText, this`warningShown, this`caloriesText
      ensures Displayed()
    {
      var i := 0;
      while i < |foodItems|
        invariant 0 <= i <= |foodItems|
        invariant |numberTexts| == |foodItems| && |carbonTexts| == |foodItems| && |caloriesTexts| == |foodItems|
        invariant forall j :: 0 <= j < i ==>
          numberTexts[j] == foodItems[j].count
          && carbonTexts[j] == Subtotal(foodItems[j], Carbon)
          && caloriesTexts[j] == Subtotal(foodItems[j], Calories)
      {
        var item := foodItems[i];
        numberTexts := numberTexts[i := item.count];
        carbonTexts := carbonTexts[i := item.count * item.carbonValue];
        caloriesTexts := caloriesTexts[i := item.count * item.calories];
        i := i + 1;
      }
      CalculateTotalCarbon();
      CalculateTotalCalories();
    }
  }
}
