/**
 * The food scanner page (src/pages/FoodScanner.tsx:19-47): the log totals, the log's sugar
 * level, the simulated scan and the hand-over of a scanned food to the food log.
 */
module FoodScannerPage {
  import opened Wrappers
  import opened UserTypes
  import L = Ledger
  import UserContext

  /** `foodLog.reduce((acc, f) => acc + f.calories, 0)`. */
  function TotalCalories(log: seq<FoodEntry>): int
    decreases |log|
  {
    if log == [] then 0 else log[0].calories + TotalCalories(log[1..])
  }

  /** `foodLog.reduce((acc, f) => acc + f.sugar, 0)`. */
  function TotalSugar(log: seq<FoodEntry>): int
    decreases |log|
  {
    if log == [] then 0 else log[0].sugar + TotalSugar(log[1..])
  }

  /** Both totals add up over a split of the log. */
  lemma {:induction false} TotalsOfConcat(a: seq<FoodEntry>, b: seq<FoodEntry>)
    ensures TotalCalories(a + b) == TotalCalories(a) + TotalCalories(b)
    ensures TotalSugar(a + b) == TotalSugar(a) + TotalSugar(b)
    decreases |a|
  {
    if a != [] {
      assert (a + b)[1..] == a[1..] + b;
      TotalsOfConcat(a[1..], b);
    } else {
      assert a + b == b;
    }
  }

  /** A log of entries without negative amounts has no negative totals. */
  lemma {:induction false} TotalsNonNegative(log: seq<FoodEntry>)
    requires forall i :: 0 <= i < |log| ==> log[i].calories >= 0 && log[i].sugar >= 0
    ensures TotalCalories(log) >= 0 && TotalSugar(log) >= 0
    decreases |log|
  {
    if log != [] {
      assert forall i :: 0 <= i < |log| - 1 ==> log[1..][i] == log[i + 1];
      TotalsNonNegative(log[1..]);
    }
  }

  /** `avgLevel`: high above 40 g of sugar, moderate above 20 g, else safe. */
  function AvgLevel(totalSugar: int): (r: SugarLevel)
    ensures r == SugarLevel.High <==> totalSugar > 40
    ensures r == SugarLevel.Moderate <==> 20 < totalSugar <= 40
    ensures r == SugarLevel.Safe <==> totalSugar <= 20
  {
    if totalSugar > 40 then SugarLevel.High
    else if totalSugar > 20 then SugarLevel.Moderate
    else SugarLevel.Safe
  }

  function LevelRank(l: SugarLevel): nat {
    match l
    case Safe => 0
    case Moderate => 1
    case High => 2
  }

  /** Logging a food with sugar never lowers the log's level. */
  lemma AddingFoodNeverLowersLevel(entry: FoodEntry, log: seq<FoodEntry>)
    requires entry.sugar >= 0
    ensures LevelRank(AvgLevel(TotalSugar(log))) <= LevelRank(AvgLevel(TotalSugar([entry] + log)))
  {
    TotalsOfConcat([entry], log);
    assert TotalSugar([entry]) == entry.sugar + TotalSugar([]);
  }

  /** The three foods a simulated scan picks from, stamped with the scan's id. */
  function SimulatedFoods(id: string): (foods: seq<FoodEntry>)
    ensures |foods| == 3
    ensures forall i :: 0 <= i < 3 ==> foods[i].id == id && foods[i].time == "Just now"
  {
    [
      FoodEntry(id, "Pizza Slice", 285, 3, None, SugarLevel.Moderate, "Just now", None, None),
      FoodEntry(id, "Chocolate Milkshake", 450, 55, None, SugarLevel.High, "Just now", None, None),
      FoodEntry(id, "Greek Yogurt", 100, 7, None, SugarLevel.Safe, "Just now", None, None)
    ]
  }

  /** The page state: whether the camera overlay shows, and the scanned food awaiting a decision. */
  class FoodScanner {
    const user: UserContext.UserProvider
    var showCamera: bool
    var scannedFood: Option<FoodEntry>

    constructor (user: UserContext.UserProvider)
      ensures this.user == user && !showCamera && scannedFood == None
    {
      this.user := user;
      showCamera := false;
      scannedFood := None;
    }

    /** `simulateScan`, first half: the camera overlay opens. */
    method StartScan()
      modifies this`showCamera
      ensures showCamera
    {
      showCamera := true;
    }

    /**
     * The scan timer fires: `pick` stands for `Math.floor(Math.random() * 3)` and `id` for the
     * clock's `Date.now()` text. The picked food awaits and the overlay closes.
     */
    method FinishScan(id: string, pick: int)
      requires 0 <= pick < 3
      modifies this`showCamera, this`scannedFood
      ensures scannedFood == Some(SimulatedFoods(id)[pick]) && !showCamera
    {
      var foods := SimulatedFoods(id);
      scannedFood := Some(foods[pick]);
      showCamera := false;
    }

    /**
     * `addScanned`: nothing without a pending food; otherwise exactly that food is logged
     * once, the totals grow by its amounts, and the pending food is cleared.
     */
    method AddScanned()
      modifies this`scannedFood, user`foodLog, user`points, user`badges
      ensures old(scannedFood).None? ==>
        scannedFood == None && unchanged(user)
      ensures old(scannedFood).Some? ==>
        && scannedFood == None
        && user.foodLog == [old(scannedFood).value] + old(user.foodLog)
        && user.LedgerState() == L.FoodLogged(old(user.LedgerState()), |user.foodLog|)
        && TotalCalories(user.foodLog) == TotalCalories(old(user.foodLog)) + old(scannedFood).value.calories
        && TotalSugar(user.foodLog) == TotalSugar(old(user.foodLog)) + old(scannedFood).value.sugar
      ensures old(user.Consistent()) ==> user.Consistent()
    {
      if scannedFood.Some? {
        var entry := scannedFood.value;
        user.AddFoodEntry(entry);
        TotalsOfConcat([entry], old(user.foodLog));
        assert TotalCalories([entry]) == entry.calories + TotalCalories([]);
        assert TotalSugar([entry]) == entry.sugar + TotalSugar([]);
        scannedFood := None;
      }
    }
  }
}
