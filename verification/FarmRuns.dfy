/**
 Whole runs of a fresh farm: the rank always stands at the first requirement that is not met, the
 open plots are exactly the rank's, and neither coins nor storage ever go below zero.
 */
module FarmRuns {
  import opened Farm

  // ----- plots -----

  lemma {:induction false} SameLocksSameCount(a: seq<Plot>, b: seq<Plot>)
    requires |a| == |b| && forall i :: 0 <= i < |a| ==> (a[i].state.Locked? <==> b[i].state.Locked?)
    ensures CountUnlocked(a) == CountUnlocked(b)
  {
    if a != [] { SameLocksSameCount(a[..|a| - 1], b[..|b| - 1]); }
  }

  lemma {:induction false} CountBounds(plots: seq<Plot>)
    ensures CountUnlocked(plots) <= |plots|
    ensures CountUnlocked(plots) == |plots| <==> forall i :: 0 <= i < |plots| ==> !plots[i].state.Locked?
  {
    if plots != [] {
      var n := |plots| - 1;
      CountBounds(plots[..n]);
      assert forall i :: 0 <= i < n ==> plots[..n][i] == plots[i];
    }
  }

  lemma {:induction false} OpenOne(plots: seq<Plot>, i: nat)
    requires i < |plots| && plots[i].state.Locked?
    ensures CountUnlocked(plots[i := plots[i].(state := Empty, level := 1)]) == CountUnlocked(plots) + 1
  {
    var n := |plots| - 1;
    var after := plots[i := plots[i].(state := Empty, level := 1)];
    if i < n {
      OpenOne(plots[..n], i);
      assert after[..n] == plots[..n][i := plots[i].(state := Empty, level := 1)];
    } else {
      assert after[..n] == plots[..n];
    }
  }

  ghost predicate OpenBefore(plots: seq<Plot>, i: nat) {
    forall k :: 0 <= k < i && k < |plots| ==> !plots[k].state.Locked?
  }

  /** Opening plots reaches the target exactly, as far as there are plots, and changes no open plot. */
  lemma {:induction false} UnlockReaches(plots: seq<Plot>, i: nat, unlocked: int, target: int)
    requires i <= |plots| && unlocked == CountUnlocked(plots) && OpenBefore(plots, i)
    ensures var r := UnlockFrom(plots, i, unlocked, target);
            && CountUnlocked(r) == Max(unlocked, Min(target, |plots|))
            && forall k :: 0 <= k < |plots| ==>
                 r[k] == plots[k] || (plots[k].state.Locked? && r[k] == plots[k].(state := Empty, level := 1))
    decreases |plots| - i
  {
    CountBounds(plots);
    if i == |plots| || unlocked >= target {
    } else if plots[i].state.Locked? {
      OpenOne(plots, i);
      UnlockReaches(plots[i := plots[i].(state := Empty, level := 1)], i + 1, unlocked + 1, target);
    } else {
      UnlockReaches(plots, i + 1, unlocked, target);
    }
  }

  // ----- orders -----

  ghost predicate DistinctItems(items: seq<Item>) {
    forall i, j :: 0 <= i < j < |items| ==> items[i].cropId != items[j].cropId
  }

  /** An order asks for different crops, each in a positive amount. */
  ghost predicate Fair(order: Order) {
    && DistinctItems(order.items) && order.coinReward >= 0 && order.xpReward >= 0
    && forall k :: 0 <= k < |order.items| ==> order.items[k].amount > 0
  }

  lemma {:induction false} AddItemKeepsFair(items: seq<Item>, id: string, amount: int)
    requires DistinctItems(items) && amount > 0 && forall k :: 0 <= k < |items| ==> items[k].amount > 0
    ensures var r := AddItem(items, id, amount);
            && DistinctItems(r) && (forall k :: 0 <= k < |r| ==> r[k].amount > 0)
            && (forall k :: 0 <= k < |r| ==> r[k].cropId == id || exists j :: 0 <= j < |items| && items[j].cropId == r[k].cropId)
  {
    if items != [] && items[0].cropId != id {
      var rest := AddItem(items[1..], id, amount);
      AddItemKeepsFair(items[1..], id, amount);
      forall k | 0 <= k < |rest| ensures rest[k].cropId != items[0].cropId {
        if rest[k].cropId != id {
          var j :| 0 <= j < |items[1..]| && items[1..][j].cropId == rest[k].cropId;
          assert items[j + 1].cropId == rest[k].cropId;
        }
      }
      forall k | 0 <= k < |rest| && rest[k].cropId != id
        ensures exists j :: 0 <= j < |items| && items[j].cropId == rest[k].cropId {
        var j :| 0 <= j < |items[1..]| && items[1..][j].cropId == rest[k].cropId;
        assert items[j + 1].cropId == rest[k].cropId;
      }
    }
  }

  function PriceOf(id: string): nat {
    var k := FindCrop(id);
    if k >= 0 then CROPS[k].sellPrice else 0
  }

  /** What the crops of an order would sell for. */
  function Worth(items: seq<Item>): int {
    if items == [] then 0 else items[0].amount * PriceOf(items[0].cropId) + Worth(items[1..])
  }

  lemma {:induction false} CropIsAfter(k: nat, i: nat)
    requires i <= k < |CROPS|
    ensures CropFrom(CROPS[k].id, i) == k
    decreases k - i
  {
    if i < k { CropIsAfter(k, i + 1); }
  }

  lemma CropIsFound(k: nat)
    requires k < |CROPS|
    ensures FindCrop(CROPS[k].id) == k
  {
    CropIsAfter(k, 0);
  }

  lemma {:induction false} AddItemAddsWorth(items: seq<Item>, id: string, amount: int)
    ensures Worth(AddItem(items, id, amount)) == Worth(items) + amount * PriceOf(id)
  {
    if items == [] {
      assert Worth([Item(id, amount)]) == amount * PriceOf(id) + Worth([]);
    } else if items[0].cropId != id {
      AddItemAddsWorth(items[1..], id, amount);
    } else {
      var more := items[0].(amount := items[0].amount + amount);
      assert ([more] + items[1..])[1..] == items[1..];
      assert more.amount * PriceOf(id) == items[0].amount * PriceOf(id) + amount * PriceOf(id);
    }
  }

  /** The draft asks for different crops in positive amounts, and its price is what they sell for. */
  ghost predicate Priced(d: Draft) {
    DistinctItems(d.items) && d.base == Worth(d.items) >= 0 && forall k :: 0 <= k < |d.items| ==> d.items[k].amount > 0
  }

  lemma AddKeepsPriced(d: Draft, k: nat, amount: int)
    requires Priced(d) && k < |CROPS| && amount > 0
    ensures Priced(d.Add(CROPS[k], amount)) && d.Add(CROPS[k], amount).base > d.base && d.Add(CROPS[k], amount).items != []
  {
    CropIsFound(k);
    AddItemKeepsFair(d.items, CROPS[k].id, amount);
    AddItemAddsWorth(d.items, CROPS[k].id, amount);
  }

  lemma OfferPays(d: Draft, rank: int, special: bool)
    requires Priced(d) && d.base > 0 && d.items != [] && rank >= 1
    ensures var order := d.Offer(rank, special);
            && Fair(order) && order.items != [] && order.special == special
            && order.coinReward == Reward(Worth(order.items), special) + 18 * rank
            && order.coinReward > Worth(order.items) > 0
  {
  }

  /**
   The reward depends on nothing but the crops asked for, the rank and the kind of order, also when
   the same crop was drawn twice; and it is more than the crops would sell for.
   */
  lemma OrderPaysMore(rank: int, roll: Roll, special: bool)
    requires rank >= 1
    ensures var order := GenerateOrder(rank, roll, special);
            && Fair(order) && order.items != [] && order.special == special
            && order.coinReward == Reward(Worth(order.items), special) + 18 * rank
            && order.coinReward > Worth(order.items) > 0
  {
    var unlocked := UnlockedCrops(rank, |CROPS|);
    var a, b := unlocked[roll.picks.0 % |unlocked|], unlocked[roll.picks.1 % |unlocked|];
    var one := Draft([], 0).Add(CROPS[a], ItemAmount(rank, special, roll.extras.0, 0));
    var two := one.Add(CROPS[b], ItemAmount(rank, special, roll.extras.1, 1));
    AddKeepsPriced(Draft([], 0), a, ItemAmount(rank, special, roll.extras.0, 0));
    AddKeepsPriced(one, b, ItemAmount(rank, special, roll.extras.1, 1));
    OfferPays(one, rank, special);
    OfferPays(two, rank, special);
  }

  /** Every generated order is fair, whatever the dice say. */
  lemma GeneratedIsFair(rank: int, roll: Roll, special: bool)
    requires rank >= 1
    ensures Fair(GenerateOrder(rank, roll, special)) && GenerateOrder(rank, roll, special).items != []
  {
    OrderPaysMore(rank, roll, special);
  }

  function Demand(items: seq<Item>, id: string): int {
    if items == [] then 0 else (if items[0].cropId == id then items[0].amount else 0) + Demand(items[1..], id)
  }

  /** Completing any order takes exactly what its items add up to. */
  lemma {:induction false} SpendTakesDemand(storage: map<string, int>, items: seq<Item>, id: string)
    ensures Stored(Spend(storage, items), id) == Stored(storage, id) - Demand(items, id)
    ensures id in Spend(storage, items) ==> id in storage || exists k :: 0 <= k < |items| && items[k].cropId == id
    decreases |items|
  {
    if items != [] {
      var rest := Store(storage, items[0].cropId, -items[0].amount);
      SpendTakesDemand(rest, items[1..], id);
      if id in Spend(rest, items[1..]) && id !in rest {
        var k :| 0 <= k < |items[1..]| && items[1..][k].cropId == id;
        assert items[k + 1].cropId == id;
      }
    }
  }

  lemma {:induction false} NoDemand(items: seq<Item>, id: string)
    requires forall k :: 0 <= k < |items| ==> items[k].cropId != id
    ensures Demand(items, id) == 0
  {
    if items != [] { NoDemand(items[1..], id); }
  }

  lemma {:induction false} DemandOfDistinct(items: seq<Item>, k: nat)
    requires DistinctItems(items) && k < |items|
    ensures Demand(items, items[k].cropId) == items[k].amount
  {
    if k == 0 {
      forall j | 0 <= j < |items[1..]| ensures items[1..][j].cropId != items[0].cropId {
        assert items[1..][j] == items[j + 1];
      }
      NoDemand(items[1..], items[0].cropId);
    } else {
      assert items[1..][k - 1] == items[k];
      DemandOfDistinct(items[1..], k - 1);
    }
  }

  ghost predicate NonNegative(storage: map<string, int>) {
    forall id :: id in storage ==> storage[id] >= 0
  }

  /**
   An order that can be completed leaves no negative amount if and only if for each crop the items
   together ask for no more than is stored; with different crops they never do.
   */
  lemma SpendStaysNonNegativeIff(storage: map<string, int>, items: seq<Item>)
    requires NonNegative(storage)
    ensures NonNegative(Spend(storage, items)) <==> forall id :: Demand(items, id) <= Stored(storage, id)
  {
    var after := Spend(storage, items);
    if NonNegative(after) {
      forall id ensures Demand(items, id) <= Stored(storage, id) {
        SpendTakesDemand(storage, items, id);
      }
    }
    if forall id :: Demand(items, id) <= Stored(storage, id) {
      forall id | id in after ensures after[id] >= 0 {
        SpendTakesDemand(storage, items, id);
        assert Demand(items, id) <= Stored(storage, id);
      }
    }
  }

  lemma FairOrderStaysNonNegative(f: FarmState, order: Order)
    requires Fair(order) && f.CanComplete(order) && NonNegative(f.storage)
    ensures NonNegative(Spend(f.storage, order.items))
  {
    forall id ensures Demand(order.items, id) <= Stored(f.storage, id) {
      if exists k :: 0 <= k < |order.items| && order.items[k].cropId == id {
        var k :| 0 <= k < |order.items| && order.items[k].cropId == id;
        DemandOfDistinct(order.items, k);
      } else {
        NoDemand(order.items, id);
      }
    }
    SpendStaysNonNegativeIff(f.storage, order.items);
  }

  /** The same crop twice in one order would pass the check and still overdraw the storage. */
  lemma RepeatedCropOverdraws(dice: Dice)
    ensures var items := [Item("corn", 2), Item("corn", 2)];
            var f := FarmState(0, 0, 1, 0, 0, 0, 0, 0, 0, [], map["corn" := 3], map[], [], 0);
            && f.CanComplete(Order(items, 0, 0, false)) && NonNegative(f.storage) && !NonNegative(Spend(f.storage, items))
  {
    var items := [Item("corn", 2), Item("corn", 2)];
    var once := Store(map["corn" := 3], "corn", -2);
    assert items[1..] == [Item("corn", 2)] && items[1..][1..] == [];
    assert Spend(map["corn" := 3], items) == Spend(once, items[1..]) == Store(once, "corn", -2);
    assert Store(once, "corn", -2)["corn"] == -1;
  }

  // ----- the invariant -----

  ghost predicate GoodPlot(plot: Plot) {
    && (plot.state.Growing? || plot.state.Ready? ==> FindCrop(plot.cropId) >= 0)
    && 1 <= plot.level <= MAX_LEVEL
  }

  function RankBonus(rank: int): int
    decreases rank
  {
    if rank <= 1 then 0 else RankBonus(rank - 1) + 120 * rank
  }

  /** What the coins can come from: the first hundred, earnings, and 120 times each rank reached. */
  function CoinLimit(f: FarmState): int {
    100 + f.coinsEarned + RankBonus(f.rank)
  }

  ghost predicate Sound(f: FarmState) {
    && f.rank >= 1 && 0 <= f.coins <= CoinLimit(f) && f.harvested >= 0
    && |f.plots| == MAX_PLOTS && CountUnlocked(f.plots) == PlotTarget(f.rank)
    && (forall i :: 0 <= i < |f.plots| ==> GoodPlot(f.plots[i]))
    && NonNegative(f.storage) && |f.orders| <= 3 && forall k :: 0 <= k < |f.orders| ==> Fair(f.orders[k])
  }

  /** Between taps no rank is due. */
  ghost predicate Inv(f: FarmState) {
    Sound(f) && |f.orders| == 3 && !f.CanRankUp(NextRank(f.rank))
  }

  lemma FairOrderKeepsSound(f: FarmState, order: Order, generated: nat)
    requires Sound(f) && |f.orders| < 3 && Fair(order)
    ensures Sound(f.(orders := f.orders + [order], generated := generated))
  {
  }

  lemma {:induction false} RefillKeepsSound(f: FarmState, dice: Dice)
    requires Sound(f)
    ensures Sound(f.RefillOrders(dice)) && |f.RefillOrders(dice).orders| == 3
    decreases 3 - |f.orders|
  {
    if |f.orders| < 3 {
      var special := f.rank >= 4 && f.orders == [];
      var order := GenerateOrder(f.rank, dice(f.generated), special);
      GeneratedIsFair(f.rank, dice(f.generated), special);
      FairOrderKeepsSound(f, order, f.generated + 1);
      RefillKeepsSound(f.(orders := f.orders + [order], generated := f.generated + 1), dice);
    }
  }

  lemma PromotedIsSound(f: FarmState)
    requires Sound(f)
    ensures Sound(f.Promoted())
  {
    assert OpenBefore(f.plots, 0);
    UnlockReaches(f.plots, 0, CountUnlocked(f.plots), PlotTarget(f.rank + 1));
    var up := f.Promoted();
    assert RankBonus(up.rank) == RankBonus(f.rank) + 120 * up.rank;
    forall i | 0 <= i < |up.plots| ensures GoodPlot(up.plots[i]) {
      assert GoodPlot(f.plots[i]);
    }
  }

  lemma RankUpKeepsSound(f: FarmState, dice: Dice)
    requires Sound(f)
    ensures Sound(f.RankUp(dice)) && |f.RankUp(dice).orders| == 3
  {
    PromotedIsSound(f);
    RefillKeepsSound(f.Promoted(), dice);
  }

  /** Ranking up stops, and stops with the next requirement unmet. */
  lemma {:induction false} MaybeRankUpSettles(f: FarmState, dice: Dice)
    requires Sound(f) && |f.orders| == 3
    ensures Inv(f.MaybeRankUp(dice))
    decreases f.Surplus() + 1
  {
    if f.CanRankUp(NextRank(f.rank)) {
      f.RankUpSurplus(dice);
      RankUpKeepsSound(f, dice);
      MaybeRankUpSettles(f.RankUp(dice), dice);
    }
  }

  ghost predicate Earned(f: FarmState, req: Requirement) {
    f.harvested >= req.harvests && f.ordersDone >= req.orders && f.coinsEarned >= req.coinsEarned && f.golden >= req.golden
  }

  lemma RankUpKeepsTotals(f: FarmState, dice: Dice)
    ensures var up := f.RankUp(dice);
            && up.rank == f.rank + 1 && up.coins == f.coins + 120 * (f.rank + 1) && up.storage == f.storage
            && up.harvested == f.harvested && up.ordersDone == f.ordersDone && up.coinsEarned == f.coinsEarned
            && up.golden == f.golden
  {
    f.Promoted().RefillIsOrdersOnly(dice);
  }

  /** Each rank pays 120 times its number, and nothing else changes hands. */
  lemma {:induction false} RanksPayTheirBonus(f: FarmState, dice: Dice)
    requires f.rank >= 1
    ensures var g := f.MaybeRankUp(dice);
            && g.rank >= f.rank && g.coins - f.coins == RankBonus(g.rank) - RankBonus(f.rank)
            && g.coinsEarned == f.coinsEarned && g.storage == f.storage
    decreases f.Surplus() + 1
  {
    if f.CanRankUp(NextRank(f.rank)) {
      f.RankUpSurplus(dice);
      RankUpKeepsTotals(f, dice);
      RanksPayTheirBonus(f.RankUp(dice), dice);
      assert RankBonus(f.rank + 1) == RankBonus(f.rank) + 120 * (f.rank + 1);
    }
  }

  /** Every rank passed was earned. */
  lemma {:induction false} RanksAreEarned(f: FarmState, dice: Dice, r: int)
    requires f.rank >= 1
    ensures f.MaybeRankUp(dice).rank >= f.rank
    ensures f.rank <= r < f.MaybeRankUp(dice).rank ==> Earned(f, NextRank(r))
    decreases f.Surplus() + 1
  {
    if f.CanRankUp(NextRank(f.rank)) {
      f.RankUpSurplus(dice);
      RankUpKeepsTotals(f, dice);
      RanksAreEarned(f.RankUp(dice), dice, r);
    }
  }

  /** The number of open plots never holds a rank back. */
  lemma PlotsNeverBlock(f: FarmState)
    requires Sound(f)
    ensures CountUnlocked(f.plots) >= NextRank(f.rank).plots
  {
  }

  // ----- taps -----

  lemma SamePlots(f: FarmState, g: FarmState)
    requires Sound(f) && g.rank == f.rank && |g.plots| == |f.plots|
    requires forall i :: 0 <= i < |f.plots| ==> (g.plots[i].state.Locked? <==> f.plots[i].state.Locked?)
    ensures CountUnlocked(g.plots) == PlotTarget(g.rank)
  {
    SameLocksSameCount(f.plots, g.plots);
  }

  lemma {:induction false} LevelsSame(a: seq<Plot>, b: seq<Plot>, level: int)
    requires |a| == |b|
    requires forall i :: 0 <= i < |a| ==> (a[i].state.Locked? <==> b[i].state.Locked?) && a[i].level == b[i].level
    ensures CountAtLeast(a, level) == CountAtLeast(b, level)
  {
    if a != [] { LevelsSame(a[..|a| - 1], b[..|b| - 1], level); }
  }

  lemma PlantKeepsInv(f: FarmState, i: int, k: nat, now: real)
    requires Inv(f) && k < |CROPS|
    ensures Inv(f.Plant(i, CROPS[k], now))
  {
    var g := f.Plant(i, CROPS[k], now);
    if g != f {
      CropIsFound(k);
      SamePlots(f, g);
      LevelsSame(f.plots, g.plots, NextRank(f.rank).plotLevel);
    }
  }

  lemma HarvestKeepsSound(f: FarmState, i: int, extra: bool, lucky: bool)
    requires Sound(f)
    ensures Sound(f.Harvest(i, extra, lucky)) && f.Harvest(i, extra, lucky).orders == f.orders
  {
    if f.CanHarvest(i) { SamePlots(f, f.Harvest(i, extra, lucky)); }
  }

  /** A ready plot is always harvested: its crop is a known one. */
  lemma ReadyIsHarvested(f: FarmState, i: int)
    requires Sound(f) && 0 <= i < |f.plots| && f.plots[i].state.Ready?
    ensures f.CanHarvest(i)
  {
  }

  lemma CompleteKeepsSound(f: FarmState, k: nat)
    requires Sound(f) && k < |f.orders| && f.CanComplete(f.orders[k])
    ensures Sound(f.CompleteOrder(f.orders[k]).(orders := f.orders[..k] + f.orders[k + 1..]))
  {
    FairOrderStaysNonNegative(f, f.orders[k]);
  }

  lemma SellKeepsSound(f: FarmState, id: string)
    requires Sound(f)
    ensures Sound(f.Sell(id)) && f.Sell(id).orders == f.orders
  {
  }

  lemma UpgradeKeepsSound(f: FarmState, i: int)
    requires Sound(f)
    ensures Sound(f.Upgrade(i)) && f.Upgrade(i).orders == f.orders
  {
    if f.CanUpgrade(i) { SamePlots(f, f.Upgrade(i)); }
  }

  lemma GrowthKeepsInv(f: FarmState, now: real)
    requires Inv(f)
    ensures Inv(f.(plots := Growth(f.plots, now)))
  {
    var g := f.(plots := Growth(f.plots, now));
    SamePlots(f, g);
    LevelsSame(f.plots, g.plots, NextRank(f.rank).plotLevel);
    forall i | 0 <= i < |g.plots| ensures GoodPlot(g.plots[i]) {
      assert GoodPlot(f.plots[i]);
    }
  }

  lemma TapOrderKeepsInv(f: FarmState, k: int, dice: Dice)
    requires Inv(f)
    ensures Inv(f.TapOrder(k, dice))
  {
    if 0 <= k < |f.orders| && f.CanComplete(f.orders[k]) {
      var done := f.CompleteOrder(f.orders[k]).(orders := f.orders[..k] + f.orders[k + 1..]);
      CompleteKeepsSound(f, k);
      RefillKeepsSound(done, dice);
      MaybeRankUpSettles(done.RefillOrders(dice), dice);
    }
  }

  lemma SellNothingKeepsInv(f: FarmState, id: string)
    requires Inv(f) && (FindCrop(id) < 0 || Stored(f.storage, id) <= 0)
    ensures Inv(f.Sell(id))
  {
  }

  lemma TapPlotKeepsInv(f: FarmState, i: int, seed: string, now: real, extra: bool, lucky: bool, dice: Dice)
    requires Inv(f)
    ensures Inv(f.TapPlot(i, seed, now, extra, lucky, dice))
  {
    if 0 <= i < |f.plots| {
      match f.plots[i].state
      case Ready =>
        HarvestKeepsSound(f, i, extra, lucky);
        MaybeRankUpSettles(f.Harvest(i, extra, lucky), dice);
      case Empty => if FindCrop(seed) >= 0 { PlantKeepsInv(f, i, FindCrop(seed), now); }
      case _ =>
    }
  }

  /** Every tap and every passing moment keeps the farm sound and leaves no rank due. */
  lemma StepKeepsInv(f: FarmState, e: Event, dice: Dice)
    requires Inv(f)
    ensures Inv(f.Step(e, dice))
  {
    match e
    case PlotTapped(i, seed, now, extra, lucky) => TapPlotKeepsInv(f, i, seed, now, extra, lucky, dice);
    case OrderTapped(k) => TapOrderKeepsInv(f, k, dice);
    case SellTapped(id) =>
      if FindCrop(id) < 0 || Stored(f.storage, id) <= 0 {
        SellNothingKeepsInv(f, id);
      } else {
        SellKeepsSound(f, id);
        MaybeRankUpSettles(f.Sell(id), dice);
      }
    case UpgradeTapped(i) =>
      UpgradeKeepsSound(f, i);
      MaybeRankUpSettles(f.Upgrade(i), dice);
    case Passed(now) => GrowthKeepsInv(f, now);
  }

  // ----- a fresh farm -----

  const LOCKED_PLOT := Plot(Locked, "", 0.0, 0.0, 1)

  function LockedPlots(n: nat): (plots: seq<Plot>)
    ensures |plots| == n && forall i :: 0 <= i < n ==> plots[i] == LOCKED_PLOT
  {
    seq(n, i => LOCKED_PLOT)
  }

  function DefaultFarm(): FarmState {
    FarmState(100, 0, 1, 0, 0, 0, 0, 0, -1, UnlockUpTo(LockedPlots(MAX_PLOTS), 12), map[], map[], [], 0)
  }

  lemma {:induction false} NoneUnlocked(plots: seq<Plot>)
    requires forall i :: 0 <= i < |plots| ==> plots[i].state.Locked?
    ensures CountUnlocked(plots) == 0
  {
    if plots != [] { NoneUnlocked(plots[..|plots| - 1]); }
  }

  /** The farm as the program first shows it: three orders, the day's reward, and any rank due. */
  function FreshFarm(today: int, dice: Dice): FarmState {
    DefaultFarm().RefillIsOrdersOnly(dice);
    DefaultFarm().RefillOrders(dice).DailyReward(today).MaybeRankUp(dice)
  }

  lemma DefaultIsSound()
    ensures Sound(DefaultFarm())
  {
    var plots := LockedPlots(MAX_PLOTS);
    NoneUnlocked(plots);
    assert OpenBefore(plots, 0);
    UnlockReaches(plots, 0, 0, 12);
  }

  lemma FreshFarmInv(today: int, dice: Dice)
    ensures Inv(FreshFarm(today, dice))
  {
    DefaultIsSound();
    RefillKeepsSound(DefaultFarm(), dice);
    MaybeRankUpSettles(DefaultFarm().RefillOrders(dice).DailyReward(today), dice);
  }

  lemma RankStays(f: FarmState, e: Event, dice: Dice)
    requires f.rank >= 1
    ensures f.Step(e, dice).rank >= 1
  {
    match e
    case PlotTapped(i, seed, now, extra, lucky) => RanksAreEarned(f.Harvest(i, extra, lucky), dice, 1);
    case OrderTapped(k) =>
      if 0 <= k < |f.orders| {
        var done := f.CompleteOrder(f.orders[k]).(orders := f.orders[..k] + f.orders[k + 1..]);
        done.RefillIsOrdersOnly(dice);
        RanksAreEarned(done.RefillOrders(dice), dice, 1);
      }
    case SellTapped(id) => RanksAreEarned(f.Sell(id), dice, 1);
    case UpgradeTapped(i) => RanksAreEarned(f.Upgrade(i), dice, 1);
    case Passed(now) =>
  }

  function Run(f: FarmState, events: seq<Event>, dice: Dice): FarmState
    requires f.rank >= 1
    decreases |events|
  {
    if events == [] then f
    else
      RankStays(f, events[0], dice);
      Run(f.Step(events[0], dice), events[1..], dice)
  }

  lemma {:induction false} RunKeepsInv(f: FarmState, events: seq<Event>, dice: Dice)
    requires Inv(f)
    ensures Inv(Run(f, events, dice))
    decreases |events|
  {
    if events != [] {
      StepKeepsInv(f, events[0], dice);
      RunKeepsInv(f.Step(events[0], dice), events[1..], dice);
    }
  }

  /** From a fresh farm, whatever is tapped. */
  lemma FreshFarmStaysInOrder(today: int, events: seq<Event>, dice: Dice)
    ensures FreshFarm(today, dice).rank >= 1
    ensures var f := Run(FreshFarm(today, dice), events, dice);
            && CountUnlocked(f.plots) == PlotTarget(f.rank) && f.coins >= 0 && NonNegative(f.storage)
            && !f.CanRankUp(NextRank(f.rank)) && f.coins <= CoinLimit(f)
  {
    FreshFarmInv(today, dice);
    RunKeepsInv(FreshFarm(today, dice), events, dice);
  }
}
