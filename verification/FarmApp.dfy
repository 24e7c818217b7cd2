/**
 The farm object and its loops. Each method is proved to take the farm it holds from the state it
 was in to the state `Farm` gives.
 */
module FarmApp {
  import opened Farm
  import opened FarmRuns

  method CountUnlockedPlots(plots: seq<Plot>) returns (count: nat)
    ensures count == CountUnlocked(plots)
  {
    count := 0;
    for i := 0 to |plots|
      invariant count == CountUnlocked(plots[..i])
    {
      assert plots[..i + 1][..i] == plots[..i];
      if !plots[i].state.Locked? {
        count := count + 1;
      }
    }
    assert plots[..|plots|] == plots;
  }

  method CountPlotsAtLeastLevel(plots: seq<Plot>, level: int) returns (count: nat)
    ensures count == CountAtLeast(plots, level)
  {
    count := 0;
    for i := 0 to |plots|
      invariant count == CountAtLeast(plots[..i], level)
    {
      assert plots[..i + 1][..i] == plots[..i];
      if !plots[i].state.Locked? && plots[i].level >= level {
        count := count + 1;
      }
    }
    assert plots[..|plots|] == plots;
  }

  method UnlockPlotsUpTo(plots: seq<Plot>, target: int) returns (r: seq<Plot>)
    ensures r == UnlockUpTo(plots, target)
  {
    r := plots;
    var unlocked := CountUnlockedPlots(plots);
    var i := 0;
    while i < |r| && unlocked < target
      invariant 0 <= i <= |r| == |plots|
      invariant UnlockFrom(r, i, unlocked, target) == UnlockUpTo(plots, target)
    {
      if r[i].state.Locked? {
        r := r[i := r[i].(state := Empty, level := 1)];
        unlocked := unlocked + 1;
      }
      i := i + 1;
    }
  }

  /** The table row of the rank, or the endless formula. */
  method RequirementForNextRank(rank: int) returns (req: Requirement)
    ensures req == NextRank(rank)
  {
    for i := 0 to |RANKS|
      invariant forall k :: 0 <= k < i ==> RANKS[k].rank != rank + 1
    {
      if RANKS[i].rank == rank + 1 {
        return RANKS[i];
      }
    }
    assert RANKS[0].rank == 2 && RANKS[1].rank == 3 && RANKS[2].rank == 4 && RANKS[3].rank == 5;
    var step := if rank + 1 - 5 > 1 then rank + 1 - 5 else 1;
    var levels := if 10 + step * 2 < 24 then 10 + step * 2 else 24;
    req := Requirement(rank + 1, 500 + step * 220, 50 + step * 15, 20000 + step * 9000, 10 + step * 4, 24, 4, levels);
  }

  method UnlockedCropIndices(rank: int) returns (indices: seq<nat>)
    ensures indices == UnlockedCrops(rank, |CROPS|)
  {
    indices := [];
    for i := 0 to |CROPS|
      invariant indices == UnlockedCrops(rank, i)
    {
      if CROPS[i].unlockRank <= rank {
        indices := indices + [i];
      }
    }
  }

  /** One or two picks among the unlocked crops; the same crop twice becomes one item. */
  method MakeOrder(rank: int, roll: Roll, special: bool) returns (order: Order)
    ensures order == GenerateOrder(rank, roll, special)
  {
    var unlocked := UnlockedCropIndices(rank);
    if unlocked == [] {
      return Order([], 0, 0, false);
    }
    var count := ItemCount(rank, |unlocked|, special, roll.two);
    var crop, amount := CROPS[unlocked[roll.picks.0 % |unlocked|]], ItemAmount(rank, special, roll.extras.0, 0);
    var items, base := AddItem([], crop.id, amount), crop.sellPrice * amount;
    if count >= 2 {
      crop, amount := CROPS[unlocked[roll.picks.1 % |unlocked|]], ItemAmount(rank, special, roll.extras.1, 1);
      items, base := AddItem(items, crop.id, amount), base + crop.sellPrice * amount;
    }
    var coins := Reward(base, special) + rank * 18;
    order := Order(items, coins, coins / 6, special);
  }

  /** Take every item of an order out of the storage. */
  method TakeItems(storage: map<string, int>, items: seq<Item>) returns (left: map<string, int>)
    ensures left == Spend(storage, items)
  {
    left := storage;
    for k := 0 to |items|
      invariant Spend(left, items[k..]) == Spend(storage, items)
    {
      assert items[k..][1..] == items[k + 1..];
      left := Store(left, items[k].cropId, -items[k].amount);
    }
  }

  /** Each level from the second on grows a twentieth faster. */
  method SpeedOf(level: int) returns (speed: real)
    ensures speed == SpeedMultiplier(level)
  {
    speed := 1.0;
    if level >= 2 { speed := speed - 0.05; }
    if level >= 3 { speed := speed - 0.05; }
    if level >= 4 { speed := speed - 0.05; }
    if level >= 5 { speed := speed - 0.05; }
  }

  class App {
    var farm: FarmState

    ghost predicate Valid()
      reads this
    {
      Inv(farm)
    }

    method CanRankUp(req: Requirement) returns (r: bool)
      ensures r == farm.CanRankUp(req)
    {
      if farm.harvested < req.harvests { return false; }
      if farm.ordersDone < req.orders { return false; }
      if farm.coinsEarned < req.coinsEarned { return false; }
      if farm.golden < req.golden { return false; }
      var unlocked := CountUnlockedPlots(farm.plots);
      if unlocked < req.plots { return false; }
      if req.plotLevelCount > 0 {
        var levels := CountPlotsAtLeastLevel(farm.plots, req.plotLevel);
        if levels < req.plotLevelCount { return false; }
      }
      return true;
    }

    method RefillOrders(dice: Dice)
      modifies this
      ensures farm == old(farm).RefillOrders(dice)
    {
      while |farm.orders| < 3
        invariant farm.RefillOrders(dice) == old(farm).RefillOrders(dice)
        decreases 3 - |farm.orders|
      {
        var special := farm.rank >= 4 && farm.orders == [];
        var order := MakeOrder(farm.rank, dice(farm.generated), special);
        farm := farm.(orders := farm.orders + [order], generated := farm.generated + 1);
      }
    }

    method RankUp(dice: Dice)
      modifies this
      ensures farm == old(farm).RankUp(dice)
    {
      farm := farm.(rank := farm.rank + 1);
      var plots := UnlockPlotsUpTo(farm.plots, PlotTarget(farm.rank));
      farm := farm.(plots := plots, coins := farm.coins + 120 * farm.rank);
      assert farm == old(farm).Promoted();
      RefillOrders(dice);
    }

    /** The loop ends because each rank needs more harvests than the one before. */
    method MaybeRankUp(dice: Dice)
      requires farm.rank >= 1
      modifies this
      ensures farm.rank >= old(farm).rank && farm == old(farm).MaybeRankUp(dice)
      ensures !farm.CanRankUp(NextRank(farm.rank))
    {
      var req := RequirementForNextRank(farm.rank);
      var due := CanRankUp(req);
      while due
        invariant farm.rank >= old(farm).rank && due == farm.CanRankUp(NextRank(farm.rank))
        invariant farm.MaybeRankUp(dice) == old(farm).MaybeRankUp(dice)
        decreases farm.Surplus() + 1
      {
        farm.RankUpSurplus(dice);
        RankUp(dice);
        req := RequirementForNextRank(farm.rank);
        due := CanRankUp(req);
      }
    }

    method CanCompleteOrder(order: Order) returns (r: bool)
      ensures r == farm.CanComplete(order)
    {
      for k := 0 to |order.items|
        invariant forall j :: 0 <= j < k ==>
                    order.items[j].cropId in farm.storage && farm.storage[order.items[j].cropId] >= order.items[j].amount
      {
        var item := order.items[k];
        if item.cropId !in farm.storage || farm.storage[item.cropId] < item.amount {
          return false;
        }
      }
      return true;
    }

    method CompleteOrder(order: Order) returns (done: bool)
      modifies this
      ensures done == old(farm).CanComplete(order) && farm == old(farm).CompleteOrder(order)
    {
      done := CanCompleteOrder(order);
      if !done {
        return;
      }
      var left := TakeItems(farm.storage, order.items);
      farm := farm.(storage := left, coins := farm.coins + order.coinReward, xp := farm.xp + order.xpReward);
      farm := farm.(coinsEarned := farm.coinsEarned + order.coinReward, ordersDone := farm.ordersDone + 1);
    }

    method UpdateGrowth(now: real)
      modifies this
      ensures farm == old(farm).(plots := Growth(old(farm).plots, now))
    {
      var plots := farm.plots;
      for i := 0 to |plots|
        invariant |plots| == |farm.plots|
        invariant forall k :: 0 <= k < |plots| ==> plots[k] == if k < i then Grown(farm.plots[k], now) else farm.plots[k]
      {
        if plots[i].state.Growing? && now - plots[i].plantedAt >= plots[i].growSeconds {
          plots := plots[i := plots[i].(state := Ready)];
        }
      }
      assert plots == Growth(farm.plots, now);
      farm := farm.(plots := plots);
    }

    method PlantCrop(i: int, crop: Crop, now: real)
      modifies this
      ensures farm == old(farm).Plant(i, crop, now)
    {
      if i < 0 || i >= |farm.plots| {
        return;
      }
      var plot := farm.plots[i];
      if !plot.state.Empty? || farm.coins < crop.seedCost {
        return;
      }
      var speed := SpeedOf(plot.level);
      plot := plot.(state := Growing, cropId := crop.id, plantedAt := now, growSeconds := Scaled(crop.growSeconds, speed));
      farm := farm.(coins := farm.coins - crop.seedCost, plots := farm.plots[i := plot]);
    }

    method HarvestPlot(i: int, extra: bool, lucky: bool) returns (done: bool)
      modifies this
      ensures done == old(farm).CanHarvest(i) && farm == old(farm).Harvest(i, extra, lucky)
    {
      if i < 0 || i >= |farm.plots| || !farm.plots[i].state.Ready? {
        return false;
      }
      var k := FindCrop(farm.plots[i].cropId);
      if k < 0 {
        return false;
      }
      var crop := CROPS[k];
      var amount := crop.baseYield;
      if farm.plots[i].level >= 3 && extra {
        amount := amount + 1;
      }
      var stored := Store(farm.storage, crop.id, amount);
      var mastery := Store(farm.mastery, crop.id, amount);
      var golden := farm.golden;
      if lucky {
        stored := Store(stored, "golden_" + crop.id, 1);
        golden := golden + 1;
      }
      var plot := farm.plots[i].(state := Empty, cropId := "", plantedAt := 0.0, growSeconds := 0.0);
      farm := farm.(storage := stored, mastery := mastery, golden := golden);
      farm := farm.(harvested := farm.harvested + amount, xp := farm.xp + 8 + amount * 3, plots := farm.plots[i := plot]);
      return true;
    }

    // ----- taps -----

    method HandlePlotTap(i: int, seed: string, now: real, extra: bool, lucky: bool, dice: Dice)
      requires Valid()
      modifies this
      ensures Valid() && farm == old(farm).TapPlot(i, seed, now, extra, lucky, dice)
    {
      TapPlotKeepsInv(farm, i, seed, now, extra, lucky, dice);
      if i < 0 || i >= |farm.plots| {
        return;
      }
      match farm.plots[i].state
      case Locked =>
      case Growing =>
      case Ready =>
        var done := HarvestPlot(i, extra, lucky);
        if done { MaybeRankUp(dice); }
      case Empty =>
        if FindCrop(seed) >= 0 { PlantCrop(i, CROPS[FindCrop(seed)], now); }
    }

    method HandleOrderTap(k: int, dice: Dice)
      requires Valid()
      modifies this
      ensures Valid() && farm == old(farm).TapOrder(k, dice)
    {
      TapOrderKeepsInv(farm, k, dice);
      if k < 0 || k >= |farm.orders| {
        return;
      }
      var done := CompleteOrder(farm.orders[k]);
      if done {
        farm := farm.(orders := farm.orders[..k] + farm.orders[k + 1..]);
        farm.RefillIsOrdersOnly(dice);
        RefillOrders(dice);
        MaybeRankUp(dice);
      }
    }

    method HandleStorageSell(id: string, dice: Dice)
      requires Valid()
      modifies this
      ensures Valid() && farm == old(farm).TapSell(id, dice)
    {
      StepKeepsInv(farm, SellTapped(id), dice);
      var sold := SellAll(id);
      if sold {
        MaybeRankUp(dice);
      }
    }

    method SellAll(id: string) returns (sold: bool)
      modifies this
      ensures sold == (FindCrop(id) >= 0 && Stored(old(farm).storage, id) > 0) && farm == old(farm).Sell(id)
    {
      var k := FindCrop(id);
      if k < 0 {
        return false;
      }
      var amount := Stored(farm.storage, id);
      if amount <= 0 {
        farm := farm.(storage := farm.storage[id := amount]);
        return false;
      }
      var coins := amount * CROPS[k].sellPrice;
      farm := farm.(coins := farm.coins + coins, coinsEarned := farm.coinsEarned + coins, storage := farm.storage[id := 0]);
      return true;
    }

    method HandleUpgradeTap(i: int, dice: Dice)
      requires Valid()
      modifies this
      ensures Valid() && farm == old(farm).TapUpgrade(i, dice)
    {
      StepKeepsInv(farm, UpgradeTapped(i), dice);
      if i < 0 || i >= |farm.plots| || farm.plots[i].state.Locked? || farm.plots[i].level >= MAX_LEVEL {
        return;
      }
      var cost := UpgradeCost(farm.plots[i].level);
      if farm.coins < cost {
        return;
      }
      farm := farm.(coins := farm.coins - cost, plots := farm.plots[i := farm.plots[i].(level := farm.plots[i].level + 1)]);
      MaybeRankUp(dice);
    }

    method ApplyDailyReward(today: int)
      modifies this
      ensures farm == old(farm).DailyReward(today)
    {
      if farm.lastClaimDay == today {
        return;
      }
      farm := farm.(streak := if farm.lastClaimDay == today - 1 then farm.streak + 1 else 1, lastClaimDay := today);
      var coins := farm.DailyCoins(farm.streak);
      farm := farm.(coins := farm.coins + coins, coinsEarned := farm.coinsEarned + coins);
    }

    /** No saved farm was found: a fresh one. */
    constructor (today: int, dice: Dice)
      ensures Valid() && farm == FreshFarm(today, dice)
    {
      farm := FarmState(100, 0, 1, 0, 0, 0, 0, 0, -1, LockedPlots(MAX_PLOTS), map[], map[], [], 0);
      new;
      var plots := UnlockPlotsUpTo(farm.plots, 12);
      farm := farm.(plots := plots);
      FreshFarmInv(today, dice);
      farm.RefillIsOrdersOnly(dice);
      RefillOrders(dice);
      ApplyDailyReward(today);
      MaybeRankUp(dice);
    }
  }
}
