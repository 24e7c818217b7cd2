/**
 The farm: plots, storage, orders and the rank that opens more of them. The n-th generated order
 takes the n-th roll of the dice.
 */
module Farm {

  const MAX_PLOTS := 24
  const MAX_LEVEL := 5

  datatype PlotState = Locked | Empty | Growing | Ready

  datatype Crop = Crop(id: string, unlockRank: int, seedCost: nat, sellPrice: nat, growSeconds: real, baseYield: nat)

  datatype Plot = Plot(state: PlotState, cropId: string, plantedAt: real, growSeconds: real, level: int)

  datatype Item = Item(cropId: string, amount: int)

  datatype Order = Order(items: seq<Item>, coinReward: int, xpReward: int, special: bool)

  datatype Requirement = Requirement(
    rank: int, harvests: int, orders: int, coinsEarned: int, golden: int, plots: int, plotLevel: int, plotLevelCount: int)

  /** The random choices behind one order. */
  datatype Roll = Roll(two: bool, picks: (nat, nat), extras: (nat, nat))

  type Dice = nat -> Roll

  const CROPS := [
    Crop("carrot", 1, 5, 9, 30.0, 1),
    Crop("corn", 2, 15, 28, 120.0, 1),
    Crop("tomato", 3, 35, 75, 300.0, 1),
    Crop("potato", 4, 60, 135, 600.0, 1),
    Crop("strawberry", 5, 110, 260, 1200.0, 1),
    Crop("pumpkin", 7, 300, 780, 3600.0, 1),
    Crop("golden_wheat", 10, 900, 2600, 10800.0, 1)]

  function CropFrom(id: string, i: nat): (r: int)
    requires i <= |CROPS|
    ensures -1 <= r < |CROPS| && (r >= 0 ==> CROPS[r].id == id)
    decreases |CROPS| - i
  {
    if i == |CROPS| then -1 else if CROPS[i].id == id then i else CropFrom(id, i + 1)
  }

  function FindCrop(id: string): (i: int)
    ensures -1 <= i < |CROPS| && (i >= 0 ==> CROPS[i].id == id)
  {
    CropFrom(id, 0)
  }

  // ----- ranks -----

  const RANKS := [
    Requirement(2, 20, 3, 200, 0, 12, 1, 0),
    Requirement(3, 80, 10, 1000, 0, 14, 2, 3),
    Requirement(4, 200, 25, 5000, 1, 16, 3, 5),
    Requirement(5, 500, 50, 20000, 10, 20, 3, 10)]

  function Max(a: int, b: int): int {
    if a >= b then a else b
  }

  function Min(a: int, b: int): int {
    if a <= b then a else b
  }

  /** From the table for the first ranks, from the endless formula after that. */
  function NextRank(rank: int): Requirement {
    if 1 <= rank <= |RANKS| then RANKS[rank - 1]
    else
      var step := Max(1, rank + 1 - 5);
      Requirement(rank + 1, 500 + step * 220, 50 + step * 15, 20000 + step * 9000, 10 + step * 4, 24, 4, Min(24, 10 + step * 2))
  }

  function PlotTarget(rank: int): int {
    if rank <= 1 then 12 else if rank == 2 then 14 else if rank == 3 then 16 else if rank == 4 then 20 else 24
  }

  function UpgradeCost(level: int): nat {
    match level
    case 1 => 100
    case 2 => 400
    case 3 => 1200
    case 4 => 3000
    case _ => 0
  }

  // ----- plots -----

  function CountUnlocked(plots: seq<Plot>): nat {
    if plots == [] then 0 else CountUnlocked(plots[..|plots| - 1]) + if plots[|plots| - 1].state.Locked? then 0 else 1
  }

  function CountAtLeast(plots: seq<Plot>, level: int): nat {
    if plots == [] then 0
    else
      var last := plots[|plots| - 1];
      CountAtLeast(plots[..|plots| - 1], level) + if !last.state.Locked? && last.level >= level then 1 else 0
  }

  /** Open locked plots from the first on while fewer than `target` of `unlocked` are open. */
  function UnlockFrom(plots: seq<Plot>, i: nat, unlocked: int, target: int): (r: seq<Plot>)
    requires i <= |plots|
    ensures |r| == |plots|
    decreases |plots| - i
  {
    if i == |plots| || unlocked >= target then plots
    else if plots[i].state.Locked? then
      UnlockFrom(plots[i := plots[i].(state := Empty, level := 1)], i + 1, unlocked + 1, target)
    else UnlockFrom(plots, i + 1, unlocked, target)
  }

  function UnlockUpTo(plots: seq<Plot>, target: int): (r: seq<Plot>)
    ensures |r| == |plots|
  {
    UnlockFrom(plots, 0, CountUnlocked(plots), target)
  }

  function Grown(plot: Plot, now: real): Plot {
    if plot.state.Growing? && now - plot.plantedAt >= plot.growSeconds then plot.(state := Ready) else plot
  }

  function Growth(plots: seq<Plot>, now: real): (r: seq<Plot>)
    ensures |r| == |plots| && forall i :: 0 <= i < |plots| ==> r[i] == Grown(plots[i], now)
  {
    seq(|plots|, i requires 0 <= i < |plots| => Grown(plots[i], now))
  }

  function SpeedMultiplier(level: int): real {
    1.0 - (if level >= 2 then 0.05 else 0.0) - (if level >= 3 then 0.05 else 0.0)
        - (if level >= 4 then 0.05 else 0.0) - (if level >= 5 then 0.05 else 0.0)
  }

  function Scaled(seconds: real, multiplier: real): real {
    seconds * multiplier
  }

  // ----- storage and orders -----

  function Stored(storage: map<string, int>, id: string): int {
    if id in storage then storage[id] else 0
  }

  function Store(storage: map<string, int>, id: string, amount: int): map<string, int> {
    storage[id := Stored(storage, id) + amount]
  }

  function UnlockedCrops(rank: int, n: nat): (r: seq<nat>)
    requires n <= |CROPS|
    ensures forall k :: 0 <= k < |r| ==> r[k] < n
    ensures n > 0 && rank >= 1 ==> r != []
  {
    if n == 0 then []
    else
      var rest := UnlockedCrops(rank, n - 1);
      if CROPS[n - 1].unlockRank <= rank then rest + [n - 1] else rest
  }

  /** More of a crop already ordered, or one more item. */
  function AddItem(items: seq<Item>, id: string, amount: int): seq<Item> {
    if items == [] then [Item(id, amount)]
    else if items[0].cropId == id then [items[0].(amount := items[0].amount + amount)] + items[1..]
    else [items[0]] + AddItem(items[1..], id, amount)
  }

  function ItemAmount(rank: int, special: bool, extra: nat, i: nat): int {
    if special then 2 + rank + i else Max(2, 1 + rank + extra % 3)
  }

  function ItemCount(rank: int, unlocked: nat, special: bool, two: bool): nat {
    if special then 2 else if rank >= 3 && unlocked > 1 && two then 2 else 1
  }

  /** `round(1.55 * base)`, halves upward; a special order pays twice the price. */
  function Reward(base: int, special: bool): int {
    if special then 2 * base else (155 * base + 50) / 100
  }

  /** An order in the making: what it asks for and what that sells for. */
  datatype Draft = Draft(items: seq<Item>, base: int) {

    function Add(crop: Crop, amount: int): Draft {
      Draft(AddItem(items, crop.id, amount), base + crop.sellPrice * amount)
    }

    function Offer(rank: int, special: bool): Order {
      var coins := Reward(base, special) + rank * 18;
      Order(items, coins, coins / 6, special)
    }
  }

  function GenerateOrder(rank: int, roll: Roll, special: bool): Order {
    var unlocked := UnlockedCrops(rank, |CROPS|);
    if unlocked == [] then Order([], 0, 0, false)
    else
      var one := Draft([], 0).Add(CROPS[unlocked[roll.picks.0 % |unlocked|]], ItemAmount(rank, special, roll.extras.0, 0));
      var all := if ItemCount(rank, |unlocked|, special, roll.two) < 2 then one
                 else one.Add(CROPS[unlocked[roll.picks.1 % |unlocked|]], ItemAmount(rank, special, roll.extras.1, 1));
      all.Offer(rank, special)
  }

  function Spend(storage: map<string, int>, items: seq<Item>): map<string, int>
    decreases |items|
  {
    if items == [] then storage else Spend(Store(storage, items[0].cropId, -items[0].amount), items[1..])
  }

  /** Required harvests strictly increase with the rank, through the table and the endless formula. */
  lemma HarvestsIncrease(rank: int)
    requires rank >= 1
    ensures NextRank(rank + 1).harvests > NextRank(rank).harvests > 0
  {
  }

  datatype Event =
    | PlotTapped(i: int, seed: string, now: real, extra: bool, lucky: bool)
    | OrderTapped(k: int)
    | SellTapped(id: string)
    | UpgradeTapped(i: int)
    | Passed(now: real)

  datatype FarmState = FarmState(
    coins: int, xp: int, rank: int, harvested: int, ordersDone: int, coinsEarned: int, golden: int,
    streak: int, lastClaimDay: int, plots: seq<Plot>, storage: map<string, int>, mastery: map<string, int>,
    orders: seq<Order>, generated: nat)
  {
    predicate CanRankUp(req: Requirement) {
      && harvested >= req.harvests && ordersDone >= req.orders && coinsEarned >= req.coinsEarned && golden >= req.golden
      && CountUnlocked(plots) >= req.plots
      && !(req.plotLevelCount > 0 && CountAtLeast(plots, req.plotLevel) < req.plotLevelCount)
    }

    function RefillOrders(dice: Dice): FarmState
      decreases 3 - |orders|
    {
      if |orders| >= 3 then this
      else
        this.(orders := orders + [GenerateOrder(rank, dice(generated), rank >= 4 && orders == [])], generated := generated + 1)
        .RefillOrders(dice)
    }

    /** One rank up: its plots open and its bonus is paid. */
    function Promoted(): FarmState {
      this.(rank := rank + 1, plots := UnlockUpTo(plots, PlotTarget(rank + 1)), coins := coins + 120 * (rank + 1))
    }

    function RankUp(dice: Dice): FarmState {
      Promoted().RefillOrders(dice)
    }

    /** Harvests left over the next requirement; negative once it is not met. */
    function Surplus(): int {
      harvested - NextRank(rank).harvests
    }

    // ----- ranking up ends -----

    lemma {:induction false} RefillIsOrdersOnly(dice: Dice)
      ensures var r := RefillOrders(dice);
              r == this.(orders := r.orders, generated := r.generated) && |r.orders| >= 3
      decreases 3 - |orders|
    {
      if |orders| < 3 {
        this.(orders := orders + [GenerateOrder(rank, dice(generated), rank >= 4 && orders == [])],
              generated := generated + 1).RefillIsOrdersOnly(dice);
      }
    }

    lemma RankUpSurplus(dice: Dice)
      requires rank >= 1
      ensures RankUp(dice).Surplus() < Surplus() && RankUp(dice).rank == rank + 1
      ensures CanRankUp(NextRank(rank)) ==> Surplus() >= 0
    {
      HarvestsIncrease(rank);
      Promoted().RefillIsOrdersOnly(dice);
    }

    function MaybeRankUp(dice: Dice): FarmState
      requires rank >= 1
      decreases Surplus() + 1
    {
      if !CanRankUp(NextRank(rank)) then this
      else
        RankUpSurplus(dice);
        RankUp(dice).MaybeRankUp(dice)
    }

    predicate CanComplete(order: Order) {
      forall k :: 0 <= k < |order.items| ==>
        order.items[k].cropId in storage && storage[order.items[k].cropId] >= order.items[k].amount
    }

    function CompleteOrder(order: Order): FarmState {
      if !CanComplete(order) then this
      else
        this.(storage := Spend(storage, order.items), coins := coins + order.coinReward, xp := xp + order.xpReward,
              coinsEarned := coinsEarned + order.coinReward, ordersDone := ordersDone + 1)
    }

    function Plant(i: int, crop: Crop, now: real): FarmState {
      if i < 0 || i >= |plots| || !plots[i].state.Empty? || coins < crop.seedCost then this
      else
        var plot := plots[i];
        this.(coins := coins - crop.seedCost,
              plots := plots[i := plot.(state := Growing, cropId := crop.id, plantedAt := now,
                                        growSeconds := Scaled(crop.growSeconds, SpeedMultiplier(plot.level)))])
    }

    predicate CanHarvest(i: int) {
      0 <= i < |plots| && plots[i].state.Ready? && FindCrop(plots[i].cropId) >= 0
    }

    /** `extra` and `lucky` are the two draws: one more crop, and a golden one. */
    function Harvest(i: int, extra: bool, lucky: bool): FarmState {
      if !CanHarvest(i) then this
      else
        var crop := CROPS[FindCrop(plots[i].cropId)];
        var yield_ := crop.baseYield + if plots[i].level >= 3 && extra then 1 else 0;
        var stored := Store(storage, crop.id, yield_);
        this.(storage := if lucky then Store(stored, "golden_" + crop.id, 1) else stored,
              harvested := harvested + yield_, mastery := Store(mastery, crop.id, yield_), xp := xp + 8 + yield_ * 3,
              golden := golden + if lucky then 1 else 0,
              plots := plots[i := plots[i].(state := Empty, cropId := "", plantedAt := 0.0, growSeconds := 0.0)])
    }

    function Sell(id: string): FarmState {
      var k := FindCrop(id);
      if k < 0 then this
      else if Stored(storage, id) <= 0 then this.(storage := storage[id := Stored(storage, id)])
      else
        var earned := Stored(storage, id) * CROPS[k].sellPrice;
        this.(coins := coins + earned, coinsEarned := coinsEarned + earned, storage := storage[id := 0])
    }

    predicate CanUpgrade(i: int) {
      0 <= i < |plots| && !plots[i].state.Locked? && plots[i].level < MAX_LEVEL && coins >= UpgradeCost(plots[i].level)
    }

    function Upgrade(i: int): FarmState {
      if !CanUpgrade(i) then this
      else this.(coins := coins - UpgradeCost(plots[i].level), plots := plots[i := plots[i].(level := plots[i].level + 1)])
    }

    function DailyCoins(newStreak: int): int {
      match (newStreak - 1) % 7 + 1
      case 1 => 100
      case 2 => 150
      case 3 => 220
      case 4 => 300
      case 5 => 420
      case 6 => 560
      case _ => 800
    }

    function DailyReward(today: int): FarmState {
      if lastClaimDay == today then this
      else
        var newStreak := if lastClaimDay == today - 1 then streak + 1 else 1;
        this.(streak := newStreak, lastClaimDay := today,
              coins := coins + DailyCoins(newStreak), coinsEarned := coinsEarned + DailyCoins(newStreak))
    }

    // ----- the user's taps -----

    function TapPlot(i: int, seed: string, now: real, extra: bool, lucky: bool, dice: Dice): FarmState
      requires rank >= 1
    {
      if i < 0 || i >= |plots| then this
      else
        match plots[i].state
        case Locked => this
        case Ready => if CanHarvest(i) then Harvest(i, extra, lucky).MaybeRankUp(dice) else this
        case Growing => this
        case Empty => if FindCrop(seed) >= 0 then Plant(i, CROPS[FindCrop(seed)], now) else this
    }

    function TapOrder(k: int, dice: Dice): FarmState
      requires rank >= 1
    {
      if k < 0 || k >= |orders| || !CanComplete(orders[k]) then this
      else
        CompleteOrder(orders[k]).(orders := orders[..k] + orders[k + 1..]).RefillKeepingRank(dice)
    }

    function RefillKeepingRank(dice: Dice): FarmState
      requires rank >= 1
    {
      RefillIsOrdersOnly(dice);
      RefillOrders(dice).MaybeRankUp(dice)
    }

    function TapSell(id: string, dice: Dice): FarmState
      requires rank >= 1
    {
      if FindCrop(id) < 0 || Stored(storage, id) <= 0 then Sell(id) else Sell(id).MaybeRankUp(dice)
    }

    function TapUpgrade(i: int, dice: Dice): FarmState
      requires rank >= 1
    {
      if !CanUpgrade(i) then this else Upgrade(i).MaybeRankUp(dice)
    }

    function Step(e: Event, dice: Dice): FarmState
      requires rank >= 1
    {
      match e
      case PlotTapped(i, seed, now, extra, lucky) => TapPlot(i, seed, now, extra, lucky, dice)
      case OrderTapped(k) => TapOrder(k, dice)
      case SellTapped(id) => TapSell(id, dice)
      case UpgradeTapped(i) => TapUpgrade(i, dice)
      case Passed(now) => this.(plots := Growth(plots, now))
    }
  }
}
