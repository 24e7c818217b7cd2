/**
 The farm's books over whole runs. Every coin, every crop and every point of experience is accounted
 for by what was tapped: coins by earnings, rank bonuses, seeds and upgrades; each crop by harvests,
 deliveries and sales; golden crops by the harvests that found them.
 */
module FarmLedger {
  import opened Farm
  import opened FarmRuns

  /** What has been booked since the farm was fresh; `gone` counts one crop. */
  datatype Books = Books(spent: int, earned: int, gone: int, xp: int, orders: int)

  /** Coins for an upgrade from the first level, the second, and so on. */
  const UPGRADES: seq<int> := [100, 400, 1200, 3000]

  /** One crop, and from the third level on perhaps a second one. */
  function YieldOf(plot: Plot, extra: bool): int {
    1 + if plot.level >= 3 && extra then 1 else 0
  }

  function PlotEntry(f: FarmState, i: int, seed: string, extra: bool, b: Books): Books {
    if i < 0 || i >= |f.plots| then b
    else if f.plots[i].state.Ready? && FindCrop(f.plots[i].cropId) >= 0 then
      b.(xp := b.xp + 8 + 3 * YieldOf(f.plots[i], extra))
    else if f.plots[i].state.Empty? && FindCrop(seed) >= 0 && f.coins >= CROPS[FindCrop(seed)].seedCost then
      b.(spent := b.spent + CROPS[FindCrop(seed)].seedCost)
    else b
  }

  predicate Covers(f: FarmState, order: Order) {
    forall k :: 0 <= k < |order.items| ==> Stored(f.storage, order.items[k].cropId) >= order.items[k].amount
  }

  function OrderEntry(f: FarmState, k: int, id: string, b: Books): Books {
    if 0 <= k < |f.orders| && Covers(f, f.orders[k]) then
      b.(earned := b.earned + f.orders[k].coinReward, xp := b.xp + f.orders[k].xpReward, orders := b.orders + 1,
         gone := b.gone + Demand(f.orders[k].items, id))
    else b
  }

  function SaleEntry(f: FarmState, sold: string, id: string, b: Books): Books {
    if FindCrop(sold) >= 0 && Stored(f.storage, sold) > 0 then
      b.(earned := b.earned + Stored(f.storage, sold) * CROPS[FindCrop(sold)].sellPrice,
         gone := b.gone + if sold == id then Stored(f.storage, sold) else 0)
    else b
  }

  function UpgradeEntry(f: FarmState, i: int, b: Books): Books {
    if 0 <= i < |f.plots| && !f.plots[i].state.Locked? && 1 <= f.plots[i].level <= 4 && f.coins >= UPGRADES[f.plots[i].level - 1]
    then b.(spent := b.spent + UPGRADES[f.plots[i].level - 1])
    else b
  }

  /** What one event adds to the books. */
  function Entry(f: FarmState, e: Event, id: string, b: Books): Books {
    match e
    case PlotTapped(i, seed, _, extra, _) => PlotEntry(f, i, seed, extra, b)
    case OrderTapped(k) => OrderEntry(f, k, id, b)
    case SellTapped(sold) => SaleEntry(f, sold, id, b)
    case UpgradeTapped(i) => UpgradeEntry(f, i, b)
    case Passed(_) => b
  }

  function BooksAfter(f: FarmState, events: seq<Event>, dice: Dice, id: string, b: Books): Books
    requires f.rank >= 1
    decreases |events|
  {
    if events == [] then b
    else
      RankStays(f, events[0], dice);
      BooksAfter(f.Step(events[0], dice), events[1..], dice, id, Entry(f, events[0], id, b))
  }

  // ----- what the books say -----

  function Golden(k: nat): string
    requires k < |CROPS|
  {
    "golden_" + CROPS[k].id
  }

  /** The crops harvested of the first `n` kinds. */
  function HarvestedOf(mastery: map<string, int>, n: nat): int
    requires n <= |CROPS|
  {
    if n == 0 then 0 else HarvestedOf(mastery, n - 1) + Stored(mastery, CROPS[n - 1].id)
  }

  /** The golden crops stored of the first `n` kinds. */
  function GoldenOf(storage: map<string, int>, n: nat): int
    requires n <= |CROPS|
  {
    if n == 0 then 0 else GoldenOf(storage, n - 1) + Stored(storage, Golden(n - 1))
  }

  /**
   Coins are the first hundred, what was earned and the rank bonuses, less what was spent; the crops of
   one kind in store are those harvested less those gone; all harvests are some kind's; and every golden
   crop ever found is still in store.
   */
  ghost predicate Balanced(f: FarmState, id: string, b: Books) {
    && f.coins == 100 + f.coinsEarned + RankBonus(f.rank) - b.spent && f.coinsEarned == b.earned
    && Stored(f.storage, id) == Stored(f.mastery, id) - b.gone
    && f.xp == b.xp && f.ordersDone == b.orders
    && f.harvested == HarvestedOf(f.mastery, |CROPS|) && f.golden == GoldenOf(f.storage, |CROPS|)
  }

  /** The same holdings. */
  ghost predicate SameHoldings(f: FarmState, g: FarmState) {
    && g.storage == f.storage && g.mastery == f.mastery && g.xp == f.xp && g.ordersDone == f.ordersDone
    && g.harvested == f.harvested && g.golden == f.golden && g.coinsEarned == f.coinsEarned
  }

  lemma {:induction false} RanksKeepHoldings(f: FarmState, dice: Dice)
    requires f.rank >= 1
    ensures SameHoldings(f, f.MaybeRankUp(dice))
    decreases f.Surplus() + 1
  {
    if f.CanRankUp(NextRank(f.rank)) {
      f.RankUpSurplus(dice);
      f.Promoted().RefillIsOrdersOnly(dice);
      RanksKeepHoldings(f.RankUp(dice), dice);
    }
  }

  lemma RanksKeepBalance(f: FarmState, id: string, b: Books, dice: Dice)
    requires f.rank >= 1 && Balanced(f, id, b)
    ensures Balanced(f.MaybeRankUp(dice), id, b)
  {
    RanksKeepHoldings(f, dice);
    RanksPayTheirBonus(f, dice);
  }

  lemma RefillKeepsBalance(f: FarmState, id: string, b: Books, dice: Dice)
    requires Balanced(f, id, b)
    ensures Balanced(f.RefillOrders(dice), id, b) && f.RefillOrders(dice).rank == f.rank
  {
    f.RefillIsOrdersOnly(dice);
  }

  // ----- names -----

  lemma {:induction false} CropsAreTold(j: nat, k: nat)
    requires j < |CROPS| && k < |CROPS| && CROPS[j].id == CROPS[k].id
    ensures j == k
  {
    CropIsFound(j);
    CropIsFound(k);
  }

  /** No golden crop is called like a crop, and no two like each other. */
  lemma GoldenIsTold(j: nat, k: nat)
    requires j < |CROPS| && k < |CROPS|
    ensures Golden(j) != CROPS[k].id && (Golden(j) == Golden(k) ==> j == k)
  {
    if Golden(j) == Golden(k) {
      assert Golden(j)[7..] == CROPS[j].id && Golden(k)[7..] == CROPS[k].id;
      CropsAreTold(j, k);
    }
  }

  lemma {:induction false} OtherMastery(mastery: map<string, int>, id: string, amount: int, n: nat)
    requires n <= |CROPS|
    ensures HarvestedOf(Store(mastery, id, amount), n) ==
            HarvestedOf(mastery, n) + if exists k :: 0 <= k < n && CROPS[k].id == id then amount else 0
  {
    if n > 0 {
      OtherMastery(mastery, id, amount, n - 1);
      if CROPS[n - 1].id == id {
        forall k | 0 <= k < n - 1 ensures CROPS[k].id != id {
          if CROPS[k].id == id { CropsAreTold(k, n - 1); }
        }
      }
    }
  }

  lemma {:induction false} OtherGolden(storage: map<string, int>, id: string, amount: int, n: nat)
    requires n <= |CROPS|
    ensures GoldenOf(Store(storage, id, amount), n) ==
            GoldenOf(storage, n) + if exists k :: 0 <= k < n && Golden(k) == id then amount else 0
  {
    if n > 0 {
      OtherGolden(storage, id, amount, n - 1);
      if Golden(n - 1) == id {
        forall k | 0 <= k < n - 1 ensures Golden(k) != id {
          if Golden(k) == id { GoldenIsTold(k, n - 1); }
        }
      }
    }
  }

  // ----- taps -----

  lemma CropStoredGolden(storage: map<string, int>, k: nat, amount: int)
    requires k < |CROPS|
    ensures GoldenOf(Store(storage, CROPS[k].id, amount), |CROPS|) == GoldenOf(storage, |CROPS|)
  {
    OtherGolden(storage, CROPS[k].id, amount, |CROPS|);
    forall j | 0 <= j < |CROPS| ensures Golden(j) != CROPS[k].id {
      GoldenIsTold(j, k);
    }
  }

  lemma GoldenStored(storage: map<string, int>, k: nat, c: nat)
    requires k < |CROPS| && c < |CROPS|
    ensures GoldenOf(Store(storage, Golden(k), 1), |CROPS|) == GoldenOf(storage, |CROPS|) + 1
    ensures Stored(Store(storage, Golden(k), 1), CROPS[c].id) == Stored(storage, CROPS[c].id)
  {
    OtherGolden(storage, Golden(k), 1, |CROPS|);
    GoldenIsTold(k, c);
  }

  lemma HarvestBalances(f: FarmState, i: int, extra: bool, lucky: bool, c: nat, b: Books)
    requires f.CanHarvest(i) && c < |CROPS| && Balanced(f, CROPS[c].id, b)
    ensures Balanced(f.Harvest(i, extra, lucky), CROPS[c].id, b.(xp := b.xp + 8 + 3 * YieldOf(f.plots[i], extra)))
  {
    var k, amount := FindCrop(f.plots[i].cropId), YieldOf(f.plots[i], extra);
    OtherMastery(f.mastery, CROPS[k].id, amount, |CROPS|);
    CropStoredGolden(f.storage, k, amount);
    if lucky { GoldenStored(Store(f.storage, CROPS[k].id, amount), k, c); }
  }

  lemma {:induction false} SpendKeepsGolden(storage: map<string, int>, items: seq<Item>, n: nat)
    requires n <= |CROPS| && forall j, k :: 0 <= j < |items| && 0 <= k < |CROPS| ==> items[j].cropId != Golden(k)
    ensures GoldenOf(Spend(storage, items), n) == GoldenOf(storage, n)
    decreases |items|
  {
    if items != [] {
      OtherGolden(storage, items[0].cropId, -items[0].amount, n);
      SpendKeepsGolden(Store(storage, items[0].cropId, -items[0].amount), items[1..], n);
    }
  }

  /** An order asks for crops. */
  ghost predicate OfCrops(order: Order) {
    forall j :: 0 <= j < |order.items| ==> FindCrop(order.items[j].cropId) >= 0
  }

  lemma OrderBalances(f: FarmState, order: Order, c: nat, b: Books)
    requires c < |CROPS| && Balanced(f, CROPS[c].id, b) && f.CanComplete(order) && OfCrops(order)
    ensures Balanced(f.CompleteOrder(order), CROPS[c].id,
                     b.(earned := b.earned + order.coinReward, xp := b.xp + order.xpReward, orders := b.orders + 1,
                        gone := b.gone + Demand(order.items, CROPS[c].id)))
  {
    SpendTakesDemand(f.storage, order.items, CROPS[c].id);
    forall j, k | 0 <= j < |order.items| && 0 <= k < |CROPS| ensures order.items[j].cropId != Golden(k) {
      GoldenIsTold(k, FindCrop(order.items[j].cropId));
    }
    SpendKeepsGolden(f.storage, order.items, |CROPS|);
  }

  lemma SaleBalances(f: FarmState, sold: string, c: nat, b: Books)
    requires c < |CROPS| && Balanced(f, CROPS[c].id, b)
    ensures Balanced(f.Sell(sold), CROPS[c].id, SaleEntry(f, sold, CROPS[c].id, b))
  {
    var k := FindCrop(sold);
    if k >= 0 {
      OtherGolden(f.storage, sold, -Stored(f.storage, sold), |CROPS|);
      OtherGolden(f.storage, sold, 0, |CROPS|);
      forall j | 0 <= j < |CROPS| ensures Golden(j) != sold {
        GoldenIsTold(j, k);
      }
    }
  }

  lemma UpgradeBalances(f: FarmState, i: int, id: string, b: Books)
    requires Balanced(f, id, b) && forall k :: 0 <= k < |f.plots| ==> GoodPlot(f.plots[k])
    ensures Balanced(f.Upgrade(i), id, UpgradeEntry(f, i, b))
  {
    if 0 <= i < |f.plots| { assert GoodPlot(f.plots[i]); }
  }

  ghost predicate AllOfCrops(f: FarmState) {
    forall k :: 0 <= k < |f.orders| ==> OfCrops(f.orders[k])
  }

  lemma {:induction false} AddedIsCrop(items: seq<Item>, id: string, amount: int)
    requires FindCrop(id) >= 0 && forall j :: 0 <= j < |items| ==> FindCrop(items[j].cropId) >= 0
    ensures forall j :: 0 <= j < |AddItem(items, id, amount)| ==> FindCrop(AddItem(items, id, amount)[j].cropId) >= 0
  {
    if items != [] && items[0].cropId != id { AddedIsCrop(items[1..], id, amount); }
  }

  lemma GeneratedIsOfCrops(rank: int, roll: Roll, special: bool)
    requires rank >= 1
    ensures OfCrops(GenerateOrder(rank, roll, special))
  {
    var unlocked := UnlockedCrops(rank, |CROPS|);
    var a, b := unlocked[roll.picks.0 % |unlocked|], unlocked[roll.picks.1 % |unlocked|];
    CropIsFound(a);
    CropIsFound(b);
    var one := AddItem([], CROPS[a].id, ItemAmount(rank, special, roll.extras.0, 0));
    AddedIsCrop([], CROPS[a].id, ItemAmount(rank, special, roll.extras.0, 0));
    AddedIsCrop(one, CROPS[b].id, ItemAmount(rank, special, roll.extras.1, 1));
  }

  /** The board with one order more. */
  function Ordered(f: FarmState, dice: Dice): FarmState {
    f.(orders := f.orders + [GenerateOrder(f.rank, dice(f.generated), f.rank >= 4 && f.orders == [])], generated := f.generated + 1)
  }

  lemma OneOrderMore(f: FarmState, dice: Dice)
    requires f.rank >= 1 && AllOfCrops(f)
    ensures AllOfCrops(Ordered(f, dice)) && |Ordered(f, dice).orders| == |f.orders| + 1 && Ordered(f, dice).rank == f.rank
    ensures |f.orders| < 3 ==> f.RefillOrders(dice) == Ordered(f, dice).RefillOrders(dice)
  {
    var order := GenerateOrder(f.rank, dice(f.generated), f.rank >= 4 && f.orders == []);
    GeneratedIsOfCrops(f.rank, dice(f.generated), f.rank >= 4 && f.orders == []);
    assert Ordered(f, dice).orders == f.orders + [order];
  }

  lemma {:induction false} RefillIsOfCrops(f: FarmState, dice: Dice)
    requires f.rank >= 1 && AllOfCrops(f)
    ensures AllOfCrops(f.RefillOrders(dice))
    decreases 3 - |f.orders|
  {
    if |f.orders| < 3 {
      OneOrderMore(f, dice);
      RefillIsOfCrops(Ordered(f, dice), dice);
    }
  }

  lemma {:induction false} RanksAskForCrops(f: FarmState, dice: Dice)
    requires f.rank >= 1 && AllOfCrops(f)
    ensures AllOfCrops(f.MaybeRankUp(dice))
    decreases f.Surplus() + 1
  {
    if f.CanRankUp(NextRank(f.rank)) {
      f.RankUpSurplus(dice);
      RefillIsOfCrops(f.Promoted(), dice);
      RanksAskForCrops(f.RankUp(dice), dice);
    }
  }

  // ----- whole runs -----

  ghost predicate InBooks(f: FarmState, id: string, b: Books) {
    Inv(f) && AllOfCrops(f) && Balanced(f, id, b)
  }

  lemma PlotTapBooks(f: FarmState, i: int, seed: string, now: real, extra: bool, lucky: bool, dice: Dice, c: nat, b: Books)
    requires c < |CROPS| && InBooks(f, CROPS[c].id, b)
    ensures var g := f.TapPlot(i, seed, now, extra, lucky, dice);
            AllOfCrops(g) && Balanced(g, CROPS[c].id, PlotEntry(f, i, seed, extra, b))
  {
    if 0 <= i < |f.plots| && f.plots[i].state.Ready? {
      ReadyIsHarvested(f, i);
      var harvested := f.Harvest(i, extra, lucky);
      HarvestBalances(f, i, extra, lucky, c, b);
      RanksKeepBalance(harvested, CROPS[c].id, PlotEntry(f, i, seed, extra, b), dice);
      RanksAskForCrops(harvested, dice);
    }
  }

  lemma CoversIsComplete(f: FarmState, k: nat)
    requires Inv(f) && k < |f.orders|
    ensures Covers(f, f.orders[k]) <==> f.CanComplete(f.orders[k])
  {
    assert Fair(f.orders[k]);
  }

  lemma OrderTapBooks(f: FarmState, k: int, dice: Dice, c: nat, b: Books)
    requires c < |CROPS| && InBooks(f, CROPS[c].id, b)
    ensures AllOfCrops(f.TapOrder(k, dice)) && Balanced(f.TapOrder(k, dice), CROPS[c].id, OrderEntry(f, k, CROPS[c].id, b))
  {
    if 0 <= k < |f.orders| {
      CoversIsComplete(f, k);
      if f.CanComplete(f.orders[k]) {
        var b' := OrderEntry(f, k, CROPS[c].id, b);
        OrderBalances(f, f.orders[k], c, b);
        var done := f.CompleteOrder(f.orders[k]).(orders := f.orders[..k] + f.orders[k + 1..]);
        RefillKeepsBalance(done, CROPS[c].id, b', dice);
        RanksKeepBalance(done.RefillOrders(dice), CROPS[c].id, b', dice);
        RefillIsOfCrops(done, dice);
        RanksAskForCrops(done.RefillOrders(dice), dice);
      }
    }
  }

  lemma SaleTapBooks(f: FarmState, sold: string, dice: Dice, c: nat, b: Books)
    requires c < |CROPS| && InBooks(f, CROPS[c].id, b)
    ensures AllOfCrops(f.TapSell(sold, dice)) && Balanced(f.TapSell(sold, dice), CROPS[c].id, SaleEntry(f, sold, CROPS[c].id, b))
  {
    SaleBalances(f, sold, c, b);
    RanksKeepBalance(f.Sell(sold), CROPS[c].id, SaleEntry(f, sold, CROPS[c].id, b), dice);
    RanksAskForCrops(f.Sell(sold), dice);
  }

  lemma UpgradeTapBooks(f: FarmState, i: int, dice: Dice, id: string, b: Books)
    requires InBooks(f, id, b)
    ensures AllOfCrops(f.TapUpgrade(i, dice)) && Balanced(f.TapUpgrade(i, dice), id, UpgradeEntry(f, i, b))
  {
    UpgradeBalances(f, i, id, b);
    RanksKeepBalance(f.Upgrade(i), id, UpgradeEntry(f, i, b), dice);
    RanksAskForCrops(f.Upgrade(i), dice);
  }

  lemma StepIsBooked(f: FarmState, e: Event, dice: Dice, c: nat, b: Books)
    requires c < |CROPS| && InBooks(f, CROPS[c].id, b)
    ensures InBooks(f.Step(e, dice), CROPS[c].id, Entry(f, e, CROPS[c].id, b))
  {
    StepKeepsInv(f, e, dice);
    match e
    case PlotTapped(i, seed, now, extra, lucky) => PlotTapBooks(f, i, seed, now, extra, lucky, dice, c, b);
    case OrderTapped(k) => OrderTapBooks(f, k, dice, c, b);
    case SellTapped(sold) => SaleTapBooks(f, sold, dice, c, b);
    case UpgradeTapped(i) => UpgradeTapBooks(f, i, dice, CROPS[c].id, b);
    case Passed(now) =>
  }

  lemma {:induction false} RunIsBooked(f: FarmState, events: seq<Event>, dice: Dice, c: nat, b: Books)
    requires c < |CROPS| && InBooks(f, CROPS[c].id, b)
    ensures InBooks(Run(f, events, dice), CROPS[c].id, BooksAfter(f, events, dice, CROPS[c].id, b))
    decreases |events|
  {
    if events != [] {
      StepIsBooked(f, events[0], dice, c, b);
      RunIsBooked(f.Step(events[0], dice), events[1..], dice, c, Entry(f, events[0], CROPS[c].id, b));
    }
  }

  lemma {:induction false} NothingStored(n: nat)
    requires n <= |CROPS|
    ensures HarvestedOf(map[], n) == 0 && GoldenOf(map[], n) == 0
  {
    if n > 0 { NothingStored(n - 1); }
  }

  lemma NothingIsBooked(id: string)
    ensures AllOfCrops(DefaultFarm()) && Balanced(DefaultFarm(), id, Books(0, 0, 0, 0, 0))
  {
    NothingStored(|CROPS|);
  }

  lemma FirstClaimIsBooked(f: FarmState, today: int, id: string)
    requires f.rank >= 1 && f.streak == 0 && f.lastClaimDay == -1 && Balanced(f, id, Books(0, 0, 0, 0, 0))
    ensures Balanced(f.DailyReward(today), id, Books(0, if today == -1 then 0 else 100, 0, 0, 0))
  {
  }

  lemma FirstDayIsBooked(today: int, dice: Dice, id: string)
    ensures var f := DefaultFarm().RefillOrders(dice).DailyReward(today);
            f.rank == 1 && AllOfCrops(f) && Balanced(f, id, Books(0, if today == -1 then 0 else 100, 0, 0, 0))
  {
    NothingIsBooked(id);
    DefaultFarm().RefillIsOrdersOnly(dice);
    RefillIsOfCrops(DefaultFarm(), dice);
    RefillKeepsBalance(DefaultFarm(), id, Books(0, 0, 0, 0, 0), dice);
    FirstClaimIsBooked(DefaultFarm().RefillOrders(dice), today, id);
  }

  /** The day's reward is all a fresh farm has earned. */
  lemma FreshIsBooked(today: int, dice: Dice, c: nat)
    requires c < |CROPS|
    ensures InBooks(FreshFarm(today, dice), CROPS[c].id, Books(0, if today == -1 then 0 else 100, 0, 0, 0))
  {
    var claimed := DefaultFarm().RefillOrders(dice).DailyReward(today);
    FreshFarmInv(today, dice);
    FirstDayIsBooked(today, dice, CROPS[c].id);
    RanksKeepBalance(claimed, CROPS[c].id, Books(0, if today == -1 then 0 else 100, 0, 0, 0), dice);
    RanksAskForCrops(claimed, dice);
  }

  /** From a fresh farm, whatever is tapped, the books balance for every crop. */
  lemma FarmIsBooked(today: int, events: seq<Event>, dice: Dice, c: nat)
    requires c < |CROPS|
    ensures FreshFarm(today, dice).rank >= 1
    ensures var start := Books(0, if today == -1 then 0 else 100, 0, 0, 0);
            Balanced(Run(FreshFarm(today, dice), events, dice), CROPS[c].id,
                     BooksAfter(FreshFarm(today, dice), events, dice, CROPS[c].id, start))
  {
    FreshIsBooked(today, dice, c);
    RunIsBooked(FreshFarm(today, dice), events, dice, c, Books(0, if today == -1 then 0 else 100, 0, 0, 0));
  }

  // ----- days -----

  /** The rewards of seven days in a row; the eighth day begins again. */
  const WEEK: seq<int> := [100, 150, 220, 300, 420, 560, 800]

  /** What `days` days in a row pay from the `from`-th on. */
  function WeekSum(from: nat, days: nat): int
    decreases days
  {
    if days == 0 then 0 else WEEK[from % 7] + WeekSum(from + 1, days - 1)
  }

  function ClaimDaily(f: FarmState, today: int, days: nat): FarmState
    decreases days
  {
    if days == 0 then f else ClaimDaily(f.DailyReward(today), today + 1, days - 1)
  }

  /** Day after day the reward goes through the week; a second claim on a day pays nothing. */
  lemma {:induction false} DaysInARow(f: FarmState, today: int, days: nat)
    requires f.streak >= 0 && f.lastClaimDay < today
    requires f.lastClaimDay != today - 1 ==> f.streak == 0
    ensures var g := ClaimDaily(f, today, days);
            && g.coins == f.coins + WeekSum(f.streak, days) && g.coinsEarned == f.coinsEarned + WeekSum(f.streak, days)
            && (days > 0 ==> g.DailyReward(today + days - 1) == g)
    decreases days
  {
    if days > 0 { DaysInARow(f.DailyReward(today), today + 1, days - 1); }
  }

  /** A missed day begins a new streak. */
  lemma MissedDay(f: FarmState, today: int)
    requires f.lastClaimDay < today - 1
    ensures f.DailyReward(today).streak == 1 && f.DailyReward(today).coins == f.coins + 100
  {
  }
}
