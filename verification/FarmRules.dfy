/**
 The rules of the farm as a player meets them: what crops cost and bring, what the ranks ask for, what
 orders demand and pay, and how one crop goes from the seed to the store.
 */
module FarmRules {
  import opened Farm
  import opened FarmRuns

  // ----- crops and ranks -----

  /** Every crop sells for more than its seed, and the crops of higher ranks cost, bring and take more. */
  lemma CropsGrowDearer(j: nat, k: nat)
    requires j < k < |CROPS|
    ensures CROPS[j].sellPrice > CROPS[j].seedCost && CROPS[k].sellPrice > CROPS[k].seedCost
    ensures CROPS[k].unlockRank > CROPS[j].unlockRank && CROPS[k].seedCost > CROPS[j].seedCost
    ensures CROPS[k].sellPrice - CROPS[k].seedCost > CROPS[j].sellPrice - CROPS[j].seedCost
    ensures CROPS[k].growSeconds > CROPS[j].growSeconds
    decreases k - j
  {
    if j + 1 < k { CropsGrowDearer(j, k - 1); }
  }

  /** No rank asks for less than the one before; from the fifth on each asks for the same amount more. */
  lemma RanksAskForMore(rank: int)
    requires rank >= 1
    ensures var a, b := NextRank(rank), NextRank(rank + 1);
            && b.rank == a.rank + 1 == rank + 2
            && b.harvests > a.harvests > a.orders && b.orders > a.orders && b.coinsEarned > a.coinsEarned && b.golden >= a.golden
            && b.plots >= a.plots && b.plotLevel >= a.plotLevel && b.plotLevelCount >= a.plotLevelCount
            && a.plotLevelCount <= a.plots <= MAX_PLOTS && a.plotLevel < MAX_LEVEL
            && (rank >= 4 ==> b.harvests == a.harvests + 220 && b.orders == a.orders + 15
                              && b.coinsEarned == a.coinsEarned + 9000 && b.golden == a.golden + 4)
  {
  }

  ghost function OpenPlots(plots: seq<Plot>): set<int> {
    set i | 0 <= i < |plots| && !plots[i].state.Locked?
  }

  ghost function RaisedPlots(plots: seq<Plot>, level: int): set<int> {
    set i | 0 <= i < |plots| && !plots[i].state.Locked? && plots[i].level >= level
  }

  lemma {:induction false} OpenAreCounted(plots: seq<Plot>)
    ensures CountUnlocked(plots) == |OpenPlots(plots)|
  {
    if plots != [] {
      var n := |plots| - 1;
      OpenAreCounted(plots[..n]);
      assert OpenPlots(plots) == OpenPlots(plots[..n]) + if plots[n].state.Locked? then {} else {n};
    }
  }

  lemma {:induction false} RaisedAreCounted(plots: seq<Plot>, level: int)
    ensures CountAtLeast(plots, level) == |RaisedPlots(plots, level)|
  {
    if plots != [] {
      var n := |plots| - 1;
      RaisedAreCounted(plots[..n], level);
      assert RaisedPlots(plots, level) ==
             RaisedPlots(plots[..n], level) + if !plots[n].state.Locked? && plots[n].level >= level then {n} else {};
    }
  }

  lemma {:induction false} RankNeverFalls(f: FarmState, dice: Dice)
    requires f.rank >= 1
    ensures f.MaybeRankUp(dice).rank >= f.rank
    decreases f.Surplus() + 1
  {
    if f.CanRankUp(NextRank(f.rank)) {
      f.RankUpSurplus(dice);
      RankNeverFalls(f.RankUp(dice), dice);
    }
  }

  /** The next rank comes if and only if every one of its demands is met. */
  lemma RankComesIff(f: FarmState, dice: Dice)
    requires f.rank >= 1
    ensures var req := NextRank(f.rank);
            f.MaybeRankUp(dice).rank > f.rank <==>
            && f.harvested >= req.harvests && f.ordersDone >= req.orders && f.coinsEarned >= req.coinsEarned
            && f.golden >= req.golden && |OpenPlots(f.plots)| >= req.plots
            && |RaisedPlots(f.plots, req.plotLevel)| >= req.plotLevelCount
  {
    var req := NextRank(f.rank);
    OpenAreCounted(f.plots);
    RaisedAreCounted(f.plots, req.plotLevel);
    if f.CanRankUp(req) {
      f.RankUpSurplus(dice);
      RankNeverFalls(f.RankUp(dice), dice);
    }
  }

  // ----- orders -----

  function Pieces(items: seq<Item>): int {
    if items == [] then 0 else items[0].amount + Pieces(items[1..])
  }

  ghost predicate Unlocked(items: seq<Item>, rank: int) {
    forall k :: 0 <= k < |items| ==> exists c :: 0 <= c < |CROPS| && CROPS[c].id == items[k].cropId && CROPS[c].unlockRank <= rank
  }

  /** Adding a crop adds its pieces; at most one kind more. */
  lemma {:induction false} AddItemAdds(items: seq<Item>, id: string, amount: int)
    ensures var r := AddItem(items, id, amount);
            && Pieces(r) == Pieces(items) + amount && |items| <= |r| <= |items| + 1
            && forall k :: 0 <= k < |r| ==> r[k].cropId == id || (k < |items| && r[k].cropId == items[k].cropId)
  {
    if items == [] {
      assert Pieces([Item(id, amount)]) == amount + Pieces([]);
    } else if items[0].cropId != id {
      AddItemAdds(items[1..], id, amount);
      assert ([items[0]] + AddItem(items[1..], id, amount))[1..] == AddItem(items[1..], id, amount);
    } else {
      var more := items[0].(amount := items[0].amount + amount);
      assert ([more] + items[1..])[1..] == items[1..];
    }
  }

  lemma {:induction false} UnlockedAreLow(rank: int, n: nat)
    requires n <= |CROPS|
    ensures forall k :: 0 <= k < |UnlockedCrops(rank, n)| ==> CROPS[UnlockedCrops(rank, n)[k]].unlockRank <= rank
  {
    if n > 0 { UnlockedAreLow(rank, n - 1); }
  }

  lemma AddKeepsUnlocked(d: Draft, c: nat, amount: int, rank: int)
    requires c < |CROPS| && CROPS[c].unlockRank <= rank && Unlocked(d.items, rank)
    ensures var e := d.Add(CROPS[c], amount);
            Unlocked(e.items, rank) && Pieces(e.items) == Pieces(d.items) + amount && |e.items| <= |d.items| + 1
  {
    AddItemAdds(d.items, CROPS[c].id, amount);
  }

  /**
   An order asks for unlocked crops only. A special one wants five pieces and two more for every rank
   and pays twice their price; any other wants one to three pieces more than the rank, of two kinds
   from the third rank on at the earliest, and pays 55 percent over their price, to the nearest coin.
   Both pay 18 coins for every rank and a sixth of all this in experience.
   */
  lemma OrderIsOfItsKind(rank: int, roll: Roll, special: bool)
    requires rank >= 1
    ensures var order := GenerateOrder(rank, roll, special);
            var paid := order.coinReward - 18 * rank;
            && Unlocked(order.items, rank) && |order.items| <= 2
            && 6 * order.xpReward <= order.coinReward < 6 * order.xpReward + 6
            && (special ==> Pieces(order.items) == 5 + 2 * rank && paid == 2 * Worth(order.items))
            && (!special ==>
                  && -50 <= 155 * Worth(order.items) - 100 * paid < 50
                  && (|order.items| == 1 || rank >= 3)
                  && (1 + rank <= Pieces(order.items) <= 3 + rank
                      || (rank >= 3 && 2 + 2 * rank <= Pieces(order.items) <= 6 + 2 * rank)))
  {
    OrderPaysMore(rank, roll, special);
    var unlocked := UnlockedCrops(rank, |CROPS|);
    UnlockedAreLow(rank, |CROPS|);
    var a, b := unlocked[roll.picks.0 % |unlocked|], unlocked[roll.picks.1 % |unlocked|];
    var one := Draft([], 0).Add(CROPS[a], ItemAmount(rank, special, roll.extras.0, 0));
    AddKeepsUnlocked(Draft([], 0), a, ItemAmount(rank, special, roll.extras.0, 0), rank);
    AddKeepsUnlocked(one, b, ItemAmount(rank, special, roll.extras.1, 1), rank);
  }

  // ----- from the seed to the store -----

  /** Ranks open plots and touch no open one. */
  lemma {:induction false} RanksKeepPlots(f: FarmState, dice: Dice)
    requires f.rank >= 1
    ensures var g := f.MaybeRankUp(dice);
            |g.plots| == |f.plots| && forall j :: 0 <= j < |f.plots| && !f.plots[j].state.Locked? ==> g.plots[j] == f.plots[j]
    decreases f.Surplus() + 1
  {
    if f.CanRankUp(NextRank(f.rank)) {
      UnlockReaches(f.plots, 0, CountUnlocked(f.plots), PlotTarget(f.rank + 1));
      f.RankUpSurplus(dice);
      f.Promoted().RefillIsOrdersOnly(dice);
      RanksKeepPlots(f.RankUp(dice), dice);
    }
  }

  lemma {:induction false} RanksKeepCrops(f: FarmState, dice: Dice)
    requires f.rank >= 1
    ensures var g := f.MaybeRankUp(dice); g.storage == f.storage && g.harvested == f.harvested && g.golden == f.golden
    decreases f.Surplus() + 1
  {
    if f.CanRankUp(NextRank(f.rank)) {
      f.RankUpSurplus(dice);
      f.Promoted().RefillIsOrdersOnly(dice);
      RanksKeepCrops(f.RankUp(dice), dice);
    }
  }

  lemma MultiplierIs(level: int)
    requires 1 <= level <= MAX_LEVEL
    ensures SpeedMultiplier(level) == 1.0 - 0.05 * (level - 1) as real
  {
  }

  lemma SeedIsSown(f: FarmState, i: nat, c: nat, planted: real, extra: bool, lucky: bool, dice: Dice)
    requires f.rank >= 1 && i < |f.plots| && f.plots[i].state.Empty? && 1 <= f.plots[i].level <= MAX_LEVEL
    requires c < |CROPS| && f.coins >= CROPS[c].seedCost
    ensures var seconds := CROPS[c].growSeconds * (1.0 - 0.05 * (f.plots[i].level - 1) as real);
            var sown := Plot(Growing, CROPS[c].id, planted, seconds, f.plots[i].level);
            f.Step(PlotTapped(i, CROPS[c].id, planted, extra, lucky), dice)
            == f.(coins := f.coins - CROPS[c].seedCost, plots := f.plots[i := sown])
  {
    CropIsFound(c);
    MultiplierIs(f.plots[i].level);
  }

  /** A tap on an empty plot plants the seed. Its crop ripens a twentieth faster for every level above the first, and no earlier. */
  lemma SeedRipens(f: FarmState, i: nat, c: nat, planted: real, now: real, extra: bool, lucky: bool, dice: Dice)
    requires f.rank >= 1 && i < |f.plots| && f.plots[i].state.Empty? && 1 <= f.plots[i].level <= MAX_LEVEL
    requires c < |CROPS| && f.coins >= CROPS[c].seedCost
    ensures var sown := f.Step(PlotTapped(i, CROPS[c].id, planted, extra, lucky), dice);
            && sown.rank == f.rank && sown.coins == f.coins - CROPS[c].seedCost
            && var later := sown.Step(Passed(now), dice);
            var ripe := now - planted >= CROPS[c].growSeconds * (1.0 - 0.05 * (f.plots[i].level - 1) as real);
            && |later.plots| == |f.plots| && later.storage == f.storage
            && later.plots[i].state == (if ripe then Ready else Growing) && later.plots[i].cropId == CROPS[c].id
            && later.plots[i].level == f.plots[i].level
            && forall j :: 0 <= j < |f.plots| && j != i ==> later.plots[j] == Grown(f.plots[j], now)
  {
    SeedIsSown(f, i, c, planted, extra, lucky, dice);
  }

  lemma HarvestStores(f: FarmState, i: nat, c: nat, extra: bool, lucky: bool)
    requires i < |f.plots| && f.plots[i].state.Ready? && c < |CROPS| && f.plots[i].cropId == CROPS[c].id
    ensures f.CanHarvest(i)
    ensures var g := f.Harvest(i, extra, lucky);
            var pieces := if f.plots[i].level >= 3 && extra then 2 else 1;
            && g.plots == f.plots[i := Plot(Empty, "", 0.0, 0.0, f.plots[i].level)] && g.rank == f.rank
            && g.harvested == f.harvested + pieces && g.golden == f.golden + (if lucky then 1 else 0)
            && Stored(g.storage, CROPS[c].id) == Stored(f.storage, CROPS[c].id) + pieces
  {
    CropIsFound(c);
    assert |"golden_" + CROPS[c].id| == 7 + |CROPS[c].id|;
  }

  /** A tap on a ripe plot brings its crop to the store, frees the plot and touches no other open plot. */
  lemma RipeIsStored(f: FarmState, i: nat, c: nat, seed: string, now: real, extra: bool, lucky: bool, dice: Dice)
    requires f.rank >= 1 && i < |f.plots| && f.plots[i].state.Ready? && c < |CROPS| && f.plots[i].cropId == CROPS[c].id
    ensures var g := f.Step(PlotTapped(i, seed, now, extra, lucky), dice);
            var pieces := if f.plots[i].level >= 3 && extra then 2 else 1;
            && |g.plots| == |f.plots| && g.plots[i] == Plot(Empty, "", 0.0, 0.0, f.plots[i].level)
            && g.harvested == f.harvested + pieces && g.golden == f.golden + (if lucky then 1 else 0)
            && Stored(g.storage, CROPS[c].id) == Stored(f.storage, CROPS[c].id) + pieces
            && forall j :: 0 <= j < |f.plots| && j != i && !f.plots[j].state.Locked? ==> g.plots[j] == f.plots[j]
  {
    HarvestStores(f, i, c, extra, lucky);
    var reaped := f.Harvest(i, extra, lucky);
    RanksKeepCrops(reaped, dice);
    RanksKeepPlots(reaped, dice);
    assert f.Step(PlotTapped(i, seed, now, extra, lucky), dice) == reaped.MaybeRankUp(dice);
  }
}
