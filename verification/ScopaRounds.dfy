/**
 A Scopa round from the deal to the score. Every step keeps the forty cards; captures are forced,
 so before the first capture the cards laid down have distinct values, and the round of
 thirty-six plays cannot end without a capture.
 */
module ScopaRounds {
  import opened ScopaCaptures
  import opened Scopa

  const ROUND_PLAYS := 36

  predicate IsCard(card: int) {
    0 <= card < 40
  }

  ghost predicate AreCards(cards: seq<int>) {
    forall c :: c in cards ==> IsCard(c)
  }

  ghost function Copies(g: Game, c: int): nat
    requires |g.players| == 2
  {
    multiset(g.deck)[c] + multiset(g.table)[c] + multiset(g.players[0].hand)[c] + multiset(g.players[1].hand)[c]
    + multiset(g.players[0].captured)[c] + multiset(g.players[1].captured)[c]
  }

  ghost predicate Partition(g: Game)
    requires |g.players| == 2
  {
    forall c :: Copies(g, c) == if IsCard(c) then 1 else 0
  }

  /** Plays still to come in the round. */
  function Remaining(g: Game): nat
    requires |g.players| == 2
  {
    |g.deck| + g.InHands()
  }

  /** Every card after the four dealt ones differs in value from all before it. */
  ghost predicate DistinctTail(table: seq<int>) {
    forall i, j :: 0 <= i < j < |table| && 4 <= j ==> ValueOf(table[i]) != ValueOf(table[j])
  }

  /** As long as nobody has captured, every play has laid down a new value. */
  ghost predicate NoCaptureYet(g: Game)
    requires |g.players| == 2
  {
    && g.players[0].captured == [] && g.players[1].captured == []
    && |g.table| == 4 + ROUND_PLAYS - Remaining(g) && DistinctTail(g.table)
  }

  ghost predicate Ongoing(g: Game) {
    && |g.players| == 2 && Partition(g) && |g.deck| % 6 == 0
    && (g.starter == 0 || g.starter == 1) && (g.turn == 0 || g.turn == 1) && Remaining(g) <= ROUND_PLAYS
    && (g.lastCapturer == NOBODY || g.lastCapturer == 0 || g.lastCapturer == 1)
    && (g.lastCapturer == NOBODY ==> NoCaptureYet(g))
  }

  /** A player is to move: it holds as many cards as the other if it opened the hand, else one more. */
  ghost predicate ToMove(g: Game) {
    && Ongoing(g) && !g.pendingDeal && |g.players[g.turn].hand| > 0
    && |g.players[1 - g.turn].hand| == |g.players[g.turn].hand| - (if g.turn == g.starter then 0 else 1)
  }

  ghost predicate Choosing(g: Game) {
    && ToMove(g) && g.turn == 0 && 0 <= g.selected < |g.players[0].hand|
    && g.options == CaptureOptions(g.players[0].hand[g.selected], g.table) && |g.options| >= 2
  }

  ghost predicate BetweenHands(g: Game) {
    Ongoing(g) && g.pendingDeal && g.InHands() == 0 && g.deck != []
  }

  /** The round has been scored. */
  ghost predicate RoundScored(g: Game) {
    && |g.players| == 2 && Partition(g) && !g.pendingDeal
    && g.deck == [] && g.table == [] && g.InHands() == 0
    && (g.lastCapturer == 0 || g.lastCapturer == 1)
    && g.lastScore == g.Result()
  }

  ghost predicate Inv(g: Game) {
    match g.phase
    case PlayerTurn => ToMove(g) && g.turn == 0
    case BotTurn => ToMove(g) && g.turn == 1
    case ChooseCapture => Choosing(g)
    case InitRound => BetweenHands(g)
    case RoundSummary => RoundScored(g)
    case MatchOver => RoundScored(g)
  }

  // ----- sorting and dealing -----

  lemma {:induction false} InsertKeeps(hand: seq<int>, card: int)
    ensures multiset(InsertCard(hand, card)) == multiset(hand) + multiset{card}
    ensures |InsertCard(hand, card)| == |hand| + 1
  {
    if hand != [] && card > hand[0] {
      InsertKeeps(hand[1..], card);
      assert hand == [hand[0]] + hand[1..];
    }
  }

  lemma {:induction false} SortKeepsHand(hand: seq<int>)
    ensures multiset(SortHand(hand)) == multiset(hand) && |SortHand(hand)| == |hand|
  {
    if hand != [] {
      SortKeepsHand(hand[1..]);
      InsertKeeps(SortHand(hand[1..]), hand[0]);
      assert hand == [hand[0]] + hand[1..];
    }
  }

  lemma {:induction false} DealKeeps(deck: seq<int>, hand: seq<int>, count: nat, c: int)
    ensures var (d, h) := DealTo(deck, hand, count);
            && multiset(d)[c] + multiset(h)[c] == multiset(deck)[c] + multiset(hand)[c]
            && |h| == |hand| + (if count <= |deck| then count else |deck|)
            && |d| + |h| == |deck| + |hand|
    decreases count
  {
    if count > 0 && deck != [] {
      var n := |deck| - 1;
      DealKeeps(deck[..n], hand + [deck[n]], count - 1, c);
      assert deck == deck[..n] + [deck[n]];
    }
  }

  lemma SortHandsKeeps(g: Game, c: int)
    requires |g.players| == 2
    ensures Copies(g.SortHands(), c) == Copies(g, c) && Remaining(g.SortHands()) == Remaining(g)
    ensures |g.SortHands().players[0].hand| == |g.players[0].hand|
    ensures |g.SortHands().players[1].hand| == |g.players[1].hand|
  {
    SortKeepsHand(g.players[0].hand);
    SortKeepsHand(g.players[1].hand);
  }

  /** Dealing moves three cards to each hand while the deck lasts. */
  lemma DealHandsKeeps(g: Game, c: int)
    requires |g.players| == 2
    ensures Copies(g.DealNextHands(), c) == Copies(g, c)
    ensures Remaining(g.DealNextHands()) == Remaining(g)
    ensures |g.deck| >= 6 ==>
              && |g.DealNextHands().deck| == |g.deck| - 6
              && |g.DealNextHands().players[0].hand| == |g.players[0].hand| + 3
              && |g.DealNextHands().players[1].hand| == |g.players[1].hand| + 3
  {
    var (d0, h0) := DealTo(g.deck, g.players[0].hand, 3);
    var (d1, h1) := DealTo(d0, g.players[1].hand, 3);
    DealKeeps(g.deck, g.players[0].hand, 3, c);
    DealKeeps(d0, g.players[1].hand, 3, c);
    SortKeepsHand(h0);
    SortKeepsHand(h1);
  }

  // ----- taking cards off the table -----

  /** Indices that increase and lie in the table. */
  ghost predicate Good(table: seq<int>, indices: seq<int>) {
    Increasing(indices) && Within(indices, 0, |table|)
  }

  /** The named cards, the last named first. */
  function Taken(table: seq<int>, indices: seq<int>): seq<int> {
    if indices == [] then []
    else
      var i := indices[|indices| - 1];
      [if 0 <= i < |table| then table[i] else 0] + Taken(table, indices[..|indices| - 1])
  }

  lemma {:induction false} TakenSame(a: seq<int>, b: seq<int>, indices: seq<int>)
    requires forall k :: 0 <= k < |indices| ==> 0 <= indices[k] < |a| && indices[k] < |b| && a[indices[k]] == b[indices[k]]
    ensures Taken(a, indices) == Taken(b, indices)
  {
    if indices != [] { TakenSame(a, b, indices[..|indices| - 1]); }
  }

  function Erased(table: seq<int>, i: nat): (left: seq<int>)
    requires i < |table|
    ensures |left| == |table| - 1 && forall k :: 0 <= k < i ==> left[k] == table[k]
  {
    table[..i] + table[i + 1..]
  }

  lemma GoodPrefix(table: seq<int>, indices: seq<int>)
    requires Good(table, indices) && indices != []
    ensures var n := |indices| - 1;
            && 0 <= indices[n] < |table| && Good(Erased(table, indices[n]), indices[..n])
            && Taken(Erased(table, indices[n]), indices[..n]) == Taken(table, indices[..n])
  {
    var n := |indices| - 1;
    var left := Erased(table, indices[n]);
    forall k | 0 <= k < n ensures 0 <= indices[..n][k] < indices[n] {
      assert indices[k] < indices[n];
    }
    TakenSame(left, table, indices[..n]);
  }

  /** Erasing from the last index to the first hands over exactly the cards the option named. */
  lemma {:induction false} TakeDownTakes(table: seq<int>, pile: seq<int>, indices: seq<int>)
    requires Good(table, indices)
    ensures TakeDown(table, pile, indices).1 == pile + Taken(table, indices)
    ensures |TakeDown(table, pile, indices).0| == |table| - |indices|
    decreases |indices|
  {
    if indices != [] {
      var n := |indices| - 1;
      var i := indices[n];
      GoodPrefix(table, indices);
      TakeDownTakes(Erased(table, i), pile + [table[i]], indices[..n]);
    }
  }

  lemma HandLess(hand: seq<int>, h: nat, c: int)
    requires h < |hand|
    ensures multiset(hand[..h] + hand[h + 1..])[c] == multiset(hand)[c] - (if hand[h] == c then 1 else 0)
  {
    assert hand == hand[..h] + [hand[h]] + hand[h + 1..];
  }

  /** ... and no card is lost on the way. */
  lemma {:induction false} TakeDownKeeps(table: seq<int>, pile: seq<int>, indices: seq<int>, c: int)
    ensures var (t, p) := TakeDown(table, pile, indices);
            multiset(t)[c] + multiset(p)[c] == multiset(table)[c] + multiset(pile)[c]
    decreases |indices|
  {
    if indices != [] {
      var n := |indices| - 1;
      var i := indices[n];
      if 0 <= i < |table| {
        HandLess(table, i, c);
        TakeDownKeeps(table[..i] + table[i + 1..], pile + [table[i]], indices[..n], c);
      } else {
        TakeDownKeeps(table, pile, indices[..n], c);
      }
    }
  }

  // ----- one play -----

  /** The option index names a capture exactly when the card must capture. */
  ghost predicate Chosen(g: Game, p: nat, h: nat, k: int)
    requires |g.players| == 2 && p < 2 && h < |g.players[p].hand|
  {
    && g.options == CaptureOptions(g.players[p].hand[h], g.table)
    && (if g.options == [] then k == -1 else 0 <= k < |g.options|)
  }

  lemma HeldIsCard(g: Game, c: int)
    requires |g.players| == 2 && Partition(g)
    requires c in g.table || c in g.players[0].hand || c in g.players[1].hand || c in g.deck
             || c in g.players[0].captured || c in g.players[1].captured
    ensures IsCard(c)
  {
  }

  lemma TableValues(g: Game)
    requires |g.players| == 2 && Partition(g)
    ensures forall i :: 0 <= i < |g.table| ==> 1 <= ValueOf(g.table[i]) <= 10
  {
    forall i | 0 <= i < |g.table| ensures 1 <= ValueOf(g.table[i]) <= 10 {
      assert g.table[i] in g.table;
      HeldIsCard(g, g.table[i]);
    }
  }

  lemma ChosenIsGood(g: Game, p: nat, h: nat, k: int)
    requires |g.players| == 2 && Partition(g) && p < 2 && h < |g.players[p].hand| && Chosen(g, p, h, k)
    ensures k >= 0 ==> Good(g.table, g.options[k]) && g.options[k] != []
    ensures k < 0 ==> forall i :: 0 <= i < |g.table| ==> ValueOf(g.table[i]) != ValueOf(g.players[p].hand[h])
    ensures 1 <= ValueOf(g.players[p].hand[h]) <= 10
  {
    var card := g.players[p].hand[h];
    assert card in g.players[p].hand;
    HeldIsCard(g, card);
    TableValues(g);
    if k >= 0 {
      OptionIsAllowed(card, g.table, k);
    } else {
      NothingToTake(card, g.table);
    }
  }

  function Owned(player: Player, c: int): nat {
    multiset(player.hand)[c] + multiset(player.captured)[c]
  }

  lemma OthersKeep(g: Game, m: Game, p: nat, c: int)
    requires |g.players| == |m.players| == 2 && p < 2 && m.deck == g.deck && m.players[1 - p] == g.players[1 - p]
    requires multiset(m.table)[c] + Owned(m.players[p], c) == multiset(g.table)[c] + Owned(g.players[p], c)
    ensures Copies(m, c) == Copies(g, c)
  {
  }

  /** A play moves one card from the hand, and whatever it captures to the pile. */
  lemma MovedKeepsCards(g: Game, p: nat, h: nat, k: int, c: int)
    requires |g.players| == 2 && p < 2 && h < |g.players[p].hand|
    ensures Copies(g.Moved(p, h, k), c) == Copies(g, c)
  {
    HandLess(g.players[p].hand, h, c);
    var moved := g.Moved(p, h, k);
    if 0 <= k < |g.options| {
      TakeDownKeeps(g.table, g.players[p].captured + [g.players[p].hand[h]], g.options[k], c);
    }
    OthersKeep(g, moved, p, c);
  }

  /** One play uses one card and either captures or lays down a value not on the table. */
  lemma MovedKeepsOngoing(g: Game, p: nat, h: nat, k: int)
    requires ToMove(g) && p == g.turn && h < |g.players[p].hand| && Chosen(g, p, h, k)
    ensures Ongoing(g.Moved(p, h, k)) && Remaining(g.Moved(p, h, k)) == Remaining(g) - 1
    ensures |g.Moved(p, h, k).players[p].hand| == |g.players[p].hand| - 1
    ensures |g.Moved(p, h, k).players[1 - p].hand| == |g.players[1 - p].hand|
    ensures g.Moved(p, h, k).lastCapturer == if k >= 0 then p else g.lastCapturer
  {
    var m := g.Moved(p, h, k);
    ChosenIsGood(g, p, h, k);
    if k >= 0 { TakeDownTakes(g.table, g.players[p].captured + [g.players[p].hand[h]], g.options[k]); }
    forall c ensures Copies(m, c) == if IsCard(c) then 1 else 0 {
      MovedKeepsCards(g, p, h, k, c);
      assert Copies(g, c) == if IsCard(c) then 1 else 0;
    }
  }

  // ----- the pigeonhole -----

  lemma {:induction false} DistinctIsShort(values: seq<int>, n: nat)
    requires forall i :: 0 <= i < |values| ==> 1 <= values[i] && values[i] <= n
    requires forall i, j :: 0 <= i < j < |values| ==> values[i] != values[j]
    ensures |values| <= n
  {
    var first := if values == [] then 1 else values[0];
    if n > 0 {
      if i :| 0 <= i < |values| && values[i] == n {
        DistinctIsShort(values[..i] + values[i + 1..], n - 1);
      } else {
        DistinctIsShort(values, n - 1);
      }
    }
  }

  /** At most ten plays can pass without a capture. */
  lemma SomebodyCaptures(g: Game)
    requires Ongoing(g) && g.lastCapturer == NOBODY
    ensures ROUND_PLAYS - Remaining(g) <= 10
  {
    TableValues(g);
    var tail := Values(g.table[4..]);
    forall i, j | 0 <= i < j < |tail| ensures tail[i] != tail[j] {
      assert tail[i] == ValueOf(g.table[4 + i]) && tail[j] == ValueOf(g.table[4 + j]);
    }
    DistinctIsShort(tail, 10);
  }

  // ----- after a play -----

  lemma PartitionFrom(g: Game, m: Game)
    requires |g.players| == |m.players| == 2 && Partition(g) && forall c :: Copies(m, c) == Copies(g, c)
    ensures Partition(m)
  {
  }

  lemma SortedOngoing(g: Game)
    requires Ongoing(g)
    ensures Ongoing(g.SortHands()) && Remaining(g.SortHands()) == Remaining(g)
    ensures |g.SortHands().players[0].hand| == |g.players[0].hand|
    ensures |g.SortHands().players[1].hand| == |g.players[1].hand|
  {
    forall c ensures Copies(g.SortHands(), c) == Copies(g, c) { SortHandsKeeps(g, c); }
    SortHandsKeeps(g, 0);
    PartitionFrom(g, g.SortHands());
  }

  lemma SweptKeeps(g: Game, c: int)
    requires |g.players| == 2
    ensures Copies(g.Swept(), c) == Copies(g, c)
  {
  }

  /** The same cards in the same places. */
  ghost predicate SameCards(g: Game, m: Game) {
    && |g.players| == |m.players| == 2 && m.deck == g.deck && m.table == g.table
    && m.players[0].hand == g.players[0].hand && m.players[0].captured == g.players[0].captured
    && m.players[1].hand == g.players[1].hand && m.players[1].captured == g.players[1].captured
  }

  lemma SameCardsPartition(g: Game, m: Game)
    requires SameCards(g, m) && Partition(g)
    ensures Partition(m) && Remaining(m) == Remaining(g)
  {
  }

  lemma SameCardsOngoing(g: Game, m: Game)
    requires SameCards(g, m) && Ongoing(g) && m.starter == g.starter && m.lastCapturer == g.lastCapturer
    requires m.turn == 0 || m.turn == 1
    ensures Ongoing(m) && Remaining(m) == Remaining(g)
  {
  }

  lemma SameCardsToMove(g: Game, m: Game)
    requires SameCards(g, m) && ToMove(g) && m.starter == g.starter && m.lastCapturer == g.lastCapturer
    requires m.turn == g.turn && !m.pendingDeal
    ensures ToMove(m) && Remaining(m) == Remaining(g)
  {
  }

  /** Scoring a finished round: the table is empty, and somebody has captured. */
  lemma FinalizeScores(g: Game)
    requires Ongoing(g) && Remaining(g) == 0 && !g.pendingDeal
    ensures RoundScored(g.Finalize()) && Remaining(g.Finalize()) == 0
    ensures g.Finalize().phase.RoundSummary? || g.Finalize().phase.MatchOver?
  {
    if g.lastCapturer == NOBODY { SomebodyCaptures(g); }
    var swept := g.Swept();
    assert swept.table == [];
    forall c ensures Copies(swept, c) == Copies(g, c) { SweptKeeps(g, c); }
    PartitionFrom(g, swept);
    SameCardsPartition(swept, swept.Scored());
  }

  lemma SettleTurn(g: Game)
    requires Ongoing(g) && !g.pendingDeal
    requires |g.players[1 - g.turn].hand| == |g.players[g.turn].hand| - (if g.turn == g.starter then 0 else 1)
    ensures Inv(g.AfterTurn()) && |g.AfterTurn().players| == 2 && Remaining(g.AfterTurn()) == Remaining(g)
    ensures RoundScored(g.AfterTurn()) <==> Remaining(g) == 0
  {
    if g.InHands() > 0 || g.deck != [] {
      SameCardsOngoing(g, g.AfterTurn());
    } else {
      var cleared := g.(options := [], selected := -1);
      SameCardsOngoing(g, cleared);
      FinalizeScores(cleared);
    }
  }

  lemma AfterMove(m: Game, p: nat)
    requires Ongoing(m) && !m.pendingDeal && p == m.turn
    requires |m.players[p].hand| == |m.players[1 - p].hand| - (if p == m.starter then 1 else 0)
    ensures var g := m.Settled(p);
            && |g.players| == 2 && Inv(g) && Remaining(g) == Remaining(m) && (RoundScored(g) <==> Remaining(m) == 0)
  {
    SortedOngoing(m);
    var g := m.SortHands().(turn := 1 - p);
    SameCardsOngoing(m.SortHands(), g);
    SettleTurn(g);
  }

  /** A legal play leads to the next turn, the next hand or the score, and is one of the thirty-six. */
  lemma ApplyKeepsInv(g: Game, p: nat, h: nat, k: int)
    requires ToMove(g) && p == g.turn && h < |g.players[p].hand| && Chosen(g, p, h, k)
    ensures Inv(g.Apply(p, h, k)) && |g.Apply(p, h, k).players| == 2
    ensures Remaining(g.Apply(p, h, k)) == Remaining(g) - 1
    ensures RoundScored(g.Apply(p, h, k)) <==> Remaining(g) == 1
  {
    MovedKeepsOngoing(g, p, h, k);
    assert !g.Moved(p, h, k).pendingDeal && g.Moved(p, h, k).turn == p && g.Moved(p, h, k).starter == g.starter;
    AfterMove(g.Moved(p, h, k), p);
  }

  /** The test for the last play of a round holds exactly before the thirty-sixth. */
  lemma FinalPlayIsLast(g: Game)
    requires ToMove(g)
    ensures g.IsFinalPlay() <==> Remaining(g) == 1
  {
  }

  // ----- dealing -----

  ghost predicate Shuffled(cards: seq<int>) {
    |cards| == 40 && forall c :: multiset(cards)[c] == if IsCard(c) then 1 else 0
  }

  lemma StartKeepsInv(g: Game, shuffled: seq<int>)
    requires |g.players| == 2 && Shuffled(shuffled)
    ensures Inv(g.StartRound(shuffled)) && |g.StartRound(shuffled).players| == 2
    ensures Remaining(g.StartRound(shuffled)) == ROUND_PLAYS && |g.StartRound(shuffled).table| == 4
    ensures g.StartRound(shuffled).phase.PlayerTurn? || g.StartRound(shuffled).phase.BotTurn?
  {
    var blank := g.Cleared(shuffled);
    var dealt := blank.DealNextHands();
    var m := g.StartRound(shuffled);
    DealHandsKeeps(blank, 0);
    DealKeeps(dealt.deck, [], 4, 0);
    forall c ensures Copies(m, c) == if IsCard(c) then 1 else 0 {
      DealHandsKeeps(blank, c);
      DealKeeps(dealt.deck, [], 4, c);
    }
  }

  lemma DealPendingKeepsInv(g: Game)
    requires BetweenHands(g)
    ensures Inv(g.DealPending()) && |g.DealPending().players| == 2 && Remaining(g.DealPending()) == Remaining(g)
    ensures g.DealPending().phase.PlayerTurn? || g.DealPending().phase.BotTurn?
  {
    var dealt := g.DealNextHands();
    forall c ensures Copies(dealt, c) == Copies(g, c) { DealHandsKeeps(g, c); }
    DealHandsKeeps(g, 0);
    PartitionFrom(g, dealt);
    assert Ongoing(dealt);
    SameCardsOngoing(dealt, g.DealPending());
  }

  // ----- the user and the program -----

  lemma OptionsKeepToMove(g: Game, options: seq<seq<int>>)
    requires ToMove(g)
    ensures ToMove(g.(options := options)) && Remaining(g.(options := options)) == Remaining(g)
  {
  }

  lemma ChooseCardKeepsInv(g: Game, h: int)
    requires ToMove(g) && g.turn == 0 && Inv(g)
    ensures Inv(g.ChooseCard(h)) && |g.ChooseCard(h).players| == 2
    ensures Remaining(g.ChooseCard(h)) == Remaining(g) || Remaining(g.ChooseCard(h)) == Remaining(g) - 1
  {
    if 0 <= h < |g.players[0].hand| {
      var choices := CaptureOptions(g.players[0].hand[h], g.table);
      OptionsKeepToMove(g, choices);
      if choices == [] {
        ApplyKeepsInv(g.(options := choices), 0, h, -1);
      } else if |choices| == 1 {
        ApplyKeepsInv(g.(options := choices), 0, h, 0);
      } else {
        SameCardsToMove(g, g.ChooseCard(h));
      }
    }
  }

  lemma TapKeepsInv(g: Game, h: int)
    requires ToMove(g) && g.turn == 0 && Inv(g)
    ensures Inv(g.TapHand(h)) && |g.TapHand(h).players| == 2
    ensures Remaining(g.TapHand(h)) == Remaining(g) || Remaining(g.TapHand(h)) == Remaining(g) - 1
  {
    if g.phase.ChooseCapture? && g.selected == h {
      SameCardsToMove(g, g.TapHand(h));
    } else {
      ChooseCardKeepsInv(g, h);
    }
  }

  lemma DiscardAboveFloor(table: seq<int>, card: int)
    ensures -DiscardRisk(table, card) > -1_000_000
  {
  }

  lemma {:induction false} TakenIsPositive(g: Game, indices: seq<int>)
    ensures g.TakenDenari(indices) >= 0 && g.TakenPrimiera(indices) >= 0
  {
    if indices != [] { TakenIsPositive(g, indices[1..]); }
  }

  lemma CaptureAboveFloor(g: Game, card: int, indices: seq<int>)
    requires |g.players| == 2
    ensures g.CaptureWorth(card, indices) > -1_000_000
  {
    TakenIsPositive(g, indices);
  }

  predicate Candidate(g: Game, h: nat, k: int) {
    && |g.players| == 2 && h < |g.players[1].hand|
    && var choices := CaptureOptions(g.players[1].hand[h], g.table);
       if choices == [] then k == -1 else 0 <= k < |choices|
  }

  /** What the program thinks of playing its card `h`, as a discard for -1 or as its capture `k`. */
  function Worth(g: Game, h: nat, k: int): int
    requires Candidate(g, h, k)
  {
    var card := g.players[1].hand[h];
    if k < 0 then -DiscardRisk(g.table, card) else g.CaptureWorth(card, CaptureOptions(card, g.table)[k])
  }

  predicate Earlier(i: nat, j: int, h: nat, k: int) {
    i < h || (i == h && j < k)
  }

  /** `b` is the first of the highest worth among the moves before (h, k). */
  ghost predicate FirstBest(g: Game, h: nat, k: int, b: BotMove) {
    && Candidate(g, b.handIndex, b.captureIndex) && Earlier(b.handIndex, b.captureIndex, h, k)
    && b.heuristic == Worth(g, b.handIndex, b.captureIndex)
    && forall i: nat, j: int :: Candidate(g, i, j) && Earlier(i, j, h, k) ==>
         if Earlier(i, j, b.handIndex, b.captureIndex) then Worth(g, i, j) < b.heuristic else Worth(g, i, j) <= b.heuristic
  }

  ghost predicate BestSoFar(g: Game, h: nat, k: int, b: BotMove) {
    || FirstBest(g, h, k, b)
    || (b == BotMove(0, -1, -1_000_000) && forall i: nat, j: int :: Candidate(g, i, j) ==> !Earlier(i, j, h, k))
  }

  lemma OneMoreMove(g: Game, h: nat, k: int, b: BotMove)
    requires Candidate(g, h, k) && BestSoFar(g, h, k, b)
    ensures FirstBest(g, h, k + 1, g.BetterMove(b, BotMove(h, k, Worth(g, h, k))))
  {
    if k < 0 {
      DiscardAboveFloor(g.table, g.players[1].hand[h]);
    } else {
      CaptureAboveFloor(g, g.players[1].hand[h], CaptureOptions(g.players[1].hand[h], g.table)[k]);
    }
  }

  lemma {:induction false} BestCaptureIsFirstBest(g: Game, h: nat, n: nat, best: BotMove)
    requires |g.players| == 2 && h < |g.players[1].hand|
    requires n <= |CaptureOptions(g.players[1].hand[h], g.table)| && BestSoFar(g, h, 0, best)
    ensures BestSoFar(g, h, n, g.BestCapture(h, n, best))
    ensures n > 0 ==> FirstBest(g, h, n, g.BestCapture(h, n, best))
  {
    if n > 0 {
      BestCaptureIsFirstBest(g, h, n - 1, best);
      assert Candidate(g, h, n - 1);
      OneMoreMove(g, h, n - 1, g.BestCapture(h, n - 1, best));
    }
  }

  lemma DiscardIsFirstBest(g: Game, h: nat, before: BotMove)
    requires |g.players| == 2 && h < |g.players[1].hand| && CaptureOptions(g.players[1].hand[h], g.table) == []
    requires BestSoFar(g, h, -1, before)
    ensures FirstBest(g, h + 1, -1, g.BetterMove(before, BotMove(h, -1, -DiscardRisk(g.table, g.players[1].hand[h]))))
  {
  }

  lemma NextCard(g: Game, h: nat, k: int, b: BotMove)
    requires FirstBest(g, h, k, b) && forall j :: Candidate(g, h, j) ==> j < k
    ensures FirstBest(g, h + 1, -1, b)
  {
  }

  lemma SameMoves(g: Game, h: nat, b: BotMove)
    requires BestSoFar(g, h, -1, b) && !Candidate(g, h, -1)
    ensures BestSoFar(g, h, 0, b)
  {
  }

  lemma CapturesAreFirstBest(g: Game, h: nat, before: BotMove)
    requires |g.players| == 2 && h < |g.players[1].hand| && CaptureOptions(g.players[1].hand[h], g.table) != []
    requires BestSoFar(g, h, -1, before)
    ensures FirstBest(g, h + 1, -1, g.BestCapture(h, |CaptureOptions(g.players[1].hand[h], g.table)|, before))
  {
    var n := |CaptureOptions(g.players[1].hand[h], g.table)|;
    SameMoves(g, h, before);
    BestCaptureIsFirstBest(g, h, n, before);
    NextCard(g, h, n, g.BestCapture(h, n, before));
  }

  lemma NothingBefore(g: Game)
    ensures BestSoFar(g, 0, -1, BotMove(0, -1, -1_000_000))
  {
  }

  lemma ConsideredIsFirstBest(g: Game, h: nat, before: BotMove)
    requires |g.players| == 2 && h < |g.players[1].hand| && BestSoFar(g, h, -1, before)
    ensures FirstBest(g, h + 1, -1, g.Considered(h, before))
  {
    if CaptureOptions(g.players[1].hand[h], g.table) == [] {
      DiscardIsFirstBest(g, h, before);
    } else {
      CapturesAreFirstBest(g, h, before);
    }
  }

  /** The program plays the first of its most valuable legal moves. */
  lemma {:induction false} BestMoveIsFirstBest(g: Game, n: nat)
    requires |g.players| == 2 && 0 < n <= |g.players[1].hand|
    ensures FirstBest(g, n, -1, g.BestMove(n))
  {
    if n == 1 { NothingBefore(g); } else { BestMoveIsFirstBest(g, n - 1); }
    assert BestSoFar(g, n - 1, -1, g.BestMove(n - 1));
    ConsideredIsFirstBest(g, n - 1, g.BestMove(n - 1));
  }

  lemma BotKeepsInv(g: Game)
    requires ToMove(g) && g.turn == 1 && g.phase.BotTurn?
    ensures Inv(g.BotTurnMove()) && |g.BotTurnMove().players| == 2
    ensures Remaining(g.BotTurnMove()) == Remaining(g) - 1
  {
    BestMoveIsFirstBest(g, |g.players[1].hand|);
    var move := g.BestMove(|g.players[1].hand|);
    var choices := CaptureOptions(g.players[1].hand[move.handIndex], g.table);
    OptionsKeepToMove(g, choices);
    ApplyKeepsInv(g.(options := choices), 1, move.handIndex, move.captureIndex);
  }

  // ----- runs -----

  ghost predicate RealShuffle(e: Event) {
    match e
    case TapContinue(shuffled) => Shuffled(shuffled)
    case NewGame(shuffled) => Shuffled(shuffled)
    case _ => true
  }

  lemma OptionKeepsInv(g: Game, k: nat)
    requires Choosing(g) && g.phase.ChooseCapture?
    ensures |g.ChooseOption(k).players| == 2 && Inv(g.ChooseOption(k))
    ensures Remaining(g.ChooseOption(k)) == Remaining(g) || Remaining(g.ChooseOption(k)) == Remaining(g) - 1
  {
    if k < |g.options| { ApplyKeepsInv(g, 0, g.selected, k); }
  }

  lemma NextRoundKeepsInv(g: Game, shuffled: seq<int>)
    requires |g.players| == 2 && Shuffled(shuffled)
    ensures |g.BeginNextRound(shuffled).players| == 2 && Inv(g.BeginNextRound(shuffled))
  {
    StartKeepsInv(g.(round := g.round + 1), shuffled);
  }

  lemma ResetKeepsInv(g: Game, shuffled: seq<int>)
    requires |g.players| == 2 && Shuffled(shuffled)
    ensures |g.ResetMatch(shuffled).players| == 2 && Inv(g.ResetMatch(shuffled))
  {
    StartKeepsInv(g.(round := 1, players := [g.players[0].(score := 0), g.players[1].(score := 0)]), shuffled);
  }

  lemma ContinueKeepsInv(g: Game, shuffled: seq<int>)
    requires |g.players| == 2 && Inv(g) && Shuffled(shuffled)
    ensures |g.Continue(shuffled).players| == 2 && Inv(g.Continue(shuffled))
  {
    match g.phase
    case MatchOver => ResetKeepsInv(g, shuffled);
    case RoundSummary => NextRoundKeepsInv(g, shuffled);
    case _ => assert g.Continue(shuffled) == g;
  }

  lemma PlayStepKeepsInv(g: Game, e: Event)
    requires |g.players| == 2 && Inv(g) && !e.TapContinue? && !e.NewGame?
    ensures |g.Step(e).players| == 2 && Inv(g.Step(e))
    ensures Remaining(g.Step(e)) == Remaining(g) || Remaining(g.Step(e)) == Remaining(g) - 1
  {
    match e
    case TapCard(h) => if g.phase.PlayerTurn? || g.phase.ChooseCapture? { TapKeepsInv(g, h); }
    case TapOption(k) => if g.phase.ChooseCapture? { OptionKeepsInv(g, k); }
    case BotMoves => if g.phase.BotTurn? { BotKeepsInv(g); }
    case DealTimer => if g.phase.InitRound? { DealPendingKeepsInv(g); }
  }

  lemma StepKeepsInv(g: Game, e: Event)
    requires |g.players| == 2 && Inv(g) && RealShuffle(e)
    ensures |g.Step(e).players| == 2 && Inv(g.Step(e))
    ensures !e.TapContinue? && !e.NewGame? ==>
              Remaining(g.Step(e)) == Remaining(g) || Remaining(g.Step(e)) == Remaining(g) - 1
  {
    match e
    case TapContinue(shuffled) => ContinueKeepsInv(g, shuffled);
    case NewGame(shuffled) => ResetKeepsInv(g, shuffled);
    case _ => PlayStepKeepsInv(g, e);
  }

  ghost function Run(g: Game, events: seq<Event>): Game
    requires |g.players| == 2 && Inv(g) && forall e :: e in events ==> RealShuffle(e)
    decreases |events|
  {
    if events == [] then g
    else
      StepKeepsInv(g, events[0]);
      Run(g.Step(events[0]), events[1..])
  }

  /** Steps that play a card. */
  ghost function Plays(g: Game, events: seq<Event>): nat
    requires |g.players| == 2 && Inv(g) && forall e :: e in events ==> RealShuffle(e)
    decreases |events|
  {
    if events == [] then 0
    else
      StepKeepsInv(g, events[0]);
      (if Remaining(g.Step(events[0])) != Remaining(g) then 1 else 0) + Plays(g.Step(events[0]), events[1..])
  }

  /** Every state of every run satisfies the invariant. */
  lemma {:induction false} RunKeepsInv(g: Game, events: seq<Event>)
    requires |g.players| == 2 && Inv(g) && forall e :: e in events ==> RealShuffle(e)
    ensures |Run(g, events).players| == 2 && Inv(Run(g, events))
    decreases |events|
  {
    if events != [] {
      StepKeepsInv(g, events[0]);
      RunKeepsInv(g.Step(events[0]), events[1..]);
    }
  }

  lemma {:induction false} PlaysSpendCards(g: Game, events: seq<Event>)
    requires |g.players| == 2 && Inv(g)
    requires forall e :: e in events ==> !e.TapContinue? && !e.NewGame?
    ensures |Run(g, events).players| == 2 && Plays(g, events) == Remaining(g) - Remaining(Run(g, events))
    decreases |events|
  {
    if events != [] {
      assert events[0] in events;
      StepKeepsInv(g, events[0]);
      RunKeepsInv(g, events);
      PlaysSpendCards(g.Step(events[0]), events[1..]);
    }
  }

  /** A round takes exactly thirty-six plays: it is scored after the thirty-sixth and never before. */
  lemma RoundTakesThirtySixPlays(g: Game, shuffled: seq<int>, events: seq<Event>)
    requires |g.players| == 2 && Shuffled(shuffled)
    requires forall e :: e in events ==> !e.TapContinue? && !e.NewGame?
    ensures var start := g.StartRound(shuffled);
            && |start.players| == 2 && Inv(start)
            && var end := Run(start, events);
               ((end.phase.RoundSummary? || end.phase.MatchOver?) <==> Plays(start, events) == ROUND_PLAYS)
  {
    StartKeepsInv(g, shuffled);
    var start := g.StartRound(shuffled);
    PlaysSpendCards(start, events);
    RunKeepsInv(start, events);
  }

  // ----- the score -----

  ghost function InPiles(g: Game, c: int): nat
    requires |g.players| == 2
  {
    multiset(g.players[0].captured)[c] + multiset(g.players[1].captured)[c]
  }

  /** The account of a scored round. */
  ghost predicate RoundAccount(g: Game)
    requires |g.players| == 2
  {
    var score := g.lastScore;
    && g.deck == [] && g.table == [] && g.InHands() == 0 && (g.lastCapturer == 0 || g.lastCapturer == 1)
    // the two piles are exactly the forty cards
    && (forall c :: InPiles(g, c) == if IsCard(c) then 1 else 0)
    && score.settebello.Sum() == 1
    && 0 <= score.carte.Sum() <= 1 && 0 <= score.denari.Sum() <= 1 && 0 <= score.primiera.Sum() <= 1
    && score.scope == Pair(g.players[0].scope, g.players[1].scope)
    && 1 + score.scope.Sum() <= score.total.Sum() <= 4 + score.scope.Sum()
  }

  lemma PilesAreTheDeck(g: Game, c: int)
    requires RoundScored(g)
    ensures InPiles(g, c) == if IsCard(c) then 1 else 0
  {
    assert Copies(g, c) == if IsCard(c) then 1 else 0;
    assert g.players[0].hand == [] && g.players[1].hand == [];
  }

  /** The seven of denari is the card 24. */
  lemma Settebello(cards: seq<int>)
    requires forall c :: c in cards ==> IsCard(c)
    ensures HasCard(cards, DENARI, 7) <==> 24 in cards
  {
  }

  lemma OneSettebello(g: Game)
    requires RoundScored(g)
    ensures g.lastScore.settebello.Sum() == 1
  {
    PilesAreTheDeck(g, 24);
    forall c | c in g.players[0].captured || c in g.players[1].captured ensures IsCard(c) {
      PilesAreTheDeck(g, c);
    }
    Settebello(g.players[0].captured);
    Settebello(g.players[1].captured);
  }

  lemma LargerSum(a: int, b: int)
    ensures 0 <= ToLarger(a, b).Sum() <= 1
  {
  }

  lemma PrimieraSum(a: seq<int>, b: seq<int>)
    ensures 0 <= PrimieraPoints(a, b).Sum() <= 1
  {
  }

  lemma TotalSum(a: seq<int>, b: seq<int>, scope: Pair)
    ensures var s := ScoreOf(a, b, scope);
            s.total.Sum() == s.carte.Sum() + s.denari.Sum() + s.settebello.Sum() + s.primiera.Sum() + s.scope.Sum()
  {
  }

  /**
   Whenever a round is scored, the captured piles are exactly the forty cards, the settebello goes
   to one side, each other category to at most one, and both totals add up to between one and four
   plus all scope.
   */
  lemma RoundTotals(g: Game)
    requires RoundScored(g)
    ensures RoundAccount(g)
  {
    var a, b := g.players[0].captured, g.players[1].captured;
    forall c ensures InPiles(g, c) == if IsCard(c) then 1 else 0 {
      PilesAreTheDeck(g, c);
    }
    OneSettebello(g);
    LargerSum(|a|, |b|);
    LargerSum(CountSuit(a, DENARI), CountSuit(b, DENARI));
    PrimieraSum(a, b);
    TotalSum(a, b, Pair(g.players[0].scope, g.players[1].scope));
  }

  /** Whole runs: from any fresh round, every scored round of the run has this account. */
  lemma EveryScoredRound(g: Game, shuffled: seq<int>, events: seq<Event>)
    requires |g.players| == 2 && Shuffled(shuffled) && forall e :: e in events ==> RealShuffle(e)
    ensures var start := g.StartRound(shuffled);
            && |start.players| == 2 && Inv(start)
            && var end := Run(start, events);
               end.phase.RoundSummary? || end.phase.MatchOver? ==>
                 |end.players| == 2 && Partition(end) && RoundAccount(end)
  {
    StartKeepsInv(g, shuffled);
    RunKeepsInv(g.StartRound(shuffled), events);
    var end := Run(g.StartRound(shuffled), events);
    if end.phase.RoundSummary? || end.phase.MatchOver? { RoundTotals(end); }
  }
}
