/**
 A seat that has lost its team can win every trick of a game. The points then never end it, and round
 after round is completed until the hour is over.
 */
module MatchTeamless {
  import opened Options
  import opened TressetteCards
  import opened DelayedTasks
  import opened TressetteMatch
  import opened MatchRuns
  import opened MatchCards
  import opened MatchShape
  import opened MatchRounds
  import opened MatchScores
  import opened MatchTheorems
  import opened MatchBots
  import opened MatchProgress
  import opened MatchDeals
  import CardLists

  predicate OnATeam(team: int) {
    team == 0 || team == 1
  }

  // ----- winning every trick -----

  /** Seat `i` leads every trick; in the very first one it still holds every suit until it has played. */
  predicate LeadsOrFollows(m: Match, i: nat)
    requires i < |m.seats| == |m.table|
  {
    || m.lastWon == m.seats[i].uid
    || (m.lastWon == NO_WINNER &&
        (m.table[i] != NO_CARD || m.seats[i].cards == [] || forall s :: 0 <= s < 4 ==> HasSuit(m.seats[i].cards, s)))
  }

  /** Where the favoured cards are. */
  ghost predicate TopCards(m: Match, i: nat)
    requires i < |m.seats| == |m.table|
  {
    && (forall k, c :: 0 <= k < |m.seats| && c in m.seats[k].cards ==> (Top(m.playerMode, c) <==> k == i))
    && (forall k :: 0 <= k < |m.table| && m.table[k] != NO_CARD ==> (Top(m.playerMode, m.table[k]) <==> k == i))
    && DeckSplit(m.playerMode, i, m.deck)
  }

  /** Seat `i` has no team, holds the favoured cards, and has won all there was to win. */
  ghost predicate WinsAll(m: Match, i: nat) {
    && i < |m.seats| == |m.table| == m.playerMode && m.pointMode > 0
    && !OnATeam(m.seats[i].team)
    && (forall k :: 0 <= k < |m.seats| ==> !m.seats[k].isBot && (k != i ==> m.seats[k].points == 0))
    && TopCards(m, i) && LeadsOrFollows(m, i)
    && (m.table[i] != NO_CARD ==> Suit(m.table[i]) == m.suit)
  }

  lemma TargetIsFar(m: Match, i: nat)
    requires WinsAll(m, i)
    ensures !m.ReachedTarget()
  {
    OthersDoNotCount(m.seats, 0);
    OthersDoNotCount(m.seats, 1);
  }

  // ----- tasks -----

  lemma RoundKeepsWinning(m: Match, i: nat, now: int)
    requires WinsAll(m, i)
    ensures WinsAll(m.StartRound(now), i)
  {
  }

  lemma OpeningKeepsWinning(m: Match, i: nat)
    requires WinsAll(m, i) && Quiet(m)
    ensures WinsAll(m.OpenHand(), i)
  {
  }

  lemma DealtTopCards(m: Match, i: nat)
    requires Seated(m) && i < |m.seats| && Quiet(m)
    ensures TopCards(m.Deal(TopDeal(m.playerMode, i)), i)
  {
    var n := m.playerMode;
    var m' := m.Deal(TopDeal(n, i));
    DeckOf(n, i);
    forall k, c | 0 <= k < |m.seats| && c in m'.seats[k].cards ensures Top(n, c) <==> k == i {
      HandOf(n, i, k);
    }
  }

  lemma DealtFavoured(m: Match, i: nat)
    requires Seated(m) && i < |m.seats|
    ensures forall s :: 0 <= s < 4 ==> HasSuit(m.Deal(TopDeal(m.playerMode, i)).seats[i].cards, s)
  {
    HandOf(m.playerMode, i, i);
    forall s | 0 <= s < 4 ensures HasSuit(TOP_HAND, s) {
      TopHandHasAll(s);
    }
  }

  lemma DealKeepsWinning(m: Match, i: nat)
    requires Seated(m) && WinsAll(m, i) && Quiet(m) && (m.lastWon == m.seats[i].uid || m.lastWon == NO_WINNER)
    ensures |TopDeal(m.playerMode, i)| >= HAND_SIZE * |m.seats|
    ensures WinsAll(m.Deal(TopDeal(m.playerMode, i)), i)
  {
    DealtTopCards(m, i);
    DealtFavoured(m, i);
  }

  /** One card each from the back of the deck, to two seats. */
  lemma DrawTwo(seats: seq<Seat>, deck: seq<int>)
    requires |seats| == 2 && |deck| >= 2
    ensures var n := |deck|;
            DrawFrom(seats, deck, 0) ==
            ([seats[0].(cards := seats[0].cards + [deck[n - 1]]), seats[1].(cards := seats[1].cards + [deck[n - 2]])], deck[..n - 2])
  {
    var n := |deck|;
    var one := seats[0 := seats[0].(cards := seats[0].cards + [deck[n - 1]])];
    var two := one[1 := one[1].(cards := one[1].cards + [deck[n - 2]])];
    assert deck[..n - 1][..n - 2] == deck[..n - 2];
    assert DrawFrom(one, deck[..n - 1], 1) == DrawFrom(two, deck[..n - 2], 2) == (two, deck[..n - 2]);
    assert two == [seats[0].(cards := seats[0].cards + [deck[n - 1]]), seats[1].(cards := seats[1].cards + [deck[n - 2]])];
  }

  lemma DrawKeepsWinning(m: Match, i: nat)
    requires Seated(m) && Drawing(m) && WinsAll(m, i)
    ensures WinsAll(m.Draw(), i)
  {
    DrawTwo(m.seats, m.deck);
    var m' := m.Draw();
    forall k, c | 0 <= k < 2 && c in m'.seats[k].cards ensures Top(m.playerMode, c) <==> k == i {
      if c !in m.seats[k].cards { assert c == m.deck[|m.deck| - 1 - k]; }
    }
    forall s | 0 <= s < 4 && HasSuit(m.seats[i].cards, s) ensures HasSuit(m'.seats[i].cards, s) {
      var c :| c in m.seats[i].cards && Suit(c) == s;
      assert c in m'.seats[i].cards;
    }
  }

  lemma PoppedKeepsWinning(m: Match, i: nat)
    requires WinsAll(m, i) && m.queue.tasks != []
    ensures WinsAll(Popped(m), i)
  {
  }

  lemma TaskKeepsWinning(m: Match, i: nat, now: int)
    requires Shape(m) && m.queue.HasDue(now) && WinsAll(m, i)
    ensures WinsAll(Popped(m).RunTask(m.queue.tasks[0].task, now, TopDeal(m.playerMode, i)), i)
  {
    var left := Popped(m);
    PoppedKeepsWinning(m, i);
    SameQuietStage(m, left);
    match m.queue.tasks[0].task
    case NewRound => RoundKeepsWinning(left, i, now);
    case DealCards => DealKeepsWinning(left, i);
    case NewHand => OpeningKeepsWinning(left, i);
    case DrawCards => DrawKeepsWinning(left, i);
    case _ =>
  }

  lemma FavouredTask(m: Match, i: nat, now: int)
    requires Inv(m) && m.phase.Playing? && m.ledger.clock == now && m.queue.HasDue(now) && WinsAll(m, i)
    ensures var m' := Popped(m).RunTask(m.queue.tasks[0].task, now, TopDeal(m.playerMode, i));
            Inv(m') && m'.phase.Playing? && m'.ledger.clock == now && WinsAll(m', i) && m'.playerMode == m.playerMode
  {
    var shuffled := TopDeal(m.playerMode, i);
    TopDealIsShuffled(m.playerMode, i);
    TaskRunsInTime(m, now, shuffled);
    TaskKeepsInv(m, now, shuffled);
    TaskKeepsShape(m, now, shuffled);
    TaskKeepsWinning(m, i, now);
    TaskCounts(Popped(m), m.queue.tasks[0].task, now, shuffled);
  }

  lemma {:induction false} DrainKeepsWinning(m: Match, i: nat, now: int)
    requires Inv(m) && m.phase.Playing? && m.ledger.clock == now && WinsAll(m, i)
    ensures WinsAll(RunDue(m, now, TopDeal(m.playerMode, i)), i)
    decreases m.queue.DueCount(now)
  {
    var shuffled := TopDeal(m.playerMode, i);
    if m.queue.HasDue(now) {
      var m' := Popped(m).RunTask(m.queue.tasks[0].task, now, shuffled);
      TaskKeepsDue(Popped(m), m.queue.tasks[0].task, now, shuffled);
      FavouredTask(m, i, now);
      DrainKeepsWinning(m', i, now);
    }
  }

  // ----- plays -----

  /** What the seat on turn plays by itself follows suit if the favoured seat plays it. */
  lemma AutoCardFollows(m: Match, i: nat)
    requires Seated(m) && InTrick(m) && WinsAll(m, i) && m.turn == i && m.suit != -1
    ensures m.seats[i].cards != [] && Suit(FirstOfSuit(m.seats[i].cards, m.suit)) == m.suit
  {
    TurnIsOpen(m);
    FoundBySeat(m, i);
    assert m.lastWon == NO_WINNER;
    assert SeatInTrick(m, m.Leader());
    SlotIsCard(m, m.Leader());
    assert HasSuit(m.seats[i].cards, m.suit);
  }

  lemma WithoutIn(cards: seq<int>, card: int)
    ensures forall c :: c in CardLists.Without(cards, card) ==> c in cards
  {
    CardLists.WithoutMultiset(cards, card);
    forall c | c in CardLists.Without(cards, card) ensures c in cards {
      assert c in multiset(CardLists.Without(cards, card));
    }
  }

  lemma PlacedKeepsWinning(m: Match, i: nat, card: int)
    requires Seated(m) && InTrick(m) && WinsAll(m, i) && card in m.seats[m.turn].cards
    requires m.turn == i && m.suit != -1 ==> Suit(card) == m.suit
    ensures WinsAll(m.Placed(m.turn, card), i)
  {
    TurnIsOpen(m);
    assert SeatInTrick(m, i);
    WithoutIn(m.seats[m.turn].cards, card);
  }

  lemma PassKeepsWinning(m: Match, i: nat)
    requires WinsAll(m, i)
    ensures WinsAll(m.PassTurn(), i)
  {
  }

  /** The favoured seat's card has the suit led, so it takes the trick. */
  lemma FavouredWins(m: Match, i: nat)
    requires Seated(m) && Complete(m) && WinsAll(m, i)
    ensures SlotOf(m.table, BestOfSuit(m.table, m.suit, |m.table|)) == i
  {
    var best := BestOfSuit(m.table, m.suit, |m.table|);
    var w := SlotOf(m.table, best);
    WinnerExists(m);
    assert m.table[i] in m.table;
    if best != m.table[i] { TopBeats(m.playerMode, m.table[i], best); }
  }

  lemma PaidKeepsWinning(m: Match, i: nat)
    requires WinsAll(m, i)
    ensures WinsAll(m.Paid(i), i)
  {
  }

  lemma AfterHandKeepsWinning(m: Match, i: nat, now: int, endRound: bool)
    requires WinsAll(m, i) && m.phase.Playing?
    ensures WinsAll(m.AfterHand(now, endRound), i) && m.AfterHand(now, endRound).phase.Playing?
  {
    TargetIsFar(m, i);
  }

  lemma EndHandKeepsWinning(m: Match, i: nat, now: int)
    requires Seated(m) && Complete(m) && WinsAll(m, i)
    ensures WinsAll(m.EndHand(now), i) && m.EndHand(now).phase.Playing?
  {
    FavouredWins(m, i);
    PaidKeepsWinning(m, i);
    AfterHandKeepsWinning(m.Paid(i), i, now, m.deck == [] && m.seats[0].cards == []);
  }

  lemma TrickKeepsWinning(m: Match, i: nat, card: int, now: int)
    requires Seated(m) && InTrick(m) && WinsAll(m.Placed(m.turn, card), i) && card in m.seats[m.turn].cards
    requires NO_CARD !in m.Placed(m.turn, card).table
    ensures WinsAll(m.Accept(m.turn, card, now), i) && m.Accept(m.turn, card, now).phase.Playing?
  {
    var full := m.Placed(m.turn, card).(turn := -1);
    PlacedComplete(m, card);
    EndHandKeepsWinning(full, i, now);
  }

  lemma AcceptKeepsWinning(m: Match, i: nat, card: int, now: int)
    requires Seated(m) && InTrick(m) && WinsAll(m, i) && card in m.seats[m.turn].cards
    requires m.turn == i && m.suit != -1 ==> Suit(card) == m.suit
    ensures WinsAll(m.Accept(m.turn, card, now), i) && m.Accept(m.turn, card, now).phase.Playing?
  {
    var placed := m.Placed(m.turn, card);
    PlacedKeepsWinning(m, i, card);
    if NO_CARD !in placed.table {
      TrickKeepsWinning(m, i, card, now);
    } else {
      PassKeepsWinning(placed, i);
    }
  }

  lemma AutoMarkKeepsWinning(m: Match, i: nat, k: nat)
    requires WinsAll(m, i) && k < |m.seats|
    ensures WinsAll(m.(seats := m.seats[k := m.seats[k].(isAuto := true)]), i)
  {
  }

  lemma AutoTurnIsPlay(m: Match, i: nat, tick: Tick)
    requires i < |m.seats| && !m.seats[i].Empty() && !m.seats[i].isBot && m.seats[i].onTurn && i in tick.expired && m.seats[i].cards != []
    ensures var auto := m.(seats := m.seats[i := m.seats[i].(isAuto := true)]);
            m.SeatTurn(i, tick.now, tick.expired) ==
            auto.PlayCard(m.seats[i].uid, FirstOfSuit(m.seats[i].cards, m.suit), true, tick.now).0
  {
  }

  lemma AutoIsAccept(m: Match, now: int)
    requires Shape(m) && InTrick(m)
    ensures m.seats[m.turn].cards != []
    ensures var auto := m.(seats := m.seats[m.turn := m.seats[m.turn].(isAuto := true)]);
            auto.PlayCard(m.seats[m.turn].uid, FirstOfSuit(m.seats[m.turn].cards, m.suit), true, now).0 ==
            auto.Accept(m.turn, FirstOfSuit(m.seats[m.turn].cards, m.suit), now)
  {
    var auto := m.(seats := m.seats[m.turn := m.seats[m.turn].(isAuto := true)]);
    AutoPlayIsAccepted(m, now);
    FoundBySeat(auto, m.turn);
    assert auto.Held(m.turn, true) == auto;
  }

  lemma AutoMarkInTrick(m: Match)
    requires Seated(m) && InTrick(m)
    ensures var auto := m.(seats := m.seats[m.turn := m.seats[m.turn].(isAuto := true)]); Seated(auto) && InTrick(auto)
  {
    SameInTrick(m, m.(seats := m.seats[m.turn := m.seats[m.turn].(isAuto := true)]));
  }

  /** The turn of a seat that is not a bot is one accepted card. */
  lemma AutoTurn(m: Match, tick: Tick)
    requires Shape(m) && InTrick(m) && !m.seats[m.turn].isBot && m.seats[m.turn].onTurn && m.turn in tick.expired
    ensures m.seats[m.turn].cards != []
    ensures var auto := m.(seats := m.seats[m.turn := m.seats[m.turn].(isAuto := true)]);
            m.SeatTurn(m.turn, tick.now, tick.expired) == auto.Accept(m.turn, FirstOfSuit(m.seats[m.turn].cards, m.suit), tick.now)
  {
    TurnIsOpen(m);
    AutoTurnIsPlay(m, m.turn, tick);
    AutoIsAccept(m, tick.now);
  }

  lemma AutoTurnKeepsWinning(m: Match, i: nat, tick: Tick)
    requires Shape(m) && InTrick(m) && WinsAll(m, i) && m.turn in tick.expired && m.seats[m.turn].onTurn
    ensures var m' := m.SeatTurn(m.turn, tick.now, tick.expired); WinsAll(m', i) && m'.phase.Playing?
  {
    var auto := m.(seats := m.seats[m.turn := m.seats[m.turn].(isAuto := true)]);
    AutoTurn(m, tick);
    AutoMarkKeepsWinning(m, i, m.turn);
    AutoMarkInTrick(m);
    if m.turn == i && m.suit != -1 { AutoCardFollows(m, i); }
    AcceptKeepsWinning(auto, i, FirstOfSuit(m.seats[m.turn].cards, m.suit), tick.now);
  }

  lemma TurnKeepsWinning(m: Match, i: nat, k: nat, tick: Tick)
    requires Shape(m) && WinsAll(m, i) && k < |m.seats|
    ensures var m' := m.SeatTurn(k, tick.now, tick.expired); WinsAll(m', i) && m'.phase.Playing?
  {
    if m.seats[k].onTurn && k in tick.expired {
      assert NonePending(m) && InTrick(m);
      assert SeatInTrick(m, k);
      AutoTurnKeepsWinning(m, i, tick);
    }
  }

  lemma {:induction false} TurnsKeepWinning(m: Match, i: nat, k: nat, tick: Tick)
    requires Shape(m) && WinsAll(m, i) && k <= |m.seats|
    ensures WinsAll(m.AllTurns(k, tick), i) && m.AllTurns(k, tick).phase.Playing?
    decreases |m.seats| - k
  {
    if k < |m.seats| {
      TurnKeepsWinning(m, i, k, tick);
      SeatTurnKeepsShape(m, k, tick.now, tick.expired);
      TurnPeople(m, k, tick);
      TurnsKeepWinning(m.SeatTurn(k, tick.now, tick.expired), i, k + 1, tick);
    }
  }
}
