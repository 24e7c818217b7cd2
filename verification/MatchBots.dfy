/** Seats that play by themselves: what they play is accepted, and exactly when a bot's card is refused. */
module MatchBots {
  import opened Options
  import opened TressetteCards
  import opened DelayedTasks
  import opened TressetteMatch
  import opened MatchRuns
  import opened MatchCards
  import opened MatchShape
  import opened MatchRounds
  import opened MatchTheorems
  import Ai = TressetteBot

  // ----- automatic seats do not stall -----

  lemma TurnIsOpen(m: Match)
    requires Seated(m) && InTrick(m)
    ensures m.table[m.turn] == NO_CARD && NO_CARD in m.table && |m.seats[m.turn].cards| >= 1
  {
    assert SeatInTrick(m, m.turn);
  }

  /** What a seat on turn plays by itself is held and legal, so it is accepted. */
  lemma AutoPlayIsAccepted(m: Match, now: int)
    requires Shape(m) && InTrick(m)
    ensures var auto := m.(seats := m.seats[m.turn := m.seats[m.turn].(isAuto := true)]);
            && m.seats[m.turn].cards != []
            && auto.PlayCard(m.seats[m.turn].uid, FirstOfSuit(m.seats[m.turn].cards, m.suit), true, now).1.Accepted?
  {
    var auto := m.(seats := m.seats[m.turn := m.seats[m.turn].(isAuto := true)]);
    TurnIsOpen(m);
    SameInTrick(m, auto);
    FoundBySeat(auto, m.turn);
  }

  /** A legal card of the seat on turn is accepted. */
  lemma LegalIsAccepted(m: Match, card: int, now: int)
    requires Seated(m) && InTrick(m) && card in m.seats[m.turn].cards
    requires m.suit == -1 || Suit(card) == m.suit || !HasSuit(m.seats[m.turn].cards, m.suit)
    ensures m.PlayCard(m.seats[m.turn].uid, card, false, now).1.Accepted?
  {
    TurnIsOpen(m);
    FoundBySeat(m, m.turn);
  }

  /** What a following bot takes for the lead is the card in the first filled slot, not the card of the leader. */
  lemma {:induction false} FirstFilledIsFirst(table: seq<int>, k: nat)
    requires k < |table| && table[k] != NO_CARD && forall i :: 0 <= i < k ==> table[i] == NO_CARD
    ensures FirstFilled(table) == table[k]
  {
    if k > 0 {
      assert forall i :: 0 <= i < k - 1 ==> table[1..][i] == table[i + 1];
      FirstFilledIsFirst(table[1..], k - 1);
    }
  }

  /** The card breaks the rule to follow suit. */
  ghost predicate Revokes(m: Match, i: nat, card: int)
    requires i < |m.seats|
  {
    m.suit != -1 && Suit(card) != m.suit && exists c :: c in m.seats[i].cards && Suit(c) == m.suit
  }

  /**
   What a player of the game is told: nothing out of turn or once the trick is complete; a wrong suit if
   the card breaks the rule to follow, held or not; else a wrong card if it is not held. Nothing moves
   unless the card is accepted.
   */
  lemma RepliesTell(m: Match, i: nat, card: int, isAuto: bool, now: int)
    requires Seated(m) && i < |m.seats|
    ensures var r := m.PlayCard(m.seats[i].uid, card, isAuto, now);
            var open := m.turn == i && exists k :: 0 <= k < |m.table| && m.table[k] == NO_CARD;
            && (r.1.Ignored? <==> !open)
            && (r.1.InvalidSuit? <==> open && Revokes(m, i, card))
            && (r.1.InvalidCard? <==> open && !Revokes(m, i, card) && card !in m.seats[i].cards)
            && (!r.1.Accepted? ==>
                  && r.0.(seats := m.seats) == m && |r.0.seats| == |m.seats|
                  && forall k :: 0 <= k < |m.seats| ==> r.0.seats[k] == m.seats[k] || r.0.seats[k] == m.seats[k].(isAuto := false))
  {
    FoundBySeat(m, i);
  }

  lemma BotRulesAreSmall(pointToWin: int)
    ensures Ai.Game(BOT_RULES, pointToWin).SmallScores()
    ensures forall c :: Ai.Game(BOT_RULES, pointToWin).Suit(c) == Suit(c)
  {
  }

  /** What the search finds for the seat on turn; `NO_CARD` when no move beats the sentinel. */
  function BotMove(m: Match): int
    requires 0 <= m.turn < |m.seats|
  {
    m.BotGame().Plain(m.BotView(m.turn), m.BotLead(), m.seats[m.turn].depth).bestMove
  }

  /** Points far from the ends of an `int`, and a depth the server draws. */
  predicate BotInRange(m: Match)
    requires 0 <= m.turn < |m.seats|
  {
    && 1 <= m.seats[m.turn].depth <= 3
    && forall i :: 0 <= i < |m.seats| ==> 0 <= m.seats[i].points <= 2_000_000_000
  }

  lemma {:induction false} OpponentSits(m: Match, i: nat, j: nat)
    requires i < |m.seats| && j <= |m.seats|
    ensures m.OpponentFrom(i, j).Some? ==> m.OpponentFrom(i, j).value in m.seats
    decreases |m.seats| - j
  {
    if j < |m.seats| { OpponentSits(m, i, j + 1); }
  }

  lemma StakeFits(m: Match)
    requires Seated(m) && InTrick(m) && BotInRange(m)
    ensures m.BotGame().Stake(m.BotView(m.turn), m.seats[m.turn].depth) < Ai.INT_MAX
  {
    OpponentSits(m, m.turn, 0);
    forall i | 0 <= i < |m.seats| ensures |m.seats[i].cards| <= 10 {
      assert SeatInTrick(m, i);
    }
  }

  /** With two seats the first filled slot is the leader's. */
  lemma FirstFilledLeads(m: Match)
    requires Seated(m) && InTrick(m) && m.playerMode == SOLO && m.turn != m.Leader()
    ensures FirstFilled(m.table) == m.table[m.Leader()] != NO_CARD
  {
    assert SeatInTrick(m, 0) && SeatInTrick(m, 1);
    assert m.table == [m.table[0], m.table[1]];
    assert m.table[1..] == [m.table[1]];
  }

  lemma OnlyOpponent(m: Match, i: nat)
    requires |m.seats| == 2 && i < 2
    ensures m.Opponent(i) == None || m.Opponent(i) == Some(m.seats[1 - i])
  {
    assert m.OpponentFrom(i, 2) == None;
    assert m.OpponentFrom(i, 1) == if i == 1 then None else m.OpponentFrom(i, 1);
  }

  lemma SlotSuit(m: Match)
    requires Seated(m) && InTrick(m)
    ensures m.suit == -1 <==> m.turn == m.Leader()
  {
    assert SeatInTrick(m, m.Leader());
    if m.turn != m.Leader() { SlotIsCard(m, m.Leader()); }
  }

  lemma BotSeesEnough(m: Match)
    requires Shape(m) && InTrick(m) && m.playerMode == SOLO
    ensures m.BotGame().Enough(m.BotView(m.turn), m.BotLead())
    ensures m.BotGame().BotToMove(m.BotView(m.turn), m.BotLead())
  {
    assert SeatInTrick(m, 0) && SeatInTrick(m, 1);
    SlotSuit(m);
    if m.suit != -1 { FirstFilledLeads(m); }
    OnlyOpponent(m, m.turn);
  }

  /** With two seats the card a bot chooses on its turn is always accepted. */
  lemma BotPlayIsAccepted(m: Match, now: int)
    requires Shape(m) && InTrick(m) && m.playerMode == SOLO && BotInRange(m)
    ensures m.seats[m.turn].cards != []
    ensures m.PlayCard(m.seats[m.turn].uid, m.BotCard(m.turn), false, now).1.Accepted?
  {
    TurnIsOpen(m);
    StakeFits(m);
    BotSeesEnough(m);
    BotRulesAreSmall(m.BotGame().pointToWin);
    m.BotGame().ChosenCardIsLegal(m.BotView(m.turn), m.BotLead(), m.seats[m.turn].depth);
    HeldCardIsReal(m, m.turn, BotMove(m));
    if m.suit != -1 { FirstFilledLeads(m); }
    LegalIsAccepted(m, m.BotCard(m.turn), now);
  }

  // ----- any table -----

  lemma {:induction false} FilledIsFound(table: seq<int>, i: nat)
    requires i < |table| && table[i] != NO_CARD
    ensures FirstFilled(table) != NO_CARD
  {
    if i > 0 { FilledIsFound(table[1..], i - 1); }
  }

  lemma BotMoves(m: Match)
    requires Seated(m) && InTrick(m)
    ensures m.BotGame().BotToMove(m.BotView(m.turn), m.BotLead())
    ensures m.suit != -1 ==> FirstFilled(m.table) != NO_CARD
  {
    if m.suit != -1 {
      assert SeatInTrick(m, m.Leader());
      FilledIsFound(m.table, m.Leader());
    }
  }

  /** The card a bot plays is one it holds, and the search's own when it finds one. */
  lemma BotCardIsHeld(m: Match)
    requires Seated(m) && InTrick(m)
    ensures m.seats[m.turn].cards != [] && m.BotCard(m.turn) in m.seats[m.turn].cards
    ensures m.suit != -1 && BotMove(m) != NO_CARD ==>
              || Suit(BotMove(m)) == Suit(FirstFilled(m.table))
              || !HasSuit(m.seats[m.turn].cards, Suit(FirstFilled(m.table)))
  {
    TurnIsOpen(m);
    BotMoves(m);
    BotRulesAreSmall(m.BotGame().pointToWin);
    m.BotGame().BestMoveIsLegal(m.BotView(m.turn), m.BotLead(), m.seats[m.turn].depth);
  }

  /**
   The bot takes the first filled slot for the lead. It follows suit when no suit binds it, when that
   slot holds the suit led, or when the card it is free to choose happens to have that suit.
   */
  predicate BotFollows(m: Match)
    requires 0 <= m.turn < |m.seats| && m.seats[m.turn].cards != []
  {
    var hand, seen := m.seats[m.turn].cards, Suit(FirstFilled(m.table));
    || m.suit == -1 || !HasSuit(hand, m.suit)
    || (if BotMove(m) == NO_CARD then Suit(hand[0]) == m.suit
        else seen == m.suit || (!HasSuit(hand, seen) && Suit(BotMove(m)) == m.suit))
  }

  /** Bound to a suit, the search's card has it exactly as `BotFollows` says. */
  lemma BotFollowsSuit(m: Match)
    requires Seated(m) && InTrick(m) && m.seats[m.turn].cards != []
    requires BotMove(m) != NO_CARD && m.suit != -1 && HasSuit(m.seats[m.turn].cards, m.suit)
    ensures Suit(BotMove(m)) == m.suit <==> BotFollows(m)
  {
    BotCardIsHeld(m);
  }

  /** At any table a bot's card is accepted if and only if it follows; otherwise the suit is refused. */
  lemma BotIsAcceptedIff(m: Match, now: int)
    requires Seated(m) && InTrick(m)
    ensures m.seats[m.turn].cards != []
    ensures var reply := m.PlayCard(m.seats[m.turn].uid, m.BotCard(m.turn), false, now).1;
            (reply.Accepted? <==> BotFollows(m)) && (reply.InvalidSuit? <==> !BotFollows(m))
  {
    TurnIsOpen(m);
    BotCardIsHeld(m);
    FoundBySeat(m, m.turn);
    if BotMove(m) != NO_CARD && m.suit != -1 && HasSuit(m.seats[m.turn].cards, m.suit) {
      BotFollowsSuit(m);
    }
  }

  /** The bot holds a card for every trick it looks ahead, or for every card of its opponent. */
  predicate BotSupplied(m: Match)
    requires 0 <= m.turn < |m.seats|
  {
    m.seats[m.turn].depth <= |m.seats[m.turn].cards| || m.BotGame().Enough(m.BotView(m.turn), m.BotLead())
  }

  lemma BotFindsMove(m: Match)
    requires Seated(m) && InTrick(m) && BotInRange(m) && BotSupplied(m)
    ensures BotMove(m) != NO_CARD
  {
    TurnIsOpen(m);
    BotMoves(m);
    StakeFits(m);
    BotRulesAreSmall(m.BotGame().pointToWin);
    m.BotGame().ChosenCardIsLegal(m.BotView(m.turn), m.BotLead(), m.seats[m.turn].depth);
    HeldCardIsReal(m, m.turn, BotMove(m));
  }

  /** Whatever the search finds, a bot that holds no other suit than the one led follows. */
  lemma OneSuitFollows(m: Match)
    requires Seated(m) && InTrick(m)
    requires forall c :: c in m.seats[m.turn].cards ==> Suit(c) == m.suit
    ensures m.seats[m.turn].cards != [] && BotFollows(m)
  {
    BotCardIsHeld(m);
  }

  /**
   A bot is accepted when it leads, when it is void in the suit led or holds no other suit, and, if it
   is supplied, when the first filled slot shows the suit led.
   */
  lemma FourSeatBotIsAccepted(m: Match, now: int)
    requires Shape(m) && InTrick(m) && m.playerMode == DUO && BotInRange(m)
    requires || m.suit == -1 || !HasSuit(m.seats[m.turn].cards, m.suit)
             || (forall c :: c in m.seats[m.turn].cards ==> Suit(c) == m.suit)
             || (Suit(FirstFilled(m.table)) == m.suit && BotSupplied(m))
    ensures m.seats[m.turn].cards != []
    ensures m.PlayCard(m.seats[m.turn].uid, m.BotCard(m.turn), false, now).1.Accepted?
  {
    if forall c :: c in m.seats[m.turn].cards ==> Suit(c) == m.suit {
      OneSuitFollows(m);
    } else if m.suit != -1 && HasSuit(m.seats[m.turn].cards, m.suit) {
      BotFindsMove(m);
    }
    BotIsAcceptedIff(m, now);
  }

  lemma RefusedIsHeld(m: Match, now: int)
    requires Seated(m) && InTrick(m) && m.seats[m.turn].cards != [] && !BotFollows(m)
    ensures m.BotPlay(m.turn, now) == m.Held(m.turn, false)
  {
    BotIsAcceptedIff(m, now);
    FoundBySeat(m, m.turn);
  }

  /** Seeing another suit than the one led, a supplied bot that holds both is refused and nothing happens. */
  lemma FourSeatBotStalls(m: Match, now: int)
    requires Shape(m) && InTrick(m) && m.playerMode == DUO && m.suit != -1 && BotInRange(m) && BotSupplied(m)
    requires Suit(FirstFilled(m.table)) != m.suit
    requires HasSuit(m.seats[m.turn].cards, m.suit) && HasSuit(m.seats[m.turn].cards, Suit(FirstFilled(m.table)))
    ensures m.seats[m.turn].cards != [] && !BotFollows(m)
    ensures m.PlayCard(m.seats[m.turn].uid, m.BotCard(m.turn), false, now).1.InvalidSuit?
    ensures m.BotPlay(m.turn, now) == m.Held(m.turn, false)
  {
    BotFindsMove(m);
    BotIsAcceptedIff(m, now);
    RefusedIsHeld(m, now);
  }

  // ----- a refused bot stalls the game -----

  /** A bot is on turn, nothing is pending, and its card is refused. */
  ghost predicate Stalled(m: Match) {
    && Seated(m) && InTrick(m) && NonePending(m)
    && m.seats[m.turn].isBot && m.seats[m.turn].cards != [] && !BotFollows(m)
  }

  /** The same game at another clock reading, save perhaps the automatic mark of the seat on turn. */
  ghost predicate SameGame(m: Match, m': Match)
    requires 0 <= m.turn < |m.seats|
  {
    m'.(ledger := m.ledger) == m || m'.(ledger := m.ledger) == m.Held(m.turn, false)
  }

  lemma {:induction false} SameOpponent(m: Match, m': Match, i: nat, j: nat)
    requires i < |m.seats| == |m'.seats| && j <= |m.seats|
    requires m'.seats == m.seats || m'.seats == m.seats[i := m.seats[i].(isAuto := false)]
    ensures m'.OpponentFrom(i, j) == m.OpponentFrom(i, j)
    decreases |m.seats| - j
  {
    if j < |m.seats| { SameOpponent(m, m', i, j + 1); }
  }

  lemma SameBotMove(m: Match, m': Match)
    requires 0 <= m.turn < |m.seats| && SameGame(m, m')
    ensures m'.turn == m.turn && BotMove(m') == BotMove(m)
    ensures m'.seats[m.turn].cards == m.seats[m.turn].cards
  {
    SameOpponent(m, m', m.turn, 0);
  }

  lemma StaysStalled(m: Match, m': Match)
    requires Stalled(m) && SameGame(m, m') && m'.ledger == m.ledger.(clock := m'.ledger.clock)
    ensures Stalled(m') && m'.BotCard(m.turn) == m.BotCard(m.turn)
  {
    SameInTrick(m, m');
    SameBotMove(m, m');
  }

  lemma HeldStaysStalled(m: Match)
    requires Stalled(m)
    ensures Stalled(m.Held(m.turn, false))
    ensures m.Held(m.turn, false).Held(m.turn, false) == m.Held(m.turn, false)
  {
    StaysStalled(m, m.Held(m.turn, false));
  }

  lemma StalledTurn(m: Match, i: nat, tick: Tick)
    requires Stalled(m) && i < |m.seats|
    ensures var m' := m.SeatTurn(i, tick.now, tick.expired); m' == m || m' == m.Held(m.turn, false)
  {
    assert SeatInTrick(m, i);
    RefusedIsHeld(m, tick.now);
  }

  /** One round of turns over a stalled table refuses the same card, or does nothing. */
  lemma {:induction false} StalledTurns(m: Match, i: nat, tick: Tick)
    requires Stalled(m) && i <= |m.seats|
    ensures m.AllTurns(i, tick) == m || m.AllTurns(i, tick) == m.Held(m.turn, false)
    decreases |m.seats| - i
  {
    if i < |m.seats| {
      StalledTurn(m, i, tick);
      if m.SeatTurn(i, tick.now, tick.expired) == m {
        StalledTurns(m, i + 1, tick);
      } else {
        var held := m.Held(m.turn, false);
        HeldStaysStalled(m);
        StalledTurns(held, i + 1, tick);
      }
    }
  }

  ghost function Ticks(m: Match, ticks: seq<Tick>): Match
    decreases |ticks|
  {
    if ticks == [] then m else Ticks(Step(m, ticks[0].now, Elapse(ticks[0])), ticks[1..])
  }

  lemma StaysSame(m: Match, m': Match, m'': Match)
    requires 0 <= m.turn < |m.seats| && SameGame(m, m') && SameGame(m', m'')
    ensures SameGame(m, m'')
  {
  }

  lemma StalledTick(m: Match, tick: Tick)
    requires Stalled(m) && tick.now - m.timeStart <= TIME_MATCH_MAXIMUM
    ensures var m' := Step(m, tick.now, Elapse(tick)); SameGame(m, m') && m'.ledger == m.ledger.(clock := tick.now)
  {
    var at := At(m, tick.now);
    StaysStalled(m, at);
    assert RunDue(at, tick.now, tick.shuffled) == at;
    StalledTurns(at, 0, tick);
  }

  /**
   However often the match ticks within its hour, a refused bot offers the same card again and no
   other seat, card or point changes.
   */
  lemma {:induction false} RefusedBotStallsTheGame(m: Match, ticks: seq<Tick>)
    requires Stalled(m) && forall t :: t in ticks ==> t.now - m.timeStart <= TIME_MATCH_MAXIMUM
    ensures SameGame(m, Ticks(m, ticks)) && Stalled(Ticks(m, ticks))
    ensures Ticks(m, ticks).BotCard(m.turn) == m.BotCard(m.turn)
    decreases |ticks|
  {
    if ticks != [] {
      var m' := Step(m, ticks[0].now, Elapse(ticks[0]));
      StalledTick(m, ticks[0]);
      StaysStalled(m, m');
      assert forall t :: t in ticks[1..] ==> t in ticks;
      RefusedBotStallsTheGame(m', ticks[1..]);
      StaysSame(m, m', Ticks(m, ticks));
    } else {
      StaysStalled(m, m);
    }
  }
}
