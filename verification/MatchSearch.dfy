/**
 What a bot at a table for two searches: the hands, points and card on the table as they are, so that
 the card it plays begins a line of play worth what the search says.
 */
module MatchSearch {
  import opened Options
  import opened TressetteCards
  import opened TressetteMatch
  import opened MatchCards
  import opened MatchShape
  import opened MatchRounds
  import opened MatchBots
  import opened BotTricks
  import Ai = TressetteBot

  /**
   With both teams at the table the bot sees both hands and both scores, and the card led if it follows.
   It aims at the target in thirds when it leads, but at the number of whole points when it follows.
   */
  lemma BotSeesTheTable(m: Match)
    requires Shape(m) && InTrick(m) && m.playerMode == SOLO && m.seats[0].team != m.seats[1].team
    ensures var me, foe := m.seats[m.turn], m.seats[1 - m.turn];
            && m.BotView(m.turn) == Ai.Position(if m.turn == m.Leader() then Ai.Bot else Ai.Player,
                                                me.points, foe.points, me.cards, foe.cards, [], [])
            && m.BotLead() == (if m.turn == m.Leader() then None else Some(m.table[1 - m.turn]))
            && m.BotGame().pointToWin == (if m.turn == m.Leader() then 3 * m.pointMode else m.pointMode)
  {
    OnlyOpponent(m, m.turn);
    SlotSuit(m);
    assert SeatInTrick(m, 0) && SeatInTrick(m, 1);
    if m.turn != m.Leader() { FirstFilledLeads(m); }
    assert m.OpponentFrom(m.turn, 2) == None;
    assert m.OpponentFrom(m.turn, 1) == if m.turn == 1 then None else Some(m.seats[1]);
  }

  lemma TwoHands(m: Match, c: int)
    requires |m.seats| == 2
    ensures HandCopies(m.seats, c) == multiset(m.seats[0].cards)[c] + multiset(m.seats[1].cards)[c]
  {
    assert m.seats[..1][..0] == [];
    assert HandCopies(m.seats[..1], c) == multiset(m.seats[0].cards)[c];
  }

  lemma NotHeld(cards: seq<int>, c: int)
    requires AreCards(cards) && !IsCard(c)
    ensures multiset(cards)[c] == 0
  {
    assert c !in cards;
  }

  lemma LedIsOnTable(m: Match, c: int)
    requires Shape(m) && InTrick(m) && m.playerMode == SOLO && m.turn != m.Leader()
    ensures m.table[1 - m.turn] != NO_CARD && multiset([m.table[1 - m.turn]])[c] <= multiset(m.table)[c]
  {
    assert SeatInTrick(m, 1 - m.turn);
    assert m.table[1 - m.turn] in m.table;
  }

  /** What it sees are real cards, each once. */
  lemma ViewIsOnce(m: Match)
    requires Shape(m) && InTrick(m) && m.playerMode == SOLO && m.seats[0].team != m.seats[1].team
    ensures EachOnce(m.BotView(m.turn), m.BotLead())
  {
    BotSeesTheTable(m);
    var view, lead := m.BotView(m.turn), m.BotLead();
    forall c ensures BotTricks.Copies(view, lead, c) <= if IsCard(c) then 1 else 0 {
      TwoHands(m, c);
      if m.turn != m.Leader() { LedIsOnTable(m, c); }
      if c == NO_CARD {
        NotHeld(m.seats[0].cards, c);
        NotHeld(m.seats[1].cards, c);
      } else {
        assert MatchCards.Copies(m, c) == if IsCard(c) then 1 else 0;
      }
    }
  }

  lemma LedIsGone(m: Match)
    requires Shape(m) && InTrick(m) && m.playerMode == SOLO && m.turn != m.Leader()
    ensures m.table[1 - m.turn] !in m.seats[1 - m.turn].cards
  {
    var card := m.table[1 - m.turn];
    LedIsOnTable(m, card);
    TwoHands(m, card);
    assert MatchCards.Copies(m, card) == if IsCard(card) then 1 else 0;
    assert card in multiset(m.seats[1 - m.turn].cards) <==> card in m.seats[1 - m.turn].cards;
  }

  lemma BotIsBalanced(m: Match)
    requires Shape(m) && InTrick(m) && m.playerMode == SOLO && m.seats[0].team != m.seats[1].team
    ensures m.BotGame().Balanced(m.BotView(m.turn), m.BotLead())
  {
    BotSeesTheTable(m);
    assert SeatInTrick(m, 0) && SeatInTrick(m, 1);
    if m.turn != m.Leader() { LedIsGone(m); }
  }

  /** The bot finds a move, and that is what it plays. */
  lemma BotPlaysItsMove(m: Match)
    requires Shape(m) && InTrick(m) && m.playerMode == SOLO && BotInRange(m)
    ensures m.seats[m.turn].cards != [] && m.BotGame().BotToMove(m.BotView(m.turn), m.BotLead())
    ensures m.BotCard(m.turn) == m.BotGame().Plain(m.BotView(m.turn), m.BotLead(), m.seats[m.turn].depth).bestMove
  {
    TurnIsOpen(m);
    BotSeesEnough(m);
    BotFindsMove(m);
  }

  /** The card begins a line of legal play worth `v`, which is the most the bot can force. */
  ghost predicate BestFor(target: int, view: Ai.Position, lead: Option<int>, depth: int, card: int, line: Line, v: int) {
    && Justifies(target, view, lead, depth, line) && line != [] && CardOf(view.leader, line[0], Ai.Bot) == card
    && v == LineWorth(target, view, line)
    && ServerGame(target).BotCanGet(view, lead, depth, v) && !ServerGame(target).BotCanGet(view, lead, depth, v + 1)
  }

  lemma BestMoveLine(target: int, view: Ai.Position, lead: Option<int>, depth: int, card: int)
    returns (line: Line, v: int)
    requires EachOnce(view, lead) && ServerGame(target).Balanced(view, lead) && ServerGame(target).Stake(view, depth) < Ai.INT_MAX
    requires depth > 0 && view.bot != [] && ServerGame(target).BotToMove(view, lead)
    requires card == ServerGame(target).Plain(view, lead, depth).bestMove
    ensures BestFor(target, view, lead, depth, card, line, v)
  {
    line, v := BestLine(target, view, lead, depth);
  }

  /**
   At a table for two with both teams, the card a bot plays on its turn is its first one in a line of
   legal play from the table as it is, and the worth `v` of that line is the most the bot can force.
   */
  lemma BotPlaysALine(m: Match) returns (line: Line, v: int)
    requires Shape(m) && InTrick(m) && m.playerMode == SOLO && m.seats[0].team != m.seats[1].team && BotInRange(m)
    ensures m.seats[m.turn].cards != []
    ensures BestFor(m.BotGame().pointToWin, m.BotView(m.turn), m.BotLead(), m.seats[m.turn].depth, m.BotCard(m.turn), line, v)
  {
    ViewIsOnce(m);
    BotIsBalanced(m);
    StakeFits(m);
    BotPlaysItsMove(m);
    assert m.BotGame() == ServerGame(m.BotGame().pointToWin);
    line, v := BestMoveLine(m.BotGame().pointToWin, m.BotView(m.turn), m.BotLead(), m.seats[m.turn].depth, m.BotCard(m.turn));
  }
}
