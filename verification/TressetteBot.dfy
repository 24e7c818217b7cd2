/**
 The search bot of the Tressette server: a depth-limited minimax over a two-hand position,
 with a draw rule and a memo table keyed on the whole state.

 `Game.Plain` is the search without the memo, loops turned into prefix folds; `Solver.SolveState`
 is the search as the server runs it. `Game.BotCanGet` says what the search is for without
 mentioning sentinels, folds or the memo: the bot has a strategy worth at least `v`.
 */
module TressetteBot {
  import opened Options
  import opened CardLists

  const NO_CARD := -1
  const LAST_TRICK_BONUS := 3
  const INT_MIN := -0x8000_0000
  const INT_MAX := 0x7fff_ffff

  datatype Leader = Bot | Player

  datatype Rules = Rules(suit: int -> int, score: int -> int, stronger: (int, int) -> int)

  datatype SearchResult = SearchResult(eval: int, botScore: int, playerScore: int, bestMove: int)

  datatype Position = Position(
    leader: Leader, botScore: int, playerScore: int,
    bot: seq<int>, player: seq<int>, nextBot: seq<int>, nextPlayer: seq<int>)

  datatype StateKey = StateKey(position: Position, leadingCard: int, depth: int)

  /** How a trick ends: who leads next and both scores. */
  datatype TrickEnd = TrickEnd(leader: Leader, botScore: int, playerScore: int)

  /** The start of a maximising, respectively minimising, loop. */
  const WORST_FOR_BOT := SearchResult(INT_MIN, INT_MIN, INT_MAX, NO_CARD)
  const BEST_FOR_BOT := SearchResult(INT_MAX, INT_MAX, INT_MIN, NO_CARD)

  /** Integer division by two as the server's language has it: toward zero. */
  function HalfTowardZero(x: int): (h: int)
    ensures 0 <= x ==> 2 * h <= x < 2 * h + 2
    ensures x < 0 ==> 2 * h - 2 < x <= 2 * h
  {
    if 0 <= x then x / 2 else -((-x) / 2)
  }

  /** Both sides draw the head of their pile, or nobody draws. */
  method DrawNextCards(bot: seq<int>, player: seq<int>, nextBot: seq<int>, nextPlayer: seq<int>)
    returns (bot': seq<int>, player': seq<int>, nextBot': seq<int>, nextPlayer': seq<int>)
    ensures nextBot == [] || nextPlayer == [] ==>
              bot' == bot && player' == player && nextBot' == nextBot && nextPlayer' == nextPlayer
    ensures nextBot != [] && nextPlayer != [] ==>
              && bot' == bot + [nextBot[0]] && nextBot == [nextBot[0]] + nextBot'
              && player' == player + [nextPlayer[0]] && nextPlayer == [nextPlayer[0]] + nextPlayer'
  {
    bot', player', nextBot', nextPlayer' := bot, player, nextBot, nextPlayer;
    if nextBot == [] || nextPlayer == [] {
      return;
    }
    bot', player' := bot' + [nextBot'[0]], player' + [nextPlayer'[0]];
    nextBot', nextPlayer' := nextBot'[1..], nextPlayer'[1..];
  }

  datatype Game = Game(rules: Rules, pointToWin: int) {

    function Suit(card: int): int {
      rules.suit(card)
    }

    function Score(card: int): int {
      rules.score(card)
    }

    function Stronger(first: int, second: int): int {
      rules.stronger(first, second)
    }

    // ----- the search without the memo -----

    function SumScore(cards: seq<int>): int {
      if cards == [] then 0 else SumScore(cards[..|cards| - 1]) + Score(cards[|cards| - 1])
    }

    function Heuristic(pos: Position): int {
      pos.botScore - pos.playerScore + HalfTowardZero(SumScore(pos.bot) - SumScore(pos.player))
    }

    function OfSuit(cards: seq<int>, suit: int): seq<int> {
      if cards == [] then []
      else
        OfSuit(cards[..|cards| - 1], suit) +
        if Suit(cards[|cards| - 1]) == suit then [cards[|cards| - 1]] else []
    }

    function Responses(cards: seq<int>, leadSuit: int): seq<int> {
      var valid := OfSuit(cards, leadSuit);
      if valid == [] then cards else valid
    }

    predicate BotTakes(leader: Leader, botCard: int, playerCard: int) {
      if Suit(botCard) != Suit(playerCard) then leader.Bot?
      else if leader.Bot? then Stronger(botCard, playerCard) == botCard
      else Stronger(playerCard, botCard) == botCard
    }

    function Settle(pos: Position, botCard: int, playerCard: int): TrickEnd {
      var points := Score(botCard) + Score(playerCard);
      if BotTakes(pos.leader, botCard, playerCard)
      then TrickEnd(Bot, pos.botScore + points, pos.playerScore)
      else TrickEnd(Player, pos.botScore, pos.playerScore + points)
    }

    predicate Decided(end: TrickEnd) {
      end.botScore >= pointToWin || end.playerScore >= pointToWin
    }

    /** The result of a decided trick; only the very last pair of cards carries the bonus. */
    function Leaf(pos: Position, end: TrickEnd): SearchResult {
      var bonus := if |pos.bot| == 1 && |pos.player| == 1 then LAST_TRICK_BONUS else 0;
      var botScore := if end.leader.Bot? then end.botScore + bonus else end.botScore;
      var playerScore := if end.leader.Bot? then end.playerScore else end.playerScore + bonus;
      SearchResult(botScore - playerScore, botScore, playerScore, NO_CARD)
    }

    function Next(pos: Position, botCard: int, playerCard: int): Position {
      var end := Settle(pos, botCard, playerCard);
      var bot := Without(pos.bot, botCard);
      var player := Without(pos.player, playerCard);
      if pos.nextBot == [] || pos.nextPlayer == []
      then Position(end.leader, end.botScore, end.playerScore, bot, player, pos.nextBot, pos.nextPlayer)
      else Position(end.leader, end.botScore, end.playerScore,
                    bot + [pos.nextBot[0]], player + [pos.nextPlayer[0]], pos.nextBot[1..], pos.nextPlayer[1..])
    }

    /** The card the player may answer `botCard` with, in hand order. */
    function Replies(pos: Position, botCard: int): seq<int> {
      Responses(pos.player, Suit(botCard))
    }

    /** The cards the bot may play, in hand order. */
    function Moves(pos: Position, lead: Option<int>): seq<int>
      requires BotToMove(pos, lead)
    {
      if pos.leader.Bot? then pos.bot else Responses(pos.bot, Suit(lead.value))
    }

    /** False only while the player leads and has not chosen its card. */
    predicate BotToMove(pos: Position, lead: Option<int>) {
      pos.leader.Bot? || lead.Some?
    }

    function Stage(pos: Position, lead: Option<int>): nat {
      if BotToMove(pos, lead) then 0 else 1
    }

    function Plain(pos: Position, lead: Option<int>, depth: int): SearchResult
      decreases depth, Stage(pos, lead), 4, 0
    {
      if pos.bot == [] && pos.player == [] then
        SearchResult(pos.botScore - pos.playerScore, pos.botScore, pos.playerScore, NO_CARD)
      else if depth <= 0 then
        SearchResult(Heuristic(pos), pos.botScore, pos.playerScore, NO_CARD)
      else if BotToMove(pos, lead) then Best(pos, lead, |Moves(pos, lead)|, depth)
      else WorstLead(pos, |pos.player|, depth)
    }

    function AfterTrick(pos: Position, botCard: int, playerCard: int, depth: int): SearchResult
      requires depth > 0
      decreases depth, 0, 0, 0
    {
      var end := Settle(pos, botCard, playerCard);
      if Decided(end) then Leaf(pos, end) else Plain(Next(pos, botCard, playerCard), None, depth - 1)
    }

    /** The player's best answer to the bot's lead `botCard` among its first `n` replies. */
    function WorstReply(pos: Position, botCard: int, n: nat, depth: int): SearchResult
      requires depth > 0 && n <= |Replies(pos, botCard)|
      decreases depth, 0, 1, n
    {
      if n == 0 then BEST_FOR_BOT
      else
        var sofar := WorstReply(pos, botCard, n - 1, depth);
        var child := AfterTrick(pos, botCard, Replies(pos, botCard)[n - 1], depth);
        if child.eval < sofar.eval then child else sofar
    }

    /** What the bot gets by playing `botCard`. */
    function MoveResult(pos: Position, lead: Option<int>, botCard: int, depth: int): SearchResult
      requires depth > 0 && BotToMove(pos, lead)
      decreases depth, 0, 2, 0
    {
      if pos.leader.Bot? then WorstReply(pos, botCard, |Replies(pos, botCard)|, depth)
      else AfterTrick(pos, botCard, lead.value, depth)
    }

    /** The bot's best result among its first `n` moves. */
    function Best(pos: Position, lead: Option<int>, n: nat, depth: int): SearchResult
      requires depth > 0 && BotToMove(pos, lead) && n <= |Moves(pos, lead)|
      decreases depth, 0, 3, n
    {
      if n == 0 then WORST_FOR_BOT
      else
        var sofar := Best(pos, lead, n - 1, depth);
        var child := MoveResult(pos, lead, Moves(pos, lead)[n - 1], depth);
        if child.eval > sofar.eval then child.(bestMove := Moves(pos, lead)[n - 1]) else sofar
    }

    /** The player leads: its best card among the first `n`. */
    function WorstLead(pos: Position, n: nat, depth: int): SearchResult
      requires depth > 0 && n <= |pos.player| && pos.leader.Player?
      decreases depth, 1, 3, n
    {
      if n == 0 then BEST_FOR_BOT
      else
        var sofar := WorstLead(pos, n - 1, depth);
        var child := Plain(pos, Some(pos.player[n - 1]), depth);
        if child.eval < sofar.eval then child else sofar
    }

    // ----- what the search is for -----

    ghost predicate LegalReply(cards: seq<int>, leadSuit: int, card: int) {
      card in cards && (Suit(card) == leadSuit || forall c :: c in cards ==> Suit(c) != leadSuit)
    }

    /** Within `depth` more tricks the bot can force an outcome worth at least `v`. */
    ghost predicate BotCanGet(pos: Position, lead: Option<int>, depth: int, v: int)
      decreases depth, Stage(pos, lead), 2
    {
      if pos.bot == [] && pos.player == [] then v <= pos.botScore - pos.playerScore
      else if depth <= 0 then v <= Heuristic(pos)
      else if BotToMove(pos, lead) then
        exists b :: LegalMove(pos, lead, b) && CardGets(pos, lead, b, depth, v)
      else
        AllLeadsGet(pos, pos.player, depth, v)
    }

    /** Whichever of `cards` the player leads, the bot can force at least `v`. */
    ghost predicate AllLeadsGet(pos: Position, cards: seq<int>, depth: int, v: int)
      requires depth > 0
      decreases depth, 1, 1
    {
      forall p :: p in cards ==> BotCanGet(pos, Some(p), depth, v)
    }

    lemma AllLeadsGetSplit(pos: Position, cards: seq<int>, card: int, depth: int, v: int)
      requires depth > 0
      ensures AllLeadsGet(pos, cards + [card], depth, v) <==>
              AllLeadsGet(pos, cards, depth, v) && BotCanGet(pos, Some(card), depth, v)
    {
      assert card in cards + [card];
    }

    ghost predicate LegalMove(pos: Position, lead: Option<int>, botCard: int)
      requires BotToMove(pos, lead)
    {
      if pos.leader.Bot? then botCard in pos.bot else LegalReply(pos.bot, Suit(lead.value), botCard)
    }

    /** Playing `botCard` now forces at least `v`, whatever the player answers. */
    ghost predicate CardGets(pos: Position, lead: Option<int>, botCard: int, depth: int, v: int)
      requires depth > 0 && BotToMove(pos, lead)
      decreases depth, 0, 1
    {
      if pos.leader.Bot? then
        forall p :: LegalReply(pos.player, Suit(botCard), p) ==> TrickGets(pos, botCard, p, depth, v)
      else
        TrickGets(pos, botCard, lead.value, depth, v)
    }

    ghost predicate TrickGets(pos: Position, botCard: int, playerCard: int, depth: int, v: int)
      requires depth > 0
      decreases depth, 0, 0
    {
      var end := Settle(pos, botCard, playerCard);
      if Decided(end) then v <= Leaf(pos, end).eval
      else BotCanGet(Next(pos, botCard, playerCard), None, depth - 1, v)
    }

    // ----- the search computes the game value -----

    lemma {:induction false} OfSuitMembers(cards: seq<int>, suit: int, card: int)
      ensures card in OfSuit(cards, suit) <==> card in cards && Suit(card) == suit
    {
      if cards != [] {
        OfSuitMembers(cards[..|cards| - 1], suit, card);
        assert cards == cards[..|cards| - 1] + [cards[|cards| - 1]];
      }
    }

    /** `build_valid_responses` returns exactly the cards the follow-suit rule allows. */
    lemma ResponsesAreLegal(cards: seq<int>, leadSuit: int)
      ensures forall c :: c in Responses(cards, leadSuit) <==> LegalReply(cards, leadSuit, c)
      ensures Responses(cards, leadSuit) == [] <==> cards == []
    {
      forall c ensures c in OfSuit(cards, leadSuit) <==> c in cards && Suit(c) == leadSuit {
        OfSuitMembers(cards, leadSuit, c);
      }
      var valid := OfSuit(cards, leadSuit);
      if valid != [] {
        OfSuitMembers(cards, leadSuit, valid[0]);
      } else {
        forall c | c in cards ensures Suit(c) != leadSuit {
          assert c !in valid;
        }
      }
    }

    /** `Moves` lists exactly the legal moves. */
    lemma MovesAreLegal(pos: Position, lead: Option<int>)
      requires BotToMove(pos, lead)
      ensures forall b :: b in Moves(pos, lead) <==> LegalMove(pos, lead, b)
      ensures Moves(pos, lead) == [] <==> pos.bot == []
      ensures forall b :: b in Moves(pos, lead) ==> b in pos.bot
    {
      if pos.leader.Player? { ResponsesAreLegal(pos.bot, Suit(lead.value)); }
    }

    /** The search value is exactly the supremum of what the bot can force. */
    lemma {:induction false} SearchIsGameValue(pos: Position, lead: Option<int>, depth: int, v: int)
      requires INT_MIN < v <= INT_MAX
      ensures BotCanGet(pos, lead, depth, v) <==> v <= Plain(pos, lead, depth).eval
      decreases depth, Stage(pos, lead), 4, 0
    {
      if (pos.bot == [] && pos.player == []) || depth <= 0 {
      } else if BotToMove(pos, lead) {
        var moves := Moves(pos, lead);
        MovesAreLegal(pos, lead);
        BestIsMax(pos, lead, |moves|, depth, v);
        assert moves[..|moves|] == moves;
      } else {
        WorstLeadIsMin(pos, |pos.player|, depth, v);
        assert pos.player[..|pos.player|] == pos.player;
      }
    }

    lemma {:induction false} TrickValue(pos: Position, botCard: int, playerCard: int, depth: int, v: int)
      requires depth > 0 && INT_MIN < v <= INT_MAX
      ensures TrickGets(pos, botCard, playerCard, depth, v) <==> v <= AfterTrick(pos, botCard, playerCard, depth).eval
      decreases depth, 0, 0, 0
    {
      if !Decided(Settle(pos, botCard, playerCard)) {
        SearchIsGameValue(Next(pos, botCard, playerCard), None, depth - 1, v);
      }
    }

    lemma {:induction false} WorstReplyIsMin(pos: Position, botCard: int, n: nat, depth: int, v: int)
      requires depth > 0 && n <= |Replies(pos, botCard)| && INT_MIN < v <= INT_MAX
      ensures v <= WorstReply(pos, botCard, n, depth).eval <==>
              forall p :: p in Replies(pos, botCard)[..n] ==> TrickGets(pos, botCard, p, depth, v)
      decreases depth, 0, 1, n
    {
      var replies := Replies(pos, botCard);
      if n > 0 {
        WorstReplyIsMin(pos, botCard, n - 1, depth, v);
        TrickValue(pos, botCard, replies[n - 1], depth, v);
        assert replies[..n] == replies[..n - 1] + [replies[n - 1]];
      }
    }

    lemma {:induction false} MoveValue(pos: Position, lead: Option<int>, botCard: int, depth: int, v: int)
      requires depth > 0 && INT_MIN < v <= INT_MAX && BotToMove(pos, lead)
      ensures CardGets(pos, lead, botCard, depth, v) <==> v <= MoveResult(pos, lead, botCard, depth).eval
      decreases depth, 0, 2, 0
    {
      if pos.leader.Bot? {
        var replies := Replies(pos, botCard);
        WorstReplyIsMin(pos, botCard, |replies|, depth, v);
        assert replies[..|replies|] == replies;
        ResponsesAreLegal(pos.player, Suit(botCard));
      } else {
        TrickValue(pos, botCard, lead.value, depth, v);
      }
    }

    lemma {:induction false} BestIsMax(pos: Position, lead: Option<int>, n: nat, depth: int, v: int)
      requires depth > 0 && BotToMove(pos, lead) && n <= |Moves(pos, lead)| && INT_MIN < v <= INT_MAX
      ensures v <= Best(pos, lead, n, depth).eval <==>
              exists b :: b in Moves(pos, lead)[..n] && CardGets(pos, lead, b, depth, v)
      decreases depth, 0, 3, n
    {
      var moves := Moves(pos, lead);
      if n > 0 {
        BestIsMax(pos, lead, n - 1, depth, v);
        MoveValue(pos, lead, moves[n - 1], depth, v);
        assert moves[..n] == moves[..n - 1] + [moves[n - 1]];
      }
    }

    lemma {:induction false} WorstLeadIsMin(pos: Position, n: nat, depth: int, v: int)
      requires depth > 0 && n <= |pos.player| && INT_MIN < v <= INT_MAX && pos.leader.Player?
      ensures v <= WorstLead(pos, n, depth).eval <==>
              AllLeadsGet(pos, pos.player[..n], depth, v)
      decreases depth, 1, 3, n
    {
      if n > 0 {
        var card := pos.player[n - 1];
        WorstLeadIsMin(pos, n - 1, depth, v);
        SearchIsGameValue(pos, Some(card), depth, v);
        assert pos.player[..n] == pos.player[..n - 1] + [card];
        AllLeadsGetSplit(pos, pos.player[..n - 1], card, depth, v);
        WorstLeadStep(pos, n, depth);
      }
    }

    lemma WorstLeadStep(pos: Position, n: nat, depth: int)
      requires depth > 0 && 0 < n <= |pos.player| && pos.leader.Player?
      ensures var sofar, child := WorstLead(pos, n - 1, depth).eval, Plain(pos, Some(pos.player[n - 1]), depth).eval;
              WorstLead(pos, n, depth).eval == if child < sofar then child else sofar
    {
    }

    // ----- the chosen card -----

    /** Index `i` holds the first of the moves that forces the search value, and none forces more. */
    ghost predicate FirstOptimal(pos: Position, lead: Option<int>, depth: int, i: nat)
      requires depth > 0 && BotToMove(pos, lead)
    {
      var moves := Moves(pos, lead);
      var best := Plain(pos, lead, depth).eval;
      && i < |moves|
      && CardGets(pos, lead, moves[i], depth, best)
      && (forall j :: 0 <= j < i ==> !CardGets(pos, lead, moves[j], depth, best))
      && (forall j, v :: 0 <= j < |moves| && best < v <= INT_MAX ==> !CardGets(pos, lead, moves[j], depth, v))
    }

    /** The returned move is the first one attaining the game value. */
    lemma BestMoveIsFirstOptimal(pos: Position, lead: Option<int>, depth: int) returns (i: nat)
      requires depth > 0 && BotToMove(pos, lead) && pos.bot != []
      requires INT_MIN < Plain(pos, lead, depth).eval <= INT_MAX
      ensures FirstOptimal(pos, lead, depth, i)
      ensures Plain(pos, lead, depth).bestMove == Moves(pos, lead)[i]
    {
      var moves := Moves(pos, lead);
      i := FirstBest(pos, lead, |moves|, depth);
      forall j, v | 0 <= j < |moves| && INT_MIN < v <= INT_MAX
        ensures CardGets(pos, lead, moves[j], depth, v) <==> v <= MoveResult(pos, lead, moves[j], depth).eval
      {
        MoveValue(pos, lead, moves[j], depth, v);
      }
    }

    lemma {:induction false} BestDominates(pos: Position, lead: Option<int>, n: nat, i: nat, depth: int)
      requires depth > 0 && BotToMove(pos, lead) && i < n <= |Moves(pos, lead)|
      ensures MoveResult(pos, lead, Moves(pos, lead)[i], depth).eval <= Best(pos, lead, n, depth).eval
    {
      if i < n - 1 { BestDominates(pos, lead, n - 1, i, depth); }
    }

    lemma LastBeatsAll(pos: Position, lead: Option<int>, n: nat, depth: int)
      requires depth > 0 && BotToMove(pos, lead) && 0 < n <= |Moves(pos, lead)|
      requires MoveResult(pos, lead, Moves(pos, lead)[n - 1], depth).eval > Best(pos, lead, n - 1, depth).eval
      ensures forall j :: 0 <= j < n - 1 ==>
                MoveResult(pos, lead, Moves(pos, lead)[j], depth).eval < MoveResult(pos, lead, Moves(pos, lead)[n - 1], depth).eval
    {
      forall j | 0 <= j < n - 1
        ensures MoveResult(pos, lead, Moves(pos, lead)[j], depth).eval <= Best(pos, lead, n - 1, depth).eval
      {
        BestDominates(pos, lead, n - 1, j, depth);
      }
    }

    lemma {:induction false} FirstBest(pos: Position, lead: Option<int>, n: nat, depth: int) returns (i: nat)
      requires depth > 0 && BotToMove(pos, lead) && n <= |Moves(pos, lead)|
      requires INT_MIN < Best(pos, lead, n, depth).eval
      ensures i < n && Best(pos, lead, n, depth).bestMove == Moves(pos, lead)[i]
      ensures MoveResult(pos, lead, Moves(pos, lead)[i], depth).eval == Best(pos, lead, n, depth).eval
      ensures forall j :: 0 <= j < i ==>
                MoveResult(pos, lead, Moves(pos, lead)[j], depth).eval < Best(pos, lead, n, depth).eval
      ensures forall j :: i <= j < n ==>
                MoveResult(pos, lead, Moves(pos, lead)[j], depth).eval <= Best(pos, lead, n, depth).eval
    {
      if MoveResult(pos, lead, Moves(pos, lead)[n - 1], depth).eval > Best(pos, lead, n - 1, depth).eval {
        i := n - 1;
        LastBeatsAll(pos, lead, n, depth);
      } else {
        i := FirstBest(pos, lead, n - 1, depth);
      }
    }

    // ----- no sentinel escapes -----

    /** A card is worth at most three thirds of a point, as in the Tressette value table. */
    ghost predicate SmallScores() {
      forall c :: 0 <= Score(c) <= 3
    }

    /** The player's hand without the card already led. */
    function PlayerLeft(pos: Position, lead: Option<int>): seq<int> {
      if lead.None? then pos.player else Without(pos.player, lead.value)
    }

    /** The bot has a card for each card the player can still play. */
    predicate Enough(pos: Position, lead: Option<int>) {
      && (pos.leader.Bot? ==> lead.None?)
      && |PlayerLeft(pos, lead)| + (if lead.None? then 0 else 1) <= |pos.bot|
    }

    /** The bot's hand is the player's hand less the lead, plus one. */
    predicate Balanced(pos: Position, lead: Option<int>) {
      && (pos.leader.Bot? ==> lead.None?)
      && |PlayerLeft(pos, lead)| + (if lead.None? then 0 else 1) == |pos.bot|
    }

    /** The bot does not run out of cards within `depth` tricks before the player does. */
    predicate Supplied(pos: Position, lead: Option<int>, depth: int) {
      && (pos.leader.Bot? ==> lead.None?)
      && (Enough(pos, lead) || (depth <= |pos.bot| && pos.nextPlayer == []))
    }

    function LongerHand(pos: Position): nat {
      if |pos.bot| < |pos.player| then |pos.player| else |pos.bot|
    }

    /** An outcome can differ from zero by no more than this. */
    function Stake(pos: Position, depth: int): int {
      var gap := pos.botScore - pos.playerScore;
      (if gap < 0 then -gap else gap) + (if depth < 0 then 0 else 6 * depth)
      + 3 * LongerHand(pos) + LAST_TRICK_BONUS
    }

    lemma {:induction false} SumScoreBounds(cards: seq<int>)
      requires SmallScores()
      ensures 0 <= SumScore(cards) <= 3 * |cards|
    {
      if cards != [] {
        SumScoreBounds(cards[..|cards| - 1]);
        assert 0 <= Score(cards[|cards| - 1]) <= 3;
      }
    }

    /** The pair of cards is one the search tries at this position. */
    predicate Tried(pos: Position, lead: Option<int>, botCard: int, playerCard: int) {
      && BotToMove(pos, lead) && botCard in pos.bot
      && if pos.leader.Bot? then playerCard in pos.player else playerCard == lead.value
    }

    /** Every recursive call keeps the balance of the hands. */
    lemma TrickKeepsBalance(pos: Position, lead: Option<int>, b: int, p: int)
      requires Tried(pos, lead, b, p) && (pos.leader.Bot? ==> lead.None?)
      ensures Balanced(pos, lead) ==> Balanced(Next(pos, b, p), None)
      ensures Enough(pos, lead) ==> Enough(Next(pos, b, p), None)
      ensures forall depth :: Supplied(pos, lead, depth) ==> Supplied(Next(pos, b, p), None, depth - 1)
    {
      var drawn := if pos.nextBot == [] || pos.nextPlayer == [] then 0 else 1;
      assert |Next(pos, b, p).bot| == |pos.bot| - 1 + drawn;
      assert |Next(pos, b, p).player| == |Without(pos.player, p)| + drawn;
    }

    /** A trick spends at least the stake it risks, and a decided one is worth no more. */
    lemma TrickWithinStake(pos: Position, lead: Option<int>, b: int, p: int, depth: int)
      requires SmallScores() && depth > 0 && Supplied(pos, lead, depth) && Tried(pos, lead, b, p)
      ensures Stake(Next(pos, b, p), depth - 1) <= Stake(pos, depth)
      ensures -Stake(pos, depth) <= Leaf(pos, Settle(pos, b, p)).eval <= Stake(pos, depth)
    {
      var end := Settle(pos, b, p);
      assert 0 <= Score(b) <= 3 && 0 <= Score(p) <= 3;
      assert -6 <= (end.botScore - end.playerScore) - (pos.botScore - pos.playerScore) <= 6;
      NextHandSize(pos, lead, b, p, depth);
    }

    lemma NextHandSize(pos: Position, lead: Option<int>, b: int, p: int, depth: int)
      requires Supplied(pos, lead, depth) && Tried(pos, lead, b, p)
      ensures LongerHand(Next(pos, b, p)) <= LongerHand(pos)
      ensures Next(pos, b, p).botScore == Settle(pos, b, p).botScore
      ensures Next(pos, b, p).playerScore == Settle(pos, b, p).playerScore
    {
    }

    lemma {:induction false} EvalAbove(pos: Position, lead: Option<int>, depth: int)
      requires SmallScores() && Supplied(pos, lead, depth) && Stake(pos, depth) < INT_MAX
      ensures -Stake(pos, depth) <= Plain(pos, lead, depth).eval
      decreases depth, Stage(pos, lead), 3, 0
    {
      SumScoreBounds(pos.bot);
      SumScoreBounds(pos.player);
      if (pos.bot == [] && pos.player == []) || depth <= 0 {
      } else if BotToMove(pos, lead) {
        MovesAreLegal(pos, lead);
        var b := Moves(pos, lead)[0];
        assert b in Moves(pos, lead);
        if pos.leader.Bot? {
          WorstRepliesAbove(pos, b, |Replies(pos, b)|, depth);
        } else {
          TrickAbove(pos, lead, b, lead.value, depth);
        }
        BestDominates(pos, lead, |Moves(pos, lead)|, 0, depth);
      } else {
        WorstLeadsAbove(pos, |pos.player|, depth);
      }
    }

    lemma {:induction false} TrickAbove(pos: Position, lead: Option<int>, b: int, p: int, depth: int)
      requires SmallScores() && Supplied(pos, lead, depth) && Stake(pos, depth) < INT_MAX && depth > 0 && Tried(pos, lead, b, p)
      ensures -Stake(pos, depth) <= AfterTrick(pos, b, p, depth).eval
      decreases depth, 0, 0, 0
    {
      TrickKeepsBalance(pos, lead, b, p);
      TrickWithinStake(pos, lead, b, p, depth);
      if !Decided(Settle(pos, b, p)) {
        EvalAbove(Next(pos, b, p), None, depth - 1);
      }
    }

    lemma {:induction false} WorstRepliesAbove(pos: Position, b: int, n: nat, depth: int)
      requires SmallScores() && Supplied(pos, None, depth) && Stake(pos, depth) < INT_MAX && depth > 0
      requires pos.leader.Bot? && b in pos.bot && n <= |Replies(pos, b)|
      ensures -Stake(pos, depth) <= WorstReply(pos, b, n, depth).eval
      decreases depth, 0, 1, n
    {
      if n > 0 {
        WorstRepliesAbove(pos, b, n - 1, depth);
        ResponsesAreLegal(pos.player, Suit(b));
        assert Replies(pos, b)[n - 1] in Replies(pos, b);
        TrickAbove(pos, None, b, Replies(pos, b)[n - 1], depth);
      }
    }

    lemma {:induction false} WorstLeadsAbove(pos: Position, n: nat, depth: int)
      requires SmallScores() && Supplied(pos, None, depth) && Stake(pos, depth) < INT_MAX && depth > 0
      requires pos.leader.Player? && n <= |pos.player|
      ensures -Stake(pos, depth) <= WorstLead(pos, n, depth).eval
      decreases depth, 1, 2, n
    {
      if n > 0 {
        WorstLeadsAbove(pos, n - 1, depth);
        EvalAbove(pos, Some(pos.player[n - 1]), depth);
      }
    }

    lemma {:induction false} EvalBelow(pos: Position, lead: Option<int>, depth: int)
      requires SmallScores() && Balanced(pos, lead)
      ensures Plain(pos, lead, depth).eval <= Stake(pos, depth)
      decreases depth, Stage(pos, lead), 3, 0
    {
      SumScoreBounds(pos.bot);
      SumScoreBounds(pos.player);
      if (pos.bot == [] && pos.player == []) || depth <= 0 {
      } else if BotToMove(pos, lead) {
        BestBelow(pos, lead, |Moves(pos, lead)|, depth);
      } else {
        EvalBelow(pos, Some(pos.player[0]), depth);
        WorstLeadBounded(pos, |pos.player|, depth);
      }
    }

    lemma {:induction false} BestBelow(pos: Position, lead: Option<int>, n: nat, depth: int)
      requires SmallScores() && Balanced(pos, lead) && depth > 0 && BotToMove(pos, lead) && n <= |Moves(pos, lead)|
      ensures Best(pos, lead, n, depth).eval <= Stake(pos, depth)
      decreases depth, 0, 2, n
    {
      if n > 0 {
        BestBelow(pos, lead, n - 1, depth);
        MovesAreLegal(pos, lead);
        var b := Moves(pos, lead)[n - 1];
        assert b in Moves(pos, lead);
        if pos.leader.Bot? {
          ResponsesAreLegal(pos.player, Suit(b));
          assert Replies(pos, b)[0] in Replies(pos, b);
          TrickBelow(pos, lead, b, Replies(pos, b)[0], depth);
          WorstReplyBounded(pos, b, |Replies(pos, b)|, depth);
        } else {
          TrickBelow(pos, lead, b, lead.value, depth);
        }
      }
    }

    lemma {:induction false} TrickBelow(pos: Position, lead: Option<int>, b: int, p: int, depth: int)
      requires SmallScores() && Balanced(pos, lead) && depth > 0 && Tried(pos, lead, b, p)
      ensures AfterTrick(pos, b, p, depth).eval <= Stake(pos, depth)
      decreases depth, 0, 0, 0
    {
      TrickKeepsBalance(pos, lead, b, p);
      TrickWithinStake(pos, lead, b, p, depth);
      if !Decided(Settle(pos, b, p)) {
        EvalBelow(Next(pos, b, p), None, depth - 1);
      }
    }

    lemma {:induction false} WorstReplyBounded(pos: Position, b: int, n: nat, depth: int)
      requires depth > 0 && 0 < n <= |Replies(pos, b)|
      ensures WorstReply(pos, b, n, depth).eval <= AfterTrick(pos, b, Replies(pos, b)[0], depth).eval
    {
      if n > 1 { WorstReplyBounded(pos, b, n - 1, depth); }
    }

    lemma {:induction false} WorstLeadBounded(pos: Position, n: nat, depth: int)
      requires depth > 0 && 0 < n <= |pos.player| && pos.leader.Player?
      ensures WorstLead(pos, n, depth).eval <= Plain(pos, Some(pos.player[0]), depth).eval
    {
      if n > 1 { WorstLeadBounded(pos, n - 1, depth); }
    }

    /** From a balanced position with bounded scores the search value is the game value outright. */
    lemma BalancedSearchIsGameValue(pos: Position, lead: Option<int>, depth: int)
      requires SmallScores() && Balanced(pos, lead) && Stake(pos, depth) < INT_MAX
      ensures INT_MIN < Plain(pos, lead, depth).eval < INT_MAX
      ensures BotCanGet(pos, lead, depth, Plain(pos, lead, depth).eval)
      ensures !BotCanGet(pos, lead, depth, Plain(pos, lead, depth).eval + 1)
    {
      EvalAbove(pos, lead, depth);
      EvalBelow(pos, lead, depth);
      SearchIsGameValue(pos, lead, depth, Plain(pos, lead, depth).eval);
      SearchIsGameValue(pos, lead, depth, Plain(pos, lead, depth).eval + 1);
    }

    /** A move the search returns is legal; it returns none when every move loses to the sentinel. */
    lemma BestMoveIsLegal(pos: Position, lead: Option<int>, depth: int)
      requires BotToMove(pos, lead)
      ensures var move := Plain(pos, lead, depth).bestMove;
              move == NO_CARD || (move in pos.bot && LegalMove(pos, lead, move))
    {
      if (pos.bot == [] && pos.player == []) || depth <= 0 {
      } else {
        MovesAreLegal(pos, lead);
        if INT_MIN < Plain(pos, lead, depth).eval {
          var i := FirstBest(pos, lead, |Moves(pos, lead)|, depth);
          assert Moves(pos, lead)[i] in Moves(pos, lead);
        } else {
          NoMoveTaken(pos, lead, |Moves(pos, lead)|, depth);
        }
      }
    }

    lemma {:induction false} NoMoveTaken(pos: Position, lead: Option<int>, n: nat, depth: int)
      requires depth > 0 && BotToMove(pos, lead) && n <= |Moves(pos, lead)|
      requires Best(pos, lead, n, depth).eval <= INT_MIN
      ensures Best(pos, lead, n, depth) == WORST_FOR_BOT
    {
      if n > 0 {
        NeverBelowStart(pos, lead, n - 1, depth);
        NoMoveTaken(pos, lead, n - 1, depth);
      }
    }

    lemma {:induction false} NeverBelowStart(pos: Position, lead: Option<int>, n: nat, depth: int)
      requires depth > 0 && BotToMove(pos, lead) && n <= |Moves(pos, lead)|
      ensures INT_MIN <= Best(pos, lead, n, depth).eval
    {
      if n > 0 { NeverBelowStart(pos, lead, n - 1, depth); }
    }

    /** Unless the bot runs out of cards within the depth, a card is chosen, and it is a legal one of its own. */
    lemma ChosenCardIsLegal(pos: Position, lead: Option<int>, depth: int)
      requires SmallScores() && Supplied(pos, lead, depth) && Stake(pos, depth) < INT_MAX
      requires depth > 0 && pos.bot != [] && BotToMove(pos, lead)
      ensures Plain(pos, lead, depth).bestMove in pos.bot
      ensures LegalMove(pos, lead, Plain(pos, lead, depth).bestMove)
    {
      EvalAbove(pos, lead, depth);
      MovesAreLegal(pos, lead);
      var i := FirstBest(pos, lead, |Moves(pos, lead)|, depth);
      assert Moves(pos, lead)[i] in Moves(pos, lead);
    }

    // ----- loops of the server -----

    method BuildValidResponses(cards: seq<int>, leadSuit: int) returns (valid: seq<int>)
      ensures valid == Responses(cards, leadSuit)
    {
      valid := [];
      for i := 0 to |cards|
        invariant valid == OfSuit(cards[..i], leadSuit)
      {
        assert cards[..i + 1][..i] == cards[..i];
        if Suit(cards[i]) == leadSuit {
          valid := valid + [cards[i]];
        } else {
          assert OfSuit(cards[..i + 1], leadSuit) == OfSuit(cards[..i], leadSuit) + [];
        }
      }
      assert cards[..|cards|] == cards;
      if valid == [] {
        valid := cards;
      }
    }

    method EvaluateHeuristic(pos: Position) returns (eval: int)
      ensures eval == Heuristic(pos)
    {
      var botPotential, playerPotential := 0, 0;
      for i := 0 to |pos.bot|
        invariant botPotential == SumScore(pos.bot[..i])
      {
        assert pos.bot[..i + 1][..i] == pos.bot[..i];
        botPotential := botPotential + Score(pos.bot[i]);
      }
      for i := 0 to |pos.player|
        invariant playerPotential == SumScore(pos.player[..i])
      {
        assert pos.player[..i + 1][..i] == pos.player[..i];
        playerPotential := playerPotential + Score(pos.player[i]);
      }
      assert pos.bot[..|pos.bot|] == pos.bot && pos.player[..|pos.player|] == pos.player;
      eval := pos.botScore - pos.playerScore + HalfTowardZero(botPotential - playerPotential);
    }
  }

  /** No card of the player, now or later, looks like the key's "no leading card" value. */
  predicate KeySafe(pos: Position, lead: Option<int>) {
    NO_CARD !in pos.player && NO_CARD !in pos.nextPlayer && lead != Some(NO_CARD)
  }

  function KeyOf(pos: Position, lead: Option<int>, depth: int): StateKey {
    StateKey(pos, if lead.Some? then lead.value else NO_CARD, depth)
  }

  function LeadOf(key: StateKey): Option<int> {
    if key.leadingCard == NO_CARD then None else Some(key.leadingCard)
  }

  /** Every remembered result is the one the search without a memo gives for its key. */
  ghost predicate MemoAgrees(game: Game, memo: map<StateKey, SearchResult>) {
    forall key :: key in memo ==> memo[key] == game.Plain(key.position, LeadOf(key), key.depth)
  }

  lemma NextIsKeySafe(game: Game, pos: Position, botCard: int, playerCard: int)
    requires NO_CARD !in pos.player && NO_CARD !in pos.nextPlayer
    ensures KeySafe(game.Next(pos, botCard, playerCard), None)
  {
    WithoutMultiset(pos.player, playerCard);
    assert NO_CARD !in multiset(pos.player);
    assert NO_CARD !in multiset(Without(pos.player, playerCard));
  }

  /** One search, with the memo table it fills. */
  class Solver {
    const game: Game
    var memo: map<StateKey, SearchResult>

    constructor (game: Game)
      ensures this.game == game && memo == map[]
    {
      this.game := game;
      memo := map[];
    }

    /** Remember a result unless the key is already there. */
    method Emplace(key: StateKey, result: SearchResult)
      requires MemoAgrees(game, memo)
      requires result == game.Plain(key.position, LeadOf(key), key.depth)
      modifies this
      ensures MemoAgrees(game, memo)
      ensures memo == if key in old(memo) then old(memo) else old(memo)[key := result]
    {
      if key !in memo {
        memo := memo[key := result];
      }
    }

    /** With any memo that agrees with the memo-free search, the answer is the memo-free answer. */
    method SolveState(pos: Position, lead: Option<int>, depth: int) returns (r: SearchResult)
      requires MemoAgrees(game, memo) && KeySafe(pos, lead)
      modifies this
      ensures r == game.Plain(pos, lead, depth)
      ensures MemoAgrees(game, memo)
      ensures forall key :: key in old(memo) ==> key in memo
      decreases depth, game.Stage(pos, lead), 4
    {
      if pos.bot == [] && pos.player == [] {
        return SearchResult(pos.botScore - pos.playerScore, pos.botScore, pos.playerScore, NO_CARD);
      }
      if depth <= 0 {
        var eval := game.EvaluateHeuristic(pos);
        return SearchResult(eval, pos.botScore, pos.playerScore, NO_CARD);
      }
      var key := KeyOf(pos, lead, depth);
      assert LeadOf(key) == lead;
      if key in memo {
        return memo[key];
      }
      if pos.leader.Bot? {
        r := SolveBotLead(pos, lead, depth);
      } else if lead.None? {
        r := SolvePlayerLead(pos, depth);
      } else {
        r := SolveFollow(pos, lead, depth);
      }
      Emplace(key, r);
    }

    method SolveBotLead(pos: Position, lead: Option<int>, depth: int) returns (best: SearchResult)
      requires MemoAgrees(game, memo) && KeySafe(pos, lead) && depth > 0 && pos.leader.Bot?
      modifies this
      ensures best == game.Best(pos, lead, |game.Moves(pos, lead)|, depth)
      ensures MemoAgrees(game, memo)
      ensures forall key :: key in old(memo) ==> key in memo
      decreases depth, 0, 3
    {
      best := WORST_FOR_BOT;
      for i := 0 to |pos.bot|
        invariant best == game.Best(pos, lead, i, depth)
        invariant MemoAgrees(game, memo)
        invariant forall key :: key in old(memo) ==> key in memo
      {
        var worst := SolveReplies(pos, lead, pos.bot[i], depth);
        if worst.eval > best.eval {
          best := worst.(bestMove := pos.bot[i]);
        }
      }
    }

    method SolveReplies(pos: Position, lead: Option<int>, botCard: int, depth: int) returns (worst: SearchResult)
      requires MemoAgrees(game, memo) && KeySafe(pos, lead) && depth > 0 && pos.leader.Bot?
      modifies this
      ensures worst == game.MoveResult(pos, lead, botCard, depth)
      ensures MemoAgrees(game, memo)
      ensures forall key :: key in old(memo) ==> key in memo
      decreases depth, 0, 2
    {
      var replies := game.BuildValidResponses(pos.player, game.Suit(botCard));
      worst := BEST_FOR_BOT;
      for j := 0 to |replies|
        invariant worst == game.WorstReply(pos, botCard, j, depth)
        invariant MemoAgrees(game, memo)
        invariant forall key :: key in old(memo) ==> key in memo
      {
        var child := SolveTrick(pos, botCard, replies[j], depth);
        if child.eval < worst.eval {
          worst := child;
        }
      }
    }

    method SolvePlayerLead(pos: Position, depth: int) returns (worst: SearchResult)
      requires MemoAgrees(game, memo) && KeySafe(pos, None) && depth > 0 && pos.leader.Player?
      modifies this
      ensures worst == game.WorstLead(pos, |pos.player|, depth)
      ensures MemoAgrees(game, memo)
      ensures forall key :: key in old(memo) ==> key in memo
      decreases depth, 1, 2
    {
      worst := BEST_FOR_BOT;
      for i := 0 to |pos.player|
        invariant worst == game.WorstLead(pos, i, depth)
        invariant MemoAgrees(game, memo)
        invariant forall key :: key in old(memo) ==> key in memo
      {
        var child := SolveState(pos, Some(pos.player[i]), depth);
        if child.eval < worst.eval {
          worst := child;
        }
      }
    }

    method SolveFollow(pos: Position, lead: Option<int>, depth: int) returns (best: SearchResult)
      requires MemoAgrees(game, memo) && KeySafe(pos, lead) && depth > 0 && pos.leader.Player? && lead.Some?
      modifies this
      ensures best == game.Best(pos, lead, |game.Moves(pos, lead)|, depth)
      ensures MemoAgrees(game, memo)
      ensures forall key :: key in old(memo) ==> key in memo
      decreases depth, 0, 2
    {
      var moves := game.BuildValidResponses(pos.bot, game.Suit(lead.value));
      best := WORST_FOR_BOT;
      for i := 0 to |moves|
        invariant best == game.Best(pos, lead, i, depth)
        invariant MemoAgrees(game, memo)
        invariant forall key :: key in old(memo) ==> key in memo
      {
        var child := SolveTrick(pos, moves[i], lead.value, depth);
        if child.eval > best.eval {
          best := child.(bestMove := moves[i]);
        }
      }
    }

    method SolveTrick(pos: Position, botCard: int, playerCard: int, depth: int) returns (child: SearchResult)
      requires MemoAgrees(game, memo) && NO_CARD !in pos.player && NO_CARD !in pos.nextPlayer && depth > 0
      modifies this
      ensures child == game.AfterTrick(pos, botCard, playerCard, depth)
      ensures MemoAgrees(game, memo)
      ensures forall key :: key in old(memo) ==> key in memo
      decreases depth, 0, 1
    {
      var end := game.Settle(pos, botCard, playerCard);
      if game.Decided(end) {
        return game.Leaf(pos, end);
      }
      var bot := RemoveOneCard(pos.bot, botCard);
      var player := RemoveOneCard(pos.player, playerCard);
      var bot', player', nextBot, nextPlayer := DrawNextCards(bot, player, pos.nextBot, pos.nextPlayer);
      var next := Position(end.leader, end.botScore, end.playerScore, bot', player', nextBot, nextPlayer);
      assert next == game.Next(pos, botCard, playerCard);
      NextIsKeySafe(game, pos, botCard, playerCard);
      child := SolveState(next, None, depth - 1);
    }
  }

  /** The bot has cards to choose from, enough of them for the depth, and scores that fit an `int`. */
  ghost predicate SearchSound(game: Game, pos: Position, lead: Option<int>, depth: int) {
    && game.SmallScores() && game.Supplied(pos, lead, depth) && game.Stake(pos, depth) < INT_MAX
    && depth > 0 && pos.bot != [] && game.BotToMove(pos, lead)
  }

  /** `find_optimal_card`; `rules` is absent when a rule function is missing. */
  method FindOptimalCard(rules: Option<Rules>, pos: Position, pointToWin: int, lead: Option<int>, maxDepth: int)
    returns (card: int)
    requires KeySafe(pos, lead)
    ensures rules.None? ==> card == NO_CARD
    ensures rules.Some? ==> card == Game(rules.value, pointToWin).Plain(pos, lead, maxDepth).bestMove
    ensures rules.Some? && SearchSound(Game(rules.value, pointToWin), pos, lead, maxDepth) ==>
              card in pos.bot && Game(rules.value, pointToWin).LegalMove(pos, lead, card)
  {
    if rules.None? {
      return NO_CARD;
    }
    var game := Game(rules.value, pointToWin);
    var solver := new Solver(game);
    var result := solver.SolveState(pos, lead, maxDepth);
    card := result.bestMove;
    if SearchSound(game, pos, lead, maxDepth) {
      game.ChosenCardIsLegal(pos, lead, maxDepth);
    }
  }
}
