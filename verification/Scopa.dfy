/**
 The Scopa table: dealing, plays, captures, scoring, and the run of a round. Player 0 is the
 user, player 1 the program. Animations only delay steps; the one delay that changes the rules
 state, the pause before the next hand is dealt, is the `pendingDeal` stage.
 */
module Scopa {
  import opened ScopaCaptures

  const MATCH_TARGET := 11
  const NOBODY := -1

  datatype Phase = InitRound | PlayerTurn | ChooseCapture | BotTurn | RoundSummary | MatchOver

  datatype Player = Player(hand: seq<int>, captured: seq<int>, scope: nat, score: int)

  datatype Pair = Pair(first: int, second: int) {
    function Sum(): int {
      first + second
    }
  }

  datatype RoundScore = RoundScore(carte: Pair, denari: Pair, settebello: Pair, primiera: Pair, scope: Pair, total: Pair)

  const NO_SCORE := Pair(0, 0)

  datatype BotMove = BotMove(handIndex: nat, captureIndex: int, heuristic: int)

  // ----- cards -----

  function InsertCard(hand: seq<int>, card: int): seq<int> {
    if hand == [] || card <= hand[0] then [card] + hand else [hand[0]] + InsertCard(hand[1..], card)
  }

  /** By value, then suit: the order of the ids. */
  function SortHand(hand: seq<int>): seq<int> {
    if hand == [] then [] else InsertCard(SortHand(hand[1..]), hand[0])
  }

  /** Take up to `count` cards from the back of the deck. */
  function DealTo(deck: seq<int>, hand: seq<int>, count: nat): (r: (seq<int>, seq<int>)) {
    if count == 0 || deck == [] then (deck, hand)
    else DealTo(deck[..|deck| - 1], hand + [deck[|deck| - 1]], count - 1)
  }

  /** Erase the listed indices from the last to the first, each erased card going to the pile. */
  function TakeDown(table: seq<int>, pile: seq<int>, indices: seq<int>): (seq<int>, seq<int>)
    decreases |indices|
  {
    if indices == [] then (table, pile)
    else
      var n := |indices| - 1;
      var i := indices[n];
      if 0 <= i < |table| then TakeDown(table[..i] + table[i + 1..], pile + [table[i]], indices[..n])
      else TakeDown(table, pile, indices[..n])
  }

  // ----- scoring -----

  function CountSuit(cards: seq<int>, suit: int): nat {
    if cards == [] then 0
    else CountSuit(cards[..|cards| - 1], suit) + if SuitOf(cards[|cards| - 1]) == suit then 1 else 0
  }

  predicate HasCard(cards: seq<int>, suit: int, rank: int) {
    exists c :: c in cards && SuitOf(c) == suit && ValueOf(c) == rank
  }

  /** The best primiera value of a suit, or -1. */
  function BestOfSuit(cards: seq<int>, suit: int): int {
    if cards == [] then -1
    else
      var best := BestOfSuit(cards[..|cards| - 1], suit);
      var last := cards[|cards| - 1];
      if SuitOf(last) == suit && PrimieraValue(last) > best then PrimieraValue(last) else best
  }

  predicate Eligible(cards: seq<int>) {
    BestOfSuit(cards, 0) >= 0 && BestOfSuit(cards, 1) >= 0 && BestOfSuit(cards, 2) >= 0 && BestOfSuit(cards, 3) >= 0
  }

  function Primiera(cards: seq<int>): int {
    if Eligible(cards) then BestOfSuit(cards, 0) + BestOfSuit(cards, 1) + BestOfSuit(cards, 2) + BestOfSuit(cards, 3) else 0
  }

  /** One point to the larger side. */
  function ToLarger(a: int, b: int): Pair {
    if a > b then Pair(1, 0) else if b > a then Pair(0, 1) else Pair(0, 0)
  }

  function PrimieraPoints(a: seq<int>, b: seq<int>): Pair {
    if Eligible(a) && (!Eligible(b) || Primiera(a) > Primiera(b)) then Pair(1, 0)
    else if Eligible(b) && (!Eligible(a) || Primiera(b) > Primiera(a)) then Pair(0, 1)
    else Pair(0, 0)
  }

  /** The points of a round, from the two captured piles and the scope counts. */
  function ScoreOf(a: seq<int>, b: seq<int>, scope: Pair): RoundScore {
    var carte := ToLarger(|a|, |b|);
    var denari := ToLarger(CountSuit(a, DENARI), CountSuit(b, DENARI));
    var settebello := Pair(if HasCard(a, DENARI, 7) then 1 else 0, if HasCard(b, DENARI, 7) then 1 else 0);
    var primiera := PrimieraPoints(a, b);
    RoundScore(carte, denari, settebello, primiera, scope,
               Pair(carte.first + denari.first + settebello.first + primiera.first + scope.first,
                    carte.second + denari.second + settebello.second + primiera.second + scope.second))
  }

  // ----- the program's discards -----

  /** What laying a card down gives away. */
  function DiscardRisk(table: seq<int>, card: int): int {
    (if SuitOf(card) == DENARI then 320 else 0) + (if ValueOf(card) == 7 then 440 else 0) + PrimieraValue(card) * 6
    + (if |table| + 1 <= 2 then 180 else 0) + (if table == [] then 120 else 0)
  }

  // ----- the game -----

  datatype Event =
    | TapCard(h: int)
    | TapOption(k: nat)
    | BotMoves
    | DealTimer
    | TapContinue(shuffled: seq<int>)
    | NewGame(shuffled: seq<int>)

  datatype Game = Game(
    deck: seq<int>, table: seq<int>, players: seq<Player>, phase: Phase, turn: nat, starter: nat,
    lastCapturer: int, round: int, selected: int, options: seq<seq<int>>, pendingDeal: bool,
    lastScore: RoundScore, winner: int)
  {
    function Result(): RoundScore
      requires |players| == 2
    {
      ScoreOf(players[0].captured, players[1].captured, Pair(players[0].scope, players[1].scope))
    }

    function InHands(): nat
      requires |players| == 2
    {
      |players[0].hand| + |players[1].hand|
    }

    predicate IsFinalPlay()
      requires |players| == 2
    {
      deck == [] && InHands() == 1
    }

    function SortHands(): Game
      requires |players| == 2
    {
      this.(players := [players[0].(hand := SortHand(players[0].hand)), players[1].(hand := SortHand(players[1].hand))])
    }

    function DealNextHands(): Game
      requires |players| == 2
    {
      var (d0, h0) := DealTo(deck, players[0].hand, 3);
      var (d1, h1) := DealTo(d0, players[1].hand, 3);
      this.(deck := d1, players := [players[0].(hand := SortHand(h0)), players[1].(hand := SortHand(h1))])
    }

    function TurnPhase(): Phase {
      if turn == 0 then PlayerTurn else BotTurn
    }

    /** The table before the first card of a round; the dealer alternates and the other player starts. */
    function Cleared(shuffled: seq<int>): Game
      requires |players| == 2
    {
      var dealer := (round - 1) % 2;
      this.(deck := shuffled, table := [], options := [], selected := -1, lastCapturer := NOBODY, winner := NOBODY,
            starter := 1 - dealer, turn := 1 - dealer, pendingDeal := false,
            players := [players[0].(hand := [], captured := [], scope := 0), players[1].(hand := [], captured := [], scope := 0)])
    }

    /** Shuffle, deal three cards each, put four on the table. */
    function StartRound(shuffled: seq<int>): Game
      requires |players| == 2
    {
      var dealt := Cleared(shuffled).DealNextHands();
      var (d, t) := DealTo(dealt.deck, [], 4);
      dealt.(deck := d, table := t, phase := dealt.TurnPhase())
    }

    /** The card moves; nothing else is settled yet. */
    function Moved(p: nat, h: nat, k: int): Game
      requires |players| == 2 && p < 2 && h < |players[p].hand|
    {
      var player := players[p];
      var card := player.hand[h];
      var hand := player.hand[..h] + player.hand[h + 1..];
      if 0 <= k < |options| then
        var (t, pile) := TakeDown(table, player.captured + [card], options[k]);
        var scope := if t == [] && !IsFinalPlay() then 1 else 0;
        this.(table := t, lastCapturer := p,
              players := players[p := player.(hand := hand, captured := pile, scope := player.scope + scope)])
      else
        this.(table := table + [card], players := players[p := player.(hand := hand)])
    }

    function Apply(p: nat, h: nat, k: int): Game
      requires |players| == 2 && p < 2
    {
      if h >= |players[p].hand| then this
      else Moved(p, h, k).Settled(p)
    }

    /** The hands are sorted again and the turn passes. */
    function Settled(p: nat): Game
      requires |players| == 2 && p < 2
    {
      SortHands().(turn := 1 - p).AfterTurn()
    }

    function AfterTurn(): Game
      requires |players| == 2
    {
      var g := this.(options := [], selected := -1);
      if InHands() > 0 then g.(phase := TurnPhase())
      else if deck != [] then g.(pendingDeal := true, phase := InitRound)
      else g.Finalize()
    }

    /** What is left on the table goes to the last capturer. */
    function Swept(): Game
      requires |players| == 2
    {
      if table != [] && 0 <= lastCapturer < 2 then
        var player := players[lastCapturer];
        this.(table := [], players := players[lastCapturer := player.(captured := player.captured + table)])
      else this
    }

    /** The round's points join the match score; the match is over once somebody leads at the target. */
    function Scored(): Game
      requires |players| == 2
    {
      var result := Result();
      var you := players[0].(score := players[0].score + result.total.first);
      var opp := players[1].(score := players[1].score + result.total.second);
      var over := (you.score >= MATCH_TARGET || opp.score >= MATCH_TARGET) && you.score != opp.score;
      this.(players := [you, opp], lastScore := result,
            phase := if over then MatchOver else RoundSummary,
            winner := if !over then winner else if you.score > opp.score then 0 else 1)
    }

    function Finalize(): Game
      requires |players| == 2
    {
      Swept().Scored()
    }

    // ----- the user -----

    function ChooseCard(h: int): Game
      requires |players| == 2
    {
      if h < 0 || h >= |players[0].hand| then this
      else
        var choices := CaptureOptions(players[0].hand[h], table);
        if choices == [] then this.(options := []).Apply(0, h, -1)
        else if |choices| == 1 then this.(options := choices).Apply(0, h, 0)
        else this.(selected := h, options := choices, phase := ChooseCapture)
    }

    function ChooseOption(k: nat): Game
      requires |players| == 2
    {
      if k >= |options| || selected < 0 then this else Apply(0, selected, k)
    }

    /** Tapping the selected card again takes the choice back. */
    function TapHand(h: int): Game
      requires |players| == 2
    {
      if phase.ChooseCapture? && selected == h then this.(phase := PlayerTurn, selected := -1, options := [])
      else ChooseCard(h)
    }

    // ----- the program -----

    function TakenDenari(indices: seq<int>): int {
      if indices == [] then 0
      else
        TakenDenari(indices[1..]) +
        if 0 <= indices[0] < |table| && SuitOf(table[indices[0]]) == DENARI then 1 else 0
    }

    function TakenPrimiera(indices: seq<int>): int {
      if indices == [] then 0
      else TakenPrimiera(indices[1..]) + if 0 <= indices[0] < |table| then PrimieraValue(table[indices[0]]) else 0
    }

    predicate TakesSettebello(card: int, indices: seq<int>) {
      (SuitOf(card) == DENARI && ValueOf(card) == 7) ||
      exists k :: 0 <= k < |indices| && 0 <= indices[k] < |table| &&
                  SuitOf(table[indices[k]]) == DENARI && ValueOf(table[indices[k]]) == 7
    }

    function CaptureWorth(card: int, indices: seq<int>): int
      requires |players| == 2
    {
      (if |indices| == |table| && !IsFinalPlay() then 100_000 else 0)
      + (if TakesSettebello(card, indices) then 50_000 else 0)
      + ((if SuitOf(card) == DENARI then 1 else 0) + TakenDenari(indices)) * 2_800
      + (|indices| + 1) * 340
      + (PrimieraValue(card) + TakenPrimiera(indices)) * 9
      + (if SuitOf(card) == DENARI then 140 else 0) + (if ValueOf(card) == 7 then 100 else 0)
    }

    function BetterMove(a: BotMove, b: BotMove): BotMove {
      if b.heuristic > a.heuristic then b else a
    }

    function BestCapture(h: nat, n: nat, best: BotMove): BotMove
      requires |players| == 2 && h < |players[1].hand|
      requires n <= |CaptureOptions(players[1].hand[h], table)|
    {
      if n == 0 then best
      else
        var card := players[1].hand[h];
        BetterMove(BestCapture(h, n - 1, best),
                   BotMove(h, n - 1, CaptureWorth(card, CaptureOptions(card, table)[n - 1])))
    }

    /** `best` or a better move with the card at `h`. */
    function Considered(h: nat, best: BotMove): BotMove
      requires |players| == 2 && h < |players[1].hand|
    {
      var card := players[1].hand[h];
      var choices := CaptureOptions(card, table);
      if choices == [] then BetterMove(best, BotMove(h, -1, -DiscardRisk(table, card)))
      else BestCapture(h, |choices|, best)
    }

    /** The program's best move among its first `n` cards: the first one of the highest worth. */
    function BestMove(n: nat): BotMove
      requires |players| == 2 && n <= |players[1].hand|
    {
      if n == 0 then BotMove(0, -1, -1_000_000) else Considered(n - 1, BestMove(n - 1))
    }

    function BotTurnMove(): Game
      requires |players| == 2
    {
      if !phase.BotTurn? || pendingDeal || players[1].hand == [] then this
      else
        var move := BestMove(|players[1].hand|);
        if move.handIndex >= |players[1].hand| then this
        else this.(options := CaptureOptions(players[1].hand[move.handIndex], table)).Apply(1, move.handIndex, move.captureIndex)
    }

    // ----- steps -----

    function DealPending(): Game
      requires |players| == 2
    {
      if !pendingDeal then this
      else
        var g := DealNextHands().(turn := starter, pendingDeal := false);
        g.(phase := g.TurnPhase())
    }

    function Continue(shuffled: seq<int>): Game
      requires |players| == 2
    {
      match phase
      case MatchOver => ResetMatch(shuffled)
      case RoundSummary => BeginNextRound(shuffled)
      case _ => this
    }

    function BeginNextRound(shuffled: seq<int>): Game
      requires |players| == 2
    {
      this.(round := round + 1).StartRound(shuffled)
    }

    function ResetMatch(shuffled: seq<int>): Game
      requires |players| == 2
    {
      this.(round := 1, players := [players[0].(score := 0), players[1].(score := 0)]).StartRound(shuffled)
    }

    function Step(e: Event): Game
      requires |players| == 2
    {
      match e
      case TapCard(h) => if (phase.PlayerTurn? || phase.ChooseCapture?) && !pendingDeal then TapHand(h) else this
      case TapOption(k) => if phase.ChooseCapture? && !pendingDeal then ChooseOption(k) else this
      case BotMoves => BotTurnMove()
      case DealTimer => DealPending()
      case TapContinue(shuffled) => Continue(shuffled)
      case NewGame(shuffled) => if phase.PlayerTurn? || phase.ChooseCapture? then ResetMatch(shuffled) else this
    }
  }
}
