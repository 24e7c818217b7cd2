/**
 The Scopa game object: the fields its functions update in place, loops included. Each method is
 proved to take the object from the state it was in to the state `Scopa` gives.
 */
module ScopaTable {
  import opened ScopaCaptures
  import opened Scopa
  import opened ScopaRounds

  // ----- loops over cards -----

  /** Cards leave the back of the deck one at a time. */
  method DealCards(deck: seq<int>, hand: seq<int>, count: nat) returns (d: seq<int>, h: seq<int>)
    ensures (d, h) == DealTo(deck, hand, count)
  {
    d, h := deck, hand;
    var i := 0;
    while i < count && d != []
      invariant i <= count && DealTo(d, h, count - i) == DealTo(deck, hand, count)
    {
      d, h := d[..|d| - 1], h + [d[|d| - 1]];
      i := i + 1;
    }
  }

  method SuitCount(cards: seq<int>, suit: int) returns (n: nat)
    ensures n == CountSuit(cards, suit)
  {
    n := 0;
    for i := 0 to |cards|
      invariant n == CountSuit(cards[..i], suit)
    {
      assert cards[..i + 1][..i] == cards[..i];
      if SuitOf(cards[i]) == suit {
        n := n + 1;
      }
    }
    assert cards[..|cards|] == cards;
  }

  method Holds(cards: seq<int>, suit: int, rank: int) returns (found: bool)
    ensures found == HasCard(cards, suit, rank)
  {
    for i := 0 to |cards|
      invariant forall k :: 0 <= k < i ==> SuitOf(cards[k]) != suit || ValueOf(cards[k]) != rank
    {
      if SuitOf(cards[i]) == suit && ValueOf(cards[i]) == rank {
        return true;
      }
    }
    return false;
  }

  method SuitBest(cards: seq<int>, suit: int) returns (best: int)
    ensures best == BestOfSuit(cards, suit)
  {
    best := -1;
    for i := 0 to |cards|
      invariant best == BestOfSuit(cards[..i], suit)
    {
      assert cards[..i + 1][..i] == cards[..i];
      if SuitOf(cards[i]) == suit && PrimieraValue(cards[i]) > best {
        best := PrimieraValue(cards[i]);
      }
    }
    assert cards[..|cards|] == cards;
  }

  /** The best values of the first `n` suits. */
  function BestOfSuits(cards: seq<int>, n: nat): int {
    if n == 0 then 0 else BestOfSuits(cards, n - 1) + BestOfSuit(cards, n - 1)
  }

  method PrimieraScore(cards: seq<int>) returns (total: int, eligible: bool)
    ensures eligible == Eligible(cards) && total == Primiera(cards)
  {
    total := 0;
    for suit := 0 to 4
      invariant total == BestOfSuits(cards, suit)
      invariant forall s :: 0 <= s < suit ==> BestOfSuit(cards, s) >= 0
    {
      var best := SuitBest(cards, suit);
      if best < 0 {
        return 0, false;
      }
      total := total + best;
    }
    assert BestOfSuits(cards, 2) == BestOfSuit(cards, 0) + BestOfSuit(cards, 1);
    assert BestOfSuits(cards, 4) == BestOfSuits(cards, 2) + BestOfSuit(cards, 2) + BestOfSuit(cards, 3);
    return total, true;
  }

  method RoundPoints(a: seq<int>, b: seq<int>, scope: Pair) returns (result: RoundScore)
    ensures result == ScoreOf(a, b, scope)
  {
    var carte, denari, primiera := NO_SCORE, NO_SCORE, NO_SCORE;
    if |a| > |b| {
      carte := Pair(1, 0);
    } else if |b| > |a| {
      carte := Pair(0, 1);
    }
    var denariA := SuitCount(a, DENARI);
    var denariB := SuitCount(b, DENARI);
    if denariA > denariB {
      denari := Pair(1, 0);
    } else if denariB > denariA {
      denari := Pair(0, 1);
    }
    var sevenA := Holds(a, DENARI, 7);
    var sevenB := Holds(b, DENARI, 7);
    var settebello := Pair(if sevenA then 1 else 0, if sevenB then 1 else 0);
    var primieraA, eligibleA := PrimieraScore(a);
    var primieraB, eligibleB := PrimieraScore(b);
    if eligibleA || eligibleB {
      if eligibleA && (!eligibleB || primieraA > primieraB) {
        primiera := Pair(1, 0);
      } else if eligibleB && (!eligibleA || primieraB > primieraA) {
        primiera := Pair(0, 1);
      }
    }
    result := RoundScore(carte, denari, settebello, primiera, scope,
                         Pair(carte.first + denari.first + settebello.first + primiera.first + scope.first,
                              carte.second + denari.second + settebello.second + primiera.second + scope.second));
  }

  /** Erase the named cards, the highest index first, so that the lower indices stay right. */
  method EraseDown(table: seq<int>, pile: seq<int>, indices: seq<int>) returns (t: seq<int>, captured: seq<int>)
    ensures (t, captured) == TakeDown(table, pile, indices)
  {
    t, captured := table, pile;
    var n := |indices|;
    assert indices[..n] == indices;
    while n > 0
      invariant 0 <= n <= |indices|
      invariant TakeDown(t, captured, indices[..n]) == TakeDown(table, pile, indices)
    {
      assert indices[..n][..n - 1] == indices[..n - 1];
      var i := indices[n - 1];
      if 0 <= i < |t| {
        captured := captured + [t[i]];
        t := t[..i] + t[i + 1..];
      }
      n := n - 1;
    }
  }

  lemma KeepsOrder(g: Game, e: Event)
    requires |g.players| == 2
    ensures |g.Step(e).players| == 2 && (Inv(g) && RealShuffle(e) ==> Inv(g.Step(e)))
  {
    if Inv(g) && RealShuffle(e) { StepKeepsInv(g, e); }
  }

  class Table {
    var deck: seq<int>
    var table: seq<int>
    var players: seq<Player>
    var phase: Phase
    var turn: nat
    var starter: nat
    var lastCapturer: int
    var round: int
    var selected: int
    var options: seq<seq<int>>
    var pendingDeal: bool
    var lastScore: RoundScore
    var winner: int

    predicate Valid()
      reads this
    {
      |players| == 2
    }

    ghost function State(): Game
      reads this
    {
      Game(deck, table, players, phase, turn, starter, lastCapturer, round, selected, options, pendingDeal, lastScore, winner)
    }

    /** The window opens with a new match. */
    constructor (shuffled: seq<int>)
      requires Shuffled(shuffled)
      ensures Valid() && Inv(State()) && Remaining(State()) == ROUND_PLAYS && round == 1
    {
      players := [Player([], [], 0, 0), Player([], [], 0, 0)];
      phase, lastScore := InitRound, RoundScore(NO_SCORE, NO_SCORE, NO_SCORE, NO_SCORE, NO_SCORE, NO_SCORE);
      new;
      ghost var g := State().(round := 1, players := [players[0].(score := 0), players[1].(score := 0)]);
      StartKeepsInv(g, shuffled);
      ResetMatch(shuffled);
    }

    // ----- dealing -----

    method SortHands()
      requires Valid()
      modifies `players
      ensures Valid() && State() == old(State()).SortHands()
    {
      players := [players[0].(hand := SortHand(players[0].hand)), players[1].(hand := SortHand(players[1].hand))];
    }

    method DealNextHands()
      requires Valid()
      modifies `players, `deck
      ensures Valid() && State() == old(State()).DealNextHands()
    {
      var d0, h0 := DealCards(deck, players[0].hand, 3);
      var d1, h1 := DealCards(d0, players[1].hand, 3);
      deck := d1;
      players := [players[0].(hand := h0), players[1].(hand := h1)];
      SortHands();
    }

    method ClearPlayers()
      requires Valid()
      modifies `players
      ensures players == [old(players)[0].(hand := [], captured := [], scope := 0),
                          old(players)[1].(hand := [], captured := [], scope := 0)]
    {
      var i := 0;
      while i < |players|
        invariant 0 <= i <= |players| == 2
        invariant forall k :: 0 <= k < 2 ==>
                    players[k] == if k < i then old(players)[k].(hand := [], captured := [], scope := 0) else old(players)[k]
      {
        players := players[i := players[i].(hand := [], captured := [], scope := 0)];
        i := i + 1;
      }
    }

    method ClearRound(shuffled: seq<int>)
      requires Valid()
      modifies this
      ensures Valid() && State() == old(State()).Cleared(shuffled)
    {
      ClearCards(shuffled);
      ClearPlayers();
      winner, lastCapturer := NOBODY, NOBODY;
      var dealer := (round - 1) % 2;
      starter := 1 - dealer;
      turn := starter;
    }

    method ClearCards(shuffled: seq<int>)
      modifies `deck, `table, `options, `selected, `pendingDeal
      ensures State() == old(State()).(deck := shuffled, table := [], options := [], selected := -1, pendingDeal := false)
    {
      deck, table, options, selected, pendingDeal := shuffled, [], [], -1, false;
    }

    method SetTurnPhase()
      modifies `phase
      ensures phase == State().TurnPhase()
    {
      phase := if turn == 0 then PlayerTurn else BotTurn;
    }

    method StartRound(shuffled: seq<int>)
      requires Valid()
      modifies this
      ensures Valid() && State() == old(State()).StartRound(shuffled)
    {
      ClearRound(shuffled);
      DealNextHands();
      deck, table := DealCards(deck, [], 4);
      SetTurnPhase();
    }

    method ResetMatch(shuffled: seq<int>)
      requires Valid()
      modifies this
      ensures Valid() && State() == old(State()).ResetMatch(shuffled)
    {
      round := 1;
      players := [players[0].(score := 0), players[1].(score := 0)];
      StartRound(shuffled);
    }

    method BeginNextRound(shuffled: seq<int>)
      requires Valid()
      modifies this
      ensures Valid() && State() == old(State()).BeginNextRound(shuffled)
    {
      round := round + 1;
      StartRound(shuffled);
    }

    // ----- the end of a round -----

    method SweepTable()
      requires Valid()
      modifies `table, `players
      ensures Valid() && State() == old(State()).Swept()
    {
      if table != [] && 0 <= lastCapturer < 2 {
        var player := players[lastCapturer];
        players := players[lastCapturer := player.(captured := player.captured + table)];
        table := [];
      }
    }

    method ScoreRound()
      requires Valid()
      modifies `players, `lastScore, `phase, `winner
      ensures Valid() && State() == old(State()).Scored()
    {
      var result := RoundPoints(players[0].captured, players[1].captured, Pair(players[0].scope, players[1].scope));
      players := [players[0].(score := players[0].score + result.total.first),
                  players[1].(score := players[1].score + result.total.second)];
      lastScore := result;
      phase := RoundSummary;
      if players[0].score >= MATCH_TARGET || players[1].score >= MATCH_TARGET {
        if players[0].score != players[1].score {
          phase := MatchOver;
          winner := if players[0].score > players[1].score then 0 else 1;
        }
      }
    }

    method FinalizeRound()
      requires Valid()
      modifies this
      ensures Valid() && State() == old(State()).Finalize()
    {
      SweepTable();
      ScoreRound();
    }

    method UpdatePhaseAfterTurn()
      requires Valid()
      modifies this
      ensures Valid() && State() == old(State()).AfterTurn()
    {
      options := [];
      selected := -1;
      if players[0].hand == [] && players[1].hand == [] {
        if deck != [] {
          pendingDeal := true;
          phase := InitRound;
        } else {
          FinalizeRound();
        }
      } else {
        SetTurnPhase();
      }
    }

    // ----- one play -----

    method MoveCard(p: nat, h: nat, k: int)
      requires Valid() && p < 2 && h < |players[p].hand|
      modifies `table, `players, `lastCapturer
      ensures Valid() && State() == old(State()).Moved(p, h, k)
    {
      var player := players[p];
      var finalPlay := deck == [] && |players[0].hand| + |players[1].hand| == 1;
      var card := player.hand[h];
      player := player.(hand := player.hand[..h] + player.hand[h + 1..]);
      if 0 <= k < |options| {
        var t, captured := EraseDown(table, player.captured + [card], options[k]);
        table := t;
        lastCapturer := p;
        var scope := if table == [] && !finalPlay then 1 else 0;
        players := players[p := player.(captured := captured, scope := player.scope + scope)];
      } else {
        table := table + [card];
        players := players[p := player];
      }
    }

    method ApplyMove(p: nat, h: nat, k: int)
      requires Valid() && p < 2
      modifies this
      ensures Valid() && State() == old(State()).Apply(p, h, k)
    {
      if h >= |players[p].hand| {
        return;
      }
      MoveCard(p, h, k);
      SortHands();
      turn := 1 - p;
      UpdatePhaseAfterTurn();
    }

    method ChoosePlayerCard(h: int)
      requires Valid()
      modifies this
      ensures Valid() && State() == old(State()).ChooseCard(h)
    {
      if h < 0 || h >= |players[0].hand| {
        return;
      }
      var choices := GetCaptureOptions(players[0].hand[h], table);
      if choices == [] {
        options := [];
        ApplyMove(0, h, -1);
      } else if |choices| == 1 {
        options := choices;
        ApplyMove(0, h, 0);
      } else {
        selected, options, phase := h, choices, ChooseCapture;
      }
    }

    // ----- the program -----

    method WorthOfOption(card: int, indices: seq<int>) returns (worth: int)
      requires Valid()
      ensures worth == State().CaptureWorth(card, indices)
    {
      var denari := if SuitOf(card) == DENARI then 1 else 0;
      var primiera := PrimieraValue(card);
      var settebello := SuitOf(card) == DENARI && ValueOf(card) == 7;
      var n := |indices|;
      assert indices[|indices|..] == [];
      while n > 0
        invariant 0 <= n <= |indices|
        invariant denari == (if SuitOf(card) == DENARI then 1 else 0) + State().TakenDenari(indices[n..])
        invariant primiera == PrimieraValue(card) + State().TakenPrimiera(indices[n..])
        invariant settebello == State().TakesSettebello(card, indices[n..])
      {
        n := n - 1;
        assert indices[n..] == [indices[n]] + indices[n + 1..];
        ghost var rest := indices[n + 1..];
        assert forall k :: 0 < k < |indices[n..]| ==> indices[n..][k] == rest[k - 1];
        if 0 <= indices[n] < |table| {
          var taken := table[indices[n]];
          assert indices[n..][0] == indices[n];
          denari := denari + if SuitOf(taken) == DENARI then 1 else 0;
          primiera := primiera + PrimieraValue(taken);
          if SuitOf(taken) == DENARI && ValueOf(taken) == 7 {
            settebello := true;
          }
        }
      }
      assert indices[0..] == indices;
      worth := 0;
      if |indices| == |table| && !(deck == [] && |players[0].hand| + |players[1].hand| == 1) {
        worth := worth + 100_000;
      }
      if settebello {
        worth := worth + 50_000;
      }
      worth := worth + denari * 2_800 + (|indices| + 1) * 340 + primiera * 9;
      worth := worth + (if SuitOf(card) == DENARI then 140 else 0) + (if ValueOf(card) == 7 then 100 else 0);
    }

    /** Over every card and every capture of it, the first move of the highest worth. */
    /** The better of the best so far and each capture of one card. */
    method BestOption(h: nat, choices: seq<seq<int>>, soFar: BotMove) returns (best: BotMove)
      requires Valid() && h < |players[1].hand| && choices == CaptureOptions(players[1].hand[h], table)
      ensures best == State().BestCapture(h, |choices|, soFar)
    {
      best := soFar;
      for k := 0 to |choices|
        invariant best == State().BestCapture(h, k, soFar)
      {
        var worth := WorthOfOption(players[1].hand[h], choices[k]);
        if worth > best.heuristic {
          best := BotMove(h, k, worth);
        }
      }
    }

    /** The better of the best so far and every move with one card. */
    method ConsiderCard(h: nat, soFar: BotMove) returns (best: BotMove)
      requires Valid() && h < |players[1].hand|
      ensures best == State().Considered(h, soFar)
    {
      var card := players[1].hand[h];
      var choices := GetCaptureOptions(card, table);
      if choices != [] {
        best := BestOption(h, choices, soFar);
        return;
      }
      best := soFar;
      var worth := -DiscardRisk(table, card);
      if worth > best.heuristic {
        best := BotMove(h, -1, worth);
      }
    }

    method ChooseBotMove() returns (best: BotMove)
      requires Valid()
      ensures best == State().BestMove(|players[1].hand|)
    {
      best := BotMove(0, -1, -1_000_000);
      for h := 0 to |players[1].hand|
        invariant best == State().BestMove(h)
      {
        best := ConsiderCard(h, best);
      }
    }

    method UpdateBotTurn()
      requires Valid()
      modifies this
      ensures Valid() && State() == old(State()).BotTurnMove()
    {
      if !phase.BotTurn? || pendingDeal || players[1].hand == [] {
        return;
      }
      var move := ChooseBotMove();
      if move.handIndex < |players[1].hand| {
        options := GetCaptureOptions(players[1].hand[move.handIndex], table);
        ApplyMove(1, move.handIndex, move.captureIndex);
      }
    }

    // ----- the window's events -----

    method DealPendingHand()
      requires Valid()
      modifies this
      ensures Valid() && State() == old(State()).DealPending()
    {
      if pendingDeal {
        DealNextHands();
        turn := starter;
        pendingDeal := false;
        SetTurnPhase();
      }
    }

    method TapHand(h: int)
      requires Valid()
      modifies this
      ensures Valid() && State() == old(State()).TapHand(h)
    {
      if phase.ChooseCapture? && selected == h {
        phase, selected, options := PlayerTurn, -1, [];
      } else {
        ChoosePlayerCard(h);
      }
    }

    /** One event; a table in order stays in order. */
    method Handle(e: Event)
      requires Valid()
      modifies this
      ensures Valid() && State() == old(State()).Step(e)
      ensures old(Inv(State())) && RealShuffle(e) ==> Inv(State())
    {
      KeepsOrder(State(), e);
      match e
      case TapCard(h) =>
        if (phase.PlayerTurn? || phase.ChooseCapture?) && !pendingDeal { TapHand(h); }
      case TapOption(k) =>
        if phase.ChooseCapture? && !pendingDeal && k < |options| && selected >= 0 { ApplyMove(0, selected, k); }
      case BotMoves => UpdateBotTurn();
      case DealTimer => DealPendingHand();
      case TapContinue(shuffled) =>
        if phase.MatchOver? { ResetMatch(shuffled); } else if phase.RoundSummary? { BeginNextRound(shuffled); }
      case NewGame(shuffled) =>
        if phase.PlayerTurn? || phase.ChooseCapture? { ResetMatch(shuffled); }
    }
  }
}
