/**
 Who gets what in Scopa, told by the cards in the piles: each category of a scored round, the scopa
 points of every sweep, the score of the match and its winner, over every run.
 */
module ScopaAwards {
  import opened ScopaCaptures
  import opened Scopa
  import opened ScopaRounds

  // ----- the categories -----

  /** How many of the ten cards of denari, the ids divisible by four, a pile holds. */
  function DenariIn(pile: multiset<int>): nat {
    pile[0] + pile[4] + pile[8] + pile[12] + pile[16] + pile[20] + pile[24] + pile[28] + pile[32] + pile[36]
  }

  /** What a pile's best card of a suit counts for the primiera: seven, six, ace, five, four, three, two, figure. */
  function Prime(pile: seq<int>, suit: nat): nat {
    if suit + 24 in pile then 21
    else if suit + 20 in pile then 18
    else if suit in pile then 16
    else if suit + 16 in pile then 15
    else if suit + 12 in pile then 14
    else if suit + 8 in pile then 13
    else if suit + 4 in pile then 12
    else if suit + 28 in pile || suit + 32 in pile || suit + 36 in pile then 10
    else 0
  }

  /** All four suits. */
  predicate HasPrimiera(pile: seq<int>) {
    Prime(pile, 0) > 0 && Prime(pile, 1) > 0 && Prime(pile, 2) > 0 && Prime(pile, 3) > 0
  }

  function Primes(pile: seq<int>): nat {
    Prime(pile, 0) + Prime(pile, 1) + Prime(pile, 2) + Prime(pile, 3)
  }

  /** `pile` beats `other` for the primiera. */
  predicate WinsPrimiera(pile: seq<int>, other: seq<int>) {
    HasPrimiera(pile) && (!HasPrimiera(other) || Primes(pile) > Primes(other))
  }

  function Point(b: bool): int {
    if b then 1 else 0
  }

  /** The points of one side with pile `a` against pile `b`, category by category. */
  ghost predicate SideGets(a: seq<int>, b: seq<int>, carte: int, denari: int, settebello: int, primiera: int) {
    && carte == Point(|a| > |b|)
    && denari == Point(DenariIn(multiset(a)) > DenariIn(multiset(b)))
    && settebello == Point(24 in a)
    && primiera == Point(WinsPrimiera(a, b))
  }

  /** The points of a round go to whom the piles say, and add up. */
  ghost predicate Awards(s: RoundScore, a: seq<int>, b: seq<int>) {
    && SideGets(a, b, s.carte.first, s.denari.first, s.settebello.first, s.primiera.first)
    && SideGets(b, a, s.carte.second, s.denari.second, s.settebello.second, s.primiera.second)
    && s.total.first == s.carte.first + s.denari.first + s.settebello.first + s.primiera.first + s.scope.first
    && s.total.second == s.carte.second + s.denari.second + s.settebello.second + s.primiera.second + s.scope.second
  }

  lemma LastIn(pile: seq<int>, c: int)
    requires pile != []
    ensures c in pile <==> c in pile[..|pile| - 1] || c == pile[|pile| - 1]
  {
    assert pile == pile[..|pile| - 1] + [pile[|pile| - 1]];
  }

  lemma OneMoreDenari(pile: multiset<int>, c: int)
    requires IsCard(c)
    ensures DenariIn(pile + multiset{c}) == DenariIn(pile) + if c % 4 == 0 then 1 else 0
  {
  }

  lemma {:induction false} DenariAreCounted(pile: seq<int>)
    requires forall c :: c in pile ==> IsCard(c)
    ensures CountSuit(pile, DENARI) == DenariIn(multiset(pile))
  {
    if pile != [] {
      var n := |pile| - 1;
      DenariAreCounted(pile[..n]);
      OneMoreDenari(multiset(pile[..n]), pile[n]);
      assert pile == pile[..n] + [pile[n]];
      assert pile[n] in pile;
    }
  }

  /** The rank of a card as a step of the chain. */
  function Step(c: int): nat {
    if c / 4 == 6 then 21 else if c / 4 == 5 then 18 else if c / 4 == 0 then 16 else if c / 4 == 4 then 15
    else if c / 4 == 3 then 14 else if c / 4 == 2 then 13 else if c / 4 == 1 then 12 else 10
  }

  lemma OneMoreCard(pile: seq<int>, suit: nat)
    requires suit < 4 && pile != [] && forall c :: c in pile ==> IsCard(c)
    ensures var n := |pile| - 1;
            var before := Prime(pile[..n], suit);
            Prime(pile, suit) == if pile[n] % 4 == suit && Step(pile[n]) > before then Step(pile[n]) else before
  {
    var n := |pile| - 1;
    assert pile[n] in pile;
    LastIn(pile, suit); LastIn(pile, suit + 4); LastIn(pile, suit + 8); LastIn(pile, suit + 12); LastIn(pile, suit + 16);
    LastIn(pile, suit + 20); LastIn(pile, suit + 24); LastIn(pile, suit + 28); LastIn(pile, suit + 32); LastIn(pile, suit + 36);
  }

  /** The best of a suit is what the chain of ranks says; there is none exactly when it says nothing. */
  lemma {:induction false} BestIsPrime(pile: seq<int>, suit: nat)
    requires suit < 4 && forall c :: c in pile ==> IsCard(c)
    ensures BestOfSuit(pile, suit) == if Prime(pile, suit) == 0 then -1 else Prime(pile, suit)
  {
    if pile != [] {
      var n := |pile| - 1;
      BestIsPrime(pile[..n], suit);
      OneMoreCard(pile, suit);
    }
  }

  lemma PrimieraIsPrimes(pile: seq<int>)
    requires forall c :: c in pile ==> IsCard(c)
    ensures Eligible(pile) <==> HasPrimiera(pile)
    ensures HasPrimiera(pile) ==> Primiera(pile) == Primes(pile)
  {
    BestIsPrime(pile, 0);
    BestIsPrime(pile, 1);
    BestIsPrime(pile, 2);
    BestIsPrime(pile, 3);
  }

  /** The score of two piles of real cards is awarded by the cards in them. */
  lemma ScoreIsAwarded(a: seq<int>, b: seq<int>, scope: Pair)
    requires (forall c :: c in a ==> IsCard(c)) && (forall c :: c in b ==> IsCard(c))
    ensures Awards(ScoreOf(a, b, scope), a, b) && ScoreOf(a, b, scope).scope == scope
  {
    DenariAreCounted(a);
    DenariAreCounted(b);
    Settebello(a);
    Settebello(b);
    PrimieraIsPrimes(a);
    PrimieraIsPrimes(b);
  }

  // ----- one play -----

  /** The player on turn plays card `h`, with capture `k` of the listed ones or, for -1, none. */
  ghost predicate Legal(g: Game, h: nat, k: int) {
    ToMove(g) && h < |g.players[g.turn].hand| && Chosen(g, g.turn, h, k)
  }

  /** The table cards that capture `k` takes. */
  function Captured(g: Game, k: int): seq<int> {
    if 0 <= k < |g.options| then Taken(g.table, g.options[k]) else []
  }

  function TotalValue(cards: seq<int>): int {
    if cards == [] then 0 else ValueOf(cards[0]) + TotalValue(cards[1..])
  }

  lemma {:induction false} SumAtLast(values: seq<int>, indices: seq<int>)
    requires indices != []
    ensures SumAt(values, indices) == SumAt(values, indices[..|indices| - 1]) + SumAt(values, [indices[|indices| - 1]])
  {
    if |indices| > 1 {
      SumAtLast(values, indices[1..]);
      assert indices[1..][..|indices| - 2] == indices[..|indices| - 1][1..];
    } else {
      assert indices == [indices[0]] && indices[..0] == [];
    }
  }

  lemma {:induction false} TakenAddsUp(table: seq<int>, indices: seq<int>)
    requires Within(indices, 0, |table|)
    ensures TotalValue(Taken(table, indices)) == SumAt(Values(table), indices)
  {
    if indices != [] {
      var n := |indices| - 1;
      TakenAddsUp(table, indices[..n]);
      SumAtLast(Values(table), indices);
      assert Taken(table, indices)[1..] == Taken(table, indices[..n]);
    }
  }

  /** What a card captures adds up to its value. */
  lemma CapturedAddsUp(g: Game, h: nat, k: int)
    requires Legal(g, h, k) && k >= 0
    ensures TotalValue(Captured(g, k)) == ValueOf(g.players[g.turn].hand[h])
  {
    var card := g.players[g.turn].hand[h];
    ChosenIsGood(g, g.turn, h, k);
    TableValues(g);
    OptionIsAllowed(card, g.table, k);
    TakenAddsUp(g.table, g.options[k]);
    if HasEqual(Values(g.table), ValueOf(card)) { assert g.options[k] == [g.options[k][0]]; }
  }

  function CopiesIn(cards: seq<int>, c: int): int {
    multiset(cards)[c]
  }

  /** Where the copies of one card go in a play of `played` that captures `taken`. */
  predicate Goes(before: Player, after: Player, table: seq<int>, table': seq<int>, played: int, taken: seq<int>, c: int) {
    && CopiesIn(after.hand, c) == CopiesIn(before.hand, c) - Point(c == played)
    && CopiesIn(after.captured, c) == CopiesIn(before.captured, c) + Point(taken != [] && c == played) + CopiesIn(taken, c)
    && CopiesIn(table', c) == CopiesIn(table, c) + Point(taken == [] && c == played) - CopiesIn(taken, c)
  }

  /**
   A legal play: the card leaves the player's hand; with a capture it goes to the player's pile with the
   cards it takes off the table, which add up to its value; otherwise it stays on the table. The other
   player's cards stay, and a scopa is counted exactly for a capture that clears the table before the
   last play.
   */
  ghost predicate PlayedRight(g: Game, m: Game, h: nat, k: int)
    requires |g.players| == |m.players| == 2 && (g.turn == 0 || g.turn == 1) && h < |g.players[g.turn].hand|
  {
    var p, card, taken := g.turn, g.players[g.turn].hand[h], Captured(g, k);
    && (taken != [] <==> k >= 0)
    && (taken != [] ==> TotalValue(taken) == ValueOf(card))
    && (forall c :: Goes(g.players[p], m.players[p], g.table, m.table, card, taken, c))
    && m.players[1 - p] == g.players[1 - p]
    && m.players[p].scope == g.players[p].scope + Point(taken != [] && m.table == [] && Remaining(g) > 1)
    && m.players[p].score == g.players[p].score
    && m.lastCapturer == if taken != [] then p else g.lastCapturer
  }

  lemma OneMoreCounts(s: seq<int>, x: int, c: int)
    ensures CopiesIn(s + [x], c) == CopiesIn(s, c) + Point(x == c)
  {
  }

  lemma SumCounts(a: seq<int>, b: seq<int>, c: int)
    ensures CopiesIn(a + b, c) == CopiesIn(a, c) + CopiesIn(b, c)
  {
  }

  /** What `Moved` makes of a capture. */
  lemma CaptureMoves(g: Game, h: nat, k: int)
    requires Legal(g, h, k) && k >= 0
    ensures var p, m := g.turn, g.Moved(g.turn, h, k);
            var pile := g.players[p].captured + [g.players[p].hand[h]];
            && m.table == TakeDown(g.table, pile, g.options[k]).0
            && m.players[p].captured == TakeDown(g.table, pile, g.options[k]).1
            && m.players[p].hand == g.players[p].hand[..h] + g.players[p].hand[h + 1..]
  {
  }

  lemma TakenGoes(table: seq<int>, pile: seq<int>, card: int, indices: seq<int>, c: int)
    requires Good(table, indices) && indices != []
    ensures var after := TakeDown(table, pile + [card], indices);
            && Taken(table, indices) != []
            && CopiesIn(after.1, c) == CopiesIn(pile, c) + Point(c == card) + CopiesIn(Taken(table, indices), c)
            && CopiesIn(after.0, c) == CopiesIn(table, c) - CopiesIn(Taken(table, indices), c)
  {
    TakeDownTakes(table, pile + [card], indices);
    TakeDownKeeps(table, pile + [card], indices, c);
    OneMoreCounts(pile, card, c);
    SumCounts(pile + [card], Taken(table, indices), c);
  }

  lemma CaptureGoes(g: Game, h: nat, k: int, c: int)
    requires Legal(g, h, k) && k >= 0
    ensures var p, m := g.turn, g.Moved(g.turn, h, k);
            Goes(g.players[p], m.players[p], g.table, m.table, g.players[p].hand[h], Captured(g, k), c)
  {
    var p := g.turn;
    var card, pile := g.players[p].hand[h], g.players[p].captured;
    ChosenIsGood(g, p, h, k);
    CaptureMoves(g, h, k);
    TakenGoes(g.table, pile, card, g.options[k], c);
    HandLess(g.players[p].hand, h, c);
  }

  lemma DiscardGoes(g: Game, h: nat, c: int)
    requires Legal(g, h, -1)
    ensures var p, m := g.turn, g.Moved(g.turn, h, -1);
            Goes(g.players[p], m.players[p], g.table, m.table, g.players[p].hand[h], [], c)
  {
    HandLess(g.players[g.turn].hand, h, c);
    OneMoreCounts(g.table, g.players[g.turn].hand[h], c);
  }

  lemma CardsGo(g: Game, h: nat, k: int)
    requires Legal(g, h, k)
    ensures var p, m := g.turn, g.Moved(g.turn, h, k);
            forall c :: Goes(g.players[p], m.players[p], g.table, m.table, g.players[p].hand[h], Captured(g, k), c)
  {
    var p, m := g.turn, g.Moved(g.turn, h, k);
    forall c ensures Goes(g.players[p], m.players[p], g.table, m.table, g.players[p].hand[h], Captured(g, k), c) {
      if k >= 0 { CaptureGoes(g, h, k, c); } else { DiscardGoes(g, h, c); }
    }
  }

  lemma PlayMovesRight(g: Game, h: nat, k: int)
    requires Legal(g, h, k)
    ensures PlayedRight(g, g.Moved(g.turn, h, k), h, k)
  {
    CardsGo(g, h, k);
    ChosenIsGood(g, g.turn, h, k);
    FinalPlayIsLast(g);
    if k >= 0 { CapturedAddsUp(g, h, k); }
  }

  // ----- the end of a round -----

  predicate IsScored(phase: Phase) {
    phase.RoundSummary? || phase.MatchOver?
  }

  /** Two players, the target, and who is ahead; nobody has won before somebody leads with the target. */
  ghost predicate Verdict(g: Game)
    requires |g.players| == 2
  {
    var you, opp := g.players[0].score, g.players[1].score;
    if IsScored(g.phase) then
      && (g.phase.MatchOver? <==> (you >= 11 || opp >= 11) && you != opp)
      && g.winner == (if g.phase.RoundSummary? then NOBODY else if you > opp then 0 else 1)
    else g.winner == NOBODY
  }

  function TotalOf(s: RoundScore, p: nat): int {
    if p == 0 then s.total.first else s.total.second
  }

  /** The cards left on the table join the pile of the last to capture. */
  ghost predicate SweptRight(g: Game, m: Game)
    requires |g.players| == |m.players| == 2
  {
    && m.table == []
    && forall p, c :: 0 <= p < 2 ==>
         CopiesIn(m.players[p].captured, c) == CopiesIn(g.players[p].captured, c) + if p == g.lastCapturer then CopiesIn(g.table, c) else 0
  }

  lemma SweepGoes(g: Game)
    requires |g.players| == 2 && (g.lastCapturer == 0 || g.lastCapturer == 1)
    ensures |g.Finalize().players| == 2 && SweptRight(g, g.Finalize())
  {
    forall p, c | 0 <= p < 2
      ensures CopiesIn(g.Finalize().players[p].captured, c) ==
              CopiesIn(g.players[p].captured, c) + if p == g.lastCapturer then CopiesIn(g.table, c) else 0
    {
      SumCounts(g.players[p].captured, g.table, c);
    }
  }

  /** The round's points join the scores and settle the match. */
  lemma FinalizePays(g: Game)
    requires |g.players| == 2 && g.winner == NOBODY
    ensures var m := g.Finalize();
            && |m.players| == 2 && IsScored(m.phase) && Verdict(m)
            && forall p :: 0 <= p < 2 ==>
                 && m.players[p].score == g.players[p].score + TotalOf(m.lastScore, p)
                 && m.players[p].scope == g.players[p].scope
  {
  }

  /** What a play does to the boards: a sweep before the last play is a scopa, the last play pays the round. */
  ghost predicate BoardsAfter(g: Game, m: Game)
    requires |g.players| == |m.players| == 2
  {
    && Remaining(m) == Remaining(g) - 1 && m.starter == g.starter && m.round == g.round
    && (IsScored(m.phase) <==> Remaining(m) == 0)
    && forall p :: 0 <= p < 2 ==>
         && m.players[p].scope == g.players[p].scope + Point(p == g.turn && m.table == [] && Remaining(m) > 0)
         && m.players[p].score == g.players[p].score + if Remaining(m) == 0 then TotalOf(m.lastScore, p) else 0
  }

  lemma SortSizes(m: Game)
    requires |m.players| == 2
    ensures |m.SortHands().players| == 2 && m.SortHands().InHands() == m.InHands()
  {
    SortKeepsHand(m.players[0].hand);
    SortKeepsHand(m.players[1].hand);
  }

  lemma SettledBoards(m: Game, p: nat)
    requires |m.players| == 2 && p < 2 && m.winner == NOBODY
    ensures var g := m.Settled(p);
            && |g.players| == 2 && Verdict(g) && g.starter == m.starter && g.round == m.round
            && (IsScored(g.phase) <==> Remaining(m) == 0) && (Remaining(m) > 0 ==> g.table == m.table)
            && forall q :: 0 <= q < 2 ==>
                 && g.players[q].scope == m.players[q].scope
                 && g.players[q].score == m.players[q].score + if Remaining(m) == 0 then TotalOf(g.lastScore, q) else 0
  {
    var sorted := m.SortHands().(turn := 1 - p);
    SortSizes(m);
    FinalizePays(sorted.(options := [], selected := -1));
  }

  lemma PlayBoards(g: Game, h: nat, k: int)
    requires Legal(g, h, k) && g.winner == NOBODY
    ensures var m := g.Apply(g.turn, h, k); |m.players| == 2 && BoardsAfter(g, m) && Verdict(m)
  {
    var moved := g.Moved(g.turn, h, k);
    PlayMovesRight(g, h, k);
    MovedKeepsOngoing(g, g.turn, h, k);
    SettledBoards(moved, g.turn);
    ApplyKeepsInv(g, g.turn, h, k);
  }

  // ----- whole runs -----

  /** Nothing is played: piles, table and boards stay. */
  ghost predicate Idle(g: Game, m: Game)
    requires |g.players| == |m.players| == 2
  {
    && Remaining(m) == Remaining(g) && m.table == g.table && m.starter == g.starter && m.round == g.round
    && m.winner == g.winner && (if IsScored(g.phase) then m == g else !IsScored(m.phase))
    && forall p :: 0 <= p < 2 ==>
         && m.players[p].captured == g.players[p].captured && m.players[p].scope == g.players[p].scope
         && m.players[p].score == g.players[p].score
  }

  /** One of the legal plays of the player on turn. */
  ghost predicate APlay(g: Game, m: Game) {
    exists options, h, k :: Legal(g.(options := options), h, k) && m == g.(options := options).Apply(g.turn, h, k)
  }

  /** The events that begin a round. */
  predicate Begins(g: Game, e: Event) {
    (e.TapContinue? && IsScored(g.phase)) || (e.NewGame? && (g.phase.PlayerTurn? || g.phase.ChooseCapture?))
  }

  /** A round begins with clean boards; the other player starts it; a new match begins at nothing. */
  ghost predicate Begun(g: Game, m: Game)
    requires |g.players| == |m.players| == 2
  {
    && Remaining(m) == ROUND_PLAYS && m.winner == NOBODY && !IsScored(m.phase)
    && m.round == (if g.phase.RoundSummary? then g.round + 1 else 1) && m.starter == m.round % 2
    && forall p :: 0 <= p < 2 ==>
         && m.players[p].captured == [] && m.players[p].scope == 0
         && m.players[p].score == if g.phase.RoundSummary? then g.players[p].score else 0
  }

  lemma StartBegins(g: Game, shuffled: seq<int>)
    requires |g.players| == 2 && Shuffled(shuffled)
    ensures var m := g.StartRound(shuffled);
            && |m.players| == 2 && Remaining(m) == ROUND_PLAYS && m.winner == NOBODY && !IsScored(m.phase)
            && m.round == g.round && m.starter == m.round % 2
            && forall p :: 0 <= p < 2 ==>
                 m.players[p].captured == [] && m.players[p].scope == 0 && m.players[p].score == g.players[p].score
  {
    StartKeepsInv(g, shuffled);
  }

  lemma EventBegins(g: Game, e: Event)
    requires |g.players| == 2 && RealShuffle(e) && Begins(g, e)
    ensures |g.Step(e).players| == 2 && Begun(g, g.Step(e))
  {
    match e
    case TapContinue(shuffled) =>
      if g.phase.RoundSummary? {
        StartBegins(g.(round := g.round + 1), shuffled);
      } else {
        StartBegins(g.(round := 1, players := [g.players[0].(score := 0), g.players[1].(score := 0)]), shuffled);
      }
    case NewGame(shuffled) =>
      StartBegins(g.(round := 1, players := [g.players[0].(score := 0), g.players[1].(score := 0)]), shuffled);
  }

  lemma DealIsIdle(g: Game)
    requires BetweenHands(g) && !IsScored(g.phase)
    ensures |g.DealPending().players| == 2 && Idle(g, g.DealPending())
  {
    DealPendingKeepsInv(g);
  }

  lemma ChoiceIsPlay(g: Game, h: int)
    requires ToMove(g) && g.turn == 0 && !IsScored(g.phase)
    ensures var m := g.ChooseCard(h); APlay(g, m) || (|m.players| == 2 && Idle(g, m))
  {
    if 0 <= h < |g.players[0].hand| {
      var choices := CaptureOptions(g.players[0].hand[h], g.table);
      if |choices| <= 1 {
        var k := if choices == [] then -1 else 0;
        OptionsKeepToMove(g, choices);
        assert Legal(g.(options := choices), h, k);
        assert g.ChooseCard(h) == g.(options := choices).Apply(g.turn, h, k);
      }
    }
  }

  lemma BotMoveIsPlay(g: Game)
    requires ToMove(g) && g.turn == 1 && g.phase.BotTurn?
    ensures APlay(g, g.BotTurnMove())
  {
    BestMoveIsFirstBest(g, |g.players[1].hand|);
    var move := g.BestMove(|g.players[1].hand|);
    var choices := CaptureOptions(g.players[1].hand[move.handIndex], g.table);
    OptionsKeepToMove(g, choices);
    assert Legal(g.(options := choices), move.handIndex, move.captureIndex);
    assert g.BotTurnMove() == g.(options := choices).Apply(g.turn, move.handIndex, move.captureIndex);
  }

  lemma OptionIsPlay(g: Game, k: nat)
    requires Choosing(g) && !IsScored(g.phase)
    ensures APlay(g, g.ChooseOption(k)) || g.ChooseOption(k) == g
  {
    if k < |g.options| {
      assert g.(options := g.options) == g;
      assert Legal(g.(options := g.options), g.selected, k);
    }
  }

  /** Every event plays a card legally, begins a round, or changes nothing that counts. */
  lemma EventKinds(g: Game, e: Event)
    requires |g.players| == 2 && Inv(g) && RealShuffle(e)
    ensures |g.Step(e).players| == 2
    ensures if Begins(g, e) then Begun(g, g.Step(e)) else APlay(g, g.Step(e)) || Idle(g, g.Step(e))
  {
    StepKeepsInv(g, e);
    if Begins(g, e) {
      EventBegins(g, e);
    } else {
      match e
      case TapCard(h) => if g.phase.PlayerTurn? || (g.phase.ChooseCapture? && g.selected != h) { ChoiceIsPlay(g, h); }
      case TapOption(k) => if g.phase.ChooseCapture? { OptionIsPlay(g, k); }
      case BotMoves => if g.phase.BotTurn? { BotMoveIsPlay(g); }
      case DealTimer => if g.phase.InitRound? { DealIsIdle(g); }
      case _ =>
    }
  }

  /** A step that clears the table with a play that is not the last of the round, by player `p`. */
  predicate Sweeps(g: Game, m: Game, p: nat)
    requires |g.players| == |m.players| == 2
  {
    g.turn == p && Remaining(m) == Remaining(g) - 1 && m.table == [] && Remaining(m) > 0
  }

  /** A play that sweeps the table counts for its player; a round begins at none. */
  ghost function ScopeAfter(g: Game, e: Event, m: Game, p: nat, before: nat): nat
    requires |g.players| == |m.players| == 2
  {
    if Begins(g, e) then 0 else before + Point(Sweeps(g, m, p))
  }

  /** The last play of a round brings its total; a match begins at nothing. */
  ghost function ScoreAfter(g: Game, e: Event, m: Game, p: nat, before: int): int
    requires |g.players| == |m.players| == 2
  {
    if Begins(g, e) then (if g.phase.RoundSummary? then before else 0)
    else before + if Remaining(g) == 1 && Remaining(m) == 0 then TotalOf(m.lastScore, p) else 0
  }

  /** The scopa points of player `p`: one per sweep since the round began. */
  ghost function SweepsOf(g: Game, events: seq<Event>, p: nat, before: nat): nat
    requires |g.players| == 2 && Inv(g) && forall e :: e in events ==> RealShuffle(e)
    decreases |events|
  {
    if events == [] then before
    else
      StepKeepsInv(g, events[0]);
      var m := g.Step(events[0]);
      SweepsOf(m, events[1..], p, ScopeAfter(g, events[0], m, p, before))
  }

  /** The match score of player `p`: the totals of the rounds scored since the match began. */
  ghost function PointsOf(g: Game, events: seq<Event>, p: nat, before: int): int
    requires |g.players| == 2 && Inv(g) && forall e :: e in events ==> RealShuffle(e)
    decreases |events|
  {
    if events == [] then before
    else
      StepKeepsInv(g, events[0]);
      var m := g.Step(events[0]);
      PointsOf(m, events[1..], p, ScoreAfter(g, events[0], m, p, before))
  }

  /** Player `p`'s boards hold these scopa points and this score. */
  ghost predicate BoardIs(g: Game, p: nat, scope: nat, score: int)
    requires |g.players| == 2 && p < 2
  {
    g.players[p].scope == scope && g.players[p].score == score
  }

  ghost predicate InOrder(g: Game)
    requires |g.players| == 2
  {
    Verdict(g) && g.starter == g.round % 2
  }

  lemma PlayKeepsOrder(g: Game, m: Game)
    requires |g.players| == 2 && Inv(g) && InOrder(g) && APlay(g, m)
    ensures |m.players| == 2 && BoardsAfter(g, m) && InOrder(m)
  {
    var options, h, k :| Legal(g.(options := options), h, k) && m == g.(options := options).Apply(g.turn, h, k);
    PlayBoards(g.(options := options), h, k);
  }

  lemma StepKeepsOrder(g: Game, e: Event)
    requires |g.players| == 2 && Inv(g) && RealShuffle(e) && InOrder(g)
    ensures |g.Step(e).players| == 2 && InOrder(g.Step(e))
    ensures !Begins(g, e) ==> Idle(g, g.Step(e)) || BoardsAfter(g, g.Step(e))
    ensures Begins(g, e) ==> Begun(g, g.Step(e))
  {
    EventKinds(g, e);
    if !Begins(g, e) && APlay(g, g.Step(e)) { PlayKeepsOrder(g, g.Step(e)); }
  }

  lemma StepKeepsBoard(g: Game, e: Event, p: nat, scope: nat, score: int)
    requires |g.players| == 2 && Inv(g) && RealShuffle(e) && InOrder(g) && p < 2 && BoardIs(g, p, scope, score)
    ensures var m := g.Step(e);
            && |m.players| == 2 && Inv(m) && InOrder(m)
            && BoardIs(m, p, ScopeAfter(g, e, m, p, scope), ScoreAfter(g, e, m, p, score))
  {
    StepKeepsInv(g, e);
    StepKeepsOrder(g, e);
  }

  lemma {:induction false} RunKeepsBoards(g: Game, events: seq<Event>, p: nat, scope: nat, score: int)
    requires |g.players| == 2 && Inv(g) && InOrder(g) && p < 2 && BoardIs(g, p, scope, score)
    requires forall e :: e in events ==> RealShuffle(e)
    ensures var end := Run(g, events);
            && |end.players| == 2 && InOrder(end)
            && BoardIs(end, p, SweepsOf(g, events, p, scope), PointsOf(g, events, p, score))
    decreases |events|
  {
    if events != [] {
      var e, m := events[0], g.Step(events[0]);
      StepKeepsBoard(g, e, p, scope, score);
      RunKeepsBoards(m, events[1..], p, ScopeAfter(g, e, m, p, scope), ScoreAfter(g, e, m, p, score));
    }
  }

  lemma ScoredIsAwarded(g: Game)
    requires RoundScored(g)
    ensures Awards(g.lastScore, g.players[0].captured, g.players[1].captured)
    ensures g.lastScore.scope == Pair(g.players[0].scope, g.players[1].scope)
  {
    forall c | c in g.players[0].captured || c in g.players[1].captured ensures IsCard(c) {
      PilesAreTheDeck(g, c);
    }
    ScoreIsAwarded(g.players[0].captured, g.players[1].captured, Pair(g.players[0].scope, g.players[1].scope));
  }

  /**
   In every run from a fresh round: scopa points count the sweeps of the round and match scores the
   totals of the rounds; every scored round is awarded by the piles; the match is over exactly when a
   side leads with the target, and that side is named; and the players take turns in starting.
   */
  lemma EveryRoundIsAwarded(g: Game, shuffled: seq<int>, events: seq<Event>, p: nat)
    requires |g.players| == 2 && Shuffled(shuffled) && p < 2 && forall e :: e in events ==> RealShuffle(e)
    ensures var start := g.StartRound(shuffled);
            && |start.players| == 2 && Inv(start)
            && var end := Run(start, events);
               && |end.players| == 2
               && (IsScored(end.phase) ==> Awards(end.lastScore, end.players[0].captured, end.players[1].captured))
               && (IsScored(end.phase) ==> end.lastScore.scope == Pair(end.players[0].scope, end.players[1].scope))
               && Verdict(end) && end.starter == end.round % 2
               && end.players[p].scope == SweepsOf(start, events, p, 0)
               && end.players[p].score == PointsOf(start, events, p, g.players[p].score)
  {
    StartKeepsInv(g, shuffled);
    StartBegins(g, shuffled);
    var start := g.StartRound(shuffled);
    RunKeepsBoards(start, events, p, 0, g.players[p].score);
    RunKeepsInv(start, events);
    var end := Run(start, events);
    if IsScored(end.phase) { ScoredIsAwarded(end); }
  }
}
