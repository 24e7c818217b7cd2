/**
 What the Scopa program prefers, without the weights it adds up: it clears the table if it can, else
 takes the settebello, else captures; and the card it lays down is the one that gives least away.
 */
module ScopaChoices {
  import opened ScopaCaptures
  import opened Scopa
  import opened ScopaRounds

  /** The settebello, the seven of denari, is card 24. */
  const SETTEBELLO := 24

  /** Cards laid down first come first: no seven and no denari, then denari, then sevens, then the settebello. */
  function Dearness(card: int): nat {
    if card == SETTEBELLO then 3 else if card / 4 == 6 then 2 else if card % 4 == 0 then 1 else 0
  }

  /** `a` is laid down rather than `b`. */
  predicate Cheaper(a: int, b: int) {
    Dearness(a) < Dearness(b) || (Dearness(a) == Dearness(b) && PrimieraValue(a) < PrimieraValue(b))
  }

  /** On any table the risk of laying a card down follows that order and nothing else. */
  lemma RiskFollowsOrder(table: seq<int>, a: int, b: int)
    requires IsCard(a) && IsCard(b)
    ensures DiscardRisk(table, a) < DiscardRisk(table, b) <==> Cheaper(a, b)
  {
  }

  // ----- captures -----

  ghost predicate Gets(card: int, table: seq<int>, indices: seq<int>) {
    card == SETTEBELLO || exists k :: 0 <= k < |indices| && 0 <= indices[k] < |table| && table[indices[k]] == SETTEBELLO
  }

  ghost predicate IsCapture(g: Game, h: nat, k: int) {
    Candidate(g, h, k) && k >= 0
  }

  ghost function TakenBy(g: Game, h: nat, k: int): seq<int>
    requires IsCapture(g, h, k)
  {
    CaptureOptions(g.players[1].hand[h], g.table)[k]
  }

  /** A capture of every table card, of the settebello. */
  ghost predicate Clears(g: Game, h: nat, k: int) {
    IsCapture(g, h, k) && |TakenBy(g, h, k)| == |g.table|
  }

  ghost predicate GetsSettebello(g: Game, h: nat, k: int) {
    IsCapture(g, h, k) && Gets(g.players[1].hand[h], g.table, TakenBy(g, h, k))
  }

  function Denari(cards: seq<int>): nat {
    if cards == [] then 0 else (if cards[0] % 4 == 0 then 1 else 0) + Denari(cards[1..])
  }

  function CardsAt(table: seq<int>, indices: seq<int>): seq<int> {
    if indices == [] then [] else (if 0 <= indices[0] < |table| then [table[indices[0]]] else []) + CardsAt(table, indices[1..])
  }

  lemma {:induction false} SumsBound(g: Game, indices: seq<int>)
    requires Within(indices, 0, |g.table|) && forall i :: 0 <= i < |g.table| ==> IsCard(g.table[i])
    ensures |indices| <= SumAt(Values(g.table), indices)
    ensures 0 <= g.TakenDenari(indices) == Denari(CardsAt(g.table, indices)) <= |indices|
    ensures 10 * |indices| <= g.TakenPrimiera(indices) <= 21 * |indices|
    decreases |indices|
  {
    if indices != [] {
      SumsBound(g, indices[1..]);
      assert CardsAt(g.table, indices)[1..] == CardsAt(g.table, indices[1..]);
    }
  }

  lemma TableIsCards(g: Game)
    requires |g.players| == 2 && Partition(g)
    ensures forall i :: 0 <= i < |g.table| ==> IsCard(g.table[i])
  {
    forall i | 0 <= i < |g.table| ensures IsCard(g.table[i]) {
      assert g.table[i] in g.table;
      HeldIsCard(g, g.table[i]);
    }
  }

  /** A capture takes at most ten cards, real ones. */
  lemma CaptureIsSmall(g: Game, h: nat, k: int)
    requires ToMove(g) && g.turn == 1 && IsCapture(g, h, k)
    ensures var x := TakenBy(g, h, k);
            && IsCard(g.players[1].hand[h]) && 1 <= |x| <= 10
            && 0 <= g.TakenDenari(x) == Denari(CardsAt(g.table, x)) <= |x| && 10 * |x| <= g.TakenPrimiera(x) <= 21 * |x|
  {
    var card, x := g.players[1].hand[h], TakenBy(g, h, k);
    assert card in g.players[1].hand;
    HeldIsCard(g, card);
    TableValues(g);
    TableIsCards(g);
    OptionIsAllowed(card, g.table, k);
    if HasEqual(Values(g.table), ValueOf(card)) { assert x == [x[0]]; }
    SumsBound(g, x);
  }

  lemma SettebelloIsTwentyFour(c: int)
    requires IsCard(c)
    ensures SuitOf(c) == DENARI && ValueOf(c) == 7 <==> c == SETTEBELLO
  {
  }

  lemma TakesIsGets(g: Game, card: int, indices: seq<int>)
    requires |g.players| == 2 && Partition(g) && IsCard(card)
    ensures g.TakesSettebello(card, indices) <==> Gets(card, g.table, indices)
  {
    TableIsCards(g);
    SettebelloIsTwentyFour(card);
    forall k | 0 <= k < |indices| && 0 <= indices[k] < |g.table|
      ensures SuitOf(g.table[indices[k]]) == DENARI && ValueOf(g.table[indices[k]]) == 7 <==> g.table[indices[k]] == SETTEBELLO
    {
      SettebelloIsTwentyFour(g.table[indices[k]]);
    }
  }

  /** How a capture is ranked: clearing the table before the last play, then the settebello, then the rest. */
  ghost function Grade(g: Game, h: nat, k: int): nat {
    if k < 0 then 0
    else 1 + (if GetsSettebello(g, h, k) then 1 else 0) + if Clears(g, h, k) && Remaining(g) > 1 then 2 else 0
  }

  /** The denari a capture brings, the played card among them. */
  ghost function DenariOf(g: Game, h: nat, k: int): int
    requires IsCapture(g, h, k)
  {
    (if g.players[1].hand[h] % 4 == 0 then 1 else 0) + Denari(CardsAt(g.table, TakenBy(g, h, k)))
  }

  /** The weights: fifty thousand a grade, 2800 a denaro, and less than that for everything else about as many cards. */
  lemma WorthIsWeighed(g: Game, h: nat, k: int)
    requires ToMove(g) && g.turn == 1 && IsCapture(g, h, k)
    ensures var n := |TakenBy(g, h, k)|;
            var rest := Worth(g, h, k) - 50_000 * (Grade(g, h, k) - 1) - 2_800 * DenariOf(g, h, k);
            && 1 <= n <= 10 && 0 <= DenariOf(g, h, k) <= n + 1 && 430 * (n + 1) <= rest <= 529 * (n + 1) + 240
  {
    CaptureIsSmall(g, h, k);
    TakesIsGets(g, g.players[1].hand[h], TakenBy(g, h, k));
    FinalPlayIsLast(g);
  }

  lemma WorthIsGraded(g: Game, h: nat, k: int)
    requires ToMove(g) && g.turn == 1 && IsCapture(g, h, k)
    ensures 50_000 * (Grade(g, h, k) - 1) < Worth(g, h, k) < 50_000 * Grade(g, h, k)
  {
    WorthIsWeighed(g, h, k);
  }

  lemma DiscardIsNegative(g: Game, h: nat)
    requires ToMove(g) && g.turn == 1 && Candidate(g, h, -1)
    ensures Worth(g, h, -1) < 0 && IsCard(g.players[1].hand[h])
  {
    assert g.players[1].hand[h] in g.players[1].hand;
    HeldIsCard(g, g.players[1].hand[h]);
  }

  lemma BetterGradeWins(g: Game, h: nat, k: int, i: nat, j: int)
    requires ToMove(g) && g.turn == 1 && Candidate(g, h, k) && Candidate(g, i, j) && Worth(g, i, j) <= Worth(g, h, k)
    ensures Grade(g, i, j) <= Grade(g, h, k)
  {
    if k >= 0 { WorthIsGraded(g, h, k); } else { DiscardIsNegative(g, h); }
    if j >= 0 { WorthIsGraded(g, i, j); }
  }

  /** A capture of the same grade and as many cards. */
  ghost predicate Alike(g: Game, i: nat, j: int, h: nat, k: int)
    requires IsCapture(g, h, k)
  {
    IsCapture(g, i, j) && Grade(g, i, j) == Grade(g, h, k) && |TakenBy(g, i, j)| == |TakenBy(g, h, k)|
  }

  /** Among captures of as many cards that do the same, those of more denari are preferred. */
  lemma MoreDenariWin(g: Game, h: nat, k: int, i: nat, j: int)
    requires ToMove(g) && g.turn == 1 && IsCapture(g, h, k) && Alike(g, i, j, h, k) && Worth(g, i, j) <= Worth(g, h, k)
    ensures DenariOf(g, i, j) <= DenariOf(g, h, k)
  {
    WorthIsWeighed(g, h, k);
    WorthIsWeighed(g, i, j);
  }

  lemma CheapestIsLaidDown(g: Game, move: BotMove)
    requires ToMove(g) && g.turn == 1 && FirstBest(g, |g.players[1].hand|, -1, move) && move.captureIndex < 0
    ensures forall i :: 0 <= i < |g.players[1].hand| ==> !Cheaper(g.players[1].hand[i], g.players[1].hand[move.handIndex])
  {
    var hand, h := g.players[1].hand, move.handIndex;
    forall i | 0 <= i < |hand| ensures !Cheaper(hand[i], hand[h]) {
      var choices := CaptureOptions(hand[i], g.table);
      var j := if choices == [] then -1 else 0;
      assert Candidate(g, i, j);
      BetterGradeWins(g, h, -1, i, j);
      DiscardIsNegative(g, h);
      DiscardIsNegative(g, i);
      RiskFollowsOrder(g.table, hand[i], hand[h]);
    }
  }

  /**
   The program plays a move of the best grade: it clears the table when it can before the last play, and
   takes the settebello when it can, best of all both; else it captures if it can. Of the captures of
   that grade and of as many cards none has more denari. With nothing to capture it lays down a card no
   other card of its hand is cheaper than.
   */
  lemma BotPrefers(g: Game)
    requires ToMove(g) && g.turn == 1 && g.phase.BotTurn?
    ensures exists h: nat, k: int ::
              && Candidate(g, h, k)
              && g.BotTurnMove() == g.(options := CaptureOptions(g.players[1].hand[h], g.table)).Apply(1, h, k)
              && (forall i: nat, j: int :: Candidate(g, i, j) ==> Grade(g, i, j) <= Grade(g, h, k))
              && (k >= 0 ==> forall i: nat, j: int :: Alike(g, i, j, h, k) ==> DenariOf(g, i, j) <= DenariOf(g, h, k))
              && (k < 0 ==> forall i :: 0 <= i < |g.players[1].hand| ==> !Cheaper(g.players[1].hand[i], g.players[1].hand[h]))
  {
    var n := |g.players[1].hand|;
    BestMoveIsFirstBest(g, n);
    var move := g.BestMove(n);
    var h, k := move.handIndex, move.captureIndex;
    forall i: nat, j: int | Candidate(g, i, j) ensures Grade(g, i, j) <= Grade(g, h, k) {
      BetterGradeWins(g, h, k, i, j);
    }
    if k < 0 {
      CheapestIsLaidDown(g, move);
    } else {
      forall i: nat, j: int | Alike(g, i, j, h, k) ensures DenariOf(g, i, j) <= DenariOf(g, h, k) {
        MoreDenariWin(g, h, k, i, j);
      }
    }
  }

  // ----- the order of the options -----

  /** Captures of more cards are offered first. */
  lemma LargerFirst(played: int, table: seq<int>, i: nat, j: nat)
    requires ValueOf(played) > 0 && forall t :: 0 <= t < |table| ==> ValueOf(table[t]) > 0
    requires i < j < |CaptureOptions(played, table)|
    ensures |CaptureOptions(played, table)[i]| >= |CaptureOptions(played, table)[j]|
  {
    OptionIsAllowed(played, table, i);
    OptionIsAllowed(played, table, j);
    if !HasEqual(Values(table), ValueOf(played)) { SortKeeps(table, Dfs(Values(table), [], 0, ValueOf(played))); }
  }

  function RankTurn(card: int): int {
    match card / 4
    case 0 => 6
    case 8 => 7
    case 7 => 8
    case 9 => 9
    case _ => card / 4 - 1
  }

  function SuitTurn(card: int): int {
    match card % 4
    case 3 => 0
    case 1 => 1
    case 0 => 2
    case _ => 3
  }

  /** Where a card comes among labels: two to seven, ace, rider, foot, king; within a rank clubs, cups, coins, swords. */
  function LabelTurn(card: int): int {
    4 * RankTurn(card) + SuitTurn(card)
  }

  lemma TwoLetters(a: char, b: char, c: char, d: char)
    ensures LexLess([a, b], [c, d]) <==> a < c || (a == c && b < d)
  {
    assert [a, b][1..] == [b] && [c, d][1..] == [d] && [b][1..] == [] && [d][1..] == [];
    assert LexLess([b], [d]) <==> b < d || (b == d && LexLess([], []));
  }

  lemma OneLabel(table: seq<int>, i: nat)
    requires i < |table| && IsCard(table[i])
    ensures var card := table[i];
            |RankLabel(ValueOf(card))| == 1 && |SuitShort(SuitOf(card))| == 1
            && Label(table, [i]) == [RankLabel(ValueOf(card))[0], SuitShort(SuitOf(card))[0]]
  {
  }

  lemma RankLetters(a: int, b: int)
    requires IsCard(a) && IsCard(b)
    ensures |RankLabel(ValueOf(a))| == |RankLabel(ValueOf(b))| == 1
    ensures RankLabel(ValueOf(a))[0] < RankLabel(ValueOf(b))[0] <==> RankTurn(a) < RankTurn(b)
    ensures RankLabel(ValueOf(a))[0] == RankLabel(ValueOf(b))[0] <==> RankTurn(a) == RankTurn(b)
  {
  }

  lemma SuitLetters(a: int, b: int)
    requires IsCard(a) && IsCard(b)
    ensures |SuitShort(SuitOf(a))| == |SuitShort(SuitOf(b))| == 1
    ensures SuitShort(SuitOf(a))[0] < SuitShort(SuitOf(b))[0] <==> SuitTurn(a) < SuitTurn(b)
  {
  }

  /** The labels of single cards are in that order. */
  lemma LabelsInTurn(table: seq<int>, i: nat, j: nat)
    requires i < |table| && j < |table| && IsCard(table[i]) && IsCard(table[j])
    ensures LexLess(Label(table, [i]), Label(table, [j])) <==> LabelTurn(table[i]) < LabelTurn(table[j])
  {
    OneLabel(table, i);
    OneLabel(table, j);
    RankLetters(table[i], table[j]);
    SuitLetters(table[i], table[j]);
    var a, b := Label(table, [i]), Label(table, [j]);
    TwoLetters(a[0], a[1], b[0], b[1]);
  }
}
