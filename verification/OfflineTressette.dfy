/**
 The offline Tressette table: the rules state and the flights that carry cards between places.
 A flight is a container with a "has it arrived" question that each frame answers; the layout and
 timing behind the answer are not part of this model.
 */
module OfflineTressette {
  import opened TressetteCards

  const MATCH_WIN_THIRDS := 63

  type Card = c: int | IsCard(c) witness 0

  datatype Flight = Flight(card: Card, player: nat)

  datatype Draw = Draw(card: Card, player: nat, done: bool)

  function Power(card: Card): int {
    TrickPower(RankOf(card))
  }

  function Points(card: Card): nat {
    CardPoints(RankOf(card))
  }

  function TeamOf(player: nat): nat {
    player % 2
  }

  // ----- hands -----

  /** By suit, the strongest first. */
  predicate Before(a: Card, b: Card) {
    Suit(a) < Suit(b) || (Suit(a) == Suit(b) && Power(a) > Power(b))
  }

  function InsertCard(hand: seq<Card>, card: Card): seq<Card> {
    if hand == [] || !Before(hand[0], card) then [card] + hand else [hand[0]] + InsertCard(hand[1..], card)
  }

  function SortHand(hand: seq<Card>): seq<Card> {
    if hand == [] then [] else InsertCard(SortHand(hand[1..]), hand[0])
  }

  predicate HasSuit(hand: seq<Card>, suit: int) {
    exists c :: c in hand && Suit(c) == suit
  }

  /** Cards go round the table from the back of the deck, `k` of `n` already dealt. */
  function DealFrom(deck: seq<Card>, hands: seq<seq<Card>>, players: nat, k: nat, n: nat): (r: (seq<Card>, seq<seq<Card>>))
    requires |hands| == 4 && 0 < players <= 4 && k <= n && n - k <= |deck|
    ensures |r.1| == 4
    decreases n - k
  {
    if k == n then (deck, hands)
    else
      var p := k % players;
      DealFrom(deck[..|deck| - 1], hands[p := hands[p] + [deck[|deck| - 1]]], players, k + 1, n)
  }

  function SortHands(hands: seq<seq<Card>>): (r: seq<seq<Card>>)
    requires |hands| == 4
    ensures |r| == 4
  {
    [SortHand(hands[0]), SortHand(hands[1]), SortHand(hands[2]), SortHand(hands[3])]
  }

  // ----- the program's choice -----

  /** Cheaper first, weaker among equally cheap ones. */
  predicate Cheaper(a: Card, b: Card) {
    Points(a) < Points(b) || (Points(a) == Points(b) && Power(a) < Power(b))
  }

  /** The first of the cheapest cards at the given hand positions. */
  function Cheapest(hand: seq<Card>, at: seq<nat>): (k: nat)
    requires at != [] && forall i :: 0 <= i < |at| ==> at[i] < |hand|
    ensures k in at
  {
    if |at| == 1 then at[0]
    else
      var k := Cheapest(hand, at[..|at| - 1]);
      var last := at[|at| - 1];
      if Cheaper(hand[last], hand[k]) then last else k
  }

  predicate Beats(card: Card, lead: Card) {
    Suit(card) == Suit(lead) && Power(card) > Power(lead)
  }

  /** What taking the trick with a card costs; 100 if it does not beat the lead. */
  function TakingPower(card: Card, lead: Card): int {
    if Beats(card, lead) then Power(card) else 100
  }

  function WeakestTaker(hand: seq<Card>, at: seq<nat>, lead: Card): (k: nat)
    requires at != [] && forall i :: 0 <= i < |at| ==> at[i] < |hand|
    ensures k in at
  {
    if |at| == 1 then at[0]
    else
      var k := WeakestTaker(hand, at[..|at| - 1], lead);
      var last := at[|at| - 1];
      if TakingPower(hand[last], lead) < TakingPower(hand[k], lead) then last else k
  }

  /** Following: the weakest legal card that beats the lead, else the cheapest. */
  function FollowCard(hand: seq<Card>, legal: seq<nat>, lead: Card): (k: nat)
    requires legal != [] && forall i :: 0 <= i < |legal| ==> legal[i] < |hand|
    ensures k in legal
  {
    var taker := WeakestTaker(hand, legal, lead);
    if Beats(hand[taker], lead) then taker else Cheapest(hand, legal)
  }

  function Positions(n: nat): (at: seq<nat>)
    ensures |at| == n && forall i :: 0 <= i < n ==> at[i] == i
  {
    seq(n, i => i)
  }

  function PointsOf(cards: seq<Card>): nat {
    if cards == [] then 0 else PointsOf(cards[..|cards| - 1]) + Points(cards[|cards| - 1])
  }

  datatype Game = Game(
    deck: seq<Card>, hands: seq<seq<Card>>, trick: seq<Card>, owners: seq<nat>, points: seq<int>,
    players: nat, turn: int, lead: nat, dealer: nat, tricks: nat, roundOver: bool)
  {
    /** Two or four players at a table for four; every card in the trick has its owner. */
    ghost predicate Valid() {
      && |hands| == 4 && |points| == 2 && (players == 2 || players == 4) && turn < players
      && |owners| == |trick| && forall o :: o in owners ==> o < players
    }

    function Next(player: nat): nat
      requires players > 0
    {
      (player + 1) % players
    }

    function Following(player: nat, offset: nat): (p: nat)
      requires players > 0
      ensures p < players
    {
      (player + offset) % players
    }

    predicate AllHandsEmpty()
      requires |hands| == 4 && players <= 4
    {
      forall p :: 0 <= p < players ==> hands[p] == []
    }

    predicate CanPlay(player: int, card: Card)
      requires |hands| == 4 && 0 <= player < 4
    {
      && !roundOver && turn == player
      && (trick == [] || Suit(card) == Suit(trick[0]) || !HasSuit(hands[player], Suit(trick[0])))
    }

    function Winner(): (w: nat)
      requires Valid() && trick != []
      ensures w < players
    {
      assert owners[WinnerSlot(trick, |trick|)] in owners;
      owners[WinnerSlot(trick, |trick|)]
    }

    predicate LastTrick()
      requires |hands| == 4 && players <= 4
    {
      deck == [] && AllHandsEmpty()
    }

    function TrickPoints(): nat
      requires |hands| == 4 && players <= 4
    {
      PointsOf(trick) + if LastTrick() then 1 else 0
    }

    /** The trick's points go to the winner's team; the winner leads. */
    function FinishTrick(): (g: Game)
      requires Valid() && trick != []
      ensures g.Valid()
    {
      var w := Winner();
      var team := TeamOf(w);
      this.(tricks := tricks + 1, roundOver := roundOver || LastTrick(),
            points := points[team := points[team] + TrickPoints()],
            trick := [], owners := [], turn := w, lead := w)
    }

    function LegalFrom(player: nat, n: nat): (at: seq<nat>)
      requires |hands| == 4 && player < 4 && n <= |hands[player]|
      ensures forall i :: 0 <= i < |at| ==> at[i] < n && CanPlay(player, hands[player][at[i]])
    {
      if n == 0 then []
      else LegalFrom(player, n - 1) + if CanPlay(player, hands[player][n - 1]) then [n - 1] else []
    }

    /** Leading: the cheapest card. */
    function AutoCard(player: nat): (k: nat)
      requires |hands| == 4 && player < 4 && hands[player] != []
      requires trick != [] ==> LegalFrom(player, |hands[player]|) != []
      ensures k < |hands[player]|
    {
      var hand := hands[player];
      if trick == [] then Cheapest(hand, Positions(|hand|)) else FollowCard(hand, LegalFrom(player, |hand|), trick[0])
    }
  }

  /** What one frame finds arrived or run out. */
  datatype Frame = Frame(
    dealt: bool, stocked: bool, collected: bool, drawn: set<int>, landed: set<int>,
    compared: bool, rested: bool, botReady: bool, shuffled: seq<Card>)

  datatype Event =
    | Tap(index: nat)
    | NewGame(players: nat, shuffled: seq<Card>)
    | NextFrame(frame: Frame)

  predicate GoodEvent(e: Event) {
    match e
    case Tap(index) => true
    case NewGame(players, shuffled) => (players == 2 || players == 4) && |shuffled| == 40
    case NextFrame(frame) => frame.rested ==> |frame.shuffled| == 40
  }

  /** `collected` remembers the cards of finished tricks; `base` the points the round began with. */
  datatype App = App(
    game: Game, flights: seq<Flight>, draws: seq<Draw>,
    dealing: bool, stocking: bool, collecting: bool, drawing: bool, comparing: bool, resting: bool, bot: bool,
    matchOver: bool, winnerTeam: int, round: nat, collected: seq<Card>, base: int)
  {
    ghost predicate Valid() {
      && game.Valid() && (collecting ==> game.trick != [] && !comparing) && (comparing ==> game.trick != [])
      && (forall f :: f in flights ==> f.player < game.players) && (forall d :: d in draws ==> d.player < game.players)
    }

    // ----- dealing -----

    /** The dealer moves on by one, the player after the dealer leads. */
    function DealtGame(players: nat, lastDealer: nat, points: seq<int>, shuffled: seq<Card>): (g: Game)
      requires (players == 2 || players == 4) && |shuffled| == 40 && |points| == 2
      ensures g.Valid()
    {
      var dealer := (lastDealer + 1) % players;
      var (deck, hands) := DealFrom(shuffled, [[], [], [], []], players, 0, 10 * players);
      var first := (dealer + 1) % players;
      Game(deck, SortHands(hands), [], [], points, players, first, first, dealer, 0, false)
    }

    function NewDeal(players: nat, advance: bool, shuffled: seq<Card>): (a: App)
      requires game.Valid() && (players == 2 || players == 4) && |shuffled| == 40
      ensures a.Valid()
    {
      var points := if advance then game.points else [0, 0];
      Emptied(if advance then round + 1 else 1, points[0] + points[1]).(game := DealtGame(players, game.dealer, points, shuffled))
    }

    /** Nothing flies, nothing waits; cards are being dealt. */
    function Emptied(newRound: nat, newBase: int): App {
      App(game, [], [], true, false, false, false, false, false, false, false, -1, newRound, [], newBase)
    }

    // ----- one card -----

    function StartPlay(player: nat, index: nat): (a: App)
      requires Valid() && player < game.players
      ensures a.Valid()
    {
      var hand := game.hands[player];
      if index >= |hand| || !game.CanPlay(player, hand[index]) then this
      else
        this.(game := game.(hands := game.hands[player := hand[..index] + hand[index + 1..]], turn := -1),
              flights := flights + [Flight(hand[index], player)])
    }

    predicate Busy() {
      matchOver || dealing || stocking || drawing || collecting || resting || flights != [] || comparing || bot
    }

    function TapCard(index: nat): (a: App)
      requires Valid()
      ensures a.Valid()
    {
      if Busy() || game.turn != 0 || game.roundOver then this else StartPlay(0, index)
    }

    function StartBot(): (a: App)
      requires Valid()
      ensures a.Valid()
    {
      var p := game.turn;
      if game.roundOver || p <= 0 || p >= game.players || game.hands[p] == [] then this
      else if game.trick != [] && game.LegalFrom(p, |game.hands[p]|) == [] then this
      else StartPlay(p, game.AutoCard(p))
    }

    /** A played card arrives: compare once everybody has played, otherwise the next player's turn. */
    function Complete(f: Flight): (a: App)
      requires Valid() && f.player < game.players && !collecting
      ensures a.Valid() && a.flights == flights && !a.collecting
    {
      var g := game.(trick := game.trick + [f.card], owners := game.owners + [f.player]);
      if |g.trick| == game.players then this.(game := g, comparing := true)
      else
        var turn := game.Next(f.player);
        this.(game := g.(turn := turn), bot := bot || turn != 0)
    }

    function Land(i: nat, landed: set<int>): (a: App)
      requires Valid() && i <= |flights| && !collecting
      ensures a.Valid() && !a.collecting
      decreases |flights| - i
    {
      if i == |flights| then this
      else if flights[i].card in landed then
        this.(flights := flights[..i] + flights[i + 1..]).Complete(flights[i]).Land(i, landed)
      else Land(i + 1, landed)
    }

    // ----- after a trick -----

    function StartDraws(winner: nat): (a: App)
      requires Valid()
      ensures a.Valid()
    {
      if game.deck == [] then this.(bot := bot || game.turn != 0)
      else this.(drawing := true, draws := []).DrawFor(winner, 0)
    }

    function DrawOne(player: nat): (a: App)
      requires Valid() && game.deck != [] && player < game.players
      ensures a.Valid()
    {
      var n := |game.deck| - 1;
      this.(game := game.(deck := game.deck[..n]), draws := draws + [Draw(game.deck[n], player, false)])
    }

    /** One card each from the back of the deck, the winner first, while there are any. */
    function DrawFor(winner: nat, offset: nat): (a: App)
      requires Valid() && offset <= game.players
      ensures a.Valid()
      decreases game.players - offset
    {
      if offset == game.players || game.deck == [] then this
      else DrawOne(game.Following(winner, offset)).DrawFor(winner, offset + 1)
    }

    function ResolvedWinner(): int
      requires |game.points| == 2
    {
      if game.points[0] == game.points[1] then -1 else if game.points[0] > game.points[1] then 0 else 1
    }

    /** The trick has flown to its winner and is scored. */
    function Finished(): (a: App)
      requires Valid() && collecting
      ensures a.Valid()
    {
      this.(collecting := false, game := game.FinishTrick(), collected := collected + game.trick)
    }

    /** The match, the round or the trick goes on. */
    function GoOn(): (a: App)
      requires Valid()
      ensures a.Valid()
    {
      if game.points[0] >= MATCH_WIN_THIRDS || game.points[1] >= MATCH_WIN_THIRDS then
        this.(winnerTeam := ResolvedWinner(), matchOver := ResolvedWinner() >= 0, game := game.(roundOver := true))
      else if game.roundOver then this.(resting := true)
      else if game.deck != [] then StartDraws(game.lead)
      else this.(bot := bot || game.turn != 0)
    }

    function TrickCollected(): (a: App)
      requires Valid() && collecting
      ensures a.Valid()
    {
      Finished().GoOn()
    }

    function ArriveOne(i: nat): (a: App)
      requires Valid() && i < |draws|
      ensures a.Valid() && |a.draws| == |draws|
    {
      var d := draws[i];
      this.(draws := draws[i := d.(done := true)],
            game := game.(hands := game.hands[d.player := SortHand(game.hands[d.player] + [d.card])]))
    }

    /** Draws that arrive join the hand of their player. */
    function Arrive(i: nat, drawn: set<int>): (a: App)
      requires Valid() && i <= |draws|
      ensures a.Valid()
      decreases |draws| - i
    {
      if i == |draws| then this
      else if draws[i].done || draws[i].card !in drawn then Arrive(i + 1, drawn)
      else ArriveOne(i).Arrive(i + 1, drawn)
    }

    function DrawStep(drawn: set<int>): (a: App)
      requires Valid()
      ensures a.Valid()
    {
      if forall i :: 0 <= i < |draws| ==> draws[i].done then
        this.(drawing := false, draws := [], bot := bot || (!game.roundOver && game.turn != 0))
      else Arrive(0, drawn)
    }

    // ----- a frame -----

    function Compare(compared: bool): (a: App)
      requires Valid()
      ensures a.Valid()
    {
      if flights == [] && comparing && compared then this.(comparing := false, collecting := true) else this
    }

    function RestOrBot(f: Frame): (a: App)
      requires Valid() && (f.rested ==> |f.shuffled| == 40)
      ensures a.Valid()
    {
      if resting then (if f.rested then NewDeal(game.players, true, f.shuffled) else this)
      else if flights == [] && !comparing && bot && f.botReady then this.(bot := false).StartBot()
      else this
    }

    function Update(f: Frame): (a: App)
      requires Valid() && (f.rested ==> |f.shuffled| == 40)
      ensures a.Valid()
    {
      if matchOver then this
      else if dealing then (if f.dealt then this.(dealing := false, stocking := true) else this)
      else if stocking then (if f.stocked then this.(stocking := false, bot := bot || game.turn != 0) else this)
      else if collecting then (if f.collected then TrickCollected() else this)
      else if drawing then DrawStep(f.drawn)
      else Land(0, f.landed).Compare(f.compared).RestOrBot(f)
    }

    function Step(e: Event): (a: App)
      requires Valid() && GoodEvent(e)
      ensures a.Valid()
    {
      match e
      case Tap(index) => TapCard(index)
      case NewGame(players, shuffled) => NewDeal(players, false, shuffled)
      case NextFrame(frame) => Update(frame)
    }
  }
}
