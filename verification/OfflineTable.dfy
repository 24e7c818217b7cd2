/**
 The offline table object: the rules state that taps and frames update in place, loops included.
 Each method is proved to take the object from the state it was in to the state
 `OfflineTressette` gives.
 */
module OfflineTable {
  import opened TressetteCards
  import opened OfflineTressette
  import opened OfflineRounds

  method TrickPointsOf(trick: seq<Card>) returns (points: nat)
    ensures points == PointsOf(trick)
  {
    points := 0;
    for i := 0 to |trick|
      invariant points == PointsOf(trick[..i])
    {
      assert trick[..i + 1][..i] == trick[..i];
      points := points + Points(trick[i]);
    }
    assert trick[..|trick|] == trick;
  }

  lemma RoundSeat(i: nat, players: nat, player: nat)
    requires (players == 2 || players == 4) && player < players
    ensures (i * players + player) % players == player
  {
  }

  /** Ten times round the table, one card each from the back of the deck. */
  method DealRounds(shuffled: seq<Card>, players: nat) returns (deck: seq<Card>, hands: seq<seq<Card>>)
    requires (players == 2 || players == 4) && |shuffled| == 40
    ensures (deck, hands) == DealFrom(shuffled, [[], [], [], []], players, 0, 10 * players)
  {
    deck, hands := shuffled, [[], [], [], []];
    ghost var whole := DealFrom(shuffled, hands, players, 0, 10 * players);
    for i := 0 to 10
      invariant |hands| == 4 && |deck| == 40 - i * players
      invariant DealFrom(deck, hands, players, i * players, 10 * players) == whole
    {
      for player := 0 to players
        invariant |hands| == 4 && |deck| == 40 - i * players - player
        invariant DealFrom(deck, hands, players, i * players + player, 10 * players) == whole
      {
        RoundSeat(i, players, player);
        hands := hands[player := hands[player] + [deck[|deck| - 1]]];
        deck := deck[..|deck| - 1];
      }
    }
  }

  class Table {
    var game: Game
    var flights: seq<Flight>
    var draws: seq<Draw>
    var dealing: bool
    var stocking: bool
    var collecting: bool
    var drawing: bool
    var comparing: bool
    var resting: bool
    var bot: bool
    var matchOver: bool
    var winnerTeam: int
    var round: nat
    ghost var collected: seq<Card>
    ghost var base: int

    ghost function State(): App
      reads this
    {
      App(game, flights, draws, dealing, stocking, collecting, drawing, comparing, resting, bot,
          matchOver, winnerTeam, round, collected, base)
    }

    ghost predicate Valid()
      reads this
    {
      State().Valid()
    }

    /** The window opens with a deal to two players. */
    constructor (shuffled: seq<Card>)
      requires Shuffled(shuffled)
      ensures Inv(State())
    {
      game := Game([], [[], [], [], []], [], [], [0, 0], 2, 0, 0, 1, 0, false);
      flights, draws, collected, collecting, comparing := [], [], [], false, false;
      new;
      NewDealWaits(State(), 2, false, shuffled);
      NewDealKeepsCards(State(), 2, false, shuffled);
      NewDeal(2, false, shuffled);
    }

    // ----- dealing -----

    method ClearFlags()
      modifies `flights, `draws, `stocking, `collecting, `drawing, `comparing, `resting, `bot
      ensures flights == [] && draws == [] && !stocking && !collecting && !drawing && !comparing && !resting && !bot
    {
      flights, draws, stocking, collecting := [], [], false, false;
      drawing, comparing, resting, bot := false, false, false, false;
    }

    method EmptyTable(newRound: nat, ghost newBase: int)
      modifies `flights, `draws, `stocking, `collecting, `drawing, `comparing, `resting, `bot
      modifies `round, `collected, `base, `dealing, `matchOver, `winnerTeam
      ensures State() == old(State()).Emptied(newRound, newBase)
    {
      ClearFlags();
      round, collected, base := newRound, [], newBase;
      dealing, matchOver, winnerTeam := true, false, -1;
    }

    method DealGame(players: nat, points: seq<int>, shuffled: seq<Card>)
      requires (players == 2 || players == 4) && |shuffled| == 40 && |points| == 2
      modifies `game
      ensures game == State().DealtGame(players, old(game.dealer), points, shuffled)
    {
      var deck, hands := DealRounds(shuffled, players);
      var dealer := (game.dealer + 1) % players;
      var first := (dealer + 1) % players;
      game := Game(deck, SortHands(hands), [], [], points, players, first, first, dealer, 0, false);
    }

    method NewDeal(players: nat, advance: bool, shuffled: seq<Card>)
      requires Valid() && (players == 2 || players == 4) && |shuffled| == 40
      modifies this
      ensures Valid() && State() == old(State()).NewDeal(players, advance, shuffled)
    {
      var points := if advance then game.points else [0, 0];
      EmptyTable(if advance then round + 1 else 1, points[0] + points[1]);
      DealGame(players, points, shuffled);
    }

    // ----- one card -----

    method StartPlayCard(player: nat, index: nat)
      requires Valid() && player < game.players
      modifies `game, `flights
      ensures Valid() && State() == old(State()).StartPlay(player, index)
    {
      var hand := game.hands[player];
      if index >= |hand| {
        return;
      }
      var card := hand[index];
      if !game.CanPlay(player, card) {
        return;
      }
      game := game.(hands := game.hands[player := hand[..index] + hand[index + 1..]], turn := -1);
      flights := flights + [Flight(card, player)];
    }

    method TapCard(index: nat)
      requires Valid()
      modifies `game, `flights
      ensures Valid() && State() == old(State()).TapCard(index)
    {
      var busy := matchOver || dealing || stocking || drawing || collecting || resting || flights != [] || comparing || bot;
      if busy || game.turn != 0 || game.roundOver {
        return;
      }
      StartPlayCard(0, index);
    }

    /** The positions of the legal cards. */
    method LegalCards(player: nat) returns (legal: seq<nat>)
      requires Valid() && player < game.players
      ensures legal == game.LegalFrom(player, |game.hands[player]|)
    {
      legal := [];
      for i := 0 to |game.hands[player]|
        invariant legal == game.LegalFrom(player, i)
      {
        if game.CanPlay(player, game.hands[player][i]) {
          legal := legal + [i];
        }
      }
    }

    method ChooseAutoCard(player: nat) returns (k: nat)
      requires Valid() && player < game.players && game.hands[player] != []
      requires game.trick != [] ==> game.LegalFrom(player, |game.hands[player]|) != []
      ensures k == game.AutoCard(player)
    {
      var hand := game.hands[player];
      if game.trick == [] {
        return Cheapest(hand, Positions(|hand|));
      }
      var legal := LegalCards(player);
      k := WeakestTaker(hand, legal, game.trick[0]);
      if Beats(hand[k], game.trick[0]) {
        return k;
      }
      return Cheapest(hand, legal);
    }

    method StartBotCard()
      requires Valid()
      modifies `game, `flights
      ensures Valid() && State() == old(State()).StartBot()
    {
      if game.roundOver || game.turn <= 0 || game.turn >= game.players || game.hands[game.turn] == [] {
        return;
      }
      var player := game.turn;
      SomethingIsLegal(game, player);
      var index := ChooseAutoCard(player);
      StartPlayCard(player, index);
    }

    method CompleteFlight(f: Flight)
      requires Valid() && f.player < game.players && !collecting
      modifies `game, `comparing, `bot
      ensures Valid() && !collecting && State() == old(State()).Complete(f)
    {
      game := game.(trick := game.trick + [f.card], owners := game.owners + [f.player]);
      if |game.trick| == game.players {
        comparing := true;
        return;
      }
      game := game.(turn := game.Next(f.player));
      if game.turn != 0 {
        bot := true;
      }
    }

    method DropFlight(i: nat)
      requires Valid() && i < |flights|
      modifies `flights
      ensures Valid() && State() == old(State()).(flights := old(flights)[..i] + old(flights)[i + 1..])
    {
      flights := flights[..i] + flights[i + 1..];
    }

    method LandFlights(landed: set<int>)
      requires Valid() && !collecting
      modifies `game, `flights, `comparing, `bot
      ensures Valid() && !collecting && State() == old(State()).Land(0, landed)
    {
      ghost var end := State().Land(0, landed);
      var i := 0;
      while i < |flights|
        invariant i <= |flights| && Valid() && !collecting && State().Land(i, landed) == end
        decreases |flights| - i
      {
        if flights[i].card in landed {
          var f := flights[i];
          assert f in flights;
          DropFlight(i);
          CompleteFlight(f);
        } else {
          i := i + 1;
        }
      }
    }

    // ----- after a trick -----

    method FinishTrick()
      requires Valid() && game.trick != []
      modifies `game
      ensures game == old(game).FinishTrick() && game.Valid()
    {
      var winner := WinnerOfTrick(game.trick, game.owners);
      assert winner == game.Winner();
      var points := TrickPointsOf(game.trick);
      var last := game.deck == [] && game.AllHandsEmpty();
      if last {
        points := points + 1;
      }
      var team := TeamOf(winner);
      game := game.(tricks := game.tricks + 1, roundOver := game.roundOver || last,
                    points := game.points[team := game.points[team] + points]);
      game := game.(trick := [], owners := [], turn := winner, lead := winner);
    }

    method DrawOne(player: nat)
      requires Valid() && game.deck != [] && player < game.players
      modifies `game, `draws
      ensures Valid() && State() == old(State()).DrawOne(player)
    {
      var card := game.deck[|game.deck| - 1];
      game := game.(deck := game.deck[..|game.deck| - 1]);
      draws := draws + [Draw(card, player, false)];
    }

    method StartDrawCards(winner: nat)
      requires Valid()
      modifies `game, `draws, `drawing, `bot
      ensures Valid() && State() == old(State()).StartDraws(winner)
    {
      if game.deck == [] {
        bot := bot || game.turn != 0;
        return;
      }
      drawing, draws := true, [];
      DrawEach(winner);
    }

    method DrawEach(winner: nat)
      requires Valid()
      modifies `game, `draws
      ensures Valid() && State() == old(State()).DrawFor(winner, 0)
    {
      ghost var end := State().DrawFor(winner, 0);
      var offset := 0;
      while offset < game.players && game.deck != []
        invariant offset <= game.players && Valid()
        invariant State().DrawFor(winner, offset) == end
        decreases game.players - offset
      {
        DrawOne(game.Following(winner, offset));
        offset := offset + 1;
      }
    }

    method GoOn()
      requires Valid()
      modifies `winnerTeam, `matchOver, `game, `resting, `draws, `drawing, `bot
      ensures Valid() && State() == old(State()).GoOn()
    {
      if game.points[0] >= MATCH_WIN_THIRDS || game.points[1] >= MATCH_WIN_THIRDS {
        winnerTeam := if game.points[0] == game.points[1] then -1 else if game.points[0] > game.points[1] then 0 else 1;
        matchOver := winnerTeam >= 0;
        game := game.(roundOver := true);
      } else if game.roundOver {
        resting := true;
      } else if game.deck != [] {
        StartDrawCards(game.lead);
      } else if game.turn != 0 {
        bot := true;
      }
    }

    method CollectTrick()
      requires Valid() && collecting
      modifies this
      ensures Valid() && State() == old(State()).TrickCollected()
    {
      collecting := false;
      collected := collected + game.trick;
      FinishTrick();
      assert State() == old(State()).Finished();
      GoOn();
    }

    method ArriveOne(i: nat)
      requires Valid() && i < |draws|
      modifies `game, `draws
      ensures Valid() && |draws| == old(|draws|) && State() == old(State()).ArriveOne(i)
    {
      var d := draws[i];
      assert d in draws;
      draws := draws[i := d.(done := true)];
      game := game.(hands := game.hands[d.player := SortHand(game.hands[d.player] + [d.card])]);
    }

    /** Whether the draw had arrived before. */
    method ArriveAt(i: nat, drawn: set<int>) returns (before: bool)
      requires Valid() && i < |draws|
      modifies `game, `draws
      ensures Valid() && |draws| == old(|draws|) && State().Arrive(i + 1, drawn) == old(State()).Arrive(i, drawn)
      ensures before == old(draws)[i].done && (before ==> game == old(game) && draws == old(draws))
      ensures forall k :: i < k < |draws| ==> draws[k] == old(draws)[k]
    {
      before := draws[i].done;
      if !before && draws[i].card in drawn {
        ArriveOne(i);
      }
    }

    /** Whether all draws had arrived before. */
    method ArriveAll(drawn: set<int>) returns (allDone: bool)
      requires Valid()
      modifies `game, `draws
      ensures Valid() && State() == old(State()).Arrive(0, drawn)
      ensures allDone <==> forall k :: 0 <= k < |old(draws)| ==> old(draws)[k].done
      ensures allDone ==> State() == old(State())
    {
      ghost var start := State();
      ghost var end := State().Arrive(0, drawn);
      allDone := true;
      var i := 0;
      while i < |draws|
        invariant i <= |draws| == |start.draws| && Valid()
        invariant State().Arrive(i, drawn) == end
        invariant allDone <==> forall k :: 0 <= k < i ==> start.draws[k].done
        invariant allDone ==> game == start.game && draws == start.draws
        invariant forall k :: i <= k < |draws| ==> draws[k] == start.draws[k]
        decreases |draws| - i
      {
        var before := ArriveAt(i, drawn);
        allDone := allDone && before;
        i := i + 1;
      }
    }

    method DrawCards(drawn: set<int>)
      requires Valid()
      modifies `game, `draws, `drawing, `bot
      ensures Valid() && State() == old(State()).DrawStep(drawn)
    {
      var allDone := ArriveAll(drawn);
      if allDone {
        drawing, draws := false, [];
        if !game.roundOver && game.turn != 0 {
          bot := true;
        }
      }
    }

    // ----- a frame -----

    method RestOrBot(f: Frame)
      requires Valid() && (f.rested ==> |f.shuffled| == 40)
      modifies this
      ensures Valid() && State() == old(State()).RestOrBot(f)
    {
      if resting {
        if f.rested {
          NewDeal(game.players, true, f.shuffled);
        }
        return;
      }
      if flights == [] && !comparing && bot && f.botReady {
        bot := false;
        StartBotCard();
      }
    }

    method CompareTrick(compared: bool)
      requires Valid()
      modifies `comparing, `collecting
      ensures Valid() && State() == old(State()).Compare(compared)
    {
      if flights == [] && comparing && compared {
        comparing, collecting := false, true;
      }
    }

    method PlayFrame(f: Frame)
      requires Valid() && !collecting && (f.rested ==> |f.shuffled| == 40)
      modifies this
      ensures Valid() && State() == old(State()).Land(0, f.landed).Compare(f.compared).RestOrBot(f)
    {
      LandFlights(f.landed);
      CompareTrick(f.compared);
      RestOrBot(f);
    }

    method UpdateApp(f: Frame)
      requires Valid() && (f.rested ==> |f.shuffled| == 40)
      modifies this
      ensures Valid() && State() == old(State()).Update(f)
    {
      if matchOver {
        return;
      }
      if dealing {
        if f.dealt {
          dealing, stocking := false, true;
        }
        return;
      }
      if stocking {
        if f.stocked {
          stocking := false;
          bot := bot || game.turn != 0;
        }
        return;
      }
      if collecting {
        if f.collected { CollectTrick(); }
      } else if drawing {
        DrawCards(f.drawn);
      } else {
        PlayFrame(f);
      }
    }

    /** One tap, new game or frame; a table in order stays in order. */
    method Handle(e: Event)
      requires Inv(State()) && RealShuffle(e)
      modifies this
      ensures State() == old(State()).Step(e) && Inv(State())
    {
      StepKeepsInv(State(), e);
      match e
      case Tap(index) => TapCard(index);
      case NewGame(players, shuffled) => NewDeal(players, false, shuffled);
      case NextFrame(frame) => UpdateApp(frame);
    }
  }
}
