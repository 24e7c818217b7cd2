/**
 The course of an offline match around its tricks: which card the program plays, told by the server's
 tables, how the hands lie, and who deals and leads round after round.
 */
module OfflineChoices {
  import opened TressetteCards
  import opened OfflineTressette
  import opened OfflineRounds
  import opened OfflineTricks

  // ----- the program's card -----

  /** The card takes the trick from the card led, by the server's scan. */
  predicate Wins(lead: Card, card: Card) {
    TressetteCards.BestOfSuit([lead, card], Suit(lead), 2) == card
  }

  /** Worth less, or worth the same and weaker. */
  predicate Lesser(a: Card, b: Card) {
    Value(a) < Value(b) || (Value(a) == Value(b) && Strength(a) < Strength(b))
  }

  /** The tables of the server and of the client order the cards alike. */
  lemma SameOrder(a: Card, b: Card)
    ensures Power(a) < Power(b) <==> Strength(a) < Strength(b)
    ensures Points(a) == Value(a) && Points(b) == Value(b)
  {
    TablesAgree(a, b);
    TablesAgree(b, a);
  }

  lemma WinsIsBeats(lead: Card, card: Card)
    requires lead != card
    ensures Wins(lead, card) <==> Beats(card, lead)
  {
    var two := [lead, card];
    assert TressetteCards.BestOfSuit(two, Suit(lead), 0) == NO_CARD;
    assert TressetteCards.BestOfSuit(two, Suit(lead), 1) == lead;
    SameOrder(lead, card);
  }

  /**
   The program's card is thrifty. When it leads, none of its cards is lesser. When it follows and a legal
   card wins over the card led, it plays a winning one, the weakest of them; else no legal card is lesser.
   */
  lemma CardIsThrifty(g: Game, player: nat, i: nat)
    requires |g.hands| == 4 && player < 4 && g.hands[player] != [] && !g.roundOver && g.turn == player
    requires i < |g.hands[player]| && g.CanPlay(player, g.hands[player][i])
    requires g.trick != [] ==> g.trick[0] !in g.hands[player]
    ensures g.trick != [] ==> g.LegalFrom(player, |g.hands[player]|) != []
    ensures var card, other := g.hands[player][g.AutoCard(player)], g.hands[player][i];
            if g.trick != [] && Wins(g.trick[0], other) then Wins(g.trick[0], card) && Strength(card) <= Strength(other)
            else if g.trick != [] && Wins(g.trick[0], card) then true
            else !Lesser(other, card)
  {
    AutoCardIsBest(g, player, i);
    var card, other := g.hands[player][g.AutoCard(player)], g.hands[player][i];
    assert card in g.hands[player] && other in g.hands[player];
    SameOrder(card, other);
    SameOrder(other, card);
    if g.trick != [] {
      WinsIsBeats(g.trick[0], card);
      WinsIsBeats(g.trick[0], other);
    }
  }

  // ----- the hands -----

  /** Suit by suit, the strongest first. */
  function Place(card: Card): int {
    10 * Suit(card) - Strength(card)
  }

  ghost predicate Ordered(hand: seq<Card>) {
    forall i, j :: 0 <= i < j < |hand| ==> Place(hand[i]) <= Place(hand[j])
  }

  lemma BeforeIsPlace(a: Card, b: Card)
    ensures Before(a, b) <==> Place(a) < Place(b)
  {
    SameOrder(a, b);
    SameOrder(b, a);
  }

  lemma {:induction false} InsertStaysOrdered(hand: seq<Card>, card: Card)
    requires Ordered(hand)
    ensures var r := InsertCard(hand, card);
            Ordered(r) && forall k :: 0 <= k < |r| ==> r[k] == card || r[k] in hand
  {
    if hand != [] {
      BeforeIsPlace(hand[0], card);
      if Before(hand[0], card) {
        InsertStaysOrdered(hand[1..], card);
      }
    }
  }

  lemma {:induction false} SortedIsOrdered(hand: seq<Card>)
    ensures Ordered(SortHand(hand))
  {
    if hand != [] {
      SortedIsOrdered(hand[1..]);
      InsertStaysOrdered(SortHand(hand[1..]), hand[0]);
    }
  }

  ghost predicate HandsOrdered(hands: seq<seq<Card>>) {
    forall p :: 0 <= p < |hands| ==> Ordered(hands[p])
  }

  lemma PlayStaysOrdered(a: App, player: nat, index: nat)
    requires a.Valid() && player < a.game.players && HandsOrdered(a.game.hands)
    ensures HandsOrdered(a.StartPlay(player, index).game.hands)
  {
  }

  lemma BotStaysOrdered(a: App)
    requires a.Valid() && HandsOrdered(a.game.hands)
    ensures HandsOrdered(a.StartBot().game.hands)
  {
    var p := a.game.turn;
    if 0 < p < a.game.players && a.game.hands[p] != [] && (a.game.trick == [] || a.game.LegalFrom(p, |a.game.hands[p]|) != []) {
      PlayStaysOrdered(a, p, a.game.AutoCard(p));
    }
  }

  lemma {:induction false} DrawsKeepHands(a: App, winner: nat, offset: nat)
    requires a.Valid() && offset <= a.game.players
    ensures a.DrawFor(winner, offset).game.hands == a.game.hands
    decreases a.game.players - offset
  {
    if offset < a.game.players && a.game.deck != [] {
      DrawsKeepHands(a.DrawOne(a.game.Following(winner, offset)), winner, offset + 1);
    }
  }

  lemma {:induction false} ArrivalsStayOrdered(a: App, i: nat, drawn: set<int>)
    requires a.Valid() && i <= |a.draws| && HandsOrdered(a.game.hands)
    ensures HandsOrdered(a.Arrive(i, drawn).game.hands)
    decreases |a.draws| - i
  {
    if i < |a.draws| {
      if a.draws[i].done || a.draws[i].card !in drawn {
        ArrivalsStayOrdered(a, i + 1, drawn);
      } else {
        SortedIsOrdered(a.game.hands[a.draws[i].player] + [a.draws[i].card]);
        ArrivalsStayOrdered(a.ArriveOne(i), i + 1, drawn);
      }
    }
  }

  lemma DealIsOrdered(a: App, players: nat, advance: bool, shuffled: seq<Card>)
    requires a.game.Valid() && (players == 2 || players == 4) && |shuffled| == 40
    ensures HandsOrdered(a.NewDeal(players, advance, shuffled).game.hands)
  {
    var hands := DealFrom(shuffled, [[], [], [], []], players, 0, 10 * players).1;
    forall p | 0 <= p < 4 ensures Ordered(SortHands(hands)[p]) {
      SortedIsOrdered(hands[p]);
    }
  }

  lemma CollectedKeepsHands(a: App)
    requires a.Valid() && a.collecting
    ensures a.TrickCollected().game.hands == a.game.hands
  {
    var b := a.Finished();
    DrawsKeepHands(b.(drawing := true, draws := []), b.game.lead, 0);
  }

  /** A landing card and the comparison of a trick touch neither hands nor deal. */
  lemma LandingStays(a: App, f: Frame)
    requires InPlay(a) && (f.rested ==> |f.shuffled| == 40)
    ensures var b := a.Land(0, f.landed).Compare(f.compared);
            && b.game.hands == a.game.hands && b.game.dealer == a.game.dealer && b.game.players == a.game.players
            && b.round == a.round && b.resting == a.resting
  {
    LandOne(a, f.landed);
  }

  lemma RestOrBotStaysOrdered(a: App, f: Frame)
    requires a.Valid() && HandsOrdered(a.game.hands) && (f.rested ==> |f.shuffled| == 40)
    ensures HandsOrdered(a.RestOrBot(f).game.hands)
  {
    if a.resting {
      if f.rested { DealIsOrdered(a, a.game.players, true, f.shuffled); }
    } else {
      BotStaysOrdered(a.(bot := false));
    }
  }

  lemma PlayFrameStaysOrdered(a: App, f: Frame)
    requires InPlay(a) && HandsOrdered(a.game.hands) && (f.rested ==> |f.shuffled| == 40)
    ensures HandsOrdered(a.Land(0, f.landed).Compare(f.compared).RestOrBot(f).game.hands)
  {
    LandingStays(a, f);
    RestOrBotStaysOrdered(a.Land(0, f.landed).Compare(f.compared), f);
  }

  lemma StepStaysOrdered(a: App, e: Event)
    requires Inv(a) && RealShuffle(e) && HandsOrdered(a.game.hands)
    ensures HandsOrdered(a.Step(e).game.hands)
  {
    match e
    case Tap(index) => PlayStaysOrdered(a, 0, index);
    case NewGame(players, shuffled) => DealIsOrdered(a, players, false, shuffled);
    case NextFrame(f) =>
      if a.matchOver || a.dealing || a.stocking {
      } else if a.collecting {
        CollectedKeepsHands(a);
      } else if a.drawing {
        ArrivalsStayOrdered(a, 0, f.drawn);
      } else {
        PlayFrameStaysOrdered(a, f);
      }
  }

  // ----- dealing in turn -----

  /** A new deal passes the deal on by one, and the player after the dealer leads. */
  ghost predicate DealPassed(a: App, m: App, players: nat)
    requires players > 0
  {
    && m.game.players == players && m.game.dealer == (a.game.dealer + 1) % players
    && m.game.turn == (a.game.dealer + 2) % players == m.game.lead && m.game.trick == []
  }

  lemma NextDealer(dealer: nat, players: nat)
    requires players == 2 || players == 4
    ensures ((dealer + 1) % players + 1) % players == (dealer + 2) % players
  {
  }

  lemma DealPasses(a: App, players: nat, advance: bool, shuffled: seq<Card>)
    requires a.game.Valid() && (players == 2 || players == 4) && |shuffled| == 40
    ensures var m := a.NewDeal(players, advance, shuffled);
            DealPassed(a, m, players) && m.round == if advance then a.round + 1 else 1
  {
    NextDealer(a.game.dealer, players);
  }

  /** The deal and the count of rounds stay. */
  ghost predicate SameDeal(a: App, m: App) {
    m.game.dealer == a.game.dealer && m.game.players == a.game.players && m.round == a.round
  }

  lemma {:induction false} DrawsKeepDeal(a: App, winner: nat, offset: nat)
    requires a.Valid() && offset <= a.game.players
    ensures SameDeal(a, a.DrawFor(winner, offset))
    decreases a.game.players - offset
  {
    if offset < a.game.players && a.game.deck != [] {
      DrawsKeepDeal(a.DrawOne(a.game.Following(winner, offset)), winner, offset + 1);
    }
  }

  lemma {:induction false} ArrivalsKeepDeal(a: App, i: nat, drawn: set<int>)
    requires a.Valid() && i <= |a.draws|
    ensures SameDeal(a, a.Arrive(i, drawn))
    decreases |a.draws| - i
  {
    if i < |a.draws| {
      if a.draws[i].done || a.draws[i].card !in drawn {
        ArrivalsKeepDeal(a, i + 1, drawn);
      } else {
        ArrivalsKeepDeal(a.ArriveOne(i), i + 1, drawn);
      }
    }
  }

  lemma StartDrawsKeepsDeal(a: App)
    requires a.Valid()
    ensures SameDeal(a, a.StartDraws(a.game.lead))
  {
    DrawsKeepDeal(a.(drawing := true, draws := []), a.game.lead, 0);
  }

  lemma GoOnKeepsDeal(a: App)
    requires a.Valid()
    ensures SameDeal(a, a.GoOn())
  {
    StartDrawsKeepsDeal(a);
  }

  lemma CollectedKeepsDeal(a: App)
    requires a.Valid() && a.collecting
    ensures SameDeal(a, a.TrickCollected())
  {
    GoOnKeepsDeal(a.Finished());
  }

  lemma RestOrBotDeals(a: App, f: Frame)
    requires a.Valid() && (f.rested ==> |f.shuffled| == 40)
    ensures var m := a.RestOrBot(f);
            if a.resting && f.rested then DealPassed(a, m, a.game.players) && m.round == a.round + 1 else SameDeal(a, m)
  {
    if a.resting && f.rested { DealPasses(a, a.game.players, true, f.shuffled); }
  }

  lemma PlayFrameDeals(a: App, f: Frame)
    requires InPlay(a) && (f.rested ==> |f.shuffled| == 40)
    ensures var m := a.Land(0, f.landed).Compare(f.compared).RestOrBot(f);
            if a.resting && f.rested then DealPassed(a, m, a.game.players) && m.round == a.round + 1 else SameDeal(a, m)
  {
    LandingStays(a, f);
    RestOrBotDeals(a.Land(0, f.landed).Compare(f.compared), f);
  }

  /** The end of a rest and a new game pass the deal on; nothing else touches it. */
  lemma StepDeals(a: App, e: Event)
    requires Inv(a) && RealShuffle(e)
    ensures var m := a.Step(e);
            if e.NewGame? then DealPassed(a, m, e.players) && m.round == 1
            else if EndsRest(a, e) then DealPassed(a, m, a.game.players) && m.round == a.round + 1
            else SameDeal(a, m)
  {
    match e
    case Tap(index) =>
    case NewGame(players, shuffled) => DealPasses(a, players, false, shuffled);
    case NextFrame(f) =>
      if a.matchOver || a.dealing || a.stocking {
      } else if a.collecting {
        CollectedKeepsDeal(a);
      } else if a.drawing {
        ArrivalsKeepDeal(a, 0, f.drawn);
      } else {
        PlayFrameDeals(a, f);
      }
  }

  lemma TurnsAdd(dealer: nat, rounds: nat, players: nat)
    requires players == 2 || players == 4
    ensures ((dealer + 1) % players + rounds) % players == (dealer + rounds + 1) % players
  {
  }

  /** In order: the hands are sorted and somebody at the table deals. */
  ghost predicate InCourse(a: App) {
    a.Valid() && HandsOrdered(a.game.hands) && a.game.dealer < a.game.players
  }

  /** The deal has been passed on once for every round since. */
  ghost predicate DealtOn(a: App, m: App)
    requires a.Valid()
  {
    && m.round >= a.round && m.game.players == a.game.players
    && m.game.dealer == (a.game.dealer + (m.round - a.round)) % a.game.players
  }

  /** One deal more or none. */
  ghost predicate DealtOnce(a: App, m: App)
    requires a.Valid()
  {
    SameDeal(a, m) || (DealPassed(a, m, a.game.players) && m.round == a.round + 1)
  }

  lemma OnceIsOn(a: App, m: App)
    requires InCourse(a) && DealtOnce(a, m)
    ensures DealtOn(a, m) && m.game.dealer < m.game.players && m.round <= a.round + 1
  {
  }

  lemma StepDealsOnce(a: App, e: Event)
    requires Inv(a) && RealShuffle(e) && !e.NewGame?
    ensures DealtOnce(a, a.Step(e))
  {
    StepDeals(a, e);
  }

  lemma StepKeepsCourse(a: App, e: Event)
    requires Inv(a) && InCourse(a) && RealShuffle(e) && !e.NewGame?
    ensures InCourse(a.Step(e)) && DealtOn(a, a.Step(e)) && a.Step(e).round <= a.round + 1
  {
    StepStaysOrdered(a, e);
    StepDealsOnce(a, e);
    OnceIsOn(a, a.Step(e));
  }

  lemma DealtOnAndOn(a: App, m: App, end: App)
    requires InCourse(a) && m.Valid() && DealtOn(a, m) && DealtOn(m, end) && m.round <= a.round + 1
    ensures DealtOn(a, end)
  {
    if m.round > a.round { TurnsAdd(a.game.dealer, end.round - m.round, a.game.players); }
  }

  /** Over every run of one match the hands stay ordered and the players deal in turn, one round each. */
  lemma {:induction false} RunKeepsCourse(a: App, events: seq<Event>)
    requires Inv(a) && InCourse(a) && forall e :: e in events ==> RealShuffle(e) && !e.NewGame?
    ensures InCourse(Run(a, events)) && DealtOn(a, Run(a, events))
    decreases |events|
  {
    if events != [] {
      var m := a.Step(events[0]);
      StepKeepsInv(a, events[0]);
      StepKeepsCourse(a, events[0]);
      RunKeepsCourse(m, events[1..]);
      DealtOnAndOn(a, m, Run(m, events[1..]));
    }
  }
}
