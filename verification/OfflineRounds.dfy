/**
 Whole runs of the offline table. Deck, hands, trick, flights, unfinished draws and finished tricks
 always partition the forty cards; a full round is worth 33 thirds; and because only one team gains
 per trick, the test for the end of the match never sees a tie.
 */
module OfflineRounds {
  import opened TressetteCards
  import opened OfflineTressette

  // ----- the forty cards -----

  ghost function InFlight(flights: seq<Flight>, c: int): nat {
    if flights == [] then 0 else InFlight(flights[1..], c) + if flights[0].card == c then 1 else 0
  }

  ghost function Undone(draws: seq<Draw>, c: int): nat {
    if draws == [] then 0
    else
      var last := draws[|draws| - 1];
      Undone(draws[..|draws| - 1], c) + if !last.done && last.card == c then 1 else 0
  }

  /** How often a card occurs in a list. */
  ghost function Held(cards: seq<Card>, c: int): nat {
    if cards == [] then 0 else Held(cards[..|cards| - 1], c) + if cards[|cards| - 1] == c then 1 else 0
  }

  ghost function InHands(hands: seq<seq<Card>>, c: int): nat
    requires |hands| == 4
  {
    Held(hands[0], c) + Held(hands[1], c) + Held(hands[2], c) + Held(hands[3], c)
  }

  lemma {:induction false} HeldConcat(a: seq<Card>, b: seq<Card>, c: int)
    ensures Held(a + b, c) == Held(a, c) + Held(b, c)
  {
    if b == [] {
      assert a + b == a;
    } else {
      var n := |b| - 1;
      HeldConcat(a, b[..n], c);
      assert (a + b)[..|a| + n] == a + b[..n];
    }
  }

  lemma {:induction false} HeldIsMultiplicity(cards: seq<Card>, c: int)
    ensures Held(cards, c) == multiset(cards)[c]
  {
    if cards != [] {
      HeldIsMultiplicity(cards[..|cards| - 1], c);
      assert cards == cards[..|cards| - 1] + [cards[|cards| - 1]];
    }
  }

  ghost function Copies(a: App, c: int): nat
    requires |a.game.hands| == 4
  {
    Held(a.game.deck, c) + InHands(a.game.hands, c) + Held(a.game.trick, c)
    + InFlight(a.flights, c) + Undone(a.draws, c) + Held(a.collected, c)
  }

  ghost predicate Partition(a: App)
    requires |a.game.hands| == 4
  {
    forall c :: Copies(a, c) == if IsCard(c) then 1 else 0
  }

  lemma PartitionFrom(a: App, b: App)
    requires |a.game.hands| == |b.game.hands| == 4 && Partition(a) && forall c :: Copies(b, c) == Copies(a, c)
    ensures Partition(b)
  {
    forall c ensures Copies(b, c) == if IsCard(c) then 1 else 0 {
      assert Copies(a, c) == if IsCard(c) then 1 else 0;
    }
  }

  lemma {:induction false} InsertKeeps(hand: seq<Card>, card: Card, c: int)
    ensures Held(InsertCard(hand, card), c) == Held(hand, c) + if card == c then 1 else 0
    ensures |InsertCard(hand, card)| == |hand| + 1
  {
    HeldConcat([card], hand, c);
    assert [card][..0] == [];
    if hand != [] && Before(hand[0], card) {
      InsertKeeps(hand[1..], card, c);
      HeldConcat([hand[0]], hand[1..], c);
      HeldConcat([hand[0]], InsertCard(hand[1..], card), c);
      assert hand == [hand[0]] + hand[1..];
    }
  }

  /** Sorting a hand keeps its cards. */
  lemma {:induction false} SortCount(hand: seq<Card>, c: int)
    ensures Held(SortHand(hand), c) == Held(hand, c) && |SortHand(hand)| == |hand|
  {
    if hand != [] {
      SortCount(hand[1..], c);
      InsertKeeps(SortHand(hand[1..]), hand[0], c);
      HeldConcat([hand[0]], hand[1..], c);
      assert [hand[0]][..0] == [];
      assert hand == [hand[0]] + hand[1..];
    }
  }

  lemma OneHandChanges(hands: seq<seq<Card>>, p: nat, hand: seq<Card>, c: int)
    requires |hands| == 4 && p < 4
    ensures InHands(hands[p := hand], c) == InHands(hands, c) - Held(hands[p], c) + Held(hand, c)
  {
    var after := hands[p := hand];
    assert after[0] == if p == 0 then hand else hands[0];
    assert after[1] == if p == 1 then hand else hands[1];
    assert after[2] == if p == 2 then hand else hands[2];
    assert after[3] == if p == 3 then hand else hands[3];
  }

  lemma LastOff(cards: seq<Card>, c: int)
    requires cards != []
    ensures Held(cards, c) == Held(cards[..|cards| - 1], c) + if cards[|cards| - 1] == c then 1 else 0
  {
  }

  lemma OneMore(cards: seq<Card>, card: Card, c: int)
    ensures Held(cards + [card], c) == Held(cards, c) + if card == c then 1 else 0
  {
    assert (cards + [card])[..|cards|] == cards;
  }

  /** Dealing moves cards from the deck to the hands. */
  lemma {:induction false} DealKeeps(deck: seq<Card>, hands: seq<seq<Card>>, players: nat, k: nat, n: nat, c: int)
    requires |hands| == 4 && 0 < players <= 4 && k <= n && n - k <= |deck|
    ensures var (d, h) := DealFrom(deck, hands, players, k, n);
            Held(d, c) + InHands(h, c) == Held(deck, c) + InHands(hands, c)
    decreases n - k
  {
    if k < n {
      var p, card := k % players, deck[|deck| - 1];
      OneHandChanges(hands, p, hands[p] + [card], c);
      OneMore(hands[p], card, c);
      LastOff(deck, c);
      DealKeeps(deck[..|deck| - 1], hands[p := hands[p] + [card]], players, k + 1, n, c);
    }
  }

  lemma DealtSize(k: nat, players: nat, q: nat)
    requires (players == 2 || players == 4) && q < players
    ensures (k + players - q) / players == (k + players - 1 - q) / players + if k % players == q then 1 else 0
  {
  }

  /** One each in turn. */
  lemma {:induction false} DealSizesFrom(deck: seq<Card>, hands: seq<seq<Card>>, players: nat, k: nat, n: nat)
    requires |hands| == 4 && (players == 2 || players == 4) && k <= n && n - k <= |deck|
    requires forall p :: 0 <= p < players ==> |hands[p]| == (k + players - 1 - p) / players
    ensures var (d, h) := DealFrom(deck, hands, players, k, n);
            && |d| == |deck| - (n - k)
            && (forall p :: 0 <= p < players ==> |h[p]| == (n + players - 1 - p) / players)
            && (forall p :: players <= p < 4 ==> h[p] == hands[p])
    decreases n - k
  {
    if k < n {
      var p := k % players;
      var more := hands[p := hands[p] + [deck[|deck| - 1]]];
      forall q | 0 <= q < players ensures |more[q]| == (k + 1 + players - 1 - q) / players {
        DealtSize(k, players, q);
      }
      DealSizesFrom(deck[..|deck| - 1], more, players, k + 1, n);
    }
  }

  // ----- where a round stands -----

  function PerPlayer(players: nat): nat {
    if players == 2 then 20 else 10
  }

  /** Cards every player holds at the start of the current trick. */
  function HandSize(g: Game): int {
    PerPlayer(g.players) - g.tricks - if g.players == 2 then |g.deck| / 2 else |g.deck| / 4
  }

  /** How far a seat is from the leader. */
  function Offset(g: Game, p: nat): int
    requires p < g.players
  {
    if p >= g.lead then p - g.lead else p + g.players - g.lead
  }

  function SeatAt(g: Game, i: nat): nat
    requires g.lead < g.players && i < g.players
  {
    if g.lead + i < g.players then g.lead + i else g.lead + i - g.players
  }

  ghost predicate Base(a: App) {
    var g := a.game;
    && a.Valid() && g.lead < g.players
    && (forall p :: g.players <= p < 4 ==> g.hands[p] == [])
    && |g.deck| % g.players == 0 && |a.collected| == g.players * g.tricks && HandSize(g) >= 0
    && g.points[0] + g.points[1] == a.base + PointsOf(a.collected) + (if |a.collected| == 40 then 1 else 0)
    && |g.trick| <= g.players && (forall i :: 0 <= i < |g.owners| ==> g.owners[i] == SeatAt(g, i))
  }

  /** The first `played` players from the leader on have played their card. */
  ghost predicate Played(g: Game, played: nat)
    requires |g.hands| == 4 && g.players <= 4
  {
    forall p :: 0 <= p < g.players ==> |g.hands[p]| == HandSize(g) - if Offset(g, p) < played then 1 else 0
  }

  ghost predicate Quiet(a: App) {
    !a.collecting && !a.drawing && !a.comparing && !a.resting && a.draws == []
  }

  ghost predicate ToPlay(a: App) {
    && Base(a) && Quiet(a) && a.flights == [] && !a.game.roundOver && |a.game.trick| < a.game.players
    && a.game.turn == SeatAt(a.game, |a.game.trick|) && Played(a.game, |a.game.trick|) && HandSize(a.game) > 0
  }

  /** Waiting for the card of the player on turn, before the first trick perhaps still dealing. */
  ghost predicate Waiting(a: App) {
    && ToPlay(a)
    && (if a.dealing || a.stocking then !a.bot && a.game.trick == [] else a.bot <==> a.game.turn != 0)
    && !(a.dealing && a.stocking)
  }

  ghost predicate Flying(a: App) {
    && Base(a) && Quiet(a) && !a.game.roundOver && !a.dealing && !a.stocking && !a.bot
    && |a.flights| == 1 && |a.game.trick| < a.game.players && a.game.turn == -1
    && a.flights[0].player == SeatAt(a.game, |a.game.trick|) && Played(a.game, |a.game.trick| + 1) && HandSize(a.game) > 0
  }

  ghost predicate TrickFull(a: App) {
    && Base(a) && !a.drawing && !a.resting && !a.dealing && !a.stocking && !a.bot && a.draws == [] && a.flights == []
    && (a.comparing <==> !a.collecting) && !a.game.roundOver && |a.game.trick| == a.game.players && a.game.turn == -1
    && Played(a.game, a.game.players) && HandSize(a.game) > 0
  }

  /** Everybody draws one card, the leader first; those whose draw has not arrived hold one card less. */
  ghost predicate Drawing(a: App) {
    && Base(a) && a.drawing && !a.collecting && !a.comparing && !a.resting && !a.dealing && !a.stocking && !a.bot
    && a.flights == [] && a.game.trick == [] && !a.game.roundOver && a.game.turn == a.game.lead && HandSize(a.game) > 0
    && |a.draws| == a.game.players
    && (forall i :: 0 <= i < |a.draws| ==> a.draws[i].player == SeatAt(a.game, i))
    && (forall p :: 0 <= p < a.game.players ==>
          |a.game.hands[p]| == HandSize(a.game) - if a.draws[Offset(a.game, p)].done then 0 else 1)
  }

  /** The trick is gone and all players hold equally many cards. */
  ghost predicate BetweenTricks(g: Game)
    requires |g.hands| == 4 && g.players <= 4
  {
    g.trick == [] && forall p :: 0 <= p < g.players ==> |g.hands[p]| == HandSize(g)
  }

  ghost predicate Resting(a: App) {
    && Base(a) && a.resting && !a.collecting && !a.drawing && !a.comparing && !a.dealing && !a.stocking && !a.bot
    && a.draws == [] && a.flights == [] && a.game.roundOver && |a.collected| == 40 && BetweenTricks(a.game)
  }

  ghost predicate BelowTarget(a: App)
    requires |a.game.points| == 2
  {
    a.game.points[0] < MATCH_WIN_THIRDS && a.game.points[1] < MATCH_WIN_THIRDS
  }

  ghost predicate Over(a: App) {
    && Base(a) && a.game.roundOver && a.flights == [] && a.draws == [] && BetweenTricks(a.game)
    && !BelowTarget(a) && a.game.points[0] != a.game.points[1] && a.winnerTeam == if a.game.points[0] > a.game.points[1] then 0 else 1
  }

  /** Until the match is over nobody has reached the target, and the round is at one of its stages. */
  ghost predicate Shape(a: App) {
    if a.matchOver then Over(a)
    else a.game.Valid() && BelowTarget(a) && (Waiting(a) || Flying(a) || TrickFull(a) || Drawing(a) || Resting(a))
  }

  // ----- dealing -----

  ghost predicate Shuffled(cards: seq<Card>) {
    |cards| == 40 && forall c :: multiset(cards)[c] == if IsCard(c) then 1 else 0
  }

  lemma SortHandsKeeps(hands: seq<seq<Card>>, c: int)
    requires |hands| == 4
    ensures InHands(SortHands(hands), c) == InHands(hands, c)
    ensures forall p :: 0 <= p < 4 ==> |SortHands(hands)[p]| == |hands[p]|
  {
    var sorted := SortHands(hands);
    forall p | 0 <= p < 4 ensures Held(sorted[p], c) == Held(hands[p], c) && |sorted[p]| == |hands[p]| {
      SortCount(hands[p], c);
      assert sorted[p] == SortHand(hands[p]);
    }
  }

  /** Ten cards each. */
  lemma DealSizes(players: nat, shuffled: seq<Card>)
    requires (players == 2 || players == 4) && |shuffled| == 40
    ensures var (deck, hands) := DealFrom(shuffled, [[], [], [], []], players, 0, 10 * players);
            && |deck| == 40 - 10 * players
            && (forall p :: 0 <= p < players ==> |hands[p]| == 10) && (forall p :: players <= p < 4 ==> hands[p] == [])
  {
    DealSizesFrom(shuffled, [[], [], [], []], players, 0, 10 * players);
  }

  lemma NewDealKeepsCards(a: App, players: nat, advance: bool, shuffled: seq<Card>)
    requires a.game.Valid() && (players == 2 || players == 4) && Shuffled(shuffled)
    ensures Partition(a.NewDeal(players, advance, shuffled))
  {
    var none: seq<seq<Card>> := [[], [], [], []];
    var dealt := a.NewDeal(players, advance, shuffled);
    forall c ensures Copies(dealt, c) == if IsCard(c) then 1 else 0 {
      DealKeeps(shuffled, none, players, 0, 10 * players, c);
      HeldIsMultiplicity(shuffled, c);
      SortHandsKeeps(DealFrom(shuffled, none, players, 0, 10 * players).1, c);
    }
  }

  lemma FreshShape(a: App)
    requires a.Valid() && Quiet(a) && a.flights == [] && !a.game.roundOver && a.game.trick == [] && a.collected == []
    requires a.game.turn == a.game.lead && a.game.tricks == 0 && a.dealing && !a.stocking && !a.bot && !a.matchOver
    requires |a.game.deck| == 40 - 10 * a.game.players && BelowTarget(a) && a.base == a.game.points[0] + a.game.points[1]
    requires forall p :: 0 <= p < a.game.players ==> |a.game.hands[p]| == 10
    requires forall p :: a.game.players <= p < 4 ==> |a.game.hands[p]| == 0
    ensures Shape(a)
  {
    assert HandSize(a.game) == 10;
    assert Waiting(a);
  }

  lemma NewDealWaits(a: App, players: nat, advance: bool, shuffled: seq<Card>)
    requires a.game.Valid() && (players == 2 || players == 4) && |shuffled| == 40
    requires advance ==> BelowTarget(a)
    ensures Shape(a.NewDeal(players, advance, shuffled))
  {
    var (deck, hands) := DealFrom(shuffled, [[], [], [], []], players, 0, 10 * players);
    DealSizes(players, shuffled);
    SortHandsKeeps(hands, 0);
    var dealt := a.NewDeal(players, advance, shuffled);
    assert dealt.game.hands == SortHands(hands) && dealt.game.deck == deck;
    FreshShape(dealt);
  }

  // ----- one card -----

  lemma CardLeavesHand(hand: seq<Card>, h: nat, c: int)
    requires h < |hand|
    ensures Held(hand[..h] + hand[h + 1..], c) == Held(hand, c) - (if hand[h] == c then 1 else 0)
  {
    assert hand == (hand[..h] + [hand[h]]) + hand[h + 1..];
    OneMore(hand[..h], hand[h], c);
    HeldConcat(hand[..h] + [hand[h]], hand[h + 1..], c);
    HeldConcat(hand[..h], hand[h + 1..], c);
  }

  lemma {:induction false} MoreFlights(flights: seq<Flight>, f: Flight, c: int)
    ensures InFlight(flights + [f], c) == InFlight(flights, c) + if f.card == c then 1 else 0
  {
    if flights == [] {
      assert flights + [f] == [f] && [f][1..] == [];
    } else {
      MoreFlights(flights[1..], f, c);
      assert (flights + [f])[1..] == flights[1..] + [f];
    }
  }

  lemma {:induction false} FewerFlights(flights: seq<Flight>, i: nat, c: int)
    requires i < |flights|
    ensures InFlight(flights[..i] + flights[i + 1..], c) == InFlight(flights, c) - if flights[i].card == c then 1 else 0
  {
    if i == 0 {
      assert flights[..0] + flights[1..] == flights[1..];
    } else {
      FewerFlights(flights[1..], i - 1, c);
      assert (flights[..i] + flights[i + 1..])[1..] == flights[1..][..i - 1] + flights[1..][i..];
    }
  }

  lemma PlayKeepsCards(a: App, player: nat, index: nat, c: int)
    requires a.Valid() && player < a.game.players
    ensures Copies(a.StartPlay(player, index), c) == Copies(a, c)
  {
    var hand := a.game.hands[player];
    if index < |hand| {
      CardLeavesHand(hand, index, c);
      OneHandChanges(a.game.hands, player, hand[..index] + hand[index + 1..], c);
      MoreFlights(a.flights, Flight(hand[index], player), c);
    }
  }

  lemma CompleteAddsCard(a: App, f: Flight, c: int)
    requires a.Valid() && f.player < a.game.players && !a.collecting
    ensures Copies(a.Complete(f), c) == Copies(a, c) + if f.card == c then 1 else 0
  {
    OneMore(a.game.trick, f.card, c);
  }

  lemma {:induction false} LandKeepsCards(a: App, i: nat, landed: set<int>, c: int)
    requires a.Valid() && i <= |a.flights| && !a.collecting
    ensures Copies(a.Land(i, landed), c) == Copies(a, c)
    decreases |a.flights| - i
  {
    if i < |a.flights| {
      if a.flights[i].card in landed {
        var left := a.(flights := a.flights[..i] + a.flights[i + 1..]);
        FewerFlights(a.flights, i, c);
        CompleteAddsCard(left, a.flights[i], c);
        LandKeepsCards(left.Complete(a.flights[i]), i, landed, c);
      } else {
        LandKeepsCards(a, i + 1, landed, c);
      }
    }
  }

  /** A legal card leaves the hand of the player on turn and flies. */
  lemma PlayFlies(a: App, player: nat, index: nat)
    requires ToPlay(a) && !a.dealing && !a.stocking && !a.bot && a.game.turn == player
    requires index < |a.game.hands[player]| && a.game.CanPlay(player, a.game.hands[player][index])
    ensures Flying(a.StartPlay(player, index)) && a.StartPlay(player, index).game.points == a.game.points
  {
    var b := a.StartPlay(player, index);
    forall p | 0 <= p < b.game.players
      ensures |b.game.hands[p]| == HandSize(b.game) - if Offset(b.game, p) < |b.game.trick| + 1 then 1 else 0 {
      assert |a.game.hands[p]| == HandSize(a.game) - if Offset(a.game, p) < |a.game.trick| then 1 else 0;
    }
  }

  lemma NextSeat(g: Game, i: nat)
    requires (g.players == 2 || g.players == 4) && g.lead < g.players && i < g.players
    ensures i + 1 < g.players ==> g.Next(SeatAt(g, i)) == SeatAt(g, i + 1)
  {
  }

  lemma LandedHands(a: App)
    requires Flying(a)
    ensures var b := a.(flights := []).Complete(a.flights[0]);
            Base(b) && HandSize(b.game) == HandSize(a.game) && Played(b.game, |b.game.trick|)
  {
    var b := a.(flights := []).Complete(a.flights[0]);
    assert HandSize(b.game) == HandSize(a.game) && b.game.hands == a.game.hands;
  }

  /** The flying card joins the trick. */
  lemma LandingGoesOn(a: App)
    requires Flying(a)
    ensures var b := a.(flights := []).Complete(a.flights[0]);
            && b.game.points == a.game.points && (Waiting(b) || TrickFull(b)) && !b.collecting
  {
    NextSeat(a.game, |a.game.trick|);
    LandedHands(a);
  }

  // ----- the program's choice -----

  lemma {:induction false} LegalIsListed(g: Game, player: nat, n: nat, i: nat)
    requires |g.hands| == 4 && player < 4 && i < n <= |g.hands[player]| && g.CanPlay(player, g.hands[player][i])
    ensures i in g.LegalFrom(player, n)
  {
    if i < n - 1 { LegalIsListed(g, player, n - 1, i); }
  }

  /** A player on turn with a card in hand has a legal one. */
  lemma SomethingIsLegal(g: Game, player: nat)
    requires |g.hands| == 4 && player < 4 && g.hands[player] != [] && !g.roundOver && g.turn == player
    ensures g.LegalFrom(player, |g.hands[player]|) != []
  {
    var hand := g.hands[player];
    if g.trick != [] && HasSuit(hand, Suit(g.trick[0])) {
      var c :| c in hand && Suit(c) == Suit(g.trick[0]);
      var i :| 0 <= i < |hand| && hand[i] == c;
      LegalIsListed(g, player, |hand|, i);
    } else {
      LegalIsListed(g, player, |hand|, 0);
    }
  }

  lemma {:induction false} CheapestIsFirst(hand: seq<Card>, at: seq<nat>, i: nat)
    requires at != [] && (forall j :: 0 <= j < |at| ==> at[j] < |hand|) && i < |at|
    ensures !Cheaper(hand[at[i]], hand[Cheapest(hand, at)])
  {
    if |at| > 1 {
      var n := |at| - 1;
      if i < n {
        CheapestIsFirst(hand, at[..n], i);
        assert at[..n][i] == at[i];
      }
    }
  }

  lemma {:induction false} WeakestTakes(hand: seq<Card>, at: seq<nat>, lead: Card, i: nat)
    requires at != [] && (forall j :: 0 <= j < |at| ==> at[j] < |hand|) && i < |at|
    ensures TakingPower(hand[WeakestTaker(hand, at, lead)], lead) <= TakingPower(hand[at[i]], lead)
  {
    if |at| > 1 {
      var n := |at| - 1;
      WeakestTakes(hand, at[..n], lead, if i < n then i else 0);
      if i < n { assert at[..n][i] == at[i]; }
    }
  }

  lemma PowerIsSmall(card: Card)
    ensures 1 <= Power(card) <= 10
  {
    var rank := RankOf(card);
    assert rank == 1 || rank == 2 || rank == 3 || rank == 4 || rank == 5 || rank == 6 || rank == 7 || rank >= 8;
    assert rank <= 10;
  }

  /** The card to follow with is the weakest that beats the lead; if none does, none is cheaper. */
  lemma FollowCardIsBest(hand: seq<Card>, legal: seq<nat>, lead: Card, j: nat)
    requires (forall i :: 0 <= i < |legal| ==> legal[i] < |hand|) && j < |legal|
    ensures var card := hand[FollowCard(hand, legal, lead)];
            var other := hand[legal[j]];
            && (Beats(other, lead) ==> Beats(card, lead) && Power(card) <= Power(other))
            && (!Beats(card, lead) ==> !Cheaper(other, card))
  {
    WeakestTakes(hand, legal, lead, j);
    PowerIsSmall(hand[legal[j]]);
    PowerIsSmall(hand[WeakestTaker(hand, legal, lead)]);
    CheapestIsFirst(hand, legal, j);
  }

  /**
   The program's card is legal. Following, it is the weakest legal card that beats the lead if one
   does; otherwise, and when leading, no legal card is cheaper.
   */
  lemma AutoCardIsBest(g: Game, player: nat, i: nat)
    requires |g.hands| == 4 && player < 4 && g.hands[player] != [] && !g.roundOver && g.turn == player
    requires i < |g.hands[player]| && g.CanPlay(player, g.hands[player][i])
    ensures g.trick != [] ==> g.LegalFrom(player, |g.hands[player]|) != []
    ensures var card := g.hands[player][g.AutoCard(player)];
            var other := g.hands[player][i];
            && g.CanPlay(player, card)
            && (g.trick == [] ==> !Cheaper(other, card))
            && (g.trick != [] && Beats(other, g.trick[0]) ==> Beats(card, g.trick[0]) && Power(card) <= Power(other))
            && (g.trick != [] && !Beats(card, g.trick[0]) ==> !Cheaper(other, card))
  {
    var hand := g.hands[player];
    if g.trick == [] {
      CheapestIsFirst(hand, Positions(|hand|), i);
      assert Positions(|hand|)[i] == i;
    } else {
      SomethingIsLegal(g, player);
      var legal := g.LegalFrom(player, |hand|);
      LegalIsListed(g, player, |hand|, i);
      var j :| 0 <= j < |legal| && legal[j] == i;
      FollowCardIsBest(hand, legal, g.trick[0], j);
      var k :| 0 <= k < |legal| && legal[k] == g.AutoCard(player);
    }
  }

  lemma SeatToPlayHolds(a: App)
    requires ToPlay(a)
    ensures a.game.hands[a.game.turn] != []
  {
    assert Offset(a.game, a.game.turn) == |a.game.trick|;
  }

  /** The program's card is always accepted. */
  lemma BotPlays(a: App)
    requires ToPlay(a) && !a.dealing && !a.stocking && !a.bot && a.game.turn > 0
    ensures Flying(a.StartBot()) && a.StartBot().game.points == a.game.points
  {
    var p := a.game.turn;
    SeatToPlayHolds(a);
    SomethingIsLegal(a.game, p);
    var legal := a.game.LegalFrom(p, |a.game.hands[p]|);
    AutoCardIsBest(a.game, p, legal[0]);
    PlayFlies(a, p, a.game.AutoCard(p));
  }

  lemma BotKeepsCards(a: App, c: int)
    requires a.Valid()
    ensures Copies(a.StartBot(), c) == Copies(a, c)
  {
    var p := a.game.turn;
    if !a.game.roundOver && p > 0 && p < a.game.players && a.game.hands[p] != []
       && (a.game.trick == [] || a.game.LegalFrom(p, |a.game.hands[p]|) != []) {
      PlayKeepsCards(a, p, a.game.AutoCard(p), c);
    }
  }

  // ----- after a trick -----

  lemma {:induction false} PointsOfConcat(a: seq<Card>, b: seq<Card>)
    ensures PointsOf(a + b) == PointsOf(a) + PointsOf(b)
  {
    if b == [] {
      assert a + b == a;
    } else {
      var n := |b| - 1;
      PointsOfConcat(a, b[..n]);
      assert (a + b)[..|a| + n] == a + b[..n];
    }
  }

  lemma {:induction false} PointsAreValues(cards: seq<Card>)
    ensures PointsOf(cards) == ValueOf(cards)
  {
    if cards != [] {
      var last := cards[|cards| - 1];
      PointsAreValues(cards[..|cards| - 1]);
      TablesAgree(last, last);
    }
  }

  /** The deck and the hands are empty after a trick exactly when it was the last of the round. */
  lemma LastTrickIff(a: App)
    requires TrickFull(a)
    ensures a.game.LastTrick() <==> |a.collected| + |a.game.trick| == 40
  {
    var n := a.game.players;
    assert forall p :: 0 <= p < n ==> Offset(a.game, p) < n && |a.game.hands[p]| == HandSize(a.game) - 1;
    assert |a.game.hands[0]| == HandSize(a.game) - 1;
  }

  lemma FinishedPoints(a: App)
    requires TrickFull(a) && a.collecting
    requires a.game.LastTrick() <==> |a.collected| + |a.game.trick| == 40
    ensures var b := a.Finished();
            && b.game.points[0] + b.game.points[1] == b.base + PointsOf(b.collected) + (if |b.collected| == 40 then 1 else 0)
            && (b.game.points[0] == a.game.points[0] || b.game.points[1] == a.game.points[1])
  {
    PointsOfConcat(a.collected, a.game.trick);
  }

  lemma FinishedHands(a: App)
    requires TrickFull(a) && a.collecting
    ensures var b := a.Finished(); BetweenTricks(b.game) && HandSize(b.game) == HandSize(a.game) - 1
  {
    var b := a.Finished();
    forall p | 0 <= p < a.game.players ensures |b.game.hands[p]| == HandSize(b.game) {
      assert |a.game.hands[p]| == HandSize(a.game) - if Offset(a.game, p) < a.game.players then 1 else 0;
    }
  }

  /** The finished trick pays its winner's team only. */
  lemma FinishedTrick(a: App)
    requires TrickFull(a) && a.collecting && BelowTarget(a)
    ensures var b := a.Finished();
            && Base(b) && Quiet(b) && BetweenTricks(b.game) && b.game.turn == b.game.lead
            && HandSize(b.game) == HandSize(a.game) - 1 && (b.game.roundOver <==> |b.collected| == 40)
            && (b.game.points[0] == a.game.points[0] || b.game.points[1] == a.game.points[1])
            && (b.game.roundOver <==> b.game.deck == [] && HandSize(b.game) == 0)
  {
    LastTrickIff(a);
    FinishedPoints(a);
    FinishedHands(a);
    assert Base(a.Finished());
  }

  // ----- drawing -----

  lemma {:induction false} UndoneOneMore(draws: seq<Draw>, d: Draw, c: int)
    ensures Undone(draws + [d], c) == Undone(draws, c) + if !d.done && d.card == c then 1 else 0
  {
    assert (draws + [d])[..|draws|] == draws;
  }

  lemma {:induction false} UndoneDone(draws: seq<Draw>, i: nat, c: int)
    requires i < |draws| && !draws[i].done
    ensures Undone(draws[i := draws[i].(done := true)], c) == Undone(draws, c) - if draws[i].card == c then 1 else 0
  {
    var n := |draws| - 1;
    var after := draws[i := draws[i].(done := true)];
    if i < n {
      UndoneDone(draws[..n], i, c);
      assert after[..n] == draws[..n][i := draws[i].(done := true)];
    } else {
      assert after[..n] == draws[..n];
    }
  }

  /** The first `n` players from the winner on have a draw under way. */
  ghost predicate DrawnBy(a: App, winner: nat, n: nat)
    requires a.game.players > 0
  {
    |a.draws| == n && forall i :: 0 <= i < n ==> a.draws[i].player == a.game.Following(winner, i) && !a.draws[i].done
  }

  lemma DrawOneIsNext(a: App, winner: nat, offset: nat)
    requires a.Valid() && offset < a.game.players && a.game.deck != [] && DrawnBy(a, winner, offset)
    ensures var b := a.DrawOne(a.game.Following(winner, offset));
            && DrawnBy(b, winner, offset + 1) && |b.game.deck| == |a.game.deck| - 1
            && b == a.(game := a.game.(deck := b.game.deck), draws := b.draws)
  {
  }

  /** The draws take their cards from the back of the deck, the winner's first. */
  lemma {:induction false} DrawForDraws(a: App, winner: nat, offset: nat)
    requires a.Valid() && offset <= a.game.players && |a.game.deck| >= a.game.players - offset
    requires DrawnBy(a, winner, offset)
    ensures var b := a.DrawFor(winner, offset);
            && b == a.(game := a.game.(deck := b.game.deck), draws := b.draws) && DrawnBy(b, winner, a.game.players)
            && |b.game.deck| == |a.game.deck| - (a.game.players - offset)
    decreases a.game.players - offset
  {
    if offset < a.game.players {
      DrawOneIsNext(a, winner, offset);
      DrawForDraws(a.DrawOne(a.game.Following(winner, offset)), winner, offset + 1);
    }
  }

  lemma DrawOneKeepsCards(a: App, player: nat, c: int)
    requires a.Valid() && a.game.deck != [] && player < a.game.players
    ensures Copies(a.DrawOne(player), c) == Copies(a, c)
  {
    LastOff(a.game.deck, c);
    UndoneOneMore(a.draws, Draw(a.game.deck[|a.game.deck| - 1], player, false), c);
  }

  lemma {:induction false} DrawForKeepsCards(a: App, winner: nat, offset: nat, c: int)
    requires a.Valid() && offset <= a.game.players
    ensures Copies(a.DrawFor(winner, offset), c) == Copies(a, c)
    decreases a.game.players - offset
  {
    if offset < a.game.players && a.game.deck != [] {
      DrawOneKeepsCards(a, a.game.Following(winner, offset), c);
      DrawForKeepsCards(a.DrawOne(a.game.Following(winner, offset)), winner, offset + 1, c);
    }
  }

  lemma SeatIsModulo(g: Game, i: nat)
    requires (g.players == 2 || g.players == 4) && g.lead < g.players && i < g.players
    ensures (g.lead + i) % g.players == SeatAt(g, i) && Offset(g, SeatAt(g, i)) == i
  {
  }

  lemma DrawsStart(a: App)
    requires Base(a) && Quiet(a) && a.flights == [] && BetweenTricks(a.game) && !a.game.roundOver && a.game.turn == a.game.lead
    requires a.game.deck != [] && !a.dealing && !a.stocking && !a.bot
    ensures Drawing(a.StartDraws(a.game.lead)) && a.StartDraws(a.game.lead).game.points == a.game.points
    ensures a.StartDraws(a.game.lead).matchOver == a.matchOver
  {
    var g := a.game;
    var start := a.(drawing := true, draws := []);
    DrawForDraws(start, g.lead, 0);
    var b := a.StartDraws(g.lead);
    assert b == start.DrawFor(g.lead, 0);
    assert HandSize(b.game) == HandSize(g) + 1;
    forall i | 0 <= i < g.players ensures b.draws[i].player == SeatAt(b.game, i) { SeatIsModulo(g, i); }
    forall p | 0 <= p < g.players
      ensures |b.game.hands[p]| == HandSize(b.game) - if b.draws[Offset(b.game, p)].done then 0 else 1 {
      assert |g.hands[p]| == HandSize(g);
    }
  }

  lemma OffsetIsSeat(g: Game, p: nat, i: nat)
    requires (g.players == 2 || g.players == 4) && g.lead < g.players && p < g.players && i < g.players
    ensures Offset(g, p) == i <==> p == SeatAt(g, i)
  {
  }

  /** A draw that arrives completes the hand of its player. */
  lemma OneArrives(a: App, i: nat)
    requires Drawing(a) && i < |a.draws| && !a.draws[i].done
    ensures Drawing(a.ArriveOne(i)) && a.ArriveOne(i).game.points == a.game.points && a.ArriveOne(i).matchOver == a.matchOver
  {
    var d := a.draws[i];
    var b := a.ArriveOne(i);
    SeatIsModulo(a.game, i);
    SortCount(a.game.hands[d.player] + [d.card], 0);
    forall p | 0 <= p < a.game.players
      ensures |b.game.hands[p]| == HandSize(b.game) - if b.draws[Offset(b.game, p)].done then 0 else 1 {
      assert |a.game.hands[p]| == HandSize(a.game) - if a.draws[Offset(a.game, p)].done then 0 else 1;
      OffsetIsSeat(a.game, p, i);
    }
  }

  lemma ArriveOneKeepsCards(a: App, i: nat, c: int)
    requires a.Valid() && i < |a.draws| && !a.draws[i].done
    ensures Copies(a.ArriveOne(i), c) == Copies(a, c)
  {
    var d := a.draws[i];
    assert d in a.draws;
    var hand := a.game.hands[d.player] + [d.card];
    OneHandChanges(a.game.hands, d.player, SortHand(hand), c);
    SortCount(hand, c);
    OneMore(a.game.hands[d.player], d.card, c);
    UndoneDone(a.draws, i, c);
  }

  lemma {:induction false} ArriveKeepsDrawing(a: App, i: nat, drawn: set<int>)
    requires Drawing(a) && i <= |a.draws|
    ensures Drawing(a.Arrive(i, drawn)) && a.Arrive(i, drawn).game.points == a.game.points
    ensures a.Arrive(i, drawn).matchOver == a.matchOver
    decreases |a.draws| - i
  {
    if i < |a.draws| {
      if a.draws[i].done || a.draws[i].card !in drawn {
        ArriveKeepsDrawing(a, i + 1, drawn);
      } else {
        OneArrives(a, i);
        ArriveKeepsDrawing(a.ArriveOne(i), i + 1, drawn);
      }
    }
  }

  lemma {:induction false} ArriveKeepsCards(a: App, i: nat, drawn: set<int>, c: int)
    requires a.Valid() && i <= |a.draws|
    ensures Copies(a.Arrive(i, drawn), c) == Copies(a, c)
    decreases |a.draws| - i
  {
    if i < |a.draws| {
      if a.draws[i].done || a.draws[i].card !in drawn {
        ArriveKeepsCards(a, i + 1, drawn, c);
      } else {
        ArriveOneKeepsCards(a, i, c);
        ArriveKeepsCards(a.ArriveOne(i), i + 1, drawn, c);
      }
    }
  }

  lemma {:induction false} NoneUndone(draws: seq<Draw>, c: int)
    requires forall i :: 0 <= i < |draws| ==> draws[i].done
    ensures Undone(draws, c) == 0
  {
    if draws != [] { NoneUndone(draws[..|draws| - 1], c); }
  }

  /** Once all draws have arrived the winner of the trick leads. */
  lemma DrawStepGoesOn(a: App, drawn: set<int>)
    requires Drawing(a) && BelowTarget(a) && !a.matchOver
    ensures Shape(a.DrawStep(drawn))
  {
    if forall i :: 0 <= i < |a.draws| ==> a.draws[i].done {
      var b := a.DrawStep(drawn);
      forall p | 0 <= p < b.game.players
        ensures |b.game.hands[p]| == HandSize(b.game) - if Offset(b.game, p) < |b.game.trick| then 1 else 0 {
        assert |a.game.hands[p]| == HandSize(a.game) - if a.draws[Offset(a.game, p)].done then 0 else 1;
      }
      assert Waiting(b);
    } else {
      ArriveKeepsDrawing(a, 0, drawn);
    }
  }

  lemma DrawStepKeepsCards(a: App, drawn: set<int>, c: int)
    requires a.Valid()
    ensures Copies(a.DrawStep(drawn), c) == Copies(a, c)
  {
    if forall i :: 0 <= i < |a.draws| ==> a.draws[i].done { NoneUndone(a.draws, c); } else { ArriveKeepsCards(a, 0, drawn, c); }
  }

  // ----- the collected trick -----

  lemma FreshTrick(b: App)
    requires Base(b) && Quiet(b) && BetweenTricks(b.game) && b.game.turn == b.game.lead && b.flights == []
    requires HandSize(b.game) > 0 && !b.game.roundOver && !b.dealing && !b.stocking && !b.bot
    ensures Waiting(b.(bot := b.game.turn != 0))
  {
    forall p | 0 <= p < b.game.players ensures Offset(b.game, p) >= 0 {
    }
  }

  /** After a trick the round goes on, or rests, or the match is over with one team ahead. */
  lemma GoesOn(b: App)
    requires Base(b) && Quiet(b) && BetweenTricks(b.game) && b.game.turn == b.game.lead && b.flights == []
    requires (b.game.roundOver <==> |b.collected| == 40) && (b.game.roundOver <==> b.game.deck == [] && HandSize(b.game) == 0)
    requires b.game.points[0] < MATCH_WIN_THIRDS || b.game.points[1] < MATCH_WIN_THIRDS
    requires !b.matchOver && !b.dealing && !b.stocking && !b.bot
    ensures Shape(b.GoOn())
  {
    if BelowTarget(b) {
      if b.game.roundOver {
        assert Resting(b.GoOn());
      } else if b.game.deck != [] {
        DrawsStart(b);
      } else {
        FreshTrick(b);
      }
    } else {
      assert Over(b.GoOn());
    }
  }

  /** The match test never sees a tie: only one team has gained. */
  lemma CollectedGoesOn(a: App)
    requires TrickFull(a) && a.collecting && BelowTarget(a) && !a.matchOver
    ensures Shape(a.TrickCollected())
  {
    FinishedTrick(a);
    GoesOn(a.Finished());
  }

  lemma FinishedKeepsCards(a: App, c: int)
    requires a.Valid() && a.collecting
    ensures Copies(a.Finished(), c) == Copies(a, c)
  {
    HeldConcat(a.collected, a.game.trick, c);
  }

  /** The same cards in the same places. */
  ghost predicate SameCards(a: App, b: App) {
    && b.game.deck == a.game.deck && b.game.hands == a.game.hands && b.game.trick == a.game.trick
    && b.flights == a.flights && b.draws == a.draws && b.collected == a.collected
  }

  lemma SameCopies(a: App, b: App, c: int)
    requires |a.game.hands| == 4 && SameCards(a, b)
    ensures Copies(b, c) == Copies(a, c)
  {
  }

  lemma StartDrawsKeepsCards(a: App, c: int)
    requires a.Valid() && a.draws == []
    ensures Copies(a.StartDraws(a.game.lead), c) == Copies(a, c)
  {
    if a.game.deck != [] {
      var start := a.(drawing := true, draws := []);
      SameCopies(a, start, c);
      DrawForKeepsCards(start, a.game.lead, 0, c);
    } else {
      SameCopies(a, a.StartDraws(a.game.lead), c);
    }
  }

  lemma GoOnKeepsCards(a: App, c: int)
    requires a.Valid() && a.draws == []
    ensures Copies(a.GoOn(), c) == Copies(a, c)
  {
    if BelowTarget(a) && !a.game.roundOver && a.game.deck != [] {
      StartDrawsKeepsCards(a, c);
    } else {
      SameCopies(a, a.GoOn(), c);
    }
  }

  lemma CollectedKeepsCards(a: App, c: int)
    requires a.Valid() && a.collecting && a.draws == []
    ensures Copies(a.TrickCollected(), c) == Copies(a, c)
  {
    FinishedKeepsCards(a, c);
    GoOnKeepsCards(a.Finished(), c);
  }

  // ----- frames -----

  /** At most one card flies, so landing is landing that card. */
  lemma LandOne(a: App, landed: set<int>)
    requires a.Valid() && !a.collecting && |a.flights| <= 1
    ensures a.Land(0, landed) ==
            if a.flights != [] && a.flights[0].card in landed then a.(flights := []).Complete(a.flights[0]) else a
  {
    if a.flights != [] {
      assert a.flights[..0] + a.flights[1..] == [];
      if a.flights[0].card in landed {
        var b := a.(flights := []).Complete(a.flights[0]);
        assert b.Land(0, landed) == b;
      } else {
        assert a.Land(1, landed) == a;
      }
    }
  }

  /** The stages a frame reaches once nothing is dealt, collected or drawn any more. */
  ghost predicate InPlay(a: App) {
    && !a.matchOver && a.game.Valid() && BelowTarget(a) && !a.dealing && !a.stocking && !a.collecting && !a.drawing
    && (Waiting(a) || Flying(a) || TrickFull(a) || Resting(a))
  }

  lemma LandKeepsShape(a: App, landed: set<int>)
    requires InPlay(a)
    ensures InPlay(a.Land(0, landed))
  {
    LandOne(a, landed);
    if Flying(a) && a.flights[0].card in landed {
      LandingGoesOn(a);
      assert a.Land(0, landed).matchOver == a.matchOver;
    }
  }

  lemma RestOrBotKeepsShape(a: App, f: Frame)
    requires !a.matchOver && a.game.Valid() && BelowTarget(a) && !a.dealing && !a.stocking && !a.drawing
    requires Waiting(a) || Flying(a) || TrickFull(a) || Resting(a)
    requires f.rested ==> Shuffled(f.shuffled)
    ensures Shape(a.RestOrBot(f))
  {
    if a.resting {
      if f.rested { NewDealWaits(a, a.game.players, true, f.shuffled); }
    } else if a.flights == [] && !a.comparing && a.bot && f.botReady {
      assert Waiting(a);
      var b := a.(bot := false);
      assert ToPlay(b);
      BotPlays(b);
      assert b.StartBot().matchOver == a.matchOver;
    }
  }

  lemma PlayFrameKeepsShape(a: App, f: Frame)
    requires InPlay(a) && (f.rested ==> Shuffled(f.shuffled))
    ensures Shape(a.Land(0, f.landed).Compare(f.compared).RestOrBot(f))
  {
    LandKeepsShape(a, f.landed);
    var b := a.Land(0, f.landed);
    var d := b.Compare(f.compared);
    if d != b { assert TrickFull(d); }
    RestOrBotKeepsShape(d, f);
  }

  ghost predicate RealShuffle(e: Event) {
    match e
    case Tap(index) => true
    case NewGame(players, shuffled) => (players == 2 || players == 4) && Shuffled(shuffled)
    case NextFrame(frame) => frame.rested ==> Shuffled(frame.shuffled)
  }

  lemma UpdateKeepsShape(a: App, f: Frame)
    requires a.Valid() && Shape(a) && (f.rested ==> Shuffled(f.shuffled))
    ensures Shape(a.Update(f))
  {
    if a.matchOver {
    } else if a.dealing || a.stocking {
      assert Waiting(a);
      assert Waiting(a.Update(f));
    } else if a.collecting {
      if f.collected { CollectedGoesOn(a); }
    } else if a.drawing {
      DrawStepGoesOn(a, f.drawn);
    } else {
      PlayFrameKeepsShape(a, f);
    }
  }

  lemma TapKeepsShape(a: App, index: nat)
    requires a.Valid() && Shape(a)
    ensures Shape(a.TapCard(index))
  {
    if !a.Busy() && a.game.turn == 0 && !a.game.roundOver {
      assert Waiting(a);
      if index < |a.game.hands[0]| && a.game.CanPlay(0, a.game.hands[0][index]) { PlayFlies(a, 0, index); }
    }
  }

  lemma PlayFrameKeepsCards(a: App, f: Frame, c: int)
    requires InPlay(a) && !a.resting && (f.rested ==> |f.shuffled| == 40)
    ensures Copies(a.Land(0, f.landed).Compare(f.compared).RestOrBot(f), c) == Copies(a, c)
  {
    LandKeepsCards(a, 0, f.landed, c);
    var landed := a.Land(0, f.landed);
    LandOne(a, f.landed);
    assert !landed.resting;
    var compared := landed.Compare(f.compared);
    SameCopies(landed, compared, c);
    if compared.flights == [] && !compared.comparing && compared.bot && f.botReady {
      SameCopies(compared, compared.(bot := false), c);
      BotKeepsCards(compared.(bot := false), c);
    }
  }

  lemma UpdateKeepsCards(a: App, f: Frame, c: int)
    requires a.Valid() && Shape(a) && !a.resting && (f.rested ==> Shuffled(f.shuffled))
    ensures Copies(a.Update(f), c) == Copies(a, c)
  {
    if a.matchOver || a.dealing || a.stocking {
      SameCopies(a, a.Update(f), c);
    } else if a.collecting {
      if f.collected { CollectedKeepsCards(a, c); }
    } else if a.drawing {
      DrawStepKeepsCards(a, f.drawn, c);
    } else {
      PlayFrameKeepsCards(a, f, c);
    }
  }

  /** A rest ends with a new deal of all forty cards. */
  lemma RestKeepsCards(a: App, f: Frame)
    requires a.Valid() && Resting(a) && Partition(a) && !a.matchOver && (f.rested ==> Shuffled(f.shuffled))
    ensures Partition(a.Update(f))
  {
    assert a.Land(0, f.landed) == a && a.Compare(f.compared) == a;
    if f.rested { NewDealKeepsCards(a, a.game.players, true, f.shuffled); }
  }

  ghost predicate Inv(a: App) {
    a.Valid() && Shape(a) && Partition(a)
  }

  lemma FrameKeepsPartition(a: App, f: Frame)
    requires Inv(a) && (a.matchOver || !a.resting) && (f.rested ==> Shuffled(f.shuffled))
    ensures Partition(a.Update(f))
  {
    if !a.matchOver {
      forall c ensures Copies(a.Update(f), c) == Copies(a, c) { UpdateKeepsCards(a, f, c); }
      PartitionFrom(a, a.Update(f));
    }
  }

  lemma StepKeepsInv(a: App, e: Event)
    requires Inv(a) && RealShuffle(e)
    ensures Inv(a.Step(e))
  {
    match e
    case NewGame(players, shuffled) =>
      NewDealWaits(a, players, false, shuffled);
      NewDealKeepsCards(a, players, false, shuffled);
    case Tap(index) =>
      TapKeepsShape(a, index);
      forall c ensures Copies(a.TapCard(index), c) == Copies(a, c) { PlayKeepsCards(a, 0, index, c); }
      PartitionFrom(a, a.TapCard(index));
    case NextFrame(frame) =>
      UpdateKeepsShape(a, frame);
      if a.resting && !a.matchOver {
        RestKeepsCards(a, frame);
      } else {
        FrameKeepsPartition(a, frame);
      }
  }

  ghost function Run(a: App, events: seq<Event>): App
    requires Inv(a) && forall e :: e in events ==> RealShuffle(e)
    decreases |events|
  {
    if events == [] then a
    else
      StepKeepsInv(a, events[0]);
      Run(a.Step(events[0]), events[1..])
  }

  /** Every state of every run: the partition, the scores and the stages. */
  lemma {:induction false} RunKeepsInv(a: App, events: seq<Event>)
    requires Inv(a) && forall e :: e in events ==> RealShuffle(e)
    ensures Inv(Run(a, events))
    decreases |events|
  {
    if events != [] {
      StepKeepsInv(a, events[0]);
      RunKeepsInv(a.Step(events[0]), events[1..]);
    }
  }

  // ----- what every run keeps -----

  lemma AllCollected(a: App)
    requires Inv(a) && |a.collected| == 40
    ensures forall c :: Copies(a, c) == Held(a.collected, c)
  {
    assert a.game.deck == [] && HandSize(a.game) == 0;
    assert a.flights == [] && a.draws == [] && BetweenTricks(a.game);
    assert a.game.hands[0] == [] && a.game.hands[1] == [] && a.game.hands[2] == [] && a.game.hands[3] == [];
  }

  /** A full round is worth exactly 33 thirds to both teams together. */
  lemma RoundIsWorth33(a: App)
    requires Inv(a) && |a.collected| == 40
    ensures a.game.points[0] + a.game.points[1] == a.base + 33
    ensures a.game.tricks == if a.game.players == 2 then 20 else 10
  {
    assert Base(a);
    AllCollected(a);
    forall c ensures multiset(a.collected)[c] == multiset(FULL_DECK)[c] {
      assert Copies(a, c) == if IsCard(c) then 1 else 0;
      HeldIsMultiplicity(a.collected, c);
      DeckCopies(c);
    }
    FullDeckValue();
    assert AreCards(a.collected);
    ValueOfPermutation(a.collected, FULL_DECK);
    PointsAreValues(a.collected);
  }

  /** In every run the match is over exactly when a team has 63 thirds, and then one team is ahead and wins. */
  lemma NeverATie(a: App, events: seq<Event>)
    requires Inv(a) && forall e :: e in events ==> RealShuffle(e)
    ensures var b := Run(a, events);
            && |b.game.points| == 2
            && (b.matchOver <==> b.game.points[0] >= 63 || b.game.points[1] >= 63)
            && (b.matchOver ==> b.game.points[0] != b.game.points[1])
            && (b.matchOver ==> b.winnerTeam == if b.game.points[0] > b.game.points[1] then 0 else 1)
  {
    RunKeepsInv(a, events);
  }

  // ----- nothing gets stuck -----

  function AllCards(): set<int> {
    set c | 0 <= c < 40 && IsCard(c)
  }

  /** A frame long enough for everything under way to arrive. */
  function LongFrame(shuffled: seq<Card>): Frame {
    Frame(true, true, true, AllCards(), AllCards(), true, true, true, shuffled)
  }

  lemma {:induction false} AllArrive(a: App, i: nat)
    requires a.Valid() && i <= |a.draws| && forall k :: 0 <= k < i ==> a.draws[k].done
    ensures var b := a.Arrive(i, AllCards()); |b.draws| == |a.draws| && forall k :: 0 <= k < |b.draws| ==> b.draws[k].done
    decreases |a.draws| - i
  {
    if i < |a.draws| {
      if a.draws[i].done { AllArrive(a, i + 1); } else { AllArrive(a.ArriveOne(i), i + 1); }
    }
  }

  lemma BotGoesOn(a: App, shuffled: seq<Card>)
    requires InPlay(a) && Waiting(a) && a.bot && |shuffled| == 40
    ensures a.RestOrBot(LongFrame(shuffled)).flights != []
  {
    var b := a.(bot := false);
    assert ToPlay(b);
    BotPlays(b);
  }

  lemma LandingMoves(a: App, shuffled: seq<Card>)
    requires InPlay(a) && Flying(a) && |shuffled| == 40
    ensures a.Update(LongFrame(shuffled)).game.trick != a.game.trick
  {
    LandOne(a, AllCards());
    LandingGoesOn(a);
    var f := LongFrame(shuffled);
    var landed := a.Land(0, AllCards());
    assert |landed.game.trick| == |a.game.trick| + 1;
    var compared := landed.Compare(true);
    assert compared.game == landed.game && !compared.resting;
    assert compared.RestOrBot(f).game.trick == compared.game.trick;
  }

  lemma UserMayPlay(a: App)
    requires InPlay(a) && Waiting(a) && !a.bot
    ensures exists index :: a.TapCard(index) != a
  {
    SeatToPlayHolds(a);
    SomethingIsLegal(a.game, 0);
    var index := a.game.LegalFrom(0, |a.game.hands[0]|)[0];
    PlayFlies(a, 0, index);
    assert a.TapCard(index).flights != a.flights;
  }

  lemma DrawsMove(a: App)
    requires Drawing(a)
    ensures a.DrawStep(AllCards()) != a
  {
    if exists i :: 0 <= i < |a.draws| && !a.draws[i].done {
      var i :| 0 <= i < |a.draws| && !a.draws[i].done;
      AllArrive(a, 0);
      assert a.Arrive(0, AllCards()).draws[i].done;
    }
  }

  lemma QuietMoves(a: App, shuffled: seq<Card>)
    requires InPlay(a) && a.flights == [] && Shuffled(shuffled)
    ensures a.Compare(true).RestOrBot(LongFrame(shuffled)) != a || exists index :: a.TapCard(index) != a
  {
    if a.comparing {
      var b := a.Compare(true);
      assert b.collecting && !b.resting && !b.bot;
    } else if a.resting {
      assert a.NewDeal(a.game.players, true, shuffled).dealing;
    } else if a.bot {
      BotGoesOn(a, shuffled);
    } else {
      UserMayPlay(a);
    }
  }

  lemma CollectedStops(a: App)
    requires TrickFull(a) && a.collecting && BelowTarget(a) && !a.matchOver
    ensures !a.TrickCollected().collecting
  {
    FinishedTrick(a);
    var b := a.Finished();
    if BelowTarget(b) && !b.game.roundOver && b.game.deck != [] { DrawsStart(b); }
  }

  /** Until the match is over, a long enough frame moves the game on, or the user has a card to play. */
  lemma NeverStuck(a: App, shuffled: seq<Card>)
    requires Inv(a) && !a.matchOver && Shuffled(shuffled)
    ensures a.Update(LongFrame(shuffled)) != a || exists index :: a.TapCard(index) != a
  {
    if a.dealing || a.stocking {
    } else if a.collecting {
      assert !a.TrickCollected().collecting by { CollectedStops(a); }
    } else if a.drawing {
      DrawsMove(a);
    } else if a.flights != [] {
      LandingMoves(a, shuffled);
    } else {
      LandOne(a, AllCards());
      QuietMoves(a, shuffled);
    }
  }
}
