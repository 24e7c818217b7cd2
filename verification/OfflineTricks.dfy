/**
 Who gains at the offline table. A trick belongs to the player of its strongest card of the suit led,
 and over every run each team's points are those it began the round with, what its players' tricks are
 worth, and one third for the last of them.
 */
module OfflineTricks {
  import opened TressetteCards
  import opened OfflineTressette
  import opened OfflineRounds

  // ----- one trick -----

  /** Card `k` of the trick is its strongest of the suit led. */
  ghost predicate Takes(trick: seq<Card>, k: nat) {
    k < |trick| && AreCards(trick) && StrongestOfSuit(trick, Suit(trick[0]), trick[k])
  }

  /** What a team has once player `o` takes a trick. */
  function Gains(before: int, team: nat, o: nat, trick: seq<int>, last: bool): int {
    before + if o % 2 == team then ValueOf(trick) + (if last then 1 else 0) else 0
  }

  /** The trick's player leads next, its team gains the worth of the trick, and the other team nothing. */
  ghost predicate PaidTo(g: Game, m: Game, k: nat, last: bool)
    requires |g.points| == |m.points| == 2 && |g.owners| == |g.trick|
  {
    && Takes(g.trick, k) && m.lead == g.owners[k] && m.turn == g.owners[k] && m.trick == []
    && m.points[0] == Gains(g.points[0], 0, g.owners[k], g.trick, last)
    && m.points[1] == Gains(g.points[1], 1, g.owners[k], g.trick, last)
  }

  lemma CardsAreReal(cards: seq<Card>)
    ensures AreCards(cards)
  {
  }

  /** The last trick is the one after which no deck and no hand is left. */
  lemma TrickPaysOwner(g: Game) returns (k: nat)
    requires g.Valid() && g.trick != []
    ensures PaidTo(g, g.FinishTrick(), k, g.deck == [] && forall p :: 0 <= p < g.players ==> g.hands[p] == [])
  {
    k := WinnerSlot(g.trick, |g.trick|);
    CardsAreReal(g.trick);
    WinnerSlotIsStrongest(g.trick, |g.trick|);
    assert g.trick[..|g.trick|] == g.trick;
    assert g.owners[k] in g.owners;
    PointsAreValues(g.trick);
  }

  lemma TwiceHeld(cards: seq<Card>, j: nat, k: nat)
    requires j < |cards| && k < |cards| && j != k && cards[j] == cards[k]
    ensures Held(cards, cards[j]) >= 2
  {
    var lo, hi := if j < k then j else k, if j < k then k else j;
    HeldIsMultiplicity(cards, cards[j]);
    assert cards == cards[..hi] + [cards[hi]] + cards[hi + 1..];
    assert cards[lo] in cards[..hi];
  }

  /** No two cards of a trick are the same, so its strongest one is in one place. */
  lemma OneTaker(a: App, j: nat, k: nat)
    requires Inv(a) && Takes(a.game.trick, j) && Takes(a.game.trick, k)
    ensures j == k
  {
    StrongestIsUnique(a.game.trick, Suit(a.game.trick[0]), a.game.trick[j], a.game.trick[k]);
    if j != k { TwiceHeld(a.game.trick, j, k); }
  }

  // ----- a team's account -----

  /** The player whose card is the strongest of the suit led, found by the server's scan. */
  function Taker(g: Game): int
    requires |g.owners| == |g.trick| && g.trick != []
  {
    var k := SlotOf(g.trick, TressetteCards.BestOfSuit(g.trick, Suit(g.trick[0]), |g.trick|));
    if 0 <= k < |g.owners| then g.owners[k] else -1
  }

  /** What a team had when the round began, the cards its players have taken since, and the last-trick third. */
  datatype Side = Side(start: int, took: seq<int>, last: int) {

    function Points(): int {
      start + ValueOf(took) + last
    }
  }

  /** A frame that finds the trick with its winner. */
  predicate Collects(a: App, e: Event) {
    e.NextFrame? && !a.matchOver && !a.dealing && !a.stocking && a.collecting && e.frame.collected
  }

  /** A frame that ends the rest after a round. */
  predicate EndsRest(a: App, e: Event) {
    e.NextFrame? && !a.matchOver && a.resting && e.frame.rested
  }

  /** A team's account after one event. */
  function SideStep(a: App, e: Event, team: nat, s: Side): Side
    requires |a.game.points| == 2 && team < 2 && |a.game.owners| == |a.game.trick|
  {
    if e.NewGame? then Side(0, [], 0)
    else if EndsRest(a, e) then Side(a.game.points[team], [], 0)
    else if Collects(a, e) && a.game.trick != [] && Taker(a.game) % 2 == team then
      Side(s.start, s.took + a.game.trick, s.last + if |a.collected| + |a.game.trick| == 40 then 1 else 0)
    else s
  }

  ghost function SideAfter(a: App, events: seq<Event>, team: nat, s: Side): Side
    requires Inv(a) && team < 2 && forall e :: e in events ==> RealShuffle(e)
    decreases |events|
  {
    if events == [] then s
    else
      StepKeepsInv(a, events[0]);
      SideAfter(a.Step(events[0]), events[1..], team, SideStep(a, events[0], team, s))
  }

  /** The points are the accounts', and together the teams have taken what is collected. */
  ghost predicate Sides(a: App, first: Side, second: Side)
    requires |a.game.points| == 2
  {
    && a.game.points[0] == first.Points() && a.game.points[1] == second.Points()
    && multiset(first.took) + multiset(second.took) == multiset(a.collected)
  }

  lemma TakerIsWinner(g: Game)
    requires g.Valid() && g.trick != [] && forall c :: Held(g.trick, c) <= 1
    ensures 0 <= Taker(g) == g.Winner()
  {
    var k := WinnerSlot(g.trick, |g.trick|);
    CardsAreReal(g.trick);
    SameWinCard(g.trick, g.trick);
    assert g.trick[k] in g.trick;
    var slot := SlotOf(g.trick, g.trick[k]);
    if slot != k { TwiceHeld(g.trick, slot, k); }
  }

  lemma TrickIsOnce(a: App)
    requires Inv(a)
    ensures forall c :: Held(a.game.trick, c) <= 1
  {
    forall c ensures Held(a.game.trick, c) <= 1 {
      assert Copies(a, c) == if IsCard(c) then 1 else 0;
    }
  }

  lemma {:induction false} DrawsPayNobody(a: App, winner: nat, offset: nat)
    requires a.Valid() && offset <= a.game.players
    ensures a.DrawFor(winner, offset).game.points == a.game.points && a.DrawFor(winner, offset).collected == a.collected
    decreases a.game.players - offset
  {
    if offset < a.game.players && a.game.deck != [] {
      DrawsPayNobody(a.DrawOne(a.game.Following(winner, offset)), winner, offset + 1);
    }
  }

  lemma StartDrawsPaysNobody(a: App)
    requires a.Valid()
    ensures a.StartDraws(a.game.lead).game.points == a.game.points && a.StartDraws(a.game.lead).collected == a.collected
  {
    DrawsPayNobody(a.(drawing := true, draws := []), a.game.lead, 0);
  }

  lemma GoOnPaysNobody(a: App)
    requires a.Valid()
    ensures a.GoOn().game.points == a.game.points && a.GoOn().collected == a.collected
  {
    StartDrawsPaysNobody(a);
  }

  lemma {:induction false} ArrivalsPayNobody(a: App, i: nat, drawn: set<int>)
    requires a.Valid() && i <= |a.draws|
    ensures a.Arrive(i, drawn).game.points == a.game.points && a.Arrive(i, drawn).collected == a.collected
    decreases |a.draws| - i
  {
    if i < |a.draws| {
      if a.draws[i].done || a.draws[i].card !in drawn {
        ArrivalsPayNobody(a, i + 1, drawn);
      } else {
        ArrivalsPayNobody(a.ArriveOne(i), i + 1, drawn);
      }
    }
  }

  lemma LandingPaysNobody(a: App, landed: set<int>)
    requires InPlay(a)
    ensures var b := a.Land(0, landed); b.game.points == a.game.points && b.collected == a.collected && b.resting == a.resting
  {
    LandOne(a, landed);
  }

  lemma PlayFramePaysNobody(a: App, f: Frame)
    requires InPlay(a) && !(a.resting && f.rested) && (f.rested ==> |f.shuffled| == 40)
    ensures var b := a.Land(0, f.landed).Compare(f.compared).RestOrBot(f);
            b.game.points == a.game.points && b.collected == a.collected
  {
    LandingPaysNobody(a, f.landed);
  }

  /** No other event pays anybody or collects a card. */
  lemma OthersPayNobody(a: App, e: Event)
    requires Inv(a) && RealShuffle(e) && !e.NewGame? && !EndsRest(a, e) && !Collects(a, e)
    ensures a.Step(e).game.points == a.game.points && a.Step(e).collected == a.collected
  {
    match e
    case Tap(index) =>
    case NextFrame(f) =>
      if a.matchOver || a.dealing || a.stocking || a.collecting {
      } else if a.drawing {
        ArrivalsPayNobody(a, 0, f.drawn);
      } else {
        PlayFramePaysNobody(a, f);
      }
  }

  lemma WinnerIsTaker(g: Game)
    requires g.Valid() && g.trick != []
    ensures Takes(g.trick, WinnerSlot(g.trick, |g.trick|))
  {
    CardsAreReal(g.trick);
    WinnerSlotIsStrongest(g.trick, |g.trick|);
    assert g.trick[..|g.trick|] == g.trick;
  }

  lemma TakerGains(a: App)
    requires Inv(a) && a.collecting && !a.matchOver
    ensures a.game.trick != [] && Taker(a.game) >= 0
    ensures var last := |a.collected| + |a.game.trick| == 40;
            && a.Finished().game.points[0] == Gains(a.game.points[0], 0, Taker(a.game), a.game.trick, last)
            && a.Finished().game.points[1] == Gains(a.game.points[1], 1, Taker(a.game), a.game.trick, last)
  {
    TrickIsOnce(a);
    TakerIsWinner(a.game);
    LastTrickIff(a);
    WinnerIsTaker(a.game);
    var k := TrickPaysOwner(a.game);
    OneTaker(a, k, WinnerSlot(a.game.trick, |a.game.trick|));
  }

  lemma SideGains(a: App, e: Event, team: nat, s: Side)
    requires Inv(a) && Collects(a, e) && team < 2 && a.game.points[team] == s.Points() && a.game.trick != [] && Taker(a.game) >= 0
    ensures SideStep(a, e, team, s).Points() ==
            Gains(a.game.points[team], team, Taker(a.game), a.game.trick, |a.collected| + |a.game.trick| == 40)
    ensures SideStep(a, e, team, s).took == s.took + if Taker(a.game) % 2 == team then a.game.trick else []
  {
    assert !a.resting;
    ValueOfConcat(s.took, a.game.trick);
    assert s.took + [] == s.took;
  }

  /** Collecting the trick is the trick's end and what follows it. */
  lemma CollectingIs(a: App, e: Event)
    requires Inv(a) && RealShuffle(e) && Collects(a, e)
    ensures a.Finished().Valid() && a.Step(e).game.points == a.Finished().game.points
    ensures a.Step(e).collected == a.collected + a.game.trick
  {
    GoOnPaysNobody(a.Finished());
  }

  lemma CollectingPays(a: App, e: Event, first: Side, second: Side)
    requires Inv(a) && RealShuffle(e) && Collects(a, e) && Sides(a, first, second)
    ensures Sides(a.Step(e), SideStep(a, e, 0, first), SideStep(a, e, 1, second))
  {
    TakerGains(a);
    SideGains(a, e, 0, first);
    SideGains(a, e, 1, second);
    CollectingIs(a, e);
    assert multiset(a.collected + a.game.trick) == multiset(a.collected) + multiset(a.game.trick);
  }

  lemma StepKeepsSides(a: App, e: Event, first: Side, second: Side)
    requires Inv(a) && RealShuffle(e) && Sides(a, first, second)
    ensures Sides(a.Step(e), SideStep(a, e, 0, first), SideStep(a, e, 1, second))
  {
    if Collects(a, e) {
      CollectingPays(a, e, first, second);
    } else if !e.NewGame? && !EndsRest(a, e) {
      OthersPayNobody(a, e);
    }
  }

  /**
   Over every run each team has the points it began the round with, the worth of every card its players
   have taken since, and a third if the last trick was theirs; and the cards both have taken are the
   cards collected.
   */
  lemma {:induction false} RunKeepsSides(a: App, events: seq<Event>, first: Side, second: Side)
    requires Inv(a) && Sides(a, first, second) && forall e :: e in events ==> RealShuffle(e)
    ensures var end := Run(a, events);
            && |end.game.points| == 2
            && Sides(end, SideAfter(a, events, 0, first), SideAfter(a, events, 1, second))
    decreases |events|
  {
    if events != [] {
      StepKeepsInv(a, events[0]);
      StepKeepsSides(a, events[0], first, second);
      RunKeepsSides(a.Step(events[0]), events[1..], SideStep(a, events[0], 0, first), SideStep(a, events[0], 1, second));
    }
  }
}
