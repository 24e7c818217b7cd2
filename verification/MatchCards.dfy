/**
 Where the forty cards are. `Copies(m, c)` counts card `c` over everything in play: deck, hands,
 table, won tricks and the cards a later play replaced on the table. No handler changes any
 count, and the last pile grows exactly when an accepted play finds its own slot filled.
 */
module MatchCards {
  import opened TressetteCards
  import opened TressetteMatch
  import opened MatchRuns
  import CardLists

  ghost function HandCopies(seats: seq<Seat>, c: int): nat {
    if seats == [] then 0
    else HandCopies(seats[..|seats| - 1], c) + multiset(seats[|seats| - 1].cards)[c]
  }

  ghost function Copies(m: Match, c: int): nat {
    HandCopies(m.seats, c) + multiset(m.table)[c] + multiset(m.deck)[c] + multiset(m.ledger.won)[c]
    + multiset(m.ledger.overwritten)[c]
  }

  // ----- seats one at a time -----

  lemma {:induction false} HandsUpdated(seats: seq<Seat>, i: nat, s: Seat, c: int)
    requires i < |seats|
    ensures HandCopies(seats[i := s], c) == HandCopies(seats, c) - multiset(seats[i].cards)[c] + multiset(s.cards)[c]
  {
    var n := |seats| - 1;
    assert seats[i := s][..n] == if i < n then seats[..n][i := s] else seats[..n];
    if i < n { HandsUpdated(seats[..n], i, s, c); }
  }

  lemma {:induction false} SameHands(a: seq<Seat>, b: seq<Seat>, c: int)
    requires |a| == |b| && forall i :: 0 <= i < |a| ==> a[i].cards == b[i].cards
    ensures HandCopies(a, c) == HandCopies(b, c)
  {
    if a != [] { SameHands(a[..|a| - 1], b[..|b| - 1], c); }
  }

  lemma {:induction false} PointsUpdated(seats: seq<Seat>, i: nat, s: Seat)
    requires i < |seats|
    ensures SumPoints(seats[i := s]) == SumPoints(seats) - seats[i].points + s.points
  {
    var n := |seats| - 1;
    assert seats[i := s][..n] == if i < n then seats[..n][i := s] else seats[..n];
    if i < n { PointsUpdated(seats[..n], i, s); }
  }

  lemma {:induction false} SamePoints(a: seq<Seat>, b: seq<Seat>)
    requires |a| == |b| && forall i :: 0 <= i < |a| ==> a[i].points == b[i].points
    ensures SumPoints(a) == SumPoints(b)
  {
    if a != [] { SamePoints(a[..|a| - 1], b[..|b| - 1]); }
  }

  // ----- handlers -----

  /** Playing a held card moves it to the table; a card already in the slot is the only one that goes under. */
  lemma PlacedKeepsCards(m: Match, i: int, card: int, c: int)
    requires 0 <= i < |m.seats| == |m.table| && card in m.seats[i].cards && c != NO_CARD
    ensures Copies(m.Placed(i, card), c) == Copies(m, c)
  {
    HandsUpdated(m.seats, i, m.Placed(i, card).seats[i], c);
    CardLists.WithoutMultiset(m.seats[i].cards, card);
    assert card in multiset(m.seats[i].cards);
    assert multiset(m.table[i := card]) == multiset(m.table) - multiset{m.table[i]} + multiset{card};
    assert m.table[i] in multiset(m.table);
  }

  lemma UnderIffFilled(m: Match, i: int, card: int)
    requires 0 <= i < |m.seats| == |m.table|
    ensures m.Placed(i, card).ledger.overwritten == m.ledger.overwritten <==> m.table[i] == NO_CARD
  {
    assert |m.ledger.overwritten + [m.table[i]]| != |m.ledger.overwritten|;
  }

  lemma PaidKeepsCards(m: Match, winner: int, c: int)
    requires 0 <= winner < |m.seats| && c != NO_CARD
    ensures Copies(m.Paid(winner), c) == Copies(m, c)
  {
    SameHands(m.seats, m.Paid(winner).seats, c);
    assert c !in ClearTable(|m.table|);
    assert multiset(m.ledger.won + m.table)[c] == multiset(m.ledger.won)[c] + multiset(m.table)[c];
  }

  /** Ending a hand, a round or a game touches no card. */
  lemma AfterHandSameCards(m: Match, now: int, endRound: bool)
    ensures var m' := m.AfterHand(now, endRound);
            && m'.seats == m.seats && m'.table == m.table && m'.deck == m.deck
            && m'.ledger == m.ledger.(endedAt := m'.ledger.endedAt)
  {
  }

  lemma EndHandKeepsCards(m: Match, now: int, c: int)
    requires c != NO_CARD
    ensures Copies(m.EndHand(now), c) == Copies(m, c)
    ensures m.EndHand(now).ledger.overwritten == m.ledger.overwritten
  {
    var winner := SlotOf(m.table, BestOfSuit(m.table, m.suit, |m.table|));
    if 0 <= winner < |m.seats| {
      PaidKeepsCards(m, winner, c);
      AfterHandSameCards(m.Paid(winner), now, m.deck == [] && m.seats[0].cards == []);
    }
  }

  lemma AcceptKeepsCards(m: Match, i: int, card: int, now: int, c: int)
    requires 0 <= i < |m.seats| == |m.table| && card in m.seats[i].cards && c != NO_CARD
    ensures Copies(m.Accept(i, card, now), c) == Copies(m, c)
    ensures m.Accept(i, card, now).ledger.overwritten == m.ledger.overwritten <==> m.table[i] == NO_CARD
  {
    PlacedKeepsCards(m, i, card, c);
    UnderIffFilled(m, i, card);
    var placed := m.Placed(i, card);
    if NO_CARD !in placed.table {
      EndHandKeepsCards(placed.(turn := -1), now, c);
    } else {
      SameHands(placed.seats, m.Accept(i, card, now).seats, c);
    }
  }

  /** From any state at all, a play keeps every card; one goes under exactly when it lands on a filled slot. */
  lemma PlayKeepsCards(m: Match, uid: int, card: int, isAuto: bool, now: int, c: int)
    requires c != NO_CARD
    ensures var (m', reply) := m.PlayCard(uid, card, isAuto, now);
            && Copies(m', c) == Copies(m, c)
            && (m'.ledger.overwritten != m.ledger.overwritten <==> reply.Accepted? && m.table[m.FindPlayer(uid)] != NO_CARD)
  {
    var (m', reply) := m.PlayCard(uid, card, isAuto, now);
    if !reply.Ignored? {
      var i := m.FindPlayer(uid);
      var held := m.Held(i, isAuto);
      SameHands(m.seats, held.seats, c);
      if reply.Accepted? { AcceptKeepsCards(held, i, card, now, c); }
    }
  }

  lemma {:induction false} DrawFromKeepsCards(seats: seq<Seat>, deck: seq<int>, i: nat, c: int)
    requires i <= |seats|
    ensures var (s, d) := DrawFrom(seats, deck, i);
            HandCopies(s, c) + multiset(d)[c] == HandCopies(seats, c) + multiset(deck)[c]
    decreases |seats| - i
  {
    if i < |seats| && deck != [] {
      var n := |deck| - 1;
      var seat := seats[i].(cards := seats[i].cards + [deck[n]]);
      HandsUpdated(seats, i, seat, c);
      assert deck == deck[..n] + [deck[n]];
      DrawFromKeepsCards(seats[i := seat], deck[..n], i + 1, c);
    }
  }

  lemma DrawKeepsCards(m: Match, c: int)
    ensures Copies(m.Draw(), c) == Copies(m, c)
  {
    DrawFromKeepsCards(m.seats, m.deck, 0, c);
  }

  lemma OpenHandKeepsCards(m: Match, c: int)
    ensures Copies(m.OpenHand(), c) == Copies(m, c)
  {
    SameHands(m.seats, m.OpenHand().seats, c);
  }

  lemma NapoliKeepsCards(m: Match, uid: int, c: int)
    ensures Copies(m.Napoli(uid), c) == Copies(m, c)
  {
    SameHands(m.seats, m.Napoli(uid).seats, c);
  }

  lemma {:induction false} DealtHands(seats: seq<Seat>, shuffled: seq<int>, c: int)
    requires |shuffled| >= HAND_SIZE * |seats|
    ensures HandCopies(DealtSeats(seats, shuffled), c) == multiset(shuffled[..HAND_SIZE * |seats|])[c]
  {
    if seats == [] {
      assert shuffled[..0] == [];
    } else {
      var n := |seats| - 1;
      DealtHands(seats[..n], shuffled, c);
      assert DealtSeats(seats, shuffled)[..n] == DealtSeats(seats[..n], shuffled);
      assert shuffled[..HAND_SIZE * |seats|] ==
             shuffled[..HAND_SIZE * n] + shuffled[HAND_SIZE * n..HAND_SIZE * n + HAND_SIZE];
    }
  }

  /** Dealing hands out the whole shuffled deck, whatever was held before. */
  lemma DealKeepsCards(m: Match, shuffled: seq<int>, c: int)
    requires |shuffled| >= HAND_SIZE * |m.seats|
    ensures HandCopies(m.Deal(shuffled).seats, c) + multiset(m.Deal(shuffled).deck)[c] == multiset(shuffled)[c]
  {
    DealtHands(m.seats, shuffled, c);
    assert shuffled == shuffled[..HAND_SIZE * |m.seats|] + shuffled[HAND_SIZE * |m.seats|..];
  }
}
