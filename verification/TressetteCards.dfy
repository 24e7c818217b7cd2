/**
 Card tables and the trick winner, once as the server has them (by seat, strengths 91..100)
 and once as the offline client has them (in play order, powers 1..10).
 A card is its id: suit `id % 4`, rank index `id / 4` from the ace (0) to the king (9).
 */
module TressetteCards {

  const NO_CARD := -1

  /** Remainder with the sign of the dividend, as the server's language has it. */
  function Suit(card: int): (s: int)
    ensures 0 <= card ==> 0 <= s < 4
    ensures card < 0 ==> -4 < s <= 0
  {
    if card >= 0 then card % 4 else -((-card) % 4)
  }

  predicate IsCard(card: int) {
    0 <= card < 40
  }

  predicate AreCards(cards: seq<int>) {
    forall c :: c in cards ==> IsCard(c)
  }

  /** Server: strength by rank index. */
  function Strength(card: int): int {
    match card / 4
    case 2 => 100
    case 1 => 99
    case 0 => 98
    case 9 => 97
    case 8 => 96
    case 7 => 95
    case 6 => 94
    case 5 => 93
    case 4 => 92
    case _ => 91
  }

  /** Server: value in thirds of a point. */
  function Value(card: int): nat {
    if card < 4 then 3 else if card < 12 then 1 else if card < 28 then 0 else 1
  }

  /** Client: power by rank, the ace being 1. */
  function TrickPower(rank: int): int {
    match rank
    case 3 => 10
    case 2 => 9
    case 1 => 8
    case 10 => 7
    case 9 => 6
    case 8 => 5
    case 7 => 4
    case 6 => 3
    case 5 => 2
    case 4 => 1
    case _ => 0
  }

  /** Client: value in thirds of a point. */
  function CardPoints(rank: int): nat {
    if rank == 1 then 3
    else if rank == 2 || rank == 3 || rank >= 8 then 1
    else 0
  }

  function RankOf(card: int): int
    requires IsCard(card)
  {
    card / 4 + 1
  }

  /** Both programs order the cards of a suit strictly and alike, and value them alike. */
  lemma TablesAgree(a: int, b: int)
    requires IsCard(a) && IsCard(b)
    ensures Strength(a) > Strength(b) <==> TrickPower(RankOf(a)) > TrickPower(RankOf(b))
    ensures Value(a) == CardPoints(RankOf(a))
    ensures Suit(a) == Suit(b) && Strength(a) == Strength(b) ==> a == b
  {
  }

  // ----- values of a list of cards -----

  function ValueOf(cards: seq<int>): nat {
    if cards == [] then 0 else ValueOf(cards[..|cards| - 1]) + Value(cards[|cards| - 1])
  }

  /** No card is worth more than three thirds. */
  lemma {:induction false} ValueIsSmall(cards: seq<int>)
    ensures 0 <= ValueOf(cards) <= 3 * |cards|
  {
    if cards != [] { ValueIsSmall(cards[..|cards| - 1]); }
  }


  /** The server's scan of a trick for its worth. */
  method WinScore(table: seq<int>) returns (score: nat)
    ensures score == ValueOf(table)
  {
    score := 0;
    for i := 0 to |table|
      invariant score == ValueOf(table[..i])
    {
      assert table[..i + 1][..i] == table[..i];
      score := score + Value(table[i]);
    }
    assert table[..|table|] == table;
  }

  lemma {:induction false} ValueOfConcat(a: seq<int>, b: seq<int>)
    ensures ValueOf(a + b) == ValueOf(a) + ValueOf(b)
  {
    if b == [] {
      assert a + b == a;
    } else {
      var n := |b| - 1;
      ValueOfConcat(a, b[..n]);
      assert (a + b)[..|a| + n] == a + b[..n];
    }
  }

  /** The value of a multiset of cards, counted card by card. */
  ghost function ValueCounted(cards: multiset<int>, n: nat): nat
    requires n <= 40
  {
    if n == 0 then 0 else ValueCounted(cards, n - 1) + cards[n - 1] * Value(n - 1)
  }

  lemma {:induction false} ValueCountedOneMore(cards: multiset<int>, card: int, n: nat)
    requires n <= 40 && IsCard(card)
    ensures ValueCounted(cards + multiset{card}, n) ==
            ValueCounted(cards, n) + if card < n then Value(card) else 0
  {
    if n > 0 {
      ValueCountedOneMore(cards, card, n - 1);
      if card == n - 1 {
        assert (cards[card] + 1) * Value(card) == cards[card] * Value(card) + Value(card);
      }
    }
  }

  lemma {:induction false} NothingCounted(n: nat)
    requires n <= 40
    ensures ValueCounted(multiset{}, n) == 0
  {
    if n > 0 { NothingCounted(n - 1); }
  }

  lemma {:induction false} ValueOfIsCounted(cards: seq<int>)
    requires AreCards(cards)
    ensures ValueOf(cards) == ValueCounted(multiset(cards), 40)
  {
    if cards == [] {
      NothingCounted(40);
      assert multiset(cards) == multiset{};
    } else {
      var n := |cards| - 1;
      assert cards == cards[..n] + [cards[n]];
      ValueOfIsCounted(cards[..n]);
      ValueCountedOneMore(multiset(cards[..n]), cards[n], 40);
    }
  }

  /** The value of a list depends on its cards, not on their order. */
  lemma ValueOfPermutation(a: seq<int>, b: seq<int>)
    requires AreCards(a) && AreCards(b) && multiset(a) == multiset(b)
    ensures ValueOf(a) == ValueOf(b)
  {
    ValueOfIsCounted(a);
    ValueOfIsCounted(b);
  }

  function Upto(n: nat): (s: seq<int>)
    ensures |s| == n && forall i :: 0 <= i < n ==> s[i] == i
  {
    seq(n, i => i)
  }

  const FULL_DECK: seq<int> := Upto(40)

  lemma {:induction false} DeckCopiesUpto(n: nat, c: int)
    requires n <= 40
    ensures multiset(FULL_DECK[..n])[c] == if 0 <= c < n then 1 else 0
  {
    if n > 0 {
      DeckCopiesUpto(n - 1, c);
      assert FULL_DECK[..n] == FULL_DECK[..n - 1] + [FULL_DECK[n - 1]];
    }
  }

  /** The full deck holds every card once and nothing else. */
  lemma DeckCopies(c: int)
    ensures multiset(FULL_DECK)[c] == if IsCard(c) then 1 else 0
  {
    DeckCopiesUpto(40, c);
    assert FULL_DECK[..40] == FULL_DECK;
  }

  lemma {:induction false} DeckValueUpto(n: nat)
    requires n <= 40
    ensures ValueOf(FULL_DECK[..n]) ==
            if n <= 4 then 3 * n else if n <= 12 then 8 + n else if n <= 28 then 20 else n - 8
  {
    if n > 0 {
      DeckValueUpto(n - 1);
      assert FULL_DECK[..n][..n - 1] == FULL_DECK[..n - 1];
    }
  }

  /** All forty cards are worth 32 thirds. */
  lemma FullDeckValue()
    ensures AreCards(FULL_DECK) && ValueOf(FULL_DECK) == 32
  {
    DeckValueUpto(40);
    assert FULL_DECK[..40] == FULL_DECK;
  }

  // ----- the server's winner -----

  /** The strongest card of `suit` among the first `n` slots, or no card. */
  function BestOfSuit(table: seq<int>, suit: int, n: nat): (best: int)
    requires n <= |table|
    ensures best == NO_CARD || best in table
  {
    if n == 0 then NO_CARD
    else
      var best := BestOfSuit(table, suit, n - 1);
      if Suit(table[n - 1]) == suit && (best == NO_CARD || Strength(table[n - 1]) > Strength(best))
      then table[n - 1] else best
  }

  /** `card` is on the table, of the suit, and beats every other card of the suit there. */
  ghost predicate StrongestOfSuit(table: seq<int>, suit: int, card: int)
    requires AreCards(table)
  {
    && card in table && Suit(card) == suit
    && forall c :: c in table && Suit(c) == suit && c != card ==> Strength(c) < Strength(card)
  }

  lemma {:induction false} BestOfSuitIsStrongest(table: seq<int>, suit: int, n: nat)
    requires AreCards(table) && n <= |table|
    ensures var best := BestOfSuit(table, suit, n);
            if best == NO_CARD then forall c :: c in table[..n] ==> Suit(c) != suit
            else StrongestOfSuit(table[..n], suit, best)
  {
    if n > 0 {
      BestOfSuitIsStrongest(table, suit, n - 1);
      assert table[..n] == table[..n - 1] + [table[n - 1]];
      var best := BestOfSuit(table, suit, n - 1);
      assert table[n - 1] in table;
      if best != NO_CARD && Suit(table[n - 1]) == suit {
        TablesAgree(best, table[n - 1]);
      }
    }
  }

  lemma StrongestIsUnique(table: seq<int>, suit: int, a: int, b: int)
    requires AreCards(table) && StrongestOfSuit(table, suit, a) && StrongestOfSuit(table, suit, b)
    ensures a == b
  {
  }

  lemma {:induction false} BestOfSuitPrefix(table: seq<int>, more: seq<int>, suit: int, n: nat)
    requires n <= |table|
    ensures BestOfSuit(table + more, suit, n) == BestOfSuit(table, suit, n)
  {
    if n > 0 { BestOfSuitPrefix(table, more, suit, n - 1); }
  }

  /** The cards of the suit led, in table order. */
  method CardsOfSuit(table: seq<int>, suit: int) returns (valid: seq<int>)
    requires NO_CARD !in table
    ensures NO_CARD !in valid && forall c :: c in valid ==> Suit(c) == suit
    ensures BestOfSuit(valid, suit, |valid|) == BestOfSuit(table, suit, |table|)
    ensures valid == [] <==> BestOfSuit(table, suit, |table|) == NO_CARD
  {
    valid := [];
    for i := 0 to |table|
      invariant NO_CARD !in valid
      invariant forall c :: c in valid ==> Suit(c) == suit
      invariant BestOfSuit(valid, suit, |valid|) == BestOfSuit(table, suit, i)
      invariant valid == [] <==> BestOfSuit(table, suit, i) == NO_CARD
    {
      assert table[i] in table;
      if Suit(table[i]) == suit {
        BestOfSuitPrefix(valid, [table[i]], suit, |valid|);
        valid := valid + [table[i]];
      }
    }
  }

  method WinCard(table: seq<int>, suit: int) returns (winCard: int)
    requires NO_CARD !in table
    ensures winCard == BestOfSuit(table, suit, |table|)
  {
    var valid := CardsOfSuit(table, suit);
    if valid == [] {
      return NO_CARD;
    }
    winCard := valid[0];
    assert BestOfSuit(valid, suit, 0) == NO_CARD;
    for i := 0 to |valid|
      invariant i == 0 ==> winCard == valid[0]
      invariant i > 0 ==> winCard == BestOfSuit(valid, suit, i)
      invariant i > 0 ==> BestOfSuit(valid, suit, i) != NO_CARD
    {
      if Strength(valid[i]) > Strength(winCard) {
        winCard := valid[i];
      }
    }
  }

  /** The first slot holding `card`, or -1. */
  function SlotOf(table: seq<int>, card: int): (i: int)
    ensures card in table ==> 0 <= i < |table| && table[i] == card && forall j :: 0 <= j < i ==> table[j] != card
    ensures card !in table ==> i == -1
  {
    if table == [] then -1
    else if table[0] == card then 0
    else
      var i := SlotOf(table[1..], card);
      if i < 0 then -1 else i + 1
  }

  // ----- the client's winner -----

  /** Client: the best slot among the first `n` cards in play order; slot 0 leads. */
  function WinnerSlot(trick: seq<int>, n: nat): (slot: nat)
    requires AreCards(trick) && 1 <= n <= |trick|
    ensures slot < n && Suit(trick[slot]) == Suit(trick[0])
  {
    if n == 1 then 0
    else
      var best := WinnerSlot(trick, n - 1);
      if Suit(trick[n - 1]) == Suit(trick[0]) &&
         TrickPower(RankOf(trick[n - 1])) > TrickPower(RankOf(trick[best])) then n - 1 else best
  }

  method WinnerOfTrick(trick: seq<int>, owners: seq<int>) returns (winner: int)
    requires AreCards(trick) && trick != [] && |owners| == |trick|
    ensures winner == owners[WinnerSlot(trick, |trick|)]
  {
    var slot := 0;
    for i := 1 to |trick|
      invariant slot == WinnerSlot(trick, i)
    {
      if Suit(trick[i]) == Suit(trick[0]) && TrickPower(RankOf(trick[i])) > TrickPower(RankOf(trick[slot])) {
        slot := i;
      }
    }
    winner := owners[slot];
  }

  lemma {:induction false} WinnerSlotIsStrongest(trick: seq<int>, n: nat)
    requires AreCards(trick) && 1 <= n <= |trick|
    ensures StrongestOfSuit(trick[..n], Suit(trick[0]), trick[WinnerSlot(trick, n)])
  {
    if n > 1 {
      WinnerSlotIsStrongest(trick, n - 1);
      assert trick[..n] == trick[..n - 1] + [trick[n - 1]];
      TablesAgree(trick[n - 1], trick[WinnerSlot(trick, n - 1)]);
      TablesAgree(trick[WinnerSlot(trick, n - 1)], trick[n - 1]);
    }
  }

  /** Seat `i` of a round table with `n` seats, counting past the last one. */
  function Around(i: nat, n: nat): (seat: nat)
    requires i < 2 * n
    ensures seat < n
  {
    if i < n then i else i - n
  }

  /** The cards of a trick sit in the seats they were played from: seat `(leader + i) % n` played card `i`. */
  ghost predicate PlayedInTurn(trick: seq<int>, leader: nat, table: seq<int>) {
    && |trick| == |table| > 0 && leader < |table|
    && forall i {:trigger trick[i]} :: 0 <= i < |trick| ==> table[Around(leader + i, |table|)] == trick[i]
  }

  lemma SameCards(trick: seq<int>, leader: nat, table: seq<int>)
    requires PlayedInTurn(trick, leader, table)
    ensures forall c :: c in table <==> c in trick
  {
    var n := |table|;
    forall c | c in table ensures c in trick {
      var s :| 0 <= s < n && table[s] == c;
      var i := if s >= leader then s - leader else s + n - leader;
      assert Around(leader + i, n) == s;
      assert trick[i] == c;
    }
  }

  lemma SameWinCard(trick: seq<int>, table: seq<int>)
    requires AreCards(trick) && AreCards(table) && trick != [] && forall c :: c in table <==> c in trick
    ensures BestOfSuit(table, Suit(trick[0]), |table|) == trick[WinnerSlot(trick, |trick|)]
    ensures StrongestOfSuit(table, Suit(trick[0]), trick[WinnerSlot(trick, |trick|)])
  {
    var suit := Suit(trick[0]);
    assert trick[0] in table;
    assert table[..|table|] == table && trick[..|trick|] == trick;
    BestOfSuitIsStrongest(table, suit, |table|);
    WinnerSlotIsStrongest(trick, |trick|);
    StrongestIsUnique(table, suit, BestOfSuit(table, suit, |table|), trick[WinnerSlot(trick, |trick|)]);
  }

  lemma SlotOfDistinct(table: seq<int>, i: nat)
    requires i < |table| && forall j, k :: 0 <= j < k < |table| ==> table[j] != table[k]
    ensures SlotOf(table, table[i]) == i
  {
    assert table[i] in table;
    assert table[SlotOf(table, table[i])] == table[i];
  }

  lemma SeatOfSlot(trick: seq<int>, leader: nat, table: seq<int>, slot: nat)
    requires PlayedInTurn(trick, leader, table) && slot < |trick|
    requires forall i, j :: 0 <= i < j < |table| ==> table[i] != table[j]
    ensures SlotOf(table, trick[slot]) == Around(leader + slot, |table|)
  {
    assert table[Around(leader + slot, |table|)] == trick[slot];
    SlotOfDistinct(table, Around(leader + slot, |table|));
  }

  /** For any complete trick of distinct cards, server and client name the same seat. */
  lemma ServerAndClientAgree(trick: seq<int>, leader: nat, table: seq<int>)
    requires AreCards(trick) && AreCards(table) && PlayedInTurn(trick, leader, table)
    requires forall i, j :: 0 <= i < j < |table| ==> table[i] != table[j]
    ensures var winCard := BestOfSuit(table, Suit(trick[0]), |table|);
            && SlotOf(table, winCard) == Around(leader + WinnerSlot(trick, |trick|), |table|)
            && StrongestOfSuit(table, Suit(trick[0]), winCard)
  {
    SameCards(trick, leader, table);
    SameWinCard(trick, table);
    SeatOfSlot(trick, leader, table, WinnerSlot(trick, |trick|));
  }
}
