/**
 The shape of a round. Unless a card is accepted before the first hand of a round is opened
 (`ledger.early`), every reachable state of a game is in one of five stages, told apart by the
 delayed tasks that are waiting, and the forty cards are partitioned.
 */
module MatchShape {
  import opened TressetteCards
  import opened DelayedTasks
  import opened TressetteMatch
  import opened MatchRuns
  import opened MatchCards
  import CardLists

  // ----- seating -----

  /** Holds in every phase: real users have distinct positive uids. */
  ghost predicate Seating(m: Match) {
    && (m.playerMode == SOLO || m.playerMode == DUO)
    && |m.seats| == m.playerMode
    && (forall i :: 0 <= i < |m.seats| ==> m.seats[i].Empty() || m.seats[i].uid > NO_WINNER)
    && (forall i, j :: 0 <= i < j < |m.seats| && !m.seats[i].Empty() ==> m.seats[i].uid != m.seats[j].uid)
  }

  ghost predicate Seated(m: Match) {
    Seating(m) && Full(m.seats) && |m.table| == m.playerMode && m.inGame && m.phase.Playing?
  }

  lemma {:induction false} SeatFound(seats: seq<Seat>, i: nat)
    requires i < |seats| && forall j :: 0 <= j < i ==> seats[j].uid != seats[i].uid
    ensures SeatWithUid(seats, seats[i].uid) == i
  {
    if i > 0 {
      assert seats[1..][i - 1] == seats[i];
      forall j | 0 <= j < i - 1 ensures seats[1..][j].uid != seats[i].uid {
        assert seats[1..][j] == seats[j + 1];
      }
      SeatFound(seats[1..], i - 1);
    }
  }

  lemma {:induction false} SeatMissing(seats: seq<Seat>, uid: int)
    ensures SeatWithUid(seats, uid) == -1 <==> forall i :: 0 <= i < |seats| ==> seats[i].uid != uid
  {
    if seats != [] && seats[0].uid != uid {
      SeatMissing(seats[1..], uid);
      assert forall i :: 0 < i < |seats| ==> seats[i] == seats[1..][i - 1];
    }
  }

  lemma {:induction false} SameSeatOf(a: seq<Seat>, b: seq<Seat>, uid: int)
    requires |a| == |b| && forall i :: 0 <= i < |a| ==> a[i].uid == b[i].uid
    ensures SeatWithUid(a, uid) == SeatWithUid(b, uid)
  {
    if a != [] { SameSeatOf(a[1..], b[1..], uid); }
  }

  // ----- the stages of a round -----

  function Tricks(n: nat): nat {
    if n == SOLO then 20 else 10
  }

  /** Cards left to draw when `j` tricks are over and drawn for. */
  function DeckAfter(n: nat, j: int): int {
    if n == DUO || j >= 10 then 0 else 20 - 2 * j
  }

  /** Cards in every hand before trick `j` (counted from 0). */
  function HandAfter(n: nat, j: int): int {
    if n == DUO then 10 - j else if j <= 10 then 10 else 20 - j
  }

  function WonAfter(n: nat, j: int): int {
    if n == SOLO then 2 * j else 4 * j
  }

  ghost predicate HandsAre(m: Match, h: int) {
    forall i :: 0 <= i < |m.seats| ==> |m.seats[i].cards| == h
  }

  /** The table is clear and nobody is on turn. */
  ghost predicate Quiet(m: Match) {
    && (forall i :: 0 <= i < |m.table| ==> m.table[i] == NO_CARD)
    && (forall i :: 0 <= i < |m.seats| ==> !m.seats[i].onTurn)
  }

  predicate NonePending(m: Match) {
    m.queue.tasks == []
  }

  predicate OnePending(m: Match, k: Task) {
    |m.queue.tasks| == 1 && m.queue.tasks[0].task == k
  }

  predicate TwoPending(m: Match, k1: Task, k2: Task) {
    |m.queue.tasks| == 2 && m.queue.tasks[0].task == k1 && m.queue.tasks[1].task == k2
  }

  /** Every card is in exactly one place and nothing else is anywhere. */
  ghost predicate Partition(m: Match) {
    && m.ledger.overwritten == []
    && (forall i :: 0 <= i < |m.seats| ==> AreCards(m.seats[i].cards))
    && AreCards(m.deck) && AreCards(m.ledger.won)
    && (forall c :: c != NO_CARD ==> Copies(m, c) == if IsCard(c) then 1 else 0)
  }

  /** How many seats after the leader seat `i` comes. */
  function Offset(leader: int, i: int, n: int): int {
    if i >= leader then i - leader else i + n - leader
  }

  /** Seat `i` while a trick is being played: the filled slots run from the leader up to the turn. */
  ghost predicate SeatInTrick(m: Match, i: nat)
    requires i < |m.seats| == |m.table|
  {
    var played := Offset(m.Leader(), i, m.playerMode) < Offset(m.Leader(), m.turn, m.playerMode);
    && (m.table[i] != NO_CARD <==> played)
    && |m.seats[i].cards| == HandAfter(m.playerMode, m.handInRound) - (if played then 1 else 0)
    && (m.seats[i].onTurn <==> i == m.turn)
  }

  ghost predicate Counts(m: Match, j: int) {
    && 0 <= j < Tricks(m.playerMode) && |m.deck| == DeckAfter(m.playerMode, j)
    && |m.ledger.won| == WonAfter(m.playerMode, j) && !m.ledger.lastTrickPaid && m.curRound >= 1
  }

  ghost predicate InTrick(m: Match)
    requires |m.seats| == |m.table|
  {
    && Counts(m, m.handInRound) && 0 <= m.turn < |m.seats| && m.Leader() < |m.seats|
    && (forall i :: 0 <= i < |m.seats| ==> SeatInTrick(m, i))
    && m.suit == (if m.turn == m.Leader() then -1 else Suit(m.table[m.Leader()]))
    && Partition(m)
  }

  /** All seats have played and the trick is not yet settled. */
  ghost predicate Complete(m: Match)
    requires |m.seats| == |m.table|
  {
    && Counts(m, m.handInRound) && m.turn == -1 && m.Leader() < |m.seats|
    && NO_CARD !in m.table && HandsAre(m, HandAfter(m.playerMode, m.handInRound) - 1)
    && (forall i :: 0 <= i < |m.seats| ==> !m.seats[i].onTurn)
    && m.suit == Suit(m.table[m.Leader()])
    && Partition(m)
  }

  /** The first hand of the game is not open yet, but seat 0 is already on turn. */
  predicate Opening(m: Match) {
    m.turn == 0 && m.curRound == 1 && m.suit == -1 && m.lastWon == NO_WINNER
  }

  /** A hand is about to be opened. */
  ghost predicate BetweenHands(m: Match) {
    && Counts(m, m.handInRound + 1) && HandsAre(m, HandAfter(m.playerMode, m.handInRound + 1))
    && Quiet(m) && Partition(m)
    && (m.turn == -1 || (Opening(m) && m.handInRound == -1))
  }

  /** The trick is settled and every seat is about to draw. */
  ghost predicate Drawing(m: Match) {
    var j := m.handInRound + 1;
    && m.playerMode == SOLO && 1 <= j <= 10 && |m.deck| == 22 - 2 * j && HandsAre(m, 9)
    && |m.ledger.won| == 2 * j && !m.ledger.lastTrickPaid && m.curRound >= 1
    && Quiet(m) && Partition(m) && m.turn == -1
  }

  /** The last trick of a round is settled. */
  ghost predicate RoundOver(m: Match) {
    && m.deck == [] && HandsAre(m, 0) && Quiet(m) && Partition(m) && m.turn == -1
    && m.curRound >= 1 && m.ledger.lastTrickPaid && !m.ReachedTarget()
    && m.handInRound == Tricks(m.playerMode) - 1
  }

  /** No card has been dealt yet. */
  ghost predicate NoCards(m: Match) {
    && m.deck == [] && HandsAre(m, 0) && Quiet(m)
    && m.ledger.won == [] && m.ledger.overwritten == [] && !m.ledger.lastTrickPaid && m.handInRound == -1
  }

  ghost predicate RoundOpening(m: Match) {
    NoCards(m) && m.curRound >= 1 && (m.turn == -1 || Opening(m))
  }

  ghost predicate GameOpening(m: Match) {
    NoCards(m) && m.curRound == 0 && m.turn == 0 && m.suit == -1 && m.lastWon == NO_WINNER
  }

  ghost predicate Shape(m: Match) {
    && Seated(m)
    && ( || (NonePending(m) && InTrick(m))
         || (OnePending(m, NewHand) && BetweenHands(m))
         || (TwoPending(m, DrawCards, NewHand) && Drawing(m))
         || (OnePending(m, NewRound) && RoundOver(m))
         || (OnePending(m, NewRound) && GameOpening(m))
         || (TwoPending(m, DealCards, NewHand) && RoundOpening(m)))
  }

  // ----- what the stages do not look at -----

  ghost predicate SameCards(m: Match, m': Match) {
    && m'.table == m.table && m'.deck == m.deck
    && m'.ledger.won == m.ledger.won && m'.ledger.overwritten == m.ledger.overwritten
    && |m'.seats| == |m.seats|
    && (forall i :: 0 <= i < |m.seats| ==> m'.seats[i].cards == m.seats[i].cards)
  }

  lemma SamePartition(m: Match, m': Match)
    requires SameCards(m, m') && Partition(m)
    ensures Partition(m')
  {
    forall c | c != NO_CARD ensures Copies(m', c) == if IsCard(c) then 1 else 0 {
      SameHands(m.seats, m'.seats, c);
      assert Copies(m, c) == if IsCard(c) then 1 else 0;
    }
  }

  ghost predicate SameStage(m: Match, m': Match) {
    && SameCards(m, m')
    && m'.playerMode == m.playerMode && m'.phase == m.phase && m'.turn == m.turn && m'.suit == m.suit
    && m'.curRound == m.curRound && m'.handInRound == m.handInRound && m'.lastWon == m.lastWon && m'.inGame == m.inGame
    && m'.ledger.lastTrickPaid == m.ledger.lastTrickPaid
    && (forall i :: 0 <= i < |m.seats| ==> m'.seats[i].uid == m.seats[i].uid && m'.seats[i].onTurn == m.seats[i].onTurn)
  }

  lemma SameInTrick(m: Match, m': Match)
    requires Seated(m) && SameStage(m, m') && InTrick(m)
    ensures Seated(m') && InTrick(m')
  {
    SameSeatOf(m.seats, m'.seats, m.lastWon);
    SamePartition(m, m');
    forall i | 0 <= i < |m.seats| ensures SeatInTrick(m', i) {
      assert SeatInTrick(m, i);
    }
  }

  lemma SameQuietStage(m: Match, m': Match)
    requires Seated(m) && SameStage(m, m')
    ensures Seated(m')
    ensures BetweenHands(m) ==> BetweenHands(m')
    ensures Drawing(m) ==> Drawing(m')
    ensures RoundOver(m) && !m'.ReachedTarget() ==> RoundOver(m')
    ensures GameOpening(m) ==> GameOpening(m')
    ensures RoundOpening(m) ==> RoundOpening(m')
  {
    if Partition(m) { SamePartition(m, m'); }
  }

  lemma SameShapeKeeps(m: Match, m': Match)
    requires Shape(m) && SameStage(m, m') && m'.queue == m.queue
    requires RoundOver(m) ==> !m'.ReachedTarget()
    ensures Shape(m')
  {
    SameQuietStage(m, m');
    if NonePending(m) { SameInTrick(m, m'); }
  }

  // ----- a play -----

  lemma FoundBySeat(m: Match, i: nat)
    requires Seated(m) && i < |m.seats|
    ensures m.FindPlayer(m.seats[i].uid) == i
  {
    SeatFound(m.seats, i);
  }

  lemma WithoutAreCards(cards: seq<int>, card: int)
    requires AreCards(cards)
    ensures AreCards(CardLists.Without(cards, card))
  {
    CardLists.WithoutMultiset(cards, card);
    forall c | c in CardLists.Without(cards, card) ensures IsCard(c) {
      assert c in multiset(CardLists.Without(cards, card));
      assert c in multiset(cards);
    }
  }

  lemma PlacedPartition(m: Match, i: int, card: int)
    requires 0 <= i < |m.seats| == |m.table| && card in m.seats[i].cards && Partition(m) && m.table[i] == NO_CARD
    ensures Partition(m.Placed(i, card)) && IsCard(card)
  {
    WithoutAreCards(m.seats[i].cards, card);
    forall c | c != NO_CARD ensures Copies(m.Placed(i, card), c) == if IsCard(c) then 1 else 0 {
      PlacedKeepsCards(m, i, card, c);
      assert Copies(m, c) == if IsCard(c) then 1 else 0;
    }
  }

  /** Slots hold real cards. */
  lemma SlotIsCard(m: Match, i: nat)
    requires Partition(m) && i < |m.table| && m.table[i] != NO_CARD
    ensures IsCard(m.table[i])
  {
    var c := m.table[i];
    assert c in m.table;
    assert Copies(m, c) == if IsCard(c) then 1 else 0;
  }

  lemma HeldCardIsReal(m: Match, i: nat, card: int)
    requires Partition(m) && i < |m.seats| && card in m.seats[i].cards
    ensures IsCard(card)
  {
  }

  /** Putting a card in the slot of the seat on turn settles the suit of the trick. */
  lemma PlacedSuit(m: Match, card: int)
    requires Seated(m) && InTrick(m) && card in m.seats[m.turn].cards
    ensures var m' := m.Placed(m.turn, card);
            m'.Leader() == m.Leader() && m'.suit == Suit(m'.table[m.Leader()]) && m.table[m.turn] == NO_CARD
  {
    SameSeatOf(m.seats, m.Placed(m.turn, card).seats, m.lastWon);
    assert SeatInTrick(m, m.turn);
    assert SeatInTrick(m, m.Leader());
    if m.turn != m.Leader() { SlotIsCard(m, m.Leader()); }
  }

  /** Once every slot is filled the trick is complete. */
  lemma PlacedComplete(m: Match, card: int)
    requires Seated(m) && InTrick(m) && card in m.seats[m.turn].cards
    requires NO_CARD !in m.Placed(m.turn, card).table
    ensures Seated(m.Placed(m.turn, card).(turn := -1)) && Complete(m.Placed(m.turn, card).(turn := -1))
  {
    var placed := m.Placed(m.turn, card);
    PlacedSuit(m, card);
    PlacedPartition(m, m.turn, card);
    SamePartition(placed, placed.(turn := -1));
    forall i | 0 <= i < m.playerMode
      ensures |placed.seats[i].cards| == HandAfter(m.playerMode, m.handInRound) - 1 && !placed.seats[i].onTurn
    {
      assert SeatInTrick(m, i);
      assert placed.table[i] in placed.table;
    }
  }

  lemma NotLast(m: Match, card: int)
    requires Seated(m) && InTrick(m) && card in m.seats[m.turn].cards
    requires NO_CARD in m.Placed(m.turn, card).table
    ensures m.Placed(m.turn, card).PassTurn().turn != m.Leader()
  {
    var placed := m.Placed(m.turn, card);
    PlacedSuit(m, card);
    PlacedPartition(m, m.turn, card);
    var open :| 0 <= open < m.playerMode && placed.table[open] == NO_CARD;
    assert open != m.turn;
    assert SeatInTrick(m, open);
  }

  lemma PassedSeat(m: Match, card: int, i: nat)
    requires Seated(m) && InTrick(m) && card in m.seats[m.turn].cards && IsCard(card) && i < m.playerMode
    requires m.Placed(m.turn, card).PassTurn().Leader() == m.Leader() != m.Placed(m.turn, card).PassTurn().turn
    ensures SeatInTrick(m.Placed(m.turn, card).PassTurn(), i)
  {
    assert SeatInTrick(m, i);
    assert SeatInTrick(m, m.turn);
    assert |CardLists.Without(m.seats[m.turn].cards, card)| == |m.seats[m.turn].cards| - 1;
  }

  lemma PassedPartition(m: Match, card: int)
    requires Seated(m) && InTrick(m) && card in m.seats[m.turn].cards
    ensures Partition(m.Placed(m.turn, card).PassTurn()) && IsCard(card)
  {
    var placed := m.Placed(m.turn, card);
    assert SeatInTrick(m, m.turn);
    PlacedPartition(m, m.turn, card);
    SamePartition(placed, placed.PassTurn());
  }

  lemma PlacedSeated(m: Match, i: nat, card: int)
    requires Seated(m) && i < |m.seats|
    ensures Seated(m.Placed(i, card)) && m.Placed(i, card).Leader() == m.Leader()
  {
    SameSeatOf(m.seats, m.Placed(i, card).seats, m.lastWon);
  }

  lemma PassedSeated(m: Match)
    requires Seated(m)
    ensures Seated(m.PassTurn()) && m.PassTurn().Leader() == m.Leader()
  {
    SameSeatOf(m.seats, m.PassTurn().seats, m.lastWon);
  }

  lemma PassedLead(m: Match, card: int)
    requires Seated(m) && InTrick(m) && card in m.seats[m.turn].cards
    requires NO_CARD in m.Placed(m.turn, card).table
    ensures var m' := m.Placed(m.turn, card).PassTurn();
            && Seated(m') && Counts(m', m'.handInRound) && 0 <= m'.turn < |m'.seats|
            && m'.Leader() == m.Leader() != m'.turn && m'.suit == Suit(m'.table[m.Leader()])
  {
    var m' := m.Placed(m.turn, card).PassTurn();
    PlacedSuit(m, card);
    PlacedSeated(m, m.turn, card);
    PassedSeated(m.Placed(m.turn, card));
    NotLast(m, card);
  }

  /** Otherwise the next seat is on turn and the filled slots are one longer. */
  lemma PlacedPasses(m: Match, card: int)
    requires Seated(m) && InTrick(m) && card in m.seats[m.turn].cards
    requires NO_CARD in m.Placed(m.turn, card).table
    ensures Seated(m.Placed(m.turn, card).PassTurn()) && InTrick(m.Placed(m.turn, card).PassTurn())
  {
    var m' := m.Placed(m.turn, card).PassTurn();
    PassedLead(m, card);
    PassedPartition(m, card);
    forall i | 0 <= i < m.playerMode ensures SeatInTrick(m', i) {
      PassedSeat(m, card, i);
    }
  }
}
