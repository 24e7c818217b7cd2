/**
 Rounds and games: settling a trick, drawing, dealing and opening hands keep the shape, so every
 run of packets and ticks stays in it until a card is accepted too early.
 */
module MatchRounds {
  import opened TressetteCards
  import opened DelayedTasks
  import opened TressetteMatch
  import opened MatchRuns
  import opened MatchCards
  import opened MatchShape

  // ----- settling a trick -----

  /** A complete trick has a winner: the unique strongest card of the suit led. */
  lemma WinnerExists(m: Match)
    requires Seated(m) && Complete(m)
    ensures AreCards(m.table)
    ensures var winCard := BestOfSuit(m.table, m.suit, |m.table|);
            StrongestOfSuit(m.table, m.suit, winCard) && 0 <= SlotOf(m.table, winCard) < |m.seats|
  {
    forall c | c in m.table ensures IsCard(c) {
      var i :| 0 <= i < |m.table| && m.table[i] == c;
      SlotIsCard(m, i);
    }
    BestOfSuitIsStrongest(m.table, m.suit, |m.table|);
    assert m.table[..|m.table|] == m.table;
    assert m.table[m.Leader()] in m.table;
  }

  lemma PaidPartition(m: Match, winner: int)
    requires Partition(m) && 0 <= winner < |m.seats| && AreCards(m.table)
    ensures Partition(m.Paid(winner))
  {
    forall c | c != NO_CARD ensures Copies(m.Paid(winner), c) == if IsCard(c) then 1 else 0 {
      PaidKeepsCards(m, winner, c);
      assert Copies(m, c) == if IsCard(c) then 1 else 0;
    }
  }

  /** What holds right after the winner is paid, before anything is pushed. */
  ghost predicate Settled(m: Match) {
    var j := m.handInRound + 1;
    && 1 <= j <= Tricks(m.playerMode) && |m.deck| == DeckAfter(m.playerMode, j - 1)
    && HandsAre(m, HandAfter(m.playerMode, j - 1) - 1) && |m.ledger.won| == WonAfter(m.playerMode, j)
    && (m.ledger.lastTrickPaid <==> j == Tricks(m.playerMode))
    && Quiet(m) && Partition(m) && m.turn == -1 && m.curRound >= 1
  }

  /** The round is over exactly after its last trick: the server's test on seat 0 speaks for every hand. */
  lemma PaidIsSettled(m: Match, winner: int)
    requires Seated(m) && Complete(m) && 0 <= winner < |m.seats| && AreCards(m.table)
    ensures Seated(m.Paid(winner)) && Settled(m.Paid(winner))
    ensures m.deck == [] && m.seats[0].cards == [] <==> m.handInRound == Tricks(m.playerMode) - 1
  {
    PaidPartition(m, winner);
    assert |m.seats[0].cards| == HandAfter(m.playerMode, m.handInRound) - 1;
  }

  lemma PushedOne<T(!new)>(q: Queue<T>, runAt: int, task: T)
    requires q.tasks == []
    ensures q.Push(runAt, task).tasks == [Timed(runAt, q.nextId, task)]
  {
  }

  lemma PushedTwo<T(!new)>(q: Queue<T>, first: int, task1: T, second: int, task2: T)
    requires q.tasks == [] && first < second
    ensures q.Push(first, task1).Push(second, task2).tasks == [Timed(first, q.nextId, task1), Timed(second, q.nextId + 1, task2)]
  {
    var one := q.Push(first, task1);
    assert one.tasks == [Timed(first, q.nextId, task1)];
    assert Insert(one.tasks, Timed(second, q.nextId + 1, task2)) ==
           [one.tasks[0]] + Insert(one.tasks[1..], Timed(second, q.nextId + 1, task2));
  }

  lemma SettledGoesOn(m: Match, now: int)
    requires Seated(m) && Settled(m) && NonePending(m)
    ensures var m' := m.AfterHand(now, m.handInRound == Tricks(m.playerMode) - 1); m'.phase.Ended? || Shape(m')
  {
    var endRound := m.handInRound == Tricks(m.playerMode) - 1;
    var scored := m.Scored();
    var m' := m.AfterHand(now, endRound);
    if !m.ReachedTarget() {
      SamePartition(m, m');
      if endRound {
        PushedOne(scored.queue, now + 4_000, NewRound);
        assert RoundOver(m');
      } else if m.deck != [] {
        PushedTwo(scored.queue, now + 2_000, DrawCards, now + 5_500, NewHand);
        assert Drawing(m');
      } else {
        PushedOne(scored.queue, now + 2_000, NewHand);
        assert BetweenHands(m');
      }
    }
  }

  lemma EndHandKeepsShape(m: Match, now: int)
    requires Seated(m) && Complete(m) && NonePending(m)
    ensures m.EndHand(now).phase.Ended? || Shape(m.EndHand(now))
  {
    WinnerExists(m);
    var winner := SlotOf(m.table, BestOfSuit(m.table, m.suit, |m.table|));
    PaidIsSettled(m, winner);
    SettledGoesOn(m.Paid(winner), now);
  }

  // ----- plays -----

  lemma TrickIsShape(m: Match)
    requires Seated(m) && InTrick(m) && NonePending(m)
    ensures Shape(m)
  {
  }

  lemma AcceptKeepsShape(m: Match, card: int, now: int)
    requires Seated(m) && InTrick(m) && NonePending(m) && card in m.seats[m.turn].cards
    ensures m.Accept(m.turn, card, now).phase.Ended? || Shape(m.Accept(m.turn, card, now))
  {
    if NO_CARD !in m.Placed(m.turn, card).table {
      PlacedComplete(m, card);
      EndHandKeepsShape(m.Placed(m.turn, card).(turn := -1), now);
    } else {
      PlacedPasses(m, card);
      TrickIsShape(m.Placed(m.turn, card).PassTurn());
    }
  }

  /** Between the deal and the round's first hand, seat 0 is on turn and plays a card it holds. */
  predicate TooEarly(m: Match, uid: int, card: int) {
    m.phase.Playing? && m.handInRound == -1 && m.turn == 0 && m.FindPlayer(uid) == 0 && card in m.seats[0].cards
  }

  /** That is what the server accepts before it has opened a hand. */
  lemma TooEarlyIsAccepted(m: Match, uid: int, card: int, isAuto: bool, now: int)
    requires Shape(m)
    ensures TooEarly(m, uid, card) <==> m.handInRound == -1 && m.PlayCard(uid, card, isAuto, now).1.Accepted?
  {
    if m.handInRound == -1 && BetweenHands(m) {
      assert m.turn == 0 ==> Opening(m) && m.table[0] == NO_CARD;
    }
  }

  lemma {:induction false} SameTeamScore(a: seq<Seat>, b: seq<Seat>, team: int)
    requires |a| == |b| && forall i :: 0 <= i < |a| ==> a[i].points == b[i].points && a[i].team == b[i].team
    ensures TeamScore(a, team) == TeamScore(b, team)
  {
    if a != [] { SameTeamScore(a[..|a| - 1], b[..|b| - 1], team); }
  }

  lemma HeldKeepsShape(m: Match, i: nat, isAuto: bool)
    requires Shape(m) && i < |m.seats|
    ensures Shape(m.Held(i, isAuto))
  {
    SameTeamScore(m.seats, m.Held(i, isAuto).seats, 0);
    SameTeamScore(m.seats, m.Held(i, isAuto).seats, 1);
    SameShapeKeeps(m, m.Held(i, isAuto));
  }

  lemma HeldInTrick(m: Match, i: nat, isAuto: bool)
    requires Seated(m) && InTrick(m) && i < |m.seats|
    ensures Seated(m.Held(i, isAuto)) && InTrick(m.Held(i, isAuto))
  {
    SameInTrick(m, m.Held(i, isAuto));
  }

  lemma AcceptKeepsEarly(m: Match, i: int, card: int, now: int)
    requires 0 <= i < |m.seats| == |m.table|
    ensures m.Accept(i, card, now).ledger.early == (m.ledger.early || m.handInRound == -1)
  {
  }

  lemma AcceptedKeepsShape(m: Match, uid: int, card: int, isAuto: bool, now: int)
    requires Seated(m) && InTrick(m) && NonePending(m) && m.PlayCard(uid, card, isAuto, now).1.Accepted?
    ensures var m' := m.PlayCard(uid, card, isAuto, now).0; m'.phase.Ended? || Shape(m')
    ensures m.PlayCard(uid, card, isAuto, now).0.ledger.early == m.ledger.early
  {
    var i := m.FindPlayer(uid);
    HeldInTrick(m, i, isAuto);
    AcceptKeepsShape(m.Held(i, isAuto), card, now);
    AcceptKeepsEarly(m.Held(i, isAuto), i, card, now);
  }

  /** Only in a trick is a play accepted that is not too early. */
  lemma PlayNeedsTrick(m: Match, uid: int, card: int, isAuto: bool, now: int)
    requires Shape(m) && m.PlayCard(uid, card, isAuto, now).1.Accepted? && m.handInRound != -1
    ensures NonePending(m) && InTrick(m)
  {
  }

  lemma PlayKeepsShape(m: Match, uid: int, card: int, isAuto: bool, now: int)
    requires Shape(m) && !TooEarly(m, uid, card)
    ensures var m' := m.PlayCard(uid, card, isAuto, now).0; m'.phase.Ended? || Shape(m')
    ensures m.PlayCard(uid, card, isAuto, now).0.ledger.early == m.ledger.early
  {
    var (m', reply) := m.PlayCard(uid, card, isAuto, now);
    if reply.Accepted? {
      TooEarlyIsAccepted(m, uid, card, isAuto, now);
      PlayNeedsTrick(m, uid, card, isAuto, now);
      AcceptedKeepsShape(m, uid, card, isAuto, now);
    } else if !reply.Ignored? {
      HeldKeepsShape(m, m.FindPlayer(uid), isAuto);
    }
  }

  // ----- delayed tasks -----

  lemma OpenedLead(m: Match)
    requires Seated(m) && BetweenHands(m)
    ensures var m' := m.OpenHand(); Seated(m') && m'.Leader() == m.Leader() < |m.seats| && m'.turn == m.Leader() && Partition(m')
  {
    SameSeatOf(m.seats, m.OpenHand().seats, m.lastWon);
    SamePartition(m, m.OpenHand());
  }

  lemma OpenedSeat(m: Match, i: nat)
    requires Seated(m) && BetweenHands(m) && i < |m.seats| && m.OpenHand().Leader() == m.Leader()
    ensures SeatInTrick(m.OpenHand(), i)
  {
  }

  lemma OpenedHand(m: Match)
    requires Seated(m) && BetweenHands(m)
    ensures Seated(m.OpenHand()) && InTrick(m.OpenHand())
  {
    var m' := m.OpenHand();
    OpenedLead(m);
    forall i | 0 <= i < |m.seats| ensures SeatInTrick(m', i) {
      OpenedSeat(m, i);
    }
  }

  /** With a card for every seat, each seat from `i` on gets exactly one. */
  lemma {:induction false} DrawOneEach(seats: seq<Seat>, deck: seq<int>, i: nat)
    requires i <= |seats| && |deck| >= |seats| - i && AreCards(deck)
    ensures var (s, d) := DrawFrom(seats, deck, i);
            && d == deck[..|deck| - (|seats| - i)] && AreCards(d)
            && forall k :: 0 <= k < |seats| ==>
                 && s[k].uid == seats[k].uid && s[k].onTurn == seats[k].onTurn
                 && |s[k].cards| == |seats[k].cards| + (if k >= i then 1 else 0)
                 && (AreCards(seats[k].cards) ==> AreCards(s[k].cards))
    decreases |seats| - i
  {
    if i < |seats| {
      var n := |deck| - 1;
      DrawOneEach(seats[i := seats[i].(cards := seats[i].cards + [deck[n]])], deck[..n], i + 1);
    }
  }

  lemma Drawn(m: Match)
    requires Seated(m) && Drawing(m)
    ensures Seated(m.Draw()) && BetweenHands(m.Draw())
  {
    DrawOneEach(m.seats, m.deck, 0);
    forall c | c != NO_CARD ensures Copies(m.Draw(), c) == if IsCard(c) then 1 else 0 {
      DrawKeepsCards(m, c);
      assert Copies(m, c) == if IsCard(c) then 1 else 0;
    }
  }

  lemma RoundStarted(m: Match, now: int)
    requires Seated(m) && NonePending(m) && (RoundOver(m) || GameOpening(m))
    ensures Seated(m.StartRound(now)) && TwoPending(m.StartRound(now), DealCards, NewHand) && RoundOpening(m.StartRound(now))
  {
    var m' := m.StartRound(now);
    PushedTwo(m.queue, now + 1_000, DealCards, now + 2_000, NewHand);
    assert RoundOpening(m');
  }

  ghost predicate Shuffled(cards: seq<int>) {
    multiset(cards) == multiset(FULL_DECK)
  }

  lemma ShuffledDeck(cards: seq<int>)
    requires Shuffled(cards)
    ensures |cards| == 40 && AreCards(cards)
    ensures forall c :: multiset(cards)[c] == if IsCard(c) then 1 else 0
  {
    assert |multiset(cards)| == |multiset(FULL_DECK)| == 40;
    forall c ensures multiset(FULL_DECK)[c] == if IsCard(c) then 1 else 0 {
      DeckCopies(c);
    }
    forall c | c in cards ensures IsCard(c) {
      assert c in multiset(cards);
    }
  }

  lemma Dealt(m: Match, shuffled: seq<int>)
    requires Seated(m) && RoundOpening(m) && Shuffled(shuffled)
    ensures |shuffled| >= HAND_SIZE * |m.seats|
    ensures Seated(m.Deal(shuffled)) && BetweenHands(m.Deal(shuffled))
  {
    ShuffledDeck(shuffled);
    var m' := m.Deal(shuffled);
    forall c | c != NO_CARD ensures Copies(m', c) == if IsCard(c) then 1 else 0 {
      DealKeepsCards(m, shuffled, c);
      assert c !in m.table;
    }
  }

  /** The stage a task leads to. */
  ghost predicate StageAfter(task: Task, m: Match) {
    && Seated(m)
    && match task
       case NewRound => TwoPending(m, DealCards, NewHand) && RoundOpening(m)
       case DealCards => OnePending(m, NewHand) && BetweenHands(m)
       case DrawCards => OnePending(m, NewHand) && BetweenHands(m)
       case NewHand => NonePending(m) && InTrick(m)
       case _ => false
  }

  /** Only tasks of play are pending, and each leads to its own stage. */
  lemma TaskKeepsShape(m: Match, now: int, shuffled: seq<int>)
    requires Shape(m) && m.queue.HasDue(now) && Shuffled(shuffled)
    ensures OfPlay(m.queue.tasks[0].task)
    ensures StageAfter(m.queue.tasks[0].task, Popped(m).RunTask(m.queue.tasks[0].task, now, shuffled))
    ensures Shape(Popped(m).RunTask(m.queue.tasks[0].task, now, shuffled))
  {
    var left := Popped(m);
    SameQuietStage(m, left);
    match m.queue.tasks[0].task
    case NewRound => RoundStarted(left, now);
    case DealCards => Dealt(left, shuffled);
    case NewHand => OpenedHand(left);
    case DrawCards => Drawn(left);
    case _ =>
  }

  // ----- automatic seats -----

  /** Automatic seats act only in a trick, so never too early. */
  lemma SeatTurnKeepsShape(m: Match, i: nat, now: int, expired: set<int>)
    requires Shape(m) && i < |m.seats|
    ensures var m' := m.SeatTurn(i, now, expired); (m'.phase.Ended? || Shape(m')) && m'.ledger.early == m.ledger.early
  {
    if m.seats[i].Empty() || !m.seats[i].onTurn || i !in expired {
    } else if m.seats[i].isBot {
      if m.seats[i].cards != [] { PlayKeepsShape(m, m.seats[i].uid, m.BotCard(i), false, now); }
    } else {
      var auto := m.(seats := m.seats[i := m.seats[i].(isAuto := true)]);
      SameInTrick(m, auto);
      if m.seats[i].cards != [] { PlayKeepsShape(auto, m.seats[i].uid, FirstOfSuit(m.seats[i].cards, m.suit), true, now); }
    }
  }

  lemma TurnWhenEnded(m: Match, i: nat, tick: Tick)
    requires i < |m.seats| && !m.phase.Playing?
    ensures m.SeatTurn(i, tick.now, tick.expired).phase == m.phase
    ensures m.SeatTurn(i, tick.now, tick.expired).ledger == m.ledger
  {
  }

  lemma {:induction false} TurnsKeepShape(m: Match, i: nat, tick: Tick)
    requires i <= |m.seats| && (m.phase.Ended? || Shape(m))
    ensures var m' := m.AllTurns(i, tick); (m'.phase.Ended? || Shape(m')) && m'.ledger.early == m.ledger.early
    decreases |m.seats| - i
  {
    if i < |m.seats| {
      var m' := m.SeatTurn(i, tick.now, tick.expired);
      if m.phase.Ended? { TurnWhenEnded(m, i, tick); } else { SeatTurnKeepsShape(m, i, tick.now, tick.expired); }
      if |m'.seats| == |m.seats| { TurnsKeepShape(m', i + 1, tick); }
    }
  }
}
