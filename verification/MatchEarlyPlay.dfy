/** A card played between the deal and the first hand is lost, and a run gets there. */
module MatchEarlyPlay {
  import opened Options
  import opened TressetteCards
  import opened DelayedTasks
  import opened TressetteMatch
  import opened MatchRuns
  import opened MatchCards
  import opened MatchShape
  import opened MatchRounds
  import opened MatchScores
  import opened MatchTheorems
  import CardLists

  /** The shape survives a play exactly when the hand had been opened: the server's `hand_in_round_` tells. */
  lemma PlayKeepsShapeIff(m: Match, uid: int, card: int, now: int)
    requires Shape(m)
    ensures var m' := m.PlayCard(uid, card, false, now).0; (m'.phase.Ended? || Shape(m')) <==> !TooEarly(m, uid, card)
  {
    TooEarlyIsAccepted(m, uid, card, false, now);
    if TooEarly(m, uid, card) {
      var i := m.FindPlayer(uid);
      assert BetweenHands(m);
      HeldCardIsReal(m, i, card);
      var placed := m.Held(i, false).Placed(i, card);
      assert placed.table[1] == NO_CARD;
      assert m.PlayCard(uid, card, false, now).0.table[i] == card;
    } else {
      PlayKeepsShape(m, uid, card, false, now);
    }
  }

  lemma FirstEarlyPlay(m: Match, first: int, now: int)
    requires Shape(m) && BetweenHands(m) && m.turn == 0 && first in m.seats[0].cards && IsCard(first)
    ensures var (early, reply) := m.PlayCard(m.seats[0].uid, first, false, now);
            reply.Accepted? && early == m.Held(0, false).Placed(0, first).PassTurn()
  {
  }

  /** Seat 0 on turn with its own slot filled and no suit led. */
  lemma SecondPlay(m: Match, second: int, now: int)
    requires m.phase.Playing? && |m.seats| == |m.table| >= 2 && m.turn == 0 && m.suit == -1
    requires m.FindPlayer(m.seats[0].uid) == 0 && second in m.seats[0].cards && IsCard(second)
    requires m.table[0] != NO_CARD && m.table[1] == NO_CARD && m.ledger.overwritten == []
    ensures var (m', reply) := m.PlayCard(m.seats[0].uid, second, false, now);
            reply.Accepted? && m'.ledger.overwritten == [m.table[0]] && m'.table[0] == second
  {
  }

  lemma EarlyState(m: Match, first: int)
    requires Shape(m) && BetweenHands(m) && m.turn == 0 && first in m.seats[0].cards && IsCard(first)
    ensures var early := m.Held(0, false).Placed(0, first).PassTurn();
            && early.lastWon == NO_WINNER && early.table[0] == first && early.table[1] == NO_CARD
            && early.ledger.overwritten == [] && early.seats[0].uid == m.seats[0].uid
            && early.seats[0].cards == CardLists.Without(m.seats[0].cards, first)
  {
  }

  /** The first hand opens on the same seat, its card still on the table and no suit led. */
  lemma OpenedAfterEarlyPlay(m: Match, first: int)
    requires Shape(m) && BetweenHands(m) && m.turn == 0 && first in m.seats[0].cards && IsCard(first)
    ensures var open := m.Held(0, false).Placed(0, first).PassTurn().OpenHand();
            && open.phase.Playing? && |open.seats| == |open.table| == |m.seats| && open.turn == 0 && open.suit == -1
            && open.seats[0].uid == m.seats[0].uid && open.FindPlayer(m.seats[0].uid) == 0
            && open.seats[0].cards == CardLists.Without(m.seats[0].cards, first)
            && open.table[0] == first && open.table[1] == NO_CARD && open.ledger.overwritten == []
  {
    var early := m.Held(0, false).Placed(0, first).PassTurn();
    FoundBySeat(m, 0);
    SameSeatOf(m.seats, early.OpenHand().seats, m.seats[0].uid);
    EarlyState(m, first);
  }

  /**
   A card accepted before the first hand is opened is lost: the opening puts the same seat on turn
   again with no suit led, and the next card it plays replaces the first in its slot.
   */
  lemma EarlyPlayLosesACard(m: Match, first: int, second: int, now: int, later: int)
    requires Shape(m) && BetweenHands(m) && m.turn == 0
    requires first in m.seats[0].cards && second in CardLists.Without(m.seats[0].cards, first)
    ensures m.PlayCard(m.seats[0].uid, first, false, now).1.Accepted?
    ensures var (m', reply) := m.PlayCard(m.seats[0].uid, first, false, now).0.OpenHand().PlayCard(m.seats[0].uid, second, false, later);
            reply.Accepted? && m'.ledger.overwritten == [first] && !Partition(m')
  {
    HeldCardIsReal(m, 0, first);
    FirstEarlyPlay(m, first, now);
    WithoutAreCards(m.seats[0].cards, first);
    OpenedAfterEarlyPlay(m, first);
    SecondPlay(m.Held(0, false).Placed(0, first).PassTurn().OpenHand(), second, later);
  }

  // ----- a run that gets there -----

  function QuietTick(now: int): (int, Event) {
    (now, Elapse(Tick(now, FULL_DECK, {}, false, None, 1)))
  }

  /** The first round begins and its cards are dealt. */
  const DEALING: seq<(int, Event)> := [QuietTick(4_001)] + [QuietTick(5_001)]

  /** A full table waits three seconds before its game starts. */
  const STARTING: seq<(int, Event)> := [QuietTick(0)] + ([QuietTick(3_001)] + DEALING)

  /** Two users join a new table and their first hands are dealt. */
  const DEALT_TABLE: seq<(int, Event)> := [(0, Join(1))] + ([(0, Join(2))] + STARTING)

  function TwoSeats(): seq<Seat> { [Seat(1, 0, false, 1, false, false, [], 0, 0), Seat(2, 1, false, 1, false, false, [], 0, 0)] }

  lemma JoinedTwo() returns (m: Match)
    ensures m == Step(Step(NewMatch(SOLO, 11, 0), 0, Join(1)), 0, Join(2))
    ensures m == NewMatch(SOLO, 11, 0).(seats := TwoSeats())
  {
    var one := NewMatch(SOLO, 11, 0);
    assert one.seats == [VACANT.(team := 0), VACANT.(team := 1)];
    var two := Step(one, 0, Join(1));
    assert two.seats == [TwoSeats()[0], VACANT.(team := 1)];
    SeatFound(two.seats, 1);
    m := Step(two, 0, Join(2));
    assert two.seats[1..] == [VACANT.(team := 1)];
    assert m.seats == TwoSeats();
  }

  lemma {:induction false} QuietTurns(m: Match, i: nat, tick: Tick)
    requires i <= |m.seats| && forall k :: 0 <= k < |m.seats| ==> !m.seats[k].onTurn
    ensures m.AllTurns(i, tick) == m
    decreases |m.seats| - i
  {
    if i < |m.seats| { QuietTurns(m, i + 1, tick); }
  }

  /** A tick with one task due and nobody on turn does just that task. */
  lemma OneTaskTick(m: Match, now: int)
    requires m.phase.Playing? && m.queue.HasDue(now) && now - m.timeStart <= TIME_MATCH_MAXIMUM
    requires var m' := Popped(At(m, now)).RunTask(m.queue.tasks[0].task, now, FULL_DECK);
             && m'.phase.Playing? && m'.timeStart == m.timeStart && !m'.queue.HasDue(now)
             && forall k :: 0 <= k < |m'.seats| ==> !m'.seats[k].onTurn
    ensures Step(m, now, QuietTick(now).1) == Popped(At(m, now)).RunTask(m.queue.tasks[0].task, now, FULL_DECK)
  {
    var at := At(m, now);
    var m' := Popped(at).RunTask(m.queue.tasks[0].task, now, FULL_DECK);
    assert RunDue(at, now, FULL_DECK) == RunDue(m', now, FULL_DECK) == m';
    QuietTurns(m', 0, QuietTick(now).1.tick);
  }

  ghost predicate JustStarted(m: Match) {
    && Shape(m) && GameOpening(m) && m.queue.tasks == [Timed(4_001, 1, NewRound)]
    && m.timeStart == 3_001 && m.ledger.clock == 3_001
  }

  predicate Ready(m: Match) {
    && m.phase.PreparingStart? && m.timeStart == 3_000 && m.seats == TwoSeats() && m.playerMode == SOLO
    && m.queue.tasks == [] && m.queue.nextId == 1 && m.ledger.clock == 0
  }

  /** Once the second user has joined, the match prepares to start. */
  lemma PreparedTwo(m: Match)
    requires m == NewMatch(SOLO, 11, 0).(seats := TwoSeats())
    ensures Step(m, 0, QuietTick(0).1) == m.PrepareStart(0) && Ready(m.PrepareStart(0))
  {
    assert At(m, 0) == m;
    assert RunDue(m, 0, FULL_DECK) == m;
  }

  lemma StartedGame(m: Match)
    requires m.seats == TwoSeats() && m.playerMode == SOLO && m.queue.tasks == [] && m.queue.nextId == 1
    requires m.ledger.clock == 3_001
    ensures JustStarted(m.StartGame(3_001))
  {
    PushedOne(m.queue, 4_001, NewRound);
    assert GameOpening(m.StartGame(3_001));
  }

  /** Three seconds later a game starts. */
  lemma GameBegins(m: Match) returns (m': Match)
    requires Ready(m)
    ensures m' == Step(m, 3_001, QuietTick(3_001).1)
    ensures JustStarted(m')
  {
    var at := At(m, 3_001);
    m' := at.StartGame(3_001);
    assert RunDue(at, 3_001, FULL_DECK) == at;
    assert at.AfterTasks(QuietTick(3_001).1.tick) == m';
    StartedGame(at);
  }

  lemma DealRound(m: Match)
    requires Shape(m) && TwoPending(m, DealCards, NewHand) && m.turn == 0 && m.timeStart == 3_001
    requires m.queue.tasks[0].runAt == 5_001 && m.queue.tasks[1].runAt == 6_001
    ensures var m' := Step(m, 5_001, QuietTick(5_001).1); Shape(m') && BetweenHands(m') && m'.turn == 0
  {
    var at := At(m, 5_001);
    SameShapeKeeps(m, at);
    TaskKeepsShape(at, 5_001, FULL_DECK);
    assert Popped(at).queue.tasks == m.queue.tasks[1..];
    OneTaskTick(m, 5_001);
  }

  /** One second later its first round begins, and after another its cards are dealt. */
  lemma DealtTwo(m: Match) returns (m': Match)
    requires JustStarted(m)
    ensures m' == Step(Step(m, 4_001, QuietTick(4_001).1), 5_001, QuietTick(5_001).1)
    ensures Step(m, 4_001, QuietTick(4_001).1).ledger.clock == 4_001
    ensures Shape(m') && BetweenHands(m') && m'.turn == 0
  {
    var at := At(m, 4_001);
    var left := Popped(at);
    SameShapeKeeps(m, at);
    assert left.queue.tasks == [];
    var round := left.StartRound(4_001);
    TaskKeepsShape(at, 4_001, FULL_DECK);
    PushedTwo(left.queue, 5_001, DealCards, 6_001, NewHand);
    OneTaskTick(m, 4_001);
    m' := Step(round, 5_001, QuietTick(5_001).1);
    DealRound(round);
  }

  lemma DealRun(m: Match) returns (m': Match)
    requires JustStarted(m)
    ensures AdmissibleRun(m, DEALING) && m' == Run(m, DEALING)
    ensures Shape(m') && BetweenHands(m') && m'.turn == 0
  {
    m' := DealtTwo(m);
    var round := Step(m, 4_001, QuietTick(4_001).1);
    RunStarts(round, QuietTick(5_001), []);
    RunStarts(m, QuietTick(4_001), [QuietTick(5_001)]);
  }

  lemma ReadyRun(m: Match) returns (m': Match)
    requires Ready(m)
    ensures AdmissibleRun(m, [QuietTick(3_001)] + DEALING) && m' == Run(m, [QuietTick(3_001)] + DEALING)
    ensures Shape(m') && BetweenHands(m') && m'.turn == 0
  {
    var started := GameBegins(m);
    m' := DealRun(started);
    RunStarts(m, QuietTick(3_001), DEALING);
  }

  lemma StartRun(m: Match) returns (m': Match)
    requires m == NewMatch(SOLO, 11, 0).(seats := TwoSeats())
    ensures AdmissibleRun(m, STARTING) && m' == Run(m, STARTING)
    ensures Shape(m') && BetweenHands(m') && m'.turn == 0
  {
    PreparedTwo(m);
    m' := ReadyRun(m.PrepareStart(0));
    RunStarts(m, QuietTick(0), [QuietTick(3_001)] + DEALING);
  }

  /** An admissible run from a new table ends where a card can be played too early. */
  lemma EarlyPlayIsReachable()
    ensures AdmissibleRun(NewMatch(SOLO, 11, 0), DEALT_TABLE)
    ensures var m := Run(NewMatch(SOLO, 11, 0), DEALT_TABLE);
            Shape(m) && BetweenHands(m) && m.turn == 0 && TooEarly(m, m.seats[0].uid, m.seats[0].cards[0])
  {
    var none := NewMatch(SOLO, 11, 0);
    var joined := JoinedTwo();
    var dealt := StartRun(joined);
    RunStarts(Step(none, 0, Join(1)), (0, Join(2)), STARTING);
    RunStarts(none, (0, Join(1)), [(0, Join(2))] + STARTING);
    FoundBySeat(dealt, 0);
  }
}
