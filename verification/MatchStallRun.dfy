/**
 An admissible run from a new table for four into a stall: in the second trick seat 3 leads suit 1,
 seat 0 has none and throws suit 2, and the bot in seat 1 holds both.
 */
module MatchStallRun {
  import opened Options
  import opened TressetteCards
  import opened DelayedTasks
  import opened TressetteMatch
  import opened MatchRuns
  import opened MatchCards
  import opened MatchShape
  import opened MatchRounds
  import opened MatchScores
  import opened MatchTheorems
  import opened MatchBots
  import opened MatchStall
  import CardLists

  const USERS: seq<int> := [1, BOT, 2, 3]

  function Plain(now: int, expired: set<int>): (int, Event) {
    (now, Elapse(Tick(now, STALL_DEAL, expired, false, None, 1)))
  }

  // ----- the table fills -----

  /** A table that waits, with these users in its seats. */
  ghost predicate Sat(m: Match, uids: seq<int>, now: int) {
    && Inv(m) && m.phase.Waiting? && m.queue == Queue([], 1) && m.ledger.clock == now
    && m.playerMode == DUO && m.pointMode == 21 && |uids| == |m.seats| == 4
    && forall k :: 0 <= k < 4 ==> m.seats[k] == Seat(uids[k], k % 2, uids[k] == BOT, 1, false, false, [], 0, 0)
  }

  lemma FirstFree(m: Match, uids: seq<int>, now: int, k: nat, uid: int)
    requires Sat(m, uids, now) && k < 4 && uids[k] == EMPTY_UID && uid !in uids
    requires forall j :: 0 <= j < k ==> uids[j] != EMPTY_UID
    ensures !m.IsPlayer(uid) && FirstVacant(m.seats) == k
  {
    forall j | 0 <= j < 4 ensures m.seats[j].uid != uid {
      assert uids[j] in uids;
    }
    SeatMissing(m.seats, uid);
    SeatFound(m.seats, k);
  }

  lemma SitsDown(m: Match, uids: seq<int>, before: int, k: nat, uid: int, now: int)
    requires Sat(m, uids, before) && before <= now && k < 4 && uids[k] == EMPTY_UID && uid !in uids && NO_WINNER < uid && uid != BOT
    requires forall j :: 0 <= j < k ==> uids[j] != EMPTY_UID
    ensures Admissible(m, now, Join(uid)) && Sat(Step(m, now, Join(uid)), uids[k := uid], now)
  {
    FirstFree(m, uids, before, k, uid);
    StepKeepsInv(m, now, Join(uid));
  }

  const BOT_TICK: (int, Event) := (10_000, Elapse(Tick(10_000, STALL_DEAL, {}, true, Some(BOT), 1)))

  lemma BotSitsDown(m: Match)
    requires Sat(m, [1, EMPTY_UID, EMPTY_UID, EMPTY_UID], 0)
    ensures Admissible(m, BOT_TICK.0, BOT_TICK.1) && Sat(Step(m, BOT_TICK.0, BOT_TICK.1), [1, BOT, EMPTY_UID, EMPTY_UID], 10_000)
  {
    var at := At(m, 10_000);
    StallDealIsShuffled();
    StepKeepsInv(m, BOT_TICK.0, BOT_TICK.1);
    FirstFree(m, [1, EMPTY_UID, EMPTY_UID, EMPTY_UID], 0, 1, BOT);
    assert RunDue(at, 10_000, STALL_DEAL) == at;
    assert !at.seats[0].Empty() && !at.seats[0].isBot && at.seats[1].Empty();
    assert Step(m, BOT_TICK.0, BOT_TICK.1) == at.TryJoin(BOT, true, 1);
  }

  // ----- ticks -----

  lemma {:induction false} NobodysTurn(m: Match, i: nat, tick: Tick)
    requires i <= |m.seats| && tick.expired == {}
    ensures m.AllTurns(i, tick) == m
    decreases |m.seats| - i
  {
    if i < |m.seats| { NobodysTurn(m, i + 1, tick); }
  }

  lemma {:induction false} NoneDue<T(!new)>(tasks: seq<Timed<T>>, now: int)
    requires Ordered(tasks) && (tasks != [] ==> tasks[0].runAt > now)
    ensures CountDue(tasks, now) == 0
  {
    if |tasks| > 1 {
      assert Before(tasks[0], tasks[1]);
      NoneDue(tasks[1..], now);
    }
  }

  lemma NothingLeftDue(m: Match, task: Task, now: int, shuffled: seq<int>)
    requires !m.queue.HasDue(now)  && m.queue.Valid()
    ensures m.RunTask(task, now, shuffled).queue.DueCount(now) == 0
  {
    TaskKeepsDue(m, task, now, shuffled);
    NoneDue(m.queue.tasks, now);
  }

  /** With one task due and no timer run out, a tick does that task. */
  lemma OneTask(m: Match, now: int)
    requires Inv(m) && m.phase.Playing? && m.ledger.clock <= now <= m.timeStart + TIME_MATCH_MAXIMUM
    requires m.queue.HasDue(now) && !Popped(m).queue.HasDue(now)
    ensures Admissible(m, now, Plain(now, {}).1)
    ensures var m' := Step(m, now, Plain(now, {}).1);
            Inv(m') && m' == Popped(At(m, now)).RunTask(m.queue.tasks[0].task, now, STALL_DEAL)
  {
    var at := At(m, now);
    var task := m.queue.tasks[0].task;
    var m' := Popped(at).RunTask(task, now, STALL_DEAL);
    StallDealIsShuffled();
    StepKeepsInv(m, now, Plain(now, {}).1);
    m.queue.PopIsLeast();
    NothingLeftDue(Popped(at), task, now, STALL_DEAL);
    assert RunDue(at, now, STALL_DEAL) == RunDue(m', now, STALL_DEAL) == m';
    ClockKeepsInv(m, now);
    TaskKeepsShape(at, now, STALL_DEAL);
    TaskKeepsStart(Popped(at), task, now, STALL_DEAL);
    NobodysTurn(m', 0, Plain(now, {}).1.tick);
  }

  // ----- the game starts -----

  ghost predicate Party(m: Match) {
    && Inv(m) && m.phase.Playing? && m.timeStart == 14_001 && m.playerMode == DUO && m.pointMode == 21
    && |m.seats| == |m.table| == 4
    && forall k :: 0 <= k < 4 ==> m.seats[k].uid == USERS[k] && (m.seats[k].isBot <==> k == 1) && 0 <= m.seats[k].points <= 12
  }

  /** Nobody has a point yet. */
  ghost predicate Pointless(m: Match) {
    forall k :: 0 <= k < |m.seats| ==> m.seats[k].points == 0
  }

  lemma GameStarts(m: Match) returns (m': Match)
    requires Inv(m) && m.phase.PreparingStart? && m.timeStart == 14_000 && m.queue == Queue([], 1) && m.ledger.clock == 11_000
    requires m.playerMode == DUO && m.pointMode == 21 && |m.seats| == 4
    requires forall k :: 0 <= k < 4 ==> m.seats[k].uid == USERS[k] && (m.seats[k].isBot <==> k == 1)
    ensures Admissible(m, 14_001, Plain(14_001, {}).1) && m' == Step(m, 14_001, Plain(14_001, {}).1)
    ensures Party(m') && m'.ledger.clock == 14_001 && m'.queue.tasks == [Timed(15_001, 1, NewRound)] && m'.lastWon == NO_WINNER
    ensures Pointless(m')
  {
    StallDealIsShuffled();
    var at := At(m, 14_001);
    assert RunDue(at, 14_001, STALL_DEAL) == at;
    m' := at.StartGame(14_001);
    StepKeepsInv(m, 14_001, Plain(14_001, {}).1);
    assert m' == Step(m, 14_001, Plain(14_001, {}).1);
    assert m'.seats == ResetSeats(m.seats);
    PushedOne(at.queue, 15_001, NewRound);
  }

  lemma TableStarts(m: Match) returns (m': Match)
    requires Sat(m, USERS, 11_000)
    ensures m' == Step(Step(m, 11_000, Plain(11_000, {}).1), 14_001, Plain(14_001, {}).1)
    ensures Admissible(m, 11_000, Plain(11_000, {}).1)
    ensures Admissible(Step(m, 11_000, Plain(11_000, {}).1), 14_001, Plain(14_001, {}).1)
    ensures Party(m') && m'.ledger.clock == 14_001 && m'.queue.tasks == [Timed(15_001, 1, NewRound)] && m'.lastWon == NO_WINNER
    ensures Pointless(m')
  {
    StallDealIsShuffled();
    var ready := At(m, 11_000).PrepareStart(11_000);
    assert RunDue(At(m, 11_000), 11_000, STALL_DEAL) == At(m, 11_000);
    StepKeepsInv(m, 11_000, Plain(11_000, {}).1);
    assert Step(m, 11_000, Plain(11_000, {}).1) == ready;
    m' := GameStarts(ready);
  }

  /** The round begins, the cards are dealt and the first hand is opened. */
  lemma RoundBegins(m: Match) returns (m': Match)
    requires Party(m) && m.ledger.clock == 14_001 && m.queue.tasks == [Timed(15_001, 1, NewRound)] && m.lastWon == NO_WINNER
    requires Pointless(m)
    ensures Admissible(m, 15_001, Plain(15_001, {}).1) && m' == Step(m, 15_001, Plain(15_001, {}).1)
    ensures Party(m') && m'.ledger.clock == 15_001 && m'.lastWon == NO_WINNER
    ensures |m'.queue.tasks| == 2 && m'.queue.tasks[0].runAt == 16_001 && m'.queue.tasks[0].task == DealCards
    ensures m'.queue.tasks[1].runAt == 17_001 && m'.queue.tasks[1].task == NewHand
    ensures Pointless(m')
  {
    OneTask(m, 15_001);
    m' := Step(m, 15_001, Plain(15_001, {}).1);
    PushedTwo(Popped(At(m, 15_001)).queue, 16_001, DealCards, 17_001, NewHand);
  }

  ghost predicate SamePoints(m: Match, m': Match) {
    |m'.seats| == |m.seats| && forall k :: 0 <= k < |m.seats| ==> m'.seats[k].points == m.seats[k].points
  }

  function Hands(): seq<seq<int>> {
    [HAND_0, HAND_1, HAND_2, HAND_3]
  }

  ghost predicate Holding(m: Match, hands: seq<seq<int>>)
    requires |m.seats| == 4
  {
    |hands| == 4 && m.deck == [] && forall k :: 0 <= k < 4 ==> m.seats[k].cards == hands[k]
  }

  lemma DealtHands()
    ensures |STALL_DEAL| == 40 && STALL_DEAL[40..] == []
    ensures STALL_DEAL[0..10] == HAND_0 && STALL_DEAL[10..20] == HAND_1
    ensures STALL_DEAL[20..30] == HAND_2 && STALL_DEAL[30..40] == HAND_3
  {
  }

  lemma Dealt(m: Match) returns (m': Match)
    requires Party(m) && m.ledger.clock == 15_001 && m.lastWon == NO_WINNER && |m.queue.tasks| == 2
    requires m.queue.tasks[0].runAt == 16_001 && m.queue.tasks[0].task == DealCards
    requires m.queue.tasks[1].runAt == 17_001 && m.queue.tasks[1].task == NewHand
    ensures Admissible(m, 16_001, Plain(16_001, {}).1) && m' == Step(m, 16_001, Plain(16_001, {}).1)
    ensures Party(m') && m'.ledger.clock == 16_001 && m'.lastWon == NO_WINNER && Holding(m', Hands())
    ensures |m'.queue.tasks| == 1 && m'.queue.tasks[0].runAt == 17_001 && m'.queue.tasks[0].task == NewHand
    ensures SamePoints(m, m')
  {
    OneTask(m, 16_001);
    m' := Step(m, 16_001, Plain(16_001, {}).1);
    DealtHands();
  }

  // ----- playing -----

  /** In a trick, with these hands and this table. */
  ghost predicate Playing4(m: Match, hands: seq<seq<int>>, table: seq<int>, turn: int, suit: int) {
    && Party(m) && NonePending(m) && InTrick(m) && Holding(m, hands)
    && m.table == table && m.turn == turn && m.suit == suit
  }

  lemma Opened(m: Match, hands: seq<seq<int>>, leader: nat)
    requires Party(m.OpenHand()) && |m.seats| == 4 && Holding(m, hands) && m.Leader() == leader < 4 && NonePending(m)
    requires m.table == ClearTable(4)
    ensures Playing4(m.OpenHand(), hands, ClearTable(4), leader, -1) && SamePoints(m, m.OpenHand())
  {
  }

  lemma HandOpens(m: Match, now: int, hands: seq<seq<int>>, leader: nat) returns (m': Match)
    requires Party(m) && m.ledger.clock <= now <= 20_000 && Holding(m, hands) && m.Leader() == leader < 4
    requires |m.queue.tasks| == 1 && m.queue.tasks[0].runAt == now && m.queue.tasks[0].task == NewHand
    ensures Admissible(m, now, Plain(now, {}).1) && m' == Step(m, now, Plain(now, {}).1) && m'.ledger.clock == now
    ensures Playing4(m', hands, ClearTable(4), leader, -1) && SamePoints(m, m')
  {
    OneTask(m, now);
    m' := Step(m, now, Plain(now, {}).1);
    assert Quiet(m);
    Opened(Popped(At(m, now)), hands, leader);
  }

  /** The seat on turn puts its first card down, and a slot stays free. */
  ghost predicate MayPlay(m: Match, hands: seq<seq<int>>, table: seq<int>, turn: int, suit: int) {
    && Playing4(m, hands, table, turn, suit) && 0 <= turn < 4 && hands[turn] != []
    && (suit == -1 || Suit(hands[turn][0]) == suit || !HasSuit(hands[turn], suit))
  }

  lemma Accepted4(m: Match, hands: seq<seq<int>>, table: seq<int>, turn: int, suit: int)
    requires MayPlay(m, hands, table, turn, suit)
    ensures var card := hands[turn][0];
            m.PlayCard(USERS[turn], card, false, m.ledger.clock) ==
            (m.Held(turn, false).Accept(turn, card, m.ledger.clock), Accepted)
    ensures !TooEarly(m, USERS[turn], hands[turn][0])
  {
    TurnIsOpen(m);
    FoundBySeat(m, turn);
  }

  /** That is the step of its packet. */
  lemma PlayIsStep(m: Match, hands: seq<seq<int>>, table: seq<int>, turn: int, suit: int)
    requires MayPlay(m, hands, table, turn, suit)
    ensures var e := Play(USERS[turn], hands[turn][0]);
            && Admissible(m, m.ledger.clock, e) && Inv(Step(m, m.ledger.clock, e))
            && Step(m, m.ledger.clock, e) == m.Held(turn, false).Accept(turn, hands[turn][0], m.ledger.clock)
  {
    Accepted4(m, hands, table, turn, suit);
    assert At(m, m.ledger.clock) == m;
    StepKeepsInv(m, m.ledger.clock, Play(USERS[turn], hands[turn][0]));
  }

  lemma CardDown(m: Match, hands: seq<seq<int>>, table: seq<int>, turn: int, suit: int) returns (m': Match)
    requires m.phase.Playing? && m.playerMode == |m.seats| == |table| == 4 && Holding(m, hands) && m.table == table && m.suit == suit
    requires 0 <= turn < 4 && m.turn == turn && hands[turn] != [] && NO_CARD in table[turn := hands[turn][0]]
    ensures m' == m.Held(turn, false).Accept(turn, hands[turn][0], m.ledger.clock)
    ensures var card := hands[turn][0];
            && m'.phase.Playing? && m'.queue == m.queue && m'.timeStart == m.timeStart && m'.ledger.clock == m.ledger.clock
            && SamePeople(m, m') && m'.turn == (if turn == 3 then 0 else turn + 1) && m'.table == table[turn := card]
            && m'.suit == (if suit == -1 then Suit(card) else suit) && m'.lastWon == m.lastWon
            && (forall k :: 0 <= k < 4 ==> m'.seats[k].isBot == m.seats[k].isBot && m'.seats[k].points == m.seats[k].points)
            && Holding(m', hands[turn := hands[turn][1..]])
  {
    m' := m.Held(turn, false).Accept(turn, hands[turn][0], m.ledger.clock);
  }

  /** What is left is a trick again, one card on. */
  lemma GoesOn(m: Match, m': Match, hands: seq<seq<int>>, table: seq<int>, turn: int, suit: int)
    requires MayPlay(m, hands, table, turn, suit) && NO_CARD in table[turn := hands[turn][0]] && Inv(m')
    requires m' == m.Held(turn, false).Accept(turn, hands[turn][0], m.ledger.clock)
    ensures Playing4(m', hands[turn := hands[turn][1..]], table[turn := hands[turn][0]], if turn == 3 then 0 else turn + 1,
                     if suit == -1 then Suit(hands[turn][0]) else suit)
    ensures m'.ledger.clock == m.ledger.clock && m'.lastWon == m.lastWon && SamePoints(m, m')
  {
    var _ := CardDown(m, hands, table, turn, suit);
  }

  lemma UserPlays(m: Match, hands: seq<seq<int>>, table: seq<int>, turn: int, suit: int) returns (m': Match)
    requires MayPlay(m, hands, table, turn, suit) && NO_CARD in table[turn := hands[turn][0]]
    ensures var e := Play(USERS[turn], hands[turn][0]); Admissible(m, m.ledger.clock, e) && m' == Step(m, m.ledger.clock, e)
    ensures Playing4(m', hands[turn := hands[turn][1..]], table[turn := hands[turn][0]], if turn == 3 then 0 else turn + 1,
                     if suit == -1 then Suit(hands[turn][0]) else suit)
    ensures m'.ledger.clock == m.ledger.clock && m'.lastWon == m.lastWon && SamePoints(m, m')
  {
    var e := Play(USERS[turn], hands[turn][0]);
    PlayIsStep(m, hands, table, turn, suit);
    m' := Step(m, m.ledger.clock, e);
    GoesOn(m, m', hands, table, turn, suit);
  }

  /** The bot's one card of the suit led is its first, so that is what it plays, whatever it searches. */
  lemma BotsCard(m: Match, hands: seq<seq<int>>, table: seq<int>, suit: int)
    requires MayPlay(m, hands, table, 1, suit) && suit != -1 && FirstFilled(table) != NO_CARD && Suit(FirstFilled(table)) == suit
    requires Suit(hands[1][0]) == suit && forall k :: 0 < k < |hands[1]| ==> Suit(hands[1][k]) != suit
    ensures m.BotCard(1) == hands[1][0]
  {
    BotCardIsHeld(m);
    assert hands[1][0] in hands[1];
    var card := m.BotCard(1);
    if BotMove(m) != NO_CARD {
      var k :| 0 <= k < |hands[1]| && hands[1][k] == card;
      assert HasSuit(m.seats[1].cards, suit);
    }
  }

  lemma BotTurn(m: Match, hands: seq<seq<int>>, table: seq<int>, suit: int)
    requires MayPlay(m, hands, table, 1, suit) && m.BotCard(1) == hands[1][0]
    ensures m.SeatTurn(1, m.ledger.clock, {1}) == m.Held(1, false).Accept(1, hands[1][0], m.ledger.clock)
  {
    assert SeatInTrick(m, 1);
    Accepted4(m, hands, table, 1, suit);
  }

  lemma QuietLoop(m: Match, tick: Tick)
    requires NonePending(m)
    ensures Loop(m, tick) == m.AfterTasks(tick)
  {
  }

  lemma {:induction false} OthersRest(m: Match, i: nat, tick: Tick)
    requires 2 <= i <= |m.seats| && tick.expired == {1}
    ensures m.AllTurns(i, tick) == m
    decreases |m.seats| - i
  {
    if i < |m.seats| { OthersRest(m, i + 1, tick); }
  }

  lemma OnlyTurn(m: Match, m': Match, tick: Tick)
    requires |m.seats| == 4 && tick.expired == {1} && m.SeatTurn(1, tick.now, tick.expired) == m' && |m'.seats| == 4
    ensures m.AllTurns(0, tick) == m'
  {
    OthersRest(m', 2, tick);
    assert m.SeatTurn(0, tick.now, tick.expired) == m;
    assert m.AllTurns(0, tick) == m.AllTurns(1, tick);
  }

  lemma TickIsTurn(m: Match, m': Match, tick: Tick)
    requires NonePending(m) && m.phase.Playing? && |m.seats| == |m'.seats| == 4
    requires m.ledger.clock == tick.now <= m.timeStart + TIME_MATCH_MAXIMUM
    requires tick.expired == {1} && m.SeatTurn(1, tick.now, tick.expired) == m'
    ensures Step(m, tick.now, Elapse(tick)) == m'
  {
    assert At(m, tick.now) == m;
    QuietLoop(m, tick);
    OnlyTurn(m, m', tick);
  }

  /** Only seat 1's timer has run out: a tick is its turn. */
  lemma BotTick(m: Match, hands: seq<seq<int>>, table: seq<int>, suit: int)
    requires MayPlay(m, hands, table, 1, suit) && m.BotCard(1) == hands[1][0] && m.ledger.clock <= 20_000
    requires NO_CARD in table[1 := hands[1][0]]
    ensures Step(m, m.ledger.clock, Plain(m.ledger.clock, {1}).1) == m.Held(1, false).Accept(1, hands[1][0], m.ledger.clock)
  {
    var tick := Plain(m.ledger.clock, {1}).1.tick;
    BotTurn(m, hands, table, suit);
    var m' := CardDown(m, hands, table, 1, suit);
    TickIsTurn(m, m', tick);
  }

  lemma BotPlays(m: Match, hands: seq<seq<int>>, table: seq<int>, suit: int) returns (m': Match)
    requires MayPlay(m, hands, table, 1, suit) && NO_CARD in table[1 := hands[1][0]]
    requires m.BotCard(1) == hands[1][0] && m.ledger.clock <= 20_000
    ensures var e := Plain(m.ledger.clock, {1}); Admissible(m, e.0, e.1) && m' == Step(m, e.0, e.1)
    ensures Playing4(m', hands[1 := hands[1][1..]], table[1 := hands[1][0]], 2, if suit == -1 then Suit(hands[1][0]) else suit)
    ensures m'.ledger.clock == m.ledger.clock && m'.lastWon == m.lastWon && SamePoints(m, m')
  {
    var e := Plain(m.ledger.clock, {1});
    StallDealIsShuffled();
    Accepted4(m, hands, table, 1, suit);
    m' := Step(m, e.0, e.1);
    StepKeepsInv(m, e.0, e.1);
    BotTick(m, hands, table, suit);
    GoesOn(m, m', hands, table, 1, suit);
  }

  // ----- the first trick is won by seat 3 -----

  lemma {:induction false} TeamScoreIsPart(seats: seq<Seat>, team: int)
    requires forall k :: 0 <= k < |seats| ==> 0 <= seats[k].points <= 12
    ensures TeamScore(seats, team) <= 12 * |seats|
  {
    if seats != [] { TeamScoreIsPart(seats[..|seats| - 1], team); }
  }

  lemma BestOfFirst(table: seq<int>)
    requires table == [12, 0, 4, 8]
    ensures BestOfSuit(table, 0, 4) == 8 && SlotOf(table, 8) == 3 && 0 <= ValueOf(table) <= 12
  {
    assert BestOfSuit(table, 0, 1) == 12;
    assert BestOfSuit(table, 0, 2) == 0;
    assert BestOfSuit(table, 0, 3) == 4;
    assert BestOfSuit(table, 0, 4) == 8;
    assert table[1..] == [0, 4, 8] && table[1..][1..] == [4, 8] && table[1..][1..][1..] == [8];
    ValueIsSmall(table);
  }

  const FIRST_TRICK: seq<int> := [12, 0, 4, 8]

  /** The trick is seat 3's and the next hand is scheduled. */
  ghost predicate Won(m: Match, m': Match, hands: seq<seq<int>>)
    requires |m.seats| == 4
  {
    && m'.phase.Playing? && m'.lastWon == 3 && m'.timeStart == m.timeStart && m'.ledger.clock == m.ledger.clock && SamePeople(m, m')
    && (forall k :: 0 <= k < 4 ==> m'.seats[k].isBot == m.seats[k].isBot && 0 <= m'.seats[k].points <= 12)
    && Holding(m', hands) && m'.table == ClearTable(4) && m'.queue == m.queue.Push(19_001, NewHand)
  }

  lemma SeatThreeLeads(m: Match)
    requires |m.seats| == 4 && m.lastWon == 3 && forall k :: 0 <= k < 4 ==> m.seats[k].uid == USERS[k]
    ensures m.Leader() == 3
  {
    SeatFound(m.seats, 3);
  }

  lemma WonGoesOn(m: Match, m': Match, hands: seq<seq<int>>)
    requires Party(m) && NonePending(m) && m.ledger.clock == 17_001 && Inv(m') && Won(m, m', hands)
    ensures Party(m') && m'.ledger.clock == 17_001 && m'.Leader() == 3 && Holding(m', hands)
    ensures |m'.queue.tasks| == 1 && m'.queue.tasks[0].runAt == 19_001 && m'.queue.tasks[0].task == NewHand
  {
    PushedOne(m.queue, 19_001, NewHand);
    SeatThreeLeads(m');
  }

  lemma LastIsAccepted(m: Match)
    requires |m.seats| == |m.table| == 4 && m.table[3 := 8] == FIRST_TRICK
    ensures m.Accept(3, 8, 17_001) == m.Placed(3, 8).(turn := -1).EndHand(17_001)
  {
  }

  lemma FullTable(m: Match, hands: seq<seq<int>>)
    requires |m.seats| == 4 && m.table == [12, 0, 4, NO_CARD] && m.suit == 0 && Holding(m, hands) && Pointless(m)
    requires hands[3] != [] && hands[3][0] == 8
    ensures var full := m.Held(3, false).Placed(3, 8).(turn := -1);
            && full.table == FIRST_TRICK && full.suit == 0 && full.phase == m.phase && full.queue == m.queue
            && full.timeStart == m.timeStart && full.ledger.clock == m.ledger.clock
            && SamePeople(m, full) && Holding(full, hands[3 := hands[3][1..]])
            && m.Held(3, false).Accept(3, 8, 17_001) == full.EndHand(17_001)
            && forall k :: 0 <= k < 4 ==> full.seats[k].isBot == m.seats[k].isBot && full.seats[k].points == 0
  {
    assert [12, 0, 4, NO_CARD][3 := 8] == FIRST_TRICK;
    LastIsAccepted(m.Held(3, false));
  }

  lemma SeatThreePaid(m: Match, hands: seq<seq<int>>)
    requires |m.seats| == 4 && m.table == FIRST_TRICK && m.suit == 0 && m.phase.Playing? && m.pointMode == 21
    requires Holding(m, hands) && hands[0] != [] && m.seats[3].uid == 3
    requires Pointless(m)
    ensures Won(m, m.EndHand(17_001), hands)
  {
    BestOfFirst(m.table);
    var paid := m.Paid(3);
    TeamScoreIsPart(paid.seats, 0);
    TeamScoreIsPart(paid.seats, 1);
    assert !paid.ReachedTarget();
  }

  lemma LastCard(m: Match, hands: seq<seq<int>>)
    requires MayPlay(m, hands, [12, 0, 4, NO_CARD], 3, 0) && hands[3][0] == 8 && hands[0] != []
    requires Pointless(m)
    ensures Won(m, m.Held(3, false).Accept(3, 8, 17_001), hands[3 := hands[3][1..]])
  {
    var full := m.Held(3, false).Placed(3, 8).(turn := -1);
    FullTable(m, hands);
    SeatThreePaid(full, hands[3 := hands[3][1..]]);
  }

  /** Seat 3 puts the last card down, is paid, and the next hand is two seconds away. */
  lemma TrickIsWon(m: Match, hands: seq<seq<int>>) returns (m': Match)
    requires MayPlay(m, hands, [12, 0, 4, NO_CARD], 3, 0) && hands[3][0] == 8 && hands[0] != []
    requires m.ledger.clock == 17_001 && (forall k :: 0 <= k < 4 ==> m.seats[k].points == 0)
    ensures Admissible(m, 17_001, Play(3, 8)) && m' == Step(m, 17_001, Play(3, 8))
    ensures Party(m') && m'.ledger.clock == 17_001 && m'.Leader() == 3 && Holding(m', hands[3 := hands[3][1..]])
    ensures |m'.queue.tasks| == 1 && m'.queue.tasks[0].runAt == 19_001 && m'.queue.tasks[0].task == NewHand
  {
    PlayIsStep(m, hands, [12, 0, 4, NO_CARD], 3, 0);
    m' := Step(m, 17_001, Play(3, 8));
    LastCard(m, hands);
    WonGoesOn(m, m', hands[3 := hands[3][1..]]);
  }

  // ----- the run -----

  const SITTING: seq<(int, Event)> := [(0, Join(1))] + ([BOT_TICK] + ([(11_000, Join(2))] + [(11_000, Join(3))]))

  const DEALING: seq<(int, Event)> := [Plain(15_001, {})] + ([Plain(16_001, {})] + [Plain(17_001, {})])

  const STARTING: seq<(int, Event)> := [Plain(11_000, {})] + ([Plain(14_001, {})] + DEALING)

  const FIRST_TWO: seq<(int, Event)> := [(17_001, Play(1, 12))] + [Plain(17_001, {1})]
  const NEXT_TWO: seq<(int, Event)> := [(17_001, Play(2, 4))] + [(17_001, Play(3, 8))]
  const SECOND: seq<(int, Event)> := [Plain(19_001, {})] + ([(19_001, Play(3, 21))] + [(19_001, Play(1, 2))])

  /** Two steps. */
  lemma RunTwo(m: Match, a: (int, Event), b: (int, Event))
    ensures Run(m, [a] + [b]) == Step(Step(m, a.0, a.1), b.0, b.1)
    ensures Admissible(m, a.0, a.1) && Admissible(Step(m, a.0, a.1), b.0, b.1) ==> AdmissibleRun(m, [a] + [b])
  {
    RunStarts(Step(m, a.0, a.1), b, []);
    RunStarts(m, a, [b]);
  }

  lemma EmptyTable(m: Match)
    requires m == NewMatch(DUO, 21, 0)
    ensures Sat(m, [EMPTY_UID, EMPTY_UID, EMPTY_UID, EMPTY_UID], 0)
  {
    NewMatchInv(DUO, 21, 0);
  }

  lemma TwoMoreSit(m: Match) returns (m': Match)
    requires Sat(m, [1, BOT, EMPTY_UID, EMPTY_UID], 10_000)
    ensures AdmissibleRun(m, [(11_000, Join(2))] + [(11_000, Join(3))])
    ensures m' == Run(m, [(11_000, Join(2))] + [(11_000, Join(3))]) && Sat(m', USERS, 11_000)
  {
    SitsDown(m, [1, BOT, EMPTY_UID, EMPTY_UID], 10_000, 2, 2, 11_000);
    assert [1, BOT, EMPTY_UID, EMPTY_UID][2 := 2] == [1, BOT, 2, EMPTY_UID];
    var three := Step(m, 11_000, Join(2));
    SitsDown(three, [1, BOT, 2, EMPTY_UID], 11_000, 3, 3, 11_000);
    assert [1, BOT, 2, EMPTY_UID][3 := 3] == USERS;
    m' := Step(three, 11_000, Join(3));
    RunTwo(m, (11_000, Join(2)), (11_000, Join(3)));
  }

  lemma AllSit(m: Match) returns (m': Match)
    requires m == NewMatch(DUO, 21, 0)
    ensures AdmissibleRun(m, SITTING) && m' == Run(m, SITTING) && Sat(m', USERS, 11_000)
  {
    var none := [EMPTY_UID, EMPTY_UID, EMPTY_UID, EMPTY_UID];
    EmptyTable(m);
    SitsDown(m, none, 0, 0, 1, 0);
    assert none[0 := 1] == [1, EMPTY_UID, EMPTY_UID, EMPTY_UID];
    var one := Step(m, 0, Join(1));
    BotSitsDown(one);
    m' := TwoMoreSit(Step(one, BOT_TICK.0, BOT_TICK.1));
    RunStarts(one, BOT_TICK, [(11_000, Join(2))] + [(11_000, Join(3))]);
    RunStarts(m, (0, Join(1)), [BOT_TICK] + ([(11_000, Join(2))] + [(11_000, Join(3))]));
  }

  lemma StartsAndDeals(m: Match) returns (m': Match)
    requires Party(m) && m.ledger.clock == 14_001 && m.queue.tasks == [Timed(15_001, 1, NewRound)] && m.lastWon == NO_WINNER
    requires Pointless(m)
    ensures AdmissibleRun(m, DEALING) && m' == Run(m, DEALING)
    ensures Playing4(m', Hands(), ClearTable(4), 0, -1) && m'.ledger.clock == 17_001 && Pointless(m')
  {
    var round := RoundBegins(m);
    var dealt := Dealt(round);
    assert dealt.Leader() == 0;
    m' := HandOpens(dealt, 17_001, Hands(), 0);
    RunTwo(round, Plain(16_001, {}), Plain(17_001, {}));
    RunStarts(m, Plain(15_001, {}), [Plain(16_001, {})] + [Plain(17_001, {})]);
  }

  lemma AllStart(m: Match) returns (m': Match)
    requires Sat(m, USERS, 11_000)
    ensures AdmissibleRun(m, STARTING) && m' == Run(m, STARTING)
    ensures Playing4(m', Hands(), ClearTable(4), 0, -1) && m'.ledger.clock == 17_001 && Pointless(m')
  {
    var ready := Step(m, 11_000, Plain(11_000, {}).1);
    var started := TableStarts(m);
    m' := StartsAndDeals(started);
    RunStarts(ready, Plain(14_001, {}), DEALING);
    RunStarts(m, Plain(11_000, {}), [Plain(14_001, {})] + DEALING);
  }

  /** The hands when the first `k` seats have played their first card. */
  function HandsAfter(k: nat): (hands: seq<seq<int>>)
    requires k <= 4
    ensures |hands| == 4 && forall j :: 0 <= j < 4 ==> hands[j] == if j < k then Hands()[j][1..] else Hands()[j]
  {
    seq(4, j requires 0 <= j < 4 => if j < k then Hands()[j][1..] else Hands()[j])
  }

  lemma FirstCards()
    ensures HAND_0[0] == 12 && HAND_1[0] == 0 && HAND_2[0] == 4 && HAND_3[0] == 8
    ensures HAND_0[1] == 2 && HAND_3[1] == 21 && HAND_1[1] == 14
    ensures |HAND_0| == |HAND_1| == |HAND_2| == |HAND_3| == 10
    ensures forall k :: 0 < k < 10 ==> Suit(HAND_1[k]) != 0
    ensures forall k :: 1 <= k < 10 ==> Suit(HAND_0[k]) != 1
    ensures Suit(HAND_1[5]) == 1
  {
  }

  lemma FirstCard(m: Match) returns (m': Match)
    requires Playing4(m, HandsAfter(0), ClearTable(4), 0, -1) && m.ledger.clock == 17_001 && Pointless(m)
    ensures Admissible(m, 17_001, Play(1, 12)) && m' == Step(m, 17_001, Play(1, 12))
    ensures Playing4(m', HandsAfter(1), [12, NO_CARD, NO_CARD, NO_CARD], 1, 0) && m'.ledger.clock == 17_001 && Pointless(m')
  {
    FirstCards();
    assert ClearTable(4)[0 := 12] == [12, NO_CARD, NO_CARD, NO_CARD] && ClearTable(4)[0 := 12][1] == NO_CARD;
    assert HandsAfter(0)[0 := HAND_0[1..]] == HandsAfter(1);
    m' := UserPlays(m, HandsAfter(0), ClearTable(4), 0, -1);
  }

  lemma SecondCard(m: Match) returns (m': Match)
    requires Playing4(m, HandsAfter(1), [12, NO_CARD, NO_CARD, NO_CARD], 1, 0) && m.ledger.clock == 17_001 && Pointless(m)
    ensures Admissible(m, 17_001, Plain(17_001, {1}).1) && m' == Step(m, 17_001, Plain(17_001, {1}).1)
    ensures Playing4(m', HandsAfter(2), [12, 0, NO_CARD, NO_CARD], 2, 0) && m'.ledger.clock == 17_001 && Pointless(m')
  {
    FirstCards();
    var table := [12, NO_CARD, NO_CARD, NO_CARD];
    assert table[1 := 0] == [12, 0, NO_CARD, NO_CARD] && table[1 := 0][2] == NO_CARD;
    assert HandsAfter(1)[1 := HAND_1[1..]] == HandsAfter(2);
    BotsCard(m, HandsAfter(1), table, 0);
    m' := BotPlays(m, HandsAfter(1), table, 0);
  }

  lemma FirstHalf(m: Match) returns (m': Match)
    requires Playing4(m, HandsAfter(0), ClearTable(4), 0, -1) && m.ledger.clock == 17_001 && Pointless(m)
    ensures AdmissibleRun(m, FIRST_TWO) && m' == Run(m, FIRST_TWO)
    ensures Playing4(m', HandsAfter(2), [12, 0, NO_CARD, NO_CARD], 2, 0) && m'.ledger.clock == 17_001 && Pointless(m')
  {
    var one := FirstCard(m);
    m' := SecondCard(one);
    RunTwo(m, (17_001, Play(1, 12)), Plain(17_001, {1}));
  }

  lemma SecondHalf(m: Match) returns (m': Match)
    requires Playing4(m, HandsAfter(2), [12, 0, NO_CARD, NO_CARD], 2, 0) && m.ledger.clock == 17_001 && Pointless(m)
    ensures AdmissibleRun(m, NEXT_TWO) && m' == Run(m, NEXT_TWO)
    ensures Party(m') && m'.ledger.clock == 17_001 && m'.Leader() == 3 && Holding(m', HandsAfter(4))
    ensures |m'.queue.tasks| == 1 && m'.queue.tasks[0].runAt == 19_001 && m'.queue.tasks[0].task == NewHand
  {
    FirstCards();
    var table := [12, 0, 4, NO_CARD];
    assert [12, 0, NO_CARD, NO_CARD][2 := 4] == table && table[3] == NO_CARD;
    assert HandsAfter(2)[2 := HAND_2[1..]] == HandsAfter(3) && HandsAfter(3)[3 := HAND_3[1..]] == HandsAfter(4);
    var three := UserPlays(m, HandsAfter(2), [12, 0, NO_CARD, NO_CARD], 2, 0);
    m' := TrickIsWon(three, HandsAfter(3));
    RunTwo(m, (17_001, Play(2, 4)), (17_001, Play(3, 8)));
  }

  lemma BotHoldsBoth(m: Match, hands: seq<seq<int>>)
    requires Playing4(m, hands, [2, NO_CARD, NO_CARD, 21], 1, 1) && hands[1] == HAND_1[1..]
    ensures Stuck(m)
  {
    FirstCards();
    var hand := HAND_1[1..];
    assert hand[0] == 14 && hand[4] == HAND_1[5];
    assert hand[0] in hand && hand[4] in hand;
  }

  lemma SecondLead(m: Match) returns (m': Match)
    requires Playing4(m, HandsAfter(4), ClearTable(4), 3, -1) && m.ledger.clock == 19_001
    ensures Admissible(m, 19_001, Play(3, 21)) && m' == Step(m, 19_001, Play(3, 21)) && m'.ledger.clock == 19_001
    ensures Playing4(m', HandsAfter(4)[3 := HAND_3[2..]], [NO_CARD, NO_CARD, NO_CARD, 21], 0, 1)
  {
    FirstCards();
    assert ClearTable(4)[3 := 21] == [NO_CARD, NO_CARD, NO_CARD, 21] && ClearTable(4)[3 := 21][0] == NO_CARD;
    assert HandsAfter(4)[3][1..] == HAND_3[2..];
    m' := UserPlays(m, HandsAfter(4), ClearTable(4), 3, -1);
  }

  lemma SecondThrow(m: Match) returns (m': Match)
    requires Playing4(m, HandsAfter(4)[3 := HAND_3[2..]], [NO_CARD, NO_CARD, NO_CARD, 21], 0, 1) && m.ledger.clock == 19_001
    ensures Admissible(m, 19_001, Play(1, 2)) && m' == Step(m, 19_001, Play(1, 2))
    ensures Party(m') && Stuck(m')
  {
    FirstCards();
    var hands, table := HandsAfter(4)[3 := HAND_3[2..]], [NO_CARD, NO_CARD, NO_CARD, 21];
    assert table[0 := 2] == [2, NO_CARD, NO_CARD, 21] && table[0 := 2][1] == NO_CARD;
    m' := UserPlays(m, hands, table, 0, 1);
    BotHoldsBoth(m', hands[0 := HAND_0[2..]]);
  }

  /** Seat 3 leads suit 1, seat 0 has none and throws suit 2. */
  lemma SecondTrick(m: Match) returns (m': Match)
    requires Party(m) && m.ledger.clock == 17_001 && m.Leader() == 3 && Holding(m, HandsAfter(4))
    requires |m.queue.tasks| == 1 && m.queue.tasks[0].runAt == 19_001 && m.queue.tasks[0].task == NewHand
    ensures AdmissibleRun(m, SECOND) && m' == Run(m, SECOND)
    ensures Party(m') && Stuck(m')
  {
    var open := HandOpens(m, 19_001, HandsAfter(4), 3);
    var led := SecondLead(open);
    m' := SecondThrow(led);
    RunTwo(open, (19_001, Play(3, 21)), (19_001, Play(1, 2)));
    RunStarts(m, Plain(19_001, {}), [(19_001, Play(3, 21))] + [(19_001, Play(1, 2))]);
  }

  /** An admissible run from a new table ends with a stuck bot on turn. */
  lemma StallIsReachable() returns (events: seq<(int, Event)>)
    ensures AdmissibleRun(NewMatch(DUO, 21, 0), events)
    ensures var m := Run(NewMatch(DUO, 21, 0), events); Inv(m) && Stuck(m) && Stalled(m)
  {
    var none := NewMatch(DUO, 21, 0);
    var table := AllSit(none);
    var game := AllStart(table);
    assert HandsAfter(0) == Hands();
    var half := FirstHalf(game);
    var won := SecondHalf(half);
    var stuck := SecondTrick(won);
    StuckIsStalled(stuck);
    RunConcat(half, NEXT_TWO, SECOND);
    RunConcat(game, FIRST_TWO, NEXT_TWO + SECOND);
    RunConcat(table, STARTING, FIRST_TWO + (NEXT_TWO + SECOND));
    RunConcat(none, SITTING, STARTING + (FIRST_TWO + (NEXT_TWO + SECOND)));
    events := SITTING + (STARTING + (FIRST_TWO + (NEXT_TWO + SECOND)));
  }
}
