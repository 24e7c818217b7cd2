/**
 Nothing gets stuck. Within a round every delayed task and every accepted play brings the round
 nearer to its end, so a tick at which whatever is waited for has run out moves the match on.
 */
module MatchProgress {
  import opened Options
  import opened TressetteCards
  import opened DelayedTasks
  import opened TressetteMatch
  import opened MatchRuns
  import opened MatchCards
  import opened MatchShape
  import opened MatchRounds
  import opened MatchScores
  import opened MatchTheorems
  import opened MatchBots

  // ----- how far a round has come -----

  /** `x` tricks take this many steps: opening the hand, a play per seat, and perhaps a draw. */
  function Steps(n: nat, x: int): int {
    if n == SOLO then 4 * x else 6 * x
  }

  /** Steps left until the round is over, told by the task that comes first. */
  ghost function StepsLeft(m: Match): int {
    var n, left := m.playerMode, Tricks(m.playerMode) - m.handInRound;
    if NonePending(m) then Steps(n, left) - 1 - Offset(m.Leader(), m.turn, n)
    else
      match m.queue.tasks[0].task
      case NewHand => Steps(n, left - 1)
      case DrawCards => Steps(n, left - 1) + 1
      case DealCards => Steps(n, Tricks(n)) + 2
      case _ => 0
  }

  lemma StepsLeftBounds(m: Match)
    requires Shape(m)
    ensures 0 <= StepsLeft(m) <= Steps(m.playerMode, Tricks(m.playerMode)) + 2
    ensures StepsLeft(m) == 0 <==> OnePending(m, NewRound)
  {
  }

  /** One step further in the round, or on to the next one. */
  ghost predicate MovedOn(m: Match, m': Match) {
    || m'.phase.Ended?
    || (m'.phase.Playing? && m'.curRound == m.curRound && StepsLeft(m') < StepsLeft(m))
    || (m'.phase.Playing? && m'.curRound == m.curRound + 1 && StepsLeft(m) == 0)
  }

  ghost predicate NotBack(m: Match, m': Match) {
    m'.phase.Ended? || (m'.phase.Playing? && m'.curRound == m.curRound && StepsLeft(m') <= StepsLeft(m))
  }

  // ----- tasks -----

  /** What a task does to the count of rounds and hands. */
  lemma TaskCounts(m: Match, task: Task, now: int, shuffled: seq<int>)
    ensures var m' := m.RunTask(task, now, shuffled);
            && m'.playerMode == m.playerMode && m'.curRound == m.curRound + (if task.NewRound? then 1 else 0)
            && m'.handInRound == (if task.NewRound? then -1 else if task.NewHand? then m.handInRound + 1 else m.handInRound)
  {
  }

  /** The steps left at the stage a task leads to. */
  lemma StageSteps(task: Task, m: Match)
    requires StageAfter(task, m)
    ensures StepsLeft(m) > 0
    ensures StepsLeft(m) ==
            match task
            case NewRound => Steps(m.playerMode, Tricks(m.playerMode)) + 2
            case NewHand => Steps(m.playerMode, Tricks(m.playerMode) - m.handInRound) - 1 - Offset(m.Leader(), m.turn, m.playerMode)
            case _ => Steps(m.playerMode, Tricks(m.playerMode) - m.handInRound - 1)
  {
  }

  lemma TaskSteps(m: Match)
    requires Shape(m) && !NonePending(m)
    ensures m.queue.tasks[0].task.DealCards? ==> m.handInRound == -1
    ensures m.queue.tasks[0].task.NewHand? ==> BetweenHands(m)
  {
  }

  lemma NewHandLeads(m: Match)
    requires Seated(m) && BetweenHands(m) && m.queue.tasks != []
    ensures var m' := Popped(m).OpenHand(); m'.turn == m'.Leader()
  {
    SameQuietStage(m, Popped(m));
    OpenedLead(Popped(m));
  }

  lemma TaskMovesOn(m: Match, now: int, shuffled: seq<int>)
    requires Shape(m) && m.queue.HasDue(now) && Shuffled(shuffled)
    ensures var m' := Popped(m).RunTask(m.queue.tasks[0].task, now, shuffled); MovedOn(m, m') && StepsLeft(m') > 0
  {
    var task := m.queue.tasks[0].task;
    TaskSteps(m);
    TaskKeepsShape(m, now, shuffled);
    StageSteps(task, Popped(m).RunTask(task, now, shuffled));
    TaskCounts(Popped(m), task, now, shuffled);
    if task.NewHand? { NewHandLeads(m); }
  }

  /** Draining moves on as soon as one task is due. */
  lemma {:induction false} DrainMovesOn(m: Match, now: int, shuffled: seq<int>)
    requires Inv(m) && m.phase.Playing? && m.ledger.clock == now && Shuffled(shuffled) && m.queue.HasDue(now)
    ensures MovedOn(m, RunDue(m, now, shuffled)) && RunDue(m, now, shuffled).phase.Playing?
    decreases m.queue.DueCount(now)
  {
    var m' := Popped(m).RunTask(m.queue.tasks[0].task, now, shuffled);
    TaskKeepsDue(Popped(m), m.queue.tasks[0].task, now, shuffled);
    TaskRunsInTime(m, now, shuffled);
    TaskKeepsInv(m, now, shuffled);
    TaskKeepsShape(m, now, shuffled);
    TaskMovesOn(m, now, shuffled);
    if m'.queue.HasDue(now) { DrainMovesOn(m', now, shuffled); }
  }

  // ----- plays -----

  /** Settling a trick leaves the hand and the round counted as they were. */
  lemma EndHandCounts(m: Match, now: int)
    ensures var m' := m.EndHand(now);
            m'.playerMode == m.playerMode && m'.curRound == m.curRound && m'.handInRound == m.handInRound && m'.turn == m.turn
  {
  }

  lemma TrickMovesOn(m: Match, card: int, now: int)
    requires Seated(m) && InTrick(m) && NonePending(m) && card in m.seats[m.turn].cards
    requires NO_CARD !in m.Placed(m.turn, card).table
    ensures MovedOn(m, m.Accept(m.turn, card, now))
  {
    var full := m.Placed(m.turn, card).(turn := -1);
    AcceptKeepsShape(m, card, now);
    EndHandCounts(full, now);
    var m' := m.Accept(m.turn, card, now);
    if !m'.phase.Ended? { StepsLeftBounds(m'); }
  }

  lemma PassMovesOn(m: Match, card: int)
    requires Seated(m) && InTrick(m) && NonePending(m) && card in m.seats[m.turn].cards
    requires NO_CARD in m.Placed(m.turn, card).table
    ensures MovedOn(m, m.Placed(m.turn, card).PassTurn())
  {
    PassedLead(m, card);
  }

  lemma AcceptMovesOn(m: Match, card: int, now: int)
    requires Seated(m) && InTrick(m) && NonePending(m) && card in m.seats[m.turn].cards
    ensures MovedOn(m, m.Accept(m.turn, card, now))
  {
    if NO_CARD in m.Placed(m.turn, card).table {
      PassMovesOn(m, card);
    } else {
      TrickMovesOn(m, card, now);
    }
  }

  lemma SameStepsLeft(m: Match, m': Match)
    requires Seated(m) && SameStage(m, m') && m'.queue == m.queue
    ensures StepsLeft(m') == StepsLeft(m)
  {
    SameSeatOf(m.seats, m'.seats, m.lastWon);
  }

  lemma HeldSteps(m: Match, i: nat, isAuto: bool)
    requires Seated(m) && i < |m.seats|
    ensures var m' := m.Held(i, isAuto); StepsLeft(m') == StepsLeft(m) && m'.curRound == m.curRound && m'.queue == m.queue
  {
    SameStepsLeft(m, m.Held(i, isAuto));
  }

  lemma PlayMovesOn(m: Match, uid: int, card: int, isAuto: bool, now: int)
    requires Shape(m) && NonePending(m)
    ensures var (m', reply) := m.PlayCard(uid, card, isAuto, now);
            if reply.Accepted? then MovedOn(m, m') else NotBack(m, m')
  {
    var (m', reply) := m.PlayCard(uid, card, isAuto, now);
    if !reply.Ignored? {
      var i := m.FindPlayer(uid);
      HeldInTrick(m, i, isAuto);
      HeldSteps(m, i, isAuto);
      if reply.Accepted? { AcceptMovesOn(m.Held(i, isAuto), card, now); }
    }
  }

  // ----- turns -----

  /** The seat on turn would act on its own, and its card would be accepted. */
  ghost predicate WouldPlay(m: Match)
    requires |m.seats| == |m.table|
  {
    InTrick(m) && (m.seats[m.turn].isBot ==> m.seats[m.turn].cards != [] && BotFollows(m))
  }

  lemma TurnNotBack(m: Match, i: nat, tick: Tick)
    requires Shape(m) && i < |m.seats|
    ensures NotBack(m, m.SeatTurn(i, tick.now, tick.expired))
  {
    if m.seats[i].onTurn && i in tick.expired {
      assert NonePending(m) && InTrick(m);
      var auto := m.(seats := m.seats[i := m.seats[i].(isAuto := true)]);
      SameInTrick(m, auto);
      SameStepsLeft(m, auto);
      if m.seats[i].cards != [] {
        PlayMovesOn(m, m.seats[i].uid, m.BotCard(i), false, tick.now);
        PlayMovesOn(auto, m.seats[i].uid, FirstOfSuit(m.seats[i].cards, m.suit), true, tick.now);
      }
    }
  }

  lemma TurnMovesOn(m: Match, tick: Tick)
    requires Shape(m) && NonePending(m) && WouldPlay(m) && m.turn in tick.expired
    ensures MovedOn(m, m.SeatTurn(m.turn, tick.now, tick.expired))
  {
    TurnIsOpen(m);
    assert SeatInTrick(m, m.turn);
    if m.seats[m.turn].isBot {
      BotIsAcceptedIff(m, tick.now);
      PlayMovesOn(m, m.seats[m.turn].uid, m.BotCard(m.turn), false, tick.now);
    } else {
      var auto := m.(seats := m.seats[m.turn := m.seats[m.turn].(isAuto := true)]);
      AutoPlayIsAccepted(m, tick.now);
      SameInTrick(m, auto);
      SameStepsLeft(m, auto);
      PlayMovesOn(auto, m.seats[m.turn].uid, FirstOfSuit(m.seats[m.turn].cards, m.suit), true, tick.now);
    }
  }

  lemma {:induction false} TurnsNotBack(m: Match, i: nat, tick: Tick)
    requires Shape(m) && i <= |m.seats|
    ensures NotBack(m, m.AllTurns(i, tick))
    decreases |m.seats| - i
  {
    if i < |m.seats| {
      var m' := m.SeatTurn(i, tick.now, tick.expired);
      TurnNotBack(m, i, tick);
      SeatTurnKeepsShape(m, i, tick.now, tick.expired);
      TurnPeople(m, i, tick);
      if m'.phase.Ended? { EndedTurns(m', i + 1, tick); } else { TurnsNotBack(m', i + 1, tick); }
    }
  }

  lemma IdleTurn(m: Match, i: nat, tick: Tick)
    requires Seated(m) && InTrick(m) && i < |m.seats| && i != m.turn
    ensures m.SeatTurn(i, tick.now, tick.expired) == m
  {
    assert SeatInTrick(m, i);
  }

  lemma {:induction false} TurnsMoveOn(m: Match, i: nat, tick: Tick)
    requires Shape(m) && NonePending(m) && WouldPlay(m) && m.turn in tick.expired && i <= m.turn
    ensures MovedOn(m, m.AllTurns(i, tick))
    decreases |m.seats| - i
  {
    if i < m.turn {
      IdleTurn(m, i, tick);
      TurnsMoveOn(m, i + 1, tick);
    } else {
      var m' := m.SeatTurn(i, tick.now, tick.expired);
      TurnMovesOn(m, tick);
      SeatTurnKeepsShape(m, i, tick.now, tick.expired);
      TurnPeople(m, i, tick);
      if m'.phase.Ended? { EndedTurns(m', i + 1, tick); } else { TurnsNotBack(m', i + 1, tick); }
    }
  }

  // ----- ticks -----

  /** The task that comes first is due at the tick, or the turn timer has run out for a seat that can play. */
  ghost predicate RunOut(m: Match, tick: Tick)
    requires |m.seats| == |m.table|
  {
    if NonePending(m) then WouldPlay(m) && m.turn in tick.expired else m.queue.HasDue(tick.now)
  }

  lemma AfterDrainNotBack(m: Match, tick: Tick)
    requires Shape(m)
    ensures NotBack(m, m.AfterTasks(tick))
  {
    TurnsNotBack(m, 0, tick);
  }

  lemma DueMovesOn(m: Match, tick: Tick)
    requires Inv(m) && m.phase.Playing? && m.ledger.clock == tick.now && Shuffled(tick.shuffled) && m.queue.HasDue(tick.now)
    ensures MovedOn(m, Loop(m, tick))
  {
    DrainMovesOn(m, tick.now, tick.shuffled);
    DrainKeepsInv(m, tick.now, tick.shuffled);
    AfterDrainNotBack(RunDue(m, tick.now, tick.shuffled), tick);
  }

  lemma TimerMovesOn(m: Match, tick: Tick)
    requires Shape(m) && NonePending(m) && WouldPlay(m) && m.turn in tick.expired
    ensures MovedOn(m, Loop(m, tick))
  {
    assert RunDue(m, tick.now, tick.shuffled) == m;
    if tick.now - m.timeStart <= TIME_MATCH_MAXIMUM { TurnsMoveOn(m, 0, tick); }
  }

  /** The clock reading does not matter to a bot. */
  lemma BotFollowsAt(m: Match, now: int)
    requires 0 <= m.turn < |m.seats| && m.seats[m.turn].cards != []
    ensures BotFollows(At(m, now)) <==> BotFollows(m)
  {
    SameBotMove(m, At(m, now));
  }

  lemma WouldPlayAt(m: Match, now: int)
    requires Seated(m) && WouldPlay(m)
    ensures WouldPlay(At(m, now))
  {
    SameInTrick(m, At(m, now));
    if m.seats[m.turn].isBot { BotFollowsAt(m, now); }
  }

  /** In every game, a tick at which what it waits for has run out moves the match on. */
  lemma TickMovesOn(m: Match, tick: Tick)
    requires Inv(m) && m.phase.Playing? && Admissible(m, tick.now, Elapse(tick)) && RunOut(m, tick)
    ensures MovedOn(m, Step(m, tick.now, Elapse(tick)))
  {
    var at := At(m, tick.now);
    ClockKeepsInv(m, tick.now);
    SameStepsLeft(m, at);
    if NonePending(m) {
      WouldPlayAt(m, tick.now);
      TimerMovesOn(at, tick);
    } else {
      DueMovesOn(at, tick);
    }
  }
}
