/**
 Whole games. While every seat keeps its team the points a round adds must reach the target after a
 few rounds; the teams do keep, because nobody leaves a game. Without a team rounds have no bound.
 */
module MatchGames {
  import opened Options
  import opened TressetteCards
  import opened DelayedTasks
  import opened TressetteMatch
  import opened MatchRuns
  import opened MatchCards
  import opened MatchShape
  import opened MatchRounds
  import opened MatchScores
  import opened MatchTheorems

  // ----- a game with its teams -----

  /** Every seat has its team, and the rounds completed so far have left both teams below the target. */
  ghost predicate RoundsFit(m: Match) {
    && TeamsIntact(m)
    && (m.curRound >= 2 ==>
          RoundsGain(m.playerMode, m.curRound - 1) + 35 - RoundGain(m.playerMode) <= 2 * (m.PointToWin() - 1))
  }

  lemma SameRoundFits(m: Match, m': Match)
    requires RoundsFit(m) && SamePeople(m, m') && m'.curRound == m.curRound
    ensures RoundsFit(m')
  {
  }

  lemma TaskKeepsRound(m: Match, now: int, shuffled: seq<int>)
    requires Shape(m) && m.queue.HasDue(now) && !m.queue.tasks[0].task.NewRound?
    ensures var m' := Popped(m).RunTask(m.queue.tasks[0].task, now, shuffled); SamePeople(m, m') && m'.curRound == m.curRound
  {
    TaskPeople(Popped(m), m.queue.tasks[0].task, now, shuffled);
  }

  lemma TaskFits(m: Match, now: int, shuffled: seq<int>)
    requires Inv(m) && m.phase.Playing? && m.queue.HasDue(now) && RoundsFit(m)
    ensures RoundsFit(Popped(m).RunTask(m.queue.tasks[0].task, now, shuffled))
  {
    var task := m.queue.tasks[0].task;
    var m' := Popped(m).RunTask(task, now, shuffled);
    if task.NewRound? {
      TaskPeople(Popped(m), task, now, shuffled);
      if RoundOver(m) { RoundsAreBounded(m); }
    } else {
      TaskKeepsRound(m, now, shuffled);
      SameRoundFits(m, m');
    }
  }

  lemma {:induction false} DrainFits(m: Match, now: int, shuffled: seq<int>)
    requires Inv(m) && m.phase.Playing? && m.ledger.clock == now && Shuffled(shuffled) && RoundsFit(m)
    ensures RoundsFit(RunDue(m, now, shuffled))
    decreases m.queue.DueCount(now)
  {
    if m.queue.HasDue(now) {
      TaskKeepsDue(Popped(m), m.queue.tasks[0].task, now, shuffled);
      TaskRunsInTime(m, now, shuffled);
      TaskKeepsInv(m, now, shuffled);
      TaskKeepsShape(m, now, shuffled);
      TaskFits(m, now, shuffled);
      DrainFits(Popped(m).RunTask(m.queue.tasks[0].task, now, shuffled), now, shuffled);
    }
  }

  /** Every step of a game keeps its teams and the account of its rounds. */
  lemma StepFits(m: Match, now: int, e: Event)
    requires Inv(m) && m.phase.Playing? && Admissible(m, now, e) && RoundsFit(m)
    ensures Step(m, now, e).phase.Playing? ==> RoundsFit(Step(m, now, e))
  {
    var at := At(m, now);
    ClockKeepsInv(m, now);
    SameRoundFits(m, at);
    match e
    case Elapse(tick) =>
      var drained := RunDue(at, now, tick.shuffled);
      DrainPeople(at, now, tick.shuffled);
      DrainFits(at, now, tick.shuffled);
      AfterTasksPeople(drained, tick);
      if Step(m, now, e).phase.Playing? { SameRoundFits(drained, Step(m, now, e)); }
    case _ =>
      PacketPeople(at, now, e);
      if Step(m, now, e).phase.Playing? { SameRoundFits(at, Step(m, now, e)); }
  }

  /** The game is on in every state of the run. */
  ghost predicate Ongoing(m: Match, events: seq<(int, Event)>)
    decreases |events|
  {
    m.phase.Playing? && (events == [] || Ongoing(Step(m, events[0].0, events[0].1), events[1..]))
  }

  lemma {:induction false} GameFits(m: Match, events: seq<(int, Event)>)
    requires Inv(m) && RoundsFit(m) && AdmissibleRun(m, events) && Ongoing(m, events)
    ensures var m' := Run(m, events); Inv(m') && m'.phase.Playing? && RoundsFit(m')
    decreases |events|
  {
    if events != [] {
      StepKeepsInv(m, events[0].0, events[0].1);
      StepFits(m, events[0].0, events[0].1);
      GameFits(Step(m, events[0].0, events[0].1), events[1..]);
    }
  }

  /**
   A game that starts with every seat on a team keeps the teams, and at any point of any admissible run
   it is in one of its first few rounds: two or four for two seats, five for four.
   */
  lemma GameIsShort(m: Match, events: seq<(int, Event)>)
    requires Inv(m) && m.phase.Playing? && m.curRound == 0 && TeamsIntact(m)
    requires AdmissibleRun(m, events) && Ongoing(m, events)
    ensures var m' := Run(m, events);
            && TeamsIntact(m')
            && (m'.curRound >= 2 ==>
                  RoundsGain(m'.playerMode, m'.curRound - 1) + 35 - RoundGain(m'.playerMode) <= 2 * (m'.PointToWin() - 1))
            && (m'.playerMode == SOLO && m'.pointMode == 11 ==> m'.curRound <= 2)
            && (m'.playerMode == SOLO && m'.pointMode == 21 ==> m'.curRound <= 4)
            && (m'.playerMode == DUO && m'.pointMode == 21 ==> m'.curRound <= 5)
  {
    GameFits(m, events);
  }

  lemma FreshTableHasTeams(playerMode: nat, pointMode: int, clock: nat)
    ensures TeamsIntact(NewMatch(playerMode, pointMode, clock))
  {
  }

  /** Starting a game keeps whatever teams the seats have. */
  lemma GameStartsWithTeams(m: Match, now: int)
    ensures m.StartGame(now).phase.Playing? && m.StartGame(now).curRound == 0
    ensures TeamsIntact(m.StartGame(now)) <==> TeamsIntact(m)
  {
    var started := m.StartGame(now);
    assert forall i :: 0 <= i < |m.seats| ==> started.seats[i].team == m.seats[i].team;
  }
}
