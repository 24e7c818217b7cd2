/**
 Who wins. When a trick ends a game, the team announced as the winner has the target, and no fewer
 points in its seats than the other team.
 */
module MatchVictory {
  import opened Options
  import opened TressetteCards
  import opened DelayedTasks
  import opened TressetteMatch
  import opened MatchRuns
  import opened MatchShape
  import opened MatchRounds
  import opened MatchScores
  import opened MatchTheorems

  function PointsFor(s: Seat, team: int): int {
    if s.team == team then s.points else 0
  }

  /** What the seats of a team hold together, at a table for two or for four. */
  function TeamPoints(seats: seq<Seat>, team: int): int
    requires |seats| == SOLO || |seats| == DUO
  {
    PointsFor(seats[0], team) + PointsFor(seats[1], team)
    + if |seats| == DUO then PointsFor(seats[2], team) + PointsFor(seats[3], team) else 0
  }

  lemma OneSeatMore(seats: seq<Seat>, team: int)
    requires seats != []
    ensures TeamScore(seats, team) == TeamScore(seats[..|seats| - 1], team) + PointsFor(seats[|seats| - 1], team)
  {
  }

  lemma TeamScoreIsPoints(seats: seq<Seat>, team: int)
    requires |seats| == SOLO || |seats| == DUO
    ensures TeamScore(seats, team) == TeamPoints(seats, team)
  {
    OneSeatMore(seats[..1], team);
    OneSeatMore(seats[..2], team);
    assert seats[..1][..0] == [] && seats[..2][..1] == seats[..1];
    if |seats| == DUO {
      OneSeatMore(seats[..3], team);
      OneSeatMore(seats[..4], team);
      assert seats[..3][..2] == seats[..2] && seats[..4][..3] == seats[..3] && seats[..4] == seats;
    } else {
      assert seats[..2] == seats;
    }
  }

  /** The winning team has the target and is not behind; team 1 is named when both have the same. */
  ghost predicate RightWinner(m: Match)
    requires |m.seats| == SOLO || |m.seats| == DUO
  {
    var first, second := TeamPoints(m.seats, 0), TeamPoints(m.seats, 1);
    && m.winTeam == (if first > second then 0 else 1)
    && TeamPoints(m.seats, m.winTeam) >= 3 * m.pointMode
  }

  lemma ReachedIsWon(m: Match, now: int)
    requires (|m.seats| == SOLO || |m.seats| == DUO) && m.ReachedTarget()
    ensures RightWinner(m.Scored().EndGame(now))
  {
    TeamScoreIsPoints(m.seats, 0);
    TeamScoreIsPoints(m.seats, 1);
  }

  /** The game goes on, or it is over with the right winner. */
  ghost predicate OnOrWon(m: Match, m': Match) {
    && |m'.seats| == |m.seats| && (|m.seats| == SOLO || |m.seats| == DUO)
    && (m'.phase.Playing? || (m'.phase.Ended? && RightWinner(m')))
  }

  lemma HandEndsRight(m: Match, now: int)
    requires m.phase.Playing? && (|m.seats| == SOLO || |m.seats| == DUO)
    ensures OnOrWon(m, m.EndHand(now))
  {
    var w := SlotOf(m.table, BestOfSuit(m.table, m.suit, |m.table|));
    if 0 <= w < |m.seats| && m.Paid(w).ReachedTarget() { ReachedIsWon(m.Paid(w), now); }
  }

  lemma PlayEndsRight(m: Match, uid: int, card: int, isAuto: bool, now: int)
    requires m.phase.Playing? && (|m.seats| == SOLO || |m.seats| == DUO)
    ensures OnOrWon(m, m.PlayCard(uid, card, isAuto, now).0)
  {
    var i := m.FindPlayer(uid);
    if i >= 0 && |m.table| == |m.seats| { HandEndsRight(m.Held(i, isAuto).Placed(i, card).(turn := -1), now); }
  }

  lemma BotEndsRight(m: Match, i: nat, now: int)
    requires m.phase.Playing? && (|m.seats| == SOLO || |m.seats| == DUO) && i < |m.seats|
    ensures OnOrWon(m, m.BotPlay(i, now))
  {
    if m.seats[i].cards != [] { PlayEndsRight(m, m.seats[i].uid, m.BotCard(i), false, now); }
  }

  lemma AutoEndsRight(m: Match, i: nat, now: int)
    requires m.phase.Playing? && (|m.seats| == SOLO || |m.seats| == DUO) && i < |m.seats|
    ensures OnOrWon(m, m.AutoPlay(i, now))
  {
    var auto := m.(seats := m.seats[i := m.seats[i].(isAuto := true)]);
    if m.seats[i].cards != [] { PlayEndsRight(auto, m.seats[i].uid, FirstOfSuit(m.seats[i].cards, m.suit), true, now); }
  }

  lemma TurnEndsRight(m: Match, i: nat, tick: Tick)
    requires m.phase.Playing? && (|m.seats| == SOLO || |m.seats| == DUO) && i < |m.seats|
    ensures OnOrWon(m, m.SeatTurn(i, tick.now, tick.expired))
  {
    BotEndsRight(m, i, tick.now);
    AutoEndsRight(m, i, tick.now);
  }

  lemma AutoMarkKeepsPoints(m: Match, i: nat)
    requires i < |m.seats| && OnOrWon(m, m)
    ensures OnOrWon(m, m.(seats := m.seats[i := m.seats[i].(isAuto := true)]))
  {
  }

  lemma WonTurn(m: Match, i: nat, tick: Tick)
    requires OnOrWon(m, m) && m.phase.Ended? && i < |m.seats|
    ensures var m' := m.SeatTurn(i, tick.now, tick.expired); OnOrWon(m, m') && m'.phase.Ended?
  {
    AutoMarkKeepsPoints(m, i);
  }

  /** A game that is over keeps its points and its winner. */
  lemma {:induction false} WonStaysWon(m: Match, i: nat, tick: Tick)
    requires OnOrWon(m, m) && m.phase.Ended? && i <= |m.seats|
    ensures OnOrWon(m, m.AllTurns(i, tick))
    decreases |m.seats| - i
  {
    if i < |m.seats| {
      WonTurn(m, i, tick);
      WonStaysWon(m.SeatTurn(i, tick.now, tick.expired), i + 1, tick);
    }
  }

  lemma {:induction false} TurnsEndRight(m: Match, i: nat, tick: Tick)
    requires OnOrWon(m, m) && i <= |m.seats|
    ensures OnOrWon(m, m.AllTurns(i, tick))
    decreases |m.seats| - i
  {
    if m.phase.Ended? {
      WonStaysWon(m, i, tick);
    } else if i < |m.seats| {
      TurnEndsRight(m, i, tick);
      TurnsEndRight(m.SeatTurn(i, tick.now, tick.expired), i + 1, tick);
    }
  }

  lemma TickEndsRight(m: Match, tick: Tick)
    requires Inv(m) && m.phase.Playing? && m.ledger.clock == tick.now && Shuffled(tick.shuffled)
    requires tick.now - m.timeStart <= TIME_MATCH_MAXIMUM
    ensures OnOrWon(m, Loop(m, tick))
  {
    DrainPeople(m, tick.now, tick.shuffled);
    TurnsEndRight(RunDue(m, tick.now, tick.shuffled), 0, tick);
  }

  lemma OtherPacketEndsNothing(m: Match, now: int, e: Event)
    requires Inv(m) && m.phase.Playing? && !e.Play? && !e.Elapse? && Admissible(m, now, e)
    ensures OnOrWon(m, Handle(m, now, e))
  {
    PacketPeople(m, now, e);
  }

  lemma StepEndsRight(m: Match, now: int, e: Event)
    requires Inv(m) && m.phase.Playing? && Admissible(m, now, e)
    requires e.Elapse? ==> now - m.timeStart <= TIME_MATCH_MAXIMUM
    ensures OnOrWon(m, Step(m, now, e))
  {
    var at := At(m, now);
    ClockKeepsInv(m, now);
    match e
    case Play(uid, card) => PlayEndsRight(at, uid, card, false, now);
    case Elapse(tick) => TickEndsRight(at, tick);
    case _ => OtherPacketEndsNothing(at, now, e);
  }

  /** An event within the hour that ends a game leaves the right winner. */
  ghost predicate EndsRight(m: Match, now: int, e: Event, m': Match) {
    m.phase.Playing? && m'.phase.Ended? && (e.Elapse? ==> now - m.timeStart <= TIME_MATCH_MAXIMUM) ==>
      && (|m'.seats| == SOLO || |m'.seats| == DUO) && RightWinner(m')
      && TeamPoints(m'.seats, m'.winTeam) >= TeamPoints(m'.seats, 1 - m'.winTeam)
  }

  lemma EventEndsRight(m: Match, now: int, e: Event)
    requires Inv(m) && Admissible(m, now, e)
    ensures EndsRight(m, now, e, Step(m, now, e))
  {
    if m.phase.Playing? && (e.Elapse? ==> now - m.timeStart <= TIME_MATCH_MAXIMUM) { StepEndsRight(m, now, e); }
  }

  /**
   In every admissible run: an event that ends a game within its hour, be it a packet or a tick, leaves
   the winning team with the target and with no fewer points than the other team.
   */
  lemma WinnerIsAhead(playerMode: nat, pointMode: int, clock: nat, events: seq<(int, Event)>, now: int, e: Event)
    requires (playerMode == SOLO || playerMode == DUO) && AdmissibleRun(NewMatch(playerMode, pointMode, clock), events)
    requires Admissible(Run(NewMatch(playerMode, pointMode, clock), events), now, e)
    ensures var m := Run(NewMatch(playerMode, pointMode, clock), events);
            EndsRight(m, now, e, Step(m, now, e))
  {
    NewMatchInv(playerMode, pointMode, clock);
    RunKeepsInv(NewMatch(playerMode, pointMode, clock), events);
    EventEndsRight(Run(NewMatch(playerMode, pointMode, clock), events), now, e);
  }
}
