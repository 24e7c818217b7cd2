/**
 The hour limit. Rounds of a game begin at least four seconds apart and the first tick past the hour
 ends the game, so every game has a bounded number of rounds, whoever sits in it.
 */
module MatchHour {
  import opened Options
  import opened TressetteCards
  import opened DelayedTasks
  import opened TressetteMatch
  import opened MatchRuns
  import opened MatchShape
  import opened MatchRounds
  import opened MatchScores
  import opened MatchTheorems

  const MOST_ROUNDS := 900

  /** The earliest time at which round `k + 1` of a game can begin. */
  function RoundAt(m: Match, k: int): int {
    m.timeStart + 1_000 + 4_000 * k
  }

  /** The rounds begun so far took four seconds each, and so will the next one. */
  ghost predicate Paced(m: Match) {
    && m.curRound >= 0 && m.timeStart <= m.ledger.clock
    && (m.curRound >= 1 ==> RoundAt(m, m.curRound - 1) <= m.ledger.clock)
    && forall t :: t in m.queue.tasks && t.task.NewRound? ==> RoundAt(m, m.curRound) <= t.runAt
  }

  ghost predicate SamePace(m: Match, m': Match) {
    && m'.curRound == m.curRound && m'.timeStart == m.timeStart && m'.ledger.clock == m.ledger.clock
    && m'.queue == m.queue
  }

  lemma SamePaceKeeps(m: Match, m': Match)
    requires Paced(m) && SamePace(m, m')
    ensures Paced(m')
  {
  }

  lemma PushKeepsPace(m: Match, now: int, delay: int, task: Task)
    requires Paced(m) && (task.NewRound? ==> RoundAt(m, m.curRound) <= now + delay)
    ensures Paced(m.PushAfter(now, delay, task))
  {
  }

  // ----- plays -----

  lemma AfterHandPaced(m: Match, now: int, endRound: bool)
    requires Paced(m) && m.ledger.clock == now
    ensures m.AfterHand(now, endRound).phase.Ended? || Paced(m.AfterHand(now, endRound))
  {
    var scored := m.Scored();
    SamePaceKeeps(m, scored);
    if m.ReachedTarget() {
    } else if endRound {
      PushKeepsPace(scored, now, 4_000, NewRound);
    } else if m.deck != [] {
      PushKeepsPace(scored, now, 2_000, DrawCards);
      PushKeepsPace(scored.PushAfter(now, 2_000, DrawCards), now, 5_500, NewHand);
    } else {
      PushKeepsPace(scored, now, 2_000, NewHand);
    }
  }

  lemma EndHandPaced(m: Match, now: int)
    requires Paced(m) && m.ledger.clock == now
    ensures m.EndHand(now).phase.Ended? || Paced(m.EndHand(now))
  {
    var winner := SlotOf(m.table, BestOfSuit(m.table, m.suit, |m.table|));
    if 0 <= winner < |m.seats| {
      SamePaceKeeps(m, m.Paid(winner));
      AfterHandPaced(m.Paid(winner), now, m.deck == [] && m.seats[0].cards == []);
    }
  }

  lemma AcceptPaced(m: Match, i: nat, card: int, now: int)
    requires i < |m.seats| == |m.table| && Paced(m) && m.ledger.clock == now
    ensures m.Accept(i, card, now).phase.Ended? || Paced(m.Accept(i, card, now))
  {
    var placed := m.Placed(i, card);
    SamePaceKeeps(m, placed);
    if NO_CARD !in placed.table {
      SamePaceKeeps(placed, placed.(turn := -1));
      EndHandPaced(placed.(turn := -1), now);
    } else {
      SamePaceKeeps(placed, placed.PassTurn());
    }
  }

  lemma PlayPaced(m: Match, uid: int, card: int, isAuto: bool, now: int)
    requires Paced(m) && m.ledger.clock == now
    ensures var m' := m.PlayCard(uid, card, isAuto, now).0; m'.phase.Ended? || Paced(m')
  {
    var (m', reply) := m.PlayCard(uid, card, isAuto, now);
    if !reply.Ignored? {
      var held := m.Held(m.FindPlayer(uid), isAuto);
      SamePaceKeeps(m, held);
      if reply.Accepted? { AcceptPaced(held, m.FindPlayer(uid), card, now); }
    }
  }

  lemma TurnPaced(m: Match, i: nat, tick: Tick)
    requires i < |m.seats| && Paced(m) && m.ledger.clock == tick.now
    ensures var m' := m.SeatTurn(i, tick.now, tick.expired); m'.phase.Ended? || Paced(m')
  {
    if m.seats[i].cards != [] {
      var auto := m.(seats := m.seats[i := m.seats[i].(isAuto := true)]);
      SamePaceKeeps(m, auto);
      PlayPaced(m, m.seats[i].uid, m.BotCard(i), false, tick.now);
      PlayPaced(auto, m.seats[i].uid, FirstOfSuit(m.seats[i].cards, m.suit), true, tick.now);
    }
  }

  lemma {:induction false} TurnsPaced(m: Match, i: nat, tick: Tick)
    requires TimeInv(m) && i <= |m.seats| && m.ledger.clock == tick.now && (m.phase.Ended? || Paced(m))
    ensures m.AllTurns(i, tick).phase.Ended? || Paced(m.AllTurns(i, tick))
    decreases |m.seats| - i
  {
    if m.phase.Ended? {
      EndedTurns(m, i, tick);
    } else if i < |m.seats| {
      var m' := m.SeatTurn(i, tick.now, tick.expired);
      TurnPaced(m, i, tick);
      SeatTurnInTime(m, i, tick);
      if |m'.seats| == |m.seats| { TurnsPaced(m', i + 1, tick); }
    }
  }

  // ----- tasks and ticks -----

  /** A round that begins was due, so it begins late enough, and no other is waiting. */
  lemma NewRoundPaced(m: Match, now: int)
    requires Paced(m) && m.ledger.clock == now && RoundAt(m, m.curRound) <= now
    requires forall t :: t in m.queue.tasks ==> !t.task.NewRound?
    ensures Paced(m.StartRound(now))
  {
    var round := m.NextRound();
    assert Paced(round);
    PushKeepsPace(round, now, 1_000, DealCards);
    PushKeepsPace(round.PushAfter(now, 1_000, DealCards), now, 2_000, NewHand);
  }

  lemma TaskPaced(m: Match, now: int, shuffled: seq<int>)
    requires Inv(m) && m.phase.Playing? && m.ledger.clock == now && m.queue.HasDue(now) && Paced(m)
    ensures Paced(Popped(m).RunTask(m.queue.tasks[0].task, now, shuffled))
  {
    var t := m.queue.tasks[0];
    var left := Popped(m);
    assert t in m.queue.tasks;
    assert Paced(left);
    if t.task.NewRound? {
      assert OnePending(m, NewRound);
      NewRoundPaced(left, now);
    } else {
      assert TaskInTime(m, t);
      SamePaceKeeps(left, left.RunTask(t.task, now, shuffled));
    }
  }

  lemma {:induction false} DrainPaced(m: Match, now: int, shuffled: seq<int>)
    requires Inv(m) && m.phase.Playing? && m.ledger.clock == now && Shuffled(shuffled) && Paced(m)
    ensures Paced(RunDue(m, now, shuffled))
    decreases m.queue.DueCount(now)
  {
    if m.queue.HasDue(now) {
      TaskKeepsDue(Popped(m), m.queue.tasks[0].task, now, shuffled);
      TaskRunsInTime(m, now, shuffled);
      TaskKeepsInv(m, now, shuffled);
      TaskKeepsShape(m, now, shuffled);
      TaskPaced(m, now, shuffled);
      DrainPaced(Popped(m).RunTask(m.queue.tasks[0].task, now, shuffled), now, shuffled);
    }
  }

  /** While a game is on its rounds are paced, and no more than fit into the hour. */
  ghost predicate WithinHour(m: Match) {
    m.phase.Playing? ==> Paced(m) && m.curRound <= MOST_ROUNDS
  }

  /** A tick within the hour: the rounds begun so far fit into it. */
  lemma DrainedWithinHour(m: Match, tick: Tick)
    requires Inv(m) && m.phase.Playing? && Paced(m) && m.ledger.clock == tick.now
    ensures WithinHour(m.AfterTasks(tick))
  {
    if tick.now - m.timeStart <= TIME_MATCH_MAXIMUM {
      TurnsPaced(m, 0, tick);
      TurnsPeople(m, 0, tick);
    }
  }

  lemma GameStartsPaced(m: Match, tick: Tick)
    requires TimeInv(m) && !m.phase.Playing? && m.ledger.clock == tick.now && !m.queue.HasDue(tick.now)
    ensures WithinHour(m.AfterTasks(tick))
  {
    if m.phase.PreparingStart? && m.timeStart != -1 && tick.now > m.timeStart && Full(m.seats) {
      DrainedIsEmpty(m, tick.now);
      PushKeepsPace(m.Reset(tick.now), tick.now, 1_000, NewRound);
    }
  }

  lemma TaskStaysIdle(m: Match, task: Task, now: int, shuffled: seq<int>)
    requires !m.phase.Playing?
    ensures !m.RunTask(task, now, shuffled).phase.Playing?
  {
  }

  lemma {:induction false} DrainStaysIdle(m: Match, now: int, shuffled: seq<int>)
    requires !m.phase.Playing?
    ensures !RunDue(m, now, shuffled).phase.Playing?
    decreases m.queue.DueCount(now)
  {
    if m.queue.HasDue(now) {
      TaskKeepsDue(Popped(m), m.queue.tasks[0].task, now, shuffled);
      TaskStaysIdle(Popped(m), m.queue.tasks[0].task, now, shuffled);
      DrainStaysIdle(Popped(m).RunTask(m.queue.tasks[0].task, now, shuffled), now, shuffled);
    }
  }

  lemma TickWithinHour(m: Match, tick: Tick)
    requires Inv(m) && WithinHour(m) && m.ledger.clock == tick.now && Shuffled(tick.shuffled)
    ensures WithinHour(Loop(m, tick))
  {
    var drained := RunDue(m, tick.now, tick.shuffled);
    DrainKeepsInv(m, tick.now, tick.shuffled);
    if m.phase.Playing? {
      DrainPaced(m, tick.now, tick.shuffled);
      DrainPeople(m, tick.now, tick.shuffled);
      DrainedWithinHour(drained, tick);
    } else {
      DrainStaysIdle(m, tick.now, tick.shuffled);
      GameStartsPaced(drained, tick);
    }
  }

  lemma PacketSamePace(m: Match, now: int, e: Event)
    requires !e.Elapse? && !e.Play?
    ensures SamePace(m, Handle(m, now, e)) && (Handle(m, now, e).phase.Playing? <==> m.phase.Playing?)
  {
  }

  lemma PacketPaced(m: Match, now: int, e: Event)
    requires !e.Elapse? && m.ledger.clock == now && (m.phase.Playing? ==> Paced(m))
    ensures Handle(m, now, e).phase.Playing? ==> m.phase.Playing? && Paced(Handle(m, now, e))
  {
    match e
    case Play(uid, card) => if m.phase.Playing? { PlayPaced(m, uid, card, false, now); }
    case _ => PacketSamePace(m, now, e);
  }

  lemma StepWithinHour(m: Match, now: int, e: Event)
    requires Inv(m) && Admissible(m, now, e) && WithinHour(m)
    ensures WithinHour(Step(m, now, e))
  {
    var at := At(m, now);
    ClockKeepsInv(m, now);
    match e
    case Elapse(tick) => TickWithinHour(at, tick);
    case _ =>
      PacketPaced(at, now, e);
      if m.phase.Playing? { PacketPeople(at, now, e); }
  }

  lemma {:induction false} RunWithinHour(m: Match, events: seq<(int, Event)>)
    requires Inv(m) && WithinHour(m) && AdmissibleRun(m, events)
    ensures WithinHour(Run(m, events))
    decreases |events|
  {
    if events != [] {
      StepKeepsInv(m, events[0].0, events[0].1);
      StepWithinHour(m, events[0].0, events[0].1);
      RunWithinHour(Step(m, events[0].0, events[0].1), events[1..]);
    }
  }

  /** In every admissible run from a new table, teams or not, no game gets past its nine hundredth round. */
  lemma RoundsAreAlwaysBounded(playerMode: nat, pointMode: int, clock: nat, events: seq<(int, Event)>)
    requires (playerMode == SOLO || playerMode == DUO) && AdmissibleRun(NewMatch(playerMode, pointMode, clock), events)
    ensures var m := Run(NewMatch(playerMode, pointMode, clock), events);
            m.phase.Playing? ==> m.curRound <= MOST_ROUNDS && (m.curRound >= 1 ==> RoundAt(m, m.curRound - 1) <= m.ledger.clock)
  {
    NewMatchInv(playerMode, pointMode, clock);
    RunWithinHour(NewMatch(playerMode, pointMode, clock), events);
  }
}
