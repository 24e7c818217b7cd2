/**
 Whole runs of a match: draining the delayed tasks, one tick, one packet, any sequence of them.
 The first invariant is about time: no task of one game survives into the next.
 */
module MatchRuns {
  import opened Options
  import opened TressetteCards
  import opened DelayedTasks
  import opened TressetteMatch

  // ----- steps -----

  /** A running task pushes only into the future. */
  lemma TaskKeepsDue(m: Match, task: Task, now: int, shuffled: seq<int>)
    ensures m.RunTask(task, now, shuffled).queue.DueCount(now) == m.queue.DueCount(now)
  {
    if task.NewRound? {
      FuturePushKeepsDue(m.queue, now + 1_000, DealCards, now);
      FuturePushKeepsDue(m.queue.Push(now + 1_000, DealCards), now + 2_000, NewHand, now);
    }
  }

  function Popped(m: Match): Match
    requires m.queue.tasks != []
  {
    m.(queue := m.queue.Pop())
  }

  /** Run every task due at `now`, those pushed meanwhile included. */
  ghost function RunDue(m: Match, now: int, shuffled: seq<int>): Match
    decreases m.queue.DueCount(now)
  {
    if !m.queue.HasDue(now) then m
    else
      TaskKeepsDue(Popped(m), m.queue.tasks[0].task, now, shuffled);
      RunDue(Popped(m).RunTask(m.queue.tasks[0].task, now, shuffled), now, shuffled)
  }

  ghost function Loop(m: Match, tick: Tick): Match {
    RunDue(m, tick.now, tick.shuffled).AfterTasks(tick)
  }

  datatype Event =
    | Join(uid: int)
    | EnterSeat(uid: int, seatIdx: int)
    | LeaveTable(uid: int, status: int)
    | Drop(uid: int)
    | Return(uid: int)
    | Play(uid: int, card: int)
    | ClaimNapoli(uid: int)
    | Elapse(tick: Tick)

  function At(m: Match, now: int): Match {
    m.(ledger := m.ledger.(clock := now))
  }

  ghost function Handle(m: Match, now: int, e: Event): Match {
    match e
    case Join(uid) => m.TryJoin(uid, false, 1)
    case EnterSeat(uid, seatIdx) => m.ViewerEnter(uid, seatIdx)
    case LeaveTable(uid, status) => m.RegisterLeave(uid, status)
    case Drop(uid) => m.Disconnect(uid)
    case Return(uid) => m.ReturnToTable(uid)
    case Play(uid, card) => m.PlayCard(uid, card, false, now).0
    case ClaimNapoli(uid) => m.Napoli(uid)
    case Elapse(tick) => Loop(m, tick)
  }

  /** One entry into the match at clock reading `now`. */
  ghost function Step(m: Match, now: int, e: Event): Match {
    Handle(At(m, now), now, e)
  }

  /** The clock never runs backwards and a tick carries its own reading. */
  ghost predicate InTime(m: Match, now: int, e: Event) {
    m.ledger.clock <= now && (e.Elapse? ==> e.tick.now == now)
  }

  /** A table as `create_match` leaves it. */
  function NewMatch(playerMode: nat, pointMode: int, clock: nat): Match {
    Match(playerMode, pointMode, Waiting,
          seq(playerMode, i => VACANT.(team := i % 2)), {}, {}, ClearTable(playerMode), [], 0, 0, 0, 0,
          0, 0, NO_WINNER, -1, {}, false, -1, Queue([], 1),
          Ledger([], [], 0, false, 0, false, clock, clock, clock))
  }

  // ----- time -----

  predicate OfPlay(task: Task) {
    task.NewRound? || task.DealCards? || task.NewHand? || task.DrawCards?
  }

  /** How far ahead of the clock play pushes a task. */
  function Reach(task: Task): int {
    if task.NewRound? then 4_000 else 5_500
  }

  function Later(a: int, b: int): int {
    if a < b then b else a
  }

  ghost predicate TaskInTime(m: Match, t: Timed<Task>) {
    match m.phase
    case Playing => OfPlay(t.task) && t.runAt <= m.ledger.clock + Reach(t.task)
    case Ended =>
      (match t.task
       case AnnounceEnd => t.runAt <= m.ledger.endedAt + 6_000
       case KickLeavers => t.runAt <= m.ledger.endedAt + 6_000
       case PrepareNext => t.runAt == m.ledger.endedAt + 7_000
       case NewRound => t.runAt <= m.ledger.endedAt + 4_000
       case _ => t.runAt <= Later(m.ledger.endedAt + 5_500, m.ledger.clock + 2_000))
    case _ => OfPlay(t.task) && !t.task.NewRound? && t.runAt <= m.ledger.idleSince + 2_000
  }

  /** What every reachable state knows about the tasks still waiting. */
  ghost predicate TimeInv(m: Match) {
    && m.queue.Valid()
    && m.ledger.endedAt <= m.ledger.clock && 0 <= m.ledger.idleSince <= m.ledger.clock
    && (forall t :: t in m.queue.tasks ==> TaskInTime(m, t))
    && (forall t, u :: t in m.queue.tasks && u in m.queue.tasks && t.task.PrepareNext? && u.task.PrepareNext? ==> t == u)
    && (m.phase.PreparingStart? ==> m.timeStart >= m.ledger.idleSince + 3_000)
  }

  /** The part of a match that time is about. */
  ghost predicate SameTimes(m: Match, m': Match) {
    && m'.queue == m.queue && m'.ledger.clock == m.ledger.clock
    && m'.ledger.endedAt == m.ledger.endedAt && m'.ledger.idleSince == m.ledger.idleSince
    && ((m'.phase == m.phase && m'.timeStart == m.timeStart) || (m.phase.PreparingStart? && m'.phase.Waiting?))
  }

  lemma SameTimesKeepsTimeInv(m: Match, m': Match)
    requires TimeInv(m) && SameTimes(m, m')
    ensures TimeInv(m')
  {
  }

  lemma PushKeepsTimeInv(m: Match, now: int, delay: int, task: Task)
    requires TimeInv(m) && TaskInTime(m, Timed(now + delay, m.queue.nextId, task)) && !task.PrepareNext?
    ensures TimeInv(m.PushAfter(now, delay, task))
  {
    var m' := m.PushAfter(now, delay, task);
    m.queue.PushIsValid(now + delay, task);
    forall t | t in m'.queue.tasks ensures TaskInTime(m', t) {
      if t in m.queue.tasks { assert TaskInTime(m, t); }
    }
  }

  lemma PushNextInTime(m: Match, now: int)
    requires TimeInv(m) && m.phase.Ended? && m.ledger.endedAt == now
    requires forall t :: t in m.queue.tasks ==> !t.task.PrepareNext?
    ensures TimeInv(m.PushAfter(now, 7_000, PrepareNext))
  {
    var m' := m.PushAfter(now, 7_000, PrepareNext);
    m.queue.PushIsValid(now + 7_000, PrepareNext);
    forall t | t in m'.queue.tasks ensures TaskInTime(m', t) {
      if t in m.queue.tasks { assert TaskInTime(m, t); }
    }
  }

  lemma EndGameInTime(m: Match, now: int)
    requires TimeInv(m) && m.phase.Playing? && m.ledger.clock == now
    ensures TimeInv(m.EndGame(now))
  {
    var ended := m.Closed(now);
    forall t | t in ended.queue.tasks ensures TaskInTime(ended, t) && !t.task.PrepareNext? {
      assert TaskInTime(m, t);
    }
    assert TimeInv(ended);
    PushKeepsTimeInv(ended, now, 2_000, AnnounceEnd);
    var announced := ended.PushAfter(now, 2_000, AnnounceEnd);
    PushKeepsTimeInv(announced, now, 6_000, KickLeavers);
    PushNextInTime(announced.PushAfter(now, 6_000, KickLeavers), now);
  }

  lemma AfterHandInTime(m: Match, now: int, endRound: bool)
    requires TimeInv(m) && m.ledger.clock == now && m.phase.Playing?
    ensures TimeInv(m.AfterHand(now, endRound)) && m.AfterHand(now, endRound).ledger.clock == now
    ensures m.AfterHand(now, endRound).phase.Playing? || m.AfterHand(now, endRound).phase.Ended?
  {
    var scored := m.Scored();
    SameTimesKeepsTimeInv(m, scored);
    if m.ReachedTarget() {
      EndGameInTime(scored, now);
    } else if endRound {
      PushKeepsTimeInv(scored, now, 4_000, NewRound);
    } else if m.deck != [] {
      PushKeepsTimeInv(scored, now, 2_000, DrawCards);
      PushKeepsTimeInv(scored.PushAfter(now, 2_000, DrawCards), now, 5_500, NewHand);
    } else {
      PushKeepsTimeInv(scored, now, 2_000, NewHand);
    }
  }

  lemma EndHandInTime(m: Match, now: int)
    requires TimeInv(m) && m.ledger.clock == now && m.phase.Playing?
    ensures TimeInv(m.EndHand(now)) && m.EndHand(now).ledger.clock == now
    ensures m.EndHand(now).phase.Playing? || m.EndHand(now).phase.Ended?
  {
    var winner := SlotOf(m.table, BestOfSuit(m.table, m.suit, |m.table|));
    if 0 <= winner < |m.seats| {
      var paid := m.Paid(winner);
      SameTimesKeepsTimeInv(m, paid);
      AfterHandInTime(paid, now, m.deck == [] && m.seats[0].cards == []);
    }
  }

  lemma AcceptInTime(m: Match, i: int, card: int, now: int)
    requires 0 <= i < |m.seats| == |m.table| && TimeInv(m) && m.ledger.clock == now && m.phase.Playing?
    ensures TimeInv(m.Accept(i, card, now)) && m.Accept(i, card, now).ledger.clock == now
    ensures m.Accept(i, card, now).phase.Playing? || m.Accept(i, card, now).phase.Ended?
  {
    var m' := m.Accept(i, card, now);
    var placed := m.Placed(i, card);
    if NO_CARD !in placed.table {
      var closed := placed.(turn := -1);
      SameTimesKeepsTimeInv(m, closed);
      EndHandInTime(closed, now);
    } else {
      SameTimesKeepsTimeInv(m, m');
    }
  }

  /** A play may push the next hand's tasks or end the game, always within reach. */
  lemma PlayInTime(m: Match, uid: int, card: int, isAuto: bool, now: int)
    requires TimeInv(m) && m.ledger.clock == now
    ensures TimeInv(m.PlayCard(uid, card, isAuto, now).0)
    ensures !m.phase.Playing? ==> m.PlayCard(uid, card, isAuto, now).0 == m
    ensures m.PlayCard(uid, card, isAuto, now).0.ledger.clock == now
    ensures m.PlayCard(uid, card, isAuto, now).0.phase.Playing? || m.PlayCard(uid, card, isAuto, now).0.phase.Ended? || !m.phase.Playing?
  {
    var (m', reply) := m.PlayCard(uid, card, isAuto, now);
    if reply.Accepted? {
      var i := m.FindPlayer(uid);
      var held := m.Held(i, isAuto);
      AcceptInTime(held, i, card, now);
    } else {
      SameTimesKeepsTimeInv(m, m');
    }
  }

  lemma QuietTask(m: Match, task: Task, now: int, shuffled: seq<int>)
    requires !task.PrepareNext? && !task.NewRound?
    ensures SameTimes(m, m.RunTask(task, now, shuffled))
  {
  }

  lemma NewRoundInTime(m: Match, now: int)
    requires TimeInv(m) && m.ledger.clock == now && (m.phase.Playing? || m.phase.Ended?)
    ensures TimeInv(m.StartRound(now)) && m.StartRound(now).ledger.clock == now
  {
    var round := m.NextRound();
    SameTimesKeepsTimeInv(m, round);
    PushKeepsTimeInv(round, now, 1_000, DealCards);
    PushKeepsTimeInv(round.PushAfter(now, 1_000, DealCards), now, 2_000, NewHand);
  }

  /** When the ended game is left behind, all it has left runs within two seconds. */
  lemma PrepareNextInTime(m: Match, now: int, shuffled: seq<int>)
    requires TimeInv(m) && m.ledger.clock == now && m.queue.HasDue(now) && m.queue.tasks[0].task.PrepareNext?
    ensures TimeInv(Popped(m).RunTask(PrepareNext, now, shuffled))
  {
    var t := m.queue.tasks[0];
    var m' := Popped(m).RunTask(PrepareNext, now, shuffled);
    m.queue.PopIsLeast();
    assert t in m.queue.tasks && TaskInTime(m, t);
    assert m.phase.Ended?;
    forall u | u in m'.queue.tasks ensures TaskInTime(m', u) {
      assert u in m.queue.tasks && Before(t, u);
      assert TaskInTime(m, u);
      assert u.task.PrepareNext? ==> u == t;
    }
  }

  lemma TaskRunsInTime(m: Match, now: int, shuffled: seq<int>)
    requires TimeInv(m) && m.ledger.clock == now && m.queue.HasDue(now)
    ensures TimeInv(Popped(m).RunTask(m.queue.tasks[0].task, now, shuffled))
    ensures Popped(m).RunTask(m.queue.tasks[0].task, now, shuffled).ledger.clock == now
  {
    var t := m.queue.tasks[0];
    assert t in m.queue.tasks && TaskInTime(m, t);
    m.queue.PopIsLeast();
    var left := Popped(m);
    forall u | u in left.queue.tasks ensures TaskInTime(left, u) {
      assert TaskInTime(m, u);
    }
    assert TimeInv(left);
    if t.task.PrepareNext? {
      PrepareNextInTime(m, now, shuffled);
    } else if t.task.NewRound? {
      NewRoundInTime(left, now);
    } else {
      QuietTask(left, t.task, now, shuffled);
      SameTimesKeepsTimeInv(left, left.RunTask(t.task, now, shuffled));
    }
  }

  lemma {:induction false} RunDueInTime(m: Match, now: int, shuffled: seq<int>)
    requires TimeInv(m) && m.ledger.clock == now
    ensures TimeInv(RunDue(m, now, shuffled)) && RunDue(m, now, shuffled).ledger.clock == now
    ensures !RunDue(m, now, shuffled).queue.HasDue(now)
    decreases m.queue.DueCount(now)
  {
    if m.queue.HasDue(now) {
      TaskKeepsDue(Popped(m), m.queue.tasks[0].task, now, shuffled);
      TaskRunsInTime(m, now, shuffled);
      RunDueInTime(Popped(m).RunTask(m.queue.tasks[0].task, now, shuffled), now, shuffled);
    }
  }

  lemma DrainedIsEmpty(m: Match, now: int)
    requires TimeInv(m) && m.phase.PreparingStart? && now > m.timeStart && !m.queue.HasDue(now)
    ensures m.queue.tasks == []
  {
  }

  lemma StartInTime(m: Match, now: int)
    requires TimeInv(m) && m.ledger.clock == now && m.phase.PreparingStart? && now > m.timeStart && !m.queue.HasDue(now)
    ensures TimeInv(m.StartGame(now)) && m.StartGame(now).ledger.clock == now
  {
    DrainedIsEmpty(m, now);
    m.queue.PushIsValid(now + 1_000, NewRound);
  }

  lemma PrepareInTime(m: Match, now: int)
    requires TimeInv(m) && m.ledger.clock == now && m.phase.Waiting?
    ensures TimeInv(m.PrepareStart(now))
  {
    var m' := m.PrepareStart(now);
    forall t | t in m'.queue.tasks ensures TaskInTime(m', t) {
      assert TaskInTime(m, t);
    }
  }

  lemma SeatTurnInTime(m: Match, i: nat, tick: Tick)
    requires TimeInv(m) && m.ledger.clock == tick.now && i < |m.seats|
    ensures TimeInv(m.SeatTurn(i, tick.now, tick.expired)) && m.SeatTurn(i, tick.now, tick.expired).ledger.clock == tick.now
  {
    if m.seats[i].Empty() || !m.seats[i].onTurn || i !in tick.expired {
    } else if m.seats[i].isBot {
      if m.seats[i].cards != [] { PlayInTime(m, m.seats[i].uid, m.BotCard(i), false, tick.now); }
    } else {
      var auto := m.(seats := m.seats[i := m.seats[i].(isAuto := true)]);
      SameTimesKeepsTimeInv(m, auto);
      if m.seats[i].cards != [] { PlayInTime(auto, m.seats[i].uid, FirstOfSuit(m.seats[i].cards, m.suit), true, tick.now); }
    }
  }

  lemma {:induction false} TurnsInTime(m: Match, i: nat, tick: Tick)
    requires TimeInv(m) && m.ledger.clock == tick.now && i <= |m.seats|
    ensures TimeInv(m.AllTurns(i, tick)) && m.AllTurns(i, tick).ledger.clock == tick.now
    decreases |m.seats| - i
  {
    if i < |m.seats| {
      var m' := m.SeatTurn(i, tick.now, tick.expired);
      SeatTurnInTime(m, i, tick);
      if |m'.seats| == |m.seats| { TurnsInTime(m', i + 1, tick); }
    }
  }

  lemma AfterTasksInTime(m: Match, tick: Tick)
    requires TimeInv(m) && m.ledger.clock == tick.now && !m.queue.HasDue(tick.now)
    ensures TimeInv(m.AfterTasks(tick)) && m.AfterTasks(tick).ledger.clock == tick.now
  {
    match m.phase
    case Playing =>
      if tick.now - m.timeStart > TIME_MATCH_MAXIMUM { EndGameInTime(m, tick.now); } else { TurnsInTime(m, 0, tick); }
    case PreparingStart =>
      if m.timeStart != -1 && tick.now > m.timeStart && Full(m.seats) {
        StartInTime(m, tick.now);
      } else {
        SameTimesKeepsTimeInv(m, m.AfterTasks(tick));
      }
    case Waiting =>
      if Full(m.seats) {
        PrepareInTime(m, tick.now);
      } else {
        SameTimesKeepsTimeInv(m, m.AfterTasks(tick));
      }
    case Ended =>
  }

  lemma ClockForward(m: Match, now: int)
    requires TimeInv(m) && m.ledger.clock <= now
    ensures TimeInv(At(m, now))
  {
  }

  /** Joining, leaving and claiming push no task. */
  lemma QuietEvent(m: Match, now: int, e: Event)
    requires !e.Play? && !e.Elapse?
    ensures SameTimes(m, Handle(m, now, e))
  {
  }

  lemma HandleInTime(m: Match, now: int, e: Event)
    requires TimeInv(m) && m.ledger.clock == now && (e.Elapse? ==> e.tick.now == now)
    ensures TimeInv(Handle(m, now, e)) && Handle(m, now, e).ledger.clock == now
  {
    match e
    case Play(uid, card) => PlayInTime(m, uid, card, false, now);
    case Elapse(tick) =>
      RunDueInTime(m, now, tick.shuffled);
      AfterTasksInTime(RunDue(m, now, tick.shuffled), tick);
    case _ =>
      QuietEvent(m, now, e);
      SameTimesKeepsTimeInv(m, Handle(m, now, e));
  }

  /** Every step of every run keeps the tasks in time. */
  lemma StepInTime(m: Match, now: int, e: Event)
    requires TimeInv(m) && InTime(m, now, e)
    ensures TimeInv(Step(m, now, e)) && Step(m, now, e).ledger.clock == now
  {
    ClockForward(m, now);
    HandleInTime(At(m, now), now, e);
  }

  // ----- whole runs -----

  ghost function Run(m: Match, events: seq<(int, Event)>): Match
    decreases |events|
  {
    if events == [] then m else Run(Step(m, events[0].0, events[0].1), events[1..])
  }

  /** The clock never runs backwards; nothing else is asked of the outside. */
  ghost predicate RunInTime(m: Match, events: seq<(int, Event)>)
    decreases |events|
  {
    events == [] ||
    (InTime(m, events[0].0, events[0].1) && RunInTime(Step(m, events[0].0, events[0].1), events[1..]))
  }

  lemma {:induction false} RunKeepsTime(m: Match, events: seq<(int, Event)>)
    requires TimeInv(m) && RunInTime(m, events)
    ensures TimeInv(Run(m, events))
    decreases |events|
  {
    if events != [] {
      StepInTime(m, events[0].0, events[0].1);
      RunKeepsTime(Step(m, events[0].0, events[0].1), events[1..]);
    }
  }

  /** A tick starts a game. */
  ghost predicate Starts(m: Match, tick: Tick) {
    var m := RunDue(m, tick.now, tick.shuffled);
    m.phase.PreparingStart? && m.timeStart != -1 && tick.now > m.timeStart && Full(m.seats)
  }

  lemma StartsClean(m: Match, tick: Tick)
    requires TimeInv(m) && m.ledger.clock == tick.now && Starts(m, tick)
    ensures RunDue(m, tick.now, tick.shuffled).queue.tasks == []
    ensures Loop(m, tick).phase.Playing?
    ensures forall t :: t in Loop(m, tick).queue.tasks ==> t.task == NewRound && t.runAt == tick.now + 1_000
  {
    RunDueInTime(m, tick.now, tick.shuffled);
    DrainedIsEmpty(RunDue(m, tick.now, tick.shuffled), tick.now);
  }

  /**
   From a fresh table, in every run over a clock that does not run back: whenever a tick starts a game,
   no delayed task is left of the game before, and the new game's first round is all that waits.
   */
  lemma NoStaleTasks(playerMode: nat, pointMode: int, clock: nat, events: seq<(int, Event)>, tick: Tick)
    requires RunInTime(NewMatch(playerMode, pointMode, clock), events)
    requires Run(NewMatch(playerMode, pointMode, clock), events).ledger.clock <= tick.now
    requires Starts(At(Run(NewMatch(playerMode, pointMode, clock), events), tick.now), tick)
    ensures var m := At(Run(NewMatch(playerMode, pointMode, clock), events), tick.now);
            && RunDue(m, tick.now, tick.shuffled).queue.tasks == []
            && Loop(m, tick).phase.Playing?
            && forall t :: t in Loop(m, tick).queue.tasks ==> t.task == NewRound && t.runAt == tick.now + 1_000
  {
    var start := NewMatch(playerMode, pointMode, clock);
    RunKeepsTime(start, events);
    ClockForward(Run(start, events), tick.now);
    StartsClean(At(Run(start, events), tick.now), tick);
  }
}
