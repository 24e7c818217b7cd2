/**
 What a seat can be over whole runs: on its first team or on none, with a search depth the server
 draws. With the small points that makes the bots of a game for two reliable: no tick leaves the
 match where it was.
 */
module MatchSeats {
  import opened Options
  import opened TressetteCards
  import opened DelayedTasks
  import opened TressetteMatch
  import opened MatchRuns
  import opened MatchShape
  import opened MatchRounds
  import opened MatchScores
  import opened MatchTheorems
  import opened MatchBots
  import opened MatchHour
  import opened MatchPoints
  import opened MatchProgress

  /** As many seats as ever, each on the team the table began with or on none, and with a depth from 1 to 3. */
  ghost predicate SeatsFit(m: Match, n: nat) {
    |m.seats| == n &&
    forall k :: 0 <= k < |m.seats| ==>
      (m.seats[k].team == k % 2 || m.seats[k].team == NO_TEAM) && 1 <= m.seats[k].depth <= 3
  }

  ghost predicate SameKinds(m: Match, m': Match) {
    && |m'.seats| == |m.seats|
    && forall k :: 0 <= k < |m.seats| ==> m'.seats[k].team == m.seats[k].team && m'.seats[k].depth == m.seats[k].depth
  }

  lemma SameKindsFit(m: Match, n: nat, m': Match)
    requires SeatsFit(m, n) && SameKinds(m, m')
    ensures SeatsFit(m', n)
  {
  }

  lemma JoinFits(m: Match, n: nat, uid: int, isBot: bool, depth: int)
    requires SeatsFit(m, n) && 1 <= depth <= 3
    ensures SeatsFit(m.TryJoin(uid, isBot, depth), n)
  {
  }

  lemma LeaveFits(m: Match, n: nat, uids: set<int>)
    requires SeatsFit(m, n)
    ensures SeatsFit(m.LeaveAll(uids), n)
  {
  }

  lemma PaidKinds(m: Match, w: nat)
    requires w < |m.seats|
    ensures SameKinds(m, m.Paid(w))
  {
  }

  lemma AfterHandKinds(m: Match, now: int, endRound: bool)
    ensures SameKinds(m, m.AfterHand(now, endRound))
  {
  }

  lemma EndHandKinds(m: Match, now: int)
    ensures SameKinds(m, m.EndHand(now))
  {
    var w := SlotOf(m.table, BestOfSuit(m.table, m.suit, |m.table|));
    if 0 <= w < |m.seats| {
      PaidKinds(m, w);
      AfterHandKinds(m.Paid(w), now, m.deck == [] && m.seats[0].cards == []);
    }
  }

  lemma AcceptKinds(m: Match, i: nat, card: int, now: int)
    requires i < |m.seats| == |m.table|
    ensures SameKinds(m, m.Accept(i, card, now))
  {
    var placed := m.Placed(i, card);
    if NO_CARD !in placed.table { EndHandKinds(placed.(turn := -1), now); }
  }

  lemma PlayKinds(m: Match, uid: int, card: int, isAuto: bool, now: int)
    ensures SameKinds(m, m.PlayCard(uid, card, isAuto, now).0)
  {
    var (m', reply) := m.PlayCard(uid, card, isAuto, now);
    if !reply.Ignored? {
      var held := m.Held(m.FindPlayer(uid), isAuto);
      assert SameKinds(m, held);
      if reply.Accepted? { AcceptKinds(held, m.FindPlayer(uid), card, now); }
    }
  }

  lemma TurnKinds(m: Match, i: nat, tick: Tick)
    requires i < |m.seats|
    ensures SameKinds(m, m.SeatTurn(i, tick.now, tick.expired))
  {
    if m.seats[i].cards != [] {
      var auto := m.(seats := m.seats[i := m.seats[i].(isAuto := true)]);
      PlayKinds(m, m.seats[i].uid, m.BotCard(i), false, tick.now);
      PlayKinds(auto, m.seats[i].uid, FirstOfSuit(m.seats[i].cards, m.suit), true, tick.now);
    }
  }

  lemma {:induction false} TurnsKinds(m: Match, i: nat, tick: Tick)
    requires i <= |m.seats|
    ensures SameKinds(m, m.AllTurns(i, tick))
    decreases |m.seats| - i
  {
    if i < |m.seats| {
      TurnKinds(m, i, tick);
      TurnsKinds(m.SeatTurn(i, tick.now, tick.expired), i + 1, tick);
    }
  }

  lemma {:induction false} DrawKinds(seats: seq<Seat>, deck: seq<int>, i: nat)
    requires i <= |seats|
    ensures var s := DrawFrom(seats, deck, i).0;
            forall k :: 0 <= k < |seats| ==> s[k].team == seats[k].team && s[k].depth == seats[k].depth
    decreases |seats| - i
  {
    if i < |seats| && deck != [] {
      var n := |deck| - 1;
      DrawKinds(seats[i := seats[i].(cards := seats[i].cards + [deck[n]])], deck[..n], i + 1);
    }
  }

  lemma TaskFits(m: Match, n: nat, task: Task, now: int, shuffled: seq<int>)
    requires SeatsFit(m, n)
    ensures SeatsFit(m.RunTask(task, now, shuffled), n)
  {
    if task.KickLeavers? {
      LeaveFits(m, n, m.leavers + SelfPlaying(m.seats));
    } else {
      DrawKinds(m.seats, m.deck, 0);
      SameKindsFit(m, n, m.RunTask(task, now, shuffled));
    }
  }

  lemma {:induction false} DrainFits(m: Match, n: nat, now: int, shuffled: seq<int>)
    requires SeatsFit(m, n)
    ensures SeatsFit(RunDue(m, now, shuffled), n)
    decreases m.queue.DueCount(now)
  {
    if m.queue.HasDue(now) {
      TaskKeepsDue(Popped(m), m.queue.tasks[0].task, now, shuffled);
      TaskFits(Popped(m), n, m.queue.tasks[0].task, now, shuffled);
      DrainFits(Popped(m).RunTask(m.queue.tasks[0].task, now, shuffled), n, now, shuffled);
    }
  }

  lemma AfterTasksFit(m: Match, n: nat, tick: Tick)
    requires SeatsFit(m, n) && (tick.bot.Some? ==> 1 <= tick.botDepth <= 3)
    ensures SeatsFit(m.AfterTasks(tick), n)
  {
    match m.phase
    case Playing => TurnsKinds(m, 0, tick);
    case Waiting => if tick.bot.Some? { JoinFits(m, n, tick.bot.value, true, tick.botDepth); }
    case _ =>
  }

  lemma PacketFits(m: Match, n: nat, now: int, e: Event)
    requires SeatsFit(m, n) && !e.Elapse?
    ensures SeatsFit(Handle(m, now, e), n)
  {
    match e
    case Join(uid) => JoinFits(m, n, uid, false, 1);
    case EnterSeat(uid, _) => JoinFits(m, n, uid, false, 1);
    case LeaveTable(uid, _) => LeaveFits(m, n, {uid});
    case Drop(uid) => LeaveFits(m, n, {uid});
    case Play(uid, card) => PlayKinds(m, uid, card, false, now);
    case Return(uid) => SameKindsFit(m, n, m.ReturnToTable(uid));
    case ClaimNapoli(uid) => SameKindsFit(m, n, m.Napoli(uid));
  }

  lemma StepFits(m: Match, n: nat, now: int, e: Event)
    requires SeatsFit(m, n) && Admissible(m, now, e)
    ensures SeatsFit(Step(m, now, e), n)
  {
    var at := At(m, now);
    match e
    case Elapse(tick) =>
      DrainFits(at, n, now, tick.shuffled);
      AfterTasksFit(RunDue(at, now, tick.shuffled), n, tick);
    case _ => PacketFits(at, n, now, e);
  }

  lemma {:induction false} RunFits(m: Match, n: nat, events: seq<(int, Event)>)
    requires SeatsFit(m, n) && AdmissibleRun(m, events)
    ensures SeatsFit(Run(m, events), n)
    decreases |events|
  {
    if events != [] {
      StepFits(m, n, events[0].0, events[0].1);
      RunFits(Step(m, events[0].0, events[0].1), n, events[1..]);
    }
  }

  /** In every admissible run each seat keeps its team or has none, and every depth is one the server draws. */
  lemma SeatsAlwaysFit(playerMode: nat, pointMode: int, clock: nat, events: seq<(int, Event)>)
    requires AdmissibleRun(NewMatch(playerMode, pointMode, clock), events)
    ensures SeatsFit(Run(NewMatch(playerMode, pointMode, clock), events), playerMode)
  {
    RunFits(NewMatch(playerMode, pointMode, clock), playerMode, events);
  }

  // ----- games for two -----

  lemma BotsInRange(playerMode: nat, pointMode: int, clock: nat, events: seq<(int, Event)>)
    requires (playerMode == SOLO || playerMode == DUO) && AdmissibleRun(NewMatch(playerMode, pointMode, clock), events)
    ensures var m := Run(NewMatch(playerMode, pointMode, clock), events);
            m.phase.Playing? && 0 <= m.turn < |m.seats| ==> BotInRange(m)
  {
    PointsStaySmall(playerMode, pointMode, clock, events);
    SeatsAlwaysFit(playerMode, pointMode, clock, events);
  }

  /** With two seats, in every admissible run, the card a bot chooses on its turn is accepted. */
  lemma BotsAreAlwaysAccepted(pointMode: int, clock: nat, events: seq<(int, Event)>, now: int)
    requires AdmissibleRun(NewMatch(SOLO, pointMode, clock), events)
    ensures var m := Run(NewMatch(SOLO, pointMode, clock), events);
            m.phase.Playing? && |m.seats| == |m.table| && InTrick(m) ==>
              && m.seats[m.turn].cards != []
              && m.PlayCard(m.seats[m.turn].uid, m.BotCard(m.turn), false, now).1.Accepted?
  {
    var m := Run(NewMatch(SOLO, pointMode, clock), events);
    NewMatchInv(SOLO, pointMode, clock);
    RunKeepsInv(NewMatch(SOLO, pointMode, clock), events);
    BotsInRange(SOLO, pointMode, clock, events);
    SeatsAlwaysFit(SOLO, pointMode, clock, events);
    if m.phase.Playing? && |m.seats| == |m.table| && InTrick(m) { BotPlayIsAccepted(m, now); }
  }

  lemma TwoSeatsWouldPlay(pointMode: int, clock: nat, events: seq<(int, Event)>)
    requires AdmissibleRun(NewMatch(SOLO, pointMode, clock), events)
    requires Run(NewMatch(SOLO, pointMode, clock), events).phase.Playing?
    ensures var m := Run(NewMatch(SOLO, pointMode, clock), events);
            |m.seats| == |m.table| && (NonePending(m) ==> WouldPlay(m))
  {
    var m := Run(NewMatch(SOLO, pointMode, clock), events);
    NewMatchInv(SOLO, pointMode, clock);
    RunKeepsInv(NewMatch(SOLO, pointMode, clock), events);
    if NonePending(m) {
      assert InTrick(m);
      BotsAreAlwaysAccepted(pointMode, clock, events, clock);
      BotIsAcceptedIff(m, clock);
    }
  }

  /**
   Nothing gets stuck in a game for two: in every state of every admissible run, a tick by which every
   delayed task is due and every turn timer has run out ends the game, begins the next round, or
   brings the round nearer to its end.
   */
  lemma TwoSeatsMoveOn(pointMode: int, clock: nat, events: seq<(int, Event)>, tick: Tick)
    requires AdmissibleRun(NewMatch(SOLO, pointMode, clock), events)
    requires Run(NewMatch(SOLO, pointMode, clock), events).phase.Playing?
    requires Admissible(Run(NewMatch(SOLO, pointMode, clock), events), tick.now, Elapse(tick))
    requires forall t :: t in Run(NewMatch(SOLO, pointMode, clock), events).queue.tasks ==> t.runAt <= tick.now
    requires 0 in tick.expired && 1 in tick.expired
    ensures var m := Run(NewMatch(SOLO, pointMode, clock), events); MovedOn(m, Step(m, tick.now, Elapse(tick)))
  {
    var m := Run(NewMatch(SOLO, pointMode, clock), events);
    NewMatchInv(SOLO, pointMode, clock);
    RunKeepsInv(NewMatch(SOLO, pointMode, clock), events);
    SeatsAlwaysFit(SOLO, pointMode, clock, events);
    TwoSeatsWouldPlay(pointMode, clock, events);
    if !NonePending(m) { assert m.queue.tasks[0] in m.queue.tasks; }
    TickMovesOn(m, tick);
  }
}
