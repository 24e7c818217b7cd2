/** What the match guarantees over whole runs, and exactly where it does not. */
module MatchTheorems {
  import opened Options
  import opened TressetteCards
  import opened DelayedTasks
  import opened TressetteMatch
  import opened MatchRuns
  import opened MatchCards
  import opened MatchShape
  import opened MatchRounds
  import opened MatchScores

  // ----- every run -----

  /** The invariant of every run in which no card is accepted too early. */
  ghost predicate Inv(m: Match) {
    && TimeInv(m) && Seating(m) && !m.ledger.early && (m.inGame <==> m.phase.Playing?)
    && (m.phase.Playing? ==> Shape(m) && Scores(m))
  }

  /** What the outside brings: a clock that does not run back, real uids, shuffles and depths, no early play. */
  ghost predicate Admissible(m: Match, now: int, e: Event) {
    && InTime(m, now, e)
    && match e
       case Join(uid) => uid > NO_WINNER
       case EnterSeat(uid, _) => uid > NO_WINNER
       case Play(uid, card) => !TooEarly(m, uid, card)
       case Elapse(tick) =>
         Shuffled(tick.shuffled) && (tick.bot.Some? ==> tick.bot.value > NO_WINNER && 1 <= tick.botDepth <= 3)
       case _ => true
  }

  ghost predicate AdmissibleRun(m: Match, events: seq<(int, Event)>)
    decreases |events|
  {
    events == [] ||
    (Admissible(m, events[0].0, events[0].1) && AdmissibleRun(Step(m, events[0].0, events[0].1), events[1..]))
  }

  /** A run is its first step and the run from there. */
  lemma RunStarts(m: Match, e: (int, Event), rest: seq<(int, Event)>)
    ensures Run(m, [e] + rest) == Run(Step(m, e.0, e.1), rest)
    ensures Admissible(m, e.0, e.1) && AdmissibleRun(Step(m, e.0, e.1), rest) ==> AdmissibleRun(m, [e] + rest)
  {
    assert ([e] + rest)[1..] == rest;
  }

  lemma {:induction false} ConcatRuns(m: Match, a: seq<(int, Event)>, b: seq<(int, Event)>)
    ensures Run(m, a + b) == Run(Run(m, a), b)
    decreases |a|
  {
    if a == [] {
      assert a + b == b;
    } else {
      assert (a + b)[0] == a[0] && (a + b)[1..] == a[1..] + b;
      ConcatRuns(Step(m, a[0].0, a[0].1), a[1..], b);
    }
  }

  lemma RunGoesOn(m: Match, events: seq<(int, Event)>)
    requires events != [] && AdmissibleRun(m, events)
    ensures Admissible(m, events[0].0, events[0].1)
    ensures AdmissibleRun(Step(m, events[0].0, events[0].1), events[1..])
    ensures Run(m, events) == Run(Step(m, events[0].0, events[0].1), events[1..])
  {
  }

  lemma {:induction false} ConcatIsAdmissible(m: Match, a: seq<(int, Event)>, b: seq<(int, Event)>, m': Match)
    requires AdmissibleRun(m, a) && Run(m, a) == m' && AdmissibleRun(m', b)
    ensures AdmissibleRun(m, a + b)
    decreases |a|
  {
    if a == [] {
      assert a + b == b;
    } else {
      RunGoesOn(m, a);
      ConcatIsAdmissible(Step(m, a[0].0, a[0].1), a[1..], b, m');
      RunStarts(m, a[0], a[1..] + b);
      assert [a[0]] + (a[1..] + b) == a + b;
    }
  }

  /** One run after another is a run, and admissible if both are. */
  lemma RunConcat(m: Match, a: seq<(int, Event)>, b: seq<(int, Event)>)
    ensures Run(m, a + b) == Run(Run(m, a), b)
    ensures AdmissibleRun(m, a) && AdmissibleRun(Run(m, a), b) ==> AdmissibleRun(m, a + b)
  {
    ConcatRuns(m, a, b);
    if AdmissibleRun(m, a) && AdmissibleRun(Run(m, a), b) { ConcatIsAdmissible(m, a, b, Run(m, a)); }
  }

  lemma NewMatchInv(playerMode: nat, pointMode: int, clock: nat)
    requires playerMode == SOLO || playerMode == DUO
    ensures Inv(NewMatch(playerMode, pointMode, clock))
  {
  }

  lemma JoinKeepsSeating(m: Match, uid: int, isBot: bool, depth: int)
    requires Seating(m) && uid > NO_WINNER
    ensures Seating(m.TryJoin(uid, isBot, depth))
    ensures Full(m.seats) ==> m.TryJoin(uid, isBot, depth).seats == m.seats
  {
    SeatMissing(m.seats, uid);
    SeatMissing(m.seats, EMPTY_UID);
  }

  lemma LeaveKeepsSeating(m: Match, uids: set<int>)
    requires Seating(m)
    ensures Seating(m.LeaveAll(uids))
    ensures (forall i :: 0 <= i < |m.seats| ==> m.seats[i].uid !in uids) ==> m.LeaveAll(uids).seats == m.seats
  {
  }

  /** Whoever has no seat leaves none. */
  lemma OutsiderLeavesNoSeat(m: Match, uid: int)
    requires Seating(m) && !m.IsPlayer(uid)
    ensures m.UserLeave(uid).seats == m.seats
  {
    SeatMissing(m.seats, uid);
    LeaveKeepsSeating(m, {uid});
    var left := m.UserLeave(uid);
    forall i | 0 <= i < |m.seats| ensures left.seats[i] == m.seats[i] {
    }
  }

  // ----- the people of a game -----

  /** The same users sit in the same seats of the same table, each on its team. */
  ghost predicate SamePeople(m: Match, m': Match) {
    && m'.playerMode == m.playerMode && m'.pointMode == m.pointMode && |m'.seats| == |m.seats|
    && forall k :: 0 <= k < |m.seats| ==> m'.seats[k].uid == m.seats[k].uid && m'.seats[k].team == m.seats[k].team
  }

  /** Either the game goes on in the same round, or it has just ended. */
  ghost predicate GoesOnOrEnds(m: Match, m': Match) {
    || (m'.inGame == m.inGame && m'.phase == m.phase && m'.curRound == m.curRound && m'.timeStart == m.timeStart)
    || (m.phase.Playing? && m'.phase.Ended? && !m'.inGame)
  }

  lemma PeopleKeepSeating(m: Match, m': Match)
    requires Seating(m) && SamePeople(m, m')
    ensures Seating(m')
  {
  }

  ghost predicate SamePhase(m: Match, m': Match) {
    m'.phase == m.phase && m'.inGame == m.inGame && m'.curRound == m.curRound && m'.timeStart == m.timeStart
  }

  lemma PaidPeople(m: Match, winner: nat)
    requires winner < |m.seats|
    ensures SamePeople(m, m.Paid(winner)) && SamePhase(m, m.Paid(winner))
  {
  }

  lemma AfterHandPeople(m: Match, now: int, endRound: bool)
    requires m.phase.Playing?
    ensures SamePeople(m, m.AfterHand(now, endRound)) && GoesOnOrEnds(m, m.AfterHand(now, endRound))
  {
    assert m.AfterHand(now, endRound).seats == m.seats;
  }

  lemma EndHandPeople(m: Match, now: int)
    requires m.phase.Playing?
    ensures SamePeople(m, m.EndHand(now)) && GoesOnOrEnds(m, m.EndHand(now))
  {
    var winner := SlotOf(m.table, BestOfSuit(m.table, m.suit, |m.table|));
    if 0 <= winner < |m.seats| {
      PaidPeople(m, winner);
      AfterHandPeople(m.Paid(winner), now, m.deck == [] && m.seats[0].cards == []);
    }
  }

  lemma PlacedPeople(m: Match, i: nat, card: int)
    requires i < |m.seats| == |m.table|
    ensures SamePeople(m, m.Placed(i, card)) && SamePhase(m, m.Placed(i, card))
  {
  }

  lemma PassPeople(m: Match)
    ensures SamePeople(m, m.PassTurn()) && SamePhase(m, m.PassTurn())
  {
  }

  lemma AcceptPeople(m: Match, i: nat, card: int, now: int)
    requires i < |m.seats| == |m.table| && m.phase.Playing?
    ensures SamePeople(m, m.Accept(i, card, now)) && GoesOnOrEnds(m, m.Accept(i, card, now))
  {
    var placed := m.Placed(i, card);
    PlacedPeople(m, i, card);
    if NO_CARD !in placed.table {
      EndHandPeople(placed.(turn := -1), now);
    } else {
      PassPeople(placed);
    }
  }

  lemma PlayPeople(m: Match, uid: int, card: int, isAuto: bool, now: int)
    ensures SamePeople(m, m.PlayCard(uid, card, isAuto, now).0) && GoesOnOrEnds(m, m.PlayCard(uid, card, isAuto, now).0)
  {
    var (m', reply) := m.PlayCard(uid, card, isAuto, now);
    if reply.Accepted? { AcceptPeople(m.Held(m.FindPlayer(uid), isAuto), m.FindPlayer(uid), card, now); }
  }

  lemma TurnPeople(m: Match, i: nat, tick: Tick)
    requires i < |m.seats|
    ensures SamePeople(m, m.SeatTurn(i, tick.now, tick.expired)) && GoesOnOrEnds(m, m.SeatTurn(i, tick.now, tick.expired))
  {
    if m.seats[i].Empty() || !m.seats[i].onTurn || i !in tick.expired {
    } else if m.seats[i].isBot {
      if m.seats[i].cards != [] { PlayPeople(m, m.seats[i].uid, m.BotCard(i), false, tick.now); }
    } else {
      var auto := m.(seats := m.seats[i := m.seats[i].(isAuto := true)]);
      if m.seats[i].cards != [] { PlayPeople(auto, m.seats[i].uid, FirstOfSuit(m.seats[i].cards, m.suit), true, tick.now); }
    }
  }

  lemma {:induction false} TurnsPeople(m: Match, i: nat, tick: Tick)
    requires i <= |m.seats|
    ensures SamePeople(m, m.AllTurns(i, tick)) && GoesOnOrEnds(m, m.AllTurns(i, tick))
    decreases |m.seats| - i
  {
    if i < |m.seats| {
      TurnPeople(m, i, tick);
      TurnsPeople(m.SeatTurn(i, tick.now, tick.expired), i + 1, tick);
    }
  }

  lemma JoinPeople(m: Match, uid: int)
    requires Seating(m) && Full(m.seats) && uid > NO_WINNER
    ensures SamePeople(m, m.TryJoin(uid, false, 1)) && SamePhase(m, m.TryJoin(uid, false, 1))
  {
    JoinKeepsSeating(m, uid, false, 1);
  }

  lemma OutsiderPeople(m: Match, uid: int)
    requires Seating(m) && !m.IsPlayer(uid) && m.phase.Playing?
    ensures SamePeople(m, m.UserLeave(uid)) && SamePhase(m, m.UserLeave(uid))
  {
    OutsiderLeavesNoSeat(m, uid);
  }

  lemma NapoliPeople(m: Match, uid: int)
    ensures SamePeople(m, m.Napoli(uid)) && SamePhase(m, m.Napoli(uid))
  {
  }

  lemma ReturnPeople(m: Match, uid: int)
    ensures SamePeople(m, m.ReturnToTable(uid)) && SamePhase(m, m.ReturnToTable(uid))
  {
  }

  // ----- packets -----

  lemma SameSeatsKeepInv(m: Match, m': Match)
    requires Inv(m) && TimeInv(m') && m'.seats == m.seats && m'.ledger == m.ledger && m'.queue == m.queue
    requires m.phase.Playing? ==> SameStage(m, m') && m'.pointMode == m.pointMode
    requires m'.playerMode == m.playerMode && m'.inGame == m.inGame && (m'.phase.Playing? <==> m.phase.Playing?)
    ensures Inv(m')
  {
    if m.phase.Playing? {
      SameShapeKeeps(m, m');
      SameScores(m, m');
    }
  }

  lemma LeaverKeepsInv(m: Match, uid: int, m': Match)
    requires Inv(m) && TimeInv(m')
    requires m' == m.UserLeave(uid) || m' == m.(leavers := m'.leavers)
    requires m.inGame && m.IsPlayer(uid) ==> m'.seats == m.seats
    ensures Inv(m')
  {
    LeaveKeepsSeating(m, {uid});
    if m.phase.Playing? {
      if !m.IsPlayer(uid) { OutsiderLeavesNoSeat(m, uid); }
      SameSeatsKeepInv(m, m');
    }
  }

  lemma JoinedKeepsInv(m: Match, uid: int)
    requires Inv(m) && uid > NO_WINNER
    ensures Inv(m.TryJoin(uid, false, 1))
  {
    JoinKeepsSeating(m, uid, false, 1);
    SameTimesKeepsTimeInv(m, m.TryJoin(uid, false, 1));
    if m.phase.Playing? { SameSeatsKeepInv(m, m.TryJoin(uid, false, 1)); }
  }

  lemma NapoliSameTimes(m: Match, uid: int)
    ensures SameTimes(m, m.Napoli(uid)) && m.Napoli(uid).ledger.early == m.ledger.early
  {
  }

  /** Nobody claims between rounds: the hands are empty. */
  lemma NapoliNeedsCards(m: Match, uid: int)
    requires Shape(m) && RoundOver(m)
    ensures m.Napoli(uid) == m
  {
  }

  lemma NapoliKeepsShape(m: Match, uid: int)
    requires Shape(m)
    ensures Shape(m.Napoli(uid))
  {
    if RoundOver(m) { NapoliNeedsCards(m, uid); }
    SameShapeKeeps(m, m.Napoli(uid));
  }

  lemma NapoliKeepsInv(m: Match, uid: int)
    requires Inv(m)
    ensures Inv(m.Napoli(uid))
  {
    var m' := m.Napoli(uid);
    NapoliSameTimes(m, uid);
    SameTimesKeepsTimeInv(m, m');
    NapoliPeople(m, uid);
    PeopleKeepSeating(m, m');
    if m.phase.Playing? {
      NapoliScores(m, uid);
      NapoliKeepsShape(m, uid);
    }
  }

  /** Packets other than a play. */
  lemma PacketKeepsInv(m: Match, now: int, e: Event)
    requires Inv(m) && m.ledger.clock == now && Admissible(m, now, e) && !e.Play? && !e.Elapse?
    ensures Inv(Handle(m, now, e))
  {
    HandleInTime(m, now, e);
    var m' := Handle(m, now, e);
    match e
    case Join(uid) => JoinedKeepsInv(m, uid);
    case EnterSeat(uid, seatIdx) => JoinedKeepsInv(m, uid);
    case LeaveTable(uid, status) => LeaverKeepsInv(m, uid, m');
    case Drop(uid) => LeaverKeepsInv(m, uid, m');
    case Return(uid) =>
      if m.phase.Playing? && m.IsPlayer(uid) {
        assert m' == m.Held(m.FindPlayer(uid), false);
        HeldKeepsShape(m, m.FindPlayer(uid), false);
        SameScores(m, m');
      }
    case ClaimNapoli(uid) => NapoliKeepsInv(m, uid);
  }

  lemma TaskKeepsEarly(m: Match, task: Task, now: int, shuffled: seq<int>)
    ensures m.RunTask(task, now, shuffled).ledger.early == m.ledger.early
  {
  }

  lemma {:induction false} DrawFromSeats(seats: seq<Seat>, deck: seq<int>, i: nat)
    requires i <= |seats|
    ensures var s := DrawFrom(seats, deck, i).0; forall k :: 0 <= k < |seats| ==> s[k].uid == seats[k].uid && s[k].team == seats[k].team
    decreases |seats| - i
  {
    if i < |seats| && deck != [] {
      var n := |deck| - 1;
      DrawFromSeats(seats[i := seats[i].(cards := seats[i].cards + [deck[n]])], deck[..n], i + 1);
    }
  }

  lemma TaskPeople(m: Match, task: Task, now: int, shuffled: seq<int>)
    requires !task.KickLeavers?
    ensures SamePeople(m, m.RunTask(task, now, shuffled)) && m.RunTask(task, now, shuffled).inGame == m.inGame
  {
    DrawFromSeats(m.seats, m.deck, 0);
  }

  lemma KickKeepsSeating(m: Match, now: int, shuffled: seq<int>)
    requires Seating(m)
    ensures Seating(m.RunTask(KickLeavers, now, shuffled))
    ensures m.RunTask(KickLeavers, now, shuffled).inGame == m.inGame
  {
  }

  lemma IdleTask(m: Match, now: int, shuffled: seq<int>)
    requires Inv(m) && !m.phase.Playing? && m.queue.HasDue(now)
    ensures var m' := Popped(m).RunTask(m.queue.tasks[0].task, now, shuffled);
            Seating(m') && !m'.ledger.early && !m'.phase.Playing? && !m'.inGame
  {
    var left := Popped(m);
    var task := m.queue.tasks[0].task;
    TaskKeepsEarly(left, task, now, shuffled);
    if task.KickLeavers? {
      KickKeepsSeating(left, now, shuffled);
    } else {
      TaskPeople(left, task, now, shuffled);
    }
  }

  lemma TaskKeepsInv(m: Match, now: int, shuffled: seq<int>)
    requires Inv(m) && m.ledger.clock == now && Shuffled(shuffled) && m.queue.HasDue(now)
    ensures Inv(Popped(m).RunTask(m.queue.tasks[0].task, now, shuffled))
  {
    TaskRunsInTime(m, now, shuffled);
    if m.phase.Playing? {
      TaskKeepsShape(m, now, shuffled);
      TaskScores(m, now, shuffled);
      TaskKeepsEarly(Popped(m), m.queue.tasks[0].task, now, shuffled);
    } else {
      IdleTask(m, now, shuffled);
    }
  }

  lemma {:induction false} DrainKeepsInv(m: Match, now: int, shuffled: seq<int>)
    requires Inv(m) && m.ledger.clock == now && Shuffled(shuffled)
    ensures Inv(RunDue(m, now, shuffled)) && RunDue(m, now, shuffled).ledger.clock == now
    ensures !RunDue(m, now, shuffled).queue.HasDue(now)
    decreases m.queue.DueCount(now)
  {
    if m.queue.HasDue(now) {
      TaskKeepsDue(Popped(m), m.queue.tasks[0].task, now, shuffled);
      TaskRunsInTime(m, now, shuffled);
      TaskKeepsInv(m, now, shuffled);
      DrainKeepsInv(Popped(m).RunTask(m.queue.tasks[0].task, now, shuffled), now, shuffled);
    }
  }

  lemma TurnsKeepInv(m: Match, tick: Tick)
    requires Inv(m) && m.ledger.clock == tick.now && m.phase.Playing? && !m.queue.HasDue(tick.now)
    ensures Inv(m.AfterTasks(tick))
  {
    AfterTasksInTime(m, tick);
    if tick.now - m.timeStart <= TIME_MATCH_MAXIMUM {
      TurnsKeepShape(m, 0, tick);
      TurnsScores(m, 0, tick);
      TurnsPeople(m, 0, tick);
    }
  }

  lemma StartKeepsShape(m: Match, now: int)
    requires Inv(m) && m.phase.PreparingStart? && Full(m.seats) && now > m.timeStart && !m.queue.HasDue(now)
    ensures Shape(m.StartGame(now)) && Scores(m.StartGame(now)) && Seating(m.StartGame(now))
  {
    DrainedIsEmpty(m, now);
    PushedOne(m.queue, now + 1_000, NewRound);
    NobodyScores(ResetSeats(m.seats));
    assert GameOpening(m.StartGame(now));
  }

  lemma AfterTasksKeepsInv(m: Match, tick: Tick)
    requires Inv(m) && m.ledger.clock == tick.now && !m.queue.HasDue(tick.now)
    requires tick.bot.Some? ==> tick.bot.value > NO_WINNER
    ensures Inv(m.AfterTasks(tick))
  {
    AfterTasksInTime(m, tick);
    match m.phase
    case Playing => TurnsKeepInv(m, tick);
    case PreparingStart =>
      if m.timeStart != -1 && tick.now > m.timeStart && Full(m.seats) { StartKeepsShape(m, tick.now); }
    case Waiting =>
      if !Full(m.seats) && tick.bot.Some? { JoinKeepsSeating(m, tick.bot.value, true, tick.botDepth); }
    case Ended =>
  }

  lemma TickKeepsInv(m: Match, tick: Tick)
    requires Inv(m) && m.ledger.clock == tick.now && Shuffled(tick.shuffled)
    requires tick.bot.Some? ==> tick.bot.value > NO_WINNER
    ensures Inv(Loop(m, tick))
  {
    HandleInTime(m, tick.now, Elapse(tick));
    DrainKeepsInv(m, tick.now, tick.shuffled);
    AfterTasksKeepsInv(RunDue(m, tick.now, tick.shuffled), tick);
  }

  lemma PlayKeepsInv(m: Match, uid: int, card: int, now: int)
    requires Inv(m) && m.ledger.clock == now && !TooEarly(m, uid, card)
    ensures Inv(m.PlayCard(uid, card, false, now).0)
  {
    PlayInTime(m, uid, card, false, now);
    if m.phase.Playing? {
      PlayKeepsShape(m, uid, card, false, now);
      PlayScores(m, uid, card, false, now);
      PlayPeople(m, uid, card, false, now);
      PeopleKeepSeating(m, m.PlayCard(uid, card, false, now).0);
    }
  }

  lemma ClockKeepsInv(m: Match, now: int)
    requires Inv(m) && m.ledger.clock <= now
    ensures Inv(At(m, now))
  {
    ClockForward(m, now);
    if m.phase.Playing? {
      SameShapeKeeps(m, At(m, now));
      SameScores(m, At(m, now));
    }
  }

  lemma StepKeepsInv(m: Match, now: int, e: Event)
    requires Inv(m) && Admissible(m, now, e)
    ensures Inv(Step(m, now, e))
  {
    ClockKeepsInv(m, now);
    match e
    case Play(uid, card) => PlayKeepsInv(At(m, now), uid, card, now);
    case Elapse(tick) => TickKeepsInv(At(m, now), tick);
    case _ => PacketKeepsInv(At(m, now), now, e);
  }

  // ----- nobody leaves a game -----

  /** The people of a packet: a game has no free seat, and its players only register to leave. */
  lemma PacketPeople(m: Match, now: int, e: Event)
    requires Inv(m) && m.phase.Playing? && !e.Elapse? && Admissible(m, now, e)
    ensures SamePeople(m, Handle(m, now, e)) && GoesOnOrEnds(m, Handle(m, now, e))
  {
    match e
    case Join(uid) => JoinPeople(m, uid);
    case EnterSeat(uid, _) => JoinPeople(m, uid);
    case LeaveTable(uid, _) => if !m.IsPlayer(uid) { OutsiderPeople(m, uid); }
    case Drop(uid) => if !m.IsPlayer(uid) { OutsiderPeople(m, uid); }
    case Return(uid) => ReturnPeople(m, uid);
    case Play(uid, card) => PlayPeople(m, uid, card, false, now);
    case ClaimNapoli(uid) => NapoliPeople(m, uid);
  }

  lemma TaskKeepsStart(m: Match, task: Task, now: int, shuffled: seq<int>)
    requires !task.PrepareNext?
    ensures m.RunTask(task, now, shuffled).timeStart == m.timeStart
  {
  }

  /** While a game is on only tasks of play are due, and none of them moves anybody. */
  lemma {:induction false} DrainPeople(m: Match, now: int, shuffled: seq<int>)
    requires Inv(m) && m.phase.Playing? && m.ledger.clock == now && Shuffled(shuffled)
    ensures SamePeople(m, RunDue(m, now, shuffled)) && RunDue(m, now, shuffled).phase.Playing?
    ensures RunDue(m, now, shuffled).timeStart == m.timeStart
    decreases m.queue.DueCount(now)
  {
    if m.queue.HasDue(now) {
      var m' := Popped(m).RunTask(m.queue.tasks[0].task, now, shuffled);
      TaskKeepsDue(Popped(m), m.queue.tasks[0].task, now, shuffled);
      TaskRunsInTime(m, now, shuffled);
      TaskKeepsInv(m, now, shuffled);
      TaskKeepsShape(m, now, shuffled);
      TaskPeople(Popped(m), m.queue.tasks[0].task, now, shuffled);
      TaskKeepsStart(Popped(m), m.queue.tasks[0].task, now, shuffled);
      DrainPeople(m', now, shuffled);
    }
  }

  lemma AfterTasksPeople(m: Match, tick: Tick)
    requires m.phase.Playing?
    ensures SamePeople(m, m.AfterTasks(tick)) && GoesOnOrEnds(m, m.AfterTasks(tick))
  {
    TurnsPeople(m, 0, tick);
  }

  /** While a game is on nobody leaves or changes seat or team, whatever happens. */
  lemma NobodyLeavesAGame(m: Match, now: int, e: Event)
    requires Inv(m) && m.phase.Playing? && Admissible(m, now, e)
    ensures SamePeople(m, Step(m, now, e))
  {
    ClockKeepsInv(m, now);
    match e
    case Elapse(tick) =>
      DrainPeople(At(m, now), now, tick.shuffled);
      AfterTasksPeople(RunDue(At(m, now), now, tick.shuffled), tick);
    case _ => PacketPeople(At(m, now), now, e);
  }

  // ----- whole runs -----

  /** Whole runs: from a fresh table, every state of every admissible run satisfies the invariant. */
  lemma {:induction false} RunKeepsInv(m: Match, events: seq<(int, Event)>)
    requires Inv(m) && AdmissibleRun(m, events)
    ensures Inv(Run(m, events))
    decreases |events|
  {
    if events != [] {
      StepKeepsInv(m, events[0].0, events[0].1);
      RunKeepsInv(Step(m, events[0].0, events[0].1), events[1..]);
    }
  }

  /** From a fresh table: in every state of every admissible run, once dealt, the forty cards are partitioned. */
  lemma CardsArePartitioned(playerMode: nat, pointMode: int, clock: nat, events: seq<(int, Event)>, c: int)
    requires (playerMode == SOLO || playerMode == DUO) && AdmissibleRun(NewMatch(playerMode, pointMode, clock), events)
    ensures var m := Run(NewMatch(playerMode, pointMode, clock), events);
            m.phase.Playing? && !NoCards(m) && c != NO_CARD ==>
              m.ledger.overwritten == [] && Copies(m, c) == if IsCard(c) then 1 else 0
  {
    NewMatchInv(playerMode, pointMode, clock);
    RunKeepsInv(NewMatch(playerMode, pointMode, clock), events);
  }

  // ----- the winner leads -----

  /** The cards of the trick in the order they were played. */
  function InPlayOrder(table: seq<int>, leader: nat): (trick: seq<int>)
    requires leader < |table|
    ensures |trick| == |table|
    ensures forall i :: 0 <= i < |table| ==> trick[i] == table[Around(leader + i, |table|)]
  {
    seq(|table|, i requires 0 <= i < |table| => table[Around(leader + i, |table|)])
  }

  lemma TwoCopies(cards: seq<int>, i: nat, j: nat)
    requires i < j < |cards|
    ensures cards[i] == cards[j] ==> multiset(cards)[cards[i]] >= 2
  {
    assert cards == cards[..j] + [cards[j]] + cards[j + 1..];
    assert cards[i] in cards[..j];
  }

  lemma DistinctOnTable(m: Match, i: nat, j: nat)
    requires Partition(m) && i < j < |m.table| && m.table[i] != NO_CARD
    ensures m.table[i] != m.table[j]
  {
    var c := m.table[i];
    assert Copies(m, c) == if IsCard(c) then 1 else 0;
    TwoCopies(m.table, i, j);
  }

  lemma TrickIsReal(m: Match)
    requires Seated(m) && Complete(m)
    ensures AreCards(m.table) && AreCards(InPlayOrder(m.table, m.Leader()))
    ensures forall i, j :: 0 <= i < j < |m.table| ==> m.table[i] != m.table[j]
    ensures InPlayOrder(m.table, m.Leader())[0] == m.table[m.Leader()]
  {
    WinnerExists(m);
    var trick := InPlayOrder(m.table, m.Leader());
    forall c | c in trick ensures IsCard(c) {
      var i :| 0 <= i < |trick| && trick[i] == c;
      assert m.table[Around(m.Leader() + i, |m.table|)] in m.table;
    }
    forall i, j | 0 <= i < j < |m.table| ensures m.table[i] != m.table[j] {
      assert m.table[i] in m.table;
      DistinctOnTable(m, i, j);
    }
  }

  lemma SlotOfWinner(m: Match)
    requires Seated(m) && Complete(m) && AreCards(m.table) && AreCards(InPlayOrder(m.table, m.Leader()))
    ensures var trick := InPlayOrder(m.table, m.Leader());
            var slot := SlotOf(m.table, BestOfSuit(m.table, m.suit, |m.table|));
            slot == Around(m.Leader() + WinnerSlot(trick, |trick|), |m.seats|)
  {
    TrickIsReal(m);
    WinnerExists(m);
    ServerAndClientAgree(InPlayOrder(m.table, m.Leader()), m.Leader(), m.table);
  }

  lemma PaidLeads(m: Match, winner: nat)
    requires Seated(m) && winner < |m.seats|
    ensures m.Paid(winner).Leader() == winner
  {
    SameSeatOf(m.seats, m.Paid(winner).seats, m.seats[winner].uid);
    FoundBySeat(m, winner);
  }

  /**
   When a trick is complete, the seat the offline client would call the winner is paid, and it is the
   seat that leads when the next hand is opened.
   */
  lemma WinnerLeadsNext(m: Match)
    requires Seated(m) && Complete(m)
    ensures var trick := InPlayOrder(m.table, m.Leader());
            AreCards(trick) && AreCards(m.table)
    ensures var trick := InPlayOrder(m.table, m.Leader());
            var winner := Around(m.Leader() + WinnerSlot(trick, |trick|), |m.seats|);
            && winner == SlotOf(m.table, BestOfSuit(m.table, m.suit, |m.table|))
            && m.Paid(winner).Leader() == winner
  {
    TrickIsReal(m);
    SlotOfWinner(m);
    PaidLeads(m, SlotOf(m.table, BestOfSuit(m.table, m.suit, |m.table|)));
  }
}
