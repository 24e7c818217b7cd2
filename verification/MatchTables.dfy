/**
 The table between games: a full table starts its game three seconds later, a game that ends winds down
 in seven, and who keeps a seat then was settled by the seats and by what their users asked for last.
 */
module MatchTables {
  import opened Options
  import opened TressetteCards
  import opened DelayedTasks
  import opened TressetteMatch
  import opened MatchRuns
  import opened MatchShape
  import opened MatchRounds
  import opened MatchTheorems

  // ----- who keeps a seat -----

  /** A person who plays for themselves and has not asked to leave. */
  predicate Stays(s: Seat, leavers: set<int>) {
    !s.Empty() && !s.isBot && !s.isAuto && s.uid !in leavers
  }

  function SeatAfter(s: Seat, leavers: set<int>): Seat {
    if Stays(s, leavers) || s.Empty() then s else VACANT
  }

  /** After a game the seats of bots, of automatic players and of leavers become free, the others stay as they are. */
  ghost predicate Cleared(m: Match, k: Match) {
    && |k.seats| == |m.seats| && forall i :: 0 <= i < |m.seats| ==> k.seats[i] == SeatAfter(m.seats[i], m.leavers)
  }

  lemma SeatedIsHere(m: Match, i: nat)
    requires Seating(m) && i < |m.seats| && !m.seats[i].Empty()
    ensures m.HasUser(m.seats[i].uid)
  {
    SeatFound(m.seats, i);
  }

  lemma GoneIsSelfPlaying(m: Match, i: nat)
    requires Seating(m) && i < |m.seats| && !m.seats[i].Empty()
    ensures m.seats[i].uid in SelfPlaying(m.seats) <==> m.seats[i].isBot || m.seats[i].isAuto
  {
    if m.seats[i].uid in SelfPlaying(m.seats) {
      var j :| 0 <= j < |m.seats| && !m.seats[j].Empty() && (m.seats[j].isBot || m.seats[j].isAuto) && m.seats[j].uid == m.seats[i].uid;
      assert i == j;
    }
  }

  lemma KickClears(m: Match, now: int, shuffled: seq<int>)
    requires Seating(m)
    ensures Cleared(m, m.RunTask(KickLeavers, now, shuffled))
  {
    var gone := m.leavers + SelfPlaying(m.seats);
    var k := m.RunTask(KickLeavers, now, shuffled);
    forall i | 0 <= i < |m.seats| ensures k.seats[i] == SeatAfter(m.seats[i], m.leavers) {
      if !m.seats[i].Empty() {
        GoneIsSelfPlaying(m, i);
        SeatedIsHere(m, i);
        assert m.seats[i].uid in m.Here(gone) <==> m.seats[i].uid in gone;
      }
    }
  }

  // ----- taking a seat -----

  /** Seat `k` is the first free one. */
  ghost predicate FirstFree(m: Match, k: int) {
    0 <= k < |m.seats| && m.seats[k].Empty() && forall i :: 0 <= i < k ==> !m.seats[i].Empty()
  }

  lemma {:induction false} FreeIsFirst(seats: seq<Seat>)
    ensures var k := FirstVacant(seats);
            if Full(seats) then k == -1
            else 0 <= k < |seats| && seats[k].Empty() && forall i :: 0 <= i < k ==> !seats[i].Empty()
  {
    if seats != [] && !seats[0].Empty() {
      FreeIsFirst(seats[1..]);
      assert forall i :: 0 < i < |seats| ==> seats[i] == seats[1..][i - 1];
    }
  }

  /**
   A viewer who asks for a seat the table has gets the first free one, whichever it asked for. Nobody else
   gets one that way, and a full table or a bad index changes nothing.
   */
  lemma ViewerTakesSeat(m: Match, uid: int, seatIdx: int)
    requires Seating(m)
    ensures var r := m.ViewerEnter(uid, seatIdx);
            if uid in m.viewers && 0 <= seatIdx < m.playerMode && !m.IsPlayer(uid) && !Full(m.seats) then
              exists k :: FirstFree(m, k)
                          && r == m.(viewers := m.viewers - {uid}, seats := m.seats[k := m.seats[k].(uid := uid, isBot := false)])
            else r == m
  {
    var k := FirstVacant(m.seats);
    FreeIsFirst(m.seats);
    if uid in m.viewers && 0 <= seatIdx < m.playerMode && !m.IsPlayer(uid) {
      if Full(m.seats) { assert m.viewers + {uid} == m.viewers; } else { assert FirstFree(m, k); }
    }
  }

  // ----- winding down -----

  ghost predicate Waits(m: Match, task: Task, at: int) {
    exists x :: x in m.queue.tasks && x.task == task && x.runAt == at
  }

  /** The leavers of the ended game are still to be kicked. */
  ghost predicate KickWaits(m: Match) {
    Waits(m, KickLeavers, m.ledger.endedAt + 6_000)
  }

  /** An ended game has its end ahead: leavers are kicked once, six seconds after it ended, and the next game is prepared a second later. */
  ghost predicate Winding(m: Match) {
    m.phase.Ended? ==>
      && Waits(m, PrepareNext, m.ledger.endedAt + 7_000)
      && (forall x :: x in m.queue.tasks && x.task.KickLeavers? ==> x.runAt == m.ledger.endedAt + 6_000)
      && (forall x, y :: x in m.queue.tasks && y in m.queue.tasks && x.task.KickLeavers? && y.task.KickLeavers? ==> x == y)
  }

  /** The tasks an end pushes, on top of what is still waiting. */
  lemma EndPushes(q: Queue<Task>, now: int)
    ensures var r := q.Push(now + 2_000, AnnounceEnd).Push(now + 6_000, KickLeavers).Push(now + 7_000, PrepareNext);
            && (exists x :: x in r.tasks && x.task == KickLeavers && x.runAt == now + 6_000)
            && (exists x :: x in r.tasks && x.task == PrepareNext && x.runAt == now + 7_000)
            && (forall x :: x in r.tasks && x.task.KickLeavers? ==> x in q.tasks || x == Timed(now + 6_000, q.nextId + 1, KickLeavers))
  {
    var a := q.Push(now + 2_000, AnnounceEnd);
    var b := a.Push(now + 6_000, KickLeavers);
    assert Timed(now + 6_000, a.nextId, KickLeavers) in b.Push(now + 7_000, PrepareNext).tasks;
    assert Timed(now + 7_000, b.nextId, PrepareNext) in b.Push(now + 7_000, PrepareNext).tasks;
  }

  /** A game that ends does so now, with the kick ahead; one that is over stays as it is. */
  ghost predicate EndsNow(m: Match, r: Match, now: int) {
    && (m.phase.Playing? ==> r.phase.Playing? || (r.phase.Ended? && KickWaits(r) && r.ledger.endedAt == now))
    && (m.phase.Ended? ==> r.phase.Ended? && r.queue == m.queue && r.ledger.endedAt == m.ledger.endedAt)
  }

  lemma EndWinds(m: Match, now: int)
    requires TimeInv(m) && m.phase.Playing?
    ensures Winding(m.EndGame(now)) && EndsNow(m, m.EndGame(now), now)
  {
    EndPushes(m.queue, now);
    forall x | x in m.queue.tasks ensures OfPlay(x.task) {
      assert TaskInTime(m, x);
    }
  }

  lemma HandWinds(m: Match, now: int)
    requires TimeInv(m) && m.phase.Playing?
    ensures Winding(m.EndHand(now)) && EndsNow(m, m.EndHand(now), now)
  {
    var w := SlotOf(m.table, BestOfSuit(m.table, m.suit, |m.table|));
    if 0 <= w < |m.seats| {
      var scored := m.Paid(w).Scored();
      SameTimesKeepsTimeInv(m, scored);
      EndWinds(scored, now);
    }
  }

  lemma PlayWinds(m: Match, uid: int, card: int, isAuto: bool, now: int)
    requires TimeInv(m) && Winding(m)
    ensures Winding(m.PlayCard(uid, card, isAuto, now).0) && EndsNow(m, m.PlayCard(uid, card, isAuto, now).0, now)
  {
    var i := m.FindPlayer(uid);
    if m.phase.Playing? && i >= 0 && |m.table| == |m.seats| {
      var closed := m.Held(i, isAuto).Placed(i, card).(turn := -1);
      SameTimesKeepsTimeInv(m, closed);
      HandWinds(closed, now);
    }
  }

  lemma TurnWinds(m: Match, i: nat, tick: Tick)
    requires TimeInv(m) && Winding(m) && i < |m.seats|
    ensures Winding(m.SeatTurn(i, tick.now, tick.expired)) && EndsNow(m, m.SeatTurn(i, tick.now, tick.expired), tick.now)
  {
    var seat := m.seats[i];
    if seat.Empty() || !seat.onTurn || i !in tick.expired {
    } else if seat.isBot {
      if seat.cards != [] { PlayWinds(m, seat.uid, m.BotCard(i), false, tick.now); }
    } else {
      var auto := m.(seats := m.seats[i := seat.(isAuto := true)]);
      SameTimesKeepsTimeInv(m, auto);
      if seat.cards != [] { PlayWinds(auto, seat.uid, FirstOfSuit(seat.cards, m.suit), true, tick.now); }
    }
  }

  lemma EndsNowOrThen(m: Match, n: Match, r: Match, now: int)
    requires EndsNow(m, n, now) && EndsNow(n, r, now)
    ensures EndsNow(m, r, now)
  {
  }

  lemma {:induction false} TurnsWind(m: Match, i: nat, tick: Tick)
    requires TimeInv(m) && Winding(m) && m.ledger.clock == tick.now && i <= |m.seats|
    ensures Winding(m.AllTurns(i, tick)) && EndsNow(m, m.AllTurns(i, tick), tick.now)
    decreases |m.seats| - i
  {
    if i < |m.seats| {
      var m' := m.SeatTurn(i, tick.now, tick.expired);
      SeatTurnInTime(m, i, tick);
      TurnWinds(m, i, tick);
      if |m'.seats| == |m.seats| {
        TurnsWind(m', i + 1, tick);
        EndsNowOrThen(m, m', m'.AllTurns(i + 1, tick), tick.now);
      }
    }
  }

  // ----- people -----

  /** The same person or bot, or nobody still, on the same team. */
  predicate SamePerson(a: Seat, b: Seat) {
    a.uid == b.uid && a.team == b.team && a.isBot == b.isBot && a.isAuto == b.isAuto && a.depth == b.depth
  }

  ghost predicate SamePersons(m: Match, r: Match) {
    |r.seats| == |m.seats| && forall i :: 0 <= i < |m.seats| ==> SamePerson(r.seats[i], m.seats[i])
  }

  /** Only those stay who play for themselves and have not asked to leave. */
  ghost predicate Sifted(m: Match, r: Match) {
    |r.seats| == |m.seats| && forall i :: 0 <= i < |m.seats| ==> SamePerson(r.seats[i], SeatAfter(m.seats[i], m.leavers))
  }

  lemma {:induction false} DrawKeepsPersons(seats: seq<Seat>, deck: seq<int>, i: nat)
    requires i <= |seats|
    ensures forall k :: 0 <= k < |seats| ==> SamePerson(DrawFrom(seats, deck, i).0[k], seats[k])
    decreases |seats| - i
  {
    if i < |seats| && deck != [] {
      var n := |deck| - 1;
      DrawKeepsPersons(seats[i := seats[i].(cards := seats[i].cards + [deck[n]])], deck[..n], i + 1);
    }
  }

  /** No other task moves anybody or strikes anybody off the list of leavers. */
  lemma TaskKeepsPersons(m: Match, task: Task, now: int, shuffled: seq<int>)
    requires !task.KickLeavers?
    ensures SamePersons(m, m.RunTask(task, now, shuffled)) && m.RunTask(task, now, shuffled).leavers == m.leavers
    ensures !task.PrepareNext? ==> m.RunTask(task, now, shuffled).phase == m.phase
  {
    DrawKeepsPersons(m.seats, m.deck, 0);
  }

  lemma PersonsKeepSeating(m: Match, r: Match)
    requires Seating(m) && SamePersons(m, r) && r.playerMode == m.playerMode
    ensures Seating(r) && (Full(r.seats) <==> Full(m.seats))
  {
    assert forall i :: 0 <= i < |m.seats| ==> SamePerson(r.seats[i], m.seats[i]);
  }

  lemma KickSifts(m: Match, now: int, shuffled: seq<int>)
    requires Seating(m)
    ensures Sifted(m, m.RunTask(KickLeavers, now, shuffled)) && Seating(m.RunTask(KickLeavers, now, shuffled))
  {
    KickClears(m, now, shuffled);
    LeaveKeepsSeating(m, m.leavers + SelfPlaying(m.seats));
  }

  // ----- a tick after the end -----

  /** A full table prepares the next game, any other waits. */
  ghost predicate LeftBehind(r: Match, now: int) {
    if Full(r.seats) then r.phase.PreparingStart? && r.timeStart == now + 3_000 else r.phase.Waiting?
  }

  /** What a tick at `now` makes of an ended game: people stay until the kick, and a second later the table is free for the next game. */
  ghost predicate WoundTo(m: Match, r: Match, now: int) {
    var t := m.ledger.endedAt;
    && (if KickWaits(m) && t + 6_000 <= now then Sifted(m, r) else SamePersons(m, r) && r.leavers == m.leavers)
    && if t + 7_000 <= now then LeftBehind(r, now)
       else r.phase.Ended? && r.ledger.endedAt == t && Winding(r) && (KickWaits(r) <==> KickWaits(m) && now < t + 6_000)
  }

  lemma {:induction false} DrainIdle(m: Match, now: int, shuffled: seq<int>)
    requires TimeInv(m) && m.ledger.clock == now && (m.phase.Waiting? || m.phase.PreparingStart?)
    ensures var r := RunDue(m, now, shuffled);
            SamePersons(m, r) && r.phase == m.phase && r.timeStart == m.timeStart && r.leavers == m.leavers
    decreases m.queue.DueCount(now)
  {
    if m.queue.HasDue(now) {
      var x := m.queue.tasks[0];
      assert x in m.queue.tasks && TaskInTime(m, x);
      TaskKeepsDue(Popped(m), x.task, now, shuffled);
      TaskRunsInTime(m, now, shuffled);
      TaskKeepsPersons(Popped(m), x.task, now, shuffled);
      DrainIdle(Popped(m).RunTask(x.task, now, shuffled), now, shuffled);
    }
  }

  lemma PopLeaves(m: Match, task: Task, at: int)
    requires m.queue.tasks != [] && (m.queue.tasks[0].task != task || m.queue.tasks[0].runAt != at)
    ensures Waits(Popped(m), task, at) <==> Waits(m, task, at)
  {
  }

  /** The same tasks wait, tasks of play apart. */
  ghost predicate SameWaiting(m: Match, r: Match) {
    && (forall x :: x in m.queue.tasks ==> x in r.queue.tasks)
    && (forall x :: x in r.queue.tasks ==> x in m.queue.tasks || OfPlay(x.task))
  }

  /** Tasks push only tasks of play. */
  lemma TaskPushesPlay(m: Match, task: Task, now: int, shuffled: seq<int>)
    ensures SameWaiting(m, m.RunTask(task, now, shuffled))
    ensures m.RunTask(task, now, shuffled).ledger.endedAt == m.ledger.endedAt
  {
  }

  lemma SameEndAhead(m: Match, r: Match)
    requires SameWaiting(m, r) && m.phase.Ended? && r.phase.Ended? && r.ledger.endedAt == m.ledger.endedAt && Winding(m)
    ensures Winding(r) && (KickWaits(r) <==> KickWaits(m))
  {
  }

  lemma PoppedEndAhead(m: Match)
    requires m.phase.Ended? && Winding(m) && m.queue.tasks != []
    requires !m.queue.tasks[0].task.KickLeavers? && !m.queue.tasks[0].task.PrepareNext?
    ensures Winding(Popped(m)) && (KickWaits(Popped(m)) <==> KickWaits(m))
  {
    PopLeaves(m, KickLeavers, m.ledger.endedAt + 6_000);
    PopLeaves(m, PrepareNext, m.ledger.endedAt + 7_000);
  }

  /** A task of play or the announcement changes nothing of the end ahead. */
  lemma PlayTaskWinds(m: Match, now: int, shuffled: seq<int>)
    requires TimeInv(m) && m.phase.Ended? && Winding(m) && m.queue.HasDue(now)
    requires !m.queue.tasks[0].task.KickLeavers? && !m.queue.tasks[0].task.PrepareNext?
    ensures var r := Popped(m).RunTask(m.queue.tasks[0].task, now, shuffled);
            && r.phase.Ended? && r.ledger.endedAt == m.ledger.endedAt && Winding(r) && (KickWaits(r) <==> KickWaits(m))
            && SamePersons(m, r) && r.leavers == m.leavers
  {
    var x := m.queue.tasks[0];
    PoppedEndAhead(m);
    TaskKeepsPersons(Popped(m), x.task, now, shuffled);
    TaskPushesPlay(Popped(m), x.task, now, shuffled);
    SameEndAhead(Popped(m), Popped(m).RunTask(x.task, now, shuffled));
  }

  lemma KickWinds(m: Match, now: int, shuffled: seq<int>)
    requires TimeInv(m) && Seating(m) && m.phase.Ended? && Winding(m) && m.queue.HasDue(now) && m.queue.tasks[0].task.KickLeavers?
    ensures var r := Popped(m).RunTask(KickLeavers, now, shuffled);
            && r.phase.Ended? && r.ledger.endedAt == m.ledger.endedAt && Winding(r) && !KickWaits(r)
            && KickWaits(m) && m.ledger.endedAt + 6_000 <= now && Sifted(m, r) && Seating(r)
  {
    var x := m.queue.tasks[0];
    assert x in m.queue.tasks;
    m.queue.PopIsLeast();
    PopLeaves(m, PrepareNext, m.ledger.endedAt + 7_000);
    KickSifts(Popped(m), now, shuffled);
  }

  /** With the preparation of the next game the kick is over. */
  lemma PrepareComesLast(m: Match, now: int, shuffled: seq<int>)
    requires TimeInv(m) && m.ledger.clock == now && m.phase.Ended? && Winding(m)
    requires m.queue.HasDue(now) && m.queue.tasks[0].task.PrepareNext?
    ensures !KickWaits(m) && m.ledger.endedAt + 7_000 <= now
    ensures var r := Popped(m).RunTask(PrepareNext, now, shuffled);
            LeftBehind(r, now) && r.seats == m.seats && r.leavers == m.leavers && TimeInv(r) && r.ledger.clock == now
  {
    var x := m.queue.tasks[0];
    assert x in m.queue.tasks && TaskInTime(m, x);
    m.queue.PopIsLeast();
    TaskRunsInTime(m, now, shuffled);
  }

  /** What persons do over two steps of a tick. */
  lemma ThenWound(m: Match, n: Match, r: Match, now: int)
    requires SamePersons(m, n) && n.leavers == m.leavers && n.ledger.endedAt == m.ledger.endedAt && (KickWaits(n) <==> KickWaits(m))
    requires WoundTo(n, r, now)
    ensures WoundTo(m, r, now)
  {
  }

  lemma SiftedThenWound(m: Match, n: Match, r: Match, now: int)
    requires KickWaits(m) && m.ledger.endedAt + 6_000 <= now && Sifted(m, n) && n.ledger.endedAt == m.ledger.endedAt && !KickWaits(n)
    requires WoundTo(n, r, now)
    ensures WoundTo(m, r, now)
  {
  }

  lemma NothingDueWinds(m: Match, now: int)
    requires TimeInv(m) && m.phase.Ended? && Winding(m) && !m.queue.HasDue(now)
    ensures WoundTo(m, m, now)
  {
    m.queue.NothingDue(now);
  }

  lemma SameFull(m: Match, r: Match)
    requires SamePersons(m, r)
    ensures Full(r.seats) <==> Full(m.seats)
  {
    assert forall i :: 0 <= i < |m.seats| ==> SamePerson(r.seats[i], m.seats[i]);
  }

  lemma PrepareWinds(m: Match, now: int, shuffled: seq<int>)
    requires TimeInv(m) && m.ledger.clock == now && m.phase.Ended? && Winding(m)
    requires m.queue.HasDue(now) && m.queue.tasks[0].task.PrepareNext?
    ensures WoundTo(m, RunDue(Popped(m).RunTask(PrepareNext, now, shuffled), now, shuffled), now)
  {
    var n := Popped(m).RunTask(PrepareNext, now, shuffled);
    PrepareComesLast(m, now, shuffled);
    DrainIdle(n, now, shuffled);
    SameFull(n, RunDue(n, now, shuffled));
  }

  lemma {:induction false} DrainWinds(m: Match, now: int, shuffled: seq<int>)
    requires TimeInv(m) && m.ledger.clock == now && Seating(m) && m.phase.Ended? && Winding(m)
    ensures WoundTo(m, RunDue(m, now, shuffled), now)
    decreases m.queue.DueCount(now)
  {
    if !m.queue.HasDue(now) {
      NothingDueWinds(m, now);
    } else {
      var x := m.queue.tasks[0];
      var n := Popped(m).RunTask(x.task, now, shuffled);
      TaskKeepsDue(Popped(m), x.task, now, shuffled);
      TaskRunsInTime(m, now, shuffled);
      if x.task.PrepareNext? {
        PrepareWinds(m, now, shuffled);
      } else if x.task.KickLeavers? {
        KickWinds(m, now, shuffled);
        DrainWinds(n, now, shuffled);
        SiftedThenWound(m, n, RunDue(n, now, shuffled), now);
      } else {
        PlayTaskWinds(m, now, shuffled);
        PersonsKeepSeating(m, n);
        DrainWinds(n, now, shuffled);
        ThenWound(m, n, RunDue(n, now, shuffled), now);
      }
    }
  }

  // ----- every step -----

  lemma {:induction false} DrainPlaysOn(m: Match, now: int, shuffled: seq<int>)
    requires TimeInv(m) && m.ledger.clock == now && m.phase.Playing?
    ensures RunDue(m, now, shuffled).phase.Playing?
    decreases m.queue.DueCount(now)
  {
    if m.queue.HasDue(now) {
      var x := m.queue.tasks[0];
      assert x in m.queue.tasks && TaskInTime(m, x);
      TaskKeepsDue(Popped(m), x.task, now, shuffled);
      TaskRunsInTime(m, now, shuffled);
      TaskKeepsPersons(Popped(m), x.task, now, shuffled);
      DrainPlaysOn(Popped(m).RunTask(x.task, now, shuffled), now, shuffled);
    }
  }

  lemma {:induction false} DrainKeepsWinding(m: Match, now: int, shuffled: seq<int>)
    requires TimeInv(m) && m.ledger.clock == now && Seating(m) && Winding(m)
    ensures Winding(RunDue(m, now, shuffled))
    decreases m.queue.DueCount(now)
  {
    if m.phase.Ended? {
      DrainWinds(m, now, shuffled);
    } else if m.phase.Playing? {
      DrainPlaysOn(m, now, shuffled);
    } else {
      DrainIdle(m, now, shuffled);
    }
  }

  lemma AfterTasksWind(m: Match, tick: Tick)
    requires TimeInv(m) && m.ledger.clock == tick.now && Winding(m)
    ensures Winding(m.AfterTasks(tick)) && EndsNow(m, m.AfterTasks(tick), tick.now)
  {
    if m.phase.Playing? {
      if tick.now - m.timeStart > TIME_MATCH_MAXIMUM { EndWinds(m, tick.now); } else { TurnsWind(m, 0, tick); }
    }
  }

  lemma TickStepWinds(m: Match, tick: Tick)
    requires Inv(m) && Winding(m) && m.ledger.clock == tick.now
    ensures Winding(Loop(m, tick))
    ensures m.phase.Playing? && Loop(m, tick).phase.Ended? ==> KickWaits(Loop(m, tick)) && Loop(m, tick).ledger.endedAt == tick.now
    ensures m.phase.Ended? && KickWaits(m) && tick.now < m.ledger.endedAt + 6_000 ==>
              Loop(m, tick).phase.Ended? && KickWaits(Loop(m, tick)) && Loop(m, tick).ledger.endedAt == m.ledger.endedAt
  {
    var d := RunDue(m, tick.now, tick.shuffled);
    RunDueInTime(m, tick.now, tick.shuffled);
    DrainKeepsWinding(m, tick.now, tick.shuffled);
    AfterTasksWind(d, tick);
    if m.phase.Ended? { DrainWinds(m, tick.now, tick.shuffled); }
    if m.phase.Playing? { DrainPlaysOn(m, tick.now, tick.shuffled); }
  }

  /** The end of a game and what comes after it, event by event. */
  lemma StepWinds(m: Match, now: int, e: Event)
    requires Inv(m) && Winding(m) && Admissible(m, now, e)
    ensures Winding(Step(m, now, e))
    ensures m.phase.Playing? && Step(m, now, e).phase.Ended? ==> KickWaits(Step(m, now, e)) && Step(m, now, e).ledger.endedAt == now
    ensures m.phase.Ended? && KickWaits(m) && now < m.ledger.endedAt + 6_000 ==>
              Step(m, now, e).phase.Ended? && KickWaits(Step(m, now, e)) && Step(m, now, e).ledger.endedAt == m.ledger.endedAt
  {
    var at := At(m, now);
    ClockKeepsInv(m, now);
    assert KickWaits(at) <==> KickWaits(m);
    match e
    case Elapse(tick) => TickStepWinds(at, tick);
    case Play(uid, card) => PlayWinds(at, uid, card, false, now);
    case _ => QuietEvent(at, now, e);
  }

  lemma {:induction false} RunWinds(m: Match, events: seq<(int, Event)>)
    requires Inv(m) && Winding(m) && AdmissibleRun(m, events)
    ensures Winding(Run(m, events))
    decreases |events|
  {
    if events != [] {
      StepKeepsInv(m, events[0].0, events[0].1);
      StepWinds(m, events[0].0, events[0].1);
      RunWinds(Step(m, events[0].0, events[0].1), events[1..]);
    }
  }

  // ----- the table goes on -----

  /** A seat at the end of a tick: as it was left, or taken by a bot if nobody was in it. */
  predicate KeptOrBot(s: Seat, left: Seat) {
    SamePerson(s, left) || (left.Empty() && s.isBot)
  }

  /** How a tick at `now` leaves a table whose game is over. */
  ghost predicate GoesOn(m: Match, r: Match, now: int) {
    var t := m.ledger.endedAt;
    var kicked := KickWaits(m) && t + 6_000 <= now;
    && |r.seats| == |m.seats|
    && (forall i :: 0 <= i < |m.seats| ==> KeptOrBot(r.seats[i], if kicked then SeatAfter(m.seats[i], m.leavers) else m.seats[i]))
    && if now < t + 7_000 then r.phase.Ended?
       else if Full(r.seats) && r.phase.PreparingStart? then r.timeStart == now + 3_000
       else r.phase.Waiting?
  }

  lemma GeneratedIsBot(m: Match, tick: Tick)
    ensures var r := m.GenerateBot(tick);
            && r.phase == m.phase && |r.seats| == |m.seats|
            && forall i :: 0 <= i < |m.seats| ==> KeptOrBot(r.seats[i], m.seats[i])
  {
  }

  lemma TickWinds(m: Match, tick: Tick)
    requires Inv(m) && Winding(m) && m.phase.Ended? && m.ledger.clock == tick.now
    ensures GoesOn(m, Loop(m, tick), tick.now)
  {
    DrainWinds(m, tick.now, tick.shuffled);
    var d := RunDue(m, tick.now, tick.shuffled);
    if d.phase.Waiting? { GeneratedIsBot(d, tick); }
  }

  lemma {:induction false} KickStaysAhead(m: Match, events: seq<(int, Event)>)
    requires Inv(m) && Winding(m) && m.phase.Ended? && KickWaits(m) && AdmissibleRun(m, events)
    requires forall x :: x in events ==> x.0 < m.ledger.endedAt + 6_000
    ensures var r := Run(m, events); r.phase.Ended? && KickWaits(r) && r.ledger.endedAt == m.ledger.endedAt
    decreases |events|
  {
    if events != [] {
      var (now, e) := events[0];
      assert events[0] in events;
      StepKeepsInv(m, now, e);
      StepWinds(m, now, e);
      KickStaysAhead(Step(m, now, e), events[1..]);
    }
  }

  /**
   Whenever an event ends a game, at `now`: whatever happens in the next six seconds, the game stays ended
   and the kick of its leavers lies ahead.
   */
  lemma KickComes(playerMode: nat, pointMode: int, clock: nat, events: seq<(int, Event)>, now: int, e: Event, after: seq<(int, Event)>)
    requires (playerMode == SOLO || playerMode == DUO) && AdmissibleRun(NewMatch(playerMode, pointMode, clock), events)
    requires Admissible(Run(NewMatch(playerMode, pointMode, clock), events), now, e)
    requires AdmissibleRun(Step(Run(NewMatch(playerMode, pointMode, clock), events), now, e), after)
    requires forall x :: x in after ==> x.0 < now + 6_000
    ensures var m := Run(NewMatch(playerMode, pointMode, clock), events);
            m.phase.Playing? && Step(m, now, e).phase.Ended? ==>
              var r := Run(Step(m, now, e), after);
              r.phase.Ended? && KickWaits(r) && r.ledger.endedAt == now
  {
    var start := NewMatch(playerMode, pointMode, clock);
    var m := Run(start, events);
    NewMatchInv(playerMode, pointMode, clock);
    RunKeepsInv(start, events);
    RunWinds(start, events);
    StepKeepsInv(m, now, e);
    StepWinds(m, now, e);
    if m.phase.Playing? && Step(m, now, e).phase.Ended? { KickStaysAhead(Step(m, now, e), after); }
  }

  /**
   From a fresh table, in every admissible run, on every tick after a game: nobody moves for six seconds.
   Then everybody stays who plays for themselves and has not asked to leave, and every other seat is
   freed. A second later the table waits, or prepares the next game three seconds ahead if it is full.
   */
  lemma GameWindsDown(playerMode: nat, pointMode: int, clock: nat, events: seq<(int, Event)>, tick: Tick)
    requires (playerMode == SOLO || playerMode == DUO) && AdmissibleRun(NewMatch(playerMode, pointMode, clock), events)
    requires Run(NewMatch(playerMode, pointMode, clock), events).phase.Ended?
    requires Run(NewMatch(playerMode, pointMode, clock), events).ledger.clock <= tick.now
    ensures var m := At(Run(NewMatch(playerMode, pointMode, clock), events), tick.now);
            GoesOn(m, Loop(m, tick), tick.now)
  {
    var start := NewMatch(playerMode, pointMode, clock);
    NewMatchInv(playerMode, pointMode, clock);
    RunKeepsInv(start, events);
    RunWinds(start, events);
    ClockKeepsInv(Run(start, events), tick.now);
    TickWinds(At(Run(start, events), tick.now), tick);
  }

  // ----- the next game -----

  /** A game before its first round: nobody has points, cards or a mark, and nobody is leaving. */
  ghost predicate FreshGame(m: Match, now: int) {
    && m.phase.Playing? && m.timeStart == now && m.leavers == {} && m.curRound == 0 && m.teamScore1 == 0 && m.teamScore2 == 0
    && m.turn == 0 && m.suit == -1 && m.deck == [] && (forall k :: 0 <= k < |m.table| ==> m.table[k] == NO_CARD)
    && forall i :: 0 <= i < |m.seats| ==>
         var s := m.seats[i];
         s.points == 0 && s.lastTrick == 0 && s.cards == [] && !s.isAuto && !s.onTurn
  }

  /** The same users in the same seats of the same teams. */
  ghost predicate SameUsers(m: Match, r: Match) {
    |r.seats| == |m.seats| && forall i :: 0 <= i < |m.seats| ==> r.seats[i].uid == m.seats[i].uid && r.seats[i].team == m.seats[i].team
  }

  lemma FullTablePrepares(m: Match, tick: Tick)
    requires TimeInv(m) && m.phase.Waiting? && Full(m.seats) && m.ledger.clock == tick.now
    ensures var r := Loop(m, tick);
            TimeInv(r) && r.ledger.clock == tick.now && r.phase.PreparingStart? && r.timeStart == tick.now + 3_000 && SamePersons(m, r)
  {
    var d := RunDue(m, tick.now, tick.shuffled);
    DrainIdle(m, tick.now, tick.shuffled);
    RunDueInTime(m, tick.now, tick.shuffled);
    SameFull(m, d);
    PrepareInTime(d, tick.now);
  }

  lemma PreparedTableStarts(m: Match, tick: Tick)
    requires TimeInv(m) && m.phase.PreparingStart? && Full(m.seats) && m.ledger.clock == tick.now
    ensures var r := Loop(m, tick);
            if tick.now > m.timeStart && m.timeStart != -1 then FreshGame(r, tick.now) && SameUsers(m, r)
            else r.phase.PreparingStart? && SamePersons(m, r)
  {
    DrainIdle(m, tick.now, tick.shuffled);
    SameFull(m, RunDue(m, tick.now, tick.shuffled));
  }

  /**
   A full table prepares its game on the next tick and starts it on the first one more than three seconds
   later, if nobody leaves meanwhile; before that it goes on preparing.
   */
  lemma FullTableStarts(m: Match, first: Tick, next: Tick)
    requires TimeInv(m) && m.phase.Waiting? && Full(m.seats) && m.ledger.clock <= first.now <= next.now
    ensures var ready := Loop(At(m, first.now), first);
            && ready.phase.PreparingStart? && ready.timeStart == first.now + 3_000 && SamePersons(m, ready)
            && var r := Loop(At(ready, next.now), next);
               if next.now > first.now + 3_000 && first.now + 3_000 != -1 then FreshGame(r, next.now) && SameUsers(m, r)
               else r.phase.PreparingStart? && SamePersons(m, r)
  {
    var at := At(m, first.now);
    ClockForward(m, first.now);
    FullTablePrepares(at, first);
    var ready := Loop(at, first);
    ClockForward(ready, next.now);
    SameFull(m, ready);
    PreparedTableStarts(At(ready, next.now), next);
  }
}
