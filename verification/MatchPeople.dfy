/**
 The registry's view of a match is right: who sits in and watches a `TressetteMatch.Match` changes
 with every join, leave and tick exactly as the registry's table does, a tick being the outcome of
 the leavers its due tasks kick, in order, and of the bot it asks the pool for.
 */
module MatchPeople {
  import opened Options
  import opened TressetteCards
  import opened DelayedTasks
  import opened TressetteMatch
  import opened MatchRuns
  import opened MatchShape
  import R = Registry

  function Shown(seat: Seat): R.Seat {
    if seat.Empty() then R.Free else R.Taken(seat.uid, seat.isBot)
  }

  function StateOf(phase: Phase): R.MatchState {
    match phase
    case Waiting => R.Waiting
    case PreparingStart => R.PreparingStart
    case Playing => R.Playing
    case Ended => R.Ended
  }

  ghost predicate SameSeats(a: seq<R.Seat>, b: seq<Seat>) {
    |a| == |b| && forall i :: 0 <= i < |b| ==> a[i] == Shown(b[i])
  }

  /** The table shows the people of the match. */
  ghost predicate Shows(t: R.Table, m: Match) {
    SameSeats(t.seats, m.seats) && t.viewers == m.viewers
  }

  // ----- joining and leaving -----

  lemma {:induction false} SeatAgrees(a: seq<R.Seat>, b: seq<Seat>, uid: int)
    requires SameSeats(a, b)
    ensures R.SeatOf(a, uid) == if uid == EMPTY_UID then -1 else SeatWithUid(b, uid)
  {
    if b != [] {
      assert a[0] == Shown(b[0]);
      assert SameSeats(a[1..], b[1..]) by {
        forall i | 0 <= i < |b| - 1 ensures a[1..][i] == Shown(b[1..][i]) { assert a[i + 1] == Shown(b[i + 1]); }
      }
      SeatAgrees(a[1..], b[1..], uid);
    }
  }

  lemma {:induction false} FreeAgrees(a: seq<R.Seat>, b: seq<Seat>)
    requires SameSeats(a, b)
    ensures R.FreeSeat(a) == FirstVacant(b)
  {
    if b != [] {
      assert a[0] == Shown(b[0]);
      assert SameSeats(a[1..], b[1..]) by {
        forall i | 0 <= i < |b| - 1 ensures a[1..][i] == Shown(b[1..][i]) { assert a[i + 1] == Shown(b[i + 1]); }
      }
      FreeAgrees(a[1..], b[1..]);
    }
  }

  lemma JoinAgrees(t: R.Table, m: Match, uid: int, isBot: bool, depth: int)
    requires Shows(t, m) && uid != EMPTY_UID
    ensures t.TryJoin(uid, isBot).None? <==> m.IsPlayer(uid)
    ensures Shows(if t.TryJoin(uid, isBot).Some? then t.TryJoin(uid, isBot).value else t, m.TryJoin(uid, isBot, depth))
  {
    SeatAgrees(t.seats, m.seats, uid);
    FreeAgrees(t.seats, m.seats);
  }

  lemma HasAgrees(t: R.Table, m: Match, uid: int)
    requires Shows(t, m)
    ensures t.Has(uid) <==> m.HasUser(uid)
  {
    SeatAgrees(t.seats, m.seats, uid);
  }

  lemma LeftAgrees(t: R.Table, m: Match, uid: int)
    requires Shows(t, m) && Seating(m)
    ensures Shows(t.Without(uid), m.Left({uid}))
  {
    SeatAgrees(t.seats, m.seats, uid);
  }

  lemma LeaveAgrees(t: R.Table, m: Match, uid: int)
    requires Shows(t, m) && Seating(m)
    ensures Shows(if t.Has(uid) then t.Without(uid) else t, m.UserLeave(uid))
  {
    HasAgrees(t, m, uid);
    if t.Has(uid) {
      assert m.Here({uid}) == {uid};
      LeftAgrees(t, m, uid);
    } else {
      assert m.Here({uid}) == {};
    }
  }

  /** The registry's table of a live match shows its people, its state and whether a game is on. */
  ghost predicate ShowsMatch(w: R.World, id: int, m: Match) {
    && id in w.matches && Shows(w.matches[id], m) && w.matches[id].state == StateOf(m.phase)
    && w.matches[id].inGame == m.inGame && |m.seats| == m.playerMode
  }

  /** The packets of a user the index names a match for do the same in both views. */
  lemma PacketsAgree(w: R.World, id: int, m: Match, uid: int, status: int, seatIdx: int)
    requires ShowsMatch(w, id, m) && Seating(m) && uid in w.index && w.index[uid] == id && uid != EMPTY_UID
    ensures ShowsMatch(w.Disconnect(uid), id, m.Disconnect(uid))
    ensures !w.matches[id].doomed ==>
              && ShowsMatch(w.LeavePacket(uid), id, m.RegisterLeave(uid, status))
              && ShowsMatch(w.ViewerEnters(uid, seatIdx), id, m.ViewerEnter(uid, seatIdx))
  {
    var t := w.matches[id];
    SeatAgrees(t.seats, m.seats, uid);
    HasAgrees(t, m, uid);
    LeaveAgrees(t, m, uid);
    JoinAgrees(t, m, uid, false, 1);
  }

  // ----- kicking -----

  ghost predicate SamePlaces(a: Match, b: Match) {
    |a.seats| == |b.seats| && (forall i :: 0 <= i < |a.seats| ==> Shown(a.seats[i]) == Shown(b.seats[i])) && a.viewers == b.viewers
  }

  lemma GoneSeat(m: Match, uids: set<int>, i: nat)
    requires Seating(m) && i < |m.seats|
    ensures |m.LeaveAll(uids).seats| == |m.seats|
    ensures Shown(m.LeaveAll(uids).seats[i]) == if m.seats[i].uid in uids then R.Free else Shown(m.seats[i])
  {
    if !m.seats[i].Empty() {
      SeatFound(m.seats, i);
      assert m.HasUser(m.seats[i].uid);
    }
  }

  lemma StillSeating(m: Match, uids: set<int>)
    requires Seating(m)
    ensures Seating(m.LeaveAll(uids))
  {
  }

  lemma ViewersLeft(m: Match, uids: set<int>)
    ensures m.LeaveAll(uids).viewers == m.viewers - uids && |m.LeaveAll(uids).seats| == |m.seats|
  {
    forall u | u in m.viewers && u in uids ensures u in m.Here(uids) {
    }
  }

  /** Leaving one after the other is leaving together. */
  lemma LeaveInTurn(m: Match, uid: int, rest: set<int>)
    requires Seating(m)
    ensures SamePlaces(m.UserLeave(uid).LeaveAll(rest), m.LeaveAll({uid} + rest))
  {
    var first := m.UserLeave(uid);
    StillSeating(m, {uid});
    forall i | 0 <= i < |m.seats|
      ensures |first.seats| == |first.LeaveAll(rest).seats| == |m.LeaveAll({uid} + rest).seats| == |m.seats|
      ensures Shown(first.LeaveAll(rest).seats[i]) == Shown(m.LeaveAll({uid} + rest).seats[i]) {
      GoneSeat(m, {uid}, i);
      GoneSeat(first, rest, i);
      GoneSeat(m, {uid} + rest, i);
    }
    ViewersLeft(m, {uid});
    ViewersLeft(first, rest);
    ViewersLeft(m, {uid} + rest);
  }

  function SetOf(uids: seq<int>): set<int> {
    set u | u in uids
  }

  lemma ShowsSame(t: R.Table, a: Match, b: Match)
    requires Shows(t, a) && SamePlaces(a, b)
    ensures Shows(t, b)
  {
  }

  lemma {:induction false} KickAgrees(w: R.World, id: int, m: Match, uids: seq<int>)
    requires id in w.matches && Shows(w.matches[id], m) && Seating(m)
    ensures id in w.KickAll(id, uids).matches && Shows(w.KickAll(id, uids).matches[id], m.LeaveAll(SetOf(uids)))
    decreases |uids|
  {
    if uids == [] {
      assert m.Here({}) == {} && SetOf([]) == {};
    } else {
      LeaveAgrees(w.matches[id], m, uids[0]);
      StillSeating(m, {uids[0]});
      KickAgrees(w.UserLeave(id, uids[0]), id, m.UserLeave(uids[0]), uids[1..]);
      LeaveInTurn(m, uids[0], SetOf(uids[1..]));
      assert SetOf(uids) == {uids[0]} + SetOf(uids[1..]);
      ShowsSame(w.KickAll(id, uids).matches[id], m.UserLeave(uids[0]).LeaveAll(SetOf(uids[1..])), m.LeaveAll(SetOf(uids)));
    }
  }

  // ----- tasks and turns move nobody -----

  lemma {:induction false} DrawMovesNobody(seats: seq<Seat>, deck: seq<int>, i: nat)
    requires i <= |seats|
    ensures |DrawFrom(seats, deck, i).0| == |seats|
    ensures forall k :: 0 <= k < |seats| ==> Shown(DrawFrom(seats, deck, i).0[k]) == Shown(seats[k])
    decreases |seats| - i
  {
    if i < |seats| && deck != [] {
      var n := |deck| - 1;
      DrawMovesNobody(seats[i := seats[i].(cards := seats[i].cards + [deck[n]])], deck[..n], i + 1);
    }
  }

  lemma TaskMovesNobody(m: Match, task: Task, now: int, shuffled: seq<int>)
    requires !task.KickLeavers?
    ensures SamePlaces(m, m.RunTask(task, now, shuffled))
  {
    DrawMovesNobody(m.seats, m.deck, 0);
  }

  lemma EndHandMovesNobody(m: Match, now: int)
    ensures SamePlaces(m, m.EndHand(now))
  {
  }

  lemma AcceptMovesNobody(m: Match, i: nat, card: int, now: int)
    requires i < |m.seats| == |m.table|
    ensures SamePlaces(m, m.Accept(i, card, now))
  {
    var placed := m.Placed(i, card);
    if NO_CARD !in placed.table { EndHandMovesNobody(placed.(turn := -1), now); }
  }

  lemma PlayMovesNobody(m: Match, uid: int, card: int, isAuto: bool, now: int)
    ensures SamePlaces(m, m.PlayCard(uid, card, isAuto, now).0)
  {
    var (m', reply) := m.PlayCard(uid, card, isAuto, now);
    if reply.Accepted? { AcceptMovesNobody(m.Held(m.FindPlayer(uid), isAuto), m.FindPlayer(uid), card, now); }
  }

  lemma TurnMovesNobody(m: Match, i: nat, tick: Tick)
    requires i < |m.seats|
    ensures SamePlaces(m, m.SeatTurn(i, tick.now, tick.expired))
  {
    if m.seats[i].Empty() || !m.seats[i].onTurn || i !in tick.expired {
    } else if m.seats[i].isBot {
      if m.seats[i].cards != [] { PlayMovesNobody(m, m.seats[i].uid, m.BotCard(i), false, tick.now); }
    } else {
      var auto := m.(seats := m.seats[i := m.seats[i].(isAuto := true)]);
      if m.seats[i].cards != [] { PlayMovesNobody(auto, m.seats[i].uid, FirstOfSuit(m.seats[i].cards, m.suit), true, tick.now); }
    }
  }

  lemma {:induction false} TurnsMoveNobody(m: Match, i: nat, tick: Tick)
    requires i <= |m.seats|
    ensures SamePlaces(m, m.AllTurns(i, tick))
    decreases |m.seats| - i
  {
    if i < |m.seats| {
      TurnMovesNobody(m, i, tick);
      TurnsMoveNobody(m.SeatTurn(i, tick.now, tick.expired), i + 1, tick);
    }
  }

  // ----- a whole tick -----

  ghost function ListOf<T(!new)>(s: set<T>): (l: seq<T>)
    ensures forall x :: x in l <==> x in s
  {
    if s == {} then []
    else
      var x :| x in s;
      [x] + ListOf(s - {x})
  }

  /** Whom the due tasks kick, in order. */
  ghost function Kicks(m: Match, now: int, shuffled: seq<int>): seq<int>
    decreases m.queue.DueCount(now)
  {
    if !m.queue.HasDue(now) then []
    else
      var left := Popped(m);
      var task := m.queue.tasks[0].task;
      TaskKeepsDue(left, task, now, shuffled);
      (if task.KickLeavers? then ListOf(left.leavers + SelfPlaying(left.seats)) else [])
      + Kicks(left.RunTask(task, now, shuffled), now, shuffled)
  }

  lemma {:induction false} KickAllConcat(w: R.World, id: int, a: seq<int>, b: seq<int>)
    requires id in w.matches
    ensures id in w.KickAll(id, a).matches && w.KickAll(id, a + b) == w.KickAll(id, a).KickAll(id, b)
    decreases |a|
  {
    if a == [] {
      assert a + b == b;
    } else {
      assert (a + b)[1..] == a[1..] + b;
      KickAllConcat(w.UserLeave(id, a[0]), id, a[1..], b);
    }
  }

  lemma SeatingOfPlaces(m: Match, m': Match)
    requires Seating(m) && SamePlaces(m, m') && m'.playerMode == m.playerMode
    ensures Seating(m')
  {
    forall i | 0 <= i < |m'.seats| ensures Shown(m'.seats[i]) == Shown(m.seats[i]) {
    }
  }

  /** Draining the due tasks kicks exactly the listed uids. */
  lemma {:induction false} DrainAgrees(w: R.World, id: int, m: Match, now: int, shuffled: seq<int>)
    requires id in w.matches && Shows(w.matches[id], m) && Seating(m)
    ensures var left := w.KickAll(id, Kicks(m, now, shuffled));
            && id in left.matches && Shows(left.matches[id], RunDue(m, now, shuffled)) && Seating(RunDue(m, now, shuffled))
    decreases m.queue.DueCount(now)
  {
    if m.queue.HasDue(now) {
      var left := Popped(m);
      var task := m.queue.tasks[0].task;
      var next := left.RunTask(task, now, shuffled);
      TaskKeepsDue(left, task, now, shuffled);
      if task.KickLeavers? {
        var gone := left.leavers + SelfPlaying(left.seats);
        KickAgrees(w, id, left, ListOf(gone));
        assert SetOf(ListOf(gone)) == gone;
        StillSeating(left, gone);
        KickAllConcat(w, id, ListOf(gone), Kicks(next, now, shuffled));
        DrainAgrees(w.KickAll(id, ListOf(gone)), id, next, now, shuffled);
      } else {
        TaskMovesNobody(left, task, now, shuffled);
        SeatingOfPlaces(left, next);
        ShowsSame(w.matches[id], left, next);
        assert [] + Kicks(next, now, shuffled) == Kicks(next, now, shuffled);
        DrainAgrees(w, id, next, now, shuffled);
      }
    }
  }

  ghost predicate WantsBot(m: Match, tick: Tick) {
    m.phase.Waiting? && !Full(m.seats) && tick.botDue
  }

  /** What the registry is told of a tick. */
  ghost function OutcomeOf(m: Match, tick: Tick): R.Outcome {
    R.Outcome(Kicks(m, tick.now, tick.shuffled), WantsBot(RunDue(m, tick.now, tick.shuffled), tick),
              StateOf(Loop(m, tick).phase), Loop(m, tick).inGame)
  }

  lemma {:induction false} FullIsNoVacancy(seats: seq<Seat>)
    ensures Full(seats) <==> FirstVacant(seats) < 0
  {
    if seats != [] {
      FullIsNoVacancy(seats[1..]);
      assert forall i :: 0 < i < |seats| ==> seats[i] == seats[1..][i - 1];
      assert forall i :: 0 <= i < |seats[1..]| ==> seats[1..][i] == seats[i + 1];
    }
  }

  lemma PeopleAgree(t: R.Table, m: Match)
    requires Shows(t, m)
    ensures t.HasPeople() <==> m.HasRealPlayers()
  {
    forall i | 0 <= i < |m.seats|
      ensures (t.seats[i].Taken? && !t.seats[i].isBot) <==> (!m.seats[i].Empty() && !m.seats[i].isBot) {
      assert t.seats[i] == Shown(m.seats[i]);
    }
  }

  lemma BotAgrees(w: R.World, id: int, m: Match, tick: Tick)
    requires id in w.matches && Shows(w.matches[id], m) && m.phase.Waiting? && !Full(m.seats) && tick.botDue
    requires tick.bot == w.pool.Request().0 && (tick.bot.Some? ==> tick.bot.value > NO_WINNER)
    ensures id in w.GenerateBot(id).matches && Shows(w.GenerateBot(id).matches[id], m.GenerateBot(tick))
  {
    var t := w.matches[id];
    FreeAgrees(t.seats, m.seats);
    FullIsNoVacancy(m.seats);
    PeopleAgree(t, m);
    if m.HasRealPlayers() && tick.bot.Some? { JoinAgrees(t, m, tick.bot.value, true, tick.botDepth); }
  }

  lemma QuietTick(m: Match, tick: Tick)
    requires !WantsBot(m, tick)
    ensures SamePlaces(m, m.AfterTasks(tick))
  {
    TurnsMoveNobody(m, 0, tick);
  }

  /**
   A tick of the match is the registry's loop of it: the same people are left, with the bot the pool
   hands out once the leavers are gone, and the same state.
   */
  lemma TickAgrees(w: R.World, id: int, m: Match, tick: Tick)
    requires id in w.matches && Shows(w.matches[id], m) && Seating(m)
    requires tick.bot == w.KickAll(id, Kicks(m, tick.now, tick.shuffled)).pool.Request().0
    requires tick.bot.Some? ==> tick.bot.value > NO_WINNER
    ensures var looped := w.LoopMatch(id, OutcomeOf(m, tick));
            && id in looped.matches && Shows(looped.matches[id], Loop(m, tick))
            && looped.matches[id].state == StateOf(Loop(m, tick).phase) && looped.matches[id].inGame == Loop(m, tick).inGame
  {
    var kicks := Kicks(m, tick.now, tick.shuffled);
    var drained := RunDue(m, tick.now, tick.shuffled);
    DrainAgrees(w, id, m, tick.now, tick.shuffled);
    var kicked := w.KickAll(id, kicks);
    var o := OutcomeOf(m, tick);
    var moved := kicked.With(id, kicked.matches[id].(state := o.state, inGame := o.inGame));
    if o.wantsBot {
      BotAgrees(moved, id, drained, tick);
    } else {
      QuietTick(drained, tick);
      ShowsSame(moved.matches[id], drained, drained.AfterTasks(tick));
    }
  }
}
