/**
 Who will have to leave after a game: whoever asked to last, and whoever let the turn timer play and has
 not been back since. Both lists follow the packets of a game and nothing else.
 */
module MatchLeavers {
  import opened Options
  import opened DelayedTasks
  import opened TressetteCards
  import opened TressetteMatch
  import opened MatchRuns
  import opened MatchShape
  import opened MatchRounds
  import opened MatchTheorems
  import opened MatchTables

  // ----- who asked to leave -----

  /** A user's wish to leave after one more event: the last request counts, and status 0 asks for it. */
  predicate Wish(uid: int, e: Event, before: bool) {
    if e.LeaveTable? && e.uid == uid then e.status == 0 else before
  }

  predicate WishAfter(uid: int, events: seq<(int, Event)>, before: bool)
    decreases |events|
  {
    if events == [] then before else WishAfter(uid, events[1..], Wish(uid, events[0].1, before))
  }

  // ----- one play -----

  /** Seat `j` keeps its person, its mark is now `mark`, and nobody's wish has changed. */
  ghost predicate MarkIs(m: Match, r: Match, j: nat, mark: bool) {
    && |r.seats| == |m.seats| && r.leavers == m.leavers && r.playerMode == m.playerMode
    && (forall k :: 0 <= k < |m.seats| ==> r.seats[k].uid == m.seats[k].uid)
    && j < |m.seats| && r.seats[j].isBot == m.seats[j].isBot && r.seats[j].isAuto == mark
  }

  ghost predicate StaysOnTurn(m: Match, r: Match, j: nat) {
    j < |m.seats| == |r.seats| && (m.seats[j].onTurn ==> r.seats[j].onTurn)
  }

  lemma PaidMarks(m: Match, w: int, j: nat)
    requires j < |m.seats| && 0 <= w < |m.seats|
    ensures MarkIs(m, m.Paid(w), j, m.seats[j].isAuto) && StaysOnTurn(m, m.Paid(w), j)
  {
  }

  lemma HandMarks(m: Match, now: int, j: nat)
    requires j < |m.seats|
    ensures MarkIs(m, m.EndHand(now), j, m.seats[j].isAuto) && StaysOnTurn(m, m.EndHand(now), j)
  {
    var w := SlotOf(m.table, BestOfSuit(m.table, m.suit, |m.table|));
    if 0 <= w < |m.seats| { PaidMarks(m, w, j); }
  }

  lemma AcceptMarks(m: Match, i: nat, card: int, now: int, j: nat)
    requires i < |m.seats| == |m.table| && j < |m.seats|
    ensures MarkIs(m, m.Accept(i, card, now), j, m.seats[j].isAuto) && (j != i ==> StaysOnTurn(m, m.Accept(i, card, now), j))
  {
    var placed := m.Placed(i, card);
    if NO_CARD !in placed.table { HandMarks(placed.(turn := -1), now, j); }
  }

  /** The card may come: it is the seat's turn and the trick is open. */
  predicate MayPlay(m: Match, i: int) {
    m.phase.Playing? && m.turn == i && NO_CARD in m.table && |m.table| == |m.seats|
  }

  /** A play touches no mark but the player's own, which goes unless the timer played; nobody's wish changes. */
  lemma PlayMarks(m: Match, uid: int, card: int, isAuto: bool, now: int, j: nat)
    requires j < |m.seats|
    ensures var r, p := m.PlayCard(uid, card, isAuto, now).0, m.FindPlayer(uid);
            && MarkIs(m, r, j, m.seats[j].isAuto && !(j == p && MayPlay(m, p) && !isAuto))
            && (j != p ==> StaysOnTurn(m, r, j))
  {
    var p := m.FindPlayer(uid);
    if m.PlayCard(uid, card, isAuto, now).1.Accepted? { AcceptMarks(m.Held(p, isAuto), p, card, now, j); }
  }

  // ----- the turns of a tick -----

  lemma PlayerIsFound(m: Match, i: nat)
    requires Seating(m) && i < |m.seats| && !m.seats[i].Empty()
    ensures m.FindPlayer(m.seats[i].uid) == i
  {
    SeatFound(m.seats, i);
  }

  /** The timer of the user in seat `i` has run out on its turn. */
  predicate TimesOut(m: Match, i: nat, expired: set<int>) {
    i < |m.seats| && !m.seats[i].Empty() && m.seats[i].onTurn && i in expired
  }

  /** The timer of a user's turn sets its mark and no other one. */
  lemma TurnMarks(m: Match, i: nat, tick: Tick, j: nat)
    requires i < |m.seats| && j < |m.seats| && Seating(m) && !m.seats[j].isBot
    ensures var r := m.SeatTurn(i, tick.now, tick.expired);
            && MarkIs(m, r, j, m.seats[j].isAuto || (i == j && TimesOut(m, j, tick.expired)))
            && (i != j ==> StaysOnTurn(m, r, j))
  {
    var s := m.seats[i];
    if TimesOut(m, i, tick.expired) && s.cards != [] {
      PlayerIsFound(m, i);
      if s.isBot {
        PlayMarks(m, s.uid, m.BotCard(i), false, tick.now, j);
      } else {
        var auto := m.(seats := m.seats[i := s.(isAuto := true)]);
        PlayerIsFound(auto, i);
        PlayMarks(auto, s.uid, FirstOfSuit(s.cards, m.suit), true, tick.now, j);
      }
    }
  }

  lemma MarksKeepSeating(m: Match, r: Match, j: nat, mark: bool)
    requires Seating(m) && MarkIs(m, r, j, mark)
    ensures Seating(r)
  {
  }

  /** In the turns of a tick a user's mark never goes, comes only by its timer, and comes if the timer has run out on its turn. */
  ghost predicate TickMarks(m: Match, r: Match, expired: set<int>, j: nat) {
    && j < |m.seats| == |r.seats| && MarkIs(m, r, j, r.seats[j].isAuto)
    && (m.seats[j].isAuto ==> r.seats[j].isAuto)
    && (r.seats[j].isAuto && !m.seats[j].isAuto ==> j in expired)
  }

  lemma MarksGoOn(m: Match, n: Match, r: Match, expired: set<int>, j: nat)
    requires TickMarks(m, n, expired, j) && TickMarks(n, r, expired, j)
    ensures TickMarks(m, r, expired, j)
  {
  }

  lemma {:induction false} TurnsMark(m: Match, i: nat, tick: Tick, j: nat)
    requires i <= |m.seats| && j < |m.seats| && Seating(m) && !m.seats[j].isBot
    ensures var r := m.AllTurns(i, tick);
            && TickMarks(m, r, tick.expired, j)
            && (i <= j && TimesOut(m, j, tick.expired) ==> r.seats[j].isAuto)
    decreases |m.seats| - i
  {
    if i < |m.seats| {
      var n := m.SeatTurn(i, tick.now, tick.expired);
      TurnMarks(m, i, tick, j);
      MarksKeepSeating(m, n, j, n.seats[j].isAuto);
      TurnsMark(n, i + 1, tick, j);
      MarksGoOn(m, n, n.AllTurns(i + 1, tick), tick.expired, j);
    }
  }

  // ----- every event of a game -----

  /** The tasks of play leave persons, marks and wishes alone. */
  lemma {:induction false} DrainKeepsPersons(m: Match, now: int, shuffled: seq<int>)
    requires TimeInv(m) && m.ledger.clock == now && m.phase.Playing?
    ensures SamePersons(m, RunDue(m, now, shuffled)) && RunDue(m, now, shuffled).leavers == m.leavers
    ensures RunDue(m, now, shuffled).phase.Playing? && RunDue(m, now, shuffled).playerMode == m.playerMode
    decreases m.queue.DueCount(now)
  {
    if m.queue.HasDue(now) {
      var x := m.queue.tasks[0];
      assert x in m.queue.tasks && TaskInTime(m, x);
      TaskKeepsDue(Popped(m), x.task, now, shuffled);
      TaskRunsInTime(m, now, shuffled);
      TaskKeepsPersons(Popped(m), x.task, now, shuffled);
      DrainKeepsPersons(Popped(m).RunTask(x.task, now, shuffled), now, shuffled);
    }
  }

  lemma TickMarksSeats(m: Match, tick: Tick, j: nat)
    requires Inv(m) && m.phase.Playing? && m.ledger.clock == tick.now && j < |m.seats| && !m.seats[j].isBot
    ensures TickMarks(m, Loop(m, tick), tick.expired, j)
  {
    var d := RunDue(m, tick.now, tick.shuffled);
    DrainKeepsPersons(m, tick.now, tick.shuffled);
    assert SamePerson(d.seats[j], m.seats[j]);
    PersonsKeepSeating(m, d);
    TurnsMark(d, 0, tick, j);
  }

  /** How one event of a game may move the mark of the user in seat `j`. */
  predicate MarkMoves(m: Match, e: Event, j: nat, after: bool)
    requires j < |m.seats|
  {
    var seat := m.seats[j];
    if (e.Return? && e.uid == seat.uid) || (e.Play? && e.uid == seat.uid && MayPlay(m, j)) then !after
    else if e.Elapse? then (seat.isAuto ==> after) && (after && !seat.isAuto ==> j in e.tick.expired)
    else after == seat.isAuto
  }

  lemma LeaveMarks(m: Match, uid: int, status: int, j: nat)
    requires Inv(m) && m.phase.Playing? && j < |m.seats|
    ensures var r := m.RegisterLeave(uid, status);
            && r.seats == m.seats
            && (m.seats[j].uid in r.leavers <==> Wish(m.seats[j].uid, LeaveTable(uid, status), m.seats[j].uid in m.leavers))
  {
    PlayerIsFound(m, j);
    if !m.IsPlayer(uid) { OutsiderLeavesNoSeat(m, uid); }
  }

  lemma DropMarks(m: Match, uid: int, j: nat)
    requires Inv(m) && m.phase.Playing? && j < |m.seats|
    ensures m.Disconnect(uid).seats == m.seats
    ensures m.seats[j].uid in m.Disconnect(uid).leavers <==> m.seats[j].uid in m.leavers
  {
    PlayerIsFound(m, j);
    if !m.IsPlayer(uid) { OutsiderLeavesNoSeat(m, uid); }
  }

  lemma PacketMarks(m: Match, now: int, e: Event, j: nat)
    requires Inv(m) && m.phase.Playing? && Admissible(m, now, e) && !e.Elapse? && j < |m.seats| && !m.seats[j].isBot
    ensures var r := Handle(m, now, e);
            && |r.seats| == |m.seats| && MarkMoves(m, e, j, r.seats[j].isAuto) && r.seats[j].isBot == m.seats[j].isBot
            && (m.seats[j].uid in r.leavers <==> Wish(m.seats[j].uid, e, m.seats[j].uid in m.leavers))
  {
    PlayerIsFound(m, j);
    match e
    case Play(uid, card) => PlayMarks(m, uid, card, false, now, j);
    case Return(uid) =>
    case LeaveTable(uid, status) => LeaveMarks(m, uid, status, j);
    case Drop(uid) => DropMarks(m, uid, j);
    case _ =>
  }

  lemma StepMarks(m: Match, now: int, e: Event, j: nat)
    requires Inv(m) && m.phase.Playing? && Admissible(m, now, e) && j < |m.seats| && !m.seats[j].isBot
    ensures var r := Step(m, now, e);
            && |r.seats| == |m.seats| && MarkMoves(m, e, j, r.seats[j].isAuto) && !r.seats[j].isBot && r.seats[j].uid == m.seats[j].uid
            && (m.seats[j].uid in r.leavers <==> Wish(m.seats[j].uid, e, m.seats[j].uid in m.leavers))
  {
    var at := At(m, now);
    ClockKeepsInv(m, now);
    NobodyLeavesAGame(m, now, e);
    if e.Elapse? { TickMarksSeats(at, e.tick, j); } else { PacketMarks(at, now, e, j); }
  }

  // ----- whole games -----

  /** The game goes on before every one of these events. */
  ghost predicate GameOn(m: Match, events: seq<(int, Event)>)
    decreases |events|
  {
    events == [] || (m.phase.Playing? && GameOn(Step(m, events[0].0, events[0].1), events[1..]))
  }

  predicate AbsentAfter(m: Match, e: Event, j: nat, before: bool)
    requires j < |m.seats|
  {
    if (e.Return? && e.uid == m.seats[j].uid) || (e.Play? && e.uid == m.seats[j].uid && MayPlay(m, j)) then false
    else before || (e.Elapse? && j in e.tick.expired)
  }

  /** The timer of seat `j` may have played since its user last did or came back. */
  ghost predicate Absent(m: Match, events: seq<(int, Event)>, j: nat, before: bool)
    requires j < |m.seats|
    decreases |events|
  {
    if events == [] then before
    else
      var n := Step(m, events[0].0, events[0].1);
      |n.seats| == |m.seats| && Absent(n, events[1..], j, AbsentAfter(m, events[0].1, j, before))
  }

  /**
   All through a game, the event that ends it included: the list of leavers holds a user of the game if and
   only if its last request said so, and a user's seat is marked as automatic only if its timer has run out
   since the user last played on its turn or came back.
   */
  lemma {:induction false} WhoMustLeave(m: Match, events: seq<(int, Event)>, j: nat, absent: bool)
    requires Inv(m) && AdmissibleRun(m, events) && GameOn(m, events) && j < |m.seats| && !m.seats[j].isBot
    requires m.seats[j].isAuto ==> absent
    ensures var r := Run(m, events);
            && |r.seats| == |m.seats|
            && (m.seats[j].uid in r.leavers <==> WishAfter(m.seats[j].uid, events, m.seats[j].uid in m.leavers))
            && (r.seats[j].isAuto ==> Absent(m, events, j, absent))
    decreases |events|
  {
    if events != [] {
      var (now, e) := events[0];
      StepKeepsInv(m, now, e);
      StepMarks(m, now, e, j);
      WhoMustLeave(Step(m, now, e), events[1..], j, AbsentAfter(m, e, j, absent));
    }
  }

  // ----- between games -----

  /** Outside a game whoever leaves or is cut off is gone at once, and a start being prepared is off. */
  lemma LeaverIsGone(m: Match, uid: int, status: int)
    requires Inv(m) && !m.phase.Playing? && m.HasUser(uid)
    ensures forall r :: r == m.RegisterLeave(uid, status) || r == m.Disconnect(uid) ==>
              && !r.HasUser(uid) && uid !in r.leavers && r.phase == (if m.phase.PreparingStart? then Waiting else m.phase)
              && forall i :: 0 <= i < |m.seats| && m.seats[i].uid != uid ==> |r.seats| == |m.seats| && r.seats[i] == m.seats[i]
  {
    var r := m.UserLeave(uid);
    assert uid in m.Here({uid});
    SeatMissing(r.seats, uid);
  }

  /** Those who only watch a game go at once. */
  lemma ViewerIsGone(m: Match, uid: int, status: int)
    requires Inv(m) && m.phase.Playing? && uid in m.viewers && !m.IsPlayer(uid)
    ensures forall r :: r == m.RegisterLeave(uid, status) || r == m.Disconnect(uid) ==>
              r.seats == m.seats && r.viewers == m.viewers - {uid} && !r.HasUser(uid) && r.phase.Playing?
  {
    OutsiderLeavesNoSeat(m, uid);
    assert uid in m.Here({uid});
    assert m.Here({uid}) == {uid};
  }
}
